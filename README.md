# Portfolio site components, modelled in Dafny

This project models the logic in the interactive parts of a personal
portfolio site built with React and a Material UI theme, and proves
properties about it:

- **Project carousel.** The carousel renders every filtered project in a horizontal strip and scrolls it so that card `currentIndex` comes first, with `cardsToShow` cards to a view. Prev and Next buttons step the index, each disabled at its end. A five-second timer advances it with wrap-around, but only while no project is open. Pagination dots jump to a page. Selecting a card swaps the strip for a detail view of that project.
- **Project grid.** Category filter buttons are built from the projects' own categories, with "all" first. Each card shows at most four technology chips plus a "+n" chip, and an image that falls back to a placeholder. A details dialog opens for one project.
- **Contact form.** It has four fields, error flags for name, e-mail and message, and a status snackbar. Validation treats a name or message that trims to nothing as missing, and tests the e-mail against `^[^\s@]+@[^\s@]+\.[^\s@]+$`. Submitting sends one request whose outcome decides the snackbar and whether the form is cleared. The phone link keeps only digits and `+`.
- **Skill cards.** Each card has a row of five level bars, filled in the skill's colour up to its level. A label reads Expert, Advanced, Intermediate or Beginner.
- **Theme registry.** It holds the palette mode, which starts dark, and the toggle that flips it. It hands the current mode to components through a context whose default, with no provider, is light with a no-op toggle.
- **Design tokens.** `getDesignTokens(mode)` is the palette, typography, corner radius and component style overrides for a mode.

Modules, one per component, plus shared helpers:

| module | file | models |
|---|---|---|
| `Wrappers` | wrappers.dfy | `Option` |
| `Seqs` | seqs.dfy | the no-duplicates condition on the React keys of a rendered list |
| `Text` | text.dfy | first-letter upper-casing, decimal rendering of a count |
| `ProjectData` | project_data.dfy | the project record, category filter, id lookup and chip summary shared by both project components |
| `Carousel` | carousel.dfy | components/ProjectsCardSectionNew.tsx |
| `ProjectGrid` | project_grid.dfy | components/ProjectsSection.tsx |
| `Contact` | contact.dfy | components/ContactSection.tsx |
| `Skills` | skills.dfy | components/SkillsSection.tsx |
| `DesignTokens` | design_tokens.dfy | theme/theme.ts (`getDesignTokens`) |
| `ThemeMode` | theme_registry.dfy | components/ThemeRegistry.tsx |

Each component's state becomes a class: `Carousel.CarouselState`, `ProjectGrid.ProjectGridState`, `Contact.ContactForm` and `ThemeMode.ThemeRegistry`. Its handlers become methods that update the fields in place. Each method is specified against the pure step functions, and the properties are proved about those functions. The level-bar loop is a method with a `for` loop. Token selection and the label and filter expressions are functions.

JavaScript semantics are written out where they matter:

- truthiness: an empty id or image path is falsy;
- `slice` clamps both ends;
- `Math.ceil` rounds the dot count up;
- `new Set` keeps first-insertion order;
- `trim` and `\s` use the same white-space set.

The carousel index is a `nat`. Every handler keeps it non-negative, so Dafny's `%` agrees with JavaScript's there.

CSS values in the tokens are structured rather than text:

- `#3a86ff` is `Hex(0x3a86ff)`;
- `rgba(0, 0, 0, 0.08)` is `Rgba(0, 0, 0, 80)`, with alpha in thousandths;
- a box shadow is its list of layers;
- a linear gradient is its angle and colour stops.

Every number in `getDesignTokens` is kept.

## Model

| member | source | states |
|---|---|---|
| Text.AsciiUpper | components/ProjectsSection.tsx:237 | upper-casing maps `a`..`z` to `A`..`Z` and leaves every other character alone |
| Text.Capitalize | components/ProjectsSection.tsx:237 | same length; the first character is upper-cased and the rest is unchanged; "" stays "" |
| Text.NatToDecimal | components/ProjectsSection.tsx:312 | the rendered count is a non-empty string of digits with no leading zero |
| Text.DecimalRoundTrip | components/ProjectsSection.tsx:312 | reading the rendered digits back gives the count |
| ProjectData.CategoryNamesDistinct | components/ProjectsSection.tsx:48 | the four category literals are pairwise different and none is "all" |
| ProjectData.FilterProjects | components/ProjectsCardSectionNew.tsx:166-168 | "all" keeps every project; any other filter keeps exactly the projects whose category equals it; the result is no longer than the input |
| ProjectData.OfCategory | components/ProjectsCardSectionNew.tsx:168 | `Array.filter` by category: membership is exactly "in the input and of that category" |
| ProjectData.OfCategoryAppend | components/ProjectsCardSectionNew.tsx:168 | filtering distributes over concatenation, so matches keep their order |
| ProjectData.WithId | components/ProjectsCardSectionNew.tsx:264 | the detail lookup returns only projects with that id, and at least one when one exists |
| ProjectData.Ids | components/ProjectsCardSectionNew.tsx:264 | the id of each project, position by position |
| ProjectData.WithIdAtMostOne | components/ProjectsCardSectionNew.tsx:264 | with unique ids the lookup returns at most one project, and exactly one iff the id is present |
| ProjectData.FilterKeepsIdsUnique | components/ProjectsCardSectionNew.tsx:166-168 | filtering a list with distinct ids keeps them distinct |
| ProjectData.OfCategoryKeepsIdsUnique | components/ProjectsCardSectionNew.tsx:168 | the category sub-list of a list with distinct ids has distinct ids |
| ProjectData.ChipSummary | components/ProjectsCardSectionNew.tsx:540-555 | shows the first `min(limit, n)` technologies as a prefix; a `+` chip appears iff `n > limit` |
| ProjectData.ChipSummaryCoversAll | components/ProjectsCardSectionNew.tsx:549-553 | the shown chips plus the number on the `+n` chip add up to all technologies; without that chip every technology is shown |
| Carousel.CardsToShow | components/ProjectsCardSectionNew.tsx:70 | one card iff the viewport is small or medium, otherwise two |
| Carousel.NextIndex | components/ProjectsCardSectionNew.tsx:171-175 | handleNext moves the index by exactly one iff the Next button is enabled (`i < len - k`), otherwise leaves it |
| Carousel.PrevIndex | components/ProjectsCardSectionNew.tsx:177-181 | handlePrev moves back by exactly one iff the Prev button is enabled (`i > 0`) |
| Carousel.AutoIndex | components/ProjectsCardSectionNew.tsx:184-189 | no change when all cards fit; otherwise stays within `0..len-k`, steps forward below the last position and wraps from it to 0 |
| Carousel.NextDisabled | components/ProjectsCardSectionNew.tsx:585 | the Next button is disabled exactly from the last start position `max(0, len - k)` on |
| Carousel.NavButtonsAtEnds | components/ProjectsCardSectionNew.tsx:568-585 | for an in-range index, Next is disabled exactly at the last start position, and Prev and Next are both disabled exactly when the index is 0 and all cards fit |
| Carousel.PageCount | components/ProjectsCardSectionNew.tsx:603 | `Math.ceil(len / k)`: the fewest pages of `k` cards that hold `len` cards, `len <= p * k < len + k` |
| Carousel.DotIndex | components/ProjectsCardSectionNew.tsx:617 | dot `d` sets the index of the first card of page `d`: a multiple of `k` whose quotient is `d` |
| Carousel.VisibleWindow | components/ProjectsCardSectionNew.tsx:211-214 | the computed (and never rendered) `visibleProjects` slice: `min(k, len - i)` consecutive projects from index `i`, none when `i` is past the end |
| Carousel.StepStaysInBounds | components/ProjectsCardSectionNew.tsx:171-189 | next, prev and auto-advance each keep `0 <= index <= max(0, len - k)` |
| Carousel.RunStaysInBounds | components/ProjectsCardSectionNew.tsx:171-189 | any sequence of next, prev and auto-advance from an in-range index stays in range |
| Carousel.DotClickLeavesBounds | components/ProjectsCardSectionNew.tsx:603-617 | with 5 projects two at a time the third dot sets index 4, beyond the last position 3 that the buttons use |
| Carousel.AllDotsInBoundsIff | components/ProjectsCardSectionNew.tsx:603-617 | every dot's index `d * k` is within range iff all cards fit or `k` divides the number of cards |
| Carousel.AutoScrollVisitsEveryPosition | components/ProjectsCardSectionNew.tsx:184-197 | left running from 0, auto-advance reaches position `j` after `j` ticks, for every position |
| Carousel.AutoScrollCycles | components/ProjectsCardSectionNew.tsx:184-189 | after `len - k + 1` ticks auto-advance is back at 0 |
| Carousel.CarouselChips | components/ProjectsCardSectionNew.tsx:540-555 | a card shows the first `min(3, n)` technologies, and a `+n` chip iff it has more than three, whose number is `n - 3` |
| Carousel.EveryCarouselCardOverflows | components/ProjectsCardSectionNew.tsx:72-164 | each of the five carousel projects shows three chips and a `+n` chip |
| Carousel.CarouselProjectsIds | components/ProjectsCardSectionNew.tsx:72-164 | the carousel's project ids are distinct and non-empty |
| Carousel.CarouselState.constructor | components/ProjectsCardSectionNew.tsx:59-70 | starts at index 0, filter "all", no selection, with `cardsToShow` from the viewport |
| Carousel.CarouselState.Selecting | components/ProjectsCardSectionNew.tsx:193 | the truthiness test of `selectedProject`: true only for a held id, false for null and for the empty id |
| Carousel.CarouselState.Visible | components/ProjectsCardSectionNew.tsx:211-214 | the `visibleProjects` slice: at most `k` projects, the ones from position `currentIndex` on in order |
| Carousel.CarouselState.Detail | components/ProjectsCardSectionNew.tsx:249-264 | the detail view is empty while nothing is selected, holds only filtered projects with the selected id, and is non-empty when that id is among the filtered projects |
| Carousel.CarouselState.DotActive | components/ProjectsCardSectionNew.tsx:611 | dot `d` is highlighted iff the index is a multiple of `k` with quotient `d` |
| Carousel.CarouselState.HandleNext | components/ProjectsCardSectionNew.tsx:171-175 | the index becomes `NextIndex` of the old one; the index bound is preserved |
| Carousel.CarouselState.HandlePrev | components/ProjectsCardSectionNew.tsx:177-181 | the index becomes `PrevIndex` of the old one; the bound is preserved |
| Carousel.CarouselState.AutoScroll | components/ProjectsCardSectionNew.tsx:184-189 | the index becomes `AutoIndex` of the old one; the bound is preserved, and is restored whenever the cards do not all fit |
| Carousel.CarouselState.Tick | components/ProjectsCardSectionNew.tsx:191-197 | while a project is selected (truthy id) the timer does nothing; otherwise it auto-advances |
| Carousel.CarouselState.ClickDot | components/ProjectsCardSectionNew.tsx:603-617 | the index becomes `d * k` and exactly dot `d` is highlighted |
| Carousel.CarouselState.SelectProject | components/ProjectsCardSectionNew.tsx:482-486 | a click on a rendered card selects its id, keeping the index and filter |
| Carousel.CarouselState.CloseProject | components/ProjectsCardSectionNew.tsx:287-290 | the close button clears the selection, keeping index and filter |
| Carousel.DetailAtMostOne | components/ProjectsCardSectionNew.tsx:250-264 | with distinct ids the detail view renders exactly one project while one is selected, and none otherwise |
| Carousel.VisibleLength | components/ProjectsCardSectionNew.tsx:211-214 | the unused `visibleProjects` slice holds `min(k, max(0, len - index))` projects |
| Carousel.SelectThenClose | components/ProjectsCardSectionNew.tsx:482-486 | opening and closing a card returns to browsing with the same index and filter |
| ProjectGrid.FirstIndex | components/ProjectsSection.tsx:138 | the first position at which a value occurs |
| ProjectGrid.Distinct | components/ProjectsSection.tsx:138 | `[...new Set(xs)]` has no duplicates and the same members as `xs` |
| ProjectGrid.DistinctFirstOccurrenceOrder | components/ProjectsSection.tsx:138 | the set keeps values in order of first occurrence |
| ProjectGrid.FirstIndexOfPrefix | components/ProjectsSection.tsx:138 | a value's first occurrence is unchanged by appending to the list |
| ProjectGrid.CategoryNames | components/ProjectsSection.tsx:138 | the category of each project, position by position |
| ProjectGrid.Categories | components/ProjectsSection.tsx:138 | the buttons start with "all", have no duplicates, and are "all" plus exactly the categories that occur |
| ProjectGrid.GridCategories | components/ProjectsSection.tsx:57-138 | for the four grid projects the buttons are all, web, design, mobile |
| ProjectGrid.CategoryLabel | components/ProjectsSection.tsx:237 | "all" reads "All Projects"; any other category reads as itself with the first letter upper-cased |
| ProjectGrid.GridLabels | components/ProjectsSection.tsx:237 | the four grid buttons read All Projects, Web, Design, Mobile |
| ProjectGrid.ImageSource | components/ProjectsSection.tsx:281 | an image path is used when non-empty, the placeholder otherwise |
| ProjectGrid.ImageSourceNonEmpty | components/ProjectsSection.tsx:438 | the card and the dialog always render a non-empty image address |
| ProjectGrid.ProjectGridState.constructor | components/ProjectsSection.tsx:54-55 | starts with filter "all", every project shown and the dialog closed |
| ProjectGrid.ProjectGridState.Variant | components/ProjectsSection.tsx:225 | a button is contained iff its category is the active filter, outlined otherwise |
| ProjectGrid.ProjectGridState.DialogOpen | components/ProjectsSection.tsx:393 | the dialog is open iff a project is held (`!!selectedProject`) |
| ProjectGrid.ProjectGridState.SelectCategory | components/ProjectsSection.tsx:225-226 | after a click, exactly that button is contained and the grid shows exactly that category's projects (all of them for "all") |
| ProjectGrid.ProjectGridState.OpenProject | components/ProjectsSection.tsx:140-142 | the dialog opens on the chosen project, filter unchanged |
| ProjectGrid.ProjectGridState.CloseProject | components/ProjectsSection.tsx:144-146 | the dialog closes, filter unchanged |
| ProjectGrid.OneContainedButton | components/ProjectsSection.tsx:222-226 | at most one rendered button is contained, and one is iff the filter is a rendered category |
| ProjectGrid.GridChips | components/ProjectsSection.tsx:296-316 | a card shows the first `min(4, n)` technologies, and a `+n` chip iff it has more than four, whose number is `n - 4` |
| ProjectGrid.GridChipExamples | components/ProjectsSection.tsx:296-316 | the first grid project shows "+2" and the third "+1" |
| Contact.TrimStart | components/ContactSection.tsx:58 | trimming the start leaves a suffix of the input |
| Contact.TrimEnd | components/ContactSection.tsx:58 | trimming the end leaves a prefix of the input |
| Contact.Trim | components/ContactSection.tsx:58-60 | `trim()` is never longer than its input; its shape is stated by TrimShape and TrimEmptyIff |
| Contact.TrimStartShape | components/ContactSection.tsx:58 | trimming the start drops a white-space prefix and leaves a suffix that does not start with white space |
| Contact.TrimEndShape | components/ContactSection.tsx:58 | trimming the end drops a white-space suffix and leaves a prefix that does not end with white space |
| Contact.TrimShape | components/ContactSection.tsx:58 | the trimmed string is no longer than the input and neither starts nor ends with white space |
| Contact.TrimEmptyIff | components/ContactSection.tsx:58-60 | `s.trim() === ''` iff `s` is all white space |
| Contact.AtIndex | components/ContactSection.tsx:59 | the position of the first '@', or the length when there is none |
| Contact.MatchesEmailPattern | components/ContactSection.tsx:59 | the regular expression read as a split into run, '@', run, '.', run; a matching address has an '@' and at least five characters |
| Contact.EmailValid | components/ContactSection.tsx:59 | the direct check of the first '@' and a later '.'; an accepted address has an '@', no space and at least five characters |
| Contact.EmailValidMatches | components/ContactSection.tsx:59 | everything the direct e-mail check accepts matches the regular expression |
| Contact.PatternMatchesValid | components/ContactSection.tsx:59 | everything the regular expression matches passes the direct check |
| Contact.EmailValidIffPattern | components/ContactSection.tsx:59 | the direct check and the regular expression agree on every string |
| Contact.EmailExampleAccepted | components/ContactSection.tsx:59 | "a@b.c" is a valid address |
| Contact.EmailExamplesRejected | components/ContactSection.tsx:59 | "abc", "a@b" and "a b@c.d" are not |
| Contact.KeepTelChars | components/ContactSection.tsx:131 | the sanitised phone number is no longer than the input and holds only digits and '+' |
| Contact.KeepTelCharsCounts | components/ContactSection.tsx:131 | every digit and '+' is kept as often as it occurs in the input, and no other character is kept |
| Contact.KeepTelCharsAppend | components/ContactSection.tsx:131 | sanitising distributes over concatenation, so kept characters keep their order |
| Contact.KeepTelCharsFixedPoints | components/ContactSection.tsx:131 | a phone string is unchanged iff it already consists of digits and '+' |
| Contact.KeepTelCharsIdempotent | components/ContactSection.tsx:131 | sanitising twice equals sanitising once |
| Contact.TelLink | components/ContactSection.tsx:131 | the link is `tel:` followed by the sanitised phone number |
| Contact.FormData.Set | components/ContactSection.tsx:48 | setting a field changes that field and no other |
| Contact.FieldErrors.Clear | components/ContactSection.tsx:51-52 | clearing a field's flag leaves every other flag |
| Contact.Validate | components/ContactSection.tsx:56-61 | name and message are flagged iff they consist of white space only; the e-mail iff it does not match the regular expression |
| Contact.SubjectNeverValidated | components/ContactSection.tsx:56-61 | the subject has no influence on validation |
| Contact.Notice.Text | components/ContactSection.tsx:80-105 | the snackbar text is empty only for the initial notice |
| Contact.NoticeTextsDistinct | components/ContactSection.tsx:80-105 | the success, failure and invalid-input texts are pairwise different |
| Contact.ContactForm.constructor | components/ContactSection.tsx:29-44 | empty fields, no error flags, closed snackbar |
| Contact.ContactForm.HandleChange | components/ContactSection.tsx:46-54 | typing changes only that field and clears only that field's error |
| Contact.ContactForm.ValidateForm | components/ContactSection.tsx:56-65 | stores the validation flags and reports valid iff none is set |
| Contact.ContactForm.HandleSubmit | components/ContactSection.tsx:67-107 | an invalid form sends nothing, keeps its fields and shows the invalid-input message; a valid one sends its fields once, is cleared with a success message on an `ok` response, and keeps its fields with a failure message on a not-ok response or an exception |
| Contact.ContactForm.HandleCloseSnackbar | components/ContactSection.tsx:109-111 | closes the snackbar and keeps its message and severity |
| Skills.SiteSkillsWellFormed | components/SkillsSection.tsx:38-39 | every listed skill has a level in 1..5 and a hex colour |
| Skills.Names | components/SkillsSection.tsx:196 | the card keys: the name of each skill, position by position |
| Skills.SiteSkillNamesUnique | components/SkillsSection.tsx:45-130 | no two skills share a name, which is their card key |
| Skills.TrackColor | components/SkillsSection.tsx:221-223 | an unfilled bar is white at 0.1 alpha in dark mode and black at 0.1 alpha in light mode |
| Skills.Below | components/SkillsSection.tsx:211-219 | the number of indices below `n` that are below the level: `min(n, max(0, level))` |
| Skills.FilledBars | components/SkillsSection.tsx:219 | a level fills at most five bars: exactly `level` for a level in 0..5, none below and five above |
| Skills.CountColor | components/SkillsSection.tsx:219-223 | the number of bars drawn in a colour is at most the number of bars |
| Skills.LevelBars | components/SkillsSection.tsx:210-228 | five bars keyed 0..4; bar `i` has the skill colour iff `i < level` and the track colour otherwise; `min(5, max(0, level))` bars are in the skill colour |
| Skills.SiteSkillBarsMatchLevel | components/SkillsSection.tsx:45-130 | every listed skill fills exactly `level` bars, and its colour never equals the track colour |
| Skills.LevelLabel | components/SkillsSection.tsx:366-369 | Expert iff 5, Advanced iff 4, Intermediate iff 3, Beginner for every other level |
| Skills.NoSiteSkillIsBeginner | components/SkillsSection.tsx:45-130 | no listed skill is labelled Beginner |
| DesignTokens.PaperRootFor | theme/theme.ts:169-175 | Paper gets a background colour and a background image iff the mode is dark |
| DesignTokens.PaletteFor | theme/theme.ts:6-80 | the chosen palette carries the requested mode |
| DesignTokens.GetDesignTokens | theme/theme.ts:5-210 | `palette.mode` is the input mode; Paper has a background colour iff dark |
| DesignTokens.LightModeTokens | theme/theme.ts:11-31 | light: primary `#3a86ff`, secondary `#8b5cf6`, background `#f8fafc`/`#ffffff`, divider `rgba(0, 0, 0, 0.08)` |
| DesignTokens.DarkModeTokens | theme/theme.ts:47-67 | dark: primary `#38bdf8`, secondary `#a855f7`, background `#0f172a`/`#1e293b`, divider `rgba(255, 255, 255, 0.08)` |
| DesignTokens.ContrastTextInBothModes | theme/theme.ts:11-58 | contrast text is `#ffffff` for primary and secondary in both modes |
| DesignTokens.PaperRootByMode | theme/theme.ts:169-174 | the Paper image is `none` iff light; in dark mode the Paper colour is the palette's paper colour |
| DesignTokens.TokensDetermineMode | theme/theme.ts:7 | two modes give equal tokens iff they are the same mode |
| DesignTokens.ModeIndependentTokens | theme/theme.ts:82-208 | typography, `borderRadius` 12, the Chip root (8, 500) and the Button root are the same in both modes |
| DesignTokens.ModeDependentTokens | theme/theme.ts:11-80 | primary, secondary, both backgrounds, both text colours and the divider differ between modes |
| DesignTokens.DarkModeShadowsStronger | theme/theme.ts:150-198 | every Card, Paper and app bar shadow has the same geometry in both modes and a more opaque black in dark mode |
| DesignTokens.ButtonGradientsHorizontal | theme/theme.ts:128-147 | each contained-button gradient runs at 90deg from a stop at 0% to a stop at 100% |
| DesignTokens.ButtonHoverChangesColors | theme/theme.ts:128-147 | hovering a contained button changes both gradient colours |
| ThemeMode.Toggled | components/ThemeRegistry.tsx:22 | light becomes dark and dark becomes light |
| ThemeMode.ToggleTwice | components/ThemeRegistry.tsx:22 | toggling twice restores the mode |
| ThemeMode.ToggleParity | components/ThemeRegistry.tsx:22 | after `n` toggles the mode is the original iff `n` is even |
| ThemeMode.ThemeRegistry.constructor | components/ThemeRegistry.tsx:16 | the provider starts in dark mode |
| ThemeMode.ThemeRegistry.ToggleColorMode | components/ThemeRegistry.tsx:21-23 | flips the mode in place |
| ThemeMode.ThemeRegistry.Value | components/ThemeRegistry.tsx:19-27 | the context value's mode is always the current mode |
| ThemeMode.ThemeRegistry.Theme | components/ThemeRegistry.tsx:30 | the theme's tokens carry the current mode |
| ThemeMode.ContextMode | components/ThemeRegistry.tsx:9-12 | a component reads the provider's mode, or light when there is no provider |
| ThemeMode.ContextToggle | components/ThemeRegistry.tsx:9-12 | the context toggle flips the provider's mode, and without a provider does nothing (mode stays light) |
| ThemeMode.ToggleSession | components/ThemeRegistry.tsx:16-23 | a fresh provider reads dark, then light after one toggle, then dark after two |

## Left out

- Animation, layout and timing. This covers the 50 ms `setTimeout` before selection changes, `requestAnimationFrame`, the animation flag, the smooth horizontal scroll and transition delays. The five-second interval is kept only as the `Tick` step.
- The scroll geometry of the carousel strip. Every filtered project is rendered; which cards are on screen follows from `scrollTo(currentIndex * offsetWidth / cardsToShow)` and the card widths, which are layout. The model keeps the index and the computed but unrendered `visibleProjects` slice.
- The viewport size. `cardsToShow` is fixed when `CarouselState` is built; a resize that changes it (and does not clamp the index) is not modelled.
- The carousel's `setFilter`. It is never called from the carousel's markup, so the carousel filter stays "all" apart from the constructor.
- Project fields the logic never reads: titles, descriptions, features, links, video. Both project lists are reduced to id, image, technologies and category.
- The HTTP request and JSON parsing in the contact form. `FetchOutcome` stands for the parsed `ok` field or a thrown error. Changes typed into the form while the request is in flight are not modelled.
- The contact details module that holds the e-mail address and phone number. It is not part of this model, so `TelLink` takes the phone string as a parameter.
- Characters outside the Basic Multilingual Plane. Strings are sequences of Unicode scalar values, whereas JavaScript strings are UTF-16 code units.
- Text.AsciiUpper: upper-cases ASCII letters only, where JavaScript's `toUpperCase` also maps non-ASCII letters; every category literal is ASCII.
- Skills.LevelBars: fractional levels are not modelled. A skill level is an integer, where the source's `number` could be fractional; every listed level is an integer.
- Icons, the decorative SVG background and the colour of the dot indicators, which are rendering only.
- `createAppTheme`. The `createTheme` and `responsiveFontSizes` library calls that turn the tokens into a theme are library code. `ThemeRegistry.Theme` returns the tokens themselves.
- The text form of CSS values. Colours, shadows and gradients are held as structured values; how they are written as CSS text is not modelled.
- The rest of the site: the galaxy background (floating-point animation on WebGL), the 3D tilt hook, header, hero section, footer, page layout and build configuration.
