/**
 * The skills section: a fixed list of skills, each drawn as a card with a
 * row of five level bars and a level label.
 */
module Skills {
  import opened DesignTokens
  import opened Seqs

  datatype SkillCategory = Frontend | Backend | Design | Other

  /** A skill; `level` is meant to lie in 1..5 but is an unconstrained number. */
  datatype Skill = Skill(name: string, color: Color, category: SkillCategory, level: int)

  /** The skills shown, in card order. */
  const SiteSkills: seq<Skill> := [
    Skill("React", Hex(0x61DAFB), Frontend, 5),
    Skill("Angular", Hex(0xDD0031), Frontend, 4),
    Skill("TypeScript", Hex(0x3178C6), Frontend, 5),
    Skill("Next.js", Hex(0x000000), Frontend, 5),
    Skill("Material UI", Hex(0x0081CB), Frontend, 5),
    Skill("Three.js", Hex(0x000000), Frontend, 4),
    Skill("Node.js", Hex(0x339933), Backend, 4),
    Skill("GraphQL", Hex(0xE10098), Backend, 4),
    Skill("Firebase", Hex(0xFFCA28), Backend, 4),
    Skill("AWS", Hex(0xFF9900), Backend, 3),
    Skill("Docker", Hex(0x2496ED), Other, 3),
    Skill("Figma", Hex(0xF24E1E), Design, 4)
  ]

  /** The skill names, which are the cards' React keys. */
  function Names(skills: seq<Skill>): (r: seq<string>)
    ensures |r| == |skills|
    ensures forall i :: 0 <= i < |r| ==> r[i] == skills[i].name
  {
    seq(|skills|, i requires 0 <= i < |skills| => skills[i].name)
  }

  /** Every skill has a level in 1..5 and a hex colour. */
  lemma SiteSkillsWellFormed()
    ensures forall s :: s in SiteSkills ==> 1 <= s.level <= 5 && s.color.Hex?
  {
  }

  /** No two skills share a name. */
  lemma SiteSkillNamesUnique()
    ensures NoDuplicates(Names(SiteSkills))
  {
  }

  /** One bar of the level row: its React key and its background colour. */
  datatype LevelBar = LevelBar(key: nat, color: Color)

  /** The colour of an unfilled bar: a faint white on dark, a faint black on light. */
  function TrackColor(mode: Mode): (c: Color)
    ensures c.Rgba? && c.alphaMilli == 100
    ensures c.red == c.green == c.blue == (if mode == Dark then 255 else 0)
  {
    match mode
    case Dark => Rgba(255, 255, 255, 100)
    case Light => Rgba(0, 0, 0, 100)
  }

  /** How many of the indices `0 .. n - 1` lie below `level`. */
  function Below(level: int, n: nat): (k: nat)
    ensures k <= n
    ensures level <= 0 ==> k == 0
    ensures level >= n ==> k == n
    ensures 0 <= level <= n ==> k == level
  {
    if level <= 0 then 0 else if level >= n then n else level
  }

  /** How many of the five bars a level fills: `min(5, max(0, level))`. */
  function FilledBars(level: int): (n: nat)
    ensures n <= 5
    ensures 0 <= level <= 5 ==> n == level
    ensures level < 0 ==> n == 0
    ensures level > 5 ==> n == 5
  {
    Below(level, 5)
  }

  /** The number of bars in `bars` drawn in colour `c`. */
  function CountColor(bars: seq<LevelBar>, c: Color): (n: nat)
    ensures n <= |bars|
  {
    if |bars| == 0 then 0
    else CountColor(bars[..|bars| - 1], c) + (if bars[|bars| - 1].color == c then 1 else 0)
  }

  /**
   * The level row of a skill card: five bars keyed 0..4, bar `i` in the
   * skill's colour when `i < level` and in the track colour otherwise.
   */
  method LevelBars(skill: Skill, mode: Mode) returns (bars: seq<LevelBar>)
    ensures |bars| == 5
    ensures forall i :: 0 <= i < 5 ==> bars[i].key == i
    ensures forall i :: 0 <= i < 5 && i < skill.level ==> bars[i].color == skill.color
    ensures forall i :: 0 <= i < 5 && i >= skill.level ==> bars[i].color == TrackColor(mode)
    ensures skill.color != TrackColor(mode) ==> CountColor(bars, skill.color) == FilledBars(skill.level)
  {
    bars := [];
    for i := 0 to 5
      invariant |bars| == i
      invariant forall j :: 0 <= j < i ==> bars[j].key == j
      invariant forall j :: 0 <= j < i && j < skill.level ==> bars[j].color == skill.color
      invariant forall j :: 0 <= j < i && j >= skill.level ==> bars[j].color == TrackColor(mode)
      invariant skill.color != TrackColor(mode) ==> CountColor(bars, skill.color) == Below(skill.level, i)
    {
      var bar := LevelBar(i, if i < skill.level then skill.color else TrackColor(mode));
      assert (bars + [bar])[..i] == bars;
      bars := bars + [bar];
    }
  }

  /**
   * Every skill on the site fills exactly `level` bars, and its colour is
   * never the track colour, so its row shows `level` bars in its own colour.
   */
  lemma SiteSkillBarsMatchLevel(s: Skill, mode: Mode)
    requires s in SiteSkills
    ensures FilledBars(s.level) == s.level
    ensures s.color != TrackColor(mode)
  {
    SiteSkillsWellFormed();
  }

  /** The label under a skill card. */
  function LevelLabel(level: int): (caption: string)
    ensures caption == "Expert" <==> level == 5
    ensures caption == "Advanced" <==> level == 4
    ensures caption == "Intermediate" <==> level == 3
    ensures caption == "Beginner" <==> level != 5 && level != 4 && level != 3
  {
    if level == 5 then "Expert"
    else if level == 4 then "Advanced"
    else if level == 3 then "Intermediate"
    else "Beginner"
  }

  /** No skill on the site is labelled Beginner. */
  lemma NoSiteSkillIsBeginner()
    ensures forall s :: s in SiteSkills ==> LevelLabel(s.level) != "Beginner"
  {
    SiteSkillsWellFormed();
  }
}
