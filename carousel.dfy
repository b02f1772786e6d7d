/**
 * The project carousel: a strip of every filtered project card, scrolled so
 * that card `currentIndex` leads a view of `cardsToShow` cards. The index
 * steps with Prev/Next buttons, advances on a timer with wrap-around while
 * no project is open, and jumps to a page with the pagination dots; a
 * selected card swaps the strip for a detail view.
 */
module Carousel {
  import opened Wrappers
  import opened ProjectData
  import Text

  /** `isMobile ? 1 : isMedium ? 1 : 2`: one card on narrow viewports, two otherwise. */
  function CardsToShow(isMobile: bool, isMedium: bool): (k: nat)
    ensures k == 1 || k == 2
    ensures k == 1 <==> isMobile || isMedium
  {
    if isMobile then 1 else if isMedium then 1 else 2
  }

  /** The largest index that next, prev and auto-advance keep to: max(0, len - k). */
  function MaxIndex(len: nat, k: nat): nat {
    if len > k then len - k else 0
  }

  /** `disabled` of the Next button: from the last start position on. */
  predicate NextDisabled(i: nat, len: nat, k: nat)
    ensures NextDisabled(i, len, k) <==> i >= MaxIndex(len, k)
  {
    i >= len - k
  }

  /** `disabled` of the Prev button. */
  predicate PrevDisabled(i: nat) {
    i == 0
  }

  /**
   * Within range, Next is disabled exactly at the last start position, and
   * both buttons are disabled at once exactly when every card fits at index 0.
   */
  lemma NavButtonsAtEnds(i: nat, len: nat, k: nat)
    requires i <= MaxIndex(len, k)
    ensures NextDisabled(i, len, k) <==> i == MaxIndex(len, k)
    ensures PrevDisabled(i) && NextDisabled(i, len, k) <==> i == 0 && len <= k
  {
  }

  /** The index `handleNext` leaves: one step forward unless at the end. */
  function NextIndex(i: nat, len: nat, k: nat): (r: nat)
    ensures r == i || r == i + 1
    ensures r != i <==> !NextDisabled(i, len, k)
  {
    if i < len - k then i + 1 else i
  }

  /** The index `handlePrev` leaves: one step back unless at 0. */
  function PrevIndex(i: nat): (r: nat)
    ensures r == i || r + 1 == i
    ensures r != i <==> !PrevDisabled(i)
  {
    if i > 0 then i - 1 else i
  }

  /**
   * The index `autoScroll` leaves: nothing happens when every card fits;
   * otherwise `(i + 1) % (len - k + 1)`, which steps forward and wraps from
   * the last start position to 0, and which brings an index beyond the last
   * start position back into range.
   */
  function AutoIndex(i: nat, len: nat, k: nat): (r: nat)
    ensures len <= k ==> r == i
    ensures len > k ==> r <= MaxIndex(len, k)
    ensures len > k && i < MaxIndex(len, k) ==> r == i + 1
    ensures len > k && i == MaxIndex(len, k) ==> r == 0
  {
    if len <= k then i else (i + 1) % (len - k + 1)
  }

  /** `Math.ceil(len / k)`: the number of pagination dots, the fewest pages of `k` that hold `len` cards. */
  function PageCount(len: nat, k: nat): (p: nat)
    requires k >= 1
    ensures len <= p * k < len + k
  {
    var q := len / k;
    assert len == q * k + len % k;
    if len % k == 0 then q else (assert (q + 1) * k == q * k + k; q + 1)
  }

  /** The index a click on dot `d` sets: `d * cardsToShow`, the first card of page `d`. */
  function DotIndex(d: nat, k: nat): (i: nat)
    ensures k >= 1 ==> i % k == 0 && i / k == d
  {
    if k >= 1 then MulDiv(d, k); d * k else d * k
  }

  /** Euclidean division undoes a multiplication. */
  lemma MulDiv(d: nat, k: nat)
    requires k >= 1
    ensures (d * k) % k == 0 && (d * k) / k == d
  {
    var q, r := (d * k) / k, (d * k) % k;
    assert d * k == q * k + r;
    if q < d { MulMonotone(q + 1, d, k); }
    if q > d { MulMonotone(d + 1, q, k); }
  }

  /** `filtered.slice(i, i + k)`: JavaScript clamps both ends to the length. */
  function VisibleWindow(filtered: seq<Project>, i: nat, k: nat): (r: seq<Project>)
    ensures |r| == if i >= |filtered| then 0 else if k < |filtered| - i then k else |filtered| - i
    ensures forall j :: 0 <= j < |r| ==> r[j] == filtered[i + j]
  {
    if i >= |filtered| then []
    else if i + k <= |filtered| then filtered[i..i + k]
    else filtered[i..]
  }

  /** A user or timer action that the next/prev/auto-advance invariant covers. */
  datatype Nav = NextClick | PrevClick | AutoTick

  function Step(i: nat, a: Nav, len: nat, k: nat): nat {
    match a
    case NextClick => NextIndex(i, len, k)
    case PrevClick => PrevIndex(i)
    case AutoTick => AutoIndex(i, len, k)
  }

  /** The index after performing `actions` in order from index `i`. */
  function Run(i: nat, actions: seq<Nav>, len: nat, k: nat): nat
    decreases |actions|
  {
    if actions == [] then i else Run(Step(i, actions[0], len, k), actions[1..], len, k)
  }

  /** Each of next, prev and auto-advance keeps an in-range index in range. */
  lemma StepStaysInBounds(i: nat, a: Nav, len: nat, k: nat)
    requires i <= MaxIndex(len, k)
    ensures Step(i, a, len, k) <= MaxIndex(len, k)
  {
  }

  /**
   * Starting anywhere in range (in particular at the initial index 0), any
   * sequence of next, prev and auto-advance steps keeps
   * 0 <= currentIndex <= max(0, len - k).
   */
  lemma {:induction false} RunStaysInBounds(i: nat, actions: seq<Nav>, len: nat, k: nat)
    requires i <= MaxIndex(len, k)
    ensures Run(i, actions, len, k) <= MaxIndex(len, k)
    decreases |actions|
  {
    if actions != [] {
      StepStaysInBounds(i, actions[0], len, k);
      RunStaysInBounds(Step(i, actions[0], len, k), actions[1..], len, k);
    }
  }

  /**
   * Dot clicks are not covered by that invariant: with 5 projects shown two
   * at a time there are 3 dots, and the third sets index 4 while the last
   * index next/prev/auto-advance reach is 3.
   */
  lemma DotClickLeavesBounds()
    ensures 2 < PageCount(5, 2)
    ensures DotIndex(2, 2) == 4 > 3 == MaxIndex(5, 2)
  {
  }

  lemma MulMonotone(a: nat, b: nat, k: nat)
    requires a <= b
    ensures a * k <= b * k
  {
  }

  /**
   * Every dot keeps the index in range exactly when all cards fit on one
   * page or the number of cards is a multiple of the page size.
   */
  lemma AllDotsInBoundsIff(len: nat, k: nat)
    requires k >= 1
    ensures (forall d: nat :: d < PageCount(len, k) ==> DotIndex(d, k) <= MaxIndex(len, k))
            <==> (len <= k || len % k == 0)
  {
    var q, r := len / k, len % k;
    assert len == q * k + r;
    if len <= k {
      if len < k {
        assert q == 0 by {
          if q >= 1 { MulMonotone(1, q, k); }
        }
      }
      assert PageCount(len, k) <= 1 by {
        if q >= 2 { MulMonotone(2, q, k); }
      }
    } else if r == 0 {
      forall d: nat | d < PageCount(len, k) ensures DotIndex(d, k) <= MaxIndex(len, k) {
        MulMonotone(d, q - 1, k);
        assert (q - 1) * k == q * k - k;
      }
    } else {
      assert PageCount(len, k) == q + 1;
      assert DotIndex(q, k) == len - r > MaxIndex(len, k);
    }
  }

  /** `n` consecutive auto-advance steps from index `i`. */
  function AutoRun(i: nat, n: nat, len: nat, k: nat): nat {
    if n == 0 then i else AutoIndex(AutoRun(i, n - 1, len, k), len, k)
  }

  /**
   * Left running from index 0, auto-advance shows start position j after j
   * ticks, so every position 0..max(0, len - k) is visited in order.
   */
  lemma {:induction false} AutoScrollVisitsEveryPosition(j: nat, len: nat, k: nat)
    requires len > k
    requires j <= MaxIndex(len, k)
    ensures AutoRun(0, j, len, k) == j
  {
    if j > 0 {
      AutoScrollVisitsEveryPosition(j - 1, len, k);
    }
  }

  /** After one full cycle of len - k + 1 ticks auto-advance is back at index 0. */
  lemma AutoScrollCycles(len: nat, k: nat)
    requires len > k
    ensures AutoRun(0, MaxIndex(len, k) + 1, len, k) == 0
  {
    AutoScrollVisitsEveryPosition(MaxIndex(len, k), len, k);
  }

  /** The five projects of the carousel, reduced to the fields its logic reads. */
  const CarouselProjects: seq<Project> := [
    Project("project-1", "/galaxy-bg.jpg",
      ["React", "TypeScript", "Node.js", "D3.js", "TensorFlow.js", "WebSockets"], Web),
    Project("project-2", "/galaxy-bg.jpg",
      ["Next.js", "GraphQL", "Stripe", "Tailwind CSS", "Prisma", "PostgreSQL"], Web),
    Project("project-3", "/galaxy-bg.jpg",
      ["Python", "Vercel", "OpenAI", "React", "Material UI"], Web),
    Project("project-4", "/galaxy-bg.jpg",
      ["React Native", "TypeScript", "Firebase", "Redux", "TensorFlow Lite", "HealthKit/Google Fit"], Mobile),
    Project("project-5", "/galaxy-bg.jpg",
      ["D3.js", "React", "Node.js", "WebSockets", "MongoDB", "Redis"], Web)
  ]

  /** The number of technology chips a carousel card shows before the "+n" chip. */
  const CarouselChipLimit: nat := 3

  /** A carousel card's chips: the first three technologies and a "+n" chip for the rest. */
  function CarouselChips(p: Project): (r: ChipRow)
    ensures |r.shown| == if |p.technologies| < CarouselChipLimit then |p.technologies| else CarouselChipLimit
    ensures r.shown == p.technologies[..|r.shown|]
    ensures r.more.Some? <==> |p.technologies| > CarouselChipLimit
    ensures r.more.Some? ==>
      && |r.more.value| >= 2 && r.more.value[0] == '+'
      && (forall i :: 1 <= i < |r.more.value| ==> '0' <= r.more.value[i] <= '9')
      && Text.DecimalValue(r.more.value[1..]) == |p.technologies| - CarouselChipLimit
  {
    ChipSummaryCoversAll(p.technologies, CarouselChipLimit);
    ChipSummary(p.technologies, CarouselChipLimit)
  }

  /** Every literal carousel project has more than three technologies, so every card shows a "+n" chip. */
  lemma EveryCarouselCardOverflows()
    ensures forall p :: p in CarouselProjects ==> CarouselChips(p).more.Some? && |CarouselChips(p).shown| == 3
  {
  }

  /** The literal ids are distinct and non-empty. */
  lemma CarouselProjectsIds()
    ensures IdsUnique(CarouselProjects)
    ensures forall p :: p in CarouselProjects ==> p.id != ""
  {
  }

  class CarouselState {
    const projects: seq<Project>
    const cardsToShow: nat
    var filter: string
    var currentIndex: nat
    var selectedProject: Option<string>

    ghost predicate Valid()
      reads this
    {
      && cardsToShow >= 1
      && (selectedProject.Some? ==> selectedProject.value in Ids(Filtered()))
    }

    function Filtered(): seq<Project>
      reads this
    {
      FilterProjects(projects, filter)
    }

    /** The bound next, prev and auto-advance preserve. */
    predicate InBounds()
      reads this
    {
      currentIndex <= MaxIndex(|Filtered()|, cardsToShow)
    }

    /** `if (selectedProject)`: JavaScript truthiness of `string | null`, where "" is falsy too. */
    predicate Selecting()
      reads this
      ensures Selecting() ==> selectedProject.Some?
      ensures selectedProject == Some("") ==> !Selecting()
    {
      selectedProject.Some? && selectedProject.value != ""
    }

    /** `visibleProjects`: the slice of `cardsToShow` projects from the index. */
    function Visible(): (r: seq<Project>)
      reads this
      ensures |r| <= cardsToShow
      ensures forall j :: 0 <= j < |r| ==> currentIndex + j < |Filtered()| && r[j] == Filtered()[currentIndex + j]
    {
      VisibleWindow(Filtered(), currentIndex, cardsToShow)
    }

    /** The projects the detail view renders. */
    function Detail(): (r: seq<Project>)
      reads this
      ensures !Selecting() ==> r == []
      ensures forall p :: p in r ==> p in Filtered() && selectedProject == Some(p.id)
      ensures Selecting() && selectedProject.value in Ids(Filtered()) ==> |r| > 0
    {
      if Selecting() then WithId(Filtered(), selectedProject.value) else []
    }

    /** Dot `d` is highlighted when the index is exactly the first card of page `d`. */
    predicate DotActive(d: nat)
      reads this
      ensures cardsToShow >= 1 ==> (DotActive(d) <==> currentIndex % cardsToShow == 0 && currentIndex / cardsToShow == d)
    {
      currentIndex == DotIndex(d, cardsToShow)
    }

    constructor (projects: seq<Project>, isMobile: bool, isMedium: bool)
      ensures Valid() && InBounds() && !Selecting()
      ensures this.projects == projects && cardsToShow == CardsToShow(isMobile, isMedium)
      ensures filter == "all" && currentIndex == 0 && selectedProject == None
    {
      this.projects := projects;
      cardsToShow := CardsToShow(isMobile, isMedium);
      filter := "all";
      currentIndex := 0;
      selectedProject := None;
    }

    method HandleNext()
      requires Valid()
      modifies this`currentIndex
      ensures Valid()
      ensures currentIndex == NextIndex(old(currentIndex), |Filtered()|, cardsToShow)
      ensures old(InBounds()) ==> InBounds()
    {
      if currentIndex < |Filtered()| - cardsToShow {
        currentIndex := currentIndex + 1;
      }
    }

    method HandlePrev()
      requires Valid()
      modifies this`currentIndex
      ensures Valid()
      ensures currentIndex == PrevIndex(old(currentIndex))
      ensures old(InBounds()) ==> InBounds()
    {
      if currentIndex > 0 {
        currentIndex := currentIndex - 1;
      }
    }

    method AutoScroll()
      requires Valid()
      modifies this`currentIndex
      ensures Valid()
      ensures currentIndex == AutoIndex(old(currentIndex), |Filtered()|, cardsToShow)
      ensures old(InBounds()) ==> InBounds()
      ensures |Filtered()| > cardsToShow ==> InBounds()
    {
      if |Filtered()| <= cardsToShow {
        return;
      }
      currentIndex := (currentIndex + 1) % (|Filtered()| - cardsToShow + 1);
    }

    /** One firing of the five-second interval, which exists only while no project is open. */
    method Tick()
      requires Valid()
      modifies this`currentIndex
      ensures Valid()
      ensures Selecting() ==> currentIndex == old(currentIndex)
      ensures !Selecting() ==> currentIndex == AutoIndex(old(currentIndex), |Filtered()|, cardsToShow)
      ensures old(InBounds()) ==> InBounds()
    {
      if Selecting() {
        return;
      }
      AutoScroll();
    }

    /** A click on pagination dot `d`; this may leave InBounds() (see DotClickLeavesBounds). */
    method ClickDot(d: nat)
      requires Valid()
      requires d < PageCount(|Filtered()|, cardsToShow)
      modifies this`currentIndex
      ensures Valid()
      ensures currentIndex == DotIndex(d, cardsToShow) && DotActive(d)
      ensures forall e: nat :: DotActive(e) <==> e == d
    {
      currentIndex := d * cardsToShow;
      forall e: nat ensures DotActive(e) <==> e == d {
        if e < d { MulMonotone(e + 1, d, cardsToShow); }
        if e > d { MulMonotone(d + 1, e, cardsToShow); }
      }
    }

    /** A click on a rendered card opens that project's detail view. */
    method SelectProject(id: string)
      requires Valid()
      requires id in Ids(Filtered())
      modifies this`selectedProject
      ensures Valid()
      ensures selectedProject == Some(id)
      ensures currentIndex == old(currentIndex) && filter == old(filter)
    {
      selectedProject := Some(id);
    }

    /** The close button of the detail view. */
    method CloseProject()
      requires Valid()
      modifies this`selectedProject
      ensures Valid() && !Selecting()
      ensures selectedProject == None
      ensures currentIndex == old(currentIndex) && filter == old(filter)
    {
      selectedProject := None;
    }
  }

  /** The detail view of a carousel over unique ids shows at most one project. */
  lemma DetailAtMostOne(c: CarouselState)
    requires c.Valid() && IdsUnique(c.projects)
    ensures |c.Detail()| <= 1
    ensures c.Selecting() ==> |c.Detail()| == 1
  {
    FilterKeepsIdsUnique(c.projects, c.filter);
    if c.Selecting() {
      WithIdAtMostOne(c.Filtered(), c.selectedProject.value);
    }
  }

  /** The window of visible cards has min(k, max(0, len - i)) projects. */
  lemma VisibleLength(c: CarouselState)
    ensures |c.Visible()| == if c.currentIndex >= |c.Filtered()| then 0
                             else if c.cardsToShow < |c.Filtered()| - c.currentIndex then c.cardsToShow
                             else |c.Filtered()| - c.currentIndex
  {
  }

  /** Selecting a card and closing it again restores the browsing state with the same index and filter. */
  method SelectThenClose(c: CarouselState, id: string)
    requires c.Valid() && !c.Selecting()
    requires id in Ids(c.Filtered())
    modifies c
    ensures c.Valid() && !c.Selecting()
    ensures c.currentIndex == old(c.currentIndex) && c.filter == old(c.filter)
  {
    c.SelectProject(id);
    c.CloseProject();
  }
}
