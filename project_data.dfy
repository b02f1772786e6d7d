/**
 * The project record shared by the project carousel and the project grid,
 * reduced to the fields their logic reads, and the pure list operations both
 * components perform on it: the category filter and the technology-chip
 * summary of a card.
 */
module ProjectData {
  import opened Wrappers
  import opened Seqs
  import Text

  datatype Category = Web | Mobile | Design | Other {
    /** The string literal the source uses for the category. */
    function Name(): string {
      match this
      case Web => "web"
      case Mobile => "mobile"
      case Design => "design"
      case Other => "other"
    }
  }

  /** Name is one-to-one, and no category is called "all". */
  lemma CategoryNamesDistinct(a: Category, b: Category)
    ensures a.Name() == b.Name() <==> a == b
    ensures a.Name() != "all"
  {
  }

  datatype Project = Project(id: string, image: string, technologies: seq<string>, category: Category)

  /**
   * `filter === 'all' ? projects : projects.filter(p => p.category === filter)`.
   * The filter is a plain string, so an unknown one yields the empty list.
   */
  function FilterProjects(projects: seq<Project>, filter: string): (r: seq<Project>)
    ensures filter == "all" ==> r == projects
    ensures filter != "all" ==> forall p :: p in r <==> p in projects && p.category.Name() == filter
    ensures |r| <= |projects|
  {
    if filter == "all" then projects else OfCategory(projects, filter)
  }

  /** The order-preserving sub-list of the projects whose category name is `name`. */
  function OfCategory(projects: seq<Project>, name: string): (r: seq<Project>)
    ensures forall p :: p in r <==> p in projects && p.category.Name() == name
    ensures |r| <= |projects|
  {
    if projects == [] then []
    else (if projects[0].category.Name() == name then [projects[0]] else [])
         + OfCategory(projects[1..], name)
  }

  /**
   * Filtering distributes over concatenation: the kept projects of a list
   * are the kept projects of each part, in the parts' order. Together with
   * the singleton case this says the filter keeps matches in their original
   * order and nothing else.
   */
  lemma {:induction false} OfCategoryAppend(xs: seq<Project>, ys: seq<Project>, name: string)
    ensures OfCategory(xs + ys, name) == OfCategory(xs, name) + OfCategory(ys, name)
  {
    if xs == [] {
      assert xs + ys == ys;
    } else {
      assert (xs + ys)[0] == xs[0];
      assert (xs + ys)[1..] == xs[1..] + ys;
      OfCategoryAppend(xs[1..], ys, name);
    }
  }

  /** The projects whose id is `id`, in list order (the detail lookup). */
  function WithId(projects: seq<Project>, id: string): (r: seq<Project>)
    ensures forall p :: p in r ==> p in projects && p.id == id
    ensures (exists p :: p in projects && p.id == id) ==> |r| > 0
  {
    if projects == [] then []
    else (if projects[0].id == id then [projects[0]] else []) + WithId(projects[1..], id)
  }

  function Ids(projects: seq<Project>): (r: seq<string>)
    ensures |r| == |projects|
    ensures forall i :: 0 <= i < |r| ==> r[i] == projects[i].id
  {
    seq(|projects|, i requires 0 <= i < |projects| => projects[i].id)
  }

  /** The ids are the list's React keys, so no two projects may share one. */
  predicate IdsUnique(projects: seq<Project>) {
    NoDuplicates(Ids(projects))
  }

  /** Dropping the first project keeps the ids distinct. */
  lemma TailIdsUnique(projects: seq<Project>)
    requires projects != [] && IdsUnique(projects)
    ensures IdsUnique(projects[1..])
  {
    var tail := projects[1..];
    forall i, j | 0 <= i < j < |tail| ensures Ids(tail)[i] != Ids(tail)[j] {
      assert Ids(tail)[i] == Ids(projects)[i + 1] && Ids(tail)[j] == Ids(projects)[j + 1];
    }
  }

  /** With unique ids the detail lookup finds at most one project. */
  lemma {:induction false} WithIdAtMostOne(projects: seq<Project>, id: string)
    requires IdsUnique(projects)
    ensures |WithId(projects, id)| <= 1
    ensures |WithId(projects, id)| == 1 <==> id in Ids(projects)
  {
    if projects != [] {
      var tail := projects[1..];
      TailIdsUnique(projects);
      WithIdAtMostOne(tail, id);
      if projects[0].id == id {
        forall p | p in tail ensures p.id != id {
          var j :| 0 <= j < |tail| && tail[j] == p;
          assert Ids(projects)[j + 1] == p.id && Ids(projects)[0] == id;
        }
        assert id !in Ids(tail);
      }
      assert id in Ids(projects) <==> projects[0].id == id || id in Ids(tail) by {
        if id in Ids(projects) {
          var k :| 0 <= k < |projects| && Ids(projects)[k] == id;
          if k > 0 { assert Ids(tail)[k - 1] == id; }
        }
        if id in Ids(tail) {
          var k :| 0 <= k < |tail| && Ids(tail)[k] == id;
          assert Ids(projects)[k + 1] == id;
        }
      }
    }
  }

  /** A project whose id is new can go in front of a list with distinct ids. */
  lemma ConsIdsUnique(p: Project, rest: seq<Project>)
    requires IdsUnique(rest) && p.id !in Ids(rest)
    ensures IdsUnique([p] + rest)
  {
    var r := [p] + rest;
    forall i, j | 0 <= i < j < |r| ensures Ids(r)[i] != Ids(r)[j] {
      assert Ids(r)[j] == Ids(rest)[j - 1];
      if i > 0 { assert Ids(r)[i] == Ids(rest)[i - 1]; }
    }
  }

  /** Filtering by category keeps the ids distinct. */
  lemma {:induction false} OfCategoryKeepsIdsUnique(projects: seq<Project>, name: string)
    requires IdsUnique(projects)
    ensures IdsUnique(OfCategory(projects, name))
  {
    if projects != [] {
      var tail := projects[1..];
      TailIdsUnique(projects);
      OfCategoryKeepsIdsUnique(tail, name);
      var rest := OfCategory(tail, name);
      if projects[0].category.Name() == name {
        var id := projects[0].id;
        forall k | 0 <= k < |rest| ensures Ids(rest)[k] != id {
          var m :| 0 <= m < |tail| && tail[m] == rest[k];
          assert Ids(projects)[m + 1] == rest[k].id;
        }
        ConsIdsUnique(projects[0], rest);
      }
    }
  }

  /** Filtering, by "all" or by a category, keeps the ids distinct. */
  lemma FilterKeepsIdsUnique(projects: seq<Project>, filter: string)
    requires IdsUnique(projects)
    ensures IdsUnique(FilterProjects(projects, filter))
  {
    if filter != "all" {
      OfCategoryKeepsIdsUnique(projects, filter);
    }
  }

  /** The chips of a card: the first technologies, then a "+n" chip for the rest. */
  datatype ChipRow = ChipRow(shown: seq<string>, more: Option<string>)

  /**
   * `technologies.slice(0, limit)` followed by a `+${n - limit}` chip when
   * the card has more than `limit` technologies.
   */
  function ChipSummary(technologies: seq<string>, limit: nat): (r: ChipRow)
    ensures |r.shown| == if |technologies| < limit then |technologies| else limit
    ensures r.shown == technologies[..|r.shown|]
    ensures r.more.Some? <==> |technologies| > limit
    ensures r.more.Some? ==> |r.more.value| >= 2 && r.more.value[0] == '+'
  {
    var n := |technologies|;
    if n > limit then ChipRow(technologies[..limit], Some("+" + Text.NatToDecimal(n - limit)))
    else ChipRow(technologies, None)
  }

  /**
   * The shown chips plus the number written on the "+n" chip account for
   * every technology exactly once.
   */
  lemma ChipSummaryCoversAll(technologies: seq<string>, limit: nat)
    ensures var r := ChipSummary(technologies, limit);
      r.more.Some? ==>
        && (forall i :: 1 <= i < |r.more.value| ==> '0' <= r.more.value[i] <= '9')
        && |r.shown| + Text.DecimalValue(r.more.value[1..]) == |technologies|
    ensures var r := ChipSummary(technologies, limit);
      r.more.None? ==> r.shown == technologies
  {
    var r := ChipSummary(technologies, limit);
    if r.more.Some? {
      var digits := Text.NatToDecimal(|technologies| - limit);
      assert r.more.value[1..] == digits;
      Text.DecimalRoundTrip(|technologies| - limit);
    }
  }
}
