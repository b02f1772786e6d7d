/**
 * The project grid: category filter buttons built from the projects'
 * categories, a card per filtered project with a technology-chip summary and
 * an image with a placeholder fallback, and a details dialog.
 */
module ProjectGrid {
  import opened Wrappers
  import opened ProjectData
  import opened Seqs
  import Text

  /** The four projects of the grid, reduced to the fields its logic reads. */
  const GridProjects: seq<Project> := [
    Project("project-1", "/project1.jpg",
      ["React", "TypeScript", "Node.js", "D3.js", "TensorFlow.js", "WebSockets"], Web),
    Project("project-2", "/project2.jpg",
      ["Next.js", "GraphQL", "Stripe", "Tailwind CSS", "Prisma", "PostgreSQL"], Web),
    Project("project-3", "/project3.jpg",
      ["Three.js", "WebGL", "React", "TypeScript", "Node.js"], Design),
    Project("project-4", "/project4.jpg",
      ["React Native", "Firebase", "Redux", "Node.js", "MongoDB"], Mobile)
  ]

  const CardPlaceholder := "https://source.unsplash.com/random/600x400/?tech"
  const DialogPlaceholder := "https://source.unsplash.com/random/1200x600/?tech"

  /** The number of technology chips a grid card shows before the "+n" chip. */
  const GridChipLimit: nat := 4

  /** The index of the first occurrence of `x` in `xs`. */
  function FirstIndex(xs: seq<string>, x: string): (k: nat)
    requires x in xs
    ensures k < |xs| && xs[k] == x
    ensures forall j :: 0 <= j < k ==> xs[j] != x
  {
    if xs[0] == x then 0 else 1 + FirstIndex(xs[1..], x)
  }

  /**
   * `[...new Set(xs)]`: a set remembers insertion order, so each value is
   * added when first seen and later repeats are ignored.
   */
  function Distinct(xs: seq<string>): (r: seq<string>)
    ensures NoDuplicates(r)
    ensures forall x :: x in r <==> x in xs
    decreases |xs|
  {
    if xs == [] then []
    else
      var init, last := xs[..|xs| - 1], xs[|xs| - 1];
      assert xs == init + [last];
      var r := Distinct(init);
      if last in r then r
      else
        var r' := r + [last];
        assert forall i :: 0 <= i < |r| ==> r'[i] == r[i];
        r'
  }

  /** `Distinct` lists the values in the order of their first occurrence. */
  lemma {:induction false} DistinctFirstOccurrenceOrder(xs: seq<string>)
    ensures forall i, j :: 0 <= i < j < |Distinct(xs)| ==>
      FirstIndex(xs, Distinct(xs)[i]) < FirstIndex(xs, Distinct(xs)[j])
    decreases |xs|
  {
    if xs != [] {
      var init, last := xs[..|xs| - 1], xs[|xs| - 1];
      assert xs == init + [last];
      DistinctFirstOccurrenceOrder(init);
      FirstIndexOfPrefix(init, last);
      var r := Distinct(init);
      var d := Distinct(xs);
      forall i, j | 0 <= i < j < |d| ensures FirstIndex(xs, d[i]) < FirstIndex(xs, d[j]) {
        assert d[i] == r[i] && d[i] in init;
        if j < |r| {
          assert d[j] == r[j] && d[j] in init;
        } else {
          assert d[j] == last && last !in init;
          assert FirstIndex(init, d[i]) < |init|;
        }
      }
    }
  }

  /** Extending a list at the end does not move first occurrences of values already in it. */
  lemma FirstIndexOfPrefix(init: seq<string>, last: string)
    ensures forall x :: x in init ==> FirstIndex(init + [last], x) == FirstIndex(init, x)
    ensures last !in init ==> FirstIndex(init + [last], last) == |init|
  {
    var xs := init + [last];
    forall x | x in init ensures FirstIndex(xs, x) == FirstIndex(init, x) {
      var k := FirstIndex(init, x);
      assert xs[k] == x;
      var k' := FirstIndex(xs, x);
      assert k' <= k;
      assert init[k'] == x;
    }
    if last !in init {
      assert xs[|init|] == last;
      assert forall j :: 0 <= j < |init| ==> xs[j] == init[j];
    }
  }

  function CategoryNames(projects: seq<Project>): (r: seq<string>)
    ensures |r| == |projects|
    ensures forall i :: 0 <= i < |r| ==> r[i] == projects[i].category.Name()
  {
    seq(|projects|, i requires 0 <= i < |projects| => projects[i].category.Name())
  }

  /** `['all', ...new Set(projects.map(p => p.category))]`: the filter buttons, in order. */
  function Categories(projects: seq<Project>): (r: seq<string>)
    ensures |r| > 0 && r[0] == "all"
    ensures NoDuplicates(r)
    ensures forall c :: c in r <==> c == "all" || exists p :: p in projects && p.category.Name() == c
  {
    var names := CategoryNames(projects);
    var d := Distinct(names);
    forall c | c in names ensures c != "all" {
      var i :| 0 <= i < |names| && names[i] == c;
      CategoryNamesDistinct(projects[i].category, projects[i].category);
    }
    forall c ensures c in names <==> exists p :: p in projects && p.category.Name() == c {
      if exists p :: p in projects && p.category.Name() == c {
        var p :| p in projects && p.category.Name() == c;
        var i :| 0 <= i < |projects| && projects[i] == p;
        assert names[i] == c;
      }
    }
    var r := ["all"] + d;
    forall i | 1 <= i < |r| ensures r[i] != "all" {
      assert r[i] == d[i - 1] && d[i - 1] in d;
    }
    r
  }

  /** For the literal data the buttons are All, web, design, mobile. */
  lemma GridCategories()
    ensures Categories(GridProjects) == ["all", "web", "design", "mobile"]
  {
    GridCategoryNames();
    DistinctGridNames();
  }

  lemma GridCategoryNames()
    ensures CategoryNames(GridProjects) == ["web", "web", "design", "mobile"]
  {
  }

  lemma DistinctGridNames()
    ensures Distinct(["web", "web", "design", "mobile"]) == ["web", "design", "mobile"]
  {
    var names := ["web", "web", "design", "mobile"];
    var s1, s2, s3 := ["web"], ["web", "web"], ["web", "web", "design"];
    assert s1[..0] == [] && s2[..1] == s1 && s3[..2] == s2 && names[..3] == s3;
    assert Distinct(s1) == ["web"];
    assert Distinct(s2) == ["web"];
    assert Distinct(s3) == ["web", "design"];
    assert Distinct(names) == ["web", "design", "mobile"];
  }

  datatype ButtonVariant = Contained | Outlined

  /** The text of a category button. */
  function CategoryLabel(category: string): (caption: string)
    ensures category == "all" ==> caption == "All Projects"
    ensures category != "all" ==> |caption| == |category|
    ensures category != "all" && |category| > 0 ==>
      caption[0] == Text.AsciiUpper(category[0]) && caption[1..] == category[1..]
  {
    if category == "all" then "All Projects" else Text.Capitalize(category)
  }

  /** The labels of the literal grid's buttons. */
  lemma GridLabels()
    ensures CategoryLabel("all") == "All Projects"
    ensures CategoryLabel("web") == "Web"
    ensures CategoryLabel("design") == "Design"
    ensures CategoryLabel("mobile") == "Mobile"
  {
  }

  /** `project.image || placeholder`: an empty image path is falsy. */
  function ImageSource(image: string, placeholder: string): (src: string)
    ensures image != "" ==> src == image
    ensures image == "" ==> src == placeholder
  {
    if image == "" then placeholder else image
  }

  /** Every image the grid renders is a non-empty address. */
  lemma ImageSourceNonEmpty(p: Project)
    ensures ImageSource(p.image, CardPlaceholder) != ""
    ensures ImageSource(p.image, DialogPlaceholder) != ""
  {
  }

  class ProjectGridState {
    const projects: seq<Project>
    var filter: string
    var selectedProject: Option<Project>

    function Filtered(): seq<Project>
      reads this
    {
      FilterProjects(projects, filter)
    }

    /** The variant of the button for `category`: only the active filter's button is contained. */
    function Variant(category: string): (v: ButtonVariant)
      reads this
      ensures v == Contained <==> category == filter
    {
      if filter == category then Contained else Outlined
    }

    /** `open={!!selectedProject}`: a project record is truthy and `null` is not. */
    predicate DialogOpen()
      reads this
      ensures DialogOpen() <==> selectedProject != None
    {
      selectedProject.Some?
    }

    constructor (projects: seq<Project>)
      ensures this.projects == projects && filter == "all" && selectedProject == None
      ensures Filtered() == projects && !DialogOpen()
    {
      this.projects := projects;
      filter := "all";
      selectedProject := None;
    }

    /** A click on the button of `category`. */
    method SelectCategory(category: string)
      requires category in Categories(projects)
      modifies this`filter
      ensures filter == category
      ensures forall c :: Variant(c) == Contained <==> c == category
      ensures category == "all" ==> Filtered() == projects
      ensures category != "all" ==> forall p :: p in Filtered() <==> p in projects && p.category.Name() == category
      ensures selectedProject == old(selectedProject)
    {
      filter := category;
    }

    /** "View Details" on a rendered card. */
    method OpenProject(p: Project)
      requires p in Filtered()
      modifies this`selectedProject
      ensures selectedProject == Some(p) && DialogOpen()
      ensures filter == old(filter)
    {
      selectedProject := Some(p);
    }

    method CloseProject()
      modifies this`selectedProject
      ensures selectedProject == None && !DialogOpen()
      ensures filter == old(filter)
    {
      selectedProject := None;
    }
  }

  /** Among the rendered buttons, at most one is contained, and one is exactly when the filter is a rendered category. */
  lemma OneContainedButton(g: ProjectGridState)
    ensures var cats := Categories(g.projects);
      forall i, j :: 0 <= i < |cats| && 0 <= j < |cats| && g.Variant(cats[i]) == Contained && g.Variant(cats[j]) == Contained ==> i == j
    ensures var cats := Categories(g.projects);
      (exists i :: 0 <= i < |cats| && g.Variant(cats[i]) == Contained) <==> g.filter in cats
  {
  }

  /** A grid card's chips: the first four technologies and a "+n" chip for the rest. */
  function GridChips(p: Project): (r: ChipRow)
    ensures |r.shown| == if |p.technologies| < GridChipLimit then |p.technologies| else GridChipLimit
    ensures r.shown == p.technologies[..|r.shown|]
    ensures r.more.Some? <==> |p.technologies| > GridChipLimit
    ensures r.more.Some? ==>
      && |r.more.value| >= 2 && r.more.value[0] == '+'
      && (forall i :: 1 <= i < |r.more.value| ==> '0' <= r.more.value[i] <= '9')
      && Text.DecimalValue(r.more.value[1..]) == |p.technologies| - GridChipLimit
  {
    ChipSummaryCoversAll(p.technologies, GridChipLimit);
    ChipSummary(p.technologies, GridChipLimit)
  }

  /** The first literal project overflows into a "+2" chip and the third into a "+1" chip. */
  lemma GridChipExamples()
    ensures GridChips(GridProjects[0]).more == Some("+2")
    ensures GridChips(GridProjects[2]).more == Some("+1")
  {
    assert |GridProjects[0].technologies| == 6 && |GridProjects[2].technologies| == 5;
    assert Text.NatToDecimal(2) == "2";
    assert Text.NatToDecimal(1) == "1";
    assert "+" + "2" == "+2" && "+" + "1" == "+1";
    assert GridChips(GridProjects[0]).more == Some("+" + Text.NatToDecimal(2));
    assert GridChips(GridProjects[2]).more == Some("+" + Text.NatToDecimal(1));
  }
}
