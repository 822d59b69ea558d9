/**
 * The portfolio's database-backed project list: a category filter and a
 * status filter, each with an "all" wildcard, the per-category counts on the
 * filter buttons, and the status badge classes.
 */
module DynamicProjects {
  import opened Options

  /** The fields of a fetched project that the filters and badges read. */
  datatype Project = Project(id: string, title: string, category: string, status: string)

  const All := "all"

  predicate CategoryMatch(p: Project, category: string) {
    category == All || p.category == category
  }

  predicate StatusMatch(p: Project, status: string) {
    status == All || p.status == status
  }

  predicate Matches(p: Project, category: string, status: string) {
    CategoryMatch(p, category) && StatusMatch(p, status)
  }

  /** `getFilteredProjects`: `projects.filter(categoryMatch && statusMatch)`. */
  function Filtered(projects: seq<Project>, category: string, status: string): (r: seq<Project>)
    ensures |r| <= |projects|
    ensures forall k :: 0 <= k < |r| ==> Matches(r[k], category, status)
    decreases |projects|
  {
    if projects == [] then []
    else (if Matches(projects[0], category, status) then [projects[0]] else [])
         + Filtered(projects[1..], category, status)
  }

  // ------------------------------------------------ what the filter keeps

  /** `xs` is `ys` with some elements left out, the rest in their original order. */
  predicate IsSubsequence(xs: seq<Project>, ys: seq<Project>)
    decreases |ys|
  {
    if xs == [] then true
    else if ys == [] then false
    else (xs[0] == ys[0] && IsSubsequence(xs[1..], ys[1..])) || IsSubsequence(xs, ys[1..])
  }

  /** One step of the filter, for a list given as head and tail. */
  lemma FilteredCons(h: Project, t: seq<Project>, category: string, status: string)
    ensures Matches(h, category, status) ==> Filtered([h] + t, category, status) == [h] + Filtered(t, category, status)
    ensures !Matches(h, category, status) ==> Filtered([h] + t, category, status) == Filtered(t, category, status)
  {
    assert ([h] + t)[0] == h && ([h] + t)[1..] == t;
    assert [] + Filtered(t, category, status) == Filtered(t, category, status);
  }

  lemma {:induction false} FilteredIsSubsequence(projects: seq<Project>, category: string, status: string)
    ensures IsSubsequence(Filtered(projects, category, status), projects)
    decreases |projects|
  {
    if projects != [] {
      var r := Filtered(projects, category, status);
      FilteredIsSubsequence(projects[1..], category, status);
      if Matches(projects[0], category, status) {
        assert r[0] == projects[0] && r[1..] == Filtered(projects[1..], category, status);
      } else {
        assert r == Filtered(projects[1..], category, status);
      }
    }
  }

  /**
   * Soundness and completeness with multiplicity: each matching project is
   * kept as many times as it occurs, and no other project is kept.
   */
  lemma {:induction false} FilteredCounts(projects: seq<Project>, category: string, status: string, p: Project)
    ensures multiset(Filtered(projects, category, status))[p]
            == if Matches(p, category, status) then multiset(projects)[p] else 0
    decreases |projects|
  {
    if projects != [] {
      FilteredCounts(projects[1..], category, status, p);
      assert projects == [projects[0]] + projects[1..];
    }
  }

  lemma FilteredComplete(projects: seq<Project>, category: string, status: string, p: Project)
    requires p in projects && Matches(p, category, status)
    ensures p in Filtered(projects, category, status)
  {
    FilteredCounts(projects, category, status, p);
  }

  /** A subsequence holds no element more often than the sequence it is taken from. */
  lemma {:induction false} SubsequenceCounts(xs: seq<Project>, ys: seq<Project>)
    ensures IsSubsequence(xs, ys) ==> multiset(xs) <= multiset(ys)
    decreases |ys|
  {
    if xs != [] && IsSubsequence(xs, ys) {
      assert ys == [ys[0]] + ys[1..];
      if xs[0] == ys[0] && IsSubsequence(xs[1..], ys[1..]) {
        SubsequenceCounts(xs[1..], ys[1..]);
        assert xs == [xs[0]] + xs[1..];
      } else {
        SubsequenceCounts(xs, ys[1..]);
      }
    }
  }

  /**
   * The two facts above pin the filter down: the only order-preserving
   * subsequence of `projects` holding every matching project as often as it
   * occurs, and nothing else, is `Filtered(projects, category, status)`.
   */
  lemma {:induction false} FilteredUnique(projects: seq<Project>, category: string, status: string, xs: seq<Project>)
    requires IsSubsequence(xs, projects)
    requires forall p :: multiset(xs)[p] == if Matches(p, category, status) then multiset(projects)[p] else 0
    ensures xs == Filtered(projects, category, status)
    decreases |projects|
  {
    if projects == [] {
      assert multiset(xs) == multiset{};
    } else {
      var h, t := projects[0], projects[1..];
      assert projects == [h] + t;
      if Matches(h, category, status) {
        // skipping the head would leave one occurrence of `h` too few
        SubsequenceCounts(xs, t);
        assert multiset(t)[h] < multiset(projects)[h];
        assert xs != [] && xs[0] == h && IsSubsequence(xs[1..], t);
        assert xs == [h] + xs[1..];
        forall p ensures multiset(xs[1..])[p] == if Matches(p, category, status) then multiset(t)[p] else 0 {
          assert multiset(xs)[p] == multiset([h])[p] + multiset(xs[1..])[p];
        }
        FilteredUnique(t, category, status, xs[1..]);
      } else {
        assert multiset(xs)[h] == 0;
        assert xs != [] ==> xs[0] in multiset(xs);
        assert IsSubsequence(xs, t);
        forall p ensures multiset(xs)[p] == if Matches(p, category, status) then multiset(t)[p] else 0 {
          assert multiset(projects)[p] == multiset([h])[p] + multiset(t)[p];
        }
        FilteredUnique(t, category, status, xs);
      }
    }
  }

  // ------------------------------------------------ algebra of the filters

  /** With both selections at "all" the whole list is shown. */
  lemma {:induction false} FilteredAllAll(projects: seq<Project>)
    ensures Filtered(projects, All, All) == projects
    decreases |projects|
  {
    if projects != [] {
      FilteredAllAll(projects[1..]);
    }
  }

  /** Filtering by both keys is filtering by category, then by status. */
  lemma {:induction false} FilteredComposes(projects: seq<Project>, category: string, status: string)
    ensures Filtered(projects, category, status) == Filtered(Filtered(projects, category, All), All, status)
    decreases |projects|
  {
    if projects != [] {
      var h, t := projects[0], projects[1..];
      assert projects == [h] + t;
      FilteredComposes(t, category, status);
      FilteredCons(h, t, category, status);
      FilteredCons(h, t, category, All);
      if CategoryMatch(h, category) {
        FilteredCons(h, Filtered(t, category, All), All, status);
      }
    }
  }

  /** The order of the two filters does not matter. */
  lemma {:induction false} FiltersCommute(projects: seq<Project>, category: string, status: string)
    ensures Filtered(Filtered(projects, category, All), All, status)
         == Filtered(Filtered(projects, All, status), category, All)
    decreases |projects|
  {
    if projects != [] {
      var h, t := projects[0], projects[1..];
      assert projects == [h] + t;
      FiltersCommute(t, category, status);
      FilteredCons(h, t, category, All);
      FilteredCons(h, t, All, status);
      if CategoryMatch(h, category) {
        FilteredCons(h, Filtered(t, category, All), All, status);
      }
      if StatusMatch(h, status) {
        FilteredCons(h, Filtered(t, All, status), category, All);
      }
    }
  }

  // ------------------------------------------------ category buttons

  /** `projects.filter(p => p.category === category).length` */
  function CountCategory(projects: seq<Project>, category: string): (n: nat)
    decreases |projects|
  {
    if projects == [] then 0
    else (if projects[0].category == category then 1 else 0) + CountCategory(projects[1..], category)
  }

  datatype CategoryTab = CategoryTab(id: string, name: string, count: nat)

  /** The ids of the category buttons, in the order they are drawn. */
  const CategoryIds: seq<string> := [All, "web", "mobile", "desktop", "ai", "api"]

  /** The fixed category buttons with their counts; the first is "all". */
  function CategoryTabs(projects: seq<Project>): (tabs: seq<CategoryTab>)
    ensures |tabs| == |CategoryIds| && forall k :: 0 <= k < |tabs| ==> tabs[k].id == CategoryIds[k]
    ensures tabs[0].count == |projects|
    ensures forall k :: 1 <= k < |tabs| ==> tabs[k].id != All
    // selecting a button (with status "all") shows exactly as many projects as the button says
    ensures forall k :: 0 <= k < |tabs| ==> tabs[k].count == |Filtered(projects, tabs[k].id, All)|
  {
    var ids := ["web", "mobile", "desktop", "ai", "api"];
    forall c | c in ids ensures CountCategory(projects, c) == |Filtered(projects, c, All)| {
      CountIsFilteredLength(projects, c);
    }
    FilteredAllAll(projects);
    [CategoryTab(All, "All Projects", |projects|),
     CategoryTab("web", "Web Apps", CountCategory(projects, "web")),
     CategoryTab("mobile", "Mobile Apps", CountCategory(projects, "mobile")),
     CategoryTab("desktop", "Desktop", CountCategory(projects, "desktop")),
     CategoryTab("ai", "AI/ML", CountCategory(projects, "ai")),
     CategoryTab("api", "APIs", CountCategory(projects, "api"))]
  }

  /** A category's count is the number of projects the category filter lets through. */
  lemma {:induction false} CountIsFilteredLength(projects: seq<Project>, category: string)
    requires category != All
    ensures CountCategory(projects, category) == |Filtered(projects, category, All)|
    decreases |projects|
  {
    if projects != [] {
      CountIsFilteredLength(projects[1..], category);
    }
  }

  /** A count badge is drawn on a button only when its count is positive. */
  function CountBadge(tab: CategoryTab): (b: Option<nat>)
    ensures b.Some? <==> tab.count > 0
    ensures b.Some? ==> b.value == tab.count
  {
    if tab.count > 0 then Some(tab.count) else None
  }

  // ------------------------------------------------ status badge

  const StatusClasses: map<string, string> :=
    map["completed" := "bg-green-500/10 text-green-600 border-green-500/20",
        "in-progress" := "bg-blue-500/10 text-blue-600 border-blue-500/20",
        "planned" := "bg-yellow-500/10 text-yellow-600 border-yellow-500/20",
        "paused" := "bg-gray-500/10 text-gray-600 border-gray-500/20"]

  /** `getStatusColor`: `colors[status] || colors['completed']`. */
  function StatusColor(status: string): (r: string)
    ensures r in StatusClasses.Values
    ensures status in StatusClasses ==> r == StatusClasses[status]
    ensures r == StatusClasses["completed"] <==> status == "completed" || status !in StatusClasses
  {
    if status in StatusClasses && StatusClasses[status] != "" then StatusClasses[status]
    else StatusClasses["completed"]
  }

  // ------------------------------------------------ the section

  datatype Section =
    | Skeletons
    | LoadError(message: string)
    | Grid(cards: seq<Project>, noMatchNotice: bool)

  /**
   * What the section renders: skeletons while loading, the error when there
   * is one, and otherwise the filtered cards, with the "No projects found"
   * notice exactly when none is left.
   */
  function Render(loading: bool, error: Option<string>, projects: seq<Project>,
                  category: string, status: string): (s: Section)
    ensures loading ==> s == Skeletons
    ensures !loading && error.Some? && error.value != "" ==> s == LoadError(error.value)
    ensures s.Grid? <==> !loading && (error.None? || error.value == "")
    ensures s.Grid? ==> s.cards == Filtered(projects, category, status)
    ensures s.Grid? ==> (s.noMatchNotice <==> s.cards == [])
  {
    if loading then Skeletons
    else if error.Some? && error.value != "" then LoadError(error.value)
    else
      var shown := Filtered(projects, category, status);
      Grid(shown, |shown| == 0)
  }

  /** The two selections, updated by the filter buttons. */
  class FilterState {
    var selectedCategory: string
    var selectedStatus: string

    constructor ()
      ensures selectedCategory == All && selectedStatus == All
    {
      selectedCategory, selectedStatus := All, All;
    }

    /** A category button's `onClick`. */
    method SelectCategory(category: string)
      modifies this
      ensures selectedCategory == category && selectedStatus == old(selectedStatus)
    {
      selectedCategory := category;
    }

    /** A status button's `onClick`. */
    method SelectStatus(status: string)
      modifies this
      ensures selectedStatus == status && selectedCategory == old(selectedCategory)
    {
      selectedStatus := status;
    }

    function Visible(projects: seq<Project>): (r: seq<Project>)
      reads this
      ensures forall k :: 0 <= k < |r| ==> Matches(r[k], selectedCategory, selectedStatus)
      ensures selectedCategory == All && selectedStatus == All ==> r == projects
    {
      FilteredAllAll(projects);
      Filtered(projects, selectedCategory, selectedStatus)
    }
  }
}
