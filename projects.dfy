/** The project listing page: the category and search filter over the
    catalog, the filter state with its Clear Filters action, and what each
    project card shows. */
module Projects {
  import opened Common
  import opened Catalog
  import opened Text

  predicate MatchesCategory(p: Project, selected: string) {
    selected == AllCategories || p.category == selected
  }

  /** `tech.some(t => t.toLowerCase().includes(q))` for an already lower-cased `q`. */
  predicate SomeTechIncludes(tech: seq<string>, q: string) {
    if tech == [] then false else Includes(Lower(tech[0]), q) || SomeTechIncludes(tech[1..], q)
  }

  predicate MatchesSearch(p: Project, query: string) {
    query == ""
    || Includes(Lower(p.title), Lower(query))
    || Includes(Lower(p.description), Lower(query))
    || SomeTechIncludes(p.tech, Lower(query))
  }

  predicate Keeps(p: Project, category: string, query: string) {
    MatchesCategory(p, category) && MatchesSearch(p, query)
  }

  /** `projects.filter(...)`: the projects that pass both tests, in catalog order. */
  function Filter(ps: seq<Project>, category: string, query: string): (r: seq<Project>)
    ensures |r| <= |ps|
    ensures forall p :: p in r ==> p in ps && Keeps(p, category, query)
  {
    if ps == [] then []
    else
      var last := ps[|ps| - 1];
      Filter(ps[..|ps| - 1], category, query) + (if Keeps(last, category, query) then [last] else [])
  }

  /** The catalog positions of the projects that pass both tests, in increasing order. */
  function MatchingPositions(ps: seq<Project>, category: string, query: string): seq<nat> {
    if ps == [] then []
    else
      MatchingPositions(ps[..|ps| - 1], category, query)
      + (if Keeps(ps[|ps| - 1], category, query) then [|ps| - 1] else [])
  }

  lemma {:induction false} PositionsBounded(ps: seq<Project>, category: string, query: string)
    ensures forall k :: 0 <= k < |MatchingPositions(ps, category, query)| ==> MatchingPositions(ps, category, query)[k] < |ps|
  {
    if ps != [] {
      PositionsBounded(ps[..|ps| - 1], category, query);
    }
  }

  /** The k-th kept project is the catalog entry at the k-th matching position. */
  lemma {:induction false} FilterAlongPositions(ps: seq<Project>, category: string, query: string)
    ensures var r, idx := Filter(ps, category, query), MatchingPositions(ps, category, query);
      && |idx| == |r|
      && forall k :: 0 <= k < |idx| ==> idx[k] < |ps| && r[k] == ps[idx[k]]
  {
    if ps != [] {
      var n := |ps| - 1;
      var init := ps[..n];
      FilterAlongPositions(init, category, query);
      var r0, idx0 := Filter(init, category, query), MatchingPositions(init, category, query);
      var keep := Keeps(ps[n], category, query);
      var r, idx := Filter(ps, category, query), MatchingPositions(ps, category, query);
      assert r == r0 + (if keep then [ps[n]] else []);
      assert idx == idx0 + (if keep then [n] else []);
      forall k | 0 <= k < |idx| ensures idx[k] < |ps| && r[k] == ps[idx[k]] {
        if k < |idx0| { assert idx[k] == idx0[k] && r[k] == r0[k] && r0[k] == init[idx0[k]]; }
      }
    }
  }

  lemma {:induction false} PositionsIncreasing(ps: seq<Project>, category: string, query: string)
    ensures forall k, k' :: 0 <= k < k' < |MatchingPositions(ps, category, query)| ==>
      MatchingPositions(ps, category, query)[k] < MatchingPositions(ps, category, query)[k']
  {
    if ps != [] {
      var n := |ps| - 1;
      var init := ps[..n];
      PositionsIncreasing(init, category, query);
      PositionsBounded(init, category, query);
      var idx0 := MatchingPositions(init, category, query);
      var idx := MatchingPositions(ps, category, query);
      assert idx == idx0 + (if Keeps(ps[n], category, query) then [n] else []);
      forall k, k' | 0 <= k < k' < |idx| ensures idx[k] < idx[k'] {
        if k' < |idx0| {
          assert idx[k] == idx0[k] && idx[k'] == idx0[k'];
          assert idx0[k] < idx0[k'];
        } else {
          assert idx[k] == idx0[k];
          assert idx0[k] < n;
          assert idx[k'] == n;
        }
      }
    }
  }

  lemma {:induction false} PositionsExact(ps: seq<Project>, category: string, query: string)
    ensures var idx := MatchingPositions(ps, category, query);
      forall j :: 0 <= j < |ps| ==> (j in idx <==> Keeps(ps[j], category, query))
  {
    if ps != [] {
      var n := |ps| - 1;
      var init := ps[..n];
      PositionsExact(init, category, query);
      PositionsBounded(init, category, query);
      var idx0 := MatchingPositions(init, category, query);
      var idx := MatchingPositions(ps, category, query);
      assert idx == idx0 + (if Keeps(ps[n], category, query) then [n] else []);
      forall j | 0 <= j < |ps| ensures j in idx <==> Keeps(ps[j], category, query) {
        if j < n { assert ps[j] == init[j]; assert n !in idx0; }
        else { assert j !in idx0; }
      }
    }
  }

  /** The filter is an order-preserving subsequence of the catalog that keeps
      exactly the projects passing both tests. */
  lemma FilterSelectsMatchingInOrder(ps: seq<Project>, category: string, query: string)
    ensures var r, idx := Filter(ps, category, query), MatchingPositions(ps, category, query);
      && |idx| == |r|
      && (forall k :: 0 <= k < |idx| ==> idx[k] < |ps| && r[k] == ps[idx[k]])
      && (forall k, k' :: 0 <= k < k' < |idx| ==> idx[k] < idx[k'])
      && (forall j :: 0 <= j < |ps| ==> (j in idx <==> Keeps(ps[j], category, query)))
  {
    FilterAlongPositions(ps, category, query);
    PositionsIncreasing(ps, category, query);
    PositionsExact(ps, category, query);
  }

  /** A project is in the result iff it is in the catalog and passes both tests. */
  lemma {:induction false} FilterMembership(ps: seq<Project>, category: string, query: string, p: Project)
    ensures p in Filter(ps, category, query) <==> p in ps && Keeps(p, category, query)
  {
    if ps != [] {
      FilterMembership(ps[..|ps| - 1], category, query, p);
      assert ps == ps[..|ps| - 1] + [ps[|ps| - 1]];
    }
  }

  /** Unless the category is 'All', every listed project has the selected category. */
  lemma FilterRespectsCategory(ps: seq<Project>, category: string, query: string)
    requires category != AllCategories
    ensures forall p :: p in Filter(ps, category, query) ==> p.category == category
  {
    forall p | p in Filter(ps, category, query) ensures p.category == category {
      FilterMembership(ps, category, query, p);
    }
  }

  /** With category 'All' and an empty query the whole catalog is listed. */
  lemma {:induction false} FilterAllEmptyIsIdentity(ps: seq<Project>)
    ensures Filter(ps, AllCategories, "") == ps
  {
    if ps != [] {
      FilterAllEmptyIsIdentity(ps[..|ps| - 1]);
      assert ps == ps[..|ps| - 1] + [ps[|ps| - 1]];
    }
  }

  lemma {:induction false} SomeTechIncludesIff(tech: seq<string>, q: string)
    ensures SomeTechIncludes(tech, q) <==> exists i :: 0 <= i < |tech| && Contains(Lower(tech[i]), q)
  {
    if tech != [] {
      IncludesIff(Lower(tech[0]), q);
      SomeTechIncludesIff(tech[1..], q);
      if SomeTechIncludes(tech[1..], q) {
        var i :| 0 <= i < |tech[1..]| && Contains(Lower(tech[1..][i]), q);
        assert tech[1..][i] == tech[i + 1];
      }
      forall i | 0 <= i < |tech| && Contains(Lower(tech[i]), q)
        ensures SomeTechIncludes(tech, q)
      {
        if i > 0 { assert tech[1..][i - 1] == tech[i]; }
      }
    }
  }

  /** The search test holds iff the query is empty or its lower-cased form is a
      substring of the lower-cased title, description or some tech entry. */
  lemma SearchMeaning(p: Project, query: string)
    ensures MatchesSearch(p, query) <==>
      || query == ""
      || Contains(Lower(p.title), Lower(query))
      || Contains(Lower(p.description), Lower(query))
      || exists i :: 0 <= i < |p.tech| && Contains(Lower(p.tech[i]), Lower(query))
  {
    IncludesIff(Lower(p.title), Lower(query));
    IncludesIff(Lower(p.description), Lower(query));
    SomeTechIncludesIff(p.tech, Lower(query));
  }

  /** The search is case-insensitive in the query: two queries that differ
      only in the case of their letters, such as a query and its lower-cased
      form, list the same projects. */
  lemma SearchIgnoresQueryCase(p: Project, query: string, other: string)
    requires SameUpToCase(query, other)
    ensures MatchesSearch(p, Lower(query)) == MatchesSearch(p, query)
    ensures MatchesSearch(p, other) == MatchesSearch(p, query)
  {
    assert Lower(Lower(query)) == Lower(query);
    assert |Lower(query)| == |query|;
    LowerSameUpToCase(query, other);
  }

  /** Searching "REACT" or "react" lists the same projects. */
  lemma SearchCaseExample(p: Project)
    ensures MatchesSearch(p, "REACT") == MatchesSearch(p, "react")
  {
    var lower, upper := "react", "REACT";
    assert forall i :: 0 <= i < 5 ==> LowerChar(upper[i]) == lower[i];
    assert SameUpToCase(lower, upper);
    SearchIgnoresQueryCase(p, lower, upper);
  }

  /** A project titled "React" is found by the query "react". */
  lemma SearchTitleExample(p: Project)
    requires p.title == "React"
    ensures MatchesSearch(p, "react")
  {
    var lower := "react";
    assert forall i :: 0 <= i < 5 ==> !('A' <= lower[i] <= 'Z');
    assert Lower(lower) == lower;
    assert Lower(p.title)[0] == 'r';
    assert Lower(p.title) == lower;
    assert StartsWith(lower, lower);
  }

  /** What one project card renders. */
  datatype Card = Card(
    category: string,
    ndaBadge: bool,
    featuredBadge: bool,
    title: string,
    description: string,
    badges: seq<string>,
    moreCount: Option<nat>,
    liveLink: Option<string>,
    codeLink: Option<string>,
    detailsLink: Option<string>)

  function CardFor(p: Project): (c: Card)
    ensures |c.badges| == Min(4, |p.tech|) && c.badges == p.tech[..|c.badges|]
    ensures c.moreCount.Some? <==> |p.tech| > 4
    ensures c.moreCount.Some? ==> |c.badges| + c.moreCount.value == |p.tech|
    ensures c.liveLink.Some? <==> Truthy(p.liveUrl)
    ensures c.liveLink.Some? ==> p.liveUrl == c.liveLink
    ensures c.codeLink.Some? <==> !p.nda && (Truthy(p.githubUrl) || Truthy(p.gitlabUrl))
    ensures c.codeLink.Some? ==> c.codeLink == (if Truthy(p.githubUrl) then p.githubUrl else p.gitlabUrl)
    ensures c.detailsLink.Some? <==> !p.nda
    ensures c.detailsLink.Some? ==> c.detailsLink.value == "/projects/" + p.id
    ensures c.ndaBadge == p.nda && c.featuredBadge == p.featured
    ensures c.category == p.category && c.title == p.title && c.description == p.description
  {
    var shown := Min(4, |p.tech|);
    var source := OrElse(p.githubUrl, p.gitlabUrl);
    Card(
      p.category, p.nda, p.featured, p.title, p.description,
      p.tech[..shown],
      if |p.tech| > 4 then Some(|p.tech| - 4) else None,
      if Truthy(p.liveUrl) then p.liveUrl else None,
      if Truthy(source) && !p.nda then source else None,
      if !p.nda then Some("/projects/" + p.id) else None)
  }

  /** What the listing page renders below the filters. */
  datatype Listing = Listing(count: nat, plural: bool, cards: seq<Card>, emptyState: bool)

  function ListingFor(ps: seq<Project>, category: string, query: string): (v: Listing)
    ensures v.count == |v.cards| == |Filter(ps, category, query)|
    ensures forall k :: 0 <= k < |v.cards| ==> v.cards[k] == CardFor(Filter(ps, category, query)[k])
    ensures v.plural <==> v.count != 1
    ensures v.emptyState <==> forall p :: p in ps ==> !Keeps(p, category, query)
  {
    var shown := Filter(ps, category, query);
    assert (forall p :: p in ps ==> !Keeps(p, category, query)) <==> shown == [] by {
      forall p { FilterMembership(ps, category, query, p); }
      if shown != [] { assert shown[0] in shown; }
    }
    Listing(|shown|, |shown| != 1, seq(|shown|, k requires 0 <= k < |shown| => CardFor(shown[k])), |shown| == 0)
  }

  /** The listing page's filter state over a fixed catalog. */
  class ProjectsPage {
    const projects: seq<Project>
    var selectedCategory: string
    var searchQuery: string

    constructor (projects: seq<Project>)
      ensures this.projects == projects
      ensures selectedCategory == AllCategories && searchQuery == ""
    {
      this.projects := projects;
      selectedCategory := AllCategories;
      searchQuery := "";
    }

    function Shown(): seq<Project>
      reads this
    {
      Filter(projects, selectedCategory, searchQuery)
    }

    function View(): Listing
      reads this
    {
      ListingFor(projects, selectedCategory, searchQuery)
    }

    /** A category button. */
    method SelectCategory(category: string)
      modifies this
      ensures selectedCategory == category && searchQuery == old(searchQuery)
    {
      selectedCategory := category;
    }

    /** Typing in the search box. */
    method SetSearchQuery(query: string)
      modifies this
      ensures searchQuery == query && selectedCategory == old(selectedCategory)
    {
      searchQuery := query;
    }

    /** Clear Filters: both fields back to their defaults, so every project is listed. */
    method ClearFilters()
      modifies this
      ensures selectedCategory == AllCategories && searchQuery == ""
      ensures Shown() == projects
      ensures View().emptyState <==> projects == []
    {
      selectedCategory := AllCategories;
      searchQuery := "";
      FilterAllEmptyIsIdentity(projects);
    }
  }
}
