/**
 * The home page's state: which categories are visible, whether only the
 * featured ones are shown, whether inactive projects are shown, and the
 * categories it lists once the visibility, search and phase filters apply.
 */
module IndexRoute {
  import opened Wrappers
  import opened Order
  import opened StableSort
  import opened Projects

  /** The value `toggleFeatured` (and the initial state) gives a category key. */
  function Setting(e: Entry, featured: bool): bool {
    if featured then e.category.isPriority else true
  }

  /**
   * `m` after `m[key] = Setting(category)` for each entry of `es` in turn,
   * as the `forEach` loops of `toggleFeatured` and of the initial state do.
   */
  function Overlay(m: map<string, bool>, es: seq<Entry>, featured: bool): (r: map<string, bool>)
    ensures r.Keys == m.Keys + KeySet(es)
  {
    if es == [] then m
    else
      var pre := es[..|es| - 1];
      assert es == pre + [es[|es| - 1]];
      Overlay(m, pre, featured)[es[|es| - 1].key := Setting(es[|es| - 1], featured)]
  }

  lemma OverlaySnoc(m: map<string, bool>, es: seq<Entry>, featured: bool, i: nat)
    requires i < |es|
    ensures Overlay(m, es[..i + 1], featured) == Overlay(m, es[..i], featured)[es[i].key := Setting(es[i], featured)]
  {
    assert es[..i + 1][..i] == es[..i];
  }

  /** Each category key ends up with its own setting. */
  lemma {:induction false} OverlayAt(m: map<string, bool>, es: seq<Entry>, featured: bool, i: nat)
    requires DistinctKeys(es) && i < |es|
    ensures Overlay(m, es, featured)[es[i].key] == Setting(es[i], featured)
  {
    var pre := es[..|es| - 1];
    if i < |es| - 1 {
      assert pre[i] == es[i];
      OverlayAt(m, pre, featured, i);
    }
  }

  /** Keys that are not category keys keep their value, present or absent. */
  lemma {:induction false} OverlayOutside(m: map<string, bool>, es: seq<Entry>, featured: bool, k: string)
    requires k !in KeySet(es)
    ensures k in Overlay(m, es, featured) <==> k in m
    ensures k in m ==> Overlay(m, es, featured)[k] == m[k]
  {
    if es != [] {
      var pre := es[..|es| - 1];
      assert es == pre + [es[|es| - 1]];
      assert KeySet(pre) <= KeySet(es);
      OverlayOutside(m, pre, featured, k);
    }
  }

  /** Two lists with the same entries set a key alike. */
  lemma OverlayPermutedAt(m: map<string, bool>, a: seq<Entry>, b: seq<Entry>, featured: bool, k: string)
    requires DistinctKeys(a) && multiset(a) == multiset(b)
    ensures k in Overlay(m, a, featured) <==> k in Overlay(m, b, featured)
    ensures k in Overlay(m, a, featured) ==> Overlay(m, a, featured)[k] == Overlay(m, b, featured)[k]
  {
    PermutationKeepsDistinctKeys(a, b);
    if i :| 0 <= i < |a| && a[i].key == k {
      assert a[i] in multiset(b);
      var j :| 0 <= j < |b| && b[j] == a[i];
      OverlayAt(m, a, featured, i);
      OverlayAt(m, b, featured, j);
    } else {
      forall e | e in b
        ensures e.key != k
      {
        assert e in multiset(a);
      }
      OverlayOutside(m, a, featured, k);
      OverlayOutside(m, b, featured, k);
    }
  }

  /**
   * The order in which the categories are overlaid does not matter: any
   * reordering of a list with distinct keys gives the same map.
   */
  lemma OverlayPermuted(m: map<string, bool>, a: seq<Entry>, b: seq<Entry>, featured: bool)
    requires DistinctKeys(a) && multiset(a) == multiset(b)
    ensures Overlay(m, a, featured) == Overlay(m, b, featured)
  {
    var ra, rb := Overlay(m, a, featured), Overlay(m, b, featured);
    forall k
      ensures (k in ra <==> k in rb) && (k in ra ==> ra[k] == rb[k])
    {
      OverlayPermutedAt(m, a, b, featured, k);
    }
  }

  /** `{ ...prev, [key]: !prev[key] }`: a missing key reads as false, so it becomes true. */
  function Toggle(m: map<string, bool>, key: string): (r: map<string, bool>)
    ensures Visible(r, key) == !Visible(m, key)
    ensures forall k | k != key :: (k in r <==> k in m) && (k in m ==> r[k] == m[k])
  {
    m[key := !Visible(m, key)]
  }

  /** Toggling a key twice gives back the same visibility everywhere. */
  lemma ToggleTwice(m: map<string, bool>, key: string)
    ensures forall k :: Visible(Toggle(Toggle(m, key), key), k) == Visible(m, k)
  {
    forall k
      ensures Visible(Toggle(Toggle(m, key), key), k) == Visible(m, k)
    {
      if k == key {
        assert Visible(Toggle(Toggle(m, key), key), k) == !Visible(Toggle(m, key), key);
      }
    }
  }

  // ---------------------------------------------------------------------------
  // Search and phase filters

  /** `toLowerCase` on ASCII letters. */
  function Lower(s: string): (r: string)
    ensures |r| == |s|
    ensures forall i | 0 <= i < |s| :: r[i] == if 'A' <= s[i] <= 'Z' then (s[i] as int + 32) as char else s[i]
  {
    if s == [] then []
    else [if 'A' <= s[0] <= 'Z' then (s[0] as int + 32) as char else s[0]] + Lower(s[1..])
  }

  /** `s.includes(t)`: `t` starts at some position of `s`. */
  predicate Contains(s: string, t: string)
    decreases |s|
  {
    t <= s || (s != [] && Contains(s[1..], t))
  }

  /** The search test: an empty query, or the query in the name or the description, ignoring case. */
  predicate MatchesSearch(p: Project, query: string) {
    || query == []
    || Contains(Lower(p.name), Lower(query))
    || (p.description.Some? && Contains(Lower(p.description.value), Lower(query)))
  }

  /** The phase test: everything when inactive projects are shown, else only mainnet and still-building ones. */
  predicate MatchesPhase(p: Project, showInactive: bool) {
    showInactive || p.phase == Some("mainnet") || p.phase == Some("still building")
  }

  /**
   * The projects of a category that pass both tests, each as often as in
   * `ps`; the order is kept (see `MatchingAppend`).
   */
  function Matching(ps: seq<Project>, query: string, showInactive: bool): (r: seq<Project>)
    ensures forall p | p in r :: p in ps && MatchesSearch(p, query) && MatchesPhase(p, showInactive)
    ensures forall p | p in ps && MatchesSearch(p, query) && MatchesPhase(p, showInactive) :: p in r
    ensures forall p :: multiset(r)[p] == if MatchesSearch(p, query) && MatchesPhase(p, showInactive) then multiset(ps)[p] else 0
  {
    if ps == [] then []
    else
      assert ps == [ps[0]] + ps[1..];
      (if MatchesSearch(ps[0], query) && MatchesPhase(ps[0], showInactive) then [ps[0]] else [])
        + Matching(ps[1..], query, showInactive)
  }

  lemma AppendAssoc<T>(x: seq<T>, y: seq<T>, z: seq<T>)
    ensures x + (y + z) == (x + y) + z
  {
  }

  /** Filtering a list with one more project in front. */
  lemma MatchingCons(x: Project, ps: seq<Project>, query: string, showInactive: bool)
    ensures Matching([x] + ps, query, showInactive)
      == (if MatchesSearch(x, query) && MatchesPhase(x, showInactive) then [x] else []) + Matching(ps, query, showInactive)
  {
    assert ([x] + ps)[0] == x && ([x] + ps)[1..] == ps;
  }

  /** Filtering a concatenation filters each part and keeps them in order. */
  lemma {:induction false} MatchingAppend(a: seq<Project>, b: seq<Project>, query: string, showInactive: bool)
    ensures Matching(a + b, query, showInactive) == Matching(a, query, showInactive) + Matching(b, query, showInactive)
  {
    if a == [] {
      assert a + b == b;
    } else {
      var x, rest := a[0], a[1..];
      assert a == [x] + rest && a + b == [x] + (rest + b);
      var head := if MatchesSearch(x, query) && MatchesPhase(x, showInactive) then [x] else [];
      var mr, mb := Matching(rest, query, showInactive), Matching(b, query, showInactive);
      MatchingCons(x, rest + b, query, showInactive);
      MatchingCons(x, rest, query, showInactive);
      MatchingAppend(rest, b, query, showInactive);
      assert Matching(a + b, query, showInactive) == head + (mr + mb);
      AppendAssoc(head, mr, mb);
    }
  }

  /** Lowering twice is lowering once. */
  lemma LowerIdempotent(s: string)
    ensures Lower(Lower(s)) == Lower(s)
  {
    assert forall i | 0 <= i < |s| :: Lower(Lower(s))[i] == Lower(s)[i];
  }

  /** The search ignores the case of the query: a query and its lower-case form match the same projects. */
  lemma SearchIgnoresCase(p: Project, query: string)
    ensures MatchesSearch(p, Lower(query)) <==> MatchesSearch(p, query)
  {
    LowerIdempotent(query);
  }

  /**
   * The home page's phase test is stricter than the cards' and the poster's:
   * whatever it lets through is not inactive, and with inactive projects
   * hidden it also drops projects without a phase, which those keep.
   */
  lemma PhaseTestStricter(p: Project, showInactive: bool)
    ensures MatchesPhase(p, showInactive) ==> KeepsPhase(showInactive, p)
    ensures !showInactive && p.phase == None ==> KeepsPhase(showInactive, p) && !MatchesPhase(p, showInactive)
  {
  }

  /** A category with only its matching projects. */
  function Narrowed(e: Entry, query: string, showInactive: bool): Entry {
    Entry(e.key, e.category.(projects := Matching(e.category.projects, query, showInactive)))
  }

  /** The `filter`, `map`, `filter` chain of `filteredCategories`. */
  function FilterCats(s: seq<Entry>, visible: map<string, bool>, query: string, showInactive: bool): (r: seq<Entry>)
    ensures forall y | y in r ::
      && Visible(visible, y.key)
      && |y.category.projects| > 0
      && (forall p | p in y.category.projects :: MatchesSearch(p, query) && MatchesPhase(p, showInactive))
  {
    if s == [] then []
    else
      var y := Narrowed(s[0], query, showInactive);
      (if Visible(visible, s[0].key) && |y.category.projects| > 0 then [y] else [])
        + FilterCats(s[1..], visible, query, showInactive)
  }

  /** A category is listed exactly when it is visible and keeps a matching project. */
  lemma {:induction false} FilterCatsMembers(s: seq<Entry>, visible: map<string, bool>, query: string, showInactive: bool, y: Entry)
    ensures y in FilterCats(s, visible, query, showInactive) <==>
      exists e :: e in s && Visible(visible, e.key) && y == Narrowed(e, query, showInactive)
        && |y.category.projects| > 0
  {
    if s != [] {
      FilterCatsMembers(s[1..], visible, query, showInactive, y);
      assert forall e :: e in s <==> e == s[0] || e in s[1..];
    }
  }

  ghost predicate TitleOrdered(s: seq<Entry>) {
    forall i, j | 0 <= i < j < |s| :: StrLe(s[i].category.title, s[j].category.title)
  }

  lemma TitleOrderedTail(s: seq<Entry>)
    requires TitleOrdered(s) && s != []
    ensures TitleOrdered(s[1..])
    ensures forall e | e in s[1..] :: StrLe(s[0].category.title, e.category.title)
  {
    forall i, j | 0 <= i < j < |s[1..]|
      ensures StrLe(s[1..][i].category.title, s[1..][j].category.title)
    {
      assert s[1..][i] == s[i + 1] && s[1..][j] == s[j + 1];
    }
  }

  /** A listed category below the first catalogue entry has a title no smaller than that entry's. */
  lemma HeadBelowTail(s: seq<Entry>, visible: map<string, bool>, query: string, showInactive: bool, y: Entry)
    requires TitleOrdered(s) && s != []
    requires y in FilterCats(s[1..], visible, query, showInactive)
    ensures StrLe(s[0].category.title, y.category.title)
  {
    TitleOrderedTail(s);
    FilterCatsMembers(s[1..], visible, query, showInactive, y);
  }

  lemma ConsOrdered(y: Entry, tail: seq<Entry>)
    requires TitleOrdered(tail)
    requires forall x | x in tail :: StrLe(y.category.title, x.category.title)
    ensures TitleOrdered([y] + tail)
  {
    var r := [y] + tail;
    forall i, j | 0 <= i < j < |r|
      ensures StrLe(r[i].category.title, r[j].category.title)
    {
      assert r[j] == tail[j - 1];
      if i > 0 {
        assert r[i] == tail[i - 1];
      }
    }
  }

  /** Filtering keeps the title order. */
  lemma {:induction false} FilterCatsOrdered(s: seq<Entry>, visible: map<string, bool>, query: string, showInactive: bool)
    requires TitleOrdered(s)
    ensures TitleOrdered(FilterCats(s, visible, query, showInactive))
  {
    if s != [] {
      var tail := FilterCats(s[1..], visible, query, showInactive);
      TitleOrderedTail(s);
      FilterCatsOrdered(s[1..], visible, query, showInactive);
      var y := Narrowed(s[0], query, showInactive);
      if Visible(visible, s[0].key) && |y.category.projects| > 0 {
        forall x | x in tail
          ensures StrLe(y.category.title, x.category.title)
        {
          HeadBelowTail(s, visible, query, showInactive, x);
        }
        ConsOrdered(y, tail);
      }
    }
  }

  // ---------------------------------------------------------------------------
  // The page

  class IndexPage {
    /** The categorised catalogue from the loader. */
    const data: seq<Entry>
    var visibleCategories: map<string, bool>
    var showOnlyFeatured: bool
    var showInactive: bool

    /** The catalogue comes from an object, so its keys are distinct. */
    ghost predicate Valid() {
      DistinctKeys(data)
    }

    /** The initial state: every category visible exactly when it is featured; featured only; no inactive projects. */
    constructor (data: seq<Entry>)
      requires DistinctKeys(data)
      ensures this.data == data && Valid()
      ensures visibleCategories == Overlay(map[], data, true)
      ensures forall i | 0 <= i < |data| :: Visible(visibleCategories, data[i].key) == data[i].category.isPriority
      ensures showOnlyFeatured && !showInactive
    {
      this.data := data;
      var initial: map<string, bool> := map[];
      var i := 0;
      while i < |data|
        invariant 0 <= i <= |data|
        invariant initial == Overlay(map[], data[..i], true)
      {
        OverlaySnoc(map[], data, true, i);
        initial := initial[data[i].key := data[i].category.isPriority];
        i := i + 1;
      }
      assert data[..i] == data;
      ToggleFeaturedSettings(map[], data, true);
      visibleCategories := initial;
      showOnlyFeatured := true;
      showInactive := false;
    }

    /** `toggleCategory`: flips one category's visibility. */
    method ToggleCategory(category: string)
      modifies this
      ensures visibleCategories == Toggle(old(visibleCategories), category)
      ensures showOnlyFeatured == old(showOnlyFeatured) && showInactive == old(showInactive)
    {
      visibleCategories := visibleCategories[category := !Visible(visibleCategories, category)];
    }

    /**
     * `toggleFeatured`: flips the featured-only switch and sets every category
     * key to its featured flag (switching on) or to true (switching off).
     */
    method ToggleFeatured()
      requires Valid()
      modifies this
      ensures showOnlyFeatured == !old(showOnlyFeatured)
      ensures visibleCategories == Overlay(old(visibleCategories), data, showOnlyFeatured)
      ensures forall i | 0 <= i < |data| ::
        Visible(visibleCategories, data[i].key) == (!showOnlyFeatured || data[i].category.isPriority)
      ensures showInactive == old(showInactive)
    {
      var nextShowOnlyFeatured := !showOnlyFeatured;
      var updatedVisibility := visibleCategories;
      ghost var before := visibleCategories;
      var i := 0;
      while i < |data|
        invariant 0 <= i <= |data|
        invariant updatedVisibility == Overlay(before, data[..i], nextShowOnlyFeatured)
        invariant unchanged(this)
      {
        OverlaySnoc(before, data, nextShowOnlyFeatured, i);
        if nextShowOnlyFeatured {
          updatedVisibility := updatedVisibility[data[i].key := data[i].category.isPriority];
        } else {
          updatedVisibility := updatedVisibility[data[i].key := true];
        }
        i := i + 1;
      }
      assert data[..i] == data;
      ToggleFeaturedSettings(before, data, nextShowOnlyFeatured);
      showOnlyFeatured := nextShowOnlyFeatured;
      visibleCategories := updatedVisibility;
    }

    /** The show-inactive switch. */
    method ToggleInactive()
      modifies this
      ensures showInactive == !old(showInactive)
      ensures visibleCategories == old(visibleCategories) && showOnlyFeatured == old(showOnlyFeatured)
    {
      showInactive := !showInactive;
    }

    /** `sortedCategories`: every category, ordered by title, ties in catalogue order. */
    function SortedCategories(): (r: seq<Entry>)
      ensures multiset(r) == multiset(data)
      ensures TitleOrdered(r)
      ensures forall k :: WithKey(r, TitleKey, k) == WithKey(data, TitleKey, k)
    {
      var r := SortByKey(data, TitleKey);
      forall i, j | 0 <= i < j < |r|
        ensures StrLe(r[i].category.title, r[j].category.title)
      {
        assert KeyLe(TitleKey(r[i]), TitleKey(r[j]));
      }
      r
    }

    /**
     * `filteredCategories` for the (debounced) search `query`: the visible
     * categories keeping a project that matches the search and the phase
     * test, narrowed to those projects, in title order.
     */
    function FilteredCategories(query: string): (r: seq<Entry>)
      reads this
      ensures TitleOrdered(r)
      ensures forall y | y in r ::
        && Visible(visibleCategories, y.key)
        && |y.category.projects| > 0
        && (forall p | p in y.category.projects :: MatchesSearch(p, query) && MatchesPhase(p, showInactive))
      ensures !showInactive ==> forall y, p | y in r && p in y.category.projects ::
        p.phase == Some("mainnet") || p.phase == Some("still building")
    {
      FilterCatsOrdered(SortedCategories(), visibleCategories, query, showInactive);
      FilterCats(SortedCategories(), visibleCategories, query, showInactive)
    }
  }

  /** After `toggleFeatured`, a category key is visible exactly when featured (switched on), or always (switched off). */
  lemma ToggleFeaturedSettings(before: map<string, bool>, data: seq<Entry>, featured: bool)
    requires DistinctKeys(data)
    ensures forall i | 0 <= i < |data| ::
      Visible(Overlay(before, data, featured), data[i].key) == (!featured || data[i].category.isPriority)
  {
    forall i | 0 <= i < |data|
      ensures Visible(Overlay(before, data, featured), data[i].key) == (!featured || data[i].category.isPriority)
    {
      OverlayAt(before, data, featured, i);
    }
  }
}
