/**
 * The controls above the category list: a click on a tag asks the page to
 * toggle that category, and a click on the featured switch asks it to
 * toggle, one by one, every category whose visibility must change, and
 * then to flip the featured switch itself.
 */
module CategoryControls {
  import opened Projects
  import opened IndexRoute

  /** A call the controls make on the page: `onToggleCategory(key)` or `onToggleFeatured()`. */
  datatype Event = ToggleCategory(key: string) | ToggleFeatured

  /** Whether the featured click toggles category `e`. */
  predicate Wanted(e: Entry, visible: map<string, bool>, showOnlyFeatured: bool) {
    if showOnlyFeatured then !Visible(visible, e.key)
    else (e.category.isPriority && !Visible(visible, e.key)) || (!e.category.isPriority && Visible(visible, e.key))
  }

  /** The `onToggleCategory` calls of a featured click, in list order. */
  function Toggles(categories: seq<Entry>, visible: map<string, bool>, showOnlyFeatured: bool): (r: seq<Event>)
    ensures forall i | 0 <= i < |r| :: r[i].ToggleCategory?
    ensures |r| <= |categories|
  {
    if categories == [] then []
    else
      var e := categories[|categories| - 1];
      Toggles(categories[..|categories| - 1], visible, showOnlyFeatured)
        + (if Wanted(e, visible, showOnlyFeatured) then [ToggleCategory(e.key)] else [])
  }

  /** The visibility after the page has handled the category toggles of `events`, in order. */
  function ApplyToggles(m: map<string, bool>, events: seq<Event>): map<string, bool> {
    if events == [] then m
    else
      var last := events[|events| - 1];
      var before := ApplyToggles(m, events[..|events| - 1]);
      if last.ToggleCategory? then Toggle(before, last.key) else before
  }

  /** `handleTagClick`: the click toggles exactly that category. */
  function HandleTagClick(key: string): (r: seq<Event>)
    ensures |r| == 1
    ensures forall m :: ApplyToggles(m, r) == Toggle(m, key)
  {
    [ToggleCategory(key)]
  }

  /**
   * `handleFeaturedClick`: one `onToggleCategory` per category to change, in
   * list order, then `onToggleFeatured` once.
   */
  method HandleFeaturedClick(categories: seq<Entry>, visible: map<string, bool>, showOnlyFeatured: bool)
    returns (events: seq<Event>)
    ensures events == Toggles(categories, visible, showOnlyFeatured) + [ToggleFeatured]
    ensures events[|events| - 1] == ToggleFeatured
    ensures forall i | 0 <= i < |events| - 1 :: events[i].ToggleCategory?
  {
    events := [];
    var i := 0;
    while i < |categories|
      invariant 0 <= i <= |categories|
      invariant events == Toggles(categories[..i], visible, showOnlyFeatured)
    {
      assert categories[..i + 1][..i] == categories[..i];
      var key := categories[i].key;
      if showOnlyFeatured {
        if !Visible(visible, key) {
          events := events + [ToggleCategory(key)];
        }
      } else {
        if categories[i].category.isPriority && !Visible(visible, key) {
          events := events + [ToggleCategory(key)];
        } else if !categories[i].category.isPriority && Visible(visible, key) {
          events := events + [ToggleCategory(key)];
        }
      }
      i := i + 1;
    }
    assert categories[..i] == categories;
    events := events + [ToggleFeatured];
  }

  /**
   * A category is toggled exactly when it is hidden (switching to all), or
   * when its visibility differs from its featured flag (switching to
   * featured only).
   */
  lemma {:induction false} TogglesExactly(categories: seq<Entry>, visible: map<string, bool>, showOnlyFeatured: bool, k: string)
    ensures ToggleCategory(k) in Toggles(categories, visible, showOnlyFeatured) <==>
      exists e :: e in categories && e.key == k &&
        if showOnlyFeatured then !Visible(visible, k) else e.category.isPriority != Visible(visible, k)
  {
    if categories != [] {
      var pre, e := categories[..|categories| - 1], categories[|categories| - 1];
      assert categories == pre + [e];
      TogglesExactly(pre, visible, showOnlyFeatured, k);
    }
  }

  /** Handling the toggles leaves the visibility of every key outside the list as it was. */
  lemma {:induction false} ToggledOthers(categories: seq<Entry>, visible: map<string, bool>, showOnlyFeatured: bool)
    ensures forall k | k !in KeySet(categories) ::
      Visible(ApplyToggles(visible, Toggles(categories, visible, showOnlyFeatured)), k) == Visible(visible, k)
  {
    if categories != [] {
      var pre, e := categories[..|categories| - 1], categories[|categories| - 1];
      assert categories == pre + [e];
      ToggledOthers(pre, visible, showOnlyFeatured);
      TogglesSnoc(categories, visible, showOnlyFeatured);
      if Wanted(e, visible, showOnlyFeatured) {
        ApplyAppend(visible, Toggles(pre, visible, showOnlyFeatured), ToggleCategory(e.key));
      }
      assert KeySet(pre) <= KeySet(categories);
    }
  }

  /**
   * Handling the toggles makes every listed category visible (switching to
   * all) or visible exactly when featured (switching to featured only).
   */
  lemma {:induction false} ToggledVisibility(categories: seq<Entry>, visible: map<string, bool>, showOnlyFeatured: bool)
    requires DistinctKeys(categories)
    ensures forall i | 0 <= i < |categories| ::
      Visible(ApplyToggles(visible, Toggles(categories, visible, showOnlyFeatured)), categories[i].key)
        == (showOnlyFeatured || categories[i].category.isPriority)
  {
    if categories != [] {
      var pre, e := categories[..|categories| - 1], categories[|categories| - 1];
      assert DistinctKeys(pre);
      ToggledVisibility(pre, visible, showOnlyFeatured);
      ToggledOthers(pre, visible, showOnlyFeatured);
      LastKeyFresh(categories);
      TogglesSnoc(categories, visible, showOnlyFeatured);
      var m0 := ApplyToggles(visible, Toggles(pre, visible, showOnlyFeatured));
      var m := ApplyToggles(visible, Toggles(categories, visible, showOnlyFeatured));
      if Wanted(e, visible, showOnlyFeatured) {
        ApplyAppend(visible, Toggles(pre, visible, showOnlyFeatured), ToggleCategory(e.key));
      }
      assert Visible(m0, e.key) == Visible(visible, e.key);
      forall i | 0 <= i < |categories|
        ensures Visible(m, categories[i].key) == (showOnlyFeatured || categories[i].category.isPriority)
      {
        if i < |pre| {
          assert pre[i] == categories[i];
          assert categories[i].key != e.key;
        }
      }
    }
  }

  /** The last category adds its toggle, if any, after those of the ones before it. */
  lemma TogglesSnoc(categories: seq<Entry>, visible: map<string, bool>, showOnlyFeatured: bool)
    requires categories != []
    ensures var e := categories[|categories| - 1];
      var ts := Toggles(categories[..|categories| - 1], visible, showOnlyFeatured);
      Toggles(categories, visible, showOnlyFeatured)
        == if Wanted(e, visible, showOnlyFeatured) then ts + [ToggleCategory(e.key)] else ts
  {
  }

  /** Handling one more event after `events`. */
  lemma ApplyAppend(m: map<string, bool>, events: seq<Event>, ev: Event)
    ensures ApplyToggles(m, events + [ev])
      == if ev.ToggleCategory? then Toggle(ApplyToggles(m, events), ev.key) else ApplyToggles(m, events)
  {
    assert (events + [ev])[..|events|] == events;
  }

  lemma LastKeyFresh(categories: seq<Entry>)
    requires DistinctKeys(categories) && categories != []
    ensures categories[|categories| - 1].key !in KeySet(categories[..|categories| - 1])
  {
    var pre := categories[..|categories| - 1];
    forall x | x in pre
      ensures x.key != categories[|categories| - 1].key
    {
      var j :| 0 <= j < |pre| && pre[j] == x;
      assert categories[j] == x;
    }
  }

  /**
   * The category toggles and the page's own `toggleFeatured` update agree:
   * handling the toggles gives every key the visibility that overlaying the
   * new featured setting on the old state gives it.
   */
  lemma TogglesAgreeWithToggleFeatured(categories: seq<Entry>, visible: map<string, bool>, showOnlyFeatured: bool)
    requires DistinctKeys(categories)
    ensures forall k ::
      Visible(ApplyToggles(visible, Toggles(categories, visible, showOnlyFeatured)), k)
        == Visible(Overlay(visible, categories, !showOnlyFeatured), k)
  {
    ToggledVisibility(categories, visible, showOnlyFeatured);
    ToggledOthers(categories, visible, showOnlyFeatured);
    forall k
      ensures Visible(ApplyToggles(visible, Toggles(categories, visible, showOnlyFeatured)), k)
        == Visible(Overlay(visible, categories, !showOnlyFeatured), k)
    {
      if k in KeySet(categories) {
        var e :| e in categories && e.key == k;
        var i :| 0 <= i < |categories| && categories[i] == e;
        OverlayAt(visible, categories, !showOnlyFeatured, i);
      } else {
        OverlayOutside(visible, categories, !showOnlyFeatured, k);
      }
    }
  }

  /**
   * On the page the controls get the title-sorted categories, while
   * `toggleFeatured` walks the catalogue in its own order; a featured click
   * still leaves every key with the visibility `toggleFeatured` gives it.
   */
  lemma FeaturedClickOnPage(page: IndexPage)
    requires page.Valid()
    ensures forall k ::
      Visible(ApplyToggles(page.visibleCategories, Toggles(page.SortedCategories(), page.visibleCategories, page.showOnlyFeatured)), k)
        == Visible(Overlay(page.visibleCategories, page.data, !page.showOnlyFeatured), k)
  {
    var sorted := page.SortedCategories();
    PermutationKeepsDistinctKeys(page.data, sorted);
    TogglesAgreeWithToggleFeatured(sorted, page.visibleCategories, page.showOnlyFeatured);
    OverlayPermuted(page.visibleCategories, page.data, sorted, !page.showOnlyFeatured);
  }
}
