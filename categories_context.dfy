/**
 * The shared visibility state of the category pages: a map from category
 * key to visibility that starts empty, can be replaced wholesale, and is
 * filled once from the categorised catalogue (each key mapped to its
 * featured flag) the first time anyone asks while it is still empty.
 */
module CategoriesContext {
  import opened Wrappers
  import opened Projects
  import opened IndexRoute

  /** The message `useCategories` throws outside a provider. */
  const OutsideProvider: string := "useCategories must be used within a CategoriesProvider"

  class CategoriesProvider {
    var visibleCategories: map<string, bool>

    /** The state starts as the empty map. */
    constructor ()
      ensures visibleCategories == map[]
    {
      visibleCategories := map[];
    }

    /** `setVisibleCategories`: replaces the whole map. */
    method SetVisibleCategories(categories: map<string, bool>)
      modifies this
      ensures visibleCategories == categories
    {
      visibleCategories := categories;
    }

    /**
     * `initializeVisibleCategories`: when the map is empty, builds the map
     * key |-> isPriority over the catalogue's entries in order and installs
     * it; otherwise leaves the state alone.
     */
    method InitializeVisibleCategories(categories: seq<Entry>)
      modifies this
      ensures old(visibleCategories) != map[] ==> visibleCategories == old(visibleCategories)
      ensures old(visibleCategories) == map[] ==> visibleCategories == Overlay(map[], categories, true)
    {
      if |visibleCategories| == 0 {
        var initial: map<string, bool> := map[];
        var i := 0;
        while i < |categories|
          invariant 0 <= i <= |categories|
          invariant initial == Overlay(map[], categories[..i], true)
        {
          OverlaySnoc(map[], categories, true, i);
          initial := initial[categories[i].key := categories[i].category.isPriority];
          i := i + 1;
        }
        assert categories[..i] == categories;
        visibleCategories := initial;
      }
    }
  }

  /**
   * The map installed from an empty state: its keys are exactly the
   * catalogue's keys, each with its featured flag, and it is non-empty once
   * the catalogue is, so every later initialisation leaves it alone.
   */
  lemma InitialMap(categories: seq<Entry>)
    requires DistinctKeys(categories)
    ensures var m := Overlay(map[], categories, true);
      && m.Keys == KeySet(categories)
      && (forall i | 0 <= i < |categories| :: m[categories[i].key] == categories[i].category.isPriority)
      && (categories != [] ==> m != map[])
  {
    var m := Overlay(map[], categories, true);
    forall i | 0 <= i < |categories|
      ensures m[categories[i].key] == categories[i].category.isPriority
    {
      OverlayAt(map[], categories, true, i);
    }
    if categories != [] {
      assert categories[0].key in m.Keys;
    }
  }

  /** `useCategories`: the provider's value, or the error it throws when there is none. */
  function UseCategories(context: Option<CategoriesProvider>): (r: Result<CategoriesProvider, string>)
    ensures r.Success? <==> context.Some?
    ensures r.Success? ==> r.value == context.value
    ensures r.Failure? ==> r.error == OutsideProvider
  {
    match context
    case None => Failure(OutsideProvider)
    case Some(provider) => Success(provider)
  }
}
