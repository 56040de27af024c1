/**
 * The cards of the home page: each listed category of `filteredCategories`
 * rendered as a `CategoryCard`. The page passes the card the category's
 * already filtered projects but not the show-inactive switch.
 */
module PageCards {
  import opened Wrappers
  import opened Projects
  import opened IndexRoute
  import opened ProjectUtils
  import opened CategoryCard

  /**
   * The card as the page renders it: `showInactive` is not passed, so the
   * card reads it as `undefined` and drops inactive projects whatever the
   * page's switch says.
   */
  function PageCardAsWritten(y: Entry, arrange: seq<Project> -> seq<Project>): Card {
    RenderCard(y.category.title, y.category.projects, Some(y.category.isPriority), false, arrange)
  }

  /**
   * With inactive projects shown, the page lists a category holding only an
   * inactive project, yet the card it renders for it has no tile.
   */
  lemma ListedInactiveDropped()
    ensures var p := Project("p", "p", None, Some("inactive"), []);
      var e := Entry("k", Category("t", "bg-gray-500", [p], false));
      var listed := FilterCats([e], map["k" := true], "", true);
      && |listed| == 1 && listed[0].category.projects == [p]
      && PageCardAsWritten(listed[0], ps => ps).shown == []
  {
    var p := Project("p", "p", None, Some("inactive"), []);
    var e := Entry("k", Category("t", "bg-gray-500", [p], false));
    assert Matching([p], "", true) == [p] by {
      assert [p][1..] == [];
    }
    assert FilterCats([e], map["k" := true], "", true) == [Narrowed(e, "", true)] by {
      assert [e][1..] == [];
    }
    assert WithoutInactive([p], false) == [] by {
      assert [p][1..] == [];
    }
  }

  /** The card with the page's switch passed on, as its required prop asks. */
  function PageCard(y: Entry, showInactive: bool, arrange: seq<Project> -> seq<Project>): Card {
    RenderCard(y.category.title, y.category.projects, Some(y.category.isPriority), showInactive, arrange)
  }

  /** Filtering projects that all pass the phase test keeps them all, in order. */
  lemma {:induction false} WithoutInactiveKeepsAll(ps: seq<Project>, showInactive: bool)
    requires forall p | p in ps :: KeepsPhase(showInactive, p)
    ensures WithoutInactive(ps, showInactive) == ps
  {
    if ps != [] {
      assert forall p | p in ps[1..] :: p in ps;
      WithoutInactiveKeepsAll(ps[1..], showInactive);
    }
  }

  /**
   * With the switch passed on, a card accounts for every project the page
   * lists for it: the tiles plus the "+k more" count are exactly those
   * projects, and all of them are tiles when there are at most nine.
   */
  lemma PageCardShowsListed(s: seq<Entry>, visible: map<string, bool>, query: string, showInactive: bool,
                            arrange: seq<Project> -> seq<Project>, y: Entry)
    requires Permutes(arrange)
    requires y in FilterCats(s, visible, query, showInactive)
    ensures var r := PageCard(y, showInactive, arrange);
      && |r.shown| + r.more.GetOr(0) == |y.category.projects|
      && (|y.category.projects| <= MaxTiles ==> forall p | p in y.category.projects :: p in r.shown)
  {
    var ps := y.category.projects;
    forall p | p in ps
      ensures KeepsPhase(showInactive, p)
    {
      PhaseTestStricter(p, showInactive);
    }
    WithoutInactiveKeepsAll(ps, showInactive);
    CardAccounts(y.category.title, ps, Some(y.category.isPriority), showInactive, arrange);
  }
}
