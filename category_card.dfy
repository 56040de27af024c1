/**
 * What a category card on the home page shows: the featured badge, the
 * first nine projects of the category (inactive ones dropped unless asked
 * for, the rest in display order) with their cleaned names, and a
 * "+k more" line when there are more than nine.
 */
module CategoryCard {
  import opened Wrappers
  import opened Projects
  import opened Sanitize
  import opened ProjectUtils

  /** How many project tiles a card shows at most. */
  const MaxTiles: nat := 9

  /** The parts of a card that depend on its data. */
  datatype Card = Card(
    title: string,
    badge: bool,
    shown: seq<Project>,
    names: seq<string>,
    more: Option<nat>)

  /**
   * The card for a category. `arrange` stands for the display ordering of
   * the projects (`sortProjectsByScoreAndPhase`); `isPriority` is the
   * optional prop, `None` when the caller leaves it out.
   */
  function RenderCard(title: string, projects: seq<Project>, isPriority: Option<bool>, showInactive: bool,
                      arrange: seq<Project> -> seq<Project>): (r: Card)
    ensures r.title == title
    ensures r.badge <==> isPriority == Some(true)
    ensures |r.shown| <= MaxTiles
    ensures r.shown <= arrange(WithoutInactive(projects, showInactive))
    ensures |r.shown| == MaxTiles || r.shown == arrange(WithoutInactive(projects, showInactive))
    ensures |r.names| == |r.shown|
    ensures forall i | 0 <= i < |r.shown| :: r.names[i] == SanitizeName(r.shown[i].name)
    ensures r.more.Some? <==> |arrange(WithoutInactive(projects, showInactive))| > MaxTiles
    ensures r.more.Some? ==> |r.shown| + r.more.value == |arrange(WithoutInactive(projects, showInactive))|
  {
    var list := arrange(WithoutInactive(projects, showInactive));
    var shown := if |list| <= MaxTiles then list else list[..MaxTiles];
    Card(title,
         isPriority.GetOr(false),
         shown,
         seq(|shown|, i requires 0 <= i < |shown| => SanitizeName(shown[i].name)),
         if |list| > MaxTiles then Some(|list| - MaxTiles) else None)
  }

  /**
   * With a display ordering that only permutes, a card shows only
   * projects of its category that pass the phase test, every project that
   * passes when there are at most nine of them, and accounts for all of
   * them: the tiles plus the "+k more" count make the number that pass.
   */
  lemma CardAccounts(title: string, projects: seq<Project>, isPriority: Option<bool>, showInactive: bool,
                     arrange: seq<Project> -> seq<Project>)
    requires Permutes(arrange)
    ensures var r := RenderCard(title, projects, isPriority, showInactive, arrange);
      var kept := WithoutInactive(projects, showInactive);
      && (forall p | p in r.shown :: p in projects && KeepsPhase(showInactive, p))
      && (|kept| <= MaxTiles ==> r.more == None && forall p | p in projects && KeepsPhase(showInactive, p) :: p in r.shown)
      && |r.shown| + r.more.GetOr(0) == |kept|
  {
    var r := RenderCard(title, projects, isPriority, showInactive, arrange);
    var kept := WithoutInactive(projects, showInactive);
    var list := arrange(kept);
    assert multiset(list) == multiset(kept);
    assert |list| == |multiset(list)| == |multiset(kept)| == |kept|;
    forall p | p in r.shown
      ensures p in projects && KeepsPhase(showInactive, p)
    {
      assert p in list;
      assert p in multiset(list);
      assert p in kept;
    }
    if |kept| <= MaxTiles {
      forall p | p in projects && KeepsPhase(showInactive, p)
        ensures p in r.shown
      {
        assert p in multiset(kept);
      }
    }
  }
}
