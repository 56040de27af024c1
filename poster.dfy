/**
 * The poster as a whole: each panel of `visibleCats` with the rectangle the
 * treemap gives it, the grid chosen for that rectangle under the
 * corpus-wide icon cap, and the projects that get a cell.
 */
module Poster {
  import opened Projects
  import opened RealMath
  import opened SharePreview
  import opened PosterWeights
  import opened PosterGrid

  /** A card rectangle laid out by the treemap: its width and height. */
  datatype Rect = Rect(width: real, height: real)

  /** One rendered panel: its category, its icon grid and the projects given a cell. */
  datatype Panel = Panel(entry: Entry, grid: Grid, placed: seq<Project>)

  /** The panel of category `e` laid out in `rect`, its icons under `cap`. */
  function PanelOf(e: Entry, rect: Rect, cap: int, sqrt: real -> real): (x: Panel)
    requires rect.width > 32.0 && rect.height > 80.0 && |e.category.projects| >= 1
    requires cap >= 48 && IsSqrt(sqrt)
    ensures x.entry == e
    ensures 48 <= x.grid.iconSize <= cap && 10 <= x.grid.fontSize <= 13
    ensures x.placed == e.category.projects
  {
    var g := CardGrid(rect.width, rect.height, |e.category.projects|, cap, sqrt);
    AllPlaced(e.category.projects, rect.width, rect.height, cap, sqrt);
    Panel(e, g, Placed(e.category.projects, g))
  }

  /** The panels of the categories `cats`, panel `i` laid out in `rects[i]`. */
  function Panels(cats: seq<Entry>, rects: seq<Rect>, cap: int, sqrt: real -> real): (r: seq<Panel>)
    requires |rects| == |cats| && cap >= 48 && IsSqrt(sqrt)
    requires forall i | 0 <= i < |rects| :: rects[i].width > 32.0 && rects[i].height > 80.0
    requires forall e | e in cats :: |e.category.projects| >= 1
    ensures |r| == |cats|
    ensures forall i | 0 <= i < |r| ::
      && r[i].entry == cats[i]
      && 48 <= r[i].grid.iconSize <= cap
      && 10 <= r[i].grid.fontSize <= 13
      && r[i].placed == cats[i].category.projects
  {
    seq(|cats|, i requires 0 <= i < |cats| =>
      assert cats[i] in cats;
      PanelOf(cats[i], rects[i], cap, sqrt))
  }

  /**
   * `cards.each(...)` over the panels of `visibleCats`, panel `i` laid out
   * in `rects[i]`, every grid under the cap `MaxIconSize` of the total
   * number of projects on the poster.
   */
  function PosterPanels(entries: seq<Entry>, visible: map<string, bool>, showInactive: bool, rects: seq<Rect>,
                        sqrt: real -> real): (r: seq<Panel>)
    requires IsSqrt(sqrt)
    requires |rects| == |VisibleCats(entries, visible, showInactive)|
    requires forall i | 0 <= i < |rects| :: rects[i].width > 32.0 && rects[i].height > 80.0
    ensures |r| == |rects|
  {
    var cats := VisibleCats(entries, visible, showInactive);
    Panels(cats, rects, MaxIconSize(TotalProjects(cats), sqrt), sqrt)
  }

  /**
   * Panel `i` of the poster shows the `i`-th category of `visibleCats`, a
   * visible one, with icons between the minimum 48 and the cap of the whole
   * poster, labels between 10 and 13, and a cell for each of its projects,
   * in order.
   */
  lemma PosterPanelsSound(entries: seq<Entry>, visible: map<string, bool>, showInactive: bool, rects: seq<Rect>,
                          sqrt: real -> real)
    requires IsSqrt(sqrt)
    requires |rects| == |VisibleCats(entries, visible, showInactive)|
    requires forall i | 0 <= i < |rects| :: rects[i].width > 32.0 && rects[i].height > 80.0
    ensures var cats, r := VisibleCats(entries, visible, showInactive), PosterPanels(entries, visible, showInactive, rects, sqrt);
      var cap := MaxIconSize(TotalProjects(cats), sqrt);
      forall i | 0 <= i < |r| ::
        && r[i].entry == cats[i]
        && Visible(visible, cats[i].key)
        && 48 <= r[i].grid.iconSize <= cap
        && 10 <= r[i].grid.fontSize <= 13
        && r[i].placed == cats[i].category.projects
  {
    var cats := VisibleCats(entries, visible, showInactive);
    forall i | 0 <= i < |cats|
      ensures Visible(visible, cats[i].key)
    {
      assert cats[i] in cats;
    }
  }
}
