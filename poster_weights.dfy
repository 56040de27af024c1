/**
 * How much of the poster canvas each category panel asks for: a share of
 * the canvas proportional to its project count, adjusted up for large and
 * down for small categories, then clamped between a minimum panel size and
 * the space its icons need.
 */
module PosterWeights {
  import opened Projects
  import opened RealMath

  const CanvasWidth: int := 3840
  const CanvasHeight: int := 2160
  const CanvasPadding: int := 20
  const TitleHeight: int := 100
  /** The grid area: `(3840 - 2·20) · (2160 - 100 - 2·20)`. */
  const TotalArea: real := ((CanvasWidth - 2 * CanvasPadding) * (CanvasHeight - TitleHeight - 2 * CanvasPadding)) as real
  /** The area of one icon with its padding and label: `(64 + 16) · (64 + 16 + 24)`. */
  const BaseIconArea: real := ((64 + 16) * (64 + 16 + 24)) as real

  /** `scaleFactor`: logarithmic above the average, square-root below. */
  function ScaleFactor(n: nat, avg: real, log2: real -> real, sqrt: real -> real): (r: real)
    requires avg > 0.0
    requires IsLog2(log2) && IsSqrt(sqrt)
    ensures n as real > avg ==> r >= 1.0
    ensures 0.0 <= r
  {
    if n as real > avg then 1.0 + log2(n as real / avg) else sqrt(n as real / avg)
  }

  /** The share of the grid area in proportion to the project count. */
  function BaseWeight(n: nat, total: nat): real
    requires total > 0
  {
    n as real / total as real * TotalArea
  }

  /**
   * The `let weight` of a panel after the boost or penalty: never below 0.7
   * of the category's share, and above the share only for a boosted one.
   */
  function AdjustedWeight(n: nat, total: nat, avg: real, log2: real -> real, sqrt: real -> real): (w: real)
    requires total > 0 && avg > 0.0
    requires IsLog2(log2) && IsSqrt(sqrt)
    ensures 0.7 * BaseWeight(n, total) <= w
    ensures n as real <= avg * 2.0 ==> w <= BaseWeight(n, total)
  {
    var weight := BaseWeight(n, total);
    if n as real > avg * 2.0 then weight * (1.5 * ScaleFactor(n, avg, log2, sqrt))
    else if (n as real) < avg / 2.0 then weight * 0.7
    else weight
  }

  /**
   * The weight is raised (by at least half) only for a category above twice
   * the average, lowered only for one under half the average, and otherwise
   * is the category's share of the grid area.
   */
  lemma WeightBranches(n: nat, total: nat, avg: real, log2: real -> real, sqrt: real -> real)
    requires total > 0 && avg > 0.0 && n > 0
    requires IsLog2(log2) && IsSqrt(sqrt)
    ensures var w, base := AdjustedWeight(n, total, avg, log2, sqrt), BaseWeight(n, total);
      && base > 0.0
      && (w > base <==> n as real > avg * 2.0)
      && (w < base <==> (n as real) < avg / 2.0)
      && (n as real > avg * 2.0 ==> w >= 1.5 * base)
      && ((n as real) < avg / 2.0 ==> w == 0.7 * base)
  {
    var base := BaseWeight(n, total);
    assert base > 0.0 by {
      assert n as real / total as real > 0.0;
    }
    if n as real > avg * 2.0 {
      var s := ScaleFactor(n, avg, log2, sqrt);
      assert s >= 1.0;
      assert base * (1.5 * s) >= base * 1.5;
    }
  }

  /** `minSize`: four icons, or 2% of the grid area if more. */
  const MinSize: real := MaxR(BaseIconArea * 4.0, TotalArea * 0.02)

  /** `maxSize`: a quarter of the grid area, or one and a half icon areas per project if less. */
  function MaxSize(n: nat): real {
    MinR(TotalArea * 0.25, BaseIconArea * n as real * 1.5)
  }

  /**
   * The `value` of a panel: its weight clamped to `[minSize, maxSize]`, the cap
   * winning when the two cross; with the grid's constants every category of
   * at most 12 projects asks for exactly 12480 per project.
   */
  function FinalWeight(n: nat, total: nat, avg: real, log2: real -> real, sqrt: real -> real): (v: real)
    requires total > 0 && avg > 0.0
    requires IsLog2(log2) && IsSqrt(sqrt)
    ensures v <= MaxSize(n)
    ensures MinSize <= MaxSize(n) ==> MinSize <= v
    ensures var w := AdjustedWeight(n, total, avg, log2, sqrt);
      && (MinSize <= w <= MaxSize(n) ==> v == w)
      && (w >= MaxSize(n) ==> v == MaxSize(n))
      && (w <= MinSize <= MaxSize(n) ==> v == MinSize)
    ensures n <= 12 ==> v == 12480.0 * n as real
    ensures n > 0 ==> v > 0.0
  {
    MinR(MaxSize(n), MaxR(MinSize, AdjustedWeight(n, total, avg, log2, sqrt)))
  }

  /** The total number of projects in the panels (the `reduce`). */
  function TotalProjects(cats: seq<Entry>): (t: nat)
    ensures (forall e | e in cats :: |e.category.projects| > 0) ==> t >= |cats|
    ensures forall e | e in cats :: |e.category.projects| <= t
  {
    if cats == [] then 0 else |cats[0].category.projects| + TotalProjects(cats[1..])
  }

  /** The weights of the panels, in the order of `visibleCats`. */
  function Weights(cats: seq<Entry>, log2: real -> real, sqrt: real -> real): (ws: seq<real>)
    requires forall e | e in cats :: |e.category.projects| > 0
    requires IsLog2(log2) && IsSqrt(sqrt)
    ensures |ws| == |cats|
    ensures cats != [] ==> TotalProjects(cats) > 0 && TotalProjects(cats) as real / |cats| as real > 0.0
    ensures forall i | 0 <= i < |ws| :: 0.0 < ws[i] <= MaxSize(|cats[i].category.projects|)
    ensures forall i | 0 <= i < |ws| :: MinSize <= MaxSize(|cats[i].category.projects|) ==> MinSize <= ws[i]
    ensures forall i | 0 <= i < |ws| ::
      ws[i] == FinalWeight(|cats[i].category.projects|, TotalProjects(cats), TotalProjects(cats) as real / |cats| as real, log2, sqrt)
  {
    var total := TotalProjects(cats);
    if cats == [] then []
    else
      var avg := total as real / |cats| as real;
      assert total > 0 && avg > 0.0;
      seq(|cats|, i requires 0 <= i < |cats| =>
        assert cats[i] in cats;
        FinalWeight(|cats[i].category.projects|, total, avg, log2, sqrt))
  }

  /**
   * Two categories of 100 and 5 projects: 100 is not above twice the average
   * (105), so it is not boosted; the cap and the penalty give weights in
   * the ratio 20 to 1, the ratio of the counts.
   */
  lemma TwoCategoryWeights(log2: real -> real, sqrt: real -> real)
    requires IsLog2(log2) && IsSqrt(sqrt)
    ensures AdjustedWeight(100, 105, 52.5, log2, sqrt) == BaseWeight(100, 105)
    ensures FinalWeight(100, 105, 52.5, log2, sqrt) == 1248000.0
    ensures FinalWeight(5, 105, 52.5, log2, sqrt) == 62400.0
  {
    assert BaseWeight(100, 105) > 1248000.0;
  }
}
