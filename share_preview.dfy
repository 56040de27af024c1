/**
 * The shareable poster: which categories get a panel and in what order, the
 * corpus-wide cap on icon sizes, and the poster's own name cleaning. Panel
 * weights are in PosterWeights and panel grids in PosterGrid. Arithmetic is
 * over exact reals; `Math.sqrt` and `Math.log2` are parameters constrained
 * by `IsSqrt` and `IsLog2`.
 */
module SharePreview {
  import opened Order
  import opened StableSort
  import opened Projects
  import opened Sanitize
  import opened RealMath

  // ---------------------------------------------------------------------------
  // Which categories get a panel

  /** A category with only the projects that pass the phase test. */
  function PhaseFiltered(e: Entry, showInactive: bool): Entry {
    Entry(e.key, e.category.(projects := WithoutInactive(e.category.projects, showInactive)))
  }

  /** The `filter`, `map`, `filter` chain of `visibleCats`, before the sort. */
  function Shown(entries: seq<Entry>, visible: map<string, bool>, showInactive: bool): (r: seq<Entry>)
    ensures forall x | x in r ::
      && Visible(visible, x.key)
      && |x.category.projects| > 0
      && (forall p | p in x.category.projects :: KeepsPhase(showInactive, p))
  {
    if entries == [] then []
    else
      var x := PhaseFiltered(entries[0], showInactive);
      (if Visible(visible, entries[0].key) && |x.category.projects| > 0 then [x] else [])
        + Shown(entries[1..], visible, showInactive)
  }

  /** A category is shown exactly when it is visible and keeps a project after the phase test. */
  lemma {:induction false} ShownMembers(entries: seq<Entry>, visible: map<string, bool>, showInactive: bool, x: Entry)
    ensures x in Shown(entries, visible, showInactive) <==>
      exists e :: e in entries && Visible(visible, e.key) && x == PhaseFiltered(e, showInactive)
        && |x.category.projects| > 0
  {
    if entries != [] {
      ShownMembers(entries[1..], visible, showInactive, x);
      assert forall e :: e in entries <==> e == entries[0] || e in entries[1..];
    }
  }

  /** `visibleCats`: the shown categories, ordered by title. */
  function VisibleCats(entries: seq<Entry>, visible: map<string, bool>, showInactive: bool): (r: seq<Entry>)
    ensures forall x | x in r ::
      && Visible(visible, x.key)
      && |x.category.projects| > 0
      && (forall p | p in x.category.projects :: KeepsPhase(showInactive, p))
    ensures forall i, j | 0 <= i < j < |r| :: StrLe(r[i].category.title, r[j].category.title)
    ensures forall k :: WithKey(r, TitleKey, k) == WithKey(Shown(entries, visible, showInactive), TitleKey, k)
  {
    var s := Shown(entries, visible, showInactive);
    var r := SortByKey(s, TitleKey);
    forall x | x in r
      ensures x in s
    {
      SortedMembers(s, TitleKey, x);
    }
    forall i, j | 0 <= i < j < |r|
      ensures StrLe(r[i].category.title, r[j].category.title)
    {
      assert KeyLe(TitleKey(r[i]), TitleKey(r[j]));
    }
    r
  }

  /** Every visible category keeping a project after the phase test gets a panel, and nothing else does. */
  lemma VisibleCatsMembers(entries: seq<Entry>, visible: map<string, bool>, showInactive: bool, x: Entry)
    ensures x in VisibleCats(entries, visible, showInactive) <==>
      exists e :: e in entries && Visible(visible, e.key) && x == PhaseFiltered(e, showInactive)
        && |x.category.projects| > 0
  {
    SortedMembers(Shown(entries, visible, showInactive), TitleKey, x);
    ShownMembers(entries, visible, showInactive, x);
  }

  // ---------------------------------------------------------------------------
  // The corpus-wide icon size cap

  /**
   * `maxIconSize`: `320 / sqrt(0.05 * total)`, rounded down and clamped to
   * [96, 200]; with no project the division gives `Infinity`, hence 200.
   */
  function MaxIconSize(totalProjects: nat, sqrt: real -> real): (r: int)
    requires IsSqrt(sqrt)
    ensures 96 <= r <= 200
    ensures totalProjects == 0 ==> r == 200
  {
    var root := sqrt(totalProjects as real * 0.05);
    assert totalProjects == 0 ==> root * root == 0.0;
    if root == 0.0 then 200 else Max(96, Min(200, (320.0 / root).Floor))
  }

  /** More projects never give a larger icon cap. */
  lemma MaxIconSizeMonotone(sqrt: real -> real, a: nat, b: nat)
    requires IsSqrt(sqrt)
    requires a <= b
    ensures MaxIconSize(b, sqrt) <= MaxIconSize(a, sqrt)
  {
    var ra, rb := sqrt(a as real * 0.05), sqrt(b as real * 0.05);
    SqrtMonotone(sqrt, a as real * 0.05, b as real * 0.05);
    if ra != 0.0 {
      assert 0.0 < ra <= rb;
      DivAntitone(320.0, ra, rb);
    }
  }

  /** A corpus of 1000 projects: `floor(320 / sqrt(50)) = 45`, so the cap is the minimum 96. */
  lemma ThousandProjectsCap(sqrt: real -> real)
    requires IsSqrt(sqrt)
    ensures MaxIconSize(1000, sqrt) == 96
  {
    var root := sqrt(1000 as real * 0.05);
    assert root * root == 50.0;
    if root <= 7.0 {
      SquareAtMost(root, 7.0);
      assert false;
    }
    assert 320.0 / root < 46.0 by {
      assert (320.0 / root) * root == 320.0;
      assert 46.0 * root > 322.0;
    }
  }

  // ---------------------------------------------------------------------------
  // Project names on the poster

  /** The poster's own `sanitizeName`: like the shared one, but a `.` also ends the name. */
  function PosterName(name: string): (r: string)
    ensures Clean(r, false)
  {
    SanitizeWith(name, false)
  }

  /** A poster name never contains a `.`. */
  lemma PosterNameDotFree(name: string)
    ensures '.' !in PosterName(name)
  {
    CleanWithoutDot(PosterName(name));
  }
}
