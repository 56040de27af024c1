/**
 * The icon grid inside one poster panel: its columns and rows, the icon and
 * label sizes, and which projects get a cell.
 */
module PosterGrid {
  import opened Projects
  import opened RealMath

  /** The shape and sizes chosen for a panel's grid. */
  datatype Grid = Grid(columns: int, rows: int, iconSize: int, fontSize: int)

  /** `optimalColumns`: at least two on a tall panel, else the ceiling of `sqrt(n · aspect)`. */
  function Columns(n: nat, aspect: real, sqrt: real -> real): (c: int)
    requires aspect > 0.0 && n >= 1
    requires IsSqrt(sqrt)
    ensures aspect < 1.0 ==> c >= 2
    ensures c >= 1
  {
    var base := sqrt(n as real * aspect);
    if aspect < 1.0 then Max(2, base.Floor)
    else
      assert base >= 1.0 by {
        assert n as real * aspect >= 1.0;
        if base < 1.0 {
          SquareStrict(base, 1.0);
          assert false;
        }
      }
      Ceil(base)
  }

  /** `optimalRows`: as many rows as the columns need to hold every project. */
  function Rows(n: nat, columns: int): (r: int)
    requires columns >= 1
    ensures columns * r >= n
    ensures (r - 1) * columns < n
    ensures n >= 1 ==> r >= 1
  {
    var c := columns as real;
    var r := Ceil(n as real / c);
    assert (n as real / c) * c == n as real;
    assert r as real * c >= (n as real / c) * c;
    assert (r - 1) as real * c < (n as real / c) * c;
    r
  }

  /** The widest icon for which `columns` icons and the 12-wide gaps between them fit in `width`. */
  function CellWidth(width: real, columns: int): real
    requires columns >= 1
  {
    (width - 12.0 * (columns - 1) as real) / columns as real
  }

  /** The tallest icon for which `rows` icons, their 32-high labels and the 12-high gaps fit in `height`. */
  function CellHeight(height: real, rows: int): real
    requires rows >= 1
  {
    (height - 32.0 * rows as real - 12.0 * (rows - 1) as real) / rows as real
  }

  /** `gridWidth`: the width `columns` icons of size `icon` take with their gaps. */
  function GridWidth(icon: real, columns: int): real {
    icon * columns as real + 12.0 * (columns - 1) as real
  }

  /** `gridHeight`: the height `rows` icons of size `icon` take with their labels and gaps. */
  function GridHeight(icon: real, rows: int): real {
    icon * rows as real + 12.0 * (rows - 1) as real + 32.0 * rows as real
  }

  /** Icons no wider than a cell fit the width, and icons exactly a cell wide fill it. */
  lemma WidthFits(width: real, columns: int, icon: real)
    requires columns >= 1 && icon <= CellWidth(width, columns)
    ensures GridWidth(icon, columns) <= width
    ensures icon == CellWidth(width, columns) ==> GridWidth(icon, columns) == width
  {
    var gaps := 12.0 * (columns - 1) as real;
    DivMul(width - gaps, columns as real);
    MulLe(icon, CellWidth(width, columns), columns as real);
  }

  /** Icons no taller than a cell fit the height, and icons exactly a cell tall fill it. */
  lemma HeightFits(height: real, rows: int, icon: real)
    requires rows >= 1 && icon <= CellHeight(height, rows)
    ensures GridHeight(icon, rows) <= height
    ensures icon == CellHeight(height, rows) ==> GridHeight(icon, rows) == height
  {
    var rest := 32.0 * rows as real + 12.0 * (rows - 1) as real;
    DivMul(height - rest, rows as real);
    MulLe(icon, CellHeight(height, rows), rows as real);
  }

  /** `baseIconSize`: the largest icon for which the columns fit the width and the rows the height. */
  function BaseIconSize(width: real, height: real, columns: int, rows: int): (r: real)
    requires columns >= 1 && rows >= 1
    ensures r <= CellWidth(width, columns) && r <= CellHeight(height, rows)
    ensures r == CellWidth(width, columns) || r == CellHeight(height, rows)
  {
    MinR(CellWidth(width, columns), CellHeight(height, rows))
  }

  /**
   * `emptySpaceRatio`: the smaller share of the width or height the base-size
   * grid leaves empty. The base size fills one dimension exactly, so it is
   * always 0.
   */
  function EmptySpaceRatio(width: real, height: real, columns: int, rows: int): (r: real)
    requires width > 0.0 && height > 0.0 && columns >= 1 && rows >= 1
    ensures r == 0.0
  {
    var icon := BaseIconSize(width, height, columns, rows);
    WidthFits(width, columns, icon);
    HeightFits(height, rows, icon);
    EmptyRatioZero(width, height, width - GridWidth(icon, columns), height - GridHeight(icon, rows));
    MinR((width - GridWidth(icon, columns)) / width, (height - GridHeight(icon, rows)) / height)
  }

  /** `scaleFactor` of the icons: one plus half the empty-space ratio, at most 1.3. */
  function IconScale(width: real, height: real, columns: int, rows: int): (s: real)
    requires width > 0.0 && height > 0.0 && columns >= 1 && rows >= 1
    ensures s <= 1.3
  {
    MinR(1.3, 1.0 + EmptySpaceRatio(width, height, columns, rows) * 0.5)
  }

  /** Since the empty-space ratio is always 0, the icons are never scaled. */
  lemma IconScaleIsOne(width: real, height: real, columns: int, rows: int)
    requires width > 0.0 && height > 0.0 && columns >= 1 && rows >= 1
    ensures IconScale(width, height, columns, rows) == 1.0
  {
  }

  /** `finalIconSize`: the scaled size rounded down, clamped to `[48, maxIconSize]`. */
  function IconSize(base: real, scale: real, maxIconSize: int): (r: int)
    requires maxIconSize >= 48
    ensures 48 <= r <= maxIconSize
    ensures 48 <= (base * scale).Floor <= maxIconSize ==> r as real <= base * scale < r as real + 1.0
  {
    Max(48, Min(maxIconSize, (base * scale).Floor))
  }

  /** `fontSize`: the icon size over 4.5, rounded down, clamped to `[10, 13]`. */
  function FontSize(iconSize: int): (r: int)
    ensures 10 <= r <= 13
    ensures iconSize <= 49 ==> r == 10
    ensures iconSize >= 59 ==> r == 13
  {
    Max(10, Min(13, (iconSize as real / 4.5).Floor))
  }

  /** A larger icon never gets a smaller label. */
  lemma FontSizeMonotone(a: int, b: int)
    requires a <= b
    ensures FontSize(a) <= FontSize(b)
  {
    assert a as real / 4.5 <= b as real / 4.5;
  }

  /**
   * The grid of a panel of `cardWidth` by `cardHeight` holding `n` projects:
   * interior sizes are the card less 16 of padding on each side and a 48
   * header; the caller keeps both positive and gives every panel a project.
   */
  function CardGrid(cardWidth: real, cardHeight: real, n: nat, maxIconSize: int, sqrt: real -> real): (g: Grid)
    requires cardWidth > 32.0 && cardHeight > 80.0 && n >= 1
    requires maxIconSize >= 48 && IsSqrt(sqrt)
    ensures g.columns >= 1 && g.rows >= 1
    ensures (cardWidth - 32.0) / (cardHeight - 80.0) < 1.0 ==> g.columns >= 2
    ensures g.columns * g.rows >= n && (g.rows - 1) * g.columns < n
    ensures 48 <= g.iconSize <= maxIconSize
    ensures 10 <= g.fontSize <= 13
  {
    var width := cardWidth - 32.0;
    var height := cardHeight - 48.0 - 32.0;
    var columns := Columns(n, width / height, sqrt);
    var rows := Rows(n, columns);
    var icon := IconSize(BaseIconSize(width, height, columns, rows), IconScale(width, height, columns, rows), maxIconSize);
    Grid(columns, rows, icon, FontSize(icon))
  }

  /**
   * Unless the icon size was raised to the minimum 48, the icons, gaps and
   * labels of a `columns` by `rows` grid fit inside a `width` by `height` interior.
   */
  lemma GridFits(width: real, height: real, columns: int, rows: int, maxIconSize: int)
    requires width > 0.0 && height > 0.0 && columns >= 1 && rows >= 1 && maxIconSize >= 48
    requires BaseIconSize(width, height, columns, rows).Floor >= 48
    ensures var icon := IconSize(BaseIconSize(width, height, columns, rows), IconScale(width, height, columns, rows), maxIconSize) as real;
      GridWidth(icon, columns) <= width && GridHeight(icon, rows) <= height
  {
    var base := BaseIconSize(width, height, columns, rows);
    IconScaleIsOne(width, height, columns, rows);
    var icon := IconSize(base, 1.0, maxIconSize) as real;
    assert icon <= base;
    WidthFits(width, columns, icon);
    HeightFits(height, rows, icon);
  }

  /** Unless its icon size was raised to the minimum 48, a panel's grid fits inside the panel. */
  lemma IconsFit(cardWidth: real, cardHeight: real, n: nat, maxIconSize: int, sqrt: real -> real)
    requires cardWidth > 32.0 && cardHeight > 80.0 && n >= 1
    requires maxIconSize >= 48 && IsSqrt(sqrt)
    requires var width, height := cardWidth - 32.0, cardHeight - 80.0;
      var columns := Columns(n, width / height, sqrt);
      BaseIconSize(width, height, columns, Rows(n, columns)).Floor >= 48
    ensures var g := CardGrid(cardWidth, cardHeight, n, maxIconSize, sqrt);
      && GridWidth(g.iconSize as real, g.columns) <= cardWidth - 32.0
      && GridHeight(g.iconSize as real, g.rows) <= cardHeight - 80.0
  {
    var width, height := cardWidth - 32.0, cardHeight - 80.0;
    var columns := Columns(n, width / height, sqrt);
    var rows := Rows(n, columns);
    var icon := IconSize(BaseIconSize(width, height, columns, rows), IconScale(width, height, columns, rows), maxIconSize);
    assert CardGrid(cardWidth, cardHeight, n, maxIconSize, sqrt) == Grid(columns, rows, icon, FontSize(icon));
    GridFits(width, height, columns, rows, maxIconSize);
  }

  /**
   * `projects.slice(0, columns · rows)`: the projects given a grid cell, in
   * order, one per cell, every project when there are enough cells.
   */
  function Placed(projects: seq<Project>, g: Grid): (r: seq<Project>)
    requires g.columns * g.rows >= 0
    ensures r <= projects
    ensures |r| <= g.columns * g.rows
    ensures g.columns * g.rows >= |projects| ==> r == projects
    ensures g.columns * g.rows < |projects| ==> |r| == g.columns * g.rows
  {
    projects[..Min(|projects|, g.columns * g.rows)]
  }

  /** The grid chosen for a panel has a cell for each of its projects, so all are placed, in order. */
  lemma AllPlaced(projects: seq<Project>, cardWidth: real, cardHeight: real, maxIconSize: int, sqrt: real -> real)
    requires cardWidth > 32.0 && cardHeight > 80.0 && |projects| >= 1
    requires maxIconSize >= 48 && IsSqrt(sqrt)
    ensures Placed(projects, CardGrid(cardWidth, cardHeight, |projects|, maxIconSize, sqrt)) == projects
  {
  }
}
