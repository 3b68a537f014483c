/**
 * The grid settings, the header band and the placement of kanji cells in a
 * subgrid.
 */
module Layout {
  import opened Results
  import opened Imaging
  import opened Ordering
  import opened TextFilter
  import opened Counting
  import opened Tiers
  import opened Arith

  /** The side of a glyph cell or the height of a header line, in pixels (a loaded font's size). */
  type FontSize = n: int | n > 0 witness 1

  /** The constructor parameters of the grid builder, after defaults are applied. */
  datatype Settings = Settings(
    kanjiSet: KanjiSet,
    kanjiFontSize: FontSize,
    headerFontSize: FontSize,
    columns: nat,
    colors: map<int, Color>,
    barPadding: nat,
    paddingAboveHeader: nat,
    paddingUnderHeader: nat,
    gridSidePadding: nat,  // stored but never read: the side padding is the kanji font size
    barHoriBorder: nat,
    barVertBorder: nat,
    kanjiFontColor: Color,
    headerFontColor: Color,
    backgroundColor: Color,
    kanjiBackgroundColor: Color)
  {
    /** `kfont.size * columns`, the width of every section. */
    function GridWidth(): (w: nat)
      ensures w == kanjiFontSize * columns
      ensures columns > 0 ==> w >= kanjiFontSize
    {
      MulMono(0, columns, kanjiFontSize);
      MulMono(1, columns, kanjiFontSize);
      kanjiFontSize * columns
    }
  }

  /** The column of cell `k` in a grid `columns` wide, counting off whole rows. */
  function Column(k: nat, columns: nat): (c: nat)
    requires columns > 0
    ensures c < columns
    decreases k
  {
    if k < columns then k else Column(k - columns, columns)
  }

  /** The row of cell `k` in a grid `columns` wide. */
  function Row(k: nat, columns: nat): nat
    requires columns > 0
    decreases k
  {
    if k < columns then 0 else Row(k - columns, columns) + 1
  }

  /** Cell `k` lies `Row` whole rows and `Column` cells in. */
  lemma {:induction false} ColumnRow(k: nat, columns: nat)
    requires columns > 0
    ensures Row(k, columns) * columns + Column(k, columns) == k
    decreases k
  {
    if k >= columns {
      ColumnRow(k - columns, columns);
      var r := Row(k - columns, columns);
      assert (r + 1) * columns == r * columns + columns;
    }
  }

  /** The column and row of cell `k` are `k mod columns` and `k div columns`. */
  lemma ColumnRowDivMod(k: nat, columns: nat)
    requires columns > 0
    ensures Column(k, columns) == k % columns && Row(k, columns) == k / columns
  {
    ColumnRow(k, columns);
    DivModUnique(k, columns, Row(k, columns), Column(k, columns));
  }

  /** `ceil(n / columns)`: the rows of a subgrid of `n` cells, one more than the row of the last cell. */
  function Rows(n: nat, columns: nat): nat
    requires columns > 0
  {
    if n == 0 then 0 else Row(n - 1, columns) + 1
  }

  /** `Rows` is the ceiling of `n / columns`: the least row count whose cells hold all `n` kanji. */
  lemma RowsIsCeiling(n: nat, columns: nat)
    requires columns > 0
    ensures n <= Rows(n, columns) * columns
    ensures Rows(n, columns) == 0 || (Rows(n, columns) - 1) * columns < n
  {
    if n > 0 {
      ColumnRow(n - 1, columns);
      var r := Row(n - 1, columns);
      assert (r + 1) * columns == r * columns + columns;
    }
  }

  function HeaderHeight(st: Settings): nat
  {
    st.paddingAboveHeader + st.headerFontSize + st.paddingUnderHeader
  }

  /** `_generate_header`: top padding, then the title line, then bottom padding. */
  function Header(st: Settings, title: string): (r: Image)
    ensures r.width == st.GridWidth() && r.height == HeaderHeight(st)
  {
    var width := st.GridWidth();
    var head := Solid(width, st.headerFontSize, st.backgroundColor);
    var padBottom := Solid(width, st.paddingUnderHeader, st.backgroundColor);
    var padTop := Solid(width, st.paddingAboveHeader, st.backgroundColor);
    var titled := DrawText(VertCat(head, padBottom), 0, 0, Chars(title), st.headerFontColor);
    VertCat(padTop, titled)
  }

  /** `_generate_kanji_picto`: one square cell with the kanji on `background`. */
  function Picto(st: Settings, kanji: char, background: Color): Image
  {
    DrawText(Solid(st.kanjiFontSize, st.kanjiFontSize, background), 0, 0, Chars([kanji]), st.kanjiFontColor)
  }

  /** The colour of the cell of `kanji`, from its current count. */
  function CellColor(st: Settings, counter: Counter, kanji: char): Color
    requires st.colors != map[]
  {
    TierColor(st.colors, st.kanjiBackgroundColor, Count(counter, kanji))
  }

  /** The background colour of each kanji's cell, chosen by its count. */
  function Shades(st: Settings, counter: Counter, kanji: seq<char>): (r: seq<Color>)
    requires st.colors != map[]
    ensures |r| == |kanji|
  {
    seq(|kanji|, k requires 0 <= k < |kanji| => CellColor(st, counter, kanji[k]))
  }

  /** The paste of the cell of the kanji at index `k`: column `k mod C`, row `k div C`, `S` pixels each. */
  function Cell(st: Settings, kanji: seq<char>, shades: seq<Color>, k: nat): Item
    requires st.columns > 0 && k < |kanji| == |shades|
  {
    Paste(Column(k, st.columns) * st.kanjiFontSize, Row(k, st.columns) * st.kanjiFontSize,
          Picto(st, kanji[k], shades[k]))
  }

  /** The pastes of the cells of the first `n` kanji, in index order. */
  function Cells(st: Settings, kanji: seq<char>, shades: seq<Color>, n: nat): (r: seq<Item>)
    requires st.columns > 0 && n <= |kanji| == |shades|
    ensures |r| == n
  {
    if n == 0 then [] else Cells(st, kanji, shades, n - 1) + [Cell(st, kanji, shades, n - 1)]
  }

  /** The `k`-th paste is the cell of the `k`-th kanji. */
  lemma {:induction false} CellsIndex(st: Settings, kanji: seq<char>, shades: seq<Color>, n: nat, k: nat)
    requires st.columns > 0 && k < n <= |kanji| == |shades|
    ensures Cells(st, kanji, shades, n)[k] == Cell(st, kanji, shades, k)
  {
    if k < n - 1 {
      CellsIndex(st, kanji, shades, n - 1, k);
    }
  }

  /** The image of a subgrid that succeeds. */
  function SubgridImage(st: Settings, counter: Counter, grade: set<char>): Image
    requires st.columns > 0 && st.colors != map[]
  {
    var kanji := SortedChars(grade);
    MulMono(0, Rows(|kanji|, st.columns), st.kanjiFontSize);
    var height: nat := st.kanjiFontSize * Rows(|kanji|, st.columns);
    var canvas := Solid(st.GridWidth(), height, st.backgroundColor);
    canvas.(items := canvas.items + Cells(st, kanji, Shades(st, counter, kanji), |kanji|))
  }

  /**
   * `_generate_subgrid`: the kanji sorted by code point, one cell each, on a
   * background `C * S` wide and `ceil(n / C) * S` tall. A zero column count
   * divides by zero and an empty threshold table has no maximum.
   */
  function Subgrid(st: Settings, counter: Counter, grade: set<char>): Result<Image>
  {
    if st.columns == 0 then Err(DivisionByZero)
    else if st.colors == map[] then Err(EmptyColorTable)
    else Ok(SubgridImage(st, counter, grade))
  }

  /** A subgrid fails exactly when there are no columns or no thresholds. */
  lemma SubgridErrors(st: Settings, counter: Counter, grade: set<char>)
    ensures st.columns == 0 ==> Subgrid(st, counter, grade) == Err(DivisionByZero)
    ensures st.columns > 0 && st.colors == map[] ==> Subgrid(st, counter, grade) == Err(EmptyColorTable)
    ensures st.columns > 0 && st.colors != map[] ==> Subgrid(st, counter, grade).Ok?
  {
  }

  /**
   * A subgrid that succeeds is `C * S` by `ceil(n / C) * S` and holds the
   * background fill and one cell per kanji.
   */
  lemma SubgridLayout(st: Settings, counter: Counter, grade: set<char>)
    requires st.columns > 0 && st.colors != map[]
    ensures Subgrid(st, counter, grade) == Ok(SubgridImage(st, counter, grade))
    ensures var img := SubgridImage(st, counter, grade);
      && img.width == st.kanjiFontSize * st.columns
      && img.height == st.kanjiFontSize * Rows(|grade|, st.columns)
      && |img.items| == |grade| + 1
      && img.items[0] == Fill(0, 0, img.width, img.height, st.backgroundColor)
  {
  }

  /** After the background, item `k + 1` is the cell of the `k`-th kanji in code-point order. */
  lemma SubgridCells(st: Settings, counter: Counter, grade: set<char>, k: nat)
    requires st.columns > 0 && st.colors != map[] && k < |grade|
    ensures var img := SubgridImage(st, counter, grade);
      var kanji := SortedChars(grade);
      && |img.items| == |grade| + 1
      && img.items[k + 1] == Paste(Column(k, st.columns) * st.kanjiFontSize, Row(k, st.columns) * st.kanjiFontSize,
                                   Picto(st, kanji[k], CellColor(st, counter, kanji[k])))
  {
    var kanji := SortedChars(grade);
    CellsIndex(st, kanji, Shades(st, counter, kanji), |kanji|, k);
  }

  /** The paste offset `(k*S mod C*S, (k*S div C*S) * S)` is the cell's column and row, scaled by `S`. */
  lemma CellOrigin(k: nat, columns: nat, size: FontSize)
    requires columns > 0
    ensures (k * size) % (columns * size) == Column(k, columns) * size
    ensures ((k * size) / (columns * size)) * size == Row(k, columns) * size
  {
    var q, r := Row(k, columns), Column(k, columns);
    ColumnRow(k, columns);
    assert k * size == q * (columns * size) + r * size;
    MulMono(r, columns - 1, size);
    MulMono(0, r, size);
    DivModUnique(k * size, columns * size, q, r * size);
  }

  /**
   * The loop's paste of the `k`-th kanji, at the source's offsets with the
   * colour of its tier, adds the next cell to the canvas.
   */
  lemma PasteIsNextCell(st: Settings, counter: Counter, kanji: seq<char>, canvas: Image, k: nat)
    requires st.columns > 0 && st.colors != map[] && k < |kanji|
    ensures var size, width := st.kanjiFontSize, st.GridWidth();
      var color := TierColor(st.colors, st.kanjiBackgroundColor, Count(counter, kanji[k]));
      var shades := Shades(st, counter, kanji);
      PasteAt(canvas.(items := canvas.items + Cells(st, kanji, shades, k)),
              (k * size) % width, ((k * size) / width) * size, Picto(st, kanji[k], color))
        == canvas.(items := canvas.items + Cells(st, kanji, shades, k + 1))
  {
    CellOrigin(k, st.columns, st.kanjiFontSize);
    assert st.GridWidth() == st.columns * st.kanjiFontSize;
    var shades := Shades(st, counter, kanji);
    assert canvas.items + Cells(st, kanji, shades, k + 1)
      == (canvas.items + Cells(st, kanji, shades, k)) + [Cell(st, kanji, shades, k)];
  }

  /** Every cell of a subgrid of `n` kanji lies inside its background. */
  lemma CellInside(n: nat, columns: nat, size: FontSize, k: nat)
    requires columns > 0 && k < n
    ensures 0 <= Column(k, columns) * size && Column(k, columns) * size + size <= columns * size
    ensures 0 <= Row(k, columns) * size && Row(k, columns) * size + size <= Rows(n, columns) * size
  {
    var col, row, rows := Column(k, columns), Row(k, columns), Rows(n, columns);
    RowsIsCeiling(n, columns);
    ColumnRow(k, columns);
    QuotientBelow(row, col, columns, k, n, rows);
    SlotInside(col, columns, size);
    SlotInside(row, rows, size);
  }

  /** Distinct indices get distinct cells. */
  lemma CellsDistinct(columns: nat, size: FontSize, k1: nat, k2: nat)
    requires columns > 0 && k1 != k2
    ensures Column(k1, columns) * size != Column(k2, columns) * size || Row(k1, columns) * size != Row(k2, columns) * size
  {
    ColumnRow(k1, columns);
    ColumnRow(k2, columns);
    var c1, c2, r1, r2 := Column(k1, columns), Column(k2, columns), Row(k1, columns), Row(k2, columns);
    if c1 * size == c2 * size && r1 * size == r2 * size {
      MulCancel(c1, c2, size);
      MulCancel(r1, r2, size);
      assert false;
    }
  }
}
