/**
 * One product card: the fixed 6 cm by 6 cm template of productos.py, the description
 * block inside it, and the unit table that CATALOGOS.py draws along the card's bottom.
 */
module Card {
  import opened Units
  import opened Words
  import opened TextFit
  import opened Outcomes

  const CardSize: real := 6.0 * Cm

  /**
   * One spreadsheet row as the card sees it. A unit cell is `None` when pandas reports it
   * missing (`pd.notna` is false) and `Some(str(v))` otherwise. `image` is the raw image
   * cell; the path the card would load is `ImagePath(image)`.
   */
  datatype ProductRecord = ProductRecord(
    code: string, description: string, image: string,
    und: Option<string>, bulto: Option<string>, venta: Option<string>)

  /** `os.path.join("imagenes", name)` for the stripped image cell, or "" for a blank one (POSIX paths). */
  function ImagePath(cell: string): (p: string)
    ensures p == "" <==> Blank(cell)
    ensures p != "" ==> Strip(cell) != "" && |Strip(cell)| <= |p| && p[|p| - |Strip(cell)|..] == Strip(cell)
    ensures p != "" && Strip(cell)[0] != '/' ==> p == "imagenes/" + Strip(cell)
    ensures p != "" && Strip(cell)[0] == '/' ==> p == Strip(cell)
  {
    var name := Strip(cell);
    if name == "" then ""
    else if name[0] == '/' then name
    else "imagenes/" + name
  }

  // ---------------------------------------------------------------------------
  // The productos.py template
  // ---------------------------------------------------------------------------

  datatype Triangle = Triangle(a: Point, b: Point, c: Point)

  datatype CardTemplate = CardTemplate(
    frame: Rect,
    codeStrip: Rect,
    codeAnchor: Point,
    imageBox: Rect,
    placeholderAnchor: Point,
    descriptionAnchor: Point,
    descriptionWidth: real,
    descriptionLines: nat,
    triangle: Triangle)

  /** The decorative triangle `draw_triangle(x, y, size)`: corner `(x, y)`, one leg left, one leg up. */
  function DecorativeTriangle(x: real, y: real, size: real): Triangle {
    Triangle(Point(x, y), Point(x - size, y), Point(x, y + size))
  }

  /** The template of `draw_product_card` in productos.py, anchored at the card's lower-left corner `(x, y)`. */
  function ProductCard(x: real, y: real): (g: CardTemplate)
    ensures g.frame == Rect(x, y, CardSize, CardSize)
    // the code strip sits in the card's top-left corner
    ensures g.codeStrip.Within(g.frame)
    ensures g.codeStrip.x == g.frame.x && g.codeStrip.Top() == g.frame.Top()
    // the code is centred across the strip, its baseline inside it
    ensures g.codeAnchor.x == g.codeStrip.x + g.codeStrip.w / 2.0
    ensures g.codeStrip.y < g.codeAnchor.y < g.codeStrip.Top()
    // the image box is inside the card and clear of the strip; the placeholder is centred in it
    ensures g.imageBox.Within(g.frame) && !g.imageBox.Overlaps(g.codeStrip)
    ensures g.imageBox.Contains(g.placeholderAnchor)
    ensures g.placeholderAnchor.x == g.imageBox.x + g.imageBox.w / 2.0
    // the description is centred on the card, starts below the image, 0.6 cm margins, three lines
    ensures g.descriptionAnchor == Point(x + CardSize / 2.0, y + 1.4 * Cm)
    ensures y < g.descriptionAnchor.y < g.imageBox.y
    ensures g.descriptionWidth == CardSize - 2.0 * (0.6 * Cm) && g.descriptionLines == 3
    // the triangle's right angle is the card's bottom-right corner and all of it lies in the card
    ensures g.triangle.a == Point(g.frame.Right(), g.frame.y)
    ensures g.triangle.b.y == g.triangle.a.y && g.triangle.c.x == g.triangle.a.x
    ensures g.triangle.b.x < g.triangle.a.x && g.triangle.a.y < g.triangle.c.y
    ensures g.frame.Contains(g.triangle.a) && g.frame.Contains(g.triangle.b) && g.frame.Contains(g.triangle.c)
  {
    var codeHeight := 0.8 * Cm;
    CardTemplate(
      frame := Rect(x, y, CardSize, CardSize),
      codeStrip := Rect(x, y + CardSize - codeHeight, 3.8 * Cm, codeHeight),
      codeAnchor := Point(x + 1.9 * Cm, y + CardSize - 0.5 * Cm),
      imageBox := Rect(x + 0.5 * Cm, y + 1.7 * Cm, 5.0 * Cm, 2.6 * Cm),
      placeholderAnchor := Point(x + CardSize / 2.0, y + 2.8 * Cm),
      descriptionAnchor := Point(x + CardSize / 2.0, y + 1.4 * Cm),
      descriptionWidth := CardSize - 1.2 * Cm,
      descriptionLines := 3,
      triangle := DecorativeTriangle(x + CardSize, y, 1.4 * Cm))
  }

  /** The description font size of the card, in points. */
  const DescriptionFontSize: real := 9.0

  /**
   * The description of the productos.py card: at most three wrapped lines, each centred on
   * the card with its baseline inside the card; a line of two or more words keeps 0.6 cm
   * clear of both sides.
   */
  method DrawDescription(x: real, y: real, text: string, width: string -> real) returns (runs: seq<TextRun>)
    ensures var g := ProductCard(x, y);
      |runs| == |Lines(text, g.descriptionWidth, width, 3)| <= 3
    ensures forall i :: 0 <= i < |runs| ==>
      runs[i].text == Lines(text, ProductCard(x, y).descriptionWidth, width, 3)[i]
    ensures forall i :: 0 <= i < |runs| ==> runs[i].x == x + CardSize / 2.0 && y < runs[i].y <= y + 1.4 * Cm
    ensures forall i :: 0 <= i < |runs| ==> runs[i].y == y + 1.4 * Cm - i as real * LineSpacing(DescriptionFontSize)
    ensures forall i :: 0 <= i < |runs| && |Split(runs[i].text)| >= 2 ==>
      x + 0.6 * Cm <= runs[i].x - width(runs[i].text) / 2.0
      && runs[i].x + width(runs[i].text) / 2.0 <= x + CardSize - 0.6 * Cm
  {
    var g := ProductCard(x, y);
    runs := DrawWrapped(g.descriptionAnchor.x, g.descriptionAnchor.y, text, g.descriptionWidth, width,
                        DescriptionFontSize, g.descriptionLines);
    LinesFacts(text, g.descriptionWidth, width, 3);
    forall i | 0 <= i < |runs|
      ensures y < runs[i].y
    {
      assert i <= 2;
      assert runs[i].y == y + 1.4 * Cm - i as real * LineSpacing(DescriptionFontSize);
    }
  }

  // ---------------------------------------------------------------------------
  // The unit table of CATALOGOS.py
  // ---------------------------------------------------------------------------

  /** The three unit columns, in the order the table always shows them. */
  datatype Unit = Und | Bulto | Venta

  function Header(u: Unit): string {
    match u
    case Und => "UND:"
    case Bulto => "BULTO:"
    case Venta => "UND.VENTA:"
  }

  function Rank(u: Unit): nat {
    match u
    case Und => 0
    case Bulto => 1
    case Venta => 2
  }

  /** The cell of `p` a column shows. */
  function CellOf(u: Unit, p: ProductRecord): Option<string> {
    match u
    case Und => p.und
    case Bulto => p.bulto
    case Venta => p.venta
  }

  /**
   * A unit cell gets a column when pandas has a value for it and that value is not blank
   * (`str(v).strip()` is non-empty; see ShownIffStripNonEmpty).
   */
  predicate Shown(cell: Option<string>) {
    cell.Some? && !Blank(cell.value)
  }

  lemma ShownIffStripNonEmpty(cell: Option<string>)
    ensures Shown(cell) <==> cell.Some? && Strip(cell.value) != ""
  {
  }

  /** The columns drawn and, for each, the value drawn under its header. */
  datatype UnitTable = UnitTable(units: seq<Unit>, values: seq<string>)

  /** `t` holds, in column order, the shown columns of `p` that come before rank `k`, with their values. */
  ghost predicate TableUpTo(t: UnitTable, p: ProductRecord, k: nat) {
    && |t.units| == |t.values| <= k
    && (forall u :: u in t.units <==> Rank(u) < k && Shown(CellOf(u, p)))
    && (forall i, j :: 0 <= i < j < |t.units| ==> Rank(t.units[i]) < Rank(t.units[j]))
    && (forall i :: 0 <= i < |t.values| ==> CellOf(t.units[i], p) == Some(t.values[i]))
  }

  /** One of the three `if ...: headers.append(...); values.append(...)` steps. */
  function AddColumn(t: UnitTable, u: Unit, p: ProductRecord): (t': UnitTable)
    requires TableUpTo(t, p, Rank(u))
    ensures TableUpTo(t', p, Rank(u) + 1)
  {
    var cell := CellOf(u, p);
    if Shown(cell) then UnitTable(t.units + [u], t.values + [cell.value]) else t
  }

  /** The `headers` and `values` lists `draw_product_card` builds from a product's unit cells. */
  function BuildUnitTable(p: ProductRecord): (t: UnitTable)
    ensures |t.units| == |t.values| <= 3
    ensures forall u :: u in t.units <==> Shown(CellOf(u, p))
    ensures forall i, j :: 0 <= i < j < |t.units| ==> Rank(t.units[i]) < Rank(t.units[j])
    ensures forall i :: 0 <= i < |t.values| ==> CellOf(t.units[i], p) == Some(t.values[i])
  {
    var t := AddColumn(AddColumn(AddColumn(UnitTable([], []), Und, p), Bulto, p), Venta, p);
    assert TableUpTo(t, p, 3);
    t
  }

  /** The centre of column `i` of `n` equal columns across the card. */
  function ColumnCentre(x: real, n: nat, i: nat): real
    requires n > 0
  {
    x + (CardSize / n as real) * (i as real + 0.5)
  }

  /** Every column centre lies strictly inside the card, and the centres run left to right. */
  lemma ColumnCentres(x: real, n: nat, i: nat, j: nat)
    requires 0 < n <= 3 && i < j < n
    ensures x < ColumnCentre(x, n, i) < ColumnCentre(x, n, j) < x + CardSize
  {
    assert n == 2 || n == 3;
    if n == 2 {
      assert ColumnCentre(x, n, i) == x + CardSize / 4.0;
      assert ColumnCentre(x, n, j) == x + 3.0 * CardSize / 4.0;
    } else {
      assert CardSize / n as real == CardSize / 3.0;
      assert ColumnCentre(x, n, i) == x + (CardSize / 3.0) * (i as real + 0.5);
      assert ColumnCentre(x, n, j) == x + (CardSize / 3.0) * (j as real + 0.5);
    }
  }

  lemma ColumnCentreInside(x: real, n: nat, i: nat)
    requires 0 < n <= 3 && i < n
    ensures x < ColumnCentre(x, n, i) < x + CardSize
  {
    if n == 1 {
      assert ColumnCentre(x, n, i) == x + CardSize / 2.0;
    } else if i + 1 < n {
      ColumnCentres(x, n, i, i + 1);
    } else {
      ColumnCentres(x, n, i - 1, i);
    }
  }

  /** One `for i, s in enumerate(texts): drawCentredString(x + col_width * (i + 0.5), baseline, s)` loop. */
  method DrawRow(x: real, n: nat, baseline: real, texts: seq<string>) returns (runs: seq<TextRun>)
    requires n > 0
    ensures |runs| == |texts|
    ensures forall i :: 0 <= i < |texts| ==> runs[i] == TextRun(ColumnCentre(x, n, i), baseline, texts[i])
  {
    runs := [];
    for i := 0 to |texts|
      invariant |runs| == i
      invariant forall k :: 0 <= k < i ==> runs[k] == TextRun(ColumnCentre(x, n, k), baseline, texts[k])
    {
      runs := runs + [TextRun(ColumnCentre(x, n, i), baseline, texts[i])];
    }
  }

  /**
   * The table drawing of `draw_product_card` for the card at `(x, y)`: nothing when no cell
   * is shown; otherwise each header centred over its column 0.5 cm above the card's bottom,
   * then each value, verbatim, centred in the same column 0.4 cm lower.
   */
  method DrawUnitTable(x: real, y: real, p: ProductRecord) returns (runs: seq<TextRun>)
    ensures var t := BuildUnitTable(p);
      |runs| == 2 * |t.units|
      && (forall i :: 0 <= i < |t.units| ==>
            runs[i] == TextRun(ColumnCentre(x, |t.units|, i), y + 0.5 * Cm, Header(t.units[i]))
            && runs[|t.units| + i] == TextRun(ColumnCentre(x, |t.units|, i), y + 0.5 * Cm - 0.4 * Cm, t.values[i]))
    ensures forall i :: 0 <= i < |runs| ==> x < runs[i].x < x + CardSize
  {
    var t := BuildUnitTable(p);
    var headers := seq(|t.units|, k requires 0 <= k < |t.units| => Header(t.units[k]));
    runs := [];
    if |headers| > 0 {
      var n := |headers|;
      var tableTop := y + 0.5 * Cm;
      var top := DrawRow(x, n, tableTop, headers);
      var bottom := DrawRow(x, n, tableTop - 0.4 * Cm, t.values);
      runs := top + bottom;
      forall i | 0 <= i < |runs|
        ensures x < runs[i].x < x + CardSize
      {
        ColumnCentreInside(x, n, if i < n then i else i - n);
      }
    }
  }
}
