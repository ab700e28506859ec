/**
 * The Swiss full-block band of the top-level `renderer.py`: the widths of the
 * label, bar and value fields, and the band of full blocks that holds a
 * centred title row and one data row per label.
 */
module SwissRenderer {
  import opened Wrappers
  import opened Strings
  import Procgen
  import Renderer

  /** The full-block glyph of the bands, the walls and the bars. */
  const Block: char := '█'

  // ---------------------------------------------------------------- bar length

  /** `value / vmax * width`: the share of the bar before rounding. */
  function Share(value: real, vmax: real, width: int): real
    requires vmax > 0.0
  {
    Renderer.Scaled(value, vmax, width as real)
  }

  /**
   * `_scale_bar_len`: no bar when the maximum is not positive, and otherwise the
   * share of `width`, rounded with ties to even and not clamped.
   */
  function ScaleBarLen(value: real, vmax: real, width: int): (n: int)
    ensures vmax <= 0.0 ==> n == 0
    ensures vmax > 0.0 ==> Share(value, vmax, width) - 0.5 <= n as real <= Share(value, vmax, width) + 0.5
  {
    if vmax <= 0.0 then 0 else Procgen.RoundHalfEven(Share(value, vmax, width))
  }

  /**
   * A value between zero and a positive maximum fills between none and all of
   * the bar; the maximum fills all of it and zero none.
   */
  lemma ScaleBarLenBounds(value: real, vmax: real, width: int)
    requires 0.0 <= value && width >= 0
    requires vmax > 0.0 ==> value <= vmax
    ensures 0 <= ScaleBarLen(value, vmax, width) <= width
    ensures vmax > 0.0 && value == vmax ==> ScaleBarLen(value, vmax, width) == width
    ensures value == 0.0 ==> ScaleBarLen(value, vmax, width) == 0
  {
    if vmax > 0.0 {
      Renderer.ShareBounds(value, vmax, width as real);
      Procgen.RoundHalfEvenBetween(Share(value, vmax, width), 0, width);
    }
  }

  /** A larger value never gets a shorter bar. */
  lemma ScaleBarLenMonotone(v1: real, v2: real, vmax: real, width: int)
    requires v1 <= v2 && width >= 0
    ensures ScaleBarLen(v1, vmax, width) <= ScaleBarLen(v2, vmax, width)
  {
    if vmax > 0.0 {
      assert Share(v1, vmax, width) <= Share(v2, vmax, width) by {
        assert v1 / vmax <= v2 / vmax;
      }
      Procgen.RoundHalfEvenMonotone(Share(v1, vmax, width), Share(v2, vmax, width));
    }
  }

  /** Without a clamp, a value above the maximum overfills the bar. */
  lemma ScaleBarLenUnclamped()
    ensures ScaleBarLen(2.0, 1.0, 3) == 6
  {
    Procgen.RoundHalfEvenOfInt(6);
    assert Share(2.0, 1.0, 3) == 6 as real;
  }

  // ---------------------------------------------------------------- field widths

  /** The widths `_prepare_swiss_fields` returns: label, bar, value and total. */
  datatype Fields = Fields(labelField: int, barField: int, valueField: int, total: int)

  /** The label field before any shrinking: the widest `[label]`, or 7 without labels. */
  function LabelFieldOf(labels: seq<string>): (l: int)
    ensures |labels| == 0 ==> l == 7
    ensures forall i :: 0 <= i < |labels| ==> |"[" + labels[i] + "]"| <= l
    ensures |labels| > 0 ==> exists i :: 0 <= i < |labels| && |"[" + labels[i] + "]"| == l
  {
    if |labels| == 0 then 7 else Renderer.MaxLen(labels) + 2
  }

  /** `str(int(v))` for each value: the integer parts, truncated toward zero. */
  function TruncTexts(values: seq<real>): (r: seq<string>)
    ensures |r| == |values|
  {
    seq(|values|, i requires 0 <= i < |values| => IntToString(Renderer.Trunc(values[i])))
  }

  /** The value field: two cells, or the widest integer part when that is wider. */
  function ValueFieldOf(values: seq<real>): (v: int)
    ensures v >= 2
    ensures forall i :: 0 <= i < |values| ==> |IntToString(Renderer.Trunc(values[i]))| <= v
    ensures v == 2 || exists i :: 0 <= i < |values| && |IntToString(Renderer.Trunc(values[i]))| == v
  {
    var texts := TruncTexts(values);
    var m := Renderer.MaxLen(texts);
    assert forall i :: 0 <= i < |values| ==> texts[i] == IntToString(Renderer.Trunc(values[i]));
    if m > 2 then m else 2
  }

  /** What the bar field would be with the unshrunk label field: `W - (L + V + 6)`. */
  function RawBar(labels: seq<string>, values: seq<real>, w: int): int {
    w - (LabelFieldOf(labels) + ValueFieldOf(values) + 6)
  }

  /**
   * The fields in closed form. When the template fits with the widest label,
   * the bar takes the rest of the width (at least one cell); otherwise the
   * label gives up the deficit, but keeps at least three cells, and the bar
   * gets a single cell.
   */
  function SwissFields(labels: seq<string>, values: seq<real>, w: int): (f: Fields)
    ensures f.total == w && f.valueField == ValueFieldOf(values)
    ensures f.barField >= 1 && f.labelField >= 2
  {
    var l0 := LabelFieldOf(labels);
    var b0 := RawBar(labels, values, w);
    if b0 >= 1 then Fields(l0, b0, ValueFieldOf(values), w)
    else if b0 == 0 then Fields(l0, 1, ValueFieldOf(values), w)
    else Fields(Renderer.Max(3, l0 + b0), 1, ValueFieldOf(values), w)
  }

  /**
   * `_prepare_swiss_fields`: the widest bracketed label and the widest integer
   * part, the bar field as what remains of the width, the label shrunk when the
   * bar field is negative, and the bar field raised to one cell. Both branches
   * on `bar_width` compute the same bar field, so the parameter has no effect.
   */
  method PrepareSwissFields(labels: seq<string>, values: seq<real>, totalWidth: int, barWidth: Option<int>)
    returns (f: Fields)
    ensures f == SwissFields(labels, values, totalWidth)
  {
    var labelField := LabelFieldOf(labels);
    var valueField := ValueFieldOf(values);
    var barField: int;
    if barWidth.None? {
      barField := totalWidth - (labelField + valueField + 6);
    } else {
      barField := totalWidth - (labelField + valueField + 6);
    }
    if barField < 0 {
      var shrink := Renderer.Min(labelField - 3, -barField);
      labelField := labelField - shrink;
      barField := totalWidth - (labelField + valueField + 6);
    }
    if barField < 1 {
      barField := 1;
    }
    f := Fields(labelField, barField, valueField, totalWidth);
  }

  /**
   * The row template `L + B + V + 6` never falls short of the width, and fills
   * it exactly when the widest label leaves at least one bar cell. Then the
   * label field is the widest `[label]`; a raw bar field of zero is raised to
   * one cell and overshoots by one; a negative one shrinks the label to absorb
   * the deficit but no further than three cells, and the bar is then one cell,
   * so the template overshoots by one, or more when three cells were not enough.
   */
  lemma SwissFieldsFit(labels: seq<string>, values: seq<real>, w: int)
    ensures var f := SwissFields(labels, values, w);
      var l0 := LabelFieldOf(labels);
      var b0 := RawBar(labels, values, w);
      var span := f.labelField + f.barField + f.valueField + 6;
      && (span == w <==> b0 >= 1)
      && span >= w
      && (b0 >= 0 ==> f.labelField == l0)
      && (b0 >= 1 ==> f.barField == b0)
      && (b0 <= 0 ==> f.barField == 1)
      && (b0 == 0 ==> span == w + 1)
      && (b0 < 0 ==> f.labelField == l0 + b0 || f.labelField == 3)
      && (b0 < 0 && l0 + b0 >= 3 ==> span == w + 1)
      && (b0 < 0 && l0 + b0 < 3 ==> span == f.valueField + 10 && span > w + 1)
  {
  }

  // ---------------------------------------------------------------- title row

  /** The text between the title row's walls: the title with a space either side, cut to `W - 4`. */
  function TitleInner(title: string, w: int): string {
    if |" " + title + " "| > w - 2 then " " + Take(title, Renderer.Max(0, w - 4)) + " " else " " + title + " "
  }

  /** The title row: the inner text centred between runs of full blocks. */
  function TitleRow(title: string, w: int): string {
    Centred(TitleInner(title, w), w)
  }

  /**
   * The title row is `w` wide for any width of two or more, and has a wall at
   * each end from a width of four. A title that fits in `w - 4` cells appears
   * whole, with a space either side, centred (the extra cell going right)
   * between runs of full blocks; a longer one is cut to `w - 4` characters
   * between a single wall on each side.
   */
  lemma TitleRowShape(title: string, w: int)
    ensures var row := TitleRow(title, w);
      && (w >= 2 ==> |row| == w)
      && (w >= 4 ==> row[0] == Block && row[w - 1] == Block)
      && (|title| <= w - 4 ==>
            var p := (w - |title| - 2) / 2;
            && row[..p] == Repeat(Block, p)
            && row[p..p + |title| + 2] == " " + title + " "
            && row[p + |title| + 2..] == Repeat(Block, w - |title| - 2 - p))
      && (w >= 4 && |title| > w - 4 ==> row == "█ " + title[..w - 4] + " █")
  {
    if |title| <= w - 4 {
      TitleRowFits(title, w);
    } else if w >= 4 {
      TitleRowCut(title, w);
    } else if w >= 2 {
      var inner := TitleInner(title, w);
      assert |inner| == 2;
      CentredShape(inner, w);
    }
  }

  /** A title that fits in `w - 4` cells is centred whole, with a space either side. */
  lemma TitleRowFits(title: string, w: int)
    requires |title| <= w - 4
    ensures var row := TitleRow(title, w);
      var p := (w - |title| - 2) / 2;
      && |row| == w && row[0] == Block && row[w - 1] == Block
      && row[..p] == Repeat(Block, p)
      && row[p..p + |title| + 2] == " " + title + " "
      && row[p + |title| + 2..] == Repeat(Block, w - |title| - 2 - p)
  {
    var inner := TitleInner(title, w);
    assert inner == " " + title + " ";
    CentredShape(inner, w);
  }

  /** A longer title is cut to `w - 4` characters between a single wall on each side. */
  lemma TitleRowCut(title: string, w: int)
    requires w >= 4 && |title| > w - 4
    ensures var row := TitleRow(title, w);
      && row == "█ " + title[..w - 4] + " █"
      && |row| == w && row[0] == Block && row[w - 1] == Block
  {
    var inner := TitleInner(title, w);
    assert inner == " " + title[..w - 4] + " ";
    assert Centred(inner, w) == "█" + inner + "█" by {
      assert (w - |inner|) / 2 == 1;
      assert Repeat(Block, 1) == "█";
    }
  }

  /** `inner` between runs of full blocks that fill `w` cells, the extra cell going right. */
  function Centred(inner: string, w: int): string {
    var padLeft := (w - |inner|) / 2;
    Repeat(Block, padLeft) + inner + Repeat(Block, w - |inner| - padLeft)
  }

  /**
   * Centring a text no wider than `w` gives `w` cells: `p` blocks, the text,
   * and the remaining blocks; with two cells to spare there is a block at each end.
   */
  lemma CentredShape(inner: string, w: int)
    requires |inner| <= w
    ensures var p := (w - |inner|) / 2;
      var row := Centred(inner, w);
      && |row| == w
      && row[..p] == Repeat(Block, p)
      && row[p..p + |inner|] == inner
      && row[p + |inner|..] == Repeat(Block, w - |inner| - p)
      && (|inner| <= w - 2 ==> row[0] == Block && row[w - 1] == Block)
  {
    var p := (w - |inner|) / 2;
    Parts3(Repeat(Block, p), inner, Repeat(Block, w - |inner| - p));
  }

  // ---------------------------------------------------------------- data rows

  /** The label column of the data rows: `[label]`, padded or cut to the label field. */
  function LabelCells(labels: seq<string>, l: nat): (r: seq<string>)
    ensures |r| == |labels|
    ensures forall k :: 0 <= k < |r| ==> |r[k]| == l
  {
    seq(|labels|, i requires 0 <= i < |labels| => LJustCut("[" + labels[i] + "]", l))
  }

  /** `str(int(round(val)))`: the value rounded with ties to even. */
  function ValueText(val: real): string {
    IntToString(Procgen.RoundHalfEven(val))
  }

  /** The cells of a data row before the value: left wall, space, label, space, bar, space. */
  function RowHead(cell: string, barSeg: string): (r: string)
    ensures |r| == |cell| + |barSeg| + 4
  {
    "█" + " " + cell + " " + barSeg + " "
  }

  /** A data row as the template builds it, before it is cut or padded to the width. */
  function RowText(cell: string, barSeg: string, valueText: string, valueField: int): string {
    "█" + " " + cell + " " + barSeg + " " + RJust(valueText, valueField) + " " + "█"
  }

  /** One data row: the template over the label cell, the bar and the value, fitted to `W`. */
  function SwissRow(cell: string, val: real, vmax: real, f: Fields): string {
    Renderer.FitWidth(RowText(cell, Renderer.BandBar(ScaleBarLen(val, vmax, f.barField), f.barField), ValueText(val), f.valueField), f.total)
  }

  /** The data rows, one per label cell and value. */
  function SwissRows(cells: seq<string>, values: seq<real>, vmax: real, f: Fields): (r: seq<string>)
    requires |cells| == |values|
    ensures |r| == |cells|
  {
    seq(|cells|, i requires 0 <= i < |cells| => SwissRow(cells[i], values[i], vmax, f))
  }

  /** The band from its title row and data rows: top band, title row, middle band, the rows, bottom band. */
  function SwissAssemble(titleRow: string, rows: seq<string>, w: int): (r: seq<string>)
    ensures |r| == |rows| + 4
  {
    [Repeat(Block, w)] + [titleRow] + [Repeat(Block, w)] + rows + [Repeat(Block, w)]
  }

  /** The lines of the band for non-empty lists of equal length. */
  function SwissLines(title: string, labels: seq<string>, values: seq<real>, w: int): (r: seq<string>)
    requires |labels| == |values| > 0
    ensures |r| == |labels| + 4
  {
    var f := SwissFields(labels, values, w);
    SwissAssemble(TitleRow(title, w), SwissRows(LabelCells(labels, f.labelField), values, Procgen.MaxOf(values), f), w)
  }

  // ---------------------------------------------------------------- row properties

  /** A data row is its head, the right-aligned value and the right wall. */
  lemma RowTextSplit(cell: string, barSeg: string, valueText: string, valueField: int)
    ensures RowText(cell, barSeg, valueText, valueField)
      == RowHead(cell, barSeg) + RJust(valueText, valueField) + " █"
  {
  }

  /** `str` of an integer is a sign and digits, never a full block. */
  lemma IntTextHasNoBlock(i: int)
    ensures forall j :: 0 <= j < |IntToString(i)| ==> IntToString(i)[j] != Block
  {
    var s := IntToString(i);
    if i < 0 {
      forall j | 0 <= j < |s|
        ensures s[j] != Block
      {
        if j > 0 {
          assert s[j] == NatToString(-i)[j - 1];
        }
      }
    }
  }

  /** Fitting to a width that holds the head keeps the head's walls, label cell and bar. */
  lemma RowHeadKept(cell: string, barSeg: string, tail: string, w: int)
    requires |cell| + |barSeg| + 4 <= w
    ensures var row := Renderer.FitWidth(RowHead(cell, barSeg) + tail, w);
      && |row| == w
      && row[..2] == "█ "
      && row[2..|cell| + 2] == cell
      && row[|cell| + 2] == ' '
      && row[|cell| + 3..|cell| + 3 + |barSeg|] == barSeg
  {
    var head := RowHead(cell, barSeg);
    var text := head + tail;
    var row := Renderer.FitWidth(text, w);
    assert row[..|head|] == head by {
      var m := Renderer.Min(|text|, w);
      assert row[..m] == text[..m];
      assert row[..|head|] == row[..m][..|head|];
      assert text[..|head|] == head;
    }
    HeadParts(row, cell, barSeg);
  }

  /** A row that starts with the head of a data row has that head's walls, label cell and bar in place. */
  lemma HeadParts(row: string, cell: string, barSeg: string)
    requires |cell| + |barSeg| + 4 <= |row| && row[..|cell| + |barSeg| + 4] == RowHead(cell, barSeg)
    ensures row[..2] == "█ "
    ensures row[2..|cell| + 2] == cell
    ensures row[|cell| + 2] == ' '
    ensures row[|cell| + 3..|cell| + 3 + |barSeg|] == barSeg
  {
    var head := RowHead(cell, barSeg);
    var n := |head|;
    assert head == "█ " + cell + " " + barSeg + " ";
    assert forall k :: 0 <= k < n ==> row[k] == head[k];
    assert row[..2] == head[..2];
    assert row[2..|cell| + 2] == head[2..|cell| + 2];
    assert row[|cell| + 3..|cell| + 3 + |barSeg|] == head[|cell| + 3..|cell| + 3 + |barSeg|];
  }

  /**
   * A row whose width leaves `v` cells for the value after the head ends on the
   * right wall exactly when the value text fits those cells, and then ends with
   * the right-aligned value, a space and the wall.
   */
  lemma RowEnd(head: string, vt: string, v: nat)
    requires forall j :: 0 <= j < |vt| ==> vt[j] != Block
    ensures var w := |head| + v + 2;
      var row := Renderer.FitWidth(head + RJust(vt, v) + " █", w);
      && (row[w - 1] == Block <==> |vt| <= v)
      && (|vt| <= v ==> row[|head|..] == RJust(vt, v) + " █")
  {
    var w := |head| + v + 2;
    var rv := RJust(vt, v);
    var text := head + rv + " █";
    var row := Renderer.FitWidth(text, w);
    if |vt| <= v {
      assert row == text;
      assert text[|head|..] == rv + " █";
    } else {
      assert rv == vt;
      assert row[w - 1] == text[w - 1];
      if |vt| == v + 1 {
        assert text[w - 1] == ' ';
      } else {
        assert text[w - 1] == vt[v + 1];
      }
    }
  }

  /**
   * A row whose width leaves only `v - 1` cells after the head ends on the
   * space before the wall or on a character of the value, never on the wall.
   */
  lemma RowEndCut(head: string, vt: string, v: nat)
    requires forall j :: 0 <= j < |vt| ==> vt[j] != Block
    ensures var w := |head| + v + 1;
      Renderer.FitWidth(head + RJust(vt, v) + " █", w)[w - 1] != Block
  {
    var w := |head| + v + 1;
    var rv := RJust(vt, v);
    var text := head + rv + " █";
    var row := Renderer.FitWidth(text, w);
    assert row[w - 1] == text[w - 1];
    if |vt| <= v {
      assert text[w - 1] == ' ';
    } else {
      assert rv == vt;
      assert text[w - 1] == vt[v];
    }
  }

  /**
   * A template whose fields add up to the width: the row keeps the template's
   * text up to and including the bar, and ends on the right wall exactly when
   * the value text fits its field, in which case the value sits right-aligned
   * in the field just before the wall.
   */
  lemma RowExact(cell: string, barSeg: string, vt: string, v: nat, w: int)
    requires w == |cell| + |barSeg| + v + 6
    requires forall j :: 0 <= j < |vt| ==> vt[j] != Block
    ensures var row := Renderer.FitWidth(RowHead(cell, barSeg) + RJust(vt, v) + " █", w);
      && |row| == w
      && row[..2] == "█ "
      && row[2..|cell| + 2] == cell
      && row[|cell| + 2] == ' '
      && row[|cell| + 3..|cell| + 3 + |barSeg|] == barSeg
      && (row[w - 1] == Block <==> |vt| <= v)
      && (|vt| <= v ==> row[w - 2 - v..] == RJust(vt, v) + " █")
  {
    var head := RowHead(cell, barSeg);
    var tail := RJust(vt, v) + " █";
    var row := Renderer.FitWidth(head + RJust(vt, v) + " █", w);
    assert head + RJust(vt, v) + " █" == head + tail;
    assert row == Renderer.FitWidth(head + tail, w);
    assert |head| == |cell| + |barSeg| + 4;
    assert && |row| == w
      && row[..2] == "█ "
      && row[2..|cell| + 2] == cell
      && row[|cell| + 2] == ' '
      && row[|cell| + 3..|cell| + 3 + |barSeg|] == barSeg by {
      RowHeadKept(cell, barSeg, tail, w);
    }
    assert (row[w - 1] == Block <==> |vt| <= v)
      && (|vt| <= v ==> row[|head|..] == tail) by {
      RowEnd(head, vt, v);
    }
  }

  /**
   * A template one cell wider than the width, as the fields give after a
   * shrink that absorbs the deficit: the row is cut, and its last cell is the
   * space before the wall or a character of the value, never the wall.
   */
  lemma RowOvershootByOne(cell: string, barSeg: string, vt: string, v: nat, w: int)
    requires w + 1 == |cell| + |barSeg| + v + 6
    requires forall j :: 0 <= j < |vt| ==> vt[j] != Block
    ensures var row := Renderer.FitWidth(RowHead(cell, barSeg) + RJust(vt, v) + " █", w);
      && |row| == w
      && row[w - 1] != Block
  {
    RowEndCut(RowHead(cell, barSeg), vt, v);
  }

  /**
   * The data rows line up: every row is `W` wide, its label cell and its bar
   * start in the same columns in every row, the bar fills between none and all
   * of its field (the maximum all of it), and the row ends on the right wall
   * exactly when the rounded value prints within the value field.
   */
  predicate RowsLinedUp(cells: seq<string>, values: seq<real>, vmax: real, f: Fields)
    requires |cells| == |values|
  {
    var rows := SwissRows(cells, values, vmax, f);
    forall k :: 0 <= k < |rows| ==> RowLinedUp(rows[k], cells[k], values[k], vmax, f)
  }

  /**
   * One data row lines up: `W` wide, the left wall and a space, the label
   * cell, a space, the bar of its share of the bar field (full for the
   * largest value), and the right wall exactly when the value text fits its field.
   */
  predicate RowLinedUp(row: string, cell: string, val: real, vmax: real, f: Fields) {
    var n := ScaleBarLen(val, vmax, f.barField);
    && |row| == f.total
    && 0 <= f.labelField && 0 <= f.barField && f.labelField + 3 + f.barField <= f.total
    && row[..2] == "█ "
    && row[2..f.labelField + 2] == cell
    && row[f.labelField + 3..f.labelField + 3 + f.barField] == Renderer.BandBar(n, f.barField)
    && 0 <= n <= f.barField
    && (vmax > 0.0 && val == vmax ==> n == f.barField)
    && (row[f.total - 1] == Block <==> |ValueText(val)| <= f.valueField)
  }

  /** With fields that fill the width and a value between zero and the scale, a data row lines up. */
  lemma SwissRowAligned(cell: string, val: real, vmax: real, f: Fields)
    requires f.labelField >= 0 && f.barField >= 0 && f.valueField >= 0
    requires f.labelField + f.barField + f.valueField + 6 == f.total
    requires |cell| == f.labelField
    requires 0.0 <= val && (vmax > 0.0 ==> val <= vmax)
    ensures RowLinedUp(SwissRow(cell, val, vmax, f), cell, val, vmax, f)
  {
    var n := ScaleBarLen(val, vmax, f.barField);
    ScaleBarLenBounds(val, vmax, f.barField);
    var bar := Renderer.BandBar(n, f.barField);
    var vt := ValueText(val);
    RowTextSplit(cell, bar, vt, f.valueField);
    IntTextHasNoBlock(Procgen.RoundHalfEven(val));
    RowExact(cell, bar, vt, f.valueField, f.total);
  }

  /** With fields that fill the width and values between zero and the scale, the data rows line up. */
  lemma SwissRowsAligned(cells: seq<string>, values: seq<real>, vmax: real, f: Fields)
    requires |cells| == |values| && f.labelField >= 0 && f.barField >= 0 && f.valueField >= 0
    requires f.labelField + f.barField + f.valueField + 6 == f.total
    requires forall k :: 0 <= k < |cells| ==> |cells[k]| == f.labelField
    requires forall k :: 0 <= k < |values| ==> 0.0 <= values[k] && (vmax > 0.0 ==> values[k] <= vmax)
    ensures RowsLinedUp(cells, values, vmax, f)
  {
    var rows := SwissRows(cells, values, vmax, f);
    forall k | 0 <= k < |rows|
      ensures RowLinedUp(rows[k], cells[k], values[k], vmax, f)
    {
      SwissRowAligned(cells[k], values[k], vmax, f);
    }
  }

  /** Every data row is `W` wide and none ends on the right wall. */
  predicate RowsCutShort(cells: seq<string>, values: seq<real>, vmax: real, f: Fields)
    requires |cells| == |values|
  {
    var rows := SwissRows(cells, values, vmax, f);
    forall k :: 0 <= k < |rows| ==> |rows[k]| == f.total && f.total >= 1 && rows[k][f.total - 1] != Block
  }

  /**
   * With fields that overshoot the width by one cell and values between zero
   * and the scale, every data row is cut to `W` and none ends on the right wall.
   */
  lemma SwissRowsLoseWall(cells: seq<string>, values: seq<real>, vmax: real, f: Fields)
    requires |cells| == |values| && f.labelField >= 0 && f.barField >= 0 && f.valueField >= 0
    requires f.labelField + f.barField + f.valueField + 6 == f.total + 1
    requires forall k :: 0 <= k < |cells| ==> |cells[k]| == f.labelField
    requires forall k :: 0 <= k < |values| ==> 0.0 <= values[k] && (vmax > 0.0 ==> values[k] <= vmax)
    ensures RowsCutShort(cells, values, vmax, f)
  {
    var rows := SwissRows(cells, values, vmax, f);
    forall k | 0 <= k < |rows|
      ensures |rows[k]| == f.total && f.total >= 1 && rows[k][f.total - 1] != Block
    {
      var n := ScaleBarLen(values[k], vmax, f.barField);
      ScaleBarLenBounds(values[k], vmax, f.barField);
      var bar := Renderer.BandBar(n, f.barField);
      var vt := ValueText(values[k]);
      RowTextSplit(cells[k], bar, vt, f.valueField);
      IntTextHasNoBlock(Procgen.RoundHalfEven(values[k]));
      RowOvershootByOne(cells[k], bar, vt, f.valueField, f.total);
    }
  }

  /**
   * The band has four more lines than data rows: the top, middle and bottom
   * bands are `w` full blocks, the title row is second and the data rows sit
   * between the middle and the bottom band.
   */
  lemma SwissFrame(titleRow: string, rows: seq<string>, w: int)
    ensures var lines := SwissAssemble(titleRow, rows, w);
      && |lines| == |rows| + 4
      && lines[0] == Repeat(Block, w) && lines[2] == Repeat(Block, w) && lines[|lines| - 1] == Repeat(Block, w)
      && lines[1] == titleRow
      && lines[3..|lines| - 1] == rows
  {
    var a := Repeat(Block, w);
    var p := [a] + [titleRow] + [a];
    Parts3(p, rows, [a]);
  }

  /** When the title row and the data rows are `w` wide, every line of the band is. */
  lemma SwissFrameWidth(titleRow: string, rows: seq<string>, w: int)
    requires w >= 0 && |titleRow| == w
    requires forall k :: 0 <= k < |rows| ==> |rows[k]| == w
    ensures var lines := SwissAssemble(titleRow, rows, w);
      forall k :: 0 <= k < |lines| ==> |lines[k]| == w
  {
    var lines := SwissAssemble(titleRow, rows, w);
    SwissFrame(titleRow, rows, w);
    forall k | 0 <= k < |lines|
      ensures |lines[k]| == w
    {
      if 3 <= k < |lines| - 1 {
        assert lines[k] == lines[3..|lines| - 1][k - 3];
      }
    }
  }

  /** The fitting makes every data row `W` wide, whenever `W` is not negative. */
  lemma SwissRowsWidth(cells: seq<string>, values: seq<real>, vmax: real, f: Fields)
    requires |cells| == |values| && f.total >= 0
    ensures var rows := SwissRows(cells, values, vmax, f);
      forall k :: 0 <= k < |rows| ==> |rows[k]| == f.total
  {
  }

  /**
   * Every line of the band, bands, title row and data rows alike, is exactly
   * `W` wide whenever `W` is at least two.
   */
  lemma SwissLinesWidth(title: string, labels: seq<string>, values: seq<real>, w: int)
    requires |labels| == |values| > 0 && w >= 2
    ensures var lines := SwissLines(title, labels, values, w);
      forall k :: 0 <= k < |lines| ==> |lines[k]| == w
  {
    var f := SwissFields(labels, values, w);
    var rows := SwissRows(LabelCells(labels, f.labelField), values, Procgen.MaxOf(values), f);
    SwissRowsWidth(LabelCells(labels, f.labelField), values, Procgen.MaxOf(values), f);
    TitleRowShape(title, w);
    SwissFrameWidth(TitleRow(title, w), rows, w);
  }

  /**
   * For non-negative values, when the widest label leaves room for a bar, the
   * data rows line up as `SwissRowsAligned` states, with the label cells of the
   * labels and the largest value as the scale.
   */
  lemma SwissBandRowsFit(labels: seq<string>, values: seq<real>, w: int)
    requires |labels| == |values| > 0 && RawBar(labels, values, w) >= 1
    requires forall k :: 0 <= k < |values| ==> values[k] >= 0.0
    ensures var f := SwissFields(labels, values, w);
      RowsLinedUp(LabelCells(labels, f.labelField), values, Procgen.MaxOf(values), f)
  {
    var f := SwissFields(labels, values, w);
    assert f.labelField + f.barField + f.valueField + 6 == f.total;
    SwissRowsAligned(LabelCells(labels, f.labelField), values, Procgen.MaxOf(values), f);
  }

  /**
   * For non-negative values, when the raw bar field is zero, or negative by no
   * more than the label can give up while keeping three cells, every data row
   * is cut one cell early and loses its right wall.
   */
  lemma SwissBandRowsCut(labels: seq<string>, values: seq<real>, w: int)
    requires |labels| == |values| > 0
    requires RawBar(labels, values, w) <= 0 && LabelFieldOf(labels) + RawBar(labels, values, w) >= 3
    requires forall k :: 0 <= k < |values| ==> values[k] >= 0.0
    ensures var f := SwissFields(labels, values, w);
      RowsCutShort(LabelCells(labels, f.labelField), values, Procgen.MaxOf(values), f)
  {
    var f := SwissFields(labels, values, w);
    var cells := LabelCells(labels, f.labelField);
    var vmax := Procgen.MaxOf(values);
    assert f.labelField + f.barField + f.valueField + 6 == f.total + 1 by {
      SwissFieldsFit(labels, values, w);
    }
    assert forall k :: 0 <= k < |values| ==> 0.0 <= values[k] && (vmax > 0.0 ==> values[k] <= vmax);
    SwissRowsLoseWall(cells, values, vmax, f);
  }

  /**
   * The value field is measured on the truncated values but the rows print the
   * rounded ones, so a value just below 100 gets a two-cell field and a
   * three-character text.
   */
  lemma RoundedTextOutgrowsField()
    ensures ValueFieldOf([99.6]) == 2 && ValueText(99.6) == "100"
  {
    assert Renderer.Trunc(99.6) == 99;
    assert IntToString(99) == "99";
    assert Procgen.RoundHalfEven(99.6) == 100;
    assert IntToString(100) == "100";
    assert TruncTexts([99.6]) == ["99"];
  }

  // ---------------------------------------------------------------- methods

  /** The centred title row of `render_swiss_full_block_bar`. */
  method BuildTitleRow(title: string, w: int) returns (row: string)
    ensures row == TitleRow(title, w)
  {
    var inner := " " + title + " ";
    if |inner| > w - 2 {
      inner := " " + Take(title, Renderer.Max(0, w - 4)) + " ";
    }
    var padLeft := (w - |inner|) / 2;
    var padRight := w - |inner| - padLeft;
    row := Repeat(Block, padLeft) + inner + Repeat(Block, padRight);
  }

  /** The body of the row loop of `render_swiss_full_block_bar`. */
  method BuildSwissRow(lab: string, val: real, vmax: real, f: Fields) returns (row: string)
    requires f.labelField >= 0
    ensures row == SwissRow(LJustCut("[" + lab + "]", f.labelField), val, vmax, f)
  {
    var labelTxt := "[" + lab + "]";
    var labelPadded := if |labelTxt| < f.labelField then labelTxt + Repeat(' ', f.labelField - |labelTxt|) else labelTxt[..f.labelField];
    var n := ScaleBarLen(val, vmax, f.barField);
    var barSeg := Repeat(Block, n) + Repeat(' ', f.barField - n);
    var valueTxt := IntToString(Procgen.RoundHalfEven(val));
    row := "█" + " " + labelPadded + " " + barSeg + " " + RJust(valueTxt, f.valueField) + " " + "█";
    if |row| != f.total {
      if |row| > f.total {
        row := Take(row, f.total);
      } else {
        row := row + Repeat(' ', f.total - |row|);
      }
    }
    assert labelPadded == LJustCut(labelTxt, f.labelField);
    assert barSeg == Renderer.BandBar(n, f.barField);
  }

  /** The row loop of `render_swiss_full_block_bar`, over the labels and values in step. */
  method BuildSwissRows(labels: seq<string>, values: seq<real>, vmax: real, f: Fields) returns (rows: seq<string>)
    requires |labels| == |values| && f.labelField >= 0
    ensures rows == SwissRows(LabelCells(labels, f.labelField), values, vmax, f)
  {
    ghost var expected := SwissRows(LabelCells(labels, f.labelField), values, vmax, f);
    rows := [];
    var i := 0;
    while i < |labels|
      invariant 0 <= i <= |labels|
      invariant rows == expected[..i]
    {
      var row := BuildSwissRow(labels[i], values[i], vmax, f);
      assert LabelCells(labels, f.labelField)[i] == LJustCut("[" + labels[i] + "]", f.labelField);
      assert row == expected[i];
      PrefixSnoc(expected, i);
      rows := rows + [row];
      i := i + 1;
    }
    assert expected[..|labels|] == expected;
  }

  /**
   * `render_swiss_full_block_bar`: an `AssertionError` when the lists differ in
   * length, the title alone when there are no labels, and otherwise the band's
   * lines joined by newlines.
   */
  method RenderSwissFullBlockBar(title: string, labels: seq<string>, values: seq<real>,
                                 totalWidth: int, barWidth: Option<int>) returns (r: Result<string>)
    ensures |labels| != |values| ==> r == Err(AssertionError)
    ensures |labels| == |values| == 0 ==> r == Ok(title)
    ensures |labels| == |values| > 0 ==> r == Ok(Join(SwissLines(title, labels, values, totalWidth), "\n"))
  {
    if |labels| != |values| {
      return Err(AssertionError);
    }
    if |labels| == 0 {
      return Ok(title);
    }
    var f := PrepareSwissFields(labels, values, totalWidth, barWidth);
    var w := f.total;
    var vmax := Procgen.MaxOf(values);
    var lines := [Repeat(Block, w)];
    var titleRow := BuildTitleRow(title, w);
    lines := lines + [titleRow];
    lines := lines + [Repeat(Block, w)];
    var rows := BuildSwissRows(labels, values, vmax, f);
    lines := lines + rows + [Repeat(Block, w)];
    assert lines == SwissAssemble(titleRow, rows, w);
    r := Ok(Join(lines, "\n"));
  }
}
