/**
 * The canonical renderers: the horizontal bar chart with its legend, value and
 * percent columns and tick ruler, and the Swiss full-block band with cap rows.
 */
module Renderer {
  import opened Wrappers
  import opened Strings
  import Charlib
  import Aliases
  import Procgen

  /** Two-argument `max` and `min` on integers, for the column and tick arithmetic. */
  function Max(a: int, b: int): int {
    if a >= b then a else b
  }

  function Min(a: int, b: int): int {
    if a <= b then a else b
  }

  // ---------------------------------------------------------------- rounding

  /** `_round_half_up`: `floor(x + 0.5)`, the nearest integer with ties going up. */
  function RoundHalfUp(x: real): (r: int)
    ensures x - 0.5 < r as real <= x + 0.5
  {
    (x + 0.5).Floor
  }

  /** Rounding half up never reverses an order. */
  lemma RoundHalfUpMonotone(x: real, y: real)
    requires x <= y
    ensures RoundHalfUp(x) <= RoundHalfUp(y)
  {
    assert RoundHalfUp(x) as real <= x + 0.5 <= y + 0.5 < RoundHalfUp(y) as real + 1.0;
  }

  /** A quarter of an integer, floored, is integer division by four. */
  lemma FloorQuarter(n: int)
    ensures ((n as real) / 4.0).Floor == n / 4
  {
    var q, m := n / 4, n % 4;
    assert n == 4 * q + m;
    assert (n as real) / 4.0 == q as real + (m as real) / 4.0;
  }

  /** `int(x)` for a float: truncation toward zero. */
  function Trunc(x: real): (r: int)
    ensures 0.0 <= x ==> 0 <= r && r as real <= x < r as real + 1.0
    ensures x < 0.0 ==> r <= 0 && r as real - 1.0 < x <= r as real
  {
    if x >= 0.0 then x.Floor else -((-x).Floor)
  }

  /**
   * `_scale_bar_len`: no bar at all when the maximum is not positive, and
   * otherwise the rounded share of `width`, clamped to `[0, width]`.
   */
  function ScaleBarLen(value: real, vmax: real, width: int): (n: int)
    ensures vmax <= 0.0 || width <= 0 ==> n == 0
    ensures 0 <= n && (width >= 0 ==> n <= width)
  {
    if vmax <= 0.0 then 0 else Max(0, Min(width, RoundHalfUp((value / vmax) * width as real)))
  }

  /** The maximum gets the whole width, and a value not above zero gets no bar. */
  lemma ScaleBarLenEnds(value: real, vmax: real, width: int)
    requires vmax > 0.0 && width >= 0
    ensures value >= vmax ==> ScaleBarLen(value, vmax, width) == width
    ensures value <= 0.0 ==> ScaleBarLen(value, vmax, width) == 0
  {
    var x := (value / vmax) * width as real;
    if value >= vmax {
      assert value / vmax >= 1.0;
      assert x >= width as real;
    }
    if value <= 0.0 {
      assert value / vmax <= 0.0;
      assert x <= 0.0;
    }
  }

  /** A larger value never gets a shorter bar. */
  lemma ScaleBarLenMonotone(v1: real, v2: real, vmax: real, width: int)
    requires v1 <= v2 && width >= 0
    ensures ScaleBarLen(v1, vmax, width) <= ScaleBarLen(v2, vmax, width)
  {
    if vmax > 0.0 {
      assert v1 / vmax <= v2 / vmax;
      assert (v1 / vmax) * width as real <= (v2 / vmax) * width as real;
      RoundHalfUpMonotone((v1 / vmax) * width as real, (v2 / vmax) * width as real);
    }
  }

  // ---------------------------------------------------------------- ruler

  /** The default `tick_positions`. */
  const TickPositions: seq<real> := [0.0, 0.25, 0.5, 0.75, 1.0]

  /** The column of tick `k`: `k * width / 4` rounded half up, clamped to the ruler. */
  function TickIndex(k: int, width: int): int {
    Min(width - 1, Max(0, (k * width + 2) / 4))
  }

  /** The column `_build_horizontal_ruler` computes for tick `k` is `TickIndex(k, width)`. */
  lemma QuarterTick(k: int, width: int)
    requires 0 <= k < 5
    ensures Min(width - 1, Max(0, RoundHalfUp(TickPositions[k] * width as real))) == TickIndex(k, width)
  {
    assert TickPositions[k] == (k as real) / 4.0;
    assert TickPositions[k] * width as real + 0.5 == ((k * width + 2) as real) / 4.0;
    FloorQuarter(k * width + 2);
  }

  /** Column `j` is one of the first `k` tick columns. */
  predicate TickAmong(j: int, width: int, k: nat) {
    k > 0 && (TickIndex(k - 1, width) == j || TickAmong(j, width, k - 1))
  }

  lemma {:induction false} TickAmongIff(j: int, width: int, k: nat)
    ensures TickAmong(j, width, k) <==> exists m :: 0 <= m < k && TickIndex(m, width) == j
  {
    if k > 0 {
      TickAmongIff(j, width, k - 1);
      if TickIndex(k - 1, width) == j {
        assert exists m :: 0 <= m < k && TickIndex(m, width) == j;
      }
    }
  }

  /** The ruler of `width` cells: the tick glyph at the five tick columns, `fill` elsewhere. */
  function Ruler(width: nat, tick: char, fill: char): (r: string)
    ensures |r| == width
  {
    seq(width, j requires 0 <= j < width => if TickAmong(j, width, 5) then tick else fill)
  }

  /**
   * The ruler holds `tick` exactly at the five tick columns (when the glyphs
   * differ), and the first and last cells are ticks.
   */
  lemma RulerTicks(width: nat, tick: char, fill: char)
    requires width >= 1 && tick != fill
    ensures TickIndex(0, width) == 0 && TickIndex(4, width) == width - 1
    ensures Ruler(width, tick, fill)[0] == tick && Ruler(width, tick, fill)[width - 1] == tick
    ensures forall j :: 0 <= j < width ==>
      (Ruler(width, tick, fill)[j] == tick <==> exists m :: 0 <= m < 5 && TickIndex(m, width) == j)
    ensures forall j :: 0 <= j < width ==> Ruler(width, tick, fill)[j] in {tick, fill}
  {
    assert TickAmong(0, width, 5) by {
      assert TickIndex(0, width) == 0;
      TickAmongIff(0, width, 5);
    }
    assert TickAmong(width - 1, width, 5) by {
      assert TickIndex(4, width) == width - 1;
      TickAmongIff(width - 1, width, 5);
    }
    forall j | 0 <= j < width
      ensures Ruler(width, tick, fill)[j] == tick <==> exists m :: 0 <= m < 5 && TickIndex(m, width) == j
    {
      TickAmongIff(j, width, 5);
    }
  }

  /**
   * `_build_horizontal_ruler`: every cell filled, then each tick stamped in.
   * A width that is not positive leaves `cols` empty, and the first stamp
   * at index `width - 1` raises IndexError.
   */
  method BuildHorizontalRuler(width: int, tick: char, fill: char) returns (r: Result<string>)
    ensures width <= 0 ==> r == Err(IndexError)
    ensures width >= 1 ==> r == Ok(Ruler(width, tick, fill))
  {
    if width <= 0 {
      return Err(IndexError);
    }
    var cols := new char[width];
    for i := 0 to width
      invariant forall j :: 0 <= j < i ==> cols[j] == fill
    {
      cols[i] := fill;
    }
    for k := 0 to 5
      invariant forall j :: 0 <= j < width ==> cols[j] == if TickAmong(j, width, k) then tick else fill
    {
      var idx := Min(width - 1, Max(0, RoundHalfUp(TickPositions[k] * width as real)));
      QuarterTick(k, width);
      cols[idx] := tick;
    }
    assert cols[..] == Ruler(width, tick, fill);
    r := Ok(cols[..]);
  }

  // ---------------------------------------------------------------- chart inputs

  /** A chart's series: the dictionary's items in insertion order. */
  type Series = seq<(string, real)>

  /** Dictionary keys are distinct. */
  predicate DistinctLabels(series: Series) {
    forall i, j :: 0 <= i < j < |series| ==> series[i].0 != series[j].0
  }

  /** `max(values)` */
  function MaxValue(series: Series): (m: real)
    requires |series| > 0
    ensures forall i :: 0 <= i < |series| ==> series[i].1 <= m
    ensures exists i :: 0 <= i < |series| && series[i].1 == m
  {
    if |series| == 1 then series[0].1
    else
      var m := MaxValue(series[..|series| - 1]);
      var last := series[|series| - 1].1;
      assert forall i :: 0 <= i < |series| - 1 ==> series[i] == series[..|series| - 1][i];
      if last > m then last else m
  }

  /** `sum(values)` */
  function Total(series: Series): real {
    if series == [] then 0.0 else Total(series[..|series| - 1]) + series[|series| - 1].1
  }

  /** `max(len(x) for x in xs)`, taken as 0 for no strings. */
  function MaxLen(xs: seq<string>): (m: nat)
    ensures forall i :: 0 <= i < |xs| ==> |xs[i]| <= m
    ensures |xs| > 0 ==> exists i :: 0 <= i < |xs| && |xs[i]| == m
  {
    if xs == [] then 0
    else
      var m := MaxLen(xs[..|xs| - 1]);
      assert forall i :: 0 <= i < |xs| - 1 ==> xs[i] == xs[..|xs| - 1][i];
      if |xs[|xs| - 1]| > m then |xs[|xs| - 1]| else m
  }

  /**
   * `_any_cjk_or_emoji` over the series' labels, as `any` reads them from the
   * front: true exactly when some label holds a CJK or emoji character.
   */
  predicate NeedsLegend(series: Series): (b: bool)
    ensures b <==> exists i :: 0 <= i < |series| && Aliases.ContainsCjkOrEmoji(series[i].0)
  {
    if series == [] then false
    else
      assert forall i :: 1 <= i < |series| ==> series[i] == series[1..][i - 1];
      Aliases.ContainsCjkOrEmoji(series[0].0) || NeedsLegend(series[1..])
  }

  /** The dictionary `legend_index`: each label to its 1-based position. */
  function LegendIndex(series: Series): (m: map<string, string>)
    requires DistinctLabels(series)
  {
    map i | 0 <= i < |series| :: series[i].0 := NatToString(i + 1)
  }

  lemma LegendIndexAt(series: Series, i: int)
    requires DistinctLabels(series) && 0 <= i < |series|
    ensures series[i].0 in LegendIndex(series) && LegendIndex(series)[series[i].0] == NatToString(i + 1)
  {
    var m := LegendIndex(series);
    assert series[i].0 in m;
    var j :| 0 <= j < |series| && series[j].0 == series[i].0 && m[series[i].0] == NatToString(j + 1);
    assert j == i;
  }

  /** The label shown in the bar tags: the 1-based index under a legend, the alias otherwise. */
  function Resolved(series: Series, legend: bool): (r: seq<string>)
    ensures |r| == |series|
  {
    seq(|series|, i requires 0 <= i < |series| =>
      if legend then NatToString(i + 1) else Aliases.AliasOf(series[i].0))
  }

  /** The value column: `str(int(v))`. */
  function ValueTexts(series: Series): (r: seq<string>)
    ensures |r| == |series|
  {
    seq(|series|, i requires 0 <= i < |series| => IntToString(Trunc(series[i].1)))
  }

  /** The percent column: a share of the total rounded half up, all zero when the total is not positive. */
  function Percents(series: Series): (r: seq<int>)
    ensures |r| == |series|
  {
    var total := Total(series);
    seq(|series|, i requires 0 <= i < |series| =>
      if total > 0.0 then RoundHalfUp((series[i].1 / total) * 100.0) else 0)
  }

  function PercentTexts(ps: seq<int>): (r: seq<string>)
    ensures |r| == |ps|
  {
    seq(|ps|, i requires 0 <= i < |ps| => IntToString(ps[i]))
  }

  /** The bar length of every item. */
  function BarLens(series: Series, width: int): (r: seq<int>)
    requires |series| > 0
    ensures |r| == |series|
    ensures forall i :: 0 <= i < |r| ==> 0 <= r[i] <= Max(0, width)
  {
    seq(|series|, i requires 0 <= i < |series| => ScaleBarLen(series[i].1, MaxValue(series), width))
  }

  /** The per-item columns of the bar rows: shown label, bar length, value text, percent text. */
  datatype Columns = Columns(shown: seq<string>, bars: seq<int>, values: seq<string>, percents: seq<string>)
  {
    predicate Valid() {
      |bars| == |shown| && |values| == |shown| && |percents| == |shown|
    }
  }

  /** The columns of a non-empty series. */
  function ColumnsOf(series: Series, legend: bool, width: int): (c: Columns)
    requires |series| > 0
    ensures c.Valid() && |c.shown| == |series|
  {
    Columns(Resolved(series, legend), BarLens(series, width), ValueTexts(series), PercentTexts(Percents(series)))
  }

  // ---------------------------------------------------------------- chart rows

  /** Legend row `i`: `  i. alias` with the 1-based index. */
  function LegendLine(series: Series, i: int): string
    requires 0 <= i < |series|
  {
    "  " + NatToString(i + 1) + ". " + Aliases.AliasOf(series[i].0)
  }

  /** The legend: a heading, then one row per label. */
  function LegendLines(series: Series): (r: seq<string>)
    ensures |r| == |series| + 1
  {
    ["Labels:"] + seq(|series|, i requires 0 <= i < |series| => LegendLine(series, i))
  }

  /** A bar of `n` fill glyphs padded with spaces to `width`. */
  function Bar(fill: char, n: int, width: int): (r: string)
    ensures 0 <= n <= width ==> |r| == width
  {
    Repeat(fill, n) + Repeat(' ', width - n)
  }

  /** The bar tag `[label]`, the label left-justified in the label column. */
  function Tag(shown: string, labelWidth: int): string {
    "[" + LJust(shown, labelWidth) + "]"
  }

  /** The value and percent fields, each right-justified in its column. */
  function ValPct(value: string, valueWidth: int, percent: string, percentWidth: int): string {
    RJust(value, valueWidth) + " (" + RJust(percent, percentWidth) + "%)"
  }

  /** One bar row: `tag bar valpct`. */
  function BarLine(tag: string, bar: string, valpct: string): string {
    tag + " " + bar + " " + valpct
  }

  /** Bar row `i`, every field padded to its column. */
  function BarLineAt(c: Columns, fill: char, width: int, labelWidth: int, i: int): string
    requires c.Valid() && 0 <= i < |c.shown|
  {
    BarLine(Tag(c.shown[i], labelWidth), Bar(fill, c.bars[i], width),
            ValPct(c.values[i], MaxLen(c.values), c.percents[i], MaxLen(c.percents)))
  }

  /** The bar rows. */
  function BarLines(c: Columns, fill: char, width: int, labelWidth: int): (r: seq<string>)
    requires c.Valid()
    ensures |r| == |c.shown|
  {
    seq(|c.shown|, i requires 0 <= i < |c.shown| => BarLineAt(c, fill, width, labelWidth, i))
  }

  /** The target column of tick `k`. */
  function TickTarget(k: int, width: int): int
    requires 0 <= k < 5
  {
    RoundHalfUp(TickPositions[k] * width as real)
  }

  /** The tick texts: the quarters of the maximum, rounded half up. */
  function TickLabels(vmax: real): (r: seq<string>)
    ensures |r| == 5
  {
    seq(5, k requires 0 <= k < 5 => IntToString(RoundHalfUp(TickPositions[k] * vmax)))
  }

  /**
   * The tick row after the indent and the first `k` labels, with the column
   * reached after the indent (`pos_chars`).
   */
  function TickCells(k: nat, labelSpace: int, width: int, labels: seq<string>): (string, int)
    requires k <= 5 && |labels| == 5
  {
    if k == 0 then (Repeat(' ', labelSpace), 0)
    else
      var prev := TickCells(k - 1, labelSpace, width, labels);
      var lab := labels[k - 1];
      var pad := Max(0, TickTarget(k - 1, width) - prev.1 - |lab|);
      (prev.0 + Repeat(' ', pad) + lab, prev.1 + pad + |lab|)
  }

  /**
   * Every tick label ends at its target column unless the label before it
   * already reaches past it, so labels never overlap and keep their order;
   * the row ends with the last label.
   */
  lemma {:induction false} TickCellsLayout(k: nat, labelSpace: nat, width: int, labels: seq<string>)
    requires 1 <= k <= 5 && |labels| == 5
    ensures var cells := TickCells(k, labelSpace, width, labels);
      var prev := TickCells(k - 1, labelSpace, width, labels);
      && |cells.0| == labelSpace + cells.1
      && cells.1 >= TickTarget(k - 1, width)
      && cells.1 >= prev.1 + |labels[k - 1]|
      && (cells.1 > prev.1 + |labels[k - 1]| ==> cells.1 == TickTarget(k - 1, width))
      && EndsWith(cells.0, labels[k - 1])
  {
    if k > 1 {
      TickCellsLayout(k - 1, labelSpace, width, labels);
    }
    var cells := TickCells(k, labelSpace, width, labels);
    var lab := labels[k - 1];
    assert cells.0[|cells.0| - |lab|..] == lab;
  }

  /** The last tick label reaches at least the end of the ruler. */
  lemma TickRowReachesRulerEnd(labelSpace: nat, width: int, labels: seq<string>)
    requires width >= 1 && |labels| == 5
    ensures TickCells(5, labelSpace, width, labels).1 >= width
  {
    TickCellsLayout(5, labelSpace, width, labels);
    assert TickPositions[4] * width as real == width as real;
  }

  /** The ruler row and the tick row under the bars. */
  function ScaleLines(width: int, ruler: char, labelWidth: int, vmax: real): (r: seq<string>)
    requires width >= 1
    ensures |r| == 2
  {
    [Repeat(' ', labelWidth + 3) + Ruler(width, ruler, '-'),
     TickCells(5, labelWidth + 3, width, TickLabels(vmax)).0]
  }

  /** The style pack actually used: `minimal_ascii` whenever ASCII output is forced. */
  function EffectivePack(stylePack: string, asciiOnly: bool): (p: Charlib.StylePack)
    ensures asciiOnly ==> p == Charlib.MinimalAscii && p.fill == '='
    ensures !asciiOnly ==> p == Charlib.GetStylePack(stylePack)
  {
    Charlib.GetStylePack(if asciiOnly then "minimal_ascii" else stylePack)
  }

  /** The label column: at least six wide, and wide enough for every shown label. */
  function LabelWidth(resolved: seq<string>): (w: nat)
    ensures w >= 6 && forall i :: 0 <= i < |resolved| ==> |resolved[i]| <= w
  {
    Max(6, MaxLen(resolved))
  }

  /** A chart from its parts: the title, the legend rows, the bar rows and the scale rows. */
  function Assemble(title: string, legend: seq<string>, c: Columns, fill: char, width: int,
                    scale: seq<string>): seq<string>
    requires c.Valid()
  {
    [title] + legend + BarLines(c, fill, width, LabelWidth(c.shown)) + scale
  }

  /** The rows of `render_bar_chart_ascii` for a non-empty series. */
  function ChartLines(title: string, series: Series, width: int, stylePack: string,
                      showScale: bool, asciiOnly: bool): seq<string>
    requires |series| > 0 && (showScale ==> width >= 1)
  {
    var pack := EffectivePack(stylePack, asciiOnly);
    var legend := NeedsLegend(series);
    var c := ColumnsOf(series, legend, width);
    Assemble(title, if legend then LegendLines(series) else [], c, pack.fill, width,
             if showScale then ScaleLines(width, pack.ruler, LabelWidth(c.shown), MaxValue(series)) else [])
  }

  /** The index of the first bar row: after the title, and after the legend when there is one. */
  function BarStart(series: Series): nat {
    if NeedsLegend(series) then |series| + 2 else 1
  }

  // ---------------------------------------------------------------- chart properties

  /** The cells of a bar: `n` fill glyphs, then spaces. */
  lemma BarCells(fill: char, n: int, width: int)
    requires 0 <= n <= width
    ensures forall j :: 0 <= j < width ==> Bar(fill, n, width)[j] == if j < n then fill else ' '
  {
    var bar := Bar(fill, n, width);
    forall j | 0 <= j < width
      ensures bar[j] == if j < n then fill else ' '
    {
      if j < n {
        assert bar[j] == Repeat(fill, n)[j];
      } else {
        assert bar[j] == Repeat(' ', width - n)[j - n];
      }
    }
  }

  /** The tag and the bar can be read back off a bar row. */
  lemma BarLineParts(tag: string, bar: string, valpct: string, k: nat)
    requires k == |tag| + 1
    ensures var r := BarLine(tag, bar, valpct);
      && |r| == k + |bar| + |valpct| + 1
      && r[..k] == tag + " "
      && Slice(r, k, k + |bar|) == bar
  {
    var r := BarLine(tag, bar, valpct);
    assert r == (tag + " ") + bar + (" " + valpct);
    assert r[k..k + |bar|] == bar;
  }

  /** A bar row whose fields fit their columns has the columns' total length. */
  lemma BarRowShape(shown: string, labelWidth: nat, bar: string, value: string, valueWidth: int,
                    percent: string, percentWidth: int)
    requires |shown| <= labelWidth && |value| <= valueWidth && |percent| <= percentWidth
    ensures var r := BarLine(Tag(shown, labelWidth), bar, ValPct(value, valueWidth, percent, percentWidth));
      && |r| == labelWidth + |bar| + valueWidth + percentWidth + 8
      && r[..labelWidth + 3] == Tag(shown, labelWidth) + " "
      && Slice(r, labelWidth + 3, labelWidth + 3 + |bar|) == bar
  {
    var tag := Tag(shown, labelWidth);
    var valpct := ValPct(value, valueWidth, percent, percentWidth);
    assert |tag| == labelWidth + 2;
    assert |valpct| == valueWidth + percentWidth + 4;
    BarLineParts(tag, bar, valpct, labelWidth + 3);
  }

  /**
   * Every bar row has the same length, opens with its tag padded to the label
   * column, and carries its bar right after the tag.
   */
  lemma BarLinesAligned(c: Columns, fill: char, width: int, labelWidth: nat)
    requires c.Valid()
    requires forall i :: 0 <= i < |c.shown| ==> |c.shown[i]| <= labelWidth
    requires forall i :: 0 <= i < |c.bars| ==> 0 <= c.bars[i] <= Max(0, width)
    ensures var r := BarLines(c, fill, width, labelWidth);
      forall i :: 0 <= i < |c.shown| ==>
        && |r[i]| == labelWidth + Max(0, width) + MaxLen(c.values) + MaxLen(c.percents) + 8
        && r[i][..labelWidth + 3] == Tag(c.shown[i], labelWidth) + " "
        && Slice(r[i], labelWidth + 3, labelWidth + 3 + Max(0, width)) == Bar(fill, c.bars[i], width)
  {
    var r := BarLines(c, fill, width, labelWidth);
    var vw, pw := MaxLen(c.values), MaxLen(c.percents);
    forall i | 0 <= i < |c.shown|
      ensures |r[i]| == labelWidth + Max(0, width) + vw + pw + 8
      ensures r[i][..labelWidth + 3] == Tag(c.shown[i], labelWidth) + " "
      ensures Slice(r[i], labelWidth + 3, labelWidth + 3 + Max(0, width)) == Bar(fill, c.bars[i], width)
    {
      var bar := Bar(fill, c.bars[i], width);
      assert |bar| == Max(0, width);
      BarRowShape(c.shown[i], labelWidth, bar, c.values[i], vw, c.percents[i], pw);
    }
  }

  /** A bar row starts with `[` and its shown label. */
  lemma TagPrefix(t: string, labelWidth: int, bar: string, valpct: string)
    ensures StartsWith(BarLine(Tag(t, labelWidth), bar, valpct), "[" + t)
  {
    var tag := Tag(t, labelWidth);
    LJustParts(t, labelWidth);
    assert tag[..|t| + 1] == "[" + t;
    var r := BarLine(tag, bar, valpct);
    assert r == tag + (" " + bar + " " + valpct);
    assert r[..|t| + 1] == tag[..|t| + 1];
  }

  /** When every shown label is its 1-based index, every tag starts with that index. */
  lemma IndexTags(c: Columns, fill: char, width: int)
    requires c.Valid()
    requires forall i :: 0 <= i < |c.shown| ==> c.shown[i] == NatToString(i + 1)
    ensures var r := BarLines(c, fill, width, LabelWidth(c.shown));
      forall i :: 0 <= i < |c.shown| ==> StartsWith(r[i], "[" + NatToString(i + 1))
  {
    var lw := LabelWidth(c.shown);
    var r := BarLines(c, fill, width, lw);
    forall i | 0 <= i < |c.shown|
      ensures StartsWith(r[i], "[" + NatToString(i + 1))
    {
      TagPrefix(c.shown[i], lw, Bar(fill, c.bars[i], width),
                ValPct(c.values[i], MaxLen(c.values), c.percents[i], MaxLen(c.percents)));
    }
  }

  /** The bar rows of a chart with a legend are tagged with 1-based indices. */
  lemma LegendTags(series: Series, width: int, fill: char)
    requires |series| > 0
    ensures var c := ColumnsOf(series, true, width);
      var r := BarLines(c, fill, width, LabelWidth(c.shown));
      forall i :: 0 <= i < |series| ==> StartsWith(r[i], "[" + NatToString(i + 1))
  {
    IndexTags(ColumnsOf(series, true, width), fill, width);
  }

  /** The tick row reaches at least as far as the ruler row above it. */
  lemma ScaleLinesAligned(width: int, ruler: char, labelWidth: nat, vmax: real)
    requires width >= 1
    ensures |ScaleLines(width, ruler, labelWidth, vmax)[0]| == labelWidth + 3 + width
    ensures |ScaleLines(width, ruler, labelWidth, vmax)[1]| >= labelWidth + 3 + width
  {
    TickRowReachesRulerEnd(labelWidth + 3, width, TickLabels(vmax));
    TickCellsLayout(5, labelWidth + 3, width, TickLabels(vmax));
  }

  /** The parts of an assembled chart can be read back off it. */
  lemma AssembleLayout(title: string, legend: seq<string>, c: Columns, fill: char, width: int,
                       scale: seq<string>)
    requires c.Valid()
    ensures var lines := Assemble(title, legend, c, fill, width, scale);
      var b := 1 + |legend|;
      && |lines| == b + |c.shown| + |scale|
      && lines[0] == title
      && lines[1..b] == legend
      && lines[b..b + |c.shown|] == BarLines(c, fill, width, LabelWidth(c.shown))
      && lines[b + |c.shown|..] == scale
  {
    var head := [title] + legend;
    var bars := BarLines(c, fill, width, LabelWidth(c.shown));
    assert (head + bars + scale)[..|head|] == head;
    assert (head + bars + scale)[|head|..|head| + |bars|] == bars;
    assert (head + bars + scale)[|head| + |bars|..] == scale;
    assert head[1..] == legend;
  }

  /** All bar rows of an assembled chart have one length. */
  lemma AssembleBarRowsEqualWidth(title: string, legend: seq<string>, c: Columns, fill: char, width: int,
                                  scale: seq<string>)
    requires c.Valid()
    requires forall i :: 0 <= i < |c.bars| ==> 0 <= c.bars[i] <= Max(0, width)
    ensures var lines := Assemble(title, legend, c, fill, width, scale);
      var b := 1 + |legend|;
      forall k1, k2 :: b <= k1 < b + |c.shown| && b <= k2 < b + |c.shown| ==> |lines[k1]| == |lines[k2]|
  {
    var lines := Assemble(title, legend, c, fill, width, scale);
    var b := 1 + |legend|;
    var lw := LabelWidth(c.shown);
    var bars := BarLines(c, fill, width, lw);
    var n := lw + Max(0, width) + MaxLen(c.values) + MaxLen(c.percents) + 8;
    assert forall k :: 0 <= k < |bars| ==> |bars[k]| == n by {
      BarLinesWidth(c, fill, width);
    }
    assert lines == [title] + legend + bars + scale;
    forall k | b <= k < b + |c.shown|
      ensures |lines[k]| == n
    {
      assert lines[k] == bars[k - b];
    }
  }

  /** Every bar row is as wide as the label, bar, value and percent columns with their separators. */
  lemma BarLinesWidth(c: Columns, fill: char, width: int)
    requires c.Valid()
    requires forall i :: 0 <= i < |c.bars| ==> 0 <= c.bars[i] <= Max(0, width)
    ensures var lw := LabelWidth(c.shown);
      var bars := BarLines(c, fill, width, lw);
      forall k :: 0 <= k < |bars| ==> |bars[k]| == lw + Max(0, width) + MaxLen(c.values) + MaxLen(c.percents) + 8
  {
    var lw := LabelWidth(c.shown);
    var bars := BarLines(c, fill, width, lw);
    forall k | 0 <= k < |bars|
      ensures |bars[k]| == lw + Max(0, width) + MaxLen(c.values) + MaxLen(c.percents) + 8
    {
      var bar := Bar(fill, c.bars[k], width);
      assert |bar| == Max(0, width);
      BarRowShape(c.shown[k], lw, bar, c.values[k], MaxLen(c.values), c.percents[k], MaxLen(c.percents));
    }
  }

  /**
   * The rows of a chart in order: the title, the legend when some label has
   * CJK or emoji characters, one bar row per item, and the two scale rows.
   */
  lemma ChartLayout(title: string, series: Series, width: int, stylePack: string,
                    showScale: bool, asciiOnly: bool)
    requires |series| > 0 && (showScale ==> width >= 1)
    ensures var lines := ChartLines(title, series, width, stylePack, showScale, asciiOnly);
      var b := BarStart(series);
      var c := ColumnsOf(series, NeedsLegend(series), width);
      var pack := EffectivePack(stylePack, asciiOnly);
      && |lines| == b + |series| + (if showScale then 2 else 0)
      && lines[0] == title
      && (NeedsLegend(series) ==> lines[1..b] == LegendLines(series))
      && lines[b..b + |series|] == BarLines(c, pack.fill, width, LabelWidth(c.shown))
      && (showScale ==>
            lines[b + |series|..] == ScaleLines(width, pack.ruler, LabelWidth(c.shown), MaxValue(series)))
  {
    var pack := EffectivePack(stylePack, asciiOnly);
    var legend := NeedsLegend(series);
    var c := ColumnsOf(series, legend, width);
    var scale := if showScale then ScaleLines(width, pack.ruler, LabelWidth(c.shown), MaxValue(series)) else [];
    var legendRows := if legend then LegendLines(series) else [];
    assert |legendRows| == BarStart(series) - 1;
    assert |c.shown| == |series|;
    assert ChartLines(title, series, width, stylePack, showScale, asciiOnly)
        == Assemble(title, legendRows, c, pack.fill, width, scale);
    AssembleLayout(title, legendRows, c, pack.fill, width, scale);
  }

  /** All bar rows of a chart have one length, whatever the labels. */
  lemma ChartBarRowsEqualWidth(title: string, series: Series, width: int, stylePack: string,
                               showScale: bool, asciiOnly: bool)
    requires |series| > 0 && (showScale ==> width >= 1)
    ensures var lines := ChartLines(title, series, width, stylePack, showScale, asciiOnly);
      var b := BarStart(series);
      forall k1, k2 :: b <= k1 < b + |series| && b <= k2 < b + |series| ==> |lines[k1]| == |lines[k2]|
  {
    var pack := EffectivePack(stylePack, asciiOnly);
    var legend := NeedsLegend(series);
    var c := ColumnsOf(series, legend, width);
    var scale := if showScale then ScaleLines(width, pack.ruler, LabelWidth(c.shown), MaxValue(series)) else [];
    AssembleBarRowsEqualWidth(title, if legend then LegendLines(series) else [], c, pack.fill, width, scale);
  }

  // ---------------------------------------------------------------- chart methods

  /** The `resolved_labels` loop: the legend index under a legend, the alias otherwise. */
  method ResolveLabels(series: Series, legend: bool) returns (resolved: seq<string>)
    requires DistinctLabels(series)
    ensures resolved == Resolved(series, legend)
  {
    var legendIndex: map<string, string> := map[];
    if legend {
      legendIndex := LegendIndex(series);
    }
    resolved := [];
    for i := 0 to |series|
      invariant resolved == Resolved(series, legend)[..i]
    {
      var lbl := series[i].0;
      var shown: string;
      if legend {
        LegendIndexAt(series, i);
        shown := legendIndex[lbl];
      } else {
        shown := Aliases.AliasLabel(lbl);
      }
      resolved := resolved + [shown];
    }
  }

  /** The legend loop. */
  method LegendRows(series: Series) returns (rows: seq<string>)
    ensures rows == LegendLines(series)
  {
    rows := ["Labels:"];
    for i := 0 to |series|
      invariant |rows| == i + 1 && rows[0] == "Labels:"
      invariant forall k :: 0 <= k < i ==> rows[k + 1] == LegendLine(series, k)
    {
      var alias := Aliases.AliasLabel(series[i].0);
      rows := rows + ["  " + NatToString(i + 1) + ". " + alias];
    }
    assert forall k :: 1 <= k < |rows| ==> rows[k] == LegendLines(series)[k];
  }

  /** The bar loop, reading each row's fields from the columns. */
  method BarRows(c: Columns, fill: char, width: int, labelWidth: int) returns (rows: seq<string>)
    requires c.Valid()
    ensures rows == BarLines(c, fill, width, labelWidth)
  {
    ghost var expected := BarLines(c, fill, width, labelWidth);
    var maxValueLen := MaxLen(c.values);
    var maxPercentLen := MaxLen(c.percents);
    rows := [];
    for i := 0 to |c.shown|
      invariant rows == expected[..i]
    {
      var row := BarRow(c, fill, width, labelWidth, i, maxValueLen, maxPercentLen);
      assert row == expected[i];
      PrefixSnoc(expected, i);
      rows := rows + [row];
    }
    assert expected[..|c.shown|] == expected;
  }

  /** The body of the bar loop: the tag, the bar and the value and percent texts of row `i`. */
  method BarRow(c: Columns, fill: char, width: int, labelWidth: int, i: nat, maxValueLen: nat, maxPercentLen: nat)
    returns (row: string)
    requires c.Valid() && i < |c.shown|
    requires maxValueLen == MaxLen(c.values) && maxPercentLen == MaxLen(c.percents)
    ensures row == BarLineAt(c, fill, width, labelWidth, i)
  {
    var n := c.bars[i];
    var bar := Repeat(fill, n) + Repeat(' ', width - n);
    var tag := "[" + LJust(c.shown[i], labelWidth) + "]";
    var valpct := RJust(c.values[i], maxValueLen) + " (" + RJust(c.percents[i], maxPercentLen) + "%)";
    row := tag + " " + bar + " " + valpct;
  }

  /** The tick-row loop, with `pos_chars` the column reached so far. */
  method TickRow(labelSpace: int, width: int, tickVals: seq<string>) returns (row: string)
    requires |tickVals| == 5
    ensures row == TickCells(5, labelSpace, width, tickVals).0
  {
    row := Repeat(' ', labelSpace);
    var posChars := 0;
    for k := 0 to 5
      invariant (row, posChars) == TickCells(k, labelSpace, width, tickVals)
    {
      var target := RoundHalfUp(TickPositions[k] * width as real);
      var lab := tickVals[k];
      var pad := Max(0, target - posChars - |lab|);
      row := row + Repeat(' ', pad) + lab;
      posChars := posChars + pad + |lab|;
    }
  }

  /**
   * `render_bar_chart_ascii`: the no-data text for an empty series; otherwise
   * the chart rows joined by newlines, where a scale on a ruler of no width
   * raises IndexError.
   */
  method RenderBarChartAscii(title: string, series: Series, width: int, stylePack: string,
                             showScale: bool, asciiOnly: bool) returns (r: Result<string>)
    requires DistinctLabels(series)
    ensures |series| == 0 ==> r == Ok(title + "\n( no data )")
    ensures |series| > 0 && showScale && width <= 0 ==> r == Err(IndexError)
    ensures |series| > 0 && (showScale ==> width >= 1) ==>
      r == Ok(Join(ChartLines(title, series, width, stylePack, showScale, asciiOnly), "\n"))
  {
    if |series| == 0 {
      return Ok(title + "\n( no data )");
    }
    var style := stylePack;
    if asciiOnly {
      style := "minimal_ascii";
    }
    var sp := Charlib.GetStylePack(style);
    var fill := sp.fill;
    var vmax := MaxValue(series);
    var needsLegend := NeedsLegend(series);
    var resolved := ResolveLabels(series, needsLegend);
    var labelColWidth := Max(6, MaxLen(resolved));
    var columns := Columns(resolved, BarLens(series, width), ValueTexts(series), PercentTexts(Percents(series)));
    var legend: seq<string> := [];
    if needsLegend {
      legend := LegendRows(series);
    }
    var bars := BarRows(columns, fill, width, labelColWidth);
    var scale: seq<string> := [];
    if showScale {
      var labelSpace := labelColWidth + 3;
      var ruler := BuildHorizontalRuler(width, sp.ruler, '-');
      if ruler.Err? {
        return Err(ruler.error);
      }
      var tickVals := TickLabels(vmax);
      var tickRow := TickRow(labelSpace, width, tickVals);
      scale := [Repeat(' ', labelSpace) + ruler.value, tickRow];
      assert scale == ScaleLines(width, sp.ruler, labelColWidth, vmax);
    }
    var rows := [title] + legend + bars + scale;
    assert sp == EffectivePack(stylePack, asciiOnly);
    assert columns == ColumnsOf(series, needsLegend, width);
    assert labelColWidth == LabelWidth(columns.shown);
    assert rows == Assemble(title, legend, columns, fill, width, scale);
    r := Ok(Join(rows, "\n"));
  }

  // ---------------------------------------------------------------- Swiss full-block band

  /** The full-block glyph of the band's caps, side walls and bars. */
  const Block: char := '█'

  /** `s[1:-1]` */
  function DropEnds(s: string): (r: string)
    ensures |r| == if |s| >= 2 then |s| - 2 else 0
  {
    if |s| >= 2 then s[1..|s| - 1] else ""
  }

  /** The label as the band prints it: stripped, and rid of one pair of enclosing brackets. */
  function BandLabel(lab: string): string {
    var raw := Strip(lab);
    if StartsWith(raw, "[") && EndsWith(raw, "]") then Strip(DropEnds(raw)) else raw
  }

  /** The label block: `[`, the upper-cased label cut or padded to `inner` characters, `]`. */
  function LabelBlock(lab: string, inner: nat): (r: string)
    ensures |r| == inner + 2 && r[0] == '[' && r[inner + 1] == ']'
  {
    "[" + LJustCut(Upper(BandLabel(lab)), inner) + "]"
  }

  /** The number of filled cells: `round(val / vmax * B)`, ties to even. */
  function BandBarCount(val: int, vmax: int, barWidth: int): int
    requires vmax > 0
  {
    Procgen.RoundHalfEven(BandShare(val, vmax, barWidth))
  }

  /** The unrounded filled share of a bar: `val / vmax * B`. */
  function BandShare(val: int, vmax: int, barWidth: int): real
    requires vmax > 0
  {
    Scaled(val as real, vmax as real, barWidth as real)
  }

  /** `v / m * b`, the share of `b` that `v` takes of `m`. */
  function Scaled(v: real, m: real, b: real): real
    requires m != 0.0
  {
    (v / m) * b
  }

  /** The bar segment: `n` full blocks, then spaces up to `barWidth`. */
  function BandBar(n: int, barWidth: int): (r: string)
    ensures 0 <= n <= barWidth ==> |r| == barWidth
  {
    Repeat(Block, n) + Repeat(' ', barWidth - n)
  }

  /** A band row before fitting: walls, label block, bar and the value right-aligned in two cells. */
  function BandRowText(labelBlock: string, barSeg: string, val: int): string {
    "█" + " " + labelBlock + " " + barSeg + " " + RJust(IntToString(val), 2) + " " + "█"
  }

  /**
   * A row cut to `w` characters when longer (Python's `row[:w]`, which also
   * drops characters from the end when `w` is negative) and padded with spaces
   * when shorter.
   */
  function FitWidth(row: string, w: int): (r: string)
    ensures w >= 0 ==> |r| == w
    ensures |row| == w ==> r == row
    ensures w >= 0 ==> r[..Min(|row|, w)] == row[..Min(|row|, w)]
    ensures forall j :: |row| <= j < |r| ==> r[j] == ' '
  {
    if |row| == w then row
    else if |row| > w then Take(row, w)
    else row + Repeat(' ', w - |row|)
  }

  /** One bar row of the band, from its label block and its value. */
  function BandRow(block: string, val: int, barWidth: int, vmax: int, w: int): string
    requires vmax > 0
  {
    FitWidth(BandRowText(block, BandBar(BandBarCount(val, vmax, barWidth), barWidth), val), w)
  }

  /** The scale of the bars: the largest value, or 1 when no value is positive. */
  function BandVMax(values: seq<int>): (m: int)
    requires |values| > 0
    ensures m > 0
    ensures forall i :: 0 <= i < |values| ==> values[i] <= m
    ensures (exists i :: 0 <= i < |values| && values[i] > 0) ==> exists i :: 0 <= i < |values| && m == values[i]
  {
    var m := ListMax(values);
    if m <= 0 then 1 else m
  }

  /** The width of the label block: what the fixed slots leave of the total width. */
  function LabelField(w: int, barWidth: int): int {
    w - (barWidth + 8)
  }

  /** The label blocks of all items. */
  function LabelBlocks(labels: seq<string>, inner: nat): (r: seq<string>)
    ensures |r| == |labels|
    ensures forall k :: 0 <= k < |r| ==> |r[k]| == inner + 2
  {
    seq(|labels|, i requires 0 <= i < |labels| => LabelBlock(labels[i], inner))
  }

  /** The bar rows of the band, one per item. */
  function BandRows(blocks: seq<string>, values: seq<int>, barWidth: int, vmax: int, w: int): (r: seq<string>)
    requires |blocks| == |values| && vmax > 0
    ensures |r| == |blocks|
  {
    seq(|blocks|, i requires 0 <= i < |blocks| => BandRow(blocks[i], values[i], barWidth, vmax, w))
  }

  /** A band from its bar rows: cap, title row, the bar rows, cap. */
  function BandAssemble(title: string, rows: seq<string>, w: int): (r: seq<string>)
    ensures |r| == |rows| + 3
  {
    [Repeat(Block, w)] + [BandTitleRow(title, w)] + rows + [Repeat(Block, w)]
  }

  /** The title row: the upper-cased title centred between two blocks. */
  function BandTitleRow(title: string, w: int): string {
    "█" + Center(Upper(title), w - 2) + "█"
  }

  /** The lines of the band: cap, title row, one row per item, cap. */
  function BandLines(title: string, labels: seq<string>, values: seq<int>, w: int, barWidth: int): (r: seq<string>)
    requires |labels| == |values| > 0 && LabelField(w, barWidth) >= 4
    ensures |r| == |labels| + 3
  {
    BandLinesAt(title, labels, values, LabelInner(w, barWidth), barWidth, BandVMax(values), w)
  }

  /** The characters between the brackets of a label block. */
  function LabelInner(w: int, barWidth: int): int {
    LabelField(w, barWidth) - 2
  }

  /** The lines of the band for a label block of `inner` characters and the scale `vmax`. */
  function BandLinesAt(title: string, labels: seq<string>, values: seq<int>, inner: nat, barWidth: int,
                       vmax: int, w: int): (r: seq<string>)
    requires |labels| == |values| && vmax > 0
    ensures |r| == |labels| + 3
  {
    BandAssemble(title, BandRows(LabelBlocks(labels, inner), values, barWidth, vmax, w), w)
  }

  // ---------------------------------------------------------------- band properties

  /** Bracketing a label that is not already bracketed changes nothing that is printed. */
  lemma BandLabelBracketed(x: string)
    ensures BandLabel("[" + x + "]") == Strip(x)
    ensures !(StartsWith(Strip(x), "[") && EndsWith(Strip(x), "]")) ==> BandLabel("[" + x + "]") == BandLabel(x)
  {
    var s := "[" + x + "]";
    assert s[0] == '[' && !IsSpace('[');
    assert StripStart(s) == s;
    assert s[|s| - 1] == ']' && !IsSpace(']');
    assert StripEnd(s) == s;
    assert Strip(s) == s;
    assert s[..1] == "[" && s[|s| - 1..] == "]";
    assert DropEnds(s) == x;
  }

  /** Text cut or padded to `inner` characters and bracketed keeps what fits, then spaces. */
  lemma BracketedCut(u: string, inner: nat)
    ensures var r := "[" + LJustCut(u, inner) + "]";
      var k := Min(|u|, inner);
      && r[1..k + 1] == u[..k]
      && forall j :: k < j <= inner ==> r[j] == ' '
  {
    var k := Min(|u|, inner);
    var t := LJustCut(u, inner);
    LJustCutParts(u, inner);
    var r := "[" + t + "]";
    assert r[1..k + 1] == t[..k];
    forall j | k < j <= inner
      ensures r[j] == ' '
    {
      assert r[j] == t[j - 1];
    }
  }

  /** The label block holds the upper-cased label, cut to the block or padded with spaces. */
  lemma LabelBlockText(lab: string, inner: nat)
    ensures var u := Upper(BandLabel(lab));
      var k := Min(|u|, inner);
      && LabelBlock(lab, inner)[1..k + 1] == u[..k]
      && forall j :: k < j <= inner ==> LabelBlock(lab, inner)[j] == ' '
  {
    BracketedCut(Upper(BandLabel(lab)), inner);
  }

  /** A share of a non-negative total, scaled to `b`, lies between 0 and `b`. */
  lemma ShareBounds(v: real, m: real, b: real)
    requires 0.0 <= v <= m && m > 0.0 && b >= 0.0
    ensures 0.0 <= Scaled(v, m, b) <= b
    ensures v == m ==> Scaled(v, m, b) == b
    ensures v == 0.0 ==> Scaled(v, m, b) == 0.0
  {
    var q := v / m;
    assert q * m == v;
    assert q <= 1.0 by {
      assert (1.0 - q) * m == m - v;
    }
    assert q * b <= 1.0 * b;
  }

  /** A non-negative value fills between none and all of the bar, the largest value all of it. */
  lemma BandBarCountBounds(val: int, vmax: int, barWidth: int)
    requires 0 <= val <= vmax && vmax > 0 && barWidth >= 0
    ensures 0 <= BandBarCount(val, vmax, barWidth) <= barWidth
    ensures val == vmax ==> BandBarCount(val, vmax, barWidth) == barWidth
    ensures val == 0 ==> BandBarCount(val, vmax, barWidth) == 0
  {
    BandShareBounds(val, vmax, barWidth);
    Procgen.RoundHalfEvenBetween(BandShare(val, vmax, barWidth), 0, barWidth);
  }

  /** The unrounded share of a value between zero and the scale lies between none and all of the bar. */
  lemma BandShareBounds(val: int, vmax: int, barWidth: int)
    requires 0 <= val <= vmax && vmax > 0 && barWidth >= 0
    ensures 0.0 <= BandShare(val, vmax, barWidth) <= barWidth as real
    ensures val == vmax ==> BandShare(val, vmax, barWidth) == barWidth as real
    ensures val == 0 ==> BandShare(val, vmax, barWidth) == 0.0
  {
    ShareBounds(val as real, vmax as real, barWidth as real);
  }

  /** The pieces of a band row before its value text. */
  function BandRowHead(block: string, barSeg: string): string {
    "█" + " " + block + " " + barSeg + " "
  }

  /** A band row is its head, the value text and the right wall, cut to `w`. */
  lemma BandRowSplit(block: string, val: int, barWidth: int, vmax: int, w: int)
    requires vmax > 0
    ensures var head := BandRowHead(block, BandBar(BandBarCount(val, vmax, barWidth), barWidth));
      var text := head + RJust(IntToString(val), 2) + " █";
      BandRow(block, val, barWidth, vmax, w) == FitWidth(text, w)
  {
    var bar := BandBar(BandBarCount(val, vmax, barWidth), barWidth);
    var vt := RJust(IntToString(val), 2);
    assert BandRowText(block, bar, val) == BandRowHead(block, bar) + vt + " █";
  }

  /** The head of a fitted row whose text is at least as long as the head plus the walls. */
  lemma FittedRowParts(block: string, bar: string, vt: string)
    requires |vt| >= 2
    ensures var head := BandRowHead(block, bar);
      var row := FitWidth(head + vt + " █", |head| + 4);
      && |row| == |head| + 4
      && row[..2] == "█ "
      && row[2..|block| + 2] == block
      && row[|block| + 2] == ' '
      && row[|block| + 3..|block| + 3 + |bar|] == bar
  {
    var head := BandRowHead(block, bar);
    var text := head + vt + " █";
    var row := FitWidth(text, |head| + 4);
    assert row[..|head|] == text[..|head|] == head;
    assert head == ("█ " + block) + (" " + bar + " ");
  }

  /** The last cell of a fitted row is the wall exactly when the value text takes two cells. */
  lemma FittedRowEnd(head: string, vt: string)
    requires |vt| >= 2
    requires forall j :: 0 <= j < |vt| ==> vt[j] != Block
    ensures var row := FitWidth(head + vt + " █", |head| + 4);
      && (row[|head| + 3] == Block <==> |vt| == 2)
      && (|vt| == 2 ==> row[|head|..] == vt + " █")
  {
    var text := head + vt + " █";
    var w := |head| + 4;
    var row := FitWidth(text, w);
    if |vt| == 2 {
      assert row == text;
      assert text[|head|..] == vt + " █";
    } else {
      assert row[w - 1] == text[w - 1];
      if |vt| == 3 {
        assert text[w - 1] == ' ';
      } else {
        assert text[w - 1] == vt[3];
      }
    }
  }

  /** The value text of a non-negative value is spaces and digits only. */
  lemma ValueTextHasNoBlock(val: int)
    requires val >= 0
    ensures var vt := RJust(IntToString(val), 2);
      forall j :: 0 <= j < |vt| ==> vt[j] != Block
  {
    var digits := IntToString(val);
    var vt := RJust(digits, 2);
    RJustParts(digits, 2);
    forall j | 0 <= j < |vt|
      ensures vt[j] != Block
    {
      if j >= |vt| - |digits| {
        assert vt[j] == vt[|vt| - |digits|..][j - (|vt| - |digits|)];
        assert IsDigit(digits[j - (|vt| - |digits|)]);
      }
    }
  }

  /**
   * With a bar width of at least zero and a value between zero and the
   * maximum, a band row is exactly as wide as the band: the left wall and a
   * space, the label block, a space, then the bar whose filled share is
   * between none and all of it. The right wall survives the fitting exactly
   * when the value prints in at most two characters; a wider value pushes the
   * wall past the cut, and the row then ends inside the value text or on the
   * space before the wall.
   */
  lemma BandRowLayout(block: string, val: int, w: int, barWidth: int, vmax: int)
    requires barWidth >= 0 && 0 <= val <= vmax && vmax > 0
    requires w == |block| + barWidth + 8
    ensures var row := BandRow(block, val, barWidth, vmax, w);
      var n := BandBarCount(val, vmax, barWidth);
      && |row| == w
      && 0 <= n <= barWidth
      && row[..2] == "█ "
      && row[2..|block| + 2] == block
      && row[|block| + 2] == ' '
      && row[|block| + 3..|block| + 3 + barWidth] == BandBar(n, barWidth)
      && (row[w - 1] == Block <==> |IntToString(val)| <= 2)
      && (|IntToString(val)| <= 2 ==> row[w - 4..] == RJust(IntToString(val), 2) + " █")
  {
    var n := BandBarCount(val, vmax, barWidth);
    BandBarCountBounds(val, vmax, barWidth);
    var bar := BandBar(n, barWidth);
    var vt := RJust(IntToString(val), 2);
    BandRowSplit(block, val, barWidth, vmax, w);
    FittedRowParts(block, bar, vt);
    ValueTextHasNoBlock(val);
    FittedRowEnd(BandRowHead(block, bar), vt);
  }

  /**
   * The band is framed by two caps of `w` full blocks; the title row has a wall
   * at each end and is `w` wide exactly when the title fits between the walls;
   * the bar rows lie between the title row and the bottom cap, so that when they
   * are all `w` wide, every row but the title row is.
   */
  lemma BandFrame(title: string, rows: seq<string>, w: int)
    ensures var lines := BandAssemble(title, rows, w);
      && lines[0] == Repeat(Block, w) && lines[|lines| - 1] == Repeat(Block, w)
      && lines[1][0] == Block && lines[1][|lines[1]| - 1] == Block
      && (w >= 2 ==> (|lines[1]| == w <==> |title| <= w - 2))
      && lines[2..|lines| - 1] == rows
      && (w >= 0 && (forall k :: 0 <= k < |rows| ==> |rows[k]| == w) ==>
            forall k :: 0 <= k < |lines| && k != 1 ==> |lines[k]| == w)
  {
    var lines := BandAssemble(title, rows, w);
    var t := BandTitleRow(title, w);
    Parts3([Repeat(Block, w)] + [t], rows, [Repeat(Block, w)]);
    if w >= 0 && (forall k :: 0 <= k < |rows| ==> |rows[k]| == w) {
      forall k | 0 <= k < |lines| && k != 1
        ensures |lines[k]| == w
      {
        if 2 <= k < |lines| - 1 {
          assert lines[k] == rows[k - 2];
        }
      }
    }
  }

  /** The fitting makes every bar row `w` wide, whenever `w` is not negative. */
  lemma BandRowsWidth(blocks: seq<string>, values: seq<int>, barWidth: int, vmax: int, w: int)
    requires |blocks| == |values| && vmax > 0 && w >= 0
    ensures var rows := BandRows(blocks, values, barWidth, vmax, w);
      forall k :: 0 <= k < |rows| ==> |rows[k]| == w
  {
  }

  /**
   * Every row of the band but the title row is exactly `w` wide whenever `w`
   * is not negative, as the band promises of its cap and bar rows.
   */
  lemma BandLinesWidth(title: string, labels: seq<string>, values: seq<int>, w: int, barWidth: int)
    requires |labels| == |values| > 0 && LabelField(w, barWidth) >= 4 && w >= 0
    ensures var lines := BandLines(title, labels, values, w, barWidth);
      forall k :: 0 <= k < |lines| && k != 1 ==> |lines[k]| == w
  {
    var blocks := LabelBlocks(labels, LabelInner(w, barWidth));
    var rows := BandRows(blocks, values, barWidth, BandVMax(values), w);
    BandRowsWidth(blocks, values, barWidth, BandVMax(values), w);
    BandFrame(title, rows, w);
  }

  /**
   * One bar row lined up in a band `w` wide: walls and label block in place, the
   * bar `barWidth` wide from the column after the label block with between none
   * and all of it filled, all of it for the largest value, and the right wall
   * kept exactly when the value prints in at most two characters.
   */
  predicate BandRowLinedUp(row: string, block: string, val: int, vmax: int, barWidth: int, w: int)
    requires vmax > 0
  {
    var n := BandBarCount(val, vmax, barWidth);
    && |row| == w
    && 0 <= barWidth && |block| + barWidth + 8 == w
    && row[..2] == "█ "
    && row[2..|block| + 2] == block
    && row[|block| + 3..|block| + 3 + barWidth] == BandBar(n, barWidth)
    && 0 <= n <= barWidth
    && (val == vmax ==> n == barWidth)
    && (row[w - 1] == Block <==> |IntToString(val)| <= 2)
  }

  /** A row whose label block fills the label field lines up. */
  lemma BandRowAligned(block: string, val: int, w: int, barWidth: int, vmax: int)
    requires barWidth >= 0 && 0 <= val <= vmax && vmax > 0
    requires |block| == LabelField(w, barWidth)
    ensures BandRowLinedUp(BandRow(block, val, barWidth, vmax, w), block, val, vmax, barWidth, w)
  {
    BandRowLayout(block, val, w, barWidth, vmax);
    BandBarCountBounds(val, vmax, barWidth);
  }

  /**
   * With a bar width of at least zero and values between zero and the scale,
   * the bar rows line up: every row is `w` wide, every bar starts in the same
   * column and is `barWidth` wide, the largest value fills its bar, and a row
   * keeps its right wall exactly when its value prints in at most two characters.
   */
  lemma BandRowsAligned(blocks: seq<string>, values: seq<int>, w: int, barWidth: int, vmax: int)
    requires |blocks| == |values| && barWidth >= 0 && vmax > 0
    requires forall k :: 0 <= k < |blocks| ==> |blocks[k]| == LabelField(w, barWidth)
    requires forall k :: 0 <= k < |values| ==> 0 <= values[k] <= vmax
    ensures var rows := BandRows(blocks, values, barWidth, vmax, w);
      forall k :: 0 <= k < |rows| ==> BandRowLinedUp(rows[k], blocks[k], values[k], vmax, barWidth, w)
  {
    var rows := BandRows(blocks, values, barWidth, vmax, w);
    forall k | 0 <= k < |rows|
      ensures BandRowLinedUp(rows[k], blocks[k], values[k], vmax, barWidth, w)
    {
      BandRowAligned(blocks[k], values[k], w, barWidth, vmax);
    }
  }

  /**
   * The bar rows of a band over non-negative values, which `BandFrame` places
   * between the title row and the bottom cap, line up as `BandRowsAligned`
   * states, with the label blocks of the items and the band's own scale.
   */
  lemma BandItemRowsAligned(labels: seq<string>, values: seq<int>, w: int, barWidth: int)
    requires |labels| == |values| > 0 && LabelField(w, barWidth) >= 4 && barWidth >= 0
    requires forall k :: 0 <= k < |values| ==> values[k] >= 0
    ensures var vmax := BandVMax(values);
      var blocks := LabelBlocks(labels, LabelInner(w, barWidth));
      var rows := BandRows(blocks, values, barWidth, vmax, w);
      forall k :: 0 <= k < |rows| ==> BandRowLinedUp(rows[k], blocks[k], values[k], vmax, barWidth, w)
  {
    var blocks := LabelBlocks(labels, LabelInner(w, barWidth));
    BandRowsAligned(blocks, values, w, barWidth, BandVMax(values));
  }

  // ---------------------------------------------------------------- band method

  /** The body of the row loop of `render_swiss_full_block_bar`. */
  method BuildBandRow(lab: string, val: int, inner: nat, b: int, vmax: int, w: int) returns (row: string)
    requires vmax > 0
    ensures row == BandRow(LabelBlock(lab, inner), val, b, vmax, w)
  {
    var labelBlock := BuildLabelBlock(lab, inner);
    var barSeg := BuildBandBar(val, vmax, b);
    row := BandRowText(labelBlock, barSeg, val);
    row := FitRow(row, w);
  }

  /** The bar of a row: `round(val / vmax * B)` full blocks, then spaces up to `B`. */
  method BuildBandBar(val: int, vmax: int, b: int) returns (barSeg: string)
    requires vmax > 0
    ensures barSeg == BandBar(BandBarCount(val, vmax, b), b)
  {
    var n := Procgen.RoundHalfEven(BandShare(val, vmax, b));
    barSeg := Repeat(Block, n) + Repeat(' ', b - n);
  }

  /** The label block of a row: the label stripped, unbracketed, upper-cased, cut or padded, bracketed. */
  method BuildLabelBlock(lab: string, inner: nat) returns (labelBlock: string)
    ensures labelBlock == LabelBlock(lab, inner)
  {
    var raw := Strip(lab);
    if StartsWith(raw, "[") && EndsWith(raw, "]") {
      raw := Strip(DropEnds(raw));
    }
    var labelInner := Take(LJust(Upper(raw), inner), inner);
    LJustCutIsTakeLJust(Upper(raw), inner);
    labelBlock := "[" + labelInner + "]";
  }

  /** `if len(row) != W: row = row[:W] if len(row) > W else row + " " * (W - len(row))` */
  method FitRow(row: string, w: int) returns (r: string)
    ensures r == FitWidth(row, w)
  {
    r := row;
    if |r| != w {
      r := if |r| > w then Take(r, w) else r + Repeat(' ', w - |r|);
    }
  }

  /** The row loop of `render_swiss_full_block_bar`. */
  method BuildBandRows(labels: seq<string>, values: seq<int>, inner: nat, b: int, vmax: int, w: int)
    returns (rows: seq<string>)
    requires |labels| == |values| && vmax > 0
    ensures rows == BandRows(LabelBlocks(labels, inner), values, b, vmax, w)
  {
    ghost var expected := BandRows(LabelBlocks(labels, inner), values, b, vmax, w);
    rows := [];
    var i := 0;
    while i < |labels|
      invariant 0 <= i <= |labels|
      invariant rows == expected[..i]
    {
      var row := BuildBandRow(labels[i], values[i], inner, b, vmax, w);
      assert LabelBlocks(labels, inner)[i] == LabelBlock(labels[i], inner);
      assert row == expected[i];
      PrefixSnoc(expected, i);
      rows := rows + [row];
      i := i + 1;
    }
    assert expected[..|labels|] == expected;
  }

  /**
   * `render_swiss_full_block_bar`: the title alone when the lists are empty or
   * differ in length, a `ValueError` when the label block would be narrower
   * than four cells, and otherwise the band's lines joined by newlines.
   */
  method RenderSwissFullBlockBar(title: string, labels: seq<string>, values: seq<int>,
                                 totalWidth: int, barWidth: int) returns (r: Result<string>)
    ensures |labels| == 0 || |values| == 0 || |labels| != |values| ==> r == Ok(title)
    ensures |labels| == |values| > 0 && LabelField(totalWidth, barWidth) < 4 ==> r == Err(ValueError)
    ensures |labels| == |values| > 0 && LabelField(totalWidth, barWidth) >= 4 ==>
      r == Ok(Join(BandLines(title, labels, values, totalWidth, barWidth), "\n"))
  {
    var w, b := totalWidth, barWidth;
    if |labels| == 0 || |values| == 0 || |labels| != |values| {
      return Ok(title);
    }
    var vmax := BandScale(values);
    var labelField := w - (b + 8);
    if labelField < 4 {
      return Err(ValueError);
    }
    var inner := labelField - 2;
    var text := JoinBandLines(title, labels, values, inner, b, vmax, w);
    r := Ok(text);
  }

  /** The band's lines for a label block of `inner` characters and the scale `vmax`, joined by newlines. */
  method JoinBandLines(title: string, labels: seq<string>, values: seq<int>, inner: nat, b: int, vmax: int, w: int)
    returns (text: string)
    requires |labels| == |values| > 0 && LabelField(w, b) >= 4
    requires inner == LabelInner(w, b) && vmax == BandVMax(values)
    ensures text == Join(BandLines(title, labels, values, w, b), "\n")
  {
    var lines := BuildBandLines(title, labels, values, inner, b, vmax, w);
    text := Join(lines, "\n");
  }

  /** `max(values)`, raised to 1 when it is not positive. */
  method BandScale(values: seq<int>) returns (vmax: int)
    requires |values| > 0
    ensures vmax == BandVMax(values)
  {
    vmax := ListMax(values);
    if vmax <= 0 {
      vmax := 1;
    }
  }

  /** The lines `render_swiss_full_block_bar` joins: cap, title row, bar rows, cap. */
  method BuildBandLines(title: string, labels: seq<string>, values: seq<int>, inner: nat, b: int, vmax: int, w: int)
    returns (lines: seq<string>)
    requires |labels| == |values| && vmax > 0
    ensures lines == BandLinesAt(title, labels, values, inner, b, vmax, w)
  {
    var titleRow := BuildBandTitle(title, w);
    lines := [Repeat(Block, w)] + [titleRow];
    var rows := BuildBandRows(labels, values, inner, b, vmax, w);
    lines := lines + rows + [Repeat(Block, w)];
  }

  /** The title row of `render_swiss_full_block_bar`: the upper-cased title centred between two blocks. */
  method BuildBandTitle(title: string, w: int) returns (row: string)
    ensures row == BandTitleRow(title, w)
  {
    var titleInner := Center(Upper(title), w - 2);
    row := "█" + titleInner + "█";
  }
}
