/**
 * Seeded procedural generators: the xorshift32 generator, random sequences,
 * sparklines, braided separators, density fields and rough borders.
 * Python's unbounded seed is an `int`; the generator's 32-bit word is a `bv32`.
 */
module Procgen {
  import opened Wrappers
  import opened Strings

  const Word: int := 0x1_0000_0000

  /** `seed & 0xFFFFFFFF`: the low 32 bits (also for negative seeds, as in Python). */
  function LowWord(seed: int): bv32 {
    (seed % Word) as bv32
  }

  // ---------------------------------------------------------------- xorshift32

  /** `x ^= x << 13` on a 32-bit word. */
  function ShiftLeft13(x: bv32): bv32 {
    x ^ (x << 13)
  }

  /** `x ^= x >> 17` */
  function ShiftRight17(x: bv32): bv32 {
    x ^ (x >> 17)
  }

  /** `x ^= x << 5`, masked to 32 bits. */
  function ShiftLeft5(x: bv32): bv32 {
    x ^ (x << 5)
  }

  /** One generator step on a 32-bit word: the three shifts in turn. */
  function Step(x: bv32): bv32 {
    ShiftLeft5(ShiftRight17(ShiftLeft13(x)))
  }

  /** `xorshift32`: the step applied to the low 32 bits of the seed. */
  function Xorshift32(seed: int): bv32 {
    Step(LowWord(seed))
  }

  /** Undoes `x ^= x << 13`. */
  function UnShiftLeft13(y: bv32): bv32 {
    y ^ (y << 13) ^ (y << 26)
  }

  /** Undoes `x ^= x >> 17`. */
  function UnShiftRight17(y: bv32): bv32 {
    y ^ (y >> 17)
  }

  /** Undoes `x ^= x << 5`. */
  function UnShiftLeft5(y: bv32): bv32 {
    y ^ (y << 5) ^ (y << 10) ^ (y << 15) ^ (y << 20) ^ (y << 25) ^ (y << 30)
  }

  /** The inverse of one generator step. */
  function UnStep(y: bv32): bv32 {
    UnShiftLeft13(UnShiftRight17(UnShiftLeft5(y)))
  }

  lemma UnShiftLeft13Inverse(x: bv32)
    ensures UnShiftLeft13(x ^ (x << 13)) == x
  {
  }

  lemma UnShiftRight17Inverse(x: bv32)
    ensures UnShiftRight17(x ^ (x >> 17)) == x
  {
  }

  lemma UnShiftLeft5Inverse(x: bv32)
    ensures UnShiftLeft5(x ^ (x << 5)) == x
  {
  }

  lemma UnShiftLeft13Cancels(x: bv32)
    ensures UnShiftLeft13(ShiftLeft13(x)) == x
  {
    UnShiftLeft13Inverse(x);
  }

  lemma UnShiftRight17Cancels(x: bv32)
    ensures UnShiftRight17(ShiftRight17(x)) == x
  {
    UnShiftRight17Inverse(x);
  }

  lemma UnShiftLeft5Cancels(x: bv32)
    ensures UnShiftLeft5(ShiftLeft5(x)) == x
  {
    UnShiftLeft5Inverse(x);
  }

  /** Each of the three shifts is invertible, so one step is a bijection on words. */
  lemma StepInverse(x: bv32)
    ensures UnStep(Step(x)) == x
  {
    UnShiftLeft5Cancels(ShiftRight17(ShiftLeft13(x)));
    UnShiftRight17Cancels(ShiftLeft13(x));
    UnShiftLeft13Cancels(x);
  }

  /** The step maps 0, and only 0, to 0. */
  lemma StepZeroIff(x: bv32)
    ensures Step(x) == 0 <==> x == 0
  {
    StepInverse(x);
    assert UnStep(0) == 0;
  }

  /** xorshift32 inverts on the low word of the seed and is 0 exactly when that word is. */
  lemma Xorshift32Inverse(seed: int)
    ensures UnStep(Xorshift32(seed)) == LowWord(seed)
    ensures Xorshift32(seed) == 0 <==> seed % Word == 0
  {
    StepInverse(LowWord(seed));
    StepZeroIff(LowWord(seed));
    LowWordZeroIff(seed);
  }

  lemma LowWordZeroIff(seed: int)
    ensures LowWord(seed) == 0 <==> seed % Word == 0
  {
  }

  lemma LowWordPeriodic(seed: int, k: int)
    ensures LowWord(seed + k * Word) == LowWord(seed)
  {
    assert (seed + k * Word) % Word == seed % Word;
  }

  /** Only the low 32 bits of the seed matter. */
  lemma Xorshift32LowBits(seed: int, k: int)
    ensures Xorshift32(seed + k * Word) == Xorshift32(seed)
  {
    LowWordPeriodic(seed, k);
  }

  // ---------------------------------------------------------------- streams

  /** `k` applications of `f`, starting from `s`. */
  function Iterate(f: int -> int, s: int, k: nat): int
    decreases k
  {
    if k == 0 then s else Iterate(f, f(s), k - 1)
  }

  /** One more application happens at the end. */
  lemma {:induction false} IterateNext(f: int -> int, s: int, k: nat)
    ensures Iterate(f, s, k + 1) == f(Iterate(f, s, k))
    decreases k
  {
    if k > 0 {
      IterateNext(f, f(s), k - 1);
    }
  }

  /** `a` applications followed by `b` more are `a + b` applications. */
  lemma {:induction false} IterateAdd(f: int -> int, s: int, a: nat, b: nat)
    ensures Iterate(f, Iterate(f, s, a), b) == Iterate(f, s, a + b)
    decreases a
  {
    if a > 0 {
      IterateAdd(f, f(s), a - 1, b);
    }
  }

  /** The Python-level step: `state = xorshift32(state)`. */
  function Next(state: int): int {
    Xorshift32(state) as int
  }

  /** The generator state after `k` steps from `seed` (the seed itself after none). */
  function StateAfter(seed: int, k: nat): int {
    Iterate(Next, seed, k)
  }

  lemma StateAfterNext(seed: int, k: nat)
    ensures StateAfter(seed, k + 1) == Xorshift32(StateAfter(seed, k)) as int
  {
    IterateNext(Next, seed, k);
  }

  lemma StateAfterAdd(seed: int, a: nat, b: nat)
    ensures StateAfter(StateAfter(seed, a), b) == StateAfter(seed, a + b)
  {
    IterateAdd(Next, seed, a, b);
  }

  lemma WordBounds(w: bv32)
    ensures 0 <= w as int < Word
  {
  }

  lemma WordZeroIff(w: bv32)
    ensures w as int == 0 <==> w == 0
  {
  }

  lemma ModWordSmall(n: int)
    requires 0 <= n < Word
    ensures n % Word == n
  {
  }

  /** One step lands in [0, 2^32) and gives 0 exactly from a state whose low word is 0. */
  lemma NextFacts(s: int)
    ensures 0 <= Next(s) < Word
    ensures Next(s) == 0 <==> s % Word == 0
  {
    WordBounds(Xorshift32(s));
    WordZeroIff(Xorshift32(s));
    Xorshift32Inverse(s);
  }

  /** A state reached by at least one step is 0 exactly when the seed's low word is 0. */
  lemma {:induction false} StateAfterZeroIff(seed: int, k: nat)
    requires k >= 1
    ensures 0 <= StateAfter(seed, k) < Word
    ensures StateAfter(seed, k) == 0 <==> seed % Word == 0
    decreases k
  {
    StateAfterNext(seed, k - 1);
    var prev := StateAfter(seed, k - 1);
    NextFacts(prev);
    if k > 1 {
      StateAfterZeroIff(seed, k - 1);
      ModWordSmall(prev);
    }
  }

  /** `rand_sequence`: `count` outputs, each the generator applied to the previous one. */
  method RandSequence(seed: int, count: int) returns (values: seq<int>)
    ensures |values| == if count <= 0 then 0 else count
    ensures forall i :: 0 <= i < |values| ==> values[i] == StateAfter(seed, i + 1)
    ensures |values| > 0 ==> values[0] == Xorshift32(seed) as int
    ensures forall i :: 0 <= i < |values| - 1 ==> values[i + 1] == Xorshift32(values[i]) as int
  {
    var state := seed;
    values := [];
    var n := 0;
    while n < count
      invariant 0 <= n && (count > 0 ==> n <= count) && (count <= 0 ==> n == 0)
      invariant |values| == n
      invariant state == StateAfter(seed, n)
      invariant forall i :: 0 <= i < n ==> values[i] == StateAfter(seed, i + 1)
    {
      StateAfterNext(seed, n);
      state := Xorshift32(state) as int;
      values := values + [state];
      n := n + 1;
    }
    forall i | 0 <= i < |values| - 1
      ensures values[i + 1] == Xorshift32(values[i]) as int
    {
      StateAfterNext(seed, i + 1);
    }
    StateAfterNext(seed, 0);
  }

  // ---------------------------------------------------------------- sparkline

  const SparkUni: string := "▁▂▃▄▅▆▇█"
  const SparkAsc: string := ".-=#"

  function Palette(asciiOnly: bool): (p: string)
    ensures |p| >= 2
  {
    if asciiOnly then SparkAsc else SparkUni
  }

  /** Python's `round` on an exact value: to the nearest integer, ties to even. */
  function RoundHalfEven(x: real): (r: int)
    ensures x - 0.5 <= r as real <= x + 0.5
  {
    var f := x.Floor;
    var d := x - f as real;
    if d < 0.5 then f else if d > 0.5 then f + 1 else if f % 2 == 0 then f else f + 1
  }

  lemma RoundHalfEvenMonotone(x: real, y: real)
    requires x <= y
    ensures RoundHalfEven(x) <= RoundHalfEven(y)
  {
  }

  lemma RoundHalfEvenOfInt(k: int)
    ensures RoundHalfEven(k as real) == k
  {
  }

  /** A value between two integers rounds to an integer between them; an integral value rounds to itself. */
  lemma RoundHalfEvenBetween(x: real, lo: int, hi: int)
    requires lo as real <= x <= hi as real
    ensures lo <= RoundHalfEven(x) <= hi
    ensures x == lo as real ==> RoundHalfEven(x) == lo
    ensures x == hi as real ==> RoundHalfEven(x) == hi
  {
    RoundHalfEvenMonotone(lo as real, x);
    RoundHalfEvenMonotone(x, hi as real);
    RoundHalfEvenOfInt(lo);
    RoundHalfEvenOfInt(hi);
  }

  function Clamp(x: int, lo: int, hi: int): (r: int)
    requires lo <= hi
    ensures lo <= r <= hi
    ensures lo <= x <= hi ==> r == x
  {
    if x < lo then lo else if x > hi then hi else x
  }

  /** `min(values)` on the float values; `Strings.ListMin` is the same for integer lists. */
  function MinOf(xs: seq<real>): (m: real)
    requires |xs| > 0
    ensures forall i :: 0 <= i < |xs| ==> m <= xs[i]
    ensures exists i :: 0 <= i < |xs| && m == xs[i]
  {
    if |xs| == 1 then xs[0]
    else var m := MinOf(xs[..|xs| - 1]); if xs[|xs| - 1] < m then xs[|xs| - 1] else m
  }

  /** `max(values)` on the float values; `Strings.ListMax` is the same for integer lists. */
  function MaxOf(xs: seq<real>): (m: real)
    requires |xs| > 0
    ensures forall i :: 0 <= i < |xs| ==> xs[i] <= m
    ensures exists i :: 0 <= i < |xs| && m == xs[i]
  {
    if |xs| == 1 then xs[0]
    else var m := MaxOf(xs[..|xs| - 1]); if xs[|xs| - 1] > m then xs[|xs| - 1] else m
  }

  /** `normalized * (len(palette) - 1)`: where `v` falls on a palette of `n` entries. */
  function Position(v: real, lo: real, hi: real, n: nat): real
    requires lo < hi
  {
    (v - lo) / (hi - lo) * (n - 1) as real
  }

  /** The palette index of `v` before any seeded variation: its rounded position, clamped. */
  function BaseIndex(v: real, lo: real, hi: real, n: nat): (k: int)
    requires lo < hi && n >= 1
    ensures 0 <= k < n
  {
    Clamp(RoundHalfEven(Position(v, lo, hi, n)), 0, n - 1)
  }

  /** The palette index after the seeded variation of position `i`, if there is a seed. */
  function SparkIndex(base: int, n: nat, seed: Option<int>, i: nat): (k: int)
    requires n >= 1 && 0 <= base < n
    ensures 0 <= k < n
    ensures -1 <= k - base <= 1
    ensures seed.None? ==> k == base
  {
    if seed.None? then base
    else
      var vs := seed.value + i * 1337;
      if (Xorshift32(vs) as int) % 10 == 0 then
        Clamp(base + (Xorshift32(vs * 2) as int) % 3 - 1, 0, n - 1)
      else base
  }

  /** The seeded variation step of the sparkline loop at position `i`. */
  method Vary(idx: int, n: nat, seed: Option<int>, i: nat) returns (k: int)
    requires n >= 1 && 0 <= idx < n
    ensures k == SparkIndex(idx, n, seed, i)
  {
    k := idx;
    if seed.Some? {
      var variationSeed := seed.value + i * 1337;
      if (Xorshift32(variationSeed) as int) % 10 == 0 {
        var variation := (Xorshift32(variationSeed * 2) as int) % 3 - 1;
        k := Clamp(k + variation, 0, n - 1);
      }
    }
  }

  lemma PositionMonotone(v1: real, v2: real, lo: real, hi: real, n: nat)
    requires lo < hi && n >= 1 && v1 <= v2
    ensures Position(v1, lo, hi, n) <= Position(v2, lo, hi, n)
  {
    assert (v1 - lo) / (hi - lo) <= (v2 - lo) / (hi - lo);
  }

  /** Larger values never get a lower palette index. */
  lemma BaseIndexMonotone(v1: real, v2: real, lo: real, hi: real, n: nat)
    requires lo < hi && n >= 1 && v1 <= v2
    ensures BaseIndex(v1, lo, hi, n) <= BaseIndex(v2, lo, hi, n)
  {
    PositionMonotone(v1, v2, lo, hi, n);
    RoundHalfEvenMonotone(Position(v1, lo, hi, n), Position(v2, lo, hi, n));
  }

  /** The minimum maps to the first palette entry and the maximum to the last. */
  lemma BaseIndexEnds(lo: real, hi: real, n: nat)
    requires lo < hi && n >= 1
    ensures BaseIndex(lo, lo, hi, n) == 0
    ensures BaseIndex(hi, lo, hi, n) == n - 1
  {
    assert (hi - lo) / (hi - lo) == 1.0;
    assert Position(lo, lo, hi, n) == 0.0;
    assert Position(hi, lo, hi, n) == (n - 1) as real;
    RoundHalfEvenBetween(0.0, 0, n - 1);
    RoundHalfEvenBetween((n - 1) as real, 0, n - 1);
  }

  /** `sparkline`: one palette character per value; all-equal values give the first palette entry. */
  method Sparkline(vals: seq<real>, asciiOnly: bool, seed: Option<int>) returns (r: string)
    ensures |r| == |vals|
    ensures forall i :: 0 <= i < |r| ==> r[i] in Palette(asciiOnly)
    ensures |vals| > 0 && MinOf(vals) == MaxOf(vals) ==>
      forall i :: 0 <= i < |r| ==> r[i] == Palette(asciiOnly)[0]
    ensures |vals| > 0 && MinOf(vals) < MaxOf(vals) ==>
      var p := Palette(asciiOnly);
      forall i :: 0 <= i < |r| ==>
        r[i] == p[SparkIndex(BaseIndex(vals[i], MinOf(vals), MaxOf(vals), |p|), |p|, seed, i)]
  {
    if |vals| == 0 {
      return "";
    }
    var lo, hi := MinOf(vals), MaxOf(vals);
    var palette := Palette(asciiOnly);
    if hi == lo {
      return Repeat(palette[0], |vals|);
    }
    assert lo <= vals[0] <= hi;
    r := SparkChars(vals, palette, lo, hi, seed);
    forall i | 0 <= i < |r|
      ensures r[i] in palette
    {
      var k := SparkIndex(BaseIndex(vals[i], lo, hi, |palette|), |palette|, seed, i);
      assert r[i] == palette[k];
    }
  }

  /** The loop of `sparkline`: the palette character of each value's varied index. */
  method SparkChars(vals: seq<real>, palette: string, lo: real, hi: real, seed: Option<int>) returns (out: string)
    requires lo < hi && |palette| >= 1
    ensures |out| == |vals|
    ensures forall j :: 0 <= j < |vals| ==>
      out[j] == palette[SparkIndex(BaseIndex(vals[j], lo, hi, |palette|), |palette|, seed, j)]
  {
    out := "";
    var i := 0;
    while i < |vals|
      invariant 0 <= i <= |vals| && |out| == i
      invariant forall j :: 0 <= j < i ==>
        out[j] == palette[SparkIndex(BaseIndex(vals[j], lo, hi, |palette|), |palette|, seed, j)]
    {
      var idx := BaseIndex(vals[i], lo, hi, |palette|);
      idx := Vary(idx, |palette|, seed, i);
      out := out + [palette[idx]];
      i := i + 1;
    }
  }

  // ---------------------------------------------------------------- braid

  /** The two slash glyphs of a braid. */
  function BraidGlyphs(asciiOnly: bool): (g: (char, char))
    ensures g.0 != g.1
  {
    if asciiOnly then ('/', '\\') else ('╱', '╲')
  }

  /** The unseeded braid alternates, starting with the first glyph. */
  function Alternating(g: (char, char), i: nat): char {
    if i % 2 == 0 then g.0 else g.1
  }

  /** The seeded glyph at position `i` when the generator has reached `state`. */
  function BraidChar(g: (char, char), state: int, i: nat): char {
    if state % 20 == 0 then (if i % 2 == 0 then g.1 else g.0) else Alternating(g, i)
  }

  /** A seeded glyph breaks the alternation exactly when its draw is divisible by 20. */
  lemma BraidCharBreaks(g: (char, char), state: int, i: nat)
    requires g.0 != g.1
    ensures BraidChar(g, state, i) == Alternating(g, i) <==> state % 20 != 0
    ensures BraidChar(g, state, i) == g.0 || BraidChar(g, state, i) == g.1
  {
  }

  /** `braid`: `width` glyphs; with a seed, a glyph is swapped where the draw is divisible by 20. */
  method Braid(width: int, asciiOnly: bool, seed: Option<int>) returns (r: string)
    ensures |r| == if width <= 0 then 0 else width
    ensures seed.None? ==> forall i :: 0 <= i < |r| ==> r[i] == Alternating(BraidGlyphs(asciiOnly), i)
    ensures seed.Some? ==> forall i :: 0 <= i < |r| ==>
      r[i] == BraidChar(BraidGlyphs(asciiOnly), StateAfter(seed.value, i + 1), i)
  {
    if width <= 0 {
      return "";
    }
    var g := BraidGlyphs(asciiOnly);
    var out := "";
    var i := 0;
    if seed.None? {
      while i < width
        invariant 0 <= i <= width && |out| == i
        invariant forall j :: 0 <= j < i ==> out[j] == Alternating(g, j)
      {
        out := out + [Alternating(g, i)];
        i := i + 1;
      }
    } else {
      var state := seed.value;
      while i < width
        invariant 0 <= i <= width && |out| == i
        invariant state == StateAfter(seed.value, i)
        invariant forall j :: 0 <= j < i ==> out[j] == BraidChar(g, StateAfter(seed.value, j + 1), j)
      {
        StateAfterNext(seed.value, i);
        state := Xorshift32(state) as int;
        var c := if state % 20 == 0 then (if i % 2 == 0 then g.1 else g.0) else Alternating(g, i);
        out := out + [c];
        i := i + 1;
      }
    }
    r := out;
  }

  /** Every braid glyph is one of the pair, and a seeded one breaks the pattern only on a draw divisible by 20. */
  lemma BraidShape(asciiOnly: bool, seed: int, r: string)
    requires forall i :: 0 <= i < |r| ==>
      r[i] == BraidChar(BraidGlyphs(asciiOnly), StateAfter(seed, i + 1), i)
    ensures forall i :: 0 <= i < |r| ==>
      r[i] == BraidGlyphs(asciiOnly).0 || r[i] == BraidGlyphs(asciiOnly).1
    ensures forall i :: 0 <= i < |r| ==>
      (r[i] == Alternating(BraidGlyphs(asciiOnly), i) <==> StateAfter(seed, i + 1) % 20 != 0)
  {
    forall i | 0 <= i < |r| {
      BraidCharBreaks(BraidGlyphs(asciiOnly), StateAfter(seed, i + 1), i);
    }
  }

  // ---------------------------------------------------------------- density field

  /** `int(clamp(density) * 0xFFFFFFFF)` on the exact value. */
  function Threshold(density: real): (t: int)
    ensures 0 <= t <= 0xFFFF_FFFF
  {
    var d := if density < 0.0 then 0.0 else if density > 1.0 then 1.0 else density;
    (d * 4294967295.0).Floor
  }

  function DensityGlyph(asciiOnly: bool): char {
    if asciiOnly then '#' else '▓'
  }

  /** The cell drawn from generator state `state`: filled below the threshold, blank otherwise. */
  function DensityCell(state: int, threshold: int, fill: char): char {
    if state < threshold then fill else ' '
  }

  /**
   * `density_field`: `height` rows of `width` cells; cell (y, x) is drawn from
   * the state after y*width + x + 1 steps.
   */
  method DensityField(width: int, height: int, density: real, asciiOnly: bool, seed: int)
    returns (lines: seq<string>)
    ensures width <= 0 || height <= 0 ==> lines == []
    ensures width > 0 && height > 0 ==> |lines| == height
    ensures forall y :: 0 <= y < |lines| ==> |lines[y]| == width
    ensures forall y, x :: 0 <= y < |lines| && 0 <= x < |lines[y]| ==>
      lines[y][x] == DensityCell(StateAfter(seed, y * width + x + 1), Threshold(density),
                                 DensityGlyph(asciiOnly))
  {
    if width <= 0 || height <= 0 {
      return [];
    }
    var fill := DensityGlyph(asciiOnly);
    var threshold := Threshold(density);
    lines := [];
    var state := seed;
    ghost var k := 0;
    var y := 0;
    while y < height
      invariant 0 <= y <= height && |lines| == y
      invariant k == y * width && state == StateAfter(seed, k)
      invariant forall yy :: 0 <= yy < y ==> |lines[yy]| == width
      invariant forall yy, x :: 0 <= yy < y && 0 <= x < width ==>
        lines[yy][x] == DensityCell(StateAfter(seed, yy * width + x + 1), threshold, fill)
    {
      var line := "";
      var x := 0;
      while x < width
        invariant 0 <= x <= width && |line| == x
        invariant k == y * width + x && state == StateAfter(seed, k)
        invariant forall xx :: 0 <= xx < x ==>
          line[xx] == DensityCell(StateAfter(seed, y * width + xx + 1), threshold, fill)
      {
        StateAfterNext(seed, k);
        state := Xorshift32(state) as int;
        k := k + 1;
        line := line + [if state < threshold then fill else ' '];
        x := x + 1;
      }
      assert (y + 1) * width == y * width + width;
      lines := lines + [line];
      y := y + 1;
    }
  }

  // ---------------------------------------------------------------- procedural border

  /** The `chars` table of a procedural border: one glyph serves all four corners. */
  datatype BorderGlyphs = BorderGlyphs(h: char, v: char, corner: char, rough: char)

  /** `+` corners in ASCII; in Unicode the corner glyph is `┌` everywhere. */
  function BorderChars(asciiOnly: bool): BorderGlyphs {
    if asciiOnly then BorderGlyphs('-', '|', '+', '~') else BorderGlyphs('─', '│', '┌', '≈')
  }

  /** The horizontal edge cell whose roughness is decided by draw number `k` (from 0). */
  function EdgeCell(g: BorderGlyphs, style: string, seed: int, k: nat): char {
    if style == "rough" && StateAfter(seed, k + 1) % 10 == 0 then g.rough else g.h
  }

  /**
   * The cell (y, x) of a border of the given size. The top edge uses draws
   * 0 .. width-3 from left to right, the bottom edge the next width-2 draws.
   */
  function BorderCell(g: BorderGlyphs, style: string, seed: int, width: int, height: int,
                      y: int, x: int): char
    requires 3 <= width && 3 <= height && 0 <= y < height && 0 <= x < width
  {
    if y == 0 || y == height - 1 then
      (if x == 0 || x == width - 1 then g.corner
       else EdgeCell(g, style, seed, (if y == 0 then 0 else width - 2) + x - 1))
    else if x == 0 || x == width - 1 then g.v
    else ' '
  }

  /** What each region of a border holds: corners, vertical sides, blank interior, edges. */
  lemma BorderCellRegions(g: BorderGlyphs, style: string, seed: int, width: int, height: int)
    requires 3 <= width && 3 <= height
    ensures forall y, x :: (y == 0 || y == height - 1) && (x == 0 || x == width - 1) ==>
      BorderCell(g, style, seed, width, height, y, x) == g.corner
    ensures forall y :: 0 < y < height - 1 ==>
      BorderCell(g, style, seed, width, height, y, 0) == g.v &&
      BorderCell(g, style, seed, width, height, y, width - 1) == g.v
    ensures forall y, x :: 0 < y < height - 1 && 0 < x < width - 1 ==>
      BorderCell(g, style, seed, width, height, y, x) == ' '
    ensures forall x :: 0 < x < width - 1 ==>
      var top := BorderCell(g, style, seed, width, height, 0, x);
      var bottom := BorderCell(g, style, seed, width, height, height - 1, x);
      (top == g.h || top == g.rough) && (bottom == g.h || bottom == g.rough)
    ensures style != "rough" ==> forall x :: 0 < x < width - 1 ==>
      BorderCell(g, style, seed, width, height, 0, x) == g.h &&
      BorderCell(g, style, seed, width, height, height - 1, x) == g.h
  {
    forall y | 0 < y < height - 1
      ensures BorderCell(g, style, seed, width, height, y, 0) == g.v
      ensures BorderCell(g, style, seed, width, height, y, width - 1) == g.v
    {
    }
  }

  /** Draws the border edges take before row `y` starts. */
  ghost function RowDraws(width: int, height: int, y: int): int {
    (if y >= 1 then width - 2 else 0) + (if y >= height then width - 2 else 0)
  }

  /** Draws an edge row takes for its first `x` cells (the corners take none). */
  ghost function EdgeDraws(width: int, x: int): int {
    if x <= 1 then 0 else if x - 1 < width - 2 then x - 1 else width - 2
  }

  /** `procedural_border`: nothing below 3x3, otherwise `height` rows of `width` cells. */
  method ProceduralBorder(width: int, height: int, style: string, asciiOnly: bool, seed: int)
    returns (lines: seq<string>)
    ensures width < 3 || height < 3 ==> lines == []
    ensures 3 <= width && 3 <= height ==> |lines| == height
    ensures forall y :: 0 <= y < |lines| ==> |lines[y]| == width
    ensures forall y, x :: 0 <= y < |lines| && 0 <= x < |lines[y]| ==>
      lines[y][x] == BorderCell(BorderChars(asciiOnly), style, seed, width, height, y, x)
  {
    if width < 3 || height < 3 {
      return [];
    }
    var g := BorderChars(asciiOnly);
    lines := [];
    var state := seed;
    ghost var k := 0;
    var y := 0;
    while y < height
      invariant 0 <= y <= height && |lines| == y
      invariant k == RowDraws(width, height, y) && state == StateAfter(seed, k)
      invariant forall yy :: 0 <= yy < y ==> |lines[yy]| == width
      invariant forall yy, x :: 0 <= yy < y && 0 <= x < width ==>
        lines[yy][x] == BorderCell(g, style, seed, width, height, yy, x)
    {
      var line := "";
      var x := 0;
      while x < width
        invariant 0 <= x <= width && |line| == x
        invariant k == RowDraws(width, height, y) +
          (if y == 0 || y == height - 1 then EdgeDraws(width, x) else 0)
        invariant state == StateAfter(seed, k)
        invariant forall xx :: 0 <= xx < x ==>
          line[xx] == BorderCell(g, style, seed, width, height, y, xx)
      {
        var c: char;
        if y == 0 || y == height - 1 {
          if x == 0 || x == width - 1 {
            c := g.corner;
          } else {
            StateAfterNext(seed, k);
            state := Xorshift32(state) as int;
            k := k + 1;
            c := if style == "rough" && state % 10 == 0 then g.rough else g.h;
          }
        } else if x == 0 || x == width - 1 {
          c := g.v;
        } else {
          c := ' ';
        }
        line := line + [c];
        x := x + 1;
      }
      lines := lines + [line];
      y := y + 1;
    }
  }

  /** In Unicode mode the top-right and bottom corners are `┌` as well, not `┐`, `└`, `┘`. */
  lemma UnicodeBorderCorners(style: string, seed: int, width: int, height: int)
    requires 3 <= width && 3 <= height
    ensures BorderCell(BorderChars(false), style, seed, width, height, 0, width - 1) == '┌'
    ensures BorderCell(BorderChars(false), style, seed, width, height, height - 1, width - 1) == '┌'
  {
  }
}
