/**
 * The dotted background both PDF resume templates draw: a seed hashed from a
 * text, a Park-Miller (Lehmer) generator started from it, and one point per
 * index whose colour cycles through the palette and whose size, opacity and
 * place come from the next four draws of the generator.
 */
module PdfPattern {
  import opened Text
  import opened JsValue
  import opened Numbers
  import AllData

  /** The generator's modulus, the prime 2^31 - 1. */
  const Modulus: int := 2147483647

  /** The generator's multiplier, 7^5. */
  const Multiplier: int := 16807

  /** The inverse of the multiplier modulo `Modulus`: `Multiplier * MultiplierInverse == 1 + 11017 * Modulus`. */
  const MultiplierInverse: int := 1407677000

  /** The seed used when a text hashes to 0. */
  const ZeroHashSeed: int := 1729

  // ---------------------------------------------------------------------------
  // hashStringToSeed
  // ---------------------------------------------------------------------------

  /** The UTF-16 code units of one character, as `charCodeAt` reads them: a surrogate pair beyond U+FFFF. */
  function CharUnits(c: char): (u: seq<int>)
    ensures 1 <= |u| <= 2 && forall i :: 0 <= i < |u| ==> 0 <= u[i] < 0x1_0000
    ensures (c as int) < 0x1_0000 <==> u == [c as int]
    ensures |u| == 2 ==> (u[0] - 0xD800) * 0x400 + (u[1] - 0xDC00) + 0x1_0000 == c as int
  {
    var n := c as int;
    if n < 0x1_0000 then [n] else [0xD800 + (n - 0x1_0000) / 0x400, 0xDC00 + (n - 0x1_0000) % 0x400]
  }

  /** The UTF-16 code units of a text: what `value.length` counts and `charCodeAt(i)` reads. */
  function CodeUnits(s: string): (u: seq<int>)
    ensures |s| <= |u| <= 2 * |s|
    ensures forall i :: 0 <= i < |u| ==> 0 <= u[i] < 0x1_0000
  {
    if s == [] then [] else CharUnits(s[0]) + CodeUnits(s[1..])
  }

  /** A text without characters beyond U+FFFF is read one code unit per character. */
  lemma {:induction false} CodeUnitsOfBasicText(s: string)
    requires forall i :: 0 <= i < |s| ==> (s[i] as int) < 0x1_0000
    ensures |CodeUnits(s)| == |s| && forall i :: 0 <= i < |s| ==> CodeUnits(s)[i] == s[i] as int
  {
    if s != [] {
      CodeUnitsOfBasicText(s[1..]);
    }
  }

  /** The hash of the code units `u`: `hash = (hash * 31 + unit) % Modulus` over them, from 0. */
  function HashUnits(u: seq<int>): (r: int)
    ensures 0 <= r < Modulus
    decreases |u|
  {
    if u == [] then 0 else (HashUnits(u[..|u| - 1]) * 31 + u[|u| - 1]) % Modulus
  }

  /** The hash of a text, taken over its UTF-16 code units. */
  function HashOf(s: string): (r: int)
    ensures 0 <= r < Modulus
  {
    HashUnits(CodeUnits(s))
  }

  /** `hash || 1729` */
  function SeedOf(s: string): (r: int)
    ensures 1 <= r < Modulus
    ensures HashOf(s) != 0 ==> r == HashOf(s)
  {
    if HashOf(s) == 0 then ZeroHashSeed else HashOf(s)
  }

  /** `hashStringToSeed(value)`: the loop over the code units, then 1729 in place of 0. */
  method HashStringToSeed(value: string) returns (seed: int)
    ensures seed == SeedOf(value)
    ensures 1 <= seed < Modulus
  {
    var units := CodeUnits(value);
    var hash := 0;
    var index := 0;
    while index < |units|
      invariant 0 <= index <= |units|
      invariant hash == HashUnits(units[..index])
      invariant 0 <= hash < Modulus
    {
      assert units[..index + 1][..index] == units[..index];
      hash := (hash * 31 + units[index]) % Modulus;
      index := index + 1;
    }
    assert units[..|units|] == units;
    seed := if hash == 0 then ZeroHashSeed else hash;
  }

  /** The empty text hashes to 0 and so seeds with 1729. */
  lemma EmptyTextSeed()
    ensures SeedOf("") == ZeroHashSeed
  {
  }

  // ---------------------------------------------------------------------------
  // createSeededRandom
  // ---------------------------------------------------------------------------

  /** JavaScript's `a % b` for `b > 0`: the remainder takes the sign of `a`. */
  function JsRem(a: int, b: int): (r: int)
    requires b > 0
    ensures -b < r < b
    ensures a >= 0 ==> r == a % b
    ensures a < 0 ==> r <= 0
  {
    if a >= 0 then a % b else -((-a) % b)
  }

  /** The generator's first state: the seed reduced modulo `Modulus`, moved up by `Modulus - 1` when not positive. */
  function InitialState(seedValue: int): (r: int)
    ensures 0 <= r < Modulus
    ensures seedValue > 0 ==> 1 <= r < Modulus
    ensures 0 < seedValue < Modulus ==> r == seedValue
  {
    var s := JsRem(seedValue, Modulus);
    if s <= 0 then s + (Modulus - 1) else s
  }

  /** One step of the generator: `seed * 16807 % 2147483647`. */
  function NextState(state: int): int {
    state * Multiplier % Modulus
  }

  /** The value a draw returns: `(seed - 1) / 2147483646`. */
  function Unit(state: int): real {
    (state - 1) as real / (Modulus - 1) as real
  }

  /** A state in [1, Modulus - 1] draws a value in [0, 1). */
  lemma UnitBounds(state: int)
    requires 1 <= state < Modulus
    ensures 0.0 <= Unit(state) < 1.0
  {
  }

  /**
   * Multiplying back by the inverse recovers the state, so a state in
   * [1, Modulus - 1] is never sent to 0.
   */
  lemma {:induction false} NextStateInvertible(state: int)
    requires 0 <= state < Modulus
    ensures NextState(state) * MultiplierInverse % Modulus == state
  {
    var p := state * Multiplier;
    var q := p / Modulus;
    var r := p % Modulus;
    assert p == q * Modulus + r;
    assert Multiplier * MultiplierInverse == 1 + 11017 * Modulus;
    assert p * MultiplierInverse == state * (Multiplier * MultiplierInverse);
    assert state * (1 + 11017 * Modulus) == state + (state * 11017) * Modulus;
    assert r * MultiplierInverse == p * MultiplierInverse - (q * MultiplierInverse) * Modulus;
    var k := state * 11017 - q * MultiplierInverse;
    assert r * MultiplierInverse == k * Modulus + state;
    ModUnique(r * MultiplierInverse, Modulus, k, state);
  }

  /** Every step keeps the state in [1, Modulus - 1]. */
  lemma NextStateInRange(state: int)
    requires 1 <= state < Modulus
    ensures 1 <= NextState(state) < Modulus
  {
    NextStateInvertible(state);
  }

  /** The value of the `n`-th draw from a generator that started in `start`. */
  function Draw(start: int, n: nat): real {
    Unit(Advance(start, n))
  }

  /** The state after `n` draws. */
  function Advance(state: int, n: nat): int
    decreases n
  {
    if n == 0 then state else NextState(Advance(state, n - 1))
  }

  /** However many draws are made, the state stays in [1, Modulus - 1]. */
  lemma {:induction false} AdvanceInRange(state: int, n: nat)
    requires 1 <= state < Modulus
    ensures 1 <= Advance(state, n) < Modulus
    decreases n
  {
    if n > 0 {
      AdvanceInRange(state, n - 1);
      NextStateInRange(Advance(state, n - 1));
    }
  }

  /** The closure `createSeededRandom(seedValue)` returns, with the state it updates. */
  class SeededRandom {
    var seed: int

    /** The state lies in the generator's range. */
    predicate InRange()
      reads this
    {
      1 <= seed < Modulus
    }

    constructor(seedValue: int)
      ensures seed == InitialState(seedValue)
      ensures seedValue > 0 ==> InRange()
    {
      seed := InitialState(seedValue);
    }

    /** One call: the next state, and the value drawn from it. */
    method Random() returns (r: real)
      modifies this
      ensures seed == NextState(old(seed)) && r == Unit(seed)
      ensures old(InRange()) ==> InRange() && 0.0 <= r < 1.0
    {
      if InRange() {
        NextStateInRange(seed);
      }
      seed := NextState(seed);
      r := Unit(seed);
    }
  }

  // ---------------------------------------------------------------------------
  // generatePointPattern
  // ---------------------------------------------------------------------------

  /** What differs between the two templates' patterns: the size spread, the page and the fallback colour. */
  datatype PatternStyle = PatternStyle(sizeSpread: real, pageWidth: real, pageHeight: real, fallbackColor: Value)

  /** One point of the pattern. */
  datatype Point = Point(key: string, left: real, top: real, size: real, opacity: real, color: Value)

  /** `colors && colors.length ? colors : [fallback]` */
  function PaletteColors(colors: seq<Value>, style: PatternStyle): (r: seq<Value>)
    ensures r != []
    ensures colors != [] ==> r == colors
  {
    if colors != [] then colors else [style.fallbackColor]
  }

  /** `${index}-${color}` */
  function PointKey(index: nat, color: Value, show: Value -> string): string {
    NatToString(index) + "-" + Display(color, show)
  }

  /** The point object pushed for `index`, given the four values drawn for it. */
  function PointFrom(index: nat, color: Value, sizeDraw: real, opacityDraw: real, leftDraw: real, topDraw: real,
                     style: PatternStyle, show: Value -> string): (r: Point)
  {
    Point(PointKey(index, color, show), leftDraw * style.pageWidth, topDraw * style.pageHeight,
      3.0 + sizeDraw * style.sizeSpread, 0.18 + opacityDraw * 0.32, color)
  }

  /**
   * The point drawn at `index` from a generator that started in `start`: the
   * draws 4·index + 1 to 4·index + 4 give its size, opacity, left and top.
   */
  function PointAt(start: int, index: nat, palette: seq<Value>, style: PatternStyle, show: Value -> string): (r: Point)
    requires palette != []
    ensures r.color == palette[index % |palette|]
  {
    PointFrom(index, palette[index % |palette|],
      Draw(start, 4 * index + 1), Draw(start, 4 * index + 2), Draw(start, 4 * index + 3), Draw(start, 4 * index + 4),
      style, show)
  }

  /** `generatePointPattern(count, seedValue, colors)` */
  method GeneratePointPattern(count: nat, seedValue: int, colors: seq<Value>, style: PatternStyle, show: Value -> string)
    returns (points: seq<Point>)
    ensures |points| == count
    ensures forall i :: 0 <= i < count ==>
      points[i] == PointAt(InitialState(seedValue), i, PaletteColors(colors, style), style, show)
  {
    var random := new SeededRandom(seedValue);
    ghost var start := random.seed;
    var paletteColors := PaletteColors(colors, style);
    points := [];
    var index := 0;
    while index < count
      invariant 0 <= index <= count && |points| == index
      invariant random.seed == Advance(start, 4 * index)
      invariant forall i :: 0 <= i < index ==> points[i] == PointAt(start, i, paletteColors, style, show)
    {
      ghost var base := 4 * index;
      var sizeDraw := random.Random();
      assert sizeDraw == Draw(start, base + 1);
      var opacityDraw := random.Random();
      assert opacityDraw == Draw(start, base + 2);
      var color := paletteColors[index % |paletteColors|];
      var leftDraw := random.Random();
      assert leftDraw == Draw(start, base + 3);
      var topDraw := random.Random();
      assert topDraw == Draw(start, base + 4);
      var point := PointFrom(index, color, sizeDraw, opacityDraw, leftDraw, topDraw, style, show);
      assert point == PointAt(start, index, paletteColors, style, show);
      points := points + [point];
      index := index + 1;
    }
  }

  /**
   * `generatePointPattern(count, hashStringToSeed(seedText), colors)`, the way
   * both documents call it: the points of the pattern seeded by the text, each
   * on the page.
   */
  method SeededPattern(count: nat, seedText: string, colors: seq<Value>, style: PatternStyle, show: Value -> string)
    returns (points: seq<Point>)
    requires colors != []
    requires style.sizeSpread > 0.0 && style.pageWidth > 0.0 && style.pageHeight > 0.0
    ensures |points| == count
    ensures forall i :: 0 <= i < count ==>
      points[i] == PointAt(SeedOf(seedText), i, colors, style, show) && points[i].color == colors[i % |colors|]
    ensures forall i :: 0 <= i < count ==>
      0.0 <= points[i].left < style.pageWidth && 0.0 <= points[i].top < style.pageHeight
      && 3.0 <= points[i].size < 3.0 + style.sizeSpread && 0.18 <= points[i].opacity < 0.5
  {
    var seed := HashStringToSeed(seedText);
    points := GeneratePointPattern(count, seed, colors, style, show);
    PatternOnPage(points, seed, colors, style, show);
  }

  /**
   * From a state in the generator's range (every positive seed starts in
   * one) every point lies on the page, its size is in [3, 3 + spread) and
   * its opacity in [0.18, 0.5).
   */
  lemma PointBounds(start: int, index: nat, palette: seq<Value>, style: PatternStyle, show: Value -> string)
    requires 1 <= start < Modulus && palette != []
    requires style.sizeSpread > 0.0 && style.pageWidth > 0.0 && style.pageHeight > 0.0
    ensures var p := PointAt(start, index, palette, style, show);
      0.0 <= p.left < style.pageWidth && 0.0 <= p.top < style.pageHeight
      && 3.0 <= p.size < 3.0 + style.sizeSpread && 0.18 <= p.opacity < 0.5
  {
    DrawInRange(start, 4 * index + 1);
    DrawInRange(start, 4 * index + 2);
    DrawInRange(start, 4 * index + 3);
    DrawInRange(start, 4 * index + 4);
    FieldBounds(index, palette[index % |palette|], style, show,
      Draw(start, 4 * index + 1), Draw(start, 4 * index + 2), Draw(start, 4 * index + 3), Draw(start, 4 * index + 4));
  }

  /** Every point of a generated pattern lies on the page, with its size and opacity in range. */
  lemma PatternOnPage(points: seq<Point>, start: int, palette: seq<Value>, style: PatternStyle, show: Value -> string)
    requires 1 <= start < Modulus && palette != []
    requires style.sizeSpread > 0.0 && style.pageWidth > 0.0 && style.pageHeight > 0.0
    requires forall i :: 0 <= i < |points| ==> points[i] == PointAt(start, i, palette, style, show)
    ensures forall i :: 0 <= i < |points| ==>
      0.0 <= points[i].left < style.pageWidth && 0.0 <= points[i].top < style.pageHeight
      && 3.0 <= points[i].size < 3.0 + style.sizeSpread && 0.18 <= points[i].opacity < 0.5
  {
    forall i | 0 <= i < |points|
      ensures 0.0 <= points[i].left < style.pageWidth && 0.0 <= points[i].top < style.pageHeight
      ensures 3.0 <= points[i].size < 3.0 + style.sizeSpread && 0.18 <= points[i].opacity < 0.5
    {
      PointBounds(start, i, palette, style, show);
    }
  }

  /** The bounds of a point's fields, given draws in [0, 1). */
  lemma FieldBounds(index: nat, color: Value, style: PatternStyle, show: Value -> string,
                    sizeDraw: real, opacityDraw: real, leftDraw: real, topDraw: real)
    requires style.sizeSpread > 0.0 && style.pageWidth > 0.0 && style.pageHeight > 0.0
    requires 0.0 <= sizeDraw < 1.0 && 0.0 <= opacityDraw < 1.0 && 0.0 <= leftDraw < 1.0 && 0.0 <= topDraw < 1.0
    ensures var p := PointFrom(index, color, sizeDraw, opacityDraw, leftDraw, topDraw, style, show);
      0.0 <= p.left < style.pageWidth && 0.0 <= p.top < style.pageHeight
      && 3.0 <= p.size < 3.0 + style.sizeSpread && 0.18 <= p.opacity < 0.5
  {
    var size, opacity := sizeDraw * style.sizeSpread, opacityDraw * 0.32;
    var left, top := leftDraw * style.pageWidth, topDraw * style.pageHeight;
    ScaleBelow(sizeDraw, style.sizeSpread);
    ScaleBelow(opacityDraw, 0.32);
    ScaleBelow(leftDraw, style.pageWidth);
    ScaleBelow(topDraw, style.pageHeight);
    assert PointFrom(index, color, sizeDraw, opacityDraw, leftDraw, topDraw, style, show)
      == Point(PointKey(index, color, show), left, top, 3.0 + size, 0.18 + opacity, color);
  }

  /** Every draw from a state in range lies in [0, 1). */
  lemma DrawInRange(start: int, n: nat)
    requires 1 <= start < Modulus
    ensures 0.0 <= Draw(start, n) < 1.0
  {
    AdvanceInRange(start, n);
    UnitBounds(Advance(start, n));
  }

  /** Colours cycle: points a palette length apart share their colour. */
  lemma ColoursCycle(start: int, i: nat, palette: seq<Value>, style: PatternStyle, show: Value -> string)
    requires palette != []
    ensures PointAt(start, i + |palette|, palette, style, show).color == PointAt(start, i, palette, style, show).color
  {
    ModuloShift(i, |palette|);
  }

  /** Points of one pattern have different keys. */
  lemma PointKeysDistinct(start: int, i: nat, j: nat, palette: seq<Value>, style: PatternStyle, show: Value -> string)
    requires palette != [] && i != j
    ensures PointAt(start, i, palette, style, show).key != PointAt(start, j, palette, style, show).key
  {
    var ki := PointAt(start, i, palette, style, show).key;
    var kj := PointAt(start, j, palette, style, show).key;
    if ki == kj {
      var ci := Display(palette[i % |palette|], show);
      var cj := Display(palette[j % |palette|], show);
      assert ki == NatToString(i) + ['-'] + ci;
      assert kj == NatToString(j) + ['-'] + cj;
      NumberPrefixDetermined(i, j, '-', ci, cj);
    }
  }

  // ---------------------------------------------------------------------------
  // Colours
  // ---------------------------------------------------------------------------

  /** `.filter(Boolean)` */
  function FilterTruthy(vs: seq<Value>): (r: seq<Value>)
    ensures |r| <= |vs|
    ensures forall i :: 0 <= i < |r| ==> Truthy(r[i])
  {
    if vs == [] then [] else (if Truthy(vs[0]) then [vs[0]] else []) + FilterTruthy(vs[1..])
  }

  /** The filter keeps exactly the truthy entries: each kept entry comes from the list, and every truthy entry is kept. */
  lemma {:induction false} FilterTruthyMembers(vs: seq<Value>)
    ensures forall i :: 0 <= i < |FilterTruthy(vs)| ==> FilterTruthy(vs)[i] in vs
    ensures forall i :: 0 <= i < |vs| && Truthy(vs[i]) ==> vs[i] in FilterTruthy(vs)
    decreases |vs|
  {
    if vs != [] {
      FilterTruthyMembers(vs[1..]);
      var r, t := FilterTruthy(vs), FilterTruthy(vs[1..]);
      var head := if Truthy(vs[0]) then [vs[0]] else [];
      assert r == head + t;
      forall i | 0 <= i < |r| ensures r[i] in vs {
        if i >= |head| {
          assert r[i] == t[i - |head|];
          assert t[i - |head|] in vs[1..];
        }
      }
      forall i | 0 <= i < |vs| && Truthy(vs[i]) ensures vs[i] in r {
        if i > 0 {
          assert vs[i] == vs[1..][i - 1];
        }
      }
    }
  }

  /** Filtering keeps a truthy tail: the last entries survive when they are truthy. */
  lemma {:induction false} FilterTruthyAppend(a: seq<Value>, b: seq<Value>)
    ensures FilterTruthy(a + b) == FilterTruthy(a) + FilterTruthy(b)
    decreases |a|
  {
    if a != [] {
      assert (a + b)[1..] == a[1..] + b;
      FilterTruthyAppend(a[1..], b);
    } else {
      assert a + b == b;
    }
  }

  /** A list without falsy entries passes the filter unchanged. */
  lemma {:induction false} FilterTruthyKeepsTruthy(vs: seq<Value>)
    requires forall i :: 0 <= i < |vs| ==> Truthy(vs[i])
    ensures FilterTruthy(vs) == vs
    decreases |vs|
  {
    if vs != [] {
      FilterTruthyKeepsTruthy(vs[1..]);
      assert [vs[0]] + vs[1..] == vs;
    }
  }

  /** Truthy leading entries and a truthy last entry: the filtered list starts with those entries and is longer. */
  lemma TruthyPrefixLeads(vs: seq<Value>, n: nat)
    requires n < |vs| && Truthy(vs[|vs| - 1])
    requires forall i :: 0 <= i < n ==> Truthy(vs[i])
    ensures n < |FilterTruthy(vs)| && FilterTruthy(vs)[..n] == vs[..n]
  {
    var lead, rest := vs[..n], vs[n..];
    assert lead + rest == vs;
    FilterTruthyAppend(lead, rest);
    FilterTruthyKeepsTruthy(lead);
    var kept := FilterTruthy(rest);
    assert FilterTruthy(vs) == lead + kept;
    var mid, last := rest[..|rest| - 1], rest[|rest| - 1..];
    assert mid + last == rest;
    FilterTruthyAppend(mid, last);
    FilterTruthyKeepsTruthy(last);
    assert |kept| == |FilterTruthy(mid)| + 1;
    assert (lead + kept)[..n] == lead;
  }

  /**
   * `theme?.variants || []` as `getVariant` and `variants[0..2]` read it: an array's
   * items, a string's characters (each a one-character string), and no variants for
   * anything else.
   */
  function ThemeVariants(theme: Value): (r: seq<Value>)
    ensures Get(theme, "variants").Arr? ==> r == Get(theme, "variants").items
    ensures Get(theme, "variants").Str? ==> var text := Get(theme, "variants").s;
      |r| == |text| && forall i :: 0 <= i < |r| ==> r[i] == Str([text[i]])
    ensures !Truthy(Get(theme, "variants")) ==> r == []
  {
    match Get(theme, "variants")
    case Arr(items) => items
    case Str(text) => seq(|text|, i requires 0 <= i < |text| => Str([text[i]]))
    case _ => []
  }

  /** `getVariant(index, fallback)`: the variant at `index` modulo their number when it is truthy, otherwise the fallback. */
  lemma GetVariantChoice(variants: seq<Value>, index: nat, fallback: Value)
    ensures variants == [] ==> AllData.GetVariant(variants, index, fallback) == fallback
    ensures variants != [] && Truthy(variants[index % |variants|]) ==>
      AllData.GetVariant(variants, index, fallback) == variants[index % |variants|]
    ensures variants != [] && !Truthy(variants[index % |variants|]) ==>
      AllData.GetVariant(variants, index, fallback) == fallback
  {
  }
}
