/**
 * The decorative layer of floating dots behind the resume site: the CSS
 * colour variable a configured colour key stands for, the clamped dot count,
 * the seed the dot layout is derived from, and the list of dots an enabled
 * layer holds.
 */
module BackgroundOverlay {
  import opened Wrappers
  import opened Text
  import opened JsValue

  // ---------------------------------------------------------------------------
  // toCssVar
  // ---------------------------------------------------------------------------

  /** The palette keys the site defines colour variables for. */
  const ColorKeys: set<string> := {
    "primary", "secondary", "background", "surface", "surfaceMuted",
    "surfaceElevation", "text", "textMuted", "border", "emphasis" }

  /** `replace(/([a-z])([A-Z])/g, "$1-$2")`: a "-" between a lower-case letter and the upper-case letter after it. */
  function SplitCamel(s: string): (r: string)
    decreases |s|
  {
    if s == [] then []
    else if |s| >= 2 && IsLower(s[0]) && IsUpper(s[1]) then [s[0], '-', s[1]] + SplitCamel(s[2..])
    else [s[0]] + SplitCamel(s[1..])
  }

  /** The kebab-case name of a colour key: split camel case, "_" to "-", then lower case. */
  function NormalizeKey(key: string): (r: string)
    ensures forall i :: 0 <= i < |r| ==> !IsUpper(r[i]) && r[i] != '_'
  {
    ToLower(ReplaceChar(SplitCamel(key), '_', '-'))
  }

  /** `toCssVar(key)`: `None` is the TypeError a truthy key that is not a string raises. */
  function ToCssVar(key: Value): (r: Option<string>)
    ensures !Truthy(key) ==> r == Some("var(--color-primary)")
    ensures key.Str? && key.s != "" && (StartsWith(key.s, "#") || StartsWith(key.s, "rgb")) ==> r == Some(key.s)
    ensures key.Str? && key.s != "" && !StartsWith(key.s, "#") && !StartsWith(key.s, "rgb") ==>
      r == Some("var(--color-" + NormalizeKey(key.s) + ")")
    ensures Truthy(key) && !key.Str? ==> r.None?
  {
    if !Truthy(key) then Some("var(--color-primary)")
    else if !key.Str? then None
    else if StartsWith(key.s, "#") || StartsWith(key.s, "rgb") then Some(key.s)
    else if key.s in ColorKeys || NormalizeKey(key.s) in ColorKeys then Some("var(--color-" + NormalizeKey(key.s) + ")")
    else Some("var(--color-" + NormalizeKey(key.s) + ")")
  }

  /** Without upper-case letters there is nothing to split. */
  lemma {:induction false} SplitCamelNoUpper(s: string)
    requires forall i :: 0 <= i < |s| ==> !IsUpper(s[i])
    ensures SplitCamel(s) == s
    decreases |s|
  {
    if s != [] {
      SplitCamelNoUpper(s[1..]);
      assert [s[0]] + s[1..] == s;
    }
  }

  /** A kebab-case name is its own normal form, so normalising twice changes nothing. */
  lemma NormalizeIdempotent(key: string)
    ensures NormalizeKey(NormalizeKey(key)) == NormalizeKey(key)
  {
    var n := NormalizeKey(key);
    SplitCamelNoUpper(n);
    assert ReplaceChar(n, '_', '-') == n;
    assert ToLower(n) == n;
  }

  /** Lower-case letters only. */
  predicate LowerWord(s: string) {
    forall i :: 0 <= i < |s| ==> IsLower(s[i])
  }

  /** Splitting runs over a lower-case prefix up to the first upper-case letter. */
  lemma {:induction false} SplitCamelAtCapital(a: string, c: char, b: string)
    requires a != [] && LowerWord(a) && IsUpper(c)
    ensures SplitCamel(a + [c] + b) == a + ['-', c] + SplitCamel(b)
    decreases |a|
  {
    var s := a + [c] + b;
    if |a| == 1 {
      assert s[2..] == b;
    } else {
      assert s[1..] == a[1..] + [c] + b;
      SplitCamelAtCapital(a[1..], c, b);
      assert [a[0]] + a[1..] == a;
    }
  }

  /**
   * A two-word palette key such as "surfaceMuted" becomes "surface-muted":
   * the hyphen goes before the capital, which is lowered.
   */
  lemma TwoWordKey(a: string, c: char, b: string)
    requires a != [] && LowerWord(a) && IsUpper(c) && LowerWord(b)
    ensures NormalizeKey(a + [c] + b) == a + ['-', LowerChar(c)] + b
  {
    SplitCamelAtCapital(a, c, b);
    SplitCamelNoUpper(b);
    var split := a + ['-', c] + b;
    assert ReplaceChar(split, '_', '-') == split;
    var r := ToLower(split);
    assert forall i :: 0 <= i < |split| ==> r[i] == (a + ['-', LowerChar(c)] + b)[i];
  }

  // ---------------------------------------------------------------------------
  // Density, seed and dots
  // ---------------------------------------------------------------------------

  /** `Math.max(10, Math.min(overlayDensity || 80, 200))`; `None` is an unset density. */
  function ClampDensity(configured: Option<int>): (r: int)
    ensures 10 <= r <= 200
    ensures configured.None? || configured.value == 0 ==> r == 80
    ensures configured.Some? && 10 <= configured.value <= 200 ==> r == configured.value
    ensures configured.Some? && configured.value > 200 ==> r == 200
    ensures configured.Some? && configured.value != 0 && configured.value < 10 ==> r == 10
  {
    var d := if configured.None? || configured.value == 0 then 80 else configured.value;
    var low := if d < 200 then d else 200;
    if 10 < low then low else 10
  }

  /** `(activeThemeId?.length || 1) * 31 + density * 17 + (themeMode === "dark" ? 97 : 53)` */
  function Seed(themeId: Option<string>, density: int, themeMode: Value): (r: int)
    ensures 10 <= density ==> r > 0
  {
    var idLength := if themeId.None? || themeId.value == "" then 1 else |themeId.value|;
    idLength * 31 + density * 17 + (if themeMode == Str("dark") then 97 else 53)
  }

  /** The dark layer's seed is the light one's plus 44, so the two layouts differ. */
  lemma DarkSeedDiffers(themeId: Option<string>, density: int)
    ensures Seed(themeId, density, Str("dark")) == Seed(themeId, density, Str("light")) + 44
  {
  }

  /** A dot of the layer; only its id is modelled (the rest is drawn from a floating-point sine sequence). */
  datatype Dot = Dot(id: string)

  /** `${seed}-${index}` */
  function DotId(seed: nat, index: nat): (r: string)
  {
    NatToString(seed) + "-" + NatToString(index)
  }

  /** Dots of one layer have different ids, so each keeps its own element. */
  lemma DotIdsDistinct(seed: nat, i: nat, j: nat)
    requires i != j
    ensures DotId(seed, i) != DotId(seed, j)
  {
    if DotId(seed, i) == DotId(seed, j) {
      var p := NatToString(seed) + "-";
      assert DotId(seed, i)[|p|..] == NatToString(i);
      assert DotId(seed, j)[|p|..] == NatToString(j);
      NatToStringInjective(i, j);
    }
  }

  /** `generatePositions(count, seed, config)`: one dot per index. */
  method GeneratePositions(count: nat, seed: nat) returns (positions: seq<Dot>)
    ensures |positions| == count
    ensures forall i :: 0 <= i < count ==> positions[i].id == DotId(seed, i)
  {
    positions := [];
    var index := 0;
    while index < count
      invariant 0 <= index <= count && |positions| == index
      invariant forall i :: 0 <= i < index ==> positions[i].id == DotId(seed, i)
    {
      positions := positions + [Dot(DotId(seed, index))];
      index := index + 1;
    }
  }

  /** Whether the layer renders at all: `null` when `enabled` is falsy. */
  predicate Renders(enabled: Value) {
    Truthy(enabled)
  }

  /** The layer's dot state. */
  class Overlay {
    var dots: seq<Dot>

    constructor()
      ensures dots == []
    {
      dots := [];
    }

    /** The effect that recomputes the dots: none when disabled; otherwise the clamped density's worth. */
    method Refresh(enabled: Value, density: Option<int>, themeId: Option<string>, themeMode: Value)
      modifies this
      ensures !Truthy(Coalesce(enabled, Bool(false))) ==> dots == []
      ensures Truthy(Coalesce(enabled, Bool(false))) ==>
        var count := ClampDensity(density);
        var seed := Seed(themeId, count, themeMode);
        |dots| == count && forall i :: 0 <= i < count ==> dots[i].id == DotId(seed, i)
    {
      if !Truthy(Coalesce(enabled, Bool(false))) {
        dots := [];
        return;
      }
      var count := ClampDensity(density);
      var seed := Seed(themeId, count, themeMode);
      dots := GeneratePositions(count, seed);
    }
  }

  /** The effect and the render agree: a layer that renders holds dots and one that does not holds none. */
  lemma RenderAgreesWithDots(enabled: Value)
    ensures Renders(enabled) <==> Truthy(Coalesce(enabled, Bool(false)))
  {
  }
}
