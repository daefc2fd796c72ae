/**
 * The "bostami" PDF resume: its accent colours, the colours and seed of the
 * point pattern it draws behind a dark page, and the choice between a
 * pattern and none.
 */
module BostamiTemplate {
  import opened JsValue
  import AllData
  import opened PdfPattern

  /** An A3 page in points, sizes in [3, 12) and slate grey when there are no colours. */
  const Style: PatternStyle := PatternStyle(9.0, 842.0, 1191.0, Str("#4A5568"))

  /** `theme?.palette || {}` */
  function ThemePalette(theme: Value): (r: Value)
    ensures Truthy(r)
    ensures Truthy(Get(theme, "palette")) ==> r == Get(theme, "palette")
  {
    Or(Get(theme, "palette"), Obj([]))
  }

  /** The colours the page styles are drawn in. */
  datatype Accents = Accents(primary: Value, one: Value, two: Value, three: Value, softBorder: Value)

  /** The primary colour, the three accents picked from the variants and the soft border, each with its fallback. */
  function AccentColors(theme: Value): (r: Accents)
    ensures Truthy(r.primary) && Truthy(r.one) && Truthy(r.two) && Truthy(r.three) && Truthy(r.softBorder)
    ensures r.primary == Or(Get(ThemePalette(theme), "primary"), Str("#FA5252"))
    ensures r.softBorder == Or(Get(ThemePalette(theme), "border"), Str("#EDF2F2"))
    ensures ThemeVariants(theme) == [] ==> r.one == Str("#6AB5B9") && r.two == Str("#C17CEB") && r.three == Str("#F95054")
    ensures ThemeVariants(theme) != [] && Truthy(ThemeVariants(theme)[0]) ==> r.one == ThemeVariants(theme)[0]
  {
    var palette := ThemePalette(theme);
    var variants := ThemeVariants(theme);
    Accents(
      Or(Get(palette, "primary"), Str("#FA5252")),
      AllData.GetVariant(variants, 0, Str("#6AB5B9")),
      AllData.GetVariant(variants, 1, Str("#C17CEB")),
      AllData.GetVariant(variants, 2, Str("#F95054")),
      Or(Get(palette, "border"), Str("#EDF2F2")))
  }

  /** `theme?.mode || localStorage.getItem("theme")`; the stored value is a parameter. */
  function ThemeMode(theme: Value, stored: Value): (r: Value)
    ensures Truthy(Get(theme, "mode")) ==> r == Get(theme, "mode")
    ensures !Truthy(Get(theme, "mode")) ==> r == stored
  {
    Or(Get(theme, "mode"), stored)
  }

  /** The two greys that close the point colours. */
  const Greys: seq<Value> := [Str("#4A5568"), Str("#718096")]

  /** The colours the points may take, in order: primary, secondary, the first three variants and the two greys. */
  function PointCandidates(theme: Value): (r: seq<Value>)
    ensures |r| == 7 && r[5..] == Greys
  {
    var palette := ThemePalette(theme);
    var variants := ThemeVariants(theme);
    [Get(palette, "primary"), Get(palette, "secondary"), At(variants, 0), At(variants, 1), At(variants, 2)] + Greys
  }

  /** `pointColors`: the candidates without the falsy ones, so the two greys always close the list. */
  function PointColors(theme: Value): (r: seq<Value>)
    ensures 2 <= |r| <= 7 && r[|r| - 2..] == Greys
    ensures forall i :: 0 <= i < |r| ==> Truthy(r[i])
  {
    var candidates := PointCandidates(theme);
    FilterTruthyAppend(candidates[..5], candidates[5..]);
    FilterTruthyKeepsTruthy(Greys);
    assert candidates[..5] + candidates[5..] == candidates;
    FilterTruthy(candidates)
  }

  /** A palette with truthy primary and secondary colours puts them first, then the variants. */
  lemma PrimaryLeadsPointColors(theme: Value)
    requires Truthy(Get(ThemePalette(theme), "primary")) && Truthy(Get(ThemePalette(theme), "secondary"))
    ensures 3 <= |PointColors(theme)| && PointColors(theme)[..2] == PointCandidates(theme)[..2]
  {
    CandidatesLead(theme);
    TruthyPrefixLeads(PointCandidates(theme), 2);
  }

  lemma CandidatesLead(theme: Value)
    requires Truthy(Get(ThemePalette(theme), "primary")) && Truthy(Get(ThemePalette(theme), "secondary"))
    ensures var c := PointCandidates(theme); Truthy(c[6]) && forall i :: 0 <= i < 2 ==> Truthy(c[i])
  {
    var palette := ThemePalette(theme);
    var variants := ThemeVariants(theme);
    GreysTruthy();
    SevenLead(Get(palette, "primary"), Get(palette, "secondary"), At(variants, 0), At(variants, 1), At(variants, 2), Greys);
  }

  lemma GreysTruthy()
    ensures |Greys| == 2 && Truthy(Greys[1])
  {
  }

  lemma SevenLead(a: Value, b: Value, c: Value, d: Value, e: Value, greys: seq<Value>)
    requires Truthy(a) && Truthy(b) && |greys| == 2 && Truthy(greys[1])
    ensures var s := [a, b, c, d, e] + greys; Truthy(s[6]) && forall i :: 0 <= i < 2 ==> Truthy(s[i])
  {
  }

  /** `${data?.name || "bostami"}-${themeMode || "light"}` */
  function SeedText(data: Value, themeMode: Value, show: Value -> string): string {
    Display(Or(Get(data, "name"), Str("bostami")), show) + "-" + Display(Or(themeMode, Str("light")), show)
  }

  /** An unset mode seeds the pattern like "light". */
  lemma UnsetModeSeedsAsLight(data: Value, show: Value -> string)
    ensures SeedText(data, Null, show) == SeedText(data, Str("light"), show)
    ensures SeedText(data, Undefined, show) == SeedText(data, Str("light"), show)
  {
  }

  /** `themeMode === "dark"` */
  predicate IsDark(themeMode: Value) {
    themeMode == Str("dark")
  }

  /**
   * The document's background pattern: 220 points drawn from the seed text's
   * hash and cycling through the point colours on a dark page, and none on
   * any other.
   */
  method DocumentPattern(theme: Value, stored: Value, data: Value, show: Value -> string) returns (points: seq<Point>)
    ensures !IsDark(ThemeMode(theme, stored)) ==> points == []
    ensures IsDark(ThemeMode(theme, stored)) ==>
      var colors := PointColors(theme);
      |points| == 220
      && forall i :: 0 <= i < |points| ==>
        points[i] == PointAt(SeedOf(SeedText(data, ThemeMode(theme, stored), show)), i, colors, Style, show)
        && points[i].color == colors[i % |colors|]
    ensures forall i :: 0 <= i < |points| ==>
      0.0 <= points[i].left < 842.0 && 0.0 <= points[i].top < 1191.0
      && 3.0 <= points[i].size < 12.0 && 0.18 <= points[i].opacity < 0.5
  {
    var mode := ThemeMode(theme, stored);
    if IsDark(mode) {
      points := SeededPattern(220, SeedText(data, mode, show), PointColors(theme), Style, show);
    } else {
      points := [];
    }
  }
}
