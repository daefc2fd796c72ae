/**
 * The "ryancv" PDF resume: the palette it completes from the theme, the
 * colours and seed of its background point pattern, the lists it reads from
 * the resume data, and how it formats date ranges and skill percentages.
 */
module RyancvTemplate {
  import opened Wrappers
  import opened Text
  import opened JsValue
  import opened StepUtils
  import AllData
  import opened PdfPattern

  /** An A4 page in points, sizes in [3, 10) and white when there are no colours. */
  const Style: PatternStyle := PatternStyle(7.0, 595.0, 842.0, Str("#FFFFFF"))

  // ---------------------------------------------------------------------------
  // Palette and point colours
  // ---------------------------------------------------------------------------

  /** `theme?.mode || "light"` */
  function ThemeMode(theme: Value): (r: Value)
    ensures Truthy(r)
    ensures Truthy(Get(theme, "mode")) ==> r == Get(theme, "mode")
    ensures !Truthy(Get(theme, "mode")) ==> r == Str("light")
  {
    Or(Get(theme, "mode"), Str("light"))
  }

  /** `{ ...(theme?.palette || {}) }` */
  function ThemePalette(theme: Value): (r: Fields)
    ensures Get(theme, "palette").Obj? ==> r == Get(theme, "palette").fields
    ensures !Truthy(Get(theme, "palette")) ==> r == []
  {
    SpreadSource(Or(Get(theme, "palette"), Obj([])))
  }

  /**
   * The palette with its background and text completed: in dark mode the
   * theme's own values or near-black and near-white; otherwise the surface
   * colour (or the background) and dark grey text.
   */
  function AdjustedPalette(theme: Value, themeMode: Value): (r: Fields)
    ensures Truthy(Lookup(r, "background")) && Truthy(Lookup(r, "text"))
    ensures forall k :: k != "background" && k != "text" ==> Lookup(r, k) == Lookup(ThemePalette(theme), k)
    ensures Truthy(Lookup(ThemePalette(theme), "text")) ==> Lookup(r, "text") == Lookup(ThemePalette(theme), "text")
    ensures themeMode == Str("dark") && Truthy(Lookup(ThemePalette(theme), "background")) ==>
      Lookup(r, "background") == Lookup(ThemePalette(theme), "background")
    ensures themeMode != Str("dark") && Truthy(Lookup(ThemePalette(theme), "surface")) ==>
      Lookup(r, "background") == Lookup(ThemePalette(theme), "surface")
    ensures !Truthy(Lookup(ThemePalette(theme), "background")) && !Truthy(Lookup(ThemePalette(theme), "surface")) ==>
      Lookup(r, "background") == (if themeMode == Str("dark") then Str("#050505") else Str("#F5F5F5"))
  {
    var base := ThemePalette(theme);
    if themeMode == Str("dark") then
      var background := Or(Lookup(base, "background"), Str("#050505"));
      var text := Or(Lookup(base, "text"), Str("#F5F5F5"));
      PutTwo(base, "background", "text", background, text);
      Put(Put(base, "background", background), "text", text)
    else
      var background := Or(Or(Lookup(base, "surface"), Lookup(base, "background")), Str("#F5F5F5"));
      var text := Or(Lookup(base, "text"), Str("#1F2933"));
      PutTwo(base, "background", "text", background, text);
      Put(Put(base, "background", background), "text", text)
  }

  /** The palette with the three variant colours `variant1`..`variant3` added. */
  function EnhancedPalette(palette: Fields, variants: seq<Value>): (r: Fields)
    ensures Truthy(Lookup(r, "variant1")) && Truthy(Lookup(r, "variant2")) && Truthy(Lookup(r, "variant3"))
    ensures forall k :: k != "variant1" && k != "variant2" && k != "variant3" ==> Lookup(r, k) == Lookup(palette, k)
    ensures variants == [] ==>
      Lookup(r, "variant1") == Or(Lookup(palette, "secondary"), Str("#4ACCF7"))
      && Lookup(r, "variant2") == Or(Lookup(palette, "primary"), Str("#FF4C60"))
      && Lookup(r, "variant3") == Str("#FFB66D")
    ensures variants != [] && Truthy(variants[0]) ==> Lookup(r, "variant1") == variants[0]
    ensures |variants| > 1 && Truthy(variants[1]) ==> Lookup(r, "variant2") == variants[1]
    ensures |variants| > 2 && Truthy(variants[2]) ==> Lookup(r, "variant3") == variants[2]
  {
    var one := AllData.GetVariant(variants, 0, Or(Lookup(palette, "secondary"), Str("#4ACCF7")));
    var two := AllData.GetVariant(variants, 1, Or(Lookup(palette, "primary"), Str("#FF4C60")));
    var three := AllData.GetVariant(variants, 2, Str("#FFB66D"));
    VariantFallbacksTruthy(palette);
    assert Truthy(one) && Truthy(two) && Truthy(three);
    PutThree(palette, "variant1", "variant2", "variant3", one, two, three);
    Put(Put(Put(palette, "variant1", one), "variant2", two), "variant3", three)
  }

  /** The fallbacks of the three variants are never falsy. */
  lemma VariantFallbacksTruthy(palette: Fields)
    ensures Truthy(Or(Lookup(palette, "secondary"), Str("#4ACCF7"))) && Truthy(Or(Lookup(palette, "primary"), Str("#FF4C60")))
      && Truthy(Str("#FFB66D"))
  {
  }

  /** The neutral colour that closes the point colours. */
  function ModeGrey(themeMode: Value): Value {
    if themeMode == Str("dark") then Str("#2D3748") else Str("#E2E8F0")
  }

  /** The colours the points may take, in order: the three variants, the secondary and primary colours and the mode's grey. */
  function PointCandidates(palette: Fields, themeMode: Value): (r: seq<Value>)
    ensures |r| == 6 && r[5] == ModeGrey(themeMode)
  {
    [Lookup(palette, "variant1"), Lookup(palette, "variant2"), Lookup(palette, "variant3"),
      Lookup(palette, "secondary"), Lookup(palette, "primary"), ModeGrey(themeMode)]
  }

  /** `pointColors`: the candidates without the falsy ones. */
  function PointColors(palette: Fields, themeMode: Value): (r: seq<Value>)
    ensures r != [] && r[|r| - 1] == ModeGrey(themeMode)
    ensures forall i :: 0 <= i < |r| ==> Truthy(r[i])
    ensures |r| <= 6
  {
    var candidates := PointCandidates(palette, themeMode);
    FilterTruthyAppend(candidates[..5], candidates[5..]);
    FilterTruthyKeepsTruthy(candidates[5..]);
    assert candidates[..5] + candidates[5..] == candidates;
    FilterTruthy(candidates)
  }

  /** The point colours the document uses for a theme. */
  function DocumentColors(theme: Value): (r: seq<Value>)
    ensures r != [] && PaletteColors(r, Style) == r
  {
    var mode := ThemeMode(theme);
    PointColors(EnhancedPalette(AdjustedPalette(theme, mode), ThemeVariants(theme)), mode)
  }

  /**
   * With the three variant colours truthy, as an enhanced palette's always
   * are, the point colours start with them.
   */
  lemma VariantsLeadPointColors(palette: Fields, themeMode: Value)
    requires Truthy(Lookup(palette, "variant1")) && Truthy(Lookup(palette, "variant2")) && Truthy(Lookup(palette, "variant3"))
    ensures var colors := PointColors(palette, themeMode);
      4 <= |colors| && colors[..3] == PointCandidates(palette, themeMode)[..3]
  {
    CandidatesLead(palette, themeMode);
    TruthyPrefixLeads(PointCandidates(palette, themeMode), 3);
  }

  /** With truthy variants, the first three candidates and the closing grey are truthy. */
  lemma CandidatesLead(palette: Fields, themeMode: Value)
    requires Truthy(Lookup(palette, "variant1")) && Truthy(Lookup(palette, "variant2")) && Truthy(Lookup(palette, "variant3"))
    ensures var c := PointCandidates(palette, themeMode);
      Truthy(c[5]) && forall i :: 0 <= i < 3 ==> Truthy(c[i])
  {
    ModeGreyTruthy(themeMode);
    SixLead(Lookup(palette, "variant1"), Lookup(palette, "variant2"), Lookup(palette, "variant3"),
      Lookup(palette, "secondary"), Lookup(palette, "primary"), ModeGrey(themeMode));
  }

  /** The grey of either mode is a non-empty colour. */
  lemma ModeGreyTruthy(themeMode: Value)
    ensures Truthy(ModeGrey(themeMode))
  {
  }

  lemma SixLead(a: Value, b: Value, c: Value, d: Value, e: Value, f: Value)
    requires Truthy(a) && Truthy(b) && Truthy(c) && Truthy(f)
    ensures var s := [a, b, c, d, e, f]; Truthy(s[5]) && forall i :: 0 <= i < 3 ==> Truthy(s[i])
  {
  }

  // ---------------------------------------------------------------------------
  // Seed and pattern
  // ---------------------------------------------------------------------------

  /** `${theme?.id || "theme"}-${themeMode}-${data?.name || "cv"}` */
  function SeedText(theme: Value, themeMode: Value, data: Value, show: Value -> string): string {
    Display(Or(Get(theme, "id"), Str("theme")), show) + "-" + Display(themeMode, show) + "-"
      + Display(Or(Get(data, "name"), Str("cv")), show)
  }

  /** Switching the same theme and resume between light and dark changes the text the seed is hashed from. */
  lemma ModeChangesSeedText(theme: Value, data: Value, show: Value -> string)
    ensures SeedText(theme, Str("dark"), data, show) != SeedText(theme, Str("light"), data, show)
  {
    var prefix := Display(Or(Get(theme, "id"), Str("theme")), show) + "-";
    var dark := SeedText(theme, Str("dark"), data, show);
    var light := SeedText(theme, Str("light"), data, show);
    assert dark[|prefix|] == 'd';
    assert light[|prefix|] == 'l';
  }

  /** `themeMode === "dark" ? 150 : 120` */
  function PointCount(themeMode: Value): (r: nat)
    ensures themeMode == Str("dark") <==> r == 150
    ensures themeMode != Str("dark") <==> r == 120
  {
    if themeMode == Str("dark") then 150 else 120
  }

  /**
   * The document's background pattern: the mode's number of points, drawn
   * from the hash of the seed text and coloured by cycling through the point
   * colours, each lying on the page.
   */
  method DocumentPattern(theme: Value, data: Value, show: Value -> string) returns (points: seq<Point>)
    ensures var mode := ThemeMode(theme);
      var colors := DocumentColors(theme);
      |points| == PointCount(mode)
      && forall i :: 0 <= i < |points| ==>
        points[i] == PointAt(SeedOf(SeedText(theme, mode, data, show)), i, colors, Style, show)
    ensures var colors := DocumentColors(theme);
      forall i :: 0 <= i < |points| ==> points[i].color == colors[i % |colors|]
    ensures forall i :: 0 <= i < |points| ==>
      0.0 <= points[i].left < 595.0 && 0.0 <= points[i].top < 842.0
      && 3.0 <= points[i].size < 10.0 && 0.18 <= points[i].opacity < 0.5
  {
    var mode := ThemeMode(theme);
    points := SeededPattern(PointCount(mode), SeedText(theme, mode, data, show), DocumentColors(theme), Style, show);
  }

  // ---------------------------------------------------------------------------
  // Data lists
  // ---------------------------------------------------------------------------

  /** `Array.isArray(data?.key) ? data.key : Array.isArray(data?.alternate) ? data.alternate : []` */
  function ListFallback(data: Value, key: string, alternate: string): (r: seq<Value>)
    ensures Get(data, key).Arr? ==> r == Get(data, key).items
    ensures !Get(data, key).Arr? ==> r == ListOf(data, alternate)
  {
    if Get(data, key).Arr? then Get(data, key).items else ListOf(data, alternate)
  }

  /** An array under the preferred key wins even when it is empty: the alternate key is read only when there is none. */
  lemma EmptyPreferredListWins(key: string, alternate: string, items: seq<Value>)
    requires key != alternate
    ensures ListFallback(Obj([(key, Arr([])), (alternate, Arr(items))]), key, alternate) == []
    ensures ListFallback(Obj([(key, Null), (alternate, Arr(items))]), key, alternate) == items
  {
    var withNull := [(key, Null), (alternate, Arr(items))];
    assert Lookup(withNull, alternate) == Lookup(withNull[1..], alternate);
  }

  /** The lists the document reads from the resume data. */
  datatype DocumentLists = DocumentLists(
    experiences: seq<Value>, education: seq<Value>, workingSkills: seq<Value>,
    languages: seq<Value>, knowledge: seq<Value>, whatIDo: seq<Value>)

  /** A knowledge entry: a string as it is, anything else by its `title`. */
  function KnowledgeTitle(item: Value): (r: Value)
    ensures item.Str? ==> r == item
    ensures !item.Str? ==> r == Get(item, "title")
  {
    if item.Str? then item else Get(item, "title")
  }

  /** `knowledgeEntries.map(item => typeof item === "string" ? item : item?.title).filter(Boolean)` */
  function Knowledge(entries: seq<Value>): (r: seq<Value>)
    ensures |r| <= |entries|
    ensures forall i :: 0 <= i < |r| ==> Truthy(r[i])
    ensures forall i :: 0 <= i < |entries| && entries[i].Str? && entries[i].s != [] ==> entries[i] in r
    ensures forall i :: 0 <= i < |entries| && !entries[i].Str? && Truthy(Get(entries[i], "title")) ==>
      Get(entries[i], "title") in r
  {
    var titles := seq(|entries|, i requires 0 <= i < |entries| => KnowledgeTitle(entries[i]));
    assert forall i :: 0 <= i < |entries| ==> titles[i] == KnowledgeTitle(entries[i]);
    FilterTruthyMembers(titles);
    FilterTruthy(titles)
  }

  /** Every entry of the knowledge list is one of the entries' own strings or titles. */
  lemma KnowledgeFromEntries(entries: seq<Value>, i: nat)
    requires i < |Knowledge(entries)|
    ensures exists j :: 0 <= j < |entries| && Knowledge(entries)[i] == KnowledgeTitle(entries[j])
  {
    var titles := seq(|entries|, j requires 0 <= j < |entries| => KnowledgeTitle(entries[j]));
    assert Knowledge(entries) == FilterTruthy(titles);
    FilterTruthyMembers(titles);
    var v := Knowledge(entries)[i];
    assert v in titles;
    var j :| 0 <= j < |titles| && titles[j] == v;
    assert v == KnowledgeTitle(entries[j]);
  }

  /** The document's lists, each from its first key that holds an array, with `[]` otherwise. */
  function Lists(data: Value): (r: DocumentLists)
    ensures r.experiences == ListFallback(data, "experiences", "experience")
    ensures r.education == ListFallback(data, "educations", "education")
    ensures r.workingSkills == ListFallback(data, "working_skills", "skills")
    ensures r.languages == ListOf(data, "languages")
    ensures r.knowledge == Knowledge(ListOf(data, "knowledge"))
    ensures r.whatIDo == ListFallback(data, "what_i_dos", "what_i_do")
  {
    DocumentLists(
      ListFallback(data, "experiences", "experience"),
      ListFallback(data, "educations", "education"),
      ListFallback(data, "working_skills", "skills"),
      ListOf(data, "languages"),
      Knowledge(ListOf(data, "knowledge")),
      ListFallback(data, "what_i_dos", "what_i_do"))
  }

  // ---------------------------------------------------------------------------
  // Dates
  // ---------------------------------------------------------------------------

  /** `formatDate(value)`: "" for a falsy value; the locale date text (a parameter) otherwise. */
  function FormatDate(value: Value, localeDate: Value -> string): (r: string)
    ensures !Truthy(value) ==> r == ""
    ensures Truthy(value) ==> r == localeDate(value)
  {
    if !Truthy(value) then "" else localeDate(value)
  }

  /** `formatRange(item)` */
  function FormatRange(item: Value, localeDate: Value -> string): (r: Value)
    ensures Truthy(Get(item, "date")) ==> r == Get(item, "date")
    ensures !Truthy(Get(item, "date")) ==> r.Str?
  {
    RangeOf(Get(item, "date"), Get(item, "start_date"), Get(item, "end_date"), Get(item, "current"), localeDate)
  }

  /** `formatRange` on the item's `date`, `start_date`, `end_date` and `current`. */
  function RangeOf(date: Value, startDate: Value, endDate: Value, current: Value, localeDate: Value -> string): Value {
    if Truthy(date) then date
    else
      var start := FormatDate(startDate, localeDate);
      var end := if Truthy(current) then "Present" else FormatDate(endDate, localeDate);
      if start != "" && end != "" then Str(start + " - " + end)
      else if start != "" then Str(start)
      else Str(end)
  }

  /**
   * Without a `date`, a current entry ends in "Present", both ends give
   * "start - end", one end gives that end alone, and no dates give "".
   */
  lemma FormatRangeCases(item: Value, localeDate: Value -> string)
    requires !Truthy(Get(item, "date"))
    ensures var start := FormatDate(Get(item, "start_date"), localeDate);
      Truthy(Get(item, "current")) && start != "" ==> FormatRange(item, localeDate) == Str(start + " - Present")
    ensures var start := FormatDate(Get(item, "start_date"), localeDate);
      Truthy(Get(item, "current")) && start == "" ==> FormatRange(item, localeDate) == Str("Present")
    ensures var start := FormatDate(Get(item, "start_date"), localeDate);
      var end := FormatDate(Get(item, "end_date"), localeDate);
      !Truthy(Get(item, "current")) && start != "" && end != "" ==> FormatRange(item, localeDate) == Str(start + " - " + end)
    ensures var start := FormatDate(Get(item, "start_date"), localeDate);
      var end := FormatDate(Get(item, "end_date"), localeDate);
      !Truthy(Get(item, "current")) && start != "" && end == "" ==> FormatRange(item, localeDate) == Str(start)
    ensures var start := FormatDate(Get(item, "start_date"), localeDate);
      var end := FormatDate(Get(item, "end_date"), localeDate);
      !Truthy(Get(item, "current")) && start == "" ==> FormatRange(item, localeDate) == Str(end)
    ensures !Truthy(Get(item, "current")) && !Truthy(Get(item, "start_date")) && !Truthy(Get(item, "end_date"))
      ==> FormatRange(item, localeDate) == Str("")
  {
    RangeOfCases(Get(item, "date"), Get(item, "start_date"), Get(item, "end_date"), Get(item, "current"), localeDate);
  }

  lemma RangeOfCases(date: Value, startDate: Value, endDate: Value, current: Value, localeDate: Value -> string)
    requires !Truthy(date)
    ensures var start := FormatDate(startDate, localeDate);
      Truthy(current) && start != "" ==> RangeOf(date, startDate, endDate, current, localeDate) == Str(start + " - Present")
    ensures var start := FormatDate(startDate, localeDate);
      Truthy(current) && start == "" ==> RangeOf(date, startDate, endDate, current, localeDate) == Str("Present")
    ensures var start := FormatDate(startDate, localeDate);
      var end := FormatDate(endDate, localeDate);
      !Truthy(current) && start != "" && end != "" ==> RangeOf(date, startDate, endDate, current, localeDate) == Str(start + " - " + end)
    ensures var start := FormatDate(startDate, localeDate);
      var end := FormatDate(endDate, localeDate);
      !Truthy(current) && start != "" && end == "" ==> RangeOf(date, startDate, endDate, current, localeDate) == Str(start)
    ensures var start := FormatDate(startDate, localeDate);
      var end := FormatDate(endDate, localeDate);
      !Truthy(current) && start == "" ==> RangeOf(date, startDate, endDate, current, localeDate) == Str(end)
    ensures !Truthy(current) && !Truthy(startDate) && !Truthy(endDate) ==> RangeOf(date, startDate, endDate, current, localeDate) == Str("")
  {
    var start := FormatDate(startDate, localeDate);
    var r := RangeOf(date, startDate, endDate, current, localeDate);
    if Truthy(current) {
      if start != "" {
        assert r == Str(start + " - " + "Present");
      } else {
        assert r == Str("Present");
      }
    } else {
      var end := FormatDate(endDate, localeDate);
      assert r == if start != "" && end != "" then Str(start + " - " + end) else if start != "" then Str(start) else Str(end);
    }
  }

  // ---------------------------------------------------------------------------
  // Percentages
  // ---------------------------------------------------------------------------

  /** `Math.max(0, Math.min(value, 100))` */
  function Clamp(value: real): (r: real)
    ensures 0.0 <= r <= 100.0
    ensures 0.0 <= value <= 100.0 ==> r == value
    ensures value < 0.0 ==> r == 0.0
    ensures value > 100.0 ==> r == 100.0
  {
    if value < 0.0 then 0.0 else if value > 100.0 then 100.0 else value
  }

  /** `text.replace(/[^0-9.]/g, "")`: only the digits and dots. */
  function NumberChars(text: string): (r: string)
    ensures |r| <= |text|
    ensures forall i :: 0 <= i < |r| ==> IsDigit(r[i]) || r[i] == '.'
  {
    if text == [] then []
    else (if IsDigit(text[0]) || text[0] == '.' then [text[0]] else []) + NumberChars(text[1..])
  }

  /** Characters other than digits and dots, such as a trailing "%", are dropped. */
  lemma {:induction false} NumberCharsSkipsSuffix(text: string, suffix: string)
    requires forall i :: 0 <= i < |suffix| ==> !IsDigit(suffix[i]) && suffix[i] != '.'
    ensures NumberChars(text + suffix) == NumberChars(text)
    decreases |text|
  {
    if text == [] {
      NumberCharsDropsAll(suffix);
      assert text + suffix == suffix;
    } else {
      assert (text + suffix)[1..] == text[1..] + suffix;
      NumberCharsSkipsSuffix(text[1..], suffix);
    }
  }

  /** A text without digits and dots keeps nothing. */
  lemma {:induction false} NumberCharsDropsAll(text: string)
    requires forall i :: 0 <= i < |text| ==> !IsDigit(text[i]) && text[i] != '.'
    ensures NumberChars(text) == []
    decreases |text|
  {
    if text != [] {
      NumberCharsDropsAll(text[1..]);
    }
  }

  /** `value?.percentage`, else `value?.value`, else `value?.number`, each taken when it is not undefined. */
  function RawPercentage(value: Value): (r: Value)
    ensures Get(value, "percentage") != Undefined ==> r == Get(value, "percentage")
    ensures Get(value, "percentage") == Undefined && Get(value, "value") != Undefined ==> r == Get(value, "value")
    ensures Get(value, "percentage") == Undefined && Get(value, "value") == Undefined ==> r == Get(value, "number")
  {
    if Get(value, "percentage") != Undefined then Get(value, "percentage")
    else if Get(value, "value") != Undefined then Get(value, "value")
    else Get(value, "number")
  }

  /** `Math.max(0, Math.min(n, 100))` for a number that may be infinite. */
  function ClampNumber(n: Numeric): (r: real)
    ensures 0.0 <= r <= 100.0
    ensures n.Finite? ==> r == Clamp(n.x)
    ensures n.Infinite? ==> r == (if n.positive then 100.0 else 0.0)
  {
    match n
    case Finite(x) => Clamp(x)
    case Infinite(positive) => if positive then 100.0 else 0.0
  }

  /**
   * `resolvePercentage(value)`: the percentage a skill entry stands for, always within
   * [0, 100]. A string keeps only its digits and dots before `Number`; when that is NaN
   * the whole value goes through `Number(rawValue || 0)`, and NaN there reads as 0.
   */
  function ResolvePercentage(value: Value): (r: real)
    ensures 0.0 <= r <= 100.0
    ensures value.Num? ==> r == Clamp(value.n)
    ensures !value.Num? && !value.Obj? ==> r == 0.0
    ensures value.Obj? && RawPercentage(value).Num? ==> r == Clamp(RawPercentage(value).n)
    ensures value.Obj? && Nullish(RawPercentage(value)) ==> r == 0.0
    ensures value.Obj? && RawPercentage(value).Obj? ==> r == 0.0
    ensures value.Obj? && RawPercentage(value).Bool? ==> r == (if RawPercentage(value).b then 1.0 else 0.0)
    ensures value.Obj? && RawPercentage(value).Str? && StringToNumber(NumberChars(RawPercentage(value).s)).Some? ==>
      r == ClampNumber(StringToNumber(NumberChars(RawPercentage(value).s)).value)
    ensures
      && value.Obj? && RawPercentage(value).Str?
      && StringToNumber(NumberChars(RawPercentage(value).s)).None?
      && StringToNumber(RawPercentage(value).s).None?
      ==> r == 0.0
  {
    if value.Num? then Clamp(value.n)
    else
      var raw := RawPercentage(value);
      var candidate :=
        if raw.Str? then StringToNumber(NumberChars(raw.s))
        else if raw.Num? then Some(Finite(raw.n))
        else None;
      if candidate.Some? then ClampNumber(candidate.value)
      else
        match ToNumber(Or(raw, Num(0.0)))
        case None => 0.0
        case Some(parsed) => ClampNumber(parsed)
  }

  /** A run of digits keeps every character. */
  lemma {:induction false} NumberCharsKeepsDigits(digits: string)
    requires AllDigits(digits)
    ensures NumberChars(digits) == digits
    decreases |digits|
  {
    if digits != [] {
      assert IsDigit(digits[0]);
      NumberCharsKeepsDigits(digits[1..]);
      assert [digits[0]] + digits[1..] == digits;
    }
  }

  /** A percentage written with a "%" sign resolves like the bare number, when its digits and dots form one. */
  lemma PercentSignIgnored(digits: string)
    requires StringToNumber(NumberChars(digits)).Some?
    ensures ResolvePercentage(Obj([("percentage", Str(digits + "%"))]))
      == ResolvePercentage(Obj([("percentage", Str(digits))]))
  {
    NumberCharsSkipsSuffix(digits, "%");
  }

  /**
   * Digits followed by a unit ("85%", "85 pts") resolve to the clamped number the
   * digits spell.
   */
  lemma DigitsPercentage(digits: string, suffix: string)
    requires digits != [] && AllDigits(digits)
    requires forall i :: 0 <= i < |suffix| ==> !IsDigit(suffix[i]) && suffix[i] != '.'
    ensures ResolvePercentage(Obj([("percentage", Str(digits + suffix))])) == Clamp(DigitsValue(digits) as real)
  {
    NumberCharsSkipsSuffix(digits, suffix);
    NumberCharsKeepsDigits(digits);
    DigitsAreNumber(digits);
  }
}
