/**
 * The data hook of the resume site: its own deep merge (in which `undefined`
 * never overwrites), CSS variable names, the palette and gradient fallbacks of
 * a theme, the light/dark switch, the mode chosen when the configuration is
 * loaded, the portfolio items with their palette backgrounds, and the tag
 * filter and item lookup of the portfolio section.
 */
module AllData {
  import opened Wrappers
  import opened Text
  import opened JsValue
  import opened Numbers

  // ---------------------------------------------------------------------------
  // mergeDeep
  // ---------------------------------------------------------------------------

  /**
   * `mergeDeep(target, source)`: an `undefined` target or source takes the
   * default `{}`; any other non-object target yields the source itself; a
   * non-object source yields a copy of the target; otherwise the source's keys
   * are merged into a copy of the target.
   */
  function MergeDeep(target: Value, source: Value): (r: Value)
    ensures !IsObject(target) && !target.Undefined? && !source.Undefined? ==> r == source
    ensures !IsObject(target) && source.Undefined? ==> r == Obj([])
    ensures IsObject(target) && !IsObject(source) ==> r == target
    ensures target.Undefined? && !IsObject(source) ==> r == Obj([])
    ensures (IsObject(target) || target.Undefined?) && IsObject(source) ==> r.Obj?
    decreases source, 2
  {
    var t := if target.Undefined? then Obj([]) else target;
    var s := if source.Undefined? then Obj([]) else source;
    if !IsObject(t) then s
    else if !IsObject(source) then t
    else Obj(MergeFields(source, t.fields, source.fields))
  }

  /** `output[key]` for a defined source value `sv` when it was `tv`: arrays are copied, objects merged into `tv || {}`. */
  function MergeValue(tv: Value, sv: Value): (r: Value)
    ensures !sv.Obj? ==> r == sv
    decreases sv, 3
  {
    match sv
    case Obj(_) => MergeDeep(if Truthy(tv) then tv else Obj([]), sv)
    case _ => sv
  }

  /** The `Object.keys(source).forEach` loop over the entries `fs`, from `output` on. */
  function MergeFields(ghost parent: Value, output: Fields, fs: Fields): (r: Fields)
    requires forall i :: 0 <= i < |fs| ==> fs[i].1 < parent
    decreases parent, 1, |fs|
  {
    if fs == [] then output
    else
      var key := fs[0].0;
      var sv := fs[0].1;
      var next := if sv.Undefined? then output else Put(output, key, MergeValue(Lookup(output, key), sv));
      MergeFields(parent, next, fs[1..])
  }

  /** `mergeDeep` as the source runs it: a copy of the target, then one key of the source at a time. */
  method MergeDeepInPlace(target: Value, source: Value) returns (r: Value)
    ensures r == MergeDeep(target, source)
  {
    var t := if target.Undefined? then Obj([]) else target;
    if !IsObject(t) {
      return if source.Undefined? then Obj([]) else source;
    }
    var output := t.fields;
    if !IsObject(source) {
      return Obj(output);
    }
    ghost var start := output;
    var rest := source.fields;
    while rest != []
      invariant forall j :: 0 <= j < |rest| ==> rest[j].1 < source
      invariant MergeFields(source, output, rest) == MergeFields(source, start, source.fields)
      decreases |rest|
    {
      var key := rest[0].0;
      var sourceValue := rest[0].1;
      var targetValue := Lookup(output, key);
      if sourceValue.Arr? {
        output := Put(output, key, Arr(sourceValue.items));
      } else if IsObject(sourceValue) {
        output := Put(output, key, MergeDeep(if Truthy(targetValue) then targetValue else Obj([]), sourceValue));
      } else if !sourceValue.Undefined? {
        output := Put(output, key, sourceValue);
      }
      rest := rest[1..];
    }
    r := Obj(output);
  }

  /** Each key after the loop: a defined source value is merged in, everything else keeps the target's value. */
  lemma {:induction false} MergeFieldsLookup(parent: Value, output: Fields, fs: Fields, k: string)
    requires forall i :: 0 <= i < |fs| ==> fs[i].1 < parent
    requires UniqueKeys(fs)
    ensures Lookup(MergeFields(parent, output, fs), k)
      == if HasKey(fs, k) && !Lookup(fs, k).Undefined? then MergeValue(Lookup(output, k), Lookup(fs, k)) else Lookup(output, k)
    decreases |fs|
  {
    if fs != [] {
      var kb := Keys(fs);
      assert kb == [fs[0].0] + Keys(fs[1..]);
      assert UniqueKeys(fs[1..]) by {
        var ks := Keys(fs[1..]);
        forall i, j | 0 <= i < j < |ks| ensures ks[i] != ks[j] {
          assert ks[i] == kb[i + 1] && ks[j] == kb[j + 1];
        }
      }
      assert fs[0].0 !in Keys(fs[1..]);
      var key := fs[0].0;
      var sv := fs[0].1;
      var next := if sv.Undefined? then output else Put(output, key, MergeValue(Lookup(output, key), sv));
      MergeFieldsLookup(parent, next, fs[1..], k);
    }
  }

  /**
   * `mergeDeep` key by key on two objects: an `undefined` or absent source
   * value keeps the target's; arrays are replaced, objects merged into the
   * target's value (or `{}` when that is falsy), anything else overwrites.
   */
  lemma MergeDeepLookup(target: Value, source: Value, k: string)
    requires IsObject(target) && IsObject(source) && UniqueKeys(source.fields)
    ensures var tv := Get(target, k);
      var sv := Lookup(source.fields, k);
      Get(MergeDeep(target, source), k) ==
        if sv.Undefined? then tv
        else if sv.Obj? then MergeDeep(if Truthy(tv) then tv else Obj([]), sv)
        else sv
  {
    MergeFieldsLookup(source, target.fields, source.fields, k);
  }

  /** An `undefined` in the source never erases a target value. */
  lemma UndefinedNeverOverwrites(target: Value, source: Value, k: string)
    requires IsObject(target) && IsObject(source) && UniqueKeys(source.fields)
    requires Lookup(source.fields, k) == Undefined
    ensures Get(MergeDeep(target, source), k) == Get(target, k)
  {
    MergeDeepLookup(target, source, k);
  }

  // ---------------------------------------------------------------------------
  // toCssVarName
  // ---------------------------------------------------------------------------

  /** `key.replace(/([A-Z])/g, "-$1")` */
  function HyphenateUpper(key: string): (r: string)
    ensures |r| >= |key|
  {
    if key == [] then [] else (if IsUpper(key[0]) then ['-', key[0]] else [key[0]]) + HyphenateUpper(key[1..])
  }

  /** `toCssVarName(key)` */
  function ToCssVarName(key: string): (r: string)
    ensures |r| >= |key|
    ensures forall i :: 0 <= i < |r| ==> !IsUpper(r[i])
  {
    ToLower(HyphenateUpper(key))
  }

  lemma {:induction false} ToLowerAppend(a: string, b: string)
    ensures ToLower(a + b) == ToLower(a) + ToLower(b)
  {
  }

  /** Letter by letter: an upper-case letter becomes "-" and its lower case, anything else stays. */
  lemma CssVarNameStep(key: string)
    requires key != []
    ensures ToCssVarName(key) == (if IsUpper(key[0]) then ['-', LowerChar(key[0])] else [key[0]]) + ToCssVarName(key[1..])
  {
    var head := if IsUpper(key[0]) then ['-', key[0]] else [key[0]];
    ToLowerAppend(head, HyphenateUpper(key[1..]));
  }

  /** `color-` names back to the palette keys: "-x" becomes "X". */
  function CamelCase(name: string): (r: string)
    ensures |r| <= |name|
    ensures (forall i :: 0 <= i < |name| ==> name[i] != '-') ==> r == name
  {
    if name == [] then []
    else if name[0] == '-' && |name| >= 2 then [UpperChar(name[1])] + CamelCase(name[2..])
    else [name[0]] + CamelCase(name[1..])
  }

  /** For a key without hyphens, the CSS name determines the key: camel-casing it gives the key back. */
  lemma {:induction false} CssVarNameRoundTrip(key: string)
    requires forall i :: 0 <= i < |key| ==> key[i] != '-'
    ensures CamelCase(ToCssVarName(key)) == key
    decreases |key|
  {
    if key != [] {
      CssVarNameStep(key);
      CssVarNameRoundTrip(key[1..]);
      var rest := ToCssVarName(key[1..]);
      if IsUpper(key[0]) {
        var name := ['-', LowerChar(key[0])] + rest;
        assert name[2..] == rest;
        assert UpperChar(LowerChar(key[0])) == key[0];
      } else {
        var name := [key[0]] + rest;
        assert name[1..] == rest;
      }
      assert key == [key[0]] + key[1..];
    }
  }

  // ---------------------------------------------------------------------------
  // getPaletteForMode
  // ---------------------------------------------------------------------------

  /** `defaultTheme.modes[mode] || defaultTheme.modes.light`, over the default modes. */
  function DefaultPalette(defaultModes: Fields, mode: string): (r: Value)
  {
    Or(Lookup(defaultModes, mode), Lookup(defaultModes, "light"))
  }

  /** `getPaletteForMode(themeConfig, mode)`, with `defaultTheme.modes` as a parameter. */
  function GetPaletteForMode(themeConfig: Value, mode: string, defaultModes: Fields): (r: Value)
    ensures !Truthy(themeConfig) ==> r == DefaultPalette(defaultModes, mode)
    ensures Truthy(themeConfig) && Truthy(Get(themeConfig, "modes")) && Truthy(Get(Get(themeConfig, "modes"), mode)) ==>
      r == Get(Get(themeConfig, "modes"), mode)
  {
    if !Truthy(themeConfig) then DefaultPalette(defaultModes, mode)
    else
      var modes := Get(themeConfig, "modes");
      if Truthy(modes) && Truthy(Get(modes, mode)) then Get(modes, mode)
      else if Truthy(Get(themeConfig, "colors")) then Get(themeConfig, "colors")
      else if Truthy(modes) && Truthy(Get(modes, "light")) then Get(modes, "light")
      else DefaultPalette(defaultModes, mode)
  }

  /**
   * The fallback chain in order: the theme's palette for the mode, its flat
   * `colors`, its light palette, then the default palette for the mode and
   * the default light one.
   */
  lemma PaletteFallbackOrder(themeConfig: Value, mode: string, defaultModes: Fields)
    requires Truthy(themeConfig)
    ensures var modes := Get(themeConfig, "modes");
      var r := GetPaletteForMode(themeConfig, mode, defaultModes);
      (!Truthy(Get(modes, mode)) && Truthy(Get(themeConfig, "colors")) ==> r == Get(themeConfig, "colors"))
      && (!Truthy(Get(modes, mode)) && !Truthy(Get(themeConfig, "colors")) && Truthy(Get(modes, "light")) ==> r == Get(modes, "light"))
      && (!Truthy(Get(modes, mode)) && !Truthy(Get(themeConfig, "colors")) && !Truthy(Get(modes, "light")) ==>
            r == DefaultPalette(defaultModes, mode))
  {
  }

  // ---------------------------------------------------------------------------
  // buildGradientString
  // ---------------------------------------------------------------------------

  /** The default position of the stop at `index`. */
  function DefaultPosition(index: nat): string {
    if index == 0 then "0%" else "100%"
  }

  /** The text of one stop in the `map` callback; `None` is `null`. */
  function StopText(stop: Value, index: nat, fallbackStops: seq<Value>, show: Value -> string): (r: Option<string>)
    ensures stop.Str? ==> r == Some(stop.s + " " + DefaultPosition(index))
    ensures !stop.Str? && !stop.Obj? ==> r == None
  {
    match stop
    case Str(s) => Some(s + " " + DefaultPosition(index))
    case Obj(_) =>
      var color := Or(Or(Or(Get(stop, "color"), Get(stop, "value")), At(fallbackStops, index)), At(fallbackStops, 0));
      if !Truthy(color) then None
      else
        var given := Or(Get(stop, "position"), Get(stop, "stop"));
        var position :=
          if Truthy(given) then Display(given, show)
          else if Get(stop, "percent").Num? then Display(Get(stop, "percent"), show) + "%"
          else DefaultPosition(index);
        Some(Display(color, show) + " " + position)
    case _ => None
  }

  /** `stopsConfig.map(...).filter(Boolean)` from index `index` on. */
  function StopTexts(stops: seq<Value>, index: nat, fallbackStops: seq<Value>, show: Value -> string): (r: seq<string>)
    ensures |r| <= |stops|
    decreases |stops|
  {
    if stops == [] then []
    else
      var first := StopText(stops[0], index, fallbackStops, show);
      (if first.Some? then [first.value] else []) + StopTexts(stops[1..], index + 1, fallbackStops, show)
  }

  /** String stops are kept, in order, each with its default position. */
  lemma {:induction false} StringStopTexts(stops: seq<string>, index: nat, fallbackStops: seq<Value>, show: Value -> string)
    ensures var texts := StopTexts(seq(|stops|, i requires 0 <= i < |stops| => Str(stops[i])), index, fallbackStops, show);
      |texts| == |stops| && forall i :: 0 <= i < |stops| ==> texts[i] == stops[i] + " " + DefaultPosition(index + i)
    decreases |stops|
  {
    var values := seq(|stops|, i requires 0 <= i < |stops| => Str(stops[i]));
    if stops != [] {
      StringStopTexts(stops[1..], index + 1, fallbackStops, show);
      assert values[1..] == seq(|stops[1..]|, i requires 0 <= i < |stops[1..]| => Str(stops[1..][i]));
    }
  }

  /**
   * Whether `gradientConfig.stops` passes the `stops && stops.length > 0` test without
   * being an array: a non-empty string, or an object with a positive numeric `length`.
   * `stopsConfig.map` then throws a TypeError.
   */
  predicate StopsNotMappable(configured: Value) {
    (configured.Str? && |configured.s| > 0)
    || (configured.Obj? && Get(configured, "length").Num? && Get(configured, "length").n > 0.0)
  }

  /**
   * `buildGradientString(gradientConfig, fallbackStops, fallbackAngle)`;
   * `None` is `null`, and `Failure` the TypeError a non-array `stops` raises.
   * Any other `stops` that is not a non-empty array is read as absent.
   */
  function BuildGradientString(gradientConfig: Value, fallbackStops: seq<Value>, fallbackAngle: Value, show: Value -> string): (r: Result<Option<string>, string>)
    ensures !Truthy(gradientConfig) && |fallbackStops| >= 2 ==>
      r == Success(Some("linear-gradient(" + Display(fallbackAngle, show) + "deg, " + Display(fallbackStops[0], show) + " 0%, " + Display(fallbackStops[1], show) + " 100%)"))
    ensures !Truthy(gradientConfig) && |fallbackStops| < 2 ==> r == Success(None)
    ensures r.Failure? <==> Truthy(gradientConfig) && StopsNotMappable(Get(gradientConfig, "stops"))
  {
    if !Truthy(gradientConfig) && |fallbackStops| >= 2 then
      Success(Some("linear-gradient(" + Display(fallbackAngle, show) + "deg, " + Display(fallbackStops[0], show) + " 0%, " + Display(fallbackStops[1], show) + " 100%)"))
    else if !Truthy(gradientConfig) then Success(None)
    else
      var angle := Coalesce(Get(gradientConfig, "angle"), fallbackAngle);
      var configured := Get(gradientConfig, "stops");
      if StopsNotMappable(configured) then Failure("TypeError")
      else
        var stopsConfig := if configured.Arr? && |configured.items| > 0 then configured.items else fallbackStops;
        if |stopsConfig| == 0 then Success(None)
        else
          var stops := StopTexts(stopsConfig, 0, fallbackStops, show);
          if |stops| < 2 then Success(None)
          else Success(Some("linear-gradient(" + Display(angle, show) + "deg, " + Join(stops, ", ") + ")"))
  }

  /** A gradient is built only from at least two usable stops; with fewer, or none configured, the result is `null`. */
  lemma GradientNeedsTwoStops(gradientConfig: Value, fallbackStops: seq<Value>, fallbackAngle: Value, show: Value -> string)
    requires Truthy(gradientConfig) && !StopsNotMappable(Get(gradientConfig, "stops"))
    ensures var configured := Get(gradientConfig, "stops");
      var stopsConfig := if configured.Arr? && |configured.items| > 0 then configured.items else fallbackStops;
      var built := BuildGradientString(gradientConfig, fallbackStops, fallbackAngle, show);
      built.Success? && (built.value.Some? <==> |StopTexts(stopsConfig, 0, fallbackStops, show)| >= 2)
  {
  }

  /** The configured stops as the string values the source reads. */
  function StringValues(stops: seq<string>): (r: seq<Value>)
    ensures |r| == |stops| && forall i :: 0 <= i < |stops| ==> r[i] == Str(stops[i])
  {
    seq(|stops|, i requires 0 <= i < |stops| => Str(stops[i]))
  }

  /**
   * Two or more configured colour strings are all kept, in order: the first
   * at "0%", every later one at "100%".
   */
  lemma StringStopsGradient(gradientConfig: Value, stops: seq<string>, fallbackStops: seq<Value>, fallbackAngle: Value, show: Value -> string)
    requires gradientConfig.Obj? && |stops| >= 2
    requires Get(gradientConfig, "stops") == Arr(StringValues(stops))
    ensures var texts := seq(|stops|, i requires 0 <= i < |stops| => stops[i] + " " + DefaultPosition(i));
      var angle := Coalesce(Get(gradientConfig, "angle"), fallbackAngle);
      BuildGradientString(gradientConfig, fallbackStops, fallbackAngle, show)
        == Success(Some("linear-gradient(" + Display(angle, show) + "deg, " + Join(texts, ", ") + ")"))
  {
    var values := StringValues(stops);
    assert values == seq(|stops|, i requires 0 <= i < |stops| => Str(stops[i]));
    StringStopTexts(stops, 0, fallbackStops, show);
    var texts := StopTexts(values, 0, fallbackStops, show);
    assert texts == seq(|stops|, i requires 0 <= i < |stops| => stops[i] + " " + DefaultPosition(i));
    ConfiguredStopsGradient(gradientConfig, values, fallbackStops, fallbackAngle, show);
  }

  /** A configured, non-empty array of stops that yields two or more texts is joined into the gradient. */
  lemma ConfiguredStopsGradient(gradientConfig: Value, values: seq<Value>, fallbackStops: seq<Value>, fallbackAngle: Value, show: Value -> string)
    requires gradientConfig.Obj? && values != []
    requires Get(gradientConfig, "stops") == Arr(values)
    requires |StopTexts(values, 0, fallbackStops, show)| >= 2
    ensures BuildGradientString(gradientConfig, fallbackStops, fallbackAngle, show)
      == Success(Some("linear-gradient(" + Display(Coalesce(Get(gradientConfig, "angle"), fallbackAngle), show) + "deg, "
                      + Join(StopTexts(values, 0, fallbackStops, show), ", ") + ")"))
  {
  }

  // ---------------------------------------------------------------------------
  // Theme mode
  // ---------------------------------------------------------------------------

  /** `defaultConfig.theme.mode` */
  const DefaultMode: string := "light"

  /** The mode `handleTheme(value)` switches to from `themeMode`. */
  function NextThemeMode(value: Value, themeMode: Value): (r: string)
    ensures r == "dark" || r == "light"
    ensures !Truthy(value) || value == Str("toggle") ==> r == (if themeMode == Str("dark") then "light" else "dark")
    ensures value == Str("dark") || value == Str("light") ==> Str(r) == value
    ensures Truthy(value) && value != Str("toggle") && value != Str("dark") && value != Str("light") ==> r == DefaultMode
  {
    var next := if !Truthy(value) || value == Str("toggle") then Str(if themeMode == Str("dark") then "light" else "dark") else value;
    if next != Str("dark") && next != Str("light") then DefaultMode else next.s
  }

  /** Toggling twice returns to a light or dark mode. */
  lemma ToggleTwice(themeMode: string)
    requires themeMode == "dark" || themeMode == "light"
    ensures NextThemeMode(Str("toggle"), Str(NextThemeMode(Str("toggle"), Str(themeMode)))) == themeMode
  {
  }

  /** `mergeDeep(defaultConfig, configResult.value)` when the config request succeeded with a value. */
  function ResolvedConfig(defaultConfig: Value, configResult: Option<Value>): (r: Value)
    ensures configResult.None? || !Truthy(configResult.value) ==> r == defaultConfig
  {
    if configResult.Some? && Truthy(configResult.value) then MergeDeep(defaultConfig, configResult.value) else defaultConfig
  }

  /**
   * The mode `refreshConfig` settles on: a persisted mode, then the remote
   * configuration's mode, then the data's `theme`, then the resolved
   * configuration's, then the current mode, then the default. `None` is a
   * request that failed.
   */
  function RefreshedMode(persisted: Option<string>, configResult: Option<Value>, dataResult: Option<Value>,
                         defaultConfig: Value, themeMode: Value): (r: Value)
    ensures persisted.Some? && persisted.value != "" ==> r == Str(persisted.value)
  {
    var resolved := ResolvedConfig(defaultConfig, configResult);
    var fromConfig := if configResult.Some? then Get(Get(configResult.value, "theme"), "mode") else Bool(false);
    var fromData := if dataResult.Some? then Get(dataResult.value, "theme") else Bool(false);
    var remote := Or(Or(fromConfig, fromData), Get(Get(resolved, "theme"), "mode"));
    var stored := if persisted.Some? then Str(persisted.value) else Null;
    Or(Or(Or(stored, remote), themeMode), Str(DefaultMode))
  }

  /** Without a persisted mode, a mode sent by the configuration endpoint wins, even one that is neither light nor dark. */
  lemma RemoteModeWins(configResult: Value, dataResult: Option<Value>, defaultConfig: Value, themeMode: Value)
    requires Truthy(Get(Get(configResult, "theme"), "mode"))
    ensures RefreshedMode(None, Some(configResult), dataResult, defaultConfig, themeMode) == Get(Get(configResult, "theme"), "mode")
  {
  }

  /** Whatever the requests return, the mode is never falsy. */
  lemma RefreshedModeTruthy(persisted: Option<string>, configResult: Option<Value>, dataResult: Option<Value>,
                            defaultConfig: Value, themeMode: Value)
    ensures Truthy(RefreshedMode(persisted, configResult, dataResult, defaultConfig, themeMode))
  {
  }

  // ---------------------------------------------------------------------------
  // Portfolio
  // ---------------------------------------------------------------------------

  /** `apiData?.works || apiData?.portfolio || apiData?.portfolios || []` */
  function RemotePortfolioItems(apiData: Value): (r: Value)
    ensures Truthy(r)
    ensures Truthy(Get(apiData, "works")) ==> r == Get(apiData, "works")
    ensures !Truthy(Get(apiData, "works")) && Truthy(Get(apiData, "portfolio")) ==> r == Get(apiData, "portfolio")
    ensures !Truthy(Get(apiData, "works")) && !Truthy(Get(apiData, "portfolio")) && Truthy(Get(apiData, "portfolios")) ==>
      r == Get(apiData, "portfolios")
    ensures !Truthy(Get(apiData, "works")) && !Truthy(Get(apiData, "portfolio")) && !Truthy(Get(apiData, "portfolios")) ==>
      r == Arr([])
  {
    Or(Or(Or(Get(apiData, "works"), Get(apiData, "portfolio")), Get(apiData, "portfolios")), Arr([]))
  }

  /** `paletteVariants[index % paletteVariants.length]`: `undefined` when there are no variants. */
  function Variant(variants: seq<Value>, index: nat): (r: Value)
    ensures variants != [] ==> r == variants[index % |variants|]
    ensures variants == [] ==> r == Undefined
  {
    if variants == [] then Undefined else variants[index % |variants|]
  }

  /** An index below the number of variants picks that variant. */
  lemma VariantInRange(variants: seq<Value>, index: nat)
    ensures index < |variants| ==> Variant(variants, index) == variants[index]
  {
    if index < |variants| {
      assert index % |variants| == index;
    }
  }

  /** `variants[index % variants.length] || fallback`, the way every palette consumer picks its colour. */
  function GetVariant(variants: seq<Value>, index: nat, fallback: Value): (r: Value)
    ensures Truthy(fallback) ==> Truthy(r)
    ensures variants == [] ==> r == fallback
    ensures index < |variants| && Truthy(variants[index]) ==> r == variants[index]
    ensures index < |variants| && !Truthy(variants[index]) ==> r == fallback
  {
    VariantInRange(variants, index);
    Or(Variant(variants, index), fallback)
  }

  /** `{ ...item, bg: paletteVariants[index % paletteVariants.length] || item.bg }` */
  function WithVariant(item: Value, variants: seq<Value>, index: nat): (r: Value)
    ensures r.Obj? && Lookup(r.fields, "bg") == GetVariant(variants, index, Get(item, "bg"))
    ensures forall k :: k != "bg" ==> Lookup(r.fields, k) == Lookup(SpreadSource(item), k)
  {
    Obj(Put(SpreadSource(item), "bg", GetVariant(variants, index, Get(item, "bg"))))
  }

  /** `workItems`: a non-empty remote list as it is, otherwise the defaults with cycling backgrounds. */
  function WorkItems(remote: Value, defaults: seq<Value>, variants: seq<Value>): (r: seq<Value>)
    ensures remote.Arr? && |remote.items| > 0 ==> r == remote.items
    ensures !(remote.Arr? && |remote.items| > 0) ==>
      |r| == |defaults| && forall i :: 0 <= i < |defaults| ==> r[i] == WithVariant(defaults[i], variants, i)
  {
    if remote.Arr? && |remote.items| > 0 then remote.items
    else seq(|defaults|, i requires 0 <= i < |defaults| => WithVariant(defaults[i], variants, i))
  }

  /** Default items a palette length apart get the same background. */
  lemma VariantsCycle(remote: Value, defaults: seq<Value>, variants: seq<Value>, i: nat)
    requires !(remote.Arr? && |remote.items| > 0)
    requires variants != [] && i + |variants| < |defaults|
    ensures var items := WorkItems(remote, defaults, variants);
      Truthy(variants[i % |variants|]) ==> Get(items[i], "bg") == Get(items[i + |variants|], "bg")
  {
    var n := |variants|;
    var j := i + n;
    ModuloShift(i, n);
    assert Variant(variants, j) == Variant(variants, i);
    var items := WorkItems(remote, defaults, variants);
    assert items[i] == WithVariant(defaults[i], variants, i);
    assert items[j] == WithVariant(defaults[j], variants, j);
  }

  /** `item.tag?.toLowerCase() === text.toLowerCase()`; a tag that is not a string never matches. */
  predicate TagMatches(item: Value, text: string)
    ensures TagMatches(item, text) ==> Get(item, "tag").Str?
    ensures Get(item, "tag") == Str(text) ==> TagMatches(item, text)
  {
    var tag := Get(item, "tag");
    tag.Str? && ToLower(tag.s) == ToLower(text)
  }

  /**
   * Whether the filter callback can read an item's tag: `item.tag` throws a TypeError on a
   * null or undefined item, and `?.toLowerCase()` on a tag that is neither nullish nor a string.
   */
  predicate TagReadable(item: Value) {
    var tag := Get(item, "tag");
    !item.Null? && !item.Undefined? && (tag.Undefined? || tag.Null? || tag.Str?)
  }

  /** `workItems.filter(...)`, or `None` when the callback throws on some item. */
  function FilterByTag(items: seq<Value>, text: string): (r: Option<seq<Value>>)
    ensures r.None? <==> exists i :: 0 <= i < |items| && !TagReadable(items[i])
    ensures r.Some? ==> |r.value| <= |items|
    ensures r.Some? ==> forall x :: x in r.value ==> x in items && TagMatches(x, text)
    ensures r.Some? ==> forall i :: 0 <= i < |items| && TagMatches(items[i], text) ==> items[i] in r.value
  {
    if items == [] then Some([])
    else if !TagReadable(items[0]) then None
    else match FilterByTag(items[1..], text)
      case None =>
        assert forall i :: 0 <= i < |items| - 1 ==> items[1..][i] == items[i + 1];
        None
      case Some(rest) => Some((if TagMatches(items[0], text) then [items[0]] else []) + rest)
  }

  /** Filtering is case-insensitive in the filter text. */
  lemma FilterIgnoresCase(items: seq<Value>, text: string)
    ensures FilterByTag(items, ToLower(text)) == FilterByTag(items, text)
  {
    ToLowerIdempotent(text);
    assert forall x :: TagMatches(x, ToLower(text)) == TagMatches(x, text);
    FilterSame(items, ToLower(text), text);
  }

  lemma {:induction false} FilterSame(items: seq<Value>, a: string, b: string)
    requires forall x :: TagMatches(x, a) == TagMatches(x, b)
    ensures FilterByTag(items, a) == FilterByTag(items, b)
  {
    if items != [] {
      FilterSame(items[1..], a, b);
    }
  }

  /** `workItems.find((item) => String(item?.id) === String(id))`, with `String(...)` as a parameter. */
  function FindById(items: seq<Value>, id: Value, text: Value -> string): (r: Option<nat>)
    ensures r.Some? ==> r.value < |items| && text(Get(items[r.value], "id")) == text(id)
    ensures r.Some? ==> forall j :: 0 <= j < r.value ==> text(Get(items[j], "id")) != text(id)
    ensures r.None? ==> forall j :: 0 <= j < |items| ==> text(Get(items[j], "id")) != text(id)
  {
    if items == [] then None
    else if text(Get(items[0], "id")) == text(id) then Some(0)
    else
      var rest := FindById(items[1..], id, text);
      if rest.Some? then Some(rest.value + 1) else None
  }

  /** The hook state that the portfolio handlers and the theme switch change. */
  class SiteState {
    var themeMode: string
    var config: Fields
    var persistedMode: Option<string>
    var data: seq<Value>
    var singleData: Value
    var isOpen: bool

    constructor(initialConfig: Fields, persisted: Option<string>, workItems: seq<Value>)
      ensures themeMode == (if persisted.Some? && persisted.value != "" then persisted.value else DefaultMode)
      ensures config == initialConfig && persistedMode == persisted && data == workItems
      ensures singleData == Obj([]) && !isOpen
    {
      themeMode := if persisted.Some? && persisted.value != "" then persisted.value else DefaultMode;
      config := initialConfig;
      persistedMode := persisted;
      data := workItems;
      singleData := Obj([]);
      isOpen := false;
    }

    /**
     * `handleTheme(value)`: the next mode is stored, persisted when the
     * features ask for it, and written into `config.theme.mode`.
     */
    method HandleTheme(value: Value, persistThemeMode: bool)
      modifies this
      ensures themeMode == NextThemeMode(value, Str(old(themeMode)))
      ensures themeMode == "dark" || themeMode == "light"
      ensures persistedMode == if persistThemeMode then Some(themeMode) else old(persistedMode)
      ensures config == Put(old(config), "theme", Obj(Put(SpreadSource(Lookup(old(config), "theme")), "mode", Str(themeMode))))
      ensures data == old(data) && singleData == old(singleData) && isOpen == old(isOpen)
    {
      var next := NextThemeMode(value, Str(themeMode));
      themeMode := next;
      if persistThemeMode {
        persistedMode := Some(next);
      }
      config := Put(config, "theme", Obj(Put(SpreadSource(Lookup(config, "theme")), "mode", Str(next))));
    }

    /** `handleData(text)`: "All" or no text shows every item; otherwise the items tagged with the text. */
    method HandleData(text: Option<string>, workItems: seq<Value>) returns (thrown: bool)
      modifies this
      ensures thrown <==> !(text.None? || text.value == "" || text.value == "All") && FilterByTag(workItems, text.value).None?
      ensures data == if text.None? || text.value == "" || text.value == "All" then workItems
                      else FilterByTag(workItems, text.value).GetOr(old(data))
      ensures themeMode == old(themeMode) && config == old(config) && persistedMode == old(persistedMode)
      ensures singleData == old(singleData) && isOpen == old(isOpen)
    {
      if text.None? || text.value == "" || text.value == "All" {
        data := workItems;
        return false;
      }
      var filtered := FilterByTag(workItems, text.value);
      if filtered.None? {
        return true;
      }
      data := filtered.value;
      thrown := false;
    }

    /** `handleModelData(id)`: the first item with that id is opened; an unknown id changes nothing. */
    method HandleModelData(id: Value, workItems: seq<Value>, text: Value -> string)
      modifies this
      ensures var found := FindById(workItems, id, text);
        if found.Some? && Truthy(workItems[found.value]) then singleData == workItems[found.value] && isOpen
        else singleData == old(singleData) && isOpen == old(isOpen)
      ensures themeMode == old(themeMode) && config == old(config) && persistedMode == old(persistedMode) && data == old(data)
    {
      var found := FindById(workItems, id, text);
      if found.Some? && Truthy(workItems[found.value]) {
        singleData := workItems[found.value];
        isOpen := true;
      }
    }
  }
}
