/**
 * The theme presets of the onboarding wizard: the deep merge used to lay a
 * user's configuration over a preset, the four presets in their light and
 * dark modes, and the normalisation that every theme configuration goes
 * through before it is edited or saved.
 */
module ThemePresets {
  import opened Wrappers
  import opened Text
  import opened JsValue

  /** AVAILABLE_THEME_OPTIONS */
  function ThemeOption(id: string, name: string): Value {
    Obj([("id", Str(id)), ("label", Str(name))])
  }

  const ThemeOptions: Value := Arr([
    ThemeOption("bostami", "Bostami Classic"),
    ThemeOption("ryancv", "RyanCV"),
    ThemeOption("bostami-fusion", "Bostami Fusion"),
    ThemeOption("ryancv-fusion", "RyanCV Fusion"),
    ThemeOption("custom", "Custom Theme")
  ])

  // ---------------------------------------------------------------------------
  // mergeDeep
  // ---------------------------------------------------------------------------

  /**
   * `mergeDeep(target, source)`: a non-object target counts as `{}`; a source
   * that is not an object replaces it (unless it is `undefined`, which yields a
   * copy of the target); otherwise every source key is merged into a copy of
   * the target.
   */
  function MergeDeep(target: Value, source: Value): (r: Value)
    ensures IsObject(source) ==> r.Obj?
    ensures !IsObject(source) && !source.Undefined? ==> r == source
    ensures source.Undefined? ==> r == Obj(if IsObject(target) then target.fields else [])
    decreases source, 2
  {
    var output := if IsObject(target) then target.fields else [];
    if !IsObject(source) then (if source.Undefined? then Obj(output) else source)
    else Obj(MergeFields(source, output, source.fields))
  }

  /** The value `output[key]` gets for one source value `sv` when `output[key]` was `tv`. */
  function MergeValue(tv: Value, sv: Value): (r: Value)
    ensures !IsObjectLike(sv) ==> r == sv
    ensures sv.Arr? ==> r.Arr? && |r.items| == |sv.items|
    ensures sv.Obj? ==> r.Obj?
    decreases sv, 3
  {
    match sv
    case Arr(items) => Arr(CopyItems(sv, items))
    case Obj(_) => MergeDeep(if IsObject(tv) then tv else Obj([]), sv)
    case _ => sv
  }

  /** `sourceValue.map((item) => isObject(item) ? mergeDeep({}, item) : item)` */
  function CopyItems(ghost parent: Value, items: seq<Value>): (r: seq<Value>)
    requires forall i :: 0 <= i < |items| ==> items[i] < parent
    ensures |r| == |items|
    ensures forall i :: 0 <= i < |items| && !IsObject(items[i]) ==> r[i] == items[i]
    decreases parent, 1, |items|
  {
    if items == [] then []
    else [if IsObject(items[0]) then MergeDeep(Obj([]), items[0]) else items[0]] + CopyItems(parent, items[1..])
  }

  /** The `Object.keys(source).forEach` loop, from `output` on, over the entries `fs`. */
  function MergeFields(ghost parent: Value, output: Fields, fs: Fields): (r: Fields)
    requires forall i :: 0 <= i < |fs| ==> fs[i].1 < parent
    decreases parent, 1, |fs|
  {
    if fs == [] then output
    else
      var key := fs[0].0;
      MergeFields(parent, Put(output, key, MergeValue(Lookup(output, key), fs[0].1)), fs[1..])
  }

  /** One step of the merge loop, building `output` key by key as the source does. */
  method MergeDeepInPlace(target: Value, source: Value) returns (r: Value)
    ensures r == MergeDeep(target, source)
  {
    var output := if IsObject(target) then target.fields else [];
    if !IsObject(source) {
      r := if source.Undefined? then Obj(output) else source;
      return;
    }
    ghost var start := output;
    var rest := source.fields;
    while rest != []
      invariant forall j :: 0 <= j < |rest| ==> rest[j].1 < source
      invariant MergeFields(source, output, rest) == MergeFields(source, start, source.fields)
      decreases |rest|
    {
      var key := rest[0].0;
      var targetValue := Lookup(output, key);
      output := Put(output, key, MergeValue(targetValue, rest[0].1));
      rest := rest[1..];
    }
    r := Obj(output);
  }

  /**
   * What the merge does to each key: keys of the source are merged with the
   * target's value, all other keys of the target are kept.
   */
  lemma {:induction false} MergeFieldsLookup(parent: Value, output: Fields, fs: Fields, k: string)
    requires forall i :: 0 <= i < |fs| ==> fs[i].1 < parent
    requires UniqueKeys(fs)
    ensures Lookup(MergeFields(parent, output, fs), k)
      == if HasKey(fs, k) then MergeValue(Lookup(output, k), Lookup(fs, k)) else Lookup(output, k)
    decreases |fs|
  {
    if fs != [] {
      var kb := Keys(fs);
      assert kb == [fs[0].0] + Keys(fs[1..]);
      assert UniqueKeys(fs[1..]) by {
        var ks := Keys(fs[1..]);
        forall i, j | 0 <= i < j < |ks| ensures ks[i] != ks[j] {
          assert ks[i] == kb[i + 1] && ks[j] == kb[j + 1];
        }
      }
      assert fs[0].0 !in Keys(fs[1..]);
      var key := fs[0].0;
      MergeFieldsLookup(parent, Put(output, key, MergeValue(Lookup(output, key), fs[0].1)), fs[1..], k);
    }
  }

  /**
   * `mergeDeep` key by key: keys absent from the source keep the target's
   * value; arrays are replaced by copies; nested objects are merged into the
   * target's value, or into `{}` when that is not an object; anything else
   * overwrites.
   */
  lemma MergeDeepLookup(target: Value, source: Value, k: string)
    requires IsObject(source) && UniqueKeys(source.fields)
    ensures var tv := Get(target, k);
      var sv := Lookup(source.fields, k);
      Get(MergeDeep(target, source), k) ==
        if !HasKey(source.fields, k) then tv
        else if sv.Arr? then Arr(CopyItems(sv, sv.items))
        else if sv.Obj? then MergeDeep(if IsObject(tv) then tv else Obj([]), sv)
        else sv
  {
    MergeFieldsLookup(source, if IsObject(target) then target.fields else [], source.fields, k);
  }

  /** A scalar source value overwrites the target's, whatever it was. */
  lemma MergeDeepScalarOverwrites(target: Value, source: Value, k: string)
    requires IsObject(source) && UniqueKeys(source.fields)
    requires HasKey(source.fields, k) && !IsObjectLike(Lookup(source.fields, k))
    ensures Get(MergeDeep(target, source), k) == Lookup(source.fields, k)
  {
    MergeDeepLookup(target, source, k);
  }

  /** Arrays are never concatenated: the result holds exactly the source's items. */
  lemma MergeDeepArrayReplaces(target: Value, source: Value, k: string)
    requires IsObject(source) && UniqueKeys(source.fields)
    requires Lookup(source.fields, k).Arr?
    ensures var sv := Lookup(source.fields, k);
      var r := Get(MergeDeep(target, source), k);
      r.Arr? && |r.items| == |sv.items| &&
      forall i :: 0 <= i < |sv.items| && !IsObject(sv.items[i]) ==> r.items[i] == sv.items[i]
  {
    MergeDeepLookup(target, source, k);
  }

  /** A non-object target merges exactly like `{}`. */
  lemma MergeDeepNonObjectTarget(target: Value, source: Value)
    requires !IsObject(target)
    ensures MergeDeep(target, source) == MergeDeep(Obj([]), source)
  {
  }

  /** Merging an empty source yields the target's fields unchanged. */
  lemma MergeDeepEmptySource(target: Value)
    requires IsObject(target)
    ensures MergeDeep(target, Obj([])) == target
  {
  }

  // ---------------------------------------------------------------------------
  // applyPresetMode and the presets
  // ---------------------------------------------------------------------------

  /** The theme fields after `clone.theme.id = id; clone.theme.mode = mode; clone.theme.availableThemes = ...`. */
  function StampTheme(theme: Fields, id: string, mode: string): (r: Fields)
    ensures Lookup(r, "id") == Str(id) && Lookup(r, "mode") == Str(mode)
    ensures Lookup(r, "availableThemes") == ThemeOptions
  {
    Put(Put(Put(theme, "id", Str(id)), "mode", Str(mode)), "availableThemes", ThemeOptions)
  }

  /**
   * `applyPresetMode(base, { id, mode, overrides })`. The base must hold a
   * theme object, as every preset base does (the assignments throw otherwise).
   */
  function ApplyPresetMode(base: Value, id: string, mode: string, overrides: Value): (r: Value)
    requires IsObject(base) && IsObject(Get(base, "theme"))
    ensures overrides == Obj([]) ==>
      r == Obj(Put(base.fields, "theme", Obj(StampTheme(Get(base, "theme").fields, id, mode))))
  {
    var theme := StampTheme(Get(base, "theme").fields, id, mode);
    MergeDeep(Obj(Put(base.fields, "theme", Obj(theme))), overrides)
  }

  /** Overrides that do not touch `theme` leave the preset's id, mode and theme list as stamped. */
  lemma ApplyPresetModeStampsTheme(base: Value, id: string, mode: string, overrides: Value)
    requires IsObject(base) && IsObject(Get(base, "theme"))
    requires IsObject(overrides) && UniqueKeys(overrides.fields) && !HasKey(overrides.fields, "theme")
    ensures var theme := Get(ApplyPresetMode(base, id, mode, overrides), "theme");
      Get(theme, "id") == Str(id) && Get(theme, "mode") == Str(mode) && Get(theme, "availableThemes") == ThemeOptions
  {
    var theme := StampTheme(Get(base, "theme").fields, id, mode);
    MergeDeepLookup(Obj(Put(base.fields, "theme", Obj(theme))), overrides, "theme");
  }

  const PresetIds: seq<string> := ["bostami", "ryancv", "bostami-fusion", "ryancv-fusion"]

  /** The preset family whose base theme, layout, features and content a preset starts from. */
  function Family(id: string): string {
    if id == "ryancv" || id == "ryancv-fusion" then "ryancv" else "bostami"
  }

  /** A preset base `{ theme, layout, features, content }`; the palettes and texts are not modelled. */
  function PresetBase(family: string): (r: Value)
    ensures IsObject(r) && IsObject(Get(r, "theme"))
  {
    Obj([
      ("theme", Obj([("id", Str(family)), ("mode", Str("light")), ("availableThemes", ThemeOptions)])),
      ("layout", Obj([])),
      ("features", Obj([])),
      ("content", Obj([]))
    ])
  }

  /** `THEME_PRESETS[id].modes[mode]` for the preset's own ids and modes. */
  function PresetVariant(id: string, mode: string): (r: Option<Value>)
    ensures r.Some? <==> id in PresetIds && (mode == "light" || mode == "dark")
    ensures r.Some? ==> IsObject(r.value) && IsObject(Get(r.value, "theme"))
  {
    if id in PresetIds && (mode == "light" || mode == "dark") then
      Some(ApplyPresetMode(PresetBase(Family(id)), id, mode, Obj([])))
    else None
  }

  /**
   * `getPresetConfig(id, mode)` (`clonePresetConfig`) with the lookups limited to the
   * presets' own ids and modes: `None` is `null`. The copy's theme id is set to the
   * requested id.
   */
  function GetPresetConfig(id: string, mode: string): (r: Option<Value>)
    ensures r.None? <==> !(id in PresetIds && (mode == "light" || mode == "dark"))
    ensures r.Some? ==> IsObject(r.value) && IsObject(Get(r.value, "theme"))
    ensures r.Some? ==> Get(Get(r.value, "theme"), "id") == Str(id)
  {
    match PresetVariant(id, mode)
    case None => None
    case Some(variant) =>
      Some(Obj(Put(variant.fields, "theme", Obj(Put(Get(variant, "theme").fields, "id", Str(id))))))
  }

  /**
   * `clonePresetConfig(id, mode)` as written. `THEME_PRESETS[id]` and `preset.modes[mode]`
   * are plain property reads, so a name every object inherits is found as well:
   * an inherited id has no `modes`, and reading `modes[mode]` throws a TypeError;
   * an inherited mode is a function, which `deepClone` turns into
   * `JSON.parse(undefined)` and a SyntaxError, except `__proto__`, whose clone `{}`
   * has no `theme` to stamp, a TypeError again.
   */
  function ClonePresetConfigAsWritten(id: string, mode: string): (r: Result<Option<Value>, string>)
    ensures id in ObjectPrototypeMembers ==> r == Failure("TypeError")
    ensures id in PresetIds && mode in ObjectPrototypeMembers ==> r.Failure?
    ensures id !in ObjectPrototypeMembers && id !in PresetIds ==> r == Success(None)
  {
    if id in ObjectPrototypeMembers then Failure("TypeError")
    else if id !in PresetIds then Success(None)
    else if mode == "__proto__" then Failure("TypeError")
    else if mode in ObjectPrototypeMembers then Failure("SyntaxError")
    else Success(GetPresetConfig(id, mode))
  }

  /** As written, a stored theme id of "constructor" throws instead of giving no preset. */
  lemma PresetIdConstructorThrows(mode: string)
    ensures ClonePresetConfigAsWritten("constructor", mode) == Failure("TypeError")
    ensures GetPresetConfig("constructor", mode).None?
  {
    assert "constructor" in ObjectPrototypeMembers;
    assert "constructor" !in PresetIds;
  }

  /** The corrected lookup agrees with the as-written one wherever neither name is inherited. */
  lemma {:induction false} PresetLookupAgrees(id: string, mode: string)
    requires id !in ObjectPrototypeMembers && mode !in ObjectPrototypeMembers
    ensures ClonePresetConfigAsWritten(id, mode) == Success(GetPresetConfig(id, mode))
  {
    if id !in PresetIds {
      assert GetPresetConfig(id, mode).None?;
    }
  }

  /** Every preset comes in the mode asked for, with the full theme list. */
  lemma GetPresetConfigMode(id: string, mode: string)
    requires id in PresetIds && (mode == "light" || mode == "dark")
    ensures var theme := Get(GetPresetConfig(id, mode).value, "theme");
      Get(theme, "mode") == Str(mode) && Get(theme, "availableThemes") == ThemeOptions
  {
  }

  // ---------------------------------------------------------------------------
  // mergeThemeDefaults
  // ---------------------------------------------------------------------------

  /** `source` with a nested `config` object spread over it (`{ ...source, ...source.config }`). */
  function WorkingSource(source: Value): (r: Value)
    ensures !IsObject(Get(source, "config")) ==> r == source
  {
    var rootConfig := Get(source, "config");
    if IsObject(rootConfig) then Obj(Spread(Spread([], source.fields), rootConfig.fields)) else source
  }

  /** `typeof workingSource?.theme === "string" ? workingSource.theme : null`, kept only when truthy. */
  function LegacyMode(working: Value): (r: Option<string>)
    ensures r.Some? ==> r.value != []
  {
    var theme := Get(working, "theme");
    if theme.Str? && theme.s != [] then Some(theme.s) else None
  }

  /** `{ ...workingSource }`, with a legacy mode string turned into `{ mode }`. */
  function SanitizedSource(working: Value): (r: Fields)
    ensures UniqueKeys(r)
  {
    var copy := Spread([], SpreadSource(working));
    SpreadKeepsUniqueKeys([], SpreadSource(working));
    match LegacyMode(working)
    case Some(mode) =>
      PutKeepsUniqueKeys(copy, "theme", Obj([("mode", Str(mode))]));
      Put(copy, "theme", Obj([("mode", Str(mode))]))
    case None => copy
  }

  /** `value.length` as the availableThemes test reads it. */
  function LengthOf(v: Value): Value {
    match v
    case Arr(items) => Num(|items| as real)
    case Str(s) => Num(|s| as real)
    case Obj(fs) => Lookup(fs, "length")
    case _ => Undefined
  }

  /** `if (!theme.availableThemes || !theme.availableThemes.length) theme.availableThemes = AVAILABLE_THEME_OPTIONS` */
  function WithThemeList(theme: Fields): (r: Fields)
    ensures Truthy(Lookup(r, "availableThemes"))
    ensures Lookup(r, "id") == Lookup(theme, "id") && Lookup(r, "mode") == Lookup(theme, "mode")
  {
    var themes := Lookup(theme, "availableThemes");
    if !Truthy(themes) || !Truthy(LengthOf(themes)) then Put(theme, "availableThemes", ThemeOptions) else theme
  }

  /** `if (!theme.id) theme.id = "bostami"` */
  function WithId(theme: Fields): (r: Fields)
    ensures Truthy(Lookup(r, "id"))
    ensures Truthy(Lookup(theme, "id")) ==> r == theme
    ensures Lookup(r, "availableThemes") == Lookup(theme, "availableThemes") && Lookup(r, "mode") == Lookup(theme, "mode")
  {
    if !Truthy(Lookup(theme, "id")) then Put(theme, "id", Str("bostami")) else theme
  }

  /** The legacy mode, if any, then `theme.mode = theme.mode === "dark" ? "dark" : "light"`. */
  function WithMode(theme: Fields, legacy: Option<string>): (r: Fields)
    ensures Lookup(r, "mode") == Str("light") || Lookup(r, "mode") == Str("dark")
    ensures legacy.Some? ==> Lookup(r, "mode") == Str(if legacy.value == "dark" then "dark" else "light")
    ensures legacy.None? ==> Lookup(r, "mode") == Str(if Lookup(theme, "mode") == Str("dark") then "dark" else "light")
    ensures Lookup(r, "availableThemes") == Lookup(theme, "availableThemes") && Lookup(r, "id") == Lookup(theme, "id")
  {
    NormaliseMode(ApplyLegacyMode(theme, legacy))
  }

  /** `if (legacyMode) theme.mode = legacyMode === "dark" ? "dark" : "light"` */
  function ApplyLegacyMode(theme: Fields, legacy: Option<string>): (r: Fields)
    ensures legacy.Some? ==> Lookup(r, "mode") == Str(if legacy.value == "dark" then "dark" else "light")
    ensures legacy.None? ==> r == theme
    ensures forall k :: k != "mode" ==> Lookup(r, k) == Lookup(theme, k)
  {
    match legacy
    case Some(m) => Put(theme, "mode", Str(if m == "dark" then "dark" else "light"))
    case None => theme
  }

  /** `theme.mode = theme.mode === "dark" ? "dark" : "light"`: only "dark" survives, anything else becomes "light". */
  function NormaliseMode(theme: Fields): (r: Fields)
    ensures Lookup(theme, "mode") == Str("dark") ==> Lookup(r, "mode") == Str("dark")
    ensures Lookup(theme, "mode") != Str("dark") ==> Lookup(r, "mode") == Str("light")
    ensures forall k :: k != "mode" ==> Lookup(r, k) == Lookup(theme, k)
  {
    Put(theme, "mode", if Lookup(theme, "mode") == Str("dark") then Str("dark") else Str("light"))
  }

  /** The fixes applied to `merged.theme` in place: theme list, id and mode. */
  function NormaliseTheme(theme: Fields, legacy: Option<string>): (r: Fields)
    ensures Lookup(r, "mode") == Str("light") || Lookup(r, "mode") == Str("dark")
    ensures Truthy(Lookup(r, "id")) && Truthy(Lookup(r, "availableThemes"))
    ensures legacy.Some? ==> Lookup(r, "mode") == Str(if legacy.value == "dark" then "dark" else "light")
  {
    WithMode(WithId(WithThemeList(theme)), legacy)
  }

  /** `{ ...configProjection, config: configProjection }` */
  function Project(theme: Value, merged: Value): (r: Value)
    ensures IsObject(r) && Get(r, "theme") == theme
    ensures Get(r, "config") == Obj([("theme", theme), ("layout", Get(merged, "layout")),
      ("features", Get(merged, "features")), ("content", Get(merged, "content"))])
  {
    var projection := [("theme", theme), ("layout", Get(merged, "layout")),
      ("features", Get(merged, "features")), ("content", Get(merged, "content"))];
    var fs := projection + [("config", Obj(projection))];
    assert fs[1..][1..][1..][1..] == [("config", Obj(projection))];
    assert Lookup(fs, "config") == Lookup(fs[1..], "config") == Lookup(fs[1..][1..], "config")
      == Lookup(fs[1..][1..][1..], "config") == Lookup(fs[1..][1..][1..][1..], "config");
    Obj(fs)
  }

  const EmptyConfig: Value := Obj([("theme", Obj([])), ("layout", Obj([])), ("features", Obj([])), ("content", Obj([]))])

  /** The rest of `mergeThemeDefaults` once `merged = mergeDeep(base, sanitizedSource)` is known. */
  function FinishMerged(merged: Value, legacy: Option<string>): (r: Result<Value, string>)
    ensures r.Failure? <==> !IsObjectLike(Get(merged, "theme"))
    ensures r.Success? ==> (IsObject(r.value) &&
      var theme := Get(r.value, "theme");
      IsObject(theme) &&
      (Get(theme, "mode") == Str("light") || Get(theme, "mode") == Str("dark")) &&
      Truthy(Get(theme, "id")) && Truthy(Get(theme, "availableThemes")) &&
      Get(Get(r.value, "config"), "theme") == theme)
    ensures r.Success? && legacy.Some? ==>
      Get(Get(r.value, "theme"), "mode") == Str(if legacy.value == "dark" then "dark" else "light")
  {
    match Get(merged, "theme")
    case Obj(theme) => Success(Project(Obj(NormaliseTheme(theme, legacy)), merged))
    case Arr(items) => Success(Project(Obj(NormaliseTheme(IndexEntries(items, 0), legacy)), merged))
    case _ => Failure("TypeError")
  }

  /**
   * The preset `mergeThemeDefaults` starts from, `clonePresetConfig("bostami", "light")`,
   * written out; `DefaultBaseIsPreset` proves it equal to the computed preset.
   */
  function DefaultBase(): (r: Value)
    ensures IsObject(r) && IsObject(Get(r, "theme"))
  {
    Obj([
      ("theme", Obj([("id", Str("bostami")), ("mode", Str("light")), ("availableThemes", ThemeOptions)])),
      ("layout", Obj([])),
      ("features", Obj([])),
      ("content", Obj([]))
    ])
  }

  lemma DefaultBaseIsPreset()
    ensures GetPresetConfig("bostami", "light") == Some(DefaultBase())
  {
    var base := PresetBase("bostami");
    var theme := Get(base, "theme").fields;
    assert theme == [("id", Str("bostami")), ("mode", Str("light")), ("availableThemes", ThemeOptions)];
    assert Keys(theme)[..1] == ["id"];
    assert Keys(theme)[..2] == ["id", "mode"];
    PutSameValue(theme, 0, "id", Str("bostami"));
    PutSameValue(theme, 1, "mode", Str("light"));
    PutSameValue(theme, 2, "availableThemes", ThemeOptions);
    assert StampTheme(theme, "bostami", "light") == theme;
    PutSameValue(base.fields, 0, "theme", Obj(theme));
    assert ApplyPresetMode(base, "bostami", "light", Obj([])) == base;
    assert PresetVariant("bostami", "light") == Some(base);
  }

  /**
   * `mergeThemeDefaults(source)` as written: a `theme` that is neither a
   * string with a mode in it nor an object or array (null, "", a number, a
   * boolean, undefined) replaces the preset's theme and then throws a
   * TypeError when the theme list is read or written (`Failure`). An array
   * that receives named properties is represented by its index entries.
   */
  function MergeThemeDefaultsAsWritten(source: Value): (r: Result<Value, string>)
    ensures r.Failure? ==> r.error == "TypeError"
    ensures r.Success? ==>
      && IsObject(r.value)
      && var theme := Get(r.value, "theme");
         && IsObject(theme) && (Get(theme, "mode") == Str("light") || Get(theme, "mode") == Str("dark"))
         && Truthy(Get(theme, "id")) && Truthy(Get(theme, "availableThemes")) && Get(Get(r.value, "config"), "theme") == theme
  {
    DefaultBaseIsPreset();
    match GetPresetConfig("bostami", "light")
    case None => Success(EmptyConfig)
    case Some(base) =>
      var working := WorkingSource(source);
      FinishMerged(MergeDeep(base, Obj(SanitizedSource(working))), LegacyMode(working))
  }

  /** `{ theme: null }`, the theme `DEFAULT_RESUME` carries, makes the as-written normalisation throw. */
  lemma MergeThemeDefaultsAsWrittenNullTheme()
    ensures MergeThemeDefaultsAsWritten(Obj([("theme", Null)])).Failure?
  {
    var source := Obj([("theme", Null)]);
    assert WorkingSource(source) == source;
    assert LegacyMode(source) == None;
    assert Spread([], [("theme", Null)]) == [("theme", Null)];
    var sanitized := SanitizedSource(source);
    assert sanitized == [("theme", Null)];
    DefaultBaseIsPreset();
    MergeDeepLookup(DefaultBase(), Obj(sanitized), "theme");
  }

  /** The corrected sanitising step: a `theme` that is not an object or array is replaced by `{}`. */
  function CleanTheme(sanitized: Fields): (r: Fields)
    requires UniqueKeys(sanitized)
    ensures UniqueKeys(r)
    ensures HasKey(r, "theme") ==> IsObjectLike(Lookup(r, "theme"))
    ensures !HasKey(sanitized, "theme") || IsObjectLike(Lookup(sanitized, "theme")) ==> r == sanitized
  {
    if !HasKey(sanitized, "theme") || IsObjectLike(Lookup(sanitized, "theme")) then sanitized
    else
      PutKeepsUniqueKeys(sanitized, "theme", Obj([]));
      Put(sanitized, "theme", Obj([]))
  }

  /** With a cleaned source the merged theme is always an object or an array. */
  lemma MergedThemeIsObjectLike(base: Value, cleaned: Fields)
    requires IsObject(base) && IsObject(Get(base, "theme"))
    requires UniqueKeys(cleaned) && (HasKey(cleaned, "theme") ==> IsObjectLike(Lookup(cleaned, "theme")))
    ensures IsObjectLike(Get(MergeDeep(base, Obj(cleaned)), "theme"))
  {
    MergeDeepLookup(base, Obj(cleaned), "theme");
  }

  /**
   * `mergeThemeDefaults(source)` with a non-object, non-legacy `theme`
   * ignored, so that the preset's theme is kept: the function then always
   * returns a normalised configuration.
   */
  function MergeThemeDefaults(source: Value): (r: Value)
    ensures IsObject(r)
    ensures var theme := Get(r, "theme");
      IsObject(theme) &&
      (Get(theme, "mode") == Str("light") || Get(theme, "mode") == Str("dark")) &&
      Truthy(Get(theme, "id")) && Truthy(Get(theme, "availableThemes"))
    ensures Get(Get(r, "config"), "theme") == Get(r, "theme")
    ensures var legacy := LegacyMode(WorkingSource(source));
      legacy.Some? ==> Get(Get(r, "theme"), "mode") == Str(if legacy.value == "dark" then "dark" else "light")
  {
    var working := WorkingSource(source);
    var cleaned := CleanTheme(SanitizedSource(working));
    MergedThemeIsObjectLike(DefaultBase(), cleaned);
    FinishMerged(MergeDeep(DefaultBase(), Obj(cleaned)), LegacyMode(working)).value
  }

  /** Wherever the as-written version returns, the corrected one returns the same configuration. */
  lemma MergeThemeDefaultsAgrees(source: Value)
    requires MergeThemeDefaultsAsWritten(source).Success?
    ensures MergeThemeDefaultsAsWritten(source).value == MergeThemeDefaults(source)
  {
    var working := WorkingSource(source);
    var sanitized := SanitizedSource(working);
    DefaultBaseIsPreset();
    MergeDeepLookup(DefaultBase(), Obj(sanitized), "theme");
    assert CleanTheme(sanitized) == sanitized;
  }

  /** A legacy string theme is a mode: "dark" gives dark, any other string light. */
  lemma MergeThemeDefaultsLegacyMode(source: Value, mode: string)
    requires IsObject(source) && !IsObject(Get(source, "config"))
    requires Get(source, "theme") == Str(mode) && mode != ""
    ensures Get(Get(MergeThemeDefaults(source), "theme"), "mode") == Str(if mode == "dark" then "dark" else "light")
  {
    assert WorkingSource(source) == source;
    assert LegacyMode(source) == Some(mode);
  }

  /** A nested `config` object wins over the top-level keys it repeats. */
  lemma WorkingSourceConfigWins(source: Value, k: string)
    requires IsObject(source) && IsObject(Get(source, "config"))
    requires UniqueKeys(Get(source, "config").fields) && HasKey(Get(source, "config").fields, k)
    ensures Get(WorkingSource(source), k) == Lookup(Get(source, "config").fields, k)
  {
    SpreadLookup(Spread([], source.fields), Get(source, "config").fields, k);
  }
}
