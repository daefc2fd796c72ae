/**
 * The theme step of onboarding: the colour-input normaliser, the gradient
 * bounds of its schema, and the preset picker — a list of the presets plus a
 * "custom" option, navigated with the keyboard, that re-applies a preset on a
 * mode change and switches the form to a custom theme.
 */
module ThemeStep {
  import opened Wrappers
  import opened Text
  import opened JsValue
  import opened ThemePresets

  // ---------------------------------------------------------------------------
  // toColorInputValue
  // ---------------------------------------------------------------------------

  /** `/^#(?:[0-9a-fA-F]{3}|[0-9a-fA-F]{4}|[0-9a-fA-F]{6}|[0-9a-fA-F]{8})$/` */
  predicate HexColor(s: string)
    ensures HexColor(s) ==> s != [] && !IsSpace(s[0]) && !IsSpace(s[|s| - 1])
  {
    (|s| == 4 || |s| == 5 || |s| == 7 || |s| == 9) && s[0] == '#'
    && forall i :: 1 <= i < |s| ==> IsHexDigit(s[i])
  }

  /** `toColorInputValue(value, fallback)` */
  function ToColorInputValue(value: Value, fallback: string): (r: string)
    ensures !value.Str? ==> r == fallback
    ensures value.Str? && HexColor(Trim(value.s)) ==> r == Trim(value.s)
    ensures value.Str? && !HexColor(Trim(value.s)) ==> r == fallback
    ensures r == fallback || HexColor(r)
  {
    if !value.Str? then fallback
    else
      var trimmed := Trim(value.s);
      if HexColor(trimmed) then trimmed else fallback
  }

  /** A colour the input accepts is kept as it is, so the normaliser is idempotent. */
  lemma ToColorInputValueIdempotent(value: Value, fallback: string, fallback': string)
    requires HexColor(fallback)
    ensures var r := ToColorInputValue(value, fallback);
      ToColorInputValue(Str(r), fallback') == r
  {
    var r := ToColorInputValue(value, fallback);
    assert IsHexDigit(r[|r| - 1]);
    TrimOfTrimmed(r);
  }

  /** Surrounding white space is dropped from an accepted colour. */
  lemma PaddedColourAccepted(colour: string, fallback: string)
    requires HexColor(colour)
    ensures ToColorInputValue(Str(" " + colour + " "), fallback) == colour
  {
    assert IsHexDigit(colour[|colour| - 1]);
    TrimPadded(colour);
  }

  // ---------------------------------------------------------------------------
  // The gradient schema
  // ---------------------------------------------------------------------------

  /**
   * `gradientSchema`: an angle in [0, 360] (135 when absent) and at least two
   * stops, none blank (black to white when absent). A non-numeric angle is not
   * modelled.
   */
  predicate GradientAccepted(angle: Option<real>, stops: Option<seq<string>>)
    ensures GradientAccepted(angle, stops) ==>
      (angle.None? || 0.0 <= angle.value <= 360.0) && (stops.None? || |stops.value| >= 2)
  {
    var a := if angle.Some? then angle.value else 135.0;
    var ss := if stops.Some? then stops.value else ["#000000", "#FFFFFF"];
    0.0 <= a <= 360.0 && |ss| >= 2 && forall i :: 0 <= i < |ss| ==> !IsBlank(ss[i])
  }

  /** The defaults pass, and a single stop or an angle past a full turn never does. */
  lemma GradientBounds(angle: real, stops: seq<string>)
    ensures GradientAccepted(None, None)
    ensures |stops| < 2 ==> !GradientAccepted(Some(angle), Some(stops))
    ensures angle < 0.0 || angle > 360.0 ==> !GradientAccepted(Some(angle), None)
  {
    assert !IsBlank("#000000") by { assert !IsSpace("#000000"[0]); }
    assert !IsBlank("#FFFFFF") by { assert !IsSpace("#FFFFFF"[0]); }
  }

  // ---------------------------------------------------------------------------
  // The preset list
  // ---------------------------------------------------------------------------

  /** The options of the list: every preset, in `Object.values(THEME_PRESETS)` order, then "custom". */
  function TotalOptions(): nat {
    |PresetIds| + 1
  }

  /** The key handler's effect on the active index; `None` for a key that does not move it. */
  function NavigatedIndex(key: string, prev: nat): (r: Option<nat>)
    requires prev < TotalOptions()
    ensures r.Some? ==> r.value < TotalOptions()
    ensures (key == "ArrowLeft" || key == "ArrowUp") ==> r == Some(if prev == 0 then TotalOptions() - 1 else prev - 1)
    ensures (key == "ArrowRight" || key == "ArrowDown") ==> r == Some(if prev == TotalOptions() - 1 then 0 else prev + 1)
    ensures key == "Home" ==> r == Some(0)
    ensures key == "End" ==> r == Some(TotalOptions() - 1)
    ensures r.Some? <==> key in {"ArrowLeft", "ArrowUp", "ArrowRight", "ArrowDown", "Home", "End"}
  {
    var total := TotalOptions();
    if key == "ArrowLeft" || key == "ArrowUp" then Some(if prev > 0 then prev - 1 else total - 1)
    else if key == "ArrowRight" || key == "ArrowDown" then Some(if prev < total - 1 then prev + 1 else 0)
    else if key == "Home" then Some(0)
    else if key == "End" then Some(total - 1)
    else None
  }

  /** Moving forward then back, or back then forward, returns to the same option. */
  lemma NavigationInverse(prev: nat)
    requires prev < TotalOptions()
    ensures NavigatedIndex("ArrowLeft", NavigatedIndex("ArrowRight", prev).value) == Some(prev)
    ensures NavigatedIndex("ArrowRight", NavigatedIndex("ArrowLeft", prev).value) == Some(prev)
  {
  }

  /** `themePresetsData.findIndex(preset => preset.id === themeId)` */
  function PresetIndex(themeId: Value, from: nat): (r: Option<nat>)
    requires from <= |PresetIds|
    ensures r.Some? ==> from <= r.value < |PresetIds| && Str(PresetIds[r.value]) == themeId
    ensures r.Some? ==> forall j :: from <= j < r.value ==> Str(PresetIds[j]) != themeId
    ensures r.None? ==> forall j :: from <= j < |PresetIds| ==> Str(PresetIds[j]) != themeId
    decreases |PresetIds| - from
  {
    if from == |PresetIds| then None
    else if Str(PresetIds[from]) == themeId then Some(from)
    else PresetIndex(themeId, from + 1)
  }

  /** The effect that keeps the active index on the selected option. */
  function SyncedIndex(themeId: Value, prev: nat): (r: nat)
    ensures themeId == Str("custom") ==> r == |PresetIds|
    ensures themeId.Str? && themeId.s in PresetIds ==> r < |PresetIds| && PresetIds[r] == themeId.s
    ensures themeId != Str("custom") && !(themeId.Str? && themeId.s in PresetIds) ==> r == prev
  {
    if themeId == Str("custom") then |PresetIds|
    else
      var found := PresetIndex(themeId, 0);
      if found.Some? then found.value
      else
        prev
  }

  /** Syncing is stable: once on the selected option, it stays there. */
  lemma SyncedIndexIdempotent(themeId: Value, prev: nat)
    ensures SyncedIndex(themeId, SyncedIndex(themeId, prev)) == SyncedIndex(themeId, prev)
  {
    if themeId.Str? && themeId.s in PresetIds {
      var r := SyncedIndex(themeId, prev);
      var r2 := SyncedIndex(themeId, r);
      assert PresetIds[r] == PresetIds[r2];
      assert r == r2 by {
        assert forall i, j :: 0 <= i < j < |PresetIds| ==> PresetIds[i] != PresetIds[j];
      }
    }
  }

  // ---------------------------------------------------------------------------
  // The form values the picker changes
  // ---------------------------------------------------------------------------

  /** The form's `theme` object, or no fields when it is not one. */
  function ThemeFields(values: Fields): Fields {
    var theme := Lookup(values, "theme");
    if theme.Obj? then theme.fields else []
  }

  /** `setValue("theme." + key, v)` */
  function SetThemeField(values: Fields, key: string, v: Value): (r: Fields)
    ensures Lookup(ThemeFields(r), key) == v
    ensures forall k :: k != key ==> Lookup(ThemeFields(r), k) == Lookup(ThemeFields(values), k)
    ensures forall k :: k != "theme" ==> Lookup(r, k) == Lookup(values, k)
  {
    Put(values, "theme", Obj(Put(ThemeFields(values), key, v)))
  }

  /** The values `applyPreset(id, mode)` resets the form to; `None` when there is no such preset and nothing happens. */
  function PresetValues(id: string, mode: string): (r: Option<Value>)
    ensures r.Some? <==> id in PresetIds && (mode == "light" || mode == "dark")
    ensures r.Some? ==> IsObject(r.value)
    ensures r.Some? ==> var theme := Get(r.value, "theme");
      IsObject(theme) && (Get(theme, "mode") == Str("light") || Get(theme, "mode") == Str("dark"))
  {
    match GetPresetConfig(id, mode)
    case None => None
    case Some(config) => Some(MergeThemeDefaults(config))
  }

  /**
   * The mode `getPresetConfig` is asked for with `themeMode` as its argument: an
   * undefined mode takes the parameter's default "light", a string is itself, and any
   * other value is read through its `String(...)` text.
   */
  function ModeKey(mode: Value, text: Value -> string): (r: string)
    ensures mode.Undefined? ==> r == "light"
    ensures mode.Str? ==> r == mode.s
  {
    match mode
    case Undefined => "light"
    case Str(s) => s
    case _ => text(mode)
  }

  /** The values after `handleCustomSelect()`: the id becomes "custom" and an empty theme list gets every theme. */
  function CustomValues(values: Fields): (r: Fields)
    ensures Lookup(ThemeFields(r), "id") == Str("custom")
    ensures Truthy(LengthOf(Lookup(ThemeFields(r), "availableThemes")))
    ensures Truthy(LengthOf(Lookup(ThemeFields(values), "availableThemes"))) ==>
      Lookup(ThemeFields(r), "availableThemes") == Lookup(ThemeFields(values), "availableThemes")
    ensures forall k :: k != "id" && k != "availableThemes" ==> Lookup(ThemeFields(r), k) == Lookup(ThemeFields(values), k)
    ensures forall k :: k != "theme" ==> Lookup(r, k) == Lookup(values, k)
  {
    var withId := SetThemeField(values, "id", Str("custom"));
    if !Truthy(LengthOf(Lookup(ThemeFields(values), "availableThemes"))) then
      assert Truthy(LengthOf(ThemeOptions));
      SetThemeField(withId, "availableThemes", ThemeOptions)
    else withId
  }

  /** The step's picker state: the form values, the focused option, whether the advanced editor is open, and the `onChange` calls made. */
  class ThemePicker {
    var values: Fields
    var activeIndex: nat
    var showAdvanced: bool
    var changes: seq<Value>
    /** `previousIsCustomRef.current` */
    var wasCustom: bool

    /** The active index always names an option. */
    predicate Valid()
      reads this
    {
      activeIndex < TotalOptions()
    }

    /** `watch("theme.id")` */
    function ThemeId(): Value
      reads this
    {
      Lookup(ThemeFields(values), "id")
    }

    /** `watch("theme.mode")` */
    function ThemeMode(): Value
      reads this
    {
      Lookup(ThemeFields(values), "mode")
    }

    /** The advanced editor starts open exactly when the (normalised) defaults select the custom theme. */
    constructor(initial: Fields)
      ensures Valid()
      ensures values == initial && activeIndex == 0 && changes == []
      ensures showAdvanced == wasCustom == (Lookup(ThemeFields(initial), "id") == Str("custom"))
    {
      values := initial;
      activeIndex := 0;
      var custom := Lookup(ThemeFields(initial), "id") == Str("custom");
      showAdvanced := custom;
      wasCustom := custom;
      changes := [];
    }

    /**
     * The effect on `showAdvanced`: leaving the custom theme closes the
     * advanced editor, and arriving at it opens it once.
     */
    method SyncAdvanced()
      modifies this
      ensures var custom := old(ThemeId()) == Str("custom");
        wasCustom == custom
        && (!custom ==> !showAdvanced)
        && (custom && !old(wasCustom) ==> showAdvanced)
        && (custom && old(wasCustom) ==> showAdvanced == old(showAdvanced))
      ensures values == old(values) && activeIndex == old(activeIndex) && changes == old(changes)
    {
      var custom := ThemeId() == Str("custom");
      if !custom && showAdvanced {
        showAdvanced := false;
      }
      if custom && !wasCustom {
        showAdvanced := true;
      }
      wasCustom := custom;
    }

    /** `reset(normalized)`, `onChange(normalized)` and `setShowAdvanced(false)`: the last steps of `applyPreset`. */
    method ResetTo(normalized: Value)
      requires normalized.Obj?
      modifies this
      ensures values == normalized.fields && changes == old(changes) + [normalized] && !showAdvanced
      ensures activeIndex == old(activeIndex) && wasCustom == old(wasCustom)
    {
      values := normalized.fields;
      changes := changes + [normalized];
      showAdvanced := false;
    }

    /** `applyPreset(presetId, mode)`: an unknown preset changes nothing. */
    method ApplyPreset(presetId: string, mode: string)
      modifies this
      ensures var p := PresetValues(presetId, mode);
        if p.Some? then
          values == p.value.fields && changes == old(changes) + [p.value] && !showAdvanced
        else
          values == old(values) && changes == old(changes) && showAdvanced == old(showAdvanced)
      ensures activeIndex == old(activeIndex)
    {
      // `getPresetConfig` followed by `mergeThemeDefaults`
      var normalized := PresetValues(presetId, mode);
      if normalized.None? {
        return;
      }
      ResetTo(normalized.value);
    }

    /** `handleCustomSelect()` */
    method CustomSelect()
      modifies this
      ensures values == CustomValues(old(values)) && showAdvanced
      ensures activeIndex == old(activeIndex) && changes == old(changes)
    {
      var current := values;
      values := SetThemeField(values, "id", Str("custom"));
      if !Truthy(LengthOf(Lookup(ThemeFields(current), "availableThemes"))) {
        values := SetThemeField(values, "availableThemes", ThemeOptions);
      }
      showAdvanced := true;
    }

    /**
     * `handleModeChange(mode)`: a selected preset is re-applied in the new
     * mode; without one (or on the custom theme) only `theme.mode` is set.
     * A truthy id that is not a string names no preset, so nothing happens.
     */
    method ModeChange(mode: string)
      modifies this
      ensures var id := old(ThemeId());
        if Truthy(id) && id != Str("custom") then
          (id.Str? && PresetValues(id.s, mode).Some? ==> values == PresetValues(id.s, mode).value.fields && changes == old(changes) + [PresetValues(id.s, mode).value])
          && (!(id.Str? && PresetValues(id.s, mode).Some?) ==> values == old(values) && changes == old(changes))
        else
          values == SetThemeField(old(values), "mode", Str(mode)) && changes == old(changes)
      ensures activeIndex == old(activeIndex)
    {
      var id := ThemeId();
      if Truthy(id) && id != Str("custom") {
        if id.Str? {
          ApplyPreset(id.s, mode);
        }
        return;
      }
      values := SetThemeField(values, "mode", Str(mode));
    }

    /** The effect that follows the selected theme with the active index. */
    method SyncIndex()
      requires Valid()
      modifies this
      ensures Valid()
      ensures activeIndex == SyncedIndex(old(ThemeId()), old(activeIndex))
      ensures values == old(values) && showAdvanced == old(showAdvanced) && changes == old(changes)
    {
      activeIndex := SyncedIndex(ThemeId(), activeIndex);
    }

    /**
     * `handlePresetListKeyDown(event)`: the arrows move with wrap-around,
     * Home and End jump to the ends, and Enter or Space selects the focused
     * option — a preset in the current mode, or the custom theme.
     */
    method PresetListKeyDown(key: string, text: Value -> string)
      requires Valid()
      modifies this
      ensures Valid()
      ensures NavigatedIndex(key, old(activeIndex)).Some? ==>
        activeIndex == NavigatedIndex(key, old(activeIndex)).value && values == old(values) && changes == old(changes)
      ensures (key == "Enter" || key == " ") && old(activeIndex) == |PresetIds| ==>
        values == CustomValues(old(values)) && showAdvanced && changes == old(changes)
      ensures (key == "Enter" || key == " ") && old(activeIndex) < |PresetIds| ==> var m := old(ThemeMode());
        var p := PresetValues(PresetIds[old(activeIndex)], ModeKey(m, text));
        (p.Some? ==> values == p.value.fields && changes == old(changes) + [p.value])
        && (p.None? ==> values == old(values) && changes == old(changes))
      ensures key != "Enter" && key != " " && NavigatedIndex(key, old(activeIndex)).None? ==>
        values == old(values) && activeIndex == old(activeIndex) && changes == old(changes)
      ensures key == "Enter" || key == " " ==> activeIndex == old(activeIndex)
    {
      var next := NavigatedIndex(key, activeIndex);
      if next.Some? {
        activeIndex := next.value;
      } else if key == "Enter" || key == " " {
        if activeIndex < |PresetIds| {
          ApplyPreset(PresetIds[activeIndex], ModeKey(ThemeMode(), text));
        } else {
          CustomSelect();
        }
      }
    }
  }
}
