/**
 * The registry of site themes: the "bostami" theme built from deep copies of
 * the default configuration, the "ryancv" theme, and the lookup of a theme
 * definition by id with "bostami" as the fallback.
 */
module ThemeRegistry {
  import opened Wrappers
  import opened JsValue

  // ---------------------------------------------------------------------------
  // clone
  // ---------------------------------------------------------------------------

  /** A value JSON can carry unchanged: no `undefined` anywhere in it. */
  predicate IsJson(v: Value)
    decreases v
  {
    match v
    case Undefined => false
    case Arr(items) => forall i :: 0 <= i < |items| ==> IsJson(items[i])
    case Obj(fs) => forall i :: 0 <= i < |fs| ==> IsJson(fs[i].1)
    case _ => true
  }

  /** A value after `JSON.stringify` and `JSON.parse` inside a structure: `undefined` becomes `null` in arrays and is dropped from objects. */
  function JsonValue(v: Value): (r: Value)
    ensures !v.Undefined? && !v.Arr? && !v.Obj? ==> r == v
    ensures v.Arr? ==> r.Arr? && |r.items| == |v.items|
    ensures v.Obj? ==> r.Obj?
    decreases v, 1
  {
    match v
    case Undefined => Null
    case Arr(items) => Arr(seq(|items|, i requires 0 <= i < |items| => JsonValue(items[i])))
    case Obj(fs) => Obj(JsonFields(v, fs))
    case _ => v
  }

  /** The entries of an object after the round trip: those whose value is `undefined` are dropped. */
  function JsonFields(ghost parent: Value, fs: Fields): (r: Fields)
    requires forall i :: 0 <= i < |fs| ==> fs[i].1 < parent
    ensures |r| <= |fs|
    decreases parent, 0, |fs|
  {
    if fs == [] then []
    else (if fs[0].1.Undefined? then [] else [(fs[0].0, JsonValue(fs[0].1))]) + JsonFields(parent, fs[1..])
  }

  /** `clone(value)`, that is `JSON.parse(JSON.stringify(value))`; `None` is the error parsing `undefined` raises. */
  function Clone(v: Value): (r: Option<Value>)
    ensures v.Undefined? <==> r.None?
  {
    if v.Undefined? then None else Some(JsonValue(v))
  }

  /** A JSON value survives the round trip unchanged. */
  lemma {:induction false} JsonValueKeepsJson(v: Value)
    requires IsJson(v)
    ensures JsonValue(v) == v
    decreases v, 1
  {
    match v
    case Arr(items) =>
      forall i | 0 <= i < |items|
        ensures JsonValue(items[i]) == items[i]
      {
        JsonValueKeepsJson(items[i]);
      }
      assert JsonValue(v).items == items;
    case Obj(fs) =>
      JsonFieldsKeepJson(v, fs);
    case _ =>
  }

  /** JSON entries survive the round trip unchanged. */
  lemma {:induction false} JsonFieldsKeepJson(parent: Value, fs: Fields)
    requires forall i :: 0 <= i < |fs| ==> fs[i].1 < parent && IsJson(fs[i].1)
    ensures JsonFields(parent, fs) == fs
    decreases parent, 0, |fs|
  {
    if fs != [] {
      JsonValueKeepsJson(fs[0].1);
      JsonFieldsKeepJson(parent, fs[1..]);
      assert [(fs[0].0, fs[0].1)] + fs[1..] == fs;
    }
  }

  /** Whatever goes in, what comes out of the round trip is JSON. */
  lemma {:induction false} JsonValueIsJson(v: Value)
    ensures IsJson(JsonValue(v))
    decreases v, 1
  {
    match v
    case Arr(items) =>
      forall i | 0 <= i < |items|
        ensures IsJson(JsonValue(items[i]))
      {
        JsonValueIsJson(items[i]);
      }
    case Obj(fs) =>
      JsonFieldsAreJson(v, fs);
    case _ =>
  }

  /** Every entry left after the round trip holds JSON. */
  lemma {:induction false} JsonFieldsAreJson(parent: Value, fs: Fields)
    requires forall i :: 0 <= i < |fs| ==> fs[i].1 < parent
    ensures forall i :: 0 <= i < |JsonFields(parent, fs)| ==> IsJson(JsonFields(parent, fs)[i].1)
    decreases parent, 0, |fs|
  {
    if fs != [] {
      JsonValueIsJson(fs[0].1);
      JsonFieldsAreJson(parent, fs[1..]);
    }
  }

  /** A clone is a copy of a JSON value, and cloning a clone changes nothing. */
  lemma CloneRoundTrip(v: Value)
    ensures IsJson(v) ==> Clone(v) == Some(v)
    ensures Clone(v).Some? ==> Clone(Clone(v).value) == Clone(v)
  {
    if IsJson(v) {
      JsonValueKeepsJson(v);
    }
    if !v.Undefined? {
      JsonValueIsJson(v);
      JsonValueKeepsJson(JsonValue(v));
    }
  }

  // ---------------------------------------------------------------------------
  // Definitions and lookup
  // ---------------------------------------------------------------------------

  /** A theme definition: its id, its label (`label` is a reserved word here, hence `caption`), its theme, layout and features, and the app component that renders it. */
  datatype ThemeDefinition = ThemeDefinition(
    id: string, caption: string, theme: Value, layout: Value, features: Value, appComponent: string)

  /** `bostamiTheme`: deep copies of the default theme, layout and features. */
  function BostamiTheme(defaultTheme: Value, defaultLayout: Value, defaultFeatures: Value): (r: ThemeDefinition)
    requires !defaultTheme.Undefined? && !defaultLayout.Undefined? && !defaultFeatures.Undefined?
    ensures r.id == "bostami" && r.caption == "Bostami Classic" && r.appComponent == r.id
    ensures IsJson(r.theme) && IsJson(r.layout) && IsJson(r.features)
    ensures IsJson(defaultTheme) ==> r.theme == defaultTheme
    ensures IsJson(defaultLayout) ==> r.layout == defaultLayout
    ensures IsJson(defaultFeatures) ==> r.features == defaultFeatures
  {
    CloneRoundTrip(defaultTheme);
    CloneRoundTrip(defaultLayout);
    CloneRoundTrip(defaultFeatures);
    JsonValueIsJson(defaultTheme);
    JsonValueIsJson(defaultLayout);
    JsonValueIsJson(defaultFeatures);
    ThemeDefinition("bostami", "Bostami Classic",
      Clone(defaultTheme).value, Clone(defaultLayout).value, Clone(defaultFeatures).value, "bostami")
  }

  /** `ryancvTheme`: the ryancv theme, layout and features (their literal contents are parameters). */
  function RyancvTheme(theme: Value, layout: Value, features: Value): (r: ThemeDefinition)
    ensures r.id == "ryancv" && r.caption == "RyanCV" && r.appComponent == r.id
    ensures r.theme == theme && r.layout == layout && r.features == features
  {
    ThemeDefinition("ryancv", "RyanCV", theme, layout, features, "ryancv")
  }

  /** `THEMES`: the two definitions, under their ids. */
  datatype Themes = Themes(bostami: ThemeDefinition, ryancv: ThemeDefinition)

  /** What `THEMES[id]` finds: a definition, or a member every object inherits from `Object.prototype`. */
  datatype Found = Definition(definition: ThemeDefinition) | Inherited(name: string)

  /**
   * `getThemeDefinition(id)` as written: `THEMES[id] || THEMES.bostami`,
   * where `None` is an omitted id. The lookup also sees the names the
   * registry object inherits, which are truthy and so are returned.
   */
  function GetThemeDefinitionAsWritten(themes: Themes, id: Option<string>): (r: Found)
    ensures id == Some("ryancv") ==> r == Definition(themes.ryancv)
    ensures id.None? || id == Some("bostami") ==> r == Definition(themes.bostami)
    ensures id.Some? && id.value in ObjectPrototypeMembers ==> r == Inherited(id.value)
  {
    var key := if id.None? then "bostami" else id.value;
    if key == "bostami" then Definition(themes.bostami)
    else if key == "ryancv" then Definition(themes.ryancv)
    else if key in ObjectPrototypeMembers then Inherited(key)
    else Definition(themes.bostami)
  }

  /** A theme id such as "constructor" yields an inherited function, not a theme definition. */
  lemma PrototypeNameLeaks(themes: Themes)
    ensures GetThemeDefinitionAsWritten(themes, Some("constructor")) == Inherited("constructor")
    ensures !GetThemeDefinitionAsWritten(themes, Some("constructor")).Definition?
  {
    assert "constructor" in ObjectPrototypeMembers;
  }

  /** `getThemeDefinition(id)` over the registry's own ids: "ryancv" gives its definition, anything else the bostami one. */
  function GetThemeDefinition(themes: Themes, id: Option<string>): (r: ThemeDefinition)
    ensures id == Some("ryancv") ==> r == themes.ryancv
    ensures id != Some("ryancv") ==> r == themes.bostami
  {
    if id == Some("ryancv") then themes.ryancv else themes.bostami
  }

  /** The two lookups agree on every id that is not an inherited member's name. */
  lemma LookupAgrees(themes: Themes, id: Option<string>)
    requires id.None? || id.value !in ObjectPrototypeMembers
    ensures GetThemeDefinitionAsWritten(themes, id) == Definition(GetThemeDefinition(themes, id))
  {
  }

  /**
   * Over the registry, the definition found always carries its own id as its
   * app component, and it is the ryancv one exactly when "ryancv" was asked for.
   */
  lemma DefinitionMatchesRequest(defaultTheme: Value, defaultLayout: Value, defaultFeatures: Value,
                                 theme: Value, layout: Value, features: Value, id: Option<string>)
    requires !defaultTheme.Undefined? && !defaultLayout.Undefined? && !defaultFeatures.Undefined?
    ensures var themes := Themes(BostamiTheme(defaultTheme, defaultLayout, defaultFeatures), RyancvTheme(theme, layout, features));
      var r := GetThemeDefinition(themes, id);
      r.appComponent == r.id && (r.id == "ryancv" <==> id == Some("ryancv"))
  {
  }
}
