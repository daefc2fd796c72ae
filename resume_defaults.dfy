/**
 * The normalisation every resume goes through before the resume form edits
 * it: missing fields take the defaults, the theme configuration is
 * normalised and mirrored under `config`, and the list fields are always
 * arrays.
 */
module ResumeDefaults {
  import opened Text
  import opened JsValue
  import opened ThemePresets

  const DefaultConfig: Fields := [("theme", Null), ("layout", Obj([])), ("features", Obj([])), ("content", Obj([]))]

  const DefaultAbout: Fields := [("short_description", Str("")), ("description", Str(""))]

  /** DEFAULT_RESUME */
  const DefaultResume: Fields := [
    ("profession", Str("")), ("phone", Str("")), ("email", Str("")), ("location", Str("")),
    ("birth_date", Str("")), ("facebook", Str("")), ("linkedin", Str("")), ("avatar", Str("")),
    ("theme", Null), ("layout", Obj([])), ("features", Obj([])), ("content", Obj([])),
    ("config", Obj(DefaultConfig)),
    ("include_blogs", Bool(false)), ("can_download_cv", Bool(false)), ("language_used", Str("en")),
    ("about", Obj(DefaultAbout)),
    ("what_i_do", Arr([])), ("education", Arr([])), ("experience", Arr([])),
    ("working_skills", Arr([])), ("knowledge", Arr([])), ("languages", Arr([]))
  ]

  /** `const { config, ...rest } = resume || {}`: the own entries of the resume except `config`. */
  function Rest(resume: Value): (r: Fields)
    ensures !HasKey(r, "config")
    ensures forall k :: k != "config" ==> Lookup(r, k) == Lookup(SpreadSource(resume), k)
  {
    Delete(SpreadSource(resume), "config")
  }

  /** `{ ...rest, ...(typeof config === "object" ? config : {}) }`; `typeof null` is "object" too. */
  function ThemeSource(resume: Value): (r: Fields)
    ensures UniqueKeys(r)
  {
    var config := Get(resume, "config");
    var extra := if config.Null? || IsObjectLike(config) then SpreadSource(config) else [];
    SpreadKeepsUniqueKeys([], Rest(resume));
    SpreadKeepsUniqueKeys(Spread([], Rest(resume)), extra);
    Spread(Spread([], Rest(resume)), extra)
  }

  /** A knowledge entry as the form edits it: `typeof item === "string" ? item : item?.value || ""`. */
  function KnowledgeEntry(item: Value): (r: Value)
    ensures item.Str? ==> r == item
    ensures !item.Str? && !item.Obj? ==> r == Str("")
    ensures item.Obj? ==> r == (if Truthy(Lookup(item.fields, "value")) then Lookup(item.fields, "value") else Str(""))
  {
    if item.Str? then item else Or(Get(item, "value"), Str(""))
  }

  function KnowledgeEntries(items: seq<Value>): (r: seq<Value>)
    ensures |r| == |items|
    ensures forall i :: 0 <= i < |items| ==> r[i] == KnowledgeEntry(items[i])
  {
    if items == [] then [] else [KnowledgeEntry(items[0])] + KnowledgeEntries(items[1..])
  }

  /** `Array.isArray(v) ? v : []` */
  function ArrayOrEmpty(v: Value): (r: Value)
    ensures r.Arr?
    ensures v.Arr? ==> r == v
  {
    if v.Arr? then v else Arr([])
  }

  /** `{ ...DEFAULT_RESUME.about, ...raw, short_description }` with `raw = merged.about || {}`. */
  function About(about: Value): (r: Value)
    ensures r.Obj?
    ensures var raw := Or(about, Obj([]));
      Lookup(r.fields, "short_description") == Coalesce(Coalesce(Get(raw, "short_description"), Get(raw, "title")), Str(""))
  {
    var raw := Or(about, Obj([]));
    var shortDescription := Coalesce(Coalesce(Get(raw, "short_description"), Get(raw, "title")), Str(""));
    Obj(Put(Spread(DefaultAbout, SpreadSource(raw)), "short_description", shortDescription))
  }

  /** The four normalised theme parts, as `{ theme, layout, features, content }`. */
  function ThemeParts(td: Value): Fields {
    [("theme", Get(td, "theme")), ("layout", Get(td, "layout")), ("features", Get(td, "features")), ("content", Get(td, "content"))]
  }

  lemma ThemePartsKeys(td: Value)
    ensures UniqueKeys(ThemeParts(td))
    ensures Keys(ThemeParts(td)) == ["theme", "layout", "features", "content"]
  {
    var t := ThemeParts(td);
    assert Keys(t) == [t[0].0] + Keys(t[1..]);
    assert Keys(t[1..]) == [t[1].0] + Keys(t[2..]);
    assert Keys(t[2..]) == [t[2].0] + Keys(t[3..]);
    assert Keys(t[3..]) == [t[3].0];
  }

  lemma ThemePartsLookup(td: Value, part: string)
    requires part == "theme" || part == "layout" || part == "features" || part == "content"
    ensures Lookup(ThemeParts(td), part) == Get(td, part)
  {
    var t := ThemeParts(td);
    assert Lookup(t, part) == Lookup(t[1..], part) || t[0].0 == part;
    assert t[1..][1..][1..] == [t[3]];
    assert Lookup(t[1..], part) == Lookup(t[1..][1..], part) || t[1].0 == part;
    assert Lookup(t[1..][1..], part) == Lookup(t[1..][1..][1..], part) || t[2].0 == part;
  }

  lemma NotThemePart(td: Value, k: string)
    requires k != "theme" && k != "layout" && k != "features" && k != "content"
    ensures !HasKey(ThemeParts(td), k)
  {
    ThemePartsKeys(td);
  }

  /** The knowledge list: strings, with objects replaced by their `value`. */
  function Knowledge(v: Value): (r: Value)
    ensures r.Arr?
    ensures v.Arr? ==> |r.items| == |v.items| && forall i :: 0 <= i < |v.items| ==> r.items[i] == KnowledgeEntry(v.items[i])
    ensures !v.Arr? ==> r == Arr([])
  {
    if v.Arr? then Arr(KnowledgeEntries(v.items)) else Arr([])
  }

  /** The keys `mergeResumeDefaults` writes after `...merged`, in order. */
  const TailKeys: seq<string> := ["config", "about", "what_i_do", "education", "experience", "working_skills", "knowledge", "languages"]

  predicate ListKey(k: string) {
    k == "what_i_do" || k == "education" || k == "experience" || k == "working_skills" || k == "languages"
  }

  /** The value written for a tail key, computed from `merged` and the theme defaults `td`. */
  function TailValue(merged: Fields, td: Value, k: string): Value {
    if k == "config" then Obj(ThemeParts(td))
    else if k == "about" then About(Lookup(merged, "about"))
    else if k == "knowledge" then Knowledge(Lookup(merged, "knowledge"))
    else ArrayOrEmpty(Lookup(merged, k))
  }

  /** The entries written after `...merged`, one per tail key, in order. */
  function Tail(merged: Fields, td: Value): (r: Fields)
    ensures Keys(r) == TailKeys
  {
    seq(|TailKeys|, i requires 0 <= i < |TailKeys| => (TailKeys[i], TailValue(merged, td, TailKeys[i])))
  }

  /** `{ ...merged, config, about, what_i_do, education, experience, working_skills, knowledge, languages }` */
  function Finish(merged: Fields, td: Value): (r: Fields)
  {
    Spread(merged, Tail(merged, td))
  }

  lemma TailKeysDistinct()
    ensures forall i, j :: 0 <= i < j < |TailKeys| ==> TailKeys[i] != TailKeys[j]
  {
  }

  lemma FinishTail(merged: Fields, td: Value, k: string)
    requires k in TailKeys
    ensures Lookup(Finish(merged, td), k) == TailValue(merged, td, k)
  {
    var tail := Tail(merged, td);
    TailKeysDistinct();
    SpreadLookup(merged, tail, k);
    var n :| 0 <= n < |TailKeys| && TailKeys[n] == k;
    assert k !in Keys(tail)[..n];
    LookupAt(tail, n, k);
  }

  lemma FinishKeeps(merged: Fields, td: Value, k: string)
    requires k !in TailKeys
    ensures Lookup(Finish(merged, td), k) == Lookup(merged, k)
  {
    SpreadLookupAbsent(merged, Tail(merged, td), k);
  }

  lemma ThemePartNotTail(part: string)
    requires part == "theme" || part == "layout" || part == "features" || part == "content"
    ensures part !in TailKeys
  {
  }

  /** The normalised theme configuration of a resume. */
  function ThemeDefaults(resume: Value): Value {
    MergeThemeDefaults(Obj(ThemeSource(resume)))
  }

  /** `merged = { ...DEFAULT_RESUME, ...rest, theme, layout, features, content }` */
  function Merged(resume: Value): Fields {
    Spread(Spread(DefaultResume, Rest(resume)), ThemeParts(ThemeDefaults(resume)))
  }

  /**
   * `mergeResumeDefaults(resume)`: `config` holds the four normalised theme
   * parts, `about` is an object and every list field is an array, whatever the
   * resume holds.
   */
  function MergeResumeDefaults(resume: Value): (r: Fields)
    ensures Lookup(r, "config") == Obj(ThemeParts(ThemeDefaults(resume)))
    ensures Lookup(r, "about").Obj?
    ensures Lookup(r, "knowledge").Arr?
    ensures forall k :: ListKey(k) ==> Lookup(r, k).Arr?
  {
    var merged, td := Merged(resume), ThemeDefaults(resume);
    FinishTail(merged, td, "config");
    FinishTail(merged, td, "about");
    FinishTail(merged, td, "knowledge");
    FinishLists(merged, td);
    Finish(merged, td)
  }

  lemma FinishLists(merged: Fields, td: Value)
    ensures forall k :: ListKey(k) ==> Lookup(Finish(merged, td), k).Arr?
  {
    forall k | ListKey(k)
      ensures Lookup(Finish(merged, td), k).Arr?
    {
      FinishList(merged, td, k);
    }
  }

  lemma FinishList(merged: Fields, td: Value, k: string)
    requires ListKey(k)
    ensures Lookup(Finish(merged, td), k) == ArrayOrEmpty(Lookup(merged, k))
  {
    ListKeyIsTailKey(k);
    FinishTail(merged, td, k);
    ListKeyTailValue(merged, td, k);
  }

  /** The value a key of the result takes from `merged`, for keys the tail does not write. */
  lemma MergedLookup(resume: Value, k: string)
    requires k !in TailKeys
    ensures Lookup(MergeResumeDefaults(resume), k) == Lookup(Merged(resume), k)
  {
    FinishKeeps(Merged(resume), ThemeDefaults(resume), k);
  }

  /** The top-level theme parts and those under `config` are the same normalised values. */
  lemma MergeResumeDefaultsMirrorsConfig(resume: Value, part: string)
    requires part == "theme" || part == "layout" || part == "features" || part == "content"
    ensures Lookup(MergeResumeDefaults(resume), part) == Get(Lookup(MergeResumeDefaults(resume), "config"), part)
    ensures Lookup(MergeResumeDefaults(resume), part) == Get(ThemeDefaults(resume), part)
  {
    var td := ThemeDefaults(resume);
    FinishTail(Merged(resume), td, "config");
    ThemePartNotTail(part);
    FinishKeeps(Merged(resume), td, part);
    ThemePartsKeys(td);
    SpreadLookup(Spread(DefaultResume, Rest(resume)), ThemeParts(td), part);
    ThemePartsLookup(td, part);
  }

  /** The saved theme is always normalised: a mode of "light" or "dark", an id and a theme list. */
  lemma MergeResumeDefaultsTheme(resume: Value)
    ensures var theme := Lookup(MergeResumeDefaults(resume), "theme");
      IsObject(theme) && (Get(theme, "mode") == Str("light") || Get(theme, "mode") == Str("dark")) &&
      Truthy(Get(theme, "id")) && Truthy(Get(theme, "availableThemes"))
  {
    MergeResumeDefaultsMirrorsConfig(resume, "theme");
  }

  lemma ListKeyIsTailKey(k: string)
    requires ListKey(k)
    ensures k in TailKeys
  {
  }

  /** The list fields are always arrays: the input's array, or [] when it is missing or not an array. */
  lemma MergeResumeDefaultsLists(resume: Value, k: string)
    requires ListKey(k)
    ensures Lookup(MergeResumeDefaults(resume), k) == ArrayOrEmpty(Lookup(Merged(resume), k))
  {
    ListKeyIsTailKey(k);
    FinishTail(Merged(resume), ThemeDefaults(resume), k);
    ListKeyTailValue(Merged(resume), ThemeDefaults(resume), k);
  }

  lemma ListKeyTailValue(merged: Fields, td: Value, k: string)
    requires ListKey(k)
    ensures TailValue(merged, td, k) == ArrayOrEmpty(Lookup(merged, k))
  {
    assert k != "config" && k != "about" && k != "knowledge";
  }

  /** Knowledge entries become strings (objects give their `value`, or "" without one). */
  lemma MergeResumeDefaultsKnowledge(resume: Value)
    ensures var v := Lookup(Merged(resume), "knowledge");
      var r := Lookup(MergeResumeDefaults(resume), "knowledge");
      r.Arr? && (v.Arr? ==> |r.items| == |v.items| && forall i :: 0 <= i < |v.items| ==> r.items[i] == KnowledgeEntry(v.items[i]))
        && (!v.Arr? ==> r == Arr([]))
  {
    FinishTail(Merged(resume), ThemeDefaults(resume), "knowledge");
  }

  /** `about.short_description` is `short_description ?? title ?? ""`: a present "" is kept. */
  lemma MergeResumeDefaultsShortDescription(resume: Value)
    ensures var raw := Or(Lookup(Merged(resume), "about"), Obj([]));
      Get(Lookup(MergeResumeDefaults(resume), "about"), "short_description")
        == Coalesce(Coalesce(Get(raw, "short_description"), Get(raw, "title")), Str(""))
  {
    FinishTail(Merged(resume), ThemeDefaults(resume), "about");
  }

  /** A field the resume does not carry takes the default, e.g. `language_used` is "en". */
  lemma MergeResumeDefaultsScalarDefault(resume: Value, k: string)
    requires k !in TailKeys && k != "theme" && k != "layout" && k != "features" && k != "content"
    requires !HasKey(SpreadSource(resume), k)
    ensures Lookup(MergeResumeDefaults(resume), k) == Lookup(DefaultResume, k)
  {
    FinishKeeps(Merged(resume), ThemeDefaults(resume), k);
    NotThemePart(ThemeDefaults(resume), k);
    SpreadLookupAbsent(Spread(DefaultResume, Rest(resume)), ThemeParts(ThemeDefaults(resume)), k);
    DeleteKeys(SpreadSource(resume), "config", k);
    SpreadLookupAbsent(DefaultResume, Rest(resume), k);
  }

  /** A field the resume carries is kept. */
  lemma MergeResumeDefaultsKeepsField(resume: Value, k: string)
    requires k !in TailKeys && k != "theme" && k != "layout" && k != "features" && k != "content"
    requires IsObject(resume) && UniqueKeys(resume.fields) && HasKey(resume.fields, k)
    ensures Lookup(MergeResumeDefaults(resume), k) == Lookup(resume.fields, k)
  {
    FinishKeeps(Merged(resume), ThemeDefaults(resume), k);
    NotThemePart(ThemeDefaults(resume), k);
    SpreadLookupAbsent(Spread(DefaultResume, Rest(resume)), ThemeParts(ThemeDefaults(resume)), k);
    DeleteKeepsUniqueKeys(resume.fields, "config");
    DeleteKeys(resume.fields, "config", k);
    SpreadLookup(DefaultResume, Rest(resume), k);
  }

  /** A nested `config` object is spread over the resume's other fields before the theme is normalised. */
  lemma ThemeSourceConfigWins(resume: Value, k: string)
    requires IsObject(Get(resume, "config")) && UniqueKeys(Get(resume, "config").fields)
    requires HasKey(Get(resume, "config").fields, k)
    ensures Lookup(ThemeSource(resume), k) == Lookup(Get(resume, "config").fields, k)
  {
    SpreadLookup(Spread([], Rest(resume)), Get(resume, "config").fields, k);
  }

  /** `mergeResumeDefaults({ theme: null })` hands `{ theme: null }` to `mergeThemeDefaults`, which throws as written. */
  lemma MergeResumeDefaultsNullThemeAsWritten()
    ensures ThemeSource(Obj([("theme", Null)])) == [("theme", Null)]
    ensures MergeThemeDefaultsAsWritten(Obj(ThemeSource(Obj([("theme", Null)])))).Failure?
  {
    var resume := Obj([("theme", Null)]);
    assert Delete([("theme", Null)], "config") == [("theme", Null)];
    assert Spread([], [("theme", Null)]) == [("theme", Null)];
    MergeThemeDefaultsAsWrittenNullTheme();
  }
}
