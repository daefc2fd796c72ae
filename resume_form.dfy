/**
 * The single-page resume editor: the form defaults it derives from the
 * stored resume, the payload it submits, and the bookkeeping of the one
 * expanded card per list when cards are added, removed or clicked.
 */
module ResumeForm {
  import opened Wrappers
  import opened Text
  import opened JsValue
  import opened StepUtils
  import opened ResumeDefaults

  // ---------------------------------------------------------------------------
  // Expanded card index
  // ---------------------------------------------------------------------------

  /**
   * The index a remover sets once item `index` of a list of `count` items is
   * removed: `empty` (-1 for services, 0 for the other lists) when nothing
   * remains, the previous card when the open one was removed, and otherwise
   * the same card at its shifted position.
   */
  function ExpandedAfterRemove(prev: int, index: nat, count: nat, empty: int): (r: int)
    ensures count <= 1 ==> r == empty
    ensures count > 1 && prev == index ==> r == (if index == 0 then 0 else index - 1)
    ensures count > 1 && prev > index ==> r == prev - 1
    ensures count > 1 && prev < index ==> r == prev
  {
    var remaining := count - 1;
    if remaining <= 0 then empty
    else if prev == index then (if index - 1 > 0 then index - 1 else 0)
    else if prev > index then prev - 1
    else prev
  }

  /** `handleRemoveService` */
  function ServiceExpandedAfterRemove(prev: int, index: nat, count: nat): (r: int)
    ensures count <= 1 ==> r == -1
  {
    ExpandedAfterRemove(prev, index, count, -1)
  }

  /** `handleRemoveEducation`, `handleRemoveExperience`, `handleRemoveSkill` and `handleRemoveLanguage` */
  function ListExpandedAfterRemove(prev: int, index: nat, count: nat): (r: int)
    ensures count <= 1 ==> r == 0
  {
    ExpandedAfterRemove(prev, index, count, 0)
  }

  /** `list.splice(index, 1)` */
  function RemoveAt<T>(items: seq<T>, index: nat): (r: seq<T>)
    requires index < |items|
    ensures |r| == |items| - 1
    ensures forall j :: 0 <= j < index ==> r[j] == items[j]
    ensures forall j :: index <= j < |r| ==> r[j] == items[j + 1]
  {
    items[..index] + items[index + 1..]
  }

  /**
   * When another card than the removed one was open, the new index still
   * designates the same item; when the open card itself was removed, the new
   * index is a card of the remaining list.
   */
  lemma RemoveKeepsOpenCard<T>(items: seq<T>, prev: int, index: nat, empty: int)
    requires index < |items| && |items| > 1
    requires 0 <= prev < |items|
    ensures var r := ExpandedAfterRemove(prev, index, |items|, empty);
      0 <= r < |items| - 1 && (prev != index ==> RemoveAt(items, index)[r] == items[prev])
  {
  }

  /** `handleAdd*`: the new card, appended at the old length, is the one open. */
  function ExpandedAfterAdd(count: nat): (r: nat)
  {
    count
  }

  lemma AddOpensNewCard<T>(items: seq<T>, item: T)
    ensures ExpandedAfterAdd(|items|) < |items + [item]|
    ensures (items + [item])[ExpandedAfterAdd(|items|)] == item
  {
  }

  /** The effect run when a list's length or its expanded index changes. */
  function ClampExpanded(current: int, count: nat): (r: int)
    ensures count == 0 ==> r == -1
    ensures count > 0 && current > count - 1 ==> r == count - 1
    ensures count > 0 && current <= count - 1 ==> r == current
  {
    if count == 0 then -1
    else if current > count - 1 then (if count - 1 > 0 then count - 1 else 0)
    else current
  }

  /** After the effect the index is -1 for an empty list and never past the last card; a second run changes nothing. */
  lemma ClampExpandedBounds(current: int, count: nat)
    requires current >= -1
    ensures -1 <= ClampExpanded(current, count) <= count - 1
    ensures ClampExpanded(current, count) == -1 <==> count == 0 || current == -1
    ensures ClampExpanded(ClampExpanded(current, count), count) == ClampExpanded(current, count)
  {
  }

  /** A card header click: the open card closes, any other card opens. */
  function ExpandedAfterClick(prev: int, index: nat): (r: int)
    ensures r == -1 <==> prev == index
    ensures r != -1 ==> r == index
  {
    if prev == index then -1 else index
  }

  // ---------------------------------------------------------------------------
  // normalizedDefaults
  // ---------------------------------------------------------------------------

  /** `typeof item === "string" ? { value: item } : item` */
  function KnowledgeField(item: Value): (r: Value)
    ensures item.Str? ==> r == Obj([("value", item)])
    ensures !item.Str? ==> r == item
  {
    if item.Str? then Obj([("value", item)]) else item
  }

  /** `(base.knowledge || []).map(...)` */
  function KnowledgeFields(knowledge: Value): (r: seq<Value>)
    ensures !Truthy(knowledge) ==> r == []
    ensures knowledge.Arr? ==> |r| == |knowledge.items| && forall i :: 0 <= i < |r| ==> r[i] == KnowledgeField(knowledge.items[i])
  {
    var items := if knowledge.Arr? then knowledge.items else [];
    seq(|items|, i requires 0 <= i < |items| => KnowledgeField(items[i]))
  }

  /** `normalizedDefaults`: the merged resume with every knowledge keyword wrapped as `{ value }`. */
  function NormalizedDefaults(initialValues: Value): (r: Fields)
    ensures Lookup(r, "knowledge") == Arr(KnowledgeFields(Lookup(MergeResumeDefaults(initialValues), "knowledge")))
    ensures forall k :: k != "knowledge" ==> Lookup(r, k) == Lookup(MergeResumeDefaults(initialValues), k)
  {
    var base := MergeResumeDefaults(initialValues);
    Put(base, "knowledge", Arr(KnowledgeFields(Lookup(base, "knowledge"))))
  }

  /** Every keyword that the stored resume holds as a string is edited as a `{ value }` object. */
  lemma NormalizedKnowledgeIsObjects(initialValues: Value, i: nat)
    requires var v := Lookup(Merged(initialValues), "knowledge"); v.Arr? && i < |v.items| && v.items[i].Str?
    ensures var k := Lookup(NormalizedDefaults(initialValues), "knowledge").items;
      i < |k| && k[i] == Obj([("value", Lookup(Merged(initialValues), "knowledge").items[i])])
  {
    var v := Lookup(Merged(initialValues), "knowledge");
    MergeResumeDefaultsKnowledge(initialValues);
    var stored := Lookup(MergeResumeDefaults(initialValues), "knowledge");
    assert stored.items[i] == v.items[i];
    var k := KnowledgeFields(stored);
    assert k[i] == KnowledgeField(stored.items[i]);
  }

  // ---------------------------------------------------------------------------
  // submitResume
  // ---------------------------------------------------------------------------

  /** `{ ...item, start_date: formatDateToIso(item.start_date), end_date: formatDateToIso(item.end_date) }` */
  function DatedItem(item: Value, parse: string -> Option<CalendarDate>): (r: Value)
    ensures r.Obj?
    ensures Get(r, "start_date") == Str(FormatDateToIso(DateArg(Get(item, "start_date")), parse))
    ensures Get(r, "end_date") == Str(FormatDateToIso(DateArg(Get(item, "end_date")), parse))
    ensures forall k :: k != "start_date" && k != "end_date" ==> Get(r, k) == Lookup(SpreadSource(item), k)
  {
    var withStart := Put(SpreadSource(item), "start_date", Str(FormatDateToIso(DateArg(Get(item, "start_date")), parse)));
    Obj(Put(withStart, "end_date", Str(FormatDateToIso(DateArg(Get(item, "end_date")), parse))))
  }

  function DatedItems(items: seq<Value>, parse: string -> Option<CalendarDate>): (r: seq<Value>)
    ensures |r| == |items| && forall i :: 0 <= i < |items| ==> r[i] == DatedItem(items[i], parse)
  {
    seq(|items|, i requires 0 <= i < |items| => DatedItem(items[i], parse))
  }

  /** `values.knowledge.map((item) => item.value)` */
  function KnowledgeValues(items: seq<Value>): (r: seq<Value>)
    ensures |r| == |items| && forall i :: 0 <= i < |items| ==> r[i] == Get(items[i], "value")
  {
    seq(|items|, i requires 0 <= i < |items| => Get(items[i], "value"))
  }

  /** The string keywords of the defaults come back unchanged in the payload. */
  lemma KnowledgeRoundTrip(items: seq<Value>, i: nat)
    requires i < |items| && items[i].Str?
    ensures KnowledgeValues(KnowledgeFields(Arr(items)))[i] == items[i]
  {
    var fields := KnowledgeFields(Arr(items));
    assert fields[i] == Obj([("value", items[i])]);
  }

  /** The theme parts, which the payload carries only under `config`. */
  predicate ThemeKey(k: string) {
    k == "theme" || k == "layout" || k == "features" || k == "content"
  }

  /** `payload.config = { theme, layout, features, content }` */
  function ConfigOf(values: Value): (r: Value)
    ensures r.Obj?
    ensures Lookup(r.fields, "theme") == Get(values, "theme")
    ensures Lookup(r.fields, "layout") == Get(values, "layout")
    ensures Lookup(r.fields, "features") == Get(values, "features")
    ensures Lookup(r.fields, "content") == Get(values, "content")
  {
    var withTheme := Put([], "theme", Get(values, "theme"));
    var withLayout := Put(withTheme, "layout", Get(values, "layout"));
    var withFeatures := Put(withLayout, "features", Get(values, "features"));
    Obj(Put(withFeatures, "content", Get(values, "content")))
  }

  /** The keys `submitResume` rewrites before it moves the theme parts. */
  predicate Converted(k: string) {
    k == "knowledge" || k == "education" || k == "experience" || k == "birth_date"
  }

  /** `{ ...values, knowledge, education, experience, birth_date }` */
  function ConvertedValues(values: Value, parse: string -> Option<CalendarDate>): (r: Fields)
    ensures Lookup(r, "knowledge") == Arr(KnowledgeValues(ListOf(values, "knowledge")))
    ensures Lookup(r, "education") == Arr(DatedItems(ListOf(values, "education"), parse))
    ensures Lookup(r, "experience") == Arr(DatedItems(ListOf(values, "experience"), parse))
    ensures Lookup(r, "birth_date") == Str(FormatDateToIso(DateArg(Get(values, "birth_date")), parse))
    ensures forall k :: !Converted(k) ==> Lookup(r, k) == Lookup(SpreadSource(values), k)
  {
    var p1 := Put(SpreadSource(values), "knowledge", Arr(KnowledgeValues(ListOf(values, "knowledge"))));
    var p2 := Put(p1, "education", Arr(DatedItems(ListOf(values, "education"), parse)));
    var p3 := Put(p2, "experience", Arr(DatedItems(ListOf(values, "experience"), parse)));
    PutFour(SpreadSource(values), "knowledge", "education", "experience", "birth_date",
      Arr(KnowledgeValues(ListOf(values, "knowledge"))), Arr(DatedItems(ListOf(values, "education"), parse)),
      Arr(DatedItems(ListOf(values, "experience"), parse)), Str(FormatDateToIso(DateArg(Get(values, "birth_date")), parse)));
    Put(p3, "birth_date", Str(FormatDateToIso(DateArg(Get(values, "birth_date")), parse)))
  }

  /** `payload.config = config` followed by the four `delete`s. */
  function MoveThemeIntoConfig(payload: Fields, config: Value): (r: Fields)
    ensures Lookup(r, "config") == config
    ensures forall k :: ThemeKey(k) ==> Lookup(r, k) == Undefined
    ensures forall k :: !ThemeKey(k) && k != "config" ==> Lookup(r, k) == Lookup(payload, k)
  {
    Delete(Delete(Delete(Delete(Put(payload, "config", config), "theme"), "layout"), "features"), "content")
  }

  /**
   * The payload `submitResume(values)` hands to `onSubmit`. `avatar` is the
   * outcome of reading the chosen file: `None` without a file,
   * `Some(None)` when the read fails, `Some(Some(data))` for its data URL.
   */
  function Payload(values: Value, avatar: Option<Option<string>>, parse: string -> Option<CalendarDate>): (r: Fields)
    ensures avatar.Some? ==> Lookup(r, "avatar_upload") == (if avatar.value.Some? then Str(avatar.value.value) else Null)
    ensures avatar.None? || (forall k :: k != "avatar_upload" ==> Lookup(r, k) == Lookup(MoveThemeIntoConfig(ConvertedValues(values, parse), ConfigOf(values)), k))
    ensures avatar.None? ==> r == MoveThemeIntoConfig(ConvertedValues(values, parse), ConfigOf(values))
  {
    WithAvatar(MoveThemeIntoConfig(ConvertedValues(values, parse), ConfigOf(values)), avatar)
  }

  /** The `avatar_upload` step of `submitResume`: set only when a file was chosen. */
  function WithAvatar(payload: Fields, avatar: Option<Option<string>>): (r: Fields)
    ensures avatar.None? ==> r == payload
    ensures avatar.Some? ==> Lookup(r, "avatar_upload") == (if avatar.value.Some? then Str(avatar.value.value) else Null)
    ensures forall k :: k != "avatar_upload" ==> Lookup(r, k) == Lookup(payload, k)
  {
    match avatar
    case None => payload
    case Some(data) => Put(payload, "avatar_upload", if data.Some? then Str(data.value) else Null)
  }

  /** After the move and the avatar step, `config` is the given config and no theme part is left at the top. */
  lemma ThemeMoved(payload: Fields, config: Value, avatar: Option<Option<string>>, k: string)
    requires ThemeKey(k)
    ensures var r := WithAvatar(MoveThemeIntoConfig(payload, config), avatar);
      Lookup(r, "config") == config && Lookup(r, k) == Undefined
  {
    ThemeKeyStays(k);
  }

  /** The payload holds the theme parts only under `config`. */
  lemma PayloadMovesThemeIntoConfig(values: Value, avatar: Option<Option<string>>, parse: string -> Option<CalendarDate>, k: string)
    requires ThemeKey(k)
    ensures Get(Lookup(Payload(values, avatar, parse), "config"), k) == Get(values, k)
    ensures Lookup(Payload(values, avatar, parse), k) == Undefined
  {
    ThemeMoved(ConvertedValues(values, parse), ConfigOf(values), avatar, k);
    ConfigOfThemeKey(values, k);
  }

  /** The theme parts are neither `config` nor `avatar_upload`. */
  lemma ThemeKeyStays(k: string)
    requires ThemeKey(k)
    ensures k != "config" && k != "avatar_upload"
  {
  }

  /** `config` carries each theme part of the form. */
  lemma ConfigOfThemeKey(values: Value, k: string)
    requires ThemeKey(k)
    ensures Get(ConfigOf(values), k) == Get(values, k)
  {
  }

  /** The keywords and dates `ConvertedValues` rewrites reach the payload as rewritten. */
  lemma PayloadConvertedFields(values: Value, avatar: Option<Option<string>>, parse: string -> Option<CalendarDate>, k: string)
    requires Converted(k)
    ensures Lookup(Payload(values, avatar, parse), k) == Lookup(ConvertedValues(values, parse), k)
  {
    ConvertedStays(k);
    PayloadKeepsConverted(values, avatar, parse, k);
  }

  /** The rewritten keys are neither theme parts nor the keys the payload adds. */
  lemma ConvertedStays(k: string)
    requires Converted(k)
    ensures !ThemeKey(k) && k != "config" && k != "avatar_upload"
  {
  }

  /** A key the payload neither moves nor adds keeps its value from `ConvertedValues`. */
  lemma PayloadKeepsConverted(values: Value, avatar: Option<Option<string>>, parse: string -> Option<CalendarDate>, k: string)
    requires !ThemeKey(k) && k != "config" && k != "avatar_upload"
    ensures Lookup(Payload(values, avatar, parse), k) == Lookup(ConvertedValues(values, parse), k)
  {
    var moved := MoveThemeIntoConfig(ConvertedValues(values, parse), ConfigOf(values));
    assert Lookup(WithAvatar(moved, avatar), k) == Lookup(moved, k);
  }

  /** Every other field of the form reaches the payload unchanged. */
  lemma PayloadKeepsFields(values: Value, avatar: Option<Option<string>>, parse: string -> Option<CalendarDate>, k: string)
    requires !ThemeKey(k) && !Converted(k) && k != "config" && k != "avatar_upload"
    ensures Lookup(Payload(values, avatar, parse), k) == Lookup(SpreadSource(values), k)
  {
    PayloadKeepsConverted(values, avatar, parse, k);
  }
}
