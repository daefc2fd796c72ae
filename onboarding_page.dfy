/**
 * The onboarding wizard page: the per-step extract (resume to form draft) and
 * transform (form values to PATCH payload) functions, the knowledge and
 * array-payload cleaners, the draft table built from a resume, and the page
 * state that loading and submitting a step update.
 */
module OnboardingPage {
  import opened Wrappers
  import opened Text
  import opened JsValue
  import opened StepUtils
  import opened ThemePresets
  import opened ResumeDefaults

  /** STEP_SEQUENCE */
  const StepSequence: seq<string> := ["step_1", "step_2", "step_3", "step_4", "theme", "logout"]

  /** The entries of STEP_CONFIGS. */
  datatype Step = StepProfile | StepExperience | StepEducation | StepSkills | StepTheme | StepLogout

  /** `STEP_CONFIGS[key]` on the table's own keys. */
  function StepOf(key: string): (r: Option<Step>)
    ensures r.Some? <==> key in StepSequence
  {
    if key == "step_1" then Some(StepProfile)
    else if key == "step_2" then Some(StepExperience)
    else if key == "step_3" then Some(StepEducation)
    else if key == "step_4" then Some(StepSkills)
    else if key == "theme" then Some(StepTheme)
    else if key == "logout" then Some(StepLogout)
    else None
  }

  /** No configuration is named after an inherited object member. */
  lemma InheritedNamesAreNoSteps(key: string)
    requires key in ObjectPrototypeMembers
    ensures StepOf(key).None?
  {
  }

  /** The `key` field of a step's configuration. */
  function KeyOf(step: Step): (key: string)
    ensures key in StepSequence
    ensures StepOf(key) == Some(step)
  {
    match step
    case StepProfile => "step_1"
    case StepExperience => "step_2"
    case StepEducation => "step_3"
    case StepSkills => "step_4"
    case StepTheme => "theme"
    case StepLogout => "logout"
  }

  /** A key that names a configuration is that configuration's own key. */
  lemma KeyOfStepOf(key: string)
    requires StepOf(key).Some?
    ensures KeyOf(StepOf(key).value) == key
  {
  }

  /** Every key of the sequence names its own configuration, and the keys are distinct. */
  lemma StepSequenceKeys(i: nat)
    requires i < |StepSequence|
    ensures StepOf(StepSequence[i]).Some?
    ensures KeyOf(StepOf(StepSequence[i]).value) == StepSequence[i]
    ensures forall j :: 0 <= j < |StepSequence| && j != i ==> StepSequence[j] != StepSequence[i]
  {
    assert StepSequence[i] in StepSequence;
    var step := StepOf(StepSequence[i]).value;
    assert StepOf(KeyOf(step)) == Some(step);
    forall j | 0 <= j < |StepSequence| && j != i
      ensures StepSequence[j] != StepSequence[i]
    {
      assert StepSequence[j] in StepSequence;
    }
  }

  // ---------------------------------------------------------------------------
  // Factories
  // ---------------------------------------------------------------------------

  /** createEmptyExperience() */
  const EmptyExperience: Fields := [
    ("company", Str("")), ("role", Str("")), ("location", Str("")), ("start_date", Str("")),
    ("end_date", Str("")), ("current", Bool(false)), ("description", Str(""))
  ]

  /** createEmptyService() */
  const EmptyService: Fields := [("title", Str("")), ("description", Str(""))]

  /** createEmptyEducation() */
  const EmptyEducation: Fields := [
    ("institution", Str("")), ("degree", Str("")), ("field_of_study", Str("")), ("start_date", Str("")),
    ("end_date", Str("")), ("notes", Str("")), ("description", Str(""))
  ]

  /** createEmptySkill() */
  const EmptySkill: Fields := [("title", Str("")), ("level", Str("")), ("percentage", Num(60.0))]

  /** createEmptyLanguage() */
  const EmptyLanguage: Fields := [("title", Str("")), ("level", Str("")), ("percentage", Num(70.0))]

  /** `fs.key || fallback` */
  function OrDefault(fs: Fields, key: string, fallback: string): (r: Value)
    ensures Truthy(Lookup(fs, key)) ==> r == Lookup(fs, key)
    ensures !Truthy(Lookup(fs, key)) ==> r == Str(fallback)
  {
    Or(Lookup(fs, key), Str(fallback))
  }

  // ---------------------------------------------------------------------------
  // Knowledge keywords
  // ---------------------------------------------------------------------------

  function StrValues(ks: seq<string>): (r: seq<Value>)
    ensures |r| == |ks|
    ensures forall i :: 0 <= i < |ks| ==> r[i] == Str(ks[i])
  {
    if ks == [] then [] else [Str(ks[0])] + StrValues(ks[1..])
  }

  function KnowledgeFormEntries(items: seq<Value>): (r: seq<Value>)
    ensures |r| == |items|
    ensures forall i :: 0 <= i < |items| ==> r[i] == Obj([("value", KnowledgeEntry(items[i]))])
  {
    if items == [] then [] else [Obj([("value", KnowledgeEntry(items[0]))])] + KnowledgeFormEntries(items[1..])
  }

  /** `mapKnowledgeToForm(knowledge)`: one `{value}` row per entry, and a single empty row for an empty or missing list. */
  function MapKnowledgeToForm(knowledge: Value): (r: seq<Value>)
    ensures r != []
    ensures !knowledge.Arr? || knowledge.items == [] ==> r == [Obj([("value", Str(""))])]
    ensures knowledge.Arr? && knowledge.items != [] ==>
      |r| == |knowledge.items| &&
      forall i :: 0 <= i < |r| ==> r[i] == Obj([("value", KnowledgeEntry(knowledge.items[i]))])
  {
    var source := if knowledge.Arr? && knowledge.items != [] then knowledge.items else [Str("")];
    KnowledgeFormEntries(source)
  }

  /** A keyword ready to be sent: non-empty, with no white space at either end. */
  predicate IsKeyword(s: string) {
    s != [] && !IsSpace(s[0]) && !IsSpace(s[|s| - 1])
  }

  predicate AllKeywords(ks: seq<string>) {
    forall i :: 0 <= i < |ks| ==> IsKeyword(ks[i])
  }

  /** One row's `(item?.value || "").trim()`; `None` is the TypeError a truthy non-string value raises. */
  function PayloadValue(row: Value): (r: Option<string>)
    ensures r.Some? ==> r.value == [] || IsKeyword(r.value)
  {
    var v := Or(Get(row, "value"), Str(""));
    if v.Str? then Some(Trim(v.s)) else None
  }

  /** `mapKnowledgeToPayload` on the rows: trimmed values, blanks dropped. */
  function PayloadValues(rows: seq<Value>): (r: Option<seq<string>>)
    ensures r.Some? ==> |r.value| <= |rows| && AllKeywords(r.value)
  {
    if rows == [] then Some([]) else Prepend(PayloadValue(rows[0]), PayloadValues(rows[1..]))
  }

  /** One row's keyword in front of the others', blanks dropped; a TypeError in either is a TypeError. */
  function Prepend(head: Option<string>, rest: Option<seq<string>>): (r: Option<seq<string>>)
    ensures head.None? || rest.None? ==> r.None?
    ensures head.Some? && rest.Some? ==> r == Some(if head.value == [] then rest.value else [head.value] + rest.value)
    ensures r.Some? ==> |r.value| <= |rest.value| + 1
    ensures r.Some? && (head.value == [] || IsKeyword(head.value)) && AllKeywords(rest.value) ==> AllKeywords(r.value)
  {
    if head.None? || rest.None? then None
    else if head.value == [] then rest
    else Some([head.value] + rest.value)
  }

  /** `mapKnowledgeToPayload(knowledge)`: the default `[]` covers only `undefined`; any other non-array throws. */
  function MapKnowledgeToPayload(knowledge: Value): (r: Option<seq<string>>)
    ensures knowledge.Undefined? ==> r == Some([])
    ensures !knowledge.Undefined? && !knowledge.Arr? ==> r.None?
    ensures r.Some? ==> forall i :: 0 <= i < |r.value| ==> IsKeyword(r.value[i])
  {
    if knowledge.Undefined? then Some([])
    else if knowledge.Arr? then PayloadValues(knowledge.items)
    else None
  }

  lemma TrimKeyword(s: string)
    requires IsKeyword(s)
    ensures Trim(s) == s
  {
    assert TrimStart(s) == s;
    assert TrimEnd(s) == s;
  }

  lemma PayloadValueOfKeyword(k: string)
    requires IsKeyword(k)
    ensures PayloadValue(Obj([("value", Str(k))])) == Some(k)
  {
    var row := Obj([("value", Str(k))]);
    assert Get(row, "value") == Str(k);
    assert Truthy(Str(k));
    assert Or(Get(row, "value"), Str("")) == Str(k);
    TrimKeyword(k);
  }

  /** Rows whose values are already keywords are sent as they are, in order. */
  lemma {:induction false} PayloadValuesOfKeywords(ks: seq<string>)
    requires forall i :: 0 <= i < |ks| ==> IsKeyword(ks[i])
    ensures PayloadValues(KnowledgeFormEntries(StrValues(ks))) == Some(ks)
  {
    if ks != [] {
      var rows := KnowledgeFormEntries(StrValues(ks));
      KeywordRowsStep(ks);
      PayloadValuesOfKeywords(ks[1..]);
      assert PayloadValues(rows) == Prepend(Some(ks[0]), Some(ks[1..]));
      HeadThenTail(ks);
    }
  }

  /** The first keyword's row sends that keyword, and the other rows are the rows of the other keywords. */
  lemma KeywordRowsStep(ks: seq<string>)
    requires ks != [] && IsKeyword(ks[0])
    ensures var rows := KnowledgeFormEntries(StrValues(ks));
      rows[1..] == KnowledgeFormEntries(StrValues(ks[1..])) && PayloadValue(rows[0]) == Some(ks[0]) && ks[0] != []
  {
    var rows := KnowledgeFormEntries(StrValues(ks));
    assert rows[1..] == KnowledgeFormEntries(StrValues(ks[1..]));
    PayloadValueOfKeyword(ks[0]);
    assert rows[0] == Obj([("value", Str(ks[0]))]);
  }

  /**
   * Keywords loaded into the form and sent back come out unchanged; an empty
   * list shows one empty row, which is dropped again.
   */
  lemma KnowledgeRoundTrip(ks: seq<string>)
    requires forall i :: 0 <= i < |ks| ==> IsKeyword(ks[i])
    ensures MapKnowledgeToPayload(Arr(MapKnowledgeToForm(Arr(StrValues(ks))))) == Some(ks)
  {
    if ks == [] {
      var rows := MapKnowledgeToForm(Arr([]));
      assert Get(rows[0], "value") == Str("");
      assert PayloadValues(rows[1..]) == Some([]);
    } else {
      PayloadValuesOfKeywords(ks);
    }
  }

  lemma PayloadValuesOfAppend(a: seq<Value>, b: seq<Value>)
    requires a != []
    ensures PayloadValues(a + b) == Prepend(PayloadValue(a[0]), PayloadValues(a[1..] + b))
  {
    assert (a + b)[0] == a[0];
    assert (a + b)[1..] == a[1..] + b;
  }

  lemma PrependAppend(head: Option<string>, x: seq<string>, y: seq<string>)
    requires head.Some?
    ensures Prepend(head, Some(x + y)) == Some(Prepend(head, Some(x)).value + y)
  {
    assert [head.value] + (x + y) == ([head.value] + x) + y;
  }

  /** Sending rows one after another keeps their keywords in order. */
  lemma {:induction false} PayloadValuesAppend(a: seq<Value>, b: seq<Value>)
    requires PayloadValues(a).Some? && PayloadValues(b).Some?
    ensures PayloadValues(a + b) == Some(PayloadValues(a).value + PayloadValues(b).value)
  {
    if a == [] {
      assert a + b == b;
      assert [] + PayloadValues(b).value == PayloadValues(b).value;
    } else {
      PayloadValuesOfAppend(a, b);
      PayloadValuesAppend(a[1..], b);
      PrependAppend(PayloadValue(a[0]), PayloadValues(a[1..]).value, PayloadValues(b).value);
    }
  }

  // ---------------------------------------------------------------------------
  // cleanArrayPayload
  // ---------------------------------------------------------------------------

  /** A value that keeps its row: a string that is not blank, or anything but null and undefined. */
  predicate Meaningful(v: Value) {
    if v.Str? then !IsBlank(v.s) else !Nullish(v)
  }

  /** `Object.values(item).some(...)` */
  predicate HasContent(fs: Fields) {
    exists i :: 0 <= i < |fs| && Meaningful(fs[i].1)
  }

  /** `{ ...factory(), ...(item || {}) }` */
  function Row(defaults: Fields, item: Value): Fields {
    Spread(defaults, SpreadSource(item))
  }

  function CleanRows(items: seq<Value>, defaults: Fields): (r: seq<Fields>)
    ensures |r| <= |items|
    ensures forall i :: 0 <= i < |r| ==> HasContent(r[i])
  {
    if items == [] then []
    else
      var row := Row(defaults, items[0]);
      var rest := CleanRows(items[1..], defaults);
      if HasContent(row) then [row] + rest else rest
  }

  /** Every kept row is the row of some item. */
  lemma {:induction false} CleanRowsFromItems(items: seq<Value>, defaults: Fields, i: nat)
    requires i < |CleanRows(items, defaults)|
    ensures exists j :: 0 <= j < |items| && CleanRows(items, defaults)[i] == Row(defaults, items[j])
  {
    var row := Row(defaults, items[0]);
    var rest := CleanRows(items[1..], defaults);
    var head := if HasContent(row) then [row] else [];
    assert CleanRows(items, defaults) == head + rest;
    if i < |head| {
      assert CleanRows(items, defaults)[i] == Row(defaults, items[0]);
    } else {
      var k := i - |head|;
      assert CleanRows(items, defaults)[i] == rest[k];
      CleanRowsFromItems(items[1..], defaults, k);
      var j :| 0 <= j < |items[1..]| && rest[k] == Row(defaults, items[1..][j]);
      assert items[1..][j] == items[j + 1];
    }
  }

  /**
   * `cleanArrayPayload(items, factory)`: `items || []`, each row laid over the
   * defaults, rows without content dropped; `None` is the TypeError of calling
   * `.map` on a truthy non-array.
   */
  function CleanArrayPayload(items: Value, defaults: Fields): (r: Option<seq<Fields>>)
    ensures !Truthy(items) ==> r == Some([])
    ensures items.Arr? ==> r == Some(CleanRows(items.items, defaults))
    ensures Truthy(items) && !items.Arr? ==> r.None?
  {
    if !Truthy(items) then Some([])
    else if items.Arr? then Some(CleanRows(items.items, defaults))
    else None
  }

  /** A row is dropped only when it has no content: rows that all have content are all kept, in order. */
  lemma {:induction false} CleanRowsKeepsContent(items: seq<Value>, defaults: Fields)
    requires forall i :: 0 <= i < |items| ==> HasContent(Row(defaults, items[i]))
    ensures |CleanRows(items, defaults)| == |items|
    ensures forall i :: 0 <= i < |items| ==> CleanRows(items, defaults)[i] == Row(defaults, items[i])
  {
    if items != [] {
      CleanRowsKeepsContent(items[1..], defaults);
    }
  }

  lemma LookupHasEntry(fs: Fields, k: string)
    requires !Lookup(fs, k).Undefined?
    ensures exists i :: 0 <= i < |fs| && fs[i] == (k, Lookup(fs, k))
  {
    if fs[0].0 != k {
      LookupHasEntry(fs[1..], k);
      var i :| 0 <= i < |fs[1..]| && fs[1..][i] == (k, Lookup(fs[1..], k));
      assert fs[i + 1] == (k, Lookup(fs, k));
    } else {
      assert fs[0] == (k, Lookup(fs, k));
    }
  }

  /** A row keeps any factory field its item does not override with null or undefined. */
  lemma RowKeepsFactoryField(defaults: Fields, item: Value, k: string)
    requires Meaningful(Lookup(defaults, k)) && !HasKey(SpreadSource(item), k)
    ensures HasContent(Row(defaults, item))
  {
    SpreadLookupAbsent(defaults, SpreadSource(item), k);
    LookupHasEntry(Row(defaults, item), k);
  }

  lemma EmptyExperienceCurrent()
    ensures Lookup(EmptyExperience, "current") == Bool(false)
  {
    var t := EmptyExperience;
    assert t[0].0 != "current" && t[1].0 != "current" && t[2].0 != "current";
    assert t[3].0 != "current" && t[4].0 != "current";
    assert t[1..][1..][1..][1..][1..] == t[5..];
    assert Lookup(t, "current") == Lookup(t[5..], "current");
  }

  /** `current: false` keeps every experience row whose item does not set `current`, however empty. */
  lemma EmptyExperienceRowsKept(items: seq<Value>)
    requires forall i :: 0 <= i < |items| ==> !HasKey(SpreadSource(items[i]), "current")
    ensures |CleanRows(items, EmptyExperience)| == |items|
    ensures forall i :: 0 <= i < |items| ==> CleanRows(items, EmptyExperience)[i] == Row(EmptyExperience, items[i])
  {
    EmptyExperienceCurrent();
    forall i | 0 <= i < |items| ensures HasContent(Row(EmptyExperience, items[i])) {
      RowKeepsFactoryField(EmptyExperience, items[i], "current");
    }
    CleanRowsKeepsContent(items, EmptyExperience);
  }

  /** `percentage: 60` keeps every skill row whose item does not set `percentage`. */
  lemma EmptySkillRowsKept(items: seq<Value>)
    requires forall i :: 0 <= i < |items| ==> !HasKey(SpreadSource(items[i]), "percentage")
    ensures |CleanRows(items, EmptySkill)| == |items|
    ensures forall i :: 0 <= i < |items| ==> CleanRows(items, EmptySkill)[i] == Row(EmptySkill, items[i])
  {
    assert Lookup(EmptySkill, "percentage") == Num(60.0) by {
      assert EmptySkill[1..][1..][0].0 == "percentage";
    }
    forall i | 0 <= i < |items| ensures HasContent(Row(EmptySkill, items[i])) {
      RowKeepsFactoryField(EmptySkill, items[i], "percentage");
    }
    CleanRowsKeepsContent(items, EmptySkill);
  }

  /** An empty service row (only blank strings) is dropped. */
  lemma EmptyServiceRowDropped()
    ensures CleanRows([Obj([])], EmptyService) == []
  {
    assert Row(EmptyService, Obj([])) == EmptyService;
    assert !Meaningful(EmptyService[0].1) && !Meaningful(EmptyService[1].1);
  }

  // ---------------------------------------------------------------------------
  // Step transforms: form values to the PATCH payload
  // ---------------------------------------------------------------------------

  /** The profile fields every profile payload carries. */
  function ProfileFields(values: Fields): (r: Fields)
    ensures !HasKey(r, "avatar_upload")
  {
    var about := Lookup(values, "about");
    [
      ("profession", OrDefault(values, "profession", "")),
      ("phone", OrDefault(values, "phone", "")),
      ("email", OrDefault(values, "email", "")),
      ("location", OrDefault(values, "location", "")),
      ("facebook", OrDefault(values, "facebook", "")),
      ("linkedin", OrDefault(values, "linkedin", "")),
      ("language_used", OrDefault(values, "language_used", "")),
      ("include_blogs", Bool(Truthy(Lookup(values, "include_blogs")))),
      ("can_download_cv", Bool(Truthy(Lookup(values, "can_download_cv")))),
      ("about", Obj([
        ("short_description", Or(Get(about, "short_description"), Str(""))),
        ("description", Or(Get(about, "description"), Str("")))]))
    ]
  }

  /** The profile step's payload; `avatar_upload` is sent only when a file was chosen. */
  function ProfilePayload(values: Fields): (r: Value)
    ensures r.Obj?
  {
    var avatar := Lookup(values, "avatar_upload");
    Obj(ProfileFields(values) + (if Truthy(avatar) then [("avatar_upload", avatar)] else []))
  }

  /** One experience row as sent: `{ ...item, location, start_date, end_date, current }`. */
  function ExperiencePayloadItem(row: Fields, parse: string -> Option<CalendarDate>): (r: Value)
    ensures r.Obj?
    ensures Lookup(r.fields, "current") == Bool(Truthy(Lookup(row, "current")))
    ensures Lookup(r.fields, "end_date") == Null <==> Truthy(Lookup(row, "current"))
    ensures Lookup(r.fields, "start_date") == Str(FormatDateToIso(DateArg(Lookup(row, "start_date")), parse))
  {
    var isCurrent := Truthy(Lookup(row, "current"));
    var startDate := Str(FormatDateToIso(DateArg(Lookup(row, "start_date")), parse));
    var endDate := if isCurrent then Null else Str(FormatDateToIso(DateArg(Lookup(row, "end_date")), parse));
    var withLocation := Put(row, "location", OrDefault(row, "location", ""));
    var withStart := Put(withLocation, "start_date", startDate);
    var withEnd := Put(withStart, "end_date", endDate);
    var result := Put(withEnd, "current", Bool(isCurrent));
    assert Lookup(result, "end_date") == endDate;
    assert Lookup(result, "start_date") == Lookup(withEnd, "start_date") == startDate;
    Obj(result)
  }

  /** The experience step's payload; `None` when a list field is a truthy non-array. */
  function ExperiencePayload(values: Fields, parse: string -> Option<CalendarDate>): (r: Option<Value>)
    ensures r.Some? ==> r.value.Obj?
  {
    var experience := CleanArrayPayload(Lookup(values, "experience"), EmptyExperience);
    var services := CleanArrayPayload(Lookup(values, "what_i_do"), EmptyService);
    if experience.None? || services.None? then None
    else
      var rows, kept := experience.value, services.value;
      Some(Obj([
        ("experience", Arr(seq(|rows|, i requires 0 <= i < |rows| => ExperiencePayloadItem(rows[i], parse)))),
        ("what_i_do", Arr(seq(|kept|, i requires 0 <= i < |kept| => Obj(kept[i]))))]))
  }

  /** Setting the two dates of a row keeps its `notes` and `description`. */
  lemma PutDates(fs: Fields, start: Value, end: Value)
    ensures var r := Put(Put(fs, "start_date", start), "end_date", end);
      Lookup(r, "end_date") == end && Lookup(r, "notes") == Lookup(fs, "notes")
      && Lookup(r, "description") == Lookup(fs, "description")
  {
  }

  /** One education row as sent: `notes` falls back to `description`, and both carry the same text. */
  function EducationPayloadItem(row: Fields, parse: string -> Option<CalendarDate>): (r: Value)
    ensures r.Obj?
    ensures Lookup(r.fields, "notes") == Lookup(r.fields, "description")
    ensures Lookup(r.fields, "notes") == Coalesce(Lookup(row, "notes"), Coalesce(Lookup(row, "description"), Str("")))
    ensures Lookup(r.fields, "end_date") == Str(FormatDateToIso(DateArg(Lookup(row, "end_date")), parse))
  {
    var notes := Coalesce(Lookup(row, "notes"), Coalesce(Lookup(row, "description"), Str("")));
    var start := Str(FormatDateToIso(DateArg(Lookup(row, "start_date")), parse));
    var end := Str(FormatDateToIso(DateArg(Lookup(row, "end_date")), parse));
    var withDescription := Put(Put(Put(row, "field_of_study", OrDefault(row, "field_of_study", "")), "notes", notes), "description", notes);
    assert Lookup(withDescription, "notes") == notes && Lookup(withDescription, "description") == notes;
    PutDates(withDescription, start, end);
    Obj(Put(Put(withDescription, "start_date", start), "end_date", end))
  }

  function EducationPayload(values: Fields, parse: string -> Option<CalendarDate>): (r: Option<Value>)
    ensures r.Some? ==> r.value.Obj?
  {
    var education := CleanArrayPayload(Lookup(values, "education"), EmptyEducation);
    if education.None? then None
    else
      var rows := education.value;
      Some(Obj([("education", Arr(seq(|rows|, i requires 0 <= i < |rows| => EducationPayloadItem(rows[i], parse))))]))
  }

  /** One skill row as sent: the percentage clamped with fallback 60. */
  function SkillPayloadItem(row: Fields): (r: Value)
    ensures r.Obj?
    ensures var p := Lookup(r.fields, "percentage"); p.Num? && 0.0 <= p.n <= 100.0
  {
    Obj(Put(row, "percentage", Num(ClampPercentage(Lookup(row, "percentage"), 60.0) as real)))
  }

  /** One language row as sent: level defaults to "Intermediate", percentage clamped with fallback 70. */
  function LanguagePayloadItem(row: Fields): (r: Value)
    ensures r.Obj?
    ensures var p := Lookup(r.fields, "percentage"); p.Num? && 0.0 <= p.n <= 100.0
    ensures Truthy(Lookup(r.fields, "level"))
    ensures !Truthy(Lookup(row, "level")) ==> Lookup(r.fields, "level") == Str("Intermediate")
  {
    Obj(Put(Put(row,
      "level", OrDefault(row, "level", "Intermediate")),
      "percentage", Num(ClampPercentage(Lookup(row, "percentage"), 70.0) as real)))
  }

  function SkillsPayload(values: Fields): (r: Option<Value>)
    ensures r.Some? ==> r.value.Obj?
  {
    var skills := CleanArrayPayload(Lookup(values, "working_skills"), EmptySkill);
    var knowledge := MapKnowledgeToPayload(Lookup(values, "knowledge"));
    var languages := CleanArrayPayload(Lookup(values, "languages"), EmptyLanguage);
    if skills.None? || knowledge.None? || languages.None? then None
    else
      var ss, ks, ls := skills.value, knowledge.value, languages.value;
      Some(Obj([
        ("working_skills", Arr(seq(|ss|, i requires 0 <= i < |ss| => SkillPayloadItem(ss[i])))),
        ("knowledge", Arr(StrValues(ks))),
        ("languages", Arr(seq(|ls|, i requires 0 <= i < |ls| => LanguagePayloadItem(ls[i]))))]))
  }

  /** The theme step's payload: only the normalised `config` projection is sent. */
  function ThemePayload(values: Fields): (r: Value)
    ensures r.Obj?
  {
    var normalized := MergeThemeDefaults(Obj(values));
    Obj([("config", Obj([
      ("theme", Get(normalized, "theme")),
      ("layout", Get(normalized, "layout")),
      ("features", Get(normalized, "features")),
      ("content", Get(normalized, "content"))]))])
  }

  /** `STEP_CONFIGS[key].transform(values)`; `None` is a TypeError thrown by the transform. */
  function Transform(step: Step, values: Fields, parse: string -> Option<CalendarDate>): (r: Option<Value>)
    ensures r.Some? ==> r.value.Obj?
    ensures step in {StepProfile, StepTheme, StepLogout} ==> r.Some?
  {
    match step
    case StepProfile => Some(ProfilePayload(values))
    case StepExperience => ExperiencePayload(values, parse)
    case StepEducation => EducationPayload(values, parse)
    case StepSkills => SkillsPayload(values)
    case StepTheme => Some(ThemePayload(values))
    case StepLogout => Some(Obj([]))
  }

  /** A new profile picture is sent exactly when one was chosen. */
  lemma ProfilePayloadAvatar(values: Fields)
    ensures Truthy(Lookup(values, "avatar_upload")) ==>
      Get(ProfilePayload(values), "avatar_upload") == Lookup(values, "avatar_upload")
    ensures !Truthy(Lookup(values, "avatar_upload")) ==> !HasKey(ProfilePayload(values).fields, "avatar_upload")
  {
    var base := ProfileFields(values);
    var avatar := Lookup(values, "avatar_upload");
    if Truthy(avatar) {
      LookupAppend(base, [("avatar_upload", avatar)], "avatar_upload");
    } else {
      assert ProfilePayload(values).fields == base;
    }
  }

  /** Every experience entry sent for a current job has a null end date, and only those. */
  lemma ExperiencePayloadCurrent(values: Fields, parse: string -> Option<CalendarDate>, i: nat)
    requires ExperiencePayload(values, parse).Some?
    requires i < |Get(ExperiencePayload(values, parse).value, "experience").items|
    ensures var e := Get(ExperiencePayload(values, parse).value, "experience").items[i];
      e.Obj? && (Lookup(e.fields, "end_date") == Null <==> Lookup(e.fields, "current") == Bool(true))
  {
  }

  /** Every skill percentage sent is a number in [0, 100]. */
  lemma SkillsPayloadSkillPercentages(values: Fields, i: nat)
    requires SkillsPayload(values).Some?
    requires i < |Get(SkillsPayload(values).value, "working_skills").items|
    ensures var pc := Get(Get(SkillsPayload(values).value, "working_skills").items[i], "percentage");
      pc.Num? && 0.0 <= pc.n <= 100.0
  {
    var ss := CleanArrayPayload(Lookup(values, "working_skills"), EmptySkill).value;
    assert Get(SkillsPayload(values).value, "working_skills").items[i] == SkillPayloadItem(ss[i]);
  }

  /** Every language percentage sent is a number in [0, 100], and every language has a level. */
  lemma SkillsPayloadLanguages(values: Fields, i: nat)
    requires SkillsPayload(values).Some?
    requires Get(SkillsPayload(values).value, "languages").Arr?
    requires i < |Get(SkillsPayload(values).value, "languages").items|
    ensures var language := Get(SkillsPayload(values).value, "languages").items[i];
      var pc := Get(language, "percentage");
      pc.Num? && 0.0 <= pc.n <= 100.0 && Truthy(Get(language, "level"))
  {
    var p := SkillsPayload(values).value;
    var ls := CleanArrayPayload(Lookup(values, "languages"), EmptyLanguage).value;
    assert Keys(p.fields)[..2] == ["working_skills", "knowledge"];
    LookupAt(p.fields, 2, "languages");
    assert Get(p, "languages").items[i] == LanguagePayloadItem(ls[i]);
  }

  /** The theme payload carries a normalised theme: a light or dark mode and a non-empty id. */
  lemma ThemePayloadTheme(values: Fields)
    ensures var theme := Get(Get(ThemePayload(values), "config"), "theme");
      theme.Obj? && (Get(theme, "mode") == Str("light") || Get(theme, "mode") == Str("dark")) && Truthy(Get(theme, "id"))
  {
  }

  // ---------------------------------------------------------------------------
  // Step extracts: resume to form draft
  // ---------------------------------------------------------------------------

  /** `resume.subdomain || ""`, which every draft carries. */
  function SubdomainOf(resume: Fields): Value {
    OrDefault(resume, "subdomain", "")
  }

  function ProfileDraft(resume: Fields): (r: Value)
    ensures r.Obj? && r.fields != [] && r.fields[0] == ("subdomain", SubdomainOf(resume))
  {
    var about := Lookup(resume, "about");
    Obj([
      ("subdomain", SubdomainOf(resume)),
      ("avatar", OrDefault(resume, "avatar", "")),
      ("profession", OrDefault(resume, "profession", "")),
      ("phone", OrDefault(resume, "phone", "")),
      ("email", OrDefault(resume, "email", "")),
      ("location", OrDefault(resume, "location", "")),
      ("facebook", OrDefault(resume, "facebook", "")),
      ("linkedin", OrDefault(resume, "linkedin", "")),
      ("language_used", OrDefault(resume, "language_used", "en")),
      ("include_blogs", Bool(Truthy(Lookup(resume, "include_blogs")))),
      ("can_download_cv", Bool(Truthy(Lookup(resume, "can_download_cv")))),
      ("about", Obj([
        ("short_description", Or(Get(about, "short_description"), Str(""))),
        ("description", Or(Get(about, "description"), Str("")))]))
    ])
  }

  /** One experience entry as the form edits it: month dates and a boolean `current`. */
  function ExperienceDraftItem(item: Value, parse: string -> Option<CalendarDate>): (r: Value)
    ensures r.Obj?
    ensures Lookup(r.fields, "start_date") == Str(ToMonthInputValue(DateArg(Lookup(SpreadSource(item), "start_date")), parse))
    ensures Lookup(r.fields, "current") == Bool(Truthy(Lookup(SpreadSource(item), "current")))
  {
    var row := SpreadSource(item);
    var withLocation := Put(row, "location", OrDefault(row, "location", ""));
    var withStart := Put(withLocation, "start_date", Str(ToMonthInputValue(DateArg(Lookup(row, "start_date")), parse)));
    var withEnd := Put(withStart, "end_date", Str(ToMonthInputValue(DateArg(Lookup(row, "end_date")), parse)));
    var result := Put(withEnd, "current", Bool(Truthy(Lookup(row, "current"))));
    assert Lookup(result, "start_date") == Lookup(withEnd, "start_date");
    Obj(result)
  }

  function ExperienceDraft(resume: Fields, parse: string -> Option<CalendarDate>): (r: Value)
    ensures r.Obj? && r.fields != [] && r.fields[0] == ("subdomain", SubdomainOf(resume))
  {
    var items := SanitizeArrayInput(Lookup(resume, "experience"), EmptyExperience);
    Obj([
      ("subdomain", SubdomainOf(resume)),
      ("experience", Arr(seq(|items|, i requires 0 <= i < |items| => ExperienceDraftItem(items[i], parse)))),
      ("what_i_do", Arr(SanitizeArrayInput(Lookup(resume, "what_i_do"), EmptyService)))
    ])
  }

  function EducationDraftItem(item: Value, parse: string -> Option<CalendarDate>): (r: Value)
    ensures r.Obj?
  {
    var row := SpreadSource(item);
    Obj(Put(Put(Put(Put(row,
      "field_of_study", OrDefault(row, "field_of_study", "")),
      "notes", Coalesce(Lookup(row, "notes"), Coalesce(Lookup(row, "description"), Str("")))),
      "start_date", Str(ToMonthInputValue(DateArg(Lookup(row, "start_date")), parse))),
      "end_date", Str(ToMonthInputValue(DateArg(Lookup(row, "end_date")), parse))))
  }

  function EducationDraft(resume: Fields, parse: string -> Option<CalendarDate>): (r: Value)
    ensures r.Obj? && r.fields != [] && r.fields[0] == ("subdomain", SubdomainOf(resume))
  {
    var items := SanitizeArrayInput(Lookup(resume, "education"), EmptyEducation);
    Obj([
      ("subdomain", SubdomainOf(resume)),
      ("education", Arr(seq(|items|, i requires 0 <= i < |items| => EducationDraftItem(items[i], parse))))
    ])
  }

  /** A skill as the form edits it: `percentage ?? level`, normalised with fallback 60. */
  function SkillDraftItem(item: Value): (r: Value)
    ensures r.Obj?
  {
    var row := SpreadSource(item);
    var p := NormalizePercentage(Coalesce(Lookup(row, "percentage"), Lookup(row, "level")), 60.0);
    Obj(Put(row, "percentage", Num(p as real)))
  }

  /** A language as the form edits it: level "Intermediate" by default, `percentage ?? proficiency` normalised with fallback 70. */
  function LanguageDraftItem(item: Value): (r: Value)
    ensures r.Obj?
  {
    var row := SpreadSource(item);
    var p := NormalizePercentage(Coalesce(Lookup(row, "percentage"), Lookup(row, "proficiency")), 70.0);
    Obj(Put(Put(row, "level", OrDefault(row, "level", "Intermediate")), "percentage", Num(p as real)))
  }

  function SkillsDraft(resume: Fields): (r: Value)
    ensures r.Obj? && r.fields != [] && r.fields[0] == ("subdomain", SubdomainOf(resume))
  {
    var skills := SanitizeArrayInput(Lookup(resume, "working_skills"), EmptySkill);
    var languages := SanitizeArrayInput(Lookup(resume, "languages"), EmptyLanguage);
    Obj([
      ("subdomain", SubdomainOf(resume)),
      ("working_skills", Arr(seq(|skills|, i requires 0 <= i < |skills| => SkillDraftItem(skills[i])))),
      ("knowledge", Arr(MapKnowledgeToForm(Lookup(resume, "knowledge")))),
      ("languages", Arr(seq(|languages|, i requires 0 <= i < |languages| => LanguageDraftItem(languages[i]))))
    ])
  }

  /** The theme draft: the normalised theme settings with the subdomain laid over them. */
  function ThemeDraft(resume: Fields): (r: Value)
    ensures r.Obj? && Lookup(r.fields, "subdomain") == SubdomainOf(resume)
  {
    Obj(Put(MergeThemeDefaults(Obj(resume)).fields, "subdomain", SubdomainOf(resume)))
  }

  /** `STEP_CONFIGS[key].extract(resume)` */
  function Extract(step: Step, resume: Fields, parse: string -> Option<CalendarDate>): (r: Value)
    ensures r.Obj?
    ensures Lookup(r.fields, "subdomain") == SubdomainOf(resume)
  {
    match step
    case StepProfile => ProfileDraft(resume)
    case StepExperience => ExperienceDraft(resume, parse)
    case StepEducation => EducationDraft(resume, parse)
    case StepSkills => SkillsDraft(resume)
    case StepTheme => ThemeDraft(resume)
    case StepLogout => Obj([("subdomain", SubdomainOf(resume))])
  }

  /**
   * A stored ISO start date goes through the form as its month and is sent
   * back as the first of that month.
   */
  lemma ExperienceDateRoundTrip(item: Value, d: string, parse: string -> Option<CalendarDate>)
    requires Lookup(SpreadSource(item), "start_date") == Str(d) && IsIsoDate(d)
    ensures var draft := ExperienceDraftItem(item, parse);
      Lookup(ExperiencePayloadItem(draft.fields, parse).fields, "start_date") == Str(d[..7] + "-01")
  {
    IsoDateThroughMonthInput(d, parse);
  }

  /** A job marked current in the stored resume is sent back with a null end date. */
  lemma ExperienceCurrentRoundTrip(item: Value, parse: string -> Option<CalendarDate>)
    requires Truthy(Lookup(SpreadSource(item), "current"))
    ensures var draft := ExperienceDraftItem(item, parse);
      Lookup(ExperiencePayloadItem(draft.fields, parse).fields, "end_date") == Null
  {
  }

  // ---------------------------------------------------------------------------
  // Drafts
  // ---------------------------------------------------------------------------

  /** `drafts` holds, for every step in order, the defaults extracted from `resume`. */
  ghost predicate DraftsOf(drafts: Fields, resume: Fields, parse: string -> Option<CalendarDate>) {
    Keys(drafts) == StepSequence &&
    forall i :: 0 <= i < |StepSequence| ==>
      Lookup(drafts, StepSequence[i]) == Extract(StepOf(StepSequence[i]).value, resume, parse)
  }

  /** `buildDraftsFromResume(resume)`: one draft per step of the sequence, in order. */
  method BuildDraftsFromResume(resume: Fields, parse: string -> Option<CalendarDate>) returns (drafts: Fields)
    ensures Keys(drafts) == StepSequence
    ensures forall i :: 0 <= i < |StepSequence| ==>
      Lookup(drafts, StepSequence[i]) == Extract(StepOf(StepSequence[i]).value, resume, parse)
  {
    // every key of STEP_SEQUENCE has a config, so the `if (config)` of the loop always holds
    forall i | 0 <= i < |StepSequence| ensures StepOf(StepSequence[i]).Some? {
      StepSequenceKeys(i);
    }
    forall i, j | 0 <= i < j < |StepSequence| ensures StepSequence[i] != StepSequence[j] {
      StepSequenceKeys(j);
    }
    var extracts := seq(|StepSequence|, i requires 0 <= i < |StepSequence| => Extract(StepOf(StepSequence[i]).value, resume, parse));
    drafts := PutEach(StepSequence, extracts);
  }

  /** `const fs = {}; keys.forEach((key, i) => { fs[key] = values[i]; })` for distinct keys. */
  method PutEach(keys: seq<string>, values: seq<Value>) returns (fs: Fields)
    requires |keys| == |values|
    requires forall i, j :: 0 <= i < j < |keys| ==> keys[i] != keys[j]
    ensures Keys(fs) == keys
    ensures forall i :: 0 <= i < |keys| ==> Lookup(fs, keys[i]) == values[i]
  {
    fs := [];
    for n := 0 to |keys|
      invariant Keys(fs) == keys[..n]
      invariant forall i :: 0 <= i < n ==> Lookup(fs, keys[i]) == values[i]
    {
      assert keys[n] !in keys[..n];
      PutKeys(fs, keys[n], values[n]);
      var next := Put(fs, keys[n], values[n]);
      forall i | 0 <= i <= n ensures Lookup(next, keys[i]) == values[i] {
        if i < n {
          assert keys[i] != keys[n];
        }
      }
      PrefixSnoc(keys, n);
      fs := next;
    }
    assert keys[..|keys|] == keys;
  }

  /** A prefix one longer is the prefix followed by the next element. */
  lemma PrefixSnoc<T>(s: seq<T>, n: nat)
    requires n < |s|
    ensures s[..n + 1] == s[..n] + [s[n]]
  {
  }

  /**
   * `activeStepDefaults`: the stored draft of the current step when there is
   * one, otherwise the step's extract of the loaded resume.
   */
  function ActiveStepDefaults(currentStep: string, drafts: Fields, resume: Option<Fields>,
                              parse: string -> Option<CalendarDate>): (r: Option<Value>)
    ensures StepOf(currentStep).None? ==> r.None?
    ensures StepOf(currentStep).Some? && Truthy(Lookup(drafts, currentStep)) ==> r == Some(Lookup(drafts, currentStep))
    ensures StepOf(currentStep).Some? && !Truthy(Lookup(drafts, currentStep)) ==>
      r == if resume.Some? then Some(Extract(StepOf(currentStep).value, resume.value, parse)) else None
  {
    match StepOf(currentStep)
    case None => None
    case Some(step) =>
      KeyOfStepOf(currentStep);
      var key := KeyOf(step);
      if Truthy(Lookup(drafts, key)) then Some(Lookup(drafts, key))
      else if resume.Some? then Some(Extract(step, resume.value, parse))
      else None
  }

  /**
   * With the drafts freshly built from a resume, every step shows that resume's
   * extract, whether the resume is passed or not.
   */
  lemma ActiveStepDefaultsOfFreshDrafts(currentStep: string, drafts: Fields, resume: Fields,
                                        loaded: Option<Fields>, parse: string -> Option<CalendarDate>)
    requires currentStep in StepSequence
    requires forall i :: 0 <= i < |StepSequence| ==>
      Lookup(drafts, StepSequence[i]) == Extract(StepOf(StepSequence[i]).value, resume, parse)
    ensures ActiveStepDefaults(currentStep, drafts, loaded, parse) == Some(Extract(StepOf(currentStep).value, resume, parse))
  {
    var i :| 0 <= i < |StepSequence| && StepSequence[i] == currentStep;
    var draft := Lookup(drafts, currentStep);
    assert draft == Extract(StepOf(currentStep).value, resume, parse);
    assert Truthy(draft);
  }

  // ---------------------------------------------------------------------------
  // Page state: loading the resume and submitting a step
  // ---------------------------------------------------------------------------

  /** A failed request: `error.response?.data` and `error.message`. */
  datatype RequestError = RequestError(responseData: Value, message: Value)

  /** `data?.detail || data?.message || error.message || fallback` */
  function ErrorMessage(e: RequestError, fallback: string): (r: Value)
    requires fallback != []
    ensures Truthy(r)
    ensures Truthy(Get(e.responseData, "detail")) ==> r == Get(e.responseData, "detail")
    ensures !Truthy(Get(e.responseData, "detail")) && !Truthy(Get(e.responseData, "message")) && !Truthy(e.message) ==>
      r == Str(fallback)
  {
    Or(Get(e.responseData, "detail"), Or(Get(e.responseData, "message"), Or(e.message, Str(fallback))))
  }

  const LoadFallback: string := "Unable to load your resume progress."
  const SaveFallback: string := "Unable to save your progress."
  const UnknownStep: string := "Unable to locate the requested step."

  /** What `loadCurrentResume` returns: the normalised resume, or `{ error }`. */
  datatype LoadResult = Loaded(resume: Fields) | LoadFailed(error: Value)

  /** What `handleStepSubmit` returns: `{ success: true }` or `{ success: false, fieldErrors, message }`. */
  datatype SubmitResult = Saved | NotSaved(fieldErrors: Value, message: Value)

  /** The resume as the page keeps it, and the drafts rebuilt from it. */
  method NormalizeResume(data: Value, parse: string -> Option<CalendarDate>) returns (resume: Fields, drafts: Fields)
    ensures resume == MergeResumeDefaults(data)
    ensures DraftsOf(drafts, resume, parse)
  {
    resume := MergeResumeDefaults(data);
    drafts := BuildDraftsFromResume(resume, parse);
  }

  /** The state of the onboarding page and the PATCH requests it has sent. */
  class OnboardingState {
    var loading: bool
    var fetchError: Value
    var resumeData: Option<Fields>
    var currentStep: string
    var drafts: Fields
    var submitting: bool
    var submitError: Value
    /** The payloads sent to `PATCH /api/my-resume`, oldest first. */
    var patches: seq<Value>

    constructor ()
      ensures loading && fetchError == Str("") && resumeData.None? && currentStep == StepSequence[0]
      ensures drafts == [] && !submitting && submitError == Str("") && patches == []
    {
      loading := true;
      fetchError := Str("");
      resumeData := None;
      currentStep := StepSequence[0];
      drafts := [];
      submitting := false;
      submitError := Str("");
      patches := [];
    }

    /** The state once a resume has loaded: the step is kept only when it is a known step. */
    method ApplyLoaded(resume: Fields, built: Fields)
      modifies this
      ensures resumeData == Some(resume) && drafts == built && fetchError == Str("")
      ensures currentStep == (if old(currentStep) in StepSequence then old(currentStep) else StepSequence[0])
      ensures loading == old(loading) && submitting == old(submitting)
      ensures submitError == old(submitError) && patches == old(patches)
    {
      fetchError := Str("");
      resumeData := Some(resume);
      drafts := built;
      if currentStep !in StepSequence {
        currentStep := StepSequence[0];
      }
    }

    /**
     * `loadCurrentResume({ showLoader })` given the outcome of
     * `GET /api/my-resume`: on success the resume is normalised, every draft is
     * rebuilt from it and the current step is kept only when it is a known step.
     */
    method LoadCurrentResume(showLoader: bool, response: Result<Value, RequestError>,
                             parse: string -> Option<CalendarDate>) returns (r: LoadResult)
      modifies this
      ensures response.Success? ==>
        r == Loaded(MergeResumeDefaults(response.value)) && resumeData == Some(r.resume) &&
        fetchError == Str("") && DraftsOf(drafts, r.resume, parse) &&
        currentStep == (if old(currentStep) in StepSequence then old(currentStep) else StepSequence[0])
      ensures response.Failure? ==>
        r == LoadFailed(ErrorMessage(response.error, LoadFallback)) && fetchError == r.error &&
        resumeData == old(resumeData) && drafts == old(drafts) && currentStep == old(currentStep)
      ensures loading == (if showLoader then false else old(loading))
      ensures submitting == old(submitting) && submitError == old(submitError) && patches == old(patches)
    {
      // the loader shown while the request runs is hidden again when it ends
      if showLoader {
        loading := false;
      }
      if response.Success? {
        var normalized, built := NormalizeResume(response.value, parse);
        ApplyLoaded(normalized, built);
        r := Loaded(normalized);
      } else {
        var message := ErrorMessage(response.error, LoadFallback);
        fetchError := message;
        r := LoadFailed(message);
      }
    }

    /** `handleStepDraftChange(stepKey, values)` */
    method ChangeDraft(stepKey: string, values: Value)
      modifies this
      ensures Lookup(drafts, stepKey) == values
      ensures forall k :: k != stepKey ==> Lookup(drafts, k) == old(Lookup(drafts, k))
      ensures loading == old(loading) && fetchError == old(fetchError) && resumeData == old(resumeData)
      ensures currentStep == old(currentStep) && submitting == old(submitting)
      ensures submitError == old(submitError) && patches == old(patches)
    {
      drafts := Put(drafts, stepKey, values);
    }

    /**
     * `handleStepSubmit(stepKey, values)` given the outcome of the PATCH
     * request (`None` when it succeeds) and of the reload that follows it.
     * `thrown` is the message of the TypeError a transform raises: the
     * engine's own text, so a parameter. A key named after an inherited
     * object member finds that member, which passes the `!config` guard and
     * has no `transform`, so the call throws inside the `try`.
     */
    method HandleStepSubmit(stepKey: string, values: Fields, thrown: string, patchError: Option<RequestError>,
                            reload: Result<Value, RequestError>, parse: string -> Option<CalendarDate>)
      returns (r: SubmitResult)
      modifies this
      ensures StepOf(stepKey).None? && stepKey !in ObjectPrototypeMembers ==>
        r == NotSaved(Undefined, Str(UnknownStep)) &&
        loading == old(loading) && fetchError == old(fetchError) && resumeData == old(resumeData) &&
        currentStep == old(currentStep) && drafts == old(drafts) && submitting == old(submitting) &&
        submitError == old(submitError) && patches == old(patches)
      ensures stepKey in ObjectPrototypeMembers ==>
        r == NotSaved(Undefined, if thrown != "" then Str(thrown) else Str(SaveFallback)) &&
        submitError == r.message && !submitting && loading == old(loading) &&
        drafts == old(drafts) && resumeData == old(resumeData) && patches == old(patches)
      ensures StepOf(stepKey).Some? ==> !submitting && loading == old(loading)
      ensures StepOf(stepKey).Some? ==>
        var payload := Transform(StepOf(stepKey).value, values, parse);
        patches == old(patches) + (if payload.Some? then [payload.value] else [])
      ensures r.Saved? <==>
        StepOf(stepKey).Some? && Transform(StepOf(stepKey).value, values, parse).Some? &&
        patchError.None? && reload.Success?
      ensures r.Saved? ==>
        resumeData == Some(MergeResumeDefaults(reload.value)) && submitError == Str("") &&
        DraftsOf(drafts, resumeData.value, parse)
      ensures StepOf(stepKey).Some? && Transform(StepOf(stepKey).value, values, parse).Some? && patchError.Some? ==>
        var message := ErrorMessage(patchError.value, SaveFallback);
        r == NotSaved(patchError.value.responseData, message) &&
        drafts == old(drafts) && resumeData == old(resumeData) &&
        submitError == (if IsObject(patchError.value.responseData) then Str("") else message)
      ensures StepOf(stepKey).Some? && Transform(StepOf(stepKey).value, values, parse).Some? &&
              patchError.None? && reload.Failure? ==>
        r == NotSaved(Undefined, ErrorMessage(reload.error, LoadFallback)) &&
        submitError == r.message && Lookup(drafts, stepKey) == Obj(values)
    {
      if stepKey in ObjectPrototypeMembers {
        InheritedNamesAreNoSteps(stepKey);
        r := SendStep(stepKey, values, None, thrown, patchError, reload, parse);
        return;
      }
      var config := StepOf(stepKey);
      if config.None? {
        return NotSaved(Undefined, Str(UnknownStep));
      }
      r := SendStep(stepKey, values, Transform(config.value, values, parse), thrown, patchError, reload, parse);
    }

    /**
     * The `try`/`catch` of `handleStepSubmit` once the step is known: the
     * transformed `payload` (`None` when the transform throws, with the
     * message `thrown`) is sent, the draft recorded and the resume reloaded.
     */
    method SendStep(stepKey: string, values: Fields, payload: Option<Value>, thrown: string, patchError: Option<RequestError>,
                    reload: Result<Value, RequestError>, parse: string -> Option<CalendarDate>)
      returns (r: SubmitResult)
      modifies this
      ensures !submitting && loading == old(loading)
      ensures patches == old(patches) + (if payload.Some? then [payload.value] else [])
      ensures r.Saved? <==> payload.Some? && patchError.None? && reload.Success?
      ensures r.Saved? ==>
        resumeData == Some(MergeResumeDefaults(reload.value)) && submitError == Str("") &&
        DraftsOf(drafts, resumeData.value, parse)
      ensures payload.None? ==>
        r == NotSaved(Undefined, if thrown != "" then Str(thrown) else Str(SaveFallback)) &&
        submitError == r.message && drafts == old(drafts) && resumeData == old(resumeData)
      ensures payload.Some? && patchError.Some? ==>
        var message := ErrorMessage(patchError.value, SaveFallback);
        r == NotSaved(patchError.value.responseData, message) &&
        drafts == old(drafts) && resumeData == old(resumeData) &&
        submitError == (if IsObject(patchError.value.responseData) then Str("") else message)
      ensures payload.Some? && patchError.None? && reload.Failure? ==>
        r == NotSaved(Undefined, ErrorMessage(reload.error, LoadFallback)) &&
        submitError == r.message && Lookup(drafts, stepKey) == Obj(values)
    {
      submitting := true;
      submitError := Str("");
      if payload.None? {
        // the thrown error has no response, so its own message is reported
        var message := ErrorMessage(RequestError(Undefined, Str(thrown)), SaveFallback);
        submitError := message;
        submitting := false;
        return NotSaved(Undefined, message);
      }
      patches := patches + [payload.value];
      if patchError.Some? {
        var fieldErrors := patchError.value.responseData;
        var message := ErrorMessage(patchError.value, SaveFallback);
        if !IsObject(fieldErrors) {
          submitError := message;
        }
        submitting := false;
        return NotSaved(fieldErrors, message);
      }
      r := SaveDraftAndReload(stepKey, values, reload, parse);
      submitting := false;
    }

    /** After a successful PATCH: the step's draft is recorded and the resume reloaded without the loader. */
    method SaveDraftAndReload(stepKey: string, values: Fields, reload: Result<Value, RequestError>,
                              parse: string -> Option<CalendarDate>) returns (r: SubmitResult)
      modifies this
      ensures loading == old(loading) && patches == old(patches) && submitting == old(submitting)
      ensures r.Saved? <==> reload.Success?
      ensures reload.Success? ==>
        resumeData == Some(MergeResumeDefaults(reload.value)) && submitError == old(submitError) &&
        DraftsOf(drafts, resumeData.value, parse)
      ensures reload.Failure? ==>
        r == NotSaved(Undefined, ErrorMessage(reload.error, LoadFallback)) &&
        submitError == r.message && Lookup(drafts, stepKey) == Obj(values)
    {
      drafts := Put(drafts, stepKey, Obj(values));
      var loaded := LoadCurrentResume(false, reload, parse);
      if loaded.LoadFailed? {
        submitError := loaded.error;
        return NotSaved(Undefined, loaded.error);
      }
      return Saved;
    }
  }
}
