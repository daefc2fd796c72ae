/**
 * The education step of onboarding: the normalisation of the stored entries
 * into form defaults, the schema's end-after-start test, the validation run on
 * submit and the errors it sets, the card title, and the form state that the
 * add, duplicate, delete, expand and date-change handlers update.
 */
module EducationStep {
  import opened Wrappers
  import opened Text
  import opened JsValue
  import opened StepUtils
  import opened EntryChecks

  const ListMessage: string := "Add at least one education entry."

  const EducationRules: EntryRules := EntryRules(
    [Rule("institution", "School / University is required."), Rule("degree", "Degree is required."),
     Rule("start_date", "Start date is required.")],
    Some(DateRule("End date is required when not currently studying.", "End date must be after start date.")))

  /** `createEducation()` */
  const NewEducation: Fields := [
    ("institution", Str("")), ("degree", Str("")), ("field_of_study", Str("")), ("start_date", Str("")),
    ("end_date", Str("")), ("current", Bool(false)), ("notes", Str("")), ("description", Str(""))]

  // ---------------------------------------------------------------------------
  // Card title
  // ---------------------------------------------------------------------------

  /** `fmtMonth(v)`: empty for an empty or invalid month, otherwise the locale label of the month. */
  function FmtMonth(v: string, parse: string -> Option<CalendarDate>, monthLabel: CalendarDate -> string): (r: string)
    ensures v == "" || MonthStart(Str(v), parse).None? ==> r == ""
    ensures v != "" && MonthStart(Str(v), parse).Some? ==> r == monthLabel(MonthStart(Str(v), parse).value)
  {
    if v == "" then ""
    else
      var d := MonthStart(Str(v), parse);
      if d.None? then "" else monthLabel(d.value)
  }

  /** `formatEducationTitle(school, degree, start, end, current)` */
  function FormatEducationTitle(school: string, degree: string, start: string, end: string, current: bool,
                                parse: string -> Option<CalendarDate>, monthLabel: CalendarDate -> string): (r: string)
    ensures StartsWith(r, (if school != "" then school else "School") + " • ")
    ensures current ==> |r| >= 7 && r[|r| - 7..] == "Present"
  {
    var schoolText := if school != "" then school else "School";
    var degreeText := if degree != "" then degree else "Degree";
    var startText := if start != "" then FmtMonth(start, parse, monthLabel) else "Start";
    var endText := if current then "Present" else if end != "" then FmtMonth(end, parse, monthLabel) else "End";
    schoolText + " • " + degreeText + " — " + startText + " – " + endText
  }

  /** A fresh entry shows the four placeholders. */
  lemma BlankTitle(parse: string -> Option<CalendarDate>, monthLabel: CalendarDate -> string)
    ensures FormatEducationTitle("", "", "", "", false, parse, monthLabel) == "School • Degree — Start – End"
  {
  }

  /** A current entry's title ends in "Present", whatever its end date. */
  lemma CurrentTitleEndsInPresent(school: string, degree: string, start: string, end: string,
                                  parse: string -> Option<CalendarDate>, monthLabel: CalendarDate -> string)
    ensures var r := FormatEducationTitle(school, degree, start, end, true, parse, monthLabel);
      |r| >= 7 && r[|r| - 7..] == "Present"
      && r == FormatEducationTitle(school, degree, start, "", true, parse, monthLabel)
  {
  }

  // ---------------------------------------------------------------------------
  // Defaults
  // ---------------------------------------------------------------------------

  /** `Boolean(item.current ?? (!end && !!start))` on the normalised months. */
  predicate IsCurrent(item: Value, parse: string -> Option<CalendarDate>) {
    var current := Get(item, "current");
    if Nullish(current) then
      ToMonthInputValue(DateArg(Get(item, "end_date")), parse) == "" && ToMonthInputValue(DateArg(Get(item, "start_date")), parse) != ""
    else Truthy(current)
  }

  /** The mapping applied to each sanitised item to build the form defaults. */
  function NormalizeEntry(item: Value, parse: string -> Option<CalendarDate>): (r: Fields)
    ensures Lookup(r, "current") == Bool(IsCurrent(item, parse))
    ensures Lookup(r, "start_date") == Str(ToMonthInputValue(DateArg(Get(item, "start_date")), parse))
    ensures Lookup(r, "end_date") == Str(if IsCurrent(item, parse) then "" else ToMonthInputValue(DateArg(Get(item, "end_date")), parse))
    ensures Lookup(r, "notes") == Coalesce(Get(item, "notes"), Coalesce(Get(item, "description"), Str("")))
    ensures Lookup(r, "field_of_study") == Or(Get(item, "field_of_study"), Str(""))
    ensures forall k :: k != "current" && k != "start_date" && k != "end_date" && k != "notes" && k != "field_of_study" ==>
      Lookup(r, k) == Lookup(SpreadSource(item), k)
  {
    var start := ToMonthInputValue(DateArg(Get(item, "start_date")), parse);
    var end := ToMonthInputValue(DateArg(Get(item, "end_date")), parse);
    var current := IsCurrent(item, parse);
    var withField := Put(SpreadSource(item), "field_of_study", Or(Get(item, "field_of_study"), Str("")));
    var withNotes := Put(withField, "notes", Coalesce(Get(item, "notes"), Coalesce(Get(item, "description"), Str(""))));
    var withStart := Put(withNotes, "start_date", Str(start));
    var withEnd := Put(withStart, "end_date", Str(if current then "" else end));
    PutFive(SpreadSource(item), "field_of_study", "notes", "start_date", "end_date", "current",
      Or(Get(item, "field_of_study"), Str("")), Coalesce(Get(item, "notes"), Coalesce(Get(item, "description"), Str(""))),
      Str(start), Str(if current then "" else end), Bool(current));
    Put(withEnd, "current", Bool(current))
  }

  /** The `education` list of the form defaults. */
  function Defaults(defaultValues: Value, parse: string -> Option<CalendarDate>): (r: seq<Fields>)
    ensures |r| >= 1
    ensures var items := SanitizeArrayInput(Get(defaultValues, "education"), NewEducation);
      |r| == |items| && forall i :: 0 <= i < |r| ==> r[i] == NormalizeEntry(items[i], parse)
  {
    var items := SanitizeArrayInput(Get(defaultValues, "education"), NewEducation);
    seq(|items|, i requires 0 <= i < |items| => NormalizeEntry(items[i], parse))
  }

  /** A normalised entry that is current has an empty end date, so it never gets an end-date message. */
  lemma NormalizedCurrentEntryHasNoEndError(item: Value, parse: string -> Option<CalendarDate>, message: string)
    requires IsCurrent(item, parse)
    ensures Lookup(NormalizeEntry(item, parse), "end_date") == Str("")
    ensures ("end_date", message) !in EntryErrors(Obj(NormalizeEntry(item, parse)), EducationRules, parse)
  {
    var entry := Obj(NormalizeEntry(item, parse));
    assert Truthy(Get(entry, "current"));
    RulesLeaveEndDate();
    CurrentEntryHasNoEndError(entry, EducationRules, parse, message);
  }

  /** No required-field rule of the education schema is about `end_date`. */
  lemma RulesLeaveEndDate()
    ensures forall r :: r in EducationRules.required ==> r.field != "end_date"
  {
  }

  /** An item with no `current` flag, a start and no end is shown as current. */
  lemma OpenEndedItemIsCurrent(item: Value, parse: string -> Option<CalendarDate>)
    requires Nullish(Get(item, "current"))
    requires Get(item, "start_date").Str? && IsMonthDate(Get(item, "start_date").s)
    requires Nullish(Get(item, "end_date"))
    ensures Lookup(NormalizeEntry(item, parse), "current") == Bool(true)
    ensures Lookup(NormalizeEntry(item, parse), "start_date") == Get(item, "start_date")
  {
  }

  // ---------------------------------------------------------------------------
  // Schema test and validateForm
  // ---------------------------------------------------------------------------

  /**
   * The schema's `end-after-start` test: it passes without a start, for a
   * current entry or without an end; otherwise the end month must not come
   * before the start month, and an invalid month (a `NaN` time) fails it.
   */
  predicate SchemaEndAfterStart(start: Value, current: Value, end: Value, parse: string -> Option<CalendarDate>) {
    if !Truthy(start) || Truthy(current) || !Truthy(end) then true
    else
      var s := MonthStart(start, parse);
      var e := MonthStart(end, parse);
      s.Some? && e.Some? && !Earlier(e.value, s.value)
  }

  /**
   * On months that parse, the schema test and the order check of
   * `validateForm` reject the same entries; on a month that does not parse
   * the schema rejects the entry while `validateForm` lets it through.
   */
  lemma SchemaAndValidateFormOnOrder(entry: Value, parse: string -> Option<CalendarDate>)
    requires !Truthy(Get(entry, "current"))
    ensures MonthStart(Get(entry, "start_date"), parse).Some? && MonthStart(Get(entry, "end_date"), parse).Some? ==>
      (!SchemaEndAfterStart(Get(entry, "start_date"), Get(entry, "current"), Get(entry, "end_date"), parse) <==> OutOfOrder(entry, parse))
    ensures Truthy(Get(entry, "start_date")) && Truthy(Get(entry, "end_date")) && MonthStart(Get(entry, "end_date"), parse).None? ==>
      !SchemaEndAfterStart(Get(entry, "start_date"), Get(entry, "current"), Get(entry, "end_date"), parse) && !OutOfOrder(entry, parse)
  {
  }

  /** The errors object `validateForm(values)` returns. */
  function FormErrors(values: Value, parse: string -> Option<CalendarDate>): (r: seq<ErrorEntry>)
    ensures ListOf(values, "education") == [] ==> r == [ListError("education", ListMessage)]
    ensures ListOf(values, "education") != [] ==> forall e :: e in r ==> e.EntryError? && e.list == "education"
  {
    var education := ListOf(values, "education");
    if education == [] then [ListError("education", ListMessage)]
    else ListErrors("education", education, EducationRules, parse)
  }

  /**
   * An empty list gives only the list message; otherwise the errors are
   * exactly the entries whose checks fail, each with all of its messages.
   */
  lemma FormErrorsEntries(values: Value, parse: string -> Option<CalendarDate>, e: ErrorEntry)
    ensures ListOf(values, "education") == [] ==> FormErrors(values, parse) == [ListError("education", ListMessage)]
    ensures ListOf(values, "education") != [] ==>
      (e in FormErrors(values, parse) <==>
        e.EntryError? && e.fields != [] && e.list == "education" && e.index < |ListOf(values, "education")|
        && e.fields == EntryErrors(ListOf(values, "education")[e.index], EducationRules, parse))
  {
    ListErrorsFlag("education", ListOf(values, "education"), EducationRules, parse, e);
  }

  /** `validateForm(values)`: the list check, then a `forEach` over the entries. */
  method ValidateForm(values: Value, parse: string -> Option<CalendarDate>) returns (errors: seq<ErrorEntry>)
    ensures errors == FormErrors(values, parse)
  {
    var education := ListOf(values, "education");
    if |education| == 0 {
      return [ListError("education", ListMessage)];
    }
    errors := CheckEntries("education", education, EducationRules, parse);
  }

  // ---------------------------------------------------------------------------
  // submitForm
  // ---------------------------------------------------------------------------

  /** The `setError` path of a field of entry `index`. */
  function FieldPath(index: nat, field: string): (r: string)
    ensures StartsWith(r, "education.")
  {
    var path := "education." + NatToString(index) + "." + field;
    assert path[..10] == "education.";
    path
  }

  /** The `setError` calls for one key of the errors object. */
  function EntryCalls(e: ErrorEntry): (calls: seq<ErrorCall>)
    ensures e.EntryError? && e.list == "education" ==>
      |calls| == |e.fields| && forall j :: 0 <= j < |calls| ==> calls[j] == ErrorCall(FieldPath(e.index, e.fields[j].0), Text(e.fields[j].1))
    ensures e.ListError? && e.list == "education" ==> calls == [ErrorCall("education", Text(e.message))]
    ensures e.list != "education" ==> calls == []
  {
    if e.list != "education" then []
    else if e.ListError? then [ErrorCall("education", Text(e.message))]
    else seq(|e.fields|, j requires 0 <= j < |e.fields| => ErrorCall(FieldPath(e.index, e.fields[j].0), Text(e.fields[j].1)))
  }

  /** The calls for every key, in key order. */
  function ErrorCalls(errors: seq<ErrorEntry>): (calls: seq<ErrorCall>)
  {
    if errors == [] then [] else ErrorCalls(errors[..|errors| - 1]) + EntryCalls(errors[|errors| - 1])
  }

  lemma {:induction false} ErrorCallsInclude(errors: seq<ErrorEntry>, e: ErrorEntry, c: ErrorCall)
    requires e in errors && c in EntryCalls(e)
    ensures c in ErrorCalls(errors)
    decreases |errors|
  {
    if e != errors[|errors| - 1] {
      assert e in errors[..|errors| - 1];
      ErrorCallsInclude(errors[..|errors| - 1], e, c);
    }
  }

  /** Every message `validateForm` finds for an entry is set on that entry's field. */
  lemma SubmitSetsEveryMessage(values: Value, parse: string -> Option<CalendarDate>, i: nat, field: string, message: string)
    requires i < |ListOf(values, "education")|
    requires (field, message) in EntryErrors(ListOf(values, "education")[i], EducationRules, parse)
    ensures ErrorCall(FieldPath(i, field), Text(message)) in ErrorCalls(FormErrors(values, parse))
  {
    var fields := EntryErrors(ListOf(values, "education")[i], EducationRules, parse);
    var e := EntryError("education", i, fields);
    FormErrorsEntries(values, parse, e);
    var j :| 0 <= j < |fields| && fields[j] == (field, message);
    assert EntryCalls(e)[j] == ErrorCall(FieldPath(i, field), Text(message));
    ErrorCallsInclude(FormErrors(values, parse), e, ErrorCall(FieldPath(i, field), Text(message)));
  }

  /** `submitForm(values)` up to the call of `onNext`: the `setError` calls it makes and whether `onNext` runs. */
  method SubmitForm(values: Value, parse: string -> Option<CalendarDate>) returns (calls: seq<ErrorCall>, next: bool)
    ensures next <==> FormErrors(values, parse) == []
    ensures calls == ErrorCalls(FormErrors(values, parse))
  {
    var errors := ValidateForm(values, parse);
    calls := SetErrors(errors);
    next := |errors| == 0;
  }

  /** The `Object.entries(errors).forEach` of `submitForm`: the `setError` calls of every entry, in order. */
  method SetErrors(errors: seq<ErrorEntry>) returns (calls: seq<ErrorCall>)
    ensures calls == ErrorCalls(errors)
  {
    calls := [];
    for i := 0 to |errors|
      invariant calls == ErrorCalls(errors[..i])
    {
      assert errors[..i + 1][..i] == errors[..i];
      calls := calls + EntryCalls(errors[i]);
    }
    assert errors[..|errors|] == errors;
  }

  // ---------------------------------------------------------------------------
  // Date change handlers
  // ---------------------------------------------------------------------------

  /** A row whose end month does not come before its start month, or that is current. */
  predicate DatesInOrder(row: Fields, parse: string -> Option<CalendarDate>) {
    Truthy(Lookup(row, "current")) || !OutOfOrder(Obj(row), parse)
  }

  /** The row after a new start month is typed: an end that now lies before it is cleared. */
  function StartChanged(row: Fields, value: string, parse: string -> Option<CalendarDate>): (r: Fields)
    ensures Lookup(r, "start_date") == Str(value)
    ensures Lookup(r, "end_date") ==
      (if value != "" && Truthy(Lookup(row, "end_date")) && !Truthy(Lookup(row, "current"))
          && EndsBeforeStart(Str(value), Lookup(row, "end_date"), parse)
       then Str("") else Lookup(row, "end_date"))
    ensures forall k :: k != "start_date" && k != "end_date" ==> Lookup(r, k) == Lookup(row, k)
    ensures DatesInOrder(r, parse)
  {
    var typed := Put(row, "start_date", Str(value));
    var end := Lookup(row, "end_date");
    if value != "" && Truthy(end) && !Truthy(Lookup(row, "current")) && EndsBeforeStart(Str(value), end, parse) then
      Put(typed, "end_date", Str(""))
    else typed
  }

  /** The row after a new end month is typed: an end before the start is cleared again. */
  function EndChanged(row: Fields, value: string, parse: string -> Option<CalendarDate>): (r: Fields)
    ensures Lookup(r, "end_date") ==
      (if value != "" && Truthy(Lookup(row, "start_date")) && !Truthy(Lookup(row, "current"))
          && EndsBeforeStart(Lookup(row, "start_date"), Str(value), parse)
       then Str("") else Str(value))
    ensures forall k :: k != "end_date" ==> Lookup(r, k) == Lookup(row, k)
    ensures DatesInOrder(r, parse)
  {
    var typed := Put(row, "end_date", Str(value));
    var start := Lookup(row, "start_date");
    if value != "" && Truthy(start) && !Truthy(Lookup(row, "current")) && EndsBeforeStart(start, Str(value), parse) then
      Put(typed, "end_date", Str(""))
    else typed
  }

  /** The form of the step: the education rows and the expanded cards. */
  class EducationForm {
    var education: seq<Fields>
    var expanded: set<nat>

    /** The first card starts open. */
    constructor(rows: seq<Fields>)
      ensures education == rows && expanded == {0}
    {
      education := rows;
      expanded := {0};
    }

    /** `addEducation()`: a fresh entry goes last and is the only open card. */
    method AddEducation()
      modifies this
      ensures education == old(education) + [NewEducation]
      ensures expanded == {|old(education)|}
    {
      var newIndex := |education|;
      education := education + [NewEducation];
      expanded := {newIndex};
    }

    /** `duplicateEducation(index)`: a copy of the entry goes last and is the only open card. */
    method DuplicateEducation(index: nat)
      requires index < |education|
      modifies this
      ensures education == old(education) + [old(education)[index]]
      ensures expanded == {|old(education)|}
    {
      var copy := SpreadSource(Obj(education[index]));
      var newIndex := |education|;
      education := education + [copy];
      expanded := {newIndex};
    }

    /** `deleteEducation(index)` once the user has answered the confirmation. */
    method DeleteEducation(index: nat, confirmed: bool)
      requires index < |education|
      modifies this
      ensures education == if confirmed then old(education)[..index] + old(education)[index + 1..] else old(education)
      ensures expanded == old(expanded)
    {
      if confirmed {
        education := education[..index] + education[index + 1..];
      }
    }

    /** `toggleCard(i)` */
    method ToggleCard(i: nat)
      modifies this
      ensures expanded == Toggle(old(expanded), i)
      ensures education == old(education)
    {
      expanded := Toggle(expanded, i);
    }

    /** The start-month input's `onChange`. */
    method ChangeStart(index: nat, value: string, parse: string -> Option<CalendarDate>)
      requires index < |education|
      modifies this
      ensures education == old(education)[index := StartChanged(old(education)[index], value, parse)]
      ensures DatesInOrder(education[index], parse)
      ensures expanded == old(expanded)
    {
      education := education[index := StartChanged(education[index], value, parse)];
    }

    /** The end-month input's `onChange`. */
    method ChangeEnd(index: nat, value: string, parse: string -> Option<CalendarDate>)
      requires index < |education|
      modifies this
      ensures education == old(education)[index := EndChanged(old(education)[index], value, parse)]
      ensures DatesInOrder(education[index], parse)
      ensures expanded == old(expanded)
    {
      education := education[index := EndChanged(education[index], value, parse)];
    }
  }
}
