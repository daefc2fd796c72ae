/**
 * The experience step of onboarding: its validation of the experience and
 * service lists, the submit guard, the "currently working here" switch, the
 * set of expanded cards and the date-range label of a card.
 */
module ExperienceStep {
  import opened Wrappers
  import opened Text
  import opened JsValue
  import opened StepUtils
  import opened EntryChecks

  const ListMessage: string := "Add at least one experience entry."
  const EndHint: string := "Add an end date or re-enable 'Currently'."

  const ExperienceRules: EntryRules := EntryRules(
    [Rule("role", "Role is required."), Rule("company", "Company is required."), Rule("start_date", "Start date is required.")],
    Some(DateRule("End date is required when not currently working.", "End date must be after start date.")))

  const ServiceRules: EntryRules := EntryRules(
    [Rule("title", "Service name is required."), Rule("description", "Service description is required.")],
    None)

  /** The errors object `validateForm(values)` returns. */
  function FormErrors(values: Value, parse: string -> Option<CalendarDate>): (r: seq<ErrorEntry>)
    ensures ListOf(values, "experience") == [] ==> r == [ListError("experience", ListMessage)]
    ensures ListOf(values, "experience") != [] ==>
      forall e :: e in r ==> e.EntryError? && (e.list == "experience" || e.list == "what_i_do")
  {
    var experience := ListOf(values, "experience");
    var services := ListOf(values, "what_i_do");
    if experience == [] then [ListError("experience", ListMessage)]
    else ListErrors("experience", experience, ExperienceRules, parse) + ListErrors("what_i_do", services, ServiceRules, parse)
  }

  /**
   * An empty experience list gives only the list message; otherwise every
   * reported entry is an experience or a service whose own checks fail, with
   * all of its messages.
   */
  lemma FormErrorsEntries(values: Value, parse: string -> Option<CalendarDate>, e: ErrorEntry)
    ensures ListOf(values, "experience") == [] ==> FormErrors(values, parse) == [ListError("experience", ListMessage)]
    ensures ListOf(values, "experience") != [] ==>
      (e in FormErrors(values, parse) <==>
        e.EntryError? && e.fields != [] &&
        ((e.list == "experience" && e.index < |ListOf(values, "experience")|
          && e.fields == EntryErrors(ListOf(values, "experience")[e.index], ExperienceRules, parse)) ||
         (e.list == "what_i_do" && e.index < |ListOf(values, "what_i_do")|
          && e.fields == EntryErrors(ListOf(values, "what_i_do")[e.index], ServiceRules, parse))))
  {
    ListErrorsFlag("experience", ListOf(values, "experience"), ExperienceRules, parse, e);
    ListErrorsFlag("what_i_do", ListOf(values, "what_i_do"), ServiceRules, parse, e);
  }

  /** Without services there are no service messages. */
  lemma NoServicesNoServiceErrors(values: Value, parse: string -> Option<CalendarDate>, e: ErrorEntry)
    requires ListOf(values, "what_i_do") == []
    requires e in FormErrors(values, parse)
    ensures e.list == "experience"
  {
    FormErrorsEntries(values, parse, e);
  }

  /** A current experience never gets an `end_date` message. */
  lemma CurrentExperienceHasNoEndError(entry: Value, parse: string -> Option<CalendarDate>, message: string)
    requires Truthy(Get(entry, "current"))
    ensures ("end_date", message) !in EntryErrors(entry, ExperienceRules, parse)
  {
    CurrentEntryHasNoEndError(entry, ExperienceRules, parse, message);
  }

  /** A blank role, company or start date is reported for its entry, whatever else the entry holds. */
  lemma BlankRequiredFieldReported(entry: Value, parse: string -> Option<CalendarDate>, i: nat)
    requires i < |ExperienceRules.required|
    requires Missing(Get(entry, ExperienceRules.required[i].field))
    ensures (ExperienceRules.required[i].field, ExperienceRules.required[i].message) in EntryErrors(entry, ExperienceRules, parse)
  {
    RequiredErrorsFlag(entry, ExperienceRules.required, ExperienceRules.required[i].field, ExperienceRules.required[i].message);
  }

  /** `validateForm(values)`: the list check, then a `forEach` over experiences and one over services. */
  method ValidateForm(values: Value, parse: string -> Option<CalendarDate>) returns (errors: seq<ErrorEntry>)
    ensures errors == FormErrors(values, parse)
  {
    var experience := ListOf(values, "experience");
    if |experience| == 0 {
      return [ListError("experience", ListMessage)];
    }
    errors := CheckEntries("experience", experience, ExperienceRules, parse);
    var services := ListOf(values, "what_i_do");
    if |services| > 0 {
      var serviceErrors := CheckEntries("what_i_do", services, ServiceRules, parse);
      errors := errors + serviceErrors;
    } else {
      assert ListErrors("what_i_do", services, ServiceRules, parse) == [];
    }
  }

  /** What `submitForm` does once it has validated the values. */
  datatype SubmitOutcome =
    | Rejected(errors: seq<ErrorEntry>)   // `{ success: false }`, the errors are shown and `onNext` is not called
    | Next                                // `onNext(values)` is called

  method SubmitForm(values: Value, parse: string -> Option<CalendarDate>) returns (r: SubmitOutcome)
    ensures r.Next? <==> FormErrors(values, parse) == []
    ensures r.Rejected? ==> r.errors == FormErrors(values, parse)
  {
    var errors := ValidateForm(values, parse);
    if |errors| > 0 {
      return Rejected(errors);
    }
    return Next;
  }

  /** `formatMonthYear`: empty for a falsy value, otherwise the locale label of the month. */
  function MonthYear(v: Value, monthLabel: Value -> string): (r: string)
    ensures !Truthy(v) ==> r == ""
  {
    if !Truthy(v) then "" else monthLabel(v)
  }

  /** `formatDateRange(startDate, endDate, isCurrent)` with the locale label of a month as a parameter. */
  function FormatDateRange(start: Value, end: Value, isCurrent: Value, monthLabel: Value -> string): (r: string)
    ensures !Truthy(start) ==> r == "Date range"
    ensures Truthy(start) && Truthy(isCurrent) ==> r == monthLabel(start) + " – Present"
    ensures Truthy(start) && !Truthy(isCurrent) && MonthYear(end, monthLabel) == "" ==> r == monthLabel(start)
    ensures Truthy(start) && !Truthy(isCurrent) && MonthYear(end, monthLabel) != "" ==> r == monthLabel(start) + " – " + monthLabel(end)
  {
    if !Truthy(start) then "Date range"
    else
      var s := MonthYear(start, monthLabel);
      if Truthy(isCurrent) then s + " – Present"
      else
        var e := MonthYear(end, monthLabel);
        if e != "" then s + " – " + e else s
  }

  /** A card of a started job always begins with its start month. */
  lemma DateRangeStartsWithStart(start: Value, end: Value, isCurrent: Value, monthLabel: Value -> string)
    requires Truthy(start)
    ensures StartsWith(FormatDateRange(start, end, isCurrent, monthLabel), monthLabel(start))
  {
    var r := FormatDateRange(start, end, isCurrent, monthLabel);
    assert r[..|monthLabel(start)|] == monthLabel(start);
  }

  /** The row after `setValue(current)` and, when the switch is turned on, `setValue(end_date, "")`. */
  function SwitchedRow(row: Fields, checked: bool): (r: Fields)
    ensures Lookup(r, "current") == Bool(checked)
    ensures Lookup(r, "end_date") == (if checked then Str("") else Lookup(row, "end_date"))
    ensures forall k :: k != "current" && k != "end_date" ==> Lookup(r, k) == Lookup(row, k)
  {
    var switched := Put(row, "current", Bool(checked));
    if checked then Put(switched, "end_date", Str("")) else switched
  }

  /** Turning the switch off leaves both dates as they were. */
  lemma SwitchedOffKeepsDates(row: Fields, checked: bool)
    ensures !checked ==> (Lookup(SwitchedRow(row, checked), "start_date") == Lookup(row, "start_date")
                          && Lookup(SwitchedRow(row, checked), "end_date") == Lookup(row, "end_date"))
  {
  }

  /** `{ ...prev, [key]: { ...(prev[key] || {}), end_date: EndHint } }` */
  function WithEndHint(errors: Fields, key: string): (r: Fields)
    ensures Get(Lookup(r, key), "end_date") == Str(EndHint)
    ensures forall f :: f != "end_date" ==> Get(Lookup(r, key), f) == Lookup(SpreadSource(Or(Lookup(errors, key), Obj([]))), f)
    ensures forall k :: k != key ==> Lookup(r, k) == Lookup(errors, k)
  {
    var previous := SpreadSource(Or(Lookup(errors, key), Obj([])));
    Put(errors, key, Obj(Put(previous, "end_date", Str(EndHint))))
  }

  /** An entry that was an object of messages keeps them all next to the hint. */
  lemma EndHintKeepsMessages(errors: Fields, key: string, f: string)
    requires Lookup(errors, key).Obj? && f != "end_date"
    ensures Get(Lookup(WithEndHint(errors, key), key), f) == Get(Lookup(errors, key), f)
  {
  }

  /** The form of the step: the experience rows, the expanded cards and the inline field errors. */
  class ExperienceForm {
    var experience: seq<Fields>
    var expanded: set<nat>
    var fieldErrors: Fields

    /** The first card starts open. */
    constructor(rows: seq<Fields>)
      ensures experience == rows && expanded == {0} && fieldErrors == []
    {
      experience := rows;
      expanded := {0};
      fieldErrors := [];
    }

    /**
     * `handleToggleCurrent(index, checked)`: turning "current" on clears the
     * end date; turning it off on an entry with a start and no end adds an
     * inline hint for the end date.
     */
    method ToggleCurrent(index: nat, checked: bool)
      requires index < |experience|
      modifies this
      ensures experience == old(experience)[index := SwitchedRow(old(experience)[index], checked)]
      ensures fieldErrors ==
        if !checked && Truthy(Lookup(old(experience)[index], "start_date")) && !Truthy(Lookup(old(experience)[index], "end_date"))
        then WithEndHint(old(fieldErrors), "experience." + NatToString(index))
        else old(fieldErrors)
      ensures expanded == old(expanded)
    {
      var row := SwitchedRow(experience[index], checked);
      SwitchedOffKeepsDates(experience[index], checked);
      var errors := fieldErrors;
      if !checked && Truthy(Lookup(row, "start_date")) && !Truthy(Lookup(row, "end_date")) {
        errors := WithEndHint(errors, "experience." + NatToString(index));
      }
      SetRowAndErrors(index, row, errors);
    }

    /** Writes one row of the list and the inline errors; the expanded set is kept. */
    method SetRowAndErrors(index: nat, row: Fields, errors: Fields)
      requires index < |experience|
      modifies this
      ensures experience == old(experience)[index := row] && fieldErrors == errors && expanded == old(expanded)
    {
      experience := experience[index := row];
      fieldErrors := errors;
    }

    /** `onToggle(i)`: the card's membership in the expanded set flips. */
    method OnToggle(i: nat)
      modifies this
      ensures expanded == Toggle(old(expanded), i)
      ensures experience == old(experience) && fieldErrors == old(fieldErrors)
    {
      expanded := Toggle(expanded, i);
    }

    /** The effect run when the list length changes: indices past the end are dropped from the expanded set. */
    method CleanupExpanded()
      modifies this
      ensures expanded == set j | j in old(expanded) && j < |experience|
      ensures forall j :: j in expanded ==> j < |experience|
      ensures experience == old(experience) && fieldErrors == old(fieldErrors)
    {
      var kept: set<nat> := {};
      var rest := expanded;
      while rest != {}
        invariant rest <= old(expanded)
        invariant kept == set j | j in old(expanded) - rest && j < |experience|
        decreases |rest|
      {
        var j :| j in rest;
        if j < |experience| {
          kept := kept + {j};
        }
        rest := rest - {j};
      }
      expanded := kept;
    }
  }
}
