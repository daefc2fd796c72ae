/**
 * The checks that the experience and education steps run on every entry of
 * their lists before a step is submitted: required text fields, an end date
 * unless the entry is current, and an end month that does not come before the
 * start month. Both steps also keep a set of expanded cards.
 */
module EntryChecks {
  import opened Wrappers
  import opened Text
  import opened JsValue
  import opened StepUtils

  /** `!v || v.trim() === ''` for a form field. */
  predicate Missing(v: Value)
    ensures v.Str? ==> (Missing(v) <==> IsBlank(v.s))
    ensures v.Null? || v.Undefined? ==> Missing(v)
  {
    !Truthy(v) || (v.Str? && IsBlank(v.s))
  }

  /** `a < b` on two valid `Date`s at the start of their day. */
  predicate Earlier(a: CalendarDate, b: CalendarDate) {
    a.year < b.year || (a.year == b.year && (a.month < b.month || (a.month == b.month && a.day < b.day)))
  }

  /** `Earlier` is a strict total order, as the comparison of two time stamps is. */
  lemma EarlierIsStrictTotalOrder(a: CalendarDate, b: CalendarDate, c: CalendarDate)
    ensures !Earlier(a, a)
    ensures Earlier(a, b) ==> !Earlier(b, a)
    ensures Earlier(a, b) && Earlier(b, c) ==> Earlier(a, c)
    ensures a == b || Earlier(a, b) || Earlier(b, a)
  {
  }

  /** `new Date(v + '-01')` for a month field; `None` is an invalid date. */
  function MonthStart(v: Value, parse: string -> Option<CalendarDate>): (r: Option<CalendarDate>)
    ensures !v.Str? ==> r.None?
  {
    if v.Str? then parse(v.s + "-01") else None
  }

  /** `new Date(end + '-01') < new Date(start + '-01')`: any comparison with an invalid date is false. */
  predicate EndsBeforeStart(start: Value, end: Value, parse: string -> Option<CalendarDate>) {
    var s := MonthStart(start, parse);
    var e := MonthStart(end, parse);
    s.Some? && e.Some? && Earlier(e.value, s.value)
  }

  // ---------------------------------------------------------------------------
  // The checks of one entry
  // ---------------------------------------------------------------------------

  /** A required text field and the message a missing value gets. */
  datatype Rule = Rule(field: string, message: string)

  /** The messages of the end-date checks. */
  datatype DateRule = DateRule(endRequired: string, endOrder: string)

  /** The checks of one list: its required fields, in order, and the end-date checks when the list has dates. */
  datatype EntryRules = EntryRules(required: seq<Rule>, dates: Option<DateRule>)

  /** The required-field messages of one entry, in rule order. */
  function RequiredErrors(entry: Value, rules: seq<Rule>): (r: seq<(string, string)>)
    ensures |r| <= |rules|
  {
    if rules == [] then []
    else
      var first := if Missing(Get(entry, rules[0].field)) then [(rules[0].field, rules[0].message)] else [];
      first + RequiredErrors(entry, rules[1..])
  }

  /** A required field is reported exactly when its value is missing. */
  lemma {:induction false} RequiredErrorsFlag(entry: Value, rules: seq<Rule>, field: string, message: string)
    ensures (field, message) in RequiredErrors(entry, rules) <==> Rule(field, message) in rules && Missing(Get(entry, field))
  {
    if rules != [] {
      RequiredErrorsFlag(entry, rules[1..], field, message);
      assert rules == [rules[0]] + rules[1..];
    }
  }

  lemma RequiredErrorsAll(entry: Value, rules: seq<Rule>)
    ensures forall f, m :: (f, m) in RequiredErrors(entry, rules) <==> Rule(f, m) in rules && Missing(Get(entry, f))
  {
    forall f, m
      ensures (f, m) in RequiredErrors(entry, rules) <==> Rule(f, m) in rules && Missing(Get(entry, f))
    {
      RequiredErrorsFlag(entry, rules, f, m);
    }
  }

  /** Both dates are set and the end month comes before the start month. */
  predicate OutOfOrder(entry: Value, parse: string -> Option<CalendarDate>) {
    Truthy(Get(entry, "start_date")) && Truthy(Get(entry, "end_date"))
    && EndsBeforeStart(Get(entry, "start_date"), Get(entry, "end_date"), parse)
  }

  /**
   * The `end_date` message of an entry: an entry that is not current needs an
   * end, and an end before the start replaces that message. A current entry
   * never gets one.
   */
  function EndError(entry: Value, rule: DateRule, parse: string -> Option<CalendarDate>): (r: Option<string>)
    ensures Truthy(Get(entry, "current")) ==> r == None
    ensures !Truthy(Get(entry, "current")) && OutOfOrder(entry, parse) ==> r == Some(rule.endOrder)
    ensures !Truthy(Get(entry, "current")) && !OutOfOrder(entry, parse) ==>
      r == (if Missing(Get(entry, "end_date")) then Some(rule.endRequired) else None)
  {
    var current := Get(entry, "current");
    var start := Get(entry, "start_date");
    var end := Get(entry, "end_date");
    var required := if !Truthy(current) && Missing(end) then Some(rule.endRequired) else None;
    if Truthy(start) && Truthy(end) && !Truthy(current) && EndsBeforeStart(start, end, parse) then Some(rule.endOrder)
    else required
  }

  /** The error object of one entry, as field/message pairs in the order the keys are first set. */
  function EntryErrors(entry: Value, rules: EntryRules, parse: string -> Option<CalendarDate>): (r: seq<(string, string)>)
    ensures forall f, m :: Rule(f, m) in rules.required && Missing(Get(entry, f)) ==> (f, m) in r
    ensures forall p :: p in r ==>
      (Rule(p.0, p.1) in rules.required && Missing(Get(entry, p.0))) ||
      (p.0 == "end_date" && rules.dates.Some? && EndError(entry, rules.dates.value, parse) == Some(p.1))
  {
    RequiredErrorsAll(entry, rules.required);
    var end := if rules.dates.Some? then EndError(entry, rules.dates.value, parse) else None;
    RequiredErrors(entry, rules.required) + (if end.Some? then [("end_date", end.value)] else [])
  }

  /** A current entry gets no `end_date` message, whatever its dates. */
  lemma CurrentEntryHasNoEndError(entry: Value, rules: EntryRules, parse: string -> Option<CalendarDate>, message: string)
    requires forall r :: r in rules.required ==> r.field != "end_date"
    requires Truthy(Get(entry, "current"))
    ensures ("end_date", message) !in EntryErrors(entry, rules, parse)
  {
    RequiredErrorsFlag(entry, rules.required, "end_date", message);
  }

  /** An entry with no message at all has every required field and, unless it is current, an end not before its start. */
  lemma CleanEntry(entry: Value, rules: EntryRules, parse: string -> Option<CalendarDate>)
    requires EntryErrors(entry, rules, parse) == []
    ensures forall r :: r in rules.required ==> !Missing(Get(entry, r.field))
    ensures rules.dates.Some? && !Truthy(Get(entry, "current")) ==>
      !Missing(Get(entry, "end_date")) && !OutOfOrder(entry, parse)
  {
    forall r | r in rules.required ensures !Missing(Get(entry, r.field)) {
      RequiredErrorsFlag(entry, rules.required, r.field, r.message);
    }
  }

  // ---------------------------------------------------------------------------
  // The errors object of a list
  // ---------------------------------------------------------------------------

  /** An entry of the errors object. */
  datatype ErrorEntry =
    | ListError(list: string, message: string)                                 // errors[list]
    | EntryError(list: string, index: nat, fields: seq<(string, string)>)      // errors[`${list}.${index}`]

  /** The key the entry is stored under. */
  function ErrorKey(e: ErrorEntry): (r: string)
    ensures StartsWith(r, e.list)
  {
    var key := if e.ListError? then e.list else e.list + "." + NatToString(e.index);
    assert key[..|e.list|] == e.list;
    key
  }

  /** The error object of every entry of a list. */
  function PerEntry(entries: seq<Value>, rules: EntryRules, parse: string -> Option<CalendarDate>): (r: seq<seq<(string, string)>>)
    ensures |r| == |entries|
  {
    seq(|entries|, i requires 0 <= i < |entries| => EntryErrors(entries[i], rules, parse))
  }

  /** The errors object of the first `n` entries of a list, in index order: one entry per non-empty error object. */
  function Reports(list: string, per: seq<seq<(string, string)>>, n: nat): (r: seq<ErrorEntry>)
    requires n <= |per|
    ensures |r| <= n
    ensures forall e :: e in r ==> e.EntryError? && e.list == list && e.index < n && e.fields == per[e.index] && e.fields != []
  {
    if n == 0 then []
    else
      var earlier := Reports(list, per, n - 1);
      if per[n - 1] == [] then earlier else earlier + [EntryError(list, n - 1, per[n - 1])]
  }

  /** The errors object of a whole list. */
  function ListErrors(list: string, entries: seq<Value>, rules: EntryRules, parse: string -> Option<CalendarDate>): (r: seq<ErrorEntry>)
    ensures |r| <= |entries|
    ensures forall e :: e in r ==>
      e.EntryError? && e.list == list && e.index < |entries| && e.fields == EntryErrors(entries[e.index], rules, parse) && e.fields != []
  {
    Reports(list, PerEntry(entries, rules, parse), |entries|)
  }

  /** An entry is reported, with its whole error object, exactly when that object is not empty. */
  lemma {:induction false} ReportsFlag(list: string, per: seq<seq<(string, string)>>, n: nat, e: ErrorEntry)
    requires n <= |per|
    ensures e in Reports(list, per, n) <==> e.EntryError? && e.list == list && e.index < n && e.fields == per[e.index] && e.fields != []
  {
    if n > 0 {
      ReportsFlag(list, per, n - 1, e);
    }
  }

  lemma ListErrorsFlag(list: string, entries: seq<Value>, rules: EntryRules, parse: string -> Option<CalendarDate>, e: ErrorEntry)
    ensures e in ListErrors(list, entries, rules, parse) <==>
      e.EntryError? && e.list == list && e.index < |entries| && e.fields == EntryErrors(entries[e.index], rules, parse) && e.fields != []
  {
    ReportsFlag(list, PerEntry(entries, rules, parse), |entries|, e);
  }

  /** A list has no errors exactly when each of its entries passes. */
  lemma ListErrorsEmpty(list: string, entries: seq<Value>, rules: EntryRules, parse: string -> Option<CalendarDate>)
    ensures ListErrors(list, entries, rules, parse) == [] <==>
      forall i :: 0 <= i < |entries| ==> EntryErrors(entries[i], rules, parse) == []
  {
    var per := PerEntry(entries, rules, parse);
    var es := Reports(list, per, |entries|);
    if es != [] {
      ReportsFlag(list, per, |entries|, es[0]);
    } else {
      forall i | 0 <= i < |entries| ensures EntryErrors(entries[i], rules, parse) == [] {
        assert per[i] == EntryErrors(entries[i], rules, parse);
        ReportsFlag(list, per, |entries|, EntryError(list, i, per[i]));
      }
    }
  }

  /** The `forEach` over a list that fills the errors object. */
  method CheckEntries(list: string, entries: seq<Value>, rules: EntryRules, parse: string -> Option<CalendarDate>)
    returns (errors: seq<ErrorEntry>)
    ensures errors == ListErrors(list, entries, rules, parse)
  {
    errors := ReportEntries(list, PerEntry(entries, rules, parse));
  }

  /** The loop of the `forEach`: each entry's error object, in index order, is recorded when it is not empty. */
  method ReportEntries(list: string, per: seq<seq<(string, string)>>) returns (errors: seq<ErrorEntry>)
    ensures errors == Reports(list, per, |per|)
  {
    errors := [];
    for i := 0 to |per|
      invariant errors == Reports(list, per, i)
    {
      if per[i] != [] {
        errors := errors + [EntryError(list, i, per[i])];
      }
    }
  }

  // ---------------------------------------------------------------------------
  // Expanded cards
  // ---------------------------------------------------------------------------

  /** `ns.has(i) ? ns.delete(i) : ns.add(i)` on a copy of the set. */
  function Toggle(expanded: set<nat>, i: nat): (r: set<nat>)
    ensures i in r <==> i !in expanded
    ensures forall j :: j != i ==> (j in r <==> j in expanded)
  {
    if i in expanded then expanded - {i} else expanded + {i}
  }

  /** Toggling a card twice restores the set. */
  lemma ToggleTwice(expanded: set<nat>, i: nat)
    ensures Toggle(Toggle(expanded, i), i) == expanded
  {
  }
}
