/**
 * The onboarding helpers shared by the resume wizard steps: flattening a
 * server's field errors into form errors, filling array inputs with factory
 * defaults, clamping percentages and normalising the two date shapes the
 * forms use ("YYYY-MM-DD" for the API, "YYYY-MM" for month inputs).
 */
module StepUtils {
  import opened Wrappers
  import opened Text
  import opened JsValue

  // ---------------------------------------------------------------------------
  // applyServerErrors
  // ---------------------------------------------------------------------------

  /** The message a `setError` call carries: a string, or `String(value)` of a non-string leaf. */
  datatype Message = Text(text: string) | Rendered(value: Value)

  /** One `setError(path, { type: "server", message })` call. */
  datatype ErrorCall = ErrorCall(path: string, message: Message)

  predicate AllStrings(items: seq<Value>) {
    forall i :: 0 <= i < |items| ==> items[i].Str?
  }

  function Strings(items: seq<Value>): (r: seq<string>)
    requires AllStrings(items)
    ensures |r| == |items|
    ensures forall i :: 0 <= i < |items| ==> r[i] == items[i].s
  {
    if items == [] then [] else [items[0].s] + Strings(items[1..])
  }

  /**
   * The `setError` calls `assignError(path, value)` makes, in order. An empty
   * path makes none; an array of strings becomes one call with the strings
   * joined by spaces; other arrays and objects recurse with ".index" / ".key"
   * appended to the path; any other truthy value becomes one call.
   */
  function AssignError(path: string, v: Value): (calls: seq<ErrorCall>)
    ensures path == [] ==> calls == []
    ensures forall c :: c in calls ==> StartsWith(c.path, path)
    decreases v, 2
  {
    if path == [] then []
    else match v
      case Arr(items) =>
        if items == [] then []
        else if AllStrings(items) then [ErrorCall(path, Text(Join(Strings(items), " ")))]
        else AssignItems(v, path, items, 0)
      case Obj(fs) => AssignFields(v, path, fs)
      case Str(s) => if s != [] then [ErrorCall(path, Text(s))] else []
      case _ => if Truthy(v) then [ErrorCall(path, Rendered(v))] else []
  }

  /** `value.forEach((item, index) => assignError(`${path}.${index}`, item))` from `index` on. */
  function AssignItems(ghost parent: Value, path: string, items: seq<Value>, index: nat): (calls: seq<ErrorCall>)
    requires forall i :: 0 <= i < |items| ==> items[i] < parent
    ensures forall c :: c in calls ==> StartsWith(c.path, path + ".")
    decreases parent, 1, |items| - index
  {
    if index >= |items| then []
    else
      var here := AssignError(path + "." + NatToString(index), items[index]);
      assert forall c :: c in here ==> StartsWith(c.path, path + ".") by {
        forall c | c in here ensures StartsWith(c.path, path + ".") {
          assert StartsWith(c.path, path + "." + NatToString(index));
        }
      }
      here + AssignItems(parent, path, items, index + 1)
  }

  /** `Object.entries(value).forEach(([key, nested]) => assignError(`${path}.${key}`, nested))`. */
  function AssignFields(ghost parent: Value, path: string, fs: Fields): (calls: seq<ErrorCall>)
    requires forall i :: 0 <= i < |fs| ==> fs[i].1 < parent
    ensures forall c :: c in calls ==> StartsWith(c.path, path + ".")
    decreases parent, 1, |fs|
  {
    if fs == [] then []
    else
      var here := AssignError(path + "." + fs[0].0, fs[0].1);
      assert forall c :: c in here ==> StartsWith(c.path, path + ".") by {
        forall c | c in here ensures StartsWith(c.path, path + ".") {
          assert StartsWith(c.path, path + "." + fs[0].0);
        }
      }
      here + AssignFields(parent, path, fs[1..])
  }

  /** The top-level entries: an object's own keys, or an array's indices. */
  function Entries(v: Value): (es: Fields)
    ensures v.Obj? ==> es == v.fields
    ensures v.Arr? ==> |es| == |v.items|
    ensures !IsObjectLike(v) ==> es == []
  {
    match v
    case Obj(fs) => fs
    case Arr(items) => IndexEntries(items, 0)
    case _ => []
  }

  function AssignEntries(es: Fields): (calls: seq<ErrorCall>)
  {
    if es == [] then [] else AssignError(es[0].0, es[0].1) + AssignEntries(es[1..])
  }

  /** Every `setError` call `applyServerErrors(setError, fieldErrors)` makes, in order. */
  function ApplyServerErrors(fieldErrors: Value): (calls: seq<ErrorCall>)
    ensures !Truthy(fieldErrors) || !IsObjectLike(fieldErrors) ==> calls == []
    ensures forall c :: c in calls ==>
      c.path != [] && exists i :: 0 <= i < |Entries(fieldErrors)| && StartsWith(c.path, Entries(fieldErrors)[i].0)
  {
    if !Truthy(fieldErrors) || !IsObjectLike(fieldErrors) then []
    else
      AssignEntriesAllPaths(Entries(fieldErrors));
      AssignEntries(Entries(fieldErrors))
  }

  /** Strings, numbers, booleans, `null` and `undefined` at the top level are ignored. */
  lemma ApplyServerErrorsIgnoresNonObjects(fieldErrors: Value)
    requires !IsObjectLike(fieldErrors)
    ensures ApplyServerErrors(fieldErrors) == []
  {
  }

  lemma AssignEntriesAllPaths(es: Fields)
    ensures forall c :: c in AssignEntries(es) ==>
      c.path != [] && exists i :: 0 <= i < |es| && StartsWith(c.path, es[i].0)
  {
    forall c | c in AssignEntries(es)
      ensures c.path != [] && exists i :: 0 <= i < |es| && StartsWith(c.path, es[i].0)
    {
      AssignEntriesPaths(es, c);
    }
  }

  /** Every call's path starts with one of the top-level keys, followed by nothing or by ".". */
  lemma {:induction false} AssignEntriesPaths(es: Fields, c: ErrorCall)
    requires c in AssignEntries(es)
    ensures exists i :: 0 <= i < |es| && StartsWith(c.path, es[i].0) && c.path != []
  {
    if c in AssignError(es[0].0, es[0].1) {
      assert StartsWith(c.path, es[0].0);
      assert es[0].0 != [];
    } else {
      assert AssignEntries(es) == AssignError(es[0].0, es[0].1) + AssignEntries(es[1..]);
      AssignEntriesPaths(es[1..], c);
      var i :| 0 <= i < |es[1..]| && StartsWith(c.path, es[1..][i].0) && c.path != [];
      assert es[i + 1] == es[1..][i];
    }
  }

  /** An entry whose key is empty, or whose value is falsy or an empty array, reports nothing. */
  lemma AssignErrorSilent(path: string, v: Value)
    requires path == [] || !Truthy(v) || v == Arr([]) || v == Obj([])
    ensures AssignError(path, v) == []
  {
  }

  /** A list of messages for one field becomes a single call with the messages joined by spaces. */
  lemma AssignErrorJoinsMessages(path: string, messages: seq<string>)
    requires path != [] && messages != []
    ensures AssignError(path, Arr(seq(|messages|, i requires 0 <= i < |messages| => Str(messages[i]))))
      == [ErrorCall(path, Text(Join(messages, " ")))]
  {
    var items := seq(|messages|, i requires 0 <= i < |messages| => Str(messages[i]));
    assert Strings(items) == messages;
  }

  /** A nested object error reports under "field.key". */
  lemma AssignErrorNested(path: string, key: string, message: string)
    requires path != [] && message != []
    ensures AssignError(path, Obj([(key, Str(message))])) == [ErrorCall(path + "." + key, Text(message))]
  {
    var v := Obj([(key, Str(message))]);
    assert AssignFields(v, path, [(key, Str(message))]) == AssignError(path + "." + key, Str(message)) + AssignFields(v, path, []);
  }

  // ---------------------------------------------------------------------------
  // sanitizeArrayInput
  // ---------------------------------------------------------------------------

  /**
   * `sanitizeArrayInput(array, factory)` on `input`: `factory()` returns the fresh object
   * `defaults`; each item is laid over the defaults.
   */
  function SanitizeArrayInput(input: Value, defaults: Fields): (r: seq<Value>)
    ensures !input.Arr? || input.items == [] ==> r == [Obj(defaults)]
    ensures input.Arr? && input.items != [] ==>
      |r| == |input.items| &&
      forall i :: 0 <= i < |r| ==> r[i] == Obj(Spread(defaults, SpreadSource(input.items[i])))
  {
    if !input.Arr? || input.items == [] then [Obj(defaults)]
    else seq(|input.items|, i requires 0 <= i < |input.items| => Obj(Spread(defaults, SpreadSource(input.items[i]))))
  }

  /** Each sanitized item keeps the item's own fields and takes every missing field from the defaults. */
  lemma SanitizeArrayInputFields(input: Value, defaults: Fields, i: nat, k: string)
    requires input.Arr? && i < |input.items| && input.items[i].Obj?
    requires UniqueKeys(input.items[i].fields)
    ensures var item := input.items[i].fields;
      Get(SanitizeArrayInput(input, defaults)[i], k)
        == if HasKey(item, k) then Lookup(item, k) else Lookup(defaults, k)
  {
    SpreadLookup(defaults, input.items[i].fields, k);
  }

  /** A missing or null item becomes a copy of the defaults. */
  lemma SanitizeArrayInputNullItem(input: Value, defaults: Fields, i: nat)
    requires input.Arr? && i < |input.items| && !Truthy(input.items[i])
    ensures SanitizeArrayInput(input, defaults)[i] == Obj(defaults)
  {
  }

  // ---------------------------------------------------------------------------
  // clampPercentage / normalizePercentage
  // ---------------------------------------------------------------------------

  function DigitValue(c: char): nat
    requires IsDigit(c)
  {
    (c as int - '0' as int) as nat
  }

  /** The value of a run of decimal digits. */
  function DigitsValue(s: string): (n: nat)
    requires forall i :: 0 <= i < |s| ==> IsDigit(s[i])
  {
    if s == [] then 0 else DigitsValue(s[..|s| - 1]) * 10 + DigitValue(s[|s| - 1])
  }

  predicate AllDigits(s: string) {
    forall i :: 0 <= i < |s| ==> IsDigit(s[i])
  }

  /** The length of the leading run of digits of `s`. */
  function DigitRun(s: string): (n: nat)
    ensures n <= |s| && AllDigits(s[..n])
    ensures n < |s| ==> !IsDigit(s[n])
  {
    if s == [] || !IsDigit(s[0]) then 0
    else
      var n := 1 + DigitRun(s[1..]);
      assert s[..n] == [s[0]] + s[1..][..n - 1];
      n
  }

  /** The value of a character as a digit: 0-9, then a-z (or A-Z) as 10-35; 36 for anything else. */
  function RadixDigit(c: char): (d: nat)
    ensures IsDigit(c) ==> d == DigitValue(c)
  {
    if '0' <= c <= '9' then (c as int - '0' as int) as nat
    else if 'a' <= c <= 'z' then (c as int - 'a' as int + 10) as nat
    else if 'A' <= c <= 'Z' then (c as int - 'A' as int + 10) as nat
    else 36
  }

  /** The value of a run of digits in base `radix`. */
  function RadixValue(s: string, radix: nat): (n: nat)
  {
    if s == [] then 0 else RadixValue(s[..|s| - 1], radix) * radix + RadixDigit(s[|s| - 1])
  }

  /** The letters that mark a hexadecimal, octal or binary literal after its "0". */
  predicate RadixMarker(c: char) {
    c == 'x' || c == 'X' || c == 'o' || c == 'O' || c == 'b' || c == 'B'
  }

  /** A `0x`, `0o` or `0b` literal (either case, no sign), as the integer it denotes. */
  function NonDecimalInteger(t: string): (r: Option<nat>)
    ensures r.Some? ==> |t| > 2 && t[0] == '0' && RadixMarker(t[1])
  {
    if |t| > 2 && t[0] == '0' && RadixMarker(t[1]) then
      var radix := if t[1] == 'x' || t[1] == 'X' then 16 else if t[1] == 'o' || t[1] == 'O' then 8 else 2;
      if forall i :: 2 <= i < |t| ==> RadixDigit(t[i]) < radix then Some(RadixValue(t[2..], radix)) else None
    else None
  }

  /** The exponent part `[eE][+-]?digits` that ends a decimal, 0 when there is none, `None` for anything else. */
  function ExponentOf(r: string): (e: Option<int>)
    ensures r == [] ==> e == Some(0)
  {
    if r == [] then Some(0)
    else if r[0] != 'e' && r[0] != 'E' then None
    else
      var sign := if |r| > 1 && (r[1] == '+' || r[1] == '-') then 1 else 0;
      var ds := r[1 + sign..];
      if ds == [] || !AllDigits(ds) then None
      else Some(if sign == 1 && r[1] == '-' then -(DigitsValue(ds) as int) else DigitsValue(ds) as int)
  }

  /** `x` times ten to the power `e`. */
  function Scale(x: real, e: int): (r: real)
    ensures x >= 0.0 ==> r >= 0.0
    decreases if e >= 0 then e else -e
  {
    if e == 0 then x
    else if e > 0 then Scale(x, e - 1) * 10.0
    else Scale(x, e + 1) / 10.0
  }

  /**
   * "digits", "digits.", ".digits" or "digits.digits" with at least one digit,
   * followed by an optional exponent part, as a non-negative number.
   */
  function UnsignedDecimal(s: string): (r: Option<real>)
    ensures r.Some? ==> r.value >= 0.0
  {
    var n := DigitRun(s);
    var dot := n < |s| && s[n] == '.';
    var m := if dot then DigitRun(s[n + 1..]) else 0;
    var end := if dot then n + 1 + m else n;
    if n + m == 0 then None
    else
      var fraction := if dot then Scale(DigitsValue(s[n + 1..][..m]) as real, -m) else 0.0;
      match ExponentOf(s[end..])
      case None => None
      case Some(e) => Some(Scale(DigitsValue(s[..n]) as real + fraction, e))
  }

  /** A value of `Number(...)` other than NaN: a finite number or one of the two infinities. */
  datatype Numeric = Finite(x: real) | Infinite(positive: bool)

  /**
   * `Number(s)` for a string: surrounding white space is ignored and a blank
   * string is 0; a `0x`, `0o` or `0b` literal is read in its base; otherwise an
   * optional sign precedes "Infinity" or a decimal with an optional exponent.
   * Anything else is NaN (`None`).
   */
  function StringToNumber(s: string): (r: Option<Numeric>)
    ensures IsBlank(s) ==> r == Some(Finite(0.0))
  {
    var t := Trim(s);
    if t == [] then Some(Finite(0.0))
    else match NonDecimalInteger(t)
      case Some(n) => Some(Finite(n as real))
      case None =>
        var sign := if t[0] == '-' || t[0] == '+' then 1 else 0;
        var body := t[sign..];
        if body == "Infinity" then Some(Infinite(t[0] != '-'))
        else match UnsignedDecimal(body)
          case None => None
          case Some(x) => Some(Finite(if t[0] == '-' then -x else x))
  }

  /** `Number(value)`; `None` is NaN. */
  function ToNumber(v: Value): (r: Option<Numeric>)
    ensures v.Num? ==> r == Some(Finite(v.n))
    ensures Nullish(v) ==> (r == None <==> v.Undefined?)
    ensures v.Bool? ==> r == Some(Finite(if v.b then 1.0 else 0.0))
    ensures v.Str? ==> r == StringToNumber(v.s)
    ensures v.Obj? ==> r == None
    decreases v
  {
    match v
    case Undefined => None
    case Null => Some(Finite(0.0))
    case Bool(b) => Some(Finite(if b then 1.0 else 0.0))
    case Num(n) => Some(Finite(n))
    case Str(s) => StringToNumber(s)
    case Obj(_) => None
    case Arr(items) =>
      // String(array) joins the elements with ","; null and undefined print as "".
      if items == [] then Some(Finite(0.0))
      else if |items| > 1 then None
      else match items[0]
        case Undefined => Some(Finite(0.0))
        case Null => Some(Finite(0.0))
        case Bool(_) => None
        case Obj(_) => None
        case _ => ToNumber(items[0])
  }

  /** The first match of /-?\d+(\.\d+)?/ in `s`, if any. */
  function FirstNumericMatch(s: string): (r: Option<string>)
    ensures r.Some? ==> r.value != [] && Contains(s, r.value)
    decreases |s|
  {
    if s == [] then None
    else if IsDigit(s[0]) || (s[0] == '-' && |s| > 1 && IsDigit(s[1])) then
      Some(MatchAt(s))
    else
      match FirstNumericMatch(s[1..])
      case None => None
      case Some(m) => Some(m)
  }

  /** The greedy match of /-?\d+(\.\d+)?/ starting at the beginning of `s`. */
  function MatchAt(s: string): (m: string)
    requires s != [] && (IsDigit(s[0]) || (s[0] == '-' && |s| > 1 && IsDigit(s[1])))
    ensures m != [] && StartsWith(s, m)
  {
    var sign := if s[0] == '-' then 1 else 0;
    var n := sign + DigitRun(s[sign..]);
    assert s[sign..][..n - sign] == s[sign..n];
    if n + 1 < |s| && s[n] == '.' && IsDigit(s[n + 1]) then
      var f := DigitRun(s[n + 1..]);
      s[..n + 1 + f]
    else s[..n]
  }

  /** `Math.round(x)`: halves round up. */
  function Round(x: real): (r: int)
    ensures x - 0.5 < r as real <= x + 0.5
  {
    (x + 0.5).Floor
  }

  /** An integer rounds to itself. */
  lemma RoundOfInteger(n: int)
    ensures Round(n as real) == n
  {
  }

  /** `Math.min(100, Math.max(0, n))` */
  function Clamp(n: int): (r: int)
    ensures 0 <= r <= 100
    ensures 0 <= n <= 100 ==> r == n
  {
    if n < 0 then 0 else if n > 100 then 100 else n
  }

  /** `Math.min(100, Math.max(0, Math.round(v)))`: the infinities clamp to the nearer bound. */
  function ClampNumeric(v: Numeric): (r: int)
    ensures 0 <= r <= 100
    ensures v.Infinite? ==> r == if v.positive then 100 else 0
    ensures v.Finite? && 0.0 <= v.x <= 100.0 ==> r == Round(v.x)
    ensures v.Finite? && v.x < 0.0 ==> r == 0
    ensures v.Finite? && v.x >= 100.0 ==> r == 100
  {
    match v
    case Finite(x) => Clamp(Round(x))
    case Infinite(positive) => if positive then 100 else 0
  }

  /**
   * `clampPercentage(value, fallback)`: the number `value` denotes (or the
   * first number written in it, for a string that is not one), rounded and
   * clamped to 0..100; `fallback` when there is none.
   */
  function ClampPercentage(value: Value, fallback: real): (r: int)
    ensures 0 <= r <= 100
    ensures ToNumber(value).Some? ==> r == ClampNumeric(ToNumber(value).value)
  {
    match ToNumber(value)
    case Some(v) => ClampNumeric(v)
    case None =>
      var m := if value.Str? then FirstNumericMatch(value.s) else None;
      match m
      case None => Clamp(Round(fallback))
      case Some(text) =>
        match StringToNumber(text)
        case None => Clamp(Round(fallback))
        case Some(parsed) => ClampNumeric(parsed)
  }

  /** A number is rounded, then clamped. */
  lemma ClampPercentageOfNumber(x: real, fallback: real)
    ensures 0.0 <= x <= 100.0 ==> ClampPercentage(Num(x), fallback) == Round(x)
    ensures x < 0.0 ==> ClampPercentage(Num(x), fallback) == 0
    ensures x >= 100.0 ==> ClampPercentage(Num(x), fallback) == 100
  {
  }

  /** A value that is no number and, when a string, holds no number either falls back. */
  lemma ClampPercentageFallsBack(value: Value, fallback: real)
    requires ToNumber(value).None?
    requires value.Str? ==> FirstNumericMatch(value.s).None?
    ensures ClampPercentage(value, fallback) == Clamp(Round(fallback))
  {
  }

  /** The leading digit run of `digits + rest` is `digits` when `rest` does not start with a digit. */
  lemma {:induction false} DigitRunOfPrefix(digits: string, rest: string)
    requires AllDigits(digits)
    requires rest == [] || !IsDigit(rest[0])
    ensures DigitRun(digits + rest) == |digits|
  {
    if digits != [] {
      assert (digits + rest)[1..] == digits[1..] + rest;
      DigitRunOfPrefix(digits[1..], rest);
    }
  }

  /** Whether `c` cannot continue a number literal after its leading digits. */
  predicate EndsLiteral(c: char) {
    !IsDigit(c) && c != '.' && c != 'e' && c != 'E' && !RadixMarker(c)
  }

  /** A trimmed string that starts with a digit and is no radix literal is read as an unsigned decimal. */
  lemma StringToNumberUnsigned(t: string)
    requires t != [] && IsDigit(t[0]) && !IsSpace(t[|t| - 1])
    requires |t| > 1 ==> !RadixMarker(t[1])
    ensures UnsignedDecimal(t).None? ==> StringToNumber(t).None?
    ensures UnsignedDecimal(t).Some? ==> StringToNumber(t) == Some(Finite(UnsignedDecimal(t).value))
  {
    assert !IsSpace(t[0]);
    TrimOfTrimmed(t);
    assert NonDecimalInteger(t).None?;
    assert t[0..] == t;
  }

  /** Digits followed by something that is neither a digit nor a decimal point: the digits, scaled by what follows. */
  lemma UnsignedDecimalOfDigits(digits: string, rest: string)
    requires digits != [] && AllDigits(digits)
    requires rest == [] || (!IsDigit(rest[0]) && rest[0] != '.')
    ensures UnsignedDecimal(digits + rest)
      == match ExponentOf(rest) case None => None case Some(e) => Some(Scale(DigitsValue(digits) as real, e))
  {
    var s := digits + rest;
    DigitRunOfPrefix(digits, rest);
    assert s[..|digits|] == digits;
    assert s[|digits|..] == rest;
  }

  /** A run of digits with nothing after it is the whole number it spells. */
  lemma DigitsAreNumber(digits: string)
    requires digits != [] && AllDigits(digits)
    ensures StringToNumber(digits) == Some(Finite(DigitsValue(digits) as real))
  {
    assert digits + [] == digits;
    UnsignedDecimalOfDigits(digits, []);
    var x := DigitsValue(digits) as real;
    assert UnsignedDecimal(digits) == Some(x);
    assert IsDigit(digits[0]) && IsDigit(digits[|digits| - 1]);
    assert !IsSpace(digits[|digits| - 1]);
    assert |digits| > 1 ==> !RadixMarker(digits[1]);
    StringToNumberUnsigned(digits);
  }

  /**
   * A run of digits followed by a unit such as "%" or " px" is NaN as a whole, and the
   * numeric pattern finds exactly the digits in it.
   */
  lemma DigitsWithSuffix(digits: string, suffix: string)
    requires digits != [] && AllDigits(digits)
    requires suffix != [] && EndsLiteral(suffix[0]) && !IsSpace(suffix[|suffix| - 1])
    ensures StringToNumber(digits + suffix) == None
    ensures FirstNumericMatch(digits + suffix) == Some(digits)
  {
    var s := digits + suffix;
    assert s[|s| - 1] == suffix[|suffix| - 1];
    assert s[1] == if |digits| > 1 then digits[1] else suffix[0];
    UnsignedDecimalOfDigits(digits, suffix);
    StringToNumberUnsigned(s);
    DigitRunOfPrefix(digits, suffix);
    assert s[0..] == s;
    assert s[..|digits|] == digits;
  }

  /** A run of digits followed by a unit such as "%" is read as the whole number the digits spell. */
  lemma ClampPercentageOfUnit(digits: string, suffix: string, fallback: real)
    requires digits != [] && AllDigits(digits)
    requires suffix != [] && EndsLiteral(suffix[0]) && !IsSpace(suffix[|suffix| - 1])
    ensures ClampPercentage(Str(digits + suffix), fallback) == Clamp(DigitsValue(digits))
  {
    var n := DigitsValue(digits);
    DigitsWithSuffix(digits, suffix);
    DigitsAreNumber(digits);
    ClampPercentageOfMatch(digits + suffix, fallback, digits, Finite(n as real));
    RoundOfInteger(n);
  }

  /** A string that is no number is read through the first number written in it. */
  lemma ClampPercentageOfMatch(s: string, fallback: real, text: string, parsed: Numeric)
    requires StringToNumber(s) == None && FirstNumericMatch(s) == Some(text)
    requires StringToNumber(text) == Some(parsed)
    ensures ClampPercentage(Str(s), fallback) == ClampNumeric(parsed)
  {
  }

  /** A decimal written with an exponent is scaled by it: "1e2" is 100, not 1. */
  lemma ExponentLiteral(digits: string, exponent: string)
    requires digits != [] && AllDigits(digits) && exponent != [] && AllDigits(exponent)
    ensures StringToNumber(digits + "e" + exponent)
      == Some(Finite(Scale(DigitsValue(digits) as real, DigitsValue(exponent))))
  {
    var rest := "e" + exponent;
    var s := digits + rest;
    assert digits + "e" + exponent == s;
    ExponentOfPositive(exponent);
    UnsignedDecimalOfDigits(digits, rest);
    assert s[|s| - 1] == exponent[|exponent| - 1];
    assert s[1] == if |digits| > 1 then digits[1] else 'e';
    StringToNumberUnsigned(s);
  }

  /** An exponent part without a sign is the number its digits spell. */
  lemma ExponentOfPositive(exponent: string)
    requires exponent != [] && AllDigits(exponent)
    ensures ExponentOf("e" + exponent) == Some(DigitsValue(exponent) as int)
  {
    var rest := "e" + exponent;
    assert rest[1..] == exponent;
    assert rest[0] == 'e';
    assert rest[1] != '+' && rest[1] != '-';
  }

  /** A signed "Infinity" is a number to `Number`, so the percentage is the nearer bound, never the fallback. */
  lemma ClampPercentageOfInfinity(sign: string, fallback: real)
    requires sign == "" || sign == "+" || sign == "-"
    ensures ClampPercentage(Str(sign + "Infinity"), fallback) == if sign == "-" then 0 else 100
  {
    var s := sign + "Infinity";
    TrimOfTrimmed(s);
  }

  /** A hexadecimal, octal or binary literal is read in its base. */
  lemma ClampPercentageOfRadix(s: string, fallback: real)
    requires NonDecimalInteger(s).Some? && !IsSpace(s[|s| - 1])
    ensures ClampPercentage(Str(s), fallback) == Clamp(NonDecimalInteger(s).value)
  {
    TrimOfTrimmed(s);
    assert Round(NonDecimalInteger(s).value as real) == NonDecimalInteger(s).value;
  }

  /** `normalizePercentage(value, fallback)`: a missing or empty value takes the fallback. */
  function NormalizePercentage(value: Value, fallback: real): (r: int)
    ensures 0 <= r <= 100
    ensures Nullish(value) || value == Str("") ==> r == Clamp(Round(fallback))
    ensures !Nullish(value) && value != Str("") ==> r == ClampPercentage(value, fallback)
  {
    if Nullish(value) || value == Str("") then ClampPercentage(Num(fallback), fallback)
    else ClampPercentage(value, fallback)
  }

  /** Normalising an already normalised percentage changes nothing. */
  lemma NormalizePercentageIdempotent(value: Value, fallback: real)
    ensures var p := NormalizePercentage(value, fallback);
      NormalizePercentage(Num(p as real), fallback) == p
  {
    var p := NormalizePercentage(value, fallback);
    assert Round(p as real) == p;
  }

  // ---------------------------------------------------------------------------
  // formatDateToIso / toMonthInputValue
  // ---------------------------------------------------------------------------

  /** /^\d{4}-\d{2}-\d{2}$/ */
  predicate IsIsoDate(s: string) {
    |s| == 10 && IsDigit(s[0]) && IsDigit(s[1]) && IsDigit(s[2]) && IsDigit(s[3]) && s[4] == '-'
    && IsDigit(s[5]) && IsDigit(s[6]) && s[7] == '-' && IsDigit(s[8]) && IsDigit(s[9])
  }

  /** /^\d{4}-\d{2}$/ */
  predicate IsMonthDate(s: string) {
    |s| == 7 && IsDigit(s[0]) && IsDigit(s[1]) && IsDigit(s[2]) && IsDigit(s[3]) && s[4] == '-'
    && IsDigit(s[5]) && IsDigit(s[6])
  }

  /** What `new Date(value)` yields in the local time zone: year, month 1..12 and day, or an invalid date. */
  datatype CalendarDate = CalendarDate(year: int, month: nat, day: nat)

  /** The date helpers receive form strings; any other value counts as empty. */
  function DateArg(v: Value): (r: Option<string>)
    ensures v.Str? ==> r == Some(v.s)
    ensures !v.Str? ==> r.None?
  {
    if v.Str? then Some(v.s) else None
  }

  /**
   * `formatDateToIso(value)`; `None` is null or undefined, and `parse` is the
   * platform's date parser.
   */
  function FormatDateToIso(value: Option<string>, parse: string -> Option<CalendarDate>): (r: string)
    ensures value.None? || value == Some("") ==> r == ""
    ensures value.Some? && IsIsoDate(value.value) ==> r == value.value
    ensures value.Some? && IsMonthDate(value.value) ==> r == value.value + "-01"
    ensures value.Some? && value.value != [] && !IsIsoDate(value.value) && !IsMonthDate(value.value) ==>
      r == match parse(value.value)
        case None => value.value
        case Some(d) => IntToString(d.year) + "-" + Pad2(d.month) + "-" + Pad2(d.day)
  {
    match value
    case None => ""
    case Some(s) =>
      if s == [] then ""
      else if IsIsoDate(s) then s
      else if IsMonthDate(s) then s + "-01"
      else match parse(s)
        case None => s
        case Some(d) => IntToString(d.year) + "-" + Pad2(d.month) + "-" + Pad2(d.day)
  }

  /** `toMonthInputValue(value)`. */
  function ToMonthInputValue(value: Option<string>, parse: string -> Option<CalendarDate>): (r: string)
    ensures value.None? || value == Some("") ==> r == ""
    ensures value.Some? && IsMonthDate(value.value) ==> r == value.value
    ensures value.Some? && IsIsoDate(value.value) ==> r == value.value[..7] && IsMonthDate(r)
    ensures value.Some? && value.value != [] && !IsIsoDate(value.value) && !IsMonthDate(value.value) ==>
      r == match parse(value.value)
        case None => value.value
        case Some(d) => IntToString(d.year) + "-" + Pad2(d.month)
  {
    match value
    case None => ""
    case Some(s) =>
      if s == [] then ""
      else if IsMonthDate(s) then s
      else if IsIsoDate(s) then s[..7]
      else match parse(s)
        case None => s
        case Some(d) => IntToString(d.year) + "-" + Pad2(d.month)
  }

  /** A month value sent to the API as the first of the month comes back as the same month. */
  lemma MonthRoundTrip(m: string, parse: string -> Option<CalendarDate>)
    requires IsMonthDate(m)
    ensures IsIsoDate(FormatDateToIso(Some(m), parse))
    ensures ToMonthInputValue(Some(FormatDateToIso(Some(m), parse)), parse) == m
  {
    var d := m + "-01";
    assert d[..7] == m;
  }

  /** An API date shown in a month input and sent back keeps its year and month, on the first day. */
  lemma IsoDateThroughMonthInput(d: string, parse: string -> Option<CalendarDate>)
    requires IsIsoDate(d)
    ensures FormatDateToIso(Some(ToMonthInputValue(Some(d), parse)), parse) == d[..7] + "-01"
  {
  }

  /** Both normalisations are idempotent on the shapes they produce. */
  lemma DateNormalisationIdempotent(s: string, parse: string -> Option<CalendarDate>)
    requires IsIsoDate(s) || IsMonthDate(s)
    ensures FormatDateToIso(Some(FormatDateToIso(Some(s), parse)), parse) == FormatDateToIso(Some(s), parse)
    ensures ToMonthInputValue(Some(ToMonthInputValue(Some(s), parse)), parse) == ToMonthInputValue(Some(s), parse)
  {
    if IsMonthDate(s) {
      MonthRoundTrip(s, parse);
    }
  }
}
