/**
 * String helpers shared by the model. Strings are sequences of characters;
 * case mapping and white space follow the ASCII range only.
 */
module Text {

  /** The ASCII white space characters: space, tab, line feed, vertical tab, form feed, carriage return. */
  predicate IsSpace(c: char) {
    c == ' ' || '\t' <= c <= '\r'
  }

  predicate IsDigit(c: char) {
    '0' <= c <= '9'
  }

  predicate IsHexDigit(c: char) {
    IsDigit(c) || 'a' <= c <= 'f' || 'A' <= c <= 'F'
  }

  predicate IsUpper(c: char) {
    'A' <= c <= 'Z'
  }

  predicate IsLower(c: char) {
    'a' <= c <= 'z'
  }

  predicate NoSpace(s: string) {
    forall i :: 0 <= i < |s| ==> !IsSpace(s[i])
  }

  predicate AllSpace(s: string) {
    forall i :: 0 <= i < |s| ==> IsSpace(s[i])
  }

  predicate StartsWith(s: string, prefix: string) {
    |prefix| <= |s| && s[..|prefix|] == prefix
  }

  function LowerChar(c: char): (r: char)
    ensures !IsUpper(r)
    ensures IsUpper(c) ==> r as int == c as int + 32
    ensures !IsUpper(c) ==> r == c
  {
    if IsUpper(c) then (c as int + 32) as char else c
  }

  function UpperChar(c: char): (r: char)
    ensures !IsLower(r)
    ensures IsLower(c) ==> r as int == c as int - 32
    ensures !IsLower(c) ==> r == c
  {
    if IsLower(c) then (c as int - 32) as char else c
  }

  /** `toLowerCase()` / `lower()` on the ASCII range. */
  function ToLower(s: string): (r: string)
    ensures |r| == |s|
    ensures forall i :: 0 <= i < |s| ==> r[i] == LowerChar(s[i])
  {
    if s == [] then [] else [LowerChar(s[0])] + ToLower(s[1..])
  }

  /** `toUpperCase()` / `upper()` on the ASCII range. */
  function ToUpper(s: string): (r: string)
    ensures |r| == |s|
    ensures forall i :: 0 <= i < |s| ==> r[i] == UpperChar(s[i])
  {
    if s == [] then [] else [UpperChar(s[0])] + ToUpper(s[1..])
  }

  lemma ToLowerIdempotent(s: string)
    ensures ToLower(ToLower(s)) == ToLower(s)
  {
  }

  /** Drops the leading white space. */
  function TrimStart(s: string): (r: string)
    ensures |r| <= |s| && r == s[|s| - |r|..]
    ensures AllSpace(s[..|s| - |r|])
    ensures r == [] || !IsSpace(r[0])
  {
    if s != [] && IsSpace(s[0]) then TrimStart(s[1..]) else s
  }

  /** Drops the trailing white space. */
  function TrimEnd(s: string): (r: string)
    ensures |r| <= |s| && r == s[..|r|]
    ensures AllSpace(s[|r|..])
    ensures r == [] || !IsSpace(r[|r| - 1])
  {
    if s != [] && IsSpace(s[|s| - 1]) then TrimEnd(s[..|s| - 1]) else s
  }

  /** `trim()` in JavaScript and `strip()` in Python. */
  function Trim(s: string): (r: string)
    ensures |r| <= |s|
    ensures r == [] || (!IsSpace(r[0]) && !IsSpace(r[|r| - 1]))
    ensures r == [] <==> AllSpace(s)
  {
    TrimEnd(TrimStart(s))
  }

  /** A string without white space at either end is its own trim. */
  lemma TrimOfTrimmed(s: string)
    requires s != [] && !IsSpace(s[0]) && !IsSpace(s[|s| - 1])
    ensures Trim(s) == s
  {
  }

  /** One space on each side of a string without outer white space is trimmed away. */
  lemma TrimPadded(s: string)
    requires s != [] && !IsSpace(s[0]) && !IsSpace(s[|s| - 1])
    ensures Trim(" " + s + " ") == s
  {
    var padded := " " + s + " ";
    var tail := s + " ";
    assert padded[1..] == tail;
    assert TrimStart(tail) == tail;
    assert tail[..|tail| - 1] == s;
    assert TrimEnd(s) == s;
  }

  /** Whether a string is blank once trimmed. */
  predicate IsBlank(s: string) {
    AllSpace(s)
  }

  /** Drops every trailing occurrence of `c` (Python `rstrip(c)`). */
  function StripRight(s: string, c: char): (r: string)
    ensures |r| <= |s| && r == s[..|r|]
    ensures forall i :: |r| <= i < |s| ==> s[i] == c
    ensures r == [] || r[|r| - 1] != c
  {
    if s != [] && s[|s| - 1] == c then StripRight(s[..|s| - 1], c) else s
  }

  /** Drops every leading occurrence of `c` (Python `lstrip(c)`). */
  function StripLeft(s: string, c: char): (r: string)
    ensures |r| <= |s| && r == s[|s| - |r|..]
    ensures forall i :: 0 <= i < |s| - |r| ==> s[i] == c
    ensures r == [] || r[0] != c
  {
    if s != [] && s[0] == c then StripLeft(s[1..], c) else s
  }

  /** Replaces every occurrence of the character `a` by `b`. */
  function ReplaceChar(s: string, a: char, b: char): (r: string)
    ensures |r| == |s|
    ensures forall i :: 0 <= i < |s| ==> r[i] == (if s[i] == a then b else s[i])
  {
    if s == [] then [] else [if s[0] == a then b else s[0]] + ReplaceChar(s[1..], a, b)
  }

  /** The longest prefix of `s` without white space. */
  function TakeWord(s: string): (w: string)
    ensures |w| <= |s| && w == s[..|w|]
    ensures NoSpace(w)
    ensures |w| < |s| ==> IsSpace(s[|w|])
  {
    if s == [] || IsSpace(s[0]) then [] else [s[0]] + TakeWord(s[1..])
  }

  /** The white-space separated words of `s`: `s.trim().split(/\s+/).filter(Boolean)`. */
  function Words(s: string): (ws: seq<string>)
    ensures forall i :: 0 <= i < |ws| ==> ws[i] != [] && NoSpace(ws[i])
    decreases |s|
  {
    var t := TrimStart(s);
    if t == [] then [] else
      var w := TakeWord(t);
      [w] + Words(t[|w|..])
  }

  /** `words.join(sep)`. */
  function Join(ws: seq<string>, sep: string): (r: string)
    ensures ws == [] ==> r == []
    ensures |ws| == 1 ==> r == ws[0]
  {
    if ws == [] then [] else if |ws| == 1 then ws[0] else ws[0] + sep + Join(ws[1..], sep)
  }

  /** A word list is well formed when no word is empty or contains white space. */
  predicate WellFormedWords(ws: seq<string>) {
    forall i :: 0 <= i < |ws| ==> ws[i] != [] && NoSpace(ws[i])
  }

  lemma TakeWordOfWordThenSpace(w: string, rest: string)
    requires w != [] && NoSpace(w)
    requires rest == [] || IsSpace(rest[0])
    ensures TakeWord(w + rest) == w
    decreases |w|
  {
    if |w| > 1 {
      assert (w + rest)[1..] == w[1..] + rest;
      TakeWordOfWordThenSpace(w[1..], rest);
    } else {
      assert (w + rest)[1..] == rest;
    }
  }

  /** A word followed by white space (or nothing) is split off as the first word. */
  lemma WordsOfWordThenSpace(w: string, rest: string)
    requires w != [] && NoSpace(w)
    requires rest == [] || IsSpace(rest[0])
    ensures Words(w + rest) == [w] + Words(rest)
  {
    var s := w + rest;
    assert s[0] == w[0];
    assert TrimStart(s) == s;
    TakeWordOfWordThenSpace(w, rest);
    assert s[|w|..] == rest;
  }

  lemma WordsOfSpaceThen(tail: string)
    ensures Words(" " + tail) == Words(tail)
  {
    assert (" " + tail)[1..] == tail;
  }

  lemma JoinSpaceCons(ws: seq<string>)
    requires |ws| > 1
    ensures Join(ws, " ") == ws[0] + (" " + Join(ws[1..], " "))
  {
  }

  /** Joining well-formed words with single spaces and splitting again gives the same words. */
  lemma {:induction false} WordsOfJoin(ws: seq<string>)
    requires WellFormedWords(ws)
    ensures Words(Join(ws, " ")) == ws
    decreases |ws|
  {
    if ws == [] {
      assert Join(ws, " ") == [];
    } else if |ws| == 1 {
      WordsOfOneWord(ws[0]);
    } else {
      WordsOfJoin(ws[1..]);
      WordsOfJoinStep(ws);
    }
  }

  lemma WordsOfOneWord(w: string)
    requires w != [] && NoSpace(w)
    ensures Words(w) == [w]
  {
    WordsOfWordThenSpace(w, []);
    assert w + [] == w;
  }

  lemma {:induction false} WordsOfJoinStep(ws: seq<string>)
    requires WellFormedWords(ws) && |ws| > 1
    requires Words(Join(ws[1..], " ")) == ws[1..]
    ensures Words(Join(ws, " ")) == ws
  {
    assert ws[0] != [] && NoSpace(ws[0]);
    WordsOfJoinHead(ws);
    HeadThenTail(ws);
  }

  /** A non-empty sequence is its head followed by its tail. */
  lemma HeadThenTail<T>(s: seq<T>)
    requires s != []
    ensures [s[0]] + s[1..] == s
  {
  }

  /** The first word of joined words comes off whole, and the rest are the words of the joined tail. */
  lemma WordsOfJoinHead(ws: seq<string>)
    requires |ws| > 1 && ws[0] != [] && NoSpace(ws[0])
    ensures Words(Join(ws, " ")) == [ws[0]] + Words(Join(ws[1..], " "))
  {
    var tail := Join(ws[1..], " ");
    JoinSpaceCons(ws);
    WordsOfWordThenSpace(ws[0], " " + tail);
    WordsOfSpaceThen(tail);
  }

  /** `s.replace(pattern, replacement)` on strings: only the first occurrence is replaced. */
  function ReplaceFirst(s: string, pattern: string, replacement: string): (r: string)
    requires pattern != []
    ensures !Contains(s, pattern) ==> r == s
    decreases |s|
  {
    if |s| < |pattern| then s
    else if s[..|pattern|] == pattern then replacement + s[|pattern|..]
    else [s[0]] + ReplaceFirst(s[1..], pattern, replacement)
  }

  /** Whether `pattern` occurs in `s`. */
  predicate Contains(s: string, pattern: string)
    decreases |s|
  {
    StartsWith(s, pattern) || (s != [] && Contains(s[1..], pattern))
  }

  function DigitChar(d: nat): (c: char)
    requires d < 10
    ensures IsDigit(c)
  {
    ('0' as int + d) as char
  }

  /** The decimal representation of a natural number, as JavaScript and Python print it. */
  function NatToString(n: nat): (r: string)
    ensures r != []
    ensures forall i :: 0 <= i < |r| ==> IsDigit(r[i])
  {
    if n < 10 then [DigitChar(n)] else NatToString(n / 10) + [DigitChar(n % 10)]
  }

  /** Different numbers print differently. */
  lemma {:induction false} NatToStringInjective(m: nat, n: nat)
    requires NatToString(m) == NatToString(n)
    ensures m == n
    decreases m
  {
    if m >= 10 && n >= 10 {
      var sm := NatToString(m);
      assert sm == NatToString(m / 10) + [DigitChar(m % 10)];
      assert NatToString(n) == NatToString(n / 10) + [DigitChar(n % 10)];
      assert sm[..|sm| - 1] == NatToString(m / 10) == NatToString(n / 10);
      assert DigitChar(m % 10) == sm[|sm| - 1] == DigitChar(n % 10);
      NatToStringInjective(m / 10, n / 10);
    }
  }

  /** A number followed by a separator that is not a digit can be read back: equal texts have equal numbers. */
  lemma NumberPrefixDetermined(m: nat, n: nat, sep: char, a: string, b: string)
    requires !IsDigit(sep)
    requires NatToString(m) + [sep] + a == NatToString(n) + [sep] + b
    ensures m == n
  {
    var sm := NatToString(m);
    var sn := NatToString(n);
    var t := sm + [sep] + a;
    var u := sn + [sep] + b;
    assert forall i :: 0 <= i < |sm| ==> IsDigit(t[i]);
    assert forall i :: 0 <= i < |sn| ==> IsDigit(u[i]);
    assert t[|sm|] == sep && u[|sn|] == sep;
    assert |sm| == |sn|;
    assert sm == t[..|sm|] == u[..|sn|] == sn;
    NatToStringInjective(m, n);
  }

  /** The decimal representation of an integer, with a leading "-" when negative. */
  function IntToString(n: int): (r: string)
    ensures r != []
  {
    if n < 0 then "-" + NatToString(-n) else NatToString(n)
  }

  /** `value.toString().padStart(2, "0")` for a natural number. */
  function Pad2(n: nat): (r: string)
    ensures |r| >= 2
    ensures forall i :: 0 <= i < |r| ==> IsDigit(r[i])
  {
    var d := NatToString(n);
    if |d| < 2 then "0" + d else d
  }
}
