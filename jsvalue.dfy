/**
 * JavaScript values as the front-ends handle them: parsed JSON plus `undefined`.
 * Objects are ordered association lists, so that key order (insertion order in
 * JavaScript) is kept; every operation below keeps keys unique.
 */
module JsValue {
  import opened Text

  datatype Value =
    | Undefined
    | Null
    | Bool(b: bool)
    | Num(n: real)
    | Str(s: string)
    | Arr(items: seq<Value>)
    | Obj(fields: seq<(string, Value)>)

  type Fields = seq<(string, Value)>

  /** `value !== null && typeof value === "object" && !Array.isArray(value)`. */
  predicate IsObject(v: Value) {
    v.Obj?
  }

  /** `typeof value === "object"` for a non-null value: objects and arrays. */
  predicate IsObjectLike(v: Value) {
    v.Obj? || v.Arr?
  }

  /** JavaScript truthiness (NaN is not modelled). */
  predicate Truthy(v: Value) {
    match v
    case Undefined => false
    case Null => false
    case Bool(b) => b
    case Num(n) => n != 0.0
    case Str(s) => s != []
    case _ => true
  }

  /** `null` or `undefined`, the values `??` and `?.` skip. */
  predicate Nullish(v: Value) {
    v.Undefined? || v.Null?
  }

  /** `a ?? b` */
  function Coalesce(a: Value, b: Value): (r: Value)
    ensures !Nullish(a) ==> r == a
    ensures Nullish(a) ==> r == b
  {
    if Nullish(a) then b else a
  }

  /** `a || b` */
  function Or(a: Value, b: Value): (r: Value)
    ensures Truthy(a) ==> r == a
    ensures !Truthy(a) ==> r == b
  {
    if Truthy(a) then a else b
  }

  function Keys(fs: Fields): (ks: seq<string>)
    ensures |ks| == |fs|
    ensures forall i :: 0 <= i < |fs| ==> ks[i] == fs[i].0
  {
    if fs == [] then [] else [fs[0].0] + Keys(fs[1..])
  }

  predicate HasKey(fs: Fields, key: string) {
    key in Keys(fs)
  }

  predicate UniqueKeys(fs: Fields) {
    var ks := Keys(fs);
    forall i, j :: 0 <= i < j < |ks| ==> ks[i] != ks[j]
  }

  /** `obj[key]` on an object's own keys; `undefined` when the key is absent. */
  function Lookup(fs: Fields, key: string): (r: Value)
    ensures !HasKey(fs, key) ==> r == Undefined
    ensures fs != [] && fs[0].0 == key ==> r == fs[0].1
  {
    if fs == [] then Undefined
    else if fs[0].0 == key then fs[0].1
    else Lookup(fs[1..], key)
  }

  /** `v[key]` for any value: non-objects have no own keys here. */
  function Get(v: Value, key: string): (r: Value)
    ensures !v.Obj? ==> r == Undefined
    ensures v.Obj? ==> r == Lookup(v.fields, key)
  {
    if v.Obj? then Lookup(v.fields, key) else Undefined
  }

  /** `obj[key] = value`: an existing key keeps its position, a new key goes last. */
  function Put(fs: Fields, key: string, value: Value): (r: Fields)
    ensures Lookup(r, key) == value
    ensures forall k :: k != key ==> Lookup(r, k) == Lookup(fs, k)
  {
    if fs == [] then [(key, value)]
    else if fs[0].0 == key then [(key, value)] + fs[1..]
    else [fs[0]] + Put(fs[1..], key, value)
  }

  /** An existing key keeps its position, a new key goes last. */
  lemma PutKeys(fs: Fields, key: string, value: Value)
    ensures Keys(Put(fs, key, value)) == if key in Keys(fs) then Keys(fs) else Keys(fs) + [key]
  {
    if key in Keys(fs) {
      PutKeysPresent(fs, key, value);
    } else {
      PutKeysAbsent(fs, key, value);
    }
  }

  lemma {:induction false} PutKeysPresent(fs: Fields, key: string, value: Value)
    requires key in Keys(fs)
    ensures Keys(Put(fs, key, value)) == Keys(fs)
  {
    KeysCons(fs[0], fs[1..]);
    assert [fs[0]] + fs[1..] == fs;
    if fs[0].0 == key {
      KeysCons((key, value), fs[1..]);
    } else {
      PutKeysPresent(fs[1..], key, value);
      KeysCons(fs[0], Put(fs[1..], key, value));
    }
  }

  lemma {:induction false} PutKeysAbsent(fs: Fields, key: string, value: Value)
    requires key !in Keys(fs)
    ensures Keys(Put(fs, key, value)) == Keys(fs) + [key]
  {
    if fs == [] {
      KeysCons((key, value), []);
    } else {
      KeysCons(fs[0], fs[1..]);
      assert [fs[0]] + fs[1..] == fs;
      PutKeysAbsent(fs[1..], key, value);
      KeysCons(fs[0], Put(fs[1..], key, value));
      var head, tail := [fs[0].0], Keys(fs[1..]);
      assert head + (tail + [key]) == (head + tail) + [key];
    }
  }

  lemma KeysCons(f: (string, Value), rest: Fields)
    ensures Keys([f] + rest) == [f.0] + Keys(rest)
  {
    assert ([f] + rest)[1..] == rest;
  }

  /** Two `Put`s on distinct keys: each key holds its value and every other key is untouched. */
  lemma PutTwo(fs: Fields, k1: string, k2: string, v1: Value, v2: Value)
    requires k1 != k2
    ensures var r := Put(Put(fs, k1, v1), k2, v2);
      Lookup(r, k1) == v1 && Lookup(r, k2) == v2 && forall k :: k != k1 && k != k2 ==> Lookup(r, k) == Lookup(fs, k)
  {
  }

  /** Three `Put`s on distinct keys: each key holds its value and every other key is untouched. */
  lemma PutThree(fs: Fields, k1: string, k2: string, k3: string, v1: Value, v2: Value, v3: Value)
    requires k1 != k2 && k1 != k3 && k2 != k3
    ensures var r := Put(Put(Put(fs, k1, v1), k2, v2), k3, v3);
      Lookup(r, k1) == v1 && Lookup(r, k2) == v2 && Lookup(r, k3) == v3
      && forall k :: k != k1 && k != k2 && k != k3 ==> Lookup(r, k) == Lookup(fs, k)
  {
  }

  /** Four `Put`s on distinct keys: each key holds its value and every other key is untouched. */
  lemma PutFour(fs: Fields, k1: string, k2: string, k3: string, k4: string, v1: Value, v2: Value, v3: Value, v4: Value)
    requires k1 != k2 && k1 != k3 && k1 != k4 && k2 != k3 && k2 != k4 && k3 != k4
    ensures var r := Put(Put(Put(Put(fs, k1, v1), k2, v2), k3, v3), k4, v4);
      Lookup(r, k1) == v1 && Lookup(r, k2) == v2 && Lookup(r, k3) == v3 && Lookup(r, k4) == v4
      && forall k :: k != k1 && k != k2 && k != k3 && k != k4 ==> Lookup(r, k) == Lookup(fs, k)
  {
  }

  /** Five `Put`s on distinct keys: each key holds its value and every other key is untouched. */
  lemma PutFive(fs: Fields, k1: string, k2: string, k3: string, k4: string, k5: string,
                v1: Value, v2: Value, v3: Value, v4: Value, v5: Value)
    requires k1 != k2 && k1 != k3 && k1 != k4 && k1 != k5 && k2 != k3 && k2 != k4 && k2 != k5
      && k3 != k4 && k3 != k5 && k4 != k5
    ensures var r := Put(Put(Put(Put(Put(fs, k1, v1), k2, v2), k3, v3), k4, v4), k5, v5);
      Lookup(r, k1) == v1 && Lookup(r, k2) == v2 && Lookup(r, k3) == v3 && Lookup(r, k4) == v4 && Lookup(r, k5) == v5
      && forall k :: k != k1 && k != k2 && k != k3 && k != k4 && k != k5 ==> Lookup(r, k) == Lookup(fs, k)
  {
  }

  lemma PutAppendsNewKey(fs: Fields, key: string, value: Value)
    requires !HasKey(fs, key)
    ensures Put(fs, key, value) == fs + [(key, value)]
  {
    if fs != [] {
      assert Keys(fs) == [fs[0].0] + Keys(fs[1..]);
      PutAppendsNewKey(fs[1..], key, value);
      assert fs == [fs[0]] + fs[1..];
    }
  }

  /** Writing back the value a key already has, at its first position, changes nothing. */
  lemma {:induction false} PutSameValue(fs: Fields, n: nat, key: string, value: Value)
    requires n < |fs| && fs[n] == (key, value) && key !in Keys(fs)[..n]
    ensures Put(fs, key, value) == fs
  {
    if n > 0 {
      assert fs[0].0 == Keys(fs)[..n][0];
      assert Keys(fs[1..])[..n - 1] == Keys(fs)[..n][1..];
      PutSameValue(fs[1..], n - 1, key, value);
      assert fs == [fs[0]] + fs[1..];
    } else {
      assert fs == [fs[0]] + fs[1..];
    }
  }

  lemma PutKeepsUniqueKeys(fs: Fields, key: string, value: Value)
    requires UniqueKeys(fs)
    ensures UniqueKeys(Put(fs, key, value))
  {
    PutKeys(fs, key, value);
  }

  /** `delete obj[key]`. */
  function Delete(fs: Fields, key: string): (r: Fields)
    ensures !HasKey(r, key)
    ensures Lookup(r, key) == Undefined
    ensures forall k :: k != key ==> Lookup(r, k) == Lookup(fs, k)
    ensures |r| <= |fs|
  {
    if fs == [] then []
    else if fs[0].0 == key then Delete(fs[1..], key)
    else [fs[0]] + Delete(fs[1..], key)
  }

  /** `{ ...a, ...b }`: the keys of `b` override those of `a`; new keys follow in `b`'s order. */
  function Spread(a: Fields, b: Fields): (r: Fields)
    decreases |b|
  {
    if b == [] then a else Spread(Put(a, b[0].0, b[0].1), b[1..])
  }

  lemma {:induction false} SpreadLookup(a: Fields, b: Fields, k: string)
    requires UniqueKeys(b)
    ensures Lookup(Spread(a, b), k) == (if HasKey(b, k) then Lookup(b, k) else Lookup(a, k))
    decreases |b|
  {
    if b != [] {
      var kb := Keys(b);
      assert kb == [b[0].0] + Keys(b[1..]);
      assert UniqueKeys(b[1..]) by {
        var ks := Keys(b[1..]);
        forall i, j | 0 <= i < j < |ks| ensures ks[i] != ks[j] {
          assert ks[i] == kb[i + 1] && ks[j] == kb[j + 1];
        }
      }
      assert b[0].0 !in Keys(b[1..]);
      SpreadLookup(Put(a, b[0].0, b[0].1), b[1..], k);
    }
  }

  lemma {:induction false} SpreadKeys(a: Fields, b: Fields, k: string)
    ensures HasKey(Spread(a, b), k) <==> HasKey(a, k) || HasKey(b, k)
    decreases |b|
  {
    if b != [] {
      assert Keys(b) == [b[0].0] + Keys(b[1..]);
      PutKeys(a, b[0].0, b[0].1);
      SpreadKeys(Put(a, b[0].0, b[0].1), b[1..], k);
    }
  }

  /** An object built from a list of key/value pairs with distinct keys. */
  function ObjOf(fs: Fields): (v: Value)
    ensures v.Obj? && v.fields == fs
  {
    Obj(fs)
  }

  /** `Object.entries` of an array from `index` on: the indices as strings. */
  function IndexEntries(items: seq<Value>, index: nat): (es: Fields)
    requires index <= |items|
    ensures |es| == |items| - index
    ensures forall i :: 0 <= i < |es| ==> es[i] == (NatToString(index + i), items[index + i])
    decreases |items| - index
  {
    if index == |items| then [] else [(NatToString(index), items[index])] + IndexEntries(items, index + 1)
  }

  /** The own enumerable entries `{ ...item }` copies: an object's fields, an array's or a string's indices. */
  function SpreadSource(item: Value): (es: Fields)
    ensures item.Obj? ==> es == item.fields
    ensures !Truthy(item) ==> es == []
  {
    match item
    case Obj(fs) => fs
    case Arr(items) => IndexEntries(items, 0)
    case Str(s) => IndexEntries(seq(|s|, i requires 0 <= i < |s| => Str([s[i]])), 0)
    case _ => []
  }


  /** Spreading into an object with distinct keys keeps the keys distinct. */
  lemma {:induction false} SpreadKeepsUniqueKeys(a: Fields, b: Fields)
    requires UniqueKeys(a)
    ensures UniqueKeys(Spread(a, b))
    decreases |b|
  {
    if b != [] {
      PutKeepsUniqueKeys(a, b[0].0, b[0].1);
      SpreadKeepsUniqueKeys(Put(a, b[0].0, b[0].1), b[1..]);
    }
  }

  /** Spreading an object that lacks a key leaves that key as it was. */
  lemma {:induction false} SpreadLookupAbsent(a: Fields, b: Fields, k: string)
    requires !HasKey(b, k)
    ensures Lookup(Spread(a, b), k) == Lookup(a, k)
    decreases |b|
  {
    if b != [] {
      assert Keys(b) == [b[0].0] + Keys(b[1..]);
      SpreadLookupAbsent(Put(a, b[0].0, b[0].1), b[1..], k);
    }
  }

  /** `delete obj[key]` removes exactly that key. */
  lemma {:induction false} DeleteKeys(fs: Fields, key: string, k: string)
    ensures HasKey(Delete(fs, key), k) <==> HasKey(fs, k) && k != key
  {
    if fs != [] {
      assert Keys(fs) == [fs[0].0] + Keys(fs[1..]);
      DeleteKeys(fs[1..], key, k);
      if fs[0].0 != key {
        assert Keys([fs[0]] + Delete(fs[1..], key)) == [fs[0].0] + Keys(Delete(fs[1..], key));
      }
    }
  }

  /** `delete` keeps the keys distinct. */
  lemma {:induction false} DeleteKeepsUniqueKeys(fs: Fields, key: string)
    requires UniqueKeys(fs)
    ensures UniqueKeys(Delete(fs, key))
  {
    if fs != [] {
      var kb := Keys(fs);
      assert kb == [fs[0].0] + Keys(fs[1..]);
      assert UniqueKeys(fs[1..]) by {
        var ks := Keys(fs[1..]);
        forall i, j | 0 <= i < j < |ks| ensures ks[i] != ks[j] {
          assert ks[i] == kb[i + 1] && ks[j] == kb[j + 1];
        }
      }
      DeleteKeepsUniqueKeys(fs[1..], key);
      if fs[0].0 != key {
        var rest := Delete(fs[1..], key);
        DeleteKeys(fs[1..], key, fs[0].0);
        var ks := Keys([fs[0]] + rest);
        assert ks == [fs[0].0] + Keys(rest);
        forall i, j | 0 <= i < j < |ks| ensures ks[i] != ks[j] {
          if i == 0 {
            assert ks[j] in Keys(rest);
          } else {
            assert ks[i] == Keys(rest)[i - 1] && ks[j] == Keys(rest)[j - 1];
          }
        }
      }
    }
  }

  /** Keys missing from `a` are looked up in `b`. */
  lemma {:induction false} LookupAppend(a: Fields, b: Fields, k: string)
    requires !HasKey(a, k)
    ensures Lookup(a + b, k) == Lookup(b, k)
  {
    if a != [] {
      assert Keys(a) == [a[0].0] + Keys(a[1..]);
      assert (a + b)[1..] == a[1..] + b;
      LookupAppend(a[1..], b, k);
    } else {
      assert a + b == b;
    }
  }

  /** A key absent from the first `n` entries is looked up in the rest. */
  lemma {:induction false} LookupAfterPrefix(fs: Fields, n: nat, k: string)
    requires n <= |fs| && k !in Keys(fs)[..n]
    ensures Lookup(fs, k) == Lookup(fs[n..], k)
  {
    if n > 0 {
      assert fs[0].0 == Keys(fs)[..n][0];
      assert Keys(fs[1..])[..n - 1] == Keys(fs)[..n][1..];
      LookupAfterPrefix(fs[1..], n - 1, k);
      assert fs[1..][n - 1..] == fs[n..];
    }
  }

  /** The entry at `n` is found when no earlier entry has its key. */
  lemma LookupAt(fs: Fields, n: nat, k: string)
    requires n < |fs| && fs[n].0 == k && k !in Keys(fs)[..n]
    ensures Lookup(fs, k) == fs[n].1
  {
    LookupAfterPrefix(fs, n, k);
  }

  /** `values[key]` as a list: an array's items, and no items for anything else. */
  function ListOf(values: Value, key: string): (r: seq<Value>)
    ensures Get(values, key).Arr? ==> r == Get(values, key).items
    ensures !Get(values, key).Arr? ==> r == []
  {
    if Get(values, key).Arr? then Get(values, key).items else []
  }

  /**
   * The names every plain object inherits from `Object.prototype`. Reading one
   * of them from an object literal that does not define it yields a function
   * (or, for `__proto__`, the prototype itself): a truthy value that is not a
   * string.
   */
  const ObjectPrototypeMembers: set<string> := {
    "constructor", "hasOwnProperty", "isPrototypeOf", "propertyIsEnumerable",
    "toLocaleString", "toString", "valueOf", "__proto__",
    "__defineGetter__", "__defineSetter__", "__lookupGetter__", "__lookupSetter__"
  }

  /** `${v}`: strings print as themselves; how other values print (numbers in particular) is a parameter. */
  function Display(v: Value, show: Value -> string): (r: string)
    ensures v.Str? ==> r == v.s
  {
    if v.Str? then v.s else show(v)
  }

  /** `items?.[index]` */
  function At(items: seq<Value>, index: nat): (r: Value)
    ensures index < |items| ==> r == items[index]
    ensures index >= |items| ==> r == Undefined
  {
    if index < |items| then items[index] else Undefined
  }
}
