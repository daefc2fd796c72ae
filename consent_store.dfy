/**
 * The analytics consent store: one "true"/"false" text per consent type in
 * browser storage, modelled as a map from key to text. Storage that throws is
 * not modelled; a value whose `toString()` throws is.
 */
module ConsentStore {
  import opened Wrappers
  import opened Text
  import opened JsValue

  const AnalyticsKey: string := "analytics_consent"
  const MarketingKey: string := "marketing_consent"
  const FunctionalKey: string := "functional_consent"

  /** `Object.values(CONSENT_KEYS)` */
  const ConsentKeys: seq<string> := [AnalyticsKey, MarketingKey, FunctionalKey]

  /** `CONSENT_KEYS[name]` */
  function ConsentKey(name: string): (r: Option<string>)
    ensures r.Some? ==> r.value in ConsentKeys
    ensures name == "ANALYTICS" ==> r == Some(AnalyticsKey)
    ensures name == "MARKETING" ==> r == Some(MarketingKey)
    ensures name == "FUNCTIONAL" ==> r == Some(FunctionalKey)
    ensures name != "ANALYTICS" && name != "MARKETING" && name != "FUNCTIONAL" ==> r == None
  {
    if name == "ANALYTICS" then Some(AnalyticsKey)
    else if name == "MARKETING" then Some(MarketingKey)
    else if name == "FUNCTIONAL" then Some(FunctionalKey)
    else None
  }

  /**
   * `hasConsent.toString()` with the parameter's default: `undefined` becomes
   * `true`, `null` throws (`None`). How numbers, arrays and objects print is a
   * parameter.
   */
  function ConsentText(v: Value, otherText: Value -> string): (r: Option<string>)
    ensures v == Undefined || v == Bool(true) ==> r == Some("true")
    ensures v == Bool(false) ==> r == Some("false")
    ensures v.Str? ==> r == Some(v.s)
    ensures r.None? <==> v == Null
  {
    match v
    case Undefined => Some("true")
    case Null => None
    case Bool(b) => Some(if b then "true" else "false")
    case Str(s) => Some(s)
    case _ => Some(otherText(v))
  }

  /** `hasConsent(key)` on a storage map: only the exact text "true" counts. */
  predicate Granted(storage: map<string, string>, key: string) {
    key in storage && storage[key] == "true"
  }

  /** `setConsent(key, value)` on a storage map. */
  function Assign(storage: map<string, string>, key: string, v: Value, otherText: Value -> string): (r: map<string, string>)
  {
    match ConsentText(v, otherText)
    case None => storage
    case Some(text) => storage[key := text]
  }

  /** `setAllConsent(preferences)` over the entries from the first on. */
  function AssignAll(storage: map<string, string>, preferences: Fields, otherText: Value -> string): (r: map<string, string>)
    decreases |preferences|
  {
    if preferences == [] then storage
    else
      var key := ConsentKey(ToUpper(preferences[0].0));
      var next := if key.Some? then Assign(storage, key.value, preferences[0].1, otherText) else storage;
      AssignAll(next, preferences[1..], otherText)
  }

  /** `setAllConsent` writes only consent keys: every other stored key keeps its value, or stays absent. */
  lemma {:induction false} AssignAllOnlyConsentKeys(storage: map<string, string>, preferences: Fields, otherText: Value -> string, k: string)
    requires k !in ConsentKeys
    ensures var r := AssignAll(storage, preferences, otherText);
      (k in r <==> k in storage) && (k in r ==> r[k] == storage[k])
    decreases |preferences|
  {
    if preferences != [] {
      var key := ConsentKey(ToUpper(preferences[0].0));
      var next := if key.Some? then Assign(storage, key.value, preferences[0].1, otherText) else storage;
      AssignAllOnlyConsentKeys(next, preferences[1..], otherText, k);
    }
  }

  /** A preference named in any case sets its consent type; a boolean is then read back as given. */
  lemma AssignAllOne(storage: map<string, string>, name: string, granted: bool, otherText: Value -> string)
    requires ConsentKey(ToUpper(name)).Some?
    ensures Granted(AssignAll(storage, [(name, Bool(granted))], otherText), ConsentKey(ToUpper(name)).value) == granted
  {
    var preferences := [(name, Bool(granted))];
    assert preferences[1..] == [];
  }

  /**
   * An entry left undefined takes `setConsent`'s default and grants consent;
   * the name matches its consent type in any letter case ("analytics", "Analytics").
   */
  lemma UndefinedPreferenceGrants(storage: map<string, string>, name: string, otherText: Value -> string)
    requires ToUpper(name) == "ANALYTICS"
    ensures Granted(AssignAll(storage, [(name, Undefined)], otherText), AnalyticsKey)
  {
    UndefinedEntryGrants(storage, name, AnalyticsKey, otherText);
  }

  /** A single undefined entry whose upper-cased name is a consent type grants that consent. */
  lemma UndefinedEntryGrants(storage: map<string, string>, name: string, key: string, otherText: Value -> string)
    requires ConsentKey(ToUpper(name)) == Some(key)
    ensures Granted(AssignAll(storage, [(name, Undefined)], otherText), key)
  {
    var preferences := [(name, Undefined)];
    assert preferences[1..] == [];
  }

  /** The three flags `getAllConsent()` returns. */
  datatype Consents = Consents(analytics: bool, marketing: bool, functional: bool)

  class Store {
    var storage: map<string, string>

    constructor(initial: map<string, string>)
      ensures storage == initial
    {
      storage := initial;
    }

    /** `hasConsent(consentType)` */
    function HasConsent(consentType: string): (b: bool)
      reads this
      ensures b <==> Granted(storage, consentType)
    {
      consentType in storage && storage[consentType] == "true"
    }

    /** `getAllConsent()` */
    function AllConsent(): (r: Consents)
      reads this
      ensures r.analytics == Granted(storage, AnalyticsKey)
      ensures r.marketing == Granted(storage, MarketingKey)
      ensures r.functional == Granted(storage, FunctionalKey)
    {
      Consents(HasConsent(AnalyticsKey), HasConsent(MarketingKey), HasConsent(FunctionalKey))
    }

    /** `setConsent(consentType, hasConsent)`: fails, changing nothing, when the value cannot be printed. */
    method SetConsent(consentType: string, hasConsent: Value, otherText: Value -> string) returns (ok: bool)
      modifies this
      ensures storage == Assign(old(storage), consentType, hasConsent, otherText)
      ensures ok <==> hasConsent != Null
      ensures hasConsent.Bool? ==> (Granted(storage, consentType) <==> hasConsent.b)
    {
      var text := ConsentText(hasConsent, otherText);
      if text.None? {
        return false;
      }
      storage := storage[consentType := text.value];
      return true;
    }

    /** `removeConsent(consentType)` */
    method RemoveConsent(consentType: string) returns (ok: bool)
      modifies this
      ensures storage == old(storage) - {consentType}
      ensures !Granted(storage, consentType) && ok
    {
      storage := storage - {consentType};
      return true;
    }

    /** `setAllConsent(preferences)`: the entries in order, each name upper-cased; unknown names are skipped. */
    method SetAllConsent(preferences: Fields, otherText: Value -> string) returns (ok: bool)
      modifies this
      ensures storage == AssignAll(old(storage), preferences, otherText) && ok
    {
      for i := 0 to |preferences|
        invariant AssignAll(storage, preferences[i..], otherText) == AssignAll(old(storage), preferences, otherText)
      {
        assert preferences[i..][1..] == preferences[i + 1..];
        var (name, value) := preferences[i];
        var key := ConsentKey(ToUpper(name));
        if key.Some? {
          var _ := SetConsent(key.value, value, otherText);
        }
      }
      assert preferences[|preferences|..] == [];
      return true;
    }

    /** `clearAllConsent()`: every consent key is removed, so no consent is granted afterwards. */
    method ClearAllConsent() returns (ok: bool)
      modifies this
      ensures storage == old(storage) - set k | k in ConsentKeys
      ensures AllConsent() == Consents(false, false, false) && ok
    {
      for i := 0 to |ConsentKeys|
        invariant storage == old(storage) - set k | k in ConsentKeys[..i]
      {
        assert ConsentKeys[..i + 1] == ConsentKeys[..i] + [ConsentKeys[i]];
        storage := storage - {ConsentKeys[i]};
      }
      assert ConsentKeys[..|ConsentKeys|] == ConsentKeys;
      return true;
    }
  }
}
