/**
 * The access/refresh token store of the onboarding front-end: two module-level
 * caches in front of browser storage. Storage is a map from key to text;
 * storage that throws is not modelled.
 */
module AuthStore {
  import opened Wrappers

  const AccessKey: string := "awesome_resume_access"
  const RefreshKey: string := "awesome_resume_refresh"

  /** `readStorage(key)`: `getItem(key) || ""`. */
  function ReadStorage(storage: map<string, string>, key: string): (r: string)
    ensures key !in storage ==> r == ""
    ensures key in storage ==> r == storage[key]
  {
    if key in storage && storage[key] != "" then storage[key] else ""
  }

  /** `writeStorage(key, value)`: an empty value removes the key. */
  function WriteStorage(storage: map<string, string>, key: string, value: string): (r: map<string, string>)
    ensures value == "" ==> key !in r
    ensures value != "" ==> key in r && r[key] == value
    ensures forall k :: k != key ==> (k in r <==> k in storage) && (k in r ==> r[k] == storage[k])
  {
    if value != "" then storage[key := value] else storage - {key}
  }

  /** Whatever is written is what is read back. */
  lemma WriteThenRead(storage: map<string, string>, key: string, value: string)
    ensures ReadStorage(WriteStorage(storage, key, value), key) == value
  {
  }

  /** `token || ""` for a token that may be missing. */
  function TokenText(token: Option<string>): (r: string)
    ensures token.Some? ==> r == token.value
    ensures token.None? ==> r == ""
  {
    if token.Some? && token.value != "" then token.value else ""
  }

  class TokenStore {
    var accessTokenCache: string
    var refreshTokenCache: string
    var storage: map<string, string>

    /** A non-empty cache holds what storage holds. */
    predicate Valid()
      reads this
    {
      (accessTokenCache != "" ==> ReadStorage(storage, AccessKey) == accessTokenCache)
      && (refreshTokenCache != "" ==> ReadStorage(storage, RefreshKey) == refreshTokenCache)
    }

    /** The module is loaded with empty caches over whatever storage holds. */
    constructor(initial: map<string, string>)
      ensures Valid()
      ensures accessTokenCache == "" && refreshTokenCache == "" && storage == initial
    {
      accessTokenCache := "";
      refreshTokenCache := "";
      storage := initial;
    }

    /** `getAccessToken()`: storage is read only while the cache is empty; either way the result is what storage holds. */
    method GetAccessToken() returns (t: string)
      requires Valid()
      modifies this
      ensures Valid()
      ensures t == ReadStorage(storage, AccessKey) && accessTokenCache == t
      ensures storage == old(storage) && refreshTokenCache == old(refreshTokenCache)
      ensures old(accessTokenCache) != "" ==> t == old(accessTokenCache)
    {
      if accessTokenCache == "" {
        accessTokenCache := ReadStorage(storage, AccessKey);
      }
      t := accessTokenCache;
    }

    /** `getRefreshToken()` */
    method GetRefreshToken() returns (t: string)
      requires Valid()
      modifies this
      ensures Valid()
      ensures t == ReadStorage(storage, RefreshKey) && refreshTokenCache == t
      ensures storage == old(storage) && accessTokenCache == old(accessTokenCache)
      ensures old(refreshTokenCache) != "" ==> t == old(refreshTokenCache)
    {
      if refreshTokenCache == "" {
        refreshTokenCache := ReadStorage(storage, RefreshKey);
      }
      t := refreshTokenCache;
    }

    /** `setAccessToken(token)`: a missing token removes the stored one. */
    method SetAccessToken(token: Option<string>)
      requires Valid()
      modifies this
      ensures Valid()
      ensures accessTokenCache == TokenText(token)
      ensures storage == WriteStorage(old(storage), AccessKey, TokenText(token))
      ensures refreshTokenCache == old(refreshTokenCache)
    {
      accessTokenCache := TokenText(token);
      storage := WriteStorage(storage, AccessKey, accessTokenCache);
    }

    /** `setRefreshToken(token)` */
    method SetRefreshToken(token: Option<string>)
      requires Valid()
      modifies this
      ensures Valid()
      ensures refreshTokenCache == TokenText(token)
      ensures storage == WriteStorage(old(storage), RefreshKey, TokenText(token))
      ensures accessTokenCache == old(accessTokenCache)
    {
      refreshTokenCache := TokenText(token);
      storage := WriteStorage(storage, RefreshKey, refreshTokenCache);
    }

    /** `setTokens({ access, refresh })`: both are set, and a missing refresh token clears the stored one. */
    method SetTokens(access: Option<string>, refresh: Option<string>)
      requires Valid()
      modifies this
      ensures Valid()
      ensures accessTokenCache == TokenText(access) && refreshTokenCache == TokenText(refresh)
      ensures storage == WriteStorage(WriteStorage(old(storage), AccessKey, TokenText(access)), RefreshKey, TokenText(refresh))
      ensures ReadStorage(storage, AccessKey) == TokenText(access) && ReadStorage(storage, RefreshKey) == TokenText(refresh)
    {
      SetAccessToken(Some(TokenText(access)));
      SetRefreshToken(Some(TokenText(refresh)));
    }

    /** `clearTokens()`: both caches are emptied and both keys removed. */
    method ClearTokens()
      requires Valid()
      modifies this
      ensures Valid()
      ensures accessTokenCache == "" && refreshTokenCache == ""
      ensures storage == old(storage) - {AccessKey, RefreshKey}
      ensures AccessKey !in storage && RefreshKey !in storage
    {
      accessTokenCache := "";
      refreshTokenCache := "";
      storage := WriteStorage(storage, AccessKey, "");
      storage := WriteStorage(storage, RefreshKey, "");
    }

    /** `hasToken()`: whether the access token is non-empty. */
    method HasToken() returns (b: bool)
      requires Valid()
      modifies this
      ensures Valid()
      ensures b <==> ReadStorage(storage, AccessKey) != ""
      ensures storage == old(storage) && refreshTokenCache == old(refreshTokenCache)
    {
      var t := GetAccessToken();
      b := t != "";
    }
  }
}
