/**
 * Link construction for the account e-mails (django-admin/accounts/emails.py).
 * Rendering and sending the messages are not modelled; `request.build_absolute_uri`
 * on a site path is the request's origin followed by that path.
 */
module AccountEmails {
  import opened Wrappers
  import opened Text

  predicate IsAbsoluteUrl(url: string) {
    StartsWith(url, "http://") || StartsWith(url, "https://")
  }

  /** `_absolute(url)` with `base` the configured FRONTEND_URL ("" when unset). */
  function Absolute(url: string, base: string): (r: string)
    ensures IsAbsoluteUrl(url) ==> r == url
    ensures !IsAbsoluteUrl(url) ==> StartsWith(r, StripRight(base, '/') + "/")
  {
    if IsAbsoluteUrl(url) then url
    else StripRight(base, '/') + "/" + StripLeft(url, '/')
  }

  /** An absolute URL is returned unchanged. */
  lemma AbsoluteKeepsAbsolute(url: string, base: string)
    requires IsAbsoluteUrl(url)
    ensures Absolute(url, base) == url
  {
  }

  /** Joining a text without a trailing slash and one without a leading slash puts exactly one slash between them. */
  lemma OneSlashBetween(b: string, u: string)
    requires b == [] || b[|b| - 1] != '/'
    requires u == [] || u[0] != '/'
    ensures var r := b + "/" + u;
            && r[|b|] == '/'
            && (|b| == 0 || r[|b| - 1] != '/')
            && (u == [] || r[|b| + 1] != '/')
  {
    var r := b + "/" + u;
    if |b| > 0 {
      assert r[|b| - 1] == b[|b| - 1];
    }
    if u != [] {
      assert r[|b| + 1] == u[0];
    }
  }

  /**
   * A relative URL is joined to the base with exactly one slash: the base keeps its
   * text up to its trailing slashes, the URL its text after its leading slashes.
   */
  lemma AbsoluteJoinsWithOneSlash(url: string, base: string)
    requires !IsAbsoluteUrl(url)
    ensures var b := StripRight(base, '/');
            var u := StripLeft(url, '/');
            var r := Absolute(url, base);
            && r == b + "/" + u
            && b == base[..|b|] && u == url[|url| - |u|..]
            && r[|b|] == '/'
            && (|b| == 0 || r[|b| - 1] != '/')
            && (u == [] || r[|b| + 1] != '/')
  {
    var b := StripRight(base, '/');
    var u := StripLeft(url, '/');
    assert b == base[..|b|] && (b == [] || b[|b| - 1] != '/');
    assert u == url[|url| - |u|..] && (u == [] || u[0] != '/');
    OneSlashBetween(b, u);
    assert Absolute(url, base) == b + "/" + u;
  }

  /** Without a FRONTEND_URL the result is "/" followed by the URL without its leading slashes. */
  lemma AbsoluteWithoutBase(url: string)
    requires !IsAbsoluteUrl(url)
    ensures Absolute(url, "") == "/" + StripLeft(url, '/')
  {
  }

  /** A text that starts with an absolute URL is itself absolute. */
  lemma AbsoluteExtends(b: string, rest: string)
    requires IsAbsoluteUrl(b)
    ensures IsAbsoluteUrl(b + rest)
  {
    var r := b + rest;
    if StartsWith(b, "http://") {
      assert r[..7] == b[..7];
    } else {
      assert r[..8] == b[..8];
    }
  }

  /** With an absolute (or empty) base, applying `_absolute` twice is the same as once. */
  lemma AbsoluteIdempotent(url: string, base: string)
    requires StripRight(base, '/') == [] || IsAbsoluteUrl(StripRight(base, '/'))
    ensures Absolute(Absolute(url, base), base) == Absolute(url, base)
  {
    var b := StripRight(base, '/');
    var once := Absolute(url, base);
    if IsAbsoluteUrl(url) {
      AbsoluteKeepsAbsolute(once, base);
    } else {
      var u := StripLeft(url, '/');
      assert once == b + "/" + u;
      if b == [] {
        assert once[0] == '/' && once[1..] == u;
        assert StripLeft(once, '/') == u;
      } else {
        AbsoluteExtends(b, "/" + u);
        AbsoluteKeepsAbsolute(once, base);
      }
    }
  }

  /** `?uid=<uid>&token=<token>` */
  function Query(uid: string, token: string): string {
    "?uid=" + uid + "&token=" + token
  }

  /** The link ends in the uid/token query. */
  predicate EndsWithQuery(link: string, uid: string, token: string) {
    var q := Query(uid, token);
    |q| <= |link| && link[|link| - |q|..] == q
  }

  /** The link of `send_verification_email`, before `_absolute`. */
  function VerificationLink(verifyUrl: Option<string>, origin: string, routePath: string, uid: string, token: string): (r: string)
    ensures EndsWithQuery(r, uid, token)
    ensures verifyUrl.Some? && verifyUrl.value != "" ==> StartsWith(r, verifyUrl.value)
    ensures !(verifyUrl.Some? && verifyUrl.value != "") ==> StartsWith(r, origin + routePath)
  {
    if verifyUrl.Some? && verifyUrl.value != "" then verifyUrl.value + Query(uid, token)
    else origin + (routePath + Query(uid, token))
  }

  /** The link of `send_password_reset_email`, before `_absolute`. */
  function ResetLink(resetUrl: Option<string>, origin: string, routePath: string, uid: string, token: string): (r: string)
    ensures EndsWithQuery(r, uid, token)
    ensures resetUrl.Some? && resetUrl.value != "" ==> StartsWith(r, resetUrl.value)
    ensures !(resetUrl.Some? && resetUrl.value != "") ==> StartsWith(r, origin + routePath)
  {
    if resetUrl.Some? && resetUrl.value != "" then resetUrl.value + Query(uid, token)
    else (origin + routePath) + Query(uid, token)
  }

  /**
   * Both e-mails build the same shape of link: the configured front-end URL, or the
   * site's own route, followed by the uid/token query.
   */
  lemma LinksCarryQuery(configured: Option<string>, origin: string, verifyRoute: string, resetRoute: string, uid: string, token: string)
    ensures configured.Some? && configured.value != "" ==>
      VerificationLink(configured, origin, verifyRoute, uid, token) == configured.value + Query(uid, token) == ResetLink(configured, origin, resetRoute, uid, token)
    ensures !(configured.Some? && configured.value != "") ==>
      && VerificationLink(configured, origin, verifyRoute, uid, token) == origin + verifyRoute + Query(uid, token)
      && ResetLink(configured, origin, resetRoute, uid, token) == origin + resetRoute + Query(uid, token)
  {
  }

  /** The action URL of the e-mails (`_absolute(link)`): a link built on an absolute origin is used unchanged. */
  lemma ActionUrlOfSiteLink(origin: string, route: string, uid: string, token: string, frontendUrl: string)
    requires IsAbsoluteUrl(origin)
    ensures Absolute(VerificationLink(None, origin, route, uid, token), frontendUrl) == origin + route + Query(uid, token)
    ensures Absolute(ResetLink(None, origin, route, uid, token), frontendUrl) == origin + route + Query(uid, token)
  {
    var l := origin + route + Query(uid, token);
    assert l[..|origin|] == origin;
    if StartsWith(origin, "http://") {
      assert l[..7] == origin[..7];
    } else {
      assert l[..8] == origin[..8];
    }
    assert IsAbsoluteUrl(l);
    assert VerificationLink(None, origin, route, uid, token) == l == ResetLink(None, origin, route, uid, token);
  }
}
