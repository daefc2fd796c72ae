/**
 * The resume's private-token state machine, the education date text and the
 * user's display name (django-admin/cv_builder/models.py). Instants and
 * durations are whole seconds; `now()` and `secrets.token_urlsafe` are
 * parameters.
 */
module CvModels {
  import opened Wrappers

  /** `timedelta(days=1)` in seconds. */
  const OneDay: int := 86400

  /** Python truthiness of an optional string: `None` and "" are false. */
  predicate Present(s: Option<string>) {
    s.Some? && s.value != ""
  }

  /** Python truthiness of an optional duration: `None` and a zero duration are false. */
  predicate LifetimeSet(l: Option<int>) {
    l.Some? && l.value != 0
  }

  /** `str(value)` for an optional string column. */
  function PyStr(s: Option<string>): string {
    match s
    case None => "None"
    case Some(v) => v
  }

  /** The token columns of a resume. */
  datatype TokenState = TokenState(isPrivate: bool, token: Option<string>, created: Option<int>, lifetime: Option<int>)

  /** A present token has its creation time and lifetime, as `create_token` always stores them together. */
  predicate WellFormed(t: TokenState) {
    Present(t.token) ==> t.created.Some? && t.lifetime.Some?
  }

  /** `is_token_expired`: strictly past creation plus lifetime. */
  predicate IsTokenExpired(created: int, lifetime: int, now: int) {
    created + lifetime < now
  }

  /** `not self.private_token or self.is_token_expired()`, evaluated left to right. */
  predicate NeedsToken(t: TokenState, now: int)
    requires WellFormed(t)
  {
    !Present(t.token) || IsTokenExpired(t.created.value, t.lifetime.value, now)
  }

  /** `create_token` on the token columns, with `newToken` the newly generated one. */
  function CreateTokenState(t: TokenState, now: int, newToken: string): (r: TokenState)
    requires WellFormed(t)
    ensures WellFormed(r)
    ensures r.isPrivate == t.isPrivate
  {
    if t.isPrivate && NeedsToken(t, now) then
      t.(token := Some(newToken), created := Some(now), lifetime := if LifetimeSet(t.lifetime) then t.lifetime else Some(OneDay))
    else t
  }

  /** Whether `create_token(update=True)` saves: only when it regenerated the token. */
  predicate CreateTokenSaves(t: TokenState, now: int, update: bool)
    requires WellFormed(t)
  {
    update && t.isPrivate && NeedsToken(t, now)
  }

  /** A valid token is still valid at exactly creation plus lifetime and expired one second later. */
  lemma ExpiryIsStrict(created: int, lifetime: int)
    ensures !IsTokenExpired(created, lifetime, created + lifetime)
    ensures IsTokenExpired(created, lifetime, created + lifetime + 1)
  {
  }

  /** Expiry is permanent: a token expired at some instant stays expired later. */
  lemma ExpiryMonotone(created: int, lifetime: int, now: int, later: int)
    requires IsTokenExpired(created, lifetime, now) && now <= later
    ensures IsTokenExpired(created, lifetime, later)
  {
  }

  /** `create_token` never touches a public resume. */
  lemma CreateTokenPublicUnchanged(t: TokenState, now: int, newToken: string)
    requires WellFormed(t) && !t.isPrivate
    ensures CreateTokenState(t, now, newToken) == t
  {
  }

  /** A present, unexpired token keeps its value, timestamp and lifetime. */
  lemma CreateTokenKeepsValidToken(t: TokenState, now: int, newToken: string)
    requires WellFormed(t) && Present(t.token)
    requires !IsTokenExpired(t.created.value, t.lifetime.value, now)
    ensures CreateTokenState(t, now, newToken) == t
  {
  }

  /**
   * A missing or expired token on a private resume is replaced and stamped `now`;
   * the lifetime defaults to one day only when none is set.
   */
  lemma CreateTokenRegenerates(t: TokenState, now: int, newToken: string)
    requires WellFormed(t) && t.isPrivate && NeedsToken(t, now)
    ensures var r := CreateTokenState(t, now, newToken);
            && r.token == Some(newToken) && r.created == Some(now)
            && (LifetimeSet(t.lifetime) ==> r.lifetime == t.lifetime)
            && (!LifetimeSet(t.lifetime) ==> r.lifetime == Some(OneDay))
  {
  }

  /**
   * Right after `create_token` a private resume holds a usable token, unless a
   * negative lifetime was stored before.
   */
  lemma CreateTokenYieldsUsableToken(t: TokenState, now: int, newToken: string)
    requires WellFormed(t) && t.isPrivate && newToken != ""
    requires t.lifetime.Some? ==> t.lifetime.value >= 0
    ensures var r := CreateTokenState(t, now, newToken);
            Present(r.token) && !NeedsToken(r, now)
  {
  }

  /** At one instant, a second `create_token` changes nothing. */
  lemma CreateTokenIdempotent(t: TokenState, now: int, newToken: string, newToken2: string)
    requires WellFormed(t) && newToken != ""
    requires t.lifetime.Some? ==> t.lifetime.value >= 0
    ensures var r := CreateTokenState(t, now, newToken);
            CreateTokenState(r, now, newToken2) == r
  {
  }

  /** `f"https://{subdomain}.{domain}?token={token}"` */
  function PrivateUrlText(subdomain: string, domain: string, token: Option<string>): string {
    "https://" + subdomain + "." + domain + "?token=" + PyStr(token)
  }

  /** A resume row in memory: its token columns, its owner's subdomain and how often it was saved. */
  class Resume {
    var isPrivate: bool
    var privateToken: Option<string>
    var tokenCreated: Option<int>
    var tokenLifetime: Option<int>
    var subdomain: string
    var saves: nat

    function State(): TokenState
      reads this
    {
      TokenState(isPrivate, privateToken, tokenCreated, tokenLifetime)
    }

    ghost predicate Valid()
      reads this
    {
      WellFormed(State())
    }

    /** A new resume as `Resume.objects.create` leaves it: public, with no token. */
    constructor (subdomain: string)
      ensures Valid()
      ensures State() == TokenState(false, None, None, None)
      ensures this.subdomain == subdomain && saves == 1
    {
      isPrivate := false;
      privateToken := None;
      tokenCreated := None;
      tokenLifetime := None;
      this.subdomain := subdomain;
      saves := 1;
    }

    /** `create_token(update)` at instant `now`, with `newToken` from the token generator. */
    method CreateToken(update: bool, now: int, newToken: string)
      requires Valid()
      modifies this
      ensures Valid()
      ensures State() == CreateTokenState(old(State()), now, newToken)
      ensures saves == old(saves) + (if CreateTokenSaves(old(State()), now, update) then 1 else 0)
      ensures subdomain == old(subdomain)
    {
      if isPrivate {
        if !Present(privateToken) || IsTokenExpired(tokenCreated.value, tokenLifetime.value, now) {
          privateToken := Some(newToken);
          tokenCreated := Some(now);
          if !LifetimeSet(tokenLifetime) {
            tokenLifetime := Some(OneDay);
          }
          if update {
            saves := saves + 1;
          }
        }
      }
    }

    /** The `private_url` property: refreshes a missing or expired token, then builds the link. */
    method PrivateUrl(domain: string, now: int, newToken: string) returns (url: string)
      requires Valid()
      modifies this
      ensures Valid()
      ensures State() == (if NeedsToken(old(State()), now) then CreateTokenState(old(State()), now, newToken) else old(State()))
      ensures url == PrivateUrlText(subdomain, domain, privateToken)
      ensures subdomain == old(subdomain)
    {
      if !Present(privateToken) || IsTokenExpired(tokenCreated.value, tokenLifetime.value, now) {
        CreateToken(true, now, newToken);
      }
      url := PrivateUrlText(subdomain, domain, privateToken);
    }
  }

  /** The token a `private_url` call ends up printing. */
  function PrivateUrlToken(t: TokenState, now: int, newToken: string): Option<string>
    requires WellFormed(t)
  {
    (if NeedsToken(t, now) then CreateTokenState(t, now, newToken) else t).token
  }

  /** For a private resume the link always carries a present token that is valid at that instant. */
  lemma PrivateUrlCarriesValidToken(t: TokenState, now: int, newToken: string)
    requires WellFormed(t) && t.isPrivate && newToken != ""
    requires t.lifetime.Some? ==> t.lifetime.value >= 0
    ensures var r := if NeedsToken(t, now) then CreateTokenState(t, now, newToken) else t;
            Present(PrivateUrlToken(t, now, newToken)) && !NeedsToken(r, now)
  {
  }

  /** A public resume without a token gets a link ending in "?token=None". */
  lemma PrivateUrlOfPublicWithoutToken(t: TokenState, now: int, newToken: string, subdomain: string, domain: string)
    requires !t.isPrivate && t.token.None?
    ensures PrivateUrlToken(t, now, newToken) == None
    ensures var url := PrivateUrlText(subdomain, domain, None);
            url[|url| - 11..] == "?token=None"
  {
  }

  /** A calendar date; only year and month take part in the text's comparison. */
  datatype Date = Date(year: int, month: int, day: int)

  /**
   * `AbstractEducation.date`, with `fmt` standing for `strftime("%Y %B")`:
   * "<start> - Present", "<start>" for the same year and month, else "<start> - <end>".
   */
  function EducationDateLabel(start: Date, end: Option<Date>, fmt: Date -> string): string {
    var tail :=
      if end.None? then " - Present"
      else if (end.value.year, end.value.month) == (start.year, start.month) then ""
      else " - " + fmt(end.value);
    fmt(start) + tail
  }

  /** The text always starts with the formatted start date. */
  lemma EducationDateLabelStartsWithStart(start: Date, end: Option<Date>, fmt: Date -> string)
    ensures var text := EducationDateLabel(start, end, fmt);
            |text| >= |fmt(start)| && text[..|fmt(start)|] == fmt(start)
  {
  }

  /** The text is the bare start date exactly when the end falls in the start's month. */
  lemma EducationDateLabelBare(start: Date, end: Option<Date>, fmt: Date -> string)
    ensures EducationDateLabel(start, end, fmt) == fmt(start) <==>
      end.Some? && end.value.year == start.year && end.value.month == start.month
  {
    var text := EducationDateLabel(start, end, fmt);
    if end.None? || end.value.year != start.year || end.value.month != start.month {
      assert |text| > |fmt(start)|;
    }
  }

  /** Without an end date the text reads "<start> - Present"; the end's day never matters. */
  lemma EducationDateLabelOpen(start: Date, day: int, fmt: Date -> string)
    ensures EducationDateLabel(start, None, fmt) == fmt(start) + " - Present"
    ensures EducationDateLabel(start, Some(Date(start.year, start.month, day)), fmt) == fmt(start)
  {
  }

  /** `User.name`: first and last name joined by one space. */
  function UserName(first: string, last: string): (name: string)
    ensures |name| == |first| + 1 + |last|
    ensures name[..|first|] == first && name[|first|] == ' ' && name[|first| + 1..] == last
  {
    first + " " + last
  }
}
