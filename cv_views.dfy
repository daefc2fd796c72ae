/**
 * The site API of the backend (django-admin/cv_builder/views.py): public and
 * private resume lookup, comments, login and signup. The database is a class
 * whose rows are values; the DNS provider call of signup is recorded with its
 * answer given as a parameter.
 */
module CvViews {
  import opened Wrappers
  import opened Text
  import opened CvModels

  datatype UserRow = UserRow(username: string, password: string, firstName: string, lastName: string,
                             subdomain: string, isStaff: bool)

  datatype ResumeRow = ResumeRow(id: nat, subdomain: string, tokens: TokenState)

  /** The body of the DNS request signup sends to the provider's SDK. */
  datatype ARecordRequest = ARecordRequest(name: string, recordType: string, content: string, proxied: bool)

  datatype SignupForm = SignupForm(username: string, password: string, firstName: string, lastName: string)

  datatype SiteResponse = NotFound | ResumeData(row: ResumeRow)

  const SignupServerAddress: string := "164.92.200.190"

  /** The `subdomain_name` derived from the form: spaces become "_", names joined by "_", lowercased. */
  function SubdomainName(first: string, last: string): (s: string)
    ensures |s| == |first| + 1 + |last|
  {
    ToLower(ReplaceChar(first, ' ', '_') + "_" + ReplaceChar(last, ' ', '_'))
  }

  /** A derived subdomain has no space and no upper-case letter, and keeps the "_" separator. */
  lemma SubdomainNameShape(first: string, last: string)
    ensures var s := SubdomainName(first, last);
            && (forall i :: 0 <= i < |s| ==> s[i] != ' ' && !IsUpper(s[i]))
            && s[|first|] == '_'
  {
    var raw := ReplaceChar(first, ' ', '_') + "_" + ReplaceChar(last, ' ', '_');
    assert raw[|first|] == '_';
    forall i | 0 <= i < |raw| ensures raw[i] != ' ' {
      if i < |first| {
        assert raw[i] == ReplaceChar(first, ' ', '_')[i];
      } else if i > |first| {
        assert raw[i] == ReplaceChar(last, ' ', '_')[i - |first| - 1];
      }
    }
  }

  /** One name as it appears in the subdomain: spaces become "_", then lower case. */
  function NamePart(name: string): (r: string)
    ensures |r| == |name|
    ensures forall i :: 0 <= i < |name| ==> r[i] == LowerChar(if name[i] == ' ' then '_' else name[i])
  {
    ToLower(ReplaceChar(name, ' ', '_'))
  }

  /**
   * Two signups with first names of the same length claim the same subdomain
   * exactly when their first names and their last names agree once spaces are
   * "_" and letters are lower case; so "A B"/"C" collides with "a_b"/"c".
   */
  lemma SubdomainNameCollision(first1: string, last1: string, first2: string, last2: string)
    requires |first1| == |first2|
    ensures SubdomainName(first1, last1) == SubdomainName(first2, last2)
      <==> NamePart(first1) == NamePart(first2) && NamePart(last1) == NamePart(last2)
  {
    var s1, s2 := SubdomainName(first1, last1), SubdomainName(first2, last2);
    var n := |first1|;
    assert s1 == NamePart(first1) + "_" + NamePart(last1) by {
      var raw := ReplaceChar(first1, ' ', '_') + "_" + ReplaceChar(last1, ' ', '_');
      assert forall i :: 0 <= i < |raw| ==> s1[i] == (NamePart(first1) + "_" + NamePart(last1))[i];
    }
    assert s2 == NamePart(first2) + "_" + NamePart(last2) by {
      var raw := ReplaceChar(first2, ' ', '_') + "_" + ReplaceChar(last2, ' ', '_');
      assert forall i :: 0 <= i < |raw| ==> s2[i] == (NamePart(first2) + "_" + NamePart(last2))[i];
    }
    if s1 == s2 {
      assert NamePart(first1) == s1[..n] == s2[..n] == NamePart(first2);
      assert NamePart(last1) == s1[n + 1..] == s2[n + 1..] == NamePart(last2);
    }
  }

  /**
   * A space may move between the first and the last name without changing the
   * subdomain: "a" / "b c" and "a b" / "c" both claim "a_b_c".
   */
  lemma SpaceMovesBetweenNames(first: string, middle: string, last: string)
    ensures SubdomainName(first + " " + middle, last) == SubdomainName(first, middle + " " + last)
  {
    var a, b := first + " " + middle, middle + " " + last;
    var n, m := |first|, |middle|;
    var raw1 := ReplaceChar(a, ' ', '_') + "_" + ReplaceChar(last, ' ', '_');
    var raw2 := ReplaceChar(first, ' ', '_') + "_" + ReplaceChar(b, ' ', '_');
    forall i | 0 <= i < |raw1|
      ensures raw1[i] == raw2[i]
    {
      if i < n {
        assert a[i] == first[i];
      } else if i == n {
        assert a[n] == ' ';
      } else if i < n + 1 + m {
        assert a[i] == middle[i - n - 1] == b[i - n - 1];
      } else if i == n + 1 + m {
        assert b[m] == ' ';
      } else {
        assert b[i - n - 1] == last[i - n - m - 2];
      }
    }
    assert raw1 == raw2;
  }

  /** The error signup answers with, in the order the guards run, before any DNS request. */
  function SignupGuard(users: seq<UserRow>, form: SignupForm): (r: Option<string>)
    ensures r == Some("This email is already used by someone") <==> exists u :: u in users && u.username == form.username
    ensures r.None? <==> (forall u :: u in users ==> u.username != form.username && u.subdomain != SubdomainName(form.firstName, form.lastName))
    ensures r == Some("Something bad happened subdomain name") <==>
      (forall u :: u in users ==> u.username != form.username) && exists u :: u in users && u.subdomain == SubdomainName(form.firstName, form.lastName)
  {
    if exists u :: u in users && u.username == form.username then Some("This email is already used by someone")
    else if exists u :: u in users && u.subdomain == SubdomainName(form.firstName, form.lastName) then Some("Something bad happened subdomain name")
    else None
  }

  /** `get_site_data`: the response and the resume rows afterwards. */
  function SiteData(rows: seq<ResumeRow>, subdomain: string, token: Option<string>, now: int, newToken: string): (out: (SiteResponse, seq<ResumeRow>))
    requires forall i :: 0 <= i < |rows| ==> WellFormed(rows[i].tokens)
    ensures |out.1| == |rows|
  {
    var wantPrivate := Present(token);
    match FirstResume(rows, subdomain, wantPrivate)
    case None => (NotFound, rows)
    case Some(i) =>
      var row := rows[i];
      assert WellFormed(row.tokens);
      if wantPrivate && row.tokens.token != token then (NotFound, rows)
      else if wantPrivate && IsTokenExpired(row.tokens.created.value, row.tokens.lifetime.value, now) then
        (NotFound, rows[i := row.(tokens := CreateTokenState(row.tokens, now, newToken))])
      else (ResumeData(row), rows)
  }

  /** `Resume.objects.filter(user__subdomain_name=..., is_private=...).first()` */
  function FirstResume(rows: seq<ResumeRow>, subdomain: string, isPrivate: bool): (r: Option<nat>)
    ensures r.Some? ==> r.value < |rows| && rows[r.value].subdomain == subdomain && rows[r.value].tokens.isPrivate == isPrivate
    ensures r.Some? ==> forall j :: 0 <= j < r.value ==> !(rows[j].subdomain == subdomain && rows[j].tokens.isPrivate == isPrivate)
    ensures r.None? ==> forall j :: 0 <= j < |rows| ==> !(rows[j].subdomain == subdomain && rows[j].tokens.isPrivate == isPrivate)
  {
    if rows == [] then None
    else if rows[0].subdomain == subdomain && rows[0].tokens.isPrivate == isPrivate then Some(0)
    else match FirstResume(rows[1..], subdomain, isPrivate)
      case None => None
      case Some(i) => Some(i + 1)
  }

  /**
   * Served data belongs to the requested subdomain; with a token it is a private resume
   * holding exactly that token, unexpired; without one it is a public resume.
   */
  lemma SiteDataServesOnlyMatching(rows: seq<ResumeRow>, subdomain: string, token: Option<string>, now: int, newToken: string)
    requires forall i :: 0 <= i < |rows| ==> WellFormed(rows[i].tokens)
    requires SiteData(rows, subdomain, token, now, newToken).0.ResumeData?
    ensures var row := SiteData(rows, subdomain, token, now, newToken).0.row;
            && row in rows && row.subdomain == subdomain
            && row.tokens.isPrivate == Present(token)
            && (Present(token) ==> row.tokens.token == token && !IsTokenExpired(row.tokens.created.value, row.tokens.lifetime.value, now))
  {
  }

  /** Only an expired private token changes the rows: it is regenerated, and the answer is still 404. */
  lemma SiteDataRefreshesExpired(rows: seq<ResumeRow>, subdomain: string, token: Option<string>, now: int, newToken: string)
    requires forall i :: 0 <= i < |rows| ==> WellFormed(rows[i].tokens)
    ensures var out := SiteData(rows, subdomain, token, now, newToken);
            out.1 != rows ==>
              && out.0 == NotFound && Present(token)
              && (exists i :: 0 <= i < |rows| && rows[i].tokens.token == token
                   && IsTokenExpired(rows[i].tokens.created.value, rows[i].tokens.lifetime.value, now)
                   && out.1 == rows[i := rows[i].(tokens := CreateTokenState(rows[i].tokens, now, newToken))])
  {
    var out := SiteData(rows, subdomain, token, now, newToken);
    if out.1 != rows {
      var i := FirstResume(rows, subdomain, Present(token)).value;
      assert rows[i].tokens.token == token;
    }
  }

  /** A request without a token never changes any row. */
  lemma SiteDataPublicReadOnly(rows: seq<ResumeRow>, subdomain: string, token: Option<string>, now: int, newToken: string)
    requires forall i :: 0 <= i < |rows| ==> WellFormed(rows[i].tokens)
    requires !Present(token)
    ensures SiteData(rows, subdomain, token, now, newToken).1 == rows
  {
  }

  datatype CommentResponse = CommentSaved | CommentNotFound | CommentServerError | CommentInvalid

  /**
   * `create_comment` as written: `.first()` yields `None` for an unknown subdomain, and
   * reading `resume.id` then raises an error that the `DoesNotExist` handler does not catch.
   */
  function CreateCommentAsWritten(rows: seq<ResumeRow>, subdomain: string, valid: bool): (r: CommentResponse)
    ensures r != CommentNotFound
    ensures r == CommentSaved ==> valid
  {
    if !exists i :: 0 <= i < |rows| && rows[i].subdomain == subdomain then CommentServerError
    else if !valid then CommentInvalid
    else CommentSaved
  }

  /** As written, the 404 branch is unreachable: an unknown subdomain ends in a server error. */
  lemma CreateCommentAsWrittenNever404(rows: seq<ResumeRow>, subdomain: string, valid: bool)
    ensures CreateCommentAsWritten(rows, subdomain, valid) != CommentNotFound
    ensures (forall i :: 0 <= i < |rows| ==> rows[i].subdomain != subdomain) ==> CreateCommentAsWritten(rows, subdomain, valid) == CommentServerError
  {
  }

  /** `create_comment` as its handler intends: an unknown subdomain answers 404. */
  function CreateComment(rows: seq<ResumeRow>, subdomain: string, valid: bool): (r: CommentResponse)
    ensures r != CommentServerError
    ensures r == CommentSaved ==> valid && exists i :: 0 <= i < |rows| && rows[i].subdomain == subdomain
  {
    if !exists i :: 0 <= i < |rows| && rows[i].subdomain == subdomain then CommentNotFound
    else if !valid then CommentInvalid
    else CommentSaved
  }

  lemma CreateCommentUnknownIs404(rows: seq<ResumeRow>, subdomain: string, valid: bool)
    ensures CreateComment(rows, subdomain, valid) == CommentNotFound <==> forall i :: 0 <= i < |rows| ==> rows[i].subdomain != subdomain
    ensures CreateComment(rows, subdomain, valid) != CommentServerError
  {
  }

  /** `ApiLoginView.post`: one error message whether the user is missing or the password is wrong. */
  function LoginError(users: seq<UserRow>, username: string, password: string, checkPassword: (UserRow, string) -> bool): (r: Option<string>)
    ensures r.Some? ==> r.value == "Invalid credential"
  {
    match FirstUser(users, username)
    case None => Some("Invalid credential")
    case Some(i) => if checkPassword(users[i], password) then None else Some("Invalid credential")
  }

  function FirstUser(users: seq<UserRow>, username: string): (r: Option<nat>)
    ensures r.Some? ==> r.value < |users| && users[r.value].username == username
    ensures r.None? ==> forall j :: 0 <= j < |users| ==> users[j].username != username
  {
    if users == [] then None
    else if users[0].username == username then Some(0)
    else match FirstUser(users[1..], username)
      case None => None
      case Some(i) => Some(i + 1)
  }

  /** Login succeeds exactly for a known user whose password checks; every failure looks the same. */
  lemma LoginErrorIndistinguishable(users: seq<UserRow>, username: string, password: string, checkPassword: (UserRow, string) -> bool)
    ensures LoginError(users, username, password, checkPassword).None? <==>
      exists i :: 0 <= i < |users| && users[i].username == username && checkPassword(users[i], password)
                  && forall j :: 0 <= j < i ==> users[j].username != username
  {
    var f := FirstUser(users, username);
    if f.Some? {
      FirstUserIsFirst(users, username);
    }
    if exists i :: 0 <= i < |users| && users[i].username == username && checkPassword(users[i], password)
                  && forall j :: 0 <= j < i ==> users[j].username != username {
      var i :| 0 <= i < |users| && users[i].username == username && checkPassword(users[i], password)
                  && forall j :: 0 <= j < i ==> users[j].username != username;
      FirstUserIsFirst(users, username);
      assert f == Some(i);
    }
  }

  lemma {:induction false} FirstUserIsFirst(users: seq<UserRow>, username: string)
    ensures var f := FirstUser(users, username);
            f.Some? ==> forall j :: 0 <= j < f.value ==> users[j].username != username
  {
    if users != [] && users[0].username != username {
      FirstUserIsFirst(users[1..], username);
    }
  }

  /** The backend's tables and the DNS requests signup has sent. */
  class Database {
    var users: seq<UserRow>
    var resumes: seq<ResumeRow>
    var nextId: nat
    var dnsRequests: seq<ARecordRequest>

    ghost predicate Valid()
      reads this
    {
      forall i :: 0 <= i < |resumes| ==> WellFormed(resumes[i].tokens)
    }

    constructor ()
      ensures Valid() && users == [] && resumes == [] && dnsRequests == []
    {
      users := [];
      resumes := [];
      nextId := 1;
      dnsRequests := [];
    }

    /** `get_site_data` for `subdomain`, with `token` the query parameter. */
    method GetSiteData(subdomain: string, token: Option<string>, now: int, newToken: string) returns (resp: SiteResponse)
      requires Valid()
      modifies this
      ensures Valid()
      ensures (resp, resumes) == SiteData(old(resumes), subdomain, token, now, newToken)
      ensures users == old(users) && nextId == old(nextId) && dnsRequests == old(dnsRequests)
    {
      var found := FirstResume(resumes, subdomain, Present(token));
      if found.None? {
        return NotFound;
      }
      var i := found.value;
      var row := resumes[i];
      if Present(token) && row.tokens.token != token {
        return NotFound;
      }
      if Present(token) && IsTokenExpired(row.tokens.created.value, row.tokens.lifetime.value, now) {
        row := row.(tokens := CreateTokenState(row.tokens, now, newToken));
        resumes := resumes[i := row];
        return NotFound;
      }
      resp := ResumeData(row);
    }

    /**
     * `ApiSignupView.post` as intended, with the default-data seeding left out: the guards, then the DNS request (`dnsAccepted` is the provider's
     * answer), then the user, the public resume and its private copy with a new token.
     * Returns the public resume's id.
     */
    method Signup(form: SignupForm, domain: string, dnsAccepted: bool, now: int, newToken: string) returns (r: Result<nat, string>)
      requires Valid()
      modifies this
      ensures Valid()
      ensures SignupGuard(old(users), form).Some? ==>
        r == Failure(SignupGuard(old(users), form).value) && users == old(users) && resumes == old(resumes) && dnsRequests == old(dnsRequests)
      ensures SignupGuard(old(users), form).None? ==>
        dnsRequests == old(dnsRequests) + [ARecordRequest(SubdomainName(form.firstName, form.lastName) + "." + domain, "A", SignupServerAddress, true)]
      ensures SignupGuard(old(users), form).None? && !dnsAccepted ==>
        r == Failure("Something bad happened") && users == old(users) && resumes == old(resumes)
      ensures SignupGuard(old(users), form).None? && dnsAccepted ==>
        var sub := SubdomainName(form.firstName, form.lastName);
        && r == Success(old(nextId))
        && users == old(users) + [UserRow(form.username, form.password, form.firstName, form.lastName, sub, true)]
        && resumes == old(resumes) + [ResumeRow(old(nextId), sub, TokenState(false, None, None, None)),
                                       ResumeRow(old(nextId) + 1, sub, TokenState(true, Some(newToken), Some(now), Some(OneDay)))]
    {
      var guard := SignupGuard(users, form);
      if guard.Some? {
        return Failure(guard.value);
      }
      var sub := SubdomainName(form.firstName, form.lastName);
      dnsRequests := dnsRequests + [ARecordRequest(sub + "." + domain, "A", SignupServerAddress, true)];
      if !dnsAccepted {
        return Failure("Something bad happened");
      }
      var id := CreateAccount(form, sub, now, newToken);
      r := Success(id);
    }

    /**
     * `ApiSignupView.post` as written. Seeding the public resume starts with
     * `__create_what_i_dos`, which passes `bg=` and `des=` to `WhatIDo`, a model
     * with only `title` and `description`; the create raises a TypeError. By then
     * the DNS record, the user and the public resume exist, and the private copy
     * is never made.
     */
    method SignupAsWritten(form: SignupForm, domain: string, dnsAccepted: bool) returns (r: Result<nat, string>)
      requires Valid()
      modifies this
      ensures Valid() && r.Failure?
      ensures SignupGuard(old(users), form).Some? ==>
        r == Failure(SignupGuard(old(users), form).value) && users == old(users) && resumes == old(resumes) && dnsRequests == old(dnsRequests)
      ensures SignupGuard(old(users), form).None? ==>
        dnsRequests == old(dnsRequests) + [ARecordRequest(SubdomainName(form.firstName, form.lastName) + "." + domain, "A", SignupServerAddress, true)]
      ensures SignupGuard(old(users), form).None? && !dnsAccepted ==>
        r == Failure("Something bad happened") && users == old(users) && resumes == old(resumes)
      ensures SignupGuard(old(users), form).None? && dnsAccepted ==>
        var sub := SubdomainName(form.firstName, form.lastName);
        && r == Failure("TypeError")
        && users == old(users) + [UserRow(form.username, form.password, form.firstName, form.lastName, sub, true)]
        && resumes == old(resumes) + [ResumeRow(old(nextId), sub, TokenState(false, None, None, None))]
    {
      var guard := SignupGuard(users, form);
      if guard.Some? {
        return Failure(guard.value);
      }
      var sub := SubdomainName(form.firstName, form.lastName);
      dnsRequests := dnsRequests + [ARecordRequest(sub + "." + domain, "A", SignupServerAddress, true)];
      if !dnsAccepted {
        return Failure("Something bad happened");
      }
      users := users + [UserRow(form.username, form.password, form.firstName, form.lastName, sub, true)];
      resumes := resumes + [ResumeRow(nextId, sub, TokenState(false, None, None, None))];
      nextId := nextId + 1;
      // `populate_resume_default_data(resume)`: the first `whatido_set.create(...)` raises
      r := Failure("TypeError");
    }

    /** The user, the public resume and its private copy that a successful signup creates. */
    method CreateAccount(form: SignupForm, sub: string, now: int, newToken: string) returns (id: nat)
      requires Valid()
      modifies this
      ensures Valid() && id == old(nextId) && dnsRequests == old(dnsRequests)
      ensures users == old(users) + [UserRow(form.username, form.password, form.firstName, form.lastName, sub, true)]
      ensures resumes == old(resumes) + [ResumeRow(old(nextId), sub, TokenState(false, None, None, None)),
                                         ResumeRow(old(nextId) + 1, sub, TokenState(true, Some(newToken), Some(now), Some(OneDay)))]
    {
      users := users + [UserRow(form.username, form.password, form.firstName, form.lastName, sub, true)];
      var publicRow := ResumeRow(nextId, sub, TokenState(false, None, None, None));
      resumes := resumes + [publicRow];
      nextId := nextId + 1;
      var privateRow := CreatePrivateResume(publicRow, nextId, now, newToken);
      resumes := resumes + [privateRow];
      nextId := nextId + 1;
      id := publicRow.id;
    }
  }

  /** `create_private_resume`: a copy under a new id, made private, with `create_token` applied. */
  function CreatePrivateResume(public: ResumeRow, newId: nat, now: int, newToken: string): (r: ResumeRow)
    requires WellFormed(public.tokens)
    ensures r.id == newId && r.subdomain == public.subdomain && r.tokens.isPrivate
    ensures !Present(public.tokens.token) ==> r.tokens.token == Some(newToken) && r.tokens.created == Some(now)
  {
    var copy := public.(id := newId, tokens := public.tokens.(isPrivate := true));
    copy.(tokens := CreateTokenState(copy.tokens, now, newToken))
  }
}
