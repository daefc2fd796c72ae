/**
 * E-mail verification and password reset (django-admin/accounts/views.py) as
 * transitions of a user table. Decoding the uid, the token generators' checks
 * and JWT issuance are parameters: `decodeUid` yields the primary key a uid
 * names (or nothing when it does not decode), `tokenValid` is the library's
 * `check_token`.
 */
module AccountViews {
  import opened Wrappers
  import opened Text

  datatype Account = Account(pk: nat, email: string, isActive: bool, password: string)

  /** `Unhandled` is Django's error page for an exception the view does not catch. */
  datatype Body = Detail(text: string) | Tokens(userPk: nat) | Unhandled(exception: string)

  datatype Response = Response(status: nat, body: Body)

  /** The e-mails the views ask to send, recorded instead of being sent. */
  datatype Mail = VerificationMail(toPk: nat) | ResetMail(toPk: nat)

  const MissingUidOrToken: Response := Response(400, Detail("Missing uid or token."))
  const InvalidLink: Response := Response(400, Detail("Invalid link."))
  const InvalidToken: Response := Response(400, Detail("Invalid or expired token."))
  const AlreadyVerified: Response := Response(200, Detail("Account already verified."))
  const VerificationMaybeSent: Response := Response(200, Detail("If an account exists, a verification email was sent."))
  const ResetMaybeSent: Response := Response(200, Detail("If an account exists, a reset email was sent."))
  const SharedAddress: Response := Response(500, Unhandled("MultipleObjectsReturned"))

  function IndexOfPk(users: seq<Account>, pk: nat): (r: Option<nat>)
    ensures r.Some? ==> r.value < |users| && users[r.value].pk == pk
    ensures r.None? ==> forall i :: 0 <= i < |users| ==> users[i].pk != pk
  {
    if users == [] then None
    else if users[0].pk == pk then Some(0)
    else match IndexOfPk(users[1..], pk)
      case None => None
      case Some(i) => Some(i + 1)
  }

  function IndexOfEmail(users: seq<Account>, email: string): (r: Option<nat>)
    ensures r.Some? ==> r.value < |users| && users[r.value].email == email
    ensures r.Some? ==> forall i :: 0 <= i < r.value ==> users[i].email != email
    ensures r.None? ==> forall i :: 0 <= i < |users| ==> users[i].email != email
  {
    if users == [] then None
    else if users[0].email == email then Some(0)
    else match IndexOfEmail(users[1..], email)
      case None => None
      case Some(i) => Some(i + 1)
  }

  /**
   * What `User.objects.get(email=...)` finds. The e-mail column is not unique, so two
   * users with the address raise `MultipleObjectsReturned` instead of returning one.
   */
  datatype EmailLookup = DoesNotExist | Found(index: nat) | MultipleObjectsReturned

  function GetByEmail(users: seq<Account>, email: string): (r: EmailLookup)
    ensures r.DoesNotExist? <==> forall i :: 0 <= i < |users| ==> users[i].email != email
    ensures r.Found? ==> r.index < |users| && users[r.index].email == email
    ensures r.Found? ==> forall j :: 0 <= j < |users| && j != r.index ==> users[j].email != email
    ensures r.MultipleObjectsReturned? ==>
      exists i, j :: 0 <= i < j < |users| && users[i].email == email && users[j].email == email
  {
    match IndexOfEmail(users, email)
    case None => DoesNotExist
    case Some(i) =>
      var later := IndexOfEmail(users[i + 1..], email);
      if later.Some? then
        assert users[i + 1 + later.value] == users[i + 1..][later.value];
        MultipleObjectsReturned
      else
        assert forall j :: i < j < |users| ==> users[j] == users[i + 1..][j - i - 1];
        Found(i)
  }

  /** The user a uid designates: `User.objects.get(pk=force_str(urlsafe_base64_decode(uid)))`. */
  function UserForUid(users: seq<Account>, uid: string, decodeUid: string -> Option<nat>): (r: Option<nat>)
    ensures decodeUid(uid).None? ==> r.None?
    ensures r.Some? ==> r.value < |users| && users[r.value].pk == decodeUid(uid).value
    ensures decodeUid(uid).Some? && r.None? ==> forall i :: 0 <= i < |users| ==> users[i].pk != decodeUid(uid).value
  {
    match decodeUid(uid)
    case None => None
    case Some(pk) => IndexOfPk(users, pk)
  }

  /** `VerifyEmailView.get`: the response and the user table afterwards. */
  function VerifyEmail(users: seq<Account>, uid: Option<string>, token: Option<string>,
                       decodeUid: string -> Option<nat>, tokenValid: (Account, string) -> bool): (out: (Response, seq<Account>))
    ensures |out.1| == |users|
  {
    if uid.None? || uid.value == "" || token.None? || token.value == "" then (MissingUidOrToken, users)
    else match UserForUid(users, uid.value, decodeUid)
      case None => (InvalidLink, users)
      case Some(i) =>
        if tokenValid(users[i], token.value) && !users[i].isActive then
          (Response(201, Tokens(users[i].pk)), users[i := users[i].(isActive := true)])
        else (InvalidToken, users)
  }

  /**
   * Activation is one-way and happens only on success: the table changes exactly when the
   * answer is 201, and then only by activating the linked, previously inactive user.
   */
  lemma VerifyEmailActivatesOnly(users: seq<Account>, uid: Option<string>, token: Option<string>,
                                 decodeUid: string -> Option<nat>, tokenValid: (Account, string) -> bool)
    ensures var (resp, after) := VerifyEmail(users, uid, token, decodeUid, tokenValid);
            && (resp.status == 201 <==> after != users)
            && (forall i :: 0 <= i < |users| ==> users[i].isActive ==> after[i] == users[i])
            && (forall i :: 0 <= i < |users| ==> after[i] == users[i] || after[i] == users[i].(isActive := true))
            && (resp.status != 201 ==> resp in {MissingUidOrToken, InvalidLink, InvalidToken})
  {
  }

  /** A valid token on an active user is refused like an invalid one. */
  lemma VerifyEmailActiveUserRefused(users: seq<Account>, uid: string, token: string,
                                     decodeUid: string -> Option<nat>, tokenValid: (Account, string) -> bool)
    requires uid != "" && token != ""
    requires UserForUid(users, uid, decodeUid).Some?
    requires users[UserForUid(users, uid, decodeUid).value].isActive
    ensures VerifyEmail(users, Some(uid), Some(token), decodeUid, tokenValid) == (InvalidToken, users)
  {
  }

  /** `ResendVerificationView.post`: the response and the mail sent, if any. */
  function ResendVerification(users: seq<Account>, email: string): (out: (Response, Option<Mail>))
    ensures out.0 == VerificationMaybeSent || out.0 == AlreadyVerified || out.0 == SharedAddress
    ensures out.1.Some? ==>
      exists i :: 0 <= i < |users| && users[i].email == ToLower(email) && !users[i].isActive && out.1.value == VerificationMail(users[i].pk)
  {
    match GetByEmail(users, ToLower(email))
    case DoesNotExist => (VerificationMaybeSent, None)
    case MultipleObjectsReturned => (SharedAddress, None)
    case Found(i) =>
      if users[i].isActive then (AlreadyVerified, None)
      else (VerificationMaybeSent, Some(VerificationMail(users[i].pk)))
  }

  /**
   * The e-mail is matched in lower case; an unknown address gets the same answer as an
   * inactive account, only an inactive account is mailed, and an address two users share
   * ends in a server error with no mail.
   */
  lemma ResendVerificationAnswers(users: seq<Account>, email: string)
    ensures var (resp, mail) := ResendVerification(users, email);
            var found := GetByEmail(users, ToLower(email));
            && (found.DoesNotExist? ==> resp == VerificationMaybeSent && mail.None?)
            && (found.Found? && !users[found.index].isActive ==> resp == VerificationMaybeSent && mail == Some(VerificationMail(users[found.index].pk)))
            && (found.Found? && users[found.index].isActive ==> resp == AlreadyVerified && mail.None?)
            && (found.MultipleObjectsReturned? ==> resp == SharedAddress && mail.None?)
            && ResendVerification(users, ToLower(email)) == (resp, mail)
  {
    ToLowerIdempotent(email);
  }

  /** `RequestPasswordResetView.post`: the response and the mail sent, if any. */
  function RequestPasswordReset(users: seq<Account>, email: string): (out: (Response, Option<Mail>))
    ensures out.0 == ResetMaybeSent || out.0 == SharedAddress
    ensures out.0 == SharedAddress <==> GetByEmail(users, ToLower(email)).MultipleObjectsReturned?
    ensures out.1.Some? <==> GetByEmail(users, ToLower(email)).Found?
  {
    match GetByEmail(users, ToLower(email))
    case DoesNotExist => (ResetMaybeSent, None)
    case MultipleObjectsReturned => (SharedAddress, None)
    case Found(i) => (ResetMaybeSent, Some(ResetMail(users[i].pk)))
  }

  /**
   * The answer to a reset request does not reveal whether an account has the address;
   * only an address that several accounts share answers differently, with a server error.
   */
  lemma RequestPasswordResetNoEnumeration(users: seq<Account>, known: string, unknown: string, shared: string)
    requires GetByEmail(users, ToLower(known)).Found? && GetByEmail(users, ToLower(unknown)).DoesNotExist?
    requires exists i, j :: 0 <= i < j < |users| && users[i].email == ToLower(shared) && users[j].email == ToLower(shared)
    ensures RequestPasswordReset(users, known).0 == RequestPasswordReset(users, unknown).0 == ResetMaybeSent
    ensures RequestPasswordReset(users, known).1 == Some(ResetMail(users[GetByEmail(users, ToLower(known)).index].pk))
    ensures RequestPasswordReset(users, unknown).1.None?
    ensures RequestPasswordReset(users, shared) == (SharedAddress, None)
  {
  }

  /** `PasswordResetConfirmView.post`, with `hash` standing for `set_password`. */
  function ConfirmPasswordReset(users: seq<Account>, uid: string, token: string, newPassword: string,
                                decodeUid: string -> Option<nat>, tokenValid: (Account, string) -> bool,
                                hash: string -> string): (out: (Response, seq<Account>))
    ensures |out.1| == |users|
  {
    match UserForUid(users, uid, decodeUid)
    case None => (InvalidLink, users)
    case Some(i) =>
      if tokenValid(users[i], token) then
        (Response(201, Tokens(users[i].pk)), users[i := users[i].(password := hash(newPassword))])
      else (InvalidToken, users)
  }

  /** The password changes only with a valid token, only for the linked user, and nothing else changes. */
  lemma ConfirmPasswordResetChangesOnlyWithToken(users: seq<Account>, uid: string, token: string, newPassword: string,
                                                 decodeUid: string -> Option<nat>, tokenValid: (Account, string) -> bool,
                                                 hash: string -> string)
    ensures var (resp, after) := ConfirmPasswordReset(users, uid, token, newPassword, decodeUid, tokenValid, hash);
            var i := UserForUid(users, uid, decodeUid);
            && (i.None? ==> resp == InvalidLink && after == users)
            && (i.Some? && !tokenValid(users[i.value], token) ==> resp == InvalidToken && after == users)
            && (i.Some? && tokenValid(users[i.value], token) ==>
                  resp.status == 201 && after[i.value].password == hash(newPassword)
                  && after[i.value].isActive == users[i.value].isActive
                  && forall j :: 0 <= j < |users| && j != i.value ==> after[j] == users[j])
  {
  }

  /** The user table with the mails the views have asked to send. */
  class AccountStore {
    var users: seq<Account>
    var outbox: seq<Mail>

    constructor (users: seq<Account>)
      ensures this.users == users && outbox == []
    {
      this.users := users;
      outbox := [];
    }

    method Verify(uid: Option<string>, token: Option<string>,
                  decodeUid: string -> Option<nat>, tokenValid: (Account, string) -> bool) returns (resp: Response)
      modifies this
      ensures (resp, users) == VerifyEmail(old(users), uid, token, decodeUid, tokenValid)
      ensures outbox == old(outbox)
    {
      if uid.None? || uid.value == "" || token.None? || token.value == "" {
        return MissingUidOrToken;
      }
      var found := UserForUid(users, uid.value, decodeUid);
      if found.None? {
        return InvalidLink;
      }
      var i := found.value;
      if tokenValid(users[i], token.value) {
        if !users[i].isActive {
          users := users[i := users[i].(isActive := true)];
          return Response(201, Tokens(users[i].pk));
        }
      }
      resp := InvalidToken;
    }

    method Resend(email: string) returns (resp: Response)
      modifies this
      ensures users == old(users)
      ensures var (r, mail) := ResendVerification(old(users), email);
              resp == r && outbox == old(outbox) + (if mail.Some? then [mail.value] else [])
    {
      var address := ToLower(email);
      var found := GetByEmail(users, address);
      if found.MultipleObjectsReturned? {
        return SharedAddress;
      }
      if found.Found? {
        var u := users[found.index];
        if u.isActive {
          return AlreadyVerified;
        }
        outbox := outbox + [VerificationMail(u.pk)];
      }
      resp := VerificationMaybeSent;
    }

    method RequestReset(email: string) returns (resp: Response)
      modifies this
      ensures users == old(users)
      ensures var (r, mail) := RequestPasswordReset(old(users), email);
              resp == r && outbox == old(outbox) + (if mail.Some? then [mail.value] else [])
    {
      var found := GetByEmail(users, ToLower(email));
      if found.MultipleObjectsReturned? {
        return SharedAddress;
      }
      if found.Found? {
        outbox := outbox + [ResetMail(users[found.index].pk)];
      }
      resp := ResetMaybeSent;
    }

    method ConfirmReset(uid: string, token: string, newPassword: string,
                        decodeUid: string -> Option<nat>, tokenValid: (Account, string) -> bool,
                        hash: string -> string) returns (resp: Response)
      modifies this
      ensures (resp, users) == ConfirmPasswordReset(old(users), uid, token, newPassword, decodeUid, tokenValid, hash)
      ensures outbox == old(outbox)
    {
      var found := UserForUid(users, uid, decodeUid);
      if found.None? {
        return InvalidLink;
      }
      var i := found.value;
      if tokenValid(users[i], token) {
        users := users[i := users[i].(password := hash(newPassword))];
        return Response(201, Tokens(users[i].pk));
      }
      resp := InvalidToken;
    }
  }
}
