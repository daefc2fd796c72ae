# cvnow — a Dafny model of its core

cvnow hosts online resumes. A visitor signs up with a username, and the
service publishes a tenant site for them at `<subdomain>.<domain>`. The
repository holds three programs, and this project models the logic of each
of them that can be stated precisely:

- **The Django backend** (`django-admin/`).
  - Publishing a tenant hostname through the DNS/tunnel provider: the CNAME
    upsert, the merge of the new rule into the tunnel's ordered ingress rules,
    the Access application, and the three steps in order.
  - Signup, with its guard order and the subdomain it derives.
  - The public and private resume lookup and the private-token state machine.
  - Login and comments.
  - The account e-mail verification and password-reset transitions, and the
    links their e-mails carry.
- **The onboarding and editor front-end** (`tovo-node-16/`).
  - The per-step transforms between a stored resume and the wizard's forms.
  - Normalisation of percentages, dates, arrays and server errors.
  - The validators of the skills, experience and education steps, and the
    expanded-card bookkeeping.
  - The tag editor, and the theme presets with their deep merge.
  - The preset picker, mode switch and colour popover of the theme step.
  - The route guards, and the token and consent stores over browser storage.
  - The translation lookup.
- **The resume site** (`bostami/`).
  - Its own deep merge, in which `undefined` never overwrites.
  - Palette and gradient fallbacks, and light/dark resolution.
  - The backend address helpers.
  - The floating-dot overlay.
  - The two PDF resume templates and their seeded point patterns.
  - Theme and document lookup with fallback, and the "ryancv" page's list
    choices.

JavaScript values are one datatype (`JsValue.Value`: undefined, null,
booleans, numbers as reals, strings, arrays, and objects as ordered key/value
lists), so spreads, `??`, `||` and key order are modelled as the code uses
them. Code that updates state step by step becomes a class with `modifies`
clauses:

- the provider and database of the backend;
- the user table of the account views;
- the form states of the wizard steps;
- the token and consent stores;
- the theme picker and the colour popover;
- the seeded generator and the site state of the resume site.

Each class's methods state their whole new state. The properties that matter
are proved as lemmas about the functions that specify them:

- idempotence of the DNS and tunnel steps of publishing (the Access
  application is created anew on every publish);
- ordering of the guards;
- round trips of the date formats;
- uniqueness and bounds in the tag editor;
- preservation of the one-expanded-card invariant;
- fallbacks that always yield a usable theme.

One module per source file; `Wrappers`, `Text`, `JsValue` and `Numbers` are
shared helpers.

## Model

| member | source | states |
|---|---|---|
| AccountEmails.AbsoluteKeepsAbsolute | django-admin/accounts/emails.py:17-19 | an address that starts with "http://" or "https://" is returned unchanged |
| AccountEmails.Absolute | django-admin/accounts/emails.py:17-21 | an absolute address is kept; any other starts with FRONTEND_URL without its trailing slashes and one "/" |
| AccountEmails.AbsoluteJoinsWithOneSlash | django-admin/accounts/emails.py:20-21 | a relative address is FRONTEND_URL without its trailing slashes, exactly one "/", then the address without its leading slashes |
| AccountEmails.AbsoluteWithoutBase | django-admin/accounts/emails.py:20-21 | with FRONTEND_URL unset ("") a relative address becomes "/" plus the address without its leading slashes |
| AccountEmails.AbsoluteIdempotent | django-admin/accounts/emails.py:17-21 | with an absolute or empty FRONTEND_URL, applying `_absolute` twice gives the same as once |
| AccountEmails.LinksCarryQuery | django-admin/accounts/emails.py:27-32 | both mails link to the configured front-end URL, or else the site's own route, followed by `?uid=…&token=…` |
| AccountEmails.VerificationLink | django-admin/accounts/emails.py:27-32 | the verification link ends in `?uid=…&token=…` and starts with FRONTEND_VERIFY_EMAIL_URL when it is set and non-empty, else with the site origin and the route path |
| AccountEmails.ResetLink | django-admin/accounts/emails.py:62-67 | the reset link ends in `?uid=…&token=…` and starts with FRONTEND_RESET_PASSWORD_URL when it is set and non-empty, else with the site origin and the route path |
| AccountEmails.ActionUrlOfSiteLink | django-admin/accounts/emails.py:62-70 | a link built on the request's absolute origin is used as the action URL unchanged |
| AccountViews.IndexOfPk | django-admin/accounts/views.py:34 | the user found has the primary key asked for; no index means no user has it |
| AccountViews.IndexOfEmail | django-admin/accounts/views.py:59 | the index found is the first user with the address, and no user before it has it; none means no user has it |
| AccountViews.GetByEmail | django-admin/accounts/views.py:59 | `User.objects.get(email=…)`: not found exactly when no user has the address; a user is found only when no other user has it; two users sharing it raise `MultipleObjectsReturned` |
| AccountViews.UserForUid | django-admin/accounts/views.py:32-36 | a uid that does not decode finds no user; a found user has the decoded primary key; none found means no user has it |
| AccountViews.VerifyEmail | django-admin/accounts/views.py:27-51 | verification never adds or removes users |
| AccountViews.VerifyEmailActivatesOnly | django-admin/accounts/views.py:30-51 | the table changes exactly when the answer is 201, and then only by activating an inactive user; every other answer is one of the three 400 errors |
| AccountViews.VerifyEmailActiveUserRefused | django-admin/accounts/views.py:38-51 | a token for an already active user is answered "Invalid or expired token." and changes nothing |
| AccountViews.ResendVerification | django-admin/accounts/views.py:54-65 | the answer is the generic 200, "Account already verified." or the 500 of a shared address; a mail goes only to an inactive user holding the lower-cased address |
| AccountViews.ResendVerificationAnswers | django-admin/accounts/views.py:57-65 | the address is matched in lower case; an unknown address gets the same answer as an inactive account; only an inactive account is mailed; an active one is told it is verified; an address two users share ends in a 500 with no mail |
| AccountViews.RequestPasswordReset | django-admin/accounts/views.py:71-77 | the answer is "If an account exists, a reset email was sent." with status 200, except the 500 exactly when two users share the lower-cased address; a mail is sent exactly when one user has it |
| AccountViews.RequestPasswordResetNoEnumeration | django-admin/accounts/views.py:71-77 | a known and an unknown address get the same 200 answer and only the known one is mailed; an address two users share answers 500 with no mail |
| AccountViews.ConfirmPasswordReset | django-admin/accounts/views.py:83-105 | a reset never adds or removes users |
| AccountViews.ConfirmPasswordResetChangesOnlyWithToken | django-admin/accounts/views.py:89-105 | an unknown uid answers "Invalid link.", a bad token "Invalid or expired token.", both changing nothing; a valid token sets only that user's password and answers 201 |
| AccountViews.AccountStore.constructor | django-admin/accounts/views.py:21 | the store starts with the given users and no mail |
| AccountViews.AccountStore.Verify | django-admin/accounts/views.py:27-51 | the response and the new user table are those of `VerifyEmail`; no mail is sent |
| AccountViews.AccountStore.Resend | django-admin/accounts/views.py:54-65 | the users are unchanged; the response is `ResendVerification`'s and its mail, if any, is appended to the outbox |
| AccountViews.AccountStore.RequestReset | django-admin/accounts/views.py:68-77 | the users are unchanged; the response is `RequestPasswordReset`'s and its mail, if any, is appended to the outbox |
| AccountViews.AccountStore.ConfirmReset | django-admin/accounts/views.py:83-105 | the response and the new user table are those of `ConfirmPasswordReset`; no mail is sent |
| CfPublishing.Send | django-admin/cv_builder/utils.py:38-43 | every request is recorded in order; it succeeds unless the provider rejects it, and a rejected or read-only request changes nothing else (`raise_for_status`) |
| CfPublishing.Hostname | django-admin/cv_builder/utils.py:28-29 | the hostname is the subdomain, one ".", then the configured domain |
| CfPublishing.HostnameInjective | django-admin/cv_builder/utils.py:28-29 | within one domain, distinct subdomains publish distinct hostnames |
| CfPublishing.EnsureDnsCname | django-admin/cv_builder/utils.py:32-62 | the DNS upsert touches neither the tunnel nor the Access applications |
| CfPublishing.EnsureDnsCnameDecision | django-admin/cv_builder/utils.py:38-62 | with no CNAME one create is sent; with one pointing at `<uuid>.cfargotunnel.com` and not unproxied nothing is written; otherwise one update goes to that record's id |
| CfPublishing.EnsureDnsCnameListFailure | django-admin/cv_builder/utils.py:38-43 | a failed listing raises before any write |
| CfPublishing.EnsureDnsCnameEstablishes | django-admin/cv_builder/utils.py:32-62 | after a successful upsert the record exists, points at the tunnel and is proxied |
| CfPublishing.EnsureDnsCnameIdempotent | django-admin/cv_builder/utils.py:32-62 | once the upsert succeeded, running it again only lists and writes nothing |
| CfPublishing.FirstForHost | django-admin/cv_builder/utils.py:86-87 | the index found is the first rule whose hostname is the one asked for; none means no rule has it |
| CfPublishing.FirstCatchAll | django-admin/cv_builder/utils.py:95-98 | the index found is the first rule with neither "hostname" nor "path"; none means there is no such rule |
| CfPublishing.FirstForHostAt | django-admin/cv_builder/utils.py:86-87 | a rule for the hostname with none before it is the one the loop stops at |
| CfPublishing.IngressPatchNoWrite | django-admin/cv_builder/utils.py:86-92 | the function returns without writing exactly when the first rule for the hostname already has the service |
| CfPublishing.IngressPatchUpdate | django-admin/cv_builder/utils.py:86-90 | when the first rule for the hostname has another service, only that rule's service changes |
| CfPublishing.IngressPatchInsert | django-admin/cv_builder/utils.py:93-104 | with no rule for the hostname, the new rule is inserted right before the first catch-all and every other rule keeps its order |
| CfPublishing.IngressPatchAppend | django-admin/cv_builder/utils.py:99-102 | with no rule for the hostname and no catch-all, the new rule and a 404 catch-all are appended, and that catch-all is the only one |
| CfPublishing.IngressPatchRoutes | django-admin/cv_builder/utils.py:85-104 | whenever a write happens, the first rule for the hostname in the written list has the requested service |
| CfPublishing.IngressPatchIdempotent | django-admin/cv_builder/utils.py:85-104 | patching the patched list again writes nothing |
| CfPublishing.PatchIngress | django-admin/cv_builder/utils.py:83-104 | the `for … else` loop reports a write exactly when the patch exists, and returns that patch, or the list unchanged |
| CfPublishing.IngressPatch | django-admin/cv_builder/utils.py:78-104 | no write means a rule for the hostname already exists; a written list keeps every rule except the first one for the hostname (whose service is the one that changes) and adds at most two (the new rule and a 404 catch-all) |
| CfPublishing.AddPublicHostname | django-admin/cv_builder/utils.py:64-113 | adding a hostname touches neither DNS nor the Access applications |
| CfPublishing.AddPublicHostnameToTunnel | django-admin/cv_builder/utils.py:64-113 | the imperative read, patch and write gives the same provider state and result as `AddPublicHostname` |
| CfPublishing.AddPublicHostnameWritesConfig | django-admin/cv_builder/utils.py:72-113 | without a patch only the read is sent; with one a single PUT writes the patched ingress and keeps every other key; a missing configuration counts as an empty rule list |
| CfPublishing.AddPublicHostnameRoutes | django-admin/cv_builder/utils.py:72-113 | after a successful tunnel step the tunnel's first rule for the hostname has the service, whether it was written or already there |
| CfPublishing.CreateAccessAppFor | django-admin/cv_builder/utils.py:115-136 | one create request for a self-hosted, launcher-visible, 24h app named after the hostname, never an existence check; on success the new id is returned and registered |
| CfPublishing.EnsureDnsCnameTrace | django-admin/cv_builder/utils.py:32-62 | the DNS step only appends DNS requests to the trace |
| CfPublishing.AddPublicHostnameTrace | django-admin/cv_builder/utils.py:64-113 | the tunnel step only appends tunnel requests to the trace |
| CfPublishing.PublishRouteOrder | django-admin/cv_builder/utils.py:139-149 | the pipeline's requests come in the order DNS, tunnel, Access; a failed DNS step sends no later request and a failed tunnel step no Access request |
| CfPublishing.PublishRoute | django-admin/cv_builder/utils.py:139-149 | a successful pipeline returns the published hostname; a failed DNS step makes the whole pipeline fail |
| CfPublishing.PublishDefaultRoute | django-admin/cv_builder/utils.py:139-149 | called without a service URL, a successful pipeline routes the hostname to "http://localhost:3001" |
| CfPublishing.PublishRouteResult | django-admin/cv_builder/utils.py:139-149 | a successful pipeline returns the hostname, leaves its CNAME pointing at the tunnel, routes the hostname through the tunnel's first rule for it to the service, and registers its Access app under the returned id |
| CvModels.CreateTokenState | django-admin/cv_builder/models.py:82-95 | `create_token` keeps a present token together with its creation time and lifetime, and never changes whether the resume is private |
| CvModels.ExpiryIsStrict | django-admin/cv_builder/models.py:97-98 | a token is still valid at exactly creation plus lifetime and expired one second later |
| CvModels.ExpiryMonotone | django-admin/cv_builder/models.py:97-98 | a token expired at some instant stays expired at every later instant |
| CvModels.CreateTokenPublicUnchanged | django-admin/cv_builder/models.py:82-83 | `create_token` never touches a public resume |
| CvModels.CreateTokenKeepsValidToken | django-admin/cv_builder/models.py:84 | a present, unexpired token keeps its value, creation time and lifetime |
| CvModels.CreateTokenRegenerates | django-admin/cv_builder/models.py:84-89 | a missing or expired token on a private resume is replaced and stamped now; the lifetime becomes one day only when none (or a zero one) is set |
| CvModels.CreateTokenYieldsUsableToken | django-admin/cv_builder/models.py:82-98 | right after `create_token` a private resume holds a present, unexpired token, unless a negative lifetime was stored |
| CvModels.CreateTokenIdempotent | django-admin/cv_builder/models.py:82-98 | at one instant a second `create_token` changes nothing |
| CvModels.Resume.constructor | django-admin/cv_builder/models.py:54-57 | a new resume is public and has no token, creation time or lifetime |
| CvModels.Resume.CreateToken | django-admin/cv_builder/models.py:82-95 | the token columns become `CreateTokenState` of the old ones; the row is saved once exactly when `update` is set and a token was generated |
| CvModels.Resume.PrivateUrl | django-admin/cv_builder/models.py:75-80 | a missing or expired token is refreshed first; the link is `https://<subdomain>.<domain>?token=<token>` with the token then stored |
| CvModels.PrivateUrlCarriesValidToken | django-admin/cv_builder/models.py:75-98 | for a private resume the link always carries a present token valid at that instant |
| CvModels.PrivateUrlOfPublicWithoutToken | django-admin/cv_builder/models.py:75-80 | a public resume without a token gets a link ending in "?token=None", since `create_token` does nothing for it |
| CvModels.EducationDateLabelStartsWithStart | django-admin/cv_builder/models.py:139-149 | the education date text always starts with the formatted start date |
| CvModels.EducationDateLabelBare | django-admin/cv_builder/models.py:144-149 | the text is the bare start date exactly when an end date falls in the start's year and month |
| CvModels.EducationDateLabelOpen | django-admin/cv_builder/models.py:141-149 | without an end date the text is "<start> - Present"; an end date in the same month gives the bare start whatever its day |
| CvModels.UserName | django-admin/cv_builder/models.py:19-21 | the name is the first name, one space, then the last name |
| CvViews.SubdomainName | django-admin/cv_builder/views.py:85 | the derived subdomain has one character for each name character plus the "_" separator |
| CvViews.NamePart | django-admin/cv_builder/views.py:85 | each name keeps its length; every character is lower-cased and a space becomes "_" |
| CvViews.SubdomainNameShape | django-admin/cv_builder/views.py:85 | a derived subdomain has no space and no upper-case letter, and keeps "_" between the two names |
| CvViews.SubdomainNameCollision | django-admin/cv_builder/views.py:85-88 | for first names of the same length, two signups claim the same subdomain exactly when both names agree once spaces are "_" and letters lower case, so the second such signup is refused |
| CvViews.SpaceMovesBetweenNames | django-admin/cv_builder/views.py:85-88 | a space may move from the end of the first name to the start of the last name (or back) without changing the subdomain, so "a" / "b c" and "a b" / "c" collide |
| CvViews.SignupGuard | django-admin/cv_builder/views.py:82-88 | the taken-username error comes exactly when the username exists; "Something bad happened subdomain name" exactly when the username is free and the derived subdomain is taken; no error exactly when neither is taken |
| CvViews.SiteData | django-admin/cv_builder/views.py:19-38 | the lookup never adds or removes resume rows |
| CvViews.FirstResume | django-admin/cv_builder/views.py:22-26 | the row found is the first with the subdomain and the requested privacy; none means no row has both |
| CvViews.SiteDataServesOnlyMatching | django-admin/cv_builder/views.py:19-38 | served data belongs to the requested subdomain; with a token it is a private resume holding exactly that token, unexpired; without one it is a public resume |
| CvViews.SiteDataRefreshesExpired | django-admin/cv_builder/views.py:33-36 | rows change only when a private resume's matching token has expired: that row's token is regenerated and the answer is still 404 |
| CvViews.SiteDataPublicReadOnly | django-admin/cv_builder/views.py:19-31 | a request without a token never changes any row |
| CvViews.CreateCommentAsWrittenNever404 | django-admin/cv_builder/views.py:41-51 | as written the 404 branch is unreachable: an unknown subdomain ends in a server error |
| CvViews.CreateCommentUnknownIs404 | django-admin/cv_builder/views.py:41-51 | as intended, the answer is 404 exactly when no resume has the subdomain, and never a server error |
| CvViews.CreateCommentAsWritten | django-admin/cv_builder/views.py:41-51 | as written the answer is never 404, and a comment is saved only when the form is valid |
| CvViews.CreateComment | django-admin/cv_builder/views.py:41-51 | as intended, never a server error; a comment is saved only when the form is valid and a resume has the subdomain |
| CvViews.LoginError | django-admin/cv_builder/views.py:56-62 | every login failure carries the message "Invalid credential" |
| CvViews.FirstUser | django-admin/cv_builder/views.py:59 | the user found has the username; none means no user has it |
| CvViews.LoginErrorIndistinguishable | django-admin/cv_builder/views.py:59-62 | login succeeds exactly for the first user with the username whose password checks; a missing user and a wrong password fail alike |
| CvViews.FirstUserIsFirst | django-admin/cv_builder/views.py:59 | no user before the one found has the username |
| CvViews.Database.constructor | django-admin/cv_builder/views.py:15 | the tables start empty and no DNS request has been sent |
| CvViews.Database.GetSiteData | django-admin/cv_builder/views.py:19-38 | the response and the new resume table are those of `SiteData`; users and DNS requests are unchanged |
| CvViews.Database.Signup | django-admin/cv_builder/views.py:74-112 | as intended, with the default-data seeding left out: a guard error changes nothing; otherwise one proxied A record for `<subdomain>.<domain>` pointing at 164.92.200.190 is requested; a refused request adds nothing; an accepted one adds a staff user, the public resume and its private copy with a fresh one-day token, and returns the public id |
| CvViews.Database.SignupAsWritten | django-admin/cv_builder/views.py:101-137 | as written, every signup fails: guard and DNS failures as in `Signup`; after an accepted DNS request the user and the public resume are added, then seeding raises a TypeError and no private copy is made |
| CvViews.Database.CreateAccount | django-admin/cv_builder/views.py:101-104 | a successful signup adds exactly one staff user with the derived subdomain, a public resume under the next id and its private copy under the id after it, carrying a fresh one-day token; the DNS log is untouched |
| CvViews.CreatePrivateResume | django-admin/cv_builder/views.py:129-133 | the copy gets the new id, keeps the subdomain, is private, and a resume without a token gets a new one stamped now |
| OnboardingPage.StepOf | tovo-node-16/src/pages/OnboardingResumePage.jsx:97-282 | among the table's own keys, a key has a step configuration exactly when it is one of the six keys of the step sequence |
| OnboardingPage.InheritedNamesAreNoSteps | tovo-node-16/src/pages/OnboardingResumePage.jsx:355-356 | a key named after an inherited object member (such as "constructor") is none of the six configurations |
| OnboardingPage.KeyOf | tovo-node-16/src/pages/OnboardingResumePage.jsx:97-282 | every configuration's `key` is in the sequence and names that same configuration |
| OnboardingPage.StepSequenceKeys | tovo-node-16/src/pages/OnboardingResumePage.jsx:25 | every key of the sequence names its own configuration, and no key appears twice |
| OnboardingPage.OrDefault | tovo-node-16/src/pages/OnboardingResumePage.jsx:105-128 | `value || fallback`: a truthy field is kept, any other becomes the fallback string |
| OnboardingPage.StrValues | tovo-node-16/src/pages/OnboardingResumePage.jsx:64-72 | a list of keywords as string values, one for one |
| OnboardingPage.KnowledgeFormEntries | tovo-node-16/src/pages/OnboardingResumePage.jsx:69-71 | one `{ value }` row per knowledge entry, in order |
| OnboardingPage.MapKnowledgeToForm | tovo-node-16/src/pages/OnboardingResumePage.jsx:64-72 | the form always has a row; an empty or missing list gives one empty row; otherwise one row per entry |
| OnboardingPage.PayloadValue | tovo-node-16/src/pages/OnboardingResumePage.jsx:76 | a row's value after trimming is empty or a keyword (non-empty, no surrounding blanks); a truthy non-string throws |
| OnboardingPage.PayloadValues | tovo-node-16/src/pages/OnboardingResumePage.jsx:75-77 | the rows' trimmed values with blanks dropped: never more than the rows, all keywords |
| OnboardingPage.Prepend | tovo-node-16/src/pages/OnboardingResumePage.jsx:75-77 | one row's keyword goes in front of the others' unless it is blank; an error in either is an error |
| OnboardingPage.MapKnowledgeToPayload | tovo-node-16/src/pages/OnboardingResumePage.jsx:74-77 | the default `[]` covers only `undefined`; any other non-array throws; what is sent is keywords only |
| OnboardingPage.TrimKeyword | tovo-node-16/src/pages/OnboardingResumePage.jsx:76 | trimming a keyword changes nothing |
| OnboardingPage.PayloadValueOfKeyword | tovo-node-16/src/pages/OnboardingResumePage.jsx:76 | a row holding a keyword is sent as that keyword |
| OnboardingPage.PayloadValuesOfKeywords | tovo-node-16/src/pages/OnboardingResumePage.jsx:74-77 | rows whose values are already keywords are sent as they are, in order |
| OnboardingPage.KnowledgeRoundTrip | tovo-node-16/src/pages/OnboardingResumePage.jsx:64-77 | keywords loaded into the form and sent back come out unchanged; an empty list's single empty row is dropped again |
| OnboardingPage.PayloadValuesOfAppend | tovo-node-16/src/pages/OnboardingResumePage.jsx:75-77 | the payload of a non-empty list is its first row's keyword in front of the rest's |
| OnboardingPage.PrependAppend | tovo-node-16/src/pages/OnboardingResumePage.jsx:75-77 | putting a keyword in front commutes with appending more keywords |
| OnboardingPage.PayloadValuesAppend | tovo-node-16/src/pages/OnboardingResumePage.jsx:75-77 | sending rows one after another keeps their keywords in order |
| OnboardingPage.CleanRows | tovo-node-16/src/pages/OnboardingResumePage.jsx:80-91 | never more rows than items, and every row kept has content |
| OnboardingPage.CleanRowsFromItems | tovo-node-16/src/pages/OnboardingResumePage.jsx:80-91 | every kept row is the factory defaults overlaid with some item |
| OnboardingPage.CleanArrayPayload | tovo-node-16/src/pages/OnboardingResumePage.jsx:79-91 | a falsy list gives `[]`; an array gives its rows laid over the defaults with contentless rows dropped; a truthy non-array throws |
| OnboardingPage.CleanRowsKeepsContent | tovo-node-16/src/pages/OnboardingResumePage.jsx:85-91 | when every row has content, all rows are kept, in order |
| OnboardingPage.LookupHasEntry | tovo-node-16/src/pages/OnboardingResumePage.jsx:86 | a present key's value is one of the object's entries, so `Object.values` sees it |
| OnboardingPage.RowKeepsFactoryField | tovo-node-16/src/pages/OnboardingResumePage.jsx:81-91 | a row with a factory field that is neither blank nor nullish, and that its item does not override, has content |
| OnboardingPage.EmptyExperienceCurrent | tovo-node-16/src/pages/OnboardingResumePage.jsx:27-36 | the empty experience has `current: false` |
| OnboardingPage.EmptyExperienceRowsKept | tovo-node-16/src/pages/OnboardingResumePage.jsx:27-36 | because of `current: false`, every experience row whose item does not unset `current` is kept, however empty |
| OnboardingPage.EmptySkillRowsKept | tovo-node-16/src/pages/OnboardingResumePage.jsx:52-56 | because of `percentage: 60`, every skill row whose item does not unset `percentage` is kept |
| OnboardingPage.EmptyServiceRowDropped | tovo-node-16/src/pages/OnboardingResumePage.jsx:37-40 | example: a services list holding one row with no fields cleans to an empty list |
| OnboardingPage.ProfileFields | tovo-node-16/src/pages/OnboardingResumePage.jsx:121-134 | the base profile payload has no `avatar_upload` |
| OnboardingPage.ProfilePayload | tovo-node-16/src/pages/OnboardingResumePage.jsx:121-136 | the profile payload is an object |
| OnboardingPage.ProfilePayloadAvatar | tovo-node-16/src/pages/OnboardingResumePage.jsx:135 | the new picture is sent exactly when one was chosen |
| OnboardingPage.ExperiencePayloadItem | tovo-node-16/src/pages/OnboardingResumePage.jsx:159-168 | `current` is sent as a boolean; the end date is null exactly for a current job; the start date is the ISO form of the month |
| OnboardingPage.ExperiencePayload | tovo-node-16/src/pages/OnboardingResumePage.jsx:157-171 | the payload, when the lists can be read, is an object |
| OnboardingPage.ExperiencePayloadCurrent | tovo-node-16/src/pages/OnboardingResumePage.jsx:158-169 | every experience entry sent has a null end date exactly when it is marked current |
| OnboardingPage.EducationPayloadItem | tovo-node-16/src/pages/OnboardingResumePage.jsx:193-203 | `notes` and `description` carry the same text, `notes ?? description ?? ""`; the end date is the ISO form of the month |
| OnboardingPage.EducationPayload | tovo-node-16/src/pages/OnboardingResumePage.jsx:191-205 | the payload, when the list can be read, is an object |
| OnboardingPage.SkillPayloadItem | tovo-node-16/src/pages/OnboardingResumePage.jsx:235-238 | a skill's percentage is sent as a number in [0, 100] |
| OnboardingPage.LanguagePayloadItem | tovo-node-16/src/pages/OnboardingResumePage.jsx:241-245 | a language's percentage is in [0, 100] and its level is set, "Intermediate" by default |
| OnboardingPage.SkillsPayload | tovo-node-16/src/pages/OnboardingResumePage.jsx:231-247 | the payload, when the lists can be read, is an object |
| OnboardingPage.SkillsPayloadSkillPercentages | tovo-node-16/src/pages/OnboardingResumePage.jsx:232-238 | every skill percentage sent is a number in [0, 100] |
| OnboardingPage.SkillsPayloadLanguages | tovo-node-16/src/pages/OnboardingResumePage.jsx:240-246 | every language percentage sent is in [0, 100] and every language has a level |
| OnboardingPage.ThemePayload | tovo-node-16/src/pages/OnboardingResumePage.jsx:259-269 | the theme payload is an object holding only the normalised `config` |
| OnboardingPage.ThemePayloadTheme | tovo-node-16/src/pages/OnboardingResumePage.jsx:259-269 | the theme sent has a "light" or "dark" mode and a non-empty id |
| OnboardingPage.Transform | tovo-node-16/src/pages/OnboardingResumePage.jsx:121-280 | every step's payload is an object; the profile, theme and logout transforms never throw |
| OnboardingPage.ProfileDraft | tovo-node-16/src/pages/OnboardingResumePage.jsx:104-120 | the profile draft is an object that starts with the subdomain |
| OnboardingPage.ExperienceDraftItem | tovo-node-16/src/pages/OnboardingResumePage.jsx:146-154 | the form edits month values of the stored dates and a boolean `current` |
| OnboardingPage.ExperienceDraft | tovo-node-16/src/pages/OnboardingResumePage.jsx:144-156 | the experience draft is an object that starts with the subdomain |
| OnboardingPage.EducationDraftItem | tovo-node-16/src/pages/OnboardingResumePage.jsx:181-189 | an education entry as the form edits it is an object |
| OnboardingPage.EducationDraft | tovo-node-16/src/pages/OnboardingResumePage.jsx:179-190 | the education draft is an object that starts with the subdomain |
| OnboardingPage.SkillDraftItem | tovo-node-16/src/pages/OnboardingResumePage.jsx:218-221 | a skill as the form edits it is an object |
| OnboardingPage.LanguageDraftItem | tovo-node-16/src/pages/OnboardingResumePage.jsx:223-229 | a language as the form edits it is an object |
| OnboardingPage.SkillsDraft | tovo-node-16/src/pages/OnboardingResumePage.jsx:213-230 | the skills draft is an object that starts with the subdomain |
| OnboardingPage.ThemeDraft | tovo-node-16/src/pages/OnboardingResumePage.jsx:255-258 | the theme draft is the normalised theme settings with the subdomain laid over them |
| OnboardingPage.Extract | tovo-node-16/src/pages/OnboardingResumePage.jsx:104-279 | every step's draft is an object carrying the resume's subdomain |
| OnboardingPage.ExperienceDateRoundTrip | tovo-node-16/src/pages/OnboardingResumePage.jsx:150-164 | a stored ISO start date goes through the form as its month and is sent back as the first of that month |
| OnboardingPage.ExperienceCurrentRoundTrip | tovo-node-16/src/pages/OnboardingResumePage.jsx:152-165 | a job stored as current is sent back with a null end date |
| OnboardingPage.BuildDraftsFromResume | tovo-node-16/src/pages/OnboardingResumePage.jsx:284-293 | the drafts hold one entry per step of the sequence, in order, each the step's extract of the resume |
| OnboardingPage.PutEach | tovo-node-16/src/pages/OnboardingResumePage.jsx:284-293 | writing distinct keys one after the other gives an object whose keys are exactly those keys, in order, each holding its own value |
| OnboardingPage.ActiveStepDefaults | tovo-node-16/src/pages/OnboardingResumePage.jsx:402-422 | an unknown step shows nothing; a truthy stored draft wins; otherwise the extract of the loaded resume, or nothing |
| OnboardingPage.ActiveStepDefaultsOfFreshDrafts | tovo-node-16/src/pages/OnboardingResumePage.jsx:411-422 | with drafts freshly built from a resume, every step shows that resume's extract, whether the resume is loaded or not |
| OnboardingPage.ErrorMessage | tovo-node-16/src/pages/OnboardingResumePage.jsx:326-330 | the message is always truthy: `detail` first, the fallback only when detail, message and the error's own message are all falsy |
| OnboardingPage.NormalizeResume | tovo-node-16/src/pages/OnboardingResumePage.jsx:312-313 | the resume kept is `mergeResumeDefaults(data)`, and the drafts are built from it |
| OnboardingPage.OnboardingState.constructor | tovo-node-16/src/pages/OnboardingResumePage.jsx:296-302 | the page starts loading, with no error, no resume, the first step, no drafts and nothing sent |
| OnboardingPage.OnboardingState.ApplyLoaded | tovo-node-16/src/pages/OnboardingResumePage.jsx:314-320 | the loaded resume and its drafts are stored; the step is kept only when it is a known step |
| OnboardingPage.OnboardingState.LoadCurrentResume | tovo-node-16/src/pages/OnboardingResumePage.jsx:304-340 | on success the normalised resume and its drafts are stored and returned; on failure the error message is stored and returned and nothing else changes; the loader is hidden only when it was shown |
| OnboardingPage.OnboardingState.ChangeDraft | tovo-node-16/src/pages/OnboardingResumePage.jsx:346-351 | only the given step's draft changes, to the given values |
| OnboardingPage.OnboardingState.HandleStepSubmit | tovo-node-16/src/pages/OnboardingResumePage.jsx:353-400 | a key that is neither a step nor an inherited member name changes nothing; an inherited member name such as "constructor" passes the guard and fails like a throwing transform, reporting the thrown message; otherwise the payload is sent once; success exactly when the transform, the PATCH and the reload all succeed, and the drafts are then rebuilt; a field-error object leaves the page's error empty |
| OnboardingPage.OnboardingState.SendStep | tovo-node-16/src/pages/OnboardingResumePage.jsx:362-400 | the payload is sent once when the transform succeeds; a throwing transform reports the thrown error's own message (the fallback when it is empty) and keeps drafts and resume; a failed PATCH keeps drafts and resume and reports the message, leaving the page's error empty only for a field-error object; success exactly when PATCH and reload both succeed |
| OnboardingPage.OnboardingState.SaveDraftAndReload | tovo-node-16/src/pages/OnboardingResumePage.jsx:369-381 | the step's draft is recorded and the resume reloaded without the loader; a failed reload becomes the page's error and the result's message |
| StepUtils.Strings | tovo-node-16/src/components/onboarding/stepUtils.js:10-13 | the texts of a list of string values, one for one |
| StepUtils.AssignError | tovo-node-16/src/components/onboarding/stepUtils.js:6-36 | an empty path reports nothing, and every reported path extends the path it started from |
| StepUtils.AssignItems | tovo-node-16/src/components/onboarding/stepUtils.js:16-18 | every error of an array item is reported under `path.index` |
| StepUtils.AssignFields | tovo-node-16/src/components/onboarding/stepUtils.js:23-27 | every error of a nested object is reported under `path.key` |
| StepUtils.Entries | tovo-node-16/src/components/onboarding/stepUtils.js:38 | `Object.entries` gives an object's own entries, an array's indices one per item, and nothing for anything else |
| StepUtils.ApplyServerErrors | tovo-node-16/src/components/onboarding/stepUtils.js:1-41 | a falsy or non-object argument makes no `setError` call; every call is on a non-empty path starting with one of the top-level keys |
| StepUtils.ApplyServerErrorsIgnoresNonObjects | tovo-node-16/src/components/onboarding/stepUtils.js:1-4 | strings, numbers, booleans, `null` and `undefined` at the top level report nothing |
| StepUtils.AssignEntriesPaths | tovo-node-16/src/components/onboarding/stepUtils.js:38-40 | every reported path is non-empty and starts with one of the top-level keys |
| StepUtils.AssignErrorSilent | tovo-node-16/src/components/onboarding/stepUtils.js:7-35 | an empty key, a falsy value or an empty array reports nothing |
| StepUtils.AssignErrorJoinsMessages | tovo-node-16/src/components/onboarding/stepUtils.js:10-14 | a list of messages for one field becomes a single report with the messages joined by spaces |
| StepUtils.AssignErrorNested | tovo-node-16/src/components/onboarding/stepUtils.js:23-34 | a nested message is reported once, under "field.key" |
| StepUtils.SanitizeArrayInput | tovo-node-16/src/components/onboarding/stepUtils.js:43-51 | a non-array or empty array gives one fresh default object; otherwise one object per item, in order |
| StepUtils.SanitizeArrayInputFields | tovo-node-16/src/components/onboarding/stepUtils.js:47-50 | each sanitised item keeps its own fields and takes every missing field from the defaults |
| StepUtils.SanitizeArrayInputNullItem | tovo-node-16/src/components/onboarding/stepUtils.js:49 | a missing or null item becomes a copy of the defaults |
| StepUtils.DigitRun | tovo-node-16/src/components/onboarding/stepUtils.js:53 | the leading run of digits is all digits and is followed by a non-digit or the end |
| StepUtils.UnsignedDecimal | tovo-node-16/src/components/onboarding/stepUtils.js:56 | an unsigned decimal denotes a non-negative number |
| StepUtils.StringToNumber | tovo-node-16/src/components/onboarding/stepUtils.js:56 | `Number(s)` on a string: a blank string is 0 (the rest of the grammar — trimming, 0x/0o/0b literals, signed decimals with exponents, ±Infinity, NaN for anything else — is pinned down by the lemmas below) |
| StepUtils.ToNumber | tovo-node-16/src/components/onboarding/stepUtils.js:56-57 | `Number(v)`: a number is itself, `true`/`false` are 1/0, `undefined` is NaN while `null` is a number, a string is read by `StringToNumber`, and an object is NaN |
| StepUtils.NonDecimalInteger | tovo-node-16/src/components/onboarding/stepUtils.js:56 | a literal read in base 16, 8 or 2 is more than two characters and starts with "0" and the base letter |
| StepUtils.StringToNumberUnsigned | tovo-node-16/src/components/onboarding/stepUtils.js:56 | a trimmed string starting with a digit and not a radix literal is the unsigned decimal it spells, or NaN when it is not one |
| StepUtils.DigitsAreNumber | tovo-node-16/src/components/onboarding/stepUtils.js:56 | a run of digits is the whole number it spells |
| StepUtils.ExponentLiteral | tovo-node-16/src/components/onboarding/stepUtils.js:56 | a decimal with an exponent is scaled by ten to that power, so "1e2" is 100 |
| StepUtils.FirstNumericMatch | tovo-node-16/src/components/onboarding/stepUtils.js:53-59 | a match of the numeric pattern is a non-empty piece of the string |
| StepUtils.MatchAt | tovo-node-16/src/components/onboarding/stepUtils.js:53 | a match found at the start of a string is a non-empty prefix of it |
| StepUtils.Round | tovo-node-16/src/components/onboarding/stepUtils.js:61-69 | `Math.round` lands within one half of its argument, halves rounding up |
| StepUtils.Clamp | tovo-node-16/src/components/onboarding/stepUtils.js:61-69 | the result lies in [0, 100] and a value already there is kept |
| StepUtils.ClampNumeric | tovo-node-16/src/components/onboarding/stepUtils.js:69 | the result lies in [0, 100]: a value in range is rounded, below 0 gives 0, at or above 100 gives 100, and the infinities give the nearer bound |
| StepUtils.ClampPercentage | tovo-node-16/src/components/onboarding/stepUtils.js:55-70 | the percentage is always an integer in [0, 100]; whenever `Number(value)` is a number — an exponent form, a 0x/0o/0b literal or ±Infinity included — it is that number rounded and clamped |
| StepUtils.ClampPercentageOfNumber | tovo-node-16/src/components/onboarding/stepUtils.js:69 | a number is rounded, then clamped to 0 below and 100 above |
| StepUtils.ClampPercentageFallsBack | tovo-node-16/src/components/onboarding/stepUtils.js:57-62 | a value that `Number` reads as NaN and, for a string, holds no number either takes the rounded, clamped fallback; exponents, radix literals and "Infinity" are numbers and never fall back |
| StepUtils.ClampPercentageOfMatch | tovo-node-16/src/components/onboarding/stepUtils.js:55-70 | a string that `Number` reads as NaN as a whole is read through the first number written in it, then rounded and clamped |
| StepUtils.DigitsWithSuffix | tovo-node-16/src/components/onboarding/stepUtils.js:53-59 | digits followed by a unit such as "%" are NaN as a whole, and the numeric pattern finds exactly the digits |
| StepUtils.ClampPercentageOfUnit | tovo-node-16/src/components/onboarding/stepUtils.js:55-70 | digits followed by a unit such as "%" give the whole number they spell, clamped |
| StepUtils.ClampPercentageOfInfinity | tovo-node-16/src/components/onboarding/stepUtils.js:56-69 | "Infinity", "+Infinity" and "-Infinity" are numbers, giving 100, 100 and 0, never the fallback |
| StepUtils.ClampPercentageOfRadix | tovo-node-16/src/components/onboarding/stepUtils.js:56-69 | a hexadecimal, octal or binary literal gives the integer it denotes, clamped |
| StepUtils.NormalizePercentage | tovo-node-16/src/components/onboarding/stepUtils.js:72-77 | the result is in [0, 100]; a nullish or empty value takes the fallback; anything else is clamped |
| StepUtils.NormalizePercentageIdempotent | tovo-node-16/src/components/onboarding/stepUtils.js:72-77 | normalising an already normalised percentage changes nothing |
| StepUtils.DateArg | tovo-node-16/src/components/onboarding/stepUtils.js:84-87 | the date helpers read a string as itself and any other value as empty |
| StepUtils.FormatDateToIso | tovo-node-16/src/components/onboarding/stepUtils.js:84-107 | empty gives ""; an ISO date is kept; a month becomes its first day; anything else is the parsed date as YYYY-MM-DD, or kept when it does not parse |
| StepUtils.ToMonthInputValue | tovo-node-16/src/components/onboarding/stepUtils.js:109-131 | empty gives ""; a month is kept; an ISO date becomes its month; anything else is the parsed date's YYYY-MM, or kept when it does not parse |
| StepUtils.MonthRoundTrip | tovo-node-16/src/components/onboarding/stepUtils.js:84-131 | a month sent to the API as its first day comes back as the same month |
| StepUtils.IsoDateThroughMonthInput | tovo-node-16/src/components/onboarding/stepUtils.js:84-131 | an API date shown in a month input and sent back keeps its year and month, on the first day |
| StepUtils.DateNormalisationIdempotent | tovo-node-16/src/components/onboarding/stepUtils.js:84-131 | both date normalisations are idempotent |
| SkillsStep.ErrorPath | tovo-node-16/src/components/onboarding/SkillsStep.jsx:456-494 | an error's path starts with its list's name and a "." |
| SkillsStep.TokenError | tovo-node-16/src/components/onboarding/SkillsStep.jsx:452-498 | an entry gets no message exactly when it is skipped or is the first occurrence of its name; blank entries and repeats are flagged |
| SkillsStep.TokenErrorsFlag | tovo-node-16/src/components/onboarding/SkillsStep.jsx:452-498 | an entry is reported, at its own path, exactly when it has a message |
| SkillsStep.TokenErrorsOrdered | tovo-node-16/src/components/onboarding/SkillsStep.jsx:452-498 | errors come in strictly increasing index order, so each entry is reported at most once |
| SkillsStep.TokenErrors | tovo-node-16/src/components/onboarding/SkillsStep.jsx:452-498 | every error of the first n entries names the checked list and field and an index below n |
| SkillsStep.FlagTokens | tovo-node-16/src/components/onboarding/SkillsStep.jsx:486-499 | the `forEach` with its set of names seen so far reports exactly the specified errors |
| SkillsStep.TitleToken | tovo-node-16/src/components/onboarding/SkillsStep.jsx:453-454 | a title is never blank; it is compared by name exactly when it is a non-empty string |
| SkillsStep.TitleTokens | tovo-node-16/src/components/onboarding/SkillsStep.jsx:452-461 | one token per entry, in order |
| SkillsStep.KeywordToken | tovo-node-16/src/components/onboarding/SkillsStep.jsx:489-491 | a keyword is skipped exactly when its value is not a non-empty string, and flagged blank exactly when it is a non-empty string of blanks |
| SkillsStep.KeywordTokens | tovo-node-16/src/components/onboarding/SkillsStep.jsx:488-499 | one token per keyword row, in order |
| SkillsStep.ValidateUniqueTitles | tovo-node-16/src/components/onboarding/SkillsStep.jsx:448-482 | the skill and language checks report exactly the repeated names, each at its title path |
| SkillsStep.ValidateKnowledgeTokens | tovo-node-16/src/components/onboarding/SkillsStep.jsx:484-502 | the keyword check reports blank keywords as empty and repeated ones as not unique |
| SkillsStep.FormErrors | tovo-node-16/src/components/onboarding/SkillsStep.jsx:504-526 | every error of the form is a skill or language title, or a keyword value, at an index inside its own list |
| SkillsStep.TitleErrorsAreRepeats | tovo-node-16/src/components/onboarding/SkillsStep.jsx:452-461 | a skill or language name of spaces is a name like any other: only repeats are reported |
| SkillsStep.ValidateForm | tovo-node-16/src/components/onboarding/SkillsStep.jsx:504-524 | the form check collects the skill, language and keyword errors |
| SkillsStep.TokenErrorsEmpty | tovo-node-16/src/components/onboarding/SkillsStep.jsx:452-498 | a list passes exactly when no entry is blank and none repeats an earlier name |
| SkillsStep.FormErrorsEmpty | tovo-node-16/src/components/onboarding/SkillsStep.jsx:504-524 | the form passes exactly when no skill or language repeats an earlier name and no keyword is blank or repeated |
| SkillsStep.TitleErrorsEmpty | tovo-node-16/src/components/onboarding/SkillsStep.jsx:448-482 | the skill or language list passes exactly when no name repeats |
| SkillsStep.KeywordErrorsEmpty | tovo-node-16/src/components/onboarding/SkillsStep.jsx:484-502 | the keywords pass exactly when none is blank and none repeats |
| SkillsStep.SubmitForm | tovo-node-16/src/components/onboarding/SkillsStep.jsx:386-401 | `onNext` is called exactly when the form has no errors; otherwise every error is reported and nothing is sent |
| SkillsStep.MoveIsPermutation | tovo-node-16/src/components/onboarding/SkillsStep.jsx:331-333 | a move keeps every item, puts the moved one at the destination and keeps the others in order |
| SkillsStep.RemoveAt | tovo-node-16/src/components/onboarding/SkillsStep.jsx:314-319 | removing index i drops exactly that entry; an index past the end removes nothing |
| SkillsStep.SkillsForm.constructor | tovo-node-16/src/components/onboarding/SkillsStep.jsx:355-370 | the form starts with the given lists and the dialog closed |
| SkillsStep.SkillsForm.AskDelete | tovo-node-16/src/components/onboarding/SkillsStep.jsx:293-311 | asking to delete opens the dialog for that entry and changes no list |
| SkillsStep.SkillsForm.ConfirmDelete | tovo-node-16/src/components/onboarding/SkillsStep.jsx:314-321 | confirming removes only the asked-for entry of the named list, then closes the dialog |
| SkillsStep.SkillsForm.HandleDragEnd | tovo-node-16/src/components/onboarding/SkillsStep.jsx:324-353 | a drop within the list it started from writes the moved order back field by field; any other drop changes nothing |
| SkillsStep.SkillsForm.WriteBackSkills | tovo-node-16/src/components/onboarding/SkillsStep.jsx:336-339 | row i of the skills list afterwards is its old row with the written keys taken from the i-th moved item; the list keeps its length and the languages are untouched |
| SkillsStep.SkillsForm.WriteBackLanguages | tovo-node-16/src/components/onboarding/SkillsStep.jsx:346-350 | row i of the languages list afterwards is its old row with the written keys taken from the i-th moved item; the list keeps its length and the skills are untouched |
| SkillsStep.WriteBack | tovo-node-16/src/components/onboarding/SkillsStep.jsx:336-351 | `setValue` changes only the written keys of a row, to the moved item's values |
| SkillsStep.Titles | tovo-node-16/src/components/onboarding/SkillsStep.jsx:336-338 | the title of every row, in order |
| SkillsStep.DragMovesTitles | tovo-node-16/src/components/onboarding/SkillsStep.jsx:329-351 | after a drop within a list, its titles are the old titles in the moved order |
| SkillsStep.DragKeepsTitles | tovo-node-16/src/components/onboarding/SkillsStep.jsx:329-351 | the dragged title lands at the destination, and no title is lost or added |
| SkillsStep.MovedTitles | tovo-node-16/src/components/onboarding/SkillsStep.jsx:341-349 | rows whose titles match the moved rows one by one have exactly the moved titles |
| SkillsStep.Move | tovo-node-16/src/components/onboarding/SkillsStep.jsx:331-333 | the moved list keeps its length and holds the moved item at the destination |
| SkillsStep.MoveAt | tovo-node-16/src/components/onboarding/SkillsStep.jsx:332-333 | where each position of a moved list comes from |
| EntryChecks.EarlierIsStrictTotalOrder | tovo-node-16/src/components/onboarding/ExperienceStep.jsx:298 | comparing two valid dates is a strict total order |
| EntryChecks.MonthStart | tovo-node-16/src/components/onboarding/ExperienceStep.jsx:295-296 | `new Date(v + '-01')` of a value that is not a string is an invalid date |
| EntryChecks.Missing | tovo-node-16/src/components/onboarding/ExperienceStep.jsx:277-284 | a string field is missing exactly when it is blank; null and undefined are always missing |
| EntryChecks.RequiredErrors | tovo-node-16/src/components/onboarding/ExperienceStep.jsx:276-286 | an entry gets at most one required-field message per rule |
| EntryChecks.RequiredErrorsFlag | tovo-node-16/src/components/onboarding/ExperienceStep.jsx:276-286 | a required field is reported, with its rule's message, exactly when its value is missing or blank |
| EntryChecks.RequiredErrorsAll | tovo-node-16/src/components/onboarding/ExperienceStep.jsx:276-286 | a field/message pair is among the required-field errors exactly when its rule is listed and the field is missing |
| EntryChecks.EndError | tovo-node-16/src/components/onboarding/ExperienceStep.jsx:288-301 | a current entry gets no end-date message; otherwise an end before the start gets the order message, which replaces the missing-end message |
| EntryChecks.CurrentEntryHasNoEndError | tovo-node-16/src/components/onboarding/ExperienceStep.jsx:288-301 | a current entry gets no end-date message, whatever its dates |
| EntryChecks.CleanEntry | tovo-node-16/src/components/onboarding/ExperienceStep.jsx:272-306 | an entry with no message has every required field and, unless it is current, an end not before its start |
| EntryChecks.EntryErrors | tovo-node-16/src/components/onboarding/ExperienceStep.jsx:272-301 | every listed missing field is reported with its message, and every reported pair is either such a field or the end-date message |
| EntryChecks.ErrorKey | tovo-node-16/src/components/onboarding/ExperienceStep.jsx:304 | the key an entry's errors are stored under starts with the list's name |
| EntryChecks.PerEntry | tovo-node-16/src/components/onboarding/ExperienceStep.jsx:272-306 | one error object per entry |
| EntryChecks.ReportsFlag | tovo-node-16/src/components/onboarding/ExperienceStep.jsx:303-305 | an entry is reported, with its whole error object, exactly when that object is not empty |
| EntryChecks.Reports | tovo-node-16/src/components/onboarding/ExperienceStep.jsx:303-305 | at most one report per entry, each under its own index with its whole non-empty error object |
| EntryChecks.ListErrorsFlag | tovo-node-16/src/components/onboarding/ExperienceStep.jsx:272-306 | an entry is reported exactly when its own checks produce a message |
| EntryChecks.ListErrorsEmpty | tovo-node-16/src/components/onboarding/ExperienceStep.jsx:272-306 | a list has no errors exactly when each of its entries passes |
| EntryChecks.ListErrors | tovo-node-16/src/components/onboarding/ExperienceStep.jsx:272-306 | at most one report per entry, each being exactly that entry's non-empty error object |
| EntryChecks.CheckEntries | tovo-node-16/src/components/onboarding/ExperienceStep.jsx:272-306 | the `forEach` that fills the errors object reports exactly the list's errors |
| EntryChecks.ReportEntries | tovo-node-16/src/components/onboarding/ExperienceStep.jsx:272-306 | the loop records, in index order, exactly the non-empty error objects, each under its own index |
| EntryChecks.Toggle | tovo-node-16/src/components/onboarding/ExperienceStep.jsx:247-253 | toggling flips the membership of one card and leaves every other card as it was |
| EntryChecks.ToggleTwice | tovo-node-16/src/components/onboarding/ExperienceStep.jsx:247-253 | toggling a card twice restores the set |
| ExperienceStep.FormErrorsEntries | tovo-node-16/src/components/onboarding/ExperienceStep.jsx:263-328 | an empty experience list gives only the list message; otherwise the reported entries are exactly the experiences and services whose checks fail |
| ExperienceStep.FormErrors | tovo-node-16/src/components/onboarding/ExperienceStep.jsx:263-328 | an empty experience list gives only the list message; otherwise every error is an entry error of the experience or the services list |
| ExperienceStep.NoServicesNoServiceErrors | tovo-node-16/src/components/onboarding/ExperienceStep.jsx:308-325 | without services every error is about experiences |
| ExperienceStep.CurrentExperienceHasNoEndError | tovo-node-16/src/components/onboarding/ExperienceStep.jsx:288-301 | a current experience never gets an end-date message |
| ExperienceStep.BlankRequiredFieldReported | tovo-node-16/src/components/onboarding/ExperienceStep.jsx:276-286 | a blank role, company or start date is reported for its entry, whatever else the entry holds |
| ExperienceStep.ValidateForm | tovo-node-16/src/components/onboarding/ExperienceStep.jsx:263-328 | the loops of `validateForm` produce exactly the specified errors |
| ExperienceStep.SubmitForm | tovo-node-16/src/components/onboarding/ExperienceStep.jsx:207-220 | `onNext` runs exactly when the form has no errors; otherwise the errors are shown |
| ExperienceStep.MonthYear | tovo-node-16/src/components/onboarding/ExperienceStep.jsx:17-24 | a falsy month shows as "" |
| ExperienceStep.FormatDateRange | tovo-node-16/src/components/onboarding/ExperienceStep.jsx:14-34 | no start shows "Date range"; a current job "<start> – Present"; otherwise "<start> – <end>", or the bare start without an end |
| ExperienceStep.DateRangeStartsWithStart | tovo-node-16/src/components/onboarding/ExperienceStep.jsx:14-34 | a card of a started job always begins with its start month |
| ExperienceStep.SwitchedRow | tovo-node-16/src/components/onboarding/ExperienceStep.jsx:230-234 | the switch sets `current`, clears the end date when turned on, and changes nothing else |
| ExperienceStep.SwitchedOffKeepsDates | tovo-node-16/src/components/onboarding/ExperienceStep.jsx:230-234 | turning the switch off leaves both dates as they were |
| ExperienceStep.WithEndHint | tovo-node-16/src/components/onboarding/ExperienceStep.jsx:239-242 | the hint is set as the entry's end-date message; the entry's other messages and every other entry are kept |
| ExperienceStep.EndHintKeepsMessages | tovo-node-16/src/components/onboarding/ExperienceStep.jsx:239-242 | an entry that had an object of messages keeps them all next to the hint |
| ExperienceStep.ExperienceForm.constructor | tovo-node-16/src/components/onboarding/ExperienceStep.jsx:82 | the form starts with the given rows, the first card open and no inline errors |
| ExperienceStep.ExperienceForm.ToggleCurrent | tovo-node-16/src/components/onboarding/ExperienceStep.jsx:230-245 | the row is switched; turning the switch off on an entry with a start and no end adds the end-date hint; the open cards are unchanged |
| ExperienceStep.ExperienceForm.SetRowAndErrors | tovo-node-16/src/components/onboarding/ExperienceStep.jsx:230-245 | only the edited row and the inline errors change; the set of open cards is kept |
| ExperienceStep.ExperienceForm.OnToggle | tovo-node-16/src/components/onboarding/ExperienceStep.jsx:247-253 | only the card's membership in the open set flips |
| ExperienceStep.ExperienceForm.CleanupExpanded | tovo-node-16/src/components/onboarding/ExperienceStep.jsx:166-177 | open indices past the end of the list are dropped and all others kept |
| EducationStep.FmtMonth | tovo-node-16/src/components/onboarding/EducationStep.jsx:15-20 | an empty or invalid month shows as ""; otherwise its locale label |
| EducationStep.BlankTitle | tovo-node-16/src/components/onboarding/EducationStep.jsx:22-29 | a fresh entry shows "School • Degree — Start – End" |
| EducationStep.CurrentTitleEndsInPresent | tovo-node-16/src/components/onboarding/EducationStep.jsx:22-29 | a current entry's title ends in "Present", whatever its end date |
| EducationStep.FormatEducationTitle | tovo-node-16/src/components/onboarding/EducationStep.jsx:22-29 | the title starts with the school, or "School" when it is empty, and " • "; a current entry's title ends in "Present" |
| EducationStep.NormalizeEntry | tovo-node-16/src/components/onboarding/EducationStep.jsx:88-99 | the defaults hold month values of the dates, `notes ?? description ?? ""`, and an empty end date for a current entry |
| EducationStep.Defaults | tovo-node-16/src/components/onboarding/EducationStep.jsx:86-103 | the form always has at least one education entry, one per sanitised item |
| EducationStep.NormalizedCurrentEntryHasNoEndError | tovo-node-16/src/components/onboarding/EducationStep.jsx:88-99 | a current entry's end date is emptied, so it never gets an end-date message |
| EducationStep.OpenEndedItemIsCurrent | tovo-node-16/src/components/onboarding/EducationStep.jsx:89-98 | an item with no `current` flag, a start and no end is shown as current |
| EducationStep.SchemaAndValidateFormOnOrder | tovo-node-16/src/components/onboarding/EducationStep.jsx:48-54 | on months that parse, the schema's order test and `validateForm` reject the same entries; on an end month that does not parse, the schema rejects the entry (its time is NaN, not null) while `validateForm` lets it through |
| EducationStep.FormErrorsEntries | tovo-node-16/src/components/onboarding/EducationStep.jsx:249-295 | an empty list gives only the list message; otherwise the errors are exactly the entries whose checks fail, with all their messages |
| EducationStep.FormErrors | tovo-node-16/src/components/onboarding/EducationStep.jsx:249-295 | an empty list gives only the list message; otherwise every error is an entry error of the education list |
| EducationStep.RulesLeaveEndDate | tovo-node-16/src/components/onboarding/EducationStep.jsx:249-295 | no required-field rule of the education check is about the end date, which only the date rule reports |
| EducationStep.ValidateForm | tovo-node-16/src/components/onboarding/EducationStep.jsx:249-295 | the `forEach` of `validateForm` produces exactly the specified errors |
| EducationStep.FieldPath | tovo-node-16/src/components/onboarding/EducationStep.jsx:310 | a field's error path starts with "education." |
| EducationStep.EntryCalls | tovo-node-16/src/components/onboarding/EducationStep.jsx:303-313 | an entry's messages are set on its fields, the list message on "education", and other keys are ignored |
| EducationStep.ErrorCallsInclude | tovo-node-16/src/components/onboarding/EducationStep.jsx:303-313 | the calls for one key are among the calls for all keys |
| EducationStep.SubmitSetsEveryMessage | tovo-node-16/src/components/onboarding/EducationStep.jsx:297-315 | every message `validateForm` finds for an entry is set on that entry's field |
| EducationStep.SetErrors | tovo-node-16/src/components/onboarding/EducationStep.jsx:302-312 | the loop over the errors object makes exactly the `setError` calls the errors specify, in order |
| EducationStep.SubmitForm | tovo-node-16/src/components/onboarding/EducationStep.jsx:297-317 | `onNext` runs exactly when there are no errors, and the `setError` calls are exactly those of the errors |
| EducationStep.StartChanged | tovo-node-16/src/components/onboarding/EducationStep.jsx:452-466 | typing a start month stores it and clears an end that now lies before it; the row's dates are then in order |
| EducationStep.EndChanged | tovo-node-16/src/components/onboarding/EducationStep.jsx:486-500 | typing an end month before the start clears it again; the row's dates are then in order |
| EducationStep.EducationForm.constructor | tovo-node-16/src/components/onboarding/EducationStep.jsx:81 | the first card starts open |
| EducationStep.EducationForm.AddEducation | tovo-node-16/src/components/onboarding/EducationStep.jsx:196-201 | a fresh entry goes last and is the only open card |
| EducationStep.EducationForm.DuplicateEducation | tovo-node-16/src/components/onboarding/EducationStep.jsx:156-171 | a copy of the entry goes last and is the only open card |
| EducationStep.EducationForm.DeleteEducation | tovo-node-16/src/components/onboarding/EducationStep.jsx:189-193 | the entry goes only when the user confirms; the open cards are unchanged |
| EducationStep.EducationForm.ToggleCard | tovo-node-16/src/components/onboarding/EducationStep.jsx:223-228 | only the card's membership in the open set flips |
| EducationStep.EducationForm.ChangeStart | tovo-node-16/src/components/onboarding/EducationStep.jsx:451-467 | only the edited row changes, as `StartChanged` says, and its dates end up in order |
| EducationStep.EducationForm.ChangeEnd | tovo-node-16/src/components/onboarding/EducationStep.jsx:485-501 | only the edited row changes, as `EndChanged` says, and its dates end up in order |
| ResumeForm.ExpandedAfterRemove | tovo-node-16/src/components/ResumeForm.jsx:631-646 | after a removal the open index is the list's "none" value when no card remains, moves back with the removed open card, shifts down when a later card was open, and stays otherwise |
| ResumeForm.ServiceExpandedAfterRemove | tovo-node-16/src/components/ResumeForm.jsx:631-646 | removing the last service leaves no card open (-1) |
| ResumeForm.ListExpandedAfterRemove | tovo-node-16/src/components/ResumeForm.jsx:659-674 | removing the last education, experience, skill or language leaves index 0 |
| ResumeForm.RemoveAt | tovo-node-16/src/components/ResumeForm.jsx:632 | removing index i drops exactly that item and keeps the others in order |
| ResumeForm.RemoveKeepsOpenCard | tovo-node-16/src/components/ResumeForm.jsx:631-674 | after a removal the open index is a card of the remaining list, and when another card was open it still designates the same item |
| ResumeForm.AddOpensNewCard | tovo-node-16/src/components/ResumeForm.jsx:622-628 | the card opened by an add is the item just appended |
| ResumeForm.ClampExpanded | tovo-node-16/src/components/ResumeForm.jsx:283-291 | an empty list opens nothing; an index past the last card is pulled back to it; any other index stays |
| ResumeForm.ClampExpandedBounds | tovo-node-16/src/components/ResumeForm.jsx:283-291 | after the effect the index is -1 or a card of the list, -1 only for an empty list or a closed one, and a second run changes nothing |
| ResumeForm.ExpandedAfterClick | tovo-node-16/src/components/ResumeForm.jsx:342 | clicking the open card's header closes it; clicking any other opens that one |
| ResumeForm.KnowledgeField | tovo-node-16/src/components/ResumeForm.jsx:114-116 | a string keyword is wrapped as `{ value }`; anything else is kept |
| ResumeForm.KnowledgeFields | tovo-node-16/src/components/ResumeForm.jsx:114-116 | a falsy list gives no rows; an array gives one field per keyword, in order |
| ResumeForm.NormalizedDefaults | tovo-node-16/src/components/ResumeForm.jsx:110-118 | the defaults are the merged resume with only its knowledge rewritten into fields |
| ResumeForm.NormalizedKnowledgeIsObjects | tovo-node-16/src/components/ResumeForm.jsx:110-118 | every keyword the stored resume holds as a string is edited as a `{ value }` object |
| ResumeForm.DatedItem | tovo-node-16/src/components/ResumeForm.jsx:179-188 | an education or experience item is sent with ISO dates and every other field unchanged |
| ResumeForm.DatedItems | tovo-node-16/src/components/ResumeForm.jsx:179-188 | one dated item per item, in order |
| ResumeForm.KnowledgeValues | tovo-node-16/src/components/ResumeForm.jsx:178 | one value per keyword row, in order |
| ResumeForm.KnowledgeRoundTrip | tovo-node-16/src/components/ResumeForm.jsx:110-118 | the string keywords of the defaults come back unchanged in the payload |
| ResumeForm.ConfigOf | tovo-node-16/src/components/ResumeForm.jsx:192-197 | `config` holds the form's theme, layout, features and content |
| ResumeForm.ConvertedValues | tovo-node-16/src/components/ResumeForm.jsx:176-190 | the keywords become plain values, the education and experience dates and the birth date become ISO dates |
| ResumeForm.MoveThemeIntoConfig | tovo-node-16/src/components/ResumeForm.jsx:192-202 | `config` is set, the four theme keys are gone and every other key is kept |
| ResumeForm.Payload | tovo-node-16/src/components/ResumeForm.jsx:174-213 | a chosen picture is sent as its data URL, or null when reading it failed, and nothing else differs; without one the payload is the converted values with the theme moved into `config` |
| ResumeForm.WithAvatar | tovo-node-16/src/components/ResumeForm.jsx:203-210 | without a chosen file nothing changes; with one `avatar_upload` holds its data URL, or null when reading failed, and every other key is kept |
| ResumeForm.ThemeMoved | tovo-node-16/src/components/ResumeForm.jsx:192-210 | after the move and the avatar step `config` is the given config and no theme part is left at the top level |
| ResumeForm.PayloadKeepsConverted | tovo-node-16/src/components/ResumeForm.jsx:174-210 | a key that is neither a theme part, `config` nor `avatar_upload` keeps its converted value in the payload |
| ResumeForm.PayloadMovesThemeIntoConfig | tovo-node-16/src/components/ResumeForm.jsx:192-202 | the theme parts are in the payload only under `config` |
| ResumeForm.PayloadConvertedFields | tovo-node-16/src/components/ResumeForm.jsx:176-190 | the keywords and dates reach the payload as converted |
| ResumeForm.PayloadKeepsFields | tovo-node-16/src/components/ResumeForm.jsx:176-177 | every other field of the form reaches the payload unchanged |
| TagsInput.JoinEnds | tovo-node-16/src/components/shared/TagsInput.jsx:43 | words joined by single spaces neither start nor end with white space, so the joined tag is already trimmed |
| TagsInput.JoinIsShortTag | tovo-node-16/src/components/shared/TagsInput.jsx:43 | one to three well-formed words joined by spaces make a tag of one to three words, and splitting it again gives back the same words |
| TagsInput.AddToken | tovo-node-16/src/components/shared/TagsInput.jsx:104-110 | one step of the push loop keeps the earlier tags, adds at most the one non-empty token, keeps the tags distinct and never goes past `maxItems` |
| TagsInput.HiddenCount | tovo-node-16/src/components/shared/TagsInput.jsx:27-32 | the hidden count is at most the number of tags, and is 0 exactly when the list is expanded or fits within `maxItems` |
| TagsInput.AddTag | tovo-node-16/src/components/shared/TagsInput.jsx:34-49 | an empty, already present or over-the-limit tag adds nothing; otherwise exactly the trimmed (and, past three words, shortened) tag is appended, and only if that tag is not present yet |
| TagsInput.AddedTagIsShort | tovo-node-16/src/components/shared/TagsInput.jsx:37-45 | the appended tag always holds one to three words; up to three words it is the trimmed input, beyond that it is its first three words |
| TagsInput.WordsNonEmpty | tovo-node-16/src/components/shared/TagsInput.jsx:38 | a trimmed non-empty tag splits into at least one word |
| TagsInput.AddTagKeepsInvariant | tovo-node-16/src/components/shared/TagsInput.jsx:34-49 | adding keeps the tags distinct, never exceeds `maxItems`, and keeps the old tags first and in order |
| TagsInput.RemoveTag | tovo-node-16/src/components/shared/TagsInput.jsx:51-53 | removing drops exactly the tag at the given index and keeps the rest in order; an index out of range changes nothing |
| TagsInput.RemoveTagKeepsDistinct | tovo-node-16/src/components/shared/TagsInput.jsx:51-53 | removing a tag keeps the list distinct |
| TagsInput.HandleKeyDown | tovo-node-16/src/components/shared/TagsInput.jsx:55-83 | a disabled input ignores every key; Enter or comma on a non-blank input adds it and clears the input; Backspace on an empty input removes the last tag; other keys change no tags |
| TagsInput.LimitedIsShort | tovo-node-16/src/components/shared/TagsInput.jsx:37-42 | cutting a trimmed, non-empty input to three words leaves one to three words: the input itself when it has at most three, its first three words otherwise |
| TagsInput.ChunkIsShortTag | tovo-node-16/src/components/shared/TagsInput.jsx:92-98 | a chunk of at most three consecutive pasted words is already trimmed and holds one to three words |
| TagsInput.ChunksAreShortTags | tovo-node-16/src/components/shared/TagsInput.jsx:92-101 | every token the paste loop collects is one to three consecutive pasted words |
| TagsInput.AddTokensKeepsInvariant | tovo-node-16/src/components/shared/TagsInput.jsx:104-109 | the second paste loop keeps the list distinct and within `maxItems`, keeps the old tags first, and appends only tokens it was given |
| TagsInput.HandlePaste | tovo-node-16/src/components/shared/TagsInput.jsx:89-114 | the two loops compute exactly the chunked tokens added in order while new and below the limit; `onChange` fires only when the length changed |
| TagsInput.CollectTokens | tovo-node-16/src/components/shared/TagsInput.jsx:94-101 | the tokens the loop collects are the trimmed non-empty chunks of three words, in order |
| TagsInput.PushTokens | tovo-node-16/src/components/shared/TagsInput.jsx:104-109 | the pushed list is the old one with each token appended when it is non-empty, new and the list is below the limit |
| TagsInput.AddChunksKeepsInvariant | tovo-node-16/src/components/shared/TagsInput.jsx:96-109 | pasting well-formed words keeps the list distinct and within `maxItems` and appends only tags of one to three words |
| TagsInput.PasteKeepsInvariant | tovo-node-16/src/components/shared/TagsInput.jsx:89-114 | any paste keeps the list distinct and within `maxItems`, the old tags first, the new ones one to three words each |
| TagsInput.VisibleItems | tovo-node-16/src/components/shared/TagsInput.jsx:20-25 | expanded or short lists show every tag; otherwise only the first `maxItems` |
| TagsInput.VisiblePlusHidden | tovo-node-16/src/components/shared/TagsInput.jsx:20-32 | the visible tags are a prefix of the list and the hidden count is exactly the number left out; it is positive only when collapsed and over the limit |
| ThemeStep.ToColorInputValue | tovo-node-16/src/components/onboarding/ThemeStep.jsx:70-79 | a non-string or a string whose trimmed form is not a 3, 4, 6 or 8 digit hex colour gives the fallback; otherwise the trimmed colour |
| ThemeStep.HexColor | tovo-node-16/src/components/onboarding/ThemeStep.jsx:70-79 | an accepted colour is non-empty and has no white space at either end |
| ThemeStep.ToColorInputValueIdempotent | tovo-node-16/src/components/onboarding/ThemeStep.jsx:73-79 | normalising an already normalised colour gives it back unchanged |
| ThemeStep.PaddedColourAccepted | tovo-node-16/src/components/onboarding/ThemeStep.jsx:77-78 | a valid colour surrounded by spaces is accepted without them |
| ThemeStep.GradientBounds | tovo-node-16/src/components/onboarding/ThemeStep.jsx:81-93 | the schema defaults (angle 135, two stops) pass; fewer than two stops or an angle outside 0..360 fail |
| ThemeStep.GradientAccepted | tovo-node-16/src/components/onboarding/ThemeStep.jsx:81-93 | an accepted gradient has an angle within 0..360 when one is given and at least two stops when they are given |
| ThemeStep.NavigatedIndex | tovo-node-16/src/components/onboarding/ThemeStep.jsx:691-730 | the arrows move the active option back or forward with wrap-around over presets plus the custom option; Home goes to the first, End to the last; every result names an option |
| ThemeStep.NavigationInverse | tovo-node-16/src/components/onboarding/ThemeStep.jsx:695-705 | moving forward and then back (or back and then forward) returns to the starting option |
| ThemeStep.PresetIndex | tovo-node-16/src/components/onboarding/ThemeStep.jsx:585 | the search finds the first preset whose id equals the theme id, and reports none when no preset has it |
| ThemeStep.SyncedIndex | tovo-node-16/src/components/onboarding/ThemeStep.jsx:581-590 | the custom theme selects the last option, a preset id selects that preset, and any other id keeps the previous index |
| ThemeStep.SyncedIndexIdempotent | tovo-node-16/src/components/onboarding/ThemeStep.jsx:581-590 | running the sync effect twice gives the same index as once |
| ThemeStep.SetThemeField | tovo-node-16/src/components/onboarding/ThemeStep.jsx:649 | setting `theme.<key>` changes that theme field only and leaves every other field of the form alone |
| ThemeStep.ModeKey | tovo-node-16/src/components/onboarding/ThemeStep.jsx:712 | the mode a preset is asked for: an undefined theme mode takes the default "light", a string mode is itself |
| ThemeStep.PresetValues | tovo-node-16/src/components/onboarding/ThemeStep.jsx:615-627 | over the corrected preset lookup, a preset exists exactly for a known id in light or dark mode, and its normalised values carry a theme object whose mode is light or dark |
| ThemeStep.CustomValues | tovo-node-16/src/components/onboarding/ThemeStep.jsx:647-654 | selecting the custom theme sets the id to "custom", fills an empty theme list with every theme, keeps a non-empty one, and changes nothing else |
| ThemeStep.ThemePicker.constructor | tovo-node-16/src/components/onboarding/ThemeStep.jsx:435-446 | the picker starts on the first option, with no changes reported, and the advanced editor open exactly when the defaults select the custom theme |
| ThemeStep.ThemePicker.SyncAdvanced | tovo-node-16/src/components/onboarding/ThemeStep.jsx:570-578 | a non-custom theme closes the advanced editor, arriving at the custom theme opens it, and the previous-custom flag follows the theme |
| ThemeStep.ThemePicker.ResetTo | tovo-node-16/src/components/onboarding/ThemeStep.jsx:628-640 | the form holds exactly the given values, `onChange` has been called once more with them, the advanced editor is closed, and the focused option is kept |
| ThemeStep.ThemePicker.ApplyPreset | tovo-node-16/src/components/onboarding/ThemeStep.jsx:615-641 | an unknown preset changes nothing; a known one resets the form to its normalised values, reports them once through `onChange` and closes the advanced editor |
| ThemeStep.ThemePicker.CustomSelect | tovo-node-16/src/components/onboarding/ThemeStep.jsx:647-674 | the form takes the custom values and the advanced editor opens; nothing is reported through `onChange` |
| ThemeStep.ThemePicker.ModeChange | tovo-node-16/src/components/onboarding/ThemeStep.jsx:676-689 | with a selected preset the preset is re-applied in the new mode; without one, or on the custom theme, only `theme.mode` changes |
| ThemeStep.ThemePicker.SyncIndex | tovo-node-16/src/components/onboarding/ThemeStep.jsx:581-590 | the active index becomes the synced index of the current theme id, and still names an option |
| ThemeStep.ThemePicker.PresetListKeyDown | tovo-node-16/src/components/onboarding/ThemeStep.jsx:691-730 | navigation keys move the active index as `NavigatedIndex` says, leaving the form alone; Enter or Space on a preset applies it in the current mode (light when the mode is undefined) and reports it once, on the custom option selects the custom theme, and keeps the index; any other key changes nothing |
| ModeSegmented.FindIndex | tovo-node-16/src/components/shared/ModeSegmented.jsx:9-17 | the index of the value among light and dark, and -1 exactly when the value is neither |
| ModeSegmented.HandleKeyDown | tovo-node-16/src/components/shared/ModeSegmented.jsx:14-47 | a disabled control ignores keys; the arrows step back or forward with wrap-around, Enter and Space toggle between light and dark, and every mode chosen is light or dark |
| ModeSegmented.HandleClick | tovo-node-16/src/components/shared/ModeSegmented.jsx:49-53 | a click reports the clicked mode exactly when the control is enabled |
| ModeSegmented.EveryKeyFlipsMode | tovo-node-16/src/components/shared/ModeSegmented.jsx:19-43 | with two modes, every arrow and the toggle keys select the other mode from either mode |
| ModeSegmented.KeyTwiceRestores | tovo-node-16/src/components/shared/ModeSegmented.jsx:19-43 | pressing the same key twice from a mode returns to it |
| ModeSegmented.UnknownValue | tovo-node-16/src/components/shared/ModeSegmented.jsx:17-41 | for a value that is no mode, the backward arrows choose dark, the forward arrows light, and the toggle keys light |
| ColorPopover.ValidateHexIsStricter | tovo-node-16/src/components/shared/CustomColorPopover.jsx:15 | the popover accepts only three or six hex digits, a subset of what the theme step's colour field accepts (which also takes four and eight) |
| ColorPopover.ValidateHex | tovo-node-16/src/components/shared/CustomColorPopover.jsx:15-36 | a colour the popover accepts is also accepted by the theme step's pattern, and a six-digit one converts to RGB |
| ColorPopover.HexValue | tovo-node-16/src/components/shared/CustomColorPopover.jsx:43-45 | a hex digit of either case has a value below 16 |
| ColorPopover.HexChar | tovo-node-16/src/components/shared/CustomColorPopover.jsx:43-45 | the digit written for a value below 16 is a hex digit that reads back as that value |
| ColorPopover.ByteOf | tovo-node-16/src/components/shared/CustomColorPopover.jsx:43-45 | two hex digits give a channel value of at most 255 |
| ColorPopover.HexToRgb | tovo-node-16/src/components/shared/CustomColorPopover.jsx:40-47 | a colour parses exactly when it is six hex digits with or without a leading `#`, and every channel is at most 255 |
| ColorPopover.RgbToHex | tovo-node-16/src/components/shared/CustomColorPopover.jsx:40-47 | the written form of a colour is `#` followed by six digits |
| ColorPopover.HexToRgbRoundTrip | tovo-node-16/src/components/shared/CustomColorPopover.jsx:15-47 | writing a colour as `#rrggbb` and parsing it gives the colour back, and that form passes the popover's check |
| ColorPopover.ValidHexParses | tovo-node-16/src/components/shared/CustomColorPopover.jsx:40-47 | a valid six-digit colour always parses, a valid three-digit one never does |
| ColorPopover.ContrastStatusOf | tovo-node-16/src/components/shared/CustomColorPopover.jsx:49-77 | a colour that does not parse gives poor contrast; otherwise the status is good exactly at a ratio of at least 4.5, acceptable exactly from 3 up to 4.5, and poor exactly below 3 |
| ColorPopover.UnparsedColourFails | tovo-node-16/src/components/shared/CustomColorPopover.jsx:49-77 | when either colour does not parse the ratio is 0 and the status is always poor contrast |
| ColorPopover.Popover.constructor | tovo-node-16/src/components/shared/CustomColorPopover.jsx:11-12 | the field starts on the current colour and marked valid, with no calls made |
| ColorPopover.Popover.CurrentColorChanged | tovo-node-16/src/components/shared/CustomColorPopover.jsx:17-19 | a new current colour resets the field to it and leaves the validity flag as it was |
| ColorPopover.Popover.HexChange | tovo-node-16/src/components/shared/CustomColorPopover.jsx:79-82 | the field takes the typed text and is marked valid exactly when the text passes the check |
| ColorPopover.Popover.Submit | tovo-node-16/src/components/shared/CustomColorPopover.jsx:84-89 | a valid changed colour is reported, and it always passes the check; the popover always closes afterwards |
| ColorPopover.Popover.KeyDown | tovo-node-16/src/components/shared/CustomColorPopover.jsx:91-97 | Escape closes without selecting, Enter submits, other keys report nothing |
| Translations.TAsWritten | tovo-node-16/src/utils/translations.js:56-58 | as written, a listed key gives its text, the name of a member every object inherits gives that member instead of text, and any other key gives itself |
| Translations.TAsWrittenToString | tovo-node-16/src/utils/translations.js:56-58 | as written, `t("toString")` and `t("constructor")` give no text |
| Translations.ToStringNotListed | tovo-node-16/src/utils/translations.js:2-53 | "toString" is not one of the listed keys |
| Translations.ConstructorNotListed | tovo-node-16/src/utils/translations.js:2-53 | "constructor" is not one of the listed keys |
| Translations.T | tovo-node-16/src/utils/translations.js:2-58 | a listed key gives its text and any other key gives itself |
| Translations.TAgrees | tovo-node-16/src/utils/translations.js:56-58 | the corrected lookup agrees with the as-written one on every key that is not an inherited member's name |
| Translations.ModeLabels | tovo-node-16/src/utils/translations.js:37-38 | example: the light and dark labels are "Light" and "Dark" |
| AppRoutes.SomeAllowed | tovo-node-16/src/App.js:68-71 | the `some` over the allowed prefixes holds exactly when the path is one of them or lies under one |
| AppRoutes.RedirectTarget | tovo-node-16/src/App.js:64-75 | a signed-out user is never redirected; a signed-in one is redirected exactly when the path is not allowed, and always to `/my-resume` |
| AppRoutes.RedirectSettles | tovo-node-16/src/App.js:64-75 | the redirect target is itself allowed, so the effect never redirects twice in a row |
| AppRoutes.PrefixNeedsSlash | tovo-node-16/src/App.js:68-71 | a path that continues an allowed prefix with anything but "/" (such as "/my-resumes") is under no prefix, so it is not allowed |
| AppRoutes.SubPagesAllowed | tovo-node-16/src/App.js:68-71 | every sub-page of an allowed prefix (the prefix, "/", then anything) is allowed |
| AppRoutes.PrivateRoute | tovo-node-16/src/App.js:16-40 | while the session initialises nothing renders; a signed-out user is sent to sign-in with the requested location; the page renders exactly for a signed-in user |
| AuthStore.ReadStorage | tovo-node-16/src/utils/auth.js:7-13 | a missing key reads as the empty string, a present one as its stored value |
| AuthStore.WriteStorage | tovo-node-16/src/utils/auth.js:15-25 | an empty value removes the key, any other value stores it, and every other key is left as it was |
| AuthStore.WriteThenRead | tovo-node-16/src/utils/auth.js:7-25 | whatever is written under a key is what is read back from it |
| AuthStore.TokenText | tovo-node-16/src/utils/auth.js:42-47 | a missing token becomes the empty string, a present one is kept |
| AuthStore.TokenStore.constructor | tovo-node-16/src/utils/auth.js:4-5 | both caches start empty over whatever storage holds |
| AuthStore.TokenStore.GetAccessToken | tovo-node-16/src/utils/auth.js:27-32 | the result is always what storage holds for the access key, and a filled cache is returned as it is |
| AuthStore.TokenStore.GetRefreshToken | tovo-node-16/src/utils/auth.js:34-39 | the result is always what storage holds for the refresh key, and a filled cache is returned as it is |
| AuthStore.TokenStore.SetAccessToken | tovo-node-16/src/utils/auth.js:41-44 | the cache and the stored access token become the token, and a missing token removes the stored one |
| AuthStore.TokenStore.SetRefreshToken | tovo-node-16/src/utils/auth.js:46-49 | the cache and the stored refresh token become the token, and a missing token removes the stored one |
| AuthStore.TokenStore.SetTokens | tovo-node-16/src/utils/auth.js:51-54 | both tokens are set, both read back as given, and a missing one clears its stored value |
| AuthStore.TokenStore.ClearTokens | tovo-node-16/src/utils/auth.js:56-61 | both caches are emptied and exactly the two token keys are removed |
| AuthStore.TokenStore.HasToken | tovo-node-16/src/utils/auth.js:64-67 | true exactly when storage holds a non-empty access token |
| ConsentStore.ConsentKey | tovo-node-16/src/utils/consentManager.js:6-10 | the three consent names map to their storage keys and no other name maps to a key |
| ConsentStore.ConsentText | tovo-node-16/src/utils/consentManager.js:25-27 | the text written for a consent value: undefined and true give "true", false gives "false", a string itself, and only null fails |
| ConsentStore.AssignAllOnlyConsentKeys | tovo-node-16/src/utils/consentManager.js:65-78 | setting all preferences writes only consent keys; every other stored key keeps its value or stays absent |
| ConsentStore.AssignAllOne | tovo-node-16/src/utils/consentManager.js:65-72 | a preference named in any case sets its consent type, and a boolean is read back as given |
| ConsentStore.UndefinedPreferenceGrants | tovo-node-16/src/utils/consentManager.js:65-72 | an `analytics` entry left undefined, in any letter case, takes the default and grants analytics consent |
| ConsentStore.UndefinedEntryGrants | tovo-node-16/src/utils/consentManager.js:65-72 | any single undefined entry whose upper-cased name is a consent type grants that consent |
| ConsentStore.Store.constructor | tovo-node-16/src/utils/consentManager.js:12 | the manager works over whatever storage holds |
| ConsentStore.Store.HasConsent | tovo-node-16/src/utils/consentManager.js:14-22 | consent is granted exactly when the stored value is the text "true" |
| ConsentStore.Store.AllConsent | tovo-node-16/src/utils/consentManager.js:47-62 | each of the three answers is whether that consent is granted |
| ConsentStore.Store.SetConsent | tovo-node-16/src/utils/consentManager.js:24-33 | the value's text is stored under the type; it fails, changing nothing, exactly for null; a boolean is read back as given |
| ConsentStore.Store.RemoveConsent | tovo-node-16/src/utils/consentManager.js:35-44 | exactly the given key is removed, after which that consent is not granted |
| ConsentStore.Store.SetAllConsent | tovo-node-16/src/utils/consentManager.js:64-78 | the entries are applied in order, each name upper-cased, unknown names skipped, and the call succeeds |
| ConsentStore.Store.ClearAllConsent | tovo-node-16/src/utils/consentManager.js:80-91 | exactly the consent keys are removed, after which no consent is granted |
| ThemePresets.MergeDeep | tovo-node-16/src/utils/themePresets.js:14-38 | a non-object target counts as `{}`; an object source gives an object, any other defined source replaces the result, and an undefined one leaves a copy of the target |
| ThemePresets.MergeValue | tovo-node-16/src/utils/themePresets.js:24-34 | the value one source key contributes: a scalar overwrites, an array becomes an array of the same length, an object stays an object |
| ThemePresets.CopyItems | tovo-node-16/src/utils/themePresets.js:27-29 | copying an array keeps its length and every non-object item as it is |
| ThemePresets.MergeDeepInPlace | tovo-node-16/src/utils/themePresets.js:14-38 | the key-by-key loop that updates `output` computes exactly `mergeDeep(target, source)` |
| ThemePresets.MergeFieldsLookup | tovo-node-16/src/utils/themePresets.js:23-35 | after the loop, each key of the source holds the merge of the target's value with the source's, and every other key keeps the target's value |
| ThemePresets.MergeDeepLookup | tovo-node-16/src/utils/themePresets.js:14-38 | key by key: keys absent from the source keep the target's value, arrays are replaced by copies, nested objects are merged into the target's object (or into `{}`), anything else overwrites |
| ThemePresets.MergeDeepScalarOverwrites | tovo-node-16/src/utils/themePresets.js:32-34 | a scalar source value overwrites the target's, whatever it was |
| ThemePresets.MergeDeepArrayReplaces | tovo-node-16/src/utils/themePresets.js:26-29 | arrays are never concatenated: the result has exactly the source's length and its non-object items |
| ThemePresets.MergeDeepNonObjectTarget | tovo-node-16/src/utils/themePresets.js:15-17 | a non-object target merges exactly like `{}` |
| ThemePresets.MergeDeepEmptySource | tovo-node-16/src/utils/themePresets.js:14-38 | merging an empty object into an object target gives the target back |
| ThemePresets.StampTheme | tovo-node-16/src/utils/themePresets.js:264-266 | the stamped theme carries the given id and mode and the full theme list |
| ThemePresets.ApplyPresetMode | tovo-node-16/src/utils/themePresets.js:262-268 | without overrides, a preset is its base with the theme stamped with id, mode and theme list |
| ThemePresets.ApplyPresetModeStampsTheme | tovo-node-16/src/utils/themePresets.js:262-268 | overrides that do not touch `theme` leave the stamped id, mode and theme list in place |
| ThemePresets.PresetBase | tovo-node-16/src/utils/themePresets.js:40-259 | every preset base is an object holding a theme object |
| ThemePresets.PresetVariant | tovo-node-16/src/utils/themePresets.js:270-464 | among the presets' own ids and modes, a variant exists exactly for the four preset ids in light or dark mode, and it holds a theme object |
| ThemePresets.GetPresetConfig | tovo-node-16/src/utils/themePresets.js:466-479 | the corrected lookup over the presets' own ids and modes: null exactly for an unknown id or mode; otherwise an object copy whose theme id is the requested id |
| ThemePresets.ClonePresetConfigAsWritten | tovo-node-16/src/utils/themePresets.js:466-479 | as written, an id every object inherits (such as "constructor") throws a TypeError, a preset id with an inherited mode throws, and any other unknown id gives null |
| ThemePresets.PresetIdConstructorThrows | tovo-node-16/src/utils/themePresets.js:466-479 | a stored theme id of "constructor" throws as written, where the corrected lookup gives no preset |
| ThemePresets.PresetLookupAgrees | tovo-node-16/src/utils/themePresets.js:466-479 | wherever neither the id nor the mode is an inherited name, the as-written lookup returns exactly the corrected one |
| ThemePresets.GetPresetConfigMode | tovo-node-16/src/utils/themePresets.js:270-308 | every preset comes in the mode asked for and with the full theme list |
| ThemePresets.WorkingSource | tovo-node-16/src/utils/themePresets.js:492-504 | without a nested `config` object the source is used as it is |
| ThemePresets.LegacyMode | tovo-node-16/src/utils/themePresets.js:506-510 | a legacy mode is only ever a non-empty string theme |
| ThemePresets.SanitizedSource | tovo-node-16/src/utils/themePresets.js:509-512 | the sanitised source is an object with distinct keys |
| ThemePresets.WithThemeList | tovo-node-16/src/utils/themePresets.js:516-518 | the theme list is always set afterwards, and id and mode are untouched |
| ThemePresets.WithId | tovo-node-16/src/utils/themePresets.js:520-522 | the id is always set afterwards; a set id is kept; list and mode are untouched |
| ThemePresets.WithMode | tovo-node-16/src/utils/themePresets.js:524-528 | the mode is always light or dark: a legacy mode decides it when present, otherwise only "dark" stays dark; id and list are untouched |
| ThemePresets.ApplyLegacyMode | tovo-node-16/src/utils/themePresets.js:524-526 | a legacy mode sets `mode` to "dark" exactly when it is "dark" and to "light" otherwise; without one the theme is unchanged; no other key changes |
| ThemePresets.NormaliseMode | tovo-node-16/src/utils/themePresets.js:528 | "dark" stays "dark" and every other mode, absent ones included, becomes "light"; no other key changes |
| ThemePresets.NormaliseTheme | tovo-node-16/src/utils/themePresets.js:516-528 | the normalised theme has a light or dark mode, an id and a theme list that is set, and a legacy mode decides the mode |
| ThemePresets.Project | tovo-node-16/src/utils/themePresets.js:530-540 | the result carries the theme both at the top and under `config`, with `config` holding exactly the four theme parts |
| ThemePresets.FinishMerged | tovo-node-16/src/utils/themePresets.js:516-540 | the steps after the merge fail exactly when the merged theme is neither object nor array; otherwise the theme is normalised and mirrored under `config` |
| ThemePresets.DefaultBase | tovo-node-16/src/utils/themePresets.js:482 | the base is an object holding a theme object |
| ThemePresets.DefaultBaseIsPreset | tovo-node-16/src/utils/themePresets.js:58-124 | the written-out base equals the computed light Bostami preset |
| ThemePresets.MergeThemeDefaultsAsWrittenNullTheme | tovo-node-16/src/utils/themePresets.js:514-516 | as written, a source `{ theme: null }` makes the normalisation throw |
| ThemePresets.MergeThemeDefaultsAsWritten | tovo-node-16/src/utils/themePresets.js:481-541 | as written, a failure is always a TypeError; a success is an object whose theme has a light or dark mode, a truthy id and theme list, and is mirrored under `config` |
| ThemePresets.CleanTheme | tovo-node-16/src/utils/themePresets.js:509-514 | the corrected sanitising step leaves only object or array themes, and leaves such a source unchanged |
| ThemePresets.MergedThemeIsObjectLike | tovo-node-16/src/utils/themePresets.js:514 | merging a cleaned source into the base always gives an object or array theme |
| ThemePresets.MergeThemeDefaults | tovo-node-16/src/utils/themePresets.js:481-541 | the corrected normalisation always returns an object whose theme has a light or dark mode, an id and a theme list that is set, mirrored under `config`; a legacy mode decides the mode |
| ThemePresets.MergeThemeDefaultsAgrees | tovo-node-16/src/utils/themePresets.js:481-541 | wherever the as-written normalisation returns, the corrected one returns the same configuration |
| ThemePresets.MergeThemeDefaultsLegacyMode | tovo-node-16/src/utils/themePresets.js:506-528 | a string theme is a legacy mode: "dark" gives dark, any other non-empty string light |
| ThemePresets.WorkingSourceConfigWins | tovo-node-16/src/utils/themePresets.js:499-504 | a nested `config` object wins over the top-level keys it repeats |
| ResumeDefaults.Rest | tovo-node-16/src/utils/resumeDefaults.js:38 | the rest holds every entry of the resume except `config` |
| ResumeDefaults.ThemeSource | tovo-node-16/src/utils/resumeDefaults.js:39-42 | the theme source is an object with distinct keys |
| ResumeDefaults.KnowledgeEntry | tovo-node-16/src/utils/resumeDefaults.js:81-83 | a string entry is kept, an object gives its `value` when truthy and "" otherwise, anything else gives "" |
| ResumeDefaults.KnowledgeEntries | tovo-node-16/src/utils/resumeDefaults.js:81-83 | each entry is mapped in place and the length is kept |
| ResumeDefaults.ArrayOrEmpty | tovo-node-16/src/utils/resumeDefaults.js:74-85 | the result is always an array: the input when it is one, [] otherwise |
| ResumeDefaults.About | tovo-node-16/src/utils/resumeDefaults.js:62-73 | `about` is always an object whose `short_description` is the first present of `short_description`, `title` and "" |
| ResumeDefaults.Knowledge | tovo-node-16/src/utils/resumeDefaults.js:80-84 | the knowledge list is always an array, of the same length as the input's with each entry converted, or [] |
| ResumeDefaults.Tail | tovo-node-16/src/utils/resumeDefaults.js:54-86 | the entries written after `...merged` are exactly config, about and the six lists, in order |
| ResumeDefaults.MergedLookup | tovo-node-16/src/utils/resumeDefaults.js:45-55 | a key the tail does not write takes its value from `merged` |
| ResumeDefaults.MergeResumeDefaultsMirrorsConfig | tovo-node-16/src/utils/resumeDefaults.js:43-61 | each theme part at the top equals the one under `config`, and both are the normalised theme defaults |
| ResumeDefaults.MergeResumeDefaultsTheme | tovo-node-16/src/utils/resumeDefaults.js:43-48 | the saved theme is always normalised: a light or dark mode, an id and a theme list that is set |
| ResumeDefaults.MergeResumeDefaultsLists | tovo-node-16/src/utils/resumeDefaults.js:74-85 | the list fields are always arrays: the input's own array, or [] when it is missing or not an array |
| ResumeDefaults.MergeResumeDefaultsKnowledge | tovo-node-16/src/utils/resumeDefaults.js:80-84 | knowledge entries become strings, objects giving their `value` or "" |
| ResumeDefaults.MergeResumeDefaultsShortDescription | tovo-node-16/src/utils/resumeDefaults.js:63-67 | `about.short_description` falls back to `title` only when missing or null, so a present "" is kept |
| ResumeDefaults.MergeResumeDefaultsScalarDefault | tovo-node-16/src/utils/resumeDefaults.js:3-47 | a field the resume lacks takes its default value |
| ResumeDefaults.MergeResumeDefaultsKeepsField | tovo-node-16/src/utils/resumeDefaults.js:45-47 | a field the resume carries is kept as it is |
| ResumeDefaults.MergeResumeDefaults | tovo-node-16/src/utils/resumeDefaults.js:37-87 | on the corrected theme normalisation (as written, a resume whose theme is null throws: see `MergeResumeDefaultsNullThemeAsWritten`), `config` holds the four normalised theme parts, `about` is an object, and `knowledge` and every other list field are arrays |
| ResumeDefaults.ThemeSourceConfigWins | tovo-node-16/src/utils/resumeDefaults.js:39-42 | a nested `config` object is spread over the other fields before the theme is normalised |
| ResumeDefaults.MergeResumeDefaultsNullThemeAsWritten | tovo-node-16/src/utils/resumeDefaults.js:37-43 | a loaded resume whose theme is null reaches the as-written theme normalisation as `{ theme: null }`, which throws |
| AllData.MergeDeep | bostami/src/Hooks/AllData.js:68-91 | an undefined target or source takes the default `{}`: any other non-object target gives back the source (`{}` when the source is undefined); a non-object source gives the target, or `{}` for an undefined target; an object or undefined target with an object source gives an object |
| AllData.MergeValue | bostami/src/Hooks/AllData.js:81-87 | a defined source value that is not an object is taken as it is (arrays as a copy) |
| AllData.MergeDeepInPlace | bostami/src/Hooks/AllData.js:68-91 | the key-by-key loop that updates `output` computes exactly `mergeDeep(target, source)` |
| AllData.MergeFieldsLookup | bostami/src/Hooks/AllData.js:78-88 | after the loop, a key with a defined source value holds the merged value, every other key keeps the target's |
| AllData.MergeDeepLookup | bostami/src/Hooks/AllData.js:73-88 | merging two objects key by key: an undefined or absent source value keeps the target's, an object merges into the target's value or `{}`, anything else overwrites |
| AllData.UndefinedNeverOverwrites | bostami/src/Hooks/AllData.js:85-87 | an `undefined` in the source never erases a target value |
| AllData.ToLowerAppend | bostami/src/Hooks/AllData.js:93 | lower-casing distributes over concatenation |
| AllData.CssVarNameStep | bostami/src/Hooks/AllData.js:93 | letter by letter, an upper-case letter becomes "-" and its lower case, and any other character stays |
| AllData.ToCssVarName | bostami/src/Hooks/AllData.js:93 | the CSS name is at least as long as the key and holds no upper-case letter |
| AllData.CamelCase | bostami/src/Hooks/AllData.js:93 | the inverse direction, from a CSS name back to a key, never lengthens the name and keeps a name without hyphens as it is |
| AllData.CssVarNameRoundTrip | bostami/src/Hooks/AllData.js:93 | for a key without hyphens the CSS name determines the key: camel-casing it back gives the key |
| AllData.GetPaletteForMode | bostami/src/Hooks/AllData.js:95-113 | no theme gives the default palette for the mode; a theme with a palette for the mode gives that palette |
| AllData.PaletteFallbackOrder | bostami/src/Hooks/AllData.js:100-112 | without a palette for the mode, the flat `colors` come first, then the light palette, then the default palette for the mode or the default light one |
| AllData.StopText | bostami/src/Hooks/AllData.js:134-153 | a string stop is written with "0%" at the first index and "100%" after it; a stop that is neither string nor object gives null |
| AllData.StopTexts | bostami/src/Hooks/AllData.js:133-154 | filtering out nulls never gives more texts than stops |
| AllData.StringStopTexts | bostami/src/Hooks/AllData.js:133-154 | string stops are all kept, in order, each with its default position |
| AllData.BuildGradientString | bostami/src/Hooks/AllData.js:115-161 | without a gradient, two or more fallback stops give a two-stop gradient at the fallback angle and fewer give null; with one, a TypeError exactly when `stops` is a non-empty string or an object with a positive numeric `length` |
| AllData.GradientNeedsTwoStops | bostami/src/Hooks/AllData.js:124-158 | a gradient is built only from at least two usable stops; with fewer, or none configured or in the fallback, the result is null |
| AllData.StringValues | bostami/src/Hooks/AllData.js:125-127 | the configured stops as string values, one per stop, in order |
| AllData.StringStopsGradient | bostami/src/Hooks/AllData.js:124-160 | two or more configured colour strings are all kept in order, the first at "0%" and each later one at "100%" |
| AllData.ConfiguredStopsGradient | bostami/src/Hooks/AllData.js:124-160 | a non-empty configured stop array that yields two or more stop texts gives the gradient of the coalesced angle and those texts joined by ", " |
| AllData.NextThemeMode | bostami/src/Hooks/AllData.js:313-322 | the next mode is always dark or light: a falsy value or "toggle" flips the current mode, "dark" and "light" are kept, anything else gives the default mode |
| AllData.ToggleTwice | bostami/src/Hooks/AllData.js:316-317 | toggling twice from light or dark returns to it |
| AllData.ResolvedConfig | bostami/src/Hooks/AllData.js:359-362 | a failed or empty configuration request leaves the default configuration |
| AllData.RefreshedMode | bostami/src/Hooks/AllData.js:371-381 | a non-empty persisted mode always wins |
| AllData.RemoteModeWins | bostami/src/Hooks/AllData.js:371-381 | without a persisted mode, a mode the configuration endpoint sends wins, even one that is neither light nor dark |
| AllData.RefreshedModeTruthy | bostami/src/Hooks/AllData.js:377-381 | whatever the requests return, the chosen mode is never falsy |
| AllData.RemotePortfolioItems | bostami/src/Hooks/AllData.js:559 | the remote list is the first truthy one of `works`, `portfolio` and `portfolios`, else an empty array, and is always truthy |
| AllData.Variant | bostami/src/Hooks/AllData.js:569 | the variant for an index cycles through the palette variants, and is undefined when there are none |
| AllData.VariantInRange | bostami/src/Hooks/AllData.js:569 | an index inside the variant list picks exactly that variant |
| AllData.GetVariant | bostami/src/Hooks/AllData.js:569 | with a truthy fallback the pick is always truthy; without variants it is the fallback; an index within the list picks that variant when it is truthy and the fallback otherwise |
| AllData.WithVariant | bostami/src/Hooks/AllData.js:567-570 | an item keeps all its fields except `bg`, which becomes the cycled variant or else the item's own |
| AllData.WorkItems | bostami/src/Hooks/AllData.js:558-571 | a non-empty remote list is used as it is; otherwise each default item gets its cycled background |
| AllData.VariantsCycle | bostami/src/Hooks/AllData.js:567-570 | default items a palette length apart get the same background |
| AllData.FilterByTag | bostami/src/Hooks/AllData.js:989-991 | the filter throws exactly when some item is null or undefined or has a tag that is neither nullish nor a string; otherwise it keeps exactly the input items whose tag matches the text, and no more items than the input |
| AllData.TagMatches | bostami/src/Hooks/AllData.js:989-991 | only an item whose tag is a string can match, and a tag equal to the text always matches |
| AllData.FilterIgnoresCase | bostami/src/Hooks/AllData.js:990 | the case of the filter text makes no difference |
| AllData.FilterSame | bostami/src/Hooks/AllData.js:989-991 | two texts that match the same items give the same filtered list |
| AllData.FindById | bostami/src/Hooks/AllData.js:999 | the found index is the first item whose id reads the same as the given id; none when no item matches |
| AllData.SiteState.constructor | bostami/src/Hooks/AllData.js:247-252 | the mode starts as the persisted one when non-empty, else the default mode; nothing is open |
| AllData.SiteState.HandleTheme | bostami/src/Hooks/AllData.js:313-337 | the mode becomes the next mode, which is light or dark, is persisted only when the features ask, and is written into `config.theme.mode`; nothing else changes |
| AllData.SiteState.HandleData | bostami/src/Hooks/AllData.js:983-995 | no text or "All" shows every item, any other text the items tagged with it |
| AllData.SiteState.HandleModelData | bostami/src/Hooks/AllData.js:997-1006 | the first item with a matching id is shown and the modal opens; an unknown id changes nothing |
| ApiConfig.NormalizeBaseUrl | bostami/src/config/api.js:1-7 | no value gives ""; otherwise the result is the value with every trailing "/" removed, and never ends in "/" |
| ApiConfig.NormalizeIdempotent | bostami/src/config/api.js:1-7 | normalising twice changes nothing more |
| ApiConfig.TrailingSlashIgnored | bostami/src/config/api.js:6 | appending a slash to the configured value makes no difference |
| ApiConfig.ApiBaseUrl | bostami/src/config/api.js:9-13 | the base is the normalised configured value, or `http://localhost:8000` when that is empty, and never ends in "/" |
| ApiConfig.OnlySlashesGiveDefault | bostami/src/config/api.js:9-13 | a configured value made only of slashes falls back to the default |
| ApiConfig.BuildApiUrl | bostami/src/config/api.js:17-24 | no path gives the base; a path gets "/" put in front only when it lacks one |
| ApiConfig.OneSlashAtSeam | bostami/src/config/api.js:11-24 | every request address is the base, exactly one "/", then the path without its leading "/" |
| ApiConfig.LeadingSlashOptional | bostami/src/config/api.js:22 | a path given with or without its leading slash leads to the same address |
| ApiConfig.Subdomain | bostami/src/config/api.js:26-28 | the subdomain is always "demo" |
| ApiConfig.TenantPath | bostami/src/config/api.js:115-121 | a builder is called with the subdomain; a template without the placeholder is kept as it is |
| ApiConfig.ReplaceFirstSkipsPrefix | bostami/src/config/api.js:120 | the replacement passes over a prefix in which the placeholder cannot start |
| ApiConfig.TenantTemplate | bostami/src/config/api.js:120 | a template with `:subdomain` in it has its first occurrence replaced by "demo" |
| BackgroundOverlay.NormalizeKey | bostami/src/components/BackgroundOverlay.jsx:27-30 | the kebab-case name holds no upper-case letter and no "_" |
| BackgroundOverlay.ToCssVar | bostami/src/components/BackgroundOverlay.jsx:18-37 | a falsy key gives the primary colour variable, a "#" or "rgb" value is kept, any other string key becomes `var(--color-<kebab-case>)`, known or not; a non-string key throws |
| BackgroundOverlay.SplitCamelNoUpper | bostami/src/components/BackgroundOverlay.jsx:28 | a key without upper-case letters is not split |
| BackgroundOverlay.NormalizeIdempotent | bostami/src/components/BackgroundOverlay.jsx:27-30 | a kebab-case name is its own normal form |
| BackgroundOverlay.SplitCamelAtCapital | bostami/src/components/BackgroundOverlay.jsx:28 | a hyphen goes in before the first capital that follows a lower-case letter |
| BackgroundOverlay.TwoWordKey | bostami/src/components/BackgroundOverlay.jsx:27-33 | a two-word key such as `surfaceMuted` becomes `surface-muted` |
| BackgroundOverlay.ClampDensity | bostami/src/components/BackgroundOverlay.jsx:110 | the density is always in 10..200: 80 when unset or 0, the value itself when in range, 10 below the range and 200 above it |
| BackgroundOverlay.Seed | bostami/src/components/BackgroundOverlay.jsx:111-114 | the seed is positive for every clamped density |
| BackgroundOverlay.DarkSeedDiffers | bostami/src/components/BackgroundOverlay.jsx:114 | the dark seed is the light one plus 44 |
| BackgroundOverlay.DotIdsDistinct | bostami/src/components/BackgroundOverlay.jsx:66 | dots of one layer have different ids |
| BackgroundOverlay.GeneratePositions | bostami/src/components/BackgroundOverlay.jsx:39-83 | exactly `count` dots, dot i with id "<seed>-<i>" |
| BackgroundOverlay.Overlay.constructor | bostami/src/components/BackgroundOverlay.jsx:92 | the layer starts with no dots |
| BackgroundOverlay.Overlay.Refresh | bostami/src/components/BackgroundOverlay.jsx:104-129 | a disabled overlay holds no dots; an enabled one holds the clamped density's worth of dots with the computed seed |
| BackgroundOverlay.RenderAgreesWithDots | bostami/src/components/BackgroundOverlay.jsx:98-133 | the layer renders exactly when the effect counts it enabled |
| PdfPattern.HashOf | bostami/src/pdf/templates/ryancv.js:16-20 | the hash over the text's UTF-16 code units always lies in 0..2147483646 |
| PdfPattern.CharUnits | bostami/src/pdf/templates/ryancv.js:19 | `charCodeAt` reads one code unit below U+10000 for a character there, and otherwise a surrogate pair that encodes the character |
| PdfPattern.CodeUnits | bostami/src/pdf/templates/ryancv.js:18-19 | a text has between one and two code units per character, each below 0x10000 |
| PdfPattern.CodeUnitsOfBasicText | bostami/src/pdf/templates/ryancv.js:18-19 | a text without characters beyond U+FFFF has exactly one code unit per character, its code point |
| PdfPattern.HashUnits | bostami/src/pdf/templates/ryancv.js:16-20 | the hash of any sequence of code units lies in 0..2147483646 |
| PdfPattern.SeedOf | bostami/src/pdf/templates/ryancv.js:21 | the seed is always in 1..2147483646: the hash itself unless it is 0, which gives 1729 |
| PdfPattern.HashStringToSeed | bostami/src/pdf/templates/ryancv.js:16-22 | the loop over the text's UTF-16 code units computes exactly the seed of the text, always in 1..2147483646 |
| PdfPattern.EmptyTextSeed | bostami/src/pdf/templates/ryancv.js:16-21 | the empty text hashes to 0 and so seeds with 1729 |
| PdfPattern.JsRem | bostami/src/pdf/templates/ryancv.js:25 | JavaScript's remainder takes the sign of the dividend and is smaller than the divisor in size, and agrees with the mathematical one for non-negative numbers |
| PdfPattern.InitialState | bostami/src/pdf/templates/ryancv.js:24-28 | the starting state is in 0..2147483646; a positive seed starts in 1..2147483646, and one below 2147483647 starts as itself |
| PdfPattern.UnitBounds | bostami/src/pdf/templates/ryancv.js:32 | a state in range draws a value in [0, 1) |
| PdfPattern.NextStateInvertible | bostami/src/pdf/templates/ryancv.js:31 | multiplying back by the inverse of 16807 recovers the state, so no state in range is sent to 0 |
| PdfPattern.NextStateInRange | bostami/src/pdf/templates/ryancv.js:31 | every step keeps the state in 1..2147483646 |
| PdfPattern.AdvanceInRange | bostami/src/pdf/templates/ryancv.js:30-33 | however many draws are made, the state stays in 1..2147483646 |
| PdfPattern.SeededRandom.constructor | bostami/src/pdf/templates/ryancv.js:24-28 | the generator starts in the initial state of the seed, in range for every positive seed |
| PdfPattern.SeededRandom.Random | bostami/src/pdf/templates/ryancv.js:30-33 | one call advances the state by one step and returns the value drawn from it, in [0, 1) while the state is in range |
| PdfPattern.PaletteColors | bostami/src/pdf/templates/ryancv.js:38 | the palette is never empty: the given colours when there are some, else the template's fallback colour (white for ryancv, slate grey for bostami) |
| PdfPattern.PointAt | bostami/src/pdf/templates/ryancv.js:41-53 | point i takes colour i modulo the palette length |
| PdfPattern.GeneratePointPattern | bostami/src/pdf/templates/ryancv.js:36-57 | the loop makes exactly `count` points, point i being the one drawn from the four draws after the previous point's, coloured by cycling through the palette |
| PdfPattern.SeededPattern | bostami/src/pdf/templates/ryancv.js:510-514 | the pattern seeded by the hash of a text: `count` points, each as `PointAt` from the seed's start, coloured by cycling |
| PdfPattern.PointBounds | bostami/src/pdf/templates/ryancv.js:41-53 | from a state in range every point lies on the template's page, its size is in [3, 3 + the template's spread) (spread 7 for ryancv, 9 for bostami) and its opacity in [0.18, 0.5) |
| PdfPattern.PatternOnPage | bostami/src/pdf/templates/ryancv.js:36-57 | every point of a generated pattern lies on the page with size and opacity in range |
| PdfPattern.FieldBounds | bostami/src/pdf/templates/ryancv.js:42-50 | draws in [0, 1) give a position on the page, a size in [3, 3 + spread) and an opacity in [0.18, 0.5) |
| PdfPattern.DrawInRange | bostami/src/pdf/templates/ryancv.js:30-33 | every draw from a state in range lies in [0, 1) |
| PdfPattern.ColoursCycle | bostami/src/pdf/templates/ryancv.js:44 | points a palette length apart share their colour |
| PdfPattern.PointKeysDistinct | bostami/src/pdf/templates/ryancv.js:47 | points of one pattern have different keys |
| PdfPattern.FilterTruthy | bostami/src/pdf/templates/ryancv.js:501-508 | the filter keeps only truthy entries and the list never grows |
| PdfPattern.FilterTruthyMembers | bostami/src/pdf/templates/ryancv.js:508 | every kept entry comes from the list, and every truthy entry of the list is kept |
| PdfPattern.FilterTruthyAppend | bostami/src/pdf/templates/ryancv.js:508 | filtering a concatenation filters each part |
| PdfPattern.FilterTruthyKeepsTruthy | bostami/src/pdf/templates/ryancv.js:508 | a list without falsy entries passes unchanged |
| PdfPattern.TruthyPrefixLeads | bostami/src/pdf/templates/ryancv.js:501-508 | truthy leading entries and a truthy last entry lead the filtered list, which is longer than that prefix |
| PdfPattern.ThemeVariants | bostami/src/pdf/templates/ryancv.js:485 | the variants are an array's items; a string's variants are its characters as one-character strings; a theme without truthy variants has none |
| PdfPattern.GetVariantChoice | bostami/src/pdf/templates/ryancv.js:488-489 | the variant at the index modulo their number when it is truthy, the fallback otherwise or when there are none |
| RyancvTemplate.ThemeMode | bostami/src/pdf/templates/ryancv.js:472 | the mode is the theme's when truthy, else "light" |
| RyancvTemplate.ThemePalette | bostami/src/pdf/templates/ryancv.js:473-475 | the palette copies the theme's palette object, and is empty without one |
| RyancvTemplate.AdjustedPalette | bostami/src/pdf/templates/ryancv.js:477-483 | background and text are always set; the theme's text is kept; in dark mode the theme's background is kept; every other colour is untouched |
| RyancvTemplate.EnhancedPalette | bostami/src/pdf/templates/ryancv.js:492-497 | the three variant colours are always set, from the variants or their fallbacks, and every other colour is untouched |
| RyancvTemplate.PointCandidates | bostami/src/pdf/templates/ryancv.js:501-507 | six candidate colours, the last being the mode's grey |
| RyancvTemplate.PointColors | bostami/src/pdf/templates/ryancv.js:501-508 | the point colours are truthy, at most six, and always end with the mode's grey |
| RyancvTemplate.DocumentColors | bostami/src/pdf/templates/ryancv.js:473-508 | the document's point colours are never empty, so the fallback colour is never used |
| RyancvTemplate.VariantsLeadPointColors | bostami/src/pdf/templates/ryancv.js:492-508 | with the three variant colours set, the point colours start with them |
| RyancvTemplate.ModeChangesSeedText | bostami/src/pdf/templates/ryancv.js:510-512 | switching the same theme and resume between light and dark changes the text the seed is hashed from |
| RyancvTemplate.PointCount | bostami/src/pdf/templates/ryancv.js:513 | 150 points in dark mode, 120 otherwise |
| RyancvTemplate.DocumentPattern | bostami/src/pdf/templates/ryancv.js:501-514 | the background pattern has the mode's number of points, each drawn from the seed text's hash, coloured by cycling, and lying on the page |
| RyancvTemplate.ListFallback | bostami/src/pdf/templates/ryancv.js:517-531 | a list is read from the preferred key when it holds an array, otherwise from the alternate key, otherwise [] |
| RyancvTemplate.EmptyPreferredListWins | bostami/src/pdf/templates/ryancv.js:517-521 | for any two distinct keys: an empty array under the preferred key still wins, and a null there lets the alternate array through |
| RyancvTemplate.KnowledgeTitle | bostami/src/pdf/templates/ryancv.js:535 | a string entry is kept, anything else gives its `title` |
| RyancvTemplate.Knowledge | bostami/src/pdf/templates/ryancv.js:533-536 | the knowledge list holds only truthy entries, keeps every non-empty string and every truthy title, and is no longer than the entries |
| RyancvTemplate.KnowledgeFromEntries | bostami/src/pdf/templates/ryancv.js:533-536 | every knowledge entry is one of the entries' own strings or titles |
| RyancvTemplate.Lists | bostami/src/pdf/templates/ryancv.js:517-541 | each document list comes from its first key holding an array, with [] otherwise, and knowledge is converted |
| RyancvTemplate.FormatDate | bostami/src/pdf/templates/ryancv.js:544-548 | a falsy date gives "", any other the locale text |
| RyancvTemplate.FormatRange | bostami/src/pdf/templates/ryancv.js:550-560 | a truthy `date` is returned as it is, otherwise the range is text |
| RyancvTemplate.FormatRangeCases | bostami/src/pdf/templates/ryancv.js:550-560 | without a `date`: a current entry ends in "Present", two ends give "start - end", one end gives that end, no dates give "" |
| RyancvTemplate.RangeOfCases | bostami/src/pdf/templates/ryancv.js:550-560 | the same cases stated on the `date`, `start_date`, `end_date` and `current` values themselves |
| RyancvTemplate.Clamp | bostami/src/pdf/templates/ryancv.js:564 | the result is in [0, 100]: the value when in range, else the nearer bound |
| RyancvTemplate.NumberChars | bostami/src/pdf/templates/ryancv.js:575 | only digits and dots are kept, and the text never grows |
| RyancvTemplate.NumberCharsSkipsSuffix | bostami/src/pdf/templates/ryancv.js:575 | a suffix without digits or dots, such as "%", is dropped |
| RyancvTemplate.NumberCharsDropsAll | bostami/src/pdf/templates/ryancv.js:575 | a text without digits and dots keeps nothing |
| RyancvTemplate.RawPercentage | bostami/src/pdf/templates/ryancv.js:566-571 | `percentage` wins when not undefined, then `value`, then `number` |
| RyancvTemplate.ResolvePercentage | bostami/src/pdf/templates/ryancv.js:562-587 | the percentage is always in [0, 100]: a number is clamped; a non-object non-number gives 0; an object's numeric raw value is clamped, a null, missing or object raw value gives 0 and a boolean gives 1 or 0; a string whose digits and dots form a number gives that number clamped (an infinity gives 100 or 0), and one that is NaN both cleaned and whole gives 0 |
| RyancvTemplate.PercentSignIgnored | bostami/src/pdf/templates/ryancv.js:574-579 | a percentage written with "%" resolves like the bare text whenever the digits and dots of that text form a number |
| RyancvTemplate.NumberCharsKeepsDigits | bostami/src/pdf/templates/ryancv.js:575 | a run of digits is kept whole |
| RyancvTemplate.DigitsPercentage | bostami/src/pdf/templates/ryancv.js:566-580 | digits followed by a unit without digits or dots ("85%", "85 pts") resolve to the number the digits spell, clamped to [0, 100] |
| BostamiTemplate.ThemePalette | bostami/src/pdf/templates/bostami.js:587 | the palette is always truthy: the theme's when it has one, else `{}` |
| BostamiTemplate.AccentColors | bostami/src/pdf/templates/bostami.js:589-595 | primary, the three accents and the soft border are always set, each from the palette or variants with its fallback |
| BostamiTemplate.ThemeMode | bostami/src/pdf/templates/bostami.js:596 | the theme's mode when truthy, else the stored value |
| BostamiTemplate.PointCandidates | bostami/src/pdf/templates/bostami.js:598-605 | seven candidates, the last two being the two greys |
| BostamiTemplate.PointColors | bostami/src/pdf/templates/bostami.js:598-606 | the point colours are truthy, two to seven of them, and always end with the two greys |
| BostamiTemplate.PrimaryLeadsPointColors | bostami/src/pdf/templates/bostami.js:598-606 | truthy primary and secondary colours come first |
| BostamiTemplate.UnsetModeSeedsAsLight | bostami/src/pdf/templates/bostami.js:607 | an unset mode seeds the pattern like "light" |
| BostamiTemplate.DocumentPattern | bostami/src/pdf/templates/bostami.js:596-608 | a dark page gets 220 points drawn from the seed text's hash and cycling through the point colours; any other mode gets none |
| ThemeRegistry.JsonValue | bostami/src/themes/index.js:3 | after the JSON round trip, scalars are unchanged, arrays keep their length and objects stay objects |
| ThemeRegistry.JsonFields | bostami/src/themes/index.js:3 | the round trip only drops entries, never adds them |
| ThemeRegistry.Clone | bostami/src/themes/index.js:3 | cloning fails exactly on `undefined` |
| ThemeRegistry.JsonValueKeepsJson | bostami/src/themes/index.js:3 | a JSON value survives the round trip unchanged |
| ThemeRegistry.JsonFieldsKeepJson | bostami/src/themes/index.js:3 | JSON entries survive the round trip unchanged |
| ThemeRegistry.JsonValueIsJson | bostami/src/themes/index.js:3 | whatever goes in, the round trip gives JSON |
| ThemeRegistry.JsonFieldsAreJson | bostami/src/themes/index.js:3 | every entry left after the round trip holds JSON |
| ThemeRegistry.CloneRoundTrip | bostami/src/themes/index.js:3 | a clone of a JSON value is a copy, and cloning a clone changes nothing |
| ThemeRegistry.BostamiTheme | bostami/src/themes/index.js:5-14 | the bostami definition has its id, label and app component, and JSON copies of the default theme, layout and features |
| ThemeRegistry.RyancvTheme | bostami/src/themes/index.js:113-122 | the ryancv definition has its id, label and app component and carries its theme, layout and features |
| ThemeRegistry.GetThemeDefinitionAsWritten | bostami/src/themes/index.js:124-130 | as written, "ryancv" gives its definition, no id or "bostami" the bostami one, and the name of an inherited member gives that member |
| ThemeRegistry.PrototypeNameLeaks | bostami/src/themes/index.js:129-130 | as written, the id "constructor" gives an inherited function, not a theme definition |
| ThemeRegistry.GetThemeDefinition | bostami/src/themes/index.js:124-130 | "ryancv" gives its definition and any other id the bostami one |
| ThemeRegistry.LookupAgrees | bostami/src/themes/index.js:129-130 | the corrected lookup agrees with the as-written one on every id that is not an inherited member's name |
| ThemeRegistry.DefinitionMatchesRequest | bostami/src/themes/index.js:113-130 | the definition found carries its own id as its app component, and is the ryancv one exactly when "ryancv" was asked for |
| PdfDocument.TemplateNamed | bostami/src/pdf/document.js:4-7 | a document exists exactly for "bostami" and "ryancv" |
| PdfDocument.GetDocumentTemplateAsWritten | bostami/src/pdf/document.js:9-10 | as written, "ryancv" gives its document, no id or "bostami" the bostami one, and the name of an inherited member gives that member |
| PdfDocument.PrototypeNameSelectsNoDocument | bostami/src/pdf/document.js:9-10 | as written, a template id of "toString" selects an inherited function, not a document |
| PdfDocument.GetDocumentTemplate | bostami/src/pdf/document.js:4-10 | the ryancv document is chosen exactly for "ryancv", a registered id gives its own document, and there is always a document |
| PdfDocument.LookupAgrees | bostami/src/pdf/document.js:9-10 | the corrected lookup agrees with the as-written one on every id that is not an inherited member's name |
| RyancvApp.AnimationValue | bostami/src/themes/ryancv/RyancvApp.js:17-21 | the resolved animation as an object with its three phases |
| RyancvApp.ResolveAnimation | bostami/src/themes/ryancv/RyancvApp.js:12-22 | a falsy preset gives the fallback; otherwise each phase is the preset's unless it is null or undefined, in which case it is the fallback's |
| RyancvApp.ResolvedPhasesSet | bostami/src/themes/ryancv/RyancvApp.js:12-22 | a fallback with every phase set never leaves a phase unset |
| RyancvApp.CompletePresetWins | bostami/src/themes/ryancv/RyancvApp.js:16-21 | a preset that sets every phase is taken whole |
| RyancvApp.ResolveIdempotent | bostami/src/themes/ryancv/RyancvApp.js:12-22 | resolving a resolved animation against the same complete fallback changes nothing |
| RyancvApp.Length | bostami/src/themes/ryancv/RyancvApp.js:54-56 | the length read is an array's or string's length, and 0 for anything else |
| RyancvApp.ApiOrLocal | bostami/src/themes/ryancv/RyancvApp.js:53-56 | a list with entries from the API wins, otherwise the local list, otherwise [] |
| RyancvApp.EmptyApiListFallsBack | bostami/src/themes/ryancv/RyancvApp.js:53-54 | an empty API list does not hide the local one |
| RyancvApp.Experiences | bostami/src/themes/ryancv/RyancvApp.js:53-54 | the API's experiences when it has some, the local ones otherwise, and never falsy |
| RyancvApp.Skills | bostami/src/themes/ryancv/RyancvApp.js:55-56 | the API's skills when it has some, the local ones otherwise, and never falsy |
| RyancvApp.OrEmpty | bostami/src/themes/ryancv/RyancvApp.js:57-59 | a truthy list is kept, otherwise [] |
| RyancvApp.Socials | bostami/src/themes/ryancv/RyancvApp.js:61-72 | at most the Facebook and LinkedIn links, each present exactly when its address is truthy |
| RyancvApp.Take | bostami/src/themes/ryancv/RyancvApp.js:195 | the slice is the longest prefix within the limit |
| RyancvApp.ShownEntries | bostami/src/themes/ryancv/RyancvApp.js:195-296 | at most 4 experiences, 6 works and 3 posts are shown, each a prefix of its list; a list within its limit is shown whole and a longer one shows exactly its limit |
| RyancvApp.TakeIdempotent | bostami/src/themes/ryancv/RyancvApp.js:195 | taking twice with the same limit takes nothing more |
| RyancvApp.Excerpt | bostami/src/themes/ryancv/RyancvApp.js:313 | a description is cut to its first 120 characters (kept whole when shorter, exactly 120 when longer), an array to its first 120 entries, a missing one gives nothing, and a description that cannot be sliced throws |

## Left out

- HTTP traffic and the libraries that make it are not modelled: `requests`, the provider's SDK, `fetch` and axios. Provider answers are inputs: a request is rejected exactly when its position in the trace is among the `rejected` ones. The read-modify-write race on the tunnel configuration and retries are operational concerns, so they are not modelled either.
- The Django ORM, `login`, `create_user`, `set_password`, JWT issuance and the token HMACs (`check_token`, `make_token`, `_make_hash_value`) are not modelled. Token validity and uid decoding are parameters, and the database is a class whose rows are values.
- CvViews.Database.Signup: the rows the default-data seeding (django-admin/cv_builder/views.py:136-253) would add are not modelled. As written, the seeding passes `bg` and `des` to `WhatIDo`, which has neither field, so every signup that passes the guards and the DNS request raises a TypeError once the user and the public resume exist; `SignupAsWritten` models that outcome and the Findings table records it. `Signup` and `CvViews.Database.CreateAccount` model the signup as intended.
- E-mail rendering, templating and sending are I/O. Only the links the e-mails carry are modelled.
- React rendering and effect scheduling, the DOM, styles, toasts, scrolling, timers and analytics logging are not modelled. The handlers are modelled by what they pass to `onChange` or `setValue`, or by the state they set.
- Browser storage that throws is not modelled (auth.js, consentManager.js). Storage is a map from key to text.
- Date parsing and locale formatting (`new Date`, `toLocaleDateString`, `strftime`) are formatter and parser parameters. "YYYY-MM" dates compare as year·12 + month.
- The clock (`timezone.now()`) and `secrets.token_urlsafe` are parameters.
- Floating point is not modelled. Numbers are exact reals, and `Math.round(x)` is floor(x + 1/2). NaN is an absent number; the infinities appear only where `Number(...)` reads "Infinity" from a string.
- The places, point sizes and opacities of the PDF patterns are modelled as exact reals (`PdfPattern.PointFrom`); only the rounding of the draws and of their products to doubles is not. The sine-based dot places of the overlay are not modelled; its counts, seeds and ids are.
- `String(...)` conversions of arbitrary values are parameters where the code applies them to non-strings. `Number(...)` is modelled in full (`StepUtils.ToNumber`).
- StepUtils.StringToNumber: strings are parsed in full (signs, decimals, exponents, 0x/0o/0b literals, "Infinity"), but only ASCII white space is trimmed, and numeric separators and the rounding of long decimals to doubles are not modelled.
- Case mapping and whitespace are ASCII-only. Unicode case folding is not modelled.
- Deep copies are modelled as values, so aliasing between a copy and its source is not modelled.
- The order of `Object.entries` is the order of the association list.
- ColorPopover.ContrastStatusOf: the WCAG contrast ratio is floating point and is a parameter. Only the thresholds applied to it are modelled.
- AllData.FilterByTag: the contract states which items are kept, not their order. The body is an order-preserving filter.
- AllData.RefreshedMode: only the mode that `refreshConfig` chooses and the configuration it resolves are modelled. Its state updates are not: the configuration, the API data, the loading and error flags, and the one-second minimum delay.
- ThemeRegistry.RyancvTheme: the literal contents of the "ryancv" theme configuration are parameters. Only its identity and its resolved shape are modelled.
- ThemePresets.PresetBase: the palettes and texts of the four presets are not modelled, only their ids and the modes they take.
- ResumeDefaults.MergeResumeDefaults: built on the corrected `ThemePresets.MergeThemeDefaults`. A loaded resume whose theme is null makes the source's theme normalisation throw; `ResumeDefaults.MergeResumeDefaultsNullThemeAsWritten` models that, and the Findings table records it.
- ConsentStore.Store.SetAllConsent: takes the preferences as an object's entries, so `setAllConsent(null)` or `setAllConsent(undefined)`, where `Object.entries` throws, the handler catches it and the call returns false (consentManager.js:65-77), is not expressible.
- ThemeStep.PresetValues: built on the corrected `ThemePresets.GetPresetConfig`. A theme id or mode named after an inherited object member (such as "constructor") throws in the source instead of giving no preset; `ThemePresets.ClonePresetConfigAsWritten` models that, and the Findings table records it.
- ThemeStep.ThemePicker.ApplyPreset: "an unknown preset changes nothing" holds for the corrected lookup; a stored inherited-name id throws in the source.
- ThemeStep.ThemePicker.ModeChange: re-applying a stored inherited-name id throws in the source; the model uses the corrected lookup and changes nothing.
- PdfPattern.ThemeVariants: an object with its own `length` and index keys is read as having no variants, and a string's characters beyond U+FFFF count as one variant each, where the source indexes UTF-16 code units.
- ApiConfig.Subdomain: the hostname parsing after the unconditional `return "demo"` is unreachable and is not modelled.
- TagsInput.HandleKeyDown: the arrow keys only move keyboard focus between tags, so the model leaves them without effect.
- BostamiTemplate's accent colours appear only in styles. The model keeps the colours the pattern uses.
- The Lehmer generator started at -2147483646 stays at state 0. The hashed seeds are at least 1, so no caller reaches it, and no property of it is claimed.
- The signup DNS call is recorded with its answer given as a parameter (`dnsAccepted`).
- The outcome of `FileReader` in the resume form is a parameter (`avatar`).
- StepUtils.DateArg: a truthy date that is not a string (a number or a `Date`) reads as empty. The source tests such a value against the two patterns as text and hands it to `new Date` (tovo-node-16/src/components/onboarding/stepUtils.js:84-120), so 2020 gives "1970-01-01" and an invalid date is returned as it is. The forms and the resume hold dates as strings.
- EntryChecks.Missing: a truthy value that is not a string counts as present; the source calls `.trim()` on it and throws (tovo-node-16/src/components/onboarding/ExperienceStep.jsx:277-284). Form fields are strings.
- SkillsStep.TitleToken: a truthy title that is not a string is skipped; the source calls `.toLowerCase()` on it and throws (tovo-node-16/src/components/onboarding/SkillsStep.jsx:453-454).
- SkillsStep.KeywordToken: a truthy keyword that is not a string is skipped; the source calls `.trim()` on it and throws (tovo-node-16/src/components/onboarding/SkillsStep.jsx:489-490).
- ResumeForm.KnowledgeValues: takes the keyword rows as a list. The source calls `values.knowledge.map` with no fallback (tovo-node-16/src/components/ResumeForm.jsx:178), so a form whose `knowledge` is not an array throws; the form's defaults always make it one.
- BackgroundOverlay.ClampDensity: the density is an optional integer. In the source `overlayDensity || 80` (bostami/src/components/BackgroundOverlay.jsx:110) also maps NaN, "" and false to 80, and a fractional density passes through unrounded.
- RyancvApp.Excerpt: counts characters where `slice` counts UTF-16 code units, so a description with characters beyond U+FFFF is cut at another place.
- AuthStore.TokenStore.Valid: assumes that nothing but the store writes the two storage keys; another tab or script changing them is not modelled.
- Serializers, admin classes, pages and components that only issue network calls or render are not part of this model.

## Findings

| source | as written | input that shows it | evidently intended | confidence | as-written member | corrected member |
|---|---|---|---|---|---|---|
| django-admin/cv_builder/views.py:41-51 | `filter(...).first()` returns None for an unknown subdomain, and `resume.id` then raises AttributeError, which the `DoesNotExist` handler does not catch | a comment posted for a subdomain that no resume has | answer 404 "resume not found" | not executed | CvViews.CreateCommentAsWrittenNever404 | CvViews.CreateCommentUnknownIs404 |
| tovo-node-16/src/utils/themePresets.js:514-516 | `mergeThemeDefaults` reads `merged.theme.availableThemes` after a `theme: null` has replaced the default theme | a loaded resume whose `theme` (or `config.theme`) is null, as the onboarding page and the resume form pass it on | treat a null theme like a missing one and keep the defaults | not executed | ThemePresets.MergeThemeDefaultsAsWrittenNullTheme | ThemePresets.MergeThemeDefaultsAgrees |
| tovo-node-16/src/utils/translations.js:56-58 | `translations[key] \|\| key` also finds keys inherited from `Object.prototype` | `t("toString")` yields a function, not "toString" | only the table's own keys translate; others fall back to the key | not executed | Translations.TAsWrittenToString | Translations.TAgrees |
| bostami/src/themes/index.js:129-130 | `themes[id] \|\| themes.bostami` also finds keys inherited from `Object.prototype` | `getThemeDefinition("constructor")` yields `Object`, not the bostami theme | only the registry's own ids select a theme; others fall back to "bostami" | not executed | ThemeRegistry.PrototypeNameLeaks | ThemeRegistry.LookupAgrees |
| bostami/src/pdf/document.js:9-10 | `templates[id] \|\| templates.bostami` also finds keys inherited from `Object.prototype` | `getDocumentTemplate("toString")` yields a function, not a document | only the two template ids select a document; others fall back to "bostami" | not executed | PdfDocument.PrototypeNameSelectsNoDocument | PdfDocument.LookupAgrees |
| django-admin/cv_builder/views.py:240-253 | `__create_what_i_dos` passes `bg=` and `des=` to `WhatIDo`, whose model defines only `title` and `description`, so the create raises TypeError after the user and the public resume are saved | any signup that passes the guards and whose DNS request is accepted | seed the default rows with the model's own fields, make the private copy and answer 200 | not executed | CvViews.Database.SignupAsWritten | CvViews.Database.Signup |
| tovo-node-16/src/utils/themePresets.js:466-478 | `THEME_PRESETS[themeId]` and `preset.modes[mode]` are plain property reads, so names every object inherits are found too and the clone then throws | `getPresetConfig("constructor", "light")` throws a TypeError instead of returning null | only the presets' own ids and modes select a preset; any other gives null | not executed | ThemePresets.PresetIdConstructorThrows | ThemePresets.PresetLookupAgrees |
