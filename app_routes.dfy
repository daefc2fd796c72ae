/**
 * The routing decisions of the application shell: the effect that keeps a
 * signed-in user inside the resume pages, and the guard of a private route.
 */
module AppRoutes {
  import opened Wrappers
  import opened Text

  const AllowedPrefixes: seq<string> := ["/my-resume", "/onboarding/resume"]

  /** The page a signed-in user is sent to from anywhere else. */
  const Home: string := "/my-resume"

  /** The sign-in page. */
  const SignIn: string := "/auth/signin"

  /** `pathname === prefix || pathname.startsWith(prefix + "/")` */
  predicate UnderPrefix(pathname: string, prefix: string) {
    pathname == prefix || StartsWith(pathname, prefix + "/")
  }

  /** `allowedPrefixes.some(...)` over the prefixes from index `i` on. */
  function SomeAllowed(pathname: string, i: nat): (r: bool)
    requires i <= |AllowedPrefixes|
    ensures r <==> exists j :: i <= j < |AllowedPrefixes| && UnderPrefix(pathname, AllowedPrefixes[j])
    decreases |AllowedPrefixes| - i
  {
    if i == |AllowedPrefixes| then false
    else UnderPrefix(pathname, AllowedPrefixes[i]) || SomeAllowed(pathname, i + 1)
  }

  predicate IsAllowed(pathname: string) {
    SomeAllowed(pathname, 0)
  }

  /** The effect's `history.replace` target, if it makes one. */
  function RedirectTarget(isAuthenticated: bool, pathname: string): (r: Option<string>)
    ensures !isAuthenticated ==> r == None
    ensures isAuthenticated ==> (r == None <==> IsAllowed(pathname))
    ensures r.Some? ==> r.value == Home
  {
    if !isAuthenticated then None
    else if IsAllowed(pathname) then None
    else Some(Home)
  }

  /** The redirect target is itself allowed, so the effect never redirects twice in a row. */
  lemma RedirectSettles(pathname: string)
    ensures RedirectTarget(true, Home) == None
    ensures var r := RedirectTarget(true, pathname); r.Some? ==> RedirectTarget(true, r.value) == None
  {
    assert UnderPrefix(Home, AllowedPrefixes[0]);
  }

  /** A path that continues a prefix with anything but "/" (such as "/my-resumes") is not under any prefix. */
  lemma PrefixNeedsSlash(prefix: string, rest: string)
    requires prefix in AllowedPrefixes && rest != [] && rest[0] != '/'
    ensures !IsAllowed(prefix + rest)
  {
    var path := prefix + rest;
    assert path[|prefix|] == rest[0];
    assert path[1] == prefix[1];
    forall j | 0 <= j < |AllowedPrefixes|
      ensures !UnderPrefix(path, AllowedPrefixes[j])
    {
      var other := AllowedPrefixes[j];
      if other != prefix {
        assert other[1] != prefix[1];
      }
    }
  }

  /** Every sub-page of a prefix, "/my-resume/edit" say, is allowed. */
  lemma SubPagesAllowed(prefix: string, rest: string)
    requires prefix in AllowedPrefixes
    ensures IsAllowed(prefix + "/" + rest)
  {
    var path := prefix + "/" + rest;
    assert path[..|prefix + "/"|] == prefix + "/";
    var j :| 0 <= j < |AllowedPrefixes| && AllowedPrefixes[j] == prefix;
    assert UnderPrefix(path, AllowedPrefixes[j]);
  }

  /** What a private route renders. */
  datatype RouteOutcome =
    | Nothing                          // `null` while the session is loading
    | RedirectToSignIn(from: string)   // `<Redirect to={{ pathname: "/auth/signin", state: { from } }} />`
    | Render                           // the protected page

  /** `PrivateRoute`'s render callback, for the location the user asked for. */
  function PrivateRoute(initializing: bool, isAuthenticated: bool, location: string): (r: RouteOutcome)
    ensures initializing <==> r == Nothing
    ensures !initializing && !isAuthenticated ==> r == RedirectToSignIn(location)
    ensures r == Render <==> !initializing && isAuthenticated
  {
    if initializing then Nothing
    else if !isAuthenticated then RedirectToSignIn(location)
    else Render
  }
}
