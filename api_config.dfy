/**
 * How the resume site builds the address of the backend: the configured base
 * address without trailing slashes (or the local default), request paths
 * joined to it with exactly one "/" at the seam, and tenant paths with the
 * subdomain filled in.
 */
module ApiConfig {
  import opened Wrappers
  import opened Text

  /** The address used when no base address is configured. */
  const DefaultBaseUrl: string := "http://localhost:8000"

  /** The placeholder a tenant path template carries for the subdomain. */
  const SubdomainPlaceholder: string := ":subdomain"

  /** `normalizeBaseUrl(value)`: no value or "" gives ""; otherwise every trailing "/" is removed. */
  function NormalizeBaseUrl(value: Option<string>): (r: string)
    ensures value.None? ==> r == ""
    ensures value.Some? ==> |r| <= |value.value| && r == value.value[..|r|]
    ensures value.Some? ==> forall i :: |r| <= i < |value.value| ==> value.value[i] == '/'
    ensures r == [] || r[|r| - 1] != '/'
  {
    if value.None? || value.value == "" then "" else StripRight(value.value, '/')
  }

  /** Normalising twice changes nothing more. */
  lemma NormalizeIdempotent(value: Option<string>)
    ensures NormalizeBaseUrl(Some(NormalizeBaseUrl(value))) == NormalizeBaseUrl(value)
  {
  }

  /** Appending a slash to the configured value makes no difference. */
  lemma {:induction false} TrailingSlashIgnored(value: string)
    ensures NormalizeBaseUrl(Some(value + "/")) == NormalizeBaseUrl(Some(value))
  {
    assert (value + "/")[..|value + "/"| - 1] == value;
  }

  /** `API_BASE_URL`: the normalised configured value, or the default when that is "". */
  function ApiBaseUrl(env: Option<string>): (r: string)
    ensures r != [] && r[|r| - 1] != '/'
    ensures NormalizeBaseUrl(env) == "" ==> r == DefaultBaseUrl
    ensures NormalizeBaseUrl(env) != "" ==> r == NormalizeBaseUrl(env)
  {
    var normalized := NormalizeBaseUrl(env);
    if normalized == "" then DefaultBaseUrl else normalized
  }

  /** A base address made only of slashes falls back to the default. */
  lemma OnlySlashesGiveDefault(env: string)
    requires forall i :: 0 <= i < |env| ==> env[i] == '/'
    ensures ApiBaseUrl(Some(env)) == DefaultBaseUrl
  {
  }

  /** `buildApiUrl(path)`: no path gives the base; otherwise the path, with "/" put in front when it has none. */
  function BuildApiUrl(base: string, path: string): (r: string)
    ensures path == "" ==> r == base
    ensures path != "" && StartsWith(path, "/") ==> r == base + path
    ensures path != "" && !StartsWith(path, "/") ==> r == base + "/" + path
  {
    if path == "" then base
    else if StartsWith(path, "/") then base + path
    else base + "/" + path
  }

  /**
   * With a base that has no trailing slash, every request address is the
   * base, then exactly one "/", then the path without its leading "/".
   */
  lemma OneSlashAtSeam(env: Option<string>, path: string)
    requires path != ""
    ensures var base := ApiBaseUrl(env);
      var r := BuildApiUrl(base, path);
      |r| > |base| && r[..|base|] == base && r[|base|] == '/' && base[|base| - 1] != '/'
      && r[|base| + 1..] == (if StartsWith(path, "/") then path[1..] else path)
  {
    var base := ApiBaseUrl(env);
    if StartsWith(path, "/") {
      assert (base + path)[|base| + 1..] == path[1..];
    } else {
      assert (base + "/" + path)[|base| + 1..] == path;
    }
  }

  /** A path given with or without its leading slash leads to the same address. */
  lemma LeadingSlashOptional(base: string, path: string)
    requires path != "" && !StartsWith(path, "/")
    ensures BuildApiUrl(base, "/" + path) == BuildApiUrl(base, path)
  {
    assert StartsWith("/" + path, "/");
  }

  /** `getSubdomain()`: it returns "demo" before any of the hostname parsing runs. */
  function Subdomain(): (r: string)
    ensures r == "demo"
  {
    "demo"
  }

  /** What `fetchTenantJson` is given to build its path from. */
  datatype PathBuilder = Builder(build: string -> string) | Template(template: string)

  /** The path `fetchTenantJson` requests: a builder is called with the subdomain; a template has its first placeholder replaced. */
  function TenantPath(pathBuilder: PathBuilder): (r: string)
    ensures pathBuilder.Builder? ==> r == pathBuilder.build(Subdomain())
    ensures pathBuilder.Template? && !Contains(pathBuilder.template, SubdomainPlaceholder) ==> r == pathBuilder.template
  {
    match pathBuilder
    case Builder(build) => build(Subdomain())
    case Template(template) => ReplaceFirst(template, SubdomainPlaceholder, Subdomain())
  }

  /** Replacement skips a prefix in which the placeholder's first character does not occur. */
  lemma {:induction false} ReplaceFirstSkipsPrefix(pre: string, rest: string, pattern: string, replacement: string)
    requires pattern != []
    requires forall i :: 0 <= i < |pre| ==> pre[i] != pattern[0]
    ensures ReplaceFirst(pre + rest, pattern, replacement) == pre + ReplaceFirst(rest, pattern, replacement)
    decreases |pre|
  {
    if pre != [] {
      var s := pre + rest;
      assert s[0] == pre[0];
      if |s| >= |pattern| {
        assert s[..|pattern|][0] != pattern[0];
      }
      assert s[1..] == pre[1..] + rest;
      ReplaceFirstSkipsPrefix(pre[1..], rest, pattern, replacement);
      if |s| < |pattern| {
        assert |rest| < |pattern|;
        assert ReplaceFirst(rest, pattern, replacement) == rest;
      } else {
        assert s[..|pattern|] != pattern;
        assert ReplaceFirst(s, pattern, replacement) == [pre[0]] + (pre[1..] + ReplaceFirst(rest, pattern, replacement));
        assert [pre[0]] + pre[1..] == pre;
      }
    } else {
      assert pre + rest == rest;
    }
  }

  /**
   * A template "<pre>:subdomain<post>" whose prefix has no ":" becomes
   * "<pre>demo<post>": the first placeholder is the one replaced.
   */
  lemma TenantTemplate(pre: string, post: string)
    requires forall i :: 0 <= i < |pre| ==> pre[i] != ':'
    ensures TenantPath(Template(pre + SubdomainPlaceholder + post)) == pre + Subdomain() + post
  {
    ReplaceFirstSkipsPrefix(pre, SubdomainPlaceholder + post, SubdomainPlaceholder, Subdomain());
    var rest := SubdomainPlaceholder + post;
    assert rest[..|SubdomainPlaceholder|] == SubdomainPlaceholder;
    assert rest[|SubdomainPlaceholder|..] == post;
    assert pre + SubdomainPlaceholder + post == pre + rest;
  }
}
