/**
 * Publishing a tenant's hostname through the DNS/tunnel provider
 * (django-admin/cv_builder/utils.py): a proxied CNAME record, an ingress rule
 * in the remote-managed tunnel and an Access application.
 *
 * The provider is a value passed from call to call. Every request is appended
 * to `trace`; request number n (its position in the trace) is answered with an
 * error status exactly when n is in `rejected`, which is how `raise_for_status`
 * failures enter the model. A rejected request changes nothing remotely.
 */
module CfPublishing {
  import opened Wrappers

  /** An ingress rule; a key absent from the JSON object is `None`. */
  datatype Rule = Rule(hostname: Option<string>, path: Option<string>, service: Option<string>, extra: map<string, string>)

  /** The tunnel configuration object: its "ingress" list and every other key, kept opaque. */
  datatype TunnelConfig = TunnelConfig(ingress: Option<seq<Rule>>, others: map<string, string>)

  datatype DnsRecord = DnsRecord(id: nat, content: string, proxied: Option<bool>)

  /** The JSON body of a DNS create or update. */
  datatype DnsBody = DnsBody(recordType: string, name: string, content: string, proxied: bool)

  datatype AccessApp = AccessApp(name: string, domain: string, appType: string, sessionDuration: string, launcherVisible: bool)

  datatype Request =
    | ListDns(recordType: string, name: string)
    | UpdateDns(id: nat, body: DnsBody)
    | CreateDns(body: DnsBody)
    | GetTunnelConfig
    | PutTunnelConfig(config: TunnelConfig)
    | CreateAccessApp(app: AccessApp)

  datatype Provider = Provider(
    dns: map<(string, string), DnsRecord>,
    tunnel: Option<TunnelConfig>,
    apps: map<nat, AccessApp>,
    nextId: nat,
    trace: seq<Request>,
    rejected: set<nat>)

  /** The provider's state after a step, and the step's result or the request that failed. */
  datatype Outcome<T> = Outcome(provider: Provider, result: Result<T, Request>)

  const CatchAll404: Rule := Rule(None, None, Some("http_status:404"), map[])

  const DefaultServiceUrl: string := "http://localhost:3001"

  predicate IsWrite(r: Request) {
    r.UpdateDns? || r.CreateDns? || r.PutTunnelConfig? || r.CreateAccessApp?
  }

  /** Sends one request: it is recorded, and it takes effect unless the provider rejects it. */
  function Send(p: Provider, r: Request): (out: (Provider, bool))
    ensures out.0.trace == p.trace + [r]
    ensures out.0.rejected == p.rejected
    ensures out.1 <==> |p.trace| !in p.rejected
    ensures !out.1 || !IsWrite(r) ==> out.0 == p.(trace := p.trace + [r])
  {
    var p' := p.(trace := p.trace + [r]);
    if |p.trace| in p.rejected then (p', false)
    else
      match r
      case UpdateDns(id, b) =>
        (p'.(dns := p.dns[(b.recordType, b.name) := DnsRecord(id, b.content, Some(b.proxied))]), true)
      case CreateDns(b) =>
        (p'.(dns := p.dns[(b.recordType, b.name) := DnsRecord(p.nextId, b.content, Some(b.proxied))], nextId := p.nextId + 1), true)
      case PutTunnelConfig(c) =>
        (p'.(tunnel := Some(c)), true)
      case CreateAccessApp(app) =>
        (p'.(apps := p.apps[p.nextId := app], nextId := p.nextId + 1), true)
      case _ => (p', true)
  }

  /** `f"{subdomain}.{domain}"` */
  function Hostname(subdomain: string, domain: string): (h: string)
    ensures |h| == |subdomain| + 1 + |domain|
    ensures h[..|subdomain|] == subdomain && h[|subdomain|] == '.' && h[|subdomain| + 1..] == domain
  {
    subdomain + "." + domain
  }

  /** Within one domain, distinct subdomains publish distinct hostnames. */
  lemma HostnameInjective(a: string, b: string, domain: string)
    requires Hostname(a, domain) == Hostname(b, domain)
    ensures a == b
  {
    var h := Hostname(a, domain);
    assert |a| == |b|;
    assert a == h[..|a|] == b;
  }

  function CnameTarget(tunnelUuid: string): string {
    tunnelUuid + ".cfargotunnel.com"
  }

  function CnameBody(hostname: string, tunnelUuid: string): DnsBody {
    DnsBody("CNAME", hostname, CnameTarget(tunnelUuid), true)
  }

  /** A DNS record needs no write when it points at the target and is not explicitly unproxied. */
  predicate UpToDate(rec: DnsRecord, target: string) {
    rec.content == target && rec.proxied != Some(false)
  }

  /** `_ensure_dns_cname`: list the CNAME for `hostname`, then create it, update it or leave it. */
  function EnsureDnsCname(p: Provider, hostname: string, tunnelUuid: string): (out: Outcome<()>)
    ensures out.provider.rejected == p.rejected
    ensures out.provider.tunnel == p.tunnel && out.provider.apps == p.apps
  {
    var key := ("CNAME", hostname);
    var list := ListDns("CNAME", hostname);
    var (p1, ok) := Send(p, list);
    if !ok then Outcome(p1, Failure(list))
    else if key in p1.dns then
      var rec := p1.dns[key];
      if !UpToDate(rec, CnameTarget(tunnelUuid)) then
        var upd := UpdateDns(rec.id, CnameBody(hostname, tunnelUuid));
        var (p2, ok2) := Send(p1, upd);
        Outcome(p2, if ok2 then Success(()) else Failure(upd))
      else Outcome(p1, Success(()))
    else
      var crt := CreateDns(CnameBody(hostname, tunnelUuid));
      var (p2, ok2) := Send(p1, crt);
      Outcome(p2, if ok2 then Success(()) else Failure(crt))
  }

  /**
   * The three decisions of the DNS upsert: with no record one create is sent, with an
   * up-to-date record nothing is written, otherwise one update goes to the same record id.
   */
  lemma EnsureDnsCnameDecision(p: Provider, hostname: string, tunnelUuid: string)
    requires |p.trace| !in p.rejected
    ensures var out := EnsureDnsCname(p, hostname, tunnelUuid);
            var key := ("CNAME", hostname);
            var body := CnameBody(hostname, tunnelUuid);
            && (key !in p.dns ==> out.provider.trace == p.trace + [ListDns("CNAME", hostname), CreateDns(body)])
            && (key in p.dns && UpToDate(p.dns[key], CnameTarget(tunnelUuid)) ==>
                  out.provider == p.(trace := p.trace + [ListDns("CNAME", hostname)]) && out.result.Success?)
            && (key in p.dns && !UpToDate(p.dns[key], CnameTarget(tunnelUuid)) ==>
                  out.provider.trace == p.trace + [ListDns("CNAME", hostname), UpdateDns(p.dns[key].id, body)])
  {
  }

  /** A failed listing stops the upsert before any write. */
  lemma EnsureDnsCnameListFailure(p: Provider, hostname: string, tunnelUuid: string)
    requires |p.trace| in p.rejected
    ensures var out := EnsureDnsCname(p, hostname, tunnelUuid);
            out.provider == p.(trace := p.trace + [ListDns("CNAME", hostname)]) && out.result.Failure?
  {
  }

  /** After a successful upsert the record exists, points at the tunnel and is proxied. */
  lemma EnsureDnsCnameEstablishes(p: Provider, hostname: string, tunnelUuid: string)
    requires EnsureDnsCname(p, hostname, tunnelUuid).result.Success?
    ensures var dns := EnsureDnsCname(p, hostname, tunnelUuid).provider.dns;
            ("CNAME", hostname) in dns && UpToDate(dns[("CNAME", hostname)], CnameTarget(tunnelUuid))
  {
  }

  /** The upsert is idempotent: once it succeeded, running it again writes nothing. */
  lemma EnsureDnsCnameIdempotent(p: Provider, hostname: string, tunnelUuid: string)
    requires EnsureDnsCname(p, hostname, tunnelUuid).result.Success?
    ensures var p1 := EnsureDnsCname(p, hostname, tunnelUuid).provider;
            var p2 := EnsureDnsCname(p1, hostname, tunnelUuid).provider;
            p2.dns == p1.dns && p2.nextId == p1.nextId && p2.trace == p1.trace + [ListDns("CNAME", hostname)]
  {
    EnsureDnsCnameEstablishes(p, hostname, tunnelUuid);
  }

  predicate IsCatchAll(r: Rule) {
    r.hostname.None? && r.path.None?
  }

  /** The index of the first rule for `hostname`, as the `for` loop finds it. */
  function FirstForHost(rules: seq<Rule>, hostname: string): (r: Option<nat>)
    ensures r.Some? ==> r.value < |rules| && rules[r.value].hostname == Some(hostname)
    ensures r.Some? ==> forall j :: 0 <= j < r.value ==> rules[j].hostname != Some(hostname)
    ensures r.None? ==> forall j :: 0 <= j < |rules| ==> rules[j].hostname != Some(hostname)
  {
    if rules == [] then None
    else if rules[0].hostname == Some(hostname) then Some(0)
    else match FirstForHost(rules[1..], hostname)
      case None => None
      case Some(i) => Some(i + 1)
  }

  /** The index of the first catch-all rule (neither "hostname" nor "path"), as `next(...)` finds it. */
  function FirstCatchAll(rules: seq<Rule>): (r: Option<nat>)
    ensures r.Some? ==> r.value < |rules| && IsCatchAll(rules[r.value])
    ensures r.Some? ==> forall j :: 0 <= j < r.value ==> !IsCatchAll(rules[j])
    ensures r.None? ==> forall j :: 0 <= j < |rules| ==> !IsCatchAll(rules[j])
  {
    if rules == [] then None
    else if IsCatchAll(rules[0]) then Some(0)
    else match FirstCatchAll(rules[1..])
      case None => None
      case Some(i) => Some(i + 1)
  }

  lemma {:induction false} FirstForHostAt(rules: seq<Rule>, hostname: string, i: nat)
    requires i < |rules| && rules[i].hostname == Some(hostname)
    requires forall j :: 0 <= j < i ==> rules[j].hostname != Some(hostname)
    ensures FirstForHost(rules, hostname) == Some(i)
  {
    if i > 0 {
      FirstForHostAt(rules[1..], hostname, i - 1);
    }
  }

  function NewRule(hostname: string, service: string): Rule {
    Rule(Some(hostname), None, Some(service), map[])
  }

  /**
   * The ingress list `_add_public_hostname_to_tunnel` writes back, or `None`
   * when it returns without writing.
   */
  function IngressPatch(rules: seq<Rule>, hostname: string, service: string): (r: Option<seq<Rule>>)
    ensures r.None? ==> FirstForHost(rules, hostname).Some?
    ensures r.Some? ==> |rules| <= |r.value| <= |rules| + 2
    ensures r.Some? ==> forall j :: 0 <= j < |rules| && Some(j) != FirstForHost(rules, hostname) ==> rules[j] in r.value
  {
    match FirstForHost(rules, hostname)
    case Some(i) =>
      if rules[i].service != Some(service) then
        var patched := rules[i := rules[i].(service := Some(service))];
        assert forall j :: 0 <= j < |rules| && j != i ==> patched[j] == rules[j];
        Some(patched)
      else None
    case None =>
      match FirstCatchAll(rules)
      case None =>
        var appended := rules + [NewRule(hostname, service), CatchAll404];
        assert forall j :: 0 <= j < |rules| ==> appended[j] == rules[j];
        Some(appended)
      case Some(k) =>
        var inserted := rules[..k] + [NewRule(hostname, service)] + rules[k..];
        assert forall j :: 0 <= j < k ==> inserted[j] == rules[j];
        assert forall j :: k <= j < |rules| ==> inserted[j + 1] == rules[j];
        Some(inserted)
  }

  /** Nothing is written exactly when the first rule for the hostname already has the service. */
  lemma IngressPatchNoWrite(rules: seq<Rule>, hostname: string, service: string)
    ensures IngressPatch(rules, hostname, service).None? <==>
      exists i :: 0 <= i < |rules| && rules[i].hostname == Some(hostname) && rules[i].service == Some(service)
        && (forall j :: 0 <= j < i ==> rules[j].hostname != Some(hostname))
  {
    var f := FirstForHost(rules, hostname);
    if IngressPatch(rules, hostname, service).None? {
      assert f.Some?;
      var i := f.value;
      assert rules[i].service == Some(service);
    }
  }

  /** A first rule for the hostname with another service: only its service changes. */
  lemma IngressPatchUpdate(rules: seq<Rule>, hostname: string, service: string, i: nat)
    requires i < |rules| && rules[i].hostname == Some(hostname) && rules[i].service != Some(service)
    requires forall j :: 0 <= j < i ==> rules[j].hostname != Some(hostname)
    ensures var r := IngressPatch(rules, hostname, service);
            && r.Some? && |r.value| == |rules|
            && r.value[i] == rules[i].(service := Some(service))
            && (forall j :: 0 <= j < |rules| && j != i ==> r.value[j] == rules[j])
  {
    var f := FirstForHost(rules, hostname);
    assert f == Some(i);
  }

  /** No rule for the hostname and a catch-all at k: the new rule goes right before it. */
  lemma IngressPatchInsert(rules: seq<Rule>, hostname: string, service: string, k: nat)
    requires forall j :: 0 <= j < |rules| ==> rules[j].hostname != Some(hostname)
    requires k < |rules| && IsCatchAll(rules[k])
    requires forall j :: 0 <= j < k ==> !IsCatchAll(rules[j])
    ensures var r := IngressPatch(rules, hostname, service);
            && r.Some? && |r.value| == |rules| + 1
            && r.value[k] == NewRule(hostname, service)
            && (forall j :: 0 <= j < k ==> r.value[j] == rules[j])
            && (forall j :: k < j <= |rules| ==> r.value[j] == rules[j - 1])
  {
    assert FirstCatchAll(rules) == Some(k);
  }

  /** No rule for the hostname and no catch-all: the new rule and a 404 catch-all are appended. */
  lemma IngressPatchAppend(rules: seq<Rule>, hostname: string, service: string)
    requires forall j :: 0 <= j < |rules| ==> rules[j].hostname != Some(hostname)
    requires forall j :: 0 <= j < |rules| ==> !IsCatchAll(rules[j])
    ensures var r := IngressPatch(rules, hostname, service);
            && r == Some(rules + [NewRule(hostname, service), CatchAll404])
            && (forall j :: 0 <= j < |r.value| ==> (IsCatchAll(r.value[j]) <==> j == |r.value| - 1))
  {
  }

  /** The patched list routes the hostname, through its first rule for it, to the service. */
  lemma IngressPatchRoutes(rules: seq<Rule>, hostname: string, service: string)
    requires IngressPatch(rules, hostname, service).Some?
    ensures var r := IngressPatch(rules, hostname, service).value;
            var f := FirstForHost(r, hostname);
            f.Some? && r[f.value].service == Some(service)
  {
    var r := IngressPatch(rules, hostname, service).value;
    match FirstForHost(rules, hostname)
    case Some(i) =>
      FirstForHostAt(r, hostname, i);
    case None =>
      match FirstCatchAll(rules)
      case None =>
        FirstForHostAt(r, hostname, |rules|);
      case Some(k) =>
        FirstForHostAt(r, hostname, k);
  }

  /** Patching is idempotent: a second patch with the same arguments writes nothing. */
  lemma IngressPatchIdempotent(rules: seq<Rule>, hostname: string, service: string)
    requires IngressPatch(rules, hostname, service).Some?
    ensures IngressPatch(IngressPatch(rules, hostname, service).value, hostname, service).None?
  {
    IngressPatchRoutes(rules, hostname, service);
  }

  /**
   * The `for ... else` loop of `_add_public_hostname_to_tunnel` on a private copy of the
   * list: returns whether the configuration must be written, and the list to write.
   */
  method PatchIngress(ingress: seq<Rule>, hostname: string, service: string) returns (write: bool, rules: seq<Rule>)
    ensures write <==> IngressPatch(ingress, hostname, service).Some?
    ensures write ==> rules == IngressPatch(ingress, hostname, service).value
    ensures !write ==> rules == ingress
  {
    rules := ingress;
    var i := 0;
    while i < |rules|
      invariant 0 <= i <= |rules| && rules == ingress
      invariant forall j :: 0 <= j < i ==> ingress[j].hostname != Some(hostname)
    {
      if rules[i].hostname == Some(hostname) {
        assert FirstForHost(ingress, hostname) == Some(i);
        if rules[i].service != Some(service) {
          rules := rules[i := rules[i].(service := Some(service))];
          return true, rules;
        } else {
          return false, rules;
        }
      }
      i := i + 1;
    }
    var k := 0;
    while k < |rules| && !IsCatchAll(rules[k])
      invariant 0 <= k <= |rules|
      invariant forall j :: 0 <= j < k ==> !IsCatchAll(rules[j])
    {
      k := k + 1;
    }
    var rule := NewRule(hostname, service);
    if k == |rules| {
      rules := rules + [rule];
      rules := rules + [CatchAll404];
    } else {
      assert FirstCatchAll(ingress) == Some(k);
      rules := rules[..k] + [rule] + rules[k..];
    }
    write := true;
  }

  const EmptyConfig: TunnelConfig := TunnelConfig(None, map[])

  /** `_add_public_hostname_to_tunnel` as a step on the provider. */
  function AddPublicHostname(p: Provider, hostname: string, service: string): (out: Outcome<()>)
    ensures out.provider.dns == p.dns && out.provider.apps == p.apps && out.provider.nextId == p.nextId
    ensures out.provider.rejected == p.rejected
  {
    var (p1, ok) := Send(p, GetTunnelConfig);
    if !ok then Outcome(p1, Failure(GetTunnelConfig))
    else
      var config := p.tunnel.GetOr(EmptyConfig);
      match IngressPatch(config.ingress.GetOr([]), hostname, service)
      case None => Outcome(p1, Success(()))
      case Some(rules) =>
        var put := PutTunnelConfig(config.(ingress := Some(rules)));
        var (p2, ok2) := Send(p1, put);
        Outcome(p2, if ok2 then Success(()) else Failure(put))
  }

  /** The imperative form: read, patch with the loop above, write the whole config back. */
  method AddPublicHostnameToTunnel(p: Provider, hostname: string, service: string) returns (out: Outcome<()>)
    ensures out == AddPublicHostname(p, hostname, service)
  {
    var (p1, ok) := Send(p, GetTunnelConfig);
    if !ok {
      return Outcome(p1, Failure(GetTunnelConfig));
    }
    var config := p.tunnel.GetOr(EmptyConfig);
    var ingress := config.ingress.GetOr([]);
    var write, rules := PatchIngress(ingress, hostname, service);
    if !write {
      return Outcome(p1, Success(()));
    }
    config := config.(ingress := Some(rules));
    var put := PutTunnelConfig(config);
    var (p2, ok2) := Send(p1, put);
    out := Outcome(p2, if ok2 then Success(()) else Failure(put));
  }

  /**
   * The written configuration keeps every key but "ingress", and the write is a single
   * request; a configuration that is missing at any level counts as an empty rule list.
   */
  lemma AddPublicHostnameWritesConfig(p: Provider, hostname: string, service: string)
    requires |p.trace| !in p.rejected
    ensures var out := AddPublicHostname(p, hostname, service);
            var config := p.tunnel.GetOr(EmptyConfig);
            var patch := IngressPatch(config.ingress.GetOr([]), hostname, service);
            && (patch.None? ==> out.provider == p.(trace := p.trace + [GetTunnelConfig]) && out.result.Success?)
            && (patch.Some? ==> out.provider.trace == p.trace + [GetTunnelConfig, PutTunnelConfig(TunnelConfig(Some(patch.value), config.others))])
            && (p.tunnel.None? ==> patch == Some([NewRule(hostname, service), CatchAll404]))
  {
    var config := p.tunnel.GetOr(EmptyConfig);
    if p.tunnel.None? {
      assert [] + [NewRule(hostname, service), CatchAll404] == [NewRule(hostname, service), CatchAll404];
    }
  }

  /**
   * After a successful tunnel step the tunnel's configuration routes the hostname, through
   * its first rule for it, to the service, whether the step wrote or found it so already.
   */
  lemma AddPublicHostnameRoutes(p: Provider, hostname: string, service: string)
    requires AddPublicHostname(p, hostname, service).result.Success?
    ensures var t := AddPublicHostname(p, hostname, service).provider.tunnel;
            && t.Some? && t.value.ingress.Some?
            && var f := FirstForHost(t.value.ingress.value, hostname);
               f.Some? && t.value.ingress.value[f.value].service == Some(service)
  {
    var config := p.tunnel.GetOr(EmptyConfig);
    var rules := config.ingress.GetOr([]);
    if IngressPatch(rules, hostname, service).Some? {
      IngressPatchRoutes(rules, hostname, service);
    } else {
      assert rules != [];
    }
  }

  /** `_create_access_app`: always a create, never an existence check; returns the new app's id. */
  function CreateAccessAppFor(p: Provider, hostname: string): (out: Outcome<nat>)
    ensures out.provider.dns == p.dns && out.provider.tunnel == p.tunnel
    ensures out.provider.trace == p.trace + [CreateAccessApp(AccessApp(hostname, hostname, "self_hosted", "24h", true))]
    ensures out.result.Success? ==> out.result.value == p.nextId && out.provider.apps == p.apps[p.nextId := AccessApp(hostname, hostname, "self_hosted", "24h", true)]
    ensures out.result.Failure? ==> out.provider.apps == p.apps
  {
    var req := CreateAccessApp(AccessApp(hostname, hostname, "self_hosted", "24h", true));
    var (p1, ok) := Send(p, req);
    Outcome(p1, if ok then Success(p.nextId) else Failure(req))
  }

  /** The published route: the hostname and the id of its Access application. */
  datatype Route = Route(hostname: string, accessAppId: nat)

  /** `create_published_app_route`: DNS, then ingress, then the Access app; a failure stops the rest. */
  function PublishRoute(p: Provider, subdomain: string, domain: string, tunnelId: string, service: string): (out: Outcome<Route>)
    ensures out.result.Success? ==> out.result.value.hostname == Hostname(subdomain, domain)
    ensures EnsureDnsCname(p, Hostname(subdomain, domain), tunnelId).result.Failure? ==> out.result.Failure?
  {
    var hostname := Hostname(subdomain, domain);
    var dns := EnsureDnsCname(p, hostname, tunnelId);
    if dns.result.Failure? then Outcome(dns.provider, Failure(dns.result.error))
    else
      var ingress := AddPublicHostname(dns.provider, hostname, service);
      if ingress.result.Failure? then Outcome(ingress.provider, Failure(ingress.result.error))
      else
        var app := CreateAccessAppFor(ingress.provider, hostname);
        if app.result.Failure? then Outcome(app.provider, Failure(app.result.error))
        else Outcome(app.provider, Success(Route(hostname, app.result.value)))
  }

  /** `create_published_app_route` called without `service_url`, which defaults to the local app. */
  function PublishDefaultRoute(p: Provider, subdomain: string, domain: string, tunnelId: string): (out: Outcome<Route>)
    ensures out.result.Success? ==>
      && out.provider.tunnel.Some? && out.provider.tunnel.value.ingress.Some?
      && var rules := out.provider.tunnel.value.ingress.value;
         var f := FirstForHost(rules, Hostname(subdomain, domain));
         f.Some? && rules[f.value].service == Some("http://localhost:3001")
  {
    var out := PublishRoute(p, subdomain, domain, tunnelId, DefaultServiceUrl);
    if out.result.Success? then
      PublishRouteResult(p, subdomain, domain, tunnelId, DefaultServiceUrl);
      out
    else out
  }

  /** The step a request belongs to: 0 for DNS, 1 for the tunnel, 2 for Access. */
  function Phase(r: Request): nat {
    match r
    case ListDns(_, _) => 0
    case UpdateDns(_, _) => 0
    case CreateDns(_) => 0
    case GetTunnelConfig => 1
    case PutTunnelConfig(_) => 1
    case CreateAccessApp(_) => 2
  }

  predicate PhasesBelow(rs: seq<Request>, n: nat) {
    forall i :: 0 <= i < |rs| ==> Phase(rs[i]) < n
  }

  predicate PhasesOrdered(rs: seq<Request>) {
    forall i, j :: 0 <= i < j < |rs| ==> Phase(rs[i]) <= Phase(rs[j])
  }

  lemma EnsureDnsCnameTrace(p: Provider, hostname: string, tunnelUuid: string)
    ensures var t := EnsureDnsCname(p, hostname, tunnelUuid).provider.trace;
            |t| >= |p.trace| && t[..|p.trace|] == p.trace && PhasesBelow(t[|p.trace|..], 1)
  {
  }

  lemma AddPublicHostnameTrace(p: Provider, hostname: string, service: string)
    ensures var out := AddPublicHostname(p, hostname, service);
            var t := out.provider.trace;
            |t| >= |p.trace| && t[..|p.trace|] == p.trace
            && (forall i :: |p.trace| <= i < |t| ==> Phase(t[i]) == 1)
            && (out.result.Failure? ==> Phase(out.result.error) == 1)
  {
  }

  /** DNS requests, then tunnel requests, then Access requests make an ordered trace. */
  lemma OrderedSegments(d: seq<Request>, g: seq<Request>, a: seq<Request>)
    requires PhasesBelow(d, 1)
    requires forall i :: 0 <= i < |g| ==> Phase(g[i]) == 1
    requires forall i :: 0 <= i < |a| ==> Phase(a[i]) == 2
    ensures PhasesOrdered(d + g + a) && PhasesBelow(d + g, 2)
  {
    var s := d + g + a;
    forall i, j | 0 <= i < j < |s| ensures Phase(s[i]) <= Phase(s[j]) {
      if i < |d| {
        assert s[i] == d[i];
      } else if i < |d| + |g| {
        assert s[i] == g[i - |d|];
        if j < |d| + |g| {
          assert s[j] == g[j - |d|];
        } else {
          assert s[j] == a[j - |d| - |g|];
        }
      } else {
        assert s[i] == a[i - |d| - |g|] && s[j] == a[j - |d| - |g|];
      }
    }
    forall i | 0 <= i < |d + g| ensures Phase((d + g)[i]) < 2 {
      if i < |d| {
        assert (d + g)[i] == d[i];
      } else {
        assert (d + g)[i] == g[i - |d|];
      }
    }
  }

  /** The order a pipeline outcome's trace must have after the requests in `before`. */
  predicate OrderedAfter(before: seq<Request>, out: Outcome<Route>) {
    var t := out.provider.trace;
    && |t| >= |before| && t[..|before|] == before
    && PhasesOrdered(t[|before|..])
    && (out.result.Failure? && Phase(out.result.error) == 0 ==> PhasesBelow(t[|before|..], 1))
    && (out.result.Failure? && Phase(out.result.error) == 1 ==> PhasesBelow(t[|before|..], 2))
  }

  /** A trace made of the earlier requests, then DNS, tunnel and Access requests, has that order. */
  lemma OrderedAfterSegments(before: seq<Request>, d: seq<Request>, g: seq<Request>, a: seq<Request>, out: Outcome<Route>)
    requires out.provider.trace == before + d + g + a
    requires PhasesBelow(d, 1)
    requires forall i :: 0 <= i < |g| ==> Phase(g[i]) == 1
    requires forall i :: 0 <= i < |a| ==> Phase(a[i]) == 2
    requires out.result.Failure? && Phase(out.result.error) == 0 ==> g == [] && a == []
    requires out.result.Failure? && Phase(out.result.error) == 1 ==> a == []
    ensures OrderedAfter(before, out)
  {
    var t := out.provider.trace;
    assert t[..|before|] == before;
    assert t[|before|..] == d + g + a;
    OrderedSegments(d, g, a);
    OrderedSegments(d, [], []);
    assert d + [] + [] == d;
    assert d + g + [] == d + g;
  }

  /**
   * The pipeline's requests come in the order DNS, tunnel, Access; a failed DNS step
   * sends no tunnel or Access request, a failed tunnel step no Access request.
   */
  lemma {:induction false} PublishRouteOrder(p: Provider, subdomain: string, domain: string, tunnelId: string, service: string)
    ensures var out := PublishRoute(p, subdomain, domain, tunnelId, service);
            var t := out.provider.trace;
            && |t| >= |p.trace| && t[..|p.trace|] == p.trace
            && PhasesOrdered(t[|p.trace|..])
            && (out.result.Failure? && Phase(out.result.error) == 0 ==> PhasesBelow(t[|p.trace|..], 1))
            && (out.result.Failure? && Phase(out.result.error) == 1 ==> PhasesBelow(t[|p.trace|..], 2))
  {
    var out := PublishRoute(p, subdomain, domain, tunnelId, service);
    var base := |p.trace|;
    var hostname := Hostname(subdomain, domain);
    var dns := EnsureDnsCname(p, hostname, tunnelId);
    EnsureDnsCnameTrace(p, hostname, tunnelId);
    var t1 := dns.provider.trace;
    var d := t1[base..];
    assert t1 == p.trace + d;
    if dns.result.Failure? {
      OrderedAfterSegments(p.trace, d, [], [], out);
      return;
    }
    var ingress := AddPublicHostname(dns.provider, hostname, service);
    AddPublicHostnameTrace(dns.provider, hostname, service);
    var t2 := ingress.provider.trace;
    var g := t2[|t1|..];
    assert t2 == t1 + g;
    if ingress.result.Failure? {
      OrderedAfterSegments(p.trace, d, g, [], out);
      return;
    }
    var a := [CreateAccessApp(AccessApp(hostname, hostname, "self_hosted", "24h", true))];
    OrderedAfterSegments(p.trace, d, g, a, out);
  }

  /**
   * A successful pipeline returns the hostname, leaves its CNAME pointing at the tunnel,
   * routes it in the tunnel's ingress to the service, and registers its Access app under
   * the returned id.
   */
  lemma PublishRouteResult(p: Provider, subdomain: string, domain: string, tunnelId: string, service: string)
    requires PublishRoute(p, subdomain, domain, tunnelId, service).result.Success?
    ensures var out := PublishRoute(p, subdomain, domain, tunnelId, service);
            var h := Hostname(subdomain, domain);
            && out.result.value.hostname == h
            && out.provider.apps[out.result.value.accessAppId] == AccessApp(h, h, "self_hosted", "24h", true)
            && ("CNAME", h) in out.provider.dns && UpToDate(out.provider.dns[("CNAME", h)], CnameTarget(tunnelId))
            && out.provider.tunnel.Some? && out.provider.tunnel.value.ingress.Some?
            && var rules := out.provider.tunnel.value.ingress.value;
               FirstForHost(rules, h).Some? && rules[FirstForHost(rules, h).value].service == Some(service)
  {
    var h := Hostname(subdomain, domain);
    EnsureDnsCnameEstablishes(p, h, tunnelId);
    AddPublicHostnameRoutes(EnsureDnsCname(p, h, tunnelId).provider, h, service);
  }
}
