/** Validate: every section is checked, every problem is listed, and the list is empty exactly when
    the configuration meets the conditions stated here section by section. */
module Validation {
  import opened GoStrings
  import opened Config

  /** `at` is the position in the list the field belongs to, 0 for a plain field. */
  datatype Problem = Problem(field: string, at: nat)

  function Unless(ok: bool, field: string): (r: seq<Problem>)
    ensures r == [] <==> ok
  {
    if ok then [] else [Problem(field, 0)]
  }

  /* ---- what a value must look like ---- */

  function ParsePositiveDuration(lib: Library, raw: string): (r: Option<int>)
    ensures r.Some? ==> r.value > 0
  {
    if IsBlank(raw) then None
    else
      var d := lib.parseDuration(raw);
      if d.None? || d.value <= 0 then None else d
  }

  predicate IsPositive(lib: Library, raw: string) {
    ParsePositiveDuration(lib, raw).Some?
  }

  predicate ValidUrl(lib: Library, raw: string) {
    var u := lib.parseUrl(raw);
    u.Some? && u.value.scheme != "" && ToLower(u.value.scheme) in ["http", "https", "ws", "wss", "stdio"]
  }

  predicate ValidLlmsTxtUri(lib: Library, raw: string, requireHttps: bool) {
    var u := lib.parseUrl(raw);
    && u.Some? && u.value.scheme != ""
    && (var scheme := ToLower(u.value.scheme); scheme == "https" || (!requireHttps && scheme == "http"))
    && !IsBlank(u.value.host)
    && (HasSuffix(ToLower(u.value.path), "/llms.txt") || EqualFold(TrimSpace(u.value.path), "llms.txt"))
  }

  predicate IsRoute(s: string) {
    HasPrefix(s, "/")
  }

  predicate IsSeverity(s: string) {
    ToLower(s) in ["info", "warning", "error", "critical", "warn"]
  }

  function Folded(s: string): string {
    ToLower(TrimSpace(s))
  }

  /** Each format is one of the allowed ones, and none is given twice, as `fold` reads them. */
  predicate FoldedOk(formats: seq<string>, allowed: seq<string>, fold: string -> string) {
    && (forall i :: 0 <= i < |formats| ==> fold(formats[i]) in allowed)
    && (forall i, j :: 0 <= i < j < |formats| ==> fold(formats[i]) != fold(formats[j]))
  }

  /** However they are spelled. */
  predicate FormatsOk(formats: seq<string>, allowed: seq<string>) {
    FoldedOk(formats, allowed, s => Folded(s))
  }

  /* ---- sections ---- */

  predicate ServiceOk(lib: Library, s: Service) {
    && ToLower(s.mode) in ["foreground", "background", "headless"]
    && ToLower(s.efficiencyProfile) in ["auto", "low", "medium", "high"]
    && ToLower(s.logLevel) in ["debug", "info", "warn", "error"]
    && IsPositive(lib, s.pollInterval) && IsPositive(lib, s.timeout)
    && 1 <= s.maxWorkers <= 2048
  }

  method ValidateService(lib: Library, s: Service) returns (problems: seq<Problem>)
    ensures problems == [] <==> ServiceOk(lib, s)
  {
    problems := Unless(ToLower(s.mode) in ["foreground", "background", "headless"], "service.mode");
    problems := problems + Unless(ToLower(s.efficiencyProfile) in ["auto", "low", "medium", "high"], "service.efficiency_profile");
    problems := problems + Unless(ToLower(s.logLevel) in ["debug", "info", "warn", "error"], "service.log_level");
    problems := problems + Unless(IsPositive(lib, s.pollInterval), "service.poll_interval");
    problems := problems + Unless(IsPositive(lib, s.timeout), "service.timeout");
    if s.maxWorkers <= 0 || s.maxWorkers > 2048 {
      problems := problems + [Problem("service.max_workers", 0)];
    }
  }

  predicate HealthOk(lib: Library, h: Health) {
    h.enabled ==>
      && h.listenAddr != "" && lib.splitsHostPort(h.listenAddr)
      && IsRoute(h.healthz) && IsRoute(h.readyz) && IsRoute(h.status) && IsPositive(lib, h.isotopeTtl)
  }

  method ValidateHealth(lib: Library, h: Health) returns (problems: seq<Problem>)
    ensures problems == [] <==> HealthOk(lib, h)
  {
    if !h.enabled { return []; }
    if h.listenAddr == "" {
      problems := [Problem("health.listen_addr", 0)];
    } else {
      problems := Unless(lib.splitsHostPort(h.listenAddr), "health.listen_addr");
    }
    problems := problems + Unless(IsRoute(h.healthz), "health.endpoints.healthz");
    problems := problems + Unless(IsRoute(h.readyz), "health.endpoints.readyz");
    problems := problems + Unless(IsRoute(h.status), "health.endpoints.status");
    problems := problems + Unless(IsPositive(lib, h.isotopeTtl), "health.isotope_ttl");
  }

  predicate TrustOk(lib: Library, t: Trust) {
    && (forall cluster :: cluster in t.clusters ==> !IsBlank(cluster) && !IsBlank(t.clusters[cluster]))
    && (t.roots != map[] ==> lib.parsesRoots(t.roots))
  }

  method ValidateTrust(lib: Library, t: Trust) returns (problems: seq<Problem>)
    ensures problems == [] <==> TrustOk(lib, t)
  {
    problems := ValidateClusters(t.clusters, s => IsBlank(s));
    if |t.roots| > 0 {
      problems := problems + Unless(lib.parsesRoots(t.roots), "trust.roots");
    }
  }

  method ValidateClusters(clusters: map<string, string>, blank: string -> bool) returns (problems: seq<Problem>)
    ensures problems == [] <==> forall cluster :: cluster in clusters ==> !blank(cluster) && !blank(clusters[cluster])
  {
    problems := [];
    var left := clusters.Keys;
    while left != {}
      invariant left <= clusters.Keys
      invariant problems == [] <==> forall cluster :: cluster in clusters.Keys - left ==> !blank(cluster) && !blank(clusters[cluster])
      decreases left
    {
      var cluster :| cluster in left;
      ghost var was := left;
      left := left - {cluster};
      assert clusters.Keys - left == clusters.Keys - was + {cluster};
      problems := problems + Unless(!blank(cluster), "trust.clusters");
      problems := problems + Unless(!blank(clusters[cluster]), "trust.clusters." + cluster);
    }
    assert clusters.Keys - left == clusters.Keys;
  }

  predicate DiscoveryOk(lib: Library, d: Discovery) {
    d.enabled ==>
      && IsPositive(lib, d.interval)
      && (forall i :: 0 <= i < |d.scanPorts| ==> 1 <= d.scanPorts[i] <= 65535)
      && (forall i :: 0 <= i < |d.catalogUrls| ==> ValidUrl(lib, d.catalogUrls[i]))
      && (d.llmsTxt.enabled ==> LlmsTxtOk(lib, d.llmsTxt))
  }

  predicate LlmsTxtOk(lib: Library, l: LlmsTxt) {
    && IsPositive(lib, l.fetchTimeout)
    && (forall i :: 0 <= i < |l.remoteUris| ==> !IsBlank(l.remoteUris[i]) && ValidLlmsTxtUri(lib, l.remoteUris[i], l.requireHttps))
    && (l.autoRegisterOAuth ==> l.autoRegisterAsTargets)
  }

  method ValidateDiscovery(lib: Library, d: Discovery) returns (problems: seq<Problem>)
    ensures problems == [] <==> DiscoveryOk(lib, d)
  {
    if !d.enabled { return []; }
    problems := Unless(IsPositive(lib, d.interval), "discovery.interval");
    for i := 0 to |d.scanPorts|
      invariant problems == [] <==> IsPositive(lib, d.interval) && forall j :: 0 <= j < i ==> 1 <= d.scanPorts[j] <= 65535
    {
      var p := d.scanPorts[i];
      if p < 1 || p > 65535 {
        problems := problems + [Problem("discovery.local_proxy_scan.ports", i)];
      }
    }
    ghost var soFar := problems == [];
    for i := 0 to |d.catalogUrls|
      invariant problems == [] <==> soFar && forall j :: 0 <= j < i ==> ValidUrl(lib, d.catalogUrls[j])
    {
      problems := problems + Unless(ValidUrl(lib, d.catalogUrls[i]), "discovery.cloud_catalog.urls");
    }
    if d.llmsTxt.enabled {
      var more := ValidateLlmsTxt(lib, d.llmsTxt);
      problems := problems + more;
    }
  }

  method ValidateLlmsTxt(lib: Library, l: LlmsTxt) returns (problems: seq<Problem>)
    ensures problems == [] <==> LlmsTxtOk(lib, l)
  {
    problems := Unless(IsPositive(lib, l.fetchTimeout), "discovery.llms_txt.fetch_timeout");
    for i := 0 to |l.remoteUris|
      invariant problems == [] <==>
                && IsPositive(lib, l.fetchTimeout)
                && forall j :: 0 <= j < i ==> !IsBlank(l.remoteUris[j]) && ValidLlmsTxtUri(lib, l.remoteUris[j], l.requireHttps)
    {
      if IsBlank(l.remoteUris[i]) {
        problems := problems + [Problem("discovery.llms_txt.remote_uris", i)];
        continue;
      }
      problems := problems + Unless(ValidLlmsTxtUri(lib, l.remoteUris[i], l.requireHttps), "discovery.llms_txt.remote_uris");
    }
    if l.autoRegisterOAuth && !l.autoRegisterAsTargets {
      problems := problems + [Problem("discovery.llms_txt.auto_register_oauth", 0)];
    }
  }

  predicate AlertsOk(lib: Library, a: Alerts) {
    && IsPositive(lib, a.dedupeWindow) && IsPositive(lib, a.cooldown) && a.retryBeforeEscalation >= 0
    && IsSeverity(a.healthy) && IsSeverity(a.degraded) && IsSeverity(a.regression) && IsSeverity(a.outage)
  }

  method ValidateAlerts(lib: Library, a: Alerts) returns (problems: seq<Problem>)
    ensures problems == [] <==> AlertsOk(lib, a)
  {
    problems := Unless(IsPositive(lib, a.dedupeWindow), "alerts.dedupe_window");
    problems := problems + Unless(IsPositive(lib, a.cooldown), "alerts.cooldown");
    if a.retryBeforeEscalation < 0 {
      problems := problems + [Problem("alerts.retry_before_escalation", 0)];
    }
    ghost var soFar := problems == [];
    var severities := [a.healthy, a.degraded, a.regression, a.outage];
    for i := 0 to 4
      invariant problems == [] <==> soFar && forall j :: 0 <= j < i ==> IsSeverity(severities[j])
    {
      var norm := ToLower(severities[i]);
      if norm == "warn" {
        norm := "warning";
      }
      problems := problems + Unless(norm in ["info", "warning", "error", "critical"], "alerts.severity");
    }
    assert severities[0] == a.healthy && severities[1] == a.degraded && severities[2] == a.regression && severities[3] == a.outage;
  }

  predicate AuthOk(lib: Library, a: Auth) {
    && ToLower(a.keystoreProvider) in ["auto", "keychain", "secretservice", "file"]
    && (a.redactionEnabled ==> a.redactionMask != "")
    && (a.oauthEnabled ==> IsPositive(lib, a.tokenGracePeriod))
    && (a.mockEnabled ==> lib.splitsHostPort(a.mockListenAddr) && IsRoute(a.mockPath) && Folded(a.mockMode) in ["allow", "fail"])
  }

  method ValidateAuth(lib: Library, a: Auth) returns (problems: seq<Problem>)
    ensures problems == [] <==> AuthOk(lib, a)
  {
    problems := Unless(ToLower(a.keystoreProvider) in ["auto", "keychain", "secretservice", "file"], "auth.keystore.provider");
    if a.redactionEnabled && a.redactionMask == "" {
      problems := problems + [Problem("auth.redaction.mask", 0)];
    }
    if a.oauthEnabled {
      problems := problems + Unless(IsPositive(lib, a.tokenGracePeriod), "auth.oauth.token_grace_period");
    }
    if a.mockEnabled {
      problems := problems + Unless(lib.splitsHostPort(a.mockListenAddr), "auth.oauth.mock_redirect.listen_addr");
      problems := problems + Unless(IsRoute(a.mockPath), "auth.oauth.mock_redirect.path");
      problems := problems + Unless(Folded(a.mockMode) in ["allow", "fail"], "auth.oauth.mock_redirect.mode");
    }
  }

  predicate KnownStateOk(k: KnownState) {
    k.enabled ==> k.sustainSuccess >= 1 && k.outageThreshold >= 1 && ToLower(k.classifyAs) in ["regression", "outage"]
  }

  predicate MetaOk(m: MetaConfig) {
    m.enabled ==> m.outputDir != "" && FormatsOk(m.formats, ["yaml", "json"])
  }

  /** One more format, read through `fold`. */
  lemma FormatsStep(formats: seq<string>, allowed: seq<string>, fold: string -> string, n: nat)
    requires n < |formats|
    ensures FoldedOk(formats[..n + 1], allowed, fold) <==>
              && FoldedOk(formats[..n], allowed, fold) && fold(formats[n]) in allowed
              && forall i :: 0 <= i < n ==> fold(formats[i]) != fold(formats[n])
  {
    var now, before := formats[..n + 1], formats[..n];
    assert now[n] == formats[n];
    assert forall i :: 0 <= i < n ==> now[i] == before[i] == formats[i];
  }

  /** The loop over meta_config.formats: an unsupported format is remembered too. */
  method ValidateMetaFormats(formats: seq<string>, allowed: seq<string>, fold: string -> string) returns (problems: seq<Problem>)
    ensures problems == [] <==> FoldedOk(formats, allowed, fold)
  {
    problems := [];
    var seen: set<string> := {};
    for i := 0 to |formats|
      invariant problems == [] <==> FoldedOk(formats[..i], allowed, fold)
      invariant forall f :: f in seen <==> exists j :: 0 <= j < i && fold(formats[j]) == f
    {
      FormatsStep(formats, allowed, fold, i);
      var f := fold(formats[i]);
      if f !in allowed {
        problems := problems + [Problem("meta_config.formats unsupported", i)];
      }
      if f in seen {
        problems := problems + [Problem("meta_config.formats duplicate", i)];
      }
      seen := seen + {f};
    }
    assert formats[..|formats|] == formats;
  }

  method ValidateMeta(m: MetaConfig) returns (problems: seq<Problem>)
    ensures problems == [] <==> MetaOk(m)
  {
    if !m.enabled { return []; }
    var formats := ValidateMetaFormats(m.formats, ["yaml", "json"], f => Folded(f));
    problems := Unless(m.outputDir != "", "meta_config.output_dir") + formats;
  }

  predicate RemoteOk(lib: Library, r: RemoteAgent) {
    r.managedUpdates ==>
      && (r.controlEndpoint != "" ==> ValidUrl(lib, r.controlEndpoint)) && IsPositive(lib, r.maxWaitForHealthy)
      && (r.requireLock ==> IsPositive(lib, r.lockTtl))
  }

  method ValidateKnownStateAndRemote(lib: Library, k: KnownState, r: RemoteAgent) returns (problems: seq<Problem>)
    ensures problems == [] <==> KnownStateOk(k) && RemoteOk(lib, r)
  {
    problems := [];
    if k.enabled {
      problems := problems + Unless(k.sustainSuccess >= 1, "known_state.sustain_success_before_mark_healthy");
      problems := problems + Unless(k.outageThreshold >= 1, "known_state.outage_threshold_consecutive_failures");
      problems := problems + Unless(ToLower(k.classifyAs) in ["regression", "outage"], "known_state.classify_new_failures_after_healthy_as");
    }
    if r.managedUpdates {
      if r.controlEndpoint != "" {
        problems := problems + Unless(ValidUrl(lib, r.controlEndpoint), "remote_agent.control_endpoint");
      }
      problems := problems + Unless(IsPositive(lib, r.maxWaitForHealthy), "remote_agent.update.max_wait_for_healthy");
      if r.requireLock {
        problems := problems + Unless(IsPositive(lib, r.lockTtl), "remote_agent.safety.lock_ttl");
      }
    }
  }

  predicate HostedOk(lib: Library, h: Hosted) {
    h.enabled ==>
      && lib.splitsHostPort(h.listenAddr)
      && (forall i :: 0 <= i < |h.transports| ==> Folded(h.transports[i]) in ["http", "sse"])
      && (forall i :: 0 <= i < |h.protocols| ==> Folded(h.protocols[i]) in ["mcp", "acp", "a2a"])
      && IsRoute(h.mcp) && IsRoute(h.acp) && IsRoute(h.a2a)
  }

  lemma RouteNotBlank(s: string)
    requires IsRoute(s)
    ensures !IsBlank(s)
  {
    var lo, hi := TrimSlice(s, IsSpace);
    assert s[0] == '/' && !IsSpace('/');
  }

  method ValidateHosted(lib: Library, h: Hosted) returns (problems: seq<Problem>)
    ensures problems == [] <==> HostedOk(lib, h)
  {
    if !h.enabled { return []; }
    problems := Unless(lib.splitsHostPort(h.listenAddr), "hosted.listen_addr");
    for i := 0 to |h.transports|
      invariant problems == [] <==> lib.splitsHostPort(h.listenAddr) && forall j :: 0 <= j < i ==> Folded(h.transports[j]) in ["http", "sse"]
    {
      problems := problems + Unless(Folded(h.transports[i]) in ["http", "sse"], "hosted.transports");
    }
    ghost var soFar := problems == [];
    for i := 0 to |h.protocols|
      invariant problems == [] <==> soFar && forall j :: 0 <= j < i ==> Folded(h.protocols[j]) in ["mcp", "acp", "a2a"]
    {
      problems := problems + Unless(Folded(h.protocols[i]) in ["mcp", "acp", "a2a"], "hosted.protocols");
    }
    var a := ValidateRoute(h.mcp, "hosted.endpoints.mcp");
    var b := ValidateRoute(h.acp, "hosted.endpoints.acp");
    var c := ValidateRoute(h.a2a, "hosted.endpoints.a2a");
    problems := problems + a + b + c;
  }

  method ValidateRoute(route: string, field: string) returns (problems: seq<Problem>)
    ensures problems == [] <==> IsRoute(route)
  {
    if IsRoute(route) { RouteNotBlank(route); }
    if IsBlank(route) { return [Problem(field, 0)]; }
    problems := Unless(HasPrefix(route, "/"), field);
  }

  predicate DynamicOk(d: DynamicConfig) {
    d.enabled ==> !IsBlank(d.directory) && IsRoute(d.serveBaseUrl) && FormatsOk(d.formats, ["json", "markdown"])
  }

  /** The loop over dynamic_config.formats: a format with a problem is not remembered. */
  method ValidateDynamicFormats(formats: seq<string>, allowed: seq<string>, fold: string -> string) returns (problems: seq<Problem>)
    ensures problems == [] <==> FoldedOk(formats, allowed, fold)
  {
    problems := [];
    var seen: set<string> := {};
    for i := 0 to |formats|
      invariant problems == [] <==> FoldedOk(formats[..i], allowed, fold)
      invariant problems == [] ==> forall f :: f in seen <==> exists j :: 0 <= j < i && fold(formats[j]) == f
    {
      FormatsStep(formats, allowed, fold, i);
      var f := fold(formats[i]);
      if f !in allowed {
        problems := problems + [Problem("dynamic_config.formats unsupported", i)];
        continue;
      }
      if f in seen {
        problems := problems + [Problem("dynamic_config.formats duplicate", i)];
        continue;
      }
      seen := seen + {f};
    }
    assert formats[..|formats|] == formats;
  }

  method ValidateDynamic(d: DynamicConfig) returns (problems: seq<Problem>)
    ensures problems == [] <==> DynamicOk(d)
  {
    if !d.enabled { return []; }
    var base := ValidateRoute(d.serveBaseUrl, "dynamic_config.serve_base_url");
    var formats := ValidateDynamicFormats(d.formats, ["json", "markdown"], f => Folded(f));
    problems := Unless(!IsBlank(d.directory), "dynamic_config.directory") + base + formats;
  }

  predicate FederationPortsOk(f: Federation) {
    1 <= f.basePort <= f.maxPort <= 65535
  }

  predicate FederationOk(lib: Library, f: Federation) {
    f.enabled ==>
      && FederationPortsOk(f)
      && IsPositive(lib, f.pollInterval) && IsPositive(lib, f.reportInterval) && f.downstream == []
      && IsPositive(lib, f.announceInterval) && IsPositive(lib, f.heartbeatInterval) && IsPositive(lib, f.heartbeatTimeout)
  }

  method ValidateFederation(lib: Library, f: Federation) returns (problems: seq<Problem>)
    ensures problems == [] <==> FederationOk(lib, f)
  {
    if !f.enabled { return []; }
    problems := Unless(!(f.basePort < 1 || f.basePort > 65535), "federation.base_port");
    problems := problems + Unless(!(f.maxPort < f.basePort || f.maxPort > 65535), "federation.max_port");
    problems := problems + Unless(IsPositive(lib, f.pollInterval), "federation.poll_interval");
    problems := problems + Unless(IsPositive(lib, f.reportInterval), "federation.report_interval");
    if |f.downstream| > 0 {
      problems := problems + [Problem("federation.downstream", 0)];
    }
    problems := problems + Unless(IsPositive(lib, f.announceInterval), "federation.announce_interval");
    problems := problems + Unless(IsPositive(lib, f.heartbeatInterval), "federation.heartbeat_interval");
    problems := problems + Unless(IsPositive(lib, f.heartbeatTimeout), "federation.heartbeat_timeout");
  }

  /* ---- targets ---- */

  /** Where the target is reached. */
  predicate AddressOk(lib: Library, t: Target) {
    && ToLower(t.protocol) in ["mcp", "acp", "http"]
    && ToLower(t.transport) in ["http", "sse", "websocket", "stdio"]
    && (t.kind != "" ==> ToLower(t.kind) in ["local", "remote"])
    && if EqualFold(t.transport, "stdio")
       then !IsBlank(t.stdio.command) && (IsBlank(t.endpoint) || ValidUrl(lib, t.endpoint))
       else t.endpoint != "" && ValidUrl(lib, t.endpoint)
  }

  method ValidateAddress(lib: Library, t: Target) returns (problems: seq<Problem>)
    ensures problems == [] <==> AddressOk(lib, t)
  {
    problems := Unless(ToLower(t.protocol) in ["mcp", "acp", "http"], "protocol");
    problems := problems + Unless(ToLower(t.transport) in ["http", "sse", "websocket", "stdio"], "transport");
    if t.kind != "" && ToLower(t.kind) !in ["local", "remote"] {
      problems := problems + [Problem("type", 0)];
    }
    if EqualFold(t.transport, "stdio") {
      problems := problems + Unless(!IsBlank(t.stdio.command), "stdio.command");
      if !IsBlank(t.endpoint) {
        problems := problems + Unless(ValidUrl(lib, t.endpoint), "endpoint");
      }
    } else if t.endpoint == "" {
      problems := problems + [Problem("endpoint", 0)];
    } else {
      problems := problems + Unless(ValidUrl(lib, t.endpoint), "endpoint");
    }
  }

  predicate IsHttpMethod(s: string) {
    ToUpper(TrimSpace(s)) in ["GET", "POST", "PUT", "PATCH", "DELETE", "HEAD", "OPTIONS"]
  }

  /** A HURL test names exactly one of a file and an endpoint. */
  predicate HurlOk(lib: Library, h: HurlTest) {
    && !IsBlank(h.name) && (IsBlank(h.file) <==> !IsBlank(h.endpoint))
    && (IsBlank(h.endpoint) || ValidUrl(lib, h.endpoint))
    && (IsBlank(h.httpMethod) || IsHttpMethod(h.httpMethod))
  }

  method ValidateHurl(lib: Library, h: HurlTest) returns (problems: seq<Problem>)
    ensures problems == [] <==> HurlOk(lib, h)
  {
    problems := Unless(!IsBlank(h.name), "name");
    if IsBlank(h.file) && IsBlank(h.endpoint) {
      problems := problems + [Problem("file or endpoint", 0)];
    }
    if !IsBlank(h.file) && !IsBlank(h.endpoint) {
      problems := problems + [Problem("file and endpoint", 0)];
    }
    if !IsBlank(h.endpoint) {
      problems := problems + Unless(ValidUrl(lib, h.endpoint), "endpoint");
    }
    if !IsBlank(h.httpMethod) {
      problems := problems + Unless(IsHttpMethod(h.httpMethod), "method");
    }
  }

  predicate CheckOk(lib: Library, c: CheckPolicy) {
    && IsPositive(lib, c.interval) && IsPositive(lib, c.timeout) && 0 <= c.retries <= 100
    && Folded(c.handshakeProfile) in ["none", "base", "strict"]
    && (forall j :: 0 <= j < |c.requiredMethods| ==> !IsBlank(c.requiredMethods[j]))
    && (forall j :: 0 <= j < |c.hurlTests| ==> HurlOk(lib, c.hurlTests[j]))
  }

  /** A loop that reports each entry failing a test. */
  method ValidateEach(entries: seq<string>, ok: string -> bool, field: string) returns (problems: seq<Problem>)
    ensures problems == [] <==> forall j :: 0 <= j < |entries| ==> ok(entries[j])
  {
    problems := [];
    for j := 0 to |entries|
      invariant problems == [] <==> forall i :: 0 <= i < j ==> ok(entries[i])
    {
      if !ok(entries[j]) {
        problems := problems + [Problem(field, j)];
      }
    }
  }

  method ValidateHurlTests(lib: Library, tests: seq<HurlTest>) returns (problems: seq<Problem>)
    ensures problems == [] <==> forall j :: 0 <= j < |tests| ==> HurlOk(lib, tests[j])
  {
    problems := [];
    for j := 0 to |tests|
      invariant problems == [] <==> forall i :: 0 <= i < j ==> HurlOk(lib, tests[i])
    {
      var more := ValidateHurl(lib, tests[j]);
      problems := problems + more;
    }
  }

  method ValidateCheck(lib: Library, c: CheckPolicy) returns (problems: seq<Problem>)
    ensures problems == [] <==> CheckOk(lib, c)
  {
    problems := Unless(IsPositive(lib, c.interval), "check.interval");
    problems := problems + Unless(IsPositive(lib, c.timeout), "check.timeout");
    problems := problems + Unless(!(c.retries < 0 || c.retries > 100), "check.retries");
    problems := problems + Unless(Folded(c.handshakeProfile) in ["none", "base", "strict"], "check.handshake_profile");
    var methods := ValidateEach(c.requiredMethods, m => !IsBlank(m), "check.required_methods");
    var tests := ValidateHurlTests(lib, c.hurlTests);
    problems := problems + methods + tests;
  }

  predicate ExpectedOk(e: Expected) {
    (forall j :: 0 <= j < |e.healthyStatusCodes| ==> 100 <= e.healthyStatusCodes[j] <= 599) && e.knownAgentCountMin >= 0
  }

  predicate CredentialsOk(lib: Library, a: TargetAuth) {
    var kind := ToLower(a.kind);
    && kind in ["none", "bearer", "apikey", "oauth"]
    && (kind == "bearer" ==> a.secretRef != "" && a.header != "")
    && (kind == "apikey" ==> a.secretRef != "" && a.keyName != "")
    && (kind == "oauth" ==> a.clientId != "" && a.tokenUrl != "" && ValidUrl(lib, a.tokenUrl)
                            && (a.redirectUrl != "" ==> ValidUrl(lib, a.redirectUrl)))
  }

  method ValidateExpectedAndAuth(lib: Library, e: Expected, a: TargetAuth) returns (problems: seq<Problem>)
    ensures problems == [] <==> ExpectedOk(e) && CredentialsOk(lib, a)
  {
    problems := [];
    for j := 0 to |e.healthyStatusCodes|
      invariant problems == [] <==> forall i :: 0 <= i < j ==> 100 <= e.healthyStatusCodes[i] <= 599
    {
      problems := problems + Unless(!(e.healthyStatusCodes[j] < 100 || e.healthyStatusCodes[j] > 599), "expected.healthy_status_codes");
    }
    problems := problems + Unless(e.knownAgentCountMin >= 0, "expected.known_agent_count_min");
    var kind := ToLower(a.kind);
    problems := problems + Unless(kind in ["none", "bearer", "apikey", "oauth"], "auth.type");
    if kind == "bearer" {
      problems := problems + Unless(a.secretRef != "", "auth.secret_ref") + Unless(a.header != "", "auth.header");
    } else if kind == "apikey" {
      problems := problems + Unless(a.secretRef != "", "auth.secret_ref") + Unless(a.keyName != "", "auth.key_name");
    } else if kind == "oauth" {
      problems := problems + Unless(a.clientId != "", "auth.client_id");
      if a.tokenUrl == "" {
        problems := problems + [Problem("auth.token_url", 0)];
      } else {
        problems := problems + Unless(ValidUrl(lib, a.tokenUrl), "auth.token_url");
      }
      if a.redirectUrl != "" {
        problems := problems + Unless(ValidUrl(lib, a.redirectUrl), "auth.redirect_url");
      }
    }
  }

  predicate TargetOk(lib: Library, t: Target) {
    AddressOk(lib, t) && CheckOk(lib, t.check) && ExpectedOk(t.expected) && CredentialsOk(lib, t.auth)
  }

  predicate DistinctIds(ts: seq<Target>) {
    forall i, j :: 0 <= i < j < |ts| ==> ts[i].id != ts[j].id
  }

  /** Every target has an id of its own, enabled or not; every enabled target is fully checked. */
  predicate TargetsOk(lib: Library, ts: seq<Target>) {
    && (forall i :: 0 <= i < |ts| ==> ts[i].id != "")
    && DistinctIds(ts)
    && (forall i :: 0 <= i < |ts| && ts[i].enabled ==> TargetOk(lib, ts[i]))
  }

  method ValidateTarget(lib: Library, t: Target) returns (problems: seq<Problem>)
    ensures problems == [] <==> TargetOk(lib, t)
  {
    var address := ValidateAddress(lib, t);
    var check := ValidateCheck(lib, t.check);
    var rest := ValidateExpectedAndAuth(lib, t.expected, t.auth);
    problems := address + check + rest;
  }

  method ValidateTargets(lib: Library, ts: seq<Target>) returns (problems: seq<Problem>)
    ensures problems == [] <==> TargetsOk(lib, ts)
  {
    problems := [];
    var seenIds: set<string> := {};
    for i := 0 to |ts|
      invariant problems == [] <==> TargetsOk(lib, ts[..i])
      invariant forall id :: id in seenIds <==> id != "" && exists j :: 0 <= j < i && ts[j].id == id
    {
      TargetsStep(lib, ts, i);
      var t := ts[i];
      if t.id == "" {
        problems := problems + [Problem("targets.id", i)];
      } else {
        if t.id in seenIds {
          problems := problems + [Problem("targets.id duplicate", i)];
        }
        seenIds := seenIds + {t.id};
      }
      if !t.enabled {
        continue;
      }
      var more := ValidateTarget(lib, t);
      problems := problems + more;
    }
    assert ts[..|ts|] == ts;
  }

  lemma TargetsStep(lib: Library, ts: seq<Target>, n: nat)
    requires n < |ts|
    ensures TargetsOk(lib, ts[..n + 1]) <==>
              && TargetsOk(lib, ts[..n]) && ts[n].id != "" && (forall j :: 0 <= j < n ==> ts[j].id != ts[n].id)
              && (ts[n].enabled ==> TargetOk(lib, ts[n]))
  {
    var now, before := ts[..n + 1], ts[..n];
    assert now[n] == ts[n];
    assert forall j :: 0 <= j < n ==> now[j] == before[j] == ts[j];
  }

  /* ---- the whole configuration ---- */

  predicate RuntimeOk(lib: Library, r: Runtime) {
    IsPositive(lib, r.gracefulShutdownTimeout) && r.eventHistorySize > 0
  }

  predicate SectionsOk(lib: Library, c: Config) {
    && c.version == "1" && ServiceOk(lib, c.service) && HealthOk(lib, c.health) && TrustOk(lib, c.trust)
    && RuntimeOk(lib, c.runtime) && DiscoveryOk(lib, c.discovery) && AlertsOk(lib, c.alerts) && AuthOk(lib, c.auth)
  }

  predicate FeaturesOk(lib: Library, c: Config) {
    && KnownStateOk(c.knownState) && MetaOk(c.metaConfig) && RemoteOk(lib, c.remoteAgent) && HostedOk(lib, c.hosted)
    && DynamicOk(c.dynamicConfig) && FederationOk(lib, c.federation)
  }

  predicate Acceptable(lib: Library, c: Config) {
    SectionsOk(lib, c) && FeaturesOk(lib, c) && TargetsOk(lib, c.targets)
  }

  method ValidateSections(lib: Library, c: Config) returns (problems: seq<Problem>)
    ensures problems == [] <==> SectionsOk(lib, c)
  {
    if c.version == "" {
      problems := [Problem("version required", 0)];
    } else {
      problems := Unless(c.version == "1", "version unsupported");
    }
    var service := ValidateService(lib, c.service);
    var health := ValidateHealth(lib, c.health);
    var trust := ValidateTrust(lib, c.trust);
    problems := problems + service + health + trust;
    problems := problems + Unless(IsPositive(lib, c.runtime.gracefulShutdownTimeout), "runtime.graceful_shutdown_timeout");
    problems := problems + Unless(c.runtime.eventHistorySize > 0, "runtime.event_history_size");
    var discovery := ValidateDiscovery(lib, c.discovery);
    var alerts := ValidateAlerts(lib, c.alerts);
    var auth := ValidateAuth(lib, c.auth);
    problems := problems + discovery + alerts + auth;
  }

  method ValidateFeatures(lib: Library, c: Config) returns (problems: seq<Problem>)
    ensures problems == [] <==> FeaturesOk(lib, c)
  {
    problems := ValidateKnownStateAndRemote(lib, c.knownState, c.remoteAgent);
    var meta := ValidateMeta(c.metaConfig);
    var hosted := ValidateHosted(lib, c.hosted);
    var dynamic := ValidateDynamic(c.dynamicConfig);
    var federation := ValidateFederation(lib, c.federation);
    problems := problems + meta + hosted + dynamic + federation;
  }

  /** No problem is found exactly when the configuration is acceptable. */
  method Validate(lib: Library, c: Config) returns (problems: seq<Problem>)
    ensures problems == [] <==> Acceptable(lib, c)
  {
    var sections := ValidateSections(lib, c);
    var features := ValidateFeatures(lib, c);
    var targets := ValidateTargets(lib, c.targets);
    problems := sections + features + targets;
  }
}
