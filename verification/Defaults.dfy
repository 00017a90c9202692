/** ApplyDefaults and the reconciliation of the two target dialects. */
module Defaults {
  import opened GoStrings
  import opened Config
  import opened Slices

  function Or(v: string, d: string): string {
    if v == "" then d else v
  }

  function OrSeq<T(==)>(v: seq<T>, d: seq<T>): seq<T> {
    if v == [] then d else v
  }

  function ReplaceAll(s: string, a: char, b: char): string {
    seq(|s|, i requires 0 <= i < |s| => if s[i] == a then b else s[i])
  }

  /** applyEfficiencyProfile */
  function Profiled(s: Service): Service {
    var profile := ToLower(s.efficiencyProfile);
    var p := if profile == "" || profile == "auto" then "medium" else profile;
    if p == "low" then
      s.(maxWorkers := if s.maxWorkers <= 0 || s.maxWorkers > 2 then 1 else s.maxWorkers,
         pollInterval := Or(s.pollInterval, "60s"), timeout := Or(s.timeout, "10s"))
    else if p == "medium" then
      s.(maxWorkers := if s.maxWorkers <= 0 || s.maxWorkers > 4 then 4 else s.maxWorkers,
         pollInterval := Or(s.pollInterval, "15s"), timeout := Or(s.timeout, "5s"))
    else if p == "high" then
      s.(maxWorkers := if s.maxWorkers <= 0 then 8 else s.maxWorkers,
         pollInterval := Or(s.pollInterval, "5s"), timeout := Or(s.timeout, "3s"))
    else s
  }

  /** The service section with its names, mode and profile filled in. */
  function Identified(s: Service): Service {
    var mode := Or(s.mode, "background");
    s.(name := Or(s.name, "ocd-smoke-alarm"), environment := Or(s.environment, "dev"), mode := mode,
       logLevel := Or(s.logLevel, "info"),
       efficiencyProfile := Or(s.efficiencyProfile, if mode == "background" || mode == "headless" then "low" else "medium"))
  }

  function ServiceDefaults(s: Service): Service {
    var p := Profiled(Identified(s));
    p.(pollInterval := Or(p.pollInterval, "15s"), timeout := Or(p.timeout, "5s"),
       maxWorkers := if p.maxWorkers <= 0 then 4 else p.maxWorkers)
  }

  function HealthDefaults(h: Health): Health {
    var h1 := h.(listenAddr := Or(h.listenAddr, "localhost:8088"), healthz := Or(h.healthz, "/healthz"),
                 readyz := Or(h.readyz, "/readyz"), status := Or(h.status, "/status"), isotopeTtl := Or(h.isotopeTtl, "5m"));
    h1.(enabled := h1.enabled || h1.listenAddr == "localhost:8088" || h1.selfCheck)
  }

  function RuntimeDefaults(serviceName: string, r: Runtime): Runtime {
    Runtime(Or(r.lockFile, "/tmp/" + ReplaceAll(serviceName, ' ', '-') + ".lock"), Or(r.stateDir, "./state"),
            Or(r.baselineFile, "./state/known-good.json"),
            if r.eventHistorySize <= 0 then 500 else r.eventHistorySize, Or(r.gracefulShutdownTimeout, "10s"))
  }

  function LlmsTxtDefaults(l: LlmsTxt): LlmsTxt {
    l.(fetchTimeout := Or(l.fetchTimeout, "5s"), autoRegisterAsTargets := l.autoRegisterAsTargets || l.autoRegisterOAuth)
  }

  function DiscoveryDefaults(d: Discovery): Discovery {
    d.(interval := Or(d.interval, "60s"), scanHosts := OrSeq(d.scanHosts, ["localhost", "localhost"]),
       scanPorts := OrSeq(d.scanPorts, [3000, 4317, 4318, 8080, 9000]), llmsTxt := LlmsTxtDefaults(d.llmsTxt))
  }

  function AlertsDefaults(a: Alerts): Alerts {
    Alerts(if a.retryBeforeEscalation < 0 then 0 else a.retryBeforeEscalation, Or(a.dedupeWindow, "2m"), Or(a.cooldown, "1m"),
           Or(a.healthy, "info"), Or(a.degraded, "warning"), Or(a.regression, "critical"), Or(a.outage, "critical"),
           Or(a.titlePrefix, "[Smoke Alarm]"))
  }

  function AuthDefaults(a: Auth): Auth {
    a.(keystoreProvider := Or(a.keystoreProvider, "auto"), redactionMask := Or(a.redactionMask, "****"),
       tokenGracePeriod := Or(a.tokenGracePeriod, "30s"), mockListenAddr := Or(a.mockListenAddr, "localhost:8877"),
       mockPath := Or(a.mockPath, "/oauth/callback"), mockMode := Or(a.mockMode, "allow"))
  }

  function KnownStateDefaults(k: KnownState): KnownState {
    k.(sustainSuccess := if k.sustainSuccess <= 0 then 2 else k.sustainSuccess, classifyAs := Or(k.classifyAs, "regression"),
       outageThreshold := if k.outageThreshold <= 0 then 2 else k.outageThreshold)
  }

  function MetaDefaults(m: MetaConfig): MetaConfig {
    m.(outputDir := Or(m.outputDir, "./state/meta-config"), formats := OrSeq(m.formats, ["yaml", "json"]),
       token := Or(m.token, "${TOKEN}"), clientSecret := Or(m.clientSecret, "${CLIENT_SECRET}"),
       endpoint := Or(m.endpoint, "${ENDPOINT}"))
  }

  function RemoteDefaults(r: RemoteAgent): RemoteAgent {
    r.(maxWaitForHealthy := Or(r.maxWaitForHealthy, "60s"), lockTtl := Or(r.lockTtl, "5m"))
  }

  function HostedDefaults(h: Hosted): Hosted {
    h.(listenAddr := Or(h.listenAddr, ":0"), transports := OrSeq(h.transports, ["http", "sse"]),
       protocols := OrSeq(h.protocols, ["mcp", "acp"]), mcp := Or(h.mcp, "/mcp"), acp := Or(h.acp, "/acp"), a2a := Or(h.a2a, "/a2a"))
  }

  function DynamicDefaults(d: DynamicConfig): DynamicConfig {
    d.(directory := Or(d.directory, "./state/dynamic-config"), formats := OrSeq(d.formats, ["json", "markdown"]),
       serveBaseUrl := Or(d.serveBaseUrl, "/dynamic-config"), requireUniqueIds := true)
  }

  function TrimSuffix(s: string, p: string): string {
    if HasSuffix(s, p) then s[..|s| - |p|] else s
  }

  function NormalizeEndpointUrl(raw: string): string {
    var ep := TrimSpace(raw);
    if ep == "" then ""
    else if Contains(ep, "://") then TrimSuffix(ep, "/")
    else "http://" + TrimPrefix(TrimSuffix(ep, "/"), "//")
  }

  function FederationDefaults(f: Federation): Federation {
    var base := if f.basePort <= 0 || f.basePort > 65535 then 19100 else f.basePort;
    var top := if f.maxPort <= 0 || f.maxPort < base || f.maxPort > 65535 then base + 3 else f.maxPort;
    var poll := Or(f.pollInterval, "30s");
    f.(basePort := base, maxPort := top, pollInterval := poll, announceInterval := Or(f.announceInterval, "10s"),
       heartbeatInterval := Or(f.heartbeatInterval, "15s"), heartbeatTimeout := Or(f.heartbeatTimeout, "45s"),
       bindAddr := Or(f.bindAddr, "localhost"),
       introducer := if f.introducer == "" && f.upstream != "" then NormalizeEndpointUrl(f.upstream) else f.introducer,
       reportInterval := Or(f.reportInterval, poll))
  }

  /* ---- targets ---- */

  /** The kind and the URL of the OpenCode spelling, carried over. */
  function CarryAddress(t: Target): Target {
    t.(transport := if t.kind != "" && t.transport == "" && ToLower(t.kind) == "local" then "stdio" else t.transport,
       endpoint := if t.endpoint == "" then t.url else t.endpoint)
  }

  /** Its command array. */
  function CarryCommand(t: Target): Target {
    if t.stdio.command == "" && t.command != []
    then t.(stdio := t.stdio.(command := t.command[0], args := if |t.command| > 1 then t.command[1..] else t.stdio.args),
            transport := Or(t.transport, "stdio"))
    else t
  }

  /** Its environment. */
  function CarryEnv(t: Target): Target {
    if t.stdio.env == map[] then t.(stdio := t.stdio.(env := t.environment)) else t
  }

  function ReconcileTransport(t: Target): Target {
    CarryEnv(CarryCommand(CarryAddress(t)))
  }

  function ReconcileAuth(a: TargetAuth, oauth: Option<OAuthBlock>): TargetAuth {
    if oauth.Some? && a.kind == "" then
      var o := oauth.value;
      a.(kind := "oauth", clientId := Or(a.clientId, o.clientId), secretRef := Or(a.secretRef, o.clientSecretRef),
         tokenUrl := Or(a.tokenUrl, o.tokenUrl),
         scopes := if a.scopes == [] && o.scope != "" then Split(o.scope, ' ') else a.scopes)
    else a
  }

  function Reconcile(t: Target): Target {
    ReconcileTransport(t).(auth := ReconcileAuth(t.auth, t.oauth))
  }

  function InferTransport(lib: Library, endpoint: string): string {
    var u := lib.parseUrl(endpoint);
    if u.None? then "http"
    else
      var scheme := ToLower(u.value.scheme);
      if scheme == "ws" || scheme == "wss" then "websocket"
      else if scheme == "stdio" then "stdio"
      else if scheme == "http" || scheme == "https" then
        var full := ToLower(TrimSpace(u.value.path)) + "?" + ToLower(TrimSpace(u.value.rawQuery));
        if Contains(full, "transport=sse") || Contains(full, "accept=text/event-stream") || Contains(full, "text/event-stream")
           || Contains(full, "/sse") || Contains(full, "/stream") || Contains(full, "/events")
        then "sse" else "http"
      else "http"
  }

  predicate SpeaksMcpOrAcp(protocol: string) {
    ToLower(TrimSpace(protocol)) in ["mcp", "acp"]
  }

  function CheckDefaults(s: Service, protocol: string, c: CheckPolicy): CheckPolicy {
    c.(interval := Or(c.interval, s.pollInterval), timeout := Or(c.timeout, s.timeout),
       retries := if c.retries < 0 then 0 else c.retries,
       handshakeProfile := if IsBlank(c.handshakeProfile) then (if SpeaksMcpOrAcp(protocol) then "base" else "none") else c.handshakeProfile,
       requiredMethods := if c.requiredMethods == [] && SpeaksMcpOrAcp(protocol) then ["initialize"] else c.requiredMethods)
  }

  /** The rest of the loop body of ApplyDefaults, after reconciliation. */
  function FillTarget(lib: Library, s: Service, t: Target): Target {
    var transport := if t.transport == "" then InferTransport(lib, t.endpoint) else t.transport;
    var endpoint := if EqualFold(transport, "stdio") && IsBlank(t.endpoint) then "stdio://local" else t.endpoint;
    t.(name := Or(t.name, t.id), auth := t.auth.(kind := Or(t.auth.kind, "none")),
       check := CheckDefaults(s, t.protocol, t.check),
       expected := t.expected.(healthyStatusCodes :=
         OrSeq(t.expected.healthyStatusCodes, if ToLower(t.transport) == "websocket" then [101] else [200])),
       transport := transport, endpoint := endpoint,
       kind := Or(t.kind, if EqualFold(transport, "stdio") then "local" else "remote"))
  }

  function TargetDefaults(lib: Library, s: Service, t: Target): Target {
    FillTarget(lib, s, Reconcile(t))
  }

  function TargetsDefaults(lib: Library, s: Service, ts: seq<Target>): seq<Target> {
    MapSeq(ts, t => TargetDefaults(lib, s, t))
  }

  /** The sections in groups, as the program goes through them. */
  function ProcessDefaulted(c: Config): Config {
    var service := ServiceDefaults(c.service);
    c.(service := service, health := HealthDefaults(c.health), runtime := RuntimeDefaults(service.name, c.runtime))
  }

  function AlertingDefaulted(c: Config): Config {
    c.(discovery := DiscoveryDefaults(c.discovery), alerts := AlertsDefaults(c.alerts), auth := AuthDefaults(c.auth))
  }

  function AgentDefaulted(c: Config): Config {
    c.(knownState := KnownStateDefaults(c.knownState), metaConfig := MetaDefaults(c.metaConfig),
       remoteAgent := RemoteDefaults(c.remoteAgent))
  }

  function ServingDefaulted(c: Config): Config {
    c.(hosted := HostedDefaults(c.hosted), dynamicConfig := DynamicDefaults(c.dynamicConfig),
       federation := FederationDefaults(c.federation))
  }

  function TargetsDefaulted(lib: Library, c: Config): Config {
    c.(targets := TargetsDefaults(lib, c.service, c.targets))
  }

  function Defaulted(lib: Library, c: Config): Config {
    TargetsDefaulted(lib, ServingDefaulted(AgentDefaulted(AlertingDefaulted(ProcessDefaulted(c)))))
  }

  /* ---- idempotence ---- */

  lemma ServiceIdempotent(s: Service)
    ensures ServiceDefaults(ServiceDefaults(s)) == ServiceDefaults(s)
    ensures ServiceDefaults(s).pollInterval != "" && ServiceDefaults(s).timeout != "" && ServiceDefaults(s).maxWorkers > 0
  {}

  lemma FederationIdempotent(f: Federation)
    ensures FederationDefaults(FederationDefaults(f)) == FederationDefaults(f)
  {}

  lemma InferTransportNonEmpty(lib: Library, endpoint: string)
    ensures InferTransport(lib, endpoint) != ""
  {}

  /** Nothing in the OpenCode spelling is left to carry over. */
  predicate Carried(t: Target) {
    && (t.endpoint == "" ==> t.url == "")
    && (t.stdio.command == "" && t.command != [] ==>
          t.command[0] == "" && (|t.command| > 1 ==> t.stdio.args == t.command[1..]))
    && (t.stdio.env == map[] ==> t.environment == map[])
  }

  lemma ReconcileCarries(t: Target)
    ensures Carried(ReconcileTransport(t))
    ensures Carried(t) && t.transport != "" ==> ReconcileTransport(t) == t
  {}

  lemma CheckIdempotent(s: Service, protocol: string, c: CheckPolicy)
    ensures CheckDefaults(s, protocol, CheckDefaults(s, protocol, c)) == CheckDefaults(s, protocol, c)
  {
    TrimTrimmed("base", IsSpace);
    TrimTrimmed("none", IsSpace);
  }

  lemma FillSettles(lib: Library, s: Service, t: Target)
    ensures var f := FillTarget(lib, s, t);
            && FillTarget(lib, s, f) == f && f.transport != "" && f.auth.kind != ""
            && (Carried(t) ==> Carried(f))
  {
    InferTransportNonEmpty(lib, t.endpoint);
    CheckIdempotent(s, t.protocol, t.check);
    TrimTrimmed("stdio://local", IsSpace);
  }

  lemma TargetIdempotent(lib: Library, s: Service, t: Target)
    ensures TargetDefaults(lib, s, TargetDefaults(lib, s, t)) == TargetDefaults(lib, s, t)
  {
    var r := Reconcile(t);
    var f := FillTarget(lib, s, r);
    ReconcileCarries(t);
    assert Carried(r);
    FillSettles(lib, s, r);
    ReconcileCarries(f);
    assert Reconcile(f) == f;
  }

  lemma ProcessSectionsIdempotent(c: Config)
    ensures HealthDefaults(HealthDefaults(c.health)) == HealthDefaults(c.health)
    ensures forall name :: RuntimeDefaults(name, RuntimeDefaults(name, c.runtime)) == RuntimeDefaults(name, c.runtime)
    ensures DiscoveryDefaults(DiscoveryDefaults(c.discovery)) == DiscoveryDefaults(c.discovery)
    ensures AlertsDefaults(AlertsDefaults(c.alerts)) == AlertsDefaults(c.alerts)
    ensures AuthDefaults(AuthDefaults(c.auth)) == AuthDefaults(c.auth)
  {}

  lemma FeatureSectionsIdempotent(c: Config)
    ensures KnownStateDefaults(KnownStateDefaults(c.knownState)) == KnownStateDefaults(c.knownState)
    ensures MetaDefaults(MetaDefaults(c.metaConfig)) == MetaDefaults(c.metaConfig)
    ensures RemoteDefaults(RemoteDefaults(c.remoteAgent)) == RemoteDefaults(c.remoteAgent)
    ensures HostedDefaults(HostedDefaults(c.hosted)) == HostedDefaults(c.hosted)
    ensures DynamicDefaults(DynamicDefaults(c.dynamicConfig)) == DynamicDefaults(c.dynamicConfig)
  {}

  lemma TargetsIdempotent(lib: Library, s: Service, ts: seq<Target>)
    ensures TargetsDefaults(lib, s, TargetsDefaults(lib, s, ts)) == TargetsDefaults(lib, s, ts)
  {
    forall i | 0 <= i < |ts|
      ensures TargetDefaults(lib, s, TargetDefaults(lib, s, ts[i])) == TargetDefaults(lib, s, ts[i])
    {
      TargetIdempotent(lib, s, ts[i]);
    }
  }

  /** ApplyDefaults may run any number of times: the second run changes nothing, for every
      configuration. */
  lemma DefaultsIdempotent(lib: Library, c: Config)
    ensures Defaulted(lib, Defaulted(lib, c)) == Defaulted(lib, c)
  {
    ServiceIdempotent(c.service);
    FederationIdempotent(c.federation);
    ProcessSectionsIdempotent(c);
    FeatureSectionsIdempotent(c);
    TargetsIdempotent(lib, ServiceDefaults(c.service), c.targets);
  }

  /** The command line's overrides of a loaded configuration; an empty string overrides nothing. */
  datatype Flags = Flags(
    mode: string, healthAddr: string, federation: string, name: string, stateDir: string, lockFile: string)

  /** One part of the federation flag, "upstream:address" or "introducer:address". */
  function FederationPart(f: Federation, part: string): Federation {
    if ':' !in part then f
    else
      var k := Index(part, ':');
      if part[..k] == "upstream" || part[..k] == "introducer" then f.(introducer := part[k + 1..], upstream := part[k + 1..]) else f
  }

  function FederationParts(f: Federation, parts: seq<string>): Federation {
    if parts == [] then f else FederationPart(FederationParts(f, parts[..|parts| - 1]), parts[|parts| - 1])
  }

  function FederationFlag(f: Federation, raw: string): Federation {
    FederationParts(f, Split(raw, ',')).(enabled := true)
  }

  method ParseFederationFlag(raw: string, before: Federation) returns (f: Federation)
    ensures f == FederationFlag(before, raw)
  {
    f := before;
    var parts := Split(raw, ',');
    for i := 0 to |parts|
      invariant f == FederationParts(before, parts[..i])
    {
      assert parts[..i + 1][..i] == parts[..i];
      if ':' !in parts[i] {
        continue;
      }
      var k := Index(parts[i], ':');
      if parts[i][..k] == "upstream" || parts[i][..k] == "introducer" {
        f := f.(introducer := parts[i][k + 1..]);
        f := f.(upstream := parts[i][k + 1..]);
      }
    }
    assert parts[..|parts|] == parts;
    f := f.(enabled := true);
  }

  /** The last upstream or introducer of the flag wins and sets both addresses; what follows the first
      colon is the address, further colons included. */
  lemma LastAddressWins(f: Federation, parts: seq<string>, key: string, address: string)
    requires key == "upstream" || key == "introducer"
    ensures FederationParts(f, parts + [key + ":" + address]) == FederationParts(f, parts).(introducer := address, upstream := address)
  {
    OnePart(f, parts, key + ":" + address);
    KeyAndAddress(key, address);
  }

  /** Other parts of the flag say nothing. */
  lemma OtherPartsIgnored(f: Federation, parts: seq<string>, other: string)
    requires !HasPrefix(other, "upstream" + ":") && !HasPrefix(other, "introducer" + ":")
    ensures FederationParts(f, parts + [other]) == FederationParts(f, parts)
  {
    OnePart(f, parts, other);
    if ':' in other {
      var k := Index(other, ':');
      assert other == other[..k] + ":" + other[k + 1..];
    }
  }

  lemma OnePart(f: Federation, parts: seq<string>, part: string)
    ensures FederationParts(f, parts + [part]) == FederationPart(FederationParts(f, parts), part)
  {
    assert (parts + [part])[..|parts|] == parts;
  }

  lemma KeyAndAddress(key: string, address: string)
    requires ':' !in key
    ensures var p := key + ":" + address; ':' in p && p[..Index(p, ':')] == key && p[Index(p, ':') + 1..] == address
  {
    IndexConcat(key, ':', address);
    var p := key + ":" + address;
    assert p[..|key|] == key && p[|key| + 1..] == address;
  }

  lemma PartKeepsSettled(f: Federation, part: string)
    requires FederationDefaults(f) == f
    ensures FederationDefaults(FederationPart(f, part)) == FederationPart(f, part)
  {}

  lemma {:induction false} PartsKeepSettled(f: Federation, parts: seq<string>)
    requires FederationDefaults(f) == f
    ensures FederationDefaults(FederationParts(f, parts)) == FederationParts(f, parts)
  {
    if parts != [] {
      PartsKeepSettled(f, parts[..|parts| - 1]);
      PartKeepsSettled(FederationParts(f, parts[..|parts| - 1]), parts[|parts| - 1]);
    }
  }

  lemma OverriddenFederation(before: Federation, raw: string)
    ensures var f := FederationFlag(FederationDefaults(before), raw); FederationDefaults(f) == f
  {
    var d := FederationDefaults(before);
    FederationIdempotent(before);
    PartsKeepSettled(d, Split(raw, ','));
    EnablingChangesNothing(FederationParts(d, Split(raw, ',')));
  }

  lemma EnablingChangesNothing(f: Federation)
    requires FederationDefaults(f) == f
    ensures FederationDefaults(f.(enabled := true)) == f.(enabled := true)
  {}

  function Override(c: Config, f: Flags): Config {
    c.(service := c.service.(mode := if f.mode == "" then c.service.mode else f.mode,
                             name := if f.name == "" then c.service.name else f.name),
       health := c.health.(listenAddr := if f.healthAddr == "" then c.health.listenAddr else f.healthAddr),
       runtime := OverrideRuntime(c.runtime, f),
       federation := if f.federation == "" then c.federation else FederationFlag(c.federation, f.federation))
  }

  /** The second run, after the flags: it switches on a health endpoint moved to the default address
      and changes nothing else.  In particular a new mode does not revise the profile, the workers or
      any target, and a new name does not move the lock file. */
  lemma OverridesStick(lib: Library, c: Config, f: Flags)
    ensures var e := Override(Defaulted(lib, c), f);
            Defaulted(lib, e) == e.(health := e.health.(enabled := e.health.enabled || f.healthAddr == "localhost:8088"))
  {
    var service := ServiceDefaults(c.service);
    OverriddenService(c.service, f);
    OverriddenHealth(c.health, f);
    OverriddenRuntime(service.name, c.runtime, f);
    FederationIdempotent(c.federation);
    OverriddenFederation(c.federation, f.federation);
    ProcessSectionsIdempotent(c);
    FeatureSectionsIdempotent(c);
    var d := Defaulted(lib, c);
    TargetsIdempotent(lib, service, c.targets);
    TimesDecide(lib, Override(d, f).service, service, d.targets);
  }

  /** A service section whose gaps are filled and whose workers fit its profile. */
  predicate Filled(s: Service) {
    && s.name != "" && s.environment != "" && s.mode != "" && s.logLevel != "" && s.efficiencyProfile != ""
    && s.pollInterval != "" && s.timeout != "" && s.maxWorkers > 0
    && Profiled(s) == s
  }

  lemma FilledSettles(s: Service)
    ensures Filled(ServiceDefaults(s))
    ensures Filled(s) ==> ServiceDefaults(s) == s
  {}

  lemma OverriddenService(s: Service, f: Flags)
    ensures var d := ServiceDefaults(s);
            var e := d.(mode := if f.mode == "" then d.mode else f.mode, name := if f.name == "" then d.name else f.name);
            ServiceDefaults(e) == e && e.pollInterval == d.pollInterval && e.timeout == d.timeout
  {
    FilledSettles(s);
    var d := ServiceDefaults(s);
    var e := d.(mode := if f.mode == "" then d.mode else f.mode, name := if f.name == "" then d.name else f.name);
    ProfileIgnoresMode(d, e);
    FilledSettles(e);
  }

  lemma ProfileIgnoresMode(d: Service, e: Service)
    requires e == d.(mode := e.mode, name := e.name) && Profiled(d) == d
    ensures Profiled(e) == e
  {}

  lemma OverriddenHealth(h: Health, f: Flags)
    ensures var d := HealthDefaults(h);
            var e := d.(listenAddr := if f.healthAddr == "" then d.listenAddr else f.healthAddr);
            HealthDefaults(e) == e.(enabled := e.enabled || f.healthAddr == "localhost:8088")
  {}

  lemma RuntimeSettles(name: string, r: Runtime)
    ensures RuntimeDefaults(name, r).lockFile != "" && RuntimeDefaults(name, r).stateDir != ""
    ensures r == RuntimeDefaults(name, r) <==>
              r.lockFile != "" && r.stateDir != "" && r.baselineFile != "" && r.eventHistorySize > 0 && r.gracefulShutdownTimeout != ""
  {}

  function OverrideRuntime(d: Runtime, f: Flags): Runtime {
    d.(stateDir := if f.stateDir == "" then d.stateDir else f.stateDir,
       lockFile := if f.lockFile == "" then d.lockFile else f.lockFile)
  }

  lemma OverriddenRuntime(name: string, r: Runtime, f: Flags)
    ensures forall n :: var e := OverrideRuntime(RuntimeDefaults(name, r), f); RuntimeDefaults(n, e) == e
  {
    var d := RuntimeDefaults(name, r);
    RuntimeSettles(name, r);
    RuntimeSettles(name, d);
    forall n ensures RuntimeDefaults(n, OverrideRuntime(d, f)) == OverrideRuntime(d, f) {
      RuntimeSettles(n, OverrideRuntime(d, f));
    }
  }

  /** Only the interval and the timeout of the service section reach the targets. */
  lemma TimesDecide(lib: Library, a: Service, b: Service, ts: seq<Target>)
    requires a.pollInterval == b.pollInterval && a.timeout == b.timeout
    ensures TargetsDefaults(lib, a, ts) == TargetsDefaults(lib, b, ts)
  {
    forall t ensures TargetDefaults(lib, a, t) == TargetDefaults(lib, b, t) {
      assert forall p, c :: CheckDefaults(a, p, c) == CheckDefaults(b, p, c);
    }
  }

  /* ---- what is inferred ---- */

  /** The endpoint's path or query carries one of the marks of an event stream. */
  predicate MarksStream(u: UrlParts) {
    var full := ToLower(TrimSpace(u.path)) + "?" + ToLower(TrimSpace(u.rawQuery));
    || Contains(full, "transport=sse") || Contains(full, "text/event-stream") || Contains(full, "/sse")
    || Contains(full, "/stream") || Contains(full, "/events")
  }

  lemma LongerMark(full: string)
    ensures Contains(full, "accept=text/event-stream") ==> Contains(full, "text/event-stream")
  {
    if i :| 0 <= i <= |full| && "accept=text/event-stream" <= full[i..] {
      assert "accept=text/event-stream"[7..] == "text/event-stream";
      assert full[i + 7..] == full[i..][7..];
    }
  }

  lemma WordsFold(scheme: string)
    ensures EqualFold(scheme, "ws") <==> ToLower(scheme) == "ws"
    ensures EqualFold(scheme, "wss") <==> ToLower(scheme) == "wss"
    ensures EqualFold(scheme, "stdio") <==> ToLower(scheme) == "stdio"
    ensures EqualFold(scheme, "http") <==> ToLower(scheme) == "http"
    ensures EqualFold(scheme, "https") <==> ToLower(scheme) == "https"
  {}

  /** The transport a target gets when it writes none and nothing makes it local: read off the scheme
      of its endpoint, and for http off the marks of an event stream. */
  lemma TransportInferred(lib: Library, s: Service, t: Target)
    requires t.transport == "" && !EqualFold(t.kind, "local") && (t.stdio.command != "" || t.command == [])
    ensures var u := lib.parseUrl(if t.endpoint == "" then t.url else t.endpoint);
            var transport := TargetDefaults(lib, s, t).transport;
            && (transport == "websocket" <==> u.Some? && (EqualFold(u.value.scheme, "ws") || EqualFold(u.value.scheme, "wss")))
            && (transport == "stdio" <==> u.Some? && EqualFold(u.value.scheme, "stdio"))
            && (transport == "sse" <==>
                  u.Some? && (EqualFold(u.value.scheme, "http") || EqualFold(u.value.scheme, "https")) && MarksStream(u.value))
            && (transport == "http" <==> transport != "websocket" && transport != "stdio" && transport != "sse")
  {
    var e := if t.endpoint == "" then t.url else t.endpoint;
    assert ToLower("local") == "local";
    assert TargetDefaults(lib, s, t).transport == InferTransport(lib, e);
    if lib.parseUrl(e).Some? {
      var u := lib.parseUrl(e).value;
      WordsFold(u.scheme);
      LongerMark(ToLower(TrimSpace(u.path)) + "?" + ToLower(TrimSpace(u.rawQuery)));
    }
  }

  /** A written transport is kept. */
  lemma TransportKept(lib: Library, s: Service, t: Target)
    requires t.transport != ""
    ensures TargetDefaults(lib, s, t).transport == t.transport
  {}

  /** Status codes are chosen by the transport as written, before it is inferred: a WebSocket target
      that leaves its transport to be inferred is expected to answer 200. */
  lemma CodesBeforeInference(lib: Library, s: Service, t: Target)
    requires t.transport == "" && !EqualFold(t.kind, "local") && t.command == [] && t.expected.healthyStatusCodes == []
    ensures TargetDefaults(lib, s, t).expected.healthyStatusCodes == [200]
    ensures TargetDefaults(lib, s, t.(transport := "websocket")).expected.healthyStatusCodes == [101]
  {
    assert ToLower("local") == "local" && ToLower("websocket") == "websocket" && ToLower("") == "";
  }

  /** Whether a protocol speaks MCP or ACP, and so performs a handshake. */
  lemma SpeaksExactly(protocol: string)
    ensures SpeaksMcpOrAcp(protocol) <==> EqualFold(TrimSpace(protocol), "mcp") || EqualFold(TrimSpace(protocol), "acp")
  {
    assert ToLower("mcp") == "mcp" && ToLower("acp") == "acp";
  }

  /** An unwritten handshake follows the protocol; unwritten times are the service's. */
  lemma HandshakeByProtocol(s: Service, protocol: string, c: CheckPolicy)
    requires c.handshakeProfile == "" && c.requiredMethods == []
    ensures var d := CheckDefaults(s, protocol, c);
            && d.handshakeProfile == (if SpeaksMcpOrAcp(protocol) then "base" else "none")
            && d.requiredMethods == (if SpeaksMcpOrAcp(protocol) then ["initialize"] else [])
            && d.interval == (if c.interval == "" then s.pollInterval else c.interval)
            && d.timeout == (if c.timeout == "" then s.timeout else c.timeout)
            && d.retries == (if c.retries < 0 then 0 else c.retries)
  {
    assert IsBlank("");
  }

  lemma CheckFilled(lib: Library, s: Service, t: Target)
    ensures TargetDefaults(lib, s, t).check == CheckDefaults(s, t.protocol, t.check)
  {}

  /** How many workers a profile leaves, for every number asked for; "auto" is "medium". */
  lemma WorkersByProfile(s: Service)
    requires s.efficiencyProfile in ["low", "medium", "high", "auto"]
    ensures var n := ServiceDefaults(s).maxWorkers;
            && (s.efficiencyProfile == "low" ==> n == if 1 <= s.maxWorkers <= 2 then s.maxWorkers else 1)
            && (s.efficiencyProfile in ["medium", "auto"] ==> n == if 1 <= s.maxWorkers <= 4 then s.maxWorkers else 4)
            && (s.efficiencyProfile == "high" ==> n == if 1 <= s.maxWorkers then s.maxWorkers else 8)
  {
    ProfileWords();
  }

  lemma ProfileWords()
    ensures ToLower("low") == "low" && ToLower("medium") == "medium" && ToLower("high") == "high" && ToLower("auto") == "auto"
  {}

  /** The times a profile supplies; those written are kept. */
  lemma TimesByProfile(s: Service)
    requires s.efficiencyProfile in ["low", "medium", "high", "auto"]
    ensures var d := ServiceDefaults(s);
            && (s.pollInterval != "" ==> d.pollInterval == s.pollInterval) && (s.timeout != "" ==> d.timeout == s.timeout)
            && (s.pollInterval == "" ==> d.pollInterval == if s.efficiencyProfile == "low" then "60s" else if s.efficiencyProfile == "high" then "5s" else "15s")
            && (s.timeout == "" ==> d.timeout == if s.efficiencyProfile == "low" then "10s" else if s.efficiencyProfile == "high" then "3s" else "5s")
  {
    ProfileWords();
  }

  /** The profile a mode implies. */
  lemma ProfileByMode(s: Service)
    requires s.efficiencyProfile == ""
    ensures ServiceDefaults(s).efficiencyProfile == if s.mode in ["", "background", "headless"] then "low" else "medium"
  {}

  /** Health is on if it is switched on, if it checks itself, or if its address is the default. */
  lemma HealthSwitch(h: Health)
    ensures HealthDefaults(h).enabled <==> h.enabled || h.selfCheck || h.listenAddr in ["", "localhost:8088"]
  {}

  /** The default lock file is named after the service, with dashes for blanks. */
  lemma LockFileNamed(name: string, r: Runtime)
    requires r.lockFile == ""
    ensures var f := RuntimeDefaults(name, r).lockFile;
            && |f| == 5 + |name| + 5 && f[..5] == "/tmp/" && f[5 + |name|..] == ".lock"
            && forall i :: 0 <= i < |name| ==> f[5 + i] == if name[i] == ' ' then '-' else name[i]
  {}

  /** Where both spellings of a field are written, the canonical one wins. */
  lemma CanonicalFieldsWin(t: Target)
    ensures var r := Reconcile(t);
            && (t.transport != "" ==> r.transport == t.transport) && (t.endpoint != "" ==> r.endpoint == t.endpoint)
            && (t.stdio.command != "" ==> r.stdio.command == t.stdio.command && r.stdio.args == t.stdio.args)
            && (t.stdio.env != map[] ==> r.stdio.env == t.stdio.env)
            && (t.auth.kind != "" ==> r.auth == t.auth)
            && (t.auth.clientId != "" ==> r.auth.clientId == t.auth.clientId)
            && (t.auth.secretRef != "" ==> r.auth.secretRef == t.auth.secretRef)
            && (t.auth.tokenUrl != "" ==> r.auth.tokenUrl == t.auth.tokenUrl)
            && (t.auth.scopes != [] ==> r.auth.scopes == t.auth.scopes)
  {}

  /** An introducer taken from the legacy upstream is a URL whatever shape that was written in. */
  lemma UpstreamShapes(hostPort: string)
    requires hostPort != "" && Trimmed(hostPort, IsSpace) && !Contains(hostPort, "://") && !HasSuffix(hostPort, "/") && !HasPrefix(hostPort, "/")
    ensures NormalizeEndpointUrl(hostPort) == "http://" + hostPort
    ensures NormalizeEndpointUrl(hostPort + "/") == "http://" + hostPort
  {
    TrimTrimmed(hostPort, IsSpace);
    var s := hostPort + "/";
    TrimTrimmed(s, IsSpace);
    NoMarkWithSlash(hostPort);
    assert s[|s| - 1..] == "/" && s[..|s| - 1] == hostPort;
  }

  lemma NoMarkWithSlash(hostPort: string)
    requires hostPort != "" && !Contains(hostPort, "://") && !HasSuffix(hostPort, "/")
    ensures !Contains(hostPort + "/", "://")
  {
    var s, n := hostPort + "/", |hostPort|;
    assert hostPort[n - 1..] == [hostPort[n - 1]];
    forall i | 0 <= i <= |s| ensures !("://" <= s[i..]) {
      if i + 3 <= n {
        assert s[i..][..3] == hostPort[i..][..3];
      } else if i + 3 == n + 1 {
        assert s[i..][1] == hostPort[n - 1];
      }
    }
  }

  /* ---- the assignments, in the program's order ---- */

  method ApplyEfficiencyProfile(before: Service) returns (s: Service)
    ensures s == Profiled(before)
  {
    s := before;
    var profile := ToLower(s.efficiencyProfile);
    if profile == "" || profile == "auto" {
      profile := "medium";
    }
    if profile == "low" {
      if s.maxWorkers <= 0 || s.maxWorkers > 2 {
        s := s.(maxWorkers := 1);
      }
      if s.pollInterval == "" {
        s := s.(pollInterval := "60s");
      }
      if s.timeout == "" {
        s := s.(timeout := "10s");
      }
    } else if profile == "medium" {
      if s.maxWorkers <= 0 || s.maxWorkers > 4 {
        s := s.(maxWorkers := 4);
      }
      if s.pollInterval == "" {
        s := s.(pollInterval := "15s");
      }
      if s.timeout == "" {
        s := s.(timeout := "5s");
      }
    } else if profile == "high" {
      if s.maxWorkers <= 0 {
        s := s.(maxWorkers := 8);
      }
      if s.pollInterval == "" {
        s := s.(pollInterval := "5s");
      }
      if s.timeout == "" {
        s := s.(timeout := "3s");
      }
    }
  }

  method Identify(before: Service) returns (s: Service)
    ensures s == Identified(before)
  {
    s := before;
    if s.name == "" {
      s := s.(name := "ocd-smoke-alarm");
    }
    if s.environment == "" {
      s := s.(environment := "dev");
    }
    if s.mode == "" {
      s := s.(mode := "background");
    }
    if s.logLevel == "" {
      s := s.(logLevel := "info");
    }
    if s.efficiencyProfile == "" {
      if s.mode == "background" || s.mode == "headless" {
        s := s.(efficiencyProfile := "low");
      } else {
        s := s.(efficiencyProfile := "medium");
      }
    }
  }

  method ApplyService(before: Service) returns (s: Service)
    ensures s == ServiceDefaults(before)
  {
    s := Identify(before);
    s := ApplyEfficiencyProfile(s);
    if s.pollInterval == "" {
      s := s.(pollInterval := "15s");
    }
    if s.timeout == "" {
      s := s.(timeout := "5s");
    }
    if s.maxWorkers <= 0 {
      s := s.(maxWorkers := 4);
    }
  }

  method ApplyHealth(before: Health) returns (h: Health)
    ensures h == HealthDefaults(before)
  {
    h := before;
    if h.listenAddr == "" { h := h.(listenAddr := "localhost:8088"); }
    if h.healthz == "" { h := h.(healthz := "/healthz"); }
    if h.readyz == "" { h := h.(readyz := "/readyz"); }
    if h.status == "" { h := h.(status := "/status"); }
    if h.isotopeTtl == "" { h := h.(isotopeTtl := "5m"); }
    if !h.enabled && h.listenAddr == "localhost:8088" { h := h.(enabled := true); }
    if h.selfCheck && !h.enabled { h := h.(enabled := true); }
  }

  method ApplyRuntime(serviceName: string, before: Runtime) returns (r: Runtime)
    ensures r == RuntimeDefaults(serviceName, before)
  {
    r := before;
    if r.lockFile == "" { r := r.(lockFile := "/tmp/" + ReplaceAll(serviceName, ' ', '-') + ".lock"); }
    if r.stateDir == "" { r := r.(stateDir := "./state"); }
    if r.baselineFile == "" { r := r.(baselineFile := "./state/known-good.json"); }
    if r.eventHistorySize <= 0 { r := r.(eventHistorySize := 500); }
    if r.gracefulShutdownTimeout == "" { r := r.(gracefulShutdownTimeout := "10s"); }
  }

  method ApplyDiscovery(before: Discovery) returns (d: Discovery)
    ensures d == DiscoveryDefaults(before)
  {
    d := before;
    if d.interval == "" { d := d.(interval := "60s"); }
    if |d.scanHosts| == 0 { d := d.(scanHosts := ["localhost", "localhost"]); }
    if |d.scanPorts| == 0 { d := d.(scanPorts := [3000, 4317, 4318, 8080, 9000]); }
    var l := ApplyLlmsTxt(d.llmsTxt);
    d := d.(llmsTxt := l);
  }

  method ApplyLlmsTxt(before: LlmsTxt) returns (l: LlmsTxt)
    ensures l == LlmsTxtDefaults(before)
  {
    l := before;
    if l.fetchTimeout == "" { l := l.(fetchTimeout := "5s"); }
    if l.autoRegisterOAuth && !l.autoRegisterAsTargets { l := l.(autoRegisterAsTargets := true); }
  }

  method ApplyAlerts(before: Alerts) returns (a: Alerts)
    ensures a == AlertsDefaults(before)
  {
    a := before;
    if a.dedupeWindow == "" { a := a.(dedupeWindow := "2m"); }
    if a.cooldown == "" { a := a.(cooldown := "1m"); }
    if a.retryBeforeEscalation < 0 { a := a.(retryBeforeEscalation := 0); }
    if a.healthy == "" { a := a.(healthy := "info"); }
    if a.degraded == "" { a := a.(degraded := "warning"); }
    if a.regression == "" { a := a.(regression := "critical"); }
    if a.outage == "" { a := a.(outage := "critical"); }
    if a.titlePrefix == "" { a := a.(titlePrefix := "[Smoke Alarm]"); }
  }

  method ApplyAuth(before: Auth) returns (a: Auth)
    ensures a == AuthDefaults(before)
  {
    a := before;
    if a.keystoreProvider == "" { a := a.(keystoreProvider := "auto"); }
    if a.redactionMask == "" { a := a.(redactionMask := "****"); }
    if a.tokenGracePeriod == "" { a := a.(tokenGracePeriod := "30s"); }
    a := ApplyMockRedirect(a);
  }

  method ApplyMockRedirect(before: Auth) returns (a: Auth)
    ensures a == before.(mockListenAddr := Or(before.mockListenAddr, "localhost:8877"),
                         mockPath := Or(before.mockPath, "/oauth/callback"), mockMode := Or(before.mockMode, "allow"))
  {
    a := before;
    if a.mockListenAddr == "" { a := a.(mockListenAddr := "localhost:8877"); }
    if a.mockPath == "" { a := a.(mockPath := "/oauth/callback"); }
    if a.mockMode == "" { a := a.(mockMode := "allow"); }
  }

  method ApplyKnownState(before: KnownState) returns (k: KnownState)
    ensures k == KnownStateDefaults(before)
  {
    k := before;
    if k.sustainSuccess <= 0 { k := k.(sustainSuccess := 2); }
    if k.classifyAs == "" { k := k.(classifyAs := "regression"); }
    if k.outageThreshold <= 0 { k := k.(outageThreshold := 2); }
  }

  method ApplyMeta(before: MetaConfig) returns (m: MetaConfig)
    ensures m == MetaDefaults(before)
  {
    m := before;
    if m.outputDir == "" { m := m.(outputDir := "./state/meta-config"); }
    if |m.formats| == 0 { m := m.(formats := ["yaml", "json"]); }
    if m.token == "" { m := m.(token := "${TOKEN}"); }
    if m.clientSecret == "" { m := m.(clientSecret := "${CLIENT_SECRET}"); }
    if m.endpoint == "" { m := m.(endpoint := "${ENDPOINT}"); }
  }

  method ApplyRemote(before: RemoteAgent) returns (r: RemoteAgent)
    ensures r == RemoteDefaults(before)
  {
    r := before;
    if r.maxWaitForHealthy == "" { r := r.(maxWaitForHealthy := "60s"); }
    if r.lockTtl == "" { r := r.(lockTtl := "5m"); }
  }

  method ApplyHosted(before: Hosted) returns (h: Hosted)
    ensures h == HostedDefaults(before)
  {
    h := before;
    if h.listenAddr == "" { h := h.(listenAddr := ":0"); }
    if |h.transports| == 0 { h := h.(transports := ["http", "sse"]); }
    if |h.protocols| == 0 { h := h.(protocols := ["mcp", "acp"]); }
    if h.mcp == "" { h := h.(mcp := "/mcp"); }
    if h.acp == "" { h := h.(acp := "/acp"); }
    if h.a2a == "" { h := h.(a2a := "/a2a"); }
  }

  method ApplyDynamic(before: DynamicConfig) returns (d: DynamicConfig)
    ensures d == DynamicDefaults(before)
  {
    d := before;
    if d.directory == "" { d := d.(directory := "./state/dynamic-config"); }
    if |d.formats| == 0 { d := d.(formats := ["json", "markdown"]); }
    if d.serveBaseUrl == "" { d := d.(serveBaseUrl := "/dynamic-config"); }
    if !d.requireUniqueIds { d := d.(requireUniqueIds := true); }
  }

  method ApplyFederation(before: Federation) returns (f: Federation)
    ensures f == FederationDefaults(before)
  {
    f := before;
    if f.basePort <= 0 || f.basePort > 65535 {
      f := f.(basePort := 19100);
    }
    if f.maxPort <= 0 || f.maxPort < f.basePort || f.maxPort > 65535 {
      f := f.(maxPort := f.basePort + 3);
    }
    f := f.(pollInterval := Or(f.pollInterval, "30s"), announceInterval := Or(f.announceInterval, "10s"),
            heartbeatInterval := Or(f.heartbeatInterval, "15s"), heartbeatTimeout := Or(f.heartbeatTimeout, "45s"),
            bindAddr := Or(f.bindAddr, "localhost"));
    if f.introducer == "" && f.upstream != "" {
      f := f.(introducer := NormalizeEndpointUrl(f.upstream));
    }
    if f.reportInterval == "" {
      f := f.(reportInterval := f.pollInterval);
    }
  }

  method MoveAddress(before: Target) returns (t: Target)
    ensures t == CarryAddress(before)
  {
    t := before;
    if t.kind != "" && t.transport == "" {
      if ToLower(t.kind) == "local" {
        t := t.(transport := "stdio");
      }
    }
    if t.endpoint == "" && t.url != "" {
      t := t.(endpoint := t.url);
    }
  }

  method MoveCommand(before: Target) returns (t: Target)
    ensures t == CarryCommand(before)
  {
    t := before;
    if t.stdio.command == "" && |t.command| > 0 {
      t := t.(stdio := t.stdio.(command := t.command[0]));
      if |t.command| > 1 {
        t := t.(stdio := t.stdio.(args := t.command[1..]));
      }
      if t.transport == "" {
        t := t.(transport := "stdio");
      }
    }
  }

  method MoveEnv(before: Target) returns (t: Target)
    ensures t == CarryEnv(before)
  {
    t := before;
    if |t.stdio.env| == 0 && |t.environment| > 0 {
      t := t.(stdio := t.stdio.(env := t.environment));
    }
  }

  /** reconcileTargetOpenCodeFields */
  method ReconcileFields(before: Target) returns (t: Target)
    ensures t == Reconcile(before)
  {
    t := MoveAddress(before);
    t := MoveCommand(t);
    t := MoveEnv(t);
    var auth := ReconcileCredentials(t.auth, t.oauth);
    t := t.(auth := auth);
  }

  method ReconcileCredentials(before: TargetAuth, oauth: Option<OAuthBlock>) returns (a: TargetAuth)
    ensures a == ReconcileAuth(before, oauth)
  {
    a := before;
    if oauth.Some? && a.kind == "" {
      a := a.(kind := "oauth");
      if a.clientId == "" {
        a := a.(clientId := oauth.value.clientId);
      }
      if a.secretRef == "" {
        a := a.(secretRef := oauth.value.clientSecretRef);
      }
      if a.tokenUrl == "" {
        a := a.(tokenUrl := oauth.value.tokenUrl);
      }
      if |a.scopes| == 0 && oauth.value.scope != "" {
        a := a.(scopes := Split(oauth.value.scope, ' '));
      }
    }
  }

  method ApplyCheck(s: Service, protocol: string, before: CheckPolicy) returns (c: CheckPolicy)
    ensures c == CheckDefaults(s, protocol, before)
  {
    c := before.(interval := Or(before.interval, s.pollInterval), timeout := Or(before.timeout, s.timeout));
    if c.retries < 0 {
      c := c.(retries := 0);
    }
    if IsBlank(c.handshakeProfile) {
      if SpeaksMcpOrAcp(protocol) {
        c := c.(handshakeProfile := "base");
      } else {
        c := c.(handshakeProfile := "none");
      }
    }
    if |c.requiredMethods| == 0 {
      if SpeaksMcpOrAcp(protocol) {
        c := c.(requiredMethods := ["initialize"]);
      }
    }
  }

  /** The rest of the loop body: status codes are chosen before the transport is inferred, and the
      kind after. */
  method FillFields(lib: Library, s: Service, before: Target) returns (t: Target)
    ensures t == FillTarget(lib, s, before)
  {
    t := before.(name := Or(before.name, before.id), auth := before.auth.(kind := Or(before.auth.kind, "none")));
    var check := ApplyCheck(s, t.protocol, t.check);
    t := t.(check := check);
    if |t.expected.healthyStatusCodes| == 0 {
      if ToLower(t.transport) == "websocket" {
        t := t.(expected := t.expected.(healthyStatusCodes := [101]));
      } else {
        t := t.(expected := t.expected.(healthyStatusCodes := [200]));
      }
    }
    if t.transport == "" {
      t := t.(transport := InferTransport(lib, t.endpoint));
    }
    t := FillKind(t);
  }

  method FillKind(before: Target) returns (t: Target)
    ensures var stdio := EqualFold(before.transport, "stdio");
            t == before.(endpoint := if stdio && IsBlank(before.endpoint) then "stdio://local" else before.endpoint,
                         kind := Or(before.kind, if stdio then "local" else "remote"))
  {
    t := before;
    if EqualFold(t.transport, "stdio") && IsBlank(t.endpoint) {
      t := t.(endpoint := "stdio://local");
    }
    if t.kind == "" {
      if EqualFold(t.transport, "stdio") {
        t := t.(kind := "local");
      } else {
        t := t.(kind := "remote");
      }
    }
  }

  /** `settled` does to every target what the defaults do. */
  ghost predicate Settles(settled: Target -> Target, lib: Library, s: Service) {
    forall t {:trigger TargetDefaults(lib, s, t)} :: settled(t) == TargetDefaults(lib, s, t)
  }

  /** The loop body. */
  method ApplyTarget(lib: Library, s: Service, before: Target, ghost settled: Target -> Target) returns (t: Target)
    requires Settles(settled, lib, s)
    ensures t == settled(before)
  {
    t := ReconcileFields(before);
    t := FillFields(lib, s, t);
    assert t == TargetDefaults(lib, s, before);
  }

  /** The loop over the targets, in place. */
  method ApplyTargets(lib: Library, s: Service, targets: array<Target>, ghost settled: Target -> Target)
    requires Settles(settled, lib, s)
    modifies targets
    ensures targets[..] == MapSeq(old(targets[..]), settled)
  {
    for i := 0 to targets.Length
      invariant forall j :: 0 <= j < i ==> targets[j] == settled(old(targets[j]))
      invariant forall j :: i <= j < targets.Length ==> targets[j] == old(targets[j])
    {
      var t := ApplyTarget(lib, s, targets[i], settled);
      targets[i] := t;
    }
  }

  /** The configuration object: ApplyDefaults assigns its sections and rewrites its target list in place. */
  class Loaded {
    var version: string
    var service: Service
    var health: Health
    var runtime: Runtime
    var discovery: Discovery
    var alerts: Alerts
    var auth: Auth
    var knownState: KnownState
    var metaConfig: MetaConfig
    var remoteAgent: RemoteAgent
    var hosted: Hosted
    var dynamicConfig: DynamicConfig
    var federation: Federation
    var trust: Trust
    var targets: array<Target>

    constructor (c: Config)
      ensures Contents() == c && fresh(targets)
    {
      version, service, health, runtime, discovery := c.version, c.service, c.health, c.runtime, c.discovery;
      alerts, auth, knownState, metaConfig := c.alerts, c.auth, c.knownState, c.metaConfig;
      remoteAgent, hosted, dynamicConfig := c.remoteAgent, c.hosted, c.dynamicConfig;
      federation, trust := c.federation, c.trust;
      targets := new Target[|c.targets|](i requires 0 <= i < |c.targets| => c.targets[i]);
    }

    function Contents(): Config
      reads this, targets
    {
      Config(version, service, health, runtime, discovery, alerts, auth, knownState, metaConfig, remoteAgent, hosted,
             dynamicConfig, federation, trust, targets[..])
    }

    method ApplyDefaults(lib: Library)
      modifies this, targets
      ensures Contents() == Defaulted(lib, old(Contents())) && targets == old(targets)
    {
      ApplyProcessSections();
      ApplyAlertingSections();
      ApplyAgentSections();
      ApplyServingSections();
      ApplyTargetSection(lib);
    }

    method ApplyProcessSections()
      modifies this
      ensures Contents() == ProcessDefaulted(old(Contents())) && targets == old(targets)
    {
      service := ApplyService(service);
      health := ApplyHealth(health);
      runtime := ApplyRuntime(service.name, runtime);
    }

    method ApplyAlertingSections()
      modifies this
      ensures Contents() == AlertingDefaulted(old(Contents())) && targets == old(targets)
    {
      discovery := ApplyDiscovery(discovery);
      alerts := ApplyAlerts(alerts);
      auth := ApplyAuth(auth);
    }

    method ApplyAgentSections()
      modifies this
      ensures Contents() == AgentDefaulted(old(Contents())) && targets == old(targets)
    {
      knownState := ApplyKnownState(knownState);
      metaConfig := ApplyMeta(metaConfig);
      remoteAgent := ApplyRemote(remoteAgent);
    }

    method ApplyServingSections()
      modifies this
      ensures Contents() == ServingDefaulted(old(Contents())) && targets == old(targets)
    {
      hosted := ApplyHosted(hosted);
      dynamicConfig := ApplyDynamic(dynamicConfig);
      federation := ApplyFederation(federation);
    }

    method ApplyTargetSection(lib: Library)
      modifies targets
      ensures Contents() == TargetsDefaulted(lib, old(Contents()))
    {
      ghost var settled := service;
      ApplyTargets(lib, service, targets, t => TargetDefaults(lib, settled, t));
    }
  }

  /* ---- two spellings of one target ---- */

  /** A target before its address, command or credentials are written down in either spelling. */
  predicate Unspelled(t: Target) {
    && t.transport == "" && t.endpoint == "" && t.stdio == Stdio("", [], map[], t.stdio.cwd)
    && t.auth.kind == "" && t.auth.clientId == "" && t.auth.secretRef == "" && t.auth.tokenUrl == "" && t.auth.scopes == []
    && t.kind == "" && t.url == "" && t.command == [] && t.environment == map[] && t.oauth.None?
  }

  datatype Credentials = Credentials(clientId: string, secretRef: string, tokenUrl: string, scopes: seq<string>)

  function CanonicalRemote(t: Target, url: string, c: Credentials): Target {
    t.(endpoint := url,
       auth := t.auth.(kind := "oauth", clientId := c.clientId, secretRef := c.secretRef, tokenUrl := c.tokenUrl, scopes := c.scopes))
  }

  function OpenCodeRemote(t: Target, url: string, c: Credentials): Target {
    t.(kind := "remote", url := url, oauth := Some(OAuthBlock(c.clientId, c.secretRef, Join(c.scopes, ' '), c.tokenUrl)))
  }

  function CanonicalLocal(t: Target, command: string, args: seq<string>, env: map<string, string>): Target {
    t.(transport := "stdio", stdio := Stdio(command, args, env, t.stdio.cwd))
  }

  function OpenCodeLocal(t: Target, command: string, args: seq<string>, env: map<string, string>): Target {
    t.(kind := "local", command := [command] + args, environment := env)
  }

  /** The fields the rest of the program reads. */
  function Canonical(t: Target): Target {
    t.(url := "", command := [], environment := map[], oauth := None)
  }

  /** The scopes an OAuth block ends up with. */
  function ReadScope(scope: string): seq<string> {
    if scope == "" then [] else Split(scope, ' ')
  }

  /** A scope list survives the space-separated form exactly when its tokens hold no space and it is
      not a lone empty token. */
  lemma ScopeRoundTrip(scopes: seq<string>)
    ensures ReadScope(Join(scopes, ' ')) == scopes <==> (forall t :: t in scopes ==> ' ' !in t) && scopes != [""]
  {
    var text := Join(scopes, ' ');
    if (forall t :: t in scopes ==> ' ' !in t) && scopes != [""] {
      if |scopes| >= 1 { SplitJoin(scopes, ' '); }
    }
  }

  /** The credentials of the two remote spellings agree exactly when the scopes survive being joined. */
  lemma RemoteCredentialsAgree(t: Target, url: string, c: Credentials)
    requires Unspelled(t)
    ensures var o, n := OpenCodeRemote(t, url, c), CanonicalRemote(t, url, c);
            && ReconcileAuth(n.auth, n.oauth) == n.auth
            && ReconcileAuth(o.auth, o.oauth) == n.auth.(scopes := ReadScope(Join(c.scopes, ' ')))
  {}

  /** Addresses and transports already agree after reconciliation; only the kind tells them apart. */
  lemma RemoteAddressesAgree(t: Target, url: string, c: Credentials)
    requires Unspelled(t)
    ensures var o, n := ReconcileTransport(OpenCodeRemote(t, url, c)), ReconcileTransport(CanonicalRemote(t, url, c));
            && n == CanonicalRemote(t, url, c)
            && o == OpenCodeRemote(t, url, c).(endpoint := url)
  {
    assert ToLower("remote") == "remote" && ToLower("local") == "local";
  }

  lemma RemoteKinds(lib: Library, s: Service, o: Target, n: Target)
    requires o.kind == "remote" && n.kind == "" && o.transport == n.transport == "" && o.endpoint == n.endpoint
    requires Canonical(o).(auth := n.auth, kind := "") == Canonical(n) && o.auth.kind != "" && n.auth.kind != ""
    ensures Canonical(FillTarget(lib, s, o)) == Canonical(FillTarget(lib, s, n)) <==>
              o.auth == n.auth && InferTransport(lib, o.endpoint) != "stdio"
  {
    StdioInferred(lib, o.endpoint);
  }

  /** Both spellings of a remote target mean the same after ApplyDefaults, exactly when the URL does
      not select stdio and the scopes survive being joined. */
  lemma RemoteSpellingsAgree(lib: Library, s: Service, t: Target, url: string, c: Credentials)
    requires Unspelled(t)
    ensures Canonical(TargetDefaults(lib, s, OpenCodeRemote(t, url, c))) == Canonical(TargetDefaults(lib, s, CanonicalRemote(t, url, c)))
            <==> InferTransport(lib, url) != "stdio" && (forall k :: k in c.scopes ==> ' ' !in k) && c.scopes != [""]
  {
    ScopeRoundTrip(c.scopes);
    RemoteCredentialsAgree(t, url, c);
    RemoteAddressesAgree(t, url, c);
    RemoteKinds(lib, s, Reconcile(OpenCodeRemote(t, url, c)), Reconcile(CanonicalRemote(t, url, c)));
  }

  lemma StdioInferred(lib: Library, url: string)
    ensures EqualFold(InferTransport(lib, url), "stdio") <==> InferTransport(lib, url) == "stdio"
  {
    assert ToLower("http")[0] == 'h' && ToLower("sse")[1] == 's' && ToLower("websocket")[0] == 'w' && ToLower("stdio")[..2] == "st";
  }

  /** After reconciliation the spellings of a local target differ in the kind alone. */
  lemma LocalReconciled(t: Target, command: string, args: seq<string>, env: map<string, string>)
    requires Unspelled(t)
    ensures var o, n := Reconcile(OpenCodeLocal(t, command, args, env)), Reconcile(CanonicalLocal(t, command, args, env));
            n == CanonicalLocal(t, command, args, env) && Canonical(o) == Canonical(n).(kind := "local")
  {
    assert ToLower("local") == "local";
    assert ([command] + args)[1..] == args;
  }

  lemma LocalKinds(lib: Library, s: Service, o: Target, n: Target)
    requires n.kind == "" && n.transport == "stdio" && Canonical(o) == Canonical(n).(kind := "local")
    ensures Canonical(FillTarget(lib, s, o)) == Canonical(FillTarget(lib, s, n))
  {
    assert EqualFold("stdio", "stdio");
  }

  /** Both spellings of a local target mean the same after ApplyDefaults. */
  lemma LocalSpellingsAgree(lib: Library, s: Service, t: Target, command: string, args: seq<string>, env: map<string, string>)
    requires Unspelled(t)
    ensures Canonical(TargetDefaults(lib, s, OpenCodeLocal(t, command, args, env)))
         == Canonical(TargetDefaults(lib, s, CanonicalLocal(t, command, args, env)))
  {
    LocalReconciled(t, command, args, env);
    LocalKinds(lib, s, Reconcile(OpenCodeLocal(t, command, args, env)), Reconcile(CanonicalLocal(t, command, args, env)));
  }
}
