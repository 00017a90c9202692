/** Defaulting and validation against each other: a configuration that says nothing but its version is
    filled in completely, and the result is accepted.  And which words validation takes, written out. */
module FreshConfig {
  import opened GoStrings
  import opened Config
  import opened Defaults
  import opened Validation

  /* ---- a configuration that says nothing ---- */

  /** The switches of a configuration: everything that is on or off. */
  datatype Switches = Switches(
    health: bool, selfCheck: bool, discovery: bool, llmsTxt: bool, requireHttps: bool, autoTargets: bool, autoOAuth: bool,
    redaction: bool, oauth: bool, mock: bool, knownState: bool, meta: bool, managed: bool, lock: bool,
    hosted: bool, dynamic: bool, uniqueIds: bool, federation: bool)

  const NO_TRUST := Trust(map[], map[])

  function Blank(version: string, w: Switches, ts: seq<Target>): Config {
    Config(version, Service("", "", "", "", "", "", 0, ""), Health(w.health, "", "", "", "", w.selfCheck, ""),
           Runtime("", "", "", 0, ""),
           Discovery(w.discovery, "", [], [], [], LlmsTxt(w.llmsTxt, [], "", w.requireHttps, w.autoTargets, w.autoOAuth)),
           Alerts(0, "", "", "", "", "", "", ""), Auth("", w.redaction, "", w.oauth, "", w.mock, "", "", ""),
           KnownState(w.knownState, 0, "", 0), MetaConfig(w.meta, "", [], "", "", ""), RemoteAgent(w.managed, "", "", w.lock, ""),
           Hosted(w.hosted, "", [], [], "", "", ""), DynamicConfig(w.dynamic, "", [], "", w.uniqueIds),
           Federation(w.federation, "", [], "", 0, 0, "", "", "", "", "", ""), NO_TRUST, ts)
  }

  const FRESH_SERVICE := Service("ocd-smoke-alarm", "dev", "background", "info", "60s", "10s", 1, "low")

  function FreshHealth(w: Switches): Health {
    Health(true, "localhost:8088", "/healthz", "/readyz", "/status", w.selfCheck, "5m")
  }

  const FRESH_RUNTIME := Runtime("/tmp/ocd-smoke-alarm.lock", "./state", "./state/known-good.json", 500, "10s")

  function FreshDiscovery(w: Switches): Discovery {
    Discovery(w.discovery, "60s", ["localhost", "localhost"], [3000, 4317, 4318, 8080, 9000], [],
              LlmsTxt(w.llmsTxt, [], "5s", w.requireHttps, w.autoTargets || w.autoOAuth, w.autoOAuth))
  }

  const FRESH_ALERTS := Alerts(0, "2m", "1m", "info", "warning", "critical", "critical", "[Smoke Alarm]")

  function FreshAuth(w: Switches): Auth {
    Auth("auto", w.redaction, "****", w.oauth, "30s", w.mock, "localhost:8877", "/oauth/callback", "allow")
  }

  function FreshKnownState(w: Switches): KnownState {
    KnownState(w.knownState, 2, "regression", 2)
  }

  function FreshMeta(w: Switches): MetaConfig {
    MetaConfig(w.meta, "./state/meta-config", ["yaml", "json"], "${TOKEN}", "${CLIENT_SECRET}", "${ENDPOINT}")
  }

  function FreshRemote(w: Switches): RemoteAgent {
    RemoteAgent(w.managed, "", "60s", w.lock, "5m")
  }

  function FreshHosted(w: Switches): Hosted {
    Hosted(w.hosted, ":0", ["http", "sse"], ["mcp", "acp"], "/mcp", "/acp", "/a2a")
  }

  function FreshDynamic(w: Switches): DynamicConfig {
    DynamicConfig(w.dynamic, "./state/dynamic-config", ["json", "markdown"], "/dynamic-config", true)
  }

  function FreshFederation(w: Switches): Federation {
    Federation(w.federation, "", [], "30s", 19100, 19103, "10s", "15s", "45s", "", "localhost", "30s")
  }

  /** What the defaults make of it. */
  function Fresh(version: string, w: Switches, ts: seq<Target>): Config {
    Config(version, FRESH_SERVICE, FreshHealth(w), FRESH_RUNTIME, FreshDiscovery(w), FRESH_ALERTS, FreshAuth(w),
           FreshKnownState(w), FreshMeta(w), FreshRemote(w), FreshHosted(w), FreshDynamic(w), FreshFederation(w), NO_TRUST, ts)
  }

  lemma FreshProcess(w: Switches)
    ensures ServiceDefaults(Service("", "", "", "", "", "", 0, "")) == FRESH_SERVICE
    ensures HealthDefaults(Health(w.health, "", "", "", "", w.selfCheck, "")) == FreshHealth(w)
  {
    assert ToLower("low") == "low";
  }

  lemma FreshLockFile()
    ensures RuntimeDefaults("ocd-smoke-alarm", Runtime("", "", "", 0, "")) == FRESH_RUNTIME
  {
    assert ReplaceAll("ocd-smoke-alarm", ' ', '-') == "ocd-smoke-alarm";
    assert "/tmp/" + "ocd-smoke-alarm" + ".lock" == "/tmp/ocd-smoke-alarm.lock";
  }

  lemma FreshAlerting(w: Switches)
    ensures DiscoveryDefaults(Discovery(w.discovery, "", [], [], [], LlmsTxt(w.llmsTxt, [], "", w.requireHttps, w.autoTargets, w.autoOAuth)))
         == FreshDiscovery(w)
    ensures AlertsDefaults(Alerts(0, "", "", "", "", "", "", "")) == FRESH_ALERTS
    ensures AuthDefaults(Auth("", w.redaction, "", w.oauth, "", w.mock, "", "", "")) == FreshAuth(w)
  {}

  lemma FreshAgent(w: Switches)
    ensures KnownStateDefaults(KnownState(w.knownState, 0, "", 0)) == FreshKnownState(w)
    ensures MetaDefaults(MetaConfig(w.meta, "", [], "", "", "")) == FreshMeta(w)
    ensures RemoteDefaults(RemoteAgent(w.managed, "", "", w.lock, "")) == FreshRemote(w)
  {}

  lemma FreshServing(w: Switches)
    ensures HostedDefaults(Hosted(w.hosted, "", [], [], "", "", "")) == FreshHosted(w)
    ensures DynamicDefaults(DynamicConfig(w.dynamic, "", [], "", w.uniqueIds)) == FreshDynamic(w)
    ensures FederationDefaults(Federation(w.federation, "", [], "", 0, 0, "", "", "", "", "", "")) == FreshFederation(w)
  {}

  /** Every value ApplyDefaults supplies. */
  lemma BlankFilled(lib: Library, version: string, w: Switches, ts: seq<Target>)
    ensures Defaulted(lib, Blank(version, w, ts)) == Fresh(version, w, TargetsDefaults(lib, FRESH_SERVICE, ts))
  {
    FreshProcess(w);
    FreshLockFile();
    FreshAlerting(w);
    FreshAgent(w);
    FreshServing(w);
  }

  /* ---- and it is accepted ---- */

  /** The library parses the durations and addresses the defaults supply. */
  predicate ReadsDefaults(lib: Library) {
    && (forall d :: d in ["60s", "10s", "5s", "5m", "2m", "1m", "30s", "15s", "45s"] ==>
          lib.parseDuration(d).Some? && lib.parseDuration(d).value > 0)
    && lib.splitsHostPort("localhost:8088") && lib.splitsHostPort("localhost:8877") && lib.splitsHostPort(":0")
  }

  lemma VisibleWord(d: string)
    requires d != "" && !IsSpace(d[0]) && !IsSpace(d[|d| - 1])
    ensures TrimSpace(d) == d && !IsBlank(d)
  {
    TrimTrimmed(d, IsSpace);
  }

  lemma DefaultDurations(lib: Library, d: string)
    requires ReadsDefaults(lib) && d in ["60s", "10s", "5s", "5m", "2m", "1m", "30s", "15s", "45s"]
    ensures IsPositive(lib, d)
  {
    VisibleWord(d);
  }

  lemma FreshServiceOk(lib: Library)
    requires ReadsDefaults(lib)
    ensures ServiceOk(lib, FRESH_SERVICE)
  {
    DefaultDurations(lib, "60s"); DefaultDurations(lib, "10s");
    assert ToLower("background") == "background" && ToLower("low") == "low" && ToLower("info") == "info";
  }

  lemma FreshHealthOk(lib: Library, w: Switches)
    requires ReadsDefaults(lib)
    ensures HealthOk(lib, FreshHealth(w))
  {
    DefaultDurations(lib, "5m");
  }

  lemma FreshRuntimeOk(lib: Library)
    requires ReadsDefaults(lib)
    ensures RuntimeOk(lib, FRESH_RUNTIME) && TrustOk(lib, NO_TRUST)
  {
    DefaultDurations(lib, "10s");
  }

  lemma FreshDiscoveryOk(lib: Library, w: Switches)
    requires ReadsDefaults(lib)
    ensures DiscoveryOk(lib, FreshDiscovery(w))
  {
    DefaultDurations(lib, "60s"); DefaultDurations(lib, "5s");
  }

  lemma FreshAlertsOk(lib: Library)
    requires ReadsDefaults(lib)
    ensures AlertsOk(lib, FRESH_ALERTS)
  {
    DefaultDurations(lib, "2m"); DefaultDurations(lib, "1m");
    assert ToLower("info") == "info" && ToLower("warning") == "warning" && ToLower("critical") == "critical";
  }

  lemma FreshAuthOk(lib: Library, w: Switches)
    requires ReadsDefaults(lib)
    ensures AuthOk(lib, FreshAuth(w))
  {
    DefaultDurations(lib, "30s");
    VisibleWord("allow");
    assert ToLower("auto") == "auto" && ToLower("allow") == "allow";
  }

  lemma FreshKnownStateOk(w: Switches)
    ensures KnownStateOk(FreshKnownState(w))
  {
    assert ToLower("regression") == "regression";
  }

  lemma FreshMetaOk(w: Switches)
    ensures MetaOk(FreshMeta(w))
  {
    VisibleWord("yaml"); VisibleWord("json");
    assert ToLower("yaml") == "yaml" && ToLower("json") == "json";
  }

  lemma FreshRemoteOk(lib: Library, w: Switches)
    requires ReadsDefaults(lib)
    ensures RemoteOk(lib, FreshRemote(w))
  {
    DefaultDurations(lib, "60s"); DefaultDurations(lib, "5m");
  }

  lemma FreshHostedOk(lib: Library, w: Switches)
    requires ReadsDefaults(lib)
    ensures HostedOk(lib, FreshHosted(w))
  {
    VisibleWord("http"); VisibleWord("sse"); VisibleWord("mcp"); VisibleWord("acp");
    assert ToLower("http") == "http" && ToLower("sse") == "sse" && ToLower("mcp") == "mcp" && ToLower("acp") == "acp";
  }

  lemma FreshFederationOk(lib: Library, w: Switches)
    requires ReadsDefaults(lib)
    ensures FederationOk(lib, FreshFederation(w))
  {
    DefaultDurations(lib, "30s"); DefaultDurations(lib, "10s"); DefaultDurations(lib, "15s"); DefaultDurations(lib, "45s");
  }

  lemma FreshDynamicOk(w: Switches)
    ensures DynamicOk(FreshDynamic(w))
  {
    VisibleWord("./state/dynamic-config");
    VisibleWord("json"); VisibleWord("markdown");
    assert ToLower("json") == "json" && ToLower("markdown") == "markdown";
  }

  /** A configuration is acceptable exactly when its version is "1" and each part is. */
  lemma AcceptableExactly(lib: Library, c: Config)
    ensures Acceptable(lib, c) <==>
              && c.version == "1" && ServiceOk(lib, c.service) && HealthOk(lib, c.health) && TrustOk(lib, c.trust)
              && RuntimeOk(lib, c.runtime) && DiscoveryOk(lib, c.discovery) && AlertsOk(lib, c.alerts) && AuthOk(lib, c.auth)
              && KnownStateOk(c.knownState) && MetaOk(c.metaConfig) && RemoteOk(lib, c.remoteAgent) && HostedOk(lib, c.hosted)
              && DynamicOk(c.dynamicConfig) && FederationOk(lib, c.federation) && TargetsOk(lib, c.targets)
  {}

  /** What ApplyDefaults fills in is what Validate accepts: whatever is switched on, a configuration
      whose sections say nothing is accepted exactly when its version is "1" and its targets are. */
  lemma FreshAcceptedExactly(lib: Library, version: string, w: Switches, ts: seq<Target>)
    requires ReadsDefaults(lib)
    ensures Acceptable(lib, Defaulted(lib, Blank(version, w, ts))) <==>
              version == "1" && TargetsOk(lib, TargetsDefaults(lib, FRESH_SERVICE, ts))
  {
    BlankFilled(lib, version, w, ts);
    FreshServiceOk(lib);
    FreshHealthOk(lib, w);
    FreshRuntimeOk(lib);
    FreshDiscoveryOk(lib, w);
    FreshAlertsOk(lib);
    FreshAuthOk(lib, w);
    FreshKnownStateOk(w);
    FreshMetaOk(w);
    FreshRemoteOk(lib, w);
    FreshHostedOk(lib, w);
    FreshDynamicOk(w);
    FreshFederationOk(lib, w);
    AcceptableExactly(lib, Fresh(version, w, TargetsDefaults(lib, FRESH_SERVICE, ts)));
  }

  /* ---- the words ---- */

  /** `w` is one of the words, however it is cased. */
  predicate OneOf(w: string, words: seq<string>) {
    exists i :: 0 <= i < |words| && EqualFold(w, words[i])
  }

  predicate LowerWords(words: seq<string>) {
    forall i :: 0 <= i < |words| ==> ToLower(words[i]) == words[i]
  }

  lemma OneOfMeans(w: string, words: seq<string>)
    requires LowerWords(words)
    ensures OneOf(w, words) <==> ToLower(w) in words
  {}

  /** The duration is written, parses, and is positive. */
  predicate PositiveText(lib: Library, raw: string) {
    !IsBlank(raw) && lib.parseDuration(raw).Some? && lib.parseDuration(raw).value > 0
  }

  /** For which values a service section stays acceptable, field by field. */
  lemma ServiceWords(lib: Library, s: Service, w: string, n: int)
    requires ServiceOk(lib, s)
    ensures ServiceOk(lib, s.(mode := w)) <==> OneOf(w, ["foreground", "background", "headless"])
    ensures ServiceOk(lib, s.(efficiencyProfile := w)) <==> OneOf(w, ["auto", "low", "medium", "high"])
    ensures ServiceOk(lib, s.(logLevel := w)) <==> OneOf(w, ["debug", "info", "warn", "error"])
    ensures ServiceOk(lib, s.(pollInterval := w)) <==> PositiveText(lib, w)
    ensures ServiceOk(lib, s.(timeout := w)) <==> PositiveText(lib, w)
    ensures ServiceOk(lib, s.(maxWorkers := n)) <==> 0 < n <= 2048
  {
    ModeWords();
    ProfileNames();
    LevelNames();
    OneOfMeans(w, ["foreground", "background", "headless"]);
    OneOfMeans(w, ["auto", "low", "medium", "high"]);
    OneOfMeans(w, ["debug", "info", "warn", "error"]);
  }

  lemma ModeWords()
    ensures LowerWords(["foreground", "background", "headless"])
  {}

  lemma ProfileNames()
    ensures LowerWords(["auto", "low", "medium", "high"])
  {}

  lemma LevelNames()
    ensures LowerWords(["debug", "info", "warn", "error"])
  {}

  /** An enabled health section needs an address that splits, three routes and a lifetime. */
  lemma HealthNeeds(lib: Library, h: Health)
    ensures HealthOk(lib, h) <==>
              !h.enabled || (lib.splitsHostPort(h.listenAddr) && h.listenAddr != "" && "/" <= h.healthz && "/" <= h.readyz
                             && "/" <= h.status && PositiveText(lib, h.isotopeTtl))
  {}

  lemma SeverityWords(lib: Library, a: Alerts, w: string, n: int)
    requires AlertsOk(lib, a)
    ensures var known := OneOf(w, ["info", "warn", "warning", "error", "critical"]);
            && (AlertsOk(lib, a.(healthy := w)) <==> known) && (AlertsOk(lib, a.(degraded := w)) <==> known)
            && (AlertsOk(lib, a.(regression := w)) <==> known) && (AlertsOk(lib, a.(outage := w)) <==> known)
    ensures AlertsOk(lib, a.(retryBeforeEscalation := n)) <==> n >= 0
    ensures AlertsOk(lib, a.(dedupeWindow := w)) <==> PositiveText(lib, w)
    ensures AlertsOk(lib, a.(cooldown := w)) <==> PositiveText(lib, w)
  {
    OneSeverity(w);
  }

  lemma OneSeverity(w: string)
    ensures IsSeverity(w) <==> OneOf(w, ["info", "warn", "warning", "error", "critical"])
  {
    OneOfMeans(w, ["info", "warn", "warning", "error", "critical"]);
  }

  lemma AuthNeeds(lib: Library, a: Auth)
    ensures AuthOk(lib, a) <==>
              && OneOf(a.keystoreProvider, ["auto", "keychain", "secretservice", "file"])
              && !(a.redactionEnabled && a.redactionMask == "")
              && (a.oauthEnabled ==> PositiveText(lib, a.tokenGracePeriod))
              && (a.mockEnabled ==> lib.splitsHostPort(a.mockListenAddr) && "/" <= a.mockPath && OneOf(TrimSpace(a.mockMode), ["allow", "fail"]))
  {
    OneOfMeans(a.keystoreProvider, ["auto", "keychain", "secretservice", "file"]);
    OneOfMeans(TrimSpace(a.mockMode), ["allow", "fail"]);
  }

  lemma KnownStateNeeds(k: KnownState)
    ensures KnownStateOk(k) <==> !k.enabled || (k.sustainSuccess > 0 && k.outageThreshold > 0 && OneOf(k.classifyAs, ["regression", "outage"]))
  {
    OneOfMeans(k.classifyAs, ["regression", "outage"]);
  }

  /** Formats are words of the list, and no two are the same word however spelled. */
  lemma FormatNeeds(formats: seq<string>, words: seq<string>)
    requires LowerWords(words)
    ensures FormatsOk(formats, words) <==>
              && (forall i :: 0 <= i < |formats| ==> OneOf(TrimSpace(formats[i]), words))
              && (forall i, j :: 0 <= i < j < |formats| ==> !EqualFold(TrimSpace(formats[i]), TrimSpace(formats[j])))
  {
    forall i | 0 <= i < |formats| ensures OneOf(TrimSpace(formats[i]), words) <==> Folded(formats[i]) in words {
      OneOfMeans(TrimSpace(formats[i]), words);
    }
    assert forall i :: 0 <= i < |formats| ==> Folded(formats[i]) == ToLower(TrimSpace(formats[i]));
  }

  lemma FormatSections(m: MetaConfig, d: DynamicConfig)
    ensures MetaOk(m) <==> !m.enabled || (m.outputDir != "" && FormatsOk(m.formats, ["yaml", "json"]))
    ensures DynamicOk(d) <==>
              !d.enabled || (!IsBlank(d.directory) && "/" <= d.serveBaseUrl && FormatsOk(d.formats, ["json", "markdown"]))
    ensures LowerWords(["yaml", "json"]) && LowerWords(["json", "markdown"])
  {}

  lemma HostedNeeds(lib: Library, h: Hosted)
    ensures HostedOk(lib, h) <==>
              !h.enabled || (
                && lib.splitsHostPort(h.listenAddr) && "/" <= h.mcp && "/" <= h.acp && "/" <= h.a2a
                && (forall i :: 0 <= i < |h.transports| ==> OneOf(TrimSpace(h.transports[i]), ["http", "sse"]))
                && (forall i :: 0 <= i < |h.protocols| ==> OneOf(TrimSpace(h.protocols[i]), ["mcp", "acp", "a2a"])))
  {
    forall i | 0 <= i < |h.transports|
      ensures OneOf(TrimSpace(h.transports[i]), ["http", "sse"]) <==> Folded(h.transports[i]) in ["http", "sse"]
    {
      OneOfMeans(TrimSpace(h.transports[i]), ["http", "sse"]);
    }
    forall i | 0 <= i < |h.protocols|
      ensures OneOf(TrimSpace(h.protocols[i]), ["mcp", "acp", "a2a"]) <==> Folded(h.protocols[i]) in ["mcp", "acp", "a2a"]
    {
      OneOfMeans(TrimSpace(h.protocols[i]), ["mcp", "acp", "a2a"]);
    }
  }

  lemma FederationNeeds(lib: Library, f: Federation, base: int, top: int)
    requires f.enabled && FederationOk(lib, f)
    ensures FederationOk(lib, f.(basePort := base, maxPort := top)) <==> 0 < base && base <= top && top < 65536
    ensures forall d :: FederationOk(lib, f.(downstream := d)) <==> d == []
  {}

  lemma UrlWords(lib: Library, raw: string)
    ensures ValidUrl(lib, raw) <==>
              lib.parseUrl(raw).Some? && OneOf(lib.parseUrl(raw).value.scheme, ["http", "https", "ws", "wss", "stdio"])
  {
    if lib.parseUrl(raw).Some? {
      OneOfMeans(lib.parseUrl(raw).value.scheme, ["http", "https", "ws", "wss", "stdio"]);
      assert ToLower("") == "";
    }
  }

  /** A remote llms.txt address: https, or http unless https is required, with a host and a path to a
      file of that name. */
  lemma LlmsTxtUriNeeds(lib: Library, raw: string, requireHttps: bool)
    ensures ValidLlmsTxtUri(lib, raw, requireHttps) <==>
              && lib.parseUrl(raw).Some?
              && var u := lib.parseUrl(raw).value;
                 && OneOf(u.scheme, if requireHttps then ["https"] else ["http", "https"]) && !IsBlank(u.host)
                 && (HasSuffix(ToLower(u.path), "/llms.txt") || EqualFold(TrimSpace(u.path), "llms.txt"))
  {
    if lib.parseUrl(raw).Some? {
      OneOfMeans(lib.parseUrl(raw).value.scheme, ["https"]);
      OneOfMeans(lib.parseUrl(raw).value.scheme, ["http", "https"]);
      assert ToLower("") == "";
    }
  }

  /** Where an acceptable target may be reached instead. */
  lemma AddressWords(lib: Library, t: Target, w: string)
    requires AddressOk(lib, t)
    ensures AddressOk(lib, t.(protocol := w)) <==> OneOf(w, ["mcp", "acp", "http"])
    ensures AddressOk(lib, t.(kind := w)) <==> w == "" || OneOf(w, ["local", "remote"])
  {
    OneOfMeans(w, ["mcp", "acp", "http"]);
    OneOfMeans(w, ["local", "remote"]);
  }

  lemma TransportWords(lib: Library, t: Target, w: string)
    requires AddressOk(lib, t)
    ensures AddressOk(lib, t.(transport := w)) <==>
              || (EqualFold(w, "stdio") && !IsBlank(t.stdio.command) && (IsBlank(t.endpoint) || ValidUrl(lib, t.endpoint)))
              || (OneOf(w, ["http", "sse", "websocket"]) && t.endpoint != "" && ValidUrl(lib, t.endpoint))
  {
    OneOfMeans(w, ["http", "sse", "websocket"]);
    assert ToLower("stdio") == "stdio";
  }

  lemma HurlNeeds(lib: Library, h: HurlTest)
    ensures HurlOk(lib, h) <==>
              && !IsBlank(h.name) && (IsBlank(h.file) || IsBlank(h.endpoint)) && !(IsBlank(h.file) && IsBlank(h.endpoint))
              && (!IsBlank(h.endpoint) ==> ValidUrl(lib, h.endpoint)) && (!IsBlank(h.httpMethod) ==> IsHttpMethod(h.httpMethod))
  {}

  lemma ExpectedNeeds(e: Expected)
    ensures ExpectedOk(e) <==>
              0 <= e.knownAgentCountMin && forall j :: 0 <= j < |e.healthyStatusCodes| ==> 99 < e.healthyStatusCodes[j] < 600
  {}

  lemma DiscoveryNeeds(lib: Library, d: Discovery)
    ensures DiscoveryOk(lib, d) <==>
              !d.enabled || (
                && PositiveText(lib, d.interval) && (forall i :: 0 <= i < |d.scanPorts| ==> 0 < d.scanPorts[i] < 65536)
                && (forall i :: 0 <= i < |d.catalogUrls| ==> ValidUrl(lib, d.catalogUrls[i]))
                && (!d.llmsTxt.enabled || (
                      && PositiveText(lib, d.llmsTxt.fetchTimeout) && (d.llmsTxt.autoRegisterAsTargets || !d.llmsTxt.autoRegisterOAuth)
                      && forall i :: 0 <= i < |d.llmsTxt.remoteUris| ==>
                           !IsBlank(d.llmsTxt.remoteUris[i]) && ValidLlmsTxtUri(lib, d.llmsTxt.remoteUris[i], d.llmsTxt.requireHttps))))
  {}

  lemma OthersNeed(lib: Library, t: Trust, r: Runtime, a: RemoteAgent)
    ensures TrustOk(lib, t) <==>
              && (forall c :: c in t.clusters ==> !IsBlank(c)) && (forall c :: c in t.clusters ==> !IsBlank(t.clusters[c]))
              && (t.roots == map[] || lib.parsesRoots(t.roots))
    ensures RuntimeOk(lib, r) <==> PositiveText(lib, r.gracefulShutdownTimeout) && 0 < r.eventHistorySize
    ensures RemoteOk(lib, a) <==>
              !a.managedUpdates || (
                && (a.controlEndpoint == "" || ValidUrl(lib, a.controlEndpoint)) && PositiveText(lib, a.maxWaitForHealthy)
                && (!a.requireLock || PositiveText(lib, a.lockTtl)))
  {}

  /* ---- a target that says next to nothing ---- */

  function Minimal(id: string, protocol: string, endpoint: string): Target {
    Target(id, true, protocol, "", endpoint, "", Expected([], 0), TargetAuth("", "", "", "", "", "", "", "", []),
           Stdio("", [], map[], ""), CheckPolicy("", "", 0, "", [], []), "", "", [], map[], None)
  }

  lemma MinimalCheckOk(lib: Library, protocol: string)
    requires ReadsDefaults(lib)
    ensures CheckOk(lib, CheckDefaults(FRESH_SERVICE, protocol, CheckPolicy("", "", 0, "", [], [])))
  {
    DefaultDurations(lib, "60s"); DefaultDurations(lib, "10s");
    HandshakeByProtocol(FRESH_SERVICE, protocol, CheckPolicy("", "", 0, "", [], []));
    HandshakeWords();
  }

  lemma HandshakeWords()
    ensures Folded("base") == "base" && Folded("none") == "none" && !IsBlank("initialize")
  {
    VisibleWord("base"); VisibleWord("none"); VisibleWord("initialize");
    assert ToLower("base") == "base" && ToLower("none") == "none";
  }

  lemma MinimalFilled(lib: Library, id: string, protocol: string, endpoint: string)
    ensures var t := TargetDefaults(lib, FRESH_SERVICE, Minimal(id, protocol, endpoint));
            && t.protocol == protocol && t.stdio.command == "" && t.auth.kind == "none"
            && t.expected == Expected([200], 0) && t.transport == InferTransport(lib, endpoint)
            && t.check == CheckDefaults(FRESH_SERVICE, protocol, CheckPolicy("", "", 0, "", [], []))
            && (InferTransport(lib, endpoint) != "stdio" ==> t.endpoint == endpoint)
            && t.kind == if InferTransport(lib, endpoint) == "stdio" then "local" else "remote"
  {
    StdioInferred(lib, endpoint);
  }

  /** An id, a protocol and an endpoint are enough: such a target is accepted exactly when the protocol
      is known and the endpoint is an http or WebSocket URL. */
  lemma MinimalAcceptedExactly(lib: Library, id: string, protocol: string, endpoint: string)
    requires ReadsDefaults(lib) && endpoint != ""
    ensures TargetOk(lib, TargetDefaults(lib, FRESH_SERVICE, Minimal(id, protocol, endpoint))) <==>
              && OneOf(protocol, ["mcp", "acp", "http"])
              && lib.parseUrl(endpoint).Some? && OneOf(lib.parseUrl(endpoint).value.scheme, ["http", "https", "ws", "wss"])
  {
    MinimalFilled(lib, id, protocol, endpoint);
    MinimalCheckOk(lib, protocol);
    MinimalOk(lib, TargetDefaults(lib, FRESH_SERVICE, Minimal(id, protocol, endpoint)), endpoint);
  }

  lemma MinimalOk(lib: Library, t: Target, endpoint: string)
    requires endpoint != "" && CheckOk(lib, t.check) && t.expected == Expected([200], 0) && t.auth.kind == "none"
    requires t.stdio.command == "" && t.transport == InferTransport(lib, endpoint)
    requires t.transport != "stdio" ==> t.endpoint == endpoint
    requires t.kind == if t.transport == "stdio" then "local" else "remote"
    ensures TargetOk(lib, t) <==>
              && OneOf(t.protocol, ["mcp", "acp", "http"])
              && lib.parseUrl(endpoint).Some? && OneOf(lib.parseUrl(endpoint).value.scheme, ["http", "https", "ws", "wss"])
  {
    ProtocolsFold();
    OneOfMeans(t.protocol, ["mcp", "acp", "http"]);
    CredentialsNeed(lib, t.auth);
    ExpectedNeeds(t.expected);
    if t.transport == "stdio" {
      NoStdioWithoutCommand(lib, t);
    } else {
      InferredAddress(lib, t);
    }
    UrlWords(lib, endpoint);
    SchemesOfTransports(lib, endpoint);
  }

  lemma ProtocolsFold()
    ensures LowerWords(["mcp", "acp", "http"])
  {}

  lemma NoStdioWithoutCommand(lib: Library, t: Target)
    requires t.transport == "stdio" && t.stdio.command == ""
    ensures !AddressOk(lib, t)
  {
    assert IsBlank("");
  }

  lemma InferredAddress(lib: Library, t: Target)
    requires t.transport in ["http", "sse", "websocket"] && t.kind == "remote" && t.endpoint != ""
    ensures AddressOk(lib, t) <==> ToLower(t.protocol) in ["mcp", "acp", "http"] && ValidUrl(lib, t.endpoint)
  {
    TransportsFold();
  }

  /** A usable URL does not select stdio exactly when its scheme is one of the other four. */
  lemma SchemesOfTransports(lib: Library, endpoint: string)
    ensures InferTransport(lib, endpoint) in ["http", "sse", "websocket", "stdio"]
    ensures ValidUrl(lib, endpoint) && InferTransport(lib, endpoint) != "stdio" <==>
              lib.parseUrl(endpoint).Some? && OneOf(lib.parseUrl(endpoint).value.scheme, ["http", "https", "ws", "wss"])
  {
    if lib.parseUrl(endpoint).Some? {
      OneOfMeans(lib.parseUrl(endpoint).value.scheme, ["http", "https", "ws", "wss"]);
      assert ToLower("") == "";
    }
  }

  lemma TransportsFold()
    ensures ToLower("http") == "http" && ToLower("sse") == "sse" && ToLower("websocket") == "websocket" && ToLower("stdio") == "stdio"
    ensures ToLower("local") == "local" && ToLower("remote") == "remote"
  {}

  lemma CheckWords(lib: Library, c: CheckPolicy, w: string, n: int)
    requires CheckOk(lib, c)
    ensures CheckOk(lib, c.(handshakeProfile := w)) <==> OneOf(TrimSpace(w), ["none", "base", "strict"])
    ensures CheckOk(lib, c.(retries := n)) <==> 0 <= n && n < 101
    ensures CheckOk(lib, c.(interval := w)) <==> PositiveText(lib, w)
    ensures CheckOk(lib, c.(timeout := w)) <==> PositiveText(lib, w)
  {
    OneOfMeans(TrimSpace(w), ["none", "base", "strict"]);
  }

  lemma UpperFold(s: string, word: string)
    requires ToUpper(word) == word
    ensures ToUpper(s) == word <==> EqualFold(s, word)
  {
    if ToUpper(s) == word {
      assert forall i :: 0 <= i < |s| ==> Lower(Upper(s[i])) == Lower(s[i]) && ToUpper(s)[i] == Upper(s[i]);
    }
    if EqualFold(s, word) {
      assert |s| == |ToLower(s)| == |ToLower(word)| == |word|;
      assert forall i :: 0 <= i < |s| ==> Lower(s[i]) == ToLower(s)[i] == ToLower(word)[i] == Lower(word[i]);
      assert forall i :: 0 <= i < |s| ==> Upper(word[i]) == ToUpper(word)[i] == word[i];
    }
  }

  lemma MethodWords(s: string)
    ensures IsHttpMethod(s) <==> OneOf(TrimSpace(s), ["GET", "POST", "PUT", "PATCH", "DELETE", "HEAD", "OPTIONS"])
  {
    var words := ["GET", "POST", "PUT", "PATCH", "DELETE", "HEAD", "OPTIONS"];
    UpperWords();
    forall i | 0 <= i < |words| ensures ToUpper(TrimSpace(s)) == words[i] <==> EqualFold(TrimSpace(s), words[i]) {
      UpperFold(TrimSpace(s), words[i]);
    }
  }

  lemma UpperWords()
    ensures forall w :: w in ["GET", "POST", "PUT", "PATCH", "DELETE", "HEAD", "OPTIONS"] ==> ToUpper(w) == w
  {}

  /** What each kind of credentials needs. */
  lemma CredentialsNeed(lib: Library, a: TargetAuth)
    ensures CredentialsOk(lib, a) <==>
              || EqualFold(a.kind, "none")
              || (EqualFold(a.kind, "bearer") && a.secretRef != "" && a.header != "")
              || (EqualFold(a.kind, "apikey") && a.secretRef != "" && a.keyName != "")
              || (EqualFold(a.kind, "oauth") && a.clientId != "" && ValidUrl(lib, a.tokenUrl) && a.tokenUrl != ""
                  && (a.redirectUrl == "" || ValidUrl(lib, a.redirectUrl)))
  {
    AuthKinds();
  }

  lemma AuthKinds()
    ensures ToLower("none") == "none" && ToLower("bearer") == "bearer" && ToLower("apikey") == "apikey" && ToLower("oauth") == "oauth"
  {}
}
