/** The configuration schema: the fields that defaulting, validation and self-reference rewriting
    read or write.  Fields none of them touches are left out. */
module Config {
  import opened GoStrings

  datatype Service = Service(
    name: string, environment: string, mode: string, logLevel: string, pollInterval: string, timeout: string,
    maxWorkers: int, efficiencyProfile: string)

  datatype Health = Health(
    enabled: bool, listenAddr: string, healthz: string, readyz: string, status: string, selfCheck: bool, isotopeTtl: string)

  datatype Runtime = Runtime(
    lockFile: string, stateDir: string, baselineFile: string, eventHistorySize: int, gracefulShutdownTimeout: string)

  datatype LlmsTxt = LlmsTxt(
    enabled: bool, remoteUris: seq<string>, fetchTimeout: string, requireHttps: bool,
    autoRegisterAsTargets: bool, autoRegisterOAuth: bool)

  datatype Discovery = Discovery(
    enabled: bool, interval: string, scanHosts: seq<string>, scanPorts: seq<int>, catalogUrls: seq<string>, llmsTxt: LlmsTxt)

  datatype Alerts = Alerts(
    retryBeforeEscalation: int, dedupeWindow: string, cooldown: string,
    healthy: string, degraded: string, regression: string, outage: string, titlePrefix: string)

  datatype Auth = Auth(
    keystoreProvider: string, redactionEnabled: bool, redactionMask: string, oauthEnabled: bool, tokenGracePeriod: string,
    mockEnabled: bool, mockListenAddr: string, mockPath: string, mockMode: string)

  datatype KnownState = KnownState(enabled: bool, sustainSuccess: int, classifyAs: string, outageThreshold: int)

  datatype MetaConfig = MetaConfig(
    enabled: bool, outputDir: string, formats: seq<string>, token: string, clientSecret: string, endpoint: string)

  datatype RemoteAgent = RemoteAgent(
    managedUpdates: bool, controlEndpoint: string, maxWaitForHealthy: string, requireLock: bool, lockTtl: string)

  datatype Hosted = Hosted(
    enabled: bool, listenAddr: string, transports: seq<string>, protocols: seq<string>, mcp: string, acp: string, a2a: string)

  datatype DynamicConfig = DynamicConfig(
    enabled: bool, directory: string, formats: seq<string>, serveBaseUrl: string, requireUniqueIds: bool)

  datatype Federation = Federation(
    enabled: bool, upstream: string, downstream: seq<string>, pollInterval: string, basePort: int, maxPort: int,
    announceInterval: string, heartbeatInterval: string, heartbeatTimeout: string, introducer: string, bindAddr: string,
    reportInterval: string)

  datatype Trust = Trust(clusters: map<string, string>, roots: map<string, string>)

  datatype OAuthBlock = OAuthBlock(clientId: string, clientSecretRef: string, scope: string, tokenUrl: string)

  datatype TargetAuth = TargetAuth(
    kind: string, secretRef: string, header: string, keyName: string, clientId: string, tokenUrl: string,
    redirectUrl: string, callbackId: string, scopes: seq<string>)

  datatype Stdio = Stdio(command: string, args: seq<string>, env: map<string, string>, cwd: string)

  datatype HurlTest = HurlTest(name: string, file: string, endpoint: string, httpMethod: string)

  datatype CheckPolicy = CheckPolicy(
    interval: string, timeout: string, retries: int, handshakeProfile: string, requiredMethods: seq<string>,
    hurlTests: seq<HurlTest>)

  datatype Expected = Expected(healthyStatusCodes: seq<int>, knownAgentCountMin: int)

  /** `kind`, `url`, `command`, `environment` and `oauth` are the OpenCode spelling. */
  datatype Target = Target(
    id: string, enabled: bool, protocol: string, name: string, endpoint: string, transport: string,
    expected: Expected, auth: TargetAuth, stdio: Stdio, check: CheckPolicy,
    kind: string, url: string, command: seq<string>, environment: map<string, string>, oauth: Option<OAuthBlock>)

  datatype Config = Config(
    version: string, service: Service, health: Health, runtime: Runtime, discovery: Discovery, alerts: Alerts,
    auth: Auth, knownState: KnownState, metaConfig: MetaConfig, remoteAgent: RemoteAgent, hosted: Hosted,
    dynamicConfig: DynamicConfig, federation: Federation, trust: Trust, targets: seq<Target>)

  /** What url.Parse reports, for the checks that look at these parts only. */
  datatype UrlParts = UrlParts(scheme: string, host: string, path: string, rawQuery: string)

  /** Library functions the configuration code calls: url.Parse, url.ParseRequestURI,
      time.ParseDuration (nanoseconds), whether net.SplitHostPort and isotope.ParseRoots succeed.
      None is an error return. */
  datatype Library = Library(
    parseUrl: string -> Option<UrlParts>,
    parseRequestUri: string -> Option<UrlParts>,
    parseDuration: string -> Option<int>,
    splitsHostPort: string -> bool,
    parsesRoots: map<string, string> -> bool)
}
