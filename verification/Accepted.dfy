/** What the rest of the program may rely on once Validate has accepted a configuration. */
module Accepted {
  import opened GoStrings
  import opened Config
  import opened Validation
  import SelfRefs
  import Defaults

  /* ---- what defaulting promises to validation ---- */

  /** Defaulting repairs the federation ports into a valid range, except that a base port above 65532
      leaves no room for the range it supplies. */
  lemma RepairedPortsValid(f: Federation)
    ensures FederationPortsOk(Defaults.FederationDefaults(f)) <==>
              !(65532 < f.basePort <= 65535 && !(f.basePort <= f.maxPort <= 65535))
  {}

  /* ---- identifiers ---- */

  /** The self-check target keeps the ids of an accepted configuration distinct exactly when no
      target already has its name. */
  lemma SelfCheckKeepsIdsDistinct(lib: Library, c: Config)
    requires Acceptable(lib, c) && c.health.enabled && c.health.selfCheck
    ensures DistinctIds(c.targets)
    ensures DistinctIds(SelfRefs.WithSelfCheckTarget(c).targets) <==> forall t :: t in c.targets ==> t.id != "self-health-check"
  {
    var ts := SelfRefs.WithSelfCheckTarget(c).targets;
    var n := |c.targets|;
    assert ts[n].id == "self-health-check";
    assert forall i :: 0 <= i < n ==> ts[i] == c.targets[i];
    if DistinctIds(ts) {
      forall t | t in c.targets ensures t.id != "self-health-check" {
        var i :| 0 <= i < n && c.targets[i] == t;
        assert ts[i].id != ts[n].id;
      }
    }
  }

  /* ---- compiling a target ---- */

  const SECOND := 1_000_000_000

  function MustDuration(lib: Library, raw: string, fallback: int): int {
    var d := lib.parseDuration(raw);
    if d.None? || d.value <= 0 then fallback else d.value
  }

  /** The fields of a compiled target that its own validation looks at. */
  datatype Compiled = Compiled(
    id: string, protocol: string, endpoint: string, transport: string, auth: TargetAuth, stdio: Stdio,
    interval: int, timeout: int, retries: int, handshakeProfile: string, requiredMethods: seq<string>, hurlTests: seq<HurlTest>)

  function Compile(lib: Library, t: Target, s: Service): Compiled {
    Compiled(t.id, ToLower(t.protocol), t.endpoint, ToLower(t.transport), t.auth.(kind := ToLower(t.auth.kind)), t.stdio,
             MustDuration(lib, t.check.interval, MustDuration(lib, s.pollInterval, 15 * SECOND)),
             MustDuration(lib, t.check.timeout, MustDuration(lib, s.timeout, 5 * SECOND)),
             t.check.retries, t.check.handshakeProfile, t.check.requiredMethods, t.check.hurlTests)
  }

  predicate Requestable(lib: Library, endpoint: string) {
    lib.parseRequestUri(endpoint).Some?
  }

  predicate ReachableOk(lib: Library, t: Compiled) {
    if t.transport == "stdio" then
      !IsBlank(t.stdio.command) && (IsBlank(t.endpoint) || Requestable(lib, t.endpoint))
    else if t.transport == "sse" then
      && !IsBlank(t.endpoint) && Requestable(lib, t.endpoint)
      && Folded(lib.parseRequestUri(t.endpoint).value.scheme) in ["http", "https"]
    else
      !IsBlank(t.endpoint) && Requestable(lib, t.endpoint)
  }

  predicate HurlRunnable(lib: Library, h: HurlTest) {
    && !IsBlank(h.name) && (!IsBlank(h.file) || !IsBlank(h.endpoint)) && !(!IsBlank(h.file) && !IsBlank(h.endpoint))
    && (IsBlank(h.endpoint) || Requestable(lib, h.endpoint))
    && (var m := ToUpper(TrimSpace(h.httpMethod)); m == "" || IsHttpMethod(h.httpMethod))
  }

  predicate PolicyOk(lib: Library, t: Compiled) {
    && t.timeout > 0 && t.interval > 0 && t.retries >= 0
    && (var p := Folded(t.handshakeProfile); p == "" || p in ["none", "base", "strict"])
    && (forall j :: 0 <= j < |t.requiredMethods| ==> !IsBlank(t.requiredMethods[j]))
    && (forall j :: 0 <= j < |t.hurlTests| ==> HurlRunnable(lib, t.hurlTests[j]))
  }

  predicate AuthComplete(a: TargetAuth) {
    || a.kind == "" || a.kind == "none"
    || (a.kind == "bearer" && a.secretRef != "")
    || (a.kind == "apikey" && a.keyName != "" && a.secretRef != "")
    || (a.kind == "oauth" && a.clientId != "" && a.tokenUrl != "")
  }

  /** targets.Target.Validate returns nil. */
  predicate CompiledOk(lib: Library, t: Compiled) {
    && !IsBlank(t.id) && t.protocol != "" && t.transport != ""
    && ReachableOk(lib, t) && PolicyOk(lib, t) && AuthComplete(t.auth)
  }

  /** toTarget; None is its error. */
  function ToTarget(lib: Library, t: Target, s: Service): Option<Compiled> {
    var r := Compile(lib, t, s);
    if CompiledOk(lib, r) then Some(r) else None
  }

  /** An enabled target of an accepted configuration runs at the interval and timeout written on it:
      neither the service-wide value nor the built-in one is ever used. */
  lemma NeverFallsBack(lib: Library, c: Config, i: nat)
    requires Acceptable(lib, c) && i < |c.targets| && c.targets[i].enabled
    ensures var t := c.targets[i];
            && lib.parseDuration(t.check.interval) == Some(Compile(lib, t, c.service).interval)
            && lib.parseDuration(t.check.timeout) == Some(Compile(lib, t, c.service).timeout)
            && Compile(lib, t, c.service).interval > 0 && Compile(lib, t, c.service).timeout > 0
  {
    assert TargetOk(lib, c.targets[i]);
  }

  /** Where a target writes no usable time, the service's is used, and failing that fifteen seconds with
      five to answer. */
  lemma FallbackTimes(lib: Library, t: Target, s: Service)
    requires lib.parseDuration(t.check.interval).None? || lib.parseDuration(t.check.interval).value <= 0
    requires lib.parseDuration(t.check.timeout).None? || lib.parseDuration(t.check.timeout).value <= 0
    ensures var poll, out := lib.parseDuration(s.pollInterval), lib.parseDuration(s.timeout);
            && Compile(lib, t, s).interval == (if poll.Some? && 0 < poll.value then poll.value else 15_000_000_000)
            && Compile(lib, t, s).timeout == (if out.Some? && 0 < out.value then out.value else 5_000_000_000)
  {}

  lemma LowerTwice(s: string)
    ensures EqualFold(ToLower(s), s)
  {}

  /** A compiled target of an accepted configuration speaks one of the program's words in each place:
      lower case, and nothing but the known protocols, transports and kinds of credentials. */
  lemma CompiledWords(lib: Library, t: Target, s: Service)
    requires TargetOk(lib, t)
    ensures var r := Compile(lib, t, s);
            && r.protocol in ["mcp", "acp", "http"] && r.transport in ["http", "sse", "websocket", "stdio"]
            && r.auth.kind in ["none", "bearer", "apikey", "oauth"]
  {}

  /** And keeps everything the target says, up to the case of these words. */
  lemma CompiledKeeps(lib: Library, t: Target, s: Service)
    ensures var r := Compile(lib, t, s);
            && EqualFold(r.protocol, t.protocol) && EqualFold(r.transport, t.transport) && EqualFold(r.auth.kind, t.auth.kind)
            && r.id == t.id && r.endpoint == t.endpoint && r.stdio == t.stdio && r.auth.(kind := t.auth.kind) == t.auth
            && r.retries == t.check.retries && r.hurlTests == t.check.hurlTests && r.requiredMethods == t.check.requiredMethods
            && r.handshakeProfile == t.check.handshakeProfile
  {
    LowerTwice(t.protocol);
    LowerTwice(t.transport);
    LowerTwice(t.auth.kind);
  }

  /** The self-check target, which is added after validation, compiles as well: every thirty seconds,
      with five to answer. */
  lemma SelfCheckCompiles(lib: Library, h: Health, s: Service)
    requires lib.parseDuration("30s") == Some(30 * SECOND) && lib.parseDuration("5s") == Some(5 * SECOND)
    requires var e := "http://" + h.listenAddr + h.status; Requestable(lib, e) && !IsBlank(e)
    ensures var r := ToTarget(lib, SelfRefs.SelfCheckTarget(h), s);
            && r.Some? && r.value.interval == 30_000_000_000 && r.value.timeout == 5_000_000_000 && r.value.retries == 3
            && r.value.protocol == "http" && r.value.transport == "http" && r.value.endpoint == "http://" + h.listenAddr + h.status
  {
    SelfCheckId();
    assert ToLower("http") == "http" && ToLower("") == "";
    assert IsBlank("");
  }

  lemma SelfCheckId()
    ensures !IsBlank("self-health-check")
  {
    TrimTrimmed("self-health-check", IsSpace);
  }

  /** What the second validator asks beyond the first. */
  predicate CompilesBeyond(lib: Library, t: Target) {
    && !IsBlank(t.id)
    && (IsBlank(t.endpoint) || Requestable(lib, t.endpoint))
    && (EqualFold(t.transport, "sse") && Requestable(lib, t.endpoint) ==>
          Folded(lib.parseRequestUri(t.endpoint).value.scheme) in ["http", "https"])
    && (forall j :: 0 <= j < |t.check.hurlTests| ==>
          IsBlank(t.check.hurlTests[j].endpoint) || Requestable(lib, t.check.hurlTests[j].endpoint))
  }

  /** url.Parse finds no scheme in white space. */
  ghost predicate BlankHasNoScheme(lib: Library) {
    forall s :: IsBlank(s) && lib.parseUrl(s).Some? ==> lib.parseUrl(s).value.scheme == ""
  }

  lemma LowerWords()
    ensures ToLower("stdio") == "stdio" && ToLower("sse") == "sse"
  {}

  lemma AddressCompiles(lib: Library, t: Target, r: Compiled)
    requires BlankHasNoScheme(lib) && AddressOk(lib, t)
    requires r.transport == ToLower(t.transport) && r.endpoint == t.endpoint && r.stdio == t.stdio && r.protocol == ToLower(t.protocol)
    ensures ReachableOk(lib, r) <==>
              && (IsBlank(t.endpoint) || Requestable(lib, t.endpoint))
              && (EqualFold(t.transport, "sse") && Requestable(lib, t.endpoint) ==>
                    Folded(lib.parseRequestUri(t.endpoint).value.scheme) in ["http", "https"])
    ensures r.protocol != "" && r.transport != ""
  {
    LowerWords();
    assert ValidUrl(lib, t.endpoint) ==> !IsBlank(t.endpoint);
  }

  lemma HurlCompiles(lib: Library, h: HurlTest)
    requires HurlOk(lib, h)
    ensures HurlRunnable(lib, h) <==> IsBlank(h.endpoint) || Requestable(lib, h.endpoint)
  {
    assert IsBlank(h.httpMethod) <==> |ToUpper(TrimSpace(h.httpMethod))| == 0;
  }

  lemma PolicyCompiles(lib: Library, t: Target, s: Service)
    requires CheckOk(lib, t.check)
    ensures PolicyOk(lib, Compile(lib, t, s)) <==>
              forall j :: 0 <= j < |t.check.hurlTests| ==>
                IsBlank(t.check.hurlTests[j].endpoint) || Requestable(lib, t.check.hurlTests[j].endpoint)
  {
    forall j | 0 <= j < |t.check.hurlTests|
      ensures HurlRunnable(lib, t.check.hurlTests[j]) <==>
                IsBlank(t.check.hurlTests[j].endpoint) || Requestable(lib, t.check.hurlTests[j].endpoint)
    {
      HurlCompiles(lib, t.check.hurlTests[j]);
    }
  }

  lemma CredentialsComplete(lib: Library, a: TargetAuth)
    requires CredentialsOk(lib, a)
    ensures AuthComplete(a.(kind := ToLower(a.kind)))
  {}

  lemma TargetCompilesExactly(lib: Library, t: Target, s: Service)
    requires BlankHasNoScheme(lib) && TargetOk(lib, t)
    ensures ToTarget(lib, t, s).Some? <==> CompilesBeyond(lib, t)
  {
    AddressCompiles(lib, t, Compile(lib, t, s));
    PolicyCompiles(lib, t, s);
    CredentialsComplete(lib, t.auth);
    LowerWords();
  }

  /** Two validators look at every enabled target.  A target of an accepted configuration passes the
      second exactly when its id is more than white space, its endpoints can stand in a request, and
      an sse endpoint is http or https: nothing else it checks can fail any more. */
  lemma CompilesExactly(lib: Library, c: Config, i: nat)
    requires BlankHasNoScheme(lib) && Acceptable(lib, c) && i < |c.targets| && c.targets[i].enabled
    ensures ToTarget(lib, c.targets[i], c.service).Some? <==> CompilesBeyond(lib, c.targets[i])
  {
    assert TargetOk(lib, c.targets[i]);
    TargetCompilesExactly(lib, c.targets[i], c.service);
  }

  /** The two validators do differ: an sse target on a WebSocket URL is accepted and then refused. */
  lemma SseOverWebSocket(lib: Library, c: Config, t: Target)
    requires BlankHasNoScheme(lib) && Acceptable(lib, c) && TargetOk(lib, t) && t.enabled && t.id != ""
    requires forall i :: 0 <= i < |c.targets| ==> c.targets[i].id != t.id
    requires lib.parseRequestUri("ws://host/events") == lib.parseUrl("ws://host/events") == Some(UrlParts("ws", "host", "/events", ""))
    ensures var u := t.(transport := "sse", endpoint := "ws://host/events");
            && Acceptable(lib, c.(targets := c.targets + [u])) && ToTarget(lib, u, c.service).None?
  {
    var u := t.(transport := "sse", endpoint := "ws://host/events");
    SseTargetOk(lib, t, u.endpoint);
    AcceptableAppend(lib, c, u);
    var d := c.(targets := c.targets + [u]);
    CompilesExactly(lib, d, |c.targets|);
    LowerWords();
    WsIsNotHttp();
  }

  lemma AcceptableAppend(lib: Library, c: Config, t: Target)
    requires Acceptable(lib, c) && TargetOk(lib, t) && t.id != "" && forall i :: 0 <= i < |c.targets| ==> c.targets[i].id != t.id
    ensures Acceptable(lib, c.(targets := c.targets + [t]))
  {
    TargetsAppend(lib, c.targets, t);
    SectionsIgnoreTargets(lib, c, c.targets + [t]);
    FeaturesIgnoreTargets(lib, c, c.targets + [t]);
  }

  lemma TargetsAppend(lib: Library, ts: seq<Target>, t: Target)
    requires TargetsOk(lib, ts) && TargetOk(lib, t) && t.id != "" && forall i :: 0 <= i < |ts| ==> ts[i].id != t.id
    ensures TargetsOk(lib, ts + [t])
  {
    var all := ts + [t];
    TargetsStep(lib, all, |ts|);
    assert all[..|ts|] == ts && all[..|ts| + 1] == all;
  }

  lemma SectionsIgnoreTargets(lib: Library, c: Config, ts: seq<Target>)
    requires SectionsOk(lib, c)
    ensures SectionsOk(lib, c.(targets := ts))
  {}

  lemma FeaturesIgnoreTargets(lib: Library, c: Config, ts: seq<Target>)
    requires FeaturesOk(lib, c)
    ensures FeaturesOk(lib, c.(targets := ts))
  {}

  lemma SseTargetOk(lib: Library, t: Target, endpoint: string)
    requires TargetOk(lib, t) && endpoint != "" && lib.parseUrl(endpoint).Some? && lib.parseUrl(endpoint).value.scheme == "ws"
    ensures TargetOk(lib, t.(transport := "sse", endpoint := endpoint))
  {
    LowerWords();
    assert ToLower("ws") == "ws" && !EqualFold("sse", "stdio");
    assert ValidUrl(lib, endpoint);
  }

  lemma WsIsNotHttp()
    ensures Folded("ws") !in ["http", "https"]
  {
    TrimTrimmed("ws", IsSpace);
    assert |Folded("ws")| == 2;
  }

  /* ---- the second checker ---- */

  datatype Code = TargetMissingEndpoint | OAuthMissingClientId | OAuthMissingTokenUrl | HealthMissingAddr

  /** `at` is the target's position, 0 for the health section. */
  datatype Issue = Issue(code: Code, at: nat)

  predicate Deserved(c: Config, issue: Issue) {
    if issue.code.HealthMissingAddr? then issue.at == 0 && c.health.enabled && c.health.listenAddr == ""
    else
      && issue.at < |c.targets| && c.targets[issue.at].enabled
      && var t := c.targets[issue.at];
         match issue.code
         case TargetMissingEndpoint => t.endpoint == "" && t.stdio.command == ""
         case OAuthMissingClientId => t.auth.kind == "oauth" && t.auth.clientId == ""
         case OAuthMissingTokenUrl => t.auth.kind == "oauth" && t.auth.tokenUrl == ""
         case HealthMissingAddr => false
  }

  function Rank(code: Code): nat {
    match code
    case TargetMissingEndpoint => 0
    case OAuthMissingClientId => 1
    case OAuthMissingTokenUrl => 2
    case HealthMissingAddr => 3
  }

  /** Target by target, the health section last. */
  predicate Before(a: Issue, b: Issue) {
    !a.code.HealthMissingAddr? && (b.code.HealthMissingAddr? || a.at < b.at || (a.at == b.at && Rank(a.code) < Rank(b.code)))
  }

  predicate InOrder(issues: seq<Issue>) {
    forall i, j :: 0 <= i < j < |issues| ==> Before(issues[i], issues[j])
  }

  method ValidateConfigIssues(c: Config) returns (issues: seq<Issue>)
    ensures forall issue :: issue in issues <==> Deserved(c, issue)
    ensures InOrder(issues)
  {
    issues := [];
    for i := 0 to |c.targets|
      invariant forall issue :: issue in issues <==> Deserved(c, issue) && issue.at < i && !issue.code.HealthMissingAddr?
      invariant InOrder(issues)
    {
      var more := ValidateOne(c, i);
      issues := issues + more;
    }
    if c.health.enabled && c.health.listenAddr == "" {
      issues := issues + [Issue(HealthMissingAddr, 0)];
    }
  }

  /** The loop body for target `i`. */
  method ValidateOne(c: Config, i: nat) returns (issues: seq<Issue>)
    requires i < |c.targets|
    ensures forall issue :: issue in issues <==> Deserved(c, issue) && issue.at == i && !issue.code.HealthMissingAddr?
    ensures InOrder(issues)
  {
    issues := [];
    var t := c.targets[i];
    if !t.enabled {
      return;
    }
    if t.endpoint == "" && t.stdio.command == "" {
      issues := issues + [Issue(TargetMissingEndpoint, i)];
    }
    if t.auth.kind == "oauth" {
      if t.auth.clientId == "" {
        issues := issues + [Issue(OAuthMissingClientId, i)];
      }
      if t.auth.tokenUrl == "" {
        issues := issues + [Issue(OAuthMissingTokenUrl, i)];
      }
    }
  }

  /** The second checker finds nothing in an accepted configuration, with or without the self-check
      target. */
  lemma AcceptedHasNoIssues(lib: Library, c: Config)
    requires Acceptable(lib, c)
    ensures forall issue :: !Deserved(c, issue) && !Deserved(SelfRefs.WithSelfCheckTarget(c), issue)
  {
    TargetsNothingAmiss(lib, c.targets);
    NothingDeserved(c);
    SelfCheckNothingAmiss(c);
    NothingDeserved(SelfRefs.WithSelfCheckTarget(c));
  }

  lemma TargetsNothingAmiss(lib: Library, ts: seq<Target>)
    requires TargetsOk(lib, ts)
    ensures forall t :: t in ts && t.enabled ==> NothingAmiss(t)
  {
    forall t | t in ts && t.enabled ensures NothingAmiss(t) {
      var i :| 0 <= i < |ts| && ts[i] == t;
      TargetHasNoIssue(lib, t);
    }
  }

  lemma SelfCheckNothingAmiss(c: Config)
    requires forall t :: t in c.targets && t.enabled ==> NothingAmiss(t)
    ensures forall t :: t in SelfRefs.WithSelfCheckTarget(c).targets && t.enabled ==> NothingAmiss(t)
  {
    assert NothingAmiss(SelfRefs.SelfCheckTarget(c.health));
  }

  predicate NothingAmiss(t: Target) {
    (t.endpoint != "" || t.stdio.command != "") && (t.auth.kind == "oauth" ==> t.auth.clientId != "" && t.auth.tokenUrl != "")
  }

  /** The second checker is silent exactly when every enabled target names an endpoint or a command, and
      its client and token URL if it speaks oauth, and an enabled health section names an address. */
  lemma NothingDeserved(c: Config)
    ensures (forall issue :: !Deserved(c, issue)) <==>
            (forall t :: t in c.targets && t.enabled ==> NothingAmiss(t)) && (c.health.enabled ==> c.health.listenAddr != "")
  {
    if forall issue :: !Deserved(c, issue) {
      assert !Deserved(c, Issue(HealthMissingAddr, 0));
      forall t | t in c.targets && t.enabled ensures NothingAmiss(t) {
        var i :| 0 <= i < |c.targets| && c.targets[i] == t;
        assert !Deserved(c, Issue(TargetMissingEndpoint, i)) && !Deserved(c, Issue(OAuthMissingClientId, i));
        assert !Deserved(c, Issue(OAuthMissingTokenUrl, i));
      }
    } else {
      AmissDeserves(c);
    }
  }

  lemma AmissDeserves(c: Config)
    requires exists issue :: Deserved(c, issue)
    ensures !((forall t :: t in c.targets && t.enabled ==> NothingAmiss(t)) && (c.health.enabled ==> c.health.listenAddr != ""))
  {
    var issue :| Deserved(c, issue);
    if !issue.code.HealthMissingAddr? { assert c.targets[issue.at] in c.targets; }
  }

  lemma TargetHasNoIssue(lib: Library, t: Target)
    requires TargetOk(lib, t)
    ensures NothingAmiss(t)
  {
    assert ToLower("oauth") == "oauth";
    assert IsBlank("");
  }
}
