/** How check results become alerts: the known-state store, the escalation policy, and what every
    alert raised for the program's own probers looks like. */
module Escalation {
  import opened GoStrings
  import opened AlertDedupe

  /* ---- the known-state store ---- */

  datatype Status = Unknown | Healthy | Degraded | Outage | Failed {
    predicate Failing() {
      Failed? || Outage? || Degraded?
    }
  }

  predicate IsFailing(s: Status) {
    s.Failing()
  }

  predicate IsHealthy(s: Status) {
    s.Healthy?
  }

  /** What is remembered of one target. */
  datatype Known = Known(status: Status, failures: int, streak: int, everHealthy: bool)

  const NOTHING_KNOWN := Known(Unknown, 0, 0, false)

  datatype Observation = Observation(previous: Known, current: Known)

  /** The memory after one more observation; `sustain` healthy ones in a row make a baseline. */
  function Observe(sustain: int, k: Known, s: Status): Known {
    if s.Healthy? then Known(s, 0, k.streak + 1, k.everHealthy || k.streak + 1 >= sustain)
    else Known(s, if s.Failing() then k.failures + 1 else 0, 0, k.everHealthy)
  }

  function Recall(known: map<string, Known>, id: string): Known {
    if id in known then known[id] else NOTHING_KNOWN
  }

  /** Whether an update goes through: refused before it starts, kept but not saved, or saved. */
  datatype Disk = Cancelled | SaveFails | Saved

  function Remembered(sustain: int, known: map<string, Known>, id: string, s: Status, disk: Disk): map<string, Known> {
    if disk.Cancelled? || id == "" then known else known[id := Observe(sustain, Recall(known, id), s)]
  }

  /** What the caller of the update learns; None is an error. */
  function Reported(sustain: int, known: map<string, Known>, id: string, s: Status, disk: Disk): Option<Observation> {
    if !disk.Saved? || id == "" then None
    else Some(Observation(Recall(known, id), Observe(sustain, Recall(known, id), s)))
  }

  class Store {
    var targets: map<string, Known>
    const sustain: int

    constructor (n: int)
      ensures targets == map[] && sustain == if n < 1 then 1 else n
    {
      targets := map[];
      sustain := if n < 1 then 1 else n;
    }

    method Update(id: string, status: Status, disk: Disk) returns (r: Option<Observation>)
      modifies this
      ensures targets == Remembered(sustain, old(targets), id, status, disk)
      ensures r == Reported(sustain, old(targets), id, status, disk)
    {
      if disk.Cancelled? || id == "" {
        return None;
      }
      var prev := if id in targets then targets[id] else NOTHING_KNOWN;
      var curr := prev.(status := status);
      if status.Healthy? {
        curr := curr.(streak := curr.streak + 1);
        curr := curr.(failures := 0);
        if curr.streak >= sustain {
          curr := curr.(everHealthy := true);
        }
      } else {
        curr := curr.(streak := 0);
        if status.Failing() {
          curr := curr.(failures := curr.failures + 1);
        } else {
          curr := curr.(failures := 0);
        }
      }
      targets := targets[id := curr];
      if disk.SaveFails? {
        return None;
      }
      return Some(Observation(prev, curr));
    }
  }

  /** The memory after a history of observations. */
  function Learned(sustain: int, history: seq<Status>): Known {
    if history == [] then NOTHING_KNOWN
    else Observe(sustain, Learned(sustain, history[..|history| - 1]), history[|history| - 1])
  }

  /** How many observations at the end of the history pass the test. */
  function Trailing(history: seq<Status>, test: Status -> bool): nat {
    if history != [] && test(history[|history| - 1]) then 1 + Trailing(history[..|history| - 1], test) else 0
  }

  /** The `n` observations before position `k` are healthy. */
  predicate Sustained(history: seq<Status>, n: int, k: int) {
    n <= k <= |history| && forall i :: k - n <= i < k && 0 <= i ==> history[i].Healthy?
  }

  lemma {:induction false} TrailingMeans(history: seq<Status>, test: Status -> bool, n: nat)
    ensures Trailing(history, test) >= n <==> n <= |history| && forall i :: |history| - n <= i < |history| ==> test(history[i])
  {
    if n > 0 && history != [] {
      TrailingMeans(history[..|history| - 1], test, n - 1);
      assert forall i :: 0 <= i < |history| - 1 ==> history[..|history| - 1][i] == history[i];
    }
  }

  /** The memory says of a history what it seems to say: the counters count how many failing, or
      healthy, observations came last, and a baseline was reached exactly when enough healthy ones
      once came in a row. */
  lemma {:induction false} LearnedExactly(sustain: int, history: seq<Status>)
    requires sustain >= 1
    ensures Learned(sustain, history).failures == Trailing(history, IsFailing)
    ensures Learned(sustain, history).streak == Trailing(history, IsHealthy)
    ensures Learned(sustain, history).everHealthy <==> exists k :: Sustained(history, sustain, k)
  {
    if history != [] {
      var front, n := history[..|history| - 1], |history|;
      LearnedExactly(sustain, front);
      TrailingMeans(history, IsHealthy, sustain);
      assert forall i :: 0 <= i < n - 1 ==> front[i] == history[i];
      assert forall k :: k < n ==> (Sustained(history, sustain, k) <==> Sustained(front, sustain, k));
      assert Sustained(history, sustain, n) <==> Trailing(history, IsHealthy) >= sustain;
      assert forall k :: Sustained(front, sustain, k) ==> Sustained(history, sustain, k);
    }
  }

  /* ---- classification ---- */

  /** The fields of a check result that escalation and alerts look at. */
  datatype Result = Result(
    state: string, severity: string, failureClass: string, message: string, regression: bool, previouslyOk: bool)

  predicate IsFailure(r: Result) {
    r.state == "unhealthy" || r.state == "outage" || r.state == "regression"
  }

  datatype Severities = Severities(healthy: string, degraded: string, regression: string, outage: string)

  datatype Policy = Policy(hasStore: bool, enabled: bool, threshold: int, aggressive: bool, severities: Severities)

  function ToSeverity(raw: string, fallback: string): string {
    var v := ToLower(TrimSpace(raw));
    if v == "info" || v == "warn" || v == "critical" then v else fallback
  }

  function SeverityFromState(s: Severities, state: string): string {
    if state == "healthy" then ToSeverity(s.healthy, "info")
    else if state == "degraded" then ToSeverity(s.degraded, "warn")
    else if state == "regression" then ToSeverity(s.regression, "critical")
    else if state == "outage" || state == "unhealthy" then ToSeverity(s.outage, "critical")
    else "warn"
  }

  function DefaultMessage(state: string): string {
    if state == "healthy" || state == "degraded" || state == "outage" || state == "unhealthy" then state
    else if state == "regression" then "regression detected"
    else "unknown"
  }

  function ToStatus(state: string): Status {
    if state == "healthy" then Healthy
    else if state == "degraded" then Degraded
    else if state == "outage" then Outage
    else if state == "regression" || state == "unhealthy" then Failed
    else Unknown
  }

  const REGRESSION_MESSAGE := "faulty smoke test regression: previously healthy target now failing"

  function OutageMessage(n: int): string {
    "outage: " + Decimal(n) + " consecutive failures"
  }

  /** Blank fields filled in; `failure` is the class of the probe's error, if it had one. */
  function Filled(p: Policy, failure: Option<string>, r: Result): Result {
    r.(severity := if r.severity == "" then SeverityFromState(p.severities, r.state) else r.severity,
       failureClass := if r.failureClass != "" then r.failureClass else if failure.Some? then failure.value else "none",
       message := if IsBlank(r.message) then DefaultMessage(r.state) else r.message)
  }

  /** The escalation that known state calls for. */
  function Escalated(p: Policy, o: Option<Observation>, r: Result): Result {
    if o.None? then r
    else
      var s, known := ToStatus(r.state), o.value.current;
      var seen := r.(previouslyOk := o.value.previous.everHealthy);
      if r.state == "degraded" || !s.Failing() then seen
      else if known.everHealthy then
        seen.(state := "regression", regression := true, severity := "critical", message := REGRESSION_MESSAGE)
      else if known.failures >= p.threshold && r.state != "regression" && r.failureClass != "auth" && r.failureClass != "config" then
        seen.(state := "outage", severity := "critical", message := OutageMessage(known.failures))
      else seen
  }

  /** The aggressive policy on top of it. */
  function Aggravated(p: Policy, r: Result): Result {
    if p.aggressive && r.previouslyOk && IsFailure(r)
    then r.(severity := "critical", state := if !r.regression && r.state != "regression" then "outage" else r.state)
    else r
  }

  function Classified(p: Policy, o: Option<Observation>, failure: Option<string>, r: Result): Result {
    Aggravated(p, Escalated(p, o, Filled(p, failure, r)))
  }

  predicate UsesStore(p: Policy) {
    p.hasStore && p.enabled
  }

  method FillBlanks(p: Policy, failure: Option<string>, before: Result) returns (r: Result)
    ensures r == Filled(p, failure, before)
  {
    r := before;
    if r.severity == "" {
      r := r.(severity := SeverityFromState(p.severities, r.state));
    }
    if r.failureClass == "" {
      if failure.Some? {
        r := r.(failureClass := failure.value);
      } else {
        r := r.(failureClass := "none");
      }
    }
    if IsBlank(r.message) {
      r := r.(message := DefaultMessage(r.state));
    }
  }

  method Aggravate(p: Policy, before: Result) returns (r: Result)
    ensures r == Aggravated(p, before)
  {
    r := before;
    if p.aggressive && r.previouslyOk && IsFailure(r) {
      if r.severity != "critical" {
        r := r.(severity := "critical");
      }
      if !r.regression && r.state != "regression" {
        r := r.(state := "outage");
      }
    }
  }

  /** classifyWithPolicy */
  method ClassifyWithPolicy(store: Store, p: Policy, id: string, failure: Option<string>, before: Result, disk: Disk)
    returns (r: Result)
    modifies store
    ensures UsesStore(p) ==>
              && r == Classified(p, Reported(store.sustain, old(store.targets), id, ToStatus(before.state), disk), failure, before)
              && store.targets == Remembered(store.sustain, old(store.targets), id, ToStatus(before.state), disk)
    ensures !UsesStore(p) ==> r == Classified(p, None, failure, before) && store.targets == old(store.targets)
  {
    r := FillBlanks(p, failure, before);
    var up: Option<Observation> := None;
    if UsesStore(p) {
      up := store.Update(id, ToStatus(r.state), disk);
    }
    r := ApplyKnownState(p, up, r);
    r := Aggravate(p, r);
  }

  /** The branch that known state opens. */
  method ApplyKnownState(p: Policy, result: Option<Observation>, before: Result) returns (r: Result)
    ensures r == Escalated(p, result, before)
  {
    if result.None? {
      return before;
    }
    var up, status := result.value, ToStatus(before.state);
    r := before.(previouslyOk := up.previous.everHealthy);
    var departure := r.state == "degraded";
    var isRegression := up.current.everHealthy && status.Failing();
    if !departure && (isRegression || (up.current.everHealthy && status.Failing())) {
      r := r.(state := "regression");
      r := r.(regression := true);
      r := r.(severity := "critical");
      r := r.(message := REGRESSION_MESSAGE);
    }
    if !departure && status.Failing() && up.current.failures >= p.threshold && r.state != "regression"
       && (up.current.everHealthy || (r.failureClass != "auth" && r.failureClass != "config")) {
      r := r.(state := "outage");
      r := r.(severity := "critical");
      r := r.(message := OutageMessage(up.current.failures));
    }
  }

  /** maybeAlert */
  function Alert(id: string, r: Result): Option<Event> {
    if !r.regression && r.state != "outage" && r.severity != "critical" then None
    else Some(Event(id, r.state, r.failureClass, r.severity, r.message))
  }

  /** Whatever a result is, an alert is raised exactly for regressions, outages and critical results, and
      it carries the result's words. */
  lemma RaisedFor(id: string, r: Result)
    ensures Alert(id, r).Some? <==> r.regression || r.state == "outage" || r.severity == "critical"
    ensures Alert(id, r).Some? ==> Alert(id, r).value == Event(id, r.state, r.failureClass, r.severity, r.message)
  {}

  /** Under the aggressive policy a failure of a target said to have been healthy becomes a critical
      outage, unless it is a regression already. */
  lemma AggressiveEscalates(p: Policy, failure: Option<string>, r: Result)
    requires p.aggressive && r.previouslyOk && r.severity != "" && (r.state == "unhealthy" || r.state == "outage" || r.state == "regression")
    ensures var c := Classified(p, None, failure, r);
            c.severity == "critical" && c.state == if r.regression || r.state == "regression" then r.state else "outage"
  {}

  /* ---- what the program's probers lead to ---- */

  /** A result as the program's probers, its safety stage and its error paths give it. */
  predicate Probed(r: Result) {
    && ((r.state == "healthy" && r.severity == "info") || (r.state == "degraded" && r.severity == "warn")
        || (r.state == "unhealthy" && r.severity == "warn"))
    && IsFailureClass(r.failureClass) && !r.regression && !r.previouslyOk
  }

  /** A baseline once reached is there before and after the observation. */
  predicate Coherent(o: Observation) {
    o.previous.everHealthy ==> o.current.everHealthy
  }

  lemma ReportedCoherent(sustain: int, known: map<string, Known>, id: string, s: Status, disk: Disk)
    ensures Reported(sustain, known, id, s, disk).Some? ==> Coherent(Reported(sustain, known, id, s, disk).value)
  {}

  /** The two alerts there are. */
  function RegressionAlert(id: string, failureClass: string): Event {
    Event(id, "regression", failureClass, "critical", REGRESSION_MESSAGE)
  }

  function OutageAlert(id: string, failureClass: string, n: int): Event {
    Event(id, "outage", failureClass, "critical", OutageMessage(n))
  }

  /** When an alert is raised, and which: an unhealthy result of a target that once had a baseline is a
      regression; without a baseline it is an outage from the threshold on, unless credentials or
      configuration are to blame; nothing else is ever raised. */
  lemma AlertExactly(p: Policy, o: Option<Observation>, failure: Option<string>, r: Result, id: string)
    requires Probed(r) && (o.Some? ==> Coherent(o.value))
    ensures Alert(id, Classified(p, o, failure, r)) ==
              if o.None? || r.state != "unhealthy" then None
              else if o.value.current.everHealthy then Some(RegressionAlert(id, r.failureClass))
              else if o.value.current.failures >= p.threshold && r.failureClass != "auth" && r.failureClass != "config"
              then Some(OutageAlert(id, r.failureClass, o.value.current.failures))
              else None
  {
    ClassNotBlank(r.failureClass);
  }

  lemma ClassNotBlank(c: string)
    requires IsFailureClass(c)
    ensures c != ""
  {}

  /** What the classification leaves of a result: without an alert the state, severity and message are
      the prober's, a degraded result staying degraded; with one they are the alert's. */
  lemma ClassifiedKeeps(p: Policy, o: Option<Observation>, failure: Option<string>, r: Result, id: string)
    requires Probed(r) && (o.Some? ==> Coherent(o.value))
    ensures var c := Classified(p, o, failure, r);
            var a := Alert(id, c);
            && c.state == (if a.Some? then a.value.state else r.state)
            && c.severity == (if a.Some? then "critical" else r.severity)
            && c.failureClass == r.failureClass
            && (a.None? && !IsBlank(r.message) ==> c.message == r.message)
            && (a.Some? ==> c.message == a.value.message)
            && (c.regression <==> c.state == "regression")
            && (c.previouslyOk <==> o.Some? && o.value.previous.everHealthy)
    ensures r.state == "degraded" ==> Classified(p, o, failure, r).state == "degraded"
  {
    AlertExactly(p, o, failure, r, id);
    ClassNotBlank(r.failureClass);
  }

  /** How a check of each kind counts, when the store takes it: degraded and unhealthy results lengthen
      the failing streak, a healthy one ends it. */
  lemma ChecksCounted(sustain: int, known: map<string, Known>, c: Check)
    requires Probed(c.result) && UsesStore(c.policy) && !c.disk.Cancelled? && c.id != ""
    ensures var before, after := Recall(known, c.id), AfterCheck(sustain, known, c);
            && c.id in after
            && after[c.id].failures == (if c.result.state == "healthy" then 0 else before.failures + 1)
            && after[c.id].streak == (if c.result.state == "healthy" then before.streak + 1 else 0)
            && (after[c.id].everHealthy <==> before.everHealthy || (c.result.state == "healthy" && before.streak + 1 >= sustain))
            && forall id :: id != c.id ==> Recall(after, id) == Recall(known, id)
  {}

  /** A blank severity comes from the configuration, where only the three words of alerts count:
      anything else, "warning" and "error" among them, falls back by state. */
  lemma SeverityConfigured(s: Severities, w: string)
    ensures EqualFold(TrimSpace(w), "info") ==> SeverityFromState(s.(degraded := w), "degraded") == "info"
    ensures EqualFold(TrimSpace(w), "critical") ==> SeverityFromState(s.(degraded := w), "degraded") == "critical"
    ensures !EqualFold(TrimSpace(w), "info") && !EqualFold(TrimSpace(w), "critical") ==>
              SeverityFromState(s.(degraded := w), "degraded") == "warn"
  {
    assert ToLower("info") == "info" && ToLower("critical") == "critical" && ToLower("warn") == "warn";
  }

  /** The aggressive policy never changes such a result: where it applies, the regression already has. */
  lemma AggressiveChangesNothing(p: Policy, o: Option<Observation>, failure: Option<string>, r: Result)
    requires Probed(r) && (o.Some? ==> Coherent(o.value))
    ensures Classified(p, o, failure, r) == Classified(p.(aggressive := false), o, failure, r)
  {}

  /* ---- whole runs of checks ---- */

  /** One finished check. */
  datatype Check = Check(policy: Policy, id: string, result: Result, failure: Option<string>, disk: Disk)

  function AfterCheck(sustain: int, known: map<string, Known>, c: Check): map<string, Known> {
    if UsesStore(c.policy) then Remembered(sustain, known, c.id, ToStatus(c.result.state), c.disk) else known
  }

  function Raise(sustain: int, known: map<string, Known>, c: Check): Option<Event> {
    var o := if UsesStore(c.policy) then Reported(sustain, known, c.id, ToStatus(c.result.state), c.disk) else None;
    Alert(c.id, Classified(c.policy, o, c.failure, c.result))
  }

  /** What is remembered before check `i` of a run. */
  function KnownAt(sustain: int, known: map<string, Known>, checks: seq<Check>, i: nat): map<string, Known>
    requires i <= |checks|
  {
    if i == 0 then known else AfterCheck(sustain, KnownAt(sustain, known, checks, i - 1), checks[i - 1])
  }

  /** The alert each check of a run raises, if it does. */
  function AlertsOf(sustain: int, known: map<string, Known>, checks: seq<Check>): (r: seq<Option<Event>>)
    ensures |r| == |checks|
    ensures forall i :: 0 <= i < |r| ==> r[i] == Raise(sustain, KnownAt(sustain, known, checks, i), checks[i])
  {
    seq(|checks|, i requires 0 <= i < |checks| => Raise(sustain, KnownAt(sustain, known, checks, i), checks[i]))
  }

  ghost predicate AllProbed(checks: seq<Check>) {
    forall i :: 0 <= i < |checks| ==> Probed(checks[i].result)
  }

  /** An alert of the two forms. */
  ghost predicate WellRaised(e: Event) {
    IsFailureClass(e.failureClass) && (e == RegressionAlert(e.id, e.failureClass) || exists n :: e == OutageAlert(e.id, e.failureClass, n))
  }

  lemma RaisedWell(sustain: int, known: map<string, Known>, c: Check)
    requires Probed(c.result) && Raise(sustain, known, c).Some?
    ensures WellRaised(Raise(sustain, known, c).value)
  {
    var o := if UsesStore(c.policy) then Reported(sustain, known, c.id, ToStatus(c.result.state), c.disk) else None;
    ReportedCoherent(sustain, known, c.id, ToStatus(c.result.state), c.disk);
    AlertExactly(c.policy, o, c.failure, c.result, c.id);
  }

  /** Every alert of every run, from any remembered state, is of one of the two forms. */
  lemma RunRaisesWell(sustain: int, known: map<string, Known>, checks: seq<Check>, i: nat)
    requires AllProbed(checks) && i < |checks| && AlertsOf(sustain, known, checks)[i].Some?
    ensures WellRaised(AlertsOf(sustain, known, checks)[i].value)
  {
    RaisedWell(sustain, KnownAt(sustain, known, checks, i), checks[i]);
  }

  predicate ReportsRegression(alert: Option<Event>) {
    alert.Some? && alert.value.state == "regression"
  }

  predicate HasBaseline(known: map<string, Known>, id: string) {
    id in known && known[id].everHealthy
  }

  /** A baseline once reached stays for the rest of a run. */
  lemma {:induction false} BaselinePersists(sustain: int, known: map<string, Known>, checks: seq<Check>, id: string, i: nat, j: nat)
    requires i <= j <= |checks| && HasBaseline(KnownAt(sustain, known, checks, i), id)
    ensures HasBaseline(KnownAt(sustain, known, checks, j), id)
    decreases j
  {
    if i < j {
      BaselinePersists(sustain, known, checks, id, i, j - 1);
      BaselineStays(sustain, KnownAt(sustain, known, checks, j - 1), checks[j - 1], id);
    }
  }

  lemma BaselineStays(sustain: int, known: map<string, Known>, c: Check, id: string)
    requires HasBaseline(known, id)
    ensures HasBaseline(AfterCheck(sustain, known, c), id)
  {}

  lemma BaselineRegresses(sustain: int, known: map<string, Known>, c: Check)
    requires Probed(c.result) && HasBaseline(known, c.id) && Raise(sustain, known, c).Some?
    ensures ReportsRegression(Raise(sustain, known, c))
  {
    var o := if UsesStore(c.policy) then Reported(sustain, known, c.id, ToStatus(c.result.state), c.disk) else None;
    ReportedCoherent(sustain, known, c.id, ToStatus(c.result.state), c.disk);
    AlertExactly(c.policy, o, c.failure, c.result, c.id);
  }

  lemma RegressionHasBaseline(sustain: int, known: map<string, Known>, c: Check)
    requires Probed(c.result) && ReportsRegression(Raise(sustain, known, c))
    ensures HasBaseline(AfterCheck(sustain, known, c), c.id)
  {
    var o := if UsesStore(c.policy) then Reported(sustain, known, c.id, ToStatus(c.result.state), c.disk) else None;
    ReportedCoherent(sustain, known, c.id, ToStatus(c.result.state), c.disk);
    AlertExactly(c.policy, o, c.failure, c.result, c.id);
  }

  /** Once a target has been reported as a regression, it is never reported as an outage again. */
  lemma NoOutageAfterRegression(sustain: int, known: map<string, Known>, checks: seq<Check>, i: nat, j: nat)
    requires AllProbed(checks) && i < j < |checks| && checks[i].id == checks[j].id
    requires ReportsRegression(AlertsOf(sustain, known, checks)[i]) && AlertsOf(sustain, known, checks)[j].Some?
    ensures ReportsRegression(AlertsOf(sustain, known, checks)[j])
  {
    var id := checks[i].id;
    RegressionHasBaseline(sustain, KnownAt(sustain, known, checks, i), checks[i]);
    BaselinePersists(sustain, known, checks, id, i + 1, j);
    BaselineRegresses(sustain, KnownAt(sustain, known, checks, j), checks[j]);
  }

  /* ---- what that means for the sinks ---- */

  /** Redaction puts no pipe into the texts of the two alerts. */
  ghost predicate NoPipesShown(clean: Sanitizer) {
    '|' !in clean(REGRESSION_MESSAGE) && forall n :: '|' !in clean(OutageMessage(n))
  }

  lemma RaisedPlain(e: Event)
    requires WellRaised(e)
    ensures PlainWords(e) && SeverityRank(e.severity) >= 2
  {
    LiteralRanks();
    ClassWords(e.failureClass);
    AlertWords();
  }

  lemma AlertWords()
    ensures '|' !in "regression" && '|' !in "outage" && '|' !in "critical"
  {}

  /** Keys tell all alerts of all runs apart, whatever the ids of the targets. */
  lemma RaisedKeysDistinguish(clean: Sanitizer, e: Event, f: Event)
    requires NoPipesShown(clean) && WellRaised(e) && WellRaised(f)
    ensures DedupeKey(clean, e) == DedupeKey(clean, f) <==> SameUpToCase(clean, e, f)
  {
    RaisedPlain(e);
    RaisedPlain(f);
    PlainEventsDistinguished(clean, e, f);
  }

  /** The alerts of a run, in any order, at any times, some perhaps missing or repeated. */
  ghost predicate Drawn(alerts: seq<Option<Event>>, xs: seq<Stamped>) {
    forall i :: 0 <= i < |xs| ==> Some(xs[i].event) in alerts
  }

  /** For the program's own probers both sinks answer every stream of alerts alike: the desktop sink
      attempts exactly what the log sink emits. */
  lemma RunSinksAlike(clean: Sanitizer, window: int, sustain: int, known: map<string, Known>, checks: seq<Check>, xs: seq<Stamped>)
    requires AllProbed(checks) && Drawn(AlertsOf(sustain, known, checks), xs)
    ensures Emissions(LogSink(window), clean, map[], xs) == Emissions(DesktopSink(window), clean, map[], xs)
    ensures Follows(clean, window, map[], map[], xs)
  {
    forall i | 0 <= i < |xs| ensures SeverityRank(xs[i].event.severity) >= 2 {
      var j :| 0 <= j < |checks| && AlertsOf(sustain, known, checks)[j] == Some(xs[i].event);
      RunRaisesWell(sustain, known, checks, j);
      RaisedPlain(xs[i].event);
    }
    LoudSinksAlike(clean, window, map[], xs);
  }

  /** A prober of one's own is not held to any of this: without known state, what it returns is what is
      raised. */
  lemma CustomProberPasses(p: Policy, failure: Option<string>, r: Result, id: string)
    requires !p.aggressive && r.severity != "" && r.failureClass != "" && !IsBlank(r.message) && r.state == "outage"
    ensures Alert(id, Classified(p, None, failure, r)) == Some(Event(id, r.state, r.failureClass, r.severity, r.message))
  {}
}
