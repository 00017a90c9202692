/** Alert sinks: severity filter, dedupe key, and the throttle both sinks keep in a map.
    Times and durations are integers (nanoseconds). */
module AlertDedupe {
  import opened GoStrings

  datatype Event = Event(id: string, state: string, failureClass: string, severity: string, message: string)

  /** Event with the clock reading the sink took for it before locking its mutex. */
  datatype Stamped = Stamped(event: Event, now: int)

  /** A sink: minimum severity (lower-cased and trimmed by its constructor) and dedupe window. */
  datatype Sink = Sink(minSeverity: string, window: int)

  /** The redaction of message text, which the sinks share and which nothing here depends on. */
  type Sanitizer = string -> string

  function SeverityRank(v: string): nat {
    var s := ToLower(TrimSpace(v));
    if s == "critical" then 4
    else if s == "error" then 3
    else if s == "warn" || s == "warning" then 2
    else if s == "info" then 1
    else 0
  }

  predicate SeverityAllowed(current: string, minSeverity: string) {
    IsBlank(minSeverity) || SeverityRank(current) >= SeverityRank(minSeverity)
  }

  function DedupeKey(clean: Sanitizer, e: Event): string {
    ToLower(Join([e.id, e.state, e.failureClass, e.severity, clean(e.message)], '|'))
  }

  const MAX_DURATION: int := 0x7fff_ffff_ffff_ffff

  /** time.Time.Sub saturates at the largest and smallest durations. */
  function Sub(a: int, b: int): int {
    if a - b > MAX_DURATION then MAX_DURATION
    else if a - b < -MAX_DURATION - 1 then -MAX_DURATION - 1
    else a - b
  }

  /** Saturation never changes a dedupe decision. */
  lemma SaturationHarmless(now: int, last: int, window: int)
    requires window <= MAX_DURATION
    ensures 0 < window ==> (Sub(now, last) < window <==> now - last < window)
  {}

  predicate Deduped(last: map<string, int>, window: int, key: string, now: int) {
    0 < window && key in last && Sub(now, last[key]) < window
  }

  /** Severities rank by their word, however it is cased or padded; unknown words rank lowest. */
  lemma RankExactly(v: string)
    ensures var w := TrimSpace(v);
            && (SeverityRank(v) >= 4 <==> EqualFold(w, "critical"))
            && (SeverityRank(v) >= 3 <==> EqualFold(w, "critical") || EqualFold(w, "error"))
            && (SeverityRank(v) >= 2 <==> SeverityRank(v) >= 3 || EqualFold(w, "warn") || EqualFold(w, "warning"))
            && (SeverityRank(v) >= 1 <==> SeverityRank(v) >= 2 || EqualFold(w, "info"))
    ensures SeverityAllowed(v, "")
  {
    TrimLowerCommute(v, IsSpace);
    SeverityFolds();
  }

  lemma SeverityFolds()
    ensures ToLower("critical") == "critical" && ToLower("error") == "error" && ToLower("warn") == "warn"
    ensures ToLower("warning") == "warning" && ToLower("info") == "info"
  {}

  /** What one call of Notify does to the map. */
  function Remember(last: map<string, int>, window: int, key: string, now: int): map<string, int> {
    if window <= 0 || Deduped(last, window, key, now) then last else last[key := now]
  }

  predicate Emits(sink: Sink, clean: Sanitizer, last: map<string, int>, x: Stamped) {
    SeverityAllowed(x.event.severity, sink.minSeverity) && !Deduped(last, sink.window, DedupeKey(clean, x.event), x.now)
  }

  function After(sink: Sink, clean: Sanitizer, last: map<string, int>, x: Stamped): map<string, int> {
    if SeverityAllowed(x.event.severity, sink.minSeverity)
    then Remember(last, sink.window, DedupeKey(clean, x.event), x.now) else last
  }

  /** The map after a sequence of calls, in the order their mutex sections ran. */
  function Final(sink: Sink, clean: Sanitizer, last: map<string, int>, xs: seq<Stamped>): map<string, int>
    decreases |xs|
  {
    if xs == [] then last else Final(sink, clean, After(sink, clean, last, xs[0]), xs[1..])
  }

  /** Which of those calls emitted. */
  function Emissions(sink: Sink, clean: Sanitizer, last: map<string, int>, xs: seq<Stamped>): (r: seq<bool>)
    ensures |r| == |xs|
    decreases |xs|
  {
    if xs == [] then []
    else [Emits(sink, clean, last, xs[0])] + Emissions(sink, clean, After(sink, clean, last, xs[0]), xs[1..])
  }

  /** A sink object, called once per event. */
  class Notifier {
    const sink: Sink
    const clean: Sanitizer
    var last: map<string, int>

    constructor (minSeverity: string, window: int, clean: Sanitizer)
      ensures sink == Sink(ToLower(TrimSpace(minSeverity)), window) && this.clean == clean && last == map[]
    {
      sink := Sink(ToLower(TrimSpace(minSeverity)), window);
      this.clean := clean;
      last := map[];
    }

    method Notify(x: Stamped) returns (emitted: bool)
      modifies this
      ensures emitted <==> Emits(sink, clean, old(last), x)
      ensures last == After(sink, clean, old(last), x)
    {
      if !SeverityAllowed(x.event.severity, sink.minSeverity) { return false; }
      var deduped := IsDeduped(x);
      return !deduped;
    }

    method IsDeduped(x: Stamped) returns (r: bool)
      modifies this
      ensures r <==> Deduped(old(last), sink.window, DedupeKey(clean, x.event), x.now)
      ensures last == Remember(old(last), sink.window, DedupeKey(clean, x.event), x.now)
    {
      if sink.window <= 0 { return false; }
      var key := DedupeKey(clean, x.event);
      if key in last && Sub(x.now, last[key]) < sink.window { return true; }
      last := last[key := x.now];
      return false;
    }
  }

  /* ---- one key at a time ---- */

  /** A throttle for one key: remembers the last reading it let through. */
  function Throttle(window: int, last: Option<int>, readings: seq<int>): (r: seq<bool>)
    ensures |r| == |readings|
    decreases |readings|
  {
    if readings == [] then []
    else
      var pass := !(0 < window && last.Some? && Sub(readings[0], last.value) < window);
      [pass] + Throttle(window, if pass && 0 < window then Some(readings[0]) else last, readings[1..])
  }

  function Lookup(m: map<string, int>, k: string): Option<int> {
    if k in m then Some(m[k]) else None
  }

  predicate Concerns(sink: Sink, clean: Sanitizer, k: string, x: Stamped) {
    SeverityAllowed(x.event.severity, sink.minSeverity) && DedupeKey(clean, x.event) == k
  }

  /** The readings of the severity-allowed events with key `k`. */
  function Readings(sink: Sink, clean: Sanitizer, k: string, xs: seq<Stamped>): seq<int> {
    if xs == [] then []
    else if Concerns(sink, clean, k, xs[0]) then [xs[0].now] + Readings(sink, clean, k, xs[1..])
    else Readings(sink, clean, k, xs[1..])
  }

  /** What the sink answered to those events. */
  function Answers(sink: Sink, clean: Sanitizer, k: string, xs: seq<Stamped>, emitted: seq<bool>): seq<bool>
    requires |emitted| == |xs|
  {
    if xs == [] then []
    else if Concerns(sink, clean, k, xs[0]) then [emitted[0]] + Answers(sink, clean, k, xs[1..], emitted[1..])
    else Answers(sink, clean, k, xs[1..], emitted[1..])
  }

  /** The shared map is a family of independent throttles: what a sink answers for a key is what that
      key's own throttle answers to that key's severity-allowed events, whatever else arrives. */
  lemma {:induction false} RefinesThrottles(sink: Sink, clean: Sanitizer, last: map<string, int>, xs: seq<Stamped>, k: string)
    ensures Answers(sink, clean, k, xs, Emissions(sink, clean, last, xs))
         == Throttle(sink.window, Lookup(last, k), Readings(sink, clean, k, xs))
    decreases |xs|
  {
    if xs != [] {
      var x := xs[0];
      var next := After(sink, clean, last, x);
      RefinesThrottles(sink, clean, next, xs[1..], k);
      assert Emissions(sink, clean, last, xs)[1..] == Emissions(sink, clean, next, xs[1..]);
      if Concerns(sink, clean, k, x) {
        var readings := Readings(sink, clean, k, xs);
        assert readings[1..] == Readings(sink, clean, k, xs[1..]);
      } else {
        assert Lookup(next, k) == Lookup(last, k);
      }
    }
  }

  /** The severity-allowed events of a sequence. */
  function AllowedOf(sink: Sink, xs: seq<Stamped>): seq<Stamped> {
    if xs == [] then []
    else if SeverityAllowed(xs[0].event.severity, sink.minSeverity) then [xs[0]] + AllowedOf(sink, xs[1..])
    else AllowedOf(sink, xs[1..])
  }

  /** The answers given to those. */
  function AllowedAnswers(sink: Sink, xs: seq<Stamped>, emitted: seq<bool>): seq<bool>
    requires |emitted| == |xs|
  {
    if xs == [] then []
    else if SeverityAllowed(xs[0].event.severity, sink.minSeverity) then [emitted[0]] + AllowedAnswers(sink, xs[1..], emitted[1..])
    else AllowedAnswers(sink, xs[1..], emitted[1..])
  }

  /** Events a sink filters out might as well not exist: they are answered with silence, and the sink's
      memory and its other answers are those of the severity-allowed events alone. */
  lemma {:induction false} FilteredEventsInvisible(sink: Sink, clean: Sanitizer, last: map<string, int>, xs: seq<Stamped>)
    ensures Final(sink, clean, last, xs) == Final(sink, clean, last, AllowedOf(sink, xs))
    ensures AllowedAnswers(sink, xs, Emissions(sink, clean, last, xs)) == Emissions(sink, clean, last, AllowedOf(sink, xs))
    ensures forall i :: 0 <= i < |xs| && Emissions(sink, clean, last, xs)[i] ==> SeverityAllowed(xs[i].event.severity, sink.minSeverity)
    decreases |xs|
  {
    if xs != [] {
      var x := xs[0];
      var next := After(sink, clean, last, x);
      FilteredEventsInvisible(sink, clean, next, xs[1..]);
      var all := Emissions(sink, clean, last, xs);
      assert all == [Emits(sink, clean, last, x)] + Emissions(sink, clean, next, xs[1..]);
      assert all[1..] == Emissions(sink, clean, next, xs[1..]);
      if SeverityAllowed(x.event.severity, sink.minSeverity) {
        assert AllowedOf(sink, xs)[1..] == AllowedOf(sink, xs[1..]);
      }
      forall i | 0 <= i < |xs| && all[i] ensures SeverityAllowed(xs[i].event.severity, sink.minSeverity) {
        if i > 0 { assert xs[1..][i - 1] == xs[i]; }
      }
    }
  }

  /* ---- spacing ---- */

  /** The readings a throttle let through. */
  function Passed(readings: seq<int>, pass: seq<bool>): (r: seq<int>)
    requires |readings| == |pass|
  {
    if readings == [] then []
    else if pass[0] then [readings[0]] + Passed(readings[1..], pass[1..])
    else Passed(readings[1..], pass[1..])
  }

  ghost predicate Spaced(window: int, ts: seq<int>) {
    forall i, j :: 0 <= i < j < |ts| ==> ts[j] - ts[i] >= (j - i) * window
  }

  lemma SpacedCons(window: int, t: int, ts: seq<int>)
    requires Spaced(window, ts) && (ts != [] ==> ts[0] - t >= window)
    ensures Spaced(window, [t] + ts)
  {
    var all := [t] + ts;
    forall i, j | 0 <= i < j < |all| ensures all[j] - all[i] >= (j - i) * window {
      if i > 0 {
        assert all[j] == ts[j - 1] && all[i] == ts[i - 1];
      } else if j > 1 {
        assert all[j] - ts[0] >= (j - 1) * window;
        assert (j - 1) * window + window == j * window;
      }
    }
  }

  /** Readings may arrive in any order, yet passed readings are a window apart each, so the
      remembered reading only grows. */
  lemma {:induction false} ThrottleSpacing(window: int, last: Option<int>, readings: seq<int>)
    requires 0 < window <= MAX_DURATION
    ensures var ts := Passed(readings, Throttle(window, last, readings));
            Spaced(window, ts) && (ts != [] && last.Some? ==> ts[0] - last.value >= window)
    decreases |readings|
  {
    if readings != [] {
      var pass := Throttle(window, last, readings)[0];
      var next := if pass then Some(readings[0]) else last;
      ThrottleSpacing(window, next, readings[1..]);
      assert Throttle(window, last, readings)[1..] == Throttle(window, next, readings[1..]);
      if last.Some? { SaturationHarmless(readings[0], last.value, window); }
      if pass {
        SpacedCons(window, readings[0], Passed(readings[1..], Throttle(window, next, readings[1..])));
      }
    }
  }

  /** Every suppressed reading is within a window of one let through before it. */
  lemma {:induction false} SuppressedHasCause(window: int, last: Option<int>, readings: seq<int>, i: nat)
    requires window <= MAX_DURATION
    requires i < |readings| && !Throttle(window, last, readings)[i]
    ensures 0 < window
    ensures || (last.Some? && readings[i] < last.value + window)
            || exists j :: 0 <= j < i && Throttle(window, last, readings)[j] && readings[i] < readings[j] + window
    decreases |readings|
  {
    var pass := Throttle(window, last, readings)[0];
    var next := if pass && 0 < window then Some(readings[0]) else last;
    var rest := Throttle(window, next, readings[1..]);
    assert Throttle(window, last, readings) == [pass] + rest;
    if i == 0 {
      SaturationHarmless(readings[0], last.value, window);
    } else {
      SuppressedHasCause(window, next, readings[1..], i - 1);
      if !(next.Some? && readings[i] < next.value + window) {
        var j :| 0 <= j < i - 1 && rest[j] && readings[1..][i - 1] < readings[1..][j] + window;
        assert Throttle(window, last, readings)[j + 1] && readings[i] < readings[j + 1] + window;
      }
    }
  }

  /* ---- concurrent callers ---- */

  type Thread = nat

  /** Callers that read the clock and later enter the mutex, in any order. */
  datatype World = World(
    clock: int,
    waiting: map<Thread, Stamped>,
    last: map<string, int>,
    log: seq<Stamped>,       // events in the order they went through the mutex
    emitted: seq<bool>)

  datatype Action =
    | Advance(d: nat)
    | ReadClock(t: Thread, event: Event)
    | Enter(t: Thread)

  function Step(sink: Sink, clean: Sanitizer, w: World, a: Action): Option<World> {
    match a
    case Advance(d) => Some(w.(clock := w.clock + d))
    case ReadClock(t, e) =>
      if t in w.waiting then None else Some(w.(waiting := w.waiting[t := Stamped(e, w.clock)]))
    case Enter(t) =>
      if t !in w.waiting then None
      else
        var x := w.waiting[t];
        Some(World(w.clock, w.waiting - {t}, After(sink, clean, w.last, x),
                   w.log + [x], w.emitted + [Emits(sink, clean, w.last, x)]))
  }

  function Exec(sink: Sink, clean: Sanitizer, w: World, acts: seq<Action>): Option<World>
    decreases |acts|
  {
    if acts == [] then Some(w)
    else
      var next := Step(sink, clean, w, acts[0]);
      if next.None? then None else Exec(sink, clean, next.value, acts[1..])
  }

  function Fresh(clock: int): World {
    World(clock, map[], map[], [], [])
  }

  /** The mutex serializes: the sink's answers are those of calling it once per log entry, and all
      readings were taken while the run lasted. */
  ghost predicate Serialized(sink: Sink, clean: Sanitizer, since: int, w: World) {
    && since <= w.clock
    && w.last == Final(sink, clean, map[], w.log)
    && w.emitted == Emissions(sink, clean, map[], w.log)
    && (forall t :: t in w.waiting ==> since <= w.waiting[t].now <= w.clock)
    && (forall i :: 0 <= i < |w.log| ==> since <= w.log[i].now <= w.clock)
  }

  lemma {:induction false} Snoc(sink: Sink, clean: Sanitizer, last: map<string, int>, xs: seq<Stamped>, x: Stamped)
    ensures Final(sink, clean, last, xs + [x]) == After(sink, clean, Final(sink, clean, last, xs), x)
    ensures Emissions(sink, clean, last, xs + [x])
         == Emissions(sink, clean, last, xs) + [Emits(sink, clean, Final(sink, clean, last, xs), x)]
    decreases |xs|
  {
    if xs == [] {
      assert xs + [x] == [x] + xs;
      OneMore(sink, clean, last, x, xs);
    } else {
      var x0, tail := xs[0], xs[1..];
      assert xs == [x0] + tail && xs + [x] == [x0] + (tail + [x]);
      OneMore(sink, clean, last, x0, tail);
      OneMore(sink, clean, last, x0, tail + [x]);
      Snoc(sink, clean, After(sink, clean, last, x0), tail, x);
    }
  }

  /** What a sink answers to a first event and then to the rest. */
  lemma OneMore(sink: Sink, clean: Sanitizer, last: map<string, int>, x: Stamped, rest: seq<Stamped>)
    ensures Final(sink, clean, last, [x] + rest) == Final(sink, clean, After(sink, clean, last, x), rest)
    ensures Emissions(sink, clean, last, [x] + rest) == [Emits(sink, clean, last, x)] + Emissions(sink, clean, After(sink, clean, last, x), rest)
  {
    assert ([x] + rest)[1..] == rest;
  }

  lemma {:induction false} RunSerialized(sink: Sink, clean: Sanitizer, since: int, w: World, acts: seq<Action>)
    requires Serialized(sink, clean, since, w) && Exec(sink, clean, w, acts).Some?
    ensures Serialized(sink, clean, since, Exec(sink, clean, w, acts).value)
    decreases |acts|
  {
    if acts != [] {
      if acts[0].Enter? { Snoc(sink, clean, map[], w.log, w.waiting[acts[0].t]); }
      RunSerialized(sink, clean, since, Step(sink, clean, w, acts[0]).value, acts[1..]);
    }
  }

  /** The readings at which the sink emitted for key `k`, in mutex order. */
  function EmissionTimes(sink: Sink, clean: Sanitizer, k: string, xs: seq<Stamped>, emitted: seq<bool>): seq<int>
    requires |emitted| == |xs|
  {
    if xs == [] then []
    else if Concerns(sink, clean, k, xs[0]) && emitted[0] then
      [xs[0].now] + EmissionTimes(sink, clean, k, xs[1..], emitted[1..])
    else EmissionTimes(sink, clean, k, xs[1..], emitted[1..])
  }

  lemma {:induction false} EmissionTimesArePassed(sink: Sink, clean: Sanitizer, k: string, xs: seq<Stamped>, emitted: seq<bool>)
    requires |emitted| == |xs|
    ensures |Answers(sink, clean, k, xs, emitted)| == |Readings(sink, clean, k, xs)|
    ensures EmissionTimes(sink, clean, k, xs, emitted)
         == Passed(Readings(sink, clean, k, xs), Answers(sink, clean, k, xs, emitted))
    ensures forall t :: t in EmissionTimes(sink, clean, k, xs, emitted) ==> exists i :: 0 <= i < |xs| && xs[i].now == t
  {
    if xs != [] {
      EmissionTimesArePassed(sink, clean, k, xs[1..], emitted[1..]);
      if Concerns(sink, clean, k, xs[0]) {
        assert Readings(sink, clean, k, xs)[1..] == Readings(sink, clean, k, xs[1..]);
        assert Answers(sink, clean, k, xs, emitted)[1..] == Answers(sink, clean, k, xs[1..], emitted[1..]);
      }
      forall t | t in EmissionTimes(sink, clean, k, xs[1..], emitted[1..])
        ensures exists i :: 0 <= i < |xs| && xs[i].now == t
      {
        var i :| 0 <= i < |xs| - 1 && xs[1..][i].now == t;
        assert xs[i + 1].now == t;
      }
    }
  }

  /** However callers interleave between reading the clock and taking the mutex, any `n` emissions of
      one key span at least `n - 1` windows; so a run that the clock measures as `d` long emits a key
      at most `d / window + 1` times. */
  lemma EmissionRate(sink: Sink, clean: Sanitizer, start: int, acts: seq<Action>, k: string)
    requires 0 < sink.window <= MAX_DURATION
    requires Exec(sink, clean, Fresh(start), acts).Some?
    ensures var w := Exec(sink, clean, Fresh(start), acts).value;
            |w.emitted| == |w.log| &&
            var ts := EmissionTimes(sink, clean, k, w.log, w.emitted);
            Spaced(sink.window, ts) && (ts != [] ==> (|ts| - 1) * sink.window <= w.clock - start)
  {
    RunSerialized(sink, clean, start, Fresh(start), acts);
    var w := Exec(sink, clean, Fresh(start), acts).value;
    EmissionTimesArePassed(sink, clean, k, w.log, w.emitted);
    RefinesThrottles(sink, clean, map[], w.log, k);
    ThrottleSpacing(sink.window, None, Readings(sink, clean, k, w.log));
    var ts := EmissionTimes(sink, clean, k, w.log, w.emitted);
    if |ts| > 0 {
      var first, final := ts[0], ts[|ts| - 1];
      assert first in ts && final in ts;
      assert |ts| > 1 ==> final - first >= (|ts| - 1) * sink.window;
    }
  }

  /** Remembered readings only grow, whatever the order in which readings arrive. */
  lemma {:induction false} RememberedOnlyGrows(sink: Sink, clean: Sanitizer, last: map<string, int>, xs: seq<Stamped>, k: string)
    requires sink.window <= MAX_DURATION && k in last
    ensures k in Final(sink, clean, last, xs) && Final(sink, clean, last, xs)[k] >= last[k]
    decreases |xs|
  {
    if xs != [] {
      SaturationHarmless(xs[0].now, last[k], sink.window);
      RememberedOnlyGrows(sink, clean, After(sink, clean, last, xs[0]), xs[1..], k);
    }
  }

  /** Event `j` emitted, with the key of `x`, less than a window before the reading of `x`. */
  predicate Silences(sink: Sink, clean: Sanitizer, xs: seq<Stamped>, emitted: seq<bool>, j: int, x: Stamped) {
    && 0 <= j < |xs| == |emitted| && emitted[j]
    && DedupeKey(clean, xs[j].event) == DedupeKey(clean, x.event) && x.now < xs[j].now + sink.window
  }

  lemma {:induction false} SuppressedBy(sink: Sink, clean: Sanitizer, last: map<string, int>, xs: seq<Stamped>, i: nat)
    requires sink.window <= MAX_DURATION && i < |xs| && SeverityAllowed(xs[i].event.severity, sink.minSeverity)
    requires !Emissions(sink, clean, last, xs)[i]
    ensures var k := DedupeKey(clean, xs[i].event);
            || (k in last && xs[i].now < last[k] + sink.window)
            || exists j :: j < i && Silences(sink, clean, xs, Emissions(sink, clean, last, xs), j, xs[i])
    decreases |xs|
  {
    var k, x := DedupeKey(clean, xs[i].event), xs[0];
    var next, all := After(sink, clean, last, x), Emissions(sink, clean, last, xs);
    var rest := Emissions(sink, clean, next, xs[1..]);
    assert all == [Emits(sink, clean, last, x)] + rest;
    if i == 0 {
      SaturationHarmless(x.now, last[k], sink.window);
    } else {
      SuppressedBy(sink, clean, next, xs[1..], i - 1);
      if j :| j < i - 1 && Silences(sink, clean, xs[1..], rest, j, xs[i]) {
        assert Silences(sink, clean, xs, all, j + 1, xs[i]);
      } else if !(k in last && xs[i].now < last[k] + sink.window) {
        assert Silences(sink, clean, xs, all, 0, xs[i]);
      }
    }
  }

  /** In every interleaving, an event a sink swallows although its severity is allowed was read less
      than a window after an emission of its own key that went through the mutex before it. */
  lemma SuppressedInRun(sink: Sink, clean: Sanitizer, start: int, acts: seq<Action>, i: nat)
    requires sink.window <= MAX_DURATION && Exec(sink, clean, Fresh(start), acts).Some?
    requires var w := Exec(sink, clean, Fresh(start), acts).value;
             i < |w.log| && SeverityAllowed(w.log[i].event.severity, sink.minSeverity) && i < |w.emitted| && !w.emitted[i]
    ensures var w := Exec(sink, clean, Fresh(start), acts).value;
            exists j :: j < i && Silences(sink, clean, w.log, w.emitted, j, w.log[i])
  {
    RunSerialized(sink, clean, start, Fresh(start), acts);
    SuppressedBy(sink, clean, map[], Exec(sink, clean, Fresh(start), acts).value.log, i);
  }

  /* ---- the two configured sinks ---- */

  /** State, class and severity hold no pipe; an id may. */
  predicate PlainWords(e: Event) {
    '|' !in e.state && '|' !in e.failureClass && '|' !in e.severity
  }

  predicate SameUpToCase(clean: Sanitizer, e: Event, f: Event) {
    && EqualFold(e.id, f.id) && EqualFold(e.state, f.state) && EqualFold(e.failureClass, f.failureClass)
    && EqualFold(e.severity, f.severity) && EqualFold(clean(e.message), clean(f.message))
  }

  /** `b` is `a` followed by a pipe and more, up to case. */
  predicate Continues(a: string, b: string) {
    HasPrefix(ToLower(b), ToLower(a) + "|")
  }

  function Piped4(b: string, c: string, d: string, e: string): string {
    b + "|" + (c + "|" + (d + "|" + e))
  }

  function Piped5(a: string, b: string, c: string, d: string, e: string): string {
    a + "|" + Piped4(b, c, d, e)
  }

  lemma JoinIsPiped(a: string, b: string, c: string, d: string, e: string)
    ensures Join([a, b, c, d, e], '|') == Piped5(a, b, c, d, e)
  {
    assert [a, b, c, d, e][1..] == [b, c, d, e] && [b, c, d, e][1..] == [c, d, e];
    assert [c, d, e][1..] == [d, e] && [d, e][1..] == [e];
    assert Join([d, e], '|') == d + "|" + e;
    assert Join([c, d, e], '|') == c + "|" + (d + "|" + e);
    assert Join([b, c, d, e], '|') == b + "|" + (c + "|" + (d + "|" + e));
  }

  lemma JoinLower5(a: string, b: string, c: string, d: string, e: string)
    ensures ToLower(Join([a, b, c, d, e], '|')) == Piped5(ToLower(a), ToLower(b), ToLower(c), ToLower(d), ToLower(e))
  {
    JoinIsPiped(a, b, c, d, e);
    LowerPiped(a, b + "|" + (c + "|" + (d + "|" + e)));
    LowerPiped(b, c + "|" + (d + "|" + e));
    LowerPiped(c, d + "|" + e);
    LowerPiped(d, e);
  }

  /** Two texts that agree after a pipe: the heads are equal, or one continues the other. */
  lemma HeadCases(a: string, x: string, b: string, y: string)
    requires a + "|" + x == b + "|" + y
    ensures || (a == b && x == y)
            || (HasPrefix(b, a + "|") && x == b[|a| + 1..] + "|" + y)
            || (HasPrefix(a, b + "|") && y == a[|b| + 1..] + "|" + x)
  {
    var s, t := a + "|" + x, b + "|" + y;
    if |a| == |b| {
      assert a == s[..|a|] && b == t[..|b|] && x == s[|a| + 1..] && y == t[|b| + 1..];
    } else if |a| < |b| {
      LongerHead(a, x, b, y);
    } else {
      LongerHead(b, y, a, x);
    }
  }

  lemma LongerHead(a: string, x: string, b: string, y: string)
    requires a + "|" + x == b + "|" + y && |a| < |b|
    ensures HasPrefix(b, a + "|") && x == b[|a| + 1..] + "|" + y
  {
    var s, t := a + "|" + x, b + "|" + y;
    assert b == s[..|b|];
    assert b[..|a| + 1] == s[..|a| + 1] == a + "|";
    assert x == s[|a| + 1..] && t[|a| + 1..] == b[|a| + 1..] + "|" + y;
  }

  lemma KeyText(clean: Sanitizer, e: Event)
    ensures DedupeKey(clean, e)
         == Piped5(ToLower(e.id), ToLower(e.state), ToLower(e.failureClass), ToLower(e.severity), ToLower(clean(e.message)))
  {
    JoinLower5(e.id, e.state, e.failureClass, e.severity, clean(e.message));
  }

  /** Keys tell events apart, up to letter case, unless one id continues the other. */
  lemma KeyInjective(clean: Sanitizer, e: Event, f: Event)
    requires PlainWords(e) && PlainWords(f)
    ensures SameUpToCase(clean, e, f) ==> DedupeKey(clean, e) == DedupeKey(clean, f)
    ensures DedupeKey(clean, e) == DedupeKey(clean, f) ==>
              SameUpToCase(clean, e, f) || Continues(e.id, f.id) || Continues(f.id, e.id)
  {
    KeyText(clean, e);
    KeyText(clean, f);
    LowerPipe(e.state); LowerPipe(e.failureClass); LowerPipe(e.severity);
    LowerPipe(f.state); LowerPipe(f.failureClass); LowerPipe(f.severity);
    if DedupeKey(clean, e) == DedupeKey(clean, f) {
      KeyHeads(ToLower(e.id), ToLower(e.state), ToLower(e.failureClass), ToLower(e.severity), ToLower(clean(e.message)),
               ToLower(f.id), ToLower(f.state), ToLower(f.failureClass), ToLower(f.severity), ToLower(clean(f.message)));
    }
  }

  /** Where the shown messages hold no pipe either, no id whatever can make two events share a key. */
  lemma PlainEventsDistinguished(clean: Sanitizer, e: Event, f: Event)
    requires PlainWords(e) && PlainWords(f) && '|' !in clean(e.message) && '|' !in clean(f.message)
    ensures DedupeKey(clean, e) == DedupeKey(clean, f) <==> SameUpToCase(clean, e, f)
  {
    KeyText(clean, e);
    KeyText(clean, f);
    LowerPipe(e.state); LowerPipe(e.failureClass); LowerPipe(e.severity); LowerPipe(clean(e.message));
    LowerPipe(f.state); LowerPipe(f.failureClass); LowerPipe(f.severity); LowerPipe(clean(f.message));
    if DedupeKey(clean, e) == DedupeKey(clean, f) {
      FromTheEnd(ToLower(e.id), ToLower(e.state), ToLower(e.failureClass), ToLower(e.severity), ToLower(clean(e.message)),
                 ToLower(f.id), ToLower(f.state), ToLower(f.failureClass), ToLower(f.severity), ToLower(clean(f.message)));
    }
  }

  function FromLeft(a: string, b: string, c: string, d: string, e: string): string {
    (((a + ("|" + b)) + ("|" + c)) + ("|" + d)) + ("|" + e)
  }

  lemma PipedFromLeft(a: string, b: string, c: string, d: string, e: string)
    ensures Piped5(a, b, c, d, e) == FromLeft(a, b, c, d, e)
  {}

  lemma FromTheEnd(a: string, b: string, c: string, d: string, e: string, a': string, b': string, c': string, d': string, e': string)
    requires '|' !in b && '|' !in c && '|' !in d && '|' !in e && '|' !in b' && '|' !in c' && '|' !in d' && '|' !in e'
    requires Piped5(a, b, c, d, e) == Piped5(a', b', c', d', e')
    ensures a == a' && b == b' && c == c' && d == d' && e == e'
  {
    PipedFromLeft(a, b, c, d, e);
    PipedFromLeft(a', b', c', d', e');
    var x2, x2' := a + ("|" + b), a' + ("|" + b');
    var x3, x3' := x2 + ("|" + c), x2' + ("|" + c');
    TailUnique('|', x3 + ("|" + d), e, x3' + ("|" + d'), e');
    TailUnique('|', x3, d, x3', d');
    TailUnique('|', x2, c, x2', c');
    TailUnique('|', a, b, a', b');
  }

  /** Four pipe-separated fields, the first three of them pipe-free, determine their text's parts. */
  lemma FourParts(b: string, c: string, d: string, e: string, b': string, c': string, d': string, e': string)
    requires '|' !in b && '|' !in c && '|' !in d && '|' !in b' && '|' !in c' && '|' !in d'
    requires Piped4(b, c, d, e) == Piped4(b', c', d', e')
    ensures b == b' && c == c' && d == d' && e == e'
  {
    HeadUnique(b, c + "|" + (d + "|" + e), b', c' + "|" + (d' + "|" + e'));
    HeadUnique(c, d + "|" + e, c', d' + "|" + e');
    HeadUnique(d, e, d', e');
  }

  lemma KeyHeads(a: string, b: string, c: string, d: string, e: string, a': string, b': string, c': string, d': string, e': string)
    requires '|' !in b && '|' !in c && '|' !in d && '|' !in b' && '|' !in c' && '|' !in d'
    requires Piped5(a, b, c, d, e) == Piped5(a', b', c', d', e')
    ensures || (a == a' && b == b' && c == c' && d == d' && e == e')
            || (HasPrefix(a', a + "|") && Piped4(b, c, d, e) == a'[|a| + 1..] + "|" + Piped4(b', c', d', e'))
            || (HasPrefix(a, a' + "|") && Piped4(b', c', d', e') == a[|a'| + 1..] + "|" + Piped4(b, c, d, e))
  {
    HeadCases(a, Piped4(b, c, d, e), a', Piped4(b', c', d', e'));
    if a == a' {
      FourParts(b, c, d, e, b', c', d', e');
    }
  }

  /** Where an id continues another, the rest of it can stand in for the other's fields. */
  lemma PipesCollide(clean: Sanitizer, id: string, e: Event, f: Event, shown: string)
    requires e.id == id && f.id == id + "|" + (e.state + "|" + (e.failureClass + "|" + e.severity))
    requires clean(f.message) == shown && clean(e.message) == Piped4(f.state, f.failureClass, f.severity, shown)
    ensures DedupeKey(clean, e) == DedupeKey(clean, f)
  {
    JoinIsPiped(e.id, e.state, e.failureClass, e.severity, clean(e.message));
    JoinIsPiped(f.id, f.state, f.failureClass, f.severity, clean(f.message));
    Regroup4(id, e.state, e.failureClass, e.severity, clean(e.message));
  }

  lemma Regroup4(a: string, b: string, c: string, d: string, e: string)
    ensures Piped5(a, b, c, d, e) == (a + "|" + (b + "|" + (c + "|" + d))) + "|" + e
  {}

  /* ---- events over the program's words ---- */

  /** The closed vocabularies of an event's fields, and which states and severities an alert may have.
      A prober of one's own can bring about any of them; what the program's probers bring about is the
      subject of Escalation. */
  datatype Words = Words(state: string -> bool, failure: string -> bool, severity: string -> bool, alert: (string, string) -> bool)

  predicate IsState(w: string) {
    w in ["unknown", "healthy", "degraded", "unhealthy", "outage", "regression"]
  }

  predicate IsFailureClass(w: string) {
    w in ["none", "network", "timeout", "auth", "protocol", "config", "tls", "rate_limited", "unknown"]
  }

  predicate IsSeverity(w: string) {
    w in ["info", "warn", "critical"]
  }

  /** maybeAlert: outages always, and whatever is critical, which regressions are. */
  predicate Alerts(state: string, severity: string) {
    state == "outage" || severity == "critical"
  }

  function TheWords(): Words {
    Words(w => IsState(w), w => IsFailureClass(w), w => IsSeverity(w), (s, v) => Alerts(s, v))
  }

  predicate PlainWord(w: string) {
    '|' !in w && ToLower(w) == w
  }

  /** Words are plain, no severity is also a state or a class, severities have a rank, and an outage
      can be announced quietly or loudly. */
  ghost predicate Sound(ws: Words) {
    && (forall w :: ws.state(w) || ws.failure(w) || ws.severity(w) ==> PlainWord(w))
    && (forall w :: ws.severity(w) ==> !ws.state(w) && !ws.failure(w) && SeverityRank(w) >= 1)
    && ws.state("outage") && ws.failure("none")
    && (forall q :: q in ["info", "critical"] ==> ws.severity(q) && ws.alert("outage", q))
  }

  lemma StateWords(w: string)
    requires IsState(w)
    ensures PlainWord(w) && !IsSeverity(w)
  {}

  lemma ClassWords(w: string)
    requires IsFailureClass(w)
    ensures PlainWord(w) && !IsSeverity(w)
  {}

  lemma SeverityWords(w: string)
    requires IsSeverity(w)
    ensures PlainWord(w) && SeverityRank(w) >= 1
  {
    LiteralRanks();
  }

  /** The program's words are sound. */
  lemma TheWordsSound()
    ensures Sound(TheWords())
  {
    var ws := TheWords();
    forall w | ws.state(w) ensures PlainWord(w) && !ws.severity(w) { StateWords(w); }
    forall w | ws.failure(w) ensures PlainWord(w) && !ws.severity(w) { ClassWords(w); }
    forall w | ws.severity(w) ensures PlainWord(w) && SeverityRank(w) >= 1 { SeverityWords(w); }
  }

  /** An event over these words for one of these targets, as the sinks may be handed. */
  predicate Handed(ws: Words, ids: set<string>, e: Event) {
    e.id in ids && ws.state(e.state) && ws.failure(e.failureClass) && ws.severity(e.severity) && ws.alert(e.state, e.severity)
  }

  /** The id `b` is the id `a` continued with the words of an alert, up to case. */
  ghost predicate Extends(ws: Words, a: string, b: string) {
    exists s, c, v :: Spelled(ws, a, b, s, c, v)
  }

  predicate Spelled(ws: Words, a: string, b: string, s: string, c: string, v: string) {
    ws.state(s) && ws.failure(c) && ws.severity(v) && ws.alert(s, v) && HasPrefix(ToLower(b) + "|", Piped5(ToLower(a), s, c, v, ""))
  }

  ghost predicate Unambiguous(ws: Words, ids: set<string>) {
    forall a, b :: a in ids && b in ids ==> !Extends(ws, a, b)
  }

  /** The three words at the front of a text are already in the id that precedes it. */
  lemma WordsInRest(rest: string, s: string, c: string, v: string, m: string, s': string, c': string, v': string, m': string)
    requires '|' !in s && '|' !in c && '|' !in v && '|' !in s' && '|' !in c' && v != s' && v != c'
    requires Piped4(s, c, v, m) == rest + "|" + Piped4(s', c', v', m')
    ensures HasPrefix(rest + "|", Piped4(s, c, v, ""))
  {
    HeadCases(s, c + "|" + (v + "|" + m), rest, Piped4(s', c', v', m'));
    NoPipePrefix(s, rest);
    if s == rest {
      HeadUnique(c, v + "|" + m, s', c' + "|" + (v' + "|" + m'));
      VersusWord(v, m, c', v' + "|" + m');
    } else {
      var r2 := rest[|s| + 1..];
      HeadCases(c, v + "|" + m, r2, Piped4(s', c', v', m'));
      NoPipePrefix(c, r2);
      if c == r2 {
        VersusWord(v, m, s', c' + "|" + (v' + "|" + m'));
      } else {
        var r3 := r2[|c| + 1..];
        HeadCases(v, m, r3, Piped4(s', c', v', m'));
        NoPipePrefix(v, r3);
        assert rest == s + "|" + (c + "|" + r3);
      }
    }
  }

  lemma NoPipePrefix(w: string, rest: string)
    requires '|' !in w
    ensures !HasPrefix(w, rest + "|")
  {
    assert (rest + "|")[|rest|] == '|';
  }

  lemma VersusWord(v: string, m: string, w: string, y: string)
    requires '|' !in v && '|' !in w && v != w
    ensures v + "|" + m != w + "|" + y
  {
    if v + "|" + m == w + "|" + y { HeadUnique(v, m, w, y); }
  }

  /** A shared key of two such events: the same event, or an id that extends another. */
  lemma SharedKey(ws: Words, clean: Sanitizer, ids: set<string>, e: Event, f: Event)
    requires Sound(ws) && Handed(ws, ids, e) && Handed(ws, ids, f) && DedupeKey(clean, e) == DedupeKey(clean, f)
    ensures SameUpToCase(clean, e, f) || Extends(ws, e.id, f.id) || Extends(ws, f.id, e.id)
  {
    KeyText(clean, e);
    KeyText(clean, f);
    var a, b, m, m' := ToLower(e.id), ToLower(f.id), ToLower(clean(e.message)), ToLower(clean(f.message));
    KeyHeads(a, e.state, e.failureClass, e.severity, m, b, f.state, f.failureClass, f.severity, m');
    if HasPrefix(b, a + "|") {
      SharedHead(ws, a, e, m, b, f, m');
    } else if HasPrefix(a, b + "|") {
      SharedHead(ws, b, f, m', a, e, m);
    }
  }

  lemma SharedHead(ws: Words, a: string, e: Event, m: string, b: string, f: Event, m': string)
    requires Sound(ws) && Handed(ws, {e.id}, e) && Handed(ws, {f.id}, f) && a == ToLower(e.id) && b == ToLower(f.id)
    requires HasPrefix(b, a + "|")
    requires Piped5(a, e.state, e.failureClass, e.severity, m) == Piped5(b, f.state, f.failureClass, f.severity, m')
    ensures Extends(ws, e.id, f.id)
  {
    var rest := b[|a| + 1..];
    assert b == a + "|" + rest;
    RestText(a, Piped4(e.state, e.failureClass, e.severity, m), rest, Piped4(f.state, f.failureClass, f.severity, m'));
    WordsInRest(rest, e.state, e.failureClass, e.severity, m, f.state, f.failureClass, f.severity, m');
    PrefixUnder(a, rest, Piped4(e.state, e.failureClass, e.severity, ""));
    assert Spelled(ws, e.id, f.id, e.state, e.failureClass, e.severity);
  }

  lemma RestText(a: string, x: string, rest: string, y: string)
    requires a + "|" + x == (a + "|" + rest) + "|" + y
    ensures x == rest + "|" + y
  {
    assert x == (a + "|" + x)[|a| + 1..];
    assert ((a + "|" + rest) + "|" + y)[|a| + 1..] == rest + "|" + y;
  }

  lemma PrefixUnder(a: string, rest: string, p: string)
    requires HasPrefix(rest + "|", p)
    ensures HasPrefix((a + "|" + rest) + "|", a + "|" + p)
  {
    assert rest + "|" == p + (rest + "|")[|p|..];
    assert (a + "|" + rest) + "|" == (a + "|" + p) + (rest + "|")[|p|..];
  }

  lemma LiteralRanks()
    ensures SeverityRank("info") == 1 && SeverityRank("warn") == 2 && SeverityRank("critical") == 4
    ensures !IsBlank("info") && !IsBlank("warn")
  {
    TrimTrimmed("info", IsSpace);
    TrimTrimmed("warn", IsSpace);
    TrimTrimmed("critical", IsSpace);
    assert ToLower("info") == "info" && ToLower("warn") == "warn" && ToLower("critical") == "critical";
  }

  /** Events of one key have one rank, unless one id continues the other. */
  lemma SameKeySameRank(clean: Sanitizer, e: Event, f: Event)
    requires PlainWords(e) && PlainWords(f) && DedupeKey(clean, e) == DedupeKey(clean, f)
    ensures SeverityRank(e.severity) == SeverityRank(f.severity) || Continues(e.id, f.id) || Continues(f.id, e.id)
  {
    KeyInjective(clean, e, f);
    TrimLowerCommute(e.severity, IsSpace);
    TrimLowerCommute(f.severity, IsSpace);
  }

  lemma HandedSameRank(ws: Words, clean: Sanitizer, ids: set<string>, e: Event, f: Event)
    requires Sound(ws) && Unambiguous(ws, ids) && Handed(ws, ids, e) && Handed(ws, ids, f)
    requires DedupeKey(clean, e) == DedupeKey(clean, f)
    ensures SeverityRank(e.severity) == SeverityRank(f.severity)
  {
    SharedKey(ws, clean, ids, e, f);
    assert ToLower(e.severity) == e.severity && ToLower(f.severity) == f.severity;
  }

  /* ---- a collision for every extending id ---- */

  /** What an outage event without a message adds to its id in the key. */
  function Tail(q: string): string {
    "|" + Piped4("outage", "none", q, "")
  }

  /** Redaction and trimming leave a message alone that is a piece of these ids and of an outage. */
  ghost predicate LeavesTails(clean: Sanitizer, ids: set<string>) {
    clean("") == "" && forall b, q :: b in ids && q in ["info", "critical"] ==> LeavesTail(clean, ToLower(b) + Tail(q))
  }

  ghost predicate LeavesTail(clean: Sanitizer, text: string) {
    forall k :: 0 < k <= |text| && text[k - 1] == '|' ==> clean(text[k..]) == text[k..]
  }

  /** The outage of the extending id, and the alert of the other id with the same key. */
  function LongEvent(b: string, q: string): Event {
    Event(b, "outage", "none", q, "")
  }

  function ShortEvent(a: string, b: string, s: string, c: string, v: string, q: string): Event {
    var head := Piped5(ToLower(a), s, c, v, "");
    var text := ToLower(b) + Tail(q);
    Event(a, s, c, v, if |head| <= |text| then text[|head|..] else "")
  }

  lemma ExtendingIdsCollide(ws: Words, clean: Sanitizer, a: string, b: string, s: string, c: string, v: string, q: string)
    requires Sound(ws) && q in ["info", "critical"] && Spelled(ws, a, b, s, c, v)
    requires clean("") == "" && LeavesTail(clean, ToLower(b) + Tail(q))
    ensures DedupeKey(clean, ShortEvent(a, b, s, c, v, q)) == DedupeKey(clean, LongEvent(b, q)) == ToLower(b) + Tail(q)
    ensures ToLower(a) != ToLower(b)
  {
    var e, f := ShortEvent(a, b, s, c, v, q), LongEvent(b, q);
    var head, text := Piped5(ToLower(a), s, c, v, ""), ToLower(b) + Tail(q);
    EndsInPipe(ToLower(a), s, c, v);
    HeadOfText(ToLower(b), Tail(q), head);
    LowerTail(b, q);
    LowerSlice(text, |head|);
    KeyText(clean, e);
    Refill(ToLower(a), s, c, v, e.message);
    LongKey(clean, b, q);
  }

  lemma EndsInPipe(a: string, s: string, c: string, v: string)
    ensures var head := Piped5(a, s, c, v, ""); |head| > |a| + 3 && head[|head| - 1] == '|'
  {}

  lemma LongKey(clean: Sanitizer, b: string, q: string)
    requires q in ["info", "critical"] && clean("") == ""
    ensures DedupeKey(clean, LongEvent(b, q)) == ToLower(b) + Tail(q)
  {
    KeyText(clean, LongEvent(b, q));
    OutageWords(q);
    assert ToLower(b) + "|" + Piped4("outage", "none", q, "") == ToLower(b) + ("|" + Piped4("outage", "none", q, ""));
  }

  lemma OutageWords(q: string)
    requires q in ["info", "critical"]
    ensures ToLower("outage") == "outage" && ToLower("none") == "none" && ToLower(q) == q && ToLower("") == ""
  {}

  lemma HeadOfText(b: string, tail: string, head: string)
    requires HasPrefix(b + "|", head) && HasPrefix(tail, "|") && head != "" && head[|head| - 1] == '|'
    ensures HasPrefix(b + tail, head) && 0 < |head| <= |b + tail| && (b + tail)[|head| - 1] == '|'
    ensures b + tail == head + (b + tail)[|head|..]
  {
    assert b + tail == (b + "|") + tail[1..];
    assert (b + "|") == head + (b + "|")[|head|..];
  }

  lemma LowerTail(b: string, q: string)
    requires q in ["info", "critical"]
    ensures ToLower(ToLower(b) + Tail(q)) == ToLower(b) + Tail(q)
  {
    assert ToLower(Tail(q)) == Tail(q);
  }

  lemma LowerSlice(text: string, k: nat)
    requires k <= |text| && ToLower(text) == text
    ensures ToLower(text[k..]) == text[k..]
  {
    assert forall i :: k <= i < |text| ==> Lower(text[i]) == ToLower(text)[i];
  }

  lemma Refill(a: string, s: string, c: string, v: string, m: string)
    ensures Piped5(a, s, c, v, m) == Piped5(a, s, c, v, "") + m
  {}

  /** No two different events handed to a sink share a key. */
  ghost predicate KeysDistinguish(ws: Words, clean: Sanitizer, ids: set<string>) {
    forall e, f :: Handed(ws, ids, e) && Handed(ws, ids, f) && DedupeKey(clean, e) == DedupeKey(clean, f) ==> SameUpToCase(clean, e, f)
  }

  /** Keys tell whatever events of a set of targets apart exactly when no id is another id continued
      with the words of an alert. */
  lemma KeysDistinguishExactly(ws: Words, clean: Sanitizer, ids: set<string>)
    requires Sound(ws) && LeavesTails(clean, ids)
    ensures KeysDistinguish(ws, clean, ids) <==> Unambiguous(ws, ids)
  {
    if Unambiguous(ws, ids) {
      forall e, f | Handed(ws, ids, e) && Handed(ws, ids, f) && DedupeKey(clean, e) == DedupeKey(clean, f)
        ensures SameUpToCase(clean, e, f)
      {
        SharedKey(ws, clean, ids, e, f);
      }
    } else {
      var a, b :| a in ids && b in ids && Extends(ws, a, b);
      var s, c, v :| Spelled(ws, a, b, s, c, v);
      ExtendingIdsCollide(ws, clean, a, b, s, c, v, "info");
      var e, f := ShortEvent(a, b, s, c, v, "info"), LongEvent(b, "info");
      assert Handed(ws, ids, e) && Handed(ws, ids, f) && !SameUpToCase(clean, e, f);
    }
  }

  /* ---- both sinks on one stream of events ---- */

  /** Both sinks remember the same about every event the desktop sink would consider. */
  ghost predicate AgreeOnLoud(ws: Words, clean: Sanitizer, ids: set<string>, log: map<string, int>, desktop: map<string, int>) {
    forall e :: Handed(ws, ids, e) && SeverityRank(e.severity) >= 2 ==>
      Lookup(log, DedupeKey(clean, e)) == Lookup(desktop, DedupeKey(clean, e))
  }

  function LogSink(window: int): Sink {
    Sink("info", window)
  }

  function DesktopSink(window: int): Sink {
    Sink("warn", window)
  }

  lemma SinkThresholds(window: int, current: string)
    requires SeverityRank(current) >= 1
    ensures SeverityAllowed(current, LogSink(window).minSeverity)
    ensures SeverityAllowed(current, DesktopSink(window).minSeverity) <==> SeverityRank(current) >= 2
  {
    LiteralRanks();
  }

  lemma StepAgrees(ws: Words, clean: Sanitizer, ids: set<string>, window: int, log: map<string, int>, desktop: map<string, int>, x: Stamped)
    requires Sound(ws) && Unambiguous(ws, ids) && Handed(ws, ids, x.event) && AgreeOnLoud(ws, clean, ids, log, desktop)
    ensures Emits(DesktopSink(window), clean, desktop, x) <==>
            Emits(LogSink(window), clean, log, x) && SeverityRank(x.event.severity) >= 2
    ensures AgreeOnLoud(ws, clean, ids, After(LogSink(window), clean, log, x), After(DesktopSink(window), clean, desktop, x))
  {
    SinkThresholds(window, x.event.severity);
    var k := DedupeKey(clean, x.event);
    assert SeverityRank(x.event.severity) >= 2 ==> Lookup(log, k) == Lookup(desktop, k);
    var log', desktop' := After(LogSink(window), clean, log, x), After(DesktopSink(window), clean, desktop, x);
    forall e | Handed(ws, ids, e) && SeverityRank(e.severity) >= 2
      ensures Lookup(log', DedupeKey(clean, e)) == Lookup(desktop', DedupeKey(clean, e))
    {
      if DedupeKey(clean, e) == k { HandedSameRank(ws, clean, ids, e, x.event); }
    }
  }

  /** The desktop sink attempts exactly the log sink's emissions that rank warn or above. */
  ghost predicate Follows(clean: Sanitizer, window: int, log: map<string, int>, desktop: map<string, int>, xs: seq<Stamped>) {
    forall i :: 0 <= i < |xs| ==>
      (Emissions(DesktopSink(window), clean, desktop, xs)[i] <==>
       Emissions(LogSink(window), clean, log, xs)[i] && SeverityRank(xs[i].event.severity) >= 2)
  }

  ghost predicate AllHanded(ws: Words, ids: set<string>, xs: seq<Stamped>) {
    forall i :: 0 <= i < |xs| ==> Handed(ws, ids, xs[i].event)
  }

  lemma {:induction false} DesktopFollowsLog(
      ws: Words, clean: Sanitizer, ids: set<string>, window: int, log: map<string, int>, desktop: map<string, int>, xs: seq<Stamped>)
    requires Sound(ws) && Unambiguous(ws, ids) && AllHanded(ws, ids, xs) && AgreeOnLoud(ws, clean, ids, log, desktop)
    ensures Follows(clean, window, log, desktop, xs)
    decreases |xs|
  {
    if xs != [] {
      var x, rest := xs[0], xs[1..];
      StepAgrees(ws, clean, ids, window, log, desktop, x);
      var log', desktop' := After(LogSink(window), clean, log, x), After(DesktopSink(window), clean, desktop, x);
      assert AllHanded(ws, ids, rest);
      DesktopFollowsLog(ws, clean, ids, window, log', desktop', rest);
      FollowsCons(clean, window, log, desktop, x, rest);
      assert xs == [x] + rest;
    }
  }

  lemma FollowsCons(clean: Sanitizer, window: int, log: map<string, int>, desktop: map<string, int>, x: Stamped, rest: seq<Stamped>)
    requires Emits(DesktopSink(window), clean, desktop, x) <==>
             Emits(LogSink(window), clean, log, x) && SeverityRank(x.event.severity) >= 2
    requires Follows(clean, window, After(LogSink(window), clean, log, x), After(DesktopSink(window), clean, desktop, x), rest)
    ensures Follows(clean, window, log, desktop, [x] + rest)
  {
    var xs := [x] + rest;
    OneMore(LogSink(window), clean, log, x, rest);
    OneMore(DesktopSink(window), clean, desktop, x, rest);
    var l := Emissions(LogSink(window), clean, After(LogSink(window), clean, log, x), rest);
    var d := Emissions(DesktopSink(window), clean, After(DesktopSink(window), clean, desktop, x), rest);
    PairedCons(Emits(LogSink(window), clean, log, x), l, Emits(DesktopSink(window), clean, desktop, x), d, x, rest);
  }

  lemma PairedCons(l0: bool, l: seq<bool>, d0: bool, d: seq<bool>, x: Stamped, rest: seq<Stamped>)
    requires |l| == |d| == |rest| && (d0 <==> l0 && SeverityRank(x.event.severity) >= 2)
    requires forall i :: 0 <= i < |rest| ==> (d[i] <==> l[i] && SeverityRank(rest[i].event.severity) >= 2)
    ensures forall i :: 0 <= i < |rest| + 1 ==> (([d0] + d)[i] <==> ([l0] + l)[i] && SeverityRank(([x] + rest)[i].event.severity) >= 2)
  {
    forall i | 0 <= i < |rest| + 1 ensures ([d0] + d)[i] <==> ([l0] + l)[i] && SeverityRank(([x] + rest)[i].event.severity) >= 2 {
      if i > 0 {
        assert ([d0] + d)[i] == d[i - 1] && ([l0] + l)[i] == l[i - 1] && ([x] + rest)[i] == rest[i - 1];
      }
    }
  }

  /** Where keys do collide across severities the sinks part ways: a quiet event silences a loud one
      in the log only. */
  lemma SharedKeySilences(clean: Sanitizer, window: int, now: int, quiet: Event, loud: Event)
    requires 0 < window && SeverityRank(quiet.severity) == 1 && SeverityRank(loud.severity) >= 2
    requires DedupeKey(clean, quiet) == DedupeKey(clean, loud)
    ensures !Follows(clean, window, map[], map[], [Stamped(quiet, now), Stamped(loud, now)])
  {
    SinkThresholds(window, quiet.severity);
    SinkThresholds(window, loud.severity);
    var x, y := Stamped(quiet, now), Stamped(loud, now);
    var log := After(LogSink(window), clean, map[], x);
    assert Sub(now, now) == 0;
    assert log == map[DedupeKey(clean, quiet) := now] && !Emits(LogSink(window), clean, log, y);
    assert After(DesktopSink(window), clean, map[], x) == map[] && Emits(DesktopSink(window), clean, map[], y);
    TwoEmissions(LogSink(window), clean, map[], x, y);
    TwoEmissions(DesktopSink(window), clean, map[], x, y);
  }

  lemma TwoEmissions(sink: Sink, clean: Sanitizer, last: map<string, int>, x: Stamped, y: Stamped)
    ensures Emissions(sink, clean, last, [x, y]) == [Emits(sink, clean, last, x), Emits(sink, clean, After(sink, clean, last, x), y)]
  {
    var next := After(sink, clean, last, x);
    assert [x, y][1..] == [y] && [y][1..] == [];
    assert Emissions(sink, clean, next, [y]) == [Emits(sink, clean, next, y)];
  }

  /** For arbitrary events of a set of targets, the desktop sink follows the log sink on every stream
      exactly when no id is another id continued with the words of an alert. */
  lemma DesktopFollowsLogExactly(ws: Words, clean: Sanitizer, ids: set<string>, window: int)
    requires Sound(ws) && 0 < window && LeavesTails(clean, ids)
    ensures (forall xs :: AllHanded(ws, ids, xs) ==> Follows(clean, window, map[], map[], xs)) <==> Unambiguous(ws, ids)
  {
    if Unambiguous(ws, ids) {
      forall xs | AllHanded(ws, ids, xs) ensures Follows(clean, window, map[], map[], xs) {
        DesktopFollowsLog(ws, clean, ids, window, map[], map[], xs);
      }
    } else {
      var xs := PartingStream(ws, clean, ids, window);
    }
  }

  /** For ids of which one extends another, a stream on which the sinks part ways. */
  lemma PartingStream(ws: Words, clean: Sanitizer, ids: set<string>, window: int) returns (xs: seq<Stamped>)
    requires Sound(ws) && 0 < window && LeavesTails(clean, ids) && !Unambiguous(ws, ids)
    ensures AllHanded(ws, ids, xs) && !Follows(clean, window, map[], map[], xs)
  {
    var a, b :| a in ids && b in ids && Extends(ws, a, b);
    var s, c, v :| Spelled(ws, a, b, s, c, v);
    var quiet, loud := QuietAndLoud(ws, clean, ids, a, b, s, c, v);
    SharedKeySilences(clean, window, 0, quiet, loud);
    xs := [Stamped(quiet, 0), Stamped(loud, 0)];
  }

  lemma QuietAndLoud(ws: Words, clean: Sanitizer, ids: set<string>, a: string, b: string, s: string, c: string, v: string)
    returns (quiet: Event, loud: Event)
    requires Sound(ws) && LeavesTails(clean, ids) && a in ids && b in ids && Spelled(ws, a, b, s, c, v)
    ensures Handed(ws, ids, quiet) && Handed(ws, ids, loud) && DedupeKey(clean, quiet) == DedupeKey(clean, loud)
    ensures SeverityRank(quiet.severity) == 1 && SeverityRank(loud.severity) >= 2
  {
    LiteralRanks();
    if SeverityRank(v) >= 2 {
      ExtendingIdsCollide(ws, clean, a, b, s, c, v, "info");
      quiet, loud := LongEvent(b, "info"), ShortEvent(a, b, s, c, v, "info");
    } else {
      ExtendingIdsCollide(ws, clean, a, b, s, c, v, "critical");
      quiet, loud := ShortEvent(a, b, s, c, v, "critical"), LongEvent(b, "critical");
    }
  }

  const QUIET_EXAMPLE := Event("api|outage|network|critical", "outage", "none", "info", "down")
  const LOUD_EXAMPLE := Event("api", "outage", "network", "critical", "outage|none|info|down")

  lemma ExampleTexts()
    ensures "api|outage|network|critical" == "api" + "|" + ("outage" + "|" + ("network" + "|" + "critical"))
    ensures "outage|none|info|down" == Piped4("outage", "none", "info", "down")
  {}

  lemma ExamplesHanded(ids: set<string>)
    requires QUIET_EXAMPLE.id in ids && LOUD_EXAMPLE.id in ids
    ensures Handed(TheWords(), ids, QUIET_EXAMPLE) && Handed(TheWords(), ids, LOUD_EXAMPLE)
  {}

  /** Two ids the program accepts, and two events over its words: the quiet outage of the second target
      silences the critical one of the first in the log. */
  lemma SharedKeyInstance(clean: Sanitizer, window: int, now: int, ids: set<string>)
    requires 0 < window && clean("down") == "down" && clean("outage|none|info|down") == "outage|none|info|down"
    requires QUIET_EXAMPLE.id in ids && LOUD_EXAMPLE.id in ids
    ensures Handed(TheWords(), ids, QUIET_EXAMPLE) && Handed(TheWords(), ids, LOUD_EXAMPLE)
    ensures !Follows(clean, window, map[], map[], [Stamped(QUIET_EXAMPLE, now), Stamped(LOUD_EXAMPLE, now)])
  {
    ExamplesHanded(ids);
    ExampleTexts();
    PipesCollide(clean, "api", LOUD_EXAMPLE, QUIET_EXAMPLE, "down");
    LiteralRanks();
    SharedKeySilences(clean, window, now, QUIET_EXAMPLE, LOUD_EXAMPLE);
  }

  ghost predicate AllLoud(xs: seq<Stamped>) {
    forall i :: 0 <= i < |xs| ==> SeverityRank(xs[i].event.severity) >= 2
  }

  /** On events of rank warn or above the two sinks are one: same memory, same answers. */
  lemma {:induction false} LoudSinksAlike(clean: Sanitizer, window: int, last: map<string, int>, xs: seq<Stamped>)
    requires AllLoud(xs)
    ensures Emissions(LogSink(window), clean, last, xs) == Emissions(DesktopSink(window), clean, last, xs)
    ensures Final(LogSink(window), clean, last, xs) == Final(DesktopSink(window), clean, last, xs)
    decreases |xs|
  {
    if xs != [] {
      SinkThresholds(window, xs[0].event.severity);
      var next := After(LogSink(window), clean, last, xs[0]);
      assert next == After(DesktopSink(window), clean, last, xs[0]);
      LoudSinksAlike(clean, window, next, xs[1..]);
    }
  }

  /** Callers may reach the two mutexes in different orders.  For each key that is no loss: if the
      events of that key reach both sinks in one order, the sinks answer them alike. */
  lemma SinksAgreePerKey(clean: Sanitizer, window: int, k: string, atLog: seq<Stamped>, atDesktop: seq<Stamped>)
    requires Readings(LogSink(window), clean, k, atLog) == Readings(DesktopSink(window), clean, k, atDesktop)
    ensures Answers(LogSink(window), clean, k, atLog, Emissions(LogSink(window), clean, map[], atLog))
         == Answers(DesktopSink(window), clean, k, atDesktop, Emissions(DesktopSink(window), clean, map[], atDesktop))
  {
    RefinesThrottles(LogSink(window), clean, map[], atLog, k);
    RefinesThrottles(DesktopSink(window), clean, map[], atDesktop, k);
  }

  /* ---- which sinks a configuration asks for ---- */

  datatype Kind = Log | Desktop

  const TWO_MINUTES := 120_000_000_000

  /** dedupeWindow; `parse` is time.ParseDuration. */
  function DedupeWindow(parse: string -> Option<int>, raw: string): int {
    var d := parse(raw);
    if d.None? || d.value <= 0 then TWO_MINUTES else d.value
  }

  /** NotifierFromConfig: every sink it builds deduplicates, and the two it can build are those of
      DesktopFollowsLog with a common window. */
  method NotifierFromConfig(logEnabled: bool, hasLogger: bool, osEnabled: bool, raw: string, parse: string -> Option<int>)
    returns (sinks: seq<(Kind, Sink)>)
    ensures forall s :: s in sinks <==>
              || (s == (Log, Sink("info", DedupeWindow(parse, raw))) && logEnabled && hasLogger)
              || (s == (Desktop, Sink("warn", DedupeWindow(parse, raw))) && osEnabled)
    ensures forall s :: s in sinks ==> 0 < s.1.window
    ensures forall s :: s in sinks && parse(raw).Some? && 0 < parse(raw).value ==> s.1.window == parse(raw).value
    ensures forall s :: s in sinks && !(parse(raw).Some? && 0 < parse(raw).value) ==> s.1.window == 120 * 1_000_000_000
    ensures |sinks| <= 2 && (|sinks| == 2 ==> sinks[0].0 == Log && sinks[1].0 == Desktop)
    ensures sinks == [] <==> !(logEnabled && hasLogger) && !osEnabled
  {
    sinks := [];
    var window := DedupeWindow(parse, raw);
    if logEnabled && hasLogger {
      sinks := sinks + [(Log, Sink("info", window))];
    }
    if osEnabled {
      sinks := sinks + [(Desktop, Sink("warn", window))];
    }
  }
}
