/** The runtime lock: `acquireLock` and `releaseLock` as separate file-system steps,
    interleaved between any number of processes that may crash at any point.

    A lock file carries a generation number, the count of files created at the path
    before it.  No program variable holds it: it only names which file a step touched. */
module RuntimeLock {
  import opened GoStrings

  type Pid = p: int | 0 < p witness 1

  /** `text` is the pid `readPID` would return, or None while the file is empty or unreadable. */
  datatype LockFile = LockFile(gen: nat, text: Option<Pid>)

  /** Where a process stands in acquireLock and releaseLock. */
  datatype Pc =
    | Start                          // about to try the first exclusive create
    | Created(gen: nat)              // created the file, pid not yet written
    | Holding(gen: nat)              // acquireLock returned the file
    | Contended                      // the first create found a file
    | PidRead(pid: Pid, seen: nat)   // read a pid out of generation `seen`
    | Stale(pid: Pid, seen: nat)     // that pid is not running: about to remove the path
    | Retry                          // about to try the second exclusive create
    | Exited                         // returned an error, or released the lock

  datatype State = State(pcs: map<Pid, Pc>, alive: set<Pid>, used: set<Pid>, file: Option<LockFile>, nextGen: nat)

  datatype Action =
    | Spawn(p: Pid)             // a new process, with a pid never used before
    | Create(p: Pid)            // open with O_CREATE|O_EXCL
    | CreateError(p: Pid)       // open failed for another reason
    | Write(p: Pid, ok: bool)   // write the pid; the result is ignored
    | Read(p: Pid)              // readPID
    | Check(p: Pid)             // isProcessRunning
    | Remove(p: Pid)            // remove of a lock judged stale
    | RemoveError(p: Pid)
    | Release(p: Pid)           // releaseLock
    | Crash(p: Pid)

  predicate CanAct(s: State, p: Pid) {
    p in s.alive && p in s.pcs
  }

  function Goto(s: State, p: Pid, pc: Pc): State {
    s.(pcs := s.pcs[p := pc])
  }

  /** One step, or None when the process is not at that point of the program. */
  function Step(s: State, a: Action): Option<State> {
    if a.Spawn? then
      if a.p in s.used then None
      else Some(Goto(s, a.p, Start).(alive := s.alive + {a.p}, used := s.used + {a.p}))
    else if a.Crash? then
      if a.p in s.alive then Some(s.(alive := s.alive - {a.p})) else None
    else if !CanAct(s, a.p) then None
    else
      var pc := s.pcs[a.p];
      match a
      case Create(p) =>
        if !pc.Start? && !pc.Retry? then None
        else if s.file.None? then
          Some(Goto(s, p, Created(s.nextGen)).(file := Some(LockFile(s.nextGen, None)), nextGen := s.nextGen + 1))
        else Some(Goto(s, p, if pc.Start? then Contended else Exited))
      case CreateError(p) =>
        if pc.Start? || pc.Retry? then Some(Goto(s, p, Exited)) else None
      case Write(p, ok) =>
        if !pc.Created? then None
        else if ok && s.file.Some? && s.file.value.gen == pc.gen then
          Some(Goto(s, p, Holding(pc.gen)).(file := Some(LockFile(pc.gen, Some(p)))))
        else Some(Goto(s, p, Holding(pc.gen)))
      case Read(p) =>
        if !pc.Contended? then None
        else if s.file.Some? && s.file.value.text.Some? then
          Some(Goto(s, p, PidRead(s.file.value.text.value, s.file.value.gen)))
        else Some(Goto(s, p, Exited))
      case Check(p) =>
        if !pc.PidRead? then None
        else Some(Goto(s, p, if pc.pid in s.alive then Exited else Stale(pc.pid, pc.seen)))
      case Remove(p) =>
        if pc.Stale? then Some(Goto(s, p, Retry).(file := None)) else None
      case RemoveError(p) =>
        if pc.Stale? then Some(Goto(s, p, Exited)) else None
      case Release(p) =>
        if pc.Holding? then Some(Goto(s, p, Exited).(file := None)) else None
  }

  function Exec(s: State, acts: seq<Action>): Option<State>
    decreases |acts|
  {
    if acts == [] then Some(s)
    else
      var next := Step(s, acts[0]);
      if next.None? then None else Exec(next.value, acts[1..])
  }

  /** Startup: no process is running the protocol, and an earlier boot may have left a lock file. */
  predicate Init(s: State) {
    && s.pcs == map[] && s.alive <= s.used
    && (s.file.Some? ==> s.file.value.gen < s.nextGen && (s.file.value.text.Some? ==> s.file.value.text.value in s.used))
  }

  predicate Owns(pc: Pc, gen: nat) {
    pc == Created(gen) || pc == Holding(gen)
  }

  predicate Owner(s: State, p: Pid, gen: nat) {
    p in s.pcs && Owns(s.pcs[p], gen)
  }

  ghost predicate Holder(s: State, p: Pid) {
    p in s.alive && p in s.pcs && s.pcs[p].Holding?
  }

  ghost predicate MutuallyExclusive(s: State) {
    forall p, q :: Holder(s, p) && Holder(s, q) ==> p == q
  }

  /** The removal about to happen takes nothing, or the file whose pid was judged stale. */
  predicate HitsSeen(s: State, p: Pid)
    requires p in s.pcs && s.pcs[p].Stale?
  {
    s.file.Some? ==> s.file.value.gen == s.pcs[p].seen
  }

  /** The path is free, or the file there belongs to no running process. */
  ghost predicate Abandoned(s: State) {
    s.file.Some? ==> forall q :: q in s.alive ==> !Owner(s, q, s.file.value.gen)
  }

  /** Every stale removal of the run hits the generation whose pid was read. */
  ghost predicate Disciplined(s: State, acts: seq<Action>)
    decreases |acts|
  {
    acts == [] ||
    (Step(s, acts[0]).Some? ==>
       (acts[0].Remove? ==> HitsSeen(s, acts[0].p)) && Disciplined(Step(s, acts[0]).value, acts[1..]))
  }

  /* ---- the invariant ---- */

  /** What a process knows about the generation its program counter names. */
  ghost predicate PcOk(s: State, p: Pid)
    requires p in s.pcs
  {
    match s.pcs[p]
    case Created(g) => g < s.nextGen && (p in s.alive ==> s.file.Some? && s.file.value.gen == g)
    case Holding(g) => g < s.nextGen && (p in s.alive ==> s.file.Some? && s.file.value.gen == g)
    case PidRead(t, g) => Witnessed(s, t, g)
    case Stale(t, g) => Witnessed(s, t, g) && t !in s.alive
    case _ => true
  }

  /** Pid `t` was once read out of generation `g`. */
  ghost predicate Witnessed(s: State, t: Pid, g: nat) {
    && t in s.used && g < s.nextGen
    && (forall q :: Owner(s, q, g) ==> q == t)
    && (s.file.Some? && s.file.value.gen == g ==> s.file.value.text == Some(t))
  }

  ghost predicate Inv(s: State) {
    && s.pcs.Keys <= s.used && s.alive <= s.used
    && (forall p :: p in s.pcs ==> PcOk(s, p))
    && (forall p, q, g :: Owner(s, p, g) && Owner(s, q, g) ==> p == q)
    && (s.file.Some? ==> s.file.value.gen < s.nextGen)
    && (s.file.Some? && s.file.value.text.Some? ==> Witnessed(s, s.file.value.text.value, s.file.value.gen))
  }

  lemma InitInv(s: State)
    requires Init(s)
    ensures Inv(s)
  {}

  lemma InvExclusive(s: State)
    requires Inv(s)
    ensures MutuallyExclusive(s)
  {
    forall p, q | Holder(s, p) && Holder(s, q) ensures p == q {
      assert PcOk(s, p) && PcOk(s, q);
      var g := s.file.value.gen;
      assert Owner(s, p, g) && Owner(s, q, g);
    }
  }

  /** Hitting the generation that was read is enough: its owner was seen dead. */
  lemma HitsSeenIsAbandoned(s: State, p: Pid)
    requires Inv(s) && p in s.pcs && s.pcs[p].Stale? && HitsSeen(s, p)
    ensures Abandoned(s)
  {
    assert PcOk(s, p);
  }

  /** Only a successful create makes a new owner, and it owns a generation never seen before. */
  lemma StepOwners(s: State, a: Action)
    requires Step(s, a).Some?
    ensures forall q, g :: Owner(Step(s, a).value, q, g) ==> Owner(s, q, g) || (a == Create(q) && g == s.nextGen)
  {}

  /** What was read stays witnessed: no step gives a seen generation another owner or text. */
  lemma WitnessedStays(s: State, a: Action, t: Pid, g: nat)
    requires Inv(s) && Step(s, a).Some? && Witnessed(s, t, g)
    ensures Witnessed(Step(s, a).value, t, g)
  {
    StepOwners(s, a);
    if a.Write? {
      assert PcOk(s, a.p) && Owner(s, a.p, s.pcs[a.p].gen);
    }
  }

  /** An owner's generation was handed out before. */
  lemma OwnerBelow(s: State, q: Pid, g: nat)
    requires Inv(s) && Owner(s, q, g)
    ensures g < s.nextGen && (q in s.alive ==> s.file.Some? && s.file.value.gen == g)
  {
    assert PcOk(s, q);
  }

  /** A process that does not act keeps what it knows, as long as a running owner keeps its file. */
  lemma BystanderOk(s: State, a: Action, p: Pid)
    requires Inv(s) && Step(s, a).Some? && p in s.pcs && p != a.p
    requires var s' := Step(s, a).value;
             s'.file != s.file && s.file.Some? ==> p !in s.alive || !Owner(s, p, s.file.value.gen) || (s'.file.Some? && s'.file.value.gen == s.file.value.gen)
    ensures PcOk(Step(s, a).value, p)
  {
    assert PcOk(s, p);
    match s.pcs[p] {
      case Created(g) => OwnerBelow(s, p, g);
      case Holding(g) => OwnerBelow(s, p, g);
      case PidRead(t, g) => WitnessedStays(s, a, t, g);
      case Stale(t, g) => WitnessedStays(s, a, t, g);
      case _ =>
    }
  }

  /** Owners stay unique: a new one owns the next generation. */
  lemma OwnersStayUnique(s: State, a: Action)
    requires Inv(s) && Step(s, a).Some?
    ensures forall p, q, g :: Owner(Step(s, a).value, p, g) && Owner(Step(s, a).value, q, g) ==> p == q
  {
    StepOwners(s, a);
    forall p, q, g | Owner(Step(s, a).value, p, g) && Owner(Step(s, a).value, q, g) ensures p == q {
      if Owner(s, p, g) { OwnerBelow(s, p, g); }
      if Owner(s, q, g) { OwnerBelow(s, q, g); }
    }
  }

  lemma SpawnInv(s: State, p: Pid)
    requires Inv(s) && Step(s, Spawn(p)).Some?
    ensures Inv(Step(s, Spawn(p)).value)
  {
    OwnersStayUnique(s, Spawn(p));
    forall q | q in s.pcs ensures PcOk(Step(s, Spawn(p)).value, q) {
      BystanderOk(s, Spawn(p), q);
    }
    KeepText(s, Spawn(p));
  }

  lemma CrashInv(s: State, p: Pid)
    requires Inv(s) && Step(s, Crash(p)).Some?
    ensures Inv(Step(s, Crash(p)).value)
  {
    OwnersStayUnique(s, Crash(p));
    forall q | q in s.pcs ensures PcOk(Step(s, Crash(p)).value, q) {
      if q != p {
        BystanderOk(s, Crash(p), q);
      } else {
        CrashedOk(s, p);
      }
    }
    KeepText(s, Crash(p));
  }

  lemma CrashedOk(s: State, p: Pid)
    requires Inv(s) && p in s.alive && p in s.pcs
    ensures PcOk(Step(s, Crash(p)).value, p)
  {
    assert PcOk(s, p);
    match s.pcs[p] {
      case Created(g) =>
      case Holding(g) =>
      case PidRead(t, g) => WitnessedStays(s, Crash(p), t, g);
      case Stale(t, g) => WitnessedStays(s, Crash(p), t, g);
      case _ =>
    }
  }

  /** The text at the path stays witnessed while neither path nor text changes. */
  lemma KeepText(s: State, a: Action)
    requires Inv(s) && Step(s, a).Some? && Step(s, a).value.file == s.file
    ensures s.file.Some? && s.file.value.text.Some? ==> Witnessed(Step(s, a).value, s.file.value.text.value, s.file.value.gen)
  {
    if s.file.Some? && s.file.value.text.Some? {
      WitnessedStays(s, a, s.file.value.text.value, s.file.value.gen);
    }
  }

  lemma CreateInv(s: State, a: Action)
    requires Inv(s) && Step(s, a).Some? && (a.Create? || a.CreateError?)
    ensures Inv(Step(s, a).value)
  {
    var s' := Step(s, a).value;
    OwnersStayUnique(s, a);
    forall q | q in s'.pcs && q != a.p ensures PcOk(s', q) {
      BystanderOk(s, a, q);
    }
    if s'.file == s.file { KeepText(s, a); }
  }

  lemma WriteInv(s: State, p: Pid, ok: bool)
    requires Inv(s) && Step(s, Write(p, ok)).Some?
    ensures Inv(Step(s, Write(p, ok)).value)
  {
    var a := Write(p, ok);
    var s' := Step(s, a).value;
    OwnersStayUnique(s, a);
    StepOwners(s, a);
    assert PcOk(s, p) && Owner(s, p, s.pcs[p].gen);
    forall q | q in s'.pcs && q != p ensures PcOk(s', q) {
      BystanderOk(s, a, q);
    }
    if s'.file == s.file { KeepText(s, a); }
  }

  /** Reading the lock and judging its pid. */
  lemma JudgeInv(s: State, a: Action)
    requires Inv(s) && Step(s, a).Some? && (a.Read? || a.Check? || a.RemoveError?)
    ensures Inv(Step(s, a).value)
  {
    var s' := Step(s, a).value;
    OwnersStayUnique(s, a);
    assert PcOk(s, a.p);
    forall q | q in s'.pcs && q != a.p ensures PcOk(s', q) {
      BystanderOk(s, a, q);
    }
    KeepText(s, a);
    if s'.pcs[a.p].PidRead? { WitnessedStays(s, a, s'.pcs[a.p].pid, s'.pcs[a.p].seen); }
    if s'.pcs[a.p].Stale? { WitnessedStays(s, a, s'.pcs[a.p].pid, s'.pcs[a.p].seen); }
  }

  /** Emptying the path. */
  lemma RemoveInv(s: State, a: Action)
    requires Inv(s) && Step(s, a).Some? && (a.Release? || (a.Remove? && Abandoned(s)))
    ensures Inv(Step(s, a).value)
  {
    var s' := Step(s, a).value;
    OwnersStayUnique(s, a);
    assert PcOk(s, a.p);
    if a.Release? { assert Owner(s, a.p, s.pcs[a.p].gen); }
    forall q | q in s'.pcs && q != a.p ensures PcOk(s', q) {
      BystanderOk(s, a, q);
    }
  }

  /** Every step keeps the invariant, provided a stale removal takes an abandoned file. */
  lemma StepInv(s: State, a: Action)
    requires Inv(s) && Step(s, a).Some?
    requires a.Remove? ==> Abandoned(s)
    ensures Inv(Step(s, a).value)
  {
    match a {
      case Spawn(p) => SpawnInv(s, p);
      case Crash(p) => CrashInv(s, p);
      case Create(_) => CreateInv(s, a);
      case CreateError(_) => CreateInv(s, a);
      case Write(p, ok) => WriteInv(s, p, ok);
      case Read(_) => JudgeInv(s, a);
      case Check(_) => JudgeInv(s, a);
      case RemoveError(_) => JudgeInv(s, a);
      case Remove(_) => RemoveInv(s, a);
      case Release(_) => RemoveInv(s, a);
    }
  }

  /* ---- whole runs ---- */

  lemma {:induction false} RunInv(s: State, acts: seq<Action>)
    requires Inv(s) && Exec(s, acts).Some? && Disciplined(s, acts)
    ensures Inv(Exec(s, acts).value)
    decreases |acts|
  {
    if acts != [] {
      if acts[0].Remove? { HitsSeenIsAbandoned(s, acts[0].p); }
      StepInv(s, acts[0]);
      RunInv(Step(s, acts[0]).value, acts[1..]);
    }
  }

  /** At most one running process holds the lock, in every interleaving whose stale
      removals hit the generation that was read. */
  lemma MutualExclusion(s: State, acts: seq<Action>)
    requires Init(s) && Exec(s, acts).Some? && Disciplined(s, acts)
    ensures MutuallyExclusive(Exec(s, acts).value)
  {
    InitInv(s);
    RunInv(s, acts);
    InvExclusive(Exec(s, acts).value);
  }

  /** After such a run, a step that makes a lock file disappear is its running owner's own
      release, or a stale removal of a written lock whose owner is dead.  In particular no
      process removes a lock whose owner has not written its pid yet, dead or alive. */
  lemma WhoRemoves(s: State, acts: seq<Action>, a: Action)
    requires Init(s) && Exec(s, acts).Some? && Disciplined(s, acts)
    requires var t := Exec(s, acts).value;
             Step(t, a).Some? && (a.Remove? ==> HitsSeen(t, a.p)) && t.file.Some? && Step(t, a).value.file.None?
    ensures var t := Exec(s, acts).value;
            || (a.Release? && Owner(t, a.p, t.file.value.gen))
            || (a.Remove? && t.file.value.text.Some? && t.file.value.text.value !in t.alive
                && forall q :: Owner(t, q, t.file.value.gen) ==> q !in t.alive)
  {
    InitInv(s);
    RunInv(s, acts);
    assert PcOk(Exec(s, acts).value, a.p);
  }

  /** The side condition is exact.  Whenever a process is about to remove a stale lock, mutual
      exclusion survives every disciplined continuation if and only if the file it takes
      belongs to no running process. */
  lemma StaleRemovalExact(s: State, p: Pid)
    requires Inv(s) && Step(s, Remove(p)).Some?
    ensures var s' := Step(s, Remove(p)).value;
            Abandoned(s) <==>
            forall acts :: Exec(s', acts).Some? && Disciplined(s', acts) ==> MutuallyExclusive(Exec(s', acts).value)
  {
    var s' := Step(s, Remove(p)).value;
    if Abandoned(s) {
      StepInv(s, Remove(p));
      forall acts | Exec(s', acts).Some? && Disciplined(s', acts)
        ensures MutuallyExclusive(Exec(s', acts).value)
      {
        RunInv(s', acts);
        InvExclusive(Exec(s', acts).value);
      }
    } else {
      var acts := TwoHolders(s, p);
      assert Exec(s', acts).Some? && Disciplined(s', acts);
    }
  }

  /** Taking a running owner's file lets the remover acquire the lock as well. */
  lemma TwoHolders(s: State, p: Pid) returns (acts: seq<Action>)
    requires Inv(s) && Step(s, Remove(p)).Some? && !Abandoned(s)
    ensures var s' := Step(s, Remove(p)).value;
            Exec(s', acts).Some? && Disciplined(s', acts) && !MutuallyExclusive(Exec(s', acts).value)
  {
    var s' := Step(s, Remove(p)).value;
    var g := s.file.value.gen;
    var q :| q in s.alive && Owner(s, q, g);
    var s1 := Step(s', Create(p)).value;
    var s2 := Step(s1, Write(p, true)).value;
    var s3 := if s.pcs[q].Created? then Step(s2, Write(q, true)).value else s2;
    assert Holder(s3, p) && Holder(s3, q);
    ThreeSteps(s', Create(p), Write(p, true), Write(q, true));
    acts := if s.pcs[q].Created? then [Create(p), Write(p, true), Write(q, true)] else [Create(p), Write(p, true)];
  }

  lemma ThreeSteps(s: State, a: Action, b: Action, c: Action)
    requires Step(s, a).Some? && Step(Step(s, a).value, b).Some?
    requires !a.Remove? && !b.Remove? && !c.Remove?
    ensures Exec(s, [a, b]) == Step(Step(s, a).value, b) && Disciplined(s, [a, b])
    ensures Exec(s, [a, b, c]) == Step(Step(Step(s, a).value, b).value, c) && Disciplined(s, [a, b, c])
  {
    var s1 := Step(s, a).value;
    var s2 := Step(s1, b).value;
    assert [a, b][1..] == [b] && [a, b, c][1..] == [b, c] && [b, c][1..] == [c];
    assert Exec(s2, []) == Some(s2) && [b][1..] == [] && [c][1..] == [];
    assert Exec(s2, [c]) == Step(s2, c) && Disciplined(s2, [c]);
    assert Exec(s1, [b]) == Some(s2) && Disciplined(s1, [b]);
    assert Exec(s1, [b, c]) == Step(s2, c) && Disciplined(s1, [b, c]);
  }

  /** The undisciplined race, from every startup that finds a dead process's lock: two processes
      judge it stale, and the slower one removes the faster one's fresh lock. */
  lemma StaleRemovalRace(s: State, p: Pid, q: Pid)
    requires Init(s) && s.file.Some? && s.file.value.text.Some? && s.file.value.text.value !in s.alive
    requires p != q && p !in s.used && q !in s.used
    ensures exists acts :: Exec(s, acts).Some? && Holder(Exec(s, acts).value, p) && Holder(Exec(s, acts).value, q)
  {
    BothJudgeStale(s, p, q);
    var t := Exec(s, RaceFront(p, q)).value;
    SlowerRemovesFresh(t, p, q);
    RaceRuns(s, RaceFront(p, q), t, RaceBack(p, q), p, q);
  }

  function RaceFront(p: Pid, q: Pid): seq<Action> {
    [Spawn(p), Spawn(q), Create(p), Create(q), Read(p), Read(q), Check(p), Check(q)]
  }

  function RaceBack(p: Pid, q: Pid): seq<Action> {
    [Remove(p), Create(p), Write(p, true), Remove(q), Create(q), Write(q, true)]
  }

  lemma RaceRuns(s: State, front: seq<Action>, t: State, back: seq<Action>, p: Pid, q: Pid)
    requires Exec(s, front) == Some(t) && Exec(t, back).Some? && Holder(Exec(t, back).value, p) && Holder(Exec(t, back).value, q)
    ensures exists acts :: Exec(s, acts).Some? && Holder(Exec(s, acts).value, p) && Holder(Exec(s, acts).value, q)
  {
    ExecAppend(s, front, back);
    assert Exec(s, front + back).Some?;
  }

  predicate AtStale(s: State, p: Pid) {
    CanAct(s, p) && s.pcs[p].Stale?
  }

  lemma BothJudgeStale(s: State, p: Pid, q: Pid)
    requires Init(s) && s.file.Some? && s.file.value.text.Some? && s.file.value.text.value !in s.alive
    requires p != q && p !in s.used && q !in s.used
    ensures var t := Exec(s, RaceFront(p, q));
            t.Some? && AtStale(t.value, p) && AtStale(t.value, q)
  {
    var acts := RaceFront(p, q);
    var s1 := Step(s, acts[0]).value;
    var s2 := Step(s1, acts[1]).value;
    var s3 := Step(s2, acts[2]).value;
    var s4 := Step(s3, acts[3]).value;
    var s5 := Step(s4, acts[4]).value;
    var s6 := Step(s5, acts[5]).value;
    var s7 := Step(s6, acts[6]).value;
    var s8 := Step(s7, acts[7]).value;
    ExecPath([s, s1, s2, s3, s4, s5, s6, s7, s8], acts);
  }

  lemma SlowerRemovesFresh(s: State, p: Pid, q: Pid)
    requires p != q && AtStale(s, p) && AtStale(s, q)
    ensures var t := Exec(s, RaceBack(p, q));
            t.Some? && Holder(t.value, p) && Holder(t.value, q)
  {
    var acts := RaceBack(p, q);
    var s1 := Step(s, acts[0]).value;
    var s2 := Step(s1, acts[1]).value;
    var s3 := Step(s2, acts[2]).value;
    var s4 := Step(s3, acts[3]).value;
    var s5 := Step(s4, acts[4]).value;
    var s6 := Step(s5, acts[5]).value;
    ExecPath([s, s1, s2, s3, s4, s5, s6], acts);
  }

  lemma {:induction false} ExecAppend(s: State, front: seq<Action>, back: seq<Action>)
    requires Exec(s, front).Some?
    ensures Exec(s, front + back) == Exec(Exec(s, front).value, back)
    decreases |front|
  {
    if front == [] {
      assert front + back == back;
    } else {
      assert (front + back)[1..] == front[1..] + back;
      ExecAppend(Step(s, front[0]).value, front[1..], back);
    }
  }

  lemma {:induction false} ExecPath(path: seq<State>, acts: seq<Action>)
    requires |path| == |acts| + 1
    requires forall i :: 0 <= i < |acts| ==> Step(path[i], acts[i]) == Some(path[i + 1])
    ensures Exec(path[0], acts) == Some(path[|acts|])
  {
    if acts != [] {
      ExecPath(path[1..], acts[1..]);
    }
  }

  /* ---- an owner that crashes before writing its pid ---- */

  /** An empty lock file whose owner is gone. */
  ghost predicate Stuck(s: State) {
    s.file.Some? && s.file.value.text.None? && Abandoned(s)
  }

  lemma PcOwner(s: State, p: Pid)
    requires p in s.pcs
    ensures s.pcs[p].Created? || s.pcs[p].Holding? ==> Owner(s, p, s.pcs[p].gen)
  {}

  /** In runs whose stale removals hit what was read, such a lock is never recovered: the file stays,
      and nobody holds the lock again. */
  lemma {:induction false} StuckForever(s: State, acts: seq<Action>)
    requires Inv(s) && Stuck(s) && Exec(s, acts).Some? && Disciplined(s, acts)
    ensures var t := Exec(s, acts).value;
            Stuck(t) && t.file == s.file && forall p :: !Holder(t, p)
    decreases |acts|
  {
    if acts == [] {
      forall p | p in s.pcs ensures !Holder(s, p) {
        assert PcOk(s, p);
        PcOwner(s, p);
      }
    } else {
      var a := acts[0];
      var s' := Step(s, a).value;
      StepOwners(s, a);
      if a.p in s.pcs {
        assert PcOk(s, a.p);
        PcOwner(s, a.p);
      }
      if a.Remove? { HitsSeenIsAbandoned(s, a.p); }
      StepInv(s, a);
      assert Stuck(s') && s'.file == s.file;
      StuckForever(s', acts[1..]);
    }
  }

  /** A running process that may still remove whatever is at the path: it judged a lock stale, or
      read the pid of another process, which may die. */
  predicate Threat(s: State, p: Pid) {
    CanAct(s, p) && (s.pcs[p].Stale? || (s.pcs[p].PidRead? && s.pcs[p].pid != p))
  }

  /** An empty lock file that no running process owns or can come to remove. */
  ghost predicate OutOfReach(s: State) {
    && s.file.Some? && s.file.value.text.None?
    && forall p :: CanAct(s, p) ==> !s.pcs[p].Created? && !s.pcs[p].Holding? && !Threat(s, p)
  }

  lemma {:induction false} OutOfReachRun(s: State, acts: seq<Action>)
    requires OutOfReach(s) && Exec(s, acts).Some?
    ensures OutOfReach(Exec(s, acts).value) && Exec(s, acts).value.file == s.file
    decreases |acts|
  {
    if acts != [] {
      var s' := Step(s, acts[0]).value;
      assert forall p :: CanAct(s', p) && p != acts[0].p ==> CanAct(s, p) && s'.pcs[p] == s.pcs[p];
      OutOfReachRun(s', acts[1..]);
    }
  }

  function JudgeSteps(p: Pid): seq<Action> {
    [Create(p), Read(p), Check(p)]
  }

  function TakeSteps(p: Pid): seq<Action> {
    [Remove(p), Create(p), Write(p, true)]
  }

  /** A process that meets a dead process's lock comes to judge it stale. */
  lemma JudgesStale(s: State, p: Pid)
    requires CanAct(s, p) && s.pcs[p] == Start
    requires s.file.Some? && s.file.value.text.Some? && s.file.value.text.value !in s.alive
    ensures Exec(s, JudgeSteps(p)) == Some(Goto(s, p, Stale(s.file.value.text.value, s.file.value.gen)))
    ensures Disciplined(s, JudgeSteps(p))
  {
    var acts := JudgeSteps(p);
    var s1 := Step(s, acts[0]).value;
    var s2 := Step(s1, acts[1]).value;
    var s3 := Step(s2, acts[2]).value;
    ExecPath([s, s1, s2, s3], acts);
    DisciplinedPath([s, s1, s2, s3], acts);
    assert s3.pcs == s.pcs[p := Stale(s.file.value.text.value, s.file.value.gen)];
  }

  /** A process about to remove the path gets the lock if nothing interferes. */
  lemma TakesOver(s: State, p: Pid)
    requires AtStale(s, p)
    ensures var t := Exec(s, TakeSteps(p));
            && t.Some? && t.value.alive == s.alive && p in t.value.pcs && t.value.pcs[p] == Holding(s.nextGen)
            && t.value.file == Some(LockFile(s.nextGen, Some(p)))
    ensures HitsSeen(s, p) ==> Disciplined(s, TakeSteps(p))
  {
    var acts := TakeSteps(p);
    var s1 := Step(s, acts[0]).value;
    var s2 := Step(s1, acts[1]).value;
    var s3 := Step(s2, acts[2]).value;
    ExecPath([s, s1, s2, s3], acts);
    if HitsSeen(s, p) { DisciplinedPath([s, s1, s2, s3], acts); }
  }

  /** The steps that bring a threat to the point of removal. */
  lemma ReachStale(s: State, p: Pid) returns (front: seq<Action>)
    requires Threat(s, p)
    ensures Exec(s, front).Some? && AtStale(Exec(s, front).value, p)
  {
    if s.pcs[p].Stale? {
      front := [];
    } else if s.pcs[p].pid in s.alive {
      front := [Crash(s.pcs[p].pid), Check(p)];
      var s1 := Step(s, front[0]).value;
      ExecPath([s, s1, Step(s1, front[1]).value], front);
    } else {
      front := [Check(p)];
      ExecPath([s, Step(s, front[0]).value], front);
    }
  }

  lemma TakeStuck(s: State, p: Pid) returns (acts: seq<Action>)
    requires Threat(s, p)
    ensures Exec(s, acts).Some? && Holder(Exec(s, acts).value, p)
  {
    var front := ReachStale(s, p);
    TakesOver(Exec(s, front).value, p);
    ExecAppend(s, front, TakeSteps(p));
    acts := front + TakeSteps(p);
  }

  /** Whatever the run: a stuck lock stays, and nobody holds the lock again, exactly when no running
      process stands between reading a pid that may die and removing the path. */
  lemma StuckExactly(s: State)
    requires Inv(s) && Stuck(s)
    ensures (forall acts :: Exec(s, acts).Some? ==> Exec(s, acts).value.file == s.file && forall p :: !Holder(Exec(s, acts).value, p))
       <==> (forall p :: !Threat(s, p))
  {
    if p :| Threat(s, p) {
      var acts := TakeStuck(s, p);
      assert Exec(s, acts).Some? && Holder(Exec(s, acts).value, p);
    } else {
      forall p | CanAct(s, p) ensures !s.pcs[p].Created? && !s.pcs[p].Holding? {
        assert PcOk(s, p);
        PcOwner(s, p);
      }
      forall acts | Exec(s, acts).Some?
        ensures Exec(s, acts).value.file == s.file && forall p :: !Holder(Exec(s, acts).value, p)
      {
        OutOfReachRun(s, acts);
      }
    }
  }

  lemma {:induction false} DisciplinedPath(path: seq<State>, acts: seq<Action>)
    requires |path| == |acts| + 1
    requires forall i :: 0 <= i < |acts| ==> Step(path[i], acts[i]) == Some(path[i + 1])
    requires forall i :: 0 <= i < |acts| && acts[i].Remove? ==>
               acts[i].p in path[i].pcs && path[i].pcs[acts[i].p].Stale? && HitsSeen(path[i], acts[i].p)
    ensures Disciplined(path[0], acts)
  {
    if acts != [] {
      DisciplinedPath(path[1..], acts[1..]);
    }
  }

  lemma SoloDisciplined(s: State, p: Pid)
    requires CanAct(s, p) && s.pcs[p] == Start
    requires s.file.Some? && s.file.value.text.Some? && s.file.value.text.value !in s.alive
    ensures Disciplined(s, SoloCall(s, p))
  {
    JudgesStale(s, p);
    var t := Goto(s, p, Stale(s.file.value.text.value, s.file.value.gen));
    TakesOver(t, p);
    DisciplinedAppend(s, JudgeSteps(p), TakeSteps(p));
    assert SoloCall(s, p) == JudgeSteps(p) + TakeSteps(p);
  }

  /** A newcomer meets a lock whose pid was written by a process now dead, and acquires it, removing
      only what it read. */
  lemma NewcomerRecovers(s: State, p: Pid)
    requires CanAct(s, p) && s.pcs[p] == Start
    requires s.file.Some? && s.file.value.text.Some? && s.file.value.text.value !in s.alive
    ensures Exec(s, SoloCall(s, p)).Some? && Holder(Exec(s, SoloCall(s, p)).value, p) && Disciplined(s, SoloCall(s, p))
  {
    SoloCallOutcome(s, p);
    SoloDisciplined(s, p);
  }

  lemma {:induction false} DisciplinedAppend(s: State, front: seq<Action>, back: seq<Action>)
    requires Exec(s, front).Some? && Disciplined(s, front) && Disciplined(Exec(s, front).value, back)
    ensures Disciplined(s, front + back)
    decreases |front|
  {
    if front == [] {
      assert front + back == back;
    } else {
      assert (front + back)[1..] == front[1..] + back && (front + back)[0] == front[0];
      DisciplinedAppend(Step(s, front[0]).value, front[1..], back);
    }
  }

  /** A newcomer arrives, and the process whose pid is in the lock dies if it has not already. */
  lemma NewcomerArrives(s: State, p: Pid, t: Pid) returns (front: seq<Action>)
    requires p !in s.used && t in s.used
    ensures Exec(s, front).Some? && Disciplined(s, front)
    ensures var u := Exec(s, front).value; CanAct(u, p) && u.pcs[p] == Start && u.file == s.file && t !in u.alive
  {
    var s1 := Step(s, Spawn(p)).value;
    if t in s.alive {
      front := [Spawn(p), Crash(t)];
      var s2 := Step(s1, Crash(t)).value;
      ExecPath([s, s1, s2], front);
      DisciplinedPath([s, s1, s2], front);
    } else {
      front := [Spawn(p)];
      ExecPath([s, s1], front);
      DisciplinedPath([s, s1], front);
    }
  }

  /** A lock no running process owns can be acquired again without a race exactly when its pid was
      written. */
  lemma RecoverableExactly(s: State, p: Pid)
    requires Inv(s) && s.file.Some? && Abandoned(s) && p !in s.used
    ensures (exists acts, q :: Exec(s, acts).Some? && Disciplined(s, acts) && Holder(Exec(s, acts).value, q))
       <==> s.file.value.text.Some?
  {
    if s.file.value.text.Some? {
      var front := NewcomerArrives(s, p, s.file.value.text.value);
      var u := Exec(s, front).value;
      NewcomerRecovers(u, p);
      var acts := front + SoloCall(u, p);
      ExecAppend(s, front, SoloCall(u, p));
      DisciplinedAppend(s, front, SoloCall(u, p));
      assert Exec(s, acts).Some? && Disciplined(s, acts) && Holder(Exec(s, acts).value, p);
    } else {
      forall acts, q | Exec(s, acts).Some? && Disciplined(s, acts) ensures !Holder(Exec(s, acts).value, q) {
        StuckForever(s, acts);
      }
    }
  }

  /* ---- one undisturbed call ---- */

  /** When a call that nothing interleaves with gets the lock. */
  predicate Acquirable(file: Option<LockFile>, running: set<Pid>) {
    file.None? || (file.value.text.Some? && file.value.text.value !in running)
  }

  /** Which of acquireLock's file operations succeed, apart from the exclusive create finding a file. */
  datatype Disk = Disk(makesDir: bool, opens: bool, writes: bool, removes: bool, reopens: bool)

  /** The lock path of the process, as acquireLock and releaseLock see it when nobody interferes. */
  class LockPath {
    var file: Option<LockFile>
    var nextGen: nat

    /** create: true when the path was free and could be opened.  It then holds a new file, with this
        process's pid if that could be written. */
    method Create(self: Pid, opens: bool, writes: bool) returns (ok: bool)
      modifies this
      ensures ok <==> opens && old(file).None?
      ensures ok ==> file == Some(LockFile(old(nextGen), if writes then Some(self) else None)) && nextGen == old(nextGen) + 1
      ensures !ok ==> file == old(file) && nextGen == old(nextGen)
    {
      ok := opens && file.None?;
      if ok {
        file := Some(LockFile(nextGen, None));
        nextGen := nextGen + 1;
        if writes {
          file := Some(file.value.(text := Some(self)));
        }
      }
    }

    /** The outcome for every path and every disk.  A failed second open leaves the path empty. */
    method Acquire(path: string, self: Pid, running: set<Pid>, disk: Disk) returns (ok: bool)
      modifies this
      ensures var free := disk.opens && old(file).None?;
              var recovered := disk.opens && old(file).Some? && Acquirable(old(file), running) && disk.removes;
              var reached := !IsBlank(path) && disk.makesDir;
              && (ok <==> reached && (free || (recovered && disk.reopens)))
              && (ok ==> file == Some(LockFile(old(nextGen), if disk.writes then Some(self) else None)) && nextGen == old(nextGen) + 1)
              && (!ok ==> nextGen == old(nextGen) && file == if reached && recovered then None else old(file))
    {
      if IsBlank(path) || !disk.makesDir { return false; }
      ok := Create(self, disk.opens, disk.writes);
      if ok { return; }
      if !disk.opens { return false; }
      if file.value.text.None? || file.value.text.value in running { return false; }
      if !disk.removes { return false; }
      file := None;
      ok := Create(self, disk.reopens, disk.writes);
    }

    method Release()
      modifies `file
      ensures file.None?
    {
      file := None;
    }
  }

  /** The steps one process takes from Start to the end of acquireLock. */
  function SoloCall(s: State, p: Pid): seq<Action> {
    if s.file.None? then [Create(p), Write(p, true)]
    else if s.file.value.text.None? then [Create(p), Read(p)]
    else if s.file.value.text.value in s.alive then [Create(p), Read(p), Check(p)]
    else [Create(p), Read(p), Check(p), Remove(p), Create(p), Write(p, true)]
  }

  /** What one undisturbed call leaves. */
  ghost predicate SoloOutcome(s: State, p: Pid, t: State) {
    && t.alive == s.alive && p in t.pcs
    && if Acquirable(s.file, s.alive)
       then t.pcs[p] == Holding(s.nextGen) && t.file == Some(LockFile(s.nextGen, Some(p)))
       else t.pcs[p] == Exited && t.file == s.file
  }

  /** The step machine run by one process alone is the undisturbed call. */
  lemma SoloCallOutcome(s: State, p: Pid)
    requires CanAct(s, p) && s.pcs[p] == Start
    ensures Exec(s, SoloCall(s, p)).Some? && SoloOutcome(s, p, Exec(s, SoloCall(s, p)).value)
  {
    if s.file.Some? && s.file.value.text.Some? && s.file.value.text.value !in s.alive {
      SoloReclaim(s, p);
    } else {
      SoloPlain(s, p);
    }
  }

  lemma SoloReclaim(s: State, p: Pid)
    requires CanAct(s, p) && s.pcs[p] == Start
    requires s.file.Some? && s.file.value.text.Some? && s.file.value.text.value !in s.alive
    ensures Exec(s, SoloCall(s, p)).Some? && SoloOutcome(s, p, Exec(s, SoloCall(s, p)).value)
  {
    JudgesStale(s, p);
    var t := Goto(s, p, Stale(s.file.value.text.value, s.file.value.gen));
    TakesOver(t, p);
    ExecAppend(s, JudgeSteps(p), TakeSteps(p));
    assert SoloCall(s, p) == JudgeSteps(p) + TakeSteps(p);
  }

  lemma SoloPlain(s: State, p: Pid)
    requires CanAct(s, p) && s.pcs[p] == Start
    requires s.file.Some? && s.file.value.text.Some? ==> s.file.value.text.value in s.alive
    ensures Exec(s, SoloCall(s, p)).Some? && SoloOutcome(s, p, Exec(s, SoloCall(s, p)).value)
  {
    var acts := SoloCall(s, p);
    var s1 := Step(s, acts[0]).value;
    var s2 := Step(s1, acts[1]).value;
    if |acts| == 2 {
      ExecPath([s, s1, s2], acts);
    } else {
      var s3 := Step(s2, acts[2]).value;
      ExecPath([s, s1, s2, s3], acts);
    }
  }

  /* ---- releasing ---- */

  /** A process that releases the lock frees the path: the next undisturbed newcomer gets the lock. */
  lemma ReleaseFrees(s: State, p: Pid, q: Pid)
    requires p != q && CanAct(s, p) && s.pcs[p].Holding? && CanAct(s, q) && s.pcs[q] == Start
    ensures var t := Step(s, Release(p)).value;
            && t.file.None? && t.pcs[p] == Exited
            && Exec(t, SoloCall(t, q)).Some? && Holder(Exec(t, SoloCall(t, q)).value, q)
  {
    SoloCallOutcome(Step(s, Release(p)).value, q);
  }

  /** A generation that is gone from the path never comes back, whatever the run. */
  lemma {:induction false} GenerationsNeverReturn(s: State, acts: seq<Action>, g: nat)
    requires g < s.nextGen && (s.file.Some? ==> s.file.value.gen != g) && Exec(s, acts).Some?
    ensures var t := Exec(s, acts).value; g < t.nextGen && (t.file.Some? ==> t.file.value.gen != g)
    decreases |acts|
  {
    if acts != [] {
      GenerationsNeverReturn(Step(s, acts[0]).value, acts[1..], g);
    }
  }

  /** So a lock once released is never seen again. */
  lemma ReleasedForGood(s: State, p: Pid, acts: seq<Action>)
    requires Inv(s) && Step(s, Release(p)).Some? && Exec(Step(s, Release(p)).value, acts).Some?
    ensures var t := Exec(Step(s, Release(p)).value, acts).value; t.file.Some? ==> t.file.value.gen != s.pcs[p].gen
  {
    assert PcOk(s, p);
    GenerationsNeverReturn(Step(s, Release(p)).value, acts, s.pcs[p].gen);
  }

  /** The path only changes by a create, a write, a removal or a release; in particular a crash leaves
      the lock behind. */
  lemma PathChanges(s: State, a: Action)
    requires Step(s, a).Some?
    ensures var t := Step(s, a).value;
            && (a.Crash? || a.Spawn? || a.CreateError? || a.Read? || a.Check? || a.RemoveError? ==> t.file == s.file)
            && (a.Remove? || a.Release? ==> t.file.None?)
            && (a.Create? && s.file.Some? ==> t.file == s.file)
            && (a.Create? && s.file.None? ==> t.file == Some(LockFile(s.nextGen, None)) && t.pcs[a.p] == Created(s.nextGen))
            && (a.Write? && s.file.Some? && s.file.value.gen == s.pcs[a.p].gen ==>
                  t.file == Some(s.file.value.(text := if a.ok then Some(a.p) else s.file.value.text)))
            && (a.Write? && !(s.file.Some? && s.file.value.gen == s.pcs[a.p].gen) ==> t.file == s.file)
  {}
}
