/** The health sync loop against the SIGHUP reload: two goroutines of this process and any number
    of foreign writers share the row table of /status.  Each locked call is one step. */
module HealthSync {
  import opened GoStrings

  type Id = string

  /** Where syncHealthLoop stands in one tick. */
  datatype LoopPc =
    | Waiting
    | HasIds(current: set<Id>)                          // TargetIDs copied into current
    | Publishing(current: set<Id>, pending: set<Id>)    // statuses of the snapshot still to upsert
    | Pruning(current: set<Id>, pending: set<Id>)       // owned ids still to look at

  /** Where the SIGHUP goroutine stands: the removed ids still to withdraw. */
  datatype ReloadPc = Ready | Withdrawing(pending: set<Id>)

  datatype State = State(
    targets: set<Id>,    // ids of the engine's compiled targets
    statuses: set<Id>,   // ids with a recorded check result
    rows: set<Id>,       // ids shown in /status
    owned: set<Id>,      // ids the loop published in its last tick
    loop: LoopPc,
    reload: ReloadPc)

  datatype Action =
    | StoreStatus(id: Id)          // a check of a current target finished
    | TickIds                      // eng.TargetIDs
    | TickSnapshot                 // eng.SnapshotStatuses
    | TickUpsert(id: Id)           // hs.UpsertTargetStatus
    | TickPublished
    | TickPrune(id: Id)            // look at one owned id, hs.RemoveTarget if it is not current
    | TickDone                     // owned = current
    | ReloadSwap(next: set<Id>)    // eng.ReloadConfig succeeded
    | ReloadWithdraw(id: Id)       // hs.RemoveTarget of one removed id
    | ReloadDone
    | ForeignUpsert(id: Id)        // a peer's row arrives
    | ForeignRemove(id: Id)

  predicate IsReload(a: Action) {
    a.ReloadSwap? || a.ReloadWithdraw? || a.ReloadDone?
  }

  /** UpsertTargetStatus ignores a blank id. */
  function Upsert(rows: set<Id>, id: Id): set<Id> {
    if IsBlank(id) then rows else rows + {id}
  }

  /** One step; `engine` is the set of ids this process's configurations use, which peers do not. */
  function Step(engine: set<Id>, s: State, a: Action): Option<State> {
    match a
    case StoreStatus(id) =>
      if id in s.targets then Some(s.(statuses := s.statuses + {id})) else None
    case TickIds =>
      if s.loop.Waiting? then Some(s.(loop := HasIds(s.targets))) else None
    case TickSnapshot =>
      if s.loop.HasIds? then Some(s.(loop := Publishing(s.loop.current, s.statuses))) else None
    case TickUpsert(id) =>
      if s.loop.Publishing? && id in s.loop.pending
      then Some(s.(rows := Upsert(s.rows, id), loop := Publishing(s.loop.current + {id}, s.loop.pending - {id})))
      else None
    case TickPublished =>
      if s.loop.Publishing? && s.loop.pending == {} then Some(s.(loop := Pruning(s.loop.current, s.owned))) else None
    case TickPrune(id) =>
      if s.loop.Pruning? && id in s.loop.pending
      then Some(s.(rows := if id in s.loop.current then s.rows else s.rows - {id},
                   loop := Pruning(s.loop.current, s.loop.pending - {id})))
      else None
    case TickDone =>
      if s.loop.Pruning? && s.loop.pending == {} then Some(s.(owned := s.loop.current, loop := Waiting)) else None
    case ReloadSwap(next) =>
      if s.reload.Ready? && next <= engine
      then Some(s.(targets := next, statuses := {}, reload := Withdrawing(s.targets - next)))
      else None
    case ReloadWithdraw(id) =>
      if s.reload.Withdrawing? && id in s.reload.pending
      then Some(s.(rows := s.rows - {id}, reload := Withdrawing(s.reload.pending - {id})))
      else None
    case ReloadDone =>
      if s.reload.Withdrawing? && s.reload.pending == {} then Some(s.(reload := Ready)) else None
    case ForeignUpsert(id) =>
      if id !in engine then Some(s.(rows := Upsert(s.rows, id))) else None
    case ForeignRemove(id) =>
      if id !in engine then Some(s.(rows := s.rows - {id})) else None
  }

  function Exec(engine: set<Id>, s: State, acts: seq<Action>): Option<State>
    decreases |acts|
  {
    if acts == [] then Some(s)
    else
      var next := Step(engine, s, acts[0]);
      if next.None? then None else Exec(engine, next.value, acts[1..])
  }

  predicate Init(engine: set<Id>, s: State) {
    s.targets <= engine && s == State(s.targets, {}, {}, {}, Waiting, Ready)
  }

  /* ---- what every step keeps ---- */

  /** The rows with ids of this process all have ids in `ids`. */
  ghost predicate RowsWithin(engine: set<Id>, s: State, ids: set<Id>) {
    forall id :: id in s.rows && id in engine ==> id in ids
  }

  /** The rows of this process are exactly accounted for by the loop's own memory. */
  ghost predicate Inv(engine: set<Id>, s: State) {
    && s.statuses <= s.targets <= engine && s.owned <= engine
    && (match s.loop
        case Waiting => RowsWithin(engine, s, s.owned)
        case HasIds(current) => current <= engine && RowsWithin(engine, s, s.owned)
        case Publishing(current, pending) =>
          current <= engine && pending <= engine && RowsWithin(engine, s, s.owned + current)
        case Pruning(current, pending) =>
          current <= engine && pending <= s.owned && RowsWithin(engine, s, current + pending))
    && (s.reload.Withdrawing? ==> s.reload.pending <= engine && s.reload.pending !! s.targets)
  }

  lemma StepInv(engine: set<Id>, s: State, a: Action)
    requires Inv(engine, s) && Step(engine, s, a).Some?
    ensures Inv(engine, Step(engine, s, a).value)
  {}

  lemma {:induction false} RunInv(engine: set<Id>, s: State, acts: seq<Action>)
    requires Inv(engine, s) && Exec(engine, s, acts).Some?
    ensures Inv(engine, Exec(engine, s, acts).value)
    decreases |acts|
  {
    if acts != [] {
      StepInv(engine, s, acts[0]);
      RunInv(engine, Step(engine, s, acts[0]).value, acts[1..]);
    }
  }

  /** Every tick of every interleaving ends with each row of this process in that tick's `current`. */
  lemma TickEndsHonest(engine: set<Id>, s: State, acts: seq<Action>)
    requires Init(engine, s) && Exec(engine, s, acts).Some?
    requires Step(engine, Exec(engine, s, acts).value, TickDone).Some?
    ensures var t := Exec(engine, s, acts).value;
            var t' := Step(engine, t, TickDone).value;
            RowsWithin(engine, t', t.loop.current) && t'.owned == t.loop.current <= engine
  {
    RunInv(engine, s, acts);
  }

  /* ---- foreign rows ---- */

  /** The rows of other alarms, replayed from the peers' writes alone. */
  function Replay(rows: set<Id>, acts: seq<Action>): set<Id>
    decreases |acts|
  {
    if acts == [] then rows
    else match acts[0]
      case ForeignUpsert(id) => Replay(Upsert(rows, id), acts[1..])
      case ForeignRemove(id) => Replay(rows - {id}, acts[1..])
      case _ => Replay(rows, acts[1..])
  }

  /** Neither the loop nor a reload ever touches a foreign row: in every interleaving the foreign
      rows are what the peers' own writes alone would have left. */
  lemma {:induction false} ForeignRowsUntouched(engine: set<Id>, s: State, acts: seq<Action>)
    requires Inv(engine, s) && Exec(engine, s, acts).Some?
    ensures Exec(engine, s, acts).value.rows - engine == Replay(s.rows - engine, acts)
    decreases |acts|
  {
    if acts != [] {
      var a := acts[0];
      var s' := Step(engine, s, a).value;
      StepInv(engine, s, a);
      ForeignRowsUntouched(engine, s', acts[1..]);
      match a {
        case ForeignUpsert(id) => assert s'.rows - engine == Upsert(s.rows - engine, id);
        case ForeignRemove(id) => assert s'.rows - engine == (s.rows - engine) - {id};
        case _ => assert s'.rows - engine == s.rows - engine;
      }
    }
  }

  /* ---- a target that left the configuration ---- */

  /** `x` is no target of the engine at any moment of the run. */
  ghost predicate NeverTarget(engine: set<Id>, s: State, acts: seq<Action>, x: Id)
    decreases |acts|
  {
    x !in s.targets &&
    (acts == [] || Step(engine, s, acts[0]).None? || NeverTarget(engine, Step(engine, s, acts[0]).value, acts[1..], x))
  }

  /** Nothing the loop remembers, and no row, mentions `x`. */
  ghost predicate Gone(s: State, x: Id) {
    && x !in s.rows && x !in s.owned
    && (!s.loop.Waiting? ==> x !in s.loop.current)
    && (s.loop.Publishing? || s.loop.Pruning? ==> x !in s.loop.pending)
  }

  /** A tick that began after `x` left is under way: a row for `x` is one the loop will prune. */
  ghost predicate Leaving(s: State, x: Id) {
    match s.loop
    case Waiting => false
    case HasIds(current) => x !in current
    case Publishing(current, pending) => x !in current && x !in pending
    case Pruning(current, pending) => x !in current && (x in s.rows ==> x in pending)
  }

  lemma {:induction false} GoneStays(engine: set<Id>, s: State, acts: seq<Action>, x: Id)
    requires Inv(engine, s) && x in engine && Gone(s, x)
    requires Exec(engine, s, acts).Some? && NeverTarget(engine, s, acts, x)
    ensures Gone(Exec(engine, s, acts).value, x)
    decreases |acts|
  {
    if acts != [] {
      StepInv(engine, s, acts[0]);
      GoneStays(engine, Step(engine, s, acts[0]).value, acts[1..], x);
    }
  }

  lemma {:induction false} LeavingGoes(engine: set<Id>, s: State, acts: seq<Action>, x: Id)
    requires Inv(engine, s) && x in engine && Leaving(s, x)
    requires Exec(engine, s, acts).Some? && NeverTarget(engine, s, acts, x) && TickDone in acts
    ensures Gone(Exec(engine, s, acts).value, x)
    decreases |acts|
  {
    var s' := Step(engine, s, acts[0]).value;
    StepInv(engine, s, acts[0]);
    if acts[0] == TickDone {
      GoneStays(engine, s', acts[1..], x);
    } else {
      assert Leaving(s', x);
      LeavingGoes(engine, s', acts[1..], x);
    }
  }

  /** A row whose target left the configuration is gone by the end of the next full tick, however
      the tick interleaves with further reloads and peers, and stays gone until a reload brings the
      target back.  It does not matter how the row got there. */
  lemma GoneAfterNextTick(engine: set<Id>, s: State, acts: seq<Action>, x: Id)
    requires Inv(engine, s) && x in engine
    requires acts != [] && acts[0] == TickIds && TickDone in acts
    requires Exec(engine, s, acts).Some? && NeverTarget(engine, s, acts, x)
    ensures Gone(Exec(engine, s, acts).value, x)
  {
    var s' := Step(engine, s, TickIds).value;
    StepInv(engine, s, TickIds);
    assert TickDone in acts[1..];
    LeavingGoes(engine, s', acts[1..], x);
  }

  /* ---- a withdrawn row that comes back ---- */

  /** Nothing under way will publish `x`, and a row for it is one the reload is about to withdraw. */
  ghost predicate Awaiting(s: State, x: Id) {
    && x !in s.targets
    && (s.loop.Publishing? ==> x !in s.loop.pending)
    && (x in s.rows ==> Unwithdrawn(s, x))
  }

  /** The reload in progress has still to withdraw `x`. */
  predicate Unwithdrawn(s: State, x: Id) {
    s.reload.Withdrawing? && x in s.reload.pending
  }

  lemma {:induction false} AwaitingRun(engine: set<Id>, s: State, acts: seq<Action>, x: Id)
    requires Inv(engine, s) && x in engine && Awaiting(s, x)
    requires Exec(engine, s, acts).Some? && NeverTarget(engine, s, acts, x)
    ensures Awaiting(Exec(engine, s, acts).value, x)
    ensures x !in s.rows ==> x !in Exec(engine, s, acts).value.rows
    decreases |acts|
  {
    if acts != [] {
      StepInv(engine, s, acts[0]);
      AwaitingRun(engine, Step(engine, s, acts[0]).value, acts[1..], x);
    }
  }

  lemma TwoSteps(engine: set<Id>, s: State, a: Action, b: Action)
    requires Step(engine, s, a).Some? && Step(engine, Step(engine, s, a).value, b).Some?
    ensures Exec(engine, s, [a]) == Step(engine, s, a)
    ensures Exec(engine, s, [a, b]) == Step(engine, Step(engine, s, a).value, b)
  {
    var s1 := Step(engine, s, a).value;
    var s2 := Step(engine, s1, b).value;
    assert [a, b][1..] == [b] && [a][1..] == [] && [b][1..] == [];
    assert Exec(engine, s1, []) == Some(s1) && Exec(engine, s2, []) == Some(s2);
    assert Exec(engine, s1, [b]) == Some(s2);
  }

  /** Such rows do arise: a reload that lands between the loop's snapshot and its upsert withdraws
      the row first, and the upsert brings it back. */
  lemma ReloadRaceResurrects(engine: set<Id>, s: State, x: Id)
    requires Inv(engine, s) && s.reload.Ready? && x in s.targets && !IsBlank(x)
    requires s.loop.Publishing? && x in s.loop.pending
    ensures var acts := [ReloadSwap(s.targets - {x}), ReloadWithdraw(x), TickUpsert(x)];
            var t := Exec(engine, s, acts);
            t.Some? && x in t.value.rows && t.value.loop.Publishing? && x in t.value.loop.current && x !in t.value.targets
  {
    var acts := [ReloadSwap(s.targets - {x}), ReloadWithdraw(x), TickUpsert(x)];
    assert acts[1..] == [ReloadWithdraw(x), TickUpsert(x)];
    TwoSteps(engine, Step(engine, s, acts[0]).value, ReloadWithdraw(x), TickUpsert(x));
  }

  lemma {:induction false} ExecAppend(engine: set<Id>, s: State, front: seq<Action>, back: seq<Action>)
    requires Exec(engine, s, front).Some?
    ensures Exec(engine, s, front + back) == Exec(engine, Exec(engine, s, front).value, back)
    decreases |front|
  {
    if front == [] {
      assert front + back == back;
    } else {
      assert (front + back)[1..] == front[1..] + back;
      ExecAppend(engine, Step(engine, s, front[0]).value, front[1..], back);
    }
  }

  /** From every start-up, a finished check of any target brings the loop to hold its status unpublished. */
  lemma SnapshotTaken(engine: set<Id>, s: State, x: Id)
    requires Init(engine, s) && x in s.targets
    ensures var t := Exec(engine, s, [StoreStatus(x), TickIds, TickSnapshot]);
            t.Some? && t.value == s.(statuses := {x}, loop := Publishing(s.targets, {x})) && Inv(engine, t.value)
  {
    var s1 := Step(engine, s, StoreStatus(x)).value;
    TwoSteps(engine, s1, TickIds, TickSnapshot);
    assert [StoreStatus(x), TickIds, TickSnapshot][1..] == [TickIds, TickSnapshot];
    RunInv(engine, s, [StoreStatus(x), TickIds, TickSnapshot]);
  }

  /** And so from every start-up some run shows a row whose target a reload has removed and withdrawn. */
  lemma ResurrectionReachable(engine: set<Id>, s: State, x: Id) returns (acts: seq<Action>)
    requires Init(engine, s) && x in s.targets && !IsBlank(x)
    ensures var t := Exec(engine, s, acts);
            t.Some? && x in t.value.rows && x !in t.value.targets && !Unwithdrawn(t.value, x)
  {
    var front := [StoreStatus(x), TickIds, TickSnapshot];
    var back := [ReloadSwap(s.targets - {x}), ReloadWithdraw(x), TickUpsert(x)];
    SnapshotTaken(engine, s, x);
    var m := Exec(engine, s, front).value;
    ReloadRaceResurrects(engine, m, x);
    ExecAppend(engine, s, front, back);
    acts := front + back;
    var s1 := Step(engine, m, back[0]).value;
    TwoSteps(engine, s1, back[1], back[2]);
    assert back[1..] == [back[1], back[2]];
  }

  /** A row that is not shown for an id that is no target stays away, in every run that does not make
      it a target, exactly when the loop has not got it left to publish. */
  lemma WithdrawnStaysExactly(engine: set<Id>, s: State, x: Id)
    requires Inv(engine, s) && x in engine && x !in s.targets && x !in s.rows && !IsBlank(x)
    ensures (forall acts :: Exec(engine, s, acts).Some? && NeverTarget(engine, s, acts, x) ==>
               x !in Exec(engine, s, acts).value.rows)
       <==> !(s.loop.Publishing? && x in s.loop.pending)
  {
    if s.loop.Publishing? && x in s.loop.pending {
      var acts := [TickUpsert(x)];
      assert acts[1..] == [] && Exec(engine, Step(engine, s, acts[0]).value, []).Some?;
      assert Exec(engine, s, acts) == Step(engine, s, TickUpsert(x));
      assert NeverTarget(engine, s, acts, x);
    } else {
      forall acts | Exec(engine, s, acts).Some? && NeverTarget(engine, s, acts, x)
        ensures x !in Exec(engine, s, acts).value.rows
      {
        AwaitingRun(engine, s, acts, x);
      }
    }
  }

  /** Once `x` is withdrawn its row is not shown again unless a reload makes it a target. */
  ghost predicate StaysWithdrawn(engine: set<Id>, s: State, x: Id) {
    forall acts :: Exec(engine, s, acts).Some? && NeverTarget(engine, s, acts, x) && !Unwithdrawn(Exec(engine, s, acts).value, x) ==>
      x !in Exec(engine, s, acts).value.rows
  }

  /** What the loop holds when a reload lands decides: a dropped target's row stays away after its
      withdrawal, in every further run, exactly when the loop had not taken its status into a snapshot
      still to be published. */
  lemma ReloadHonestExactly(engine: set<Id>, s: State, next: set<Id>, x: Id)
    requires Inv(engine, s) && s.reload.Ready? && next <= engine && x in s.targets && x !in next && !IsBlank(x)
    ensures StaysWithdrawn(engine, Step(engine, s, ReloadSwap(next)).value, x) <==> !(s.loop.Publishing? && x in s.loop.pending)
  {
    var s' := Step(engine, s, ReloadSwap(next)).value;
    StepInv(engine, s, ReloadSwap(next));
    if s.loop.Publishing? && x in s.loop.pending {
      var acts := [ReloadWithdraw(x), TickUpsert(x)];
      var s1 := Step(engine, s', ReloadWithdraw(x)).value;
      TwoSteps(engine, s', ReloadWithdraw(x), TickUpsert(x));
      assert acts[1..] == [TickUpsert(x)] && acts[1..][1..] == [];
      assert NeverTarget(engine, s1, acts[1..], x);
      assert NeverTarget(engine, s', acts, x);
      assert x in Exec(engine, s', acts).value.rows;
    } else {
      forall acts | Exec(engine, s', acts).Some? && NeverTarget(engine, s', acts, x)
                    && !Unwithdrawn(Exec(engine, s', acts).value, x)
        ensures x !in Exec(engine, s', acts).value.rows
      {
        AwaitingRun(engine, s', acts, x);
      }
    }
  }

  /** No row without an id is ever shown. */
  lemma {:induction false} NoBlankRows(engine: set<Id>, s: State, acts: seq<Action>)
    requires Exec(engine, s, acts).Some? && forall id :: id in s.rows ==> !IsBlank(id)
    ensures forall id :: id in Exec(engine, s, acts).value.rows ==> !IsBlank(id)
    decreases |acts|
  {
    if acts != [] {
      NoBlankRows(engine, Step(engine, s, acts[0]).value, acts[1..]);
    }
  }

  /* ---- what a reload forgets ---- */

  lemma {:induction false} StatusesStored(engine: set<Id>, s: State, acts: seq<Action>, x: Id)
    requires Exec(engine, s, acts).Some? && x in Exec(engine, s, acts).value.statuses
    ensures x in s.statuses || StoreStatus(x) in acts
    decreases |acts|
  {
    if acts != [] {
      StatusesStored(engine, Step(engine, s, acts[0]).value, acts[1..], x);
    }
  }

  /** A snapshot taken after a reload holds only results recorded after it, for the new targets. */
  lemma SnapshotIsFresh(engine: set<Id>, s: State, next: set<Id>, acts: seq<Action>)
    requires Inv(engine, s) && Step(engine, s, ReloadSwap(next)).Some?
    requires var s' := Step(engine, s, ReloadSwap(next)).value;
             Exec(engine, s', acts).Some? && Step(engine, Exec(engine, s', acts).value, TickSnapshot).Some?
    ensures var t := Exec(engine, Step(engine, s, ReloadSwap(next)).value, acts).value;
            forall x :: x in Step(engine, t, TickSnapshot).value.loop.pending ==> StoreStatus(x) in acts && x in t.targets
  {
    var s' := Step(engine, s, ReloadSwap(next)).value;
    StepInv(engine, s, ReloadSwap(next));
    RunInv(engine, s', acts);
    forall x | x in Exec(engine, s', acts).value.statuses ensures StoreStatus(x) in acts {
      StatusesStored(engine, s', acts, x);
    }
  }

  /** A reload swaps in the new targets and sets out to withdraw exactly those that left. */
  lemma ReloadWithdrawsLeavers(engine: set<Id>, s: State, next: set<Id>)
    requires Step(engine, s, ReloadSwap(next)).Some?
    ensures var t := Step(engine, s, ReloadSwap(next)).value;
            && t.targets == next && t.rows == s.rows && t.loop == s.loop && t.owned == s.owned
            && forall x :: Unwithdrawn(t, x) <==> x in s.targets && x !in next
  {}

  /* ---- a tick no reload disturbs ---- */

  /** Within a tick no reload disturbs: the targets stay `targets`, and the results recorded by
      its start are published or still to be. */
  ghost predicate Quiet(targets: set<Id>, checked: set<Id>, s: State) {
    && s.targets == targets && checked <= s.statuses
    && (match s.loop
        case Waiting => true
        case HasIds(current) => current == targets
        case Publishing(current, pending) =>
          current == targets && pending <= targets
          && forall id :: id in checked && !IsBlank(id) ==> id in pending || id in s.rows
        case Pruning(current, pending) =>
          current == targets && forall id :: id in checked && !IsBlank(id) ==> id in s.rows)
  }

  lemma {:induction false} QuietRun(engine: set<Id>, targets: set<Id>, checked: set<Id>, s: State, acts: seq<Action>)
    requires Inv(engine, s) && Quiet(targets, checked, s) && Exec(engine, s, acts).Some?
    requires forall a :: a in acts ==> !IsReload(a) && a != TickDone
    ensures Quiet(targets, checked, Exec(engine, s, acts).value) && Inv(engine, Exec(engine, s, acts).value)
    decreases |acts|
  {
    if acts != [] {
      var s' := Step(engine, s, acts[0]).value;
      StepInv(engine, s, acts[0]);
      assert acts[0] in acts;
      assert Quiet(targets, checked, s');
      QuietRun(engine, targets, checked, s', acts[1..]);
    }
  }

  /** A tick during which no reload step runs publishes every result recorded before it began and
      leaves no row of this process that is not a target. */
  lemma QuietTickPublishes(engine: set<Id>, s: State, acts: seq<Action>)
    requires Inv(engine, s) && s.loop.Waiting? && Exec(engine, s, acts).Some?
    requires forall a :: a in acts ==> !IsReload(a) && a != TickDone
    requires Step(engine, Exec(engine, s, acts).value, TickDone).Some?
    ensures var t := Step(engine, Exec(engine, s, acts).value, TickDone).value;
            && t.targets == s.targets && RowsWithin(engine, t, s.targets)
            && forall id :: id in s.statuses && !IsBlank(id) ==> id in t.rows
  {
    QuietRun(engine, s.targets, s.statuses, s, acts);
  }

  /* ---- one undisturbed tick, as the program runs it ---- */

  class StatusBoard {
    var rows: set<Id>
    var owned: set<Id>

    method Tick(targetIds: seq<Id>, statuses: seq<Id>)
      modifies this
      ensures owned == (set id | id in targetIds) + (set id | id in statuses)
      ensures forall id :: id in rows <==>
                (id in statuses && !IsBlank(id)) || (id in old(rows) && (id in owned || id !in old(owned)))
    {
      var current: set<Id> := {};
      for i := 0 to |targetIds|
        invariant current == set id | id in targetIds[..i]
      {
        current := current + {targetIds[i]};
      }
      var ids := current;
      assert targetIds[..|targetIds|] == targetIds;
      for i := 0 to |statuses|
        invariant current == ids + set id | id in statuses[..i]
        invariant forall id :: id in rows <==> id in old(rows) || (id in statuses[..i] && !IsBlank(id))
        invariant owned == old(owned)
      {
        current := current + {statuses[i]};
        rows := Upsert(rows, statuses[i]);
      }
      assert statuses[..|statuses|] == statuses;
      var published := rows;
      var pending := owned;
      while pending != {}
        invariant pending <= owned == old(owned)
        invariant rows == published - (owned - pending - current)
        decreases pending
      {
        var id :| id in pending;
        if id !in current {
          rows := rows - {id};
        }
        pending := pending - {id};
      }
      owned := current;
    }
  }
}
