/**
 Run admission of one job pipeline under overlap: skip (internal/jobs/jobs.go): triggers,
 recovery, stop, crashes and restarts. Steps are the manager's critical sections and the
 store writes between them.
 */
module JobRuns {

  datatype Status = Pending | Running | Terminal

  predicate IsRunnable(st: Status) { st.Pending? || st.Running? }

  /** A run's goroutine: at work, or past its terminal write. */
  datatype Life = Working | Ended

  datatype State = State(
    records: map<nat, Status>,      // run records in the store
    up: bool,                       // a manager exists
    snapshot: seq<nat>,             // runnable records recovery has yet to resume
    recovered: bool,                // recovery is over: ticks and triggers may come
    current: map<nat, Life>,        // registered runs, one goroutine each
    stopped: bool, stopReturned: bool)

  const Init := State(map[], false, [], false, map[], false, false)

  datatype Event =
    | Boot(order: seq<nat>)                     // a new manager reads the runnable records
    | ResumeNext
    | ResumeFails(written: bool)                // its parameters no longer resolve: written failed, never registered
    | RecoveryDone
    | Trigger(id: nat, resolves: bool, created: bool)  // a tick or a manual trigger; created is the store's answer
    | MarkRunning(id: nat, written: bool)
    | End(id: nat, written: bool)               // the terminal write of a run
    | Remove(id: nat)                           // the goroutine leaves the active set and exits
    | Stop
    | StopReturns
    | Crash

  function Runnable(records: map<nat, Status>): set<nat> {
    set id | id in records && IsRunnable(records[id])
  }

  predicate NoRepeats(s: seq<nat>) { forall i, j :: 0 <= i < j < |s| ==> s[i] != s[j] }

  predicate Enabled(s: State, e: Event) {
    match e
    case Boot(order) =>
      (!s.up || s.stopReturned) && NoRepeats(order) && (forall id :: id in order ==> id in Runnable(s.records))
      && (forall id :: id in Runnable(s.records) ==> id in order)
    case ResumeNext => s.up && s.snapshot != []
    case ResumeFails(_) => s.up && s.snapshot != []
    case RecoveryDone => s.up && s.snapshot == [] && !s.recovered
    case Trigger(id, _, _) => s.up && s.recovered && id !in s.records
    case MarkRunning(id, _) => s.up && id in s.current && s.current[id].Working?
    case End(id, _) => s.up && id in s.current && s.current[id].Working?
    case Remove(id) => s.up && id in s.current && s.current[id].Ended?
    case Stop => s.up
    case StopReturns => s.up && s.stopped && s.current == map[]
    case Crash => s.up
  }

  /** Register a run, unless the manager was stopped meanwhile. */
  function Register(s: State, id: nat): State {
    if s.stopped then s else s.(current := s.current[id := Working])
  }

  function Step(s: State, e: Event): State
    requires Enabled(s, e)
  {
    match e
    case Boot(order) =>
      s.(up := true, snapshot := order, recovered := false, current := map[], stopped := false, stopReturned := false)
    case ResumeNext => Register(s, s.snapshot[0]).(snapshot := s.snapshot[1..])
    case ResumeFails(written) =>
      s.(snapshot := s.snapshot[1..], records := if written then s.records[s.snapshot[0] := Terminal] else s.records)
    case RecoveryDone => s.(recovered := true)
    case Trigger(id, resolves, created) =>
      if !resolves || s.stopped || s.current != map[] || !created then s
      else Register(s.(records := s.records[id := Pending]), id)
    case MarkRunning(id, written) => if written then s.(records := s.records[id := Status.Running]) else s
    case End(id, written) =>
      s.(records := if written then s.records[id := Terminal] else s.records, current := s.current[id := Ended])
    case Remove(id) => s.(current := s.current - {id})
    case Stop => s.(stopped := true)
    case StopReturns => s.(stopReturned := true)
    case Crash =>
      s.(up := false, snapshot := [], recovered := false, current := map[], stopped := false, stopReturned := false)
  }

  datatype Outcome = Stuck | Reached(s: State)

  function After(s: State, es: seq<Event>): Outcome
    decreases |es|
  {
    if es == [] then Reached(s) else if Enabled(s, es[0]) then After(Step(s, es[0]), es[1..]) else Stuck
  }

  // --- what every step keeps while terminal writes succeed ---

  ghost predicate Inv(s: State) {
    && (forall id :: id in s.current ==> id in s.records)
    && (forall id :: id in s.current && s.current[id].Ended? ==> s.records[id].Terminal?)
    && NoRepeats(s.snapshot) && (forall id :: id in s.snapshot ==> id in s.records && id !in s.current)
    && (s.up && !s.stopped ==> forall id :: id in Runnable(s.records) ==> id in s.current || id in s.snapshot)
    && (s.recovered ==> s.snapshot == [])
    && AtMostOne(s)
    && (!s.up ==> s.current == map[] && s.snapshot == [] && !s.stopped)
    && (s.stopReturned ==> s.stopped && s.current == map[])
  }

  predicate Involved(s: State, id: nat) { id in s.current || id in s.snapshot || id in Runnable(s.records) }

  /** One run is active, resumable or about to be resumed, at most. */
  ghost predicate AtMostOne(s: State) {
    forall a, b :: Involved(s, a) && Involved(s, b) ==> a == b
  }

  /** A terminal write succeeds, the one of a resume that fails included. */
  predicate Writes(e: Event) { (e.End? ==> e.written) && (e.ResumeFails? ==> e.written) }

  lemma StepKeeps(s: State, e: Event)
    requires Inv(s) && Enabled(s, e) && Writes(e)
    ensures Inv(Step(s, e))
  {
    if e.ResumeNext? || e.ResumeFails? || e.Boot? || e.RecoveryDone? { RecoveryKeeps(s, e); }
    else if e.Trigger? { TriggerKeeps(s, e.id, e.resolves, e.created); }
    else if e.MarkRunning? || e.End? || e.Remove? { RunKeeps(s, e); }
    else { assert forall id :: Involved(Step(s, e), id) ==> Involved(s, id); }
  }

  lemma RecoveryKeeps(s: State, e: Event)
    requires Inv(s) && Enabled(s, e) && Writes(e)
    requires e.ResumeNext? || e.ResumeFails? || e.Boot? || e.RecoveryDone?
    ensures Inv(Step(s, e))
  {
    var s' := Step(s, e);
    if e.ResumeNext? || e.ResumeFails? {
      assert s.snapshot[0] in s.snapshot;
      assert forall id :: id in s.snapshot <==> id == s.snapshot[0] || id in s.snapshot[1..];
    }
    assert forall id :: Involved(s', id) ==> Involved(s, id);
  }

  lemma TriggerKeeps(s: State, id: nat, resolves: bool, created: bool)
    requires Inv(s) && Enabled(s, Trigger(id, resolves, created))
    ensures Inv(Step(s, Trigger(id, resolves, created)))
  {
    if resolves && !s.stopped && s.current == map[] && created {
      var s' := Step(s, Trigger(id, resolves, created));
      assert Runnable(s.records) == {};
      assert forall k :: Involved(s', k) ==> k == id;
    }
  }

  lemma RunKeeps(s: State, e: Event)
    requires Inv(s) && Enabled(s, e) && Writes(e) && (e.MarkRunning? || e.End? || e.Remove?)
    ensures Inv(Step(s, e))
  {
    assert forall id :: Involved(Step(s, e), id) ==> Involved(s, id);
  }

  // --- theorems ---

  lemma {:induction false} RunsKeep(s: State, es: seq<Event>, s': State)
    requires After(s, es) == Reached(s') && Inv(s) && forall i :: 0 <= i < |es| ==> Writes(es[i])
    ensures Inv(s')
    decreases |es|
  {
    if es != [] {
      StepKeeps(s, es[0]);
      RunsKeep(Step(s, es[0]), es[1..], s');
    }
  }

  // --- an interrupted run is found again ---

  predicate InFlight(records: map<nat, Status>, id: nat) {
    id in records && (records[id] == Pending || records[id] == Status.Running)
  }

  /** What is at work, or about to be resumed, has a record that says so, failing writes included. */
  ghost predicate Recorded(s: State) {
    && NoRepeats(s.snapshot)
    && (forall id :: id in s.current ==> id in s.records && id !in s.snapshot)
    && (forall id :: id in s.snapshot ==> InFlight(s.records, id))
    && (forall id :: id in s.current && s.current[id].Working? ==> InFlight(s.records, id))
    && (!s.up ==> s.current == map[])
  }

  lemma StepRecords(s: State, e: Event)
    requires Recorded(s) && Enabled(s, e)
    ensures Recorded(Step(s, e))
  {
    if e.ResumeNext? || e.ResumeFails? {
      assert s.snapshot[0] in s.snapshot;
      assert forall id :: id in s.snapshot <==> id == s.snapshot[0] || id in s.snapshot[1..];
    }
  }

  lemma {:induction false} RunRecords(s: State, es: seq<Event>, s': State)
    requires After(s, es) == Reached(s') && Recorded(s)
    ensures Recorded(s')
    decreases |es|
  {
    if es != [] {
      StepRecords(s, es[0]);
      RunRecords(Step(s, es[0]), es[1..], s');
    }
  }

  /**
   A run that is at work when the process dies has a pending or running record, and the next
   manager reads it; a manager reads pending and running records and no other.
   */
  lemma InterruptedRunsAreRead(es: seq<Event>, s: State, id: nat, order: seq<nat>)
    requires After(Init, es) == Reached(s) && id in s.current && s.current[id].Working?
    ensures s.up && id in s.records && (s.records[id] == Pending || s.records[id] == Status.Running)
    ensures Enabled(Step(s, Crash), Boot(order)) ==>
      && id in order
      && forall k :: k in order <==> k in s.records && (s.records[k] == Pending || s.records[k] == Status.Running)
  {
    RunRecords(Init, es, s);
    assert InFlight(s.records, id);
  }

  // --- at most one active run, exactly when ---

  /** Registered, or about to be. */
  predicate Here(s: State, id: nat) { id in s.current || id in s.snapshot }

  /** What holds as long as no manager reads more than one runnable record. */
  ghost predicate Single(s: State) {
    && (forall a, b :: Here(s, a) && Here(s, b) ==> a == b)
    && NoRepeats(s.snapshot) && (forall id :: id in s.snapshot ==> id !in s.current)
    && (s.recovered ==> s.snapshot == [])
  }

  predicate ReadsOne(e: Event) { e.Boot? ==> |e.order| <= 1 }

  lemma StepSingle(s: State, e: Event)
    requires Single(s) && Enabled(s, e) && ReadsOne(e)
    ensures Single(Step(s, e))
  {
    var s' := Step(s, e);
    if e.ResumeNext? || e.ResumeFails? {
      assert s.snapshot[0] in s.snapshot;
      assert forall id :: id in s.snapshot <==> id == s.snapshot[0] || id in s.snapshot[1..];
      assert forall id :: Here(s', id) ==> Here(s, id);
    } else if e.Trigger? {
      if s' != s { assert forall id :: Here(s', id) ==> id == e.id; }
    } else if !e.Boot? {
      assert forall id :: Here(s', id) ==> Here(s, id);
    }
  }

  lemma {:induction false} RunSingle(s: State, es: seq<Event>, s': State)
    requires After(s, es) == Reached(s') && Single(s) && forall i :: 0 <= i < |es| ==> ReadsOne(es[i])
    ensures Single(s')
    decreases |es|
  {
    if es != [] {
      StepSingle(s, es[0]);
      RunSingle(Step(s, es[0]), es[1..], s');
    }
  }

  /**
   Under overlap: skip at most one run is active at the end of every history, crashes,
   resumes and failed writes included, in which no manager found more than one runnable
   record when it started.
   */
  lemma AtMostOneActive(es: seq<Event>, s: State, a: nat, b: nat)
    requires After(Init, es) == Reached(s) && forall i :: 0 <= i < |es| ==> ReadsOne(es[i])
    requires a in s.current && b in s.current
    ensures a == b
  {
    RunSingle(Init, es, s);
    assert Here(s, a) && Here(s, b);
  }

  predicate NoBoot(es: seq<Event>) { forall i :: 0 <= i < |es| ==> !es[i].Boot? }

  /** Whatever happens until another manager starts, no two runs are active. */
  ghost predicate StaysSingle(s: State) {
    forall es, s', a, b :: After(s, es) == Reached(s') && NoBoot(es) && a in s'.current && b in s'.current ==> a == b
  }

  /**
   The condition, at the start of a manager: it keeps to one active run, whatever follows,
   exactly when it reads at most one runnable record. With two whose parameters resolve the
   history goes on to two active runs.
   */
  lemma StartKeepsOneIff(s: State, order: seq<nat>)
    requires Enabled(s, Boot(order))
    ensures StaysSingle(Step(s, Boot(order))) <==> |order| <= 1
  {
    var s1 := Step(s, Boot(order));
    if |order| <= 1 {
      forall es, s', a, b | After(s1, es) == Reached(s') && NoBoot(es) && a in s'.current && b in s'.current
        ensures a == b
      {
        RunSingle(s1, es, s');
        assert Here(s', a) && Here(s', b);
      }
    } else {
      var s3 := TwoResume(s1);
      assert NoBoot([ResumeNext, ResumeNext]);
      assert order[0] in s3.current && order[1] in s3.current;
    }
  }

  lemma TwoResume(s: State) returns (s': State)
    requires s.up && !s.stopped && |s.snapshot| >= 2
    ensures After(s, [ResumeNext, ResumeNext]) == Reached(s')
    ensures s.snapshot[0] in s'.current && s.snapshot[1] in s'.current
  {
    var s1 := Step(s, ResumeNext);
    s' := Step(s1, ResumeNext);
    assert [ResumeNext, ResumeNext][1..] == [ResumeNext] && [ResumeNext][1..] == [];
    assert After(s1, [ResumeNext]) == After(s', []);
  }

  /** When terminal writes succeed, every manager finds at most one runnable record. */
  lemma WritesReadOne(es: seq<Event>, s: State, order: seq<nat>)
    requires After(Init, es) == Reached(s) && forall i :: 0 <= i < |es| ==> Writes(es[i])
    requires Enabled(s, Boot(order))
    ensures |order| <= 1
  {
    RunsKeep(Init, es, s);
    if |order| > 1 { assert Involved(s, order[0]) && Involved(s, order[1]); }
  }

  lemma InFlightIsActive(es: seq<Event>, s: State)
    requires After(Init, es) == Reached(s) && forall i :: 0 <= i < |es| ==> Writes(es[i])
    requires s.recovered && !s.stopped
    ensures Runnable(s.records) <= s.current.Keys
    ensures s.up
  {
    RunsKeep(Init, es, s);
    UpWhenRecovered(Init, es, s);
  }

  lemma {:induction false} UpWhenRecovered(s: State, es: seq<Event>, s': State)
    requires After(s, es) == Reached(s') && (s.recovered ==> s.up)
    ensures s'.recovered ==> s'.up
    decreases |es|
  {
    if es != [] { UpWhenRecovered(Step(s, es[0]), es[1..], s'); }
  }

  /** A manager that stopped: nothing in flight, nothing admitted. */
  ghost predicate Quiet(s: State) { s.stopped && s.stopReturned && s.current == map[] }

  /** What recovery has yet to resume has a record. */
  ghost predicate Known(s: State) { forall id :: id in s.snapshot ==> id in s.records }

  lemma StepKnown(s: State, e: Event)
    requires Known(s) && Enabled(s, e)
    ensures Known(Step(s, e))
  {
    if e.ResumeNext? || e.ResumeFails? { assert forall id :: id in s.snapshot[1..] ==> id in s.snapshot; }
  }

  lemma {:induction false} RunKnown(s: State, es: seq<Event>, s': State)
    requires After(s, es) == Reached(s') && Known(s)
    ensures Known(s')
    decreases |es|
  {
    if es != [] {
      StepKnown(s, es[0]);
      RunKnown(Step(s, es[0]), es[1..], s');
    }
  }

  /**
   Once Stop returns no run is in flight, and until another manager takes over none is
   admitted and no record created, whatever triggers and resumes still arrive.
   */
  lemma StopIsABarrier(before: seq<Event>, s: State, es: seq<Event>, s': State)
    requires After(Init, before) == Reached(s) && Enabled(s, StopReturns)
    requires After(Step(s, StopReturns), es) == Reached(s') &&
             forall i :: 0 <= i < |es| ==> !es[i].Boot? && !es[i].Crash?
    ensures Quiet(s') && s'.records.Keys == s.records.Keys
  {
    RunKnown(Init, before, s);
    StaysQuiet(Step(s, StopReturns), es, s');
  }

  lemma {:induction false} StaysQuiet(s: State, es: seq<Event>, s': State)
    requires Quiet(s) && Known(s) && After(s, es) == Reached(s')
    requires forall i :: 0 <= i < |es| ==> !es[i].Boot? && !es[i].Crash?
    ensures Quiet(s') && s'.records.Keys == s.records.Keys
    decreases |es|
  {
    if es != [] {
      StepKnown(s, es[0]);
      var s1 := Step(s, es[0]);
      if es[0].ResumeFails? {
        assert s.snapshot[0] in s.records;
        assert s1.records.Keys == s.records.Keys;
      }
      StaysQuiet(s1, es[1..], s');
    }
  }

  lemma Next(s: State, es: seq<Event>, s': State)
    requires es != [] && Enabled(s, es[0]) && Step(s, es[0]) == s'
    ensures After(s, es) == After(s', es[1..])
  {}

  const Recovering := State(map[0 := Pending, 1 := Pending], true, [0, 1], false, map[], false, false)

  lemma ResumeBoth()
    ensures After(Recovering, [ResumeNext, ResumeNext]) ==
        Reached(Recovering.(snapshot := [], current := map[0 := Working, 1 := Working]))
  {
    var one := Recovering.(snapshot := [1], current := map[0 := Working]);
    Next(Recovering, [ResumeNext, ResumeNext], one);
    assert [ResumeNext, ResumeNext][1..] == [ResumeNext];
    Next(one, [ResumeNext], one.(snapshot := [], current := map[0 := Working, 1 := Working]));
    assert [ResumeNext][1..] == [];
  }

  const First := [Boot([]), RecoveryDone, Trigger(0, true, true), End(0, false), Remove(0)]

  lemma FirstRunLost()
    ensures After(Init, First) == Reached(State(map[0 := Pending], true, [], true, map[], false, false))
  {
    var s1 := State(map[], true, [], false, map[], false, false);
    var s2 := s1.(recovered := true);
    var s3 := s2.(records := map[0 := Pending], current := map[0 := Working]);
    var s4 := s3.(current := map[0 := Ended]);
    assert s3.current[0 := Ended] == s4.current;
    var s5 := s4.(current := map[]);
    assert s4.current - {0} == map[];
    Next(Init, First, s1);
    Next(s1, First[1..], s2);
    Next(s2, First[2..], s3);
    Next(s3, First[3..], s4);
    Next(s4, First[4..], s5);
    assert First[1..][1..] == First[2..] && First[2..][1..] == First[3..] && First[3..][1..] == First[4..] &&
           First[4..][1..] == [];
  }

  const Again := [Trigger(1, true, true), Crash, Boot([0, 1])]

  lemma SecondRunJoins()
    ensures After(State(map[0 := Pending], true, [], true, map[], false, false), Again) == Reached(Recovering)
  {
    var s5 := State(map[0 := Pending], true, [], true, map[], false, false);
    var s6 := s5.(records := map[0 := Pending, 1 := Pending], current := map[1 := Working]);
    assert s5.records[1 := Pending] == s6.records;
    var s7 := State(s6.records, false, [], false, map[], false, false);
    Next(s5, Again, s6);
    Next(s6, Again[1..], s7);
    Next(s7, Again[2..], Recovering);
    assert Again[1..][1..] == Again[2..] && Again[2..][1..] == [];
  }

  lemma {:induction false} AfterConcat(s: State, es: seq<Event>, more: seq<Event>)
    requires After(s, es).Reached?
    ensures After(s, es + more) == After(After(s, es).s, more)
    decreases |es|
  {
    if es == [] {
      assert es + more == more;
    } else {
      assert (es + more)[1..] == es[1..] + more;
      AfterConcat(Step(s, es[0]), es[1..], more);
    }
  }

  /** One failed terminal write, one more tick and a crash: two runs at once under overlap: skip. */
  lemma FailedWriteOverlaps() returns (s: State)
    ensures After(Init, First + Again + [ResumeNext, ResumeNext]) == Reached(s)
    ensures 0 in s.current && 1 in s.current
  {
    FirstRunLost();
    SecondRunJoins();
    ResumeBoth();
    AfterConcat(Init, First, Again);
    AfterConcat(Init, First + Again, [ResumeNext, ResumeNext]);
    s := Recovering.(snapshot := [], current := map[0 := Working, 1 := Working]);
  }

  // --- the manager's fields under its lock ---

  class Manager {
    var current: map<nat, Life>
    var stopped: bool
    /** Run goroutines the wait group counts. */
    var waiting: nat
    var records: map<nat, Status>

    ghost predicate Valid()
      reads this
    {
      waiting == |current.Keys|
    }

    /** The state a running manager stands for, with what recovery has left to do. */
    ghost function View(snapshot: seq<nat>, recovered: bool): State
      reads this
    {
      State(records, true, snapshot, recovered, current, stopped, false)
    }

    constructor (records: map<nat, Status>)
      ensures Valid() && current == map[] && !stopped && this.records == records
    {
      current, stopped, waiting, this.records := map[], false, 0, records;
    }

    /** Register one run in the critical section that admitted it, so Stop cannot miss it. */
    method RunAsyncLocked(id: nat)
      requires Valid() && id !in current
      modifies this`current, this`waiting
      ensures Valid()
      ensures forall sn, rec :: View(sn, rec) == Register(old(View(sn, rec)), id)
    {
      if stopped { return; }
      current := current[id := Working];
      waiting := waiting + 1;
      assert current.Keys == old(current.Keys) + {id};
    }

    /** Parameters, overlap check, record and registration in one critical section. */
    method Spawn(id: nat, resolves: bool, created: bool) returns (ok: bool)
      requires Valid() && id !in records && id !in current
      modifies this`current, this`waiting, this`records
      ensures Valid()
      ensures View([], true) == Step(old(View([], true)), Trigger(id, resolves, created))
      ensures ok <==> resolves && !old(stopped) && old(current) == map[] && created
    {
      if !resolves { return false; }
      if stopped || |current| > 0 { return false; }
      if !created { return false; }
      records := records[id := Pending];
      RunAsyncLocked(id);
      ok := true;
    }

    /** Resume a record, or write it failed when its parameters no longer resolve. */
    method SpawnResume(snapshot: seq<nat>, resolves: bool, written: bool)
      requires Valid() && snapshot != [] && snapshot[0] !in current
      modifies this`current, this`waiting, this`records
      ensures Valid()
      ensures View(snapshot[1..], false)
           == Step(old(View(snapshot, false)), if resolves then ResumeNext else ResumeFails(written))
    {
      if !resolves {
        if written { records := records[snapshot[0] := Terminal]; }
        return;
      }
      RunAsyncLocked(snapshot[0]);
    }

    /** The goroutine's last step; the wait group reaches zero exactly when none is left. */
    method Leave(id: nat)
      requires Valid() && id in current && current[id].Ended?
      modifies this`current, this`waiting
      ensures Valid() && (waiting == 0 <==> current == map[])
      ensures forall sn, rec :: View(sn, rec) == Step(old(View(sn, rec)), Remove(id))
    {
      current := current - {id};
      waiting := waiting - 1;
      assert old(current.Keys) == current.Keys + {id};
      if waiting == 0 { assert current.Keys == {}; }
    }
  }
}
