/**
 No loss without holding injections back: it is enough that each registration finds no
 branch of its row open. Injections may come before replay is over, rows may be registered
 again, and below the cursor.
 */
module SpineOrderly {
  import opened Commit
  import opened Persistence
  import opened Spine
  import opened SpineInvariant
  import opened SpineSteps
  import SpineRuns

  // --- the condition ---

  /** If this step registers a row, no branch of an earlier registration is open. */
  predicate FindsClear(s: State, e: Event)
    requires Enabled(s, e, true)
  {
    match e
    case Register(id) => Clear(s.r.w.exec, s.r.g.adm[id].stage.sq)
    case ReplayOrphan(q) => Clear(s.r.w.exec, q)
    case _ => true
  }

  /** Every registration of the run does. */
  predicate Orderly(s: State, es: seq<Event>)
    requires After(s, es, true).Some?
    decreases |es|
  {
    es != [] ==> FindsClear(s, es[0]) && Orderly(Step(s, es[0]), es[1..])
  }

  // --- what such a run keeps ---

  /** Owed flushes stay behind the cursor. */
  ghost predicate FlushesBehind(calls: multiset<Call>, ptr: int) {
    forall c :: c in calls && c.Flush? ==> 0 <= c.through < ptr
  }

  /** Rows in hand are durable rows above a sequence. */
  ghost predicate RowsHeld(adm: map<Id, Adm>, above: int, nextSeq: int) {
    forall id, q :: id in adm && Holds(adm[id], q) ==> above < q < nextSeq
  }

  /** The barrier stands at the stored checkpoint, and the cursor is beyond it. */
  ghost predicate Seeded(d: Durable, r: Run) {
    Guarded(r.barrier, d.stored) && d.stored.checkpoint < r.w.tracker.committedPtr
  }

  /** Before the checkpoint is recovered the cursor is at row 1, below every row of this run. */
  ghost predicate Unseeded(d: Durable, r: Run) {
    && r.replay.NotStarted? && r.w.tracker.committedPtr == 1 && d.stored.checkpoint >= 1 && !r.locked
    && r.barrier == Barrier(0, 0, 0)
    && (forall c :: c in r.w.calls ==> c.Release?)
    && (forall q :: q in r.w.exec ==> q > d.stored.checkpoint)
    && RowsHeld(r.g.adm, d.stored.checkpoint, d.nextSeq)
  }

  ghost predicate Sound(s: State) {
    var (d, r, w) := (s.d, s.r, s.r.w);
    && TrackerInv(d, s.past, w.tracker, w.exec)
    && FlushesBehind(w.calls, w.tracker.committedPtr)
    && RowsHeld(r.g.adm, 0, d.nextSeq)
    && (forall q :: q in r.canceling ==> q in d.canceled)
    && r.retention > 0
    && (Seeded(d, r) || Unseeded(d, r))
  }

  ghost predicate Safe(s: State) {
    && RowsInv(s.d)
    && SettledBelow(s.d, s.past, if s.live then s.r.w.exec else map[], s.d.stored.checkpoint + 1)
    && (s.live ==> Sound(s))
  }

  // --- tracker calls, stragglers included ---

  /** An advance owes flushes behind the cursor it reaches. */
  lemma OwedBehind(calls: multiset<Call>, e: Effects, ptr: int, ptr': int)
    requires FlushesBehind(calls, ptr) && ptr <= ptr' && (e.advanced ==> 0 <= e.through < ptr')
    ensures FlushesBehind(calls + Owed(e), ptr')
  {
    ReleasesMembers(e.justCommit);
    forall c | c in calls + Owed(e) && c.Flush? ensures 0 <= c.through < ptr' {
      assert c in calls || c in Releases(e.justCommit) || (e.advanced && c == Flush(e.through, e.frontiers));
    }
  }

  /** The terminal event of a message below the cursor. */
  lemma StraggleTracker(d: Durable, past: map<int, seq<Leaf>>, t: Tracker, exec: map<int, seq<Leaf>>, e: Effects,
                        sq: int)
    requires TrackerInv(d, past, t, exec) && sq < t.committedPtr && sq in t.outstanding && t.outstanding[sq] <= 0
    ensures TrackerInv(d, past, Straggle(t, e, sq).0, exec)
    ensures Straggle(t, e, sq).0.committedPtr == t.committedPtr && Straggle(t, e, sq).1.through == t.committedPtr - 1
  {
    StraggleKeeps(t, e, sq);
  }

  lemma AddTracker(d: Durable, past: map<int, seq<Leaf>>, t: Tracker, exec: map<int, seq<Leaf>>, q: int, delta: int)
    requires Commit.Valid(t) && TrackerInv(d, past, Counted(t, q, delta), exec)
    ensures var a := Add(t, q, delta);
      && TrackerInv(d, past, a.0, exec) && t.committedPtr <= a.0.committedPtr
      && (a.1.advanced ==> 0 <= a.1.through < a.0.committedPtr)
      && (t.committedPtr == 1 && 1 !in t.outstanding && 1 !in t.removed ==> a.0.committedPtr == 1 && !a.1.advanced)
  {
    if q in t.outstanding {
      var u := Counted(t, q, delta);
      AdvanceTracker(d, past, u, exec);
      AdvanceKeeps(u);
      AdvanceFields(u);
      if t.outstanding[q] + delta <= 0 && q < t.committedPtr {
        StraggleTracker(d, past, Advance(u).0, exec, Advance(u).1, q);
      }
    }
  }

  lemma ForceTracker(d: Durable, past: map<int, seq<Leaf>>, t: Tracker, exec: map<int, seq<Leaf>>, q: int)
    requires TrackerInv(d, past, t, exec) && q in d.canceled
    ensures var a := ForceTerminal(t, q);
      && TrackerInv(d, past, a.0, exec) && t.committedPtr <= a.0.committedPtr
      && (a.1.advanced ==> 0 <= a.1.through < a.0.committedPtr)
      && (t.committedPtr == 1 && 1 !in t.outstanding && 1 !in t.removed && q != 1 ==>
            a.0.committedPtr == 1 && !a.1.advanced)
  {
    if q in t.outstanding {
      UnlistKeeps(t, q);
      AdvanceTracker(d, past, Unlist(t, q), exec);
      AdvanceKeeps(Unlist(t, q));
    }
  }

  // --- steps ---

  /** Where the cursor may be and what may be owed after a tracker call. */
  ghost predicate Advances(s: State, w': Work) {
    && s.r.w.tracker.committedPtr <= w'.tracker.committedPtr && FlushesBehind(w'.calls, w'.tracker.committedPtr)
    && (Unseeded(s.d, s.r) ==> w'.tracker.committedPtr == 1 && forall c :: c in w'.calls ==> c.Release?)
  }

  lemma WorkMoves(s: State, d': Durable, w': Work, canceling: set<int>)
    requires Safe(s) && s.live && Accumulates(s.d, d') && Advances(s, w') && w'.exec.Keys == s.r.w.exec.Keys
    requires d'.nextSeq == s.d.nextSeq && d'.stored == s.d.stored && d'.rows == s.d.rows
    requires TrackerInv(d', s.past, w'.tracker, w'.exec) && forall q :: q in canceling ==> q in d'.canceled
    ensures Safe(s.(d := d', r := s.r.(w := w', canceling := canceling)))
  {
    var s' := s.(d := d', r := s.r.(w := w', canceling := canceling));
    if Seeded(s.d, s.r) {
      SettledPrefix(d', s.past, w'.exec, w'.tracker.committedPtr, d'.stored.checkpoint + 1);
    } else {
      assert Unseeded(d', s'.r);
      CheckpointPast(s, w'.exec);
      SettledStays(s.d, d', s.past, w'.exec, d'.stored.checkpoint + 1);
    }
  }

  /** Before the checkpoint is recovered, what lies below it was settled by earlier runs. */
  lemma CheckpointPast(s: State, exec: map<int, seq<Leaf>>)
    requires Safe(s) && s.live && Unseeded(s.d, s.r) && exec.Keys == s.r.w.exec.Keys
    ensures SettledBelow(s.d, s.past, exec, s.d.stored.checkpoint + 1)
  {
    forall q | 1 <= q < s.d.stored.checkpoint + 1 ensures Settled(s.d, s.past, exec, q) {
      assert Settled(s.d, s.past, s.r.w.exec, q);
    }
  }

  /** The first row is neither registered nor marked in a run that has yet to recover its checkpoint. */
  lemma FirstIsHole(s: State)
    requires Safe(s) && s.live && Unseeded(s.d, s.r)
    ensures var t := s.r.w.tracker; t.committedPtr == 1 && 1 !in t.outstanding && 1 !in t.removed
  {}

  lemma BranchSafe(s: State, e: Event)
    requires Safe(s) && s.live && IsBranchEvent(e) && BranchEnabled(s, e)
    ensures Safe(BranchStep(s, e))
  {
    var l := s.r.w.exec[e.q][e.i].place;
    assert Backed(s.d, e.q, s.r.w.exec[e.q][e.i]);
    TurnedFacts(s.d, s.r.pipe, e.q, l, e);
    var (news, counted) := Turned(s.r.pipe, l, e).value;
    BranchTurns(s, Effect(s.d, l, e), e.q, e.i, news, counted);
  }

  lemma BranchTurns(s: State, d': Durable, q: int, i: nat, news: seq<Leaf>, counted: bool)
    requires Safe(s) && s.live && HasBranch(s.r.w, q, i)
    requires news != [] && AllBacked(d', q, news) && (!counted ==> Open(news) == 1)
    requires Accumulates(s.d, d') && d' == s.d.(acked := d'.acked, records := d'.records, verdicts := d'.verdicts)
    ensures Safe(s.(d := d', r := s.r.(w := Branch(s.r.w, q, i, news, counted))))
  {
    var w := s.r.w;
    var (exec', w') := (w.exec[q := Replace(w.exec[q], i, news)], Branch(w, q, i, news, counted));
    BranchTracker(s.d, d', s.past, w.tracker, w.exec, q, i, news);
    if counted {
      CountWork(s, d', exec', q, Open(news) - 1);
    } else {
      SameCount(w.tracker, q);
    }
    assert exec'.Keys == w.exec.Keys;
    WorkMoves(s, d', w', s.r.canceling);
  }

  lemma SameCount(t: Tracker, q: int)
    ensures Counted(t, q, 0) == t
  {
    assert q in t.outstanding ==> t.outstanding[q := t.outstanding[q]] == t.outstanding;
  }

  lemma CountWork(s: State, d': Durable, exec': map<int, seq<Leaf>>, q: int, delta: int)
    requires Safe(s) && s.live && TrackerInv(d', s.past, Counted(s.r.w.tracker, q, delta), exec')
    ensures var w' := Tracked(s.r.w.(exec := exec'), Add(s.r.w.tracker, q, delta));
      TrackerInv(d', s.past, w'.tracker, exec') && Advances(s, w')
  {
    var (t, a) := (s.r.w.tracker, Add(s.r.w.tracker, q, delta));
    AddTracker(d', s.past, t, exec', q, delta);
    if Unseeded(s.d, s.r) { FirstIsHole(s); }
    OwedSafe(s, a);
  }

  lemma OwedSafe(s: State, a: (Tracker, Effects))
    requires Safe(s) && s.live && s.r.w.tracker.committedPtr <= a.0.committedPtr
    requires a.1.advanced ==> 0 <= a.1.through < a.0.committedPtr
    requires Unseeded(s.d, s.r) ==> a.0.committedPtr == 1 && !a.1.advanced
    ensures FlushesBehind(s.r.w.calls + Owed(a.1), a.0.committedPtr)
    ensures Unseeded(s.d, s.r) ==> forall c :: c in s.r.w.calls + Owed(a.1) ==> c.Release?
  {
    OwedBehind(s.r.w.calls, a.1, s.r.w.tracker.committedPtr, a.0.committedPtr);
    ReleasesMembers(a.1.justCommit);
  }

  lemma ForceSafe(s: State, q: int)
    requires Safe(s) && s.live && q in s.r.canceling
    ensures Safe(Forced(s, q))
  {
    var (w, a) := (s.r.w, ForceTerminal(s.r.w.tracker, q));
    ForceTracker(s.d, s.past, w.tracker, w.exec, q);
    if Unseeded(s.d, s.r) && q in w.tracker.outstanding { FirstIsHole(s); }
    if q in w.tracker.outstanding {
      OwedSafe(s, a);
      var w1 := Tracked(w, a);
      WorkMoves(s, s.d, w1.(calls := w1.calls + multiset{Call.Release(q)}), s.r.canceling - {q});
    } else {
      assert w.calls + Owed(NoEffects) == w.calls;
      WorkMoves(s, s.d, w, s.r.canceling - {q});
    }
  }

  lemma CancelSafe(s: State, q: int)
    requires Safe(s) && s.live && q in s.r.w.exec
    ensures Safe(s.(d := s.d.(canceled := s.d.canceled + {q}), r := s.r.(canceling := s.r.canceling + {q})))
  {
    var d' := s.d.(canceled := s.d.canceled + {q});
    TrackerInvStays(s.d, d', s.past, s.r.w.tracker, s.r.w.exec);
    WorkMoves(s, d', s.r.w, s.r.canceling + {q});
  }

  // --- admissions and registrations ---

  lemma GateSafe(s: State, g: Gate, replay: Replay)
    requires Safe(s) && s.live && RowsHeld(g.adm, 0, s.d.nextSeq)
    requires Unseeded(s.d, s.r) ==> replay.NotStarted? && RowsHeld(g.adm, s.d.stored.checkpoint, s.d.nextSeq)
    ensures Safe(s.(r := s.r.(g := g, replay := replay)))
  {}

  lemma AppendSafe(s: State, id: Id)
    requires Safe(s) && s.live && At'(s.r.g, id, Holding)
    ensures Safe(s.(d := AppendedD(s.d, s.r.g.adm[id]), r := s.r.(g := AppendedG(s.r.g, id, s.d.nextSeq))))
  {
    var d := AppendedD(s.d, s.r.g.adm[id]);
    SettledStays(s.d, d, s.past, s.r.w.exec, d.stored.checkpoint + 1);
    TrackerInvStays(s.d, d, s.past, s.r.w.tracker, s.r.w.exec);
  }

  /** A registration that finds no open branch: on either side of the cursor. */
  lemma StartSafe(s: State, q: int, node: string, k: int, l: Leaf, log: Log, g: Gate, replay: Replay,
                  home: map<(string, int), int>)
    requires Safe(s) && s.live && Clear(s.r.w.exec, q) && 1 <= q < s.d.nextSeq && l.Pending? && Backed(s.d, q, l)
    requires RowsHeld(g.adm, 0, s.d.nextSeq)
    requires Unseeded(s.d, s.r) ==>
      q > s.d.stored.checkpoint && replay.NotStarted? && RowsHeld(g.adm, s.d.stored.checkpoint, s.d.nextSeq)
    ensures var w' := Work(Arrived(s.r.w.tracker, q, node, k), Started(s.r.w.exec, q, l), log, s.r.w.calls);
      Safe(s.(r := s.r.(w := w', g := g, replay := replay), home := home,
              past := Retired(s.d, s.past, s.r.w.exec, q)))
  {
    var (d, w) := (s.d, s.r.w);
    var (exec', past') := (Started(w.exec, q, l), Retired(d, s.past, w.exec, q));
    EnterTracker(d, s.past, w.tracker, w.exec, q, node, k, l);
    if Seeded(d, s.r) {
      SettledPrefix(d, past', exec', w.tracker.committedPtr, d.stored.checkpoint + 1);
    } else {
      forall j | 1 <= j < d.stored.checkpoint + 1 ensures Settled(d, past', exec', j) {
        assert Settled(d, s.past, w.exec, j);
      }
    }
  }

  lemma RegisterSafe(s: State, id: Id)
    requires Safe(s) && s.live && id in s.r.g.adm && s.r.g.adm[id].stage.Ledgered?
    requires Clear(s.r.w.exec, s.r.g.adm[id].stage.sq)
    ensures Safe(Enter(s, id))
  {
    var a := s.r.g.adm[id];
    assert Holds(a, a.stage.sq);
    StartSafe(s, a.stage.sq, SourceOf(id), NumberOf(id), Pending(Entry(a.node, a.into)), EnterWork(s.r.w, id, a).log,
              EnterGate(s.r.g, id), s.r.replay, EnterHome(s.home, s.r.base, id, a.stage.sq));
  }

  lemma AdmissionSafe(s: State, e: Event)
    requires Safe(s) && s.live && IsAdmission(e) && AdmissionEnabled(s, e, true)
    requires !e.Append? && !e.Register?
    ensures Safe(AdmissionStep(s, e))
  {
    var s' := AdmissionStep(s, e);
    HeldMoves(s, e, 0);
    if Unseeded(s.d, s.r) { HeldMoves(s, e, s.d.stored.checkpoint); }
    GateSafe(s, s'.r.g, s'.r.replay);
  }

  lemma HeldMoves(s: State, e: Event, above: int)
    requires Safe(s) && s.live && IsAdmission(e) && AdmissionEnabled(s, e, true)
    requires !e.Append? && !e.Register? && RowsHeld(s.r.g.adm, above, s.d.nextSeq)
    requires above == 0 || s.r.replay.NotStarted?
    ensures RowsHeld(AdmissionStep(s, e).r.g.adm, above, s.d.nextSeq)
  {
    var (adm, adm') := (s.r.g.adm, AdmissionStep(s, e).r.g.adm);
    forall id, q | id in adm' && Holds(adm'[id], q) ensures above < q < s.d.nextSeq {
      assert (e.ReplayRow? && id == e.id && q == e.q) || (id in adm && Holds(adm[id], q));
    }
  }

  lemma OrphanSafe(s: State, q: int)
    requires Safe(s) && s.live && ControlEnabled(s, ReplayOrphan(q)) && Clear(s.r.w.exec, q)
    ensures Safe(ControlStep(s, ReplayOrphan(q)))
  {
    var s1 := s.(d := Told(s.d, q, NoEntry));
    ToldSafe(s, q, NoEntry);
    SameRetired(s.d, s1.d, s.past, s.r.w.exec, q);
    StartSafe(s1, q, "", 0, Pending(Unroutable), s.r.w.log, s.r.g, Scanning(q), s.home);
  }

  lemma ToldSafe(s: State, q: int, why: Verdict)
    requires Safe(s) && s.live
    ensures Safe(s.(d := Told(s.d, q, why)))
  {
    TrackerInvStays(s.d, Told(s.d, q, why), s.past, s.r.w.tracker, s.r.w.exec);
    WorkMoves(s, Told(s.d, q, why), s.r.w, s.r.canceling);
  }

  lemma SameRetired(d: Durable, d': Durable, past: map<int, seq<Leaf>>, exec: map<int, seq<Leaf>>, q: int)
    requires Accumulates(d, d') && (q in exec ==> AllBacked(d, q, exec[q]))
    ensures Retired(d', past, exec, q) == Retired(d, past, exec, q)
  {
    if q in exec { BackedStays(d, d', q, exec[q]); }
  }

  // --- boots, crashes, flushes ---

  lemma BootSafe(s: State, pipe: Pipe, limit: int, retention: int)
    requires Safe(s) && !s.live && limit > 0 && retention > 0
    ensures Safe(s.(live := true, r := Fresh(pipe, limit, retention)))
  {
    NewTrackerValid(Sources(pipe));
  }

  lemma CrashSafe(s: State)
    requires Safe(s) && s.live
    ensures Safe(s.(live := false, r := NoRun, past := s.past + Finishes(s.d, s.r.w.exec)))
  {
    var past' := s.past + Finishes(s.d, s.r.w.exec);
    forall q | 1 <= q < s.d.stored.checkpoint + 1 ensures Settled(s.d, past', map[], q) {
      assert Settled(s.d, s.past, s.r.w.exec, q);
    }
  }

  lemma ResumeSafe(s: State)
    requires Safe(s) && s.live && s.r.replay.NotStarted?
    ensures Safe(s.(r := Resumed(s.r, s.d.stored.checkpoint)))
  {
    ResumeTracker(s.d, s.past, s.r.w.tracker, s.r.w.exec);
  }

  lemma ResumeTracker(d: Durable, past: map<int, seq<Leaf>>, t: Tracker, exec: map<int, seq<Leaf>>)
    requires TrackerInv(d, past, t, exec) && RowsInv(d) && SettledBelow(d, past, exec, d.stored.checkpoint + 1)
    ensures TrackerInv(d, past, ResumeFrom(t, d.stored.checkpoint), exec)
  {
    OpenExtend(t.outstanding, t.arrivedMax, ResumeFrom(t, d.stored.checkpoint).arrivedMax);
  }

  /** A checkpoint is written only behind the cursor. */
  lemma CheckpointSafe(s: State, through: int, fr: map<string, int>, cpOk: bool)
    requires Safe(s) && s.live && Flush(through, fr) in s.r.w.calls && !s.r.locked
    ensures Safe(Checkpointed(s, through, fr, cpOk))
  {
    var s' := Checkpointed(s, through, fr, cpOk);
    assert FlushesBehind(s'.r.w.calls, s.r.w.tracker.committedPtr);
    TrackerInvStays(s.d, s'.d, s.past, s.r.w.tracker, s.r.w.exec);
    SettledPrefix(s'.d, s.past, s.r.w.exec, s.r.w.tracker.committedPtr, s'.d.stored.checkpoint + 1);
  }

  lemma TrimSafe(s: State, trimOk: bool)
    requires Safe(s) && s.live && s.r.locked
    ensures Safe(TrimDone(s, trimOk))
  {
    var s' := TrimDone(s, trimOk);
    TrackerInvStays(s.d, s'.d, s.past, s.r.w.tracker, s.r.w.exec);
    SettledStays(s.d, s'.d, s.past, s.r.w.exec, s.d.stored.checkpoint + 1);
  }

  lemma MarkSafe(s: State, n: string, written: bool)
    requires Safe(s) && s.live && n in s.r.inFlight && n in s.r.base
    ensures Safe(Watermarked(s, n, written))
  {
    var d' := Watermarked(s, n, written).d;
    TrackerInvStays(s.d, d', s.past, s.r.w.tracker, s.r.w.exec);
    SettledStays(s.d, d', s.past, s.r.w.exec, d'.stored.checkpoint + 1);
  }

  lemma ReleaseSafe(s: State, q: int)
    requires Safe(s) && s.live && Call.Release(q) in s.r.w.calls
    ensures Safe(s.(r := s.r.(w := s.r.w.(calls := s.r.w.calls - multiset{Call.Release(q)}), g := Released(s.r.g, q))))
  {}

  predicate IsQuiet(e: Event) {
    e.ReplayDone? || e.ReplayStop? || e.StartSources? || e.CommitterBegin? || e.Stop?
  }

  lemma QuietSafe(s: State, e: Event)
    requires Safe(s) && IsQuiet(e) && ControlEnabled(s, e)
    ensures Safe(ControlStep(s, e))
  {}

  lemma ControlSafe(s: State, e: Event)
    requires Safe(s) && !IsAdmission(e) && !IsBranchEvent(e) && ControlEnabled(s, e) && !IsQuiet(e)
    requires e.ReplayOrphan? ==> Clear(s.r.w.exec, e.q)
    ensures Safe(ControlStep(s, e))
  {
    match e
    case Boot(pipe, limit, retention) => BootSafe(s, pipe, limit, retention);
    case Crash => CrashSafe(s);
    case Resume => ResumeSafe(s);
    case ReplayOrphan(q) => OrphanSafe(s, q);
    case RunRelease(q) => ReleaseSafe(s, q);
    case FlushCheckpoint(through, fr, cpOk) => CheckpointSafe(s, through, fr, cpOk);
    case FlushTrim(trimOk) => TrimSafe(s, trimOk);
    case CommitterEnd(n, written) => MarkSafe(s, n, written);
    case CancelRecord(q) => CancelSafe(s, q);
    case CancelForce(q) => ForceSafe(s, q);
  }

  lemma StepSafe(s: State, e: Event)
    requires Enabled(s, e, true) && FindsClear(s, e) && Safe(s)
    ensures Safe(Step(s, e))
  {
    if IsBranchEvent(e) {
      BranchSafe(s, e);
    } else if e.Append? {
      AppendSafe(s, e.id);
    } else if e.Register? {
      RegisterSafe(s, e.id);
    } else if IsAdmission(e) {
      AdmissionSafe(s, e);
    } else if IsQuiet(e) {
      QuietSafe(s, e);
    } else {
      ControlSafe(s, e);
    }
  }

  lemma {:induction false} RunSafe(s: State, es: seq<Event>, s': State)
    requires Safe(s) && After(s, es, true) == Some(s') && Orderly(s, es)
    ensures Safe(s')
    decreases |es|
  {
    if es != [] {
      StepSafe(s, es[0]);
      RunSafe(Step(s, es[0]), es[1..], s');
    }
  }

  // --- the theorem ---

  /**
   No loss, early injections and repeated registrations included, when each registration
   finds no branch of its row open: an accepted row at or below the durable checkpoint is
   settled, one beyond it is still in the spool.
   */
  lemma OrderlyRunsLoseNothing(es: seq<Event>, s: State, q: int)
    requires Leads(es, true, s) && Orderly(Init, es)
    requires 1 <= q < s.d.nextSeq
    ensures q <= s.d.stored.checkpoint ==> Settled(s.d, s.past, SpineRuns.Execs(s), q)
    ensures q > s.d.stored.checkpoint ==> q in s.d.rows
  {
    RunSafe(Init, es, s);
  }

  /** Injections that wait for replay to be over make every run orderly. */
  lemma LateRunsAreOrderly(es: seq<Event>, s: State)
    requires Leads(es, false, s)
    ensures Leads(es, true, s) && Orderly(Init, es)
  {
    LateOrderly(Init, es, s);
  }

  lemma {:induction false} LateOrderly(s: State, es: seq<Event>, s': State)
    requires Inv(s) && After(s, es, false) == Some(s')
    ensures After(s, es, true) == Some(s') && Orderly(s, es)
    decreases |es|
  {
    if es != [] {
      SpineRuns.LateIsEnabled(s, es[0]);
      SpineRuns.StepKeeps(s, es[0]);
      LateFindsClear(s, es[0]);
      LateOrderly(Step(s, es[0]), es[1..], s');
    }
  }

  /** In fact it then finds a row that this run has never registered. */
  lemma LateFindsClear(s: State, e: Event)
    requires Inv(s) && Enabled(s, e, false) && Enabled(s, e, true)
    ensures FindsClear(s, e)
  {
    match e
    case ReplayOrphan(q) => assert Unscanned(s.r.replay, q);
    case _ =>
  }
}
