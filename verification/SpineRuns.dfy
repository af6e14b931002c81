/** The remaining steps, and the theorems over every run with crashes anywhere. */
module SpineRuns {
  import opened Commit
  import opened Persistence
  import opened Spine
  import opened SpineInvariant
  import opened SpineSteps

  // --- starting, replaying, crashing ---

  lemma BootKeeps(s: State, pipe: Pipe, limit: int, retention: int)
    requires Inv(s) && !s.live && limit > 0 && retention > 0
    ensures Inv(s.(live := true, r := Fresh(pipe, limit, retention)))
  {
    NewTrackerValid(Sources(pipe));
    NewTrackerExact(Sources(pipe));
    assert Holders(map[]) == {};
  }

  lemma CrashKeeps(s: State)
    requires Inv(s) && s.live
    ensures Inv(s.(live := false, r := NoRun, past := s.past + Finishes(s.d, s.r.w.exec)))
  {
    var past' := s.past + Finishes(s.d, s.r.w.exec);
    forall q | 1 <= q < s.d.stored.checkpoint + 1 ensures Settled(s.d, past', map[], q) {
      assert Settled(s.d, s.past, s.r.w.exec, q);
    }
  }

  lemma ResumeKeeps(s: State)
    requires Inv(s) && s.live && s.r.replay.NotStarted?
    ensures Inv(s.(r := Resumed(s.r, s.d.stored.checkpoint)))
  {
    var cp := s.d.stored.checkpoint;
    var r' := Resumed(s.r, cp);
    ResumeKeepsMaximalIff(s.r.w.tracker, cp);
    SameQueueAnywhere(s.r.w.tracker, r'.w.tracker, s.r.base, s.home, {});
    ResumeStart(s);
  }

  /** The recovered run accounts for every row beyond the checkpoint: all are still unscanned. */
  lemma ResumeStart(s: State)
    requires RowsInv(s.d) && StartInv(s) && s.r.replay.NotStarted? && s.r.g.limit >= 0
    ensures var r' := Resumed(s.r, s.d.stored.checkpoint);
      && StartInv(s.(r := r'))
      && AdmInv(s.d.nextSeq, r'.w.tracker, r'.w.exec.Keys, r'.g, r'.replay, r'.sourcesOn)
  {
    assert Holders(map[]) == {};
  }

  lemma SameQueueAnywhere(t: Tracker, t': Tracker, base: map<string, int>, home: map<(string, int), int>,
                          known: set<int>)
    requires LogInv(t, map[], base, home, known) && t'.srcRefs == t.srcRefs && t'.srcs == t.srcs
    ensures LogInv(t', map[], base, home, known)
  {}

  /** A step that only moves watermarks behind the checkpoint, or notes what was answered. */
  lemma AsideKeeps(s: State, d': Durable)
    requires Inv(s) && s.live && AllCovered(s.home, d'.marks, s.d.stored.checkpoint)
    requires d' == s.d.(marks := d'.marks, verdicts := d'.verdicts) && s.d.verdicts <= d'.verdicts
    ensures Inv(s.(d := d'))
  {
    TrackerInvStays(s.d, d', s.past, s.r.w.tracker, s.r.w.exec);
    SettledStays(s.d, d', s.past, s.r.w.exec, d'.stored.checkpoint + 1);
    AsideStart(s, d');
  }

  lemma AsideStart(s: State, d': Durable)
    requires StartInv(s) && d' == s.d.(marks := d'.marks, verdicts := d'.verdicts)
    ensures StartInv(s.(d := d'))
  {}

  lemma OrphanKeeps(s: State, q: int)
    requires Inv(s) && s.live && s.r.replay.Scanning? && NextRow(s.d, s.r.replay.cursor, q)
    requires (q, NoEntry) in s.d.verdicts
    ensures Inv(s.(r := s.r.(replay := Scanning(q), w := OrphanWork(s.r.w, q))))
  {
    var (d, w) := (s.d, s.r.w);
    var w' := OrphanWork(w, q);
    assert Unscanned(s.r.replay, q);
    EnterTracker(d, s.past, w.tracker, w.exec, q, "", 0, Pending(Unroutable));
    assert w'.exec.Keys == w.exec.Keys + {q};
    SameQueue(w.tracker, w'.tracker, w.log, s.r.base, s.home, w.exec.Keys);
    OrphanLog(w'.tracker, w.log, s.r.base, s.home, w.exec.Keys, q);
    LogGrows(w.tracker, w'.tracker, w.log, w.log, w.calls, w.exec.Keys, q);
    OrphanAdm(d, w.tracker, w'.tracker, w.exec.Keys, s.r.g, s.r.replay, s.r.sourcesOn, q);
    OrphanStart(s, q);
    SettledPrefix(d, s.past, w'.exec, w'.tracker.committedPtr, d.stored.checkpoint + 1);
  }

  lemma OrphanLog(t: Tracker, log: Log, base: map<string, int>, home: map<(string, int), int>, known: set<int>, q: int)
    requires LogInv(t, log, base, home, known)
    ensures LogInv(t, log, base, home, known + {q})
  {}

  lemma OrphanStart(s: State, q: int)
    requires RunInv(s) && s.r.replay.Scanning? && q !in s.r.w.exec
    ensures var s' := s.(r := s.r.(replay := Scanning(q), w := OrphanWork(s.r.w, q)));
      StartInv(s') && Slotted(s'.r.w.tracker.outstanding, s'.r.w.exec, s'.r.g.acquired)
  {}

  lemma OrphanAdm(d: Durable, t: Tracker, t': Tracker, known: set<int>, g: Gate, replay: Replay, on: bool, q: int)
    requires AdmInv(d.nextSeq, t, known, g, replay, on) && RowsInv(d) && d.stored.checkpoint < t.committedPtr
    requires replay.Scanning? && NextRow(d, replay.cursor, q)
    requires t'.committedPtr == t.committedPtr && t'.removed == t.removed
    requires forall k :: k in t.outstanding || k == q ==> k in t'.outstanding
    ensures AdmInv(d.nextSeq, t', known + {q}, g, Scanning(q), on)
  {
    NoGap(d, t.committedPtr, replay, q);
    assert Unscanned(replay, q);
  }

  /** Replay ends with every row visited, or is cut short with the rest left for a later run. */
  lemma ReplayEndKeeps(s: State, replay: Replay)
    requires Inv(s) && s.live && s.r.replay.Scanning?
    requires replay == Stopped(s.r.replay.cursor, s.d.nextSeq)
          || (replay == Complete && forall k :: k in s.d.rows ==> k <= s.r.replay.cursor)
    ensures Inv(s.(r := s.r.(replay := replay)))
  {
    EndAdm(s.d, s.r.w.tracker, s.r.w.exec.Keys, s.r.g, s.r.replay, s.r.sourcesOn, replay);
    GateMoves(s, s.r.g, replay);
  }

  lemma EndAdm(d: Durable, t: Tracker, known: set<int>, g: Gate, replay: Replay, on: bool, replay': Replay)
    requires AdmInv(d.nextSeq, t, known, g, replay, on) && RowsInv(d) && d.stored.checkpoint < t.committedPtr
    requires replay.Scanning?
    requires replay' == Stopped(replay.cursor, d.nextSeq)
          || (replay' == Complete && forall k :: k in d.rows ==> k <= replay.cursor)
    ensures AdmInv(d.nextSeq, t, known, g, replay', on)
  {
    forall q | t.committedPtr <= q < d.nextSeq && Unscanned(replay, q) ensures Unscanned(replay', q) {
      assert q in d.rows;
    }
    assert forall q :: Unscanned(replay', q) ==> Unscanned(replay, q);
  }

  lemma StartSourcesKeeps(s: State, base: map<string, int>)
    requires Inv(s) && s.live && ControlEnabled(s, StartSources(base))
    ensures Inv(s.(r := s.r.(sourcesOn := true, base := base)))
  {
    var s' := s.(r := s.r.(sourcesOn := true, base := base));
    assert s.r.w.log == map[];
    assert AllCovered(s.home, base, s.d.stored.checkpoint);
    assert StartInv(s');
  }

  lemma StopKeeps(s: State)
    requires Inv(s) && s.live
    ensures Inv(s.(r := s.r.(stopping := true)))
  {
    assert StartInv(s.(r := s.r.(stopping := true)));
  }

  // --- callbacks ---

  lemma ReleaseAdm(nextSeq: int, t: Tracker, known: set<int>, g: Gate, replay: Replay, on: bool, q: int)
    requires AdmInv(nextSeq, t, known, g, replay, on) && q in known
    ensures AdmInv(nextSeq, t, known, Released(g, q), replay, on)
  {}

  lemma ReleaseKeeps(s: State, q: int)
    requires Inv(s) && s.live && Call.Release(q) in s.r.w.calls
    ensures Inv(s.(r := s.r.(w := s.r.w.(calls := s.r.w.calls - multiset{Call.Release(q)}), g := Released(s.r.g, q))))
  {
    ReleaseAdm(s.d.nextSeq, s.r.w.tracker, s.r.w.exec.Keys, s.r.g, s.r.replay, s.r.sourcesOn, q);
    ReleaseStart(s, q);
  }

  lemma ReleaseStart(s: State, q: int)
    requires RunInv(s) && Call.Release(q) in s.r.w.calls
    ensures var (w', g') := (s.r.w.(calls := s.r.w.calls - multiset{Call.Release(q)}), Released(s.r.g, q));
      && StartInv(s.(r := s.r.(w := w', g := g')))
      && CallsInv(w'.tracker, w'.log, w'.calls, w'.exec.Keys)
      && Slotted(w'.tracker.outstanding, w'.exec, g'.acquired)
  {
    assert s.r.w.calls != multiset{};
  }

  lemma CheckpointKeeps(s: State, through: int, fr: map<string, int>, cpOk: bool)
    requires Inv(s) && s.live && Flush(through, fr) in s.r.w.calls && s.r.retention > 0 && !s.r.locked
    ensures Inv(Checkpointed(s, through, fr, cpOk))
  {
    var s' := Checkpointed(s, through, fr, cpOk);
    CheckpointStart(s, through, fr, cpOk);
    TrackerInvStays(s.d, s'.d, s.past, s.r.w.tracker, s.r.w.exec);
    SettledPrefix(s'.d, s.past, s.r.w.exec, s.r.w.tracker.committedPtr, s'.d.stored.checkpoint + 1);
  }

  /** The checkpoint moves only within the committed prefix, and frontiers are owed behind it. */
  lemma CheckpointStart(s: State, through: int, fr: map<string, int>, cpOk: bool)
    requires RowsInv(s.d) && RunInv(s) && Flush(through, fr) in s.r.w.calls
    requires AllCovered(s.home, s.d.marks, s.d.stored.checkpoint)
    ensures var s' := Checkpointed(s, through, fr, cpOk); var cp := s'.d.stored.checkpoint;
      && RowsInv(s'.d) && StartInv(s') && Accumulates(s.d, s'.d)
      && s.d.stored.checkpoint <= cp < s.r.w.tracker.committedPtr
      && CallsInv(s.r.w.tracker, s.r.w.log, s'.r.w.calls, s.r.w.exec.Keys)
      && PostsInv(s.r.w.log, s.r.posted, cp) && PostsInv(s.r.w.log, s.r.inFlight, cp)
      && PostsInv(s.r.w.log, s'.r.owed, cp)
      && AllCovered(s.home, s.r.base, cp) && AllCovered(s.home, s.d.marks, cp)
  {
    assert s.r.w.calls != multiset{};
    var s' := Checkpointed(s, through, fr, cpOk);
    var cp := s'.d.stored.checkpoint;
    CheckpointBarrier(s.d, s.r, through, fr, cpOk);
    PostsHigher(s.r.w.log, s.r.posted, s.d.stored.checkpoint, cp);
    PostsHigher(s.r.w.log, s.r.inFlight, s.d.stored.checkpoint, cp);
    OwedBehind(s.r.w.log, s'.r.owed, fr, through, cp);
    FlushSides(s, s', through, fr);
  }

  lemma CheckpointBarrier(d: Durable, r: Run, through: int, fr: map<string, int>, cpOk: bool)
    requires RowsInv(d) && BarrierInv(d, r) && 0 <= through < r.w.tracker.committedPtr <= d.nextSeq
    ensures var s' := Checkpointed(State(d, true, r, map[], map[]), through, fr, cpOk);
      && RowsInv(s'.d) && BarrierInv(s'.d, s'.r) && Accumulates(d, s'.d)
      && d.stored.checkpoint <= s'.d.stored.checkpoint
      && s'.r.owed == if through <= s'.d.stored.checkpoint then fr else map[]
  {}

  lemma OwedBehind(log: Log, owed: map<string, int>, fr: map<string, int>, through: int, cp: int)
    requires forall n :: n in fr ==> Behind(log, n, fr[n], through)
    requires owed == if through <= cp then fr else map[]
    ensures PostsInv(log, owed, cp)
  {}

  lemma FlushSides(s: State, s': State, through: int, fr: map<string, int>)
    requires RunInv(s) && s'.d.stored.checkpoint >= s.d.stored.checkpoint
    requires s'.r.w.calls == s.r.w.calls - multiset{Flush(through, fr)}
    requires AllCovered(s.home, s.d.marks, s.d.stored.checkpoint)
    ensures CallsInv(s.r.w.tracker, s.r.w.log, s'.r.w.calls, s.r.w.exec.Keys)
    ensures AllCovered(s.home, s.r.base, s'.d.stored.checkpoint) &&
            AllCovered(s.home, s.d.marks, s'.d.stored.checkpoint)
  {
    CoveredHigher(s.home, s.r.base, s.d.stored.checkpoint, s'.d.stored.checkpoint);
    CoveredHigher(s.home, s.d.marks, s.d.stored.checkpoint, s'.d.stored.checkpoint);
  }

  /** A trim stays behind the checkpoint, and what is posted then is durable already. */
  lemma TrimKeeps(s: State, trimOk: bool)
    requires Inv(s) && s.live && s.r.locked && s.r.retention > 0
    ensures Inv(TrimDone(s, trimOk))
  {
    var s' := TrimDone(s, trimOk);
    TrimStart(s, trimOk);
    TrackerInvStays(s.d, s'.d, s.past, s.r.w.tracker, s.r.w.exec);
    SettledStays(s.d, s'.d, s.past, s.r.w.exec, s.d.stored.checkpoint + 1);
    PostsMerge(s.r.w.log, s.r.posted, s.r.owed, s.d.stored.checkpoint);
  }

  lemma TrimStart(s: State, trimOk: bool)
    requires RowsInv(s.d) && StartInv(s) && s.r.locked
    ensures var s' := TrimDone(s, trimOk);
      RowsInv(s'.d) && StartInv(s') && Accumulates(s.d, s'.d) && s'.d.stored.checkpoint == s.d.stored.checkpoint
  {
    assert !s.r.replay.NotStarted?;
  }

  lemma PostsMerge(log: Log, posted: map<string, int>, fr: map<string, int>, cp: int)
    requires PostsInv(log, posted, cp) && PostsInv(log, fr, cp)
    ensures PostsInv(log, Post(posted, fr), cp)
  {}

  lemma CoveredHigher(home: map<(string, int), int>, marks: map<string, int>, cp: int, cp': int)
    requires AllCovered(home, marks, cp) && cp <= cp'
    ensures AllCovered(home, marks, cp')
  {}

  lemma PostsHigher(log: Log, posted: map<string, int>, cp: int, cp': int)
    requires PostsInv(log, posted, cp) && cp <= cp'
    ensures PostsInv(log, posted, cp')
  {}

  // --- watermarks ---

  lemma CommitterEndKeeps(s: State, n: string, written: bool)
    requires Inv(s) && s.live && n in s.r.inFlight && n in s.r.base
    ensures Inv(Watermarked(s, n, written))
  {
    if written {
      MarkKeeps(s, n);
      AttemptOverKeeps(Marked(s, n), n);
    } else {
      AttemptOverKeeps(s, n);
    }
  }

  lemma MarkKeeps(s: State, n: string)
    requires Inv(s) && s.live && n in s.r.inFlight && n in s.r.base
    ensures Inv(Marked(s, n))
  {
    MarkCovered(s, n);
    AsideKeeps(s, Marked(s, n).d);
  }

  lemma AttemptOverKeeps(s: State, n: string)
    requires Inv(s) && s.live && n in s.r.inFlight
    ensures Inv(AttemptOver(s, n))
  {
    assert StartInv(AttemptOver(s, n));
  }

  /** A written watermark covers only items whose rows lie at or below the durable checkpoint. */
  lemma MarkCovered(s: State, n: string)
    requires RunInv(s) && n in s.r.inFlight && n in s.r.base
    ensures Covered(s.home, n, s.r.base[n] + s.r.inFlight[n], s.d.stored.checkpoint)
  {
    var (b, f, cp) := (s.r.base[n], s.r.inFlight[n], s.d.stored.checkpoint);
    assert Covered(s.home, n, b, cp) && Behind(s.r.w.log, n, f, cp);
    forall i | 1 <= i <= b + f ensures (n, i) in s.home && 1 <= s.home[(n, i)] <= cp {
      if i > b { assert (n, i - b) in s.r.w.log; }
    }
  }

  lemma CommitterBeginKeeps(s: State, n: string)
    requires Inv(s) && s.live && n in s.r.posted
    ensures Inv(s.(r := s.r.(inFlight := s.r.inFlight[n := s.r.posted[n]])))
  {
    assert StartInv(s.(r := s.r.(inFlight := s.r.inFlight[n := s.r.posted[n]])));
  }

  // --- abandon ---

  lemma CancelRecordKeeps(s: State, q: int)
    requires Inv(s) && s.live && q in s.r.w.exec
    ensures Inv(s.(d := s.d.(canceled := s.d.canceled + {q}), r := s.r.(canceling := s.r.canceling + {q})))
  {
    var d' := s.d.(canceled := s.d.canceled + {q});
    TrackerInvStays(s.d, d', s.past, s.r.w.tracker, s.r.w.exec);
    SettledStays(s.d, d', s.past, s.r.w.exec, d'.stored.checkpoint + 1);
    assert StartInv(s.(d := d', r := s.r.(canceling := s.r.canceling + {q})));
  }

  lemma ForcedKeeps(s: State, q: int)
    requires Inv(s) && s.live && q in s.r.canceling
    ensures Inv(Forced(s, q))
  {
    CancelOver(s, q);
    var s1 := s.(r := s.r.(canceling := s.r.canceling - {q}));
    if q in s.r.w.tracker.outstanding {
      ForceWork(s1, q);
    } else {
      assert s.r.w.calls + Owed(NoEffects) == s.r.w.calls;
      assert Forced(s, q) == s1;
    }
  }

  lemma CancelOver(s: State, q: int)
    requires Inv(s) && s.live && q in s.r.canceling
    ensures q in s.d.canceled && Inv(s.(r := s.r.(canceling := s.r.canceling - {q})))
  {
    assert StartInv(s.(r := s.r.(canceling := s.r.canceling - {q})));
  }

  /** A canceled message leaves the tracker with a mark; its slot is released by the abandon. */
  lemma ForceWork(s: State, q: int)
    requires Inv(s) && s.live && q in s.r.w.tracker.outstanding && q in s.d.canceled
    ensures var w' := Tracked(s.r.w, ForceTerminal(s.r.w.tracker, q));
      Inv(s.(r := s.r.(w := w'.(calls := w'.calls + multiset{Call.Release(q)}))))
  {
    var w := s.r.w;
    var t1 := Unlist(w.tracker, q);
    UnlistReady(s, q);
    AdvanceWork(s, t1);
    AdvanceTracker(s.d, s.past, t1, w.exec);
    AdvanceFields(t1);
    var w' := Tracked(w, ForceTerminal(w.tracker, q));
    var w'' := w'.(calls := w'.calls + multiset{Call.Release(q)});
    assert CallsInv(w''.tracker, w''.log, w''.calls, w''.exec.Keys);
    Reassemble(s, s.d, w'');
  }

  lemma UnlistReady(s: State, q: int)
    requires Inv(s) && s.live && q in s.r.w.tracker.outstanding && q in s.d.canceled
    ensures Ready(s, Unlist(s.r.w.tracker, q))
    ensures TrackerInv(s.d, s.past, Unlist(s.r.w.tracker, q), s.r.w.exec)
  {
    UnlistKeeps(s.r.w.tracker, q);
    SameQueue(s.r.w.tracker, Unlist(s.r.w.tracker, q), s.r.w.log, s.r.base, s.home, s.r.w.exec.Keys);
  }

  // --- every step, every run ---

  lemma AdmissionKeeps1(s: State, e: Event)
    requires IsAdmission(e) && s.live && AdmissionEnabled(s, e, true)
    requires (e.Emit? || e.Inject?) && Disciplined(s, e)
    requires Inv(s)
    ensures Inv(AdmissionStep(s, e))
  {
    match e
    case Emit(id, inherited) => AdmitStarts(s, id, Adm(id.node, false, inherited, false, Waiting));
    case Inject(id, n, inherited) => AdmitStarts(s, id, Adm(n, !s.r.pipe.nodes[n].Source?, inherited, false, Waiting));
  }

  lemma AdmissionKeeps3(s: State, e: Event)
    requires IsAdmission(e) && s.live && AdmissionEnabled(s, e, true)
    requires e.TakeGate? || e.GiveUp? || e.Append?
    requires Inv(s)
    ensures Inv(AdmissionStep(s, e))
  {
    match e
    case TakeGate(id) => TakeGateKeeps(s, id);
    case GiveUp(id) => LeaveKeeps(s, id);
    case Append(id) => AppendKeeps(s, id);
  }

  lemma AdmissionKeeps2(s: State, e: Event)
    requires IsAdmission(e) && s.live && AdmissionEnabled(s, e, true)
    requires e.AppendFails? || e.Acquire? || e.Register? || e.Return? || e.ReplayRow? || e.FreeSlot?
    requires Inv(s)
    ensures Inv(AdmissionStep(s, e))
  {
    match e
    case AppendFails(id) => AppendFailsKeeps(s, id);
    case Acquire(id) => AcquireKeeps(s, id);
    case Register(id) => RegisterKeeps(s, id);
    case Return(id) => LeaveKeeps(s, id);
    case ReplayRow(id, q) =>
      var en := ReplayEntry(s.r.pipe.nodes.Keys, s.d.rows[q]).value;
      ReplayRowKeeps(s, id, q, Adm(en.0, en.1, "", true, Spooled(q)));
    case FreeSlot => FreeSlotKeeps(s);
  }

  predicate IsPhase(e: Event) {
    e.Boot? || e.Crash? || e.Resume? || e.StartSources? || e.Stop?
  }

  predicate IsScan(e: Event) { e.ReplayOrphan? || e.ReplayDone? || e.ReplayStop? }

  lemma ScanKeeps(s: State, e: Event)
    requires IsScan(e) && ControlEnabled(s, e)
    requires Inv(s)
    ensures Inv(ControlStep(s, e))
  {
    match e
    case ReplayOrphan(q) =>
      assert Unscanned(s.r.replay, q);
      AsideKeeps(s, Told(s.d, q, NoEntry));
      OrphanKeeps(s.(d := Told(s.d, q, NoEntry)), q);
    case ReplayDone => ReplayEndKeeps(s, Complete);
    case ReplayStop => ReplayEndKeeps(s, Stopped(s.r.replay.cursor, s.d.nextSeq));
  }

  lemma PhaseKeeps(s: State, e: Event)
    requires IsPhase(e) && ControlEnabled(s, e)
    requires Inv(s)
    ensures Inv(ControlStep(s, e))
  {
    match e
    case Boot(pipe, limit, retention) => BootKeeps(s, pipe, limit, retention);
    case Crash => CrashKeeps(s);
    case Resume => ResumeKeeps(s);
    case StartSources(base) => StartSourcesKeeps(s, base);
    case Stop => StopKeeps(s);
  }

  lemma CallbackKeeps(s: State, e: Event)
    requires (e.RunRelease? || e.FlushCheckpoint? || e.FlushTrim?) && ControlEnabled(s, e)
    requires Inv(s)
    ensures Inv(ControlStep(s, e))
  {
    match e
    case RunRelease(q) => ReleaseKeeps(s, q);
    case FlushCheckpoint(through, fr, cpOk) => CheckpointKeeps(s, through, fr, cpOk);
    case FlushTrim(trimOk) => TrimKeeps(s, trimOk);
  }

  lemma CommitterKeeps(s: State, e: Event)
    requires (e.CommitterBegin? || e.CommitterEnd?) && ControlEnabled(s, e)
    requires Inv(s)
    ensures Inv(ControlStep(s, e))
  {
    match e
    case CommitterBegin(n) => CommitterBeginKeeps(s, n);
    case CommitterEnd(n, written) => CommitterEndKeeps(s, n, written);
  }

  lemma AbandonKeeps(s: State, e: Event)
    requires (e.CancelRecord? || e.CancelForce?) && ControlEnabled(s, e)
    requires Inv(s)
    ensures Inv(ControlStep(s, e))
  {
    match e
    case CancelRecord(q) => CancelRecordKeeps(s, q);
    case CancelForce(q) => ForcedKeeps(s, q);
  }

  /** An injection waits until replay is over, an emission brings a number of its own. */
  predicate Disciplined(s: State, e: Event) {
    && (e.Inject? ==> ReplayOver(s.r.replay))
    && (e.Emit? && e.id.Emission? ==> (e.id.node, e.id.srcSeq) !in s.r.w.log)
  }

  /** Discipline only disables steps. */
  lemma LateIsEnabled(s: State, e: Event)
    requires Enabled(s, e, false)
    ensures Enabled(s, e, true) && Disciplined(s, e)
  {}

  /** Every step keeps the invariant when injections and emission numbers are disciplined. */
  lemma StepKeeps(s: State, e: Event)
    requires Enabled(s, e, true) && Disciplined(s, e)
    requires Inv(s)
    ensures Inv(Step(s, e))
  {
    if IsBranchEvent(e) {
      BranchKeeps(s, e);
    } else if IsAdmission(e) {
      if e.Emit? || e.Inject? { AdmissionKeeps1(s, e); }
      else if e.TakeGate? || e.GiveUp? || e.Append? { AdmissionKeeps3(s, e); }
      else { AdmissionKeeps2(s, e); }
    } else if IsPhase(e) {
      PhaseKeeps(s, e);
    } else if IsScan(e) {
      ScanKeeps(s, e);
    } else if e.CancelRecord? || e.CancelForce? {
      AbandonKeeps(s, e);
    } else if e.RunRelease? || e.FlushCheckpoint? || e.FlushTrim? {
      CallbackKeeps(s, e);
    } else {
      CommitterKeeps(s, e);
    }
  }

  lemma {:induction false} RunKeeps(s: State, es: seq<Event>, s': State)
    requires Inv(s) && After(s, es, false) == Some(s')
    ensures Inv(s')
    decreases |es|
  {
    if es != [] {
      LateIsEnabled(s, es[0]);
      StepKeeps(s, es[0]);
      RunKeeps(Step(s, es[0]), es[1..], s');
    }
  }

  lemma ReachableInv(es: seq<Event>, s: State)
    requires Leads(es, false, s)
    ensures Inv(s)
  {
    RunKeeps(Init, es, s);
  }

  // --- the theorems ---

  /** The executions a state can still point to. */
  function Execs(s: State): map<int, seq<Leaf>> { if s.live then s.r.w.exec else map[] }

  /**
   No loss, in every state of every run with crashes at any step: an accepted row (its id
   was assigned) at or below the durable checkpoint was finished on every branch by some
   run, or canceled with a durable dead letter; a row beyond the checkpoint is still in
   the spool, where the next replay starts.
   */
  lemma NoLoss(es: seq<Event>, s: State, q: int)
    requires Leads(es, false, s)
    requires 1 <= q < s.d.nextSeq
    ensures q <= s.d.stored.checkpoint ==> Settled(s.d, s.past, Execs(s), q)
    ensures q > s.d.stored.checkpoint ==> q in s.d.rows
  {
    ReachableInv(es, s);
  }

  /**
   A durable watermark never outruns the durable checkpoint: every item of a source's
   input at or below the watermark was accepted as a row that lies at or below the
   checkpoint, so it is settled; everything above will be emitted again.
   */
  lemma WatermarkBehindCheckpoint(es: seq<Event>, s: State, n: string, i: int)
    requires Leads(es, false, s)
    requires n in s.d.marks && 1 <= i <= s.d.marks[n]
    ensures (n, i) in s.home && 1 <= s.home[(n, i)] <= s.d.stored.checkpoint
    ensures Settled(s.d, s.past, Execs(s), s.home[(n, i)])
  {
    ReachableInv(es, s);
    assert Covered(s.home, n, s.d.marks[n], s.d.stored.checkpoint);
  }

  /**
   The stored checkpoint never decreases over any stretch of history, restarts included,
   and a row that disappears from the spool lay at or below it.
   */
  lemma CheckpointNeverDecreases(es: seq<Event>, s: State, more: seq<Event>, s': State)
    requires Leads(es, false, s) && After(s, more, false) == Some(s')
    ensures s.d.stored.checkpoint <= s'.d.stored.checkpoint
    ensures forall q :: q in s.d.rows && q !in s'.d.rows ==> q <= s'.d.stored.checkpoint
  {
    ReachableInv(es, s);
    SpoolOver(s, more, s');
  }

  ghost predicate SpoolMoves(d: Durable, d': Durable) {
    && d.stored.checkpoint <= d'.stored.checkpoint
    && forall q :: q in d.rows && q !in d'.rows ==> q <= d'.stored.checkpoint
  }

  lemma {:induction false} SpoolOver(s: State, more: seq<Event>, s': State)
    requires Inv(s) && After(s, more, false) == Some(s')
    ensures SpoolMoves(s.d, s'.d)
    decreases |more|
  {
    if more != [] {
      LateIsEnabled(s, more[0]);
      StepKeeps(s, more[0]);
      StepSpool(s, more[0]);
      SpoolOver(Step(s, more[0]), more[1..], s');
    }
  }

  lemma StepSpool(s: State, e: Event)
    requires Inv(s) && Enabled(s, e, true)
    ensures SpoolMoves(s.d, Step(s, e).d)
  {
    if e.FlushCheckpoint? {
      assert Step(s, e) == Checkpointed(s, e.through, e.frontiers, e.cpOk);
      CheckpointMoves(s, e.through, e.frontiers, e.cpOk);
    } else if e.FlushTrim? {
      assert Step(s, e) == TrimDone(s, e.trimOk);
      TrimStart(s, e.trimOk);
    } else {
      OnlyFlushMoves(s, e);
    }
  }

  lemma CheckpointMoves(s: State, through: int, fr: map<string, int>, cpOk: bool)
    requires Inv(s) && s.live && Flush(through, fr) in s.r.w.calls
    ensures SpoolMoves(s.d, Checkpointed(s, through, fr, cpOk).d)
  {
    CheckpointStart(s, through, fr, cpOk);
  }

  ghost predicate SpoolKept(d: Durable, d': Durable) {
    d'.stored == d.stored && forall q :: q in d.rows ==> q in d'.rows
  }

  lemma OnlyFlushMoves(s: State, e: Event)
    requires Enabled(s, e, true) && !e.FlushCheckpoint? && !e.FlushTrim?
    ensures SpoolKept(s.d, Step(s, e).d)
  {
    if IsBranchEvent(e) {
      BranchKeepsSpool(s, e);
    } else if IsAdmission(e) {
      AdmissionKeepsSpool(s, e);
    } else {
      ControlKeepsSpool(s, e);
    }
  }

  lemma BranchKeepsSpool(s: State, e: Event)
    requires IsBranchEvent(e) && BranchEnabled(s, e)
    ensures SpoolKept(s.d, BranchStep(s, e).d)
  {}

  lemma AdmissionKeepsSpool(s: State, e: Event)
    requires IsAdmission(e) && s.live && AdmissionEnabled(s, e, true)
    ensures SpoolKept(s.d, AdmissionStep(s, e).d)
  {}

  lemma ControlKeepsSpool(s: State, e: Event)
    requires !IsAdmission(e) && !IsBranchEvent(e) && !e.FlushCheckpoint? && !e.FlushTrim? && ControlEnabled(s, e)
    ensures SpoolKept(s.d, ControlStep(s, e).d)
  {}

  /**
   When injections wait for replay, the checkpoint is recovered onto a fresh tracker, so
   seeding the cursor never passes over a drained sequence.
   */
  lemma ResumeFindsFreshTracker(es: seq<Event>, s: State)
    requires Leads(es, false, s) && s.live && s.r.replay.NotStarted?
    ensures s.r.w.tracker == NewTracker(Sources(s.r.pipe)) && s.r.g.adm == map[]
    ensures Maximal(Resumed(s.r, s.d.stored.checkpoint).w.tracker)
  {
    ReachableInv(es, s);
    NewTrackerValid(Sources(s.r.pipe));
  }

  /**
   The prefix is as long as the rules allow in every reachable state: it is stopped by the
   last arrival, by a live message or by a hole, and the open-branch counter is the sum of
   the positive counts.
   */
  lemma PrefixIsMaximal(es: seq<Event>, s: State)
    requires Leads(es, false, s) && s.live
    ensures var t := s.r.w.tracker;
      && t.openBranches == OpenUpTo(t.outstanding, t.arrivedMax)
      && (t.committedPtr == t.arrivedMax + 1 || Units(t.outstanding, t.committedPtr) > 0
          || (t.committedPtr !in t.outstanding && t.committedPtr !in t.removed))
  {
    ReachableInv(es, s);
  }

  // --- retention ---

  /** The rows a restart no longer needs. */
  function Spent(d: Durable): set<int> { set q | q in d.rows && q <= d.stored.checkpoint }

  function Range(lo: int, hi: int): (r: set<int>)
    ensures forall q :: q in r <==> lo < q <= hi
    ensures |r| == if hi > lo then hi - lo else 0
    decreases hi - lo
  {
    if hi <= lo then {} else Range(lo, hi - 1) + {hi}
  }

  /** They are exactly those between what was trimmed and the checkpoint. */
  lemma BehindIs(d: Durable)
    requires RowsInv(d)
    ensures |Spent(d)| == d.stored.checkpoint - d.stored.trimmed
  {
    assert Spent(d) == Range(d.stored.trimmed, d.stored.checkpoint);
  }

  /** Once a flush of this run has completed, the next sweep is due in time, and not yet due. */
  ghost predicate Scheduled(s: State, retention: int) {
    s.live ==>
      && s.r.retention == retention
      && (s.r.barrier.due > 0 ==> s.r.barrier.due <= s.d.stored.trimmed + 2 * retention)
      && (s.r.barrier.due > 0 && !s.r.locked ==> s.d.stored.checkpoint < s.r.barrier.due)
  }

  /** The pipeline keeps one retention, and its trims succeed. */
  predicate TrimsWork(e: Event, retention: int) {
    (e.Boot? ==> e.retention == retention) && (e.FlushTrim? ==> e.trimOk)
  }

  // --- and the window behind it is kept ---

  predicate OneRetention(e: Event, retention: int) { e.Boot? ==> e.retention == retention }

  ghost predicate Keeps(s: State, retention: int) {
    && (s.live ==> s.r.retention == retention)
    && (s.d.stored.trimmed == 0 || s.d.stored.trimmed <= s.d.stored.checkpoint - retention)
  }

  lemma StepKeepsWindow(s: State, e: Event, retention: int)
    requires Inv(s) && Enabled(s, e, true) && Keeps(s, retention) && OneRetention(e, retention) && retention > 0
    ensures Keeps(Step(s, e), retention)
  {
    if IsBranchEvent(e) {
      BranchKeepsWindow(s, e, retention);
    } else if IsAdmission(e) {
      AdmissionKeepsWindow(s, e, retention);
    } else if e.FlushCheckpoint? || e.FlushTrim? {
      CallsOwed(s, e);
      FlushKeepsWindow(s, e, retention);
    } else {
      ControlKeepsWindow(s, e, retention);
    }
  }

  lemma BranchKeepsWindow(s: State, e: Event, retention: int)
    requires IsBranchEvent(e) && s.live && BranchEnabled(s, e) && Keeps(s, retention)
    ensures Keeps(BranchStep(s, e), retention)
  {}

  lemma AdmissionKeepsWindow(s: State, e: Event, retention: int)
    requires IsAdmission(e) && s.live && AdmissionEnabled(s, e, true) && Keeps(s, retention)
    ensures Keeps(AdmissionStep(s, e), retention)
  {}

  lemma ControlKeepsWindow(s: State, e: Event, retention: int)
    requires !IsAdmission(e) && !IsBranchEvent(e) && ControlEnabled(s, e) && Keeps(s, retention)
    requires !e.FlushCheckpoint? && !e.FlushTrim? && OneRetention(e, retention)
    ensures Keeps(ControlStep(s, e), retention)
  {}

  /** A flush is owed or under way only after the checkpoint was recovered. */
  lemma CallsOwed(s: State, e: Event)
    requires (e.FlushCheckpoint? || e.FlushTrim?) && ControlEnabled(s, e) && Inv(s)
    ensures Guarded(s.r.barrier, s.d.stored)
  {
    assert s.r.w.calls != multiset{} || s.r.locked;
  }

  lemma FlushKeepsWindow(s: State, e: Event, retention: int)
    requires (e.FlushCheckpoint? || e.FlushTrim?) && ControlEnabled(s, e) && s.live && Guarded(s.r.barrier, s.d.stored)
    requires Keeps(s, retention) && retention > 0
    ensures Keeps(ControlStep(s, e), retention)
  {}

  lemma {:induction false} RunKeepsWindow(s: State, es: seq<Event>, s': State, retention: int)
    requires Inv(s) && After(s, es, false) == Some(s') && Keeps(s, retention) && retention > 0
    requires forall i :: 0 <= i < |es| ==> OneRetention(es[i], retention)
    ensures Keeps(s', retention)
    decreases |es|
  {
    if es != [] {
      LateIsEnabled(s, es[0]);
      StepKeeps(s, es[0]);
      StepKeepsWindow(s, es[0], retention);
      RunKeepsWindow(Step(s, es[0]), es[1..], s', retention);
    }
  }

  /**
   In every state of every run that keeps one retention R, whichever writes fail, the last R
   rows at or below the checkpoint are still in the spool, and every row beyond it.
   */
  lemma WindowOverRuns(es: seq<Event>, s: State, retention: int, q: int)
    requires Leads(es, false, s) && retention > 0 && forall i :: 0 <= i < |es| ==> OneRetention(es[i], retention)
    requires 1 <= q < s.d.nextSeq && q > s.d.stored.checkpoint - retention
    ensures q in s.d.rows
  {
    ReachableInv(es, s);
    RunKeepsWindow(Init, es, s, retention);
  }

  lemma BranchSchedules(s: State, e: Event, retention: int)
    requires IsBranchEvent(e) && s.live && BranchEnabled(s, e) && Scheduled(s, retention)
    ensures Scheduled(BranchStep(s, e), retention)
  {}

  lemma AdmissionSchedules(s: State, e: Event, retention: int)
    requires IsAdmission(e) && s.live && AdmissionEnabled(s, e, true) && Scheduled(s, retention)
    ensures Scheduled(AdmissionStep(s, e), retention)
  {}

  lemma ControlSchedules(s: State, e: Event, retention: int)
    requires !IsAdmission(e) && !IsBranchEvent(e) && !e.FlushTrim? && ControlEnabled(s, e)
    requires Scheduled(s, retention) && TrimsWork(e, retention) && retention > 0
    ensures Scheduled(ControlStep(s, e), retention)
  {}

  lemma TrimSchedules(s: State, retention: int)
    requires Inv(s) && s.live && s.r.locked && s.r.retention > 0 && Scheduled(s, retention)
    ensures Scheduled(TrimDone(s, true), retention)
  {
    assert !s.r.replay.NotStarted?;
    TrimCatchesUp(s.r.barrier, s.d.stored, retention);
  }

  lemma StepSchedules(s: State, e: Event, retention: int)
    requires Inv(s) && Enabled(s, e, true) && Scheduled(s, retention) && TrimsWork(e, retention) && retention > 0
    ensures Scheduled(Step(s, e), retention)
  {
    if IsBranchEvent(e) {
      BranchSchedules(s, e, retention);
    } else if IsAdmission(e) {
      AdmissionSchedules(s, e, retention);
    } else if e.FlushTrim? {
      TrimSchedules(s, retention);
    } else {
      ControlSchedules(s, e, retention);
    }
  }

  lemma {:induction false} RunSchedules(s: State, es: seq<Event>, s': State, retention: int)
    requires Inv(s) && After(s, es, false) == Some(s') && Scheduled(s, retention) && retention > 0
    requires forall i :: 0 <= i < |es| ==> TrimsWork(es[i], retention)
    ensures Scheduled(s', retention)
    decreases |es|
  {
    if es != [] {
      LateIsEnabled(s, es[0]);
      StepKeeps(s, es[0]);
      StepSchedules(s, es[0], retention);
      RunSchedules(Step(s, es[0]), es[1..], s', retention);
    }
  }

  /** A flush of this run has completed, and none is under way. */
  predicate Flushed(s: State) { s.live && s.r.barrier.due > 0 && !s.r.locked }

  /**
   Over a whole history of runs, crashes and restarts, with trims that succeed: after every
   completed flush fewer than two retention windows of rows remain at or below the checkpoint.
   */
  lemma RetentionOverRuns(es: seq<Event>, s: State, retention: int)
    requires Leads(es, false, s) && retention > 0 && forall i :: 0 <= i < |es| ==> TrimsWork(es[i], retention)
    requires Flushed(s)
    ensures |Spent(s.d)| < 2 * retention
  {
    ReachableInv(es, s);
    RunSchedules(Init, es, s, retention);
    BehindIs(s.d);
  }

  /**
   In between, from the checkpoint write to the trim (where a crash can leave the store until
   the next run's first flush), the bound holds exactly when the advance stayed within two
   windows of what was trimmed before it.
   */
  lemma RetentionBetweenIff(es: seq<Event>, s: State, retention: int, through: int, fr: map<string, int>)
    requires Leads(es, false, s) && retention > 0 && s.live && s.d.stored.checkpoint < through
    requires ControlEnabled(s, FlushCheckpoint(through, fr, true))
    ensures |Spent(Checkpointed(s, through, fr, true).d)| < 2 * retention <==>
            through < s.d.stored.trimmed + 2 * retention
  {
    ReachableInv(es, s);
    CheckpointStart(s, through, fr, true);
    assert !s.r.replay.NotStarted?;
    BehindIs(Checkpointed(s, through, fr, true).d);
  }

  /**
   Branch conservation: while a message is registered its count is its number of open
   branches, and it leaves the tracker only with none or with a durable cancellation.
   */
  lemma BranchConservation(es: seq<Event>, s: State, q: int)
    requires Leads(es, false, s) && s.live
    ensures q in s.r.w.tracker.outstanding ==>
              q in s.r.w.exec && s.r.w.tracker.outstanding[q] == Open(s.r.w.exec[q])
    ensures q in s.r.w.exec && q !in s.r.w.tracker.outstanding ==> Open(s.r.w.exec[q]) == 0 || q in s.d.canceled
  {
    ReachableInv(es, s);
  }

  /**
   A source's frontier is the longest run 1..f of its emissions in this run whose rows the
   prefix has crossed, in every reachable state, although swept references are deleted and
   registrations come out of order.
   */
  lemma FrontierIsLongestPrefix(es: seq<Event>, s: State, n: string)
    requires Leads(es, false, s) && s.live && n in s.r.w.tracker.srcs
    ensures IsFrontier(s.r.w.tracker, s.r.w.log, n, s.r.w.tracker.srcs[n].front)
  {
    ReachableInv(es, s);
    QueueState(s);
    LongestPrefix(s.r.w.tracker, s.r.w.log, n);
  }

  lemma QueueState(s: State)
    requires Inv(s) && s.live
    ensures Exact(s.r.w.tracker.srcRefs, s.r.w.tracker.srcs, s.r.w.log)
    ensures SweptIsCommitted(s.r.w.tracker.srcRefs, s.r.w.log, s.r.w.tracker.committedPtr)
  {}

  /** Emissions 1..f of n arrived and committed, and the next one did not. */
  ghost predicate IsFrontier(t: Tracker, log: Log, n: string, f: int) {
    && f >= 0 && (forall k :: 1 <= k <= f ==> (n, k) in log && log[(n, k)] < t.committedPtr)
    && !((n, f + 1) in log && log[(n, f + 1)] < t.committedPtr)
  }

  lemma LongestPrefix(t: Tracker, log: Log, n: string)
    requires Exact(t.srcRefs, t.srcs, log) && SweptIsCommitted(t.srcRefs, log, t.committedPtr) && n in t.srcs
    ensures IsFrontier(t, log, n, t.srcs[n].front)
  {
    assert SourceExact(t.srcs[n], t.srcRefs, log, n);
    forall k | 1 <= k <= t.srcs[n].front ensures (n, k) in log && log[(n, k)] < t.committedPtr {
      assert Swept(t.srcRefs, log, n, k);
    }
    assert !Swept(t.srcRefs, log, n, t.srcs[n].front + 1);
  }

  /** Rows that are durable but not registered yet, each in an admission's hands. */
  function InHand(g: Gate): set<int> { g.hands.Keys }

  /**
   Slot conservation: slots taken are ledger entries, admissions between the gate and the
   ledger, and slots on their way back, so giving one back never blocks; and registered
   messages other than undeliverable rows, together with rows not yet registered, never
   outnumber the high watermark.
   */
  lemma SlotConservation(es: seq<Event>, s: State, deliverable: set<int>)
    requires Leads(es, false, s) && s.live
    requires forall q :: q in deliverable ==>
      q in s.r.w.tracker.outstanding && q in s.r.w.exec && !Orphan(s.r.w.exec[q])
    ensures var g := s.r.g;
      && g.taken == |g.acquired| + |Holders(g.adm)| + g.freeing
      && (g.freeing > 0 || Holders(g.adm) != {} ==> g.taken > 0)
      && |deliverable + InHand(g)| <= g.limit
  {
    ReachableInv(es, s);
    forall q | q in deliverable ensures q in s.r.g.acquired {}
    HandsHold(s.d.nextSeq, s.r.w.exec.Keys, s.r.g, deliverable + InHand(s.r.g));
  }

  /** A row in hand is in the ledger or has its own admission holding a slot. */
  lemma HandsHold(nextSeq: int, known: set<int>, g: Gate, rows: set<int>)
    requires HandsInv(nextSeq, known, g) && GateInv(nextSeq, g)
    requires forall q :: q in rows ==> q in g.acquired || q in g.hands
    ensures |rows| <= g.limit
  {
    var outside := rows - g.acquired;
    OwnHolder(nextSeq, known, g, outside);
    OwnHolders(outside, g.hands, Holders(g.adm), if nextSeq > 0 then nextSeq else 0);
    SubsetSize(rows * g.acquired, g.acquired);
    assert rows == outside + rows * g.acquired;
  }

  lemma OwnHolder(nextSeq: int, known: set<int>, g: Gate, rows: set<int>)
    requires HandsInv(nextSeq, known, g) && GateInv(nextSeq, g)
    requires forall q :: q in rows ==> q in g.hands && q !in g.acquired
    ensures forall q :: q in rows ==> q in g.hands && g.hands[q] in Holders(g.adm)
    ensures forall p, q :: p in rows && q in rows && g.hands[p] == g.hands[q] ==> p == q
  {
    forall q | q in rows ensures g.hands[q] in Holders(g.adm) && g.adm[g.hands[q]].stage == Spooled(q) {
      assert Holds(g.adm[g.hands[q]], q);
    }
  }

  /** What Engine.Quiesced reads. */
  predicate Quiesced(s: State) {
    && s.live && s.r.sourcesOn && ReplayOver(s.r.replay) && s.r.g.adm == map[]
    && s.r.w.tracker.openBranches == 0
    && s.r.barrier.attempted >= s.r.w.tracker.committedPtr - 1
  }

  /**
   When Quiesced answers true, the prefix covers every accepted row exactly when the
   replay scan was not cut short before one of them: then each is settled and the
   persistence of exactly that prefix was attempted.
   */
  lemma QuiescedIsSound(es: seq<Event>, s: State)
    requires Leads(es, false, s) && Quiesced(s)
    ensures s.r.w.tracker.committedPtr == s.d.nextSeq <==>
              forall q :: 1 <= q < s.d.nextSeq ==> !Unscanned(s.r.replay, q)
    ensures s.r.w.tracker.committedPtr == s.d.nextSeq ==>
      && (forall q :: 1 <= q < s.d.nextSeq ==> Settled(s.d, s.past, s.r.w.exec, q))
      && (s.d.nextSeq > 1 ==> s.d.nextSeq - 1 in s.r.attempted)
    ensures s.r.replay.Complete? ==> s.r.w.tracker.committedPtr == s.d.nextSeq
  {
    ReachableInv(es, s);
    QuietState(s);
  }

  lemma QuietState(s: State)
    requires Inv(s) && Quiesced(s)
    ensures s.r.w.tracker.committedPtr == s.d.nextSeq <==>
              forall q :: 1 <= q < s.d.nextSeq ==> !Unscanned(s.r.replay, q)
  {
    var t := s.r.w.tracker;
    if t.committedPtr < s.d.nextSeq {
      var q := t.committedPtr;
      if q in t.outstanding { OpenZero(t.outstanding, t.arrivedMax, q); }
      assert q !in t.outstanding && q !in t.removed && Unscanned(s.r.replay, q);
    }
  }
}
