/** Every other step of the spine keeps the invariant, and so does every run. */
module SpineSteps {
  import opened Commit
  import opened Persistence
  import opened Spine
  import opened SpineInvariant

  // --- admission ---

  /** A step that only moves admissions, slots and the replay cursor. */
  lemma GateMoves(s: State, g: Gate, replay: Replay)
    requires Inv(s) && s.live && !s.r.replay.NotStarted? && !replay.NotStarted?
    requires AdmInv(s.d.nextSeq, s.r.w.tracker, s.r.w.exec.Keys, g, replay, s.r.sourcesOn)
    requires EmissionsInv(s.r.w.log, s.r.base.Keys, g.adm)
    requires Slotted(s.r.w.tracker.outstanding, s.r.w.exec, g.acquired)
    ensures Inv(s.(r := s.r.(g := g, replay := replay)))
  {
    assert StartInv(s.(r := s.r.(g := g, replay := replay)));
  }

  /** Moving one admission between stages that hold no row, or dropping it there. */
  lemma IdleMove(nextSeq: int, t: Tracker, known: set<int>, g: Gate, g': Gate, replay: Replay, on: bool, id: Id)
    requires AdmInv(nextSeq, t, known, g, replay, on)
    requires g' == g.(adm := g'.adm, taken := g'.taken)
    requires g'.adm - {id} == g.adm - {id}
    requires id in g.adm ==> !g.adm[id].stage.Spooled? && !g.adm[id].stage.Ledgered?
    requires id in g'.adm ==> !g'.adm[id].stage.Spooled? && !g'.adm[id].stage.Ledgered?
    requires ReplayOver(replay) || id !in g'.adm
    requires g'.taken - |Holders(g'.adm)| == g.taken - |Holders(g.adm)| && g'.taken <= g'.limit
    ensures AdmInv(nextSeq, t, known, g', replay, on)
  {
    SameElsewhere(g.adm, g'.adm, id);
  }

  lemma AdmitStarts(s: State, id: Id, a: Adm)
    requires Inv(s) && s.live && ReplayOver(s.r.replay) && id !in s.r.g.adm && a.stage == Waiting
    requires id.Emission? ==> id.srcSeq >= 1 && id.node in s.r.base && (id.node, id.srcSeq) !in s.r.w.log
    ensures Inv(SetAdm(s, id, a))
  {
    var g' := s.r.g.(adm := s.r.g.adm[id := a]);
    HoldersStay(s.r.g.adm, g'.adm, id);
    IdleMove(s.d.nextSeq, s.r.w.tracker, s.r.w.exec.Keys, s.r.g, g', s.r.replay, s.r.sourcesOn, id);
    GateMoves(s, g', s.r.replay);
  }

  lemma HoldersStay(adm: map<Id, Adm>, adm': map<Id, Adm>, id: Id)
    requires adm' - {id} == adm - {id}
    requires id in adm ==> !adm[id].stage.Holding? && !adm[id].stage.Spooled?
    requires id in adm' ==> !adm'[id].stage.Holding? && !adm'[id].stage.Spooled?
    ensures Holders(adm') == Holders(adm)
  {
    SameElsewhere(adm, adm', id);
  }

  lemma HoldersGain(adm: map<Id, Adm>, adm': map<Id, Adm>, id: Id)
    requires adm' - {id} == adm - {id}
    requires id in adm ==> !adm[id].stage.Holding? && !adm[id].stage.Spooled?
    requires id in adm' && (adm'[id].stage.Holding? || adm'[id].stage.Spooled?)
    ensures |Holders(adm')| == |Holders(adm)| + 1
  {
    SameElsewhere(adm, adm', id);
    assert Holders(adm') == Holders(adm) + {id};
  }

  lemma SameElsewhere(adm: map<Id, Adm>, adm': map<Id, Adm>, id: Id)
    requires adm' - {id} == adm - {id}
    ensures forall j :: j != id ==> (j in adm' <==> j in adm)
    ensures forall j :: j != id && j in adm ==> adm'[j] == adm[j]
  {
    forall j | j != id ensures (j in adm' <==> j in adm) && (j in adm ==> adm'[j] == adm[j]) {
      assert j in adm' <==> j in adm' - {id};
      assert j in adm <==> j in adm - {id};
      if j in adm { assert (adm' - {id})[j] == (adm - {id})[j]; }
    }
  }

  lemma TakeGateKeeps(s: State, id: Id)
    requires Inv(s) && s.live && At'(s.r.g, id, Waiting) && s.r.g.taken < s.r.g.limit
    ensures Inv(s.(r := s.r.(g := Taken(s.r.g, id))))
  {
    HoldersGain(s.r.g.adm, Taken(s.r.g, id).adm, id);
    IdleMove(s.d.nextSeq, s.r.w.tracker, s.r.w.exec.Keys, s.r.g, Taken(s.r.g, id), s.r.replay, s.r.sourcesOn, id);
    GateMoves(s, Taken(s.r.g, id), s.r.replay);
  }

  lemma LeaveKeeps(s: State, id: Id)
    requires Inv(s) && s.live && (At'(s.r.g, id, Waiting) || At'(s.r.g, id, Registered))
    ensures Inv(s.(r := s.r.(g := s.r.g.(adm := s.r.g.adm - {id}))))
  {
    var g' := s.r.g.(adm := s.r.g.adm - {id});
    HoldersStay(s.r.g.adm, g'.adm, id);
    IdleMove(s.d.nextSeq, s.r.w.tracker, s.r.w.exec.Keys, s.r.g, g', s.r.replay, s.r.sourcesOn, id);
    GateMoves(s, g', s.r.replay);
  }

  lemma AppendFailsKeeps(s: State, id: Id)
    requires Inv(s) && s.live && At'(s.r.g, id, Holding) && s.r.g.taken > 0
    ensures Inv(s.(r := s.r.(g := s.r.g.(taken := s.r.g.taken - 1, adm := s.r.g.adm - {id}))))
  {
    var g' := s.r.g.(taken := s.r.g.taken - 1, adm := s.r.g.adm - {id});
    assert g'.adm - {id} == s.r.g.adm - {id};
    HoldersGain(g'.adm, s.r.g.adm, id);
    IdleMove(s.d.nextSeq, s.r.w.tracker, s.r.w.exec.Keys, s.r.g, g', s.r.replay, s.r.sourcesOn, id);
    GateMoves(s, g', s.r.replay);
  }

  lemma AcquireKeeps(s: State, id: Id)
    requires Inv(s) && s.live && id in s.r.g.adm && s.r.g.adm[id].stage.Spooled?
    ensures Inv(s.(r := s.r.(g := Acquired(s.r.g, id))))
  {
    AcquireAdm(s.d.nextSeq, s.r.w.tracker, s.r.w.exec.Keys, s.r.g, s.r.replay, s.r.sourcesOn, id);
    GateMoves(s, Acquired(s.r.g, id), s.r.replay);
  }

  lemma AcquireAdm(nextSeq: int, t: Tracker, known: set<int>, g: Gate, replay: Replay, on: bool, id: Id)
    requires AdmInv(nextSeq, t, known, g, replay, on) && id in g.adm && g.adm[id].stage.Spooled?
    ensures AdmInv(nextSeq, t, known, Acquired(g, id), replay, on)
  {
    var g' := Acquired(g, id);
    HoldersGain(g'.adm, g.adm, id);
    assert GateInv(nextSeq, g');
  }

  lemma FreeSlotKeeps(s: State)
    requires Inv(s) && s.live && s.r.g.freeing > 0 && s.r.g.taken > 0
    ensures Inv(s.(r := s.r.(g := s.r.g.(taken := s.r.g.taken - 1, freeing := s.r.g.freeing - 1))))
  {
    FreeAdm(s.d.nextSeq, s.r.w.tracker, s.r.w.exec.Keys, s.r.g, s.r.replay, s.r.sourcesOn);
    GateMoves(s, s.r.g.(taken := s.r.g.taken - 1, freeing := s.r.g.freeing - 1), s.r.replay);
  }

  lemma FreeAdm(nextSeq: int, t: Tracker, known: set<int>, g: Gate, replay: Replay, on: bool)
    requires AdmInv(nextSeq, t, known, g, replay, on) && g.freeing > 0
    ensures AdmInv(nextSeq, t, known, g.(taken := g.taken - 1, freeing := g.freeing - 1), replay, on)
  {}

  /** A row comes into an admission's hands, past everything registered. */
  lemma TakeRow(nextSeq: int, t: Tracker, known: set<int>, g: Gate, g': Gate, replay: Replay, replay': Replay,
                on: bool, id: Id, q: int, nextSeq': int)
    requires AdmInv(nextSeq, t, known, g, replay, on)
    requires nextSeq <= nextSeq' && 1 <= q < nextSeq' && q !in known && q !in g.hands && q !in g.acquired
    requires q >= t.committedPtr && !Unscanned(replay', q)
    requires g' == g.(hands := g.hands[q := id], adm := g'.adm, taken := g'.taken)
    requires id in g'.adm && g'.adm[id].stage == Spooled(q) && g'.adm == g.adm[id := g'.adm[id]]
    requires id in g.adm ==> !g.adm[id].stage.Spooled? && !g.adm[id].stage.Ledgered?
    requires ReplayOver(replay') || (ReplayOnly(g'.adm[id]) && !on)
    requires ReplayOver(replay') == ReplayOver(replay)
    requires g'.taken - |Holders(g'.adm)| == g.taken - |Holders(g.adm)| && g'.taken <= g'.limit
    requires forall k :: Unscanned(replay', k) ==> Unscanned(replay, k)
    requires forall k :: t.committedPtr <= k < nextSeq && Unscanned(replay, k) ==> k == q || Unscanned(replay', k)
    requires nextSeq' == nextSeq || (nextSeq' == nextSeq + 1 && q == nextSeq)
    requires !replay.NotStarted? && (replay'.Stopped? ==> replay'.until <= nextSeq)
    ensures AdmInv(nextSeq', t, known, g', replay', on)
  {}

  lemma AppendKeeps(s: State, id: Id)
    requires Inv(s) && s.live && At'(s.r.g, id, Holding)
    ensures Inv(s.(d := AppendedD(s.d, s.r.g.adm[id]), r := s.r.(g := AppendedG(s.r.g, id, s.d.nextSeq))))
  {
    var d := AppendedD(s.d, s.r.g.adm[id]);
    SettledStays(s.d, d, s.past, s.r.w.exec, d.stored.checkpoint + 1);
    TrackerInvStays(s.d, d, s.past, s.r.w.tracker, s.r.w.exec);
    AppendAdm(s.d, s.r.w.tracker, s.r.w.exec.Keys, s.r.g, s.r.replay, s.r.sourcesOn, id);
    AppendStart(s, id);
  }

  lemma AppendStart(s: State, id: Id)
    requires RunInv(s) && RowsInv(s.d) && At'(s.r.g, id, Holding)
    ensures var (d, g) := (AppendedD(s.d, s.r.g.adm[id]), AppendedG(s.r.g, id, s.d.nextSeq));
      && StartInv(s.(d := d, r := s.r.(g := g))) && RowsInv(d) && EmissionsInv(s.r.w.log, s.r.base.Keys, g.adm)
  {}

  lemma AppendAdm(d: Durable, t: Tracker, known: set<int>, g: Gate, replay: Replay, on: bool, id: Id)
    requires AdmInv(d.nextSeq, t, known, g, replay, on) && At'(g, id, Holding) && !replay.NotStarted?
    requires d.nextSeq >= 1 && d.nextSeq >= t.committedPtr && forall q :: q in known ==> q < d.nextSeq
    ensures AdmInv(d.nextSeq + 1, t, known, AppendedG(g, id, d.nextSeq), replay, on)
  {
    var g' := AppendedG(g, id, d.nextSeq);
    assert g'.adm - {id} == g.adm - {id};
    assert Holders(g'.adm) == Holders(g.adm);
    TakeRow(d.nextSeq, t, known, g, g', replay, replay, on, id, d.nextSeq, d.nextSeq + 1);
  }

  lemma ReplayRowKeeps(s: State, id: Id, q: int, a: Adm)
    requires Inv(s) && s.live && s.r.replay.Scanning? && NextRow(s.d, s.r.replay.cursor, q)
    requires id.Other? && id !in s.r.g.adm && s.r.g.taken < s.r.g.limit
    requires a.replayed && a.stage == Spooled(q)
    ensures Inv(s.(r := s.r.(replay := Scanning(q), g := ReplayedG(s.r.g, id, q, a))))
  {
    ReplayAdm(s.d, s.r.w.tracker, s.r.w.exec.Keys, s.r.g, s.r.replay, s.r.sourcesOn, id, q, a);
    GateMoves(s, ReplayedG(s.r.g, id, q, a), Scanning(q));
  }

  /** Replay visits every row past its cursor: none lies between the cursor and the next one. */
  lemma NoGap(d: Durable, ptr: int, replay: Replay, q: int)
    requires RowsInv(d) && d.stored.checkpoint < ptr
    requires replay.Scanning? && NextRow(d, replay.cursor, q)
    ensures forall k :: ptr <= k < d.nextSeq && Unscanned(replay, k) ==> k == q || Unscanned(Scanning(q), k)
  {
    forall k | ptr <= k < d.nextSeq && Unscanned(replay, k) ensures k == q || Unscanned(Scanning(q), k) {
      assert k in d.rows;
    }
  }

  lemma ReplayAdm(d: Durable, t: Tracker, known: set<int>, g: Gate, replay: Replay, on: bool, id: Id, q: int, a: Adm)
    requires AdmInv(d.nextSeq, t, known, g, replay, on) && RowsInv(d) && d.stored.checkpoint < t.committedPtr
    requires replay.Scanning? && NextRow(d, replay.cursor, q)
    requires id.Other? && id !in g.adm && g.taken < g.limit && a.replayed && a.stage == Spooled(q)
    ensures AdmInv(d.nextSeq, t, known, ReplayedG(g, id, q, a), Scanning(q), on)
  {
    var g' := ReplayedG(g, id, q, a);
    assert Unscanned(replay, q);
    NoGap(d, t.committedPtr, replay, q);
    HoldersGain(g.adm, g'.adm, id);
    TakeRow(d.nextSeq, t, known, g, g', replay, Scanning(q), on, id, q, d.nextSeq);
  }

  // --- registration ---

  /** No branch of an earlier registration is open. */
  predicate Clear(exec: map<int, seq<Leaf>>, q: int) { q in exec ==> Open(exec[q]) == 0 }

  /** A registration that finds no open branch: one open branch, one unit. */
  lemma EnterTracker(d: Durable, past: map<int, seq<Leaf>>, t: Tracker, exec: map<int, seq<Leaf>>,
                     q: int, node: string, k: int, l: Leaf)
    requires TrackerInv(d, past, t, exec) && 1 <= q < d.nextSeq && Clear(exec, q)
    requires l.Pending? && Backed(d, q, l)
    ensures TrackerInv(d, Retired(d, past, exec, q), Arrived(t, q, node, k), Started(exec, q, l))
    ensures Maximal(t) ==> Maximal(Arrived(t, q, node, k))
  {
    ArrivedKeeps(t, q, node, k);
    AllPendingOpen([l]);
    var (past', exec') := (Retired(d, past, exec, q), exec[q := [l]]);
    assert [] + [l] == [l];
    assert Started(exec, q, l) == exec';
    forall j | 1 <= j < t.committedPtr ensures Settled(d, past', exec', j) {
      assert Settled(d, past, exec, j);
    }
  }

  lemma LiveBelow(t: Tracker, log: Log, q: int, node: string, k: int)
    requires SweptIsCommitted(t.srcRefs, log, t.committedPtr)
    requires node != "" && node in t.srcs && (node, k) !in log && Sorted(t.srcRefs) && q >= t.committedPtr
    ensures SweptIsCommitted(Arrived(t, q, node, k).srcRefs, log[(node, k) := q], t.committedPtr)
  {
    var refs, log' := Arrived(t, q, node, k).srcRefs, log[(node, k) := q];
    InsertKeepsOrder(t.srcRefs, Ref(q, node, k));
    forall n, j | (n, j) in log' ensures Swept(refs, log', n, j) <==> log'[(n, j)] < t.committedPtr {
      if (n, j) != (node, k) { assert Swept(refs, log', n, j) <==> Swept(t.srcRefs, log, n, j); }
    }
  }

  lemma LiveHome(log: Log, base: map<string, int>, home: map<(string, int), int>, known: set<int>, q: int, node: string,
                 k: int, log': Log, home': map<(string, int), int>)
    requires node in base && q >= 1 && forall x :: x in home ==> home[x] >= 1
    requires Homed(log, base, home, known)
    requires log' == log[(node, k) := q] && home' == Home(home, (node, base[node] + k), q)
    ensures Homed(log', base, home', known + {q})
  {}

  lemma EnterAdm(nextSeq: int, t: Tracker, known: set<int>, g: Gate, replay: Replay, on: bool, id: Id, t': Tracker)
    requires AdmInv(nextSeq, t, known, g, replay, on) && id in g.adm && g.adm[id].stage.Ledgered?
    requires t'.committedPtr == t.committedPtr && t'.removed == t.removed
    requires forall k :: k in t.outstanding || k == g.adm[id].stage.sq ==> k in t'.outstanding
    ensures AdmInv(nextSeq, t', known + {g.adm[id].stage.sq}, EnterGate(g, id), replay, on)
  {
    HoldersStay(g.adm, EnterGate(g, id).adm, id);
  }

  /** A wider log and home keep what callbacks and committers rely on. */
  lemma LogGrows(t: Tracker, t': Tracker, log: Log, log': Log, calls: multiset<Call>, known: set<int>, q: int)
    requires CallsInv(t, log, calls, known) && t'.committedPtr == t.committedPtr
    requires forall x :: x in log ==> x in log' && log'[x] == log[x]
    requires forall k :: k in t'.outstanding ==> k in t.outstanding || k == q
    requires q !in known
    ensures CallsInv(t', log', calls, known + {q})
  {}

  lemma HomeGrows(home: map<(string, int), int>, item: (string, int), q: int, marks: map<string, int>, cp: int)
    requires AllCovered(home, marks, cp) && q >= 1 && forall x :: x in home ==> home[x] >= 1
    ensures AllCovered(Home(home, item, q), marks, cp)
  {}

  lemma PostsGrow(log: Log, log': Log, posted: map<string, int>, cp: int)
    requires PostsInv(log, posted, cp) && forall x :: x in log ==> x in log' && log'[x] == log[x]
    ensures PostsInv(log', posted, cp)
  {}

  lemma EnterLog(w: Work, id: Id, a: Adm, base: map<string, int>, home: map<(string, int), int>)
    requires LogInv(w.tracker, w.log, base, home, w.exec.Keys) && a.stage.Ledgered?
    requires a.stage.sq >= 1 && a.stage.sq >= w.tracker.committedPtr
    requires id.Emission? ==> id.node != "" && id.node in base && id.node in w.tracker.srcs
                              && id.srcSeq >= 1 && (id.node, id.srcSeq) !in w.log
    requires forall x :: x in home ==> home[x] >= 1
    ensures LogInv(EnterWork(w, id, a).tracker, EnterWork(w, id, a).log, base,
                   EnterHome(home, base, id, a.stage.sq), w.exec.Keys + {a.stage.sq})
  {
    if id.Emission? {
      LiveEnters(w, id, a, base, home);
    } else {
      PlainEnters(w.tracker, w.log, base, home, w.exec.Keys, a.stage.sq, SourceOf(id));
    }
  }

  lemma LiveEnters(w: Work, id: Id, a: Adm, base: map<string, int>, home: map<(string, int), int>)
    requires LogInv(w.tracker, w.log, base, home, w.exec.Keys) && a.stage.Ledgered? && id.Emission?
    requires a.stage.sq >= 1 && a.stage.sq >= w.tracker.committedPtr
    requires id.node != "" && id.node in base && id.node in w.tracker.srcs && id.srcSeq >= 1 &&
             (id.node, id.srcSeq) !in w.log
    requires forall x :: x in home ==> home[x] >= 1
    ensures LogInv(EnterWork(w, id, a).tracker, EnterWork(w, id, a).log, base,
                   EnterHome(home, base, id, a.stage.sq), w.exec.Keys + {a.stage.sq})
  {
    var q := a.stage.sq;
    var t', log', home' := EnterWork(w, id, a).tracker, EnterWork(w, id, a).log, EnterHome(home, base, id, q);
    assert t' == Arrived(w.tracker, q, id.node, id.srcSeq);
    assert log' == w.log[(id.node, id.srcSeq) := q];
    assert Exact(t'.srcRefs, t'.srcs, log') by { ArrivedExact(w.tracker, w.log, q, id.node, id.srcSeq); }
    assert SweptIsCommitted(t'.srcRefs, log', t'.committedPtr) by {
      LiveBelow(w.tracker, w.log, q, id.node, id.srcSeq);
    }
    assert Homed(log', base, home', w.exec.Keys + {q}) by {
      EmissionHome(w, id, a, base, home);
    }
  }

  lemma EmissionHome(w: Work, id: Id, a: Adm, base: map<string, int>, home: map<(string, int), int>)
    requires Homed(w.log, base, home, w.exec.Keys) && a.stage.Ledgered? && a.stage.sq >= 1
    requires id.Emission? && id.node in base && forall x :: x in home ==> home[x] >= 1
    ensures Homed(EnterWork(w, id, a).log, base, EnterHome(home, base, id, a.stage.sq), w.exec.Keys + {a.stage.sq})
  {
    LiveHome(w.log, base, home, w.exec.Keys, a.stage.sq, id.node, id.srcSeq, EnterWork(w, id, a).log,
             EnterHome(home, base, id, a.stage.sq));
  }

  lemma PlainEnters(t: Tracker, log: Log, base: map<string, int>, home: map<(string, int), int>, known: set<int>,
                    q: int, node: string)
    requires LogInv(t, log, base, home, known)
    ensures LogInv(Arrived(t, q, node, 0), log, base, home, known + {q})
  {
    UnnumberedExact(t, log, q, node, 0);
    assert Homed(log, base, home, known + {q});
  }

  lemma EnterCovered(home: map<(string, int), int>, base: map<string, int>, id: Id, q: int, marks: map<string, int>,
                     cp: int)
    requires AllCovered(home, marks, cp) && q >= 1 && forall x :: x in home ==> home[x] >= 1
    ensures AllCovered(EnterHome(home, base, id, q), marks, cp)
    ensures forall x :: x in EnterHome(home, base, id, q) ==> EnterHome(home, base, id, q)[x] >= 1
  {
    if id.Emission? { HomeGrows(home, (id.node, BaseOf(base, id.node) + id.srcSeq), q, marks, cp); }
  }

  lemma EnterEmissions(w: Work, g: Gate, id: Id, nodes: set<string>)
    requires EmissionsInv(w.log, nodes, g.adm) && id in g.adm && g.adm[id].stage.Ledgered?
    ensures EmissionsInv(EnterWork(w, id, g.adm[id]).log, nodes, EnterGate(g, id).adm)
  {}

  /** Registration keeps the facts about the tracker, the executions and the log. */
  lemma EnterMain(s: State, id: Id)
    requires Inv(s) && s.live && id in s.r.g.adm && s.r.g.adm[id].stage.Ledgered?
    ensures var (q, w', home') := (s.r.g.adm[id].stage.sq, EnterWork(s.r.w, id, s.r.g.adm[id]),
                                   EnterHome(s.home, s.r.base, id, s.r.g.adm[id].stage.sq));
      && TrackerInv(s.d, s.past, w'.tracker, w'.exec) && Maximal(w'.tracker)
      && LogInv(w'.tracker, w'.log, s.r.base, home', w'.exec.Keys)
      && AdmInv(s.d.nextSeq, w'.tracker, w'.exec.Keys, EnterGate(s.r.g, id), s.r.replay, s.r.sourcesOn)
  {
    var (d, w, g, a) := (s.d, s.r.w, s.r.g, s.r.g.adm[id]);
    var (q, w') := (a.stage.sq, EnterWork(w, id, a));
    EnterTracker(d, s.past, w.tracker, w.exec, q, SourceOf(id), NumberOf(id), Pending(Entry(a.node, a.into)));
    assert w'.exec.Keys == w.exec.Keys + {q};
    EnterLog(w, id, a, s.r.base, s.home);
    EnterAdm(d.nextSeq, w.tracker, w.exec.Keys, g, s.r.replay, s.r.sourcesOn, id, w'.tracker);
  }

  /** Registration keeps the facts callbacks, committers and watermarks rely on. */
  lemma EnterSides(s: State, id: Id)
    requires Inv(s) && s.live && id in s.r.g.adm && s.r.g.adm[id].stage.Ledgered?
    ensures var (w', home') := (EnterWork(s.r.w, id, s.r.g.adm[id]),
                                EnterHome(s.home, s.r.base, id, s.r.g.adm[id].stage.sq));
      && AllCovered(home', s.d.marks, s.d.stored.checkpoint) && AllCovered(home', s.r.base, s.d.stored.checkpoint)
      && (forall x :: x in home' ==> home'[x] >= 1)
      && EmissionsInv(w'.log, s.r.base.Keys, EnterGate(s.r.g, id).adm)
      && CallsInv(w'.tracker, w'.log, w'.calls, w'.exec.Keys)
      && PostsInv(w'.log, s.r.posted, s.d.stored.checkpoint) && PostsInv(w'.log, s.r.inFlight, s.d.stored.checkpoint)
      && PostsInv(w'.log, s.r.owed, s.d.stored.checkpoint)
      && Slotted(w'.tracker.outstanding, w'.exec, s.r.g.acquired)
  {
    var (w, g, q) := (s.r.w, s.r.g, s.r.g.adm[id].stage.sq);
    var w' := EnterWork(w, id, g.adm[id]);
    assert w'.exec.Keys == w.exec.Keys + {q};
    EnterCovered(s.home, s.r.base, id, q, s.d.marks, s.d.stored.checkpoint);
    EnterCovered(s.home, s.r.base, id, q, s.r.base, s.d.stored.checkpoint);
    EnterEmissions(w, g, id, s.r.base.Keys);
    LogGrows(w.tracker, w'.tracker, w.log, w'.log, w.calls, w.exec.Keys, q);
    PostsGrow(w.log, w'.log, s.r.posted, s.d.stored.checkpoint);
    PostsGrow(w.log, w'.log, s.r.inFlight, s.d.stored.checkpoint);
    PostsGrow(w.log, w'.log, s.r.owed, s.d.stored.checkpoint);
  }

  lemma EnterStart(s: State, id: Id)
    requires RunInv(s) && id in s.r.g.adm && s.r.g.adm[id].stage.Ledgered?
    ensures StartInv(Enter(s, id)) && !s.r.replay.NotStarted?
    ensures Enter(s, id).past == s.past && Ahead(Enter(s, id).r.w.tracker)
    ensures Enter(s, id).r.w.tracker.committedPtr == s.r.w.tracker.committedPtr
    ensures Enter(s, id).r.w.tracker.srcs.Keys == s.r.w.tracker.srcs.Keys
  {}

  lemma RegisterKeeps(s: State, id: Id)
    requires Inv(s) && s.live && id in s.r.g.adm && s.r.g.adm[id].stage.Ledgered?
    ensures Inv(Enter(s, id))
  {
    EnterMain(s, id);
    EnterSides(s, id);
    EnterStart(s, id);
    var s' := Enter(s, id);
    SettledPrefix(s'.d, s'.past, s'.r.w.exec, s'.r.w.tracker.committedPtr, s'.d.stored.checkpoint + 1);
  }

  lemma SettledPrefix(d: Durable, past: map<int, seq<Leaf>>, exec: map<int, seq<Leaf>>, bound: int, bound': int)
    requires SettledBelow(d, past, exec, bound) && bound' <= bound
    ensures SettledBelow(d, past, exec, bound')
  {}
}
