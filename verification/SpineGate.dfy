/**
 The admission gate never wedges when injections wait for replay: with every slot taken,
 something the engine does by itself is enabled that works towards giving one back.
 */
module SpineGate {
  import opened Commit
  import opened Persistence
  import opened Spine
  import opened SpineInvariant
  import opened SpineSteps
  import opened SpineRuns

  /** Steps that move a message or its slot along. */
  predicate MovesOn(e: Event) {
    || (IsBranchEvent(e) && !e.Strand?)
    || e.Append? || e.Acquire? || e.Register? || e.RunRelease? || e.FreeSlot?
  }

  // --- what keeps a slot has an owner that will give it back ---

  /** A ledger entry is in an admission's hands, or registered, or its release is owed. */
  ghost predicate Owned(g: Gate, t: Tracker, calls: multiset<Call>) {
    forall q :: q in g.acquired ==> q in g.hands || q in t.outstanding || Call.Release(q) in calls
  }

  predicate IsStranded(l: Leaf) { l.Pending? && l.place.Stranded? }

  /** Branches are given up only once the run is stopping, and replay is cut short only then. */
  ghost predicate NoneStranded(exec: map<int, seq<Leaf>>) {
    forall q, i :: q in exec && 0 <= i < |exec[q]| ==> !IsStranded(exec[q][i])
  }

  ghost predicate Going(r: Run) {
    && r.g.limit > 0 && Owned(r.g, r.w.tracker, r.w.calls)
    && (!r.stopping ==> NoneStranded(r.w.exec) && !r.replay.Stopped?)
  }

  ghost predicate Flows(s: State) { s.live ==> Going(s.r) }

  lemma {:induction false} ReleasesAll(qs: seq<int>)
    ensures forall q :: q in qs ==> Call.Release(q) in Releases(qs)
  {
    if qs != [] { ReleasesAll(qs[1..]); }
  }

  /** What leaves the tracker in an advance has its release owed. */
  lemma AdvanceOwns(g: Gate, t: Tracker, calls: multiset<Call>)
    requires Owned(g, t, calls) && Commit.Valid(t)
    ensures Owned(g, Advance(t).0, calls + Owed(Advance(t).1))
  {
    AdvanceKeeps(t);
    AdvanceFields(t);
    ReleasesAll(Advance(t).1.justCommit);
  }

  lemma AddOwns(g: Gate, t: Tracker, calls: multiset<Call>, q: int, delta: int)
    requires Owned(g, t, calls) && Commit.Valid(t) && Ahead(t)
    ensures var a := Add(t, q, delta); Owned(g, a.0, calls + Owed(a.1))
  {
    if q in t.outstanding {
      RecountKeeps(t, q, t.outstanding[q] + delta);
      AdvanceOwns(g, Counted(t, q, delta), calls);
    }
  }

  lemma ForceOwns(s: State, q: int)
    requires Commit.Valid(s.r.w.tracker) && Owned(s.r.g, s.r.w.tracker, s.r.w.calls)
    ensures Owned(Forced(s, q).r.g, Forced(s, q).r.w.tracker, Forced(s, q).r.w.calls)
  {
    var t := s.r.w.tracker;
    if q in t.outstanding {
      UnlistKeeps(t, q);
      assert Owned(s.r.g.(acquired := s.r.g.acquired - {q}), Unlist(t, q), s.r.w.calls);
      AdvanceOwns(s.r.g.(acquired := s.r.g.acquired - {q}), Unlist(t, q), s.r.w.calls);
    }
  }

  lemma BranchFlows(s: State, e: Event)
    requires Inv(s) && s.live && IsBranchEvent(e) && BranchEnabled(s, e) && Going(s.r)
    ensures Going(BranchStep(s, e).r)
  {
    var (news, counted) := Turned(s.r.pipe, s.r.w.exec[e.q][e.i].place, e).value;
    BranchOwns(s.r.g, s.r.w, e.q, e.i, news, counted);
    BranchUnstranded(s, e);
  }

  lemma BranchOwns(g: Gate, w: Work, q: int, i: nat, news: seq<Leaf>, counted: bool)
    requires Owned(g, w.tracker, w.calls) && Commit.Valid(w.tracker) && Ahead(w.tracker) && HasBranch(w, q, i)
    ensures var w' := Branch(w, q, i, news, counted); Owned(g, w'.tracker, w'.calls)
  {
    AddOwns(g, w.tracker, w.calls, q, Open(news) - 1);
  }

  lemma BranchUnstranded(s: State, e: Event)
    requires IsBranchEvent(e) && BranchEnabled(s, e) && (!s.r.stopping ==> NoneStranded(s.r.w.exec))
    ensures !s.r.stopping ==> NoneStranded(BranchStep(s, e).r.w.exec)
  {
    if !s.r.stopping {
      var l := s.r.w.exec[e.q][e.i].place;
      TurnedUnstranded(s.r.pipe, l, e);
      ReplaceUnstranded(s.r.w.exec, e.q, e.i, Turned(s.r.pipe, l, e).value.0);
    }
  }

  lemma TurnedUnstranded(p: Pipe, l: Place, e: Event)
    requires IsBranchEvent(e) && !e.Strand? && Turned(p, l, e).Some?
    ensures var news := Turned(p, l, e).value.0; forall k :: 0 <= k < |news| ==> !IsStranded(news[k])
  {}

  lemma ReplaceUnstranded(exec: map<int, seq<Leaf>>, q: int, i: nat, news: seq<Leaf>)
    requires NoneStranded(exec) && q in exec && i < |exec[q]|
    requires forall k :: 0 <= k < |news| ==> !IsStranded(news[k])
    ensures NoneStranded(exec[q := Replace(exec[q], i, news)])
  {}

  lemma AdmissionOwns(d: Durable, t: Tracker, known: set<int>, g: Gate, g': Gate, replay: Replay, on: bool,
                      calls: multiset<Call>)
    requires AdmInv(d.nextSeq, t, known, g, replay, on) && Owned(g, t, calls)
    requires forall q :: q in g'.acquired ==> q in g.acquired || q in g.hands
    requires forall q :: q in g.hands ==> q in g'.hands
    ensures Owned(g', t, calls)
  {}

  lemma RegisterFlows(s: State, id: Id)
    requires s.live && id in s.r.g.adm && s.r.g.adm[id].stage.Ledgered? && Going(s.r)
    ensures Going(Enter(s, id).r)
  {
    var a := s.r.g.adm[id];
    var w' := EnterWork(s.r.w, id, a);
    assert forall q :: q in s.r.w.tracker.outstanding || q == a.stage.sq ==> q in w'.tracker.outstanding;
  }

  lemma AdmissionFlows(s: State, e: Event)
    requires Inv(s) && s.live && IsAdmission(e) && AdmissionEnabled(s, e, true) && Going(s.r)
    ensures Going(AdmissionStep(s, e).r)
  {
    if e.Register? {
      RegisterFlows(s, e.id);
    } else {
      AdmissionKeepsGoing(s, e);
    }
  }

  lemma AdmissionKeepsGoing(s: State, e: Event)
    requires Inv(s) && s.live && IsAdmission(e) && AdmissionEnabled(s, e, true) && Going(s.r) && !e.Register?
    ensures Going(AdmissionStep(s, e).r)
  {
    AdmissionOwns(s.d, s.r.w.tracker, s.r.w.exec.Keys, s.r.g, AdmissionStep(s, e).r.g, s.r.replay, s.r.sourcesOn,
                  s.r.w.calls);
  }

  predicate IsCall(e: Event) { e.RunRelease? || e.FlushCheckpoint? || e.CancelForce? }

  lemma CallFlows(s: State, e: Event)
    requires Commit.Valid(s.r.w.tracker) && s.live && IsCall(e) && ControlEnabled(s, e) && Going(s.r)
    ensures Going(ControlStep(s, e).r)
  {
    if e.CancelForce? { ForceOwns(s, e.q); }
  }

  lemma ControlFlows(s: State, e: Event)
    requires s.live && !IsAdmission(e) && !IsBranchEvent(e) && ControlEnabled(s, e) && Going(s.r)
    requires !e.Crash? && !IsCall(e)
    ensures Going(ControlStep(s, e).r)
  {}

  lemma StepFlows(s: State, e: Event)
    requires Enabled(s, e, true) && Inv(s) && Flows(s)
    ensures Flows(Step(s, e))
  {
    if IsBranchEvent(e) { BranchFlows(s, e); }
    else if IsAdmission(e) { AdmissionFlows(s, e); }
    else if IsCall(e) { CallFlows(s, e); }
    else if s.live && !e.Crash? { ControlFlows(s, e); }
  }

  lemma {:induction false} RunFlows(s: State, es: seq<Event>, s': State)
    requires Inv(s) && After(s, es, false) == Some(s') && Flows(s)
    ensures Flows(s')
    decreases |es|
  {
    if es != [] {
      LateIsEnabled(s, es[0]);
      StepKeeps(s, es[0]);
      StepFlows(s, es[0]);
      RunFlows(Step(s, es[0]), es[1..], s');
    }
  }

  // --- progress ---

  lemma {:induction false} Unused(ids: set<nat>) returns (n: nat)
    ensures forall x :: x in ids ==> x < n
  {
    if ids == {} { return 0; }
    var x :| x in ids;
    n := Unused(ids - {x});
    assert forall y :: y in ids ==> y == x || y in ids - {x};
    if x >= n { n := x + 1; }
  }

  /** An open branch can be moved on. */
  lemma BranchMovesOn(s: State, q: int, i: nat) returns (e: Event)
    requires s.live && HasBranch(s.r.w, q, i) && !IsStranded(s.r.w.exec[q][i])
    ensures MovesOn(e) && Enabled(s, e, false)
  {
    match s.r.w.exec[q][i].place
    case Entry(_, _) => e := Decode(q, i);
    case Output(_) => e := FanOut(q, i, []);
    case Handoff(_) => e := HandOver(q, i);
    case At(v) =>
      if IsNode(s.r.pipe, v.to, Transform) { return Apply(q, i, 1); }
      if IsNode(s.r.pipe, v.to, Sink) { return SinkWrite(q, i); }
      var id := Unused(s.d.records.Keys);
      e := Record(q, i, id);
    case _ => e := Count(q, i);
  }

  lemma {:induction false} OpenBranch(ls: seq<Leaf>) returns (i: nat)
    requires Open(ls) > 0
    ensures i < |ls| && ls[i].Pending?
  {
    if ls[0].Pending? { return 0; }
    i := OpenBranch(ls[1..]);
    i := i + 1;
  }

  lemma InHandMovesOn(s: State, q: int) returns (e: Event)
    requires Inv(s) && s.live && q in s.r.g.hands
    ensures MovesOn(e) && Enabled(s, e, false)
  {
    var id := s.r.g.hands[q];
    assert Holds(s.r.g.adm[id], q);
    e := if s.r.g.adm[id].stage.Spooled? then Acquire(id) else Register(id);
  }

  /** While anything is registered, the lowest row beyond the prefix can be moved on. */
  lemma LowestMovesOn(s: State, q: int) returns (e: Event)
    requires Inv(s) && s.live && Going(s.r) && !s.r.stopping && q in s.r.w.tracker.outstanding
    ensures MovesOn(e) && Enabled(s, e, false)
  {
    var (t, ptr) := (s.r.w.tracker, s.r.w.tracker.committedPtr);
    assert ptr <= q <= t.arrivedMax && !Passable(t, ptr) && !Unscanned(s.r.replay, q);
    if ptr in t.outstanding {
      var i := OpenBranch(s.r.w.exec[ptr]);
      e := BranchMovesOn(s, ptr, i);
    } else {
      assert ptr in s.r.g.hands;
      e := InHandMovesOn(s, ptr);
    }
  }

  /**
   With every slot taken and no stop asked for, in any phase of any run whose injections
   wait for replay, some step that moves a message or its slot along is enabled: a row that
   replay has to admit waits for work that can go on.
   */
  lemma GateNeverWedges(es: seq<Event>, s: State) returns (e: Event)
    requires Leads(es, false, s) && s.live && !s.r.stopping && s.r.g.taken == s.r.g.limit
    ensures MovesOn(e) && Enabled(s, e, false)
  {
    ReachableInv(es, s);
    RunFlows(Init, es, s);
    e := FullMovesOn(s);
  }

  lemma FullMovesOn(s: State) returns (e: Event)
    requires Inv(s) && s.live && Going(s.r) && !s.r.stopping && s.r.g.taken == s.r.g.limit
    ensures MovesOn(e) && Enabled(s, e, false)
  {
    var g := s.r.g;
    SomeoneHolds(s.d.nextSeq, g);
    if g.freeing > 0 {
      e := FreeSlot;
    } else if id :| id in Holders(g.adm) {
      e := if g.adm[id].stage.Holding? then Append(id) else Acquire(id);
    } else if q :| q in g.acquired {
      e := LedgerMovesOn(s, q);
    } else {
      assert false;
    }
  }

  lemma SomeoneHolds(nextSeq: int, g: Gate)
    requires GateInv(nextSeq, g) && g.taken == g.limit > 0
    ensures g.taken > 0 && (g.freeing > 0 || (exists id :: id in Holders(g.adm)) || exists q :: q in g.acquired)
  {
    if |Holders(g.adm)| > 0 {
      var id := Member(Holders(g.adm));
    } else if |g.acquired| > 0 {
      var q := Member(g.acquired);
    }
  }

  lemma Member<T>(s: set<T>) returns (x: T)
    requires |s| > 0
    ensures x in s
  {
    x :| x in s;
  }

  lemma LedgerMovesOn(s: State, q: int) returns (e: Event)
    requires Inv(s) && s.live && Going(s.r) && !s.r.stopping && q in s.r.g.acquired
    ensures MovesOn(e) && Enabled(s, e, false)
  {
    if q in s.r.g.hands {
      e := InHandMovesOn(s, q);
    } else if Call.Release(q) in s.r.w.calls {
      e := RunRelease(q);
    } else {
      e := LowestMovesOn(s, q);
    }
  }
}
