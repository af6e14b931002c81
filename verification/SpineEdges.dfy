/**
 What becomes of every edge a message matched and of every output a transform returned, over
 whole runs. The history is read off the events, so it does not depend on how a step is
 defined to change a branch.
 */
module SpineEdges {
  import opened Commit
  import opened Persistence
  import opened Spine
  import opened SpineInvariant
  import opened SpineRuns

  // --- the history of one row in the present run ---

  /** Hits of an edge among those that matched. */
  function Hits(matched: seq<Edge>, v: Edge): nat {
    if matched == [] then 0 else (if matched[0] == v then 1 else 0) + Hits(matched[1..], v)
  }

  /** How often a step sends the message out on v: a match, or the engine's own edge into a node it enters. */
  function Sends(l: Place, e: Event, v: Edge): nat {
    match (e, l)
    case (FanOut(_, _, matched), Output(_)) => Hits(matched, v)
    case (Decode(_, _), Entry(n, into)) => if into && v == Edge(n, true) then 1 else 0
    case _ => 0
  }

  /** How often it turns a delivery on v into outputs. */
  function Uses(l: Place, e: Event, v: Edge): nat {
    match (e, l)
    case (Apply(_, _, outputs), At(via)) => if via == v && outputs > 0 then 1 else 0
    case _ => 0
  }

  /** How many messages leave node n because of it: a transform's outputs, or a message entering at a source. */
  function Makes(l: Place, e: Event, n: string): nat {
    match (e, l)
    case (Apply(_, _, outputs), At(via)) => if via.to == n then outputs else 0
    case (Decode(_, _), Entry(m, into)) => if !into && m == n then 1 else 0
    case _ => 0
  }

  /** How many are fanned out of node n. */
  function Fans(l: Place, e: Event, n: string): nat {
    match (e, l)
    case (FanOut(_, _, _), Output(m)) => if m == n then 1 else 0
    case _ => 0
  }

  /** What happened to one row since the last boot: on one edge, and at one node. */
  datatype Tally = Tally(sent: nat, used: nat, made: nat, fanned: nat)

  const Nothing := Tally(0, 0, 0, 0)

  function Counting(s: State, e: Event, q: int, v: Edge, n: string, c: Tally): Tally
    requires Enabled(s, e, true)
  {
    if e.Crash? then Nothing
    else if IsBranchEvent(e) && e.q == q then
      var l := s.r.w.exec[q][e.i].place;
      Tally(c.sent + Sends(l, e, v), c.used + Uses(l, e, v), c.made + Makes(l, e, n), c.fanned + Fans(l, e, n))
    else c
  }

  function Tallied(s: State, es: seq<Event>, q: int, v: Edge, n: string, c: Tally): Tally
    requires After(s, es, false).Some?
    decreases |es|
  {
    if es == [] then c else Tallied(Step(s, es[0]), es[1..], q, v, n, Counting(s, es[0], q, v, n, c))
  }

  // --- what a row's branches carry ---

  /** The edge a branch is on, or ended on. */
  function ViaOf(l: Leaf): Option<Edge> {
    match l
    case Pending(Handoff(v)) => Some(v)
    case Pending(At(v)) => Some(v)
    case Pending(Written(v)) => Some(v)
    case Pending(Recorded(_, from)) => from
    case Pending(Stranded(from)) => from
    case Ended(Acked(v)) => Some(v)
    case Ended(DeadLettered(_, from)) => from
    case Ended(Filtered(NoOutput(v))) => Some(v)
    case Ended(Dropped(v)) => Some(v)
    case _ => None
  }

  function Carrying(ls: seq<Leaf>, v: Edge): nat {
    if ls == [] then 0 else (if ViaOf(ls[0]) == Some(v) then 1 else 0) + Carrying(ls[1..], v)
  }

  /** Branches waiting for node n's edges to be evaluated. */
  function Waiting(ls: seq<Leaf>, n: string): nat {
    if ls == [] then 0 else (if ls[0] == Pending(Output(n)) then 1 else 0) + Waiting(ls[1..], n)
  }

  lemma {:induction false} SumConcat(a: seq<Leaf>, b: seq<Leaf>, v: Edge, n: string)
    ensures Carrying(a + b, v) == Carrying(a, v) + Carrying(b, v) && Waiting(a + b, n) == Waiting(a, n) + Waiting(b, n)
  {
    if a == [] {
      assert a + b == b;
    } else {
      assert (a + b)[1..] == a[1..] + b;
      SumConcat(a[1..], b, v, n);
    }
  }

  lemma SumReplace(ls: seq<Leaf>, i: nat, news: seq<Leaf>, v: Edge, n: string)
    requires i < |ls|
    ensures Carrying(Replace(ls, i, news), v) + Carrying([ls[i]], v) == Carrying(ls, v) + Carrying(news, v)
    ensures Waiting(Replace(ls, i, news), n) + Waiting([ls[i]], n) == Waiting(ls, n) + Waiting(news, n)
  {
    assert ls == ls[..i] + ([ls[i]] + ls[i + 1..]);
    SumConcat(ls[..i], [ls[i]] + ls[i + 1..], v, n);
    SumConcat([ls[i]], ls[i + 1..], v, n);
    SumConcat(ls[..i] + news, ls[i + 1..], v, n);
    SumConcat(ls[..i], news, v, n);
  }

  lemma SumOne(l: Leaf, v: Edge, n: string)
    ensures Carrying([l], v) == (if ViaOf(l) == Some(v) then 1 else 0)
    ensures Waiting([l], n) == (if l == Pending(Output(n)) then 1 else 0)
  {
    assert [l][1..] == [];
  }

  lemma {:induction false} SumMatched(matched: seq<Edge>, news: seq<Leaf>, v: Edge, n: string)
    requires |news| == |matched| && forall k :: 0 <= k < |news| ==> news[k] == Pending(Handoff(matched[k]))
    ensures Carrying(news, v) == Hits(matched, v) && Waiting(news, n) == 0
  {
    if matched != [] { SumMatched(matched[1..], news[1..], v, n); }
  }

  lemma {:induction false} SumRepeat(ls: seq<Leaf>, m: string, v: Edge, n: string)
    requires forall k :: 0 <= k < |ls| ==> ls[k] == Pending(Output(m))
    ensures Carrying(ls, v) == 0 && Waiting(ls, n) == if m == n then |ls| else 0
  {
    if ls != [] { SumRepeat(ls[1..], m, v, n); }
  }

  // --- what may happen to a branch ---

  /**
   At a sink an instance can be acknowledged or dead-lettered, and dropped exactly when its
   edge is optional; at a transform it can be applied with any number of outputs or
   dead-lettered; a message can enter or be dead-lettered; what left a node can be fanned
   out over any of that node's edges or over none.
   */
  lemma BranchOffers(p: Pipe, v: Edge, n: string, into: bool, matched: seq<Edge>, q: int, i: nat, k: nat)
    ensures IsNode(p, v.to, Sink) ==>
      && Turned(p, At(v), SinkWrite(q, i)).Some? && Turned(p, At(v), Record(q, i, k)).Some?
      && (Turned(p, At(v), Drop(q, i)).Some? <==> !v.required) && Turned(p, At(v), Apply(q, i, k)).None?
    ensures IsNode(p, v.to, Transform) ==>
      && Turned(p, At(v), Apply(q, i, k)).Some? && Turned(p, At(v), Record(q, i, k)).Some?
      && Turned(p, At(v), Drop(q, i)).None? && Turned(p, At(v), SinkWrite(q, i)).None?
    ensures Turned(p, Entry(n, into), Decode(q, i)).Some? && Turned(p, Entry(n, into), Record(q, i, k)).Some?
    ensures Turned(p, Output(n), FanOut(q, i, matched)).Some? <==>
              matched == [] || (n in p.out && forall m :: m in matched ==> m in p.out[n])
  {}

  // --- each step balances ---

  /** A branch step passes its edge on, uses it up or ends it; outputs wait or are fanned out. */
  lemma TurnedBalances(p: Pipe, l: Place, e: Event, v: Edge, n: string)
    requires IsBranchEvent(e) && Turned(p, l, e).Some?
    ensures var news := Turned(p, l, e).value.0;
      && Sends(l, e, v) + Carrying([Pending(l)], v) == Uses(l, e, v) + Carrying(news, v)
      && Makes(l, e, n) + Waiting([Pending(l)], n) == Fans(l, e, n) + Waiting(news, n)
  {
    var news := Turned(p, l, e).value.0;
    SumOne(Pending(l), v, n);
    if e.FanOut? && e.matched != [] {
      SumMatched(e.matched, news, v, n);
    } else if e.Apply? && e.outputs > 0 {
      SumRepeat(news, l.via.to, v, n);
    } else {
      assert |news| == 1;
      SumOne(news[0], v, n);
      assert news == [news[0]];
    }
  }

  function LeavesOf(s: State, q: int): seq<Leaf> { if s.live && q in s.r.w.exec then s.r.w.exec[q] else [] }

  ghost predicate Balanced(s: State, q: int, v: Edge, n: string, c: Tally) {
    && c.sent == c.used + Carrying(LeavesOf(s, q), v)
    && c.made == c.fanned + Waiting(LeavesOf(s, q), n)
  }

  /** One row's branches, when one of them turns into others. */
  lemma LeavesBalance(p: Pipe, ls: seq<Leaf>, i: nat, e: Event, v: Edge, n: string)
    requires i < |ls| && ls[i].Pending? && IsBranchEvent(e) && Turned(p, ls[i].place, e).Some?
    ensures var l, ls' := ls[i].place, Replace(ls, i, Turned(p, ls[i].place, e).value.0);
      && Sends(l, e, v) + Carrying(ls, v) == Uses(l, e, v) + Carrying(ls', v)
      && Makes(l, e, n) + Waiting(ls, n) == Fans(l, e, n) + Waiting(ls', n)
  {
    assert ls[i] == Pending(ls[i].place);
    TurnedBalances(p, ls[i].place, e, v, n);
    SumReplace(ls, i, Turned(p, ls[i].place, e).value.0, v, n);
  }

  lemma BranchLeaves(s: State, e: Event, q: int)
    requires s.live && IsBranchEvent(e) && BranchEnabled(s, e)
    ensures BranchStep(s, e).live
    ensures var ls := s.r.w.exec[e.q];
      LeavesOf(BranchStep(s, e), q) ==
      if e.q == q then Replace(ls, e.i, Turned(s.r.pipe, ls[e.i].place, e).value.0) else LeavesOf(s, q)
  {}

  lemma BranchBalances(s: State, e: Event, q: int, v: Edge, n: string, c: Tally)
    requires s.live && IsBranchEvent(e) && BranchEnabled(s, e) && Enabled(s, e, true) && Balanced(s, q, v, n, c)
    ensures Balanced(BranchStep(s, e), q, v, n, Counting(s, e, q, v, n, c))
  {
    BranchLeaves(s, e, q);
    if e.q == q { LeavesBalance(s.r.pipe, s.r.w.exec[q], e.i, e, v, n); }
  }

  /** A row that is registered brings one branch, on no edge and waiting at no node. */
  lemma StartBalances(s: State, s': State, k: int, l: Leaf, q: int, v: Edge, n: string, c: Tally)
    requires s.live && s'.live && k !in s.r.w.exec && s'.r.w.exec == s.r.w.exec[k := [l]]
    requires Balanced(s, q, v, n, c) && ViaOf(l) == None && !(l.Pending? && l.place.Output?)
    ensures Balanced(s', q, v, n, c)
  {
    SumOne(l, v, n);
  }

  lemma AdmissionLeaves(s: State, e: Event, q: int)
    requires s.live && IsAdmission(e) && AdmissionEnabled(s, e, true) && !e.Register?
    ensures LeavesOf(AdmissionStep(s, e), q) == LeavesOf(s, q)
  {}

  lemma ControlLeaves(s: State, e: Event, q: int)
    requires !IsAdmission(e) && !IsBranchEvent(e) && ControlEnabled(s, e) && !e.ReplayOrphan? && !e.Crash?
    ensures LeavesOf(ControlStep(s, e), q) == LeavesOf(s, q)
  {}

  lemma StepBalances(s: State, e: Event, q: int, v: Edge, n: string, c: Tally)
    requires Inv(s) && Enabled(s, e, true) && Balanced(s, q, v, n, c)
    ensures Balanced(Step(s, e), q, v, n, Counting(s, e, q, v, n, c))
  {
    if IsBranchEvent(e) {
      BranchBalances(s, e, q, v, n, c);
    } else if e.Register? {
      RegisterBalances(s, e.id, q, v, n, c);
    } else if IsAdmission(e) {
      AdmissionLeaves(s, e, q);
    } else if e.ReplayOrphan? {
      OrphanBalances(s, e.q, q, v, n, c);
    } else if !e.Crash? {
      ControlLeaves(s, e, q);
    }
  }

  lemma RegisterBalances(s: State, id: Id, q: int, v: Edge, n: string, c: Tally)
    requires Inv(s) && s.live && id in s.r.g.adm && s.r.g.adm[id].stage.Ledgered? && Balanced(s, q, v, n, c)
    ensures Balanced(Enter(s, id), q, v, n, c)
  {
    var a := s.r.g.adm[id];
    FreshLeaves(s, a.stage.sq);
    StartBalances(s, Enter(s, id), a.stage.sq, Pending(Entry(a.node, a.into)), q, v, n, c);
  }

  lemma OrphanBalances(s: State, k: int, q: int, v: Edge, n: string, c: Tally)
    requires Inv(s) && s.live && ControlEnabled(s, ReplayOrphan(k)) && Balanced(s, q, v, n, c)
    ensures Balanced(ControlStep(s, ReplayOrphan(k)), q, v, n, c)
  {
    assert Unscanned(s.r.replay, k);
    FreshLeaves(s, k);
    StartBalances(s, ControlStep(s, ReplayOrphan(k)), k, Pending(Unroutable), q, v, n, c);
  }

  lemma FreshLeaves(s: State, q: int)
    requires Inv(s) && s.live && (q in s.r.g.hands || Unscanned(s.r.replay, q))
    ensures q !in s.r.w.exec && forall l :: Started(s.r.w.exec, q, l) == s.r.w.exec[q := [l]]
  {
    forall l ensures Started(s.r.w.exec, q, l) == s.r.w.exec[q := [l]] { assert [] + [l] == [l]; }
  }

  lemma {:induction false} RunBalances(s: State, es: seq<Event>, s': State, q: int, v: Edge, n: string, c: Tally)
    requires Inv(s) && After(s, es, false) == Some(s') && Balanced(s, q, v, n, c)
    ensures Balanced(s', q, v, n, Tallied(s, es, q, v, n, c))
    decreases |es|
  {
    if es != [] {
      LateIsEnabled(s, es[0]);
      StepKeeps(s, es[0]);
      StepBalances(s, es[0], q, v, n, c);
      RunBalances(Step(s, es[0]), es[1..], s', q, v, n, Counting(s, es[0], q, v, n, c));
    }
  }

  // --- the theorems ---

  /**
   In every reachable state, each time a message was sent out on an edge it either was
   turned into outputs at the far end, or one branch of the message is on that edge or
   ended on it; and each message that left a node was fanned out there or still waits for it.
   */
  lemma EdgesAreCarried(es: seq<Event>, s: State, q: int, v: Edge, n: string)
    requires Leads(es, false, s)
    ensures var c := Tallied(Init, es, q, v, n, Nothing);
      c.sent == c.used + Carrying(LeavesOf(s, q), v) && c.made == c.fanned + Waiting(LeavesOf(s, q), n)
  {
    RunBalances(Init, es, s, q, v, n, Nothing);
  }

  /**
   How a branch sent out on v may end: acknowledged by the sink v leads to, recorded as a
   durable dead letter, filtered by the transform v leads to, or, on an optional edge only,
   dropped.
   */
  predicate EndsWell(d: Durable, q: int, v: Edge, l: Leaf) {
    || (l == Ended(Acked(v)) && (q, v.to) in d.acked)
    || (l.Ended? && l.outcome.DeadLettered? && l.outcome.id in d.records && d.records[l.outcome.id] == q)
    || (l == Ended(Filtered(NoOutput(v))) && (q, NoOutput(v)) in d.verdicts)
    || (l == Ended(Dropped(v)) && !v.required)
  }

  /**
   Once no branch of a row is open, every time it was sent out on an edge has a transform's
   outputs or one such ending to show, and nothing waits to be fanned out: what was sent out
   on a required edge was never dropped.
   */
  lemma SentBranchesEndWell(es: seq<Event>, s: State, q: int, v: Edge, n: string)
    requires Leads(es, false, s) && s.live && q in s.r.w.exec && Open(s.r.w.exec[q]) == 0
    ensures var c := Tallied(Init, es, q, v, n, Nothing);
      c.sent == c.used + Carrying(s.r.w.exec[q], v) && c.made == c.fanned
    ensures forall i :: 0 <= i < |s.r.w.exec[q]| && ViaOf(s.r.w.exec[q][i]) == Some(v) ==>
              EndsWell(s.d, q, v, s.r.w.exec[q][i])
  {
    var ls := s.r.w.exec[q];
    EdgesAreCarried(es, s, q, v, n);
    ReachableInv(es, s);
    OpenNone(ls);
    NoneWaiting(ls, n);
    assert AllBacked(s.d, q, ls);
    forall i | 0 <= i < |ls| && ViaOf(ls[i]) == Some(v) ensures EndsWell(s.d, q, v, ls[i]) {
      assert Backed(s.d, q, ls[i]);
    }
  }

  lemma {:induction false} NoneWaiting(ls: seq<Leaf>, n: string)
    requires forall i :: 0 <= i < |ls| ==> ls[i].Ended?
    ensures Waiting(ls, n) == 0
  {
    if ls != [] { NoneWaiting(ls[1..], n); }
  }
}
