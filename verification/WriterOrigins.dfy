/**
 Where each value the writer stored came from: the successful requests for its key, and the
 batch that was drained with the earliest of those at the largest frontier.
 */
module WriterOrigins {
  import opened GroupCommit
  import opened GroupStore
  import opened GroupEquivalence
  import opened WriterRuns

  /** Answered with success, or about to be. */
  predicate Nilled(s: State, r: Req) {
    (r, true) in s.verdicts || (s.phase.Resolving? && s.phase.ok && r in s.phase.todo)
  }

  function NilledOf(s: State, rs: seq<Req>): seq<Req> {
    if rs == [] then []
    else NilledOf(s, rs[..|rs| - 1]) + (if Nilled(s, rs[|rs| - 1]) then [rs[|rs| - 1]] else [])
  }

  /** The successful requests in the order they were accepted. */
  function Succeeded(s: State): seq<Req> { NilledOf(s, s.accepted) }

  lemma {:induction false} NilledMembers(s: State, rs: seq<Req>)
    ensures forall r :: r in NilledOf(s, rs) <==> r in rs && Nilled(s, r)
  {
    if rs != [] {
      NilledMembers(s, rs[..|rs| - 1]);
      assert rs == rs[..|rs| - 1] + [rs[|rs| - 1]];
    }
  }

  lemma NilledAccepted(base: Db, maxRows: int, es: seq<Event>, s: State, r: Req)
    requires Opens(base, maxRows, es, s) && Nilled(s, r)
    ensures r in s.accepted
  {
    CopiesOnce(base, maxRows, es, s, r);
    AnsweredHas(s.verdicts, r);
    TimesSome(Answered(s.verdicts), r);
    if s.phase.Resolving? { TimesSome(s.phase.todo, r); }
  }

  lemma NilledLanded(s: State, r: Req)
    requires Inv(s) && Nilled(s, r)
    ensures Landed(s.st, r)
  {
    if (r, true) in s.verdicts { var i :| 0 <= i < |s.verdicts| && s.verdicts[i] == (r, true); }
  }

  // --- the batches of a run ---

  function Drains(s: State, e: Event): seq<seq<Req>>
    requires Enabled(s, e)
  {
    if e.PlanBatch? then [s.phase.held] else []
  }

  /** The batches planned during a run, in order. */
  function Batches(s: State, es: seq<Event>): seq<seq<Req>>
    requires After(s, es).Reached?
    decreases |es|
  {
    if es == [] then [] else Drains(s, es[0]) + Batches(Step(s, es[0]), es[1..])
  }

  ghost predicate Before(xs: seq<Req>, ys: seq<Req>) { forall x, y :: x in xs && y in ys ==> x.id < y.id }

  ghost predicate InTurn(bs: seq<seq<Req>>) { forall i, j :: 0 <= i < j < |bs| ==> Before(bs[i], bs[j]) }

  function Held(p: Phase): seq<Req> { if p.Collecting? then p.held else [] }

  ghost predicate Below(xs: seq<Req>, bound: int) { forall x :: x in xs ==> x.id < bound }

  /** Batches are drained in accept order. */
  ghost predicate Ordered(s: State, bs: seq<seq<Req>>) {
    && InTurn(bs) && Before(Held(s.phase), s.queue)
    && (forall i :: 0 <= i < |bs| ==> Before(bs[i], Held(s.phase)) && Before(bs[i], s.queue))
    && (forall i :: 0 <= i < |bs| ==> Below(bs[i], |s.accepted|))
    && Below(Held(s.phase), |s.accepted|) && Below(s.queue, |s.accepted|)
  }

  lemma OrderKeeps(s: State, bs: seq<seq<Req>>, e: Event)
    requires Enabled(s, e) && Ordered(s, bs)
    ensures Ordered(Step(s, e), bs + Drains(s, e))
  {
    if e.PlanBatch? {
      PlannedInTurn(bs, s.phase.held);
    } else {
      assert bs + [] == bs;
      QueueKeeps(s, bs, e);
    }
  }

  lemma PlannedInTurn(bs: seq<seq<Req>>, held: seq<Req>)
    requires InTurn(bs) && forall i :: 0 <= i < |bs| ==> Before(bs[i], held)
    ensures InTurn(bs + [held])
  {}

  lemma QueueKeeps(s: State, bs: seq<seq<Req>>, e: Event)
    requires Enabled(s, e) && Ordered(s, bs) && !e.PlanBatch?
    ensures Ordered(Step(s, e), bs)
  {}

  /** The entry is covered already, or is what its key's requests of the batch fold into. */
  ghost predicate Rich(e: Entry, b: seq<Req>, marks: map<Key, int>) { e.rank <= Mark(marks, e.key) || Fits(e, b) }

  ghost predicate AllRich(es: seq<Entry>, b: seq<Req>, marks: map<Key, int>) {
    forall i :: 0 <= i < |es| ==> Rich(es[i], b, marks)
  }

  ghost predicate RichGroup(g: Group, b: seq<Req>, marks: map<Key, int>) {
    && AllRich(g.stmts.checkpoints, b, marks) && AllRich(g.stmts.sourceStates, b, marks)
    && forall r :: r in GroupReqs(g) ==> r in b
  }

  ghost predicate RichGroups(gs: seq<Group>, b: seq<Req>, marks: map<Key, int>) {
    forall i :: 0 <= i < |gs| ==> RichGroup(gs[i], b, marks)
  }

  ghost predicate RichPhase(p: Phase, bs: seq<seq<Req>>, marks: map<Key, int>) {
    p.Executing? || p.InTx? || p.Resolving? ==>
      && bs != []
      && (p.InTx? ==> RichGroup(p.g, bs[|bs| - 1], marks))
      && RichGroups(p.groups, bs[|bs| - 1], marks)
  }

  // --- the origin of a stored value ---

  /** The pair of the latest request with the largest rank. */
  ghost predicate Won(v: Value, ws: seq<Req>) {
    exists j: nat :: Wins(ws, j) && v == Value(RankOf(ws[j]), StateOf(ws[j]))
  }

  /**
   The key's value was folded from batch b, whose requests for it all succeeded, and no
   request accepted before b succeeded with the same frontier.
   */
  ghost predicate Origin(s: State, k: Key, b: seq<Req>)
    requires k in s.st.db.values
  {
    && Won(s.st.db.values[k], OfKey(b, k))
    && (forall w :: w in OfKey(b, k) ==> Nilled(s, w))
    && forall r :: Peer(s, k, r) ==> r in b || Before(b, [r])
  }

  /** A success that reached the stored frontier. */
  ghost predicate Peer(s: State, k: Key, r: Req)
    requires k in s.st.db.values
  {
    Nilled(s, r) && IsUpsert(r) && KeyOf(r) == k && RankOf(r) == s.st.db.values[k].rank
  }

  ghost predicate Stems(s: State, bs: seq<seq<Req>>, k: Key) {
    k in s.st.db.values && exists b :: b in bs && Origin(s, k, b)
  }

  ghost predicate Stemmed(s: State, bs: seq<seq<Req>>) { forall k :: k in s.st.marks ==> Stems(s, bs, k) }

  /** Keys without a mark hold what the store was opened with. */
  ghost predicate Untouched(base: Db, st: Store) {
    forall k :: k !in st.marks ==> CellOf(st.db.values, st.marks, k) == CellOf(base.values, map[], k)
  }

  /** Rows from before the store was opened go only by an executed sweep. */
  ghost predicate OldRowsKept(base: Db, db: Db) {
    && db.first == base.first
    && forall q :: q < base.first ==> SlotOf(db.spool, q) == Survives(SlotOf(base.spool, q), db.others, q)
  }

  ghost predicate Traced(base: Db, s: State, bs: seq<seq<Req>>) {
    && RichPhase(s.phase, bs, s.st.marks) && Ordered(s, bs) && Stemmed(s, bs)
    && Untouched(base, s.st) && OldRowsKept(base, s.st.db)
  }

  // --- planning and unlinking ---

  lemma EntriesGrow(es: seq<Entry>, b: seq<Req>, marks: map<Key, int>, marks': map<Key, int>)
    requires AllRich(es, b, marks) && forall k :: Mark(marks, k) <= Mark(marks', k)
    ensures AllRich(es, b, marks')
  {
    forall i | 0 <= i < |es| ensures Rich(es[i], b, marks') { assert Rich(es[i], b, marks); }
  }

  lemma GroupsGrow(gs: seq<Group>, b: seq<Req>, marks: map<Key, int>, marks': map<Key, int>)
    requires RichGroups(gs, b, marks) && forall k :: Mark(marks, k) <= Mark(marks', k)
    ensures RichGroups(gs, b, marks')
  {
    forall i | 0 <= i < |gs| ensures RichGroup(gs[i], b, marks') {
      assert RichGroup(gs[i], b, marks);
      EntriesGrow(gs[i].stmts.checkpoints, b, marks, marks');
      EntriesGrow(gs[i].stmts.sourceStates, b, marks, marks');
    }
  }

  lemma {:induction false} UnlinkRich(es: seq<Entry>, b: seq<Req>, marks: map<Key, int>)
    requires AllRich(es, b, marks)
    ensures AllRich(Unlink(es, marks), b, marks)
  {
    if es != [] {
      assert forall i :: 1 <= i < |es| ==> es[i] == es[1..][i - 1];
      UnlinkRich(es[1..], b, marks);
      assert Rich(es[0], b, marks);
    }
  }

  lemma UnlinkedRich(g: Group, b: seq<Req>, marks: map<Key, int>)
    requires RichGroup(g, b, marks)
    ensures RichGroup(Unlinked(g, marks), b, marks)
    ensures forall r :: r in AllSatisfied(g, marks) ==> r in b
  {
    UnlinkRich(g.stmts.checkpoints, b, marks);
    UnlinkRich(g.stmts.sourceStates, b, marks);
    BeginSplits(g, marks);
    forall r | r in GroupReqs(Unlinked(g, marks)) ensures r in b { assert r in multiset(GroupReqs(g)); }
    forall r | r in AllSatisfied(g, marks) ensures r in b { assert r in multiset(GroupReqs(g)); }
  }

  lemma FoldedRich(es: seq<Entry>, b: seq<Req>, marks: map<Key, int>)
    requires Folded(es, b)
    ensures AllRich(es, b, marks)
  {}

  /** The groups of a plan carry requests of the batch only. */
  lemma {:induction false} GroupIn(gs: seq<Group>, i: nat, r: Req)
    requires i < |gs| && r in GroupReqs(gs[i])
    ensures r in GroupsReqs(gs)
  {
    if i > 0 { GroupIn(gs[1..], i - 1, r); }
  }

  lemma {:induction false} ChunksBare(cs: seq<seq<Req>>)
    ensures forall i :: 0 <= i < |Chunks(cs)| ==> Chunks(cs)[i].stmts == NoStmts
  {
    if cs != [] { ChunksBare(cs[1..]); }
  }

  lemma PlanRich(held: seq<Req>, maxRows: int, marks: map<Key, int>)
    ensures RichGroups(GroupsOf(PlanOf(held, maxRows)), held, marks)
  {
    var p, gs := PlanOf(held, maxRows), GroupsOf(PlanOf(held, maxRows));
    PlanEntries(held, maxRows);
    PlanSplits(held, maxRows);
    if p.appends != [] { ChunksBare(p.appends[1..]); }
    forall i | 0 <= i < |gs| ensures RichGroup(gs[i], held, marks) {
      forall r | r in GroupReqs(gs[i]) ensures r in held {
        GroupIn(gs, i, r);
        assert r in multiset(GroupsReqs(gs));
      }
      if i == 0 {
        FoldedRich(p.stmts.checkpoints, held, marks);
        FoldedRich(p.stmts.sourceStates, held, marks);
      } else {
        assert gs[i] == Chunks(p.appends[1..])[i - 1];
      }
    }
  }

  // --- one committed transaction ---

  /** What a key's cell becomes: itself, or the pair of one of its entries, above the old mark. */
  lemma CellMoves(st: Store, g: Group, k: Key)
    requires Separated(g.stmts)
    ensures var (c, c') := (At(st, k), At(Commit(st, g.rows, g.stmts), k));
      c' == c || (c'.marked && c'.mark > c.mark && c'.value.Some? && c'.value.v.rank == c'.mark
                  && ((exists i :: 0 <= i < |g.stmts.checkpoints| && IsCell(g.stmts.checkpoints[i], k, c'.value.v))
                      || exists i :: 0 <= i < |g.stmts.sourceStates| && IsCell(g.stmts.sourceStates[i], k, c'.value.v)))
  {
    var (cps, sss, c) := (g.stmts.checkpoints, g.stmts.sourceStates, At(st, k));
    CommitAt(st, g.rows, g.stmts, k);
    PutEntryAt(c, cps, k);
    var c1 := PutEntry(c, cps, k);
    PutEntryAt(c1, sss, k);
    if HasKey(cps, k) {
      var i :| 0 <= i < |cps| && cps[i].key == k;
      if c1 != c { assert IsCell(cps[i], k, c1.value.v); }
    }
    if HasKey(sss, k) {
      var i :| 0 <= i < |sss| && sss[i].key == k;
      if PutEntry(c1, sss, k) != c1 { assert IsCell(sss[i], k, PutEntry(c1, sss, k).value.v); }
    }
  }

  predicate IsCell(e: Entry, k: Key, v: Value) { e.key == k && e.rank == v.rank && e.state == v.state }

  lemma {:induction false} WaiterIn(es: seq<Entry>, i: nat, w: Req)
    requires i < |es| && w in es[i].waiters
    ensures w in Waiters(es)
  {
    if i > 0 { WaiterIn(es[1..], i - 1, w); }
  }

  /** An entry above its mark stores the winner of the batch's requests for its key, and answers them all. */
  lemma StoredBy(es: seq<Entry>, b: seq<Req>, marks: map<Key, int>, i: nat, k: Key, v: Value)
    requires AllRich(es, b, marks) && i < |es| && IsCell(es[i], k, v) && v.rank > Mark(marks, k)
    ensures Won(v, OfKey(b, k)) && forall w :: w in OfKey(b, k) ==> w in Waiters(es)
  {
    assert Rich(es[i], b, marks) && Fits(es[i], b);
    var j: nat :| Carries(es[i], j);
    assert Wins(OfKey(b, k), j);
    forall w | w in OfKey(b, k) ensures w in Waiters(es) { WaiterIn(es, i, w); }
  }

  lemma StoredValue(st: Store, g: Group, b: seq<Req>, k: Key)
    requires Separated(g.stmts) && RichGroup(g, b, st.marks) && At(Commit(st, g.rows, g.stmts), k) != At(st, k)
    ensures var c' := At(Commit(st, g.rows, g.stmts), k);
      && c'.marked && c'.mark > Mark(st.marks, k) && c'.value.Some? && c'.value.v.rank == c'.mark
      && Won(c'.value.v, OfKey(b, k)) && forall w :: w in OfKey(b, k) ==> w in GroupReqs(g)
  {
    CellMoves(st, g, k);
    var v := At(Commit(st, g.rows, g.stmts), k).value.v;
    if i :| 0 <= i < |g.stmts.checkpoints| && IsCell(g.stmts.checkpoints[i], k, v) {
      StoredBy(g.stmts.checkpoints, b, st.marks, i, k, v);
    } else {
      var i :| 0 <= i < |g.stmts.sourceStates| && IsCell(g.stmts.sourceStates[i], k, v);
      StoredBy(g.stmts.sourceStates, b, st.marks, i, k, v);
    }
  }

  // --- each step keeps the origins ---

  /** Success, once told or due, stays so; what is new comes from the last batch. */
  ghost predicate NilsMore(s: State, s': State, bs: seq<seq<Req>>) {
    && (forall r :: Nilled(s, r) ==> Nilled(s', r))
    && (forall r :: Nilled(s', r) && !Nilled(s, r) ==> bs != [] && r in bs[|bs| - 1])
  }

  lemma OriginStays(s: State, s': State, bs: seq<seq<Req>>, k: Key)
    requires InTurn(bs) && NilsMore(s, s', bs) && Stems(s, bs, k)
    requires k in s'.st.db.values && s'.st.db.values[k] == s.st.db.values[k]
    ensures Stems(s', bs, k)
  {
    var b :| b in bs && Origin(s, k, b);
    var i :| 0 <= i < |bs| && bs[i] == b;
    forall r | Peer(s', k, r) ensures r in b || Before(b, [r]) {
      if Nilled(s, r) {
        assert Peer(s, k, r);
      } else if i < |bs| - 1 {
        assert Before(bs[i], bs[|bs| - 1]);
      }
    }
    assert Origin(s', k, b);
  }

  lemma SameStore(s: State, s': State, bs: seq<seq<Req>>)
    requires InTurn(bs) && NilsMore(s, s', bs) && Stemmed(s, bs) && s'.st == s.st
    ensures Stemmed(s', bs)
  {
    forall k | k in s'.st.marks ensures Stems(s', bs, k) { OriginStays(s, s', bs, k); }
  }

  lemma NewOrigin(s: State, s': State, bs: seq<seq<Req>>, g: Group, later: seq<Group>, k: Key)
    requires s.phase == InTx(g, later) && s' == Finished(s, g, later, true) && Inv(s) && Separated(g.stmts)
    requires bs != [] && RichGroup(g, bs[|bs| - 1], s.st.marks) && At(s'.st, k) != At(s.st, k)
    ensures Stems(s', bs, k)
  {
    var b := bs[|bs| - 1];
    StoredValue(s.st, g, b, k);
    forall w | w in OfKey(b, k) ensures Nilled(s', w) { assert w in s'.phase.todo; }
    forall r | Peer(s', k, r) ensures r in b || Before(b, [r]) {
      if Nilled(s, r) { NilledLanded(s, r); }
    }
    assert Origin(s', k, b) && b in bs;
  }

  lemma CommitStems(base: Db, s: State, bs: seq<seq<Req>>, g: Group, later: seq<Group>)
    requires s.phase == InTx(g, later) && Inv(s) && Separated(g.stmts) && Traced(base, s, bs)
    ensures Stemmed(Finished(s, g, later, true), bs) && Untouched(base, Finished(s, g, later, true).st)
  {
    var s' := Finished(s, g, later, true);
    forall k | k in s'.st.marks ensures Stems(s', bs, k) {
      if At(s'.st, k) == At(s.st, k) {
        assert At(s.st, k).marked && Stems(s, bs, k);
        assert At(s'.st, k).value == Some(s.st.db.values[k]);
        OriginStays(s, s', bs, k);
      } else {
        NewOrigin(s, s', bs, g, later, k);
      }
    }
    forall k | k !in s'.st.marks ensures At(s'.st, k) == CellOf(base.values, map[], k) {
      CellMoves(s.st, g, k);
      assert At(s'.st, k) == At(s.st, k) && !At(s.st, k).marked;
    }
  }

  lemma CommitOldRows(base: Db, st: Store, rows: seq<Req>, s: Stmts)
    requires OldRowsKept(base, st.db) && SpoolKept(st.db)
    ensures OldRowsKept(base, Commit(st, rows, s).db)
  {
    var db' := Commit(st, rows, s).db;
    forall q | q < base.first ensures SlotOf(db'.spool, q) == Survives(SlotOf(base.spool, q), db'.others, q) {
      LandAt(st.db.spool, NextRow(st.db), rows, q);
      if q in base.spool { SweptByConcat(st.db.others, s.rest, q, base.spool[q]); }
    }
  }

  lemma SweptByConcat(a: seq<Req>, b: seq<Req>, q: int, row: Req)
    ensures SweptBy(a + b, q, row) <==> SweptBy(a, q, row) || SweptBy(b, q, row)
  {
    SweptByMore(a, b, q, row);
    if SweptBy(a + b, q, row) {
      var i :| 0 <= i < |a + b| && Sweeps((a + b)[i], q, row);
      if i < |a| { assert Sweeps(a[i], q, row); } else { assert Sweeps(b[i - |a|], q, row); }
    }
  }

  // --- every run ---

  lemma StepTraces(base: Db, s: State, bs: seq<seq<Req>>, e: Event)
    requires Enabled(s, e) && Inv(s) && s.maxRows >= 1 && Traced(base, s, bs)
    ensures Traced(base, Step(s, e), bs + Drains(s, e))
  {
    OrderKeeps(s, bs, e);
    match e
    case PlanBatch => PlanTraces(base, s, bs);
    case Begin => BeginTraces(base, s, bs, s.phase.groups[0], s.phase.groups[1..]);
    case Finish(ok) => FinishTraces(base, s, bs, s.phase.g, s.phase.groups, ok);
    case _ =>
      assert bs + [] == bs;
      OtherTraces(base, s, bs, e);
  }

  lemma OtherTraces(base: Db, s: State, bs: seq<seq<Req>>, e: Event)
    requires Enabled(s, e) && Traced(base, s, bs) && !e.PlanBatch? && !e.Begin? && !e.Finish?
    requires Ordered(Step(s, e), bs)
    ensures Traced(base, Step(s, e), bs)
  {
    SameStore(s, Step(s, e), bs);
  }

  lemma PlanTraces(base: Db, s: State, bs: seq<seq<Req>>)
    requires s.phase.Collecting? && Traced(base, s, bs)
    requires Ordered(Step(s, PlanBatch), bs + [s.phase.held])
    ensures Traced(base, Step(s, PlanBatch), bs + [s.phase.held])
  {
    var s', bs' := Step(s, PlanBatch), bs + [s.phase.held];
    PlanRich(s.phase.held, s.maxRows, s.st.marks);
    forall k | k in s'.st.marks ensures Stems(s', bs', k) {
      assert Stems(s, bs, k);
      var b :| b in bs && Origin(s, k, b);
      forall r | Peer(s', k, r) ensures r in b || Before(b, [r]) { assert Peer(s, k, r); }
      assert b in bs' && Origin(s', k, b);
    }
  }

  lemma BeginTraces(base: Db, s: State, bs: seq<seq<Req>>, g: Group, later: seq<Group>)
    requires s.phase == Executing([g] + later) && Traced(base, s, bs) && Ordered(Begun(s, g, later), bs)
    ensures Traced(base, Begun(s, g, later), bs)
  {
    var b := bs[|bs| - 1];
    assert RichGroup(([g] + later)[0], b, s.st.marks);
    forall i | 0 <= i < |later| ensures RichGroup(later[i], b, s.st.marks) {
      assert later[i] == ([g] + later)[i + 1];
    }
    UnlinkedRich(g, b, s.st.marks);
    BegunNils(s, bs, g, later);
    SameStore(s, Begun(s, g, later), bs);
  }

  lemma BegunNils(s: State, bs: seq<seq<Req>>, g: Group, later: seq<Group>)
    requires s.phase.Executing? && bs != [] && forall r :: r in AllSatisfied(g, s.st.marks) ==> r in bs[|bs| - 1]
    ensures NilsMore(s, Begun(s, g, later), bs)
  {
    var told := AllSatisfied(g, s.st.marks);
    var more := Answer(told, true);
    forall r | (r, true) in s.verdicts + more && (r, true) !in s.verdicts ensures r in told {
      assert (r, true) in more;
      var i :| 0 <= i < |more| && more[i] == (r, true);
    }
  }

  lemma FinishTraces(base: Db, s: State, bs: seq<seq<Req>>, g: Group, later: seq<Group>, ok: bool)
    requires s.phase == InTx(g, later) && Inv(s) && Traced(base, s, bs) && Ordered(Finished(s, g, later, ok), bs)
    ensures Traced(base, Finished(s, g, later, ok), bs)
  {
    if ok {
      CommitLands(s.st, g);
      GroupsGrow(later, bs[|bs| - 1], s.st.marks, Commit(s.st, g.rows, g.stmts).marks);
      CommitStems(base, s, bs, g, later);
      CommitOldRows(base, s.st, g.rows, g.stmts);
    } else {
      SameStore(s, Finished(s, g, later, ok), bs);
    }
  }

  lemma {:induction false} RunTraces(base: Db, s: State, bs: seq<seq<Req>>, es: seq<Event>, s': State)
    requires After(s, es) == Reached(s') && Inv(s) && s.maxRows >= 1 && Traced(base, s, bs)
    ensures Traced(base, s', bs + Batches(s, es))
    decreases |es|
  {
    if es == [] {
      assert bs + [] == bs;
    } else {
      var s1, b1 := Step(s, es[0]), Drains(s, es[0]);
      StepKeeps(s, es[0]);
      StepTraces(base, s, bs, es[0]);
      RunTraces(base, s1, bs + b1, es[1..], s');
      MoreBatches(bs, b1, Batches(s1, es[1..]));
    }
  }

  lemma MoreBatches(a: seq<seq<Req>>, b: seq<seq<Req>>, c: seq<seq<Req>>)
    ensures a + b + c == a + (b + c)
  {}

  lemma ReachableTraced(base: Db, maxRows: int, es: seq<Event>, s: State)
    requires Opens(base, maxRows, es, s)
    ensures Traced(base, s, Batches(Init(base, maxRows), es))
  {
    forall q | q < base.first ensures SlotOf(base.spool, q) == Survives(SlotOf(base.spool, q), [], q) {}
    RunTraces(base, Init(base, maxRows), [], es, s);
    assert [] + Batches(Init(base, maxRows), es) == Batches(Init(base, maxRows), es);
  }
}
