/** Where the group writer gives less than its comments, each as a run of the writer that ends there. */
module WriterFindings {
  import opened GroupCommit
  import opened GroupStore
  import opened GroupEquivalence
  import opened WriterRuns
  import opened GroupWriter

  // --- serving one drained queue ---

  lemma {:induction false} AfterConcat(s: State, es: seq<Event>, more: seq<Event>)
    requires After(s, es).Reached?
    ensures After(s, es + more) == After(After(s, es).s, more)
    decreases |es|
  {
    if es == [] {
      assert es + more == more;
    } else {
      assert (es + more)[1..] == es[1..] + more;
      AfterConcat(Step(s, es[0]), es[1..], more);
    }
  }

  lemma Then1(s: State, es: seq<Event>, s1: State, e: Event) returns (es': seq<Event>)
    requires After(s, es) == Reached(s1) && Enabled(s1, e)
    ensures After(s, es') == Reached(Step(s1, e))
  {
    es' := es + [e];
    AfterConcat(s, es, [e]);
    assert [e][1..] == [];
    assert After(s1, [e]) == After(Step(s1, e), []);
  }

  /** At rest: nothing queued, nothing with the writer. */
  predicate AtRest(s: State) { s.phase == Looking && s.queue == [] && !s.closed }

  predicate Numbered(batch: seq<Req>, from: nat) { forall i :: 0 <= i < |batch| ==> batch[i].id == from + i }

  function Queued(s: State, batch: seq<Req>): State {
    s.(queue := batch, accepted := s.accepted + batch, sending := s.sending + |batch|)
  }

  lemma {:induction false} Enqueues(s: State, batch: seq<Req>) returns (es: seq<Event>)
    requires AtRest(s) && Numbered(batch, |s.accepted|)
    ensures After(s, es) == Reached(Queued(s, batch))
  {
    if batch == [] {
      assert s.accepted + [] == s.accepted;
      return [];
    }
    var before, r := batch[..|batch| - 1], batch[|batch| - 1];
    es := Enqueues(s, before);
    es := Then1(s, es, Queued(s, before), Enqueue(r));
    assert before + [r] == batch;
    assert s.accepted + before + [r] == s.accepted + batch;
  }

  /** A store at rest takes a queue that fits one transaction, whose outcome is given, and rests again. */
  lemma Serves(s: State, batch: seq<Req>, g: Group, ok: bool) returns (es: seq<Event>, s': State)
    requires AtRest(s) && Numbered(batch, |s.accepted|) && batch != []
    requires GroupsOf(PlanOf(batch, s.maxRows)) == [g]
    ensures After(s, es) == Reached(s') && AtRest(s') && s'.maxRows == s.maxRows && s'.accepted == s.accepted + batch
    ensures (s'.st, s'.verdicts) == RanOne(s.st, s.verdicts, g, ok)
  {
    es := Enqueues(s, batch);
    var s1 := Queued(s, batch);
    es := Then1(s, es, s1, Look);
    var s2 := s1.(queue := [], phase := Collecting(batch));
    es := Then1(s, es, s2, PlanBatch);
    var s3 := s2.(phase := Executing([g]));
    TransactionRuns(s3, g, [], ok);
    assert [g] + [] == [g];
    var r := RanOne(s.st, s.verdicts, g, ok);
    var s4 := s3.(phase := Resolving([], ok, []), st := r.0, verdicts := r.1);
    var tail := [Begin, Finish(ok)] + Resolves(|GroupReqs(Unlinked(g, s.st.marks))|);
    AfterConcat(s, es, tail);
    es := es + tail;
    es := Then1(s, es, s4, NextGroup);
    es := Then1(s, es, s4.(phase := Executing([])), NextBatch);
    s' := s4.(phase := Looking);
  }

  // --- one upsert alone ---

  lemma UpsertGroup(r: Req) returns (g: Group)
    requires IsUpsert(r)
    ensures GroupsOf(PlanOf([r], 1)) == [g] && UpsertOnly(g, r)
  {
    DraftOne(r);
    g := GroupsOf(PlanOf([r], 1))[0];
  }

  /** Served alone, it is answered ahead if its rank is covered, and stored by a transaction otherwise. */
  lemma UpsertServed(st: Store, vs: seq<(Req, bool)>, r: Req, g: Group, ok: bool)
    requires IsUpsert(r) && UpsertOnly(g, r)
    requires GroupsOf(PlanOf([r], 1)) == [g]
    ensures var ahead := RankOf(r) <= Mark(st.marks, KeyOf(r));
      && RanOne(st, vs, g, ok).1 == vs + [(r, ok || ahead)]
      && (ok && !ahead ==> RanOne(st, vs, g, ok).0 == Alone(st, r))
      && (!ok || ahead ==> RanOne(st, vs, g, ok).0 == st)
  {
    if RankOf(r) <= Mark(st.marks, KeyOf(r)) {
      ServedAhead(st, vs, r, g, ok);
    } else {
      ServedInTurn(st, vs, r, g, ok);
    }
  }

  ghost predicate UpsertOnly(g: Group, r: Req)
    requires IsUpsert(r)
  {
    && g.rows == [] && g.stmts.rest == []
    && g.stmts.checkpoints == (if r.Checkpoint? then [NewEntry(r)] else [])
    && g.stmts.sourceStates == (if r.Checkpoint? then [] else [NewEntry(r)])
  }

  lemma ServedAhead(st: Store, vs: seq<(Req, bool)>, r: Req, g: Group, ok: bool)
    requires IsUpsert(r) && UpsertOnly(g, r) && RankOf(r) <= Mark(st.marks, KeyOf(r))
    ensures RanOne(st, vs, g, ok) == (st, vs + [(r, true)])
  {
    var e, u := NewEntry(r), Unlinked(g, st.marks);
    assert [e][1..] == [];
    assert AllSatisfied(g, st.marks) == [r];
    assert GroupReqs(u) == [];
    NothingCommits(st, u);
    assert Answer([r], true) == [(r, true)];
    assert vs + [(r, true)] + Answer([], ok) == vs + [(r, true)];
  }

  lemma ServedInTurn(st: Store, vs: seq<(Req, bool)>, r: Req, g: Group, ok: bool)
    requires IsUpsert(r) && UpsertOnly(g, r) && RankOf(r) > Mark(st.marks, KeyOf(r)) && GroupsOf(PlanOf([r], 1)) == [g]
    ensures RanOne(st, vs, g, ok) == (if ok then Alone(st, r) else st, vs + [(r, ok)])
  {
    var e, u := NewEntry(r), Unlinked(g, st.marks);
    assert [e][1..] == [];
    assert AllSatisfied(g, st.marks) == [];
    assert u == g && GroupReqs(u) == [r];
    AloneIsItsGroup(st, r);
    assert [g][1..] == [];
    assert Answer([r], ok) == [(r, ok)];
    assert vs + Answer([], true) == vs;
  }

  lemma NothingCommits(st: Store, u: Group)
    requires u.rows == [] && u.stmts.rest == []
    requires forall i :: 0 <= i < |u.stmts.checkpoints| ==>
        u.stmts.checkpoints[i].rank <= Mark(st.marks, u.stmts.checkpoints[i].key)
    requires forall i :: 0 <= i < |u.stmts.sourceStates| ==>
        u.stmts.sourceStates[i].rank <= Mark(st.marks, u.stmts.sourceStates[i].key)
    ensures Commit(st, u.rows, u.stmts) == st
  {
    AllSkipped(st.db.values, st.marks, u.stmts.checkpoints);
    AllSkipped(st.db.values, st.marks, u.stmts.sourceStates);
    assert Land(st.db.spool, NextRow(st.db), []) == st.db.spool == Cut(st.db.spool, []);
    assert st.db.rows + [] == st.db.rows && st.db.others + [] == st.db.others;
  }

  lemma {:induction false} AllSkipped(values: map<Key, Value>, marks: map<Key, int>, es: seq<Entry>)
    requires forall i :: 0 <= i < |es| ==> es[i].rank <= Mark(marks, es[i].key)
    ensures ExecEntries(values, marks, es) == values && Raise(marks, es) == marks
    decreases |es|
  {
    if es != [] { AllSkipped(values, marks, es[1..]); }
  }

  lemma UpsertRuns(s: State, r: Req, ok: bool) returns (es: seq<Event>, s': State)
    requires AtRest(s) && s.maxRows == 1 && IsUpsert(r) && r.id == |s.accepted|
    ensures After(s, es) == Reached(s') && AtRest(s') && s'.maxRows == 1 && s'.accepted == s.accepted + [r]
    ensures var ahead := RankOf(r) <= Mark(s.st.marks, KeyOf(r));
      s'.verdicts == s.verdicts + [(r, ok || ahead)] && s'.st == if ok && !ahead then Alone(s.st, r) else s.st
  {
    var g := UpsertGroup(r);
    UpsertServed(s.st, s.verdicts, r, g, ok);
    es, s' := Serves(s, [r], g, ok);
  }

  // --- the findings ---

  const Blank := Db([], 1, map[], map[], [])

  /**
   A checkpoint of 4 is durable already, as part of 5, but is queued together with a 9: the
   transaction fails and the 4 is rejected with it.
   */
  lemma CoveredYetRejected() returns (es: seq<Event>, s: State)
    ensures Opens(Blank, 1, es, s)
    ensures (Checkpoint(1, "p", 4), false) in s.verdicts
    ensures Cp("p") in s.st.db.values && s.st.db.values[Cp("p")].rank == 5
  {
    var s0 := Init(Blank, 1);
    var (a, b, c) := (Checkpoint(0, "p", 5), Checkpoint(1, "p", 4), Checkpoint(2, "p", 9));
    var s1;
    es, s1 := UpsertRuns(s0, a, true);
    var g := TwoCheckpoints(b, c);
    var es2;
    assert [] + [a] == [a];
    es2, s := Serves(s1, [b, c], g, false);
    TwoRejected(s1.st, s1.verdicts, b, c, g);
    AfterConcat(s0, es, es2);
    es := es + es2;
    assert s.verdicts[1] == (b, false);
  }

  lemma TwoCheckpoints(a: Req, b: Req) returns (g: Group)
    requires a.Checkpoint? && b.Checkpoint? && a.pipeline == b.pipeline && a.cpSeq < b.cpSeq
    ensures GroupsOf(PlanOf([a, b], 1)) == [g]
    ensures g == Group([], Stmts([Entry(KeyOf(b), b.cpSeq, "", [a, b])], [], []))
  {
    var d1, d2 := Place(NoDraft, a, 1), Place(Place(NoDraft, a, 1), b, 1);
    DraftOne(a);
    assert [a, b][..1] == [a];
    assert Drafted([a, b], 1) == d2;
    assert [NewEntry(a)][1..] == [];
    assert [a] + [b] == [a, b];
    assert d2.stmts.checkpoints == [Join(NewEntry(a), b)];
    g := GroupsOf(PlanOf([a, b], 1))[0];
  }

  lemma TwoRejected(st: Store, vs: seq<(Req, bool)>, a: Req, b: Req, g: Group)
    requires a.Checkpoint? && b.Checkpoint? && g == Group([], Stmts([Entry(KeyOf(b), b.cpSeq, "", [a, b])], [], []))
    requires b.cpSeq > Mark(st.marks, KeyOf(b))
    ensures RanOne(st, vs, g, false) == (st, vs + [(a, false), (b, false)])
  {
    assert g.stmts.checkpoints[1..] == [];
    assert AllSatisfied(g, st.marks) == [];
    assert GroupReqs(Unlinked(g, st.marks)) == [a, b];
    assert Answer([a, b], false) == [(a, false), (b, false)];
    assert vs + Answer([], true) == vs;
  }

  /** A run that numbers its emissions from one again: success is answered, the old state stays. */
  lemma LowerStateDropped() returns (es: seq<Event>, s: State)
    ensures Opens(Blank, 1, es, s)
    ensures (SourceState(1, "p", "s", "second run", 1), true) in s.verdicts
    ensures Src("p", "s") in s.st.db.values && s.st.db.values[Src("p", "s")] == Value(3, "first run")
  {
    var s0 := Init(Blank, 1);
    var a, b := SourceState(0, "p", "s", "first run", 3), SourceState(1, "p", "s", "second run", 1);
    var s1, es2;
    es, s1 := UpsertRuns(s0, a, true);
    assert [] + [a] == [a];
    es2, s := UpsertRuns(s1, b, true);
    AfterConcat(s0, es, es2);
    es := es + es2;
    assert s.verdicts[1] == (b, true);
  }

  /**
   Two successes with one frontier and two states. Drained apart, the earlier state stays;
   drained together, the later one does: the successes alone do not decide it.
   */
  lemma TiesApart() returns (es: seq<Event>, s: State)
    ensures Opens(Blank, 1, es, s) && s.accepted == TwoStates
    ensures (TwoStates[0], true) in s.verdicts && (TwoStates[1], true) in s.verdicts
    ensures Src("p", "s") in s.st.db.values && s.st.db.values[Src("p", "s")] == Value(3, "x")
  {
    var s0 := Init(Blank, 1);
    var s1, es2;
    es, s1 := UpsertRuns(s0, TwoStates[0], true);
    assert [] + [TwoStates[0]] == [TwoStates[0]];
    es2, s := UpsertRuns(s1, TwoStates[1], true);
    AfterConcat(s0, es, es2);
    es := es + es2;
    assert s.verdicts[0] == (TwoStates[0], true) && s.verdicts[1] == (TwoStates[1], true);
  }

  lemma TiesTogether() returns (es: seq<Event>, s: State)
    ensures Opens(Blank, 1, es, s) && s.accepted == TwoStates
    ensures (TwoStates[0], true) in s.verdicts && (TwoStates[1], true) in s.verdicts
    ensures Src("p", "s") in s.st.db.values && s.st.db.values[Src("p", "s")] == Value(3, "y")
  {
    var g := TwoSources(TwoStates[0], TwoStates[1]);
    assert TwoStates == [TwoStates[0], TwoStates[1]] && [] + TwoStates == TwoStates;
    es, s := Serves(Init(Blank, 1), TwoStates, g, true);
    TwoStored(Store(Blank, map[]), [], TwoStates[0], TwoStates[1], g);
    assert s.verdicts[0] == (TwoStates[0], true) && s.verdicts[1] == (TwoStates[1], true);
  }

  lemma TwoSources(a: Req, b: Req) returns (g: Group)
    requires a.SourceState? && b.SourceState? && KeyOf(a) == KeyOf(b) && a.srcSeq <= b.srcSeq
    ensures GroupsOf(PlanOf([a, b], 1)) == [g]
    ensures g == Group([], Stmts([], [Entry(KeyOf(b), b.srcSeq, b.state, [a, b])], []))
  {
    var d2 := Place(Place(NoDraft, a, 1), b, 1);
    DraftOne(a);
    assert [a, b][..1] == [a];
    assert Drafted([a, b], 1) == d2;
    assert [NewEntry(a)][1..] == [];
    assert [a] + [b] == [a, b];
    assert d2.stmts.sourceStates == [Join(NewEntry(a), b)];
    g := GroupsOf(PlanOf([a, b], 1))[0];
  }

  lemma TwoStored(st: Store, vs: seq<(Req, bool)>, a: Req, b: Req, g: Group)
    requires a.SourceState? && b.SourceState?
    requires g == Group([], Stmts([], [Entry(KeyOf(b), b.srcSeq, b.state, [a, b])], []))
    requires b.srcSeq > Mark(st.marks, KeyOf(b))
    ensures var r := RanOne(st, vs, g, true);
      && r.1 == vs + [(a, true), (b, true)]
      && KeyOf(b) in r.0.db.values && r.0.db.values[KeyOf(b)] == Value(b.srcSeq, b.state)
  {
    assert g.stmts.sourceStates[1..] == [];
    assert AllSatisfied(g, st.marks) == [] && Unlinked(g, st.marks) == g;
    assert GroupReqs(g) == [a, b];
    assert Answer([a, b], true) == [(a, true), (b, true)];
    assert vs + Answer([], true) == vs;
    OneUpsert(st, g, g.stmts.sourceStates[0]);
  }

  lemma OneUpsert(st: Store, g: Group, e: Entry)
    requires g.stmts.checkpoints == [] && g.stmts.sourceStates == [e] && e.rank > Mark(st.marks, e.key)
    ensures var values := Commit(st, g.rows, g.stmts).db.values;
      e.key in values && values[e.key] == Value(e.rank, e.state)
  {
    assert [e][1..] == [];
    assert ExecEntries(st.db.values, st.marks, [e]) == Exec(st.db.values, st.marks, e);
  }

  /** Over a store reopened at checkpoint 10, a write of 4 lowers it. */
  lemma ReopenRegresses() returns (es: seq<Event>, s: State)
    ensures Opens(Blank.(values := map[Cp("p") := Value(10, "")]), 1, es, s)
    ensures Cp("p") in s.st.db.values && s.st.db.values[Cp("p")].rank == 4
  {
    es, s := UpsertRuns(Init(Blank.(values := map[Cp("p") := Value(10, "")]), 1), Checkpoint(0, "p", 4), true);
  }

  /** A sweep and an append drained together: both are answered with success, and the row is gone. */
  lemma AppendSweptWithSuccess() returns (es: seq<Event>, s: State)
    ensures Opens(Blank, 256, es, s)
    ensures (SweepFirst[0], true) in s.verdicts && (SweepFirst[1], true) in s.verdicts
    ensures s.st.db.rows == [SweepFirst[1]] && 1 !in s.st.db.spool
  {
    var p := PlanOf(SweepFirst, 256);
    var (a, b) := (SweepFirst[0], SweepFirst[1]);
    SweepFirstPlan();
    var g := Group([b], Stmts([], [], [a]));
    es, s := Serves(Init(Blank, 256), SweepFirst, g, true);
    assert GroupReqs(g) == [b, a];
    assert AllSatisfied(g, map[]) == [] && Unlinked(g, map[]) == g;
    assert s.verdicts[0] == (b, true) && s.verdicts[1] == (a, true);
    SweepSwallowsAppend();
    assert CommitAll(Fresh, [g]) == Commit(Fresh, [b], g.stmts) by { assert [g][1..] == []; }
    assert [] + [b] == [b];
  }

  lemma SweepFirstPlan()
    ensures GroupsOf(PlanOf(SweepFirst, 256)) == [Group([SweepFirst[1]], Stmts([], [], [SweepFirst[0]]))]
  {
    var (a, b) := (SweepFirst[0], SweepFirst[1]);
    assert SweepFirst[..1] == [a] && [a][..0] == [];
    assert Drafted([], 256) == NoDraft;
    assert Drafted([a], 256) == Place(NoDraft, a, 256);
    assert Drafted(SweepFirst, 256) == Place(Place(NoDraft, a, 256), b, 256);
    assert [] + [b] == [b] && [] + [a] == [a];
    assert [[b]][1..] == [];
    assert PlanOf(SweepFirst, 256).appends == [[b]];
  }
}
