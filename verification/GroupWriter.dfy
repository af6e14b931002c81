/**
 The group-commit writer as the mutable object it is (internal/store/writer.go). What SQL
 transactions answer is a parameter; everything else is proved equal to the functions the
 runs are made of.
 */
module GroupWriter {
  import opened GroupCommit
  import opened GroupStore
  import opened GroupEquivalence
  import opened WriterRuns

  /** The entries' keys, by position. */
  ghost predicate Indexed(index: map<Key, nat>, es: seq<Entry>) {
    && (forall k :: k in index ==> index[k] < |es| && es[index[k]].key == k)
    && (forall i :: 0 <= i < |es| ==> es[i].key in index && index[es[i].key] == i)
  }

  /** With an index, folding is an update in place or an append. */
  lemma FoldIndexed(index: map<Key, nat>, es: seq<Entry>, r: Req)
    requires Indexed(index, es) && IsUpsert(r)
    ensures KeyOf(r) in index ==> Fold(es, r) == es[index[KeyOf(r)] := Join(es[index[KeyOf(r)]], r)]
    ensures KeyOf(r) !in index ==> Fold(es, r) == es + [NewEntry(r)]
  {
    var i := FoldAt(es, r);
    if i < |es| { assert es[i].key in index; }
  }

  /** Coalesce one checkpoint: the largest sequence wins. */
  method FoldCheckpoint(es: seq<Entry>, index: map<Key, nat>, r: Req) returns (es': seq<Entry>, index': map<Key, nat>)
    requires Indexed(index, es) && r.Checkpoint? && forall i :: 0 <= i < |es| ==> es[i].state == ""
    ensures Indexed(index', es') && es' == Fold(es, r) && forall i :: 0 <= i < |es'| ==> es'[i].state == ""
  {
    FoldIndexed(index, es, r);
    var key := Cp(r.pipeline);
    if key in index {
      var e := es[index[key]];
      if r.cpSeq > e.rank { e := e.(rank := r.cpSeq); }
      return es[index[key] := e.(waiters := e.waiters + [r])], index;
    }
    es', index' := es + [Entry(key, r.cpSeq, "", [r])], index[key := |es|];
  }

  /** Coalesce one source state: state and frontier stay paired, a tie keeps the later request. */
  method FoldState(es: seq<Entry>, index: map<Key, nat>, r: Req) returns (es': seq<Entry>, index': map<Key, nat>)
    requires Indexed(index, es) && r.SourceState?
    ensures Indexed(index', es') && es' == Fold(es, r)
  {
    FoldIndexed(index, es, r);
    var key := Src(r.pipeline, r.source);
    if key in index {
      var e := es[index[key]];
      if r.srcSeq >= e.rank { e := e.(state := r.state, rank := r.srcSeq); }
      return es[index[key] := e.(waiters := e.waiters + [r])], index;
    }
    es', index' := es + [Entry(key, r.srcSeq, r.state, [r])], index[key := |es|];
  }

  /** Split one drained group into append chunks and coalesced statements. */
  method PlanWriteBatch(batch: seq<Req>, maxRows: int) returns (p: Plan)
    ensures p == PlanOf(batch, maxRows)
  {
    var full: seq<seq<Req>>, chunk: seq<Req> := [], [];
    var checkpoints: seq<Entry>, sourceStates: seq<Entry>, rest: seq<Req> := [], [], [];
    var cpIndex: map<Key, nat>, ssIndex: map<Key, nat> := map[], map[];
    for n := 0 to |batch|
      invariant Draft(full, chunk, Stmts(checkpoints, sourceStates, rest)) == Drafted(batch[..n], maxRows)
      invariant Indexed(cpIndex, checkpoints) && Indexed(ssIndex, sourceStates)
      invariant forall i :: 0 <= i < |checkpoints| ==> checkpoints[i].state == ""
    {
      var r := batch[n];
      DraftedSnoc(batch, n, maxRows);
      match r
      case Append(_, _, _) =>
        chunk := chunk + [r];
        if |chunk| == maxRows { full, chunk := full + [chunk], []; }
      case Checkpoint(_, _, _) => checkpoints, cpIndex := FoldCheckpoint(checkpoints, cpIndex, r);
      case SourceState(_, _, _, _, _) => sourceStates, ssIndex := FoldState(sourceStates, ssIndex, r);
      case _ => rest := rest + [r];
    }
    assert batch[..|batch|] == batch;
    p := Plan(if |chunk| > 0 then full + [chunk] else full, Stmts(checkpoints, sourceStates, rest));
  }

  lemma DraftedSnoc(batch: seq<Req>, n: nat, maxRows: int)
    requires n < |batch|
    ensures Drafted(batch[..n + 1], maxRows) == Place(Drafted(batch[..n], maxRows), batch[n], maxRows)
  {
    assert batch[..n + 1][..n] == batch[..n];
  }

  /** What executing a list of transactions leaves and answers; a closed store refuses them all. */
  function Ran(st: Store, vs: seq<(Req, bool)>, gs: seq<Group>, works: seq<bool>, closed: bool)
      : (Store, seq<(Req, bool)>)
    requires |works| == |gs|
    decreases |gs|
  {
    if gs == [] then (st, vs)
    else var (st1, vs1) := RanOne(st, vs, gs[0], works[0] && !closed); Ran(st1, vs1, gs[1..], works[1..], closed)
  }

  function RanOne(st: Store, vs: seq<(Req, bool)>, g: Group, ok: bool): (Store, seq<(Req, bool)>) {
    var u := Unlinked(g, st.marks);
    (if ok then Commit(st, u.rows, u.stmts) else st,
     vs + Answer(AllSatisfied(g, st.marks), true) + Answer(GroupReqs(u), ok))
  }

  function Resolves(n: nat): (es: seq<Event>)
    ensures |es| == n
  {
    if n == 0 then [] else [Resolve] + Resolves(n - 1)
  }

  lemma AnswerConcat(vs: seq<(Req, bool)>, a: seq<Req>, b: seq<Req>, ok: bool)
    ensures vs + Answer(a + b, ok) == vs + Answer(a, ok) + Answer(b, ok)
  {}

  lemma AnswerParts(vs: seq<(Req, bool)>, a: seq<Req>, b: seq<Req>, c: seq<Req>, d: seq<Req>, ok: bool)
    ensures vs + Answer(a + b + c + d, ok) == vs + Answer(a, ok) + Answer(b, ok) + Answer(c, ok) + Answer(d, ok)
  {
    AnswerConcat(vs, a, b, ok);
    AnswerConcat(vs, a + b, c, ok);
    AnswerConcat(vs, a + b + c, d, ok);
  }

  lemma {:induction false} AnswerEnds(s: State, todo: seq<Req>, ok: bool, later: seq<Group>)
    requires s.phase == Resolving(todo, ok, later)
    ensures After(s, Resolves(|todo|)) ==
        Reached(s.(phase := Resolving([], ok, later), verdicts := s.verdicts + Answer(todo, ok)))
    decreases |todo|
  {
    if todo == [] {
      assert s.verdicts + Answer(todo, ok) == s.verdicts;
    } else {
      AnswerEnds(s.(phase := Resolving(todo[1..], ok, later), verdicts := s.verdicts + [(todo[0], ok)]), todo[1..],
                 ok, later);
      assert [todo[0]] + todo[1..] == todo;
      AnswerConcat(s.verdicts, [todo[0]], todo[1..], ok);
      assert Answer([todo[0]], ok) == [(todo[0], ok)];
      assert Resolves(|todo|)[1..] == Resolves(|todo| - 1);
    }
  }

  /** One transaction is what the steps from Begin to the last verdict do to a run. */
  lemma TransactionRuns(s: State, g: Group, later: seq<Group>, ok: bool)
    requires s.phase == Executing([g] + later) && (ok ==> !s.closed)
    ensures var r := RanOne(s.st, s.verdicts, g, ok);
      After(s, [Begin, Finish(ok)] + Resolves(|GroupReqs(Unlinked(g, s.st.marks))|))
        == Reached(s.(phase := Resolving([], ok, later), st := r.0, verdicts := r.1))
  {
    var u := Unlinked(g, s.st.marks);
    var es := Resolves(|GroupReqs(u)|);
    assert ([g] + later)[0] == g && ([g] + later)[1..] == later;
    var s1 := Begun(s, g, later);
    var s2 := Finished(s1, u, later, ok);
    AnswerEnds(s2, GroupReqs(u), ok, later);
    TwoSteps(s, s1, s2, ok, es);
  }

  lemma TwoSteps(s: State, s1: State, s2: State, ok: bool, es: seq<Event>)
    requires Enabled(s, Begin) && Step(s, Begin) == s1
    requires Enabled(s1, Finish(ok)) && Step(s1, Finish(ok)) == s2
    ensures After(s, [Begin, Finish(ok)] + es) == After(s2, es)
  {
    assert ([Begin, Finish(ok)] + es)[1..] == [Finish(ok)] + es;
    assert ([Finish(ok)] + es)[1..] == es;
  }

  /** Answering entry by entry. */
  lemma SatisfiedStep(es: seq<Entry>, i: nat, marks: map<Key, int>)
    requires i < |es|
    ensures Satisfied(es[i..], marks) == (if es[i].rank <= Mark(marks, es[i].key) then es[i].waiters else []) +
        Satisfied(es[i + 1..], marks)
    ensures Unlink(es[i..], marks) == [if es[i].rank <= Mark(marks, es[i].key) then es[i].(waiters := []) else es[i]] +
        Unlink(es[i + 1..], marks)
    ensures Waiters(es[i..]) == es[i].waiters + Waiters(es[i + 1..])
  {
    assert es[i..][1..] == es[i + 1..];
  }

  /** One entry more on the answered side. */
  lemma ResolveStep(es: seq<Entry>, i: nat, marks: map<Key, int>, left: seq<Entry>, done: seq<Req>)
    requires i < |es| && left + Unlink(es[i..], marks) == Unlink(es, marks) &&
             done + Satisfied(es[i..], marks) == Satisfied(es, marks)
    ensures var e := es[i];
      if e.rank <= Mark(marks, e.key)
      then left + [e.(waiters := [])] + Unlink(es[i + 1..], marks) == Unlink(es, marks)
           && done + e.waiters + Satisfied(es[i + 1..], marks) == Satisfied(es, marks)
      else left + [e] + Unlink(es[i + 1..], marks) == Unlink(es, marks) &&
           done + Satisfied(es[i + 1..], marks) == Satisfied(es, marks)
  {
    SatisfiedStep(es, i, marks);
  }

  class Writer {
    var queue: seq<Req>
    var closed: bool
    var wake: bool
    /** Every row that landed, in order, and the table they landed in. */
    var rows: seq<Req>
    var spool: map<int, Req>
    var values: map<Key, Value>
    var others: seq<Req>
    /** The high-water marks of checkpoints and source states. */
    var marks: map<Key, int>
    var verdicts: seq<(Req, bool)>
    /** The sequence handed to each append, in order; the first row of this handle gets `first`. */
    var seqs: seq<(Req, int)>
    const first: int
    const maxRows: int

    ghost function View(): Store
      reads this
    {
      Store(Db(rows, first, spool, values, others), marks)
    }

    constructor (base: Db, maxRows: int)
      requires Opened(base)
      ensures View() == Init(base, maxRows).st && !closed && queue == [] && verdicts == [] && seqs == []
      ensures this.maxRows == maxRows
    {
      queue, closed, wake, marks, verdicts, seqs := [], false, false, map[], [], [];
      rows, spool, values, others := base.rows, base.spool, base.values, base.others;
      this.first, this.maxRows := base.first, maxRows;
    }

    method Enqueue(r: Req) returns (ok: bool)
      modifies this`queue, this`wake
      ensures ok == !closed
      ensures queue == (if ok then old(queue) + [r] else old(queue)) && (ok ==> wake)
    {
      if closed { return false; }
      queue := queue + [r];
      wake := true;
      ok := true;
    }

    method ResolveAll(rs: seq<Req>, ok: bool)
      modifies this`verdicts
      ensures verdicts == old(verdicts) + Answer(rs, ok)
    {
      for i := 0 to |rs|
        invariant verdicts == old(verdicts) + Answer(rs[..i], ok)
      {
        assert Answer(rs[..i + 1], ok) == Answer(rs[..i], ok) + [(rs[i], ok)];
        verdicts := verdicts + [(rs[i], ok)];
      }
      assert rs[..|rs|] == rs;
    }

    /** Refuse what is queued; a transaction already open still decides for itself. */
    method Shutdown()
      modifies this`queue, this`closed, this`wake, this`verdicts
      ensures closed && queue == [] && wake
      ensures verdicts == old(verdicts) + Answer(old(queue), false)
    {
      closed := true;
      var pending := queue;
      queue := [];
      ResolveAll(pending, false);
      wake := true;
    }

    /** Answer and unlink the entries an earlier transaction satisfied. */
    method ResolveSatisfied(es: seq<Entry>) returns (left: seq<Entry>)
      modifies this`verdicts
      ensures left == Unlink(es, marks)
      ensures verdicts == old(verdicts) + Answer(Satisfied(es, marks), true)
    {
      left := [];
      ghost var done: seq<Req> := [];
      for i := 0 to |es|
        invariant left + Unlink(es[i..], marks) == Unlink(es, marks)
        invariant done + Satisfied(es[i..], marks) == Satisfied(es, marks)
        invariant verdicts == old(verdicts) + Answer(done, true)
      {
        ResolveStep(es, i, marks, left, done);
        var e := es[i];
        if e.rank <= Mark(marks, e.key) {
          ResolveAll(e.waiters, true);
          AnswerConcat(old(verdicts), done, e.waiters, true);
          done := done + e.waiters;
          e := e.(waiters := []);
        }
        left := left + [e];
      }
    }

    method ResolveEntries(es: seq<Entry>, ok: bool)
      modifies this`verdicts
      ensures verdicts == old(verdicts) + Answer(Waiters(es), ok)
    {
      ghost var done: seq<Req> := [];
      for i := 0 to |es|
        invariant done + Waiters(es[i..]) == Waiters(es)
        invariant verdicts == old(verdicts) + Answer(done, ok)
      {
        SatisfiedStep(es, i, map[]);
        ResolveAll(es[i].waiters, ok);
        AnswerConcat(old(verdicts), done, es[i].waiters, ok);
        done := done + es[i].waiters;
      }
    }

    method ExecStatements(es: seq<Entry>)
      modifies this`values
      ensures values == ExecEntries(old(values), marks, es)
    {
      for i := 0 to |es|
        invariant ExecEntries(values, marks, es[i..]) == ExecEntries(old(values), marks, es)
      {
        var e := es[i];
        if e.rank > Mark(marks, e.key) {
          values := values[e.key := Value(e.rank, e.state)];
        }
      }
    }

    method ApplyMarks(es: seq<Entry>)
      modifies this`marks
      ensures marks == Raise(old(marks), es)
    {
      for i := 0 to |es|
        invariant Raise(marks, es[i..]) == Raise(old(marks), es)
      {
        var e := es[i];
        if e.rank > Mark(marks, e.key) {
          marks := marks[e.key := e.rank];
        }
      }
    }

    /** One multi-row insert: the store reports the last id, and the rows count back from it. */
    method InsertSpoolRows(reqs: seq<Req>)
      modifies this`rows, this`spool, this`seqs
      ensures rows == old(rows) + reqs && spool == Land(old(spool), first + |old(rows)|, reqs)
      ensures seqs == old(seqs) + Numbered(reqs, first + |old(rows)|)
    {
      spool := Land(spool, first + |rows|, reqs);
      rows := rows + reqs;
      var last := first + |rows| - 1;
      var base := last - |reqs| + 1;
      for i := 0 to |reqs|
        invariant rows == old(rows) + reqs && spool == Land(old(spool), first + |old(rows)|, reqs)
        invariant seqs == old(seqs) + Numbered(reqs, base)[..i]
      {
        seqs := seqs + [(reqs[i], base + i)];
      }
    }

    /** The requests that are not coalesced, one by one: a sweep deletes from the spool. */
    method ExecRest(rest: seq<Req>)
      modifies this`spool, this`others
      ensures spool == Cut(old(spool), rest) && others == old(others) + rest
    {
      assert Cut(spool, []) == spool;
      for i := 0 to |rest|
        invariant spool == Cut(old(spool), rest[..i]) && others == old(others) + rest[..i]
      {
        CutMore(old(spool), rest[..i], rest[i]);
        assert rest[..i + 1] == rest[..i] + [rest[i]];
        if rest[i].Trim? {
          spool := map q | q in spool && !Sweeps(rest[i], q, spool[q]) :: spool[q];
        }
        others := others + [rest[i]];
      }
      assert rest[..|rest|] == rest;
    }

    static lemma CutMore(spool: map<int, Req>, stmts: seq<Req>, t: Req)
      ensures var cut := Cut(spool, stmts);
        Cut(spool, stmts + [t]) == map q | q in cut && !Sweeps(t, q, cut[q]) :: cut[q]
      ensures !t.Trim? ==> Cut(spool, stmts + [t]) == Cut(spool, stmts)
    {
      forall q | q in spool
        ensures SweptBy(stmts + [t], q, spool[q]) <==> SweptBy(stmts, q, spool[q]) || Sweeps(t, q, spool[q])
      {
        SweptBySnoc(stmts, t, q, spool[q]);
      }
    }

    /** One transaction; `works` is what the database answers up to the commit. */
    method CommitGroup(appends: seq<Req>, stmts: Stmts, works: bool)
      modifies this`rows, this`spool, this`seqs, this`values, this`others, this`marks, this`verdicts
      ensures var r := RanOne(old(View()), old(verdicts), Group(appends, stmts), works && !closed);
        View() == r.0 && verdicts == r.1
    {
      ghost var g := Group(appends, stmts);
      var checkpoints := ResolveSatisfied(stmts.checkpoints);
      var sourceStates := ResolveSatisfied(stmts.sourceStates);
      AnswerConcat(old(verdicts), Satisfied(stmts.checkpoints, marks), Satisfied(stmts.sourceStates, marks), true);
      var ok := works && !closed;
      if ok { WriteGroup(appends, checkpoints, sourceStates, stmts.rest); }
      ResolveGroup(Group(appends, Stmts(checkpoints, sourceStates, stmts.rest)), ok);
    }

    /** Hand the transaction's outcome to everything it carried. */
    method ResolveGroup(g: Group, ok: bool)
      modifies this`verdicts
      ensures verdicts == old(verdicts) + Answer(GroupReqs(g), ok)
    {
      ResolveAll(g.rows, ok);
      ResolveEntries(g.stmts.checkpoints, ok);
      ResolveEntries(g.stmts.sourceStates, ok);
      ResolveAll(g.stmts.rest, ok);
      AnswerParts(old(verdicts), g.rows, Waiters(g.stmts.checkpoints), Waiters(g.stmts.sourceStates), g.stmts.rest, ok);
    }

    method WriteGroup(appends: seq<Req>, checkpoints: seq<Entry>, sourceStates: seq<Entry>, rest: seq<Req>)
      modifies this`rows, this`spool, this`seqs, this`values, this`others, this`marks
      ensures View() == Commit(old(View()), appends, Stmts(checkpoints, sourceStates, rest))
    {
      InsertSpoolRows(appends);
      ExecStatements(checkpoints);
      ExecStatements(sourceStates);
      ExecRest(rest);
      ApplyMarks(checkpoints);
      ApplyMarks(sourceStates);
    }

    /** The statements ride the first chunk's transaction; without appends they are one of their own. */
    method Execute(batch: seq<Req>, works: seq<bool>)
      requires |works| == |GroupsOf(PlanOf(batch, maxRows))|
      modifies this`rows, this`spool, this`seqs, this`values, this`others, this`marks, this`verdicts
      ensures (View(), verdicts) == Ran(old(View()), old(verdicts), GroupsOf(PlanOf(batch, maxRows)), works, closed)
    {
      var plan := PlanWriteBatch(batch, maxRows);
      ghost var gs := GroupsOf(plan);
      GroupsLength(plan);
      for i := 0 to |plan.appends|
        invariant Ran(View(), verdicts, gs[i..], works[i..], closed) ==
            Ran(old(View()), old(verdicts), gs, works, closed)
      {
        ChunkAt(plan, i);
        CommitGroup(plan.appends[i], if i == 0 then plan.stmts else NoStmts, works[i]);
        assert gs[i..][1..] == gs[i + 1..] && works[i..][1..] == works[i + 1..];
      }
      if |plan.appends| == 0 {
        CommitGroup([], plan.stmts, works[0]);
        RanLast(old(View()), old(verdicts), gs[0], works[0], closed);
        assert gs == [gs[0]] && works == [works[0]];
      } else {
        assert gs[|gs|..] == [] && works[|gs|..] == [];
      }
    }
  }

  lemma RanLast(st: Store, vs: seq<(Req, bool)>, g: Group, works: bool, closed: bool)
    ensures Ran(st, vs, [g], [works], closed) == RanOne(st, vs, g, works && !closed)
  {}

  lemma GroupsLength(p: Plan)
    ensures |GroupsOf(p)| == if p.appends == [] then 1 else |p.appends|
    ensures p.appends == [] ==> GroupsOf(p)[0] == Group([], p.stmts)
  {
    if |p.appends| > 1 { ChunksAt(p.appends[1..], 0); }
  }

  function Numbered(reqs: seq<Req>, base: int): (r: seq<(Req, int)>)
    ensures |r| == |reqs| && forall i :: 0 <= i < |reqs| ==> r[i] == (reqs[i], base + i)
  {
    seq(|reqs|, i requires 0 <= i < |reqs| => (reqs[i], base + i))
  }

  lemma {:induction false} ChunksAt(cs: seq<seq<Req>>, i: nat)
    requires i < |cs|
    ensures |Chunks(cs)| == |cs| && Chunks(cs)[i] == Group(cs[i], NoStmts)
  {
    if i > 0 {
      ChunksAt(cs[1..], i - 1);
    } else if |cs| > 1 {
      ChunksAt(cs[1..], 0);
    }
  }

  lemma ChunkAt(p: Plan, i: nat)
    requires i < |p.appends|
    ensures |GroupsOf(p)| == |p.appends|
    ensures GroupsOf(p)[i] == Group(p.appends[i], if i == 0 then p.stmts else NoStmts)
  {
    if i > 0 { ChunksAt(p.appends[1..], i - 1); }
    if |p.appends| > 1 { ChunksAt(p.appends[1..], 0); }
  }
}
