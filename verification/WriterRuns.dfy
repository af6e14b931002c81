/**
 The group-commit writer under every interleaving of its callers, its goroutine and
 shutdown (internal/store/writer.go). Steps are the critical sections and the points
 where a verdict is handed out; a transaction commits or fails as a whole.
 */
module WriterRuns {
  import opened GroupCommit
  import opened GroupStore
  import opened GroupEquivalence

  datatype Phase =
    | Looking                                        // about to look at the queue
    | Blocked                                        // saw an empty queue, waits for a wakeup
    | Collecting(held: seq<Req>)                     // drained, waiting for companions
    | Executing(groups: seq<Group>)                  // between transactions
    | InTx(g: Group, groups: seq<Group>)
    | Resolving(todo: seq<Req>, ok: bool, groups: seq<Group>)
    | Exited

  datatype State = State(
    queue: seq<Req>, closed: bool,
    wake: bool,                                      // the wake channel holds a wakeup
    sending: nat,                                    // callers past the queue's lock that have yet to signal
    refusing: seq<Req>,                              // taken by shutdown, to be refused one by one
    phase: Phase, st: Store,
    verdicts: seq<(Req, bool)>,                      // outcomes in the order they were handed out; true is nil
    accepted: seq<Req>,                              // every request that passed the closed check, in order
    maxRows: int)

  datatype Event =
    | Enqueue(r: Req) | Signal | Close | Refuse
    | Look | Wake | Companions | PlanBatch | Begin | Finish(ok: bool) | Resolve | NextGroup | NextBatch

  /** A store just opened: what it already holds is below the next sequence. */
  ghost predicate Opened(base: Db) { base.rows == [] && base.others == [] && Assigned(base) }

  function Init(base: Db, maxRows: int): State {
    State([], false, false, 0, [], Looking, Store(base, map[]), [], [], maxRows)
  }

  // --- one transaction's requests ---

  function GroupReqs(g: Group): seq<Req> {
    g.rows + Waiters(g.stmts.checkpoints) + Waiters(g.stmts.sourceStates) + g.stmts.rest
  }

  /** Entries an earlier transaction already satisfied keep their place but lose their waiters. */
  function Unlink(es: seq<Entry>, marks: map<Key, int>): seq<Entry> {
    if es == [] then []
    else [if es[0].rank <= Mark(marks, es[0].key) then es[0].(waiters := []) else es[0]] + Unlink(es[1..], marks)
  }

  function Satisfied(es: seq<Entry>, marks: map<Key, int>): seq<Req> {
    if es == [] then []
    else (if es[0].rank <= Mark(marks, es[0].key) then es[0].waiters else []) + Satisfied(es[1..], marks)
  }

  function Unlinked(g: Group, marks: map<Key, int>): Group {
    g.(stmts := g.stmts.(checkpoints := Unlink(g.stmts.checkpoints, marks),
                         sourceStates := Unlink(g.stmts.sourceStates, marks)))
  }

  function AllSatisfied(g: Group, marks: map<Key, int>): seq<Req> {
    Satisfied(g.stmts.checkpoints, marks) + Satisfied(g.stmts.sourceStates, marks)
  }

  function Answer(rs: seq<Req>, ok: bool): (v: seq<(Req, bool)>)
    ensures |v| == |rs| && forall i :: 0 <= i < |rs| ==> v[i] == (rs[i], ok)
  {
    seq(|rs|, i requires 0 <= i < |rs| => (rs[i], ok))
  }

  // --- steps ---

  predicate Enabled(s: State, e: Event) {
    match e
    case Enqueue(r) => !s.closed && r.id == |s.accepted|
    case Signal => s.sending > 0
    case Close => true
    case Refuse => s.refusing != []
    case Look => s.phase.Looking?
    case Wake => s.phase.Blocked? && s.wake
    case Companions => s.phase.Collecting?
    case PlanBatch => s.phase.Collecting?
    case Begin => s.phase.Executing? && s.phase.groups != []
    case Finish(ok) => s.phase.InTx? && (ok ==> !s.closed)
    case Resolve => s.phase.Resolving? && s.phase.todo != []
    case NextGroup => s.phase.Resolving? && s.phase.todo == []
    case NextBatch => s.phase.Executing? && s.phase.groups == []
  }

  function Step(s: State, e: Event): State
    requires Enabled(s, e)
  {
    match e
    case Enqueue(r) => s.(queue := s.queue + [r], accepted := s.accepted + [r], sending := s.sending + 1)
    case Signal => s.(sending := s.sending - 1, wake := true)
    case Close => s.(closed := true, refusing := s.refusing + s.queue, queue := [], sending := s.sending + 1)
    case Refuse => s.(refusing := s.refusing[1..], verdicts := s.verdicts + [(s.refusing[0], false)])
    case Look =>
      if s.queue != [] then s.(queue := [], phase := Collecting(s.queue))
      else s.(phase := if s.closed then Exited else Blocked)
    case Wake => s.(wake := false, phase := Looking)
    case Companions => s.(queue := [], phase := Collecting(s.phase.held + s.queue))
    case PlanBatch => s.(phase := Executing(GroupsOf(PlanOf(s.phase.held, s.maxRows))))
    case Begin => Begun(s, s.phase.groups[0], s.phase.groups[1..])
    case Finish(ok) => Finished(s, s.phase.g, s.phase.groups, ok)
    case Resolve =>
      s.(phase := s.phase.(todo := s.phase.todo[1..]), verdicts := s.verdicts + [(s.phase.todo[0], s.phase.ok)])
    case NextGroup => s.(phase := Executing(s.phase.groups))
    case NextBatch => s.(phase := Looking)
  }

  /** Waiters whose entry is already durable are answered before the transaction. */
  function Begun(s: State, g: Group, later: seq<Group>): State {
    s.(phase := InTx(Unlinked(g, s.st.marks), later),
       verdicts := s.verdicts + Answer(AllSatisfied(g, s.st.marks), true))
  }

  /** All or nothing: a failed transaction changes neither the store nor the marks. */
  function Finished(s: State, g: Group, later: seq<Group>, ok: bool): State {
    s.(phase := Resolving(GroupReqs(g), ok, later), st := if ok then Commit(s.st, g.rows, g.stmts) else s.st)
  }

  datatype Outcome = Stuck | Reached(s: State)

  function After(s: State, es: seq<Event>): Outcome
    decreases |es|
  {
    if es == [] then Reached(s) else if Enabled(s, es[0]) then After(Step(s, es[0]), es[1..]) else Stuck
  }

  // --- each request is in exactly one place ---

  function GroupsReqs(gs: seq<Group>): seq<Req> {
    if gs == [] then [] else GroupReqs(gs[0]) + GroupsReqs(gs[1..])
  }

  function Times(rs: seq<Req>, r: Req): nat {
    if rs == [] then 0 else (if rs[0] == r then 1 else 0) + Times(rs[1..], r)
  }

  lemma {:induction false} TimesIs(rs: seq<Req>, r: Req)
    ensures Times(rs, r) == multiset(rs)[r]
  {
    if rs != [] {
      TimesIs(rs[1..], r);
      assert rs == [rs[0]] + rs[1..];
    }
  }

  lemma {:induction false} TimesConcat(a: seq<Req>, b: seq<Req>, r: Req)
    ensures Times(a + b, r) == Times(a, r) + Times(b, r)
  {
    if a == [] {
      assert a + b == b;
    } else {
      assert (a + b)[1..] == a[1..] + b;
      TimesConcat(a[1..], b, r);
    }
  }

  function Answered(vs: seq<(Req, bool)>): seq<Req> { seq(|vs|, i requires 0 <= i < |vs| => vs[i].0) }

  function WithWriter(p: Phase, r: Req): nat {
    match p
    case Collecting(held) => Times(held, r)
    case Executing(gs) => Times(GroupsReqs(gs), r)
    case InTx(g, gs) => Times(GroupReqs(g), r) + Times(GroupsReqs(gs), r)
    case Resolving(todo, _, gs) => Times(todo, r) + Times(GroupsReqs(gs), r)
    case _ => 0
  }

  /** How often a request is queued, being refused, with the writer, or answered. */
  function Copies(s: State, r: Req): nat {
    Times(s.queue, r) + Times(s.refusing, r) + WithWriter(s.phase, r) + Times(Answered(s.verdicts), r)
  }

  lemma {:induction false} UnlinkSplits(es: seq<Entry>, marks: map<Key, int>)
    ensures multiset(Waiters(es)) == multiset(Waiters(Unlink(es, marks))) + multiset(Satisfied(es, marks))
  {
    if es != [] {
      UnlinkSplits(es[1..], marks);
      assert Unlink(es, marks)[1..] == Unlink(es[1..], marks);
    }
  }

  lemma BeginSplits(g: Group, marks: map<Key, int>)
    ensures multiset(GroupReqs(g)) == multiset(GroupReqs(Unlinked(g, marks))) + multiset(AllSatisfied(g, marks))
  {
    UnlinkSplits(g.stmts.checkpoints, marks);
    UnlinkSplits(g.stmts.sourceStates, marks);
  }

  lemma {:induction false} ChunksReqs(cs: seq<seq<Req>>)
    ensures GroupsReqs(Chunks(cs)) == Joined(cs)
  {
    if cs != [] {
      ChunksReqs(cs[1..]);
      assert GroupReqs(Group(cs[0], NoStmts)) == cs[0];
    }
  }

  lemma PlanSplits(held: seq<Req>, maxRows: int)
    ensures multiset(GroupsReqs(GroupsOf(PlanOf(held, maxRows)))) == multiset(held)
  {
    var p := PlanOf(held, maxRows);
    PlanConserves(held, maxRows);
    JoinedIsFlatten(p.appends);
    if p.appends == [] {
      var g := Group([], p.stmts);
      assert [g][1..] == [];
      assert GroupsReqs([g]) == GroupReqs(g);
    } else {
      ChunksReqs(p.appends[1..]);
      assert GroupsOf(p)[1..] == Chunks(p.appends[1..]);
    }
  }

  lemma AnsweredMore(vs: seq<(Req, bool)>, rs: seq<Req>, ok: bool, r: Req)
    ensures Times(Answered(vs + Answer(rs, ok)), r) == Times(Answered(vs), r) + Times(rs, r)
  {
    assert Answered(vs + Answer(rs, ok)) == Answered(vs) + rs;
    TimesConcat(Answered(vs), rs, r);
  }

  lemma HeadMoves(rs: seq<Req>, vs: seq<(Req, bool)>, ok: bool, r: Req)
    requires rs != []
    ensures Times(rs[1..], r) + Times(Answered(vs + [(rs[0], ok)]), r) == Times(rs, r) + Times(Answered(vs), r)
  {
    assert Answered(vs + [(rs[0], ok)]) == Answered(vs) + [rs[0]];
    TimesConcat(Answered(vs), [rs[0]], r);
    assert [rs[0]][1..] == [];
  }

  lemma QueueConserves(s: State, e: Event, r: Req)
    requires Enabled(s, e) && (e.Enqueue? || e.Close? || e.Look? || e.Companions?)
    ensures Copies(Step(s, e), r) == Copies(s, r) + (if e.Enqueue? && e.r == r then 1 else 0)
  {
    match e
    case Enqueue(q) =>
      TimesConcat(s.queue, [q], r);
      assert [q][1..] == [];
    case Close => TimesConcat(s.refusing, s.queue, r);
    case Companions => TimesConcat(s.phase.held, s.queue, r);
    case _ =>
  }

  lemma WriterConserves(s: State, e: Event, r: Req)
    requires Enabled(s, e) && (e.PlanBatch? || e.Begin? || e.Finish? || e.NextGroup? || e.NextBatch?)
    ensures Copies(Step(s, e), r) == Copies(s, r)
  {
    match e
    case PlanBatch =>
      PlanTimes(s.phase.held, s.maxRows, r);
    case Begin => BeginConserves(s, s.phase.groups[0], s.phase.groups[1..], r);
    case _ =>
  }

  lemma BeginConserves(s: State, g: Group, later: seq<Group>, r: Req)
    requires s.phase.Executing? && GroupsReqs(s.phase.groups) == GroupReqs(g) + GroupsReqs(later)
    ensures Copies(Begun(s, g, later), r) == Copies(s, r)
  {
    var u, told := GroupReqs(Unlinked(g, s.st.marks)), AllSatisfied(g, s.st.marks);
    var before := Times(s.queue, r) + Times(s.refusing, r);
    calc {
      Copies(Begun(s, g, later), r);
    ==
      before + (Times(u, r) + Times(GroupsReqs(later), r)) + Times(Answered(s.verdicts + Answer(told, true)), r);
    == { AnsweredMore(s.verdicts, told, true, r); }
      before + Times(u, r) + Times(GroupsReqs(later), r) + Times(Answered(s.verdicts), r) + Times(told, r);
    == { BeginTimes(g, s.st.marks, r); }
      before + Times(GroupReqs(g), r) + Times(GroupsReqs(later), r) + Times(Answered(s.verdicts), r);
    == { TimesConcat(GroupReqs(g), GroupsReqs(later), r); }
      before + Times(GroupReqs(g) + GroupsReqs(later), r) + Times(Answered(s.verdicts), r);
    ==
      Copies(s, r);
    }
  }

  lemma PlanTimes(held: seq<Req>, maxRows: int, r: Req)
    ensures Times(GroupsReqs(GroupsOf(PlanOf(held, maxRows))), r) == Times(held, r)
  {
    PlanSplits(held, maxRows);
    TimesIs(held, r);
    TimesIs(GroupsReqs(GroupsOf(PlanOf(held, maxRows))), r);
  }

  lemma BeginTimes(g: Group, marks: map<Key, int>, r: Req)
    ensures Times(GroupReqs(g), r) == Times(GroupReqs(Unlinked(g, marks)), r) + Times(AllSatisfied(g, marks), r)
  {
    BeginSplits(g, marks);
    TimesIs(GroupReqs(g), r);
    TimesIs(GroupReqs(Unlinked(g, marks)), r);
    TimesIs(AllSatisfied(g, marks), r);
  }

  /** Every step conserves the requests: nothing is dropped, doubled or answered twice. */
  lemma StepConserves(s: State, e: Event, r: Req)
    requires Enabled(s, e)
    ensures Copies(Step(s, e), r) == Copies(s, r) + (if e.Enqueue? && e.r == r then 1 else 0)
  {
    if e.Enqueue? || e.Close? || e.Look? || e.Companions? { QueueConserves(s, e, r); }
    else if e.PlanBatch? || e.Begin? || e.Finish? || e.NextGroup? || e.NextBatch? { WriterConserves(s, e, r); }
    else if e.Refuse? { HeadMoves(s.refusing, s.verdicts, false, r); }
    else if e.Resolve? { HeadMoves(s.phase.todo, s.verdicts, s.phase.ok, r); }
  }

  // --- what every step keeps ---

  /** Durable, or superseded by something durable. */
  predicate Landed(st: Store, r: Req) {
    match r
    case Append(_, _, _) => r in st.db.rows
    case Trim(_, _, _) => r in st.db.others
    case Other(_) => r in st.db.others
    case _ => RankOf(r) <= Mark(st.marks, KeyOf(r))
  }

  /** A mark is the stored frontier of its key. */
  ghost predicate Marked(st: Store) {
    forall k :: k in st.marks ==> st.marks[k] > 0 && k in st.db.values && st.db.values[k].rank == st.marks[k]
  }

  /** The row landed as the k-th is in the spool under its sequence, unless an executed sweep reaches it. */
  ghost predicate Stays(db: Db, k: nat)
    requires k < |db.rows|
  {
    && (db.first + k in db.spool ==> db.spool[db.first + k] == db.rows[k])
    && (db.first + k in db.spool || SweptBy(db.others, db.first + k, db.rows[k]))
  }

  ghost predicate SpoolKept(db: Db) { Assigned(db) && forall k: nat :: k < |db.rows| ==> Stays(db, k) }

  /** An entry's waiters are its key's and not above it. */
  ghost predicate Sound(e: Entry) {
    forall j :: 0 <= j < |e.waiters| ==>
      IsUpsert(e.waiters[j]) && KeyOf(e.waiters[j]) == e.key && RankOf(e.waiters[j]) <= e.rank
  }

  ghost predicate AllSound(es: seq<Entry>) { forall i :: 0 <= i < |es| ==> Sound(es[i]) }

  ghost predicate SoundGroup(g: Group) {
    && (forall r :: r in g.rows ==> r.Append?) && (forall r :: r in g.stmts.rest ==> IsRest(r))
    && AllSound(g.stmts.checkpoints) && AllSound(g.stmts.sourceStates) && Separated(g.stmts)
  }

  ghost predicate SoundGroups(gs: seq<Group>) { forall i :: 0 <= i < |gs| ==> SoundGroup(gs[i]) }

  ghost predicate SoundPhase(p: Phase, st: Store) {
    match p
    case Executing(gs) => SoundGroups(gs)
    case InTx(g, gs) => SoundGroup(g) && SoundGroups(gs)
    case Resolving(todo, ok, gs) => SoundGroups(gs) && (ok ==> forall r :: r in todo ==> Landed(st, r))
    case _ => true
  }

  /** Success was told only to requests that landed. */
  ghost predicate Told(vs: seq<(Req, bool)>, st: Store) {
    forall i :: 0 <= i < |vs| && vs[i].1 ==> Landed(st, vs[i].0)
  }

  /** Rows and statements that landed have been, or are being, told so. */
  ghost predicate Accounted(s: State) {
    forall r :: r in s.st.db.rows || r in s.st.db.others ==>
      (r, true) in s.verdicts || (s.phase.Resolving? && s.phase.ok && r in s.phase.todo)
  }

  /** A caller past the lock signals, so a blocked writer never sleeps on work or on a close. */
  ghost predicate Awake(s: State) {
    && (s.phase.Blocked? && (s.queue != [] || s.closed) ==> s.wake || s.sending > 0)
    && (s.closed ==> s.queue == [])
    && (s.phase.Exited? ==> s.closed)
  }

  ghost predicate Inv(s: State) {
    Marked(s.st) && SpoolKept(s.st.db) && SoundPhase(s.phase, s.st) && Told(s.verdicts, s.st) && Accounted(s) &&
        Awake(s)
  }

  /** Nothing that landed is taken back by a later transaction. */
  ghost predicate Grows(st: Store, st': Store) {
    && (forall r :: r in st.db.rows ==> r in st'.db.rows) && (forall r :: r in st.db.others ==> r in st'.db.others)
    && forall k :: Mark(st.marks, k) <= Mark(st'.marks, k)
  }

  lemma {:induction false} RaiseKeeps(values: map<Key, Value>, marks0: map<Key, int>, marks: map<Key, int>,
                                      es: seq<Entry>, db: Db)
    requires Marked(Store(db.(values := values), marks))
    requires forall k :: Mark(marks0, k) <= Mark(marks, k)
    requires forall i, j :: 0 <= i < j < |es| ==> es[i].key != es[j].key
    requires forall i :: 0 <= i < |es| ==> Mark(marks0, es[i].key) == Mark(marks, es[i].key)
    ensures Marked(Store(db.(values := ExecEntries(values, marks0, es)), Raise(marks, es)))
    ensures forall k :: Mark(marks, k) <= Mark(Raise(marks, es), k)
    ensures forall i :: 0 <= i < |es| ==> es[i].rank <= Mark(Raise(marks, es), es[i].key)
    decreases |es|
  {
    if es != [] {
      RaiseKeeps(Exec(values, marks0, es[0]), marks0, RaiseOne(marks, es[0]), es[1..], db);
      assert forall i :: 1 <= i < |es| ==> es[i] == es[1..][i - 1];
    }
  }

  lemma {:induction false} WaiterOf(es: seq<Entry>, r: Req) returns (i: nat)
    requires r in Waiters(es)
    ensures i < |es| && r in es[i].waiters
  {
    if r in es[0].waiters { return 0; }
    i := WaiterOf(es[1..], r);
    i := i + 1;
  }

  /** A committed transaction lands every request it carried. */
  lemma CommitLands(st: Store, g: Group)
    requires SoundGroup(g) && Marked(st)
    ensures var st' := Commit(st, g.rows, g.stmts);
      Marked(st') && Grows(st, st') && forall r :: r in GroupReqs(g) ==> Landed(st', r)
  {
    var s, st' := g.stmts, Commit(st, g.rows, g.stmts);
    var values1, marks1 := ExecEntries(st.db.values, st.marks, s.checkpoints), Raise(st.marks, s.checkpoints);
    RaiseKeeps(st.db.values, st.marks, st.marks, s.checkpoints, st.db);
    forall i | 0 <= i < |s.sourceStates|
      ensures Mark(marks1, s.sourceStates[i].key) == Mark(st.marks, s.sourceStates[i].key)
    {
      RaiseOther(st.marks, s.checkpoints, s.sourceStates[i].key);
    }
    RaiseKeeps(values1, st.marks, marks1, s.sourceStates, st.db);
    MarkedAnyDb(st.db.(values := st'.db.values), st'.db, st'.marks);
    forall r | r in GroupReqs(g) ensures Landed(st', r) {
      if r in Waiters(s.checkpoints) {
        var i := WaiterOf(s.checkpoints, r);
        assert s.checkpoints[i].rank <= Mark(marks1, s.checkpoints[i].key) <= Mark(st'.marks, s.checkpoints[i].key);
      } else if r in Waiters(s.sourceStates) {
        var i := WaiterOf(s.sourceStates, r);
      }
    }
  }

  lemma SweptByMore(a: seq<Req>, b: seq<Req>, q: int, row: Req)
    ensures SweptBy(a, q, row) || SweptBy(b, q, row) ==> SweptBy(a + b, q, row)
  {
    if SweptBy(a, q, row) {
      var i :| 0 <= i < |a| && Sweeps(a[i], q, row);
      assert (a + b)[i] == a[i];
    } else if SweptBy(b, q, row) {
      var i :| 0 <= i < |b| && Sweeps(b[i], q, row);
      assert (a + b)[|a| + i] == b[i];
    }
  }

  /** A transaction takes a row out of the spool only by a sweep it executed. */
  lemma CommitSpools(st: Store, rows: seq<Req>, s: Stmts)
    requires SpoolKept(st.db)
    ensures SpoolKept(Commit(st, rows, s).db)
  {
    var db, db' := st.db, Commit(st, rows, s).db;
    var b := NextRow(db);
    forall q | q in db'.spool ensures q < NextRow(db') { LandAt(db.spool, b, rows, q); }
    forall k: nat | k < |db'.rows| ensures Stays(db', k) {
      var q := db.first + k;
      LandAt(db.spool, b, rows, q);
      SweptByMore(db.others, s.rest, q, db'.rows[k]);
      if k < |db.rows| { assert Stays(db, k); }
    }
  }

  lemma MarkedAnyDb(db: Db, db': Db, marks: map<Key, int>)
    requires Marked(Store(db, marks)) && db'.values == db.values
    ensures Marked(Store(db', marks))
  {}

  lemma {:induction false} UnlinkKeeps(es: seq<Entry>, marks: map<Key, int>)
    requires AllSound(es)
    ensures |Unlink(es, marks)| == |es| && AllSound(Unlink(es, marks))
    ensures forall i :: 0 <= i < |es| ==> Unlink(es, marks)[i].key == es[i].key
    ensures forall r :: r in Satisfied(es, marks) ==> IsUpsert(r) && RankOf(r) <= Mark(marks, KeyOf(r))
  {
    if es != [] {
      assert forall i :: 1 <= i < |es| ==> es[i] == es[1..][i - 1];
      UnlinkKeeps(es[1..], marks);
      assert Sound(es[0]);
    }
  }

  lemma BeginLands(st: Store, g: Group)
    requires SoundGroup(g)
    ensures SoundGroup(Unlinked(g, st.marks))
    ensures forall r :: r in AllSatisfied(g, st.marks) ==> Landed(st, r)
  {
    UnlinkKeeps(g.stmts.checkpoints, st.marks);
    UnlinkKeeps(g.stmts.sourceStates, st.marks);
  }

  lemma FoldedSound(es: seq<Entry>, batch: seq<Req>)
    requires Folded(es, batch)
    ensures AllSound(es)
  {
    forall i | 0 <= i < |es| ensures Sound(es[i]) {
      assert Fits(es[i], batch);
      var j: nat :| Carries(es[i], j);
    }
  }

  lemma {:induction false} OthersAre(batch: seq<Req>)
    ensures forall r :: r in OthersOf(batch) ==> IsRest(r)
  {
    if batch != [] { OthersAre(batch[..|batch| - 1]); }
  }

  lemma {:induction false} ChunksSound(cs: seq<seq<Req>>)
    requires forall r :: r in Joined(cs) ==> r.Append?
    ensures SoundGroups(Chunks(cs))
  {
    if cs != [] { ChunksSound(cs[1..]); }
  }

  lemma PlanSound(held: seq<Req>, maxRows: int)
    requires maxRows >= 1
    ensures SoundGroups(GroupsOf(PlanOf(held, maxRows)))
  {
    var p := PlanOf(held, maxRows);
    PlanEntries(held, maxRows);
    PlanAppends(held, maxRows);
    AppendsOfMembers(held);
    SiftedSeparates(p.stmts, held);
    FoldedSound(p.stmts.checkpoints, held);
    FoldedSound(p.stmts.sourceStates, held);
    OthersAre(held);
    JoinedIsFlatten(p.appends);
    if p.appends != [] { ChunksSound(p.appends[1..]); }
  }

  lemma StepKeeps(s: State, e: Event)
    requires Enabled(s, e) && Inv(s) && s.maxRows >= 1
    ensures Inv(Step(s, e))
  {
    match e
    case Begin => BeginKeeps(s, s.phase.groups[0], s.phase.groups[1..]);
    case Finish(ok) => FinishKeeps(s, ok);
    case PlanBatch => PlanSound(s.phase.held, s.maxRows);
    case Resolve =>
    case Refuse =>
    case _ =>
  }

  lemma BeginKeeps(s: State, g: Group, later: seq<Group>)
    requires Inv(s) && s.phase == Executing([g] + later)
    ensures Inv(Begun(s, g, later))
  {
    assert SoundGroup(([g] + later)[0]) && ([g] + later)[1..] == later;
    BeginLands(s.st, g);
  }

  lemma FinishKeeps(s: State, ok: bool)
    requires Inv(s) && s.phase.InTx?
    ensures Inv(Finished(s, s.phase.g, s.phase.groups, ok))
  {
    if ok {
      CommitLands(s.st, s.phase.g);
      CommitSpools(s.st, s.phase.g.rows, s.phase.g.stmts);
    }
  }

  // --- the order of appends, and of statements ---

  /** What a batch appends, or executes one by one. */
  function Picked(batch: seq<Req>, rest: bool): seq<Req> { if rest then OthersOf(batch) else AppendsOf(batch) }

  function Rode(g: Group, rest: bool): seq<Req> { if rest then g.stmts.rest else g.rows }

  function Stored(db: Db, rest: bool): seq<Req> { if rest then db.others else db.rows }

  function GroupsRode(gs: seq<Group>, rest: bool): seq<Req> {
    if gs == [] then [] else Rode(gs[0], rest) + GroupsRode(gs[1..], rest)
  }

  function WithTheWriter(p: Phase, rest: bool): seq<Req> {
    match p
    case Collecting(held) => Picked(held, rest)
    case Executing(gs) => GroupsRode(gs, rest)
    case InTx(g, gs) => Rode(g, rest) + GroupsRode(gs, rest)
    case Resolving(_, _, gs) => GroupsRode(gs, rest)
    case _ => []
  }

  /** The line every append (or statement) moves along: stored, with the writer, queued. */
  function Line(s: State, rest: bool): seq<Req> {
    Stored(s.st.db, rest) + WithTheWriter(s.phase, rest) + Picked(s.queue, rest)
  }

  ghost predicate Rising(line: seq<Req>, bound: int) {
    && (forall i, j :: 0 <= i < j < |line| ==> line[i].id < line[j].id)
    && (forall i :: 0 <= i < |line| ==> line[i].id < bound)
  }

  ghost predicate InOrder(s: State) { forall rest :: Rising(Line(s, rest), |s.accepted|) }

  lemma {:induction false} PickedConcat(a: seq<Req>, b: seq<Req>, rest: bool)
    ensures Picked(a + b, rest) == Picked(a, rest) + Picked(b, rest)
  {
    if b == [] {
      assert a + b == a;
    } else {
      PickedConcat(a, b[..|b| - 1], rest);
      assert (a + b)[..|a + b| - 1] == a + b[..|b| - 1];
    }
  }

  lemma PickedOne(r: Req, rest: bool)
    ensures Picked([r], rest) == if (rest && IsRest(r)) || (!rest && r.Append?) then [r] else []
  {
    var none := [r][..|[r]| - 1];
    assert none == [];
    assert AppendsOf(none) == [] && OthersOf(none) == [];
    assert [] + [r] == [r];
  }

  lemma {:induction false} ChunksRode(cs: seq<seq<Req>>, rest: bool)
    ensures GroupsRode(Chunks(cs), rest) == if rest then [] else Joined(cs)
  {
    if cs != [] { ChunksRode(cs[1..], rest); }
  }

  lemma PlanRode(held: seq<Req>, maxRows: int, rest: bool)
    requires maxRows >= 1
    ensures GroupsRode(GroupsOf(PlanOf(held, maxRows)), rest) == Picked(held, rest)
  {
    var p := PlanOf(held, maxRows);
    PlanAppends(held, maxRows);
    PlanEntries(held, maxRows);
    JoinedIsFlatten(p.appends);
    if p.appends == [] {
      assert [Group([], p.stmts)][1..] == [];
    } else {
      ChunksRode(p.appends[1..], rest);
    }
  }

  lemma DropMiddle(a: seq<Req>, b: seq<Req>, c: seq<Req>, bound: int)
    requires Rising(a + b + c, bound)
    ensures Rising(a + c, bound)
  {
    var whole, rest := a + b + c, a + c;
    assert forall i :: 0 <= i < |rest| ==> rest[i] == whole[if i < |a| then i else i + |b|];
  }

  lemma LineKeeps(s: State, e: Event)
    requires Enabled(s, e) && InOrder(s) && s.maxRows >= 1
    ensures InOrder(Step(s, e))
  {
    forall rest ensures Rising(Line(Step(s, e), rest), |Step(s, e).accepted|) {
      if e.Enqueue? || e.Close? || e.Look? || e.Companions? { QueueLine(s, e, rest); }
      else if e.Finish? && !e.ok { FailedLine(s, rest); }
      else { SameLine(s, e, rest); }
    }
  }

  lemma QueueLine(s: State, e: Event, rest: bool)
    requires Enabled(s, e) && Rising(Line(s, rest), |s.accepted|) &&
             (e.Enqueue? || e.Close? || e.Look? || e.Companions?)
    ensures Rising(Line(Step(s, e), rest), |Step(s, e).accepted|)
  {
    match e
    case Enqueue(r) => QueuedLine(s, r, rest);
    case Close => ClosedLine(s, rest);
    case Look => LookedLine(s, rest);
    case Companions =>
      PickedConcat(s.phase.held, s.queue, rest);
      DrainedLine(Stored(s.st.db, rest), Picked(s.phase.held, rest), Picked(s.queue, rest));
  }

  lemma LookedLine(s: State, rest: bool)
    requires s.phase.Looking? && Rising(Line(s, rest), |s.accepted|)
    ensures Rising(Line(Step(s, Look), rest), |s.accepted|)
  {
    var none: seq<Req> := [];
    assert Picked(none, rest) == [];
    if s.queue == [] {
      assert Line(Step(s, Look), rest) == Line(s, rest);
    } else {
      assert Line(Step(s, Look), rest) == Stored(s.st.db, rest) + Picked(s.queue, rest) + none;
      assert Line(Step(s, Look), rest) == Line(s, rest);
    }
  }

  lemma QueuedLine(s: State, r: Req, rest: bool)
    requires Rising(Line(s, rest), |s.accepted|) && r.id == |s.accepted|
    ensures Rising(Stored(s.st.db, rest) + WithTheWriter(s.phase, rest) + Picked(s.queue + [r], rest), |s.accepted| + 1)
  {
    PickedConcat(s.queue, [r], rest);
    PickedOne(r, rest);
    RisingSnoc(Line(s, rest), Picked([r], rest), |s.accepted|);
    assert Stored(s.st.db, rest) + WithTheWriter(s.phase, rest) + Picked(s.queue + [r], rest) ==
           Line(s, rest) + Picked([r], rest);
  }

  lemma RisingSnoc(line: seq<Req>, added: seq<Req>, bound: int)
    requires Rising(line, bound) && |added| <= 1 && (added != [] ==> added[0].id == bound)
    ensures Rising(line + added, bound + 1)
  {}

  lemma DrainedLine(rows: seq<Req>, held: seq<Req>, queued: seq<Req>)
    ensures rows + held + queued == rows + (held + queued) + [] == rows + (held + queued)
  {}

  lemma ClosedLine(s: State, rest: bool)
    requires Rising(Line(s, rest), |s.accepted|)
    ensures Rising(Line(Step(s, Close), rest), |s.accepted|)
  {
    var before := Stored(s.st.db, rest) + WithTheWriter(s.phase, rest);
    assert before + Picked(s.queue, rest) + [] == Line(s, rest);
    DropMiddle(before, Picked(s.queue, rest), [], |s.accepted|);
    assert before + [] == Line(Step(s, Close), rest);
  }

  lemma SameLine(s: State, e: Event, rest: bool)
    requires Enabled(s, e) && s.maxRows >= 1
    requires !e.Enqueue? && !e.Close? && !e.Look? && !e.Companions? && (e.Finish? ==> e.ok)
    ensures Line(Step(s, e), rest) == Line(s, rest)
  {
    if e.PlanBatch? { PlanRode(s.phase.held, s.maxRows, rest); }
    if e.Finish? { CommittedLine(s, rest); }
  }

  lemma CommittedLine(s: State, rest: bool)
    requires s.phase.InTx?
    ensures Line(Finished(s, s.phase.g, s.phase.groups, true), rest) == Line(s, rest)
  {
    var stored, g, later := Stored(s.st.db, rest), Rode(s.phase.g, rest), GroupsRode(s.phase.groups, rest);
    assert stored + g + later == stored + (g + later);
  }

  lemma FailedLine(s: State, rest: bool)
    requires s.phase.InTx? && Rising(Line(s, rest), |s.accepted|)
    ensures Rising(Line(Finished(s, s.phase.g, s.phase.groups, false), rest), |s.accepted|)
  {
    var after := GroupsRode(s.phase.groups, rest) + Picked(s.queue, rest);
    assert Line(s, rest) == Stored(s.st.db, rest) + Rode(s.phase.g, rest) + after;
    DropMiddle(Stored(s.st.db, rest), Rode(s.phase.g, rest), after, |s.accepted|);
    assert Line(Finished(s, s.phase.g, s.phase.groups, false), rest) == Stored(s.st.db, rest) + after;
  }

  // --- every run ---

  ghost predicate Tickets(accepted: seq<Req>) { forall i :: 0 <= i < |accepted| ==> accepted[i].id == i }

  /** s is reached from an open store over some stored values. */
  ghost predicate Opens(base: Db, maxRows: int, es: seq<Event>, s: State) {
    maxRows >= 1 && Opened(base) && After(Init(base, maxRows), es) == Reached(s)
  }

  lemma {:induction false} RunKeeps(s: State, es: seq<Event>, s': State)
    requires After(s, es) == Reached(s') && Inv(s) && InOrder(s) && Tickets(s.accepted) && s.maxRows >= 1
    ensures Inv(s') && InOrder(s') && Tickets(s'.accepted)
    decreases |es|
  {
    if es != [] {
      StepKeeps(s, es[0]);
      LineKeeps(s, es[0]);
      RunKeeps(Step(s, es[0]), es[1..], s');
    }
  }

  lemma {:induction false} RunConserves(s: State, es: seq<Event>, s': State, r: Req)
    requires After(s, es) == Reached(s') && Copies(s, r) == Times(s.accepted, r)
    ensures Copies(s', r) == Times(s'.accepted, r)
    decreases |es|
  {
    if es != [] {
      StepConserves(s, es[0], r);
      AcceptedGrows(s, es[0], r);
      RunConserves(Step(s, es[0]), es[1..], s', r);
    }
  }

  lemma AcceptedGrows(s: State, e: Event, r: Req)
    requires Enabled(s, e)
    ensures Times(Step(s, e).accepted, r) == Times(s.accepted, r) + (if e.Enqueue? && e.r == r then 1 else 0)
  {
    if e.Enqueue? {
      TimesConcat(s.accepted, [e.r], r);
      assert [e.r][1..] == [];
    }
  }

  lemma ReachableKeeps(base: Db, maxRows: int, es: seq<Event>, s: State)
    requires Opens(base, maxRows, es, s)
    ensures Inv(s) && InOrder(s) && Tickets(s.accepted)
  {
    RunKeeps(Init(base, maxRows), es, s);
  }

  /** A list of distinct tickets holds each request at most once. */
  lemma TicketOnce(accepted: seq<Req>, r: Req)
    requires Tickets(accepted)
    ensures Times(accepted, r) == if r in accepted then 1 else 0
  {
    TimesIs(accepted, r);
    if r in accepted {
      var i :| 0 <= i < |accepted| && accepted[i] == r;
      assert accepted == accepted[..i] + [r] + accepted[i + 1..];
      assert r !in accepted[..i] && r !in accepted[i + 1..];
    }
  }

  /**
   Exactly once: in every reachable state of every interleaving, shutdown races and
   failed transactions included, an accepted request is in exactly one place, and no
   verdict was ever handed out twice.
   */
  lemma ExactlyOnce(base: Db, maxRows: int, es: seq<Event>, s: State, r: Req)
    requires Opens(base, maxRows, es, s)
    ensures Copies(s, r) == if r in s.accepted then 1 else 0
    ensures forall i, j :: 0 <= i < j < |s.verdicts| ==> s.verdicts[i].0 != s.verdicts[j].0
  {
    CopiesOnce(base, maxRows, es, s, r);
    forall i, j | 0 <= i < j < |s.verdicts| ensures s.verdicts[i].0 != s.verdicts[j].0 {
      if s.verdicts[i].0 == s.verdicts[j].0 {
        CopiesOnce(base, maxRows, es, s, s.verdicts[i].0);
        TimesTwice(Answered(s.verdicts), i, j);
      }
    }
  }

  lemma CopiesOnce(base: Db, maxRows: int, es: seq<Event>, s: State, r: Req)
    requires Opens(base, maxRows, es, s)
    ensures Copies(s, r) == if r in s.accepted then 1 else 0
  {
    ReachableKeeps(base, maxRows, es, s);
    RunConserves(Init(base, maxRows), es, s, r);
    TicketOnce(s.accepted, r);
  }

  lemma TimesTwice(rs: seq<Req>, i: nat, j: nat)
    requires i < j < |rs| && rs[i] == rs[j]
    ensures Times(rs, rs[i]) >= 2
  {
    TimesIs(rs, rs[i]);
    assert rs == rs[..i] + [rs[i]] + rs[i + 1..j] + [rs[j]] + rs[j + 1..];
  }

  lemma TimesSome(rs: seq<Req>, r: Req)
    ensures Times(rs, r) > 0 <==> r in rs
  {
    TimesIs(rs, r);
  }

  lemma AnsweredHas(vs: seq<(Req, bool)>, r: Req)
    ensures r in Answered(vs) <==> (r, true) in vs || (r, false) in vs
  {
    if r in Answered(vs) {
      var i :| 0 <= i < |vs| && Answered(vs)[i] == r;
      var (x, ok) := vs[i];
      assert vs[i] == (r, ok) && (ok == true || ok == false);
    }
    forall i | 0 <= i < |vs| && vs[i].0 == r ensures r in Answered(vs) { assert Answered(vs)[i] == r; }
  }

  /** Once the writer has exited and shutdown has refused what it took, every request has its verdict. */
  lemma AllAnsweredAtExit(base: Db, maxRows: int, es: seq<Event>, s: State, r: Req)
    requires Opens(base, maxRows, es, s) && s.phase.Exited? && s.refusing == [] && r in s.accepted
    ensures (r, true) in s.verdicts || (r, false) in s.verdicts
  {
    ReachableKeeps(base, maxRows, es, s);
    CopiesOnce(base, maxRows, es, s, r);
    TimesSome(Answered(s.verdicts), r);
    AnsweredHas(s.verdicts, r);
  }

  /** What landed was not answered with a failure. */
  lemma NotTwice(base: Db, maxRows: int, es: seq<Event>, s: State, r: Req)
    requires Opens(base, maxRows, es, s) && !IsUpsert(r) && Landed(s.st, r)
    ensures (r, false) !in s.verdicts
  {
    ReachableKeeps(base, maxRows, es, s);
    if (r, false) in s.verdicts {
      ExactlyOnce(base, maxRows, es, s, r);
      AnsweredHas(s.verdicts, r);
      TimesSome(Answered(s.verdicts), r);
      if (r, true) !in s.verdicts { TimesSome(s.phase.todo, r); }
      assert false;
    }
  }

  /**
   Rows land in the order their requests were accepted: a row's place fixes its sequence
   number, so successful appends are numbered consecutively in enqueue order.
   */
  lemma AppendsLandInOrder(base: Db, maxRows: int, es: seq<Event>, s: State, i: nat, j: nat)
    requires Opens(base, maxRows, es, s) && i < j < |s.st.db.rows|
    ensures var a, b := s.st.db.rows[i], s.st.db.rows[j];
      a.id < b.id < |s.accepted| && s.accepted[a.id] == a && s.accepted[b.id] == b
  {
    ReachableKeeps(base, maxRows, es, s);
    assert Rising(Line(s, false), |s.accepted|);
    assert Line(s, false)[i] == s.st.db.rows[i] && Line(s, false)[j] == s.st.db.rows[j];
    RowAccepted(base, maxRows, es, s, s.st.db.rows[i]);
    RowAccepted(base, maxRows, es, s, s.st.db.rows[j]);
  }

  lemma RowAccepted(base: Db, maxRows: int, es: seq<Event>, s: State, r: Req)
    requires Opens(base, maxRows, es, s) && r in s.st.db.rows
    ensures r in s.accepted
  {
    ReachableKeeps(base, maxRows, es, s);
    CopiesOnce(base, maxRows, es, s, r);
    AnsweredHas(s.verdicts, r);
    TimesSome(Answered(s.verdicts), r);
    if s.phase.Resolving? { TimesSome(s.phase.todo, r); }
  }

  /** The writer never sleeps through work or a close: asleep with nobody about to signal, there is neither. */
  lemma NoLostWakeup(base: Db, maxRows: int, es: seq<Event>, s: State)
    requires Opens(base, maxRows, es, s) && s.phase.Blocked? && !s.wake && s.sending == 0
    ensures s.queue == [] && !s.closed
  {
    ReachableKeeps(base, maxRows, es, s);
  }

  // --- who is answered before the transaction ---

  lemma {:induction false} SatisfiedHas(es: seq<Entry>, marks: map<Key, int>, r: Req)
    ensures r in Satisfied(es, marks) <==>
        exists i :: 0 <= i < |es| && r in es[i].waiters && es[i].rank <= Mark(marks, es[i].key)
  {
    if es != [] {
      SatisfiedHas(es[1..], marks, r);
      assert forall i :: 1 <= i < |es| ==> es[i] == es[1..][i - 1];
      if r in Satisfied(es[1..], marks) {
        var i :| 0 <= i < |es[1..]| && r in es[1..][i].waiters && es[1..][i].rank <= Mark(marks, es[1..][i].key);
        assert r in es[i + 1].waiters;
      }
    }
  }

  /**
   Satisfaction is judged per coalesced entry, not per waiter: a request is answered ahead
   of the transaction exactly when every request of the batch for its key is at or below
   the mark. One at or below the mark that was folded with a larger one still shares the
   fate of the transaction.
   */
  lemma AnsweredAheadIff(held: seq<Req>, marks: map<Key, int>, maxRows: int, r: Req)
    requires r in held && IsUpsert(r)
    ensures r in AllSatisfied(GroupsOf(PlanOf(held, maxRows))[0], marks) <==>
              forall x :: x in held && IsUpsert(x) && KeyOf(x) == KeyOf(r) ==> RankOf(x) <= Mark(marks, KeyOf(r))
  {
    OfKeyMembers(held, KeyOf(r));
    var s := PlanOf(held, maxRows).stmts;
    PlanEntries(held, maxRows);
    var (es, others) := if r.Checkpoint? then (s.checkpoints, s.sourceStates) else (s.sourceStates, s.checkpoints);
    SiftedSeparates(s, held);
    assert HasKey(es, KeyOf(r)) && !HasKey(others, KeyOf(r));
    EntryAhead(es, held, marks, r);
    NoEntry(others, held, marks, r);
  }

  lemma NoEntry(es: seq<Entry>, held: seq<Req>, marks: map<Key, int>, r: Req)
    requires Folded(es, held) && IsUpsert(r) && !HasKey(es, KeyOf(r))
    ensures r !in Satisfied(es, marks)
  {
    SatisfiedHas(es, marks, r);
    forall i | 0 <= i < |es| ensures r !in es[i].waiters { assert Fits(es[i], held); }
  }

  lemma EntryAhead(es: seq<Entry>, held: seq<Req>, marks: map<Key, int>, r: Req)
    requires Folded(es, held) && r in held && IsUpsert(r) && HasKey(es, KeyOf(r))
    ensures r in Satisfied(es, marks) <==>
              forall x :: x in held && IsUpsert(x) && KeyOf(x) == KeyOf(r) ==> RankOf(x) <= Mark(marks, KeyOf(r))
  {
    OfKeyMembers(held, KeyOf(r));
    SatisfiedHas(es, marks, r);
    var i :| 0 <= i < |es| && es[i].key == KeyOf(r);
    assert Fits(es[i], held);
    var j: nat :| Carries(es[i], j);
    assert es[i].waiters[j] in OfKey(held, KeyOf(r));
    forall k | 0 <= k < |es| && r in es[k].waiters ensures k == i { assert Fits(es[k], held); }
  }
}
