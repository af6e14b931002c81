/**
 What a group of committed requests leaves in the store, against the same requests
 committed one transaction each.
 */
module GroupStore {
  import opened GroupCommit

  datatype Value = Value(rank: int, state: string)

  /**
   The durable half: the rows that ever landed in this handle's lifetime, in sequence order
   from `first`; the spool table by sequence; upserted values; and statements executed.
   */
  datatype Db = Db(rows: seq<Req>, first: int, spool: map<int, Req>, values: map<Key, Value>, others: seq<Req>)

  /** The durable half and the writer's own high-water marks, which live as long as the handle. */
  datatype Store = Store(db: Db, marks: map<Key, int>)

  function Mark(marks: map<Key, int>, k: Key): int { if k in marks then marks[k] else 0 }

  // --- one transaction ---

  /** One coalesced upsert: superseded ones are skipped. */
  function Exec(values: map<Key, Value>, marks: map<Key, int>, e: Entry): map<Key, Value> {
    if e.rank <= Mark(marks, e.key) then values else values[e.key := Value(e.rank, e.state)]
  }

  function ExecEntries(values: map<Key, Value>, marks: map<Key, int>, es: seq<Entry>): map<Key, Value>
    decreases |es|
  {
    if es == [] then values else ExecEntries(Exec(values, marks, es[0]), marks, es[1..])
  }

  function RaiseOne(marks: map<Key, int>, e: Entry): map<Key, int> {
    if e.rank > Mark(marks, e.key) then marks[e.key := e.rank] else marks
  }

  function Raise(marks: map<Key, int>, es: seq<Entry>): map<Key, int>
    decreases |es|
  {
    if es == [] then marks else Raise(RaiseOne(marks, es[0]), es[1..])
  }

  /** The sequence the next row will get. */
  function NextRow(db: Db): int { db.first + |db.rows| }

  /** Insert rows from a sequence on. */
  function Land(spool: map<int, Req>, base: int, rows: seq<Req>): map<int, Req> {
    if rows == [] then spool
    else Land(spool, base, rows[..|rows| - 1])[base + |rows| - 1 := rows[|rows| - 1]]
  }

  /** A retention sweep reaches the row with sequence q. */
  predicate Sweeps(t: Req, q: int, row: Req) {
    t.Trim? && row.Append? && t.pipeline == row.pipeline && q <= t.through
  }

  predicate SweptBy(stmts: seq<Req>, q: int, row: Req) {
    exists i :: 0 <= i < |stmts| && Sweeps(stmts[i], q, row)
  }

  function Cut(spool: map<int, Req>, stmts: seq<Req>): map<int, Req> {
    map q | q in spool && !SweptBy(stmts, q, spool[q]) :: spool[q]
  }

  /** A transaction that committed: the spool rows, then the statements, then the marks. */
  function Commit(st: Store, rows: seq<Req>, s: Stmts): Store {
    Store(Db(st.db.rows + rows, st.db.first,
             Cut(Land(st.db.spool, NextRow(st.db), rows), s.rest),
             ExecEntries(ExecEntries(st.db.values, st.marks, s.checkpoints), st.marks, s.sourceStates),
             st.db.others + s.rest),
          Raise(Raise(st.marks, s.checkpoints), s.sourceStates))
  }

  /** The transactions of a plan: the statements ride the first. */
  datatype Group = Group(rows: seq<Req>, stmts: Stmts)

  function Chunks(cs: seq<seq<Req>>): seq<Group> {
    if cs == [] then [] else [Group(cs[0], NoStmts)] + Chunks(cs[1..])
  }

  function GroupsOf(p: Plan): seq<Group> {
    if p.appends == [] then [Group([], p.stmts)]
    else [Group(p.appends[0], p.stmts)] + Chunks(p.appends[1..])
  }

  function CommitAll(st: Store, gs: seq<Group>): Store
    decreases |gs|
  {
    if gs == [] then st else CommitAll(Commit(st, gs[0].rows, gs[0].stmts), gs[1..])
  }

  // --- one request at a time ---

  /** A store that executes requests one after the other, each as a transaction of its own. */
  function Alone(st: Store, r: Req): Store {
    match r
    case Append(_, _, _) => st.(db := st.db.(rows := st.db.rows + [r], spool := st.db.spool[NextRow(st.db) := r]))
    case Trim(_, _, _) => st.(db := st.db.(others := st.db.others + [r], spool := Cut(st.db.spool, [r])))
    case Other(_) => st.(db := st.db.(others := st.db.others + [r]))
    case _ =>
      if RankOf(r) <= Mark(st.marks, KeyOf(r)) then st
      else Store(st.db.(values := st.db.values[KeyOf(r) := Value(RankOf(r), StateOf(r))]),
                 st.marks[KeyOf(r) := RankOf(r)])
  }

  function OneByOne(st: Store, batch: seq<Req>): Store {
    if batch == [] then st else Alone(OneByOne(st, batch[..|batch| - 1]), batch[|batch| - 1])
  }

  // --- which rows a sweep takes ---

  /** A sweep takes its own pipeline's rows at or below its cutoff, and leaves every other row as it was. */
  lemma AloneSweeps(st: Store, t: Req)
    requires t.Trim? && forall q :: q in st.db.spool ==> st.db.spool[q].Append?
    ensures var (before, after) := (st.db.spool, Alone(st, t).db.spool);
      && (forall q :: q in after <==> q in before && !(before[q].pipeline == t.pipeline && q <= t.through))
      && (forall q :: q in after ==> after[q] == before[q])
  {
    forall q | q in st.db.spool
      ensures SweptBy([t], q, st.db.spool[q]) <==> st.db.spool[q].pipeline == t.pipeline && q <= t.through
    {
      SweptAmong([t], q, st.db.spool[q]);
    }
  }

  /** Whether a row goes, in terms of the statements themselves. */
  lemma SweptAmong(stmts: seq<Req>, q: int, row: Req)
    requires row.Append?
    ensures SweptBy(stmts, q, row) <==>
            exists t :: t in stmts && t.Trim? && t.pipeline == row.pipeline && q <= t.through
  {
    if t :| t in stmts && t.Trim? && t.pipeline == row.pipeline && q <= t.through {
      var i :| 0 <= i < |stmts| && stmts[i] == t;
      assert Sweeps(stmts[i], q, row);
    }
  }

  /**
   A transaction adds its rows from the next sequence on and leaves exactly the rows, old
   and new, that none of its sweeps names by pipeline and cutoff.
   */
  lemma CommitSweeps(st: Store, rows: seq<Req>, s: Stmts, q: int)
    requires forall k :: k in st.db.spool ==> st.db.spool[k].Append? && k < NextRow(st.db)
    requires forall i :: 0 <= i < |rows| ==> rows[i].Append?
    ensures var (b, before, after) := (NextRow(st.db), st.db.spool, Commit(st, rows, s).db.spool);
      if q in before || b <= q < b + |rows| then
        var row := if b <= q < b + |rows| then rows[q - b] else before[q];
        && (q in after <==> !exists t :: t in s.rest && t.Trim? && t.pipeline == row.pipeline && q <= t.through)
        && (q in after ==> after[q] == row)
      else q !in after
  {
    var b := NextRow(st.db);
    LandAt(st.db.spool, b, rows, q);
    if q in st.db.spool || b <= q < b + |rows| {
      SweptAmong(s.rest, q, if b <= q < b + |rows| then rows[q - b] else st.db.spool[q]);
    }
  }

  // --- what a store holds for one key ---

  datatype Cell = Cell(mark: int, marked: bool, value: Option)
  datatype Option = None | Some(v: Value)

  function CellOf(values: map<Key, Value>, marks: map<Key, int>, k: Key): Cell {
    Cell(Mark(marks, k), k in marks, if k in values then Some(values[k]) else None)
  }

  function At(st: Store, k: Key): Cell { CellOf(st.db.values, st.marks, k) }

  function Put(c: Cell, rank: int, state: string): Cell {
    if rank <= c.mark then c else Cell(rank, true, Some(Value(rank, state)))
  }

  function PutEntry(c: Cell, es: seq<Entry>, k: Key): Cell
    decreases |es|
  {
    if es == [] then c
    else PutEntry(if es[0].key == k then Put(c, es[0].rank, es[0].state) else c, es[1..], k)
  }

  /** Executing a list of distinct keys and raising the marks puts each entry in its own cell. */
  lemma {:induction false} ExecAt(values: map<Key, Value>, marks: map<Key, int>, marks0: map<Key, int>, es: seq<Entry>,
                                  k: Key)
    requires DistinctKeys(es)
    requires forall i :: 0 <= i < |es| ==> Mark(marks0, es[i].key) == Mark(marks, es[i].key)
    ensures CellOf(ExecEntries(values, marks0, es), Raise(marks, es), k) == PutEntry(CellOf(values, marks, k), es, k)
    decreases |es|
  {
    if es != [] {
      ExecAt(Exec(values, marks0, es[0]), RaiseOne(marks, es[0]), marks0, es[1..], k);
    }
  }

  lemma {:induction false} PutEntryAt(c: Cell, es: seq<Entry>, k: Key)
    requires DistinctKeys(es)
    ensures !HasKey(es, k) ==> PutEntry(c, es, k) == c
    ensures forall i :: 0 <= i < |es| && es[i].key == k ==> PutEntry(c, es, k) == Put(c, es[i].rank, es[i].state)
    decreases |es|
  {
    if es != [] {
      var c1 := if es[0].key == k then Put(c, es[0].rank, es[0].state) else c;
      PutEntryAt(c1, es[1..], k);
      assert forall i :: 0 <= i < |es| - 1 ==> es[1..][i] == es[i + 1];
      if es[0].key == k { assert !HasKey(es[1..], k); }
      if HasKey(es[1..], k) { var i :| 0 <= i < |es[1..]| && es[1..][i].key == k; assert es[i + 1].key == k; }
    }
  }

  lemma {:induction false} RaiseOther(marks: map<Key, int>, es: seq<Entry>, k: Key)
    requires !HasKey(es, k)
    ensures Mark(Raise(marks, es), k) == Mark(marks, k)
    decreases |es|
  {
    if es != [] {
      assert es[0].key != k;
      assert forall i :: 0 <= i < |es| - 1 ==> es[1..][i] == es[i + 1];
      RaiseOther(RaiseOne(marks, es[0]), es[1..], k);
    }
  }

  ghost predicate Separated(s: Stmts) {
    && DistinctKeys(s.checkpoints) && DistinctKeys(s.sourceStates)
    && (forall i :: 0 <= i < |s.checkpoints| ==> s.checkpoints[i].key.Cp?)
    && (forall i :: 0 <= i < |s.sourceStates| ==> s.sourceStates[i].key.Src?)
  }

  lemma CommitAt(st: Store, rows: seq<Req>, s: Stmts, k: Key)
    requires Separated(s)
    ensures At(Commit(st, rows, s), k) == PutEntry(PutEntry(At(st, k), s.checkpoints, k), s.sourceStates, k)
  {
    ExecAt(st.db.values, st.marks, st.marks, s.checkpoints, k);
    forall i | 0 <= i < |s.sourceStates|
      ensures Mark(Raise(st.marks, s.checkpoints), s.sourceStates[i].key) == Mark(st.marks, s.sourceStates[i].key)
    {
      RaiseOther(st.marks, s.checkpoints, s.sourceStates[i].key);
    }
    ExecAt(ExecEntries(st.db.values, st.marks, s.checkpoints), Raise(st.marks, s.checkpoints), st.marks,
           s.sourceStates, k);
  }

  /** A transaction of rows alone. */
  function LandMore(st: Store, rows: seq<Req>): Store {
    st.(db := st.db.(rows := st.db.rows + rows, spool := Land(st.db.spool, NextRow(st.db), rows)))
  }

  lemma {:induction false} LandAgain(spool: map<int, Req>, base: int, a: seq<Req>, b: seq<Req>)
    ensures Land(Land(spool, base, a), base + |a|, b) == Land(spool, base, a + b)
  {
    if b == [] {
      assert a + b == a;
    } else {
      LandAgain(spool, base, a, b[..|b| - 1]);
      assert (a + b)[..|a + b| - 1] == a + b[..|b| - 1];
    }
  }

  /** What an insert leaves under one sequence. */
  lemma {:induction false} LandAt(spool: map<int, Req>, base: int, rows: seq<Req>, q: int)
    ensures q in Land(spool, base, rows) <==> q in spool || base <= q < base + |rows|
    ensures q in Land(spool, base, rows) ==>
      Land(spool, base, rows)[q] == if base <= q < base + |rows| then rows[q - base] else spool[q]
  {
    if rows != [] { LandAt(spool, base, rows[..|rows| - 1], q); }
  }

  lemma OnlyRows(st: Store, rows: seq<Req>)
    ensures Commit(st, rows, NoStmts) == LandMore(st, rows)
  {
    var landed := Land(st.db.spool, NextRow(st.db), rows);
    assert Cut(landed, []) == landed;
  }

  lemma {:induction false} ChunksCommit(st: Store, cs: seq<seq<Req>>)
    ensures CommitAll(st, Chunks(cs)) == LandMore(st, Joined(cs))
    decreases |cs|
  {
    if cs == [] {
      assert Land(st.db.spool, NextRow(st.db), []) == st.db.spool;
    } else {
      OnlyRows(st, cs[0]);
      ChunksCommit(LandMore(st, cs[0]), cs[1..]);
      LandAgain(st.db.spool, NextRow(st.db), cs[0], Joined(cs[1..]));
    }
  }

  function Joined(cs: seq<seq<Req>>): seq<Req> {
    if cs == [] then [] else cs[0] + Joined(cs[1..])
  }

  lemma {:induction false} JoinedIsFlatten(cs: seq<seq<Req>>)
    ensures Joined(cs) == Flatten(cs)
    decreases |cs|
  {
    if |cs| == 1 {
      assert cs[..0] == [] && cs[1..] == [];
    } else if |cs| > 1 {
      JoinedIsFlatten(cs[1..]);
      JoinedIsFlatten(cs[..|cs| - 1]);
      assert cs[1..][..|cs| - 2] == cs[..|cs| - 1][1..];
      JoinedIsFlatten(cs[1..|cs| - 1]);
      assert cs[1..][..|cs| - 2] == cs[1..|cs| - 1];
    }
  }

  function FirstChunk(p: Plan): seq<Req> { if p.appends == [] then [] else p.appends[0] }

  function LaterRows(p: Plan): seq<Req> { if p.appends == [] then [] else Joined(p.appends[1..]) }

  /** All transactions of a plan, when each commits: the statements see the first chunk's rows only. */
  lemma PlanCommits(st: Store, p: Plan)
    ensures CommitAll(st, GroupsOf(p)) == LandMore(Commit(st, FirstChunk(p), p.stmts), LaterRows(p))
    ensures FirstChunk(p) + LaterRows(p) == Flatten(p.appends)
  {
    JoinedIsFlatten(p.appends);
    if p.appends == [] {
      ChunksCommit(Commit(st, [], p.stmts), []);
    } else {
      assert GroupsOf(p)[1..] == Chunks(p.appends[1..]);
      ChunksCommit(Commit(st, p.appends[0], p.stmts), p.appends[1..]);
    }
  }

  // --- grouping against one by one ---

  /** A key's requests put one after the other. */
  function PutAll(c: Cell, ws: seq<Req>): Cell {
    if ws == [] then c
    else
      var c1, w := PutAll(c, ws[..|ws| - 1]), ws[|ws| - 1];
      if IsUpsert(w) then Put(c1, RankOf(w), StateOf(w)) else c1
  }

  /** The i-th waiter is the earliest of those with the largest rank. */
  ghost predicate Leads(ws: seq<Req>, i: nat) {
    && i < |ws| && (forall j :: 0 <= j < |ws| ==> IsUpsert(ws[j]))
    && (forall j :: 0 <= j < |ws| ==> RankOf(ws[j]) <= RankOf(ws[i]))
    && (forall j :: 0 <= j < i ==> RankOf(ws[j]) < RankOf(ws[i]))
  }

  /** One after the other, the earliest of the largest stays. */
  lemma {:induction false} PutAllLeads(c: Cell, ws: seq<Req>) returns (i: nat)
    requires ws != [] && forall j :: 0 <= j < |ws| ==> IsUpsert(ws[j])
    ensures Leads(ws, i) && PutAll(c, ws) == Put(c, RankOf(ws[i]), StateOf(ws[i]))
  {
    var before, w := ws[..|ws| - 1], ws[|ws| - 1];
    if before == [] { return 0; }
    i := PutAllLeads(c, before);
    if RankOf(w) > RankOf(before[i]) { i := |ws| - 1; }
  }

  lemma DraftOne(r: Req)
    ensures Drafted([r], 1) == Place(NoDraft, r, 1)
  {
    var before := [r][..|[r]| - 1];
    assert before == [];
    assert Drafted(before, 1) == NoDraft;
    assert [r][|[r]| - 1] == r;
  }

  /** The sequential store is the group writer fed one request at a time. */
  lemma AloneIsItsGroup(st: Store, r: Req)
    ensures CommitAll(st, GroupsOf(PlanOf([r], 1))) == Alone(st, r)
  {
    DraftOne(r);
    var p := PlanOf([r], 1);
    PlanCommits(st, p);
    assert Land(st.db.spool, NextRow(st.db), []) == st.db.spool;
    assert st.db.rows + [] == st.db.rows && st.db.others + [] == st.db.others;
    if r.Append? {
      assert p.appends == [[r]] && p.appends[1..] == [];
      assert [r][..|[r]| - 1] == [];
      OnlyRows(st, [r]);
    } else if IsUpsert(r) {
      assert p.appends == [] && p.stmts.rest == [];
      assert Cut(st.db.spool, []) == st.db.spool;
      AloneUpsert(st, r, p);
    } else {
      assert p.appends == [] && p.stmts.rest == [r];
      if r.Other? { assert Cut(st.db.spool, [r]) == st.db.spool; }
    }
  }

  lemma AloneUpsert(st: Store, r: Req, p: Plan)
    requires IsUpsert(r) && p == Closed(Place(NoDraft, r, 1))
    ensures var c := Commit(st, [], p.stmts); c.db.values == Alone(st, r).db.values && c.marks == Alone(st, r).marks
  {
    var es := [NewEntry(r)];
    assert es[1..] == [];
    assert ExecEntries(st.db.values, st.marks, es) == Exec(st.db.values, st.marks, es[0]);
    assert Raise(st.marks, es) == RaiseOne(st.marks, es[0]);
  }

  lemma {:induction false} OneByOneIs(st: Store, batch: seq<Req>)
    ensures OneByOne(st, batch).db.rows == st.db.rows + AppendsOf(batch)
    ensures OneByOne(st, batch).db.others == st.db.others + OthersOf(batch)
    ensures OneByOne(st, batch).db.first == st.db.first
  {
    if batch != [] {
      OneByOneIs(st, batch[..|batch| - 1]);
    }
  }

  lemma {:induction false} OneByOneAt(st: Store, batch: seq<Req>, k: Key)
    ensures At(OneByOne(st, batch), k) == PutAll(At(st, k), OfKey(batch, k))
  {
    if batch != [] {
      var before, r := batch[..|batch| - 1], batch[|batch| - 1];
      OneByOneAt(st, before, k);
      calc {
        At(OneByOne(st, batch), k);
      ==
        At(Alone(OneByOne(st, before), r), k);
      == { AtSnoc(st, OneByOne(st, before), before, r, k); }
        PutAll(At(st, k), OfKey(before + [r], k));
      == { assert batch == before + [r]; }
        PutAll(At(st, k), OfKey(batch, k));
      }
    }
  }

  lemma AtSnoc(st: Store, st1: Store, before: seq<Req>, r: Req, k: Key)
    requires At(st1, k) == PutAll(At(st, k), OfKey(before, k))
    ensures At(Alone(st1, r), k) == PutAll(At(st, k), OfKey(before + [r], k))
  {
    AloneAt(st1, r, k);
    OfKeySnoc(before, r, k);
    if IsUpsert(r) && KeyOf(r) == k {
      PutAllSnoc(At(st, k), OfKey(before, k), r);
    } else {
      assert OfKey(before, k) + [] == OfKey(before, k);
    }
  }

  lemma AloneAt(st: Store, r: Req, k: Key)
    ensures At(Alone(st, r), k) ==
        if IsUpsert(r) && KeyOf(r) == k then Put(At(st, k), RankOf(r), StateOf(r)) else At(st, k)
  {}

  lemma PutAllSnoc(c: Cell, ws: seq<Req>, r: Req)
    ensures IsUpsert(r) ==> PutAll(c, ws + [r]) == Put(PutAll(c, ws), RankOf(r), StateOf(r))
  {
    assert (ws + [r])[..|ws|] == ws;
  }

  /** One plan, all its transactions committed: each key takes the newest pair of its requests. */
  lemma GroupedIs(st: Store, batch: seq<Req>, maxRows: int, k: Key) returns (i: nat)
    requires maxRows >= 1
    ensures var (g, ws) := (CommitAll(st, GroupsOf(PlanOf(batch, maxRows))), OfKey(batch, k));
      && g.db.rows == st.db.rows + AppendsOf(batch) && g.db.others == st.db.others + OthersOf(batch)
      && g.db.first == st.db.first
      && (ws == [] ==> At(g, k) == At(st, k))
      && (ws != [] ==> Wins(ws, i) && At(g, k) == Put(At(st, k), RankOf(ws[i]), StateOf(ws[i])))
  {
    var p := PlanOf(batch, maxRows);
    PlanCommits(st, p);
    PlanAppends(batch, maxRows);
    PlanEntries(batch, maxRows);
    SiftedSeparates(p.stmts, batch);
    GroupedRest(st, p);
    CommitAt(st, FirstChunk(p), p.stmts, k);
    PutEntryAt(At(st, k), p.stmts.checkpoints, k);
    var c1 := PutEntry(At(st, k), p.stmts.checkpoints, k);
    PutEntryAt(c1, p.stmts.sourceStates, k);
    i := 0;
    if OfKey(batch, k) != [] {
      var es := if k.Cp? then p.stmts.checkpoints else p.stmts.sourceStates;
      i := WinnerOf(es, batch, k, At(st, k));
    }
  }

  lemma GroupedRest(st: Store, p: Plan)
    ensures var g, c := CommitAll(st, GroupsOf(p)), Commit(st, FirstChunk(p), p.stmts);
      && g.db.rows == st.db.rows + Flatten(p.appends) && g.db.others == st.db.others + p.stmts.rest
      && g.db.first == st.db.first && g.db.values == c.db.values && g.marks == c.marks
  {
    PlanCommits(st, p);
    assert st.db.rows + FirstChunk(p) + LaterRows(p) == st.db.rows + (FirstChunk(p) + LaterRows(p));
  }

  lemma SiftedSeparates(s: Stmts, batch: seq<Req>)
    requires Sifted(s, batch)
    ensures Separated(s)
    ensures forall k: Key :: (k.Cp? ==> !HasKey(s.sourceStates, k)) && (k.Src? ==> !HasKey(s.checkpoints, k))
  {
    forall i | 0 <= i < |s.checkpoints| ensures s.checkpoints[i].key.Cp? {
      assert HasKey(s.checkpoints, s.checkpoints[i].key);
    }
    forall i | 0 <= i < |s.sourceStates| ensures s.sourceStates[i].key.Src? {
      assert HasKey(s.sourceStates, s.sourceStates[i].key);
    }
  }

  lemma WinnerOf(es: seq<Entry>, batch: seq<Req>, k: Key, c: Cell) returns (i: nat)
    requires Folded(es, batch) && HasKey(es, k)
    ensures Wins(OfKey(batch, k), i)
    ensures PutEntry(c, es, k) == Put(c, RankOf(OfKey(batch, k)[i]), StateOf(OfKey(batch, k)[i]))
  {
    PutEntryAt(c, es, k);
    var j :| 0 <= j < |es| && es[j].key == k;
    assert Fits(es[j], batch);
    i :| Carries(es[j], i);
  }

  /** Two stores that agree except for the payloads of source states and what sweeps removed. */
  ghost predicate SameButPayloads(a: Store, b: Store) {
    && a.db.rows == b.db.rows && a.db.first == b.db.first && a.db.others == b.db.others && a.marks == b.marks
    && a.db.values.Keys == b.db.values.Keys
    && forall k :: k in a.db.values ==> a.db.values[k].rank == b.db.values[k].rank
  }

  /** The largest new frontier of one key did not come with two different states, first and last. */
  ghost predicate NoTie(mark: int, ws: seq<Req>) {
    forall i: nat, j: nat :: Leads(ws, i) && Wins(ws, j) && RankOf(ws[j]) > mark ==> StateOf(ws[i]) == StateOf(ws[j])
  }

  ghost predicate TieFree(st: Store, batch: seq<Req>) {
    forall k :: NoTie(Mark(st.marks, k), OfKey(batch, k))
  }

  ghost predicate SameRank(a: Cell, b: Cell) {
    && a.mark == b.mark && a.marked == b.marked && a.value.Some? == b.value.Some?
    && (a.value.Some? ==> a.value.v.rank == b.value.v.rank)
  }

  lemma FirstAndLast(c: Cell, ws: seq<Req>, i: nat, j: nat)
    requires Leads(ws, i) && Wins(ws, j)
    ensures var a, b := Put(c, RankOf(ws[j]), StateOf(ws[j])), Put(c, RankOf(ws[i]), StateOf(ws[i]));
      SameRank(a, b) && (a == b <==> NoTie(c.mark, ws))
  {
    assert RankOf(ws[i]) == RankOf(ws[j]);
    forall i': nat, j': nat | Leads(ws, i') && Wins(ws, j') ensures i' == i && j' == j {
      assert RankOf(ws[i']) == RankOf(ws[i]) && RankOf(ws[j']) == RankOf(ws[j]);
    }
  }

  lemma KeyAgrees(st: Store, batch: seq<Req>, maxRows: int, k: Key)
    requires maxRows >= 1
    ensures var g, o := At(CommitAll(st, GroupsOf(PlanOf(batch, maxRows))), k), At(OneByOne(st, batch), k);
      SameRank(g, o) && (g == o <==> NoTie(Mark(st.marks, k), OfKey(batch, k)))
  {
    var j := GroupedIs(st, batch, maxRows, k);
    OneByOneAt(st, batch, k);
    var ws := OfKey(batch, k);
    if ws != [] {
      var i := PutAllLeads(At(st, k), ws);
      FirstAndLast(At(st, k), ws, i, j);
    }
  }

  /** Grouping keeps everything but payloads and sweeps, and payloads exactly without ties. */
  lemma GroupingKeepsValues(st: Store, batch: seq<Req>, maxRows: int)
    requires maxRows >= 1
    ensures var (g, o) := (CommitAll(st, GroupsOf(PlanOf(batch, maxRows))), OneByOne(st, batch));
      SameButPayloads(g, o) && (g.db.values == o.db.values <==> TieFree(st, batch))
  {
    var g, o := CommitAll(st, GroupsOf(PlanOf(batch, maxRows))), OneByOne(st, batch);
    var _ := GroupedIs(st, batch, maxRows, Cp(""));
    OneByOneIs(st, batch);
    forall k
      ensures SameRank(At(g, k), At(o, k)) &&
              (At(g, k) == At(o, k) <==> NoTie(Mark(st.marks, k), OfKey(batch, k)))
    {
      KeyAgrees(st, batch, maxRows, k);
    }
    SameCells(g, o);
    if TieFree(st, batch) { EqualCells(g, o); }
    if g.db.values == o.db.values {
      forall k ensures NoTie(Mark(st.marks, k), OfKey(batch, k)) { assert At(g, k) == At(o, k); }
    }
  }

  lemma SameCells(a: Store, b: Store)
    requires a.db.rows == b.db.rows && a.db.first == b.db.first && a.db.others == b.db.others
    requires forall k :: SameRank(At(a, k), At(b, k))
    ensures SameButPayloads(a, b)
  {
    assert forall k :: k in a.marks <==> At(a, k).marked;
    assert forall k :: k in b.marks <==> At(b, k).marked;
    assert forall k :: k in a.db.values <==> At(a, k).value.Some?;
    assert forall k :: k in b.db.values <==> At(b, k).value.Some?;
    assert forall k :: k in a.marks ==> a.marks[k] == At(a, k).mark;
    assert forall k :: k in b.marks ==> b.marks[k] == At(b, k).mark;
  }

  lemma EqualCells(a: Store, b: Store)
    requires SameButPayloads(a, b) && forall k :: At(a, k) == At(b, k)
    ensures a.db.values == b.db.values
  {
    assert forall k :: k in a.db.values ==> At(a, k).value == Some(a.db.values[k]);
    assert forall k :: k in b.db.values ==> At(b, k).value == Some(b.db.values[k]);
  }

  // --- what outlives a handle, and what does not ---

  /**
   Marks start empty when the store is reopened, so a checkpoint lower than the stored one
   is written over it: that happens exactly for a positive value below the stored one.
   */
  lemma ReopenRegressesIff(db: Db, r: Req)
    requires r.Checkpoint? && KeyOf(r) in db.values
    ensures var after := CommitAll(Store(db, map[]), GroupsOf(PlanOf([r], 1))).db.values;
      KeyOf(r) in after && (after[KeyOf(r)].rank < db.values[KeyOf(r)].rank <==> 0 < r.cpSeq < db.values[KeyOf(r)].rank)
  {
    AloneIsItsGroup(Store(db, map[]), r);
  }

  /**
   Marks outlive a run, while a run numbers its emissions from one again: its state is
   stored exactly when its frontier passes what earlier runs of the handle reached (and
   never when it is not positive), though the write is answered with success either way.
   */
  lemma StateStoredExactly(st: Store, r: Req)
    requires r.SourceState?
    ensures var k := KeyOf(r);
      CommitAll(st, GroupsOf(PlanOf([r], 1))) ==
                      if r.srcSeq <= Mark(st.marks, k) then st
                      else Store(st.db.(values := st.db.values[k := Value(r.srcSeq, r.state)]), st.marks[k := r.srcSeq])
  {
    AloneIsItsGroup(st, r);
  }
}
