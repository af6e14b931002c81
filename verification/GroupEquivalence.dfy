/**
 Grouping against one by one, sweeps of the spool included: exactly when the two leave the
 same store.
 */
module GroupEquivalence {
  import opened GroupCommit
  import opened GroupStore

  // --- the spool, row by row ---

  /** Every stored sequence is below the next one to be assigned. */
  ghost predicate Assigned(db: Db) { forall q :: q in db.spool ==> q < NextRow(db) }

  lemma SweptBySnoc(stmts: seq<Req>, t: Req, q: int, row: Req)
    ensures SweptBy(stmts + [t], q, row) <==> SweptBy(stmts, q, row) || Sweeps(t, q, row)
  {
    var all := stmts + [t];
    assert all[|stmts|] == t;
    if SweptBy(stmts, q, row) {
      var i :| 0 <= i < |stmts| && Sweeps(stmts[i], q, row);
      assert Sweeps(all[i], q, row);
    }
  }

  /** Sweeps are among the statements executed one by one. */
  lemma {:induction false} OthersReach(batch: seq<Req>, q: int, row: Req)
    ensures SweptBy(OthersOf(batch), q, row) <==> SweptBy(batch, q, row)
  {
    if batch != [] {
      var before, last := batch[..|batch| - 1], batch[|batch| - 1];
      OthersReach(before, q, row);
      SweptBySnoc(before, last, q, row);
      assert batch == before + [last];
      if IsRest(last) {
        SweptBySnoc(OthersOf(before), last, q, row);
      } else {
        assert OthersOf(batch) == OthersOf(before) + [] == OthersOf(before);
      }
    }
  }

  /** What is in the spool under q, if anything. */
  datatype Slot = Empty | Holds(row: Req)

  function SlotOf(spool: map<int, Req>, q: int): Slot { if q in spool then Holds(spool[q]) else Empty }

  /** A row stays unless one of these sweeps reaches it. */
  function Survives(s: Slot, stmts: seq<Req>, q: int): Slot {
    if s.Holds? && SweptBy(stmts, q, s.row) then Empty else s
  }

  lemma CutOne(spool: map<int, Req>, r: Req, q: int)
    ensures SlotOf(Cut(spool, [r]), q) == Survives(SlotOf(spool, q), [r], q)
    ensures forall row :: SweptBy([r], q, row) <==> Sweeps(r, q, row)
  {
    forall row ensures SweptBy([r], q, row) <==> Sweeps(r, q, row) {
      assert [] + [r] == [r];
      SweptBySnoc([], r, q, row);
    }
  }

  /** The spool after one more request on its own. */
  function Then(spool: map<int, Req>, next: int, r: Req): map<int, Req> {
    if r.Append? then spool[next := r] else if r.Trim? then Cut(spool, [r]) else spool
  }

  lemma ThenIs(st: Store, before: seq<Req>, r: Req)
    ensures OneByOne(st, before + [r]).db.spool ==
        Then(OneByOne(st, before).db.spool, NextRow(st.db) + |AppendsOf(before)|, r)
  {
    assert (before + [r])[..|before|] == before;
    OneByOneIs(st, before);
  }

  /** One more request acts on a slot that is not its own as one more statement. */
  lemma SlotStep(spool: map<int, Req>, r: Req, next: int, q: int, s: Slot, stmts: seq<Req>)
    requires SlotOf(spool, q) == Survives(s, stmts, q) && q != next
    ensures SlotOf(Then(spool, next, r), q) == Survives(s, stmts + [r], q)
  {
    CutOne(spool, r, q);
    if s.Holds? { SweptBySnoc(stmts, r, q, s.row); }
  }

  /** One by one, a row that was there goes when any sweep of the batch reaches it. */
  lemma {:induction false} OldRow(st: Store, batch: seq<Req>, q: int)
    requires Assigned(st.db) && q < NextRow(st.db)
    ensures SlotOf(OneByOne(st, batch).db.spool, q) == Survives(SlotOf(st.db.spool, q), batch, q)
  {
    if batch != [] {
      var before, r := batch[..|batch| - 1], batch[|batch| - 1];
      OldRow(st, before, q);
      assert batch == before + [r];
      ThenIs(st, before, r);
      SlotStep(OneByOne(st, before).db.spool, r, NextRow(st.db) + |AppendsOf(before)|, q, SlotOf(st.db.spool, q),
               before);
    }
  }

  /** The position of the k-th append. */
  function Position(batch: seq<Req>, k: nat): (i: nat)
    requires k < |AppendsOf(batch)|
    ensures i < |batch| && batch[i].Append? && batch[i] == AppendsOf(batch)[k]
  {
    if k < |AppendsOf(batch[..|batch| - 1])| then Position(batch[..|batch| - 1], k) else |batch| - 1
  }

  lemma PositionSnoc(before: seq<Req>, r: Req, k: nat)
    requires k < |AppendsOf(before + [r])|
    ensures AppendsOf(before + [r]) == AppendsOf(before) + (if r.Append? then [r] else [])
    ensures Position(before + [r], k) == if k < |AppendsOf(before)| then Position(before, k) else |before|
  {
    assert (before + [r])[..|before|] == before;
  }

  /** The slot of the batch's k-th append, as the sweeps queued after it leave it. */
  function NewSlot(b: int, batch: seq<Req>, k: nat): Slot
    requires k < |AppendsOf(batch)|
  {
    Survives(Holds(AppendsOf(batch)[k]), batch[Position(batch, k) + 1..], b + k)
  }

  lemma NewSlotSnoc(spool: map<int, Req>, b: int, before: seq<Req>, r: Req, k: nat)
    requires k < |AppendsOf(before + [r])|
    requires k < |AppendsOf(before)| ==> SlotOf(spool, b + k) == NewSlot(b, before, k)
    ensures SlotOf(Then(spool, b + |AppendsOf(before)|, r), b + k) == NewSlot(b, before + [r], k)
  {
    if k < |AppendsOf(before)| { KeptSlot(spool, b, before, r, k); } else { LastSlot(spool, b, before, r, k); }
  }

  lemma KeptSlot(spool: map<int, Req>, b: int, before: seq<Req>, r: Req, k: nat)
    requires k < |AppendsOf(before)| && k < |AppendsOf(before + [r])| && SlotOf(spool, b + k) == NewSlot(b, before, k)
    ensures SlotOf(Then(spool, b + |AppendsOf(before)|, r), b + k) == NewSlot(b, before + [r], k)
  {
    var i, row := Position(before, k), AppendsOf(before)[k];
    PositionSnoc(before, r, k);
    calc {
      SlotOf(Then(spool, b + |AppendsOf(before)|, r), b + k);
    == { SlotStep(spool, r, b + |AppendsOf(before)|, b + k, Holds(row), before[i + 1..]); }
      Survives(Holds(row), before[i + 1..] + [r], b + k);
    == { assert before[i + 1..] + [r] == (before + [r])[i + 1..]; }
      Survives(Holds(row), (before + [r])[i + 1..], b + k);
    ==
      NewSlot(b, before + [r], k);
    }
  }

  lemma LastSlot(spool: map<int, Req>, b: int, before: seq<Req>, r: Req, k: nat)
    requires k >= |AppendsOf(before)| && k < |AppendsOf(before + [r])|
    ensures SlotOf(Then(spool, b + |AppendsOf(before)|, r), b + k) == NewSlot(b, before + [r], k)
  {
    calc {
      NewSlot(b, before + [r], k);
    == { PositionSnoc(before, r, k); }
      Survives(Holds(r), (before + [r])[|before| + 1..], b + k);
    == { assert (before + [r])[|before| + 1..] == []; }
      Survives(Holds(r), [], b + k);
    ==
      Holds(r);
    == { PositionSnoc(before, r, k); }
      SlotOf(Then(spool, b + |AppendsOf(before)|, r), b + k);
    }
  }

  /** One by one, an append of the batch is removed by the sweeps queued after it. */
  lemma {:induction false} NewRow(st: Store, batch: seq<Req>, k: nat)
    requires Assigned(st.db) && k < |AppendsOf(batch)|
    ensures SlotOf(OneByOne(st, batch).db.spool, NextRow(st.db) + k) == NewSlot(NextRow(st.db), batch, k)
  {
    var before, r := batch[..|batch| - 1], batch[|batch| - 1];
    assert batch == before + [r];
    ThenIs(st, before, r);
    if k < |AppendsOf(before)| { NewRow(st, before, k); }
    NewSlotSnoc(OneByOne(st, before).db.spool, NextRow(st.db), before, r, k);
  }

  /** No sequence beyond the batch's appends. */
  lemma {:induction false} NoFurtherRow(st: Store, batch: seq<Req>, q: int)
    requires Assigned(st.db) && q >= NextRow(st.db) + |AppendsOf(batch)|
    ensures q !in OneByOne(st, batch).db.spool
  {
    if batch != [] {
      NoFurtherRow(st, batch[..|batch| - 1], q);
      OneByOneIs(st, batch[..|batch| - 1]);
    }
  }

  /** One by one, slot by slot. */
  function OneSlot(spool: map<int, Req>, b: int, batch: seq<Req>, q: int): Slot {
    var added := AppendsOf(batch);
    if q < b then Survives(SlotOf(spool, q), batch, q)
    else if q >= b + |added| then Empty
    else NewSlot(b, batch, q - b)
  }

  lemma OneSlots(st: Store, batch: seq<Req>, q: int)
    requires Assigned(st.db)
    ensures SlotOf(OneByOne(st, batch).db.spool, q) == OneSlot(st.db.spool, NextRow(st.db), batch, q)
  {
    if q < NextRow(st.db) {
      OldRow(st, batch, q);
    } else if q >= NextRow(st.db) + |AppendsOf(batch)| {
      NoFurtherRow(st, batch, q);
    } else {
      NewRow(st, batch, q - NextRow(st.db));
    }
  }

  // --- the same, grouped ---

  /** Grouped, the batch's sweeps see the rows of the first chunk, all of them, and no later row. */
  function GroupedSlot(spool: map<int, Req>, b: int, batch: seq<Req>, maxRows: int, q: int): Slot {
    var added := AppendsOf(batch);
    if q < b then Survives(SlotOf(spool, q), batch, q)
    else if q >= b + |added| then Empty
    else if q - b < maxRows then Survives(Holds(added[q - b]), batch, q)
    else Holds(added[q - b])
  }

  lemma ChunkSlots(spool: map<int, Req>, b: int, first: seq<Req>, later: seq<Req>, batch: seq<Req>, maxRows: int,
                   q: int)
    requires forall k :: k in spool ==> k < b
    requires AppendsOf(batch) == first + later && |first| <= maxRows && (later != [] ==> |first| == maxRows)
    ensures SlotOf(Land(Cut(Land(spool, b, first), OthersOf(batch)), b + |first|, later), q) ==
        GroupedSlot(spool, b, batch, maxRows, q)
  {
    var landed := Land(spool, b, first);
    LandAt(spool, b, first, q);
    LandAt(Cut(landed, OthersOf(batch)), b + |first|, later, q);
    if q in landed { OthersReach(batch, q, landed[q]); }
  }

  lemma GroupedSlots(st: Store, batch: seq<Req>, maxRows: int, q: int)
    requires Assigned(st.db) && maxRows >= 1
    ensures SlotOf(CommitAll(st, GroupsOf(PlanOf(batch, maxRows))).db.spool, q)
         == GroupedSlot(st.db.spool, NextRow(st.db), batch, maxRows, q)
  {
    var p := PlanOf(batch, maxRows);
    PlanCommits(st, p);
    PlanAppends(batch, maxRows);
    PlanEntries(batch, maxRows);
    FirstChunkSize(p, maxRows);
    ChunkSlots(st.db.spool, NextRow(st.db), FirstChunk(p), LaterRows(p), batch, maxRows, q);
  }

  /** The first chunk holds the first maxRows appends. */
  lemma FirstChunkSize(p: Plan, maxRows: int)
    requires maxRows >= 1
    requires forall i :: 0 <= i < |p.appends| ==> 1 <= |p.appends[i]| <= maxRows
    requires forall i :: 0 <= i < |p.appends| - 1 ==> |p.appends[i]| == maxRows
    ensures |FirstChunk(p)| <= maxRows && (LaterRows(p) != [] ==> |FirstChunk(p)| == maxRows)
  {
    if |p.appends| == 1 { assert p.appends[1..] == []; }
  }

  // --- the exact condition ---

  /**
   The sweeps of a batch treat its k-th append alike, grouped or not: in the first chunk,
   one that reaches its sequence is queued after it or not at all; beyond it, none queued
   after it reaches it.
   */
  ghost predicate SweptAlike(b: int, batch: seq<Req>, maxRows: int, k: nat)
    requires k < |AppendsOf(batch)|
  {
    var (row, after) := (AppendsOf(batch)[k], batch[Position(batch, k) + 1..]);
    if k < maxRows then SweptBy(batch, b + k, row) ==> SweptBy(after, b + k, row) else !SweptBy(after, b + k, row)
  }

  ghost predicate SweepsAlike(st: Store, batch: seq<Req>, maxRows: int) {
    forall k: nat :: k < |AppendsOf(batch)| ==> SweptAlike(NextRow(st.db), batch, maxRows, k)
  }

  lemma SweptByLater(batch: seq<Req>, i: nat, q: int, row: Req)
    requires i <= |batch|
    ensures SweptBy(batch[i..], q, row) ==> SweptBy(batch, q, row)
  {
    if SweptBy(batch[i..], q, row) {
      var j :| 0 <= j < |batch[i..]| && Sweeps(batch[i..][j], q, row);
      assert batch[i + j] == batch[i..][j];
    }
  }

  lemma SlotsAgree(spool: map<int, Req>, b: int, batch: seq<Req>, maxRows: int, q: int)
    requires maxRows >= 1
    ensures GroupedSlot(spool, b, batch, maxRows, q) == OneSlot(spool, b, batch, q)
            <==> (b <= q < b + |AppendsOf(batch)| ==> SweptAlike(b, batch, maxRows, q - b))
  {
    if b <= q < b + |AppendsOf(batch)| {
      SweptByLater(batch, Position(batch, q - b) + 1, q, AppendsOf(batch)[q - b]);
    }
  }

  lemma SpoolAgreesIff(st: Store, batch: seq<Req>, maxRows: int)
    requires Assigned(st.db) && maxRows >= 1
    ensures CommitAll(st, GroupsOf(PlanOf(batch, maxRows))).db.spool == OneByOne(st, batch).db.spool
            <==> SweepsAlike(st, batch, maxRows)
  {
    var g := CommitAll(st, GroupsOf(PlanOf(batch, maxRows))).db.spool;
    var o, b := OneByOne(st, batch).db.spool, NextRow(st.db);
    forall q ensures SlotOf(g, q) == GroupedSlot(st.db.spool, b, batch, maxRows, q) {
      GroupedSlots(st, batch, maxRows, q);
    }
    forall q ensures SlotOf(o, q) == OneSlot(st.db.spool, b, batch, q) { OneSlots(st, batch, q); }
    SpoolsAgree(st, batch, maxRows, g, o);
  }

  lemma SpoolsAgree(st: Store, batch: seq<Req>, maxRows: int, g: map<int, Req>, o: map<int, Req>)
    requires maxRows >= 1
    requires forall q :: SlotOf(g, q) == GroupedSlot(st.db.spool, NextRow(st.db), batch, maxRows, q)
    requires forall q :: SlotOf(o, q) == OneSlot(st.db.spool, NextRow(st.db), batch, q)
    ensures g == o <==> SweepsAlike(st, batch, maxRows)
  {
    var b := NextRow(st.db);
    if g == o {
      forall k: nat | k < |AppendsOf(batch)| ensures SweptAlike(b, batch, maxRows, k) {
        assert SlotOf(g, b + k) == SlotOf(o, b + k);
        SlotsAgree(st.db.spool, b, batch, maxRows, b + k);
      }
    }
    if SweepsAlike(st, batch, maxRows) {
      forall q ensures SlotOf(g, q) == SlotOf(o, q) { SlotsAgree(st.db.spool, b, batch, maxRows, q); }
      SameSlots(g, o);
    }
  }

  lemma SameSlots(a: map<int, Req>, b: map<int, Req>)
    requires forall q :: SlotOf(a, q) == SlotOf(b, q)
    ensures a == b
  {
    forall q | q in a ensures q in b && b[q] == a[q] { assert SlotOf(a, q) == SlotOf(b, q); }
    forall q | q in b ensures q in a { assert SlotOf(a, q) == SlotOf(b, q); }
  }

  /**
   Committing a drained queue as a group leaves what committing its requests one by one in
   queue order leaves: always the same rows landed in the same order, the same statements,
   the same checkpoints and frontiers; and the same store exactly when
   (1) no source's largest new frontier came with two different states (a tie inside a
   group keeps the later request, across groups the earlier), and
   (2) the batch's sweeps treat its own appends alike (grouped, the rows of the first chunk
   go in ahead of every sweep and those of later chunks behind).
   */
  lemma GroupingIsUnobservableIff(st: Store, batch: seq<Req>, maxRows: int)
    requires maxRows >= 1 && Assigned(st.db)
    ensures SameButPayloads(CommitAll(st, GroupsOf(PlanOf(batch, maxRows))), OneByOne(st, batch))
    ensures CommitAll(st, GroupsOf(PlanOf(batch, maxRows))) == OneByOne(st, batch)
            <==> TieFree(st, batch) && SweepsAlike(st, batch, maxRows)
  {
    GroupingKeepsValues(st, batch, maxRows);
    SpoolAgreesIff(st, batch, maxRows);
    StoresAgree(CommitAll(st, GroupsOf(PlanOf(batch, maxRows))), OneByOne(st, batch));
  }

  lemma StoresAgree(a: Store, b: Store)
    requires SameButPayloads(a, b)
    ensures a == b <==> a.db.values == b.db.values && a.db.spool == b.db.spool
  {
    if a.db.values == b.db.values && a.db.spool == b.db.spool { assert a.db == b.db; }
  }

  /** The engine sweeps behind its checkpoint only, so never as far as a row that is yet to be numbered. */
  lemma SweepsBehindAreAlike(st: Store, batch: seq<Req>, maxRows: int)
    requires forall i :: 0 <= i < |batch| && batch[i].Trim? ==> batch[i].through < NextRow(st.db)
    ensures SweepsAlike(st, batch, maxRows)
  {
    forall k: nat | k < |AppendsOf(batch)| ensures SweptAlike(NextRow(st.db), batch, maxRows, k) {
      var q, row := NextRow(st.db) + k, AppendsOf(batch)[k];
      assert !SweptBy(batch, q, row);
      SweptByLater(batch, Position(batch, k) + 1, q, row);
    }
  }

  // --- where grouping shows ---

  const Fresh := Store(Db([], 1, map[], map[], []), map[])

  const SweepFirst := [Trim(0, "p", 100), Append(1, "p", "m")]

  /** A sweep queued ahead of an append of its pipeline: one by one the row survives, grouped it is gone. */
  lemma SweepSwallowsAppend()
    ensures TieFree(Fresh, SweepFirst) && !SweepsAlike(Fresh, SweepFirst, 256)
    ensures 1 in OneByOne(Fresh, SweepFirst).db.spool
    ensures 1 !in CommitAll(Fresh, GroupsOf(PlanOf(SweepFirst, 256))).db.spool
  {
    SweepFirstAppends();
    assert SweepFirst[2..] == [];
    assert Sweeps(SweepFirst[0], 1, SweepFirst[1]);
    OneSlots(Fresh, SweepFirst, 1);
    GroupedSlots(Fresh, SweepFirst, 256, 1);
    assert !SweptAlike(1, SweepFirst, 256, 0);
  }

  lemma SweepFirstAppends()
    ensures AppendsOf(SweepFirst) == [SweepFirst[1]] && Position(SweepFirst, 0) == 1
    ensures TieFree(Fresh, SweepFirst)
  {
    var (a, b) := (SweepFirst[0], SweepFirst[1]);
    assert [] + [a] == [a] && [a] + [b] == SweepFirst;
    assert SweepFirst[..1] == [a] && [a][..0] == [];
    assert AppendsOf([a]) == [];
    assert AppendsOf(SweepFirst) == [] + [b];
    forall k ensures OfKey(SweepFirst, k) == [] {
      OfKeySnoc([], a, k);
      OfKeySnoc([a], b, k);
    }
  }

  const TwoStates := [SourceState(0, "p", "s", "x", 3), SourceState(1, "p", "s", "y", 3)]

  /** Two states for one frontier: one by one the earlier stays, grouped the later. */
  lemma TieShows()
    ensures SweepsAlike(Fresh, TwoStates, 256) && !TieFree(Fresh, TwoStates)
    ensures CommitAll(Fresh, GroupsOf(PlanOf(TwoStates, 256))) != OneByOne(Fresh, TwoStates)
  {
    BothOfKey();
    assert GroupStore.Leads(TwoStates, 0) && Wins(TwoStates, 1);
    assert !NoTie(0, OfKey(TwoStates, Src("p", "s")));
    assert SweepsAlike(Fresh, TwoStates, 256) by { NoAppends(); }
    GroupingIsUnobservableIff(Fresh, TwoStates, 256);
  }

  lemma BothOfKey()
    ensures OfKey(TwoStates, Src("p", "s")) == TwoStates
  {
    var (a, b) := (TwoStates[0], TwoStates[1]);
    OfKeySnoc([], a, Src("p", "s"));
    OfKeySnoc([a], b, Src("p", "s"));
    assert [] + [a] == [a] && [a] + [b] == TwoStates;
  }

  lemma NoAppends()
    ensures AppendsOf(TwoStates) == []
  {
    assert TwoStates[..1][..0] == [];
    assert AppendsOf(TwoStates[..1]) == [];
  }
}
