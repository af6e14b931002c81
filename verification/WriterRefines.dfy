/**
 Group commit refines a sequential store over whole runs: failed transactions, shutdown and
 all, the store holds what the requests answered with success leave when they are executed
 one by one in the order they were accepted.
 */
module WriterRefines {
  import opened GroupCommit
  import opened GroupStore
  import opened GroupEquivalence
  import opened WriterRuns
  import opened WriterOrigins

  // --- order: a rising list is fixed by what is in it ---

  ghost predicate Ascends(rs: seq<Req>) { forall i, j :: 0 <= i < j < |rs| ==> rs[i].id < rs[j].id }

  lemma {:induction false} NilledAscends(s: State, rs: seq<Req>)
    requires Ascends(rs)
    ensures Ascends(NilledOf(s, rs))
  {
    if rs != [] {
      var before, last := rs[..|rs| - 1], rs[|rs| - 1];
      NilledAscends(s, before);
      NilledMembers(s, before);
      AscendsSnoc(NilledOf(s, before), before, last);
    }
  }

  lemma {:induction false} PickedAscends(rs: seq<Req>, rest: bool)
    requires Ascends(rs)
    ensures Ascends(Picked(rs, rest))
  {
    if rs != [] {
      var before, last := rs[..|rs| - 1], rs[|rs| - 1];
      PickedAscends(before, rest);
      PickedMembers(before, rest);
      AscendsSnoc(Picked(before, rest), before, last);
      assert rs == before + [last];
      PickedConcat(before, [last], rest);
      PickedOne(last, rest);
    }
  }

  /** Something picked from a rising list stays rising when the next one is added. */
  lemma AscendsSnoc(picked: seq<Req>, before: seq<Req>, last: Req)
    requires Ascends(picked) && Ascends(before + [last]) && forall r :: r in picked ==> r in before
    ensures Ascends(picked + [last]) && picked + [] == picked
  {
    forall r | r in picked ensures r.id < last.id {
      var i :| 0 <= i < |before| && before[i] == r;
      assert (before + [last])[i] == r && (before + [last])[|before|] == last;
    }
  }

  lemma {:induction false} PickedMembers(rs: seq<Req>, rest: bool)
    ensures forall r :: r in Picked(rs, rest) <==> r in rs && (if rest then IsRest(r) else r.Append?)
  {
    if rs != [] {
      PickedMembers(rs[..|rs| - 1], rest);
      assert rs == rs[..|rs| - 1] + [rs[|rs| - 1]];
    }
  }

  lemma {:induction false} SameLists(a: seq<Req>, b: seq<Req>)
    requires Ascends(a) && Ascends(b) && forall r :: r in a <==> r in b
    ensures a == b
  {
    if a == [] || b == [] {
      SomeOrNone(a);
      SomeOrNone(b);
    } else {
      var (x, y) := (a[|a| - 1], b[|b| - 1]);
      LastIsGreatest(a, y);
      LastIsGreatest(b, x);
      assert x == y;
      DropLast(a, b, a[..|a| - 1], b[..|b| - 1]);
      SameLists(a[..|a| - 1], b[..|b| - 1]);
      assert a == a[..|a| - 1] + [x] && b == b[..|b| - 1] + [y];
    }
  }

  lemma SomeOrNone(a: seq<Req>)
    ensures a == [] || exists r :: r in a
  {
    if a != [] { assert a[0] in a; }
  }

  lemma LastIsGreatest(a: seq<Req>, r: Req)
    requires Ascends(a) && r in a
    ensures r.id <= a[|a| - 1].id && (r.id == a[|a| - 1].id ==> r == a[|a| - 1])
  {
    var i :| 0 <= i < |a| && a[i] == r;
  }

  lemma DropLast(a: seq<Req>, b: seq<Req>, a0: seq<Req>, b0: seq<Req>)
    requires a != [] && b != [] && Ascends(a) && Ascends(b) && a[|a| - 1] == b[|b| - 1] &&
             forall r :: r in a <==> r in b
    requires a0 == a[..|a| - 1] && b0 == b[..|b| - 1]
    ensures forall r :: r in a0 <==> r in b0
  {
    forall r | r in a0 ensures r in b0 { OneSide(a, b, r); }
    forall r | r in b0 ensures r in a0 { OneSide(b, a, r); }
  }

  lemma OneSide(a: seq<Req>, b: seq<Req>, r: Req)
    requires a != [] && b != [] && Ascends(a) && a[|a| - 1] == b[|b| - 1] && forall x :: x in a ==> x in b
    requires r in a[..|a| - 1]
    ensures r in b[..|b| - 1]
  {
    var i :| 0 <= i < |a| - 1 && a[i] == r;
    assert r.id < a[|a| - 1].id;
    assert r in b && b == b[..|b| - 1] + [b[|b| - 1]];
  }

  // --- the refinement ---

  /** Rows (or statements) are those of the successful requests, in accept order. */
  lemma StoredAre(base: Db, maxRows: int, es: seq<Event>, s: State, rest: bool)
    requires Opens(base, maxRows, es, s)
    ensures Stored(s.st.db, rest) == Picked(Succeeded(s), rest)
  {
    ReachableKeeps(base, maxRows, es, s);
    var stored, told := Stored(s.st.db, rest), Succeeded(s);
    NilledAscends(s, s.accepted);
    PickedAscends(told, rest);
    assert Rising(Line(s, rest), |s.accepted|);
    assert forall i :: 0 <= i < |stored| ==> Line(s, rest)[i] == stored[i];
    NilledMembers(s, s.accepted);
    PickedMembers(told, rest);
    forall r ensures r in stored <==> r in Picked(told, rest) { StoredIffNilled(base, maxRows, es, s, rest, r); }
    SameLists(stored, Picked(told, rest));
  }

  lemma StoredIffNilled(base: Db, maxRows: int, es: seq<Event>, s: State, rest: bool, r: Req)
    requires Opens(base, maxRows, es, s)
    ensures r in Stored(s.st.db, rest) <==> r in s.accepted && Nilled(s, r) && (if rest then IsRest(r) else r.Append?)
  {
    ReachableKeeps(base, maxRows, es, s);
    StoredKinds(base, maxRows, es, s);
    if r in Stored(s.st.db, rest) {
      NilledAccepted(base, maxRows, es, s, r);
    }
    if Nilled(s, r) && (r, true) in s.verdicts {
      var i :| 0 <= i < |s.verdicts| && s.verdicts[i] == (r, true);
      assert Landed(s.st, r);
    }
  }

  /** Only appends land as rows, only statements as statements. */
  ghost predicate Kinds(st: Store) {
    (forall r :: r in st.db.rows ==> r.Append?) && (forall r :: r in st.db.others ==> IsRest(r))
  }

  lemma StoredKinds(base: Db, maxRows: int, es: seq<Event>, s: State)
    requires Opens(base, maxRows, es, s)
    ensures Kinds(s.st)
  {
    RunKinds(Init(base, maxRows), es, s);
  }

  lemma {:induction false} RunKinds(s: State, es: seq<Event>, s': State)
    requires After(s, es) == Reached(s') && Inv(s) && s.maxRows >= 1 && Kinds(s.st)
    ensures Kinds(s'.st)
    decreases |es|
  {
    if es != [] {
      StepKeeps(s, es[0]);
      if es[0].Finish? { assert SoundGroup(s.phase.g); }
      RunKinds(Step(s, es[0]), es[1..], s');
    }
  }

  // --- values ---

  lemma {:induction false} OfKeyAscends(rs: seq<Req>, k: Key)
    requires Ascends(rs)
    ensures Ascends(OfKey(rs, k))
  {
    if rs != [] {
      var before, last := rs[..|rs| - 1], rs[|rs| - 1];
      OfKeyAscends(before, k);
      OfKeyMembers(before, k);
      assert rs == before + [last];
      AscendsSnoc(OfKey(before, k), before, last);
    }
  }

  /** The successful requests for one key, in accept order. */
  function Wanted(s: State, k: Key): seq<Req> { OfKey(Succeeded(s), k) }

  lemma WantedAre(base: Db, maxRows: int, es: seq<Event>, s: State, k: Key)
    requires Opens(base, maxRows, es, s)
    ensures forall w :: w in Wanted(s, k) <==> Nilled(s, w) && IsUpsert(w) && KeyOf(w) == k
    ensures forall w :: w in Wanted(s, k) ==> RankOf(w) <= Mark(s.st.marks, k)
    ensures Ascends(Wanted(s, k))
  {
    ReachableKeeps(base, maxRows, es, s);
    NilledMembers(s, s.accepted);
    NilledAscends(s, s.accepted);
    OfKeyMembers(Succeeded(s), k);
    OfKeyAscends(Succeeded(s), k);
    forall w | Nilled(s, w) ensures w in s.accepted { NilledAccepted(base, maxRows, es, s, w); }
    forall w | w in Wanted(s, k) ensures RankOf(w) <= Mark(s.st.marks, k) { NilledLanded(s, w); }
  }

  /**
   A stored pair is that of the latest request in its batch, the batch being the one that
   was drained with the earliest success of the largest frontier.
   */
  lemma StoredPair(base: Db, maxRows: int, es: seq<Event>, s: State, k: Key) returns (i: nat, b: seq<Req>, j: nat)
    requires Opens(base, maxRows, es, s) && k in s.st.marks
    ensures b in Batches(Init(base, maxRows), es)
    ensures Leads(Wanted(s, k), i) && Wanted(s, k)[i] in b && Wins(OfKey(b, k), j) && OfKey(b, k)[j] in Wanted(s, k)
    ensures RankOf(Wanted(s, k)[i]) == RankOf(OfKey(b, k)[j]) == s.st.marks[k] > 0
    ensures k in s.st.db.values && s.st.db.values[k] == Value(s.st.marks[k], StateOf(OfKey(b, k)[j]))
  {
    ReachableKeeps(base, maxRows, es, s);
    ReachableTraced(base, maxRows, es, s);
    WantedAre(base, maxRows, es, s, k);
    assert Stems(s, Batches(Init(base, maxRows), es), k);
    b :| b in Batches(Init(base, maxRows), es) && Origin(s, k, b);
    j := WinnerIn(s, k, b);
    forall v | v in Wanted(s, k) && RankOf(v) == s.st.marks[k] ensures v in b || Before(b, [v]) {
      assert Peer(s, k, v);
    }
    i := EarliestIn(Wanted(s, k), b, OfKey(b, k)[j], s.st.marks[k]);
  }

  lemma WinnerIn(s: State, k: Key, b: seq<Req>) returns (j: nat)
    requires k in s.st.marks && Marked(s.st) && Origin(s, k, b)
    requires forall w :: w in Wanted(s, k) <==> Nilled(s, w) && IsUpsert(w) && KeyOf(w) == k
    ensures Wins(OfKey(b, k), j) && OfKey(b, k)[j] in Wanted(s, k) && OfKey(b, k)[j] in b
    ensures RankOf(OfKey(b, k)[j]) == s.st.marks[k] && s.st.db.values[k].state == StateOf(OfKey(b, k)[j])
  {
    j :| Wins(OfKey(b, k), j) && s.st.db.values[k] == Value(RankOf(OfKey(b, k)[j]), StateOf(OfKey(b, k)[j]));
    OfKeyMembers(b, k);
    assert OfKey(b, k)[j] in OfKey(b, k);
  }

  lemma EarliestIn(ws: seq<Req>, b: seq<Req>, w: Req, top: int) returns (i: nat)
    requires Ascends(ws) && w in ws && w in b && (forall v :: v in ws ==> IsUpsert(v) && RankOf(v) <= top)
    requires RankOf(w) == top && forall v :: v in ws && RankOf(v) == top ==> v in b || Before(b, [v])
    ensures Leads(ws, i) && ws[i] in b && RankOf(ws[i]) == top
  {
    var x :| 0 <= x < |ws| && ws[x] == w;
    i := PutAllLeads(Cell(0, false, None), ws);
    assert RankOf(ws[x]) <= RankOf(ws[i]) && ws[i] in ws && i <= x;
    EarlierInside(b, w, ws[i]);
  }

  lemma EarlierInside(b: seq<Req>, w: Req, r: Req)
    requires w in b && r.id <= w.id && (r in b || Before(b, [r]))
    ensures r in b
  {
    assert r in [r];
  }

  // --- the exact condition ---

  /**
   The earliest success of the key's largest frontier and the latest request for the key in
   the batch it was drained with carry one state.
   */
  ghost predicate PairAgrees(bs: seq<seq<Req>>, ws: seq<Req>, k: Key) {
    forall b, i: nat, j: nat :: b in bs && Leads(ws, i) && RankOf(ws[i]) > 0 && ws[i] in b && Wins(OfKey(b, k), j) ==>
      StateOf(ws[i]) == StateOf(OfKey(b, k)[j])
  }

  lemma OneIndex(bs: seq<seq<Req>>, x: nat, y: nat, r: Req)
    requires InTurn(bs) && x < |bs| && y < |bs| && r in bs[x] && r in bs[y]
    ensures x == y
  {}

  lemma OneBatch(bs: seq<seq<Req>>, b: seq<Req>, b': seq<Req>, r: Req)
    requires InTurn(bs) && b in bs && b' in bs && r in b && r in b'
    ensures b == b'
  {
    var x :| 0 <= x < |bs| && bs[x] == b;
    var y :| 0 <= y < |bs| && bs[y] == b';
    OneIndex(bs, x, y, r);
  }

  lemma OneWinner(ws: seq<Req>, i: nat, j: nat)
    ensures Wins(ws, i) && Wins(ws, j) ==> i == j
    ensures Leads(ws, i) && Leads(ws, j) ==> i == j
  {
    if i < |ws| && j < |ws| && Wins(ws, i) && Wins(ws, j) { assert RankOf(ws[i]) == RankOf(ws[j]); }
    if i < |ws| && j < |ws| && Leads(ws, i) && Leads(ws, j) { assert RankOf(ws[i]) == RankOf(ws[j]); }
  }

  lemma AgreesAt(bs: seq<seq<Req>>, ws: seq<Req>, k: Key, b: seq<Req>, i: nat, j: nat)
    requires InTurn(bs) && b in bs && Leads(ws, i) && RankOf(ws[i]) > 0 && ws[i] in b && Wins(OfKey(b, k), j)
    ensures PairAgrees(bs, ws, k) <==> StateOf(ws[i]) == StateOf(OfKey(b, k)[j])
  {
    forall b', i': nat, j': nat | b' in bs && Leads(ws, i') && ws[i'] in b' && Wins(OfKey(b', k), j')
      ensures b' == b && i' == i && j' == j
    {
      OneWinner(ws, i, i');
      OneBatch(bs, b, b', ws[i]);
      OneWinner(OfKey(b, k), j, j');
    }
  }

  lemma NothingAbove(c: Cell, ws: seq<Req>)
    requires forall w :: w in ws ==> IsUpsert(w) && RankOf(w) <= c.mark
    ensures PutAll(c, ws) == c
  {
    if ws != [] {
      var i := PutAllLeads(c, ws);
      assert ws[i] in ws;
    }
  }

  /** One by one, the earliest of the largest stays. */
  lemma EarliestStays(c: Cell, ws: seq<Req>, i: nat)
    requires Leads(ws, i) && RankOf(ws[i]) > c.mark
    ensures PutAll(c, ws) == Cell(RankOf(ws[i]), true, Some(Value(RankOf(ws[i]), StateOf(ws[i]))))
  {
    var i' := PutAllLeads(c, ws);
    OneWinner(ws, i, i');
  }

  /** A key's cell against what the successful requests for it leave one by one. */
  lemma CellIs(base: Db, maxRows: int, es: seq<Event>, s: State, k: Key)
    requires Opens(base, maxRows, es, s)
    ensures var c := At(OneByOne(Store(base, map[]), Succeeded(s)), k);
      SameRank(At(s.st, k), c)
      && (At(s.st, k) == c <==> PairAgrees(Batches(Init(base, maxRows), es), Wanted(s, k), k))
  {
    ReachableTraced(base, maxRows, es, s);
    WantedAre(base, maxRows, es, s, k);
    var (c0, ws) := (At(Store(base, map[]), k), Wanted(s, k));
    OneByOneAt(Store(base, map[]), Succeeded(s), k);
    if k in s.st.marks {
      var i, b, j := StoredPair(base, maxRows, es, s, k);
      EarliestStays(c0, ws, i);
      AgreesAt(Batches(Init(base, maxRows), es), ws, k, b, i, j);
    } else {
      NothingAbove(c0, ws);
      forall i: nat | Leads(ws, i) ensures RankOf(ws[i]) <= 0 { assert ws[i] in ws; }
    }
  }

  /** One state at the largest frontier is enough. */
  lemma OneStateAgrees(base: Db, maxRows: int, es: seq<Event>, s: State, k: Key, state: string)
    requires Opens(base, maxRows, es, s)
    requires forall w :: w in Wanted(s, k) && IsUpsert(w) && RankOf(w) == Mark(s.st.marks, k) ==> StateOf(w) == state
    ensures PairAgrees(Batches(Init(base, maxRows), es), Wanted(s, k), k)
  {
    WantedAre(base, maxRows, es, s, k);
    if k in s.st.marks {
      ReachableTraced(base, maxRows, es, s);
      var i, b, j := StoredPair(base, maxRows, es, s, k);
      assert Wanted(s, k)[i] in Wanted(s, k);
      AgreesAt(Batches(Init(base, maxRows), es), Wanted(s, k), k, b, i, j);
    } else {
      forall i: nat | Leads(Wanted(s, k), i) ensures RankOf(Wanted(s, k)[i]) <= 0 {
        assert Wanted(s, k)[i] in Wanted(s, k);
      }
    }
  }

  /** The key's stored pair, state and frontier together, is one a success asked for, and none asked for more. */
  ghost predicate Backed(s: State, k: Key) {
    && k in s.st.db.values && (exists w :: w in Wanted(s, k) && Asks(w, s.st.db.values[k]))
    && forall w :: w in Wanted(s, k) ==> IsUpsert(w) && RankOf(w) <= s.st.db.values[k].rank
  }

  predicate Asks(r: Req, v: Value) { IsUpsert(r) && v == Value(RankOf(r), StateOf(r)) }

  lemma StoredBacked(base: Db, maxRows: int, es: seq<Event>, s: State, k: Key)
    requires Opens(base, maxRows, es, s) && k in s.st.marks
    ensures Backed(s, k)
  {
    WantedAre(base, maxRows, es, s, k);
    var i, b, j := StoredPair(base, maxRows, es, s, k);
    assert OfKey(b, k)[j] in Wanted(s, k) && Asks(OfKey(b, k)[j], s.st.db.values[k]);
    ReachableKeeps(base, maxRows, es, s);
  }

  // --- the spool ---

  /** A sweep that the store executed reaches the row of this handle with sequence q. */
  ghost predicate Swept(db: Db, q: int) {
    db.first <= q < NextRow(db) && SweptBy(db.others, q, db.rows[q - db.first])
  }

  lemma RowsAre(base: Db, maxRows: int, es: seq<Event>, s: State)
    requires Opens(base, maxRows, es, s)
    ensures s.st.db.rows == AppendsOf(Succeeded(s)) && s.st.db.others == OthersOf(Succeeded(s))
    ensures OldRowsKept(base, s.st.db) && SpoolKept(s.st.db)
  {
    ReachableKeeps(base, maxRows, es, s);
    ReachableTraced(base, maxRows, es, s);
    StoredAre(base, maxRows, es, s, false);
    StoredAre(base, maxRows, es, s, true);
    assert Stored(s.st.db, true) == s.st.db.others && Stored(s.st.db, false) == s.st.db.rows;
  }

  lemma SpoolSlot(base: Db, maxRows: int, es: seq<Event>, s: State, q: int)
    requires Opens(base, maxRows, es, s) && !Swept(s.st.db, q)
    ensures SlotOf(s.st.db.spool, q) == SlotOf(OneByOne(Store(base, map[]), Succeeded(s)).db.spool, q)
  {
    RowsAre(base, maxRows, es, s);
    SpoolMirrors(base, maxRows, es, s, q);
    if base.first <= q < NextRow(s.st.db) {
      assert Stays(s.st.db, q - base.first);
      UnsweptSlot(base.first, Succeeded(s), s.st.db.others, q);
    }
  }

  /** Rows of this handle apart, the spool is the sequential store's; and how that store treats those. */
  lemma SpoolMirrors(base: Db, maxRows: int, es: seq<Event>, s: State, q: int)
    requires Opens(base, maxRows, es, s)
    ensures s.st.db.first == base.first
    ensures s.st.db.rows == AppendsOf(Succeeded(s)) && s.st.db.others == OthersOf(Succeeded(s))
    ensures var o := SlotOf(OneByOne(Store(base, map[]), Succeeded(s)).db.spool, q);
      if base.first <= q < NextRow(s.st.db) then o == NewSlot(base.first, Succeeded(s), q - base.first)
      else o == SlotOf(s.st.db.spool, q)
  {
    RowsAre(base, maxRows, es, s);
    OneSlots(Store(base, map[]), Succeeded(s), q);
    if q < base.first && q in base.spool { OthersReach(Succeeded(s), q, base.spool[q]); }
  }

  lemma UnsweptSlot(b: int, told: seq<Req>, others: seq<Req>, q: int)
    requires b <= q < b + |AppendsOf(told)| && others == OthersOf(told) && !SweptBy(others, q, AppendsOf(told)[q - b])
    ensures NewSlot(b, told, q - b) == Holds(AppendsOf(told)[q - b])
  {
    var k := q - b;
    OthersReach(told, q, AppendsOf(told)[k]);
    SweptByLater(told, Position(told, k) + 1, q, AppendsOf(told)[k]);
  }

  /**
   In every run, failed transactions and shutdown included, the store equals what the
   requests answered with success leave when executed one by one in accept order: the same
   rows in the same order, statements, checkpoints and frontiers. Each value written is a
   whole pair that some success for its key asked for; it is the very pair of the sequential
   store exactly when the largest frontier's earliest success and the latest request of its
   batch carry one state. The spool agrees wherever no executed sweep reaches a row of this
   handle.
   */
  lemma RefinesSequentialStore(base: Db, maxRows: int, es: seq<Event>, s: State)
    requires Opens(base, maxRows, es, s)
    ensures var o := OneByOne(Store(base, map[]), Succeeded(s));
      && SameButPayloads(s.st, o)
      && (forall k :: At(s.st, k) == At(o, k) <==> PairAgrees(Batches(Init(base, maxRows), es), Wanted(s, k), k))
      && (forall q :: !Swept(s.st.db, q) ==> SlotOf(s.st.db.spool, q) == SlotOf(o.db.spool, q))
    ensures forall k :: k in s.st.marks ==> Backed(s, k)
  {
    var o := OneByOne(Store(base, map[]), Succeeded(s));
    SameStored(base, maxRows, es, s);
    forall k
      ensures SameRank(At(s.st, k), At(o, k))
      ensures At(s.st, k) == At(o, k) <==> PairAgrees(Batches(Init(base, maxRows), es), Wanted(s, k), k)
    {
      CellIs(base, maxRows, es, s, k);
    }
    SameCells(s.st, o);
    forall q | !Swept(s.st.db, q) ensures SlotOf(s.st.db.spool, q) == SlotOf(o.db.spool, q) {
      SpoolSlot(base, maxRows, es, s, q);
    }
    forall k | k in s.st.marks ensures Backed(s, k) { StoredBacked(base, maxRows, es, s, k); }
  }

  lemma SameStored(base: Db, maxRows: int, es: seq<Event>, s: State)
    requires Opens(base, maxRows, es, s)
    ensures var o := OneByOne(Store(base, map[]), Succeeded(s));
      s.st.db.rows == o.db.rows && s.st.db.first == o.db.first && s.st.db.others == o.db.others
  {
    RowsAre(base, maxRows, es, s);
    OneByOneIs(Store(base, map[]), Succeeded(s));
    assert [] + AppendsOf(Succeeded(s)) == AppendsOf(Succeeded(s));
    assert [] + OthersOf(Succeeded(s)) == OthersOf(Succeeded(s));
  }

  /**
   A row from before the store was opened goes exactly when a sweep that the store executed
   names its pipeline and a cutoff at or beyond it.
   */
  lemma OldRowsGoBySweep(base: Db, maxRows: int, es: seq<Event>, s: State, q: int)
    requires Opens(base, maxRows, es, s) && q in base.spool && base.spool[q].Append?
    ensures q in s.st.db.spool <==>
              !exists t :: t in s.st.db.others && t.Trim? && t.pipeline == base.spool[q].pipeline && q <= t.through
    ensures q in s.st.db.spool ==> s.st.db.spool[q] == base.spool[q]
  {
    RowsAre(base, maxRows, es, s);
    SweptAmong(s.st.db.others, q, base.spool[q]);
    assert SlotOf(s.st.db.spool, q) == Survives(SlotOf(base.spool, q), s.st.db.others, q);
  }

  // --- sweeps that stay behind ---

  /** No sweep is queued that reaches beyond the rows already numbered, as the engine's cutoff guarantees. */
  predicate SweepsBehind(s: State, es: seq<Event>)
    requires After(s, es).Reached?
    decreases |es|
  {
    es != [] ==>
      && (es[0].Enqueue? && es[0].r.Trim? ==> es[0].r.through < NextRow(s.st.db))
      && SweepsBehind(Step(s, es[0]), es[1..])
  }

  /** What a sweep reaches had landed, and so had been accepted, before the sweep was. */
  ghost predicate ReachesOlder(s: State, t: Req) {
    t.Trim? ==>
      && t.through < NextRow(s.st.db)
      && forall k :: 0 <= k < |s.st.db.rows| && s.st.db.first + k <= t.through ==> s.st.db.rows[k].id < t.id
  }

  ghost predicate Behind(s: State) { forall t :: t in s.accepted ==> ReachesOlder(s, t) }

  /** A row that an executed sweep reaches is gone. */
  ghost predicate Gone(db: Db) { forall q :: Swept(db, q) ==> q !in db.spool }

  ghost predicate Ours(s: State) { forall r :: Copies(s, r) == Times(s.accepted, r) }

  ghost predicate Trimmed(s: State) { Behind(s) && Gone(s.st.db) && Ours(s) }

  lemma BehindKeeps(s: State, e: Event)
    requires Enabled(s, e) && Behind(s) && InOrder(s)
    requires e.Enqueue? && e.r.Trim? ==> e.r.through < NextRow(s.st.db)
    ensures Behind(Step(s, e))
  {
    var s' := Step(s, e);
    assert Rising(Line(s, false), |s.accepted|);
    assert forall k :: 0 <= k < |s.st.db.rows| ==> Line(s, false)[k] == s.st.db.rows[k];
    forall t | t in s'.accepted ensures ReachesOlder(s', t) {
      if t in s.accepted { assert ReachesOlder(s, t); }
    }
  }

  lemma CommitGone(s: State, rows: seq<Req>, stmts: Stmts)
    requires Behind(s) && Gone(s.st.db) && SpoolKept(s.st.db)
    requires forall t :: t in stmts.rest || t in s.st.db.others ==> t in s.accepted
    ensures Gone(Commit(s.st, rows, stmts).db)
  {
    var db, db' := s.st.db, Commit(s.st, rows, stmts).db;
    forall q | Swept(db', q) ensures q !in db'.spool {
      var row := db'.rows[q - db.first];
      var i :| 0 <= i < |db'.others| && Sweeps(db'.others[i], q, row);
      assert db'.others[i] in s.accepted && ReachesOlder(s, db'.others[i]);
      assert q < NextRow(db) && db.rows[q - db.first] == row && Stays(db, q - db.first);
      SweptByConcat(db.others, stmts.rest, q, row);
      LandAt(db.spool, NextRow(db), rows, q);
      assert SweptBy(db.others, q, row) ==> Swept(db, q);
    }
  }

  lemma FinishGone(s: State, ok: bool)
    requires s.phase.InTx? && Trimmed(s) && Accounted(s) && SpoolKept(s.st.db)
    ensures Gone(Finished(s, s.phase.g, s.phase.groups, ok).st.db)
  {
    if ok {
      forall t | t in s.phase.g.stmts.rest || t in s.st.db.others ensures t in s.accepted { Known(s, t); }
      CommitGone(s, s.phase.g.rows, s.phase.g.stmts);
    }
  }

  /** What the writer carries or has executed was accepted. */
  lemma Known(s: State, t: Req)
    requires s.phase.InTx? && Ours(s) && Accounted(s) && (t in s.phase.g.stmts.rest || t in s.st.db.others)
    ensures t in s.accepted
  {
    assert Copies(s, t) == Times(s.accepted, t);
    AnsweredHas(s.verdicts, t);
    TimesSome(Answered(s.verdicts), t);
    TimesSome(GroupReqs(s.phase.g), t);
    TimesSome(s.accepted, t);
  }

  lemma TrimKeeps(s: State, e: Event)
    requires Enabled(s, e) && Inv(s) && InOrder(s) && Trimmed(s)
    requires e.Enqueue? && e.r.Trim? ==> e.r.through < NextRow(s.st.db)
    ensures Trimmed(Step(s, e))
  {
    BehindKeeps(s, e);
    if e.Finish? { FinishGone(s, e.ok); }
    forall r ensures Copies(Step(s, e), r) == Times(Step(s, e).accepted, r) {
      StepConserves(s, e, r);
      AcceptedGrows(s, e, r);
    }
  }

  lemma {:induction false} RunTrims(s: State, es: seq<Event>, s': State)
    requires After(s, es) == Reached(s') && SweepsBehind(s, es)
    requires Inv(s) && InOrder(s) && s.maxRows >= 1 && Trimmed(s)
    ensures Trimmed(s')
    decreases |es|
  {
    if es != [] {
      TrimKeeps(s, es[0]);
      StepKeeps(s, es[0]);
      LineKeeps(s, es[0]);
      RunTrims(Step(s, es[0]), es[1..], s');
    }
  }

  /** One by one, a row goes too: the sweep that reaches it was accepted after it. */
  lemma SweptToo(s: State, told: seq<Req>, k: nat, q: int)
    requires Ascends(told) && k < |AppendsOf(told)| && (forall t :: t in told ==> t in s.accepted) && Behind(s)
    requires s.st.db.rows == AppendsOf(told) && q == s.st.db.first + k && SweptBy(told, q, AppendsOf(told)[k])
    ensures NewSlot(s.st.db.first, told, k) == Empty
  {
    var (row, at) := (AppendsOf(told)[k], Position(told, k));
    var i :| 0 <= i < |told| && Sweeps(told[i], q, row);
    assert ReachesOlder(s, told[i]);
    assert s.st.db.rows[k].id < told[i].id && i > at;
    assert Sweeps(told[at + 1..][i - at - 1], q, row);
  }

  /** Row for row, when sweeps stay behind. */
  lemma BehindSlot(base: Db, maxRows: int, es: seq<Event>, s: State, q: int)
    requires Opens(base, maxRows, es, s) && Trimmed(s)
    ensures SlotOf(s.st.db.spool, q) == SlotOf(OneByOne(Store(base, map[]), Succeeded(s)).db.spool, q)
  {
    if Swept(s.st.db, q) {
      var told := Succeeded(s);
      ReachableKeeps(base, maxRows, es, s);
      SpoolMirrors(base, maxRows, es, s, q);
      NilledAscends(s, s.accepted);
      NilledMembers(s, s.accepted);
      OthersReach(told, q, s.st.db.rows[q - base.first]);
      SweptToo(s, told, q - base.first, q);
    } else {
      SpoolSlot(base, maxRows, es, s, q);
    }
  }

  lemma StartsTrimmed(base: Db, maxRows: int)
    requires Opened(base)
    ensures Trimmed(Init(base, maxRows))
  {}

  /**
   When no sweep is queued that reaches beyond the rows already numbered, the spool is the
   sequential store's, every swept row gone from both, and the whole store is, exactly when
   every key's pair agrees.
   */
  lemma RefinesExactlyIff(base: Db, maxRows: int, es: seq<Event>, s: State)
    requires Opens(base, maxRows, es, s) && SweepsBehind(Init(base, maxRows), es)
    ensures var o := OneByOne(Store(base, map[]), Succeeded(s));
      && s.st.db.spool == o.db.spool
      && (s.st == o <==> forall k :: PairAgrees(Batches(Init(base, maxRows), es), Wanted(s, k), k))
    ensures forall k: nat :: k < |s.st.db.rows| && s.st.db.rows[k].Append? ==>
              (base.first + k in s.st.db.spool <==>
               !exists t :: t in s.st.db.others && t.Trim? && t.pipeline == s.st.db.rows[k].pipeline &&
                            base.first + k <= t.through)
  {
    StartsTrimmed(base, maxRows);
    RunTrims(Init(base, maxRows), es, s);
    BehindIff(base, maxRows, es, s);
    UnsweptRows(base, maxRows, es, s);
  }

  lemma UnsweptRows(base: Db, maxRows: int, es: seq<Event>, s: State)
    requires Opens(base, maxRows, es, s) && Gone(s.st.db)
    ensures forall k: nat :: k < |s.st.db.rows| && s.st.db.rows[k].Append? ==>
              (base.first + k in s.st.db.spool <==>
               !exists t :: t in s.st.db.others && t.Trim? && t.pipeline == s.st.db.rows[k].pipeline &&
                            base.first + k <= t.through)
  {
    RowsAre(base, maxRows, es, s);
    forall k: nat | k < |s.st.db.rows| && s.st.db.rows[k].Append?
      ensures base.first + k in s.st.db.spool <==>
              !exists t :: t in s.st.db.others && t.Trim? && t.pipeline == s.st.db.rows[k].pipeline &&
                           base.first + k <= t.through
    {
      RowStays(s.st.db, k);
    }
  }

  lemma BehindIff(base: Db, maxRows: int, es: seq<Event>, s: State)
    requires Opens(base, maxRows, es, s) && Trimmed(s)
    ensures var o := OneByOne(Store(base, map[]), Succeeded(s));
      && s.st.db.spool == o.db.spool
      && (s.st == o <==> forall k :: PairAgrees(Batches(Init(base, maxRows), es), Wanted(s, k), k))
  {
    var o, bs := OneByOne(Store(base, map[]), Succeeded(s)), Batches(Init(base, maxRows), es);
    RefinesSequentialStore(base, maxRows, es, s);
    forall q ensures SlotOf(s.st.db.spool, q) == SlotOf(o.db.spool, q) { BehindSlot(base, maxRows, es, s, q); }
    SameSlots(s.st.db.spool, o.db.spool);
    StoresAgree(s.st, o);
    if forall k :: PairAgrees(bs, Wanted(s, k), k) { EqualCells(s.st, o); }
    if s.st == o {
      forall k ensures PairAgrees(bs, Wanted(s, k), k) { assert At(s.st, k) == At(o, k); }
    }
  }

  /** In a spool that keeps what no sweep reached and nothing else. */
  lemma RowStays(db: Db, k: nat)
    requires SpoolKept(db) && Gone(db) && k < |db.rows| && db.rows[k].Append?
    ensures db.first + k in db.spool <==>
              !exists t :: t in db.others && t.Trim? && t.pipeline == db.rows[k].pipeline && db.first + k <= t.through
  {
    SweptAmong(db.others, db.first + k, db.rows[k]);
    assert Stays(db, k);
    assert Swept(db, db.first + k) <==> SweptBy(db.others, db.first + k, db.rows[k]);
  }

  // --- what a caller may conclude from its verdict ---

  /** The row landed under sequence q, and nothing else is or was there. */
  ghost predicate RowAt(base: Db, db: Db, r: Req, q: int) {
    base.first <= q < base.first + |db.rows| && db.rows[q - base.first] == r && (q in db.spool ==> db.spool[q] == r)
  }

  lemma RowOf(base: Db, maxRows: int, es: seq<Event>, s: State, r: Req) returns (q: int)
    requires Opens(base, maxRows, es, s) && r.Append? && r in s.st.db.rows
    ensures RowAt(base, s.st.db, r, q)
    ensures q !in s.st.db.spool ==>
              exists t :: t in s.st.db.others && t.Trim? && t.pipeline == r.pipeline && q <= t.through
  {
    RowsAre(base, maxRows, es, s);
    var k: nat :| k < |s.st.db.rows| && s.st.db.rows[k] == r;
    q := base.first + k;
    assert Stays(s.st.db, k);
    SweptAmong(s.st.db.others, q, r);
  }

  /**
   A nil verdict means that the state and frontier asked for, or a pair that another success
   asked for at no smaller frontier, are durable together; for rows and statements the
   verdict says exactly whether they landed; and a row that landed is in the spool under its
   sequence unless a sweep the store executed reaches it.
   */
  lemma VerdictsTellTheTruth(base: Db, maxRows: int, es: seq<Event>, s: State, r: Req, ok: bool)
    requires Opens(base, maxRows, es, s) && (r, ok) in s.verdicts
    ensures ok && IsUpsert(r) && RankOf(r) > 0 ==>
        Backed(s, KeyOf(r)) && s.st.db.values[KeyOf(r)].rank >= RankOf(r)
    ensures !IsUpsert(r) ==> (ok <==> Landed(s.st, r))
    ensures r.Append? && ok ==>
        exists q ::
          RowAt(base, s.st.db, r, q) &&
          (q !in s.st.db.spool ==>
           exists t :: t in s.st.db.others && t.Trim? && t.pipeline == r.pipeline && q <= t.through)
  {
    ReachableKeeps(base, maxRows, es, s);
    var i :| 0 <= i < |s.verdicts| && s.verdicts[i] == (r, ok);
    if ok && IsUpsert(r) && RankOf(r) > 0 { StoredBacked(base, maxRows, es, s, KeyOf(r)); }
    if r.Append? && ok { var q := RowOf(base, maxRows, es, s, r); }
    if !ok && !IsUpsert(r) && Landed(s.st, r) { NotTwice(base, maxRows, es, s, r); }
  }
}
