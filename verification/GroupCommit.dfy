/**
 Group commit as functions on values (internal/store/writer.go): how a drained queue is
 planned into transactions, and what one committed transaction does to the store.
 */
module GroupCommit {

  /** What an upsert overwrites: a pipeline's checkpoint, or one source's state. */
  datatype Key = Cp(pipeline: string) | Src(pipeline: string, source: string)

  datatype Req =
    | Append(id: nat, pipeline: string, body: string)
    | Checkpoint(id: nat, pipeline: string, cpSeq: int)
    | SourceState(id: nat, pipeline: string, source: string, state: string, srcSeq: int)
    | Trim(id: nat, pipeline: string, through: int)  // a retention sweep of the spool
    | Other(id: nat)                    // dead letters, other deletes, job-run records

  /** Executed one by one, in queue order. */
  predicate IsRest(r: Req) { r.Trim? || r.Other? }

  predicate IsUpsert(r: Req) { r.Checkpoint? || r.SourceState? }

  function KeyOf(r: Req): Key
    requires IsUpsert(r)
  {
    if r.Checkpoint? then Cp(r.pipeline) else Src(r.pipeline, r.source)
  }

  function RankOf(r: Req): int
    requires IsUpsert(r)
  {
    if r.Checkpoint? then r.cpSeq else r.srcSeq
  }

  function StateOf(r: Req): string
    requires IsUpsert(r)
  {
    if r.Checkpoint? then "" else r.state
  }

  /** One coalesced upsert and the requests folded into it. */
  datatype Entry = Entry(key: Key, rank: int, state: string, waiters: seq<Req>)

  datatype Stmts = Stmts(checkpoints: seq<Entry>, sourceStates: seq<Entry>, rest: seq<Req>)

  const NoStmts := Stmts([], [], [])

  datatype Plan = Plan(appends: seq<seq<Req>>, stmts: Stmts)

  // --- planning ---

  /** The newest pair wins whole: the state and its frontier stay together, a tie keeps the later. */
  function Join(e: Entry, r: Req): Entry
    requires IsUpsert(r)
  {
    var e1 := e.(waiters := e.waiters + [r]);
    if RankOf(r) >= e.rank then e1.(rank := RankOf(r), state := StateOf(r)) else e1
  }

  function NewEntry(r: Req): Entry
    requires IsUpsert(r)
  {
    Entry(KeyOf(r), RankOf(r), StateOf(r), [r])
  }

  function Fold(es: seq<Entry>, r: Req): seq<Entry>
    requires IsUpsert(r)
  {
    if es == [] then [NewEntry(r)]
    else if es[0].key == KeyOf(r) then [Join(es[0], r)] + es[1..]
    else [es[0]] + Fold(es[1..], r)
  }

  /** A plan under construction: closed chunks, the open one, the statements. */
  datatype Draft = Draft(full: seq<seq<Req>>, chunk: seq<Req>, stmts: Stmts)

  const NoDraft := Draft([], [], NoStmts)

  function Place(d: Draft, r: Req, maxRows: int): Draft {
    match r
    case Append(_, _, _) =>
      if |d.chunk| + 1 == maxRows then d.(full := d.full + [d.chunk + [r]], chunk := []) else d.(chunk := d.chunk + [r])
    case Checkpoint(_, _, _) => d.(stmts := d.stmts.(checkpoints := Fold(d.stmts.checkpoints, r)))
    case SourceState(_, _, _, _, _) => d.(stmts := d.stmts.(sourceStates := Fold(d.stmts.sourceStates, r)))
    case _ => d.(stmts := d.stmts.(rest := d.stmts.rest + [r]))
  }

  function Drafted(batch: seq<Req>, maxRows: int): Draft {
    if batch == [] then NoDraft
    else Place(Drafted(batch[..|batch| - 1], maxRows), batch[|batch| - 1], maxRows)
  }

  function Closed(d: Draft): Plan { Plan(if d.chunk == [] then d.full else d.full + [d.chunk], d.stmts) }

  function PlanOf(batch: seq<Req>, maxRows: int): Plan { Closed(Drafted(batch, maxRows)) }

  // --- what a plan keeps ---

  function Flatten(cs: seq<seq<Req>>): seq<Req> {
    if cs == [] then [] else Flatten(cs[..|cs| - 1]) + cs[|cs| - 1]
  }

  function Waiters(es: seq<Entry>): seq<Req> {
    if es == [] then [] else es[0].waiters + Waiters(es[1..])
  }

  function AppendsOf(batch: seq<Req>): seq<Req> {
    if batch == [] then []
    else AppendsOf(batch[..|batch| - 1]) + (if batch[|batch| - 1].Append? then [batch[|batch| - 1]] else [])
  }

  function OthersOf(batch: seq<Req>): seq<Req> {
    if batch == [] then []
    else OthersOf(batch[..|batch| - 1]) + (if IsRest(batch[|batch| - 1]) then [batch[|batch| - 1]] else [])
  }

  /** The batch's requests for one key, in queue order. */
  function OfKey(batch: seq<Req>, k: Key): seq<Req> {
    if batch == [] then []
    else
      var last := batch[|batch| - 1];
      OfKey(batch[..|batch| - 1], k) + (if IsUpsert(last) && KeyOf(last) == k then [last] else [])
  }

  lemma {:induction false} AppendsOfMembers(batch: seq<Req>)
    ensures forall x :: x in AppendsOf(batch) <==> x in batch && x.Append?
  {
    if batch != [] {
      AppendsOfMembers(batch[..|batch| - 1]);
      assert batch == batch[..|batch| - 1] + [batch[|batch| - 1]];
    }
  }

  lemma {:induction false} OfKeyMembers(batch: seq<Req>, k: Key)
    ensures forall x :: x in OfKey(batch, k) <==> x in batch && IsUpsert(x) && KeyOf(x) == k
  {
    if batch != [] {
      OfKeyMembers(batch[..|batch| - 1], k);
      assert batch == batch[..|batch| - 1] + [batch[|batch| - 1]];
    }
  }

  lemma FlattenSnoc(cs: seq<seq<Req>>, c: seq<Req>)
    ensures Flatten(cs + [c]) == Flatten(cs) + c
  {
    assert (cs + [c])[..|cs|] == cs;
  }

  /** The closed chunks are full, and together with the open one hold `added` in order. */
  ghost predicate Chunked(d: Draft, added: seq<Req>, maxRows: int) {
    && Flatten(d.full) + d.chunk == added && |d.chunk| < maxRows
    && forall i :: 0 <= i < |d.full| ==> |d.full[i]| == maxRows
  }

  lemma PlaceChunked(d: Draft, added: seq<Req>, r: Req, maxRows: int)
    requires Chunked(d, added, maxRows)
    ensures Chunked(Place(d, r, maxRows), if r.Append? then added + [r] else added, maxRows)
  {
    if r.Append? {
      FlattenSnoc(d.full, d.chunk + [r]);
      assert Flatten(d.full) + (d.chunk + [r]) == added + [r];
    }
  }

  lemma {:induction false} DraftChunked(batch: seq<Req>, maxRows: int)
    requires maxRows >= 1
    ensures Chunked(Drafted(batch, maxRows), AppendsOf(batch), maxRows)
  {
    if batch != [] {
      var before, r := batch[..|batch| - 1], batch[|batch| - 1];
      DraftChunked(before, maxRows);
      PlaceChunked(Drafted(before, maxRows), AppendsOf(before), r, maxRows);
    }
  }

  /**
   Appends keep queue order across chunks of at most maxRows, and only the last chunk may
   be short of it.
   */
  lemma PlanAppends(batch: seq<Req>, maxRows: int)
    requires maxRows >= 1
    ensures var p := PlanOf(batch, maxRows);
      && Flatten(p.appends) == AppendsOf(batch)
      && (forall i :: 0 <= i < |p.appends| ==> 1 <= |p.appends[i]| <= maxRows)
      && (forall i :: 0 <= i < |p.appends| - 1 ==> |p.appends[i]| == maxRows)
  {
    DraftChunked(batch, maxRows);
    ClosedChunks(Drafted(batch, maxRows), AppendsOf(batch), maxRows);
  }

  lemma ClosedChunks(d: Draft, added: seq<Req>, maxRows: int)
    requires Chunked(d, added, maxRows) && maxRows >= 1
    ensures var cs := Closed(d).appends;
      && Flatten(cs) == added
      && (forall i :: 0 <= i < |cs| ==> 1 <= |cs[i]| <= maxRows)
      && (forall i :: 0 <= i < |cs| - 1 ==> |cs[i]| == maxRows)
  {
    FlattenSnoc(d.full, d.chunk);
  }

  // --- every request lands in exactly one place ---

  function Placed(d: Draft): multiset<Req> {
    multiset(Flatten(d.full)) + multiset(d.chunk) + StmtReqs(d.stmts)
  }

  function StmtReqs(s: Stmts): multiset<Req> {
    multiset(Waiters(s.checkpoints)) + multiset(Waiters(s.sourceStates)) + multiset(s.rest)
  }

  lemma {:induction false} FoldConserves(es: seq<Entry>, r: Req)
    requires IsUpsert(r)
    ensures multiset(Waiters(Fold(es, r))) == multiset(Waiters(es)) + multiset{r}
  {
    if es == [] {
      assert Fold(es, r)[1..] == [];
      assert Waiters(Fold(es, r)) == [r];
    } else if es[0].key == KeyOf(r) {
      assert Fold(es, r)[1..] == es[1..];
      assert Waiters(Fold(es, r)) == es[0].waiters + [r] + Waiters(es[1..]);
    } else {
      FoldConserves(es[1..], r);
      assert Fold(es, r)[1..] == Fold(es[1..], r);
    }
  }

  lemma PlaceConserves(d: Draft, r: Req, maxRows: int)
    ensures Placed(Place(d, r, maxRows)) == Placed(d) + multiset{r}
  {
    if r.Append? {
      ChunkConserves(d, r, maxRows);
    } else if IsUpsert(r) {
      FoldConserves(if r.Checkpoint? then d.stmts.checkpoints else d.stmts.sourceStates, r);
    }
  }

  lemma ChunkConserves(d: Draft, r: Req, maxRows: int)
    requires r.Append?
    ensures Placed(Place(d, r, maxRows)) == Placed(d) + multiset{r}
  {
    FlattenSnoc(d.full, d.chunk + [r]);
    assert multiset(d.chunk + [r]) == multiset(d.chunk) + multiset{r};
  }

  function PlanReqs(p: Plan): multiset<Req> { multiset(Flatten(p.appends)) + StmtReqs(p.stmts) }

  lemma {:induction false} DraftConserves(batch: seq<Req>, maxRows: int)
    ensures Placed(Drafted(batch, maxRows)) == multiset(batch)
  {
    if batch != [] {
      DraftConserves(batch[..|batch| - 1], maxRows);
      PlaceConserves(Drafted(batch[..|batch| - 1], maxRows), batch[|batch| - 1], maxRows);
      assert batch == batch[..|batch| - 1] + [batch[|batch| - 1]];
    }
  }

  /** A plan holds every request of its batch exactly once. */
  lemma PlanConserves(batch: seq<Req>, maxRows: int)
    ensures PlanReqs(PlanOf(batch, maxRows)) == multiset(batch)
  {
    DraftConserves(batch, maxRows);
    var d := Drafted(batch, maxRows);
    FlattenSnoc(d.full, d.chunk);
  }

  // --- each entry is its key's newest pair ---

  /** The i-th waiter is the latest of those with the largest rank. */
  ghost predicate Wins(ws: seq<Req>, i: nat) {
    && i < |ws| && (forall j :: 0 <= j < |ws| ==> IsUpsert(ws[j]))
    && (forall j :: 0 <= j < |ws| ==> RankOf(ws[j]) <= RankOf(ws[i]))
    && (forall j :: i < j < |ws| ==> RankOf(ws[j]) < RankOf(ws[i]))
  }

  /** The entry carries the newest pair of its waiters, a whole one. */
  ghost predicate Newest(e: Entry) {
    && (forall j :: 0 <= j < |e.waiters| ==> IsUpsert(e.waiters[j]) && KeyOf(e.waiters[j]) == e.key)
    && exists i: nat :: Carries(e, i)
  }

  ghost predicate Carries(e: Entry, i: nat) {
    Wins(e.waiters, i) && e.rank == RankOf(e.waiters[i]) && e.state == StateOf(e.waiters[i])
  }

  ghost predicate DistinctKeys(es: seq<Entry>) {
    forall i, j :: 0 <= i < j < |es| ==> es[i].key != es[j].key
  }

  ghost predicate Folded(es: seq<Entry>, batch: seq<Req>) {
    && DistinctKeys(es)
    && (forall i :: 0 <= i < |es| ==> Fits(es[i], batch))
  }

  ghost predicate Fits(e: Entry, batch: seq<Req>) { Newest(e) && e.waiters == OfKey(batch, e.key) }

  ghost predicate HasKey(es: seq<Entry>, k: Key) { exists i :: 0 <= i < |es| && es[i].key == k }

  lemma JoinNewest(e: Entry, r: Req)
    requires Newest(e) && IsUpsert(r) && KeyOf(r) == e.key
    ensures Newest(Join(e, r))
  {
    var i: nat :| Carries(e, i);
    var e' := Join(e, r);
    assert e'.waiters[..|e.waiters|] == e.waiters;
    if RankOf(r) >= e.rank {
      assert Carries(e', |e.waiters|);
    } else {
      assert Carries(e', i);
    }
  }

  lemma NewNewest(r: Req)
    requires IsUpsert(r)
    ensures Newest(NewEntry(r))
  {
    assert Carries(NewEntry(r), 0);
  }

  /** Folding touches the one entry of its key, or appends a new one. */
  lemma {:induction false} FoldAt(es: seq<Entry>, r: Req) returns (i: nat)
    requires IsUpsert(r)
    ensures i <= |es|
    ensures i < |es| ==> es[i].key == KeyOf(r) && Fold(es, r) == es[i := Join(es[i], r)]
    ensures i == |es| ==> !HasKey(es, KeyOf(r)) && Fold(es, r) == es + [NewEntry(r)]
  {
    if es == [] || es[0].key == KeyOf(r) { return 0; }
    i := FoldAt(es[1..], r);
    i := i + 1;
    assert forall j :: 1 <= j < |es| ==> es[j] == es[1..][j - 1];
  }

  lemma OfKeySnoc(batch: seq<Req>, r: Req, k: Key)
    ensures OfKey(batch + [r], k) == OfKey(batch, k) + (if IsUpsert(r) && KeyOf(r) == k then [r] else [])
  {
    assert (batch + [r])[..|batch|] == batch;
  }

  lemma FoldKeeps(es: seq<Entry>, batch: seq<Req>, r: Req)
    requires IsUpsert(r) && Folded(es, batch)
    requires HasKey(es, KeyOf(r)) <==> OfKey(batch, KeyOf(r)) != []
    ensures Folded(Fold(es, r), batch + [r])
    ensures forall k :: HasKey(Fold(es, r), k) <==> HasKey(es, k) || k == KeyOf(r)
  {
    var i := FoldAt(es, r);
    if i < |es| { FoldIn(es, batch, r, i); } else { FoldNew(es, batch, r); }
  }

  lemma FoldIn(es: seq<Entry>, batch: seq<Req>, r: Req, i: nat)
    requires IsUpsert(r) && Folded(es, batch) && i < |es| && es[i].key == KeyOf(r)
    ensures var es' := es[i := Join(es[i], r)];
      Folded(es', batch + [r]) && forall k :: HasKey(es', k) <==> HasKey(es, k) || k == KeyOf(r)
  {
    var es' := es[i := Join(es[i], r)];
    assert forall j :: 0 <= j < |es| ==> es'[j].key == es[j].key;
    forall j | 0 <= j < |es'| ensures Fits(es'[j], batch + [r]) {
      OfKeySnoc(batch, r, es[j].key);
      if j == i { JoinNewest(es[i], r); }
    }
    SameKeys(es, es');
  }

  lemma SameKeys(es: seq<Entry>, es': seq<Entry>)
    requires |es'| == |es| && forall j :: 0 <= j < |es| ==> es'[j].key == es[j].key
    ensures forall k :: HasKey(es', k) <==> HasKey(es, k)
  {
    forall k ensures HasKey(es', k) <==> HasKey(es, k) {
      if HasKey(es, k) { var j :| 0 <= j < |es| && es[j].key == k; assert es'[j].key == k; }
    }
  }

  lemma FoldNew(es: seq<Entry>, batch: seq<Req>, r: Req)
    requires IsUpsert(r) && Folded(es, batch) && !HasKey(es, KeyOf(r)) && OfKey(batch, KeyOf(r)) == []
    ensures var es' := es + [NewEntry(r)];
      Folded(es', batch + [r]) && forall k :: HasKey(es', k) <==> HasKey(es, k) || k == KeyOf(r)
  {
    UntouchedEntries(es, batch, r);
    assert Fits(NewEntry(r), batch + [r]) by {
      OfKeySnoc(batch, r, KeyOf(r));
      NewNewest(r);
    }
    FoldedSnoc(es, NewEntry(r), batch + [r]);
    HasKeySnoc(es, NewEntry(r));
  }

  lemma FoldedSnoc(es: seq<Entry>, e: Entry, batch: seq<Req>)
    requires Folded(es, batch) && Fits(e, batch) && !HasKey(es, e.key)
    ensures Folded(es + [e], batch)
  {}

  lemma HasKeySnoc(es: seq<Entry>, e: Entry)
    ensures forall k :: HasKey(es + [e], k) <==> HasKey(es, k) || k == e.key
  {
    var es' := es + [e];
    forall k ensures HasKey(es', k) <==> HasKey(es, k) || k == e.key {
      if HasKey(es, k) { var j :| 0 <= j < |es| && es[j].key == k; assert es'[j].key == k; }
      assert es'[|es|].key == e.key;
    }
  }

  lemma UntouchedEntries(es: seq<Entry>, batch: seq<Req>, r: Req)
    requires Folded(es, batch) && (IsUpsert(r) ==> !HasKey(es, KeyOf(r)))
    ensures Folded(es, batch + [r])
  {
    forall i | 0 <= i < |es| ensures Fits(es[i], batch + [r]) {
      assert IsUpsert(r) ==> es[i].key != KeyOf(r);
      OfKeySnoc(batch, r, es[i].key);
    }
  }

  /** The requests of one kind of key land in that kind's entries, and nowhere else. */
  ghost predicate Covers(es: seq<Entry>, batch: seq<Req>, checkpoints: bool) {
    forall k: Key :: HasKey(es, k) <==> OfKey(batch, k) != [] && k.Cp? == checkpoints
  }

  ghost predicate Sifted(s: Stmts, batch: seq<Req>) {
    && Folded(s.checkpoints, batch) && Covers(s.checkpoints, batch, true)
    && Folded(s.sourceStates, batch) && Covers(s.sourceStates, batch, false)
    && s.rest == OthersOf(batch)
  }

  lemma CoversSnoc(es: seq<Entry>, batch: seq<Req>, r: Req, checkpoints: bool)
    requires Covers(es, batch, checkpoints)
    ensures !IsUpsert(r) || KeyOf(r).Cp? != checkpoints ==> Covers(es, batch + [r], checkpoints)
    ensures IsUpsert(r) && KeyOf(r).Cp? == checkpoints && Folded(es, batch) ==>
      Covers(Fold(es, r), batch + [r], checkpoints) && Folded(Fold(es, r), batch + [r])
  {
    forall k ensures OfKey(batch + [r], k) != [] <==> OfKey(batch, k) != [] || (IsUpsert(r) && KeyOf(r) == k) {
      OfKeySnoc(batch, r, k);
    }
    if IsUpsert(r) && KeyOf(r).Cp? == checkpoints && Folded(es, batch) { FoldKeeps(es, batch, r); }
  }

  lemma PlaceSifts(d: Draft, batch: seq<Req>, r: Req, maxRows: int)
    requires Sifted(d.stmts, batch)
    ensures Sifted(Place(d, r, maxRows).stmts, batch + [r])
  {
    PlaceSide(d.stmts.checkpoints, batch, r, true);
    PlaceSide(d.stmts.sourceStates, batch, r, false);
    assert (batch + [r])[..|batch|] == batch;
  }

  /** One kind of entries after one more request. */
  lemma PlaceSide(es: seq<Entry>, batch: seq<Req>, r: Req, checkpoints: bool)
    requires Folded(es, batch) && Covers(es, batch, checkpoints)
    ensures var es' := if IsUpsert(r) && KeyOf(r).Cp? == checkpoints then Fold(es, r) else es;
      Folded(es', batch + [r]) && Covers(es', batch + [r], checkpoints)
  {
    CoversSnoc(es, batch, r, checkpoints);
    if !(IsUpsert(r) && KeyOf(r).Cp? == checkpoints) { UntouchedEntries(es, batch, r); }
  }

  /** One entry per key that was asked for, holding that key's requests in order and its newest pair. */
  lemma {:induction false} PlanEntries(batch: seq<Req>, maxRows: int)
    ensures Sifted(PlanOf(batch, maxRows).stmts, batch)
  {
    if batch != [] {
      var before, r := batch[..|batch| - 1], batch[|batch| - 1];
      PlanEntries(before, maxRows);
      PlaceSifts(Drafted(before, maxRows), before, r, maxRows);
      assert batch == before + [r];
    }
  }
}
