/**
 Abandoning a run (internal/engine/engine.go Abandon): page over the spool beyond the
 prefix, make a "canceled" dead letter durable for each message with open branches, and
 only then take it out of the tracker.
 */
module Abandon {
  import opened Commit
  import opened Persistence
  import CommitTracker
  import opened Spool

  /** The sequences among rows that have open branches, in order. */
  function OpenSeqs(m: map<int, int>, rows: seq<MemRow>): seq<int> {
    if rows == [] then []
    else
      var last := rows[|rows| - 1];
      OpenSeqs(m, rows[..|rows| - 1]) + (if Units(m, last.sq) > 0 then [last.sq] else [])
  }

  lemma {:induction false} OpenSeqsMembers(m: map<int, int>, rows: seq<MemRow>)
    ensures forall q :: q in OpenSeqs(m, rows) <==> Units(m, q) > 0 && exists x :: x in rows && x.sq == q
  {
    if rows != [] {
      var before, last := rows[..|rows| - 1], rows[|rows| - 1];
      OpenSeqsMembers(m, before);
      assert rows == before + [last];
      assert last in rows;
    }
  }

  lemma {:induction false} OpenSeqsConcat(m: map<int, int>, a: seq<MemRow>, b: seq<MemRow>)
    ensures OpenSeqs(m, a + b) == OpenSeqs(m, a) + OpenSeqs(m, b)
  {
    if b == [] {
      assert a + b == a;
    } else {
      OpenSeqsConcat(m, a, b[..|b| - 1]);
      assert (a + b)[..|a + b| - 1] == a + b[..|b| - 1];
    }
  }

  lemma {:induction false} OpenSeqsSame(m: map<int, int>, m': map<int, int>, rows: seq<MemRow>)
    requires forall i :: 0 <= i < |rows| ==> Units(m, rows[i].sq) == Units(m', rows[i].sq)
    ensures OpenSeqs(m, rows) == OpenSeqs(m', rows)
  {
    if rows != [] { OpenSeqsSame(m, m', rows[..|rows| - 1]); }
  }

  /** Take sequences out of the tracker one after the other. */
  function ForceAll(t: Tracker, qs: seq<int>): Tracker {
    if qs == [] then t else ForceTerminal(ForceAll(t, qs[..|qs| - 1]), qs[|qs| - 1]).0
  }

  /** Registered, or marked as removed: what is neither is a hole. */
  predicate Known(t: Tracker, q: int) { q in t.outstanding || q in t.removed }

  /** Forcing one message leaves every other's branches, and every hole, as they were. */
  lemma ForceOne(t: Tracker, q: int)
    requires Valid(t) && Maximal(t)
    ensures var t' := ForceTerminal(t, q).0;
      && Valid(t') && Maximal(t') && t'.arrivedMax == t.arrivedMax && t'.committedPtr >= t.committedPtr
      && (forall k :: Units(t'.outstanding, k) == if k == q then 0 else Units(t.outstanding, k))
      && (forall k :: k >= t'.committedPtr ==> (Known(t', k) <==> Known(t, k)))
      && (forall k :: t.committedPtr <= k < t'.committedPtr ==> Known(t, k))
  {
    ForceTerminalKeeps(t, q);
    if q in t.outstanding {
      var u := Unlist(t, q);
      UnlistKeeps(t, q);
      AdvanceKeeps(u);
      AdvanceFields(u);
      var t' := Advance(u).0;
      forall k ensures Units(t'.outstanding, k) == if k == q then 0 else Units(t.outstanding, k) {
        if k in u.outstanding && u.committedPtr <= k < t'.committedPtr { assert Passable(u, k); }
      }
      forall k | t.committedPtr <= k < t'.committedPtr ensures Known(t, k) { assert Passable(u, k); }
    }
  }

  lemma {:induction false} ForceMany(t: Tracker, qs: seq<int>)
    requires Valid(t) && Maximal(t)
    ensures var t' := ForceAll(t, qs);
      && Valid(t') && Maximal(t') && t'.arrivedMax == t.arrivedMax && t'.committedPtr >= t.committedPtr
      && (forall k :: Units(t'.outstanding, k) == if k in qs then 0 else Units(t.outstanding, k))
      && (forall k :: k >= t'.committedPtr ==> (Known(t', k) <==> Known(t, k)))
      && (forall k :: t.committedPtr <= k < t'.committedPtr ==> Known(t, k))
  {
    if qs != [] {
      var before, q := qs[..|qs| - 1], qs[|qs| - 1];
      ForceMany(t, before);
      ForceOne(ForceAll(t, before), q);
      assert qs == before + [q];
    }
  }

  lemma {:induction false} AllZero(m: map<int, int>, n: int)
    requires forall q :: 1 <= q <= n ==> Units(m, q) == 0
    ensures OpenUpTo(m, n) == 0
  {
    if n > 0 { AllZero(m, n - 1); }
  }

  /** The message's row is where Abandon looks. */
  ghost predicate Reachable(rows: seq<MemRow>, pipeline: string, ptr: int, q: int) {
    exists x :: x in rows && x.pipeline == pipeline && x.sq == q && x.sq > ptr - 1
  }

  function Abandoned(t: Tracker, rows: seq<MemRow>, pipeline: string): Tracker {
    ForceAll(t, AllOpen(t, rows, pipeline))
  }

  /**
   A full Abandon leaves nothing outstanding exactly when every open message has its row
   beyond the prefix, and then the prefix reaches the last arrival exactly when no sequence
   up to it is a hole.
   */
  lemma AbandonDrainsIff(t: Tracker, rows: seq<MemRow>, pipeline: string)
    requires Valid(t) && Maximal(t)
    ensures var t' := Abandoned(t, rows, pipeline);
      && Valid(t') && t'.arrivedMax == t.arrivedMax
      && (t'.openBranches == 0 <==> forall q :: Units(t.outstanding, q) > 0 ==>
          Reachable(rows, pipeline, t.committedPtr, q))
      && (t'.openBranches == 0 ==>
           (t'.committedPtr - 1 == t'.arrivedMax <==> forall q :: t.committedPtr <= q <= t.arrivedMax ==> Known(t, q)))
  {
    var beyond := RowsAfter(rows, pipeline, t.committedPtr - 1);
    var qs := OpenSeqs(t.outstanding, beyond);
    var t' := ForceAll(t, qs);
    ForceMany(t, qs);
    OpenSeqsMembers(t.outstanding, beyond);
    RowsAfterMembers(rows, pipeline, t.committedPtr - 1);
    forall q | Units(t.outstanding, q) > 0 ensures q in qs <==> Reachable(rows, pipeline, t.committedPtr, q) {}
    if t'.openBranches == 0 {
      forall q | Units(t.outstanding, q) > 0 ensures q in qs { OpenZero(t'.outstanding, t'.arrivedMax, q); }
      AllKnown(t, t');
    } else if forall q :: Units(t.outstanding, q) > 0 ==> q in qs {
      AllZero(t'.outstanding, t'.arrivedMax);
    }
  }

  lemma AllKnown(t: Tracker, t': Tracker)
    requires Valid(t') && Maximal(t') && t'.openBranches == 0 && t'.arrivedMax == t.arrivedMax &&
             t'.committedPtr >= t.committedPtr
    requires forall k :: k >= t'.committedPtr ==> (Known(t', k) <==> Known(t, k))
    requires forall k :: t.committedPtr <= k < t'.committedPtr ==> Known(t, k)
    ensures t'.committedPtr - 1 == t'.arrivedMax <==> forall q :: t.committedPtr <= q <= t.arrivedMax ==> Known(t, q)
  {
    var p := t'.committedPtr;
    if p <= t'.arrivedMax {
      OpenZero(t'.outstanding, t'.arrivedMax, p);
      assert !Known(t', p);
    }
  }

  /** Which rows of a page still have open branches. */
  method CollectOpen(tracker: CommitTracker.Tracker, rows: seq<MemRow>) returns (seqs: seq<int>)
    ensures seqs == OpenSeqs(tracker.outstanding, rows)
  {
    seqs := [];
    for i := 0 to |rows|
      invariant seqs == OpenSeqs(tracker.outstanding, rows[..i])
    {
      assert rows[..i + 1][..i] == rows[..i];
      var open := tracker.IsOutstanding(rows[i].sq);
      if open { seqs := seqs + [rows[i].sq]; }
    }
    assert rows[..|rows|] == rows;
  }

  /**
   Record and force the given messages; `answers` operations succeed before one fails. Only
   a message whose dead letter is durable is forced out, and its slot is given back if it
   was still registered.
   */
  method ForceSeqs(tracker: CommitTracker.Tracker, seqs: seq<int>, answers: nat)
      returns (recorded: seq<int>, released: seq<int>)
    requires tracker.Separate()
    modifies tracker, tracker.srcs.Values
    ensures tracker.View() == ForceAll(old(tracker.View()), recorded)
    ensures recorded == seqs[..if answers < |seqs| then answers else |seqs|]
    ensures released == Registered(old(tracker.View()), recorded)
  {
    recorded, released := [], [];
    for i := 0 to |seqs|
      invariant i <= answers && recorded == seqs[..i]
      invariant tracker.View() == ForceAll(old(tracker.View()), recorded)
      invariant released == Registered(old(tracker.View()), recorded)
    {
      if i == answers { return; }
      recorded := recorded + [seqs[i]];
      assert recorded[..i] == seqs[..i];
      var open, _ := tracker.ForceTerminal(seqs[i]);
      if open { released := released + [seqs[i]]; }
    }
  }

  /** Those of qs still registered when their turn comes. */
  function Registered(t: Tracker, qs: seq<int>): seq<int> {
    if qs == [] then []
    else
      var before, q := qs[..|qs| - 1], qs[|qs| - 1];
      Registered(t, before) + (if q in ForceAll(t, before).outstanding then [q] else [])
  }

  lemma {:induction false} ForceAllConcat(t: Tracker, a: seq<int>, b: seq<int>)
    ensures ForceAll(t, a + b) == ForceAll(ForceAll(t, a), b)
  {
    if b == [] {
      assert a + b == a;
    } else {
      ForceAllConcat(t, a, b[..|b| - 1]);
      assert (a + b)[..|a + b| - 1] == a + b[..|b| - 1];
    }
  }

  lemma {:induction false} RegisteredConcat(t: Tracker, a: seq<int>, b: seq<int>)
    ensures Registered(t, a + b) == Registered(t, a) + Registered(ForceAll(t, a), b)
  {
    if b == [] {
      assert a + b == a;
    } else {
      RegisteredConcat(t, a, b[..|b| - 1]);
      ForceAllConcat(t, a, b[..|b| - 1]);
      assert (a + b)[..|a + b| - 1] == a + b[..|b| - 1];
    }
  }

  /** How far a walk has come: the open rows of the first `done` are recorded, the others are left. */
  ghost predicate Walked(m: map<int, int>, all: seq<MemRow>, done: nat, recorded: seq<int>, rest: seq<MemRow>) {
    done <= |all| && recorded == OpenSeqs(m, all[..done]) && rest == all[done..]
  }

  /** A row past the walked ones was not recorded. */
  lemma Unseen(m: map<int, int>, all: seq<MemRow>, done: nat, k: nat)
    requires Ascending(all) && done <= k < |all|
    ensures all[k].sq !in OpenSeqs(m, all[..done])
  {
    OpenSeqsMembers(m, all[..done]);
    forall x | x in all[..done] ensures x.sq < all[k].sq {
      var j :| 0 <= j < done && all[j] == x;
    }
  }

  lemma PageUnseen(m: map<int, int>, all: seq<MemRow>, done: nat, page: seq<MemRow>, recorded: seq<int>)
    requires Ascending(all) && done + |page| <= |all| && page == all[done..done + |page|]
    requires recorded == OpenSeqs(m, all[..done])
    ensures forall i :: 0 <= i < |page| ==> page[i].sq !in recorded
  {
    forall i | 0 <= i < |page| ensures page[i].sq !in recorded {
      Unseen(m, all, done, done + i);
    }
  }

  /** What was recorded so far does not change which rows of the next page are open. */
  lemma PageUnaffected(t: Tracker, recorded: seq<int>, page: seq<MemRow>)
    requires Valid(t) && Maximal(t) && forall i :: 0 <= i < |page| ==> page[i].sq !in recorded
    ensures PageOpen(t, recorded, page) == OpenSeqs(t.outstanding, page)
  {
    var m' := ForceAll(t, recorded).outstanding;
    forall i | 0 <= i < |page| ensures Units(t.outstanding, page[i].sq) == Units(m', page[i].sq) {
      UnrecordedStay(t, recorded, page[i].sq);
    }
    OpenSeqsSame(t.outstanding, m', page);
  }

  /** A page from the rest moves the walk on by its rows. */
  lemma PageWalks(t: Tracker, all: seq<MemRow>, done: nat, recorded: seq<int>, rest: seq<MemRow>, page: seq<MemRow>)
    requires Valid(t) && Maximal(t) && Ascending(all) && Walked(t.outstanding, all, done, recorded, rest)
    requires |page| <= |rest| && page == rest[..|page|]
    ensures Walked(t.outstanding, all, done + |page|, recorded + PageOpen(t, recorded, page), rest[|page|..])
  {
    var k := |page|;
    assert page == all[done..done + k] && rest[k..] == all[done + k..];
    PageUnseen(t.outstanding, all, done, page, recorded);
    PageUnaffected(t, recorded, page);
    assert all[..done + k] == all[..done] + page;
    OpenSeqsConcat(t.outstanding, all[..done], page);
  }

  /** What one page of the store shows of the rows left, and where the next one starts. */
  method ReadPage(store: MemStore, pipeline: string, after: int, ghost rest: seq<MemRow>)
      returns (page: seq<MemRow>, next: Option<int>)
    requires store.Valid() && rest == RowsAfter(store.spool, pipeline, after)
    ensures |page| <= |rest| && page == rest[..|page|]
    ensures next.Some? ==> |page| == 256 && RowsAfter(store.spool, pipeline, next.value) == rest[|page|..]
    ensures next.None? ==> |page| == |rest| < 256
  {
    var p := store.ReplayPage(pipeline, after, 256, 256);
    MemStore.PageMoves(store.spool, pipeline, after, 256, 256, p);
    if p.more { LastBeyond(store.spool, pipeline, after, p); }
    page := p.visited;
    next := if !p.more || p.last == after then None else Some(p.last);
  }

  lemma LastBeyond(rows: seq<MemRow>, pipeline: string, after: int, p: Paged)
    requires p == Visit(Page(rows, pipeline, after, 256), after, |Page(rows, pipeline, after, 256)| == 256, 256) &&
             p.more
    ensures p.last > after
  {
    RowsAfterMembers(rows, pipeline, after);
    assert RowsAfter(rows, pipeline, after)[255] in RowsAfter(rows, pipeline, after);
  }

  function PageOpen(t: Tracker, recorded: seq<int>, page: seq<MemRow>): seq<int> {
    OpenSeqs(ForceAll(t, recorded).outstanding, page)
  }

  function AllOpen(t: Tracker, rows: seq<MemRow>, pipeline: string): seq<int> {
    OpenSeqs(t.outstanding, RowsAfter(rows, pipeline, t.committedPtr - 1))
  }

  method ForcePage(ghost t: Tracker, tracker: CommitTracker.Tracker, page: seq<MemRow>, ghost recorded: seq<int>,
                   left: nat)
    returns (whole: bool, forced: seq<int>, freed: seq<int>)
    requires tracker.Separate() && tracker.View() == ForceAll(t, recorded)
    modifies tracker, tracker.srcs.Values
    ensures tracker.View() == ForceAll(t, recorded + forced)
    ensures Registered(t, recorded + forced) == Registered(t, recorded) + freed
    ensures whole <==> |PageOpen(t, recorded, page)| <= left
    ensures forced == PageOpen(t, recorded, page)[..if whole then |PageOpen(t, recorded, page)| else left]
  {
    var seqs := CollectOpen(tracker, page);
    forced, freed := ForceSeqs(tracker, seqs, left);
    ForceAllConcat(t, recorded, forced);
    RegisteredConcat(t, recorded, forced);
    whole := |forced| == |seqs|;
  }

  /** How many pages a walk over n rows reads: a page that comes back full is followed by another. */
  function Pages(n: nat): nat { n / 256 + 1 }

  /** The answers a full Abandon needs: one per page read, one per record. */
  function Needed(t: Tracker, rows: seq<MemRow>, pipeline: string): nat {
    Pages(|RowsAfter(rows, pipeline, t.committedPtr - 1)|) + |AllOpen(t, rows, pipeline)|
  }

  ghost predicate IsPrefix(a: seq<int>, b: seq<int>) { |a| <= |b| && a == b[..|a|] }

  /** What was recorded on the way is where the whole record begins. */
  lemma WalkedPrefix(m: map<int, int>, all: seq<MemRow>, done: nat, recorded: seq<int>, rest: seq<MemRow>,
                     part: seq<int>)
    requires Walked(m, all, done, recorded, rest) && IsPrefix(part, recorded)
    ensures IsPrefix(part, OpenSeqs(m, all)) && |recorded| <= |OpenSeqs(m, all)|
  {
    assert all == all[..done] + all[done..];
    OpenSeqsConcat(m, all[..done], all[done..]);
  }

  /** The answers ran out, `done` rows in: what was recorded begins the whole record, and more was needed. */
  ghost predicate RanOut(m: map<int, int>, all: seq<MemRow>, answers: nat, recorded: seq<int>) {
    && IsPrefix(recorded, OpenSeqs(m, all))
    && answers < Pages(|all|) + |OpenSeqs(m, all)|
    && answers - Pages(|all|) <= |recorded| <= answers
  }

  lemma OutBeforePage(m: map<int, int>, all: seq<MemRow>, done: nat, seen: nat, recorded: seq<int>, rest: seq<MemRow>,
                      answers: nat)
    requires Walked(m, all, done, recorded, rest) && done == 256 * seen && answers == seen + |recorded|
    ensures RanOut(m, all, answers, recorded)
  {
    WalkedPrefix(m, all, done, recorded, rest, recorded);
  }

  lemma OutInPage(m: map<int, int>, all: seq<MemRow>, done: nat, done': nat, seen: nat, recorded: seq<int>,
                  open: seq<int>, rest: seq<MemRow>, left: nat, answers: nat)
    requires Walked(m, all, done', recorded + open, rest) && done == 256 * seen && done <= done' && left < |open|
    requires answers == seen + 1 + |recorded| + left
    ensures RanOut(m, all, answers, recorded + open[..left])
  {
    assert recorded + open[..left] == (recorded + open)[..|recorded| + left];
    WalkedPrefix(m, all, done', recorded + open, rest, recorded + open[..left]);
  }

  lemma WalkEnds(m: map<int, int>, all: seq<MemRow>, done: nat, seen: nat, recorded: seq<int>, open: seq<int>,
                 answers: nat)
    requires Walked(m, all, |all|, recorded + open, []) && done == 256 * seen && done <= |all| < done + 256
    requires answers >= seen + 1 + |recorded| + |open|
    ensures recorded + open == OpenSeqs(m, all) && answers >= Pages(|all|) + |OpenSeqs(m, all)|
  {
    assert all[..|all|] == all;
  }

  /**
   Abandon on a tracker and a store, with the answers of the context and the store given
   as how many of them succeed before the first failure (each page read and each record is
   one). Page reads collect what is open; each dead letter is recorded before its message
   is forced out. It succeeds exactly when the answers suffice, and then has recorded every
   open message with a row beyond the prefix; otherwise it used them all up, and what it
   recorded is where that list begins.
   */
  method Run(tracker: CommitTracker.Tracker, store: MemStore, pipeline: string, answers: nat)
    returns (ok: bool, recorded: seq<int>, released: seq<int>)
    requires tracker.Separate() && store.Valid() && Valid(tracker.View()) && Maximal(tracker.View())
    modifies tracker, tracker.srcs.Values
    ensures tracker.View() == ForceAll(old(tracker.View()), recorded)
    ensures released == Registered(old(tracker.View()), recorded)
    ensures ok <==> answers >= Needed(old(tracker.View()), store.spool, pipeline)
    ensures ok ==> recorded == AllOpen(old(tracker.View()), store.spool, pipeline)
    ensures !ok ==> IsPrefix(recorded, AllOpen(old(tracker.View()), store.spool, pipeline))
    ensures !ok ==>
            |recorded| <= answers &&
            answers <= |recorded| + Pages(|RowsAfter(store.spool, pipeline, old(tracker.committedPtr) - 1)|)
  {
    ghost var t, rows := tracker.View(), store.spool;
    var after := tracker.committedPtr - 1;
    ghost var all := RowsAfter(rows, pipeline, after);
    RowsAfterAscends(rows, pipeline, after);
    assert AllOpen(t, rows, pipeline) == OpenSeqs(t.outstanding, all);
    ok, recorded, released := Walk(tracker, store, pipeline, after, answers, t, all);
  }

  method Walk(tracker: CommitTracker.Tracker, store: MemStore, pipeline: string, start: int, answers: nat,
              ghost t: Tracker, ghost all: seq<MemRow>)
    returns (ok: bool, recorded: seq<int>, released: seq<int>)
    requires tracker.Separate() && store.Valid() && tracker.View() == t && Valid(t) && Maximal(t)
    requires Ascending(all) && all == RowsAfter(store.spool, pipeline, start)
    modifies tracker, tracker.srcs.Values
    ensures tracker.View() == ForceAll(t, recorded) && released == Registered(t, recorded)
    ensures ok ==> recorded == OpenSeqs(t.outstanding, all) && answers >= Pages(|all|) + |OpenSeqs(t.outstanding, all)|
    ensures !ok ==> RanOut(t.outstanding, all, answers, recorded)
  {
    ghost var done: nat, rest, seen: nat := 0, all, 0;
    WalkStarts(t, all);
    recorded, released := [], [];
    var after, left: nat := start, answers;
    while true
      invariant tracker.View() == ForceAll(t, recorded) && released == Registered(t, recorded)
      invariant store.Valid() && rest == RowsAfter(store.spool, pipeline, after)
      invariant Walked(t.outstanding, all, done, recorded, rest)
      invariant done == 256 * seen && left + seen + |recorded| == answers
      decreases |rest|
    {
      if left == 0 {
        OutBeforePage(t.outstanding, all, done, seen, recorded, rest, answers);
        return false, recorded, released;
      }
      left := left - 1;
      var whole, forced, freed, next;
      ghost var open, done', rest';
      whole, forced, freed, next, open, done', rest' :=
        Turn(tracker, store, pipeline, after, left, t, all, done, recorded, rest);
      if !whole {
        OutInPage(t.outstanding, all, done, done', seen, recorded, open, rest', left, answers);
        return false, recorded + forced, released + freed;
      }
      if next.None? {
        WalkEnds(t.outstanding, all, done, seen, recorded, open, answers);
        return true, recorded + forced, released + freed;
      }
      recorded, released := recorded + forced, released + freed;
      left := left - |forced|;
      done, rest, seen := done', rest', seen + 1;
      after := next.value;
    }
  }

  /** One page read and forced out as far as the answers go; `next` is where the following page starts, if
      there is one. */
  method Turn(tracker: CommitTracker.Tracker, store: MemStore, pipeline: string, after: int, left: nat,
              ghost t: Tracker, ghost all: seq<MemRow>, ghost done: nat, ghost recorded: seq<int>,
              ghost rest: seq<MemRow>)
    returns (whole: bool, forced: seq<int>, freed: seq<int>, next: Option<int>,
             ghost open: seq<int>, ghost done': nat, ghost rest': seq<MemRow>)
    requires tracker.Separate() && store.Valid() && tracker.View() == ForceAll(t, recorded)
    requires Valid(t) && Maximal(t) && Ascending(all) && Walked(t.outstanding, all, done, recorded, rest)
    requires rest == RowsAfter(store.spool, pipeline, after)
    modifies tracker, tracker.srcs.Values
    ensures tracker.View() == ForceAll(t, recorded + forced)
    ensures Registered(t, recorded + forced) == Registered(t, recorded) + freed
    ensures Walked(t.outstanding, all, done', recorded + open, rest')
    ensures next.Some? ==>
            done' == done + 256 && |rest'| < |rest| && rest' == RowsAfter(store.spool, pipeline, next.value)
    ensures next.None? ==> done' == |all| < done + 256 && rest' == []
    ensures if |open| <= left then whole && forced == open else !whole && forced == open[..left]
  {
    var page;
    page, next := ReadPage(store, pipeline, after, rest);
    PageWalks(t, all, done, recorded, rest, page);
    open, done', rest' := PageOpen(t, recorded, page), done + |page|, rest[|page|..];
    whole, forced, freed := ForcePage(t, tracker, page, recorded, left);
  }

  lemma WalkStarts(t: Tracker, all: seq<MemRow>)
    ensures Walked(t.outstanding, all, 0, [], all) && ForceAll(t, []) == t && Registered(t, []) == []
  {}

  /** What was recorded has no branch left; what was not keeps all of its own. */
  lemma UnrecordedStay(t: Tracker, recorded: seq<int>, q: int)
    requires Valid(t) && Maximal(t)
    ensures Units(ForceAll(t, recorded).outstanding, q) == if q in recorded then 0 else Units(t.outstanding, q)
    ensures Units(t.outstanding, q) > 0 && q !in recorded && q >= t.committedPtr ==>
        ForceAll(t, recorded).committedPtr <= q
  {
    ForceMany(t, recorded);
  }
}
