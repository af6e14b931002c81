/**
 The commit tracker's behaviour as functions on values (internal/engine/commit.go).

 A message carries one outstanding unit per open execution branch. The contiguous
 prefix of committed spool sequences may cross a sequence only when it was registered
 and drained, or when its removal was marked; a sequence with no entry and no mark is
 a hole (durable but not yet registered) and stops the scan.
 */
module Commit {

  /** One source emission waiting for its commit sweep. */
  datatype Ref = Ref(sq: int, node: string, srcSeq: int)

  /** Per-source bookkeeping of this run's emissions. */
  datatype Source = Source(arrivedAt: set<int>, committedAt: set<int>, front: int)

  const NewSource := Source({}, {}, 0)

  datatype Tracker = Tracker(
    outstanding: map<int, int>,
    openBranches: int,
    arrivedMax: int,
    committedPtr: int,
    removed: set<int>,
    srcRefs: seq<Ref>,
    srcs: map<string, Source>)

  /** What one call hands to the commit callbacks once the lock is released. */
  datatype Effects = Effects(
    justCommit: seq<int>,
    advanced: bool,
    through: int,
    frontiers: map<string, int>)

  const NoEffects := Effects([], false, 0, map[])

  function NewTracker(sources: set<string>): Tracker {
    Tracker(map[], 0, 0, 1, {}, [], map n | n in sources :: NewSource)
  }

  // --- open branches ---

  function Pos(v: int): nat { if v > 0 then v else 0 }

  /** One sequence's share of openBranches; an absent entry reads as zero. */
  function Units(m: map<int, int>, q: int): nat { if q in m then Pos(m[q]) else 0 }

  function OpenUpTo(m: map<int, int>, n: int): nat
    decreases n
  {
    if n <= 0 then 0 else OpenUpTo(m, n - 1) + Units(m, n)
  }

  lemma {:induction false} OpenUpdate(m: map<int, int>, m': map<int, int>, q: int, n: int)
    requires 1 <= q <= n
    requires forall k :: 1 <= k <= n && k != q ==> Units(m, k) == Units(m', k)
    ensures OpenUpTo(m', n) == OpenUpTo(m, n) + Units(m', q) - Units(m, q)
  {
    if q < n {
      OpenUpdate(m, m', q, n - 1);
    } else {
      OpenSame(m, m', n - 1);
    }
  }

  lemma {:induction false} OpenSame(m: map<int, int>, m': map<int, int>, n: int)
    requires forall k :: 1 <= k <= n ==> Units(m, k) == Units(m', k)
    ensures OpenUpTo(m', n) == OpenUpTo(m, n)
  {
    if n > 0 { OpenSame(m, m', n - 1); }
  }

  lemma {:induction false} OpenExtend(m: map<int, int>, n: int, n': int)
    requires n <= n'
    requires forall k :: n < k <= n' ==> Units(m, k) == 0
    ensures OpenUpTo(m, n') == OpenUpTo(m, n)
    decreases n' - n
  {
    if n < n' { OpenExtend(m, n, n' - 1); }
  }

  lemma {:induction false} OpenZero(m: map<int, int>, n: int, q: int)
    requires OpenUpTo(m, n) == 0 && 1 <= q <= n
    ensures Units(m, q) == 0
    decreases n
  {
    if q < n { OpenZero(m, n - 1, q); }
  }

  // --- the prefix scan ---

  /** The scan may cross q: registered and drained, or intentionally removed. */
  predicate Passable(t: Tracker, q: int) {
    if q in t.outstanding then t.outstanding[q] <= 0 else q in t.removed
  }

  /** The first sequence at or above q that stops the scan. */
  function StopFrom(t: Tracker, q: int): (r: int)
    ensures q <= r && (q < r ==> r <= t.arrivedMax + 1)
    ensures forall k :: q <= k < r ==> Passable(t, k)
    ensures r <= t.arrivedMax ==> !Passable(t, r)
    decreases t.arrivedMax + 1 - q
  {
    if q <= t.arrivedMax && Passable(t, q) then StopFrom(t, q + 1) else q
  }

  lemma {:induction false} StopUnique(t: Tracker, q: int, r: int)
    requires q <= r && (q < r ==> r <= t.arrivedMax + 1)
    requires forall k :: q <= k < r ==> Passable(t, k)
    requires r <= t.arrivedMax ==> !Passable(t, r)
    ensures StopFrom(t, q) == r
    decreases r - q
  {
    if q < r { StopUnique(t, q + 1, r); }
  }

  /** The registered sequences of [lo, hi), in order: the messages the sweep commits. */
  function Drained(m: map<int, int>, lo: int, hi: int): (r: seq<int>)
    ensures forall q :: q in r <==> lo <= q < hi && q in m
    decreases hi - lo
  {
    if lo >= hi then []
    else Drained(m, lo, hi - 1) + (if hi - 1 in m then [hi - 1] else [])
  }

  function DropRange(m: map<int, int>, lo: int, hi: int): map<int, int> {
    map q | q in m && !(lo <= q < hi) :: m[q]
  }

  function DropSet(s: set<int>, lo: int, hi: int): set<int> {
    set q | q in s && !(lo <= q < hi)
  }

  // --- per-source frontiers ---

  /** The end of the run of emissions after f that arrived and committed. */
  function FrontFrom(arrived: set<int>, committed: set<int>, f: int): (r: int)
    ensures f <= r
    ensures forall k :: f < k <= r ==> k in arrived && k in committed
    ensures !(r + 1 in arrived && r + 1 in committed)
    decreases arrived
  {
    if f + 1 in arrived && f + 1 in committed
    then FrontFrom(arrived - {f + 1}, committed, f + 1)
    else f
  }

  lemma {:induction false} FrontUnique(arrived: set<int>, committed: set<int>, f: int, r: int)
    requires f <= r
    requires forall k :: f < k <= r ==> k in arrived && k in committed
    requires !(r + 1 in arrived && r + 1 in committed)
    ensures FrontFrom(arrived, committed, f) == r
  {
    var r' := FrontFrom(arrived, committed, f);
    assert r' < r ==> r' + 1 in arrived && r' + 1 in committed;
    assert r < r' ==> r + 1 in arrived && r + 1 in committed;
  }

  /** Record commits, advance the frontier and forget what it crossed. */
  function Settle(s: Source, seqs: set<int>): Source {
    var c := s.committedAt + seqs;
    var f := FrontFrom(s.arrivedAt, c, s.front);
    Source(DropSet(s.arrivedAt, s.front + 1, f + 1), DropSet(c, s.front + 1, f + 1), f)
  }

  // --- the reference queue ---

  predicate Sorted(refs: seq<Ref>) {
    forall i, j :: 0 <= i < j < |refs| ==> refs[i].sq <= refs[j].sq
  }

  /** The first index whose seq is at least the given one. */
  function LowerBound(refs: seq<Ref>, sq: int): (i: nat)
    ensures i <= |refs|
    ensures forall k :: 0 <= k < i ==> refs[k].sq < sq
    ensures i < |refs| ==> refs[i].sq >= sq
  {
    if refs == [] || refs[0].sq >= sq then 0 else 1 + LowerBound(refs[1..], sq)
  }

  lemma {:induction false} LowerBoundIs(refs: seq<Ref>, sq: int, i: nat)
    requires i <= |refs| && (forall k :: 0 <= k < i ==> refs[k].sq < sq) && (i < |refs| ==> refs[i].sq >= sq)
    ensures LowerBound(refs, sq) == i
  {
    if i > 0 { LowerBoundIs(refs[1..], sq, i - 1); }
  }

  function Insert(refs: seq<Ref>, r: Ref): seq<Ref> {
    var i := LowerBound(refs, r.sq);
    refs[..i] + [r] + refs[i..]
  }

  lemma InsertKeepsOrder(refs: seq<Ref>, r: Ref)
    requires Sorted(refs)
    ensures Sorted(Insert(refs, r))
    ensures forall x :: x in Insert(refs, r) <==> x in refs || x == r
  {
    InsertMembers(refs, r);
    var i, s := LowerBound(refs, r.sq), Insert(refs, r);
    assert s[..i] == refs[..i] && s[i] == r && s[i + 1..] == refs[i..];
  }

  lemma InsertMembers(refs: seq<Ref>, r: Ref)
    ensures forall x :: x in Insert(refs, r) <==> x in refs || x == r
  {
    var i := LowerBound(refs, r.sq);
    var (a, b) := (refs[..i], refs[i..]);
    assert refs == a + b && Insert(refs, r) == a + [r] + b;
  }

  /** How many references at the head of the queue lie at or below `through`. */
  function HeadCount(refs: seq<Ref>, through: int): (n: nat)
    ensures n <= |refs|
    ensures forall k :: 0 <= k < n ==> refs[k].sq <= through
    ensures n < |refs| ==> refs[n].sq > through
  {
    if refs == [] || refs[0].sq > through then 0 else 1 + HeadCount(refs[1..], through)
  }

  /** On a sorted queue popping the head removes exactly the references at or below `through`. */
  lemma HeadIsExact(refs: seq<Ref>, through: int)
    requires Sorted(refs)
    ensures forall r :: r in refs[..HeadCount(refs, through)] ==> r.sq <= through
    ensures forall r :: r in refs[HeadCount(refs, through)..] ==> r.sq > through
    ensures forall r :: r in refs <==> r in refs[..HeadCount(refs, through)] || r in refs[HeadCount(refs, through)..]
  {
    var k := HeadCount(refs, through);
    assert refs == refs[..k] + refs[k..];
  }

  /** The emissions of one node among the references. */
  function SeqsOf(refs: seq<Ref>, n: string): (r: set<int>)
    ensures forall k :: k in r <==> exists x :: x in refs && x.node == n && x.srcSeq == k
  {
    set x | x in refs && x.node == n :: x.srcSeq
  }

  /** A source without swept references is left alone. */
  function SettleNode(s: Source, seqs: set<int>): Source {
    if seqs == {} then s else Settle(s, seqs)
  }

  function SettleAll(srcs: map<string, Source>, refs: seq<Ref>): map<string, Source> {
    map n | n in srcs :: SettleNode(srcs[n], SeqsOf(refs, n))
  }

  function SweptRefs(refs: seq<Ref>, through: int): seq<Ref> { refs[HeadCount(refs, through)..] }

  function SweptSrcs(refs: seq<Ref>, srcs: map<string, Source>, through: int): map<string, Source> {
    SettleAll(srcs, refs[..HeadCount(refs, through)])
  }

  function Fronts(srcs: map<string, Source>): map<string, int> {
    map n | n in srcs :: srcs[n].front
  }

  function Sweep(t: Tracker, through: int): Tracker {
    t.(srcRefs := SweptRefs(t.srcRefs, through), srcs := SweptSrcs(t.srcRefs, t.srcs, through))
  }

  predicate Sweeps(t: Tracker, through: int) { HeadCount(t.srcRefs, through) > 0 }

  // --- the operations ---

  /** Give a registered sequence a new count. */
  function Recount(t: Tracker, sq: int, count: int): Tracker
    requires sq in t.outstanding
  {
    t.(outstanding := t.outstanding[sq := count],
       openBranches := t.openBranches + Pos(count) - Pos(t.outstanding[sq]))
  }

  /** Move the cursor to `stop`, consuming the entries and marks it crosses. */
  function Cross(t: Tracker, stop: int): Tracker {
    t.(outstanding := DropRange(t.outstanding, t.committedPtr, stop),
       removed := DropSet(t.removed, t.committedPtr, stop),
       committedPtr := stop)
  }

  /** Drop an entry below the cursor. */
  function Forget(t: Tracker, sq: int): Tracker {
    t.(outstanding := t.outstanding - {sq})
  }

  /** Take a registered sequence out, leaving a mark. */
  function Unlist(t: Tracker, sq: int): Tracker {
    t.(openBranches := t.openBranches - Units(t.outstanding, sq),
       outstanding := t.outstanding - {sq},
       removed := t.removed + {sq})
  }

  function Advance(t: Tracker): (Tracker, Effects) {
    var stop := StopFrom(t, t.committedPtr);
    if stop == t.committedPtr then (t, NoEffects)
    else
      var t2 := Sweep(Cross(t, stop), stop - 1);
      (t2, Effects(Drained(t.outstanding, t.committedPtr, stop), true, stop - 1, Fronts(t2.srcs)))
  }

  function Register(t: Tracker, sq: int): Tracker {
    t.(openBranches := t.openBranches + 1 - Units(t.outstanding, sq),
       outstanding := t.outstanding[sq := 1],
       arrivedMax := if sq > t.arrivedMax then sq else t.arrivedMax)
  }

  function Emitted(s: Source, k: int): Source { s.(arrivedAt := s.arrivedAt + {k}) }

  function Attribute(t: Tracker, sq: int, node: string, srcSeq: int): Tracker
    requires node in t.srcs
  {
    t.(srcs := t.srcs[node := Emitted(t.srcs[node], srcSeq)],
       srcRefs := Insert(t.srcRefs, Ref(sq, node, srcSeq)))
  }

  /** Pre-register one unit; an empty node name is not attributable to a live emission. */
  function Arrived(t: Tracker, sq: int, node: string, srcSeq: int): Tracker {
    if node != "" && node in t.srcs then Attribute(Register(t, sq), sq, node, srcSeq)
    else Register(t, sq)
  }

  /**
   The terminal event of a sequence the prefix has already passed: the scan never looks
   below the cursor, so the entry, its commit hook and its source references go here.
   */
  function Straggle(t: Tracker, e: Effects, sq: int): (Tracker, Effects) {
    var t1 := Forget(t, sq);
    var t2 := Sweep(t1, t1.committedPtr - 1);
    (t2, Effects(e.justCommit + [sq], e.advanced || Sweeps(t1, t1.committedPtr - 1),
                 t1.committedPtr - 1, Fronts(t2.srcs)))
  }

  /** Apply a delta to a registered sequence; a delta for an unknown one is a no-op. */
  function Add(t: Tracker, sq: int, delta: int): (Tracker, Effects) {
    if sq !in t.outstanding then (t, NoEffects)
    else
      var count := t.outstanding[sq] + delta;
      var a := Advance(Recount(t, sq, count));
      if count <= 0 && sq < t.committedPtr then Straggle(a.0, a.1, sq) else a
  }

  /** Remove a registered sequence without a terminal branch event, leaving a mark. */
  function ForceTerminal(t: Tracker, sq: int): (Tracker, Effects) {
    if sq !in t.outstanding then (t, NoEffects)
    else Advance(Unlist(t, sq))
  }

  function ResumeFrom(t: Tracker, cp: int): Tracker {
    var ptr := if cp + 1 > t.committedPtr then cp + 1 else t.committedPtr;
    t.(committedPtr := ptr, arrivedMax := if ptr - 1 > t.arrivedMax then ptr - 1 else t.arrivedMax)
  }

  // --- what every call keeps ---

  ghost predicate Valid(t: Tracker) {
    && 1 <= t.committedPtr <= t.arrivedMax + 1
    && (forall q :: q in t.outstanding ==> 1 <= q <= t.arrivedMax)
    && (forall q :: q in t.removed ==> 1 <= q <= t.arrivedMax)
    && t.openBranches == OpenUpTo(t.outstanding, t.arrivedMax)
  }

  /** The prefix is as long as the rules allow. */
  ghost predicate Maximal(t: Tracker) {
    t.committedPtr <= t.arrivedMax ==> !Passable(t, t.committedPtr)
  }

  lemma NewTrackerValid(sources: set<string>)
    ensures Valid(NewTracker(sources)) && Maximal(NewTracker(sources))
  {}

  lemma ArrivedKeeps(t: Tracker, sq: int, node: string, srcSeq: int)
    requires Valid(t) && sq >= 1
    ensures Valid(Arrived(t, sq, node, srcSeq))
    ensures Maximal(t) ==> Maximal(Arrived(t, sq, node, srcSeq))
  {
    var t' := Arrived(t, sq, node, srcSeq);
    OpenExtend(t.outstanding, t.arrivedMax, t'.arrivedMax);
    OpenUpdate(t.outstanding, t'.outstanding, sq, t'.arrivedMax);
  }

  lemma SweepKeeps(t: Tracker, through: int)
    requires Valid(t)
    ensures Valid(Sweep(t, through))
    ensures Maximal(t) ==> Maximal(Sweep(t, through))
  {}

  lemma CrossKeeps(t: Tracker, stop: int)
    requires Valid(t) && t.committedPtr < stop <= t.arrivedMax + 1
    requires forall q :: t.committedPtr <= q < stop ==> Passable(t, q)
    requires stop <= t.arrivedMax ==> !Passable(t, stop)
    ensures Valid(Cross(t, stop)) && Maximal(Cross(t, stop))
  {
    var m := Cross(t, stop).outstanding;
    forall k | 1 <= k <= t.arrivedMax ensures Units(t.outstanding, k) == Units(m, k) {
      if t.committedPtr <= k < stop { assert Passable(t, k); }
    }
    OpenSame(t.outstanding, m, t.arrivedMax);
  }

  /** Advancing keeps validity, reaches a stop, and crosses only drained or marked sequences. */
  lemma AdvanceKeeps(t: Tracker)
    requires Valid(t)
    ensures Valid(Advance(t).0) && Maximal(Advance(t).0)
    ensures Advance(t).0.committedPtr >= t.committedPtr
    ensures forall q :: t.committedPtr <= q < Advance(t).0.committedPtr ==> Passable(t, q)
    ensures forall q :: q in Advance(t).1.justCommit <==>
                          t.committedPtr <= q < Advance(t).0.committedPtr && q in t.outstanding
    ensures Advance(t).1.advanced <==> Advance(t).0.committedPtr > t.committedPtr
    ensures Advance(t).1.advanced ==> Advance(t).1.through == Advance(t).0.committedPtr - 1
  {
    var stop := StopFrom(t, t.committedPtr);
    if stop != t.committedPtr {
      CrossKeeps(t, stop);
      SweepKeeps(Cross(t, stop), stop - 1);
    }
  }

  /** Advancing drops only what it crosses. */
  lemma AdvanceFields(t: Tracker)
    ensures var (a, e) := Advance(t);
      && (forall q :: q in a.outstanding <==> q in t.outstanding && !(t.committedPtr <= q < a.committedPtr))
      && (forall q :: q in a.outstanding ==> a.outstanding[q] == t.outstanding[q])
      && (forall q :: q in a.removed <==> q in t.removed && !(t.committedPtr <= q < a.committedPtr))
      && a.arrivedMax == t.arrivedMax && a.srcs.Keys == t.srcs.Keys
      && (e.advanced ==> e.frontiers == Fronts(a.srcs))
      && (!e.advanced ==> e == NoEffects)
  {}

  lemma RecountKeeps(t: Tracker, sq: int, count: int)
    requires Valid(t) && sq in t.outstanding
    ensures Valid(Recount(t, sq, count))
  {
    OpenUpdate(t.outstanding, Recount(t, sq, count).outstanding, sq, t.arrivedMax);
  }

  lemma ForgetKeeps(t: Tracker, sq: int)
    requires Valid(t) && sq < t.committedPtr && Units(t.outstanding, sq) == 0
    ensures Valid(Forget(t, sq))
    ensures Maximal(t) ==> Maximal(Forget(t, sq))
  {
    OpenSame(t.outstanding, Forget(t, sq).outstanding, t.arrivedMax);
  }

  lemma UnlistKeeps(t: Tracker, sq: int)
    requires Valid(t) && sq in t.outstanding
    ensures Valid(Unlist(t, sq))
  {
    OpenUpdate(t.outstanding, Unlist(t, sq).outstanding, sq, t.arrivedMax);
  }

  /** openBranches stays the sum of positive counts, whatever the delta and whichever branch runs. */
  lemma AddKeeps(t: Tracker, sq: int, delta: int)
    requires Valid(t)
    ensures Valid(Add(t, sq, delta).0)
    ensures Maximal(t) || sq in t.outstanding ==> Maximal(Add(t, sq, delta).0)
  {
    if sq in t.outstanding {
      var t1 := Recount(t, sq, t.outstanding[sq] + delta);
      RecountKeeps(t, sq, t.outstanding[sq] + delta);
      AdvanceKeeps(t1);
      if t.outstanding[sq] + delta <= 0 && sq < t.committedPtr {
        AdvanceUnits(t1, sq);
        StraggleKeeps(Advance(t1).0, Advance(t1).1, sq);
      }
    }
  }

  lemma StraggleKeeps(t: Tracker, e: Effects, sq: int)
    requires Valid(t) && sq < t.committedPtr && Units(t.outstanding, sq) == 0
    ensures Valid(Straggle(t, e, sq).0)
    ensures Maximal(t) ==> Maximal(Straggle(t, e, sq).0)
  {
    ForgetKeeps(t, sq);
    SweepKeeps(Forget(t, sq), t.committedPtr - 1);
  }

  lemma AdvanceUnits(t: Tracker, sq: int)
    ensures Units(Advance(t).0.outstanding, sq) <= Units(t.outstanding, sq)
  {}

  lemma ForceTerminalKeeps(t: Tracker, sq: int)
    requires Valid(t)
    ensures Valid(ForceTerminal(t, sq).0)
    ensures Maximal(t) || sq in t.outstanding ==> Maximal(ForceTerminal(t, sq).0)
  {
    if sq in t.outstanding {
      UnlistKeeps(t, sq);
      AdvanceKeeps(Unlist(t, sq));
    }
  }

  /**
   The prefix crosses a sequence during one call only if that sequence was registered
   and drained by the call's end, or carries a removal mark (hole barrier). Every
   registered sequence it crosses is reported to the commit hook.
   */
  lemma HoleBarrier(t: Tracker, sq: int, delta: int, q: int)
    requires Valid(t)
    requires t.committedPtr <= q < Add(t, sq, delta).0.committedPtr
    ensures q in t.outstanding || q in t.removed
    ensures q in t.outstanding ==> t.outstanding[q] + (if q == sq then delta else 0) <= 0
    ensures q in t.outstanding ==> q in Add(t, sq, delta).1.justCommit
  {
    var t1 := Recount(t, sq, t.outstanding[sq] + delta);
    RecountKeeps(t, sq, t.outstanding[sq] + delta);
    AdvanceKeeps(t1);
    AddCursor(t, sq, delta);
    assert Passable(t1, q);
  }

  /** The barrier holds for a forced removal too: past the message it marks, only drained or marked ones are crossed. */
  lemma ForceBarrier(t: Tracker, sq: int, q: int)
    requires Valid(t)
    requires t.committedPtr <= q < ForceTerminal(t, sq).0.committedPtr
    ensures q == sq || q in t.outstanding || q in t.removed
    ensures q != sq && q in t.outstanding ==> t.outstanding[q] <= 0 && q in ForceTerminal(t, sq).1.justCommit
    ensures q == sq ==> q in t.outstanding && q !in ForceTerminal(t, sq).1.justCommit
  {
    UnlistKeeps(t, sq);
    AdvanceKeeps(Unlist(t, sq));
    assert Passable(Unlist(t, sq), q);
  }

  /** What a straggler adds leaves the cursor and the commits of the scan alone. */
  lemma AddCursor(t: Tracker, sq: int, delta: int)
    requires sq in t.outstanding
    ensures var a, r := Advance(Recount(t, sq, t.outstanding[sq] + delta)), Add(t, sq, delta);
      && r.0.committedPtr == a.0.committedPtr && r.0.arrivedMax == a.0.arrivedMax && r.0.removed == a.0.removed
      && forall q :: q in a.1.justCommit ==> q in r.1.justCommit
  {
    var a := Advance(Recount(t, sq, t.outstanding[sq] + delta));
    StraggleCursor(a.0, a.1, sq);
  }

  lemma StraggleCursor(t: Tracker, e: Effects, sq: int)
    ensures var r := Straggle(t, e, sq);
      && r.0.committedPtr == t.committedPtr && r.0.arrivedMax == t.arrivedMax && r.0.removed == t.removed
      && forall q :: q in e.justCommit ==> q in r.1.justCommit
  {}

  /**
   What a count change reports: the commit hook gets the registered sequences the cursor
   crossed and, if the message lay below the cursor and has no branch left, that message,
   which is then forgotten; the advance hook gets the cursor and every source's frontier as
   they are afterwards.
   */
  lemma AddReports(t: Tracker, sq: int, delta: int)
    requires Valid(t) && sq in t.outstanding
    ensures var ((t', e), ended) := (Add(t, sq, delta), sq < t.committedPtr && t.outstanding[sq] + delta <= 0);
      && (forall q :: q in e.justCommit <==>
            (t.committedPtr <= q < t'.committedPtr && q in t.outstanding) || (ended && q == sq))
      && (ended ==> sq !in t'.outstanding)
      && (t'.committedPtr > t.committedPtr ==> e.advanced)
      && (e.advanced ==> e.through == t'.committedPtr - 1 && e.frontiers.Keys == t'.srcs.Keys)
      && (e.advanced ==> forall n :: n in t'.srcs ==> e.frontiers[n] == t'.srcs[n].front)
  {
    var u := Recount(t, sq, t.outstanding[sq] + delta);
    RecountKeeps(t, sq, t.outstanding[sq] + delta);
    AdvanceKeeps(u);
    AdvanceFields(u);
    AddCursor(t, sq, delta);
  }

  /**
   A message that ends below the cursor takes every source reference under the cursor with
   it, and a reference taken makes the advance hook run: no frontier stays behind unnoticed.
   */
  lemma StragglerSweeps(t: Tracker, sq: int, delta: int)
    requires Valid(t) && sq in t.outstanding && sq < t.committedPtr && t.outstanding[sq] + delta <= 0
    requires Sorted(t.srcRefs)
    ensures var (t', e) := Add(t, sq, delta);
      && (forall r :: r in t'.srcRefs ==> r.sq >= t'.committedPtr)
      && (forall r :: r in t.srcRefs && r.sq >= t'.committedPtr ==> r in t'.srcRefs)
      && (forall r :: r in t.srcRefs && r.sq < t'.committedPtr ==> e.advanced)
  {
    var u := Recount(t, sq, t.outstanding[sq] + delta);
    var a := Advance(u);
    RecountKeeps(t, sq, t.outstanding[sq] + delta);
    AdvanceKeeps(u);
    HeadIsExact(u.srcRefs, a.0.committedPtr - 1);
    SweptSorted(u.srcRefs, a.0.committedPtr - 1);
    HeadIsExact(a.0.srcRefs, a.0.committedPtr - 1);
  }

  lemma SweptSorted(refs: seq<Ref>, through: int)
    requires Sorted(refs)
    ensures Sorted(SweptRefs(refs, through))
  {}

  /**
   Restart seeding does not sweep: the prefix stays maximal exactly when the first
   sequence past the checkpoint is not already drained or marked.
   */
  lemma ResumeKeepsMaximalIff(t: Tracker, cp: int)
    requires Valid(t) && Maximal(t) && cp >= 0
    ensures Valid(ResumeFrom(t, cp))
    ensures Maximal(ResumeFrom(t, cp)) <==>
              !(t.committedPtr <= cp && cp + 1 <= t.arrivedMax && Passable(t, cp + 1))
  {
    var t' := ResumeFrom(t, cp);
    OpenExtend(t.outstanding, t.arrivedMax, t'.arrivedMax);
  }

  /**
   The failing side, as calls: a sequence past the checkpoint is registered and drained
   before the cursor is seeded, and stays uncrossed.
   */
  lemma ResumeLeavesDrained()
    ensures var t := Add(Arrived(NewTracker({}), 2, "", 0), 2, -1).0;
      Valid(t) && Maximal(t) && !Maximal(ResumeFrom(t, 1))
  {
    var a := Arrived(NewTracker({}), 2, "", 0);
    NewTrackerValid({});
    ArrivedKeeps(NewTracker({}), 2, "", 0);
    AddKeeps(a, 2, -1);
    var u := Recount(a, 2, 0);
    assert StopFrom(u, 1) == 1;
    assert Add(a, 2, -1).0 == u;
    ResumeKeepsMaximalIff(u, 1);
  }

  // --- exactness of the per-source frontier ---

  /**
   The emissions registered so far: (node, srcSeq) to the spool sequence it got. A
   source numbers its emissions once per run, so a key is registered at most once.
   */
  type Log = map<(string, int), int>

  /** An emission whose reference the sweep has consumed. */
  ghost predicate Swept(refs: seq<Ref>, log: Log, n: string, k: int) {
    (n, k) in log && Ref(log[(n, k)], n, k) !in refs
  }

  ghost predicate SourceExact(s: Source, refs: seq<Ref>, log: Log, n: string) {
    && s.front >= 0
    && (forall k :: 1 <= k <= s.front ==> Swept(refs, log, n, k))
    && (forall k :: k >= 1 ==> (k in s.arrivedAt <==> (n, k) in log && k > s.front))
    && (forall k :: k >= 1 ==> (k in s.committedAt <==> Swept(refs, log, n, k) && k > s.front))
    && !Swept(refs, log, n, s.front + 1)
  }

  /** Every numbered reference in the queue is the one its emission was registered under. */
  ghost predicate Queued(refs: seq<Ref>, log: Log) {
    forall r :: r in refs && r.srcSeq >= 1 ==> (r.node, r.srcSeq) in log && log[(r.node, r.srcSeq)] == r.sq
  }

  /** The queue holds registered emissions in order, and each frontier is the longest swept prefix 1..f. */
  ghost predicate Exact(refs: seq<Ref>, srcs: map<string, Source>, log: Log) {
    && Sorted(refs)
    && Queued(refs, log)
    && (forall n, k :: (n, k) in log ==> n in srcs && k >= 1)
    && (forall n :: n in srcs ==> SourceExact(srcs[n], refs, log, n))
  }

  /** No frontier is lower. */
  ghost predicate FrontsGrow(srcs: map<string, Source>, srcs': map<string, Source>) {
    srcs'.Keys == srcs.Keys && forall n :: n in srcs ==> srcs[n].front <= srcs'[n].front
  }

  lemma NewTrackerExact(sources: set<string>)
    ensures Exact(NewTracker(sources).srcRefs, NewTracker(sources).srcs, map[])
  {}

  lemma ArrivedExact(t: Tracker, log: Log, sq: int, node: string, srcSeq: int)
    requires Exact(t.srcRefs, t.srcs, log)
    requires node != "" && node in t.srcs && srcSeq >= 1 && (node, srcSeq) !in log
    ensures Exact(Arrived(t, sq, node, srcSeq).srcRefs, Arrived(t, sq, node, srcSeq).srcs,
                  log[(node, srcSeq) := sq])
    ensures FrontsGrow(t.srcs, Arrived(t, sq, node, srcSeq).srcs)
  {
    var r := Ref(sq, node, srcSeq);
    var refs, log' := Insert(t.srcRefs, r), log[(node, srcSeq) := sq];
    InsertKeepsOrder(t.srcRefs, r);
    assert r !in t.srcRefs;
    forall n, k ensures Swept(refs, log', n, k) == Swept(t.srcRefs, log, n, k) {
      if (n, k) in log { assert Ref(log[(n, k)], n, k) != r; }
    }
    var srcs := Arrived(t, sq, node, srcSeq).srcs;
    forall n | n in srcs ensures SourceExact(srcs[n], refs, log', n) {
      assert SourceExact(t.srcs[n], t.srcRefs, log, n);
      assert n == node && srcSeq <= t.srcs[n].front ==> Swept(t.srcRefs, log, n, srcSeq);
    }
  }

  /** An emission its source did not number leaves every frontier alone. */
  lemma UnnumberedExact(t: Tracker, log: Log, sq: int, node: string, k: int)
    requires Exact(t.srcRefs, t.srcs, log) && k <= 0
    ensures Exact(Arrived(t, sq, node, k).srcRefs, Arrived(t, sq, node, k).srcs, log)
    ensures FrontsGrow(t.srcs, Arrived(t, sq, node, k).srcs)
    ensures forall n, j :: Swept(Arrived(t, sq, node, k).srcRefs, log, n, j) <==> Swept(t.srcRefs, log, n, j)
  {
    if node != "" && node in t.srcs {
      var r := Ref(sq, node, k);
      var refs := Insert(t.srcRefs, r);
      InsertKeepsOrder(t.srcRefs, r);
      forall n, j ensures Swept(refs, log, n, j) <==> Swept(t.srcRefs, log, n, j) {
        if (n, j) in log { assert Ref(log[(n, j)], n, j) != r; }
      }
      var srcs := Arrived(t, sq, node, k).srcs;
      forall n | n in srcs ensures SourceExact(srcs[n], refs, log, n) {
        assert SourceExact(t.srcs[n], t.srcRefs, log, n);
      }
    }
  }

  /**
   A sweep keeps exactness and never lowers a frontier. The queue's order is what makes
   the popped head and the rest disjoint.
   */
  lemma SweepExact(refs: seq<Ref>, srcs: map<string, Source>, log: Log, through: int)
    requires Exact(refs, srcs, log)
    ensures Exact(SweptRefs(refs, through), SweptSrcs(refs, srcs, through), log)
    ensures FrontsGrow(srcs, SweptSrcs(refs, srcs, through))
  {
    HeadIsExact(refs, through);
    SettleAllExact(srcs, refs, log, refs[..HeadCount(refs, through)], SweptRefs(refs, through));
  }

  lemma SettleAllExact(srcs: map<string, Source>, refs: seq<Ref>, log: Log, popped: seq<Ref>, kept: seq<Ref>)
    requires Exact(refs, srcs, log) && Sorted(kept)
    requires forall r :: r in refs <==> r in popped || r in kept
    requires forall r :: r in popped ==> r !in kept
    ensures Exact(kept, SettleAll(srcs, popped), log) && FrontsGrow(srcs, SettleAll(srcs, popped))
  {
    forall n | n in srcs
      ensures SourceExact(SettleNode(srcs[n], SeqsOf(popped, n)), kept, log, n)
      ensures SettleNode(srcs[n], SeqsOf(popped, n)).front >= srcs[n].front
    {
      SettleExact(srcs[n], refs, log, n, popped, kept);
    }
  }

  lemma SettleExact(s: Source, refs: seq<Ref>, log: Log, n: string, popped: seq<Ref>, kept: seq<Ref>)
    requires SourceExact(s, refs, log, n) && Queued(refs, log)
    requires forall k :: (n, k) in log ==> k >= 1
    requires forall r :: r in refs <==> r in popped || r in kept
    requires forall r :: r in popped ==> r !in kept
    ensures var s' := SettleNode(s, SeqsOf(popped, n)); SourceExact(s', kept, log, n) && s'.front >= s.front
  {
    var cs := SeqsOf(popped, n);
    forall k | k >= 1 ensures Swept(kept, log, n, k) <==> Swept(refs, log, n, k) || k in cs {
      if k in cs {
        var x :| x in popped && x.node == n && x.srcSeq == k;
        assert x in refs && x == Ref(log[(n, k)], n, k);
      }
    }
    forall k | k in cs && k >= 1 ensures k > s.front && (n, k) in log {
      var x :| x in popped && x.node == n && x.srcSeq == k;
      assert x in refs && x == Ref(log[(n, k)], n, k);
      assert !Swept(refs, log, n, k);
    }
    var f := SettleNode(s, cs).front;
    assert Swept(kept, log, n, f + 1) ==> f + 1 in s.arrivedAt && f + 1 in s.committedAt + cs;
  }

  lemma AdvanceExact(t: Tracker, log: Log)
    requires Exact(t.srcRefs, t.srcs, log)
    ensures Exact(Advance(t).0.srcRefs, Advance(t).0.srcs, log) && FrontsGrow(t.srcs, Advance(t).0.srcs)
  {
    SweepExact(t.srcRefs, t.srcs, log, StopFrom(t, t.committedPtr) - 1);
  }

  /** Every count change keeps each frontier the longest swept prefix, and monotone. */
  lemma AddExact(t: Tracker, log: Log, sq: int, delta: int)
    requires Exact(t.srcRefs, t.srcs, log)
    ensures Exact(Add(t, sq, delta).0.srcRefs, Add(t, sq, delta).0.srcs, log)
    ensures FrontsGrow(t.srcs, Add(t, sq, delta).0.srcs)
  {
    if sq in t.outstanding {
      var t1 := Recount(t, sq, t.outstanding[sq] + delta);
      AdvanceExact(t1, log);
      StraggleExact(Advance(t1).0, Advance(t1).1, log, sq);
    }
  }

  lemma StraggleExact(t: Tracker, e: Effects, log: Log, sq: int)
    requires Exact(t.srcRefs, t.srcs, log)
    ensures Exact(Straggle(t, e, sq).0.srcRefs, Straggle(t, e, sq).0.srcs, log)
    ensures FrontsGrow(t.srcs, Straggle(t, e, sq).0.srcs)
  {
    SweepExact(t.srcRefs, t.srcs, log, t.committedPtr - 1);
  }

  lemma ForceTerminalExact(t: Tracker, log: Log, sq: int)
    requires Exact(t.srcRefs, t.srcs, log)
    ensures Exact(ForceTerminal(t, sq).0.srcRefs, ForceTerminal(t, sq).0.srcs, log)
    ensures FrontsGrow(t.srcs, ForceTerminal(t, sq).0.srcs)
  {
    if sq in t.outstanding { AdvanceExact(Unlist(t, sq), log); }
  }
}
