/**
 The commit tracker as the mutable object it is (internal/engine/commit.go): every
 method runs under the tracker's lock, so one call is one atomic step. The callbacks
 run after the lock is released; a method returns what they receive.
 */
module CommitTracker {
  import opened Commit

  function Elems(s: seq<int>): set<int> { set k | k in s }

  /** The emissions of one source in this run. */
  class SrcTracker {
    var arrivedAt: set<int>
    var committedAt: set<int>
    var front: int

    ghost function View(): Source
      reads this
    {
      Source(arrivedAt, committedAt, front)
    }

    constructor ()
      ensures View() == NewSource
    {
      arrivedAt, committedAt, front := {}, {}, 0;
    }

    method Arrived(k: int)
      modifies this
      ensures View() == Emitted(old(View()), k)
    {
      arrivedAt := arrivedAt + {k};
    }

    /** Advance over the contiguous run of emissions that arrived and committed, then forget it. */
    method Committed(seqs: seq<int>)
      modifies this
      ensures View() == Settle(old(View()), Elems(seqs))
    {
      var i := 0;
      while i < |seqs|
        invariant 0 <= i <= |seqs|
        invariant committedAt == old(committedAt) + Elems(seqs[..i])
        invariant arrivedAt == old(arrivedAt) && front == old(front)
      {
        assert seqs[..i + 1] == seqs[..i] + [seqs[i]];
        committedAt := committedAt + {seqs[i]};
        i := i + 1;
      }
      assert seqs[..i] == seqs;
      ghost var c := committedAt;
      ghost var rest := arrivedAt;
      var start := front + 1;
      while front + 1 in committedAt && front + 1 in arrivedAt
        invariant old(front) <= front && start == old(front) + 1
        invariant arrivedAt == old(arrivedAt) && committedAt == c
        invariant rest == arrivedAt - (set k | k in arrivedAt && start <= k <= front)
        invariant forall k :: start <= k <= front ==> k in arrivedAt && k in c
        decreases rest
      {
        front := front + 1;
        rest := rest - {front};
      }
      FrontUnique(arrivedAt, c, old(front), front);
      var sq := start;
      while sq <= front
        invariant start <= sq <= front + 1
        invariant front == FrontFrom(old(arrivedAt), c, old(front))
        invariant arrivedAt == DropSet(old(arrivedAt), start, sq)
        invariant committedAt == DropSet(c, start, sq)
      {
        arrivedAt, committedAt := arrivedAt - {sq}, committedAt - {sq};
        sq := sq + 1;
      }
    }
  }

  class Tracker {
    var outstanding: map<int, int>
    var openBranches: int
    var arrivedMax: int
    var committedPtr: int
    var removed: set<int>
    var srcRefs: seq<Ref>
    const srcs: map<string, SrcTracker>

    /** No two sources share their bookkeeping. */
    ghost predicate Separate() {
      forall m, n :: m in srcs && n in srcs && m != n ==> srcs[m] != srcs[n]
    }

    ghost function SourceViews(): map<string, Source>
      reads srcs.Values
    {
      map n | n in srcs :: srcs[n].View()
    }

    ghost function View(): Commit.Tracker
      reads this, srcs.Values
    {
      Commit.Tracker(outstanding, openBranches, arrivedMax, committedPtr, removed, srcRefs, SourceViews())
    }

    constructor (sources: set<string>)
      ensures View() == NewTracker(sources) && Separate() && fresh(srcs.Values)
    {
      var todo := sources;
      var made: map<string, SrcTracker> := map[];
      while todo != {}
        invariant made.Keys == sources - todo && todo <= sources
        invariant forall n :: n in made ==> fresh(made[n])
        invariant forall n :: n in made ==> made[n].View() == NewSource
        invariant forall m, n :: m in made && n in made && m != n ==> made[m] != made[n]
        decreases todo
      {
        var s :| s in todo;
        var st := new SrcTracker();
        made := made[s := st];
        todo := todo - {s};
      }
      outstanding, openBranches, arrivedMax, committedPtr := map[], 0, 0, 1;
      removed, srcRefs, srcs := {}, [], made;
    }

    method Arrived(sq: int, node: string, srcSeq: int)
      requires Separate() && Sorted(srcRefs)
      modifies this, srcs.Values
      ensures View() == Commit.Arrived(old(View()), sq, node, srcSeq)
    {
      Register(sq);
      if node != "" && node in srcs {
        MarkArrived(node, srcSeq);
        AddSrcRef(sq, node, srcSeq);
      }
    }

    method Register(sq: int)
      modifies this`outstanding, this`openBranches, this`arrivedMax
      ensures View() == Commit.Register(old(View()), sq)
    {
      openBranches := openBranches + 1 - Units(outstanding, sq);
      outstanding := outstanding[sq := 1];
      if sq > arrivedMax { arrivedMax := sq; }
      assert SourceViews() == old(SourceViews());
    }

    method MarkArrived(node: string, k: int)
      requires Separate() && node in srcs
      modifies srcs[node]
      ensures SourceViews() == old(SourceViews())[node := Emitted(old(SourceViews())[node], k)]
    {
      srcs[node].Arrived(k);
    }

    /** Append in the common case; splice a rare inversion into its sorted place. */
    method AddSrcRef(sq: int, node: string, srcSeq: int)
      requires Sorted(srcRefs)
      modifies this`srcRefs
      ensures Sorted(srcRefs) && srcRefs == Insert(old(srcRefs), Ref(sq, node, srcSeq))
    {
      InsertKeepsOrder(srcRefs, Ref(sq, node, srcSeq));
      var n := |srcRefs|;
      if n == 0 || sq > srcRefs[n - 1].sq {
        LowerBoundIs(srcRefs, sq, n);
        srcRefs := srcRefs + [Ref(sq, node, srcSeq)];
        return;
      }
      var i := SearchRefs(sq);
      srcRefs := srcRefs[..i] + [Ref(sq, node, srcSeq)] + srcRefs[i..];
    }

    /** Binary search for the first reference at or beyond a sequence. */
    method SearchRefs(sq: int) returns (i: nat)
      requires Sorted(srcRefs)
      ensures i == LowerBound(srcRefs, sq)
    {
      i := 0;
      var j: nat := |srcRefs|;
      while i < j
        invariant i <= j <= |srcRefs|
        invariant forall k :: 0 <= k < i ==> srcRefs[k].sq < sq
        invariant forall k :: j <= k < |srcRefs| ==> srcRefs[k].sq >= sq
      {
        var h := (i + j) / 2;
        if srcRefs[h].sq >= sq { j := h; } else { i := h + 1; }
      }
      LowerBoundIs(srcRefs, sq, i);
    }

    /** Pop the references at or below `through` and settle their sources. */
    method SweepSrcRefs(through: int) returns (frontiers: map<string, int>, swept: bool)
      requires Separate()
      modifies this`srcRefs, srcs.Values
      ensures View() == Sweep(old(View()), through)
      ensures frontiers == Fronts(View().srcs)
      ensures swept == Sweeps(old(View()), through)
    {
      var committed;
      committed, swept := PopHead(through);
      SettleNodes(committed, old(srcRefs)[..HeadCount(old(srcRefs), through)]);
      frontiers := map n | n in srcs :: srcs[n].front;
    }

    method PopHead(through: int) returns (committed: map<string, seq<int>>, swept: bool)
      modifies this`srcRefs
      ensures srcRefs == SweptRefs(old(srcRefs), through)
      ensures swept <==> HeadCount(old(srcRefs), through) > 0
      ensures Grouped(committed, old(srcRefs)[..HeadCount(old(srcRefs), through)])
    {
      committed, swept := map[], false;
      ghost var k := 0;
      while |srcRefs| > 0 && srcRefs[0].sq <= through
        invariant 0 <= k <= |old(srcRefs)| && srcRefs == old(srcRefs)[k..]
        invariant HeadCount(old(srcRefs), through) == k + HeadCount(srcRefs, through)
        invariant swept <==> k > 0
        invariant Grouped(committed, old(srcRefs)[..k])
        decreases |srcRefs|
      {
        var ref := srcRefs[0];
        assert old(srcRefs)[..k + 1] == old(srcRefs)[..k] + [ref];
        GroupOne(committed, old(srcRefs)[..k], ref);
        srcRefs := srcRefs[1..];
        committed := Grow(committed, ref);
        swept := true;
        k := k + 1;
      }
    }

    /** The swept references grouped by node. */
    ghost static predicate Grouped(committed: map<string, seq<int>>, refs: seq<Ref>) {
      && (forall n :: n in committed ==> SeqsOf(refs, n) == Elems(committed[n]))
      && (forall n :: n in committed <==> SeqsOf(refs, n) != {})
    }

    static function Grow(committed: map<string, seq<int>>, r: Ref): map<string, seq<int>> {
      committed[r.node := (if r.node in committed then committed[r.node] else []) + [r.srcSeq]]
    }

    static lemma GroupOne(committed: map<string, seq<int>>, refs: seq<Ref>, r: Ref)
      requires Grouped(committed, refs)
      ensures Grouped(Grow(committed, r), refs + [r])
    {
      var was := if r.node in committed then committed[r.node] else [];
      assert Elems(was + [r.srcSeq]) == Elems(was) + {r.srcSeq};
      forall n ensures SeqsOf(refs + [r], n) == SeqsOf(refs, n) + (if n == r.node then {r.srcSeq} else {}) {
        SeqsOfGrow(refs, r, n);
      }
    }

    static lemma SeqsOfGrow(refs: seq<Ref>, r: Ref, n: string)
      ensures SeqsOf(refs + [r], n) == SeqsOf(refs, n) + (if n == r.node then {r.srcSeq} else {})
    {
      forall k ensures k in SeqsOf(refs + [r], n) <==>
                       k in SeqsOf(refs, n) || (n == r.node && k == r.srcSeq) {
        if k in SeqsOf(refs, n) {
          var x :| x in refs && x.node == n && x.srcSeq == k;
          assert x in refs + [r];
        }
        if n == r.node && k == r.srcSeq { assert r in refs + [r]; }
      }
    }

    method SettleNodes(committed: map<string, seq<int>>, ghost refs: seq<Ref>)
      requires Separate() && Grouped(committed, refs)
      modifies srcs.Values
      ensures SourceViews() == SettleAll(old(SourceViews()), refs)
    {
      var todo := committed.Keys;
      while todo != {}
        invariant todo <= committed.Keys
        invariant forall n :: n in srcs ==>
          srcs[n].View() == if n in committed && n !in todo
                            then SettleNode(old(srcs[n].View()), SeqsOf(refs, n))
                            else old(srcs[n].View())
        decreases todo
      {
        var n :| n in todo;
        if n in srcs { srcs[n].Committed(committed[n]); }
        todo := todo - {n};
      }
    }

    /** Deleting the next sequence extends what the scan has crossed by one. */
    static lemma DropOne(t: Commit.Tracker, q: int)
      requires t.committedPtr <= q
      ensures q in DropRange(t.outstanding, t.committedPtr, q) <==> q in t.outstanding
      ensures q in t.outstanding ==> DropRange(t.outstanding, t.committedPtr, q)[q] == t.outstanding[q]
      ensures q in DropSet(t.removed, t.committedPtr, q) <==> q in t.removed
      ensures DropRange(t.outstanding, t.committedPtr, q + 1) == DropRange(t.outstanding, t.committedPtr, q) - {q}
      ensures DropSet(t.removed, t.committedPtr, q + 1) == DropSet(t.removed, t.committedPtr, q) - {q}
    {}

    /** The contiguous-prefix scan. */
    method Scan() returns (justCommit: seq<int>)
      modifies this`outstanding, this`removed, this`committedPtr
      ensures committedPtr == StopFrom(old(View()), old(committedPtr))
      ensures outstanding == DropRange(old(outstanding), old(committedPtr), committedPtr)
      ensures removed == DropSet(old(removed), old(committedPtr), committedPtr)
      ensures justCommit == Drained(old(outstanding), old(committedPtr), committedPtr)
    {
      justCommit := [];
      ghost var t := View();
      while committedPtr <= arrivedMax
        invariant t.committedPtr <= committedPtr
        invariant t.committedPtr < committedPtr ==> committedPtr <= arrivedMax + 1
        invariant outstanding == DropRange(t.outstanding, t.committedPtr, committedPtr)
        invariant removed == DropSet(t.removed, t.committedPtr, committedPtr)
        invariant forall q :: t.committedPtr <= q < committedPtr ==> Passable(t, q)
        invariant justCommit == Drained(t.outstanding, t.committedPtr, committedPtr)
        decreases arrivedMax + 1 - committedPtr
      {
        DropOne(t, committedPtr);
        if committedPtr in outstanding && outstanding[committedPtr] > 0 { break; }
        if committedPtr !in outstanding && committedPtr !in removed { break; }
        if committedPtr in outstanding { justCommit := justCommit + [committedPtr]; }
        outstanding := outstanding - {committedPtr};
        removed := removed - {committedPtr};
        committedPtr := committedPtr + 1;
      }
      StopUnique(t, t.committedPtr, committedPtr);
    }

    method Advance() returns (e: Effects)
      requires Separate()
      modifies this, srcs.Values
      ensures View() == Commit.Advance(old(View())).0 && e == Commit.Advance(old(View())).1
    {
      var start := committedPtr;
      ghost var t := View();
      var justCommit := Scan();
      assert SourceViews() == t.srcs;
      if committedPtr == start {
        assert outstanding == t.outstanding && removed == t.removed;
        assert View() == t;
        return NoEffects;
      }
      assert View() == Cross(t, committedPtr);
      var through := committedPtr - 1;
      var frontiers, _ := SweepSrcRefs(through);
      e := Effects(justCommit, true, through, frontiers);
    }

    method Add(sq: int, delta: int) returns (e: Effects)
      requires Separate()
      modifies this, srcs.Values
      ensures View() == Commit.Add(old(View()), sq, delta).0 && e == Commit.Add(old(View()), sq, delta).1
    {
      if sq !in outstanding { return NoEffects; }
      ghost var t := View();
      var count := outstanding[sq] + delta;
      SetCount(sq, count);
      var straggler := count <= 0 && sq < committedPtr;
      e := Advance();
      ghost var a := Commit.Advance(Recount(t, sq, count));
      assert View() == a.0 && e == a.1;
      if straggler {
        e := SweepStraggler(sq, e);
        assert Commit.Add(t, sq, delta) == Straggle(a.0, a.1, sq);
      } else {
        assert Commit.Add(t, sq, delta) == a;
      }
    }

    method SetCount(sq: int, count: int)
      requires sq in outstanding
      modifies this`outstanding, this`openBranches
      ensures View() == Recount(old(View()), sq, count)
    {
      openBranches := openBranches + Pos(count) - Pos(outstanding[sq]);
      outstanding := outstanding[sq := count];
      assert SourceViews() == old(SourceViews());
    }

    /** The terminal event of a sequence the prefix has already passed. */
    method SweepStraggler(sq: int, e: Effects) returns (e': Effects)
      requires Separate()
      modifies this`outstanding, this`srcRefs, srcs.Values
      ensures View() == Straggle(old(View()), e, sq).0 && e' == Straggle(old(View()), e, sq).1
    {
      outstanding := outstanding - {sq};
      assert SourceViews() == old(SourceViews());
      var frontiers, swept := SweepSrcRefs(committedPtr - 1);
      e' := Effects(e.justCommit + [sq], e.advanced || swept, committedPtr - 1, frontiers);
    }

    method Done(sq: int) returns (e: Effects)
      requires Separate()
      modifies this, srcs.Values
      ensures View() == Commit.Add(old(View()), sq, -1).0 && e == Commit.Add(old(View()), sq, -1).1
    {
      e := Add(sq, -1);
    }

    method ForceTerminal(sq: int) returns (open: bool, e: Effects)
      requires Separate()
      modifies this, srcs.Values
      ensures open == (sq in old(outstanding))
      ensures View() == Commit.ForceTerminal(old(View()), sq).0 && e == Commit.ForceTerminal(old(View()), sq).1
    {
      if sq !in outstanding { return false, NoEffects; }
      openBranches := openBranches - Pos(outstanding[sq]);
      outstanding := outstanding - {sq};
      removed := removed + {sq};
      assert View() == Unlist(old(View()), sq);
      e := Advance();
      open := true;
    }

    method ResumeFrom(cp: int)
      modifies this`committedPtr, this`arrivedMax
      ensures View() == Commit.ResumeFrom(old(View()), cp)
    {
      if cp + 1 > committedPtr { committedPtr := cp + 1; }
      if committedPtr - 1 > arrivedMax { arrivedMax := committedPtr - 1; }
    }

    /** Constant-time counters; on a valid tracker the first is the true sum of open branches. */
    method Snapshot() returns (open: int, committedThrough: int, maxArrived: int)
      requires Commit.Valid(View())
      ensures open == OpenUpTo(outstanding, arrivedMax) && committedThrough == committedPtr - 1 &&
              maxArrived == arrivedMax
      ensures open == 0 ==> forall q :: 1 <= q <= arrivedMax ==> Units(outstanding, q) == 0
    {
      open, committedThrough, maxArrived := openBranches, committedPtr - 1, arrivedMax;
      forall q | open == 0 && 1 <= q <= arrivedMax ensures Units(outstanding, q) == 0 {
        OpenZero(outstanding, arrivedMax, q);
      }
    }

    method IsOutstanding(sq: int) returns (r: bool)
      ensures r <==> Units(outstanding, sq) > 0
    {
      r := sq in outstanding && outstanding[sq] > 0;
    }
  }
}
