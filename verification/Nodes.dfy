/**
 The engine's loops over the commit tracker (internal/engine/engine.go fanOut,
 internal/engine/nodes.go, internal/engine/admission.go), one call at a time: every unit a
 node takes is handed on, ended, or deliberately left uncommitted.
 */
module Nodes {
  import opened Commit
  import opened Persistence
  import CommitTracker

  /** The message has branches out, and this many of them. */
  ghost predicate Live(t: Tracker, q: int, n: int) { Valid(t) && n >= 1 && Units(t.outstanding, q) >= n }

  /** A count change is exact on its message and invisible on every other. */
  lemma AddUnits(t: Tracker, q: int, delta: int)
    requires Live(t, q, 1) && Units(t.outstanding, q) + delta >= 0
    ensures Valid(Add(t, q, delta).0)
    ensures forall k ::
            Units(Add(t, q, delta).0.outstanding, k) == Units(t.outstanding, k) + (if k == q then delta else 0)
  {
    AddKeeps(t, q, delta);
    var count := t.outstanding[q] + delta;
    var u := Recount(t, q, count);
    RecountKeeps(t, q, count);
    AdvanceUnitsSame(u);
    var a := Advance(u).0;
    assert Units(a.outstanding, q) == count;
    if count <= 0 && q < t.committedPtr {
      ForgetUnits(a, q);
      assert Add(t, q, delta).0.outstanding == Forget(a, q).outstanding;
    } else {
      assert Add(t, q, delta).0 == a;
    }
  }

  lemma ForgetUnits(t: Tracker, q: int)
    requires Units(t.outstanding, q) == 0
    ensures forall k :: Units(Forget(t, q).outstanding, k) == Units(t.outstanding, k)
  {}

  lemma AdvanceUnitsSame(t: Tracker)
    requires Valid(t)
    ensures forall k :: Units(Advance(t).0.outstanding, k) == Units(t.outstanding, k)
  {
    var t' := Advance(t).0;
    AdvanceKeeps(t);
    forall k ensures Units(t'.outstanding, k) == Units(t.outstanding, k) {
      if k in t.outstanding && t.committedPtr <= k < t'.committedPtr { assert Passable(t, k); }
    }
  }

  /** The positions whose condition held. */
  function Chosen(verdicts: seq<bool>): seq<nat> {
    if verdicts == [] then []
    else Chosen(verdicts[..|verdicts| - 1]) + (if verdicts[|verdicts| - 1] then [|verdicts| - 1] else [])
  }

  /** Each position whose condition held, once, in order. */
  lemma {:induction false} ChosenIs(verdicts: seq<bool>)
    ensures forall j: nat :: j in Chosen(verdicts) <==> j < |verdicts| && verdicts[j]
    ensures forall i, j :: 0 <= i < j < |Chosen(verdicts)| ==> Chosen(verdicts)[i] < Chosen(verdicts)[j]
  {
    if verdicts != [] {
      var (before, last) := (verdicts[..|verdicts| - 1], |verdicts| - 1);
      var c := Chosen(before);
      ChosenIs(before);
      forall i | 0 <= i < |c| ensures c[i] < last { assert c[i] in c; }
      assert Chosen(verdicts) == c + (if verdicts[last] then [last] else []);
    }
  }

  /** Evaluate each out-edge's condition. */
  method Match(verdicts: seq<bool>) returns (matched: seq<nat>)
    ensures matched == Chosen(verdicts)
  {
    matched := [];
    for i := 0 to |verdicts|
      invariant matched == Chosen(verdicts[..i])
    {
      assert verdicts[..i + 1][..i] == verdicts[..i];
      if verdicts[i] { matched := matched + [i]; }
    }
    assert verdicts[..|verdicts|] == verdicts;
  }

  /** What a fan-out does, in order: it counts once, then hands over edge by edge. */
  datatype Act = Counted(delta: int) | Delivered(edge: nat)

  function Deliveries(edges: seq<nat>): (r: seq<Act>)
    ensures |r| == |edges| && forall i :: 0 <= i < |edges| ==> r[i] == Delivered(edges[i])
  {
    seq(|edges|, i requires 0 <= i < |edges| => Delivered(edges[i]))
  }

  /**
   Evaluate each out-edge, count, then deliver: the one unit becomes as many as edges
   matched, or ends as filtered. The count is raised before the first delivery.
   */
  method FanOut(tracker: CommitTracker.Tracker, q: int, verdicts: seq<bool>)
      returns (delivered: seq<nat>, acts: seq<Act>)
    requires tracker.Separate() && Live(tracker.View(), q, 1)
    modifies tracker, tracker.srcs.Values
    ensures Valid(tracker.View()) && delivered == Chosen(verdicts)
    ensures forall j: nat :: j in delivered <==> j < |verdicts| && verdicts[j]
    ensures forall i, j :: 0 <= i < j < |delivered| ==> delivered[i] < delivered[j]
    ensures acts == [Counted(|delivered| - 1)] + Deliveries(delivered)
    ensures forall k :: Units(tracker.outstanding, k) ==
                          Units(old(tracker.outstanding), k) + (if k == q then |delivered| - 1 else 0)
  {
    delivered := Match(verdicts);
    ChosenIs(verdicts);
    Count(tracker, q, |delivered| - 1);
    acts := [Counted(|delivered| - 1)];
    for i := 0 to |delivered|
      invariant acts == [Counted(|delivered| - 1)] + Deliveries(delivered)[..i]
    {
      acts := acts + [Delivered(delivered[i])];
    }
  }

  /** One count change; a plain terminal event is a change by minus one. */
  method Count(tracker: CommitTracker.Tracker, q: int, delta: int)
    requires tracker.Separate() && Live(tracker.View(), q, 1) && Units(tracker.outstanding, q) + delta >= 0
    modifies tracker, tracker.srcs.Values
    ensures Valid(tracker.View())
    ensures forall k ::
            Units(tracker.outstanding, k) == Units(old(tracker.outstanding), k) + (if k == q then delta else 0)
  {
    AddUnits(tracker.View(), q, delta);
    if delta == -1 {
      var _ := tracker.Done(q);
    } else {
      var _ := tracker.Add(q, delta);
    }
  }

  /** What an Apply answers: a failure, or outputs with their edge verdicts. */
  datatype Applied = Failed | Outputs(verdicts: seq<seq<bool>>)

  function Handed(verdicts: seq<seq<bool>>): nat {
    if verdicts == [] then 0 else Handed(verdicts[..|verdicts| - 1]) + |Chosen(verdicts[|verdicts| - 1])|
  }

  /** The pairs of an output and an edge that let it through. */
  function Through(verdicts: seq<seq<bool>>): set<(nat, nat)> {
    set k: nat, j: nat | k < |verdicts| && j < |verdicts[k]| && verdicts[k][j] :: (k, j)
  }

  /** What is handed on is one unit for each output and edge that lets it through. */
  lemma {:induction false} HandedIs(verdicts: seq<seq<bool>>)
    ensures Handed(verdicts) == |Through(verdicts)|
  {
    if verdicts != [] {
      var k := |verdicts| - 1;
      HandedIs(verdicts[..k]);
      ChosenIs(verdicts[k]);
      var last := Pairs(k, Chosen(verdicts[k]));
      ThroughSnoc(verdicts, k, last);
      assert Through(verdicts) == Through(verdicts[..k]) + last;
    }
  }

  lemma ThroughSnoc(verdicts: seq<seq<bool>>, k: nat, last: set<(nat, nat)>)
    requires |verdicts| == k + 1
    requires forall p :: p in last <==> p.0 == k && p.1 < |verdicts[k]| && verdicts[k][p.1]
    ensures forall p :: p in Through(verdicts) <==> p in Through(verdicts[..k]) || p in last
    ensures Through(verdicts[..k]) !! last
  {}

  lemma {:induction false} Pairs(k: nat, row: seq<nat>) returns (s: set<(nat, nat)>)
    requires forall i, j :: 0 <= i < j < |row| ==> row[i] < row[j]
    ensures |s| == |row| && forall p :: p in s <==> p.0 == k && p.1 in row
  {
    s := {};
    if row != [] {
      var before := row[..|row| - 1];
      s := Pairs(k, before);
      assert row == before + [row[|row| - 1]];
      assert forall x :: x in before ==> x < row[|row| - 1];
      s := s + {(k, row[|row| - 1])};
    }
  }

  /** The first attempt that did not fail. */
  function Succeeded(answers: seq<Applied>): Applied {
    if answers == [] then Failed else if answers[0].Outputs? then answers[0] else Succeeded(answers[1..])
  }

  lemma {:induction false} FirstOf(answers: seq<Applied>)
    ensures (forall i :: 0 <= i < |answers| ==> answers[i].Failed?) ==> Succeeded(answers) == Failed
    ensures forall i :: 0 <= i < |answers| && answers[i].Outputs? && (forall k :: 0 <= k < i ==> answers[k].Failed?) ==>
              Succeeded(answers) == answers[i]
  {
    if answers != [] {
      FirstOf(answers[1..]);
      forall i | 0 <= i < |answers| && answers[i].Outputs? && (forall k :: 0 <= k < i ==> answers[k].Failed?)
        ensures Succeeded(answers) == answers[i]
      {
        if i > 0 { assert answers[1..][i - 1] == answers[i] && forall k :: 0 <= k < i - 1 ==> answers[1..][k].Failed?; }
      }
    }
  }

  datatype Ending = Spread(units: nat) | Ended | DeadLetter | LeftUncommitted

  /** One attempt after another until Apply succeeds; no answer left after a stop. */
  method Attempts(answers: seq<Applied>) returns (a: Applied)
    ensures a == Succeeded(answers)
  {
    a := Failed;
    for i := 0 to |answers|
      invariant Succeeded(answers[i..]) == Succeeded(answers)
    {
      assert answers[i..][1..] == answers[i + 1..];
      a := answers[i];
      if a.Outputs? { return; }
    }
    a := Failed;
  }

  /**
   One message through a transform. `answers` are the attempts' results, `stopped` that the
   engine shut down before they were used up, `recorded` that the dead letter of a final
   failure became durable. The unit taken turns into the units handed on, ends, or stays.
   */
  method ProcessTransform(tracker: CommitTracker.Tracker, q: int, answers: seq<Applied>, stopped: bool, recorded: bool)
    returns (e: Ending)
    requires tracker.Separate() && Live(tracker.View(), q, 1)
    modifies tracker, tracker.srcs.Values
    ensures Valid(tracker.View())
    ensures (forall i :: 0 <= i < |answers| ==> answers[i].Failed?) ==>
              e == if stopped || !recorded then LeftUncommitted else DeadLetter
    ensures forall i :: 0 <= i < |answers| && answers[i].Outputs? && (forall k :: 0 <= k < i ==> answers[k].Failed?) ==>
              e == if answers[i].verdicts == [] then Ended
                   else Spread(|set k: nat, j: nat | k < |answers[i].verdicts| && j < |answers[i].verdicts[k]| &&
                                                     answers[i].verdicts[k][j] :: (k, j)|)
    ensures var left := match e { case Spread(n) => n case LeftUncommitted => 1 case _ => 0 };
      forall k :: Units(tracker.outstanding, k) == Units(old(tracker.outstanding), k) + (if k == q then left - 1 else 0)
  {
    var a := Attempts(answers);
    FirstOf(answers);
    if a.Outputs? { HandedIs(a.verdicts); }
    if a.Failed? {
      if stopped || !recorded { return LeftUncommitted; }
      Count(tracker, q, -1);
      return DeadLetter;
    }
    if |a.verdicts| == 0 {
      Count(tracker, q, -1);
      return Ended;
    }
    var n := SpreadOutputs(tracker, q, a.verdicts);
    e := Spread(n);
  }

  method SpreadOutputs(tracker: CommitTracker.Tracker, q: int, verdicts: seq<seq<bool>>) returns (n: nat)
    requires tracker.Separate() && Live(tracker.View(), q, 1) && verdicts != []
    modifies tracker, tracker.srcs.Values
    ensures Valid(tracker.View()) && n == Handed(verdicts)
    ensures forall k ::
            Units(tracker.outstanding, k) == Units(old(tracker.outstanding), k) + (if k == q then n - 1 else 0)
  {
    ghost var was := tracker.outstanding;
    if |verdicts| > 1 {
      Count(tracker, q, |verdicts| - 1);
    }
    n := 0;
    for i := 0 to |verdicts|
      invariant tracker.Separate() && Valid(tracker.View()) && n == Handed(verdicts[..i])
      invariant forall k ::
                Units(tracker.outstanding, k) == Units(was, k) + (if k == q then n + |verdicts| - i - 1 else 0)
    {
      assert verdicts[..i + 1][..i] == verdicts[..i];
      var delivered, _ := FanOut(tracker, q, verdicts[i]);
      n := n + |delivered|;
    }
    assert verdicts[..|verdicts|] == verdicts;
  }

  /** One instance at a sink: its message, its edge, and whether its payload encodes. */
  datatype Inst = Inst(q: int, required: bool, encodes: bool)

  datatype Fate = Acked | Recorded | Dropped | Stays

  /**
   What becomes of an instance when the batch write finally succeeded or not, was cut short
   by a stop or not, and its dead letter could be recorded or not.
   */
  function FateOf(x: Inst, written: bool, stopped: bool, recorded: bool): Fate {
    if !x.encodes then (if recorded then Recorded else Stays)
    else if written then Acked
    else if stopped then Stays
    else if !x.required then Dropped
    else if recorded then Recorded
    else Stays
  }

  function Fates(xs: seq<Inst>, written: bool, stopped: bool, recorded: seq<bool>): (r: seq<Fate>)
    requires |recorded| == |xs|
    ensures |r| == |xs| && forall i :: 0 <= i < |xs| ==> r[i] == FateOf(xs[i], written, stopped, recorded[i])
  {
    seq(|xs|, i requires 0 <= i < |xs| => FateOf(xs[i], written, stopped, recorded[i]))
  }

  /** How many instances of a message are counted off among those picked. */
  function CountedOff(xs: seq<Inst>, fates: seq<Fate>, encoding: bool, q: int): nat
    requires |fates| == |xs|
  {
    if xs == [] then 0
    else
      var last := |xs| - 1;
      CountedOff(xs[..last], fates[..last], encoding, q)
        + (if xs[last].q == q && xs[last].encodes == encoding && fates[last] != Stays then 1 else 0)
  }

  function InBatch(xs: seq<Inst>, encoding: bool, q: int): nat {
    if xs == [] then 0
    else
      var last := xs[|xs| - 1];
      InBatch(xs[..|xs| - 1], encoding, q) + (if last.q == q && last.encodes == encoding then 1 else 0)
  }

  lemma {:induction false} CountedBound(xs: seq<Inst>, fates: seq<Fate>, encoding: bool, q: int)
    requires |fates| == |xs|
    ensures CountedOff(xs, fates, encoding, q) <= InBatch(xs, encoding, q)
  {
    if xs != [] { CountedBound(xs[..|xs| - 1], fates[..|xs| - 1], encoding, q); }
  }

  /** Count off the instances of one pass over the batch. */
  method CountOff(tracker: CommitTracker.Tracker, xs: seq<Inst>, fates: seq<Fate>, encoding: bool)
    requires tracker.Separate() && Valid(tracker.View()) && |fates| == |xs|
    requires forall q :: Units(tracker.outstanding, q) >= CountedOff(xs, fates, encoding, q)
    modifies tracker, tracker.srcs.Values
    ensures Valid(tracker.View())
    ensures forall q ::
            Units(tracker.outstanding, q) == Units(old(tracker.outstanding), q) - CountedOff(xs, fates, encoding, q)
  {
    ghost var was := tracker.outstanding;
    for i := 0 to |xs|
      invariant tracker.Separate() && Valid(tracker.View())
      invariant forall q ::
                Units(tracker.outstanding, q) == Units(was, q) - CountedOff(xs[..i], fates[..i], encoding, q)
    {
      CountedNext(xs, fates, encoding, i);
      if xs[i].encodes == encoding && fates[i] != Stays {
        CountedPrefix(xs, fates, encoding, i + 1, xs[i].q);
        Count(tracker, xs[i].q, -1);
      }
    }
    assert xs[..|xs|] == xs && fates[..|xs|] == fates;
  }

  lemma CountedNext(xs: seq<Inst>, fates: seq<Fate>, encoding: bool, i: nat)
    requires |fates| == |xs| && i < |xs|
    ensures forall q :: CountedOff(xs[..i + 1], fates[..i + 1], encoding, q) ==
                          CountedOff(xs[..i], fates[..i], encoding, q) +
                          (if xs[i].q == q && xs[i].encodes == encoding && fates[i] != Stays then 1 else 0)
  {
    assert xs[..i + 1][..i] == xs[..i] && fates[..i + 1][..i] == fates[..i];
  }

  lemma {:induction false} CountedPrefix(xs: seq<Inst>, fates: seq<Fate>, encoding: bool, i: nat, q: int)
    requires |fates| == |xs| && i <= |xs|
    ensures CountedOff(xs[..i], fates[..i], encoding, q) <= CountedOff(xs, fates, encoding, q)
    decreases |xs| - i
  {
    if i == |xs| {
      assert xs[..i] == xs && fates[..i] == fates;
    } else {
      CountedNext(xs, fates, encoding, i);
      CountedPrefix(xs, fates, encoding, i + 1, q);
    }
  }

  /**
   One batch at a sink. `attempts` are the writes' answers; a stop between them leaves every
   encoded instance uncommitted. Each instance is counted off exactly once, or stays: acked
   with the batch, recorded, or dropped only where its own edge allows it.
   */
  method WriteBatch(tracker: CommitTracker.Tracker, xs: seq<Inst>, attempts: seq<bool>, stopped: bool,
                    recorded: seq<bool>)
    returns (fates: seq<Fate>)
    requires tracker.Separate() && Valid(tracker.View()) && |recorded| == |xs|
    requires forall q :: Units(tracker.outstanding, q) >= InBatch(xs, true, q) + InBatch(xs, false, q)
    modifies tracker, tracker.srcs.Values
    ensures Valid(tracker.View()) && |fates| == |xs|
    ensures forall i :: 0 <= i < |xs| ==> (fates[i] == Acked <==> xs[i].encodes && true in attempts)
    ensures forall i :: 0 <= i < |xs| ==>
              (fates[i] == Dropped <==> xs[i].encodes && true !in attempts && !stopped && !xs[i].required)
    ensures forall i :: 0 <= i < |xs| ==>
              (fates[i] == Recorded <==>
               recorded[i] && (!xs[i].encodes || (true !in attempts && !stopped && xs[i].required)))
    ensures forall q :: Units(tracker.outstanding, q) ==
                          Units(old(tracker.outstanding), q) -
                          |set i | 0 <= i < |xs| && xs[i].q == q && fates[i] != Stays|
  {
    ghost var before := tracker.outstanding;
    fates := Fates(xs, false, stopped, recorded);
    forall q ensures CountedOff(xs, fates, false, q) <= InBatch(xs, false, q) { CountedBound(xs, fates, false, q); }
    CountOff(tracker, xs, fates, false);
    var written := false;
    for i := 0 to |attempts|
      invariant !written && true !in attempts[..i]
    {
      if attempts[i] {
        written := true;
        break;
      }
    }
    ghost var unencoded := fates;
    fates := Fates(xs, written, stopped, recorded);
    forall q
      ensures CountedOff(xs, fates, true, q) <= InBatch(xs, true, q) &&
              CountedOff(xs, fates, false, q) == CountedOff(xs, unencoded, false, q)
    {
      CountedBound(xs, fates, true, q);
      CountedSame(xs, unencoded, fates, q);
    }
    CountOff(tracker, xs, fates, true);
    forall q ensures Units(tracker.outstanding, q) ==
                       Units(before, q) - |set i | 0 <= i < |xs| && xs[i].q == q && fates[i] != Stays|
    {
      CountedIs(xs, fates, q);
    }
  }

  /** Both passes together count off each instance that does not stay, once. */
  lemma {:induction false} CountedIs(xs: seq<Inst>, fates: seq<Fate>, q: int)
    requires |fates| == |xs|
    ensures CountedOff(xs, fates, false, q) + CountedOff(xs, fates, true, q) ==
            |set i | 0 <= i < |xs| && xs[i].q == q && fates[i] != Stays|
  {
    var s := set i | 0 <= i < |xs| && xs[i].q == q && fates[i] != Stays;
    if xs == [] {
      assert s == {};
    } else {
      var k := |xs| - 1;
      var (xs0, fates0) := (xs[..k], fates[..k]);
      CountedIs(xs0, fates0, q);
      var s0 := set i | 0 <= i < |xs0| && xs0[i].q == q && fates0[i] != Stays;
      assert s == s0 + (if xs[k].q == q && fates[k] != Stays then {k} else {});
      assert k !in s0;
    }
  }

  lemma {:induction false} CountedSame(xs: seq<Inst>, fates: seq<Fate>, fates': seq<Fate>, q: int)
    requires |fates| == |fates'| == |xs|
    requires forall i :: 0 <= i < |xs| && !xs[i].encodes ==> fates[i] == fates'[i]
    ensures CountedOff(xs, fates, false, q) == CountedOff(xs, fates', false, q)
  {
    if xs != [] { CountedSame(xs[..|xs| - 1], fates[..|xs| - 1], fates'[..|xs| - 1], q); }
  }

  // --- admission ---

  /** What one call to admit meets, in order: a free slot before the context ends, and the append's sequence. */
  datatype Answers = Answers(inTime: bool, append: Option<int>)

  /** A message on its way in: where to, how, and what its metadata carries. */
  datatype Request = Request(node: string, into: bool, inherited: string, srcSeq: int, replay: Option<int>)

  class Admission {
    /** Slots taken, and the ledger of sequences that hold one. */
    var gate: int
    var acquired: set<int>
    var admitting: int
    const limit: nat

    /** Between calls every slot is in the ledger. */
    ghost predicate Valid()
      reads this
    {
      gate == |acquired| <= limit && admitting == 0
    }

    constructor (limit: nat)
      ensures Valid() && acquired == {} && this.limit == limit
    {
      gate, acquired, admitting, this.limit := 0, {}, 0, limit;
    }

    /** A slot is there, or comes before the context ends. */
    ghost predicate Enters(a: Answers)
      reads this
    {
      a.inTime && gate < limit
    }

    /**
     One message through gate, stamping, spool and registration. A replayed row is durable
     already and keeps its stamps; otherwise the append's answer decides, and the row is
     stamped for replay. A refusal leaves no trace, and slots never exceed the limit.
     */
    method Admit(tracker: CommitTracker.Tracker, req: Request, a: Answers) returns (r: Option<int>, row: Option<Row>)
      requires Valid() && tracker.Separate() && Sorted(tracker.srcRefs)
      requires req.replay.Some? ==> req.replay.value !in acquired
      requires a.append.Some? ==> a.append.value !in acquired
      modifies this`gate, this`acquired, this`admitting, tracker, tracker.srcs.Values
      ensures Valid()
      ensures r == if !old(Enters(a)) then None else if req.replay.Some? then req.replay else a.append
      ensures row == if r.Some? && req.replay.None? then Some(Stamp(req.node, req.into, req.inherited)) else None
      ensures r.None? ==> acquired == old(acquired) && tracker.View() == old(tracker.View())
      ensures r.Some? ==> acquired == old(acquired) + {r.value}
      ensures r.Some? ==> tracker.View() == Arrived(old(tracker.View()), r.value,
                                                    if req.replay.Some? then "" else req.node,
                                                    if req.replay.Some? then 0 else req.srcSeq)
    {
      r := TakeSlot(req.replay, a);
      row := None;
      if r.Some? {
        if req.replay.None? { row := Some(Row(req.node, if req.into then req.node else req.inherited)); }
        tracker.Arrived(r.value, if req.replay.Some? then "" else req.node, if req.replay.Some? then 0 else req.srcSeq);
      }
    }

    /** Gate, append and ledger; a failed append gives the slot back. */
    method TakeSlot(replay: Option<int>, a: Answers) returns (r: Option<int>)
      requires Valid()
      requires replay.Some? ==> replay.value !in acquired
      requires a.append.Some? ==> a.append.value !in acquired
      modifies this`gate, this`acquired, this`admitting
      ensures Valid()
      ensures r == if !old(Enters(a)) then None else if replay.Some? then replay else a.append
      ensures acquired == if r.Some? then old(acquired) + {r.value} else old(acquired)
    {
      admitting := admitting + 1;
      if !a.inTime || gate >= limit {
        admitting := admitting - 1;
        return None;
      }
      gate := gate + 1;
      r := if replay.Some? then replay else a.append;
      if r.None? {
        gate := gate - 1;
        admitting := admitting - 1;
        return;
      }
      acquired := acquired + {r.value};
      admitting := admitting - 1;
    }

    /** Free the slot of one terminal message: at most once, and never waiting for a slot that is not there. */
    method Release(q: int)
      requires Valid()
      modifies this`gate, this`acquired
      ensures Valid() && acquired == old(acquired) - {q}
      ensures gate == old(gate) - (if q in old(acquired) then 1 else 0) && gate >= 0
    {
      if q !in acquired { return; }
      acquired := acquired - {q};
      gate := gate - 1;
    }
  }

  /**
   Where replay re-enters a row: into the node its injection stamp names, else out of its
   source, else nowhere. A row re-enters where it was dispatched exactly when it was
   admitted into its node or brought no stamp that names a known one.
   */
  method ResolveEntry(nodes: set<string>, row: Row) returns (r: Option<(string, bool)>)
    ensures r.None? <==>
            (row.injectedAt == "" || row.injectedAt !in nodes) && (row.source == "" || row.source !in nodes)
    ensures r.Some? && r.value.1 ==> r.value.0 == row.injectedAt && r.value.0 in nodes
    ensures r.Some? && !r.value.1 ==> r.value.0 == row.source && r.value.0 in nodes && row.injectedAt !in nodes - {""}
    ensures forall node, into, inherited :: row == Stamp(node, into, inherited) && node != "" && node in nodes ==>
              (r == Some((node, into)) <==> into || inherited == "" || inherited !in nodes)
  {
    if row.injectedAt != "" {
      if row.injectedAt in nodes { return Some((row.injectedAt, true)); }
    }
    if row.source != "" {
      if row.source in nodes { return Some((row.source, false)); }
    }
    r := None;
  }
}
