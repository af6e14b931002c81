/**
 The concurrent engine over bounded channels against the recursive meaning of its graph
 (internal/engine fan-out, transform workers, sink batches). Transforms and edge
 conditions are deterministic functions; any worker may move at any time.
 */
module Dataflow {
  import Graph

  datatype Msg = Msg(payload: string, meta: string)

  datatype Kind = Source | Transform | Sink

  /** What a transform makes of one message once its retries are spent. */
  datatype Applied = Failed | Outputs(outs: seq<Msg>)

  datatype Net = Net(
    kinds: map<string, Kind>,
    out: map<string, seq<string>>,            // out-edges in declaration order
    passes: (string, nat, Msg) -> bool,       // an edge's condition; an evaluation error counts as false
    apply: (string, Msg) -> Applied,
    workers: map<string, nat>, cap: map<string, nat>, size: map<string, nat>,
    order: seq<string>)                       // every node after everything it points to

  datatype Outcome =
    | Delivered(sink: string, msg: Msg)
    | Filtered(node: string, msg: Msg)
    | DeadLettered(node: string, msg: Msg)

  ghost predicate Well(net: Net) {
    && "" !in net.out && Graph.Ranked(net.out, net.order) && (forall n :: n in net.out <==> n in net.order)
    && net.kinds.Keys == net.out.Keys && net.workers.Keys == net.out.Keys
    && net.cap.Keys == net.out.Keys && net.size.Keys == net.out.Keys
    && forall n :: n in net.out ==> net.workers[n] >= 1 && net.cap[n] >= 1 && net.size[n] >= 1
  }

  /**
   A net over the edges of an error-free build, ordered by the build's sorted nodes read
   backwards, is well formed exactly when the build reported no cycle.
   */
  lemma BuildDecidesWell(ins: Graph.Edges, sorted: seq<string>, cyclic: bool, net: Net)
    requires Graph.Distinct(sorted) && (forall n :: n in sorted <==> n in ins) && "" !in ins
    requires (!cyclic <==> Graph.Ranked(ins, sorted)) && (cyclic <==> Graph.HasCycle(ins))
    requires Graph.Closed(ins) && Graph.Closed(net.out) && Graph.Turned(ins, net.out)
    requires net.kinds.Keys == net.workers.Keys == net.cap.Keys == net.size.Keys == net.out.Keys
    requires forall n :: n in net.out ==> net.workers[n] >= 1 && net.cap[n] >= 1 && net.size[n] >= 1
    requires net.order == Graph.Reverse(sorted)
    ensures Well(net) <==> !cyclic
  {
    Graph.ReverseMembers(sorted);
    assert forall n :: n in net.out <==> n in ins.Keys;
    if !cyclic {
      Graph.TurnedRanked(ins, net.out, sorted);
      OrderedIsWell(net);
    } else {
      Graph.TurnedCycles(ins, net.out);
      if Well(net) { WellIsAcyclic(net); }
    }
  }

  lemma OrderedIsWell(net: Net)
    requires "" !in net.out && Graph.Ranked(net.out, net.order) && forall n :: n in net.out <==> n in net.order
    requires net.kinds.Keys == net.workers.Keys == net.cap.Keys == net.size.Keys == net.out.Keys
    requires forall n :: n in net.out ==> net.workers[n] >= 1 && net.cap[n] >= 1 && net.size[n] >= 1
    ensures Well(net)
  {}

  lemma WellIsAcyclic(net: Net)
    requires Well(net)
    ensures !Graph.HasCycle(net.out)
  {
    Graph.RankedIsAcyclic(net.out, net.order);
  }

  function IndexOf(order: seq<string>, n: string): (i: nat)
    ensures i <= |order| && (i < |order| ==> order[i] == n) && (i == |order| ==> n !in order)
  {
    if order == [] then 0 else if order[0] == n then 0 else 1 + IndexOf(order[1..], n)
  }

  /** A node's height above the sinks' end; a name that is no node lies above them all. */
  function Rank(net: Net, n: string): nat { IndexOf(net.order, n) }

  /** Nodes strictly below a height. */
  ghost predicate Below(net: Net, b: nat, ts: seq<string>) {
    forall i :: 0 <= i < |ts| ==> ts[i] in net.out && Rank(net, ts[i]) < b
  }

  lemma {:induction false} IndexIs(order: seq<string>, i: nat)
    requires Graph.Distinct(order) && i < |order|
    ensures IndexOf(order, order[i]) == i
  {
    if i > 0 { IndexIs(order[1..], i - 1); }
  }

  lemma EdgesGoDown(net: Net, n: string)
    requires Well(net) && n in net.out
    ensures Below(net, Rank(net, n), net.out[n])
  {
    var r := Rank(net, n);
    forall j | 0 <= j < |net.out[n]| ensures net.out[n][j] in net.out && Rank(net, net.out[n][j]) < r {
      var m := net.out[n][j];
      assert m in net.order[..r];
      var i :| 0 <= i < r && net.order[i] == m;
      IndexIs(net.order, i);
    }
  }

  // --- the recursive meaning ---

  function MatchedFrom(net: Net, n: string, j: nat, m: Msg): (r: seq<string>)
    requires n in net.out
    ensures forall i :: 0 <= i < |r| ==> r[i] in net.out[n]
    decreases |net.out[n]| - j
  {
    if j >= |net.out[n]| then []
    else (if net.passes(n, j, m) then [net.out[n][j]] else []) + MatchedFrom(net, n, j + 1, m)
  }

  /** The targets of the edges a message leaves a node on. */
  function Matched(net: Net, n: string, m: Msg): (r: seq<string>)
    requires Well(net) && n in net.out
    ensures Below(net, Rank(net, n), r)
  {
    EdgesGoDown(net, n);
    MatchedFrom(net, n, 0, m)
  }

  /** Every outcome of a message handed into a node. */
  ghost function Into(net: Net, n: string, m: Msg): multiset<Outcome>
    requires Well(net) && n in net.out
    decreases Rank(net, n), 3, 0
  {
    match net.kinds[n]
    case Sink => multiset{Delivered(n, m)}
    case Source => Fan(net, n, m)
    case Transform =>
      match net.apply(n, m)
      case Failed => multiset{DeadLettered(n, m)}
      case Outputs(outs) => if outs == [] then multiset{Filtered(n, m)} else Fans(net, n, outs)
  }

  /** Every outcome of messages leaving a node. */
  ghost function Fans(net: Net, n: string, outs: seq<Msg>): multiset<Outcome>
    requires Well(net) && n in net.out
    decreases Rank(net, n), 2, |outs|
  {
    if outs == [] then multiset{} else Fan(net, n, outs[0]) + Fans(net, n, outs[1..])
  }

  ghost function Fan(net: Net, n: string, m: Msg): multiset<Outcome>
    requires Well(net) && n in net.out
    decreases Rank(net, n), 1, 0
  {
    var ts := Matched(net, n, m);
    if ts == [] then multiset{Filtered(n, m)} else Sends(net, Rank(net, n), ts, m)
  }

  ghost function Sends(net: Net, b: nat, ts: seq<string>, m: Msg): multiset<Outcome>
    requires Well(net) && Below(net, b, ts)
    decreases b, 0, |ts|
  {
    if ts == [] then multiset{} else Into(net, ts[0], m) + Sends(net, b, ts[1..], m)
  }

  // --- the machine ---

  /** Where a message, or a part of the work on it, is. */
  datatype Unit =
    | InChan(node: string, msg: Msg)
    // outputs to fan out, edges left to hand msg to
    | Busy(node: string, worker: bool, outs: seq<Msg>, handing: seq<string>, msg: Msg)
    | InBatch(node: string, msg: Msg)

  /** Units in the order they came to be: a channel's head is the first unit in it. */
  datatype State = State(units: seq<Unit>, done: multiset<Outcome>)

  datatype Event =
    | Admit(node: string, msg: Msg, into: bool)
    | Take(k: nat)
    | FanOut(k: nat)
    | Hand(k: nat)
    | Finish(k: nat)
    | Batch(k: nat)
    | Flush(node: string)

  ghost predicate UnitOk(net: Net, u: Unit) {
    match u
    case InChan(n, _) => n in net.out
    case InBatch(n, _) => n in net.out && n in net.kinds && net.kinds[n].Sink?
    case Busy(n, _, outs, handing, _) => (outs == [] || n in net.out) && Below(net, Rank(net, n), handing)
  }

  ghost predicate StateOk(net: Net, s: State) { forall i :: 0 <= i < |s.units| ==> UnitOk(net, s.units[i]) }

  function InChannel(us: seq<Unit>, n: string): nat {
    if us == [] then 0 else (if us[0].InChan? && us[0].node == n then 1 else 0) + InChannel(us[1..], n)
  }

  function BusyWorkers(us: seq<Unit>, n: string): nat {
    if us == [] then 0 else (if us[0].Busy? && us[0].worker && us[0].node == n then 1 else 0) + BusyWorkers(us[1..], n)
  }

  function Batched(us: seq<Unit>, n: string): seq<Unit> {
    if us == [] then [] else (if us[0].InBatch? && us[0].node == n then [us[0]] else []) + Batched(us[1..], n)
  }

  function Unbatched(us: seq<Unit>, n: string): seq<Unit> {
    if us == [] then [] else (if us[0].InBatch? && us[0].node == n then [] else [us[0]]) + Unbatched(us[1..], n)
  }

  predicate Head(us: seq<Unit>, k: nat) {
    k < |us| && us[k].InChan? && forall i :: 0 <= i < k ==> !(us[i].InChan? && us[i].node == us[k].node)
  }

  ghost predicate Enabled(net: Net, s: State, e: Event)
    requires Well(net) && StateOk(net, s)
  {
    match e
    case Admit(n, _, into) => n in net.out && into != net.kinds[n].Source?
    case Take(k) =>
      Head(s.units, k) && !net.kinds[s.units[k].node].Sink? &&
          BusyWorkers(s.units, s.units[k].node) < net.workers[s.units[k].node]
    case FanOut(k) => k < |s.units| && s.units[k].Busy? && s.units[k].handing == [] && s.units[k].outs != []
    case Hand(k) =>
      k < |s.units| && s.units[k].Busy? && s.units[k].handing != []
      && InChannel(s.units, s.units[k].handing[0]) < net.cap[s.units[k].handing[0]]
    case Finish(k) => k < |s.units| && s.units[k].Busy? && s.units[k].handing == [] && s.units[k].outs == []
    case Batch(k) =>
      Head(s.units, k) && net.kinds[s.units[k].node].Sink? &&
          |Batched(s.units, s.units[k].node)| < net.size[s.units[k].node]
    case Flush(n) => Batched(s.units, n) != []
  }

  function Swap(us: seq<Unit>, k: nat, news: seq<Unit>): seq<Unit>
    requires k < |us|
  {
    us[..k] + us[k + 1..] + news
  }

  /** What a worker makes of the message it took: an outcome, or outputs to fan out. */
  function Taken(net: Net, n: string, m: Msg): (seq<Unit>, multiset<Outcome>)
    requires n in net.kinds
  {
    if net.kinds[n].Source? then ([Busy(n, true, [m], [], m)], multiset{})
    else
      match net.apply(n, m)
      case Failed => ([], multiset{DeadLettered(n, m)})
      case Outputs(outs) =>
        if outs == [] then ([], multiset{Filtered(n, m)}) else ([Busy(n, true, outs, [], m)], multiset{})
  }

  function Fanned(net: Net, u: Unit): (seq<Unit>, multiset<Outcome>)
    requires Well(net) && u.Busy? && u.outs != [] && u.node in net.out
  {
    var ts := Matched(net, u.node, u.outs[0]);
    ([u.(outs := u.outs[1..], handing := ts, msg := u.outs[0])],
     if ts == [] then multiset{Filtered(u.node, u.outs[0])} else multiset{})
  }

  function Acks(us: seq<Unit>): multiset<Outcome>
    requires forall i :: 0 <= i < |us| ==> us[i].InBatch?
  {
    if us == [] then multiset{} else multiset{Delivered(us[0].node, us[0].msg)} + Acks(us[1..])
  }

  lemma {:induction false} BatchedAre(us: seq<Unit>, n: string)
    ensures forall i :: 0 <= i < |Batched(us, n)| ==> Batched(us, n)[i].InBatch? && Batched(us, n)[i].node == n
  {
    if us != [] { BatchedAre(us[1..], n); }
  }

  function AckAll(us: seq<Unit>, n: string): multiset<Outcome> {
    BatchedAre(us, n);
    Acks(Batched(us, n))
  }

  /** Replace a unit by what became of it. */
  function Become(s: State, k: nat, r: (seq<Unit>, multiset<Outcome>)): State
    requires k < |s.units|
  {
    State(Swap(s.units, k, r.0), s.done + r.1)
  }

  ghost function Step(net: Net, s: State, e: Event): State
    requires Well(net) && StateOk(net, s) && Enabled(net, s, e)
  {
    match e
    case Admit(n, m, into) =>
      s.(units := s.units + [if into then Busy("", false, [], [n], m) else Busy(n, false, [m], [], m)])
    case Take(k) => Become(s, k, Taken(net, s.units[k].node, s.units[k].msg))
    case FanOut(k) => Become(s, k, Fanned(net, s.units[k]))
    case Hand(k) =>
      var u := s.units[k];
      Become(s, k, ([u.(handing := u.handing[1..]), InChan(u.handing[0], u.msg)], multiset{}))
    case Finish(k) => Become(s, k, ([], multiset{}))
    case Batch(k) => Become(s, k, ([InBatch(s.units[k].node, s.units[k].msg)], multiset{}))
    case Flush(n) => State(Unbatched(s.units, n), s.done + AckAll(s.units, n))
  }

  // --- what a state is worth: outcomes so far and outcomes to come ---

  ghost function Value(net: Net, u: Unit): multiset<Outcome>
    requires Well(net) && UnitOk(net, u)
  {
    match u
    case InChan(n, m) => Into(net, n, m)
    case InBatch(n, m) => multiset{Delivered(n, m)}
    case Busy(n, _, outs, handing, m) =>
      Sends(net, Rank(net, n), handing, m) + (if outs == [] then multiset{} else Fans(net, n, outs))
  }

  ghost function Worth(net: Net, u: Unit): multiset<Outcome>
    requires Well(net)
  {
    if UnitOk(net, u) then Value(net, u) else multiset{}
  }

  ghost function Values(net: Net, us: seq<Unit>): multiset<Outcome>
    requires Well(net)
  {
    if us == [] then multiset{} else Worth(net, us[0]) + Values(net, us[1..])
  }

  ghost function Total(net: Net, s: State): multiset<Outcome>
    requires Well(net)
  {
    s.done + Values(net, s.units)
  }

  ghost predicate AllOk(net: Net, us: seq<Unit>) { forall i :: 0 <= i < |us| ==> UnitOk(net, us[i]) }

  lemma {:induction false} ValuesConcat(net: Net, a: seq<Unit>, b: seq<Unit>)
    requires Well(net)
    ensures Values(net, a + b) == Values(net, a) + Values(net, b)
  {
    if a == [] {
      assert a + b == b;
    } else {
      ValuesConcat(net, a[1..], b);
      assert (a + b)[1..] == a[1..] + b && (a + b)[0] == a[0];
      AddsUp(Worth(net, a[0]), Values(net, a[1..]), Values(net, b));
    }
  }

  lemma AddsUp(a: multiset<Outcome>, b: multiset<Outcome>, c: multiset<Outcome>)
    ensures (a + b) + c == a + (b + c) == (a + c) + b
  {}

  lemma ValuesOne(net: Net, u: Unit)
    requires Well(net) && UnitOk(net, u)
    ensures Values(net, [u]) == Value(net, u)
  {
    assert [u][1..] == [];
  }

  /** Replacing a unit by units (and outcomes) of the same worth keeps the total. */
  lemma BecomeKeeps(net: Net, s: State, k: nat, r: (seq<Unit>, multiset<Outcome>))
    requires Well(net) && StateOk(net, s) && k < |s.units| && AllOk(net, r.0)
    requires Values(net, r.0) + r.1 == Value(net, s.units[k])
    ensures StateOk(net, Become(s, k, r)) && Total(net, Become(s, k, r)) == Total(net, s)
  {
    SwapOk(net, s.units, k, r.0);
    SwapValues(net, s.units, k, r.0);
    var a, u, c := s.units[..k], s.units[k], s.units[k + 1..];
    Rearrange(s.done, Values(net, a), Value(net, u), Values(net, c), Values(net, r.0), r.1);
  }

  lemma SwapOk(net: Net, us: seq<Unit>, k: nat, news: seq<Unit>)
    requires AllOk(net, us) && AllOk(net, news) && k < |us|
    ensures AllOk(net, Swap(us, k, news))
  {}

  lemma SwapValues(net: Net, us: seq<Unit>, k: nat, news: seq<Unit>)
    requires Well(net) && k < |us|
    ensures Values(net, us) == Values(net, us[..k]) + (Worth(net, us[k]) + Values(net, us[k + 1..]))
    ensures Values(net, Swap(us, k, news)) == (Values(net, us[..k]) + Values(net, us[k + 1..])) + Values(net, news)
  {
    var a, u, c := us[..k], us[k], us[k + 1..];
    assert us == a + ([u] + c);
    assert [u][1..] == [];
    ValuesConcat(net, [u], c);
    ValuesConcat(net, a, [u] + c);
    ValuesConcat(net, a, c);
    ValuesConcat(net, a + c, news);
  }

  lemma Rearrange(done: multiset<Outcome>, a: multiset<Outcome>, u: multiset<Outcome>, c: multiset<Outcome>,
                  v: multiset<Outcome>, r: multiset<Outcome>)
    requires v + r == u
    ensures (done + r) + ((a + c) + v) == done + (a + (u + c))
  {}

  lemma TakenKeeps(net: Net, n: string, m: Msg)
    requires Well(net) && n in net.out && !net.kinds[n].Sink?
    ensures var r := Taken(net, n, m); AllOk(net, r.0) && Values(net, r.0) + r.1 == Into(net, n, m)
  {
    if net.kinds[n].Source? {
      TakenSource(net, n, m);
    } else {
      TakenTransform(net, n, m);
    }
  }

  lemma TakenSource(net: Net, n: string, m: Msg)
    requires Well(net) && n in net.out && net.kinds[n].Source?
    ensures var r := Taken(net, n, m); AllOk(net, r.0) && Values(net, r.0) + r.1 == Into(net, n, m)
  {
    BusyWorth(net, n, [m], m);
    FansCons(net, n, [m]);
    assert [m][1..] == [];
  }

  lemma TakenTransform(net: Net, n: string, m: Msg)
    requires Well(net) && n in net.out && net.kinds[n].Transform?
    ensures var r := Taken(net, n, m); AllOk(net, r.0) && Values(net, r.0) + r.1 == Into(net, n, m)
  {
    match net.apply(n, m)
    case Failed =>
      assert Values(net, []) == multiset{};
    case Outputs(outs) =>
      if outs == [] {
        assert Values(net, []) == multiset{};
      } else {
        BusyWorth(net, n, outs, m);
      }
  }

  /** A worker that has yet to fan its outputs out is worth just those. */
  lemma BusyWorth(net: Net, n: string, outs: seq<Msg>, m: Msg)
    requires Well(net) && n in net.out && outs != []
    ensures UnitOk(net, Busy(n, true, outs, [], m)) && Values(net, [Busy(n, true, outs, [], m)]) == Fans(net, n, outs)
  {
    var u := Busy(n, true, outs, [], m);
    ValuesOne(net, u);
    assert Value(net, u) == multiset{} + Fans(net, n, outs);
  }

  lemma FansCons(net: Net, n: string, outs: seq<Msg>)
    requires Well(net) && n in net.out && outs != []
    ensures Fans(net, n, outs) == Fan(net, n, outs[0]) +
        (if outs[1..] == [] then multiset{} else Fans(net, n, outs[1..]))
  {
    if outs[1..] == [] { assert Fans(net, n, outs[1..]) == multiset{}; }
  }

  lemma SendsOne(net: Net, b: nat, n: string, m: Msg)
    requires Well(net) && n in net.out && Rank(net, n) < b
    ensures Sends(net, b, [n], m) == Into(net, n, m)
  {
    assert [n][1..] == [];
    assert Sends(net, b, [n][1..], m) == multiset{};
  }

  lemma FannedKeeps(net: Net, u: Unit)
    requires Well(net) && UnitOk(net, u) && u.Busy? && u.outs != [] && u.handing == []
    ensures var r := Fanned(net, u); AllOk(net, r.0) && Values(net, r.0) + r.1 == Value(net, u)
  {
    var r := Fanned(net, u);
    var ts, rest := Matched(net, u.node, u.outs[0]), u.outs[1..];
    var later := if rest == [] then multiset{} else Fans(net, u.node, rest);
    ValuesOne(net, r.0[0]);
    FansCons(net, u.node, u.outs);
    assert Value(net, u) == Fan(net, u.node, u.outs[0]) + later;
    assert Value(net, r.0[0]) == Sends(net, Rank(net, u.node), ts, u.outs[0]) + later;
    if ts == [] { AddsUp(multiset{}, later, r.1); }
  }

  lemma HandKeeps(net: Net, u: Unit)
    requires Well(net) && UnitOk(net, u) && u.Busy? && u.handing != []
    ensures var r := [u.(handing := u.handing[1..]), InChan(u.handing[0], u.msg)];
      AllOk(net, r) && Values(net, r) == Value(net, u)
  {
    var a, b := u.(handing := u.handing[1..]), InChan(u.handing[0], u.msg);
    ValuesTwo(net, a, b);
    HandWorth(net, u);
  }

  lemma HandWorth(net: Net, u: Unit)
    requires Well(net) && UnitOk(net, u) && u.Busy? && u.handing != []
    ensures UnitOk(net, u.(handing := u.handing[1..]))
    ensures Value(net, u.(handing := u.handing[1..])) + Into(net, u.handing[0], u.msg) == Value(net, u)
  {
    var b := Rank(net, u.node);
    SendsCons(net, b, u.handing, u.msg);
    AddsUp(Sends(net, b, u.handing[1..], u.msg), if u.outs == [] then multiset{} else Fans(net, u.node, u.outs),
           Into(net, u.handing[0], u.msg));
  }

  lemma SendsCons(net: Net, b: nat, ts: seq<string>, m: Msg)
    requires Well(net) && Below(net, b, ts) && ts != []
    ensures Below(net, b, ts[1..]) && Sends(net, b, ts, m) == Sends(net, b, ts[1..], m) + Into(net, ts[0], m)
  {}

  lemma ValuesTwo(net: Net, a: Unit, b: Unit)
    requires Well(net) && UnitOk(net, a) && UnitOk(net, b)
    ensures Values(net, [a, b]) == Value(net, a) + Value(net, b)
  {
    ValuesOne(net, b);
    assert [a, b][1..] == [b];
  }

  lemma {:induction false} FlushKeeps(net: Net, us: seq<Unit>, n: string)
    requires Well(net) && AllOk(net, us)
    ensures Values(net, us) == Values(net, Unbatched(us, n)) + AckAll(us, n)
  {
    if us != [] {
      FlushKeeps(net, us[1..], n);
      var u, acks, rest := us[0], AckAll(us[1..], n), Unbatched(us[1..], n);
      AckCons(us, n);
      if u.InBatch? && u.node == n {
        assert Unbatched(us, n) == [] + rest == rest;
        assert Worth(net, u) == multiset{Delivered(u.node, u.msg)};
        AddsUp(multiset{Delivered(u.node, u.msg)}, Values(net, rest), acks);
      } else {
        assert Unbatched(us, n) == [u] + rest && ([u] + rest)[1..] == rest;
        AddsUp(Worth(net, u), Values(net, rest), acks);
      }
    }
  }

  lemma {:induction false} UnbatchedOk(net: Net, us: seq<Unit>, n: string)
    requires AllOk(net, us)
    ensures AllOk(net, Unbatched(us, n))
  {
    if us != [] { UnbatchedOk(net, us[1..], n); }
  }

  lemma AckCons(us: seq<Unit>, n: string)
    requires us != []
    ensures AckAll(us, n) ==
        (if us[0].InBatch? && us[0].node == n then multiset{Delivered(n, us[0].msg)} else multiset{}) +
        AckAll(us[1..], n)
  {
    BatchedAre(us, n);
    BatchedAre(us[1..], n);
    if us[0].InBatch? && us[0].node == n {
      assert Batched(us, n) == [us[0]] + Batched(us[1..], n);
      assert Batched(us, n)[1..] == Batched(us[1..], n);
    } else {
      assert Batched(us, n) == Batched(us[1..], n);
    }
  }

  /** What one admission is worth. */
  ghost function Meaning(net: Net, e: Event): multiset<Outcome>
    requires Well(net) && e.Admit? && e.node in net.out
  {
    if e.into then Into(net, e.node, e.msg) else Fan(net, e.node, e.msg)
  }

  lemma AdmitKeeps(net: Net, s: State, e: Event)
    requires Well(net) && StateOk(net, s) && e.Admit? && Enabled(net, s, e)
    ensures StateOk(net, Step(net, s, e)) && Total(net, Step(net, s, e)) == Total(net, s) + Meaning(net, e)
  {
    var u := if e.into then Busy("", false, [], [e.node], e.msg) else Busy(e.node, false, [e.msg], [], e.msg);
    AdmitUnit(net, e, u);
    AdmitTotal(net, s, u, Meaning(net, e));
  }

  lemma AdmitTotal(net: Net, s: State, u: Unit, worth: multiset<Outcome>)
    requires Well(net) && StateOk(net, s) && UnitOk(net, u) && Values(net, [u]) == worth
    ensures var s' := s.(units := s.units + [u]); StateOk(net, s') && Total(net, s') == Total(net, s) + worth
  {
    ValuesConcat(net, s.units, [u]);
    AddsUp(s.done, Values(net, s.units), worth);
  }

  lemma AdmitUnit(net: Net, e: Event, u: Unit)
    requires Well(net) && e.Admit? && e.node in net.out
    requires u == if e.into then Busy("", false, [], [e.node], e.msg) else Busy(e.node, false, [e.msg], [], e.msg)
    ensures UnitOk(net, u) && Values(net, [u]) == Meaning(net, e)
  {
    if e.into {
      SendsOne(net, Rank(net, ""), e.node, e.msg);
    } else {
      assert [e.msg][1..] == [];
      FansCons(net, e.node, [e.msg]);
    }
    ValuesOne(net, u);
  }

  /** Every step keeps the total, whatever moves and in whatever order. */
  lemma StepKeeps(net: Net, s: State, e: Event)
    requires Well(net) && StateOk(net, s) && Enabled(net, s, e) && !e.Admit?
    ensures StateOk(net, Step(net, s, e)) && Total(net, Step(net, s, e)) == Total(net, s)
  {
    match e
    case Take(k) =>
      TakenKeeps(net, s.units[k].node, s.units[k].msg);
      BecomeKeeps(net, s, k, Taken(net, s.units[k].node, s.units[k].msg));
    case FanOut(k) =>
      FannedKeeps(net, s.units[k]);
      BecomeKeeps(net, s, k, Fanned(net, s.units[k]));
    case Hand(k) =>
      var u := s.units[k];
      HandKeeps(net, u);
      BecomeKeeps(net, s, k, ([u.(handing := u.handing[1..]), InChan(u.handing[0], u.msg)], multiset{}));
    case Finish(k) => BecomeKeeps(net, s, k, ([], multiset{}));
    case Batch(k) =>
      var u := InBatch(s.units[k].node, s.units[k].msg);
      ValuesOne(net, u);
      BecomeKeeps(net, s, k, ([u], multiset{}));
    case Flush(n) =>
      UnbatchedOk(net, s.units, n);
      FlushKeeps(net, s.units, n);
  }
}
