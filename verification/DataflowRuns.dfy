/** Schedule independence, progress despite full channels, and termination. */
module DataflowRuns {
  import opened Dataflow
  import Graph

  // --- how much work is left ---

  ghost function IntoCost(net: Net, n: string, m: Msg): nat
    requires Well(net) && n in net.out
    decreases Rank(net, n), 3, 0
  {
    match net.kinds[n]
    case Sink => 2
    case Source => 2 + FanCost(net, n, m)
    case Transform =>
      match net.apply(n, m)
      case Failed => 1
      case Outputs(outs) => if outs == [] then 1 else 2 + FansCost(net, n, outs)
  }

  ghost function FansCost(net: Net, n: string, outs: seq<Msg>): nat
    requires Well(net) && n in net.out
    decreases Rank(net, n), 2, |outs|
  {
    if outs == [] then 0 else FanCost(net, n, outs[0]) + FansCost(net, n, outs[1..])
  }

  ghost function FanCost(net: Net, n: string, m: Msg): nat
    requires Well(net) && n in net.out
    decreases Rank(net, n), 1, 0
  {
    1 + SendsCost(net, Rank(net, n), Matched(net, n, m), m)
  }

  ghost function SendsCost(net: Net, b: nat, ts: seq<string>, m: Msg): nat
    requires Well(net) && Below(net, b, ts)
    decreases b, 0, |ts|
  {
    if ts == [] then 0 else 1 + IntoCost(net, ts[0], m) + SendsCost(net, b, ts[1..], m)
  }

  ghost function Effort(net: Net, u: Unit): nat
    requires Well(net)
  {
    if !UnitOk(net, u) then 0
    else
      match u
      case InChan(n, m) => IntoCost(net, n, m)
      case InBatch(_, _) => 1
      case Busy(n, _, outs, handing, m) =>
        1 + SendsCost(net, Rank(net, n), handing, m) + (if outs == [] then 0 else FansCost(net, n, outs))
  }

  ghost function Efforts(net: Net, us: seq<Unit>): nat
    requires Well(net)
  {
    if us == [] then 0 else Effort(net, us[0]) + Efforts(net, us[1..])
  }

  lemma {:induction false} EffortsConcat(net: Net, a: seq<Unit>, b: seq<Unit>)
    requires Well(net)
    ensures Efforts(net, a + b) == Efforts(net, a) + Efforts(net, b)
  {
    if a == [] {
      assert a + b == b;
    } else {
      EffortsConcat(net, a[1..], b);
      assert (a + b)[1..] == a[1..] + b && (a + b)[0] == a[0];
    }
  }

  lemma SwapEfforts(net: Net, us: seq<Unit>, k: nat, news: seq<Unit>)
    requires Well(net) && k < |us|
    ensures Efforts(net, Swap(us, k, news)) == Efforts(net, us) - Effort(net, us[k]) + Efforts(net, news)
  {
    var a, u, c := us[..k], us[k], us[k + 1..];
    assert us == a + ([u] + c);
    assert [u][1..] == [];
    EffortsConcat(net, [u], c);
    EffortsConcat(net, a, [u] + c);
    EffortsConcat(net, a, c);
    EffortsConcat(net, a + c, news);
  }

  lemma EffortsOne(net: Net, u: Unit)
    requires Well(net)
    ensures Efforts(net, [u]) == Effort(net, u)
  {
    assert [u][1..] == [];
  }

  lemma FansCostCons(net: Net, n: string, outs: seq<Msg>)
    requires Well(net) && n in net.out && outs != []
    ensures FansCost(net, n, outs) == FanCost(net, n, outs[0]) +
        (if outs[1..] == [] then 0 else FansCost(net, n, outs[1..]))
  {
    if outs[1..] == [] { assert FansCost(net, n, outs[1..]) == 0; }
  }

  lemma TakenCosts(net: Net, n: string, m: Msg)
    requires Well(net) && n in net.out && !net.kinds[n].Sink?
    ensures Efforts(net, Taken(net, n, m).0) == IntoCost(net, n, m) - 1
  {
    var r := Taken(net, n, m);
    if r.0 != [] {
      EffortsOne(net, r.0[0]);
      if net.kinds[n].Source? {
        assert [m][1..] == [];
        FansCostCons(net, n, [m]);
      }
    }
  }

  lemma FannedCosts(net: Net, u: Unit)
    requires Well(net) && UnitOk(net, u) && u.Busy? && u.outs != [] && u.handing == []
    ensures Efforts(net, Fanned(net, u).0) == Effort(net, u) - 1
  {
    EffortsOne(net, Fanned(net, u).0[0]);
    FansCostCons(net, u.node, u.outs);
  }

  lemma HandCosts(net: Net, u: Unit)
    requires Well(net) && UnitOk(net, u) && u.Busy? && u.handing != []
    ensures Efforts(net, [u.(handing := u.handing[1..]), InChan(u.handing[0], u.msg)]) == Effort(net, u) - 1
  {
    var a, b := u.(handing := u.handing[1..]), InChan(u.handing[0], u.msg);
    EffortsOne(net, b);
    assert [a, b][1..] == [b];
    assert Effort(net, b) == IntoCost(net, u.handing[0], u.msg);
  }

  lemma {:induction false} FlushCosts(net: Net, us: seq<Unit>, n: string)
    requires Well(net) && AllOk(net, us)
    ensures Efforts(net, Unbatched(us, n)) == Efforts(net, us) - |Batched(us, n)|
  {
    if us != [] {
      FlushCosts(net, us[1..], n);
      if us[0].InBatch? && us[0].node == n {
        assert Unbatched(us, n) == [] + Unbatched(us[1..], n) == Unbatched(us[1..], n);
        assert Effort(net, us[0]) == 1;
      } else {
        assert ([us[0]] + Unbatched(us[1..], n))[1..] == Unbatched(us[1..], n);
      }
    }
  }

  /** Every step uses up work: an execution cannot go on without new admissions. */
  lemma StepWorks(net: Net, s: State, e: Event)
    requires Well(net) && StateOk(net, s) && Enabled(net, s, e) && !e.Admit?
    ensures Efforts(net, Step(net, s, e).units) < Efforts(net, s.units)
  {
    match e
    case Take(k) =>
      TakenCosts(net, s.units[k].node, s.units[k].msg);
      SwapEfforts(net, s.units, k, Taken(net, s.units[k].node, s.units[k].msg).0);
    case FanOut(k) =>
      FannedCosts(net, s.units[k]);
      SwapEfforts(net, s.units, k, Fanned(net, s.units[k]).0);
    case Hand(k) =>
      var u := s.units[k];
      HandCosts(net, u);
      SwapEfforts(net, s.units, k, [u.(handing := u.handing[1..]), InChan(u.handing[0], u.msg)]);
    case Finish(k) => SwapEfforts(net, s.units, k, []);
    case Batch(k) =>
      EffortsOne(net, InBatch(s.units[k].node, s.units[k].msg));
      SwapEfforts(net, s.units, k, [InBatch(s.units[k].node, s.units[k].msg)]);
    case Flush(n) => FlushCosts(net, s.units, n);
  }

  // --- progress ---

  lemma {:induction false} InChannelHas(us: seq<Unit>, n: string) returns (k: nat)
    requires InChannel(us, n) > 0
    ensures Head(us, k) && us[k].node == n
  {
    if us[0].InChan? && us[0].node == n { return 0; }
    k := InChannelHas(us[1..], n);
    k := k + 1;
  }

  lemma {:induction false} HeadOf(us: seq<Unit>, j: nat)
    requires j < |us| && us[j].InChan?
    ensures InChannel(us, us[j].node) > 0
  {
    if j > 0 { HeadOf(us[1..], j - 1); }
  }

  lemma {:induction false} BusyHas(us: seq<Unit>, n: string) returns (k: nat)
    requires BusyWorkers(us, n) > 0
    ensures k < |us| && us[k].Busy? && us[k].node == n
  {
    if us[0].Busy? && us[0].worker && us[0].node == n { return 0; }
    k := BusyHas(us[1..], n);
    k := k + 1;
  }

  lemma {:induction false} BatchedHas(us: seq<Unit>, j: nat)
    requires j < |us| && us[j].InBatch?
    ensures Batched(us, us[j].node) != []
  {
    if j > 0 { BatchedHas(us[1..], j - 1); }
  }

  /**
   Wherever a unit is, some step is enabled: a full channel or a busy worker only ever
   waits for something strictly further down, and the graph has no way back up.
   */
  lemma {:induction false} UnitMoves(net: Net, s: State, j: nat) returns (e: Event)
    requires Well(net) && StateOk(net, s) && j < |s.units|
    ensures !e.Admit? && Enabled(net, s, e)
    decreases Rank(net, s.units[j].node), if s.units[j].Busy? then 0 else 1
  {
    var u := s.units[j];
    match u
    case InBatch(n, _) =>
      BatchedHas(s.units, j);
      e := Flush(n);
    case InChan(n, _) =>
      HeadOf(s.units, j);
      var k := InChannelHas(s.units, n);
      if net.kinds[n].Sink? {
        e := if |Batched(s.units, n)| < net.size[n] then Batch(k) else Flush(n);
      } else if BusyWorkers(s.units, n) < net.workers[n] {
        e := Take(k);
      } else {
        var i := BusyHas(s.units, n);
        e := UnitMoves(net, s, i);
      }
    case Busy(n, _, outs, handing, _) =>
      if handing == [] {
        e := if outs == [] then Finish(j) else FanOut(j);
      } else if InChannel(s.units, handing[0]) < net.cap[handing[0]] {
        e := Hand(j);
      } else {
        var i := InChannelHas(s.units, handing[0]);
        e := UnitMoves(net, s, i);
      }
  }

  // --- runs ---

  datatype Result = Stuck | Reached(s: State)

  ghost function After(net: Net, s: State, es: seq<Event>): Result
    requires Well(net)
    decreases |es|
  {
    if es == [] then Reached(s)
    else if StateOk(net, s) && Enabled(net, s, es[0]) then After(net, Step(net, s, es[0]), es[1..])
    else Stuck
  }

  const Empty := State([], multiset{})

  /** The meaning of everything a run admitted. */
  ghost function Admitted(net: Net, es: seq<Event>): multiset<Outcome>
    requires Well(net)
  {
    if es == [] then multiset{}
    else (if es[0].Admit? && es[0].node in net.out then Meaning(net, es[0]) else multiset{}) + Admitted(net, es[1..])
  }

  lemma {:induction false} RunTotals(net: Net, s: State, es: seq<Event>, s': State)
    requires Well(net) && StateOk(net, s) && After(net, s, es) == Reached(s')
    ensures StateOk(net, s') && Total(net, s') == Total(net, s) + Admitted(net, es)
    decreases |es|
  {
    if es != [] {
      var s1 := Step(net, s, es[0]);
      if es[0].Admit? { AdmitKeeps(net, s, es[0]); } else { StepKeeps(net, s, es[0]); }
      RunTotals(net, s1, es[1..], s');
      AddsUp(Total(net, s), if es[0].Admit? then Meaning(net, es[0]) else multiset{}, Admitted(net, es[1..]));
    }
  }

  /**
   Schedule independence: whatever the interleaving of admissions, workers, full channels
   and batches, a run that comes to rest has produced exactly the outcomes the recursive
   meaning gives the messages it admitted.
   */
  lemma ScheduleIndependence(net: Net, es: seq<Event>, s: State)
    requires Well(net) && After(net, Empty, es) == Reached(s) && s.units == []
    ensures s.done == Admitted(net, es)
  {
    RunTotals(net, Empty, es, s);
    RestTotal(net, s);
    RestTotal(net, Empty);
  }

  lemma RestTotal(net: Net, s: State)
    requires Well(net) && s.units == []
    ensures Total(net, s) == s.done
  {
    assert Values(net, s.units) == multiset{};
  }

  /** In every reachable state with work in flight some transform or sink step is enabled. */
  lemma Progress(net: Net, es: seq<Event>, s: State) returns (e: Event)
    requires Well(net) && After(net, Empty, es) == Reached(s) && s.units != []
    ensures StateOk(net, s) && !e.Admit? && Enabled(net, s, e)
  {
    RunTotals(net, Empty, es, s);
    e := UnitMoves(net, s, 0);
  }

  /** Without new admissions every run ends, within the work left in its first state. */
  lemma {:induction false} RunsEnd(net: Net, s: State, es: seq<Event>, s': State)
    requires Well(net) && StateOk(net, s) && After(net, s, es) == Reached(s') &&
             forall i :: 0 <= i < |es| ==> !es[i].Admit?
    ensures |es| + Efforts(net, s'.units) <= Efforts(net, s.units)
    decreases |es|
  {
    if es != [] {
      StepKeeps(net, s, es[0]);
      StepWorks(net, s, es[0]);
      RunsEnd(net, Step(net, s, es[0]), es[1..], s');
    }
  }

  /** And every state can be run to rest. */
  lemma {:induction false} Settles(net: Net, s: State) returns (es: seq<Event>, s': State)
    requires Well(net) && StateOk(net, s)
    ensures After(net, s, es) == Reached(s') && s'.units == [] && forall i :: 0 <= i < |es| ==> !es[i].Admit?
    decreases Efforts(net, s.units)
  {
    if s.units == [] { return [], s; }
    var e := UnitMoves(net, s, 0);
    StepKeeps(net, s, e);
    StepWorks(net, s, e);
    es, s' := Settles(net, Step(net, s, e));
    assert ([e] + es)[1..] == es;
    es := [e] + es;
  }
}
