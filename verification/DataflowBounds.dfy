/** The concurrent engine stays within its channels, its workers and its batches. */
module DataflowBounds {
  import opened Dataflow
  import opened DataflowRuns

  /** Where a unit counts: in a node's channel, with one of its workers, in its batch. */
  datatype Place = Channel | Worker | InSink

  predicate Sits(u: Unit, n: string, p: Place) {
    match p
    case Channel => u.InChan? && u.node == n
    case Worker => u.Busy? && u.worker && u.node == n
    case InSink => u.InBatch? && u.node == n
  }

  function Load(us: seq<Unit>, n: string, p: Place): nat {
    if us == [] then 0 else Load(us[..|us| - 1], n, p) + (if Sits(us[|us| - 1], n, p) then 1 else 0)
  }

  lemma {:induction false} LoadIs(us: seq<Unit>, n: string, p: Place)
    ensures Load(us, n, p) == |set i | 0 <= i < |us| && Sits(us[i], n, p)|
  {
    var s := set i | 0 <= i < |us| && Sits(us[i], n, p);
    if us == [] {
      assert s == {};
    } else {
      LoadIs(us[..|us| - 1], n, p);
      SitsSnoc(us, us[..|us| - 1], n, p);
    }
  }

  lemma SitsSnoc(us: seq<Unit>, before: seq<Unit>, n: string, p: Place)
    requires us != [] && before == us[..|us| - 1]
    ensures |set i | 0 <= i < |us| && Sits(us[i], n, p)| ==
            |set i | 0 <= i < |before| && Sits(before[i], n, p)| + (if Sits(us[|us| - 1], n, p) then 1 else 0)
  {
    var k := |us| - 1;
    var s, s0 := set i | 0 <= i < |us| && Sits(us[i], n, p), set i | 0 <= i < |before| && Sits(before[i], n, p);
    assert s == s0 + (if Sits(us[k], n, p) then {k} else {});
    assert k !in s0;
  }

  lemma {:induction false} LoadConcat(a: seq<Unit>, b: seq<Unit>, n: string, p: Place)
    ensures Load(a + b, n, p) == Load(a, n, p) + Load(b, n, p)
  {
    if b == [] {
      assert a + b == a;
    } else {
      LoadConcat(a, b[..|b| - 1], n, p);
      assert (a + b)[..|a + b| - 1] == a + b[..|b| - 1];
    }
  }

  lemma LoadOne(u: Unit, n: string, p: Place)
    ensures Load([u], n, p) == if Sits(u, n, p) then 1 else 0
  {
    assert [u][..|[u]| - 1] == [];
  }

  lemma LoadSwap(us: seq<Unit>, k: nat, news: seq<Unit>, n: string, p: Place)
    requires k < |us|
    ensures Load(Swap(us, k, news), n, p) + (if Sits(us[k], n, p) then 1 else 0) == Load(us, n, p) + Load(news, n, p)
  {
    assert us == us[..k] + ([us[k]] + us[k + 1..]);
    LoadConcat(us[..k], [us[k]] + us[k + 1..], n, p);
    LoadConcat([us[k]], us[k + 1..], n, p);
    LoadOne(us[k], n, p);
    LoadConcat(us[..k] + us[k + 1..], news, n, p);
    LoadConcat(us[..k], us[k + 1..], n, p);
  }

  /** What the machine counts is the load. */
  lemma {:induction false} CountsAre(us: seq<Unit>, n: string)
    ensures InChannel(us, n) == Load(us, n, Channel) && BusyWorkers(us, n) == Load(us, n, Worker)
    ensures |Batched(us, n)| == Load(us, n, InSink)
    ensures Load(Unbatched(us, n), n, InSink) == 0
    ensures forall m, p :: Load(Unbatched(us, n), m, p) <= Load(us, m, p)
  {
    if us != [] {
      CountsAre(us[1..], n);
      assert us == [us[0]] + us[1..];
      forall m, p
        ensures Load(us, m, p) == Load([us[0]], m, p) + Load(us[1..], m, p)
        ensures Load([us[0]], m, p) == if Sits(us[0], m, p) then 1 else 0
      {
        LoadConcat([us[0]], us[1..], m, p);
        LoadOne(us[0], m, p);
      }
      UnbatchedHead(us, n);
    }
  }

  lemma UnbatchedHead(us: seq<Unit>, n: string)
    requires us != []
    ensures forall m, p :: Load(Unbatched(us, n), m, p) == Load(Unbatched(us[1..], n), m, p)
              + (if Sits(us[0], m, p) && !Sits(us[0], n, InSink) then 1 else 0)
  {
    forall m, p
      ensures Load(Unbatched(us, n), m, p) == Load(Unbatched(us[1..], n), m, p)
        + (if Sits(us[0], m, p) && !Sits(us[0], n, InSink) then 1 else 0)
    {
      LoadConcat([us[0]], Unbatched(us[1..], n), m, p);
      LoadOne(us[0], m, p);
      assert [] + Unbatched(us[1..], n) == Unbatched(us[1..], n);
    }
  }

  function Limit(net: Net, n: string, p: Place): nat
    requires Well(net) && n in net.out
  {
    match p
    case Channel => net.cap[n]
    case Worker => net.workers[n]
    case InSink => net.size[n]
  }

  ghost predicate Within(net: Net, us: seq<Unit>)
    requires Well(net)
  {
    forall n, p :: n in net.out ==> Load(us, n, p) <= Limit(net, n, p)
  }

  /** One unit gives way to others that add to a load only where there is room. */
  lemma SwapWithin(net: Net, us: seq<Unit>, k: nat, news: seq<Unit>)
    requires Well(net) && Within(net, us) && k < |us|
    requires forall n, p :: n in net.out ==>
      Load(news, n, p) <= (if Sits(us[k], n, p) then 1 else 0)
      || (Load(news, n, p) <= 1 && Load(us, n, p) < Limit(net, n, p))
    ensures Within(net, Swap(us, k, news))
  {
    forall n, p | n in net.out ensures Load(Swap(us, k, news), n, p) <= Limit(net, n, p) {
      LoadSwap(us, k, news, n, p);
    }
  }

  lemma LoadTwo(u: Unit, v: Unit, n: string, p: Place)
    ensures Load([u, v], n, p) == (if Sits(u, n, p) then 1 else 0) + (if Sits(v, n, p) then 1 else 0)
  {
    assert [u, v] == [u] + [v];
    LoadConcat([u], [v], n, p);
    LoadOne(u, n, p);
    LoadOne(v, n, p);
  }

  lemma TakeWithin(net: Net, s: State, k: nat)
    requires Well(net) && StateOk(net, s) && Enabled(net, s, Take(k)) && Within(net, s.units)
    ensures Within(net, Step(net, s, Take(k)).units)
  {
    var n := s.units[k].node;
    var news := Taken(net, n, s.units[k].msg).0;
    CountsAre(s.units, n);
    forall m, p | m in net.out && news != [] ensures Load(news, m, p) == if m == n && p == Worker then 1 else 0 {
      LoadOne(news[0], m, p);
    }
    SwapWithin(net, s.units, k, news);
  }

  lemma HandWithin(net: Net, s: State, k: nat)
    requires Well(net) && StateOk(net, s) && Enabled(net, s, Hand(k)) && Within(net, s.units)
    ensures Within(net, Step(net, s, Hand(k)).units)
  {
    var u := s.units[k];
    var news := [u.(handing := u.handing[1..]), InChan(u.handing[0], u.msg)];
    CountsAre(s.units, u.handing[0]);
    forall m, p
      ensures Load(news, m, p) ==
              (if Sits(u, m, p) then 1 else 0) + (if m == u.handing[0] && p == Channel then 1 else 0)
    {
      LoadTwo(news[0], news[1], m, p);
    }
    SwapWithin(net, s.units, k, news);
  }

  lemma BatchWithin(net: Net, s: State, k: nat)
    requires Well(net) && StateOk(net, s) && Enabled(net, s, Batch(k)) && Within(net, s.units)
    ensures Within(net, Step(net, s, Batch(k)).units)
  {
    var news := [InBatch(s.units[k].node, s.units[k].msg)];
    CountsAre(s.units, s.units[k].node);
    forall m, p ensures Load(news, m, p) == if m == s.units[k].node && p == InSink then 1 else 0 {
      LoadOne(news[0], m, p);
    }
    SwapWithin(net, s.units, k, news);
  }

  lemma FanOutWithin(net: Net, s: State, k: nat)
    requires Well(net) && StateOk(net, s) && Enabled(net, s, FanOut(k)) && Within(net, s.units)
    ensures Within(net, Step(net, s, FanOut(k)).units)
  {
    var news := Fanned(net, s.units[k]).0;
    forall m, p ensures Load(news, m, p) == if Sits(s.units[k], m, p) then 1 else 0 { LoadOne(news[0], m, p); }
    SwapWithin(net, s.units, k, news);
  }

  lemma StepWithin(net: Net, s: State, e: Event)
    requires Well(net) && StateOk(net, s) && Enabled(net, s, e) && Within(net, s.units)
    ensures Within(net, Step(net, s, e).units)
  {
    match e
    case Admit(n, m, into) =>
      var u := if into then Busy("", false, [], [n], m) else Busy(n, false, [m], [], m);
      forall k, p ensures Load(s.units + [u], k, p) == Load(s.units, k, p) {
        LoadConcat(s.units, [u], k, p);
        LoadOne(u, k, p);
      }
    case Take(k) => TakeWithin(net, s, k);
    case FanOut(k) => FanOutWithin(net, s, k);
    case Hand(k) => HandWithin(net, s, k);
    case Finish(k) => SwapWithin(net, s.units, k, []);
    case Batch(k) => BatchWithin(net, s, k);
    case Flush(n) => CountsAre(s.units, n);
  }

  lemma {:induction false} RunWithin(net: Net, s: State, es: seq<Event>, s': State)
    requires Well(net) && StateOk(net, s) && After(net, s, es) == Reached(s') && Within(net, s.units)
    ensures Within(net, s'.units)
    decreases |es|
  {
    if es != [] {
      if es[0].Admit? { AdmitKeeps(net, s, es[0]); } else { StepKeeps(net, s, es[0]); }
      StepWithin(net, s, es[0]);
      RunWithin(net, Step(net, s, es[0]), es[1..], s');
    }
  }

  /**
   In every reachable state a node's channel holds at most its capacity, no more of its
   workers are busy than it has, and its batch is no larger than its size.
   */
  lemma BoundsAreKept(net: Net, es: seq<Event>, s: State, n: string)
    requires Well(net) && After(net, Empty, es) == Reached(s) && n in net.out
    ensures |set i | 0 <= i < |s.units| && s.units[i].InChan? && s.units[i].node == n| <= net.cap[n]
    ensures |set i | 0 <= i < |s.units| && s.units[i].Busy? && s.units[i].worker && s.units[i].node == n| <=
            net.workers[n]
    ensures |set i | 0 <= i < |s.units| && s.units[i].InBatch? && s.units[i].node == n| <= net.size[n]
  {
    RunWithin(net, Empty, es, s);
    LoadIs(s.units, n, Channel);
    LoadIs(s.units, n, Worker);
    LoadIs(s.units, n, InSink);
    assert (set i | 0 <= i < |s.units| && s.units[i].InChan? && s.units[i].node == n) ==
           (set i | 0 <= i < |s.units| && Sits(s.units[i], n, Channel));
    assert (set i | 0 <= i < |s.units| && s.units[i].Busy? && s.units[i].worker && s.units[i].node == n) ==
           (set i | 0 <= i < |s.units| && Sits(s.units[i], n, Worker));
    assert (set i | 0 <= i < |s.units| && s.units[i].InBatch? && s.units[i].node == n) ==
           (set i | 0 <= i < |s.units| && Sits(s.units[i], n, InSink));
  }
}
