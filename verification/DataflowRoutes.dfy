/**
 What the outcomes of a graph are, without recursion: each is the end of a route over edges
 whose conditions hold, and every such route's end is an outcome.
 */
module DataflowRoutes {
  import opened Dataflow
  import opened DataflowRuns

  // --- the targets of a message ---

  /** The positions of the edges a message leaves a node on, in declaration order. */
  ghost predicate Positions(net: Net, n: string, from: nat, m: Msg, ps: seq<nat>)
    requires n in net.out
  {
    && (forall i, j :: 0 <= i < j < |ps| ==> ps[i] < ps[j])
    && (forall j: nat :: j in ps <==> from <= j < |net.out[n]| && net.passes(n, j, m))
  }

  lemma {:induction false} PositionsFrom(net: Net, n: string, from: nat, m: Msg) returns (ps: seq<nat>)
    requires n in net.out
    ensures Positions(net, n, from, m, ps) && |ps| == |MatchedFrom(net, n, from, m)|
    ensures forall i :: 0 <= i < |ps| ==> ps[i] < |net.out[n]| && MatchedFrom(net, n, from, m)[i] == net.out[n][ps[i]]
    decreases |net.out[n]| - from
  {
    if from >= |net.out[n]| { return []; }
    var more := PositionsFrom(net, n, from + 1, m);
    if net.passes(n, from, m) {
      ps := [from] + more;
      PositionsCons(net, n, from, m, more);
    } else {
      ps := more;
      assert [] + MatchedFrom(net, n, from + 1, m) == MatchedFrom(net, n, from + 1, m);
    }
  }

  lemma PositionsCons(net: Net, n: string, from: nat, m: Msg, more: seq<nat>)
    requires n in net.out && from < |net.out[n]| && net.passes(n, from, m) && Positions(net, n, from + 1, m, more)
    ensures Positions(net, n, from, m, [from] + more)
  {
    var ps := [from] + more;
    assert forall i :: 1 <= i < |ps| ==> ps[i] == more[i - 1] && ps[i] in more;
    assert forall j :: j in ps <==> j == from || j in more;
  }

  /**
   A message leaves a node on exactly the out-edges whose condition holds for it: each once,
   in declaration order.
   */
  lemma MatchedEdges(net: Net, n: string, m: Msg) returns (ps: seq<nat>)
    requires Well(net) && n in net.out
    ensures forall i, j :: 0 <= i < j < |ps| ==> ps[i] < ps[j]
    ensures forall j: nat :: j in ps <==> j < |net.out[n]| && net.passes(n, j, m)
    ensures |Matched(net, n, m)| == |ps|
    ensures forall i :: 0 <= i < |ps| ==> ps[i] < |net.out[n]| && Matched(net, n, m)[i] == net.out[n][ps[i]]
  {
    ps := PositionsFrom(net, n, 0, m);
  }

  // --- routes ---

  datatype Arrival = Arrival(node: string, msg: Msg)

  /** Message x leaves the node of an arrival: the source's own, or one of the transform's outputs. */
  ghost predicate Leaves(net: Net, a: Arrival, x: Msg)
    requires a.node in net.kinds
  {
    || (net.kinds[a.node].Source? && x == a.msg)
    || (net.kinds[a.node].Transform? && net.apply(a.node, a.msg).Outputs? && x in net.apply(a.node, a.msg).outs)
  }

  /** It goes on over the j-th edge, whose condition holds for it. */
  ghost predicate Crosses(net: Net, a: Arrival, j: nat, b: Arrival)
    requires a.node in net.kinds && a.node in net.out
  {
    Leaves(net, a, b.msg) && j < |net.out[a.node]| && net.passes(a.node, j, b.msg) && b.node == net.out[a.node][j]
  }

  ghost predicate Hops(net: Net, a: Arrival, b: Arrival) {
    a.node in net.kinds && a.node in net.out && exists j: nat :: Crosses(net, a, j, b)
  }

  ghost predicate Route(net: Net, r: seq<Arrival>) {
    r != [] && forall i :: 0 <= i < |r| - 1 ==> Hops(net, r[i], r[i + 1])
  }

  /** No edge of the node lets the message through. */
  ghost predicate NoEdge(net: Net, n: string, x: Msg)
    requires n in net.out
  {
    forall j: nat :: j < |net.out[n]| ==> !net.passes(n, j, x)
  }

  /** An outcome where a route stops. */
  ghost predicate Stops(net: Net, a: Arrival, o: Outcome) {
    a.node in net.kinds && a.node in net.out &&
    match net.kinds[a.node]
    case Sink => o == Delivered(a.node, a.msg)
    case Source => o == Filtered(a.node, a.msg) && NoEdge(net, a.node, a.msg)
    case Transform =>
      match net.apply(a.node, a.msg)
      case Failed => o == DeadLettered(a.node, a.msg)
      case Outputs(outs) =>
        || (outs == [] && o == Filtered(a.node, a.msg))
        || exists x :: x in outs && o == Filtered(a.node, x) && NoEdge(net, a.node, x)
  }

  lemma NoEdgeIff(net: Net, n: string, x: Msg)
    requires Well(net) && n in net.out
    ensures NoEdge(net, n, x) <==> Matched(net, n, x) == []
  {
    var ps := MatchedEdges(net, n, x);
    if ps != [] { assert ps[0] in ps; }
  }

  // --- every outcome has a route ---

  /** A route on from a message that leaves node a. */
  ghost predicate GoesOn(net: Net, a: Arrival, x: Msg, r: seq<Arrival>, o: Outcome)
    requires a.node in net.out
  {
    if NoEdge(net, a.node, x) then o == Filtered(a.node, x) && r == []
    else Route(net, r) && r[0].msg == x && Stops(net, r[|r| - 1], o)
         && exists j: nat :: j < |net.out[a.node]| && net.passes(a.node, j, x) && r[0].node == net.out[a.node][j]
  }

  lemma {:induction false} SendsRoute(net: Net, b: nat, ts: seq<string>, x: Msg, o: Outcome)
    returns (i: nat, r: seq<Arrival>)
    requires Well(net) && Below(net, b, ts) && o in Sends(net, b, ts, x)
    ensures i < |ts| && Route(net, r) && r[0] == Arrival(ts[i], x) && Stops(net, r[|r| - 1], o)
    decreases b, 0, |ts|
  {
    if o in Into(net, ts[0], x) {
      i := 0;
      r := IntoRoute(net, ts[0], x, o);
    } else {
      i, r := SendsRoute(net, b, ts[1..], x, o);
      i := i + 1;
    }
  }

  lemma {:induction false} FanRoute(net: Net, a: Arrival, x: Msg, o: Outcome) returns (r: seq<Arrival>)
    requires Well(net) && a.node in net.out && o in Fan(net, a.node, x)
    ensures GoesOn(net, a, x, r, o)
    decreases Rank(net, a.node), 1, 0
  {
    NoEdgeIff(net, a.node, x);
    var ts := Matched(net, a.node, x);
    if ts == [] { return []; }
    var i;
    i, r := SendsRoute(net, Rank(net, a.node), ts, x, o);
    var ps := MatchedEdges(net, a.node, x);
    assert ps[i] in ps && r[0].node == net.out[a.node][ps[i]];
  }

  lemma {:induction false} FansRoute(net: Net, a: Arrival, outs: seq<Msg>, o: Outcome)
    returns (x: Msg, r: seq<Arrival>)
    requires Well(net) && a.node in net.out && o in Fans(net, a.node, outs)
    ensures x in outs && GoesOn(net, a, x, r, o)
    decreases Rank(net, a.node), 2, |outs|
  {
    if o in Fan(net, a.node, outs[0]) {
      x := outs[0];
      r := FanRoute(net, a, x, o);
    } else {
      x, r := FansRoute(net, a, outs[1..], o);
    }
  }

  /** Putting a node before the route its message goes on. */
  lemma Prepend(net: Net, a: Arrival, x: Msg, r: seq<Arrival>, o: Outcome) returns (r': seq<Arrival>)
    requires Well(net) && a.node in net.out && Leaves(net, a, x) && GoesOn(net, a, x, r, o)
    ensures Route(net, r') && r'[0] == a && Stops(net, r'[|r'| - 1], o)
  {
    r' := [a] + r;
    if r != [] {
      var j: nat :| j < |net.out[a.node]| && net.passes(a.node, j, x) && r[0].node == net.out[a.node][j];
      assert Crosses(net, a, j, r[0]);
      forall i | 0 <= i < |r'| - 1 ensures Hops(net, r'[i], r'[i + 1]) {
        if i > 0 { assert r'[i] == r[i - 1] && r'[i + 1] == r[i]; }
      }
      assert r'[|r'| - 1] == r[|r| - 1];
    }
  }

  lemma {:induction false} IntoRoute(net: Net, n: string, m: Msg, o: Outcome) returns (r: seq<Arrival>)
    requires Well(net) && n in net.out && o in Into(net, n, m)
    ensures Route(net, r) && r[0] == Arrival(n, m) && Stops(net, r[|r| - 1], o)
    decreases Rank(net, n), 3, 0
  {
    var a := Arrival(n, m);
    match net.kinds[n]
    case Sink => r := [a];
    case Source =>
      r := FanRoute(net, a, m, o);
      r := Prepend(net, a, m, r, o);
    case Transform =>
      var applied := net.apply(n, m);
      if applied.Failed? || applied.outs == [] { return [a]; }
      var x;
      x, r := FansRoute(net, a, applied.outs, o);
      r := Prepend(net, a, x, r, o);
  }

  // --- every route's end is an outcome ---

  lemma {:induction false} InSends(net: Net, b: nat, ts: seq<string>, i: nat, x: Msg, o: Outcome)
    requires Well(net) && Below(net, b, ts) && i < |ts| && o in Into(net, ts[i], x)
    ensures o in Sends(net, b, ts, x)
    decreases |ts|
  {
    if i > 0 { InSends(net, b, ts[1..], i - 1, x, o); }
  }

  lemma InFan(net: Net, n: string, j: nat, x: Msg, o: Outcome)
    requires Well(net) && n in net.out && j < |net.out[n]| && net.passes(n, j, x)
    requires net.out[n][j] in net.out && o in Into(net, net.out[n][j], x)
    ensures o in Fan(net, n, x)
  {
    var ps := MatchedEdges(net, n, x);
    assert j in ps;
    var i :| 0 <= i < |ps| && ps[i] == j;
    InSends(net, Rank(net, n), Matched(net, n, x), i, x, o);
  }

  lemma {:induction false} InFans(net: Net, n: string, outs: seq<Msg>, x: Msg, o: Outcome)
    requires Well(net) && n in net.out && x in outs && o in Fan(net, n, x)
    ensures o in Fans(net, n, outs)
    decreases |outs|
  {
    if x != outs[0] { InFans(net, n, outs[1..], x, o); }
  }

  lemma LeavesInto(net: Net, a: Arrival, x: Msg, o: Outcome)
    requires Well(net) && a.node in net.out && Leaves(net, a, x) && o in Fan(net, a.node, x)
    ensures o in Into(net, a.node, a.msg)
  {
    if net.kinds[a.node].Transform? { InFans(net, a.node, net.apply(a.node, a.msg).outs, x, o); }
  }

  lemma StopInto(net: Net, a: Arrival, o: Outcome)
    requires Well(net) && Stops(net, a, o)
    ensures o in Into(net, a.node, a.msg)
  {
    if net.kinds[a.node].Source? {
      NoEdgeIff(net, a.node, a.msg);
      LeavesInto(net, a, a.msg, o);
    } else if net.kinds[a.node].Transform? && net.apply(a.node, a.msg).Outputs? && net.apply(a.node, a.msg).outs != [] {
      var x :| x in net.apply(a.node, a.msg).outs && o == Filtered(a.node, x) && NoEdge(net, a.node, x);
      NoEdgeIff(net, a.node, x);
      LeavesInto(net, a, x, o);
    }
  }

  lemma {:induction false} RouteInto(net: Net, r: seq<Arrival>, o: Outcome)
    requires Well(net) && Route(net, r) && Stops(net, r[|r| - 1], o) && r[0].node in net.out
    ensures o in Into(net, r[0].node, r[0].msg)
    decreases |r|
  {
    if |r| == 1 {
      StopInto(net, r[0], o);
    } else {
      assert Hops(net, r[0], r[1]);
      var j: nat :| Crosses(net, r[0], j, r[1]);
      EdgesGoDown(net, r[0].node);
      forall i | 0 <= i < |r[1..]| - 1 ensures Hops(net, r[1..][i], r[1..][i + 1]) {
        assert r[1..][i] == r[i + 1] && r[1..][i + 1] == r[i + 2];
      }
      RouteInto(net, r[1..], o);
      InFan(net, r[0].node, j, r[1].msg, o);
      LeavesInto(net, r[0], r[1].msg, o);
    }
  }

  // --- the theorems ---

  /** The recursive meaning, as a set: an outcome of a message is the end of one of its routes. */
  lemma IntoIffRoute(net: Net, n: string, m: Msg, o: Outcome)
    requires Well(net) && n in net.out
    ensures o in Into(net, n, m) <==>
              exists r :: Route(net, r) && r[0] == Arrival(n, m) && Stops(net, r[|r| - 1], o)
  {
    if o in Into(net, n, m) { var r := IntoRoute(net, n, m, o); }
    if r :| Route(net, r) && r[0] == Arrival(n, m) && Stops(net, r[|r| - 1], o) { RouteInto(net, r, o); }
  }

  /** A message that no edge of its source lets through is filtered there, and nothing else comes of it. */
  lemma UnmatchedIsFiltered(net: Net, n: string, m: Msg)
    requires Well(net) && n in net.out && NoEdge(net, n, m)
    ensures Fan(net, n, m) == multiset{Filtered(n, m)}
  {
    NoEdgeIff(net, n, m);
  }

  /**
   Whatever the interleaving, at rest the outcomes are exactly the ends of the routes of the
   messages admitted.
   */
  lemma OutcomesAreRoutes(net: Net, es: seq<Event>, s: State, o: Outcome)
    requires Well(net) && After(net, Empty, es) == Reached(s) && s.units == []
    ensures o in s.done <==>
              exists k, r :: 0 <= k < |es| && es[k].Admit? && Route(net, r) &&
                             r[0] == Arrival(es[k].node, es[k].msg) && Stops(net, r[|r| - 1], o)
  {
    ScheduleIndependence(net, es, s);
    AdmittedIff(net, Empty, es, s, o);
    if k :| 0 <= k < |es| && Brings(net, es[k], o) {
      IntoIffRoute(net, es[k].node, es[k].msg, o);
    }
    if k, r :| 0 <= k < |es| && es[k].Admit? && Route(net, r) && r[0] == Arrival(es[k].node, es[k].msg) &&
               Stops(net, r[|r| - 1], o) {
      StartsInNet(net, r, o);
      IntoIffRoute(net, es[k].node, es[k].msg, o);
      assert Brings(net, es[k], o);
    }
  }

  lemma StartsInNet(net: Net, r: seq<Arrival>, o: Outcome)
    requires Route(net, r) && Stops(net, r[|r| - 1], o)
    ensures r[0].node in net.out
  {
    if |r| > 1 { assert Hops(net, r[0], r[1]); }
  }

  lemma {:induction false} AdmittedIff(net: Net, s: State, es: seq<Event>, s': State, o: Outcome)
    requires Well(net) && StateOk(net, s) && After(net, s, es) == Reached(s')
    ensures o in Admitted(net, es) <==> exists k :: 0 <= k < |es| && Brings(net, es[k], o)
    decreases |es|
  {
    if es != [] {
      if es[0].Admit? { AdmitKeeps(net, s, es[0]); } else { StepKeeps(net, s, es[0]); }
      AdmittedIff(net, Step(net, s, es[0]), es[1..], s', o);
      if es[0].Admit? { assert Brings(net, es[0], o) <==> o in Meaning(net, es[0]); }
      BroughtCons(net, es, o);
    }
  }

  /** The admission's message has this outcome. */
  ghost predicate Brings(net: Net, e: Event, o: Outcome)
    requires Well(net)
  {
    e.Admit? && e.node in net.out && o in Into(net, e.node, e.msg)
  }

  lemma BroughtCons(net: Net, es: seq<Event>, o: Outcome)
    requires Well(net) && es != []
    ensures (exists k :: 0 <= k < |es| && Brings(net, es[k], o)) <==>
              Brings(net, es[0], o) || exists k :: 0 <= k < |es[1..]| && Brings(net, es[1..][k], o)
  {
    if k :| 0 <= k < |es| && Brings(net, es[k], o) {
      if k > 0 { assert es[1..][k - 1] == es[k]; }
    }
    if k :| 0 <= k < |es[1..]| && Brings(net, es[1..][k], o) { assert es[k + 1] == es[1..][k]; }
  }
}
