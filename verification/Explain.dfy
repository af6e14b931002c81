/**
 The dry-run walk (internal/explain/explain.go) against the meaning the engine realises.
 A walk follows the first output of a transform only, passes a message unchanged through a
 transform that is not dry-run, and prints nothing at a node without out-edges.
 */
module Explain {
  import opened Dataflow

  /** The outcomes a walk into a node describes. */
  ghost function Explained(net: Net, dry: set<string>, n: string, m: Msg): multiset<Outcome>
    requires Well(net) && n in net.out
    decreases Rank(net, n), 2, 0
  {
    match net.kinds[n]
    case Sink => multiset{Delivered(n, m)}
    case Source => ExplainedFan(net, dry, n, m)
    case Transform =>
      if n !in dry then ExplainedFan(net, dry, n, m)
      else
        match net.apply(n, m)
        case Failed => multiset{DeadLettered(n, m)}
        case Outputs(outs) => if outs == [] then multiset{Filtered(n, m)} else ExplainedFan(net, dry, n, outs[0])
  }

  ghost function ExplainedFan(net: Net, dry: set<string>, n: string, m: Msg): multiset<Outcome>
    requires Well(net) && n in net.out
    decreases Rank(net, n), 1, 0
  {
    var ts := Matched(net, n, m);
    if net.out[n] == [] then multiset{}
    else if ts == [] then multiset{Filtered(n, m)}
    else ExplainedSends(net, dry, Rank(net, n), ts, m)
  }

  ghost function ExplainedSends(net: Net, dry: set<string>, b: nat, ts: seq<string>, m: Msg): multiset<Outcome>
    requires Well(net) && Below(net, b, ts)
    decreases b, 0, |ts|
  {
    if ts == [] then multiset{} else Explained(net, dry, ts[0], m) + ExplainedSends(net, dry, b, ts[1..], m)
  }

  // --- the walk itself ---

  /** Walk one node: dry-run it, judge each edge once, then recurse into the matched ones. */
  method Walk(net: Net, dry: set<string>, n: string, m: Msg) returns (lines: seq<Outcome>)
    requires Well(net) && n in net.out && !net.kinds[n].Sink?
    ensures multiset(lines) == Explained(net, dry, n, m)
    decreases Rank(net, n), 2
  {
    var msg := m;
    if net.kinds[n].Transform? && n in dry {
      var applied := net.apply(n, m);
      if applied.Failed? { return [DeadLettered(n, m)]; }
      if |applied.outs| == 0 { return [Filtered(n, m)]; }
      msg := applied.outs[0];
    }
    lines := WalkEdges(net, dry, n, msg);
  }

  method WalkEdges(net: Net, dry: set<string>, n: string, msg: Msg) returns (lines: seq<Outcome>)
    requires Well(net) && n in net.out
    ensures multiset(lines) == ExplainedFan(net, dry, n, msg)
    decreases Rank(net, n), 1
  {
    var matched, evals := Judge(net, n, msg);
    if matched == 0 {
      lines := if |net.out[n]| > 0 then [Filtered(n, msg)] else [];
    } else {
      lines := WalkMatched(net, dry, n, msg, evals);
    }
  }

  method WalkMatched(net: Net, dry: set<string>, n: string, msg: Msg, evals: seq<bool>) returns (lines: seq<Outcome>)
    requires Well(net) && n in net.out
    requires |evals| == |net.out[n]| && forall i :: 0 <= i < |evals| ==> evals[i] == net.passes(n, i, msg)
    ensures multiset(lines) == ExplainedSends(net, dry, Rank(net, n), Matched(net, n, msg), msg)
    decreases Rank(net, n), 0
  {
    ghost var ts := Matched(net, n, msg);
    lines := [];
    ghost var k: nat := 0;
    assert ts[k..] == ts;
    for j := 0 to |net.out[n]|
      invariant k <= |ts| && MatchedFrom(net, n, j, msg) == ts[k..]
      invariant Followed(net, dry, Rank(net, n), ts, k, msg, multiset(lines))
    {
      if evals[j] {
        NextMatched(net, n, j, msg, ts, k);
        var more := WalkOn(net, dry, Rank(net, n), net.out[n][j], msg);
        FollowOne(net, dry, Rank(net, n), ts, k, msg, multiset(lines), multiset(more));
        lines := lines + more;
        k := k + 1;
      }
    }
    assert ts[k..] == [];
  }

  /** Sinks are described, not executed; anything else is walked. */
  method WalkOn(net: Net, dry: set<string>, ghost b: nat, t: string, msg: Msg) returns (lines: seq<Outcome>)
    requires Well(net) && t in net.out && Rank(net, t) < b
    ensures multiset(lines) == Explained(net, dry, t, msg)
    decreases Rank(net, t), 3
  {
    if net.kinds[t].Sink? { return [Delivered(t, msg)]; }
    lines := Walk(net, dry, t, msg);
  }

  lemma NextMatched(net: Net, n: string, j: nat, m: Msg, ts: seq<string>, k: nat)
    requires Well(net) && n in net.out && j < |net.out[n]| && net.passes(n, j, m)
    requires k <= |ts| && MatchedFrom(net, n, j, m) == ts[k..]
    ensures k < |ts| && ts[k] == net.out[n][j] && MatchedFrom(net, n, j + 1, m) == ts[k + 1..]
  {
    assert ts[k..] == [net.out[n][j]] + MatchedFrom(net, n, j + 1, m);
    assert ts[k] == ts[k..][0] && ts[k + 1..] == ts[k..][1..];
  }

  /** What was printed and what the remaining matched edges would print make up the whole. */
  ghost predicate Followed(net: Net, dry: set<string>, b: nat, ts: seq<string>, k: nat, m: Msg,
                           lines: multiset<Outcome>)
    requires Well(net) && Below(net, b, ts)
  {
    k <= |ts| && lines + ExplainedSends(net, dry, b, ts[k..], m) == ExplainedSends(net, dry, b, ts, m)
  }

  lemma FollowOne(net: Net, dry: set<string>, b: nat, ts: seq<string>, k: nat, m: Msg, lines: multiset<Outcome>,
                  more: multiset<Outcome>)
    requires Well(net) && Below(net, b, ts) && k < |ts| && Followed(net, dry, b, ts, k, m, lines)
    requires more == Explained(net, dry, ts[k], m)
    ensures Followed(net, dry, b, ts, k + 1, m, lines + more)
  {
    assert ts[k..][1..] == ts[k + 1..];
    AddsUp(lines, more, ExplainedSends(net, dry, b, ts[k + 1..], m));
  }

  /** Evaluate each edge's condition exactly once. */
  method Judge(net: Net, n: string, msg: Msg) returns (matched: nat, evals: seq<bool>)
    requires Well(net) && n in net.out
    ensures matched == |Matched(net, n, msg)|
    ensures |evals| == |net.out[n]| && forall i :: 0 <= i < |evals| ==> evals[i] == net.passes(n, i, msg)
  {
    matched, evals := 0, [];
    for j := 0 to |net.out[n]|
      invariant |evals| == j && forall i :: 0 <= i < j ==> evals[i] == net.passes(n, i, msg)
      invariant matched + |MatchedFrom(net, n, j, msg)| == |Matched(net, n, msg)|
    {
      var passed := net.passes(n, j, msg);
      if passed { matched := matched + 1; }
      evals := evals + [passed];
    }
  }

  // --- against the meaning ---

  /** No transform the message meets has two outputs, and no node it leaves is a dead end. */
  ghost predicate Linear(net: Net, n: string, m: Msg)
    requires Well(net) && n in net.out
    decreases Rank(net, n), 2, 0
  {
    match net.kinds[n]
    case Sink => true
    case Source => LinearFan(net, n, m)
    case Transform =>
      match net.apply(n, m)
      case Failed => true
      case Outputs(outs) => outs == [] || (|outs| == 1 && LinearFan(net, n, outs[0]))
  }

  ghost predicate LinearFan(net: Net, n: string, m: Msg)
    requires Well(net) && n in net.out
    decreases Rank(net, n), 1, 0
  {
    net.out[n] != [] && LinearSends(net, Rank(net, n), Matched(net, n, m), m)
  }

  ghost predicate LinearSends(net: Net, b: nat, ts: seq<string>, m: Msg)
    requires Well(net) && Below(net, b, ts)
    decreases b, 0, |ts|
  {
    ts == [] || (Linear(net, ts[0], m) && LinearSends(net, b, ts[1..], m))
  }

  /** The first is part of the second, all of it exactly when `whole`. */
  ghost predicate PartOf(a: multiset<Outcome>, b: multiset<Outcome>, whole: bool) {
    a <= b && (whole <==> a == b)
  }

  lemma PartsAdd(a: multiset<Outcome>, b: multiset<Outcome>, p: bool, c: multiset<Outcome>, d: multiset<Outcome>,
                 q: bool)
    requires PartOf(a, b, p) && PartOf(c, d, q)
    ensures PartOf(a + c, b + d, p && q)
  {
    if a + c == b + d {
      assert forall o :: a[o] <= b[o] && c[o] <= d[o];
      assert forall o :: (a + c)[o] == a[o] + c[o] && (b + d)[o] == b[o] + d[o];
      assert forall o :: a[o] == b[o] && c[o] == d[o];
    }
  }

  /** Every message ends somewhere. */
  lemma {:induction false} FanEnds(net: Net, n: string, m: Msg)
    requires Well(net) && n in net.out
    ensures Fan(net, n, m) != multiset{}
    decreases Rank(net, n), 0
  {
    var ts := Matched(net, n, m);
    if ts != [] { IntoEnds(net, ts[0], m); }
  }

  lemma {:induction false} IntoEnds(net: Net, n: string, m: Msg)
    requires Well(net) && n in net.out
    ensures Into(net, n, m) != multiset{}
    decreases Rank(net, n), 1
  {
    if net.kinds[n].Source? { FanEnds(net, n, m); }
    if net.kinds[n].Transform? && net.apply(n, m).Outputs? && net.apply(n, m).outs != [] {
      FanEnds(net, n, net.apply(n, m).outs[0]);
    }
  }

  /**
   With every transform dry-run, a walk never describes an outcome the engine would not
   produce, and describes all of them if and only if each transform the message meets
   yields at most one output and each node it leaves has an out-edge.
   */
  lemma {:induction false} ExplainIsMeaningIff(net: Net, dry: set<string>, n: string, m: Msg)
    requires Well(net) && n in net.out
    requires forall t :: t in net.kinds && net.kinds[t].Transform? ==> t in dry
    ensures PartOf(Explained(net, dry, n, m), Into(net, n, m), Linear(net, n, m))
    decreases Rank(net, n), 2, 0
  {
    match net.kinds[n]
    case Sink =>
    case Source => FanPart(net, dry, n, m);
    case Transform =>
      match net.apply(n, m) {
        case Failed =>
        case Outputs(outs) =>
          if outs != [] {
            FanPart(net, dry, n, outs[0]);
            OutputsPart(net, n, outs, ExplainedFan(net, dry, n, outs[0]));
          }
      }
  }

  /** Any output past the first adds outcomes the walk does not see. */
  lemma OutputsPart(net: Net, n: string, outs: seq<Msg>, seen: multiset<Outcome>)
    requires Well(net) && n in net.out && outs != []
    requires PartOf(seen, Fan(net, n, outs[0]), LinearFan(net, n, outs[0]))
    ensures PartOf(seen, Fans(net, n, outs), |outs| == 1 && LinearFan(net, n, outs[0]))
  {
    var rest := Fans(net, n, outs[1..]);
    if |outs| == 1 {
      assert outs[1..] == [];
    } else {
      FanEnds(net, n, outs[1]);
      assert rest == Fan(net, n, outs[1]) + Fans(net, n, outs[1..][1..]);
    }
    assert PartOf(multiset{}, rest, |outs| == 1);
    PartsAdd(seen, Fan(net, n, outs[0]), LinearFan(net, n, outs[0]), multiset{}, rest, |outs| == 1);
    assert seen + multiset{} == seen;
  }

  lemma {:induction false} FanPart(net: Net, dry: set<string>, n: string, m: Msg)
    requires Well(net) && n in net.out
    requires forall t :: t in net.kinds && net.kinds[t].Transform? ==> t in dry
    ensures PartOf(ExplainedFan(net, dry, n, m), Fan(net, n, m), LinearFan(net, n, m))
    decreases Rank(net, n), 1, 0
  {
    FanEnds(net, n, m);
    SendsPart(net, dry, Rank(net, n), Matched(net, n, m), m);
  }

  lemma {:induction false} SendsPart(net: Net, dry: set<string>, b: nat, ts: seq<string>, m: Msg)
    requires Well(net) && Below(net, b, ts)
    requires forall t :: t in net.kinds && net.kinds[t].Transform? ==> t in dry
    ensures PartOf(ExplainedSends(net, dry, b, ts, m), Sends(net, b, ts, m), LinearSends(net, b, ts, m))
    decreases b, 0, |ts|
  {
    if ts != [] {
      ExplainIsMeaningIff(net, dry, ts[0], m);
      SendsPart(net, dry, b, ts[1..], m);
      PartsAdd(Explained(net, dry, ts[0], m), Into(net, ts[0], m), Linear(net, ts[0], m),
               ExplainedSends(net, dry, b, ts[1..], m), Sends(net, b, ts[1..], m), LinearSends(net, b, ts[1..], m));
    }
  }

  /** A transform that splits each message in two, before one sink. */
  const Split := Net(map["t" := Transform, "k" := Sink], map["t" := ["k"], "k" := []],
                     (n, j, m) => true, (n, m) => Outputs([m, m]),
                     map["t" := 1, "k" := 1], map["t" := 1, "k" := 1], map["t" := 1, "k" := 1], ["k", "t"])

  lemma SplitIsWell()
    ensures Well(Split)
  {
    assert ["k", "t"][..1] == ["k"];
    assert Split.out["t"] == ["k"] && Split.out["k"] == [];
  }

  /** The second half of a split message is delivered and never explained. */
  lemma SplitIsHalfExplained(m: Msg)
    ensures Well(Split) && Explained(Split, {"t"}, "t", m) < Into(Split, "t", m)
  {
    SplitIsWell();
    assert Split.apply("t", m) == Outputs([m, m]) && |[m, m]| == 2;
    assert !Linear(Split, "t", m);
    ExplainIsMeaningIff(Split, {"t"}, "t", m);
  }

  // --- transforms that are not dry-run ---

  /** Of what a transform returns, the first message. */
  function FirstOf(a: Applied): Applied { if a.Outputs? && a.outs != [] then Outputs([a.outs[0]]) else a }

  /**
   The graph as a walk takes it: a transform that is dry-run returns its first output only,
   any other passes messages through.
   */
  function Shown(net: Net, dry: set<string>): Net {
    net.(apply := (n, m) => if n in dry then FirstOf(net.apply(n, m)) else Outputs([m]))
  }

  lemma ShownWell(net: Net, dry: set<string>)
    requires Well(net)
    ensures Well(Shown(net, dry))
  {}

  /** A walk explains the graph it takes this one for. */
  lemma {:induction false} ExplainsShown(net: Net, dry: set<string>, n: string, m: Msg)
    requires Well(net) && n in net.out
    ensures Well(Shown(net, dry))
    ensures Explained(net, dry, n, m) == Explained(Shown(net, dry), net.kinds.Keys, n, m)
    decreases Rank(net, n), 2, 0
  {
    ShownWell(net, dry);
    match net.kinds[n]
    case Sink =>
    case Source => FanShown(net, dry, n, m);
    case Transform =>
      if n !in dry {
        FanShown(net, dry, n, m);
      } else if net.apply(n, m).Outputs? && net.apply(n, m).outs != [] {
        FanShown(net, dry, n, net.apply(n, m).outs[0]);
      }
  }

  lemma {:induction false} FanShown(net: Net, dry: set<string>, n: string, m: Msg)
    requires Well(net) && n in net.out && Well(Shown(net, dry))
    ensures ExplainedFan(net, dry, n, m) == ExplainedFan(Shown(net, dry), net.kinds.Keys, n, m)
    decreases Rank(net, n), 1, 0
  {
    MatchedShown(net, dry, n, 0, m);
    SendsShown(net, dry, Rank(net, n), Matched(net, n, m), m);
  }

  lemma {:induction false} MatchedShown(net: Net, dry: set<string>, n: string, j: nat, m: Msg)
    requires n in net.out
    ensures MatchedFrom(net, n, j, m) == MatchedFrom(Shown(net, dry), n, j, m)
    decreases |net.out[n]| - j
  {
    if j < |net.out[n]| { MatchedShown(net, dry, n, j + 1, m); }
  }

  lemma {:induction false} SendsShown(net: Net, dry: set<string>, b: nat, ts: seq<string>, m: Msg)
    requires Well(net) && Below(net, b, ts) && Well(Shown(net, dry))
    ensures Below(Shown(net, dry), b, ts)
    ensures ExplainedSends(net, dry, b, ts, m) == ExplainedSends(Shown(net, dry), net.kinds.Keys, b, ts, m)
    decreases b, 0, |ts|
  {
    if ts != [] {
      ExplainsShown(net, dry, ts[0], m);
      SendsShown(net, dry, b, ts[1..], m);
    }
  }

  /**
   So a walk describes outcomes of that graph only, and all of them if and only if the
   message leaves no node without out-edges: there is no second output to miss in it.
   */
  lemma ExplainedIs(net: Net, dry: set<string>, n: string, m: Msg)
    requires Well(net) && n in net.out
    ensures Well(Shown(net, dry))
    ensures PartOf(Explained(net, dry, n, m), Into(Shown(net, dry), n, m), Linear(Shown(net, dry), n, m))
  {
    ExplainsShown(net, dry, n, m);
    ExplainIsMeaningIff(Shown(net, dry), net.kinds.Keys, n, m);
  }
}
