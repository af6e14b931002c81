/**
 The graph algorithms of a pipeline build (internal/ir/ir.go): cycle detection by DFS
 colours, topological order, and reachability that stops at barriers. The closures mutate
 maps of visited nodes; here they are fields of a search object.
 */
module Graph {

  /** Out-edges (or in-edges, for walks upstream) of each node, in declaration order. */
  type Edges = map<string, seq<string>>

  ghost predicate Closed(next: Edges) {
    forall n, m :: n in next && m in next[n] ==> m in next
  }

  ghost predicate Path(next: Edges, p: seq<string>) {
    && |p| >= 1
    && (forall i :: 0 <= i < |p| - 1 ==> p[i] in next && p[i + 1] in next[p[i]])
  }

  ghost predicate IsCycle(next: Edges, p: seq<string>) {
    Path(next, p) && |p| >= 2 && p[0] == p[|p| - 1]
  }

  ghost predicate HasCycle(next: Edges) { exists p :: IsCycle(next, p) }

  predicate Distinct(s: seq<string>) { forall i, j :: 0 <= i < j < |s| ==> s[i] != s[j] }

  /** Every node comes after everything it points to. */
  ghost predicate Ranked(next: Edges, done: seq<string>) {
    && Distinct(done)
    && forall i :: 0 <= i < |done| ==> done[i] in next && forall m :: m in next[done[i]] ==> m in done[..i]
  }

  lemma RankedSnoc(next: Edges, done: seq<string>, n: string)
    requires Ranked(next, done) && n in next && n !in done && forall m :: m in next[n] ==> m in done
    ensures Ranked(next, done + [n])
  {
    var done' := done + [n];
    forall i | 0 <= i < |done'| ensures forall m :: m in next[done'[i]] ==> m in done'[..i] {
      if i < |done| { assert done'[..i] == done[..i]; } else { assert done'[..i] == done; }
    }
  }

  /** Along a path the rank only goes down. */
  lemma {:induction false} Descends(next: Edges, done: seq<string>, i: nat, p: seq<string>) returns (j: nat)
    requires Ranked(next, done) && i < |done| && Path(next, p) && p[0] == done[i]
    ensures j <= i && done[j] == p[|p| - 1] && (|p| >= 2 ==> j < i)
    decreases |p|
  {
    if |p| == 1 { return i; }
    assert p[1] in next[done[i]];
    var k :| 0 <= k < i && done[..i][k] == p[1];
    assert Path(next, p[1..]);
    j := Descends(next, done, k, p[1..]);
  }

  lemma RankedIsAcyclic(next: Edges, done: seq<string>)
    requires Ranked(next, done) && forall n :: n in next ==> n in done
    ensures !HasCycle(next)
  {
    forall p | IsCycle(next, p) ensures false {
      assert p[0] in next;
      var i :| 0 <= i < |done| && done[i] == p[0];
      var _ := Descends(next, done, i, p);
    }
  }

  /** A step back onto the current path closes a cycle. */
  lemma BackEdge(next: Edges, stack: seq<string>, m: string)
    requires Path(next, stack) && m in stack && stack[|stack| - 1] in next && m in next[stack[|stack| - 1]]
    ensures HasCycle(next)
  {
    var i :| 0 <= i < |stack| && stack[i] == m;
    var p := stack[i..] + [m];
    forall k | 0 <= k < |p| - 1 ensures p[k] in next && p[k + 1] in next[p[k]] {
      assert p[k] == stack[i + k];
      if k + 1 < |p| - 1 { assert p[k + 1] == stack[i + k + 1]; }
    }
    assert IsCycle(next, p);
  }

  lemma PathSnoc(next: Edges, stack: seq<string>, m: string)
    requires stack == [] || (Path(next, stack) && stack[|stack| - 1] in next && m in next[stack[|stack| - 1]])
    ensures Path(next, stack + [m])
  {}

  // --- cycle detection ---

  class ColorSearch {
    const next: Edges
    var grey: set<string>
    var black: set<string>
    /** Nodes in the order they turned black. */
    ghost var done: seq<string>

    constructor (next: Edges)
      ensures this.next == next && grey == {} && black == {} && done == []
    {
      this.next := next;
      grey, black, done := {}, {}, [];
    }

    ghost predicate Valid()
      reads this
    {
      && Closed(next) && Ranked(next, done) && (forall n :: n in done <==> n in black)
      && grey <= next.Keys && black <= next.Keys && grey !! black
    }

    /** Visit a white node; the grey nodes are exactly those on the stack above it. */
    method Visit(name: string, stack: seq<string>) returns (cyclic: bool)
      requires Valid() && name in next && name !in grey && name !in black
      requires forall n :: n in grey <==> n in stack
      requires stack == [] || (Path(next, stack) && stack[|stack| - 1] in next && name in next[stack[|stack| - 1]])
      modifies this
      ensures Closed(next) && (cyclic ==> HasCycle(next))
      ensures !cyclic ==> Valid() && grey == old(grey) && old(black) <= black && name in black
      decreases next.Keys - grey - black
    {
      grey := grey + {name};
      var path := stack + [name];
      PathSnoc(next, stack, name);
      for i := 0 to |next[name]|
        invariant Valid() && grey == old(grey) + {name} && old(black) <= black
        invariant forall k :: 0 <= k < i ==> next[name][k] in black
      {
        var m := next[name][i];
        if m in grey {
          BackEdge(next, path, m);
          return true;
        }
        if m !in black {
          assert name in next.Keys - old(grey) - old(black) && name !in next.Keys - grey - black;
          cyclic := Visit(m, path);
          if cyclic { return; }
        }
      }
      RankedSnoc(next, done, name);
      grey, black, done := grey - {name}, black + {name}, done + [name];
      cyclic := false;
    }
  }

  /** The build reports topo_cycle if and only if the resolved graph has a cycle. */
  method DetectCycle(next: Edges, order: seq<string>) returns (cyclic: bool)
    requires Closed(next) && forall n :: n in next <==> n in order
    ensures cyclic <==> HasCycle(next)
  {
    var search := new ColorSearch(next);
    for i := 0 to |order|
      invariant search.next == next && search.Valid() && search.grey == {}
      invariant forall k :: 0 <= k < i ==> order[k] in search.black
    {
      if order[i] !in search.black {
        cyclic := search.Visit(order[i], []);
        if cyclic { return; }
      }
    }
    RankedIsAcyclic(next, search.done);
    cyclic := false;
  }

  // --- topological order ---

  class OrderSearch {
    /** In-edges whose upstream exists. */
    const ups: Edges
    var seen: set<string>
    var out: seq<string>

    constructor (ups: Edges)
      ensures this.ups == ups && seen == {} && out == []
    {
      this.ups := ups;
      seen, out := {}, [];
    }

    ghost predicate Valid()
      reads this
    {
      Closed(ups) && Distinct(out) && (forall n :: n in out ==> n in seen) && seen <= ups.Keys
    }

    /** The walk itself terminates and lists each node once, cycles or not. */
    method Visit(name: string, ghost stack: seq<string>)
      requires Valid() && name in ups
      requires forall n :: n in seen && n !in out <==> n in stack
      requires stack == [] || (Path(ups, stack) && stack[|stack| - 1] in ups && name in ups[stack[|stack| - 1]])
      requires !HasCycle(ups) ==> Ranked(ups, out)
      modifies this
      ensures Valid() && old(seen) <= seen && name in seen
      ensures |old(out)| <= |out| && out[..|old(out)|] == old(out)
      ensures forall n :: n in seen && n !in out <==> n in stack
      ensures !HasCycle(ups) ==> Ranked(ups, out) && name in out
      decreases ups.Keys - seen
    {
      if name in seen {
        if name !in out { BackEdge(ups, stack, name); }
        return;
      }
      seen := seen + {name};
      ghost var path := stack + [name];
      PathSnoc(ups, stack, name);
      for i := 0 to |ups[name]|
        invariant Valid() && old(seen) + {name} <= seen
        invariant |old(out)| <= |out| && out[..|old(out)|] == old(out)
        invariant forall n :: n in seen && n !in out <==> n in path
        invariant !HasCycle(ups) ==> Ranked(ups, out)
        invariant !HasCycle(ups) ==> forall k :: 0 <= k < i ==> ups[name][k] in out
      {
        Visit(ups[name][i], path);
      }
      if !HasCycle(ups) { RankedSnoc(ups, out, name); }
      out := out + [name];
    }
  }

  /**
   Every node once, and after everything it depends on if and only if the graph is acyclic:
   when it is not, no order could be.
   */
  method TopoSort(ups: Edges, order: seq<string>) returns (out: seq<string>)
    requires Closed(ups) && forall n :: n in ups <==> n in order
    ensures Distinct(out) && forall n :: n in out <==> n in ups
    ensures Ranked(ups, out) <==> !HasCycle(ups)
  {
    var search := new OrderSearch(ups);
    for i := 0 to |order|
      invariant search.ups == ups && search.Valid()
      invariant forall n :: n in search.seen ==> n in search.out
      invariant forall k :: 0 <= k < i ==> order[k] in search.seen
      invariant !HasCycle(ups) ==> Ranked(ups, search.out)
    {
      search.Visit(order[i], []);
    }
    out := search.out;
    if Ranked(ups, out) { RankedIsAcyclic(ups, out); }
  }

  // --- the two directions of a build ---

  /** v depends on u, a node that may have dependents. */
  predicate Feeds(ins: Edges, sinks: set<string>, u: string, v: string) {
    v in ins && u in ins[v] && u !in sinks
  }

  /** The edges are the references to nodes that are no sinks, turned around. */
  lemma FeedsAre(ins: Edges, sinks: set<string>)
    ensures forall u, v :: Feeds(ins, sinks, u, v) <==> v in ins && u in ins[v] && u !in sinks
    ensures (forall v :: v in ins ==> Resolvable(ins, sinks, v)) <==>
            forall v, u :: v in ins && u in ins[v] ==> u in ins && u !in sinks
  {}

  ghost predicate Resolvable(ins: Edges, sinks: set<string>, v: string) {
    v in ins && forall u :: u in ins[v] ==> u in ins && u !in sinks
  }

  /** Resolve depends_on references into out-edges: unknown names and sinks contribute none. */
  method Resolve(order: seq<string>, ins: Edges, sinks: set<string>) returns (outs: Edges, errors: nat)
    requires forall n :: n in ins <==> n in order
    requires Distinct(order)
    ensures outs.Keys == ins.Keys
    ensures forall u, v :: u in outs ==> (v in outs[u] <==> Feeds(ins, sinks, u, v))
    ensures errors == 0 <==> forall v :: v in ins ==> Resolvable(ins, sinks, v)
  {
    outs, errors := map n | n in ins :: [], 0;
    ghost var done: set<string> := {};
    for i := 0 to |order|
      invariant outs.Keys == ins.Keys && done <= ins.Keys
      invariant forall k :: 0 <= k < |order| ==> (order[k] in done <==> k < i)
      invariant forall u, v :: u in outs ==> (v in outs[u] <==> v in done && Feeds(ins, sinks, u, v))
      invariant errors == 0 <==> forall v :: v in done ==> Resolvable(ins, sinks, v)
    {
      outs, errors := ResolveNode(ins, sinks, done, order[i], outs, errors);
      done := done + {order[i]};
    }
    assert done == ins.Keys;
  }

  method ResolveNode(ins: Edges, sinks: set<string>, ghost done: set<string>, v: string, outs0: Edges, errors0: nat)
    returns (outs: Edges, errors: nat)
    requires v in ins && v !in done && outs0.Keys == ins.Keys
    requires forall u, w :: u in outs0 ==> (w in outs0[u] <==> w in done && Feeds(ins, sinks, u, w))
    requires errors0 == 0 <==> forall w :: w in done ==> Resolvable(ins, sinks, w)
    ensures outs.Keys == ins.Keys
    ensures forall u, w :: u in outs ==> (w in outs[u] <==> w in done + {v} && Feeds(ins, sinks, u, w))
    ensures errors == 0 <==> forall w :: w in done + {v} ==> Resolvable(ins, sinks, w)
  {
    outs, errors := outs0, errors0;
    for j := 0 to |ins[v]|
      invariant outs.Keys == ins.Keys
      invariant forall u, w :: u in outs && w != v ==> (w in outs[u] <==> w in outs0[u])
      invariant forall u :: u in outs ==> (v in outs[u] <==> u in ins[v][..j] && u !in sinks)
      invariant errors == 0 <==> errors0 == 0 && forall u :: u in ins[v][..j] ==> u in ins && u !in sinks
    {
      var u := ins[v][j];
      assert ins[v][..j + 1] == ins[v][..j] + [u];
      if u !in outs || u in sinks {
        errors := errors + 1;
      } else {
        outs := outs[u := outs[u] + [v]];
      }
    }
    assert ins[v][..|ins[v]|] == ins[v];
    assert errors == 0 <==> errors0 == 0 && Resolvable(ins, sinks, v);
    if errors == 0 {
      forall w | w in done + {v} ensures Resolvable(ins, sinks, w) {}
    } else if errors0 != 0 {
      ghost var w :| w in done && !Resolvable(ins, sinks, w);
      assert w in done + {v};
    } else {
      assert v in done + {v};
    }
  }

  /** One graph's edges are the other's, turned around. */
  ghost predicate Turned(a: Edges, b: Edges) {
    a.Keys == b.Keys && forall u, v :: u in a && v in a ==> (v in a[u] <==> u in b[v])
  }

  function Reverse(p: seq<string>): (r: seq<string>)
    ensures |r| == |p| && forall i :: 0 <= i < |p| ==> r[i] == p[|p| - 1 - i]
  {
    seq(|p|, i requires 0 <= i < |p| => p[|p| - 1 - i])
  }

  lemma TurnedCycles(a: Edges, b: Edges)
    requires Turned(a, b) && Closed(a) && Closed(b)
    ensures HasCycle(a) <==> HasCycle(b)
  {
    if HasCycle(a) { TurnCycle(a, b); }
    if HasCycle(b) { TurnCycle(b, a); }
  }

  lemma TurnCycle(a: Edges, b: Edges)
    requires Turned(a, b) && Closed(a) && HasCycle(a)
    ensures HasCycle(b)
  {
    var p :| IsCycle(a, p);
    var r := Reverse(p);
    forall i | 0 <= i < |r| - 1 ensures r[i] in b && r[i + 1] in b[r[i]] {
      var k := |p| - 2 - i;
      assert p[k] in a && p[k + 1] in a[p[k]];
    }
    assert IsCycle(b, r);
  }

  lemma ReverseMembers(s: seq<string>)
    ensures forall n :: n in Reverse(s) <==> n in s
  {
    forall n | n in s ensures n in Reverse(s) {
      var i :| 0 <= i < |s| && s[i] == n;
      assert Reverse(s)[|s| - 1 - i] == n;
    }
  }

  /** An order of all nodes, read backwards, is one for the edges turned around. */
  lemma TurnedRanked(ins: Edges, outs: Edges, sorted: seq<string>)
    requires Turned(ins, outs) && Closed(ins) && Closed(outs)
    requires Ranked(ins, sorted) && forall n :: n in ins ==> n in sorted
    ensures Ranked(outs, Reverse(sorted))
  {
    var r := Reverse(sorted);
    forall i | 0 <= i < |r| ensures r[i] in outs && forall m :: m in outs[r[i]] ==> m in r[..i] {
      forall m | m in outs[r[i]] ensures m in r[..i] {
        assert m in outs && m in ins.Keys && m in sorted;
        var j :| 0 <= j < |sorted| && sorted[j] == m;
        assert r[i] in ins[m] && r[i] in sorted[..j];
        var k :| 0 <= k < j && sorted[k] == r[i];
        assert k == |sorted| - 1 - i && r[|sorted| - 1 - j] == m;
        assert r[..i][|sorted| - 1 - j] == m;
      }
    }
  }

  /**
   A build: resolve, detect, and sort. Without an error the order is a permutation of the
   nodes with every node after all its upstreams; with every reference resolved, topo_cycle
   is reported exactly when no such order exists.
   */
  method Build(order: seq<string>, ins: Edges, sinks: set<string>)
      returns (cyclic: bool, errors: nat, sorted: seq<string>)
    requires Distinct(order) && forall n :: n in ins <==> n in order
    ensures errors == 0 <==> forall v :: v in ins ==> Resolvable(ins, sinks, v)
    ensures errors == 0 ==> Distinct(sorted) && forall n :: n in sorted <==> n in ins
    ensures errors == 0 ==> (!cyclic <==> Ranked(ins, sorted)) && (cyclic <==> HasCycle(ins))
  {
    var outs;
    outs, errors := Resolve(order, ins, sinks);
    cyclic := DetectCycle(outs, order);
    if errors > 0 { return cyclic, errors, []; }
    assert Closed(ins) by { assert forall v :: v in ins ==> Resolvable(ins, sinks, v); }
    TurnedCycles(outs, ins);
    sorted := TopoSort(ins, order);
  }

  // --- reachability ---

  /** A path to a target with no barrier before its end. */
  ghost predicate Clear(next: Edges, barriers: set<string>, p: seq<string>) {
    Path(next, p) && forall i :: 0 <= i < |p| - 1 ==> p[i] !in barriers
  }

  ghost predicate Reaches(next: Edges, barriers: set<string>, a: string, b: string) {
    exists p :: Clear(next, barriers, p) && p[0] == a && p[|p| - 1] == b
  }

  /** Nodes left behind: none a target, and their ways onward seen too. */
  ghost predicate DeadEnd(next: Edges, barriers: set<string>, targets: set<string>, seen: set<string>, n: string) {
    n !in targets && (n in barriers || n !in next || forall m :: m in next[n] ==> m in seen)
  }

  lemma ReachesOn(next: Edges, barriers: set<string>, a: string, m: string, b: string)
    requires a in next && m in next[a] && a !in barriers && Reaches(next, barriers, m, b)
    ensures Reaches(next, barriers, a, b)
  {
    var p :| Clear(next, barriers, p) && p[0] == m && p[|p| - 1] == b;
    var q := [a] + p;
    forall i | 0 <= i < |q| - 1 ensures q[i] in next && q[i + 1] in next[q[i]] && q[i] !in barriers {
      if i > 0 { assert q[i] == p[i - 1] && q[i + 1] == p[i]; }
    }
    assert Clear(next, barriers, q) && q[|q| - 1] == b;
  }

  lemma ReachesSelf(next: Edges, barriers: set<string>, a: string)
    ensures Reaches(next, barriers, a, a)
  {
    assert Clear(next, barriers, [a]);
  }

  /** From a set closed under clear steps no target is reached. */
  lemma {:induction false} StaysSeen(next: Edges, barriers: set<string>, targets: set<string>, seen: set<string>,
                                    p: seq<string>)
    requires forall n :: n in seen ==> DeadEnd(next, barriers, targets, seen, n)
    requires Clear(next, barriers, p) && p[0] in seen
    ensures p[|p| - 1] in seen && p[|p| - 1] !in targets
    decreases |p|
  {
    if |p| > 1 {
      assert DeadEnd(next, barriers, targets, seen, p[0]);
      assert Clear(next, barriers, p[1..]);
      StaysSeen(next, barriers, targets, seen, p[1..]);
    }
  }

  class ReachSearch {
    const next: Edges
    const barriers: set<string>
    const targets: set<string>
    /** Every name the walk can meet. */
    ghost const names: set<string>
    var seen: set<string>

    constructor (next: Edges, barriers: set<string>, targets: set<string>, ghost names: set<string>)
      ensures this.next == next && this.barriers == barriers && this.targets == targets && this.names == names &&
              seen == {}
    {
      this.next, this.barriers, this.targets, this.names := next, barriers, targets, names;
      seen := {};
    }

    /** What was seen and left is a dead end; the rest is still on the way down. */
    ghost predicate Left(onWay: set<string>)
      reads this
    {
      seen <= names && forall n :: n in seen && n !in onWay ==> DeadEnd(next, barriers, targets, seen, n)
    }

    method Walk(name: string, ghost onWay: set<string>) returns (found: bool)
      requires Left(onWay) && name in names && forall n, m :: n in next && m in next[n] ==> m in names
      modifies this
      ensures found ==> exists t :: t in targets && Reaches(next, barriers, name, t)
      ensures !found ==> old(seen) <= seen && name in seen && Left(onWay)
      decreases names - seen
    {
      if name in seen { return false; }
      seen := seen + {name};
      if name in targets {
        ReachesSelf(next, barriers, name);
        return true;
      }
      if name in barriers || name !in next { return false; }
      for i := 0 to |next[name]|
        invariant old(seen) + {name} <= seen && Left(onWay + {name})
        invariant forall k :: 0 <= k < i ==> next[name][k] in seen
      {
        found := Walk(next[name][i], onWay + {name});
        if found {
          ghost var t :| t in targets && Reaches(next, barriers, next[name][i], t);
          ReachesOn(next, barriers, name, next[name][i], t);
          return;
        }
      }
      found := false;
    }
  }

  /** True if and only if some path from `from` meets a target with no barrier before it. */
  method DownstreamReaches(next: Edges, from: string, barriers: set<string>, targets: set<string>) returns (found: bool)
    ensures found <==> exists t :: t in targets && Reaches(next, barriers, from, t)
  {
    ghost var names := {from} + next.Keys + set n, m | n in next && m in next[n] :: m;
    var search := new ReachSearch(next, barriers, targets, names);
    found := search.Walk(from, {});
    if !found {
      forall t | t in targets && Reaches(next, barriers, from, t) ensures false {
        var p :| Clear(next, barriers, p) && p[0] == from && p[|p| - 1] == t;
        StaysSeen(next, barriers, targets, search.seen, p);
      }
    }
  }

  class UpSearch {
    const ups: Edges
    var seen: set<string>

    constructor (ups: Edges)
      ensures this.ups == ups && seen == {}
    {
      this.ups := ups;
      seen := {};
    }

    /** Dangling references are skipped. */
    method Walk(name: string, ghost start: string, ghost onWay: set<string>)
      requires name in ups && Reaches(ups, {}, start, name) && seen <= ups.Keys
      requires forall n :: n in seen ==> Reaches(ups, {}, start, n)
      requires forall n, m :: n in seen && n !in onWay && m in ups[n] && m in ups ==> m in seen
      modifies this
      ensures old(seen) <= seen <= ups.Keys && name in seen
      ensures forall n :: n in seen ==> Reaches(ups, {}, start, n)
      ensures forall n, m :: n in seen && n !in onWay && m in ups[n] && m in ups ==> m in seen
      decreases ups.Keys - seen
    {
      if name in seen { return; }
      seen := seen + {name};
      for i := 0 to |ups[name]|
        invariant old(seen) + {name} <= seen <= ups.Keys
        invariant forall n :: n in seen ==> Reaches(ups, {}, start, n)
        invariant forall n, m :: n in seen && n !in onWay + {name} && m in ups[n] && m in ups ==> m in seen
        invariant forall k :: 0 <= k < i && ups[name][k] in ups ==> ups[name][k] in seen
      {
        var m := ups[name][i];
        if m in ups {
          ReachesTo(ups, start, name, m);
          Walk(m, start, onWay + {name});
        }
      }
    }
  }

  lemma ReachesTo(next: Edges, a: string, b: string, m: string)
    requires Reaches(next, {}, a, b) && b in next && m in next[b]
    ensures Reaches(next, {}, a, m)
  {
    var p :| Clear(next, {}, p) && p[0] == a && p[|p| - 1] == b;
    var q := p + [m];
    assert Clear(next, {}, q) && q[0] == a && q[|q| - 1] == m;
  }

  lemma {:induction false} PathSeen(ups: Edges, seen: set<string>, p: seq<string>)
    requires forall n, m :: n in seen && n in ups && m in ups[n] && m in ups ==> m in seen
    requires Path(ups, p) && p[0] in seen && p[|p| - 1] in ups
    ensures p[|p| - 1] in seen
    decreases |p|
  {
    if |p| > 1 {
      assert p[1] in ups;
      assert Path(ups, p[1..]);
      PathSeen(ups, seen, p[1..]);
    }
  }

  /** Exactly the nodes that can be reached against the edges, the start included. */
  method UpstreamNodes(ups: Edges, start: string) returns (seen: set<string>)
    ensures forall n :: n in seen <==> n in ups && start in ups && Reaches(ups, {}, start, n)
  {
    var search := new UpSearch(ups);
    if start in ups {
      ReachesSelf(ups, {}, start);
      search.Walk(start, start, {});
      forall n | n in ups && Reaches(ups, {}, start, n) ensures n in search.seen {
        var p :| Clear(ups, {}, p) && p[0] == start && p[|p| - 1] == n;
        PathSeen(ups, search.seen, p);
      }
    }
    seen := search.seen;
  }
}
