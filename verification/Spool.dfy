/**
 The spool as a store keeps it (internal/store/store.go), the bounded pages it is read in
 (internal/store/sqlite.go), and what paging adds up to.
 */
module Spool {

  datatype MemRow = MemRow(sq: int, pipeline: string, body: string)

  /** Sequences are store-global and strictly increasing. */
  ghost predicate Ascending(rows: seq<MemRow>) {
    forall i, j :: 0 <= i < j < |rows| ==> rows[i].sq < rows[j].sq
  }

  /** One pipeline's rows beyond a sequence, in order. */
  function RowsAfter(rows: seq<MemRow>, pipeline: string, after: int): seq<MemRow> {
    if rows == [] then []
    else
      (if rows[0].pipeline == pipeline && rows[0].sq > after then [rows[0]] else []) +
      RowsAfter(rows[1..], pipeline, after)
  }

  lemma {:induction false} RowsAfterMembers(rows: seq<MemRow>, pipeline: string, after: int)
    ensures |RowsAfter(rows, pipeline, after)| <= |rows|
    ensures forall x :: x in RowsAfter(rows, pipeline, after) <==> x in rows && x.pipeline == pipeline && x.sq > after
  {
    if rows != [] {
      RowsAfterMembers(rows[1..], pipeline, after);
      assert rows == [rows[0]] + rows[1..];
    }
  }

  lemma {:induction false} RowsAfterAscends(rows: seq<MemRow>, pipeline: string, after: int)
    requires Ascending(rows)
    ensures Ascending(RowsAfter(rows, pipeline, after))
  {
    if rows != [] {
      RowsAfterAscends(rows[1..], pipeline, after);
      RowsAfterMembers(rows[1..], pipeline, after);
    }
  }

  lemma {:induction false} RowsAfterConcat(a: seq<MemRow>, b: seq<MemRow>, pipeline: string, after: int)
    ensures RowsAfter(a + b, pipeline, after) == RowsAfter(a, pipeline, after) + RowsAfter(b, pipeline, after)
  {
    if a == [] {
      assert a + b == b;
    } else {
      assert (a + b)[1..] == a[1..] + b;
      RowsAfterConcat(a[1..], b, pipeline, after);
    }
  }

  lemma MemberAt(rows: seq<MemRow>, pipeline: string, after: int, i: nat)
    requires i < |RowsAfter(rows, pipeline, after)|
    ensures RowsAfter(rows, pipeline, after)[i] in rows
  {
    RowsAfterMembers(rows, pipeline, after);
  }

  /** Starting again after the k-th row leaves exactly the rest. */
  lemma {:induction false} Resume(rows: seq<MemRow>, pipeline: string, after: int, k: nat)
    requires Ascending(rows) && 0 < k <= |RowsAfter(rows, pipeline, after)|
    ensures RowsAfter(rows, pipeline, RowsAfter(rows, pipeline, after)[k - 1].sq) ==
        RowsAfter(rows, pipeline, after)[k..]
  {
    var r, rest := rows[0], RowsAfter(rows[1..], pipeline, after);
    if r.pipeline == pipeline && r.sq > after {
      if k == 1 {
        AllAfter(rows[1..], pipeline, after, r.sq);
      } else {
        Resume(rows[1..], pipeline, after, k - 1);
        MemberAt(rows[1..], pipeline, after, k - 2);
        SkipFirst(rows, pipeline, rest[k - 2]);
        assert ([r] + rest)[k..] == rest[k - 1..];
      }
    } else {
      Resume(rows[1..], pipeline, after, k);
      MemberAt(rows[1..], pipeline, after, k - 1);
      SkipFirst(rows, pipeline, rest[k - 1]);
    }
  }

  lemma SkipFirst(rows: seq<MemRow>, pipeline: string, x: MemRow)
    requires Ascending(rows) && rows != [] && x in rows[1..]
    ensures RowsAfter(rows, pipeline, x.sq) == RowsAfter(rows[1..], pipeline, x.sq)
  {
    var i :| 0 <= i < |rows[1..]| && rows[1..][i] == x;
    assert rows[0].sq < rows[i + 1].sq;
  }

  lemma {:induction false} AllAfter(rows: seq<MemRow>, pipeline: string, a: int, b: int)
    requires a <= b && forall i :: 0 <= i < |rows| ==> rows[i].sq > b
    ensures RowsAfter(rows, pipeline, a) == RowsAfter(rows, pipeline, b)
  {
    if rows != [] { AllAfter(rows[1..], pipeline, a, b); }
  }

  lemma {:induction false} NoneAfter(rows: seq<MemRow>, pipeline: string, after: int)
    requires forall i :: 0 <= i < |rows| ==> rows[i].sq <= after
    ensures RowsAfter(rows, pipeline, after) == []
  {
    if rows != [] { NoneAfter(rows[1..], pipeline, after); }
  }

  /** What a retention sweep leaves: everything but one pipeline's rows at or below a sequence. */
  function Trimmed(rows: seq<MemRow>, pipeline: string, through: int): seq<MemRow> {
    if rows == [] then []
    else
      var last := rows[|rows| - 1];
      Trimmed(rows[..|rows| - 1], pipeline, through) +
          (if last.pipeline == pipeline && last.sq <= through then [] else [last])
  }

  lemma {:induction false} TrimmedAscends(rows: seq<MemRow>, pipeline: string, through: int)
    requires Ascending(rows)
    ensures Ascending(Trimmed(rows, pipeline, through))
    ensures |Trimmed(rows, pipeline, through)| <= |rows|
    ensures forall x :: x in Trimmed(rows, pipeline, through) ==> x in rows
  {
    if rows != [] {
      var before, last := rows[..|rows| - 1], rows[|rows| - 1];
      TrimmedAscends(before, pipeline, through);
      forall x | x in before ensures x.sq < last.sq {
        var i :| 0 <= i < |before| && before[i] == x;
        assert rows[i].sq < last.sq;
      }
    }
  }

  /** A sweep is invisible to other pipelines and to any read that starts at or beyond it. */
  lemma {:induction false} TrimmedReads(rows: seq<MemRow>, pipeline: string, through: int, p: string, after: int)
    ensures RowsAfter(Trimmed(rows, pipeline, through), p, after)
         == RowsAfter(rows, p, if p == pipeline && through > after then through else after)
  {
    if rows != [] {
      var before, last := rows[..|rows| - 1], rows[|rows| - 1];
      var from := if p == pipeline && through > after then through else after;
      TrimmedReads(before, pipeline, through, p, after);
      assert rows == before + [last];
      RowsAfterConcat(before, [last], p, from);
      RowsAfterConcat(Trimmed(before, pipeline, through), [last], p, after);
      OneAfter(last, p, from);
      OneAfter(last, p, after);
      var kept := Trimmed(before, pipeline, through);
      if last.pipeline == pipeline && last.sq <= through {
        assert Trimmed(rows, pipeline, through) == kept + [] == kept;
      } else {
        assert Trimmed(rows, pipeline, through) == kept + [last];
      }
    }
  }

  lemma OneAfter(r: MemRow, pipeline: string, after: int)
    ensures RowsAfter([r], pipeline, after) == if r.pipeline == pipeline && r.sq > after then [r] else []
  {
    assert [r][1..] == [];
  }

  /** What a page callback is told, and where it stopped. */
  datatype Paged = Paged(visited: seq<MemRow>, last: int, more: bool, ok: bool)

  /** Run callbacks over rows until one fails; `accepts` is how many succeed before that. */
  function Visit(rows: seq<MemRow>, after: int, full: bool, accepts: nat): Paged {
    if accepts >= |rows| then Paged(rows, if rows == [] then after else rows[|rows| - 1].sq, full, true)
    else Paged(rows[..accepts], if accepts == 0 then after else rows[accepts - 1].sq, false, false)
  }

  function Limit(limit: int): int { if limit <= 0 then 500 else limit }

  function Page(rows: seq<MemRow>, pipeline: string, after: int, limit: int): seq<MemRow>
    requires limit > 0
  {
    var all := RowsAfter(rows, pipeline, after);
    if |all| <= limit then all else all[..limit]
  }

  /**
   A page holds the first rows beyond the start, at most its limit of them, and its callbacks
   see them in order, all or as many as succeed; and the position it reports, after a failing
   callback too, is where the rows not visited begin.
   */
  lemma PageVisits(rows: seq<MemRow>, pipeline: string, after: int, limit: int, accepts: nat)
    requires Ascending(rows)
    ensures var (all, n) := (RowsAfter(rows, pipeline, after), if limit <= 0 then 500 else limit);
      var page := Page(rows, pipeline, after, Limit(limit));
      var p := Visit(page, after, |page| == n, accepts);
      && |p.visited| <= |all| && |p.visited| <= n && p.visited == all[..|p.visited|]
      && (p.ok <==> accepts >= n || accepts >= |all|) && (!p.ok ==> |p.visited| == accepts && !p.more)
      && (p.ok ==> p.more == (|p.visited| == n) && (|p.visited| < n ==> p.visited == all))
      && RowsAfter(rows, pipeline, p.last) == all[|p.visited|..]
  {
    var page := Page(rows, pipeline, after, Limit(limit));
    var p := Visit(page, after, |page| == Limit(limit), accepts);
    var all := RowsAfter(rows, pipeline, after);
    assert p.visited == all[..|p.visited|];
    if p.visited != [] { Resume(rows, pipeline, after, |p.visited|); }
  }

  class MemStore {
    var spool: seq<MemRow>
    var nextSeq: int
    var closed: bool

    ghost predicate Valid()
      reads this
    {
      Ascending(spool) && nextSeq >= 0 && forall i :: 0 <= i < |spool| ==> 1 <= spool[i].sq <= nextSeq
    }

    constructor ()
      ensures Valid() && spool == [] && nextSeq == 0 && !closed
    {
      spool, nextSeq, closed := [], 0, false;
    }

    /** Sequences are gap-free: each append gets the one after the last ever assigned. */
    method AppendSpool(pipeline: string, body: string) returns (sq: int, ok: bool)
      requires Valid()
      modifies this`spool, this`nextSeq
      ensures Valid() && ok == !closed
      ensures ok ==> sq == old(nextSeq) + 1 && nextSeq == sq && spool == old(spool) + [MemRow(sq, pipeline, body)]
      ensures !ok ==> spool == old(spool) && nextSeq == old(nextSeq)
    {
      if closed { return 0, false; }
      nextSeq := nextSeq + 1;
      var row := MemRow(nextSeq, pipeline, body);
      spool := spool + [row];
      sq, ok := nextSeq, true;
    }

    /** Binary search for the first row beyond a sequence. */
    method Search(after: int) returns (i: nat)
      requires Valid()
      ensures i <= |spool|
      ensures forall k :: 0 <= k < i ==> spool[k].sq <= after
      ensures forall k :: i <= k < |spool| ==> spool[k].sq > after
    {
      i := 0;
      var j: nat := |spool|;
      while i < j
        invariant i <= j <= |spool|
        invariant forall k :: 0 <= k < i ==> spool[k].sq <= after
        invariant forall k :: j <= k < |spool| ==> spool[k].sq > after
      {
        var h := (i + j) / 2;
        if spool[h].sq > after { j := h; } else { i := h + 1; }
      }
    }

    method SpoolWindow(pipeline: string, after: int, limit: int) returns (rows: seq<MemRow>, more: bool)
      requires Valid()
      ensures limit <= 0 ==> rows == [] && !more
      ensures limit > 0 ==> rows == Page(spool, pipeline, after, limit) && more == (|rows| == limit)
    {
      if limit <= 0 { return [], false; }
      var start := Search(after);
      rows := [];
      var i := start;
      SkipTo(spool, pipeline, after, start);
      while i < |spool| && |rows| < limit
        invariant start <= i <= |spool| && |rows| <= limit
        invariant rows + RowsAfter(spool[i..], pipeline, after) == RowsAfter(spool, pipeline, after)
      {
        FirstOf(spool, pipeline, after, i);
        if spool[i].pipeline == pipeline {
          assert rows + ([spool[i]] + RowsAfter(spool[i + 1..], pipeline, after)) ==
                 rows + [spool[i]] + RowsAfter(spool[i + 1..], pipeline, after);
          rows := rows + [spool[i]];
        } else {
          assert [] + RowsAfter(spool[i + 1..], pipeline, after) == RowsAfter(spool[i + 1..], pipeline, after);
        }
        i := i + 1;
      }
      more := |rows| == limit;
      PageIs(rows, spool, pipeline, after, limit, i);
    }

    static lemma SkipTo(rows: seq<MemRow>, pipeline: string, after: int, start: nat)
      requires start <= |rows| && forall k :: 0 <= k < start ==> rows[k].sq <= after
      ensures RowsAfter(rows[start..], pipeline, after) == RowsAfter(rows, pipeline, after)
    {
      NoneAfter(rows[..start], pipeline, after);
      RowsAfterConcat(rows[..start], rows[start..], pipeline, after);
      assert rows[..start] + rows[start..] == rows;
    }

    static lemma FirstOf(rows: seq<MemRow>, pipeline: string, after: int, i: nat)
      requires i < |rows| && rows[i].sq > after
      ensures RowsAfter(rows[i..], pipeline, after)
           == (if rows[i].pipeline == pipeline then [rows[i]] else []) + RowsAfter(rows[i + 1..], pipeline, after)
    {
      assert rows[i..][1..] == rows[i + 1..];
    }

    static lemma PageIs(page: seq<MemRow>, rows: seq<MemRow>, pipeline: string, after: int, limit: int, i: nat)
      requires limit > 0 && i <= |rows| && |page| <= limit && (i == |rows| || |page| == limit)
      requires page + RowsAfter(rows[i..], pipeline, after) == RowsAfter(rows, pipeline, after)
      ensures page == Page(rows, pipeline, after, limit)
    {
      if i == |rows| { assert RowsAfter(rows[i..], pipeline, after) == []; }
      assert |page| == limit ==> RowsAfter(rows, pipeline, after)[..limit] == page;
    }

    /** One bounded window, visited in order until a callback fails. */
    method ReplayPage(pipeline: string, after: int, limit: int, accepts: nat) returns (p: Paged)
      requires Valid()
      ensures p == Visit(Page(spool, pipeline, after, Limit(limit)), after,
                         |Page(spool, pipeline, after, Limit(limit))| == Limit(limit), accepts)
    {
      var n := if limit <= 0 then 500 else limit;
      var rows, more := SpoolWindow(pipeline, after, n);
      var last := after;
      var visited: seq<MemRow> := [];
      for i := 0 to |rows|
        invariant visited == rows[..i] && accepts >= i
        invariant last == if i == 0 then after else rows[i - 1].sq
      {
        if i == accepts { return Paged(visited, last, false, false); }
        visited := visited + [rows[i]];
        last := rows[i].sq;
      }
      p := Paged(visited, last, more, true);
    }

    /** The whole remainder at once. */
    method ReplayFrom(pipeline: string, after: int, accepts: nat) returns (visited: seq<MemRow>, ok: bool)
      requires Valid()
      ensures ok <==> accepts >= |RowsAfter(spool, pipeline, after)|
      ensures visited == if ok then RowsAfter(spool, pipeline, after) else RowsAfter(spool, pipeline, after)[..accepts]
    {
      var rows, _ := SpoolWindow(pipeline, after, |spool|);
      RowsAfterMembers(spool, pipeline, after);
      visited := [];
      for i := 0 to |rows|
        invariant visited == rows[..i] && accepts >= i
      {
        if i == accepts { return visited, false; }
        visited := visited + [rows[i]];
      }
      ok := true;
    }

    /**
     Page after page: together the pages visit each row beyond the start exactly once, in
     order, just as the whole remainder at once would.
     */
    method ReplayPaged(pipeline: string, after: int, limit: int, accepts: nat) returns (visited: seq<MemRow>, ok: bool)
      requires Valid()
      ensures ok <==> accepts >= |RowsAfter(spool, pipeline, after)|
      ensures visited == if ok then RowsAfter(spool, pipeline, after) else RowsAfter(spool, pipeline, after)[..accepts]
    {
      visited := [];
      var from := after;
      ghost var all := RowsAfter(spool, pipeline, after);
      while true
        invariant |visited| <= |all| && visited == all[..|visited|] && |visited| <= accepts
        invariant RowsAfter(spool, pipeline, from) == all[|visited|..]
        decreases |all| - |visited|
      {
        var p := ReplayPage(pipeline, from, limit, accepts - |visited|);
        PageMoves(spool, pipeline, from, Limit(limit), accepts - |visited|, p);
        Further(all, |visited|, |p.visited|);
        visited := visited + p.visited;
        if !p.ok { return visited, false; }
        if !p.more { return visited, true; }
        from := p.last;
      }
    }

    static lemma Further(all: seq<MemRow>, i: nat, k: nat)
      requires i + k <= |all|
      ensures all[..i] + all[i..][..k] == all[..i + k] && all[i..][k..] == all[i + k..]
    {}

    static lemma PageMoves(rows: seq<MemRow>, pipeline: string, from: int, limit: int, accepts: nat, p: Paged)
      requires Ascending(rows) && limit > 0
      requires p == Visit(Page(rows, pipeline, from, limit), from, |Page(rows, pipeline, from, limit)| == limit,
                          accepts)
      ensures var rest := RowsAfter(rows, pipeline, from);
        && |p.visited| <= |rest| && |p.visited| <= accepts && p.visited == rest[..|p.visited|]
        && (!p.ok ==> |p.visited| == accepts < |rest|)
        && (p.ok && !p.more ==> p.visited == rest)
        && (p.ok && p.more ==> p.visited != [] && RowsAfter(rows, pipeline, p.last) == rest[|p.visited|..])
    {
      if p.ok && p.more { Resume(rows, pipeline, from, limit); }
    }

    /** Drop one pipeline's rows at or below a sequence: everything else stays, in order. */
    method DeleteSpoolThrough(pipeline: string, through: int) returns (removed: nat)
      requires Valid()
      modifies this`spool
      ensures Valid() && spool == Trimmed(old(spool), pipeline, through)
      ensures removed == |old(spool)| - |spool|
    {
      var kept: seq<MemRow> := [];
      removed := 0;
      for i := 0 to |spool|
        invariant removed == i - |kept| && spool == old(spool)
        invariant kept == Trimmed(spool[..i], pipeline, through)
      {
        var r := spool[i];
        assert spool[..i + 1][..i] == spool[..i];
        if r.pipeline == pipeline && r.sq <= through {
          removed := removed + 1;
        } else {
          kept := kept + [r];
        }
      }
      assert spool[..|spool|] == spool;
      TrimmedAscends(spool, pipeline, through);
      forall i | 0 <= i < |kept| ensures 1 <= kept[i].sq <= nextSeq { assert kept[i] in spool; }
      spool := kept;
    }
  }
}
