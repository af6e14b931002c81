/** Abandoning a run of the spine un-wedges its prefix. */
module AbandonRuns {
  import opened Commit
  import opened Persistence
  import Abandon
  import Spool
  import opened Spine
  import opened SpineInvariant
  import opened SpineRuns

  /** The store's rows of this pipeline are the spool's. */
  ghost predicate Lists(rows: seq<Spool.MemRow>, pipeline: string, spool: map<int, Row>) {
    forall q :: q in spool <==> exists x :: x in rows && x.pipeline == pipeline && x.sq == q
  }

  /**
   In every reachable state whose replay is complete, with no admission holding a row that
   is not registered yet and none arriving meanwhile, a successful Abandon leaves no branch
   open and takes the prefix to the last arrival.
   */
  lemma AbandonUnwedges(es: seq<Event>, s: State, rows: seq<Spool.MemRow>, pipeline: string)
    requires Leads(es, false, s) && s.live && s.r.replay.Complete? && s.r.g.hands == map[]
    requires Lists(rows, pipeline, s.d.rows)
    ensures var t' := Abandon.Abandoned(s.r.w.tracker, rows, pipeline);
      t'.openBranches == 0 && t'.committedPtr - 1 == t'.arrivedMax
  {
    ReachableInv(es, s);
    var t := s.r.w.tracker;
    Abandon.AbandonDrainsIff(t, rows, pipeline);
    OpenRowsReachable(s, rows, pipeline);
    NoHoles(s);
  }

  lemma OpenRowsReachable(s: State, rows: seq<Spool.MemRow>, pipeline: string)
    requires Inv(s) && s.live && !s.r.replay.NotStarted? && Lists(rows, pipeline, s.d.rows)
    ensures forall q :: Units(s.r.w.tracker.outstanding, q) > 0 ==>
              Abandon.Reachable(rows, pipeline, s.r.w.tracker.committedPtr, q)
  {
    var t := s.r.w.tracker;
    forall q | Units(t.outstanding, q) > 0 ensures Abandon.Reachable(rows, pipeline, t.committedPtr, q) {
      assert q in t.outstanding && q >= t.committedPtr && q in s.d.rows;
      var x :| x in rows && x.pipeline == pipeline && x.sq == q;
    }
  }

  lemma NoHoles(s: State)
    requires Inv(s) && s.live && s.r.replay.Complete? && s.r.g.hands == map[]
    ensures var t := s.r.w.tracker; forall q :: t.committedPtr <= q <= t.arrivedMax ==> Abandon.Known(t, q)
  {
    assert Accounted(s.d.nextSeq, s.r.w.tracker, s.r.g.hands, s.r.replay);
  }
}
