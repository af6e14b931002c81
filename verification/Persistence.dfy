/**
 What the engine makes durable and when (internal/engine/engine.go persistCheckpoint,
 internal/engine/sourcecommit.go, internal/engine/admission.go replayEntry): the
 checkpoint barrier with its spool retention, the per-source watermark committer and
 the stamps that decide where a replayed row re-enters.
 */
module Persistence {

  // --- checkpoint, flush barrier, retention ---

  /** The engine's monotonic guards (persistMu). */
  datatype Barrier = Barrier(persisted: int, attempted: int, due: int)

  /** What the store holds: the checkpoint, and the highest cutoff trimmed away. */
  datatype Stored = Stored(checkpoint: int, trimmed: int)

  datatype Persisted = Persisted(barrier: Barrier, stored: Stored, posts: bool)

  function Max(a: int, b: int): int { if a > b then a else b }

  /** The sweep that rides one advance once the window is due. */
  function Trim(b: Barrier, st: Stored, retention: int, trimOk: bool): (Barrier, Stored)
    requires retention > 0
  {
    if b.persisted < b.due then (b, st)
    else
      var cutoff := b.persisted - retention;
      (b.(due := (b.persisted / retention + 1) * retention),
       if cutoff > 0 && trimOk then st.(trimmed := Max(st.trimmed, cutoff)) else st)
  }

  /** The checkpoint write of one advance; a failed one consumes the flush position and ends the flush. */
  function Advanced(b: Barrier, st: Stored, through: int, cpOk: bool): (Barrier, Stored, bool) {
    if through > b.persisted && !cpOk then (b.(attempted := through), st, false)
    else (b.(persisted := Max(b.persisted, through), attempted := Max(b.attempted, through)),
          if through > b.persisted then st.(checkpoint := through) else st,
          true)
  }

  /**
   One advance, with the store's answers to the checkpoint write and the trim. A failed
   write consumes the flush position and posts no frontier.
   */
  function Persist(b: Barrier, st: Stored, retention: int, through: int, cpOk: bool, trimOk: bool): Persisted
    requires retention > 0
  {
    var a := Advanced(b, st, through, cpOk);
    if !a.2 then Persisted(a.0, a.1, false)
    else var t := Trim(a.0, a.1, retention, trimOk); Persisted(t.0, t.1, true)
  }

  /** The durable checkpoint equals the guard, and retention never reaches past it. */
  ghost predicate Guarded(b: Barrier, st: Stored) {
    b.persisted == st.checkpoint && 0 <= st.trimmed <= st.checkpoint
  }

  /** With trims that succeed, fewer than two windows of rows stay at or below the checkpoint. */
  ghost predicate Bounded(b: Barrier, st: Stored, retention: int) {
    st.checkpoint - st.trimmed < 2 * retention && b.due <= st.trimmed + 2 * retention
  }

  /**
   Whatever order advances flush in and whichever writes fail: the stored checkpoint
   never decreases, moves only to a value that was written, and no row beyond it is
   trimmed; frontiers are posted only behind a durable checkpoint.
   */
  lemma PersistIsSafe(b: Barrier, st: Stored, retention: int, through: int, cpOk: bool, trimOk: bool)
    requires retention > 0 && Guarded(b, st)
    ensures var p := Persist(b, st, retention, through, cpOk, trimOk);
      && Guarded(p.barrier, p.stored)
      && p.stored.checkpoint == (if cpOk then Max(st.checkpoint, through) else st.checkpoint)
      && p.stored.trimmed >= st.trimmed
      && (p.posts <==> through <= p.stored.checkpoint)
      && (through >= 0 ==> p.barrier.attempted >= through)
  {}

  /** The trim half alone: from a schedule that is in time it leaves one that is, and is not yet due. */
  lemma TrimCatchesUp(b: Barrier, st: Stored, retention: int)
    requires retention > 0 && Guarded(b, st) && (b.due > 0 ==> b.due <= st.trimmed + 2 * retention)
    ensures var t := Trim(b, st, retention, true);
      0 < t.0.due <= t.1.trimmed + 2 * retention && t.1.checkpoint == st.checkpoint < t.0.due
  {
    var pt := b.persisted;
    assert pt < (pt / retention + 1) * retention <= pt + retention by {
      assert pt == (pt / retention) * retention + pt % retention;
    }
  }

  lemma RetentionBound(b: Barrier, st: Stored, retention: int, through: int, cpOk: bool)
    requires retention > 0 && Guarded(b, st) && Bounded(b, st, retention)
    ensures var p := Persist(b, st, retention, through, cpOk, true); Bounded(p.barrier, p.stored, retention)
  {
    var a := Advanced(b, st, through, cpOk);
    TrimCatchesUp(a.0, a.1, retention);
  }

  /**
   The window behind the checkpoint is kept: one advance never trims beyond what the stored
   checkpoint leaves of it. A sweep that is due takes all that lies before the window, when
   there is something and the sweep succeeds; otherwise nothing is trimmed.
   */
  lemma WindowIsKept(b: Barrier, st: Stored, retention: int, through: int, cpOk: bool, trimOk: bool)
    requires retention > 0 && Guarded(b, st)
    ensures var p := Persist(b, st, retention, through, cpOk, trimOk);
      && (p.stored.trimmed == st.trimmed || p.stored.trimmed == p.stored.checkpoint - retention)
      && (p.posts && p.stored.checkpoint >= b.due && trimOk && p.stored.checkpoint - retention > st.trimmed ==>
            p.stored.trimmed == p.stored.checkpoint - retention)
      && (p.stored.checkpoint < b.due || !trimOk || !p.posts ==> p.stored.trimmed == st.trimmed)
  {}

  /** A large advance and a crash before its trim: 30 rows stay behind the checkpoint with a retention of 10. */
  lemma CrashBeforeTrim()
    ensures var a := Advanced(Barrier(19, 19, 20), Stored(19, 9), 39, true);
      Bounded(Barrier(19, 19, 20), Stored(19, 9), 10) && a.1.checkpoint - a.1.trimmed == 30
  {}

  /**
   The flush position, unlike the checkpoint, can move backwards: it does exactly when a
   checkpoint write fails for an advance below it.
   */
  lemma AttemptRegressesIff(b: Barrier, st: Stored, retention: int, through: int, cpOk: bool, trimOk: bool)
    requires retention > 0
    ensures Persist(b, st, retention, through, cpOk, trimOk).barrier.attempted < b.attempted <==>
              !cpOk && b.persisted < through < b.attempted
  {}

  /** Two failing advances flushed out of order lower the flush position from 10 to 8. */
  lemma AttemptRegresses(retention: int)
    requires retention > 0
    ensures var b0, st := Barrier(0, 0, 0), Stored(0, 0);
      var p1 := Persist(b0, st, retention, 10, false, true);
      var p2 := Persist(p1.barrier, p1.stored, retention, 8, false, true);
      p1.barrier.attempted == 10 && p2.barrier.attempted == 8
  {}

  /** The engine's persistence fields, with the store they write to. */
  class Persister {
    var persistedThrough: int
    var flushAttempted: int
    var retentionDue: int
    var checkpoint: int
    var trimmed: int
    const retention: int

    ghost function Barriers(): Barrier reads this { Barrier(persistedThrough, flushAttempted, retentionDue) }

    ghost function Store(): Stored reads this { Stored(checkpoint, trimmed) }

    constructor (retention: int, checkpoint: int, trimmed: int)
      ensures Barriers() == Barrier(0, 0, 0) && Store() == Stored(checkpoint, trimmed)
      ensures this.retention == retention
    {
      persistedThrough, flushAttempted, retentionDue := 0, 0, 0;
      this.checkpoint, this.trimmed, this.retention := checkpoint, trimmed, retention;
    }

    method PersistCheckpoint(through: int, cpOk: bool, trimOk: bool) returns (posts: bool)
      requires retention > 0
      modifies this
      ensures Persisted(Barriers(), Store(), posts)
           == Persist(old(Barriers()), old(Store()), retention, through, cpOk, trimOk)
    {
      if through > persistedThrough {
        if !cpOk {
          flushAttempted := through;
          return false;
        }
        checkpoint := through;
        persistedThrough := through;
      }
      if through > flushAttempted { flushAttempted := through; }
      if persistedThrough >= retentionDue {
        var cutoff := persistedThrough - retention;
        if cutoff > 0 && trimOk && cutoff > trimmed { trimmed := cutoff; }
        retentionDue := (persistedThrough / retention + 1) * retention;
      }
      posts := true;
    }

    /** Seed the barriers with the recovered checkpoint. */
    method ResumeCheckpoint(cp: int)
      requires cp == checkpoint
      modifies this`persistedThrough, this`flushAttempted
      ensures old(Barriers()) == Barrier(0, 0, 0) && cp > 0 && 0 <= trimmed <= cp ==> Guarded(Barriers(), Store())
      ensures Barriers() == if cp <= 0 then old(Barriers())
                            else Barrier(Max(old(persistedThrough), cp), Max(old(flushAttempted), cp), retentionDue)
    {
      if cp <= 0 { return; }
      if cp > persistedThrough { persistedThrough := cp; }
      if cp > flushAttempted { flushAttempted := cp; }
    }
  }

  // --- source committer ---

  /** The answers one attempt gets: from the source's Commit, then from the state write. */
  datatype Attempt = CommitFailed | WriteFailed | StateStored

  /**
   The watermark worker of one source. An attempt reads the pending frontier under the
   lock, calls out without it, and takes the lock again, so posts can land in between.
   */
  class SourceCommitter {
    var pending: int
    var persisted: int
    /** The wake channel: at most one wakeup is ever queued. */
    var woken: bool
    /** The frontier of the last state write that succeeded (0 before any). */
    var stored: int
    /** The frontier an attempt is calling out with. */
    var inFlight: Option<int>
    /** An attempt failed and nothing was posted or stored since. */
    ghost var failed: bool

    /** Unpersisted work is waiting on a wakeup, on the attempt in flight, or on a failed attempt. */
    ghost predicate Valid()
      reads this
    {
      && 0 <= persisted <= pending && stored == persisted
      && (inFlight.Some? ==> persisted < inFlight.value <= pending)
      && (inFlight.Some? && inFlight.value < pending ==> woken)
      && (pending > persisted ==> woken || inFlight.Some? || failed)
    }

    constructor ()
      ensures Valid() && pending == 0 && !woken
    {
      pending, persisted, woken, stored, inFlight, failed := 0, 0, false, 0, None, false;
    }

    /** Keep the highest frontier and wake the worker when there is unpersisted work. */
    method Post(frontier: int)
      requires Valid()
      modifies this`pending, this`woken
      ensures Valid()
      ensures pending == Max(old(pending), frontier)
      ensures woken == (old(woken) || (frontier > 0 && pending > persisted))
    {
      if frontier <= 0 { return; }
      if frontier > pending { pending := frontier; }
      if pending > persisted { woken := true; }
    }

    /** Consume the wakeup and take the coalesced maximum. */
    method Begin()
      requires Valid() && inFlight.None?
      modifies this`woken, this`inFlight
      ensures Valid() && !woken
      ensures inFlight == if pending > persisted then Some(pending) else None
    {
      woken := false;
      if pending > persisted { inFlight := Some(pending); }
    }

    /** A failure keeps the pending value; a success stores exactly the frontier taken, never a lower one. */
    method Finish(a: Attempt)
      requires Valid() && inFlight.Some?
      modifies this`persisted, this`stored, this`inFlight, this`failed
      ensures Valid() && inFlight.None?
      ensures persisted == if a == StateStored then old(inFlight).value else old(persisted)
      ensures stored >= old(stored)
    {
      var frontier := inFlight.value;
      inFlight := None;
      if a == CommitFailed || a == WriteFailed {
        failed := true;
        return;
      }
      stored := frontier;
      if frontier > persisted { persisted := frontier; }
      failed := false;
    }
  }

  datatype Option<+T> = None | Some(value: T)

  // --- stamps and the replay entry ---

  /** The stamps of a spooled row that replay reads back. */
  datatype Row = Row(source: string, injectedAt: string)

  /**
   Stamp one admission. Only an injection into an internal node writes the injection
   stamp; any other admission keeps whatever the message's metadata carried.
   */
  function Stamp(node: string, into: bool, inherited: string): Row {
    Row(node, if into then node else inherited)
  }

  /** Where a spooled row re-enters, and whether into the node or out of it. */
  function ReplayEntry(nodes: set<string>, row: Row): Option<(string, bool)> {
    if row.injectedAt != "" && row.injectedAt in nodes then Some((row.injectedAt, true))
    else if row.source != "" && row.source in nodes then Some((row.source, false))
    else None
  }

  /**
   Replay re-enters a row where admission dispatched it exactly when the admission was
   into the node, or the message brought no injection stamp naming a known node. A
   re-injection at a source of a message that was once injected elsewhere does not
   qualify: its old stamp wins over its source.
   */
  lemma ReplayReentersIff(nodes: set<string>, node: string, into: bool, inherited: string)
    requires node != "" && node in nodes
    ensures ReplayEntry(nodes, Stamp(node, into, inherited)) == Some((node, into)) <==>
              into || inherited == "" || inherited !in nodes
  {}
}
