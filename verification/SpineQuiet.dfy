/** Quiesced as the code takes it: one read after the other, with the engine moving in between. */
module SpineQuiet {
  import opened Commit
  import opened Persistence
  import opened Spine
  import opened SpineInvariant
  import opened SpineRuns

  predicate Uninterrupted(es: seq<Event>) { forall i :: 0 <= i < |es| ==> !es[i].Crash? }

  /** Replay is over, and what is in hand was accepted from row n on. */
  ghost predicate Later(s: State, n: int) {
    s.live && ReplayOver(s.r.replay) && n <= s.d.nextSeq && forall q :: q in s.r.g.hands ==> q >= n
  }

  lemma StepLater(s: State, e: Event, n: int)
    requires Enabled(s, e, true) && Later(s, n) && !e.Crash?
    ensures Later(Step(s, e), n) && Step(s, e).r.replay == s.r.replay
  {
    if IsAdmission(e) {
      AdmissionLater(s, e, n);
    } else if !IsBranchEvent(e) {
      ControlLater(s, e, n);
    }
  }

  lemma AdmissionLater(s: State, e: Event, n: int)
    requires IsAdmission(e) && AdmissionEnabled(s, e, true) && Later(s, n)
    ensures Later(AdmissionStep(s, e), n) && AdmissionStep(s, e).r.replay == s.r.replay
  {}

  lemma ControlLater(s: State, e: Event, n: int)
    requires !IsAdmission(e) && !IsBranchEvent(e) && ControlEnabled(s, e) && Later(s, n) && !e.Crash?
    ensures Later(ControlStep(s, e), n) && ControlStep(s, e).r.replay == s.r.replay
  {}

  lemma {:induction false} RunLater(s: State, es: seq<Event>, s': State, n: int)
    requires Inv(s) && After(s, es, false) == Some(s') && Uninterrupted(es) && Later(s, n)
    ensures Inv(s') && Later(s', n) && s'.r.replay == s.r.replay
    decreases |es|
  {
    if es != [] {
      LateIsEnabled(s, es[0]);
      StepKeeps(s, es[0]);
      StepLater(s, es[0], n);
      RunLater(Step(s, es[0]), es[1..], s', n);
    }
  }

  lemma DrainedBelow(s: State, n: int)
    requires Inv(s) && Later(s, n) && s.r.w.tracker.openBranches == 0
    ensures s.r.w.tracker.committedPtr >= n <==> forall q :: 1 <= q < n ==> !Unscanned(s.r.replay, q)
  {
    var t := s.r.w.tracker;
    if t.committedPtr < n {
      var q := t.committedPtr;
      if q in t.outstanding { OpenZero(t.outstanding, t.arrivedMax, q); }
      assert q !in t.outstanding && q !in t.removed && Unscanned(s.r.replay, q);
    }
  }

  /** The four reads that matter, each in a later state of the same run than the one before. */
  ghost predicate ReadsQuiet(a: State, ab: seq<Event>, b: State, bc: seq<Event>, c: State, cd: seq<Event>, d: State) {
    && a.live && ReplayOver(a.r.replay)
    && After(a, ab, false) == Some(b) && Uninterrupted(ab) && b.r.g.adm == map[]
    && After(b, bc, false) == Some(c) && Uninterrupted(bc) && c.r.w.tracker.openBranches == 0
    && After(c, cd, false) == Some(d) && Uninterrupted(cd)
    && d.r.barrier.attempted >= c.r.w.tracker.committedPtr - 1
  }

  /**
   When the reads of Quiesced, taken one after the other while the engine goes on, all
   pass: the prefix of the snapshot covers every row accepted before the admissions were
   read exactly when the replay scan was not cut short before one of them; then each of
   those rows is settled, and persistence was attempted for a prefix that covers them.
   */
  lemma QuiescedReadsAreSound(es: seq<Event>, a: State, ab: seq<Event>, b: State, bc: seq<Event>, c: State,
                              cd: seq<Event>, d: State)
    requires Leads(es, false, a) && ReadsQuiet(a, ab, b, bc, c, cd, d)
    ensures c.r.w.tracker.committedPtr >= b.d.nextSeq <==>
              forall q :: 1 <= q < b.d.nextSeq ==> !Unscanned(a.r.replay, q)
    ensures a.r.replay.Complete? ==> c.r.w.tracker.committedPtr >= b.d.nextSeq
    ensures c.r.w.tracker.committedPtr >= b.d.nextSeq ==>
      && (forall q :: 1 <= q < b.d.nextSeq ==> Settled(c.d, c.past, c.r.w.exec, q))
      && (b.d.nextSeq > 1 ==> exists p :: p in d.r.attempted && p >= b.d.nextSeq - 1)
  {
    ReachableInv(es, a);
    RunLater(a, ab, b, 0);
    EmptyHands(b);
    RunLater(b, bc, c, b.d.nextSeq);
    RunLater(c, cd, d, b.d.nextSeq);
    DrainedBelow(c, b.d.nextSeq);
    Covered(c, d, b.d.nextSeq);
  }

  lemma EmptyHands(s: State)
    requires Inv(s) && s.live && ReplayOver(s.r.replay) && s.r.g.adm == map[]
    ensures Later(s, s.d.nextSeq)
  {}

  lemma Covered(c: State, d: State, n: int)
    requires Inv(c) && c.live && Inv(d) && d.live && !d.r.replay.NotStarted?
    requires d.r.barrier.attempted >= c.r.w.tracker.committedPtr - 1
    ensures c.r.w.tracker.committedPtr >= n ==>
      && (forall q :: 1 <= q < n ==> Settled(c.d, c.past, c.r.w.exec, q))
      && (n > 1 ==> exists p :: p in d.r.attempted && p >= n - 1)
  {
    if c.r.w.tracker.committedPtr >= n > 1 { assert d.r.barrier.attempted in d.r.attempted; }
  }
}
