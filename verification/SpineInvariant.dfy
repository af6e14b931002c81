/** What every step of the spine keeps, when injections wait for replay to finish. */
module SpineInvariant {
  import opened Commit
  import opened Persistence
  import opened Spine

  // --- the invariant, piece by piece ---

  /** Rows beyond what was trimmed are all there; trimming stays behind the checkpoint. */
  ghost predicate RowsInv(d: Durable) {
    && 0 <= d.stored.trimmed <= d.stored.checkpoint < d.nextSeq
    && (forall q :: q in d.rows ==> d.stored.trimmed < q < d.nextSeq)
    && (forall q :: d.stored.trimmed < q < d.nextSeq ==> q in d.rows)
  }

  ghost predicate SettledBelow(d: Durable, past: map<int, seq<Leaf>>, exec: map<int, seq<Leaf>>, bound: int) {
    forall q :: 1 <= q < bound ==> Settled(d, past, exec, q)
  }

  /** Every item of n's input up to `upto` was accepted as a row at or below cp. */
  ghost predicate Covered(home: map<(string, int), int>, n: string, upto: int, cp: int) {
    forall i :: 1 <= i <= upto ==> (n, i) in home && 1 <= home[(n, i)] <= cp
  }

  ghost predicate AllCovered(home: map<(string, int), int>, marks: map<string, int>, cp: int) {
    forall n :: n in marks ==> Covered(home, n, marks[n], cp)
  }

  /** Branch conservation: a registered count is the number of open branches. */
  ghost predicate Conserves(d: Durable, t: Tracker, exec: map<int, seq<Leaf>>) {
    && (forall q :: q in exec ==> 1 <= q < d.nextSeq && exec[q] != [] && AllBacked(d, q, exec[q]))
    && (forall q :: q in t.outstanding ==> q in exec && t.outstanding[q] == Open(exec[q]))
    && (forall q :: q in exec && q !in t.outstanding ==> Open(exec[q]) == 0 || q in d.canceled)
    && (forall q :: q in t.removed ==> q in d.canceled && q in exec)
  }

  /** No straggler: nothing is registered below the cursor. */
  ghost predicate Ahead(t: Tracker) { forall q :: q in t.outstanding || q in t.removed ==> q >= t.committedPtr }

  ghost predicate TrackerInv(d: Durable, past: map<int, seq<Leaf>>, t: Tracker, exec: map<int, seq<Leaf>>) {
    && Commit.Valid(t) && t.arrivedMax < d.nextSeq
    && Conserves(d, t, exec)
    && SettledBelow(d, past, exec, t.committedPtr)
  }

  /** Emissions 1..f of n are registered, in rows at or below bound. */
  ghost predicate Behind(log: Log, n: string, f: int, bound: int) {
    forall k :: 1 <= k <= f ==> (n, k) in log && log[(n, k)] <= bound
  }

  ghost predicate LogInv(t: Tracker, log: Log, base: map<string, int>, home: map<(string, int), int>, known: set<int>) {
    && Exact(t.srcRefs, t.srcs, log)
    && SweptIsCommitted(t.srcRefs, log, t.committedPtr)
    && Homed(log, base, home, known)
  }

  /** The sweep has consumed exactly the emissions whose rows the prefix crossed. */
  ghost predicate SweptIsCommitted(refs: seq<Ref>, log: Log, ptr: int) {
    forall n, k :: (n, k) in log ==> (Swept(refs, log, n, k) <==> log[(n, k)] < ptr)
  }

  /** Every emission's row is registered, and its item's earliest row is no later. */
  ghost predicate Homed(log: Log, base: map<string, int>, home: map<(string, int), int>, known: set<int>) {
    forall n, k :: (n, k) in log ==>
      n in base && log[(n, k)] in known && (n, base[n] + k) in home && 1 <= home[(n, base[n] + k)] <= log[(n, k)]
  }

  ghost predicate CallsInv(t: Tracker, log: Log, calls: multiset<Call>, known: set<int>) {
    forall c :: c in calls ==>
      match c
      case Release(q) => q in known && q !in t.outstanding
      case Flush(through, fr) => 0 <= through < t.committedPtr && forall n :: n in fr ==> Behind(log, n, fr[n], through)
  }

  ghost predicate PostsInv(log: Log, posted: map<string, int>, cp: int) {
    forall n :: n in posted ==> Behind(log, n, posted[n], cp)
  }

  predicate Holds(a: Adm, q: int) {
    (a.stage.Spooled? && a.stage.sq == q) || (a.stage.Ledgered? && a.stage.sq == q)
  }

  /** A row replay has yet to visit (or never will, once the scan was cut short). */
  predicate Unscanned(r: Replay, q: int) {
    match r
    case Scanning(c) => q > c
    case Stopped(c, until) => c < q < until
    case _ => false
  }

  /** Rows in hand are unregistered, each in the hands of the one admission whose stage says so. */
  ghost predicate HandsInv(nextSeq: int, known: set<int>, g: Gate) {
    && (forall q :: q in g.hands ==>
          1 <= q < nextSeq && q !in known && g.hands[q] in g.adm && Holds(g.adm[g.hands[q]], q))
    && (forall id :: id in g.adm && (g.adm[id].stage.Spooled? || g.adm[id].stage.Ledgered?) ==>
          g.adm[id].stage.sq in g.hands && g.hands[g.adm[id].stage.sq] == id)
  }

  /** A live admission carries an emission of a source that is not registered before its turn. */
  ghost predicate EmissionsInv(log: Log, sources: set<string>, adm: map<Id, Adm>) {
    forall n, k :: Emission(n, k) in adm ==>
      k >= 1 && n in sources && (!adm[Emission(n, k)].stage.Registered? ==> (n, k) !in log)
  }

  /** A row beyond the prefix is registered, marked, in an admission's hands or still unscanned. */
  ghost predicate Accounted(nextSeq: int, t: Tracker, hands: map<int, Id>, replay: Replay) {
    forall q :: t.committedPtr <= q < nextSeq ==>
      q in t.outstanding || q in t.removed || q in hands || Unscanned(replay, q)
  }

  /** What is not registered yet lies beyond the prefix. */
  ghost predicate Beyond(ptr: int, hands: map<int, Id>, replay: Replay) {
    && (forall q :: q in hands ==> q >= ptr)
    && (forall q :: Unscanned(replay, q) ==> q >= ptr)
  }

  predicate ReplayOnly(a: Adm) { a.replayed && !a.stage.Waiting? && !a.stage.Holding? }

  /** Until replay is over only replay admits, and it stays behind its cursor. */
  ghost predicate ReplayInv(known: set<int>, g: Gate, replay: Replay, sourcesOn: bool) {
    && (!ReplayOver(replay) ==> !sourcesOn && forall id :: id in g.adm ==> ReplayOnly(g.adm[id]))
    && (forall q :: q in known || q in g.acquired || q in g.hands ==> !Unscanned(replay, q))
  }

  function Holders(adm: map<Id, Adm>): set<Id> {
    set id | id in adm && (adm[id].stage.Holding? || adm[id].stage.Spooled?)
  }

  lemma SubsetSize(a: set<int>, b: set<int>)
    requires a <= b
    ensures |a| <= |b|
  {
    assert b == a + (b - a);
  }

  /** Admissions that each hold a row of their own are no fewer than the rows. */
  lemma {:induction false} OwnHolders(rows: set<int>, holder: map<int, Id>, ids: set<Id>, bound: nat)
    requires forall q :: q in rows ==> 0 <= q < bound && q in holder && holder[q] in ids
    requires forall p, q :: p in rows && q in rows && holder[p] == holder[q] ==> p == q
    ensures |rows| <= |ids|
    decreases bound
  {
    if bound == 0 {
      assert forall q :: q !in rows;
      assert |rows| == 0;
    } else if bound - 1 in rows {
      OwnHolders(rows - {bound - 1}, holder, ids - {holder[bound - 1]}, bound - 1);
    } else {
      OwnHolders(rows, holder, ids, bound - 1);
    }
  }

  /** Slots taken are ledger entries, admissions short of the ledger, and slots on their way back. */
  ghost predicate GateInv(nextSeq: int, g: Gate) {
    && g.taken == |g.acquired| + |Holders(g.adm)| + g.freeing
    && g.taken <= g.limit
    && (forall q :: q in g.acquired ==> 1 <= q < nextSeq)
    && (forall id :: id in g.adm && g.adm[id].stage.Spooled? ==> g.adm[id].stage.sq !in g.acquired)
    && (forall id :: id in g.adm && g.adm[id].stage.Ledgered? ==> g.adm[id].stage.sq in g.acquired)
  }

  ghost predicate AdmInv(nextSeq: int, t: Tracker, known: set<int>, g: Gate, replay: Replay, sourcesOn: bool) {
    && HandsInv(nextSeq, known, g)
    && ReplayInv(known, g, replay, sourcesOn)
    && GateInv(nextSeq, g)
    && Beyond(t.committedPtr, g.hands, replay)
    && (!replay.NotStarted? ==> Accounted(nextSeq, t, g.hands, replay))
    && (replay.Stopped? ==> replay.until <= nextSeq)
  }

  /** A row whose entry node no longer exists takes no slot. */
  predicate Orphan(ls: seq<Leaf>) { ls == [Pending(Unroutable)] || ls == [Ended(Undeliverable)] }

  /** Every registered message but an undeliverable row holds a ledger slot. */
  ghost predicate Slotted(outstanding: map<int, int>, exec: map<int, seq<Leaf>>, acquired: set<int>) {
    forall q :: q in outstanding && q in exec ==> q in acquired || Orphan(exec[q])
  }

  ghost predicate BarrierInv(d: Durable, r: Run) {
    && Guarded(r.barrier, d.stored) && d.stored.checkpoint < r.w.tracker.committedPtr
    && (r.barrier.attempted == 0 || r.barrier.attempted in r.attempted)
    && r.barrier.attempted < r.w.tracker.committedPtr
  }

  ghost predicate RunInv(s: State) {
    var (d, r, w) := (s.d, s.r, s.r.w);
    && TrackerInv(d, s.past, w.tracker, w.exec) && Maximal(w.tracker) && Ahead(w.tracker)
    && LogInv(w.tracker, w.log, r.base, s.home, w.exec.Keys)
    && w.tracker.srcs.Keys == Sources(r.pipe)
    && CallsInv(w.tracker, w.log, w.calls, w.exec.Keys)
    && PostsInv(w.log, r.posted, d.stored.checkpoint) && PostsInv(w.log, r.inFlight, d.stored.checkpoint)
    && PostsInv(w.log, r.owed, d.stored.checkpoint)
    && AllCovered(s.home, r.base, d.stored.checkpoint)
    && EmissionsInv(w.log, r.base.Keys, r.g.adm)
    && AdmInv(d.nextSeq, w.tracker, w.exec.Keys, r.g, r.replay, r.sourcesOn)
    && Slotted(w.tracker.outstanding, w.exec, r.g.acquired)
    && (forall q :: q in r.canceling ==> q in d.canceled)
    && StartInv(s)
  }

  /** Before the checkpoint is recovered the run is empty; from then on its rows are accounted for. */
  ghost predicate StartInv(s: State) {
    var (d, r, w) := (s.d, s.r, s.r.w);
    && r.retention > 0
    && (r.replay.NotStarted? ==> r == Fresh(r.pipe, r.g.limit, r.retention).(stopping := r.stopping))
    && (!r.replay.NotStarted? ==> BarrierInv(d, r))
    && (if r.sourcesOn then r.base.Keys == Sources(r.pipe) else w.log == map[] && r.base == map[])
  }

  ghost predicate Inv(s: State) {
    && RowsInv(s.d)
    && SettledBelow(s.d, s.past, if s.live then s.r.w.exec else map[], s.d.stored.checkpoint + 1)
    && AllCovered(s.home, s.d.marks, s.d.stored.checkpoint)
    && (forall x :: x in s.home ==> s.home[x] >= 1)
    && (s.live ==> RunInv(s))
  }

  // --- durable records only accumulate ---

  /** Acknowledgements, dead letters, cancellations, verdicts and row ids are never taken back. */
  ghost predicate Accumulates(d: Durable, d': Durable) {
    && d.nextSeq <= d'.nextSeq && d.acked <= d'.acked && d.canceled <= d'.canceled && d.verdicts <= d'.verdicts
    && (forall id :: id in d.records ==> id in d'.records && d'.records[id] == d.records[id])
  }

  lemma BackedStays(d: Durable, d': Durable, q: int, ls: seq<Leaf>)
    requires Accumulates(d, d') && AllBacked(d, q, ls)
    ensures AllBacked(d', q, ls)
  {
    forall i | 0 <= i < |ls| ensures Backed(d', q, ls[i]) { assert Backed(d, q, ls[i]); }
  }

  lemma SettledStays(d: Durable, d': Durable, past: map<int, seq<Leaf>>, exec: map<int, seq<Leaf>>, bound: int)
    requires Accumulates(d, d') && SettledBelow(d, past, exec, bound)
    ensures SettledBelow(d', past, exec, bound)
  {
    forall q | 1 <= q < bound ensures Settled(d', past, exec, q) {
      assert Settled(d, past, exec, q);
      if q in past && Finished(d, q, past[q]) { BackedStays(d, d', q, past[q]); }
      if q in exec && Finished(d, q, exec[q]) { BackedStays(d, d', q, exec[q]); }
    }
  }

  lemma TrackerInvStays(d: Durable, d': Durable, past: map<int, seq<Leaf>>, t: Tracker, exec: map<int, seq<Leaf>>)
    requires Accumulates(d, d') && TrackerInv(d, past, t, exec)
    ensures TrackerInv(d', past, t, exec)
  {
    SettledStays(d, d', past, exec, t.committedPtr);
    forall q | q in exec ensures AllBacked(d', q, exec[q]) { BackedStays(d, d', q, exec[q]); }
  }

  // --- one advance of the prefix ---

  lemma {:induction false} ReleasesMembers(qs: seq<int>)
    ensures forall c :: c in Releases(qs) ==> c.Release? && c.sq in qs
  {
    if qs != [] { ReleasesMembers(qs[1..]); }
  }

  /** What the prefix crosses is settled: drained executions and canceled messages. */
  lemma AdvanceTracker(d: Durable, past: map<int, seq<Leaf>>, t: Tracker, exec: map<int, seq<Leaf>>)
    requires TrackerInv(d, past, t, exec)
    ensures TrackerInv(d, past, Advance(t).0, exec) && Maximal(Advance(t).0)
    ensures t.committedPtr <= Advance(t).0.committedPtr
  {
    var a := Advance(t).0;
    AdvanceKeeps(t);
    AdvanceFields(t);
    forall q | 1 <= q < a.committedPtr ensures Settled(d, past, exec, q) {
      if q >= t.committedPtr {
        assert Passable(t, q);
        if q in t.outstanding { OpenNone(exec[q]); }
      }
    }
    forall q | q in exec && q !in a.outstanding ensures Open(exec[q]) == 0 || q in d.canceled {
      if q in t.outstanding { assert Passable(t, q); }
    }
  }

  lemma AdvanceSwept(t: Tracker, log: Log)
    requires Commit.Valid(t) && Sorted(t.srcRefs) && SweptIsCommitted(t.srcRefs, log, t.committedPtr)
    ensures SweptIsCommitted(Advance(t).0.srcRefs, log, Advance(t).0.committedPtr)
  {
    var a := Advance(t).0;
    AdvanceKeeps(t);
    HeadIsExact(t.srcRefs, a.committedPtr - 1);
    forall n, k | (n, k) in log ensures Swept(a.srcRefs, log, n, k) <==> log[(n, k)] < a.committedPtr {
      assert Swept(t.srcRefs, log, n, k) <==> log[(n, k)] < t.committedPtr;
    }
  }

  lemma AdvanceLog(t: Tracker, log: Log, base: map<string, int>, home: map<(string, int), int>, known: set<int>)
    requires LogInv(t, log, base, home, known) && Commit.Valid(t)
    ensures LogInv(Advance(t).0, log, base, home, known)
    ensures Advance(t).1.advanced ==>
              forall n :: n in Advance(t).1.frontiers ==>
                  Behind(log, n, Advance(t).1.frontiers[n], Advance(t).1.through)
  {
    var (a, e) := Advance(t);
    AdvanceExact(t, log);
    AdvanceKeeps(t);
    AdvanceFields(t);
    AdvanceSwept(t, log);
    if e.advanced {
      forall n | n in e.frontiers ensures Behind(log, n, e.frontiers[n], e.through) {
        assert SourceExact(a.srcs[n], a.srcRefs, log, n);
        forall k | 1 <= k <= e.frontiers[n] ensures (n, k) in log && log[(n, k)] <= e.through {
          assert Swept(a.srcRefs, log, n, k);
        }
      }
    }
  }

  /** What a tracker call that ends in an advance owes keeps the callbacks' facts. */
  lemma AdvanceCalls(t0: Tracker, t: Tracker, log: Log, calls: multiset<Call>, base: map<string, int>,
                     home: map<(string, int), int>, known: set<int>)
    requires CallsInv(t0, log, calls, known) && LogInv(t, log, base, home, known) && Commit.Valid(t)
    requires t.committedPtr == t0.committedPtr
    requires forall q :: q in t.outstanding ==> q in t0.outstanding && q in known
    ensures CallsInv(Advance(t).0, log, calls + Owed(Advance(t).1), known)
  {
    var (a, e) := Advance(t);
    AdvanceLog(t, log, base, home, known);
    AdvanceKeeps(t);
    AdvanceFields(t);
    ReleasesMembers(e.justCommit);
    forall c | c in calls + Owed(e)
      ensures match c
              case Release(q) => q in known && q !in a.outstanding
              case Flush(through, fr) =>
                  0 <= through < a.committedPtr && forall n :: n in fr ==> Behind(log, n, fr[n], through)
    {
      assert c in calls || c in Releases(e.justCommit) || (e.advanced && c == Flush(e.through, e.frontiers));
    }
  }

  /** The prefix never crosses a row that is in hand or unscanned. */
  lemma AdvanceAdm(nextSeq: int, t: Tracker, known: set<int>, g: Gate, replay: Replay, sourcesOn: bool)
    requires AdmInv(nextSeq, t, known, g, replay, sourcesOn) && Commit.Valid(t)
    requires forall q :: q in t.outstanding || q in t.removed ==> q in known
    ensures AdmInv(nextSeq, Advance(t).0, known, g, replay, sourcesOn)
  {
    AdvanceKeeps(t);
    AdvanceFields(t);
    forall q | t.committedPtr <= q < Advance(t).0.committedPtr ensures q in known {
      assert Passable(t, q);
    }
  }

  // --- branch steps ---

  /** The new branches are never none, are backed, and an uncounted step keeps one open branch. */
  lemma TurnedFacts(d: Durable, p: Pipe, q: int, l: Place, e: Event)
    requires IsBranchEvent(e) && e.q == q && Turned(p, l, e).Some? && Backed(d, q, Pending(l))
    requires e.Record? ==> e.rec !in d.records
    ensures var (news, counted) := Turned(p, l, e).value;
      && news != [] && AllBacked(Effect(d, l, e), q, news)
      && (!counted ==> Open(news) == 1)
      && (l.Unroutable? ==> news == [Ended(Undeliverable)])
    ensures Accumulates(d, Effect(d, l, e)) && Effect(d, l, e).stored == d.stored
    ensures Effect(d, l, e) == d.(acked := Effect(d, l, e).acked, records := Effect(d, l, e).records,
                                     verdicts := Effect(d, l, e).verdicts)
  {
    var (news, counted) := Turned(p, l, e).value;
    if !counted {
      assert |news| == 1 && news[0].Pending?;
      AllPendingOpen(news);
    }
  }

  /** The tracker after a branch step's count change, before the prefix advances. */
  function Counted(t: Tracker, q: int, delta: int): Tracker {
    if q in t.outstanding then Recount(t, q, t.outstanding[q] + delta) else t
  }

  lemma ReplaceBacked(d: Durable, q: int, ls: seq<Leaf>, i: nat, news: seq<Leaf>)
    requires i < |ls| && AllBacked(d, q, ls) && AllBacked(d, q, news)
    ensures AllBacked(d, q, Replace(ls, i, news))
  {}

  lemma BranchTracker(d: Durable, d': Durable, past: map<int, seq<Leaf>>, t: Tracker, exec: map<int, seq<Leaf>>,
                      q: int, i: nat, news: seq<Leaf>)
    requires TrackerInv(d, past, t, exec) && Accumulates(d, d')
    requires q in exec && i < |exec[q]| && exec[q][i].Pending?
    requires news != [] && AllBacked(d', q, news)
    ensures TrackerInv(d', past, Counted(t, q, Open(news) - 1), exec[q := Replace(exec[q], i, news)])
  {
    TrackerInvStays(d, d', past, t, exec);
    var ls := Replace(exec[q], i, news);
    ReplaceOpen(exec[q], i, news);
    ReplaceBacked(d', q, exec[q], i, news);
    if q in t.outstanding { RecountKeeps(t, q, t.outstanding[q] + Open(news) - 1); }
    BranchSettled(d', past, exec, q, i, ls, t.committedPtr);
    assert Open(exec[q]) > 0 by { OpenNone(exec[q]); }
    RecountConserves(d', t, exec, q, ls);
  }

  lemma RecountConserves(d: Durable, t: Tracker, exec: map<int, seq<Leaf>>, q: int, ls: seq<Leaf>)
    requires Conserves(d, t, exec) && q in exec && ls != [] && AllBacked(d, q, ls)
    requires q in t.outstanding || q in d.canceled
    ensures Conserves(d, Counted(t, q, Open(ls) - Open(exec[q])), exec[q := ls])
  {}

  /** A message with an open branch is settled, if at all, by something else. */
  lemma BranchSettled(d: Durable, past: map<int, seq<Leaf>>, exec: map<int, seq<Leaf>>, q: int, i: nat, ls: seq<Leaf>,
                      bound: int)
    requires SettledBelow(d, past, exec, bound)
    requires q in exec && i < |exec[q]| && exec[q][i].Pending?
    ensures SettledBelow(d, past, exec[q := ls], bound)
  {
    var exec' := exec[q := ls];
    forall k | 1 <= k < bound ensures Settled(d, past, exec', k) {
      assert Settled(d, past, exec, k);
    }
  }

  /** The ledger still covers every registered message, at most fewer of them. */
  lemma SlottedStays(m: map<int, int>, m': map<int, int>, exec: map<int, seq<Leaf>>, acquired: set<int>, q: int,
                     ls: seq<Leaf>)
    requires Slotted(m, exec, acquired) && q in exec && (Orphan(exec[q]) ==> Orphan(ls))
    requires forall k :: k in m' ==> k in m
    ensures Slotted(m', exec[q := ls], acquired)
  {}

  /** Work after a tracker call that ended in an advance from t1. */
  ghost predicate WorkInv(s: State, t: Tracker, calls: multiset<Call>) {
    && Maximal(t) && Ahead(t)
    && LogInv(t, s.r.w.log, s.r.base, s.home, s.r.w.exec.Keys)
    && CallsInv(t, s.r.w.log, calls, s.r.w.exec.Keys)
    && t.srcs.Keys == Sources(s.r.pipe)
    && AdmInv(s.d.nextSeq, t, s.r.w.exec.Keys, s.r.g, s.r.replay, s.r.sourcesOn)
    && t.committedPtr >= s.r.w.tracker.committedPtr
    && (forall k :: k in t.outstanding ==> k in s.r.w.tracker.outstanding)
  }

  lemma SameQueue(t: Tracker, t1: Tracker, log: Log, base: map<string, int>, home: map<(string, int), int>,
                  known: set<int>)
    requires LogInv(t, log, base, home, known)
    requires t1.srcRefs == t.srcRefs && t1.srcs == t.srcs && t1.committedPtr == t.committedPtr
    ensures LogInv(t1, log, base, home, known)
  {}

  /** The facts about a tracker that an advance from t carries over. */
  ghost predicate Ready(s: State, t: Tracker) {
    && Commit.Valid(t) && Ahead(t)
    && LogInv(t, s.r.w.log, s.r.base, s.home, s.r.w.exec.Keys)
    && t.srcs.Keys == Sources(s.r.pipe)
    && AdmInv(s.d.nextSeq, t, s.r.w.exec.Keys, s.r.g, s.r.replay, s.r.sourcesOn)
    && t.committedPtr == s.r.w.tracker.committedPtr
    && (forall k :: k in t.outstanding ==> k in s.r.w.tracker.outstanding && k in s.r.w.exec.Keys)
    && (forall k :: k in t.removed ==> k in s.r.w.exec.Keys)
    && CallsInv(s.r.w.tracker, s.r.w.log, s.r.w.calls, s.r.w.exec.Keys)
  }

  lemma AdvanceWork(s: State, t: Tracker)
    requires Ready(s, t)
    ensures WorkInv(s, Advance(t).0, s.r.w.calls + Owed(Advance(t).1))
  {
    AdvanceKeeps(t);
    AdvanceFields(t);
    AdvanceLog(t, s.r.w.log, s.r.base, s.home, s.r.w.exec.Keys);
    AdvanceCalls(s.r.w.tracker, t, s.r.w.log, s.r.w.calls, s.r.base, s.home, s.r.w.exec.Keys);
    AdvanceAdm(s.d.nextSeq, t, s.r.w.exec.Keys, s.r.g, s.r.replay, s.r.sourcesOn);
  }

  lemma CountedReady(s: State, q: int, delta: int)
    requires Inv(s) && s.live
    ensures Ready(s, Counted(s.r.w.tracker, q, delta))
  {
    var t := s.r.w.tracker;
    if q in t.outstanding { RecountKeeps(t, q, t.outstanding[q] + delta); }
    SameQueue(t, Counted(t, q, delta), s.r.w.log, s.r.base, s.home, s.r.w.exec.Keys);
  }

  lemma CountedAdvances(s: State, q: int, delta: int)
    requires Inv(s) && s.live
    ensures var a := Add(s.r.w.tracker, q, delta);
      WorkInv(s, a.0, s.r.w.calls + Owed(a.1))
    ensures q in s.r.w.tracker.outstanding ==>
              Add(s.r.w.tracker, q, delta) == Advance(Counted(s.r.w.tracker, q, delta))
    ensures q !in s.r.w.tracker.outstanding ==> Add(s.r.w.tracker, q, delta) == (s.r.w.tracker, NoEffects)
  {
    var t := s.r.w.tracker;
    if q in t.outstanding {
      CountedReady(s, q, delta);
      AdvanceWork(s, Counted(t, q, delta));
    } else {
      assert s.r.w.calls + Owed(NoEffects) == s.r.w.calls;
    }
  }

  /** A step that only moves the tracker and the executions keeps the invariant if it keeps these. */
  lemma Reassemble(s: State, d': Durable, w': Work)
    requires Inv(s) && s.live && !s.r.replay.NotStarted?
    requires d'.nextSeq == s.d.nextSeq && d'.stored == s.d.stored && d'.rows == s.d.rows && d'.marks == s.d.marks
    requires s.d.canceled <= d'.canceled
    requires w'.log == s.r.w.log && w'.exec.Keys == s.r.w.exec.Keys
    requires TrackerInv(d', s.past, w'.tracker, w'.exec)
    requires WorkInv(s, w'.tracker, w'.calls)
    requires Slotted(w'.tracker.outstanding, w'.exec, s.r.g.acquired)
    ensures Inv(s.(d := d', r := s.r.(w := w')))
  {
    var s' := s.(d := d', r := s.r.(w := w'));
    assert StartInv(s');
    forall q | 1 <= q < d'.stored.checkpoint + 1 ensures Settled(d', s.past, w'.exec, q) {}
  }

  lemma BranchKeeps(s: State, e: Event)
    requires Inv(s) && s.live && IsBranchEvent(e) && BranchEnabled(s, e)
    ensures Inv(BranchStep(s, e))
  {
    var l := s.r.w.exec[e.q][e.i].place;
    assert Backed(s.d, e.q, s.r.w.exec[e.q][e.i]);
    TurnedFacts(s.d, s.r.pipe, e.q, l, e);
    var t := Turned(s.r.pipe, l, e).value;
    BranchMoves(s, Effect(s.d, l, e), e.q, e.i, t.0, t.1);
  }

  lemma BranchMoves(s: State, d': Durable, q: int, i: nat, news: seq<Leaf>, counted: bool)
    requires Inv(s) && s.live && HasBranch(s.r.w, q, i)
    requires news != [] && AllBacked(d', q, news) && (!counted ==> Open(news) == 1)
    requires s.r.w.exec[q][i].place.Unroutable? ==> news == [Ended(Undeliverable)]
    requires Accumulates(s.d, d') && d' == s.d.(acked := d'.acked, records := d'.records, verdicts := d'.verdicts)
    ensures Inv(s.(d := d', r := s.r.(w := Branch(s.r.w, q, i, news, counted))))
  {
    var w := s.r.w;
    var exec' := w.exec[q := Replace(w.exec[q], i, news)];
    BranchTracker(s.d, d', s.past, w.tracker, w.exec, q, i, news);
    var w' := Branch(w, q, i, news, counted);
    BranchWork(s, d', q, i, news, counted);
    SlottedStays(w.tracker.outstanding, w'.tracker.outstanding, w.exec, s.r.g.acquired, q, exec'[q]);
    assert exec'.Keys == w.exec.Keys;
    Reassemble(s, d', w');
  }

  lemma BranchWork(s: State, d': Durable, q: int, i: nat, news: seq<Leaf>, counted: bool)
    requires Inv(s) && s.live && HasBranch(s.r.w, q, i) && (!counted ==> Open(news) == 1)
    requires TrackerInv(d', s.past, Counted(s.r.w.tracker, q, Open(news) - 1),
                        s.r.w.exec[q := Replace(s.r.w.exec[q], i, news)])
    ensures var w' := Branch(s.r.w, q, i, news, counted);
      TrackerInv(d', s.past, w'.tracker, w'.exec) && WorkInv(s, w'.tracker, w'.calls)
  {
    var t := s.r.w.tracker;
    CountedAdvances(s, q, Open(news) - 1);
    if counted {
      AdvanceTracker(d', s.past, Counted(t, q, Open(news) - 1), s.r.w.exec[q := Replace(s.r.w.exec[q], i, news)]);
    } else {
      assert q in t.outstanding ==> t.outstanding[q := t.outstanding[q]] == t.outstanding;
      assert Counted(t, q, 0) == t;
    }
  }
}
