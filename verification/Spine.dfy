/**
 The durable execution spine as a state machine: admission, replay, fan-out, terminal
 events, the commit prefix, the durable checkpoint, source watermarks, abandon, and a
 crash at any step (internal/engine). Steps are the atomic sections of the concurrent
 engine; anything that runs outside a lock is a step of its own, in any order.
 */
module Spine {
  import opened Commit
  import opened Persistence

  // --- executions ---

  datatype Edge = Edge(to: string, required: bool)

  /** Where one open branch of a message is; a branch on an edge keeps that edge. */
  datatype Place =
    | Entry(node: string, into: bool)           // held by the admitting goroutine
    | Output(node: string)                      // waiting for its edges to be evaluated
    | Handoff(via: Edge)                        // matched, not yet in the channel
    | At(via: Edge)                             // in the channel, at the worker or in a batch
    | Written(via: Edge)                        // acknowledged by the sink, not yet counted
    | Recorded(id: nat, from: Option<Edge>)     // dead letter durable, not yet counted
    | Stranded(from: Option<Edge>)              // given up at shutdown: never committed
    | Unroutable                                // registered, its entry node no longer exists

  /** Why a branch ended without a delivery. */
  datatype Verdict = NoMatch(node: string) | NoOutput(via: Edge) | NoEntry

  datatype Outcome =
    | Acked(via: Edge)
    | DeadLettered(id: nat, from: Option<Edge>)
    | Filtered(why: Verdict)
    | Dropped(via: Edge)
    | Undeliverable

  datatype Leaf = Pending(place: Place) | Ended(outcome: Outcome)

  /** How many branches of an execution are still open. */
  function Open(ls: seq<Leaf>): nat {
    if ls == [] then 0 else (if ls[0].Pending? then 1 else 0) + Open(ls[1..])
  }

  lemma {:induction false} OpenConcat(a: seq<Leaf>, b: seq<Leaf>)
    ensures Open(a + b) == Open(a) + Open(b)
  {
    if a == [] {
      assert a + b == b;
    } else {
      assert (a + b)[1..] == a[1..] + b;
      OpenConcat(a[1..], b);
    }
  }

  lemma {:induction false} OpenNone(ls: seq<Leaf>)
    ensures Open(ls) == 0 <==> forall i :: 0 <= i < |ls| ==> ls[i].Ended?
  {
    if ls != [] {
      OpenNone(ls[1..]);
      assert forall i :: 0 <= i < |ls[1..]| ==> ls[1..][i] == ls[i + 1];
      assert forall i :: 1 <= i < |ls| ==> ls[i] == ls[1..][i - 1];
    }
  }

  /** A step on one branch replaces it by the branches it turned into: never by none. */
  function Replace(ls: seq<Leaf>, i: nat, news: seq<Leaf>): seq<Leaf>
    requires i < |ls|
  {
    ls[..i] + news + ls[i + 1..]
  }

  lemma ReplaceOpen(ls: seq<Leaf>, i: nat, news: seq<Leaf>)
    requires i < |ls| && ls[i].Pending?
    ensures Open(Replace(ls, i, news)) == Open(ls) - 1 + Open(news)
  {
    assert ls == ls[..i] + ([ls[i]] + ls[i + 1..]);
    OpenConcat(ls[..i], [ls[i]] + ls[i + 1..]);
    OpenConcat([ls[i]], ls[i + 1..]);
    assert [ls[i]][1..] == [];
    OpenConcat(ls[..i] + news, ls[i + 1..]);
    OpenConcat(ls[..i], news);
  }

  function Repeat(l: Leaf, k: nat): (r: seq<Leaf>)
    ensures |r| == k && forall i :: 0 <= i < k ==> r[i] == l
  {
    seq(k, _ => l)
  }

  lemma {:induction false} AllPendingOpen(ls: seq<Leaf>)
    requires forall i :: 0 <= i < |ls| ==> ls[i].Pending?
    ensures Open(ls) == |ls|
  {
    if ls != [] { AllPendingOpen(ls[1..]); }
  }

  // --- state ---

  datatype Kind = Source | Transform | Sink

  datatype Pipe = Pipe(nodes: map<string, Kind>, out: map<string, seq<Edge>>)

  /** What survives a crash. */
  datatype Durable = Durable(
    rows: map<int, Row>,                // the spool
    nextSeq: int,                       // the next row id the store will assign
    stored: Stored,                     // checkpoint and trim position
    marks: map<string, int>,            // per source: how far into its input it will resume after
    records: map<nat, int>,             // dead letters: id to spool sequence
    canceled: set<int>,                 // sequences with a durable "canceled" dead letter
    acked: set<(int, string)>,          // what sinks acknowledged (the outside world)
    verdicts: set<(int, Verdict)>)      // what edges, transforms and entry lookups answered (history)

  /**
   An admission is known by the emission it carries, or is an operator's or replay's. An
   emission its source did not number (its number is zero) has no place in the source's frontier.
   */
  datatype Id = Emission(node: string, srcSeq: int) | Unnumbered(node: string, k: nat) | Other(n: nat)

  datatype Stage =
    | Waiting                           // at the gate
    | Holding                           // slot taken, append not done
    | Spooled(sq: int)                  // row durable, slot not in the ledger yet
    | Ledgered(sq: int)                 // slot in the ledger, not registered yet
    | Registered

  datatype Adm = Adm(node: string, into: bool, inherited: string, replayed: bool, stage: Stage)

  datatype Replay = NotStarted | Scanning(cursor: int) | Complete | Stopped(cursor: int, until: int)

  /** A callback owed after the tracker's lock was released. */
  datatype Call =
    | Release(sq: int)
    | Flush(through: int, frontiers: map<string, int>)

  datatype Work = Work(
    tracker: Tracker,
    exec: map<int, seq<Leaf>>,          // this run's executions
    log: Log,                           // this run's source emissions
    calls: multiset<Call>)

  datatype Gate = Gate(
    limit: int, taken: int,             // capacity, slots taken
    acquired: set<int>,                 // the ledger
    freeing: nat,                       // ledger entries removed, slot not yet given back
    adm: map<Id, Adm>,
    hands: map<int, Id>)                // durable rows not registered yet, and who holds each

  datatype Run = Run(
    pipe: Pipe, w: Work, g: Gate, replay: Replay, sourcesOn: bool, stopping: bool,
    base: map<string, int>,             // where each source's numbering starts in its input
    retention: int, barrier: Barrier, attempted: set<int>,
    posted: map<string, int>, inFlight: map<string, int>,
    locked: bool,                       // a flush is between its checkpoint write and its end
    owed: map<string, int>,             // and will post these frontiers
    canceling: set<int>)

  /**
   `home` is the earliest row accepted for each item of a source's input, and `past` the
   finished executions of earlier runs and registrations; both are history for the statements below.
   */
  datatype State = State(
    d: Durable, live: bool, r: Run, home: map<(string, int), int>, past: map<int, seq<Leaf>>)

  function Sources(p: Pipe): set<string> {
    set n | n in p.nodes && p.nodes[n].Source? && n != ""
  }

  // --- what counts as done ---

  /**
   A terminal outcome is backed: by the sink's acknowledgement, a durable dead letter, what
   the edges, the transform or the entry lookup answered, or an edge that is optional.
   */
  predicate Backed(d: Durable, q: int, l: Leaf) {
    match l
    case Ended(Acked(v)) => (q, v.to) in d.acked
    case Ended(DeadLettered(id, _)) => id in d.records && d.records[id] == q
    case Ended(Filtered(why)) => (q, why) in d.verdicts
    case Ended(Dropped(v)) => !v.required
    case Ended(Undeliverable) => (q, NoEntry) in d.verdicts
    case Pending(Written(v)) => (q, v.to) in d.acked
    case Pending(Recorded(id, _)) => id in d.records && d.records[id] == q
    case Pending(Unroutable) => (q, NoEntry) in d.verdicts
    case _ => true
  }

  ghost predicate AllBacked(d: Durable, q: int, ls: seq<Leaf>) {
    forall i :: 0 <= i < |ls| ==> Backed(d, q, ls[i])
  }

  /** Every branch of a non-empty execution ended, each with a backed outcome. */
  ghost predicate Finished(d: Durable, q: int, ls: seq<Leaf>) {
    ls != [] && AllBacked(d, q, ls) && forall i :: 0 <= i < |ls| ==> ls[i].Ended?
  }

  ghost predicate Settled(d: Durable, past: map<int, seq<Leaf>>, exec: map<int, seq<Leaf>>, q: int) {
    || q in d.canceled
    || (q in past && Finished(d, q, past[q]))
    || (q in exec && Finished(d, q, exec[q]))
  }

  // --- steps ---

  datatype Event =
    | Boot(pipe: Pipe, limit: int, retention: int)
    | Crash
    | Resume
    | ReplayRow(id: Id, q: int)
    | ReplayOrphan(q: int)
    | ReplayDone
    | ReplayStop
    | StartSources(base: map<string, int>)
    | Emit(id: Id, inherited: string)
    | Inject(id: Id, node: string, inherited: string)
    | TakeGate(id: Id)
    | GiveUp(id: Id)
    | Append(id: Id)
    | AppendFails(id: Id)
    | Acquire(id: Id)
    | Register(id: Id)
    | Return(id: Id)
    | Decode(q: int, i: nat)
    | FanOut(q: int, i: nat, matched: seq<Edge>)
    | HandOver(q: int, i: nat)
    | Strand(q: int, i: nat)
    | Apply(q: int, i: nat, outputs: nat)
    | SinkWrite(q: int, i: nat)
    | Drop(q: int, i: nat)
    | Record(q: int, i: nat, rec: nat)
    | Count(q: int, i: nat)
    | RunRelease(sq: int)
    | FreeSlot
    | FlushCheckpoint(through: int, frontiers: map<string, int>, cpOk: bool)
    | FlushTrim(trimOk: bool)
    | CommitterBegin(node: string)
    | CommitterEnd(node: string, written: bool)
    | CancelRecord(q: int)
    | CancelForce(q: int)
    | Stop

  const NoRun := Run(Pipe(map[], map[]), Work(NewTracker({}), map[], map[], multiset{}),
                     Gate(0, 0, {}, 0, map[], map[]), NotStarted, false, false, map[], 1,
                     Barrier(0, 0, 0), {}, map[], map[], false, map[], {})

  const Init := State(Durable(map[], 1, Stored(0, 0), map[], map[], {}, {}, {}), false, NoRun, map[], map[])

  function Releases(qs: seq<int>): multiset<Call> {
    if qs == [] then multiset{} else multiset{Release(qs[0])} + Releases(qs[1..])
  }

  /** The callbacks one tracker call owes. */
  function Owed(e: Effects): multiset<Call> {
    Releases(e.justCommit) + (if e.advanced then multiset{Flush(e.through, e.frontiers)} else multiset{})
  }

  function Tracked(w: Work, a: (Tracker, Effects)): Work {
    w.(tracker := a.0, calls := w.calls + Owed(a.1))
  }

  /** Replace one open branch; a delta other than the plain hand-over goes through the tracker. */
  function Branch(w: Work, q: int, i: nat, news: seq<Leaf>, counted: bool): Work
    requires q in w.exec && i < |w.exec[q]|
  {
    var w1 := w.(exec := w.exec[q := Replace(w.exec[q], i, news)]);
    if counted then Tracked(w1, Add(w.tracker, q, Open(news) - 1)) else w1
  }

  predicate HasBranch(w: Work, q: int, i: nat) {
    q in w.exec && i < |w.exec[q]| && w.exec[q][i].Pending?
  }

  predicate IsNode(p: Pipe, n: string, k: Kind) { n in p.nodes && p.nodes[n] == k }

  /** What a branch step turns its branch into, and whether the tracker is called. */
  function Turned(p: Pipe, l: Place, e: Event): Option<(seq<Leaf>, bool)> {
    match (e, l)
    case (Decode(_, _), Entry(n, into)) =>
      Some(([Pending(if into then Handoff(Edge(n, true)) else Output(n))], false))
    case (FanOut(_, _, matched), Output(n)) =>
      if !(n in p.out && forall m :: m in matched ==> m in p.out[n]) && matched != [] then None
      else if matched == [] then Some(([Ended(Filtered(NoMatch(n)))], true))
      else Some((seq(|matched|, k requires 0 <= k < |matched| => Pending(Handoff(matched[k]))), true))
    case (HandOver(_, _), Handoff(v)) => Some(([Pending(At(v))], false))
    case (Strand(_, _), Handoff(v)) => Some(([Pending(Stranded(Some(v)))], false))
    case (Strand(_, _), At(v)) => Some(([Pending(Stranded(Some(v)))], false))
    case (Strand(_, _), Entry(_, _)) => Some(([Pending(Stranded(None))], false))
    case (Apply(_, _, k), At(v)) =>
      if !IsNode(p, v.to, Transform) then None
      else if k == 0 then Some(([Ended(Filtered(NoOutput(v)))], true))
      else Some((Repeat(Pending(Output(v.to)), k), k > 1))
    case (SinkWrite(_, _), At(v)) =>
      if IsNode(p, v.to, Sink) then Some(([Pending(Written(v))], false)) else None
    case (Drop(_, _), At(v)) =>
      if IsNode(p, v.to, Sink) && !v.required then Some(([Ended(Dropped(v))], true)) else None
    case (Record(_, _, id), Entry(_, _)) => Some(([Pending(Recorded(id, None))], false))
    case (Record(_, _, id), At(v)) => Some(([Pending(Recorded(id, Some(v)))], false))
    case (Count(_, _), Written(v)) => Some(([Ended(Acked(v))], true))
    case (Count(_, _), Unroutable) => Some(([Ended(Undeliverable)], true))
    case (Count(_, _), Recorded(id, from)) => Some(([Ended(DeadLettered(id, from))], true))
    case _ => None
  }

  /** What a branch step leaves behind whatever happens to the run. */
  function Effect(d: Durable, l: Place, e: Event): Durable {
    match (e, l)
    case (SinkWrite(q, _), At(v)) => d.(acked := d.acked + {(q, v.to)})
    case (Record(q, _, id), _) => d.(records := d.records[id := q])
    case (FanOut(q, _, matched), Output(n)) => if matched == [] then Told(d, q, NoMatch(n)) else d
    case (Apply(q, _, outputs), At(v)) => if outputs == 0 then Told(d, q, NoOutput(v)) else d
    case _ => d
  }

  function Told(d: Durable, q: int, why: Verdict): Durable { d.(verdicts := d.verdicts + {(q, why)}) }

  predicate IsBranchEvent(e: Event) {
    e.Decode? || e.FanOut? || e.HandOver? || e.Strand? || e.Apply? || e.SinkWrite? || e.Drop? || e.Record? || e.Count?
  }

  predicate BranchEnabled(s: State, e: Event)
    requires IsBranchEvent(e)
  {
    && HasBranch(s.r.w, e.q, e.i)
    && Turned(s.r.pipe, s.r.w.exec[e.q][e.i].place, e).Some?
    && (e.Strand? ==> s.r.stopping)
    && (e.Record? ==> e.rec !in s.d.records)
  }

  function BranchStep(s: State, e: Event): State
    requires IsBranchEvent(e) && BranchEnabled(s, e)
  {
    var l := s.r.w.exec[e.q][e.i].place;
    var t := Turned(s.r.pipe, l, e).value;
    s.(d := Effect(s.d, l, e), r := s.r.(w := Branch(s.r.w, e.q, e.i, t.0, t.1)))
  }

  /** The row replay visits next: the lowest one past the cursor. */
  predicate NextRow(d: Durable, cursor: int, q: int) {
    q in d.rows && q > cursor && forall k :: k in d.rows && k > cursor ==> k >= q
  }

  predicate ReplayOver(r: Replay) { r.Complete? || r.Stopped? }

  predicate At'(g: Gate, id: Id, st: Stage) { id in g.adm && g.adm[id].stage == st }

  predicate IsAdmission(e: Event) {
    e.Emit? || e.Inject? || e.TakeGate? || e.GiveUp? || e.Append? || e.AppendFails? || e.Acquire?
    || e.Register? || e.Return? || e.ReplayRow? || e.FreeSlot?
  }

  /**
   What the engine lets happen next. With `early` that includes injections before replay
   finished, and sources that use an emission number of this run again.
   */
  predicate Enabled(s: State, e: Event, early: bool) {
    if IsBranchEvent(e) then s.live && BranchEnabled(s, e)
    else if IsAdmission(e) then s.live && AdmissionEnabled(s, e, early)
    else ControlEnabled(s, e)
  }

  predicate AdmissionEnabled(s: State, e: Event, early: bool)
    requires IsAdmission(e)
  {
    var r := s.r;
    match e
    case Emit(id, _) =>
      && r.sourcesOn && !id.Other? && id.node in Sources(r.pipe) && id !in r.g.adm
      && (id.Emission? ==> id.srcSeq >= 1 && (early || (id.node, id.srcSeq) !in r.w.log))
    case Inject(id, n, _) => n in r.pipe.nodes && n != "" && id.Other? && id !in r.g.adm &&
         (early || ReplayOver(r.replay))
    case TakeGate(id) => At'(r.g, id, Waiting) && r.g.taken < r.g.limit
    case GiveUp(id) => At'(r.g, id, Waiting) && r.stopping
    case Append(id) => At'(r.g, id, Holding)
    case AppendFails(id) => At'(r.g, id, Holding) && r.g.taken > 0
    case Acquire(id) => id in r.g.adm && r.g.adm[id].stage.Spooled?
    case Register(id) => id in r.g.adm && r.g.adm[id].stage.Ledgered?
    case Return(id) => At'(r.g, id, Registered)
    case ReplayRow(id, q) =>
      && r.replay.Scanning? && NextRow(s.d, r.replay.cursor, q) && id.Other? && id !in r.g.adm
      && ReplayEntry(r.pipe.nodes.Keys, s.d.rows[q]).Some? && r.g.taken < r.g.limit
    case FreeSlot => r.g.freeing > 0 && r.g.taken > 0
  }

  predicate ControlEnabled(s: State, e: Event)
    requires !IsAdmission(e) && !IsBranchEvent(e)
  {
    var r := s.r;
    (e.Boot? <==> !s.live) &&
    match e
    case Boot(_, limit, retention) => limit > 0 && retention > 0
    case Crash => true
    case Resume => r.replay.NotStarted?
    case ReplayOrphan(q) =>
      && r.replay.Scanning? && NextRow(s.d, r.replay.cursor, q)
      && ReplayEntry(r.pipe.nodes.Keys, s.d.rows[q]).None?
    case ReplayDone => r.replay.Scanning? && forall k :: k in s.d.rows ==> k <= r.replay.cursor
    case ReplayStop => r.replay.Scanning? && r.stopping
    case StartSources(base) =>
      && ReplayOver(r.replay) && !r.sourcesOn
      && base.Keys == Sources(r.pipe)
      && forall n :: n in base ==> base[n] == 0 || (n in s.d.marks && base[n] == s.d.marks[n])
    case RunRelease(q) => Call.Release(q) in r.w.calls
    case FlushCheckpoint(through, fr, _) => Flush(through, fr) in r.w.calls && r.retention > 0 && !r.locked
    case FlushTrim(_) => r.locked && r.retention > 0
    case CommitterBegin(n) => n in r.posted && n !in r.inFlight
    case CommitterEnd(n, _) => n in r.inFlight && n in r.base
    case CancelRecord(q) => q in r.w.exec
    case CancelForce(q) => q in r.canceling
    case Stop => true
  }

  function SetAdm(s: State, id: Id, a: Adm): State {
    s.(r := s.r.(g := s.r.g.(adm := s.r.g.adm[id := a])))
  }

  function Finishes(d: Durable, exec: map<int, seq<Leaf>>): map<int, seq<Leaf>> {
    map q | q in exec && exec[q] != [] &&
        (forall i :: 0 <= i < |exec[q]| ==> exec[q][i].Ended? && Backed(d, q, exec[q][i])) :: exec[q]
  }

  function Fresh(pipe: Pipe, limit: int, retention: int): Run {
    Run(pipe, Work(NewTracker(Sources(pipe)), map[], map[], multiset{}),
        Gate(limit, 0, {}, 0, map[], map[]), NotStarted, false, false, map[], retention,
        Barrier(0, 0, 0), {}, map[], map[], false, map[], {})
  }

  function Taken(g: Gate, id: Id): Gate
    requires id in g.adm
  {
    g.(taken := g.taken + 1, adm := g.adm[id := g.adm[id].(stage := Holding)])
  }

  function Acquired(g: Gate, id: Id): Gate
    requires id in g.adm && g.adm[id].stage.Spooled?
  {
    var q := g.adm[id].stage.sq;
    g.(acquired := g.acquired + {q}, adm := g.adm[id := g.adm[id].(stage := Ledgered(q))])
  }

  function AppendedD(d: Durable, a: Adm): Durable {
    d.(rows := d.rows[d.nextSeq := Stamp(a.node, a.into, a.inherited)], nextSeq := d.nextSeq + 1)
  }

  function AppendedG(g: Gate, id: Id, q: int): Gate
    requires id in g.adm
  {
    g.(hands := g.hands[q := id], adm := g.adm[id := g.adm[id].(stage := Spooled(q))])
  }

  function ReplayedG(g: Gate, id: Id, q: int, a: Adm): Gate {
    g.(taken := g.taken + 1, hands := g.hands[q := id], adm := g.adm[id := a])
  }

  function AdmissionStep(s: State, e: Event): State
    requires IsAdmission(e) && s.live && AdmissionEnabled(s, e, true)
  {
    var (d, r, g) := (s.d, s.r, s.r.g);
    match e
    case Emit(id, inherited) => SetAdm(s, id, Adm(id.node, false, inherited, false, Waiting))
    case Inject(id, n, inherited) => SetAdm(s, id, Adm(n, !r.pipe.nodes[n].Source?, inherited, false, Waiting))
    case TakeGate(id) => s.(r := r.(g := Taken(g, id)))
    case GiveUp(id) => s.(r := r.(g := g.(adm := g.adm - {id})))
    case Append(id) => s.(d := AppendedD(d, g.adm[id]), r := r.(g := AppendedG(g, id, d.nextSeq)))
    case AppendFails(id) => s.(r := r.(g := g.(taken := g.taken - 1, adm := g.adm - {id})))
    case Acquire(id) => s.(r := r.(g := Acquired(g, id)))
    case Register(id) => Enter(s, id)
    case Return(id) => s.(r := r.(g := g.(adm := g.adm - {id})))
    case ReplayRow(id, q) =>
      var en := ReplayEntry(r.pipe.nodes.Keys, d.rows[q]).value;
      s.(r := r.(replay := Scanning(q), g := ReplayedG(g, id, q, Adm(en.0, en.1, "", true, Spooled(q)))))
    case FreeSlot => s.(r := r.(g := g.(taken := g.taken - 1, freeing := g.freeing - 1)))
  }

  function ControlStep(s: State, e: Event): State
    requires !IsAdmission(e) && !IsBranchEvent(e) && ControlEnabled(s, e)
  {
    var (d, r, w) := (s.d, s.r, s.r.w);
    match e
    case Boot(pipe, limit, retention) => s.(live := true, r := Fresh(pipe, limit, retention))
    case Crash => s.(live := false, r := NoRun, past := s.past + Finishes(d, w.exec))
    case Resume => s.(r := Resumed(r, d.stored.checkpoint))
    case ReplayOrphan(q) =>
      s.(d := Told(d, q, NoEntry), r := r.(replay := Scanning(q), w := OrphanWork(w, q)),
         past := Retired(d, s.past, w.exec, q))
    case ReplayDone => s.(r := r.(replay := Complete))
    case ReplayStop => s.(r := r.(replay := Stopped(r.replay.cursor, d.nextSeq)))
    case StartSources(base) => s.(r := r.(sourcesOn := true, base := base))
    case RunRelease(q) =>
      s.(r := r.(w := w.(calls := w.calls - multiset{Call.Release(q)}), g := Released(r.g, q)))
    case FlushCheckpoint(through, fr, cpOk) => Checkpointed(s, through, fr, cpOk)
    case FlushTrim(trimOk) => TrimDone(s, trimOk)
    case CommitterBegin(n) => s.(r := r.(inFlight := r.inFlight[n := r.posted[n]]))
    case CommitterEnd(n, written) => Watermarked(s, n, written)
    case CancelRecord(q) =>
      s.(d := d.(canceled := d.canceled + {q}), r := r.(canceling := r.canceling + {q}))
    case CancelForce(q) => Forced(s, q)
    case Stop => s.(r := r.(stopping := true))
  }

  function Step(s: State, e: Event): State
    requires Enabled(s, e, true)
  {
    if IsBranchEvent(e) then BranchStep(s, e)
    else if IsAdmission(e) then AdmissionStep(s, e)
    else ControlStep(s, e)
  }

  /** Give back the ledger entry, if it is still there; the slot itself follows. */
  function Released(g: Gate, q: int): Gate {
    if q in g.acquired then g.(acquired := g.acquired - {q}, freeing := g.freeing + 1) else g
  }

  /** A state write that succeeded moves the durable watermark to what its frontier stands for. */
  function Marked(s: State, n: string): State
    requires n in s.r.inFlight && n in s.r.base
  {
    s.(d := s.d.(marks := s.d.marks[n := s.r.base[n] + s.r.inFlight[n]]))
  }

  function AttemptOver(s: State, n: string): State {
    s.(r := s.r.(inFlight := s.r.inFlight - {n}))
  }

  function Watermarked(s: State, n: string, written: bool): State
    requires n in s.r.inFlight && n in s.r.base
  {
    AttemptOver(if written then Marked(s, n) else s, n)
  }

  function Resumed(r: Run, cp: int): Run {
    r.(replay := Scanning(cp),
       w := r.w.(tracker := if cp > 0 then ResumeFrom(r.w.tracker, cp) else r.w.tracker),
       barrier := if cp > 0
                  then r.barrier.(persisted := Max(r.barrier.persisted, cp), attempted := Max(r.barrier.attempted, cp))
                  else r.barrier,
       attempted := r.attempted + {cp})
  }

  /** A registration adds a branch; open branches of an earlier registration are still out there. */
  function Started(exec: map<int, seq<Leaf>>, q: int, l: Leaf): map<int, seq<Leaf>> {
    exec[q := (if q in exec && Open(exec[q]) > 0 then exec[q] else []) + [l]]
  }

  /** A finished execution becomes history when its row is registered again. */
  function Retired(d: Durable, past: map<int, seq<Leaf>>, exec: map<int, seq<Leaf>>, q: int): map<int, seq<Leaf>> {
    if q in Finishes(d, exec) then past[q := exec[q]] else past
  }

  /** A row that is no longer dispatchable is registered and, in a step of its own, counted off. */
  function OrphanWork(w: Work, q: int): Work {
    w.(tracker := Arrived(w.tracker, q, "", 0), exec := Started(w.exec, q, Pending(Unroutable)))
  }

  /** Register an admitted row and start its execution. */
  function Enter(s: State, id: Id): State
    requires id in s.r.g.adm && s.r.g.adm[id].stage.Ledgered?
  {
    var (r, g, w, a) := (s.r, s.r.g, s.r.w, s.r.g.adm[id]);
    s.(r := r.(w := EnterWork(w, id, a), g := EnterGate(g, id)),
       home := EnterHome(s.home, r.base, id, a.stage.sq), past := Retired(s.d, s.past, w.exec, a.stage.sq))
  }

  /** Only a live emission is attributable to a source of this run. */
  function SourceOf(id: Id): string { if id.Other? then "" else id.node }

  function NumberOf(id: Id): int { if id.Emission? then id.srcSeq else 0 }

  function EnterWork(w: Work, id: Id, a: Adm): Work
    requires a.stage.Ledgered?
  {
    var q := a.stage.sq;
    Work(Arrived(w.tracker, q, SourceOf(id), NumberOf(id)),
         Started(w.exec, q, Pending(Entry(a.node, a.into))),
         if id.Emission? then w.log[(id.node, id.srcSeq) := q] else w.log,
         w.calls)
  }

  function EnterGate(g: Gate, id: Id): Gate
    requires id in g.adm && g.adm[id].stage.Ledgered?
  {
    g.(hands := g.hands - {g.adm[id].stage.sq}, adm := g.adm[id := g.adm[id].(stage := Registered)])
  }

  function BaseOf(base: map<string, int>, n: string): int { if n in base then base[n] else 0 }

  function EnterHome(home: map<(string, int), int>, base: map<string, int>, id: Id, q: int): map<(string, int), int> {
    if id.Emission? then Home(home, (id.node, BaseOf(base, id.node) + id.srcSeq), q) else home
  }

  /** Remember the earliest row of an item. */
  function Home(home: map<(string, int), int>, item: (string, int), q: int): map<(string, int), int> {
    home[item := if item in home && home[item] < q then home[item] else q]
  }

  /** The checkpoint write of one advance; a success keeps the lock for the trim. */
  function Checkpointed(s: State, through: int, fr: map<string, int>, cpOk: bool): State {
    var (r, w) := (s.r, s.r.w);
    var a := Advanced(r.barrier, s.d.stored, through, cpOk);
    s.(d := s.d.(stored := a.1),
       r := r.(w := w.(calls := w.calls - multiset{Flush(through, fr)}), barrier := a.0,
               attempted := r.attempted + {through}, locked := a.2, owed := if a.2 then fr else map[]))
  }

  /** The trim that may be due, and the frontiers posted behind the durable checkpoint. */
  function TrimDone(s: State, trimOk: bool): State
    requires s.r.retention > 0
  {
    var r := s.r;
    var t := Trim(r.barrier, s.d.stored, r.retention, trimOk);
    s.(d := s.d.(stored := t.1, rows := map q | q in s.d.rows && q > t.1.trimmed :: s.d.rows[q]),
       r := r.(barrier := t.0, posted := Post(r.posted, r.owed), locked := false, owed := map[]))
  }

  /** Keep the highest positive frontier per source. */
  function Post(posted: map<string, int>, fr: map<string, int>): map<string, int> {
    map n | n in posted.Keys + (set m | m in fr && fr[m] > 0) ::
      if n !in posted then fr[n] else if n in fr && fr[n] > posted[n] then fr[n] else posted[n]
  }

  function Forced(s: State, q: int): State {
    var (r, w) := (s.r, s.r.w);
    var w1 := Tracked(w, ForceTerminal(w.tracker, q));
    s.(r := r.(canceling := r.canceling - {q},
               w := if q in w.tracker.outstanding then w1.(calls := w1.calls + multiset{Call.Release(q)}) else w1))
  }

  /**
   The state a run of these events ends in, if every one of them was enabled in turn:
   crashes, restarts and all. Every prefix of a run is a run, so what holds after every
   run holds in every state along the way.
   */
  function After(s: State, es: seq<Event>, early: bool): Option<State>
    decreases |es|
  {
    if es == [] then Some(s)
    else if Enabled(s, es[0], early) && Enabled(s, es[0], true) then After(Step(s, es[0]), es[1..], early)
    else None
  }

  /** s is reachable from the empty store. */
  predicate Leads(es: seq<Event>, early: bool, s: State) { After(Init, es, early) == Some(s) }
}
