/** Where the spine's guarantees stop, each as a run that ends there or as an exact condition. */
module SpineFindings {
  import opened Commit
  import opened Persistence
  import opened Spine
  import opened SpineInvariant
  import opened SpineRuns

  // --- building runs ---

  predicate Can(s: State, e: Event, early: bool, s': State) {
    Enabled(s, e, early) && Enabled(s, e, true) && Step(s, e) == s'
  }

  lemma {:induction false} AfterConcat(s: State, es: seq<Event>, more: seq<Event>, early: bool)
    requires After(s, es, early).Some?
    ensures After(s, es + more, early) == After(After(s, es, early).value, more, early)
    decreases |es|
  {
    if es == [] {
      assert es + more == more;
    } else {
      assert (es + more)[1..] == es[1..] + more;
      AfterConcat(Step(s, es[0]), es[1..], more, early);
    }
  }

  lemma Extend(es: seq<Event>, s: State, e: Event, early: bool, s': State) returns (es': seq<Event>)
    requires Leads(es, early, s) && Can(s, e, early, s')
    ensures Leads(es', early, s')
  {
    es' := es + [e];
    AfterConcat(Init, es, [e], early);
    assert [e][1..] == [];
    assert After(s', [], early) == Some(s');
    assert After(s, [e], early) == Some(s');
  }

  // --- injecting before replay is over ---

  /** One source feeding two required sinks. */
  const Pair := [Edge("k1", true), Edge("k2", true)]
  const Fork := Pipe(map["src" := Kind.Source, "k1" := Sink, "k2" := Sink], map["src" := Pair])

  const Row1 := map[1 := Row("src", "")]

  /** A run of Fork whose spool holds one row. */
  function Early(acked: set<(int, string)>, w: Work, g: Gate, replay: Replay): State {
    State(Durable(Row1, 2, Stored(0, 0), map[], map[], {}, acked, {}), true,
          Fresh(Fork, 2, 10).(w := w, g := g, replay := replay, attempted := if replay.NotStarted? then {} else {0}),
          map[], map[])
  }

  function Registered1(count: int): Tracker {
    Tracker(map[1 := count], count, 1, 1, {}, [], OneSource)
  }

  function Counted(count: int, ls: seq<Leaf>): Work { Work(Registered1(count), map[1 := ls], map[], multiset{}) }

  const OneSource := NewTracker({"src"}).srcs
  const NoFronts := Fronts(OneSource)

  const Idle := Work(NewTracker({"src"}), map[], map[], multiset{})

  function ByHand(stage: Stage): Adm { Adm("src", false, "", false, stage) }

  function Hand(n: nat): Leaf { Pending(Handoff(Pair[if n == 1 then 0 else 1])) }

  const New := Pending(Entry("src", false))
  const Out := Pending(Output("src"))

  // the injection, from the gate to both sinks' edges

  const Empty := State(Init.d, true, Fresh(Fork, 2, 10), map[], map[])

  /** A run over an empty spool. */
  function Before(g: Gate, replay: Replay): State {
    Empty.(r := Empty.r.(g := g, replay := replay, attempted := if replay.NotStarted? then {} else {0}))
  }

  const FreeGate := Gate(2, 0, {}, 0, map[], map[])

  const Asked := Gate(2, 0, {}, 0, map[Other(0) := ByHand(Waiting)], map[])
  const Held := Gate(2, 1, {}, 0, map[Other(0) := ByHand(Holding)], map[])
  const Written1 := Gate(2, 1, {}, 0, map[Other(0) := ByHand(Spooled(1))], map[1 := Other(0)])
  const Booked := Gate(2, 1, {1}, 0, map[Other(0) := ByHand(Ledgered(1))], map[1 := Other(0)])
  const Injected := Gate(2, 1, {1}, 0, map[Other(0) := ByHand(Registered)], map[])

  lemma Boots(early: bool)
    ensures Can(Init, Boot(Fork, 2, 10), early, Before(FreeGate, NotStarted))
  {}

  lemma InjectAsks(replay: Replay, early: bool)
    requires early || replay.Complete?
    ensures Can(Before(FreeGate, replay), Inject(Other(0), "src", ""), early, Before(Asked, replay))
  {
    assert SetAdm(Before(FreeGate, replay), Other(0), ByHand(Waiting)).r.g == Asked;
  }

  lemma InjectTakes(replay: Replay, early: bool)
    ensures Can(Before(Asked, replay), TakeGate(Other(0)), early, Before(Held, replay))
  {
    assert Taken(Asked, Other(0)) == Held;
  }

  lemma InjectAppends(replay: Replay, early: bool)
    ensures Can(Before(Held, replay), Append(Other(0)), early, Early({}, Idle, Written1, replay))
  {
    assert Sources(Fork) == {"src"};
    assert Init.d.rows[1 := Stamp("src", false, "")] == Row1;
    assert AppendedG(Held, Other(0), 1) == Written1;
  }

  lemma InjectBooks()
    ensures Can(Early({}, Idle, Written1, NotStarted), Acquire(Other(0)), true, Early({}, Idle, Booked, NotStarted))
  {
    assert Acquired(Written1, Other(0)) == Booked;
  }

  lemma Registers(w: Work, g: Gate, replay: Replay, id: Id, g': Gate, w': Work)
    requires id.Other? && id in g.adm && g.adm[id].stage.Ledgered?
    requires EnterGate(g, id) == g' && EnterWork(w, id, g.adm[id]) == w'
    requires g.adm[id].stage.sq in w.exec ==> Open(w.exec[g.adm[id].stage.sq]) > 0
    ensures Can(Early({}, w, g, replay), Register(id), true, Early({}, w', g', replay))
  {
    var q := g.adm[id].stage.sq;
    if q in w.exec { OpenNone(w.exec[q]); }
  }

  lemma RegistersNext(es: seq<Event>, w: Work, g: Gate, replay: Replay, id: Id, a: Adm) returns (es': seq<Event>)
    requires Leads(es, true, Early({}, w, g, replay)) && id.Other? && id in g.adm && g.adm[id] == a && a.stage.Ledgered?
    requires a.stage.sq !in w.exec
    ensures Leads(es', true, Early({}, EnterWork(w, id, a), EnterGate(g, id), replay))
  {
    Registers(w, g, replay, id, EnterGate(g, id), EnterWork(w, id, a));
    es' := Extend(es, Early({}, w, g, replay), Register(id), true,
                  Early({}, EnterWork(w, id, a), EnterGate(g, id), replay));
  }

  lemma FirstBranch()
    ensures Started(map[], 1, New) == map[1 := [New]]
  {
    assert [] + [New] == [New];
  }

  lemma FirstArrival()
    ensures Arrived(Idle.tracker, 1, "", 0) == Registered1(1)
  {
    var none: map<int, int> := map[];
    assert Units(none, 1) == 0;
    assert none[1 := 1] == map[1 := 1];
    assert Arrived(Idle.tracker, 1, "", 0) == Commit.Register(Idle.tracker, 1);
  }

  lemma PlainWork(w: Work, id: Id, a: Adm)
    requires id.Other? && a.stage == Ledgered(1)
    ensures EnterWork(w, id, a) ==
        Work(Arrived(w.tracker, 1, "", 0), Started(w.exec, 1, Pending(Entry(a.node, a.into))), w.log, w.calls)
  {}

  lemma IdleEnters()
    ensures EnterWork(Idle, Other(0), ByHand(Ledgered(1))) == Counted(1, [New])
  {
    calc {
      EnterWork(Idle, Other(0), ByHand(Ledgered(1)));
    == { PlainWork(Idle, Other(0), ByHand(Ledgered(1))); }
      Work(Arrived(Idle.tracker, 1, "", 0), Started(Idle.exec, 1, New), Idle.log, Idle.calls);
    == { FirstArrival(); }
      Work(Registered1(1), Started(Idle.exec, 1, New), Idle.log, Idle.calls);
    == { FirstBranch(); }
      Work(Registered1(1), map[1 := [New]], Idle.log, Idle.calls);
    ==
      Counted(1, [New]);
    }
  }

  lemma BookedEnters()
    ensures EnterGate(Booked, Other(0)) == Injected
  {
    assert map[1 := Other(0)] - {1} == map[];
    assert Booked.adm[Other(0) := ByHand(Registered)] == Injected.adm;
  }

  // branch steps

  lemma Moves(acked: set<(int, string)>, c: int, ls: seq<Leaf>, g: Gate, replay: Replay, e: Event, news: seq<Leaf>,
              ls': seq<Leaf>)
    requires IsBranchEvent(e) && !e.Strand? && !e.Record? && e.q == 1 && e.i < |ls| && ls[e.i].Pending?
    requires Turned(Fork, ls[e.i].place, e) == Some((news, false)) && Replace(ls, e.i, news) == ls'
    ensures var acked' := if e.SinkWrite? && ls[e.i].place.At? then acked + {(1, ls[e.i].place.via.to)} else acked;
      Can(Early(acked, Counted(c, ls), g, replay), e, true, Early(acked', Counted(c, ls'), g, replay))
  {
    assert map[1 := ls][1 := ls'] == map[1 := ls'];
  }

  lemma Counts(acked: set<(int, string)>, c: int, ls: seq<Leaf>, g: Gate, replay: Replay, e: Event, news: seq<Leaf>,
               ls': seq<Leaf>)
    requires (e.FanOut? || e.Count?) && e.q == 1 && e.i < |ls| && ls[e.i].Pending?
    requires Turned(Fork, ls[e.i].place, e) == Some((news, true)) && Replace(ls, e.i, news) == ls'
    requires c >= 1 && c + Open(news) - 1 > 0 && (e.FanOut? ==> e.matched != [])
    ensures Can(Early(acked, Counted(c, ls), g, replay), e, true,
                Early(acked, Counted(c + Open(news) - 1, ls'), g, replay))
  {
    CountedBranch(c, ls, e.i, news, ls');
    CountedStep(acked, Counted(c, ls), g, replay, e, news, Counted(c + Open(news) - 1, ls'));
  }

  lemma CountedStep(acked: set<(int, string)>, w: Work, g: Gate, replay: Replay, e: Event, news: seq<Leaf>, w': Work)
    requires (e.FanOut? || e.Count?) && HasBranch(w, e.q, e.i) && (e.FanOut? ==> e.matched != [])
    requires Turned(Fork, w.exec[e.q][e.i].place, e) == Some((news, true)) && Branch(w, e.q, e.i, news, true) == w'
    ensures Can(Early(acked, w, g, replay), e, true, Early(acked, w', g, replay))
  {}

  lemma CountedBranch(c: int, ls: seq<Leaf>, i: nat, news: seq<Leaf>, ls': seq<Leaf>)
    requires i < |ls| && Replace(ls, i, news) == ls' && c >= 1 && c + Open(news) - 1 > 0
    ensures Branch(Counted(c, ls), 1, i, news, true) == Counted(c + Open(news) - 1, ls')
  {
    assert map[1 := ls][1 := ls'] == map[1 := ls'];
    CountStays(c, Open(news) - 1);
    assert Owed(NoEffects) == multiset{};
  }

  lemma CountStays(c: int, delta: int)
    requires c >= 1 && c + delta > 0
    ensures Add(Registered1(c), 1, delta) == (Registered1(c + delta), NoEffects)
  {
    assert map[1 := c][1 := c + delta] == map[1 := c + delta];
  }

  /** The last terminal event of the doubly registered row commits it. */
  const Crossed := Tracker(map[], 0, 1, 2, {}, [], OneSource)

  lemma CountEnds()
    ensures Add(Registered1(1), 1, -1) == (Crossed, Effects([1], true, 1, NoFronts))
  {
    RecountEmpties();
    EmptiedCrosses();
    EmptiedAdvances();
    AddAdvances(Registered1(1), 1, -1, Emptied, (Crossed, Effects([1], true, 1, NoFronts)));
  }

  lemma RecountEmpties()
    ensures Recount(Registered1(1), 1, 0) == Emptied
  {
    assert map[1 := 1][1 := 0] == map[1 := 0];
  }

  lemma AddAdvances(t: Tracker, q: int, delta: int, u: Tracker, a: (Tracker, Effects))
    requires q in t.outstanding && q >= t.committedPtr
    requires Recount(t, q, t.outstanding[q] + delta) == u && Advance(u) == a
    ensures Add(t, q, delta) == a
  {}

  const Emptied := Tracker(map[1 := 0], 0, 1, 1, {}, [], OneSource)

  lemma EmptiedAdvances()
    requires StopFrom(Emptied, 1) == 2 && Drained(Emptied.outstanding, 1, 2) == [1] &&
             Sweep(Cross(Emptied, 2), 1) == Crossed
    ensures Advance(Emptied) == (Crossed, Effects([1], true, 1, NoFronts))
  {}

  lemma EmptiedCrosses()
    ensures StopFrom(Emptied, 1) == 2
    ensures Drained(Emptied.outstanding, 1, 2) == [1]
    ensures Sweep(Cross(Emptied, 2), 1) == Crossed
  {
    StopUnique(Emptied, 1, 2);
    assert Drained(Emptied.outstanding, 1, 1) == [];
    assert Drained(Emptied.outstanding, 1, 2) == [] + [1];
    assert Cross(Emptied, 2) == Crossed by {
      assert DropRange(Emptied.outstanding, 1, 2) == map[];
      assert DropSet({}, 1, 2) == {};
    }
    NothingSwept();
  }

  lemma NothingSwept()
    ensures Sweep(Crossed, 1) == Crossed
  {
    forall n ensures SeqsOf([], n) == {} {}
    assert SweptSrcs([], OneSource, 1) == OneSource;
  }

  function Taking(n: nat): Leaf { Pending(At(Pair[if n == 1 then 0 else 1])) }

  const Sent := Pending(Written(Pair[0]))
  const Done1 := Ended(Acked(Pair[0]))
  const Acked1 := {(1, "k1")}

  lemma FansOut(ls: seq<Leaf>, i: nat, g: Gate, replay: Replay)
    requires i < |ls| && ls[i] == Out
    ensures Can(Early({}, Counted(1, ls), g, replay), FanOut(1, i, Pair), true,
                Early({}, Counted(2, Replace(ls, i, [Hand(1), Hand(2)])), g, replay))
  {
    var hands := [Hand(1), Hand(2)];
    assert Fork.out["src"] == Pair;
    assert seq(2, k requires 0 <= k < 2 => Pending(Handoff(Pair[k]))) == hands;
    assert Turned(Fork, Output("src"), FanOut(1, i, Pair)) == Some((hands, true));
    AllPendingOpen(hands);
    Counts({}, 1, ls, g, replay, FanOut(1, i, Pair), hands, Replace(ls, i, hands));
  }

  // the same row, registered again by the replay scan

  function Again(stage: Stage): Adm { Adm("src", false, "", true, stage) }

  const Rescanned := Gate(2, 2, {1}, 0, map[Other(0) := ByHand(Registered), Other(1) := Again(Spooled(1))],
                          map[1 := Other(1)])
  const Rebooked := Gate(2, 2, {1}, 0, map[Other(0) := ByHand(Registered), Other(1) := Again(Ledgered(1))],
                         map[1 := Other(1)])
  const Reentered := Gate(2, 2, {1}, 0, map[Other(0) := ByHand(Registered), Other(1) := Again(Registered)], map[])

  const Twice := [Hand(1), Hand(2), New]

  lemma ScanStarts(w: Work)
    ensures Can(Early({}, w, Injected, NotStarted), Resume, true, Early({}, w, Injected, Scanning(0)))
  {
    assert {} + {0} == {0};
  }

  lemma ScanFinds(w: Work)
    ensures Can(Early({}, w, Injected, Scanning(0)), ReplayRow(Other(1), 1), true, Early({}, w, Rescanned, Scanning(1)))
  {
    assert ReplayEntry(Fork.nodes.Keys, Row1[1]) == Some(("src", false));
    assert ReplayedG(Injected, Other(1), 1, Again(Spooled(1))) == Rescanned;
    assert NextRow(Early({}, w, Injected, Scanning(0)).d, 0, 1);
  }

  lemma ScanBooks(w: Work)
    ensures Can(Early({}, w, Rescanned, Scanning(1)), Acquire(Other(1)), true, Early({}, w, Rebooked, Scanning(1)))
  {
    assert {1} + {1} == {1};
    assert Acquired(Rescanned, Other(1)) == Rebooked;
  }

  lemma SecondEntry()
    ensures EnterWork(Counted(2, [Hand(1), Hand(2)]), Other(1), Again(Ledgered(1))) == Counted(1, Twice)
  {
    assert [Hand(1), Hand(2)] + [New] == Twice;
    var t := Arrived(Registered1(2), 1, "", 0);
    assert t.outstanding == map[1 := 1];
    assert t.openBranches == 1;
    assert map[1 := [Hand(1), Hand(2)]][1 := Twice] == map[1 := Twice];
  }

  lemma RebookedEnters()
    ensures EnterGate(Rebooked, Other(1)) == Reentered
  {
    assert map[1 := Other(1)] - {1} == map[];
    assert Rebooked.adm[Other(1) := Again(Registered)] == Reentered.adm;
  }

  lemma ScanEnters()
    ensures Can(Early({}, Counted(2, [Hand(1), Hand(2)]), Rebooked, Scanning(1)), Register(Other(1)), true,
                Early({}, Counted(1, Twice), Reentered, Scanning(1)))
  {
    SecondEntry();
    RebookedEnters();
    Registers(Counted(2, [Hand(1), Hand(2)]), Rebooked, Scanning(1), Other(1), Reentered, Counted(1, Twice));
  }

  // both copies reach k1, neither reaches k2, and the prefix crosses the row

  const Half := [Done1, Hand(2), Done1, Hand(2)]

  const Over := Work(Crossed, map[1 := Half], map[], multiset{Call.Release(1), Flush(1, NoFronts)})

  const Nearly := [Done1, Hand(2), Sent, Hand(2)]

  lemma LastOwed()
    ensures Owed(Effects([1], true, 1, NoFronts)) == multiset{Call.Release(1), Flush(1, NoFronts)}
  {
    assert [1][1..] == [];
  }

  lemma Finishing(w: Work, w1: Work, a: (Tracker, Effects), ls: seq<Leaf>)
    requires 1 in w.exec && |w.exec[1]| == 4 && Replace(w.exec[1], 2, [Done1]) == ls
    requires w1 == w.(exec := w.exec[1 := ls]) && a == Add(w.tracker, 1, -1)
    ensures Branch(w, 1, 2, [Done1], true) == Tracked(w1, a)
  {
    OpenNone([Done1]);
  }

  const LastEffects := Effects([1], true, 1, NoFronts)

  lemma OverIs(w1: Work)
    requires w1 == Counted(1, Half)
    ensures Tracked(w1, (Crossed, LastEffects)) == Over
  {
    LastOwed();
  }

  lemma LastCount()
    ensures Branch(Counted(1, Nearly), 1, 2, [Done1], true) == Over
  {
    var w, w1 := Counted(1, Nearly), Counted(1, Half);
    OverIs(w1);
    assert w1 == w.(exec := w.exec[1 := Half]) by { assert map[1 := Nearly][1 := Half] == map[1 := Half]; }
    assert Replace(Nearly, 2, [Done1]) == Half;
    assert (Crossed, LastEffects) == Add(w.tracker, 1, -1) by { CountEnds(); }
    Finishing(w, w1, (Crossed, LastEffects), Half);
  }

  lemma Works(acked: set<(int, string)>, w: Work, g: Gate, replay: Replay, i: nat, v: Edge, w': Work)
    requires HasBranch(w, 1, i) && w.exec[1][i].place == Written(v)
    requires Branch(w, 1, i, [Ended(Acked(v))], true) == w'
    ensures Can(Early(acked, w, g, replay), Count(1, i), true, Early(acked, w', g, replay))
  {
    CountedStep(acked, w, g, replay, Count(1, i), [Ended(Acked(v))], w');
  }

  lemma LastAck()
    ensures Can(Early(Acked1, Counted(1, Nearly), Reentered, Scanning(1)), Count(1, 2), true,
                Early(Acked1, Over, Reentered, Scanning(1)))
  {
    LastCount();
    assert Nearly[2] == Sent;
    Works(Acked1, Counted(1, Nearly), Reentered, Scanning(1), 2, Pair[0], Over);
  }

  lemma Persists()
    ensures var s := Early(Acked1, Over, Reentered, Scanning(1));
      && Enabled(s, FlushCheckpoint(1, NoFronts, true), true)
      && var s' := Step(s, FlushCheckpoint(1, NoFronts, true));
        && s'.live && s'.d == s.d.(stored := Stored(1, 0)) && s'.r.w.exec == map[1 := Half] && s'.past == map[]
  {}

  // the run, put together

  lemma RunAppends(es: seq<Event>, replay: Replay, early: bool) returns (es': seq<Event>)
    requires Leads(es, early, Before(FreeGate, replay)) && (early || replay.Complete?)
    ensures Leads(es', early, Early({}, Idle, Written1, replay))
  {
    InjectAsks(replay, early);
    InjectTakes(replay, early);
    InjectAppends(replay, early);
    es' := Extend(es, Before(FreeGate, replay), Inject(Other(0), "src", ""), early, Before(Asked, replay));
    es' := Extend(es', Before(Asked, replay), TakeGate(Other(0)), early, Before(Held, replay));
    es' := Extend(es', Before(Held, replay), Append(Other(0)), early, Early({}, Idle, Written1, replay));
  }

  lemma SameEntry()
    ensures Early({}, EnterWork(Idle, Other(0), ByHand(Ledgered(1))), EnterGate(Booked, Other(0)), NotStarted)
         == Early({}, Counted(1, [New]), Injected, NotStarted)
  {
    IdleEnters();
    BookedEnters();
  }

  lemma RunBooks() returns (es: seq<Event>)
    ensures Leads(es, true, Early({}, Idle, Booked, NotStarted))
  {
    Boots(true);
    InjectBooks();
    es := Extend([], Init, Boot(Fork, 2, 10), true, Before(FreeGate, NotStarted));
    es := RunAppends(es, NotStarted, true);
    es := Extend(es, Early({}, Idle, Written1, NotStarted), Acquire(Other(0)), true,
                 Early({}, Idle, Booked, NotStarted));
  }

  lemma RunInjects() returns (es: seq<Event>)
    ensures Leads(es, true, Early({}, Counted(1, [New]), Injected, NotStarted))
  {
    es := RunBooks();
    es := RegistersNext(es, Idle, Booked, NotStarted, Other(0), ByHand(Ledgered(1)));
    SameEntry();
  }

  lemma RunRescans() returns (es: seq<Event>)
    ensures Leads(es, true, Early({}, Counted(1, Twice), Reentered, Scanning(1)))
  {
    es := RunInjects();
    var w := Counted(2, [Hand(1), Hand(2)]);
    assert Replace([New], 0, [Out]) == [Out] && Replace([Out], 0, [Hand(1), Hand(2)]) == [Hand(1), Hand(2)];
    Moves({}, 1, [New], Injected, NotStarted, Decode(1, 0), [Out], [Out]);
    es := Extend(es, Early({}, Counted(1, [New]), Injected, NotStarted), Decode(1, 0), true,
                 Early({}, Counted(1, [Out]), Injected, NotStarted));
    FansOut([Out], 0, Injected, NotStarted);
    es := Extend(es, Early({}, Counted(1, [Out]), Injected, NotStarted), FanOut(1, 0, Pair), true,
                 Early({}, w, Injected, NotStarted));
    ScanStarts(w);
    es := Extend(es, Early({}, w, Injected, NotStarted), Resume, true, Early({}, w, Injected, Scanning(0)));
    ScanFinds(w);
    es := Extend(es, Early({}, w, Injected, Scanning(0)), ReplayRow(Other(1), 1), true,
                 Early({}, w, Rescanned, Scanning(1)));
    ScanBooks(w);
    es := Extend(es, Early({}, w, Rescanned, Scanning(1)), Acquire(Other(1)), true,
                 Early({}, w, Rebooked, Scanning(1)));
    ScanEnters();
    es := Extend(es, Early({}, w, Rebooked, Scanning(1)), Register(Other(1)), true,
                 Early({}, Counted(1, Twice), Reentered, Scanning(1)));
  }

  /** One branch is taken by its worker, acknowledged by k1 and counted. */
  function Delivering(acked: set<(int, string)>, c: int, ls: seq<Leaf>): State {
    Early(acked, Counted(c, ls), Reentered, Scanning(1))
  }

  lemma Moved(es: seq<Event>, acked: set<(int, string)>, acked': set<(int, string)>, c: int, ls: seq<Leaf>, e: Event,
              l: Leaf)
    returns (es': seq<Event>)
    requires Leads(es, true, Delivering(acked, c, ls))
    requires IsBranchEvent(e) && !e.Strand? && !e.Record? && e.q == 1 && e.i < |ls| && ls[e.i].Pending?
    requires Turned(Fork, ls[e.i].place, e) == Some(([l], false))
    requires acked' == if e.SinkWrite? && ls[e.i].place.At? then acked + {(1, ls[e.i].place.via.to)} else acked
    ensures Leads(es', true, Delivering(acked', c, ls[e.i := l]))
  {
    assert Replace(ls, e.i, [l]) == ls[e.i := l];
    Moves(acked, c, ls, Reentered, Scanning(1), e, [l], ls[e.i := l]);
    es' := Extend(es, Delivering(acked, c, ls), e, true, Delivering(acked', c, ls[e.i := l]));
  }

  lemma Delivers(es: seq<Event>, acked: set<(int, string)>, c: int, ls: seq<Leaf>, i: nat) returns (es': seq<Event>)
    requires i < |ls| && ls[i] == Hand(1)
    requires Leads(es, true, Delivering(acked, c, ls)) && acked <= Acked1
    ensures Leads(es', true, Delivering(Acked1, c, ls[i := Sent]))
  {
    es' := Moved(es, acked, acked, c, ls, HandOver(1, i), Taking(1));
    assert acked + Acked1 == Acked1;
    es' := Moved(es', acked, Acked1, c, ls[i := Taking(1)], SinkWrite(1, i), Sent);
    assert ls[i := Taking(1)][i := Sent] == ls[i := Sent];
  }

  const Both := [Hand(1), Hand(2), Hand(1), Hand(2)]

  lemma RunFansOut() returns (es: seq<Event>)
    ensures Leads(es, true, Delivering({}, 2, Both))
  {
    es := RunRescans();
    es := Moved(es, {}, {}, 1, Twice, Decode(1, 2), Out);
    assert Replace(Twice[2 := Out], 2, [Hand(1), Hand(2)]) == Both;
    FansOut(Twice[2 := Out], 2, Reentered, Scanning(1));
    es := Extend(es, Delivering({}, 1, Twice[2 := Out]), FanOut(1, 2, Pair), true, Delivering({}, 2, Both));
  }

  lemma Counted1(es: seq<Event>, ls: seq<Leaf>) returns (es': seq<Event>)
    requires |ls| > 0 && ls[0] == Sent && Leads(es, true, Delivering(Acked1, 2, ls))
    ensures Leads(es', true, Delivering(Acked1, 1, ls[0 := Done1]))
  {
    assert Replace(ls, 0, [Done1]) == ls[0 := Done1];
    OpenNone([Done1]);
    Counts(Acked1, 2, ls, Reentered, Scanning(1), Count(1, 0), [Done1], ls[0 := Done1]);
    es' := Extend(es, Delivering(Acked1, 2, ls), Count(1, 0), true, Delivering(Acked1, 1, ls[0 := Done1]));
  }

  lemma RunDelivers() returns (es: seq<Event>)
    ensures Leads(es, true, Early(Acked1, Over, Reentered, Scanning(1)))
  {
    es := RunFansOut();
    es := Delivers(es, {}, 2, Both, 0);
    es := Counted1(es, Both[0 := Sent]);
    es := Delivers(es, Acked1, 1, Both[0 := Sent][0 := Done1], 2);
    assert Both[0 := Sent][0 := Done1][2 := Sent] == Nearly;
    LastAck();
    es := Extend(es, Delivering(Acked1, 1, Nearly), Count(1, 2), true, Early(Acked1, Over, Reentered, Scanning(1)));
  }

  lemma Crashes(s: State)
    requires s.live && s.past == map[] && s.r.w.exec == map[1 := Half] && 1 !in s.d.canceled
    ensures Enabled(s, Crash, true)
    ensures var s' := Step(s, Crash); s'.d == s.d && !s'.live && !Settled(s'.d, s'.past, map[], 1)
  {
    assert Half[1].Pending?;
  }

  /**
   Injection is enabled before replay finishes. A row injected early and registered again
   by the scan has its count reset while its first branches are still open, so the prefix
   can cross it with a required sink unserved, and no restart replays it.
   */
  lemma EarlyInjectionLoses() returns (es: seq<Event>, s: State)
    ensures Leads(es, true, s)
    ensures 1 < s.d.nextSeq && 1 <= s.d.stored.checkpoint
    ensures !s.live && !Settled(s.d, s.past, Execs(s), 1)
    ensures (1, "k2") !in s.d.acked && 1 !in s.d.canceled && s.d.records == map[]
  {
    es := RunDelivers();
    Persists();
    var s0 := Early(Acked1, Over, Reentered, Scanning(1));
    var e := FlushCheckpoint(1, NoFronts, true);
    var s1 := Step(s0, e);
    es := Extend(es, s0, e, true, s1);
    Crashes(s1);
    s := Step(s1, Crash);
    es := Extend(es, s1, Crash, true, s);
  }

  /**
   The condition, at the call: a registration leaves the count equal to the open branches
   exactly when the sequence had no open branch before it.
   */
  lemma RegistrationConservesIff(w: Work, id: Id, a: Adm)
    requires a.stage.Ledgered?
    ensures var q, w' := a.stage.sq, EnterWork(w, id, a);
      w'.tracker.outstanding[q] == Open(w'.exec[q]) <==> q !in w.exec || Open(w.exec[q]) == 0
  {
    var q, l := a.stage.sq, Pending(Entry(a.node, a.into));
    OpenNone([l]);
    AllPendingOpen([l]);
    OpenConcat(if q in w.exec then w.exec[q] else [], [l]);
  }

  // --- a replay that was cut short ---

  /** Nothing is in the spool's way: the sources start although row 1 was never replayed. */
  const CutShort := Early({}, Idle, FreeGate, Stopped(0, 2)).(r := Fresh(Fork, 2, 10).(
    replay := Stopped(0, 2), attempted := {0}, stopping := true, sourcesOn := true, base := map["src" := 0]))

  /** A booted run over row 1, in the phases before its sources start. */
  function Rerun(replay: Replay, stopping: bool, on: bool): State {
    CutShort.(r := CutShort.r.(replay := replay, attempted := if replay.NotStarted? then {} else {0},
                               stopping := stopping,
                               sourcesOn := on, base := if on then map["src" := 0] else map[]))
  }

  lemma StopsScanning()
    ensures Can(Rerun(NotStarted, false, false), Resume, false, Rerun(Scanning(0), false, false))
    ensures Can(Rerun(Scanning(0), false, false), Stop, false, Rerun(Scanning(0), true, false))
  {
    assert {} + {0} == {0};
  }

  lemma StopsReplay()
    ensures Can(Rerun(Scanning(0), true, false), ReplayStop, false, Rerun(Stopped(0, 2), true, false))
  {}

  lemma StartsAnyway()
    ensures Can(Rerun(Stopped(0, 2), true, false), StartSources(map["src" := 0]), false, CutShort)
  {
    assert Sources(Fork) == {"src"};
  }

  lemma Reboots()
    ensures var s := Early({}, Idle, Written1, Complete);
      Can(s, Crash, false, s.(live := false, r := NoRun))
    ensures var s := Early({}, Idle, Written1, Complete);
      Can(s.(live := false, r := NoRun), Boot(Fork, 2, 10), false, Rerun(NotStarted, false, false))
  {
    assert Finishes(Early({}, Idle, Written1, Complete).d, map[]) == map[];
  }

  lemma FirstScan()
    ensures Can(Before(FreeGate, NotStarted), Resume, false, Before(FreeGate, Scanning(0)))
    ensures Can(Before(FreeGate, Scanning(0)), ReplayDone, false, Before(FreeGate, Complete))
  {
    assert {} + {0} == {0};
  }

  /**
   A stop during replay is voluntary: the scan ends, replay counts as done, and Quiesced
   answers true although an accepted row was never dispatched.
   */
  lemma StoppedReplayLooksQuiet() returns (es: seq<Event>, s: State)
    ensures Leads(es, false, s) && Quiesced(s)
    ensures 1 < s.d.nextSeq && !Settled(s.d, s.past, Execs(s), 1) && s.r.w.tracker.committedPtr < s.d.nextSeq
  {
    Boots(false);
    FirstScan();
    es := Extend([], Init, Boot(Fork, 2, 10), false, Before(FreeGate, NotStarted));
    es := Extend(es, Before(FreeGate, NotStarted), Resume, false, Before(FreeGate, Scanning(0)));
    es := Extend(es, Before(FreeGate, Scanning(0)), ReplayDone, false, Before(FreeGate, Complete));
    es := RunAppends(es, Complete, false);
    Reboots();
    s := Early({}, Idle, Written1, Complete);
    es := Extend(es, s, Crash, false, s.(live := false, r := NoRun));
    es := Extend(es, s.(live := false, r := NoRun), Boot(Fork, 2, 10), false, Rerun(NotStarted, false, false));
    es := RunStops(es);
    s := CutShort;
  }

  lemma RunStops(es: seq<Event>) returns (es': seq<Event>)
    requires Leads(es, false, Rerun(NotStarted, false, false))
    ensures Leads(es', false, CutShort)
  {
    StopsScanning();
    StopsReplay();
    StartsAnyway();
    es' := Extend(es, Rerun(NotStarted, false, false), Resume, false, Rerun(Scanning(0), false, false));
    es' := Extend(es', Rerun(Scanning(0), false, false), Stop, false, Rerun(Scanning(0), true, false));
    es' := Extend(es', Rerun(Scanning(0), true, false), ReplayStop, false, Rerun(Stopped(0, 2), true, false));
    es' := Extend(es', Rerun(Stopped(0, 2), true, false), StartSources(map["src" := 0]), false, CutShort);
  }

  // --- a stale injection stamp ---

  /** The message was injected into k1 once, and is now injected at its source. */
  function Stale(stage: Stage): Adm { Adm("src", false, "k1", false, stage) }

  const StaleRow := map[1 := Row("src", "k1")]

  const StaleAsked := Gate(2, 0, {}, 0, map[Other(0) := Stale(Waiting)], map[])
  const StaleHeld := Gate(2, 1, {}, 0, map[Other(0) := Stale(Holding)], map[])
  const StaleWritten := Gate(2, 1, {}, 0, map[Other(0) := Stale(Spooled(1))], map[1 := Other(0)])

  /** A run over the stale row. */
  function OverStale(g: Gate, replay: Replay): State {
    State(Durable(StaleRow, 2, Stored(0, 0), map[], map[], {}, {}, {}), true,
          Fresh(Fork, 2, 10).(g := g, replay := replay, attempted := if replay.NotStarted? then {} else {0}),
          map[], map[])
  }

  lemma StaleAsks()
    ensures Can(Before(FreeGate, Complete), Inject(Other(0), "src", "k1"), false, Before(StaleAsked, Complete))
  {
    assert SetAdm(Before(FreeGate, Complete), Other(0), Stale(Waiting)).r.g == StaleAsked;
  }

  lemma StaleTakes()
    ensures Can(Before(StaleAsked, Complete), TakeGate(Other(0)), false, Before(StaleHeld, Complete))
  {
    assert Taken(StaleAsked, Other(0)) == StaleHeld;
  }

  lemma StaleAppends()
    ensures Can(Before(StaleHeld, Complete), Append(Other(0)), false, OverStale(StaleWritten, Complete))
  {
    assert Init.d.rows[1 := Stamp("src", false, "k1")] == StaleRow;
    assert AppendedG(StaleHeld, Other(0), 1) == StaleWritten;
  }

  lemma StaleCrashes()
    ensures var s := OverStale(StaleWritten, Complete);
      Can(s, Crash, false, s.(live := false, r := NoRun))
    ensures var s := OverStale(StaleWritten, Complete);
      Can(s.(live := false, r := NoRun), Boot(Fork, 2, 10), false, OverStale(FreeGate, NotStarted))
  {
    assert Finishes(OverStale(StaleWritten, Complete).d, map[]) == map[];
  }

  lemma StaleScans()
    ensures Can(OverStale(FreeGate, NotStarted), Resume, false, OverStale(FreeGate, Scanning(0)))
  {
    assert {} + {0} == {0};
  }

  const StaleBack := Gate(2, 1, {}, 0, map[Other(1) := Adm("k1", true, "", true, Spooled(1))], map[1 := Other(1)])

  lemma StaleReenters()
    ensures Can(OverStale(FreeGate, Scanning(0)), ReplayRow(Other(1), 1), false, OverStale(StaleBack, Scanning(1)))
  {
    assert ReplayEntry(Fork.nodes.Keys, StaleRow[1]) == Some(("k1", true));
    assert ReplayedG(FreeGate, Other(1), 1, Adm("k1", true, "", true, Spooled(1))) == StaleBack;
    assert NextRow(OverStale(FreeGate, Scanning(0)).d, 0, 1);
  }

  /**
   A message injected at a source, carrying the stamp of an old injection into k1, crashes
   before it is dispatched: replay hands it into k1 alone, and k2 is never asked.
   */
  lemma StaleStampWins() returns (es: seq<Event>, s: State)
    ensures Leads(es, false, s)
    ensures s.d.rows == map[1 := Stamp("src", false, "k1")]
    ensures Other(1) in s.r.g.adm && s.r.g.adm[Other(1)] == Adm("k1", true, "", true, Spooled(1))
  {
    Boots(false);
    FirstScan();
    StaleAsks();
    StaleTakes();
    StaleAppends();
    StaleCrashes();
    StaleScans();
    StaleReenters();
    es := Extend([], Init, Boot(Fork, 2, 10), false, Before(FreeGate, NotStarted));
    es := Extend(es, Before(FreeGate, NotStarted), Resume, false, Before(FreeGate, Scanning(0)));
    es := Extend(es, Before(FreeGate, Scanning(0)), ReplayDone, false, Before(FreeGate, Complete));
    es := Extend(es, Before(FreeGate, Complete), Inject(Other(0), "src", "k1"), false, Before(StaleAsked, Complete));
    es := Extend(es, Before(StaleAsked, Complete), TakeGate(Other(0)), false, Before(StaleHeld, Complete));
    es := Extend(es, Before(StaleHeld, Complete), Append(Other(0)), false, OverStale(StaleWritten, Complete));
    s := OverStale(StaleWritten, Complete);
    es := Extend(es, s, Crash, false, s.(live := false, r := NoRun));
    es := Extend(es, s.(live := false, r := NoRun), Boot(Fork, 2, 10), false, OverStale(FreeGate, NotStarted));
    es := Extend(es, OverStale(FreeGate, NotStarted), Resume, false, OverStale(FreeGate, Scanning(0)));
    es := Extend(es, OverStale(FreeGate, Scanning(0)), ReplayRow(Other(1), 1), false,
                 OverStale(StaleBack, Scanning(1)));
    s := OverStale(StaleBack, Scanning(1));
  }
}
