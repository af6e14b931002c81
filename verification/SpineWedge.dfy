/** Injected early, finished messages can hold every slot that replay needs to reach them. */
module SpineWedge {
  import opened Commit
  import opened Persistence
  import opened Spine
  import opened SpineInvariant
  import opened SpineFindings

  // --- a second run, with one slot, over a row the first run left behind ---

  const Row2 := Row("src", "")
  const Both2 := Durable(map[1 := Row("src", ""), 2 := Row2], 3, Stored(0, 0), map[], map[], {}, {}, {})
  const One := Durable(Row1, 2, Stored(0, 0), map[], map[], {}, {}, {})

  /** A run of Fork with a single slot. */
  function Narrow(d: Durable, w: Work, g: Gate, replay: Replay): State {
    State(d, true, Fresh(Fork, 1, 10).(w := w, g := g, replay := replay,
                                       attempted := if replay.NotStarted? then {} else {0}), map[], map[])
  }

  const NoSlot := Gate(1, 0, {}, 0, map[], map[])
  const Asks := Gate(1, 0, {}, 0, map[Other(0) := ByHand(Waiting)], map[])
  const Takes := Gate(1, 1, {}, 0, map[Other(0) := ByHand(Holding)], map[])
  const Writes := Gate(1, 1, {}, 0, map[Other(0) := ByHand(Spooled(2))], map[2 := Other(0)])
  const Books := Gate(1, 1, {2}, 0, map[Other(0) := ByHand(Ledgered(2))], map[2 := Other(0)])
  const Enters := Gate(1, 1, {2}, 0, map[Other(0) := ByHand(Registered)], map[])
  const Full := Gate(1, 1, {2}, 0, map[], map[])

  const NoMatch2 := Ended(Filtered(NoMatch("src")))

  /** Row 2 matched no edge. */
  const Told2 := Both2.(verdicts := {(2, NoMatch("src"))})

  /** Row 2 is registered, row 1 is a hole below it. */
  function Second(count: int, ls: seq<Leaf>): Work {
    Work(Tracker(map[2 := count], count, 2, 1, {}, [], OneSource), map[2 := ls], map[], multiset{})
  }

  lemma LeavesRow1() returns (es: seq<Event>)
    ensures Leads(es, true, Narrow(One, Idle, NoSlot, NotStarted))
  {
    Boots(true);
    es := Extend([], Init, Boot(Fork, 2, 10), true, Before(FreeGate, NotStarted));
    es := RunAppends(es, NotStarted, true);
    Restarts();
    es := Extend(es, Early({}, Idle, Written1, NotStarted), Crash, true, Down);
    es := Extend(es, Down, Boot(Fork, 1, 10), true, Narrow(One, Idle, NoSlot, NotStarted));
  }

  const Down := State(One, false, NoRun, map[], map[])

  lemma Restarts()
    ensures Can(Early({}, Idle, Written1, NotStarted), Crash, true, Down)
    ensures Can(Down, Boot(Fork, 1, 10), true, Narrow(One, Idle, NoSlot, NotStarted))
  {
    assert Finishes(One, map[]) == map[];
    assert Sources(Fork) == {"src"};
  }

  lemma Asking()
    ensures Can(Narrow(One, Idle, NoSlot, NotStarted), Inject(Other(0), "src", ""), true,
                Narrow(One, Idle, Asks, NotStarted))
    ensures Can(Narrow(One, Idle, Asks, NotStarted), TakeGate(Other(0)), true, Narrow(One, Idle, Takes, NotStarted))
  {
    assert SetAdm(Narrow(One, Idle, NoSlot, NotStarted), Other(0), ByHand(Waiting)).r.g == Asks;
    assert Taken(Asks, Other(0)) == Takes;
  }

  lemma Writing()
    ensures Can(Narrow(One, Idle, Takes, NotStarted), Append(Other(0)), true, Narrow(Both2, Idle, Writes, NotStarted))
    ensures Can(Narrow(Both2, Idle, Writes, NotStarted), Acquire(Other(0)), true,
                Narrow(Both2, Idle, Books, NotStarted))
  {
    assert One.rows[2 := Stamp("src", false, "")] == Both2.rows;
    assert AppendedG(Takes, Other(0), 2) == Writes;
    assert Acquired(Writes, Other(0)) == Books;
  }

  lemma SecondStarts()
    ensures EnterWork(Idle, Other(0), ByHand(Ledgered(2))) == Second(1, [New])
  {
    assert [] + [New] == [New];
    assert Arrived(Idle.tracker, 2, "", 0) == Second(1, [New]).tracker;
  }

  lemma BooksEnters()
    ensures EnterGate(Books, Other(0)) == Enters
  {
    assert map[2 := Other(0)] - {2} == map[];
  }

  lemma Entering()
    ensures Can(Narrow(Both2, Idle, Books, NotStarted), Register(Other(0)), true,
                Narrow(Both2, Second(1, [New]), Enters, NotStarted))
  {
    SecondStarts();
    BooksEnters();
    Registering(Idle, Books, Other(0), ByHand(Ledgered(2)));
  }

  lemma Registering(w: Work, g: Gate, id: Id, a: Adm)
    requires id.Other? && id in g.adm && g.adm[id] == a && a.stage.Ledgered? && a.stage.sq !in w.exec
    ensures Can(Narrow(Both2, w, g, NotStarted), Register(id), true,
                Narrow(Both2, EnterWork(w, id, a), EnterGate(g, id), NotStarted))
  {}

  lemma Decoding()
    ensures Can(Narrow(Both2, Second(1, [New]), Enters, NotStarted), Decode(2, 0), true,
                Narrow(Both2, Second(1, [Out]), Enters, NotStarted))
  {
    assert Replace([New], 0, [Out]) == [Out];
    assert Branch(Second(1, [New]), 2, 0, [Out], false) == Second(1, [Out]) by {
      assert map[2 := [New]][2 := [Out]] == map[2 := [Out]];
    }
  }

  /** Its only branch filtered, row 2 is drained, and the hole below it keeps it from being crossed. */
  lemma SecondDrains()
    ensures Add(Second(1, []).tracker, 2, -1) == (Second(0, []).tracker, NoEffects)
  {
    var u := Recount(Second(1, []).tracker, 2, 0);
    assert u == Second(0, []).tracker && !Passable(u, 1);
    assert StopFrom(u, 1) == 1;
  }

  lemma SecondFilters()
    ensures Branch(Second(1, [Out]), 2, 0, [NoMatch2], true) == Second(0, [NoMatch2])
  {
    SecondDrains();
    OpenNone([NoMatch2]);
    assert Replace([Out], 0, [NoMatch2]) == [NoMatch2];
    assert map[2 := [Out]][2 := [NoMatch2]] == map[2 := [NoMatch2]];
    assert multiset{} + Owed(NoEffects) == multiset{};
  }

  lemma Filtering()
    ensures Can(Narrow(Both2, Second(1, [Out]), Enters, NotStarted), FanOut(2, 0, []), true,
                Narrow(Told2, Second(0, [NoMatch2]), Enters, NotStarted))
  {
    SecondFilters();
    Turns(Second(1, [Out]), Enters, FanOut(2, 0, []), [NoMatch2]);
  }

  lemma Turns(w: Work, g: Gate, e: Event, news: seq<Leaf>)
    requires e == FanOut(2, 0, []) && HasBranch(w, 2, 0) && w.exec[2][0].place == Output("src")
    requires Turned(Fork, w.exec[2][0].place, e) == Some((news, true))
    ensures Can(Narrow(Both2, w, g, NotStarted), e, true, Narrow(Told2, Branch(w, 2, 0, news, true), g, NotStarted))
  {
    assert {} + {(2, NoMatch("src"))} == {(2, NoMatch("src"))};
  }

  const Done2 := Second(0, [NoMatch2])

  lemma Returning()
    ensures Can(Narrow(Told2, Done2, Enters, NotStarted), Return(Other(0)), true,
                Narrow(Told2, Done2, Full, NotStarted))
    ensures Can(Narrow(Told2, Done2, Full, NotStarted), Resume, true, Narrow(Told2, Done2, Full, Scanning(0)))
  {
    assert map[Other(0) := ByHand(Registered)] - {Other(0)} == map[];
    assert {} + {0} == {0};
  }

  /** What the engine does on its own: no operator, no stop, no crash. */
  predicate Own(e: Event) {
    !e.Boot? && !e.Crash? && !e.Stop? && !e.Inject? && !e.CancelRecord? && !e.CancelForce?
  }

  lemma NothingMoves(e: Event)
    requires Own(e)
    ensures !Enabled(Narrow(Told2, Done2, Full, Scanning(0)), e, true)
  {
    var s := Narrow(Told2, Done2, Full, Scanning(0));
    assert 1 in s.d.rows && 1 > 0;
    if e.ReplayOrphan? && NextRow(s.d, 0, e.q) {
      assert e.q == 1;
      assert ReplayEntry(Fork.nodes.Keys, s.d.rows[1]) == Some(("src", false));
    }
  }

  /**
   A message injected before replay is over takes the only slot and finishes, but is not
   committed over the row below it; replay waits for that slot to admit the row. Nothing
   the engine does on its own is enabled any more.
   */
  lemma EarlyInjectionWedges() returns (es: seq<Event>, s: State)
    ensures Leads(es, true, s) && s.live && !s.r.stopping && s.r.g.taken == s.r.g.limit
    ensures s.r.replay == Scanning(0) && NextRow(s.d, 0, 1)
    ensures forall e :: Own(e) ==> !Enabled(s, e, true)
  {
    es := LeavesRow1();
    Asking();
    Writing();
    var (s0, s1) := (Narrow(One, Idle, NoSlot, NotStarted), Narrow(One, Idle, Asks, NotStarted));
    var (s2, s3) := (Narrow(One, Idle, Takes, NotStarted), Narrow(Both2, Idle, Writes, NotStarted));
    es := Extend(es, s0, Inject(Other(0), "src", ""), true, s1);
    es := Extend(es, s1, TakeGate(Other(0)), true, s2);
    es := Extend(es, s2, Append(Other(0)), true, s3);
    es := Extend(es, s3, Acquire(Other(0)), true, Narrow(Both2, Idle, Books, NotStarted));
    es, s := Finishing(es);
    forall e | Own(e) ensures !Enabled(s, e, true) { NothingMoves(e); }
  }

  lemma Finishing(es: seq<Event>) returns (es': seq<Event>, s: State)
    requires Leads(es, true, Narrow(Both2, Idle, Books, NotStarted))
    ensures Leads(es', true, s) && s == Narrow(Told2, Done2, Full, Scanning(0))
  {
    Entering();
    Decoding();
    Filtering();
    Returning();
    var s4 := Narrow(Both2, Second(1, [New]), Enters, NotStarted);
    var s5 := Narrow(Both2, Second(1, [Out]), Enters, NotStarted);
    es' := Extend(es, Narrow(Both2, Idle, Books, NotStarted), Register(Other(0)), true, s4);
    es' := Extend(es', s4, Decode(2, 0), true, s5);
    es' := Extend(es', s5, FanOut(2, 0, []), true, Narrow(Told2, Done2, Enters, NotStarted));
    es' := Extend(es', Narrow(Told2, Done2, Enters, NotStarted), Return(Other(0)), true,
                  Narrow(Told2, Done2, Full, NotStarted));
    s := Narrow(Told2, Done2, Full, Scanning(0));
    es' := Extend(es', Narrow(Told2, Done2, Full, NotStarted), Resume, true, s);
  }
}
