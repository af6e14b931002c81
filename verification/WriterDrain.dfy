/** Once the store closes, the writer comes to its end: no deadlock, and no endless run. */
module WriterDrain {
  import opened GroupCommit
  import opened GroupStore
  import opened GroupEquivalence
  import opened WriterRuns

  /** Steps left to a transaction: begin, finish, hand on, and one verdict per request. */
  function GroupWork(g: Group): nat { 3 + |GroupReqs(g)| }

  function GroupsWork(gs: seq<Group>): nat { if gs == [] then 0 else GroupWork(gs[0]) + GroupsWork(gs[1..]) }

  function PhaseWork(p: Phase, maxRows: int): nat {
    match p
    case Exited => 0
    case Looking => 1
    case Blocked => 2
    case Collecting(held) => 3 + GroupsWork(GroupsOf(PlanOf(held, maxRows)))
    case Executing(gs) => 2 + GroupsWork(gs)
    case InTx(g, gs) => 4 + |GroupReqs(g)| + GroupsWork(gs)
    case Resolving(todo, _, gs) => 3 + |todo| + GroupsWork(gs)
  }

  /** What is left to do after a close, with nobody closing again. */
  function Left(s: State): nat { s.sending + |s.refusing| + PhaseWork(s.phase, s.maxRows) }

  lemma {:induction false} UnlinkShrinks(es: seq<Entry>, marks: map<Key, int>)
    ensures |Waiters(Unlink(es, marks))| <= |Waiters(es)|
  {
    if es != [] {
      UnlinkShrinks(es[1..], marks);
      assert Unlink(es, marks)[1..] == Unlink(es[1..], marks);
    }
  }

  lemma UnlinkedShrinks(g: Group, marks: map<Key, int>)
    ensures |GroupReqs(Unlinked(g, marks))| <= |GroupReqs(g)|
  {
    UnlinkShrinks(g.stmts.checkpoints, marks);
    UnlinkShrinks(g.stmts.sourceStates, marks);
  }

  predicate OnItsWay(e: Event) { !e.Enqueue? && !e.Close? && !e.Companions? }

  /** Every step after a close uses up work; collecting companions finds none. */
  lemma StepDrains(s: State, e: Event)
    requires Enabled(s, e) && Awake(s) && s.closed && OnItsWay(e)
    ensures Left(Step(s, e)) < Left(s)
  {
    if e.Begin? { UnlinkedShrinks(s.phase.groups[0], s.st.marks); }
  }

  /** From the close on a run is bounded by the work left, however long callers had queued. */
  lemma {:induction false} ClosedRunsEnd(s: State, es: seq<Event>, s': State)
    requires After(s, es) == Reached(s') && Inv(s) && s.maxRows >= 1 && s.closed
    requires forall i :: 0 <= i < |es| ==> OnItsWay(es[i])
    ensures |es| + Left(s') <= Left(s)
    decreases |es|
  {
    if es != [] {
      StepKeeps(s, es[0]);
      StepDrains(s, es[0]);
      ClosedRunsEnd(Step(s, es[0]), es[1..], s');
    }
  }

  /**
   Nothing lands after a close, not even what a transaction had open: the store stays as it
   is, and success is told only to what had landed.
   */
  lemma {:induction false} ClosedStoreIsFinal(base: Db, maxRows: int, before: seq<Event>, s: State, es: seq<Event>,
                                              s': State)
    requires Opens(base, maxRows, before, s) && s.closed && After(s, es) == Reached(s')
    ensures s'.st == s.st && s'.accepted == s.accepted
    ensures forall r :: (r, true) in s'.verdicts ==> Landed(s.st, r)
    decreases |es|
  {
    if es == [] {
      ReachableKeeps(base, maxRows, before, s);
      forall r | (r, true) in s.verdicts ensures Landed(s.st, r) {
        var i :| 0 <= i < |s.verdicts| && s.verdicts[i] == (r, true);
      }
    } else {
      RunOn(Init(base, maxRows), before, s, es[0]);
      ClosedStoreIsFinal(base, maxRows, before + [es[0]], Step(s, es[0]), es[1..], s');
    }
  }

  /** And it never stops short: until the writer has exited and every refusal and signal is out, some step is
      enabled. */
  lemma ClosedRunsMove(base: Db, maxRows: int, es: seq<Event>, s: State) returns (e: Event)
    requires Opens(base, maxRows, es, s) && s.closed
    requires !s.phase.Exited? || s.refusing != [] || s.sending > 0
    ensures OnItsWay(e) && Enabled(s, e)
  {
    ReachableKeeps(base, maxRows, es, s);
    if s.refusing != [] { return Refuse; }
    if s.sending > 0 { return Signal; }
    match s.phase
    case Looking => e := Look;
    case Blocked => e := Wake;
    case Collecting(_) => e := PlanBatch;
    case Executing(gs) => e := if gs == [] then NextBatch else Begin;
    case InTx(_, _) => e := Finish(false);
    case Resolving(todo, _, _) => e := if todo == [] then NextGroup else Resolve;
  }

  /**
   So a closed store can always be run to its end, and there every accepted request has
   its verdict.
   */
  lemma {:induction false} CloseAnswersAll(base: Db, maxRows: int, es: seq<Event>, s: State)
    returns (more: seq<Event>, s': State)
    requires Opens(base, maxRows, es, s) && s.closed
    ensures Opens(base, maxRows, es + more, s') && s'.accepted == s.accepted && s'.phase.Exited?
    ensures forall r :: r in s.accepted ==> (r, true) in s'.verdicts || (r, false) in s'.verdicts
    decreases Left(s)
  {
    ReachableKeeps(base, maxRows, es, s);
    if s.phase.Exited? && s.refusing == [] && s.sending == 0 {
      assert es + [] == es;
      forall r | r in s.accepted ensures (r, true) in s.verdicts || (r, false) in s.verdicts {
        AllAnsweredAtExit(base, maxRows, es, s, r);
      }
      return [], s;
    }
    var e := ClosedRunsMove(base, maxRows, es, s);
    StepDrains(s, e);
    RunOn(Init(base, maxRows), es, s, e);
    more, s' := CloseAnswersAll(base, maxRows, es + [e], Step(s, e));
    assert es + [e] + more == es + ([e] + more);
    more := [e] + more;
  }

  lemma {:induction false} RunOn(s: State, es: seq<Event>, s1: State, e: Event)
    requires After(s, es) == Reached(s1) && Enabled(s1, e)
    ensures After(s, es + [e]) == Reached(Step(s1, e))
    decreases |es|
  {
    if es == [] {
      assert [] + [e] == [e] && [e][1..] == [];
    } else {
      assert (es + [e])[1..] == es[1..] + [e];
      RunOn(Step(s, es[0]), es[1..], s1, e);
    }
  }
}
