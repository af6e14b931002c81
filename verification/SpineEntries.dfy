/** Where registered rows enter the graph, and where watermarks come from, over whole runs. */
module SpineEntries {
  import opened Commit
  import opened Persistence
  import opened Spine
  import opened SpineInvariant
  import opened SpineRuns

  /** The row says so: by its injection stamp when it goes into the node, by its source when out of it. */
  predicate EntersBy(row: Row, node: string, into: bool) { if into then row.injectedAt == node else row.source == node }

  /** Every admission that holds a row, and every branch yet to enter, follows the row's stamps. */
  ghost predicate Followed(s: State) {
    s.live ==>
      && (forall id, q :: id in s.r.g.adm && Holds(s.r.g.adm[id], q) && q in s.d.rows ==>
            EntersBy(s.d.rows[q], s.r.g.adm[id].node, s.r.g.adm[id].into))
      && (forall q :: q in s.r.w.exec && q in s.d.rows ==> EntriesOk(s.r.pipe.nodes.Keys, s.d.rows[q], s.r.w.exec[q]))
  }

  /** The row names no node of the pipeline. */
  predicate NamesNone(nodes: set<string>, row: Row) {
    (row.injectedAt == "" || row.injectedAt !in nodes) && (row.source == "" || row.source !in nodes)
  }

  ghost predicate EntriesOk(nodes: set<string>, row: Row, ls: seq<Leaf>) {
    && (forall i :: 0 <= i < |ls| && ls[i].Pending? && ls[i].place.Entry? ==>
          EntersBy(row, ls[i].place.node, ls[i].place.into))
    && (forall i :: 0 <= i < |ls| && (ls[i] == Pending(Unroutable) || ls[i] == Ended(Undeliverable)) ==>
          NamesNone(nodes, row))
  }

  lemma ReplaceEntries(nodes: set<string>, row: Row, ls: seq<Leaf>, i: nat, news: seq<Leaf>)
    requires EntriesOk(nodes, row, ls) && i < |ls| && EntriesOk(nodes, row, news)
    ensures EntriesOk(nodes, row, Replace(ls, i, news))
  {}

  lemma TurnedEntries(p: Pipe, l: Place, e: Event, row: Row)
    requires IsBranchEvent(e) && Turned(p, l, e).Some? && (l.Unroutable? ==> NamesNone(p.nodes.Keys, row))
    ensures EntriesOk(p.nodes.Keys, row, Turned(p, l, e).value.0)
  {}

  lemma BranchFields(s: State, e: Event)
    requires s.live && IsBranchEvent(e) && BranchEnabled(s, e)
    ensures var (s', ls) := (BranchStep(s, e), s.r.w.exec[e.q]);
      && s'.live && s'.d.rows == s.d.rows && s'.r.g == s.r.g && s'.r.pipe == s.r.pipe
      && s'.r.w.exec == s.r.w.exec[e.q := Replace(ls, e.i, Turned(s.r.pipe, ls[e.i].place, e).value.0)]
  {}

  lemma BranchFollows(s: State, e: Event)
    requires s.live && IsBranchEvent(e) && BranchEnabled(s, e) && Followed(s)
    ensures Followed(BranchStep(s, e))
  {
    var news := Turned(s.r.pipe, s.r.w.exec[e.q][e.i].place, e).value.0;
    BranchFields(s, e);
    if e.q in s.d.rows {
      TurnedEntries(s.r.pipe, s.r.w.exec[e.q][e.i].place, e, s.d.rows[e.q]);
      ReplaceEntries(s.r.pipe.nodes.Keys, s.d.rows[e.q], s.r.w.exec[e.q], e.i, news);
    }
  }

  lemma AppendFollows(s: State, id: Id)
    requires s.live && At'(s.r.g, id, Holding) && Followed(s) && RowsInv(s.d)
    requires forall q :: q in s.r.w.exec ==> q < s.d.nextSeq
    requires forall j, q :: j in s.r.g.adm && Holds(s.r.g.adm[j], q) ==> q < s.d.nextSeq
    ensures Followed(AdmissionStep(s, Append(id)))
  {
    var s' := AdmissionStep(s, Append(id));
    forall j, q | j in s'.r.g.adm && Holds(s'.r.g.adm[j], q) && q in s'.d.rows
      ensures EntersBy(s'.d.rows[q], s'.r.g.adm[j].node, s'.r.g.adm[j].into)
    {
      if j != id { assert Holds(s.r.g.adm[j], q); }
    }
  }

  lemma ReplayFollows(s: State, id: Id, q: int)
    requires s.live && AdmissionEnabled(s, ReplayRow(id, q), true) && Followed(s)
    ensures Followed(AdmissionStep(s, ReplayRow(id, q)))
  {
    var s' := AdmissionStep(s, ReplayRow(id, q));
    forall j, k | j in s'.r.g.adm && Holds(s'.r.g.adm[j], k) && k in s'.d.rows
      ensures EntersBy(s'.d.rows[k], s'.r.g.adm[j].node, s'.r.g.adm[j].into)
    {
      if j != id { assert Holds(s.r.g.adm[j], k); }
    }
  }

  lemma RegisterFollows(s: State, id: Id)
    requires s.live && id in s.r.g.adm && s.r.g.adm[id].stage.Ledgered? && Followed(s)
    requires s.r.g.adm[id].stage.sq !in s.r.w.exec
    ensures Followed(Enter(s, id))
  {
    var (a, s') := (s.r.g.adm[id], Enter(s, id));
    var q := a.stage.sq;
    assert Holds(a, q);
    assert [] + [Pending(Entry(a.node, a.into))] == [Pending(Entry(a.node, a.into))];
    forall j, k | j in s'.r.g.adm && Holds(s'.r.g.adm[j], k) && k in s'.d.rows
      ensures EntersBy(s'.d.rows[k], s'.r.g.adm[j].node, s'.r.g.adm[j].into)
    {
      assert j != id && Holds(s.r.g.adm[j], k);
    }
  }

  lemma OtherAdmissionFollows(s: State, e: Event)
    requires s.live && IsAdmission(e) && AdmissionEnabled(s, e, true) && Followed(s)
    requires !e.Append? && !e.ReplayRow? && !e.Register?
    ensures Followed(AdmissionStep(s, e))
  {
    var s' := AdmissionStep(s, e);
    forall j, k | j in s'.r.g.adm && Holds(s'.r.g.adm[j], k) && k in s'.d.rows
      ensures EntersBy(s'.d.rows[k], s'.r.g.adm[j].node, s'.r.g.adm[j].into)
    {
      assert Holds(s.r.g.adm[j], k);
    }
  }

  lemma OrphanFollows(s: State, q: int)
    requires s.live && ControlEnabled(s, ReplayOrphan(q)) && Followed(s) && q !in s.r.w.exec
    ensures Followed(ControlStep(s, ReplayOrphan(q)))
  {
    assert [] + [Pending(Unroutable)] == [Pending(Unroutable)];
  }

  lemma ControlFollows(s: State, e: Event)
    requires !IsAdmission(e) && !IsBranchEvent(e) && ControlEnabled(s, e) && Followed(s) && !e.ReplayOrphan?
    ensures Followed(ControlStep(s, e))
  {}

  lemma StepFollows(s: State, e: Event)
    requires Inv(s) && Enabled(s, e, true) && Followed(s)
    ensures Followed(Step(s, e))
  {
    if IsBranchEvent(e) {
      BranchFollows(s, e);
    } else if IsAdmission(e) {
      AdmissionFollows(s, e);
    } else if e.ReplayOrphan? {
      Unregistered(s, e.q);
      OrphanFollows(s, e.q);
    } else {
      ControlFollows(s, e);
    }
  }

  lemma AdmissionFollows(s: State, e: Event)
    requires Inv(s) && s.live && IsAdmission(e) && AdmissionEnabled(s, e, true) && Followed(s)
    ensures Followed(AdmissionStep(s, e))
  {
    if e.Append? {
      RowsInHand(s);
      AppendFollows(s, e.id);
    } else if e.ReplayRow? {
      ReplayFollows(s, e.id, e.q);
    } else if e.Register? {
      Unregistered(s, s.r.g.adm[e.id].stage.sq);
      RegisterFollows(s, e.id);
    } else {
      OtherAdmissionFollows(s, e);
    }
  }

  lemma RowsInHand(s: State)
    requires Inv(s) && s.live
    ensures RowsInv(s.d) && (forall q :: q in s.r.w.exec ==> q < s.d.nextSeq)
    ensures forall j, q :: j in s.r.g.adm && Holds(s.r.g.adm[j], q) ==> q < s.d.nextSeq
  {}

  lemma Unregistered(s: State, q: int)
    requires Inv(s) && s.live && (q in s.r.g.hands || Unscanned(s.r.replay, q))
    ensures q !in s.r.w.exec
  {}

  lemma {:induction false} RunFollows(s: State, es: seq<Event>, s': State)
    requires Inv(s) && After(s, es, false) == Some(s') && Followed(s)
    ensures Followed(s')
    decreases |es|
  {
    if es != [] {
      LateIsEnabled(s, es[0]);
      StepKeeps(s, es[0]);
      StepFollows(s, es[0]);
      RunFollows(Step(s, es[0]), es[1..], s');
    }
  }

  /**
   In every reachable state a message yet to enter the graph goes where its row says: into
   the node its injection stamp names, or out of its source. So a restart, which knows the
   row only, can do the same.
   */
  lemma EntriesFollowStamps(es: seq<Event>, s: State, q: int, i: nat)
    requires Leads(es, false, s) && s.live && q in s.r.w.exec && q in s.d.rows && i < |s.r.w.exec[q]|
    requires s.r.w.exec[q][i].Pending? && s.r.w.exec[q][i].place.Entry?
    ensures var p := s.r.w.exec[q][i].place;
      if p.into then s.d.rows[q].injectedAt == p.node else s.d.rows[q].source == p.node
  {
    RunFollows(Init, es, s);
    assert EntriesOk(s.r.pipe.nodes.Keys, s.d.rows[q], s.r.w.exec[q]);
  }

  /** Only a row that names no node of the pipeline is ever given up as undeliverable. */
  lemma UndeliverableNamesNone(es: seq<Event>, s: State, q: int, i: nat)
    requires Leads(es, false, s) && s.live && q in s.r.w.exec && q in s.d.rows && i < |s.r.w.exec[q]|
    requires s.r.w.exec[q][i] == Ended(Undeliverable)
    ensures var row := s.d.rows[q]; row.injectedAt !in s.r.pipe.nodes || row.injectedAt == ""
    ensures var row := s.d.rows[q]; row.source !in s.r.pipe.nodes || row.source == ""
  {
    RunFollows(Init, es, s);
    assert EntriesOk(s.r.pipe.nodes.Keys, s.d.rows[q], s.r.w.exec[q]);
  }

  // --- watermarks ---

  /** Posting keeps the highest positive frontier of each source and forgets none. */
  lemma PostIsMax(posted: map<string, int>, fr: map<string, int>, n: string)
    ensures n in Post(posted, fr) <==> n in posted || (n in fr && fr[n] > 0)
    ensures n in Post(posted, fr) ==>
      && (n in posted ==> Post(posted, fr)[n] >= posted[n])
      && (n in fr && fr[n] > 0 ==> Post(posted, fr)[n] >= fr[n])
      && ((n in posted && Post(posted, fr)[n] == posted[n]) || (n in fr && Post(posted, fr)[n] == fr[n]))
  {}

  /**
   A completed flush posts the frontiers it owed, an attempt takes what was posted, and a
   state write that succeeds moves the source's watermark to just there: past the items the
   run started from, by that many emissions. A failed one moves nothing.
   */
  lemma WatermarkReaches(s: State, n: string, trimOk: bool, written: bool)
    requires s.live && s.r.locked && s.r.retention > 0 && n in s.r.owed && s.r.owed[n] > 0
    requires n in s.r.base && n !in s.r.inFlight
    ensures ControlEnabled(s, FlushTrim(trimOk))
    ensures var s1 := ControlStep(s, FlushTrim(trimOk));
      && ControlEnabled(s1, CommitterBegin(n))
      && var s2 := ControlStep(s1, CommitterBegin(n));
        && ControlEnabled(s2, CommitterEnd(n, written))
        && var d := ControlStep(s2, CommitterEnd(n, written)).d;
          if written then n in d.marks && d.marks[n] >= s.r.base[n] + s.r.owed[n]
          else d.marks == s.d.marks
  {
    PostIsMax(s.r.posted, s.r.owed, n);
  }
}
