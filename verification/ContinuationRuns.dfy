/**
 Results over every run of the store: each command outcome is placed in at most one wake ever, every
 acknowledged event has its receipt, and every stored result that is awaited sits in an unsettled wake.
 */
module ContinuationRuns {
  import opened Wrappers
  import opened ContinuationModel
  import opened ContinuationSpec
  import opened ContinuationInvariant
  import opened ContinuationSteps
  import opened ContinuationSaving
  import opened ContinuationPlacement
  import opened ContinuationSystem
  import opened ContinuationOnce

  // ------------------------------------------------------------------ a client request is ready to be saved

  /** The wake a request may carry across the dispatch fence. */
  function FencedBy(d: Doc, request: Request): Id {
    if request.ControllerRequest? && request.controller.action.Prepare? && Find(d.wakes, request.controller.wake) < |d.wakes|
    then request.controller.wake else NO_ID
  }

  lemma HandleKeeps(d: Doc, request: Request, targets: Targets, table: seq<Receipt>, now: int, next: Id)
    requires DocInv(d) && Below(d, next) && Handle(d, request, targets, table, now, next).Ok?
    ensures Keeps(d, Handle(d, request, targets, table, now, next).value.doc, next,
                  Handle(d, request, targets, table, now, next).value.next, FencedBy(d, request))
    ensures FencedBy(d, request) < next
  {
    var fenced := FencedBy(d, request);
    match request
    case ControlRequest(_, input) => ControlKeeps(d, input, targets, table, now, next, fenced);
    case PresentRequest(_, recover) => PresentKeeps(d, recover, now, next, fenced);
    case ControllerRequest(_, input) => ControllerKeeps(d, input, targets, now, next, fenced);
    case ConsumeRequest(e) => ConsumeKeeps(d, e, targets, now, next, fenced);
  }

  lemma ExpireKeeps(d: Doc, now: int, next: Id, fenced: Id)
    requires DocInv(d) && Below(d, next) && fenced < next
    ensures Keeps(d, Stamped(Expire(d, now), now), next, next, fenced)
    ensures SamePlacement(d, Stamped(Expire(d, now), now))
  {
    var d1 := Expire(d, now);
    ExpireFromEvolves(d, 0, now, next, fenced);
    QuietKeeps(d1, Stamped(d1, now), next, fenced);
    KeepsTransitive(d, d1, Stamped(d1, now), next, next, next, fenced);
    ExpireSamePlacement(d, 0, now);
  }

  /** The key of a placed outcome whose rows are not spent is found in the document. */
  lemma UnspentIsPlaced(c: Config, s: System, session: Id, key: Source, i: int)
    requires OnceInv(c, s) && 0 <= i < |s.receipts| && StoredFor(s.receipts[i], session) && s.receipts[i].Key() == key
    ensures Placed(Load(s, session), key) || NeverPlaced(s, session, key)
  {
    forall pl | pl in s.placed && pl.session == session && pl.source == key ensures Placed(Load(s, session), key) {
      assert PlacementOk(c, s, pl) && RowFor(s.receipts[i], session, key);
      assert HeldUnsettled(s, pl);
    }
  }

  lemma QuietReady(c: Config, s: System, session: Id, d1: Doc, next: Id, fenced: Id)
    requires OnceInv(c, s) && Keeps(Load(s, session), d1, s.next, next, fenced)
    requires SamePlacement(Load(s, session), d1)
    ensures Saveable(c, s, session, d1, s.receipts, next, fenced)
  {
    var d := Load(s, session);
    LoadOk(c, s, session);
    SamePlacementNoDup(d, d1);
    forall i | 0 <= i < |s.receipts| && StoredFor(s.receipts[i], session) && Awaits(d1, s.receipts[i].Key())
      ensures Placed(d1, s.receipts[i].Key())
    {
      assert Awaits(d, s.receipts[i].Key());
      var k :| 0 <= k < |d.wakes| && Keeping(d.wakes[k], s.receipts[i].Key());
      assert Holds(d.wakes[k], s.receipts[i].Key());
      assert Placed(d, s.receipts[i].Key());
    }
  }

  lemma AwaitReady(c: Config, s: System, session: Id, d0: Doc, input: ControlInput, targets: Targets, now: int, fenced: Id)
    requires OnceInv(c, s) && fenced < s.next
    requires Keeps(Load(s, session), d0, s.next, s.next, fenced) && SamePlacement(Load(s, session), d0)
    requires AwaitDoc(d0, input, targets, s.receipts, now, s.next).Ok?
    ensures var change := AwaitDoc(d0, input, targets, s.receipts, now, s.next).value;
            Saveable(c, s, session, change.doc, s.receipts, change.next, fenced)
  {
    var d := Load(s, session);
    var change := AwaitDoc(d0, input, targets, s.receipts, now, s.next).value;
    var d1 := d0.(state := d0.state.(sources := input.sources, phase := Waiting));
    var os := StoredOutcomes(s.receipts, session);
    LoadOk(c, s, session);
    SamePlacementNoDup(d, d0);
    AwaitKeeps(d0, input, targets, s.receipts, now, s.next, fenced);
    KeepsTransitive(d, d0, change.doc, s.next, s.next, change.next, fenced);
    MergeAllGrows(d1, os, now, s.next);
    assert change.doc == MergeAll(d1, os, now, s.next).0;
    forall i, p | At?(change.doc.wakes, i, p) && !At?(d.wakes, i, p)
      ensures var o := OutcomeAt(change.doc.wakes, i, p);
              o.session == session && Backed(s.receipts, o) && NeverPlaced(s, session, o.Key())
    {
      assert !At?(d1.wakes, i, p);
      var o := OutcomeAt(change.doc.wakes, i, p);
      assert o in os && !Placed(d1, o.Key());
      var y :| 0 <= y < |s.receipts| && StoredFor(s.receipts[y], session) && s.receipts[y].outcome == Some(o);
      assert RowOk(c, s.receipts[y]);
      assert !Placed(d0, o.Key());
      UnspentIsPlaced(c, s, session, o.Key(), y);
    }
    forall i | 0 <= i < |s.receipts| && StoredFor(s.receipts[i], session) && Awaits(change.doc, s.receipts[i].Key())
      ensures Placed(change.doc, s.receipts[i].Key())
    {
      assert RowOk(c, s.receipts[i]);
      assert s.receipts[i].outcome.value in os;
    }
  }

  lemma AskKeepsOnce(c: Config, s: System, owner: Id, request: Request, targets: Targets, now: int)
    requires OnceInv(c, s) && Ask(c, s, owner, request, targets, now).Ok?
    ensures OnceInv(c, Ask(c, s, owner, request, targets, now).value.0)
  {
    var session := request.Session();
    var d := Load(s, session);
    var d0 := Stamped(Expire(d, now), now);
    var change := Handle(d0, request, targets, s.receipts, now, s.next).value;
    var fenced := FencedBy(d0, request);
    if !(IsRead(request) && !AnyDueFrom(d, 0, now)) {
      LoadOk(c, s, session);
      ExpireKeeps(d, now, s.next, NO_ID);
      HandleKeeps(d0, request, targets, s.receipts, now, s.next);
      ExpireKeeps(d, now, s.next, fenced);
      KeepsTransitive(d, d0, change.doc, s.next, s.next, change.next, fenced);
      if request.ControlRequest? && request.control.action.Await? {
        AwaitReady(c, s, session, d0, request.control, targets, now, fenced);
      } else {
        HandleSamePlacement(d0, request, targets, s.receipts, now, s.next);
        QuietReady(c, s, session, change.doc, change.next, fenced);
      }
      SaveKeepsOnce(c, s, session, change.doc, s.receipts, now, change.next, fenced, EventsOf(session, request, change.reply));
    }
  }

  // ------------------------------------------------------------------ a reported outcome

  /** A row the two unique keys admit. */
  lemma AppendTableOk(c: Config, table: seq<Receipt>, r: Receipt)
    requires TableOk(c, table) && RowOk(c, r)
    requires EventRow(table, r.node, r.event) == |table| && CommandRow(table, r.node, r.command) == |table|
    ensures TableOk(c, table + [r])
  {
    var t := table + [r];
    forall i, j | 0 <= i < j < |t|
      ensures !SameEvent(t[j], t[i].node, t[i].event) && !SameCommand(t[j], t[i].node, t[i].command)
    {
      if j == |table| {
        assert !SameEvent(table[i], r.node, r.event) && !SameCommand(table[i], r.node, r.command);
      }
    }
  }

  /** A command without a receipt from its node was never placed. */
  lemma UnreceiptedNeverPlaced(c: Config, s: System, session: Id, key: Source, node: Id)
    requires OnceInv(c, s) && CommandRow(s.receipts, node, key.command) == |s.receipts|
    requires TargetKey(session, key.target) in c.targets && c.targets[TargetKey(session, key.target)].node == node
    ensures NeverPlaced(s, session, key)
  {
    assert !Receipted(c, s.receipts, session, key) by {
      forall i | 0 <= i < |s.receipts| && RowFor(s.receipts[i], session, key) ensures s.receipts[i].node != node {
        assert !SameCommand(s.receipts[i], node, key.command);
      }
    }
    forall pl | pl in s.placed ensures !(pl.session == session && pl.source == key) {
      assert PlacementOk(c, s, pl);
    }
  }

  /** What an awaited row of the old table is placed in stays placed. */
  lemma AwaitedStaysPlaced(d: Doc, d0: Doc, d1: Doc, os: Outcomes, table: seq<Receipt>, session: Id, i: int)
    requires SamePlacement(d, d0) && NoDup(d.wakes) && Grows(d0, d1, os) && AwaitedKept(d, session, table)
    requires 0 <= i < |table| && StoredFor(table[i], session) && Awaits(d1, table[i].Key())
    ensures Placed(d1, table[i].Key())
  {
    var k :| 0 <= k < |d.wakes| && Keeping(d.wakes[k], table[i].Key());
    assert Holds(d.wakes[k], table[i].Key()) && Placed(d, table[i].Key());
    SamePlacementNoDup(d, d0);
    GrowsKeepsPlaced(d0, d1, os, table[i].Key());
  }

  lemma MergeAfterExpiry(d: Doc, o: Outcome, now: int, next: Id)
    requires DocInv(d) && Below(d, next) && NoDup(d.wakes)
    ensures var d0 := Expire(d, now); var (d1, n1) := Merge(d0, o, now, next);
            Keeps(d, d1, next, n1, NO_ID) && NoDup(d1.wakes) && SamePlacement(d, d0) && Grows(d0, d1, [o]) &&
            (Awaits(d1, o.Key()) ==> Placed(d1, o.Key()))
  {
    var d0 := Expire(d, now);
    var (d1, n1) := Merge(d0, o, now, next);
    ExpireFromEvolves(d, 0, now, next, NO_ID);
    ExpireSamePlacement(d, 0, now);
    SamePlacementNoDup(d, d0);
    MergeKeeps(d0, o, now, next, NO_ID);
    KeepsTransitive(d, d0, d1, next, next, n1, NO_ID);
    MergeGrows(d0, o, now, next);
  }

  /** The one new row backs the one new outcome. */
  lemma NewRowFresh(s: System, o: Outcome, d0: Doc, d1: Doc, table: seq<Receipt>, r: Receipt)
    requires table == s.receipts + [r] && r.session == o.session && r.Key() == o.Key()
    requires r.eligible.Eligible? && r.outcome == Some(o)
    requires SamePlacement(Load(s, o.session), d0) && Grows(d0, d1, [o]) && NeverPlaced(s, o.session, o.Key())
    ensures GrownTable(s, o.session, table) && NewAreFresh(s, o.session, d1, table)
  {
    assert table[|s.receipts|] == r && Backed(table, o);
    forall i, p | At?(d1.wakes, i, p) && !At?(Load(s, o.session).wakes, i, p) ensures OutcomeAt(d1.wakes, i, p) == o {
      assert !At?(d0.wakes, i, p);
    }
  }

  lemma NewRowAwaited(s: System, o: Outcome, d0: Doc, d1: Doc, table: seq<Receipt>, r: Receipt)
    requires table == s.receipts + [r] && r.Key() == o.Key()
    requires SamePlacement(Load(s, o.session), d0) && Grows(d0, d1, [o]) && NoDup(Load(s, o.session).wakes)
    requires Awaits(d1, o.Key()) ==> Placed(d1, o.Key())
    requires AwaitedKept(Load(s, o.session), o.session, s.receipts)
    ensures AwaitedPlaced(d1, o.session, table)
  {
    forall i | 0 <= i < |table| && StoredFor(table[i], o.session) && Awaits(d1, table[i].Key())
      ensures Placed(d1, table[i].Key())
    {
      if i < |s.receipts| { AwaitedStaysPlaced(Load(s, o.session), d0, d1, [o], s.receipts, o.session, i); }
    }
  }

  lemma PlaceReady(c: Config, s: System, node: Id, o: Outcome, now: int)
    requires OnceInv(c, s)
    requires TargetKey(o.session, o.target) in c.targets && c.targets[TargetKey(o.session, o.target)].node == node
    requires EventRow(s.receipts, node, o.event) == |s.receipts| && CommandRow(s.receipts, node, o.command) == |s.receipts|
    ensures var d1 := Merge(Expire(Load(s, o.session), now), o, now, s.next);
            Saveable(c, s, o.session, d1.0, s.receipts + [NewReceipt(node, o, true, now)], d1.1, NO_ID)
  {
    var r := NewReceipt(node, o, true, now);
    var table := s.receipts + [r];
    var d := Load(s, o.session);
    var d0 := Expire(d, now);
    var (d1, n1) := Merge(d0, o, now, s.next);
    LoadOk(c, s, o.session);
    MergeAfterExpiry(d, o, now, s.next);
    AppendTableOk(c, s.receipts, r);
    UnreceiptedNeverPlaced(c, s, o.session, o.Key(), node);
    NewRowFresh(s, o, d0, d1, table, r);
    NewRowAwaited(s, o, d0, d1, table, r);
  }

  lemma AcknowledgeKeeps(c: Config, s: System, node: Id, event: Id)
    requires OnceInv(c, s) && EventRow(s.receipts, node, event) < |s.receipts|
    ensures OnceInv(c, Acknowledge(s, node, event))
  {
    var s' := Acknowledge(s, node, event);
    forall pl | pl in s'.placed ensures PlacementOk(c, s', pl) {
      assert PlacementOk(c, s, pl);
      assert HeldUnsettled(s, pl) ==> HeldUnsettled(s', pl);
    }
    forall session | session in s'.docs ensures SessionOk(s', session) {
      assert SessionOk(s, session);
    }
  }

  /** A row that is not eligible changes nothing but the table's length. */
  lemma DetachedKeeps(c: Config, s: System, r: Receipt)
    requires OnceInv(c, s) && r.eligible.Detached?
    requires EventRow(s.receipts, r.node, r.event) == |s.receipts| && CommandRow(s.receipts, r.node, r.command) == |s.receipts|
    ensures OnceInv(c, s.(receipts := s.receipts + [r]))
  {
    var s' := s.(receipts := s.receipts + [r]);
    AppendTableOk(c, s.receipts, r);
    assert forall i :: 0 <= i < |s.receipts| ==> s'.receipts[i] == s.receipts[i];
    assert forall i :: 0 <= i < |s'.receipts| && s'.receipts[i].eligible.Eligible? ==> i < |s.receipts|;
    forall pl | pl in s'.placed ensures PlacementOk(c, s', pl) {
      assert PlacementOk(c, s, pl);
      assert GrowsReceipted(c, s, s', pl.session, pl.source) by { ReceiptedGrows(c, s, s', pl.session, pl.source); }
      assert HeldUnsettled(s, pl) ==> HeldUnsettled(s', pl);
    }
    forall session | session in s'.docs ensures SessionOk(s', session) {
      assert SessionOk(s, session);
      forall o | Backed(s.receipts, o) ensures Backed(s'.receipts, o) {
        var i :| 0 <= i < |s.receipts| && s.receipts[i].eligible.Eligible? && s.receipts[i].outcome == Some(o);
        assert s'.receipts[i] == s.receipts[i];
      }
    }
    forall a | a in s'.acked ensures exists i :: 0 <= i < |s'.receipts| && SameEvent(s'.receipts[i], a.node, a.event) {
      var i :| 0 <= i < |s.receipts| && SameEvent(s.receipts[i], a.node, a.event);
      assert s'.receipts[i] == s.receipts[i];
    }
  }

  ghost predicate GrowsReceipted(c: Config, s: System, s': System, session: Id, key: Source) {
    Receipted(c, s.receipts, session, key) ==> Receipted(c, s'.receipts, session, key)
  }

  lemma ReceiptedGrows(c: Config, s: System, s': System, session: Id, key: Source)
    requires |s.receipts| <= |s'.receipts|
    requires forall i :: 0 <= i < |s.receipts| ==>
      s'.receipts[i].node == s.receipts[i].node && s'.receipts[i].session == s.receipts[i].session &&
      s'.receipts[i].Key() == s.receipts[i].Key()
    ensures GrowsReceipted(c, s, s', session, key)
  {
    if Receipted(c, s.receipts, session, key) {
      var i :| 0 <= i < |s.receipts| && RowFor(s.receipts[i], session, key) &&
        TargetKey(session, key.target) in c.targets &&
        s.receipts[i].node == c.targets[TargetKey(session, key.target)].node;
      assert RowFor(s'.receipts[i], session, key);
    }
  }

  lemma RecordOneKeeps(c: Config, s: System, node: Id, r: Report)
    requires OnceInv(c, s) && RecordOne(c, s, node, r).Ok?
    ensures OnceInv(c, RecordOne(c, s, node, r).value)
  {
    var o := r.outcome.(pendingReport := false);
    var key := TargetKey(o.session, o.target);
    var found := r.found && key in c.targets && o.session in c.owners;
    var known := EventRow(s.receipts, node, o.event);
    if !o.Terminal() {
    } else if known < |s.receipts| {
      AcknowledgeKeeps(c, s, node, o.event);
    } else if !found {
      var row := NewReceipt(node, o, false, r.now);
      DetachedKeeps(c, s, row);
      AppendedRow(s.receipts, row);
      AcknowledgeKeeps(c, s.(receipts := s.receipts + [row]), node, o.event);
    } else {
      PlaceOneKeeps(c, s, node, o, r.now);
    }
  }

  lemma PlaceOneKeeps(c: Config, s: System, node: Id, o: Outcome, now: int)
    requires OnceInv(c, s)
    requires TargetKey(o.session, o.target) in c.targets && c.targets[TargetKey(o.session, o.target)].node == node
    requires EventRow(s.receipts, node, o.event) == |s.receipts| && CommandRow(s.receipts, node, o.command) == |s.receipts|
    ensures OnceInv(c, Place(c, s, node, o, now))
  {
    var row := NewReceipt(node, o, true, now);
    var (d1, n1) := Merge(Expire(Load(s, o.session), now), o, now, s.next);
    PlaceReady(c, s, node, o, now);
    SaveKeepsOnce(c, s, o.session, d1, s.receipts + [row], now, n1, NO_ID, []);
    var s1 := Save(s, o.session, d1, s.receipts + [row], now, n1, []);
    assert SameEvent(s1.receipts[|s.receipts|], node, o.event);
    AcknowledgeKeeps(c, s1, node, o.event);
  }

  lemma AppendedRow(table: seq<Receipt>, r: Receipt)
    ensures EventRow(table + [r], r.node, r.event) < |table + [r]|
  {
    assert SameEvent((table + [r])[|table|], r.node, r.event);
  }

  lemma {:induction false} RecordAllKeeps(c: Config, s: System, node: Id, reports: seq<Report>)
    requires OnceInv(c, s) && RecordAll(c, s, node, reports).Ok?
    ensures OnceInv(c, RecordAll(c, s, node, reports).value)
    decreases |reports|
  {
    if reports != [] {
      RecordOneKeeps(c, s, node, reports[0]);
      RecordAllKeeps(c, RecordOne(c, s, node, reports[0]).value, node, reports[1..]);
    }
  }

  // ------------------------------------------------------------------ retention

  /** Retention never clears a result an unsettled wake holds. */
  lemma HeldNeverLapses(c: Config, s: System, node: Id, now: int, session: Id, i: int, p: int, j: int)
    requires OnceInv(c, s) && session in s.docs
    requires At?(s.docs[session].wakes, i, p) && !s.docs[session].wakes[i].state.Settled?
    requires 0 <= j < |s.receipts| && s.receipts[j].eligible.Eligible?
    requires s.receipts[j].outcome == Some(OutcomeAt(s.docs[session].wakes, i, p))
    ensures ExpireUnawaited(s.docs, s.receipts, node, now)[j] == s.receipts[j]
  {
    assert SessionOk(s, session) && RowOk(c, s.receipts[j]);
    assert HeldBy(s.docs, s.receipts[j]);
  }

  lemma ExpireTableOk(c: Config, s: System, node: Id, now: int)
    requires OnceInv(c, s)
    ensures TableOk(c, ExpireUnawaited(s.docs, s.receipts, node, now))
  {
    var t := ExpireUnawaited(s.docs, s.receipts, node, now);
    forall i | 0 <= i < |t| ensures RowOk(c, t[i]) {
      assert RowOk(c, s.receipts[i]);
    }
    forall i, j | 0 <= i < j < |t|
      ensures !SameEvent(t[j], t[i].node, t[i].event) && !SameCommand(t[j], t[i].node, t[i].command)
    {
      assert !SameEvent(s.receipts[j], s.receipts[i].node, s.receipts[i].event);
      assert !SameCommand(s.receipts[j], s.receipts[i].node, s.receipts[i].command);
    }
  }

  lemma RetentionKeeps(c: Config, s: System, node: Id, now: int)
    requires OnceInv(c, s)
    ensures OnceInv(c, s.(receipts := ExpireUnawaited(s.docs, s.receipts, node, now)))
  {
    var s' := s.(receipts := ExpireUnawaited(s.docs, s.receipts, node, now));
    ExpireTableOk(c, s, node, now);
    assert forall i :: 0 <= i < |s.receipts| && s'.receipts[i].eligible.Eligible? ==> s'.receipts[i] == s.receipts[i];
    forall pl | pl in s'.placed ensures PlacementOk(c, s', pl) {
      assert PlacementOk(c, s, pl);
      assert GrowsReceipted(c, s, s', pl.session, pl.source) by { ReceiptedGrows(c, s, s', pl.session, pl.source); }
      assert HeldUnsettled(s, pl) ==> HeldUnsettled(s', pl);
    }
    forall session | session in s'.docs ensures SessionOk(s', session) {
      assert SessionOk(s, session);
      var d := s.docs[session];
      forall i, p | At?(d.wakes, i, p) && !d.wakes[i].state.Settled? ensures Backed(s'.receipts, OutcomeAt(d.wakes, i, p)) {
        assert Backed(s.receipts, OutcomeAt(d.wakes, i, p));
        var j :| 0 <= j < |s.receipts| && s.receipts[j].eligible.Eligible? && s.receipts[j].outcome == Some(OutcomeAt(d.wakes, i, p));
        HeldNeverLapses(c, s, node, now, session, i, p, j);
      }
    }
    forall a | a in s'.acked ensures exists i :: 0 <= i < |s'.receipts| && SameEvent(s'.receipts[i], a.node, a.event) {
      var i :| 0 <= i < |s.receipts| && SameEvent(s.receipts[i], a.node, a.event);
      assert SameEvent(s'.receipts[i], a.node, a.event);
    }
  }

  // ------------------------------------------------------------------ runs

  lemma AfterKeepsOnce(c: Config, s: System, step: Step)
    requires OnceInv(c, s)
    ensures OnceInv(c, After(c, s, step))
  {
    match step
    case AskStep(owner, request, targets, now) =>
      if Ask(c, s, owner, request, targets, now).Ok? { AskKeepsOnce(c, s, owner, request, targets, now); }
    case CollectStep(node, reports, fits, now) =>
      if Collect(c, s, node, reports, fits, now).Ok? {
        RecordAllKeeps(c, s, node, reports);
        RetentionKeeps(c, RecordAll(c, s, node, reports).value, node, now);
      }
  }

  lemma {:induction false} RunKeepsOnce(c: Config, steps: seq<Step>)
    ensures OnceInv(c, Run(c, Start(), steps))
    decreases |steps|
  {
    if steps != [] {
      RunKeepsOnce(c, steps[..|steps| - 1]);
      AfterKeepsOnce(c, Run(c, Start(), steps[..|steps| - 1]), steps[|steps| - 1]);
    }
  }

  /** Main result: over every run an outcome is placed in at most one wake ever, however often nodes repeat it. */
  lemma OutcomesArePlacedOnce(c: Config, steps: seq<Step>, p: Placement, q: Placement)
    requires p in Run(c, Start(), steps).placed && q in Run(c, Start(), steps).placed
    requires p.session == q.session && p.source == q.source
    ensures p.wake == q.wake
  {
    RunKeepsOnce(c, steps);
  }

  /** Main result: an acknowledged event has a committed receipt, and an awaited stored result sits in an unsettled wake. */
  lemma AcknowledgedAndAwaitedKept(c: Config, steps: seq<Step>)
    ensures var s := Run(c, Start(), steps);
            (forall a :: a in s.acked ==> exists i :: 0 <= i < |s.receipts| && SameEvent(s.receipts[i], a.node, a.event)) &&
            (forall session :: session in s.docs ==> AwaitedKept(s.docs[session], session, s.receipts))
  {
    RunKeepsOnce(c, steps);
    var s := Run(c, Start(), steps);
    forall session | session in s.docs ensures AwaitedKept(s.docs[session], session, s.receipts) {
      assert SessionOk(s, session);
    }
  }
}
