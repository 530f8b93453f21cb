/**
 What becomes of wakes over whole runs: one whose delivery was rejected is never consumed, only what was handed out is
 consumed, a dispatch rests on permits that still stand, and no wake outgrows its batch.
 */
module ContinuationFates {
  import opened Wrappers
  import opened ContinuationModel
  import opened ContinuationSpec
  import opened ContinuationInvariant
  import opened ContinuationSteps
  import opened ContinuationSystem
  import opened ContinuationSaving
  import opened ContinuationOnce
  import opened ContinuationRuns
  import opened ContinuationDispatch
  import opened ContinuationEndpoint
  import opened ContinuationLaws
  import opened ContinuationPermits
  import opened Moments

  // ------------------------------------------------------------------ rejected deliveries

  predicate Over(state: WakeState) { state == DeliveryRejected || state == Settled }

  /** Whatever wake has this id, its delivery is rejected or it is settled. */
  predicate RejectedIn(d: Doc, wake: Id) {
    forall i :: 0 <= i < |d.wakes| && d.wakes[i].id == wake ==> Over(d.wakes[i].state)
  }

  /** One wake is replaced by one of the same id, which was not rejected or settled, or is settled now. */
  lemma OneReplaced(d: Doc, d': Doc, i: nat, w: Wake, wake: Id)
    requires RejectedIn(d, wake) && i < |d.wakes| && d'.wakes == d.wakes[i := w] && w.id == d.wakes[i].id
    requires !Over(d.wakes[i].state) || Over(w.state)
    ensures RejectedIn(d', wake)
  {
  }

  lemma MergeRejected(d: Doc, o: Outcome, now: int, next: Id, wake: Id)
    requires RejectedIn(d, wake) && wake < next
    ensures RejectedIn(Merge(d, o, now, next).0, wake)
  {
    MergeExactly(d, o, now, next);
  }

  lemma {:induction false} MergeAllRejected(d: Doc, os: Outcomes, now: int, next: Id, wake: Id)
    requires RejectedIn(d, wake) && wake < next
    ensures RejectedIn(MergeAll(d, os, now, next).0, wake)
    decreases |os|
  {
    if os != [] {
      MergeRejected(d, os[0], now, next, wake);
      var (d1, n1) := Merge(d, os[0], now, next);
      MergeAllRejected(d1, os[1..], now, n1, wake);
    }
  }

  lemma ExpiryRejected(d: Doc, now: int, wake: Id)
    requires DocInv(d) && RejectedIn(d, wake)
    ensures RejectedIn(Stamped(Expire(d, now), now), wake)
  {
    var d' := Expire(d, now);
    forall i | 0 <= i < |d'.wakes| && d'.wakes[i].id == wake ensures Over(d'.wakes[i].state) {
      NothingLost(d, now);
      ExpiryExactly(d, now, i);
    }
  }

  lemma NothingLost(d: Doc, now: int)
    requires DocInv(d)
    ensures |Expire(d, now).wakes| == |d.wakes|
  {
    if |d.wakes| > 0 { ExpiryExactly(d, now, 0); }
  }

  lemma ControlRejected(d: Doc, input: ControlInput, targets: Targets, table: seq<Receipt>, now: int, next: Id, wake: Id)
    requires RejectedIn(d, wake) && wake < next && Control(d, input, targets, table, now, next).Ok?
    ensures RejectedIn(Control(d, input, targets, table, now, next).value.doc, wake)
  {
    var d' := Control(d, input, targets, table, now, next).value.doc;
    match input.action
    case Recover =>
      RecoverExactly(d, input, targets, table, now, next);
      var i := Find(d.wakes, input.wake);
      if input.wake != 0 && i < |d.wakes| && d.wakes[i].state != Settled {
        OneReplaced(d, d', i, d.wakes[i].(state := Settled, updatedAt := At(now)), wake);
      }
    case Settle =>
      SettledLeaves(d, input, targets, table, now, next);
      var i := Find(d.wakes, input.wake);
      if d.wakes[i].state != Settled { OneReplaced(d, d', i, d.wakes[i].(state := Settled, updatedAt := At(now)), wake); }
    case Await =>
      var d1 := d.(state := d.state.(sources := input.sources, phase := Waiting));
      MergeAllRejected(d1, StoredOutcomes(table, d.state.session), now, next, wake);
    case Enable =>
    case Pause =>
    case Status =>
    case UnknownControl =>
  }

  lemma ControllerRejected(d: Doc, input: ControllerInput, targets: Targets, now: int, next: Id, wake: Id)
    requires RejectedIn(d, wake) && Controller(d, input, targets, now, next).Ok?
    ensures RejectedIn(Controller(d, input, targets, now, next).value.doc, wake)
  {
    var d' := Controller(d, input, targets, now, next).value.doc;
    match input.action
    case Acquire => AcquireRejected(d, input, targets, now, next, wake);
    case Prepare =>
      PrepareExactly(d, input, targets, now, next);
      PreparedLeaves(d, input, targets, now, next);
      var i := Find(d.wakes, input.wake);
      OneReplaced(d, d', i, d.wakes[i].(state := Prepared, updatedAt := At(now)), wake);
    case Finish =>
      var i := Find(d.wakes, input.wake);
      if FirstReport(d, input) {
        FirstReportLeaves(d, input, targets, now, next);
        OneReplaced(d, d', i, d.wakes[i].(state := input.delivery, updatedAt := At(now)), wake);
      } else {
        OtherReportLeaves(d, input, targets, now, next);
      }
    case Bind => BindExactly(d, input, targets, now, next);
    case Heartbeat =>
    case ViewPause =>
    case ViewState =>
    case UnknownController =>
  }

  lemma AcquireRejected(d: Doc, input: ControllerInput, targets: Targets, now: int, next: Id, wake: Id)
    requires RejectedIn(d, wake) && input.action == Acquire && Controller(d, input, targets, now, next).Ok?
    ensures RejectedIn(Controller(d, input, targets, now, next).value.doc, wake)
  {
    var c := Controller(d, input, targets, now, next);
    if Claims(d, c) {
      AcquireExactly(d, input, targets, now, next);
      var p :| 0 <= p < |d.wakes| && FirstPending(d, input.wake, p) && UpToDate(d.wakes[p], targets);
      ClaimLeaves(d, input, targets, now, next, p);
      OneReplaced(d, c.value.doc, p, d.wakes[p].(state := Claimed, updatedAt := At(now)), wake);
    } else {
      assert c == AcquireWake(d, input, targets, now, next);
      assert c.value.doc == d;
    }
  }

  lemma ConsumeRejected(d: Doc, e: Envelope, targets: Targets, now: int, next: Id, wake: Id)
    requires RejectedIn(d, wake) && Consume(d, e, targets, now, next).Ok?
    ensures RejectedIn(Consume(d, e, targets, now, next).value.doc, wake) && e.wake != wake
  {
    ConsumeExactly(d, e, targets, now, next);
    var (i, d') := (Find(d.wakes, e.wake), Consume(d, e, targets, now, next).value.doc);
    if d.attempts[Latest(d.attempts, e.wake)].value.consumedAt == Never {
      ConsumedLeaves(d, e, targets, now, next);
      OneReplaced(d, d', i, d.wakes[i].(state := Consumed, updatedAt := At(now)), wake);
    } else {
      assert d' == d;
    }
  }

  lemma HandleRejected(d: Doc, q: Request, targets: Targets, table: seq<Receipt>, now: int, next: Id, wake: Id)
    requires RejectedIn(d, wake) && wake < next && Handle(d, q, targets, table, now, next).Ok?
    ensures RejectedIn(Handle(d, q, targets, table, now, next).value.doc, wake)
    ensures q.ConsumeRequest? ==> q.envelope.wake != wake
  {
    match q
    case ControlRequest(_, input) => ControlRejected(d, input, targets, table, now, next, wake);
    case ControllerRequest(_, input) => ControllerRejected(d, input, targets, now, next, wake);
    case PresentRequest(_, recover) => PresentExactly(d, recover, now, next);
    case ConsumeRequest(e) => ConsumeRejected(d, e, targets, now, next, wake);
  }

  lemma SavedRejected(d: Doc, now: int, wake: Id)
    requires DocInv(d) && RejectedIn(d, wake)
    ensures RejectedIn(Stamped(Compact(d), now), wake)
  {
    var d' := Stamped(Compact(d), now);
    forall j | 0 <= j < |d'.wakes| && d'.wakes[j].id == wake ensures Over(d'.wakes[j].state) {
      var i := CompactedFrom(d, j);
    }
  }

  /** The wake is over in the stored document of the session. */
  ghost predicate RejectedFor(s: System, session: Id, wake: Id) { wake < s.next && RejectedIn(Load(s, session), wake) }

  lemma AskRejected(c: Config, s: System, step: Step, session: Id, wake: Id)
    requires OnceInv(c, s) && RejectedFor(s, session, wake) && step.AskStep? &&
      Ask(c, s, step.owner, step.request, step.targets, step.now).Ok?
    ensures RejectedFor(After(c, s, step), session, wake)
    ensures Accepted(c, s, step, session) && step.request.ConsumeRequest? ==> step.request.envelope.wake != wake
  {
    var d := Load(s, step.request.Session());
    LoadOk(c, s, step.request.Session());
    var d1 := Stamped(Expire(d, step.now), step.now);
    ExpireKeeps(d, step.now, s.next, NO_ID);
    HandleKeeps(d1, step.request, step.targets, s.receipts, step.now, s.next);
    if step.request.Session() == session {
      ExpiryRejected(d, step.now, wake);
      HandleRejected(d1, step.request, step.targets, s.receipts, step.now, s.next, wake);
      SavedRejected(Handle(d1, step.request, step.targets, s.receipts, step.now, s.next).value.doc, step.now, wake);
    }
  }

  lemma PlaceRejected(c: Config, s: System, node: Id, o: Outcome, now: int, session: Id, wake: Id)
    requires OnceInv(c, s) && RejectedFor(s, session, wake)
    ensures RejectedFor(Place(c, s, node, o, now), session, wake)
  {
    var d := Load(s, o.session);
    LoadOk(c, s, o.session);
    MergeAfterExpiry(d, o, now, s.next);
    if o.session == session {
      ExpiryRejected(d, now, wake);
      MergeRejected(Expire(d, now), o, now, s.next, wake);
      SavedRejected(Merge(Expire(d, now), o, now, s.next).0, now, wake);
    }
  }

  lemma RecordOneRejected(c: Config, s: System, node: Id, r: Report, session: Id, wake: Id)
    requires OnceInv(c, s) && RejectedFor(s, session, wake) && RecordOne(c, s, node, r).Ok?
    ensures RejectedFor(RecordOne(c, s, node, r).value, session, wake)
  {
    var s1 := RecordOne(c, s, node, r).value;
    if s1.docs != s.docs || s1.next != s.next { PlaceRejected(c, s, node, r.outcome.(pendingReport := false), r.now, session, wake); }
  }

  lemma {:induction false} CollectRejected(c: Config, s: System, node: Id, reports: seq<Report>, session: Id, wake: Id)
    requires OnceInv(c, s) && RejectedFor(s, session, wake) && RecordAll(c, s, node, reports).Ok?
    ensures RejectedFor(RecordAll(c, s, node, reports).value, session, wake)
    decreases |reports|
  {
    if reports != [] {
      RecordOneKeeps(c, s, node, reports[0]);
      RecordOneRejected(c, s, node, reports[0], session, wake);
      CollectRejected(c, RecordOne(c, s, node, reports[0]).value, node, reports[1..], session, wake);
    }
  }

  lemma {:induction false} CollectLogs(c: Config, s: System, node: Id, reports: seq<Report>)
    requires RecordAll(c, s, node, reports).Ok?
    ensures RecordAll(c, s, node, reports).value.log == s.log
    decreases |reports|
  {
    if reports != [] { CollectLogs(c, RecordOne(c, s, node, reports[0]).value, node, reports[1..]); }
  }

  predicate Consumes(e: Event, session: Id, wake: Id) { e.Consumption? && e.session == session && e.wake == wake }

  ghost predicate NeverConsumed(log: seq<Event>, session: Id, wake: Id) {
    forall i :: 0 <= i < |log| ==> !Consumes(log[i], session, wake)
  }

  /** The events of one request are of its session, and a consumption is of its envelope's wake. */
  lemma EventsOfRequest(session: Id, q: Request, reply: Reply)
    ensures forall e :: e in EventsOf(session, q, reply) ==>
      e.session == session && (e.Consumption? ==> q.ConsumeRequest? && e.wake == q.envelope.wake) &&
      (e.Dispatched? ==> reply.message == Some(e.envelope))
  {
  }

  lemma StepRejected(c: Config, s: System, step: Step, session: Id, wake: Id)
    requires OnceInv(c, s) && RejectedFor(s, session, wake) && NeverConsumed(s.log, session, wake)
    ensures var s' := After(c, s, step); RejectedFor(s', session, wake) && NeverConsumed(s'.log, session, wake)
  {
    match step
    case AskStep(owner, q, targets, now) =>
      if Ask(c, s, owner, q, targets, now).Ok? {
        AskRejected(c, s, step, session, wake);
        EventsOfRequest(q.Session(), q, Ask(c, s, owner, q, targets, now).value.1);
        LogOfAsk(c, s, owner, q, targets, now);
      }
    case CollectStep(node, reports, fits, now) =>
      if Collect(c, s, node, reports, fits, now).Ok? {
        CollectRejected(c, s, node, reports, session, wake);
        CollectLogs(c, s, node, reports);
      }
  }

  lemma LogOfAsk(c: Config, s: System, owner: Id, q: Request, targets: Targets, now: int)
    requires Ask(c, s, owner, q, targets, now).Ok?
    ensures var (s', reply) := Ask(c, s, owner, q, targets, now).value;
      s'.log == s.log || s'.log == s.log + EventsOf(q.Session(), q, reply)
  {
  }

  lemma {:induction false} RunRejected(c: Config, s: System, steps: seq<Step>, session: Id, wake: Id)
    requires OnceInv(c, s) && RejectedFor(s, session, wake) && NeverConsumed(s.log, session, wake)
    ensures var z := Run(c, s, steps); OnceInv(c, z) && RejectedFor(z, session, wake) && NeverConsumed(z.log, session, wake)
    decreases |steps|
  {
    if steps != [] {
      var n := |steps| - 1;
      RunRejected(c, s, steps[..n], session, wake);
      StepRejected(c, Run(c, s, steps[..n]), steps[n], session, wake);
      AfterKeepsOnce(c, Run(c, s, steps[..n]), steps[n]);
    }
  }

  /** An accepted first report that the delivery was rejected. */
  ghost predicate RejectsDelivery(c: Config, s: System, step: Step, session: Id) {
    Accepted(c, s, step, session) && Views(step.request, Finish) && step.request.controller.delivery == DeliveryRejected &&
    FirstReport(Stamped(Expire(Load(s, session), step.now), step.now), step.request.controller)
  }

  lemma ReportedOver(d: Doc, q: ControllerInput, targets: Targets, now: int, next: Id)
    requires DocInv(d) && q.action == Finish && Controller(d, q, targets, now, next).Ok? && FirstReport(d, q) && q.delivery == DeliveryRejected
    ensures RejectedIn(Controller(d, q, targets, now, next).value.doc, q.wake)
  {
    FirstReportLeaves(d, q, targets, now, next);
    var (i, d1) := (Find(d.wakes, q.wake), Controller(d, q, targets, now, next).value.doc);
    forall j | 0 <= j < |d1.wakes| && d1.wakes[j].id == q.wake ensures j == i { FindAt(d.wakes, j); }
  }

  lemma UnconsumedBefore(c: Config, s: System, step: Step, session: Id)
    requires OnceInv(c, s) && LogInv(s) && RejectsDelivery(c, s, step, session)
    ensures NeverConsumed(s.log, session, step.request.controller.wake)
  {
    var (d, q) := (Load(s, session), step.request.controller);
    LoadOk(c, s, session);
    var d0 := Stamped(Expire(d, step.now), step.now);
    ExpireKeeps(d, step.now, s.next, NO_ID);
    NothingLost(d, step.now);
    NotYetConsumed(s, session, d, d0, Find(d0.wakes, q.wake));
  }

  lemma OverAfterReport(c: Config, s: System, step: Step, session: Id)
    requires OnceInv(c, s) && RejectsDelivery(c, s, step, session)
    ensures RejectedFor(After(c, s, step), session, step.request.controller.wake)
  {
    var (d, q) := (Load(s, session), step.request.controller);
    LoadOk(c, s, session);
    var d0 := Stamped(Expire(d, step.now), step.now);
    ExpireKeeps(d, step.now, s.next, NO_ID);
    HandleKeeps(d0, step.request, step.targets, s.receipts, step.now, s.next);
    ReportedOver(d0, q, step.targets, step.now, s.next);
    SavedRejected(Controller(d0, q, step.targets, step.now, s.next).value.doc, step.now, q.wake);
  }

  lemma RejectionLeaves(c: Config, s: System, step: Step, session: Id)
    requires OnceInv(c, s) && LogInv(s) && RejectsDelivery(c, s, step, session)
    ensures var (s', wake) := (After(c, s, step), step.request.controller.wake);
      RejectedFor(s', session, wake) && NeverConsumed(s'.log, session, wake)
  {
    UnconsumedBefore(c, s, step, session);
    OverAfterReport(c, s, step, session);
    RejectionLogs(c, s, step, session);
  }

  lemma RejectionLogs(c: Config, s: System, step: Step, session: Id)
    requires Accepted(c, s, step, session) && Views(step.request, Finish) && NeverConsumed(s.log, session, step.request.controller.wake)
    ensures NeverConsumed(After(c, s, step).log, session, step.request.controller.wake)
  {
    EventsOfRequest(session, step.request, Ask(c, s, step.owner, step.request, step.targets, step.now).value.1);
    LogOfAsk(c, s, step.owner, step.request, step.targets, step.now);
  }

  /** A wake that nobody has taken over has not been consumed. */
  lemma NotYetConsumed(s: System, session: Id, d: Doc, d0: Doc, i: nat)
    requires LogInv(s) && d == Load(s, session) && DocInv(d) && Evolves(d, d0, s.next, NO_ID)
    requires i < |d.wakes| && |d0.wakes| == |d.wakes| && !d0.wakes[i].state.TakenOver()
    ensures NeverConsumed(s.log, session, d.wakes[i].id)
  {
    assert WakeEvolves(d.wakes[i], d0.wakes[i], NO_ID);
    FindAt(d.wakes, i);
    forall k | 0 <= k < |s.log| ensures !Consumes(s.log[k], session, d.wakes[i].id) {
      assert s.log[k].session in s.docs && EntryOk(s.docs[s.log[k].session], s.log[k]);
    }
  }

  /** Main result: a wake whose first report, before consumption, was a rejected delivery is never consumed, whatever follows. */
  lemma RejectedNeverConsumed(c: Config, steps: seq<Step>, step: Step, later: seq<Step>, session: Id)
    requires RejectsDelivery(c, Run(c, Start(), steps), step, session)
    ensures var z := Run(c, After(c, Run(c, Start(), steps), step), later);
      NeverConsumed(z.log, session, step.request.controller.wake)
  {
    RunKeepsLog(c, steps);
    var s := Run(c, Start(), steps);
    RejectionLeaves(c, s, step, session);
    AfterKeepsOnce(c, s, step);
    RunRejected(c, After(c, s, step), later, session, step.request.controller.wake);
  }

  // ------------------------------------------------------------------ dispatches rest on permits

  /** Only a prepared dispatch carries a message. */
  lemma MessageOnlyPrepared(d: Doc, q: Request, targets: Targets, table: seq<Receipt>, now: int, next: Id)
    requires Handle(d, q, targets, table, now, next).Ok?
    ensures Handle(d, q, targets, table, now, next).value.reply.message.Some? <==> Views(q, Prepare)
  {
    match q
    case ControlRequest(_, input) => ControlSilent(d, input, targets, table, now, next);
    case ControllerRequest(_, input) => ControllerSpeaks(d, input, targets, now, next);
    case PresentRequest(_, _) =>
    case ConsumeRequest(_) =>
  }

  lemma ControlSilent(d: Doc, input: ControlInput, targets: Targets, table: seq<Receipt>, now: int, next: Id)
    requires Control(d, input, targets, table, now, next).Ok?
    ensures Control(d, input, targets, table, now, next).value.reply.message.None?
  {
  }

  lemma ControllerSpeaks(d: Doc, input: ControllerInput, targets: Targets, now: int, next: Id)
    requires Controller(d, input, targets, now, next).Ok?
    ensures Controller(d, input, targets, now, next).value.reply.message.Some? <==> input.action == Prepare
  {
    if input.action == Prepare { PreparedLeaves(d, input, targets, now, next); }
  }

  /** The accepted request of this step is a prepare of the session. */
  predicate Prepares(c: Config, s: System, step: Step, session: Id) {
    Accepted(c, s, step, session) && Views(step.request, Prepare)
  }

  predicate Dispatches(e: Event, session: Id) { e.Dispatched? && e.session == session }

  /** A dispatch enters the log only by such a step. */
  lemma DispatchedOnlyByPrepare(c: Config, s: System, step: Step, session: Id, i: nat)
    requires i < |After(c, s, step).log| && |s.log| <= i && Dispatches(After(c, s, step).log[i], session)
    ensures Prepares(c, s, step, session)
  {
    match step
    case AskStep(owner, q, targets, now) =>
      if Ask(c, s, owner, q, targets, now).Ok? {
        var reply := Ask(c, s, owner, q, targets, now).value.1;
        EventsOfRequest(q.Session(), q, reply);
        LogOfAsk(c, s, owner, q, targets, now);
        var e := After(c, s, step).log[i];
        assert e in EventsOf(q.Session(), q, reply);
        ReplyOfAsk(c, s, owner, q, targets, now);
      }
    case CollectStep(node, reports, fits, now) =>
      if Collect(c, s, node, reports, fits, now).Ok? { CollectLogs(c, s, node, reports); }
  }

  lemma ReplyOfAsk(c: Config, s: System, owner: Id, q: Request, targets: Targets, now: int)
    requires Ask(c, s, owner, q, targets, now).Ok? && Ask(c, s, owner, q, targets, now).value.1.message.Some?
    ensures Views(q, Prepare)
  {
    var d1 := Stamped(Expire(Load(s, q.Session()), now), now);
    MessageOnlyPrepared(d1, q, targets, s.receipts, now, s.next);
  }

  /**
   Main result: a dispatch is prepared only while an enabling and a consent stand that nothing has taken back since, for a view
   with the secret of the latest presentation and a running lease, within both budgets, with nothing else unresolved, and for
   its own claim of outcomes that are all current.
   */
  lemma DispatchWarranted(c: Config, steps: seq<Step>, step: Step, session: Id)
    requires Prepares(c, Run(c, Start(), steps), step, session)
    ensures Since(Enabling(c, steps, session), Pausing(c, steps, session), |steps|)
    ensures Since(Consenting(c, steps, session), Revoking(c, steps, session), |steps|)
    ensures Since(PresentingSecret(c, steps, session, step.request.controller.bindingSecret), Presenting(c, steps, session), |steps|)
    ensures var d := Stamped(Expire(Load(Run(c, Start(), steps), session), step.now), step.now);
      KnownView(d, step.request.controller, step.now, true) && MayWork(d) && NoneUnresolved(d) &&
      Preparable(d, step.request.controller, step.targets)
  {
    var (s, q) := (Run(c, Start(), steps), step.request.controller);
    var d := Stamped(Expire(Load(s, session), step.now), step.now);
    PrepareExactly(d, q, step.targets, step.now, s.next);
    ExpiryPermits(Load(s, session), 0, step.now);
    EnabledMeans(c, steps, session);
    ConsentExactly(c, steps, session);
    SecretExactly(c, steps, session, q.bindingSecret);
  }

  /** Acquiring and preparing are refused while the document is disabled. */
  lemma DisabledRefuses(d: Doc, input: ControllerInput, targets: Targets, now: int, next: Id)
    requires !d.state.enabled && (input.action == Acquire || input.action == Prepare)
    ensures Controller(d, input, targets, now, next).Err?
  {
    if input.action == Prepare { PrepareExactly(d, input, targets, now, next); }
  }

  lemma PausedRefuses(c: Config, s: System, step: Step, session: Id)
    requires !Load(s, session).state.enabled
    ensures Accepted(c, s, step, session) ==> !Views(step.request, Acquire) && !Views(step.request, Prepare)
  {
    if Accepted(c, s, step, session) && (Views(step.request, Acquire) || Views(step.request, Prepare)) {
      ExpiryPermits(Load(s, session), 0, step.now);
      DisabledRefuses(Stamped(Expire(Load(s, session), step.now), step.now), step.request.controller, step.targets, step.now, s.next);
    }
  }

  ghost predicate DispatchesNothing(c: Config, s: System, step: Step, session: Id) {
    forall i :: |s.log| <= i < |After(c, s, step).log| ==> !Dispatches(After(c, s, step).log[i], session)
  }

  lemma NothingDispatched(c: Config, s: System, step: Step, session: Id)
    requires !Prepares(c, s, step, session)
    ensures DispatchesNothing(c, s, step, session)
  {
    forall i | |s.log| <= i < |After(c, s, step).log| ensures !Dispatches(After(c, s, step).log[i], session) {
      if Dispatches(After(c, s, step).log[i], session) { DispatchedOnlyByPrepare(c, s, step, session, i); }
    }
  }

  /** Main result: after an accepted pause, by owner or view, nothing is acquired, prepared or dispatched until the session is enabled or recovered. */
  lemma PausedDispatchesNothing(c: Config, steps: seq<Step>, step: Step, session: Id)
    requires Since(Pausing(c, steps, session), Enabling(c, steps, session), |steps|)
    ensures var s := Run(c, Start(), steps);
      (Accepted(c, s, step, session) ==> !Views(step.request, Acquire) && !Views(step.request, Prepare)) &&
      DispatchesNothing(c, s, step, session)
  {
    PausedMeans(c, steps, session);
    PausedRefuses(c, Run(c, Start(), steps), step, session);
    NothingDispatched(c, Run(c, Start(), steps), step, session);
  }

  /** Conversely, enabling within the limits makes a pending wake acquirable for a known and consenting view. */
  lemma EnabledAcquires(
    d: Doc, on: ControlInput, view: ControllerInput, targets: Targets, table: seq<Receipt>, now: int, next: Id)
    requires on.action == Enable && Control(d, on, targets, table, now, next).Ok? && view.action == Acquire
    requires d.viewConsent && KnownView(d, view, now, true) && NoneUnresolved(d) && NoneClaimed(d) && Reachable(d, view.wake)
    requires CurrentPending(d, view.wake, targets)
    requires d.state.roundsUsed < (if on.maxRounds == 0 then d.state.maxRounds else on.maxRounds)
    requires d.state.failureCount < (if on.maxFailures == 0 then d.state.maxFailures else on.maxFailures)
    ensures var d1 := Control(d, on, targets, table, now, next).value.doc;
      Claims(d1, Controller(d1, view, targets, now, next))
  {
    EnableExactly(d, on, targets, table, now, next);
    var d1 := Control(d, on, targets, table, now, next).value.doc;
    AcquireExactly(d1, view, targets, now, next);
    var p :| 0 <= p < |d.wakes| && FirstPending(d, view.wake, p) && UpToDate(d.wakes[p], targets);
    assert FirstPending(d1, view.wake, p);
  }

  // ------------------------------------------------------------------ only what was handed out is consumed

  /** The log holds a dispatch with exactly this envelope. */
  ghost predicate HandedOut(log: seq<Event>, e: Envelope, outcomes: Outcomes) {
    Dispatched(e.session, e, outcomes) in log
  }

  /** Every logged envelope names its session. */
  ghost predicate Named(log: seq<Event>) {
    forall i :: 0 <= i < |log| && log[i].Dispatched? ==> log[i].envelope.session == log[i].session
  }

  lemma MessageNamed(d: Doc, q: Request, targets: Targets, table: seq<Receipt>, now: int, next: Id)
    requires Handle(d, q, targets, table, now, next).Ok? && d.state.session == q.Session()
    ensures var reply := Handle(d, q, targets, table, now, next).value.reply;
      reply.message.Some? ==> reply.message.value.session == q.Session()
  {
    MessageOnlyPrepared(d, q, targets, table, now, next);
    if Views(q, Prepare) { PreparedLeaves(d, q.controller, targets, now, next); }
  }

  lemma AskNamed(c: Config, s: System, owner: Id, q: Request, targets: Targets, now: int)
    requires OnceInv(c, s) && Named(s.log) && Ask(c, s, owner, q, targets, now).Ok?
    ensures Named(Ask(c, s, owner, q, targets, now).value.0.log)
  {
    LoadOk(c, s, q.Session());
    ExpireKeeps(Load(s, q.Session()), now, s.next, NO_ID);
    MessageNamed(Stamped(Expire(Load(s, q.Session()), now), now), q, targets, s.receipts, now, s.next);
    EventsOfRequest(q.Session(), q, Ask(c, s, owner, q, targets, now).value.1);
    LogOfAsk(c, s, owner, q, targets, now);
  }

  lemma {:induction false} RunNamed(c: Config, steps: seq<Step>)
    ensures Named(Run(c, Start(), steps).log)
    decreases |steps|
  {
    if steps != [] {
      var n := |steps| - 1;
      var s := Run(c, Start(), steps[..n]);
      RunNamed(c, steps[..n]);
      RunKeepsOnce(c, steps[..n]);
      match steps[n]
      case AskStep(owner, q, targets, now) => if Ask(c, s, owner, q, targets, now).Ok? { AskNamed(c, s, owner, q, targets, now); }
      case CollectStep(node, reports, fits, now) => if Collect(c, s, node, reports, fits, now).Ok? { CollectLogs(c, s, node, reports); }
    }
  }

  /** The dispatch behind an accepted envelope. */
  lemma BehindEnvelope(c: Config, s: System, e: Envelope, targets: Targets, now: int) returns (k: nat)
    requires OnceInv(c, s) && LogInv(s) && Named(s.log)
    requires Envelops(Stamped(Expire(Load(s, e.session), now), now), e, targets)
    ensures var d0 := Stamped(Expire(Load(s, e.session), now), now);
      k < |s.log| && s.log[k].Dispatched? && s.log[k].session == e.session && s.log[k].envelope.wake == e.wake && EntryOk(d0, s.log[k])
  {
    var d := Load(s, e.session);
    LoadOk(c, s, e.session);
    var d0 := Stamped(Expire(d, now), now);
    ExpireKeeps(d, now, s.next, NO_ID);
    NothingLost(d, now);
    var i := Find(d0.wakes, e.wake);
    BlockedBefore(d, d0, s.next, i);
    k := DispatchBehind(c, s, e.session, i);
    assert EntryOk(s.docs[s.log[k].session], s.log[k]) && WakeOf(s.log[k]) < s.next;
    EntryEvolves(d, d0, s.next, s.next, NO_ID, s.log[k]);
  }

  /** The credential fits one envelope only. */
  lemma SameEnvelope(d0: Doc, e: Envelope, targets: Targets, logged: Event)
    requires Envelops(d0, e, targets) && EntryOk(d0, logged) && logged.Dispatched?
    requires logged.envelope.wake == e.wake && logged.envelope.session == e.session
    ensures logged.envelope == e && logged.sources == d0.wakes[Find(d0.wakes, e.wake)].sources
  {
  }

  /** Main result: an accepted consume request carries an envelope that an earlier prepare handed out, and receives its outcomes. */
  lemma ConsumedOnlyAsHandedOut(c: Config, steps: seq<Step>, e: Envelope, targets: Targets, now: int)
    requires var s := Run(c, Start(), steps);
      Consume(Stamped(Expire(Load(s, e.session), now), now), e, targets, now, s.next).Ok?
    ensures var s := Run(c, Start(), steps);
      HandedOut(s.log, e, Consume(Stamped(Expire(Load(s, e.session), now), now), e, targets, now, s.next).value.reply.outcomes)
  {
    var s := Run(c, Start(), steps);
    RunKeepsLog(c, steps);
    RunNamed(c, steps);
    var d0 := Stamped(Expire(Load(s, e.session), now), now);
    ConsumeExactly(d0, e, targets, now, s.next);
    var k := BehindEnvelope(c, s, e, targets, now);
    SameEnvelope(d0, e, targets, s.log[k]);
    assert s.log[k] == Dispatched(e.session, e, s.log[k].sources);
    OutcomesHandedOver(d0, e, targets, now, s.next);
  }

  lemma OutcomesHandedOver(d: Doc, e: Envelope, targets: Targets, now: int, next: Id)
    requires Consume(d, e, targets, now, next).Ok?
    ensures Consume(d, e, targets, now, next).value.reply.outcomes == d.wakes[Find(d.wakes, e.wake)].sources
  {
  }

  /** An unresolved dispatch was one before time passed. */
  lemma BlockedBefore(d: Doc, d0: Doc, next: Id, i: nat)
    requires Evolves(d, d0, next, NO_ID) && i < |d.wakes| == |d0.wakes| && d0.wakes[i].state.Blocked() && 0 < d.wakes[i].id
    ensures d.wakes[i].state.Blocked() && d.wakes[i].id == d0.wakes[i].id
  {
    assert WakeEvolves(d.wakes[i], d0.wakes[i], NO_ID);
  }

  // ------------------------------------------------------------------ who is heard

  /** Only the owner of a WorkSession is heard, and a refused request leaves everything as it was. */
  lemma OnlyTheOwnerIsHeard(c: Config, s: System, owner: Id, q: Request, targets: Targets, now: int)
    ensures Ask(c, s, owner, q, targets, now).Ok? ==>
      owner != 0 && q.Session() != 0 && q.Session() in c.owners && c.owners[q.Session()] == owner
    ensures Ask(c, s, owner, q, targets, now).Err? ==> After(c, s, AskStep(owner, q, targets, now)) == s
    ensures Ask(c, s, owner, q, targets, now).Ok? ==>
      forall other :: other != q.Session() ==>
        Load(After(c, s, AskStep(owner, q, targets, now)), other) == Load(s, other)
  {
  }
}
