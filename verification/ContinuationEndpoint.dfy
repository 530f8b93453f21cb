/**
 Endpoint generations over steps of the store, and exactly when the round limit can fall below the
 rounds already used.
 */
module ContinuationEndpoint {
  import opened Wrappers
  import opened ContinuationModel
  import opened ContinuationSpec
  import opened ContinuationInvariant
  import opened ContinuationSystem
  import opened ContinuationOnce
  import opened ContinuationDispatch
  import opened Moments

  /** The same endpoint, or a later generation that no unresolved dispatch of `d` stood in the way of. */
  ghost predicate EndpointAdvances(d: Doc, d': Doc) {
    && d'.endpoint.generation >= d.endpoint.generation
    && (d'.endpoint.id != d.endpoint.id ==> d'.endpoint.generation > d.endpoint.generation && !BlockedDoc(d))
  }

  lemma {:induction false} BlockedStaysBlocked(d: Doc, i: nat, now: int)
    requires i <= |d.wakes| && BlockedDoc(d)
    ensures BlockedDoc(ExpireFrom(d, i, now))
    decreases |d.wakes| - i
  {
    if i < |d.wakes| {
      var d1 := ExpireWake(d, i, now);
      var b := FirstIn(d.wakes, BlockedKind);
      assert d1.wakes[b].state.Blocked();
      BlockedStaysBlocked(d1, i + 1, now);
    }
  }

  lemma HandleAdvances(d0: Doc, request: Request, targets: Targets, table: seq<Receipt>, now: int, next: Id)
    requires Handle(d0, request, targets, table, now, next).Ok?
    ensures EndpointAdvances(d0, Handle(d0, request, targets, table, now, next).value.doc)
  {
    match request
    case ControlRequest(_, input) => ControlRounds(d0, input, targets, table, now, next);
    case PresentRequest(_, _) =>
    case ControllerRequest(_, input) =>
      match input.action {
        case Prepare => assert PrepareDispatch(d0, input, targets, now, next).Ok?;
        case Acquire => assert AcquireWake(d0, input, targets, now, next).Ok?;
        case Finish => assert FinishDispatch(d0, input, now, next).Ok?;
        case Bind => assert BindView(d0, input, now, next).Ok?;
        case ViewState =>
        case Heartbeat =>
        case ViewPause =>
        case UnknownController =>
      }
    case ConsumeRequest(_) =>
  }

  lemma {:induction false} RecordAllAdvances(c: Config, s: System, node: Id, reports: seq<Report>, session: Id)
    requires session in s.docs && RecordAll(c, s, node, reports).Ok?
    ensures session in RecordAll(c, s, node, reports).value.docs
    ensures RecordAll(c, s, node, reports).value.docs[session].endpoint == s.docs[session].endpoint
    decreases |reports|
  {
    if reports != [] {
      var o := reports[0].outcome;
      ExpiryKeepsRounds(Load(s, o.session), 0, reports[0].now);
      var s1 := RecordOne(c, s, node, reports[0]).value;
      assert s1.docs[session].endpoint == s.docs[session].endpoint;
      RecordAllAdvances(c, s1, node, reports[1..], session);
    }
  }

  /** Main result: a step keeps the endpoint or moves to a strictly later generation, and the latter never while a dispatch is unresolved. */
  lemma GenerationsAdvance(c: Config, s: System, step: Step, session: Id)
    requires session in s.docs
    ensures session in After(c, s, step).docs && EndpointAdvances(s.docs[session], After(c, s, step).docs[session])
  {
    match step
    case AskStep(owner, request, targets, now) =>
      if Ask(c, s, owner, request, targets, now).Ok? && request.Session() == session {
        var d := s.docs[session];
        var d0 := Stamped(Expire(d, now), now);
        ExpiryKeepsRounds(d, 0, now);
        if BlockedDoc(d) { BlockedStaysBlocked(d, 0, now); }
        HandleAdvances(d0, request, targets, s.receipts, now, s.next);
      }
    case CollectStep(node, reports, fits, now) =>
      if Collect(c, s, node, reports, fits, now).Ok? { RecordAllAdvances(c, s, node, reports, session); }
  }

  // ------------------------------------------------------------------ the round limit

  predicate WithinLimit(d: Doc) {
    d.state.roundsUsed <= d.state.maxRounds
  }

  /** The one request that takes the limit below what is already used. */
  predicate Undercuts(d: Doc, request: Request) {
    request.ControlRequest? && request.control.action.Enable? &&
    request.control.maxRounds != 0 && request.control.maxRounds < d.state.roundsUsed
  }

  lemma ControlLimit(d: Doc, input: ControlInput, targets: Targets, table: seq<Receipt>, now: int, next: Id)
    requires WithinLimit(d) && Control(d, input, targets, table, now, next).Ok?
    ensures WithinLimit(Control(d, input, targets, table, now, next).value.doc) <==>
              !(input.action.Enable? && input.maxRounds != 0 && input.maxRounds < d.state.roundsUsed)
  {
    match input.action
    case Enable => assert EnableDoc(d, input, next).Ok?;
    case Recover => assert RecoverDoc(d, input, now, next).Ok?;
    case Await => assert AwaitDoc(d, input, targets, table, now, next).Ok?;
    case Settle => assert SettleDoc(d, input, now, next).Ok?;
    case Pause =>
    case Status =>
    case UnknownControl =>
  }

  lemma ReportKeepsLimit(d: Doc, i: nat, k: nat, delivery: WakeState, now: int)
    requires i < |d.wakes| && k < |d.attempts|
    ensures ReportDelivery(d, i, k, delivery, now).state.maxRounds == d.state.maxRounds
    ensures ReportDelivery(d, i, k, delivery, now).state.roundsUsed == d.state.roundsUsed
  {
  }

  lemma ControllerLimit(d: Doc, input: ControllerInput, targets: Targets, now: int, next: Id)
    requires WithinLimit(d) && Controller(d, input, targets, now, next).Ok?
    ensures WithinLimit(Controller(d, input, targets, now, next).value.doc)
  {
    match input.action
    case Prepare => assert PrepareDispatch(d, input, targets, now, next).Ok?;
    case Acquire => assert AcquireWake(d, input, targets, now, next).Ok?;
    case Finish =>
      var i, k := Find(d.wakes, input.wake), Latest(d.attempts, input.wake);
      ReportKeepsLimit(d, i, k, input.delivery, now);
    case Bind => assert BindView(d, input, now, next).Ok?;
    case ViewState =>
    case Heartbeat =>
    case ViewPause =>
    case UnknownController =>
  }

  /** The rounds used stay within the limit exactly unless `enable` asks for a limit below them. */
  lemma LimitHoldsUnlessUndercut(d: Doc, request: Request, targets: Targets, table: seq<Receipt>, now: int, next: Id)
    requires WithinLimit(d) && Handle(d, request, targets, table, now, next).Ok?
    ensures WithinLimit(Handle(d, request, targets, table, now, next).value.doc) <==> !Undercuts(d, request)
  {
    match request
    case ControlRequest(_, input) => ControlLimit(d, input, targets, table, now, next);
    case PresentRequest(_, _) =>
    case ControllerRequest(_, input) => ControllerLimit(d, input, targets, now, next);
    case ConsumeRequest(_) =>
  }

  // ------------------------------------------------------------------ the round limit over whole runs

  lemma {:induction false} ExpiryKeepsLimit(d: Doc, i: nat, now: int)
    requires i <= |d.wakes|
    ensures ExpireFrom(d, i, now).state.maxRounds == d.state.maxRounds
    decreases |d.wakes| - i
  {
    if i < |d.wakes| { ExpiryKeepsLimit(ExpireWake(d, i, now), i + 1, now); }
  }

  lemma ControlOverLimit(d: Doc, input: ControlInput, targets: Targets, table: seq<Receipt>, now: int, next: Id)
    requires !WithinLimit(d) && Control(d, input, targets, table, now, next).Ok?
    ensures WithinLimit(Control(d, input, targets, table, now, next).value.doc) <==> input.action.Recover?
  {
    match input.action
    case Enable =>
    case Recover => assert RecoverDoc(d, input, now, next).Ok?;
    case Await => assert AwaitDoc(d, input, targets, table, now, next).Ok?;
    case Settle => assert SettleDoc(d, input, now, next).Ok?;
    case Pause =>
    case Status =>
    case UnknownControl =>
  }

  lemma ControllerOverLimit(d: Doc, input: ControllerInput, targets: Targets, now: int, next: Id)
    requires !WithinLimit(d) && Controller(d, input, targets, now, next).Ok?
    ensures !WithinLimit(Controller(d, input, targets, now, next).value.doc)
  {
    match input.action
    case Prepare =>
    case Acquire =>
    case Finish =>
      var i, k := Find(d.wakes, input.wake), Latest(d.attempts, input.wake);
      ReportKeepsLimit(d, i, k, input.delivery, now);
    case Bind => assert BindView(d, input, now, next).Ok?;
    case ViewState =>
    case Heartbeat =>
    case ViewPause =>
    case UnknownController =>
  }

  predicate Recovers(request: Request) { request.ControlRequest? && request.control.action.Recover? }

  /** Once over the limit a document stays so until it is recovered. */
  lemma OverLimitUntilRecovered(d: Doc, request: Request, targets: Targets, table: seq<Receipt>, now: int, next: Id)
    requires !WithinLimit(d) && Handle(d, request, targets, table, now, next).Ok?
    ensures WithinLimit(Handle(d, request, targets, table, now, next).value.doc) <==> Recovers(request)
  {
    match request
    case ControlRequest(_, input) => ControlOverLimit(d, input, targets, table, now, next);
    case PresentRequest(_, _) =>
    case ControllerRequest(_, input) => ControllerOverLimit(d, input, targets, now, next);
    case ConsumeRequest(_) =>
  }

  /** The step is an accepted request of this WorkSession. */
  predicate Accepted(c: Config, s: System, step: Step, session: Id) {
    step.AskStep? && step.request.Session() == session && Ask(c, s, step.owner, step.request, step.targets, step.now).Ok?
  }

  predicate UndercutsIn(c: Config, s: System, step: Step, session: Id) {
    Accepted(c, s, step, session) && Undercuts(Load(s, session), step.request)
  }

  predicate RecoversIn(c: Config, s: System, step: Step, session: Id) {
    Accepted(c, s, step, session) && Recovers(step.request)
  }

  predicate OverLimit(s: System, session: Id) { !WithinLimit(Load(s, session)) }

  lemma AskedLimit(c: Config, s: System, step: Step, session: Id)
    requires Accepted(c, s, step, session)
    ensures OverLimit(After(c, s, step), session) <==>
      UndercutsIn(c, s, step, session) || (OverLimit(s, session) && !RecoversIn(c, s, step, session))
  {
    var d := Load(s, session);
    ExpiryKeepsRounds(d, 0, step.now);
    ExpiryKeepsLimit(d, 0, step.now);
    var d1 := Stamped(Expire(d, step.now), step.now);
    if WithinLimit(d) {
      LimitHoldsUnlessUndercut(d1, step.request, step.targets, s.receipts, step.now, s.next);
    } else {
      OverLimitUntilRecovered(d1, step.request, step.targets, s.receipts, step.now, s.next);
    }
  }

  lemma {:induction false} CollectedLimit(c: Config, s: System, node: Id, reports: seq<Report>, session: Id)
    requires RecordAll(c, s, node, reports).Ok?
    ensures OverLimit(RecordAll(c, s, node, reports).value, session) <==> OverLimit(s, session)
    decreases |reports|
  {
    if reports != [] {
      var o := reports[0].outcome;
      ExpiryKeepsRounds(Load(s, o.session), 0, reports[0].now);
      ExpiryKeepsLimit(Load(s, o.session), 0, reports[0].now);
      CollectedLimit(c, RecordOne(c, s, node, reports[0]).value, node, reports[1..], session);
    }
  }

  lemma StepLimit(c: Config, s: System, step: Step, session: Id)
    ensures OverLimit(After(c, s, step), session) <==>
      UndercutsIn(c, s, step, session) || (OverLimit(s, session) && !RecoversIn(c, s, step, session))
  {
    match step
    case AskStep(_, request, _, _) => if Accepted(c, s, step, request.Session()) && request.Session() == session { AskedLimit(c, s, step, session); }
    case CollectStep(node, reports, fits, now) =>
      if Collect(c, s, node, reports, fits, now).Ok? { CollectedLimit(c, s, node, reports, session); }
  }

  /** At these moments of a run an accepted request undercuts the limit, or recovers the document. */
  function Undercutting(c: Config, steps: seq<Step>, session: Id): nat -> bool {
    (j: nat) => j < |steps| && UndercutsIn(c, Run(c, Start(), steps[..j]), steps[j], session)
  }

  function Recovering(c: Config, steps: seq<Step>, session: Id): nat -> bool {
    (k: nat) => k < |steps| && RecoversIn(c, Run(c, Start(), steps[..k]), steps[k], session)
  }

  lemma {:induction false} OverLimitAfter(c: Config, steps: seq<Step>, session: Id, n: nat)
    requires n <= |steps|
    ensures OverLimit(Run(c, Start(), steps[..n]), session) <==>
      Since(Undercutting(c, steps, session), Recovering(c, steps, session), n)
    decreases n
  {
    if n > 0 {
      OverLimitAfter(c, steps, session, n - 1);
      assert steps[..n][..n - 1] == steps[..n - 1];
      StepLimit(c, Run(c, Start(), steps[..n - 1]), steps[n - 1], session);
      SinceNext(Undercutting(c, steps, session), Recovering(c, steps, session), n - 1);
    }
  }

  /**
   Main result on the limit: after every run a document has used more rounds than it may exactly when an accepted `enable` asked for
   a limit below the rounds used, and the document has not been recovered since.
   */
  lemma OverLimitExactly(c: Config, steps: seq<Step>, session: Id)
    ensures OverLimit(Run(c, Start(), steps), session) <==>
      Since(Undercutting(c, steps, session), Recovering(c, steps, session), |steps|)
  {
    OverLimitAfter(c, steps, session, |steps|);
    assert steps[..|steps|] == steps;
  }
}
