/**
 What a dispatch rests on over whole runs: an enabling nobody has paused since, a consent nobody has taken back since, and the
 secret of the latest presentation; and that what was rejected is never consumed.
 */
module ContinuationPermits {
  import opened Wrappers
  import opened ContinuationModel
  import opened ContinuationSpec
  import opened ContinuationInvariant
  import opened ContinuationSteps
  import opened ContinuationSystem
  import opened ContinuationSaving
  import opened ContinuationOnce
  import opened ContinuationRuns
  import opened ContinuationDispatch
  import opened ContinuationEndpoint
  import opened ContinuationLaws
  import opened Moments

  // ------------------------------------------------------------------ accepted requests of a run

  predicate Controls(q: Request, action: ControlAction) { q.ControlRequest? && q.control.action == action }

  predicate Views(q: Request, action: ControllerAction) { q.ControllerRequest? && q.controller.action == action }

  /** An accepted confirmed start of the session's work. */
  predicate Enables(q: Request) { Controls(q, Enable) || Controls(q, Recover) }

  predicate Pauses(q: Request) { Controls(q, Pause) || Views(q, ViewPause) }

  /** A view binds with the consent of its user. */
  predicate Consents(q: Request) { Views(q, Bind) && q.controller.userEnabled }

  /** A new presentation, a pause by the view, or another view that binds without consent. */
  predicate Revokes(d: Doc, q: Request) {
    q.PresentRequest? || Views(q, ViewPause) ||
    (Views(q, Bind) && !q.controller.userEnabled && q.controller.binding != d.endpoint.binding)
  }

  /** The document that a request of the session sees at the k-th moment. */
  function Seen(c: Config, steps: seq<Step>, k: nat, session: Id): Doc
    requires k <= |steps|
  {
    Load(Run(c, Start(), steps[..k]), session)
  }

  function Enabling(c: Config, steps: seq<Step>, session: Id): nat -> bool {
    (k: nat) => k < |steps| && Accepted(c, Run(c, Start(), steps[..k]), steps[k], session) && Enables(steps[k].request)
  }

  function Pausing(c: Config, steps: seq<Step>, session: Id): nat -> bool {
    (k: nat) => k < |steps| && Accepted(c, Run(c, Start(), steps[..k]), steps[k], session) && Pauses(steps[k].request)
  }

  function Consenting(c: Config, steps: seq<Step>, session: Id): nat -> bool {
    (k: nat) => k < |steps| && Accepted(c, Run(c, Start(), steps[..k]), steps[k], session) && Consents(steps[k].request)
  }

  function Revoking(c: Config, steps: seq<Step>, session: Id): nat -> bool {
    (k: nat) =>
      k < |steps| && Accepted(c, Run(c, Start(), steps[..k]), steps[k], session) &&
      Revokes(Seen(c, steps, k, session), steps[k].request)
  }

  function Presenting(c: Config, steps: seq<Step>, session: Id): nat -> bool {
    (k: nat) => k < |steps| && Accepted(c, Run(c, Start(), steps[..k]), steps[k], session) && steps[k].request.PresentRequest?
  }

  /** The presentation answers with this secret. */
  function PresentingSecret(c: Config, steps: seq<Step>, session: Id, secret: Id): nat -> bool {
    (k: nat) =>
      k < |steps| && Accepted(c, Run(c, Start(), steps[..k]), steps[k], session) && steps[k].request.PresentRequest? &&
      Ask(c, Run(c, Start(), steps[..k]), steps[k].owner, steps[k].request, steps[k].targets, steps[k].now).value.1.bindingSecret == secret
  }

  // ------------------------------------------------------------------ one request

  /** Time never enables, consents or presents. */
  lemma {:induction false} ExpiryPermits(d: Doc, i: nat, now: int)
    requires i <= |d.wakes|
    ensures var d' := ExpireFrom(d, i, now);
      (d'.state.enabled ==> d.state.enabled) && d'.viewConsent == d.viewConsent && d'.bindingHash == d.bindingHash && d'.endpoint == d.endpoint
    decreases |d.wakes| - i
  {
    if i < |d.wakes| { ExpiryPermits(ExpireWake(d, i, now), i + 1, now); }
  }

  lemma ControlPermits(d: Doc, input: ControlInput, targets: Targets, table: seq<Receipt>, now: int, next: Id)
    requires Control(d, input, targets, table, now, next).Ok?
    ensures var d' := Control(d, input, targets, table, now, next).value.doc;
      d'.viewConsent == d.viewConsent && d'.bindingHash == d.bindingHash && d'.endpoint == d.endpoint &&
      (d'.state.enabled <==> input.action == Enable || input.action == Recover || (d.state.enabled && input.action != Pause))
  {
    match input.action
    case Enable => EnableExactly(d, input, targets, table, now, next);
    case Pause => PauseExactly(d, input, targets, table, now, next);
    case Recover => RecoverExactly(d, input, targets, table, now, next);
    case Await => AwaitExactly(d, input, targets, table, now, next);
    case Settle => SettledLeaves(d, input, targets, table, now, next);
    case Status =>
    case UnknownControl =>
  }

  lemma ControllerPermits(d: Doc, input: ControllerInput, targets: Targets, now: int, next: Id)
    requires Controller(d, input, targets, now, next).Ok?
    ensures var d' := Controller(d, input, targets, now, next).value.doc;
      d'.bindingHash == d.bindingHash && (d'.state.enabled ==> d.state.enabled && input.action != ViewPause) &&
      (d'.viewConsent <==>
        (input.action == Bind && input.userEnabled) ||
        (d.viewConsent && input.action != ViewPause && (input.action == Bind ==> input.binding == d.endpoint.binding)))
  {
    match input.action
    case Bind => BindExactly(d, input, targets, now, next);
    case Heartbeat => HeartbeatExactly(d, input, targets, now, next);
    case ViewPause => ViewPauseExactly(d, input, targets, now, next);
    case Acquire => assert AcquireWake(d, input, targets, now, next).Ok?;
    case Prepare => PreparedLeaves(d, input, targets, now, next);
    case Finish =>
      if FirstReport(d, input) { FirstReportLeaves(d, input, targets, now, next); } else { OtherReportLeaves(d, input, targets, now, next); }
    case ViewState =>
    case UnknownController =>
  }

  lemma HandlePermits(d: Doc, q: Request, targets: Targets, table: seq<Receipt>, now: int, next: Id)
    requires Handle(d, q, targets, table, now, next).Ok?
    ensures var d' := Handle(d, q, targets, table, now, next).value.doc;
      (d'.state.enabled ==> Enables(q) || (d.state.enabled && !Pauses(q))) && (Pauses(q) ==> !d'.state.enabled) &&
      (d'.viewConsent <==> Consents(q) || (d.viewConsent && !Revokes(d, q)))
    ensures var c := Handle(d, q, targets, table, now, next).value;
      if q.PresentRequest? then c.doc.bindingHash == DigestOf(c.reply.bindingSecret) else c.doc.bindingHash == d.bindingHash
  {
    match q
    case ControlRequest(_, input) => ControlPermits(d, input, targets, table, now, next);
    case PresentRequest(_, recover) => PresentExactly(d, recover, now, next);
    case ControllerRequest(_, input) => ControllerPermits(d, input, targets, now, next);
    case ConsumeRequest(_) =>
  }

  // ------------------------------------------------------------------ one step

  /** What a step does to what permits a dispatch. */
  ghost predicate Permitted(c: Config, s: System, step: Step, session: Id) {
    var (d, d') := (Load(s, session), Load(After(c, s, step), session));
    var q := Accepted(c, s, step, session);
    (d'.state.enabled ==> (q && Enables(step.request)) || (d.state.enabled && !(q && Pauses(step.request)))) &&
    (q && Pauses(step.request) ==> !d'.state.enabled) &&
    (d'.viewConsent <==> (q && Consents(step.request)) || (d.viewConsent && !(q && Revokes(d, step.request)))) &&
    (!(q && step.request.PresentRequest?) ==> d'.bindingHash == d.bindingHash) &&
    (q && step.request.PresentRequest? ==>
      d'.bindingHash == DigestOf(Ask(c, s, step.owner, step.request, step.targets, step.now).value.1.bindingSecret))
  }

  lemma AskPermits(c: Config, s: System, step: Step, session: Id)
    requires Accepted(c, s, step, session)
    ensures Permitted(c, s, step, session)
  {
    var d := Load(s, session);
    ExpiryPermits(d, 0, step.now);
    var d1 := Stamped(Expire(d, step.now), step.now);
    HandlePermits(d1, step.request, step.targets, s.receipts, step.now, s.next);
  }

  lemma {:induction false} CollectPermits(c: Config, s: System, node: Id, reports: seq<Report>, session: Id)
    requires RecordAll(c, s, node, reports).Ok?
    ensures var (d, d') := (Load(s, session), Load(RecordAll(c, s, node, reports).value, session));
      (d'.state.enabled ==> d.state.enabled) && d'.viewConsent == d.viewConsent && d'.bindingHash == d.bindingHash
    decreases |reports|
  {
    if reports != [] {
      var o := reports[0].outcome;
      ExpiryPermits(Load(s, o.session), 0, reports[0].now);
      CollectPermits(c, RecordOne(c, s, node, reports[0]).value, node, reports[1..], session);
    }
  }

  lemma StepPermits(c: Config, s: System, step: Step, session: Id)
    ensures Permitted(c, s, step, session)
  {
    match step
    case AskStep(_, _, _, _) => if Accepted(c, s, step, session) { AskPermits(c, s, step, session); }
    case CollectStep(node, reports, fits, now) =>
      if Collect(c, s, node, reports, fits, now).Ok? { CollectPermits(c, s, node, reports, session); }
  }

  // ------------------------------------------------------------------ whole runs

  lemma MomentPermits(c: Config, steps: seq<Step>, k: nat, session: Id)
    requires k < |steps|
    ensures Permitted(c, Run(c, Start(), steps[..k]), steps[k], session)
    ensures Seen(c, steps, k + 1, session) == Load(After(c, Run(c, Start(), steps[..k]), steps[k]), session)
  {
    StepPermits(c, Run(c, Start(), steps[..k]), steps[k], session);
    assert steps[..k + 1][..k] == steps[..k];
  }

  // the fields at every moment

  function Enabled(c: Config, steps: seq<Step>, session: Id): nat -> bool {
    (k: nat) => k <= |steps| && Seen(c, steps, k, session).state.enabled
  }

  function Disabled(c: Config, steps: seq<Step>, session: Id): nat -> bool {
    (k: nat) => k <= |steps| && !Seen(c, steps, k, session).state.enabled
  }

  function Consented(c: Config, steps: seq<Step>, session: Id): nat -> bool {
    (k: nat) => k <= |steps| && Seen(c, steps, k, session).viewConsent
  }

  function Holding(c: Config, steps: seq<Step>, session: Id, secret: Id): nat -> bool {
    (k: nat) => k <= |steps| && Seen(c, steps, k, session).bindingHash == DigestOf(secret)
  }

  lemma EnabledMoment(c: Config, steps: seq<Step>, k: nat, session: Id)
    requires k < |steps|
    ensures Enabled(c, steps, session)(k + 1) ==>
      Enabling(c, steps, session)(k) || (Enabled(c, steps, session)(k) && !Pausing(c, steps, session)(k))
  {
    MomentPermits(c, steps, k, session);
  }

  lemma DisabledMoment(c: Config, steps: seq<Step>, k: nat, session: Id)
    requires k < |steps|
    ensures LastsAt(Disabled(c, steps, session), Pausing(c, steps, session), Enabling(c, steps, session), k)
  {
    MomentPermits(c, steps, k, session);
  }

  lemma ConsentMoment(c: Config, steps: seq<Step>, k: nat, session: Id)
    requires k < |steps|
    ensures Consented(c, steps, session)(k + 1) <==>
      Consenting(c, steps, session)(k) || (Consented(c, steps, session)(k) && !Revoking(c, steps, session)(k))
  {
    MomentPermits(c, steps, k, session);
  }

  lemma SecretMoment(c: Config, steps: seq<Step>, k: nat, session: Id, secret: Id)
    requires k < |steps|
    ensures Holding(c, steps, session, secret)(k + 1) <==>
      PresentingSecret(c, steps, session, secret)(k) ||
      (Holding(c, steps, session, secret)(k) && !Presenting(c, steps, session)(k))
  {
    MomentPermits(c, steps, k, session);
  }

  lemma AtStart(c: Config, steps: seq<Step>, session: Id, secret: Id)
    ensures !Enabled(c, steps, session)(0) && !Consented(c, steps, session)(0) && !Holding(c, steps, session, secret)(0)
  {
  }

  lemma AtEnd(c: Config, steps: seq<Step>, session: Id, secret: Id)
    ensures var d := Load(Run(c, Start(), steps), session);
      (Enabled(c, steps, session)(|steps|) <==> d.state.enabled) && (Disabled(c, steps, session)(|steps|) <==> !d.state.enabled) &&
      (Consented(c, steps, session)(|steps|) <==> d.viewConsent) &&
      (Holding(c, steps, session, secret)(|steps|) <==> d.bindingHash == DigestOf(secret))
  {
    assert steps[..|steps|] == steps;
  }

  lemma {:induction false} EnabledUpTo(c: Config, steps: seq<Step>, session: Id, n: nat)
    requires n <= |steps|
    ensures Enabled(c, steps, session)(n) ==> Since(Enabling(c, steps, session), Pausing(c, steps, session), n)
    decreases n
  {
    if n == 0 {
      AtStart(c, steps, session, NO_ID);
    } else {
      EnabledUpTo(c, steps, session, n - 1);
      EnabledMoment(c, steps, n - 1, session);
      SinceNext(Enabling(c, steps, session), Pausing(c, steps, session), n - 1);
    }
  }

  /** Main result: an enabled document was enabled or recovered by an accepted request, and not paused since. */
  lemma EnabledMeans(c: Config, steps: seq<Step>, session: Id)
    ensures Load(Run(c, Start(), steps), session).state.enabled ==>
      Since(Enabling(c, steps, session), Pausing(c, steps, session), |steps|)
  {
    AtEnd(c, steps, session, NO_ID);
    EnabledUpTo(c, steps, session, |steps|);
  }

  lemma DisabledLasts(c: Config, steps: seq<Step>, session: Id)
    ensures Lasts(Disabled(c, steps, session), Pausing(c, steps, session), Enabling(c, steps, session), |steps|)
  {
    forall k: nat | k < |steps|
      ensures LastsAt(Disabled(c, steps, session), Pausing(c, steps, session), Enabling(c, steps, session), k)
    {
      DisabledMoment(c, steps, k, session);
    }
  }

  /** Main result: after an accepted pause by anybody the document is disabled until it is enabled or recovered. */
  lemma PausedMeans(c: Config, steps: seq<Step>, session: Id)
    ensures Since(Pausing(c, steps, session), Enabling(c, steps, session), |steps|) ==>
      !Load(Run(c, Start(), steps), session).state.enabled
  {
    AtEnd(c, steps, session, NO_ID);
    DisabledLasts(c, steps, session);
    SinceHolds(Disabled(c, steps, session), Pausing(c, steps, session), Enabling(c, steps, session), |steps|, |steps|);
  }

  lemma {:induction false} ConsentUpTo(c: Config, steps: seq<Step>, session: Id, n: nat)
    requires n <= |steps|
    ensures Consented(c, steps, session)(n) <==> Since(Consenting(c, steps, session), Revoking(c, steps, session), n)
    decreases n
  {
    if n == 0 {
      AtStart(c, steps, session, NO_ID);
    } else {
      ConsentUpTo(c, steps, session, n - 1);
      ConsentMoment(c, steps, n - 1, session);
      SinceNext(Consenting(c, steps, session), Revoking(c, steps, session), n - 1);
    }
  }

  /** Main result: there is consent exactly when a view has bound with it, and nothing has taken it back since. */
  lemma ConsentExactly(c: Config, steps: seq<Step>, session: Id)
    ensures Load(Run(c, Start(), steps), session).viewConsent <==>
      Since(Consenting(c, steps, session), Revoking(c, steps, session), |steps|)
  {
    AtEnd(c, steps, session, NO_ID);
    ConsentUpTo(c, steps, session, |steps|);
  }

  lemma {:induction false} SecretUpTo(c: Config, steps: seq<Step>, session: Id, secret: Id, n: nat)
    requires n <= |steps|
    ensures Holding(c, steps, session, secret)(n) <==> Since(PresentingSecret(c, steps, session, secret), Presenting(c, steps, session), n)
    decreases n
  {
    if n == 0 {
      AtStart(c, steps, session, secret);
    } else {
      SecretUpTo(c, steps, session, secret, n - 1);
      SecretMoment(c, steps, n - 1, session, secret);
      SinceNext(PresentingSecret(c, steps, session, secret), Presenting(c, steps, session), n - 1);
    }
  }

  /** Main result: the stored digest is that of a secret exactly when the latest presentation answered with it. */
  lemma SecretExactly(c: Config, steps: seq<Step>, session: Id, secret: Id)
    ensures Load(Run(c, Start(), steps), session).bindingHash == DigestOf(secret) <==>
      Since(PresentingSecret(c, steps, session, secret), Presenting(c, steps, session), |steps|)
  {
    AtEnd(c, steps, session, secret);
    SecretUpTo(c, steps, session, secret, |steps|);
  }
}
