/**
 When each continuation request is accepted and what it leaves, in terms of the stored fields alone. These laws are what the
 results on whole runs use.
 */
module ContinuationLaws {
  import opened Wrappers
  import opened ContinuationModel
  import opened ContinuationSpec
  import opened ContinuationInvariant
  import opened ContinuationExpiry

  // ------------------------------------------------------------------ conditions

  predicate Runs(stamp: Stamp, now: int) { stamp.At? && now < stamp.time }

  /** The view knows endpoint, generation and secret, names itself, and, where asked, holds the running lease. */
  predicate KnownView(d: Doc, input: ControllerInput, now: int, leased: bool) {
    input.endpoint != 0 && input.endpoint == d.endpoint.id && input.generation == d.endpoint.generation &&
    input.bindingSecret != 0 && d.bindingHash == DigestOf(input.bindingSecret) &&
    input.binding != 0 && input.bindingLength <= 160 &&
    (leased ==> input.binding == d.endpoint.binding && Runs(d.endpoint.lease, now))
  }

  predicate MayWork(d: Doc) {
    d.state.enabled && d.viewConsent && d.state.roundsUsed < d.state.maxRounds && d.state.failureCount < d.state.maxFailures
  }

  /** Every outcome was produced with the revisions its Target has now. */
  predicate UpToDate(w: Wake, targets: Targets) {
    forall o :: o in w.sources ==> o.target in targets && targets[o.target] == Revisions(o.deploymentRevision, o.contextRevision)
  }

  predicate NoneUnresolved(d: Doc) {
    forall w :: w in d.wakes ==> w.state == Pending || w.state == Claimed || w.state == Settled
  }

  predicate NoneClaimed(d: Doc) { forall w :: w in d.wakes ==> w.state != Claimed }

  lemma UpToDateMeans(w: Wake, targets: Targets)
    ensures UpToDate(w, targets) <==> TargetsCurrent(w, targets)
  {
    if UpToDate(w, targets) {
      forall p | 0 <= p < |w.sources| ensures CurrentFor(w.sources[p], targets) { assert w.sources[p] in w.sources; }
    }
  }

  lemma NoneUnresolvedMeans(d: Doc)
    ensures NoneUnresolved(d) <==> !BlockedDoc(d)
  {
    var i := FirstIn(d.wakes, BlockedKind);
    if i < |d.wakes| { assert d.wakes[i] in d.wakes; }
  }

  lemma NoneClaimedMeans(d: Doc)
    ensures NoneClaimed(d) <==> FirstIn(d.wakes, ClaimedKind) == |d.wakes|
  {
    var i := FirstIn(d.wakes, ClaimedKind);
    if i < |d.wakes| { assert d.wakes[i] in d.wakes; }
  }

  lemma KnownViewMeans(d: Doc, input: ControllerInput, now: int)
    ensures KnownView(d, input, now, input.action != Bind) <==> Identity(d, input, now, input.action != Bind).None?
  {
  }

  /** The wake of this id moves to a state, its attempt to another, and nothing else of the tables changes. */
  predicate OnlyMoves(d: Doc, d': Doc, i: nat, k: nat, state: WakeState, a: Attempt, now: int)
    requires i < |d.wakes| && k < |d.attempts|
  {
    d'.wakes == d.wakes[i := d.wakes[i].(state := state, updatedAt := At(now))] && d'.attempts == d.attempts[k := a]
  }

  predicate SameTables(d: Doc, d': Doc) { d'.wakes == d.wakes && d'.attempts == d.attempts }

  predicate SameView(d: Doc, d': Doc) {
    d'.endpoint == d.endpoint && d'.bindingHash == d.bindingHash && d'.viewConsent == d.viewConsent
  }

  // ------------------------------------------------------------------ the view's requests

  /** The claimed wake of the view's own attempt. */
  predicate Preparable(d: Doc, input: ControllerInput, targets: Targets) {
    var (i, k) := (Find(d.wakes, input.wake), Latest(d.attempts, input.wake));
    i < |d.wakes| && d.wakes[i].state == Claimed && UpToDate(d.wakes[i], targets) &&
    k >= 0 && d.attempts[k].value.id == input.attempt && d.attempts[k].binding == input.binding && d.attempts[k].value.preparedAt == Never
  }

  /** A dispatch is prepared exactly when the known view asks for its own claim, everything is current and nothing unresolved. */
  lemma PrepareExactly(d: Doc, input: ControllerInput, targets: Targets, now: int, next: Id)
    requires input.action == Prepare
    ensures Controller(d, input, targets, now, next).Ok? <==>
      KnownView(d, input, now, true) && MayWork(d) && NoneUnresolved(d) && Preparable(d, input, targets)
  {
    KnownViewMeans(d, input, now);
    NoneUnresolvedMeans(d);
    var i := Find(d.wakes, input.wake);
    if i < |d.wakes| { UpToDateMeans(d.wakes[i], targets); }
  }

  /** It hands out a fresh credential, uses one round, and gives the dispatch 45 seconds and the view 90. */
  lemma PreparedLeaves(d: Doc, input: ControllerInput, targets: Targets, now: int, next: Id)
    requires input.action == Prepare && Controller(d, input, targets, now, next).Ok?
    ensures var c := Controller(d, input, targets, now, next).value;
      var (i, k) := (Find(d.wakes, input.wake), Latest(d.attempts, input.wake));
      i < |d.wakes| && 0 <= k < |d.attempts| &&
      c.reply.message == Some(Envelope(1, d.state.session, d.endpoint.id, d.endpoint.generation, input.wake, input.attempt, next)) &&
      c.next > next &&
      OnlyMoves(d, c.doc, i, k, Prepared,
                Attempt(d.attempts[k].value.(state := Prepared, preparedAt := At(now), lease := At(now + 45_000_000_000)),
                        d.attempts[k].binding, DigestOf(next)), now) &&
      c.doc.state == d.state.(roundsUsed := d.state.roundsUsed + 1, phase := Dispatching) &&
      c.doc.endpoint == d.endpoint.(lease := At(now + 90_000_000_000)) &&
      c.doc.bindingHash == d.bindingHash && c.doc.viewConsent == d.viewConsent
  {
    var i, k := Find(d.wakes, input.wake), Latest(d.attempts, input.wake);
    assert Controller(d, input, targets, now, next) == PrepareDispatch(d, input, targets, now, next);
  }

  /** The wake an acquisition may claim: the first pending one, or the first pending one of the requested id. */
  predicate FirstPending(d: Doc, wake: Id, p: nat) {
    p < |d.wakes| && d.wakes[p].state == Pending && (wake == 0 || d.wakes[p].id == wake) &&
    forall j :: 0 <= j < p ==> d.wakes[j].state != Pending || (wake != 0 && d.wakes[j].id != wake)
  }

  /** There is such a wake, and it is current. */
  predicate CurrentPending(d: Doc, wake: Id, targets: Targets) {
    exists p :: 0 <= p < |d.wakes| && FirstPending(d, wake, p) && UpToDate(d.wakes[p], targets)
  }

  lemma {:induction false} ClaimableMeans(wakes: seq<Wake>, wake: Id)
    ensures forall j :: 0 <= j < Claimable(wakes, wake) ==> wakes[j].state != Pending || (wake != 0 && wakes[j].id != wake)
    decreases |wakes|
  {
    if wakes != [] && !(wakes[0].state.Pending? && (wake == NO_ID || wakes[0].id == wake)) {
      ClaimableMeans(wakes[1..], wake);
    }
  }

  /** An acquisition makes a claim. */
  predicate Claims(d: Doc, c: Changed) { c.Ok? && |c.value.doc.attempts| > |d.attempts| }

  /** A requested wake is found by its id first. */
  predicate Reachable(d: Doc, wake: Id) {
    wake == 0 || (Find(d.wakes, wake) < |d.wakes| && (d.wakes[Find(d.wakes, wake)].state == Pending || d.wakes[Find(d.wakes, wake)].state == Claimed))
  }

  /** A claim is made exactly for the known view, when work is allowed, nothing is claimed or unresolved, and the first pending wake is current. */
  lemma AcquireExactly(d: Doc, input: ControllerInput, targets: Targets, now: int, next: Id)
    requires input.action == Acquire
    ensures Claims(d, Controller(d, input, targets, now, next)) <==>
      KnownView(d, input, now, true) && MayWork(d) && NoneUnresolved(d) && NoneClaimed(d) && Reachable(d, input.wake) &&
      CurrentPending(d, input.wake, targets)
  {
    KnownViewMeans(d, input, now);
    NoneUnresolvedMeans(d);
    NoneClaimedMeans(d);
    ClaimableMeans(d.wakes, input.wake);
    var p := Claimable(d.wakes, input.wake);
    if p < |d.wakes| {
      UpToDateMeans(d.wakes[p], targets);
      assert FirstPending(d, input.wake, p);
    }
    forall q | 0 <= q < |d.wakes| && FirstPending(d, input.wake, q) ensures q == p { }
  }

  /** The claimed wake gets a new attempt of this view for 30 seconds; nothing else changes. */
  lemma ClaimLeaves(d: Doc, input: ControllerInput, targets: Targets, now: int, next: Id, p: nat)
    requires input.action == Acquire && Claims(d, Controller(d, input, targets, now, next)) && FirstPending(d, input.wake, p)
    ensures var c := Controller(d, input, targets, now, next).value;
      c.doc == d.(wakes := d.wakes[p := d.wakes[p].(state := Claimed, updatedAt := At(now))],
                  attempts := d.attempts + [Attempt(AttemptValue(next, d.wakes[p].id, Claimed, At(now + 30_000_000_000), Never, Never, Never, NoError),
                                                    input.binding, NoDigest)]) &&
      c.reply.wake.Some? && c.reply.wake.value.id == d.wakes[p].id && c.next > next
  {
    ClaimableMeans(d.wakes, input.wake);
    assert Claimable(d.wakes, input.wake) == p;
    var c := Controller(d, input, targets, now, next);
    assert c == AcquireWake(d, input, targets, now, next);
    assert c.value.doc.wakes[p].id == d.wakes[p].id;
  }

  /** A view that asks again gets the claim it already has. */
  lemma OwnClaimReturned(d: Doc, input: ControllerInput, targets: Targets, now: int, next: Id, i: nat, k: nat)
    requires input.action == Acquire && KnownView(d, input, now, true) && MayWork(d) && NoneUnresolved(d) && input.wake == 0
    requires i < |d.wakes| && d.wakes[i].state == Claimed && forall j :: 0 <= j < i ==> d.wakes[j].state != Claimed
    requires k < |d.attempts| && k == Latest(d.attempts, d.wakes[i].id) && d.attempts[k].binding == input.binding
    ensures var c := Controller(d, input, targets, now, next);
      c.Ok? && c.value.doc == d && c.value.next == next && c.value.reply == WakeReply(d, d.wakes[i].id)
  {
    KnownViewMeans(d, input, now);
    NoneUnresolvedMeans(d);
    assert FirstIn(d.wakes, ClaimedKind) == i;
  }

  /** A view takes the endpoint exactly when it knows it and no other view's lease runs; its consent is its own, and new each time. */
  lemma BindExactly(d: Doc, input: ControllerInput, targets: Targets, now: int, next: Id)
    requires input.action == Bind
    ensures var c := Controller(d, input, targets, now, next);
      (c.Ok? <==> KnownView(d, input, now, false) &&
                  (d.endpoint.binding == 0 || d.endpoint.binding == input.binding || !Runs(d.endpoint.lease, now))) &&
      (c.Ok? ==>
        c.value.doc == d.(endpoint := d.endpoint.(binding := input.binding, lease := At(now + 90_000_000_000)),
                          viewConsent := input.userEnabled || (d.viewConsent && d.endpoint.binding == input.binding)))
  {
    KnownViewMeans(d, input, now);
  }

  lemma HeartbeatExactly(d: Doc, input: ControllerInput, targets: Targets, now: int, next: Id)
    requires input.action == Heartbeat
    ensures var c := Controller(d, input, targets, now, next);
      (c.Ok? <==> KnownView(d, input, now, true)) &&
      (c.Ok? ==> c.value.doc == d.(endpoint := d.endpoint.(lease := At(now + 90_000_000_000))))
  {
    KnownViewMeans(d, input, now);
  }

  /** A pause of the view takes its consent back as well. */
  lemma ViewPauseExactly(d: Doc, input: ControllerInput, targets: Targets, now: int, next: Id)
    requires input.action == ViewPause
    ensures var c := Controller(d, input, targets, now, next);
      (c.Ok? <==> KnownView(d, input, now, true)) &&
      (c.Ok? ==> c.value.doc == d.(state := d.state.(enabled := false, phase := Paused), viewConsent := false))
  {
    KnownViewMeans(d, input, now);
  }

  // ------------------------------------------------------------------ delivery reports

  /** The attempt a report is about: the latest of its wake, of this view, and prepared. */
  predicate Reportable(d: Doc, input: ControllerInput) {
    var (i, k) := (Find(d.wakes, input.wake), Latest(d.attempts, input.wake));
    i < |d.wakes| && k >= 0 && d.attempts[k].value.id == input.attempt && d.attempts[k].binding == input.binding &&
    d.attempts[k].value.preparedAt.At?
  }

  lemma FinishExactly(d: Doc, input: ControllerInput, targets: Targets, now: int, next: Id)
    requires input.action == Finish
    ensures Controller(d, input, targets, now, next).Ok? <==>
      KnownView(d, input, now, true) && Reportable(d, input) &&
      (input.delivery == DispatchAccepted || input.delivery == DeliveryRejected || input.delivery == DeliveryUnknown)
  {
    KnownViewMeans(d, input, now);
  }

  /** Failures after a report: one more unless it was accepted or attention is called for already. */
  function FailuresAfter(s: Budget, delivery: WakeState): nat {
    if delivery == DispatchAccepted || s.phase == AttentionPhase || s.phase == CircuitOpen then s.failureCount else s.failureCount + 1
  }

  /** The first report of a dispatch nobody has consumed. */
  predicate FirstReport(d: Doc, input: ControllerInput) {
    var (i, k) := (Find(d.wakes, input.wake), Latest(d.attempts, input.wake));
    i < |d.wakes| && k >= 0 && d.attempts[k].value.finishedAt == Never && d.attempts[k].value.consumedAt == Never &&
    (d.wakes[i].state == Prepared || d.wakes[i].state == DispatchAccepted ||
     (d.wakes[i].state == DeliveryUnknown && input.delivery == DeliveryRejected))
  }

  /**
   The first report puts wake and attempt in the reported state. One that is not an acceptance counts as a failure, which opens
   the circuit at the limit and otherwise calls for attention.
   */
  lemma FirstReportLeaves(d: Doc, input: ControllerInput, targets: Targets, now: int, next: Id)
    requires input.action == Finish && Controller(d, input, targets, now, next).Ok? && FirstReport(d, input)
    ensures var d' := Controller(d, input, targets, now, next).value.doc;
      var (i, k) := (Find(d.wakes, input.wake), Latest(d.attempts, input.wake));
      OnlyMoves(d, d', i, k, input.delivery,
                d.attempts[k].(value := d.attempts[k].value.(state := input.delivery, finishedAt := At(now))), now) &&
      SameView(d, d')
    ensures var (s, s') := (d.state, Controller(d, input, targets, now, next).value.doc.state);
      s'.failureCount == FailuresAfter(s, input.delivery) &&
      (s'.failureCount == s.failureCount ==> s' == s) &&
      (s'.failureCount > s.failureCount ==>
        s'.lastError == DeliveryFailed(input.delivery) && s'.roundsUsed == s.roundsUsed && s'.maxRounds == s.maxRounds &&
        if s'.failureCount >= s.maxFailures then !s'.enabled && s'.phase == CircuitOpen
        else s'.enabled == s.enabled && s'.phase == (if s.enabled then AttentionPhase else s.phase))
  {
    assert Controller(d, input, targets, now, next) == FinishDispatch(d, input, now, next);
  }

  /** Any other report leaves its time on the attempt at most: a repeated one nothing, a late one after consumption its time. */
  lemma OtherReportLeaves(d: Doc, input: ControllerInput, targets: Targets, now: int, next: Id)
    requires input.action == Finish && Controller(d, input, targets, now, next).Ok? && !FirstReport(d, input)
    ensures var d' := Controller(d, input, targets, now, next).value.doc;
      var k := Latest(d.attempts, input.wake);
      0 <= k < |d.attempts| &&
      d' == if d.attempts[k].value.finishedAt.At? then d
            else d.(attempts := d.attempts[k := d.attempts[k].(value := d.attempts[k].value.(finishedAt := At(now)))])
  {
    assert Controller(d, input, targets, now, next) == FinishDispatch(d, input, now, next);
  }

  // ------------------------------------------------------------------ consumption

  predicate Envelops(d: Doc, e: Envelope, targets: Targets) {
    var (i, k) := (Find(d.wakes, e.wake), Latest(d.attempts, e.wake));
    e.protocolVersion == 1 && e.endpoint == d.endpoint.id && e.generation == d.endpoint.generation &&
    i < |d.wakes| && d.wakes[i].endpoint == e.endpoint && d.wakes[i].generation == e.generation && UpToDate(d.wakes[i], targets) &&
    (d.wakes[i].state == Prepared || d.wakes[i].state == DispatchAccepted || d.wakes[i].state == DeliveryUnknown) &&
    k >= 0 && d.attempts[k].value.id == e.attempt && d.attempts[k].value.preparedAt.At? &&
    e.token != 0 && d.attempts[k].consumeHash == DigestOf(e.token)
  }

  lemma ConsumeExactly(d: Doc, e: Envelope, targets: Targets, now: int, next: Id)
    ensures Consume(d, e, targets, now, next).Ok? <==> Envelops(d, e, targets)
  {
    var i := Find(d.wakes, e.wake);
    if i < |d.wakes| { UpToDateMeans(d.wakes[i], targets); }
  }

  /** The outcomes are handed over, the wake is taken over, and its credential is void. */
  lemma ConsumedLeaves(d: Doc, e: Envelope, targets: Targets, now: int, next: Id)
    requires Consume(d, e, targets, now, next).Ok? && d.attempts[Latest(d.attempts, e.wake)].value.consumedAt == Never
    ensures var c := Consume(d, e, targets, now, next).value;
      var (i, k) := (Find(d.wakes, e.wake), Latest(d.attempts, e.wake));
      c.reply.outcomes == d.wakes[i].sources &&
      OnlyMoves(d, c.doc, i, k, Consumed,
                Attempt(d.attempts[k].value.(state := Consumed, consumedAt := At(now)), d.attempts[k].binding, NoDigest), now) &&
      c.doc.state == d.state.(phase := Processing) && SameView(d, c.doc)
  {
  }

  // ------------------------------------------------------------------ the owner's requests

  predicate NotBlank(text: string) {
    exists i :: 0 <= i < |text| && text[i] != ' ' && text[i] != '\t' && text[i] != '\n' && text[i] != '\r'
  }

  lemma NotBlankMeans(text: string)
    ensures NotBlank(text) <==> !Blank(text)
  {
    if !Blank(text) {
      var i :| 0 <= i < |text| && text[i] !in SPACES;
    }
  }

  /** Enabling needs a confirmation, budgets that are not spent, and limits within their ranges. */
  lemma EnableExactly(d: Doc, input: ControlInput, targets: Targets, table: seq<Receipt>, now: int, next: Id)
    requires input.action == Enable
    ensures var c := Control(d, input, targets, table, now, next);
      (c.Ok? <==>
        input.confirmed && d.state.failureCount < d.state.maxFailures && d.state.roundsUsed < d.state.maxRounds &&
        0 <= input.maxRounds <= 100 && 0 <= input.maxFailures <= 10) &&
      (c.Ok? ==>
        c.value.doc == d.(state := d.state.(
          enabled := true, phase := Ready, maxRounds := if input.maxRounds == 0 then d.state.maxRounds else input.maxRounds,
          maxFailures := if input.maxFailures == 0 then d.state.maxFailures else input.maxFailures)))
  {
  }

  lemma PauseExactly(d: Doc, input: ControlInput, targets: Targets, table: seq<Receipt>, now: int, next: Id)
    requires input.action == Pause
    ensures var c := Control(d, input, targets, table, now, next);
      c.Ok? && c.value.doc == d.(state := d.state.(enabled := false, phase := Paused))
  {
  }

  /** What a confirmed recovery settles by hand: the named wake, whatever its state. */
  predicate Resolves(d: Doc, d1: Doc, wake: Id, checkpoint: string, now: int) {
    var (i, k) := (Find(d.wakes, wake), Latest(d.attempts, wake));
    if wake == 0 || i == |d.wakes| || d.wakes[i].state == Settled then SameTables(d, d1) && d1.state == d.state
    else
      d1.wakes == d.wakes[i := d.wakes[i].(state := Settled, updatedAt := At(now))] &&
      d1.attempts == (if k < 0 then d.attempts
                      else d.attempts[k := Attempt(d.attempts[k].value.(state := Settled, lastError := ManuallyResolved(checkpoint)),
                                                   d.attempts[k].binding, NoDigest)]) &&
      d1.state == d.state.(checkpoint := checkpoint)
  }

  /** The document once a recovery has settled the wake it names. */
  function Resolved(d: Doc, wake: Id, checkpoint: string, now: int): (d1: Doc)
    ensures Resolves(d, d1, wake, checkpoint, now) && SameView(d, d1)
  {
    var (i, k) := (Find(d.wakes, wake), Latest(d.attempts, wake));
    if wake == 0 || i == |d.wakes| || d.wakes[i].state == Settled then d
    else
      d.(wakes := d.wakes[i := d.wakes[i].(state := Settled, updatedAt := At(now))],
         attempts := if k < 0 then d.attempts
                     else d.attempts[k := Attempt(d.attempts[k].value.(state := Settled, lastError := ManuallyResolved(checkpoint)),
                                                  d.attempts[k].binding, NoDigest)],
         state := d.state.(checkpoint := checkpoint))
  }

  /** Recovery needs a confirmation, a checkpoint for a wake it names, and nothing unresolved besides that wake. */
  lemma RecoverExactly(d: Doc, input: ControlInput, targets: Targets, table: seq<Receipt>, now: int, next: Id)
    requires input.action == Recover
    ensures var (c, d1) := (Control(d, input, targets, table, now, next), Resolved(d, input.wake, input.checkpoint, now));
      (c.Ok? <==>
        input.confirmed && (input.wake != 0 ==> Find(d.wakes, input.wake) < |d.wakes| && NotBlank(input.checkpoint)) &&
        NoneUnresolved(d1)) &&
      (c.Ok? ==>
        c.value.doc == d1.(state := d1.state.(enabled := true, phase := Ready, roundsUsed := 0, failureCount := 0, lastError := NoError)))
  {
    NotBlankMeans(input.checkpoint);
    NoneUnresolvedMeans(Resolved(d, input.wake, input.checkpoint, now));
    var i := Find(d.wakes, input.wake);
    if input.wake != 0 && i < |d.wakes| { assert ResolveWake(d, i, input.checkpoint, now) == Resolved(d, input.wake, input.checkpoint, now); }
  }

  /** Settling needs a wake that was consumed at some time, and a checkpoint; a settled wake stays so. */
  lemma SettleExactly(d: Doc, input: ControlInput, targets: Targets, table: seq<Receipt>, now: int, next: Id)
    requires input.action == Settle
    ensures var (i, k) := (Find(d.wakes, input.wake), Latest(d.attempts, input.wake));
      Control(d, input, targets, table, now, next).Ok? <==>
        i < |d.wakes| &&
        (d.wakes[i].state == Settled || (k >= 0 && d.attempts[k].value.consumedAt.At? && NotBlank(input.checkpoint)))
  {
    NotBlankMeans(input.checkpoint);
  }

  lemma SettledLeaves(d: Doc, input: ControlInput, targets: Targets, table: seq<Receipt>, now: int, next: Id)
    requires input.action == Settle && Control(d, input, targets, table, now, next).Ok?
    ensures var d' := Control(d, input, targets, table, now, next).value.doc;
      var (i, k) := (Find(d.wakes, input.wake), Latest(d.attempts, input.wake));
      if d.wakes[i].state == Settled then d' == d
      else
        0 <= k < |d.attempts| &&
        OnlyMoves(d, d', i, k, Settled, d.attempts[k].(value := d.attempts[k].value.(state := Settled)), now) && SameView(d, d') &&
        d'.state == d.state.(checkpoint := input.checkpoint, failureCount := 0, lastError := NoError,
                             phase := if d.state.enabled then Ready else d.state.phase)
  {
  }

  /** The sources of an await: one to 32, no command blank or named twice, every Target current. */
  predicate Askable(sources: seq<Source>, targets: Targets) {
    1 <= |sources| <= 32 && (forall i :: 0 <= i < |sources| ==> sources[i].command != 0 && sources[i].target in targets) &&
    forall i, j :: 0 <= i < j < |sources| ==> sources[i] != sources[j]
  }

  lemma {:induction false} SourceFaultMeans(sources: seq<Source>, i: nat, targets: Targets)
    requires i <= |sources|
    ensures SourceFault(sources, i, targets).None? <==>
      forall k :: i <= k < |sources| ==> sources[k].command != 0 && sources[k].target in targets && sources[k] !in sources[..k]
    decreases |sources| - i
  {
    if i < |sources| { SourceFaultMeans(sources, i + 1, targets); }
  }

  lemma DistinctMeans(sources: seq<Source>)
    ensures (forall k :: 0 <= k < |sources| ==> sources[k] !in sources[..k]) <==>
      forall i, j :: 0 <= i < j < |sources| ==> sources[i] != sources[j]
  {
    if forall k :: 0 <= k < |sources| ==> sources[k] !in sources[..k] {
      forall i, j | 0 <= i < j < |sources| ensures sources[i] != sources[j] { assert sources[i] == sources[..j][i]; }
    }
  }

  /** A stored result of a source has lapsed. */
  predicate Missed(table: seq<Receipt>, session: Id, sources: seq<Source>) {
    exists r :: r in table && r.session == session && r.eligible == Lapsed && Source(r.target, r.command) in sources
  }

  lemma MissedMeans(table: seq<Receipt>, session: Id, sources: seq<Source>)
    ensures Missed(table, session, sources) <==> HasLapsed(table, session, sources)
  {
    if Missed(table, session, sources) {
      var r :| r in table && r.session == session && r.eligible == Lapsed && Source(r.target, r.command) in sources;
      var i :| 0 <= i < |table| && table[i] == r;
    }
    if HasLapsed(table, session, sources) {
      var i :| 0 <= i < |table| && table[i].session == session && table[i].eligible.Lapsed? && table[i].Key() in sources;
      assert table[i] in table;
    }
  }

  /** Awaiting needs an enabled session, askable sources, and none of whose results has lapsed. */
  lemma AwaitExactly(d: Doc, input: ControlInput, targets: Targets, table: seq<Receipt>, now: int, next: Id)
    requires input.action == Await
    ensures var c := Control(d, input, targets, table, now, next);
      (c.Ok? <==> d.state.enabled && Askable(input.sources, targets) && !Missed(table, d.state.session, input.sources)) &&
      (c.Ok? ==>
        c.value.doc.state == d.state.(sources := input.sources, phase := Waiting) && c.value.doc.attempts == d.attempts &&
        SameView(d, c.value.doc))
  {
    SourceFaultMeans(input.sources, 0, targets);
    DistinctMeans(input.sources);
    MissedMeans(table, d.state.session, input.sources);
  }

  /** A wake that nobody has dispatched follows the new endpoint, and loses its claim. */
  function Follows(w: Wake, endpoint: Id, generation: nat, now: int): Wake {
    if w.state == Pending then w.(endpoint := endpoint, generation := generation)
    else if w.state == Claimed then w.(state := Pending, updatedAt := At(now), endpoint := endpoint, generation := generation)
    else w
  }

  /** Presenting needs a recovery flag for a second endpoint, and nothing unresolved; the new view has to bind and consent anew. */
  lemma PresentExactly(d: Doc, recover: bool, now: int, next: Id)
    ensures var c := Present(d, recover, now, next);
      (c.Ok? <==> (d.endpoint.id == 0 || recover) && NoneUnresolved(d)) &&
      (c.Ok? ==>
        c.value.doc.endpoint == Endpoint(d.state.session, next, d.endpoint.generation + 1, 0, Never) &&
        c.value.reply.bindingSecret != 0 && c.value.doc.bindingHash == DigestOf(c.value.reply.bindingSecret) &&
        c.value.reply.bindingSecret >= next && c.value.next > c.value.reply.bindingSecret &&
        !c.value.doc.viewConsent && c.value.doc.state == d.state && c.value.doc.attempts == d.attempts &&
        (forall i :: 0 <= i < |d.wakes| ==> |c.value.doc.wakes| == |d.wakes| && c.value.doc.wakes[i] == Follows(d.wakes[i], next, d.endpoint.generation + 1, now)) &&
        c.value.reply.endpoint == next && c.value.reply.generation == d.endpoint.generation + 1)
  {
    NoneUnresolvedMeans(d);
  }

  // ------------------------------------------------------------------ placing one outcome

  /** A wake that may still take the outcome: undispatched, fewer than 32 outcomes, and within one MiB with it. */
  predicate Takes(w: Wake, o: Outcome) {
    (w.state == Pending || w.state == Claimed) && |w.sources| < 32 && Length(w.sources + [o]) <= 1_048_576
  }

  /** Length of the JSON array of these outcomes. */
  function Length(sources: Outcomes): nat {
    if sources == [] then 2 else if |sources| == 1 then 2 + sources[0].encodedBytes
    else Length(sources[..|sources| - 1]) + 1 + sources[|sources| - 1].encodedBytes
  }

  lemma {:induction false} LengthMeans(sources: Outcomes)
    ensures Length(sources) == EncodedLength(sources)
    decreases |sources|
  {
    if |sources| == 1 {
      assert EncodedSum(sources[..0]) == 0;
    } else if sources != [] {
      LengthMeans(sources[..|sources| - 1]);
    }
  }

  predicate HeldSomewhere(d: Doc, target: Id, command: Id) {
    exists w :: w in d.wakes && exists o :: o in w.sources && o.target == target && o.command == command
  }

  lemma HeldMeans(d: Doc, o: Outcome)
    ensures HeldSomewhere(d, o.target, o.command) <==> Placed(d, o.Key())
  {
    if HeldSomewhere(d, o.target, o.command) {
      var w :| w in d.wakes && exists q :: q in w.sources && q.target == o.target && q.command == o.command;
      var q :| q in w.sources && q.target == o.target && q.command == o.command;
      var i :| 0 <= i < |d.wakes| && d.wakes[i] == w;
      var p :| 0 <= p < |w.sources| && w.sources[p] == q;
      assert Holds(d.wakes[i], o.Key());
    }
    if Placed(d, o.Key()) {
      var i :| 0 <= i < |d.wakes| && Holds(d.wakes[i], o.Key());
      var p :| 0 <= p < |d.wakes[i].sources| && d.wakes[i].sources[p].Key() == o.Key();
      assert d.wakes[i] in d.wakes && d.wakes[i].sources[p] in d.wakes[i].sources;
    }
  }

  predicate FirstTaking(d: Doc, o: Outcome, i: nat)
    requires i < |d.wakes|
  {
    Takes(d.wakes[i], o) && forall j :: 0 <= j < i ==> !Takes(d.wakes[j], o)
  }

  predicate Appended(d: Doc, d': Doc, i: nat, o: Outcome, now: int)
    requires i < |d.wakes|
  {
    d' == d.(wakes := d.wakes[i := d.wakes[i].(sources := d.wakes[i].sources + [o], updatedAt := At(now))])
  }

  /** An awaited outcome that no wake holds goes to the end of the first wake that takes it, or into a new last wake. */
  lemma MergeExactly(d: Doc, o: Outcome, now: int, next: Id)
    ensures var (d', n) := Merge(d, o, now, next);
      if Source(o.target, o.command) !in d.state.sources || HeldSomewhere(d, o.target, o.command) then d' == d && n == next
      else if exists i :: 0 <= i < |d.wakes| && FirstTaking(d, o, i) then
        n == next && exists i :: 0 <= i < |d.wakes| && FirstTaking(d, o, i) && Appended(d, d', i, o, now)
      else
        n == next + 1 &&
        d' == d.(wakes := d.wakes + [Wake(d.state.session, d.endpoint.id, d.endpoint.generation, next, Pending, [o], At(now), At(now))])
  {
    HeldMeans(d, o);
    forall i | 0 <= i < |d.wakes| ensures Takes(d.wakes[i], o) <==> HasRoom(d.wakes[i], o) { LengthMeans(d.wakes[i].sources + [o]); }
    var i := FirstWithRoom(d.wakes, o);
    if i < |d.wakes| { assert FirstTaking(d, o, i); }
  }

  // ------------------------------------------------------------------ expiry

  /** What time does to a wake, given its newest attempt. */
  function Aged(w: Wake, a: AttemptValue, now: int): WakeState {
    if w.state == Claimed && !Runs(a.lease, now) then Pending
    else if (w.state == Prepared || w.state == DispatchAccepted) && !Runs(a.lease, now) then DeliveryUnknown
    else if w.state == Consumed && (a.consumedAt == Never || a.consumedAt.time + 300_000_000_000 <= now) then NeedsAttention
    else w.state
  }

  function AgedAt(d: Doc, i: nat, now: int): WakeState
    requires i < |d.wakes|
  {
    var k := Latest(d.attempts, d.wakes[i].id);
    if k < 0 then d.wakes[i].state else Aged(d.wakes[i], d.attempts[k].value, now)
  }

  lemma DueMeans(d: Doc, i: nat, now: int)
    requires i < |d.wakes|
    ensures Due(d, i, now) <==> AgedAt(d, i, now) != d.wakes[i].state
    ensures var d' := ExpireWake(d, i, now);
      d'.wakes[i].state == AgedAt(d, i, now) && d'.wakes[i] == d.wakes[i].(state := AgedAt(d, i, now), updatedAt := d'.wakes[i].updatedAt)
  {
  }

  /** A wake that time has moved is not moved again. */
  lemma AgedOnce(d: Doc, i: nat, now: int)
    requires DocInv(d) && i < |d.wakes| && Due(d, i, now)
    ensures forall j :: 0 <= j < |d.wakes| ==> !Due(ExpireWake(d, i, now), j, now)
  {
    var d' := ExpireWake(d, i, now);
    forall j | 0 <= j < |d.wakes| ensures !Due(d', j, now) {
      if j != i {
        assert d'.wakes[j] == d.wakes[j] && !d.wakes[j].state.Active();
      }
    }
  }

  /** At most one wake is due, and expiry is what happens to it. */
  lemma {:induction false} ExpiresOne(d: Doc, i: nat, j: nat, now: int)
    requires DocInv(d) && i <= j < |d.wakes| && Due(d, j, now)
    ensures ExpireFrom(d, i, now) == ExpireWake(d, j, now)
    decreases |d.wakes| - i
  {
    if i < j {
      assert d.wakes[j].state.Active();
      assert !Due(d, i, now);
      ExpiresOne(d, i + 1, j, now);
    } else {
      AgedOnce(d, j, now);
      NothingDue(ExpireWake(d, j, now), j + 1, now);
    }
  }

  /**
   Expiry moves every wake as its own lease or consumption time says: an unused claim is pending again, an unreported or
   unconsumed dispatch unknown, and consumed work that nobody settles in five minutes calls for attention.
   */
  lemma ExpiryExactly(d: Doc, now: int, i: nat)
    requires DocInv(d) && i < |d.wakes|
    ensures var d' := Expire(d, now);
      |d'.wakes| == |d.wakes| && d'.wakes[i] == d.wakes[i].(state := AgedAt(d, i, now), updatedAt := d'.wakes[i].updatedAt)
  {
    DueMeans(d, i, now);
    if j :| 0 <= j < |d.wakes| && Due(d, j, now) {
      ExpiresOne(d, 0, j, now);
      DueMeans(d, j, now);
      if j != i { assert !d.wakes[i].state.Active(); }
    } else {
      NothingDue(d, 0, now);
    }
  }

  /** A dispatch that times out counts as a failure; work that is not settled in time calls for attention; nothing else changes the budget. */
  lemma ExpiryBudget(d: Doc, now: int)
    requires DocInv(d)
    ensures var (s, s') := (d.state, Expire(d, now).state);
      if exists i :: 0 <= i < |d.wakes| && AgedAt(d, i, now) == DeliveryUnknown && d.wakes[i].state != DeliveryUnknown then
        s'.failureCount == s.failureCount + 1 && s'.lastError == DispatchNeedsInspection &&
        (if s'.failureCount >= s.maxFailures then !s'.enabled && s'.phase == CircuitOpen
         else s'.enabled == s.enabled && (s.enabled ==> s'.phase == AttentionPhase))
      else if exists i :: 0 <= i < |d.wakes| && AgedAt(d, i, now) == NeedsAttention && d.wakes[i].state != NeedsAttention then
        s' == s.(phase := AttentionPhase, lastError := NotSettledInTime)
      else s' == s
  {
    forall i | 0 <= i < |d.wakes| ensures Due(d, i, now) <==> AgedAt(d, i, now) != d.wakes[i].state { DueMeans(d, i, now); }
    if j :| 0 <= j < |d.wakes| && Due(d, j, now) {
      ExpiresOne(d, 0, j, now);
      forall i | 0 <= i < |d.wakes| && i != j ensures !Due(d, i, now) {
        assert !d.wakes[i].state.Active();
      }
    } else {
      NothingDue(d, 0, now);
    }
  }

  // ------------------------------------------------------------------ answers

  predicate ActiveState(state: WakeState) { state != Pending && state != Settled }

  /** The wake an answer shows: the first that is neither pending nor settled, else the first pending one. */
  predicate Shows(d: Doc, i: nat)
    requires i < |d.wakes|
  {
    if ActiveState(d.wakes[i].state) then forall j :: 0 <= j < i ==> !ActiveState(d.wakes[j].state)
    else
      d.wakes[i].state == Pending && (forall j :: 0 <= j < |d.wakes| ==> !ActiveState(d.wakes[j].state)) &&
      forall j :: 0 <= j < i ==> d.wakes[j].state != Pending
  }

  /** An answer about the document shows its state, its endpoint, the wake it is about, and that wake's newest attempt. */
  lemma ReplyShows(d: Doc, i: nat)
    requires i < |d.wakes| && Shows(d, i) && Find(d.wakes, d.wakes[i].id) == i
    ensures var r := DocReply(d);
      r.wake == Some(d.wakes[i]) &&
      (Latest(d.attempts, d.wakes[i].id) >= 0 ==> r.attempt == Some(d.attempts[Latest(d.attempts, d.wakes[i].id)].value))
  {
    var (a, p) := (FirstIn(d.wakes, ActiveKind), FirstIn(d.wakes, PendingKind));
    if ActiveState(d.wakes[i].state) { assert a == i; } else { assert a == |d.wakes| && p == i; }
  }

  lemma ReplyTells(d: Doc)
    ensures var r := DocReply(d);
      r.session == d.state.session && r.endpoint == d.endpoint.id && r.generation == d.endpoint.generation &&
      r.binding == d.endpoint.binding && r.lease == d.endpoint.lease && r.state == d.state && r.bindingSecret == NO_ID &&
      r.message.None? && r.outcomes == []
    ensures (forall i :: 0 <= i < |d.wakes| ==> d.wakes[i].id != NO_ID && d.wakes[i].state == Settled) ==> DocReply(d).wake.None?
  {
    var (a, p) := (FirstIn(d.wakes, ActiveKind), FirstIn(d.wakes, PendingKind));
    if forall i :: 0 <= i < |d.wakes| ==> d.wakes[i].id != NO_ID && d.wakes[i].state == Settled {
      assert a == |d.wakes| && p == |d.wakes|;
    }
  }
}
