/**
 What each continuation request does to a document, as functions of the document.

 Every function follows one branch of internal/project/continuation.go: same guards in the same
 order, same error, same fields changed.  The class in ContinuationStore.dfy performs the same
 changes in place and is proved to agree with these functions.
 */
module ContinuationSpec {
  import opened Wrappers
  import opened ContinuationModel

  type Outcomes = seq<Outcome>
  type Changed = Result<Change, Code>

  // ------------------------------------------------------------------ lookups

  /** Position of the wake with this id, or the number of wakes. */
  function Find(wakes: seq<Wake>, id: Id): (i: nat)
    ensures i <= |wakes|
    ensures forall j :: 0 <= j < i ==> wakes[j].id != id
    ensures i < |wakes| ==> wakes[i].id == id
  {
    if wakes == [] then 0 else if wakes[0].id == id then 0 else 1 + Find(wakes[1..], id)
  }

  /** Position of the first wake of this kind, or the number of wakes. */
  function FirstIn(wakes: seq<Wake>, kind: Kind): (i: nat)
    ensures i <= |wakes|
    ensures forall j :: 0 <= j < i ==> !wakes[j].state.Is(kind)
    ensures i < |wakes| ==> wakes[i].state.Is(kind)
  {
    if wakes == [] then 0 else if wakes[0].state.Is(kind) then 0 else 1 + FirstIn(wakes[1..], kind)
  }

  /** Position of the newest attempt of this wake, or -1. */
  function Latest(attempts: seq<Attempt>, wake: Id): (k: int)
    ensures -1 <= k < |attempts|
    ensures k >= 0 ==> attempts[k].value.wake == wake
    ensures forall j :: k < j < |attempts| ==> attempts[j].value.wake != wake
  {
    if attempts == [] then -1
    else if attempts[|attempts| - 1].value.wake == wake then |attempts| - 1
    else Latest(attempts[..|attempts| - 1], wake)
  }

  predicate BlockedDoc(d: Doc) {
    FirstIn(d.wakes, BlockedKind) < |d.wakes|
  }

  // ------------------------------------------------------------------ single-field changes

  function SetWake(d: Doc, i: nat, state: WakeState, now: int): Doc
    requires i < |d.wakes|
  {
    d.(wakes := d.wakes[i := d.wakes[i].(state := state, updatedAt := At(now))])
  }

  function SetAttempt(d: Doc, k: nat, a: Attempt): Doc
    requires k < |d.attempts|
  {
    d.(attempts := d.attempts[k := a])
  }

  function SetPhase(d: Doc, phase: Phase): Doc {
    d.(state := d.state.(phase := phase))
  }

  /** One more failure; at the limit the circuit opens. */
  function Fail(s: Budget, reason: Reason): Budget {
    var t := s.(failureCount := s.failureCount + 1, lastError := reason);
    if t.failureCount >= t.maxFailures then t.(enabled := false, phase := CircuitOpen) else t
  }

  function FailThenAttention(s: Budget, reason: Reason): Budget {
    var t := Fail(s, reason);
    if t.enabled then t.(phase := AttentionPhase) else t
  }

  // ------------------------------------------------------------------ expiry

  /** The wake at `i` has outlived the limit of its state. */
  predicate Due(d: Doc, i: nat, now: int)
    requires i < |d.wakes|
  {
    var w := d.wakes[i];
    var k := Latest(d.attempts, w.id);
    k >= 0 &&
    match w.state
    case Claimed => Expired(d.attempts[k].value.lease, now)
    case Prepared => Expired(d.attempts[k].value.lease, now)
    case DispatchAccepted => Expired(d.attempts[k].value.lease, now)
    case Consumed =>
      var c := d.attempts[k].value.consumedAt;
      c.Never? || c.time + SETTLEMENT_TIMEOUT <= now
    case _ => false
  }

  function ExpireWake(d: Doc, i: nat, now: int): (d': Doc)
    requires i < |d.wakes|
    ensures |d'.wakes| == |d.wakes| && |d'.attempts| == |d.attempts|
  {
    if !Due(d, i, now) then d else
    var w := d.wakes[i];
    var k := Latest(d.attempts, w.id);
    var a := d.attempts[k];
    if w.state.Claimed? then
      SetAttempt(SetWake(d, i, Pending, now), k,
                 a.(value := a.value.(state := DeliveryRejected, lastError := ClaimExpired)))
    else if w.state.Consumed? then
      var d1 := SetAttempt(SetWake(d, i, NeedsAttention, now), k, a.(value := a.value.(state := NeedsAttention)));
      d1.(state := d1.state.(phase := AttentionPhase, lastError := NotSettledInTime))
    else
      var d1 := SetAttempt(SetWake(d, i, DeliveryUnknown, now), k, a.(value := a.value.(state := DeliveryUnknown)));
      d1.(state := FailThenAttention(d1.state, DispatchNeedsInspection))
  }

  function ExpireFrom(d: Doc, i: nat, now: int): (d': Doc)
    requires i <= |d.wakes|
    decreases |d.wakes| - i
  {
    if i == |d.wakes| then d else ExpireFrom(ExpireWake(d, i, now), i + 1, now)
  }

  function Expire(d: Doc, now: int): Doc {
    ExpireFrom(d, 0, now)
  }

  predicate AnyDueFrom(d: Doc, i: nat, now: int)
    requires i <= |d.wakes|
    decreases |d.wakes| - i
  {
    i < |d.wakes| && (Due(d, i, now) || AnyDueFrom(ExpireWake(d, i, now), i + 1, now))
  }

  // ------------------------------------------------------------------ answers

  /** The wake an answer shows: the first active one, else the first pending one. */
  function Selected(wakes: seq<Wake>): Id {
    var i := FirstIn(wakes, ActiveKind);
    var j := FirstIn(wakes, PendingKind);
    if i < |wakes| then wakes[i].id else if j < |wakes| then wakes[j].id else NO_ID
  }

  function WakeReply(d: Doc, wake: Id): Reply {
    var i := Find(d.wakes, wake);
    var k := Latest(d.attempts, wake);
    Reply(d.state.session, d.endpoint.id, d.endpoint.generation, d.endpoint.binding, d.endpoint.lease, d.state,
          if i < |d.wakes| then Some(d.wakes[i]) else None,
          if i < |d.wakes| && k >= 0 then Some(d.attempts[k].value) else None,
          NO_ID, None, [])
  }

  function DocReply(d: Doc): Reply {
    WakeReply(d, Selected(d.wakes))
  }

  function Done(d: Doc, next: Id): Changed {
    Ok(Change(d, DocReply(d), next))
  }

  // ------------------------------------------------------------------ placing outcomes

  predicate Awaits(d: Doc, key: Source) {
    key in d.state.sources
  }

  predicate Holds(w: Wake, key: Source) {
    exists p :: 0 <= p < |w.sources| && w.sources[p].Key() == key
  }

  predicate Placed(d: Doc, key: Source) {
    exists i :: 0 <= i < |d.wakes| && Holds(d.wakes[i], key)
  }

  function EncodedSum(sources: Outcomes): nat {
    if sources == [] then 0 else EncodedSum(sources[..|sources| - 1]) + sources[|sources| - 1].encodedBytes
  }

  /** Length of the JSON array: brackets, elements, separating commas. */
  function EncodedLength(sources: Outcomes): nat {
    2 + EncodedSum(sources) + if sources == [] then 0 else |sources| - 1
  }

  predicate HasRoom(w: Wake, o: Outcome) {
    w.state.Unfenced() && |w.sources| < MAX_WAKE_SOURCES &&
    EncodedLength(w.sources + [o]) <= MAX_BATCH_BYTES
  }

  function FirstWithRoom(wakes: seq<Wake>, o: Outcome): (i: nat)
    ensures i <= |wakes|
    ensures forall j :: 0 <= j < i ==> !HasRoom(wakes[j], o)
    ensures i < |wakes| ==> HasRoom(wakes[i], o)
  {
    if wakes == [] then 0 else if HasRoom(wakes[0], o) then 0 else 1 + FirstWithRoom(wakes[1..], o)
  }

  function NewWake(d: Doc, o: Outcome, now: int, id: Id): Wake {
    Wake(d.state.session, d.endpoint.id, d.endpoint.generation, id, Pending, [o], At(now), At(now))
  }

  /** An awaited outcome that no wake holds joins the first wake with room, or starts a new one. */
  function Merge(d: Doc, o: Outcome, now: int, next: Id): (r: (Doc, Id))
    ensures r.0 == d.(wakes := r.0.wakes) && next <= r.1
  {
    if !Awaits(d, o.Key()) || Placed(d, o.Key()) then (d, next)
    else
      var i := FirstWithRoom(d.wakes, o);
      if i < |d.wakes| then
        (d.(wakes := d.wakes[i := d.wakes[i].(sources := d.wakes[i].sources + [o], updatedAt := At(now))]), next)
      else
        (d.(wakes := d.wakes + [NewWake(d, o, now, next)]), next + 1)
  }

  function MergeAll(d: Doc, os: Outcomes, now: int, next: Id): (r: (Doc, Id))
    ensures r.0 == d.(wakes := r.0.wakes) && next <= r.1
    decreases |os|
  {
    if os == [] then (d, next) else var (d1, n1) := Merge(d, os[0], now, next); MergeAll(d1, os[1..], now, n1)
  }

  // ------------------------------------------------------------------ the receipt table

  /** The order `received_at, event_id` of the stored outcomes. */
  predicate Before(r: Receipt, s: Receipt) {
    r.receivedAt < s.receivedAt || (r.receivedAt == s.receivedAt && r.event <= s.event)
  }

  function Insert(table: seq<Receipt>, order: seq<nat>, x: nat): (r: seq<nat>)
    requires x < |table| && forall y :: y in order ==> y < |table|
    ensures forall y :: y in r <==> y == x || y in order
  {
    if order == [] then [x] else
    assert order[0] in order && forall y :: y in order[1..] ==> y in order;
    if Before(table[x], table[order[0]]) then [x] + order
    else
      assert forall y :: y in order <==> y == order[0] || y in order[1..];
      [order[0]] + Insert(table, order[1..], x)
  }

  predicate StoredFor(r: Receipt, session: Id) {
    r.session == session && r.eligible.Eligible?
  }

  /** Rowids of the eligible receipts of a WorkSession among the first `n` rows, in reading order. */
  function EligibleRows(table: seq<Receipt>, session: Id, n: nat): (r: seq<nat>)
    requires n <= |table|
    ensures forall y :: y in r <==> 0 <= y < n && StoredFor(table[y], session)
  {
    if n == 0 then []
    else
      var rest := EligibleRows(table, session, n - 1);
      if StoredFor(table[n - 1], session) then Insert(table, rest, n - 1) else rest
  }

  /** What reading these rows yields; a row whose text was dropped decodes to nothing. */
  function OutcomesOf(table: seq<Receipt>, rows: seq<nat>): (os: Outcomes)
    requires forall y :: y in rows ==> y < |table|
    ensures forall o :: o in os <==> exists y :: y in rows && table[y].outcome == Some(o)
  {
    if rows == [] then []
    else
      assert forall y :: y in rows <==> y == rows[0] || y in rows[1..];
      assert rows[0] in rows;
      var r := table[rows[0]];
      var rest := OutcomesOf(table, rows[1..]);
      if r.outcome.Some? then [r.outcome.value] + rest else rest
  }

  function StoredOutcomes(table: seq<Receipt>, session: Id): (os: Outcomes)
    ensures forall o :: o in os <==>
      exists y :: 0 <= y < |table| && StoredFor(table[y], session) && table[y].outcome == Some(o)
  {
    OutcomesOf(table, EligibleRows(table, session, |table|))
  }

  predicate HasLapsed(table: seq<Receipt>, session: Id, sources: seq<Source>) {
    exists i :: 0 <= i < |table| && table[i].session == session && table[i].eligible.Lapsed? && table[i].Key() in sources
  }

  // ------------------------------------------------------------------ current Targets

  predicate CurrentFor(o: Outcome, targets: Targets) {
    o.target in targets && targets[o.target] == Revisions(o.deploymentRevision, o.contextRevision)
  }

  /** Every outcome of the wake was produced in the context its Target still has. */
  predicate TargetsCurrent(w: Wake, targets: Targets) {
    forall p :: 0 <= p < |w.sources| ==> CurrentFor(w.sources[p], targets)
  }

  // ------------------------------------------------------------------ control requests

  function EnableDoc(d: Doc, input: ControlInput, next: Id): Changed {
    if !input.confirmed then Err(ConfirmationRequired)
    else if d.state.failureCount >= d.state.maxFailures || d.state.roundsUsed >= d.state.maxRounds then Err(RecoveryRequired)
    else if input.maxRounds != 0 && !(1 <= input.maxRounds <= 100) then Err(Invalid)
    else if input.maxFailures != 0 && !(1 <= input.maxFailures <= 10) then Err(Invalid)
    else
      Done(d.(state := d.state.(
                maxRounds := if input.maxRounds != 0 then input.maxRounds else d.state.maxRounds,
                maxFailures := if input.maxFailures != 0 then input.maxFailures else d.state.maxFailures,
                enabled := true, phase := Ready)), next)
  }

  function PauseDoc(d: Doc): Doc {
    d.(state := d.state.(enabled := false, phase := Paused))
  }

  /** A named wake is settled by hand; its credential dies with it. */
  function ResolveWake(d: Doc, i: nat, checkpoint: string, now: int): Doc
    requires i < |d.wakes|
  {
    if d.wakes[i].state.Settled? then d
    else
      var k := Latest(d.attempts, d.wakes[i].id);
      var d1 := SetWake(d, i, Settled, now);
      var d2 := if k < 0 then d1 else
        var a := d.attempts[k];
        SetAttempt(d1, k, a.(value := a.value.(state := Settled, lastError := ManuallyResolved(checkpoint)),
                             consumeHash := NoDigest));
      d2.(state := d2.state.(checkpoint := checkpoint))
  }

  function RecoverDoc(d: Doc, input: ControlInput, now: int, next: Id): Changed {
    if !input.confirmed then Err(ConfirmationRequired)
    else
      var i := Find(d.wakes, input.wake);
      if input.wake != NO_ID && (i == |d.wakes| || Blank(input.checkpoint)) then Err(Invalid)
      else
        var d1 := if input.wake != NO_ID then ResolveWake(d, i, input.checkpoint, now) else d;
        if BlockedDoc(d1) then Err(AttentionNeeded)
        else Done(d1.(state := d1.state.(roundsUsed := 0, failureCount := 0, lastError := NoError,
                                         enabled := true, phase := Ready)), next)
  }

  /** The first fault of a source list, reading it from `i`: each source is checked before the next. */
  function SourceFault(sources: seq<Source>, i: nat, targets: Targets): Option<Code>
    requires i <= |sources|
    decreases |sources| - i
  {
    if i == |sources| then None
    else if sources[i].command == NO_ID || sources[i] in sources[..i] then Some(Invalid)
    else if sources[i].target !in targets then Some(TargetDenied)
    else SourceFault(sources, i + 1, targets)
  }

  function AwaitDoc(d: Doc, input: ControlInput, targets: Targets, table: seq<Receipt>, now: int, next: Id): Changed {
    if !d.state.enabled then Err(PausedError)
    else if |input.sources| == 0 || |input.sources| > MAX_WAKE_SOURCES then Err(Invalid)
    else if SourceFault(input.sources, 0, targets).Some? then Err(SourceFault(input.sources, 0, targets).value)
    else if HasLapsed(table, d.state.session, input.sources) then Err(SourceExpired)
    else
      var d1 := d.(state := d.state.(sources := input.sources, phase := Waiting));
      var (d2, n2) := MergeAll(d1, StoredOutcomes(table, d.state.session), now, next);
      Done(d2, n2)
  }

  function SettleDoc(d: Doc, input: ControlInput, now: int, next: Id): Changed {
    var i := Find(d.wakes, input.wake);
    if i == |d.wakes| then Err(WakeNotFound)
    else if d.wakes[i].state.Settled? then Done(d, next)
    else
      var k := Latest(d.attempts, input.wake);
      if k < 0 || d.attempts[k].value.consumedAt.Never? then Err(NotConsumed)
      else if Blank(input.checkpoint) then Err(Invalid)
      else
        var a := d.attempts[k];
        var d1 := SetAttempt(SetWake(d, i, Settled, now), k, a.(value := a.value.(state := Settled)));
        Done(d1.(state := d1.state.(checkpoint := input.checkpoint, failureCount := 0, lastError := NoError,
                                    phase := if d1.state.enabled then Ready else d1.state.phase)), next)
  }

  function Control(d: Doc, input: ControlInput, targets: Targets, table: seq<Receipt>, now: int, next: Id): Changed {
    match input.action
    case Status => Done(d, next)
    case Enable => EnableDoc(d, input, next)
    case Pause => Done(PauseDoc(d), next)
    case Recover => RecoverDoc(d, input, now, next)
    case Await => AwaitDoc(d, input, targets, table, now, next)
    case Settle => SettleDoc(d, input, now, next)
    case UnknownControl => Err(Invalid)
  }

  // ------------------------------------------------------------------ presentation

  /** A wake not yet fenced follows the endpoint that replaces its own. */
  function Restamp(w: Wake, endpoint: Id, generation: nat, now: int): Wake {
    var w1 := if w.state.Claimed? then w.(state := Pending, updatedAt := At(now)) else w;
    if w1.state.Pending? then w1.(endpoint := endpoint, generation := generation) else w1
  }

  function RestampAll(wakes: seq<Wake>, endpoint: Id, generation: nat, now: int): seq<Wake> {
    seq(|wakes|, i requires 0 <= i < |wakes| => Restamp(wakes[i], endpoint, generation, now))
  }

  function Present(d: Doc, recover: bool, now: int, next: Id): Changed {
    if d.endpoint.id != NO_ID && !recover then Err(RecoveryRequired)
    else if BlockedDoc(d) then Err(AttentionNeeded)
    else
      var generation := d.endpoint.generation + 1;
      var d1 := d.(endpoint := Endpoint(d.state.session, next, generation, NO_ID, Never),
                   bindingHash := DigestOf(next + 1), viewConsent := false,
                   wakes := RestampAll(d.wakes, next, generation, now));
      Ok(Change(d1, DocReply(d1).(bindingSecret := next + 1), next + 2))
  }

  // ------------------------------------------------------------------ the view controller

  /** None when the view is who it says it is. */
  function Identity(d: Doc, input: ControllerInput, now: int, lease: bool): Option<Code> {
    if input.endpoint == NO_ID || input.endpoint != d.endpoint.id || input.generation != d.endpoint.generation ||
       !ValidSecret(input.bindingSecret, d.bindingHash) then Some(BindingDenied)
    else if input.binding == NO_ID || input.bindingLength > MAX_BINDING_LENGTH then Some(BindingDenied)
    else if lease && (input.binding != d.endpoint.binding || Expired(d.endpoint.lease, now)) then Some(LeaseExpired)
    else None
  }

  function BindView(d: Doc, input: ControllerInput, now: int, next: Id): Changed {
    if d.endpoint.binding != NO_ID && d.endpoint.binding != input.binding && !Expired(d.endpoint.lease, now) then
      Err(ViewBusy)
    else
      var kept := d.endpoint.binding == input.binding && d.viewConsent;
      Done(d.(endpoint := d.endpoint.(binding := input.binding, lease := At(now + VIEW_LEASE)),
              viewConsent := kept || input.userEnabled), next)
  }

  function Renew(d: Doc, now: int): Doc {
    d.(endpoint := d.endpoint.(lease := At(now + VIEW_LEASE)))
  }

  function Claim(d: Doc, i: nat, binding: Id, now: int, next: Id): Change
    requires i < |d.wakes|
  {
    var id := d.wakes[i].id;
    var d1 := SetWake(d, i, Claimed, now);
    var a := Attempt(AttemptValue(next, id, Claimed, At(now + CLAIM_LEASE), Never, Never, Never, NoError), binding, NoDigest);
    var d2 := d1.(attempts := d1.attempts + [a]);
    Change(d2, WakeReply(d2, id), next + 1)
  }

  predicate Exhausted(s: Budget) {
    s.roundsUsed >= s.maxRounds || s.failureCount >= s.maxFailures
  }

  /** The wake an acquisition would claim: the requested one if pending, else the first pending one. */
  function Claimable(wakes: seq<Wake>, requested: Id): (i: nat)
    ensures i <= |wakes| && (i < |wakes| ==> wakes[i].state.Pending?)
    ensures i < |wakes| && requested != NO_ID ==> wakes[i].id == requested
  {
    if wakes == [] then 0
    else if wakes[0].state.Pending? && (requested == NO_ID || wakes[0].id == requested) then 0
    else 1 + Claimable(wakes[1..], requested)
  }

  function AcquireWake(d: Doc, input: ControllerInput, targets: Targets, now: int, next: Id): Changed {
    var i := Find(d.wakes, input.wake);
    var c := FirstIn(d.wakes, ClaimedKind);
    if !d.state.enabled || !d.viewConsent then Err(PausedError)
    else if Exhausted(d.state) then Err(BudgetExhausted)
    else if input.wake != NO_ID && i == |d.wakes| then Err(WakeNotFound)
    else if input.wake != NO_ID && !d.wakes[i].state.Unfenced() then Err(DispatchFenced)
    else if BlockedDoc(d) then
      if input.wake != NO_ID then Err(AttentionNeeded) else Done(d, next)
    else if c < |d.wakes| then
      var k := Latest(d.attempts, d.wakes[c].id);
      if k >= 0 && d.attempts[k].binding == input.binding && (input.wake == NO_ID || input.wake == d.wakes[c].id)
      then Ok(Change(d, WakeReply(d, d.wakes[c].id), next))
      else Err(ViewBusy)
    else
      var p := Claimable(d.wakes, input.wake);
      if p == |d.wakes| then Done(d, next)
      else if !TargetsCurrent(d.wakes[p], targets) then Err(TargetDenied)
      else Ok(Claim(d, p, input.binding, now, next))
  }

  /** The dispatch is fenced: the wake prepared, the attempt armed with its credential, a round used. */
  function Fenced(d: Doc, i: nat, k: nat, now: int, token: Id): Doc
    requires i < |d.wakes| && k < |d.attempts|
  {
    var a := d.attempts[k];
    var d1 := SetAttempt(SetWake(d, i, Prepared, now), k,
      a.(value := a.value.(state := Prepared, preparedAt := At(now), lease := At(now + DISPATCH_TIMEOUT)),
         consumeHash := DigestOf(token)));
    var d2 := Renew(d1, now);
    d2.(state := d2.state.(roundsUsed := d2.state.roundsUsed + 1, phase := Dispatching))
  }

  function PrepareDispatch(d: Doc, input: ControllerInput, targets: Targets, now: int, next: Id): Changed {
    var i := Find(d.wakes, input.wake);
    var k := Latest(d.attempts, input.wake);
    if i == |d.wakes| then Err(WakeNotFound)
    else if k < 0 || d.attempts[k].value.id != input.attempt || d.attempts[k].binding != input.binding then Err(AttemptDenied)
    else if !d.wakes[i].state.Claimed? || d.attempts[k].value.preparedAt.At? then Err(DispatchFenced)
    else if BlockedDoc(d) then Err(AttentionNeeded)
    else if !d.state.enabled || !d.viewConsent || Exhausted(d.state) then Err(PausedError)
    else if !TargetsCurrent(d.wakes[i], targets) then Err(TargetDenied)
    else
      var d3 := Fenced(d, i, k, now, next);
      var envelope := Envelope(1, d.state.session, input.endpoint, input.generation, input.wake, d.attempts[k].value.id, next);
      Ok(Change(d3, WakeReply(d3, input.wake).(message := Some(envelope)), next + 1))
  }

  predicate DeliveryStatus(state: WakeState) {
    state.DispatchAccepted? || state.DeliveryRejected? || state.DeliveryUnknown?
  }

  /** A report moves a wake whose delivery is open; consumption may have overtaken it. */
  predicate ReportMovesWake(w: Wake, a: AttemptValue, delivery: WakeState) {
    a.consumedAt.Never? &&
    (w.state.Prepared? || w.state.DispatchAccepted? || (w.state.DeliveryUnknown? && delivery.DeliveryRejected?))
  }

  /** The first delivery report of an attempt; a late one only leaves its receipt. */
  function ReportDelivery(d: Doc, i: nat, k: nat, delivery: WakeState, now: int): Doc
    requires i < |d.wakes| && k < |d.attempts|
  {
    var a := d.attempts[k].(value := d.attempts[k].value.(finishedAt := At(now)));
    if !ReportMovesWake(d.wakes[i], a.value, delivery) then SetAttempt(d, k, a)
    else
      var d1 := SetAttempt(SetWake(d, i, delivery, now), k, a.(value := a.value.(state := delivery)));
      if !delivery.DispatchAccepted? && !d.state.phase.AttentionPhase? && !d.state.phase.CircuitOpen? then
        d1.(state := FailThenAttention(d1.state, DeliveryFailed(delivery)))
      else d1
  }

  function FinishDispatch(d: Doc, input: ControllerInput, now: int, next: Id): Changed {
    var i := Find(d.wakes, input.wake);
    var k := Latest(d.attempts, input.wake);
    if !DeliveryStatus(input.delivery) then Err(Invalid)
    else if i == |d.wakes| then Err(WakeNotFound)
    else if k < 0 || d.attempts[k].value.id != input.attempt || d.attempts[k].binding != input.binding ||
            d.attempts[k].value.preparedAt.Never? then Err(AttemptDenied)
    else if d.attempts[k].value.finishedAt.At? then Ok(Change(d, WakeReply(d, input.wake), next))
    else
      var d1 := ReportDelivery(d, i, k, input.delivery, now);
      Ok(Change(d1, WakeReply(d1, input.wake), next))
  }

  function Controller(d: Doc, input: ControllerInput, targets: Targets, now: int, next: Id): Changed {
    var refused := Identity(d, input, now, input.action != Bind);
    if refused.Some? then Err(refused.value)
    else match input.action
    case ViewState => Done(d, next)
    case Bind => BindView(d, input, now, next)
    case Heartbeat => Done(Renew(d, now), next)
    case ViewPause => Done(PauseDoc(d).(viewConsent := false), next)
    case Acquire => AcquireWake(d, input, targets, now, next)
    case Prepare => PrepareDispatch(d, input, targets, now, next)
    case Finish => FinishDispatch(d, input, now, next)
    case UnknownController => Err(Invalid)
  }

  // ------------------------------------------------------------------ consumption

  /** The wake's outcomes are handed over, and its credential is gone. */
  function HandedOver(d: Doc, i: nat, k: nat, now: int): Doc
    requires i < |d.wakes| && k < |d.attempts|
  {
    var a := d.attempts[k];
    SetPhase(SetAttempt(SetWake(d, i, Consumed, now), k,
                        a.(value := a.value.(state := Consumed, consumedAt := At(now)), consumeHash := NoDigest)),
             Processing)
  }

  function Consume(d: Doc, e: Envelope, targets: Targets, now: int, next: Id): Changed {
    var i := Find(d.wakes, e.wake);
    var k := Latest(d.attempts, e.wake);
    if e.protocolVersion != 1 || e.endpoint != d.endpoint.id || e.generation != d.endpoint.generation then Err(BindingDenied)
    else if i == |d.wakes| || d.wakes[i].endpoint != e.endpoint || d.wakes[i].generation != e.generation then Err(WakeNotFound)
    else if k < 0 || d.attempts[k].value.id != e.attempt || d.attempts[k].value.preparedAt.Never? ||
            !ValidSecret(e.token, d.attempts[k].consumeHash) then Err(ConsumeDenied)
    else if !TargetsCurrent(d.wakes[i], targets) then Err(TargetDenied)
    else if !d.wakes[i].state.Consumable() then Err(ConsumeDenied)
    else
      var d1 := if d.attempts[k].value.consumedAt.At? then d else HandedOver(d, i, k, now);
      Ok(Change(d1, DocReply(d1).(wake := Some(d1.wakes[i]), attempt := Some(d1.attempts[k].value),
                                  outcomes := d1.wakes[i].sources), next))
  }

  // ------------------------------------------------------------------ saving

  function SettledCount(wakes: seq<Wake>): nat {
    if wakes == [] then 0 else (if wakes[0].state.Settled? then 1 else 0) + SettledCount(wakes[1..])
  }

  /** Drops the oldest settled wakes while more than `KEPT_SETTLED` remain. */
  function KeepWakes(wakes: seq<Wake>, settled: nat): seq<Wake> {
    if wakes == [] then []
    else if wakes[0].state.Settled? && settled > KEPT_SETTLED then KeepWakes(wakes[1..], settled - 1)
    else [wakes[0]] + KeepWakes(wakes[1..], settled)
  }

  /** Keeps the newest attempt of every kept wake. */
  function KeepAttempts(attempts: seq<Attempt>, wakes: seq<Wake>, n: nat): seq<Attempt>
    requires n <= |attempts|
  {
    if n == 0 then []
    else
      var a := attempts[n - 1];
      KeepAttempts(attempts, wakes, n - 1) +
      if Find(wakes, a.value.wake) < |wakes| && Latest(attempts, a.value.wake) == n - 1 then [a] else []
  }

  function Compact(d: Doc): Doc {
    var wakes := KeepWakes(d.wakes, SettledCount(d.wakes));
    d.(wakes := wakes, attempts := KeepAttempts(d.attempts, wakes, |d.attempts|))
  }

  /** The outcome of this receipt was handed to a wake that is settled. */
  predicate SettledIn(d: Doc, r: Receipt) {
    exists i :: 0 <= i < |d.wakes| && d.wakes[i].state.Settled? && d.wakes[i].session == r.session && Holds(d.wakes[i], r.Key())
  }

  function CompactReceipt(d: Doc, r: Receipt): Receipt {
    if r.eligible.Eligible? && SettledIn(d, r) then r.(outcome := None, eligible := Detached) else r
  }

  function CompactReceipts(d: Doc, table: seq<Receipt>): (t: seq<Receipt>)
    ensures |t| == |table| && forall i :: 0 <= i < |t| ==> t[i] == CompactReceipt(d, table[i])
  {
    seq(|table|, i requires 0 <= i < |table| => CompactReceipt(d, table[i]))
  }

  function Stamped(d: Doc, now: int): Doc {
    d.(state := d.state.(updatedAt := At(now)))
  }

  // ------------------------------------------------------------------ one whole transaction on a document

  datatype Request =
    | ControlRequest(session: Id, control: ControlInput)
    | PresentRequest(session: Id, recover: bool)
    | ControllerRequest(session: Id, controller: ControllerInput)
    | ConsumeRequest(envelope: Envelope)
  {
    function Session(): Id { if ConsumeRequest? then envelope.session else this.session }
  }

  function Handle(d: Doc, request: Request, targets: Targets, table: seq<Receipt>, now: int, next: Id): Changed {
    match request
    case ControlRequest(_, input) => Control(d, input, targets, table, now, next)
    case PresentRequest(_, recover) => Present(d, recover, now, next)
    case ControllerRequest(_, input) => Controller(d, input, targets, now, next)
    case ConsumeRequest(e) => Consume(d, e, targets, now, next)
  }
}
