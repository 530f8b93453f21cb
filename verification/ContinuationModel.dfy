/**
 The work-continuation document of one WorkSession, the receipt table beside it,
 and the requests that change them.

 Ids and secrets are natural numbers drawn from a counter; 0 is the empty string.
 A time stamp is an integer number of nanoseconds or the empty string.
 A digest is represented by what was digested, so it is injective.
 */
module ContinuationModel {
  import opened Wrappers

  type Id = nat
  const NO_ID: Id := 0

  const SECOND := 1_000_000_000
  const VIEW_LEASE := 90 * SECOND
  const CLAIM_LEASE := 30 * SECOND
  const DISPATCH_TIMEOUT := 45 * SECOND
  const SETTLEMENT_TIMEOUT := 5 * 60 * SECOND
  const RETENTION := 30 * 24 * 3600 * SECOND

  const MAX_WAKE_SOURCES := 32
  const MAX_OUTCOMES_PER_READ := 32
  const MAX_BATCH_BYTES := 0x10_0000
  const KEPT_SETTLED := 32
  const KEPT_UNAWAITED := 1024
  const MAX_BINDING_LENGTH := 160

  datatype Stamp = Never | At(time: int)

  /** An unreadable stamp counts as expired, and the limit itself is already too late. */
  predicate Expired(stamp: Stamp, now: int) {
    stamp.Never? || stamp.time <= now
  }

  datatype WakeState =
    | Pending | Claimed | Prepared | DispatchAccepted | DeliveryRejected
    | DeliveryUnknown | Consumed | NeedsAttention | Settled
  {
    /** A dispatch or consumed work that nobody has settled. */
    predicate Blocked() {
      Prepared? || DispatchAccepted? || DeliveryUnknown? || DeliveryRejected? || Consumed? || NeedsAttention?
    }

    predicate Active() { Claimed? || Blocked() }

    /** The dispatch fence has not been crossed. */
    predicate Unfenced() { Pending? || Claimed? }

    predicate Consumable() { Prepared? || DispatchAccepted? || DeliveryUnknown? }

    predicate TakenOver() { Consumed? || NeedsAttention? || Settled? }

    predicate Is(kind: Kind) {
      match kind
      case BlockedKind => Blocked()
      case ActiveKind => Active()
      case PendingKind => Pending?
      case ClaimedKind => Claimed?
    }
  }

  /** What a search through the wakes looks for. */
  datatype Kind = BlockedKind | ActiveKind | PendingKind | ClaimedKind

  datatype Phase =
    | Disabled | Ready | Paused | Waiting | Dispatching | Processing | AttentionPhase | CircuitOpen

  datatype Reason =
    | NoError
    | ClaimExpired
    | DispatchNeedsInspection
    | NotSettledInTime
    | DeliveryFailed(status: WakeState)
    | ManuallyResolved(checkpoint: string)

  /** One command of one Target: what `await` names and what an outcome answers. */
  datatype Source = Source(target: Id, command: Id)

  datatype OutcomeState = Running | Completed | Failed | Interrupted | OutcomeUnknown

  /** `facts` stands for the fields no decision reads, `encodedBytes` is the JSON length, and
      `oversized` says that the three output texts together exceed the protocol limit. */
  datatype Outcome = Outcome(
    event: Id, session: Id, target: Id, command: Id,
    project: Id, deployment: Id, deploymentRevision: Id, contextRevision: Id,
    state: OutcomeState, oversized: bool, encodedBytes: nat, facts: Id, pendingReport: bool)
  {
    function Key(): Source { Source(target, command) }
    predicate Terminal() { !state.Running? }
  }

  datatype Wake = Wake(
    session: Id, endpoint: Id, generation: nat, id: Id, state: WakeState,
    sources: seq<Outcome>, createdAt: Stamp, updatedAt: Stamp)

  datatype AttemptValue = AttemptValue(
    id: Id, wake: Id, state: WakeState, lease: Stamp, preparedAt: Stamp,
    finishedAt: Stamp, consumedAt: Stamp, lastError: Reason)

  datatype Digest = NoDigest | DigestOf(secret: Id)

  predicate ValidSecret(value: Id, digest: Digest) {
    value != NO_ID && digest == DigestOf(value)
  }

  datatype Attempt = Attempt(value: AttemptValue, binding: Id, consumeHash: Digest)

  datatype Endpoint = Endpoint(session: Id, id: Id, generation: nat, binding: Id, lease: Stamp)

  datatype Budget = Budget(
    session: Id, enabled: bool, phase: Phase,
    maxRounds: nat, roundsUsed: nat, maxFailures: nat, failureCount: nat,
    sources: seq<Source>, checkpoint: string, lastError: Reason, updatedAt: Stamp)

  datatype Doc = Doc(
    state: Budget, endpoint: Endpoint, bindingHash: Digest, viewConsent: bool,
    wakes: seq<Wake>, attempts: seq<Attempt>)

  /** What a WorkSession without a stored row reads as. */
  function NewDoc(session: Id): Doc {
    Doc(Budget(session, false, Disabled, 8, 0, 3, 0, [], "", NoError, Never),
        Endpoint(NO_ID, NO_ID, 0, NO_ID, Never), NoDigest, false, [], [])
  }

  datatype Eligibility = Detached | Eligible | Lapsed

  /** A row of `command_source_receipts`; its position in the table is its rowid. */
  datatype Receipt = Receipt(
    node: Id, event: Id, session: Id, target: Id, command: Id,
    hash: Outcome, outcome: Option<Outcome>, receivedAt: int, eligible: Eligibility)
  {
    function Key(): Source { Source(target, command) }
  }

  datatype Envelope = Envelope(
    protocolVersion: nat, session: Id, endpoint: Id, generation: nat, wake: Id, attempt: Id, token: Id)

  datatype Reply = Reply(
    session: Id, endpoint: Id, generation: nat, binding: Id, lease: Stamp, state: Budget,
    wake: Option<Wake>, attempt: Option<AttemptValue>,
    bindingSecret: Id, message: Option<Envelope>, outcomes: seq<Outcome>)

  datatype Code =
    | Invalid | Denied | SessionNotFound | ConfirmationRequired | RecoveryRequired | AttentionNeeded
    | PausedError | WakeNotFound | NotConsumed | TargetDenied | SourceExpired | BindingDenied
    | LeaseExpired | ViewBusy | BudgetExhausted | DispatchFenced | AttemptDenied | ConsumeDenied
    | SourceDenied | ReceiptConflict | StorageConflict

  /** The changed document, the answer, and the next unused id. */
  datatype Change = Change(doc: Doc, reply: Reply, next: Id)

  datatype ControlAction = Status | Enable | Pause | Recover | Await | Settle | UnknownControl

  datatype Revisions = Revisions(deployment: Id, context: Id)

  /** The Targets of the WorkSession whose configuration is current at this moment, with their revisions. */
  type Targets = map<Id, Revisions>

  datatype ControlInput = ControlInput(
    action: ControlAction, confirmed: bool, maxRounds: int, maxFailures: int,
    wake: Id, checkpoint: string, sources: seq<Source>)

  datatype ControllerAction =
    | ViewState | Bind | Heartbeat | ViewPause | Acquire | Prepare | Finish | UnknownController

  datatype ControllerInput = ControllerInput(
    action: ControllerAction, endpoint: Id, generation: nat, bindingSecret: Id,
    binding: Id, bindingLength: nat, userEnabled: bool, wake: Id, attempt: Id,
    delivery: WakeState)

  const SPACES: set<char> := {' ', '\t', '\n', '\r'}

  predicate Blank(text: string) {
    forall i :: 0 <= i < |text| ==> text[i] in SPACES
  }
}
