/**
 The whole store: one document per WorkSession, the receipt table, and a history of what was dispatched,
 consumed, recovered, placed and acknowledged.  Every request is one atomic step.
 */
module ContinuationSystem {
  import opened Wrappers
  import opened ContinuationModel
  import opened ContinuationSpec

  /** What never changes about a Target: the conflict clause of its upsert leaves these columns alone. */
  datatype TargetRow = TargetRow(node: Id, project: Id, deployment: Id)

  datatype TargetKey = TargetKey(session: Id, target: Id)

  datatype Config = Config(owners: map<Id, Id>, targets: map<TargetKey, TargetRow>)

  datatype Event =
    | Dispatched(session: Id, envelope: Envelope, sources: Outcomes)
    | Consumption(session: Id, wake: Id, outcomes: Outcomes)
    | Recovered(session: Id)

  /** This command of this WorkSession was put into this wake. */
  datatype Placement = Placement(session: Id, source: Source, wake: Id)

  datatype Ack = Ack(node: Id, event: Id)

  datatype System = System(
    docs: map<Id, Doc>, receipts: seq<Receipt>, next: Id,
    log: seq<Event>, placed: set<Placement>, acked: set<Ack>)

  function Start(): System {
    System(map[], [], 1, [], {}, {})
  }

  function Load(s: System, session: Id): Doc {
    if session in s.docs then s.docs[session] else NewDoc(session)
  }

  function PlacementsIn(session: Id, wakes: seq<Wake>): set<Placement> {
    set i, p | 0 <= i < |wakes| && 0 <= p < |wakes[i].sources| ::
      Placement(session, wakes[i].sources[p].Key(), wakes[i].id)
  }

  /** Compacts the document and, with it, the receipts of its settled wakes; then both are stored. */
  function Save(s: System, session: Id, d: Doc, table: seq<Receipt>, now: int, next: Id, events: seq<Event>): System {
    s.(docs := s.docs[session := Stamped(Compact(d), now)],
       receipts := CompactReceipts(d, table),
       next := next,
       log := s.log + events,
       placed := s.placed + PlacementsIn(session, d.wakes))
  }

  // ------------------------------------------------------------------ requests of a client

  predicate IsRead(request: Request) {
    match request
    case ControlRequest(_, input) => input.action.Status?
    case ControllerRequest(_, input) => input.action.ViewState?
    case _ => false
  }

  function EventsOf(session: Id, request: Request, reply: Reply): seq<Event> {
    (if reply.message.Some? && reply.wake.Some? then [Dispatched(session, reply.message.value, reply.wake.value.sources)] else []) +
    match request
    case ControlRequest(_, input) => if input.action.Recover? then [Recovered(session)] else []
    case ConsumeRequest(e) => [Consumption(session, e.wake, reply.outcomes)]
    case _ => []
  }

  /** A request of `owner`; a refused request changes nothing. */
  function Ask(c: Config, s: System, owner: Id, request: Request, targets: Targets, now: int)
    : Result<(System, Reply), Code>
  {
    var session := request.Session();
    if owner == NO_ID || session == NO_ID then Err(Denied)
    else if session !in c.owners then Err(SessionNotFound)
    else if c.owners[session] != owner then Err(Denied)
    else
      var d := Load(s, session);
      var d1 := Stamped(Expire(d, now), now);
      match Handle(d1, request, targets, s.receipts, now, s.next)
      case Err(code) => Err(code)
      case Ok(change) =>
        if IsRead(request) && !AnyDueFrom(d, 0, now) then Ok((s, DocReply(d)))
        else Ok((Save(s, session, change.doc, s.receipts, now, change.next, EventsOf(session, request, change.reply)),
                 change.reply))
  }

  // ------------------------------------------------------------------ outcomes reported by a node

  /** One reported outcome; `found` says whether the Target row still exists at `now`. */
  datatype Report = Report(outcome: Outcome, found: bool, now: int)

  predicate Complete(o: Outcome) {
    o.event != NO_ID && o.command != NO_ID && o.deploymentRevision != NO_ID && o.contextRevision != NO_ID
  }

  predicate SameEvent(r: Receipt, node: Id, event: Id) { r.node == node && r.event == event }
  predicate SameCommand(r: Receipt, node: Id, command: Id) { r.node == node && r.command == command }

  function EventRow(table: seq<Receipt>, node: Id, event: Id): (i: nat)
    ensures i <= |table|
    ensures forall j :: 0 <= j < i ==> !SameEvent(table[j], node, event)
    ensures i < |table| ==> SameEvent(table[i], node, event)
  {
    if table == [] then 0 else if SameEvent(table[0], node, event) then 0 else 1 + EventRow(table[1..], node, event)
  }

  function CommandRow(table: seq<Receipt>, node: Id, command: Id): (i: nat)
    ensures i <= |table|
    ensures forall j :: 0 <= j < i ==> !SameCommand(table[j], node, command)
    ensures i < |table| ==> SameCommand(table[i], node, command)
  {
    if table == [] then 0
    else if SameCommand(table[0], node, command) then 0
    else 1 + CommandRow(table[1..], node, command)
  }

  function NewReceipt(node: Id, o: Outcome, found: bool, now: int): Receipt {
    Receipt(node, o.event, o.session, o.target, o.command, o, if found then Some(o) else None, now,
            if found then Eligible else Detached)
  }

  function Acknowledge(s: System, node: Id, event: Id): System {
    s.(acked := s.acked + {Ack(node, event)})
  }

  /** A receipt for a new outcome, and in the same transaction its place in the session's wakes. */
  function Place(c: Config, s: System, node: Id, o: Outcome, now: int): System {
    var table := s.receipts + [NewReceipt(node, o, true, now)];
    var d := Expire(Load(s, o.session), now);
    var (d1, n1) := Merge(d, o, now, s.next);
    Acknowledge(Save(s, o.session, d1, table, now, n1, []), node, o.event)
  }

  /** `Some` system when the outcome is stored or already known; a running command is skipped. */
  function RecordOne(c: Config, s: System, node: Id, r: Report): Result<System, Code> {
    var o := r.outcome.(pendingReport := false);
    var key := TargetKey(o.session, o.target);
    var found := r.found && key in c.targets && o.session in c.owners;
    var known := EventRow(s.receipts, node, o.event);
    if !o.Terminal() then Ok(s)
    else if o.oversized || !Complete(o) then Err(Invalid)
    else if found && c.targets[key] != TargetRow(node, o.project, o.deployment) then Err(SourceDenied)
    else if known < |s.receipts| then
      if s.receipts[known].hash != o then Err(ReceiptConflict) else Ok(Acknowledge(s, node, o.event))
    else if CommandRow(s.receipts, node, o.command) < |s.receipts| then Err(StorageConflict)
    else if !found then Ok(Acknowledge(s.(receipts := s.receipts + [NewReceipt(node, o, false, r.now)]), node, o.event))
    else Ok(Place(c, s, node, o, r.now))
  }

  function RecordAll(c: Config, s: System, node: Id, reports: seq<Report>): Result<System, Code>
    decreases |reports|
  {
    if reports == [] then Ok(s)
    else match RecordOne(c, s, node, reports[0])
      case Err(code) => Err(code)
      case Ok(s1) => RecordAll(c, s1, node, reports[1..])
  }

  // ------------------------------------------------------------------ retention of unawaited results

  predicate Competes(r: Receipt, node: Id) { r.node == node && r.eligible.Eligible? }

  /** How many of the first `n` eligible rows of the node are newer than row `i`. */
  function NewerCount(table: seq<Receipt>, node: Id, i: nat, n: nat): nat
    requires i < |table| && n <= |table|
  {
    if n == 0 then 0
    else
      var newer := table[n - 1].receivedAt > table[i].receivedAt ||
                   (table[n - 1].receivedAt == table[i].receivedAt && n - 1 > i);
      NewerCount(table, node, i, n - 1) + (if Competes(table[n - 1], node) && newer then 1 else 0)
  }

  predicate AwaitedBy(docs: map<Id, Doc>, r: Receipt) {
    r.session in docs && r.Key() in docs[r.session].state.sources
  }

  predicate HeldBy(docs: map<Id, Doc>, r: Receipt) {
    r.session in docs &&
    exists i, p :: 0 <= i < |docs[r.session].wakes| && !docs[r.session].wakes[i].state.Settled? &&
      0 <= p < |docs[r.session].wakes[i].sources| &&
      docs[r.session].wakes[i].sources[p].event == r.event && docs[r.session].wakes[i].sources[p].target == r.target
  }

  predicate Lapses(docs: map<Id, Doc>, table: seq<Receipt>, node: Id, i: nat, now: int)
    requires i < |table|
  {
    var r := table[i];
    Competes(r, node) &&
    (r.receivedAt < now - RETENTION || NewerCount(table, node, i, |table|) >= KEPT_UNAWAITED) &&
    !AwaitedBy(docs, r) && !HeldBy(docs, r)
  }

  function ExpireUnawaited(docs: map<Id, Doc>, table: seq<Receipt>, node: Id, now: int): (t: seq<Receipt>)
    ensures |t| == |table|
    ensures forall i :: 0 <= i < |t| ==>
      t[i] == if Lapses(docs, table, node, i, now) then table[i].(outcome := None, eligible := Lapsed) else table[i]
  {
    seq(|table|, i requires 0 <= i < |table| =>
      if Lapses(docs, table, node, i, now) then table[i].(outcome := None, eligible := Lapsed) else table[i])
  }

  /** A node's batch: all of it is stored and acknowledged, or none. */
  function Collect(c: Config, s: System, node: Id, reports: seq<Report>, fits: bool, now: int): Result<System, Code> {
    if node == NO_ID || |reports| > MAX_OUTCOMES_PER_READ || !fits then Err(Invalid)
    else match RecordAll(c, s, node, reports)
      case Err(code) => Err(code)
      case Ok(s1) => Ok(s1.(receipts := ExpireUnawaited(s1.docs, s1.receipts, node, now)))
  }

  // ------------------------------------------------------------------ runs

  datatype Step =
    | AskStep(owner: Id, request: Request, targets: Targets, now: int)
    | CollectStep(node: Id, reports: seq<Report>, fits: bool, now: int)

  /** The store after a step; a refused step leaves it unchanged. */
  function After(c: Config, s: System, step: Step): System {
    match step
    case AskStep(owner, request, targets, now) =>
      (match Ask(c, s, owner, request, targets, now) case Ok(r) => r.0 case Err(_) => s)
    case CollectStep(node, reports, fits, now) =>
      (match Collect(c, s, node, reports, fits, now) case Ok(r) => r case Err(_) => s)
  }

  function Run(c: Config, s: System, steps: seq<Step>): System
    decreases |steps|
  {
    if steps == [] then s else After(c, Run(c, s, steps[..|steps| - 1]), steps[|steps| - 1])
  }
}
