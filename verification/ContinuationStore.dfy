/**
 The store: its tables and its requests.  Each method is one transaction and is proved to take the step
 of the specified system, so the results about runs hold of every sequence of calls.
 */
module ContinuationStore {
  import opened Wrappers
  import opened ContinuationModel
  import opened ContinuationSpec
  import opened ContinuationSystem
  import opened ContinuationDocument

  class Store {
    const config: Config
    var docs: map<Id, Doc>
    var receipts: seq<Receipt>
    var next: Id
    ghost var log: seq<Event>
    ghost var placed: set<Placement>
    ghost var acked: set<Ack>

    ghost function View(): System
      reads this
    {
      System(docs, receipts, next, log, placed, acked)
    }

    constructor (config: Config)
      ensures View() == Start() && this.config == config
    {
      this.config := config;
      docs, receipts, next := map[], [], 1;
      log, placed, acked := [], {}, {};
    }

    method LoadContinuation(session: Id) returns (d: Document)
      ensures fresh(d) && d.Value() == Load(View(), session)
    {
      if session in docs {
        d := new Document(docs[session]);
      } else {
        d := new Document(NewDoc(session));
      }
    }

    /** Clears the receipts handed to settled wakes, compacts the document, stamps and stores it. */
    method SaveContinuation(session: Id, d: Document, now: int, newNext: Id, ghost events: seq<Event>)
      modifies this, d
      ensures View() == Save(old(View()), session, old(d.Value()), old(receipts), now, newNext, events)
    {
      ghost var before := d.Value();
      CompactTable(d);
      d.CompactContinuation();
      d.state := d.state.(updatedAt := At(now));
      docs := docs[session := d.Value()];
      next := newNext;
      log := log + events;
      placed := placed + PlacementsIn(session, before.wakes);
    }

    /** The receipt matches an outcome among the first `p` of the settled wake at `i`, or of an earlier one. */
    ghost predicate SettledBefore(wakes: seq<Wake>, r: Receipt, i: nat, p: nat) {
      exists j, q :: 0 <= j < |wakes| && 0 <= q < |wakes[j].sources| && (j < i || (j == i && q < p)) &&
        wakes[j].state.Settled? && wakes[j].session == r.session && wakes[j].sources[q].Key() == r.Key()
    }

    ghost function Cleared(wakes: seq<Wake>, r: Receipt, i: nat, p: nat): Receipt {
      if r.eligible.Eligible? && SettledBefore(wakes, r, i, p) then r.(outcome := None, eligible := Detached) else r
    }

    method CompactTable(d: Document)
      modifies this`receipts
      ensures receipts == CompactReceipts(d.Value(), old(receipts))
    {
      for i := 0 to |d.wakes|
        invariant |receipts| == |old(receipts)|
        invariant forall x :: 0 <= x < |receipts| ==> receipts[x] == Cleared(d.wakes, old(receipts)[x], i, 0)
      {
        if d.wakes[i].state.Settled? {
          for p := 0 to |d.wakes[i].sources|
            invariant |receipts| == |old(receipts)|
            invariant forall x :: 0 <= x < |receipts| ==> receipts[x] == Cleared(d.wakes, old(receipts)[x], i, p)
          {
            ClearRows(d.wakes[i].session, d.wakes[i].sources[p].Key());
          }
        }
      }
      forall x | 0 <= x < |receipts| ensures receipts[x] == CompactReceipt(d.Value(), old(receipts)[x]) {
        var r := old(receipts)[x];
        if SettledIn(d.Value(), r) {
          var i :| 0 <= i < |d.wakes| && d.wakes[i].state.Settled? && d.wakes[i].session == r.session && Holds(d.wakes[i], r.Key());
          var p :| 0 <= p < |d.wakes[i].sources| && d.wakes[i].sources[p].Key() == r.Key();
          assert SettledBefore(d.wakes, r, |d.wakes|, 0);
        }
        if SettledBefore(d.wakes, r, |d.wakes|, 0) {
          var j, q :| 0 <= j < |d.wakes| && 0 <= q < |d.wakes[j].sources| &&
            d.wakes[j].state.Settled? && d.wakes[j].session == r.session && d.wakes[j].sources[q].Key() == r.Key();
          assert Holds(d.wakes[j], r.Key());
        }
      }
    }

    method ClearRows(session: Id, key: Source)
      modifies this`receipts
      ensures |receipts| == |old(receipts)|
      ensures forall x :: 0 <= x < |receipts| ==>
        receipts[x] == if StoredFor(old(receipts)[x], session) && old(receipts)[x].Key() == key
                       then old(receipts)[x].(outcome := None, eligible := Detached) else old(receipts)[x]
    {
      for y := 0 to |receipts|
        invariant |receipts| == |old(receipts)|
        invariant forall x :: y <= x < |receipts| ==> receipts[x] == old(receipts)[x]
        invariant forall x :: 0 <= x < y ==>
          receipts[x] == if StoredFor(old(receipts)[x], session) && old(receipts)[x].Key() == key
                         then old(receipts)[x].(outcome := None, eligible := Detached) else old(receipts)[x]
      {
        var r := receipts[y];
        if r.session == session && r.Key() == key && r.eligible.Eligible? {
          receipts := receipts[y := r.(outcome := None, eligible := Detached)];
        }
      }
    }

    /** One client request, from loading to saving; refused requests roll back. */
    method Change(owner: Id, request: Request, targets: Targets, now: int) returns (r: Result<Reply, Code>)
      modifies this
      ensures match Ask(config, old(View()), owner, request, targets, now)
              case Ok(answer) => r == Ok(answer.1) && View() == answer.0
              case Err(code) => r == Err(code) && View() == old(View())
    {
      var session := request.Session();
      if owner == NO_ID || session == NO_ID { return Err(Denied); }
      if session !in config.owners { return Err(SessionNotFound); }
      if config.owners[session] != owner { return Err(Denied); }
      var d := LoadContinuation(session);
      var changed := d.ExpireContinuation(now);
      d.state := d.state.(updatedAt := At(now));
      var next';
      match request {
        case ControlRequest(_, input) => r, next' := d.ControlContinuation(input, targets, receipts, now, next);
        case PresentRequest(_, recover) => r, next' := d.PresentContinuation(recover, now, next);
        case ControllerRequest(_, input) => r, next' := d.ControllerContinuation(input, targets, now, next);
        case ConsumeRequest(e) => r := d.ConsumeWorkWake(e, targets, now, next); next' := next;
      }
      if r.Err? { return; }
      if IsRead(request) && !changed {
        var unread := LoadContinuation(session);
        var reply := unread.Result();
        return Ok(reply);
      }
      SaveContinuation(session, d, now, next', EventsOf(session, request, r.value));
    }

    // ---------------------------------------------------------------- reported outcomes

    method FindEvent(node: Id, event: Id) returns (i: nat)
      ensures i == EventRow(receipts, node, event)
    {
      i := 0;
      while i < |receipts|
        invariant 0 <= i <= |receipts|
        invariant forall j :: 0 <= j < i ==> !SameEvent(receipts[j], node, event)
      {
        if SameEvent(receipts[i], node, event) { return; }
        i := i + 1;
      }
    }

    method FindCommand(node: Id, command: Id) returns (i: nat)
      ensures i == CommandRow(receipts, node, command)
    {
      i := 0;
      while i < |receipts|
        invariant 0 <= i <= |receipts|
        invariant forall j :: 0 <= j < i ==> !SameCommand(receipts[j], node, command)
      {
        if SameCommand(receipts[i], node, command) { return; }
        i := i + 1;
      }
    }

    /** One outcome of a batch; the event id is acknowledged when it is stored or already known. */
    method RecordOutcome(node: Id, report: Report) returns (r: Result<Option<Id>, Code>)
      modifies this
      ensures match RecordOne(config, old(View()), node, report)
              case Ok(s) => View() == s && r == Ok(if report.outcome.Terminal() then Some(report.outcome.event) else None)
              case Err(code) => r == Err(code)
    {
      var o := report.outcome;
      if !o.Terminal() { return Ok(None); }
      if o.oversized { return Err(Invalid); }
      if o.event == NO_ID || o.command == NO_ID || o.deploymentRevision == NO_ID || o.contextRevision == NO_ID { return Err(Invalid); }
      var key := TargetKey(o.session, o.target);
      var found := report.found && key in config.targets && o.session in config.owners;
      if found && config.targets[key] != TargetRow(node, o.project, o.deployment) { return Err(SourceDenied); }
      o := o.(pendingReport := false);
      var known := FindEvent(node, o.event);
      if known < |receipts| {
        if receipts[known].hash != o { return Err(ReceiptConflict); }
        acked := acked + {Ack(node, o.event)};
        return Ok(Some(o.event));
      }
      var clash := FindCommand(node, o.command);
      if clash < |receipts| { return Err(StorageConflict); }
      receipts := receipts + [NewReceipt(node, o, found, report.now)];
      if found {
        var d := LoadContinuation(o.session);
        var _ := d.ExpireContinuation(report.now);
        var next' := d.MergeOutcome(o, report.now, next);
        SaveContinuation(o.session, d, report.now, next', []);
      }
      acked := acked + {Ack(node, o.event)};
      return Ok(Some(o.event));
    }

    /** The retention statement: one pass over the table as it was. */
    method ExpireUnawaitedReceipts(node: Id, now: int)
      modifies this`receipts
      ensures receipts == ExpireUnawaited(docs, old(receipts), node, now)
    {
      var kept: seq<Receipt> := [];
      for i := 0 to |receipts|
        invariant |kept| == i && receipts == old(receipts)
        invariant forall x :: 0 <= x < i ==> kept[x] == ExpireUnawaited(docs, receipts, node, now)[x]
      {
        var r := receipts[i];
        if Lapses(docs, receipts, node, i, now) { r := r.(outcome := None, eligible := Lapsed); }
        kept := kept + [r];
      }
      receipts := kept;
    }

    /** A node's batch in one transaction; the ids it returns may be acknowledged once it has committed. */
    method RecordCommandOutcomes(node: Id, reports: seq<Report>, fits: bool, now: int) returns (r: Result<seq<Id>, Code>)
      modifies this
      ensures match Collect(config, old(View()), node, reports, fits, now)
              case Ok(s) => View() == s && r == Ok(AckIds(reports))
              case Err(code) => View() == old(View()) && r == Err(code)
    {
      if node == NO_ID || |reports| > MAX_OUTCOMES_PER_READ || !fits { return Err(Invalid); }
      var docs0, receipts0, next0 := docs, receipts, next;
      ghost var log0, placed0, acked0 := log, placed, acked;
      var acks: seq<Id> := [];
      var i := 0;
      assert reports[0..] == reports;
      while i < |reports|
        invariant i <= |reports|
        invariant RecordAll(config, View(), node, reports[i..]) == RecordAll(config, old(View()), node, reports)
        invariant acks + AckIds(reports[i..]) == AckIds(reports)
      {
        assert reports[i..][0] == reports[i] && reports[i..][1..] == reports[i + 1..];
        var one := RecordOutcome(node, reports[i]);
        if one.Err? {
          docs, receipts, next := docs0, receipts0, next0;
          log, placed, acked := log0, placed0, acked0;
          return Err(one.error);
        }
        if one.value.Some? { acks := acks + [one.value.value]; }
        i := i + 1;
      }
      assert acks == AckIds(reports);
      ExpireUnawaitedReceipts(node, now);
      return Ok(acks);
    }
  }

  function AckIds(reports: seq<Report>): seq<Id> {
    if reports == [] then []
    else (if reports[0].outcome.Terminal() then [reports[0].outcome.event] else []) + AckIds(reports[1..])
  }

  /** The event of this report is acknowledged. */
  predicate Acknowledges(r: Report, event: Id) { r.outcome.state != Running && r.outcome.event == event }

  /** A batch acknowledges the events of its terminal outcomes, and no others. */
  lemma {:induction false} AckIdsExactly(reports: seq<Report>, event: Id)
    ensures event in AckIds(reports) <==> exists r :: r in reports && Acknowledges(r, event)
    decreases |reports|
  {
    if reports != [] {
      AckIdsExactly(reports[1..], event);
      assert reports == [reports[0]] + reports[1..];
      assert forall r :: r in reports <==> r == reports[0] || r in reports[1..];
      assert event in AckIds(reports) <==> Acknowledges(reports[0], event) || event in AckIds(reports[1..]);
    }
  }

  // ------------------------------------------------------------------ the collector

  /** A node and the terminal outcomes it has not seen acknowledged. */
  class Node {
    const id: Id
    var pending: seq<Outcome>

    constructor (id: Id, pending: seq<Outcome>)
      ensures this.id == id && this.pending == pending
    {
      this.id, this.pending := id, pending;
    }

    method Acknowledged(events: seq<Id>)
      modifies this
      ensures forall o :: o in old(pending) && o.event !in events ==> o in pending
      ensures forall o :: o in pending ==> o in old(pending) && o.event !in events
    {
      var rest: seq<Outcome> := [];
      for i := 0 to |pending|
        invariant pending == old(pending)
        invariant forall o :: o in pending[..i] && o.event !in events ==> o in rest
        invariant forall o :: o in rest ==> o in pending && o.event !in events
      {
        if pending[i].event !in events { rest := rest + [pending[i]]; }
      }
      assert pending[..|pending|] == pending;
      pending := rest;
    }
  }

  /** Every id a batch returns was acknowledged by the step that stored the batch. */
  lemma {:induction false} AckedByBatch(c: Config, s: System, node: Id, reports: seq<Report>)
    requires RecordAll(c, s, node, reports).Ok?
    ensures s.acked <= RecordAll(c, s, node, reports).value.acked
    ensures forall e :: e in AckIds(reports) ==> Ack(node, e) in RecordAll(c, s, node, reports).value.acked
    decreases |reports|
  {
    if reports != [] {
      AckedByBatch(c, RecordOne(c, s, node, reports[0]).value, node, reports[1..]);
    }
  }

  /**
   One collection round: read, commit, then acknowledge.  `read` and `acked` say whether the two messages got
   through.  Whatever the node answers, an outcome leaves it only after the store has committed its receipt; when all
   three steps succeed, exactly the acknowledged events are gone.
   */
  method CollectNodeCommandOutcomes(store: Store, node: Node, batch: seq<Report>, read: bool, acked: bool, fits: bool, now: int)
    modifies store, node
    ensures store.View() == (if !read then old(store.View())
                             else After(store.config, old(store.View()), CollectStep(node.id, batch, fits, now)))
    ensures forall o :: o in old(node.pending) ==> o in node.pending || Ack(node.id, o.event) in store.View().acked
    ensures read && acked && Collect(store.config, old(store.View()), node.id, batch, fits, now).Ok?
      ==> forall o :: o in node.pending <==> o in old(node.pending) && o.event !in AckIds(batch)
    ensures !(read && acked && Collect(store.config, old(store.View()), node.id, batch, fits, now).Ok?)
      ==> node.pending == old(node.pending)
  {
    if !read { return; }
    var r := store.RecordCommandOutcomes(node.id, batch, fits, now);
    if r.Err? { return; }
    AckedByBatch(store.config, old(store.View()), node.id, batch);
    if |r.value| == 0 || !acked { return; }
    node.Acknowledged(r.value);
  }
}
