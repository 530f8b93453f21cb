/**
 What a node's reports do: which are accepted, where their outcomes go, in which order stored ones are read, and that no wake
 outgrows its batch.
 */
module ContinuationReports {
  import opened Wrappers
  import opened ContinuationModel
  import opened ContinuationSpec
  import opened ContinuationInvariant
  import opened ContinuationSystem
  import opened ContinuationSaving
  import opened ContinuationOnce
  import opened ContinuationRuns
  import opened ContinuationEndpoint
  import opened ContinuationLaws
  import opened ContinuationFates

  // ------------------------------------------------------------------ one report

  /** The Target is known and may still take the outcome. */
  predicate Live(c: Config, r: Report) {
    r.found && TargetKey(r.outcome.session, r.outcome.target) in c.targets && r.outcome.session in c.owners
  }

  /** A row for this event, or for this command, of the node. */
  predicate EventKnown(table: seq<Receipt>, node: Id, event: Id) {
    exists i :: 0 <= i < |table| && table[i].node == node && table[i].event == event
  }

  predicate CommandKnown(table: seq<Receipt>, node: Id, command: Id) {
    exists i :: 0 <= i < |table| && table[i].node == node && table[i].command == command
  }

  /** The first row of the event holds the same outcome. */
  predicate SameAgain(table: seq<Receipt>, node: Id, o: Outcome) {
    exists i :: 0 <= i < |table| && FirstOf(table, node, o.event, i) && table[i].hash == o.(pendingReport := false)
  }

  predicate FirstOf(table: seq<Receipt>, node: Id, event: Id, i: nat)
    requires i < |table|
  {
    table[i].node == node && table[i].event == event && forall j :: 0 <= j < i ==> !(table[j].node == node && table[j].event == event)
  }

  lemma KnownMeans(table: seq<Receipt>, node: Id, o: Outcome)
    ensures EventKnown(table, node, o.event) <==> EventRow(table, node, o.event) < |table|
    ensures CommandKnown(table, node, o.command) <==> CommandRow(table, node, o.command) < |table|
    ensures SameAgain(table, node, o) <==>
      EventRow(table, node, o.event) < |table| && table[EventRow(table, node, o.event)].hash == o.(pendingReport := false)
  {
    var i := EventRow(table, node, o.event);
    if i < |table| { assert FirstOf(table, node, o.event, i); }
  }

  /**
   A terminal outcome is recorded exactly when it is not too long, has all its ids, comes from the node that serves its live
   Target, and is either the one recorded for its event or new in event and command.
   */
  lemma RecordExactly(c: Config, s: System, node: Id, r: Report)
    requires r.outcome.state != Running
    ensures var o := r.outcome;
      RecordOne(c, s, node, r).Ok? <==>
        !o.oversized && o.event != 0 && o.command != 0 && o.deploymentRevision != 0 && o.contextRevision != 0 &&
        (Live(c, r) ==> c.targets[TargetKey(o.session, o.target)] == TargetRow(node, o.project, o.deployment)) &&
        if EventKnown(s.receipts, node, o.event) then SameAgain(s.receipts, node, o) else !CommandKnown(s.receipts, node, o.command)
  {
    KnownMeans(s.receipts, node, r.outcome);
  }

  /** A new outcome is appended to the table, with its payload only for a live Target; a known one changes nothing. Both are acknowledged. */
  lemma RecordLeaves(c: Config, s: System, node: Id, r: Report)
    requires r.outcome.state != Running && RecordOne(c, s, node, r).Ok?
    ensures var (o, t) := (r.outcome.(pendingReport := false), RecordOne(c, s, node, r).value);
      t.acked == s.acked + {Ack(node, o.event)} && t.log == s.log &&
      if EventKnown(s.receipts, node, o.event) then t == s.(acked := t.acked)
      else if !Live(c, r) then
        t.docs == s.docs && t.receipts == s.receipts + [Receipt(node, o.event, o.session, o.target, o.command, o, None, r.now, Detached)]
      else
        (forall other :: other != o.session ==> (other in t.docs <==> other in s.docs) && (other in s.docs ==> t.docs[other] == s.docs[other])) &&
        o.session in t.docs && |t.receipts| == |s.receipts| + 1 &&
        t.docs[o.session] == Stamped(Compact(Merge(Expire(Load(s, o.session), r.now), o, r.now, s.next).0), r.now)
  {
    KnownMeans(s.receipts, node, r.outcome);
  }

  // ------------------------------------------------------------------ reading order

  /** Earlier received first; of those received together, the smaller event first. */
  predicate ReadBefore(table: seq<Receipt>, x: nat, y: nat)
    requires x < |table| && y < |table|
  {
    table[x].receivedAt < table[y].receivedAt || (table[x].receivedAt == table[y].receivedAt && table[x].event <= table[y].event)
  }

  predicate InTable(table: seq<Receipt>, rows: seq<nat>) { forall i :: 0 <= i < |rows| ==> rows[i] < |table| }

  predicate Ordered(table: seq<Receipt>, rows: seq<nat>)
    requires InTable(table, rows)
  {
    forall i, j :: 0 <= i < j < |rows| ==> ReadBefore(table, rows[i], rows[j]) && rows[i] != rows[j]
  }

  lemma {:induction false} InsertOrdered(table: seq<Receipt>, order: seq<nat>, x: nat)
    requires InTable(table, order) && Ordered(table, order) && x < |table| && x !in order
    requires forall y :: y in order ==> y < |table|
    ensures var r := Insert(table, order, x); InTable(table, r) && Ordered(table, r) && |r| == |order| + 1
    decreases |order|
  {
    var r := Insert(table, order, x);
    forall i | 0 <= i < |r| ensures r[i] < |table| { assert r[i] in r; }
    if order != [] {
      TailOrdered(table, order);
      if Before(table[x], table[order[0]]) {
        forall j | 0 <= j < |order| ensures ReadBefore(table, x, order[j]) && x != order[j] {
          assert order[j] in order;
        }
        InFront(table, x, order);
      } else {
        InsertOrdered(table, order[1..], x);
        var t := Insert(table, order[1..], x);
        forall j | 0 <= j < |t| ensures ReadBefore(table, order[0], t[j]) && order[0] != t[j] { assert t[j] in t; }
        InFront(table, order[0], t);
      }
    }
  }

  lemma RowsInTable(table: seq<Receipt>, session: Id, n: nat)
    requires n <= |table|
    ensures InTable(table, EligibleRows(table, session, n)) && n !in EligibleRows(table, session, n)
  {
    var rows := EligibleRows(table, session, n);
    forall i | 0 <= i < |rows| ensures rows[i] < |table| { assert rows[i] in rows; }
  }

  lemma {:induction false} RowsOrdered(table: seq<Receipt>, session: Id, n: nat)
    requires n <= |table|
    ensures var rows := EligibleRows(table, session, n); InTable(table, rows) && Ordered(table, rows)
    decreases n
  {
    RowsInTable(table, session, n);
    if n > 0 {
      RowsInTable(table, session, n - 1);
      RowsOrdered(table, session, n - 1);
      if StoredFor(table[n - 1], session) {
        InsertOrdered(table, EligibleRows(table, session, n - 1), n - 1);
      }
    }
  }

  /** The payloads of these rows, one after the other. */
  predicate Payloads(table: seq<Receipt>, rows: seq<nat>, os: Outcomes)
    requires InTable(table, rows)
  {
    |rows| == |os| && forall i :: 0 <= i < |rows| ==> table[rows[i]].outcome == Some(os[i])
  }

  /** A row that is read before all of a list goes in front of it. */
  lemma InFront(table: seq<Receipt>, x: nat, rest: seq<nat>)
    requires x < |table| && InTable(table, rest) && Ordered(table, rest)
    requires forall j :: 0 <= j < |rest| ==> ReadBefore(table, x, rest[j]) && x != rest[j]
    ensures InTable(table, [x] + rest) && Ordered(table, [x] + rest)
  {
    var all := [x] + rest;
    forall i, j | 0 <= i < j < |all| ensures ReadBefore(table, all[i], all[j]) && all[i] != all[j] {
      if i == 0 { assert all[j] == rest[j - 1]; } else { assert all[i] == rest[i - 1] && all[j] == rest[j - 1]; }
    }
  }

  /** The tail of an ordered list, and what its head has to do with it. */
  lemma TailOrdered(table: seq<Receipt>, rows: seq<nat>)
    requires rows != [] && InTable(table, rows) && Ordered(table, rows)
    ensures InTable(table, rows[1..]) && Ordered(table, rows[1..])
    ensures forall y :: y in rows[1..] ==> y < |table| && ReadBefore(table, rows[0], y) && rows[0] != y
    ensures forall y :: y in rows <==> y == rows[0] || y in rows[1..]
  {
    forall y | y in rows[1..] ensures y < |table| && ReadBefore(table, rows[0], y) && rows[0] != y {
      var k :| 0 <= k < |rows[1..]| && rows[1..][k] == y;
      assert rows[k + 1] == y;
    }
    assert rows == [rows[0]] + rows[1..];
  }

  lemma {:induction false} PayloadsOf(table: seq<Receipt>, rows: seq<nat>) returns (full: seq<nat>)
    requires InTable(table, rows) && Ordered(table, rows) && forall y :: y in rows ==> y < |table|
    ensures InTable(table, full) && Ordered(table, full) && Payloads(table, full, OutcomesOf(table, rows))
    ensures forall y :: y in full <==> y in rows && table[y].outcome.Some?
    decreases |rows|
  {
    if rows == [] {
      full := [];
    } else {
      TailOrdered(table, rows);
      var rest := PayloadsOf(table, rows[1..]);
      full := rest;
      if table[rows[0]].outcome.Some? {
        forall j | 0 <= j < |rest| ensures ReadBefore(table, rows[0], rest[j]) && rows[0] != rest[j] { assert rest[j] in rest; }
        InFront(table, rows[0], rest);
        full := [rows[0]] + rest;
        MorePayloads(table, rows[0], rest, OutcomesOf(table, rows[1..]));
      }
    }
  }

  lemma MorePayloads(table: seq<Receipt>, x: nat, rows: seq<nat>, os: Outcomes)
    requires InTable(table, rows) && Payloads(table, rows, os) && x < |table| && table[x].outcome.Some? && InTable(table, [x] + rows)
    ensures Payloads(table, [x] + rows, [table[x].outcome.value] + os)
  {
  }

  /** The rows whose payloads are read for a session. */
  predicate ReadFor(r: Receipt, session: Id) { r.session == session && r.eligible == Eligible && r.outcome.Some? }

  /** Stored outcomes are read once each, by the time they were received and then by event. */
  lemma StoredInOrder(table: seq<Receipt>, session: Id) returns (rows: seq<nat>)
    ensures InTable(table, rows) && Ordered(table, rows) && Payloads(table, rows, StoredOutcomes(table, session))
    ensures forall y: nat :: y < |table| ==> (y in rows <==> ReadFor(table[y], session))
  {
    RowsOrdered(table, session, |table|);
    rows := PayloadsOf(table, EligibleRows(table, session, |table|));
  }

  // ------------------------------------------------------------------ batches

  /** At most 32 outcomes, and more than one only within one MiB. */
  predicate WithinBatch(sources: Outcomes) { |sources| <= 32 && (|sources| > 1 ==> Length(sources) <= 1_048_576) }

  predicate Batched(d: Doc) { forall i :: 0 <= i < |d.wakes| ==> WithinBatch(d.wakes[i].sources) }

  /** No wake's outcomes change. */
  predicate SameSources(d: Doc, d': Doc) {
    |d'.wakes| == |d.wakes| && forall i :: 0 <= i < |d.wakes| ==> d'.wakes[i].sources == d.wakes[i].sources
  }

  lemma MergeBatched(d: Doc, o: Outcome, now: int, next: Id)
    requires Batched(d)
    ensures Batched(Merge(d, o, now, next).0)
  {
    MergeExactly(d, o, now, next);
  }

  lemma {:induction false} MergeAllBatched(d: Doc, os: Outcomes, now: int, next: Id)
    requires Batched(d)
    ensures Batched(MergeAll(d, os, now, next).0)
    decreases |os|
  {
    if os != [] {
      MergeBatched(d, os[0], now, next);
      var (d1, n1) := Merge(d, os[0], now, next);
      MergeAllBatched(d1, os[1..], now, n1);
    }
  }

  lemma {:induction false} ExpirySources(d: Doc, i: nat, now: int)
    requires i <= |d.wakes|
    ensures SameSources(d, ExpireFrom(d, i, now))
    decreases |d.wakes| - i
  {
    if i < |d.wakes| { ExpirySources(ExpireWake(d, i, now), i + 1, now); }
  }

  lemma ControlBatched(d: Doc, input: ControlInput, targets: Targets, table: seq<Receipt>, now: int, next: Id)
    requires Batched(d) && Control(d, input, targets, table, now, next).Ok?
    ensures Batched(Control(d, input, targets, table, now, next).value.doc)
  {
    match input.action
    case Await =>
      MergeAllBatched(d.(state := d.state.(sources := input.sources, phase := Waiting)), StoredOutcomes(table, d.state.session), now, next);
    case Recover => RecoverExactly(d, input, targets, table, now, next);
    case Settle => SettledLeaves(d, input, targets, table, now, next);
    case Enable =>
    case Pause =>
    case Status =>
    case UnknownControl =>
  }

  lemma ControllerBatched(d: Doc, input: ControllerInput, targets: Targets, now: int, next: Id)
    requires Batched(d) && Controller(d, input, targets, now, next).Ok?
    ensures Batched(Controller(d, input, targets, now, next).value.doc)
  {
    match input.action
    case Acquire => assert AcquireWake(d, input, targets, now, next).Ok?;
    case Prepare => PreparedLeaves(d, input, targets, now, next);
    case Finish =>
      if FirstReport(d, input) { FirstReportLeaves(d, input, targets, now, next); } else { OtherReportLeaves(d, input, targets, now, next); }
    case Bind => BindExactly(d, input, targets, now, next);
    case Heartbeat =>
    case ViewPause =>
    case ViewState =>
    case UnknownController =>
  }

  lemma HandleBatched(d: Doc, q: Request, targets: Targets, table: seq<Receipt>, now: int, next: Id)
    requires Batched(d) && Handle(d, q, targets, table, now, next).Ok?
    ensures Batched(Handle(d, q, targets, table, now, next).value.doc)
  {
    match q
    case ControlRequest(_, input) => ControlBatched(d, input, targets, table, now, next);
    case ControllerRequest(_, input) => ControllerBatched(d, input, targets, now, next);
    case PresentRequest(_, recover) => PresentExactly(d, recover, now, next);
    case ConsumeRequest(e) =>
  }

  lemma SavedBatched(d: Doc, now: int)
    requires DocInv(d) && Batched(d)
    ensures Batched(Stamped(Compact(d), now))
  {
    var d' := Stamped(Compact(d), now);
    forall j | 0 <= j < |d'.wakes| ensures WithinBatch(d'.wakes[j].sources) {
      var i := CompactedFrom(d, j);
    }
  }

  ghost predicate AllBatched(s: System) { forall session :: session in s.docs ==> Batched(s.docs[session]) }

  lemma ExpiryBatched(d: Doc, now: int)
    requires Batched(d)
    ensures Batched(Stamped(Expire(d, now), now))
  {
    ExpirySources(d, 0, now);
  }

  lemma AskBatched(c: Config, s: System, owner: Id, q: Request, targets: Targets, now: int)
    requires OnceInv(c, s) && AllBatched(s) && Ask(c, s, owner, q, targets, now).Ok?
    ensures AllBatched(Ask(c, s, owner, q, targets, now).value.0)
  {
    var d := Load(s, q.Session());
    assert Batched(d);
    LoadOk(c, s, q.Session());
    var d1 := Stamped(Expire(d, now), now);
    ExpireKeeps(d, now, s.next, NO_ID);
    HandleKeeps(d1, q, targets, s.receipts, now, s.next);
    ExpiryBatched(d, now);
    HandleBatched(d1, q, targets, s.receipts, now, s.next);
    SavedBatched(Handle(d1, q, targets, s.receipts, now, s.next).value.doc, now);
  }

  lemma PlaceBatched(c: Config, s: System, node: Id, o: Outcome, now: int)
    requires OnceInv(c, s) && AllBatched(s)
    ensures AllBatched(Place(c, s, node, o, now))
  {
    var d := Load(s, o.session);
    LoadOk(c, s, o.session);
    MergeAfterExpiry(d, o, now, s.next);
    ExpirySources(d, 0, now);
    assert Batched(d);
    MergeBatched(Expire(d, now), o, now, s.next);
    SavedBatched(Merge(Expire(d, now), o, now, s.next).0, now);
  }

  lemma RecordOneBatched(c: Config, s: System, node: Id, r: Report)
    requires OnceInv(c, s) && AllBatched(s) && RecordOne(c, s, node, r).Ok?
    ensures AllBatched(RecordOne(c, s, node, r).value)
  {
    if RecordOne(c, s, node, r).value.docs != s.docs { PlaceBatched(c, s, node, r.outcome.(pendingReport := false), r.now); }
  }

  lemma {:induction false} CollectBatched(c: Config, s: System, node: Id, reports: seq<Report>)
    requires OnceInv(c, s) && AllBatched(s) && RecordAll(c, s, node, reports).Ok?
    ensures AllBatched(RecordAll(c, s, node, reports).value)
    decreases |reports|
  {
    if reports != [] {
      RecordOneKeeps(c, s, node, reports[0]);
      RecordOneBatched(c, s, node, reports[0]);
      CollectBatched(c, RecordOne(c, s, node, reports[0]).value, node, reports[1..]);
    }
  }

  /** Main result: over every run no wake holds more than 32 outcomes, or more than one MiB of several. */
  lemma {:induction false} NoWakeOutgrowsItsBatch(c: Config, steps: seq<Step>)
    ensures AllBatched(Run(c, Start(), steps))
    decreases |steps|
  {
    if steps != [] {
      var n := |steps| - 1;
      var s := Run(c, Start(), steps[..n]);
      NoWakeOutgrowsItsBatch(c, steps[..n]);
      RunKeepsOnce(c, steps[..n]);
      match steps[n]
      case AskStep(owner, q, targets, now) => if Ask(c, s, owner, q, targets, now).Ok? { AskBatched(c, s, owner, q, targets, now); }
      case CollectStep(node, reports, fits, now) => if Collect(c, s, node, reports, fits, now).Ok? { CollectBatched(c, s, node, reports); }
    }
  }

  // ------------------------------------------------------------------ a batch

  /** A batch is taken exactly from a named node, with at most 32 reports, within its size, and when every report is recorded. */
  lemma CollectExactly(c: Config, s: System, node: Id, reports: seq<Report>, fits: bool, now: int)
    ensures Collect(c, s, node, reports, fits, now).Ok? <==>
      node != 0 && |reports| <= 32 && fits && RecordAll(c, s, node, reports).Ok?
    ensures Collect(c, s, node, reports, fits, now).Err? ==> After(c, s, CollectStep(node, reports, fits, now)) == s
  {
  }
}
