/**
 At-most-once dispatch and consumption over every run, the fate of an outstanding envelope, and the
 accounting of rounds and failures.
 */
module ContinuationDispatch {
  import opened Wrappers
  import opened ContinuationModel
  import opened ContinuationSpec
  import opened ContinuationInvariant
  import opened ContinuationSteps
  import opened ContinuationSaving
  import opened ContinuationPlacement
  import opened ContinuationSystem
  import opened ContinuationOnce
  import opened ContinuationRuns

  // ------------------------------------------------------------------ what a log entry says about a document

  /** The dispatched wake is fenced and frozen, and until it is settled its envelope still matches. */
  ghost predicate DispatchOk(d: Doc, i: nat, e: Envelope, sources: Outcomes)
    requires i < |d.wakes|
  {
    var w := d.wakes[i];
    var k := Latest(d.attempts, w.id);
    && !w.state.Unfenced() && w.sources == sources
    && (!w.state.Settled? ==>
          && k >= 0
          && e.endpoint == d.endpoint.id && e.generation == d.endpoint.generation
          && e.attempt == d.attempts[k].value.id
          && (!w.state.TakenOver() ==> d.attempts[k].consumeHash == DigestOf(e.token)))
  }

  ghost predicate EntryOk(d: Doc, event: Event) {
    match event
    case Dispatched(_, e, sources) =>
      e.protocolVersion == 1 && e.token != NO_ID &&
      (Find(d.wakes, e.wake) < |d.wakes| ==> DispatchOk(d, Find(d.wakes, e.wake), e, sources))
    case Consumption(_, wake, _) => Find(d.wakes, wake) < |d.wakes| ==> d.wakes[Find(d.wakes, wake)].state.TakenOver()
    case Recovered(_) => true
  }

  function WakeOf(event: Event): Id {
    match event
    case Dispatched(_, e, _) => e.wake
    case Consumption(_, wake, _) => wake
    case Recovered(_) => NO_ID
  }

  /** An entry stays true of the document it evolves into. */
  lemma EntryEvolves(d: Doc, d1: Doc, next: Id, next': Id, fenced: Id, event: Event)
    requires DocInv(d) && Keeps(d, d1, next, next', fenced) && EntryOk(d, event) && WakeOf(event) < next
    ensures EntryOk(d1, event)
  {
    var i := Find(d1.wakes, WakeOf(event));
    if i < |d1.wakes| && !event.Recovered? {
      assert i < |d.wakes|;
      assert WakeEvolves(d.wakes[i], d1.wakes[i], fenced) && CredentialKept(d, d1, i);
      FindAt(d.wakes, i);
    }
  }

  lemma EntryCompacts(d: Doc, next: Id, event: Event)
    requires DocInv(d) && Below(d, next) && EntryOk(d, event)
    ensures EntryOk(Compact(d), event)
  {
    var j := Find(Compact(d).wakes, WakeOf(event));
    if j < |Compact(d).wakes| && !event.Recovered? {
      var i := CompactedFrom(d, j);
    }
  }

  lemma EntryStamped(d: Doc, now: int, event: Event)
    requires EntryOk(d, event)
    ensures EntryOk(Stamped(d, now), event)
  {
  }

  // ------------------------------------------------------------------ the log as a whole

  ghost predicate SameDispatch(a: Event, b: Event) {
    a.Dispatched? && b.Dispatched? && a.session == b.session && a.envelope.wake == b.envelope.wake
  }

  ghost predicate SameConsumption(a: Event, b: Event) {
    a.Consumption? && b.Consumption? && a.session == b.session && a.wake == b.wake
  }

  ghost predicate NoRepeats(log: seq<Event>) {
    forall i, j :: 0 <= i < j < |log| ==> !SameDispatch(log[i], log[j]) && !SameConsumption(log[i], log[j])
  }

  ghost predicate DispatchOf(a: Event, session: Id, wake: Id) {
    a.Dispatched? && a.session == session && a.envelope.wake == wake
  }

  /** What was consumed is what an earlier dispatch of that wake had validated. */
  ghost predicate ConsumedAsDispatched(log: seq<Event>) {
    forall j :: 0 <= j < |log| && log[j].Consumption? ==>
      exists i :: 0 <= i < j && DispatchOf(log[i], log[j].session, log[j].wake) && log[i].sources == log[j].outcomes
  }

  ghost predicate Logged(log: seq<Event>, session: Id, wake: Id) {
    exists j :: 0 <= j < |log| && DispatchOf(log[j], session, wake)
  }

  lemma LoggedMore(log: seq<Event>, events: seq<Event>, session: Id, wake: Id)
    requires Logged(log, session, wake) || Logged(events, session, wake)
    ensures Logged(log + events, session, wake)
  {
    var all := log + events;
    if Logged(log, session, wake) {
      var j :| 0 <= j < |log| && DispatchOf(log[j], session, wake);
      assert all[j] == log[j];
    } else {
      var j :| 0 <= j < |events| && DispatchOf(events[j], session, wake);
      assert all[|log| + j] == events[j];
    }
  }

  ghost predicate EveryDispatchLogged(d: Doc, session: Id, log: seq<Event>) {
    forall i :: 0 <= i < |d.wakes| && d.wakes[i].state.Blocked() ==> Logged(log, session, d.wakes[i].id)
  }

  /** Dispatches since the last recovery of the session. */
  function RoundsSince(log: seq<Event>, session: Id): nat {
    if log == [] then 0
    else
      var rest, last := log[..|log| - 1], log[|log| - 1];
      if last.session != session then RoundsSince(rest, session)
      else match last
        case Recovered(_) => 0
        case Dispatched(_, _, _) => RoundsSince(rest, session) + 1
        case Consumption(_, _, _) => RoundsSince(rest, session)
  }

  ghost predicate LogInv(s: System) {
    && NoRepeats(s.log)
    && ConsumedAsDispatched(s.log)
    && (forall i :: 0 <= i < |s.log| ==>
          s.log[i].session in s.docs && WakeOf(s.log[i]) < s.next && EntryOk(s.docs[s.log[i].session], s.log[i]))
    && (forall session :: session in s.docs ==>
          EveryDispatchLogged(s.docs[session], session, s.log) &&
          s.docs[session].state.roundsUsed == RoundsSince(s.log, session))
  }

  // ------------------------------------------------------------------ what one transaction logs

  /** An event of a transaction, judged against the document before it and the document it saves. */
  ghost predicate EventFits(d: Doc, d1: Doc, session: Id, next: Id, e: Event) {
    var i := Find(d.wakes, WakeOf(e));
    && e.session == session && WakeOf(e) < next && EntryOk(d1, e)
    && (e.Dispatched? ==> i < |d.wakes| && d.wakes[i].state.Unfenced())
    && (e.Consumption? ==> i < |d.wakes| && d.wakes[i].state.Blocked() && !d.wakes[i].state.TakenOver() && d.wakes[i].sources == e.outcomes)
  }

  ghost predicate EventsFit(s: System, session: Id, d1: Doc, next: Id, events: seq<Event>) {
    var d := Load(s, session);
    && |events| <= 1
    && (forall e :: e in events ==> EventFits(d, d1, session, next, e))
    && d1.state.roundsUsed == (if events == [] || events[0].Consumption? then d.state.roundsUsed
                               else if events[0].Recovered? then 0 else d.state.roundsUsed + 1)
  }

  ghost predicate FencedLogged(session: Id, fenced: Id, events: seq<Event>) {
    fenced != NO_ID ==> Logged(events, session, fenced)
  }

  lemma {:induction false} RoundsAppend(log: seq<Event>, events: seq<Event>, session: Id)
    requires |events| <= 1
    ensures RoundsSince(log + events, session) ==
              if events == [] || events[0].session != session || events[0].Consumption? then RoundsSince(log, session)
              else if events[0].Recovered? then 0 else RoundsSince(log, session) + 1
  {
    if events == [] {
      assert log + events == log;
    } else {
      assert (log + events)[..|log + events| - 1] == log;
    }
  }

  lemma {:induction false} RoundsOfNobody(log: seq<Event>, session: Id)
    requires forall i :: 0 <= i < |log| ==> log[i].session != session
    ensures RoundsSince(log, session) == 0
  {
    if log != [] { RoundsOfNobody(log[..|log| - 1], session); }
  }

  lemma OldEntryKept(c: Config, s: System, session: Id, d1: Doc, table: seq<Receipt>, now: int, next: Id, fenced: Id, events: seq<Event>, i: nat)
    requires OnceInv(c, s) && LogInv(s) && Keeps(Load(s, session), d1, s.next, next, fenced) && i < |s.log|
    ensures var s' := Save(s, session, d1, table, now, next, events);
            EntryOk(s'.docs[s.log[i].session], s.log[i])
  {
    if s.log[i].session == session {
      LoadOk(c, s, session);
      EntryEvolves(s.docs[session], d1, s.next, next, fenced, s.log[i]);
      EntryCompacts(d1, next, s.log[i]);
      EntryStamped(Compact(d1), now, s.log[i]);
    }
  }

  lemma NewEntryUnrepeated(s: System, session: Id, d1: Doc, next: Id, events: seq<Event>)
    requires LogInv(s) && EventsFit(s, session, d1, next, events)
    ensures NoRepeats(s.log + events)
  {
    var log := s.log + events;
    forall i, j | 0 <= i < j < |log| ensures !SameDispatch(log[i], log[j]) && !SameConsumption(log[i], log[j]) {
      if j == |s.log| {
        assert log[j] in events && log[i] == s.log[i];
        assert EntryOk(s.docs[s.log[i].session], s.log[i]);
      } else {
        assert log[i] == s.log[i] && log[j] == s.log[j];
      }
    }
  }

  /** The dispatch behind an unresolved wake, with the outcomes it validated. */
  lemma DispatchBehind(c: Config, s: System, session: Id, k: nat) returns (i: nat)
    requires OnceInv(c, s) && LogInv(s) && session in s.docs
    requires k < |s.docs[session].wakes| && s.docs[session].wakes[k].state.Blocked()
    ensures i < |s.log| && DispatchOf(s.log[i], session, s.docs[session].wakes[k].id)
    ensures s.log[i].sources == s.docs[session].wakes[k].sources
  {
    var d := s.docs[session];
    assert SessionOk(s, session) && EveryDispatchLogged(d, session, s.log);
    i :| 0 <= i < |s.log| && DispatchOf(s.log[i], session, d.wakes[k].id);
    FindAt(d.wakes, k);
    assert EntryOk(s.docs[s.log[i].session], s.log[i]);
  }

  lemma NewConsumptionDispatched(c: Config, s: System, session: Id, d1: Doc, next: Id, events: seq<Event>)
    requires OnceInv(c, s) && LogInv(s) && EventsFit(s, session, d1, next, events)
    ensures ConsumedAsDispatched(s.log + events)
  {
    var log := s.log + events;
    forall j | 0 <= j < |log| && log[j].Consumption?
      ensures exists i :: 0 <= i < j && DispatchOf(log[i], log[j].session, log[j].wake) && log[i].sources == log[j].outcomes
    {
      if j == |s.log| {
        assert log[j] in events;
        var i := DispatchBehind(c, s, session, Find(Load(s, session).wakes, log[j].wake));
        assert log[i] == s.log[i];
      } else {
        assert log[j] == s.log[j];
        var i :| 0 <= i < j && DispatchOf(s.log[i], s.log[j].session, s.log[j].wake) && s.log[i].sources == s.log[j].outcomes;
        assert log[i] == s.log[i];
      }
    }
  }

  lemma WakeStillLogged(d: Doc, d1: Doc, next: Id, next': Id, fenced: Id, session: Id, log: seq<Event>, events: seq<Event>, i: nat)
    requires Keeps(d, d1, next, next', fenced) && EveryDispatchLogged(d, session, log) && FencedLogged(session, fenced, events)
    requires i < |d1.wakes| && d1.wakes[i].state.Blocked()
    ensures Logged(log + events, session, d1.wakes[i].id)
  {
    assert i < |d.wakes| && WakeEvolves(d.wakes[i], d1.wakes[i], fenced);
    LoggedMore(log, events, session, d1.wakes[i].id);
  }

  lemma BlockedStillLogged(c: Config, s: System, session: Id, d1: Doc, table: seq<Receipt>, now: int, next: Id, fenced: Id, events: seq<Event>)
    requires OnceInv(c, s) && LogInv(s) && Keeps(Load(s, session), d1, s.next, next, fenced)
    requires FencedLogged(session, fenced, events)
    ensures var s' := Save(s, session, d1, table, now, next, events);
            EveryDispatchLogged(s'.docs[session], session, s'.log)
  {
    var d, d2 := Load(s, session), Stamped(Compact(d1), now);
    assert EveryDispatchLogged(d, session, s.log);
    forall j | 0 <= j < |d2.wakes| && d2.wakes[j].state.Blocked() ensures Logged(s.log + events, session, d2.wakes[j].id) {
      var i := CompactedFrom(d1, j);
      WakeStillLogged(d, d1, s.next, next, fenced, session, s.log, events, i);
    }
  }

  lemma SavedEntryOk(c: Config, s: System, session: Id, d1: Doc, table: seq<Receipt>, now: int, next: Id, fenced: Id, events: seq<Event>, i: nat)
    requires OnceInv(c, s) && LogInv(s) && Keeps(Load(s, session), d1, s.next, next, fenced)
    requires EventsFit(s, session, d1, next, events) && i < |s.log + events|
    ensures var s' := Save(s, session, d1, table, now, next, events);
            s'.log[i].session in s'.docs && WakeOf(s'.log[i]) < s'.next && EntryOk(s'.docs[s'.log[i].session], s'.log[i])
  {
    if i < |s.log| {
      assert (s.log + events)[i] == s.log[i];
      OldEntryKept(c, s, session, d1, table, now, next, fenced, events, i);
    } else {
      var e := (s.log + events)[i];
      assert e in events;
      EntryCompacts(d1, next, e);
      EntryStamped(Compact(d1), now, e);
    }
  }

  lemma SavedRounds(s: System, session: Id, d1: Doc, table: seq<Receipt>, now: int, next: Id, events: seq<Event>, other: Id)
    requires LogInv(s) && EventsFit(s, session, d1, next, events)
    requires other in s.docs || other == session
    ensures var s' := Save(s, session, d1, table, now, next, events);
            s'.docs[other].state.roundsUsed == RoundsSince(s'.log, other)
  {
    RoundsAppend(s.log, events, other);
    if events != [] { assert events[0] in events; }
    if other !in s.docs { RoundsOfNobody(s.log, session); }
  }

  lemma SaveKeepsLog(c: Config, s: System, session: Id, d1: Doc, table: seq<Receipt>, now: int, next: Id, fenced: Id, events: seq<Event>)
    requires OnceInv(c, s) && LogInv(s) && Keeps(Load(s, session), d1, s.next, next, fenced)
    requires EventsFit(s, session, d1, next, events) && FencedLogged(session, fenced, events)
    ensures LogInv(Save(s, session, d1, table, now, next, events))
  {
    var s' := Save(s, session, d1, table, now, next, events);
    NewEntryUnrepeated(s, session, d1, next, events);
    NewConsumptionDispatched(c, s, session, d1, next, events);
    forall i | 0 <= i < |s'.log|
      ensures s'.log[i].session in s'.docs && WakeOf(s'.log[i]) < s'.next && EntryOk(s'.docs[s'.log[i].session], s'.log[i])
    {
      SavedEntryOk(c, s, session, d1, table, now, next, fenced, events, i);
    }
    forall other | other in s'.docs
      ensures EveryDispatchLogged(s'.docs[other], other, s'.log) && s'.docs[other].state.roundsUsed == RoundsSince(s'.log, other)
    {
      SavedRounds(s, session, d1, table, now, next, events, other);
      if other == session {
        BlockedStillLogged(c, s, session, d1, table, now, next, fenced, events);
      } else {
        OtherStillLogged(s, other, events);
      }
    }
  }

  lemma OtherStillLogged(s: System, other: Id, events: seq<Event>)
    requires LogInv(s) && other in s.docs
    ensures EveryDispatchLogged(s.docs[other], other, s.log + events)
  {
    var d := s.docs[other];
    forall i | 0 <= i < |d.wakes| && d.wakes[i].state.Blocked()
      ensures Logged(s.log + events, other, d.wakes[i].id)
    {
      var j :| 0 <= j < |s.log| && DispatchOf(s.log[j], other, d.wakes[i].id);
      assert (s.log + events)[j] == s.log[j];
    }
  }

  // ------------------------------------------------------------------ requests log what they do

  /** What expiry leaves of a wake as far as the log is concerned. */
  lemma ExpiredFrom(d: Doc, now: int, next: Id, i: nat)
    requires DocInv(d) && Below(d, next) && i < |d.wakes|
    ensures var d0 := Stamped(Expire(d, now), now);
            i < |d0.wakes| && d0.wakes[i].id == d.wakes[i].id && d0.wakes[i].sources == d.wakes[i].sources &&
            (d0.wakes[i].state.Unfenced() ==> d.wakes[i].state.Unfenced()) &&
            (d0.wakes[i].state.Blocked() ==> d.wakes[i].state.Blocked()) &&
            (d.wakes[i].state.TakenOver() ==> d0.wakes[i].state.TakenOver())
  {
    ExpireKeeps(d, now, next, NO_ID);
    assert WakeEvolves(d.wakes[i], Stamped(Expire(d, now), now).wakes[i], NO_ID);
  }

  lemma {:induction false} ExpiryKeepsRounds(d: Doc, i: nat, now: int)
    requires i <= |d.wakes|
    ensures ExpireFrom(d, i, now).state.roundsUsed == d.state.roundsUsed
    ensures ExpireFrom(d, i, now).endpoint == d.endpoint
    decreases |d.wakes| - i
  {
    if i < |d.wakes| { ExpiryKeepsRounds(ExpireWake(d, i, now), i + 1, now); }
  }

  /** A successful prepare: the one way across the fence. */
  lemma PrepareLogs(d0: Doc, input: ControllerInput, targets: Targets, now: int, next: Id)
    requires DocInv(d0) && Below(d0, next) && PrepareDispatch(d0, input, targets, now, next).Ok?
    requires input.endpoint == d0.endpoint.id && input.generation == d0.endpoint.generation
    ensures var c := PrepareDispatch(d0, input, targets, now, next).value;
            c.reply.message.Some? && c.reply.wake.Some? &&
            EventFits(d0, c.doc, d0.state.session, next,
                      Dispatched(d0.state.session, c.reply.message.value, c.reply.wake.value.sources)) &&
            c.reply.message.value.wake == input.wake &&
            c.doc.state.roundsUsed == d0.state.roundsUsed + 1
  {
    var c := PrepareDispatch(d0, input, targets, now, next).value;
    var i := Find(d0.wakes, input.wake);
    var k := Latest(d0.attempts, input.wake);
    PrepareKeeps(d0, input, targets, now, next, input.wake);
    assert WakeEvolves(d0.wakes[i], c.doc.wakes[i], input.wake);
    FindAt(c.doc.wakes, i);
    LatestSame(d0.attempts, c.doc.attempts, input.wake);
  }

  /** A successful consumption hands over the frozen outcomes. */
  lemma ConsumeLogs(d0: Doc, e: Envelope, targets: Targets, now: int, next: Id)
    requires DocInv(d0) && Below(d0, next) && Consume(d0, e, targets, now, next).Ok?
    ensures var c := Consume(d0, e, targets, now, next).value;
            EventFits(d0, c.doc, d0.state.session, next, Consumption(d0.state.session, e.wake, c.reply.outcomes)) &&
            c.reply.message.None? && c.doc.state.roundsUsed == d0.state.roundsUsed
  {
    var c := Consume(d0, e, targets, now, next).value;
    var i := Find(d0.wakes, e.wake);
    MirrorAt(d0, i);
    ConsumeKeeps(d0, e, targets, now, next, NO_ID);
    assert WakeEvolves(d0.wakes[i], c.doc.wakes[i], NO_ID);
    FindAt(c.doc.wakes, i);
  }

  lemma ControlRounds(d0: Doc, input: ControlInput, targets: Targets, table: seq<Receipt>, now: int, next: Id)
    requires Control(d0, input, targets, table, now, next).Ok?
    ensures var c := Control(d0, input, targets, table, now, next).value;
            c.reply.message.None? && c.doc.endpoint == d0.endpoint &&
            c.doc.state.roundsUsed == if input.action.Recover? then 0 else d0.state.roundsUsed
  {
    match input.action
    case Await => assert AwaitDoc(d0, input, targets, table, now, next).Ok?;
    case Enable => assert EnableDoc(d0, input, next).Ok?;
    case Recover => assert RecoverDoc(d0, input, now, next).Ok?;
    case Settle => assert SettleDoc(d0, input, now, next).Ok?;
    case Pause =>
    case Status =>
    case UnknownControl =>
  }

  lemma ControllerRounds(d0: Doc, input: ControllerInput, targets: Targets, now: int, next: Id)
    requires Controller(d0, input, targets, now, next).Ok? && !input.action.Prepare?
    ensures var c := Controller(d0, input, targets, now, next).value;
            c.reply.message.None? && c.doc.state.roundsUsed == d0.state.roundsUsed
  {
    match input.action
    case Acquire => assert AcquireWake(d0, input, targets, now, next).Ok?;
    case Finish => assert FinishDispatch(d0, input, now, next).Ok?;
    case Bind => assert BindView(d0, input, now, next).Ok?;
    case ViewState =>
    case Heartbeat =>
    case ViewPause =>
    case UnknownController =>
  }

  /** Every request logs exactly what it did to the expired document. */
  lemma HandleLogs(d0: Doc, request: Request, targets: Targets, table: seq<Receipt>, now: int, next: Id)
    requires DocInv(d0) && Below(d0, next) && d0.state.session == request.Session()
    requires Handle(d0, request, targets, table, now, next).Ok?
    ensures var c := Handle(d0, request, targets, table, now, next).value;
            var events := EventsOf(request.Session(), request, c.reply);
            |events| <= 1 &&
            (forall e :: e in events ==> EventFits(d0, c.doc, request.Session(), next, e)) &&
            c.doc.state.roundsUsed == (if events == [] || events[0].Consumption? then d0.state.roundsUsed
                                       else if events[0].Recovered? then 0 else d0.state.roundsUsed + 1) &&
            FencedLogged(request.Session(), FencedBy(d0, request), events)
  {
    var c := Handle(d0, request, targets, table, now, next).value;
    var events := EventsOf(request.Session(), request, c.reply);
    match request
    case ControlRequest(_, input) => ControlRounds(d0, input, targets, table, now, next);
    case PresentRequest(_, _) =>
    case ControllerRequest(_, input) =>
      if input.action.Prepare? {
        PrepareLogs(d0, input, targets, now, next);
        assert events == [Dispatched(request.Session(), c.reply.message.value, c.reply.wake.value.sources)];
        assert DispatchOf(events[0], request.Session(), input.wake);
      } else {
        ControllerRounds(d0, input, targets, now, next);
      }
    case ConsumeRequest(e) => ConsumeLogs(d0, e, targets, now, next);
  }

  // ------------------------------------------------------------------ steps and runs

  lemma EventFitsEarlier(d: Doc, now: int, d1: Doc, session: Id, next: Id, e: Event)
    requires DocInv(d) && Below(d, next) && EventFits(Stamped(Expire(d, now), now), d1, session, next, e)
    ensures EventFits(d, d1, session, next, e)
  {
    var d0 := Stamped(Expire(d, now), now);
    ExpireKeeps(d, now, next, NO_ID);
    if !e.Recovered? {
      var i := Find(d0.wakes, WakeOf(e));
      ExpiredFrom(d, now, next, i);
      FindAt(d.wakes, i);
    }
  }

  /** A whole transaction on a document, from the stored version to the one handed to the save. */
  lemma TransactionLogs(d: Doc, request: Request, targets: Targets, table: seq<Receipt>, now: int, next: Id)
    requires DocInv(d) && Below(d, next) && d.state.session == request.Session()
    requires Handle(Stamped(Expire(d, now), now), request, targets, table, now, next).Ok?
    ensures var d0 := Stamped(Expire(d, now), now);
            var c := Handle(d0, request, targets, table, now, next).value;
            var events := EventsOf(request.Session(), request, c.reply);
            Keeps(d, c.doc, next, c.next, FencedBy(d0, request)) &&
            |events| <= 1 && (forall e :: e in events ==> EventFits(d, c.doc, request.Session(), c.next, e)) &&
            c.doc.state.roundsUsed == (if events == [] || events[0].Consumption? then d.state.roundsUsed
                                       else if events[0].Recovered? then 0 else d.state.roundsUsed + 1) &&
            FencedLogged(request.Session(), FencedBy(d0, request), events)
  {
    var d0 := Stamped(Expire(d, now), now);
    var c := Handle(d0, request, targets, table, now, next).value;
    ExpireKeeps(d, now, next, NO_ID);
    HandleKeeps(d0, request, targets, table, now, next);
    ExpireKeeps(d, now, next, FencedBy(d0, request));
    KeepsTransitive(d, d0, c.doc, next, next, c.next, FencedBy(d0, request));
    HandleLogs(d0, request, targets, table, now, next);
    ExpiryKeepsRounds(d, 0, now);
    forall e | e in EventsOf(request.Session(), request, c.reply) ensures EventFits(d, c.doc, request.Session(), c.next, e) {
      EventFitsEarlier(d, now, c.doc, request.Session(), next, e);
    }
  }

  lemma AskKeepsLog(c: Config, s: System, owner: Id, request: Request, targets: Targets, now: int)
    requires OnceInv(c, s) && LogInv(s) && Ask(c, s, owner, request, targets, now).Ok?
    ensures LogInv(Ask(c, s, owner, request, targets, now).value.0)
  {
    var session := request.Session();
    var d := Load(s, session);
    if !(IsRead(request) && !AnyDueFrom(d, 0, now)) {
      var d0 := Stamped(Expire(d, now), now);
      var change := Handle(d0, request, targets, s.receipts, now, s.next).value;
      LoadOk(c, s, session);
      TransactionLogs(d, request, targets, s.receipts, now, s.next);
      SaveKeepsLog(c, s, session, change.doc, s.receipts, now, change.next, FencedBy(d0, request),
                   EventsOf(session, request, change.reply));
    }
  }

  lemma PlaceKeepsLog(c: Config, s: System, node: Id, o: Outcome, now: int)
    requires OnceInv(c, s) && LogInv(s)
    ensures LogInv(Place(c, s, node, o, now))
  {
    var d := Load(s, o.session);
    var (d1, n1) := Merge(Expire(d, now), o, now, s.next);
    LoadOk(c, s, o.session);
    MergeAfterExpiry(d, o, now, s.next);
    ExpiryKeepsRounds(d, 0, now);
    var table := s.receipts + [NewReceipt(node, o, true, now)];
    SaveKeepsLog(c, s, o.session, d1, table, now, n1, NO_ID, []);
    var s1 := Save(s, o.session, d1, table, now, n1, []);
    assert LogInv(s1) && Place(c, s, node, o, now) == s1.(acked := s1.acked + {Ack(node, o.event)});
  }

  lemma RecordOneKeepsLog(c: Config, s: System, node: Id, r: Report)
    requires OnceInv(c, s) && LogInv(s) && RecordOne(c, s, node, r).Ok?
    ensures LogInv(RecordOne(c, s, node, r).value)
  {
    var s' := RecordOne(c, s, node, r).value;
    if s'.docs == s.docs && s'.log == s.log && s'.next == s.next {
    } else {
      PlaceKeepsLog(c, s, node, r.outcome.(pendingReport := false), r.now);
    }
  }

  lemma {:induction false} RecordAllKeepsLog(c: Config, s: System, node: Id, reports: seq<Report>)
    requires OnceInv(c, s) && LogInv(s) && RecordAll(c, s, node, reports).Ok?
    ensures LogInv(RecordAll(c, s, node, reports).value)
    decreases |reports|
  {
    if reports != [] {
      RecordOneKeeps(c, s, node, reports[0]);
      RecordOneKeepsLog(c, s, node, reports[0]);
      RecordAllKeepsLog(c, RecordOne(c, s, node, reports[0]).value, node, reports[1..]);
    }
  }

  lemma {:induction false} RunKeepsLog(c: Config, steps: seq<Step>)
    ensures OnceInv(c, Run(c, Start(), steps)) && LogInv(Run(c, Start(), steps))
    decreases |steps|
  {
    RunKeepsOnce(c, steps);
    if steps != [] {
      var s, step := Run(c, Start(), steps[..|steps| - 1]), steps[|steps| - 1];
      RunKeepsLog(c, steps[..|steps| - 1]);
      match step
      case AskStep(owner, request, targets, now) =>
        if Ask(c, s, owner, request, targets, now).Ok? { AskKeepsLog(c, s, owner, request, targets, now); }
      case CollectStep(node, reports, fits, now) =>
        if Collect(c, s, node, reports, fits, now).Ok? { RecordAllKeepsLog(c, s, node, reports); }
    }
  }

  // ------------------------------------------------------------------ main results

  /** Main result: at most one automatic message and at most one consumption per wake, over every run. */
  lemma DispatchedAndConsumedAtMostOnce(c: Config, steps: seq<Step>, i: nat, j: nat)
    requires i < j < |Run(c, Start(), steps).log|
    ensures !SameDispatch(Run(c, Start(), steps).log[i], Run(c, Start(), steps).log[j])
    ensures !SameConsumption(Run(c, Start(), steps).log[i], Run(c, Start(), steps).log[j])
  {
    RunKeepsLog(c, steps);
  }

  /** A consumption hands over exactly the outcomes an earlier dispatch of the same wake validated. */
  lemma ConsumptionMatchesDispatch(c: Config, steps: seq<Step>)
    ensures ConsumedAsDispatched(Run(c, Start(), steps).log)
  {
    RunKeepsLog(c, steps);
  }

  /** A consume request carrying the envelope of a logged dispatch. */
  lemma EnvelopeDecides(d0: Doc, e: Event, targets: Targets, now: int, next: Id)
    requires DocInv(d0) && e.Dispatched? && EntryOk(d0, e)
    ensures var k := Find(d0.wakes, e.envelope.wake);
            var answer := Consume(d0, e.envelope, targets, now, next);
            (answer.Ok? <==> k < |d0.wakes| && d0.wakes[k].state.Consumable() && TargetsCurrent(d0.wakes[k], targets)) &&
            (answer.Ok? ==> answer.value.reply.outcomes == e.sources)
  {
    var k := Find(d0.wakes, e.envelope.wake);
    if k < |d0.wakes| {
      assert StampOk(d0.wakes[k], d0.endpoint, d0.state.session);
      assert WakeOk(d0.wakes[k], d0.attempts);
    }
  }

  /** The fate of an outstanding envelope: it is accepted exactly while its wake awaits consumption in a current context. */
  lemma EnvelopeAcceptedExactlyWhileOpen(c: Config, steps: seq<Step>, i: nat, targets: Targets, now: int)
    requires var s := Run(c, Start(), steps); i < |s.log| && s.log[i].Dispatched?
    ensures var s := Run(c, Start(), steps);
            var e := s.log[i].envelope;
            var d0 := Stamped(Expire(Load(s, s.log[i].session), now), now);
            var k := Find(d0.wakes, e.wake);
            var answer := Consume(d0, e, targets, now, s.next);
            (answer.Ok? <==> k < |d0.wakes| && d0.wakes[k].state.Consumable() && TargetsCurrent(d0.wakes[k], targets)) &&
            (answer.Ok? ==> answer.value.reply.outcomes == s.log[i].sources)
  {
    var s := Run(c, Start(), steps);
    var d := Load(s, s.log[i].session);
    RunKeepsLog(c, steps);
    LoadOk(c, s, s.log[i].session);
    ExpireKeeps(d, now, s.next, NO_ID);
    EntryEvolves(d, Stamped(Expire(d, now), now), s.next, s.next, NO_ID, s.log[i]);
    EnvelopeDecides(Stamped(Expire(d, now), now), s.log[i], targets, now, s.next);
  }

  /**
   Main result on budgets: rounds count the dispatches since the last recovery and stay within 100; failures vanish without an
   unresolved dispatch and stay within 2.
   */
  lemma BudgetsAccounted(c: Config, steps: seq<Step>, session: Id)
    requires session in Run(c, Start(), steps).docs
    ensures var s := Run(c, Start(), steps);
            var b := s.docs[session].state;
            b.roundsUsed == RoundsSince(s.log, session) && b.roundsUsed <= 100 && b.failureCount <= 2 &&
            (!BlockedDoc(s.docs[session]) ==> b.failureCount == 0)
  {
    RunKeepsLog(c, steps);
    assert SessionOk(Run(c, Start(), steps), session);
  }

  /** At most one wake is neither pending nor settled, and its newest attempt mirrors it. */
  lemma SingleUnresolvedDispatch(c: Config, steps: seq<Step>, session: Id, i: nat, j: nat)
    requires var s := Run(c, Start(), steps); session in s.docs && i < |s.docs[session].wakes| && j < |s.docs[session].wakes|
    requires var d := Run(c, Start(), steps).docs[session]; d.wakes[i].state.Active() && d.wakes[j].state.Active()
    ensures i == j
    ensures var d := Run(c, Start(), steps).docs[session];
            var k := Latest(d.attempts, d.wakes[i].id);
            k >= 0 && d.attempts[k].value.state == d.wakes[i].state &&
            (d.attempts[k].value.preparedAt.At? <==> d.wakes[i].state.Blocked())
  {
    RunKeepsLog(c, steps);
    var s := Run(c, Start(), steps);
    assert SessionOk(s, session);
    MirrorAt(s.docs[session], i);
  }

  /** Unsettled wakes always carry the current endpoint and generation. */
  lemma UnsettledCarryCurrentEndpoint(c: Config, steps: seq<Step>, session: Id, i: nat)
    requires var s := Run(c, Start(), steps); session in s.docs && i < |s.docs[session].wakes|
    requires !Run(c, Start(), steps).docs[session].wakes[i].state.Settled?
    ensures var d := Run(c, Start(), steps).docs[session];
            d.wakes[i].endpoint == d.endpoint.id && d.wakes[i].generation == d.endpoint.generation
  {
    RunKeepsLog(c, steps);
    var s := Run(c, Start(), steps);
    assert SessionOk(s, session);
    assert StampOk(s.docs[session].wakes[i], s.docs[session].endpoint, s.docs[session].state.session);
  }
}
