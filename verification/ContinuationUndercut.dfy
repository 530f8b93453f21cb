/**
 A run of requests after which more rounds are used than the limit allows: one round is dispatched, consumed and settled,
 a second one is dispatched, and then the limit is set to one.
 */
module ContinuationUndercut {
  import opened Wrappers
  import opened ContinuationModel
  import opened ContinuationSpec
  import opened ContinuationSystem
  import opened ContinuationEndpoint
  import E = ContinuationExpiry

  // ------------------------------------------------------------------ documents that time and saving leave alone

  predicate NothingDue(d: Doc, now: int) {
    forall i :: 0 <= i < |d.wakes| ==> !Due(d, i, now)
  }

  predicate NothingToDrop(d: Doc) {
    SettledCount(d.wakes) <= KEPT_SETTLED &&
    forall k :: 0 <= k < |d.attempts| ==>
      Find(d.wakes, d.attempts[k].value.wake) < |d.wakes| && Latest(d.attempts, d.attempts[k].value.wake) == k
  }

  predicate Steady(d: Doc) { NothingDue(d, 0) && NothingToDrop(d) }

  lemma {:induction false} KeepAllWakes(wakes: seq<Wake>, settled: nat)
    requires settled <= KEPT_SETTLED
    ensures KeepWakes(wakes, settled) == wakes
    decreases |wakes|
  {
    if wakes != [] { KeepAllWakes(wakes[1..], settled); }
  }

  lemma {:induction false} KeepAllAttempts(d: Doc, n: nat)
    requires n <= |d.attempts| && NothingToDrop(d)
    ensures KeepAttempts(d.attempts, d.wakes, n) == d.attempts[..n]
    decreases n
  {
    if n > 0 {
      KeepAllAttempts(d, n - 1);
      assert d.attempts[..n] == d.attempts[..n - 1] + [d.attempts[n - 1]];
    }
  }

  lemma SteadyStays(d: Doc)
    requires Steady(d)
    ensures Expire(d, 0) == d && Compact(d) == d
  {
    E.NothingDue(d, 0, 0);
    KeepAllWakes(d.wakes, SettledCount(d.wakes));
    KeepAllAttempts(d, |d.attempts|);
    assert d.attempts[..|d.attempts|] == d.attempts;
  }

  // ------------------------------------------------------------------ the run

  /** WorkSession 1 of owner 1 with Target 1, which node 1 serves. */
  const SETUP := Config(map[1 := 1], map[TargetKey(1, 1) := TargetRow(1, 1, 1)])
  const CURRENT: Targets := map[1 := Revisions(1, 1)]

  function Answer(command: Id): Outcome {
    Outcome(command, 1, 1, command, 1, 1, 1, 1, Completed, false, 100, NO_ID, false)
  }

  function Operator(action: ControlAction, maxRounds: int, wake: Id, sources: seq<Source>): Step {
    AskStep(1, ControlRequest(1, ControlInput(action, true, maxRounds, 0, wake, "done", sources)), CURRENT, 0)
  }

  function View(action: ControllerAction, wake: Id, attempt: Id): Step {
    AskStep(1, ControllerRequest(1, ControllerInput(action, 1, 1, 2, 1, 1, true, wake, attempt, Pending)), CURRENT, 0)
  }

  function Report1(command: Id): Step {
    CollectStep(1, [Report(Answer(command), true, 0)], true, 0)
  }

  function Move(k: nat): Step {
    match k
    case 0 => Operator(Enable, 0, NO_ID, [])
    case 1 => AskStep(1, PresentRequest(1, false), CURRENT, 0)
    case 2 => View(Bind, NO_ID, NO_ID)
    case 3 => Operator(Await, 0, NO_ID, [Source(1, 1), Source(1, 2)])
    case 4 => Report1(1)
    case 5 => View(Acquire, NO_ID, NO_ID)
    case 6 => View(Prepare, 3, 4)
    case 7 => AskStep(1, ConsumeRequest(Envelope(1, 1, 1, 1, 3, 4, 5)), CURRENT, 0)
    case 8 => Operator(Settle, 0, 3, [])
    case 9 => Report1(2)
    case 10 => View(Acquire, NO_ID, NO_ID)
    case 11 => View(Prepare, 6, 7)
    case _ => Operator(Enable, 1, NO_ID, [])
  }

  function Moves(n: nat): seq<Step> {
    if n == 0 then [] else Moves(n - 1) + [Move(n - 1)]
  }

  // ------------------------------------------------------------------ the document after each move

  function Wake1(id: Id, state: WakeState, command: Id): Wake {
    Wake(1, 1, 1, id, state, [Answer(command)], At(0), At(0))
  }

  function Try(id: Id, wake: Id, state: WakeState, lease: int, prepared: Stamp, consumed: Stamp, hash: Digest): Attempt {
    Attempt(AttemptValue(id, wake, state, At(lease), prepared, Never, consumed, NoError), 1, hash)
  }

  function Enabled(phase: Phase, maxRounds: nat, rounds: nat, sources: seq<Source>, checkpoint: string): Budget {
    Budget(1, true, phase, maxRounds, rounds, 3, 0, sources, checkpoint, NoError, At(0))
  }

  const BOTH := [Source(1, 1), Source(1, 2)]
  const BOUND := Endpoint(1, 1, 1, 1, At(VIEW_LEASE))
  const CLOSED := Try(4, 3, Settled, DISPATCH_TIMEOUT, At(0), At(0), NoDigest)

  function DocAfter(k: nat): Doc {
    match k
    case 0 => NewDoc(1)
    case 1 => Doc(Enabled(Ready, 8, 0, [], ""), Endpoint(NO_ID, NO_ID, 0, NO_ID, Never), NoDigest, false, [], [])
    case 2 => Doc(Enabled(Ready, 8, 0, [], ""), Endpoint(1, 1, 1, NO_ID, Never), DigestOf(2), false, [], [])
    case 3 => Doc(Enabled(Ready, 8, 0, [], ""), BOUND, DigestOf(2), true, [], [])
    case 4 => Doc(Enabled(Waiting, 8, 0, BOTH, ""), BOUND, DigestOf(2), true, [], [])
    case 5 => Doc(Enabled(Waiting, 8, 0, BOTH, ""), BOUND, DigestOf(2), true, [Wake1(3, Pending, 1)], [])
    case 6 => Doc(Enabled(Waiting, 8, 0, BOTH, ""), BOUND, DigestOf(2), true,
                  [Wake1(3, Claimed, 1)], [Try(4, 3, Claimed, CLAIM_LEASE, Never, Never, NoDigest)])
    case 7 => Doc(Enabled(Dispatching, 8, 1, BOTH, ""), BOUND, DigestOf(2), true,
                  [Wake1(3, Prepared, 1)], [Try(4, 3, Prepared, DISPATCH_TIMEOUT, At(0), Never, DigestOf(5))])
    case 8 => Doc(Enabled(Processing, 8, 1, BOTH, ""), BOUND, DigestOf(2), true,
                  [Wake1(3, Consumed, 1)], [Try(4, 3, Consumed, DISPATCH_TIMEOUT, At(0), At(0), NoDigest)])
    case 9 => Doc(Enabled(Ready, 8, 1, BOTH, "done"), BOUND, DigestOf(2), true, [Wake1(3, Settled, 1)], [CLOSED])
    case 10 => Doc(Enabled(Ready, 8, 1, BOTH, "done"), BOUND, DigestOf(2), true,
                   [Wake1(3, Settled, 1), Wake1(6, Pending, 2)], [CLOSED])
    case 11 => Doc(Enabled(Ready, 8, 1, BOTH, "done"), BOUND, DigestOf(2), true,
                   [Wake1(3, Settled, 1), Wake1(6, Claimed, 2)],
                   [CLOSED, Try(7, 6, Claimed, CLAIM_LEASE, Never, Never, NoDigest)])
    case 12 => Doc(Enabled(Dispatching, 8, 2, BOTH, "done"), BOUND, DigestOf(2), true,
                   [Wake1(3, Settled, 1), Wake1(6, Prepared, 2)],
                   [CLOSED, Try(7, 6, Prepared, DISPATCH_TIMEOUT, At(0), Never, DigestOf(8))])
    case _ => Doc(Enabled(Ready, 1, 2, BOTH, "done"), BOUND, DigestOf(2), true,
                  [Wake1(3, Settled, 1), Wake1(6, Prepared, 2)],
                  [CLOSED, Try(7, 6, Prepared, DISPATCH_TIMEOUT, At(0), Never, DigestOf(8))])
  }

  function NextAfter(k: nat): Id {
    match k
    case 0 => 1
    case 1 => 1
    case 2 => 3
    case 3 => 3
    case 4 => 3
    case 5 => 4
    case 6 => 5
    case 7 => 6
    case 8 => 6
    case 9 => 6
    case 10 => 7
    case 11 => 8
    case _ => 9
  }

  /** Before the first report the table is empty; before the second it knows only the first command. */
  predicate Rows(receipts: seq<Receipt>, k: nat) {
    (k <= 4 ==> receipts == []) &&
    (k <= 9 ==> forall i :: 0 <= i < |receipts| ==> receipts[i].event == 1 && receipts[i].command == 1)
  }

  predicate Stands(s: System, d: Doc, next: Id) {
    1 in s.docs && s.docs[1] == d && s.next == next
  }

  predicate Reached(s: System, k: nat) {
    Load(s, 1) == DocAfter(k) && s.next == NextAfter(k) && Rows(s.receipts, k)
  }

  lemma SteadyUpTo(k: nat)
    requires k <= 9
    ensures Steady(DocAfter(k))
  {
  }

  lemma SteadyFrom(k: nat)
    requires k >= 10
    ensures Steady(DocAfter(k))
  {
  }

  /** A request at a steady document that leaves a steady one. */
  lemma Asked(s: System, request: Request, d: Doc, change: Change)
    requires request.Session() == 1 && !IsRead(request) && Load(s, 1) == d && Steady(d) && Steady(change.doc)
    requires Handle(Stamped(d, 0), request, CURRENT, s.receipts, 0, s.next) == Ok(change)
    requires Stamped(change.doc, 0) == change.doc
    ensures var s' := After(SETUP, s, AskStep(1, request, CURRENT, 0));
      Stands(s', change.doc, change.next) && s'.receipts == CompactReceipts(change.doc, s.receipts)
  {
    SteadyStays(d);
    SteadyStays(change.doc);
  }

  /** A report of a new outcome that starts a wake of its own. */
  lemma Reported(s: System, command: Id, d: Doc, d': Doc)
    requires command in {1, 2} && Load(s, 1) == d && Steady(d) && Steady(d') && Stamped(d', 0) == d'
    requires forall i :: 0 <= i < |s.receipts| ==> s.receipts[i].event != command && s.receipts[i].command != command
    requires Merge(d, Answer(command), 0, s.next) == (d', s.next + 1)
    ensures var s' := After(SETUP, s, Report1(command));
      Stands(s', d', s.next + 1) && |s'.receipts| == |s.receipts| + 1 &&
      forall i :: 0 <= i < |s'.receipts| ==> SameNames(s'.receipts[i], (s.receipts + [Row(command)])[i])
  {
    SteadyStays(d);
    SteadyStays(d');
    RecordedFirst(s, command);
  }

  /** A batch of one report that is new. */
  lemma RecordedFirst(s: System, command: Id)
    requires command in {1, 2}
    requires forall i :: 0 <= i < |s.receipts| ==> s.receipts[i].event != command && s.receipts[i].command != command
    ensures RecordAll(SETUP, s, 1, [Report(Answer(command), true, 0)]) == Ok(Place(SETUP, s, 1, Answer(command), 0))
  {
    RecordedOne(s, command);
    var report := Report(Answer(command), true, 0);
    assert [report][1..] == [];
    assert RecordAll(SETUP, s, 1, [report]) == RecordOne(SETUP, s, 1, report);
  }

  lemma RecordedOne(s: System, command: Id)
    requires command in {1, 2}
    requires forall i :: 0 <= i < |s.receipts| ==> s.receipts[i].event != command && s.receipts[i].command != command
    ensures RecordOne(SETUP, s, 1, Report(Answer(command), true, 0)) == Ok(Place(SETUP, s, 1, Answer(command), 0))
  {
    assert EventRow(s.receipts, 1, command) == |s.receipts|;
    assert CommandRow(s.receipts, 1, command) == |s.receipts|;
  }

  function Row(command: Id): Receipt { NewReceipt(1, Answer(command), true, 0) }

  predicate SameNames(r: Receipt, q: Receipt) { r.event == q.event && r.command == q.command }

  /** What an awaited outcome does when no wake has room for it. */
  lemma StartsWake(d: Doc, command: Id, next: Id)
    requires command in {1, 2} && d.state.sources == BOTH
    requires forall i :: 0 <= i < |d.wakes| ==> !d.wakes[i].state.Unfenced() && !Holds(d.wakes[i], Source(1, command))
    ensures Merge(d, Answer(command), 0, next) == (d.(wakes := d.wakes + [NewWake(d, Answer(command), 0, next)]), next + 1)
  {
    assert Source(1, command) == BOTH[command - 1];
    assert FirstWithRoom(d.wakes, Answer(command)) == |d.wakes|;
  }

  lemma FirstReport(s: System)
    requires Reached(s, 4)
    ensures Reached(After(SETUP, s, Move(4)), 5)
  {
    SteadyUpTo(4);
    SteadyUpTo(5);
    StartsWake(DocAfter(4), 1, 3);
    assert [] + [NewWake(DocAfter(4), Answer(1), 0, 3)] == DocAfter(5).wakes;
    Reported(s, 1, DocAfter(4), DocAfter(5));
  }

  lemma SecondReport(s: System)
    requires Reached(s, 9)
    ensures Reached(After(SETUP, s, Move(9)), 10)
  {
    SteadyUpTo(9);
    SteadyFrom(10);
    var w := Wake1(3, Settled, 1);
    assert w.sources[0].Key() == Source(1, 1);
    StartsWake(DocAfter(9), 2, 6);
    assert [w] + [NewWake(DocAfter(9), Answer(2), 0, 6)] == DocAfter(10).wakes;
    Reported(s, 2, DocAfter(9), DocAfter(10));
  }

  lemma EnableMove(s: System)
    requires Reached(s, 0)
    ensures Reached(After(SETUP, s, Move(0)), 1)
  {
    SteadyUpTo(0);
    SteadyUpTo(1);
    MoveAsks(0);
    var change := Handle(Stamped(DocAfter(0), 0), Move(0).request, CURRENT, s.receipts, 0, s.next);
    Asked(s, Move(0).request, DocAfter(0), change.value);
  }

  lemma AwaitMove(s: System)
    requires Reached(s, 3)
    ensures Reached(After(SETUP, s, Move(3)), 4)
  {
    SteadyUpTo(3);
    SteadyUpTo(4);
    var change := Handle(DocAfter(3), Move(3).request, CURRENT, [], 0, s.next);
    assert SourceFault(BOTH, 0, CURRENT).None?;
    assert StoredOutcomes([], 1) == [];
    Asked(s, Move(3).request, DocAfter(3), change.value);
  }

  /** The request of this move is answered and changes the document as listed. */
  predicate Answered(k: nat, table: seq<Receipt>)
    requires Move(k).AskStep?
  {
    var c := Handle(DocAfter(k), Move(k).request, CURRENT, table, 0, NextAfter(k));
    c.Ok? && c.value.doc == DocAfter(k + 1) && c.value.next == NextAfter(k + 1)
  }

  lemma TargetStays(k: nat, i: nat)
    requires i < |DocAfter(k).wakes|
    ensures TargetsCurrent(DocAfter(k).wakes[i], CURRENT)
  {
  }

  lemma ClaimedDoc(k: nat, i: nat)
    requires (k, i) == (5, 0) || (k, i) == (10, 1)
    ensures var c := Claim(DocAfter(k), i, 1, 0, NextAfter(k)); c.doc == DocAfter(k + 1) && c.next == NextAfter(k + 1)
  {
    var change := Claim(DocAfter(k), i, 1, 0, NextAfter(k));
    assert change.doc.wakes == DocAfter(k + 1).wakes;
    assert change.doc.attempts == DocAfter(k + 1).attempts;
  }

  lemma FreeToClaim(k: nat, i: nat)
    requires (k, i) == (5, 0) || (k, i) == (10, 1)
    ensures var wakes := DocAfter(k).wakes;
      FirstIn(wakes, ClaimedKind) == |wakes| && Claimable(wakes, NO_ID) == i && i < |wakes|
  {
  }

  lemma NoneUnresolved(k: nat)
    requires k == 5 || k == 10
    ensures !BlockedDoc(DocAfter(k))
  {
  }

  lemma AcquireMoves(k: nat, i: nat, table: seq<Receipt>)
    requires (k, i) == (5, 0) || (k, i) == (10, 1)
    ensures Answered(k, table)
  {
    KnownView(k);
    FreeToClaim(k, i);
    NoneUnresolved(k);
    TargetStays(k, i);
    ClaimedDoc(k, i);
  }

  lemma FencedDoc(k: nat, i: nat)
    requires (k, i) == (6, 0) || (k, i) == (11, 1)
    ensures Fenced(DocAfter(k), i, i, 0, NextAfter(k)) == DocAfter(k + 1)
  {
    var fenced := Fenced(DocAfter(k), i, i, 0, NextAfter(k));
    assert fenced.wakes == DocAfter(k + 1).wakes;
    assert fenced.attempts == DocAfter(k + 1).attempts;
  }

  lemma FreeToPrepare(k: nat, i: nat)
    requires (k, i) == (6, 0) || (k, i) == (11, 1)
    ensures var (d, wake) := (DocAfter(k), if k == 6 then 3 else 6);
      !BlockedDoc(d) && Find(d.wakes, wake) == i && Latest(d.attempts, wake) == i
  {
  }

  lemma PrepareMoves(k: nat, i: nat, table: seq<Receipt>)
    requires (k, i) == (6, 0) || (k, i) == (11, 1)
    ensures Answered(k, table)
  {
    KnownView(k);
    FreeToPrepare(k, i);
    TargetStays(k, i);
    FencedDoc(k, i);
  }

  lemma KnownView(k: nat)
    requires 3 <= k && Move(k).AskStep? && Move(k).request.ControllerRequest?
    ensures Identity(DocAfter(k), Move(k).request.controller, 0, true).None?
  {
  }

  lemma ConsumeMove(table: seq<Receipt>)
    ensures Answered(7, table)
  {
    var d := DocAfter(7);
    TargetStays(7, 0);
    var handed := HandedOver(d, 0, 0, 0);
    assert handed.wakes == DocAfter(8).wakes;
    assert handed.attempts == DocAfter(8).attempts;
  }

  lemma SettleMove(table: seq<Receipt>)
    ensures Answered(8, table)
  {
    assert !Blank("done") by { assert "done"[0] !in SPACES; }
    var d := DocAfter(8);
    assert Find(d.wakes, 3) == 0 && Latest(d.attempts, 3) == 0;
    assert d.wakes[0 := Wake1(3, Settled, 1)] == DocAfter(9).wakes;
    assert d.attempts[0 := CLOSED] == DocAfter(9).attempts;
  }

  /** The other requests: presenting, binding, the two rounds, and the new limit. */
  lemma OtherAnswers(k: nat, table: seq<Receipt>)
    requires 1 <= k <= 12 && k != 3 && k != 4 && k != 9
    ensures Answered(k, table)
  {
    if k == 5 { AcquireMoves(5, 0, table); }
    if k == 10 { AcquireMoves(10, 1, table); }
    if k == 6 { PrepareMoves(6, 0, table); }
    if k == 11 { PrepareMoves(11, 1, table); }
    if k == 7 { ConsumeMove(table); }
    if k == 8 { SettleMove(table); }
  }

  lemma OtherMoves(s: System, k: nat)
    requires 1 <= k <= 12 && k != 3 && k != 4 && k != 9 && Reached(s, k)
    ensures Reached(After(SETUP, s, Move(k)), k + 1)
  {
    if k <= 8 { SteadyUpTo(k); SteadyUpTo(k + 1); } else { SteadyFrom(k); SteadyFrom(k + 1); }
    OtherAnswers(k, s.receipts);
    AnsweredMoves(s, k);
  }

  lemma AnsweredMoves(s: System, k: nat)
    requires 1 <= k <= 12 && k != 3 && k != 4 && k != 9 && Reached(s, k) && Answered(k, s.receipts) && Steady(DocAfter(k)) && Steady(DocAfter(k + 1))
    ensures Reached(After(SETUP, s, Move(k)), k + 1)
  {
    StampedAlready(k);
    StampedAlready(k + 1);
    MoveAsks(k);
    Asked(s, Move(k).request, DocAfter(k), Handle(DocAfter(k), Move(k).request, CURRENT, s.receipts, 0, s.next).value);
  }

  lemma MoveAsks(k: nat)
    requires Move(k).AskStep?
    ensures Move(k) == AskStep(1, Move(k).request, CURRENT, 0) && Move(k).request.Session() == 1 && !IsRead(Move(k).request)
  {
  }

  lemma StampedAlready(k: nat)
    requires k >= 1
    ensures Stamped(DocAfter(k), 0) == DocAfter(k)
  {
  }

  lemma EveryMove(s: System, k: nat)
    requires k <= 12 && Reached(s, k)
    ensures Reached(After(SETUP, s, Move(k)), k + 1)
  {
    if k == 0 { EnableMove(s); }
    else if k == 3 { AwaitMove(s); }
    else if k == 4 { FirstReport(s); }
    else if k == 9 { SecondReport(s); }
    else { OtherMoves(s, k); }
  }

  function RunTo(n: nat): System { Run(SETUP, Start(), Moves(n)) }

  predicate OnCourse(n: nat) { Reached(RunTo(n), n) }

  lemma {:induction false} StepByStep(good: nat -> bool, n: nat)
    requires good(0) && forall k: nat :: k < n && good(k) ==> good(k + 1)
    ensures good(n)
    decreases n
  {
    if n > 0 { StepByStep(good, n - 1); }
  }

  lemma MovesReach(n: nat)
    requires n <= 13
    ensures OnCourse(n)
  {
    StartReached();
    forall k: nat | k < n && OnCourse(k) ensures OnCourse(k + 1) { MoveReaches(k); }
    StepByStep(OnCourse, n);
  }

  lemma StartReached()
    ensures OnCourse(0)
  {
    assert RunTo(0) == Start();
  }

  lemma MoveReaches(k: nat)
    requires k <= 12 && OnCourse(k)
    ensures OnCourse(k + 1)
  {
    MovesOn(k);
    EveryMove(RunTo(k), k);
  }

  lemma MovesOn(k: nat)
    ensures RunTo(k + 1) == After(SETUP, RunTo(k), Move(k))
  {
    MovesLength(k);
    assert Moves(k + 1)[..k] == Moves(k) && Moves(k + 1)[k] == Move(k);
  }

  lemma {:induction false} MovesLength(n: nat)
    ensures |Moves(n)| == n
    decreases n
  {
    if n > 0 { MovesLength(n - 1); }
  }

  lemma LastMoves(k: nat, s: System)
    requires (k == 12 || k == 13) && Reached(s, k)
    ensures Load(s, 1).state.roundsUsed == 2 && Load(s, 1).state.maxRounds == if k == 12 then 8 else 1
  {
  }

  /** Two of eight rounds are used; the next request sets the limit to one and is accepted. */
  lemma LimitUndercutExample() returns (steps: seq<Step>, last: Step)
    ensures var d := Load(Run(SETUP, Start(), steps), 1); WithinLimit(d) && d.state.maxRounds == 8 && d.state.roundsUsed == 2
    ensures var d := Load(Run(SETUP, Start(), steps + [last]), 1); !WithinLimit(d) && d.state.maxRounds == 1 && d.state.roundsUsed == 2
  {
    var k := 12;
    steps, last := Moves(k), Move(k);
    MovesReach(k);
    MovesReach(k + 1);
    LastMoves(k, RunTo(k));
    LastMoves(k + 1, RunTo(k + 1));
  }
}
