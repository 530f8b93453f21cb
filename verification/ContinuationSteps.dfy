/**
 Every request keeps the document invariant and only moves wakes forward: a fenced wake never becomes
 dispatchable again and its outcomes are frozen, consumed work is never handed over twice, and the
 credential of an unresolved dispatch stays the one that was sent.
 */
module ContinuationSteps {
  import opened Wrappers
  import opened ContinuationModel
  import opened ContinuationSpec
  import opened ContinuationInvariant

  /** Wakes only move forward, and only the wake `fenced` may cross the dispatch fence. */
  ghost predicate WakeEvolves(w: Wake, w': Wake, fenced: Id) {
    && (w.state.Unfenced() && w.id != fenced ==> !w'.state.Blocked())
    && w'.id == w.id && w'.session == w.session
    && (!w.state.Unfenced() ==> !w'.state.Unfenced() && w'.sources == w.sources)
    && (w.state.TakenOver() ==> w'.state.TakenOver())
    && (w.state.Settled? ==> w'.state.Settled?)
    && w.sources <= w'.sources
  }

  /** While a dispatch is unresolved its endpoint, attempt and (until consumed) secret stay put. */
  ghost predicate CredentialKept(d: Doc, d': Doc, i: nat)
    requires i < |d.wakes| <= |d'.wakes|
  {
    d.wakes[i].state.Blocked() && !d'.wakes[i].state.Settled? ==>
      var k, k' := Latest(d.attempts, d.wakes[i].id), Latest(d'.attempts, d.wakes[i].id);
      && k >= 0 && k' >= 0
      && d'.endpoint.id == d.endpoint.id && d'.endpoint.generation == d.endpoint.generation
      && d'.attempts[k'].value.id == d.attempts[k].value.id
      && (!d'.wakes[i].state.TakenOver() ==> d'.attempts[k'].consumeHash == d.attempts[k].consumeHash)
  }

  /** Before compaction: old wakes stay in place, new ones carry ids from `next` on. */
  ghost predicate Evolves(d: Doc, d': Doc, next: Id, fenced: Id) {
    && d'.state.session == d.state.session
    && |d.wakes| <= |d'.wakes|
    && (forall i :: 0 <= i < |d.wakes| ==> WakeEvolves(d.wakes[i], d'.wakes[i], fenced) && CredentialKept(d, d', i))
    && (forall i :: |d.wakes| <= i < |d'.wakes| ==> d'.wakes[i].id >= next && !d'.wakes[i].state.Blocked())
  }

  ghost predicate Keeps(d: Doc, d': Doc, next: Id, next': Id, fenced: Id) {
    DocInv(d') && Below(d', next') && next <= next' && Evolves(d, d', next, fenced)
  }

  lemma KeepsTransitive(d: Doc, d1: Doc, d2: Doc, n: Id, n1: Id, n2: Id, fenced: Id)
    requires Keeps(d, d1, n, n1, fenced) && Keeps(d1, d2, n1, n2, fenced) && fenced < n
    ensures Keeps(d, d2, n, n2, fenced)
  {
    forall i | 0 <= i < |d.wakes|
      ensures WakeEvolves(d.wakes[i], d2.wakes[i], fenced) && CredentialKept(d, d2, i)
    {
      assert WakeEvolves(d.wakes[i], d1.wakes[i], fenced) && WakeEvolves(d1.wakes[i], d2.wakes[i], fenced);
      assert CredentialKept(d, d1, i) && CredentialKept(d1, d2, i);
      if d.wakes[i].state.Blocked() && !d2.wakes[i].state.Settled? {
        assert d1.wakes[i].state.Blocked();
      }
    }
    forall i | |d.wakes| <= i < |d2.wakes| ensures d2.wakes[i].id >= n && !d2.wakes[i].state.Blocked() {
      if i < |d1.wakes| {
        assert WakeEvolves(d1.wakes[i], d2.wakes[i], fenced);
      }
    }
  }

  // ------------------------------------------------------------------ requests that touch no table

  lemma QuietKeeps(d: Doc, d': Doc, next: Id, fenced: Id)
    requires DocInv(d) && Below(d, next) && fenced < next
    requires d'.wakes == d.wakes && d'.attempts == d.attempts
    requires SameFrame(d, d') && d'.state.failureCount <= d.state.failureCount && BudgetOk(d'.state)
    ensures Keeps(d, d', next, next, fenced)
  {
    TablesUnchanged(d, d');
    forall i | 0 <= i < |d.wakes| ensures CredentialKept(d, d', i) {
      if d.wakes[i].state.Blocked() { MirrorAt(d, i); }
    }
  }

  // ------------------------------------------------------------------ one wake and its newest attempt

  lemma MovesEvolve(d: Doc, d': Doc, i: nat, k: nat, next: Id, next': Id, fenced: Id)
    requires DocInv(d) && Below(d, next) && fenced < next && Moves(d, d', i, k) && next <= next'
    requires MayActivate(d, i, d'.wakes[i].state)
    requires Mirrors(d'.attempts[k], d'.wakes[i].state)
    requires SameFrame(d, d') && SameWake(d.wakes[i], d'.wakes[i])
    requires FailuresOk(d'.state, d'.wakes) && BudgetOk(d'.state)
    requires d'.attempts[k].value.id == d.attempts[k].value.id
    requires WakeEvolves(d.wakes[i], d'.wakes[i], fenced)
    requires d.wakes[i].state.Blocked() && !d'.wakes[i].state.TakenOver() ==>
               d'.attempts[k].consumeHash == d.attempts[k].consumeHash
    ensures Keeps(d, d', next, next', fenced)
  {
    MovesKeeps(d, d', i, k);
    forall j | 0 <= j < |d.wakes| ensures CredentialKept(d, d', j) { MovesCredential(d, d', i, k, j); }
  }

  lemma MovesCredential(d: Doc, d': Doc, i: nat, k: nat, j: nat)
    requires DocInv(d) && Moves(d, d', i, k) && SameFrame(d, d') && j < |d.wakes|
    requires d'.attempts[k].value.id == d.attempts[k].value.id
    requires d.wakes[i].state.Blocked() && !d'.wakes[i].state.TakenOver() ==>
               d'.attempts[k].consumeHash == d.attempts[k].consumeHash
    ensures CredentialKept(d, d', j)
  {
    MovesKeepsLatest(d, d', i, k, d.wakes[j].id);
    if d.wakes[j].state.Blocked() { MirrorAt(d, j); }
  }

  // ------------------------------------------------------------------ expiry

  lemma ExpireWakeEvolves(d: Doc, i: nat, now: int, next: Id, fenced: Id)
    requires DocInv(d) && Below(d, next) && fenced < next && i < |d.wakes|
    ensures Keeps(d, ExpireWake(d, i, now), next, next, fenced)
  {
    var d' := ExpireWake(d, i, now);
    if Due(d, i, now) {
      var k := Latest(d.attempts, d.wakes[i].id);
      MirrorAt(d, i);
      ExpireWakeKeeps(d, i, now);
      MovesEvolve(d, d', i, k, next, next, fenced);
    } else {
      QuietKeeps(d, d', next, fenced);
    }
  }

  lemma ExpireFromEvolves(d: Doc, i: nat, now: int, next: Id, fenced: Id)
    requires DocInv(d) && Below(d, next) && fenced < next && i <= |d.wakes|
    ensures Keeps(d, ExpireFrom(d, i, now), next, next, fenced)
    decreases |d.wakes| - i
  {
    if i < |d.wakes| {
      var d1 := ExpireWake(d, i, now);
      ExpireWakeEvolves(d, i, now, next, fenced);
      ExpireFromEvolves(d1, i + 1, now, next, fenced);
      KeepsTransitive(d, d1, ExpireFrom(d1, i + 1, now), next, next, next, fenced);
    } else {
      QuietKeeps(d, d, next, fenced);
    }
  }

  // ------------------------------------------------------------------ settling

  /** With no blocked wake left, a zero count is in bounds. */
  lemma SettleMoves(d: Doc, d': Doc, i: nat, k: nat, next: Id, fenced: Id)
    requires DocInv(d) && Below(d, next) && fenced < next && Moves(d, d', i, k)
    requires SameFrame(d, d') && SameWake(d.wakes[i], d'.wakes[i])
    requires d'.wakes[i].state.Settled? && d'.wakes[i].sources == d.wakes[i].sources
    requires d'.state.failureCount == 0 || (d.wakes[i].state.Unfenced() && d'.state.failureCount == d.state.failureCount)
    requires BudgetOk(d'.state)
    requires d'.attempts[k].value.id == d.attempts[k].value.id
    requires Mirrors(d'.attempts[k], Settled)
    ensures Keeps(d, d', next, next, fenced)
  {
    if d.wakes[i].state.Unfenced() { AllowanceUnblocked(d.wakes, d'.wakes, i); }
    MovesEvolve(d, d', i, k, next, next, fenced);
  }

  lemma SettleKeeps(d: Doc, input: ControlInput, now: int, next: Id, fenced: Id)
    requires DocInv(d) && Below(d, next) && fenced < next
    requires SettleDoc(d, input, now, next).Ok?
    ensures Keeps(d, SettleDoc(d, input, now, next).value.doc, next, SettleDoc(d, input, now, next).value.next, fenced)
  {
    var d' := SettleDoc(d, input, now, next).value.doc;
    var i := Find(d.wakes, input.wake);
    if d.wakes[i].state.Settled? {
      QuietKeeps(d, d', next, fenced);
    } else {
      assert WakeOk(d.wakes[i], d.attempts);
      SettleMoves(d, d', i, Latest(d.attempts, input.wake), next, fenced);
    }
  }

  /** A pending wake without attempts is settled by hand. */
  lemma SettleBare(d: Doc, d': Doc, i: nat, next: Id, fenced: Id)
    requires DocInv(d) && Below(d, next) && fenced < next && i < |d.wakes| == |d'.wakes|
    requires d.wakes[i].state.Pending? && Latest(d.attempts, d.wakes[i].id) < 0
    requires d'.wakes[i] == d.wakes[i].(state := Settled, updatedAt := d'.wakes[i].updatedAt)
    requires forall j :: 0 <= j < |d.wakes| && j != i ==> d'.wakes[j] == d.wakes[j]
    requires d'.attempts == d.attempts && SameFrame(d, d') && d'.state.failureCount == 0 && BudgetOk(d'.state)
    ensures Keeps(d, d', next, next, fenced)
  {
    forall j | 0 <= j < |d.wakes| ensures WakeOk(d'.wakes[j], d'.attempts) && CredentialKept(d, d', j) {
      assert WakeOk(d.wakes[j], d.attempts);
    }
    forall j | 0 <= j < |d.wakes| ensures StampOk(d'.wakes[j], d'.endpoint, d'.state.session) {
      assert StampOk(d.wakes[j], d.endpoint, d.state.session);
    }
  }

  lemma RecoverKeeps(d: Doc, input: ControlInput, now: int, next: Id, fenced: Id)
    requires DocInv(d) && Below(d, next) && fenced < next
    requires RecoverDoc(d, input, now, next).Ok?
    ensures Keeps(d, RecoverDoc(d, input, now, next).value.doc, next, RecoverDoc(d, input, now, next).value.next, fenced)
  {
    var d' := RecoverDoc(d, input, now, next).value.doc;
    var i := Find(d.wakes, input.wake);
    if input.wake == NO_ID || d.wakes[i].state.Settled? {
      QuietKeeps(d, d', next, fenced);
    } else {
      var k := Latest(d.attempts, d.wakes[i].id);
      assert WakeOk(d.wakes[i], d.attempts);
      if k < 0 { SettleBare(d, d', i, next, fenced); } else { SettleMoves(d, d', i, k, next, fenced); }
    }
  }

  // ------------------------------------------------------------------ placing outcomes

  lemma MergeKeeps(d: Doc, o: Outcome, now: int, next: Id, fenced: Id)
    requires DocInv(d) && Below(d, next) && fenced < next
    ensures Keeps(d, Merge(d, o, now, next).0, next, Merge(d, o, now, next).1, fenced)
  {
    var d' := Merge(d, o, now, next).0;
    var i := FirstWithRoom(d.wakes, o);
    if !Awaits(d, o.Key()) || Placed(d, o.Key()) {
      QuietKeeps(d, d, next, fenced);
    } else if i < |d.wakes| {
      FillKeeps(d, d', i, next, fenced);
    } else {
      assert forall k :: 0 <= k < |d.attempts| ==> d.attempts[k].value.wake != next;
      StartKeeps(d, d', next, fenced);
    }
  }

  lemma FillKeeps(d: Doc, d': Doc, i: nat, next: Id, fenced: Id)
    requires DocInv(d) && Below(d, next) && fenced < next && i < |d.wakes| == |d'.wakes|
    requires d.wakes[i].state.Unfenced() && d.wakes[i].sources <= d'.wakes[i].sources
    requires d'.wakes[i] == d.wakes[i].(sources := d'.wakes[i].sources, updatedAt := d'.wakes[i].updatedAt)
    requires d' == d.(wakes := d.wakes[i := d'.wakes[i]])
    ensures Keeps(d, d', next, next, fenced)
  {
    FillInv(d, d', i, next);
    forall j | 0 <= j < |d.wakes| ensures CredentialKept(d, d', j) { assert WakeOk(d.wakes[j], d.attempts); }
  }

  lemma FillInv(d: Doc, d': Doc, i: nat, next: Id)
    requires DocInv(d) && Below(d, next) && i < |d.wakes| == |d'.wakes|
    requires d.wakes[i].state.Unfenced() && d.wakes[i].sources <= d'.wakes[i].sources
    requires d'.wakes[i] == d.wakes[i].(sources := d'.wakes[i].sources, updatedAt := d'.wakes[i].updatedAt)
    requires d' == d.(wakes := d.wakes[i := d'.wakes[i]])
    ensures DocInv(d') && Below(d', next)
  {
    AllowanceUnblocked(d.wakes, d'.wakes, i);
    forall j | 0 <= j < |d.wakes| ensures WakeOk(d'.wakes[j], d'.attempts) { assert WakeOk(d.wakes[j], d.attempts); }
    forall j | 0 <= j < |d.wakes| ensures StampOk(d'.wakes[j], d'.endpoint, d'.state.session) {
      assert StampOk(d.wakes[j], d.endpoint, d.state.session);
    }
  }

  lemma AllowanceAppended(wakes: seq<Wake>, w: Wake)
    requires w.state.Pending?
    ensures AllowedFailures(wakes + [w]) == AllowedFailures(wakes)
  {
    var more := wakes + [w];
    assert forall j :: 0 <= j < |wakes| ==> more[j] == wakes[j];
    var b, b' := FirstIn(wakes, BlockedKind), FirstIn(more, BlockedKind);
    assert b < |wakes| ==> b == b';
  }

  /** One pending wake more, with a fresh id. */
  ghost predicate Started(d: Doc, d': Doc, next: Id) {
    && d' == d.(wakes := d'.wakes) && |d'.wakes| == |d.wakes| + 1
    && (forall j :: 0 <= j < |d.wakes| ==> d'.wakes[j] == d.wakes[j])
    && d'.wakes[|d.wakes|].state.Pending? && d'.wakes[|d.wakes|].id == next
    && StampOk(d'.wakes[|d.wakes|], d.endpoint, d.state.session)
  }

  lemma StartInv(d: Doc, d': Doc, next: Id)
    requires DocInv(d) && Below(d, next) && Started(d, d', next)
    ensures DocInv(d') && Below(d', next + 1)
  {
    AllowanceAppended(d.wakes, d'.wakes[|d.wakes|]);
    assert d'.wakes == d.wakes + [d'.wakes[|d.wakes|]];
    forall j | 0 <= j < |d'.wakes| ensures WakeOk(d'.wakes[j], d'.attempts) {
      if j < |d.wakes| { assert WakeOk(d.wakes[j], d.attempts); }
    }
    forall j | 0 <= j < |d'.wakes| ensures StampOk(d'.wakes[j], d'.endpoint, d'.state.session) {
      if j < |d.wakes| { assert StampOk(d.wakes[j], d.endpoint, d.state.session); }
    }
  }

  lemma StartKeeps(d: Doc, d': Doc, next: Id, fenced: Id)
    requires DocInv(d) && Below(d, next) && fenced < next && Started(d, d', next)
    ensures Keeps(d, d', next, next + 1, fenced)
  {
    StartInv(d, d', next);
    forall j | 0 <= j < |d.wakes| ensures CredentialKept(d, d', j) && WakeEvolves(d.wakes[j], d'.wakes[j], fenced) {
      assert WakeOk(d.wakes[j], d.attempts);
    }
  }

  lemma MergeAllKeeps(d: Doc, os: Outcomes, now: int, next: Id, fenced: Id)
    requires DocInv(d) && Below(d, next) && fenced < next
    ensures Keeps(d, MergeAll(d, os, now, next).0, next, MergeAll(d, os, now, next).1, fenced)
    decreases |os|
  {
    if os == [] {
      QuietKeeps(d, d, next, fenced);
    } else {
      var (d1, n1) := Merge(d, os[0], now, next);
      MergeKeeps(d, os[0], now, next, fenced);
      MergeAllKeeps(d1, os[1..], now, n1, fenced);
      var (d2, n2) := MergeAll(d1, os[1..], now, n1);
      KeepsTransitive(d, d1, d2, next, n1, n2, fenced);
    }
  }

  lemma AwaitKeeps(d: Doc, input: ControlInput, targets: Targets, table: seq<Receipt>, now: int, next: Id, fenced: Id)
    requires DocInv(d) && Below(d, next) && fenced < next
    requires AwaitDoc(d, input, targets, table, now, next).Ok?
    ensures Keeps(d, AwaitDoc(d, input, targets, table, now, next).value.doc, next,
                  AwaitDoc(d, input, targets, table, now, next).value.next, fenced)
  {
    var d1 := d.(state := d.state.(sources := input.sources, phase := Waiting));
    QuietKeeps(d, d1, next, fenced);
    var os := StoredOutcomes(table, d.state.session);
    MergeAllKeeps(d1, os, now, next, fenced);
    var (d2, n2) := MergeAll(d1, os, now, next);
    KeepsTransitive(d, d1, d2, next, next, n2, fenced);
  }

  lemma ControlKeeps(d: Doc, input: ControlInput, targets: Targets, table: seq<Receipt>, now: int, next: Id, fenced: Id)
    requires DocInv(d) && Below(d, next) && fenced < next
    requires Control(d, input, targets, table, now, next).Ok?
    ensures Keeps(d, Control(d, input, targets, table, now, next).value.doc, next,
                  Control(d, input, targets, table, now, next).value.next, fenced)
  {
    match input.action
    case Recover => RecoverKeeps(d, input, now, next, fenced);
    case Await => AwaitKeeps(d, input, targets, table, now, next, fenced);
    case Settle => SettleKeeps(d, input, now, next, fenced);
    case UnknownControl =>
    case _ => QuietKeeps(d, Control(d, input, targets, table, now, next).value.doc, next, fenced);
  }

  // ------------------------------------------------------------------ presentation

  /** Replacing the endpoint of a document without a blocked wake. */
  lemma RestampInv(d: Doc, d': Doc, now: int)
    requires DocInv(d) && forall i :: 0 <= i < |d.wakes| ==> !d.wakes[i].state.Blocked()
    requires d'.wakes == RestampAll(d.wakes, d'.endpoint.id, d'.endpoint.generation, now)
    requires d'.attempts == d.attempts && d'.state == d.state
    ensures DocInv(d')
  {
    assert FirstIn(d'.wakes, BlockedKind) == |d'.wakes|;
    forall i | 0 <= i < |d.wakes| ensures WakeOk(d'.wakes[i], d'.attempts) {
      RestampWakeOk(d.wakes[i], d.attempts, d'.endpoint, now);
    }
    forall i, j | 0 <= i < j < |d.wakes| ensures d'.wakes[i].id != d'.wakes[j].id {
      assert d'.wakes[i].id == d.wakes[i].id && d'.wakes[j].id == d.wakes[j].id;
    }
    forall i | 0 <= i < |d.wakes| ensures StampOk(d'.wakes[i], d'.endpoint, d'.state.session) {
      assert StampOk(d.wakes[i], d.endpoint, d.state.session);
    }
  }

  lemma RestampKeeps(d: Doc, d': Doc, now: int, next: Id, next': Id, fenced: Id)
    requires DocInv(d) && Below(d, next) && fenced < next && next <= next' && d'.endpoint.id < next'
    requires forall i :: 0 <= i < |d.wakes| ==> !d.wakes[i].state.Blocked()
    requires d'.wakes == RestampAll(d.wakes, d'.endpoint.id, d'.endpoint.generation, now)
    requires d'.attempts == d.attempts && d'.state == d.state
    ensures Keeps(d, d', next, next', fenced)
  {
    RestampInv(d, d', now);
    forall i | 0 <= i < |d.wakes| ensures WakeEvolves(d.wakes[i], d'.wakes[i], fenced) && CredentialKept(d, d', i) { }
  }

  lemma RestampWakeOk(w: Wake, attempts: seq<Attempt>, e: Endpoint, now: int)
    requires WakeOk(w, attempts)
    ensures WakeOk(Restamp(w, e.id, e.generation, now), attempts)
  {
  }

  lemma PresentKeeps(d: Doc, recover: bool, now: int, next: Id, fenced: Id)
    requires DocInv(d) && Below(d, next) && fenced < next
    requires Present(d, recover, now, next).Ok?
    ensures Keeps(d, Present(d, recover, now, next).value.doc, next, Present(d, recover, now, next).value.next, fenced)
    ensures Present(d, recover, now, next).value.doc.endpoint.generation > d.endpoint.generation
  {
    var d' := Present(d, recover, now, next).value.doc;
    assert FirstIn(d.wakes, BlockedKind) == |d.wakes|;
    RestampKeeps(d, d', now, next, next + 2, fenced);
  }

  // ------------------------------------------------------------------ the view controller

  lemma ClaimKeeps(d: Doc, i: nat, binding: Id, now: int, next: Id, fenced: Id)
    requires DocInv(d) && Below(d, next) && fenced < next && i < |d.wakes| && d.wakes[i].state.Pending?
    requires forall j :: 0 <= j < |d.wakes| ==> !d.wakes[j].state.Active()
    ensures Keeps(d, Claim(d, i, binding, now, next).doc, next, next + 1, fenced)
  {
    var d' := Claim(d, i, binding, now, next).doc;
    var a := d'.attempts[|d.attempts|];
    AllowanceUnblocked(d.wakes, d'.wakes, i);
    assert d'.wakes[i] == d.wakes[i].(state := Claimed, updatedAt := At(now));
    forall j | 0 <= j < |d.wakes| ensures WakeOk(d'.wakes[j], d'.attempts) {
      LatestAppend(d.attempts, a, d.wakes[j].id);
      assert WakeOk(d.wakes[j], d.attempts);
    }
    forall j | 0 <= j < |d.wakes| ensures WakeEvolves(d.wakes[j], d'.wakes[j], fenced) && CredentialKept(d, d', j) {
    }
    forall j | 0 <= j < |d.wakes| ensures StampOk(d'.wakes[j], d'.endpoint, d'.state.session) {
      assert StampOk(d.wakes[j], d.endpoint, d.state.session);
    }
  }

  lemma AcquireKeeps(d: Doc, input: ControllerInput, targets: Targets, now: int, next: Id, fenced: Id)
    requires DocInv(d) && Below(d, next) && fenced < next
    requires AcquireWake(d, input, targets, now, next).Ok?
    ensures Keeps(d, AcquireWake(d, input, targets, now, next).value.doc, next,
                  AcquireWake(d, input, targets, now, next).value.next, fenced)
  {
    var c := AcquireWake(d, input, targets, now, next).value;
    if c.doc == d {
      QuietKeeps(d, d, next, fenced);
    } else {
      assert FirstIn(d.wakes, BlockedKind) == |d.wakes| && FirstIn(d.wakes, ClaimedKind) == |d.wakes|;
      ClaimKeeps(d, Claimable(d.wakes, input.wake), input.binding, now, next, fenced);
    }
  }

  lemma PrepareKeeps(d: Doc, input: ControllerInput, targets: Targets, now: int, next: Id, fenced: Id)
    requires DocInv(d) && Below(d, next) && fenced < next
    requires PrepareDispatch(d, input, targets, now, next).Ok? && fenced == input.wake
    ensures Keeps(d, PrepareDispatch(d, input, targets, now, next).value.doc, next, next + 1, fenced)
  {
    var d' := PrepareDispatch(d, input, targets, now, next).value.doc;
    var i := Find(d.wakes, input.wake);
    var k := Latest(d.attempts, input.wake);
    MirrorAt(d, i);
    MovesKeepsWakes(d, d', i, k);
    OnlyBlocked(d'.wakes, i);
    MovesEvolve(d, d', i, k, next, next + 1, fenced);
  }

  /** A delivery report that moves a blocked wake to another blocked state. */
  lemma ReportMoves(d: Doc, d': Doc, i: nat, k: nat, next: Id, fenced: Id)
    requires DocInv(d) && Below(d, next) && fenced < next && Moves(d, d', i, k) && d.wakes[i].state.Blocked()
    requires d'.wakes[i].state.Blocked() && Mirrors(d'.attempts[k], d'.wakes[i].state)
    requires SameFrame(d, d') && SameWake(d.wakes[i], d'.wakes[i]) && WakeEvolves(d.wakes[i], d'.wakes[i], fenced)
    requires d'.state.failureCount <= FailureBound(d'.wakes[i].state) && BudgetOk(d'.state)
    requires d'.attempts[k].value.id == d.attempts[k].value.id && d'.attempts[k].consumeHash == d.attempts[k].consumeHash
    ensures Keeps(d, d', next, next, fenced)
  {
    MovesKeepsWakes(d, d', i, k);
    OnlyBlocked(d'.wakes, i);
    MovesEvolve(d, d', i, k, next, next, fenced);
  }

  ghost predicate Reportable(d: Doc, i: nat, k: nat) {
    && i < |d.wakes| && k < |d.attempts| && k == Latest(d.attempts, d.wakes[i].id)
    && d.attempts[k].value.finishedAt.Never? && d.attempts[k].value.preparedAt.At?
  }

  /** A late report leaves only its receipt. */
  lemma LateReportKeeps(d: Doc, i: nat, k: nat, delivery: WakeState, now: int, next: Id, fenced: Id)
    requires DocInv(d) && Below(d, next) && fenced < next && Reportable(d, i, k)
    requires !ReportMovesWake(d.wakes[i], d.attempts[k].value, delivery)
    ensures Keeps(d, ReportDelivery(d, i, k, delivery, now), next, next, fenced)
  {
    var d' := ReportDelivery(d, i, k, delivery, now);
    assert d'.wakes == d.wakes && d'.state == d.state && d'.endpoint == d.endpoint;
    assert Mirrors(d'.attempts[k], d.wakes[i].state) by { assert WakeOk(d.wakes[i], d.attempts); }
    MovesEvolve(d, d', i, k, next, next, fenced);
  }

  lemma FirstReportKeeps(d: Doc, i: nat, k: nat, delivery: WakeState, now: int, next: Id, fenced: Id)
    requires DocInv(d) && Below(d, next) && fenced < next && Reportable(d, i, k) && DeliveryStatus(delivery)
    requires ReportMovesWake(d.wakes[i], d.attempts[k].value, delivery)
    ensures Keeps(d, ReportDelivery(d, i, k, delivery, now), next, next, fenced)
  {
    var d' := ReportDelivery(d, i, k, delivery, now);
    MirrorAt(d, i);
    OnlyBlocked(d.wakes, i);
    assert d'.wakes[i] == d.wakes[i].(state := delivery, updatedAt := At(now));
    ReportMoves(d, d', i, k, next, fenced);
  }

  lemma ReportKeeps(d: Doc, i: nat, k: nat, delivery: WakeState, now: int, next: Id, fenced: Id)
    requires DocInv(d) && Below(d, next) && fenced < next && Reportable(d, i, k) && DeliveryStatus(delivery)
    ensures Keeps(d, ReportDelivery(d, i, k, delivery, now), next, next, fenced)
  {
    if ReportMovesWake(d.wakes[i], d.attempts[k].value, delivery) {
      FirstReportKeeps(d, i, k, delivery, now, next, fenced);
    } else {
      LateReportKeeps(d, i, k, delivery, now, next, fenced);
    }
  }

  lemma FinishKeeps(d: Doc, input: ControllerInput, now: int, next: Id, fenced: Id)
    requires DocInv(d) && Below(d, next) && fenced < next
    requires FinishDispatch(d, input, now, next).Ok?
    ensures Keeps(d, FinishDispatch(d, input, now, next).value.doc, next, next, fenced)
  {
    var i, k := Find(d.wakes, input.wake), Latest(d.attempts, input.wake);
    if d.attempts[k].value.finishedAt.At? {
      QuietKeeps(d, d, next, fenced);
    } else {
      ReportKeeps(d, i, k, input.delivery, now, next, fenced);
    }
  }

  predicate QuietAction(input: ControllerInput) {
    !input.action.Acquire? && !input.action.Prepare? && !input.action.Finish?
  }

  lemma QuietControllerKeeps(d: Doc, input: ControllerInput, targets: Targets, now: int, next: Id, fenced: Id)
    requires DocInv(d) && Below(d, next) && fenced < next && QuietAction(input)
    requires Controller(d, input, targets, now, next).Ok?
    ensures Keeps(d, Controller(d, input, targets, now, next).value.doc, next,
                  Controller(d, input, targets, now, next).value.next, fenced)
  {
    QuietKeeps(d, Controller(d, input, targets, now, next).value.doc, next, fenced);
  }

  lemma ControllerKeeps(d: Doc, input: ControllerInput, targets: Targets, now: int, next: Id, fenced: Id)
    requires DocInv(d) && Below(d, next) && fenced < next
    requires Controller(d, input, targets, now, next).Ok? && (input.action.Prepare? ==> fenced == input.wake)
    ensures Keeps(d, Controller(d, input, targets, now, next).value.doc, next,
                  Controller(d, input, targets, now, next).value.next, fenced)
  {
    if input.action.Acquire? {
      AcquireKeeps(d, input, targets, now, next, fenced);
    } else if input.action.Prepare? {
      PrepareKeeps(d, input, targets, now, next, fenced);
    } else if input.action.Finish? {
      FinishKeeps(d, input, now, next, fenced);
    } else {
      QuietControllerKeeps(d, input, targets, now, next, fenced);
    }
  }

  // ------------------------------------------------------------------ consumption

  lemma ConsumeKeeps(d: Doc, e: Envelope, targets: Targets, now: int, next: Id, fenced: Id)
    requires DocInv(d) && Below(d, next) && fenced < next
    requires Consume(d, e, targets, now, next).Ok?
    ensures Keeps(d, Consume(d, e, targets, now, next).value.doc, next, next, fenced)
  {
    var d' := Consume(d, e, targets, now, next).value.doc;
    var i := Find(d.wakes, e.wake);
    var k := Latest(d.attempts, e.wake);
    MirrorAt(d, i);
    OnlyBlocked(d.wakes, i);
    MovesKeepsWakes(d, d', i, k);
    OnlyBlocked(d'.wakes, i);
    MovesEvolve(d, d', i, k, next, next, fenced);
  }
}
