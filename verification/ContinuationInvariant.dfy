/**
 What every request keeps about one document: wake ids are distinct, at most one wake is active, the
 newest attempt mirrors it, unsettled wakes carry the current endpoint, budgets stay in bounds.
 */
module ContinuationInvariant {
  import opened Wrappers
  import opened ContinuationModel
  import opened ContinuationSpec

  ghost predicate DistinctWakes(wakes: seq<Wake>) {
    forall i, j :: 0 <= i < j < |wakes| ==> wakes[i].id != wakes[j].id
  }

  ghost predicate SingleActive(wakes: seq<Wake>) {
    forall i, j :: 0 <= i < j < |wakes| ==> !wakes[i].state.Active() || !wakes[j].state.Active()
  }

  /** An attempt and the wake it is the newest attempt of. */
  ghost predicate Mirrors(a: Attempt, state: WakeState) {
    && (state.Active() ==> a.value.state == state)
    && (state.Unfenced() ==> a.value.preparedAt.Never?)
    && (state.Blocked() ==> a.value.preparedAt.At?)
    && (a.value.finishedAt.At? || a.value.consumedAt.At? ==> a.value.preparedAt.At?)
    && (a.value.consumedAt.At? ==> state.TakenOver())
    && (state.Consumed? || state.NeedsAttention? ==> a.value.consumedAt.At?)
    && (state.Prepared? ==> a.value.finishedAt.Never?)
    && (state.DispatchAccepted? || state.DeliveryRejected? ==> a.value.finishedAt.At?)
  }

  ghost predicate WakeOk(w: Wake, attempts: seq<Attempt>) {
    var k := Latest(attempts, w.id);
    if k < 0 then w.state.Pending? || w.state.Settled? else Mirrors(attempts[k], w.state)
  }

  /** How many failures the unresolved dispatch can account for. */
  function FailureBound(state: WakeState): nat {
    match state
    case DeliveryUnknown => 1
    case DeliveryRejected => 2
    case Consumed => 1
    case NeedsAttention => 1
    case _ => 0
  }

  /** The bound of the first unresolved dispatch; without one there are no failures. */
  function AllowedFailures(wakes: seq<Wake>): nat {
    var i := FirstIn(wakes, BlockedKind);
    if i < |wakes| then FailureBound(wakes[i].state) else 0
  }

  ghost predicate FailuresOk(s: Budget, wakes: seq<Wake>) {
    s.failureCount <= AllowedFailures(wakes)
  }

  ghost predicate StampOk(w: Wake, e: Endpoint, session: Id) {
    w.session == session && (!w.state.Settled? ==> w.endpoint == e.id && w.generation == e.generation)
  }

  ghost predicate BudgetOk(s: Budget) {
    1 <= s.maxRounds <= 100 && s.roundsUsed <= 100 && 1 <= s.maxFailures <= 10
  }

  ghost predicate Below(d: Doc, next: Id) {
    && next > NO_ID
    && d.endpoint.id < next
    && (forall i :: 0 <= i < |d.wakes| ==> NO_ID < d.wakes[i].id < next)
    && (forall i :: 0 <= i < |d.attempts| ==> d.attempts[i].value.wake < next && d.attempts[i].value.id < next)
  }

  ghost predicate DocInv(d: Doc) {
    && DistinctWakes(d.wakes)
    && SingleActive(d.wakes)
    && (forall i :: 0 <= i < |d.wakes| ==> WakeOk(d.wakes[i], d.attempts))
    && (forall i :: 0 <= i < |d.wakes| ==> StampOk(d.wakes[i], d.endpoint, d.state.session))
    && FailuresOk(d.state, d.wakes)
    && BudgetOk(d.state)
  }

  // ------------------------------------------------------------------ lookups after a change

  lemma FindAt(wakes: seq<Wake>, i: nat)
    requires i < |wakes| && DistinctWakes(wakes)
    ensures Find(wakes, wakes[i].id) == i
  {
  }

  lemma LatestSame(xs: seq<Attempt>, ys: seq<Attempt>, wake: Id)
    requires |xs| == |ys|
    requires forall j :: 0 <= j < |xs| ==> xs[j].value.wake == ys[j].value.wake
    ensures Latest(xs, wake) == Latest(ys, wake)
  {
  }

  lemma LatestAppend(xs: seq<Attempt>, a: Attempt, wake: Id)
    ensures Latest(xs + [a], wake) == if a.value.wake == wake then |xs| else Latest(xs, wake)
  {
    assert forall j :: 0 <= j < |xs| ==> (xs + [a])[j] == xs[j];
  }

  lemma OnlyBlocked(wakes: seq<Wake>, i: nat)
    requires SingleActive(wakes) && i < |wakes| && wakes[i].state.Blocked()
    ensures FirstIn(wakes, BlockedKind) == i
    ensures AllowedFailures(wakes) == FailureBound(wakes[i].state)
  {
  }

  // ------------------------------------------------------------------ changing one wake and its newest attempt

  /** The wake at `i` and its newest attempt at `k` change together; nothing else in the two tables does. */
  ghost predicate Moves(d: Doc, d': Doc, i: nat, k: nat) {
    && i < |d.wakes| == |d'.wakes| && k < |d.attempts| == |d'.attempts|
    && k == Latest(d.attempts, d.wakes[i].id)
    && (forall j :: 0 <= j < |d.wakes| && j != i ==> d'.wakes[j] == d.wakes[j])
    && (forall j :: 0 <= j < |d.attempts| && j != k ==> d'.attempts[j] == d.attempts[j])
    && d'.wakes[i].id == d.wakes[i].id && d'.attempts[k].value.wake == d.attempts[k].value.wake
  }

  /** A wake may become active only if it was, or if no wake was. */
  ghost predicate MayActivate(d: Doc, i: nat, state: WakeState)
    requires i < |d.wakes|
  {
    state.Active() ==> d.wakes[i].state.Active() || forall j :: 0 <= j < |d.wakes| ==> !d.wakes[j].state.Active()
  }

  lemma MovesKeepsWakes(d: Doc, d': Doc, i: nat, k: nat)
    requires DistinctWakes(d.wakes) && SingleActive(d.wakes) && Moves(d, d', i, k)
    requires MayActivate(d, i, d'.wakes[i].state)
    ensures DistinctWakes(d'.wakes) && SingleActive(d'.wakes)
  {
  }

  lemma MovesKeepsLatest(d: Doc, d': Doc, i: nat, k: nat, wake: Id)
    requires Moves(d, d', i, k)
    ensures Latest(d'.attempts, wake) == Latest(d.attempts, wake)
  {
    LatestSame(d.attempts, d'.attempts, wake);
  }

  lemma MovesKeepsMirrors(d: Doc, d': Doc, i: nat, k: nat, j: nat)
    requires DistinctWakes(d.wakes) && Moves(d, d', i, k) && j < |d.wakes|
    requires WakeOk(d.wakes[j], d.attempts)
    requires Mirrors(d'.attempts[k], d'.wakes[i].state)
    ensures WakeOk(d'.wakes[j], d'.attempts)
  {
    MovesKeepsLatest(d, d', i, k, d.wakes[j].id);
    if j != i {
      assert d.wakes[j].id != d.wakes[i].id;
    }
  }

  /** The identity of a wake; a settled wake stays settled. */
  ghost predicate SameWake(w: Wake, w': Wake) {
    && w'.id == w.id && w'.session == w.session && w'.endpoint == w.endpoint && w'.generation == w.generation
    && (w.state.Settled? ==> w'.state.Settled?)
  }

  ghost predicate SameFrame(d: Doc, d': Doc) {
    && d'.endpoint.id == d.endpoint.id && d'.endpoint.generation == d.endpoint.generation
    && d'.state.session == d.state.session
  }

  lemma MovesKeeps(d: Doc, d': Doc, i: nat, k: nat)
    requires DocInv(d) && Moves(d, d', i, k)
    requires MayActivate(d, i, d'.wakes[i].state)
    requires Mirrors(d'.attempts[k], d'.wakes[i].state)
    requires SameFrame(d, d') && SameWake(d.wakes[i], d'.wakes[i])
    requires FailuresOk(d'.state, d'.wakes) && BudgetOk(d'.state)
    ensures DocInv(d')
  {
    MovesKeepsWakes(d, d', i, k);
    forall j | 0 <= j < |d.wakes| ensures WakeOk(d'.wakes[j], d'.attempts) {
      MovesKeepsMirrors(d, d', i, k, j);
    }
    forall j | 0 <= j < |d.wakes| ensures StampOk(d'.wakes[j], d'.endpoint, d'.state.session) {
      assert StampOk(d.wakes[j], d.endpoint, d.state.session);
    }
  }

  /** Requests that leave wakes, attempts and the endpoint's identity alone. */
  lemma TablesUnchanged(d: Doc, d': Doc)
    requires DocInv(d)
    requires d'.wakes == d.wakes && d'.attempts == d.attempts
    requires SameFrame(d, d') && d'.state.failureCount <= d.state.failureCount && BudgetOk(d'.state)
    ensures DocInv(d')
  {
  }

  lemma MirrorAt(d: Doc, i: nat)
    requires DocInv(d) && i < |d.wakes| && d.wakes[i].state.Active()
    ensures Latest(d.attempts, d.wakes[i].id) >= 0
    ensures Mirrors(d.attempts[Latest(d.attempts, d.wakes[i].id)], d.wakes[i].state)
    ensures forall j :: 0 <= j < |d.wakes| && j != i ==> !d.wakes[j].state.Active()
  {
    assert WakeOk(d.wakes[i], d.attempts);
  }

  /** Moving a wake between states neither of which is blocked leaves the allowance alone. */
  lemma AllowanceUnblocked(wakes: seq<Wake>, wakes': seq<Wake>, i: nat)
    requires i < |wakes| == |wakes'|
    requires forall j :: 0 <= j < |wakes| && j != i ==> wakes'[j] == wakes[j]
    requires !wakes[i].state.Blocked() && !wakes'[i].state.Blocked()
    ensures AllowedFailures(wakes') == AllowedFailures(wakes)
  {
    var b, b' := FirstIn(wakes, BlockedKind), FirstIn(wakes', BlockedKind);
    assert b < |wakes| ==> !(b < b') && b != i;
    assert b' < |wakes| ==> !(b' < b) && b' != i;
  }

  // ------------------------------------------------------------------ expiry

  lemma ExpireClaimedKeeps(d: Doc, i: nat, now: int)
    requires DocInv(d) && i < |d.wakes| && Due(d, i, now) && d.wakes[i].state.Claimed?
    ensures DocInv(ExpireWake(d, i, now))
  {
    var d' := ExpireWake(d, i, now);
    MirrorAt(d, i);
    AllowanceUnblocked(d.wakes, d'.wakes, i);
    MovesKeeps(d, d', i, Latest(d.attempts, d.wakes[i].id));
  }

  lemma ExpireBlockedKeeps(d: Doc, i: nat, now: int)
    requires DocInv(d) && i < |d.wakes| && Due(d, i, now) && !d.wakes[i].state.Claimed?
    ensures DocInv(ExpireWake(d, i, now))
  {
    var d' := ExpireWake(d, i, now);
    var k := Latest(d.attempts, d.wakes[i].id);
    MirrorAt(d, i);
    OnlyBlocked(d.wakes, i);
    MovesKeepsWakes(d, d', i, k);
    OnlyBlocked(d'.wakes, i);
    MovesKeeps(d, d', i, k);
  }

  lemma ExpireWakeKeeps(d: Doc, i: nat, now: int)
    requires DocInv(d) && i < |d.wakes|
    ensures DocInv(ExpireWake(d, i, now))
  {
    if Due(d, i, now) {
      if d.wakes[i].state.Claimed? { ExpireClaimedKeeps(d, i, now); } else { ExpireBlockedKeeps(d, i, now); }
    }
  }

  lemma ExpireFromKeeps(d: Doc, i: nat, now: int)
    requires DocInv(d) && i <= |d.wakes|
    ensures DocInv(ExpireFrom(d, i, now))
    decreases |d.wakes| - i
  {
    if i < |d.wakes| {
      ExpireWakeKeeps(d, i, now);
      ExpireFromKeeps(ExpireWake(d, i, now), i + 1, now);
    }
  }
}
