/**
 The continuation document as the store changes it: a record whose fields the requests assign.
 Every method is proved to leave the document the specification function of the same request gives;
 after an error the document is thrown away, so its fields are then unspecified.
 */
module ContinuationDocument {
  import opened Wrappers
  import opened ContinuationModel
  import opened ContinuationSpec
  import opened ContinuationInvariant

  class Document {
    var state: Budget
    var endpoint: Endpoint
    var bindingHash: Digest
    var viewConsent: bool
    var wakes: seq<Wake>
    var attempts: seq<Attempt>

    function Value(): Doc
      reads this
    {
      Doc(state, endpoint, bindingHash, viewConsent, wakes, attempts)
    }

    constructor (d: Doc)
      ensures Value() == d
    {
      state, endpoint, bindingHash, viewConsent := d.state, d.endpoint, d.bindingHash, d.viewConsent;
      wakes, attempts := d.wakes, d.attempts;
    }

    // ---------------------------------------------------------------- lookups

    method FindWake(id: Id) returns (i: nat)
      ensures i == Find(wakes, id)
    {
      i := 0;
      while i < |wakes|
        invariant 0 <= i <= |wakes|
        invariant forall j :: 0 <= j < i ==> wakes[j].id != id
      {
        if wakes[i].id == id { return; }
        i := i + 1;
      }
    }

    method AttemptForWake(wake: Id) returns (k: int)
      ensures k == Latest(attempts, wake)
    {
      k := |attempts| - 1;
      while k >= 0
        invariant -1 <= k < |attempts|
        invariant forall j :: k < j < |attempts| ==> attempts[j].value.wake != wake
      {
        if attempts[k].value.wake == wake { return; }
        k := k - 1;
      }
    }

    method BlockedWake() returns (blocked: bool)
      ensures blocked == BlockedDoc(Value())
    {
      for i := 0 to |wakes|
        invariant forall j :: 0 <= j < i ==> !wakes[j].state.Blocked()
      {
        if wakes[i].state.Blocked() { return true; }
      }
      return false;
    }

    /** The wake the answer shows: the first that is neither settled nor pending, else the first pending one. */
    method Result() returns (reply: Reply)
      ensures reply == DocReply(Value())
    {
      var selected := NO_ID;
      var any := false;
      for i := 0 to |wakes|
        invariant forall j :: 0 <= j < i ==> !wakes[j].state.Active()
        invariant any <==> FirstIn(wakes, PendingKind) < i
        invariant selected == if any then wakes[FirstIn(wakes, PendingKind)].id else NO_ID
      {
        if wakes[i].state.Settled? { continue; }
        if !any { selected, any := wakes[i].id, true; }
        if !wakes[i].state.Pending? {
          assert FirstIn(wakes, ActiveKind) == i;
          selected := wakes[i].id;
          break;
        }
      }
      reply := WakeReply(Value(), selected);
    }

    // ---------------------------------------------------------------- field changes

    method SetWakeState(i: nat, wakeState: WakeState, now: int)
      requires i < |wakes|
      modifies this`wakes
      ensures Value() == SetWake(old(Value()), i, wakeState, now)
    {
      wakes := wakes[i := wakes[i].(state := wakeState, updatedAt := At(now))];
    }

    method FailContinuation(reason: Reason)
      modifies this`state
      ensures state == Fail(old(state), reason)
    {
      state := state.(failureCount := state.failureCount + 1);
      state := state.(lastError := reason);
      if state.failureCount >= state.maxFailures {
        state := state.(enabled := false);
        state := state.(phase := CircuitOpen);
      }
    }

    // ---------------------------------------------------------------- expiry

    method ExpireAt(i: nat, now: int) returns (changed: bool)
      requires i < |wakes|
      modifies this
      ensures Value() == ExpireWake(old(Value()), i, now)
      ensures changed == Due(old(Value()), i, now)
    {
      changed := false;
      var k := AttemptForWake(wakes[i].id);
      if k < 0 { return; }
      var a := attempts[k];
      if wakes[i].state.Claimed? {
        if Expired(a.value.lease, now) {
          changed := true;
          SetWakeState(i, Pending, now);
          attempts := attempts[k := a.(value := a.value.(state := DeliveryRejected, lastError := ClaimExpired))];
        }
      } else if wakes[i].state.Prepared? || wakes[i].state.DispatchAccepted? {
        if Expired(a.value.lease, now) {
          changed := true;
          SetWakeState(i, DeliveryUnknown, now);
          attempts := attempts[k := a.(value := a.value.(state := DeliveryUnknown))];
          FailContinuation(DispatchNeedsInspection);
          if state.enabled { state := state.(phase := AttentionPhase); }
        }
      } else if wakes[i].state.Consumed? {
        if a.value.consumedAt.Never? || a.value.consumedAt.time + SETTLEMENT_TIMEOUT <= now {
          changed := true;
          SetWakeState(i, NeedsAttention, now);
          attempts := attempts[k := a.(value := a.value.(state := NeedsAttention))];
          state := state.(phase := AttentionPhase);
          state := state.(lastError := NotSettledInTime);
        }
      }
    }

    method ExpireContinuation(now: int) returns (changed: bool)
      modifies this
      ensures Value() == Expire(old(Value()), now)
      ensures changed == AnyDueFrom(old(Value()), 0, now)
    {
      changed := false;
      var i := 0;
      while i < |wakes|
        invariant i <= |wakes|
        invariant ExpireFrom(Value(), i, now) == Expire(old(Value()), now)
        invariant AnyDueFrom(old(Value()), 0, now) == (changed || AnyDueFrom(Value(), i, now))
      {
        var due := ExpireAt(i, now);
        changed := changed || due;
        i := i + 1;
      }
    }

    // ---------------------------------------------------------------- placing outcomes

    method Holding(key: Source) returns (placed: bool)
      ensures placed == Placed(Value(), key)
    {
      for i := 0 to |wakes|
        invariant forall j :: 0 <= j < i ==> !Holds(wakes[j], key)
      {
        for p := 0 to |wakes[i].sources|
          invariant forall q :: 0 <= q < p ==> wakes[i].sources[q].Key() != key
        {
          if wakes[i].sources[p].Key() == key {
            assert Holds(wakes[i], key);
            return true;
          }
        }
      }
      return false;
    }

    method MergeOutcome(o: Outcome, now: int, next: Id) returns (next': Id)
      modifies this`wakes
      ensures (Value(), next') == Merge(old(Value()), o, now, next)
    {
      next' := next;
      var wanted := o.Key() in state.sources;
      if !wanted { return; }
      var placed := Holding(o.Key());
      if placed { return; }
      for i := 0 to |wakes|
        invariant Value() == old(Value())
        invariant forall j :: 0 <= j < i ==> !HasRoom(wakes[j], o)
      {
        if wakes[i].state.Pending? || wakes[i].state.Claimed? {
          if |wakes[i].sources| >= MAX_WAKE_SOURCES { continue; }
          var candidate := wakes[i].sources + [o];
          if EncodedLength(candidate) > MAX_BATCH_BYTES { continue; }
          assert FirstWithRoom(wakes, o) == i;
          wakes := wakes[i := wakes[i].(sources := candidate, updatedAt := At(now))];
          return;
        }
      }
      wakes := wakes + [Wake(state.session, endpoint.id, endpoint.generation, next, Pending, [o], At(now), At(now))];
      next' := next + 1;
    }

    method MergeStoredOutcomes(table: seq<Receipt>, now: int, next: Id) returns (fault: Option<Code>, next': Id)
      modifies this`wakes
      ensures fault.Some? <==> HasLapsed(table, old(state).session, old(state).sources)
      ensures fault.Some? ==> fault == Some(SourceExpired)
      ensures fault.None? ==>
        (Value(), next') == MergeAll(old(Value()), StoredOutcomes(table, old(state).session), now, next)
    {
      next' := next;
      for s := 0 to |state.sources|
        invariant Value() == old(Value())
        invariant forall i, t :: 0 <= i < |table| && 0 <= t < s ==>
          !(table[i].session == state.session && table[i].eligible.Lapsed? && table[i].Key() == state.sources[t])
      {
        for i := 0 to |table|
          invariant Value() == old(Value())
          invariant forall j :: 0 <= j < i ==>
            !(table[j].session == state.session && table[j].eligible.Lapsed? && table[j].Key() == state.sources[s])
        {
          if table[i].session == state.session && table[i].eligible.Lapsed? && table[i].Key() == state.sources[s] {
            return Some(SourceExpired), next;
          }
        }
      }
      var stored := StoredOutcomes(table, state.session);
      var i := 0;
      assert stored[0..] == stored;
      while i < |stored|
        invariant i <= |stored| && state == old(state)
        invariant MergeAll(Value(), stored[i..], now, next') == MergeAll(old(Value()), stored, now, next)
      {
        assert stored[i..][0] == stored[i] && stored[i..][1..] == stored[i + 1..];
        next' := MergeOutcome(stored[i], now, next');
        i := i + 1;
      }
      fault := None;
    }

    // ---------------------------------------------------------------- control requests

    method Enable(input: ControlInput, next: Id) returns (r: Result<Reply, Code>)
      modifies this`state
      ensures Agrees(EnableDoc(old(Value()), input, next), r, next)
    {
      if !input.confirmed { return Err(ConfirmationRequired); }
      if state.failureCount >= state.maxFailures || state.roundsUsed >= state.maxRounds { return Err(RecoveryRequired); }
      if input.maxRounds != 0 {
        if input.maxRounds < 1 || input.maxRounds > 100 { return Err(Invalid); }
        state := state.(maxRounds := input.maxRounds);
      }
      if input.maxFailures != 0 {
        if input.maxFailures < 1 || input.maxFailures > 10 { return Err(Invalid); }
        state := state.(maxFailures := input.maxFailures);
      }
      state := state.(enabled := true);
      state := state.(phase := Ready);
      var reply := Result();
      return Ok(reply);
    }

    /** The method's answer, fields and next id are the specification's; after an error only the answer counts. */
    ghost predicate Agrees(expected: Changed, r: Result<Reply, Code>, next': Id)
      reads this
    {
      match expected
      case Ok(change) => r == Ok(change.reply) && Value() == change.doc && next' == change.next
      case Err(code) => r == Err(code)
    }

    method ResolveByHand(i: nat, checkpoint: string, now: int)
      requires i < |wakes|
      modifies this
      ensures Value() == ResolveWake(old(Value()), i, checkpoint, now)
    {
      if !wakes[i].state.Settled? {
        SetWakeState(i, Settled, now);
        var k := AttemptForWake(wakes[i].id);
        if k >= 0 {
          var a := attempts[k];
          attempts := attempts[k := a.(value := a.value.(state := Settled, lastError := ManuallyResolved(checkpoint)),
                                       consumeHash := NoDigest)];
        }
        state := state.(checkpoint := checkpoint);
      }
    }

    method RecoverByHand(input: ControlInput, now: int, next: Id) returns (r: Result<Reply, Code>)
      modifies this
      ensures Agrees(RecoverDoc(old(Value()), input, now, next), r, next)
    {
      if !input.confirmed { return Err(ConfirmationRequired); }
      if input.wake != NO_ID {
        var i := FindWake(input.wake);
        if i == |wakes| || Blank(input.checkpoint) { return Err(Invalid); }
        ResolveByHand(i, input.checkpoint, now);
      }
      var blocked := BlockedWake();
      if blocked { return Err(AttentionNeeded); }
      ResetBudget();
      var reply := Result();
      return Ok(reply);
    }

    method ResetBudget()
      modifies this`state
      ensures Value() == old(Value()).(state :=
        old(state).(roundsUsed := 0, failureCount := 0, lastError := NoError, enabled := true, phase := Ready))
    {
      state := state.(roundsUsed := 0);
      state := state.(failureCount := 0);
      state := state.(lastError := NoError);
      state := state.(enabled := true);
      state := state.(phase := Ready);
    }

    method AwaitSources(input: ControlInput, targets: Targets, table: seq<Receipt>, now: int, next: Id)
      returns (r: Result<Reply, Code>, next': Id)
      modifies this
      ensures Agrees(AwaitDoc(old(Value()), input, targets, table, now, next), r, next')
    {
      next' := next;
      if !state.enabled { return Err(PausedError), next; }
      if |input.sources| == 0 || |input.sources| > MAX_WAKE_SOURCES { return Err(Invalid), next; }
      var seen: set<Source> := {};
      var i := 0;
      while i < |input.sources|
        invariant i <= |input.sources| && Value() == old(Value())
        invariant seen == set s | s in input.sources[..i]
        invariant SourceFault(input.sources, 0, targets) == SourceFault(input.sources, i, targets)
      {
        var source := input.sources[i];
        if source.command == NO_ID || source in seen { return Err(Invalid), next; }
        seen := seen + {source};
        if source.target !in targets { return Err(TargetDenied), next; }
        assert input.sources[..i + 1] == input.sources[..i] + [source];
        i := i + 1;
      }
      state := state.(sources := input.sources);
      state := state.(phase := Waiting);
      var fault;
      fault, next' := MergeStoredOutcomes(table, now, next);
      if fault.Some? { return Err(fault.value), next; }
      var reply := Result();
      return Ok(reply), next';
    }

    method SettleWake(input: ControlInput, now: int, next: Id) returns (r: Result<Reply, Code>)
      modifies this
      ensures Agrees(SettleDoc(old(Value()), input, now, next), r, next)
    {
      var i := FindWake(input.wake);
      if i == |wakes| { return Err(WakeNotFound); }
      if !wakes[i].state.Settled? {
        var k := AttemptForWake(wakes[i].id);
        if k < 0 || attempts[k].value.consumedAt.Never? { return Err(NotConsumed); }
        if Blank(input.checkpoint) { return Err(Invalid); }
        SetWakeState(i, Settled, now);
        attempts := attempts[k := attempts[k].(value := attempts[k].value.(state := Settled))];
        state := state.(checkpoint := input.checkpoint);
        state := state.(failureCount := 0);
        state := state.(lastError := NoError);
        if state.enabled { state := state.(phase := Ready); }
      }
      var reply := Result();
      return Ok(reply);
    }

    method ControlContinuation(input: ControlInput, targets: Targets, table: seq<Receipt>, now: int, next: Id)
      returns (r: Result<Reply, Code>, next': Id)
      modifies this
      ensures Agrees(Control(old(Value()), input, targets, table, now, next), r, next')
    {
      next' := next;
      match input.action
      case Status =>
        var reply := Result();
        r := Ok(reply);
      case Enable => r := Enable(input, next);
      case Pause =>
        state := state.(enabled := false);
        state := state.(phase := Paused);
        var reply := Result();
        r := Ok(reply);
      case Recover => r := RecoverByHand(input, now, next);
      case Await => r, next' := AwaitSources(input, targets, table, now, next);
      case Settle => r := SettleWake(input, now, next);
      case UnknownControl => r := Err(Invalid);
    }

    // ---------------------------------------------------------------- presentation

    method RestampWakes(id: Id, generation: nat, now: int)
      modifies this`wakes
      ensures wakes == RestampAll(old(wakes), id, generation, now)
    {
      var i := 0;
      while i < |wakes|
        invariant i <= |wakes| == |old(wakes)|
        invariant forall j :: 0 <= j < i ==> wakes[j] == Restamp(old(wakes)[j], id, generation, now)
        invariant forall j :: i <= j < |wakes| ==> wakes[j] == old(wakes)[j]
      {
        if wakes[i].state.Claimed? {
          wakes := wakes[i := wakes[i].(state := Pending, updatedAt := At(now))];
        }
        if wakes[i].state.Pending? {
          wakes := wakes[i := wakes[i].(endpoint := id)];
          wakes := wakes[i := wakes[i].(generation := generation)];
        }
        i := i + 1;
      }
    }

    method PresentContinuation(recover: bool, now: int, next: Id) returns (r: Result<Reply, Code>, next': Id)
      modifies this
      ensures Agrees(Present(old(Value()), recover, now, next), r, next')
    {
      next' := next;
      if endpoint.id != NO_ID && !recover { return Err(RecoveryRequired), next; }
      var blocked := BlockedWake();
      if blocked { return Err(AttentionNeeded), next; }
      var id, secret := next, next + 1;
      next' := next + 2;
      var generation := endpoint.generation + 1;
      endpoint := Endpoint(state.session, id, generation, NO_ID, Never);
      bindingHash := DigestOf(secret);
      viewConsent := false;
      RestampWakes(id, generation, now);
      var reply := Result();
      return Ok(reply.(bindingSecret := secret)), next';
    }

    // ---------------------------------------------------------------- the view controller

    method ControllerIdentity(input: ControllerInput, now: int, lease: bool) returns (refused: Option<Code>)
      ensures refused == Identity(Value(), input, now, lease)
    {
      if input.endpoint == NO_ID || input.endpoint != endpoint.id || input.generation != endpoint.generation ||
         !ValidSecret(input.bindingSecret, bindingHash) {
        return Some(BindingDenied);
      }
      if input.binding == NO_ID || input.bindingLength > MAX_BINDING_LENGTH { return Some(BindingDenied); }
      if lease && (input.binding != endpoint.binding || Expired(endpoint.lease, now)) { return Some(LeaseExpired); }
      return None;
    }

    method BindToView(input: ControllerInput, now: int, next: Id) returns (r: Result<Reply, Code>)
      modifies this
      ensures Agrees(BindView(old(Value()), input, now, next), r, next)
    {
      if endpoint.binding != NO_ID && endpoint.binding != input.binding && !Expired(endpoint.lease, now) {
        return Err(ViewBusy);
      }
      if endpoint.binding != input.binding { viewConsent := false; }
      endpoint := endpoint.(binding := input.binding);
      endpoint := endpoint.(lease := At(now + VIEW_LEASE));
      viewConsent := viewConsent || input.userEnabled;
      var reply := Result();
      return Ok(reply);
    }

    method AcquireClaim(input: ControllerInput, targets: Targets, now: int, next: Id)
      returns (r: Result<Reply, Code>, next': Id)
      modifies this
      ensures Agrees(AcquireWake(old(Value()), input, targets, now, next), r, next')
    {
      next' := next;
      if !state.enabled || !viewConsent { return Err(PausedError), next; }
      if state.roundsUsed >= state.maxRounds || state.failureCount >= state.maxFailures { return Err(BudgetExhausted), next; }
      var fault := RequestedFault(input.wake);
      if fault.Some? { return Err(fault.value), next; }
      var blocked := BlockedWake();
      if blocked {
        if input.wake != NO_ID { return Err(AttentionNeeded), next; }
        var reply := Result();
        return Ok(reply), next;
      }
      var held := FindClaimed();
      if held < |wakes| {
        r := ReuseClaim(held, input, next);
        return r, next;
      }
      r, next' := ClaimPending(input, targets, now, next);
    }

    /** Only the view that holds the claim gets it again. */
    method ReuseClaim(held: nat, input: ControllerInput, next: Id) returns (r: Result<Reply, Code>)
      requires held < |wakes|
      ensures var k := Latest(attempts, wakes[held].id);
              r == if k >= 0 && attempts[k].binding == input.binding && (input.wake == NO_ID || input.wake == wakes[held].id)
                   then Ok(WakeReply(Value(), wakes[held].id)) else Err(ViewBusy)
    {
      var k := AttemptForWake(wakes[held].id);
      if k >= 0 && attempts[k].binding == input.binding && (input.wake == NO_ID || input.wake == wakes[held].id) {
        return Ok(WakeReply(Value(), wakes[held].id));
      }
      return Err(ViewBusy);
    }

    /** A wake asked for by id has to exist and not to be fenced yet. */
    method RequestedFault(wake: Id) returns (fault: Option<Code>)
      ensures fault == if wake == NO_ID then None
                       else if Find(wakes, wake) == |wakes| then Some(WakeNotFound)
                       else if !wakes[Find(wakes, wake)].state.Unfenced() then Some(DispatchFenced) else None
    {
      if wake == NO_ID { return None; }
      var requested := FindWake(wake);
      if requested == |wakes| { return Some(WakeNotFound); }
      if !wakes[requested].state.Pending? && !wakes[requested].state.Claimed? { return Some(DispatchFenced); }
      return None;
    }

    method FindClaimed() returns (i: nat)
      ensures i == FirstIn(wakes, ClaimedKind)
    {
      i := 0;
      while i < |wakes|
        invariant 0 <= i <= |wakes|
        invariant forall j :: 0 <= j < i ==> !wakes[j].state.Claimed?
      {
        if wakes[i].state.Claimed? { return; }
        i := i + 1;
      }
    }

    method ClaimPending(input: ControllerInput, targets: Targets, now: int, next: Id)
      returns (r: Result<Reply, Code>, next': Id)
      modifies this
      ensures var p := Claimable(old(wakes), input.wake);
              Agrees(if p == |old(wakes)| then Done(old(Value()), next)
                     else if !TargetsCurrent(old(wakes)[p], targets) then Err(TargetDenied)
                     else Ok(Claim(old(Value()), p, input.binding, now, next)), r, next')
    {
      var i := 0;
      while i < |wakes|
        invariant i <= |wakes| && Value() == old(Value())
        invariant Claimable(wakes, input.wake) == i + Claimable(wakes[i..], input.wake)
      {
        assert wakes[i..][1..] == wakes[i + 1..];
        if input.wake != NO_ID && wakes[i].id != input.wake { i := i + 1; continue; }
        if !wakes[i].state.Pending? { i := i + 1; continue; }
        var current := WakeTargetsCurrent(i, targets);
        if !current { return Err(TargetDenied), next; }
        SetWakeState(i, Claimed, now);
        attempts := attempts + [Attempt(AttemptValue(next, wakes[i].id, Claimed, At(now + CLAIM_LEASE), Never, Never, Never, NoError),
                                        input.binding, NoDigest)];
        return Ok(WakeReply(Value(), wakes[i].id)), next + 1;
      }
      var reply := Result();
      return Ok(reply), next;
    }

    method WakeTargetsCurrent(i: nat, targets: Targets) returns (current: bool)
      requires i < |wakes|
      ensures current == TargetsCurrent(wakes[i], targets)
    {
      for p := 0 to |wakes[i].sources|
        invariant forall q :: 0 <= q < p ==> CurrentFor(wakes[i].sources[q], targets)
      {
        if !CurrentFor(wakes[i].sources[p], targets) { return false; }
      }
      return true;
    }

    method PrepareMessage(input: ControllerInput, targets: Targets, now: int, next: Id)
      returns (r: Result<Reply, Code>, next': Id)
      modifies this
      ensures Agrees(PrepareDispatch(old(Value()), input, targets, now, next), r, next')
    {
      next' := next;
      var i := FindWake(input.wake);
      if i == |wakes| { return Err(WakeNotFound), next; }
      var k := AttemptForWake(input.wake);
      if k < 0 || attempts[k].value.id != input.attempt || attempts[k].binding != input.binding { return Err(AttemptDenied), next; }
      if !wakes[i].state.Claimed? || attempts[k].value.preparedAt.At? { return Err(DispatchFenced), next; }
      var blocked := BlockedWake();
      if blocked { return Err(AttentionNeeded), next; }
      if !state.enabled || !viewConsent || state.roundsUsed >= state.maxRounds || state.failureCount >= state.maxFailures {
        return Err(PausedError), next;
      }
      var current := WakeTargetsCurrent(i, targets);
      if !current { return Err(TargetDenied), next; }
      var token := next;
      next' := next + 1;
      FenceDispatch(i, k, now, token);
      var envelope := Envelope(1, state.session, input.endpoint, input.generation, input.wake, attempts[k].value.id, token);
      return Ok(WakeReply(Value(), input.wake).(message := Some(envelope))), next';
    }

    method FenceDispatch(i: nat, k: nat, now: int, token: Id)
      requires i < |wakes| && k < |attempts|
      modifies this
      ensures Value() == Fenced(old(Value()), i, k, now, token)
    {
      SetWakeState(i, Prepared, now);
      var a := attempts[k];
      attempts := attempts[k := a.(value := a.value.(state := Prepared, preparedAt := At(now), lease := At(now + DISPATCH_TIMEOUT)),
                                   consumeHash := DigestOf(token))];
      endpoint := endpoint.(lease := At(now + VIEW_LEASE));
      state := state.(roundsUsed := state.roundsUsed + 1);
      state := state.(phase := Dispatching);
    }

    method FinishDelivery(input: ControllerInput, now: int, next: Id) returns (r: Result<Reply, Code>)
      modifies this
      ensures Agrees(FinishDispatch(old(Value()), input, now, next), r, next)
    {
      if !DeliveryStatus(input.delivery) { return Err(Invalid); }
      var i := FindWake(input.wake);
      if i == |wakes| { return Err(WakeNotFound); }
      var k := AttemptForWake(input.wake);
      if k < 0 || attempts[k].value.id != input.attempt || attempts[k].binding != input.binding ||
         attempts[k].value.preparedAt.Never? {
        return Err(AttemptDenied);
      }
      if attempts[k].value.finishedAt.At? { return Ok(WakeReply(Value(), input.wake)); }
      attempts := attempts[k := attempts[k].(value := attempts[k].value.(finishedAt := At(now)))];
      if attempts[k].value.consumedAt.Never? {
        if wakes[i].state.Prepared? || wakes[i].state.DispatchAccepted? ||
           (wakes[i].state.DeliveryUnknown? && input.delivery.DeliveryRejected?) {
          SetWakeState(i, input.delivery, now);
          attempts := attempts[k := attempts[k].(value := attempts[k].value.(state := input.delivery))];
          if !input.delivery.DispatchAccepted? && !state.phase.AttentionPhase? && !state.phase.CircuitOpen? {
            FailContinuation(DeliveryFailed(input.delivery));
            if state.enabled { state := state.(phase := AttentionPhase); }
          }
        }
      }
      assert Value() == ReportDelivery(old(Value()), i, k, input.delivery, now);
      return Ok(WakeReply(Value(), input.wake));
    }

    method ControllerContinuation(input: ControllerInput, targets: Targets, now: int, next: Id)
      returns (r: Result<Reply, Code>, next': Id)
      modifies this
      ensures Agrees(Controller(old(Value()), input, targets, now, next), r, next')
    {
      next' := next;
      var refused := ControllerIdentity(input, now, input.action != Bind);
      if refused.Some? { return Err(refused.value), next; }
      match input.action
      case ViewState =>
        var reply := Result();
        r := Ok(reply);
      case Bind => r := BindToView(input, now, next);
      case Heartbeat =>
        endpoint := endpoint.(lease := At(now + VIEW_LEASE));
        var reply := Result();
        r := Ok(reply);
      case ViewPause =>
        state := state.(enabled := false);
        state := state.(phase := Paused);
        viewConsent := false;
        var reply := Result();
        r := Ok(reply);
      case Acquire => r, next' := AcquireClaim(input, targets, now, next);
      case Prepare => r, next' := PrepareMessage(input, targets, now, next);
      case Finish => r := FinishDelivery(input, now, next);
      case UnknownController => r := Err(Invalid);
    }

    // ---------------------------------------------------------------- consumption

    method ConsumeWorkWake(e: Envelope, targets: Targets, now: int, next: Id) returns (r: Result<Reply, Code>)
      modifies this
      ensures Agrees(Consume(old(Value()), e, targets, now, next), r, next)
    {
      if e.protocolVersion != 1 || e.endpoint != endpoint.id || e.generation != endpoint.generation { return Err(BindingDenied); }
      var i := FindWake(e.wake);
      if i == |wakes| || wakes[i].endpoint != e.endpoint || wakes[i].generation != e.generation { return Err(WakeNotFound); }
      var k := AttemptForWake(e.wake);
      if k < 0 || attempts[k].value.id != e.attempt || attempts[k].value.preparedAt.Never? ||
         !ValidSecret(e.token, attempts[k].consumeHash) {
        return Err(ConsumeDenied);
      }
      var current := WakeTargetsCurrent(i, targets);
      if !current { return Err(TargetDenied); }
      if !wakes[i].state.Prepared? && !wakes[i].state.DispatchAccepted? && !wakes[i].state.DeliveryUnknown? {
        return Err(ConsumeDenied);
      }
      if attempts[k].value.consumedAt.Never? { MarkConsumed(i, k, now); }
      var reply := Result();
      return Ok(reply.(wake := Some(wakes[i]), attempt := Some(attempts[k].value), outcomes := wakes[i].sources));
    }
  
    method MarkConsumed(i: nat, k: nat, now: int)
      requires i < |wakes| && k < |attempts|
      modifies this
      ensures Value() == HandedOver(old(Value()), i, k, now)
    {
      SetWakeState(i, Consumed, now);
      var a := attempts[k];
      attempts := attempts[k := a.(value := a.value.(state := Consumed, consumedAt := At(now)), consumeHash := NoDigest)];
      state := state.(phase := Processing);
    }

    // ---------------------------------------------------------------- saving

    method CompactContinuation()
      modifies this
      ensures Value() == Compact(old(Value()))
    {
      DropOldSettled();
      KeepNewestAttempts();
    }

    /** Drops settled wakes, oldest first, beyond the newest 32. */
    method DropOldSettled()
      modifies this`wakes
      ensures wakes == KeepWakes(old(wakes), SettledCount(old(wakes)))
    {
      var settled: nat := CountSettled();
      var kept: seq<Wake> := [];
      var i := 0;
      assert wakes[0..] == wakes;
      while i < |wakes|
        invariant i <= |wakes|
        invariant kept + KeepWakes(wakes[i..], settled) == KeepWakes(wakes, SettledCount(wakes))
      {
        assert wakes[i..][1..] == wakes[i + 1..];
        if wakes[i].state.Settled? && settled > KEPT_SETTLED {
          settled := settled - 1;
        } else {
          kept := kept + [wakes[i]];
        }
        i := i + 1;
      }
      wakes := kept;
    }

    /** Drops every attempt that is not the newest of a wake still there. */
    method KeepNewestAttempts()
      modifies this`attempts
      ensures attempts == KeepAttempts(old(attempts), wakes, |old(attempts)|)
    {
      var newest: seq<Attempt> := [];
      var i := 0;
      while i < |attempts|
        invariant i <= |attempts| && attempts == old(attempts)
        invariant newest == KeepAttempts(attempts, wakes, i)
      {
        var at := FindWake(attempts[i].value.wake);
        var k := AttemptForWake(attempts[i].value.wake);
        newest := newest + if at < |wakes| && k == i then [attempts[i]] else [];
        i := i + 1;
      }
      attempts := newest;
    }

    method CountSettled() returns (settled: nat)
      ensures settled == SettledCount(wakes)
    {
      settled := 0;
      var i := 0;
      assert wakes[0..] == wakes;
      while i < |wakes|
        invariant i <= |wakes|
        invariant settled + SettledCount(wakes[i..]) == SettledCount(wakes)
      {
        assert wakes[i..][1..] == wakes[i + 1..];
        if wakes[i].state.Settled? { settled := settled + 1; }
        i := i + 1;
      }
    }
  }
}
