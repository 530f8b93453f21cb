/**
 Where outcomes sit in a document: merging adds an awaited outcome once and moves nothing, and no other
 request touches what the wakes hold.
 */
module ContinuationPlacement {
  import opened Wrappers
  import opened ContinuationModel
  import opened ContinuationSpec
  import opened ContinuationInvariant
  import opened ContinuationSteps

  ghost predicate At?(wakes: seq<Wake>, i: int, p: int) {
    0 <= i < |wakes| && 0 <= p < |wakes[i].sources|
  }

  ghost function OutcomeAt(wakes: seq<Wake>, i: int, p: int): Outcome
    requires At?(wakes, i, p)
  {
    wakes[i].sources[p]
  }

  /** No command appears at two places. */
  ghost predicate NoDup(wakes: seq<Wake>) {
    forall i, p, j, q :: At?(wakes, i, p) && At?(wakes, j, q) &&
      OutcomeAt(wakes, i, p).Key() == OutcomeAt(wakes, j, q).Key()
      ==> i == j && p == q
  }

  /** Wakes keep their positions, ids and held outcomes; what is added comes from `os`, is awaited and was nowhere. */
  ghost predicate Grows(d: Doc, d': Doc, os: Outcomes) {
    && d'.state.session == d.state.session && d'.state.sources == d.state.sources
    && |d.wakes| <= |d'.wakes|
    && (forall i :: 0 <= i < |d.wakes| ==> d'.wakes[i].id == d.wakes[i].id && d.wakes[i].sources <= d'.wakes[i].sources)
    && (forall i, p :: At?(d'.wakes, i, p) && !At?(d.wakes, i, p) ==>
          var o := OutcomeAt(d'.wakes, i, p); o in os && Awaits(d, o.Key()) && !Placed(d, o.Key()))
  }

  lemma PlacedIff(d: Doc, key: Source)
    ensures Placed(d, key) <==> exists i, p :: At?(d.wakes, i, p) && OutcomeAt(d.wakes, i, p).Key() == key
  {
    if Placed(d, key) {
      var i :| 0 <= i < |d.wakes| && Holds(d.wakes[i], key);
      var p :| 0 <= p < |d.wakes[i].sources| && d.wakes[i].sources[p].Key() == key;
      assert At?(d.wakes, i, p) && OutcomeAt(d.wakes, i, p).Key() == key;
    }
    if exists i, p :: At?(d.wakes, i, p) && OutcomeAt(d.wakes, i, p).Key() == key {
      var i, p :| At?(d.wakes, i, p) && OutcomeAt(d.wakes, i, p).Key() == key;
      assert Holds(d.wakes[i], key);
    }
  }

  lemma GrowsKeepsPlaced(d: Doc, d': Doc, os: Outcomes, key: Source)
    requires Grows(d, d', os) && Placed(d, key)
    ensures Placed(d', key)
  {
    var i :| 0 <= i < |d.wakes| && Holds(d.wakes[i], key);
    var p :| 0 <= p < |d.wakes[i].sources| && d.wakes[i].sources[p].Key() == key;
    assert d'.wakes[i].sources[p] == d.wakes[i].sources[p];
    assert Holds(d'.wakes[i], key);
  }

  /** Adding one outcome that was nowhere, at one place. */
  lemma OneMore(d: Doc, d': Doc, o: Outcome, at: nat)
    requires NoDup(d.wakes) && !Placed(d, o.Key()) && Awaits(d, o.Key())
    requires d' == d.(wakes := d'.wakes) && at <= |d.wakes|
    requires |d'.wakes| == if at == |d.wakes| then at + 1 else |d.wakes|
    requires forall i :: 0 <= i < |d.wakes| && i != at ==> d'.wakes[i] == d.wakes[i]
    requires if at < |d.wakes| then d'.wakes[at].id == d.wakes[at].id && d'.wakes[at].sources == d.wakes[at].sources + [o]
             else d'.wakes[at].sources == [o]
    ensures Grows(d, d', [o]) && NoDup(d'.wakes) && Placed(d', o.Key())
  {
    var last := |d'.wakes[at].sources| - 1;
    PlacedIff(d, o.Key());
    PlacedIff(d', o.Key());
    assert At?(d'.wakes, at, last) && OutcomeAt(d'.wakes, at, last) == o;
    forall i, p | At?(d'.wakes, i, p) && !(i == at && p == last)
      ensures At?(d.wakes, i, p) && OutcomeAt(d'.wakes, i, p) == OutcomeAt(d.wakes, i, p)
      ensures OutcomeAt(d'.wakes, i, p).Key() != o.Key()
    {
      assert At?(d.wakes, i, p);
    }
  }

  lemma MergeGrows(d: Doc, o: Outcome, now: int, next: Id)
    requires NoDup(d.wakes)
    ensures Grows(d, Merge(d, o, now, next).0, [o]) && NoDup(Merge(d, o, now, next).0.wakes)
    ensures Awaits(d, o.Key()) ==> Placed(Merge(d, o, now, next).0, o.Key())
  {
    if Awaits(d, o.Key()) && !Placed(d, o.Key()) {
      OneMore(d, Merge(d, o, now, next).0, o, FirstWithRoom(d.wakes, o));
    }
  }

  lemma GrowsTransitive(d: Doc, d1: Doc, d2: Doc, os: Outcomes, more: Outcomes, all: Outcomes)
    requires Grows(d, d1, os) && Grows(d1, d2, more)
    requires forall o :: o in os || o in more ==> o in all
    ensures Grows(d, d2, all)
  {
    forall i, p | At?(d2.wakes, i, p) && !At?(d.wakes, i, p)
      ensures var o := OutcomeAt(d2.wakes, i, p); o in all && Awaits(d, o.Key()) && !Placed(d, o.Key())
    {
      var o := OutcomeAt(d2.wakes, i, p);
      if At?(d1.wakes, i, p) {
        assert OutcomeAt(d1.wakes, i, p) == o;
      } else if Placed(d, o.Key()) {
        GrowsKeepsPlaced(d, d1, os, o.Key());
      }
    }
  }

  lemma {:induction false} MergeAllGrows(d: Doc, os: Outcomes, now: int, next: Id)
    requires NoDup(d.wakes)
    ensures Grows(d, MergeAll(d, os, now, next).0, os) && NoDup(MergeAll(d, os, now, next).0.wakes)
    ensures forall o :: o in os && Awaits(d, o.Key()) ==> Placed(MergeAll(d, os, now, next).0, o.Key())
    decreases |os|
  {
    if os != [] {
      var (d1, n1) := Merge(d, os[0], now, next);
      MergeGrows(d, os[0], now, next);
      MergeAllGrows(d1, os[1..], now, n1);
      var d2 := MergeAll(d1, os[1..], now, n1).0;
      GrowsTransitive(d, d1, d2, [os[0]], os[1..], os);
      forall o | o in os && Awaits(d, o.Key()) ensures Placed(d2, o.Key()) {
        if o == os[0] { GrowsKeepsPlaced(d1, d2, os[1..], o.Key()); }
      }
    }
  }

  /** Requests other than `await` leave every wake's outcomes and the awaited set alone. */
  ghost predicate SamePlacement(d: Doc, d': Doc) {
    && d'.state.session == d.state.session && d'.state.sources == d.state.sources
    && |d'.wakes| == |d.wakes|
    && (forall i :: 0 <= i < |d.wakes| ==> d'.wakes[i].id == d.wakes[i].id && d'.wakes[i].sources == d.wakes[i].sources)
  }

  lemma {:induction false} ExpireSamePlacement(d: Doc, i: nat, now: int)
    requires i <= |d.wakes|
    ensures SamePlacement(d, ExpireFrom(d, i, now))
    decreases |d.wakes| - i
  {
    if i < |d.wakes| { ExpireSamePlacement(ExpireWake(d, i, now), i + 1, now); }
  }

  lemma ControlSamePlacement(d: Doc, input: ControlInput, targets: Targets, table: seq<Receipt>, now: int, next: Id)
    requires Control(d, input, targets, table, now, next).Ok? && !input.action.Await?
    ensures SamePlacement(d, Control(d, input, targets, table, now, next).value.doc)
  {
    match input.action
    case Enable => assert SamePlacement(d, EnableDoc(d, input, next).value.doc);
    case Recover => RecoverSamePlacement(d, input, now, next);
    case Settle => assert SamePlacement(d, SettleDoc(d, input, now, next).value.doc);
    case Pause =>
    case Status =>
    case UnknownControl =>
  }

  lemma RecoverSamePlacement(d: Doc, input: ControlInput, now: int, next: Id)
    requires RecoverDoc(d, input, now, next).Ok?
    ensures SamePlacement(d, RecoverDoc(d, input, now, next).value.doc)
  {
    var i := Find(d.wakes, input.wake);
    if input.wake != NO_ID {
      assert SamePlacement(d, ResolveWake(d, i, input.checkpoint, now));
    }
  }

  lemma ReportSamePlacement(d: Doc, i: nat, k: nat, delivery: WakeState, now: int)
    requires i < |d.wakes| && k < |d.attempts|
    ensures SamePlacement(d, ReportDelivery(d, i, k, delivery, now))
  {
  }

  lemma PrepareSamePlacement(d: Doc, input: ControllerInput, targets: Targets, now: int, next: Id)
    requires PrepareDispatch(d, input, targets, now, next).Ok?
    ensures SamePlacement(d, PrepareDispatch(d, input, targets, now, next).value.doc)
  {
  }

  lemma AcquireSamePlacement(d: Doc, input: ControllerInput, targets: Targets, now: int, next: Id)
    requires AcquireWake(d, input, targets, now, next).Ok?
    ensures SamePlacement(d, AcquireWake(d, input, targets, now, next).value.doc)
  {
  }

  lemma ControllerSamePlacement(d: Doc, input: ControllerInput, targets: Targets, now: int, next: Id)
    requires Controller(d, input, targets, now, next).Ok?
    ensures SamePlacement(d, Controller(d, input, targets, now, next).value.doc)
  {
    if input.action.Prepare? {
      PrepareSamePlacement(d, input, targets, now, next);
    } else if input.action.Acquire? {
      AcquireSamePlacement(d, input, targets, now, next);
    } else if input.action.Finish? {
      var i, k := Find(d.wakes, input.wake), Latest(d.attempts, input.wake);
      ReportSamePlacement(d, i, k, input.delivery, now);
    }
  }

  lemma HandleSamePlacement(d: Doc, request: Request, targets: Targets, table: seq<Receipt>, now: int, next: Id)
    requires Handle(d, request, targets, table, now, next).Ok?
    requires !(request.ControlRequest? && request.control.action.Await?)
    ensures SamePlacement(d, Handle(d, request, targets, table, now, next).value.doc)
  {
    match request
    case ControlRequest(_, input) => ControlSamePlacement(d, input, targets, table, now, next);
    case ControllerRequest(_, input) => ControllerSamePlacement(d, input, targets, now, next);
    case PresentRequest(_, _) =>
    case ConsumeRequest(_) =>
  }

  lemma SamePlacementNoDup(d: Doc, d': Doc)
    requires SamePlacement(d, d') && NoDup(d.wakes)
    ensures NoDup(d'.wakes)
    ensures forall key :: Placed(d, key) <==> Placed(d', key)
  {
    forall key ensures Placed(d, key) <==> Placed(d', key) {
      PlacedIff(d, key);
      PlacedIff(d', key);
      assert forall i, p :: At?(d.wakes, i, p) <==> At?(d'.wakes, i, p);
      assert forall i, p :: At?(d.wakes, i, p) ==> OutcomeAt(d.wakes, i, p) == OutcomeAt(d'.wakes, i, p);
    }
    assert forall i, p :: At?(d'.wakes, i, p) ==> At?(d.wakes, i, p) && OutcomeAt(d.wakes, i, p) == OutcomeAt(d'.wakes, i, p);
  }
}
