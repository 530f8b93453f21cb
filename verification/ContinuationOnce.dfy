/**
 Exactly-once outcomes: what every step of the store keeps about receipts, placements and awaited results.
 */
module ContinuationOnce {
  import opened Wrappers
  import opened ContinuationModel
  import opened ContinuationSpec
  import opened ContinuationInvariant
  import opened ContinuationSteps
  import opened ContinuationSaving
  import opened ContinuationPlacement
  import opened ContinuationSystem

  ghost predicate DocOk(d: Doc, session: Id, next: Id) {
    DocInv(d) && Below(d, next) && d.state.session == session && NoDup(d.wakes)
  }

  ghost predicate RowOk(c: Config, r: Receipt) {
    r.eligible.Eligible? ==>
      && r.outcome.Some? && r.outcome.value.session == r.session && r.outcome.value.Key() == r.Key()
      && r.outcome.value.event == r.event
      && TargetKey(r.session, r.target) in c.targets && c.targets[TargetKey(r.session, r.target)].node == r.node
  }

  ghost predicate UniqueRows(table: seq<Receipt>) {
    forall i, j :: 0 <= i < j < |table| ==>
      !SameEvent(table[j], table[i].node, table[i].event) && !SameCommand(table[j], table[i].node, table[i].command)
  }

  ghost predicate TableOk(c: Config, table: seq<Receipt>) {
    UniqueRows(table) && forall i :: 0 <= i < |table| ==> RowOk(c, table[i])
  }

  ghost predicate RowFor(r: Receipt, session: Id, key: Source) {
    r.session == session && r.Key() == key
  }

  /** The command has a receipt from the node its Target lives on. */
  ghost predicate Receipted(c: Config, table: seq<Receipt>, session: Id, key: Source) {
    exists i :: 0 <= i < |table| && RowFor(table[i], session, key) &&
      TargetKey(session, key.target) in c.targets && table[i].node == c.targets[TargetKey(session, key.target)].node
  }

  ghost predicate NoEligible(table: seq<Receipt>, session: Id, key: Source) {
    forall i :: 0 <= i < |table| && RowFor(table[i], session, key) ==> !table[i].eligible.Eligible?
  }

  /** The outcome's full text is still stored and has not been handed over for good. */
  ghost predicate Backed(table: seq<Receipt>, o: Outcome) {
    exists i :: 0 <= i < |table| && table[i].eligible.Eligible? && table[i].outcome == Some(o)
  }

  ghost predicate Keeping(w: Wake, key: Source) {
    !w.state.Settled? && Holds(w, key)
  }

  ghost predicate HeldUnsettled(s: System, pl: Placement) {
    pl.session in s.docs &&
    exists i :: 0 <= i < |s.docs[pl.session].wakes| && s.docs[pl.session].wakes[i].id == pl.wake &&
      Keeping(s.docs[pl.session].wakes[i], pl.source)
  }

  ghost predicate PlacementOk(c: Config, s: System, pl: Placement) {
    && pl.wake < s.next
    && Receipted(c, s.receipts, pl.session, pl.source)
    && (HeldUnsettled(s, pl) || NoEligible(s.receipts, pl.session, pl.source))
  }

  ghost predicate AllBacked(d: Doc, table: seq<Receipt>) {
    forall i, p :: At?(d.wakes, i, p) && !d.wakes[i].state.Settled? ==> Backed(table, OutcomeAt(d.wakes, i, p))
  }

  ghost predicate AllPlaced(d: Doc, session: Id, placed: set<Placement>) {
    forall i, p :: At?(d.wakes, i, p) ==>
      OutcomeAt(d.wakes, i, p).session == session &&
      Placement(session, OutcomeAt(d.wakes, i, p).Key(), d.wakes[i].id) in placed
  }

  /** Every stored result the session awaits sits in an unsettled wake. */
  ghost predicate AwaitedKept(d: Doc, session: Id, table: seq<Receipt>) {
    forall i :: 0 <= i < |table| && StoredFor(table[i], session) && Awaits(d, table[i].Key()) ==>
      exists k :: 0 <= k < |d.wakes| && Keeping(d.wakes[k], table[i].Key())
  }

  ghost predicate AckedOk(s: System) {
    forall a :: a in s.acked ==> exists i :: 0 <= i < |s.receipts| && SameEvent(s.receipts[i], a.node, a.event)
  }

  /** At most one wake ever holds a command's outcome. */
  ghost predicate PlacedOnce(placed: set<Placement>) {
    forall p, q :: p in placed && q in placed && p.session == q.session && p.source == q.source ==> p.wake == q.wake
  }

  ghost predicate SessionOk(s: System, session: Id)
    requires session in s.docs
  {
    var d := s.docs[session];
    && DocOk(d, session, s.next)
    && AllBacked(d, s.receipts)
    && AllPlaced(d, session, s.placed)
    && AwaitedKept(d, session, s.receipts)
  }

  ghost predicate OnceInv(c: Config, s: System) {
    && s.next > NO_ID
    && TableOk(c, s.receipts)
    && PlacedOnce(s.placed)
    && AckedOk(s)
    && (forall pl :: pl in s.placed ==> PlacementOk(c, s, pl))
    && (forall session :: session in s.docs ==> SessionOk(s, session))
  }

  // ------------------------------------------------------------------ what a transaction hands to Save

  ghost predicate NeverPlaced(s: System, session: Id, key: Source) {
    forall pl :: pl in s.placed ==> !(pl.session == session && pl.source == key)
  }

  ghost predicate GrownTable(s: System, session: Id, table: seq<Receipt>) {
    && |s.receipts| <= |table|
    && (forall i :: 0 <= i < |s.receipts| ==> table[i] == s.receipts[i])
    && (forall i :: |s.receipts| <= i < |table| ==> table[i].session == session && NeverPlaced(s, session, table[i].Key()))
  }

  ghost predicate NewAreFresh(s: System, session: Id, d1: Doc, table: seq<Receipt>) {
    forall i, p :: At?(d1.wakes, i, p) && !At?(Load(s, session).wakes, i, p) ==>
      var o := OutcomeAt(d1.wakes, i, p);
      o.session == session && Backed(table, o) && NeverPlaced(s, session, o.Key())
  }

  ghost predicate AwaitedPlaced(d1: Doc, session: Id, table: seq<Receipt>) {
    forall i :: 0 <= i < |table| && StoredFor(table[i], session) && Awaits(d1, table[i].Key()) ==> Placed(d1, table[i].Key())
  }

  ghost predicate Saveable(c: Config, s: System, session: Id, d1: Doc, table: seq<Receipt>, next: Id, fenced: Id) {
    && Keeps(Load(s, session), d1, s.next, next, fenced)
    && d1.state.session == session && NoDup(d1.wakes)
    && TableOk(c, table) && GrownTable(s, session, table)
    && NewAreFresh(s, session, d1, table)
    && AwaitedPlaced(d1, session, table)
  }

  lemma LoadOk(c: Config, s: System, session: Id)
    requires OnceInv(c, s)
    ensures DocOk(Load(s, session), session, s.next)
    ensures AllBacked(Load(s, session), s.receipts) && AllPlaced(Load(s, session), session, s.placed)
    ensures AwaitedKept(Load(s, session), session, s.receipts)
  {
    if session in s.docs { assert SessionOk(s, session); }
  }

  /** An outcome that stays where it was stays itself. */
  lemma OldPosition(d: Doc, d1: Doc, next: Id, fenced: Id, i: int, p: int)
    requires Evolves(d, d1, next, fenced) && At?(d.wakes, i, p)
    ensures At?(d1.wakes, i, p) && OutcomeAt(d1.wakes, i, p) == OutcomeAt(d.wakes, i, p)
    ensures d1.wakes[i].id == d.wakes[i].id && (d.wakes[i].state.Settled? ==> d1.wakes[i].state.Settled?)
  {
    assert WakeEvolves(d.wakes[i], d1.wakes[i], fenced);
  }

  lemma HoldsAt(w: Wake, key: Source) returns (p: int)
    requires Holds(w, key)
    ensures 0 <= p < |w.sources| && w.sources[p].Key() == key
  {
    p :| 0 <= p < |w.sources| && w.sources[p].Key() == key;
  }

  /** Compaction clears exactly the rows of settled wakes. */
  lemma SettledRowsCleared(d1: Doc, table: seq<Receipt>, i: int, key: Source)
    requires 0 <= i < |d1.wakes| && d1.wakes[i].state.Settled? && Holds(d1.wakes[i], key)
    ensures NoEligible(CompactReceipts(d1, table), d1.wakes[i].session, key)
  {
    forall j | 0 <= j < |table| && RowFor(table[j], d1.wakes[i].session, key) && table[j].eligible.Eligible?
      ensures SettledIn(d1, table[j])
    {
    }
  }

  lemma SingleHolder(wakes: seq<Wake>, i: int, p: int, k: int)
    requires NoDup(wakes) && At?(wakes, i, p) && 0 <= k < |wakes| && Holds(wakes[k], OutcomeAt(wakes, i, p).Key())
    ensures k == i
  {
    var q := HoldsAt(wakes[k], OutcomeAt(wakes, i, p).Key());
    assert At?(wakes, k, q) && OutcomeAt(wakes, k, q).Key() == OutcomeAt(wakes, i, p).Key();
  }

  /** A row backing an outcome of an unsettled wake survives compaction. */
  lemma BackingSurvives(c: Config, d1: Doc, table: seq<Receipt>, i: int, p: int)
    requires NoDup(d1.wakes) && TableOk(c, table)
    requires At?(d1.wakes, i, p) && !d1.wakes[i].state.Settled? && Backed(table, OutcomeAt(d1.wakes, i, p))
    ensures Backed(CompactReceipts(d1, table), OutcomeAt(d1.wakes, i, p))
  {
    var o := OutcomeAt(d1.wakes, i, p);
    var j :| 0 <= j < |table| && table[j].eligible.Eligible? && table[j].outcome == Some(o);
    assert RowOk(c, table[j]);
    forall k | 0 <= k < |d1.wakes| && Holds(d1.wakes[k], o.Key()) ensures k == i {
      SingleHolder(d1.wakes, i, p, k);
    }
    assert !SettledIn(d1, table[j]);
    assert CompactReceipts(d1, table)[j] == table[j];
  }

  lemma CompactTableOk(c: Config, d1: Doc, table: seq<Receipt>)
    requires TableOk(c, table)
    ensures TableOk(c, CompactReceipts(d1, table))
  {
    var t := CompactReceipts(d1, table);
    forall i | 0 <= i < |t| ensures RowOk(c, t[i]) {
      assert RowOk(c, table[i]) && t[i] == CompactReceipt(d1, table[i]);
    }
    forall i, j | 0 <= i < j < |t|
      ensures !SameEvent(t[j], t[i].node, t[i].event) && !SameCommand(t[j], t[i].node, t[i].command)
    {
      assert t[i] == CompactReceipt(d1, table[i]) && t[j] == CompactReceipt(d1, table[j]);
    }
  }

  lemma CompactReceipted(c: Config, d1: Doc, table: seq<Receipt>, session: Id, key: Source)
    requires Receipted(c, table, session, key)
    ensures Receipted(c, CompactReceipts(d1, table), session, key)
  {
    var i :| 0 <= i < |table| && RowFor(table[i], session, key) &&
      TargetKey(session, key.target) in c.targets && table[i].node == c.targets[TargetKey(session, key.target)].node;
    assert CompactReceipts(d1, table)[i] == CompactReceipt(d1, table[i]);
  }

  lemma BackedReceipted(c: Config, table: seq<Receipt>, o: Outcome)
    requires TableOk(c, table) && Backed(table, o)
    ensures Receipted(c, table, o.session, o.Key())
  {
    var j :| 0 <= j < |table| && table[j].eligible.Eligible? && table[j].outcome == Some(o);
    assert RowOk(c, table[j]) && RowFor(table[j], o.session, o.Key());
  }

  // ------------------------------------------------------------------ Save keeps each part

  /** The wake at `i` of the uncompacted document, when unsettled, is found in the saved one. */
  lemma UnsettledSaved(s: System, session: Id, d1: Doc, table: seq<Receipt>, now: int, next: Id, events: seq<Event>, i: int, key: Source)
    requires 0 <= i < |d1.wakes| && Keeping(d1.wakes[i], key)
    ensures HeldUnsettled(Save(s, session, d1, table, now, next, events), Placement(session, key, d1.wakes[i].id))
  {
    KeptWakesAreWakes(d1.wakes, SettledCount(d1.wakes));
    var kept := Compact(d1).wakes;
    assert d1.wakes[i] in kept;
    var j :| 0 <= j < |kept| && kept[j] == d1.wakes[i];
  }

  lemma SaveDocOk(c: Config, s: System, session: Id, d1: Doc, table: seq<Receipt>, now: int, next: Id, fenced: Id)
    requires Saveable(c, s, session, d1, table, next, fenced)
    ensures DocOk(Stamped(Compact(d1), now), session, next)
  {
    CompactKeeps(d1, next);
    var d2 := Stamped(Compact(d1), now);
    assert DocInv(d2);
    forall i, p, j, q | At?(d2.wakes, i, p) && At?(d2.wakes, j, q) && OutcomeAt(d2.wakes, i, p).Key() == OutcomeAt(d2.wakes, j, q).Key()
      ensures i == j && p == q
    {
      var i1 := CompactedFrom(d1, i);
      var j1 := CompactedFrom(d1, j);
      assert At?(d1.wakes, i1, p) && At?(d1.wakes, j1, q);
      assert OutcomeAt(d1.wakes, i1, p).Key() == OutcomeAt(d1.wakes, j1, q).Key();
      assert d2.wakes[i].id == d2.wakes[j].id;
    }
  }

  lemma NewOrOldBacked(c: Config, s: System, session: Id, d1: Doc, table: seq<Receipt>, next: Id, fenced: Id, i: int, p: int)
    requires OnceInv(c, s) && Saveable(c, s, session, d1, table, next, fenced)
    requires At?(d1.wakes, i, p) && !d1.wakes[i].state.Settled?
    ensures Backed(table, OutcomeAt(d1.wakes, i, p))
  {
    LoadOk(c, s, session);
    if At?(Load(s, session).wakes, i, p) {
      OldPosition(Load(s, session), d1, s.next, fenced, i, p);
      var o := OutcomeAt(d1.wakes, i, p);
      assert Backed(s.receipts, o);
      var j :| 0 <= j < |s.receipts| && s.receipts[j].eligible.Eligible? && s.receipts[j].outcome == Some(o);
      assert table[j] == s.receipts[j];
    }
  }

  lemma OwnOutcome(c: Config, s: System, session: Id, d1: Doc, table: seq<Receipt>, next: Id, fenced: Id, i: int, p: int)
    requires OnceInv(c, s) && Saveable(c, s, session, d1, table, next, fenced) && At?(d1.wakes, i, p)
    ensures OutcomeAt(d1.wakes, i, p).session == session
  {
    LoadOk(c, s, session);
    if At?(Load(s, session).wakes, i, p) {
      OldPosition(Load(s, session), d1, s.next, fenced, i, p);
    }
  }

  lemma SaveSessionOk(c: Config, s: System, session: Id, d1: Doc, table: seq<Receipt>, now: int, next: Id, fenced: Id, events: seq<Event>)
    requires OnceInv(c, s) && Saveable(c, s, session, d1, table, next, fenced)
    ensures SessionOk(Save(s, session, d1, table, now, next, events), session)
  {
    var s' := Save(s, session, d1, table, now, next, events);
    var d2 := s'.docs[session];
    SaveDocOk(c, s, session, d1, table, now, next, fenced);
    forall i, p | At?(d2.wakes, i, p)
      ensures OutcomeAt(d2.wakes, i, p).session == session
      ensures Placement(session, OutcomeAt(d2.wakes, i, p).Key(), d2.wakes[i].id) in s'.placed
      ensures !d2.wakes[i].state.Settled? ==> Backed(s'.receipts, OutcomeAt(d2.wakes, i, p))
    {
      var i1 := CompactedFrom(d1, i);
      assert At?(d1.wakes, i1, p) && OutcomeAt(d1.wakes, i1, p) == OutcomeAt(d2.wakes, i, p);
      OwnOutcome(c, s, session, d1, table, next, fenced, i1, p);
      if !d2.wakes[i].state.Settled? {
        NewOrOldBacked(c, s, session, d1, table, next, fenced, i1, p);
        BackingSurvives(c, d1, table, i1, p);
      }
    }
    forall i | 0 <= i < |s'.receipts| && StoredFor(s'.receipts[i], session) && Awaits(d2, s'.receipts[i].Key())
      ensures exists k :: 0 <= k < |d2.wakes| && Keeping(d2.wakes[k], s'.receipts[i].Key())
    {
      var key := s'.receipts[i].Key();
      assert s'.receipts[i] == CompactReceipt(d1, table[i]) == table[i];
      assert Placed(d1, key);
      var k1 :| 0 <= k1 < |d1.wakes| && Holds(d1.wakes[k1], key);
      assert StampOk(d1.wakes[k1], d1.endpoint, d1.state.session);
      if d1.wakes[k1].state.Settled? {
        SettledRowsCleared(d1, table, k1, key);
        assert false;
      }
      UnsettledSaved(s, session, d1, table, now, next, events, k1, key);
    }
  }

  /** Saving a session touches only that session's rows. */
  lemma OtherRowsStay(d1: Doc, session: Id, table: seq<Receipt>, i: nat)
    requires DocInv(d1) && d1.state.session == session && i < |table| && table[i].session != session
    ensures |CompactReceipts(d1, table)| == |table| && CompactReceipts(d1, table)[i] == table[i]
  {
    forall w | w in d1.wakes ensures w.session == session {
      var k :| 0 <= k < |d1.wakes| && d1.wakes[k] == w;
      assert StampOk(d1.wakes[k], d1.endpoint, d1.state.session);
    }
  }

  lemma OtherStaysBacked(c: Config, s: System, session: Id, d1: Doc, table: seq<Receipt>, next: Id, fenced: Id, other: Id, i: nat, p: nat)
    requires OnceInv(c, s) && Saveable(c, s, session, d1, table, next, fenced)
    requires other in s.docs && other != session
    requires At?(s.docs[other].wakes, i, p) && !s.docs[other].wakes[i].state.Settled?
    ensures Backed(CompactReceipts(d1, table), OutcomeAt(s.docs[other].wakes, i, p))
  {
    var d := s.docs[other];
    assert SessionOk(s, other);
    var o := OutcomeAt(d.wakes, i, p);
    assert Backed(s.receipts, o) && Placement(other, o.Key(), d.wakes[i].id) in s.placed;
    var j :| 0 <= j < |s.receipts| && s.receipts[j].eligible.Eligible? && s.receipts[j].outcome == Some(o);
    assert RowOk(c, s.receipts[j]) && table[j] == s.receipts[j];
    OtherRowsStay(d1, session, table, j);
  }

  lemma SaveOtherSessionOk(c: Config, s: System, session: Id, d1: Doc, table: seq<Receipt>, now: int, next: Id, fenced: Id, events: seq<Event>, other: Id)
    requires OnceInv(c, s) && Saveable(c, s, session, d1, table, next, fenced)
    requires other in s.docs && other != session
    ensures SessionOk(Save(s, session, d1, table, now, next, events), other)
  {
    var s' := Save(s, session, d1, table, now, next, events);
    var d := s.docs[other];
    assert SessionOk(s, other);
    forall i, p | At?(d.wakes, i, p) && !d.wakes[i].state.Settled? ensures Backed(s'.receipts, OutcomeAt(d.wakes, i, p)) {
      OtherStaysBacked(c, s, session, d1, table, next, fenced, other, i, p);
    }
    forall i | 0 <= i < |s'.receipts| && StoredFor(s'.receipts[i], other) && Awaits(d, s'.receipts[i].Key())
      ensures exists k :: 0 <= k < |d.wakes| && Keeping(d.wakes[k], s'.receipts[i].Key())
    {
      if table[i].session != session { OtherRowsStay(d1, session, table, i); }
      assert s'.receipts[i] == table[i] && i < |s.receipts|;
    }
  }

  // ------------------------------------------------------------------ Save keeps the history

  /** What happened to a placement of this session: still held, or its rows are spent. */
  lemma OldPlacementOk(c: Config, s: System, session: Id, d1: Doc, table: seq<Receipt>, now: int, next: Id, fenced: Id, events: seq<Event>, pl: Placement)
    requires OnceInv(c, s) && Saveable(c, s, session, d1, table, next, fenced) && pl in s.placed
    ensures PlacementOk(c, Save(s, session, d1, table, now, next, events), pl)
  {
    var s' := Save(s, session, d1, table, now, next, events);
    assert PlacementOk(c, s, pl);
    OldReceipted(c, s, session, table, pl);
    CompactReceipted(c, d1, table, pl.session, pl.source);
    if pl.session != session {
      OtherPlacement(c, s, session, d1, table, now, next, fenced, events, pl);
    } else if HeldUnsettled(s, pl) {
      var d := s.docs[session];
      var i :| 0 <= i < |d.wakes| && d.wakes[i].id == pl.wake && Keeping(d.wakes[i], pl.source);
      var p := HoldsAt(d.wakes[i], pl.source);
      OldPosition(d, d1, s.next, fenced, i, p);
      assert Holds(d1.wakes[i], pl.source);
      if d1.wakes[i].state.Settled? {
        assert StampOk(d1.wakes[i], d1.endpoint, d1.state.session);
        SettledRowsCleared(d1, table, i, pl.source);
      } else {
        UnsettledSaved(s, session, d1, table, now, next, events, i, pl.source);
      }
    } else {
      assert NoEligible(table, session, pl.source);
    }
  }

  lemma OldReceipted(c: Config, s: System, session: Id, table: seq<Receipt>, pl: Placement)
    requires GrownTable(s, session, table) && Receipted(c, s.receipts, pl.session, pl.source)
    ensures Receipted(c, table, pl.session, pl.source)
  {
    var i :| 0 <= i < |s.receipts| && RowFor(s.receipts[i], pl.session, pl.source) &&
      TargetKey(pl.session, pl.source.target) in c.targets &&
      s.receipts[i].node == c.targets[TargetKey(pl.session, pl.source.target)].node;
    assert table[i] == s.receipts[i];
  }

  lemma OtherPlacement(c: Config, s: System, session: Id, d1: Doc, table: seq<Receipt>, now: int, next: Id, fenced: Id, events: seq<Event>, pl: Placement)
    requires OnceInv(c, s) && Saveable(c, s, session, d1, table, next, fenced)
    requires PlacementOk(c, s, pl) && pl.session != session
    ensures var s' := Save(s, session, d1, table, now, next, events);
            HeldUnsettled(s', pl) || NoEligible(s'.receipts, pl.session, pl.source)
  {
    var s' := Save(s, session, d1, table, now, next, events);
    if HeldUnsettled(s, pl) {
      assert s'.docs[pl.session] == s.docs[pl.session];
    } else {
      forall i | 0 <= i < |s'.receipts| && RowFor(s'.receipts[i], pl.session, pl.source)
        ensures !s'.receipts[i].eligible.Eligible?
      {
        assert s'.receipts[i] == CompactReceipt(d1, table[i]);
        assert table[i] == s.receipts[i];
      }
    }
  }

  lemma PlacementFrom(session: Id, wakes: seq<Wake>, pl: Placement) returns (i: int, p: int)
    requires pl in PlacementsIn(session, wakes)
    ensures At?(wakes, i, p) && pl == Placement(session, OutcomeAt(wakes, i, p).Key(), wakes[i].id)
  {
    i, p :| 0 <= i < |wakes| && 0 <= p < |wakes[i].sources| && pl == Placement(session, wakes[i].sources[p].Key(), wakes[i].id);
  }

  lemma NewPlacementOk(c: Config, s: System, session: Id, d1: Doc, table: seq<Receipt>, now: int, next: Id, fenced: Id, events: seq<Event>, pl: Placement)
    requires OnceInv(c, s) && Saveable(c, s, session, d1, table, next, fenced)
    requires pl in PlacementsIn(session, d1.wakes) && pl !in s.placed
    ensures PlacementOk(c, Save(s, session, d1, table, now, next, events), pl)
    ensures NeverPlaced(s, session, pl.source)
  {
    var i, p := PlacementFrom(session, d1.wakes, pl);
    var d := Load(s, session);
    LoadOk(c, s, session);
    if At?(d.wakes, i, p) { OldPosition(d, d1, s.next, fenced, i, p); }
    var o := OutcomeAt(d1.wakes, i, p);
    assert !At?(d.wakes, i, p) && Backed(table, o);
    BackedReceipted(c, table, o);
    CompactReceipted(c, d1, table, session, o.Key());
    assert Holds(d1.wakes[i], o.Key());
    if d1.wakes[i].state.Settled? {
      assert StampOk(d1.wakes[i], d1.endpoint, d1.state.session);
      SettledRowsCleared(d1, table, i, o.Key());
    } else {
      UnsettledSaved(s, session, d1, table, now, next, events, i, o.Key());
    }
  }

  lemma SavePlacedOnce(c: Config, s: System, session: Id, d1: Doc, table: seq<Receipt>, now: int, next: Id, fenced: Id, events: seq<Event>)
    requires OnceInv(c, s) && Saveable(c, s, session, d1, table, next, fenced)
    ensures PlacedOnce(Save(s, session, d1, table, now, next, events).placed)
  {
    var all := Save(s, session, d1, table, now, next, events).placed;
    forall p, q | p in all && q in all && p.session == q.session && p.source == q.source ensures p.wake == q.wake {
      if p !in s.placed { NewPlacementOk(c, s, session, d1, table, now, next, fenced, events, p); }
      if q !in s.placed { NewPlacementOk(c, s, session, d1, table, now, next, fenced, events, q); }
      if p !in s.placed && q !in s.placed {
        var i, a := PlacementFrom(session, d1.wakes, p);
        var j, b := PlacementFrom(session, d1.wakes, q);
        assert OutcomeAt(d1.wakes, i, a).Key() == OutcomeAt(d1.wakes, j, b).Key();
      }
    }
  }

  lemma SaveKeepsOnce(c: Config, s: System, session: Id, d1: Doc, table: seq<Receipt>, now: int, next: Id, fenced: Id, events: seq<Event>)
    requires OnceInv(c, s) && Saveable(c, s, session, d1, table, next, fenced)
    ensures OnceInv(c, Save(s, session, d1, table, now, next, events))
  {
    var s' := Save(s, session, d1, table, now, next, events);
    CompactTableOk(c, d1, table);
    SavePlacedOnce(c, s, session, d1, table, now, next, fenced, events);
    forall pl | pl in s'.placed ensures PlacementOk(c, s', pl) {
      if pl in s.placed {
        OldPlacementOk(c, s, session, d1, table, now, next, fenced, events, pl);
      } else {
        NewPlacementOk(c, s, session, d1, table, now, next, fenced, events, pl);
      }
    }
    forall other | other in s'.docs ensures SessionOk(s', other) {
      if other == session {
        SaveSessionOk(c, s, session, d1, table, now, next, fenced, events);
      } else {
        SaveOtherSessionOk(c, s, session, d1, table, now, next, fenced, events, other);
      }
    }
    forall a | a in s'.acked ensures exists i :: 0 <= i < |s'.receipts| && SameEvent(s'.receipts[i], a.node, a.event) {
      var i :| 0 <= i < |s.receipts| && SameEvent(s.receipts[i], a.node, a.event);
      assert s'.receipts[i] == CompactReceipt(d1, table[i]) && table[i] == s.receipts[i];
    }
  }
}
