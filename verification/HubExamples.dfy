/**
 Runs of the hub in which something that one might assume fails: a node's row ahead of the catalogue, a registered node without
 tools though enabled, and a disabled node that stays registered.
 */
module HubExamples {
  import opened Wrappers
  import R = HubRegistry
  import Hub

  type Steps = seq<R.Step>

  function Nodes(steps: Steps): seq<Hub.Step> { seq(|steps|, i requires 0 <= i < |steps| => Hub.Node(steps[i])) }

  /** The registry after steps that begin with nothing. */
  function Reached(steps: Steps): R.Registry { Hub.Run(Hub.Start, Nodes(steps)).registry }

  lemma Then(steps: Steps, s: R.Step)
    ensures Reached(steps + [s]) == R.Next(Reached(steps), s)
  {
    assert Nodes(steps + [s])[..|steps|] == Nodes(steps);
  }

  lemma ThenTwo(steps: Steps, s1: R.Step, s2: R.Step)
    ensures Reached(steps + [s1, s2]) == R.Next(R.Next(Reached(steps), s1), s2)
  {
    Then(steps, s1);
    Then(steps + [s1], s2);
    assert steps + [s1] + [s2] == steps + [s1, s2];
  }

  lemma ThenThree(steps: Steps, s1: R.Step, s2: R.Step, s3: R.Step)
    ensures Reached(steps + [s1, s2, s3]) == R.Next(R.Next(R.Next(Reached(steps), s1), s2), s3)
  {
    ThenTwo(steps, s1, s2);
    Then(steps + [s1, s2], s3);
    assert steps + [s1, s2] + [s3] == steps + [s1, s2, s3];
  }

  // ------------------------------------------------------------------ a first connection of node 7

  function Arriving(phase: R.Phase, snap: Option<R.Snap>): map<R.ConnId, R.Conn> { map[0 := R.Conn(7, phase, snap)] }

  function Arrival(): Steps { [R.Dial(0, 7), R.LockHandshake(0), R.CheckRow(7)] }

  lemma Arrived()
    ensures Reached(Arrival()) == R.Registry(Arriving(R.Accepting, None), map[], map[7 := R.Checked(0)], map[], {}, map[], {}, map[])
  {
    ThenThree([], R.Dial(0, 7), R.LockHandshake(0), R.CheckRow(7));
    assert [] + Arrival() == Arrival();
    assert Reached([]) == R.Empty;
    var g1 := R.Next(R.Empty, R.Dial(0, 7));
    assert g1 == R.Registry(Arriving(R.Dialled, None), map[], map[], map[], {}, map[], {}, map[]);
    assert R.Next(g1, R.LockHandshake(0)) == R.Registry(Arriving(R.Accepting, None), map[], map[7 := R.Checking(0)], map[], {}, map[], {}, map[]);
  }

  /** The rest of a handshake whose row was read back. */
  function Registration(): Steps { [R.Swap(7), R.ClosePrevious(7), R.Publish(7)] }

  function ReadyFor(admitted: bool, rows: map<R.NodeId, R.Row>): R.Registry {
    R.Registry(Arriving(R.Accepting, None), map[], map[7 := R.Ready(0, 1, admitted)], map[], {}, map[7 := 1], {7}, rows)
  }

  function InService(section: R.Section, rows: map<R.NodeId, R.Row>): R.Registry {
    R.Registry(Arriving(R.Accepting, Some(1)), map[7 := 0], map[7 := section], map[], {}, map[7 := 1], {}, rows)
  }

  function HandedTo(g: R.Registry, admitted: bool): R.Registry {
    g.(published := if admitted then map[7 := 1] else map[], hidden := if admitted then {} else {7})
  }

  function Finished(admitted: bool, rows: map<R.NodeId, R.Row>): R.Registry {
    HandedTo(InService(R.Announced(0), rows).(conns := Arriving(R.Reading, Some(1)), locks := map[]), admitted)
  }

  lemma Registered(admitted: bool, rows: map<R.NodeId, R.Row>, steps: Steps)
    requires Reached(steps) == ReadyFor(admitted, rows)
    ensures Reached(steps + Registration() + [R.Unlock(7)]) == Finished(admitted, rows)
  {
    ThenThree(steps, R.Swap(7), R.ClosePrevious(7), R.Publish(7));
    Then(steps + Registration(), R.Unlock(7));
    SwapDone(admitted, rows);
    CloseDone(admitted, rows);
    PublishDone(admitted, rows);
    UnlockDone(admitted, rows);
  }

  lemma SwapDone(admitted: bool, rows: map<R.NodeId, R.Row>)
    ensures R.Next(ReadyFor(admitted, rows), R.Swap(7)) == InService(R.Swapped(0, admitted, None), rows)
  {
  }

  lemma CloseDone(admitted: bool, rows: map<R.NodeId, R.Row>)
    ensures R.Next(InService(R.Swapped(0, admitted, None), rows), R.ClosePrevious(7)) == InService(R.Announcing(0, admitted), rows)
  {
  }

  lemma PublishDone(admitted: bool, rows: map<R.NodeId, R.Row>)
    ensures R.Next(InService(R.Announcing(0, admitted), rows), R.Publish(7)) == HandedTo(InService(R.Announced(0), rows), admitted)
  {
    if admitted { assert {} - {7} == {}; }
  }

  lemma UnlockDone(admitted: bool, rows: map<R.NodeId, R.Row>)
    ensures R.Next(HandedTo(InService(R.Announced(0), rows), admitted), R.Unlock(7)) == Finished(admitted, rows)
  {
  }

  // ------------------------------------------------------------------ the row ahead of the catalogue

  function Served(): Steps { Arrival() + [R.StoreHello(7, 1), R.ReadBack(7)] + Registration() + [R.Unlock(7)] }

  /** Registered with snapshot 1, which is stored and published. */
  const SERVING := R.Registry(Arriving(R.Reading, Some(1)), map[7 := 0], map[], map[7 := 1], {}, map[7 := 1], {}, map[])

  lemma NowServed()
    ensures Reached(Served()) == SERVING
  {
    Arrived();
    ThenTwo(Arrival(), R.StoreHello(7, 1), R.ReadBack(7));
    var g := R.Next(Reached(Arrival()), R.StoreHello(7, 1));
    assert g == R.Registry(Arriving(R.Accepting, None), map[], map[7 := R.Stored(0, 1)], map[], {}, map[7 := 1], {7}, map[]);
    assert R.Next(g, R.ReadBack(7)) == g.(locks := map[7 := R.Ready(0, 1, true)]);
    Registered(true, map[], Arrival() + [R.StoreHello(7, 1), R.ReadBack(7)]);
  }

  function LostReady(): Steps {
    Served() + [R.Dial(1, 7), R.LockHandshake(1), R.CheckRow(7)] + [R.StoreHello(7, 2), R.LoseReady(7)]
  }

  /** A second handshake is stored and not confirmed: the node stays registered with snapshot 1, its row says 2. */
  lemma LostReadyExample()
    ensures var g := Reached(LostReady());
      g.locks == map[] && g.nodes == map[7 := 0] && g.published == map[7 := 1] && g.stored == map[7 := 2]
  {
    NowServed();
    ThenThree(Served(), R.Dial(1, 7), R.LockHandshake(1), R.CheckRow(7));
    ThenTwo(Served() + [R.Dial(1, 7), R.LockHandshake(1), R.CheckRow(7)], R.StoreHello(7, 2), R.LoseReady(7));
    SecondArrives();
    SecondLost();
  }

  lemma SecondLost()
    ensures var g := SERVING.(conns := SERVING.conns[1 := R.Conn(7, R.Accepting, None)], locks := map[7 := R.Checked(1)]);
      R.Next(R.Next(g, R.StoreHello(7, 2)), R.LoseReady(7)) ==
        SERVING.(conns := SERVING.conns[1 := R.Conn(7, R.Dropped, None)], stored := map[7 := 2], unsent := {7})
  {
    var g := SERVING.(conns := SERVING.conns[1 := R.Conn(7, R.Accepting, None)], locks := map[7 := R.Checked(1)]);
    assert R.Next(g, R.StoreHello(7, 2)) == g.(locks := map[7 := R.Stored(1, 2)], stored := map[7 := 2], unsent := {7});
  }

  lemma SecondArrives()
    ensures R.Next(R.Next(R.Next(SERVING, R.Dial(1, 7)), R.LockHandshake(1)), R.CheckRow(7)) ==
      SERVING.(conns := SERVING.conns[1 := R.Conn(7, R.Accepting, None)], locks := map[7 := R.Checked(1)])
  {
    var g1 := R.Next(SERVING, R.Dial(1, 7));
    assert g1 == SERVING.(conns := SERVING.conns[1 := R.Conn(7, R.Dialled, None)]);
    assert R.Next(g1, R.LockHandshake(1)) ==
      SERVING.(conns := SERVING.conns[1 := R.Conn(7, R.Accepting, None)], locks := map[7 := R.Checking(1)]);
  }

  // ------------------------------------------------------------------ enabled and registered, without tools

  function Disabled(saving: nat): map<R.NodeId, R.Row> { map[7 := R.Row(true, saving, 0, false)] }

  function DisabledMeanwhile(): Steps {
    Arrival() + [R.Patch(7, false), R.StoreHello(7, 1), R.ReadBack(7)] +
    [R.Patch(7, true), R.PatchReadBack(7), R.PatchReadBack(7)] + Registration() + [R.Unlock(7)]
  }

  /**
   The row is disabled between its check and its reading back by a handshake, and enabled again before the first update reads
   it back: nothing is outstanding, the node is enabled and registered, its snapshot is stored, and no tool of it is published.
   */
  lemma DisabledMeanwhileExample()
    ensures var g := Reached(DisabledMeanwhile());
      Hub.Quiet(g, 7) && !R.RowOf(g, 7).disabled && g.nodes == map[7 := 0] && g.stored == map[7 := 1] && g.unsent == {} &&
      g.published == map[]
  {
    Arrived();
    ThenThree(Arrival(), R.Patch(7, false), R.StoreHello(7, 1), R.ReadBack(7));
    var s6 := Arrival() + [R.Patch(7, false), R.StoreHello(7, 1), R.ReadBack(7)];
    ReadDisabled();
    ThenThree(s6, R.Patch(7, true), R.PatchReadBack(7), R.PatchReadBack(7));
    EnabledAgain();
    Registered(false, map[7 := R.Row(false, 0, 0, false)], s6 + [R.Patch(7, true), R.PatchReadBack(7), R.PatchReadBack(7)]);
  }

  lemma ReadDisabled()
    ensures var g := R.Registry(Arriving(R.Accepting, None), map[], map[7 := R.Checked(0)], map[], {}, map[], {}, map[]);
      R.Next(R.Next(R.Next(g, R.Patch(7, false)), R.StoreHello(7, 1)), R.ReadBack(7)) == ReadyFor(false, Disabled(1))
  {
    var g := R.Registry(Arriving(R.Accepting, None), map[], map[7 := R.Checked(0)], map[], {}, map[], {}, map[]);
    var g1 := g.(rows := Disabled(1));
    FirstPatch(g);
    assert R.Next(g1, R.StoreHello(7, 1)) == g1.(locks := map[7 := R.Stored(0, 1)], stored := map[7 := 1], unsent := {7});
  }

  lemma FirstPatch(g: R.Registry)
    requires g.rows == map[]
    ensures R.Next(g, R.Patch(7, false)) == g.(rows := Disabled(1))
  {
    R.PatchWrites(g, R.Patch(7, false));
  }

  /** A step of an administrator writes the one row. */
  lemma RowAfter(g: R.Registry, row: R.Row, s: R.Step)
    requires g.rows == map[7 := row] && R.Patching(s) && s.n == 7
    ensures R.Next(g, s) == g.(rows := map[7 := R.Patched(row, s)])
  {
    R.PatchWrites(g, s);
  }

  lemma EnabledAgain()
    ensures R.Next(R.Next(R.Next(ReadyFor(false, Disabled(1)), R.Patch(7, true)), R.PatchReadBack(7)), R.PatchReadBack(7)) ==
      ReadyFor(false, map[7 := R.Row(false, 0, 0, false)])
  {
    var g := ReadyFor(false, Disabled(1));
    RowAfter(g, R.Row(true, 1, 0, false), R.Patch(7, true));
    RowAfter(g.(rows := map[7 := R.Row(false, 2, 0, false)]), R.Row(false, 2, 0, false), R.PatchReadBack(7));
    RowAfter(g.(rows := map[7 := R.Row(false, 1, 0, false)]), R.Row(false, 1, 0, false), R.PatchReadBack(7));
  }

  // ------------------------------------------------------------------ disabled, and still registered

  /** An update disables the row and cannot read it back: the node stays registered, with its tools. */
  lemma AbandonedExample()
    ensures var g := Reached(Served() + [R.Patch(7, false), R.PatchLost(7)]);
      Hub.Quiet(g, 7) && R.RowOf(g, 7).disabled && g.nodes == map[7 := 0] && g.published == map[7 := 1]
  {
    NowServed();
    ThenTwo(Served(), R.Patch(7, false), R.PatchLost(7));
    DisabledAndLost();
  }

  lemma DisabledAndLost()
    ensures R.Next(R.Next(SERVING, R.Patch(7, false)), R.PatchLost(7)) == SERVING.(rows := map[7 := R.Row(true, 0, 0, true)])
  {
    FirstPatch(SERVING);
    RowAfter(SERVING.(rows := Disabled(1)), R.Row(true, 1, 0, false), R.PatchLost(7));
  }
}
