/**
 What a handshake, an update and a disconnect that nobody interrupts bring about, from any state the hub may be in.
 */
module HubOutcomes {
  import opened Wrappers
  import R = HubRegistry
  import P = HubReplies
  import opened Hub

  lemma AfterThree(h: State, a: R.Step, b: R.Step, c: R.Step)
    ensures After(h, [a, b, c]) == Next(Next(Next(h, Node(a)), Node(b)), Node(c))
  {
    AfterLast(h, [a, b], c);
    AfterLast(h, [a], b);
    AfterLast(h, [], a);
    assert [a, b] + [c] == [a, b, c] && [a] + [b] == [a, b] && [] + [a] == [a];
  }

  lemma {:induction false} AfterMore(h: State, one: seq<R.Step>, other: seq<R.Step>)
    ensures After(h, one + other) == After(After(h, one), other)
    decreases |other|
  {
    if other == [] {
      assert one + other == one;
    } else {
      var n := |other| - 1;
      AfterMore(h, one, other[..n]);
      AfterLast(h, one + other[..n], other[n]);
      AfterLast(After(h, one), other[..n], other[n]);
      assert one + other[..n] + [other[n]] == one + other && other[..n] + [other[n]] == other;
    }
  }

  // ------------------------------------------------------------------ disconnects

  /** The node is neither registered nor published, and the lock is free again. */
  predicate Gone(g: R.Registry, n: NodeId) { n !in g.nodes && n !in g.published && n !in g.locks }

  function Clear(n: NodeId): seq<R.Step> { [R.CloseVictim(n), R.RetireTools(n), R.Unlock(n)] }

  /** Closing what was registered, withdrawing the tools, and unlocking. */
  lemma ClearingEnds(h: State, n: NodeId, victim: Option<ConnId>)
    requires n in h.registry.locks && h.registry.locks[n] == R.Clearing(victim) && n !in h.registry.nodes
    requires victim.Some? ==> victim.value in h.replies.lines
    ensures var t := After(h, Clear(n));
      Gone(t.registry, n) && t.registry.nodes == h.registry.nodes &&
      (victim.Some? ==> victim.value in t.replies.lines && t.replies.lines[victim.value].closed)
  {
    AfterThree(h, R.CloseVictim(n), R.RetireTools(n), R.Unlock(n));
    var h1 := Next(h, Node(R.CloseVictim(n)));
    assert h1.registry == R.SetSection(h.registry, n, R.Cleared);
    LeaveClears(h1, n);
  }

  lemma Dropped(h: State, n: NodeId)
    requires n !in h.registry.locks
    ensures var t := After(h, [R.LockDisconnect(n), R.Drop(n)]);
      t.registry == R.SetSection(R.Unregister(h.registry, n), n, R.Clearing(R.Served(h.registry, n))) && t.replies == h.replies
  {
    AfterTwo(h, R.LockDisconnect(n), R.Drop(n));
    var h1 := Next(h, Node(R.LockDisconnect(n)));
    assert h1 == State(R.SetSection(h.registry, n, R.Dropping), h.replies);
    var t := Next(h1, Node(R.Drop(n)));
    assert t.registry.locks == R.SetSection(R.Unregister(h.registry, n), n, R.Clearing(R.Served(h.registry, n))).locks;
  }

  /** A disconnect takes the node out, with its tools, and closes its connection. */
  lemma DisconnectClears(h: State, n: NodeId)
    requires Inv(h) && n !in h.registry.locks
    ensures var t := After(h, [R.LockDisconnect(n), R.Drop(n)] + Clear(n));
      Gone(t.registry, n) && t.registry.nodes == h.registry.nodes - {n} &&
      (n in h.registry.nodes ==> h.registry.nodes[n] in t.replies.lines && t.replies.lines[h.registry.nodes[n]].closed)
  {
    AfterMore(h, [R.LockDisconnect(n), R.Drop(n)], Clear(n));
    Dropped(h, n);
    assert R.NodeOk(h.registry, n);
    if n in h.registry.nodes { assert Tracked(h, h.registry.nodes[n]); }
    ClearingEnds(After(h, [R.LockDisconnect(n), R.Drop(n)]), n, R.Served(h.registry, n));
  }

  /** A handshake of another version does the same, and is dropped itself. */
  lemma OtherVersionClears(h: State, n: NodeId, c: ConnId)
    requires Inv(h) && n in h.registry.locks && h.registry.locks[n] == R.Checking(c)
    ensures var t := After(h, [R.RejectVersion(n)] + Clear(n));
      Gone(t.registry, n) && t.registry.nodes == h.registry.nodes - {n} &&
      (n in h.registry.nodes ==> h.registry.nodes[n] in t.replies.lines && t.replies.lines[h.registry.nodes[n]].closed)
  {
    AfterMore(h, [R.RejectVersion(n)], Clear(n));
    AfterLast(h, [], R.RejectVersion(n));
    assert [] + [R.RejectVersion(n)] == [R.RejectVersion(n)];
    var h1 := Next(h, Node(R.RejectVersion(n)));
    assert R.LockOk(h.registry, n) && R.NodeOk(h.registry, n);
    assert h1.registry.nodes == h.registry.nodes - {n} && h1.replies == h.replies;
    if n in h.registry.nodes { assert Tracked(h, h.registry.nodes[n]); }
    ClearingEnds(h1, n, R.Served(h.registry, n));
  }

  // ------------------------------------------------------------------ handshakes and updates

  /** The node is registered with this connection, whose read loop runs, and its snapshot is stored and published. */
  predicate Serves(g: R.Registry, n: NodeId, c: ConnId, snap: R.Snap) {
    R.Served(g, n) == Some(c) && c in g.conns && g.conns[c] == R.Conn(n, R.Reading, Some(snap)) &&
    n in g.published && g.published[n] == snap && n in g.stored && g.stored[n] == snap && n !in g.locks && n !in g.hidden
  }

  function Enter(n: NodeId, c: ConnId): seq<R.Step> { [R.LockHandshake(c), R.CheckRow(n)] }

  function Store(n: NodeId, snap: R.Snap): seq<R.Step> { [R.StoreHello(n, snap), R.ReadBack(n)] }

  lemma AfterTwo(h: State, a: R.Step, b: R.Step)
    ensures After(h, [a, b]) == Next(Next(h, Node(a)), Node(b))
  {
    AfterLast(h, [a], b);
    AfterLast(h, [], a);
    assert [a] + [b] == [a, b] && [] + [a] == [a];
  }

  lemma Entered(h: State, n: NodeId, c: ConnId)
    requires c in h.registry.conns && h.registry.conns[c] == R.Conn(n, R.Dialled, None) && n !in h.registry.locks
    requires !R.RowOf(h.registry, n).disabled
    ensures After(h, Enter(n, c)) ==
      State(R.SetSection(R.SetPhase(h.registry, c, R.Accepting), n, R.Checked(c)), h.replies)
  {
    AfterTwo(h, R.LockHandshake(c), R.CheckRow(n));
    var h1 := Next(h, Node(R.LockHandshake(c)));
    assert h1 == State(R.SetSection(R.SetPhase(h.registry, c, R.Accepting), n, R.Checking(c)), h.replies);
    assert R.SetSection(h1.registry, n, R.Checked(c)) == R.SetSection(R.SetPhase(h.registry, c, R.Accepting), n, R.Checked(c));
  }

  lemma HelloStored(h: State, n: NodeId, c: ConnId, snap: R.Snap)
    requires n in h.registry.locks && h.registry.locks[n] == R.Checked(c) && !R.RowOf(h.registry, n).disabled
    ensures var t := After(h, Store(n, snap));
      t.replies == h.replies &&
      t.registry == R.SetSection(h.registry, n, R.Ready(c, snap, true)).(
        stored := h.registry.stored[n := snap], unsent := h.registry.unsent + {n})
  {
    AfterTwo(h, R.StoreHello(n, snap), R.ReadBack(n));
    var h1 := Next(h, Node(R.StoreHello(n, snap)));
    assert h1.registry == R.SetSection(h.registry, n, R.Stored(c, snap)).(
      stored := h.registry.stored[n := snap], unsent := h.registry.unsent + {n});
    assert R.SetSection(h1.registry, n, R.Ready(c, snap, true)).locks == R.SetSection(h.registry, n, R.Ready(c, snap, true)).locks;
  }

  lemma SwapDone(h: State, n: NodeId, c: ConnId, snap: R.Snap)
    requires n in h.registry.locks && h.registry.locks[n] == R.Ready(c, snap, true) && c in h.registry.conns
    ensures var t := Next(h, Node(R.Swap(n)));
      t.registry ==
        R.SetSection(R.Accepted(h.registry, n, c, snap), n, R.Swapped(c, true, R.Served(h.registry, n))).(
          nodes := h.registry.nodes[n := c]) &&
      t.replies == h.replies
  {
  }

  lemma CloseDone(h: State, n: NodeId, c: ConnId, previous: Option<ConnId>)
    requires n in h.registry.locks && h.registry.locks[n] == R.Swapped(c, true, previous)
    requires previous.Some? ==> previous.value in h.replies.lines
    ensures var t := Next(h, Node(R.ClosePrevious(n)));
      t.registry == R.SetSection(h.registry, n, R.Announcing(c, true)) &&
      (previous.Some? ==> previous.value in t.replies.lines && t.replies.lines[previous.value].closed)
  {
  }

  lemma Swapped(h: State, n: NodeId, c: ConnId, snap: R.Snap)
    requires n in h.registry.locks && h.registry.locks[n] == R.Ready(c, snap, true) && c in h.registry.conns
    requires R.Served(h.registry, n).Some? ==> R.Served(h.registry, n).value in h.replies.lines
    ensures var t := After(h, [R.Swap(n), R.ClosePrevious(n)]);
      t.registry == R.SetSection(R.Accepted(h.registry, n, c, snap), n, R.Announcing(c, true)).(nodes := h.registry.nodes[n := c]) &&
      (R.Served(h.registry, n).Some? ==>
        R.Served(h.registry, n).value in t.replies.lines && t.replies.lines[R.Served(h.registry, n).value].closed)
  {
    AfterTwo(h, R.Swap(n), R.ClosePrevious(n));
    SwapDone(h, n, c, snap);
    CloseDone(Next(h, Node(R.Swap(n))), n, c, R.Served(h.registry, n));
  }

  lemma Published(h: State, n: NodeId, c: ConnId, snap: R.Snap)
    requires n in h.registry.locks && h.registry.locks[n] == R.Announcing(c, true)
    requires c in h.registry.conns && h.registry.conns[c].snap == Some(snap)
    ensures var t := Next(h, Node(R.Publish(n)));
      t.registry == R.SetSection(h.registry, n, R.Announced(c)).(
        published := h.registry.published[n := snap], hidden := h.registry.hidden - {n}) && t.replies == h.replies
  {
  }

  lemma HandedOver(h: State, n: NodeId, c: ConnId, snap: R.Snap)
    requires n in h.registry.locks && h.registry.locks[n] == R.Announcing(c, true) && R.Served(h.registry, n) == Some(c)
    requires c in h.registry.conns && h.registry.conns[c] == R.Conn(n, R.Accepting, Some(snap))
    requires n in h.registry.stored && h.registry.stored[n] == snap
    ensures var t := After(h, [R.Publish(n), R.Unlock(n)]); Serves(t.registry, n, c, snap) && t.replies == h.replies
  {
    AfterTwo(h, R.Publish(n), R.Unlock(n));
    Published(h, n, c, snap);
    var h1 := Next(h, Node(R.Publish(n)));
    assert Next(h1, Node(R.Unlock(n))) == State(R.Free(R.SetPhase(h1.registry, c, R.Reading), n), h1.replies);
  }

  function Handshake(n: NodeId, c: ConnId, snap: R.Snap): seq<R.Step> {
    Enter(n, c) + Store(n, snap) + [R.Swap(n), R.ClosePrevious(n)] + [R.Publish(n), R.Unlock(n)]
  }

  /** Main result: a handshake of an enabled node that nothing interrupts leaves the new connection serving, and the old one closed. */
  lemma HandshakeServes(h: State, n: NodeId, c: ConnId, snap: R.Snap)
    requires Inv(h) && c in h.registry.conns && h.registry.conns[c] == R.Conn(n, R.Dialled, None) && n !in h.registry.locks
    requires !R.RowOf(h.registry, n).disabled
    ensures var t := After(h, Handshake(n, c, snap));
      Serves(t.registry, n, c, snap) &&
      (n in h.registry.nodes ==> h.registry.nodes[n] in t.replies.lines && t.replies.lines[h.registry.nodes[n]].closed)
  {
    var (a, b, d, e) := (Enter(n, c), Store(n, snap), [R.Swap(n), R.ClosePrevious(n)], [R.Publish(n), R.Unlock(n)]);
    AfterMore(h, a + b + d, e);
    AfterMore(h, a + b, d);
    AfterMore(h, a, b);
    Entered(h, n, c);
    var h2 := After(h, a);
    HelloStored(h2, n, c, snap);
    var h4 := After(h2, b);
    if n in h.registry.nodes {
      assert R.NodeOk(h.registry, n) && Tracked(h, h.registry.nodes[n]);
    }
    Swapped(h4, n, c, snap);
    HandedOver(After(h4, d), n, c, snap);
  }
}
