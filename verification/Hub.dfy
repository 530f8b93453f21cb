/**
 The connection hub as a whole: handshakes, updates, disconnects, read loops and calls interleave at the granularity of the
 hub's, the connections' and the nodes' locks.
 */
module Hub {
  import opened Wrappers
  import R = HubRegistry
  import P = HubReplies

  type ConnId = P.ConnId
  type NodeId = R.NodeId

  datatype State = State(registry: R.Registry, replies: P.Replies)

  const Start := State(R.Empty, P.Quiet)

  /** Call: a step of a caller, of a read loop that resolves a reply, or of anybody who closes a connection. */
  datatype Step = Node(step: R.Step) | Call(call: P.Step)

  function Closed(replies: P.Replies, c: Option<ConnId>): P.Replies {
    match c
    case None => replies
    case Some(id) => P.CloseLine(replies, id)
  }

  function Next(h: State, step: Step): State {
    match step
    case Node(Dial(c, n)) => State(R.Next(h.registry, R.Dial(c, n)), P.Next(h.replies, P.Open(c)))
    case Node(s) => State(R.Next(h.registry, s), Closed(h.replies, R.Closes(h.registry, s)))
    case Call(s) => if s.Open? then h else h.(replies := P.Next(h.replies, s))
  }

  function Run(h: State, steps: seq<Step>): State
    decreases |steps|
  {
    if steps == [] then h else Next(Run(h, steps[..|steps| - 1]), steps[|steps| - 1])
  }

  // ------------------------------------------------------------------ connections that lost their node

  /** The lock holder is about to close this connection. */
  predicate AboutToClose(section: R.Section, c: ConnId) {
    match section
    case Swapped(_, _, previous) => previous == Some(c)
    case Clearing(victim) => victim == Some(c)
    case Left(own, _) => own == c
    case _ => false
  }

  predicate Started(phase: R.Phase) { phase.Reading? || phase.Ending? || phase.Over? }

  /** Every connection has a line, and one that served its node but does so no longer is closed or being closed. */
  predicate Tracked(h: State, c: ConnId) {
    c in h.registry.conns ==>
      c in h.replies.lines &&
      var conn := h.registry.conns[c];
      (Started(conn.phase) && R.Served(h.registry, conn.node) != Some(c) ==>
        h.replies.lines[c].closed ||
        (conn.node in h.registry.locks && AboutToClose(h.registry.locks[conn.node], c)))
  }

  ghost predicate Inv(h: State) { R.Inv(h.registry) && P.Inv(h.replies) && forall c :: Tracked(h, c) }

  lemma CloseOnly(replies: P.Replies, c: Option<ConnId>, d: ConnId)
    ensures d in Closed(replies, c).lines <==> d in replies.lines
    ensures d in replies.lines ==>
      (Closed(replies, c).lines[d].closed <==> replies.lines[d].closed || c == Some(d))
  {
  }

  /** A step about the node of this connection. */
  ghost predicate OwnStep(h: State, s: R.Step, c: ConnId) {
    Inv(h) && !s.Dial? && c in h.registry.conns && h.registry.conns[c].node == R.NodeOf(h.registry, s)
  }

  predicate Within(h: State, s: R.Step) { !s.Dial? && !R.OutsideSection(s) && s.n in h.registry.locks }

  lemma OutsideTracked(h: State, s: R.Step, c: ConnId)
    requires OwnStep(h, s, c) && R.OutsideSection(s)
    ensures Tracked(Next(h, Node(s)), c)
  {
    assert Tracked(h, c) && R.LockOk(h.registry, R.NodeOf(h.registry, s));
    CloseOnly(h.replies, R.Closes(h.registry, s), c);
  }

  predicate ArrivingSection(k: R.Section) { k.Checking? || k.Checked? || k.Stored? || k.Ready? }

  lemma ArrivalTracked(h: State, s: R.Step, c: ConnId)
    requires OwnStep(h, s, c) && Within(h, s) && ArrivingSection(h.registry.locks[s.n])
    ensures Tracked(Next(h, Node(s)), c)
  {
    assert Tracked(h, c) && R.LockOk(h.registry, R.NodeOf(h.registry, s));
    CloseOnly(h.replies, R.Closes(h.registry, s), c);
  }

  lemma RegistrationTracked(h: State, s: R.Step, c: ConnId)
    requires OwnStep(h, s, c) && Within(h, s) && R.Handshake(h.registry.locks[s.n]) && !ArrivingSection(h.registry.locks[s.n])
    ensures Tracked(Next(h, Node(s)), c)
  {
    assert Tracked(h, c) && R.LockOk(h.registry, R.NodeOf(h.registry, s));
    CloseOnly(h.replies, R.Closes(h.registry, s), c);
  }

  lemma DropTracked(h: State, s: R.Step, c: ConnId)
    requires OwnStep(h, s, c) && Within(h, s)
    requires var k := h.registry.locks[s.n]; k.Dropping? || k.Clearing? || k.Cleared? || k.Finishing?
    ensures Tracked(Next(h, Node(s)), c)
  {
    assert Tracked(h, c) && R.LockOk(h.registry, R.NodeOf(h.registry, s));
    CloseOnly(h.replies, R.Closes(h.registry, s), c);
  }

  lemma UpdateTracked(h: State, s: R.Step, c: ConnId)
    requires OwnStep(h, s, c) && Within(h, s)
    requires var k := h.registry.locks[s.n]; k.Updating? || k.Current? || k.Approved? || k.Written? || k.Refreshing?
    ensures Tracked(Next(h, Node(s)), c)
  {
    assert Tracked(h, c) && R.LockOk(h.registry, R.NodeOf(h.registry, s));
    CloseOnly(h.replies, R.Closes(h.registry, s), c);
  }

  lemma LeavingTracked(h: State, s: R.Step, c: ConnId)
    requires OwnStep(h, s, c) && Within(h, s) && h.registry.locks[s.n].Leaving?
    ensures Tracked(Next(h, Node(s)), c)
  {
    assert Tracked(h, c) && R.LockOk(h.registry, R.NodeOf(h.registry, s));
    CloseOnly(h.replies, R.Closes(h.registry, s), c);
  }

  lemma LeftTracked(h: State, s: R.Step, c: ConnId)
    requires OwnStep(h, s, c) && Within(h, s) && h.registry.locks[s.n].Left?
    ensures Tracked(Next(h, Node(s)), c)
  {
    assert Tracked(h, c) && R.LockOk(h.registry, R.NodeOf(h.registry, s));
    CloseOnly(h.replies, R.Closes(h.registry, s), c);
  }

  lemma ElsewhereTracked(h: State, s: R.Step, c: ConnId)
    requires !s.Dial? && Tracked(h, c) && c in h.registry.conns && h.registry.conns[c].node != R.NodeOf(h.registry, s)
    requires R.OnlyNode(h.registry, R.Next(h.registry, s), R.NodeOf(h.registry, s))
    ensures Tracked(Next(h, Node(s)), c)
  {
    CloseOnly(h.replies, R.Closes(h.registry, s), c);
    var (t, m) := (Next(h, Node(s)).registry, h.registry.conns[c].node);
    assert R.At(t, m) == R.At(h.registry, m) && R.Served(t, m) == R.Served(h.registry, m);
  }

  lemma NodeTracked(h: State, s: R.Step, c: ConnId)
    requires Inv(h) && !s.Dial?
    ensures Tracked(Next(h, Node(s)), c)
  {
    var n := R.NodeOf(h.registry, s);
    assert Tracked(h, c);
    R.StepKept(h.registry, s);
    if c in h.registry.conns {
      var m := h.registry.conns[c].node;
      if m != n {
        ElsewhereTracked(h, s, c);
      } else if R.OutsideSection(s) {
        OutsideTracked(h, s, c);
      } else if n in h.registry.locks {
        SectionTracked(h, s, c);
      }
    }
  }

  lemma SectionTracked(h: State, s: R.Step, c: ConnId)
    requires OwnStep(h, s, c) && Within(h, s)
    ensures Tracked(Next(h, Node(s)), c)
  {
    var k := h.registry.locks[s.n];
    if ArrivingSection(k) { ArrivalTracked(h, s, c); }
    else if R.Handshake(k) { RegistrationTracked(h, s, c); }
    else if k.Dropping? || k.Clearing? || k.Cleared? || k.Finishing? { DropTracked(h, s, c); }
    else if k.Leaving? { LeavingTracked(h, s, c); }
    else if k.Left? { LeftTracked(h, s, c); }
    else { UpdateTracked(h, s, c); }
  }

  lemma CallTracked(h: State, s: P.Step, c: ConnId)
    requires Inv(h)
    ensures Tracked(Next(h, Call(s)), c)
  {
    assert Tracked(h, c);
  }

  lemma DialTracked(h: State, d: ConnId, n: NodeId, c: ConnId)
    requires Inv(h)
    ensures Tracked(Next(h, Node(R.Dial(d, n))), c)
  {
    assert Tracked(h, c);
  }

  lemma NextKeeps(h: State, step: Step)
    requires Inv(h)
    ensures Inv(Next(h, step))
  {
    var t := Next(h, step);
    if step.Call? {
      if !step.call.Open? { P.NextKeeps(h.replies, step.call); }
      forall c ensures Tracked(t, c) { CallTracked(h, step.call, c); }
    } else if step.step.Dial? {
      R.NextKeeps(h.registry, step.step);
      P.NextKeeps(h.replies, P.Open(step.step.c));
      forall c ensures Tracked(t, c) { DialTracked(h, step.step.c, step.step.n, c); }
    } else {
      R.NextKeeps(h.registry, step.step);
      ClosedKeeps(h.replies, R.Closes(h.registry, step.step));
      forall c ensures Tracked(t, c) { NodeTracked(h, step.step, c); }
    }
  }

  lemma ClosedKeeps(replies: P.Replies, c: Option<ConnId>)
    requires P.Inv(replies)
    ensures P.Inv(Closed(replies, c))
  {
    if c.Some? { P.CloseKeeps(replies, c.value); }
  }

  lemma {:induction false} RunKeeps(steps: seq<Step>)
    ensures Inv(Run(Start, steps))
    decreases |steps|
  {
    if steps != [] {
      RunKeeps(steps[..|steps| - 1]);
      NextKeeps(Run(Start, steps[..|steps| - 1]), steps[|steps| - 1]);
    }
  }

  // ------------------------------------------------------------------ results

  /** Main result: in every interleaving each reply channel is sent on at most once, and a send always finds its slot empty. */
  lemma AtMostOneSend(steps: seq<Step>, r: P.Req)
    ensures var p := Run(Start, steps).replies;
      (r in p.sends ==> p.sends[r] <= 1) && (r in p.inflight ==> r in p.sends && p.sends[r] == 0)
  {
    RunKeeps(steps);
    var p := Run(Start, steps).replies;
    assert P.SendsOk(p, r) && P.InflightOk(p, r);
  }

  /** Main result: nothing is pending on a closed connection, and a waiting call is never forgotten. */
  lemma NothingPendingAfterClose(steps: seq<Step>, c: ConnId, r: P.Req)
    ensures var p := Run(Start, steps).replies;
      (c in p.lines && p.lines[c].closed ==> p.lines[c].pending == {}) &&
      (r in p.waiting ==>
        (p.waiting[r] in p.lines && !p.lines[p.waiting[r]].closed && r in p.lines[p.waiting[r]].pending) ||
        r in p.inflight || (r in p.sends && p.sends[r] == 1))
  {
    RunKeeps(steps);
    var p := Run(Start, steps).replies;
    assert P.LineOk(p, c) && P.WaitingOk(p, r);
    if r in p.waiting { assert P.LineOk(p, p.waiting[r]); }
  }

  /** A closed connection stays closed. */
  lemma ClosedForGood(h: State, step: Step, c: ConnId)
    requires c in h.replies.lines && h.replies.lines[c].closed
    ensures var p := Next(h, step).replies; c in p.lines && p.lines[c].closed
  {
    match step
    case Node(Dial(_, _)) =>
    case Node(s) => CloseOnly(h.replies, R.Closes(h.registry, s), c);
    case Call(_) =>
  }

  /**
   Main result: whenever a node's snapshot lock is free, a snapshot of the node is published exactly when the node is registered and
   its row was enabled when it was read back for the last snapshot; and it is the snapshot its connection announced last.
   */
  lemma PublishedExactlyWhenAdmitted(steps: seq<Step>, n: NodeId)
    requires n !in Run(Start, steps).registry.locks
    ensures var g := Run(Start, steps).registry; n in g.published <==> n in g.nodes && n !in g.hidden
    ensures var g := Run(Start, steps).registry;
      n in g.nodes ==>
        var c := g.nodes[n];
        c in g.conns && g.conns[c].node == n && g.conns[c].snap.Some? &&
        (n in g.published ==> g.conns[c].snap == Some(g.published[n]))
  {
    RunKeeps(steps);
    var g := Run(Start, steps).registry;
    assert R.LockOk(g, n) && R.NodeOk(g, n);
  }

  /** Handing a snapshot over is what hides a node and shows it again, as its row was when it was read back. */
  lemma HiddenAsReadBack(steps: seq<Step>, s: R.Step, n: NodeId)
    requires var (g, t) := (Run(Start, steps).registry, Next(Run(Start, steps), Node(s)).registry);
      n in g.hidden <==> n !in t.hidden
    ensures var (g, t) := (Run(Start, steps).registry, Next(Run(Start, steps), Node(s)).registry);
      s == R.Publish(n) && n in g.locks && (g.locks[n].Announcing? || g.locks[n].Refreshing?) &&
      (n in t.hidden <==> !g.locks[n].admitted) && (n in t.published <==> g.locks[n].admitted)
  {
    RunKeeps(steps);
    R.HiddenChanges(Run(Start, steps).registry, s, n);
  }

  /** No update of the row by an administrator is still to be read back or to disconnect the node. */
  predicate Quiet(g: R.Registry, n: NodeId) { n !in g.locks && !R.Outstanding(R.RowOf(g, n)) }

  /**
   Main result: once the lock is free and no administrator's update is outstanding, a node whose row is disabled is neither
   registered nor published; the one exception is a node that an update disabled without being able to read the row back.
   */
  lemma DisabledIsDisconnected(steps: seq<Step>, n: NodeId)
    requires Quiet(Run(Start, steps).registry, n)
    ensures var g := Run(Start, steps).registry;
      n in g.nodes ==> (R.RowOf(g, n).disabled <==> R.RowOf(g, n).abandoned)
    ensures var g := Run(Start, steps).registry;
      R.RowOf(g, n).disabled && !R.RowOf(g, n).abandoned ==> n !in g.nodes && n !in g.published
  {
    RunKeeps(steps);
    var g := Run(Start, steps).registry;
    assert R.LockOk(g, n) && R.NodeOk(g, n) && R.RowOk(g, n);
  }

  /** Main result: a connection that lost its node is closed whenever the node's lock is free. */
  lemma SupersededIsClosed(steps: seq<Step>, c: ConnId)
    requires var h := Run(Start, steps);
      c in h.registry.conns && Started(h.registry.conns[c].phase) &&
      h.registry.conns[c].node !in h.registry.locks && R.Served(h.registry, h.registry.conns[c].node) != Some(c)
    ensures var h := Run(Start, steps); c in h.replies.lines && h.replies.lines[c].closed
  {
    RunKeeps(steps);
    assert Tracked(Run(Start, steps), c);
  }

  /** The steps of one connection's read loop. */
  predicate LoopStep(g: R.Registry, s: R.Step, c: ConnId) {
    match s
    case LockUpdate(d) => d == c
    case StopReading(d) => d == c
    case LockEnd(d) => d == c
    case CheckCurrent(n) => n in g.locks && g.locks[n].Updating? && g.locks[n].c == c
    case RejectUpdate(n) => n in g.locks && (g.locks[n].Current? || g.locks[n].Approved?) && g.locks[n].c == c
    case SameUpdate(n) => n in g.locks && g.locks[n].Current? && g.locks[n].c == c
    case CheckRow(n) => n in g.locks && g.locks[n].Current? && g.locks[n].c == c
    case StoreHello(n, _) => n in g.locks && g.locks[n].Approved? && g.locks[n].c == c
    case ReadBack(n) => n in g.locks && g.locks[n].Written? && g.locks[n].c == c
    case LoseUpdate(n) => n in g.locks && g.locks[n].Written? && g.locks[n].c == c
    case RemoveOwn(n) => n in g.locks && g.locks[n].Leaving? && g.locks[n].c == c
    case CloseOwn(n) => n in g.locks && g.locks[n].Left? && g.locks[n].c == c
    case Publish(n) => n in g.locks && g.locks[n].Refreshing? && g.locks[n].c == c
    case _ => false
  }

  lemma SupersededCloses(g: R.Registry, s: R.Step, c: ConnId)
    requires LoopStep(g, s, c)
    ensures R.Closes(g, s) == None || R.Closes(g, s) == Some(c)
  {
  }

  lemma SupersededWrites(g: R.Registry, s: R.Step, c: ConnId)
    requires LoopStep(g, s, c) && c in g.conns && R.Served(g, g.conns[c].node) != Some(c) && R.LockOk(g, R.NodeOf(g, s))
    ensures var t := R.Next(g, s); t.nodes == g.nodes && t.published == g.published && t.stored == g.stored
  {
    if !s.Dial? && !R.OutsideSection(s) {
      R.InsideIs(g, s);
      SupersededSection(g, s, c);
    }
  }

  lemma SupersededSection(g: R.Registry, s: R.Step, c: ConnId)
    requires !s.Dial? && !R.OutsideSection(s) && s.n in g.locks && LoopStep(g, s, c)
    requires c in g.conns && R.Served(g, g.conns[c].node) != Some(c) && R.SectionOk(g, s.n, g.locks[s.n])
    ensures var t := R.InSection(g, s.n, g.locks[s.n], s); t.nodes == g.nodes && t.published == g.published && t.stored == g.stored
  {
  }

  /** Main result: the read loop of a superseded connection neither removes its successor nor publishes over it. */
  lemma LoopSparesSuccessor(steps: seq<Step>, s: R.Step, c: ConnId, n: NodeId)
    requires var g := Run(Start, steps).registry;
      LoopStep(g, s, c) && c in g.conns && g.conns[c].node == n && R.Served(g, n) != Some(c)
    ensures var (h, t) := (Run(Start, steps), Next(Run(Start, steps), Node(s)));
      t.registry.nodes == h.registry.nodes && t.registry.published == h.registry.published &&
      t.registry.stored == h.registry.stored &&
      forall d :: d != c && d in h.replies.lines ==> t.replies.lines[d] == h.replies.lines[d]
  {
    RunKeeps(steps);
    var g := Run(Start, steps).registry;
    assert R.LockOk(g, R.NodeOf(g, s));
    SupersededCloses(g, s, c);
    SupersededWrites(g, s, c);
  }

  /** What the read loop of a connection does from its last message on. */
  function Leave(c: ConnId, n: NodeId): seq<R.Step> {
    [R.StopReading(c), R.LockEnd(c), R.RemoveOwn(n), R.CloseOwn(n), R.RetireTools(n), R.Unlock(n)]
  }

  /** The state after these steps of one loop, with nobody in between. */
  function After(h: State, steps: seq<R.Step>): State
    decreases |steps|
  {
    if steps == [] then h else Next(After(h, steps[..|steps| - 1]), Node(steps[|steps| - 1]))
  }

  lemma LeaveStops(g: R.Registry, c: ConnId, n: NodeId)
    requires R.Inv(g) && R.Served(g, n) == Some(c) && n !in g.locks && c in g.conns && !g.conns[c].phase.Accepting?
    ensures g.conns[c].node == n
    ensures R.Next(g, R.StopReading(c)) == g.(conns := g.conns[c := g.conns[c].(phase := R.Ending)])
  {
    assert R.NodeOk(g, n);
    if g.conns[c].phase.Ending? { assert g.conns[c := g.conns[c].(phase := R.Ending)] == g.conns; }
  }

  /** The last message, the lock, and the removal of the own registration. */
  lemma LeaveBegins(g: R.Registry, c: ConnId, n: NodeId)
    requires R.Inv(g) && R.Served(g, n) == Some(c) && n !in g.locks && c in g.conns && !g.conns[c].phase.Accepting?
    ensures var t := R.Next(R.Next(R.Next(g, R.StopReading(c)), R.LockEnd(c)), R.RemoveOwn(n));
      t.nodes == g.nodes - {n} && t.locks == g.locks[n := R.Left(c, true)] && c in t.conns
  {
    LeaveStops(g, c, n);
    var g1 := g.(conns := g.conns[c := g.conns[c].(phase := R.Ending)]);
    var g2 := R.Next(g1, R.LockEnd(c));
    assert g2.locks == g.locks[n := R.Leaving(c)] && g2.nodes == g.nodes;
  }

  /** The close. */
  lemma LeaveCloses(h: State, c: ConnId, n: NodeId)
    requires n in h.registry.locks && h.registry.locks[n] == R.Left(c, true) && c in h.replies.lines
    ensures var t := Next(h, Node(R.CloseOwn(n)));
      t.registry == R.SetSection(R.SetPhase(h.registry, c, R.Over), n, R.Cleared) && t.replies == P.CloseLine(h.replies, c)
  {
  }

  /** The withdrawal of the tools, and the unlock. */
  lemma LeaveClears(h: State, n: NodeId)
    requires n in h.registry.locks && h.registry.locks[n] == R.Cleared
    ensures var t := Next(Next(h, Node(R.RetireTools(n))), Node(R.Unlock(n)));
      t.replies == h.replies && t.registry.nodes == h.registry.nodes && n !in t.registry.published && n !in t.registry.locks
  {
    var h2 := Next(h, Node(R.RetireTools(n)));
    assert h2.registry.locks[n] == R.Finishing && h2.replies == h.replies;
  }

  lemma LeaveEnds(h: State, c: ConnId, n: NodeId)
    requires n in h.registry.locks && h.registry.locks[n] == R.Left(c, true) && c in h.replies.lines && n !in h.registry.nodes
    ensures var t := Next(Next(Next(h, Node(R.CloseOwn(n))), Node(R.RetireTools(n))), Node(R.Unlock(n)));
      n !in t.registry.nodes && n !in t.registry.published && n !in t.registry.locks &&
      c in t.replies.lines && t.replies.lines[c].closed
  {
    LeaveCloses(h, c, n);
    LeaveClears(Next(h, Node(R.CloseOwn(n))), n);
  }

  lemma LeaveClosesNothing(h: State, c: ConnId, n: NodeId)
    ensures Next(Next(Next(h, Node(R.StopReading(c))), Node(R.LockEnd(c))), Node(R.RemoveOwn(n))) ==
      State(R.Next(R.Next(R.Next(h.registry, R.StopReading(c)), R.LockEnd(c)), R.RemoveOwn(n)), h.replies)
  {
  }

  lemma LeaveRuns(h: State, c: ConnId, n: NodeId)
    requires Inv(h) && R.Served(h.registry, n) == Some(c) && n !in h.registry.locks
    requires c in h.registry.conns && !h.registry.conns[c].phase.Accepting?
    ensures var t := After(h, Leave(c, n));
      n !in t.registry.nodes && n !in t.registry.published && n !in t.registry.locks &&
      c in t.replies.lines && t.replies.lines[c].closed
  {
    assert Tracked(h, c);
    LeaveBegins(h.registry, c, n);
    var h3 := Next(Next(Next(h, Node(R.StopReading(c))), Node(R.LockEnd(c))), Node(R.RemoveOwn(n)));
    LeaveClosesNothing(h, c, n);
    LeaveEnds(h3, c, n);
    AfterSix(h, Leave(c, n));
  }

  lemma AfterSix(h: State, s: seq<R.Step>)
    requires |s| == 6
    ensures After(h, s) ==
      Next(Next(Next(Next(Next(Next(h, Node(s[0])), Node(s[1])), Node(s[2])), Node(s[3])), Node(s[4])), Node(s[5]))
  {
    AfterLast(h, s[..5], s[5]);
    AfterLast(h, s[..4], s[4]);
    AfterLast(h, s[..3], s[3]);
    AfterLast(h, s[..2], s[2]);
    AfterLast(h, s[..1], s[1]);
    AfterLast(h, [], s[0]);
    assert s == s[..5] + [s[5]] && s[..5] == s[..4] + [s[4]] && s[..4] == s[..3] + [s[3]] && s[..3] == s[..2] + [s[2]];
    assert s[..2] == s[..1] + [s[1]] && s[..1] == [] + [s[0]];
  }

  lemma AfterLast(h: State, steps: seq<R.Step>, last: R.Step)
    ensures After(h, steps + [last]) == Next(After(h, steps), Node(last))
  {
    assert (steps + [last])[..|steps|] == steps;
  }

  /** The rest of a handshake whose connection is registered already. */
  predicate Confirming(section: R.Section, c: ConnId) {
    (section.Swapped? || section.Announcing? || section.Announced?) && section.c == c
  }

  /**
   A registered connection is still inside its handshake, which holds the node's lock and ends with the start of its read loop, or
   it has a read loop that has not cleaned up: whenever the lock is free, the steps with which the loop leaves are enabled and take
   node, tools and connection away.
   */
  lemma RegisteredHasLoop(steps: seq<Step>, n: NodeId)
    requires n in Run(Start, steps).registry.nodes
    ensures var h := Run(Start, steps);
      var c := h.registry.nodes[n];
      c in h.registry.conns && h.registry.conns[c].node == n &&
      (h.registry.conns[c].phase.Accepting? ==>
        n in h.registry.locks && Confirming(h.registry.locks[n], c)) &&
      (n !in h.registry.locks ==>
        var t := After(h, Leave(c, n));
        n !in t.registry.nodes && n !in t.registry.published && c in t.replies.lines && t.replies.lines[c].closed)
  {
    RunKeeps(steps);
    var h := Run(Start, steps);
    var c := h.registry.nodes[n];
    assert R.NodeOk(h.registry, n) && R.ConnOk(h.registry, c) && R.LockOk(h.registry, n);
    if n !in h.registry.locks { LeaveRuns(h, c, n); }
  }

  /**
   A node's row may run ahead of the catalogue: a handshake or an update may store its snapshot and then fail, and leaves the
   published one as it was. Otherwise the stored snapshot is the published one, or hidden.
   */
  lemma StoredIsPublished(steps: seq<Step>, n: NodeId)
    requires var g := Run(Start, steps).registry; n !in g.locks && n in g.nodes && n !in g.unsent
    ensures var g := Run(Start, steps).registry;
      n in g.stored && g.nodes[n] in g.conns && g.conns[g.nodes[n]].snap == Some(g.stored[n]) &&
      (n in g.published <==> n !in g.hidden) && (n in g.published ==> g.stored[n] == g.published[n])
  {
    RunKeeps(steps);
    var g := Run(Start, steps).registry;
    assert R.LockOk(g, n) && R.NodeOk(g, n);
  }

  /** What is left when a handshake or an update fails after its snapshot was stored. */
  ghost predicate LeavesBehind(g: R.Registry, t: R.Registry, n: NodeId, snap: R.Snap) {
    n !in t.locks && n in t.unsent && n in t.stored && t.stored[n] == snap && t.published == g.published && t.nodes == g.nodes &&
    (n in t.published ==> (t.stored[n] == t.published[n] <==> snap == g.published[n]))
  }

  /** A handshake that is stored and then not confirmed: stored and published snapshots agree exactly if they are the same. */
  lemma LostReadyDiverges(steps: seq<Step>, n: NodeId)
    requires var g := Run(Start, steps).registry; n in g.locks && (g.locks[n].Stored? || g.locks[n].Ready?)
    ensures var g := Run(Start, steps).registry;
      LeavesBehind(g, Next(Run(Start, steps), Node(R.LoseReady(n))).registry, n, g.locks[n].snap)
  {
    RunKeeps(steps);
    assert R.LockOk(Run(Start, steps).registry, n);
  }

  /** The same of an update whose row cannot be read back; its read loop is over then. */
  lemma LostUpdateDiverges(steps: seq<Step>, n: NodeId)
    requires var g := Run(Start, steps).registry; n in g.locks && g.locks[n].Written?
    ensures var (g, t) := (Run(Start, steps).registry, Next(Run(Start, steps), Node(R.LoseUpdate(n))).registry);
      LeavesBehind(g, t, n, g.locks[n].snap) && n in t.nodes && t.nodes[n] in t.conns && t.conns[t.nodes[n]].phase.Ending?
  {
    RunKeeps(steps);
    assert R.LockOk(Run(Start, steps).registry, n);
  }
}
