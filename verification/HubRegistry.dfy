/**
 Which connection serves each node, and which snapshot of the node is published. A node's snapshot lock is held across a whole
 handshake, update or removal, while the maps and the catalogue change one at a time; steps for different nodes interleave, and so
 do the steps with which administrators change a node's row, which take the lock only to disconnect it.
 */
module HubRegistry {
  import opened Wrappers
  import HubReplies

  type ConnId = HubReplies.ConnId
  type NodeId = nat
  type Snap = nat

  /** Dialled: before the handshake. Reading: its read loop runs. Ending: the loop is over, cleaning up. Over: cleaned up. */
  datatype Phase = Dialled | Accepting | Dropped | Reading | Ending | Over

  datatype Conn = Conn(node: NodeId, phase: Phase, snap: Option<Snap>)

  /** What the holder of a snapshot lock has done so far. */
  datatype Section =
    /** A handshake that was read; its node's row was found enabled; its snapshot stored; the row read back; all before registration. */
    | Checking(c: ConnId)
    | Checked(c: ConnId)
    | Stored(c: ConnId, snap: Snap)
    | Ready(c: ConnId, snap: Snap, admitted: bool)
    /** The new connection is registered; the previous one is still to be closed, then the snapshot to be handed over. */
    | Swapped(c: ConnId, admitted: bool, previous: Option<ConnId>)
    | Announcing(c: ConnId, admitted: bool)
    | Announced(c: ConnId)
    /** A disconnect: lock taken; registration dropped; connection closed. */
    | Dropping
    | Clearing(victim: Option<ConnId>)
    | Cleared
    /** A node update: lock taken; found current; row found enabled; stored; row read back. */
    | Updating(c: ConnId)
    | Current(c: ConnId)
    | Approved(c: ConnId)
    | Written(c: ConnId, snap: Snap)
    | Refreshing(c: ConnId, admitted: bool)
    /** The end of a read loop: lock taken; registration dropped if it was its own. */
    | Leaving(c: ConnId)
    | Left(c: ConnId, removed: bool)
    /** Only the unlock is left. */
    | Finishing

  /**
   The administrator's side of a node's row, which no snapshot lock protects. saving: updates that have been committed and
   have not read the row back. dropping: updates that read it back disabled and will disconnect the node. abandoned: an
   update whose reading back failed left the row disabled, and nothing has disconnected the node since.
   */
  datatype Row = Row(disabled: bool, saving: nat, dropping: nat, abandoned: bool)

  /**
   published: the snapshot in the tool catalogue. hidden: nodes whose last snapshot was withdrawn instead, because the row read
   back was disabled. stored: the snapshot in the node's row. unsent: nodes whose row was given a snapshot that was not, or not
   yet, accepted.
   */
  datatype Registry = Registry(
    conns: map<ConnId, Conn>, nodes: map<NodeId, ConnId>, locks: map<NodeId, Section>,
    published: map<NodeId, Snap>, hidden: set<NodeId>, stored: map<NodeId, Snap>, unsent: set<NodeId>, rows: map<NodeId, Row>)

  const Empty := Registry(map[], map[], map[], map[], {}, map[], {}, map[])

  datatype Step =
    | Dial(c: ConnId, n: NodeId)
    | LockHandshake(c: ConnId)
    | RejectVersion(n: NodeId)
    | RejectHandshake(n: NodeId)
    /** Storing a snapshot, for a handshake or an update: the row is checked, written, and read back. */
    | CheckRow(n: NodeId)
    | StoreHello(n: NodeId, snap: Snap)
    | ReadBack(n: NodeId)
    /** The snapshot is stored, and then reading back or confirming the handshake fails. */
    | LoseReady(n: NodeId)
    | Swap(n: NodeId)
    | ClosePrevious(n: NodeId)
    | Publish(n: NodeId)
    | LockDisconnect(n: NodeId)
    | Drop(n: NodeId)
    | CloseVictim(n: NodeId)
    | RetireTools(n: NodeId)
    | LockUpdate(c: ConnId)
    | CheckCurrent(n: NodeId)
    | RejectUpdate(n: NodeId)
    | SameUpdate(n: NodeId)
    | LoseUpdate(n: NodeId)
    | StopReading(c: ConnId)
    | LockEnd(c: ConnId)
    | RemoveOwn(n: NodeId)
    | CloseOwn(n: NodeId)
    | Unlock(n: NodeId)
    /** An administrator's update: the row is written; it is read back, or that fails; a node found disabled is disconnected. */
    | Patch(n: NodeId, enabled: bool)
    | PatchReadBack(n: NodeId)
    | PatchLost(n: NodeId)
    | LockPatched(n: NodeId)

  function At(s: Registry, n: NodeId): Option<Section> { if n in s.locks then Some(s.locks[n]) else None }

  function Served(s: Registry, n: NodeId): Option<ConnId> { if n in s.nodes then Some(s.nodes[n]) else None }

  function RowOf(s: Registry, n: NodeId): Row { if n in s.rows then s.rows[n] else Row(false, 0, 0, false) }

  function SetPhase(s: Registry, c: ConnId, phase: Phase): Registry {
    if c in s.conns then s.(conns := s.conns[c := s.conns[c].(phase := phase)]) else s
  }

  function SetSection(s: Registry, n: NodeId, section: Section): Registry { s.(locks := s.locks[n := section]) }

  function Take(s: Registry, c: ConnId, from: Phase, to: Phase, section: Section): Registry {
    if c in s.conns && s.conns[c].phase == from && s.conns[c].node !in s.locks then
      SetSection(SetPhase(s, c, to), s.conns[c].node, section)
    else s
  }

  function Free(s: Registry, n: NodeId): Registry { s.(locks := s.locks - {n}) }

  /** The node is nobody's, so no update is left to disconnect it. */
  function Unregister(s: Registry, n: NodeId): Registry {
    WriteRow(s.(nodes := s.nodes - {n}), n, RowOf(s, n).(abandoned := false))
  }

  /** The connection has announced the stored snapshot. */
  function Accepted(s: Registry, n: NodeId, c: ConnId, snap: Snap): Registry
    requires c in s.conns
  {
    s.(conns := s.conns[c := s.conns[c].(snap := Some(snap))], unsent := s.unsent - {n})
  }

  /** The read loop is inside an update. */
  predicate Busy(s: Registry, c: ConnId)
    requires c in s.conns
  {
    s.conns[c].node in s.locks &&
    var section := s.locks[s.conns[c].node];
    (section.Updating? || section.Current? || section.Approved? || section.Written? || section.Refreshing?) && section.c == c
  }

  /** The connection a step closes under its own mutex. */
  function Closes(s: Registry, step: Step): Option<ConnId> {
    match step
    case ClosePrevious(n) => if n in s.locks && s.locks[n].Swapped? then s.locks[n].previous else None
    case CloseVictim(n) => if n in s.locks && s.locks[n].Clearing? then s.locks[n].victim else None
    case CloseOwn(n) => if n in s.locks && s.locks[n].Left? then Some(s.locks[n].c) else None
    case _ => None
  }

  function WriteRow(s: Registry, n: NodeId, row: Row): Registry { s.(rows := s.rows[n := row]) }

  predicate Patching(step: Step) { step.Patch? || step.PatchReadBack? || step.PatchLost? }

  /** The row after a step of an administrator. */
  function Patched(row: Row, step: Step): Row
    requires Patching(step)
  {
    if step.Patch? then Row(!step.enabled, row.saving + 1, row.dropping, row.abandoned && !step.enabled)
    else if row.saving == 0 then row
    else if step.PatchReadBack? then row.(saving := row.saving - 1, dropping := row.dropping + if row.disabled then 1 else 0)
    else row.(saving := row.saving - 1, abandoned := row.disabled)
  }

  function Next(s: Registry, step: Step): Registry {
    match step
    case Dial(c, n) => if c in s.conns then s else s.(conns := s.conns[c := Conn(n, Dialled, None)])
    case LockHandshake(c) => Take(s, c, Dialled, Accepting, Checking(c))
    case LockUpdate(c) => Take(s, c, Reading, Reading, Updating(c))
    case LockEnd(c) => Take(s, c, Ending, Ending, Leaving(c))
    case StopReading(c) =>
      if c in s.conns && s.conns[c].phase.Reading? && !Busy(s, c) then SetPhase(s, c, Ending) else s
    case Patch(n, _) => WriteRow(s, n, Patched(RowOf(s, n), step))
    case PatchReadBack(n) => WriteRow(s, n, Patched(RowOf(s, n), step))
    case PatchLost(n) => WriteRow(s, n, Patched(RowOf(s, n), step))
    case LockDisconnect(n) => if n in s.locks then s else SetSection(s, n, Dropping)
    case LockPatched(n) =>
      var row := RowOf(s, n);
      if row.dropping == 0 || n in s.locks then s
      else WriteRow(SetSection(s, n, Dropping), n, row.(dropping := row.dropping - 1))
    case _ => if step.n in s.locks then InSection(s, step.n, s.locks[step.n], step) else s
  }

  /** A step of the holder of the lock; a step that its section does not allow changes nothing. */
  function InSection(s: Registry, n: NodeId, section: Section, step: Step): Registry {
    match section
    case Checking(c) =>
      if step.RejectVersion? then SetSection(Unregister(SetPhase(s, c, Dropped), n), n, Clearing(Served(s, n)))
      else if step.RejectHandshake? then Free(SetPhase(s, c, Dropped), n)
      else if step.CheckRow? then
        if RowOf(s, n).disabled then Free(SetPhase(s, c, Dropped), n) else SetSection(s, n, Checked(c))
      else s
    case Checked(c) =>
      if step.RejectHandshake? then Free(SetPhase(s, c, Dropped), n)
      else if step.StoreHello? then
        SetSection(s, n, Stored(c, step.snap)).(stored := s.stored[n := step.snap], unsent := s.unsent + {n})
      else s
    case Stored(c, snap) =>
      if step.LoseReady? then Free(SetPhase(s, c, Dropped), n)
      else if step.ReadBack? then SetSection(s, n, Ready(c, snap, !RowOf(s, n).disabled))
      else s
    case Ready(c, snap, admitted) =>
      if step.LoseReady? then Free(SetPhase(s, c, Dropped), n)
      else if step.Swap? && c in s.conns then
        SetSection(Accepted(s, n, c, snap), n, Swapped(c, admitted, Served(s, n))).(nodes := s.nodes[n := c])
      else s
    case Swapped(c, admitted, _) => if step.ClosePrevious? then SetSection(s, n, Announcing(c, admitted)) else s
    case Announcing(c, admitted) => if step.Publish? then SetSection(HandOver(s, n, c, admitted), n, Announced(c)) else s
    case Announced(c) => if step.Unlock? then Free(SetPhase(s, c, Reading), n) else s
    case Dropping => if step.Drop? then SetSection(Unregister(s, n), n, Clearing(Served(s, n))) else s
    case Clearing(_) => if step.CloseVictim? then SetSection(s, n, Cleared) else s
    case Cleared => if step.RetireTools? then SetSection(s, n, Finishing).(published := s.published - {n}) else s
    case Updating(c) =>
      if !step.CheckCurrent? then s
      else if Served(s, n) == Some(c) then SetSection(s, n, Current(c))
      else Free(SetPhase(s, c, Ending), n)
    case Current(c) =>
      if step.RejectUpdate? then Free(SetPhase(s, c, Ending), n)
      else if step.SameUpdate? then Free(s, n)
      else if step.CheckRow? then
        if RowOf(s, n).disabled then Free(SetPhase(s, c, Ending), n) else SetSection(s, n, Approved(c))
      else s
    case Approved(c) =>
      if step.RejectUpdate? then Free(SetPhase(s, c, Ending), n)
      else if step.StoreHello? then
        SetSection(s, n, Written(c, step.snap)).(stored := s.stored[n := step.snap], unsent := s.unsent + {n})
      else s
    case Written(c, snap) =>
      if step.LoseUpdate? then Free(SetPhase(s, c, Ending), n)
      else if step.ReadBack? && c in s.conns then
        SetSection(Accepted(s, n, c, snap), n, Refreshing(c, !RowOf(s, n).disabled))
      else s
    case Refreshing(c, admitted) => if step.Publish? then SetSection(HandOver(s, n, c, admitted), n, Finishing) else s
    case Leaving(c) =>
      if !step.RemoveOwn? then s
      else if Served(s, n) == Some(c) then SetSection(Unregister(s, n), n, Left(c, true))
      else SetSection(s, n, Left(c, false))
    case Left(c, removed) =>
      if step.CloseOwn? then SetSection(SetPhase(s, c, Over), n, if removed then Cleared else Finishing) else s
    case Finishing => if step.Unlock? then Free(s, n) else s
  }

  /** The handler puts the snapshot of an enabled row in the catalogue and takes that of a disabled one out. */
  function HandOver(s: Registry, n: NodeId, c: ConnId, admitted: bool): Registry {
    if c !in s.conns || s.conns[c].snap.None? then s
    else if admitted then s.(published := s.published[n := s.conns[c].snap.value], hidden := s.hidden - {n})
    else s.(published := s.published - {n}, hidden := s.hidden + {n})
  }

  // ------------------------------------------------------------------ invariant

  /** Published exactly when registered and not hidden, with the snapshot the registered connection announced last. */
  predicate Agrees(s: Registry, n: NodeId) {
    (n in s.published <==> n in s.nodes && n !in s.hidden) &&
    (n in s.published ==> s.nodes[n] in s.conns && s.conns[s.nodes[n]].snap == Some(s.published[n]))
  }

  /** A registered connection is the node's own, has a snapshot, and has a read loop that runs or will run. */
  predicate NodeOk(s: Registry, n: NodeId) {
    n in s.nodes ==>
      var c := s.nodes[n];
      c in s.conns && s.conns[c].node == n && s.conns[c].snap.Some? && !s.conns[c].phase.Over? &&
      !s.conns[c].phase.Dropped? && !s.conns[c].phase.Dialled? &&
      (n !in s.unsent ==> n in s.stored && s.conns[c].snap == Some(s.stored[n]))
  }

  predicate Owns(s: Registry, n: NodeId, c: ConnId, phase: Phase) {
    c in s.conns && s.conns[c].node == n && s.conns[c].phase == phase
  }

  /** A handshake on its way to registration; the connection before it is untouched. */
  predicate Arriving(s: Registry, n: NodeId, c: ConnId) {
    Owns(s, n, c, Accepting) && Agrees(s, n) && Served(s, n) != Some(c)
  }

  predicate Updates(s: Registry, n: NodeId, c: ConnId) {
    Owns(s, n, c, Reading) && Agrees(s, n) && Served(s, n) == Some(c)
  }

  predicate Holds(s: Registry, n: NodeId, snap: Snap) { n in s.stored && s.stored[n] == snap && n in s.unsent }

  predicate SectionOk(s: Registry, n: NodeId, section: Section) {
    match section
    case Checking(c) => Arriving(s, n, c)
    case Checked(c) => Arriving(s, n, c)
    case Stored(c, snap) => Arriving(s, n, c) && Holds(s, n, snap)
    case Ready(c, snap, _) => Arriving(s, n, c) && Holds(s, n, snap)
    case Swapped(c, _, _) => Owns(s, n, c, Accepting) && Served(s, n) == Some(c)
    case Announcing(c, _) => Owns(s, n, c, Accepting) && Served(s, n) == Some(c)
    case Announced(c) => Owns(s, n, c, Accepting) && Served(s, n) == Some(c) && Agrees(s, n)
    case Dropping => Agrees(s, n)
    case Clearing(_) => n !in s.nodes
    case Cleared => n !in s.nodes
    case Updating(c) => Owns(s, n, c, Reading) && Agrees(s, n)
    case Current(c) => Updates(s, n, c)
    case Approved(c) => Updates(s, n, c)
    case Written(c, snap) => Updates(s, n, c) && Holds(s, n, snap)
    case Refreshing(c, _) => Owns(s, n, c, Reading) && Served(s, n) == Some(c)
    case Leaving(c) => Owns(s, n, c, Ending) && Agrees(s, n)
    case Left(c, removed) =>
      Owns(s, n, c, Ending) && Served(s, n) != Some(c) && (removed ==> n !in s.nodes) && (!removed ==> Agrees(s, n))
    case Finishing => Agrees(s, n)
  }

  predicate LockOk(s: Registry, n: NodeId) { if n in s.locks then SectionOk(s, n, s.locks[n]) else Agrees(s, n) }

  /** The row was found enabled, and the connection is not registered yet. */
  predicate Admitting(s: Registry, n: NodeId) {
    n in s.locks && (s.locks[n].Checked? || s.locks[n].Stored? || s.locks[n].Ready?)
  }

  predicate Outstanding(row: Row) { row.saving > 0 || row.dropping > 0 }

  /** The node is registered or about to be, and no disconnect has the lock. */
  predicate Held(s: Registry, n: NodeId) {
    (n in s.nodes || Admitting(s, n)) && !(n in s.locks && s.locks[n].Dropping?)
  }

  /** Some update will still disconnect a node that is held though disabled, unless one was abandoned. */
  predicate RowFine(row: Row, held: bool) {
    (row.abandoned ==> row.disabled) && (row.disabled && !row.abandoned && held ==> Outstanding(row))
  }

  predicate RowOk(s: Registry, n: NodeId) { RowFine(RowOf(s, n), Held(s, n)) }

  predicate Handshake(section: Section) {
    section.Checking? || section.Checked? || section.Stored? || section.Ready? || section.Swapped? || section.Announcing? ||
    section.Announced?
  }

  /** A connection that is accepting is inside its handshake. */
  predicate ConnOk(s: Registry, c: ConnId) {
    c in s.conns && s.conns[c].phase.Accepting? ==>
      At(s, s.conns[c].node).Some? &&
      var section := s.locks[s.conns[c].node];
      Handshake(section) && section.c == c
  }

  ghost predicate Inv(s: Registry) {
    (forall n :: NodeOk(s, n)) && (forall n :: LockOk(s, n)) && (forall n :: RowOk(s, n)) && forall c :: ConnOk(s, c)
  }

  // ------------------------------------------------------------------ one node at a time

  /** Everything about other nodes and their connections stays. */
  ghost predicate OnlyNode(s: Registry, t: Registry, n: NodeId) {
    SameOutside(s.nodes, t.nodes, n) && SameOutside(s.locks, t.locks, n) && SameOutside(s.published, t.published, n) &&
    SameOutside(s.stored, t.stored, n) && SameOutside(s.rows, t.rows, n) &&
    SameMembers(s.unsent, t.unsent, n) && SameMembers(s.hidden, t.hidden, n) &&
    s.conns.Keys == t.conns.Keys &&
    forall c :: c in s.conns ==> t.conns[c].node == s.conns[c].node && (s.conns[c].node != n ==> t.conns[c] == s.conns[c])
  }

  ghost predicate SameOutside<V>(a: map<NodeId, V>, b: map<NodeId, V>, n: NodeId) {
    forall m :: m != n ==> (m in a <==> m in b) && (m in a ==> a[m] == b[m])
  }

  ghost predicate SameMembers(a: set<NodeId>, b: set<NodeId>, n: NodeId) {
    forall m :: m != n ==> (m in a <==> m in b)
  }

  lemma OtherNode(s: Registry, t: Registry, n: NodeId, m: NodeId)
    requires OnlyNode(s, t, n) && m != n && NodeOk(s, m) && LockOk(s, m) && RowOk(s, m)
    ensures NodeOk(t, m) && LockOk(t, m) && RowOk(t, m)
  {
    assert At(t, m) == At(s, m) && Served(t, m) == Served(s, m) && RowOf(t, m) == RowOf(s, m);
    if m in s.nodes { assert t.conns[s.nodes[m]] == s.conns[s.nodes[m]]; }
    assert Agrees(t, m) <==> Agrees(s, m);
  }

  lemma OtherConn(s: Registry, t: Registry, n: NodeId, c: ConnId)
    requires OnlyNode(s, t, n) && ConnOk(s, c) && c in s.conns && s.conns[c].node != n
    ensures ConnOk(t, c)
  {
    assert At(t, s.conns[c].node) == At(s, s.conns[c].node);
  }

  /** What is to be shown about the node a step is about. */
  ghost predicate NodeKept(s: Registry, t: Registry, n: NodeId) {
    OnlyNode(s, t, n) && NodeOk(t, n) && LockOk(t, n) && RowOk(t, n) &&
    forall c :: c in t.conns && t.conns[c].node == n ==> ConnOk(t, c)
  }

  lemma NodeStep(s: Registry, t: Registry, n: NodeId)
    requires Inv(s) && NodeKept(s, t, n)
    ensures Inv(t)
  {
    forall m ensures NodeOk(t, m) && LockOk(t, m) && RowOk(t, m) {
      assert NodeOk(s, m) && LockOk(s, m) && RowOk(s, m);
      if m != n { OtherNode(s, t, n, m); }
    }
    forall c ensures ConnOk(t, c) {
      assert ConnOk(s, c);
      if c in s.conns && s.conns[c].node != n { OtherConn(s, t, n, c); }
    }
  }

  /** The node whose lock, row or connection a step is about. */
  function NodeOf(s: Registry, step: Step): NodeId {
    match step
    case LockHandshake(c) => if c in s.conns then s.conns[c].node else 0
    case LockUpdate(c) => if c in s.conns then s.conns[c].node else 0
    case LockEnd(c) => if c in s.conns then s.conns[c].node else 0
    case StopReading(c) => if c in s.conns then s.conns[c].node else 0
    case _ => step.n
  }

  lemma Known(s: Registry, n: NodeId)
    requires Inv(s)
    ensures NodeOk(s, n) && LockOk(s, n) && RowOk(s, n)
    ensures forall c :: c in s.conns && s.conns[c].node == n ==> ConnOk(s, c)
  {
  }

  // ------------------------------------------------------------------ every step keeps the invariant

  lemma UnchangedKeeps(s: Registry, n: NodeId)
    requires Inv(s)
    ensures NodeKept(s, s, n)
  {
  }

  /** The phase of one connection changes. */
  lemma PhaseIsLocal(s: Registry, c: ConnId, phase: Phase)
    requires c in s.conns
    ensures OnlyNode(s, SetPhase(s, c, phase), s.conns[c].node)
  {
  }

  /** The holder of the lock goes on, and nothing else changes. */
  lemma MovesOn(s: Registry, n: NodeId, section: Section)
    requires Inv(s) && n in s.locks && SectionOk(s, n, section)
    requires Handshake(s.locks[n]) ==> Handshake(section) && section.c == s.locks[n].c
    requires RowOk(SetSection(s, n, section), n)
    ensures NodeKept(s, SetSection(s, n, section), n)
  {
    Known(s, n);
  }

  /** A handshake is given up before registration, or an update is over: with it the read loop, or not. */
  lemma Released(s: Registry, n: NodeId, c: ConnId, phase: Phase)
    requires Inv(s) && n in s.locks && !s.locks[n].Dropping? && Agrees(s, n) && c in s.conns && s.conns[c].node == n
    requires (phase.Dropped? && Served(s, n) != Some(c)) || ((phase.Ending? || phase.Reading?) && s.conns[c].phase.Reading?)
    requires Handshake(s.locks[n]) ==> s.locks[n].c == c
    ensures NodeKept(s, Free(SetPhase(s, c, phase), n), n)
  {
    Known(s, n);
    PhaseIsLocal(s, c, phase);
  }

  /** The registration goes. */
  lemma Unregistered(s: Registry, n: NodeId, section: Section)
    requires Inv(s) && n in s.locks && !Handshake(s.locks[n])
    requires section.Clearing? || (section.Left? && section.removed && Owns(s, n, section.c, Ending))
    ensures NodeKept(s, SetSection(Unregister(s, n), n, section), n)
  {
    Known(s, n);
  }

  /** The snapshot is handed over. */
  lemma HandedOver(s: Registry, n: NodeId, c: ConnId, admitted: bool, section: Section)
    requires Inv(s) && n in s.locks && !s.locks[n].Dropping? && Served(s, n) == Some(c)
    requires (section == Announced(c) && Owns(s, n, c, Accepting)) || (section == Finishing && !Handshake(s.locks[n]))
    ensures NodeKept(s, SetSection(HandOver(s, n, c, admitted), n, section), n)
  {
    Known(s, n);
  }

  lemma TurnedAway(s: Registry, n: NodeId, c: ConnId)
    requires Inv(s) && n in s.locks && s.locks[n] == Checking(c)
    ensures NodeKept(s, SetSection(Unregister(SetPhase(s, c, Dropped), n), n, Clearing(Served(s, n))), n)
  {
    Known(s, n);
    PhaseIsLocal(s, c, Dropped);
  }

  lemma CheckingKeeps(s: Registry, n: NodeId, step: Step)
    requires Inv(s) && n in s.locks && s.locks[n].Checking?
    ensures NodeKept(s, InSection(s, n, s.locks[n], step), n)
  {
    Known(s, n);
    var c := s.locks[n].c;
    if step.RejectVersion? { TurnedAway(s, n, c); }
    else if step.RejectHandshake? { Released(s, n, c, Dropped); }
    else if step.CheckRow? {
      if RowOf(s, n).disabled { Released(s, n, c, Dropped); } else { MovesOn(s, n, Checked(c)); }
    }
    else { UnchangedKeeps(s, n); }
  }

  lemma CheckedKeeps(s: Registry, n: NodeId, step: Step)
    requires Inv(s) && n in s.locks && s.locks[n].Checked?
    ensures NodeKept(s, InSection(s, n, s.locks[n], step), n)
  {
    Known(s, n);
  }

  lemma StoredKeeps(s: Registry, n: NodeId, step: Step)
    requires Inv(s) && n in s.locks && s.locks[n].Stored?
    ensures NodeKept(s, InSection(s, n, s.locks[n], step), n)
  {
    Known(s, n);
  }

  lemma ReadyKeeps(s: Registry, n: NodeId, step: Step)
    requires Inv(s) && n in s.locks && s.locks[n].Ready?
    ensures NodeKept(s, InSection(s, n, s.locks[n], step), n)
  {
    Known(s, n);
    if step.LoseReady? { Released(s, n, s.locks[n].c, Dropped); }
  }

  lemma SwappedKeeps(s: Registry, n: NodeId, step: Step)
    requires Inv(s) && n in s.locks && s.locks[n].Swapped?
    ensures NodeKept(s, InSection(s, n, s.locks[n], step), n)
  {
    Known(s, n);
  }

  lemma AnnouncingKeeps(s: Registry, n: NodeId, step: Step)
    requires Inv(s) && n in s.locks && s.locks[n].Announcing?
    ensures NodeKept(s, InSection(s, n, s.locks[n], step), n)
  {
    Known(s, n);
    if step.Publish? { HandedOver(s, n, s.locks[n].c, s.locks[n].admitted, Announced(s.locks[n].c)); } else { UnchangedKeeps(s, n); }
  }

  lemma AnnouncedKeeps(s: Registry, n: NodeId, step: Step)
    requires Inv(s) && n in s.locks && s.locks[n].Announced?
    ensures NodeKept(s, InSection(s, n, s.locks[n], step), n)
  {
    Known(s, n);
  }

  lemma DroppingKeeps(s: Registry, n: NodeId, step: Step)
    requires Inv(s) && n in s.locks && (s.locks[n].Dropping? || s.locks[n].Clearing? || s.locks[n].Cleared?)
    ensures NodeKept(s, InSection(s, n, s.locks[n], step), n)
  {
    Known(s, n);
  }

  lemma UpdatingKeeps(s: Registry, n: NodeId, step: Step)
    requires Inv(s) && n in s.locks && s.locks[n].Updating?
    ensures NodeKept(s, InSection(s, n, s.locks[n], step), n)
  {
    Known(s, n);
    var c := s.locks[n].c;
    if !step.CheckCurrent? { UnchangedKeeps(s, n); }
    else if Served(s, n) == Some(c) { MovesOn(s, n, Current(c)); }
    else { Released(s, n, c, Ending); }
  }

  lemma CurrentKeeps(s: Registry, n: NodeId, step: Step)
    requires Inv(s) && n in s.locks && s.locks[n].Current?
    ensures NodeKept(s, InSection(s, n, s.locks[n], step), n)
  {
    Known(s, n);
    var c := s.locks[n].c;
    if step.RejectUpdate? { Released(s, n, c, Ending); }
    else if step.SameUpdate? { Released(s, n, c, Reading); SamePhase(s, c); }
    else if step.CheckRow? {
      if RowOf(s, n).disabled { Released(s, n, c, Ending); } else { MovesOn(s, n, Approved(c)); }
    }
    else { UnchangedKeeps(s, n); }
  }

  lemma ApprovedKeeps(s: Registry, n: NodeId, step: Step)
    requires Inv(s) && n in s.locks && s.locks[n].Approved?
    ensures NodeKept(s, InSection(s, n, s.locks[n], step), n)
  {
    Known(s, n);
  }

  lemma WrittenKeeps(s: Registry, n: NodeId, step: Step)
    requires Inv(s) && n in s.locks && s.locks[n].Written?
    ensures NodeKept(s, InSection(s, n, s.locks[n], step), n)
  {
    Known(s, n);
    if step.LoseUpdate? { Released(s, n, s.locks[n].c, Ending); }
  }

  lemma RefreshingKeeps(s: Registry, n: NodeId, step: Step)
    requires Inv(s) && n in s.locks && s.locks[n].Refreshing?
    ensures NodeKept(s, InSection(s, n, s.locks[n], step), n)
  {
    Known(s, n);
    if step.Publish? { HandedOver(s, n, s.locks[n].c, s.locks[n].admitted, Finishing); } else { UnchangedKeeps(s, n); }
  }

  lemma FinishingKeeps(s: Registry, n: NodeId, step: Step)
    requires Inv(s) && n in s.locks && s.locks[n].Finishing?
    ensures NodeKept(s, InSection(s, n, s.locks[n], step), n)
  {
    Known(s, n);
  }

  lemma LeavingKeeps(s: Registry, n: NodeId, step: Step)
    requires Inv(s) && n in s.locks && s.locks[n].Leaving?
    ensures NodeKept(s, InSection(s, n, s.locks[n], step), n)
  {
    Known(s, n);
    var c := s.locks[n].c;
    if !step.RemoveOwn? { UnchangedKeeps(s, n); }
    else if Served(s, n) == Some(c) { Unregistered(s, n, Left(c, true)); }
    else { MovesOn(s, n, Left(c, false)); }
  }

  lemma LeftKeeps(s: Registry, n: NodeId, step: Step)
    requires Inv(s) && n in s.locks && s.locks[n].Left?
    ensures NodeKept(s, InSection(s, n, s.locks[n], step), n)
  {
    Known(s, n);
  }

  lemma SectionKeeps(s: Registry, n: NodeId, step: Step)
    requires Inv(s) && n in s.locks
    ensures NodeKept(s, InSection(s, n, s.locks[n], step), n)
  {
    match s.locks[n]
    case Checking(_) => CheckingKeeps(s, n, step);
    case Checked(_) => CheckedKeeps(s, n, step);
    case Stored(_, _) => StoredKeeps(s, n, step);
    case Ready(_, _, _) => ReadyKeeps(s, n, step);
    case Swapped(_, _, _) => SwappedKeeps(s, n, step);
    case Announcing(_, _) => AnnouncingKeeps(s, n, step);
    case Announced(_) => AnnouncedKeeps(s, n, step);
    case Dropping => DroppingKeeps(s, n, step);
    case Clearing(_) => DroppingKeeps(s, n, step);
    case Cleared => DroppingKeeps(s, n, step);
    case Updating(_) => UpdatingKeeps(s, n, step);
    case Current(_) => CurrentKeeps(s, n, step);
    case Approved(_) => ApprovedKeeps(s, n, step);
    case Written(_, _) => WrittenKeeps(s, n, step);
    case Refreshing(_, _) => RefreshingKeeps(s, n, step);
    case Finishing => FinishingKeeps(s, n, step);
    case Leaving(_) => LeavingKeeps(s, n, step);
    case Left(_, _) => LeftKeeps(s, n, step);
  }

  /** A lock that is free is taken, by a disconnect, an update or the end of a loop. */
  lemma LockedKeeps(s: Registry, n: NodeId, section: Section)
    requires Inv(s) && n !in s.locks
    requires section.Dropping? ||
      (section.Updating? && Owns(s, n, section.c, Reading)) || (section.Leaving? && Owns(s, n, section.c, Ending))
    ensures NodeKept(s, SetSection(s, n, section), n)
  {
    Known(s, n);
  }

  lemma SamePhase(s: Registry, c: ConnId)
    requires c in s.conns
    ensures SetPhase(s, c, s.conns[c].phase) == s
  {
    assert s.conns[c := s.conns[c].(phase := s.conns[c].phase)] == s.conns;
  }

  lemma TakeUpdateKeeps(s: Registry, c: ConnId)
    requires Inv(s)
    ensures NodeKept(s, Next(s, LockUpdate(c)), NodeOf(s, LockUpdate(c)))
  {
    var n := NodeOf(s, LockUpdate(c));
    if Owns(s, n, c, Reading) && n !in s.locks {
      SamePhase(s, c);
      LockedKeeps(s, n, Updating(c));
    } else {
      UnchangedKeeps(s, n);
    }
  }

  lemma TakeEndKeeps(s: Registry, c: ConnId)
    requires Inv(s)
    ensures NodeKept(s, Next(s, LockEnd(c)), NodeOf(s, LockEnd(c)))
  {
    var n := NodeOf(s, LockEnd(c));
    if Owns(s, n, c, Ending) && n !in s.locks {
      SamePhase(s, c);
      LockedKeeps(s, n, Leaving(c));
    } else {
      UnchangedKeeps(s, n);
    }
  }

  lemma ArrivesKeeps(s: Registry, c: ConnId)
    requires Inv(s) && c in s.conns && s.conns[c].phase.Dialled? && s.conns[c].node !in s.locks
    ensures var n := s.conns[c].node; NodeKept(s, SetSection(SetPhase(s, c, Accepting), n, Checking(c)), n)
  {
    Known(s, s.conns[c].node);
    PhaseIsLocal(s, c, Accepting);
  }

  lemma TakeHandshakeKeeps(s: Registry, c: ConnId)
    requires Inv(s)
    ensures NodeKept(s, Next(s, LockHandshake(c)), NodeOf(s, LockHandshake(c)))
  {
    var n := NodeOf(s, LockHandshake(c));
    if Owns(s, n, c, Dialled) && n !in s.locks { ArrivesKeeps(s, c); } else { UnchangedKeeps(s, n); }
  }

  lemma StoppedKeeps(s: Registry, c: ConnId)
    requires Inv(s) && c in s.conns && s.conns[c].phase.Reading? && !Busy(s, c)
    ensures NodeKept(s, SetPhase(s, c, Ending), s.conns[c].node)
  {
    Known(s, s.conns[c].node);
    PhaseIsLocal(s, c, Ending);
  }

  lemma StopKeeps(s: Registry, c: ConnId)
    requires Inv(s)
    ensures NodeKept(s, Next(s, StopReading(c)), NodeOf(s, StopReading(c)))
  {
    var n := NodeOf(s, StopReading(c));
    if Owns(s, n, c, Reading) && !Busy(s, c) { StoppedKeeps(s, c); } else { UnchangedKeeps(s, n); }
  }

  lemma DisconnectKeeps(s: Registry, n: NodeId)
    requires Inv(s)
    ensures NodeKept(s, Next(s, LockDisconnect(n)), n)
  {
    if n in s.locks { UnchangedKeeps(s, n); } else { LockedKeeps(s, n, Dropping); }
  }

  /** Writing a row leaves the registry alone. */
  lemma RowWritten(s: Registry, n: NodeId, row: Row)
    requires Inv(s) && RowFine(row, Held(s, n))
    ensures NodeKept(s, WriteRow(s, n, row), n)
  {
    Known(s, n);
  }

  lemma PatchedFine(row: Row, held: bool, step: Step)
    requires Patching(step) && RowFine(row, held)
    ensures RowFine(Patched(row, step), held)
  {
  }

  lemma PatchWrites(s: Registry, step: Step)
    requires Patching(step)
    ensures Next(s, step) == WriteRow(s, step.n, Patched(RowOf(s, step.n), step))
  {
  }

  lemma PatchKeeps(s: Registry, step: Step)
    requires Inv(s) && Patching(step)
    ensures NodeKept(s, Next(s, step), step.n)
  {
    assert RowOk(s, step.n);
    PatchedFine(RowOf(s, step.n), Held(s, step.n), step);
    RowWritten(s, step.n, Patched(RowOf(s, step.n), step));
    PatchWrites(s, step);
  }

  lemma PatchTakesLock(s: Registry, n: NodeId, row: Row)
    requires Inv(s) && n !in s.locks && (row.abandoned ==> row.disabled)
    ensures NodeKept(s, WriteRow(SetSection(s, n, Dropping), n, row), n)
  {
    Known(s, n);
  }

  lemma LockPatchedWrites(s: Registry, n: NodeId)
    ensures Next(s, LockPatched(n)) ==
      if RowOf(s, n).dropping == 0 || n in s.locks then s
      else WriteRow(SetSection(s, n, Dropping), n, RowOf(s, n).(dropping := RowOf(s, n).dropping - 1))
  {
  }

  lemma LockPatchedKeeps(s: Registry, n: NodeId)
    requires Inv(s)
    ensures NodeKept(s, Next(s, LockPatched(n)), n)
  {
    LockPatchedWrites(s, n);
    if RowOf(s, n).dropping == 0 || n in s.locks {
      UnchangedKeeps(s, n);
    } else {
      assert RowOk(s, n);
      PatchTakesLock(s, n, RowOf(s, n).(dropping := RowOf(s, n).dropping - 1));
    }
  }

  lemma StepKept(s: Registry, step: Step)
    requires Inv(s) && !step.Dial?
    ensures NodeKept(s, Next(s, step), NodeOf(s, step))
  {
    if step.LockHandshake? { TakeHandshakeKeeps(s, step.c); }
    else if step.LockUpdate? { TakeUpdateKeeps(s, step.c); }
    else if step.LockEnd? { TakeEndKeeps(s, step.c); }
    else if step.StopReading? { StopKeeps(s, step.c); }
    else if step.LockDisconnect? { DisconnectKeeps(s, step.n); }
    else if Patching(step) { PatchKeeps(s, step); }
    else if step.LockPatched? { LockPatchedKeeps(s, step.n); }
    else if step.n in s.locks { SectionKeeps(s, step.n, step); }
    else { UnchangedKeeps(s, step.n); }
  }

  lemma DialElsewhere(s: Registry, c: ConnId, n: NodeId, m: NodeId)
    requires Inv(s) && c !in s.conns
    ensures var t := Next(s, Dial(c, n)); NodeOk(t, m) && LockOk(t, m) && RowOk(t, m)
  {
    Known(s, m);
    var t := Next(s, Dial(c, n));
    assert Agrees(s, m) ==> Agrees(t, m);
  }

  lemma DialKeeps(s: Registry, c: ConnId, n: NodeId)
    requires Inv(s)
    ensures Inv(Next(s, Dial(c, n)))
  {
    if c !in s.conns {
      var t := Next(s, Dial(c, n));
      forall m ensures NodeOk(t, m) && LockOk(t, m) && RowOk(t, m) { DialElsewhere(s, c, n, m); }
      forall d ensures ConnOk(t, d) { assert ConnOk(s, d); }
    }
  }

  lemma NextKeeps(s: Registry, step: Step)
    requires Inv(s)
    ensures Inv(Next(s, step))
  {
    if step.Dial? {
      DialKeeps(s, step.c, step.n);
    } else {
      StepKept(s, step);
      NodeStep(s, Next(s, step), NodeOf(s, step));
    }
  }

  // ------------------------------------------------------------------ what hides a node

  predicate Delivering(section: Section) { section.Announcing? || section.Refreshing? }

  lemma SectionHides(s: Registry, n: NodeId, section: Section, step: Step)
    ensures var t := InSection(s, n, section, step);
      t.hidden == s.hidden ||
      (step.Publish? && Delivering(section) &&
       t.hidden == HandOver(s, n, section.c, section.admitted).hidden &&
       t.published == HandOver(s, n, section.c, section.admitted).published)
  {
  }

  /** Steps that do not need the lock, or take it. */
  predicate OutsideSection(step: Step) {
    step.LockHandshake? || step.LockUpdate? || step.LockEnd? || step.StopReading? || step.LockDisconnect? || Patching(step) ||
    step.LockPatched?
  }

  lemma OutsideHides(s: Registry, step: Step)
    requires step.Dial? || OutsideSection(step)
    ensures Next(s, step).hidden == s.hidden
  {
  }

  lemma InsideIs(s: Registry, step: Step)
    requires !step.Dial? && !OutsideSection(step)
    ensures Next(s, step) == if step.n in s.locks then InSection(s, step.n, s.locks[step.n], step) else s
  {
  }

  lemma HandOverIs(s: Registry, n: NodeId, c: ConnId, admitted: bool, m: NodeId)
    requires m in s.hidden <==> m !in HandOver(s, n, c, admitted).hidden
    ensures m == n
    ensures var t := HandOver(s, n, c, admitted); (n in t.hidden <==> !admitted) && (n in t.published <==> admitted)
  {
  }

  /** A node becomes hidden, or is shown again, only when a snapshot of it is handed over, and as its row was read back. */
  lemma HiddenChanges(s: Registry, step: Step, n: NodeId)
    requires n in s.hidden <==> n !in Next(s, step).hidden
    ensures step == Publish(n) && n in s.locks && Delivering(s.locks[n])
    ensures var t := Next(s, step);
      (n in t.hidden <==> !s.locks[n].admitted) && (n in t.published <==> s.locks[n].admitted)
  {
    if step.Dial? || OutsideSection(step) {
      OutsideHides(s, step);
    } else {
      InsideIs(s, step);
      if step.n in s.locks {
        var section := s.locks[step.n];
        SectionHides(s, step.n, section, step);
        if Delivering(section) { HandOverIs(s, step.n, section.c, section.admitted, n); }
      }
    }
  }
}
