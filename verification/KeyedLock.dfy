/**
 The reference-counted lock per key. A caller announces itself under the table's mutex, waits for the one-slot gate or gives
 up, and later lowers the count under the mutex again; the last one to leave removes the entry. The steps of any number of
 callers interleave.
 */
module KeyedLock {
  type Key = string
  type Caller = nat
  type LockId = nat

  /** gate: whether the one-slot channel is filled. */
  datatype Lock = Lock(refs: int, gate: bool)

  datatype Phase =
    | Waiting(key: Key, lock: LockId)
    | Holding(key: Key, lock: LockId)
    /** Gave up, or emptied the gate; the count is still to be lowered. */
    | Leaving(key: Key, lock: LockId)

  /** Callers that are not in the map are idle. Lock objects are never reused. */
  datatype State = State(table: map<Key, LockId>, locks: map<LockId, Lock>, callers: map<Caller, Phase>, next: LockId)

  const Start := State(map[], map[], map[], 0)

  datatype Step =
    | Enter(c: Caller, key: Key)
    | Take(c: Caller)
    | GiveUp(c: Caller)
    | Unlock(c: Caller)
    | Release(c: Caller)

  // ------------------------------------------------------------------ steps

  /** Finds or makes the lock of a key and raises its count. */
  function EnterWith(s: State, c: Caller, key: Key): State {
    if key in s.table && s.table[key] in s.locks then
      var id := s.table[key];
      s.(locks := s.locks[id := s.locks[id].(refs := s.locks[id].refs + 1)], callers := s.callers[c := Waiting(key, id)])
    else
      s.(table := s.table[key := s.next], locks := s.locks[s.next := Lock(1, false)],
         callers := s.callers[c := Waiting(key, s.next)], next := s.next + 1)
  }

  function SetGate(s: State, id: LockId, full: bool): State {
    if id in s.locks then s.(locks := s.locks[id := s.locks[id].(gate := full)]) else s
  }

  /** Lowers the count; at zero the entry goes, if it is still this lock's. */
  function Lower(s: State, key: Key, id: LockId): State {
    if id !in s.locks then s
    else
      var refs := s.locks[id].refs - 1;
      s.(locks := s.locks[id := s.locks[id].(refs := refs)],
         table := if refs == 0 && key in s.table && s.table[key] == id then s.table - {key} else s.table)
  }

  function Next(s: State, step: Step): State {
    match step
    case Enter(c, key) => if c in s.callers then s else EnterWith(s, c, key)
    case Take(c) =>
      if c in s.callers && s.callers[c].Waiting? && s.callers[c].lock in s.locks && !s.locks[s.callers[c].lock].gate then
        var p := s.callers[c];
        SetGate(s, p.lock, true).(callers := s.callers[c := Holding(p.key, p.lock)])
      else s
    case GiveUp(c) =>
      if c in s.callers && s.callers[c].Waiting? then
        s.(callers := s.callers[c := Leaving(s.callers[c].key, s.callers[c].lock)])
      else s
    case Unlock(c) =>
      if c in s.callers && s.callers[c].Holding? then
        var p := s.callers[c];
        SetGate(s, p.lock, false).(callers := s.callers[c := Leaving(p.key, p.lock)])
      else s
    case Release(c) =>
      if c in s.callers && s.callers[c].Leaving? then
        var p := s.callers[c];
        Lower(s, p.key, p.lock).(callers := s.callers - {c})
      else s
  }

  function Run(s: State, steps: seq<Step>): State
    decreases |steps|
  {
    if steps == [] then s else Next(Run(s, steps[..|steps| - 1]), steps[|steps| - 1])
  }

  // ------------------------------------------------------------------ invariant

  function Users(s: State, id: LockId): set<Caller> { set c | c in s.callers && s.callers[c].lock == id }

  function Holders(s: State, id: LockId): set<Caller> {
    set c | c in s.callers && s.callers[c].lock == id && s.callers[c].Holding?
  }

  predicate BothHold(s: State, c: Caller, d: Caller) {
    c in s.callers && d in s.callers && s.callers[c].Holding? && s.callers[d].Holding? && s.callers[c].lock == s.callers[d].lock
  }

  predicate OneHolder(s: State, c: Caller, d: Caller) { BothHold(s, c, d) ==> c == d }

  /** The count is the number of callers that use the lock, and a filled gate has a holder. */
  predicate Counted(s: State, id: LockId) {
    id in s.locks ==> s.locks[id].refs == |Users(s, id)| && (s.locks[id].gate <==> Holders(s, id) != {})
  }

  /** A caller uses the lock that is in the table under its key. */
  predicate Shared(s: State, c: Caller) {
    c in s.callers ==> s.callers[c].lock in s.locks && s.callers[c].key in s.table && s.table[s.callers[c].key] == s.callers[c].lock
  }

  predicate Entered(s: State, key: Key) {
    key in s.table ==> s.table[key] in s.locks && s.locks[s.table[key]].refs > 0
  }

  predicate Distinct(s: State) { forall k, l :: k in s.table && l in s.table && s.table[k] == s.table[l] ==> k == l }

  ghost predicate Inv(s: State) {
    (forall id :: id in s.locks ==> id < s.next) && Distinct(s) && (forall id :: Counted(s, id)) &&
    (forall c :: Shared(s, c)) && (forall key :: Entered(s, key)) && forall c, d :: OneHolder(s, c, d)
  }

  /** A new waiting caller changes the users of its own lock only, and no lock's holders. */
  lemma EnteredUsers(s: State, t: State, c: Caller, key: Key, mine: LockId, id: LockId)
    requires c !in s.callers && t.callers == s.callers[c := Waiting(key, mine)]
    ensures Users(t, id) == if id == mine then Users(s, id) + {c} else Users(s, id)
    ensures Holders(t, id) == Holders(s, id)
    ensures |Users(t, id)| == if id == mine then |Users(s, id)| + 1 else |Users(s, id)|
  {
  }

  lemma EnterOldKeeps(s: State, c: Caller, key: Key)
    requires Inv(s) && c !in s.callers && key in s.table
    ensures Inv(EnterWith(s, c, key))
  {
    var t := EnterWith(s, c, key);
    assert Entered(s, key);
    forall id ensures Counted(t, id) {
      assert Counted(s, id);
      EnteredUsers(s, t, c, key, s.table[key], id);
    }
    forall d ensures Shared(t, d) { assert Shared(s, d); }
    forall k ensures Entered(t, k) { assert Entered(s, k); }
    forall a, b ensures OneHolder(t, a, b) { assert OneHolder(s, a, b); }
  }

  lemma NobodyUses(s: State, id: LockId)
    requires Inv(s) && id !in s.locks
    ensures Users(s, id) == {} && Holders(s, id) == {}
  {
    forall d | d in s.callers ensures s.callers[d].lock != id { assert Shared(s, d); }
  }

  lemma EnterNewKeeps(s: State, c: Caller, key: Key)
    requires Inv(s) && c !in s.callers && key !in s.table
    ensures Inv(EnterWith(s, c, key))
  {
    var t := EnterWith(s, c, key);
    NobodyUses(s, s.next);
    forall id ensures Counted(t, id) {
      assert Counted(s, id);
      EnteredUsers(s, t, c, key, s.next, id);
    }
    forall k | k in s.table ensures s.table[k] != s.next { assert Entered(s, k); }
    forall d ensures Shared(t, d) { assert Shared(s, d); }
    forall k ensures Entered(t, k) { assert Entered(s, k); }
    forall a, b ensures OneHolder(t, a, b) { assert OneHolder(s, a, b); }
  }

  lemma EnterKeeps(s: State, c: Caller, key: Key)
    requires Inv(s) && c !in s.callers
    ensures Inv(EnterWith(s, c, key))
  {
    if key in s.table { EnterOldKeeps(s, c, key); } else { EnterNewKeeps(s, c, key); }
  }

  /** A caller changes its phase without leaving its lock. */
  lemma SameUsers(s: State, t: State, c: Caller, id: LockId)
    requires c in s.callers && c in t.callers && t.callers == s.callers[c := t.callers[c]]
    requires t.callers[c].lock == s.callers[c].lock && t.callers[c].key == s.callers[c].key
    ensures Users(t, id) == Users(s, id)
    ensures forall d :: d != c ==> (d in Holders(t, id) <==> d in Holders(s, id))
  {
  }

  lemma TakeKeeps(s: State, c: Caller)
    requires Inv(s)
    ensures Inv(Next(s, Take(c)))
  {
    var t := Next(s, Take(c));
    if t != s {
      var mine := s.callers[c].lock;
      assert Counted(s, mine);
      forall id ensures Counted(t, id) {
        assert Counted(s, id);
        SameUsers(s, t, c, id);
        if id == mine { assert c in Holders(t, id); } else { assert Holders(t, id) == Holders(s, id); }
      }
      forall d ensures Shared(t, d) { assert Shared(s, d); }
      forall k ensures Entered(t, k) { assert Entered(s, k); }
      forall a, b ensures OneHolder(t, a, b) {
        assert OneHolder(s, a, b);
        assert a in s.callers && s.callers[a].Holding? && s.callers[a].lock == mine ==> a in Holders(s, mine);
        assert b in s.callers && s.callers[b].Holding? && s.callers[b].lock == mine ==> b in Holders(s, mine);
      }
    }
  }

  lemma GiveUpKeeps(s: State, c: Caller)
    requires Inv(s)
    ensures Inv(Next(s, GiveUp(c)))
  {
    var t := Next(s, GiveUp(c));
    if t != s {
      forall id ensures Counted(t, id) {
        assert Counted(s, id);
        SameUsers(s, t, c, id);
        assert Holders(t, id) == Holders(s, id);
      }
      forall d ensures Shared(t, d) { assert Shared(s, d); }
      forall k ensures Entered(t, k) { assert Entered(s, k); }
      forall a, b ensures OneHolder(t, a, b) { assert OneHolder(s, a, b); }
    }
  }

  lemma UnlockKeeps(s: State, c: Caller)
    requires Inv(s)
    ensures Inv(Next(s, Unlock(c)))
  {
    var t := Next(s, Unlock(c));
    if t != s {
      var mine := s.callers[c].lock;
      assert Shared(s, c);
      forall id ensures Counted(t, id) {
        assert Counted(s, id);
        SameUsers(s, t, c, id);
        if id == mine {
          forall d | d in Holders(t, id) ensures d == c { assert OneHolder(s, c, d); }
          assert Holders(t, id) == {};
        } else {
          assert Holders(t, id) == Holders(s, id);
        }
      }
      forall d ensures Shared(t, d) { assert Shared(s, d); }
      forall k ensures Entered(t, k) { assert Entered(s, k); }
      forall a, b ensures OneHolder(t, a, b) { assert OneHolder(s, a, b); }
    }
  }

  lemma ReleaseKeeps(s: State, c: Caller)
    requires Inv(s)
    ensures Inv(Next(s, Release(c)))
  {
    var t := Next(s, Release(c));
    if t != s {
      var mine := s.callers[c].lock;
      assert Shared(s, c);
      assert Counted(s, mine);
      assert Users(t, mine) == Users(s, mine) - {c};
      assert c in Users(s, mine);
      forall id ensures Counted(t, id) {
        assert Counted(s, id);
        if id != mine { assert Users(t, id) == Users(s, id); }
        assert Holders(t, id) == Holders(s, id);
      }
      forall d ensures Shared(t, d) {
        assert Shared(s, d);
        if d in t.callers && t.callers[d].lock == mine { assert d in Users(t, mine); }
      }
      forall k ensures Entered(t, k) { assert Entered(s, k); }
      forall a, b ensures OneHolder(t, a, b) { assert OneHolder(s, a, b); }
    }
  }

  lemma NextKeeps(s: State, step: Step)
    requires Inv(s)
    ensures Inv(Next(s, step))
  {
    match step
    case Enter(c, key) => if c !in s.callers { EnterKeeps(s, c, key); }
    case Take(c) => TakeKeeps(s, c);
    case GiveUp(c) => GiveUpKeeps(s, c);
    case Unlock(c) => UnlockKeeps(s, c);
    case Release(c) => ReleaseKeeps(s, c);
  }

  lemma {:induction false} RunKeeps(steps: seq<Step>)
    ensures Inv(Run(Start, steps))
    decreases |steps|
  {
    if steps != [] {
      RunKeeps(steps[..|steps| - 1]);
      NextKeeps(Run(Start, steps[..|steps| - 1]), steps[|steps| - 1]);
    }
  }

  // ------------------------------------------------------------------ results

  /** Main result: in every interleaving at most one caller holds a key. */
  lemma MutualExclusion(steps: seq<Step>, c: Caller, d: Caller)
    requires var s := Run(Start, steps);
      c in s.callers && d in s.callers && s.callers[c].Holding? && s.callers[d].Holding? && s.callers[c].key == s.callers[d].key
    ensures c == d
  {
    RunKeeps(steps);
    var s := Run(Start, steps);
    assert Shared(s, c) && Shared(s, d) && OneHolder(s, c, d);
  }

  function KeyUsers(s: State, key: Key): set<Caller> { set c | c in s.callers && s.callers[c].key == key }

  /**
   Main result: a key has an entry exactly while somebody waits for it, holds it or is leaving it; all of them use that
   entry's lock, and its count is their number.
   */
  lemma EntryExactlyWhileUsed(steps: seq<Step>, key: Key)
    ensures var s := Run(Start, steps);
      (key in s.table <==> KeyUsers(s, key) != {}) &&
      (key in s.table ==>
        s.table[key] in s.locks && s.locks[s.table[key]].refs == |KeyUsers(s, key)| &&
        forall c :: c in KeyUsers(s, key) ==> s.callers[c].lock == s.table[key])
  {
    RunKeeps(steps);
    var s := Run(Start, steps);
    assert Entered(s, key);
    forall c | c in s.callers ensures s.callers[c].key == key <==> key in s.table && s.callers[c].lock == s.table[key] {
      assert Shared(s, c);
    }
    if key in s.table {
      assert Counted(s, s.table[key]);
      assert KeyUsers(s, key) == Users(s, s.table[key]);
    }
  }

  /** No caller is shut out: while nobody holds the key, a waiting caller can take it; and nothing is left behind at the end. */
  lemma NothingIsLost(steps: seq<Step>, c: Caller)
    ensures var s := Run(Start, steps);
      (s.callers == map[] ==> s.table == map[]) &&
      (c in s.callers && s.callers[c].Waiting? && (forall d :: d in KeyUsers(s, s.callers[c].key) ==> !s.callers[d].Holding?) ==>
        var t := Next(s, Take(c)); c in t.callers && t.callers[c].Holding?)
  {
    RunKeeps(steps);
    var s := Run(Start, steps);
    if s.callers == map[] {
      forall k ensures k !in s.table { EntryExactlyWhileUsed(steps, k); }
    }
    if c in s.callers && s.callers[c].Waiting? && (forall d :: d in KeyUsers(s, s.callers[c].key) ==> !s.callers[d].Holding?) {
      var id := s.callers[c].lock;
      assert Shared(s, c) && Counted(s, id);
      forall d | d in s.callers && s.callers[d].lock == id ensures d in KeyUsers(s, s.callers[c].key) {
        assert Shared(s, d);
        assert s.table[s.callers[d].key] == s.table[s.callers[c].key];
      }
      assert Holders(s, id) == {};
    }
  }

  // ------------------------------------------------------------------ the critical sections

  /** The server's table; each method is one critical section under the mutex. */
  class Operations {
    var table: map<Key, LockId>
    var locks: map<LockId, Lock>
    var next: LockId

    function With(callers: map<Caller, Phase>): State
      reads this
    {
      State(table, locks, callers, next)
    }

    constructor ()
      ensures With(map[]) == Start
    {
      table, locks, next := map[], map[], 0;
    }

    method AcquireOperation(key: Key, ghost callers: map<Caller, Phase>, ghost c: Caller) returns (lock: LockId)
      modifies this
      ensures With(callers[c := Waiting(key, lock)]) == EnterWith(old(With(callers)), c, key)
    {
      if key in table && table[key] in locks {
        lock := table[key];
      } else {
        lock := next;
        next := next + 1;
        locks := locks[lock := Lock(0, false)];
        table := table[key := lock];
      }
      locks := locks[lock := locks[lock].(refs := locks[lock].refs + 1)];
    }

    method ReleaseOperation(key: Key, lock: LockId, ghost callers: map<Caller, Phase>)
      requires lock in locks
      modifies this
      ensures With(callers) == Lower(old(With(callers)), key, lock)
    {
      locks := locks[lock := locks[lock].(refs := locks[lock].refs - 1)];
      if locks[lock].refs == 0 && key in table && table[key] == lock { table := table - {key}; }
    }
  }
}
