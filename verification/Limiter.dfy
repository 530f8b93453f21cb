/**
 The fixed-window limiter: per key a window start and a count, in a table of bounded size that evicts stale entries when
 it is full. Times are positive; 0 is the zero time.
 */
module Limiter {
  const MAX_ENTRIES := 4096

  datatype Entry = Entry(started: int, count: int)

  type Table = map<string, Entry>

  datatype Setup = Setup(maximum: int, window: int)
  {
    predicate Sound() { 1 <= maximum && 0 < window }

    predicate Stale(e: Entry, now: int) { now - e.started >= window }

    function Evict(t: Table, now: int): Table { map k | k in t && !Stale(t[k], now) :: t[k] }

    /** A full table makes room for a new key, if it can. */
    function Roomy(t: Table, key: string, now: int): Table {
      if key !in t && |t| >= MAX_ENTRIES then Evict(t, now) else t
    }

    function Decide(t: Table, key: string, now: int): (bool, Table) {
      var r := Roomy(t, key, now);
      if key !in t && |r| >= MAX_ENTRIES then (false, r)
      else if key !in r || r[key].started == 0 || Stale(r[key], now) then (true, r[key := Entry(now, 1)])
      else if r[key].count >= maximum then (false, r)
      else (true, r[key := r[key].(count := r[key].count + 1)])
    }
  }

  // ------------------------------------------------------------------ runs

  /** An admission, with the window it was counted in. */
  datatype Admission = Admission(key: string, at: int, started: int)

  datatype Call = Call(key: string, now: int)

  datatype System = System(table: Table, clock: int, log: seq<Admission>)

  const Start := System(map[], 1, [])

  /** Calls one after the other; the clock does not run backwards. */
  function Step(s: Setup, y: System, c: Call): System {
    var now := if c.now < y.clock then y.clock else c.now;
    var (ok, t) := s.Decide(y.table, c.key, now);
    System(t, now, if ok && c.key in t then y.log + [Admission(c.key, now, t[c.key].started)] else y.log)
  }

  function Run(s: Setup, y: System, calls: seq<Call>): System
    decreases |calls|
  {
    if calls == [] then y else Step(s, Run(s, y, calls[..|calls| - 1]), calls[|calls| - 1])
  }

  /** Admissions of a key within an interval, both ends included. */
  function Within(log: seq<Admission>, key: string, from: int, to: int): nat {
    if log == [] then 0
    else
      var a := log[|log| - 1];
      Within(log[..|log| - 1], key, from, to) + (if a.key == key && from <= a.at <= to then 1 else 0)
  }

  /** Admissions of a key counted in one window. */
  function InWindow(log: seq<Admission>, key: string, started: int): nat {
    if log == [] then 0
    else
      var a := log[|log| - 1];
      InWindow(log[..|log| - 1], key, started) + (if a.key == key && a.started == started then 1 else 0)
  }

  // ------------------------------------------------------------------ invariant

  predicate Apart(s: Setup, a: Admission, b: Admission) {
    a.key == b.key ==> a.started == b.started || a.started + s.window <= b.started || b.started + s.window <= a.started
  }

  /** An admission belongs to the key's current window or to one that has passed. */
  predicate Placed(s: Setup, t: Table, clock: int, a: Admission) {
    a.started <= a.at < a.started + s.window && a.at <= clock &&
    (a.key in t ==> a.started == t[a.key].started || a.started + s.window <= t[a.key].started) &&
    (a.key !in t ==> a.started + s.window <= clock)
  }

  predicate Counted(s: Setup, y: System, key: string) {
    key in y.table ==>
      1 <= y.table[key].count <= s.maximum && 0 < y.table[key].started <= y.clock &&
      InWindow(y.log, key, y.table[key].started) == y.table[key].count
  }

  ghost predicate Inv(s: Setup, y: System) {
    0 < y.clock && |y.table| <= MAX_ENTRIES && (forall key :: Counted(s, y, key)) &&
    (forall i :: 0 <= i < |y.log| ==> Placed(s, y.table, y.clock, y.log[i])) &&
    (forall i, j :: 0 <= i < j < |y.log| ==> Apart(s, y.log[i], y.log[j])) &&
    forall key, started :: InWindow(y.log, key, started) <= s.maximum
  }

  lemma WindowAppend(log: seq<Admission>, a: Admission, key: string, started: int)
    ensures InWindow(log + [a], key, started) ==
      InWindow(log, key, started) + (if a.key == key && a.started == started then 1 else 0)
  {
    assert (log + [a])[..|log|] == log;
  }

  lemma {:induction false} EmptyWindow(log: seq<Admission>, key: string, started: int)
    requires forall i :: 0 <= i < |log| ==> log[i].key != key || log[i].started != started
    ensures InWindow(log, key, started) == 0
    decreases |log|
  {
    if log != [] { EmptyWindow(log[..|log| - 1], key, started); }
  }

  lemma EvictSmaller(s: Setup, t: Table, now: int)
    ensures |s.Evict(t, now)| <= |t|
  {
    Smaller(s.Evict(t, now).Keys, t.Keys);
  }

  lemma {:induction false} Smaller(a: set<string>, b: set<string>)
    requires a <= b
    ensures |a| <= |b|
    ensures |a| == |b| ==> a == b
    decreases |a|
  {
    if a != {} {
      var x :| x in a;
      Smaller(a - {x}, b - {x});
      if |a| == |b| { assert a == a - {x} + {x} && b == b - {x} + {x}; }
    }
  }

  lemma RoomyKeeps(s: Setup, y: System, key: string, now: int)
    requires s.Sound() && Inv(s, y) && y.clock <= now
    ensures Inv(s, System(s.Roomy(y.table, key, now), now, y.log))
  {
    var r := s.Roomy(y.table, key, now);
    EvictSmaller(s, y.table, now);
    var z := System(r, now, y.log);
    forall k ensures Counted(s, z, k) { assert Counted(s, y, k); }
    forall i | 0 <= i < |y.log| ensures Placed(s, r, now, y.log[i]) { assert Placed(s, y.table, y.clock, y.log[i]); }
  }

  lemma AddKey(t: Table, key: string, e: Entry)
    ensures |t[key := e]| == if key in t then |t| else |t| + 1
  {
    assert t[key := e].Keys == t.Keys + {key};
  }

  /** A new window for a key whose earlier windows have passed. */
  lemma OpenKeeps(s: Setup, y: System, key: string)
    requires s.Sound() && Inv(s, y) && (key in y.table || |y.table| < MAX_ENTRIES)
    requires key in y.table ==> s.Stale(y.table[key], y.clock)
    ensures Inv(s, System(y.table[key := Entry(y.clock, 1)], y.clock, y.log + [Admission(key, y.clock, y.clock)]))
  {
    assert Counted(s, y, key);
    var a := Admission(key, y.clock, y.clock);
    var z := System(y.table[key := Entry(y.clock, 1)], y.clock, y.log + [a]);
    AddKey(y.table, key, Entry(y.clock, 1));
    forall i | 0 <= i < |y.log| ensures Placed(s, z.table, z.clock, y.log[i]) && Apart(s, y.log[i], a) {
      assert Placed(s, y.table, y.clock, y.log[i]);
    }
    forall i | 0 <= i < |y.log| ensures y.log[i].key != key || y.log[i].started != y.clock {
      assert Placed(s, y.table, y.clock, y.log[i]);
    }
    EmptyWindow(y.log, key, y.clock);
    forall k, started ensures InWindow(z.log, k, started) <= s.maximum { WindowAppend(y.log, a, k, started); }
    forall k ensures Counted(s, z, k) {
      assert Counted(s, y, k);
      WindowAppend(y.log, a, k, z.clock);
      if k in y.table { WindowAppend(y.log, a, k, y.table[k].started); }
    }
  }

  lemma CountKeeps(s: Setup, y: System, key: string)
    requires s.Sound() && Inv(s, y) && key in y.table && !s.Stale(y.table[key], y.clock) && y.table[key].count < s.maximum
    ensures var e := y.table[key];
      Inv(s, System(y.table[key := e.(count := e.count + 1)], y.clock, y.log + [Admission(key, y.clock, e.started)]))
  {
    var e := y.table[key];
    assert Counted(s, y, key);
    var a := Admission(key, y.clock, e.started);
    var z := System(y.table[key := e.(count := e.count + 1)], y.clock, y.log + [a]);
    AddKey(y.table, key, e.(count := e.count + 1));
    forall i | 0 <= i < |y.log| ensures Placed(s, z.table, z.clock, y.log[i]) && Apart(s, y.log[i], a) {
      assert Placed(s, y.table, y.clock, y.log[i]);
    }
    forall k, started ensures InWindow(z.log, k, started) <= s.maximum { WindowAppend(y.log, a, k, started); }
    forall k ensures Counted(s, z, k) {
      assert Counted(s, y, k);
      if k in y.table { WindowAppend(y.log, a, k, y.table[k].started); }
    }
  }

  function Later(y: System, c: Call): int { if c.now < y.clock then y.clock else c.now }

  lemma StepKeeps(s: Setup, y: System, c: Call)
    requires s.Sound() && Inv(s, y)
    ensures Inv(s, Step(s, y, c))
  {
    var now := Later(y, c);
    RoomyKeeps(s, y, c.key, now);
    var z := System(s.Roomy(y.table, c.key, now), now, y.log);
    assert Counted(s, z, c.key);
    if s.Decide(y.table, c.key, now).0 {
      if c.key !in z.table || s.Stale(z.table[c.key], now) { OpenKeeps(s, z, c.key); } else { CountKeeps(s, z, c.key); }
    }
  }

  lemma {:induction false} RunKeeps(s: Setup, calls: seq<Call>)
    requires s.Sound()
    ensures Inv(s, Run(s, Start, calls))
    decreases |calls|
  {
    if calls != [] {
      RunKeeps(s, calls[..|calls| - 1]);
      StepKeeps(s, Run(s, Start, calls[..|calls| - 1]), calls[|calls| - 1]);
    }
  }

  // ------------------------------------------------------------------ results

  /** Every admission of the interval lies in one of two windows. */
  predicate InTwo(log: seq<Admission>, key: string, from: int, to: int, a: int, b: int) {
    forall i :: 0 <= i < |log| && log[i].key == key && from <= log[i].at <= to ==> log[i].started == a || log[i].started == b
  }

  lemma {:induction false} TwoWindows(log: seq<Admission>, key: string, from: int, to: int, a: int, b: int)
    requires InTwo(log, key, from, to, a, b)
    ensures Within(log, key, from, to) <= InWindow(log, key, a) + InWindow(log, key, b)
    decreases |log|
  {
    if log != [] {
      var shorter := log[..|log| - 1];
      assert forall i :: 0 <= i < |shorter| ==> shorter[i] == log[i];
      TwoWindows(shorter, key, from, to, a, b);
    }
  }

  lemma PickWindows(s: Setup, y: System, key: string, from: int) returns (a: int, b: int)
    requires s.Sound() && Inv(s, y)
    ensures InTwo(y.log, key, from, from + s.window, a, b)
  {
    var to := from + s.window;
    if i :| 0 <= i < |y.log| && y.log[i].key == key && from <= y.log[i].at <= to {
      a := y.log[i].started;
      if j :| 0 <= j < |y.log| && y.log[j].key == key && from <= y.log[j].at <= to && y.log[j].started != a {
        b := y.log[j].started;
        forall k | 0 <= k < |y.log| && y.log[k].key == key && from <= y.log[k].at <= to
          ensures y.log[k].started == a || y.log[k].started == b
        {
          assert Placed(s, y.table, y.clock, y.log[i]) && Placed(s, y.table, y.clock, y.log[j]) && Placed(s, y.table, y.clock, y.log[k]);
          ApartAnyOrder(s, y, i, j);
          ApartAnyOrder(s, y, i, k);
          ApartAnyOrder(s, y, j, k);
        }
      } else {
        b := a;
      }
    } else {
      a, b := 0, 0;
    }
  }

  lemma ApartAnyOrder(s: Setup, y: System, i: nat, j: nat)
    requires Inv(s, y) && i < |y.log| && j < |y.log|
    ensures Apart(s, y.log[i], y.log[j])
  {
    if i < j { assert Apart(s, y.log[i], y.log[j]); } else if j < i { assert Apart(s, y.log[j], y.log[i]); }
  }

  /**
   Main result: whatever the calls, no key is admitted more than twice the maximum within any interval as long as one
   window, both ends included, and the table never outgrows its bound.
   */
  lemma AtMostTwiceTheMaximum(s: Setup, calls: seq<Call>, key: string, from: int)
    requires s.Sound()
    ensures var y := Run(s, Start, calls);
      Within(y.log, key, from, from + s.window) <= 2 * s.maximum && |y.table| <= MAX_ENTRIES
  {
    RunKeeps(s, calls);
    var y := Run(s, Start, calls);
    var a, b := PickWindows(s, y, key, from);
    TwoWindows(y.log, key, from, from + s.window, a, b);
  }

  /** The tables differ only in entries whose window has passed. */
  predicate SameLive(s: Setup, t: Table, u: Table, now: int) { s.Evict(t, now) == s.Evict(u, now) }

  lemma LiveAt(s: Setup, t: Table, k: string, now: int)
    ensures k in s.Evict(t, now) <==> k in t && !s.Stale(t[k], now)
    ensures k in s.Evict(t, now) ==> s.Evict(t, now)[k] == t[k]
  {
  }

  lemma SameLiveLater(s: Setup, t: Table, u: Table, now: int, later: int)
    requires SameLive(s, t, u, now) && now <= later
    ensures SameLive(s, t, u, later)
  {
    forall k ensures k in s.Evict(t, later) <==> k in s.Evict(u, later) { LiveAt(s, t, k, now); LiveAt(s, u, k, now); }
    forall k | k in s.Evict(t, later) ensures s.Evict(t, later)[k] == s.Evict(u, later)[k] {
      LiveAt(s, t, k, now);
      LiveAt(s, u, k, now);
    }
  }

  lemma EvictTwice(s: Setup, t: Table, now: int)
    ensures s.Evict(s.Evict(t, now), now) == s.Evict(t, now)
  {
  }

  /** A table that is full of live entries is the only table with these live entries. */
  lemma FullOfLive(s: Setup, t: Table, u: Table, now: int)
    requires SameLive(s, t, u, now) && |t| <= MAX_ENTRIES && |u| <= MAX_ENTRIES && |s.Evict(t, now)| >= MAX_ENTRIES
    ensures t == u
  {
    Smaller(s.Evict(t, now).Keys, t.Keys);
    Smaller(s.Evict(u, now).Keys, u.Keys);
    assert t == s.Evict(t, now) && u == s.Evict(u, now);
  }

  /** What is decided, in terms of the live entries alone. */
  predicate Admits(s: Setup, t: Table, key: string, now: int) {
    var live := s.Evict(t, now);
    if key in live then live[key].started == 0 || live[key].count < s.maximum else key in t || |live| < MAX_ENTRIES
  }

  lemma DecidesByLive(s: Setup, t: Table, key: string, now: int)
    requires |t| <= MAX_ENTRIES
    ensures s.Decide(t, key, now).0 <==> Admits(s, t, key, now)
  {
    LiveAt(s, t, key, now);
    Smaller(s.Evict(t, now).Keys, t.Keys);
  }

  lemma DecideSame(s: Setup, t: Table, u: Table, key: string, now: int)
    requires SameLive(s, t, u, now) && |t| <= MAX_ENTRIES && |u| <= MAX_ENTRIES
    ensures s.Decide(t, key, now).0 == s.Decide(u, key, now).0
  {
    DecidesByLive(s, t, key, now);
    DecidesByLive(s, u, key, now);
    if |s.Evict(t, now)| >= MAX_ENTRIES { FullOfLive(s, t, u, now); }
  }

  /** The live entries afterwards. */
  lemma LiveAfter(s: Setup, t: Table, key: string, now: int)
    requires s.Sound() && |t| <= MAX_ENTRIES
    ensures var (live, d) := (s.Evict(t, now), s.Decide(t, key, now));
      |d.1| <= MAX_ENTRIES &&
      s.Evict(d.1, now) == if !d.0 then live
        else if key in live && live[key].started != 0 then live[key := live[key].(count := live[key].count + 1)]
        else live[key := Entry(now, 1)]
  {
    var d := s.Decide(t, key, now);
    var r := s.Roomy(t, key, now);
    EvictSmaller(s, t, now);
    EvictTwice(s, t, now);
    assert s.Evict(r, now) == s.Evict(t, now);
    if d.0 { AddKey(r, key, d.1[key]); assert d.1 == r[key := d.1[key]]; }
  }

  lemma {:induction false} RunSame(s: Setup, y: System, u: Table, calls: seq<Call>)
    requires s.Sound() && |y.table| <= MAX_ENTRIES && |u| <= MAX_ENTRIES && SameLive(s, y.table, u, y.clock)
    ensures var (a, b) := (Run(s, y, calls), Run(s, y.(table := u), calls));
      |a.table| <= MAX_ENTRIES && |b.table| <= MAX_ENTRIES && SameLive(s, a.table, b.table, a.clock) && a.clock == b.clock
    decreases |calls|
  {
    if calls != [] {
      var (before, c) := (calls[..|calls| - 1], calls[|calls| - 1]);
      RunSame(s, y, u, before);
      var (a, b) := (Run(s, y, before), Run(s, y.(table := u), before));
      SameLiveLater(s, a.table, b.table, a.clock, Later(a, c));
      DecideSame(s, a.table, b.table, c.key, Later(a, c));
      LiveAfter(s, a.table, c.key, Later(a, c));
      LiveAfter(s, b.table, c.key, Later(a, c));
    }
  }

  /** Main result: evicting stale entries at any moment, all or some, never changes a later decision. */
  lemma EvictionIsInvisible(s: Setup, calls: seq<Call>, u: Table, later: seq<Call>, c: Call)
    requires s.Sound() && |u| <= MAX_ENTRIES
    requires SameLive(s, Run(s, Start, calls).table, u, Run(s, Start, calls).clock)
    ensures var y := Run(s, Start, calls);
      var (a, b) := (Run(s, y, later), Run(s, y.(table := u), later));
      s.Decide(a.table, c.key, Later(a, c)).0 == s.Decide(b.table, c.key, Later(b, c)).0
  {
    RunKeeps(s, calls);
    var y := Run(s, Start, calls);
    RunSame(s, y, u, later);
    var (a, b) := (Run(s, y, later), Run(s, y.(table := u), later));
    SameLiveLater(s, a.table, b.table, a.clock, Later(a, c));
    DecideSame(s, a.table, b.table, c.key, Later(a, c));
  }

  // ------------------------------------------------------------------ when a call is refused

  /** An admission of the key whose window has not passed. */
  predicate Running(s: Setup, log: seq<Admission>, key: string, started: int, now: int) {
    started <= now < started + s.window && exists i :: 0 <= i < |log| && log[i].key == key && log[i].started == started
  }

  lemma {:induction false} CountedOnce(log: seq<Admission>, key: string, started: int)
    requires InWindow(log, key, started) > 0
    ensures exists i :: 0 <= i < |log| && log[i].key == key && log[i].started == started
    decreases |log|
  {
    var n := |log| - 1;
    if !(log[n].key == key && log[n].started == started) {
      CountedOnce(log[..n], key, started);
      var i :| 0 <= i < n && log[..n][i].key == key && log[..n][i].started == started;
      assert log[i] == log[..n][i];
    }
  }

  /** A key has a live entry exactly while one of its windows runs, and it is that window's. */
  lemma LiveMeansRunning(s: Setup, y: System, key: string, now: int)
    requires s.Sound() && Inv(s, y) && y.clock <= now
    ensures key in y.table && !s.Stale(y.table[key], now) ==> Running(s, y.log, key, y.table[key].started, now)
    ensures forall started :: Running(s, y.log, key, started, now) ==>
      key in y.table && !s.Stale(y.table[key], now) && y.table[key].started == started
  {
    assert Counted(s, y, key);
    if key in y.table && !s.Stale(y.table[key], now) { CountedOnce(y.log, key, y.table[key].started); }
    forall started | Running(s, y.log, key, started, now)
      ensures key in y.table && !s.Stale(y.table[key], now) && y.table[key].started == started
    {
      var i :| 0 <= i < |y.log| && y.log[i].key == key && y.log[i].started == started;
      assert Placed(s, y.table, y.clock, y.log[i]);
    }
  }

  /** A window of the key runs in which it was admitted as often as allowed. */
  predicate Spent(s: Setup, log: seq<Admission>, key: string, now: int) {
    exists i :: 0 <= i < |log| && log[i].key == key && log[i].started <= now < log[i].started + s.window &&
      InWindow(log, key, log[i].started) >= s.maximum
  }

  /** The keys one of whose windows runs. */
  function RunningKeys(s: Setup, log: seq<Admission>, now: int): set<string> {
    set i | 0 <= i < |log| && log[i].started <= now < log[i].started + s.window :: log[i].key
  }

  lemma RunningKeysLive(s: Setup, y: System, now: int)
    requires s.Sound() && Inv(s, y) && y.clock <= now
    ensures RunningKeys(s, y.log, now) == s.Evict(y.table, now).Keys
  {
    forall k ensures k in RunningKeys(s, y.log, now) <==> k in s.Evict(y.table, now) {
      LiveMeansRunning(s, y, k, now);
      LiveAt(s, y.table, k, now);
      if k in RunningKeys(s, y.log, now) {
        var i :| 0 <= i < |y.log| && y.log[i].started <= now < y.log[i].started + s.window && y.log[i].key == k;
        assert Running(s, y.log, k, y.log[i].started, now);
      }
    }
  }

  /**
   Main result: after any calls, a call is refused exactly when its key has used up a window that still runs, or the table is
   full of 4096 other keys whose windows run.
   */
  lemma RefusedExactly(s: Setup, calls: seq<Call>, c: Call)
    requires s.Sound()
    ensures var y := Run(s, Start, calls);
      !s.Decide(y.table, c.key, Later(y, c)).0 <==>
        Spent(s, y.log, c.key, Later(y, c)) ||
        (c.key !in y.table && c.key !in RunningKeys(s, y.log, Later(y, c)) && |RunningKeys(s, y.log, Later(y, c))| >= 4096)
  {
    RunKeeps(s, calls);
    var (y, key) := (Run(s, Start, calls), c.key);
    var now := Later(y, c);
    DecidesByLive(s, y.table, key, now);
    RunningKeysLive(s, y, now);
    assert |s.Evict(y.table, now)| == |s.Evict(y.table, now).Keys|;
    LiveMeansRunning(s, y, key, now);
    LiveAt(s, y.table, key, now);
    assert Counted(s, y, key);
    if Spent(s, y.log, key, now) {
      var i :| 0 <= i < |y.log| && y.log[i].key == key && y.log[i].started <= now < y.log[i].started + s.window &&
        InWindow(y.log, key, y.log[i].started) >= s.maximum;
      assert Running(s, y.log, key, y.log[i].started, now);
    }
  }

  // ------------------------------------------------------------------ the object

  class FixedWindowLimiter {
    const setup: Setup
    var entries: Table

    constructor (maximum: int, window: int)
      ensures setup == Setup(maximum, window) && entries == map[]
    {
      setup := Setup(maximum, window);
      entries := map[];
    }

    method Allow(key: string, now: int) returns (allowed: bool)
      modifies this
      ensures (allowed, entries) == setup.Decide(old(entries), key, now)
    {
      var known := key in entries;
      var entry := if known then entries[key] else Entry(0, 0);
      if !known && |entries| >= MAX_ENTRIES {
        EvictStale(now);
        if |entries| >= MAX_ENTRIES { return false; }
      }
      if entry.started == 0 || now - entry.started >= setup.window {
        entries := entries[key := Entry(now, 1)];
        return true;
      }
      if entry.count >= setup.maximum { return false; }
      entries := entries[key := entry.(count := entry.count + 1)];
      return true;
    }

    method EvictStale(now: int)
      modifies this
      ensures entries == setup.Evict(old(entries), now)
    {
      var candidates := entries.Keys;
      while candidates != {}
        invariant candidates <= old(entries).Keys
        invariant entries == map k | k in old(entries) && (k in candidates || !setup.Stale(old(entries)[k], now)) :: old(entries)[k]
        decreases |candidates|
      {
        var candidate :| candidate in candidates;
        if now - entries[candidate].started >= setup.window { entries := entries - {candidate}; }
        candidates := candidates - {candidate};
      }
    }
  }
}
