/**
 Which results a retention pass clears: of a node's eligible rows that nobody awaits or holds, those older than thirty days
 and those behind the newest 1024.
 */
module ContinuationRetention {
  import opened Wrappers
  import opened ContinuationModel
  import opened ContinuationSpec
  import opened ContinuationSystem

  /** Row j was received after row i; rows received together count by position. */
  predicate Newer(table: seq<Receipt>, i: int, j: int)
    requires 0 <= i < |table| && 0 <= j < |table|
  {
    table[j].receivedAt > table[i].receivedAt || (table[j].receivedAt == table[i].receivedAt && j > i)
  }

  predicate EligibleOf(table: seq<Receipt>, node: Id, j: int)
    requires 0 <= j < |table|
  {
    table[j].node == node && table[j].eligible == Eligible
  }

  /** The node's eligible rows among the first n that are newer than row i. */
  function NewerRows(table: seq<Receipt>, node: Id, i: nat, n: nat): set<int>
    requires i < |table| && n <= |table|
  {
    set j | 0 <= j < n && EligibleOf(table, node, j) && Newer(table, i, j)
  }

  lemma {:induction false} CountsRows(table: seq<Receipt>, node: Id, i: nat, n: nat)
    requires i < |table| && n <= |table|
    ensures NewerCount(table, node, i, n) == |NewerRows(table, node, i, n)|
    decreases n
  {
    if n > 0 {
      CountsRows(table, node, i, n - 1);
      var (before, after) := (NewerRows(table, node, i, n - 1), NewerRows(table, node, i, n));
      if EligibleOf(table, node, n - 1) && Newer(table, i, n - 1) {
        assert after == before + {n - 1};
      } else {
        assert after == before;
      }
    }
  }

  /** The document of the session waits for this command. */
  predicate WaitedFor(docs: map<Id, Doc>, r: Receipt) {
    r.session in docs && Source(r.target, r.command) in docs[r.session].state.sources
  }

  /** A wake that is not settled carries this event of this Target. */
  predicate Carried(docs: map<Id, Doc>, r: Receipt) {
    r.session in docs &&
    exists i :: 0 <= i < |docs[r.session].wakes| && docs[r.session].wakes[i].state != Settled && Carries(docs[r.session].wakes[i], r)
  }

  predicate Carries(w: Wake, r: Receipt) {
    exists p :: 0 <= p < |w.sources| && w.sources[p].event == r.event && w.sources[p].target == r.target
  }

  predicate Unprotected(docs: map<Id, Doc>, table: seq<Receipt>, node: Id, i: int)
    requires 0 <= i < |table|
  {
    EligibleOf(table, node, i) && !WaitedFor(docs, table[i]) && !Carried(docs, table[i])
  }

  predicate TooOld(r: Receipt, now: int) { r.receivedAt < now - 30 * 24 * 60 * 60 * 1_000_000_000 }

  lemma CarriedIsHeld(docs: map<Id, Doc>, r: Receipt)
    ensures Carried(docs, r) <==> HeldBy(docs, r)
  {
    if Carried(docs, r) {
      var i :| 0 <= i < |docs[r.session].wakes| && docs[r.session].wakes[i].state != Settled && Carries(docs[r.session].wakes[i], r);
      var p :| 0 <= p < |docs[r.session].wakes[i].sources| &&
        docs[r.session].wakes[i].sources[p].event == r.event && docs[r.session].wakes[i].sources[p].target == r.target;
    }
    if HeldBy(docs, r) {
      var i, p :| 0 <= i < |docs[r.session].wakes| && !docs[r.session].wakes[i].state.Settled? &&
        0 <= p < |docs[r.session].wakes[i].sources| &&
        docs[r.session].wakes[i].sources[p].event == r.event && docs[r.session].wakes[i].sources[p].target == r.target;
      assert Carries(docs[r.session].wakes[i], r);
    }
  }

  /** The row loses its payload and is marked, and nothing else about it changes. */
  predicate Clears(r: Receipt, r': Receipt) { r' == r.(outcome := None, eligible := Lapsed) }

  /**
   Main result: a pass clears exactly the unprotected rows of the node that are older than thirty days or have at least 1024
   newer eligible rows of the node; every other row stays as it is.
   */
  lemma RetentionExactly(docs: map<Id, Doc>, table: seq<Receipt>, node: Id, now: int, i: nat)
    requires i < |table|
    ensures var t := ExpireUnawaited(docs, table, node, now);
      |t| == |table| &&
      if Unprotected(docs, table, node, i) && (TooOld(table[i], now) || |NewerRows(table, node, i, |table|)| >= 1024)
      then Clears(table[i], t[i]) else t[i] == table[i]
  {
    CountsRows(table, node, i, |table|);
    CarriedIsHeld(docs, table[i]);
  }

  lemma FewerNewer(table: seq<Receipt>, node: Id, i: nat, j: nat)
    requires i < |table| && j < |table| && Newer(table, i, j) && EligibleOf(table, node, j)
    ensures |NewerRows(table, node, j, |table|)| < |NewerRows(table, node, i, |table|)|
  {
    var (few, many) := (NewerRows(table, node, j, |table|), NewerRows(table, node, i, |table|));
    assert few <= many && j in many && j !in few;
    SmallerSet(few, many, j);
  }

  lemma SmallerSet(few: set<int>, many: set<int>, j: int)
    requires few <= many && j in many && j !in few
    ensures |few| < |many|
  {
    assert |many| == |few| + |many - few| by { assert many == few + (many - few); }
    assert j in many - few;
  }

  /** Of two unprotected rows of the node, the newer one is never cleared while the older one stays. */
  lemma NewestStay(docs: map<Id, Doc>, table: seq<Receipt>, node: Id, now: int, i: nat, j: nat)
    requires i < |table| && j < |table| && Newer(table, i, j)
    requires Unprotected(docs, table, node, i) && Unprotected(docs, table, node, j)
    ensures var t := ExpireUnawaited(docs, table, node, now); t[j] != table[j] ==> t[i] != table[i]
  {
    RetentionExactly(docs, table, node, now, i);
    RetentionExactly(docs, table, node, now, j);
    FewerNewer(table, node, i, j);
  }

  /** With no more than 1024 eligible rows, none of them too old, nothing changes. */
  lemma FewAndYoungStay(docs: map<Id, Doc>, table: seq<Receipt>, node: Id, now: int)
    requires |set j | 0 <= j < |table| && EligibleOf(table, node, j)| <= 1024
    requires forall j :: 0 <= j < |table| && EligibleOf(table, node, j) ==> !TooOld(table[j], now)
    ensures ExpireUnawaited(docs, table, node, now) == table
  {
    var all := set j | 0 <= j < |table| && EligibleOf(table, node, j);
    forall i | 0 <= i < |table| ensures ExpireUnawaited(docs, table, node, now)[i] == table[i] {
      RetentionExactly(docs, table, node, now, i);
      if EligibleOf(table, node, i) { SmallerSet(NewerRows(table, node, i, |table|), all, i); }
    }
  }

  /** The newest eligible row of a node is cleared only when it is too old. */
  lemma NewestClearedOnlyByAge(docs: map<Id, Doc>, table: seq<Receipt>, node: Id, now: int, i: nat)
    requires i < |table| && forall j :: 0 <= j < |table| && EligibleOf(table, node, j) ==> !Newer(table, i, j)
    requires !TooOld(table[i], now)
    ensures ExpireUnawaited(docs, table, node, now)[i] == table[i]
  {
    RetentionExactly(docs, table, node, now, i);
    assert NewerRows(table, node, i, |table|) == {};
  }
}
