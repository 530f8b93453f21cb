/**
 Saving a document compacts it.  Compaction keeps every unsettled wake in order, the newest 32 settled
 ones, and the answer of every newest-attempt lookup for a wake that stays.
 */
module ContinuationSaving {
  import opened Wrappers
  import opened ContinuationModel
  import opened ContinuationSpec
  import opened ContinuationInvariant
  import opened ContinuationSteps

  function UnsettledOf(wakes: seq<Wake>): seq<Wake> {
    if wakes == [] then []
    else (if wakes[0].state.Settled? then [] else [wakes[0]]) + UnsettledOf(wakes[1..])
  }

  function SettledOf(wakes: seq<Wake>): seq<Wake> {
    if wakes == [] then []
    else (if wakes[0].state.Settled? then [wakes[0]] else []) + SettledOf(wakes[1..])
  }

  function Newest(wakes: seq<Wake>, n: nat): seq<Wake> {
    if |wakes| <= n then wakes else wakes[|wakes| - n..]
  }

  lemma {:induction false} SettledCountIsLength(wakes: seq<Wake>)
    ensures SettledCount(wakes) == |SettledOf(wakes)|
  {
    if wakes != [] { SettledCountIsLength(wakes[1..]); }
  }

  lemma {:induction false} FewSettledAllKept(wakes: seq<Wake>, settled: nat)
    requires settled <= KEPT_SETTLED
    ensures KeepWakes(wakes, settled) == wakes
  {
    if wakes != [] { FewSettledAllKept(wakes[1..], settled); }
  }

  /** Main result on histories: what a save keeps of the wakes. */
  lemma {:induction false} CompactionKeepsHistory(wakes: seq<Wake>)
    ensures UnsettledOf(KeepWakes(wakes, SettledCount(wakes))) == UnsettledOf(wakes)
    ensures SettledOf(KeepWakes(wakes, SettledCount(wakes))) == Newest(SettledOf(wakes), 32)
  {
    SettledCountIsLength(wakes);
    if wakes != [] && SettledCount(wakes) <= KEPT_SETTLED {
      FewSettledAllKept(wakes, SettledCount(wakes));
    } else if wakes != [] {
      CompactionKeepsHistory(wakes[1..]);
      SettledCountIsLength(wakes[1..]);
    }
  }

  lemma {:induction false} KeptWakesAreWakes(wakes: seq<Wake>, settled: nat)
    ensures forall w :: w in KeepWakes(wakes, settled) ==> w in wakes
    ensures forall w :: w in wakes && !w.state.Settled? ==> w in KeepWakes(wakes, settled)
  {
    if wakes != [] {
      if wakes[0].state.Settled? && settled > KEPT_SETTLED {
        KeptWakesAreWakes(wakes[1..], settled - 1);
      } else {
        KeptWakesAreWakes(wakes[1..], settled);
      }
      assert forall w :: w in wakes <==> w == wakes[0] || w in wakes[1..];
    }
  }

  lemma {:induction false} KeptWakesStayApart(wakes: seq<Wake>, settled: nat)
    requires DistinctWakes(wakes) && SingleActive(wakes)
    ensures DistinctWakes(KeepWakes(wakes, settled)) && SingleActive(KeepWakes(wakes, settled))
  {
    if wakes != [] {
      var rest := wakes[1..];
      if wakes[0].state.Settled? && settled > KEPT_SETTLED {
        KeptWakesStayApart(rest, settled - 1);
      } else {
        KeptWakesStayApart(rest, settled);
        var kept := KeepWakes(rest, settled);
        KeptWakesAreWakes(rest, settled);
        forall j | 0 <= j < |kept|
          ensures kept[j].id != wakes[0].id && (!kept[j].state.Active() || !wakes[0].state.Active())
        {
          assert kept[j] in rest;
        }
      }
    }
  }

  lemma AllowedFailuresCons(w: Wake, rest: seq<Wake>)
    ensures AllowedFailures([w] + rest) ==
              if w.state.Blocked() then FailureBound(w.state) else AllowedFailures(rest)
  {
    assert ([w] + rest)[1..] == rest;
  }

  lemma {:induction false} KeptAllowance(wakes: seq<Wake>, settled: nat)
    ensures AllowedFailures(KeepWakes(wakes, settled)) == AllowedFailures(wakes)
  {
    if wakes != [] {
      assert wakes == [wakes[0]] + wakes[1..];
      AllowedFailuresCons(wakes[0], wakes[1..]);
      if wakes[0].state.Settled? && settled > KEPT_SETTLED {
        KeptAllowance(wakes[1..], settled - 1);
      } else {
        KeptAllowance(wakes[1..], settled);
        AllowedFailuresCons(wakes[0], KeepWakes(wakes[1..], settled));
      }
    }
  }

  /** The newest attempt of a kept wake is found again, and it is the same attempt. */
  lemma {:induction false} KeptLookup(attempts: seq<Attempt>, wakes: seq<Wake>, n: nat, wake: Id)
    requires n <= |attempts| && Find(wakes, wake) < |wakes|
    ensures var kept := KeepAttempts(attempts, wakes, n);
            var k, k' := Latest(attempts, wake), Latest(kept, wake);
            if 0 <= k < n then k' >= 0 && kept[k'] == attempts[k] else k' < 0
  {
    if n > 0 {
      KeptLookup(attempts, wakes, n - 1, wake);
      var a, before := attempts[n - 1], KeepAttempts(attempts, wakes, n - 1);
      if Find(wakes, a.value.wake) < |wakes| && Latest(attempts, a.value.wake) == n - 1 {
        assert KeepAttempts(attempts, wakes, n) == before + [a];
        LatestAppend(before, a, wake);
      } else {
        assert KeepAttempts(attempts, wakes, n) == before + [] == before;
        assert a.value.wake == wake ==> Latest(attempts, wake) >= n;
      }
    }
  }

  lemma {:induction false} KeptAttemptsAreAttempts(attempts: seq<Attempt>, wakes: seq<Wake>, n: nat)
    requires n <= |attempts|
    ensures forall a :: a in KeepAttempts(attempts, wakes, n) ==> a in attempts
  {
    if n > 0 { KeptAttemptsAreAttempts(attempts, wakes, n - 1); }
  }

  /** Where a kept wake stood before. */
  lemma CompactedFrom(d: Doc, j: nat) returns (i: nat)
    requires DocInv(d) && j < |Compact(d).wakes|
    ensures i < |d.wakes| && d.wakes[i] == Compact(d).wakes[j]
    ensures Find(d.wakes, d.wakes[i].id) == i
    ensures var k, k' := Latest(d.attempts, d.wakes[i].id), Latest(Compact(d).attempts, d.wakes[i].id);
            if k < 0 then k' < 0 else k' >= 0 && Compact(d).attempts[k'] == d.attempts[k]
  {
    var d' := Compact(d);
    KeptWakesAreWakes(d.wakes, SettledCount(d.wakes));
    assert d'.wakes[j] in d.wakes;
    i :| 0 <= i < |d.wakes| && d.wakes[i] == d'.wakes[j];
    KeptLookup(d.attempts, d'.wakes, |d.attempts|, d.wakes[i].id);
  }

  lemma CompactKeeps(d: Doc, next: Id)
    requires DocInv(d) && Below(d, next)
    ensures DocInv(Compact(d)) && Below(Compact(d), next)
  {
    var d' := Compact(d);
    KeptWakesStayApart(d.wakes, SettledCount(d.wakes));
    KeptAllowance(d.wakes, SettledCount(d.wakes));
    forall j | 0 <= j < |d'.wakes|
      ensures WakeOk(d'.wakes[j], d'.attempts) && StampOk(d'.wakes[j], d'.endpoint, d'.state.session)
      ensures NO_ID < d'.wakes[j].id < next
    {
      var i := CompactedFrom(d, j);
      assert WakeOk(d.wakes[i], d.attempts) && StampOk(d.wakes[i], d.endpoint, d.state.session);
    }
    KeptAttemptsAreAttempts(d.attempts, d'.wakes, |d.attempts|);
    forall j | 0 <= j < |d'.attempts| ensures d'.attempts[j].value.wake < next && d'.attempts[j].value.id < next {
      assert d'.attempts[j] in d.attempts;
    }
  }
}
