/**
 Expiry is stable under delay, and the lock-free read answers like the write-locked path.
 */
module ContinuationExpiry {
  import opened Wrappers
  import opened ContinuationModel
  import opened ContinuationSpec
  import opened ContinuationInvariant

  function EraseWakes(wakes: seq<Wake>): seq<Wake> {
    seq(|wakes|, i requires 0 <= i < |wakes| => wakes[i].(updatedAt := Never))
  }

  /** A document without its update stamps. */
  function Erase(d: Doc): Doc {
    d.(state := d.state.(updatedAt := Never), wakes := EraseWakes(d.wakes))
  }

  lemma NothingDue(d: Doc, i: nat, now: int)
    requires i <= |d.wakes| && forall j :: i <= j < |d.wakes| ==> !Due(d, j, now)
    ensures ExpireFrom(d, i, now) == d
    decreases |d.wakes| - i
  {
    if i < |d.wakes| { NothingDue(d, i + 1, now); }
  }

  lemma OnlyActiveExpires(d: Doc, i: nat, k: nat, now: int)
    requires i <= k < |d.wakes|
    requires forall j :: 0 <= j < |d.wakes| && j != k ==> !d.wakes[j].state.Active()
    ensures ExpireFrom(d, i, now) == ExpireWake(d, k, now)
    decreases k - i
  {
    if i < k {
      OnlyActiveExpires(d, i + 1, k, now);
    } else {
      NothingDue(ExpireWake(d, k, now), k + 1, now);
    }
  }

  lemma OneActiveTwice(d: Doc, k: nat, t: int, t': int)
    requires k < |d.wakes| && t <= t'
    ensures Erase(ExpireWake(ExpireWake(d, k, t), k, t')) == Erase(ExpireWake(d, k, t'))
  {
    if Due(d, k, t) {
      var d1 := ExpireWake(d, k, t);
      assert !Due(d1, k, t');
      assert EraseWakes(d1.wakes) == EraseWakes(ExpireWake(d, k, t').wakes);
    }
  }

  /** Expiring early and again later is expiring once, later, apart from the update stamps. */
  lemma ExpiryIsStable(d: Doc, t: int, t': int)
    requires DocInv(d) && t <= t'
    ensures Erase(Expire(Expire(d, t), t')) == Erase(Expire(d, t'))
  {
    var k := FirstIn(d.wakes, ActiveKind);
    if k == |d.wakes| {
      NothingDue(d, 0, t);
    } else {
      OnlyActiveExpires(d, 0, k, t);
      OnlyActiveExpires(d, 0, k, t');
      OnlyActiveExpires(ExpireWake(d, k, t), 0, k, t');
      OneActiveTwice(d, k, t, t');
    }
  }

  // ------------------------------------------------------------------ reading

  /** `work_continuation status` checks nothing more; the view's `state` checks who asks. */
  datatype Reader = StatusReader | ViewReader(view: ControllerInput)

  function Refused(d: Doc, reader: Reader, now: int): Option<Code> {
    match reader
    case StatusReader => None
    case ViewReader(view) => Identity(d, view, now, true)
  }

  /** The answer computed under the write lock. */
  function LockedRead(d: Doc, reader: Reader, now: int): Result<Reply, Code> {
    var d1 := Stamped(Expire(d, now), now);
    var refused := Refused(d1, reader, now);
    if refused.Some? then Err(refused.value) else Ok(DocReply(d1))
  }

  /** The polling path: a snapshot first, and the lock, a fresh document and a fresh clock only when something is due. */
  function Read(d: Doc, reader: Reader, now: int, current: Doc, later: int): Result<Reply, Code> {
    var refused := Refused(d, reader, now);
    if refused.Some? then Err(refused.value)
    else if !AnyDueFrom(d, 0, now) then Ok(DocReply(d))
    else LockedRead(current, reader, later)
  }

  function EraseReply(r: Result<Reply, Code>): Result<Reply, Code> {
    match r
    case Ok(reply) => Ok(reply.(state := reply.state.(updatedAt := Never)))
    case Err(code) => Err(code)
  }

  lemma {:induction false} QuietExpiry(d: Doc, i: nat, now: int)
    requires i <= |d.wakes| && !AnyDueFrom(d, i, now)
    ensures ExpireFrom(d, i, now) == d
    decreases |d.wakes| - i
  {
    if i < |d.wakes| { QuietExpiry(d, i + 1, now); }
  }

  lemma {:induction false} ExpiryKeepsIdentity(d: Doc, i: nat, now: int)
    requires i <= |d.wakes|
    ensures ExpireFrom(d, i, now).endpoint == d.endpoint && ExpireFrom(d, i, now).bindingHash == d.bindingHash
    decreases |d.wakes| - i
  {
    if i < |d.wakes| { ExpiryKeepsIdentity(ExpireWake(d, i, now), i + 1, now); }
  }

  /**
   Main result on reading: the polling answer is the locked answer of the same instant, unless it waited for the lock; then it is
   the locked answer of the later instant.
   */
  lemma ReadRefinesLocked(d: Doc, reader: Reader, now: int, current: Doc, later: int)
    ensures EraseReply(Read(d, reader, now, current, later)) ==
              if Refused(d, reader, now).None? && AnyDueFrom(d, 0, now)
              then EraseReply(LockedRead(current, reader, later))
              else EraseReply(LockedRead(d, reader, now))
  {
    ReaderSeesSame(d, reader, now);
    if !AnyDueFrom(d, 0, now) {
      QuietExpiry(d, 0, now);
      StampOnlyShows(d, now);
    }
  }

  /** Expiry and the time stamp do not change who may read. */
  lemma ReaderSeesSame(d: Doc, reader: Reader, now: int)
    ensures Refused(Stamped(Expire(d, now), now), reader, now) == Refused(d, reader, now)
  {
    ExpiryKeepsIdentity(d, 0, now);
  }

  lemma StampOnlyShows(d: Doc, now: int)
    ensures EraseReply(Ok(DocReply(Stamped(d, now)))) == EraseReply(Ok(DocReply(d)))
  {
  }
}
