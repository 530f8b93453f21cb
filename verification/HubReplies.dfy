/**
 Replies to calls over a node's connection. Each call waits on a channel with one slot, kept in the connection's pending table
 until a reply, a close or the caller takes it out. Taking a channel out and sending on it are separate steps.
 */
module HubReplies {
  type ConnId = nat
  /** A request and its own reply channel. */
  type Req = nat

  datatype Line = Line(pending: set<Req>, closed: bool)

  /**
   inflight: channels that were taken out of a table and are about to be sent on. sends: how often each channel was sent on.
   waiting: calls that have not returned, with their connection.
   */
  datatype Replies = Replies(lines: map<ConnId, Line>, inflight: set<Req>, sends: map<Req, nat>, waiting: map<Req, ConnId>)

  const Quiet := Replies(map[], {}, map[], map[])

  datatype Step =
    | Open(c: ConnId)
    | AddPending(c: ConnId, r: Req)
    | Resolve(c: ConnId, r: Req)
    | Send(r: Req)
    | Return(r: Req)
    | Close(c: ConnId)

  function CloseLine(s: Replies, c: ConnId): Replies {
    if c in s.lines && !s.lines[c].closed then
      s.(lines := s.lines[c := Line({}, true)], inflight := s.inflight + s.lines[c].pending)
    else s
  }

  function Next(s: Replies, step: Step): Replies {
    match step
    case Open(c) => if c in s.lines then s else s.(lines := s.lines[c := Line({}, false)])
    case AddPending(c, r) =>
      if r in s.sends || c !in s.lines || s.lines[c].closed then s
      else s.(lines := s.lines[c := s.lines[c].(pending := s.lines[c].pending + {r})],
              sends := s.sends[r := 0], waiting := s.waiting[r := c])
    case Resolve(c, r) =>
      if c in s.lines && r in s.lines[c].pending then
        s.(lines := s.lines[c := s.lines[c].(pending := s.lines[c].pending - {r})], inflight := s.inflight + {r})
      else s
    case Send(r) =>
      if r in s.inflight && r in s.sends then s.(inflight := s.inflight - {r}, sends := s.sends[r := s.sends[r] + 1]) else s
    case Return(r) =>
      if r !in s.waiting then s
      else
        var c := s.waiting[r];
        s.(waiting := s.waiting - {r},
           lines := if c in s.lines then s.lines[c := s.lines[c].(pending := s.lines[c].pending - {r})] else s.lines)
    case Close(c) => CloseLine(s, c)
  }

  // ------------------------------------------------------------------ invariant

  /** Nothing is pending on a closed connection; a pending channel is its caller's and was never taken or sent on. */
  predicate LineOk(s: Replies, c: ConnId) {
    c in s.lines ==>
      (s.lines[c].closed ==> s.lines[c].pending == {}) &&
      forall r :: r in s.lines[c].pending ==> PendingOk(s, c, r)
  }

  predicate PendingOk(s: Replies, c: ConnId, r: Req) {
    r in s.sends && s.sends[r] == 0 && r !in s.inflight && r in s.waiting && s.waiting[r] == c
  }

  predicate InflightOk(s: Replies, r: Req) { r in s.inflight ==> r in s.sends && s.sends[r] == 0 }

  predicate SendsOk(s: Replies, r: Req) { r in s.sends ==> s.sends[r] <= 1 }

  /** A waiting call is still pending, or its reply is on the way, or in the channel. */
  predicate WaitingOk(s: Replies, r: Req) {
    r in s.waiting ==>
      r in s.sends && s.waiting[r] in s.lines &&
      (r in s.lines[s.waiting[r]].pending || r in s.inflight || s.sends[r] == 1)
  }

  ghost predicate Inv(s: Replies) {
    (forall c :: LineOk(s, c)) && (forall r :: InflightOk(s, r)) && (forall r :: SendsOk(s, r)) && forall r :: WaitingOk(s, r)
  }

  lemma CloseKeeps(s: Replies, c: ConnId)
    requires Inv(s)
    ensures Inv(CloseLine(s, c))
  {
    var t := CloseLine(s, c);
    assert LineOk(s, c);
    forall d ensures LineOk(t, d) {
      assert LineOk(s, d);
      if d in t.lines && d != c { forall r | r in t.lines[d].pending ensures PendingOk(t, d, r) { assert PendingOk(s, d, r); } }
    }
    forall r ensures InflightOk(t, r) && SendsOk(t, r) && WaitingOk(t, r) {
      assert InflightOk(s, r) && SendsOk(s, r) && WaitingOk(s, r);
    }
  }

  lemma AddKeeps(s: Replies, c: ConnId, r: Req)
    requires Inv(s)
    ensures Inv(Next(s, AddPending(c, r)))
  {
    var t := Next(s, AddPending(c, r));
    if t != s {
      assert InflightOk(s, r);
      forall d ensures LineOk(t, d) {
        assert LineOk(s, d);
        if d in t.lines {
          forall q | q in t.lines[d].pending ensures PendingOk(t, d, q) {
            assert q in s.lines[d].pending ==> PendingOk(s, d, q);
          }
        }
      }
      forall q ensures InflightOk(t, q) && SendsOk(t, q) && WaitingOk(t, q) {
        assert InflightOk(s, q) && SendsOk(s, q) && WaitingOk(s, q);
      }
    }
  }

  lemma ResolveKeeps(s: Replies, c: ConnId, r: Req)
    requires Inv(s)
    ensures Inv(Next(s, Resolve(c, r)))
  {
    var t := Next(s, Resolve(c, r));
    if t != s {
      assert LineOk(s, c) && PendingOk(s, c, r);
      forall d ensures LineOk(t, d) {
        assert LineOk(s, d);
        if d in t.lines { forall q | q in t.lines[d].pending ensures PendingOk(t, d, q) { assert PendingOk(s, d, q); } }
      }
      forall q ensures InflightOk(t, q) && SendsOk(t, q) && WaitingOk(t, q) {
        assert InflightOk(s, q) && SendsOk(s, q) && WaitingOk(s, q);
      }
    }
  }

  lemma SendKeeps(s: Replies, r: Req)
    requires Inv(s)
    ensures Inv(Next(s, Send(r)))
  {
    var t := Next(s, Send(r));
    assert InflightOk(s, r);
    forall d ensures LineOk(t, d) {
      assert LineOk(s, d);
      if d in t.lines { forall q | q in t.lines[d].pending ensures PendingOk(t, d, q) { assert PendingOk(s, d, q); } }
    }
    forall q ensures InflightOk(t, q) && SendsOk(t, q) && WaitingOk(t, q) {
      assert InflightOk(s, q) && SendsOk(s, q) && WaitingOk(s, q);
    }
  }

  lemma ReturnKeeps(s: Replies, r: Req)
    requires Inv(s)
    ensures Inv(Next(s, Return(r)))
  {
    var t := Next(s, Return(r));
    forall d ensures LineOk(t, d) {
      assert LineOk(s, d);
      if d in t.lines { forall q | q in t.lines[d].pending ensures PendingOk(t, d, q) { assert PendingOk(s, d, q); } }
    }
    forall q ensures InflightOk(t, q) && SendsOk(t, q) && WaitingOk(t, q) {
      assert InflightOk(s, q) && SendsOk(s, q) && WaitingOk(s, q);
    }
  }

  lemma NextKeeps(s: Replies, step: Step)
    requires Inv(s)
    ensures Inv(Next(s, step))
  {
    match step
    case Open(c) =>
      var t := Next(s, step);
      forall d ensures LineOk(t, d) {
        assert LineOk(s, d);
        if d in s.lines { forall q | q in t.lines[d].pending ensures PendingOk(t, d, q) { assert PendingOk(s, d, q); } }
      }
      forall q ensures InflightOk(t, q) && SendsOk(t, q) && WaitingOk(t, q) {
        assert InflightOk(s, q) && SendsOk(s, q) && WaitingOk(s, q);
      }
    case AddPending(c, r) => AddKeeps(s, c, r);
    case Resolve(c, r) => ResolveKeeps(s, c, r);
    case Send(r) => SendKeeps(s, r);
    case Return(r) => ReturnKeeps(s, r);
    case Close(c) => CloseKeeps(s, c);
  }
}
