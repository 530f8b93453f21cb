/** The objects behind the hub's steps: each method is one critical section under the object's own mutex. */
module HubObjects {
  import opened Wrappers
  import P = HubReplies
  import R = HubRegistry

  class NodeConnection {
    var pending: set<P.Req>
    var closed: bool

    function Line(): P.Line
      reads this
    {
      P.Line(pending, closed)
    }

    constructor ()
      ensures Line() == P.Line({}, false)
    {
      pending, closed := {}, false;
    }

    /** Refused on a closed connection; s is the rest of the world, in which r is a new channel. */
    method AddPending(r: P.Req, ghost s: P.Replies, ghost c: P.ConnId) returns (ok: bool)
      requires c in s.lines && s.lines[c] == Line() && r !in s.sends
      modifies this
      ensures ok <==> !old(closed)
      ensures Line() == old(Line()).(pending := if ok then old(pending) + {r} else old(pending))
      ensures P.Next(s, P.AddPending(c, r)) ==
        if ok then s.(lines := s.lines[c := Line()], sends := s.sends[r := 0], waiting := s.waiting[r := c]) else s
    {
      if closed { return false; }
      pending := pending + {r};
      return true;
    }

    method RemovePending(r: P.Req, ghost s: P.Replies, ghost c: P.ConnId)
      requires c in s.lines && s.lines[c] == Line() && r in s.waiting && s.waiting[r] == c
      modifies this
      ensures Line() == old(Line()).(pending := old(pending) - {r})
      ensures P.Next(s, P.Return(r)) == s.(lines := s.lines[c := Line()], waiting := s.waiting - {r})
    {
      pending := pending - {r};
    }

    /** Takes the channel out; the send itself happens after the mutex is released. */
    method Resolve(r: P.Req, ghost s: P.Replies, ghost c: P.ConnId) returns (channel: Option<P.Req>)
      requires c in s.lines && s.lines[c] == Line()
      modifies this
      ensures channel == (if r in old(pending) then Some(r) else None) && r !in pending
      ensures P.Next(s, P.Resolve(c, r)) ==
        if channel.Some? then s.(lines := s.lines[c := Line()], inflight := s.inflight + {r}) else s
    {
      channel := if r in pending then Some(r) else None;
      pending := pending - {r};
    }

    /** The first close takes every pending channel; later ones take nothing. */
    method Close(ghost s: P.Replies, ghost c: P.ConnId) returns (channels: set<P.Req>)
      requires c in s.lines && s.lines[c] == Line() && (closed ==> pending == {})
      modifies this
      ensures closed && pending == {}
      ensures channels == old(pending)
      ensures P.Next(s, P.Close(c)) == s.(lines := s.lines[c := Line()], inflight := s.inflight + channels)
    {
      channels := {};
      if !closed {
        channels := pending;
        closed := true;
        pending := {};
      } else {
        assert s.lines[c := Line()] == s.lines;
      }
    }
  }

  class Hub {
    var nodes: map<R.NodeId, R.ConnId>

    constructor ()
      ensures nodes == map[]
    {
      nodes := map[];
    }

    /** A confirmed handshake replaces the registered connection, which the caller closes next. */
    method Register(n: R.NodeId, c: R.ConnId, ghost g: R.Registry) returns (previous: Option<R.ConnId>)
      requires nodes == g.nodes && n in g.locks && g.locks[n].Ready? && g.locks[n].c == c && c in g.conns
      modifies this
      ensures R.Next(g, R.Swap(n)).nodes == nodes
      ensures R.Next(g, R.Swap(n)).locks == g.locks[n := R.Swapped(c, g.locks[n].admitted, previous)]
    {
      previous := if n in nodes then Some(nodes[n]) else None;
      nodes := nodes[n := c];
    }

    /** An explicit disconnect unregisters whatever connection the node has. */
    method Unregister(n: R.NodeId, ghost g: R.Registry) returns (victim: Option<R.ConnId>)
      requires nodes == g.nodes && n in g.locks && g.locks[n].Dropping?
      modifies this
      ensures R.Next(g, R.Drop(n)) == R.SetSection(R.Unregister(g, n), n, R.Clearing(victim))
      ensures R.Unregister(g, n).nodes == nodes
    {
      victim := if n in nodes then Some(nodes[n]) else None;
      nodes := nodes - {n};
    }

    /** A read loop unregisters its node only while its own connection is the registered one. */
    method UnregisterOwn(n: R.NodeId, c: R.ConnId, ghost g: R.Registry) returns (removed: bool)
      requires nodes == g.nodes && n in g.locks && g.locks[n] == R.Leaving(c)
      modifies this
      ensures R.Next(g, R.RemoveOwn(n)) == R.SetSection(if removed then R.Unregister(g, n) else g, n, R.Left(c, removed))
      ensures R.Next(g, R.RemoveOwn(n)).nodes == nodes
    {
      removed := n in nodes && nodes[n] == c;
      if removed { nodes := nodes - {n}; }
    }
  }
}
