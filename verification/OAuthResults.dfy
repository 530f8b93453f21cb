/**
 What the token families guarantee over every run: single use, revocation of a replayed family, one usable pair, a fixed
 deadline, pruning that nobody can observe, and a bounded client table.
 */
module OAuthResults {
  import opened Names
  import opened Wrappers
  import opened OAuthModel
  import opened OAuthFamilies

  ghost function Reached(setup: Setup, rs: seq<Timed>): System { Run(setup, Start, rs) }

  lemma ReachedInv(setup: Setup, rs: seq<Timed>)
    ensures Inv(Reached(setup, rs))
  {
    RunKeeps(setup, Start, rs);
  }

  /** The log is complete: a request that hands out tokens adds exactly one entry with those tokens. */
  lemma IssueIsLogged(setup: Setup, y: System, r: Timed)
    ensures var reply := Handle(setup, y.store, Later(y, r), r.request).1;
      var added := Issue(setup, y.store, Later(y, r), r.request);
      if reply.TokensIssued? then |added| == 1 && added[0].access == reply.tokens.access && added[0].refresh == reply.tokens.refresh
      else added == []
  {
  }

  /** Main result: over every run, a code yields at most one grant and a refresh token rotates at most once. */
  lemma SingleUse(setup: Setup, rs: seq<Timed>, i: nat, j: nat)
    requires i < j < |Reached(setup, rs).log|
    ensures !SameSource(Reached(setup, rs).log[i].source, Reached(setup, rs).log[j].source)
  {
    ReachedInv(setup, rs);
  }

  // ------------------------------------------------------------------ revoked families

  /** Revoked or deleted; the number is never given to another grant. */
  predicate Dead(s: Store, grant: Id) { grant < s.next && (grant in s.grants ==> !s.grants[grant].Live()) }

  lemma QuietStaysDead(s: Store, t: Store, now: int, grant: Id)
    requires Quiet(s, t, now) && Dead(s, grant)
    ensures Dead(t, grant)
  {
  }

  lemma ExchangeStaysDead(setup: Setup, s: Store, now: int, r: Request, grant: Id)
    requires Dead(s, grant) && r.Exchange?
    ensures Dead(Handle(setup, s, now, r).0, grant)
    ensures forall e :: e in Issue(setup, s, now, r) ==> e.grant != grant
  {
  }

  lemma RefreshStaysDead(setup: Setup, s: Store, now: int, r: Request, grant: Id)
    requires Dead(s, grant) && r.Refresh?
    ensures Dead(Handle(setup, s, now, r).0, grant)
    ensures forall e :: e in Issue(setup, s, now, r) ==> e.grant != grant
  {
  }

  lemma StepStaysDead(setup: Setup, y: System, r: Timed, grant: Id)
    requires Inv(y) && Dead(y.store, grant)
    ensures Dead(Step(setup, y, r).store, grant)
    ensures forall e :: e in Issue(setup, y.store, Later(y, r), r.request) ==> e.grant != grant
  {
    if r.request.Exchange? {
      ExchangeStaysDead(setup, y.store, Later(y, r), r.request, grant);
    } else if r.request.Refresh? {
      RefreshStaysDead(setup, y.store, Later(y, r), r.request, grant);
    } else {
      RequestQuiet(setup, y.store, y.clock, Later(y, r), r.request);
      QuietStaysDead(y.store, Step(setup, y, r).store, Later(y, r), grant);
    }
  }

  lemma {:induction false} RunStaysDead(setup: Setup, y: System, rs: seq<Timed>, grant: Id)
    requires Inv(y) && Dead(y.store, grant)
    ensures var z := Run(setup, y, rs);
      Inv(z) && Dead(z.store, grant) && y.log <= z.log && forall i :: |y.log| <= i < |z.log| ==> z.log[i].grant != grant
    decreases |rs|
  {
    if rs != [] {
      var before := rs[..|rs| - 1];
      RunStaysDead(setup, y, before, grant);
      var z := Run(setup, y, before);
      StepStaysDead(setup, z, rs[|rs| - 1], grant);
      StepKeeps(setup, z, rs[|rs| - 1]);
    }
  }

  /** Only the pair issued last for a grant is usable. */
  lemma OnePair(setup: Setup, y: System, now: int, token: Id, resource: string)
    requires Inv(y)
    ensures Authenticate(setup, y.store, now, token, resource).Some? ==>
      var a := Authenticate(setup, y.store, now, token, resource).value;
      Last(y.log, a.grant).Some? && Last(y.log, a.grant).value.access == token
    ensures forall client :: Handle(setup, y.store, now, Refresh(client, token, resource)).1.TokensIssued? ==>
      FindRefresh(y.store.grants, Digest(token)).Some? && Last(y.log, FindRefresh(y.store.grants, Digest(token)).value).Some? &&
      Last(y.log, FindRefresh(y.store.grants, Digest(token)).value).value.refresh == token
  {
    var a, f := FindAccess(y.store.users, y.store.grants, Digest(token)), FindRefresh(y.store.grants, Digest(token));
    if a.Some? { assert Holds(y.log, a.value, y.store.grants[a.value]); }
    if f.Some? { assert Holds(y.log, f.value, y.store.grants[f.value]); }
  }

  ghost predicate Refreshes(setup: Setup, s: Store, now: int, client: Id, token: Id, resource: string) {
    Handle(setup, s, now, Refresh(client, token, resource)).1.TokensIssued?
  }

  /** Main result: at most one access token and one refresh token of a grant are usable at a time. */
  lemma AtMostOneUsable(setup: Setup, rs: seq<Timed>, now: int, one: Id, other: Id, left: string, right: string)
    ensures var s := Reached(setup, rs).store;
      var (a, b) := (Authenticate(setup, s, now, one, left), Authenticate(setup, s, now, other, right));
      a.Some? && b.Some? && a.value.grant == b.value.grant ==> one == other
    ensures var s := Reached(setup, rs).store;
      forall c, d :: Refreshes(setup, s, now, c, one, left) && Refreshes(setup, s, now, d, other, right) ==>
        FindRefresh(s.grants, Digest(one)) == FindRefresh(s.grants, Digest(other)) ==> one == other
  {
    ReachedInv(setup, rs);
    OnePair(setup, Reached(setup, rs), now, one, left);
    OnePair(setup, Reached(setup, rs), now, other, right);
  }

  /** Tokens that were issued for a dead grant neither authenticate nor refresh. */
  lemma DeadTokens(setup: Setup, z: System, i: nat, now: int, client: Id, resource: string)
    requires Inv(z) && i < |z.log| && Dead(z.store, z.log[i].grant)
    ensures Authenticate(setup, z.store, now, z.log[i].access, resource).None?
    ensures Handle(setup, z.store, now, Refresh(client, z.log[i].refresh, resource)).1 == Refused
  {
    var (s, e) := (z.store, z.log[i]);
    var a, f := FindAccess(s.users, s.grants, Digest(e.access)), FindRefresh(s.grants, Digest(e.refresh));
    if a.Some? {
      assert Holds(z.log, a.value, s.grants[a.value]);
      var j := LastIn(z.log, a.value);
      SameEvent(z.log, s.next, i, j);
    }
    if f.Some? {
      assert Holds(z.log, f.value, s.grants[f.value]);
      var j := LastIn(z.log, f.value);
      SameEvent(z.log, s.next, i, j);
    }
  }

  lemma SameEvent(log: seq<Event>, next: Id, i: nat, j: nat)
    requires Growing(log, next) && i < |log| && j < |log|
    ensures log[i].access == log[j].access || log[i].refresh == log[j].refresh ==> i == j
  {
    assert Recorded(next, log[i]) && Recorded(next, log[j]);
    if i < j { } else if j < i { }
  }

  /** A replayed code that passes every check revokes the grant it was exchanged for. */
  lemma CodeReplayKills(setup: Setup, y: System, r: Timed, i: nat)
    requires Inv(y) && i < |y.log| && y.log[i].source.FromCode? && r.request.Exchange? && r.request.code == y.log[i].source.code
    requires Digest(r.request.code) in y.store.codes && ValidPkce(r.request.verifier)
    requires Matches(setup, y.store.codes[Digest(r.request.code)], Later(y, r), r.request.client, r.request.redirect,
                     r.request.verifier, r.request.resource)
    ensures Handle(setup, y.store, Later(y, r), r.request).1 == Refused
    ensures Dead(Step(setup, y, r).store, y.log[i].grant)
  {
    assert Spent(y.store, y.clock, y.log[i]) && Recorded(y.store.next, y.log[i]);
  }

  /** A rotated refresh token, presented before its deadline by the right client for the right resource, revokes its grant. */
  lemma RefreshReplayKills(setup: Setup, y: System, r: Timed, i: nat)
    requires Inv(y) && i < |y.log| && y.log[i].source.FromRefresh? && r.request.Refresh? && r.request.token == y.log[i].source.token
    requires Later(y, r) < y.log[i].source.deadline
    requires y.log[i].grant in y.store.grants ==>
      y.store.grants[y.log[i].grant].client == r.request.client &&
      setup.SameResource(y.store.grants[y.log[i].grant].resource, r.request.resource)
    ensures Handle(setup, y.store, Later(y, r), r.request).1 == Refused
    ensures Dead(Step(setup, y, r).store, y.log[i].grant)
  {
    assert Spent(y.store, y.clock, y.log[i]) && Recorded(y.store.next, y.log[i]);
    var h := Digest(r.request.token);
    var f := FindRefresh(y.store.grants, h);
    assert f.None?;
    if h in y.store.history { assert PastRow(y.store, h, y.store.history[h]); }
  }

  /**
   Main result: after a matching replay of a used code or of a rotated refresh token, whatever requests follow, no token of
   that grant authenticates or refreshes, and no further pair is issued for it.
   */
  lemma ReplayedFamilyIsDead(
    setup: Setup, rs: seq<Timed>, r: Timed, later: seq<Timed>, i: nat, k: nat, now: int, client: Id, resource: string)
    requires var y := Reached(setup, rs);
      i < |y.log| && Replays(setup, y, r, i)
    requires var z := Run(setup, Step(setup, Reached(setup, rs), r), later);
      k < |z.log| && z.log[k].grant == Reached(setup, rs).log[i].grant
    ensures var z := Run(setup, Step(setup, Reached(setup, rs), r), later);
      k < |Reached(setup, rs).log| &&
      Authenticate(setup, z.store, now, z.log[k].access, resource).None? &&
      Handle(setup, z.store, now, Refresh(client, z.log[k].refresh, resource)).1 == Refused
  {
    ReachedInv(setup, rs);
    var y := Reached(setup, rs);
    if y.log[i].source.FromCode? { CodeReplayKills(setup, y, r, i); } else { RefreshReplayKills(setup, y, r, i); }
    IssueIsLogged(setup, y, r);
    StepKeeps(setup, y, r);
    assert Step(setup, y, r).log == y.log;
    RunStaysDead(setup, Step(setup, y, r), later, y.log[i].grant);
    DeadTokens(setup, Run(setup, Step(setup, y, r), later), k, now, client, resource);
  }

  /** r presents the source of log entry i again, with everything that request checks. */
  predicate Replays(setup: Setup, y: System, r: Timed, i: nat)
    requires i < |y.log|
  {
    match y.log[i].source
    case FromCode(code, _) =>
      r.request.Exchange? && r.request.code == code && Digest(code) in y.store.codes && ValidPkce(r.request.verifier) &&
      Matches(setup, y.store.codes[Digest(code)], Later(y, r), r.request.client, r.request.redirect, r.request.verifier,
              r.request.resource)
    case FromRefresh(token, deadline) =>
      r.request.Refresh? && r.request.token == token && Later(y, r) < deadline &&
      (y.log[i].grant in y.store.grants ==>
        y.store.grants[y.log[i].grant].client == r.request.client &&
        setup.SameResource(y.store.grants[y.log[i].grant].resource, r.request.resource))
  }

  // ------------------------------------------------------------------ the deadline of a family

  predicate Roots(log: seq<Event>, i: nat, j: nat) {
    i <= j < |log| && log[i].source.FromCode? && log[i].grant == log[j].grant
  }

  ghost predicate Rooted(log: seq<Event>, j: nat) { exists i: nat :: Roots(log, i, j) }

  /** Every issue belongs to a family that began with a code, and comes before the deadline set then. */
  ghost predicate Timely(log: seq<Event>) {
    (forall j :: 0 <= j < |log| ==> Rooted(log, j)) &&
    forall i, j :: 0 <= i < |log| && 0 <= j < |log| && Roots(log, i, j) ==> log[j].at < log[i].at + REFRESH_TTL
  }

  lemma TimelyAppend(log: seq<Event>, e: Event)
    requires Timely(log)
    requires e.source.FromCode? ==> forall i :: 0 <= i < |log| ==> log[i].grant != e.grant
    requires !e.source.FromCode? ==> exists j :: 0 <= j < |log| && log[j].grant == e.grant
    requires forall i :: 0 <= i < |log| && log[i].source.FromCode? && log[i].grant == e.grant ==> e.at < log[i].at + REFRESH_TTL
    ensures Timely(log + [e])
  {
    var (all, n) := (log + [e], |log|);
    forall j | 0 <= j < |all| ensures Rooted(all, j) {
      if j < n {
        assert Rooted(log, j);
        var i: nat :| Roots(log, i, j);
        assert Roots(all, i, j);
      } else if e.source.FromCode? {
        assert Roots(all, n, n);
      } else {
        var k :| 0 <= k < n && log[k].grant == e.grant;
        assert Rooted(log, k);
        var i: nat :| Roots(log, i, k);
        assert Roots(all, i, j);
      }
    }
    forall i, j | 0 <= i < |all| && 0 <= j < |all| && Roots(all, i, j) ensures all[j].at < all[i].at + REFRESH_TTL {
      if j < n { assert Roots(log, i, j); }
    }
  }

  lemma StepTimely(setup: Setup, y: System, r: Timed)
    requires Inv(y) && Timely(y.log)
    ensures Timely(Step(setup, y, r).log)
  {
    IssueIsLogged(setup, y, r);
    var (s, added) := (y.store, Issue(setup, y.store, Later(y, r), r.request));
    if added == [] {
      assert y.log + [] == y.log;
    } else {
      var e := added[0];
      assert added == [e];
      if e.source.FromCode? {
        forall i | 0 <= i < |y.log| ensures y.log[i].grant != e.grant { assert Recorded(s.next, y.log[i]); }
      } else {
        assert Holds(y.log, e.grant, s.grants[e.grant]) && GrantRow(s, e.grant, s.grants[e.grant], y.clock);
        var k := LastIn(y.log, e.grant);
        forall i | 0 <= i < |y.log| && y.log[i].source.FromCode? && y.log[i].grant == e.grant
          ensures e.at < y.log[i].at + REFRESH_TTL
        {
          assert Spent(s, y.clock, y.log[i]);
        }
      }
      TimelyAppend(y.log, e);
    }
  }

  lemma {:induction false} RunTimely(setup: Setup, rs: seq<Timed>)
    ensures Timely(Reached(setup, rs).log)
    decreases |rs|
  {
    if rs != [] {
      var before := rs[..|rs| - 1];
      RunTimely(setup, before);
      ReachedInv(setup, before);
      StepTimely(setup, Reached(setup, before), rs[|rs| - 1]);
    }
  }

  /**
   Main result: every family began with a code exchange; rotation never moves its refresh deadline, so that nothing is issued
   for it from 90 days after that exchange on, and nothing authenticates from 90 days and one hour after it on.
   */
  lemma FamilyDeadline(setup: Setup, rs: seq<Timed>, i: nat, token: Id, resource: string, now: int)
    requires var y := Reached(setup, rs); i < |y.log| && y.log[i].source.FromCode?
    ensures var y := Reached(setup, rs);
      forall j :: i <= j < |y.log| && y.log[j].grant == y.log[i].grant ==> y.log[j].at < y.log[i].at + REFRESH_TTL
    ensures var (y, a) := (Reached(setup, rs), Authenticate(setup, Reached(setup, rs).store, now, token, resource));
      a.Some? && a.value.grant == y.log[i].grant ==> now < y.log[i].at + REFRESH_TTL + ACCESS_TTL
  {
    RunTimely(setup, rs);
    ReachedInv(setup, rs);
    var y := Reached(setup, rs);
    forall j | i <= j < |y.log| && y.log[j].grant == y.log[i].grant ensures y.log[j].at < y.log[i].at + REFRESH_TTL {
      assert Roots(y.log, i, j);
    }
    var a := Authenticate(setup, y.store, now, token, resource);
    if a.Some? && a.value.grant == y.log[i].grant {
      assert GrantRow(y.store, a.value.grant, y.store.grants[a.value.grant], y.clock);
      assert Spent(y.store, y.clock, y.log[i]);
    }
  }

  lemma RotationFixes(setup: Setup, s: Store, now: int, r: Request, grant: Id)
    requires r.Refresh? && grant in s.grants
    ensures grant in Handle(setup, s, now, r).0.grants && SameFamily(s.grants[grant], Handle(setup, s, now, r).0.grants[grant])
  {
  }

  predicate SameFamily(g: Grant, k: Grant) {
    k.refreshExpires == g.refreshExpires && k.created == g.created && k.client == g.client && k.user == g.user &&
    k.resource == g.resource && k.scope == g.scope
  }

  /** No request moves the deadline of a stored grant, or gives it to another client, user, resource or scope. */
  lemma DeadlineFixed(setup: Setup, y: System, r: Timed, grant: Id)
    requires Inv(y) && grant in y.store.grants && grant in Step(setup, y, r).store.grants
    ensures SameFamily(y.store.grants[grant], Step(setup, y, r).store.grants[grant])
  {
    assert GrantRow(y.store, grant, y.store.grants[grant], y.clock);
    if IssuesNothing(r.request) {
      RequestQuiet(setup, y.store, y.clock, Later(y, r), r.request);
      assert SameTokens(y.store.grants[grant], Step(setup, y, r).store.grants[grant]);
    } else if r.request.Refresh? {
      RotationFixes(setup, y.store, Later(y, r), r.request, grant);
    }
  }

  // ------------------------------------------------------------------ pruning nobody can observe

  predicate FewerCodes(s: Store, p: Store, clock: int) {
    (forall h :: h in p.codes ==> h in s.codes && p.codes[h] == s.codes[h]) &&
    forall h :: h in s.codes && h !in p.codes ==> s.codes[h].expires <= clock
  }

  predicate FewerPasts(s: Store, p: Store, clock: int) {
    (forall h :: h in p.history ==> h in s.history && p.history[h] == s.history[h]) &&
    forall h :: h in s.history && h !in p.history ==> s.history[h].expires <= clock
  }

  /** p is s without some codes and rotated tokens that have expired. */
  predicate Pruned(s: Store, p: Store, clock: int) {
    p == s.(codes := p.codes, history := p.history) && FewerCodes(s, p, clock) && FewerPasts(s, p, clock)
  }

  lemma DropSame(s: Store, p: Store, now: int, gone: set<Id>)
    requires Pruned(s, p, now)
    ensures Pruned(DropClients(s, gone), DropClients(p, gone), now)
  {
    assert DropClients(s, gone).grants == DropClients(p, gone).grants;
  }

  lemma SpentSame(s: Store, p: Store, now: int)
    requires Pruned(s, p, now)
    ensures PruneSpent(s, now) == PruneSpent(p, now)
  {
    var (u, v) := (PruneSpent(s, now), PruneSpent(p, now));
    assert u.codes.Keys == v.codes.Keys;
    assert u.history.Keys == v.history.Keys;
  }

  lemma PruneSame(s: Store, p: Store, now: int)
    requires Pruned(s, p, now)
    ensures Prune(s, now) == Prune(p, now)
  {
    assert Idle(s, now) == Idle(p, now);
    DropSame(s, p, now, Idle(s, now));
    SpentSame(DropClients(s, Idle(s, now)), DropClients(p, Idle(s, now)), now);
  }

  lemma ExchangeSame(setup: Setup, s: Store, p: Store, now: int, r: Request)
    requires Pruned(s, p, now) && r.Exchange?
    ensures var (a, b) := (Handle(setup, s, now, r), Handle(setup, p, now, r)); a.1 == b.1 && Pruned(a.0, b.0, now)
    ensures Issue(setup, s, now, r) == Issue(setup, p, now, r)
  {
  }

  lemma RevokeSame(s: Store, p: Store, id: Id, now: int)
    requires Pruned(s, p, now)
    ensures Pruned(Revoke(s, id, now), Revoke(p, id, now), now)
  {
  }

  lemma RotateSame(s: Store, p: Store, id: Id, client: Id, now: int)
    requires Pruned(s, p, now) && id in s.grants
    ensures Rotate(s, now, id, client).1 == Rotate(p, now, id, client).1
    ensures Pruned(Rotate(s, now, id, client).0, Rotate(p, now, id, client).0, now)
  {
  }

  lemma RefreshSame(setup: Setup, s: Store, p: Store, now: int, r: Request)
    requires Pruned(s, p, now) && Separate(s) && r.Refresh?
    ensures var (a, b) := (Handle(setup, s, now, r), Handle(setup, p, now, r)); a.1 == b.1 && Pruned(a.0, b.0, now)
    ensures Issue(setup, s, now, r) == Issue(setup, p, now, r)
  {
    var h := Digest(r.token);
    match FindRefresh(s.grants, h)
    case None => if h in s.history { RevokeSame(s, p, s.history[h].grant, now); }
    case Some(id) => RotateSame(s, p, id, r.client, now);
  }

  lemma DropUserSame(s: Store, p: Store, now: int, user: Id)
    requires Pruned(s, p, now)
    ensures Pruned(DropUser(s, user), DropUser(p, user), now)
  {
    assert DropUser(s, user).grants == DropUser(p, user).grants;
  }

  lemma IssueSame(setup: Setup, s: Store, p: Store, now: int, r: Request)
    requires Pruned(s, p, now) && r.Authorize?
    ensures Pruned(Handle(setup, s, now, r).0, Handle(setup, p, now, r).0, now)
  {
  }

  lemma QuietSame(setup: Setup, s: Store, p: Store, now: int, r: Request)
    requires Pruned(s, p, now) && IssuesNothing(r) && !r.Register?
    ensures var (a, b) := (Handle(setup, s, now, r).0, Handle(setup, p, now, r).0); Pruned(a, b, now)
  {
    if r.Authorize? {
      IssueSame(setup, s, p, now, r);
    } else if r.SetUser? && r.status.None? {
      DropUserSame(s, p, now, r.user);
    }
  }

  lemma QuietReply(setup: Setup, s: Store, p: Store, now: int, r: Request)
    requires Pruned(s, p, now) && IssuesNothing(r) && !r.Register?
    ensures Handle(setup, s, now, r).1 == Handle(setup, p, now, r).1
  {
  }

  lemma RequestSame(setup: Setup, s: Store, p: Store, now: int, r: Request)
    requires Pruned(s, p, now) && Separate(s)
    ensures var (a, b) := (Handle(setup, s, now, r), Handle(setup, p, now, r)); a.1 == b.1 && Pruned(a.0, b.0, now)
    ensures Issue(setup, s, now, r) == Issue(setup, p, now, r)
  {
    if r.Exchange? {
      ExchangeSame(setup, s, p, now, r);
    } else if r.Refresh? {
      RefreshSame(setup, s, p, now, r);
    } else if r.Register? {
      PruneSame(s, p, now);
    } else {
      QuietSame(setup, s, p, now, r);
      QuietReply(setup, s, p, now, r);
    }
  }

  lemma {:induction false} RunSame(setup: Setup, y: System, z: System, rs: seq<Timed>)
    requires Inv(y) && z == y.(store := z.store) && Pruned(y.store, z.store, y.clock)
    ensures var (a, b) := (Run(setup, y, rs), Run(setup, z, rs));
      Inv(a) && b == a.(store := b.store) && Pruned(a.store, b.store, a.clock)
    decreases |rs|
  {
    if rs != [] {
      var (before, r) := (rs[..|rs| - 1], rs[|rs| - 1]);
      RunSame(setup, y, z, before);
      var (a, b) := (Run(setup, y, before), Run(setup, z, before));
      RequestSame(setup, a.store, b.store, Later(a, r), r.request);
      StepKeeps(setup, a, r);
    }
  }

  /**
   Main result: deleting expired codes and expired rotated tokens at any moment is never observable. Whatever requests
   follow, the next request is answered in the same way, the same tokens are issued, and the same access tokens are accepted.
   */
  lemma PruningIsInvisible(setup: Setup, rs: seq<Timed>, later: seq<Timed>, r: Timed, now: int, token: Id, resource: string)
    ensures var y := Reached(setup, rs);
      var (a, b) := (Run(setup, y, later), Run(setup, y.(store := PruneSpent(y.store, y.clock)), later));
      Handle(setup, a.store, Later(a, r), r.request).1 == Handle(setup, b.store, Later(b, r), r.request).1 &&
      a.log == b.log && Authenticate(setup, a.store, now, token, resource) == Authenticate(setup, b.store, now, token, resource)
  {
    ReachedInv(setup, rs);
    var y := Reached(setup, rs);
    var z := y.(store := PruneSpent(y.store, y.clock));
    RunSame(setup, y, z, later);
    var (a, b) := (Run(setup, y, later), Run(setup, z, later));
    RequestSame(setup, a.store, b.store, Later(a, r), r.request);
  }

  /** Dropping idle clients deletes only grants whose access and refresh tokens have both expired. */
  lemma IdleClientsHaveNoUsableTokens(setup: Setup, rs: seq<Timed>, now: int, grant: Id)
    requires var s := Reached(setup, rs).store; grant in s.grants && s.grants[grant].client in Idle(s, now)
    ensures var g := Reached(setup, rs).store.grants[grant]; g.accessExpires <= now && g.refreshExpires <= now
  {
    ReachedInv(setup, rs);
    var y := Reached(setup, rs);
    assert GrantRow(y.store, grant, y.store.grants[grant], y.clock);
  }

  /**
   An issued code is not use of the client: a registration that goes through within the code's life keeps the code exactly
   when its client was used within the idle time.
   */
  lemma CodeSurvivesRegistration(
    setup: Setup, rs: seq<Timed>, r: Timed, now: int, redirects: Option<seq<string>>)
    requires var y := Reached(setup, rs);
      r.request.Authorize? && Handle(setup, y.store, Later(y, r), r.request).1.CodeIssued? &&
      Later(y, r) <= now < Later(y, r) + CODE_TTL
    requires RegisterClient(Step(setup, Reached(setup, rs), r).store, now, redirects).1.Registered?
    ensures var (y, z) := (Reached(setup, rs), Step(setup, Reached(setup, rs), r));
      var code := Handle(setup, y.store, Later(y, r), r.request).1.code;
      Digest(code) in z.store.codes &&
      (Digest(code) in RegisterClient(z.store, now, redirects).0.codes <==>
        now - CLIENT_IDLE_TTL <= y.store.clients[r.request.client].lastUsed)
  {
  }

  const REDIRECT := "https://client.example/callback"

  function Challenge(): (c: string)
    ensures ValidPkce(c)
  {
    seq(43, _ => 'a')
  }

  /** A client registers, is not used for the idle time, and then gets a code. */
  function IdleThenCode(): seq<Timed> {
    [Timed(0, SetUser(1, Some(true))), Timed(0, Register(Some([REDIRECT]))),
     Timed(CLIENT_IDLE_TTL, Authorize(1, 1, REDIRECT, Challenge(), "https://hub.example", ""))]
  }

  lemma ReachedMore(setup: Setup, rs: seq<Timed>, r: Timed)
    ensures Reached(setup, rs + [r]) == Step(setup, Reached(setup, rs), r)
  {
    assert (rs + [r])[..|rs|] == rs;
  }

  lemma IdleClient(setup: Setup)
    ensures var y := Reached(setup, IdleThenCode()[..2]);
      y == System(Store(map[1 := Client([REDIRECT], 0)], map[1 := true], map[], map[], map[], 2), 0, [])
  {
    var rs := IdleThenCode();
    assert rs[..2] == [rs[0]] + [rs[1]] && [rs[0]] == [] + [rs[0]];
    ReachedMore(setup, [], rs[0]);
    ReachedMore(setup, [rs[0]], rs[1]);
    var s := Fresh.(users := map[1 := true]);
    assert Step(setup, Start, rs[0]).store == s;
    assert Prune(s, 0) == s by {
      assert Idle(s, 0) == {};
    }
  }

  predicate OneCode(y: System) {
    y.clock == CLIENT_IDLE_TTL && y.store.clients == map[1 := Client([REDIRECT], 0)] && y.store.grants == map[] &&
    y.store.codes.Keys == {Digest(2)} && y.store.codes[Digest(2)].client == 1 &&
    y.store.codes[Digest(2)].expires == CLIENT_IDLE_TTL + CODE_TTL
  }

  lemma FirstCode(setup: Setup, y: System)
    requires y == System(Store(map[1 := Client([REDIRECT], 0)], map[1 := true], map[], map[], map[], 2), 0, [])
    ensures OneCode(Step(setup, y, IdleThenCode()[2]))
  {
    assert REDIRECT in y.store.clients[1].redirects by { assert y.store.clients[1].redirects[0] == REDIRECT; }
  }

  /** The client with the code it has just been given. */
  lemma CodeGiven(setup: Setup)
    ensures OneCode(Reached(setup, IdleThenCode()))
  {
    var rs := IdleThenCode();
    IdleClient(setup);
    ReachedMore(setup, rs[..2], rs[2]);
    assert rs[..2] + [rs[2]] == rs;
    FirstCode(setup, Reached(setup, rs[..2]));
  }

  /** The next registration, one second later, deletes the code, although it has almost all its life before it. */
  lemma LiveCodeLostExample(setup: Setup)
    ensures var y := Reached(setup, IdleThenCode());
      var z := Reached(setup, IdleThenCode() + [Timed(CLIENT_IDLE_TTL + 1, Register(Some([REDIRECT])))]);
      Digest(2) in y.store.codes && y.store.codes[Digest(2)].expires == CLIENT_IDLE_TTL + CODE_TTL &&
      z.clock == CLIENT_IDLE_TTL + 1 && Digest(2) !in z.store.codes
  {
    var r := Timed(CLIENT_IDLE_TTL + 1, Register(Some([REDIRECT])));
    CodeGiven(setup);
    ReachedMore(setup, IdleThenCode(), r);
    var y := Reached(setup, IdleThenCode());
    assert 1 in Idle(y.store, r.now);
    assert Prune(y.store, r.now).clients == map[];
  }

  /** Main result: the table of dynamically registered clients never exceeds its limit. */
  lemma ClientsBounded(setup: Setup, rs: seq<Timed>)
    ensures |Reached(setup, rs).store.clients| <= CLIENT_LIMIT
  {
    ReachedInv(setup, rs);
  }
}
