/**
 What every answer rests on, over whole runs: which registration a code goes back to, which authorization and proof an
 exchange, and which grant a refresh or an authentication. The run itself, not the tables, says what was registered,
 authorized and granted.
 */
module OAuthWarrants {
  import opened Names
  import opened Wrappers
  import opened OAuthModel
  import opened OAuthFamilies
  import opened OAuthResults

  // ------------------------------------------------------------------ what the answers of a run say

  /** An accepted authorization, and the time of the exchange of its code. */
  datatype Origin = Origin(given: Timed, at: int)

  /** clients: the redirects each accepted registration named. given: the accepted request for each code. granted: per grant. */
  datatype Trace = Trace(clients: map<Id, seq<string>>, given: map<Id, Timed>, granted: map<Id, Origin>)

  const Nothing := Trace(map[], map[], map[])

  ghost function Noted(t: Trace, r: Timed, reply: Reply, added: seq<Event>): Trace {
    match reply
    case Registered(id) =>
      if r.request.Register? && r.request.redirects.Some? then t.(clients := t.clients[id := r.request.redirects.value]) else t
    case CodeIssued(code) => t.(given := t.given[code := r])
    case TokensIssued(_) =>
      if r.request.Exchange? && r.request.code in t.given && |added| == 1 then
        t.(granted := t.granted[added[0].grant := Origin(t.given[r.request.code], r.now)])
      else t
    case _ => t
  }

  /** The trace of a run: the requests at the times at which they were handled, with their answers. */
  ghost function Traced(setup: Setup, rs: seq<Timed>): Trace
    decreases |rs|
  {
    if rs == [] then Nothing
    else
      var n := |rs| - 1;
      var y := Reached(setup, rs[..n]);
      var now := Later(y, rs[n]);
      Noted(Traced(setup, rs[..n]), Timed(now, rs[n].request), Handle(setup, y.store, now, rs[n].request).1,
            Issue(setup, y.store, now, rs[n].request))
  }

  // ------------------------------------------------------------------ the tables hold what the trace says

  ghost predicate CodeFits(setup: Setup, c: Code, g: Timed) {
    g.request.Authorize? && c.client == g.request.client && c.user == g.request.user && c.redirect == g.request.redirect &&
    c.challenge == g.request.challenge && c.resource == g.request.resource && c.scope == setup.scope(g.request.scope) &&
    c.expires == g.now + CODE_TTL
  }

  ghost predicate GrantFits(setup: Setup, g: Grant, o: Origin) {
    o.given.request.Authorize? && g.client == o.given.request.client && g.user == o.given.request.user &&
    g.resource == o.given.request.resource && g.scope == setup.scope(setup.scope(o.given.request.scope)) &&
    g.created == o.at && g.refreshExpires == o.at + REFRESH_TTL
  }

  ghost predicate ClientTraced(s: Store, t: Trace, c: Id) {
    c in s.clients ==> c in t.clients && s.clients[c].redirects == t.clients[c]
  }

  ghost predicate CodeTraced(setup: Setup, s: Store, t: Trace, h: Digest) {
    h in s.codes ==> h.raw in t.given && CodeFits(setup, s.codes[h], t.given[h.raw])
  }

  ghost predicate GrantTraced(setup: Setup, s: Store, log: seq<Event>, t: Trace, g: Id) {
    g in s.grants ==>
      g in t.granted && GrantFits(setup, s.grants[g], t.granted[g]) &&
      Last(log, g).Some? && s.grants[g].accessExpires == Last(log, g).value.at + ACCESS_TTL
  }

  ghost predicate Below(t: Trace, next: Id) {
    (forall c :: c in t.clients ==> c < next) && (forall c :: c in t.given ==> c < next) && (forall g :: g in t.granted ==> g < next)
  }

  ghost predicate Traces(setup: Setup, y: System, t: Trace) {
    (forall c :: ClientTraced(y.store, t, c)) && (forall h :: CodeTraced(setup, y.store, t, h)) &&
    (forall g :: GrantTraced(setup, y.store, y.log, t, g)) && Below(t, y.store.next)
  }

  /** Rows may go, grants be revoked, and clients used. */
  ghost predicate Shrinks(s: Store, u: Store) {
    s.next <= u.next &&
    (forall c :: c in u.clients ==> c in s.clients && u.clients[c].redirects == s.clients[c].redirects) &&
    (forall h :: h in u.codes ==> h in s.codes && u.codes[h].(used := None, grant := None) == s.codes[h].(used := None, grant := None)) &&
    (forall g :: g in u.grants ==> g in s.grants && SameTokens(s.grants[g], u.grants[g]))
  }

  lemma ShrinksTraced(setup: Setup, y: System, u: Store, now: int, t: Trace)
    requires Traces(setup, y, t) && Shrinks(y.store, u)
    ensures Traces(setup, System(u, now, y.log), t)
  {
    forall c ensures ClientTraced(u, t, c) { assert ClientTraced(y.store, t, c); }
    forall h ensures CodeTraced(setup, u, t, h) { assert CodeTraced(setup, y.store, t, h); }
    forall g ensures GrantTraced(setup, u, y.log, t, g) { assert GrantTraced(setup, y.store, y.log, t, g); }
  }

  lemma PruneShrinks(s: Store, now: int)
    ensures Shrinks(s, Prune(s, now))
  {
  }

  lemma RegisterTraced(setup: Setup, y: System, t: Trace, now: int, redirects: Option<seq<string>>)
    requires Traces(setup, y, t)
    ensures var (u, reply) := RegisterClient(y.store, now, redirects);
      Traces(setup, System(u, now, y.log), Noted(t, Timed(now, Register(redirects)), reply, []))
  {
    var (u, reply) := RegisterClient(y.store, now, redirects);
    if reply.Registered? {
      var p := Prune(y.store, now);
      PruneShrinks(y.store, now);
      ShrinksTraced(setup, y, p, now, t);
      var t' := Noted(t, Timed(now, Register(redirects)), reply, []);
      forall c ensures ClientTraced(u, t', c) { assert ClientTraced(p, t, c); }
      forall h ensures CodeTraced(setup, u, t', h) { assert CodeTraced(setup, p, t, h); }
      forall g ensures GrantTraced(setup, u, y.log, t', g) { assert GrantTraced(setup, p, y.log, t, g); }
    }
  }

  lemma AuthorizeTraced(setup: Setup, y: System, t: Trace, now: int, r: Request)
    requires Traces(setup, y, t) && r.Authorize?
    ensures var (u, reply) := Handle(setup, y.store, now, r);
      Traces(setup, System(u, now, y.log), Noted(t, Timed(now, r), reply, []))
  {
    var (u, reply) := Handle(setup, y.store, now, r);
    var t' := Noted(t, Timed(now, r), reply, []);
    forall c ensures ClientTraced(u, t', c) { assert ClientTraced(y.store, t, c); }
    forall h ensures CodeTraced(setup, u, t', h) { assert CodeTraced(setup, y.store, t, h); }
    forall g ensures GrantTraced(setup, u, y.log, t', g) { assert GrantTraced(setup, y.store, y.log, t, g); }
  }

  lemma ExchangeTraced(setup: Setup, y: System, t: Trace, now: int, r: Request)
    requires Inv(y) && Traces(setup, y, t) && r.Exchange?
    ensures var (u, reply) := Handle(setup, y.store, now, r);
      var added := Issue(setup, y.store, now, r);
      Traces(setup, System(u, now, y.log + added), Noted(t, Timed(now, r), reply, added))
  {
    var (u, reply) := Handle(setup, y.store, now, r);
    var added := Issue(setup, y.store, now, r);
    var h := Digest(r.code);
    if reply.TokensIssued? {
      assert CodeTraced(setup, y.store, t, h) && h.raw == r.code;
      var e := added[0];
      assert added == [e];
      var t' := Noted(t, Timed(now, r), reply, added);
      forall c ensures ClientTraced(u, t', c) { assert ClientTraced(y.store, t, c); }
      forall k ensures CodeTraced(setup, u, t', k) { assert CodeTraced(setup, y.store, t, k); }
      forall g ensures GrantTraced(setup, u, y.log + added, t', g) {
        assert GrantTraced(setup, y.store, y.log, t, g);
        LastAppend(y.log, e, g);
      }
    } else {
      assert added == [] && y.log + added == y.log;
      ShrinksTraced(setup, y, u, now, t);
    }
  }

  lemma RotatedTraced(setup: Setup, y: System, t: Trace, now: int, id: Id, e: Event)
    requires Traces(setup, y, t) && id in y.store.grants && e.grant == id && e.at == now
    ensures Traces(setup, System(Rotate(y.store, now, id, y.store.grants[id].client).0, now, y.log + [e]), t)
  {
    var u := Rotate(y.store, now, id, y.store.grants[id].client).0;
    forall c ensures ClientTraced(u, t, c) { assert ClientTraced(y.store, t, c); }
    forall k ensures CodeTraced(setup, u, t, k) { assert CodeTraced(setup, y.store, t, k); }
    forall g ensures GrantTraced(setup, u, y.log + [e], t, g) {
      assert GrantTraced(setup, y.store, y.log, t, g);
      LastAppend(y.log, e, g);
    }
  }

  /** What a refresh does to store and log: it rotates the holder, or issues nothing. */
  lemma RefreshCases(setup: Setup, s: Store, now: int, r: Request)
    requires r.Refresh?
    ensures var (u, reply) := Handle(setup, s, now, r);
      var added := Issue(setup, s, now, r);
      if reply.TokensIssued? then
        var f := FindRefresh(s.grants, Digest(r.token));
        f.Some? && f.value in s.grants && u == Rotate(s, now, f.value, s.grants[f.value].client).0 &&
        |added| == 1 && added[0].grant == f.value && added[0].at == now
      else added == [] && reply == Refused && Shrinks(s, u)
  {
  }

  lemma RefreshTraced(setup: Setup, y: System, t: Trace, now: int, r: Request)
    requires Traces(setup, y, t) && r.Refresh?
    ensures var (u, reply) := Handle(setup, y.store, now, r);
      var added := Issue(setup, y.store, now, r);
      Traces(setup, System(u, now, y.log + added), Noted(t, Timed(now, r), reply, added))
  {
    var (u, reply) := Handle(setup, y.store, now, r);
    var added := Issue(setup, y.store, now, r);
    RefreshCases(setup, y.store, now, r);
    if reply.TokensIssued? {
      RotatedTraced(setup, y, t, now, FindRefresh(y.store.grants, Digest(r.token)).value, added[0]);
      assert added == [added[0]];
    } else {
      assert y.log + added == y.log;
      ShrinksTraced(setup, y, u, now, t);
    }
  }

  lemma {:induction false} TraceHolds(setup: Setup, rs: seq<Timed>)
    ensures Traces(setup, Reached(setup, rs), Traced(setup, rs))
    decreases |rs|
  {
    if rs != [] {
      var n := |rs| - 1;
      TraceHolds(setup, rs[..n]);
      ReachedInv(setup, rs[..n]);
      StepTraced(setup, Reached(setup, rs[..n]), Traced(setup, rs[..n]), rs[n]);
    }
  }

  lemma StepTraced(setup: Setup, y: System, t: Trace, r: Timed)
    requires Inv(y) && Traces(setup, y, t)
    ensures var now := Later(y, r);
      Traces(setup, Step(setup, y, r),
             Noted(t, Timed(now, r.request), Handle(setup, y.store, now, r.request).1, Issue(setup, y.store, now, r.request)))
  {
    var now := Later(y, r);
    IssueIsLogged(setup, y, r);
    if !r.request.Exchange? && !r.request.Refresh? { assert y.log + Issue(setup, y.store, now, r.request) == y.log; }
    match r.request
    case Register(redirects) => RegisterTraced(setup, y, t, now, redirects);
    case Authorize(_, _, _, _, _, _) => AuthorizeTraced(setup, y, t, now, r.request);
    case Exchange(_, _, _, _, _) => ExchangeTraced(setup, y, t, now, r.request);
    case Refresh(_, _, _) => RefreshTraced(setup, y, t, now, r.request);
    case RevokeUser(_) => ShrinksTraced(setup, y, Handle(setup, y.store, now, r.request).0, now, t);
    case SetUser(_, _) => ShrinksTraced(setup, y, Handle(setup, y.store, now, r.request).0, now, t);
  }

  // ------------------------------------------------------------------ results

  predicate SameUri(setup: Setup, left: string, right: string) {
    setup.canon(left).Some? && setup.canon(right).Some? && setup.canon(left) == setup.canon(right)
  }

  /**
   Main result: a code is given exactly to an existing user, for a client that an accepted registration of the run created
   with this redirect and that is still there, and with a well-formed challenge.
   */
  lemma AuthorizeExactly(setup: Setup, rs: seq<Timed>, r: Timed)
    requires r.request.Authorize?
    ensures var (y, q) := (Reached(setup, rs), r.request);
      Handle(setup, y.store, Later(y, r), q).1.CodeIssued? <==>
        q.user != 0 && q.client != 0 && Trim(q.resource) != "" && 43 <= |q.challenge| <= 128 && ValidPkce(q.challenge) &&
        q.user in y.store.users && q.client in y.store.clients && q.client in Traced(setup, rs).clients &&
        q.redirect in Traced(setup, rs).clients[q.client]
  {
    TraceHolds(setup, rs);
    assert ClientTraced(Reached(setup, rs).store, Traced(setup, rs), r.request.client);
  }

  /** The request shows what the authorization asked for, within the life of its code. */
  ghost predicate Shown(setup: Setup, g: Timed, now: int, q: Request)
    requires g.request.Authorize? && q.Exchange?
  {
    now < g.now + 10 * 60 && q.client == g.request.client && q.redirect == g.request.redirect &&
    SameUri(setup, g.request.resource, q.resource) && setup.challenge(q.verifier) == g.request.challenge
  }

  /**
   Main result: tokens are issued for a code exactly when the code is stored and unused, and the request shows client, redirect,
   resource and the proof of the authorization that was given this code less than ten minutes before; they carry its user,
   client, resource and scope.
   */
  lemma ExchangeExactly(setup: Setup, rs: seq<Timed>, r: Timed)
    requires r.request.Exchange?
    ensures var (y, q, given) := (Reached(setup, rs), r.request, Traced(setup, rs).given);
      Handle(setup, y.store, Later(y, r), q).1.TokensIssued? <==>
        ValidPkce(q.verifier) && Digest(q.code) in y.store.codes && y.store.codes[Digest(q.code)].used.None? &&
        q.code in given && given[q.code].request.Authorize? && Shown(setup, given[q.code], Later(y, r), q)
    ensures var (y, q, given) := (Reached(setup, rs), r.request, Traced(setup, rs).given);
      var reply := Handle(setup, y.store, Later(y, r), q).1;
      reply.TokensIssued? ==>
        var (a, k) := (given[q.code].request, reply.tokens);
        k.user == a.user && k.client == a.client && k.resource == a.resource && k.scope == setup.scope(setup.scope(a.scope)) &&
        k.accessExpires == Later(y, r) + 60 * 60 && k.refreshExpires == Later(y, r) + 90 * 24 * 60 * 60
  {
    TraceHolds(setup, rs);
    ReachedInv(setup, rs);
    var (s, h) := (Reached(setup, rs).store, Digest(r.request.code));
    assert CodeTraced(setup, s, Traced(setup, rs), h);
    if h in s.codes { assert CodeRow(s, h, s.codes[h]); }
  }

  /** This token pair is the one issued last for the grant, and the grant is stored and not revoked. */
  ghost predicate Current(y: System, id: Id, access: Option<Id>, refresh: Option<Id>) {
    id in y.store.grants && y.store.grants[id].Live() && Last(y.log, id).Some? &&
    (access.Some? ==> Last(y.log, id).value.access == access.value) &&
    (refresh.Some? ==> Last(y.log, id).value.refresh == refresh.value)
  }

  lemma OnlyHolder(y: System, id: Id, h: Digest)
    requires Inv(y) && HasRefresh(y.store.grants, id, h)
    ensures FindRefresh(y.store.grants, h) == Some(id)
  {
    var k := FindRefresh(y.store.grants, h).value;
    if k != id { TokensDiffer(y, k, id); }
  }

  lemma OnlyAccess(y: System, id: Id, h: Digest)
    requires Inv(y) && HasAccess(y.store.users, y.store.grants, id, h)
    ensures FindAccess(y.store.users, y.store.grants, h) == Some(id)
  {
    var k := FindAccess(y.store.users, y.store.grants, h).value;
    if k != id { TokensDiffer(y, k, id); }
  }

  lemma HoldersCurrent(y: System, id: Id, token: Id)
    requires Inv(y)
    ensures HasRefresh(y.store.grants, id, Digest(token)) <==> Current(y, id, None, Some(token))
    ensures HasAccess(y.store.users, y.store.grants, id, Digest(token)) <==>
      Current(y, id, Some(token), None) && y.store.grants[id].user in y.store.users && y.store.users[y.store.grants[id].user]
  {
    if id in y.store.grants { assert Holds(y.log, id, y.store.grants[id]); }
  }

  /** The refresh token is the current one of this grant, and client, resource and time are those authorized. */
  ghost predicate MayRefresh(setup: Setup, y: System, granted: map<Id, Origin>, id: Id, now: int, q: Request)
    requires q.Refresh?
  {
    Current(y, id, None, Some(q.token)) && id in granted && granted[id].given.request.Authorize? &&
    var o := granted[id];
    q.client == o.given.request.client && SameUri(setup, o.given.request.resource, q.resource) && now < o.at + 90 * 24 * 60 * 60
  }

  lemma RefreshOf(setup: Setup, y: System, t: Trace, id: Id, now: int, q: Request)
    requires Inv(y) && Traces(setup, y, t) && q.Refresh? && HasRefresh(y.store.grants, id, Digest(q.token))
    ensures Handle(setup, y.store, now, q).1.TokensIssued? <==> MayRefresh(setup, y, t.granted, id, now, q)
  {
    HoldersCurrent(y, id, q.token);
    OnlyHolder(y, id, Digest(q.token));
    assert GrantTraced(setup, y.store, y.log, t, id);
    assert Digest(q.token) !in y.store.history;
  }

  lemma RefreshNeedsHolder(setup: Setup, s: Store, now: int, q: Request)
    requires q.Refresh? && Handle(setup, s, now, q).1.TokensIssued?
    ensures FindRefresh(s.grants, Digest(q.token)).Some?
  {
  }

  lemma RefreshNeeds(setup: Setup, rs: seq<Timed>, now: int, q: Request) returns (id: Id)
    requires q.Refresh? && Handle(setup, Reached(setup, rs).store, now, q).1.TokensIssued?
    ensures MayRefresh(setup, Reached(setup, rs), Traced(setup, rs).granted, id, now, q)
  {
    TraceHolds(setup, rs);
    ReachedInv(setup, rs);
    RefreshNeedsHolder(setup, Reached(setup, rs).store, now, q);
    id := FindRefresh(Reached(setup, rs).store.grants, Digest(q.token)).value;
    RefreshOf(setup, Reached(setup, rs), Traced(setup, rs), id, now, q);
  }

  lemma RefreshSuffices(setup: Setup, rs: seq<Timed>, id: Id, now: int, q: Request)
    requires q.Refresh? && MayRefresh(setup, Reached(setup, rs), Traced(setup, rs).granted, id, now, q)
    ensures Handle(setup, Reached(setup, rs).store, now, q).1.TokensIssued?
  {
    TraceHolds(setup, rs);
    ReachedInv(setup, rs);
    HoldersCurrent(Reached(setup, rs), id, q.token);
    RefreshOf(setup, Reached(setup, rs), Traced(setup, rs), id, now, q);
  }

  /** Some grant of the run warrants the refresh. */
  ghost predicate RefreshWarranted(setup: Setup, rs: seq<Timed>, now: int, q: Request)
    requires q.Refresh?
  {
    exists id: Id :: MayRefresh(setup, Reached(setup, rs), Traced(setup, rs).granted, id, now, q)
  }

  /**
   Main result: a refresh is answered with tokens exactly when the token is the current one of a live grant, for the client and
   resource that were authorized, less than 90 days after the exchange.
   */
  lemma RefreshExactly(setup: Setup, rs: seq<Timed>, now: int, q: Request)
    requires q.Refresh?
    ensures Handle(setup, Reached(setup, rs).store, now, q).1.TokensIssued? <==> RefreshWarranted(setup, rs, now, q)
  {
    if Handle(setup, Reached(setup, rs).store, now, q).1.TokensIssued? {
      var id := RefreshNeeds(setup, rs, now, q);
    }
    if RefreshWarranted(setup, rs, now, q) {
      var id: Id :| MayRefresh(setup, Reached(setup, rs), Traced(setup, rs).granted, id, now, q);
      RefreshSuffices(setup, rs, id, now, q);
    }
  }

  /** What a refresh issues is for the user, client, resource and scope that were authorized; the deadline stays. */
  lemma RefreshedFor(setup: Setup, rs: seq<Timed>, now: int, q: Request, id: Id)
    requires q.Refresh? && MayRefresh(setup, Reached(setup, rs), Traced(setup, rs).granted, id, now, q)
    ensures var (o, reply) := (Traced(setup, rs).granted[id], Handle(setup, Reached(setup, rs).store, now, q).1);
      reply.TokensIssued? &&
      reply.tokens.user == o.given.request.user && reply.tokens.client == o.given.request.client &&
      reply.tokens.resource == o.given.request.resource &&
      reply.tokens.scope == setup.scope(setup.scope(o.given.request.scope)) &&
      reply.tokens.accessExpires == now + 60 * 60 && reply.tokens.refreshExpires == o.at + 90 * 24 * 60 * 60
  {
    TraceHolds(setup, rs);
    ReachedInv(setup, rs);
    RefreshedFields(setup, Reached(setup, rs), Traced(setup, rs), id, now, q);
  }

  lemma RefreshedFields(setup: Setup, y: System, t: Trace, id: Id, now: int, q: Request)
    requires Inv(y) && Traces(setup, y, t) && q.Refresh? && MayRefresh(setup, y, t.granted, id, now, q)
    ensures var (g, reply) := (y.store.grants[id], Handle(setup, y.store, now, q).1);
      reply.TokensIssued? && GrantFits(setup, g, t.granted[id]) &&
      reply.tokens.user == g.user && reply.tokens.client == q.client && reply.tokens.resource == g.resource &&
      reply.tokens.scope == g.scope && reply.tokens.accessExpires == now + 60 * 60 && reply.tokens.refreshExpires == g.refreshExpires
  {
    HoldersCurrent(y, id, q.token);
    OnlyHolder(y, id, Digest(q.token));
    RefreshOf(setup, y, t, id, now, q);
    assert GrantTraced(setup, y.store, y.log, t, id);
  }

  /** The access token is the current one of this grant; user, resource and time allow its use. */
  ghost predicate MayAuthenticate(setup: Setup, y: System, granted: map<Id, Origin>, id: Id, now: int, token: Id, resource: string) {
    Current(y, id, Some(token), None) && id in granted && granted[id].given.request.Authorize? &&
    var a := granted[id].given.request;
    a.user in y.store.users && y.store.users[a.user] && SameUri(setup, a.resource, resource) &&
    now < Last(y.log, id).value.at + 60 * 60
  }

  lemma AuthenticateBy(setup: Setup, y: System, t: Trace, id: Id, now: int, token: Id, resource: string)
    requires Inv(y) && Traces(setup, y, t) && token != 0 && HasAccess(y.store.users, y.store.grants, id, Digest(token))
    ensures Authenticate(setup, y.store, now, token, resource).Some? <==> MayAuthenticate(setup, y, t.granted, id, now, token, resource)
  {
    HoldersCurrent(y, id, token);
    OnlyAccess(y, id, Digest(token));
    assert GrantTraced(setup, y.store, y.log, t, id);
  }

  lemma AuthenticateNeedsHolder(setup: Setup, s: Store, now: int, token: Id, resource: string)
    requires Authenticate(setup, s, now, token, resource).Some?
    ensures token != 0 && FindAccess(s.users, s.grants, Digest(token)).Some?
  {
  }

  lemma ActiveHolder(setup: Setup, y: System, t: Trace, id: Id, now: int, token: Id, resource: string)
    requires Inv(y) && Traces(setup, y, t) && MayAuthenticate(setup, y, t.granted, id, now, token, resource)
    ensures HasAccess(y.store.users, y.store.grants, id, Digest(token))
  {
    assert GrantTraced(setup, y.store, y.log, t, id);
    HoldersCurrent(y, id, token);
  }

  lemma AuthenticateNeeds(setup: Setup, rs: seq<Timed>, now: int, token: Id, resource: string) returns (id: Id)
    requires Authenticate(setup, Reached(setup, rs).store, now, token, resource).Some?
    ensures token != 0 && MayAuthenticate(setup, Reached(setup, rs), Traced(setup, rs).granted, id, now, token, resource)
  {
    TraceHolds(setup, rs);
    ReachedInv(setup, rs);
    var s := Reached(setup, rs).store;
    AuthenticateNeedsHolder(setup, s, now, token, resource);
    id := FindAccess(s.users, s.grants, Digest(token)).value;
    AuthenticateBy(setup, Reached(setup, rs), Traced(setup, rs), id, now, token, resource);
  }

  lemma AuthenticateSuffices(setup: Setup, rs: seq<Timed>, id: Id, now: int, token: Id, resource: string)
    requires token != 0 && MayAuthenticate(setup, Reached(setup, rs), Traced(setup, rs).granted, id, now, token, resource)
    ensures Authenticate(setup, Reached(setup, rs).store, now, token, resource).Some?
  {
    TraceHolds(setup, rs);
    ReachedInv(setup, rs);
    ActiveHolder(setup, Reached(setup, rs), Traced(setup, rs), id, now, token, resource);
    AuthenticateBy(setup, Reached(setup, rs), Traced(setup, rs), id, now, token, resource);
  }

  /** Some grant of the run warrants the use of the token. */
  ghost predicate AccessWarranted(setup: Setup, rs: seq<Timed>, now: int, token: Id, resource: string) {
    exists id: Id :: MayAuthenticate(setup, Reached(setup, rs), Traced(setup, rs).granted, id, now, token, resource)
  }

  /**
   Main result: an access token is accepted exactly when it is the current one of a live grant whose user exists and is active,
   for the authorized resource, less than an hour after it was issued.
   */
  lemma AuthenticateExactly(setup: Setup, rs: seq<Timed>, now: int, token: Id, resource: string)
    ensures Authenticate(setup, Reached(setup, rs).store, now, token, resource).Some? <==>
      token != 0 && AccessWarranted(setup, rs, now, token, resource)
  {
    if Authenticate(setup, Reached(setup, rs).store, now, token, resource).Some? {
      var id := AuthenticateNeeds(setup, rs, now, token, resource);
    }
    if token != 0 && AccessWarranted(setup, rs, now, token, resource) {
      var id: Id :| MayAuthenticate(setup, Reached(setup, rs), Traced(setup, rs).granted, id, now, token, resource);
      AuthenticateSuffices(setup, rs, id, now, token, resource);
    }
  }

  /** An accepted access token speaks for the user, client, resource and scope that were authorized. */
  lemma AuthenticatedAs(setup: Setup, rs: seq<Timed>, now: int, token: Id, resource: string)
    requires Authenticate(setup, Reached(setup, rs).store, now, token, resource).Some?
    ensures var k := Authenticate(setup, Reached(setup, rs).store, now, token, resource).value;
      var granted := Traced(setup, rs).granted;
      Current(Reached(setup, rs), k.grant, Some(token), None) && k.grant in granted && granted[k.grant].given.request.Authorize? &&
      var a := granted[k.grant].given.request;
      k.user == a.user && k.client == a.client && k.resource == a.resource && k.scope == setup.scope(setup.scope(a.scope))
  {
    TraceHolds(setup, rs);
    ReachedInv(setup, rs);
    var y := Reached(setup, rs);
    var k := Authenticate(setup, y.store, now, token, resource).value;
    HoldersCurrent(y, k.grant, token);
    assert GrantTraced(setup, y.store, y.log, Traced(setup, rs), k.grant);
  }

  // ------------------------------------------------------------------ revocation

  /** Main result: after a revocation of a user, whatever follows, no token issued before for this user works again. */
  lemma RevokedUserIsOut(
    setup: Setup, rs: seq<Timed>, r: Timed, later: seq<Timed>, k: nat, now: int, client: Id, resource: string)
    requires r.request.RevokeUser? && r.request.user != 0
    requires var (y, granted) := (Reached(setup, rs), Traced(setup, rs).granted);
      k < |y.log| && y.log[k].grant in granted && granted[y.log[k].grant].given.request.Authorize? &&
      granted[y.log[k].grant].given.request.user == r.request.user
    ensures var z := Run(setup, Step(setup, Reached(setup, rs), r), later);
      k < |z.log| && z.log[k] == Reached(setup, rs).log[k] &&
      Authenticate(setup, z.store, now, z.log[k].access, resource).None? &&
      Handle(setup, z.store, now, Refresh(client, z.log[k].refresh, resource)).1 == Refused
  {
    TraceHolds(setup, rs);
    ReachedInv(setup, rs);
    var y := Reached(setup, rs);
    var grant := y.log[k].grant;
    assert Recorded(y.store.next, y.log[k]);
    assert GrantTraced(setup, y.store, y.log, Traced(setup, rs), grant);
    assert Dead(Step(setup, y, r).store, grant);
    StepKeeps(setup, y, r);
    IssueIsLogged(setup, y, r);
    assert Step(setup, y, r).log == y.log;
    RunStaysDead(setup, Step(setup, y, r), later, grant);
    DeadTokens(setup, Run(setup, Step(setup, y, r), later), k, now, client, resource);
  }

  /** The request presents a spent source of this grant. */
  ghost predicate Presents(s: Store, q: Request, id: Id)
    requires id in s.grants
  {
    match q
    case RevokeUser(user) => user != 0 && s.grants[id].user == user
    case Exchange(_, code, _, _, _) => Digest(code) in s.codes && s.codes[Digest(code)].grant == Some(id)
    case Refresh(_, token, _) => Digest(token) in s.history && s.history[Digest(token)].grant == id
    case _ => false
  }

  /** The grant is live before the request and revoked after it. */
  ghost predicate LosesLife(setup: Setup, s: Store, now: int, q: Request, id: Id) {
    id in s.grants && s.grants[id].Live() && id in Handle(setup, s, now, q).0.grants && !Handle(setup, s, now, q).0.grants[id].Live()
  }

  lemma ExchangePresents(setup: Setup, s: Store, now: int, q: Request, id: Id)
    requires q.Exchange? && LosesLife(setup, s, now, q, id)
    ensures Presents(s, q, id)
  {
  }

  lemma RefreshPresents(setup: Setup, s: Store, now: int, q: Request, id: Id)
    requires q.Refresh? && LosesLife(setup, s, now, q, id)
    ensures Presents(s, q, id)
  {
  }

  /** A live grant is revoked by nothing but a revocation of its user and a replay of a spent code or token of its own. */
  lemma RevokedOnlyBy(setup: Setup, s: Store, now: int, q: Request, id: Id)
    requires LosesLife(setup, s, now, q, id)
    ensures Presents(s, q, id)
  {
    if q.Exchange? { ExchangePresents(setup, s, now, q, id); }
    else if q.Refresh? { RefreshPresents(setup, s, now, q, id); }
  }

  // ------------------------------------------------------------------ registration

  /** The clients used within the last 180 days. */
  function RecentClients(s: Store, now: int): set<Id> {
    set c | c in s.clients && s.clients[c].lastUsed >= now - 180 * 24 * 60 * 60
  }

  lemma PrunedClients(s: Store, now: int)
    ensures var p := Prune(s, now);
      p.clients.Keys == RecentClients(s, now) && |p.clients| == |RecentClients(s, now)| && p.next == s.next &&
      forall c :: c in p.clients ==> p.clients[c] == s.clients[c]
  {
    var p := Prune(s, now);
    assert p.clients == s.clients - Idle(s, now);
    forall c ensures c in p.clients <==> c in RecentClients(s, now) { }
    assert p.clients.Keys == RecentClients(s, now);
  }

  /** What a registration answers, and the clients it leaves. */
  ghost predicate RegisteredWith(s: Store, recent: set<Id>, now: int, redirects: Option<seq<string>>, t: Store, reply: Reply) {
    if redirects.None? || |recent| >= 1000 then reply == Refused && t == s
    else
      reply == Registered(s.next) && t.clients.Keys == recent + {s.next} && t.clients[s.next] == Client(redirects.value, now) &&
      forall c :: c in recent && c != s.next ==> c in s.clients && t.clients[c] == s.clients[c]
  }

  lemma RegisteredAmong(s: Store, p: Store, recent: set<Id>, now: int, redirects: Option<seq<string>>, t: Store, reply: Reply)
    requires p.clients.Keys == recent && forall c :: c in recent ==> c in s.clients && p.clients[c] == s.clients[c]
    requires (t, reply) ==
      if redirects.None? || |recent| >= 1000 then (s, Refused)
      else (p.(clients := p.clients[s.next := Client(redirects.value, now)], next := s.next + 1), Registered(s.next))
    ensures RegisteredWith(s, recent, now, redirects, t, reply)
  {
  }

  /** A client is registered exactly when its redirects are in order and fewer than 1000 clients were used lately; those stay. */
  lemma RegisterExactly(s: Store, now: int, redirects: Option<seq<string>>)
    ensures var (t, reply) := RegisterClient(s, now, redirects);
      RegisteredWith(s, RecentClients(s, now), now, redirects, t, reply)
  {
    PrunedClients(s, now);
    RegisteredIn(s, now, redirects);
    var (t, reply) := RegisterClient(s, now, redirects);
    RegisteredAmong(s, Prune(s, now), RecentClients(s, now), now, redirects, t, reply);
  }

  lemma RegisteredIn(s: Store, now: int, redirects: Option<seq<string>>)
    ensures var p := Prune(s, now);
      RegisterClient(s, now, redirects) ==
        if redirects.None? || |p.clients| >= 1000 then (s, Refused)
        else (p.(clients := p.clients[s.next := Client(redirects.value, now)], next := s.next + 1), Registered(s.next))
  {
  }

  /** The characters of a PKCE value are the unreserved ones of section 4.1 of RFC 7636, by their codes. */
  lemma PkceAlphabet(c: char)
    ensures var n := c as int;
      PkceChar(c) <==> 65 <= n <= 90 || 97 <= n <= 122 || 48 <= n <= 57 || n == 45 || n == 46 || n == 95 || n == 126
  {
  }

  // ------------------------------------------------------------------ the time of a revocation, and users

  /** Revoked at this time, or at the time it was before. */
  predicate RevokedAt(g: Grant, k: Grant, now: int) {
    (g.revoked.Some? ==> k.revoked == g.revoked) && (g.revoked.None? && k.revoked.Some? ==> k.revoked == Some(now))
  }

  lemma ExchangeRevokes(setup: Setup, s: Store, now: int, q: Request, id: Id)
    requires q.Exchange? && id in s.grants && id in Handle(setup, s, now, q).0.grants && id != s.next + 2
    ensures RevokedAt(s.grants[id], Handle(setup, s, now, q).0.grants[id], now)
  {
  }

  lemma RefreshRevokes(setup: Setup, s: Store, now: int, q: Request, id: Id)
    requires q.Refresh? && id in s.grants && id in Handle(setup, s, now, q).0.grants
    ensures RevokedAt(s.grants[id], Handle(setup, s, now, q).0.grants[id], now)
  {
  }

  /** A grant is revoked at the time of the request that revokes it, and keeps that time. */
  lemma RevocationTimeKept(setup: Setup, y: System, r: Timed, id: Id)
    requires Inv(y) && id in y.store.grants && id in Step(setup, y, r).store.grants
    ensures RevokedAt(y.store.grants[id], Step(setup, y, r).store.grants[id], Later(y, r))
  {
    assert GrantRow(y.store, id, y.store.grants[id], y.clock);
    if r.request.Exchange? { ExchangeRevokes(setup, y.store, Later(y, r), r.request, id); }
    else if r.request.Refresh? { RefreshRevokes(setup, y.store, Later(y, r), r.request, id); }
  }

  /** What the requests of a run say about a user: the latest status, or that there is none. */
  function StatusOf(rs: seq<Timed>, user: Id): Option<bool>
    decreases |rs|
  {
    if rs == [] then None
    else
      var last := rs[|rs| - 1].request;
      if last.SetUser? && last.user == user then last.status else StatusOf(rs[..|rs| - 1], user)
  }

  lemma StepUsers(setup: Setup, y: System, r: Timed)
    ensures var users := Step(setup, y, r).store.users;
      if r.request.SetUser? then
        users == match r.request.status
                 case None => y.store.users - {r.request.user}
                 case Some(active) => y.store.users[r.request.user := active]
      else users == y.store.users
  {
  }

  /** A user exists, and is active, exactly as the latest request about it says. */
  lemma {:induction false} UsersExactly(setup: Setup, rs: seq<Timed>, user: Id)
    ensures var users := Reached(setup, rs).store.users;
      StatusOf(rs, user) == if user in users then Some(users[user]) else None
    decreases |rs|
  {
    if rs != [] {
      var n := |rs| - 1;
      UsersExactly(setup, rs[..n], user);
      StepUsers(setup, Reached(setup, rs[..n]), rs[n]);
    }
  }
}
