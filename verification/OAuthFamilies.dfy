/**
 Token families over whole runs: every token pair ever issued is logged with the code or refresh token it was issued for.
 The invariant ties the four tables to that log.
 */
module OAuthFamilies {
  import opened Wrappers
  import opened OAuthModel

  /** What a token pair was issued for, with the deadline of that code or refresh token. */
  datatype Source = FromCode(code: Id, deadline: int) | FromRefresh(token: Id, deadline: int)

  datatype Event = Event(source: Source, grant: Id, access: Id, refresh: Id, at: int)

  /** clock: the time of the latest request. log: every issue, oldest first. */
  datatype System = System(store: Store, clock: int, log: seq<Event>)

  const Start := System(Fresh, 0, [])

  /** What a request adds to the log: nothing unless it issued tokens. */
  ghost function Issue(setup: Setup, s: Store, now: int, r: Request): seq<Event> {
    match Handle(setup, s, now, r).1
    case TokensIssued(t) =>
      if r.Exchange? && Digest(r.code) in s.codes then
        [Event(FromCode(r.code, s.codes[Digest(r.code)].expires), s.next + 2, t.access, t.refresh, now)]
      else if r.Refresh? && FindRefresh(s.grants, Digest(r.token)).Some? then
        [Event(FromRefresh(r.token, t.refreshExpires), FindRefresh(s.grants, Digest(r.token)).value, t.access, t.refresh, now)]
      else []
    case _ => []
  }

  datatype Timed = Timed(now: int, request: Request)

  function Later(y: System, r: Timed): int { if r.now < y.clock then y.clock else r.now }

  /** Requests are handled one after the other; the clock does not run backwards. */
  ghost function Step(setup: Setup, y: System, r: Timed): System {
    var now := Later(y, r);
    System(Handle(setup, y.store, now, r.request).0, now, y.log + Issue(setup, y.store, now, r.request))
  }

  ghost function Run(setup: Setup, y: System, rs: seq<Timed>): System
    decreases |rs|
  {
    if rs == [] then y else Step(setup, Run(setup, y, rs[..|rs| - 1]), rs[|rs| - 1])
  }

  // ------------------------------------------------------------------ the tables by themselves

  predicate CodeRow(s: Store, h: Digest, c: Code) {
    h.raw < s.next && c.client in s.clients && c.user in s.users && (c.used.Some? <==> c.grant.Some?) &&
    (c.grant.Some? ==>
      0 < c.grant.value < s.next &&
      (c.grant.value in s.grants ==> s.grants[c.grant.value].client == c.client && s.grants[c.grant.value].user == c.user))
  }

  predicate GrantRow(s: Store, id: Id, g: Grant, clock: int) {
    0 < id < s.next && g.access.raw < s.next && g.refresh.raw < s.next && g.client in s.clients && g.user in s.users &&
    g.refreshExpires == g.created + REFRESH_TTL && g.accessExpires < g.refreshExpires + ACCESS_TTL &&
    g.created <= s.clients[g.client].lastUsed && g.accessExpires <= s.clients[g.client].lastUsed + ACCESS_TTL
  }

  predicate PastRow(s: Store, h: Digest, p: Past) {
    h.raw < s.next && p.grant in s.grants && p.expires == s.grants[p.grant].refreshExpires
  }

  predicate Clients(s: Store, clock: int) {
    0 < s.next && |s.clients| <= CLIENT_LIMIT && forall c :: c in s.clients ==> c < s.next && s.clients[c].lastUsed <= clock
  }

  predicate Codes(s: Store) { forall h :: h in s.codes ==> CodeRow(s, h, s.codes[h]) }

  predicate Grants(s: Store, clock: int) { forall g :: g in s.grants ==> GrantRow(s, g, s.grants[g], clock) }

  predicate Histories(s: Store) { forall h :: h in s.history ==> PastRow(s, h, s.history[h]) }

  predicate Tables(s: Store, clock: int) { Clients(s, clock) && Codes(s) && Grants(s, clock) && Histories(s) }

  // ------------------------------------------------------------------ the tables and the log

  function Last(log: seq<Event>, grant: Id): Option<Event>
    decreases |log|
  {
    if log == [] then None
    else if log[|log| - 1].grant == grant then Some(log[|log| - 1])
    else Last(log[..|log| - 1], grant)
  }

  /** A stored grant holds the pair that was issued for it last. */
  predicate Holds(log: seq<Event>, id: Id, g: Grant) {
    Last(log, id).Some? && g.access == Digest(Last(log, id).value.access) && g.refresh == Digest(Last(log, id).value.refresh)
  }

  predicate Held(s: Store, log: seq<Event>) { forall g :: g in s.grants ==> Holds(log, g, s.grants[g]) }

  predicate SpentOn(c: Code, grant: Id, deadline: int) { c.used.Some? && c.grant == Some(grant) && c.expires == deadline }

  /** The source of an issue is spent; while it can still matter, its row points to the grant it was spent on. */
  predicate SpentCode(s: Store, clock: int, code: Id, deadline: int, e: Event) {
    code < e.access &&
    (Digest(code) in s.codes ==> SpentOn(s.codes[Digest(code)], e.grant, deadline)) &&
    (e.grant in s.grants ==>
      s.grants[e.grant].created == e.at && (Digest(code) in s.codes || deadline <= clock))
  }

  predicate SpentRefresh(s: Store, clock: int, token: Id, deadline: int, e: Event) {
    token < e.access &&
    (forall g :: g in s.grants ==> s.grants[g].refresh != Digest(token)) &&
    (Digest(token) in s.history ==> s.history[Digest(token)].grant == e.grant) &&
    (e.grant in s.grants ==>
      s.grants[e.grant].refreshExpires == deadline && (Digest(token) in s.history || deadline <= clock))
  }

  predicate Spent(s: Store, clock: int, e: Event) {
    match e.source
    case FromCode(code, deadline) => SpentCode(s, clock, code, deadline, e)
    case FromRefresh(token, deadline) => SpentRefresh(s, clock, token, deadline, e)
  }

  predicate AllSpent(s: Store, clock: int, log: seq<Event>) { forall i :: 0 <= i < |log| ==> Spent(s, clock, log[i]) }

  predicate Recorded(next: Id, e: Event) { 0 < e.grant < next && e.refresh == e.access + 1 && e.refresh < next }

  /** Token numbers grow along the log, so that no two issues share a token. */
  predicate Growing(log: seq<Event>, next: Id) {
    (forall i :: 0 <= i < |log| ==> Recorded(next, log[i])) &&
    forall i, j :: 0 <= i < j < |log| ==> log[i].refresh < log[j].access
  }

  predicate SameSource(a: Source, b: Source) {
    (a.FromCode? && b.FromCode? && a.code == b.code) || (a.FromRefresh? && b.FromRefresh? && a.token == b.token)
  }

  predicate SourcesOnce(log: seq<Event>) {
    forall i, j :: 0 <= i < j < |log| ==> !SameSource(log[i].source, log[j].source)
  }

  /** A rotated token is never the current one of a grant. */
  predicate Separate(s: Store) {
    forall h, g :: h in s.history && g in s.grants ==> s.grants[g].refresh != h
  }

  predicate Inv(y: System) {
    Tables(y.store, y.clock) && Separate(y.store) && Held(y.store, y.log) && AllSpent(y.store, y.clock, y.log) && Growing(y.log, y.store.next) &&
    SourcesOnce(y.log)
  }

  // ------------------------------------------------------------------ steps that issue no tokens

  predicate SameTokens(a: Grant, b: Grant) { a.(revoked := None) == b.(revoked := None) }

  predicate KeptGrants(s: Store, t: Store) {
    forall g :: g in t.grants ==> g in s.grants && SameTokens(s.grants[g], t.grants[g]) && (!s.grants[g].Live() ==> !t.grants[g].Live())
  }

  predicate KeptHistory(s: Store, t: Store, now: int) {
    (forall h :: h in t.history ==> h in s.history && t.history[h] == s.history[h]) &&
    forall h :: h in s.history && h !in t.history ==> s.history[h].grant !in t.grants || s.history[h].expires <= now
  }

  predicate KeptCodes(s: Store, t: Store, now: int) {
    (forall h :: h in t.codes ==> (h in s.codes && t.codes[h] == s.codes[h]) || (h.raw == s.next < t.next && t.codes[h].used.None?)) &&
    forall h :: h in s.codes && h !in t.codes ==>
      s.codes[h].expires <= now || (s.codes[h].grant.Some? ==> s.codes[h].grant.value !in t.grants)
  }

  /** Rows may be deleted, grants revoked, a code issued; tokens stay as they are. */
  predicate Quiet(s: Store, t: Store, now: int) {
    s.next <= t.next && KeptGrants(s, t) && KeptHistory(s, t, now) && KeptCodes(s, t, now)
  }

  lemma QuietKeepsSpent(s: Store, t: Store, clock: int, now: int, e: Event)
    requires Tables(s, clock) && Quiet(s, t, now) && clock <= now && Recorded(s.next, e) && Spent(s, clock, e)
    ensures Spent(t, now, e)
  {
    match e.source
    case FromCode(code, deadline) =>
    case FromRefresh(token, deadline) =>
      if Digest(token) in s.history { assert PastRow(s, Digest(token), s.history[Digest(token)]); }
  }

  lemma QuietKeeps(y: System, t: Store, now: int)
    requires Inv(y) && Quiet(y.store, t, now) && y.clock <= now && Tables(t, now)
    ensures Inv(System(t, now, y.log))
  {
    forall h, g | h in t.history && g in t.grants ensures t.grants[g].refresh != h { assert SameTokens(y.store.grants[g], t.grants[g]); }
    forall i | 0 <= i < |y.log| ensures Spent(t, now, y.log[i]) { QuietKeepsSpent(y.store, t, y.clock, now, y.log[i]); }
    forall g | g in t.grants ensures Holds(y.log, g, t.grants[g]) { assert Holds(y.log, g, y.store.grants[g]); }
    forall i | 0 <= i < |y.log| ensures Recorded(t.next, y.log[i]) { assert Recorded(y.store.next, y.log[i]); }
  }

  lemma FewerClients(m: map<Id, Client>, gone: set<Id>)
    ensures |m - gone| <= |m|
  {
    assert (m - gone).Keys == m.Keys - gone;
    Subsets(m.Keys - gone, m.Keys);
  }

  lemma {:induction false} Subsets(a: set<Id>, b: set<Id>)
    requires a <= b
    ensures |a| <= |b|
    decreases |a|
  {
    if a != {} {
      var x :| x in a;
      Subsets(a - {x}, b - {x});
    }
  }

  lemma DropClientsQuiet(s: Store, clock: int, now: int, gone: set<Id>)
    requires Tables(s, clock) && clock <= now
    ensures Quiet(s, DropClients(s, gone), now) && Tables(DropClients(s, gone), now)
  {
    var t := DropClients(s, gone);
    FewerClients(s.clients, gone);
    forall h | h in s.codes ensures CodeRow(s, h, s.codes[h]) { }
    forall h | h in t.codes ensures CodeRow(t, h, t.codes[h]) { assert CodeRow(s, h, s.codes[h]); }
    forall g | g in t.grants ensures GrantRow(t, g, t.grants[g], now) { assert GrantRow(s, g, s.grants[g], clock); }
    forall h | h in t.history ensures PastRow(t, h, t.history[h]) { assert PastRow(s, h, s.history[h]); }
  }

  lemma DropUserQuiet(s: Store, clock: int, now: int, user: Id)
    requires Tables(s, clock) && clock <= now
    ensures Quiet(s, DropUser(s, user), now) && Tables(DropUser(s, user), now)
  {
    var t := DropUser(s, user);
    forall h | h in s.codes ensures CodeRow(s, h, s.codes[h]) { }
    forall h | h in t.codes ensures CodeRow(t, h, t.codes[h]) { assert CodeRow(s, h, s.codes[h]); }
    forall g | g in t.grants ensures GrantRow(t, g, t.grants[g], now) { assert GrantRow(s, g, s.grants[g], clock); }
    forall h | h in t.history ensures PastRow(t, h, t.history[h]) { assert PastRow(s, h, s.history[h]); }
  }

  lemma PruneQuiet(s: Store, clock: int, now: int)
    requires Tables(s, clock) && clock <= now
    ensures Quiet(s, Prune(s, now), now) && Tables(Prune(s, now), now)
  {
    var d := DropClients(s, Idle(s, now));
    DropClientsQuiet(s, clock, now, Idle(s, now));
    var t := PruneSpent(d, now);
    forall h | h in t.codes ensures CodeRow(t, h, t.codes[h]) { assert CodeRow(d, h, d.codes[h]); }
    forall g | g in t.grants ensures GrantRow(t, g, t.grants[g], now) { assert GrantRow(d, g, d.grants[g], now); }
    forall h | h in t.history ensures PastRow(t, h, t.history[h]) { assert PastRow(d, h, d.history[h]); }
  }

  lemma RegisterQuiet(s: Store, clock: int, now: int, redirects: Option<seq<string>>)
    requires Tables(s, clock) && clock <= now
    ensures var t := RegisterClient(s, now, redirects).0; Quiet(s, t, now) && Tables(t, now)
  {
    SameLater(s, clock, now);
    PruneQuiet(s, clock, now);
    var (t, p) := (RegisterClient(s, now, redirects).0, Prune(s, now));
    if t != s {
      forall h | h in t.codes ensures CodeRow(t, h, t.codes[h]) { assert CodeRow(p, h, p.codes[h]); }
      forall g | g in t.grants ensures GrantRow(t, g, t.grants[g], now) { assert GrantRow(p, g, p.grants[g], now); }
      forall h | h in t.history ensures PastRow(t, h, t.history[h]) { assert PastRow(p, h, p.history[h]); }
    }
  }

  lemma SameLater(s: Store, clock: int, now: int)
    requires Tables(s, clock) && clock <= now
    ensures Quiet(s, s, now) && Tables(s, now)
  {
    forall g | g in s.grants ensures GrantRow(s, g, s.grants[g], now) { assert GrantRow(s, g, s.grants[g], clock); }
  }

  /** Revocation changes nothing else. */
  predicate OnlyRevokes(s: Store, t: Store) {
    t == s.(grants := t.grants) && t.grants.Keys == s.grants.Keys && KeptGrants(s, t)
  }

  lemma RevocationQuiet(s: Store, t: Store, clock: int, now: int)
    requires Tables(s, clock) && clock <= now && OnlyRevokes(s, t)
    ensures Quiet(s, t, now) && Tables(t, now)
  {
    forall h | h in t.codes ensures CodeRow(t, h, t.codes[h]) {
      assert CodeRow(s, h, s.codes[h]);
      var c := t.codes[h];
      if c.grant.Some? && c.grant.value in t.grants { assert SameTokens(s.grants[c.grant.value], t.grants[c.grant.value]); }
    }
    forall g | g in t.grants ensures GrantRow(t, g, t.grants[g], now) {
      assert GrantRow(s, g, s.grants[g], clock);
      assert SameTokens(s.grants[g], t.grants[g]);
    }
    forall h | h in t.history ensures PastRow(t, h, t.history[h]) {
      assert PastRow(s, h, s.history[h]);
      assert SameTokens(s.grants[t.history[h].grant], t.grants[t.history[h].grant]);
    }
  }

  lemma IssueCodeQuiet(setup: Setup, s: Store, clock: int, now: int, client: Id, user: Id, redirect: string,
                       challenge: string, resource: string, scope: string)
    requires Tables(s, clock) && clock <= now
    ensures var t := IssueCode(setup, s, now, client, user, redirect, challenge, resource, scope).0; Quiet(s, t, now) && Tables(t, now)
  {
    SameLater(s, clock, now);
    var t := IssueCode(setup, s, now, client, user, redirect, challenge, resource, scope).0;
    if t != s {
      forall h | h in t.codes ensures CodeRow(t, h, t.codes[h]) { if h.raw != s.next { assert CodeRow(s, h, s.codes[h]); } }
      forall g | g in t.grants ensures GrantRow(t, g, t.grants[g], now) { assert GrantRow(s, g, s.grants[g], clock); }
      forall h | h in t.history ensures PastRow(t, h, t.history[h]) { assert PastRow(s, h, s.history[h]); }
      if Digest(s.next) in s.codes { assert CodeRow(s, Digest(s.next), s.codes[Digest(s.next)]); }
    }
  }

  lemma SetUserQuiet(s: Store, clock: int, now: int, user: Id, active: bool)
    requires Tables(s, clock) && clock <= now
    ensures var t := s.(users := s.users[user := active]); Quiet(s, t, now) && Tables(t, now)
  {
    var t := s.(users := s.users[user := active]);
    forall h | h in t.codes ensures CodeRow(t, h, t.codes[h]) { assert CodeRow(s, h, s.codes[h]); }
    forall g | g in t.grants ensures GrantRow(t, g, t.grants[g], now) { assert GrantRow(s, g, s.grants[g], clock); }
    forall h | h in t.history ensures PastRow(t, h, t.history[h]) { assert PastRow(s, h, s.history[h]); }
  }

  // ------------------------------------------------------------------ steps that issue tokens

  lemma LastAppend(log: seq<Event>, e: Event, grant: Id)
    ensures Last(log + [e], grant) == if e.grant == grant then Some(e) else Last(log, grant)
  {
    assert (log + [e])[..|log|] == log;
  }

  lemma {:induction false} LastIn(log: seq<Event>, grant: Id) returns (i: nat)
    requires Last(log, grant).Some?
    ensures i < |log| && log[i] == Last(log, grant).value && log[i].grant == grant
    decreases |log|
  {
    if log[|log| - 1].grant == grant { i := |log| - 1; } else { i := LastIn(log[..|log| - 1], grant); }
  }

  /** The digest columns are unique, as the table demands. */
  lemma TokensDiffer(y: System, g: Id, k: Id)
    requires Inv(y) && g in y.store.grants && k in y.store.grants && g != k
    ensures y.store.grants[g].access != y.store.grants[k].access
    ensures y.store.grants[g].refresh != y.store.grants[k].refresh
  {
    assert Holds(y.log, g, y.store.grants[g]) && Holds(y.log, k, y.store.grants[k]);
    var i := LastIn(y.log, g);
    var j := LastIn(y.log, k);
    assert Recorded(y.store.next, y.log[i]) && Recorded(y.store.next, y.log[j]);
    if i < j { } else if j < i { }
  }

  lemma TouchTables(s: Store, client: Id, now: int)
    requires Tables(s, now)
    ensures Tables(Touch(s, client, now), now)
    ensures Touch(s, client, now) == s.(clients := Touch(s, client, now).clients)
  {
    var t := Touch(s, client, now);
    assert t.clients.Keys == s.clients.Keys;
    assert |t.clients| == |t.clients.Keys| == |s.clients.Keys| == |s.clients|;
    forall h | h in t.codes ensures CodeRow(t, h, t.codes[h]) { assert CodeRow(s, h, s.codes[h]); }
    forall g | g in t.grants ensures GrantRow(t, g, t.grants[g], now) { assert GrantRow(s, g, s.grants[g], now); }
    forall h | h in t.history ensures PastRow(t, h, t.history[h]) { assert PastRow(s, h, s.history[h]); }
  }

  predicate Issuable(s: Store, c: Code, h: Digest, now: int) {
    h in s.codes && s.codes[h] == c && now < c.expires && c.used.None? && c.client in s.clients && c.user in s.users
  }

  /** The state after a code was exchanged. */
  function Exchanged(setup: Setup, s: Store, c: Code, h: Digest, now: int): Store {
    Touch(s.(grants := s.grants[s.next + 2 := NewGrant(setup, s, c, now)],
             codes := s.codes[h := c.(used := Some(now), grant := Some(s.next + 2))], next := s.next + 3), c.client, now)
  }

  lemma ExchangedTables(setup: Setup, s: Store, c: Code, h: Digest, clock: int, now: int)
    requires Tables(s, clock) && clock <= now && Issuable(s, c, h, now)
    ensures Tables(Exchanged(setup, s, c, h, now), now)
  {
    SameLater(s, clock, now);
    TouchTables(s, c.client, now);
    var (k, t) := (Touch(s, c.client, now), Exchanged(setup, s, c, h, now));
    assert t == k.(grants := k.grants[s.next + 2 := NewGrant(setup, s, c, now)],
                   codes := k.codes[h := c.(used := Some(now), grant := Some(s.next + 2))], next := s.next + 3);
    forall i | i in t.codes ensures CodeRow(t, i, t.codes[i]) { assert CodeRow(k, i, k.codes[i]); }
    forall g | g in t.grants ensures GrantRow(t, g, t.grants[g], now) {
      if g != s.next + 2 { assert GrantRow(k, g, k.grants[g], now); }
    }
    forall i | i in t.history ensures PastRow(t, i, t.history[i]) { assert PastRow(k, i, k.history[i]); }
  }

  lemma IssueOrder(log: seq<Event>, e: Event, next: Id, after: Id)
    requires Growing(log, next) && next <= e.access && Recorded(after, e) && next <= after
    ensures Growing(log + [e], after)
  {
    var all := log + [e];
    forall i | 0 <= i < |all| ensures Recorded(after, all[i]) { if i < |log| { assert Recorded(next, log[i]); } }
    forall i, j | 0 <= i < j < |all| ensures all[i].refresh < all[j].access {
      if j == |log| { assert Recorded(next, log[i]); }
    }
  }

  lemma SourceOrder(log: seq<Event>, e: Event)
    requires SourcesOnce(log) && forall i :: 0 <= i < |log| ==> !SameSource(log[i].source, e.source)
    ensures SourcesOnce(log + [e])
  {
    var all := log + [e];
    forall i, j | 0 <= i < j < |all| ensures !SameSource(all[i].source, all[j].source) { }
  }

  lemma ExchangedKeeps(setup: Setup, y: System, c: Code, h: Digest, now: int)
    requires Inv(y) && y.clock <= now && Issuable(y.store, c, h, now)
    ensures var s := y.store;
      Inv(System(Exchanged(setup, s, c, h, now), now, y.log + [Event(FromCode(h.raw, c.expires), s.next + 2, s.next, s.next + 1, now)]))
  {
    var s := y.store;
    var t := Exchanged(setup, s, c, h, now);
    var e := Event(FromCode(h.raw, c.expires), s.next + 2, s.next, s.next + 1, now);
    ExchangedTables(setup, s, c, h, y.clock, now);
    IssueOrder(y.log, e, s.next, t.next);
    assert CodeRow(s, h, c);
    forall i | 0 <= i < |y.log| ensures !SameSource(y.log[i].source, e.source) && Spent(t, now, y.log[i]) {
      assert Spent(s, y.clock, y.log[i]) && Recorded(s.next, y.log[i]);
      assert y.log[i].grant != s.next + 2;
    }
    SourceOrder(y.log, e);
    assert AllSpent(t, now, y.log + [e]);
    forall i, g | i in t.history && g in t.grants ensures t.grants[g].refresh != i { assert PastRow(s, i, s.history[i]); }
    forall g | g in t.grants ensures Holds(y.log + [e], g, t.grants[g]) {
      LastAppend(y.log, e, g);
      if g != s.next + 2 { assert Holds(y.log, g, s.grants[g]); }
    }
  }

  predicate Rotatable(s: Store, id: Id, h: Digest, now: int) {
    HasRefresh(s.grants, id, h) && now < s.grants[id].refreshExpires && h !in s.history
  }

  lemma RotatedTables(s: Store, id: Id, h: Digest, clock: int, now: int)
    requires Tables(s, clock) && clock <= now && Rotatable(s, id, h, now)
    ensures Tables(Rotate(s, now, id, s.grants[id].client).0, now)
  {
    SameLater(s, clock, now);
    var client := s.grants[id].client;
    TouchTables(s, client, now);
    var (k, t) := (Touch(s, client, now), Rotate(s, now, id, client).0);
    assert GrantRow(k, id, s.grants[id], now);
    forall i | i in t.codes ensures CodeRow(t, i, t.codes[i]) { assert CodeRow(k, i, k.codes[i]); }
    forall g | g in t.grants ensures GrantRow(t, g, t.grants[g], now) { assert GrantRow(k, g, k.grants[g], now); }
    forall i | i in t.history ensures PastRow(t, i, t.history[i]) { if i != h { assert PastRow(k, i, k.history[i]); } }
  }

  lemma RotatedKeeps(y: System, id: Id, h: Digest, now: int)
    requires Inv(y) && y.clock <= now && Rotatable(y.store, id, h, now)
    ensures var s := y.store;
      Inv(System(Rotate(s, now, id, s.grants[id].client).0, now,
                 y.log + [Event(FromRefresh(h.raw, s.grants[id].refreshExpires), id, s.next, s.next + 1, now)]))
  {
    var s := y.store;
    var t := Rotate(s, now, id, s.grants[id].client).0;
    var e := Event(FromRefresh(h.raw, s.grants[id].refreshExpires), id, s.next, s.next + 1, now);
    RotatedTables(s, id, h, y.clock, now);
    assert GrantRow(s, id, s.grants[id], y.clock);
    IssueOrder(y.log, e, s.next, t.next);
    forall i | 0 <= i < |y.log| ensures !SameSource(y.log[i].source, e.source) && Spent(t, now, y.log[i]) {
      assert Spent(s, y.clock, y.log[i]) && Recorded(s.next, y.log[i]);
    }
    SourceOrder(y.log, e);
    forall g | g in t.grants ensures t.grants[g].refresh != h {
      if g != id { TokensDiffer(y, g, id); }
    }
    forall i, g | i in t.history && g in t.grants ensures t.grants[g].refresh != i {
      if i != h { assert PastRow(s, i, s.history[i]); }
    }
    assert Spent(t, now, e);
    assert AllSpent(t, now, y.log + [e]);
    forall g | g in t.grants ensures Holds(y.log + [e], g, t.grants[g]) {
      LastAppend(y.log, e, g);
      if g != id { assert Holds(y.log, g, s.grants[g]); }
    }
  }

  // ------------------------------------------------------------------ every request keeps the invariant

  lemma RevocationKeeps(y: System, t: Store, now: int)
    requires Inv(y) && y.clock <= now && OnlyRevokes(y.store, t)
    ensures Inv(System(t, now, y.log))
  {
    RevocationQuiet(y.store, t, y.clock, now);
    QuietKeeps(y, t, now);
  }

  lemma ExchangeRefused(setup: Setup, s: Store, now: int, r: Request)
    requires r.Exchange? && !Handle(setup, s, now, r).1.TokensIssued?
    ensures OnlyRevokes(s, Handle(setup, s, now, r).0) && Issue(setup, s, now, r) == []
  {
  }

  lemma ExchangeGranted(setup: Setup, s: Store, now: int, r: Request)
    requires r.Exchange? && Handle(setup, s, now, r).1.TokensIssued?
    ensures var h := Digest(r.code);
      h in s.codes && Issuable(s, s.codes[h], h, now) && Handle(setup, s, now, r).0 == Exchanged(setup, s, s.codes[h], h, now) &&
      Issue(setup, s, now, r) == [Event(FromCode(r.code, s.codes[h].expires), s.next + 2, s.next, s.next + 1, now)]
  {
  }

  lemma ExchangeKeeps(setup: Setup, y: System, now: int, r: Request)
    requires Inv(y) && y.clock <= now && r.Exchange?
    ensures Inv(System(Handle(setup, y.store, now, r).0, now, y.log + Issue(setup, y.store, now, r)))
  {
    if Handle(setup, y.store, now, r).1.TokensIssued? {
      ExchangeGranted(setup, y.store, now, r);
      ExchangedKeeps(setup, y, y.store.codes[Digest(r.code)], Digest(r.code), now);
    } else {
      ExchangeRefused(setup, y.store, now, r);
      assert y.log + [] == y.log;
      RevocationKeeps(y, Handle(setup, y.store, now, r).0, now);
    }
  }

  lemma RefreshRefused(setup: Setup, s: Store, now: int, r: Request)
    requires r.Refresh? && !Handle(setup, s, now, r).1.TokensIssued?
    ensures OnlyRevokes(s, Handle(setup, s, now, r).0) && Issue(setup, s, now, r) == []
  {
  }

  lemma RefreshGranted(setup: Setup, s: Store, now: int, r: Request)
    requires r.Refresh? && Handle(setup, s, now, r).1.TokensIssued?
    ensures var id := FindRefresh(s.grants, Digest(r.token));
      id.Some? && Rotatable(s, id.value, Digest(r.token), now) &&
      Handle(setup, s, now, r).0 == Rotate(s, now, id.value, s.grants[id.value].client).0 &&
      Issue(setup, s, now, r) ==
        [Event(FromRefresh(r.token, s.grants[id.value].refreshExpires), id.value, s.next, s.next + 1, now)]
  {
  }

  lemma RefreshKeeps(setup: Setup, y: System, now: int, r: Request)
    requires Inv(y) && y.clock <= now && r.Refresh?
    ensures Inv(System(Handle(setup, y.store, now, r).0, now, y.log + Issue(setup, y.store, now, r)))
  {
    if Handle(setup, y.store, now, r).1.TokensIssued? {
      RefreshGranted(setup, y.store, now, r);
      RotatedKeeps(y, FindRefresh(y.store.grants, Digest(r.token)).value, Digest(r.token), now);
    } else {
      RefreshRefused(setup, y.store, now, r);
      assert y.log + [] == y.log;
      RevocationKeeps(y, Handle(setup, y.store, now, r).0, now);
    }
  }

  predicate IssuesNothing(r: Request) { !r.Exchange? && !r.Refresh? }

  lemma RequestQuiet(setup: Setup, s: Store, clock: int, now: int, r: Request)
    requires Tables(s, clock) && clock <= now && IssuesNothing(r)
    ensures var t := Handle(setup, s, now, r).0; Quiet(s, t, now) && Tables(t, now)
  {
    match r
    case Register(redirects) => RegisterQuiet(s, clock, now, redirects);
    case Authorize(a, b, c, d, e, f) => IssueCodeQuiet(setup, s, clock, now, a, b, c, d, e, f);
    case RevokeUser(user) =>
      if user == 0 { SameLater(s, clock, now); } else { RevocationQuiet(s, RevokeAll(s, user, now), clock, now); }
    case SetUser(user, None) => DropUserQuiet(s, clock, now, user);
    case SetUser(user, Some(active)) => SetUserQuiet(s, clock, now, user, active);
  }

  lemma StepKeeps(setup: Setup, y: System, r: Timed)
    requires Inv(y)
    ensures Inv(Step(setup, y, r))
  {
    var now := Later(y, r);
    if r.request.Exchange? {
      ExchangeKeeps(setup, y, now, r.request);
    } else if r.request.Refresh? {
      RefreshKeeps(setup, y, now, r.request);
    } else {
      RequestQuiet(setup, y.store, y.clock, now, r.request);
      QuietKeeps(y, Handle(setup, y.store, now, r.request).0, now);
      assert Issue(setup, y.store, now, r.request) == [];
      assert y.log + [] == y.log;
    }
  }

  lemma {:induction false} RunKeeps(setup: Setup, y: System, rs: seq<Timed>)
    requires Inv(y)
    ensures Inv(Run(setup, y, rs))
    decreases |rs|
  {
    if rs != [] {
      RunKeeps(setup, y, rs[..|rs| - 1]);
      StepKeeps(setup, Run(setup, y, rs[..|rs| - 1]), rs[|rs| - 1]);
    }
  }
}
