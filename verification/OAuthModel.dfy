/**
 The OAuth store: dynamic clients, one-time authorization codes, grants with their current token pair, and the history
 of rotated refresh tokens. Times are whole seconds. Every request is one transaction on four tables.
 */
module OAuthModel {
  import opened Names
  import opened Wrappers

  const CODE_TTL := 10 * 60
  const ACCESS_TTL := 60 * 60
  const REFRESH_TTL := 90 * 24 * 60 * 60
  const CLIENT_IDLE_TTL := 180 * 24 * 60 * 60
  const CLIENT_LIMIT := 1000

  /** Identifiers and secrets come from one supply of unused numbers; 0 stands for a blank string. */
  type Id = nat

  /** Secrets are stored only as digests; different secrets have different digests. */
  datatype Digest = Digest(raw: Id)

  datatype Client = Client(redirects: seq<string>, lastUsed: int)

  datatype Code = Code(
    client: Id, user: Id, redirect: string, challenge: string, resource: string, scope: string,
    expires: int, used: Option<int>, grant: Option<Id>)

  datatype Grant = Grant(
    client: Id, user: Id, resource: string, scope: string, access: Digest, refresh: Digest,
    accessExpires: int, refreshExpires: int, created: int, revoked: Option<int>)
  {
    predicate Live() { revoked.None? }
  }

  /** A rotated refresh token. */
  datatype Past = Past(grant: Id, expires: int)

  /** users: the existing users, and whether each is active. next: the supply of unused numbers. */
  datatype Store = Store(
    clients: map<Id, Client>, users: map<Id, bool>, codes: map<Digest, Code>, grants: map<Id, Grant>,
    history: map<Digest, Past>, next: Id)

  const Fresh := Store(map[], map[], map[], map[], map[], 1)

  /** Functions of other packages: the canonical form of a resource URI, the S256 challenge, the scope normal form. */
  datatype Setup = Setup(canon: string -> Option<string>, challenge: string -> string, scope: string -> string)
  {
    predicate SameResource(left: string, right: string) { canon(left).Some? && canon(left) == canon(right) }
  }

  datatype Issued = Issued(
    access: Id, refresh: Id, accessExpires: int, refreshExpires: int, scope: string, user: Id, client: Id, resource: string)

  datatype Access = Access(grant: Id, user: Id, client: Id, resource: string, scope: string, expires: int)

  predicate PkceChar(c: char) {
    'A' <= c <= 'Z' || 'a' <= c <= 'z' || '0' <= c <= '9' || c == '.' || c == '_' || c == '~' || c == '-'
  }

  predicate ValidPkce(value: string) { 43 <= |value| <= 128 && forall i :: 0 <= i < |value| ==> PkceChar(value[i]) }

  // ------------------------------------------------------------------ requests

  datatype Request =
    /** redirects: the normalised redirect URIs, or None when the client metadata are refused. */
    | Register(redirects: Option<seq<string>>)
    | Authorize(client: Id, user: Id, redirect: string, challenge: string, resource: string, scope: string)
    | Exchange(client: Id, code: Id, redirect: string, verifier: string, resource: string)
    | Refresh(client: Id, token: Id, resource: string)
    | RevokeUser(user: Id)
    /** The user table is kept elsewhere: a user appears, changes status, or is deleted. */
    | SetUser(user: Id, status: Option<bool>)

  datatype Reply = Refused | Registered(id: Id) | CodeIssued(code: Id) | TokensIssued(tokens: Issued) | Done

  // ------------------------------------------------------------------ deletions and revocations

  /** Deleting clients deletes their codes and grants, and with the grants their history. */
  function DropClients(s: Store, gone: set<Id>): Store {
    var grants := map g | g in s.grants && s.grants[g].client !in gone :: s.grants[g];
    s.(clients := s.clients - gone,
       codes := map h | h in s.codes && s.codes[h].client !in gone :: s.codes[h],
       grants := grants,
       history := map h | h in s.history && s.history[h].grant in grants :: s.history[h])
  }

  function DropUser(s: Store, user: Id): Store {
    var grants := map g | g in s.grants && s.grants[g].user != user :: s.grants[g];
    s.(users := s.users - {user},
       codes := map h | h in s.codes && s.codes[h].user != user :: s.codes[h],
       grants := grants,
       history := map h | h in s.history && s.history[h].grant in grants :: s.history[h])
  }

  /** The first revocation time is kept. */
  function Revoked(g: Grant, now: int): Grant { if g.Live() then g.(revoked := Some(now)) else g }

  function Revoke(s: Store, id: Id, now: int): Store {
    if id in s.grants then s.(grants := s.grants[id := Revoked(s.grants[id], now)]) else s
  }

  function RevokeAll(s: Store, user: Id, now: int): Store {
    s.(grants := map g | g in s.grants :: if s.grants[g].user == user then Revoked(s.grants[g], now) else s.grants[g])
  }

  function Touch(s: Store, client: Id, now: int): Store {
    if client in s.clients then s.(clients := s.clients[client := s.clients[client].(lastUsed := now)]) else s
  }

  // ------------------------------------------------------------------ registration and pruning

  function Idle(s: Store, now: int): set<Id> {
    set c | c in s.clients && s.clients[c].lastUsed < now - CLIENT_IDLE_TTL
  }

  function PruneSpent(s: Store, now: int): Store {
    s.(codes := map h | h in s.codes && now < s.codes[h].expires :: s.codes[h],
       history := map h | h in s.history && now < s.history[h].expires :: s.history[h])
  }

  function Prune(s: Store, now: int): Store { PruneSpent(DropClients(s, Idle(s, now)), now) }

  /** At the limit the transaction is rolled back, and the pruning with it. */
  function RegisterClient(s: Store, now: int, redirects: Option<seq<string>>): (Store, Reply) {
    if redirects.None? then (s, Refused)
    else
      var p := Prune(s, now);
      if |p.clients| >= CLIENT_LIMIT then (s, Refused)
      else (p.(clients := p.clients[s.next := Client(redirects.value, now)], next := s.next + 1), Registered(s.next))
  }

  // ------------------------------------------------------------------ codes

  function IssueCode(
    setup: Setup, s: Store, now: int, client: Id, user: Id, redirect: string, challenge: string, resource: string, scope: string)
    : (Store, Reply)
  {
    if user == 0 || client == 0 || Trim(resource) == "" || !ValidPkce(challenge) then (s, Refused)
    else if client !in s.clients || redirect !in s.clients[client].redirects || user !in s.users then (s, Refused)
    else
      var code := Code(client, user, redirect, challenge, resource, setup.scope(scope), now + CODE_TTL, None, None);
      (s.(codes := s.codes[Digest(s.next) := code], next := s.next + 1), CodeIssued(s.next))
  }

  /** What a presented code has to match besides being known. */
  predicate Matches(setup: Setup, c: Code, now: int, client: Id, redirect: string, verifier: string, resource: string) {
    now < c.expires && c.client == client && c.redirect == redirect && setup.SameResource(c.resource, resource) &&
    setup.challenge(verifier) == c.challenge
  }

  /** The new pair is next and next + 1, the grant is next + 2. */
  function NewGrant(setup: Setup, s: Store, c: Code, now: int): Grant {
    Grant(c.client, c.user, c.resource, setup.scope(c.scope), Digest(s.next), Digest(s.next + 1),
          now + ACCESS_TTL, now + REFRESH_TTL, now, None)
  }

  function ExchangeCode(
    setup: Setup, s: Store, now: int, client: Id, code: Id, redirect: string, verifier: string, resource: string)
    : (Store, Reply)
  {
    var h := Digest(code);
    if !ValidPkce(verifier) || h !in s.codes then (s, Refused)
    else
      var c := s.codes[h];
      if !Matches(setup, c, now, client, redirect, verifier, resource) then (s, Refused)
      else if c.used.Some? then
        (if c.grant.Some? && c.grant.value != 0 then Revoke(s, c.grant.value, now) else s, Refused)
      else if c.client !in s.clients || c.user !in s.users then (s, Refused)
      else
        var g := NewGrant(setup, s, c, now);
        var marked := s.(grants := s.grants[s.next + 2 := g],
                         codes := s.codes[h := c.(used := Some(now), grant := Some(s.next + 2))], next := s.next + 3);
        (Touch(marked, client, now),
         TokensIssued(Issued(s.next, s.next + 1, g.accessExpires, g.refreshExpires, g.scope, g.user, g.client, g.resource)))
  }

  // ------------------------------------------------------------------ refresh

  predicate HasRefresh(grants: map<Id, Grant>, g: Id, h: Digest) { g in grants && grants[g].refresh == h && grants[g].Live() }

  /** The live grant whose current refresh token this is; the digest column is unique. */
  ghost function FindRefresh(grants: map<Id, Grant>, h: Digest): (r: Option<Id>)
    ensures r.Some? ==> HasRefresh(grants, r.value, h)
    ensures r.None? ==> forall g :: !HasRefresh(grants, g, h)
  {
    if exists g :: HasRefresh(grants, g, h) then var g :| HasRefresh(grants, g, h); Some(g) else None
  }

  predicate IsReplay(setup: Setup, s: Store, now: int, client: Id, h: Digest, resource: string) {
    h in s.history && now < s.history[h].expires && s.history[h].grant in s.grants &&
    s.grants[s.history[h].grant].client == client && setup.SameResource(s.grants[s.history[h].grant].resource, resource)
  }

  ghost function RefreshToken(setup: Setup, s: Store, now: int, client: Id, token: Id, resource: string): (Store, Reply) {
    var h := Digest(token);
    match FindRefresh(s.grants, h)
    case None =>
      (if IsReplay(setup, s, now, client, h, resource) then Revoke(s, s.history[h].grant, now) else s, Refused)
    case Some(id) =>
      var g := s.grants[id];
      if g.client != client || !setup.SameResource(g.resource, resource) || g.refreshExpires <= now || h in s.history
      then (s, Refused)
      else Rotate(s, now, id, client)
  }

  /** The new pair is next and next + 1; the refresh deadline stays. */
  function Rotate(s: Store, now: int, id: Id, client: Id): (Store, Reply)
    requires id in s.grants
  {
    var g := s.grants[id];
    var rotated := s.(
      grants := s.grants[id := g.(access := Digest(s.next), refresh := Digest(s.next + 1), accessExpires := now + ACCESS_TTL)],
      history := s.history[g.refresh := Past(id, g.refreshExpires)], next := s.next + 2);
    (Touch(rotated, client, now),
     TokensIssued(Issued(s.next, s.next + 1, now + ACCESS_TTL, g.refreshExpires, g.scope, g.user, client, g.resource)))
  }

  // ------------------------------------------------------------------ access

  predicate HasAccess(users: map<Id, bool>, grants: map<Id, Grant>, g: Id, h: Digest) {
    g in grants && grants[g].access == h && grants[g].Live() && grants[g].user in users && users[grants[g].user]
  }

  ghost function FindAccess(users: map<Id, bool>, grants: map<Id, Grant>, h: Digest): (r: Option<Id>)
    ensures r.Some? ==> HasAccess(users, grants, r.value, h)
    ensures r.None? ==> forall g :: !HasAccess(users, grants, g, h)
  {
    if exists g :: HasAccess(users, grants, g, h) then var g :| HasAccess(users, grants, g, h); Some(g) else None
  }

  ghost function Authenticate(setup: Setup, s: Store, now: int, token: Id, resource: string): Option<Access> {
    if token == 0 then None
    else
      match FindAccess(s.users, s.grants, Digest(token))
      case None => None
      case Some(id) =>
        var g := s.grants[id];
        if !setup.SameResource(g.resource, resource) || g.accessExpires <= now then None
        else Some(Access(id, g.user, g.client, g.resource, g.scope, g.accessExpires))
  }

  // ------------------------------------------------------------------ one request

  ghost function Handle(setup: Setup, s: Store, now: int, r: Request): (Store, Reply) {
    match r
    case Register(redirects) => RegisterClient(s, now, redirects)
    case Authorize(client, user, redirect, challenge, resource, scope) =>
      IssueCode(setup, s, now, client, user, redirect, challenge, resource, scope)
    case Exchange(client, code, redirect, verifier, resource) =>
      ExchangeCode(setup, s, now, client, code, redirect, verifier, resource)
    case Refresh(client, token, resource) => RefreshToken(setup, s, now, client, token, resource)
    case RevokeUser(user) => (if user == 0 then s else RevokeAll(s, user, now), Done)
    case SetUser(user, None) => (DropUser(s, user), Done)
    case SetUser(user, Some(active)) => (s.(users := s.users[user := active]), Done)
  }
}
