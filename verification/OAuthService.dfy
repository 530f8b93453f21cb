/** The service object: each method is one transaction that updates the tables in place. */
module OAuthService {
  import opened Names
  import opened Wrappers
  import opened OAuthModel

  function IdleSince(clients: map<Id, Client>, cutoff: int): set<Id> {
    set c | c in clients && clients[c].lastUsed < cutoff
  }

  predicate UniqueTokens(grants: map<Id, Grant>, next: Id) {
    (forall g :: g in grants ==> grants[g].access.raw < next && grants[g].refresh.raw < next) &&
    forall g, k :: g in grants && k in grants && g != k ==>
      grants[g].access != grants[k].access && grants[g].refresh != grants[k].refresh
  }

  lemma PruneUnique(s: Store, now: int)
    requires UniqueTokens(s.grants, s.next)
    ensures UniqueTokens(Prune(s, now).grants, s.next + 1)
  {
  }

  lemma RevokedUnique(s: Store, user: Id, now: int)
    requires UniqueTokens(s.grants, s.next)
    ensures UniqueTokens(RevokeAll(s, user, now).grants, s.next)
  {
    var t := RevokeAll(s, user, now).grants;
    forall g | g in t ensures t[g].access == s.grants[g].access && t[g].refresh == s.grants[g].refresh { }
  }

  class Service {
    const setup: Setup
    var clients: map<Id, Client>
    var users: map<Id, bool>
    var codes: map<Digest, Code>
    var grants: map<Id, Grant>
    var history: map<Digest, Past>
    var next: Id

    function State(): Store
      reads this
    {
      Store(clients, users, codes, grants, history, next)
    }

    /** The digest columns are unique, and secrets that were not drawn yet are not stored. */
    predicate Valid()
      reads this
    {
      UniqueTokens(grants, next)
    }

    constructor (setup: Setup)
      ensures Valid() && this.setup == setup && State() == Fresh
    {
      this.setup := setup;
      clients, users, codes, grants, history, next := map[], map[], map[], map[], map[], 1;
    }

    method NewSecret() returns (raw: Id)
      modifies this`next
      ensures raw == old(next) && next == old(next) + 1
    {
      raw := next;
      next := next + 1;
    }

    /** Deletes with their dependent rows the clients that were not used for the idle time. */
    method DeleteIdleClients(cutoff: int)
      modifies this`clients, this`codes, this`grants, this`history
      ensures State() == DropClients(old(State()), IdleSince(old(clients), cutoff))
    {
      var gone := IdleSince(clients, cutoff);
      clients := clients - gone;
      codes := map h | h in codes && codes[h].client !in gone :: codes[h];
      grants := map g | g in grants && grants[g].client !in gone :: grants[g];
      history := map h | h in history && history[h].grant in grants :: history[h];
    }

    method DeleteSpent(now: int)
      modifies this`codes, this`history
      ensures State() == PruneSpent(old(State()), now)
    {
      codes := map h | h in codes && now < codes[h].expires :: codes[h];
      history := map h | h in history && now < history[h].expires :: history[h];
    }

    method PruneStale(now: int)
      modifies this`clients, this`codes, this`grants, this`history
      ensures State() == Prune(old(State()), now)
    {
      ghost var before := State();
      DeleteIdleClients(now - CLIENT_IDLE_TTL);
      assert IdleSince(before.clients, now - CLIENT_IDLE_TTL) == Idle(before, now);
      DeleteSpent(now);
    }

    /** Dynamic registration prunes first; when the table is full everything is rolled back. */
    method RegisterClient(now: int, redirects: Option<seq<string>>) returns (reply: Reply)
      requires Valid()
      modifies this
      ensures Valid()
      ensures State() == OAuthModel.RegisterClient(old(State()), now, redirects).0
      ensures reply == OAuthModel.RegisterClient(old(State()), now, redirects).1
    {
      if redirects.None? { return Refused; }
      ghost var before := State();
      ghost var p := Prune(before, now);
      PruneUnique(before, now);
      var oldClients, oldCodes, oldGrants, oldHistory := clients, codes, grants, history;
      PruneStale(now);
      if |clients| >= CLIENT_LIMIT {
        clients, codes, grants, history := oldClients, oldCodes, oldGrants, oldHistory;
        assert State() == before;
        return Refused;
      }
      assert State() == p;
      var id := next;
      next := next + 1;
      clients := clients[id := Client(redirects.value, now)];
      reply := Registered(id);
      assert State() == p.(clients := p.clients[p.next := Client(redirects.value, now)], next := p.next + 1);
    }

    method IssueAuthorizationCode(
      now: int, client: Id, user: Id, redirect: string, challenge: string, resource: string, scope: string)
      returns (reply: Reply)
      requires Valid()
      modifies this`codes, this`next
      ensures Valid()
      ensures (State(), reply) == IssueCode(setup, old(State()), now, client, user, redirect, challenge, resource, scope)
    {
      if user == 0 || client == 0 || Trim(resource) == "" { return Refused; }
      if !ValidPkce(challenge) { return Refused; }
      if client !in clients || redirect !in clients[client].redirects { return Refused; }
      if user !in users { return Refused; }
      var raw := NewSecret();
      codes := codes[Digest(raw) :=
        Code(client, user, redirect, challenge, resource, setup.scope(scope), now + CODE_TTL, None, None)];
      return CodeIssued(raw);
    }

    method TouchClient(client: Id, now: int)
      modifies this`clients
      ensures State() == Touch(old(State()), client, now)
    {
      if client in clients { clients := clients[client := clients[client].(lastUsed := now)]; }
    }

    method RevokeGrant(id: Id, now: int)
      modifies this`grants
      ensures State() == Revoke(old(State()), id, now)
    {
      if id in grants && grants[id].revoked.None? { grants := grants[id := grants[id].(revoked := Some(now))]; }
    }

    /** A first use issues a grant; a full replay revokes the grant issued then. */
    method ExchangeAuthorizationCode(now: int, client: Id, raw: Id, redirect: string, verifier: string, resource: string)
      returns (reply: Reply)
      requires Valid()
      modifies this
      ensures Valid()
      ensures (State(), reply) == ExchangeCode(setup, old(State()), now, client, raw, redirect, verifier, resource)
    {
      if !ValidPkce(verifier) { return Refused; }
      var h := Digest(raw);
      if h !in codes { return Refused; }
      var record := codes[h];
      if record.expires <= now || record.client != client || record.redirect != redirect ||
         !setup.SameResource(record.resource, resource) || setup.challenge(verifier) != record.challenge
      {
        return Refused;
      }
      if record.used.Some? {
        if record.grant.Some? && record.grant.value != 0 { RevokeGrant(record.grant.value, now); }
        return Refused;
      }
      if record.client !in clients || record.user !in users { return Refused; }
      var access := NewSecret();
      var refresh := NewSecret();
      var id := NewSecret();
      var grant := Grant(record.client, record.user, record.resource, setup.scope(record.scope), Digest(access), Digest(refresh),
                         now + ACCESS_TTL, now + REFRESH_TTL, now, None);
      grants := grants[id := grant];
      codes := codes[h := record.(used := Some(now), grant := Some(id))];
      TouchClient(client, now);
      return TokensIssued(
        Issued(access, refresh, grant.accessExpires, grant.refreshExpires, grant.scope, grant.user, grant.client, grant.resource));
    }

    /** Rotates the pair of a live grant; a rotated token that comes back revokes its family. */
    method RefreshTokens(now: int, client: Id, raw: Id, resource: string) returns (reply: Reply)
      requires Valid()
      modifies this
      ensures Valid()
      ensures (State(), reply) == RefreshToken(setup, old(State()), now, client, raw, resource)
    {
      var h := Digest(raw);
      if !exists g :: g in grants && HasRefresh(grants, g, h) {
        if h in history && now < history[h].expires && history[h].grant in grants {
          var replayed := grants[history[h].grant];
          if replayed.client == client && setup.SameResource(replayed.resource, resource) { RevokeGrant(history[h].grant, now); }
        }
        return Refused;
      }
      var id :| id in grants && HasRefresh(grants, id, h);
      var g := grants[id];
      if g.client != client || !setup.SameResource(g.resource, resource) { return Refused; }
      if g.refreshExpires <= now { return Refused; }
      if h in history { return Refused; }
      var access := NewSecret();
      var refresh := NewSecret();
      history := history[h := Past(id, g.refreshExpires)];
      grants := grants[id := g.(access := Digest(access), refresh := Digest(refresh), accessExpires := now + ACCESS_TTL)];
      TouchClient(client, now);
      return TokensIssued(Issued(access, refresh, now + ACCESS_TTL, g.refreshExpires, g.scope, g.user, client, g.resource));
    }

    /** Looks an access token up; nothing changes. */
    method AuthenticateAccess(now: int, raw: Id, resource: string) returns (access: Option<Access>)
      requires Valid()
      ensures access == Authenticate(setup, State(), now, raw, resource)
    {
      if raw == 0 { return None; }
      var h := Digest(raw);
      if !exists g :: g in grants && HasAccess(users, grants, g, h) { return None; }
      var id :| id in grants && HasAccess(users, grants, id, h);
      var g := grants[id];
      if !setup.SameResource(g.resource, resource) { return None; }
      if g.accessExpires <= now { return None; }
      return Some(Access(id, g.user, g.client, g.resource, g.scope, g.accessExpires));
    }

    method RevokeUserGrants(now: int, user: Id)
      requires Valid()
      modifies this`grants
      ensures Valid()
      ensures State() == if user == 0 then old(State()) else RevokeAll(old(State()), user, now)
    {
      if user == 0 { return; }
      RevokedUnique(old(State()), user, now);
      grants := map g | g in grants :: if grants[g].user == user then Revoked(grants[g], now) else grants[g];
      assert grants == RevokeAll(old(State()), user, now).grants;
    }
  }
}
