/**
 * The stores behind the OAuth server and the services that write them, statement by statement.
 *
 * Each method of the first two groups is one SQL statement or one Redis key's commands and does to its field what
 * the corresponding step of `OauthWorld` does to the machine's. The services are sequences of those calls; what
 * they promise here is for a call nobody interrupts. Instants read from the clock are parameters.
 */
module OauthStore {
  import opened Wrappers
  import opened Text
  import opened Scopes
  import opened Config
  import opened OauthWorld

  /** The instants at which a token call signs, writes its row and denies what it retired. */
  datatype Clock = Clock(signAt: nat, claimAt: nat, denyAt: nat)

  datatype TokenError = InvalidGrant | InvalidScope | ServerError

  datatype TokenResponse = TokenResponse(jti: Id, refresh: RefreshToken, scopes: set<string>)

  // ---- what the services decide ---------------------------------------------------------------------------

  predicate Identified(sessions: map<Id, GrantSession>, grants: map<Id, Grant>, audience: string, p: RefreshParams) {
    && (p.resource.Some? ==> p.resource.value == audience)
    && p.token.session in sessions && sessions[p.token.session].current == p.token
    && sessions[p.token.session].grantId in grants
    && grants[sessions[p.token.session].grantId].clientId == p.clientId
  }

  /** What a refresh would carry: everything granted, or what was asked for. */
  function Wanted(p: RefreshParams, granted: set<string>): set<string> {
    if p.scope.None? then granted else Elements(Words(p.scope.value))
  }

  predicate RefreshAllowed(
    sessions: map<Id, GrantSession>, grants: map<Id, Grant>, audience: string, p: RefreshParams, at: nat)
  {
    && Identified(sessions, grants, audience, p)
    && var row := sessions[p.token.session];
    && Wanted(p, grants[row.grantId].scopes) <= grants[row.grantId].scopes
    && at < row.expiresAt && at < row.absoluteExpiresAt
  }

  predicate ExchangeAllowed(codes: map<Id, Timed<CodeRecord>>, grants: map<Id, Grant>, p: ExchangeParams, at: nat) {
    && Get(codes, p.code, at).Some?
    && Redeemable(Get(codes, p.code, at).value, p)
    && Get(codes, p.code, at).value.grantId in grants
  }

  /** What completing an authorization writes: the grant with these scopes added, then a code naming it. */
  predicate Completed(
    grants: map<Id, Grant>, grantOf: map<(Id, Id), Id>, codes: map<Id, Timed<CodeRecord>>,
    grants': map<Id, Grant>, codes': map<Id, Timed<CodeRecord>>,
    user: Id, req: AuthRequest, drawn: Id, code: Id, at: nat)
  {
    var g := if (user, req.clientId) in grantOf then grantOf[(user, req.clientId)] else drawn;
    && grants' == grants[g :=
         Grant(user, req.clientId, (if g in grants then grants[g].scopes else {}) + req.scopes)]
    && codes' == codes[code := Timed(
         CodeRecord(user, req.clientId, g, req.redirectUri, req.scopes, req.challenge, req.resource),
         Some(at + Ms(AUTH_CODE_TTL_SEC)))]
  }

  /** The code answers, up to its lifetime, with what the user allowed of the request and the grant it stands under. */
  ghost predicate CodeFor(
    grantOf: map<(Id, Id), Id>, codes: map<Id, Timed<CodeRecord>>, user: Id, req: AuthRequest, code: Id, at: nat)
  {
    && (user, req.clientId) in grantOf
    && forall when: nat :: Get(codes, code, when) == if when < at + Ms(AUTH_CODE_TTL_SEC) then Some(CodeRecord(
         user, req.clientId, grantOf[(user, req.clientId)], req.redirectUri, req.scopes, req.challenge, req.resource))
       else None
  }

  /** An earlier grant of the user to the client covers these scopes. */
  predicate CoveredBy(grants: map<Id, Grant>, grantOf: map<(Id, Id), Id>, user: Id, req: AuthRequest) {
    && (user, req.clientId) in grantOf && grantOf[(user, req.clientId)] in grants
    && req.scopes <= grants[grantOf[(user, req.clientId)]].scopes
  }

  predicate DeniedAt(denied: map<Id, nat>, jti: Id, at: nat) {
    jti in denied && at < denied[jti]
  }

  ghost function Union(approved: seq<set<string>>): set<string> {
    set i, s | 0 <= i < |approved| && s in approved[i] :: s
  }

  /** The unique index on (user, client), and the foreign keys to both. */
  ghost predicate Indexed(standing: set<Id>, grants: map<Id, Grant>, grantOf: map<(Id, Id), Id>) {
    && (forall g :: g in grants ==> (grants[g].user, grants[g].clientId) in grantOf)
    && (forall g :: g in grants ==> grantOf[(grants[g].user, grants[g].clientId)] == g)
    && (forall k :: k in grantOf ==> grantOf[k] in grants)
    && (forall k :: k in grantOf ==> (grants[grantOf[k]].user, grants[grantOf[k]].clientId) == k)
    && (forall g :: g in grants ==> grants[g].user in standing && grants[g].clientId in standing)
  }

  /** Each grant is the union of what it was written with. */
  ghost predicate Unions(grants: map<Id, Grant>, approved: map<Id, seq<set<string>>>) {
    approved.Keys == grants.Keys && (forall g :: g in grants ==> grants[g].scopes == Union(approved[g]))
  }

  /** The foreign key, the key inside the token, and the clamp. */
  ghost predicate Rows(sessions: map<Id, GrantSession>, grants: map<Id, Grant>) {
    forall id :: id in sessions ==>
      && sessions[id].current.session == id
      && sessions[id].grantId in grants
      && sessions[id].expiresAt <= sessions[id].absoluteExpiresAt
  }

  function WithoutUser(grants: map<Id, Grant>, user: Id): map<Id, Grant> {
    map g | g in grants && !GrantOn(grants[g], user) :: grants[g]
  }

  function WithoutPairs(grantOf: map<(Id, Id), Id>, user: Id): map<(Id, Id), Id> {
    map k | k in grantOf && k.0 != user && k.1 != user :: grantOf[k]
  }

  lemma GoneIndexed(standing: set<Id>, grants: map<Id, Grant>, grantOf: map<(Id, Id), Id>, user: Id)
    requires Indexed(standing, grants, grantOf)
    ensures Indexed(standing - {user}, WithoutUser(grants, user), WithoutPairs(grantOf, user))
  {
    forall k | k in WithoutPairs(grantOf, user) ensures grantOf[k] in WithoutUser(grants, user) {
      var g := grantOf[k];
      var pair := (grants[g].user, grants[g].clientId);
      assert pair == k && pair.0 != user && pair.1 != user;
    }
  }

  function Under(sessions: map<Id, GrantSession>, grants: map<Id, Grant>): map<Id, GrantSession> {
    map id | id in sessions && sessions[id].grantId in grants :: sessions[id]
  }

  ghost function Kept(approved: map<Id, seq<set<string>>>, grants: map<Id, Grant>): map<Id, seq<set<string>>> {
    map g | g in approved && g in grants :: approved[g]
  }

  lemma GoneExactly(grants: map<Id, Grant>, sessions: map<Id, GrantSession>, user: Id)
    ensures var left := WithoutUser(grants, user);
            && (forall g :: g in left <==> g in grants && grants[g].user != user && grants[g].clientId != user)
            && (forall g :: g in left ==> left[g] == grants[g])
            && (forall id :: id in Under(sessions, left) <==> id in sessions && sessions[id].grantId in left)
            && (forall id :: id in Under(sessions, left) ==> Under(sessions, left)[id] == sessions[id])
  {
  }

  lemma GoneUnions(grants: map<Id, Grant>, approved: map<Id, seq<set<string>>>, user: Id)
    requires Unions(grants, approved)
    ensures Unions(WithoutUser(grants, user), Kept(approved, WithoutUser(grants, user)))
  {
    hide GrantOn;
  }

  lemma UnderRows(sessions: map<Id, GrantSession>, grants: map<Id, Grant>, fewer: map<Id, Grant>)
    requires Rows(sessions, grants)
    ensures Rows(Under(sessions, fewer), fewer)
  {
  }

  lemma WrittenIndexed(standing: set<Id>, grants: map<Id, Grant>, grantOf: map<(Id, Id), Id>, g: Id, grant: Grant)
    requires Indexed(standing, grants, grantOf) && grant.user in standing && grant.clientId in standing
    requires var k := (grant.user, grant.clientId); if k in grantOf then g == grantOf[k] else g !in grants
    ensures Indexed(standing, grants[g := grant], grantOf[(grant.user, grant.clientId) := g])
    ensures (grant.user, grant.clientId) in grantOf ==> g in grants
  {
  }

  lemma CoveringStands(
    standing: set<Id>, grants: map<Id, Grant>, grantOf: map<(Id, Id), Id>, user: Id, req: AuthRequest)
    requires Indexed(standing, grants, grantOf) && CoveredBy(grants, grantOf, user, req)
    ensures user in standing && req.clientId in standing
  {
    var g := grantOf[(user, req.clientId)];
    assert (grants[g].user, grants[g].clientId) == (user, req.clientId);
  }

  lemma CompletedMeans(
    standing: set<Id>, grants: map<Id, Grant>, grantOf: map<(Id, Id), Id>, codes: map<Id, Timed<CodeRecord>>,
    grants': map<Id, Grant>, grantOf': map<(Id, Id), Id>, codes': map<Id, Timed<CodeRecord>>,
    user: Id, req: AuthRequest, drawn: Id, code: Id, at: nat)
    requires Completed(grants, grantOf, codes, grants', codes', user, req, drawn, code, at)
    requires Indexed(standing, grants', grantOf')
    ensures CodeFor(grantOf', codes', user, req, code, at) && CoveredBy(grants', grantOf', user, req)
  {
    var g := if (user, req.clientId) in grantOf then grantOf[(user, req.clientId)] else drawn;
    assert (grants'[g].user, grants'[g].clientId) == (user, req.clientId);
  }

  class Store {
    const audience: string
    var tickets: map<Id, Timed<Pending>>
    var codes: map<Id, Timed<CodeRecord>>
    var denied: map<Id, nat>
    var revoked: map<Id, nat>
    /** The users and clients whose row is there. */
    var standing: set<Id>
    var grants: map<Id, Grant>
    var grantOf: map<(Id, Id), Id>
    var sessions: map<Id, GrantSession>
    /** Per grant, the scope sets it was written with, in order. */
    ghost var approved: map<Id, seq<set<string>>>

    ghost predicate GrantsValid()
      reads this
    {
      Indexed(standing, grants, grantOf) && Unions(grants, approved)
    }

    ghost predicate SessionsValid()
      reads this
    {
      Rows(sessions, grants)
    }

    /** A request that reached a ticket names at least one scope. */
    ghost predicate TicketsValid()
      reads this
    {
      forall t :: t in tickets ==> tickets[t].value.req.scopes != {}
    }

    ghost predicate Valid()
      reads this
    {
      GrantsValid() && SessionsValid() && TicketsValid()
    }

    constructor (audience: string)
      ensures Valid() && this.audience == audience
      ensures tickets == map[] && codes == map[] && denied == map[] && revoked == map[]
      ensures standing == {} && grants == map[] && sessions == map[]
    {
      this.audience := audience;
      tickets, codes, denied, revoked := map[], map[], map[], map[];
      standing, grants, grantOf, sessions, approved := {}, map[], map[], map[], map[];
    }

    // ---- Redis --------------------------------------------------------------------------------------------

    /** The ticket answers with this request, and its session, up to its lifetime and not from then on. */
    method CreatePendingAuthorizationRequest(ticket: Id, pending: Pending, at: nat)
      requires Valid() && pending.req.scopes != {}
      modifies this`tickets
      ensures Valid()
      ensures forall when: nat :: Get(tickets, ticket, when) ==
                if when < at + Ms(PENDING_AUTH_TTL_SEC) then Some(pending) else None
      ensures forall other, when: nat :: other != ticket ==> Get(tickets, other, when) == Get(old(tickets), other, when)
      ensures tickets == old(tickets)[ticket := Timed(pending, Some(at + Ms(PENDING_AUTH_TTL_SEC)))]
    {
      tickets := tickets[ticket := Timed(pending, Some(at + Ms(PENDING_AUTH_TTL_SEC)))];
    }

    method ReadPendingAuthorizationRequest(ticket: Id, at: nat) returns (pending: Option<Pending>)
      ensures pending == Get(tickets, ticket, at)
    {
      if ticket in tickets && (tickets[ticket].until.None? || at < tickets[ticket].until.value) {
        return Some(tickets[ticket].value);
      }
      return None;
    }

    /**
     * A read, then SET with KEEPTTL. A ticket still there keeps its lifetime; one that vanished in between comes
     * back without any.
     */
    method UpdatePendingAuthorizationRequest(ticket: Id, pending: Pending, readAt: nat, setAt: nat)
      requires Valid() && pending.req.scopes != {} && readAt <= setAt
      modifies this`tickets
      ensures Valid()
      ensures Get(old(tickets), ticket, readAt).None? ==> tickets == old(tickets)
      ensures Get(old(tickets), ticket, readAt).Some? && Get(old(tickets), ticket, setAt).Some? ==>
                tickets == old(tickets)[ticket := old(tickets)[ticket].(value := pending)]
      ensures Get(old(tickets), ticket, readAt).Some? && Get(old(tickets), ticket, setAt).None? ==>
                tickets == old(tickets)[ticket := Timed(pending, None)]
    {
      var held := ReadPendingAuthorizationRequest(ticket, readAt);
      if held.Some? {
        var live := ReadPendingAuthorizationRequest(ticket, setAt);
        var until := if live.Some? then tickets[ticket].until else None;
        tickets := tickets[ticket := Timed(pending, until)];
      }
    }

    method ConsumePendingAuthorizationRequest(ticket: Id, at: nat) returns (pending: Option<Pending>)
      requires Valid()
      modifies this`tickets
      ensures Valid()
      ensures pending == Get(old(tickets), ticket, at) && tickets == old(tickets) - {ticket}
      ensures pending.Some? ==> pending.value.req.scopes != {}
    {
      pending := ReadPendingAuthorizationRequest(ticket, at);
      tickets := tickets - {ticket};
    }

    /** The code answers with its record up to its lifetime and not from then on. */
    method IssueAuthorizationCode(code: Id, record: CodeRecord, at: nat)
      modifies this`codes
      ensures forall when: nat :: Get(codes, code, when) ==
                if when < at + Ms(AUTH_CODE_TTL_SEC) then Some(record) else None
      ensures forall other, when: nat :: other != code ==> Get(codes, other, when) == Get(old(codes), other, when)
      ensures codes == old(codes)[code := Timed(record, Some(at + Ms(AUTH_CODE_TTL_SEC)))]
    {
      codes := codes[code := Timed(record, Some(at + Ms(AUTH_CODE_TTL_SEC)))];
    }

    method ConsumeAuthorizationCode(code: Id, at: nat) returns (record: Option<CodeRecord>)
      modifies this`codes
      ensures record == Get(old(codes), code, at) && codes == old(codes) - {code}
    {
      if code in codes && (codes[code].until.None? || at < codes[code].until.value) {
        record := Some(codes[code].value);
      } else {
        record := None;
      }
      codes := codes - {code};
    }

    /** Whatever was denied stays denied; this token is denied from now to its expiry, and less than a second past it. */
    method DenyAccessToken(jti: Id, exp: nat, at: nat)
      modifies this`denied
      ensures exp <= at ==> denied == old(denied)
      ensures at < exp ==>
                && jti in denied && denied == old(denied)[jti := denied[jti]]
                && exp <= denied[jti] < exp + 1000 && (denied[jti] - at) % 1000 == 0
    {
      var ttlSec := DenyTtl(exp, at);
      if ttlSec <= 0 {
        return;
      }
      denied := denied[jti := at + Ms(ttlSec)];
    }

    /**
     * From now on the marker covers every token of the grant signed by now, up to that token's expiry, and it ends
     * less than a second after the last of these; other grants' tokens are answered for as before.
     */
    method DenyGrant(g: Id, at: nat)
      modifies this`revoked
      ensures forall signedAt: nat, when: nat :: signedAt <= at && when < ExpIfSigned(signedAt) ==>
                DeniedAt(revoked, g, when)
      ensures forall when: nat :: ExpIfSigned(at) + 1000 <= when ==> !DeniedAt(revoked, g, when)
      ensures forall other, when: nat :: other != g ==>
                (DeniedAt(revoked, other, when) <==> DeniedAt(old(revoked), other, when))
    {
      revoked := revoked[g := at + Ms(OAUTH_ACCESS_TTL_SEC)];
    }

    method IsAccessTokenDenied(jti: Id, g: Id, at: nat) returns (refused: bool)
      ensures refused <==> DeniedAt(denied, jti, at) || DeniedAt(revoked, g, at)
    {
      var tokenDenied := jti in denied && at < denied[jti];
      var grantDenied := g in revoked && at < revoked[g];
      return tokenDenied || grantDenied;
    }

    // ---- SQL ----------------------------------------------------------------------------------------------

    /** A user signs up, or a client registers. */
    method InsertRow(id: Id)
      requires Valid()
      modifies this`standing
      ensures Valid()
      ensures standing == old(standing) + {id}
    {
      standing := standing + {id};
    }

    /**
     * The user goes, with exactly the user's grants, and exactly the connections under these. No other column moves,
     * and what the user approved is forgotten with the grants.
     */
    method DeleteUser(user: Id)
      requires Valid()
      modifies this`standing, this`grants, this`grantOf, this`sessions, this`approved
      ensures Valid()
      ensures standing == old(standing) - {user}
      ensures grants == WithoutUser(old(grants), user) && grantOf == WithoutPairs(old(grantOf), user)
      ensures sessions == Under(old(sessions), grants) && approved == Kept(old(approved), grants)
      ensures forall g :: g in grants <==>
                g in old(grants) && old(grants)[g].user != user && old(grants)[g].clientId != user
      ensures forall g :: g in grants ==> grants[g] == old(grants)[g]
      ensures forall id :: id in sessions <==> id in old(sessions) && old(sessions)[id].grantId in grants
      ensures forall id :: id in sessions ==> sessions[id] == old(sessions)[id]
    {
      GoneExactly(grants, sessions, user);
      GoneIndexed(standing, grants, grantOf, user);
      GoneUnions(grants, approved, user);
      UnderRows(sessions, grants, WithoutUser(grants, user));
      hide Indexed, Unions, Rows, WithoutUser, WithoutPairs, Under, Kept;
      standing, grants, grantOf := standing - {user}, WithoutUser(grants, user), WithoutPairs(grantOf, user);
      sessions, approved := Under(sessions, grants), Kept(approved, grants);
    }

    /**
     * One row per (user, client), holding the union of every set it was written with; none for a user or a client
     * that is gone.
     */
    method UpsertGrant(user: Id, clientId: Id, scopes: set<string>, drawn: Id) returns (written: Option<Id>)
      requires Valid() && drawn !in grants
      modifies this`grants, this`grantOf, this`approved
      ensures Valid()
      ensures written.Some? <==> user in standing && clientId in standing
      ensures written.None? ==> grants == old(grants) && grantOf == old(grantOf) && approved == old(approved)
      ensures written.Some? ==>
                && var g := written.value;
                && g == (if (user, clientId) in old(grantOf) then old(grantOf)[(user, clientId)] else drawn)
                && grantOf == old(grantOf)[(user, clientId) := g]
                && g in grants && grants == old(grants)[g := grants[g]]
                && grants[g].user == user && grants[g].clientId == clientId
                && grants[g].scopes == (if g in old(grants) then old(grants)[g].scopes else {}) + scopes
                && approved == old(approved)[g := (if g in old(approved) then old(approved)[g] else []) + [scopes]]
    {
      if user !in standing || clientId !in standing {
        return None;
      }
      var g := drawn;
      var before: set<string> := {};
      if (user, clientId) in grantOf {
        g := grantOf[(user, clientId)];
        assert g in grants;
        before := grants[g].scopes;
      }
      ghost var sets := if g in approved then approved[g] else [];
      UnionGrows(sets, scopes);
      WrittenIndexed(standing, grants, grantOf, g, Grant(user, clientId, before + scopes));
      hide Indexed, Union;
      grants := grants[g := Grant(user, clientId, before + scopes)];
      grantOf := grantOf[(user, clientId) := g];
      approved := approved[g := sets + [scopes]];
      return Some(g);
    }

    method FindGrant(user: Id, clientId: Id) returns (g: Option<Id>)
      requires GrantsValid()
      ensures g.Some? <==> (user, clientId) in grantOf
      ensures g.Some? ==> g.value == grantOf[(user, clientId)]
      ensures g.Some? ==> g.value in grants && grants[g.value].user == user && grants[g.value].clientId == clientId
      ensures g.None? ==> forall x :: x in grants ==> grants[x].user != user || grants[x].clientId != clientId
    {
      if (user, clientId) in grantOf {
        return Some(grantOf[(user, clientId)]);
      }
      return None;
    }

    method InsertGrantSession(id: Id, row: GrantSession) returns (inserted: bool)
      requires Valid() && id !in sessions && row.current.session == id && row.expiresAt <= row.absoluteExpiresAt
      modifies this`sessions
      ensures Valid()
      ensures inserted <==> row.grantId in grants
      ensures sessions == if inserted then old(sessions)[id := row] else old(sessions)
    {
      inserted := row.grantId in grants;
      if inserted {
        sessions := sessions[id := row];
      }
    }

    method FindGrantSessionById(id: Id) returns (row: Option<GrantSession>)
      ensures row == if id in sessions then Some(sessions[id]) else None
    {
      return if id in sessions then Some(sessions[id]) else None;
    }

    /** One UPDATE: spends the presented token and installs the pair, or changes nothing. */
    method RotateGrantSession(
      id: Id, presented: RefreshToken, next: RefreshToken, slidingExpiresAt: nat, jti: Id, jtiExp: nat, at: nat)
      returns (rotated: Option<GrantSession>)
      requires Valid() && next.session == id
      modifies this`sessions
      ensures Valid()
      ensures rotated.Some? <==> Rotatable(old(sessions), id, presented, at)
      ensures rotated.None? ==> sessions == old(sessions)
      ensures rotated.Some? ==>
                && sessions == old(sessions)[id := rotated.value]
                && rotated.value == Rotated(old(sessions)[id], next, jti, jtiExp, slidingExpiresAt)
                && rotated.value.grantId == old(sessions)[id].grantId
                && rotated.value.current == next && rotated.value.previous == Some(presented)
                && rotated.value.jti == jti && rotated.value.jtiExp == jtiExp
                && rotated.value.absoluteExpiresAt == old(sessions)[id].absoluteExpiresAt
                && rotated.value.expiresAt <= slidingExpiresAt
                && rotated.value.expiresAt <= rotated.value.absoluteExpiresAt
                && rotated.value.expiresAt in {slidingExpiresAt, rotated.value.absoluteExpiresAt}
      ensures rotated.Some? ==> forall when: nat :: Rotatable(sessions, id, next, when) <==>
                when < slidingExpiresAt && when < old(sessions)[id].absoluteExpiresAt
    {
      if id !in sessions {
        return None;
      }
      var row := sessions[id];
      if row.current != presented || row.expiresAt <= at || row.absoluteExpiresAt <= at {
        return None;
      }
      var expiresAt := if slidingExpiresAt < row.absoluteExpiresAt then slidingExpiresAt else row.absoluteExpiresAt;
      sessions := sessions[id := GrantSession(row.grantId, next, Some(row.current), jti, jtiExp, expiresAt,
                                              row.absoluteExpiresAt)];
      return Some(sessions[id]);
    }

    method DeleteGrantSessionsByGrant(g: Id) returns (count: nat)
      requires Valid()
      modifies this`sessions
      ensures Valid()
      ensures sessions == WithoutGrant(old(sessions), g) && count == |old(sessions)| - |sessions|
      ensures forall id :: id in sessions <==> id in old(sessions) && old(sessions)[id].grantId != g
      ensures forall id :: id in sessions ==> sessions[id] == old(sessions)[id]
    {
      var kept := WithoutGrant(sessions, g);
      KeysCount(kept, sessions);
      count := |sessions| - |kept|;
      sessions := kept;
    }

    /** Only rows no rotation could still succeed on go. */
    method PruneExpiredGrantSessions(at: nat) returns (count: nat)
      requires Valid()
      modifies this`sessions
      ensures Valid()
      ensures sessions == Unexpired(old(sessions), at) && count == |old(sessions)| - |sessions|
      ensures forall id :: id in sessions <==>
                id in old(sessions) && at <= old(sessions)[id].expiresAt && at <= old(sessions)[id].absoluteExpiresAt
      ensures forall id :: id in sessions ==> sessions[id] == old(sessions)[id]
      ensures forall id, token, later :: id in old(sessions) && id !in sessions && at <= later ==>
                !Rotatable(old(sessions), id, token, later)
    {
      var kept := Unexpired(sessions, at);
      KeysCount(kept, sessions);
      count := |sessions| - |kept|;
      sessions := kept;
    }

    // ---- services -----------------------------------------------------------------------------------------

    /**
     * The grant is written before the code, and the code carries the grant it was written under; if user or client is
     * gone, neither is written.
     */
    method CompleteAuthorization(user: Id, req: AuthRequest, drawn: Id, code: Id, at: nat) returns (completed: bool)
      requires Valid() && drawn !in grants
      modifies this`grants, this`grantOf, this`approved, this`codes
      ensures Valid()
      ensures completed <==> user in standing && req.clientId in standing
      ensures !completed ==> grants == old(grants) && grantOf == old(grantOf) && codes == old(codes)
      ensures completed ==>
                && Completed(old(grants), old(grantOf), old(codes), grants, codes, user, req, drawn, code, at)
                && CoveredBy(grants, grantOf, user, req)
      ensures completed ==>
                && (user, req.clientId) in grantOf && grantOf[(user, req.clientId)] in grants
                && var g := grantOf[(user, req.clientId)];
                && grants == old(grants)[g := Grant(user, req.clientId,
                     (if g in old(grants) then old(grants)[g].scopes else {}) + req.scopes)]
                && (forall when: nat :: Get(codes, code, when) == if when < at + Ms(AUTH_CODE_TTL_SEC) then
                      Some(CodeRecord(
                        user, req.clientId, g, req.redirectUri, req.scopes, req.challenge, req.resource)) else None)
      ensures forall other, when: nat :: other != code ==> Get(codes, other, when) == Get(old(codes), other, when)
      ensures old(CoveredBy(grants, grantOf, user, req)) ==> completed && grants == old(grants)
    {
      if CoveredBy(grants, grantOf, user, req) {
        CoveringStands(standing, grants, grantOf, user, req);
      }
      var written := UpsertGrant(user, req.clientId, req.scopes, drawn);
      if written.None? {
        return false;
      }
      var g := written.value;
      if old(CoveredBy(grants, grantOf, user, req)) {
        assert old(grants)[g].scopes + req.scopes == old(grants)[g].scopes;
        assert grants[g] == old(grants)[g];
      }
      IssueAuthorizationCode(
        code, CodeRecord(user, req.clientId, g, req.redirectUri, req.scopes, req.challenge, req.resource), at);
      return true;
    }

    method ResolveGrant(user: Id, req: AuthRequest) returns (needsConsent: bool)
      requires Valid()
      ensures needsConsent <==>
                !(req.scopes <= if (user, req.clientId) in grantOf then grants[grantOf[(user, req.clientId)]].scopes else {})
      ensures req.scopes != {} ==> (needsConsent <==> !CoveredBy(grants, grantOf, user, req))
    {
      var grant := FindGrant(user, req.clientId);
      var alreadyGranted: set<string> := {};
      if grant.Some? {
        alreadyGranted := grants[grant.value].scopes;
      }
      return !(req.scopes <= alreadyGranted);
    }

    /** A validated GET: consent is skipped only under a grant that covers the request, which then does not grow. */
    method GetAuthorize(req: AuthRequest, browser: Option<Id>, ticket: Id, drawn: Id, code: Id, at: nat)
      returns (outcome: Outcome)
      requires Valid() && drawn !in grants && req.scopes != {}
      modifies this`tickets, this`grants, this`grantOf, this`approved, this`codes
      ensures Valid() && grants == old(grants)
      ensures browser.Some? && old(CoveredBy(grants, grantOf, browser.value, req)) ==>
                && outcome == Redirect(code) && tickets == old(tickets)
                && Completed(old(grants), old(grantOf), old(codes), grants, codes, browser.value, req, drawn, code, at)
      ensures !(browser.Some? && old(CoveredBy(grants, grantOf, browser.value, req))) ==>
                && outcome == Page && codes == old(codes)
                && tickets == old(tickets)[ticket := Timed(Pending(req, browser), Some(at + Ms(PENDING_AUTH_TTL_SEC)))]
    {
      hide Completed, CoveredBy;
      if browser.None? {
        CreatePendingAuthorizationRequest(ticket, Pending(req, None), at);
        return Page;
      }
      var needsConsent := ResolveGrant(browser.value, req);
      if !needsConsent {
        var completed := CompleteAuthorization(browser.value, req, drawn, code, at);
        return if completed then Redirect(code) else Refused;
      }
      CreatePendingAuthorizationRequest(ticket, Pending(req, browser), at);
      return Page;
    }

    /** The login form: only a login that succeeds does anything, and only the session under the ticket changes. */
    method PostLogin(ticket: Id, pending: Pending, login: Option<Id>, drawn: Id, code: Id, at: nat)
      returns (outcome: Outcome)
      requires Valid() && drawn !in grants && Get(tickets, ticket, at) == Some(pending) && pending.user.None?
      modifies this`tickets, this`grants, this`grantOf, this`approved, this`codes
      ensures Valid() && grants == old(grants)
      ensures login.None? ==> outcome == Page && tickets == old(tickets) && codes == old(codes)
      ensures login.Some? && old(CoveredBy(grants, grantOf, login.value, pending.req)) ==>
                && outcome == Redirect(code) && tickets == old(tickets) - {ticket}
                && Completed(old(grants), old(grantOf), old(codes), grants, codes, login.value, pending.req, drawn,
                             code, at)
      ensures login.Some? && !old(CoveredBy(grants, grantOf, login.value, pending.req)) ==>
                && outcome == Page && codes == old(codes)
                && tickets == old(tickets)[ticket := old(tickets)[ticket].(value := Pending(pending.req, login))]
    {
      hide Completed, CoveredBy;
      if login.None? {
        return Page;
      }
      var needsConsent := ResolveGrant(login.value, pending.req);
      if !needsConsent {
        var consumed := ConsumePendingAuthorizationRequest(ticket, at);
        if consumed.None? {
          return Page;
        }
        var completed := CompleteAuthorization(login.value, consumed.value.req, drawn, code, at);
        return if completed then Redirect(code) else Refused;
      }
      UpdatePendingAuthorizationRequest(ticket, Pending(pending.req, login), at, at);
      return Page;
    }

    /**
     * The consent form: the ticket is gone whatever the answer; only "allow", by the user on it, grants, and only
     * while user and client are there.
     */
    method PostConsent(ticket: Id, pending: Pending, allow: bool, browser: Option<Id>, drawn: Id, code: Id, at: nat)
      returns (outcome: Outcome)
      requires Valid() && drawn !in grants && Get(tickets, ticket, at) == Some(pending) && pending.user.Some?
      modifies this`tickets, this`grants, this`grantOf, this`approved, this`codes
      ensures Valid() && tickets == old(tickets) - {ticket}
      ensures var mismatch := browser.Some? && browser != pending.user;
              var there := pending.user.value in standing && pending.req.clientId in standing;
              && (outcome == Redirect(code) <==> allow && !mismatch && there)
              && (outcome == Refused <==> !mismatch && !(allow && there))
              && (outcome == Page <==> mismatch)
      ensures outcome != Redirect(code) ==> grants == old(grants) && codes == old(codes)
      ensures outcome == Redirect(code) ==>
                Completed(old(grants), old(grantOf), old(codes), grants, codes, pending.user.value, pending.req, drawn,
                          code, at)
    {
      hide Completed, CoveredBy;
      var consumed := ConsumePendingAuthorizationRequest(ticket, at);
      if consumed.None? {
        return Page;
      }
      if browser.Some? && browser != consumed.value.user {
        return Page;
      }
      if !allow {
        return Refused;
      }
      var completed := CompleteAuthorization(consumed.value.user.value, consumed.value.req, drawn, code, at);
      return if completed then Redirect(code) else Refused;
    }

    /**
     * Which form is answered is decided by whether the ticket carries a session yet.
     *
     * With one, it is the consent form: the ticket goes, another account changes nothing else, "allow" with user and
     * client there gives a code under a grant that covers the request, and anything else is refused. Without one, it is
     * the login form: no login changes nothing, a login under a covering grant gives a code and ends the ticket, any
     * other puts its session on the ticket. A ticket that is not there has no effect.
     */
    method PostAuthorize(
      ticket: Id, allow: bool, browser: Option<Id>, login: Option<Id>, drawn: Id, code: Id, at: nat)
      returns (outcome: Outcome)
      requires Valid() && drawn !in grants
      modifies this`tickets, this`grants, this`grantOf, this`approved, this`codes
      ensures Valid()
      ensures Get(old(tickets), ticket, at).None? ==>
                outcome == Page && tickets == old(tickets) && grants == old(grants) && codes == old(codes)
      ensures Get(old(tickets), ticket, at).Some? && Get(old(tickets), ticket, at).value.user.Some? ==>
                && var held := Get(old(tickets), ticket, at).value;
                var mismatch := browser.Some? && browser != held.user;
                var granted := !mismatch && allow && held.user.value in standing && held.req.clientId in standing;
                && tickets == old(tickets) - {ticket}
                && outcome == (if mismatch then Page else if granted then Redirect(code) else Refused)
                && (!granted ==> grants == old(grants) && codes == old(codes))
                && (granted ==> CoveredBy(grants, grantOf, held.user.value, held.req)
                                && CodeFor(grantOf, codes, held.user.value, held.req, code, at))
      ensures Get(old(tickets), ticket, at).Some? && Get(old(tickets), ticket, at).value.user.None? ==>
                && var held := Get(old(tickets), ticket, at).value;
                var covered := login.Some? && old(CoveredBy(grants, grantOf, login.value, held.req));
                && grants == old(grants)
                && outcome == (if covered then Redirect(code) else Page)
                && tickets == (if covered then old(tickets) - {ticket}
                               else if login.None? then old(tickets)
                               else old(tickets)[ticket := Timed(Pending(held.req, login), old(tickets)[ticket].until)])
                && (covered ==> CodeFor(grantOf, codes, login.value, held.req, code, at))
                && (!covered ==> codes == old(codes))
      ensures grants != old(grants) ==>
                && allow && Get(old(tickets), ticket, at).Some?
                && var held := Get(old(tickets), ticket, at).value;
                && held.user.Some? && (browser.None? || browser == held.user)
                && Completed(old(grants), old(grantOf), old(codes), grants, codes, held.user.value, held.req, drawn,
                             code, at)
    {
      var pending := ReadPendingAuthorizationRequest(ticket, at);
      if pending.None? {
        return Page;
      }
      var held := pending.value;
      if held.user.None? {
        outcome := PostLogin(ticket, held, login, drawn, code, at);
        if login.Some? && old(CoveredBy(grants, grantOf, login.value, held.req)) {
          CompletedMeans(old(standing), old(grants), old(grantOf), old(codes), grants, grantOf, codes, login.value,
                         held.req, drawn, code, at);
        }
      } else {
        outcome := PostConsent(ticket, held, allow, browser, drawn, code, at);
        if outcome == Redirect(code) {
          CompletedMeans(old(standing), old(grants), old(grantOf), old(codes), grants, grantOf, codes, held.user.value,
                         held.req, drawn, code, at);
        }
      }
    }

    /**
     * What a code is bound to is what was asked for: completed for a request and presented in time, it gives tokens
     * exactly to the same client with the same redirect, the same resource if any is named, and the verifier behind the
     * challenge; and they carry the scopes of the request.
     */
    method AuthorizeThenExchange(
      user: Id, req: AuthRequest, drawn: Id, code: Id, at: nat, p: ExchangeParams, clock: Clock, jti: Id,
      token: RefreshToken)
      returns (result: Result<TokenResponse, TokenError>)
      requires Valid() && drawn !in grants && user in standing && req.clientId in standing && token.session !in sessions
      requires p.code == code && clock.signAt < at + Ms(AUTH_CODE_TTL_SEC)
      modifies this`grants, this`grantOf, this`approved, this`codes, this`sessions
      ensures Valid()
      ensures result.Ok? <==>
                && p.clientId == req.clientId && p.redirectUri == req.redirectUri
                && (p.resource.Some? ==> p.resource.value == req.resource)
                && req.challenge == S256(p.verifier)
      ensures result.Ok? ==> result.value == TokenResponse(jti, token, req.scopes)
    {
      hide Completed, CoveredBy, Redeemable, ExchangeAllowed, FirstRow;
      var completed := CompleteAuthorization(user, req, drawn, code, at);
      result := ExchangeCode(p, clock, jti, token);
    }

    /** The row is written last, with both expiries; nothing is stored when the grant is gone. */
    method IssueGrantSession(record: CodeRecord, clock: Clock, jti: Id, token: RefreshToken) returns (stored: bool)
      requires Valid() && token.session !in sessions
      modifies this`sessions
      ensures Valid()
      ensures stored <==> record.grantId in grants
      ensures sessions == if stored
                          then old(sessions)[token.session :=
                                 FirstRow(record, token, jti, ExpIfSigned(clock.signAt), clock.claimAt)]
                          else old(sessions)
      ensures stored ==>
                && var row := sessions[token.session];
                && row.grantId == record.grantId && row.current == token && row.previous == None
                && row.jti == jti && row.jtiExp == ExpIfSigned(clock.signAt)
                && row.expiresAt == clock.claimAt + Ms(OAUTH_REFRESH_TTL_SEC)
                && row.absoluteExpiresAt == clock.claimAt + Ms(OAUTH_REFRESH_ABSOLUTE_TTL_SEC)
    {
      var exp := ExpIfSigned(clock.signAt);
      stored := InsertGrantSession(
        token.session,
        GrantSession(record.grantId, token, None, jti, exp, clock.claimAt + Ms(OAUTH_REFRESH_TTL_SEC),
                     clock.claimAt + Ms(OAUTH_REFRESH_ABSOLUTE_TTL_SEC)));
    }

    /**
     * The code is gone whatever the answer. Tokens come out exactly when it was live, bound to this client,
     * redirect, resource and verifier, and its grant stands; they carry what the code recorded.
     */
    method ExchangeCode(p: ExchangeParams, clock: Clock, jti: Id, token: RefreshToken)
      returns (result: Result<TokenResponse, TokenError>)
      requires Valid() && token.session !in sessions
      modifies this`codes, this`sessions
      ensures Valid()
      ensures codes == old(codes) - {p.code}
      ensures result.Ok? <==> ExchangeAllowed(old(codes), grants, p, clock.signAt)
      ensures result.Err? ==> sessions == old(sessions)
      ensures Get(old(codes), p.code, clock.signAt).None? ==> result == Err(InvalidGrant)
      ensures Get(old(codes), p.code, clock.signAt).Some? ==>
                && var record := Get(old(codes), p.code, clock.signAt).value;
                var wrong := record.clientId != p.clientId || record.redirectUri != p.redirectUri
                             || (p.resource.Some? && p.resource.value != record.resource)
                             || record.challenge != S256(p.verifier);
                && (wrong ==> result == Err(InvalidGrant))
                && (!wrong && record.grantId !in grants ==> result == Err(ServerError))
                && (!wrong && record.grantId in grants ==> result.Ok?)
      ensures result.Ok? ==>
                && var record := Get(old(codes), p.code, clock.signAt).value;
                && result.value == TokenResponse(jti, token, record.scopes)
                && sessions == old(sessions)[token.session :=
                     FirstRow(record, token, jti, ExpIfSigned(clock.signAt), clock.claimAt)]
                && (forall when: nat :: Rotatable(sessions, token.session, token, when) <==>
                      when < clock.claimAt + Ms(OAUTH_REFRESH_TTL_SEC)
                      && when < clock.claimAt + Ms(OAUTH_REFRESH_ABSOLUTE_TTL_SEC))
    {
      var record := ConsumeAuthorizationCode(p.code, clock.signAt);
      if record.None? {
        return Err(InvalidGrant);
      }
      if record.value.clientId != p.clientId {
        return Err(InvalidGrant);
      }
      if record.value.redirectUri != p.redirectUri {
        return Err(InvalidGrant);
      }
      if p.resource.Some? && p.resource.value != record.value.resource {
        return Err(InvalidGrant);
      }
      if S256(p.verifier) != record.value.challenge {
        return Err(InvalidGrant);
      }
      var stored := IssueGrantSession(record.value, clock, jti, token);
      if !stored {
        return Err(ServerError);
      }
      return Ok(TokenResponse(jti, token, record.value.scopes));
    }

    /**
     * Tokens come out exactly when the token is the row's current one, the grant stands and is this client's, the
     * scopes asked for are covered, and neither expiry has passed. Then the pair is replaced, the retired access
     * token is denied until it expires, and the spent token can never be used again. Otherwise nothing changes.
     */
    method RefreshGrantTokens(p: RefreshParams, clock: Clock, jti: Id, secret: Id)
      returns (result: Result<TokenResponse, TokenError>)
      requires Valid() && secret != p.token.secret
      modifies this`sessions, this`denied
      ensures Valid()
      ensures result.Ok? <==> RefreshAllowed(old(sessions), grants, audience, p, clock.claimAt)
      ensures result.Err? ==> sessions == old(sessions) && denied == old(denied)
      ensures result.Ok? <==>
                && (p.resource.Some? ==> p.resource.value == audience)
                && p.token.session in old(sessions)
                && var row := old(sessions)[p.token.session];
                && row.current == p.token
                && row.grantId in grants && grants[row.grantId].clientId == p.clientId
                && (p.scope.Some? ==> Elements(Words(p.scope.value)) <= grants[row.grantId].scopes)
                && clock.claimAt < row.expiresAt && clock.claimAt < row.absoluteExpiresAt
      ensures result.Ok? ==>
                (if p.scope.Some? then result.value.scopes == Elements(Words(p.scope.value))
                 else result.value.scopes == grants[old(sessions)[p.token.session].grantId].scopes)
      ensures result == Err(InvalidScope) <==>
                && Identified(old(sessions), grants, audience, p)
                && !(var g := old(sessions)[p.token.session].grantId; Wanted(p, grants[g].scopes) <= grants[g].scopes)
      ensures result.Ok? ==>
                && var before := old(sessions)[p.token.session];
                && var next := RefreshToken(p.token.session, secret);
                && result.value == TokenResponse(jti, next, Wanted(p, grants[before.grantId].scopes))
                && sessions == old(sessions)[p.token.session := Rotated(
                     before, next, jti, ExpIfSigned(clock.signAt), clock.claimAt + Ms(OAUTH_REFRESH_TTL_SEC))]
                && (forall when: nat :: Rotatable(sessions, next.session, next, when) <==>
                      when < clock.claimAt + Ms(OAUTH_REFRESH_TTL_SEC) && when < before.absoluteExpiresAt)
                && (forall at :: clock.denyAt <= at < before.jtiExp ==> DeniedAt(denied, before.jti, at))
                && (forall other :: other != before.jti ==> (other in denied <==> other in old(denied)))
                && (forall other :: other != before.jti && other in denied ==> denied[other] == old(denied)[other])
                && (forall at :: !RefreshAllowed(sessions, grants, audience, p, at))
    {
      if p.resource.Some? && p.resource.value != audience {
        return Err(InvalidGrant);
      }
      var session := FindGrantSessionById(p.token.session);
      if session.None? {
        return Err(InvalidGrant);
      }
      if session.value.current != p.token {
        return Err(InvalidGrant);
      }
      if session.value.grantId !in grants {
        return Err(InvalidGrant);
      }
      var grant := grants[session.value.grantId];
      if grant.clientId != p.clientId {
        return Err(InvalidGrant);
      }
      NarrowNeverWidens(p.scope, grant.scopes);
      var scopes := NarrowScopes(p.scope, grant.scopes);
      if scopes.Err? {
        return Err(InvalidScope);
      }
      var next := RefreshToken(p.token.session, secret);
      var rotated := RotateGrantSession(
        p.token.session, p.token, next, clock.claimAt + Ms(OAUTH_REFRESH_TTL_SEC), jti, ExpIfSigned(clock.signAt),
        clock.claimAt);
      if rotated.None? {
        return Err(InvalidGrant);
      }
      DenyAccessToken(session.value.jti, session.value.jtiExp, clock.denyAt);
      return Ok(TokenResponse(jti, next, scopes.value));
    }
  }

  lemma UnionGrows(sets: seq<set<string>>, scopes: set<string>)
    ensures Union(sets + [scopes]) == Union(sets) + scopes
  {
    var all := sets + [scopes];
    forall s | s in Union(sets) + scopes ensures s in Union(all) {
      if s in Union(sets) {
        var i :| 0 <= i < |sets| && s in sets[i];
        assert s in all[i];
      } else {
        assert s in all[|sets|];
      }
    }
  }

  lemma KeysCount(part: map<Id, GrantSession>, whole: map<Id, GrantSession>)
    requires part.Keys <= whole.Keys
    ensures |part| <= |whole|
  {
    SubsetCount(part.Keys, whole.Keys);
  }

  lemma SubsetCount(a: set<Id>, b: set<Id>)
    requires a <= b
    ensures |a| <= |b|
  {
    assert b == a + (b - a);
  }

  /** The order in which a grant was written does not matter. */
  lemma UnionIgnoresOrder(first: seq<set<string>>, second: seq<set<string>>)
    requires multiset(first) == multiset(second)
    ensures Union(first) == Union(second)
  {
    forall s ensures s in Union(first) <==> s in Union(second) {
      if s in Union(first) {
        var i :| 0 <= i < |first| && s in first[i];
        assert first[i] in multiset(second);
        var j :| 0 <= j < |second| && second[j] == first[i];
      }
      if s in Union(second) {
        var i :| 0 <= i < |second| && s in second[i];
        assert second[i] in multiset(first);
        var j :| 0 <= j < |first| && first[j] == second[i];
      }
    }
  }
}
