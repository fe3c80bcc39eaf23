/**
 * The OAuth server as a state machine.
 *
 * A request is a program counter; one step of it is one SQL statement, one Redis command or one reading of the
 * clock, so requests interleave at exactly the awaits of the handlers. A crash is a request that takes no further
 * step. `Step` is total: an event that does not apply changes nothing, and a run is any list of events.
 *
 * A minted value (id, ticket, code, secret, jti) is any value not minted before; it is drawn at the step that
 * first stores it. Digests are injective, so a stored digest is represented by what was digested.
 */
module OauthWorld {
  import opened Wrappers
  import opened Config
  import opened Scopes

  type Id = int

  // ---- stored records -------------------------------------------------------------------------------------

  /** A code challenge: the S256 digest of some verifier, or a string that is nobody's digest. */
  datatype Challenge = S256(verifier: string) | NoDigest(text: string)

  datatype Client = Client(redirectUris: set<string>, scope: Option<string>)

  /** The part of a pending authorization that the browser never carries. */
  datatype AuthRequest = AuthRequest(
    clientId: Id, redirectUri: string, scopes: set<string>, challenge: Challenge, resource: string)

  datatype Pending = Pending(req: AuthRequest, user: Option<Id>)

  datatype Grant = Grant(user: Id, clientId: Id, scopes: set<string>)

  datatype CodeRecord = CodeRecord(
    user: Id, clientId: Id, grantId: Id, redirectUri: string,
    scopes: set<string>, challenge: Challenge, resource: string)

  datatype RefreshToken = RefreshToken(session: Id, secret: Id)

  /** A row of oauth_grant_sessions; the two access-token columns are written together in every statement. */
  datatype GrantSession = GrantSession(
    grantId: Id, current: RefreshToken, previous: Option<RefreshToken>,
    jti: Id, jtiExp: nat, expiresAt: nat, absoluteExpiresAt: nat)

  datatype AccessToken = AccessToken(
    user: Id, clientId: Id, grantId: Id, scopes: set<string>, audience: string, signedAt: nat, exp: nat)

  /** A Redis value and the instant it vanishes; none when the key was written without a lifetime. */
  datatype Timed<T> = Timed(value: T, until: Option<nat>)

  function Get<T>(store: map<Id, Timed<T>>, key: Id, now: nat): Option<T> {
    if key in store && (store[key].until.None? || now < store[key].until.value)
    then Some(store[key].value) else None
  }

  // ---- requests -------------------------------------------------------------------------------------------

  datatype AuthorizeInput = AuthorizeInput(
    clientId: Id, redirectUri: string, responseType: string, challengeMethod: string,
    challenge: Challenge, scope: Option<string>, resource: Option<string>)

  datatype ExchangeParams = ExchangeParams(
    code: Id, verifier: string, clientId: Id, redirectUri: string, resource: Option<string>)

  datatype RefreshParams = RefreshParams(
    token: RefreshToken, clientId: Id, scope: Option<string>, resource: Option<string>)

  datatype Outcome =
    | Page
    | Redirect(code: Id)
    | Tokens(jti: Id, refresh: RefreshToken, scopes: set<string>)
    | Refused
    | NullSession

  datatype Request =
    // GET /authorize
    | GetValidate(input: AuthorizeInput, browser: Option<Id>)
    | GetResolve(req: AuthRequest, user: Id)
    | GetStore(req: AuthRequest, session: Option<Id>)
    // POST /authorize
    | PostRead(ticket: Id, allow: bool, browser: Option<Id>)
    | PostLogin(ticket: Id, pending: Pending)
    | PostResolve(ticket: Id, pending: Pending, user: Id)
    | PostSkip(ticket: Id, user: Id, covering: Id)
    | PostPeek(ticket: Id, pending: Pending)
    | PostWrite(ticket: Id, pending: Pending)
    | PostTake(ticket: Id, allow: bool, browser: Option<Id>)
    // completing an authorization; `via` is the grant that made consent unnecessary
    | Complete(user: Id, req: AuthRequest, via: Option<Id>)
    | StoreCode(record: CodeRecord)
    // POST /token, authorization_code
    | ExTake(exchange: ExchangeParams)
    | ExSign(code: Id, record: CodeRecord)
    | ExStamp(code: Id, record: CodeRecord, jti: Id, exp: nat)
    | ExInsert(code: Id, record: CodeRecord, jti: Id, exp: nat, at: nat)
    // POST /token, refresh_token
    | RfFind(refresh: RefreshParams)
    | RfGrant(refresh: RefreshParams, row: GrantSession)
    | RfSign(refresh: RefreshParams, row: GrantSession, grant: Grant, scopes: set<string>)
    | RfStamp(refresh: RefreshParams, row: GrantSession, scopes: set<string>, jti: Id, exp: nat)
    | RfRotate(refresh: RefreshParams, row: GrantSession, scopes: set<string>, jti: Id, exp: nat, at: nat)
    | RfDenyStamp(retiring: Id, retiringExp: nat, outcome: Outcome)
    | RfDenySet(retiring: Id, retiringExp: nat, ttlSec: nat, at: nat, outcome: Outcome)
    | Done(outcome: Outcome)

  /** A user's approval of one scope for one client. */
  datatype Consent = Consent(user: Id, clientId: Id, scope: string)

  /** A refresh token and the access token handed over with it. */
  datatype Pair = Pair(refresh: RefreshToken, jti: Id)

  /** What has happened, kept for the proofs: no step reads it. */
  datatype History = History(
    drafts: map<Id, AuthRequest>,    // per ticket, the request it was created for
    signedIn: set<Id>,               // tickets that have carried a session
    taken: map<Id, nat>,             // per ticket, how often it was consumed
    consents: map<Consent, Id>,      // per approval, the ticket it was given on
    codes: map<Id, CodeRecord>,      // every authorization code
    redeemer: map<Id, Id>,           // per code that was stored and then consumed, the request that did it
    openedBy: map<Id, Id>,           // per connection, the code that opened it
    signed: map<Id, AccessToken>,    // every signed access token, by jti
    chain: map<Id, seq<Pair>>,       // per connection, every pair ever installed
    ceiling: map<Id, nat>,           // per connection, its absolute expiry
    spent: seq<RefreshToken>,        // refresh tokens in the order rotations spent them
    retirer: map<Id, Id>,            // per replaced jti, the request that replaced it
    revokedAt: map<Id, nat>)         // per grant, when its marker was last written

  datatype World = World(
    now: nat,
    audience: string,
    minted: set<Id>,
    clients: map<Id, Client>,        // every client ever registered, as it registered
    standing: set<Id>,               // the users and clients whose row is there
    tickets: map<Id, Timed<Pending>>,
    codes: map<Id, Timed<CodeRecord>>,
    grants: map<Id, Grant>,
    grantOf: map<(Id, Id), Id>,      // the unique index on (user, client)
    sessions: map<Id, GrantSession>,
    denied: map<Id, nat>,            // per jti, when the deny entry vanishes
    revoked: map<Id, nat>,           // per grant, when the revocation marker vanishes
    requests: map<Id, Request>,
    past: History)

  function Start(audience: string): World {
    World(0, audience, {}, map[], {}, map[], map[], map[], map[], map[], map[], map[], map[],
          History(map[], {}, map[], map[], map[], map[], map[], map[], map[], map[], [], map[], map[]))
  }

  // ---- SQL statements and Redis commands ------------------------------------------------------------------

  /** The deny entry's lifetime in seconds: `Math.ceil((exp - now) / 1000)`. */
  function DenyTtl(exp: nat, now: nat): int {
    if exp <= now then 0 else (exp - now + 999) / 1000
  }

  predicate Rotatable(sessions: map<Id, GrantSession>, id: Id, presented: RefreshToken, at: nat) {
    && id in sessions
    && sessions[id].current == presented
    && sessions[id].expiresAt > at
    && sessions[id].absoluteExpiresAt > at
  }

  function Rotated(row: GrantSession, next: RefreshToken, jti: Id, jtiExp: nat, sliding: nat): GrantSession {
    row.(current := next,
         previous := Some(row.current),
         jti := jti,
         jtiExp := jtiExp,
         expiresAt := if sliding < row.absoluteExpiresAt then sliding else row.absoluteExpiresAt)
  }

  /** The row `upsertGrant` writes to: the one the unique index holds for the pair, else a new one. */
  function GrantIdFor(w: World, user: Id, clientId: Id, drawn: Id): Id {
    if (user, clientId) in w.grantOf then w.grantOf[(user, clientId)] else drawn
  }

  function GrantedBefore(w: World, id: Id): set<string> {
    if id in w.grants then w.grants[id].scopes else {}
  }

  // ---- checks between the awaits --------------------------------------------------------------------------

  function Validate(w: World, input: AuthorizeInput): Option<AuthRequest> {
    if input.clientId !in w.clients || input.clientId !in w.standing then None
    else
      var client := w.clients[input.clientId];
      if input.redirectUri !in client.redirectUris then None
      else if input.responseType != "code" || input.challengeMethod != "S256" then None
      else if input.resource.Some? && input.resource.value != w.audience then None
      else
        var resolved := ResolveRequestedScopes(input.scope, client.scope);
        if resolved.Err? then None
        else Some(AuthRequest(input.clientId, input.redirectUri, Elements(resolved.value), input.challenge, w.audience))
  }

  /** `resolveGrant`: the grant that already covers the request, if there is one. */
  function Covering(w: World, user: Id, req: AuthRequest): Option<Id> {
    if (user, req.clientId) in w.grantOf then
      var id := w.grantOf[(user, req.clientId)];
      if id in w.grants && req.scopes <= w.grants[id].scopes then Some(id) else None
    else None
  }

  predicate Redeemable(record: CodeRecord, p: ExchangeParams) {
    && record.clientId == p.clientId
    && record.redirectUri == p.redirectUri
    && (p.resource.Some? ==> p.resource.value == record.resource)
    && record.challenge == S256(p.verifier)
  }

  predicate Matches(w: World, p: RefreshParams) {
    && (p.resource.Some? ==> p.resource.value == w.audience)
    && p.token.session in w.sessions
    && w.sessions[p.token.session].current == p.token
  }

  // ---- steps of a request ---------------------------------------------------------------------------------

  /** What a step may draw: two values to mint, and how a login turns out. */
  datatype Choice = Choice(drawn: Id, secret: Id, login: Option<Id>)

  function Move(w: World, r: Id, next: Request): World {
    w.(requests := w.requests[r := next])
  }

  function StoreTicket(w: World, r: Id, req: AuthRequest, session: Option<Id>, ticket: Id): World {
    Move(w, r, Done(Page)).(
      minted := w.minted + {ticket},
      tickets := w.tickets[ticket := Timed(Pending(req, session), Some(w.now + Ms(PENDING_AUTH_TTL_SEC)))],
      past := w.past.(
        drafts := w.past.drafts[ticket := req],
        signedIn := if session.Some? then w.past.signedIn + {ticket} else w.past.signedIn))
  }

  /** SET with KEEPTTL: a live key keeps its lifetime, an absent one is created without any. */
  function WriteTicket(w: World, r: Id, ticket: Id, pending: Pending): World {
    var until := if Get(w.tickets, ticket, w.now).Some? then w.tickets[ticket].until else None;
    Move(w, r, Done(Page)).(
      tickets := w.tickets[ticket := Timed(pending, until)],
      past := w.past.(signedIn := if pending.user.Some? then w.past.signedIn + {ticket} else w.past.signedIn))
  }

  /** GETDEL on a ticket, then `next` with what it held. */
  function TakeTicket(w: World, ticket: Id): World {
    var count := if ticket in w.past.taken then w.past.taken[ticket] else 0;
    w.(tickets := w.tickets - {ticket},
       past := w.past.(taken := if Get(w.tickets, ticket, w.now).Some?
                                then w.past.taken[ticket := count + 1] else w.past.taken))
  }

  function SkipConsent(w: World, r: Id, ticket: Id, user: Id, covering: Id): World {
    var pending := Get(w.tickets, ticket, w.now);
    Move(TakeTicket(w, ticket), r,
         if pending.None? then Done(Page) else Complete(user, pending.value.req, Some(covering)))
  }

  function Approve(consents: map<Consent, Id>, user: Id, req: AuthRequest, ticket: Id): map<Consent, Id> {
    consents + map scope | scope in req.scopes :: Consent(user, req.clientId, scope) := ticket
  }

  /** The consent form's outcome, given what the ticket held. */
  function AfterConsent(held: Option<Pending>, allow: bool, browser: Option<Id>): Request {
    if held.None? then Done(Page)
    else if browser.Some? && held.value.user.None? then Done(NullSession)
    else if browser.Some? && browser != held.value.user then Done(Page)
    else if !allow then Done(Refused)
    else if held.value.user.None? then Done(NullSession)
    else Complete(held.value.user.value, held.value.req, None)
  }

  function SubmitConsent(w: World, r: Id, ticket: Id, allow: bool, browser: Option<Id>): World {
    var next := AfterConsent(Get(w.tickets, ticket, w.now), allow, browser);
    var w1 := Move(TakeTicket(w, ticket), r, next);
    w1.(past := w1.past.(consents :=
      if next.Complete? then Approve(w1.past.consents, next.user, next.req, ticket) else w1.past.consents))
  }

  function WriteGrant(w: World, r: Id, user: Id, req: AuthRequest, drawn: Id): World {
    var id := GrantIdFor(w, user, req.clientId, drawn);
    var record := CodeRecord(user, req.clientId, id, req.redirectUri, req.scopes, req.challenge, req.resource);
    Move(w, r, StoreCode(record)).(
      minted := w.minted + {drawn},
      grants := w.grants[id := Grant(user, req.clientId, GrantedBefore(w, id) + req.scopes)],
      grantOf := w.grantOf[(user, req.clientId) := id])
  }

  /** The upsert; the foreign keys refuse a grant of a user, or to a client, that is gone. */
  function UpsertGrant(w: World, r: Id, user: Id, req: AuthRequest, drawn: Id): World {
    if user !in w.standing || req.clientId !in w.standing then Move(w, r, Done(Refused))
    else WriteGrant(w, r, user, req, drawn)
  }

  function IssueCode(w: World, r: Id, record: CodeRecord, code: Id): World {
    Move(w, r, Done(Redirect(code))).(
      minted := w.minted + {code},
      codes := w.codes[code := Timed(record, Some(w.now + Ms(AUTH_CODE_TTL_SEC)))],
      past := w.past.(codes := w.past.codes[code := record]))
  }

  function AfterCode(held: Option<CodeRecord>, p: ExchangeParams): Request {
    if held.None? || !Redeemable(held.value, p) then Done(Refused) else ExSign(p.code, held.value)
  }

  function TakeCode(w: World, r: Id, p: ExchangeParams): World {
    var held := Get(w.codes, p.code, w.now);
    Move(w, r, AfterCode(held, p)).(
      codes := w.codes - {p.code},
      past := w.past.(redeemer := if held.Some? then w.past.redeemer[p.code := r] else w.past.redeemer))
  }

  /** The expiry inside a token signed now, as an instant: the whole second the clock shows, plus the lifetime. */
  function ExpIfSigned(now: nat): nat {
    Ms(Sec(now) + OAUTH_ACCESS_TTL_SEC)
  }

  function SignFor(w: World, user: Id, clientId: Id, grantId: Id, scopes: set<string>, audience: string, jti: Id): World {
    w.(minted := w.minted + {jti},
       past := w.past.(signed := w.past.signed[jti :=
         AccessToken(user, clientId, grantId, scopes, audience, w.now, ExpIfSigned(w.now))]))
  }

  function SignFirst(w: World, r: Id, code: Id, record: CodeRecord, jti: Id): World {
    Move(SignFor(w, record.user, record.clientId, record.grantId, record.scopes, record.resource, jti),
         r, ExStamp(code, record, jti, ExpIfSigned(w.now)))
  }

  function SignNext(
    w: World, r: Id, p: RefreshParams, row: GrantSession, grant: Grant, scopes: set<string>, jti: Id): World
  {
    Move(SignFor(w, grant.user, grant.clientId, row.grantId, scopes, w.audience, jti),
         r, RfStamp(p, row, scopes, jti, ExpIfSigned(w.now)))
  }

  function Deny(w: World, r: Id, jti: Id, ttlSec: nat, outcome: Outcome): World {
    Move(w, r, Done(outcome)).(denied := w.denied[jti := w.now + Ms(ttlSec)])
  }

  function FirstRow(record: CodeRecord, token: RefreshToken, jti: Id, exp: nat, at: nat): GrantSession {
    GrantSession(record.grantId, token, None, jti, exp,
                 at + Ms(OAUTH_REFRESH_TTL_SEC), at + Ms(OAUTH_REFRESH_ABSOLUTE_TTL_SEC))
  }

  function InsertRow(w: World, r: Id, code: Id, record: CodeRecord, row: GrantSession): World {
    var id := row.current.session;
    Move(w, r, Done(Tokens(row.jti, row.current, record.scopes))).(
      minted := w.minted + {id, row.current.secret},
      sessions := w.sessions[id := row],
      past := w.past.(
        openedBy := w.past.openedBy[id := code],
        chain := w.past.chain[id := [Pair(row.current, row.jti)]],
        ceiling := w.past.ceiling[id := row.absoluteExpiresAt]))
  }

  /** The INSERT; the foreign key refuses a row under a grant that is gone. */
  function OpenSession(w: World, r: Id, code: Id, record: CodeRecord, jti: Id, exp: nat, at: nat, c: Choice): World {
    if record.grantId !in w.grants then Move(w, r, Done(Refused))
    else InsertRow(w, r, code, record, FirstRow(record, RefreshToken(c.drawn, c.secret), jti, exp, at))
  }

  function CheckGrant(w: World, p: RefreshParams, row: GrantSession): Request {
    if row.grantId !in w.grants then Done(Refused)
    else
      var grant := w.grants[row.grantId];
      var narrowed := NarrowScopes(p.scope, grant.scopes);
      if grant.clientId != p.clientId || narrowed.Err? then Done(Refused)
      else RfSign(p, row, grant, narrowed.value)
  }

  function RotateStep(w: World, r: Id, q: Request, secret: Id): World
    requires q.RfRotate?
  {
    var id := q.refresh.token.session;
    var next := RefreshToken(id, secret);
    if !Rotatable(w.sessions, id, q.refresh.token, q.at) then Move(w, r, Done(Refused))
    else
      var sliding := q.at + Ms(OAUTH_REFRESH_TTL_SEC);
      var links := if id in w.past.chain then w.past.chain[id] else [];
      Move(w, r, RfDenyStamp(q.row.jti, q.row.jtiExp, Tokens(q.jti, next, q.scopes))).(
        minted := w.minted + {secret},
        sessions := w.sessions[id := Rotated(w.sessions[id], next, q.jti, q.exp, sliding)],
        past := w.past.(
          chain := w.past.chain[id := links + [Pair(next, q.jti)]],
          spent := w.past.spent + [q.refresh.token],
          retirer := w.past.retirer[q.row.jti := r]))
  }

  /** Steps that read a table, a key or the clock and decide what comes next. */
  function Observe(w: World, q: Request, c: Choice): Request {
    match q
    case GetValidate(input, browser) =>
      var req := Validate(w, input);
      if req.None? then Done(Refused)
      else if browser.None? then GetStore(req.value, None)
      else GetResolve(req.value, browser.value)
    case GetResolve(req, user) =>
      var covering := Covering(w, user, req);
      if covering.Some? then Complete(user, req, covering) else GetStore(req, Some(user))
    case PostRead(ticket, allow, browser) =>
      var pending := Get(w.tickets, ticket, w.now);
      if pending.None? then Done(Page)
      else if pending.value.user.None? then PostLogin(ticket, pending.value)
      else PostTake(ticket, allow, browser)
    case PostLogin(ticket, pending) =>
      if c.login.None? then Done(Page)
      else PostResolve(ticket, pending.(user := c.login), c.login.value)
    case PostResolve(ticket, pending, user) =>
      var covering := Covering(w, user, pending.req);
      if covering.Some? then PostSkip(ticket, user, covering.value) else PostPeek(ticket, pending)
    case PostPeek(ticket, pending) =>
      if Get(w.tickets, ticket, w.now).None? then Done(Page) else PostWrite(ticket, pending)
    case ExStamp(code, record, jti, exp) => ExInsert(code, record, jti, exp, w.now)
    case RfFind(p) =>
      if Matches(w, p) then RfGrant(p, w.sessions[p.token.session]) else Done(Refused)
    case RfGrant(p, row) => CheckGrant(w, p, row)
    case RfStamp(p, row, scopes, jti, exp) => RfRotate(p, row, scopes, jti, exp, w.now)
    case RfDenyStamp(retiring, exp, outcome) =>
      var ttl := DenyTtl(exp, w.now);
      if ttl <= 0 then Done(outcome) else RfDenySet(retiring, exp, ttl, w.now, outcome)
    case _ => q
  }

  function Advance(w: World, r: Id, c: Choice): World
    requires r in w.requests
  {
    var q := w.requests[r];
    match q
    // Redis
    case GetStore(req, session) => if c.drawn in w.minted then w else StoreTicket(w, r, req, session, c.drawn)
    case PostSkip(ticket, user, covering) => SkipConsent(w, r, ticket, user, covering)
    case PostWrite(ticket, pending) => WriteTicket(w, r, ticket, pending)
    case PostTake(ticket, allow, browser) => SubmitConsent(w, r, ticket, allow, browser)
    case StoreCode(record) => if c.drawn in w.minted then w else IssueCode(w, r, record, c.drawn)
    case ExTake(p) => TakeCode(w, r, p)
    case RfDenySet(retiring, _, ttlSec, _, outcome) => Deny(w, r, retiring, ttlSec, outcome)
    // SQL
    case Complete(user, req, _) => if c.drawn in w.minted then w else UpsertGrant(w, r, user, req, c.drawn)
    case ExInsert(code, record, jti, exp, at) =>
      if c.drawn in w.minted || c.secret in w.minted || c.drawn == c.secret then w
      else OpenSession(w, r, code, record, jti, exp, at, c)
    case RfRotate(_, _, _, _, _, _) => if c.secret in w.minted then w else RotateStep(w, r, q, c.secret)
    // signing
    case ExSign(code, record) => if c.drawn in w.minted then w else SignFirst(w, r, code, record, c.drawn)
    case RfSign(p, row, grant, scopes) =>
      if c.drawn in w.minted then w else SignNext(w, r, p, row, grant, scopes, c.drawn)
    case _ => Move(w, r, Observe(w, q, c))
  }

  /** A step by its kind. */
  lemma AdvanceByKind(w: World, r: Id, c: Choice)
    requires r in w.requests
    ensures var q := w.requests[r];
            var w' := Advance(w, r, c);
            match q
            case GetStore(req, session) =>
              if c.drawn in w.minted then w' == w else w' == StoreTicket(w, r, req, session, c.drawn)
            case PostSkip(ticket, user, covering) => w' == SkipConsent(w, r, ticket, user, covering)
            case PostWrite(ticket, pending) => w' == WriteTicket(w, r, ticket, pending)
            case PostTake(ticket, allow, browser) => w' == SubmitConsent(w, r, ticket, allow, browser)
            case StoreCode(record) =>
              if c.drawn in w.minted then w' == w else w' == IssueCode(w, r, record, c.drawn)
            case ExTake(p) => w' == TakeCode(w, r, p)
            case RfDenySet(retiring, _, ttlSec, _, outcome) => w' == Deny(w, r, retiring, ttlSec, outcome)
            case Complete(user, req, _) =>
              if c.drawn in w.minted then w' == w else w' == UpsertGrant(w, r, user, req, c.drawn)
            case ExInsert(code, record, jti, exp, at) =>
              if c.drawn in w.minted || c.secret in w.minted || c.drawn == c.secret then w' == w
              else w' == OpenSession(w, r, code, record, jti, exp, at, c)
            case RfRotate(_, _, _, _, _, _) =>
              if c.secret in w.minted then w' == w else w' == RotateStep(w, r, q, c.secret)
            case ExSign(code, record) =>
              if c.drawn in w.minted then w' == w else w' == SignFirst(w, r, code, record, c.drawn)
            case RfSign(p, row, grant, scopes) =>
              if c.drawn in w.minted then w' == w else w' == SignNext(w, r, p, row, grant, scopes, c.drawn)
            case _ => w' == Move(w, r, Observe(w, q, c))
  {
  }

  /** Steps that write no table, key or record. */
  predicate Observes(q: Request) {
    && !q.GetStore? && !q.PostSkip? && !q.PostWrite? && !q.PostTake? && !q.StoreCode? && !q.ExTake? && !q.RfDenySet?
    && !q.Complete? && !q.ExInsert? && !q.RfRotate? && !q.ExSign? && !q.RfSign?
  }

  lemma AdvanceObserves(w: World, r: Id, c: Choice)
    requires r in w.requests && Observes(w.requests[r])
    ensures Advance(w, r, c) == Move(w, r, Observe(w, w.requests[r], c))
  {
  }

  // ---- what a step leaves alone ---------------------------------------------------------------------------

  /** The part of the stored state, history included, that a step can change. */
  datatype Part = Tickets | Codes | Grants | Connections | Signatures | Denials | Nothing

  function Touches(q: Request): Part {
    if q.GetStore? || q.PostWrite? || q.PostSkip? || q.PostTake? then Tickets
    else if q.StoreCode? || q.ExTake? then Codes
    else if q.Complete? then Grants
    else if q.ExInsert? || q.RfRotate? then Connections
    else if q.ExSign? || q.RfSign? then Signatures
    else if q.RfDenySet? then Denials
    else Nothing
  }

  predicate TicketsStay(w: World, w': World) {
    && w'.tickets == w.tickets && w'.past.drafts == w.past.drafts && w'.past.signedIn == w.past.signedIn
    && w'.past.taken == w.past.taken && w'.past.consents == w.past.consents
  }

  predicate CodesStay(w: World, w': World) {
    w'.codes == w.codes && w'.past.codes == w.past.codes && w'.past.redeemer == w.past.redeemer
  }

  predicate GrantsStay(w: World, w': World) {
    w'.grants == w.grants && w'.grantOf == w.grantOf
  }

  predicate ConnectionsStay(w: World, w': World) {
    && w'.sessions == w.sessions && w'.past.openedBy == w.past.openedBy && w'.past.chain == w.past.chain
    && w'.past.ceiling == w.past.ceiling && w'.past.spent == w.past.spent && w'.past.retirer == w.past.retirer
  }

  /** What no request ever changes. */
  predicate GroundStays(w: World, w': World) {
    && w'.now == w.now && w'.audience == w.audience && w'.clients == w.clients && w'.standing == w.standing
    && w'.revoked == w.revoked && w'.past.revokedAt == w.past.revokedAt && w.minted <= w'.minted
  }

  /** Everything but the part stays. */
  predicate Outside(w: World, w': World, part: Part) {
    && GroundStays(w, w')
    && (part.Tickets? || TicketsStay(w, w')) && (part.Codes? || CodesStay(w, w')) && (part.Grants? || GrantsStay(w, w'))
    && (part.Connections? || ConnectionsStay(w, w')) && (part.Signatures? || w'.past.signed == w.past.signed)
    && (part.Denials? || w'.denied == w.denied)
  }

  lemma ItselfOutside(w: World, part: Part)
    ensures Outside(w, w, part)
  {
  }

  lemma MoveOutside(w: World, r: Id, q: Request)
    ensures Outside(w, Move(w, r, q), Nothing)
  {
  }

  lemma LessOutside(w: World, w': World, part: Part)
    requires Outside(w, w', Nothing)
    ensures Outside(w, w', part)
  {
  }

  lemma NothingMoves(w: World, r: Id, q: Request, part: Part)
    ensures Outside(w, w, part) && Outside(w, Move(w, r, q), part)
  {
    hide *;
    ItselfOutside(w, part);
    MoveOutside(w, r, q);
    LessOutside(w, Move(w, r, q), part);
  }

  lemma TicketStays(w: World, r: Id, req: AuthRequest, session: Option<Id>, ticket: Id, pending: Pending)
    ensures Outside(w, StoreTicket(w, r, req, session, ticket), Tickets)
    ensures Outside(w, WriteTicket(w, r, ticket, pending), Tickets)
  {
  }

  lemma ConsentStays(w: World, r: Id, ticket: Id, user: Id, covering: Id, allow: bool, browser: Option<Id>)
    ensures Outside(w, SkipConsent(w, r, ticket, user, covering), Tickets)
    ensures Outside(w, SubmitConsent(w, r, ticket, allow, browser), Tickets)
  {
  }

  lemma IssueStays(w: World, r: Id, record: CodeRecord, code: Id)
    ensures Outside(w, IssueCode(w, r, record, code), Codes)
  {
  }

  lemma RedeemStays(w: World, r: Id, p: ExchangeParams)
    ensures Outside(w, TakeCode(w, r, p), Codes)
  {
  }

  lemma WriteGrantStays(w: World, r: Id, user: Id, req: AuthRequest, drawn: Id)
    ensures Outside(w, WriteGrant(w, r, user, req, drawn), Grants)
  {
  }

  lemma UpsertStays(w: World, r: Id, user: Id, req: AuthRequest, drawn: Id)
    ensures Outside(w, UpsertGrant(w, r, user, req, drawn), Grants)
  {
    hide Outside, Move, WriteGrant;
    NothingMoves(w, r, Done(Refused), Grants);
    WriteGrantStays(w, r, user, req, drawn);
  }

  lemma SignFirstStays(w: World, r: Id, code: Id, record: CodeRecord, jti: Id)
    ensures Outside(w, SignFirst(w, r, code, record, jti), Signatures)
  {
  }

  lemma SignNextStays(w: World, r: Id, p: RefreshParams, row: GrantSession, grant: Grant, scopes: set<string>, jti: Id)
    ensures Outside(w, SignNext(w, r, p, row, grant, scopes, jti), Signatures)
  {
  }

  lemma InsertStays(w: World, r: Id, code: Id, record: CodeRecord, row: GrantSession)
    ensures Outside(w, InsertRow(w, r, code, record, row), Connections)
  {
  }

  lemma OpenStays(w: World, r: Id, code: Id, record: CodeRecord, jti: Id, exp: nat, at: nat, c: Choice)
    ensures Outside(w, OpenSession(w, r, code, record, jti, exp, at, c), Connections)
  {
    hide Outside, Move, InsertRow;
    NothingMoves(w, r, Done(Refused), Connections);
    InsertStays(w, r, code, record, FirstRow(record, RefreshToken(c.drawn, c.secret), jti, exp, at));
  }

  lemma RotateStays(w: World, r: Id, q: Request, secret: Id)
    requires q.RfRotate?
    ensures Outside(w, RotateStep(w, r, q, secret), Connections)
  {
    if Rotatable(w.sessions, q.refresh.token.session, q.refresh.token, q.at) {
    } else {
      hide Outside, Move;
      NothingMoves(w, r, Done(Refused), Connections);
    }
  }

  lemma DenyStays(w: World, r: Id, jti: Id, ttlSec: nat, outcome: Outcome)
    ensures Outside(w, Deny(w, r, jti, ttlSec, outcome), Denials)
  {
  }

  /** A request's step changes at most the part its kind touches. */
  lemma AdvanceOutside(w: World, r: Id, c: Choice)
    requires r in w.requests
    ensures Outside(w, Advance(w, r, c), Touches(w.requests[r]))
  {
    var q := w.requests[r];
    if Observes(q) {
      hide *;
      AdvanceObserves(w, r, c);
      NothingMoves(w, r, Observe(w, q, c), Touches(q));
    } else {
      WriteOutside(w, r, c, q);
    }
  }

  lemma WriteOutside(w: World, r: Id, c: Choice, q: Request)
    requires r in w.requests && w.requests[r] == q && !Observes(q)
    ensures Outside(w, Advance(w, r, c), Touches(q))
  {
    hide Advance, Outside, StoreTicket, WriteTicket, SkipConsent, SubmitConsent, IssueCode, TakeCode, UpsertGrant,
      SignFirst, SignNext, OpenSession, RotateStep, Deny, Observe, Move;
    AdvanceByKind(w, r, c);
    NothingMoves(w, r, q, Touches(q));
    match q
    case GetStore(req, session) => TicketStays(w, r, req, session, c.drawn, Pending(req, session));
    case PostWrite(ticket, pending) => TicketStays(w, r, pending.req, None, ticket, pending);
    case PostSkip(ticket, user, covering) => ConsentStays(w, r, ticket, user, covering, false, None);
    case PostTake(ticket, allow, browser) => ConsentStays(w, r, ticket, 0, 0, allow, browser);
    case StoreCode(record) => IssueStays(w, r, record, c.drawn);
    case ExTake(p) => RedeemStays(w, r, p);
    case RfDenySet(retiring, _, ttlSec, _, outcome) => DenyStays(w, r, retiring, ttlSec, outcome);
    case Complete(user, req, _) => UpsertStays(w, r, user, req, c.drawn);
    case ExInsert(code, record, jti, exp, at) => OpenStays(w, r, code, record, jti, exp, at, c);
    case RfRotate(_, _, _, _, _, _) => RotateStays(w, r, q, c.secret);
    case ExSign(code, record) => SignFirstStays(w, r, code, record, c.drawn);
    case RfSign(p, row, grant, scopes) => SignNextStays(w, r, p, row, grant, scopes, c.drawn);
    case _ =>
  }

  // ---- events ---------------------------------------------------------------------------------------------

  datatype Call =
    | Authorize(input: AuthorizeInput, browser: Option<Id>)
    | Submit(ticket: Id, allow: bool, browser: Option<Id>)
    | Exchange(exchange: ExchangeParams)
    | Refresh(refresh: RefreshParams)

  function Entry(call: Call): Request {
    match call
    case Authorize(input, browser) => GetValidate(input, browser)
    case Submit(ticket, allow, browser) => PostRead(ticket, allow, browser)
    case Exchange(p) => ExTake(p)
    case Refresh(p) => RfFind(p)
  }

  datatype Event =
    | Tick(ms: nat)
    | SignUp(id: Id)
    | Register(id: Id, client: Client)
    | Arrive(request: Id, call: Call)
    | Go(request: Id, choice: Choice)
    | DropRow(id: Id)                 // deleteUser, or a client row going: its grants and their sessions go with it
    | RevokeMark(grantId: Id)         // denyGrant
    | DropSessions(grantId: Id)       // deleteGrantSessionsByGrant
    | Sweep(at: nat)                  // pruneExpiredGrantSessions, with the instant it read

  function WithoutGrant(sessions: map<Id, GrantSession>, grantId: Id): map<Id, GrantSession> {
    map id | id in sessions && sessions[id].grantId != grantId :: sessions[id]
  }

  predicate GrantOn(grant: Grant, id: Id) {
    grant.user == id || grant.clientId == id
  }

  /** ON DELETE CASCADE, from a user or client to its grants, from a grant to its sessions. */
  function Cascade(w: World, id: Id): World {
    w.(standing := w.standing - {id},
       grants := map g | g in w.grants && !GrantOn(w.grants[g], id) :: w.grants[g],
       grantOf := map k | k in w.grantOf && k.0 != id && k.1 != id :: w.grantOf[k],
       sessions := map x | x in w.sessions
         && !(w.sessions[x].grantId in w.grants && GrantOn(w.grants[w.sessions[x].grantId], id)) :: w.sessions[x])
  }

  function Unexpired(sessions: map<Id, GrantSession>, at: nat): map<Id, GrantSession> {
    map id | id in sessions && !(sessions[id].expiresAt < at || sessions[id].absoluteExpiresAt < at) :: sessions[id]
  }

  function Step(w: World, e: Event): World {
    match e
    case Tick(ms) => w.(now := w.now + ms)
    case SignUp(id) =>
      if id in w.minted then w else w.(minted := w.minted + {id}, standing := w.standing + {id})
    case Register(id, client) =>
      if id in w.minted then w
      else w.(minted := w.minted + {id}, clients := w.clients[id := client], standing := w.standing + {id})
    case Arrive(r, call) => if r in w.requests then w else Move(w, r, Entry(call))
    case Go(r, c) => if r in w.requests then Advance(w, r, c) else w
    case DropRow(id) => Cascade(w, id)
    case RevokeMark(g) =>
      w.(revoked := w.revoked[g := w.now + Ms(OAUTH_ACCESS_TTL_SEC)],
         past := w.past.(revokedAt := w.past.revokedAt[g := w.now]))
    case DropSessions(g) => w.(sessions := WithoutGrant(w.sessions, g))
    case Sweep(at) => if at <= w.now then w.(sessions := Unexpired(w.sessions, at)) else w
  }

  function Run(w: World, events: seq<Event>): World
    decreases |events|
  {
    if events == [] then w else Step(Run(w, events[..|events| - 1]), events[|events| - 1])
  }

  /** The state after the first i events of a run. */
  function At(audience: string, events: seq<Event>, i: nat): World
    requires i <= |events|
  {
    Run(Start(audience), events[..i])
  }

  lemma {:induction false} RunSplits(w: World, first: seq<Event>, rest: seq<Event>)
    ensures Run(w, first + rest) == Run(Run(w, first), rest)
    decreases |rest|
  {
    if rest == [] {
      assert first + rest == first;
    } else {
      var all := first + rest;
      assert all[..|all| - 1] == first + rest[..|rest| - 1];
      RunSplits(w, first, rest[..|rest| - 1]);
    }
  }

  lemma AtNext(audience: string, events: seq<Event>, i: nat)
    requires i < |events|
    ensures At(audience, events, i + 1) == Step(At(audience, events, i), events[i])
  {
    assert events[..i + 1][..i] == events[..i];
  }

  // ---- events outside any request -------------------------------------------------------------------------

  predicate Enters(q: Request) {
    q.GetValidate? || q.PostRead? || q.ExTake? || q.RfFind?
  }

  /** Time passes, requests and clients arrive, rows go; nothing else that a proof rests on changes. */
  ghost predicate OnlyForgets(w: World, w': World) {
    && w'.audience == w.audience && w.now <= w'.now && w.minted <= w'.minted
    && w'.tickets == w.tickets && w'.codes == w.codes && w'.denied == w.denied
    && w'.past == w.past.(revokedAt := w'.past.revokedAt)
    && (w.clients.Keys <= w.minted ==>
          w'.clients.Keys <= w'.minted
          && forall c :: c in w.clients ==> c in w'.clients && w'.clients[c] == w.clients[c])
    && (w.standing <= w.minted ==> w'.standing <= w'.minted)
    && (forall x :: x in w'.standing && x in w.minted ==> x in w.standing)
    && (forall g :: g in w'.grants ==> g in w.grants && w'.grants[g] == w.grants[g])
    && (forall g :: g in w.grants && w.grants[g].user in w'.standing && w.grants[g].clientId in w'.standing ==>
          g in w'.grants)
    && (forall id :: id in w'.sessions ==> id in w.sessions && w'.sessions[id] == w.sessions[id])
    && (forall x :: x in w.requests ==> x in w'.requests && w'.requests[x] == w.requests[x])
    && (forall x :: x in w'.requests && x !in w.requests ==> Enters(w'.requests[x]))
  }

  lemma TickForgets(w: World, ms: nat)
    ensures OnlyForgets(w, Step(w, Tick(ms)))
  {
  }

  lemma SignUpForgets(w: World, id: Id)
    ensures OnlyForgets(w, Step(w, SignUp(id)))
  {
    if id in w.minted {}
  }

  lemma RegisterForgets(w: World, id: Id, client: Client)
    ensures OnlyForgets(w, Step(w, Register(id, client)))
  {
    if id in w.minted {}
  }

  lemma ArriveForgets(w: World, r: Id, call: Call)
    ensures OnlyForgets(w, Step(w, Arrive(r, call)))
  {
    if r in w.requests {
    } else {
      EntryEnters(call);
      hide Entry, Enters;
    }
  }

  lemma EntryEnters(call: Call)
    ensures Enters(Entry(call))
  {
  }

  lemma DropRowForgets(w: World, id: Id)
    ensures OnlyForgets(w, Step(w, DropRow(id)))
  {
  }

  lemma MarkForgets(w: World, g: Id)
    ensures OnlyForgets(w, Step(w, RevokeMark(g)))
  {
  }

  lemma DropSessionsForgets(w: World, g: Id)
    ensures OnlyForgets(w, Step(w, DropSessions(g)))
  {
  }

  lemma SweepForgets(w: World, at: nat)
    ensures OnlyForgets(w, Step(w, Sweep(at)))
  {
    if at <= w.now {}
  }

  lemma OutsideOnlyForgets(w: World, e: Event)
    requires !e.Go?
    ensures OnlyForgets(w, Step(w, e))
  {
    match e
    case Tick(ms) => TickForgets(w, ms);
    case SignUp(id) => SignUpForgets(w, id);
    case Register(id, client) => RegisterForgets(w, id, client);
    case Arrive(r, call) => ArriveForgets(w, r, call);
    case DropRow(id) => DropRowForgets(w, id);
    case RevokeMark(g) => MarkForgets(w, g);
    case DropSessions(g) => DropSessionsForgets(w, g);
    case Sweep(at) => SweepForgets(w, at);
  }

  // ---- the resource server --------------------------------------------------------------------------------

  /** The token's own checks at the MCP endpoint: claims readable, not past expiry plus tolerance. */
  predicate TokenVerifies(w: World, jti: Id) {
    && jti in w.past.signed
    && w.past.signed[jti].audience == w.audience
    && w.past.signed[jti].scopes != {}
    && Ms(Sec(w.now)) < w.past.signed[jti].exp + Ms(CLOCK_TOLERANCE_SEC)
  }

  /** `isAccessTokenDenied`. */
  predicate TokenDenied(w: World, jti: Id, grantId: Id) {
    || (jti in w.denied && w.now < w.denied[jti])
    || (grantId in w.revoked && w.now < w.revoked[grantId])
  }

  predicate Accepted(w: World, jti: Id) {
    TokenVerifies(w, jti) && !TokenDenied(w, jti, w.past.signed[jti].grantId)
  }
}
