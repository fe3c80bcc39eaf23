/**
 * An access token that a refresh retired and denied, and that the resource server accepts again: exactly when this
 * happens after an undisturbed refresh, and one run in which it does.
 */
module OauthReplay {
  import opened Wrappers
  import opened Text
  import opened Scopes
  import opened Config
  import opened OauthWorld
  import opened OauthStore
  import opened OauthAlone
  import R = OauthRotation
  import F = OauthConsent
  import C = OauthCodes
  import A = OauthAuthorizations
  import V = OauthRevocations
  import D = OauthDenials

  // ---- what a request and the clock leave as it is --------------------------------------------------------

  ghost predicate Endures(w: World, w': World) {
    && C.Sound(w')
    && w'.audience == w.audience && w'.revoked == w.revoked && w'.standing == w.standing && w'.clients == w.clients
    && (forall j :: j in w.past.signed ==> j in w'.past.signed && w'.past.signed[j] == w.past.signed[j])
  }

  lemma EnduresMade(w: World, w': World)
    requires C.Sound(w') && R.Later(w, w') && GroundStays(w.(now := w'.now), w')
    ensures Endures(w, w')
  {
    hide C.Sound;
  }

  lemma GoGround(w: World, r: Id, c: Choice)
    ensures GroundStays(w, Step(w, Go(r, c)))
  {
    if r in w.requests {
      AdvanceOutside(w, r, c);
      hide Advance, Touches;
    }
  }

  lemma GoEndures(w: World, r: Id, c: Choice)
    requires C.Sound(w)
    ensures Endures(w, Step(w, Go(r, c)))
  {
    hide *;
    C.StepSound(w, Go(r, c));
    GoGround(w, r, c);
    GroundOnly(w, Step(w, Go(r, c)));
    EnduresMade(w, Step(w, Go(r, c)));
  }

  lemma GroundOnly(w: World, w': World)
    requires GroundStays(w, w')
    ensures GroundStays(w.(now := w'.now), w')
  {
  }

  lemma TickEndures(w: World, ms: nat)
    requires C.Sound(w)
    ensures Endures(w, Step(w, Tick(ms)))
  {
    C.StepSound(w, Tick(ms));
    hide C.Sound, R.Later, F.Grown, C.Accrues;
    EnduresMade(w, Step(w, Tick(ms)));
  }

  lemma EnduresOn(w: World, w1: World, w2: World)
    requires Endures(w, w1) && Endures(w1, w2)
    ensures Endures(w, w2)
  {
    hide C.Sound;
  }

  lemma EnduresSound(w: World, w': World)
    requires Endures(w, w')
    ensures C.Sound(w')
  {
  }

  /** A step of the request, time passing, a step of the request. */
  lemma GoTickGoEndures(w: World, r: Id, c: Choice, d: nat, e: Choice)
    requires C.Sound(w)
    ensures Endures(w, Step(Step(Step(w, Go(r, c)), Tick(d)), Go(r, e)))
  {
    hide *;
    var w1 := Step(w, Go(r, c));
    var w2 := Step(w1, Tick(d));
    GoEndures(w, r, c);
    EnduresSound(w, w1);
    TickEndures(w1, d);
    EnduresSound(w1, w2);
    GoEndures(w2, r, e);
    EnduresOn(w, w1, w2);
    EnduresOn(w, w2, Step(w2, Go(r, e)));
  }

  lemma GoGoEndures(w: World, r: Id, c: Choice, e: Choice)
    requires C.Sound(w)
    ensures Endures(w, Step(Step(w, Go(r, c)), Go(r, e)))
  {
    hide *;
    var w1 := Step(w, Go(r, c));
    GoEndures(w, r, c);
    EnduresSound(w, w1);
    GoEndures(w1, r, e);
    EnduresOn(w, w1, Step(w1, Go(r, e)));
  }

  lemma AloneIs(w: World, r: Id, c: Choice, d1: nat, d2: nat)
    ensures var w2 := Step(Step(w, Go(r, c)), Go(r, c));
            var w5 := Step(Step(Step(w2, Go(r, c)), Tick(d1)), Go(r, c));
            var w8 := Step(Step(Step(w5, Go(r, c)), Tick(d2)), Go(r, c));
            Alone(w, r, c, d1, d2) == Step(w8, Go(r, c))
  {
    hide Step;
  }

  lemma AloneEndures(w: World, r: Id, c: Choice, d1: nat, d2: nat)
    requires C.Sound(w)
    ensures Endures(w, Alone(w, r, c, d1, d2))
  {
    hide *;
    AloneIs(w, r, c, d1, d2);
    var w2 := Step(Step(w, Go(r, c)), Go(r, c));
    var w5 := Step(Step(Step(w2, Go(r, c)), Tick(d1)), Go(r, c));
    var w8 := Step(Step(Step(w5, Go(r, c)), Tick(d2)), Go(r, c));
    GoGoEndures(w, r, c, c);
    EnduresSound(w, w2);
    GoTickGoEndures(w2, r, c, d1, c);
    EnduresSound(w2, w5);
    GoTickGoEndures(w5, r, c, d2, c);
    EnduresSound(w5, w8);
    GoEndures(w8, r, c);
    EnduresOn(w, w2, w5);
    EnduresOn(w, w5, w8);
    EnduresOn(w, w8, Step(w8, Go(r, c)));
  }

  // ---- after a refresh ------------------------------------------------------------------------------------

  /** The row a refresh reads names a signed token, which expires when the row says, at this resource server. */
  lemma RowNamesItsToken(w: World, id: Id)
    requires C.Sound(w) && id in w.sessions
    ensures var row := w.sessions[id];
            && row.jti in w.past.signed && w.past.signed[row.jti].exp == row.jtiExp && row.jtiExp % 1000 == 0
            && w.past.signed[row.jti].audience == w.audience && w.past.signed[row.jti].grantId == row.grantId
  {
    hide *;
    SoundParts(w);
    RowSigned(w, id);
    ChainNames(w, id);
    SignedHere(w, w.sessions[id].jti);
  }

  lemma SoundParts(w: World)
    requires C.Sound(w)
    ensures R.RowsOk(w) && R.SignedOk(w) && C.RowsNameTheirGrant(w) && C.ChainsNameTheirCode(w) && F.TokensOk(w)
  {
    hide R.RowsOk, R.SignedOk, C.RowsNameTheirGrant, C.ChainsNameTheirCode, F.TokensOk;
  }

  lemma RowSigned(w: World, id: Id)
    requires R.RowsOk(w) && R.SignedOk(w) && id in w.sessions
    ensures R.RowOk(w, id, w.sessions[id])
    ensures var row := w.sessions[id];
            row.jti in w.past.signed && w.past.signed[row.jti].exp == row.jtiExp && row.jtiExp % 1000 == 0
  {
  }

  lemma ChainNames(w: World, id: Id)
    requires id in w.sessions && R.RowOk(w, id, w.sessions[id]) && C.RowsNameTheirGrant(w) && C.ChainsNameTheirCode(w)
    ensures w.sessions[id].jti in w.past.signed
    ensures w.past.signed[w.sessions[id].jti].grantId == w.sessions[id].grantId
  {
    var links := w.past.chain[id];
    assert C.LinksOk(w, id) && C.Names(w, id, links[|links| - 1].jti);
  }

  lemma SignedHere(w: World, jti: Id)
    requires F.TokensOk(w) && jti in w.past.signed
    ensures w.past.signed[jti].audience == w.audience
  {
    assert F.TokenOk(w, w.past.signed[jti]);
  }

  /** A denial written before the token's expiry ends in the expiry's own second. */
  lemma EntryEndsWithTheToken(exp: nat, at: nat)
    requires at < exp && exp % 1000 == 0
    ensures DenyTtl(exp, at) > 0 && exp <= at + Ms(DenyTtl(exp, at)) < exp + 1000
  {
  }

  lemma WinningDenies(w: World, w': World, r: Id, p: RefreshParams, jti: Id, secret: Id, d1: nat, d2: nat)
    requires Refreshed(w, w', r, p, jti, secret, d1, d2)
    requires RefreshAllowed(w.sessions, w.grants, w.audience, p, w.now + d1)
    ensures var row := w.sessions[p.token.session];
            w'.now == w.now + d1 + d2 && w'.denied == DeniedBy(w.denied, row.jti, row.jtiExp, w'.now)
  {
    hide DeniedBy, Rotated, Wanted;
  }

  /** What the new deny entry means for the token. */
  lemma EntryLapses(w: World, jti: Id, g: Id, exp: nat, denied: map<Id, nat>)
    requires jti in w.past.signed && w.past.signed[jti].exp == exp && exp % 1000 == 0 && w.past.signed[jti].grantId == g
    requires w.now < exp && w.denied == DeniedBy(denied, jti, exp, w.now)
    ensures TokenDenied(w, jti, g) && jti in w.denied
    ensures Ms(Sec(V.RefusedUntil(w, jti))) < exp + Ms(CLOCK_TOLERANCE_SEC) <==>
      !(g in w.revoked && exp + Ms(CLOCK_TOLERANCE_SEC) <= w.revoked[g])
  {
    EntryEndsWithTheToken(exp, w.now);
  }

  /**
   * After an undisturbed refresh that retired it in time, a token is refused, and can be accepted at some later point,
   * whatever happens in between: always if it carries a scope, unless its grant's marker outlasts the tolerance.
   */
  lemma RetiredTokenRunsAgainExactly(
    audience: string, events: seq<Event>, w: World, r: Id, p: RefreshParams, c: Choice, d1: nat, d2: nat,
    row: GrantSession)
    requires w == Run(Start(audience), events) && r in w.requests && w.requests[r] == RfFind(p)
    requires c.drawn !in w.minted && c.secret !in w.minted && c.drawn != c.secret
    requires RefreshAllowed(w.sessions, w.grants, w.audience, p, w.now + d1) && row == w.sessions[p.token.session]
    requires w.now + d1 + d2 < row.jtiExp
    ensures row.jti in w.past.signed
    ensures var w' := Alone(w, r, c, d1, d2);
            && TokenDenied(w', row.jti, row.grantId)
            && ((exists later :: Accepted(Run(w', later), row.jti)) <==>
                  w.past.signed[row.jti].scopes != {}
                  && !(row.grantId in w.revoked && row.jtiExp + Ms(CLOCK_TOLERANCE_SEC) <= w.revoked[row.grantId]))
  {
    var w' := Alone(w, r, c, d1, d2);
    assert p.token.session in w.sessions;
    hide *;
    A.AlwaysSound(audience, events);
    RowNamesItsToken(w, p.token.session);
    AloneEndures(w, r, c, d1, d2);
    StillSigned(w, w', row.jti);
    UndisturbedRefreshSucceedsExactly(w, r, p, c, d1, d2);
    WinningDenies(w, w', r, p, c.drawn, c.secret, d1, d2);
    EntryLapses(w', row.jti, row.grantId, row.jtiExp, w.denied);
    LeadsNowhere(w);
    AloneLeads(w, w, r, c, d1, d2);
    var more := EventsTo(w, w');
    RunSplits(Start(audience), events, more);
    D.DeniedTokenRunsAgainExactly(audience, events + more, row.jti);
  }

  lemma StillSigned(w: World, w': World, jti: Id)
    requires Endures(w, w') && jti in w.past.signed
    ensures jti in w'.past.signed && w'.past.signed[jti] == w.past.signed[jti]
    ensures w'.audience == w.audience && w'.revoked == w.revoked
  {
    hide C.Sound;
  }

  // ---- one such run ---------------------------------------------------------------------------------------

  /*
   * A user signs in to a client, allows it one scope, and the client exchanges the code and refreshes at once.
   * 1 is the user, 2 the client, 3 the ticket, 4 the grant, 5 the code, 6 and 9 access tokens, 7 the connection.
   */
  const CLIENT := Client({"app:/done"}, Some("profile:read"))
  const ASK := AuthorizeInput(2, "app:/done", "code", "S256", S256("verifier"), None, None)
  const EXCHANGE := ExchangeParams(5, "verifier", 2, "app:/done", None)
  const REFRESH := RefreshParams(RefreshToken(7, 8), 2, None, None)

  function Draw(drawn: Id, secret: Id): Choice {
    Choice(drawn, secret, None)
  }

  function Wish(audience: string): AuthRequest {
    AuthRequest(2, "app:/done", {"profile:read"}, S256("verifier"), audience)
  }

  function Written(audience: string): CodeRecord {
    CodeRecord(1, 2, 4, "app:/done", {"profile:read"}, S256("verifier"), audience)
  }

  function Tickets(audience: string): map<Id, Timed<Pending>> {
    map[3 := Timed(Pending(Wish(audience), Some(1)), Some(600_000))]
  }

  function Codes(audience: string): map<Id, Timed<CodeRecord>> {
    map[5 := Timed(Written(audience), Some(60_000))]
  }

  function Granted(): map<Id, Grant> {
    map[4 := Grant(1, 2, {"profile:read"})]
  }

  function Opening(audience: string): World {
    Step(Step(Start(audience), SignUp(1)), Register(2, CLIENT))
  }

  function Ticketed(audience: string): World {
    var w := Step(Opening(audience), Arrive(1, Authorize(ASK, Some(1))));
    Step(Step(Step(w, Go(1, Draw(0, 0))), Go(1, Draw(0, 0))), Go(1, Draw(3, 0)))
  }

  function Coded(audience: string): World {
    var w := Step(Ticketed(audience), Arrive(2, Submit(3, true, Some(1))));
    Step(Step(Step(Step(w, Go(2, Draw(0, 0))), Go(2, Draw(0, 0))), Go(2, Draw(4, 0))), Go(2, Draw(5, 0)))
  }

  function Connected(audience: string): World {
    ExchangedAlone(Step(Coded(audience), Arrive(3, Exchange(EXCHANGE))), 3, Draw(6, 0), Draw(7, 8), 0)
  }

  function Refreshing(audience: string): World {
    Step(Connected(audience), Arrive(4, Refresh(REFRESH)))
  }

  /** What the run has put where, but for the tables no later step of it reads; request r is the latest to arrive. */
  predicate Shows(
    w: World, audience: string, minted: set<Id>, tickets: map<Id, Timed<Pending>>, codes: map<Id, Timed<CodeRecord>>,
    grants: map<Id, Grant>, grantOf: map<(Id, Id), Id>)
  {
    && w.now == 0 && w.audience == audience && w.minted == minted && w.clients == map[2 := CLIENT]
    && w.standing == {1, 2} && w.tickets == tickets && w.codes == codes && w.grants == grants && w.grantOf == grantOf
  }

  predicate Latest(w: World, r: Id, q: Request) {
    && r in w.requests && w.requests[r] == q
    && forall x :: x in w.requests ==> x <= r
  }

  lemma OpeningShows(audience: string)
    ensures Shows(Opening(audience), audience, {1, 2}, map[], map[], map[], map[])
    ensures Opening(audience).requests == map[]
  {
  }

  lemma ArriveShows(
    w: World, audience: string, minted: set<Id>, tickets: map<Id, Timed<Pending>>, codes: map<Id, Timed<CodeRecord>>,
    grants: map<Id, Grant>, grantOf: map<(Id, Id), Id>, r: Id, call: Call)
    requires Shows(w, audience, minted, tickets, codes, grants, grantOf)
    requires forall x :: x in w.requests ==> x < r
    ensures var w' := Step(w, Arrive(r, call));
            Shows(w', audience, minted, tickets, codes, grants, grantOf) && Latest(w', r, Entry(call))
  {
    hide Entry;
  }

  lemma ObserveShows(
    w: World, audience: string, minted: set<Id>, tickets: map<Id, Timed<Pending>>, codes: map<Id, Timed<CodeRecord>>,
    grants: map<Id, Grant>, grantOf: map<(Id, Id), Id>, r: Id, q: Request, c: Choice)
    requires Shows(w, audience, minted, tickets, codes, grants, grantOf) && Latest(w, r, q) && Observes(q)
    ensures var w' := Step(w, Go(r, c));
            Shows(w', audience, minted, tickets, codes, grants, grantOf) && Latest(w', r, Observe(w, q, c))
  {
    AdvanceObserves(w, r, c);
    hide Advance, Observe, Observes;
  }

  lemma OneWord()
    ensures Words("profile:read") == ["profile:read"]
  {
    SplitOne("profile:read", ' ');
    var word := ["profile:read"];
    assert DropEmpty(word) == word + DropEmpty(word[1..]);
  }

  lemma AskIsValid(w: World, audience: string)
    requires w.clients == map[2 := CLIENT] && 2 in w.standing && w.audience == audience
    ensures Validate(w, ASK) == Some(Wish(audience))
  {
    OneWord();
    ResolvedExactlyUnderCeiling(None, Some("profile:read"));
    assert Elements(["profile:read"]) == {"profile:read"};
    hide Words, ResolveRequestedScopes;
  }

  lemma TicketStored(w: World, audience: string)
    requires Shows(w, audience, {1, 2}, map[], map[], map[], map[]) && Latest(w, 1, GetStore(Wish(audience), Some(1)))
    ensures var w' := Step(w, Go(1, Draw(3, 0)));
            && Shows(w', audience, {1, 2, 3}, Tickets(audience), map[], map[], map[])
            && Latest(w', 1, Done(Page))
  {
    AdvanceByKind(w, 1, Draw(3, 0));
    hide Advance;
  }

  lemma ValidateObserved(w: World, audience: string, c: Choice)
    requires w.clients == map[2 := CLIENT] && 2 in w.standing && w.audience == audience
    ensures Observe(w, GetValidate(ASK, Some(1)), c) == GetResolve(Wish(audience), 1)
  {
    AskIsValid(w, audience);
    hide Validate;
  }

  lemma ResolveObserved(w: World, audience: string, c: Choice)
    requires w.grantOf == map[]
    ensures Observe(w, GetResolve(Wish(audience), 1), c) == GetStore(Wish(audience), Some(1))
  {
  }

  lemma ShowsTells(
    w: World, audience: string, minted: set<Id>, tickets: map<Id, Timed<Pending>>, codes: map<Id, Timed<CodeRecord>>,
    grants: map<Id, Grant>, grantOf: map<(Id, Id), Id>)
    requires Shows(w, audience, minted, tickets, codes, grants, grantOf)
    ensures w.clients == map[2 := CLIENT] && 2 in w.standing && w.audience == audience && w.grantOf == grantOf
    ensures w.tickets == tickets && w.now == 0
  {
  }

  lemma LatestTells(w: World, r: Id, q: Request)
    requires Latest(w, r, q)
    ensures r in w.requests && w.requests[r] == q && forall x :: x in w.requests ==> x < r + 1
  {
  }

  lemma EntriesAre(audience: string)
    ensures Entry(Authorize(ASK, Some(1))) == GetValidate(ASK, Some(1))
    ensures Entry(Submit(3, true, Some(1))) == PostRead(3, true, Some(1))
    ensures Entry(Exchange(EXCHANGE)) == ExTake(EXCHANGE) && Entry(Refresh(REFRESH)) == RfFind(REFRESH)
    ensures Observes(GetValidate(ASK, Some(1))) && Observes(GetResolve(Wish(audience), 1))
    ensures Observes(PostRead(3, true, Some(1)))
  {
  }

  lemma TicketedIs(audience: string)
    ensures var w := Step(Opening(audience), Arrive(1, Authorize(ASK, Some(1))));
            Ticketed(audience) == Step(Step(Step(w, Go(1, Draw(0, 0))), Go(1, Draw(0, 0))), Go(1, Draw(3, 0)))
  {
    hide Step, Opening, Draw;
  }

  lemma TicketedShows(audience: string)
    ensures Shows(Ticketed(audience), audience, {1, 2, 3}, Tickets(audience), map[], map[], map[])
    ensures Latest(Ticketed(audience), 1, Done(Page))
  {
    hide *;
    var w0 := Opening(audience);
    var w1 := Step(w0, Arrive(1, Authorize(ASK, Some(1))));
    var w2 := Step(w1, Go(1, Draw(0, 0)));
    var w3 := Step(w2, Go(1, Draw(0, 0)));
    TicketedIs(audience);
    EntriesAre(audience);
    OpeningShows(audience);
    ArriveShows(w0, audience, {1, 2}, map[], map[], map[], map[], 1, Authorize(ASK, Some(1)));
    ShowsTells(w1, audience, {1, 2}, map[], map[], map[], map[]);
    ValidateObserved(w1, audience, Draw(0, 0));
    ObserveShows(w1, audience, {1, 2}, map[], map[], map[], map[], 1, GetValidate(ASK, Some(1)), Draw(0, 0));
    ShowsTells(w2, audience, {1, 2}, map[], map[], map[], map[]);
    ResolveObserved(w2, audience, Draw(0, 0));
    ObserveShows(w2, audience, {1, 2}, map[], map[], map[], map[], 1, GetResolve(Wish(audience), 1), Draw(0, 0));
    TicketStored(w3, audience);
  }

  lemma ReadObserved(w: World, audience: string, c: Choice)
    requires w.tickets == Tickets(audience) && w.now == 0
    ensures Observe(w, PostRead(3, true, Some(1)), c) == PostTake(3, true, Some(1))
  {
  }

  lemma TicketTaken(w: World, audience: string, minted: set<Id>)
    requires Shows(w, audience, minted, Tickets(audience), map[], map[], map[])
    requires Latest(w, 2, PostTake(3, true, Some(1)))
    ensures var w' := Step(w, Go(2, Draw(0, 0)));
            && Shows(w', audience, minted, map[], map[], map[], map[])
            && Latest(w', 2, Complete(1, Wish(audience), None))
  {
    AdvanceByKind(w, 2, Draw(0, 0));
    hide Advance;
    AllowedByTheUser(w, audience);
    hide Get, AfterConsent;
  }

  lemma AllowedByTheUser(w: World, audience: string)
    requires w.tickets == Tickets(audience) && w.now == 0
    ensures AfterConsent(Get(w.tickets, 3, 0), true, Some(1)) == Complete(1, Wish(audience), None)
    ensures w.tickets - {3} == map[]
  {
  }

  lemma GrantWritten(w: World, audience: string)
    requires Shows(w, audience, {1, 2, 3}, map[], map[], map[], map[]) && Latest(w, 2, Complete(1, Wish(audience), None))
    ensures var w' := Step(w, Go(2, Draw(4, 0)));
            && Shows(w', audience, {1, 2, 3, 4}, map[], map[], Granted(), map[(1, 2) := 4])
            && Latest(w', 2, StoreCode(Written(audience)))
  {
    AdvanceByKind(w, 2, Draw(4, 0));
    hide Advance;
    assert GrantedBefore(w, 4) + Wish(audience).scopes == {"profile:read"};
  }

  lemma CodeStored(w: World, audience: string, grants: map<Id, Grant>, grantOf: map<(Id, Id), Id>)
    requires Shows(w, audience, {1, 2, 3, 4}, map[], map[], grants, grantOf)
    requires Latest(w, 2, StoreCode(Written(audience)))
    ensures var w' := Step(w, Go(2, Draw(5, 0)));
            && Shows(w', audience, {1, 2, 3, 4, 5}, map[], Codes(audience), grants, grantOf)
            && Latest(w', 2, Done(Redirect(5)))
  {
    AdvanceByKind(w, 2, Draw(5, 0));
    hide Advance;
  }

  lemma CodedIs(audience: string)
    ensures var w := Step(Ticketed(audience), Arrive(2, Submit(3, true, Some(1))));
            Coded(audience) ==
              Step(Step(Step(Step(w, Go(2, Draw(0, 0))), Go(2, Draw(0, 0))), Go(2, Draw(4, 0))), Go(2, Draw(5, 0)))
  {
    hide Step, Ticketed, Draw;
  }

  lemma CodedShows(audience: string)
    ensures Shows(Coded(audience), audience, {1, 2, 3, 4, 5}, map[], Codes(audience), Granted(), map[(1, 2) := 4])
    ensures Latest(Coded(audience), 2, Done(Redirect(5)))
  {
    hide *;
    var w0 := Ticketed(audience);
    var w1 := Step(w0, Arrive(2, Submit(3, true, Some(1))));
    var w2 := Step(w1, Go(2, Draw(0, 0)));
    var w3 := Step(w2, Go(2, Draw(0, 0)));
    var w4 := Step(w3, Go(2, Draw(4, 0)));
    CodedIs(audience);
    EntriesAre(audience);
    TicketedShows(audience);
    LatestTells(w0, 1, Done(Page));
    ArriveShows(w0, audience, {1, 2, 3}, Tickets(audience), map[], map[], map[], 2, Submit(3, true, Some(1)));
    ShowsTells(w1, audience, {1, 2, 3}, Tickets(audience), map[], map[], map[]);
    ReadObserved(w1, audience, Draw(0, 0));
    ObserveShows(w1, audience, {1, 2, 3}, Tickets(audience), map[], map[], map[], 2, PostRead(3, true, Some(1)),
                 Draw(0, 0));
    TicketTaken(w2, audience, {1, 2, 3});
    GrantWritten(w3, audience);
    CodeStored(w4, audience, Granted(), map[(1, 2) := 4]);
  }

  lemma ExchangeReady(w: World, audience: string)
    requires Shows(w, audience, {1, 2, 3, 4, 5}, map[], Codes(audience), Granted(), map[(1, 2) := 4])
    requires Latest(w, 3, ExTake(EXCHANGE))
    ensures 3 in w.requests && w.requests[3] == ExTake(EXCHANGE) && w.minted == {1, 2, 3, 4, 5}
    ensures Draw(6, 0).drawn == 6 && Draw(7, 8).drawn == 7 && Draw(7, 8).secret == 8
  {
  }

  lemma ExchangeTells(w: World, w': World, audience: string)
    requires Shows(w, audience, {1, 2, 3, 4, 5}, map[], Codes(audience), Granted(), map[(1, 2) := 4])
    requires Latest(w, 3, ExTake(EXCHANGE)) && Exchanged(w, w', 3, EXCHANGE, 6, RefreshToken(7, 8), 0)
    ensures w'.grants == Granted() && w'.now == 0 && w'.minted <= {1, 2, 3, 4, 5, 6, 7, 8}
    ensures 4 !in w'.requests
    ensures 7 in w'.sessions && w'.sessions[7] == FirstRow(Written(audience), RefreshToken(7, 8), 6, 900_000, 0)
  {
    hide FirstRow;
  }

  lemma ConnectedIs(audience: string)
    ensures Connected(audience) ==
      ExchangedAlone(Step(Coded(audience), Arrive(3, Exchange(EXCHANGE))), 3, Draw(6, 0), Draw(7, 8), 0)
  {
    hide Step, Coded, Draw, ExchangedAlone;
  }

  /** The exchange opens connection 7 with access token 6. */
  lemma ConnectedHolds(audience: string)
    ensures var w := Connected(audience);
            && w.grants == Granted() && w.now == 0 && w.minted <= {1, 2, 3, 4, 5, 6, 7, 8} && 4 !in w.requests
            && 7 in w.sessions && w.sessions[7] == FirstRow(Written(audience), RefreshToken(7, 8), 6, 900_000, 0)
  {
    hide *;
    var w0 := Coded(audience);
    var w := Step(w0, Arrive(3, Exchange(EXCHANGE)));
    EntriesAre(audience);
    CodedShows(audience);
    LatestTells(w0, 2, Done(Redirect(5)));
    ArriveShows(w0, audience, {1, 2, 3, 4, 5}, map[], Codes(audience), Granted(), map[(1, 2) := 4], 3,
                Exchange(EXCHANGE));
    ExchangeReady(w, audience);
    UndisturbedExchangeSucceedsExactly(w, 3, EXCHANGE, Draw(6, 0), Draw(7, 8), 0);
    ConnectedIs(audience);
    ExchangeTells(w, Connected(audience), audience);
  }

  // ---- it is a run of the server --------------------------------------------------------------------------

  /** Some events, none of which marks a grant as revoked, lead from one state to the other. */
  ghost predicate Leads(w: World, w': World) {
    exists es: seq<Event> :: Unmarked(es) && Run(w, es) == w'
  }

  predicate Unmarked(es: seq<Event>) {
    forall e :: e in es ==> !e.RevokeMark?
  }

  lemma StepUnmarked(w: World, e: Event)
    requires !e.RevokeMark?
    ensures Step(w, e).revoked == w.revoked
  {
    hide *;
    if e.Go? {
      GoGround(w, e.request, e.choice);
      GroundOfMarks(w, Step(w, e));
    } else {
      match e
      case DropRow(_) => V.DeletesAside(w, e);
      case DropSessions(_) => V.DeletesAside(w, e);
      case Sweep(_) => V.DeletesAside(w, e);
      case _ => V.EntriesAside(w, e);
      AgeOfMarks(w, Step(w, e));
    }
  }

  lemma GroundOfMarks(w: World, w': World)
    requires GroundStays(w, w')
    ensures w'.revoked == w.revoked
  {
  }

  lemma AgeOfMarks(w: World, w': World)
    requires V.MarksAge(w, w')
    ensures w'.revoked == w.revoked
  {
  }

  lemma {:induction false} UnmarkedRun(w: World, es: seq<Event>)
    requires Unmarked(es)
    ensures Run(w, es).revoked == w.revoked
    decreases |es|
  {
    if es != [] {
      var before := es[..|es| - 1];
      assert es[|es| - 1] in es;
      UnmarkedRun(w, before);
      StepUnmarked(Run(w, before), es[|es| - 1]);
    }
  }

  lemma LeadsNowhere(w: World)
    ensures Leads(w, w)
  {
    assert Unmarked([]) && Run(w, []) == w;
  }

  lemma LeadsOn(w: World, w': World, e: Event)
    requires Leads(w, w') && !e.RevokeMark?
    ensures Leads(w, Step(w', e))
  {
    var es :| Unmarked(es) && Run(w, es) == w';
    var more := es + [e];
    assert more[..|more| - 1] == es && Unmarked(more);
    hide Step;
    assert Run(w, more) == Step(w', e);
  }

  lemma GoesLead(s: World, w: World, r: Id, c: Choice, d: nat, e: Choice)
    requires Leads(s, w)
    ensures Leads(s, Step(w, Go(r, c))) && Leads(s, Step(Step(w, Go(r, c)), Go(r, e)))
    ensures Leads(s, Step(Step(Step(w, Go(r, c)), Tick(d)), Go(r, e)))
  {
    hide *;
    var w1 := Step(w, Go(r, c));
    LeadsOn(s, w, Go(r, c));
    LeadsOn(s, w1, Go(r, e));
    LeadsOn(s, w1, Tick(d));
    LeadsOn(s, Step(w1, Tick(d)), Go(r, e));
  }

  lemma AloneLeads(s: World, w: World, r: Id, c: Choice, d1: nat, d2: nat)
    requires Leads(s, w)
    ensures Leads(s, Alone(w, r, c, d1, d2))
  {
    hide *;
    AloneIs(w, r, c, d1, d2);
    var w2 := Step(Step(w, Go(r, c)), Go(r, c));
    var w5 := Step(Step(Step(w2, Go(r, c)), Tick(d1)), Go(r, c));
    var w8 := Step(Step(Step(w5, Go(r, c)), Tick(d2)), Go(r, c));
    GoesLead(s, w, r, c, d1, c);
    GoesLead(s, w2, r, c, d1, c);
    GoesLead(s, w5, r, c, d2, c);
    GoesLead(s, w8, r, c, d2, c);
  }

  lemma ExchangeLeads(s: World, w: World, r: Id, c: Choice, e: Choice, d: nat)
    requires Leads(s, w)
    ensures Leads(s, ExchangedAlone(w, r, c, e, d))
  {
    hide *;
    ExchangeIs(w, r, c, e, d);
    var w1 := Step(w, Go(r, c));
    GoesLead(s, w, r, c, d, c);
    GoesLead(s, w1, r, c, d, c);
    GoesLead(s, Step(Step(Step(w1, Go(r, c)), Tick(d)), Go(r, c)), r, e, d, e);
  }

  lemma OpeningIs(audience: string)
    ensures Opening(audience) == Step(Step(Start(audience), SignUp(1)), Register(2, CLIENT))
    ensures Refreshing(audience) == Step(Connected(audience), Arrive(4, Refresh(REFRESH)))
  {
    hide Step, Connected;
  }

  lemma CodedIsReached(audience: string)
    ensures Leads(Start(audience), Coded(audience))
  {
    hide *;
    var s := Start(audience);
    var w1 := Step(Opening(audience), Arrive(1, Authorize(ASK, Some(1))));
    var w2 := Step(Step(w1, Go(1, Draw(0, 0))), Go(1, Draw(0, 0)));
    var w3 := Step(Ticketed(audience), Arrive(2, Submit(3, true, Some(1))));
    var w4 := Step(Step(w3, Go(2, Draw(0, 0))), Go(2, Draw(0, 0)));
    OpeningIs(audience);
    TicketedIs(audience);
    CodedIs(audience);
    LeadsNowhere(s);
    LeadsOn(s, s, SignUp(1));
    LeadsOn(s, Step(s, SignUp(1)), Register(2, CLIENT));
    LeadsOn(s, Opening(audience), Arrive(1, Authorize(ASK, Some(1))));
    GoesLead(s, w1, 1, Draw(0, 0), 0, Draw(0, 0));
    GoesLead(s, w2, 1, Draw(3, 0), 0, Draw(0, 0));
    LeadsOn(s, Ticketed(audience), Arrive(2, Submit(3, true, Some(1))));
    GoesLead(s, w3, 2, Draw(0, 0), 0, Draw(0, 0));
    GoesLead(s, w4, 2, Draw(4, 0), 0, Draw(5, 0));
  }

  lemma RefreshingIsReached(audience: string)
    ensures Leads(Start(audience), Connected(audience)) && Leads(Start(audience), Refreshing(audience))
  {
    hide *;
    var s := Start(audience);
    CodedIsReached(audience);
    OpeningIs(audience);
    ConnectedIs(audience);
    LeadsOn(s, Coded(audience), Arrive(3, Exchange(EXCHANGE)));
    ExchangeLeads(s, Step(Coded(audience), Arrive(3, Exchange(EXCHANGE))), 3, Draw(6, 0), Draw(7, 8), 0);
    LeadsOn(s, Connected(audience), Arrive(4, Refresh(REFRESH)));
  }

  /** The refresh that is about to run is allowed, and what it will retire is access token 6. */
  lemma RefreshingHolds(audience: string)
    ensures var w := Refreshing(audience);
            && 4 in w.requests && w.requests[4] == RfFind(REFRESH) && 9 !in w.minted && 10 !in w.minted && w.now == 0
            && RefreshAllowed(w.sessions, w.grants, w.audience, REFRESH, 0)
            && 7 in w.sessions && w.sessions[7] == FirstRow(Written(audience), RefreshToken(7, 8), 6, 900_000, 0)
  {
    ConnectedHolds(audience);
    hide Connected, Entry;
    EntriesAre(audience);
  }

  /** The first token of a connection carries at least one scope. */
  lemma FirstTokenHasScopes(w: World, id: Id)
    requires C.Sound(w) && id in w.sessions && w.sessions[id].previous.None?
    ensures w.sessions[id].jti in w.past.signed && w.past.signed[w.sessions[id].jti].scopes != {}
  {
    hide *;
    SoundParts(w);
    RowSigned(w, id);
    RecordsNameScopes(w);
    FirstIsForItsRecord(w, id);
  }

  lemma RecordsNameScopes(w: World)
    requires C.Sound(w)
    ensures forall c :: c in w.past.codes ==> w.past.codes[c].scopes != {}
  {
    hide C.CodeInv, R.Inv, F.DraftsOk, F.TicketsOk, F.ConsentsOk, F.GrantsOk, F.TokensOk, F.FlowsOk, F.Held;
    assert F.CodesOk(w);
    forall c | c in w.past.codes ensures w.past.codes[c].scopes != {} {
      assert F.RecordOk(w, w.past.codes[c]);
    }
  }

  lemma FirstIsForItsRecord(w: World, id: Id)
    requires id in w.sessions && w.sessions[id].previous.None? && R.RowOk(w, id, w.sessions[id])
    requires C.ChainsNameTheirCode(w) && forall c :: c in w.past.codes ==> w.past.codes[c].scopes != {}
    ensures w.sessions[id].jti in w.past.signed && w.past.signed[w.sessions[id].jti].scopes != {}
  {
    assert C.LinksOk(w, id);
    var links := w.past.chain[id];
    assert |links| == 1 && w.sessions[id].jti == links[0].jti;
    var code := w.past.openedBy[id];
    assert w.past.codes[code].scopes != {};
  }

  /** Denied before its expiry at one point of the run, and accepted at the end of it. */
  predicate Replays(audience: string, events: seq<Event>, i: nat, jti: Id, g: Id)
    requires i <= |events|
  {
    TokenDenied(At(audience, events, i), jti, g) && Accepted(At(audience, events, |events|), jti)
  }

  lemma DrawnIs(audience: string)
    ensures Draw(9, 10).drawn == 9 && Draw(9, 10).secret == 10 && REFRESH.token.session == 7
    ensures var row := FirstRow(Written(audience), RefreshToken(7, 8), 6, 900_000, 0);
            row.jti == 6 && row.jtiExp == 900_000 && row.previous.None? && row.grantId == 4
  {
  }

  function AfterRefresh(audience: string): World {
    Alone(Refreshing(audience), 4, Draw(9, 10), 0, 0)
  }

  /** So it goes for a connection's first refresh wherever nobody marks a grant. */
  lemma FirstRefreshRetires(
    audience: string, w: World, r: Id, p: RefreshParams, c: Choice, row: GrantSession)
    requires Leads(Start(audience), w) && r in w.requests && w.requests[r] == RfFind(p)
    requires c.drawn !in w.minted && c.secret !in w.minted && c.drawn != c.secret
    requires RefreshAllowed(w.sessions, w.grants, w.audience, p, w.now + 0)
    requires p.token.session in w.sessions && row == w.sessions[p.token.session]
    requires row.previous.None? && w.now + 0 + 0 < row.jtiExp
    ensures TokenDenied(Alone(w, r, c, 0, 0), row.jti, row.grantId)
    ensures exists later :: Accepted(Run(Alone(w, r, c, 0, 0), later), row.jti)
    ensures Leads(Start(audience), Alone(w, r, c, 0, 0))
  {
    hide *;
    var es := EventsTo(Start(audience), w);
    A.AlwaysSound(audience, es);
    FirstTokenHasScopes(w, p.token.session);
    UnmarkedRun(Start(audience), es);
    StartIsUnmarked(audience);
    RetiredTokenRunsAgainExactly(audience, es, w, r, p, c, 0, 0, row);
    AloneLeads(Start(audience), w, r, c, 0, 0);
  }

  lemma AfterRefreshIs(audience: string)
    ensures AfterRefresh(audience) == Alone(Refreshing(audience), 4, Draw(9, 10), 0, 0)
  {
    hide Alone, Refreshing, Draw;
  }

  lemma SixIsRetired(audience: string)
    ensures TokenDenied(AfterRefresh(audience), 6, 4)
    ensures exists later :: Accepted(Run(AfterRefresh(audience), later), 6)
    ensures Leads(Start(audience), AfterRefresh(audience))
  {
    hide *;
    AfterRefreshIs(audience);
    RefreshingHolds(audience);
    RefreshingIsReached(audience);
    DrawnIs(audience);
    FirstRefreshRetires(audience, Refreshing(audience), 4, REFRESH, Draw(9, 10),
                        FirstRow(Written(audience), RefreshToken(7, 8), 6, 900_000, 0));
  }

  /** There is a run in which the resource server accepts a token that it refused before. */
  lemma ReplayHappens(audience: string)
    ensures exists events: seq<Event>, i: nat :: i <= |events| && Replays(audience, events, i, 6, 4)
  {
    hide *;
    SixIsRetired(audience);
    var es := EventsTo(Start(audience), AfterRefresh(audience));
    var later :| Accepted(Run(AfterRefresh(audience), later), 6);
    ReplayIs(audience, es, AfterRefresh(audience), later, 6, 4);
  }

  lemma StartIsUnmarked(audience: string)
    ensures Start(audience).revoked == map[]
  {
  }

  lemma EventsTo(w: World, w': World) returns (es: seq<Event>)
    requires Leads(w, w')
    ensures Unmarked(es) && Run(w, es) == w'
  {
    es :| Unmarked(es) && Run(w, es) == w';
  }

  lemma ReplayIs(audience: string, es: seq<Event>, w: World, later: seq<Event>, jti: Id, g: Id)
    requires Run(Start(audience), es) == w && TokenDenied(w, jti, g) && Accepted(Run(w, later), jti)
    ensures |es| <= |es + later| && Replays(audience, es + later, |es|, jti, g)
  {
    var all := es + later;
    assert all[..|es|] == es && all[..|all|] == all;
    RunSplits(Start(audience), es, later);
    hide Step, TokenDenied, Accepted, Run;
  }
}
