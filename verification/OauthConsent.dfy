/**
 * Consent and scope, over every interleaving of GETs, POSTs, exchanges and refreshes.
 *
 * Every scope that reaches a grant, a code or an access token was approved by that user for that client on a
 * consumed ticket, and lies under what the client registered. The pending request under a ticket never changes.
 */
module OauthConsent {
  import opened Wrappers
  import opened Scopes
  import opened OauthWorld

  // ---- the invariant --------------------------------------------------------------------------------------

  /** To a registered redirect, under the client's registration and the catalog, non-empty, and for this resource. */
  predicate Permitted(w: World, req: AuthRequest) {
    && req.clientId in w.clients && req.redirectUri in w.clients[req.clientId].redirectUris
    && req.scopes <= Ceiling(w.clients[req.clientId].scope)
    && req.scopes != {}
    && req.resource == w.audience
  }

  ghost predicate Consented(w: World, user: Id, clientId: Id, scopes: set<string>) {
    forall s :: s in scopes ==> Consent(user, clientId, s) in w.past.consents
  }

  /** Grant g belongs to the pair and covers the scopes, as long as user and client are there. */
  predicate Covers(w: World, g: Id, user: Id, clientId: Id, scopes: set<string>) {
    && g in w.minted && user in w.minted && clientId in w.minted
    && (user in w.standing && clientId in w.standing ==> g in w.grants)
    && (g in w.grants ==>
          w.grants[g].user == user && w.grants[g].clientId == clientId && scopes <= w.grants[g].scopes)
  }

  ghost predicate Held(w: World, user: Id, clientId: Id, g: Id, scopes: set<string>) {
    && Consented(w, user, clientId, scopes)
    && clientId in w.clients && scopes <= Ceiling(w.clients[clientId].scope)
    && Covers(w, g, user, clientId, scopes)
  }

  ghost predicate DraftsOk(w: World) {
    && (forall t :: t in w.past.drafts ==> t in w.minted && Permitted(w, w.past.drafts[t]))
    && w.past.signedIn <= w.past.drafts.Keys
    && w.clients.Keys <= w.minted && w.standing <= w.minted
  }

  /** A ticket holds the request it was created for, with a session exactly if it ever got one. */
  predicate TicketOk(w: World, t: Id, pending: Pending) {
    && t in w.past.drafts && pending.req == w.past.drafts[t]
    && (pending.user.Some? <==> t in w.past.signedIn)
  }

  ghost predicate TicketsOk(w: World) {
    forall t :: t in w.tickets ==> TicketOk(w, t, w.tickets[t].value)
  }

  predicate ConsentOk(w: World, c: Consent, ticket: Id) {
    && ticket in w.past.drafts && ticket in w.past.taken
    && w.past.drafts[ticket].clientId == c.clientId && c.scope in w.past.drafts[ticket].scopes
  }

  ghost predicate ConsentsOk(w: World) {
    forall c :: c in w.past.consents ==> ConsentOk(w, c, w.past.consents[c])
  }

  ghost predicate GrantOk(w: World, g: Id, grant: Grant) {
    && Held(w, grant.user, grant.clientId, g, grant.scopes)
    && grant.user in w.standing && grant.clientId in w.standing
    && (grant.user, grant.clientId) in w.grantOf && w.grantOf[(grant.user, grant.clientId)] == g
  }

  ghost predicate GrantsOk(w: World) {
    && (forall g :: g in w.grants ==> GrantOk(w, g, w.grants[g]))
    && (forall k :: k in w.grantOf ==> w.grantOf[k] in w.grants)
    && (forall k :: k in w.grantOf ==> (w.grants[w.grantOf[k]].user, w.grants[w.grantOf[k]].clientId) == k)
  }

  ghost predicate RecordOk(w: World, record: CodeRecord) {
    && Held(w, record.user, record.clientId, record.grantId, record.scopes)
    && record.resource == w.audience && record.scopes != {}
    && record.clientId in w.clients && record.redirectUri in w.clients[record.clientId].redirectUris
  }

  ghost predicate CodesOk(w: World) {
    && (forall c :: c in w.past.codes ==> c in w.minted && RecordOk(w, w.past.codes[c]))
    && (forall c :: c in w.codes ==> c in w.past.codes && w.codes[c].value == w.past.codes[c])
  }

  ghost predicate TokenOk(w: World, token: AccessToken) {
    && Held(w, token.user, token.clientId, token.grantId, token.scopes)
    && token.audience == w.audience
  }

  ghost predicate TokensOk(w: World) {
    forall j :: j in w.past.signed ==> j in w.minted && TokenOk(w, w.past.signed[j])
  }

  predicate Drafted(w: World, ticket: Id, pending: Pending) {
    ticket in w.past.drafts && pending.req == w.past.drafts[ticket]
  }

  ghost predicate FlowOk(w: World, q: Request) {
    && (q.GetResolve? || q.GetStore? ==> Permitted(w, q.req))
    && (q.PostLogin? || q.PostResolve? || q.PostPeek? || q.PostWrite? ==> Drafted(w, q.ticket, q.pending))
    && (q.PostResolve? ==> q.pending.user == Some(q.user))
    && (q.PostPeek? || q.PostWrite? ==> q.pending.user.Some?)
    && (q.PostSkip? ==>
          q.ticket in w.past.drafts
          && Held(w, q.user, w.past.drafts[q.ticket].clientId, q.covering, w.past.drafts[q.ticket].scopes))
    && (q.PostTake? ==> q.ticket in w.past.signedIn)
    && (q.Complete? ==>
          && Permitted(w, q.req) && Consented(w, q.user, q.req.clientId, q.req.scopes)
          && (q.via.Some? ==> Covers(w, q.via.value, q.user, q.req.clientId, q.req.scopes)))
    && (q.StoreCode? ==> RecordOk(w, q.record))
    && (q.ExSign? || q.ExStamp? || q.ExInsert? ==> RecordOk(w, q.record))
    && (q.RfSign? ==> Held(w, q.grant.user, q.grant.clientId, q.row.grantId, q.scopes))
    && (q.Done? ==> q.outcome != NullSession)
    && (q.RfDenyStamp? || q.RfDenySet? ==> q.outcome != NullSession)
  }

  ghost predicate FlowsOk(w: World) {
    forall r :: r in w.requests ==> FlowOk(w, w.requests[r])
  }

  ghost predicate FlowInv(w: World) {
    DraftsOk(w) && TicketsOk(w) && ConsentsOk(w) && GrantsOk(w) && CodesOk(w) && TokensOk(w) && FlowsOk(w)
  }

  // ---- what stays true as the server moves on -------------------------------------------------------------

  /** Records and registrations grow, rows that go never return, and a grant only gains scopes until one goes. */
  ghost predicate Grown(w: World, w': World) {
    && w'.audience == w.audience
    && w.minted <= w'.minted
    && w.past.consents.Keys <= w'.past.consents.Keys
    && w.past.signedIn <= w'.past.signedIn
    && w.past.taken.Keys <= w'.past.taken.Keys
    && (forall c :: c in w.clients ==> c in w'.clients && w'.clients[c] == w.clients[c])
    && (forall t :: t in w.past.drafts ==> t in w'.past.drafts && w'.past.drafts[t] == w.past.drafts[t])
    && (forall g :: g in w'.grants && g in w.minted ==> g in w.grants && GrantGrew(w.grants[g], w'.grants[g]))
    && (forall x :: x in w'.standing && x in w.minted ==> x in w.standing)
    && (forall g :: g in w.grants && w.grants[g].user in w'.standing && w.grants[g].clientId in w'.standing ==>
          g in w'.grants)
  }

  /** Grown, and nobody consented to anything. */
  ghost predicate Kept(w: World, w': World) {
    Grown(w, w') && w'.past.consents == w.past.consents
  }

  predicate GrantGrew(before: Grant, after: Grant) {
    after.user == before.user && after.clientId == before.clientId && before.scopes <= after.scopes
  }

  lemma HeldStays(w: World, w': World, user: Id, clientId: Id, g: Id, scopes: set<string>)
    requires Grown(w, w') && Held(w, user, clientId, g, scopes)
    ensures Held(w', user, clientId, g, scopes)
  {
  }

  lemma RecordStays(w: World, w': World, record: CodeRecord)
    requires Grown(w, w') && RecordOk(w, record)
    ensures RecordOk(w', record)
  {
    HeldStays(w, w', record.user, record.clientId, record.grantId, record.scopes);
  }

  /** The facts a waiting request rests on, kept one by one. */
  lemma ReadingStays(w: World, w': World, q: Request)
    requires Grown(w, w') && FlowOk(w, q) && !q.PostSkip? && !q.StoreCode? && !HoldsRecord(q) && !q.RfSign?
    ensures FlowOk(w', q)
  {
    hide Held, RecordOk;
  }

  predicate HoldsRecord(q: Request) {
    q.ExSign? || q.ExStamp? || q.ExInsert?
  }

  lemma FlowStays(w: World, w': World, q: Request)
    requires Grown(w, w') && FlowOk(w, q)
    ensures FlowOk(w', q)
  {
    if q.PostSkip? {
      HeldStays(w, w', q.user, w.past.drafts[q.ticket].clientId, q.covering, w.past.drafts[q.ticket].scopes);
      hide Held, RecordOk, Permitted;
    } else if q.StoreCode? || HoldsRecord(q) {
      hide Held, RecordOk, Permitted, Grown;
      RecordStays(w, w', q.record);
    } else if q.RfSign? {
      hide Held, RecordOk, Permitted, Grown;
      HeldStays(w, w', q.grant.user, q.grant.clientId, q.row.grantId, q.scopes);
    } else {
      hide Grown, FlowOk;
      ReadingStays(w, w', q);
    }
  }

  ghost predicate Moved(w: World, w': World, r: Id) {
    r in w'.requests && w'.requests == w.requests[r := w'.requests[r]]
  }

  lemma FlowsFrame(w: World, w': World, r: Id)
    requires FlowsOk(w) && Grown(w, w') && Moved(w, w', r) && FlowOk(w', w'.requests[r])
    ensures FlowsOk(w')
  {
    forall x | x in w'.requests ensures FlowOk(w', w'.requests[x]) {
      if x != r { FlowStays(w, w', w.requests[x]); }
    }
  }

  lemma TicketsFrame(w: World, w': World)
    requires TicketsOk(w) && Grown(w, w') && w'.past.signedIn == w.past.signedIn
    requires forall t :: t in w'.tickets ==> t in w.tickets && w'.tickets[t].value == w.tickets[t].value
    ensures TicketsOk(w')
  {
  }

  lemma DraftsFrame(w: World, w': World)
    requires DraftsOk(w) && Grown(w, w') && w'.past.drafts == w.past.drafts && w'.past.signedIn == w.past.signedIn
    requires w'.clients.Keys <= w'.minted && w'.standing <= w'.minted
    ensures DraftsOk(w')
  {
  }

  lemma ConsentsFrame(w: World, w': World)
    requires ConsentsOk(w) && Grown(w, w') && w'.past.consents == w.past.consents
    ensures ConsentsOk(w')
  {
  }

  lemma GrantsFrame(w: World, w': World)
    requires GrantsOk(w) && Grown(w, w') && w'.grants == w.grants && w'.grantOf == w.grantOf
    requires w.standing <= w'.standing
    ensures GrantsOk(w')
  {
    forall g | g in w'.grants ensures GrantOk(w', g, w'.grants[g]) {
      HeldStays(w, w', w.grants[g].user, w.grants[g].clientId, g, w.grants[g].scopes);
    }
  }

  lemma CodesFrame(w: World, w': World)
    requires CodesOk(w) && Grown(w, w') && w'.past.codes == w.past.codes
    requires forall c :: c in w'.codes ==> c in w.codes && w'.codes[c].value == w.codes[c].value
    ensures CodesOk(w')
  {
    forall c | c in w'.past.codes ensures RecordOk(w', w'.past.codes[c]) {
      var record := w.past.codes[c];
      HeldStays(w, w', record.user, record.clientId, record.grantId, record.scopes);
    }
  }

  lemma TokensFrame(w: World, w': World)
    requires TokensOk(w) && Grown(w, w') && w'.past.signed == w.past.signed
    ensures TokensOk(w')
  {
    forall j | j in w'.past.signed ensures TokenOk(w', w'.past.signed[j]) {
      var token := w.past.signed[j];
      HeldStays(w, w', token.user, token.clientId, token.grantId, token.scopes);
    }
  }

  /** Registrations, grants, codes and signed tokens are as they were. */
  ghost predicate SameGrants(w: World, w': World) {
    && w'.audience == w.audience && w.minted <= w'.minted && w'.clients == w.clients
    && w'.standing == w.standing
    && w'.codes == w.codes && w'.grants == w.grants && w'.grantOf == w.grantOf
    && w'.past.codes == w.past.codes && w'.past.signed == w.past.signed
  }

  lemma GrantsSideFrame(w: World, w': World)
    requires GrantsOk(w) && CodesOk(w) && TokensOk(w) && SameGrants(w, w') && Grown(w, w')
    ensures GrantsOk(w') && CodesOk(w') && TokensOk(w')
  {
    GrantsFrame(w, w');
    CodesFrame(w, w');
    TokensFrame(w, w');
  }

  /** Tickets at most vanish; drafts and marks are as they were. */
  ghost predicate SameDrafts(w: World, w': World) {
    && (forall t :: t in w'.tickets ==> t in w.tickets && w'.tickets[t].value == w.tickets[t].value)
    && w'.past.drafts == w.past.drafts && w'.past.signedIn == w.past.signedIn
    && w.past.taken.Keys <= w'.past.taken.Keys
  }

  ghost predicate SameTickets(w: World, w': World) {
    SameDrafts(w, w') && w'.past.consents == w.past.consents
  }

  lemma TicketsSideFrame(w: World, w': World)
    requires DraftsOk(w) && TicketsOk(w) && ConsentsOk(w) && SameTickets(w, w') && Grown(w, w')
    requires w'.clients.Keys <= w'.minted && w'.standing <= w'.minted
    ensures DraftsOk(w') && TicketsOk(w') && ConsentsOk(w')
  {
    TicketsFrame(w, w');
    DraftsFrame(w, w');
    ConsentsFrame(w, w');
  }

  lemma SameIsGrown(w: World, w': World)
    requires SameGrants(w, w') && SameTickets(w, w')
    ensures Grown(w, w')
  {
  }

  lemma FlowInvParts(w: World)
    requires FlowInv(w)
    ensures DraftsOk(w) && TicketsOk(w) && ConsentsOk(w) && GrantsOk(w) && CodesOk(w) && TokensOk(w) && FlowsOk(w)
    ensures w.clients.Keys <= w.minted && w.standing <= w.minted
  {
  }

  lemma FlowInvMade(w: World)
    requires DraftsOk(w) && TicketsOk(w) && ConsentsOk(w) && GrantsOk(w) && CodesOk(w) && TokensOk(w) && FlowsOk(w)
    ensures FlowInv(w)
  {
  }

  lemma KeptMade(w: World, w': World)
    requires Grown(w, w') && w'.past.consents == w.past.consents
    ensures Kept(w, w')
  {
  }

  lemma QuietFlow(w: World, w': World, r: Id)
    requires FlowInv(w) && SameGrants(w, w') && SameTickets(w, w') && Moved(w, w', r) && FlowOk(w', w'.requests[r])
    ensures FlowInv(w') && Kept(w, w')
  {
    SameIsGrown(w, w');
    TicketsSideFrame(w, w');
    GrantsSideFrame(w, w');
    FlowsFrame(w, w', r);
  }

  // ---- reading and deciding -------------------------------------------------------------------------------

  lemma ValidatedIsPermitted(w: World, input: AuthorizeInput)
    ensures Validate(w, input).Some? ==> Permitted(w, Validate(w, input).value)
  {
    if input.clientId in w.clients {
      ResolvedExactlyUnderCeiling(input.scope, w.clients[input.clientId].scope);
    }
  }

  /** A grant that makes consent unnecessary was itself consented to. */
  lemma CoveringWasConsented(w: World, user: Id, req: AuthRequest)
    requires GrantsOk(w) && Covering(w, user, req).Some?
    ensures Held(w, user, req.clientId, Covering(w, user, req).value, req.scopes)
  {
    var id := Covering(w, user, req).value;
    assert (w.grants[w.grantOf[(user, req.clientId)]].user, w.grants[w.grantOf[(user, req.clientId)]].clientId)
           == (user, req.clientId);
    assert GrantOk(w, id, w.grants[id]);
  }

  lemma NarrowedIsHeld(w: World, p: RefreshParams, row: GrantSession)
    requires GrantsOk(w)
    ensures FlowOk(w, CheckGrant(w, p, row))
  {
    if row.grantId in w.grants {
      assert GrantOk(w, row.grantId, w.grants[row.grantId]);
      NarrowNeverWidens(p.scope, w.grants[row.grantId].scopes);
    }
  }

  lemma TicketReadIsDrafted(w: World, t: Id)
    requires TicketsOk(w) && Get(w.tickets, t, w.now).Some?
    ensures TicketOk(w, t, Get(w.tickets, t, w.now).value)
  {
  }

  lemma AuthorizeReadOk(w: World, q: Request, c: Choice)
    requires GrantsOk(w) && TicketsOk(w) && FlowOk(w, q)
    requires q.GetValidate? || q.GetResolve? || q.PostRead? || q.PostResolve?
    ensures FlowOk(w, Observe(w, q, c))
  {
    hide Validate, Covering, Permitted, Held, Covers, RecordOk, Consented;
    if q.GetValidate? {
      ValidatedIsPermitted(w, q.input);
    } else if q.GetResolve? {
      if Covering(w, q.user, q.req).Some? {
        CoveringWasConsented(w, q.user, q.req);
        HeldParts(w, q.user, q.req.clientId, Covering(w, q.user, q.req).value, q.req.scopes);
      }
    } else if q.PostRead? {
      if Get(w.tickets, q.ticket, w.now).Some? { TicketReadIsDrafted(w, q.ticket); }
    } else {
      if Covering(w, q.user, q.pending.req).Some? { CoveringWasConsented(w, q.user, q.pending.req); }
    }
  }

  lemma HeldParts(w: World, user: Id, clientId: Id, g: Id, scopes: set<string>)
    requires Held(w, user, clientId, g, scopes)
    ensures Consented(w, user, clientId, scopes) && Covers(w, g, user, clientId, scopes)
  {
  }

  lemma ObservedFlowOk(w: World, q: Request, c: Choice)
    requires GrantsOk(w) && TicketsOk(w) && FlowOk(w, q)
    ensures FlowOk(w, Observe(w, q, c))
  {
    if q.GetValidate? || q.GetResolve? || q.PostRead? || q.PostResolve? {
      AuthorizeReadOk(w, q, c);
    } else {
      hide Permitted, Held, Covers, RecordOk, Consented, CheckGrant, GrantsOk, TicketsOk;
      if q.RfGrant? { NarrowedIsHeld(w, q.refresh, q.row); }
    }
  }

  lemma ObserveFlows(w: World, r: Id, c: Choice)
    requires FlowInv(w) && r in w.requests
    ensures var w' := Move(w, r, Observe(w, w.requests[r], c)); FlowInv(w') && Kept(w, w')
  {
    var w' := Move(w, r, Observe(w, w.requests[r], c));
    assert FlowOk(w, w.requests[r]);
    ObservedFlowOk(w, w.requests[r], c);
    FlowStays(w, w', w'.requests[r]);
    QuietFlow(w, w', r);
  }

  // ---- tickets --------------------------------------------------------------------------------------------

  /** Only this ticket's entry, its draft and its session mark may differ. */
  ghost predicate TicketWritten(w: World, w': World, t: Id) {
    && w'.past.taken == w.past.taken && w'.past.consents == w.past.consents
    && t in w'.tickets && w'.tickets == w.tickets[t := w'.tickets[t]]
    && t in w'.past.drafts && w'.past.drafts == w.past.drafts[t := w'.past.drafts[t]]
    && (t in w.past.drafts ==> w'.past.drafts[t] == w.past.drafts[t])
    && w'.past.signedIn == (if w'.tickets[t].value.user.Some? then w.past.signedIn + {t} else w.past.signedIn)
  }

  lemma WrittenTicketsOk(w: World, w': World, t: Id)
    requires DraftsOk(w) && TicketsOk(w) && SameGrants(w, w') && TicketWritten(w, w', t)
    requires t in w'.minted && Permitted(w, w'.past.drafts[t])
    requires w'.tickets[t].value.req == w'.past.drafts[t]
    requires t in w.past.drafts ==> w'.tickets[t].value.user.Some?
    ensures DraftsOk(w') && TicketsOk(w')
  {
    forall x | x in w'.past.drafts ensures x in w'.minted && Permitted(w', w'.past.drafts[x]) {
      if x != t { assert Permitted(w, w.past.drafts[x]); }
    }
    forall x | x in w'.tickets ensures TicketOk(w', x, w'.tickets[x].value) {
      if x != t { assert TicketOk(w, x, w.tickets[x].value); }
    }
  }

  lemma WrittenTicketGrows(w: World, w': World, t: Id)
    requires SameGrants(w, w') && TicketWritten(w, w', t)
    ensures Grown(w, w') && w'.past.consents == w.past.consents
  {
  }

  lemma WrittenTicketFlows(w: World, w': World, r: Id, t: Id)
    requires FlowInv(w) && SameGrants(w, w') && TicketWritten(w, w', t) && Moved(w, w', r)
    requires FlowOk(w', w'.requests[r])
    requires t in w'.minted && Permitted(w, w'.past.drafts[t])
    requires w'.tickets[t].value.req == w'.past.drafts[t]
    requires t in w.past.drafts ==> w'.tickets[t].value.user.Some?
    ensures FlowInv(w') && Kept(w, w')
  {
    hide *;
    FlowInvParts(w);
    WrittenTicketGrows(w, w', t);
    WrittenTicketsOk(w, w', t);
    ConsentsFrame(w, w');
    GrantsSideFrame(w, w');
    FlowsFrame(w, w', r);
    FlowInvMade(w');
    KeptMade(w, w');
  }

  lemma StoreWritesTicket(w: World, r: Id, req: AuthRequest, session: Option<Id>, t: Id)
    requires DraftsOk(w) && FlowsOk(w) && r in w.requests && w.requests[r] == GetStore(req, session) && t !in w.minted
    ensures var w' := StoreTicket(w, r, req, session, t);
            && SameGrants(w, w') && TicketWritten(w, w', t) && Moved(w, w', r) && FlowOk(w', w'.requests[r])
            && t in w'.minted && t in w'.past.drafts && Permitted(w, w'.past.drafts[t])
            && t in w'.tickets && w'.tickets[t].value.req == w'.past.drafts[t] && t !in w.past.drafts
  {
    assert FlowOk(w, w.requests[r]);
  }

  lemma StoreFlows(w: World, r: Id, req: AuthRequest, session: Option<Id>, t: Id)
    requires FlowInv(w) && r in w.requests && w.requests[r] == GetStore(req, session) && t !in w.minted
    ensures var w' := StoreTicket(w, r, req, session, t); FlowInv(w') && Kept(w, w')
  {
    hide *;
    FlowInvParts(w);
    StoreWritesTicket(w, r, req, session, t);
    WrittenTicketFlows(w, StoreTicket(w, r, req, session, t), r, t);
  }

  lemma WriteWritesTicket(w: World, r: Id, t: Id, pending: Pending)
    requires DraftsOk(w) && FlowsOk(w) && r in w.requests && w.requests[r] == PostWrite(t, pending)
    ensures var w' := WriteTicket(w, r, t, pending);
            && SameGrants(w, w') && TicketWritten(w, w', t) && Moved(w, w', r) && FlowOk(w', w'.requests[r])
            && t in w'.minted && t in w'.past.drafts && Permitted(w, w'.past.drafts[t])
            && t in w'.tickets && w'.tickets[t].value.req == w'.past.drafts[t] && w'.tickets[t].value.user.Some?
  {
    var w' := WriteTicket(w, r, t, pending);
    assert FlowOk(w, w.requests[r]);
    assert w'.past.drafts == w.past.drafts[t := w.past.drafts[t]];
  }

  lemma WriteFlows(w: World, r: Id, t: Id, pending: Pending)
    requires FlowInv(w) && r in w.requests && w.requests[r] == PostWrite(t, pending)
    ensures var w' := WriteTicket(w, r, t, pending); FlowInv(w') && Kept(w, w')
  {
    hide *;
    FlowInvParts(w);
    WriteWritesTicket(w, r, t, pending);
    WrittenTicketFlows(w, WriteTicket(w, r, t, pending), r, t);
  }

  // ---- consuming a ticket ---------------------------------------------------------------------------------

  lemma SkipFlows(w: World, r: Id, t: Id, user: Id, covering: Id)
    requires FlowInv(w) && r in w.requests && w.requests[r] == PostSkip(t, user, covering)
    ensures var w' := SkipConsent(w, r, t, user, covering); FlowInv(w') && Kept(w, w')
  {
    var w' := SkipConsent(w, r, t, user, covering);
    assert FlowOk(w, w.requests[r]);
    if Get(w.tickets, t, w.now).Some? {
      TicketReadIsDrafted(w, t);
      assert Permitted(w, w.past.drafts[t]);
    }
    QuietFlow(w, w', r);
  }

  lemma ApproveAdds(consents: map<Consent, Id>, user: Id, req: AuthRequest, t: Id)
    ensures var after := Approve(consents, user, req, t);
            && consents.Keys <= after.Keys
            && (forall s :: s in req.scopes ==> Consent(user, req.clientId, s) in after)
            && (forall c :: c in after ==>
                  if c.user == user && c.clientId == req.clientId && c.scope in req.scopes
                  then after[c] == t else c in consents && after[c] == consents[c])
  {
    forall c | c in Approve(consents, user, req, t)
      ensures if c.user == user && c.clientId == req.clientId && c.scope in req.scopes
              then Approve(consents, user, req, t)[c] == t
              else c in consents && Approve(consents, user, req, t)[c] == consents[c]
    {
      assert c == Consent(c.user, c.clientId, c.scope);
    }
  }

  lemma ApprovedConsentsOk(w: World, w': World, t: Id, user: Id)
    requires ConsentsOk(w) && t in w.past.drafts && t in w'.past.taken && w.past.taken.Keys <= w'.past.taken.Keys
    requires w'.past.drafts == w.past.drafts
    requires w'.past.consents == Approve(w.past.consents, user, w.past.drafts[t], t)
    ensures ConsentsOk(w') && w.past.consents.Keys <= w'.past.consents.Keys
    ensures Consented(w', user, w.past.drafts[t].clientId, w.past.drafts[t].scopes)
  {
    ApproveAdds(w.past.consents, user, w.past.drafts[t], t);
    forall c | c in w'.past.consents ensures ConsentOk(w', c, w'.past.consents[c]) {
      if !(c.user == user && c.clientId == w.past.drafts[t].clientId && c.scope in w.past.drafts[t].scopes) {
        assert ConsentOk(w, c, w.past.consents[c]);
      }
    }
  }

  lemma DraftsSame(w: World, w': World)
    requires SameGrants(w, w') && SameDrafts(w, w') && w.clients.Keys <= w.minted && w.standing <= w.minted
    ensures w'.past.drafts == w.past.drafts && w'.past.signedIn == w.past.signedIn
    ensures w.past.taken.Keys <= w'.past.taken.Keys
    ensures w'.clients.Keys <= w'.minted && w'.standing <= w'.minted
    ensures forall t :: t in w'.tickets ==> t in w.tickets && w'.tickets[t].value == w.tickets[t].value
  {
  }

  lemma ApprovedGrows(w: World, w': World)
    requires SameGrants(w, w') && SameDrafts(w, w') && w.past.consents.Keys <= w'.past.consents.Keys
    ensures Grown(w, w')
  {
  }

  lemma ApprovedRequestOk(w: World, w': World, t: Id, user: Id)
    requires DraftsOk(w) && t in w.past.drafts && SameGrants(w, w')
    requires Consented(w', user, w.past.drafts[t].clientId, w.past.drafts[t].scopes)
    ensures FlowOk(w', Complete(user, w.past.drafts[t], None))
  {
    assert Permitted(w, w.past.drafts[t]);
  }

  /** An approval is the one way a consent is added, and it adds what the ticket was created for. */
  lemma ApprovedFlows(w: World, w': World, r: Id, t: Id, user: Id)
    requires FlowInv(w) && t in w.past.drafts && SameGrants(w, w')
    requires SameDrafts(w, w') && t in w'.past.taken
    requires w'.past.consents == Approve(w.past.consents, user, w.past.drafts[t], t)
    requires Moved(w, w', r) && w'.requests[r] == Complete(user, w.past.drafts[t], None)
    ensures FlowInv(w') && Grown(w, w')
  {
    hide *;
    FlowInvParts(w);
    DraftsSame(w, w');
    ApprovedConsentsOk(w, w', t, user);
    ApprovedGrows(w, w');
    ApprovedRequestOk(w, w', t, user);
    TicketsFrame(w, w');
    DraftsFrame(w, w');
    GrantsSideFrame(w, w');
    FlowsFrame(w, w', r);
    FlowInvMade(w');
  }

  /** Under the invariant the consent stage finds a session on the ticket. */
  lemma HeldHasSession(w: World, r: Id, t: Id, allow: bool, browser: Option<Id>)
    requires FlowInv(w) && r in w.requests && w.requests[r] == PostTake(t, allow, browser)
    ensures Get(w.tickets, t, w.now).Some? ==>
              Get(w.tickets, t, w.now).value.user.Some? && t in w.past.drafts
              && Get(w.tickets, t, w.now).value.req == w.past.drafts[t]
  {
    assert FlowOk(w, w.requests[r]);
    if Get(w.tickets, t, w.now).Some? {
      TicketReadIsDrafted(w, t);
    }
  }

  lemma ConsentGiven(w: World, r: Id, t: Id, allow: bool, browser: Option<Id>)
    requires AfterConsent(Get(w.tickets, t, w.now), allow, browser).Complete? && t in w.past.drafts
    requires Get(w.tickets, t, w.now).value.req == w.past.drafts[t]
    ensures var w' := SubmitConsent(w, r, t, allow, browser);
            var user := Get(w.tickets, t, w.now).value.user.value;
            && SameGrants(w, w') && SameDrafts(w, w') && t in w'.past.taken
            && w'.past.consents == Approve(w.past.consents, user, w.past.drafts[t], t)
            && Moved(w, w', r) && w'.requests[r] == Complete(user, w.past.drafts[t], None)
  {
    hide Approve;
  }

  lemma ConsentWithheld(w: World, r: Id, t: Id, allow: bool, browser: Option<Id>)
    requires !AfterConsent(Get(w.tickets, t, w.now), allow, browser).Complete?
    requires Get(w.tickets, t, w.now).Some? ==> Get(w.tickets, t, w.now).value.user.Some?
    ensures var w' := SubmitConsent(w, r, t, allow, browser);
            SameGrants(w, w') && SameTickets(w, w') && Moved(w, w', r) && FlowOk(w', w'.requests[r])
  {
    hide Approve;
  }

  lemma KeptGrows(w: World, w': World)
    requires Kept(w, w')
    ensures Grown(w, w')
  {
  }

  lemma SubmitFlows(w: World, r: Id, t: Id, allow: bool, browser: Option<Id>)
    requires FlowInv(w) && r in w.requests && w.requests[r] == PostTake(t, allow, browser)
    ensures var w' := SubmitConsent(w, r, t, allow, browser); FlowInv(w') && Grown(w, w')
  {
    var w' := SubmitConsent(w, r, t, allow, browser);
    var held := Get(w.tickets, t, w.now);
    var next := AfterConsent(held, allow, browser);
    if held.Some? {
      TicketReadIsDrafted(w, t);
    }
    HeldHasSession(w, r, t, allow, browser);
    hide FlowInv, Grown, SubmitConsent, SameGrants, SameTickets, SameDrafts, Moved, Kept, FlowOk, Approve, TicketOk,
      DraftsOk, TicketsOk, FlowsOk;
    if next.Complete? {
      ConsentGiven(w, r, t, allow, browser);
      ApprovedFlows(w, w', r, t, held.value.user.value);
    } else {
      ConsentWithheld(w, r, t, allow, browser);
      QuietFlow(w, w', r);
      KeptGrows(w, w');
    }
  }

  // ---- writing a grant ------------------------------------------------------------------------------------

  ghost predicate GrantWritten(w: World, w': World, user: Id, req: AuthRequest, g: Id, drawn: Id) {
    && w'.audience == w.audience && w'.minted == w.minted + {drawn} && w'.clients == w.clients
    && w'.standing == w.standing && w'.codes == w.codes
    && w'.past.codes == w.past.codes && w'.past.signed == w.past.signed
    && g == GrantIdFor(w, user, req.clientId, drawn) && drawn !in w.minted
    && w'.grants == w.grants[g := Grant(user, req.clientId, GrantedBefore(w, g) + req.scopes)]
    && w'.grantOf == w.grantOf[(user, req.clientId) := g]
  }

  lemma GrantIdIsKnown(w: World, user: Id, req: AuthRequest, drawn: Id)
    requires GrantsOk(w) && drawn !in w.minted
    ensures var g := GrantIdFor(w, user, req.clientId, drawn);
            if g == drawn then g !in w.grants && (user, req.clientId) !in w.grantOf
            else g in w.grants && GrantOk(w, g, w.grants[g])
                 && w.grants[g].user == user && w.grants[g].clientId == req.clientId
  {
    var key := (user, req.clientId);
    if key in w.grantOf {
      var g := w.grantOf[key];
      assert (w.grants[g].user, w.grants[g].clientId) == key;
      assert GrantOk(w, g, w.grants[g]);
    }
    assert drawn !in w.grants by {
      assert forall x :: x in w.grants ==> GrantOk(w, x, w.grants[x]);
    }
  }

  lemma WrittenGrantGrows(w: World, w': World, user: Id, req: AuthRequest, g: Id, drawn: Id)
    requires GrantsOk(w) && GrantWritten(w, w', user, req, g, drawn) && SameTickets(w, w')
    ensures Grown(w, w')
  {
    GrantIdIsKnown(w, user, req, drawn);
  }

  lemma WrittenGrantOk(w: World, w': World, user: Id, req: AuthRequest, g: Id, drawn: Id)
    requires GrantsOk(w) && GrantWritten(w, w', user, req, g, drawn) && SameTickets(w, w') && Grown(w, w')
    requires Permitted(w, req) && Consented(w, user, req.clientId, req.scopes)
    requires user in w.standing && req.clientId in w.standing && w.standing <= w.minted
    ensures GrantsOk(w') && Held(w', user, req.clientId, g, req.scopes)
  {
    GrantIdIsKnown(w, user, req, drawn);
    forall x | x in w'.grants && x != g ensures GrantOk(w', x, w'.grants[x]) {
      assert GrantOk(w, x, w.grants[x]);
      HeldStays(w, w', w.grants[x].user, w.grants[x].clientId, x, w.grants[x].scopes);
    }
    assert GrantOk(w', g, w'.grants[g]);
    forall k | k in w'.grantOf && k != (user, req.clientId)
      ensures w'.grantOf[k] in w'.grants && (w'.grants[w'.grantOf[k]].user, w'.grants[w'.grantOf[k]].clientId) == k
    {
      assert w.grantOf[k] in w.grants;
      assert (w.grants[w.grantOf[k]].user, w.grants[w.grantOf[k]].clientId) == k;
    }
  }

  lemma CompletingOk(w: World, r: Id, user: Id, req: AuthRequest, via: Option<Id>)
    requires FlowsOk(w) && r in w.requests && w.requests[r] == Complete(user, req, via)
    ensures Permitted(w, req) && Consented(w, user, req.clientId, req.scopes)
  {
    assert FlowOk(w, w.requests[r]);
  }

  lemma WriteWritesGrant(w: World, r: Id, user: Id, req: AuthRequest, drawn: Id)
    requires drawn !in w.minted
    ensures var w' := WriteGrant(w, r, user, req, drawn);
            var g := GrantIdFor(w, user, req.clientId, drawn);
            && GrantWritten(w, w', user, req, g, drawn) && SameTickets(w, w') && Moved(w, w', r)
            && w'.past.consents == w.past.consents && w'.codes == w.codes && w'.past.codes == w.past.codes
            && w'.past.signed == w.past.signed
            && (w.clients.Keys <= w.minted ==> w'.clients.Keys <= w'.minted)
            && (w.standing <= w.minted ==> w'.standing <= w'.minted)
            && (Held(w', user, req.clientId, g, req.scopes) && Permitted(w, req) ==> FlowOk(w', w'.requests[r]))
  {
  }

  lemma GrantFlows(w: World, r: Id, user: Id, req: AuthRequest, via: Option<Id>, drawn: Id)
    requires FlowInv(w) && r in w.requests && w.requests[r] == Complete(user, req, via) && drawn !in w.minted
    requires user in w.standing && req.clientId in w.standing
    ensures var w' := WriteGrant(w, r, user, req, drawn); FlowInv(w') && Kept(w, w')
  {
    var w' := WriteGrant(w, r, user, req, drawn);
    var g := GrantIdFor(w, user, req.clientId, drawn);
    hide *;
    FlowInvParts(w);
    CompletingOk(w, r, user, req, via);
    WriteWritesGrant(w, r, user, req, drawn);
    WrittenGrantGrows(w, w', user, req, g, drawn);
    WrittenGrantOk(w, w', user, req, g, drawn);
    TicketsSideFrame(w, w');
    CodesFrame(w, w');
    TokensFrame(w, w');
    FlowsFrame(w, w', r);
    FlowInvMade(w');
    KeptMade(w, w');
  }

  lemma UpsertFlows(w: World, r: Id, user: Id, req: AuthRequest, via: Option<Id>, drawn: Id)
    requires FlowInv(w) && r in w.requests && w.requests[r] == Complete(user, req, via) && drawn !in w.minted
    ensures var w' := UpsertGrant(w, r, user, req, drawn); FlowInv(w') && Kept(w, w')
  {
    hide FlowInv, Kept, WriteGrant, Move;
    if user in w.standing && req.clientId in w.standing {
      GrantFlows(w, r, user, req, via, drawn);
    } else {
      RefusalFlows(w, r);
    }
  }

  // ---- codes and signatures -------------------------------------------------------------------------------

  ghost predicate CodeAdded(w: World, w': World, code: Id, record: CodeRecord) {
    && code !in w.minted && w'.audience == w.audience && w'.minted == w.minted + {code} && w'.clients == w.clients
    && w'.standing == w.standing
    && w'.grants == w.grants && w'.grantOf == w.grantOf && w'.past.signed == w.past.signed
    && code in w'.codes && w'.codes == w.codes[code := w'.codes[code]] && w'.codes[code].value == record
    && w'.past.codes == w.past.codes[code := record]
  }

  lemma AddedCodeOk(w: World, w': World, code: Id, record: CodeRecord)
    requires CodesOk(w) && CodeAdded(w, w', code, record) && Grown(w, w') && RecordOk(w, record)
    ensures CodesOk(w')
  {
    forall c | c in w'.past.codes ensures c in w'.minted && RecordOk(w', w'.past.codes[c]) {
      var rec := w'.past.codes[c];
      if c != code { assert RecordOk(w, w.past.codes[c]); }
      HeldStays(w, w', rec.user, rec.clientId, rec.grantId, rec.scopes);
    }
  }

  /** What the frames below ask for. */
  predicate Framed(w: World, w': World) {
    && w'.grants == w.grants && w'.grantOf == w.grantOf && w.standing <= w'.standing
    && w'.past.consents == w.past.consents
    && w'.clients.Keys <= w'.minted && w'.standing <= w'.minted
  }

  lemma FramedTells(w: World, w': World)
    requires Framed(w, w')
    ensures w'.grants == w.grants && w'.grantOf == w.grantOf && w.standing <= w'.standing
    ensures w'.past.consents == w.past.consents
    ensures w'.clients.Keys <= w'.minted && w'.standing <= w'.minted
  {
  }

  lemma CodeAddedGrows(w: World, w': World, code: Id, record: CodeRecord)
    requires CodeAdded(w, w', code, record) && SameTickets(w, w')
    requires w.clients.Keys <= w.minted && w.standing <= w.minted
    ensures Grown(w, w') && Framed(w, w') && w'.past.signed == w.past.signed
  {
  }

  lemma CodeAddedFlows(w: World, w': World, r: Id, code: Id, record: CodeRecord)
    requires FlowInv(w) && CodeAdded(w, w', code, record) && SameTickets(w, w') && RecordOk(w, record)
    requires Moved(w, w', r) && FlowOk(w', w'.requests[r])
    ensures FlowInv(w') && Kept(w, w')
  {
    hide *;
    FlowInvParts(w);
    CodeAddedGrows(w, w', code, record);
    FramedTells(w, w');
    AddedCodeOk(w, w', code, record);
    TicketsSideFrame(w, w');
    GrantsFrame(w, w');
    TokensFrame(w, w');
    FlowsFrame(w, w', r);
    FlowInvMade(w');
    KeptMade(w, w');
  }

  lemma IssueAddsCode(w: World, r: Id, record: CodeRecord, code: Id)
    requires FlowsOk(w) && r in w.requests && w.requests[r] == StoreCode(record) && code !in w.minted
    ensures var w' := IssueCode(w, r, record, code);
            && CodeAdded(w, w', code, record) && SameTickets(w, w') && Moved(w, w', r) && RecordOk(w, record)
            && FlowOk(w', w'.requests[r])
  {
    assert FlowOk(w, w.requests[r]);
  }

  lemma CodeFlows(w: World, r: Id, record: CodeRecord, code: Id)
    requires FlowInv(w) && r in w.requests && w.requests[r] == StoreCode(record) && code !in w.minted
    ensures var w' := IssueCode(w, r, record, code); FlowInv(w') && Kept(w, w')
  {
    hide *;
    FlowInvParts(w);
    IssueAddsCode(w, r, record, code);
    CodeAddedFlows(w, IssueCode(w, r, record, code), r, code, record);
  }

  /** Codes at most vanish; the rest of the grants' side is as it was. */
  ghost predicate CodesOnlyVanish(w: World, w': World) {
    && w'.audience == w.audience && w.minted <= w'.minted && w'.clients == w.clients
    && w'.standing == w.standing
    && w'.grants == w.grants && w'.grantOf == w.grantOf
    && w'.past.codes == w.past.codes && w'.past.signed == w.past.signed
    && (forall c :: c in w'.codes ==> c in w.codes && w'.codes[c].value == w.codes[c].value)
  }

  lemma CodesVanishGrows(w: World, w': World)
    requires CodesOnlyVanish(w, w') && SameTickets(w, w') && w.clients.Keys <= w.minted && w.standing <= w.minted
    ensures Grown(w, w') && Framed(w, w') && w'.past.codes == w.past.codes && w'.past.signed == w.past.signed
    ensures forall c :: c in w'.codes ==> c in w.codes && w'.codes[c].value == w.codes[c].value
  {
  }

  lemma CodeTakenFlows(w: World, w': World, r: Id)
    requires FlowInv(w) && CodesOnlyVanish(w, w') && SameTickets(w, w')
    requires Moved(w, w', r) && FlowOk(w, w'.requests[r])
    ensures FlowInv(w') && Kept(w, w')
  {
    assert r in w'.requests;
    hide *;
    FlowInvParts(w);
    CodesVanishGrows(w, w');
    FramedTells(w, w');
    TicketsSideFrame(w, w');
    GrantsFrame(w, w');
    CodesFrame(w, w');
    TokensFrame(w, w');
    FlowStays(w, w', w'.requests[r]);
    FlowsFrame(w, w', r);
    FlowInvMade(w');
    KeptMade(w, w');
  }

  lemma TakeTakesCode(w: World, r: Id, p: ExchangeParams)
    ensures var w' := TakeCode(w, r, p);
            && CodesOnlyVanish(w, w') && SameTickets(w, w') && Moved(w, w', r)
            && w'.requests[r] == AfterCode(Get(w.codes, p.code, w.now), p)
  {
    hide AfterCode;
  }

  lemma AfterCodeOk(w: World, p: ExchangeParams)
    requires CodesOk(w)
    ensures FlowOk(w, AfterCode(Get(w.codes, p.code, w.now), p))
  {
    if Get(w.codes, p.code, w.now).Some? {
      assert RecordOk(w, w.past.codes[p.code]);
    }
    hide RecordOk, Redeemable;
  }

  lemma TakeCodeFlows(w: World, r: Id, p: ExchangeParams)
    requires FlowInv(w) && r in w.requests && w.requests[r] == ExTake(p)
    ensures var w' := TakeCode(w, r, p); FlowInv(w') && Kept(w, w')
  {
    hide *;
    FlowInvParts(w);
    TakeTakesCode(w, r, p);
    AfterCodeOk(w, p);
    CodeTakenFlows(w, TakeCode(w, r, p), r);
  }

  ghost predicate TokenAdded(w: World, w': World, jti: Id, token: AccessToken) {
    && w'.audience == w.audience && w'.minted == w.minted + {jti} && w'.clients == w.clients
    && w'.standing == w.standing
    && w'.codes == w.codes && w'.grants == w.grants && w'.grantOf == w.grantOf && w'.past.codes == w.past.codes
    && w'.past.signed == w.past.signed[jti := token]
  }

  lemma TokenAddedGrows(w: World, w': World, jti: Id, token: AccessToken)
    requires TokenAdded(w, w', jti, token) && SameTickets(w, w') && w.clients.Keys <= w.minted && w.standing <= w.minted
    ensures Grown(w, w') && Framed(w, w') && w'.past.codes == w.past.codes && w'.codes == w.codes
  {
  }

  lemma AddedTokenOk(w: World, w': World, jti: Id, token: AccessToken)
    requires TokensOk(w) && TokenAdded(w, w', jti, token) && Grown(w, w') && TokenOk(w, token)
    ensures TokensOk(w')
  {
    forall j | j in w'.past.signed ensures j in w'.minted && TokenOk(w', w'.past.signed[j]) {
      var t := w'.past.signed[j];
      if j != jti { assert TokenOk(w, w.past.signed[j]); }
      HeldStays(w, w', t.user, t.clientId, t.grantId, t.scopes);
    }
  }

  lemma SignedFlows(w: World, w': World, r: Id, jti: Id, token: AccessToken)
    requires FlowInv(w) && TokenAdded(w, w', jti, token) && SameTickets(w, w') && TokenOk(w, token)
    requires Moved(w, w', r) && FlowOk(w, w'.requests[r])
    ensures FlowInv(w') && Kept(w, w')
  {
    assert r in w'.requests;
    hide *;
    FlowInvParts(w);
    TokenAddedGrows(w, w', jti, token);
    FramedTells(w, w');
    TicketsSideFrame(w, w');
    GrantsFrame(w, w');
    CodesFrame(w, w');
    AddedTokenOk(w, w', jti, token);
    FlowStays(w, w', w'.requests[r]);
    FlowsFrame(w, w', r);
    FlowInvMade(w');
    KeptMade(w, w');
  }

  lemma SignFirstAdds(w: World, r: Id, code: Id, record: CodeRecord, jti: Id) returns (token: AccessToken)
    requires FlowsOk(w) && r in w.requests && w.requests[r] == ExSign(code, record)
    ensures var w' := SignFirst(w, r, code, record, jti);
            && TokenAdded(w, w', jti, token) && SameTickets(w, w') && Moved(w, w', r) && TokenOk(w, token)
            && FlowOk(w, w'.requests[r])
  {
    assert FlowOk(w, w.requests[r]);
    token := SignFirst(w, r, code, record, jti).past.signed[jti];
  }

  lemma SignFirstFlows(w: World, r: Id, code: Id, record: CodeRecord, jti: Id)
    requires FlowInv(w) && r in w.requests && w.requests[r] == ExSign(code, record) && jti !in w.minted
    ensures var w' := SignFirst(w, r, code, record, jti); FlowInv(w') && Kept(w, w')
  {
    hide *;
    FlowInvParts(w);
    var token := SignFirstAdds(w, r, code, record, jti);
    SignedFlows(w, SignFirst(w, r, code, record, jti), r, jti, token);
  }

  lemma SignNextAdds(
    w: World, r: Id, p: RefreshParams, row: GrantSession, grant: Grant, scopes: set<string>, jti: Id)
    returns (token: AccessToken)
    requires FlowsOk(w) && r in w.requests && w.requests[r] == RfSign(p, row, grant, scopes)
    ensures var w' := SignNext(w, r, p, row, grant, scopes, jti);
            && TokenAdded(w, w', jti, token) && SameTickets(w, w') && Moved(w, w', r) && TokenOk(w, token)
            && FlowOk(w, w'.requests[r])
  {
    assert FlowOk(w, w.requests[r]);
    token := SignNext(w, r, p, row, grant, scopes, jti).past.signed[jti];
  }

  lemma SignNextFlows(
    w: World, r: Id, p: RefreshParams, row: GrantSession, grant: Grant, scopes: set<string>, jti: Id)
    requires FlowInv(w) && r in w.requests && w.requests[r] == RfSign(p, row, grant, scopes) && jti !in w.minted
    ensures var w' := SignNext(w, r, p, row, grant, scopes, jti); FlowInv(w') && Kept(w, w')
  {
    hide *;
    FlowInvParts(w);
    var token := SignNextAdds(w, r, p, row, grant, scopes, jti);
    SignedFlows(w, SignNext(w, r, p, row, grant, scopes, jti), r, jti, token);
  }

  // ---- connections and denials leave consent alone --------------------------------------------------------

  lemma InsertFlows(w: World, r: Id, code: Id, record: CodeRecord, row: GrantSession)
    requires FlowInv(w)
    ensures var w' := InsertRow(w, r, code, record, row); FlowInv(w') && Kept(w, w')
  {
    QuietFlow(w, InsertRow(w, r, code, record, row), r);
  }

  lemma RefusalFlows(w: World, r: Id)
    requires FlowInv(w)
    ensures var w' := Move(w, r, Done(Refused)); FlowInv(w') && Kept(w, w')
  {
    QuietFlow(w, Move(w, r, Done(Refused)), r);
  }

  lemma RotateFlows(w: World, r: Id, q: Request, secret: Id)
    requires FlowInv(w) && q.RfRotate?
    ensures var w' := RotateStep(w, r, q, secret); FlowInv(w') && Kept(w, w')
  {
    if Rotatable(w.sessions, q.refresh.token.session, q.refresh.token, q.at) {
      QuietFlow(w, RotateStep(w, r, q, secret), r);
    } else {
      RefusalFlows(w, r);
    }
  }

  lemma DenyFlows(w: World, r: Id, jti: Id, exp: nat, ttlSec: nat, at: nat, outcome: Outcome)
    requires FlowInv(w) && r in w.requests && w.requests[r] == RfDenySet(jti, exp, ttlSec, at, outcome)
    ensures var w' := Deny(w, r, jti, ttlSec, outcome); FlowInv(w') && Kept(w, w')
  {
    assert FlowOk(w, w.requests[r]);
    QuietFlow(w, Deny(w, r, jti, ttlSec, outcome), r);
  }

  // ---- every step -----------------------------------------------------------------------------------------

  lemma KeptIsReflexive(w: World)
    ensures Kept(w, w) && Grown(w, w)
  {
  }

  lemma KeptIsGrown(w: World, w': World)
    ensures Kept(w, w') ==> Grown(w, w')
  {
  }

  lemma GrownIsReflexive(w: World)
    ensures Grown(w, w)
  {
  }

  lemma ExchangeFlows(w: World, r: Id, code: Id, record: CodeRecord, jti: Id, exp: nat, at: nat, c: Choice)
    requires FlowInv(w)
    ensures var w' := OpenSession(w, r, code, record, jti, exp, at, c); FlowInv(w') && Kept(w, w')
  {
    if record.grantId in w.grants {
      InsertFlows(w, r, code, record, FirstRow(record, RefreshToken(c.drawn, c.secret), jti, exp, at));
    } else {
      RefusalFlows(w, r);
    }
  }

  lemma AdvanceFlows(w: World, r: Id, c: Choice)
    requires FlowInv(w) && r in w.requests
    ensures FlowInv(Advance(w, r, c)) && Grown(w, Advance(w, r, c))
    ensures w.requests[r].PostTake? || Kept(w, Advance(w, r, c))
  {
    hide *;
    KeptIsReflexive(w);
    AdvanceByKind(w, r, c);
    KeptIsGrown(w, Advance(w, r, c));
    match w.requests[r]
    case GetStore(req, session) => if c.drawn !in w.minted { StoreFlows(w, r, req, session, c.drawn); }
    case PostSkip(ticket, user, covering) => SkipFlows(w, r, ticket, user, covering);
    case PostWrite(ticket, pending) => WriteFlows(w, r, ticket, pending);
    case PostTake(ticket, allow, browser) => SubmitFlows(w, r, ticket, allow, browser);
    case StoreCode(record) => if c.drawn !in w.minted { CodeFlows(w, r, record, c.drawn); }
    case Complete(user, req, via) => if c.drawn !in w.minted { UpsertFlows(w, r, user, req, via, c.drawn); }
    case ExTake(p) => TakeCodeFlows(w, r, p);
    case ExSign(code, record) => if c.drawn !in w.minted { SignFirstFlows(w, r, code, record, c.drawn); }
    case ExInsert(code, record, jti, exp, at) => ExchangeFlows(w, r, code, record, jti, exp, at, c);
    case RfSign(p, row, grant, scopes) =>
      if c.drawn !in w.minted { SignNextFlows(w, r, p, row, grant, scopes, c.drawn); }
    case RfRotate(_, _, _, _, _, _) => RotateFlows(w, r, w.requests[r], c.secret);
    case RfDenySet(jti, exp, ttlSec, at, outcome) => DenyFlows(w, r, jti, exp, ttlSec, at, outcome);
    case _ => ObserveFlows(w, r, c);
  }

  // ---- events outside any request -------------------------------------------------------------------------

  lemma ForgottenIsGrown(w: World, w': World)
    requires OnlyForgets(w, w') && DraftsOk(w)
    ensures Grown(w, w')
  {
  }

  lemma ForgottenTells(w: World, w': World)
    requires OnlyForgets(w, w') && w.clients.Keys <= w.minted && w.standing <= w.minted
    ensures SameTickets(w, w') && w'.codes == w.codes && w'.past.codes == w.past.codes && w'.past.signed == w.past.signed
    ensures w'.clients.Keys <= w'.minted && w'.standing <= w'.minted
  {
  }

  lemma ForgottenRequests(w: World, w': World)
    requires FlowsOk(w) && OnlyForgets(w, w') && Grown(w, w')
    ensures FlowsOk(w')
  {
    assert forall x :: x in w.requests ==> x in w'.requests && w'.requests[x] == w.requests[x];
    assert forall x :: x in w'.requests && x !in w.requests ==> Enters(w'.requests[x]);
    hide OnlyForgets, Grown, FlowOk, Enters;
    forall x | x in w'.requests ensures FlowOk(w', w'.requests[x]) {
      if x in w.requests { FlowStays(w, w', w.requests[x]); } else { EnteringFlows(w', w'.requests[x]); }
    }
  }

  lemma EnteringFlows(w: World, q: Request)
    requires Enters(q)
    ensures FlowOk(w, q)
  {
  }

  lemma ForgottenFlows(w: World, w': World)
    requires FlowInv(w) && OnlyForgets(w, w') && Grown(w, w') && GrantsOk(w')
    ensures FlowInv(w')
  {
    hide *;
    FlowInvParts(w);
    ForgottenTells(w, w');
    TicketsSideFrame(w, w');
    CodesFrame(w, w');
    TokensFrame(w, w');
    ForgottenRequests(w, w');
    FlowInvMade(w');
  }

  lemma CascadeKeepsGrants(w: World, w': World, id: Id)
    requires GrantsOk(w) && Grown(w, w') && w' == Cascade(w, id)
    ensures GrantsOk(w')
  {
    forall g | g in w'.grants ensures GrantOk(w', g, w'.grants[g]) {
      assert GrantOk(w, g, w.grants[g]);
      HeldStays(w, w', w.grants[g].user, w.grants[g].clientId, g, w.grants[g].scopes);
    }
    forall k | k in w'.grantOf
      ensures w'.grantOf[k] in w'.grants && (w'.grants[w'.grantOf[k]].user, w'.grants[w'.grantOf[k]].clientId) == k
    {
      var g := w.grantOf[k];
      assert g in w.grants && (w.grants[g].user, w.grants[g].clientId) == k;
      assert !GrantOn(w.grants[g], id);
    }
  }

  ghost predicate GrantsRemain(w: World, w': World) {
    w'.grants == w.grants && w'.grantOf == w.grantOf && w.standing <= w'.standing
  }

  lemma EntriesKeepGrants(w: World, e: Event)
    requires e.SignUp? || e.Register? || e.Arrive?
    ensures GrantsRemain(w, Step(w, e))
  {
    if e.SignUp? {
      if e.id in w.minted {}
    } else if e.Register? {
      if e.id in w.minted {}
    } else {
      if e.request in w.requests {}
    }
  }

  lemma DeletesKeepGrants(w: World, e: Event)
    requires e.Tick? || e.RevokeMark? || e.DropSessions? || e.Sweep?
    ensures GrantsRemain(w, Step(w, e))
  {
    if e.Sweep? && e.at <= w.now {}
  }

  lemma OthersKeepGrants(w: World, e: Event)
    requires !e.Go? && !e.DropRow?
    ensures GrantsRemain(w, Step(w, e))
  {
    hide Step, GrantsRemain;
    if e.SignUp? || e.Register? || e.Arrive? { EntriesKeepGrants(w, e); } else { DeletesKeepGrants(w, e); }
  }

  lemma StepFlows(w: World, e: Event)
    requires FlowInv(w)
    ensures FlowInv(Step(w, e)) && Grown(w, Step(w, e))
  {
    GrownIsReflexive(w);
    if !e.Go? {
      OutsideOnlyForgets(w, e);
      ForgottenIsGrown(w, Step(w, e));
      if e.DropRow? {
        CascadeKeepsGrants(w, Step(w, e), e.id);
      } else {
        OthersKeepGrants(w, e);
        GrantsFrame(w, Step(w, e));
      }
      ForgottenFlows(w, Step(w, e));
    } else if e.request in w.requests {
      AdvanceFlows(w, e.request, e.choice);
    }
  }

  lemma {:induction false} AlwaysFlows(audience: string, events: seq<Event>)
    ensures FlowInv(Run(Start(audience), events))
    decreases |events|
  {
    if events != [] {
      AlwaysFlows(audience, events[..|events| - 1]);
      StepFlows(Run(Start(audience), events[..|events| - 1]), events[|events| - 1]);
    }
  }
}
