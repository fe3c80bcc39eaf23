/**
 * A GET or a form of the authorization endpoint that no other request disturbs, run step by step on the machine, ends
 * exactly as the handlers promise: `OauthStore.Store.GetAuthorize` and `OauthStore.Store.PostAuthorize`.
 */
module OauthAuthorizeAlone {
  import opened Wrappers
  import opened Config
  import opened OauthWorld
  import opened OauthStore
  import F = OauthConsent

  /** What the authorization endpoint writes. */
  datatype Desk = Desk(
    minted: set<Id>, tickets: map<Id, Timed<Pending>>, codes: map<Id, Timed<CodeRecord>>, grants: map<Id, Grant>,
    grantOf: map<(Id, Id), Id>)

  function DeskOf(w: World): Desk {
    Desk(w.minted, w.tickets, w.codes, w.grants, w.grantOf)
  }

  /** Request r stands here, this is what has been written, and the rest is as in w. */
  predicate Stands(w: World, w': World, r: Id, q: Request, desk: Desk) {
    && w'.now == w.now && w'.audience == w.audience && w'.clients == w.clients && w'.standing == w.standing
    && w'.sessions == w.sessions && w'.denied == w.denied && w'.revoked == w.revoked
    && DeskOf(w') == desk && r in w'.requests && w'.requests[r] == q
  }

  // ---- one step -------------------------------------------------------------------------------------------

  lemma ObserveStands(w: World, w1: World, r: Id, q: Request, desk: Desk, c: Choice)
    requires Stands(w, w1, r, q, desk) && Observes(q)
    ensures Stands(w, Step(w1, Go(r, c)), r, Observe(w1, q, c), desk)
  {
    AdvanceObserves(w1, r, c);
    hide Advance, Observe, Observes;
  }

  lemma DoneStands(w: World, w1: World, r: Id, outcome: Outcome, desk: Desk, c: Choice)
    requires Stands(w, w1, r, Done(outcome), desk)
    ensures Stands(w, Step(w1, Go(r, c)), r, Done(outcome), desk)
  {
    ObserveStands(w, w1, r, Done(outcome), desk, c);
    hide Stands, Step;
  }

  lemma StoreStands(w: World, w1: World, r: Id, req: AuthRequest, session: Option<Id>, desk: Desk, c: Choice)
    requires Stands(w, w1, r, GetStore(req, session), desk) && c.drawn !in desk.minted
    ensures Stands(w, Step(w1, Go(r, c)), r, Done(Page), desk.(
              minted := desk.minted + {c.drawn},
              tickets := desk.tickets[c.drawn := Timed(Pending(req, session), Some(w.now + Ms(PENDING_AUTH_TTL_SEC)))]))
  {
    AdvanceByKind(w1, r, c);
    hide Advance;
  }

  lemma SkipStands(w: World, w1: World, r: Id, ticket: Id, user: Id, covering: Id, held: Pending, desk: Desk, c: Choice)
    requires Stands(w, w1, r, PostSkip(ticket, user, covering), desk) && Get(desk.tickets, ticket, w.now) == Some(held)
    ensures Stands(w, Step(w1, Go(r, c)), r, Complete(user, held.req, Some(covering)),
                   desk.(tickets := desk.tickets - {ticket}))
  {
    AdvanceByKind(w1, r, c);
    hide Advance, Get;
  }

  lemma WriteStands(w: World, w1: World, r: Id, ticket: Id, pending: Pending, desk: Desk, c: Choice)
    requires Stands(w, w1, r, PostWrite(ticket, pending), desk) && Get(desk.tickets, ticket, w.now).Some?
    ensures ticket in desk.tickets
    ensures Stands(w, Step(w1, Go(r, c)), r, Done(Page),
                   desk.(tickets := desk.tickets[ticket := Timed(pending, desk.tickets[ticket].until)]))
  {
    AdvanceByKind(w1, r, c);
    hide Advance;
  }

  lemma TakeStands(w: World, w1: World, r: Id, ticket: Id, allow: bool, browser: Option<Id>, desk: Desk, c: Choice)
    requires Stands(w, w1, r, PostTake(ticket, allow, browser), desk)
    ensures Stands(w, Step(w1, Go(r, c)), r, AfterConsent(Get(desk.tickets, ticket, w.now), allow, browser),
                   desk.(tickets := desk.tickets - {ticket}))
  {
    AdvanceByKind(w1, r, c);
    hide Advance, Get, AfterConsent, Approve;
  }

  /** The grant as the upsert leaves it, and the code record that names it. */
  function Granted(desk: Desk, user: Id, req: AuthRequest, drawn: Id): Desk {
    var g := if (user, req.clientId) in desk.grantOf then desk.grantOf[(user, req.clientId)] else drawn;
    desk.(minted := desk.minted + {drawn},
          grants := desk.grants[g := Grant(user, req.clientId,
            (if g in desk.grants then desk.grants[g].scopes else {}) + req.scopes)],
          grantOf := desk.grantOf[(user, req.clientId) := g])
  }

  function RecordFor(desk: Desk, user: Id, req: AuthRequest, drawn: Id): CodeRecord {
    var g := if (user, req.clientId) in desk.grantOf then desk.grantOf[(user, req.clientId)] else drawn;
    CodeRecord(user, req.clientId, g, req.redirectUri, req.scopes, req.challenge, req.resource)
  }

  lemma GrantStands(w: World, w1: World, r: Id, user: Id, req: AuthRequest, via: Option<Id>, desk: Desk, c: Choice)
    requires Stands(w, w1, r, Complete(user, req, via), desk) && c.drawn !in desk.minted
    requires user in w.standing && req.clientId in w.standing
    ensures Stands(w, Step(w1, Go(r, c)), r, StoreCode(RecordFor(desk, user, req, c.drawn)),
                   Granted(desk, user, req, c.drawn))
  {
    AdvanceByKind(w1, r, c);
    hide Advance;
  }

  lemma RefusalStands(w: World, w1: World, r: Id, user: Id, req: AuthRequest, via: Option<Id>, desk: Desk, c: Choice)
    requires Stands(w, w1, r, Complete(user, req, via), desk) && c.drawn !in desk.minted
    requires user !in w.standing || req.clientId !in w.standing
    ensures Stands(w, Step(w1, Go(r, c)), r, Done(Refused), desk)
  {
    AdvanceByKind(w1, r, c);
    hide Advance, WriteGrant;
  }

  lemma CodeStands(w: World, w1: World, r: Id, record: CodeRecord, desk: Desk, c: Choice)
    requires Stands(w, w1, r, StoreCode(record), desk) && c.drawn !in desk.minted
    ensures Stands(w, Step(w1, Go(r, c)), r, Done(Redirect(c.drawn)), desk.(
              minted := desk.minted + {c.drawn},
              codes := desk.codes[c.drawn := Timed(record, Some(w.now + Ms(AUTH_CODE_TTL_SEC)))]))
  {
    AdvanceByKind(w1, r, c);
    hide Advance;
  }

  // ---- completing -----------------------------------------------------------------------------------------

  /** The request is done with this outcome; tickets and what completing writes are as said, all else as it was. */
  predicate Settled(w: World, w': World, r: Id, outcome: Outcome, tickets: map<Id, Timed<Pending>>) {
    && r in w'.requests && w'.requests[r] == Done(outcome) && w'.tickets == tickets
    && w'.sessions == w.sessions && w'.denied == w.denied && w'.revoked == w.revoked && w'.now == w.now
  }

  lemma StandsSettled(w: World, w': World, r: Id, outcome: Outcome, desk: Desk)
    requires Stands(w, w', r, Done(outcome), desk)
    ensures Settled(w, w', r, outcome, desk.tickets)
    ensures w'.grants == desk.grants && w'.grantOf == desk.grantOf && w'.codes == desk.codes && w'.minted == desk.minted
  {
  }

  /** Grant and code, with nothing in between. */
  lemma CompletesAlone(
    w: World, w1: World, r: Id, user: Id, req: AuthRequest, via: Option<Id>, desk: Desk, a: Choice, b: Choice)
    requires Stands(w, w1, r, Complete(user, req, via), desk) && user in w.standing && req.clientId in w.standing
    requires a.drawn !in desk.minted && b.drawn !in desk.minted + {a.drawn}
    ensures var w' := Step(Step(w1, Go(r, a)), Go(r, b));
            && Settled(w, w', r, Redirect(b.drawn), desk.tickets)
            && w'.grantOf == Granted(desk, user, req, a.drawn).grantOf
            && Completed(desk.grants, desk.grantOf, desk.codes, w'.grants, w'.codes, user, req, a.drawn, b.drawn, w.now)
  {
    hide *;
    var w2 := Step(w1, Go(r, a));
    var granted := Granted(desk, user, req, a.drawn);
    var record := RecordFor(desk, user, req, a.drawn);
    GrantedIs(desk, user, req, a.drawn);
    GrantedCompletes(desk, user, req, a.drawn, b.drawn, w.now);
    GrantStands(w, w1, r, user, req, via, desk, a);
    CodeStands(w, w2, r, record, granted, b);
    StandsSettled(w, Step(w2, Go(r, b)), r, Redirect(b.drawn), granted.(
      minted := granted.minted + {b.drawn},
      codes := granted.codes[b.drawn := Timed(record, Some(w.now + Ms(AUTH_CODE_TTL_SEC)))]));
  }

  lemma GrantedCompletes(desk: Desk, user: Id, req: AuthRequest, drawn: Id, code: Id, at: nat)
    ensures Completed(desk.grants, desk.grantOf, desk.codes, Granted(desk, user, req, drawn).grants,
                      desk.codes[code := Timed(RecordFor(desk, user, req, drawn), Some(at + Ms(AUTH_CODE_TTL_SEC)))],
                      user, req, drawn, code, at)
  {
  }

  lemma GrantedIs(desk: Desk, user: Id, req: AuthRequest, drawn: Id)
    ensures var granted := Granted(desk, user, req, drawn);
            granted.minted == desk.minted + {drawn} && granted.tickets == desk.tickets && granted.codes == desk.codes
  {
  }

  lemma CoveringIsCoveredBy(w: World, user: Id, req: AuthRequest)
    ensures Covering(w, user, req).Some? <==> CoveredBy(w.grants, w.grantOf, user, req)
    ensures F.GrantsOk(w) && Covering(w, user, req).Some? ==> user in w.standing && req.clientId in w.standing
  {
    if F.GrantsOk(w) && Covering(w, user, req).Some? {
      var g := w.grantOf[(user, req.clientId)];
      assert F.GrantOk(w, g, w.grants[g]) && (w.grants[g].user, w.grants[g].clientId) == (user, req.clientId);
    }
  }

  lemma SameCovering(w: World, w1: World, r: Id, q: Request, desk: Desk, user: Id, req: AuthRequest)
    requires Stands(w, w1, r, q, desk) && desk.grants == w.grants && desk.grantOf == w.grantOf
    ensures Covering(w1, user, req) == Covering(w, user, req)
  {
  }

  lemma SameValidation(w: World, w1: World, r: Id, q: Request, desk: Desk, input: AuthorizeInput)
    requires Stands(w, w1, r, q, desk)
    ensures Validate(w1, input) == Validate(w, input)
  {
    hide DeskOf;
  }

  lemma Begins(w: World, r: Id)
    requires r in w.requests
    ensures Stands(w, w, r, w.requests[r], DeskOf(w))
  {
  }

  lemma DeskIs(w: World)
    ensures var desk := DeskOf(w);
            && desk.minted == w.minted && desk.tickets == w.tickets && desk.codes == w.codes && desk.grants == w.grants
            && desk.grantOf == w.grantOf
  {
  }

  // ---- a GET ------------------------------------------------------------------------------------------------

  function FourSteps(w: World, r: Id, c1: Choice, c2: Choice, c3: Choice, c4: Choice): World {
    Step(Step(Step(Step(w, Go(r, c1)), Go(r, c2)), Go(r, c3)), Go(r, c4))
  }

  lemma GetObserves(w: World, input: AuthorizeInput, browser: Option<Id>, c: Choice)
    ensures Observes(GetValidate(input, browser))
    ensures Observe(w, GetValidate(input, browser), c) ==
      if Validate(w, input).None? then Done(Refused)
      else if browser.None? then GetStore(Validate(w, input).value, None)
      else GetResolve(Validate(w, input).value, browser.value)
  {
    hide Validate;
  }

  lemma ResolveObserves(w: World, req: AuthRequest, user: Id, c: Choice)
    ensures Observes(GetResolve(req, user))
    ensures Observe(w, GetResolve(req, user), c) ==
      if Covering(w, user, req).Some? then Complete(user, req, Covering(w, user, req)) else GetStore(req, Some(user))
  {
    hide Covering;
  }

  lemma GetIsRefused(
    w: World, r: Id, input: AuthorizeInput, browser: Option<Id>, c1: Choice, c2: Choice, c3: Choice, c4: Choice)
    requires r in w.requests && w.requests[r] == GetValidate(input, browser) && Validate(w, input).None?
    ensures Stands(w, FourSteps(w, r, c1, c2, c3, c4), r, Done(Refused), DeskOf(w))
  {
    hide Stands, Step, Validate, DeskOf;
    Begins(w, r);
    GetObserves(w, input, browser, c1);
    ObserveStands(w, w, r, GetValidate(input, browser), DeskOf(w), c1);
    DoneStands(w, Step(w, Go(r, c1)), r, Refused, DeskOf(w), c2);
    DoneStands(w, Step(Step(w, Go(r, c1)), Go(r, c2)), r, Refused, DeskOf(w), c3);
    DoneStands(w, Step(Step(Step(w, Go(r, c1)), Go(r, c2)), Go(r, c3)), r, Refused, DeskOf(w), c4);
  }

  /** The ticket with its request, and with the browser's session if there is one, for its lifetime. */
  function Ticketed(w: World, req: AuthRequest, session: Option<Id>, drawn: Id): Desk {
    DeskOf(w).(
      minted := w.minted + {drawn},
      tickets := w.tickets[drawn := Timed(Pending(req, session), Some(w.now + Ms(PENDING_AUTH_TTL_SEC)))])
  }

  lemma TicketedIs(w: World, req: AuthRequest, session: Option<Id>, drawn: Id)
    ensures Ticketed(w, req, session, drawn) == DeskOf(w).(
              minted := DeskOf(w).minted + {drawn},
              tickets := DeskOf(w).tickets[drawn :=
                Timed(Pending(req, session), Some(w.now + Ms(PENDING_AUTH_TTL_SEC)))])
  {
  }

  lemma AnonymousGetWaits(
    w: World, r: Id, input: AuthorizeInput, req: AuthRequest, c1: Choice, c2: Choice, c3: Choice, c4: Choice)
    requires r in w.requests && w.requests[r] == GetValidate(input, None) && Validate(w, input) == Some(req)
    requires c2.drawn !in w.minted
    ensures Stands(w, FourSteps(w, r, c1, c2, c3, c4), r, Done(Page), Ticketed(w, req, None, c2.drawn))
  {
    hide Stands, Step, Validate, DeskOf, Ticketed;
    var w1 := Step(w, Go(r, c1));
    var w2 := Step(w1, Go(r, c2));
    Begins(w, r);
    DeskIs(w);
    GetObserves(w, input, None, c1);
    ObserveStands(w, w, r, GetValidate(input, None), DeskOf(w), c1);
    StoreStands(w, w1, r, req, None, DeskOf(w), c2);
    TicketedIs(w, req, None, c2.drawn);
    DoneStands(w, w2, r, Page, Ticketed(w, req, None, c2.drawn), c3);
    DoneStands(w, Step(w2, Go(r, c3)), r, Page, Ticketed(w, req, None, c2.drawn), c4);
  }

  lemma SignedInGetWaits(
    w: World, r: Id, input: AuthorizeInput, req: AuthRequest, user: Id, c1: Choice, c2: Choice, c3: Choice, c4: Choice)
    requires r in w.requests && w.requests[r] == GetValidate(input, Some(user)) && Validate(w, input) == Some(req)
    requires Covering(w, user, req).None? && c3.drawn !in w.minted
    ensures Stands(w, FourSteps(w, r, c1, c2, c3, c4), r, Done(Page), Ticketed(w, req, Some(user), c3.drawn))
  {
    hide Stands, Step, Validate, DeskOf, Ticketed, Covering;
    var w1 := Step(w, Go(r, c1));
    var w2 := Step(w1, Go(r, c2));
    Begins(w, r);
    DeskIs(w);
    GetObserves(w, input, Some(user), c1);
    ObserveStands(w, w, r, GetValidate(input, Some(user)), DeskOf(w), c1);
    SameCovering(w, w1, r, GetResolve(req, user), DeskOf(w), user, req);
    ResolveObserves(w1, req, user, c2);
    ObserveStands(w, w1, r, GetResolve(req, user), DeskOf(w), c2);
    StoreStands(w, w2, r, req, Some(user), DeskOf(w), c3);
    TicketedIs(w, req, Some(user), c3.drawn);
    DoneStands(w, Step(w2, Go(r, c3)), r, Page, Ticketed(w, req, Some(user), c3.drawn), c4);
  }

  lemma CoveredGetCompletes(
    w: World, r: Id, input: AuthorizeInput, req: AuthRequest, user: Id, c1: Choice, c2: Choice, c3: Choice, c4: Choice)
    requires F.GrantsOk(w) && r in w.requests && w.requests[r] == GetValidate(input, Some(user))
    requires Validate(w, input) == Some(req) && Covering(w, user, req).Some?
    requires c3.drawn !in w.minted && c4.drawn !in w.minted + {c3.drawn}
    ensures var w' := FourSteps(w, r, c1, c2, c3, c4);
            && Settled(w, w', r, Redirect(c4.drawn), w.tickets)
            && Completed(w.grants, w.grantOf, w.codes, w'.grants, w'.codes, user, req, c3.drawn, c4.drawn, w.now)
  {
    hide Stands, Step, Validate, DeskOf, Covering, Settled, Completed, CoveredBy, F.GrantsOk, Granted;
    var w1 := Step(w, Go(r, c1));
    var w2 := Step(w1, Go(r, c2));
    Begins(w, r);
    DeskIs(w);
    CoveringIsCoveredBy(w, user, req);
    GetObserves(w, input, Some(user), c1);
    ObserveStands(w, w, r, GetValidate(input, Some(user)), DeskOf(w), c1);
    SameCovering(w, w1, r, GetResolve(req, user), DeskOf(w), user, req);
    ResolveObserves(w1, req, user, c2);
    ObserveStands(w, w1, r, GetResolve(req, user), DeskOf(w), c2);
    CompletesAlone(w, w2, r, user, req, Covering(w, user, req), DeskOf(w), c3, c4);
  }

  /**
   * A GET is refused if it is not valid; it goes to a code at once exactly under a grant that covers it, and otherwise
   * leaves a ticket with the request and the browser's session.
   */
  lemma UndisturbedGet(
    w: World, r: Id, input: AuthorizeInput, browser: Option<Id>, c1: Choice, c2: Choice, c3: Choice, c4: Choice)
    requires F.GrantsOk(w) && r in w.requests && w.requests[r] == GetValidate(input, browser)
    requires c2.drawn !in w.minted && c3.drawn !in w.minted && c4.drawn !in w.minted + {c3.drawn}
    ensures var w' := FourSteps(w, r, c1, c2, c3, c4);
            var valid := Validate(w, input);
            && (valid.None? ==> Settled(w, w', r, Refused, w.tickets) && w'.grants == w.grants && w'.codes == w.codes)
            && (valid.Some? && (browser.None? || !CoveredBy(w.grants, w.grantOf, browser.value, valid.value)) ==>
                  && var ticket := if browser.None? then c2.drawn else c3.drawn;
                  && Settled(w, w', r, Page, w.tickets[ticket :=
                       Timed(Pending(valid.value, browser), Some(w.now + Ms(PENDING_AUTH_TTL_SEC)))])
                  && w'.grants == w.grants && w'.codes == w.codes)
            && (valid.Some? && browser.Some? && CoveredBy(w.grants, w.grantOf, browser.value, valid.value) ==>
                  && Settled(w, w', r, Redirect(c4.drawn), w.tickets)
                  && Completed(w.grants, w.grantOf, w.codes, w'.grants, w'.codes, browser.value, valid.value, c3.drawn,
                               c4.drawn, w.now))
  {
    hide FourSteps, Stands, Validate, Covering, CoveredBy, Completed, Settled, F.GrantsOk, DeskOf, Ticketed;
    var w' := FourSteps(w, r, c1, c2, c3, c4);
    var valid := Validate(w, input);
    DeskIs(w);
    if valid.None? {
      GetIsRefused(w, r, input, browser, c1, c2, c3, c4);
      StandsSettled(w, w', r, Refused, DeskOf(w));
    } else if browser.None? {
      AnonymousGetWaits(w, r, input, valid.value, c1, c2, c3, c4);
      TicketedIs(w, valid.value, None, c2.drawn);
      StandsSettled(w, w', r, Page, Ticketed(w, valid.value, None, c2.drawn));
    } else {
      CoveringIsCoveredBy(w, browser.value, valid.value);
      if Covering(w, browser.value, valid.value).None? {
        SignedInGetWaits(w, r, input, valid.value, browser.value, c1, c2, c3, c4);
        TicketedIs(w, valid.value, browser, c3.drawn);
        StandsSettled(w, w', r, Page, Ticketed(w, valid.value, browser, c3.drawn));
      } else {
        CoveredGetCompletes(w, r, input, valid.value, browser.value, c1, c2, c3, c4);
      }
    }
  }

  // ---- the consent form -------------------------------------------------------------------------------------

  lemma ReadObserves(w: World, ticket: Id, allow: bool, browser: Option<Id>, c: Choice)
    ensures Observes(PostRead(ticket, allow, browser))
    ensures var held := Get(w.tickets, ticket, w.now);
            Observe(w, PostRead(ticket, allow, browser), c) ==
            if held.None? then Done(Page)
            else if held.value.user.None? then PostLogin(ticket, held.value) else PostTake(ticket, allow, browser)
  {
    hide Get;
  }

  lemma ConsentDecides(held: Pending, allow: bool, browser: Option<Id>)
    requires held.user.Some?
    ensures AfterConsent(Some(held), allow, browser) ==
      if browser.Some? && browser != held.user then Done(Page)
      else if allow then Complete(held.user.value, held.req, None) else Done(Refused)
  {
  }

  lemma ConsentTakes(
    w: World, r: Id, ticket: Id, held: Pending, allow: bool, browser: Option<Id>, c1: Choice, c2: Choice)
    requires r in w.requests && w.requests[r] == PostRead(ticket, allow, browser)
    requires Get(w.tickets, ticket, w.now) == Some(held) && held.user.Some?
    ensures Stands(w, Step(Step(w, Go(r, c1)), Go(r, c2)), r, AfterConsent(Some(held), allow, browser),
                   DeskOf(w).(tickets := w.tickets - {ticket}))
  {
    hide Stands, Step, DeskOf, Get, AfterConsent;
    Begins(w, r);
    DeskIs(w);
    ReadObserves(w, ticket, allow, browser, c1);
    ObserveStands(w, w, r, PostRead(ticket, allow, browser), DeskOf(w), c1);
    TakeStands(w, Step(w, Go(r, c1)), r, ticket, allow, browser, DeskOf(w), c2);
  }

  lemma DoneStandsTwice(w: World, w1: World, r: Id, outcome: Outcome, desk: Desk, c: Choice, d: Choice)
    requires Stands(w, w1, r, Done(outcome), desk)
    ensures Settled(w, Step(Step(w1, Go(r, c)), Go(r, d)), r, outcome, desk.tickets)
    ensures var w' := Step(Step(w1, Go(r, c)), Go(r, d));
            w'.grants == desk.grants && w'.grantOf == desk.grantOf && w'.codes == desk.codes
  {
    hide Stands, Step, Settled;
    DoneStands(w, w1, r, outcome, desk, c);
    DoneStands(w, Step(w1, Go(r, c)), r, outcome, desk, d);
    StandsSettled(w, Step(Step(w1, Go(r, c)), Go(r, d)), r, outcome, desk);
  }

  lemma RefusedTwice(
    w: World, w1: World, r: Id, user: Id, req: AuthRequest, via: Option<Id>, desk: Desk, c: Choice, d: Choice)
    requires Stands(w, w1, r, Complete(user, req, via), desk) && c.drawn !in desk.minted
    requires user !in w.standing || req.clientId !in w.standing
    ensures Settled(w, Step(Step(w1, Go(r, c)), Go(r, d)), r, Refused, desk.tickets)
    ensures var w' := Step(Step(w1, Go(r, c)), Go(r, d)); w'.grants == desk.grants && w'.codes == desk.codes
  {
    hide Stands, Step, Settled;
    RefusalStands(w, w1, r, user, req, via, desk, c);
    DoneStands(w, Step(w1, Go(r, c)), r, Refused, desk, d);
    StandsSettled(w, Step(Step(w1, Go(r, c)), Go(r, d)), r, Refused, desk);
  }

  /**
   * The consent form on a live ticket: the ticket goes; another account gets the page again, "allow" with user and
   * client there a code under a grant that covers the request, anything else a refusal.
   */
  lemma UndisturbedConsent(
    w: World, r: Id, ticket: Id, held: Pending, allow: bool, browser: Option<Id>, c1: Choice, c2: Choice, c3: Choice,
    c4: Choice)
    requires r in w.requests && w.requests[r] == PostRead(ticket, allow, browser)
    requires Get(w.tickets, ticket, w.now) == Some(held) && held.user.Some?
    requires c3.drawn !in w.minted && c4.drawn !in w.minted + {c3.drawn}
    ensures var w' := FourSteps(w, r, c1, c2, c3, c4);
            var mismatch := browser.Some? && browser != held.user;
            var granted := !mismatch && allow && held.user.value in w.standing && held.req.clientId in w.standing;
            && Settled(w, w', r, if mismatch then Page else if granted then Redirect(c4.drawn) else Refused,
                       w.tickets - {ticket})
            && (!granted ==> w'.grants == w.grants && w'.codes == w.codes)
            && (granted ==> Completed(w.grants, w.grantOf, w.codes, w'.grants, w'.codes, held.user.value, held.req,
                                      c3.drawn, c4.drawn, w.now))
  {
    hide Stands, Step, DeskOf, Get, AfterConsent, Settled, Completed, Granted;
    var w2 := Step(Step(w, Go(r, c1)), Go(r, c2));
    var desk := DeskOf(w).(tickets := w.tickets - {ticket});
    DeskIs(w);
    ConsentTakes(w, r, ticket, held, allow, browser, c1, c2);
    ConsentDecides(held, allow, browser);
    if browser.Some? && browser != held.user {
      DoneStandsTwice(w, w2, r, Page, desk, c3, c4);
    } else if !allow {
      DoneStandsTwice(w, w2, r, Refused, desk, c3, c4);
    } else if held.user.value in w.standing && held.req.clientId in w.standing {
      CompletesAlone(w, w2, r, held.user.value, held.req, None, desk, c3, c4);
    } else {
      RefusedTwice(w, w2, r, held.user.value, held.req, None, desk, c3, c4);
    }
  }

  // ---- the login form ---------------------------------------------------------------------------------------

  lemma LoginObserves(w: World, ticket: Id, pending: Pending, user: Id, c: Choice)
    ensures Observes(PostLogin(ticket, pending)) && Observes(PostResolve(ticket, pending, user))
    ensures Observes(PostPeek(ticket, pending))
    ensures Observe(w, PostLogin(ticket, pending), c) ==
      if c.login.None? then Done(Page) else PostResolve(ticket, Pending(pending.req, c.login), c.login.value)
    ensures Observe(w, PostResolve(ticket, pending, user), c) ==
      if Covering(w, user, pending.req).Some? then PostSkip(ticket, user, Covering(w, user, pending.req).value)
      else PostPeek(ticket, pending)
    ensures Observe(w, PostPeek(ticket, pending), c) ==
      if Get(w.tickets, ticket, w.now).None? then Done(Page) else PostWrite(ticket, pending)
  {
    hide Get, Covering;
  }

  lemma LoginReads(w: World, r: Id, ticket: Id, held: Pending, allow: bool, browser: Option<Id>, c1: Choice, c2: Choice)
    requires r in w.requests && w.requests[r] == PostRead(ticket, allow, browser)
    requires Get(w.tickets, ticket, w.now) == Some(held) && held.user.None?
    ensures Stands(w, Step(Step(w, Go(r, c1)), Go(r, c2)), r,
                   if c2.login.None? then Done(Page)
                   else PostResolve(ticket, Pending(held.req, c2.login), c2.login.value), DeskOf(w))
  {
    hide Stands, Step, DeskOf, Get, Covering;
    Begins(w, r);
    ReadObserves(w, ticket, allow, browser, c1);
    ObserveStands(w, w, r, PostRead(ticket, allow, browser), DeskOf(w), c1);
    LoginObserves(Step(w, Go(r, c1)), ticket, held, 0, c2);
    ObserveStands(w, Step(w, Go(r, c1)), r, PostLogin(ticket, held), DeskOf(w), c2);
  }

  lemma CoveredLoginCompletes(
    w: World, w2: World, r: Id, ticket: Id, held: Pending, user: Id, c3: Choice, c4: Choice, c5: Choice, c6: Choice)
    requires F.GrantsOk(w) && Covering(w, user, held.req).Some? && Get(w.tickets, ticket, w.now) == Some(held)
    requires Stands(w, w2, r, PostResolve(ticket, Pending(held.req, Some(user)), user), DeskOf(w))
    requires c5.drawn !in w.minted && c6.drawn !in w.minted + {c5.drawn}
    ensures var w' := FourSteps(w2, r, c3, c4, c5, c6);
            && Settled(w, w', r, Redirect(c6.drawn), w.tickets - {ticket})
            && Completed(w.grants, w.grantOf, w.codes, w'.grants, w'.codes, user, held.req, c5.drawn, c6.drawn, w.now)
  {
    hide Stands, Step, DeskOf, Get, Covering, Settled, Completed, Granted, F.GrantsOk, CoveredBy;
    var pending := Pending(held.req, Some(user));
    var w3 := Step(w2, Go(r, c3));
    var covering := Covering(w, user, held.req);
    DeskIs(w);
    CoveringIsCoveredBy(w, user, held.req);
    SameCovering(w, w2, r, PostResolve(ticket, pending, user), DeskOf(w), user, held.req);
    LoginObserves(w2, ticket, pending, user, c3);
    ObserveStands(w, w2, r, PostResolve(ticket, pending, user), DeskOf(w), c3);
    SkipStands(w, w3, r, ticket, user, covering.value, held, DeskOf(w), c4);
    CompletesAlone(w, Step(w3, Go(r, c4)), r, user, held.req, covering,
                   DeskOf(w).(tickets := DeskOf(w).tickets - {ticket}), c5, c6);
  }

  lemma UncoveredLoginWrites(
    w: World, w2: World, r: Id, ticket: Id, held: Pending, user: Id, c3: Choice, c4: Choice, c5: Choice, c6: Choice)
    requires Covering(w, user, held.req).None? && Get(w.tickets, ticket, w.now) == Some(held)
    requires Stands(w, w2, r, PostResolve(ticket, Pending(held.req, Some(user)), user), DeskOf(w))
    ensures ticket in w.tickets
    ensures var w' := FourSteps(w2, r, c3, c4, c5, c6);
            && Settled(w, w', r, Page,
                       w.tickets[ticket := Timed(Pending(held.req, Some(user)), w.tickets[ticket].until)])
            && w'.grants == w.grants && w'.codes == w.codes
  {
    assert ticket in w.tickets;
    hide Stands, Step, DeskOf, Get, Covering, Settled;
    var pending := Pending(held.req, Some(user));
    var w3 := Step(w2, Go(r, c3));
    var w4 := Step(w3, Go(r, c4));
    var desk := DeskOf(w).(tickets := w.tickets[ticket := Timed(pending, w.tickets[ticket].until)]);
    DeskIs(w);
    SameCovering(w, w2, r, PostResolve(ticket, pending, user), DeskOf(w), user, held.req);
    LoginObserves(w2, ticket, pending, user, c3);
    ObserveStands(w, w2, r, PostResolve(ticket, pending, user), DeskOf(w), c3);
    StillHeld(w, w3, r, PostPeek(ticket, pending), DeskOf(w));
    LoginObserves(w3, ticket, pending, user, c4);
    ObserveStands(w, w3, r, PostPeek(ticket, pending), DeskOf(w), c4);
    WriteStands(w, w4, r, ticket, pending, DeskOf(w), c5);
    DoneStands(w, Step(w4, Go(r, c5)), r, Page, desk, c6);
    StandsSettled(w, Step(Step(w4, Go(r, c5)), Go(r, c6)), r, Page, desk);
  }

  lemma StillHeld(w: World, w1: World, r: Id, q: Request, desk: Desk)
    requires Stands(w, w1, r, q, desk)
    ensures w1.tickets == desk.tickets && w1.now == w.now
  {
  }

  /**
   * The login form on a live ticket without a session: no login changes nothing, a login under a grant that covers the
   * request gives a code and ends the ticket, any other puts its session on the ticket, whose lifetime stays.
   */
  lemma UndisturbedLogin(
    w: World, r: Id, ticket: Id, held: Pending, allow: bool, browser: Option<Id>, c1: Choice, c2: Choice, c3: Choice,
    c4: Choice, c5: Choice, c6: Choice)
    requires F.GrantsOk(w) && r in w.requests && w.requests[r] == PostRead(ticket, allow, browser)
    requires Get(w.tickets, ticket, w.now) == Some(held) && held.user.None?
    requires c5.drawn !in w.minted && c6.drawn !in w.minted + {c5.drawn}
    ensures ticket in w.tickets
    ensures var w' := FourSteps(Step(Step(w, Go(r, c1)), Go(r, c2)), r, c3, c4, c5, c6);
            && (c2.login.None? ==> Settled(w, w', r, Page, w.tickets) && w'.grants == w.grants && w'.codes == w.codes)
            && (c2.login.Some? && CoveredBy(w.grants, w.grantOf, c2.login.value, held.req) ==>
                  && Settled(w, w', r, Redirect(c6.drawn), w.tickets - {ticket})
                  && Completed(w.grants, w.grantOf, w.codes, w'.grants, w'.codes, c2.login.value, held.req, c5.drawn,
                               c6.drawn, w.now))
            && (c2.login.Some? && !CoveredBy(w.grants, w.grantOf, c2.login.value, held.req) ==>
                  && Settled(w, w', r, Page,
                             w.tickets[ticket := Timed(Pending(held.req, c2.login), w.tickets[ticket].until)])
                  && w'.grants == w.grants && w'.codes == w.codes)
  {
    assert ticket in w.tickets;
    hide Stands, Step, DeskOf, Get, Covering, Settled, Completed, CoveredBy, F.GrantsOk;
    var w2 := Step(Step(w, Go(r, c1)), Go(r, c2));
    DeskIs(w);
    LoginReads(w, r, ticket, held, allow, browser, c1, c2);
    if c2.login.None? {
      DoneStands(w, w2, r, Page, DeskOf(w), c3);
      DoneStands(w, Step(w2, Go(r, c3)), r, Page, DeskOf(w), c4);
      DoneStandsTwice(w, Step(Step(w2, Go(r, c3)), Go(r, c4)), r, Page, DeskOf(w), c5, c6);
    } else {
      var user := c2.login.value;
      CoveringIsCoveredBy(w, user, held.req);
      hide FourSteps;
      if Covering(w, user, held.req).Some? {
        CoveredLoginCompletes(w, w2, r, ticket, held, user, c3, c4, c5, c6);
      } else {
        UncoveredLoginWrites(w, w2, r, ticket, held, user, c3, c4, c5, c6);
      }
    }
  }
}
