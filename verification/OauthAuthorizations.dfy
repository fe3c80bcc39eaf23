/** What holds of consent, codes and scopes in every run of the server. */
module OauthAuthorizations {
  import opened Wrappers
  import opened Config
  import opened Text
  import opened Scopes
  import opened OauthWorld
  import R = OauthRotation
  import F = OauthConsent
  import C = OauthCodes

  // ---- runs -----------------------------------------------------------------------------------------------

  lemma {:induction false} RunSound(w: World, events: seq<Event>)
    requires C.Sound(w)
    ensures C.Sound(Run(w, events)) && F.Grown(w, Run(w, events)) && C.Accrues(w, Run(w, events))
    decreases |events|
  {
    if events == [] {
      F.GrownIsReflexive(w);
      C.AccruesIsReflexive(w);
    } else {
      var before := Run(w, events[..|events| - 1]);
      RunSound(w, events[..|events| - 1]);
      C.StepSound(before, events[|events| - 1]);
      Chained(w, before, Run(w, events));
    }
  }

  lemma Chained(a: World, b: World, c: World)
    requires C.Sound(a) && F.Grown(a, b) && F.Grown(b, c) && C.Accrues(a, b) && C.Accrues(b, c)
    ensures F.Grown(a, c) && C.Accrues(a, c)
  {
    hide F.FlowInv, R.Inv, C.CodeInv, F.Grown, C.Accrues;
    F.FlowInvParts(a);
    GrantsChain(a, b, c);
    GrownChain(a, b, c);
    AccruesChain(a, b, c);
  }

  lemma AccruesChain(a: World, b: World, c: World)
    requires C.Accrues(a, b) && C.Accrues(b, c)
    ensures C.Accrues(a, c)
  {
  }

  lemma GrownChain(a: World, b: World, c: World)
    requires F.Grown(a, b) && F.Grown(b, c)
    requires forall g :: g in c.grants && g in a.minted ==> g in a.grants && F.GrantGrew(a.grants[g], c.grants[g])
    requires forall g :: g in a.grants && a.grants[g].user in c.standing && a.grants[g].clientId in c.standing ==>
               g in c.grants
    ensures F.Grown(a, c)
  {
    hide F.GrantGrew;
  }

  lemma GrantsChain(a: World, b: World, c: World)
    requires F.GrantsOk(a) && a.standing <= a.minted && F.Grown(a, b) && F.Grown(b, c)
    ensures forall g :: g in c.grants && g in a.minted ==> g in a.grants && F.GrantGrew(a.grants[g], c.grants[g])
    ensures forall g :: g in a.grants && a.grants[g].user in c.standing && a.grants[g].clientId in c.standing ==>
              g in c.grants
  {
    forall g | g in c.grants && g in a.minted ensures g in a.grants && F.GrantGrew(a.grants[g], c.grants[g]) {
      assert F.GrantGrew(b.grants[g], c.grants[g]);
    }
    forall g | g in a.grants && a.grants[g].user in c.standing && a.grants[g].clientId in c.standing
      ensures g in c.grants
    {
      assert F.GrantOk(a, g, a.grants[g]);
      assert g in b.grants && F.GrantGrew(a.grants[g], b.grants[g]);
    }
  }

  lemma AlwaysSound(audience: string, events: seq<Event>)
    ensures C.Sound(Run(Start(audience), events))
  {
    assert C.Sound(Start(audience));
    RunSound(Start(audience), events);
  }

  lemma Between(audience: string, events: seq<Event>, i: nat, j: nat)
    requires i <= j <= |events|
    ensures C.Sound(At(audience, events, i)) && C.Sound(At(audience, events, j))
    ensures F.Grown(At(audience, events, i), At(audience, events, j))
    ensures C.Accrues(At(audience, events, i), At(audience, events, j))
  {
    AlwaysSound(audience, events[..i]);
    assert events[..j] == events[..i] + events[i..j];
    RunSplits(Start(audience), events[..i], events[i..j]);
    RunSound(At(audience, events, i), events[i..j]);
  }

  // ---- where consent comes from ---------------------------------------------------------------------------

  /**
   * A consent-stage POST with decision "allow" consumes a live ticket that carries this user's session and names
   * this client and scope, from a browser signed in as nobody else.
   */
  predicate Approves(w: World, e: Event, c: Consent) {
    && e.Go? && e.request in w.requests && w.requests[e.request].PostTake?
    && var q := w.requests[e.request];
    var held := Get(w.tickets, q.ticket, w.now);
    && q.allow && held.Some?
    && held.value.user == Some(c.user) && (q.browser.None? || q.browser == Some(c.user))
    && held.value.req.clientId == c.clientId && c.scope in held.value.req.scopes
  }

  lemma SubmitApproves(w: World, e: Event, c: Consent)
    requires e.Go? && e.request in w.requests && w.requests[e.request].PostTake?
    requires var q := w.requests[e.request];
             c in SubmitConsent(w, e.request, q.ticket, q.allow, q.browser).past.consents
    requires c !in w.past.consents
    ensures Approves(w, e, c)
  {
    var q := w.requests[e.request];
    var next := AfterConsent(Get(w.tickets, q.ticket, w.now), q.allow, q.browser);
    if next.Complete? {
      F.ApproveAdds(w.past.consents, next.user, next.req, q.ticket);
    }
  }

  lemma NewConsentIsApproval(w: World, e: Event, c: Consent)
    requires F.FlowInv(w) && c in Step(w, e).past.consents && c !in w.past.consents
    ensures Approves(w, e, c)
  {
    hide F.FlowInv, F.Grown, Advance, Approves;
    if !e.Go? {
      OutsideOnlyForgets(w, e);
    } else if e.request in w.requests {
      F.AdvanceFlows(w, e.request, e.choice);
      AdvanceByKind(w, e.request, e.choice);
      if w.requests[e.request].PostTake? {
        SubmitApproves(w, e, c);
      }
    }
  }

  /** Every recorded consent goes back to an "allow" of that user for that client, at some point of the run. */
  lemma {:induction false} ConsentComesFromAllow(audience: string, events: seq<Event>, c: Consent)
    requires c in Run(Start(audience), events).past.consents
    ensures exists i: nat :: i < |events| && Approves(At(audience, events, i), events[i], c)
    decreases |events|
  {
    assert events != [];
    var n := |events| - 1;
    var shorter := events[..n];
    if c in Run(Start(audience), shorter).past.consents {
      ConsentComesFromAllow(audience, shorter, c);
      var i: nat :| i < n && Approves(At(audience, shorter, i), shorter[i], c);
      assert shorter[..i] == events[..i];
      assert Approves(At(audience, events, i), events[i], c);
    } else {
      AlwaysSound(audience, shorter);
      NewConsentIsApproval(Run(Start(audience), shorter), events[n], c);
      assert Approves(At(audience, events, n), events[n], c);
    }
  }

  ghost predicate WasAllowed(audience: string, events: seq<Event>, c: Consent) {
    exists i: nat :: i < |events| && Approves(At(audience, events, i), events[i], c)
  }

  /** Each scope in a user's grant for a client was allowed by that user for that client. */
  lemma GrantedMeansAllowed(audience: string, events: seq<Event>, g: Id, scope: string)
    requires var w := Run(Start(audience), events); g in w.grants && scope in w.grants[g].scopes
    ensures var grant := Run(Start(audience), events).grants[g];
            WasAllowed(audience, events, Consent(grant.user, grant.clientId, scope))
  {
    AlwaysSound(audience, events);
    var w := Run(Start(audience), events);
    assert F.GrantOk(w, g, w.grants[g]);
    ConsentComesFromAllow(audience, events, Consent(w.grants[g].user, w.grants[g].clientId, scope));
  }

  /** So was each scope of every access token ever signed, for the user and client it names. */
  lemma SignedMeansAllowed(audience: string, events: seq<Event>, jti: Id, scope: string)
    requires var w := Run(Start(audience), events); jti in w.past.signed && scope in w.past.signed[jti].scopes
    ensures var token := Run(Start(audience), events).past.signed[jti];
            WasAllowed(audience, events, Consent(token.user, token.clientId, scope))
  {
    AlwaysSound(audience, events);
    var w := Run(Start(audience), events);
    assert F.TokenOk(w, w.past.signed[jti]);
    ConsentComesFromAllow(audience, events, Consent(w.past.signed[jti].user, w.past.signed[jti].clientId, scope));
  }

  /**
   * An access token's scopes lie in what its client registered and the catalog holds and, as long as its grant
   * stands, in that grant, which is still the same user's for the same client.
   */
  lemma ScopesAreContained(audience: string, events: seq<Event>, jti: Id)
    requires jti in Run(Start(audience), events).past.signed
    ensures var w := Run(Start(audience), events);
            var token := w.past.signed[jti];
            && token.clientId in w.clients
            && token.scopes <= Ceiling(w.clients[token.clientId].scope) <= CATALOG
            && (token.grantId in w.grants ==>
                  && token.scopes <= w.grants[token.grantId].scopes
                  && w.grants[token.grantId].scopes <= Ceiling(w.clients[token.clientId].scope)
                  && w.grants[token.grantId].user == token.user && w.grants[token.grantId].clientId == token.clientId)
  {
    AlwaysSound(audience, events);
    var w := Run(Start(audience), events);
    var token := w.past.signed[jti];
    assert F.TokenOk(w, token);
    if token.grantId in w.grants {
      assert F.GrantOk(w, token.grantId, w.grants[token.grantId]);
    }
  }

  /** Every standing grant lies under what its client registered and the catalog holds. */
  lemma GrantsLieUnderTheCeiling(audience: string, events: seq<Event>, g: Id)
    requires g in Run(Start(audience), events).grants
    ensures var w := Run(Start(audience), events);
            var grant := w.grants[g];
            grant.clientId in w.clients && grant.scopes <= Ceiling(w.clients[grant.clientId].scope) <= CATALOG
  {
    AlwaysSound(audience, events);
    var w := Run(Start(audience), events);
    assert F.GrantOk(w, g, w.grants[g]);
  }

  /** In every run a pending request, or a code, is for a redirect its client registered and for this resource. */
  lemma RedirectsAreRegistered(audience: string, events: seq<Event>)
    ensures var w := Run(Start(audience), events);
            && (forall t :: t in w.tickets ==>
                  && var req := w.tickets[t].value.req;
                  && req.clientId in w.clients && req.redirectUri in w.clients[req.clientId].redirectUris
                  && req.resource == audience)
            && (forall c :: c in w.past.codes ==>
                  && var record := w.past.codes[c];
                  && record.clientId in w.clients && record.redirectUri in w.clients[record.clientId].redirectUris
                  && record.resource == audience)
  {
    hide *;
    var w := Run(Start(audience), events);
    AlwaysSound(audience, events);
    AudienceStays(audience, events);
    SoundFlows(w);
    F.FlowInvParts(w);
    TicketsAreRegistered(w);
    CodesAreRegistered(w);
  }

  lemma SoundFlows(w: World)
    requires C.Sound(w)
    ensures F.FlowInv(w)
  {
  }

  lemma {:induction false} AudienceStays(audience: string, events: seq<Event>)
    ensures Run(Start(audience), events).audience == audience
    decreases |events|
  {
    if events != [] {
      var before := Run(Start(audience), events[..|events| - 1]);
      AudienceStays(audience, events[..|events| - 1]);
      AlwaysSound(audience, events[..|events| - 1]);
      assert Run(Start(audience), events) == Step(before, events[|events| - 1]);
      hide Run, Step, F.FlowInv, R.Inv, C.CodeInv;
      F.StepFlows(before, events[|events| - 1]);
    }
  }

  lemma TicketsAreRegistered(w: World)
    requires F.TicketsOk(w) && F.DraftsOk(w)
    ensures forall t :: t in w.tickets ==>
              && var req := w.tickets[t].value.req;
              && req.clientId in w.clients && req.redirectUri in w.clients[req.clientId].redirectUris
              && req.resource == w.audience
  {
    forall t | t in w.tickets ensures F.Permitted(w, w.tickets[t].value.req) {
      assert F.TicketOk(w, t, w.tickets[t].value);
    }
  }

  lemma CodesAreRegistered(w: World)
    requires F.CodesOk(w)
    ensures forall c :: c in w.past.codes ==>
              && var record := w.past.codes[c];
              && record.clientId in w.clients && record.redirectUri in w.clients[record.clientId].redirectUris
              && record.resource == w.audience
  {
    hide F.Held;
    forall c | c in w.past.codes
      ensures var record := w.past.codes[c];
              && record.clientId in w.clients && record.redirectUri in w.clients[record.clientId].redirectUris
              && record.resource == w.audience
    {
      assert F.RecordOk(w, w.past.codes[c]);
    }
  }

  /**
   * A GET is taken up exactly for a client that is there, one of its own redirects letter for letter, response type
   * "code" with S256, this resource if any is named, and scopes within registration and catalog; then as it was sent.
   */
  lemma ValidatedExactly(w: World, input: AuthorizeInput)
    ensures Validate(w, input).Some? <==>
      && input.clientId in w.clients && input.clientId in w.standing
      && var client := w.clients[input.clientId];
      && input.redirectUri in client.redirectUris
      && input.responseType == "code" && input.challengeMethod == "S256"
      && (input.resource.Some? ==> input.resource.value == w.audience)
      && client.scope.Some?
      && var asked := Words(if input.scope.Some? then input.scope.value else client.scope.value);
      && asked != [] && Elements(asked) <= Elements(Words(client.scope.value)) && Elements(asked) <= CATALOG
    ensures Validate(w, input).Some? ==>
      && input.clientId in w.clients && w.clients[input.clientId].scope.Some?
      && Validate(w, input).value == AuthRequest(
           input.clientId, input.redirectUri,
           Elements(Words(if input.scope.Some? then input.scope.value else w.clients[input.clientId].scope.value)),
           input.challenge, w.audience)
  {
    if input.clientId in w.clients {
      var registered := w.clients[input.clientId].scope;
      RegisteredResolvesExactly(registered);
      if input.scope.Some? { RequestedResolvesExactly(input.scope.value, registered); }
      hide ResolveRequestedScopes, Words;
    }
  }

  // ---- what a grant is made of ----------------------------------------------------------------------------

  /** The upsert of an authorization of this user and client that names this scope. */
  predicate Writes(w: World, e: Event, user: Id, clientId: Id, scope: string) {
    && e.Go? && e.request in w.requests && w.requests[e.request].Complete? && e.choice.drawn !in w.minted
    && var q := w.requests[e.request];
    && q.user == user && q.req.clientId == clientId && scope in q.req.scopes
    && user in w.standing && clientId in w.standing
  }

  lemma WrittenIsWritten(w: World, r: Id, user: Id, req: AuthRequest, drawn: Id, g: Id, scope: string)
    requires F.GrantsOk(w) && drawn !in w.minted
    requires var w' := WriteGrant(w, r, user, req, drawn);
             && g in w'.grants && scope in w'.grants[g].scopes
             && !(g in w.grants && scope in w.grants[g].scopes)
    ensures var w' := WriteGrant(w, r, user, req, drawn);
            scope in req.scopes && w'.grants[g].user == user && w'.grants[g].clientId == req.clientId
  {
    hide F.GrantsOk;
  }

  lemma NewScopeWasWritten(w: World, e: Event, g: Id, scope: string)
    requires F.FlowInv(w) && g in Step(w, e).grants && scope in Step(w, e).grants[g].scopes
    requires !(g in w.grants && scope in w.grants[g].scopes)
    ensures var grant := Step(w, e).grants[g]; Writes(w, e, grant.user, grant.clientId, scope)
  {
    hide F.FlowInv, F.Grown, Advance, WriteGrant;
    if !e.Go? {
      OutsideOnlyForgets(w, e);
    } else if e.request in w.requests {
      AdvanceOutside(w, e.request, e.choice);
      var q := w.requests[e.request];
      assert q.Complete?;
      AdvanceByKind(w, e.request, e.choice);
      F.FlowInvParts(w);
      WrittenIsWritten(w, e.request, q.user, q.req, e.choice.drawn, g, scope);
    }
  }

  lemma {:induction false} ScopeWasWritten(audience: string, events: seq<Event>, g: Id, scope: string)
    requires var w := Run(Start(audience), events); g in w.grants && scope in w.grants[g].scopes
    ensures var grant := Run(Start(audience), events).grants[g];
            WasWritten(audience, events, grant.user, grant.clientId, scope)
    decreases |events|
  {
    assert events != [];
    var n := |events| - 1;
    var shorter := events[..n];
    var w := Run(Start(audience), shorter);
    var grant := Run(Start(audience), events).grants[g];
    assert Run(Start(audience), events) == Step(w, events[n]);
    assert At(audience, events, n) == w;
    AlwaysSound(audience, shorter);
    hide Step, Run, R.Inv, F.FlowInv, C.CodeInv, Writes;
    if g in w.grants && scope in w.grants[g].scopes {
      ScopeWasWritten(audience, shorter, g, scope);
      GrantKeepsItsPair(w, events[n], g);
      WrittenEarlier(audience, events, n, grant.user, grant.clientId, scope);
    } else {
      NewScopeWasWritten(w, events[n], g, scope);
      assert Writes(At(audience, events, n), events[n], grant.user, grant.clientId, scope);
    }
  }

  lemma GrantKeepsItsPair(w: World, e: Event, g: Id)
    requires F.FlowInv(w) && g in w.grants && g in Step(w, e).grants
    ensures Step(w, e).grants[g].user == w.grants[g].user && Step(w, e).grants[g].clientId == w.grants[g].clientId
  {
    assert F.GrantOk(w, g, w.grants[g]);
    hide F.FlowInv, Step;
    F.StepFlows(w, e);
    assert F.GrantGrew(w.grants[g], Step(w, e).grants[g]);
  }

  ghost predicate WasWritten(audience: string, events: seq<Event>, user: Id, clientId: Id, scope: string) {
    exists i: nat :: i < |events| && Writes(At(audience, events, i), events[i], user, clientId, scope)
  }

  lemma WrittenEarlier(audience: string, events: seq<Event>, n: nat, user: Id, clientId: Id, scope: string)
    requires n <= |events| && WasWritten(audience, events[..n], user, clientId, scope)
    ensures WasWritten(audience, events, user, clientId, scope)
  {
    hide Writes, Run;
    var i: nat :| i < n && Writes(At(audience, events[..n], i), events[..n][i], user, clientId, scope);
    assert events[..n][..i] == events[..i];
  }

  lemma WritingCovers(w: World, e: Event, user: Id, clientId: Id, scope: string) returns (g: Id)
    requires F.FlowInv(w) && Writes(w, e, user, clientId, scope)
    ensures F.Covers(Step(w, e), g, user, clientId, {scope})
  {
    assert e.Go?;
    hide *;
    g := GrantIdFor(w, user, clientId, e.choice.drawn);
    var req := WritesIs(w, e, user, clientId, scope);
    F.FlowInvParts(w);
    WriteCovers(w, e.request, user, req, e.choice.drawn, scope);
  }

  lemma WritesIs(w: World, e: Event, user: Id, clientId: Id, scope: string) returns (req: AuthRequest)
    requires Writes(w, e, user, clientId, scope)
    ensures e.Go? && Step(w, e) == WriteGrant(w, e.request, user, req, e.choice.drawn)
    ensures e.choice.drawn !in w.minted && scope in req.scopes && req.clientId == clientId
    ensures user in w.standing && clientId in w.standing
  {
    req := w.requests[e.request].req;
    hide Advance, WriteGrant;
    AdvanceByKind(w, e.request, e.choice);
  }

  lemma WriteCovers(w: World, r: Id, user: Id, req: AuthRequest, drawn: Id, scope: string)
    requires F.GrantsOk(w) && w.standing <= w.minted && drawn !in w.minted && scope in req.scopes
    requires user in w.standing && req.clientId in w.standing
    ensures F.Covers(WriteGrant(w, r, user, req, drawn), GrantIdFor(w, user, req.clientId, drawn), user, req.clientId,
                     {scope})
  {
    F.GrantIdIsKnown(w, user, req, drawn);
    hide F.GrantsOk;
  }

  lemma CoversStays(w: World, w': World, g: Id, user: Id, clientId: Id, scopes: set<string>)
    requires F.Grown(w, w') && F.Covers(w, g, user, clientId, scopes)
    ensures F.Covers(w', g, user, clientId, scopes)
  {
  }

  lemma OneGrantPerPair(w: World, g: Id, h: Id)
    requires F.GrantsOk(w) && g in w.grants && h in w.grants
    requires w.grants[g].user == w.grants[h].user && w.grants[g].clientId == w.grants[h].clientId
    ensures g == h
  {
    assert F.GrantOk(w, g, w.grants[g]) && F.GrantOk(w, h, w.grants[h]);
  }

  lemma CoveredIsInTheGrant(w: World, g: Id, h: Id, scope: string)
    requires F.GrantsOk(w) && g in w.grants && F.Covers(w, h, w.grants[g].user, w.grants[g].clientId, {scope})
    ensures scope in w.grants[g].scopes
  {
    assert F.GrantOk(w, g, w.grants[g]);
    OneGrantPerPair(w, g, h);
    assert scope in {scope};
  }

  lemma WrittenIsInTheGrant(audience: string, events: seq<Event>, i: nat, g: Id, scope: string)
    requires i < |events| && g in At(audience, events, |events|).grants
    requires var grant := At(audience, events, |events|).grants[g];
             Writes(At(audience, events, i), events[i], grant.user, grant.clientId, scope)
    ensures scope in At(audience, events, |events|).grants[g].scopes
  {
    var grant := At(audience, events, |events|).grants[g];
    Between(audience, events, i, i + 1);
    Between(audience, events, i + 1, |events|);
    AtNext(audience, events, i);
    F.FlowInvParts(At(audience, events, |events|));
    hide At, Step, Writes, R.Inv, F.FlowInv, C.CodeInv, F.Grown, F.Covers, F.GrantsOk, C.Accrues;
    var h := WritingCovers(At(audience, events, i), events[i], grant.user, grant.clientId, scope);
    CoversStays(
      At(audience, events, i + 1), At(audience, events, |events|), h, grant.user, grant.clientId, {scope});
    CoveredIsInTheGrant(At(audience, events, |events|), g, h, scope);
  }

  /** A grant's scopes are exactly those that completed authorizations of its user and client named, in any order. */
  lemma GrantIsTheUnion(audience: string, events: seq<Event>, g: Id, scope: string)
    requires g in Run(Start(audience), events).grants
    ensures var grant := Run(Start(audience), events).grants[g];
            scope in grant.scopes <==> WasWritten(audience, events, grant.user, grant.clientId, scope)
  {
    assert events[..|events|] == events;
    var grant := Run(Start(audience), events).grants[g];
    hide Run, Writes;
    if scope in grant.scopes {
      ScopeWasWritten(audience, events, g, scope);
    }
    if WasWritten(audience, events, grant.user, grant.clientId, scope) {
      var i: nat :| i < |events| && Writes(At(audience, events, i), events[i], grant.user, grant.clientId, scope);
      WrittenIsInTheGrant(audience, events, i, g, scope);
    }
  }

  // ---- completing without a screen ------------------------------------------------------------------------

  lemma CoveredGrantIsUnchanged(w: World, r: Id, user: Id, req: AuthRequest, g: Id, drawn: Id)
    requires F.GrantsOk(w) && g in w.grants && F.Covers(w, g, user, req.clientId, req.scopes)
    ensures WriteGrant(w, r, user, req, drawn).grants == w.grants
    ensures WriteGrant(w, r, user, req, drawn).grantOf == w.grantOf
  {
    assert F.GrantOk(w, g, w.grants[g]);
    assert GrantIdFor(w, user, req.clientId, drawn) == g;
    assert w.grants[g].scopes + req.scopes == w.grants[g].scopes;
  }

  lemma UncoveredGrantChanges(w: World, r: Id, user: Id, req: AuthRequest, drawn: Id)
    requires F.GrantsOk(w) && drawn !in w.minted && Covering(w, user, req).None?
    ensures WriteGrant(w, r, user, req, drawn).grants != w.grants
  {
    var k := (user, req.clientId);
    if k in w.grantOf {
      var g := w.grantOf[k];
      assert F.GrantOk(w, g, w.grants[g]);
    } else {
      assert drawn !in w.grants by {
        assert forall g :: g in w.grants ==> F.GrantOk(w, g, w.grants[g]);
      }
      assert drawn in WriteGrant(w, r, user, req, drawn).grants;
    }
  }

  /** The upsert changes the grants exactly when none of them covers the request and user and client are there. */
  lemma CompletingEnlargesExactly(w: World, r: Id, user: Id, req: AuthRequest, drawn: Id)
    requires F.GrantsOk(w) && drawn !in w.minted
    ensures UpsertGrant(w, r, user, req, drawn).grants == w.grants <==>
      Covering(w, user, req).Some? || user !in w.standing || req.clientId !in w.standing
  {
    hide WriteGrant;
    if Covering(w, user, req).Some? {
      var g := Covering(w, user, req).value;
      F.CoveringWasConsented(w, user, req);
      CoveredGrantIsUnchanged(w, r, user, req, g, drawn);
    } else {
      UncoveredGrantChanges(w, r, user, req, drawn);
    }
  }

  lemma SkippingStepEnlargesNothing(w: World, r: Id, user: Id, req: AuthRequest, g: Id, drawn: Id)
    requires F.GrantsOk(w) && F.Covers(w, g, user, req.clientId, req.scopes)
    ensures UpsertGrant(w, r, user, req, drawn).grants == w.grants
    ensures UpsertGrant(w, r, user, req, drawn).grantOf == w.grantOf
  {
    if user in w.standing && req.clientId in w.standing {
      hide WriteGrant;
      CoveredGrantIsUnchanged(w, r, user, req, g, drawn);
    }
  }

  lemma SkippingRequestIsCovered(w: World, r: Id)
    requires F.FlowsOk(w) && r in w.requests && w.requests[r].Complete? && w.requests[r].via.Some?
    ensures var q := w.requests[r]; F.Covers(w, q.via.value, q.user, q.req.clientId, q.req.scopes)
  {
    assert F.FlowOk(w, w.requests[r]);
  }

  /** Completing without a consent screen never changes a grant. */
  lemma SkippingConsentNeverEnlarges(audience: string, events: seq<Event>, r: Id, c: Choice)
    requires var w := Run(Start(audience), events);
             r in w.requests && w.requests[r].Complete? && w.requests[r].via.Some?
    ensures var w := Run(Start(audience), events);
            Advance(w, r, c).grants == w.grants && Advance(w, r, c).grantOf == w.grantOf
  {
    AlwaysSound(audience, events);
    var w := Run(Start(audience), events);
    var q := w.requests[r];
    hide R.Inv, F.FlowInv, C.CodeInv, Advance, UpsertGrant, Run;
    F.FlowInvParts(w);
    SkippingRequestIsCovered(w, r);
    AdvanceByKind(w, r, c);
    SkippingStepEnlargesNothing(w, r, q.user, q.req, q.via.value, c.drawn);
  }

  // ---- tickets --------------------------------------------------------------------------------------------

  /** Whatever is stored under a ticket, at whatever time, is one request; a session, once there, stays. */
  lemma TicketKeepsItsRequest(audience: string, events: seq<Event>, i: nat, j: nat, t: Id)
    requires i <= j <= |events|
    requires t in At(audience, events, i).tickets && t in At(audience, events, j).tickets
    ensures var before := At(audience, events, i).tickets[t].value;
            var after := At(audience, events, j).tickets[t].value;
            && after.req == before.req
            && (before.user.Some? ==> after.user.Some?)
  {
    Between(audience, events, i, j);
    var a := At(audience, events, i);
    var b := At(audience, events, j);
    assert F.TicketOk(a, t, a.tickets[t].value);
    assert F.TicketOk(b, t, b.tickets[t].value);
  }

  /** The consent stage never finds a ticket without a session. */
  lemma NullSessionNeverArises(audience: string, events: seq<Event>, r: Id)
    requires r in Run(Start(audience), events).requests
    ensures Run(Start(audience), events).requests[r] != Done(NullSession)
  {
    AlwaysSound(audience, events);
    var w := Run(Start(audience), events);
    assert F.FlowOk(w, w.requests[r]);
  }

  // ---- codes ----------------------------------------------------------------------------------------------

  /** The event by which a request opens a connection with this code. */
  predicate Opens(w: World, e: Event, code: Id) {
    && e.Go? && e.request in w.requests
    && var q := w.requests[e.request];
    && q.ExInsert? && q.code == code && q.record.grantId in w.grants
    && e.choice.drawn !in w.minted && e.choice.secret !in w.minted && e.choice.drawn != e.choice.secret
  }

  lemma OpeningRecords(w: World, e: Event, code: Id)
    requires Opens(w, e, code)
    ensures var w' := Step(w, e); e.choice.drawn in w'.past.openedBy && w'.past.openedBy[e.choice.drawn] == code
  {
    var q := w.requests[e.request];
    assert Step(w, e) == InsertRow(w, e.request, q.code, q.record,
        FirstRow(q.record, RefreshToken(e.choice.drawn, e.choice.secret), q.jti, q.exp, q.at));
  }

  /** No two events of a run open a connection with the same code. */
  lemma CodeOpensAtMostOnce(audience: string, events: seq<Event>, i: nat, j: nat, code: Id)
    requires i < j < |events| && Opens(At(audience, events, i), events[i], code)
    ensures !Opens(At(audience, events, j), events[j], code)
  {
    AtNext(audience, events, i);
    OpeningRecords(At(audience, events, i), events[i], code);
    Between(audience, events, i + 1, j);
    var w := At(audience, events, j);
    assert w.past.openedBy[events[i].choice.drawn] == code;
    if events[j].Go? && events[j].request in w.requests && w.requests[events[j].request].ExInsert? {
      assert C.IssueOk(w, events[j].request, w.requests[events[j].request]);
      C.CodeUnused(w, events[j].request);
    }
  }

  /** A stored code, presented by request r, whatever else r presents. */
  predicate Presents(w: World, e: Event, code: Id) {
    && e.Go? && e.request in w.requests && w.requests[e.request].ExTake?
    && w.requests[e.request].exchange.code == code && Get(w.codes, code, w.now).Some?
  }

  lemma PresentingRecords(w: World, e: Event, code: Id)
    requires Presents(w, e, code)
    ensures var w' := Step(w, e);
            && code in w'.past.redeemer && w'.past.redeemer[code] == e.request
            && e.request in w'.requests
            && w'.requests[e.request] == AfterCode(Get(w.codes, code, w.now), w.requests[e.request].exchange)
  {
    assert Step(w, e) == TakeCode(w, e.request, w.requests[e.request].exchange);
  }

  /** A code once presented is gone: nobody finds it again, not even after a presentation with a wrong binding. */
  lemma PresentedCodeIsGone(audience: string, events: seq<Event>, i: nat, j: nat, code: Id)
    requires i < j <= |events| && Presents(At(audience, events, i), events[i], code)
    ensures code !in At(audience, events, j).codes
    ensures j < |events| ==> !Presents(At(audience, events, j), events[j], code)
  {
    AtNext(audience, events, i);
    PresentingRecords(At(audience, events, i), events[i], code);
    Between(audience, events, i + 1, j);
  }

  /** Presented with a wrong client, URI, resource or verifier, a code never opens a connection at all. */
  lemma WrongBindingKillsTheCode(audience: string, events: seq<Event>, i: nat, j: nat, code: Id)
    requires i < j < |events| && Presents(At(audience, events, i), events[i], code)
    requires var w := At(audience, events, i);
             var record := Get(w.codes, code, w.now).value;
             var p := w.requests[events[i].request].exchange;
             record.clientId != p.clientId || record.redirectUri != p.redirectUri
             || (p.resource.Some? && p.resource.value != record.resource) || record.challenge != S256(p.verifier)
    ensures !Opens(At(audience, events, j), events[j], code)
  {
    AtNext(audience, events, i);
    PresentingRecords(At(audience, events, i), events[i], code);
    Between(audience, events, i + 1, j);
    RefusedNeverOpens(At(audience, events, j), events[j], code, events[i].request);
  }

  lemma RefusedNeverOpens(w: World, e: Event, code: Id, r: Id)
    requires C.IssuesOk(w) && code in w.past.redeemer && w.past.redeemer[code] == r
    requires r in w.requests && w.requests[r].Done?
    ensures !Opens(w, e, code)
  {
    if e.Go? && e.request in w.requests && w.requests[e.request].ExInsert? {
      assert C.IssueOk(w, e.request, w.requests[e.request]);
    }
  }

  /**
   * A connection goes back to one code, which no other connection shares; its first access token carries what the
   * code recorded, every later one the same user, client and grant.
   */
  lemma ConnectionCarriesItsCode(audience: string, events: seq<Event>, id: Id)
    requires id in Run(Start(audience), events).past.chain
    ensures var w := Run(Start(audience), events);
            && C.Opened(w, id) && w.past.chain[id] != []
            && (forall other :: other in w.past.openedBy && other != id ==> w.past.openedBy[other] != w.past.openedBy[id])
            && var record := C.Record(w, id);
            && w.past.chain[id][0].jti in w.past.signed && C.IsFor(w.past.signed[w.past.chain[id][0].jti], record)
            && (forall i :: 0 <= i < |w.past.chain[id]| ==> C.Names(w, id, w.past.chain[id][i].jti))
            && (id in w.sessions ==> w.sessions[id].grantId == record.grantId)
  {
    AlwaysSound(audience, events);
    var w := Run(Start(audience), events);
    assert C.LinksOk(w, id);
  }
}
