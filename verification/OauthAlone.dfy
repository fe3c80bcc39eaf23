/**
 * A refresh that no other request disturbs, run step by step on the machine, ends exactly as the service promises:
 * the safety results about interleavings are not met by refusing everything.
 */
module OauthAlone {
  import opened Wrappers
  import opened Text
  import opened Scopes
  import opened Config
  import opened OauthWorld
  import opened OauthStore

  /** The stores a refresh reads and writes, the values it may not mint, and where request r stands. */
  predicate Stands(
    w: World, w': World, r: Id, q: Request, now: nat, minted: set<Id>, sessions: map<Id, GrantSession>,
    denied: map<Id, nat>)
  {
    && w'.grants == w.grants && w'.audience == w.audience && w'.now == now && w'.minted == minted
    && w'.sessions == sessions && w'.denied == denied
    && r in w'.requests && w'.requests[r] == q
  }

  lemma TickStands(w: World, r: Id, ms: nat)
    requires r in w.requests
    ensures Stands(w, Step(w, Tick(ms)), r, w.requests[r], w.now + ms, w.minted, w.sessions, w.denied)
  {
  }

  lemma ObserveStands(w: World, r: Id, c: Choice)
    requires r in w.requests && Observes(w.requests[r])
    ensures Stands(w, Step(w, Go(r, c)), r, Observe(w, w.requests[r], c), w.now, w.minted, w.sessions, w.denied)
  {
    AdvanceObserves(w, r, c);
    hide Advance, Observe, Observes;
  }

  lemma SignStands(w: World, r: Id, c: Choice)
    requires r in w.requests && w.requests[r].RfSign? && c.drawn !in w.minted
    ensures var q := w.requests[r];
            Stands(w, Step(w, Go(r, c)), r, RfStamp(q.refresh, q.row, q.scopes, c.drawn, ExpIfSigned(w.now)), w.now,
                   w.minted + {c.drawn}, w.sessions, w.denied)
  {
    AdvanceByKind(w, r, c);
    hide Advance;
  }

  lemma RotateWorks(w: World, r: Id, q: Request, secret: Id)
    requires q.RfRotate? && Rotatable(w.sessions, q.refresh.token.session, q.refresh.token, q.at)
    ensures var id := q.refresh.token.session;
            var next := RefreshToken(id, secret);
            Stands(w, RotateStep(w, r, q, secret), r,
                   RfDenyStamp(q.row.jti, q.row.jtiExp, Tokens(q.jti, next, q.scopes)), w.now, w.minted + {secret},
                   w.sessions[id := Rotated(w.sessions[id], next, q.jti, q.exp, q.at + Ms(OAUTH_REFRESH_TTL_SEC))],
                   w.denied)
  {
  }

  lemma RotateFails(w: World, r: Id, q: Request, secret: Id)
    requires q.RfRotate? && !Rotatable(w.sessions, q.refresh.token.session, q.refresh.token, q.at)
    ensures Stands(w, RotateStep(w, r, q, secret), r, Done(Refused), w.now, w.minted, w.sessions, w.denied)
  {
  }

  lemma RotateIsStep(w: World, r: Id, c: Choice)
    requires r in w.requests && w.requests[r].RfRotate? && c.secret !in w.minted
    ensures Step(w, Go(r, c)) == RotateStep(w, r, w.requests[r], c.secret)
  {
    AdvanceByKind(w, r, c);
    hide Advance, RotateStep;
  }

  lemma DenyStands(w: World, r: Id, c: Choice)
    requires r in w.requests && w.requests[r].RfDenySet?
    ensures var q := w.requests[r];
            Stands(w, Step(w, Go(r, c)), r, Done(q.outcome), w.now, w.minted, w.sessions,
                   w.denied[q.retiring := w.now + Ms(q.ttlSec)])
  {
    AdvanceByKind(w, r, c);
    hide Advance;
  }

  // ---- the phases of a refresh ----------------------------------------------------------------------------

  predicate Admitted(w: World, p: RefreshParams) {
    && Identified(w.sessions, w.grants, w.audience, p)
    && var granted := w.grants[w.sessions[p.token.session].grantId].scopes;
    Wanted(p, granted) <= granted
  }

  function AfterChecks(w: World, p: RefreshParams): Request {
    if Admitted(w, p) then
      var row := w.sessions[p.token.session];
      RfSign(p, row, w.grants[row.grantId], Wanted(p, w.grants[row.grantId].scopes))
    else Done(Refused)
  }

  lemma FindDecides(w: World, p: RefreshParams, c: Choice)
    ensures Observe(w, RfFind(p), c) ==
      if Matches(w, p) then RfGrant(p, w.sessions[p.token.session]) else Done(Refused)
  {
  }

  lemma GrantDecides(w: World, p: RefreshParams, c: Choice)
    requires Matches(w, p)
    ensures Observe(w, RfGrant(p, w.sessions[p.token.session]), c) == AfterChecks(w, p)
  {
    var row := w.sessions[p.token.session];
    if row.grantId in w.grants {
      NarrowNeverWidens(p.scope, w.grants[row.grantId].scopes);
    }
  }

  lemma DoneStays(w: World, r: Id, c: Choice, outcome: Outcome)
    requires r in w.requests && w.requests[r] == Done(outcome)
    ensures Stands(w, Step(w, Go(r, c)), r, Done(outcome), w.now, w.minted, w.sessions, w.denied)
  {
    ObserveStands(w, r, c);
    hide Step;
  }

  lemma CheckSame(w: World, w': World, r: Id, q: Request, p: RefreshParams, c: Choice)
    requires Stands(w, w', r, q, w.now, w.minted, w.sessions, w.denied)
    ensures AfterChecks(w', p) == AfterChecks(w, p) && (Matches(w', p) <==> Matches(w, p))
    ensures Admitted(w, p) ==> Matches(w, p)
  {
  }

  lemma Checks(w: World, r: Id, p: RefreshParams, c: Choice)
    requires r in w.requests && w.requests[r] == RfFind(p)
    ensures var w' := Step(Step(w, Go(r, c)), Go(r, c));
            Stands(w, w', r, AfterChecks(w, p), w.now, w.minted, w.sessions, w.denied)
  {
    var w1 := Step(w, Go(r, c));
    ObserveStands(w, r, c);
    FindDecides(w, p, c);
    if Matches(w, p) {
      CheckSame(w, w1, r, RfGrant(p, w.sessions[p.token.session]), p, c);
      ObserveStands(w1, r, c);
      GrantDecides(w1, p, c);
      hide Step, Observe, AfterChecks, Matches;
    } else {
      CheckSame(w, w1, r, Done(Refused), p, c);
      DoneStays(w1, r, c, Refused);
      hide Step, Observe, Matches;
    }
  }

  lemma Signs(w: World, r: Id, c: Choice, d: nat)
    requires r in w.requests && w.requests[r].RfSign? && c.drawn !in w.minted
    ensures var q := w.requests[r];
            var w' := Step(Step(Step(w, Go(r, c)), Tick(d)), Go(r, c));
            Stands(w, w', r, RfRotate(q.refresh, q.row, q.scopes, c.drawn, ExpIfSigned(w.now), w.now + d), w.now + d,
                   w.minted + {c.drawn}, w.sessions, w.denied)
  {
    var w1 := Step(w, Go(r, c));
    var w2 := Step(w1, Tick(d));
    SignStands(w, r, c);
    TickStands(w1, r, d);
    ObserveStands(w2, r, c);
    hide Step;
  }

  function DeniedBy(denied: map<Id, nat>, jti: Id, exp: nat, at: nat): map<Id, nat> {
    if DenyTtl(exp, at) <= 0 then denied else denied[jti := at + Ms(DenyTtl(exp, at))]
  }

  lemma Denies(w: World, r: Id, c: Choice, d: nat)
    requires r in w.requests && w.requests[r].RfDenyStamp?
    ensures var q := w.requests[r];
            var w' := Step(Step(Step(w, Tick(d)), Go(r, c)), Go(r, c));
            Stands(w, w', r, Done(q.outcome), w.now + d, w.minted, w.sessions,
                   DeniedBy(w.denied, q.retiring, q.retiringExp, w.now + d))
  {
    var q := w.requests[r];
    var w1 := Step(w, Tick(d));
    var w2 := Step(w1, Go(r, c));
    TickStands(w, r, d);
    ObserveStands(w1, r, c);
    if DenyTtl(q.retiringExp, w.now + d) <= 0 {
      DoneStays(w2, r, c, q.outcome);
      hide Step, DenyTtl;
    } else {
      DenyStands(w2, r, c);
      hide Step, DenyTtl;
    }
  }

  // ---- the whole refresh ----------------------------------------------------------------------------------

  function Claimed(w: World, r: Id, c: Choice, d1: nat): World {
    Step(Step(Step(Step(Step(w, Go(r, c)), Go(r, c)), Go(r, c)), Tick(d1)), Go(r, c))
  }

  /** Two reads, a signature, d1 later the UPDATE, d2 later the denial; nothing else moves but the clock. */
  function Alone(w: World, r: Id, c: Choice, d1: nat, d2: nat): World {
    Step(Step(Step(Step(Claimed(w, r, c, d1), Go(r, c)), Tick(d2)), Go(r, c)), Go(r, c))
  }

  lemma RefusedStands(w: World, w': World, r: Id, c: Choice, d1: nat)
    requires Stands(w, w', r, Done(Refused), w.now, w.minted, w.sessions, w.denied)
    ensures var after := Step(Step(Step(w', Go(r, c)), Tick(d1)), Go(r, c));
            Stands(w, after, r, Done(Refused), w.now + d1, w.minted, w.sessions, w.denied)
  {
    var a := Step(w', Go(r, c));
    var b := Step(a, Tick(d1));
    DoneStays(w', r, c, Refused);
    TickStands(a, r, d1);
    DoneStays(b, r, c, Refused);
    hide Step;
  }

  lemma Claims(w: World, r: Id, p: RefreshParams, c: Choice, d1: nat)
    requires r in w.requests && w.requests[r] == RfFind(p) && c.drawn !in w.minted
    ensures var w' := Claimed(w, r, c, d1);
            if Admitted(w, p) then
              var row := w.sessions[p.token.session];
              Stands(w, w', r, RfRotate(p, row, Wanted(p, w.grants[row.grantId].scopes), c.drawn, ExpIfSigned(w.now),
                                        w.now + d1),
                     w.now + d1, w.minted + {c.drawn}, w.sessions, w.denied)
            else Stands(w, w', r, Done(Refused), w.now + d1, w.minted, w.sessions, w.denied)
  {
    var w2 := Step(Step(w, Go(r, c)), Go(r, c));
    Checks(w, r, p, c);
    if Admitted(w, p) {
      Signs(w2, r, c, d1);
      hide Step, Admitted;
    } else {
      RefusedStands(w, w2, r, c, d1);
      hide Step, Admitted, Stands;
    }
  }

  lemma RefusedToTheEnd(w: World, w': World, r: Id, c: Choice, d1: nat, d2: nat, minted: set<Id>)
    requires Stands(w, w', r, Done(Refused), w.now + d1, minted, w.sessions, w.denied)
    ensures var after := Step(Step(Step(w', Tick(d2)), Go(r, c)), Go(r, c));
            Stands(w, after, r, Done(Refused), w.now + d1 + d2, minted, w.sessions, w.denied)
  {
    var a := Step(w', Tick(d2));
    var b := Step(a, Go(r, c));
    TickStands(w', r, d2);
    DoneStays(a, r, c, Refused);
    DoneStays(b, r, c, Refused);
    hide Step;
  }

  lemma AllowedMeans(w: World, p: RefreshParams, at: nat)
    ensures RefreshAllowed(w.sessions, w.grants, w.audience, p, at) <==>
      Admitted(w, p) && Rotatable(w.sessions, p.token.session, p.token, at)
  {
  }

  lemma TicksAway(w: World, w': World, r: Id, c: Choice, d1: nat, minted: set<Id>)
    requires Stands(w, w', r, Done(Refused), w.now + d1, minted, w.sessions, w.denied)
    ensures Stands(w, Step(w', Go(r, c)), r, Done(Refused), w.now + d1, minted, w.sessions, w.denied)
  {
    DoneStays(w', r, c, Refused);
    hide Step;
  }

  lemma UpdateLoses(
    w: World, w': World, r: Id, c: Choice, d1: nat, p: RefreshParams, row: GrantSession, scopes: set<string>, jti: Id,
    exp: nat, at: nat, minted: set<Id>)
    requires Stands(w, w', r, RfRotate(p, row, scopes, jti, exp, at), w.now + d1, minted, w.sessions, w.denied)
    requires c.secret !in minted && !Rotatable(w.sessions, p.token.session, p.token, at)
    ensures Stands(w, Step(w', Go(r, c)), r, Done(Refused), w.now + d1, minted, w.sessions, w.denied)
  {
    hide Step, RotateStep, Rotatable;
    RotateIsStep(w', r, c);
    RotateFails(w', r, RfRotate(p, row, scopes, jti, exp, at), c.secret);
  }

  lemma DenialFinishes(
    w: World, w1: World, r: Id, c: Choice, retiring: Id, exp: nat, pair: Outcome, now: nat, minted: set<Id>,
    sessions: map<Id, GrantSession>, d2: nat)
    requires Stands(w, w1, r, RfDenyStamp(retiring, exp, pair), now, minted, sessions, w.denied)
    ensures Stands(w, Step(Step(Step(w1, Tick(d2)), Go(r, c)), Go(r, c)), r, Done(pair), now + d2, minted, sessions,
                   DeniedBy(w.denied, retiring, exp, now + d2))
  {
    hide Step, DeniedBy;
    Denies(w1, r, c, d2);
  }

  function ClaimedSessions(
    sessions: map<Id, GrantSession>, next: RefreshToken, jti: Id, exp: nat, at: nat): map<Id, GrantSession>
    requires next.session in sessions
  {
    sessions[next.session := Rotated(sessions[next.session], next, jti, exp, at + Ms(OAUTH_REFRESH_TTL_SEC))]
  }

  lemma UpdateTakes(
    w: World, w': World, r: Id, c: Choice, d1: nat, p: RefreshParams, row: GrantSession, scopes: set<string>, jti: Id,
    exp: nat, at: nat, minted: set<Id>)
    requires Stands(w, w', r, RfRotate(p, row, scopes, jti, exp, at), w.now + d1, minted, w.sessions, w.denied)
    requires c.secret !in minted && Rotatable(w.sessions, p.token.session, p.token, at)
    ensures var next := RefreshToken(p.token.session, c.secret);
            && next.session in w.sessions
            && Stands(w, Step(w', Go(r, c)), r, RfDenyStamp(row.jti, row.jtiExp, Tokens(jti, next, scopes)), w.now + d1,
                      minted + {c.secret}, ClaimedSessions(w.sessions, next, jti, exp, at), w.denied)
  {
    hide Step, RotateStep, Rotated;
    RotateIsStep(w', r, c);
    RotateWorks(w', r, RfRotate(p, row, scopes, jti, exp, at), c.secret);
  }

  lemma UpdateWins(
    w: World, w': World, r: Id, c: Choice, d1: nat, d2: nat, p: RefreshParams, row: GrantSession, scopes: set<string>,
    jti: Id, exp: nat, at: nat, minted: set<Id>)
    requires Stands(w, w', r, RfRotate(p, row, scopes, jti, exp, at), w.now + d1, minted, w.sessions, w.denied)
    requires c.secret !in minted && Rotatable(w.sessions, p.token.session, p.token, at)
    ensures var next := RefreshToken(p.token.session, c.secret);
            var after := Step(Step(Step(Step(w', Go(r, c)), Tick(d2)), Go(r, c)), Go(r, c));
            && next.session in w.sessions
            && Stands(w, after, r, Done(Tokens(jti, next, scopes)), w.now + d1 + d2, minted + {c.secret},
                      ClaimedSessions(w.sessions, next, jti, exp, at),
                      DeniedBy(w.denied, row.jti, row.jtiExp, w.now + d1 + d2))
  {
    hide *;
    UpdateTakes(w, w', r, c, d1, p, row, scopes, jti, exp, at, minted);
    var next := RefreshToken(p.token.session, c.secret);
    DenialFinishes(w, Step(w', Go(r, c)), r, c, row.jti, row.jtiExp, Tokens(jti, next, scopes), w.now + d1,
                   minted + {c.secret}, ClaimedSessions(w.sessions, next, jti, exp, at), d2);
  }

  /** What the refresh answers and leaves behind: the pair replaced and the old token denied, exactly if allowed. */
  predicate Refreshed(w: World, w': World, r: Id, p: RefreshParams, jti: Id, secret: Id, d1: nat, d2: nat) {
    var at := w.now + d1;
    && r in w'.requests && w'.now == at + d2 && w'.grants == w.grants
    && if RefreshAllowed(w.sessions, w.grants, w.audience, p, at) then
         var row := w.sessions[p.token.session];
         var next := RefreshToken(p.token.session, secret);
         && w'.requests[r] == Done(Tokens(jti, next, Wanted(p, w.grants[row.grantId].scopes)))
         && w'.sessions == w.sessions[p.token.session :=
              Rotated(row, next, jti, ExpIfSigned(w.now), at + Ms(OAUTH_REFRESH_TTL_SEC))]
         && w'.denied == DeniedBy(w.denied, row.jti, row.jtiExp, at + d2)
       else
         w'.requests[r] == Done(Refused) && w'.sessions == w.sessions && w'.denied == w.denied
  }

  lemma WinningTells(
    w: World, w': World, r: Id, p: RefreshParams, jti: Id, secret: Id, d1: nat, d2: nat, minted: set<Id>,
    row: GrantSession, scopes: set<string>)
    requires RefreshAllowed(w.sessions, w.grants, w.audience, p, w.now + d1)
    requires row == w.sessions[p.token.session] && scopes == Wanted(p, w.grants[row.grantId].scopes)
    requires var next := RefreshToken(p.token.session, secret);
             var at := w.now + d1;
             Stands(w, w', r, Done(Tokens(jti, next, scopes)), at + d2, minted,
                    ClaimedSessions(w.sessions, next, jti, ExpIfSigned(w.now), at),
                    DeniedBy(w.denied, row.jti, row.jtiExp, at + d2))
    ensures Refreshed(w, w', r, p, jti, secret, d1, d2)
  {
    hide Wanted, Rotated, DeniedBy;
  }

  lemma LosingTells(
    w: World, w': World, r: Id, p: RefreshParams, jti: Id, secret: Id, d1: nat, d2: nat, minted: set<Id>)
    requires !RefreshAllowed(w.sessions, w.grants, w.audience, p, w.now + d1)
    requires Stands(w, w', r, Done(Refused), w.now + d1 + d2, minted, w.sessions, w.denied)
    ensures Refreshed(w, w', r, p, jti, secret, d1, d2)
  {
    hide RefreshAllowed;
  }

  lemma AllowedIsRefreshed(
    w: World, r: Id, p: RefreshParams, c: Choice, d1: nat, d2: nat, row: GrantSession, scopes: set<string>)
    requires r in w.requests && w.requests[r] == RfFind(p)
    requires c.drawn !in w.minted && c.secret !in w.minted && c.drawn != c.secret
    requires RefreshAllowed(w.sessions, w.grants, w.audience, p, w.now + d1)
    requires row == w.sessions[p.token.session] && scopes == Wanted(p, w.grants[row.grantId].scopes)
    ensures Refreshed(w, Alone(w, r, c, d1, d2), r, p, c.drawn, c.secret, d1, d2)
  {
    hide *;
    AllowedMeans(w, p, w.now + d1);
    Claims(w, r, p, c, d1);
    UpdateWins(w, Claimed(w, r, c, d1), r, c, d1, d2, p, row, scopes, c.drawn, ExpIfSigned(w.now), w.now + d1,
               w.minted + {c.drawn});
    AloneIs(w, r, c, d1, d2);
    WinningTells(w, Alone(w, r, c, d1, d2), r, p, c.drawn, c.secret, d1, d2, w.minted + {c.drawn} + {c.secret}, row,
                 scopes);
  }

  lemma AloneIs(w: World, r: Id, c: Choice, d1: nat, d2: nat)
    ensures Alone(w, r, c, d1, d2) ==
            Step(Step(Step(Step(Claimed(w, r, c, d1), Go(r, c)), Tick(d2)), Go(r, c)), Go(r, c))
  {
    hide Step, Claimed;
  }

  lemma NotAdmittedIsRefused(w: World, r: Id, p: RefreshParams, c: Choice, d1: nat, d2: nat)
    requires r in w.requests && w.requests[r] == RfFind(p) && c.drawn !in w.minted && !Admitted(w, p)
    ensures Stands(w, Alone(w, r, c, d1, d2), r, Done(Refused), w.now + d1 + d2, w.minted, w.sessions, w.denied)
  {
    var w5 := Claimed(w, r, c, d1);
    hide *;
    Claims(w, r, p, c, d1);
    TicksAway(w, w5, r, c, d1, w.minted);
    RefusedToTheEnd(w, Step(w5, Go(r, c)), r, c, d1, d2, w.minted);
    AloneIs(w, r, c, d1, d2);
  }

  lemma BeatenIsRefused(w: World, r: Id, p: RefreshParams, c: Choice, d1: nat, d2: nat)
    requires r in w.requests && w.requests[r] == RfFind(p)
    requires c.drawn !in w.minted && c.secret !in w.minted && c.drawn != c.secret
    requires Admitted(w, p) && !Rotatable(w.sessions, p.token.session, p.token, w.now + d1)
    ensures Stands(w, Alone(w, r, c, d1, d2), r, Done(Refused), w.now + d1 + d2, w.minted + {c.drawn}, w.sessions,
                   w.denied)
  {
    var w5 := Claimed(w, r, c, d1);
    var row := w.sessions[p.token.session];
    var scopes := Wanted(p, w.grants[row.grantId].scopes);
    hide *;
    Claims(w, r, p, c, d1);
    UpdateLoses(w, w5, r, c, d1, p, row, scopes, c.drawn, ExpIfSigned(w.now), w.now + d1, w.minted + {c.drawn});
    RefusedToTheEnd(w, Step(w5, Go(r, c)), r, c, d1, d2, w.minted + {c.drawn});
    AloneIs(w, r, c, d1, d2);
  }

  lemma UnallowedIsRefused(w: World, r: Id, p: RefreshParams, c: Choice, d1: nat, d2: nat)
    requires r in w.requests && w.requests[r] == RfFind(p)
    requires c.drawn !in w.minted && c.secret !in w.minted && c.drawn != c.secret
    requires !RefreshAllowed(w.sessions, w.grants, w.audience, p, w.now + d1)
    ensures Refreshed(w, Alone(w, r, c, d1, d2), r, p, c.drawn, c.secret, d1, d2)
  {
    hide *;
    AllowedMeans(w, p, w.now + d1);
    if Admitted(w, p) {
      BeatenIsRefused(w, r, p, c, d1, d2);
      LosingTells(w, Alone(w, r, c, d1, d2), r, p, c.drawn, c.secret, d1, d2, w.minted + {c.drawn});
    } else {
      NotAdmittedIsRefused(w, r, p, c, d1, d2);
      LosingTells(w, Alone(w, r, c, d1, d2), r, p, c.drawn, c.secret, d1, d2, w.minted);
    }
  }

  /** Tokens exactly for the current token, the right client and resource, scopes within the grant, before both expiries. */
  lemma RefreshedMeans(w: World, w': World, r: Id, p: RefreshParams, jti: Id, secret: Id, d1: nat, d2: nat)
    requires Refreshed(w, w', r, p, jti, secret, d1, d2)
    ensures r in w'.requests && w'.requests[r].Done?
    ensures w'.requests[r].outcome.Tokens? <==>
      && (p.resource.Some? ==> p.resource.value == w.audience)
      && p.token.session in w.sessions
      && var row := w.sessions[p.token.session];
      && row.current == p.token
      && row.grantId in w.grants && w.grants[row.grantId].clientId == p.clientId
      && (p.scope.Some? ==> Elements(Words(p.scope.value)) <= w.grants[row.grantId].scopes)
      && w.now + d1 < row.expiresAt && w.now + d1 < row.absoluteExpiresAt
    ensures w'.requests[r].outcome.Tokens? ==>
      && var row := w.sessions[p.token.session];
      var sliding := w.now + d1 + Ms(OAUTH_REFRESH_TTL_SEC);
      && w'.requests[r].outcome.jti == jti && w'.requests[r].outcome.refresh == RefreshToken(p.token.session, secret)
      && w'.requests[r].outcome.scopes == (if p.scope.Some? then Elements(Words(p.scope.value))
                                           else w.grants[row.grantId].scopes)
      && p.token.session in w'.sessions
      && var next := w'.sessions[p.token.session];
      && next.current == RefreshToken(p.token.session, secret) && next.previous == Some(p.token) && next.jti == jti
      && next.absoluteExpiresAt == row.absoluteExpiresAt
      && next.expiresAt == (if sliding < row.absoluteExpiresAt then sliding else row.absoluteExpiresAt)
    ensures !w'.requests[r].outcome.Tokens? ==> w'.requests[r].outcome == Refused && w'.sessions == w.sessions
  {
    hide DeniedBy, Words;
  }

  /** What the service promises for an uninterrupted call, `OauthStore.Store.RefreshGrantTokens`, the machine does. */
  lemma UndisturbedRefreshSucceedsExactly(w: World, r: Id, p: RefreshParams, c: Choice, d1: nat, d2: nat)
    requires r in w.requests && w.requests[r] == RfFind(p)
    requires c.drawn !in w.minted && c.secret !in w.minted && c.drawn != c.secret
    ensures Refreshed(w, Alone(w, r, c, d1, d2), r, p, c.drawn, c.secret, d1, d2)
  {
    hide Refreshed, Alone, Wanted;
    if RefreshAllowed(w.sessions, w.grants, w.audience, p, w.now + d1) {
      var row := w.sessions[p.token.session];
      AllowedIsRefreshed(w, r, p, c, d1, d2, row, Wanted(p, w.grants[row.grantId].scopes));
    } else {
      UnallowedIsRefused(w, r, p, c, d1, d2);
    }
  }

  // ---- an exchange ----------------------------------------------------------------------------------------

  /** The same for an exchange: it reads grants, takes from codes and writes sessions. */
  predicate Keeps(
    w: World, w': World, r: Id, q: Request, now: nat, minted: set<Id>, codes: map<Id, Timed<CodeRecord>>,
    sessions: map<Id, GrantSession>)
  {
    && w'.grants == w.grants && w'.now == now && w'.minted == minted && w'.codes == codes && w'.sessions == sessions
    && w'.requests.Keys == w.requests.Keys + {r} && w'.requests[r] == q
  }

  lemma TakeMoves(w: World, r: Id, c: Choice)
    requires r in w.requests && w.requests[r].ExTake?
    ensures var p := w.requests[r].exchange;
            Keeps(w, Step(w, Go(r, c)), r, AfterCode(Get(w.codes, p.code, w.now), p), w.now, w.minted,
               w.codes - {p.code}, w.sessions)
  {
    AdvanceByKind(w, r, c);
    hide Advance, AfterCode;
  }

  lemma FirstSignMoves(w: World, r: Id, c: Choice)
    requires r in w.requests && w.requests[r].ExSign? && c.drawn !in w.minted
    ensures var q := w.requests[r];
            Keeps(w, Step(w, Go(r, c)), r, ExStamp(q.code, q.record, c.drawn, ExpIfSigned(w.now)), w.now,
               w.minted + {c.drawn}, w.codes, w.sessions)
  {
    AdvanceByKind(w, r, c);
    hide Advance;
  }

  lemma TickMoves(w: World, r: Id, ms: nat)
    requires r in w.requests
    ensures Keeps(w, Step(w, Tick(ms)), r, w.requests[r], w.now + ms, w.minted, w.codes, w.sessions)
  {
  }

  lemma ObserveMoves(w: World, r: Id, c: Choice)
    requires r in w.requests && Observes(w.requests[r])
    ensures Keeps(w, Step(w, Go(r, c)), r, Observe(w, w.requests[r], c), w.now, w.minted, w.codes, w.sessions)
  {
    AdvanceObserves(w, r, c);
    hide Advance, Observe, Observes;
  }

  lemma DoneMoves(w: World, r: Id, c: Choice, outcome: Outcome)
    requires r in w.requests && w.requests[r] == Done(outcome)
    ensures Keeps(w, Step(w, Go(r, c)), r, Done(outcome), w.now, w.minted, w.codes, w.sessions)
  {
    ObserveMoves(w, r, c);
    hide Step;
  }

  lemma RowMoves(w: World, r: Id, code: Id, record: CodeRecord, row: GrantSession)
    ensures var token := row.current;
            Keeps(w, InsertRow(w, r, code, record, row), r, Done(Tokens(row.jti, token, record.scopes)), w.now,
                  w.minted + {token.session, token.secret}, w.codes, w.sessions[token.session := row])
  {
  }

  lemma RefusalMoves(w: World, r: Id)
    ensures Keeps(w, Move(w, r, Done(Refused)), r, Done(Refused), w.now, w.minted, w.codes, w.sessions)
  {
  }

  lemma InsertMoves(w: World, r: Id, q: Request, c: Choice)
    requires q.ExInsert?
    ensures var token := RefreshToken(c.drawn, c.secret);
            var w' := OpenSession(w, r, q.code, q.record, q.jti, q.exp, q.at, c);
            if q.record.grantId in w.grants then
              Keeps(w, w', r, Done(Tokens(q.jti, token, q.record.scopes)), w.now, w.minted + {c.drawn, c.secret},
                    w.codes, w.sessions[c.drawn := FirstRow(q.record, token, q.jti, q.exp, q.at)])
            else Keeps(w, w', r, Done(Refused), w.now, w.minted, w.codes, w.sessions)
  {
    hide Keeps, InsertRow, Move;
    if q.record.grantId in w.grants {
      RowMoves(w, r, q.code, q.record, FirstRow(q.record, RefreshToken(c.drawn, c.secret), q.jti, q.exp, q.at));
    } else {
      RefusalMoves(w, r);
    }
  }

  lemma InsertIsStep(w: World, r: Id, c: Choice)
    requires r in w.requests && w.requests[r].ExInsert?
    requires c.drawn !in w.minted && c.secret !in w.minted && c.drawn != c.secret
    ensures var q := w.requests[r];
            Step(w, Go(r, c)) == OpenSession(w, r, q.code, q.record, q.jti, q.exp, q.at, c)
  {
    AdvanceByKind(w, r, c);
    hide Advance, OpenSession;
  }

  /** GETDEL, a signature, d later the INSERT; nothing else moves but the clock. */
  function ExchangedAlone(w: World, r: Id, c: Choice, e: Choice, d: nat): World {
    Step(Step(Step(Step(Step(w, Go(r, c)), Go(r, c)), Tick(d)), Go(r, c)), Go(r, e))
  }

  lemma RefusedExchange(w: World, w1: World, r: Id, c: Choice, e: Choice, d: nat, codes: map<Id, Timed<CodeRecord>>)
    requires Keeps(w, w1, r, Done(Refused), w.now, w.minted, codes, w.sessions)
    ensures Keeps(w, Step(Step(Step(Step(w1, Go(r, c)), Tick(d)), Go(r, c)), Go(r, e)), r, Done(Refused), w.now + d,
               w.minted, codes, w.sessions)
  {
    hide Step;
    var w2 := Step(w1, Go(r, c));
    var w3 := Step(w2, Tick(d));
    var w4 := Step(w3, Go(r, c));
    DoneMoves(w1, r, c, Refused);
    TickMoves(w2, r, d);
    DoneMoves(w3, r, c, Refused);
    DoneMoves(w4, r, e, Refused);
  }

  lemma ReachesStamp(w: World, w1: World, r: Id, c: Choice, d: nat, code: Id, record: CodeRecord,
                     codes: map<Id, Timed<CodeRecord>>)
    requires Keeps(w, w1, r, ExSign(code, record), w.now, w.minted, codes, w.sessions) && c.drawn !in w.minted
    ensures Keeps(w, Step(Step(w1, Go(r, c)), Tick(d)), r, ExStamp(code, record, c.drawn, ExpIfSigned(w.now)), w.now + d,
               w.minted + {c.drawn}, codes, w.sessions)
  {
    hide *;
    var w2 := Step(w1, Go(r, c));
    var stamp := ExStamp(code, record, c.drawn, ExpIfSigned(w.now));
    var minted := w.minted + {c.drawn};
    KeepsTells(w, w1, r, ExSign(code, record), w.now, w.minted, codes, w.sessions);
    FirstSignMoves(w1, r, c);
    KeepsOn(w, w1, w2, r, ExSign(code, record), w.now, w.minted, codes, w.sessions,
            stamp, w.now, minted, codes, w.sessions);
    KeepsTells(w, w2, r, stamp, w.now, minted, codes, w.sessions);
    TickMoves(w2, r, d);
    KeepsOn(w, w2, Step(w2, Tick(d)), r, stamp, w.now, minted, codes, w.sessions,
            stamp, w.now + d, minted, codes, w.sessions);
  }

  lemma ReachesInsert(w: World, w1: World, r: Id, c: Choice, d: nat, code: Id, record: CodeRecord,
                      codes: map<Id, Timed<CodeRecord>>)
    requires Keeps(w, w1, r, ExSign(code, record), w.now, w.minted, codes, w.sessions) && c.drawn !in w.minted
    ensures Keeps(w, Step(Step(Step(w1, Go(r, c)), Tick(d)), Go(r, c)), r,
               ExInsert(code, record, c.drawn, ExpIfSigned(w.now), w.now + d), w.now + d, w.minted + {c.drawn}, codes,
               w.sessions)
  {
    hide *;
    var w3 := Step(Step(w1, Go(r, c)), Tick(d));
    var exp := ExpIfSigned(w.now);
    var minted := w.minted + {c.drawn};
    ReachesStamp(w, w1, r, c, d, code, record, codes);
    KeepsTells(w, w3, r, ExStamp(code, record, c.drawn, exp), w.now + d, minted, codes, w.sessions);
    StampObserves(w3, code, record, c.drawn, exp, c);
    ObserveMoves(w3, r, c);
    KeepsOn(w, w3, Step(w3, Go(r, c)), r, ExStamp(code, record, c.drawn, exp), w.now + d, minted, codes, w.sessions,
            ExInsert(code, record, c.drawn, exp, w.now + d), w.now + d, minted, codes, w.sessions);
  }

  lemma StampObserves(w: World, code: Id, record: CodeRecord, jti: Id, exp: nat, c: Choice)
    ensures Observes(ExStamp(code, record, jti, exp))
    ensures Observe(w, ExStamp(code, record, jti, exp), c) == ExInsert(code, record, jti, exp, w.now)
  {
  }

  lemma KeepsTells(
    w: World, w': World, r: Id, q: Request, now: nat, minted: set<Id>, codes: map<Id, Timed<CodeRecord>>,
    sessions: map<Id, GrantSession>)
    requires Keeps(w, w', r, q, now, minted, codes, sessions)
    ensures r in w'.requests && w'.requests[r] == q && w'.now == now && w'.minted == minted && w'.codes == codes
    ensures w'.sessions == sessions
  {
  }

  lemma KeepsOn(
    w: World, w1: World, w2: World, r: Id, q1: Request, now1: nat, minted1: set<Id>,
    codes1: map<Id, Timed<CodeRecord>>, sessions1: map<Id, GrantSession>, q2: Request, now2: nat, minted2: set<Id>,
    codes2: map<Id, Timed<CodeRecord>>, sessions2: map<Id, GrantSession>)
    requires Keeps(w, w1, r, q1, now1, minted1, codes1, sessions1)
    requires Keeps(w1, w2, r, q2, now2, minted2, codes2, sessions2)
    ensures Keeps(w, w2, r, q2, now2, minted2, codes2, sessions2)
  {
  }

  lemma Inserts(
    w: World, w4: World, r: Id, e: Choice, q: Request, now: nat, minted: set<Id>, codes: map<Id, Timed<CodeRecord>>)
    requires q.ExInsert? && Keeps(w, w4, r, q, now, minted, codes, w.sessions)
    requires e.drawn !in minted && e.secret !in minted && e.drawn != e.secret
    ensures var token := RefreshToken(e.drawn, e.secret);
            if q.record.grantId in w.grants then
              Keeps(w, Step(w4, Go(r, e)), r, Done(Tokens(q.jti, token, q.record.scopes)), now,
                    minted + {e.drawn, e.secret}, codes,
                    w.sessions[e.drawn := FirstRow(q.record, token, q.jti, q.exp, q.at)])
            else Keeps(w, Step(w4, Go(r, e)), r, Done(Refused), now, minted, codes, w.sessions)
  {
    hide Step, OpenSession, FirstRow;
    InsertIsStep(w4, r, e);
    InsertMoves(w4, r, q, e);
  }

  /** What the exchange answers and leaves behind: the code gone, and a session exactly if it was allowed. */
  predicate Exchanged(w: World, w': World, r: Id, p: ExchangeParams, jti: Id, token: RefreshToken, d: nat) {
    && w'.requests.Keys == w.requests.Keys + {r}
    && w'.codes == w.codes - {p.code} && w'.now == w.now + d && w'.grants == w.grants
    && w'.minted <= w.minted + {jti, token.session, token.secret}
    && if ExchangeAllowed(w.codes, w.grants, p, w.now) then
         var record := Get(w.codes, p.code, w.now).value;
         && w'.requests[r] == Done(Tokens(jti, token, record.scopes))
         && w'.sessions == w.sessions[token.session := FirstRow(record, token, jti, ExpIfSigned(w.now), w.now + d)]
       else w'.requests[r] == Done(Refused) && w'.sessions == w.sessions
  }

  lemma ExchangeOpens(
    w: World, w': World, r: Id, p: ExchangeParams, jti: Id, token: RefreshToken, d: nat, record: CodeRecord,
    minted: set<Id>)
    requires ExchangeAllowed(w.codes, w.grants, p, w.now) && record == Get(w.codes, p.code, w.now).value
    requires minted <= w.minted + {jti, token.session, token.secret}
    requires Keeps(w, w', r, Done(Tokens(jti, token, record.scopes)), w.now + d, minted, w.codes - {p.code},
                   w.sessions[token.session := FirstRow(record, token, jti, ExpIfSigned(w.now), w.now + d)])
    ensures Exchanged(w, w', r, p, jti, token, d)
  {
    hide FirstRow, Redeemable;
  }

  lemma ExchangeRefuses(
    w: World, w': World, r: Id, p: ExchangeParams, jti: Id, token: RefreshToken, d: nat, minted: set<Id>)
    requires !ExchangeAllowed(w.codes, w.grants, p, w.now) && minted <= w.minted + {jti, token.session, token.secret}
    requires Keeps(w, w', r, Done(Refused), w.now + d, minted, w.codes - {p.code}, w.sessions)
    ensures Exchanged(w, w', r, p, jti, token, d)
  {
    hide ExchangeAllowed;
  }

  lemma ExchangeIs(w: World, r: Id, c: Choice, e: Choice, d: nat)
    ensures ExchangedAlone(w, r, c, e, d) ==
            Step(Step(Step(Step(Step(w, Go(r, c)), Go(r, c)), Tick(d)), Go(r, c)), Go(r, e))
  {
    hide Step;
  }

  lemma TakeDecides(w: World, p: ExchangeParams)
    ensures AfterCode(Get(w.codes, p.code, w.now), p) ==
      if Get(w.codes, p.code, w.now).Some? && Redeemable(Get(w.codes, p.code, w.now).value, p)
      then ExSign(p.code, Get(w.codes, p.code, w.now).value) else Done(Refused)
    ensures ExchangeAllowed(w.codes, w.grants, p, w.now) <==>
      && Get(w.codes, p.code, w.now).Some? && Redeemable(Get(w.codes, p.code, w.now).value, p)
      && Get(w.codes, p.code, w.now).value.grantId in w.grants
  {
    hide Get, Redeemable;
  }

  lemma UnredeemableIsRefused(w: World, r: Id, p: ExchangeParams, c: Choice, e: Choice, d: nat)
    requires r in w.requests && w.requests[r] == ExTake(p)
    requires Get(w.codes, p.code, w.now).None? || !Redeemable(Get(w.codes, p.code, w.now).value, p)
    ensures Exchanged(w, ExchangedAlone(w, r, c, e, d), r, p, c.drawn, RefreshToken(e.drawn, e.secret), d)
  {
    hide *;
    TakeDecides(w, p);
    ExchangeIs(w, r, c, e, d);
    TakeMoves(w, r, c);
    RefusedExchange(w, Step(w, Go(r, c)), r, c, e, d, w.codes - {p.code});
    ExchangeRefuses(w, ExchangedAlone(w, r, c, e, d), r, p, c.drawn, RefreshToken(e.drawn, e.secret), d, w.minted);
  }

  lemma RedeemableIsExchanged(
    w: World, r: Id, p: ExchangeParams, c: Choice, e: Choice, d: nat, record: CodeRecord)
    requires r in w.requests && w.requests[r] == ExTake(p)
    requires c.drawn !in w.minted && e.drawn !in w.minted + {c.drawn} && e.secret !in w.minted + {c.drawn}
    requires e.drawn != e.secret
    requires Get(w.codes, p.code, w.now) == Some(record) && Redeemable(record, p)
    ensures Exchanged(w, ExchangedAlone(w, r, c, e, d), r, p, c.drawn, RefreshToken(e.drawn, e.secret), d)
  {
    hide *;
    var token := RefreshToken(e.drawn, e.secret);
    var w1 := Step(w, Go(r, c));
    var w4 := Step(Step(Step(w1, Go(r, c)), Tick(d)), Go(r, c));
    var q := ExInsert(p.code, record, c.drawn, ExpIfSigned(w.now), w.now + d);
    TakeDecides(w, p);
    ExchangeIs(w, r, c, e, d);
    TakeMoves(w, r, c);
    ReachesInsert(w, w1, r, c, d, p.code, record, w.codes - {p.code});
    Inserts(w, w4, r, e, q, w.now + d, w.minted + {c.drawn}, w.codes - {p.code});
    if record.grantId in w.grants {
      ExchangeOpens(w, Step(w4, Go(r, e)), r, p, c.drawn, token, d, record, w.minted + {c.drawn} + {e.drawn, e.secret});
    } else {
      ExchangeRefuses(w, Step(w4, Go(r, e)), r, p, c.drawn, token, d, w.minted + {c.drawn});
    }
  }

  /** Tokens exactly for a live code with client, redirect, resource and verifier right, under a standing grant. */
  lemma ExchangedMeans(w: World, w': World, r: Id, p: ExchangeParams, jti: Id, token: RefreshToken, d: nat)
    requires Exchanged(w, w', r, p, jti, token, d)
    ensures r in w'.requests && w'.requests[r].Done?
    ensures w'.requests[r].outcome.Tokens? <==>
      && Get(w.codes, p.code, w.now).Some?
      && var record := Get(w.codes, p.code, w.now).value;
      && record.clientId == p.clientId && record.redirectUri == p.redirectUri
      && (p.resource.Some? ==> p.resource.value == record.resource)
      && record.challenge == S256(p.verifier)
      && record.grantId in w.grants
    ensures w'.requests[r].outcome.Tokens? ==>
      && w'.requests[r].outcome == Tokens(jti, token, Get(w.codes, p.code, w.now).value.scopes)
      && token.session in w'.sessions
      && var row := w'.sessions[token.session];
      && row.current == token && row.previous == None && row.grantId == Get(w.codes, p.code, w.now).value.grantId
      && row.jti == jti && row.jtiExp == ExpIfSigned(w.now)
      && row.expiresAt == w.now + d + Ms(OAUTH_REFRESH_TTL_SEC)
      && row.absoluteExpiresAt == w.now + d + Ms(OAUTH_REFRESH_ABSOLUTE_TTL_SEC)
    ensures !w'.requests[r].outcome.Tokens? ==> w'.requests[r].outcome == Refused && w'.sessions == w.sessions
  {
    hide Get;
  }

  /** What the service promises for an uninterrupted call, `OauthStore.Store.ExchangeCode`, the machine does. */
  lemma UndisturbedExchangeSucceedsExactly(w: World, r: Id, p: ExchangeParams, c: Choice, e: Choice, d: nat)
    requires r in w.requests && w.requests[r] == ExTake(p)
    requires c.drawn !in w.minted && e.drawn !in w.minted + {c.drawn} && e.secret !in w.minted + {c.drawn}
    requires e.drawn != e.secret
    ensures Exchanged(w, ExchangedAlone(w, r, c, e, d), r, p, c.drawn, RefreshToken(e.drawn, e.secret), d)
  {
    hide Exchanged, ExchangedAlone, Redeemable, Get;
    if Get(w.codes, p.code, w.now).Some? && Redeemable(Get(w.codes, p.code, w.now).value, p) {
      RedeemableIsExchanged(w, r, p, c, e, d, Get(w.codes, p.code, w.now).value);
    } else {
      UnredeemableIsRefused(w, r, p, c, e, d);
    }
  }
}
