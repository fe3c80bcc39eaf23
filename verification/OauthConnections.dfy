/** What holds of an OAuth connection and its tokens in every run of the server. */
module OauthConnections {
  import opened Wrappers
  import opened Config
  import opened OauthWorld
  import opened OauthRotation

  // ---- runs -----------------------------------------------------------------------------------------------

  lemma {:induction false} RunLater(w: World, events: seq<Event>)
    requires Inv(w)
    ensures Inv(Run(w, events)) && Later(w, Run(w, events))
    decreases |events|
  {
    if events != [] {
      var before := Run(w, events[..|events| - 1]);
      RunLater(w, events[..|events| - 1]);
      StepKeeps(before, events[|events| - 1]);
      LaterChains(w, before, Run(w, events));
    }
  }

  lemma LaterChains(a: World, b: World, c: World)
    requires Later(a, b) && Later(b, c)
    ensures Later(a, c)
  {
  }

  lemma Between(audience: string, events: seq<Event>, i: nat, j: nat)
    requires i <= j <= |events|
    ensures Inv(At(audience, events, i)) && Inv(At(audience, events, j))
    ensures Later(At(audience, events, i), At(audience, events, j))
  {
    AlwaysInv(audience, events[..i]);
    assert events[..j] == events[..i] + events[i..j];
    RunSplits(Start(audience), events[..i], events[i..j]);
    RunLater(At(audience, events, i), events[i..j]);
  }

  // ---- tokens handed out ----------------------------------------------------------------------------------

  /** Request r has answered with this pair of tokens. */
  predicate HandedOut(w: World, r: Id, jti: Id, refresh: RefreshToken) {
    && r in w.requests && w.requests[r].Done? && w.requests[r].outcome.Tokens?
    && w.requests[r].outcome.jti == jti && w.requests[r].outcome.refresh == refresh
  }

  /** A live deny entry that reaches the token's expiry. */
  predicate DeniedToTheEnd(w: World, jti: Id) {
    jti in w.denied && jti in w.past.signed && w.past.signed[jti].exp <= w.denied[jti]
  }

  predicate CurrentOrRetired(w: World, id: Id, jti: Id) {
    || (id in w.sessions && jti == w.sessions[id].jti)
    || DeniedToTheEnd(w, jti)
    || PastExp(w, jti)
    || DenialOwed(w, jti)
  }

  lemma ChainIsCurrentOrRetired(w: World, id: Id, pair: Pair)
    requires ChainsOk(w) && RowsOk(w) && DeniedOk(w) && RetiredOk(w)
    requires id in w.sessions && id in w.past.chain && pair in w.past.chain[id]
    ensures CurrentOrRetired(w, id, pair.jti)
  {
    var links := w.past.chain[id];
    assert RowOk(w, id, w.sessions[id]);
    var i :| 0 <= i < |links| && links[i] == pair;
    if i < |links| - 1 {
      assert Retired(w, links[i].jti);
    }
  }

  /**
   * While a connection's row exists, each access token ever handed out for it is the row's own, or denied for
   * the rest of its life, or expired, or owed a denial by the very request that replaced it.
   */
  lemma HandedOutIsCurrentOrRetired(audience: string, events: seq<Event>, r: Id, jti: Id, refresh: RefreshToken)
    requires var w := Run(Start(audience), events);
             HandedOut(w, r, jti, refresh) && refresh.session in w.sessions
    ensures CurrentOrRetired(Run(Start(audience), events), refresh.session, jti)
  {
    AlwaysInv(audience, events);
    var w := Run(Start(audience), events);
    assert RequestOk(w, w.requests[r]);
    ChainIsCurrentOrRetired(w, refresh.session, Pair(refresh, jti));
  }

  /**
   * Of all access tokens ever handed out for a connection, the resource server accepts before their expiry at most
   * the row's own and those a request still owes a denial.
   */
  lemma OneLiveTokenPerConnection(audience: string, events: seq<Event>, r: Id, jti: Id, refresh: RefreshToken)
    requires var w := Run(Start(audience), events);
             && HandedOut(w, r, jti, refresh) && refresh.session in w.sessions
             && !DenialOwed(w, jti) && Accepted(w, jti) && !PastExp(w, jti)
    ensures var w := Run(Start(audience), events);
            refresh.session in w.sessions && jti == w.sessions[refresh.session].jti
  {
    HandedOutIsCurrentOrRetired(audience, events, r, jti, refresh);
  }

  /**
   * Denied once, a token is refused at every later instant before its expiry; what is accepted after lies in the
   * tolerance.
   */
  lemma DeniedStaysDenied(audience: string, events: seq<Event>, i: nat, j: nat, jti: Id)
    requires i <= j <= |events| && jti in At(audience, events, i).denied
    ensures var w := At(audience, events, j);
            && jti in w.past.signed
            && (w.now < w.past.signed[jti].exp ==> !Accepted(w, jti))
            && (Accepted(w, jti) ==>
                  w.past.signed[jti].exp <= w.now < w.past.signed[jti].exp + Ms(CLOCK_TOLERANCE_SEC))
  {
    Between(audience, events, i, j);
    var w := At(audience, events, j);
    if Accepted(w, jti) {
      assert w.past.signed[jti].exp % 1000 == 0 by {
        assert w.past.signed[jti].exp == ExpIfSigned(w.past.signed[jti].signedAt);
      }
    }
  }

  /**
   * The lifetime computed for a deny entry: none exactly when the token is already past its expiry; otherwise the
   * entry ends no earlier than the token, and by less than a second plus the time the write took.
   */
  lemma DenyEntryEnds(exp: nat, readAt: nat, setAt: nat)
    requires readAt <= setAt
    ensures DenyTtl(exp, readAt) <= 0 <==> exp <= readAt
    ensures DenyTtl(exp, readAt) > 0 ==>
              exp <= setAt + Ms(DenyTtl(exp, readAt)) < exp + 1000 + (setAt - readAt)
  {
  }

  // ---- refresh tokens -------------------------------------------------------------------------------------

  /** The event by which a request spends this refresh token. */
  predicate Spends(w: World, e: Event, token: RefreshToken) {
    && e.Go? && e.request in w.requests
    && var q := w.requests[e.request];
    q.RfRotate? && q.refresh.token == token && e.choice.secret !in w.minted
    && Rotatable(w.sessions, token.session, token, q.at)
  }

  lemma SpendingRecords(w: World, e: Event, token: RefreshToken)
    requires Spends(w, e, token)
    ensures token in Step(w, e).past.spent
  {
    var w' := Step(w, e);
    assert w' == RotateStep(w, e.request, w.requests[e.request], e.choice.secret);
    assert w'.past.spent[|w.past.spent|] == token;
  }

  /** No two events of a run spend the same refresh token, however its requests interleave. */
  lemma SpentAtMostOnce(audience: string, events: seq<Event>, i: nat, j: nat, token: RefreshToken)
    requires i < j < |events| && Spends(At(audience, events, i), events[i], token)
    ensures !Spends(At(audience, events, j), events[j], token)
  {
    var w := At(audience, events, i);
    AtNext(audience, events, i);
    SpendingRecords(w, events[i], token);
    Between(audience, events, i + 1, j);
    var later := At(audience, events, j);
    assert token in later.past.spent;
    assert Superseded(later, token);
    if token.session in later.sessions {
      assert RowOk(later, token.session, later.sessions[token.session]);
      var k :| 0 <= k < |later.past.chain[token.session]| - 1 && later.past.chain[token.session][k].refresh == token;
    }
  }

  /**
   * The refresh tokens of a connection form a chain without repetition; the row holds its last two, and the
   * spent tokens are exactly all but the last.
   */
  lemma RowHoldsTheLastTwo(audience: string, events: seq<Event>, id: Id)
    requires id in Run(Start(audience), events).sessions
    ensures var w := Run(Start(audience), events);
            && id in w.past.chain && w.past.chain[id] != []
            && var links := w.past.chain[id];
            && (forall i, j :: 0 <= i < j < |links| ==> links[i].refresh != links[j].refresh)
            && w.sessions[id].current == Last(links).refresh && w.sessions[id].jti == Last(links).jti
            && (w.sessions[id].previous.None? <==> |links| == 1)
            && (|links| > 1 ==> w.sessions[id].previous == Some(links[|links| - 2].refresh))
            && (forall i :: 0 <= i < |links| ==> (links[i].refresh in w.past.spent <==> i < |links| - 1))
  {
    AlwaysInv(audience, events);
    hide Run;
    EndOfChain(Run(Start(audience), events), id);
  }

  lemma EndOfChain(w: World, id: Id)
    requires ChainsOk(w) && RowsOk(w) && SpentOk(w) && id in w.sessions
    ensures id in w.past.chain && w.past.chain[id] != []
    ensures var links := w.past.chain[id];
            && (forall i, j :: 0 <= i < j < |links| ==> links[i].refresh != links[j].refresh)
            && w.sessions[id].current == Last(links).refresh && w.sessions[id].jti == Last(links).jti
            && (w.sessions[id].previous.None? <==> |links| == 1)
            && (|links| > 1 ==> w.sessions[id].previous == Some(links[|links| - 2].refresh))
            && (forall i :: 0 <= i < |links| ==> (links[i].refresh in w.past.spent <==> i < |links| - 1))
  {
    assert RowOk(w, id, w.sessions[id]);
    var links := w.past.chain[id];
    assert ChainOk(w, id, links);
    forall i | 0 <= i < |links| ensures links[i].refresh in w.past.spent <==> i < |links| - 1 {
      assert links[i].refresh in w.past.spent <==> Superseded(w, links[i].refresh);
    }
  }

  /** A refresh that does not present the row's current token ends, and writes nothing. */
  lemma StaleTokenChangesNothing(w: World, r: Id, c: Choice)
    requires r in w.requests && (w.requests[r].RfFind? || (w.requests[r].RfRotate? && c.secret !in w.minted))
    requires var token := w.requests[r].refresh.token;
             token.session in w.sessions ==> w.sessions[token.session].current != token
    ensures Advance(w, r, c) == Move(w, r, Done(Refused))
  {
  }

  lemma RotateLeaves(w: World, r: Id, q: Request, secret: Id)
    requires q.RfRotate? && Rotatable(w.sessions, q.refresh.token.session, q.refresh.token, q.at)
    ensures var w' := RotateStep(w, r, q, secret);
            var id := q.refresh.token.session;
            var next := RefreshToken(id, secret);
            && r in w'.requests && w'.requests[r] == RfDenyStamp(q.row.jti, q.row.jtiExp, Tokens(q.jti, next, q.scopes))
            && id in w'.sessions && w'.sessions[id].current == next && w'.sessions[id].jti == q.jti
            && w'.sessions[id].previous == Some(w.sessions[id].current)
  {
  }

  /** The row ends with the sliding expiry or the absolute one, whichever comes first, and so does its new token. */
  lemma RotateExtends(w: World, r: Id, q: Request, secret: Id)
    requires q.RfRotate? && Rotatable(w.sessions, q.refresh.token.session, q.refresh.token, q.at)
    ensures var w' := RotateStep(w, r, q, secret);
            var id := q.refresh.token.session;
            && id in w'.sessions && Slid(w.sessions[id], w'.sessions[id], q.at + Ms(OAUTH_REFRESH_TTL_SEC))
            && forall when: nat :: Rotatable(w'.sessions, id, RefreshToken(id, secret), when) <==>
                 when < q.at + Ms(OAUTH_REFRESH_TTL_SEC) && when < w.sessions[id].absoluteExpiresAt
  {
  }

  predicate Slid(before: GrantSession, after: GrantSession, sliding: nat) {
    && after.absoluteExpiresAt == before.absoluteExpiresAt
    && after.expiresAt <= sliding && after.expiresAt <= before.absoluteExpiresAt
    && (after.expiresAt == sliding || after.expiresAt == before.absoluteExpiresAt)
  }

  /** After the UPDATE wins, the token it installs can be spent at exactly the instants before both expiries. */
  lemma RotationSlidesTheExpiry(audience: string, events: seq<Event>, i: nat)
    requires i < |events|
    requires var w := At(audience, events, i);
             && events[i].Go? && events[i].request in w.requests && w.requests[events[i].request].RfRotate?
             && Spends(w, events[i], w.requests[events[i].request].refresh.token)
    ensures var w := At(audience, events, i);
            var w' := At(audience, events, i + 1);
            var q := w.requests[events[i].request];
            var id := q.refresh.token.session;
            && id in w.sessions && id in w'.sessions
            && w'.sessions[id].absoluteExpiresAt == w.sessions[id].absoluteExpiresAt
            && w'.sessions[id].expiresAt <= q.at + Ms(OAUTH_REFRESH_TTL_SEC)
            && w'.sessions[id].expiresAt <= w.sessions[id].absoluteExpiresAt
            && w'.sessions[id].expiresAt in {q.at + Ms(OAUTH_REFRESH_TTL_SEC), w.sessions[id].absoluteExpiresAt}
            && forall when: nat :: Rotatable(w'.sessions, id, RefreshToken(id, events[i].choice.secret), when) <==>
                 when < q.at + Ms(OAUTH_REFRESH_TTL_SEC) && when < w.sessions[id].absoluteExpiresAt
  {
    var w := At(audience, events, i);
    var q := w.requests[events[i].request];
    AtNext(audience, events, i);
    hide Step, At, Spends, Rotatable, RotateStep;
    SpendingRotates(w, events[i].request, events[i].choice, q);
    RotateExtends(w, events[i].request, q, events[i].choice.secret);
  }

  /** At the instant an UPDATE wins, the access token its request goes on to deny is the one the row gives up. */
  lemma RotationRetiresTheRowsOwnToken(audience: string, events: seq<Event>, i: nat)
    requires i < |events|
    requires var w := At(audience, events, i);
             && events[i].Go? && events[i].request in w.requests && w.requests[events[i].request].RfRotate?
             && Spends(w, events[i], w.requests[events[i].request].refresh.token)
    ensures var w := At(audience, events, i);
            var w' := At(audience, events, i + 1);
            var id := w.requests[events[i].request].refresh.token.session;
            && id in w.sessions && id in w'.sessions && events[i].request in w'.requests
            && var q := w'.requests[events[i].request];
            && q.RfDenyStamp? && q.retiring == w.sessions[id].jti && q.retiringExp == w.sessions[id].jtiExp
            && q.outcome.Tokens? && q.outcome.jti == w'.sessions[id].jti && q.outcome.refresh == w'.sessions[id].current
            && w'.sessions[id].previous == Some(w.sessions[id].current)
  {
    AlwaysInv(audience, events[..i]);
    AtNext(audience, events, i);
    hide Inv, Step, Spends;
    SpendingRetires(At(audience, events, i), events[i].request, events[i].choice,
                    At(audience, events, i).requests[events[i].request]);
  }

  lemma SpendingRetires(w: World, r: Id, c: Choice, q: Request)
    requires Inv(w) && r in w.requests && w.requests[r] == q && q.RfRotate? && Spends(w, Go(r, c), q.refresh.token)
    ensures var w' := Step(w, Go(r, c));
            var id := q.refresh.token.session;
            && id in w.sessions && id in w'.sessions && r in w'.requests
            && var next := w'.requests[r];
            && next.RfDenyStamp? && next.retiring == w.sessions[id].jti && next.retiringExp == w.sessions[id].jtiExp
            && next.outcome.Tokens? && next.outcome.jti == w'.sessions[id].jti
            && next.outcome.refresh == w'.sessions[id].current
            && w'.sessions[id].previous == Some(w.sessions[id].current)
  {
    hide *;
    SpendingRotates(w, r, c, q);
    RequestParts(w, r);
    ReadNamesTheRetiringPair(w, q);
    RotateLeaves(w, r, q, c.secret);
  }

  lemma RequestParts(w: World, r: Id)
    requires Inv(w) && r in w.requests
    ensures RequestOk(w, w.requests[r])
  {
  }

  lemma SpendingRotates(w: World, r: Id, c: Choice, q: Request)
    requires r in w.requests && w.requests[r] == q && q.RfRotate? && Spends(w, Go(r, c), q.refresh.token)
    ensures Step(w, Go(r, c)) == RotateStep(w, r, q, c.secret)
    ensures q.refresh.token.session in w.sessions
    ensures Rotatable(w.sessions, q.refresh.token.session, q.refresh.token, q.at)
  {
    hide Advance, RotateStep;
    AdvanceByKind(w, r, c);
  }

  // ---- lifetimes ------------------------------------------------------------------------------------------

  /** The absolute expiry of a connection never moves, and the sliding one never passes it. */
  lemma CeilingNeverMoves(audience: string, events: seq<Event>, i: nat, j: nat, id: Id)
    requires i <= j <= |events|
    requires id in At(audience, events, i).sessions && id in At(audience, events, j).sessions
    ensures var before := At(audience, events, i).sessions[id];
            var after := At(audience, events, j).sessions[id];
            && after.absoluteExpiresAt == before.absoluteExpiresAt
            && after.expiresAt <= before.absoluteExpiresAt
  {
    Between(audience, events, i, j);
    var a := At(audience, events, i);
    var b := At(audience, events, j);
    assert RowOk(a, id, a.sessions[id]);
    assert RowOk(b, id, b.sessions[id]);
  }

  lemma ChainEndsInTime(w: World, id: Id, pair: Pair)
    requires SignedOk(w) && ChainsOk(w) && id in w.past.chain && pair in w.past.chain[id]
    ensures EndsInTime(w, id, pair.jti)
    ensures Accepted(w, pair.jti) ==> w.now < w.past.ceiling[id] + Ms(OAUTH_ACCESS_TTL_SEC + CLOCK_TOLERANCE_SEC)
  {
    var links := w.past.chain[id];
    var i :| 0 <= i < |links| && links[i] == pair;
    assert ChainOk(w, id, links);
    assert EndsInTime(w, id, links[i].jti);
    assert w.past.signed[pair.jti].exp == ExpIfSigned(w.past.signed[pair.jti].signedAt);
    assert w.past.signed[pair.jti].exp % 1000 == 0;
  }

  /**
   * Every token obtained through a connection expires less than one lifetime past the ceiling; what is accepted after
   * that lies in the tolerance.
   */
  lemma NothingOutlivesTheCeiling(audience: string, events: seq<Event>, r: Id, jti: Id, refresh: RefreshToken)
    requires HandedOut(Run(Start(audience), events), r, jti, refresh)
    ensures var w := Run(Start(audience), events);
            && EndsInTime(w, refresh.session, jti)
            && (Accepted(w, jti) ==>
                  w.now < w.past.ceiling[refresh.session] + Ms(OAUTH_ACCESS_TTL_SEC + CLOCK_TOLERANCE_SEC))
            && (refresh.session in w.sessions ==>
                  w.past.ceiling[refresh.session] == w.sessions[refresh.session].absoluteExpiresAt)
  {
    AlwaysInv(audience, events);
    var w := Run(Start(audience), events);
    assert RequestOk(w, w.requests[r]);
    ChainEndsInTime(w, refresh.session, Pair(refresh, jti));
    if refresh.session in w.sessions {
      assert RowOk(w, refresh.session, w.sessions[refresh.session]);
    }
  }

  // ---- what takes rows away ---------------------------------------------------------------------------------

  lemma TakenFrom(sessions: map<Id, GrantSession>, g: Id, at: nat)
    ensures forall id :: id in WithoutGrant(sessions, g) <==> id in sessions && sessions[id].grantId != g
    ensures forall id :: id in WithoutGrant(sessions, g) ==> WithoutGrant(sessions, g)[id] == sessions[id]
    ensures forall id :: id in Unexpired(sessions, at) <==>
              id in sessions && at <= sessions[id].expiresAt && at <= sessions[id].absoluteExpiresAt
    ensures forall id :: id in Unexpired(sessions, at) ==> Unexpired(sessions, at)[id] == sessions[id]
  {
  }

  lemma DeletionsAre(w: World, g: Id, at: nat)
    ensures Step(w, DropSessions(g)).sessions == WithoutGrant(w.sessions, g)
    ensures Step(w, Sweep(at)).sessions == if at <= w.now then Unexpired(w.sessions, at) else w.sessions
  {
    hide WithoutGrant, Unexpired;
  }

  /** What the events outside any request take away, and nothing else. */
  lemma DeletionsTakeExactly(w: World, g: Id, at: nat)
    ensures var left := Step(w, DropSessions(g)).sessions;
            && (forall id :: id in left <==> id in w.sessions && w.sessions[id].grantId != g)
            && (forall id :: id in left ==> left[id] == w.sessions[id])
    ensures var left := Step(w, Sweep(at)).sessions;
            && (forall id :: id in left ==> id in w.sessions && left[id] == w.sessions[id])
            && (at <= w.now ==> forall id :: id in left <==>
                  id in w.sessions && at <= w.sessions[id].expiresAt && at <= w.sessions[id].absoluteExpiresAt)
  {
    hide *;
    DeletionsAre(w, g, at);
    TakenFrom(w.sessions, g, at);
  }

  /** A user or a client goes with exactly its grants, and these with exactly the connections under them. */
  lemma CascadeTakesExactly(w: World, x: Id)
    ensures var w' := Step(w, DropRow(x));
            && w'.standing == w.standing - {x}
            && (forall g :: g in w'.grants <==> g in w.grants && w.grants[g].user != x && w.grants[g].clientId != x)
            && (forall g :: g in w'.grants ==> w'.grants[g] == w.grants[g])
            && (forall id :: id in w'.sessions <==>
                  id in w.sessions && !(w.sessions[id].grantId in w.grants && w.sessions[id].grantId !in w'.grants))
            && (forall id :: id in w'.sessions ==> w'.sessions[id] == w.sessions[id])
  {
  }
}
