/**
 * Rotation of a connection's credentials, over every interleaving and every crash.
 *
 * The chain of a connection is every pair ever installed in its row. The proofs show that the row always sits at
 * the end of its chain, that a request's earlier read still names the right pair when its UPDATE wins, and that
 * every pair before the end is either denied, expired, or still owed a denial by the request that replaced it.
 */
module OauthRotation {
  import opened Wrappers
  import opened Config
  import opened OauthWorld

  // ---- the invariant --------------------------------------------------------------------------------------

  function Last<T>(items: seq<T>): T
    requires items != []
  {
    items[|items| - 1]
  }

  ghost predicate SignedOk(w: World) {
    forall j :: j in w.past.signed ==>
      && j in w.minted
      && w.past.signed[j].signedAt <= w.now
      && w.past.signed[j].exp == ExpIfSigned(w.past.signed[j].signedAt)
  }

  /** The token expires less than one access-token lifetime past the connection's ceiling. */
  predicate EndsInTime(w: World, id: Id, jti: Id) {
    && jti in w.past.signed && id in w.past.ceiling
    && w.past.signed[jti].exp < w.past.ceiling[id] + Ms(OAUTH_ACCESS_TTL_SEC)
  }

  ghost predicate ChainOk(w: World, id: Id, links: seq<Pair>) {
    && links != []
    && id in w.minted
    && (forall i :: 0 <= i < |links| ==>
          && links[i].refresh.session == id && links[i].refresh.secret in w.minted
          && links[i].jti in w.past.signed && EndsInTime(w, id, links[i].jti))
    && (forall i, j :: 0 <= i < j < |links| ==> links[i].refresh != links[j].refresh)
  }

  ghost predicate ChainsOk(w: World) {
    && w.past.ceiling.Keys == w.past.chain.Keys
    && forall id :: id in w.past.chain ==> ChainOk(w, id, w.past.chain[id])
  }

  /** The row sits at the end of its chain. */
  ghost predicate RowOk(w: World, id: Id, row: GrantSession) {
    && id in w.past.chain && w.past.chain[id] != []
    && var links := w.past.chain[id];
    && Pair(row.current, row.jti) == Last(links)
    && row.previous == (if |links| == 1 then None else Some(links[|links| - 2].refresh))
    && row.jti in w.past.signed && row.jtiExp == w.past.signed[row.jti].exp
    && id in w.past.ceiling && row.absoluteExpiresAt == w.past.ceiling[id]
    && row.expiresAt <= row.absoluteExpiresAt
  }

  ghost predicate RowsOk(w: World) {
    forall id :: id in w.sessions ==> RowOk(w, id, w.sessions[id])
  }

  /** What an earlier read of a row still says truly, whatever has happened since. */
  ghost predicate ReadOk(w: World, token: RefreshToken, row: GrantSession) {
    && token.session in w.past.chain
    && row.current == token
    && Pair(row.current, row.jti) in w.past.chain[token.session]
    && row.jti in w.past.signed && row.jtiExp == w.past.signed[row.jti].exp
  }

  ghost predicate SignedAs(w: World, jti: Id, exp: nat, latest: nat) {
    jti in w.past.signed && w.past.signed[jti].exp == exp && w.past.signed[jti].signedAt <= latest <= w.now
  }

  /** What the client was, or is about to be, handed is a pair of its connection's chain. */
  ghost predicate Delivered(w: World, outcome: Outcome) {
    outcome.Tokens? ==>
      && outcome.refresh.session in w.past.chain
      && Pair(outcome.refresh, outcome.jti) in w.past.chain[outcome.refresh.session]
  }

  ghost predicate RequestOk(w: World, q: Request) {
    && (q.RfGrant? || q.RfSign? || q.RfStamp? || q.RfRotate? ==> ReadOk(w, q.refresh.token, q.row))
    && (q.ExStamp? || q.RfStamp? ==> SignedAs(w, q.jti, q.exp, w.now))
    && (q.ExInsert? || q.RfRotate? ==> SignedAs(w, q.jti, q.exp, q.at))
    && (q.RfDenyStamp? || q.RfDenySet? ==>
          q.retiring in w.past.signed && w.past.signed[q.retiring].exp == q.retiringExp)
    && (q.RfDenySet? ==> q.at <= w.now && q.retiringExp <= q.at + Ms(q.ttlSec))
    && (q.Done? || q.RfDenyStamp? || q.RfDenySet? ==> Delivered(w, q.outcome))
  }

  ghost predicate RequestsOk(w: World) {
    forall r :: r in w.requests ==> RequestOk(w, w.requests[r])
  }

  /** A deny entry never ends before the token it denies. */
  ghost predicate DeniedOk(w: World) {
    forall j :: j in w.denied ==> j in w.past.signed && w.past.signed[j].exp <= w.denied[j]
  }

  /** The request that replaced this token has not finished denying it. */
  predicate DenialOwed(w: World, jti: Id) {
    && jti in w.past.retirer
    && w.past.retirer[jti] in w.requests
    && var q := w.requests[w.past.retirer[jti]];
    (q.RfDenyStamp? || q.RfDenySet?) && q.retiring == jti
  }

  predicate PastExp(w: World, jti: Id) {
    jti in w.past.signed && w.past.signed[jti].exp <= w.now
  }

  predicate Retired(w: World, jti: Id) {
    jti in w.denied || PastExp(w, jti) || DenialOwed(w, jti)
  }

  ghost predicate RetiredOk(w: World) {
    forall id :: id in w.past.chain ==>
      forall i :: 0 <= i < |w.past.chain[id]| - 1 ==> Retired(w, w.past.chain[id][i].jti)
  }

  /** Not the last token of its connection's chain. */
  ghost predicate Superseded(w: World, token: RefreshToken) {
    && token.session in w.past.chain
    && exists i :: 0 <= i < |w.past.chain[token.session]| - 1 && w.past.chain[token.session][i].refresh == token
  }

  ghost predicate SpentOk(w: World) {
    && (forall token :: token in w.past.spent <==> Superseded(w, token))
    && (forall i, j :: 0 <= i < j < |w.past.spent| ==> w.past.spent[i] != w.past.spent[j])
  }

  ghost predicate Inv(w: World) {
    && SignedOk(w) && ChainsOk(w) && RowsOk(w) && RequestsOk(w) && DeniedOk(w) && RetiredOk(w) && SpentOk(w)
  }

  lemma InvParts(w: World)
    requires Inv(w)
    ensures SignedOk(w) && ChainsOk(w) && RowsOk(w) && RequestsOk(w) && DeniedOk(w) && RetiredOk(w) && SpentOk(w)
  {
  }

  lemma InvMade(w: World)
    requires SignedOk(w) && ChainsOk(w) && RowsOk(w) && RequestsOk(w) && DeniedOk(w) && RetiredOk(w) && SpentOk(w)
    ensures Inv(w)
  {
  }

  // ---- preservation, one conjunct at a time ---------------------------------------------------------------

  /** Time moves on and records only ever grow. */
  ghost predicate Later(w: World, w': World) {
    && w.now <= w'.now
    && (forall j :: j in w.past.signed ==> j in w'.past.signed && w'.past.signed[j] == w.past.signed[j])
    && (forall id :: id in w.past.chain ==> id in w'.past.chain && w.past.chain[id] <= w'.past.chain[id])
    && (forall id :: id in w.past.ceiling ==> id in w'.past.ceiling && w'.past.ceiling[id] == w.past.ceiling[id])
    && w.past.spent <= w'.past.spent
    && w.denied.Keys <= w'.denied.Keys
  }

  /** Request r alone moved. */
  ghost predicate Moved(w: World, w': World, r: Id) {
    r in w'.requests && w'.requests == w.requests[r := w'.requests[r]]
  }

  lemma RequestStays(w: World, w': World, q: Request)
    requires RequestOk(w, q) && Later(w, w')
    ensures RequestOk(w', q)
  {
  }

  lemma RequestsFrame(w: World, w': World, r: Id)
    requires RequestsOk(w) && Later(w, w') && Moved(w, w', r) && RequestOk(w', w'.requests[r])
    ensures RequestsOk(w')
  {
    forall x | x in w'.requests ensures RequestOk(w', w'.requests[x]) {
      if x != r { RequestStays(w, w', w.requests[x]); }
    }
  }

  /** Denials owed are still owed, or settled. */
  ghost predicate OwedKept(w: World, w': World) {
    forall j :: Retired(w, j) ==> Retired(w', j)
  }

  lemma OwedKeptWhenMoved(w: World, w': World, r: Id)
    requires Later(w, w') && Moved(w, w', r)
    requires w'.denied.Keys >= w.denied.Keys && w'.past.retirer == w.past.retirer
    requires r in w.requests ==> !w.requests[r].RfDenyStamp? && !w.requests[r].RfDenySet?
    ensures OwedKept(w, w')
  {
  }

  lemma RetiredFrame(w: World, w': World)
    requires RetiredOk(w) && OwedKept(w, w')
    requires forall id :: id in w'.past.chain ==>
               |w'.past.chain[id]| == 1 || (id in w.past.chain && w'.past.chain[id] == w.past.chain[id])
    ensures RetiredOk(w')
  {
    forall id, i | id in w'.past.chain && 0 <= i < |w'.past.chain[id]| - 1
      ensures Retired(w', w'.past.chain[id][i].jti)
    {
      assert Retired(w, w.past.chain[id][i].jti);
    }
  }

  lemma SpentFrame(w: World, w': World)
    requires SpentOk(w) && w'.past.spent == w.past.spent
    requires forall token :: Superseded(w, token) <==> Superseded(w', token)
    ensures SpentOk(w')
  {
  }

  lemma RowStays(w: World, w': World, id: Id)
    requires id in w.sessions && RowOk(w, id, w.sessions[id]) && Later(w, w')
    requires id in w'.past.chain && w'.past.chain[id] == w.past.chain[id]
    requires id in w'.past.ceiling && w'.past.ceiling[id] == w.past.ceiling[id]
    ensures RowOk(w', id, w.sessions[id])
  {
  }

  lemma ChainStays(w: World, w': World, id: Id)
    requires id in w.past.chain && ChainOk(w, id, w.past.chain[id]) && Later(w, w') && w.minted <= w'.minted
    ensures ChainOk(w', id, w.past.chain[id])
  {
  }

  // ---- steps that leave every connection alone ------------------------------------------------------------

  ghost predicate SameRecords(w: World, w': World) {
    && w'.past.chain == w.past.chain && w'.past.ceiling == w.past.ceiling
    && w'.past.spent == w.past.spent && w'.past.retirer == w.past.retirer
    && w.minted <= w'.minted
  }

  ghost predicate SameConnections(w: World, w': World, r: Id) {
    && w'.now == w.now && w'.sessions == w.sessions && w'.denied == w.denied && w'.past.signed == w.past.signed
    && SameRecords(w, w') && Moved(w, w', r)
  }

  lemma StoresFrame(w: World, w': World)
    requires ChainsOk(w) && RowsOk(w) && SpentOk(w) && SameRecords(w, w') && Later(w, w')
    requires forall id :: id in w'.sessions ==> id in w.sessions && w'.sessions[id] == w.sessions[id]
    ensures ChainsOk(w') && RowsOk(w') && SpentOk(w')
  {
    forall id | id in w'.sessions ensures RowOk(w', id, w'.sessions[id]) { RowStays(w, w', id); }
    forall id | id in w'.past.chain ensures ChainOk(w', id, w'.past.chain[id]) { ChainStays(w, w', id); }
    SpentFrame(w, w');
  }

  lemma QuietMove(w: World, w': World, r: Id)
    requires Inv(w) && SameConnections(w, w', r) && RequestOk(w', w'.requests[r])
    requires OwedKept(w, w')
    ensures Inv(w') && Later(w, w')
  {
    StoresFrame(w, w');
    RequestsFrame(w, w', r);
    RetiredFrame(w, w');
  }

  lemma RefusalKeeps(w: World, r: Id)
    requires Inv(w) && r in w.requests && !w.requests[r].RfDenyStamp? && !w.requests[r].RfDenySet?
    ensures Inv(Move(w, r, Done(Refused))) && Later(w, Move(w, r, Done(Refused)))
  {
    OwedKeptWhenMoved(w, Move(w, r, Done(Refused)), r);
    QuietMove(w, Move(w, r, Done(Refused)), r);
  }

  lemma ObserveOk(w: World, q: Request, c: Choice)
    requires RequestOk(w, q) && RowsOk(w) && Observes(q)
    ensures RequestOk(w, Observe(w, q, c))
  {
    if q.RfFind? && Matches(w, q.refresh) {
      assert RowOk(w, q.refresh.token.session, w.sessions[q.refresh.token.session]);
    }
  }

  /** Reading the clock for a denial: the entry will cover the token, or there is nothing left to cover. */
  lemma DenyStampKeepsOwed(w: World, r: Id, c: Choice)
    requires r in w.requests && w.requests[r].RfDenyStamp? && RequestOk(w, w.requests[r])
    ensures OwedKept(w, Move(w, r, Observe(w, w.requests[r], c)))
  {
  }

  lemma ObserveKeeps(w: World, r: Id, c: Choice)
    requires Inv(w) && r in w.requests && Observes(w.requests[r])
    ensures Inv(Advance(w, r, c)) && Later(w, Advance(w, r, c))
  {
    AdvanceObserves(w, r, c);
    var w' := Move(w, r, Observe(w, w.requests[r], c));
    assert RequestOk(w, w.requests[r]);
    ObserveOk(w, w.requests[r], c);
    RequestStays(w, w', w'.requests[r]);
    if w.requests[r].RfDenyStamp? {
      DenyStampKeepsOwed(w, r, c);
    } else {
      OwedKeptWhenMoved(w, w', r);
    }
    QuietMove(w, w', r);
  }

  /** The authorization side. */
  predicate Authorizes(q: Request) {
    q.GetStore? || q.PostSkip? || q.PostWrite? || q.PostTake? || q.StoreCode? || q.ExTake? || q.Complete?
  }

  predicate BearsNothing(q: Request) {
    (q.Done? && !q.outcome.Tokens?) || q.Complete? || q.StoreCode? || q.ExSign?
  }

  lemma TicketStepsAside(w: World, r: Id, c: Choice)
    requires r in w.requests && (w.requests[r].GetStore? || w.requests[r].PostSkip? || w.requests[r].PostWrite?)
    ensures Advance(w, r, c) == w || (SameConnections(w, Advance(w, r, c), r) && BearsNothing(Advance(w, r, c).requests[r]))
  {
  }

  lemma ConsentStepsAside(w: World, r: Id, c: Choice)
    requires r in w.requests && w.requests[r].PostTake?
    ensures SameConnections(w, Advance(w, r, c), r) && BearsNothing(Advance(w, r, c).requests[r])
  {
  }

  lemma CodeStepsAside(w: World, r: Id, c: Choice)
    requires r in w.requests && (w.requests[r].StoreCode? || w.requests[r].ExTake?)
    ensures Advance(w, r, c) == w || (SameConnections(w, Advance(w, r, c), r) && BearsNothing(Advance(w, r, c).requests[r]))
  {
  }

  lemma RefusalAside(w: World, r: Id)
    ensures SameConnections(w, Move(w, r, Done(Refused)), r) && BearsNothing(Move(w, r, Done(Refused)).requests[r])
  {
  }

  lemma WriteAside(w: World, r: Id, user: Id, req: AuthRequest, drawn: Id)
    ensures var w' := WriteGrant(w, r, user, req, drawn); SameConnections(w, w', r) && BearsNothing(w'.requests[r])
  {
  }

  lemma UpsertAside(w: World, r: Id, c: Choice)
    requires r in w.requests && w.requests[r].Complete?
    ensures Advance(w, r, c) == w || (SameConnections(w, Advance(w, r, c), r) && BearsNothing(Advance(w, r, c).requests[r]))
  {
    AdvanceByKind(w, r, c);
    hide Advance, SameConnections, WriteGrant, Move;
    RefusalAside(w, r);
    WriteAside(w, r, w.requests[r].user, w.requests[r].req, c.drawn);
  }

  lemma AuthorizeKeeps(w: World, r: Id, c: Choice)
    requires Inv(w) && r in w.requests && Authorizes(w.requests[r])
    ensures Inv(Advance(w, r, c)) && Later(w, Advance(w, r, c))
  {
    var q := w.requests[r];
    if q.PostTake? { ConsentStepsAside(w, r, c); }
    else if q.GetStore? || q.PostSkip? || q.PostWrite? { TicketStepsAside(w, r, c); }
    else if q.Complete? { UpsertAside(w, r, c); }
    else { CodeStepsAside(w, r, c); }
    if Advance(w, r, c) != w {
      OwedKeptWhenMoved(w, Advance(w, r, c), r);
      QuietMove(w, Advance(w, r, c), r);
    }
  }

  // ---- signing --------------------------------------------------------------------------------------------

  /** One token signed for request r, and nothing else about connections. */
  ghost predicate SignsOne(w: World, w': World, r: Id, jti: Id) {
    && jti !in w.minted && w'.minted == w.minted + {jti}
    && w'.now == w.now && w'.sessions == w.sessions && w'.denied == w.denied
    && jti in w'.past.signed && w'.past.signed == w.past.signed[jti := w'.past.signed[jti]]
    && w'.past.signed[jti].signedAt == w.now && w'.past.signed[jti].exp == ExpIfSigned(w.now)
    && SameRecords(w, w') && Moved(w, w', r)
  }

  lemma SignMove(w: World, w': World, r: Id, jti: Id)
    requires Inv(w) && SignsOne(w, w', r, jti)
    requires r in w.requests && (w.requests[r].ExSign? || w.requests[r].RfSign?)
    requires RequestOk(w', w'.requests[r])
    ensures Inv(w') && Later(w, w')
  {
    assert Later(w, w');
    assert SignedOk(w');
    OwedKeptWhenMoved(w, w', r);
    StoresFrame(w, w');
    RequestsFrame(w, w', r);
    RetiredFrame(w, w');
  }

  lemma SignFirstKeeps(w: World, r: Id, code: Id, record: CodeRecord, jti: Id)
    requires Inv(w) && r in w.requests && w.requests[r] == ExSign(code, record) && jti !in w.minted
    ensures Inv(SignFirst(w, r, code, record, jti)) && Later(w, SignFirst(w, r, code, record, jti))
  {
    SignMove(w, SignFirst(w, r, code, record, jti), r, jti);
  }

  lemma SignNextKeeps(
    w: World, r: Id, p: RefreshParams, row: GrantSession, grant: Grant, scopes: set<string>, jti: Id)
    requires Inv(w) && r in w.requests && w.requests[r] == RfSign(p, row, grant, scopes) && jti !in w.minted
    ensures Inv(SignNext(w, r, p, row, grant, scopes, jti)) && Later(w, SignNext(w, r, p, row, grant, scopes, jti))
  {
    var w' := SignNext(w, r, p, row, grant, scopes, jti);
    assert RequestOk(w, w.requests[r]);
    assert jti !in w.past.signed;
    SignMove(w, w', r, jti);
  }

  // Opening a connection.

  /** A token signed by `at` expires at most one lifetime after it. */
  lemma ExpBound(signedAt: nat, at: nat)
    requires signedAt <= at
    ensures ExpIfSigned(signedAt) <= at + Ms(OAUTH_ACCESS_TTL_SEC)
    ensures signedAt + Ms(OAUTH_ACCESS_TTL_SEC) < ExpIfSigned(signedAt) + 1000
  {
  }

  /** A row and its one-link chain, under an id nobody has used. */
  ghost predicate OpensOne(w: World, w': World, r: Id, id: Id, secret: Id) {
    && id !in w.minted && secret !in w.minted && w'.minted == w.minted + {id, secret}
    && w'.now == w.now && w'.denied == w.denied && w'.past.signed == w.past.signed
    && id in w'.sessions && w'.sessions == w.sessions[id := w'.sessions[id]]
    && var row := w'.sessions[id];
    && row.current == RefreshToken(id, secret) && row.previous == None
    && row.expiresAt <= row.absoluteExpiresAt
    && row.jti in w.past.signed && row.jtiExp == w.past.signed[row.jti].exp
    && row.jtiExp < row.absoluteExpiresAt + Ms(OAUTH_ACCESS_TTL_SEC)
    && w'.past.chain == w.past.chain[id := [Pair(row.current, row.jti)]]
    && w'.past.ceiling == w.past.ceiling[id := row.absoluteExpiresAt]
    && w'.past.spent == w.past.spent && w'.past.retirer == w.past.retirer
    && Moved(w, w', r)
    && w'.requests[r].Done? && w'.requests[r].outcome.Tokens?
    && w'.requests[r].outcome.refresh == row.current && w'.requests[r].outcome.jti == row.jti
  }

  lemma OpenChains(w: World, w': World, r: Id, id: Id, secret: Id)
    requires ChainsOk(w) && OpensOne(w, w', r, id, secret)
    ensures ChainsOk(w') && Later(w, w')
  {
    assert id !in w.past.chain;
    forall other | other in w'.past.chain && other != id ensures ChainOk(w', other, w'.past.chain[other]) {
      ChainStays(w, w', other);
    }
  }

  lemma OpenRows(w: World, w': World, r: Id, id: Id, secret: Id)
    requires ChainsOk(w) && RowsOk(w) && OpensOne(w, w', r, id, secret) && Later(w, w')
    ensures RowsOk(w')
  {
    forall other | other in w'.sessions && other != id ensures RowOk(w', other, w'.sessions[other]) {
      RowStays(w, w', other);
    }
  }

  lemma OpenSpent(w: World, w': World, r: Id, id: Id, secret: Id)
    requires ChainsOk(w) && SpentOk(w) && OpensOne(w, w', r, id, secret)
    ensures SpentOk(w')
  {
    assert id !in w.past.chain;
    forall token ensures Superseded(w, token) <==> Superseded(w', token) {
      if token.session != id && token.session in w.past.chain {
        assert w'.past.chain[token.session] == w.past.chain[token.session];
      }
    }
    SpentFrame(w, w');
  }

  lemma OpenMove(w: World, w': World, r: Id, id: Id, secret: Id)
    requires Inv(w) && OpensOne(w, w', r, id, secret)
    requires r in w.requests && w.requests[r].ExInsert?
    ensures Inv(w') && Later(w, w')
  {
    OpenChains(w, w', r, id, secret);
    OpenRows(w, w', r, id, secret);
    OpenSpent(w, w', r, id, secret);
    OwedKeptWhenMoved(w, w', r);
    RequestsFrame(w, w', r);
    RetiredFrame(w, w');
  }

  lemma InsertOpens(w: World, r: Id, code: Id, record: CodeRecord, token: RefreshToken, jti: Id, exp: nat, at: nat)
    requires SignedOk(w) && SignedAs(w, jti, exp, at)
    requires token.session !in w.minted && token.secret !in w.minted
    ensures OpensOne(w, InsertRow(w, r, code, record, FirstRow(record, token, jti, exp, at)), r, token.session, token.secret)
  {
    ExpBound(w.past.signed[jti].signedAt, at);
    assert Ms(OAUTH_REFRESH_TTL_SEC) <= Ms(OAUTH_REFRESH_ABSOLUTE_TTL_SEC);
  }

  lemma OpenKeeps(
    w: World, r: Id, code: Id, record: CodeRecord, jti: Id, exp: nat, at: nat, c: Choice)
    requires Inv(w) && r in w.requests && w.requests[r] == ExInsert(code, record, jti, exp, at)
    requires c.drawn !in w.minted && c.secret !in w.minted && c.drawn != c.secret
    ensures var w' := OpenSession(w, r, code, record, jti, exp, at, c); Inv(w') && Later(w, w')
  {
    var w' := OpenSession(w, r, code, record, jti, exp, at, c);
    assert RequestOk(w, w.requests[r]);
    if record.grantId in w.grants {
      InsertOpens(w, r, code, record, RefreshToken(c.drawn, c.secret), jti, exp, at);
      OpenMove(w, w', r, c.drawn, c.secret);
    } else {
      RefusalKeeps(w, r);
    }
  }

  // Rotating.

  /** No ABA: while the presented token is still the row's own, the pair read earlier is the row's own pair. */
  lemma ReadNamesTheRetiringPair(w: World, q: Request)
    requires Inv(w) && q.RfRotate? && RequestOk(w, q)
    requires Rotatable(w.sessions, q.refresh.token.session, q.refresh.token, q.at)
    ensures var row := w.sessions[q.refresh.token.session];
            q.row.jti == row.jti && q.row.jtiExp == row.jtiExp
  {
    var id := q.refresh.token.session;
    assert RowOk(w, id, w.sessions[id]);
    var links := w.past.chain[id];
    var i :| 0 <= i < |links| && links[i] == Pair(q.row.current, q.row.jti);
    assert i == |links| - 1;
  }

  /** Request r, having read `jti` with the token it spends, installs `next` after it. */
  ghost predicate Replaces(w: World, w': World, r: Id, id: Id, next: Pair, jti: Id) {
    && id in w.sessions && w.sessions[id].jti == jti && id in w.past.chain
    && next.refresh.session == id && next.refresh.secret !in w.minted
    && w'.minted == w.minted + {next.refresh.secret}
    && next.jti in w.past.signed
    && w'.now == w.now && w'.denied == w.denied && w'.past.signed == w.past.signed
    && id in w'.sessions && w'.sessions == w.sessions[id := w'.sessions[id]]
    && var old' := w.sessions[id];
    && var row := w'.sessions[id];
    && Pair(row.current, row.jti) == next && row.previous == Some(old'.current)
    && row.jtiExp == w.past.signed[row.jti].exp && row.jtiExp < row.absoluteExpiresAt + Ms(OAUTH_ACCESS_TTL_SEC)
    && row.absoluteExpiresAt == old'.absoluteExpiresAt && row.expiresAt <= row.absoluteExpiresAt
    && w'.past.chain == w.past.chain[id := w.past.chain[id] + [next]]
    && w'.past.ceiling == w.past.ceiling
    && w'.past.spent == w.past.spent + [old'.current]
    && w'.past.retirer == w.past.retirer[jti := r]
    && r in w.requests && !w.requests[r].RfDenyStamp? && !w.requests[r].RfDenySet?
    && Moved(w, w', r)
    && w'.requests[r].RfDenyStamp? && w'.requests[r].retiring == jti
    && (w'.requests[r].outcome.Tokens? ==>
          w'.requests[r].outcome.refresh == next.refresh && w'.requests[r].outcome.jti == next.jti)
    && jti in w.past.signed && w'.requests[r].retiringExp == w.past.signed[jti].exp
  }

  lemma ReplaceChain(w: World, w': World, r: Id, id: Id, next: Pair, jti: Id)
    requires ChainsOk(w) && RowsOk(w) && Replaces(w, w', r, id, next, jti)
    ensures ChainOk(w', id, w'.past.chain[id]) && RowOk(w', id, w'.sessions[id])
  {
    assert RowOk(w, id, w.sessions[id]);
    assert ChainOk(w, id, w.past.chain[id]);
    var links := w.past.chain[id];
    var links' := w'.past.chain[id];
    assert links'[|links| - 1] == Last(links) && Last(links') == next;
    forall i | 0 <= i < |links| ensures links[i].refresh != next.refresh {}
  }

  lemma ReplaceOtherChains(w: World, w': World, r: Id, id: Id, next: Pair, jti: Id)
    requires ChainsOk(w) && Replaces(w, w', r, id, next, jti) && ChainOk(w', id, w'.past.chain[id])
    ensures ChainsOk(w')
  {
    forall other | other in w'.past.chain && other != id ensures ChainOk(w', other, w'.past.chain[other]) {
      ChainStays(w, w', other);
    }
  }

  lemma ReplaceOtherRows(w: World, w': World, r: Id, id: Id, next: Pair, jti: Id)
    requires ChainsOk(w) && RowsOk(w) && Replaces(w, w', r, id, next, jti) && RowOk(w', id, w'.sessions[id])
    ensures RowsOk(w')
  {
    forall other | other in w'.sessions && other != id ensures RowOk(w', other, w'.sessions[other]) {
      RowStays(w, w', other);
    }
  }

  lemma RetiredRemains(w: World, w': World, r: Id, id: Id, next: Pair, jti: Id, j: Id)
    requires Replaces(w, w', r, id, next, jti)
    ensures Retired(w, j) ==> Retired(w', j)
    ensures Retired(w', jti)
  {
  }

  lemma ReplaceRetires(w: World, w': World, r: Id, id: Id, next: Pair, jti: Id)
    requires RowsOk(w) && RetiredOk(w) && Replaces(w, w', r, id, next, jti)
    ensures RetiredOk(w')
  {
    assert RowOk(w, id, w.sessions[id]);
    var links := w.past.chain[id];
    assert Last(links).jti == jti && w'.past.chain == w.past.chain[id := links + [next]];
    hide RowsOk, RowOk, Replaces, Retired;
    forall other, i | other in w'.past.chain && 0 <= i < |w'.past.chain[other]| - 1
      ensures Retired(w', w'.past.chain[other][i].jti)
    {
      RetiredRemains(w, w', r, id, next, jti, w'.past.chain[other][i].jti);
      if other == id && i == |links| - 1 {
        assert w'.past.chain[id][i] == Last(links);
      } else {
        assert w'.past.chain[other][i] == w.past.chain[other][i];
        assert Retired(w, w.past.chain[other][i].jti);
      }
    }
  }

  lemma ReplacedIsSuperseded(w: World, w': World, r: Id, id: Id, next: Pair, jti: Id, t: RefreshToken)
    requires ChainsOk(w) && RowsOk(w) && Replaces(w, w', r, id, next, jti)
    ensures Superseded(w', t) <==> Superseded(w, t) || t == w.sessions[id].current
    ensures !Superseded(w, w.sessions[id].current)
  {
    assert RowOk(w, id, w.sessions[id]) && ChainOk(w, id, w.past.chain[id]);
    hide ChainsOk, RowsOk;
    var links := w.past.chain[id];
    var links' := w'.past.chain[id];
    assert links'[|links| - 1] == Last(links) && Last(links).refresh.session == id;
    if Superseded(w, t) && t.session == id {
      var i :| 0 <= i < |links| - 1 && links[i].refresh == t;
      assert links'[i].refresh == t;
    }
    if Superseded(w', t) && t.session == id {
      var i :| 0 <= i < |links'| - 1 && links'[i].refresh == t;
      assert links'[i] == links[i];
    }
  }

  lemma ReplaceSpends(w: World, w': World, r: Id, id: Id, next: Pair, jti: Id)
    requires Inv(w) && Replaces(w, w', r, id, next, jti)
    ensures SpentOk(w')
  {
    assert ChainsOk(w) && RowsOk(w) && SpentOk(w) && w'.past.spent == w.past.spent + [w.sessions[id].current];
    hide Inv, ChainsOk, RowsOk, Replaces, Superseded;
    forall t ensures Superseded(w', t) <==> Superseded(w, t) || t == w.sessions[id].current {
      ReplacedIsSuperseded(w, w', r, id, next, jti, t);
    }
    ReplacedIsSuperseded(w, w', r, id, next, jti, w.sessions[id].current);
  }

  lemma ReplaceTells(w: World, w': World, r: Id, id: Id, next: Pair, jti: Id)
    requires SignedOk(w) && DeniedOk(w) && ChainsOk(w) && Replaces(w, w', r, id, next, jti)
    ensures SignedOk(w') && DeniedOk(w') && Later(w, w') && Moved(w, w', r) && RequestOk(w', w'.requests[r])
  {
    assert w'.past.chain[id][|w.past.chain[id]|] == next;
  }

  lemma ReplaceMove(w: World, w': World, r: Id, id: Id, next: Pair, jti: Id)
    requires Inv(w) && Replaces(w, w', r, id, next, jti)
    ensures Inv(w') && Later(w, w')
  {
    assert id in w'.past.chain && id in w'.sessions;
    hide *;
    InvParts(w);
    ReplaceTells(w, w', r, id, next, jti);
    ReplaceChain(w, w', r, id, next, jti);
    ReplaceOtherChains(w, w', r, id, next, jti);
    ReplaceOtherRows(w, w', r, id, next, jti);
    ReplaceRetires(w, w', r, id, next, jti);
    ReplaceSpends(w, w', r, id, next, jti);
    RequestsFrame(w, w', r);
    InvMade(w');
  }

  lemma RotateReplaces(w: World, r: Id, q: Request, secret: Id)
    requires r in w.requests && w.requests[r] == q && q.RfRotate? && secret !in w.minted
    requires SignedOk(w) && RequestOk(w, q)
    requires var id := q.refresh.token.session;
             && Rotatable(w.sessions, id, q.refresh.token, q.at) && RowOk(w, id, w.sessions[id])
             && w.sessions[id].jti == q.row.jti
    ensures var id := q.refresh.token.session;
            Replaces(w, RotateStep(w, r, q, secret), r, id, Pair(RefreshToken(id, secret), q.jti), q.row.jti)
  {
    ExpBound(w.past.signed[q.jti].signedAt, q.at);
  }

  lemma RotateKeeps(w: World, r: Id, q: Request, secret: Id)
    requires Inv(w) && r in w.requests && w.requests[r] == q && q.RfRotate? && secret !in w.minted
    ensures Inv(RotateStep(w, r, q, secret)) && Later(w, RotateStep(w, r, q, secret))
  {
    var id := q.refresh.token.session;
    assert RequestOk(w, q);
    if Rotatable(w.sessions, id, q.refresh.token, q.at) {
      assert RowOk(w, id, w.sessions[id]);
      ReadNamesTheRetiringPair(w, q);
      RotateReplaces(w, r, q, secret);
      ReplaceMove(w, RotateStep(w, r, q, secret), r, id, Pair(RefreshToken(id, secret), q.jti), q.row.jti);
    } else {
      RefusalKeeps(w, r);
    }
  }

  // Denying.

  lemma DenySettles(w: World, r: Id, jti: Id, exp: nat, ttlSec: nat, at: nat, outcome: Outcome)
    requires r in w.requests && w.requests[r] == RfDenySet(jti, exp, ttlSec, at, outcome)
    ensures OwedKept(w, Deny(w, r, jti, ttlSec, outcome))
  {
  }

  lemma DenyTells(w: World, r: Id, jti: Id, exp: nat, ttlSec: nat, at: nat, outcome: Outcome)
    requires RequestsOk(w) && SignedOk(w) && DeniedOk(w)
    requires r in w.requests && w.requests[r] == RfDenySet(jti, exp, ttlSec, at, outcome)
    ensures var w' := Deny(w, r, jti, ttlSec, outcome);
            && SameRecords(w, w') && Later(w, w') && Moved(w, w', r) && RequestOk(w', w'.requests[r])
            && SignedOk(w') && DeniedOk(w') && w'.past.chain == w.past.chain && w'.sessions == w.sessions
  {
    assert RequestOk(w, w.requests[r]);
  }

  lemma DenyKeeps(w: World, r: Id, jti: Id, exp: nat, ttlSec: nat, at: nat, outcome: Outcome)
    requires Inv(w) && r in w.requests && w.requests[r] == RfDenySet(jti, exp, ttlSec, at, outcome)
    ensures Inv(Deny(w, r, jti, ttlSec, outcome)) && Later(w, Deny(w, r, jti, ttlSec, outcome))
  {
    var w' := Deny(w, r, jti, ttlSec, outcome);
    hide *;
    InvParts(w);
    DenyTells(w, r, jti, exp, ttlSec, at, outcome);
    DenySettles(w, r, jti, exp, ttlSec, at, outcome);
    RequestsFrame(w, w', r);
    RetiredFrame(w, w');
    StoresFrame(w, w');
    InvMade(w');
  }

  // Everything else that can happen.

  lemma ConnectionKeeps(w: World, r: Id, c: Choice)
    requires Inv(w) && r in w.requests
    requires var q := w.requests[r]; q.ExSign? || q.RfSign? || q.ExInsert? || q.RfRotate? || q.RfDenySet?
    ensures Inv(Advance(w, r, c)) && Later(w, Advance(w, r, c))
  {
    hide *;
    LaterIsReflexive(w);
    AdvanceByKind(w, r, c);
    match w.requests[r]
    case ExSign(code, record) => if c.drawn !in w.minted { SignFirstKeeps(w, r, code, record, c.drawn); }
    case RfSign(p, row, grant, scopes) =>
      if c.drawn !in w.minted { SignNextKeeps(w, r, p, row, grant, scopes, c.drawn); }
    case ExInsert(code, record, jti, exp, at) =>
      if c.drawn !in w.minted && c.secret !in w.minted && c.drawn != c.secret {
        OpenKeeps(w, r, code, record, jti, exp, at, c);
      }
    case RfRotate(_, _, _, _, _, _) => if c.secret !in w.minted { RotateKeeps(w, r, w.requests[r], c.secret); }
    case RfDenySet(jti, exp, ttlSec, at, outcome) => DenyKeeps(w, r, jti, exp, ttlSec, at, outcome);
    case _ =>
  }

  lemma AdvanceKeeps(w: World, r: Id, c: Choice)
    requires Inv(w) && r in w.requests
    ensures Inv(Advance(w, r, c)) && Later(w, Advance(w, r, c))
  {
    var q := w.requests[r];
    hide Inv, Later, Advance;
    if Observes(q) {
      ObserveKeeps(w, r, c);
    } else if Authorizes(q) {
      AuthorizeKeeps(w, r, c);
    } else {
      ConnectionKeeps(w, r, c);
    }
  }

  lemma LaterIsReflexive(w: World)
    ensures Later(w, w)
  {
  }

  lemma ForgetsKeepsRetired(w: World, w': World, jti: Id)
    requires OnlyForgets(w, w') && Retired(w, jti)
    ensures Retired(w', jti)
  {
    if DenialOwed(w, jti) {
      var x := w.past.retirer[jti];
      assert w'.requests[x] == w.requests[x];
    }
  }

  lemma ForgetsTells(w: World, w': World)
    requires OnlyForgets(w, w') && SignedOk(w) && DeniedOk(w) && RetiredOk(w)
    ensures SameRecords(w, w') && Later(w, w') && SignedOk(w') && DeniedOk(w') && w'.past.chain == w.past.chain
    ensures forall id :: id in w'.sessions ==> id in w.sessions && w'.sessions[id] == w.sessions[id]
  {
  }

  lemma ForgetsKeepsRequests(w: World, w': World)
    requires RequestsOk(w) && OnlyForgets(w, w') && Later(w, w')
    ensures RequestsOk(w')
  {
    forall x | x in w'.requests ensures RequestOk(w', w'.requests[x]) {
      if x in w.requests { RequestStays(w, w', w.requests[x]); }
    }
  }

  lemma ForgetsKeepsOwed(w: World, w': World)
    requires OnlyForgets(w, w')
    ensures OwedKept(w, w')
  {
    forall j | Retired(w, j) ensures Retired(w', j) {
      ForgetsKeepsRetired(w, w', j);
    }
  }

  lemma ForgetMove(w: World, w': World)
    requires Inv(w) && OnlyForgets(w, w')
    ensures Inv(w') && Later(w, w')
  {
    hide *;
    InvParts(w);
    ForgetsTells(w, w');
    StoresFrame(w, w');
    ForgetsKeepsRequests(w, w');
    ForgetsKeepsOwed(w, w');
    RetiredFrame(w, w');
    InvMade(w');
  }

  lemma StepKeeps(w: World, e: Event)
    requires Inv(w)
    ensures Inv(Step(w, e)) && Later(w, Step(w, e))
  {
    if e.Go? {
      if e.request in w.requests {
        AdvanceKeeps(w, e.request, e.choice);
        hide Inv, Later, Advance;
      } else {
        hide Inv;
      }
    } else {
      hide *;
      OutsideOnlyForgets(w, e);
      ForgetMove(w, Step(w, e));
    }
  }

  /** Every state the server can reach, from any start that satisfies the invariant. */
  lemma {:induction false} RunKeeps(w: World, events: seq<Event>)
    requires Inv(w)
    ensures Inv(Run(w, events))
    decreases |events|
  {
    if events != [] {
      RunKeeps(w, events[..|events| - 1]);
      StepKeeps(Run(w, events[..|events| - 1]), events[|events| - 1]);
    }
  }

  lemma AlwaysInv(audience: string, events: seq<Event>)
    ensures Inv(Run(Start(audience), events))
  {
    assert Inv(Start(audience));
    RunKeeps(Start(audience), events);
  }
}
