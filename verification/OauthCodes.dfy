/**
 * Authorization codes and the connections they open.
 *
 * A stored code is consumed by at most one request, and only that request can open a connection with it; every
 * token of the connection names the user, client and grant the code was issued for.
 */
module OauthCodes {
  import opened Wrappers
  import opened Scopes
  import opened OauthWorld
  import R = OauthRotation
  import F = OauthConsent

  predicate HoldsCode(q: Request) {
    q.ExSign? || q.ExStamp? || q.ExInsert?
  }

  predicate HoldsRow(q: Request) {
    q.RfGrant? || q.RfSign? || q.RfStamp? || q.RfRotate?
  }

  predicate Answers(q: Request) {
    q.Done? || q.RfDenyStamp? || q.RfDenySet?
  }

  // ---- the invariant --------------------------------------------------------------------------------------

  ghost predicate StoredOk(w: World) {
    && w.past.redeemer.Keys <= w.past.codes.Keys
    && (forall c :: c in w.codes ==> c !in w.past.redeemer)
  }

  /** The code behind a connection: consumed, by a request that has finished. */
  predicate OpenedOk(w: World, id: Id) {
    && id in w.past.openedBy && id in w.minted
    && var c := w.past.openedBy[id];
    && c in w.past.codes && c in w.past.redeemer
    && w.past.redeemer[c] in w.requests && w.requests[w.past.redeemer[c]].Done?
  }

  ghost predicate AllOpenedOk(w: World) {
    && (forall id :: id in w.past.openedBy ==> OpenedOk(w, id))
    && (forall a, b :: a in w.past.openedBy && b in w.past.openedBy && a != b ==>
          w.past.openedBy[a] != w.past.openedBy[b])
  }

  function Record(w: World, id: Id): CodeRecord
    requires id in w.past.openedBy && w.past.openedBy[id] in w.past.codes
  {
    w.past.codes[w.past.openedBy[id]]
  }

  predicate Opened(w: World, id: Id) {
    id in w.past.openedBy && w.past.openedBy[id] in w.past.codes
  }

  /** The token names the user, client and grant of the code behind connection id. */
  predicate Names(w: World, id: Id, jti: Id) {
    && Opened(w, id) && jti in w.past.signed
    && w.past.signed[jti].user == Record(w, id).user
    && w.past.signed[jti].clientId == Record(w, id).clientId
    && w.past.signed[jti].grantId == Record(w, id).grantId
  }

  predicate IsFor(token: AccessToken, record: CodeRecord) {
    && token.user == record.user && token.clientId == record.clientId && token.grantId == record.grantId
    && token.scopes == record.scopes && token.audience == record.resource
  }

  ghost predicate LinksOk(w: World, id: Id) {
    && id in w.past.chain && Opened(w, id)
    && (forall i :: 0 <= i < |w.past.chain[id]| ==> Names(w, id, w.past.chain[id][i].jti))
    && w.past.chain[id] != [] && IsFor(w.past.signed[w.past.chain[id][0].jti], Record(w, id))
  }

  ghost predicate ChainsNameTheirCode(w: World) {
    forall id :: id in w.past.chain ==> LinksOk(w, id)
  }

  ghost predicate RowsNameTheirGrant(w: World) {
    forall id :: id in w.sessions ==> Opened(w, id) && w.sessions[id].grantId == Record(w, id).grantId
  }

  ghost predicate IssueOk(w: World, r: Id, q: Request) {
    && (HoldsCode(q) ==>
          && q.code in w.past.redeemer && w.past.redeemer[q.code] == r
          && q.code in w.past.codes && q.record == w.past.codes[q.code])
    && (q.ExStamp? || q.ExInsert? ==> q.jti in w.past.signed && IsFor(w.past.signed[q.jti], q.record))
    && (HoldsRow(q) ==>
          Opened(w, q.refresh.token.session) && q.row.grantId == Record(w, q.refresh.token.session).grantId)
    && (q.RfSign? ==>
          && q.grant.user == Record(w, q.refresh.token.session).user
          && q.grant.clientId == Record(w, q.refresh.token.session).clientId
          && q.grant.clientId == q.refresh.clientId)
    && (q.RfStamp? || q.RfRotate? ==>
          Names(w, q.refresh.token.session, q.jti) && w.past.signed[q.jti].scopes == q.scopes)
    && (Answers(q) && q.outcome.Tokens? ==>
          q.outcome.jti in w.past.signed && w.past.signed[q.outcome.jti].scopes == q.outcome.scopes)
  }

  ghost predicate IssuesOk(w: World) {
    forall r :: r in w.requests ==> IssueOk(w, r, w.requests[r])
  }

  ghost predicate CodeInv(w: World) {
    StoredOk(w) && AllOpenedOk(w) && ChainsNameTheirCode(w) && RowsNameTheirGrant(w) && IssuesOk(w)
  }

  lemma CodeInvParts(w: World)
    requires CodeInv(w)
    ensures StoredOk(w) && AllOpenedOk(w) && ChainsNameTheirCode(w) && RowsNameTheirGrant(w) && IssuesOk(w)
  {
  }

  lemma CodeInvMade(w: World)
    requires StoredOk(w) && AllOpenedOk(w) && ChainsNameTheirCode(w) && RowsNameTheirGrant(w) && IssuesOk(w)
    ensures CodeInv(w)
  {
  }

  // ---- frames ---------------------------------------------------------------------------------------------

  /** Codes, openings and signatures only accumulate. */
  ghost predicate Accrues(w: World, w': World) {
    && w.minted <= w'.minted
    && (forall c :: c in w.past.codes ==> c in w'.past.codes && w'.past.codes[c] == w.past.codes[c])
    && (forall c :: c in w.past.redeemer ==> c in w'.past.redeemer && w'.past.redeemer[c] == w.past.redeemer[c])
    && (forall id :: id in w.past.openedBy ==> id in w'.past.openedBy && w'.past.openedBy[id] == w.past.openedBy[id])
    && (forall j :: j in w.past.signed ==> j in w'.past.signed && w'.past.signed[j] == w.past.signed[j])
    && (forall x :: x in w.requests && w.requests[x].Done? ==> x in w'.requests && w'.requests[x] == w.requests[x])
  }

  ghost predicate Moved(w: World, w': World, r: Id) {
    r in w'.requests && w'.requests == w.requests[r := w'.requests[r]]
  }

  lemma NamesStay(w: World, w': World, id: Id)
    requires Accrues(w, w') && Opened(w, id)
    ensures Opened(w', id) && Record(w', id) == Record(w, id)
    ensures forall jti :: Names(w, id, jti) ==> Names(w', id, jti)
  {
  }

  lemma IssueStays(w: World, w': World, r: Id, q: Request)
    requires IssueOk(w, r, q) && Accrues(w, w')
    ensures IssueOk(w', r, q)
  {
    if HoldsRow(q) {
      hide IsFor;
      NamesStay(w, w', q.refresh.token.session);
      hide Names;
    } else {
      hide Names;
    }
  }

  lemma IssuesFrame(w: World, w': World, r: Id)
    requires IssuesOk(w) && Accrues(w, w') && Moved(w, w', r) && IssueOk(w', r, w'.requests[r])
    ensures IssuesOk(w')
  {
    forall x | x in w'.requests ensures IssueOk(w', x, w'.requests[x]) {
      if x != r { IssueStays(w, w', x, w.requests[x]); }
    }
  }

  lemma LinksStay(w: World, w': World, id: Id)
    requires id in w.past.chain && LinksOk(w, id) && Accrues(w, w')
    requires id in w'.past.chain && w'.past.chain[id] == w.past.chain[id]
    ensures LinksOk(w', id)
  {
    forall i | 0 <= i < |w'.past.chain[id]| ensures Names(w', id, w'.past.chain[id][i].jti) {
      assert Names(w, id, w.past.chain[id][i].jti);
    }
  }

  lemma ChainsFrame(w: World, w': World)
    requires ChainsNameTheirCode(w) && Accrues(w, w') && w'.past.chain == w.past.chain
    ensures ChainsNameTheirCode(w')
  {
    forall id | id in w'.past.chain ensures LinksOk(w', id) { LinksStay(w, w', id); }
  }

  lemma RowsFrame(w: World, w': World)
    requires RowsNameTheirGrant(w) && Accrues(w, w')
    requires forall id :: id in w'.sessions ==> id in w.sessions && w'.sessions[id].grantId == w.sessions[id].grantId
    ensures RowsNameTheirGrant(w')
  {
  }

  lemma OpenedFrame(w: World, w': World, r: Id)
    requires AllOpenedOk(w) && Accrues(w, w') && w'.past.openedBy == w.past.openedBy && Moved(w, w', r)
    requires r in w.requests && w.requests[r].Done? ==> w'.requests[r].Done?
    ensures AllOpenedOk(w')
  {
    forall id | id in w'.past.openedBy ensures OpenedOk(w', id) {
      assert OpenedOk(w, id);
      var x := w.past.redeemer[w.past.openedBy[id]];
      assert x in w'.requests && w'.requests[x].Done?;
    }
  }

  /** The code side is as it was, and stored codes at most vanish. */
  ghost predicate SameCodes(w: World, w': World) {
    && w.minted <= w'.minted
    && w'.past.codes == w.past.codes && w'.past.redeemer == w.past.redeemer && w'.past.openedBy == w.past.openedBy
    && w'.past.chain == w.past.chain && w'.past.signed == w.past.signed
    && w'.codes.Keys <= w.codes.Keys
    && (forall id :: id in w'.sessions ==> id in w.sessions && w'.sessions[id].grantId == w.sessions[id].grantId)
  }

  lemma QuietIssue(w: World, w': World, r: Id)
    requires CodeInv(w) && SameCodes(w, w') && Moved(w, w', r) && IssueOk(w, r, w'.requests[r])
    requires r in w.requests && w.requests[r].Done? ==> w'.requests[r] == w.requests[r]
    ensures CodeInv(w') && Accrues(w, w')
  {
    IssueStays(w, w', r, w'.requests[r]);
    IssuesFrame(w, w', r);
    ChainsFrame(w, w');
    RowsFrame(w, w');
    OpenedFrame(w, w', r);
  }

  // ---- steps ----------------------------------------------------------------------------------------------

  lemma GrantReadIssueOk(w: World, r: Id, p: RefreshParams, row: GrantSession)
    requires F.CodesOk(w) && IssueOk(w, r, RfGrant(p, row))
    ensures IssueOk(w, r, CheckGrant(w, p, row))
  {
    var code := w.past.openedBy[p.token.session];
    assert F.RecordOk(w, w.past.codes[code]);
    hide NarrowScopes, F.Consented;
  }

  lemma ObservedIssueOk(w: World, r: Id, q: Request, c: Choice)
    requires RowsNameTheirGrant(w) && F.CodesOk(w) && IssueOk(w, r, q)
    ensures IssueOk(w, r, Observe(w, q, c))
  {
    hide Validate, Covering, F.CodesOk, F.RecordOk, CheckGrant, Names, IsFor;
    if q.RfGrant? { GrantReadIssueOk(w, r, q.refresh, q.row); }
  }

  lemma ObserveIssues(w: World, r: Id, c: Choice)
    requires CodeInv(w) && F.CodesOk(w) && r in w.requests
    ensures var w' := Move(w, r, Observe(w, w.requests[r], c)); CodeInv(w') && Accrues(w, w')
  {
    assert IssueOk(w, r, w.requests[r]);
    ObservedIssueOk(w, r, w.requests[r], c);
    QuietIssue(w, Move(w, r, Observe(w, w.requests[r], c)), r);
  }

  lemma StoreIssues(w: World, r: Id, req: AuthRequest, session: Option<Id>, t: Id)
    requires CodeInv(w) && r in w.requests && !w.requests[r].Done?
    ensures var w' := StoreTicket(w, r, req, session, t); CodeInv(w') && Accrues(w, w')
  {
    QuietIssue(w, StoreTicket(w, r, req, session, t), r);
  }

  lemma WriteIssues(w: World, r: Id, t: Id, pending: Pending)
    requires CodeInv(w) && r in w.requests && !w.requests[r].Done?
    ensures var w' := WriteTicket(w, r, t, pending); CodeInv(w') && Accrues(w, w')
  {
    QuietIssue(w, WriteTicket(w, r, t, pending), r);
  }

  lemma SkipIssues(w: World, r: Id, t: Id, user: Id, covering: Id)
    requires CodeInv(w) && r in w.requests && !w.requests[r].Done?
    ensures var w' := SkipConsent(w, r, t, user, covering); CodeInv(w') && Accrues(w, w')
  {
    QuietIssue(w, SkipConsent(w, r, t, user, covering), r);
  }

  lemma SubmitIssues(w: World, r: Id, t: Id, allow: bool, browser: Option<Id>)
    requires CodeInv(w) && r in w.requests && !w.requests[r].Done?
    ensures var w' := SubmitConsent(w, r, t, allow, browser); CodeInv(w') && Accrues(w, w')
  {
    QuietIssue(w, SubmitConsent(w, r, t, allow, browser), r);
  }

  lemma GrantIssues(w: World, r: Id, user: Id, req: AuthRequest, drawn: Id)
    requires CodeInv(w) && r in w.requests && !w.requests[r].Done?
    ensures var w' := WriteGrant(w, r, user, req, drawn); CodeInv(w') && Accrues(w, w')
  {
    QuietIssue(w, WriteGrant(w, r, user, req, drawn), r);
  }

  lemma RefusalIssues(w: World, r: Id)
    requires CodeInv(w) && r in w.requests && !w.requests[r].Done?
    ensures var w' := Move(w, r, Done(Refused)); CodeInv(w') && Accrues(w, w')
  {
    QuietIssue(w, Move(w, r, Done(Refused)), r);
  }

  lemma UpsertIssues(w: World, r: Id, user: Id, req: AuthRequest, drawn: Id)
    requires CodeInv(w) && r in w.requests && !w.requests[r].Done?
    ensures var w' := UpsertGrant(w, r, user, req, drawn); CodeInv(w') && Accrues(w, w')
  {
    hide CodeInv, Accrues, WriteGrant, Move;
    if user in w.standing && req.clientId in w.standing {
      GrantIssues(w, r, user, req, drawn);
    } else {
      RefusalIssues(w, r);
    }
  }

  lemma DenyIssues(w: World, r: Id, jti: Id, exp: nat, ttlSec: nat, at: nat, outcome: Outcome)
    requires CodeInv(w) && r in w.requests && w.requests[r] == RfDenySet(jti, exp, ttlSec, at, outcome)
    ensures var w' := Deny(w, r, jti, ttlSec, outcome); CodeInv(w') && Accrues(w, w')
  {
    assert IssueOk(w, r, w.requests[r]);
    QuietIssue(w, Deny(w, r, jti, ttlSec, outcome), r);
  }

  lemma CodeIssues(w: World, r: Id, record: CodeRecord, code: Id)
    requires CodeInv(w) && F.CodesOk(w) && r in w.requests && !w.requests[r].Done? && code !in w.minted
    ensures var w' := IssueCode(w, r, record, code); CodeInv(w') && Accrues(w, w')
  {
    var w' := IssueCode(w, r, record, code);
    assert code !in w.past.codes;
    assert Accrues(w, w');
    IssuesFrame(w, w', r);
    ChainsFrame(w, w');
    RowsFrame(w, w');
    OpenedFrame(w, w', r);
  }

  lemma TakeCodeTells(w: World, r: Id, p: ExchangeParams)
    requires StoredOk(w) && F.CodesOk(w) && r in w.requests && w.requests[r] == ExTake(p)
    ensures var w' := TakeCode(w, r, p);
            && Accrues(w, w') && Moved(w, w', r) && IssueOk(w', r, w'.requests[r]) && StoredOk(w')
            && w'.past.chain == w.past.chain && w'.sessions == w.sessions && w'.past.openedBy == w.past.openedBy
  {
    hide F.RecordOk, Redeemable;
  }

  lemma TakeCodeIssues(w: World, r: Id, p: ExchangeParams)
    requires CodeInv(w) && F.CodesOk(w) && r in w.requests && w.requests[r] == ExTake(p)
    ensures var w' := TakeCode(w, r, p); CodeInv(w') && Accrues(w, w')
  {
    var w' := TakeCode(w, r, p);
    hide *;
    CodeInvParts(w);
    TakeCodeTells(w, r, p);
    IssuesFrame(w, w', r);
    ChainsFrame(w, w');
    RowsFrame(w, w');
    OpenedFrame(w, w', r);
    CodeInvMade(w');
  }

  /** One more token signed. */
  ghost predicate OneSigned(w: World, w': World, jti: Id) {
    && jti !in w.minted && w.minted <= w'.minted
    && jti in w'.past.signed && w'.past.signed == w.past.signed[jti := w'.past.signed[jti]]
    && w'.past.codes == w.past.codes && w'.past.redeemer == w.past.redeemer && w'.past.openedBy == w.past.openedBy
    && w'.past.chain == w.past.chain && w'.codes == w.codes && w'.sessions == w.sessions
  }

  lemma SignIssues(w: World, w': World, r: Id, jti: Id)
    requires CodeInv(w) && F.TokensOk(w) && OneSigned(w, w', jti) && Moved(w, w', r) && IssueOk(w', r, w'.requests[r])
    requires r in w.requests && !w.requests[r].Done?
    ensures CodeInv(w') && Accrues(w, w')
  {
    assert jti !in w.past.signed;
    assert Accrues(w, w');
    IssuesFrame(w, w', r);
    ChainsFrame(w, w');
    RowsFrame(w, w');
    OpenedFrame(w, w', r);
  }

  lemma SignFirstIssues(w: World, r: Id, code: Id, record: CodeRecord, jti: Id)
    requires CodeInv(w) && F.TokensOk(w) && r in w.requests && w.requests[r] == ExSign(code, record) && jti !in w.minted
    ensures var w' := SignFirst(w, r, code, record, jti); CodeInv(w') && Accrues(w, w')
  {
    var w' := SignFirst(w, r, code, record, jti);
    assert IssueOk(w, r, w.requests[r]);
    SignIssues(w, w', r, jti);
  }

  lemma SignNextIssues(
    w: World, r: Id, p: RefreshParams, row: GrantSession, grant: Grant, scopes: set<string>, jti: Id)
    requires CodeInv(w) && F.TokensOk(w) && r in w.requests && w.requests[r] == RfSign(p, row, grant, scopes)
    requires jti !in w.minted
    ensures var w' := SignNext(w, r, p, row, grant, scopes, jti); CodeInv(w') && Accrues(w, w')
  {
    var w' := SignNext(w, r, p, row, grant, scopes, jti);
    assert IssueOk(w, r, w.requests[r]);
    SignIssues(w, w', r, jti);
  }

  /** One more connection, opened by the request that holds the code. */
  ghost predicate OneOpened(w: World, w': World, r: Id, id: Id, code: Id, jti: Id) {
    && id !in w.minted && w.minted <= w'.minted && id in w'.minted
    && w'.past.codes == w.past.codes && w'.past.redeemer == w.past.redeemer && w'.past.signed == w.past.signed
    && w'.past.openedBy == w.past.openedBy[id := code]
    && id in w'.past.chain && w'.past.chain == w.past.chain[id := w'.past.chain[id]]
    && |w'.past.chain[id]| == 1 && w'.past.chain[id][0].jti == jti
    && id in w'.sessions && w'.sessions == w.sessions[id := w'.sessions[id]]
    && w'.codes == w.codes && Moved(w, w', r) && w'.requests[r].Done?
  }

  /** No other connection was opened with this code: its redeemer has not finished. */
  lemma CodeUnused(w: World, r: Id)
    requires AllOpenedOk(w) && r in w.requests && w.requests[r].ExInsert? && IssueOk(w, r, w.requests[r])
    ensures forall id :: id in w.past.openedBy ==> w.past.openedBy[id] != w.requests[r].code
  {
    forall id | id in w.past.openedBy ensures w.past.openedBy[id] != w.requests[r].code {
      assert OpenedOk(w, id);
    }
  }

  lemma OpenedStays(w: World, w': World, r: Id, id: Id, code: Id, jti: Id)
    requires AllOpenedOk(w) && OneOpened(w, w', r, id, code, jti) && Accrues(w, w')
    requires r in w.requests && w.requests[r].ExInsert? && w.requests[r].code == code && IssueOk(w, r, w.requests[r])
    ensures AllOpenedOk(w')
  {
    CodeUnused(w, r);
    forall a | a in w'.past.openedBy ensures OpenedOk(w', a) {
      if a != id {
        assert OpenedOk(w, a);
        var x := w.past.redeemer[w.past.openedBy[a]];
        assert x in w'.requests && w'.requests[x].Done?;
      }
    }
  }

  lemma OpenIssues(w: World, w': World, r: Id, id: Id, code: Id, jti: Id)
    requires CodeInv(w) && R.ChainsOk(w) && OneOpened(w, w', r, id, code, jti)
    requires r in w.requests && w.requests[r].ExInsert? && w.requests[r].code == code && w.requests[r].jti == jti
    requires w'.sessions[id].grantId == w.requests[r].record.grantId
    requires IssueOk(w', r, w'.requests[r])
    ensures CodeInv(w') && Accrues(w, w')
  {
    assert IssueOk(w, r, w.requests[r]);
    assert id !in w.past.openedBy by {
      assert forall x :: x in w.past.openedBy ==> OpenedOk(w, x);
    }
    assert Accrues(w, w');
    OpenedStays(w, w', r, id, code, jti);
    IssuesFrame(w, w', r);
    forall other | other in w'.past.chain ensures LinksOk(w', other) {
      if other != id { LinksStay(w, w', other); }
    }
    forall other | other in w'.sessions
      ensures Opened(w', other) && w'.sessions[other].grantId == Record(w', other).grantId
    {
      if other != id { assert Opened(w, other); }
    }
  }

  lemma InsertIssues(w: World, r: Id, code: Id, record: CodeRecord, row: GrantSession, exp: nat, at: nat)
    requires CodeInv(w) && R.ChainsOk(w) && r in w.requests && w.requests[r] == ExInsert(code, record, row.jti, exp, at)
    requires row.current.session !in w.minted && row.grantId == record.grantId
    ensures var w' := InsertRow(w, r, code, record, row); CodeInv(w') && Accrues(w, w')
  {
    assert IssueOk(w, r, w.requests[r]);
    OpenIssues(w, InsertRow(w, r, code, record, row), r, row.current.session, code, row.jti);
  }

  lemma ExchangeIssues(w: World, r: Id, code: Id, record: CodeRecord, jti: Id, exp: nat, at: nat, c: Choice)
    requires CodeInv(w) && R.ChainsOk(w) && r in w.requests && w.requests[r] == ExInsert(code, record, jti, exp, at)
    requires c.drawn !in w.minted
    ensures var w' := OpenSession(w, r, code, record, jti, exp, at, c); CodeInv(w') && Accrues(w, w')
  {
    if record.grantId in w.grants {
      InsertIssues(w, r, code, record, FirstRow(record, RefreshToken(c.drawn, c.secret), jti, exp, at), exp, at);
    } else {
      RefusalIssues(w, r);
    }
  }

  /** One more link, for a token that names what the connection's code named. */
  ghost predicate OneLinked(w: World, w': World, r: Id, id: Id, jti: Id) {
    && w.minted <= w'.minted
    && w'.past.codes == w.past.codes && w'.past.redeemer == w.past.redeemer && w'.past.openedBy == w.past.openedBy
    && w'.past.signed == w.past.signed && w'.codes == w.codes
    && id in w.past.chain && w.past.chain[id] != [] && id in w'.past.chain
    && w'.past.chain == w.past.chain[id := w'.past.chain[id]]
    && |w'.past.chain[id]| == |w.past.chain[id]| + 1
    && w'.past.chain[id][..|w.past.chain[id]|] == w.past.chain[id]
    && w'.past.chain[id][|w.past.chain[id]|].jti == jti
    && (forall x :: x in w'.sessions ==> x in w.sessions && w'.sessions[x].grantId == w.sessions[x].grantId)
    && Moved(w, w', r)
  }

  lemma LinkTells(w: World, w': World, r: Id, id: Id, jti: Id)
    requires StoredOk(w) && OneLinked(w, w', r, id, jti) && r in w.requests && !w.requests[r].Done?
    ensures Accrues(w, w') && Moved(w, w', r) && StoredOk(w') && w'.past.openedBy == w.past.openedBy
    ensures forall x :: x in w'.sessions ==> x in w.sessions && w'.sessions[x].grantId == w.sessions[x].grantId
  {
  }

  lemma LinkedChain(w: World, w': World, r: Id, id: Id, jti: Id)
    requires OneLinked(w, w', r, id, jti) && Names(w, id, jti) && Accrues(w, w') && LinksOk(w, id)
    ensures LinksOk(w', id)
  {
    forall i | 0 <= i < |w'.past.chain[id]| ensures Names(w', id, w'.past.chain[id][i].jti) {
      if i < |w.past.chain[id]| {
        assert w'.past.chain[id][i] == w'.past.chain[id][..|w.past.chain[id]|][i];
        assert Names(w, id, w.past.chain[id][i].jti);
      }
    }
    assert w'.past.chain[id][0] == w'.past.chain[id][..|w.past.chain[id]|][0];
  }

  lemma LinkedChains(w: World, w': World, r: Id, id: Id, jti: Id)
    requires ChainsNameTheirCode(w) && OneLinked(w, w', r, id, jti) && Names(w, id, jti) && Accrues(w, w')
    ensures ChainsNameTheirCode(w')
  {
    assert LinksOk(w, id);
    LinkedChain(w, w', r, id, jti);
    forall other | other in w'.past.chain && other != id ensures LinksOk(w', other) { LinksStay(w, w', other); }
  }

  lemma LinkIssues(w: World, w': World, r: Id, id: Id, jti: Id)
    requires CodeInv(w) && OneLinked(w, w', r, id, jti) && Names(w, id, jti)
    requires r in w.requests && !w.requests[r].Done? && IssueOk(w, r, w'.requests[r])
    ensures CodeInv(w') && Accrues(w, w')
  {
    var next := w'.requests[r];
    hide *;
    CodeInvParts(w);
    LinkTells(w, w', r, id, jti);
    IssueStays(w, w', r, next);
    IssuesFrame(w, w', r);
    RowsFrame(w, w');
    OpenedFrame(w, w', r);
    LinkedChains(w, w', r, id, jti);
    CodeInvMade(w');
  }

  lemma RotateReady(w: World, r: Id, q: Request)
    requires IssuesOk(w) && R.RowsOk(w) && r in w.requests && w.requests[r] == q && q.RfRotate?
    requires Rotatable(w.sessions, q.refresh.token.session, q.refresh.token, q.at)
    ensures var id := q.refresh.token.session;
            && Names(w, id, q.jti) && w.past.signed[q.jti].scopes == q.scopes
            && id in w.past.chain && w.past.chain[id] != []
  {
    assert IssueOk(w, r, q);
    assert R.RowOk(w, q.refresh.token.session, w.sessions[q.refresh.token.session]);
  }

  lemma RotateLinks(w: World, r: Id, q: Request, secret: Id)
    requires q.RfRotate? && Rotatable(w.sessions, q.refresh.token.session, q.refresh.token, q.at)
    requires q.refresh.token.session in w.past.chain && w.past.chain[q.refresh.token.session] != []
    ensures OneLinked(w, RotateStep(w, r, q, secret), r, q.refresh.token.session, q.jti)
  {
  }

  lemma AnswerIssueOk(w: World, r: Id, retiring: Id, exp: nat, jti: Id, next: RefreshToken, scopes: set<string>)
    requires jti in w.past.signed && w.past.signed[jti].scopes == scopes
    ensures IssueOk(w, r, RfDenyStamp(retiring, exp, Tokens(jti, next, scopes)))
  {
  }

  lemma RotateAnswers(w: World, r: Id, q: Request, secret: Id)
    requires q.RfRotate? && Rotatable(w.sessions, q.refresh.token.session, q.refresh.token, q.at)
    requires q.jti in w.past.signed && w.past.signed[q.jti].scopes == q.scopes
    ensures var w' := RotateStep(w, r, q, secret); r in w'.requests && IssueOk(w, r, w'.requests[r])
  {
    hide IssueOk, Rotated, Rotatable;
    AnswerIssueOk(w, r, q.row.jti, q.row.jtiExp, q.jti, RefreshToken(q.refresh.token.session, secret), q.scopes);
  }

  lemma NamedIsSigned(w: World, id: Id, jti: Id)
    requires Names(w, id, jti)
    ensures jti in w.past.signed
  {
  }

  lemma RotateRefused(w: World, r: Id, q: Request, secret: Id)
    requires q.RfRotate? && !Rotatable(w.sessions, q.refresh.token.session, q.refresh.token, q.at)
    ensures RotateStep(w, r, q, secret) == Move(w, r, Done(Refused))
  {
  }

  lemma RotateIssues(w: World, r: Id, q: Request, secret: Id)
    requires CodeInv(w) && R.RowsOk(w) && r in w.requests && w.requests[r] == q && q.RfRotate?
    ensures var w' := RotateStep(w, r, q, secret); CodeInv(w') && Accrues(w, w')
  {
    hide *;
    CodeInvParts(w);
    if Rotatable(w.sessions, q.refresh.token.session, q.refresh.token, q.at) {
      RotateReady(w, r, q);
      NamedIsSigned(w, q.refresh.token.session, q.jti);
      RotateLinks(w, r, q, secret);
      RotateAnswers(w, r, q, secret);
      LinkIssues(w, RotateStep(w, r, q, secret), r, q.refresh.token.session, q.jti);
    } else {
      RotateRefused(w, r, q, secret);
      RefusalIssues(w, r);
    }
  }

  // ---- every step -----------------------------------------------------------------------------------------

  /** All that is kept of the OAuth server. */
  ghost predicate Sound(w: World) {
    R.Inv(w) && F.FlowInv(w) && CodeInv(w)
  }

  lemma AccruesIsReflexive(w: World)
    ensures Accrues(w, w)
  {
  }

  lemma SoundParts(w: World)
    requires Sound(w)
    ensures R.ChainsOk(w) && R.RowsOk(w) && F.CodesOk(w) && F.TokensOk(w) && CodeInv(w)
    ensures w.clients.Keys <= w.minted
  {
  }

  lemma AdvanceIssues(w: World, r: Id, c: Choice)
    requires Sound(w) && r in w.requests
    ensures CodeInv(Advance(w, r, c)) && Accrues(w, Advance(w, r, c))
  {
    hide *;
    SoundParts(w);
    AccruesIsReflexive(w);
    AdvanceByKind(w, r, c);
    match w.requests[r]
    case GetStore(req, session) => if c.drawn !in w.minted { StoreIssues(w, r, req, session, c.drawn); }
    case PostSkip(ticket, user, covering) => SkipIssues(w, r, ticket, user, covering);
    case PostWrite(ticket, pending) => WriteIssues(w, r, ticket, pending);
    case PostTake(ticket, allow, browser) => SubmitIssues(w, r, ticket, allow, browser);
    case StoreCode(record) => if c.drawn !in w.minted { CodeIssues(w, r, record, c.drawn); }
    case Complete(user, req, _) => if c.drawn !in w.minted { UpsertIssues(w, r, user, req, c.drawn); }
    case ExTake(p) => TakeCodeIssues(w, r, p);
    case ExSign(code, record) => if c.drawn !in w.minted { SignFirstIssues(w, r, code, record, c.drawn); }
    case ExInsert(code, record, jti, exp, at) =>
      if c.drawn !in w.minted { ExchangeIssues(w, r, code, record, jti, exp, at, c); }
    case RfSign(p, row, grant, scopes) =>
      if c.drawn !in w.minted { SignNextIssues(w, r, p, row, grant, scopes, c.drawn); }
    case RfRotate(_, _, _, _, _, _) => RotateIssues(w, r, w.requests[r], c.secret);
    case RfDenySet(jti, exp, ttlSec, at, outcome) => DenyIssues(w, r, jti, exp, ttlSec, at, outcome);
    case _ => ObserveIssues(w, r, c);
  }

  lemma ForgetIssues(w: World, w': World)
    requires CodeInv(w) && OnlyForgets(w, w')
    ensures CodeInv(w') && Accrues(w, w')
  {
    forall x | x in w'.requests ensures IssueOk(w', x, w'.requests[x]) {
      if x in w.requests { IssueStays(w, w', x, w.requests[x]); }
    }
    ChainsFrame(w, w');
    RowsFrame(w, w');
    forall id | id in w'.past.openedBy ensures OpenedOk(w', id) {
      assert OpenedOk(w, id);
      var x := w.past.redeemer[w.past.openedBy[id]];
      assert x in w'.requests && w'.requests[x].Done?;
    }
  }

  lemma StepIssues(w: World, e: Event)
    requires Sound(w)
    ensures CodeInv(Step(w, e)) && Accrues(w, Step(w, e))
  {
    if !e.Go? {
      hide *;
      SoundParts(w);
      OutsideOnlyForgets(w, e);
      ForgetIssues(w, Step(w, e));
    } else if e.request in w.requests {
      assert Step(w, e) == Advance(w, e.request, e.choice);
      hide *;
      SoundParts(w);
      AdvanceIssues(w, e.request, e.choice);
    } else {
      assert Step(w, e) == w;
      hide *;
      SoundParts(w);
      AccruesIsReflexive(w);
    }
  }

  lemma StepSound(w: World, e: Event)
    requires Sound(w)
    ensures Sound(Step(w, e))
    ensures R.Later(w, Step(w, e)) && F.Grown(w, Step(w, e)) && Accrues(w, Step(w, e))
  {
    R.StepKeeps(w, e);
    F.StepFlows(w, e);
    StepIssues(w, e);
  }
}
