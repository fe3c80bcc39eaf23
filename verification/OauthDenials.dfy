/**
 * The course of one access token: held by the request that signed it, installed in one connection's row, owed a denial
 * by the one request that replaced it, denied. It goes through these once, so a deny entry is never written again, and
 * what it and the grant's marker promise bounds every continuation of a run.
 */
module OauthDenials {
  import opened Wrappers
  import opened Config
  import opened OauthWorld
  import R = OauthRotation
  import F = OauthConsent
  import C = OauthCodes
  import A = OauthAuthorizations
  import V = OauthRevocations

  predicate Holds(q: Request, jti: Id) {
    (q.ExStamp? || q.ExInsert? || q.RfStamp? || q.RfRotate?) && q.jti == jti
  }

  predicate Denies(q: Request, jti: Id) {
    (q.RfDenyStamp? || q.RfDenySet?) && q.retiring == jti
  }

  predicate Holder(w: World, r: Id, jti: Id) {
    r in w.requests && Holds(w.requests[r], jti)
  }

  predicate Denier(w: World, r: Id, jti: Id) {
    r in w.requests && Denies(w.requests[r], jti)
  }

  predicate Installed(w: World, id: Id, jti: Id) {
    id in w.past.chain && w.past.chain[id] != [] && R.Last(w.past.chain[id]).jti == jti
  }

  ghost predicate Unheld(w: World, jti: Id) {
    forall r :: !Holder(w, r, jti)
  }

  ghost predicate Uninstalled(w: World, jti: Id) {
    forall id :: !Installed(w, id, jti)
  }

  ghost predicate Unowed(w: World, jti: Id) {
    forall r :: !Denier(w, r, jti)
  }

  /** At most one request holds the token, one row has it, one request owes its denial; and only one of these at a time. */
  ghost predicate Course(w: World, jti: Id) {
    && (forall a, b :: Holder(w, a, jti) && Holder(w, b, jti) ==> a == b)
    && (forall a, b :: Installed(w, a, jti) && Installed(w, b, jti) ==> a == b)
    && (forall a, b :: Denier(w, a, jti) && Denier(w, b, jti) ==> a == b)
    && (jti !in w.past.signed ==> Unheld(w, jti) && Uninstalled(w, jti) && Unowed(w, jti) && jti !in w.denied)
    && (Unheld(w, jti) || (Uninstalled(w, jti) && Unowed(w, jti) && jti !in w.denied))
    && (Uninstalled(w, jti) || (Unowed(w, jti) && jti !in w.denied))
    && (Unowed(w, jti) || jti !in w.denied)
  }

  // ---- the moves of a token -------------------------------------------------------------------------------

  /** Nothing new about this token. */
  ghost predicate Fades(w: World, w': World, jti: Id) {
    && (jti in w.past.signed ==> jti in w'.past.signed)
    && (forall r :: Holder(w', r, jti) ==> Holder(w, r, jti))
    && (forall id :: Installed(w', id, jti) ==> Installed(w, id, jti))
    && (forall r :: Denier(w', r, jti) ==> Denier(w, r, jti))
    && (jti in w'.denied <==> jti in w.denied)
    && (jti in w.denied ==> w'.denied[jti] == w.denied[jti])
  }

  lemma FadesKeeps(w: World, w': World, jti: Id)
    requires Course(w, jti) && Fades(w, w', jti)
    ensures Course(w', jti)
  {
    hide Holder, Denier, Installed;
  }

  ghost predicate OthersFade(w: World, w': World, r: Id) {
    && r in w'.requests && w'.requests == w.requests[r := w'.requests[r]]
    && (forall j :: j in w.past.signed ==> j in w'.past.signed)
  }

  /** The request's step keeps rows and denials, and what it goes on to hold or owe it held or owed already. */
  lemma QuietFades(w: World, w': World, r: Id, jti: Id)
    requires OthersFade(w, w', r) && r in w.requests
    requires w'.past.chain == w.past.chain && w'.denied == w.denied
    requires Holds(w'.requests[r], jti) ==> Holds(w.requests[r], jti)
    requires Denies(w'.requests[r], jti) ==> Denies(w.requests[r], jti)
    ensures Fades(w, w', jti)
  {
  }

  lemma ItselfFades(w: World, jti: Id)
    ensures Fades(w, w, jti)
  {
  }

  lemma ForgetFades(w: World, w': World, jti: Id)
    requires OnlyForgets(w, w')
    ensures Fades(w, w', jti)
  {
  }

  lemma OthersSame(w: World, w': World, r: Id, jti: Id)
    requires OthersFade(w, w', r) && r in w.requests
    ensures forall x :: x != r ==> (Holder(w', x, jti) <==> Holder(w, x, jti))
    ensures forall x :: x != r ==> (Denier(w', x, jti) <==> Denier(w, x, jti))
    ensures Holder(w', r, jti) <==> Holds(w'.requests[r], jti)
    ensures Denier(w', r, jti) <==> Denies(w'.requests[r], jti)
  {
    hide Holds, Denies;
  }

  lemma RowsSame(w: World, w': World, id: Id, jti: Id)
    requires w'.past.chain == w.past.chain || (id in w'.past.chain && w'.past.chain == w.past.chain[id := w'.past.chain[id]])
    ensures forall x :: x != id ==> (Installed(w', x, jti) <==> Installed(w, x, jti))
    ensures w'.past.chain == w.past.chain ==> forall x :: Installed(w', x, jti) <==> Installed(w, x, jti)
  {
  }

  lemma SignedCourse(w: World, w': World, r: Id, drawn: Id, jti: Id)
    requires Course(w, jti) && OthersFade(w, w', r) && r in w.requests && drawn !in w.past.signed
    requires w'.past.chain == w.past.chain && w'.denied == w.denied && drawn in w'.past.signed
    requires forall j :: Holds(w'.requests[r], j) <==> j == drawn
    requires forall j :: !Denies(w'.requests[r], j)
    ensures Course(w', jti) && (jti in w.denied ==> jti in w'.denied && w'.denied[jti] == w.denied[jti])
  {
    OthersSame(w, w', r, jti);
    RowsSame(w, w', 0, jti);
    hide Holds, Denies, Holder, Denier, Installed;
  }

  /** The token the request holds is put at the end of a chain; `retired`, if any, is what stood there. */
  lemma InstalledCourse(w: World, w': World, r: Id, id: Id, held: Id, retired: Option<Id>, jti: Id)
    requires Course(w, jti) && OthersFade(w, w', r) && Holder(w, r, held) && w'.denied == w.denied
    requires id in w'.past.chain && w'.past.chain == w.past.chain[id := w'.past.chain[id]]
    requires forall j :: Installed(w', id, j) <==> j == held
    requires retired.Some? ==> Installed(w, id, retired.value)
    requires forall j :: !Holds(w'.requests[r], j)
    requires forall j :: Denies(w'.requests[r], j) <==> retired == Some(j)
    requires held in w.past.signed && (retired.Some? ==> retired.value in w.past.signed)
    ensures Course(w', jti) && (jti in w.denied ==> jti in w'.denied && w'.denied[jti] == w.denied[jti])
  {
    assert r in w.requests;
    OthersSame(w, w', r, jti);
    RowsSame(w, w', id, jti);
    hide Holds, Denies, Holder, Denier, Installed;
  }

  lemma DeniedCourse(w: World, w': World, r: Id, retiring: Id, end: nat, jti: Id)
    requires Course(w, jti) && OthersFade(w, w', r) && Denier(w, r, retiring) && w'.past.chain == w.past.chain
    requires w'.denied == w.denied[retiring := end] && retiring in w.past.signed
    requires forall j :: !Holds(w'.requests[r], j) && !Denies(w'.requests[r], j)
    ensures Course(w', jti) && (jti in w.denied ==> jti in w'.denied && w'.denied[jti] == w.denied[jti])
  {
    assert r in w.requests;
    OthersSame(w, w', r, jti);
    RowsSame(w, w', 0, jti);
    hide Holds, Denies, Holder, Denier, Installed;
  }

  // ---- every step -----------------------------------------------------------------------------------------

  /** The token keeps its course, and a deny entry once written stays as it is. */
  ghost predicate Runs(w: World, w': World, jti: Id) {
    Course(w', jti) && (jti in w.denied ==> jti in w'.denied && w'.denied[jti] == w.denied[jti])
  }

  lemma FadesRuns(w: World, w': World, jti: Id)
    requires Course(w, jti) && Fades(w, w', jti)
    ensures Runs(w, w', jti)
  {
    FadesKeeps(w, w', jti);
    hide Course, Holder, Denier, Installed;
  }

  predicate Quiet(q: Request) {
    !q.ExSign? && !q.RfSign? && !q.ExInsert? && !q.RfRotate? && !q.RfDenySet?
  }

  lemma ObserveNext(w: World, q: Request, c: Choice, jti: Id)
    requires Observes(q)
    ensures Holds(Observe(w, q, c), jti) ==> Holds(q, jti)
    ensures Denies(Observe(w, q, c), jti) ==> Denies(q, jti)
  {
    hide Validate, Covering, Get, Matches, DenyTtl;
  }

  lemma MoveOthersFade(w: World, r: Id, q: Request)
    ensures OthersFade(w, Move(w, r, q), r) && Move(w, r, q).requests[r] == q
    ensures Move(w, r, q).past == w.past && Move(w, r, q).denied == w.denied
  {
  }

  lemma ObserveRuns(w: World, r: Id, c: Choice, jti: Id)
    requires r in w.requests && Observes(w.requests[r]) && Course(w, jti)
    ensures Runs(w, Advance(w, r, c), jti)
  {
    hide *;
    AdvanceObserves(w, r, c);
    ObserveNext(w, w.requests[r], c, jti);
    MoveOthersFade(w, r, Observe(w, w.requests[r], c));
    QuietFades(w, Advance(w, r, c), r, jti);
    FadesRuns(w, Advance(w, r, c), jti);
  }

  /** The request moves to where it neither holds a token nor owes a denial. */
  predicate GoesOn(w: World, w': World, r: Id) {
    && r in w'.requests && w'.requests == w.requests[r := w'.requests[r]]
    && var q := w'.requests[r];
    !q.ExStamp? && !q.ExInsert? && !q.RfStamp? && !q.RfRotate? && !q.RfDenyStamp? && !q.RfDenySet?
  }

  lemma TicketGoesOn(w: World, r: Id, req: AuthRequest, session: Option<Id>, ticket: Id, pending: Pending)
    ensures GoesOn(w, StoreTicket(w, r, req, session, ticket), r) && GoesOn(w, WriteTicket(w, r, ticket, pending), r)
  {
    hide Get;
  }

  lemma ConsentGoesOn(w: World, r: Id, ticket: Id, user: Id, covering: Id, allow: bool, browser: Option<Id>)
    ensures GoesOn(w, SkipConsent(w, r, ticket, user, covering), r)
    ensures GoesOn(w, SubmitConsent(w, r, ticket, allow, browser), r)
  {
    hide Get, Approve;
  }

  lemma IssueGoesOn(w: World, r: Id, record: CodeRecord, code: Id)
    ensures GoesOn(w, IssueCode(w, r, record, code), r)
  {
  }

  lemma RedeemGoesOn(w: World, r: Id, p: ExchangeParams)
    ensures GoesOn(w, TakeCode(w, r, p), r)
  {
    hide Get, Redeemable;
  }

  lemma WriteGoesOn(w: World, r: Id, user: Id, req: AuthRequest, drawn: Id)
    ensures GoesOn(w, WriteGrant(w, r, user, req, drawn), r) && GoesOn(w, Move(w, r, Done(Refused)), r)
  {
    hide GrantIdFor, GrantedBefore;
  }

  lemma UpsertGoesOn(w: World, r: Id, user: Id, req: AuthRequest, drawn: Id)
    ensures GoesOn(w, UpsertGrant(w, r, user, req, drawn), r)
  {
    hide GoesOn, WriteGrant, Move;
    WriteGoesOn(w, r, user, req, drawn);
  }

  lemma GoesOnBare(w: World, w': World, r: Id, jti: Id)
    requires GoesOn(w, w', r)
    ensures r in w'.requests && w'.requests == w.requests[r := w'.requests[r]]
    ensures !Holds(w'.requests[r], jti) && !Denies(w'.requests[r], jti)
  {
  }

  /** Steps that only store, take or write something about consent and codes. */
  lemma StoreNext(w: World, r: Id, c: Choice, q: Request)
    requires r in w.requests && w.requests[r] == q && Quiet(q) && !Observes(q)
    ensures Advance(w, r, c) == w || GoesOn(w, Advance(w, r, c), r)
  {
    hide Advance, GoesOn, StoreTicket, WriteTicket, SkipConsent, SubmitConsent, IssueCode, TakeCode, UpsertGrant;
    AdvanceByKind(w, r, c);
    match q
    case GetStore(req, session) => TicketGoesOn(w, r, req, session, c.drawn, Pending(req, session));
    case PostWrite(ticket, pending) => TicketGoesOn(w, r, pending.req, None, ticket, pending);
    case PostSkip(ticket, user, covering) => ConsentGoesOn(w, r, ticket, user, covering, false, None);
    case PostTake(ticket, allow, browser) => ConsentGoesOn(w, r, ticket, 0, 0, allow, browser);
    case StoreCode(record) => IssueGoesOn(w, r, record, c.drawn);
    case ExTake(p) => RedeemGoesOn(w, r, p);
    case Complete(user, req, _) => UpsertGoesOn(w, r, user, req, c.drawn);
  }

  lemma OutsideFades(w: World, w': World, r: Id, part: Part)
    requires Outside(w, w', part) && !part.Connections? && !part.Signatures? && !part.Denials?
    requires r in w'.requests && w'.requests == w.requests[r := w'.requests[r]]
    ensures OthersFade(w, w', r) && w'.past.chain == w.past.chain && w'.denied == w.denied
  {
  }

  lemma QuietTouches(q: Request)
    requires Quiet(q)
    ensures !Touches(q).Connections? && !Touches(q).Signatures? && !Touches(q).Denials?
  {
  }

  lemma StoreRuns(w: World, r: Id, c: Choice, jti: Id)
    requires r in w.requests && Quiet(w.requests[r]) && !Observes(w.requests[r]) && Course(w, jti)
    ensures Runs(w, Advance(w, r, c), jti)
  {
    hide *;
    var w' := Advance(w, r, c);
    StoreNext(w, r, c, w.requests[r]);
    if w' == w {
      ItselfFades(w, jti);
    } else {
      GoesOnBare(w, w', r, jti);
      AdvanceOutside(w, r, c);
      QuietTouches(w.requests[r]);
      OutsideFades(w, w', r, Touches(w.requests[r]));
      QuietFades(w, w', r, jti);
    }
    FadesRuns(w, w', jti);
  }

  lemma SignStands(w: World, r: Id, c: Choice)
    requires r in w.requests && (w.requests[r].ExSign? || w.requests[r].RfSign?) && c.drawn !in w.minted
    ensures var w' := Advance(w, r, c);
            && OthersFade(w, w', r) && w'.past.chain == w.past.chain && w'.denied == w.denied
            && c.drawn in w'.past.signed
            && (forall j :: Holds(w'.requests[r], j) <==> j == c.drawn)
            && (forall j :: !Denies(w'.requests[r], j))
  {
    AdvanceByKind(w, r, c);
    hide Advance;
  }

  lemma SignRuns(w: World, r: Id, c: Choice, jti: Id)
    requires r in w.requests && (w.requests[r].ExSign? || w.requests[r].RfSign?) && Course(w, jti)
    requires w.past.signed.Keys <= w.minted
    ensures Runs(w, Advance(w, r, c), jti)
  {
    if c.drawn in w.minted {
      assert Advance(w, r, c) == w;
      hide *;
      ItselfFades(w, jti);
      FadesRuns(w, w, jti);
    } else {
      hide Advance, Course, OthersFade, Holds, Denies;
      SignStands(w, r, c);
      SignedCourse(w, Advance(w, r, c), r, c.drawn, jti);
    }
  }

  lemma RefusedRuns(w: World, r: Id, jti: Id)
    requires r in w.requests && Course(w, jti)
    ensures Runs(w, Move(w, r, Done(Refused)), jti)
  {
    MoveOthersFade(w, r, Done(Refused));
    QuietFades(w, Move(w, r, Done(Refused)), r, jti);
    hide *;
    FadesRuns(w, Move(w, r, Done(Refused)), jti);
  }

  lemma RowStands(w: World, r: Id, code: Id, record: CodeRecord, row: GrantSession)
    ensures var w' := InsertRow(w, r, code, record, row);
            var id := row.current.session;
            && OthersFade(w, w', r) && w'.denied == w.denied && id in w'.past.chain
            && w'.past.chain == w.past.chain[id := w'.past.chain[id]]
            && (forall j :: Installed(w', id, j) <==> j == row.jti)
            && (forall j :: !Holds(w'.requests[r], j) && !Denies(w'.requests[r], j))
  {
  }

  lemma InsertRuns(w: World, r: Id, q: Request, c: Choice, jti: Id)
    requires r in w.requests && w.requests[r] == q && q.ExInsert? && q.jti in w.past.signed && Course(w, jti)
    ensures Runs(w, OpenSession(w, r, q.code, q.record, q.jti, q.exp, q.at, c), jti)
  {
    assert Holder(w, r, q.jti);
    hide Course, OthersFade, Holds, Denies, Holder, Installed, InsertRow, Move;
    if q.record.grantId in w.grants {
      var row := FirstRow(q.record, RefreshToken(c.drawn, c.secret), q.jti, q.exp, q.at);
      RowStands(w, r, q.code, q.record, row);
      InstalledCourse(w, InsertRow(w, r, q.code, q.record, row), r, c.drawn, q.jti, None, jti);
    } else {
      RefusedRuns(w, r, jti);
    }
  }

  lemma RotateStands(w: World, r: Id, q: Request, secret: Id)
    requires q.RfRotate? && Rotatable(w.sessions, q.refresh.token.session, q.refresh.token, q.at)
    ensures var w' := RotateStep(w, r, q, secret);
            var id := q.refresh.token.session;
            && OthersFade(w, w', r) && w'.denied == w.denied && id in w'.past.chain
            && w'.past.chain == w.past.chain[id := w'.past.chain[id]]
            && (forall j :: Installed(w', id, j) <==> j == q.jti)
            && (forall j :: !Holds(w'.requests[r], j)) && (forall j :: Denies(w'.requests[r], j) <==> j == q.row.jti)
  {
    hide Rotated;
  }

  lemma RetiringIsInstalled(w: World, r: Id, q: Request)
    requires R.Inv(w) && r in w.requests && w.requests[r] == q && q.RfRotate?
    requires Rotatable(w.sessions, q.refresh.token.session, q.refresh.token, q.at)
    ensures Installed(w, q.refresh.token.session, q.row.jti) && q.jti in w.past.signed && q.row.jti in w.past.signed
  {
    assert R.RequestOk(w, q);
    R.ReadNamesTheRetiringPair(w, q);
    assert R.RowOk(w, q.refresh.token.session, w.sessions[q.refresh.token.session]);
  }

  lemma RotateFails(w: World, r: Id, q: Request, secret: Id)
    requires q.RfRotate? && !Rotatable(w.sessions, q.refresh.token.session, q.refresh.token, q.at)
    ensures RotateStep(w, r, q, secret) == Move(w, r, Done(Refused))
  {
  }

  lemma HoldsItself(w: World, r: Id, q: Request)
    requires r in w.requests && w.requests[r] == q && q.RfRotate?
    ensures Holder(w, r, q.jti)
  {
  }

  lemma RotateRuns(w: World, r: Id, q: Request, secret: Id, jti: Id)
    requires R.Inv(w) && r in w.requests && w.requests[r] == q && q.RfRotate? && Course(w, jti)
    ensures Runs(w, RotateStep(w, r, q, secret), jti)
  {
    hide *;
    var id := q.refresh.token.session;
    if Rotatable(w.sessions, id, q.refresh.token, q.at) {
      RotateStands(w, r, q, secret);
      RetiringIsInstalled(w, r, q);
      HoldsItself(w, r, q);
      InstalledCourse(w, RotateStep(w, r, q, secret), r, id, q.jti, Some(q.row.jti), jti);
      RunsMade(w, RotateStep(w, r, q, secret), jti);
    } else {
      RotateFails(w, r, q, secret);
      RefusedRuns(w, r, jti);
    }
  }

  lemma RunsMade(w: World, w': World, jti: Id)
    requires Course(w', jti) && (jti in w.denied ==> jti in w'.denied && w'.denied[jti] == w.denied[jti])
    ensures Runs(w, w', jti)
  {
  }

  lemma DenyRuns(w: World, r: Id, q: Request, jti: Id)
    requires r in w.requests && w.requests[r] == q && q.RfDenySet? && q.retiring in w.past.signed && Course(w, jti)
    ensures Runs(w, Deny(w, r, q.retiring, q.ttlSec, q.outcome), jti)
  {
    var w' := Deny(w, r, q.retiring, q.ttlSec, q.outcome);
    assert Denier(w, r, q.retiring) && OthersFade(w, w', r);
    assert w'.requests[r] == Done(q.outcome);
    DeniedCourse(w, w', r, q.retiring, w.now + Ms(q.ttlSec), jti);
  }

  lemma SignedParts(w: World, r: Id)
    requires R.Inv(w) && r in w.requests
    ensures var q := w.requests[r];
            && w.past.signed.Keys <= w.minted
            && (q.ExInsert? ==> q.jti in w.past.signed) && (q.RfDenySet? ==> q.retiring in w.past.signed)
  {
    assert R.RequestOk(w, w.requests[r]);
    assert forall j :: j in w.past.signed ==> j in w.minted;
  }

  lemma AdvanceRuns(w: World, r: Id, c: Choice, jti: Id)
    requires R.Inv(w) && r in w.requests && Course(w, jti)
    ensures Runs(w, Advance(w, r, c), jti)
  {
    var q := w.requests[r];
    if Quiet(q) {
      hide *;
      if Observes(q) { ObserveRuns(w, r, c, jti); } else { StoreRuns(w, r, c, jti); }
    } else {
      WriteRuns(w, r, c, q, jti);
    }
  }

  lemma WriteRuns(w: World, r: Id, c: Choice, q: Request, jti: Id)
    requires R.Inv(w) && r in w.requests && w.requests[r] == q && !Quiet(q) && Course(w, jti)
    ensures Runs(w, Advance(w, r, c), jti)
  {
    hide R.Inv, Runs, Course, Advance, OpenSession, RotateStep, Deny, SignFirst, SignNext, Fades;
    SignedParts(w, r);
    AdvanceByKind(w, r, c);
    ItselfFades(w, jti);
    FadesRuns(w, w, jti);
    if q.ExInsert? {
      InsertRuns(w, r, q, c, jti);
    } else if q.RfRotate? {
      RotateRuns(w, r, q, c.secret, jti);
    } else if q.RfDenySet? {
      DenyRuns(w, r, q, jti);
    } else {
      SignRuns(w, r, c, jti);
    }
  }

  lemma StepRuns(w: World, e: Event, jti: Id)
    requires R.Inv(w) && Course(w, jti)
    ensures Runs(w, Step(w, e), jti)
  {
    if !e.Go? {
      hide *;
      OutsideOnlyForgets(w, e);
      ForgetFades(w, Step(w, e), jti);
      FadesRuns(w, Step(w, e), jti);
    } else if e.request in w.requests {
      assert Step(w, e) == Advance(w, e.request, e.choice);
      hide *;
      AdvanceRuns(w, e.request, e.choice, jti);
    } else {
      assert Step(w, e) == w;
      hide *;
      ItselfFades(w, jti);
      FadesRuns(w, w, jti);
    }
  }

  lemma RunsOn(a: World, b: World, c: World, jti: Id)
    requires Runs(a, b, jti) && Runs(b, c, jti)
    ensures Course(b, jti) && Runs(a, c, jti)
  {
    hide Course;
  }

  lemma {:induction false} RunRuns(w: World, events: seq<Event>, jti: Id)
    requires R.Inv(w) && Course(w, jti)
    ensures R.Inv(Run(w, events)) && Runs(w, Run(w, events), jti)
    decreases |events|
  {
    if events == [] {
      ItselfFades(w, jti);
      FadesRuns(w, w, jti);
    } else {
      var before := Run(w, events[..|events| - 1]);
      assert Run(w, events) == Step(before, events[|events| - 1]);
      hide R.Inv, Runs, Course, Run, Step;
      RunRuns(w, events[..|events| - 1], jti);
      R.StepKeeps(before, events[|events| - 1]);
      RunsTells(w, before, jti);
      StepRuns(before, events[|events| - 1], jti);
      RunsOn(w, before, Run(w, events), jti);
    }
  }

  lemma RunsTells(w: World, w': World, jti: Id)
    requires Runs(w, w', jti)
    ensures Course(w', jti)
  {
  }

  lemma StartCourse(audience: string, jti: Id)
    ensures R.Inv(Start(audience)) && Course(Start(audience), jti)
  {
  }

  /** A deny entry, once there at some point of a run, is the same at every later point. */
  lemma DenyEntryStays(audience: string, events: seq<Event>, i: nat, j: nat, jti: Id)
    requires i <= j <= |events| && jti in At(audience, events, i).denied
    ensures jti in At(audience, events, j).denied
    ensures At(audience, events, j).denied[jti] == At(audience, events, i).denied[jti]
  {
    StartCourse(audience, jti);
    assert events[..j] == events[..i] + events[i..j];
    RunSplits(Start(audience), events[..i], events[i..j]);
    hide R.Inv, Course, Run;
    RunRuns(Start(audience), events[..i], jti);
    RunsTells(Start(audience), At(audience, events, i), jti);
    RunRuns(At(audience, events, i), events[i..j], jti);
  }

  // ---- what a denied token can still do -------------------------------------------------------------------

  lemma WaitIsRun(w: World, ms: nat)
    ensures Run(w, [Tick(ms)]) == Step(w, Tick(ms))
  {
    assert [Tick(ms)][..0] == [];
  }

  /** Nothing that happens later makes what refuses the token now end earlier. */
  lemma RefusedAsLong(w: World, w': World, jti: Id)
    requires jti in w.denied && jti in w.past.signed && w.now <= w'.now
    requires jti in w'.denied && w'.denied[jti] == w.denied[jti]
    requires jti in w'.past.signed && w'.past.signed[jti] == w.past.signed[jti]
    requires V.MarksOk(w) && V.MarksAdvance(w, w') && Accepted(w', jti)
    ensures V.RefusedUntil(w, jti) <= w'.now
    ensures w.past.signed[jti].scopes != {} && Ms(Sec(w'.now)) < w.past.signed[jti].exp + Ms(CLOCK_TOLERANCE_SEC)
  {
    var g := w.past.signed[jti].grantId;
    if g in w.revoked {
      assert g in w.past.revokedAt && g in w'.past.revokedAt;
    }
  }

  /** The denied token at any later point of the run. */
  lemma AcceptedMeans(w: World, later: seq<Event>, jti: Id)
    requires R.Inv(w) && Course(w, jti) && V.MarksOk(w) && jti in w.denied && jti in w.past.signed
    requires Accepted(Run(w, later), jti)
    ensures w.past.signed[jti].scopes != {}
    ensures Ms(Sec(V.RefusedUntil(w, jti))) < w.past.signed[jti].exp + Ms(CLOCK_TOLERANCE_SEC)
  {
    var w' := Run(w, later);
    hide *;
    RunRuns(w, later, jti);
    EntryStays(w, w', jti);
    RunLater(w, later);
    V.LaterSignatures(w, w', jti);
    V.MarksLast(w, later);
    RefusedAsLong(w, w', jti);
    SecondsGrow(V.RefusedUntil(w, jti), w'.now);
  }

  lemma EntryStays(w: World, w': World, jti: Id)
    requires Runs(w, w', jti) && jti in w.denied
    ensures jti in w'.denied && w'.denied[jti] == w.denied[jti]
  {
  }

  lemma SecondsGrow(a: nat, b: nat)
    requires a <= b
    ensures Ms(Sec(a)) <= Ms(Sec(b))
  {
  }

  lemma LaterOn(a: World, b: World, c: World)
    requires R.Later(a, b) && R.Later(b, c)
    ensures R.Later(a, c)
  {
  }

  lemma LaterIsReflexive(w: World)
    ensures R.Later(w, w)
  {
  }

  lemma LaterNow(w: World, w': World)
    requires R.Later(w, w')
    ensures w.now <= w'.now
  {
  }

  lemma {:induction false} RunLater(w: World, events: seq<Event>)
    requires R.Inv(w)
    ensures R.Inv(Run(w, events)) && R.Later(w, Run(w, events)) && w.now <= Run(w, events).now
    decreases |events|
  {
    if events == [] {
      LaterIsReflexive(w);
    } else {
      var before := Run(w, events[..|events| - 1]);
      assert Run(w, events) == Step(before, events[|events| - 1]);
      hide *;
      RunLater(w, events[..|events| - 1]);
      R.StepKeeps(before, events[|events| - 1]);
      LaterOn(w, before, Run(w, events));
      LaterNow(w, Run(w, events));
    }
  }

  lemma DeniedIsSigned(w: World, jti: Id)
    requires C.Sound(w) && jti in w.denied
    ensures jti in w.past.signed && w.past.signed[jti].audience == w.audience
  {
    hide R.RequestsOk, R.ChainsOk, R.RowsOk, R.RetiredOk, R.SpentOk, C.CodeInv, F.Held;
    assert R.DeniedOk(w) && F.TokensOk(w);
    assert F.TokenOk(w, w.past.signed[jti]);
  }

  /**
   * A token denied in some run can be accepted at some later point of it, whatever happens from here on, if and only if
   * it carries a scope and what refuses it now, its entry or its grant's marker, ends within the verifier's tolerance.
   */
  lemma DeniedTokenRunsAgainExactly(audience: string, events: seq<Event>, jti: Id)
    requires jti in Run(Start(audience), events).denied
    ensures var w := Run(Start(audience), events);
            && jti in w.past.signed
            && ((exists later :: Accepted(Run(w, later), jti)) <==>
                  w.past.signed[jti].scopes != {}
                  && Ms(Sec(V.RefusedUntil(w, jti))) < w.past.signed[jti].exp + Ms(CLOCK_TOLERANCE_SEC))
  {
    var w := Run(Start(audience), events);
    StartCourse(audience, jti);
    A.AlwaysSound(audience, events);
    V.AlwaysMarked(audience, events);
    hide *;
    RunRuns(Start(audience), events, jti);
    RunsTells(Start(audience), w, jti);
    DeniedIsSigned(w, jti);
    if later :| Accepted(Run(w, later), jti) {
      AcceptedMeans(w, later, jti);
    }
    if w.past.signed[jti].scopes != {} {
      V.WaitingExactly(w, jti);
      if ms: nat :| Accepted(Step(w, Tick(ms)), jti) {
        WaitIsRun(w, ms);
      }
    }
  }
}
