/** How long a ticket or a code can be found: its lifetime, unless a login's write brings a ticket back without one. */
module OauthLifetimes {
  import opened Wrappers
  import opened Config
  import opened Scopes
  import opened OauthWorld
  import F = OauthConsent
  import T = OauthTickets
  import C = OauthCodes
  import A = OauthAuthorizations

  // ---- steps that leave codes alone -----------------------------------------------------------------------

  predicate SameCodes(w: World, w': World) {
    w'.codes == w.codes && w'.now == w.now
  }

  /** Whatever is stored under a value minted before was stored there before. */
  predicate OnlyOldCodes(w: World, w': World, code: Id) {
    code in w'.codes ==> code in w.codes && w'.codes[code] == w.codes[code]
  }

  lemma SameIsOld(w: World, w': World, code: Id)
    requires SameCodes(w, w')
    ensures OnlyOldCodes(w, w', code) && w'.now == w.now
  {
  }

  lemma CodeCommandsAge(w: World, r: Id, record: CodeRecord, drawn: Id, p: ExchangeParams, code: Id)
    ensures drawn != code ==> OnlyOldCodes(w, IssueCode(w, r, record, drawn), code)
    ensures OnlyOldCodes(w, TakeCode(w, r, p), code)
    ensures IssueCode(w, r, record, drawn).now == w.now && TakeCode(w, r, p).now == w.now
  {
  }

  lemma OthersAside(w: World, r: Id, c: Choice)
    requires r in w.requests && !Touches(w.requests[r]).Codes?
    ensures SameCodes(w, Advance(w, r, c))
  {
    hide Advance, Touches;
    AdvanceOutside(w, r, c);
  }

  lemma AdvanceAges(w: World, r: Id, c: Choice, code: Id)
    requires r in w.requests && code in w.minted
    ensures OnlyOldCodes(w, Advance(w, r, c), code) && Advance(w, r, c).now == w.now
  {
    hide Advance, IssueCode, TakeCode, SameCodes;
    AdvanceByKind(w, r, c);
    var q := w.requests[r];
    if q.StoreCode? {
      CodeCommandsAge(w, r, q.record, c.drawn, ExchangeParams(0, "", 0, "", None), code);
    } else if q.ExTake? {
      CodeCommandsAge(w, r, CodeRecord(0, 0, 0, "", {}, NoDigest(""), ""), 0, q.exchange, code);
    } else {
      OthersAside(w, r, c);
      SameIsOld(w, Advance(w, r, c), code);
    }
  }

  lemma CodeAges(w: World, e: Event, code: Id)
    requires code in w.minted
    ensures OnlyOldCodes(w, Step(w, e), code)
  {
    if !e.Go? {
      OutsideOnlyForgets(w, e);
    } else if e.request in w.requests {
      hide Advance;
      AdvanceAges(w, e.request, e.choice, code);
    }
  }

  // ---- codes ----------------------------------------------------------------------------------------------

  /** The event that stores an authorization code. */
  predicate Issues(w: World, e: Event, code: Id) {
    && e.Go? && e.request in w.requests && w.requests[e.request].StoreCode?
    && e.choice.drawn == code && code !in w.minted
  }

  lemma IssuedWithLifetime(w: World, e: Event, code: Id)
    requires Issues(w, e, code)
    ensures var w' := Step(w, e);
            && code in w'.minted && code in w'.codes
            && w'.codes[code].until == Some(w.now + Ms(AUTH_CODE_TTL_SEC))
  {
    AdvanceByKind(w, e.request, e.choice);
    hide Advance;
  }

  lemma {:induction false} CodesOnlyAge(w: World, events: seq<Event>, code: Id)
    requires C.Sound(w) && code in w.minted
    ensures OnlyOldCodes(w, Run(w, events), code)
    decreases |events|
  {
    if events != [] {
      var before := Run(w, events[..|events| - 1]);
      CodesOnlyAge(w, events[..|events| - 1], code);
      A.RunSound(w, events[..|events| - 1]);
      CodeAges(before, events[|events| - 1], code);
    }
  }

  /** A code can be redeemed only within its lifetime, counted from when it was stored. */
  lemma CodeFoundOnlyInTime(audience: string, events: seq<Event>, i: nat, j: nat, code: Id)
    requires i < j <= |events| && Issues(At(audience, events, i), events[i], code)
    requires Get(At(audience, events, j).codes, code, At(audience, events, j).now).Some?
    ensures At(audience, events, j).now < At(audience, events, i).now + Ms(AUTH_CODE_TTL_SEC)
  {
    hide C.Sound, F.Grown, C.Accrues, Step, Issues;
    AtNext(audience, events, i);
    IssuedWithLifetime(At(audience, events, i), events[i], code);
    var w := At(audience, events, i + 1);
    A.AlwaysSound(audience, events[..i + 1]);
    assert events[..j] == events[..i + 1] + events[i + 1..j];
    RunSplits(Start(audience), events[..i + 1], events[i + 1..j]);
    CodesOnlyAge(w, events[i + 1..j], code);
  }

  // ---- tickets --------------------------------------------------------------------------------------------

  /** A login's write onto a ticket that is no longer there, consumed or expired. */
  predicate WritesLate(w: World, e: Event, t: Id) {
    T.Rewrites(w, e, t) && !T.Live(w, t)
  }

  predicate OnlyOldLifetime(w: World, w': World, t: Id) {
    t in w'.tickets ==> t in w.tickets && w'.tickets[t].until == w.tickets[t].until
  }

  lemma TicketCommandsAge(w: World, r: Id, req: AuthRequest, session: Option<Id>, drawn: Id, t: Id)
    ensures drawn != t ==> OnlyOldLifetime(w, StoreTicket(w, r, req, session, drawn), t)
  {
  }

  lemma WriteAges(w: World, r: Id, ticket: Id, pending: Pending, t: Id)
    ensures ticket != t || T.Live(w, t) ==> OnlyOldLifetime(w, WriteTicket(w, r, ticket, pending), t)
  {
  }

  lemma TakesAge(w: World, r: Id, ticket: Id, user: Id, covering: Id, allow: bool, browser: Option<Id>, t: Id)
    ensures OnlyOldLifetime(w, SkipConsent(w, r, ticket, user, covering), t)
    ensures OnlyOldLifetime(w, SubmitConsent(w, r, ticket, allow, browser), t)
  {
  }

  lemma AdvanceAgesTicket(w: World, r: Id, c: Choice, t: Id)
    requires r in w.requests && t in w.minted && !WritesLate(w, Go(r, c), t)
    ensures OnlyOldLifetime(w, Advance(w, r, c), t)
  {
    hide Advance, StoreTicket, WriteTicket, SkipConsent, SubmitConsent, T.Live, T.SameTickets;
    AdvanceByKind(w, r, c);
    var q := w.requests[r];
    if q.GetStore? {
      TicketCommandsAge(w, r, q.req, q.session, c.drawn, t);
    } else if q.PostWrite? {
      WriteAges(w, r, q.ticket, q.pending, t);
    } else if q.PostSkip? {
      TakesAge(w, r, q.ticket, q.user, q.covering, false, None, t);
    } else if q.PostTake? {
      TakesAge(w, r, q.ticket, 0, 0, q.allow, q.browser, t);
    } else {
      T.OthersAside(w, r, c);
      SameTicketsAge(w, Advance(w, r, c), t);
    }
  }

  lemma SameTicketsAge(w: World, w': World, t: Id)
    requires T.SameTickets(w, w')
    ensures OnlyOldLifetime(w, w', t)
  {
  }

  lemma TicketAges(w: World, e: Event, t: Id)
    requires t in w.minted && !WritesLate(w, e, t)
    ensures OnlyOldLifetime(w, Step(w, e), t)
  {
    if !e.Go? {
      OutsideOnlyForgets(w, e);
    } else if e.request in w.requests {
      hide Advance, WritesLate;
      AdvanceAgesTicket(w, e.request, e.choice, t);
    }
  }

  /** The event that creates a pending ticket. */
  predicate Creates(w: World, e: Event, t: Id) {
    && e.Go? && e.request in w.requests && w.requests[e.request].GetStore?
    && e.choice.drawn == t && t !in w.minted
  }

  lemma CreatedWithLifetime(w: World, e: Event, t: Id)
    requires Creates(w, e, t)
    ensures var w' := Step(w, e);
            && t in w'.minted && t in w'.tickets
            && w'.tickets[t].until == Some(w.now + Ms(PENDING_AUTH_TTL_SEC))
  {
    AdvanceByKind(w, e.request, e.choice);
    hide Advance;
  }

  /** No event from the i-th up to the j-th writes the ticket after it has gone. */
  ghost predicate NoLateWrite(audience: string, events: seq<Event>, i: nat, j: nat, t: Id)
    requires j <= |events|
  {
    forall k :: i <= k < j ==> !WritesLate(At(audience, events, k), events[k], t)
  }

  lemma NoLateWriteAt(audience: string, events: seq<Event>, i: nat, j: nat, t: Id)
    requires i < j <= |events| && NoLateWrite(audience, events, i, j, t)
    ensures NoLateWrite(audience, events, i, j - 1, t)
    ensures !WritesLate(At(audience, events, j - 1), events[j - 1], t)
  {
    hide At, WritesLate;
  }

  lemma {:induction false} TicketsOnlyAge(audience: string, events: seq<Event>, i: nat, j: nat, t: Id)
    requires i <= j <= |events| && t in At(audience, events, i).minted
    requires NoLateWrite(audience, events, i, j, t)
    ensures OnlyOldLifetime(At(audience, events, i), At(audience, events, j), t)
    decreases j
  {
    if i < j {
      NoLateWriteAt(audience, events, i, j, t);
      hide *;
      TicketsOnlyAge(audience, events, i, j - 1, t);
      StaysMinted(audience, events, i, j - 1, t);
      AtNext(audience, events, j - 1);
      TicketAges(At(audience, events, j - 1), events[j - 1], t);
      LifetimesChain(At(audience, events, i), At(audience, events, j - 1), At(audience, events, j), t);
    } else {
      LifetimeSame(At(audience, events, i), t);
    }
  }

  lemma LifetimeSame(w: World, t: Id)
    ensures OnlyOldLifetime(w, w, t)
  {
  }

  lemma LifetimesChain(a: World, b: World, c: World, t: Id)
    requires OnlyOldLifetime(a, b, t) && OnlyOldLifetime(b, c, t)
    ensures OnlyOldLifetime(a, c, t)
  {
  }

  lemma StaysMinted(audience: string, events: seq<Event>, i: nat, j: nat, t: Id)
    requires i <= j <= |events| && t in At(audience, events, i).minted
    ensures t in At(audience, events, j).minted
  {
    hide C.Sound, C.Accrues, At;
    A.Between(audience, events, i, j);
  }

  /** A ticket is found only within its lifetime, unless a login wrote it back after it was consumed or had expired. */
  lemma TicketFoundOnlyInTime(audience: string, events: seq<Event>, i: nat, j: nat, t: Id)
    requires i < j <= |events| && Creates(At(audience, events, i), events[i], t)
    requires T.Live(At(audience, events, j), t)
    requires NoLateWrite(audience, events, i + 1, j, t)
    ensures At(audience, events, j).now < At(audience, events, i).now + Ms(PENDING_AUTH_TTL_SEC)
  {
    hide WritesLate, Step, Creates;
    AtNext(audience, events, i);
    CreatedWithLifetime(At(audience, events, i), events[i], t);
    TicketsOnlyAge(audience, events, i + 1, j, t);
  }

  /** After such a write the ticket has no lifetime: it is there however much time passes. */
  lemma LateWriteNeverExpires(w: World, e: Event, t: Id, ms: nat)
    requires WritesLate(w, e, t)
    ensures T.Live(Step(Step(w, e), Tick(ms)), t)
  {
    AdvanceByKind(w, e.request, e.choice);
    hide Advance;
  }
}
