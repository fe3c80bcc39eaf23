/** How often a pending ticket can be consumed: once, unless a login writes it back after it has gone. */
module OauthTickets {
  import opened Wrappers
  import opened Text
  import opened Scopes
  import opened Config
  import opened OauthWorld
  import F = OauthConsent
  import R = OauthRotation

  predicate Live(w: World, t: Id) {
    Get(w.tickets, t, w.now).Some?
  }

  function Times(w: World, t: Id): nat {
    if t in w.past.taken then w.past.taken[t] else 0
  }

  /** Consumed or still there to be consumed, at most once in all. */
  predicate AtMostOnce(w: World, t: Id) {
    Times(w, t) + (if Live(w, t) then 1 else 0) <= 1
  }

  /** A login's second command, SET with KEEPTTL, on the ticket it read a moment ago. */
  predicate Rewrites(w: World, e: Event, t: Id) {
    && e.Go? && e.request in w.requests
    && w.requests[e.request].PostWrite? && w.requests[e.request].ticket == t
  }

  /** ... after a consent form consumed it. */
  predicate Revives(w: World, e: Event, t: Id) {
    Rewrites(w, e, t) && !Live(w, t) && Times(w, t) == 1
  }

  /** Only tickets that were created have been consumed. */
  ghost predicate TakenOk(w: World) {
    w.past.taken.Keys <= w.past.drafts.Keys
  }

  ghost predicate SameTickets(w: World, w': World) {
    w'.tickets == w.tickets && w'.past.taken == w.past.taken && w'.past.drafts == w.past.drafts && w'.now == w.now
  }

  lemma SameIsReflexive(w: World)
    ensures SameTickets(w, w)
  {
  }

  lemma OthersAside(w: World, r: Id, c: Choice)
    requires r in w.requests && !Touches(w.requests[r]).Tickets?
    ensures SameTickets(w, Advance(w, r, c))
  {
    hide Advance, Touches;
    AdvanceOutside(w, r, c);
  }

  // ---- steps that touch them ------------------------------------------------------------------------------

  /** A ticket's count and its presence, before and after; once created, always created. */
  ghost predicate Counts(w: World, w': World, t: Id, times: nat, live: bool) {
    Times(w', t) == times && Live(w', t) == live
  }

  ghost predicate Accounted(w: World, w': World) {
    && w.past.drafts.Keys <= w'.past.drafts.Keys
    && w'.past.taken.Keys <= w.past.taken.Keys + w.tickets.Keys
  }

  lemma SameAccounted(w: World, w': World, t: Id)
    requires SameTickets(w, w')
    ensures Accounted(w, w') && Counts(w, w', t, Times(w, t), Live(w, t))
  {
  }

  lemma StoreCounts(w: World, r: Id, req: AuthRequest, session: Option<Id>, drawn: Id, t: Id)
    ensures var w' := StoreTicket(w, r, req, session, drawn);
            Accounted(w, w') && Counts(w, w', t, Times(w, t), Live(w, t) || t == drawn)
  {
  }

  lemma WriteCounts(w: World, r: Id, ticket: Id, pending: Pending, t: Id)
    ensures var w' := WriteTicket(w, r, ticket, pending);
            Accounted(w, w') && Counts(w, w', t, Times(w, t), Live(w, t) || t == ticket)
  {
  }

  lemma TakeCounts(w: World, ticket: Id, t: Id)
    ensures var w' := TakeTicket(w, ticket);
            Accounted(w, w')
            && Counts(w, w', t, Times(w, t) + (if t == ticket && Live(w, t) then 1 else 0), Live(w, t) && t != ticket)
  {
  }

  lemma SkipTakes(w: World, r: Id, ticket: Id, user: Id, covering: Id)
    ensures SameTickets(TakeTicket(w, ticket), SkipConsent(w, r, ticket, user, covering))
  {
  }

  lemma SubmitTakes(w: World, r: Id, ticket: Id, allow: bool, browser: Option<Id>)
    ensures SameTickets(TakeTicket(w, ticket), SubmitConsent(w, r, ticket, allow, browser))
  {
  }

  lemma TakenCounts(w: World, w': World, ticket: Id, t: Id)
    requires SameTickets(TakeTicket(w, ticket), w')
    ensures Accounted(w, w')
    ensures Counts(w, w', t, Times(w, t) + (if t == ticket && Live(w, t) then 1 else 0), Live(w, t) && t != ticket)
  {
    TakeCounts(w, ticket, t);
    SameAccounted(TakeTicket(w, ticket), w', t);
  }

  function TimesAfter(w: World, q: Request, t: Id): nat {
    Times(w, t) + (if (q.PostSkip? || q.PostTake?) && q.ticket == t && Live(w, t) then 1 else 0)
  }

  predicate LiveAfter(w: World, q: Request, c: Choice, t: Id) {
    if q.PostSkip? || q.PostTake? then Live(w, t) && t != q.ticket
    else Live(w, t) || (q.GetStore? && c.drawn == t && t !in w.minted) || (q.PostWrite? && q.ticket == t)
  }

  lemma AdvanceTallies(w: World, r: Id, c: Choice, t: Id)
    requires r in w.requests
    ensures var w' := Advance(w, r, c);
            Accounted(w, w') && Counts(w, w', t, TimesAfter(w, w.requests[r], t), LiveAfter(w, w.requests[r], c, t))
  {
    hide Advance, Observe, StoreTicket, WriteTicket, SkipConsent, SubmitConsent, TakeTicket, WriteGrant, IssueCode,
      TakeCode, SignFirst, SignNext, OpenSession, RotateStep, Deny, Move, Times, Live, Accounted, SameTickets;
    var q := w.requests[r];
    var w' := Advance(w, r, c);
    AdvanceByKind(w, r, c);
    match q
    case GetStore(req, session) =>
      if c.drawn !in w.minted { StoreCounts(w, r, req, session, c.drawn, t); }
      else { SameIsReflexive(w); SameAccounted(w, w, t); }
    case PostWrite(ticket, pending) => WriteCounts(w, r, ticket, pending, t);
    case PostSkip(ticket, user, covering) =>
      SkipTakes(w, r, ticket, user, covering);
      TakenCounts(w, w', ticket, t);
    case PostTake(ticket, allow, browser) =>
      SubmitTakes(w, r, ticket, allow, browser);
      TakenCounts(w, w', ticket, t);
    case _ =>
      OthersAside(w, r, c);
      SameAccounted(w, w', t);
  }

  lemma DrawnIsNew(w: World, t: Id)
    requires F.DraftsOk(w) && TakenOk(w) && t !in w.minted
    ensures Times(w, t) == 0
  {
  }

  lemma TakenKept(w: World, w': World)
    requires F.TicketsOk(w) && TakenOk(w) && Accounted(w, w')
    ensures TakenOk(w')
  {
    assert forall t :: t in w.tickets ==> t in w.past.drafts by {
      forall t | t in w.tickets ensures t in w.past.drafts { assert F.TicketOk(w, t, w.tickets[t].value); }
    }
    forall t | t in w'.past.taken.Keys ensures t in w'.past.drafts.Keys {
      assert t in w.past.taken.Keys || t in w.tickets.Keys;
    }
  }

  /** One request's step keeps a ticket's single use exactly when it does not revive the ticket. */
  lemma AdvanceCounts(w: World, r: Id, c: Choice, t: Id)
    requires r in w.requests && F.DraftsOk(w) && F.TicketsOk(w) && TakenOk(w) && AtMostOnce(w, t)
    ensures TakenOk(Advance(w, r, c))
    ensures AtMostOnce(Advance(w, r, c), t) <==> !Revives(w, Go(r, c), t)
  {
    hide Advance, F.DraftsOk, F.TicketsOk, TakenOk, Accounted, Times, Live;
    AdvanceTallies(w, r, c, t);
    TakenKept(w, Advance(w, r, c));
    if t !in w.minted { DrawnIsNew(w, t); }
  }

  lemma OutsideCounts(w: World, w': World, t: Id)
    requires TakenOk(w) && AtMostOnce(w, t) && OnlyForgets(w, w')
    ensures TakenOk(w') && AtMostOnce(w', t)
  {
  }

  /** Every event keeps a ticket's single use, except a revival, and a revival always breaks it. */
  lemma SingleUseKeptExactly(w: World, e: Event, t: Id)
    requires F.FlowInv(w) && TakenOk(w) && AtMostOnce(w, t)
    ensures TakenOk(Step(w, e))
    ensures AtMostOnce(Step(w, e), t) <==> !Revives(w, e, t)
  {
    if !e.Go? {
      OutsideOnlyForgets(w, e);
      hide Step;
      OutsideCounts(w, Step(w, e), t);
    } else if e.request in w.requests {
      hide Advance, AtMostOnce, Revives;
      AdvanceCounts(w, e.request, e.choice, t);
    }
  }

  lemma StepTaken(w: World, e: Event)
    requires F.FlowInv(w) && TakenOk(w)
    ensures TakenOk(Step(w, e))
  {
    if !e.Go? {
      OutsideOnlyForgets(w, e);
    } else if e.request in w.requests {
      hide Advance, TakenOk, Accounted;
      AdvanceTallies(w, e.request, e.choice, 0);
      TakenKept(w, Advance(w, e.request, e.choice));
    }
  }

  lemma {:induction false} AlwaysTaken(audience: string, events: seq<Event>)
    ensures TakenOk(Run(Start(audience), events))
  {
    if events != [] {
      var before := events[..|events| - 1];
      AlwaysTaken(audience, before);
      F.AlwaysFlows(audience, before);
      StepTaken(Run(Start(audience), before), events[|events| - 1]);
    }
  }

  lemma SingleUseAt(audience: string, events: seq<Event>, t: Id, i: nat)
    requires i < |events| && AtMostOnce(At(audience, events, i), t)
    ensures AtMostOnce(At(audience, events, i + 1), t) <==> !Revives(At(audience, events, i), events[i], t)
  {
    F.AlwaysFlows(audience, events[..i]);
    AlwaysTaken(audience, events[..i]);
    AtNext(audience, events, i);
    hide Step, AtMostOnce, Revives;
    SingleUseKeptExactly(At(audience, events, i), events[i], t);
  }

  ghost predicate SingleUseThroughout(audience: string, events: seq<Event>, t: Id) {
    forall i :: 0 <= i <= |events| ==> AtMostOnce(At(audience, events, i), t)
  }

  ghost predicate NeverRevived(audience: string, events: seq<Event>, t: Id) {
    forall i :: 0 <= i < |events| ==> !Revives(At(audience, events, i), events[i], t)
  }

  lemma {:induction false} SingleUseUpTo(audience: string, events: seq<Event>, t: Id, i: nat)
    requires NeverRevived(audience, events, t) && i <= |events|
    ensures AtMostOnce(At(audience, events, i), t)
  {
    if i > 0 {
      SingleUseUpTo(audience, events, t, i - 1);
      SingleUseAt(audience, events, t, i - 1);
    }
  }

  /** Over a whole run: the ticket is single-use throughout if and only if no login writes it back once consumed. */
  lemma SingleUseExactly(audience: string, events: seq<Event>, t: Id)
    ensures SingleUseThroughout(audience, events, t) <==> NeverRevived(audience, events, t)
  {
    hide AtMostOnce, Revives, At;
    if SingleUseThroughout(audience, events, t) {
      forall i | 0 <= i < |events| ensures !Revives(At(audience, events, i), events[i], t) {
        assert AtMostOnce(At(audience, events, i), t) && AtMostOnce(At(audience, events, i + 1), t);
        SingleUseAt(audience, events, t, i);
      }
    }
    if NeverRevived(audience, events, t) {
      forall i | 0 <= i <= |events| ensures AtMostOnce(At(audience, events, i), t) {
        SingleUseUpTo(audience, events, t, i);
      }
    }
  }

  // ---- consumed at most once --------------------------------------------------------------------------------

  /** The GETDEL that finds the ticket, at either form. */
  predicate Consumes(w: World, e: Event, t: Id) {
    && e.Go? && e.request in w.requests
    && (w.requests[e.request].PostSkip? || w.requests[e.request].PostTake?)
    && w.requests[e.request].ticket == t && Live(w, t)
  }

  lemma TimesCounts(w: World, e: Event, t: Id)
    ensures Times(Step(w, e), t) == Times(w, t) + if Consumes(w, e, t) then 1 else 0
  {
    if !e.Go? {
      OutsideOnlyForgets(w, e);
      hide Step;
    } else if e.request in w.requests {
      hide Advance, Accounted, Live, Times, LiveAfter;
      AdvanceTallies(w, e.request, e.choice, t);
    }
  }

  lemma {:induction false} TimesGrow(audience: string, events: seq<Event>, i: nat, j: nat, t: Id)
    requires i <= j <= |events|
    ensures Times(At(audience, events, i), t) <= Times(At(audience, events, j), t)
    decreases j
  {
    if i < j {
      TimesGrow(audience, events, i, j - 1, t);
      AtNext(audience, events, j - 1);
      hide Step, Times, At, Consumes;
      TimesCounts(At(audience, events, j - 1), events[j - 1], t);
    }
  }

  lemma {:induction false} SecondTake(audience: string, events: seq<Event>, k: nat, t: Id) returns (j: nat)
    requires k <= |events| && Times(At(audience, events, k), t) > 1
    ensures j < k && Times(At(audience, events, j), t) == 1 && Consumes(At(audience, events, j), events[j], t)
    decreases k
  {
    assert k > 0;
    if Times(At(audience, events, k - 1), t) > 1 {
      hide Times, At, Consumes;
      j := SecondTake(audience, events, k - 1, t);
    } else {
      hide Step, Times, At, Consumes;
      AtNext(audience, events, k - 1);
      TimesCounts(At(audience, events, k - 1), events[k - 1], t);
      j := k - 1;
    }
  }

  lemma PrefixAt(audience: string, events: seq<Event>, i: nat, j: nat)
    requires i <= j <= |events|
    ensures At(audience, events[..j], i) == At(audience, events, i)
  {
    assert events[..j][..i] == events[..i];
  }

  lemma LiveTakenWasRevived(audience: string, events: seq<Event>, j: nat, t: Id) returns (i: nat)
    requires j <= |events| && !AtMostOnce(At(audience, events, j), t)
    ensures i < j && Revives(At(audience, events, i), events[i], t)
  {
    hide AtMostOnce, Revives, At;
    var shorter := events[..j];
    SingleUseExactly(audience, shorter, t);
    PrefixAt(audience, events, j, j);
    assert !SingleUseThroughout(audience, shorter, t);
    i :| 0 <= i < |shorter| && Revives(At(audience, shorter, i), shorter[i], t);
    PrefixAt(audience, events, i, j);
  }

  ghost predicate ConsumedAtMostOnce(audience: string, events: seq<Event>, t: Id) {
    forall i :: 0 <= i <= |events| ==> Times(At(audience, events, i), t) <= 1
  }

  /** A login brought the consumed ticket back, and a form took it again. */
  ghost predicate RevivedAndTaken(audience: string, events: seq<Event>, t: Id) {
    exists i, j :: 0 <= i < j < |events| && Revives(At(audience, events, i), events[i], t)
                   && Consumes(At(audience, events, j), events[j], t)
  }

  /** Over a whole run: the ticket is consumed at most once if and only if no revival is followed by a consumption. */
  lemma ConsumedOnceExactly(audience: string, events: seq<Event>, t: Id)
    ensures ConsumedAtMostOnce(audience, events, t) <==> !RevivedAndTaken(audience, events, t)
  {
    if RevivedAndTaken(audience, events, t) {
      var i, j :| 0 <= i < j < |events| && Revives(At(audience, events, i), events[i], t)
                  && Consumes(At(audience, events, j), events[j], t);
      RevivedTwice(audience, events, i, j, t);
      assert Times(At(audience, events, j + 1), t) > 1;
    }
    if !ConsumedAtMostOnce(audience, events, t) {
      hide At, Revives, Consumes, Times;
      var k :| 0 <= k <= |events| && Times(At(audience, events, k), t) > 1;
      var j := SecondTake(audience, events, k, t);
      LiveIsCounted(At(audience, events, j), events[j], t);
      var i := LiveTakenWasRevived(audience, events, j, t);
    }
  }

  lemma LiveIsCounted(w: World, e: Event, t: Id)
    requires Times(w, t) == 1 && Consumes(w, e, t)
    ensures !AtMostOnce(w, t)
  {
  }

  lemma RevivedTwice(audience: string, events: seq<Event>, i: nat, j: nat, t: Id)
    requires i < j < |events| && Revives(At(audience, events, i), events[i], t)
    requires Consumes(At(audience, events, j), events[j], t)
    ensures Times(At(audience, events, j + 1), t) > 1
  {
    assert Times(At(audience, events, i), t) == 1;
    hide At, Revives, Consumes, Times, Step;
    TimesGrow(audience, events, i, j, t);
    AtNext(audience, events, j);
    TimesCounts(At(audience, events, j), events[j], t);
  }

  // ---- the revival does happen ----------------------------------------------------------------------------

  /** What the ticket holds and how often it went; the clock and the grants are those of w. */
  predicate Stage(w: World, w': World, t: Id, held: Option<Pending>, times: nat) {
    && w'.now == w.now && w'.grants == w.grants && w'.grantOf == w.grantOf
    && Get(w'.tickets, t, w'.now) == held && Times(w', t) == times
  }

  predicate Waits(w: World, x: Id, q: Request) {
    x in w.requests && w.requests[x] == q
  }

  lemma ArriveStages(w: World, x: Id, call: Call, t: Id)
    requires x !in w.requests
    ensures var w' := Step(w, Arrive(x, call));
            Stage(w, w', t, Get(w.tickets, t, w.now), Times(w, t)) && w'.requests == w.requests[x := Entry(call)]
  {
  }

  lemma ObserveStages(w: World, x: Id, c: Choice, t: Id)
    requires x in w.requests && Observes(w.requests[x])
    ensures var w' := Step(w, Go(x, c));
            && Stage(w, w', t, Get(w.tickets, t, w.now), Times(w, t))
            && w'.requests == w.requests[x := Observe(w, w.requests[x], c)]
  {
    AdvanceObserves(w, x, c);
    hide Advance, Observe, Observes;
  }

  lemma WriteStages(w: World, x: Id, c: Choice, t: Id, pending: Pending)
    requires Waits(w, x, PostWrite(t, pending))
    ensures var w' := Step(w, Go(x, c));
            Stage(w, w', t, Some(pending), Times(w, t)) && w'.requests == w.requests[x := Done(Page)]
  {
    AdvanceByKind(w, x, c);
    hide Advance;
  }

  lemma SubmitStages(w: World, x: Id, allow: bool, browser: Option<Id>, t: Id)
    ensures var w' := SubmitConsent(w, x, t, allow, browser);
            && Stage(w, w', t, None, Times(w, t) + (if Live(w, t) then 1 else 0))
            && (forall y :: y != x ==> (y in w'.requests <==> y in w.requests))
            && (forall y :: y != x && y in w.requests ==> w'.requests[y] == w.requests[y])
  {
  }

  lemma TakeStages(w: World, x: Id, c: Choice, t: Id, allow: bool, browser: Option<Id>)
    requires Waits(w, x, PostTake(t, allow, browser)) && Live(w, t)
    ensures var w' := Step(w, Go(x, c));
            && Stage(w, w', t, None, Times(w, t) + 1)
            && (forall y :: y != x ==> (y in w'.requests <==> y in w.requests))
            && (forall y :: y != x && y in w.requests ==> w'.requests[y] == w.requests[y])
  {
    AdvanceByKind(w, x, c);
    hide Advance, SubmitConsent;
    SubmitStages(w, x, allow, browser, t);
  }

  function Plain(login: Option<Id>): Choice {
    Choice(0, 0, login)
  }

  /** One login on the ticket, up to the write that is still to come. */
  function LoginEvents(x: Id, t: Id, user: Id): seq<Event> {
    [Arrive(x, Submit(t, true, None)), Go(x, Plain(None)), Go(x, Plain(Some(user))), Go(x, Plain(None)),
     Go(x, Plain(None))]
  }

  lemma RunMore(w: World, es: seq<Event>, e: Event)
    ensures Run(w, es + [e]) == Step(Run(w, es), e)
  {
    assert (es + [e])[..|es|] == es;
  }

  lemma RunFive(w: World, a: Event, b: Event, c: Event, d: Event, e: Event)
    ensures Run(w, [a, b, c, d, e]) == Step(Step(Step(Step(Step(w, a), b), c), d), e)
  {
    RunMore(w, [], a);
    RunMore(w, [a], b);
    RunMore(w, [a, b], c);
    RunMore(w, [a, b, c], d);
    RunMore(w, [a, b, c, d], e);
    assert [] + [a] == [a] && [a] + [b] == [a, b] && [a, b] + [c] == [a, b, c] && [a, b, c] + [d] == [a, b, c, d];
    assert [a, b, c, d] + [e] == [a, b, c, d, e];
    hide Step;
  }

  lemma ReadFinds(w: World, x: Id, t: Id, pending: Pending)
    requires Waits(w, x, PostRead(t, true, None)) && Get(w.tickets, t, w.now) == Some(pending)
    ensures var w' := Step(w, Go(x, Plain(None)));
            && Stage(w, w', t, Some(pending), Times(w, t))
            && w'.requests == w.requests[x := if pending.user.None? then PostLogin(t, pending) else PostTake(t, true, None)]
  {
    ObserveStages(w, x, Plain(None), t);
    hide Step, Times, Stage;
  }

  lemma LoginSucceeds(w: World, x: Id, t: Id, pending: Pending, user: Id)
    requires Waits(w, x, PostLogin(t, pending))
    ensures var w' := Step(w, Go(x, Plain(Some(user))));
            && Stage(w, w', t, Get(w.tickets, t, w.now), Times(w, t))
            && w'.requests == w.requests[x := PostResolve(t, pending.(user := Some(user)), user)]
  {
    ObserveStages(w, x, Plain(Some(user)), t);
    hide Step, Times, Stage;
  }

  lemma NothingCovers(w: World, x: Id, t: Id, pending: Pending, user: Id)
    requires Waits(w, x, PostResolve(t, pending, user)) && Covering(w, user, pending.req).None?
    ensures var w' := Step(w, Go(x, Plain(None)));
            && Stage(w, w', t, Get(w.tickets, t, w.now), Times(w, t))
            && w'.requests == w.requests[x := PostPeek(t, pending)]
  {
    ObserveStages(w, x, Plain(None), t);
    hide Step, Times, Stage;
  }

  lemma PeekFinds(w: World, x: Id, t: Id, pending: Pending)
    requires Waits(w, x, PostPeek(t, pending)) && Live(w, t)
    ensures var w' := Step(w, Go(x, Plain(None)));
            && Stage(w, w', t, Get(w.tickets, t, w.now), Times(w, t))
            && w'.requests == w.requests[x := PostWrite(t, pending)]
  {
    ObserveStages(w, x, Plain(None), t);
    hide Step, Times, Stage;
  }

  lemma StagesCompose(w: World, w1: World, w2: World, t: Id, h1: Option<Pending>, n1: nat, h2: Option<Pending>, n2: nat)
    requires Stage(w, w1, t, h1, n1) && Stage(w1, w2, t, h2, n2)
    ensures Stage(w, w2, t, h2, n2)
  {
  }

  lemma StageTells(w: World, w': World, t: Id, held: Option<Pending>, times: nat)
    requires Stage(w, w', t, held, times)
    ensures Get(w'.tickets, t, w'.now) == held && Times(w', t) == times && (Live(w', t) <==> held.Some?)
    ensures forall user, req :: Covering(w', user, req) == Covering(w, user, req)
  {
  }

  lemma LoginPasses(w: World, x: Id, t: Id, pending: Pending, user: Id)
    requires Waits(w, x, PostRead(t, true, None)) && Get(w.tickets, t, w.now) == Some(pending) && pending.user.None?
    ensures var w' := Step(Step(w, Go(x, Plain(None))), Go(x, Plain(Some(user))));
            && Stage(w, w', t, Some(pending), Times(w, t))
            && w'.requests == w.requests[x := PostResolve(t, pending.(user := Some(user)), user)]
  {
    var w1 := Step(w, Go(x, Plain(None)));
    var w2 := Step(w1, Go(x, Plain(Some(user))));
    hide Step, Times, Get, Stage, Covering, Plain, Live;
    ReadFinds(w, x, t, pending);
    StageTells(w, w1, t, Some(pending), Times(w, t));
    LoginSucceeds(w1, x, t, pending, user);
    StagesCompose(w, w1, w2, t, Some(pending), Times(w, t), Some(pending), Times(w, t));
  }

  lemma WriteIsNext(w: World, x: Id, t: Id, pending: Pending, held: Pending, user: Id)
    requires Waits(w, x, PostResolve(t, pending, user)) && Get(w.tickets, t, w.now) == Some(held)
    requires Covering(w, user, pending.req).None?
    ensures var w' := Step(Step(w, Go(x, Plain(None))), Go(x, Plain(None)));
            Stage(w, w', t, Some(held), Times(w, t)) && w'.requests == w.requests[x := PostWrite(t, pending)]
  {
    var w1 := Step(w, Go(x, Plain(None)));
    var w2 := Step(w1, Go(x, Plain(None)));
    hide Step, Times, Get, Stage, Covering, Plain, Live;
    NothingCovers(w, x, t, pending, user);
    StageTells(w, w1, t, Some(held), Times(w, t));
    PeekFinds(w1, x, t, pending);
    StagesCompose(w, w1, w2, t, Some(held), Times(w, t), Some(held), Times(w, t));
  }

  lemma LoginIsRun(w: World, x: Id, t: Id, user: Id)
    ensures Run(w, LoginEvents(x, t, user)) ==
      var w3 := Step(Step(Step(w, Arrive(x, Submit(t, true, None))), Go(x, Plain(None))), Go(x, Plain(Some(user))));
      Step(Step(w3, Go(x, Plain(None))), Go(x, Plain(None)))
  {
    RunFive(w, Arrive(x, Submit(t, true, None)), Go(x, Plain(None)), Go(x, Plain(Some(user))), Go(x, Plain(None)),
            Go(x, Plain(None)));
    hide Step, Run, Plain;
  }

  lemma LoginReachesWrite(w: World, x: Id, t: Id, pending: Pending, user: Id)
    requires x !in w.requests && Get(w.tickets, t, w.now) == Some(pending) && pending.user.None?
    requires Covering(w, user, pending.req).None?
    ensures var w' := Run(w, LoginEvents(x, t, user));
            && Stage(w, w', t, Some(pending), Times(w, t))
            && w'.requests == w.requests[x := PostWrite(t, pending.(user := Some(user)))]
  {
    var signed := pending.(user := Some(user));
    LoginIsRun(w, x, t, user);
    var w1 := Step(w, Arrive(x, Submit(t, true, None)));
    var w3 := Step(Step(w1, Go(x, Plain(None))), Go(x, Plain(Some(user))));
    var w5 := Step(Step(w3, Go(x, Plain(None))), Go(x, Plain(None)));
    hide Step, Run, Times, Get, Stage, Covering, Live, LoginEvents, Plain;
    ArriveStages(w, x, Submit(t, true, None), t);
    StageTells(w, w1, t, Some(pending), Times(w, t));
    LoginPasses(w1, x, t, pending, user);
    StagesCompose(w, w1, w3, t, Some(pending), Times(w, t), Some(pending), Times(w, t));
    StageTells(w, w3, t, Some(pending), Times(w, t));
    WriteIsNext(w3, x, t, signed, pending, user);
    StagesCompose(w, w3, w5, t, Some(pending), Times(w, t), Some(pending), Times(w, t));
  }

  /** A consent form submitted with `allow`, up to and including the GETDEL. */
  function ConsentEvents(x: Id, t: Id): seq<Event> {
    [Arrive(x, Submit(t, true, None)), Go(x, Plain(None)), Go(x, Plain(None))]
  }

  lemma ConsentIsRun(w: World, x: Id, t: Id)
    ensures Run(w, ConsentEvents(x, t)) ==
      Step(Step(Step(w, Arrive(x, Submit(t, true, None))), Go(x, Plain(None))), Go(x, Plain(None)))
  {
    var e1, e2 := Arrive(x, Submit(t, true, None)), Go(x, Plain(None));
    RunMore(w, [], e1);
    RunMore(w, [e1], e2);
    RunMore(w, [e1, e2], e2);
    hide Step, Plain;
    assert [] + [e1] == [e1] && [e1] + [e2] == [e1, e2] && [e1, e2] + [e2] == [e1, e2, e2];
  }

  lemma ConsentTakes(w: World, x: Id, t: Id, pending: Pending)
    requires x !in w.requests && Get(w.tickets, t, w.now) == Some(pending) && pending.user.Some?
    ensures var w' := Run(w, ConsentEvents(x, t));
            && Stage(w, w', t, None, Times(w, t) + 1)
            && (forall y :: y != x ==> (y in w'.requests <==> y in w.requests))
            && (forall y :: y != x && y in w.requests ==> w'.requests[y] == w.requests[y])
  {
    ConsentIsRun(w, x, t);
    var w1 := Step(w, Arrive(x, Submit(t, true, None)));
    var w2 := Step(w1, Go(x, Plain(None)));
    var w3 := Step(w2, Go(x, Plain(None)));
    hide Step, Run, Times, Get, Stage, Covering, Live, ConsentEvents, Plain;
    ArriveStages(w, x, Submit(t, true, None), t);
    StageTells(w, w1, t, Some(pending), Times(w, t));
    ReadFinds(w1, x, t, pending);
    StagesCompose(w, w1, w2, t, Some(pending), Times(w, t), Some(pending), Times(w, t));
    StageTells(w, w2, t, Some(pending), Times(w, t));
    TakeStages(w2, x, Plain(None), t, true, None);
    StagesCompose(w, w2, w3, t, Some(pending), Times(w, t), None, Times(w, t) + 1);
  }

  /** Two logins race on one ticket; the slower one's write comes after the faster one's consent. */
  function RaceEvents(a: Id, b: Id, c: Id, d: Id, t: Id, user: Id): seq<Event> {
    LoginEvents(a, t, user) + LoginEvents(b, t, user) + [Go(a, Plain(None))] + ConsentEvents(c, t)
    + [Go(b, Plain(None))] + ConsentEvents(d, t)
  }

  lemma RaceIsRun(w: World, a: Id, b: Id, c: Id, d: Id, t: Id, user: Id)
    ensures Run(w, RaceEvents(a, b, c, d, t, user)) ==
      Run(Step(Run(Step(Run(Run(w, LoginEvents(a, t, user)), LoginEvents(b, t, user)), Go(a, Plain(None))),
                   ConsentEvents(c, t)), Go(b, Plain(None))), ConsentEvents(d, t))
  {
    var e1, e2 := LoginEvents(a, t, user), LoginEvents(b, t, user);
    var e3, e4, e5, e6 := [Go(a, Plain(None))], ConsentEvents(c, t), [Go(b, Plain(None))], ConsentEvents(d, t);
    assert RaceEvents(a, b, c, d, t, user) == e1 + e2 + e3 + e4 + e5 + e6;
    hide Step, Run, LoginEvents, ConsentEvents, RaceEvents;
    RunSplits(w, e1, e2);
    RunMore(w, e1 + e2, Go(a, Plain(None)));
    RunSplits(w, e1 + e2 + e3, e4);
    RunMore(w, e1 + e2 + e3 + e4, Go(b, Plain(None)));
    RunSplits(w, e1 + e2 + e3 + e4 + e5, e6);
  }

  /** The faster login writes, its consent takes the ticket, the slower one's write brings it back. */
  lemma WriteThenTake(w: World, a: Id, c: Id, t: Id, signed: Pending)
    requires c !in w.requests && Waits(w, a, PostWrite(t, signed)) && signed.user.Some?
    ensures var w' := Run(Step(w, Go(a, Plain(None))), ConsentEvents(c, t));
            && Stage(w, w', t, None, Times(w, t) + 1)
            && (forall y :: y != a && y != c ==> (y in w'.requests <==> y in w.requests))
            && (forall y :: y != a && y != c && y in w.requests ==> w'.requests[y] == w.requests[y])
  {
    var n := Times(w, t);
    var w1 := Step(w, Go(a, Plain(None)));
    var w2 := Run(w1, ConsentEvents(c, t));
    hide Step, Run, Times, Get, Stage, Covering, Live, ConsentEvents, Plain;
    WriteStages(w, a, Plain(None), t, signed);
    StageTells(w, w1, t, Some(signed), n);
    ConsentTakes(w1, c, t, signed);
    StagesCompose(w, w1, w2, t, Some(signed), n, None, n + 1);
  }

  /** Any ticket waiting for a login, in any state, can be consumed twice. */
  lemma TicketCanBeTakenTwice(w: World, a: Id, b: Id, c: Id, d: Id, t: Id, pending: Pending, user: Id)
    requires a !in w.requests && b !in w.requests && c !in w.requests && d !in w.requests
    requires a != b && a != c && a != d && b != c && b != d && c != d
    requires Get(w.tickets, t, w.now) == Some(pending) && pending.user.None?
    requires Covering(w, user, pending.req).None?
    ensures Times(Run(w, RaceEvents(a, b, c, d, t, user)), t) == Times(w, t) + 2
  {
    var signed := pending.(user := Some(user));
    var n := Times(w, t);
    RaceIsRun(w, a, b, c, d, t, user);
    var w1 := Run(w, LoginEvents(a, t, user));
    var w2 := Run(w1, LoginEvents(b, t, user));
    var w3 := Run(Step(w2, Go(a, Plain(None))), ConsentEvents(c, t));
    var w4 := Run(Step(w3, Go(b, Plain(None))), ConsentEvents(d, t));
    hide Step, Run, Times, Get, Stage, Covering, Live, RaceEvents, LoginEvents, ConsentEvents, Plain;
    LoginReachesWrite(w, a, t, pending, user);
    StageTells(w, w1, t, Some(pending), n);
    LoginReachesWrite(w1, b, t, pending, user);
    StageTells(w1, w2, t, Some(pending), n);
    WriteThenTake(w2, a, c, t, signed);
    StageTells(w2, w3, t, None, n + 1);
    WriteThenTake(w3, b, d, t, signed);
    StageTells(w3, w4, t, None, n + 2);
  }
}
