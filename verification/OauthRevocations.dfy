/** Refusal at the resource server: the per-grant revocation marker, and what the clock tolerance leaves open. */
module OauthRevocations {
  import opened Wrappers
  import opened Config
  import opened Scopes
  import opened OauthWorld
  import R = OauthRotation
  import C = OauthConnections

  /** A marker lasts one access-token lifetime from the instant it was last written. */
  ghost predicate MarksOk(w: World) {
    && w.revoked.Keys <= w.past.revokedAt.Keys
    && forall g :: g in w.past.revokedAt ==>
      && w.past.revokedAt[g] <= w.now
      && g in w.revoked && w.revoked[g] == w.past.revokedAt[g] + Ms(OAUTH_ACCESS_TTL_SEC)
  }

  ghost predicate MarksAge(w: World, w': World) {
    w'.revoked == w.revoked && w'.past.revokedAt == w.past.revokedAt && w.now <= w'.now
  }

  lemma EntriesAside(w: World, e: Event)
    requires e.Tick? || e.SignUp? || e.Register? || e.Arrive?
    ensures MarksAge(w, Step(w, e))
  {
    hide Entry, Advance, Cascade;
    if e.Register? || e.SignUp? {
      if e.id in w.minted {}
    } else if e.Arrive? && e.request in w.requests {
    }
  }

  lemma DeletesAside(w: World, e: Event)
    requires e.DropRow? || e.DropSessions? || e.Sweep?
    ensures MarksAge(w, Step(w, e))
  {
    if e.Sweep? && e.at <= w.now {}
  }

  /** The marker, and what was written when, only ever move forward. */
  ghost predicate MarksAdvance(w: World, w': World) {
    && MarksOk(w')
    && forall g :: g in w.past.revokedAt ==> g in w'.past.revokedAt && w.past.revokedAt[g] <= w'.past.revokedAt[g]
  }

  lemma MarkAdvances(w: World, w': World, g: Id)
    requires MarksAdvance(w, w') && g in w.past.revokedAt
    ensures MarksOk(w') && g in w'.past.revokedAt && w.past.revokedAt[g] <= w'.past.revokedAt[g]
  {
  }

  lemma AgedMarks(w: World, w': World)
    requires MarksOk(w) && MarksAge(w, w')
    ensures MarksAdvance(w, w')
  {
  }

  lemma WrittenMark(w: World, g: Id)
    requires MarksOk(w)
    ensures MarksAdvance(w, Step(w, RevokeMark(g)))
  {
  }

  lemma StepMarks(w: World, e: Event)
    requires MarksOk(w)
    ensures MarksAdvance(w, Step(w, e))
  {
    var w' := Step(w, e);
    if e.RevokeMark? {
      hide *;
      WrittenMark(w, e.grantId);
    } else {
      if e.Go? {
        if e.request in w.requests { AdvanceOutside(w, e.request, e.choice); }
      } else {
        hide *;
        match e
        case DropRow(_) => DeletesAside(w, e);
        case DropSessions(_) => DeletesAside(w, e);
        case Sweep(_) => DeletesAside(w, e);
        case _ => EntriesAside(w, e);
      }
      hide Step, Advance, MarksOk, MarksAdvance;
      AgedMarks(w, w');
    }
  }

  lemma AlwaysMarked(audience: string, events: seq<Event>)
    ensures MarksOk(Run(Start(audience), events))
  {
    if events != [] {
      AlwaysMarked(audience, events[..|events| - 1]);
      StepMarks(Run(Start(audience), events[..|events| - 1]), events[|events| - 1]);
    }
  }

  lemma {:induction false} MarksLast(w: World, events: seq<Event>)
    requires MarksOk(w)
    ensures MarksAdvance(w, Run(w, events))
    decreases |events|
  {
    if events != [] {
      MarksLast(w, events[..|events| - 1]);
      StepMarks(Run(w, events[..|events| - 1]), events[|events| - 1]);
    }
  }

  lemma ExpiryIsBounded(signedAt: nat, mark: nat)
    requires signedAt <= mark
    ensures ExpIfSigned(signedAt) <= mark + Ms(OAUTH_ACCESS_TTL_SEC)
  {
  }

  lemma MarkCovers(w: World, jti: Id)
    requires MarksOk(w) && R.SignedOk(w) && jti in w.past.signed
    requires w.past.signed[jti].grantId in w.past.revokedAt
    requires w.past.signed[jti].signedAt <= w.past.revokedAt[w.past.signed[jti].grantId]
    ensures w.now < w.past.signed[jti].exp ==> TokenDenied(w, jti, w.past.signed[jti].grantId)
    ensures Accepted(w, jti) ==> w.past.signed[jti].exp <= w.now < w.past.signed[jti].exp + Ms(CLOCK_TOLERANCE_SEC)
  {
    var token := w.past.signed[jti];
    assert token.exp == ExpIfSigned(token.signedAt);
    ExpiryIsBounded(token.signedAt, w.past.revokedAt[token.grantId]);
    assert token.exp % 1000 == 0;
  }

  lemma LaterSignatures(w: World, w': World, jti: Id)
    requires R.Inv(w') && R.Later(w, w') && jti in w.past.signed
    ensures R.SignedOk(w') && jti in w'.past.signed && w'.past.signed[jti] == w.past.signed[jti]
  {
  }

  /**
   * A grant marked at some point of a run: every token signed for it no later than the marker is refused from then
   * on at every instant before its expiry, and what is accepted after lies in the clock tolerance.
   */
  lemma MarkedStaysRefused(audience: string, events: seq<Event>, i: nat, j: nat, jti: Id)
    requires i <= j <= |events| && jti in At(audience, events, i).past.signed
    requires var w := At(audience, events, i);
             var token := w.past.signed[jti];
             token.grantId in w.past.revokedAt && token.signedAt <= w.past.revokedAt[token.grantId]
    ensures var w := At(audience, events, j);
            && jti in w.past.signed
            && (w.now < w.past.signed[jti].exp ==> TokenDenied(w, jti, w.past.signed[jti].grantId))
            && (Accepted(w, jti) ==>
                  w.past.signed[jti].exp <= w.now < w.past.signed[jti].exp + Ms(CLOCK_TOLERANCE_SEC))
  {
    var a := At(audience, events, i);
    var b := At(audience, events, j);
    C.Between(audience, events, i, j);
    AlwaysMarked(audience, events[..i]);
    assert events[..j] == events[..i] + events[i..j];
    RunSplits(Start(audience), events[..i], events[i..j]);
    MarksLast(a, events[i..j]);
    hide *;
    LaterSignatures(a, b, jti);
    MarkAdvances(a, b, a.past.signed[jti].grantId);
    MarkCovers(b, jti);
  }

  /** The last instant up to which the deny entry or the grant's marker refuses the token, or now. */
  function RefusedUntil(w: World, jti: Id): nat
    requires jti in w.denied && jti in w.past.signed
  {
    var g := w.past.signed[jti].grantId;
    Later(Later(w.now, w.denied[jti]), if g in w.revoked then w.revoked[g] else 0)
  }

  function Later(a: nat, b: nat): nat {
    if a < b then b else a
  }

  lemma AcceptedAfter(w: World, jti: Id, ms: nat)
    requires jti in w.denied && jti in w.past.signed
    requires w.past.signed[jti].audience == w.audience && w.past.signed[jti].scopes != {}
    ensures Accepted(Step(w, Tick(ms)), jti) <==>
      RefusedUntil(w, jti) <= w.now + ms && Ms(Sec(w.now + ms)) < w.past.signed[jti].exp + Ms(CLOCK_TOLERANCE_SEC)
  {
  }

  /** A denied token is accepted after some wait exactly when what refuses it now ends within the verifier's tolerance. */
  lemma WaitingExactly(w: World, jti: Id)
    requires jti in w.denied && jti in w.past.signed
    requires w.past.signed[jti].audience == w.audience && w.past.signed[jti].scopes != {}
    ensures (exists ms: nat :: Accepted(Step(w, Tick(ms)), jti)) <==>
      Ms(Sec(RefusedUntil(w, jti))) < w.past.signed[jti].exp + Ms(CLOCK_TOLERANCE_SEC)
  {
    hide Accepted, Step;
    var end := RefusedUntil(w, jti);
    AcceptedAfter(w, jti, end - w.now);
    if ms: nat :| Accepted(Step(w, Tick(ms)), jti) {
      AcceptedAfter(w, jti, ms);
    }
  }
}
