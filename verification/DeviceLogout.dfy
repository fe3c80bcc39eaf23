/**
 * Signing out is two commands, the access key first and the row after it. Over every interleaving: when a token of the
 * session can verify once both are done.
 */
module DeviceLogout {
  import opened Wrappers
  import opened Config
  import opened DeviceSessions

  // ---- what one event does to a session's key -------------------------------------------------------------

  /** The event writes the session's access key. */
  predicate WritesKey(w: World, e: Event, id: Id) {
    && e.Go? && e.request in w.requests && w.requests[e.request].Issue? && w.requests[e.request].session == id
    && e.choice.secret !in w.minted
  }

  predicate DropsKey(w: World, e: Event, id: Id) {
    && e.Go? && e.request in w.requests
    && var q := w.requests[e.request];
    ((q.RenewRevoke? || q.Revoke?) && q.session == id) || (q.RevokeAll? && id in q.ids)
  }

  lemma StepKey(w: World, e: Event, id: Id)
    ensures WritesKey(w, e, id) ==> id in Step(w, e).keys && Step(w, e).keys[id].until == w.now + Ms(SESSION_ACCESS_TTL_SEC)
    ensures DropsKey(w, e, id) ==> id !in Step(w, e).keys
    ensures !WritesKey(w, e, id) && !DropsKey(w, e, id) ==>
              (id in Step(w, e).keys <==> id in w.keys) && SameKey(w, Step(w, e), id)
  {
  }

  /** Event k, after event i and before event n, writes the key, and none of those after it writes or drops it. */
  ghost predicate LastWrite(events: seq<Event>, i: nat, n: nat, k: nat, id: Id)
    requires n <= |events|
  {
    && i < k < n && WritesKey(At(events, k), events[k], id)
    && forall m :: k < m < n ==> !WritesKey(At(events, m), events[m], id) && !DropsKey(At(events, m), events[m], id)
  }

  lemma LastWriteNext(events: seq<Event>, i: nat, n: nat, k: nat, id: Id)
    requires i < n < |events|
    ensures LastWrite(events, i, n + 1, k, id) <==>
      if k == n then WritesKey(At(events, n), events[n], id)
      else LastWrite(events, i, n, k, id)
           && !WritesKey(At(events, n), events[n], id) && !DropsKey(At(events, n), events[n], id)
  {
    hide At, WritesKey, DropsKey;
  }

  lemma {:induction false} WriteLasts(events: seq<Event>, i: nat, n: nat, k: nat, id: Id)
    requires n <= |events| && LastWrite(events, i, n, k, id)
    ensures id in At(events, n).keys && At(events, n).keys[id].until == At(events, k).now + Ms(SESSION_ACCESS_TTL_SEC)
  {
    var m := n - 1;
    AtNext(events, m);
    StepKey(At(events, m), events[m], id);
    LastWriteNext(events, i, m, k, id);
    hide At, Step, WritesKey, DropsKey, LastWrite;
    if k < m {
      WriteLasts(events, i, m, k, id);
    }
  }

  lemma {:induction false} KeyWasWritten(events: seq<Event>, i: nat, n: nat, id: Id) returns (k: nat)
    requires i < n <= |events| && id !in At(events, i + 1).keys && id in At(events, n).keys
    ensures LastWrite(events, i, n, k, id)
  {
    var m := n - 1;
    AtNext(events, m);
    StepKey(At(events, m), events[m], id);
    if m == i {
      k := i;
    } else if WritesKey(At(events, m), events[m], id) {
      k := m;
    } else {
      k := KeyWasWritten(events, i, m, id);
      LastWriteNext(events, i, m, k, id);
    }
  }

  /** A key that is not there after event i is there before event n exactly if it was written in between and kept. */
  lemma KeySince(events: seq<Event>, i: nat, n: nat, id: Id)
    requires i < n <= |events| && id !in At(events, i + 1).keys
    ensures id in At(events, n).keys <==> exists k: nat :: k < n && LastWrite(events, i, n, k, id)
    ensures forall k: nat :: k < n && LastWrite(events, i, n, k, id) ==>
              id in At(events, n).keys && At(events, n).keys[id].until == At(events, k).now + Ms(SESSION_ACCESS_TTL_SEC)
  {
    hide At, LastWrite;
    if id in At(events, n).keys {
      var k := KeyWasWritten(events, i, n, id);
    }
    forall k: nat | k < n && LastWrite(events, i, n, k, id)
      ensures id in At(events, n).keys
      ensures At(events, n).keys[id].until == At(events, k).now + Ms(SESSION_ACCESS_TTL_SEC)
    {
      WriteLasts(events, i, n, k, id);
    }
  }

  // ---- the two commands of a logout -------------------------------------------------------------------------

  /** Event i is the first command of request r's logout of the session by its user, event j the second. */
  ghost predicate SignsOut(events: seq<Event>, i: nat, j: nat, r: Id, user: Id, id: Id)
    requires i < j < |events|
  {
    && events[i].Go? && events[i].request == r && events[j].Go? && events[j].request == r
    && r in At(events, i).requests && At(events, i).requests[r] == Revoke(user, id)
    && r in At(events, j).requests && At(events, j).requests[r] == Delete(user, id)
    && id in At(events, i).past.owner && At(events, i).past.owner[id] == user
  }

  lemma DeleteGoes(w: World, e: Event, r: Id, user: Id, id: Id)
    requires Inv(w) && e.Go? && e.request == r && r in w.requests && w.requests[r] == Delete(user, id)
    requires id in w.past.owner && w.past.owner[id] == user
    ensures var w' := Step(w, e);
            && Gone(w', id) && Owing(w', id) == Owing(w, id) && w'.keys == w.keys && w'.now == w.now
  {
    assert id in w.past.chain;
    if id in w.sessions { assert RowOk(w, id, w.sessions[id]); }
    hide Inv;
  }

  lemma RevokeDrops(w: World, e: Event, r: Id, user: Id, id: Id)
    requires e.Go? && e.request == r && r in w.requests && w.requests[r] == Revoke(user, id)
    ensures id !in Step(w, e).keys
  {
  }

  /** The key was written after the logout dropped it, before the logout was done, and is still there and live. */
  ghost predicate WrittenInBetween(events: seq<Event>, i: nat, j: nat, id: Id)
    requires i < j < |events|
  {
    exists k: nat :: k < j && LastWrite(events, i, j, k, id)
                     && At(events, j).now < At(events, k).now + Ms(SESSION_ACCESS_TTL_SEC)
  }

  /**
   * After a logout, whatever ran between its two commands: the row is gone, and a token of the session can verify, now
   * or at some later point, if and only if a request had written the row and not yet the key, or the key was written
   * again between the two commands.
   */
  lemma TokenAfterLogoutExactly(events: seq<Event>, i: nat, j: nat, r: Id, user: Id, id: Id)
    requires i < j < |events| && SignsOut(events, i, j, r, user, id)
    ensures var w := At(events, j + 1);
            && Gone(w, id)
            && ((exists later, s :: Verifies(Run(w, later), id, s)) <==>
                  Owing(At(events, j), id) != {} || WrittenInBetween(events, i, j, id))
  {
    Between(events, i, j);
    Between(events, i, j + 1);
    AtNext(events, i);
    AtNext(events, j);
    RevokeDrops(At(events, i), events[i], r, user, id);
    hide Inv, Step, At, LastWrite, Run;
    KeySince(events, i, j, id);
    DeleteGoes(At(events, j), events[j], r, user, id);
    LateTokenExactly(At(events, j + 1), id);
  }

  // ---- when nothing can come back ---------------------------------------------------------------------------

  /** A renewal of the session on its way, or a request that has its key still to write. */
  predicate Renews(q: Request, id: Id) {
    ((q.RenewFind? || q.RenewStamp? || q.RenewRotate?) && q.token.session == id) || Owes(q, id)
  }

  ghost predicate Unrenewed(w: World, id: Id) {
    id in w.minted && forall x :: x in w.requests ==> !Renews(w.requests[x], id)
  }

  predicate AsksToRenew(e: Event, id: Id) {
    e.Arrive? && e.call.Renew? && e.call.token.session == id
  }

  lemma StepUnrenewed(w: World, e: Event, id: Id)
    requires Unrenewed(w, id) && !AsksToRenew(e, id)
    ensures Unrenewed(Step(w, e), id) && !WritesKey(w, e, id)
  {
    if e.Go? && e.request in w.requests {
      AdvanceRenews(w, e.request, e.choice, id);
      hide Advance;
      assert !Renews(w.requests[e.request], id);
    } else {
      hide Advance;
    }
  }

  /** The request alone moves, and to where it renews the session only if it did before. */
  predicate Renewing(w: World, w': World, r: Id, id: Id)
    requires r in w.requests
  {
    && r in w'.requests && w'.requests == w.requests[r := w'.requests[r]] && w.minted <= w'.minted
    && (Renews(w'.requests[r], id) ==> Renews(w.requests[r], id))
  }

  lemma MoveRenews(w: World, r: Id, next: Request, id: Id)
    requires r in w.requests && (Renews(next, id) ==> Renews(w.requests[r], id))
    ensures Renewing(w, w, r, id) && Renewing(w, Move(w, r, next), r, id)
  {
  }

  lemma DropRenews(w: World, r: Id, ids: set<Id>, next: Request, id: Id)
    requires r in w.requests && (Renews(next, id) ==> Renews(w.requests[r], id))
    ensures Renewing(w, DropKeys(w, r, ids, next), r, id)
  {
  }

  lemma InsertRenews(w: World, r: Id, user: Id, at: nat, drawn: Id, secret: Id, id: Id)
    requires r in w.requests && drawn != id
    ensures Renewing(w, Insert(w, r, user, at, drawn, secret), r, id)
  {
  }

  lemma RotateRenews(w: World, r: Id, token: RefreshToken, at: nat, secret: Id, id: Id)
    requires r in w.requests && w.requests[r] == RenewRotate(token, at) && token.session in w.sessions
    ensures Renewing(w, Rotate(w, r, token, at, secret), r, id)
  {
  }

  lemma IssueRenews(w: World, r: Id, user: Id, session: Id, secret: Id, id: Id)
    requires r in w.requests
    ensures Renewing(w, IssueKey(w, r, user, session, secret), r, id)
  {
  }

  lemma DeleteRenews(w: World, r: Id, c: Choice, id: Id)
    requires r in w.requests && (w.requests[r].Delete? || w.requests[r].DeleteAll?)
    ensures Renewing(w, Advance(w, r, c), r, id)
  {
  }

  lemma AdvanceRenews(w: World, r: Id, c: Choice, id: Id)
    requires r in w.requests && id in w.minted
    ensures Renewing(w, Advance(w, r, c), r, id)
  {
    hide Renewing, Insert, Rotate, IssueKey, DropKeys, Rotatable, Move;
    MoveRenews(w, r, w.requests[r], id);
    match w.requests[r]
    case CreateStamp(user) => MoveRenews(w, r, CreateInsert(user, w.now), id);
    case CreateInsert(user, at) =>
      if c.drawn !in w.minted { InsertRenews(w, r, user, at, c.drawn, c.secret, id); }
    case RenewFind(token) => MoveRenews(w, r, AfterFind(w, token), id);
    case RenewStamp(token) => MoveRenews(w, r, RenewRotate(token, w.now), id);
    case RenewRotate(token, at) =>
      if Rotatable(w.sessions, token, at) {
        RotatableHasRow(w.sessions, token, at);
        RotateRenews(w, r, token, at, c.secret, id);
      } else {
        MoveRenews(w, r, Done, id);
      }
    case RenewRevoke(user, session) => DropRenews(w, r, {session}, Issue(user, session), id);
    case Issue(user, session) => IssueRenews(w, r, user, session, c.secret, id);
    case Revoke(user, session) => DropRenews(w, r, {session}, Request.Delete(user, session), id);
    case RevokeAll(ids) => DropRenews(w, r, ids, Done, id);
    case Delete(_, _) => DeleteRenews(w, r, c, id);
    case DeleteAll(_) => DeleteRenews(w, r, c, id);
    case Done =>
  }

  lemma {:induction false} StaysUnrenewed(events: seq<Event>, i: nat, n: nat, id: Id)
    requires i <= n <= |events| && Unrenewed(At(events, i), id)
    requires forall m :: i <= m < n ==> !AsksToRenew(events[m], id)
    ensures Unrenewed(At(events, n), id)
    ensures forall m :: i <= m < n ==> !WritesKey(At(events, m), events[m], id)
  {
    if i < n {
      AtNext(events, n - 1);
      hide At, Step, Unrenewed, WritesKey;
      StaysUnrenewed(events, i, n - 1, id);
      StepUnrenewed(At(events, n - 1), events[n - 1], id);
    }
  }

  lemma UnrenewedOwesNothing(w: World, id: Id)
    requires Unrenewed(w, id)
    ensures Owing(w, id) == {}
  {
    forall x | x in w.requests ensures !Owes(w.requests[x], id) {
      assert !Renews(w.requests[x], id);
    }
  }

  /**
   * What can be seen when the logout starts: with no renewal of the session on its way, and none arriving before the
   * logout is done, no token of it ever verifies again, whatever arrives later.
   */
  lemma LogoutIsFinal(events: seq<Event>, i: nat, j: nat, r: Id, user: Id, id: Id, later: seq<Event>, s: Id)
    requires i < j < |events| && SignsOut(events, i, j, r, user, id) && Unrenewed(At(events, i), id)
    requires forall m :: i <= m < j ==> !AsksToRenew(events[m], id)
    ensures !Verifies(Run(At(events, j + 1), later), id, s)
  {
    TokenAfterLogoutExactly(events, i, j, r, user, id);
    StaysUnrenewed(events, i, j, id);
    hide SignsOut, At, Run, WritesKey, DropsKey;
    UnrenewedOwesNothing(At(events, j), id);
  }

  // ---- it does come back ------------------------------------------------------------------------------------

  /** Between the two commands a renewal that had rotated the row runs its own DEL and writes the key. */
  lemma RenewalOvertakes(w: World, a: Id, b: Id, user: Id, id: Id, c: Choice)
    requires Inv(w) && a in w.requests && w.requests[a] == RenewRevoke(user, id)
    requires b in w.requests && w.requests[b] == Delete(user, id) && c.secret !in w.minted
    ensures var w' := Step(Step(Step(w, Go(a, c)), Go(a, c)), Go(b, c));
            && w'.requests[a] == Done && w'.requests[b] == Done
            && Gone(w', id) && Owing(w', id) == Owing(w, id) - {a} && Verifies(w', id, c.secret)
  {
    var w1 := Step(w, Go(a, c));
    var w2 := Step(w1, Go(a, c));
    assert PendingOk(w, w.requests[a]);
    StepKeeps(w, Go(a, c));
    StepKeeps(w1, Go(a, c));
    hide Inv;
    DeleteGoes(w2, Go(b, c), b, user, id);
  }

  function Draw(drawn: Id, secret: Id): Choice {
    Choice(drawn, secret)
  }

  /**
   * User 7 signs in to session 10 and renews it; after the renewal's rotation a logout drops the key, the renewal drops
   * it too and writes the next, and the logout deletes the row.
   */
  function Overtaken(): seq<Event> {
    [Arrive(1, Create(7)), Go(1, Draw(0, 0)), Go(1, Draw(10, 11)), Go(1, Draw(0, 12)),
     Arrive(2, Renew(RefreshToken(10, 11))), Go(2, Draw(0, 0)), Go(2, Draw(0, 0)), Go(2, Draw(0, 13)),
     Arrive(3, Logout(7, 10)), Go(3, Draw(0, 0)), Go(2, Draw(0, 14)), Go(2, Draw(0, 14)), Go(3, Draw(0, 14))]
  }

  lemma OvertakenNext(n: nat, e: Event)
    requires n < 13 && Overtaken()[n] == e
    ensures At(Overtaken(), n + 1) == Step(At(Overtaken(), n), e)
  {
    AtNext(Overtaken(), n);
    hide Step, Draw;
  }

  lemma SignInStands(w: World)
    requires w == Start()
    ensures var w' := Step(Step(Step(Step(w, Arrive(1, Create(7))), Go(1, Draw(0, 0))), Go(1, Draw(10, 11))),
                           Go(1, Draw(0, 12)));
            && w'.now == 0 && w'.minted == {10, 11, 12} && w'.requests == map[1 := Done]
            && w'.sessions == map[10 := Row(7, 11, None, Ms(SESSION_REFRESH_TTL_SEC))] && w'.past.owner == map[10 := 7]
  {
  }

  lemma RenewalStands(w: World)
    requires w.minted == {10, 11, 12} && w.requests == map[1 := Done] && w.past.owner == map[10 := 7]
    requires w.sessions == map[10 := Row(7, 11, None, Ms(SESSION_REFRESH_TTL_SEC))] && w.now == 0
    ensures var w' := Step(Step(Step(w, Arrive(2, Renew(RefreshToken(10, 11)))), Go(2, Draw(0, 0))), Go(2, Draw(0, 0)));
            w' == w.(requests := map[1 := Done, 2 := RenewRotate(RefreshToken(10, 11), 0)])
  {
  }

  lemma RotationStands(w: World)
    requires w.minted == {10, 11, 12} && w.past.owner == map[10 := 7]
    requires w.requests == map[1 := Done, 2 := RenewRotate(RefreshToken(10, 11), 0)]
    requires w.sessions == map[10 := Row(7, 11, None, Ms(SESSION_REFRESH_TTL_SEC))]
    ensures var w' := Step(w, Go(2, Draw(0, 13)));
            && w'.minted == {10, 11, 12, 13} && w'.past.owner == map[10 := 7]
            && w'.requests == map[1 := Done, 2 := RenewRevoke(7, 10)]
  {
  }

  lemma LogoutStands(w: World)
    requires w.requests == map[1 := Done, 2 := RenewRevoke(7, 10)]
    ensures var w1 := Step(w, Arrive(3, Logout(7, 10)));
            var w2 := Step(w1, Go(3, Draw(0, 0)));
            && w1 == w.(requests := map[1 := Done, 2 := RenewRevoke(7, 10), 3 := Revoke(7, 10)])
            && w2.minted == w.minted && w2.requests == map[1 := Done, 2 := RenewRevoke(7, 10), 3 := Delete(7, 10)]
  {
  }

  lemma SignedIn()
    ensures var w := At(Overtaken(), 4);
            && w.now == 0 && w.minted == {10, 11, 12} && w.requests == map[1 := Done]
            && w.sessions == map[10 := Row(7, 11, None, Ms(SESSION_REFRESH_TTL_SEC))] && w.past.owner == map[10 := 7]
  {
    assert At(Overtaken(), 0) == Start();
    hide Step, At;
    OvertakenNext(0, Arrive(1, Create(7)));
    OvertakenNext(1, Go(1, Draw(0, 0)));
    OvertakenNext(2, Go(1, Draw(10, 11)));
    OvertakenNext(3, Go(1, Draw(0, 12)));
    SignInStands(At(Overtaken(), 0));
  }

  lemma Rotated()
    ensures var w := At(Overtaken(), 8);
            && w.minted == {10, 11, 12, 13} && w.past.owner == map[10 := 7]
            && w.requests == map[1 := Done, 2 := RenewRevoke(7, 10)]
  {
    hide Step, At;
    SignedIn();
    OvertakenNext(4, Arrive(2, Renew(RefreshToken(10, 11))));
    OvertakenNext(5, Go(2, Draw(0, 0)));
    OvertakenNext(6, Go(2, Draw(0, 0)));
    OvertakenNext(7, Go(2, Draw(0, 13)));
    RenewalStands(At(Overtaken(), 4));
    RotationStands(At(Overtaken(), 7));
  }

  /** The logout between its two commands, the renewal about to run its DEL. */
  lemma Halfway()
    ensures At(Overtaken(), 9).requests == map[1 := Done, 2 := RenewRevoke(7, 10), 3 := Revoke(7, 10)]
    ensures At(Overtaken(), 9).past.owner == map[10 := 7]
    ensures At(Overtaken(), 10).requests == map[1 := Done, 2 := RenewRevoke(7, 10), 3 := Delete(7, 10)]
    ensures At(Overtaken(), 10).minted == {10, 11, 12, 13}
  {
    hide Step, At;
    Rotated();
    OvertakenNext(8, Arrive(3, Logout(7, 10)));
    OvertakenNext(9, Go(3, Draw(0, 0)));
    LogoutStands(At(Overtaken(), 8));
  }

  lemma OneOwes(w: World)
    requires w.requests == map[1 := Done, 2 := RenewRevoke(7, 10), 3 := Delete(7, 10)]
    ensures Owing(w, 10) == {2}
  {
  }

  lemma SignsOutAt(a: World, b: World)
    requires a.requests == map[1 := Done, 2 := RenewRevoke(7, 10), 3 := Revoke(7, 10)] && a.past.owner == map[10 := 7]
    requires a == At(Overtaken(), 9) && b == At(Overtaken(), 12) && 3 in b.requests && b.requests[3] == Delete(7, 10)
    ensures SignsOut(Overtaken(), 9, 12, 3, 7, 10)
  {
    hide At, Draw;
  }

  lemma OthersWait(w: World, c: Choice)
    requires w.requests == map[1 := Done, 2 := RenewRevoke(7, 10), 3 := Delete(7, 10)]
    ensures var w' := Step(Step(w, Go(2, c)), Go(2, c)); 3 in w'.requests && w'.requests[3] == Delete(7, 10)
  {
  }

  /** So it goes in a run of the server: both commands done, no request left, and a token of the session verifies. */
  lemma RunOvertaken()
    ensures SignsOut(Overtaken(), 9, 12, 3, 7, 10)
    ensures var w := At(Overtaken(), 13); Gone(w, 10) && Owing(w, 10) == {} && Verifies(w, 10, 14)
  {
    assert Draw(0, 14).secret == 14 && |Overtaken()| == 13;
    hide Step, At, Inv, Later, Verifies, Gone, Owing, Draw, SignsOut, Run;
    Halfway();
    Between(Overtaken(), 10, 10);
    RenewalOvertakes(At(Overtaken(), 10), 2, 3, 7, 10, Draw(0, 14));
    OneOwes(At(Overtaken(), 10));
    OthersWait(At(Overtaken(), 10), Draw(0, 14));
    OvertakenNext(10, Go(2, Draw(0, 14)));
    OvertakenNext(11, Go(2, Draw(0, 14)));
    OvertakenNext(12, Go(3, Draw(0, 14)));
    SignsOutAt(At(Overtaken(), 9), At(Overtaken(), 12));
  }
}
