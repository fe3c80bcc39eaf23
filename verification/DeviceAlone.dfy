/** A session request that no other disturbs, run step by step on the machine, ends exactly as the service promises. */
module DeviceAlone {
  import opened Wrappers
  import opened Config
  import opened DeviceSessions

  /** Sign-in: the row with its first secret, then, d later, the key with the first access token. */
  lemma UndisturbedCreate(w: World, r: Id, user: Id, c: Choice, e: Choice, d: nat)
    requires r in w.requests && w.requests[r] == CreateStamp(user)
    requires c.drawn !in w.minted && c.secret !in w.minted && c.drawn != c.secret
    requires e.secret !in w.minted + {c.drawn, c.secret}
    ensures var w' := Step(Step(Step(Step(w, Go(r, c)), Go(r, c)), Tick(d)), Go(r, e));
            && w'.requests == w.requests[r := Done] && w'.now == w.now + d
            && w'.sessions == w.sessions[c.drawn := Row(user, c.secret, None, w.now + Ms(SESSION_REFRESH_TTL_SEC))]
            && w'.keys == w.keys[c.drawn := AccessKey(user, e.secret, w.now + d + Ms(SESSION_ACCESS_TTL_SEC))]
  {
    var w1 := Step(w, Go(r, c));
    assert w1 == Move(w, r, CreateInsert(user, w.now));
    var w2 := Step(w1, Go(r, c));
    assert w2 == Insert(w1, r, user, w.now, c.drawn, c.secret);
  }

  lemma StampStands(w: World, r: Id, token: RefreshToken, c: Choice, d: nat)
    requires r in w.requests && w.requests[r] == RenewFind(token)
    requires token.session in w.sessions && w.sessions[token.session].current == token.secret
    ensures Step(Step(Step(w, Go(r, c)), Go(r, c)), Tick(d)) ==
            Move(w, r, RenewRotate(token, w.now)).(now := w.now + d)
  {
    assert Step(w, Go(r, c)) == Move(w, r, RenewStamp(token));
    assert w.requests[r := RenewStamp(token)][r := RenewRotate(token, w.now)] == w.requests[r := RenewRotate(token, w.now)];
  }

  lemma KeyFollows(w: World, r: Id, user: Id, session: Id, c: Choice, e: Choice)
    requires r in w.requests && w.requests[r] == RenewRevoke(user, session) && e.secret !in w.minted
    ensures var w' := Step(Step(w, Go(r, c)), Go(r, e));
            && w'.requests == w.requests[r := Done] && w'.sessions == w.sessions
            && w'.keys == w.keys[session := AccessKey(user, e.secret, w.now + Ms(SESSION_ACCESS_TTL_SEC))]
  {
    var w1 := Step(w, Go(r, c));
    assert w1 == DropKeys(w, r, {session}, Issue(user, session));
    assert (w.keys - {session})[session := AccessKey(user, e.secret, w.now + Ms(SESSION_ACCESS_TTL_SEC))] ==
      w.keys[session := AccessKey(user, e.secret, w.now + Ms(SESSION_ACCESS_TTL_SEC))];
  }

  function Renewed(w: World, r: Id, c: Choice, e: Choice, d: nat): World {
    var w3 := Step(Step(Step(w, Go(r, c)), Go(r, c)), Tick(d));
    Step(Step(Step(w3, Go(r, c)), Go(r, c)), Go(r, e))
  }

  /**
   * Renewal with the current secret: if the row has not expired it gets the next secret and a whole new lifetime, and
   * its key one new token; if it has, nothing changes.
   */
  lemma UndisturbedRenewal(w: World, r: Id, token: RefreshToken, c: Choice, e: Choice, d: nat)
    requires r in w.requests && w.requests[r] == RenewFind(token)
    requires token.session in w.sessions && w.sessions[token.session].current == token.secret
    requires c.secret !in w.minted && e.secret !in w.minted + {c.secret}
    ensures var w' := Renewed(w, r, c, e, d);
            var row := w.sessions[token.session];
            && w'.requests == w.requests[r := Done]
            && if w.now < row.expiresAt then
                 && w'.sessions == w.sessions[token.session :=
                      Row(row.user, c.secret, Some(token.secret), w.now + Ms(SESSION_REFRESH_TTL_SEC))]
                 && w'.keys == w.keys[token.session :=
                      AccessKey(row.user, e.secret, w.now + d + Ms(SESSION_ACCESS_TTL_SEC))]
               else w'.sessions == w.sessions && w'.keys == w.keys
  {
    StampStands(w, r, token, c, d);
    var w3 := Move(w, r, RenewRotate(token, w.now)).(now := w.now + d);
    if w.now < w.sessions[token.session].expiresAt {
      RotationStands(w3, r, token, w.now, c);
      hide Step;
      KeyFollows(Step(w3, Go(r, c)), r, w.sessions[token.session].user, token.session, c, e);
    } else {
      assert Step(w3, Go(r, c)) == Move(w3, r, Done);
    }
  }

  lemma RotationStands(w: World, r: Id, token: RefreshToken, at: nat, c: Choice)
    requires r in w.requests && w.requests[r] == RenewRotate(token, at) && c.secret !in w.minted
    requires token.session in w.sessions && w.sessions[token.session].current == token.secret
    requires at < w.sessions[token.session].expiresAt
    ensures var w' := Step(w, Go(r, c));
            var row := w.sessions[token.session];
            && w'.now == w.now && w'.minted == w.minted + {c.secret} && w'.keys == w.keys
            && w'.requests == w.requests[r := RenewRevoke(row.user, token.session)]
            && w'.sessions == w.sessions[token.session :=
                 Row(row.user, c.secret, Some(token.secret), at + Ms(SESSION_REFRESH_TTL_SEC))]
  {
  }

  /** A new password: every row of the user goes, then the keys of exactly those. */
  lemma UndisturbedNewPassword(w: World, r: Id, user: Id, c: Choice, d: Choice)
    requires r in w.requests && w.requests[r] == DeleteAll(user)
    ensures var w' := Step(Step(w, Go(r, c)), Go(r, d));
            && (forall id :: id in w'.sessions <==> id in w.sessions && w.sessions[id].user != user)
            && (forall id :: id in w'.sessions ==> w'.sessions[id] == w.sessions[id])
            && (forall id :: id in w'.keys <==> id in w.keys && !(id in w.sessions && w.sessions[id].user == user))
            && (forall id :: id in w'.keys ==> w'.keys[id] == w.keys[id])
  {
  }

  /** What the events outside any request take away, and nothing else. */
  lemma DeletionsTakeExactly(w: World, user: Id, at: nat)
    ensures forall id :: id in Step(w, DropUser(user)).sessions <==> id in w.sessions && w.sessions[id].user != user
    ensures forall id :: id in Step(w, DropUser(user)).sessions ==>
              Step(w, DropUser(user)).sessions[id] == w.sessions[id]
    ensures at <= w.now ==> forall id :: id in Step(w, Sweep(at)).sessions <==>
              id in w.sessions && at <= w.sessions[id].expiresAt
    ensures forall id :: id in Step(w, Sweep(at)).sessions ==> Step(w, Sweep(at)).sessions[id] == w.sessions[id]
  {
  }
}
