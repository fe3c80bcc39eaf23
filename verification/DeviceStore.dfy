/**
 * The sessions table, the access keys and the services that write them, statement by statement. What the services
 * promise here is for a call nobody interrupts; `DeviceSessions` treats the interleavings.
 */
module DeviceStore {
  import opened Wrappers
  import opened Config
  import opened DeviceSessions

  datatype AccessToken = AccessToken(session: Id, secret: Id)

  datatype Credentials = Credentials(access: AccessToken, refresh: RefreshToken)

  predicate Live(keys: map<Id, AccessKey>, token: AccessToken, at: nat) {
    token.session in keys && at < keys[token.session].until && keys[token.session].secret == token.secret
  }

  class Store {
    var sessions: map<Id, Row>
    var keys: map<Id, AccessKey>

    constructor ()
      ensures sessions == map[] && keys == map[]
    {
      sessions, keys := map[], map[];
    }

    // ---- statements and commands --------------------------------------------------------------------------

    /** The row's secret can rotate it until it expires and no other secret can; every other session is as it was. */
    method InsertSession(id: Id, row: Row)
      requires id !in sessions
      modifies this`sessions
      ensures sessions == old(sessions)[id := row]
      ensures forall token: RefreshToken, at: nat :: Rotatable(sessions, token, at) <==>
                if token.session == id then token.secret == row.current && at < row.expiresAt
                else Rotatable(old(sessions), token, at)
    {
      sessions := sessions[id := row];
    }

    method FindSession(id: Id) returns (row: Option<Row>)
      ensures row == if id in sessions then Some(sessions[id]) else None
    {
      return if id in sessions then Some(sessions[id]) else None;
    }

    /** One UPDATE: the current secret is demoted and replaced, or nothing changes. */
    method RotateSession(token: RefreshToken, next: Id, expiresAt: nat, at: nat) returns (rotated: Option<Row>)
      modifies this`sessions
      ensures rotated.Some? <==> Rotatable(old(sessions), token, at)
      ensures rotated.None? ==> sessions == old(sessions)
      ensures rotated.Some? ==>
                && rotated.value == Row(old(sessions)[token.session].user, next, Some(token.secret), expiresAt)
                && sessions == old(sessions)[token.session := rotated.value]
    {
      if token.session !in sessions {
        return None;
      }
      var row := sessions[token.session];
      if row.current != token.secret || row.expiresAt <= at {
        return None;
      }
      sessions := sessions[token.session := row.(current := next, previous := Some(row.current), expiresAt := expiresAt)];
      return Some(sessions[token.session]);
    }

    method DeleteSession(id: Id, user: Id) returns (deleted: bool)
      modifies this`sessions
      ensures deleted <==> id in old(sessions) && old(sessions)[id].user == user
      ensures sessions == if deleted then old(sessions) - {id} else old(sessions)
    {
      deleted := id in sessions && sessions[id].user == user;
      if deleted {
        sessions := sessions - {id};
      }
    }

    /** The ids handed back are exactly those of the rows that went. */
    method DeleteAllSessions(user: Id) returns (ids: set<Id>)
      modifies this`sessions
      ensures forall id :: id in ids <==> id in old(sessions) && old(sessions)[id].user == user
      ensures sessions == old(sessions) - ids
    {
      ids := set id | id in sessions && sessions[id].user == user;
      sessions := sessions - ids;
    }

    /** This token, and no other of its session, is live up to its lifetime; other sessions are as they were. */
    method IssueAccessToken(user: Id, id: Id, secret: Id, at: nat) returns (token: AccessToken)
      modifies this`keys
      ensures token == AccessToken(id, secret)
      ensures forall other: AccessToken, later: nat :: Live(keys, other, later) <==>
                if other.session == id then other == token && later < at + Ms(SESSION_ACCESS_TTL_SEC)
                else Live(old(keys), other, later)
      ensures keys == old(keys)[id := AccessKey(user, secret, at + Ms(SESSION_ACCESS_TTL_SEC))]
    {
      keys := keys[id := AccessKey(user, secret, at + Ms(SESSION_ACCESS_TTL_SEC))];
      return AccessToken(id, secret);
    }

    method VerifyAccessToken(token: AccessToken, at: nat) returns (user: Option<Id>)
      ensures user.Some? <==> Live(keys, token, at)
      ensures user.Some? ==> user.value == keys[token.session].user
    {
      if token.session !in keys || keys[token.session].until <= at {
        return None;
      }
      if keys[token.session].secret != token.secret {
        return None;
      }
      return Some(keys[token.session].user);
    }

    /** No token of these sessions is live at any time; every other is as it was. */
    method RevokeAccessTokens(ids: set<Id>)
      modifies this`keys
      ensures keys == old(keys) - ids
      ensures forall token: AccessToken, later: nat :: Live(keys, token, later) <==>
                token.session !in ids && Live(old(keys), token, later)
    {
      keys := keys - ids;
    }

    // ---- services -----------------------------------------------------------------------------------------

    /** Row first, then the key: the new tokens are the session's only live ones. */
    method CreateSession(user: Id, id: Id, refreshSecret: Id, accessSecret: Id, insertAt: nat, issueAt: nat)
      returns (credentials: Credentials)
      requires id !in sessions
      modifies this
      ensures credentials == Credentials(AccessToken(id, accessSecret), RefreshToken(id, refreshSecret))
      ensures sessions == old(sessions)[id := Row(user, refreshSecret, None, insertAt + Ms(SESSION_REFRESH_TTL_SEC))]
      ensures keys == old(keys)[id := AccessKey(user, accessSecret, issueAt + Ms(SESSION_ACCESS_TTL_SEC))]
    {
      InsertSession(id, Row(user, refreshSecret, None, insertAt + Ms(SESSION_REFRESH_TTL_SEC)));
      var access := IssueAccessToken(user, id, accessSecret, issueAt);
      return Credentials(access, RefreshToken(id, refreshSecret));
    }

    /** The session ends exactly when the secret is the one its row retired last; any other mismatch is left alone. */
    method RevokeOnReuse(id: Id, row: Row, secret: Id) returns (ended: bool)
      modifies this
      ensures ended <==> row.previous == Some(secret)
      ensures !ended ==> sessions == old(sessions) && keys == old(keys)
      ensures ended ==>
                && keys == old(keys) - {id}
                && (sessions == if id in old(sessions) && old(sessions)[id].user == row.user
                                then old(sessions) - {id} else old(sessions))
    {
      ended := row.previous == Some(secret);
      if ended {
        RevokeAccessTokens({id});
        var deleted := DeleteSession(id, row.user);
      }
    }

    /**
     * New credentials exactly for the row's current, unexpired secret; the access tokens of before are then dead
     * and the presented secret is the retired one. The retired one ends the session. Anything else changes nothing.
     */
    method RenewSession(token: RefreshToken, next: Id, accessSecret: Id, at: nat, issueAt: nat)
      returns (credentials: Option<Credentials>)
      requires next != token.secret
      modifies this
      ensures credentials.Some? <==> Rotatable(old(sessions), token, at)
      ensures credentials.Some? ==>
                && var user := old(sessions)[token.session].user;
                && credentials.value ==
                   Credentials(AccessToken(token.session, accessSecret), RefreshToken(token.session, next))
                && sessions == old(sessions)[token.session :=
                     Row(user, next, Some(token.secret), at + Ms(SESSION_REFRESH_TTL_SEC))]
                && keys == old(keys)[token.session :=
                     AccessKey(user, accessSecret, issueAt + Ms(SESSION_ACCESS_TTL_SEC))]
                && (forall other: AccessToken, later: nat ::
                      other.session == token.session && other.secret != accessSecret ==>
                      !Live(keys, other, later))
      ensures credentials.None? ==>
                if token.session in old(sessions) && old(sessions)[token.session].current != token.secret
                   && old(sessions)[token.session].previous == Some(token.secret)
                then sessions == old(sessions) - {token.session} && keys == old(keys) - {token.session}
                else sessions == old(sessions) && keys == old(keys)
    {
      var session := FindSession(token.session);
      if session.None? {
        return None;
      }
      if token.secret != session.value.current {
        var ended := RevokeOnReuse(token.session, session.value, token.secret);
        return None;
      }
      var rotated := RotateSession(token, next, at + Ms(SESSION_REFRESH_TTL_SEC), at);
      if rotated.None? {
        return None;
      }
      RevokeAccessTokens({token.session});
      var access := IssueAccessToken(rotated.value.user, token.session, accessSecret, issueAt);
      assert old(keys) - {token.session} == keys - {token.session};
      assert keys == old(keys)[token.session := keys[token.session]];
      return Some(Credentials(access, RefreshToken(token.session, next)));
    }

    method LogoutUser(user: Id, id: Id)
      modifies this
      ensures keys == old(keys) - {id}
      ensures sessions == if id in old(sessions) && old(sessions)[id].user == user
                          then old(sessions) - {id} else old(sessions)
    {
      RevokeAccessTokens({id});
      var deleted := DeleteSession(id, user);
    }

    /** Rows first, then the keys of exactly those rows: no session of the user is left, no other is touched. */
    method EndAllSessions(user: Id)
      modifies this
      ensures forall id :: id in sessions <==> id in old(sessions) && old(sessions)[id].user != user
      ensures forall id :: id in sessions ==> sessions[id] == old(sessions)[id]
      ensures forall id :: id in keys <==> id in old(keys) && !(id in old(sessions) && old(sessions)[id].user == user)
      ensures forall id :: id in keys ==> keys[id] == old(keys)[id]
    {
      var ids := DeleteAllSessions(user);
      RevokeAccessTokens(ids);
    }
  }
}
