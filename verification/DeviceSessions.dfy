/**
 * First-party device sessions as a state machine: a row per device, one access key per row.
 *
 * As in `OauthWorld`, a step is one SQL statement, one Redis command or one reading of the clock, a crash is a
 * request that takes no further step, minted values are new, and a stored digest is represented by its secret.
 */
module DeviceSessions {
  import opened Wrappers
  import opened Config

  type Id = int

  datatype RefreshToken = RefreshToken(session: Id, secret: Id)

  datatype Row = Row(user: Id, current: Id, previous: Option<Id>, expiresAt: nat)

  /** The value under a session's access key, and when it vanishes. */
  datatype AccessKey = AccessKey(user: Id, secret: Id, until: nat)

  datatype Request =
    // createSession
    | CreateStamp(user: Id)
    | CreateInsert(user: Id, at: nat)
    // renewSession
    | RenewFind(token: RefreshToken)
    | RenewStamp(token: RefreshToken)
    | RenewRotate(token: RefreshToken, at: nat)
    | RenewRevoke(user: Id, session: Id)
    // both, last
    | Issue(user: Id, session: Id)
    // logoutUser, and revokeOnReuse
    | Revoke(user: Id, session: Id)
    | Delete(user: Id, session: Id)
    // changePassword and resetPassword
    | DeleteAll(user: Id)
    | RevokeAll(ids: set<Id>)
    | Done

  /** What has happened, kept for the proofs: no step reads it. */
  datatype History = History(
    chain: map<Id, seq<Id>>,       // per session, every refresh secret ever installed
    owner: map<Id, Id>,            // per session, its user
    spent: seq<RefreshToken>,      // refresh tokens in the order rotations spent them
    issued: map<Id, seq<Id>>)      // per session, every access secret ever written under its key

  datatype World = World(
    now: nat, minted: set<Id>, sessions: map<Id, Row>, keys: map<Id, AccessKey>, requests: map<Id, Request>,
    past: History)

  function Start(): World {
    World(0, {}, map[], map[], map[], History(map[], map[], [], map[]))
  }

  /** `verifyAccessToken`: the key is there and holds this secret. */
  predicate Verifies(w: World, session: Id, secret: Id) {
    session in w.keys && w.now < w.keys[session].until && w.keys[session].secret == secret
  }

  predicate Rotatable(sessions: map<Id, Row>, token: RefreshToken, at: nat) {
    token.session in sessions && sessions[token.session].current == token.secret && sessions[token.session].expiresAt > at
  }

  // ---- steps ----------------------------------------------------------------------------------------------

  datatype Choice = Choice(drawn: Id, secret: Id)

  function Move(w: World, r: Id, next: Request): World {
    w.(requests := w.requests[r := next])
  }

  function Insert(w: World, r: Id, user: Id, at: nat, id: Id, secret: Id): World {
    Move(w, r, Issue(user, id)).(
      minted := w.minted + {id, secret},
      sessions := w.sessions[id := Row(user, secret, None, at + Ms(SESSION_REFRESH_TTL_SEC))],
      past := w.past.(chain := w.past.chain[id := [secret]], owner := w.past.owner[id := user]))
  }

  function Rotate(w: World, r: Id, token: RefreshToken, at: nat, secret: Id): World
    requires token.session in w.sessions
  {
    var row := w.sessions[token.session];
    var links := if token.session in w.past.chain then w.past.chain[token.session] else [];
    Move(w, r, RenewRevoke(row.user, token.session)).(
      minted := w.minted + {secret},
      sessions := w.sessions[token.session :=
        Row(row.user, secret, Some(row.current), at + Ms(SESSION_REFRESH_TTL_SEC))],
      past := w.past.(chain := w.past.chain[token.session := links + [secret]], spent := w.past.spent + [token]))
  }

  function IssueKey(w: World, r: Id, user: Id, session: Id, secret: Id): World {
    var before := if session in w.past.issued then w.past.issued[session] else [];
    Move(w, r, Done).(
      minted := w.minted + {secret},
      keys := w.keys[session := AccessKey(user, secret, w.now + Ms(SESSION_ACCESS_TTL_SEC))],
      past := w.past.(issued := w.past.issued[session := before + [secret]]))
  }

  function DropKeys(w: World, r: Id, ids: set<Id>, next: Request): World {
    Move(w, r, next).(keys := w.keys - ids)
  }

  function WithoutRow(sessions: map<Id, Row>, id: Id, user: Id): map<Id, Row> {
    map s | s in sessions && !(s == id && sessions[s].user == user) :: sessions[s]
  }

  function WithoutUser(sessions: map<Id, Row>, user: Id): map<Id, Row> {
    map s | s in sessions && sessions[s].user != user :: sessions[s]
  }

  function Unexpired(sessions: map<Id, Row>, at: nat): map<Id, Row> {
    map s | s in sessions && !(sessions[s].expiresAt < at) :: sessions[s]
  }

  function AfterFind(w: World, token: RefreshToken): Request {
    if token.session !in w.sessions then Done
    else
      var row := w.sessions[token.session];
      if row.current == token.secret then RenewStamp(token)
      else if row.previous == Some(token.secret) then Revoke(row.user, token.session)
      else Done
  }

  function Advance(w: World, r: Id, c: Choice): World
    requires r in w.requests
  {
    match w.requests[r]
    case CreateStamp(user) => Move(w, r, CreateInsert(user, w.now))
    case CreateInsert(user, at) =>
      if c.drawn in w.minted || c.secret in w.minted || c.drawn == c.secret then w
      else Insert(w, r, user, at, c.drawn, c.secret)
    case RenewFind(token) => Move(w, r, AfterFind(w, token))
    case RenewStamp(token) => Move(w, r, RenewRotate(token, w.now))
    case RenewRotate(token, at) =>
      if c.secret in w.minted then w
      else if !Rotatable(w.sessions, token, at) then Move(w, r, Done)
      else Rotate(w, r, token, at, c.secret)
    case RenewRevoke(user, session) => DropKeys(w, r, {session}, Issue(user, session))
    case Issue(user, session) => if c.secret in w.minted then w else IssueKey(w, r, user, session, c.secret)
    case Revoke(user, session) => DropKeys(w, r, {session}, Delete(user, session))
    case Delete(user, session) => Move(w, r, Done).(sessions := WithoutRow(w.sessions, session, user))
    case DeleteAll(user) =>
      Move(w, r, RevokeAll(w.sessions.Keys - WithoutUser(w.sessions, user).Keys)).(
        sessions := WithoutUser(w.sessions, user))
    case RevokeAll(ids) => DropKeys(w, r, ids, Done)
    case Done => w
  }

  datatype Call = Create(user: Id) | Renew(token: RefreshToken) | Logout(user: Id, session: Id) | NewPassword(user: Id)

  function Entry(call: Call): Request {
    match call
    case Create(user) => CreateStamp(user)
    case Renew(token) => RenewFind(token)
    case Logout(user, session) => Revoke(user, session)
    case NewPassword(user) => DeleteAll(user)
  }

  datatype Event =
    | Tick(ms: nat)
    | Arrive(request: Id, call: Call)
    | Go(request: Id, choice: Choice)
    | Sweep(at: nat)       // pruneExpiredSessions, with the instant it read
    | DropUser(user: Id)   // a user row goes and its sessions with it

  function Step(w: World, e: Event): World {
    match e
    case Tick(ms) => w.(now := w.now + ms)
    case Arrive(r, call) => if r in w.requests then w else Move(w, r, Entry(call))
    case Go(r, c) => if r in w.requests then Advance(w, r, c) else w
    case Sweep(at) => w.(sessions := if at <= w.now then Unexpired(w.sessions, at) else w.sessions)
    case DropUser(user) => w.(sessions := WithoutUser(w.sessions, user))
  }

  function Run(w: World, events: seq<Event>): World
    decreases |events|
  {
    if events == [] then w else Step(Run(w, events[..|events| - 1]), events[|events| - 1])
  }

  lemma {:induction false} RunSplits(w: World, first: seq<Event>, rest: seq<Event>)
    ensures Run(w, first + rest) == Run(Run(w, first), rest)
    decreases |rest|
  {
    if rest == [] {
      assert first + rest == first;
    } else {
      var all := first + rest;
      assert all[..|all| - 1] == first + rest[..|rest| - 1];
      RunSplits(w, first, rest[..|rest| - 1]);
    }
  }

  // ---- the invariant --------------------------------------------------------------------------------------

  function Last<T>(items: seq<T>): T
    requires items != []
  {
    items[|items| - 1]
  }

  ghost predicate ChainOk(w: World, id: Id, links: seq<Id>) {
    && links != [] && id in w.minted
    && (forall i :: 0 <= i < |links| ==> links[i] in w.minted)
    && (forall i, j :: 0 <= i < j < |links| ==> links[i] != links[j])
  }

  ghost predicate ChainsOk(w: World) {
    && w.past.owner.Keys == w.past.chain.Keys
    && forall id :: id in w.past.chain ==> ChainOk(w, id, w.past.chain[id])
  }

  /** The row sits at the end of its session's chain. */
  ghost predicate RowOk(w: World, id: Id, row: Row) {
    && id in w.past.chain && w.past.chain[id] != []
    && var links := w.past.chain[id];
    && row.current == Last(links)
    && row.previous == (if |links| == 1 then None else Some(links[|links| - 2]))
    && id in w.past.owner && row.user == w.past.owner[id]
  }

  ghost predicate RowsOk(w: World) {
    forall id :: id in w.sessions ==> RowOk(w, id, w.sessions[id])
  }

  /** Not the last of its session's chain. */
  ghost predicate Superseded(w: World, token: RefreshToken) {
    && token.session in w.past.chain
    && exists i :: 0 <= i < |w.past.chain[token.session]| - 1 && w.past.chain[token.session][i] == token.secret
  }

  ghost predicate SpentOk(w: World) {
    forall token :: token in w.past.spent <==> Superseded(w, token)
  }

  /** The key holds the newest access secret of its session, for at most one lifetime more. */
  ghost predicate KeyOk(w: World, id: Id, key: AccessKey) {
    && id in w.past.issued && w.past.issued[id] != [] && key.secret == Last(w.past.issued[id])
    && key.until <= w.now + Ms(SESSION_ACCESS_TTL_SEC)
    && id in w.past.owner && key.user == w.past.owner[id]
  }

  ghost predicate KeysOk(w: World) {
    forall id :: id in w.keys ==> KeyOk(w, id, w.keys[id])
  }

  /** The request has written this session's row and has its access key still to write. */
  predicate Owes(q: Request, session: Id) {
    (q.RenewRevoke? || q.Issue?) && q.session == session
  }

  predicate PendingOk(w: World, q: Request) {
    q.RenewRevoke? || q.Issue? ==>
      q.session in w.past.chain && q.session in w.past.owner && w.past.owner[q.session] == q.user
  }

  ghost predicate RequestsOk(w: World) {
    forall r :: r in w.requests ==> PendingOk(w, w.requests[r])
  }

  ghost predicate Inv(w: World) {
    ChainsOk(w) && RowsOk(w) && SpentOk(w) && KeysOk(w) && RequestsOk(w)
  }

  /** What only grows. */
  ghost predicate Later(w: World, w': World) {
    && w.now <= w'.now && w.minted <= w'.minted
    && (forall id :: id in w.past.chain ==> id in w'.past.chain && w.past.chain[id] <= w'.past.chain[id])
    && (forall id :: id in w.past.owner ==> id in w'.past.owner && w'.past.owner[id] == w.past.owner[id])
    && w.past.spent <= w'.past.spent
  }

  lemma LaterIsReflexive(w: World)
    ensures Later(w, w)
  {
  }

  // ---- steps that write no history -------------------------------------------------------------------------

  /** Rows and keys may go, requests may move to where they owe nothing new. */
  ghost predicate Quiet(w: World, w': World) {
    && w'.past == w.past && w'.minted == w.minted && w.now <= w'.now
    && (forall id :: id in w'.sessions ==> id in w.sessions && w'.sessions[id] == w.sessions[id])
    && (forall id :: id in w'.keys ==> id in w.keys && w'.keys[id] == w.keys[id])
    && (forall r :: r in w'.requests && PendingOk(w, w'.requests[r]) ==> PendingOk(w', w'.requests[r]))
  }

  lemma QuietKeeps(w: World, w': World)
    requires Inv(w) && Quiet(w, w') && forall r :: r in w'.requests ==> PendingOk(w, w'.requests[r])
    ensures Inv(w') && Later(w, w')
  {
    forall id | id in w'.past.chain ensures ChainOk(w', id, w'.past.chain[id]) {
      assert ChainOk(w, id, w.past.chain[id]);
    }
    forall id | id in w'.sessions ensures RowOk(w', id, w'.sessions[id]) {
      assert RowOk(w, id, w.sessions[id]);
    }
    forall id | id in w'.keys ensures KeyOk(w', id, w'.keys[id]) {
      assert KeyOk(w, id, w.keys[id]);
    }
    forall token ensures token in w'.past.spent <==> Superseded(w', token) {
      assert Superseded(w', token) <==> Superseded(w, token);
    }
  }

  predicate WritesHistory(q: Request) {
    q.CreateInsert? || q.RenewRotate? || q.Issue?
  }

  lemma QuietAdvance(w: World, r: Id, c: Choice)
    requires r in w.requests && !WritesHistory(w.requests[r])
    ensures Quiet(w, Advance(w, r, c))
    ensures var w' := Advance(w, r, c);
            w'.requests == w.requests[r := w'.requests[r]] && (PendingOk(w, w.requests[r]) ==> PendingOk(w, w'.requests[r]))
  {
    QuietRequest(w, r, c);
    hide PendingOk;
    SameRequestsOk(w, Advance(w, r, c));
  }

  lemma QuietRequest(w: World, r: Id, c: Choice)
    requires r in w.requests && !WritesHistory(w.requests[r])
    ensures var w' := Advance(w, r, c);
            && w'.past == w.past && w'.requests == w.requests[r := w'.requests[r]]
            && (PendingOk(w, w.requests[r]) ==> PendingOk(w, w'.requests[r]))
  {
  }

  lemma SameRequestsOk(w: World, w': World)
    requires w'.past == w.past
    ensures forall q :: PendingOk(w, q) <==> PendingOk(w', q)
  {
  }

  lemma QuietStep(w: World, r: Id, c: Choice)
    requires Inv(w) && r in w.requests && !WritesHistory(w.requests[r])
    ensures Inv(Advance(w, r, c)) && Later(w, Advance(w, r, c))
  {
    hide Advance;
    QuietAdvance(w, r, c);
    assert PendingOk(w, w.requests[r]);
    QuietKeeps(w, Advance(w, r, c));
  }

  lemma OutsideStep(w: World, e: Event)
    requires Inv(w) && !e.Go?
    ensures Inv(Step(w, e)) && Later(w, Step(w, e))
  {
    QuietKeeps(w, Step(w, e));
  }

  // ---- steps that write history ----------------------------------------------------------------------------

  lemma ChainsKeep(w: World, w': World, except: Id)
    requires ChainsOk(w) && w.minted <= w'.minted
    requires w'.past.owner.Keys == w'.past.chain.Keys
    requires forall id :: id in w'.past.chain && id != except ==> id in w.past.chain && w'.past.chain[id] == w.past.chain[id]
    requires except in w'.past.chain ==> ChainOk(w', except, w'.past.chain[except])
    ensures ChainsOk(w')
  {
    forall id | id in w'.past.chain ensures ChainOk(w', id, w'.past.chain[id]) {
      if id != except { assert ChainOk(w, id, w.past.chain[id]); }
    }
  }

  lemma RowsKeep(w: World, w': World, except: Id)
    requires RowsOk(w)
    requires forall id :: id in w.past.owner && id != except ==>
               id in w'.past.owner && w'.past.owner[id] == w.past.owner[id]
    requires forall id :: id in w.past.chain && id != except ==> id in w'.past.chain && w'.past.chain[id] == w.past.chain[id]
    requires forall id :: id in w'.sessions && id != except ==> id in w.sessions && w'.sessions[id] == w.sessions[id]
    requires except in w'.sessions ==> RowOk(w', except, w'.sessions[except])
    ensures RowsOk(w')
  {
    forall id | id in w'.sessions ensures RowOk(w', id, w'.sessions[id]) {
      if id != except { assert RowOk(w, id, w.sessions[id]); }
    }
  }

  lemma KeysKeep(w: World, w': World)
    requires KeysOk(w) && w'.keys == w.keys && w'.past.issued == w.past.issued && w.now <= w'.now
    requires forall id :: id in w.past.owner ==> id in w'.past.owner && w'.past.owner[id] == w.past.owner[id]
    ensures KeysOk(w')
  {
    forall id | id in w'.keys ensures KeyOk(w', id, w'.keys[id]) {
      assert KeyOk(w, id, w.keys[id]);
    }
  }

  lemma RequestsKeep(w: World, w': World, r: Id)
    requires RequestsOk(w)
    requires forall id :: id in w.past.chain ==> id in w'.past.chain
    requires forall id :: id in w.past.owner ==> id in w'.past.owner && w'.past.owner[id] == w.past.owner[id]
    requires r in w'.requests && w'.requests == w.requests[r := w'.requests[r]] && PendingOk(w', w'.requests[r])
    ensures RequestsOk(w')
  {
    forall x | x in w'.requests ensures PendingOk(w', w'.requests[x]) {
      if x != r { assert PendingOk(w, w.requests[x]); }
    }
  }

  lemma InsertKeeps(w: World, r: Id, user: Id, at: nat, id: Id, secret: Id)
    requires Inv(w) && id !in w.minted && secret !in w.minted && id != secret
    ensures var w' := Insert(w, r, user, at, id, secret); Inv(w') && Later(w, w')
  {
    var w' := Insert(w, r, user, at, id, secret);
    assert id !in w.past.chain by {
      assert forall x :: x in w.past.chain ==> ChainOk(w, x, w.past.chain[x]);
    }
    ChainsKeep(w, w', id);
    RowsKeep(w, w', id);
    KeysKeep(w, w');
    RequestsKeep(w, w', r);
    forall token ensures token in w'.past.spent <==> Superseded(w', token) {
      assert token in w.past.spent <==> Superseded(w, token);
      if token.session != id {
        assert Superseded(w', token) <==> Superseded(w, token);
      }
    }
  }

  lemma RotateChain(w: World, w': World, r: Id, token: RefreshToken, at: nat, secret: Id)
    requires ChainsOk(w) && RowsOk(w) && secret !in w.minted && token.session in w.sessions
    requires w' == Rotate(w, r, token, at, secret)
    ensures token.session in w.past.chain && ChainOk(w, token.session, w.past.chain[token.session])
    ensures w'.past.chain == w.past.chain[token.session := w.past.chain[token.session] + [secret]]
    ensures ChainOk(w', token.session, w'.past.chain[token.session])
    ensures RowOk(w', token.session, w'.sessions[token.session])
  {
    assert RowOk(w, token.session, w.sessions[token.session]);
    assert ChainOk(w, token.session, w.past.chain[token.session]);
  }

  lemma RotateSpent(w: World, w': World, token: RefreshToken, secret: Id)
    requires SpentOk(w) && token.session in w.past.chain && w.past.chain[token.session] != []
    requires Last(w.past.chain[token.session]) == token.secret
    requires w'.past.chain == w.past.chain[token.session := w.past.chain[token.session] + [secret]]
    requires w'.past.spent == w.past.spent + [token]
    ensures SpentOk(w')
  {
    var links := w.past.chain[token.session];
    forall t ensures t in w'.past.spent <==> Superseded(w', t) {
      assert t in w.past.spent <==> Superseded(w, t);
      if t.session == token.session {
        var links' := w'.past.chain[t.session];
        assert links' == links + [secret];
        if t == token { assert links'[|links'| - 2] == t.secret; }
        if Superseded(w, t) {
          var i :| 0 <= i < |links| - 1 && links[i] == t.secret;
          assert links'[i] == t.secret;
        }
        if Superseded(w', t) {
          var i :| 0 <= i < |links'| - 1 && links'[i] == t.secret;
          assert links'[i] == links[i];
        }
      } else {
        assert Superseded(w', t) <==> Superseded(w, t);
      }
    }
  }

  lemma RotateKeeps(w: World, r: Id, token: RefreshToken, at: nat, secret: Id)
    requires Inv(w) && secret !in w.minted && Rotatable(w.sessions, token, at)
    ensures var w' := Rotate(w, r, token, at, secret); Inv(w') && Later(w, w')
  {
    var w' := Rotate(w, r, token, at, secret);
    RotateChain(w, w', r, token, at, secret);
    assert RowOk(w, token.session, w.sessions[token.session]);
    ChainsKeep(w, w', token.session);
    RowsKeep(w, w', token.session);
    KeysKeep(w, w');
    RequestsKeep(w, w', r);
    RotateSpent(w, w', token, secret);
  }

  lemma IssueKeeps(w: World, r: Id, user: Id, session: Id, secret: Id)
    requires Inv(w) && r in w.requests && w.requests[r] == Issue(user, session)
    ensures var w' := IssueKey(w, r, user, session, secret); Inv(w') && Later(w, w')
  {
    var w' := IssueKey(w, r, user, session, secret);
    assert PendingOk(w, w.requests[r]);
    ChainsKeep(w, w', session) by {
      if session in w.past.chain { assert ChainOk(w, session, w.past.chain[session]); }
    }
    RowsKeep(w, w', session) by {
      if session in w.sessions { assert RowOk(w, session, w.sessions[session]); }
    }
    RequestsKeep(w, w', r);
    forall id | id in w'.keys ensures KeyOk(w', id, w'.keys[id]) {
      if id != session { assert KeyOk(w, id, w.keys[id]); }
    }
    forall token ensures token in w'.past.spent <==> Superseded(w', token) {
      assert token in w.past.spent <==> Superseded(w, token);
      assert Superseded(w', token) <==> Superseded(w, token);
    }
  }

  lemma AdvanceKeeps(w: World, r: Id, c: Choice)
    requires Inv(w) && r in w.requests
    ensures Inv(Advance(w, r, c)) && Later(w, Advance(w, r, c))
  {
    hide Inv, Later;
    LaterIsReflexive(w);
    match w.requests[r]
    case CreateInsert(user, at) =>
      if c.drawn !in w.minted && c.secret !in w.minted && c.drawn != c.secret {
        InsertKeeps(w, r, user, at, c.drawn, c.secret);
      }
    case RenewRotate(token, at) =>
      if c.secret !in w.minted {
        if Rotatable(w.sessions, token, at) {
          RotateKeeps(w, r, token, at, c.secret);
        } else {
          MoveKeeps(w, r, Done);
        }
      }
    case Issue(user, session) =>
      if c.secret !in w.minted { IssueKeeps(w, r, user, session, c.secret); }
    case _ => QuietStep(w, r, c);
  }

  lemma MoveKeeps(w: World, r: Id, q: Request)
    requires Inv(w) && PendingOk(w, q)
    ensures Inv(Move(w, r, q)) && Later(w, Move(w, r, q))
  {
    QuietKeeps(w, Move(w, r, q));
  }

  lemma StepKeeps(w: World, e: Event)
    requires Inv(w)
    ensures Inv(Step(w, e)) && Later(w, Step(w, e))
  {
    LaterIsReflexive(w);
    if !e.Go? {
      OutsideStep(w, e);
    } else if e.request in w.requests {
      hide Inv, Later, Advance;
      AdvanceKeeps(w, e.request, e.choice);
    }
  }

  lemma LaterChains(a: World, b: World, c: World)
    requires Later(a, b) && Later(b, c)
    ensures Later(a, c)
  {
  }

  lemma {:induction false} RunKeeps(w: World, events: seq<Event>)
    requires Inv(w)
    ensures Inv(Run(w, events)) && Later(w, Run(w, events))
    decreases |events|
  {
    LaterIsReflexive(w);
    if events != [] {
      var before := Run(w, events[..|events| - 1]);
      RunKeeps(w, events[..|events| - 1]);
      StepKeeps(before, events[|events| - 1]);
      LaterChains(w, before, Run(w, events));
    }
  }

  /** The state after the first i events of a run. */
  function At(events: seq<Event>, i: nat): World
    requires i <= |events|
  {
    Run(Start(), events[..i])
  }

  lemma StartsInv()
    ensures Inv(Start())
  {
  }

  lemma AtNext(events: seq<Event>, i: nat)
    requires i < |events|
    ensures At(events, i + 1) == Step(At(events, i), events[i])
  {
    assert events[..i + 1][..i] == events[..i];
  }

  lemma Between(events: seq<Event>, i: nat, j: nat)
    requires i <= j <= |events|
    ensures At(events, j) == Run(At(events, i), events[i..j])
    ensures Inv(At(events, i)) && Inv(At(events, j)) && Later(At(events, i), At(events, j))
  {
    StartsInv();
    RunKeeps(Start(), events[..i]);
    assert events[..j] == events[..i] + events[i..j];
    RunSplits(Start(), events[..i], events[i..j]);
    RunKeeps(At(events, i), events[i..j]);
  }

  // ---- refresh tokens -------------------------------------------------------------------------------------

  /** The event by which a request spends this refresh token. */
  predicate Spends(w: World, e: Event, token: RefreshToken) {
    && e.Go? && e.request in w.requests && w.requests[e.request].RenewRotate?
    && w.requests[e.request].token == token && e.choice.secret !in w.minted
    && Rotatable(w.sessions, token, w.requests[e.request].at)
  }

  lemma SpendingRecords(w: World, e: Event, token: RefreshToken)
    requires Spends(w, e, token)
    ensures token in Step(w, e).past.spent
  {
    assert Step(w, e).past.spent[|w.past.spent|] == token;
  }

  lemma SpentIsUseless(w: World, e: Event, token: RefreshToken)
    requires Inv(w) && token in w.past.spent
    ensures !Spends(w, e, token)
  {
    assert Superseded(w, token);
    if token.session in w.sessions {
      var links := w.past.chain[token.session];
      assert RowOk(w, token.session, w.sessions[token.session]);
      assert ChainOk(w, token.session, links);
      var i :| 0 <= i < |links| - 1 && links[i] == token.secret;
    }
  }

  /** No two events of a run spend the same refresh token. */
  lemma SpentAtMostOnce(events: seq<Event>, i: nat, j: nat, token: RefreshToken)
    requires i < j < |events| && Spends(At(events, i), events[i], token)
    ensures !Spends(At(events, j), events[j], token)
  {
    AtNext(events, i);
    SpendingRecords(At(events, i), events[i], token);
    Between(events, i + 1, j);
    SpentIsUseless(At(events, j), events[j], token);
  }

  /** A session's refresh secrets form a chain without repetition; its row holds the last two, all but the last are spent. */
  lemma RowHoldsTheLastTwo(events: seq<Event>, id: Id)
    requires id in Run(Start(), events).sessions
    ensures var w := Run(Start(), events);
            && id in w.past.chain && w.past.chain[id] != []
            && var links := w.past.chain[id];
            && (forall i, j :: 0 <= i < j < |links| ==> links[i] != links[j])
            && w.sessions[id].current == Last(links)
            && w.sessions[id].previous == (if |links| == 1 then None else Some(links[|links| - 2]))
            && (forall i :: 0 <= i < |links| ==> (RefreshToken(id, links[i]) in w.past.spent <==> i < |links| - 1))
  {
    var w := Run(Start(), events);
    StartsInv();
    RunKeeps(Start(), events);
    assert RowOk(w, id, w.sessions[id]);
    var links := w.past.chain[id];
    assert ChainOk(w, id, links);
    forall i | 0 <= i < |links| ensures RefreshToken(id, links[i]) in w.past.spent <==> i < |links| - 1 {
      assert RefreshToken(id, links[i]) in w.past.spent <==> Superseded(w, RefreshToken(id, links[i]));
    }
  }

  /**
   * What presenting a token does, by where its secret stands in the session's chain: the last may rotate, the one
   * before it ends the session, any other, retired or never ours, changes nothing.
   */
  lemma PresentedTokenDecides(w: World, r: Id, c: Choice, token: RefreshToken)
    requires Inv(w) && r in w.requests && w.requests[r] == RenewFind(token) && token.session in w.sessions
    ensures token.session in w.past.chain
    ensures var links := w.past.chain[token.session];
            var next := Advance(w, r, c).requests[r];
            && links != []
            && (next == RenewStamp(token) <==> token.secret == Last(links))
            && (next == Revoke(w.past.owner[token.session], token.session) <==>
                  |links| > 1 && token.secret == links[|links| - 2])
            && (token.secret !in links[if |links| > 1 then |links| - 2 else 0..] <==> next == Done)
            && Advance(w, r, c) == Move(w, r, next)
  {
    var links := w.past.chain[token.session];
    assert RowOk(w, token.session, w.sessions[token.session]);
    assert ChainOk(w, token.session, links);
    var tail := links[if |links| > 1 then |links| - 2 else 0..];
    if |links| > 1 {
      assert tail == [links[|links| - 2], links[|links| - 1]];
    } else {
      assert tail == [links[0]];
    }
  }

  /** A spent token presented again, uninterrupted, leaves neither row nor access key. */
  lemma ReuseEndsTheSession(w: World, r: Id, a: Choice, b: Choice, c: Choice, token: RefreshToken)
    requires Inv(w) && r in w.requests && w.requests[r] == RenewFind(token) && token.session in w.sessions
    requires w.sessions[token.session].previous == Some(token.secret)
    ensures var w' := Step(Step(Step(w, Go(r, a)), Go(r, b)), Go(r, c));
            && token.session !in w'.sessions && token.session !in w'.keys
            && forall id :: id != token.session ==>
                 && (id in w'.sessions <==> id in w.sessions) && (id in w'.keys <==> id in w.keys)
  {
    assert RowOk(w, token.session, w.sessions[token.session]);
    assert ChainOk(w, token.session, w.past.chain[token.session]);
    var w1 := Step(w, Go(r, a));
    assert w1 == Move(w, r, Revoke(w.sessions[token.session].user, token.session));
  }

  // ---- access tokens --------------------------------------------------------------------------------------

  /** At most one access token of a session verifies, the one written last, and for at most one lifetime. */
  lemma OnlyTheNewestVerifies(events: seq<Event>, session: Id, secret: Id)
    requires Verifies(Run(Start(), events), session, secret)
    ensures var w := Run(Start(), events);
            && session in w.past.issued && w.past.issued[session] != [] && secret == Last(w.past.issued[session])
            && w.keys[session].until <= w.now + Ms(SESSION_ACCESS_TTL_SEC)
            && session in w.past.owner && w.keys[session].user == w.past.owner[session]
  {
    StartsInv();
    RunKeeps(Start(), events);
    var w := Run(Start(), events);
    assert KeyOk(w, session, w.keys[session]);
  }

  // ---- after the row is gone ------------------------------------------------------------------------------

  /** The session had a row and has none now. */
  predicate Gone(w: World, id: Id) {
    id in w.past.chain && id !in w.sessions
  }

  /** The requests that have written the row and have its access key still to write. */
  function Owing(w: World, id: Id): set<Id> {
    set r | r in w.requests && Owes(w.requests[r], id)
  }

  /** How often the session's access key was written. */
  function Writes(w: World, id: Id): nat {
    if id in w.past.issued then |w.past.issued[id]| else 0
  }

  predicate SameKey(w: World, w': World, id: Id) {
    id in w'.keys ==> id in w.keys && w'.keys[id] == w.keys[id]
  }

  /** Nobody joins the owing requests, and each writes the key at most once, leaving them as it does. */
  ghost predicate Dwindles(w: World, w': World, id: Id) {
    && Owing(w', id) <= Owing(w, id) && w.now <= w'.now
    && Writes(w', id) + |Owing(w', id)| <= Writes(w, id) + |Owing(w, id)|
    && (SameKey(w, w', id) || Owing(w', id) != Owing(w, id))
  }

  lemma GoneStays(w: World, e: Event, id: Id)
    requires Inv(w) && Gone(w, id)
    ensures Gone(Step(w, e), id)
  {
    hide *;
    GoneTells(w, id);
    StepKeeps(w, e);
    ChainStaysThere(w, Step(w, e), id);
    NotInsertedAgain(w, e, id);
    GoneMade(Step(w, e), id);
  }

  lemma GoneTells(w: World, id: Id)
    requires Inv(w) && Gone(w, id)
    ensures id in w.minted && id in w.past.chain && id !in w.sessions
  {
    assert ChainOk(w, id, w.past.chain[id]);
  }

  lemma GoneMade(w: World, id: Id)
    requires id in w.past.chain && id !in w.sessions
    ensures Gone(w, id)
  {
  }

  lemma ChainStaysThere(w: World, w': World, id: Id)
    requires Later(w, w') && id in w.past.chain
    ensures id in w'.past.chain
  {
  }

  lemma NotInsertedAgain(w: World, e: Event, id: Id)
    requires id in w.minted && id !in w.sessions
    ensures id !in Step(w, e).sessions
  {
  }

  lemma SubsetCount(a: set<Id>, b: set<Id>)
    requires a <= b
    ensures |a| <= |b|
  {
    assert b == a + (b - a);
  }

  lemma OwingShrinks(w: World, w': World, r: Id, id: Id)
    requires r in w.requests && r in w'.requests && w'.requests == w.requests[r := w'.requests[r]]
    requires Owes(w'.requests[r], id) ==> Owes(w.requests[r], id)
    ensures Owing(w', id) <= Owing(w, id) && |Owing(w', id)| <= |Owing(w, id)|
    ensures r in Owing(w, id) && r !in Owing(w', id) ==> |Owing(w', id)| < |Owing(w, id)|
  {
    forall x | x in Owing(w', id) ensures x in Owing(w, id) {
      assert x in w.requests;
    }
    SubsetCount(Owing(w', id), Owing(w, id));
    if r in Owing(w, id) && r !in Owing(w', id) {
      SubsetCount(Owing(w', id), Owing(w, id) - {r});
    }
  }

  ghost predicate Leaves(w: World, w': World, r: Id, id: Id)
    requires r in w.requests
  {
    && w'.now == w.now && r in w'.requests && w'.requests == w.requests[r := w'.requests[r]]
    && (Owes(w'.requests[r], id) ==> Owes(w.requests[r], id))
    && ((SameKey(w, w', id) && Writes(w', id) == Writes(w, id))
        || (Owes(w.requests[r], id) && !Owes(w'.requests[r], id) && Writes(w', id) == Writes(w, id) + 1))
  }

  lemma IssueLeaves(w: World, r: Id, user: Id, session: Id, secret: Id, id: Id)
    requires r in w.requests && w.requests[r] == Issue(user, session)
    ensures Leaves(w, IssueKey(w, r, user, session, secret), r, id)
  {
  }

  lemma RotateLeaves(w: World, r: Id, token: RefreshToken, at: nat, secret: Id, id: Id)
    requires r in w.requests && id !in w.sessions && token.session in w.sessions
    ensures Leaves(w, Rotate(w, r, token, at, secret), r, id)
  {
  }

  lemma InsertLeaves(w: World, r: Id, user: Id, at: nat, drawn: Id, secret: Id, id: Id)
    requires r in w.requests && drawn != id
    ensures Leaves(w, Insert(w, r, user, at, drawn, secret), r, id)
  {
  }

  lemma MoveLeaves(w: World, r: Id, q: Request, id: Id)
    requires r in w.requests && (Owes(q, id) ==> Owes(w.requests[r], id))
    ensures Leaves(w, Move(w, r, q), r, id) && Leaves(w, w, r, id)
  {
  }

  lemma DropLeaves(w: World, r: Id, ids: set<Id>, q: Request, id: Id)
    requires r in w.requests && (Owes(q, id) ==> Owes(w.requests[r], id))
    ensures Leaves(w, DropKeys(w, r, ids, q), r, id)
  {
  }

  /** One request's step, with the session gone. */
  lemma AdvanceLeaves(w: World, r: Id, c: Choice, id: Id)
    requires r in w.requests && id in w.minted && id !in w.sessions
    ensures Leaves(w, Advance(w, r, c), r, id)
  {
    hide Leaves, Insert, Rotate, IssueKey, DropKeys, Rotatable;
    MoveLeaves(w, r, w.requests[r], id);
    match w.requests[r]
    case CreateInsert(user, at) =>
      if c.drawn !in w.minted { InsertLeaves(w, r, user, at, c.drawn, c.secret, id); }
    case RenewFind(token) => MoveLeaves(w, r, AfterFind(w, token), id);
    case RenewRotate(token, at) =>
      if Rotatable(w.sessions, token, at) {
        assert token.session in w.sessions by { RotatableHasRow(w.sessions, token, at); }
        RotateLeaves(w, r, token, at, c.secret, id);
      } else {
        MoveLeaves(w, r, Done, id);
      }
    case RenewRevoke(user, session) => DropLeaves(w, r, {session}, Issue(user, session), id);
    case Issue(user, session) => IssueLeaves(w, r, user, session, c.secret, id);
    case Revoke(user, session) => DropLeaves(w, r, {session}, Delete(user, session), id);
    case RevokeAll(ids) => DropLeaves(w, r, ids, Done, id);
    case _ => QuietLeaves(w, r, c, id);
  }

  lemma RotatableHasRow(sessions: map<Id, Row>, token: RefreshToken, at: nat)
    requires Rotatable(sessions, token, at)
    ensures token.session in sessions
  {
  }

  lemma QuietLeaves(w: World, r: Id, c: Choice, id: Id)
    requires r in w.requests
    requires var q := w.requests[r]; q.CreateStamp? || q.RenewStamp? || q.Delete? || q.DeleteAll? || q.Done?
    ensures Leaves(w, Advance(w, r, c), r, id)
  {
  }

  lemma AdvanceDwindles(w: World, r: Id, c: Choice, id: Id)
    requires Inv(w) && Gone(w, id) && r in w.requests
    ensures Dwindles(w, Advance(w, r, c), id)
  {
    var w' := Advance(w, r, c);
    assert id in w.minted by { assert ChainOk(w, id, w.past.chain[id]); }
    hide Inv, Advance, SameKey, Writes;
    AdvanceLeaves(w, r, c, id);
    OwingShrinks(w, w', r, id);
  }

  lemma StepDwindles(w: World, e: Event, id: Id)
    requires Inv(w) && Gone(w, id)
    ensures Dwindles(w, Step(w, e), id)
  {
    if e.Go? && e.request in w.requests {
      hide Inv, Advance, Dwindles;
      AdvanceDwindles(w, e.request, e.choice, id);
    } else {
      hide Inv;
      assert Owing(Step(w, e), id) == Owing(w, id);
    }
  }

  lemma DwindlesChains(a: World, b: World, c: World, id: Id)
    requires Dwindles(a, b, id) && Dwindles(b, c, id)
    ensures Dwindles(a, c, id)
  {
  }

  lemma {:induction false} GoneForGood(w: World, events: seq<Event>, id: Id)
    requires Inv(w) && Gone(w, id)
    ensures var w' := Run(w, events); Inv(w') && Gone(w', id) && Dwindles(w, w', id)
    decreases |events|
  {
    if events != [] {
      var before := Run(w, events[..|events| - 1]);
      GoneForGood(w, events[..|events| - 1], id);
      StepKeeps(before, events[|events| - 1]);
      GoneStays(before, events[|events| - 1], id);
      StepDwindles(before, events[|events| - 1], id);
      DwindlesChains(w, before, Run(w, events), id);
    }
  }

  /**
   * Once a session's row is gone: it never comes back, its access key is written at most once more by each request
   * that had already written the row, and by nobody else, and what verifies then ends within one lifetime.
   */
  lemma AfterTheRowIsGone(events: seq<Event>, i: nat, j: nat, id: Id)
    requires i <= j <= |events| && Gone(At(events, i), id)
    ensures var w := At(events, i);
            var w' := At(events, j);
            && Gone(w', id)
            && Owing(w', id) <= Owing(w, id)
            && Writes(w', id) - Writes(w, id) <= |Owing(w, id)| - |Owing(w', id)|
            && (forall s :: Verifies(w', id, s) ==> w'.keys[id].until <= w'.now + Ms(SESSION_ACCESS_TTL_SEC))
            && (Owing(w, id) == {} && w.now + Ms(SESSION_ACCESS_TTL_SEC) <= w'.now ==>
                  forall s :: !Verifies(w', id, s))
  {
    Between(events, i, j);
    var w := At(events, i);
    var w' := At(events, j);
    GoneForGood(w, events[i..j], id);
    forall s | Verifies(w', id, s) ensures w'.keys[id].until <= w'.now + Ms(SESSION_ACCESS_TTL_SEC) {
      assert KeyOk(w', id, w'.keys[id]);
    }
    if Owing(w, id) == {} && id in w'.keys {
      assert KeyOk(w, id, w.keys[id]);
    }
  }

  // ---- a token after logout -------------------------------------------------------------------------------

  lemma {:induction false} FreshExists(ids: set<Id>) returns (unused: Id)
    ensures forall x :: x in ids ==> x < unused
  {
    if exists x :: x in ids {
      var x :| x in ids;
      var rest := FreshExists(ids - {x});
      unused := if rest > x then rest else x + 1;
      assert forall y :: y in ids ==> y == x || y in ids - {x};
    } else {
      unused := 0;
    }
  }

  lemma IssueVerifies(w: World, r: Id, id: Id, c: Choice)
    requires r in w.requests && w.requests[r].Issue? && w.requests[r].session == id && c.secret !in w.minted
    ensures Verifies(Step(w, Go(r, c)), id, c.secret)
  {
  }

  lemma RunOne(w: World, e: Event)
    ensures Run(w, [e]) == Step(w, e)
  {
    assert [e][..0] == [];
  }

  lemma RunTwo(w: World, e: Event, f: Event)
    ensures Run(w, [e, f]) == Step(Step(w, e), f)
  {
    assert [e, f][..1] == [e];
    RunOne(w, e);
  }

  lemma OwedKeyCanBeWritten(w: World, r: Id, id: Id)
    requires r in Owing(w, id)
    ensures exists events, s :: Verifies(Run(w, events), id, s)
  {
    var unused := FreshExists(w.minted);
    var go := Go(r, Choice(unused, unused));
    if w.requests[r].Issue? {
      RunOne(w, go);
      IssueVerifies(w, r, id, Choice(unused, unused));
      assert Verifies(Run(w, [go]), id, unused);
    } else {
      RunTwo(w, go, go);
      IssueVerifies(Step(w, go), r, id, Choice(unused, unused));
      assert Verifies(Run(w, [go, go]), id, unused);
    }
  }

  /**
   * A session whose row is gone: a token of it can verify, now or at some later point, if and only if some request had
   * written the row and not yet its key, or the key is there and live.
   */
  lemma LateTokenExactly(w: World, id: Id)
    requires Inv(w) && Gone(w, id)
    ensures (exists events, s :: Verifies(Run(w, events), id, s)) <==>
      Owing(w, id) != {} || (id in w.keys && w.now < w.keys[id].until)
  {
    if exists r :: r in Owing(w, id) {
      var r :| r in Owing(w, id);
      OwedKeyCanBeWritten(w, r, id);
    } else {
      assert Owing(w, id) == {};
    }
    if id in w.keys && w.now < w.keys[id].until {
      assert Run(w, []) == w && Verifies(Run(w, []), id, w.keys[id].secret);
    }
    if exists events, s :: Verifies(Run(w, events), id, s) {
      var events, s :| Verifies(Run(w, events), id, s);
      GoneForGood(w, events, id);
    }
  }

  /** An undisturbed logout by the session's owner leaves neither row nor key. */
  lemma LogoutEndsTheSession(w: World, r: Id, c: Choice, d: Choice, user: Id, id: Id)
    requires Inv(w) && r in w.requests && w.requests[r] == Revoke(user, id)
    requires id in w.past.chain && w.past.owner[id] == user
    ensures var w' := Step(Step(w, Go(r, c)), Go(r, d));
            Inv(w') && Gone(w', id) && id !in w'.keys && Owing(w', id) == Owing(w, id)
  {
    var w1 := Step(w, Go(r, c));
    var w2 := Step(w1, Go(r, d));
    if id in w.sessions { assert RowOk(w, id, w.sessions[id]); }
    StepKeeps(w, Go(r, c));
    StepKeeps(w1, Go(r, d));
    hide Inv, Later;
    assert w1 == DropKeys(w, r, {id}, Delete(user, id));
  }
}
