/**
 * The local sockets of one instance and the channel subscriptions that mirror them.
 *
 * A method is a stretch of a handler between two awaits: an event handler, or what follows an await in one. What
 * every method keeps, every sequence of events keeps.
 */
module WsRegistry {
  import opened Wrappers
  import opened WsChannels
  import J = WsJoins

  const MAX_BUFFERED_BYTES: nat := 1_048_576
  const MAX_CONNECTIONS: nat := 10_000

  class Socket {
    const connectionId: string
    const userId: Option<string>
    const sessionId: string
    var open: bool
    var bufferedAmount: nat
    var rooms: set<string>
    var sent: seq<string>

    constructor (connectionId: string, userId: Option<string>, sessionId: string)
      ensures this.connectionId == connectionId && this.userId == userId && this.sessionId == sessionId
      ensures open && bufferedAmount == 0 && rooms == {} && sent == []
    {
      this.connectionId, this.userId, this.sessionId := connectionId, userId, sessionId;
      open, bufferedAmount, rooms, sent := true, 0, {}, [];
    }
  }

  // ---- what every event keeps -------------------------------------------------------------------------------

  /** Every socket under its own user, and no user without a socket. */
  ghost predicate Owned(users: map<string, set<Socket>>, known: set<Socket>) {
    && (forall u :: u in users ==> users[u] != {} && users[u] <= known)
    && (forall u, ws :: u in users && ws in users[u] ==> ws.userId == Some(u))
  }

  ghost predicate Anonymous(publics: set<Socket>, known: set<Socket>) {
    publics <= known && forall ws :: ws in publics ==> ws.userId.None?
  }

  /** A socket is in a room's set exactly when the room is in the socket's; no set is empty. */
  ghost predicate Joined(rooms: map<string, set<Socket>>, known: set<Socket>)
    reads known`rooms
  {
    && (forall r :: r in rooms ==> rooms[r] != {} && rooms[r] <= known)
    && (forall ws, r :: ws in known ==> (r in ws.rooms <==> Holds(rooms, r, ws)))
  }

  ghost predicate Counted(total: int, users: map<string, set<Socket>>, publics: set<Socket>) {
    total == SumSizes(users) + |publics|
  }

  /** Each admitted upgrade saw room for itself; what is over the cap was in flight with it. */
  predicate Capped(total: int, inFlight: nat, peak: nat) {
    && inFlight <= peak
    && (peak == 0 ==> total <= 0)
    && (peak > 0 ==> total + inFlight <= MAX_CONNECTIONS - 1 + peak)
  }

  ghost predicate Mirrored(commands: seq<Command>, users: map<string, set<Socket>>, rooms: map<string, set<Socket>>) {
    Subscribed(commands) == Channels(users.Keys, rooms.Keys)
  }

  /** Only an authenticated socket of this instance asks to join a room. */
  ghost predicate Waiting(waiting: multiset<(Socket, string)>, known: set<Socket>) {
    forall p :: p in waiting ==> p.0 in known && p.0.userId.Some?
  }

  lemma CappedNext(total: int, inFlight: nat, peak: nat)
    requires Capped(total, inFlight, peak) && inFlight > 0
    ensures Capped(total, inFlight - 1, peak) && Capped(total + 1, inFlight - 1, peak)
  {
  }

  lemma OwnedWith(users: map<string, set<Socket>>, known: set<Socket>, u: string, ws: Socket)
    requires Owned(users, known) && ws.userId == Some(u)
    ensures Owned(With(users, u, ws), known + {ws}) && u in With(users, u, ws)
  {
  }

  lemma OwnedGrows(users: map<string, set<Socket>>, known: set<Socket>, ws: Socket)
    requires Owned(users, known) && ws !in known
    ensures Owned(users, known + {ws}) && forall u :: !Holds(users, u, ws)
  {
  }

  lemma AnonymousGrows(publics: set<Socket>, known: set<Socket>, ws: Socket)
    requires Anonymous(publics, known) && ws !in known
    ensures Anonymous(publics, known + {ws}) && ws !in publics
  {
  }

  lemma JoinedGrows(rooms: map<string, set<Socket>>, known: set<Socket>, ws: Socket)
    requires Joined(rooms, known) && ws !in known && ws.rooms == {}
    ensures Joined(rooms, known + {ws})
  {
  }

  lemma JoinedIsPeopled(rooms: map<string, set<Socket>>, known: set<Socket>, room: string)
    requires Joined(rooms, known)
    ensures room in rooms ==> rooms[room] != {}
  {
  }

  lemma WaitingGrows(waiting: multiset<(Socket, string)>, known: set<Socket>, ws: Socket, room: string)
    requires Waiting(waiting, known)
    ensures Waiting(waiting, known + {ws})
    ensures Waiting(waiting - multiset{(ws, room)}, known)
    ensures ws in known && ws.userId.Some? ==> Waiting(waiting + multiset{(ws, room)}, known)
    ensures (ws, room) in waiting ==> ws in known && ws.userId.Some?
  {
    if (ws, room) in waiting { assert (ws, room).0 in known; }
  }

  lemma JoinedHolds(rooms: map<string, set<Socket>>, known: set<Socket>, ws: Socket)
    requires Joined(rooms, known) && ws in known
    ensures forall room :: room in ws.rooms <==> Holds(rooms, room, ws)
  {
  }

  lemma OwnedWithout(users: map<string, set<Socket>>, known: set<Socket>, u: string, ws: Socket)
    requires Owned(users, known)
    ensures Owned(Without(users, u, ws), known)
  {
  }

  lemma CountedWith(total: int, users: map<string, set<Socket>>, publics: set<Socket>, u: string, ws: Socket)
    ensures Counted(total, users, publics) ==>
              (Counted(total + 1, With(users, u, ws), publics) <==> !Holds(users, u, ws))
    ensures Counted(total, users, publics) ==>
              (Counted(total + 1, users, publics + {ws}) <==> ws !in publics)
  {
    SumWith(users, u, ws);
    if ws in publics { assert publics + {ws} == publics; }
  }

  lemma CountedWithout(total: int, users: map<string, set<Socket>>, publics: set<Socket>, u: string, ws: Socket)
    requires Counted(total, users, publics)
    ensures Counted(total - (if Holds(users, u, ws) then 1 else 0), Without(users, u, ws), publics)
    ensures Counted(total - (if ws in publics then 1 else 0), users, publics - {ws})
  {
    SumWithoutOne(users, u, ws);
  }

  lemma MirroredUser(commands: seq<Command>, users: map<string, set<Socket>>, rooms: map<string, set<Socket>>,
                     u: string, ws: Socket)
    requires Mirrored(commands, users, rooms)
    ensures u in users ==> Mirrored(commands, With(users, u, ws), rooms)
    ensures Mirrored(commands + [Subscribe(UserChannel(u))], With(users, u, ws), rooms)
    ensures u in Without(users, u, ws) ==> Mirrored(commands, Without(users, u, ws), rooms)
    ensures u !in Without(users, u, ws) ==>
              Mirrored(commands + [Unsubscribe(UserChannel(u))], Without(users, u, ws), rooms)
  {
    SubscribedNext(commands, Subscribe(UserChannel(u)));
    SubscribedNext(commands, Unsubscribe(UserChannel(u)));
    ChannelsGrow(users.Keys, rooms.Keys, u);
    ChannelsShrink(users.Keys, rooms.Keys, u);
    assert With(users, u, ws).Keys == users.Keys + {u};
    if u in Without(users, u, ws) {
      assert Without(users, u, ws).Keys == users.Keys;
    } else {
      assert Without(users, u, ws).Keys == users.Keys - {u};
    }
  }

  lemma MirroredRoom(commands: seq<Command>, users: map<string, set<Socket>>, rooms: map<string, set<Socket>>,
                     r: string, ws: Socket)
    requires Mirrored(commands, users, rooms)
    ensures r in rooms ==> Mirrored(commands, users, With(rooms, r, ws))
    ensures Mirrored(commands + [Subscribe(RoomChannel(r))], users, With(rooms, r, ws))
    ensures r in rooms && rooms[r] != {} && rooms[r] != {ws} ==> Mirrored(commands, users, Without(rooms, r, ws))
    ensures r !in rooms ==> Mirrored(commands, users, Without(rooms, r, ws))
    ensures r in rooms && rooms[r] == {ws} ==>
              Mirrored(commands + [Unsubscribe(RoomChannel(r))], users, Without(rooms, r, ws))
  {
    SubscribedNext(commands, Subscribe(RoomChannel(r)));
    SubscribedNext(commands, Unsubscribe(RoomChannel(r)));
    ChannelsGrow(users.Keys, rooms.Keys, r);
    ChannelsShrink(users.Keys, rooms.Keys, r);
    assert With(rooms, r, ws).Keys == rooms.Keys + {r};
    if r in rooms && rooms[r] == {ws} {
      assert Without(rooms, r, ws).Keys == rooms.Keys - {r};
    } else if r in rooms && rooms[r] != {} {
      SomeoneElse(rooms[r], ws);
      assert Without(rooms, r, ws).Keys == rooms.Keys;
    }
  }

  lemma SomeoneElse(members: set<Socket>, ws: Socket)
    requires members != {} && members != {ws}
    ensures members - {ws} != {}
  {
    assert forall x :: x in members ==> x == ws || x in members - {ws};
  }

  class Registry {
    var userConnections: map<string, set<Socket>>
    var publicConnections: set<Socket>
    var rooms: map<string, set<Socket>>
    /** Joins asked for whose membership check has not answered yet. */
    var waiting: multiset<(Socket, string)>
    var totalConnections: int
    /** Upgrades past the capacity check whose connection is still to come. */
    var inFlight: nat
    /** Every command sent on the subscriber connection, in order. */
    var commands: seq<Command>
    /** How many of them Redis has applied; the rest are under way. */
    var applied: nat
    /** Every socket this instance ever held, and the most upgrades that were ever in flight. */
    ghost var known: set<Socket>
    ghost var peak: nat

    ghost predicate Valid()
      reads this, known`rooms
    {
      && Owned(userConnections, known)
      && Anonymous(publicConnections, known)
      && Joined(rooms, known)
      && Waiting(waiting, known)
      && Counted(totalConnections, userConnections, publicConnections)
      && Capped(totalConnections, inFlight, peak)
      && Mirrored(commands, userConnections, rooms)
      && applied <= |commands|
    }

    /** Who is in which room, and which joins wait. */
    ghost function Hall(): J.Hall<Socket>
      reads this`rooms, this`waiting
    {
      J.Hall(J.Memberships(rooms), waiting)
    }

    constructor ()
      ensures Valid() && fresh(this)
      ensures known == {} && userConnections == map[] && publicConnections == {} && rooms == map[]
      ensures waiting == multiset{} && totalConnections == 0 && inFlight == 0 && peak == 0
    {
      userConnections, publicConnections, rooms, totalConnections, inFlight := map[], {}, map[], 0, 0;
      waiting, commands, applied, known, peak := multiset{}, [], 0, {}, 0;
    }

    // ---- connections --------------------------------------------------------------------------------------

    /**
     * The counter goes up even when the socket is already there, so it stays the number of sockets exactly when
     * the socket is new.
     */
    method AddUserConnection(user: string, ws: Socket)
      modifies this`userConnections, this`totalConnections
      ensures userConnections == With(old(userConnections), user, ws)
      ensures totalConnections == old(totalConnections) + 1
      ensures Counted(old(totalConnections), old(userConnections), publicConnections) ==>
                (Counted(totalConnections, userConnections, publicConnections) <==>
                   !Holds(old(userConnections), user, ws))
    {
      CountedWith(totalConnections, userConnections, publicConnections, user, ws);
      hide Counted;
      var connections: set<Socket> := {};
      if user in userConnections {
        connections := userConnections[user];
      }
      userConnections := userConnections[user := connections + {ws}];
      totalConnections := totalConnections + 1;
    }

    /** Gone if it was there, and counted down only then; the user's entry goes with its last socket. */
    method RemoveUserConnection(user: string, ws: Socket)
      requires Owned(userConnections, known)
      modifies this`userConnections, this`totalConnections
      ensures userConnections == Without(old(userConnections), user, ws)
      ensures totalConnections == old(totalConnections) - if Holds(old(userConnections), user, ws) then 1 else 0
    {
      if user !in userConnections {
        return;
      }
      var connections := userConnections[user];
      if ws in connections {
        totalConnections := totalConnections - 1;
      }
      connections := connections - {ws};
      userConnections := userConnections[user := connections];
      if connections == {} {
        userConnections := userConnections - {user};
      }
    }

    predicate HasLocalUser(user: string)
      reads this
    {
      user in userConnections
    }

    /** As for a user's socket, the counter stays the number of sockets exactly when the socket is new. */
    method AddPublicConnection(ws: Socket)
      modifies this`publicConnections, this`totalConnections
      ensures publicConnections == old(publicConnections) + {ws} && totalConnections == old(totalConnections) + 1
      ensures Counted(old(totalConnections), userConnections, old(publicConnections)) ==>
                (Counted(totalConnections, userConnections, publicConnections) <==> ws !in old(publicConnections))
    {
      CountedWith(totalConnections, userConnections, publicConnections, "", ws);
      hide Counted;
      publicConnections := publicConnections + {ws};
      totalConnections := totalConnections + 1;
    }

    method RemovePublicConnection(ws: Socket)
      modifies this`publicConnections, this`totalConnections
      ensures publicConnections == old(publicConnections) - {ws}
      ensures totalConnections == old(totalConnections) - if ws in old(publicConnections) then 1 else 0
    {
      if ws in publicConnections {
        totalConnections := totalConnections - 1;
      }
      publicConnections := publicConnections - {ws};
    }

    // ---- rooms --------------------------------------------------------------------------------------------

    method JoinRoom(room: string, ws: Socket) returns (isFirstLocalMember: bool)
      requires Joined(rooms, known) && ws in known
      modifies this`rooms, ws`rooms
      ensures Joined(rooms, known)
      ensures isFirstLocalMember <==> room !in old(rooms)
      ensures rooms == With(old(rooms), room, ws)
      ensures ws.rooms == old(ws.rooms) + {room}
    {
      isFirstLocalMember := room !in rooms;
      var members: set<Socket> := {};
      if !isFirstLocalMember {
        members := rooms[room];
      }
      rooms := rooms[room := members + {ws}];
      ws.rooms := ws.rooms + {room};
    }

    method LeaveRoom(room: string, ws: Socket) returns (wasLast: bool)
      requires Joined(rooms, known) && ws in known
      modifies this`rooms, ws`rooms
      ensures Joined(rooms, known)
      ensures wasLast <==> room in old(rooms) && old(rooms)[room] == {ws}
      ensures rooms == Without(old(rooms), room, ws)
      ensures ws.rooms == old(ws.rooms) - {room}
    {
      if room !in rooms {
        return false;
      }
      var members := rooms[room] - {ws};
      assert forall x :: x in rooms[room] ==> x == ws || x in members;
      ws.rooms := ws.rooms - {room};
      if members == {} {
        rooms := rooms - {room};
        return true;
      }
      rooms := rooms[room := members];
      return false;
    }

    /** The loop over the socket's rooms; the socket's own list is cleared after it. */
    method SweepRooms(ws: Socket) returns (emptied: seq<string>)
      requires forall r :: r in ws.rooms ==> Holds(rooms, r, ws)
      modifies this`rooms
      ensures forall r :: r in emptied <==> r in ws.rooms && r in old(rooms) && old(rooms)[r] == {ws}
      ensures forall i, j :: 0 <= i < j < |emptied| ==> emptied[i] != emptied[j]
      ensures rooms == Swept(old(rooms), ws, ws.rooms)
    {
      emptied := [];
      var todo := ws.rooms;
      while todo != {}
        invariant todo <= ws.rooms
        invariant rooms == Swept(old(rooms), ws, ws.rooms - todo)
        invariant forall r :: r in emptied <==> r in ws.rooms - todo && old(rooms)[r] == {ws}
        invariant forall i, j :: 0 <= i < j < |emptied| ==> emptied[i] != emptied[j]
        decreases |todo|
      {
        var room :| room in todo;
        ghost var swept := ws.rooms - todo;
        SweptNext(old(rooms), ws, swept, room);
        todo := todo - {room};
        assert ws.rooms - todo == swept + {room};
        var members := rooms[room] - {ws};
        if members == {} {
          rooms := rooms - {room};
          emptied := emptied + [room];
        } else {
          rooms := rooms[room := members];
        }
      }
    }

    /** Every membership goes, and the answer lists, each once, exactly the rooms that thereby emptied. */
    method LeaveAllRooms(ws: Socket) returns (emptied: seq<string>)
      requires Joined(rooms, known) && ws in known
      modifies this`rooms, ws`rooms
      ensures Joined(rooms, known)
      ensures ws.rooms == {}
      ensures forall r :: r in emptied <==> r in old(rooms) && old(rooms)[r] == {ws}
      ensures forall i, j :: 0 <= i < j < |emptied| ==> emptied[i] != emptied[j]
      ensures rooms == Swept(old(rooms), ws, old(ws.rooms))
      ensures rooms.Keys + Listed(emptied) == old(rooms).Keys && rooms.Keys !! Listed(emptied)
    {
      emptied := SweepRooms(ws);
      SweptKeys(old(rooms), ws, ws.rooms, emptied);
      ws.rooms := {};
    }

    // ---- events -------------------------------------------------------------------------------------------

    /** Below the cap is let through; how many are let through before the next connection counts is not limited here. */
    method PreflightUpgrade() returns (admitted: bool)
      requires Valid()
      modifies this`inFlight, this`peak
      ensures Valid()
      ensures admitted <==> totalConnections < MAX_CONNECTIONS
      ensures inFlight == old(inFlight) + (if admitted then 1 else 0)
      ensures peak == if inFlight > old(peak) then inFlight else old(peak)
    {
      hide Owned, Anonymous, Joined, Counted, Mirrored;
      admitted := totalConnections < MAX_CONNECTIONS;
      if admitted {
        inFlight := inFlight + 1;
        peak := if inFlight > peak then inFlight else peak;
      }
    }

    /** The handshake failed: no token, a bad token, or no such path. */
    method AbortUpgrade()
      requires Valid() && inFlight > 0
      modifies this`inFlight
      ensures Valid() && inFlight == old(inFlight) - 1
    {
      hide Owned, Anonymous, Joined, Counted, Mirrored;
      inFlight := inFlight - 1;
    }

    /** The first local socket of a user subscribes the user's channel. */
    method HandleConnection(ws: Socket)
      requires Valid() && inFlight > 0 && ws !in known && ws.rooms == {}
      modifies this
      ensures Valid()
      ensures known == old(known) + {ws} && peak == old(peak) && rooms == old(rooms) && Hall() == old(Hall())
      ensures inFlight == old(inFlight) - 1 && totalConnections == old(totalConnections) + 1
      ensures ws.userId.Some? ==> userConnections == With(old(userConnections), ws.userId.value, ws)
      ensures ws.userId.Some? ==> publicConnections == old(publicConnections)
      ensures ws.userId.None? ==> userConnections == old(userConnections)
      ensures ws.userId.None? ==> publicConnections == old(publicConnections) + {ws}
    {
      hide Owned, Anonymous, Joined, Counted, Mirrored, With, Holds, Waiting, Capped, J.Memberships;
      CappedNext(totalConnections, inFlight, peak);
      WaitingGrows(waiting, known, ws, "");
      JoinedGrows(rooms, known, ws);
      AnonymousGrows(publicConnections, known, ws);
      OwnedGrows(userConnections, known, ws);
      known := known + {ws};
      inFlight := inFlight - 1;
      if ws.userId.Some? {
        TakeUserConnection(ws, ws.userId.value);
      } else {
        TakePublicConnection(ws);
      }
    }

    method TakeUserConnection(ws: Socket, u: string)
      requires Valid() && ws in known && ws.userId == Some(u) && !Holds(userConnections, u, ws)
      requires Capped(totalConnections + 1, inFlight, peak)
      modifies this`userConnections, this`totalConnections, this`commands
      ensures Valid()
      ensures userConnections == With(old(userConnections), u, ws) && totalConnections == old(totalConnections) + 1
    {
      hide Owned, Anonymous, Joined, Counted, Mirrored, With, Holds, Waiting, Capped;
      OwnedWith(userConnections, known, u, ws);
      assert known + {ws} == known;
      MirroredUser(commands, userConnections, rooms, u, ws);
      var isFirstLocalSocket := u !in userConnections;
      AddUserConnection(u, ws);
      if isFirstLocalSocket {
        commands := commands + [Subscribe(UserChannel(u))];
      }
    }

    method TakePublicConnection(ws: Socket)
      requires Valid() && ws in known && ws.userId.None? && ws !in publicConnections
      requires Capped(totalConnections + 1, inFlight, peak)
      modifies this`publicConnections, this`totalConnections
      ensures Valid()
      ensures publicConnections == old(publicConnections) + {ws} && totalConnections == old(totalConnections) + 1
    {
      hide Owned, Joined, Counted, Mirrored, Waiting, Capped;
      AddPublicConnection(ws);
    }

    /** The part of room.join up to its membership check: without a user there is none. */
    method RoomAsk(ws: Socket, room: string)
      requires Valid() && ws in known
      modifies this`waiting
      ensures Valid()
      ensures Hall() == if ws.userId.Some? then J.Step(old(Hall()), J.Asked(ws, room)) else old(Hall())
    {
      hide Owned, Anonymous, Joined, Counted, Mirrored, Waiting, J.Memberships, J.Step;
      WaitingGrows(waiting, known, ws, room);
      J.AskedHall(rooms, waiting, ws, room);
      if ws.userId.None? {
        return;
      }
      waiting := waiting + multiset{(ws, room)};
    }

    /** The part of room.join from the answer on; the socket may have closed meanwhile, and nothing asks whether. */
    method RoomJoin(ws: Socket, room: string, isMember: bool)
      requires Valid() && (ws, room) in waiting
      modifies this`rooms, this`waiting, this`commands, ws`rooms
      ensures Valid()
      ensures Hall() == J.Step(old(Hall()), J.Answered(ws, room, isMember))
      ensures commands == if isMember && room !in old(rooms) then old(commands) + [Subscribe(RoomChannel(room))]
                          else old(commands)
      ensures rooms == if isMember then With(old(rooms), room, ws) else old(rooms)
      ensures ws.rooms == if isMember then old(ws.rooms) + {room} else old(ws.rooms)
    {
      WaitingGrows(waiting, known, ws, room);
      hide Owned, Anonymous, Joined, Counted, Mirrored, With, Waiting, Capped, J.Memberships, J.Step;
      J.AnsweredHall(rooms, waiting, ws, room);
      waiting := waiting - multiset{(ws, room)};
      if !isMember {
        return;
      }
      AdmitToRoom(ws, room);
    }

    method AdmitToRoom(ws: Socket, room: string)
      requires Valid() && ws in known
      modifies this`rooms, this`commands, ws`rooms
      ensures Valid()
      ensures rooms == With(old(rooms), room, ws) && ws.rooms == old(ws.rooms) + {room}
      ensures commands == if room !in old(rooms) then old(commands) + [Subscribe(RoomChannel(room))] else old(commands)
    {
      hide Owned, Anonymous, Joined, Counted, Mirrored, With, Waiting, Capped;
      MirroredRoom(commands, userConnections, rooms, room, ws);
      var first := JoinRoom(room, ws);
      if first {
        commands := commands + [Subscribe(RoomChannel(room))];
      }
    }

    method RoomLeave(ws: Socket, room: string)
      requires Valid() && ws in known
      modifies this`rooms, this`commands, ws`rooms
      ensures Valid()
      ensures Hall() == J.Step(old(Hall()), J.Left(ws, room))
      ensures rooms == Without(old(rooms), room, ws) && ws.rooms == old(ws.rooms) - {room}
    {
      hide Owned, Anonymous, Joined, Counted, Mirrored, Without, Waiting, J.Memberships, J.Step;
      J.LeftHall(rooms, waiting, ws, room);
      JoinedIsPeopled(rooms, known, room);
      MirroredRoom(commands, userConnections, rooms, room, ws);
      var last := LeaveRoom(room, ws);
      if last {
        commands := commands + [Unsubscribe(RoomChannel(room))];
      }
    }

    method UnsubscribeRooms(emptied: seq<string>)
      requires Subscribed(commands) == Channels(userConnections.Keys, rooms.Keys + Listed(emptied))
      requires forall i, j :: 0 <= i < j < |emptied| ==> emptied[i] != emptied[j]
      requires rooms.Keys !! Listed(emptied)
      modifies this`commands
      ensures Mirrored(commands, userConnections, rooms) && |old(commands)| <= |commands|
    {
      hide Channels, Subscribed;
      assert emptied[0..] == emptied;
      for i := 0 to |emptied|
        invariant Subscribed(commands) == Channels(userConnections.Keys, rooms.Keys + Listed(emptied[i..]))
        invariant |old(commands)| <= |commands|
      {
        ListedFrom(emptied, i);
        var rest := rooms.Keys + Listed(emptied[i + 1..]);
        assert emptied[i] in Listed(emptied);
        assert rooms.Keys + Listed(emptied[i..]) - {emptied[i]} == rest;
        ChannelsShrink(userConnections.Keys, rooms.Keys + Listed(emptied[i..]), emptied[i]);
        SubscribedNext(commands, Unsubscribe(RoomChannel(emptied[i])));
        commands := commands + [Unsubscribe(RoomChannel(emptied[i]))];
      }
      assert rooms.Keys + Listed(emptied[|emptied|..]) == rooms.Keys;
    }

    method DropMemberships(ws: Socket)
      requires Valid() && ws in known
      modifies this`rooms, this`commands, ws`rooms
      ensures Valid()
      ensures Hall() == J.Step(old(Hall()), J.Closed(ws))
      ensures ws.rooms == {} && rooms == Swept(old(rooms), ws, old(ws.rooms))
    {
      JoinedHolds(rooms, known, ws);
      J.ClosedHall(rooms, waiting, ws, ws.rooms);
      hide J.Memberships, J.Step, Holds, Capped, Waiting;
      hide Owned, Anonymous, Counted, Mirrored, Joined, Swept, Listed;
      MirroredMeans(commands, userConnections, rooms);
      var emptied := LeaveAllRooms(ws);
      UnsubscribeRooms(emptied);
    }

    method DropUserConnection(ws: Socket, u: string)
      requires Valid()
      modifies this`userConnections, this`totalConnections, this`commands
      ensures Valid()
      ensures userConnections == Without(old(userConnections), u, ws)
    {
      hide Owned, Anonymous, Counted, Mirrored, Joined, Without, Holds;
      CountedWithout(totalConnections, userConnections, publicConnections, u, ws);
      OwnedWithout(userConnections, known, u, ws);
      MirroredUser(commands, userConnections, rooms, u, ws);
      RemoveUserConnection(u, ws);
      if !HasLocalUser(u) {
        commands := commands + [Unsubscribe(UserChannel(u))];
      }
    }

    method DropPublicConnection(ws: Socket)
      requires Valid()
      modifies this`publicConnections, this`totalConnections
      ensures Valid()
      ensures publicConnections == old(publicConnections) - {ws}
    {
      hide Owned, Anonymous, Counted, Mirrored, Joined, Without, Holds;
      CountedWithout(totalConnections, userConnections, publicConnections, "", ws);
      AnonymousShrinks(publicConnections, known, ws);
      RemovePublicConnection(ws);
    }

    /**
     * The socket leaves everything, and every channel it was the last local reason for is given up. The joins it waits
     * for go on waiting.
     */
    method OnClose(ws: Socket)
      requires Valid() && ws in known
      modifies this, ws`rooms, ws`open
      ensures Valid()
      ensures !ws.open && ws.rooms == {}
      ensures Hall() == J.Step(old(Hall()), J.Closed(ws))
      ensures rooms == Swept(old(rooms), ws, old(ws.rooms))
      ensures userConnections == if ws.userId.Some? then Without(old(userConnections), ws.userId.value, ws)
                                 else old(userConnections)
      ensures publicConnections == if ws.userId.Some? then old(publicConnections) else old(publicConnections) - {ws}
      ensures known == old(known) && inFlight == old(inFlight) && peak == old(peak) && waiting == old(waiting)
    {
      hide Valid, Hall, Swept, Without, J.Memberships, J.Step, Holds;
      ws.open := false;
      DropMemberships(ws);
      DropConnection(ws);
    }

    method DropConnection(ws: Socket)
      requires Valid()
      modifies this`userConnections, this`publicConnections, this`totalConnections, this`commands
      ensures Valid()
      ensures userConnections == if ws.userId.Some? then Without(old(userConnections), ws.userId.value, ws)
                                 else old(userConnections)
      ensures publicConnections == if ws.userId.Some? then old(publicConnections) else old(publicConnections) - {ws}
    {
      hide Valid, Without;
      if ws.userId.Some? {
        DropUserConnection(ws, ws.userId.value);
      } else {
        DropPublicConnection(ws);
      }
    }

    /** In no room, by either index, means the same. */
    lemma OutMeansOut(ws: Socket)
      requires Valid() && ws in known
      ensures ws.rooms == {} <==> !J.InSomeRoom(Hall(), ws)
    {
      JoinedHolds(rooms, known, ws);
      hide Joined;
      assert forall room :: room in ws.rooms <==> (ws, room) in Hall().present;
    }

    /** What holds after any sequence of these events. */
    lemma AtAllTimes(upgrades: nat)
      requires Valid() && peak <= upgrades
      ensures totalConnections == SumSizes(userConnections) + |publicConnections|
      ensures upgrades > 0 ==> totalConnections <= MAX_CONNECTIONS - 1 + upgrades
      ensures forall channel :: channel in Subscribed(commands) <==>
                (exists u :: u in userConnections && channel == UserChannel(u))
                || (exists r :: r in rooms && channel == RoomChannel(r))
      ensures forall ws, r :: ws in known ==> (r in ws.rooms <==> r in rooms && ws in rooms[r])
      ensures forall u :: u in userConnections ==> userConnections[u] != {}
      ensures forall r :: r in rooms ==> rooms[r] != {}
    {
      hide SumSizes;
    }

    /** Redis applies the next command under way. */
    method CommandApplied()
      requires Valid() && applied < |commands|
      modifies this`applied
      ensures Valid() && applied == old(applied) + 1
    {
      hide Owned, Anonymous, Counted, Joined, Mirrored, Waiting, Capped;
      applied := applied + 1;
    }

    /** Redis applies all of them. */
    method CatchUp()
      requires Valid()
      modifies this`applied
      ensures Valid() && applied == |commands|
    {
      hide Owned, Anonymous, Counted, Joined, Mirrored, Waiting, Capped;
      while applied < |commands|
        invariant Valid()
      {
        CommandApplied();
      }
    }

    /** The subscriber connection is new and knows no channel; every local one is asked for again. */
    method OnReady()
      requires Valid()
      modifies this`commands, this`applied
      ensures Valid() && applied == 0
      ensures forall c :: c in commands ==> c.Subscribe?
    {
      applied := 0;
      hide Owned, Anonymous, Counted, Joined, Mirrored;
      var first := UserCommands(userConnections.Keys);
      commands := RoomCommands(first, userConnections.Keys, rooms.Keys);
      MirroredMeans(commands, userConnections, rooms);
    }
  }

  lemma MirroredMeans(commands: seq<Command>, users: map<string, set<Socket>>, rooms: map<string, set<Socket>>)
    ensures Mirrored(commands, users, rooms) <==> Subscribed(commands) == Channels(users.Keys, rooms.Keys)
  {
  }

  lemma AnonymousShrinks(publics: set<Socket>, known: set<Socket>, ws: Socket)
    requires Anonymous(publics, known)
    ensures Anonymous(publics - {ws}, known)
  {
  }

  lemma SweptKeys(rooms: map<string, set<Socket>>, ws: Socket, keys: set<string>, emptied: seq<string>)
    requires forall r :: r in keys ==> Holds(rooms, r, ws)
    requires forall r :: r in emptied <==> r in rooms && rooms[r] == {ws}
    requires forall r :: r in rooms && rooms[r] == {ws} ==> r in keys
    ensures Swept(rooms, ws, keys).Keys + Listed(emptied) == rooms.Keys
    ensures Swept(rooms, ws, keys).Keys !! Listed(emptied)
  {
  }

  // ---- what the handlers do not prevent -----------------------------------------------------------------------

  lemma RoomIsSubscribed(commands: seq<Command>, users: map<string, set<Socket>>, rooms: map<string, set<Socket>>, r: string)
    requires Mirrored(commands, users, rooms) && r in rooms
    ensures RoomChannel(r) in Subscribed(commands)
  {
  }

  /** A socket whose membership check outlives it is in the room from then on, and the channel stays subscribed. */
  method JoinAfterClose(registry: Registry, ws: Socket, room: string)
    requires registry.Valid() && ws in registry.known && ws.userId.Some?
    modifies registry, ws`rooms, ws`open
    ensures registry.Valid() && !ws.open && ws.rooms == {room}
    ensures Holds(registry.rooms, room, ws) && !Holds(registry.userConnections, ws.userId.value, ws)
    ensures RoomChannel(room) in Subscribed(registry.commands)
  {
    hide Owned, Anonymous, Counted, Mirrored, Joined, Swept, Subscribed, Channels, Waiting, J.Memberships;
    registry.RoomAsk(ws, room);
    registry.OnClose(ws);
    registry.RoomJoin(ws, room, true);
    RoomIsSubscribed(registry.commands, registry.userConnections, registry.rooms, room);
  }

  /**
   * The bound on connections is met exactly: with this many authenticated upgrades waiting for their token check at
   * once, the cap is passed by one less.
   */
  method FillBeyondTheCap(upgrades: nat) returns (registry: Registry)
    requires upgrades > 0
    ensures registry.Valid() && registry.peak == upgrades && registry.inFlight == 0
    ensures registry.totalConnections == MAX_CONNECTIONS - 1 + upgrades
  {
    registry := new Registry();
    for i := 0 to MAX_CONNECTIONS - 1
      invariant fresh(registry) && registry.Valid() && registry.totalConnections == i && registry.inFlight == 0
      invariant registry.peak == if i == 0 then 0 else 1
    {
      var ws := new Socket("c", None, "");
      var admitted := registry.PreflightUpgrade();
      registry.HandleConnection(ws);
    }
    for i := 0 to upgrades
      invariant fresh(registry) && registry.Valid() && registry.totalConnections == MAX_CONNECTIONS - 1
      invariant registry.inFlight == i && registry.peak == if i == 0 then 1 else i
    {
      var admitted := registry.PreflightUpgrade();
    }
    for i := 0 to upgrades
      invariant fresh(registry) && registry.Valid() && registry.totalConnections == MAX_CONNECTIONS - 1 + i
      invariant registry.inFlight == upgrades - i && registry.peak == upgrades
    {
      var ws := new Socket("c", Some("u"), "s");
      registry.HandleConnection(ws);
    }
  }
}
