/**
 * Fan-out: an envelope published on a channel, routed on every instance subscribed to it to that instance's own
 * sockets. An instance hears what the commands applied so far left it subscribed to, not those still under way.
 */
module WsFanout {
  import opened Wrappers
  import opened WsChannels
  import opened WsRegistry

  datatype Cmd = Deliver | Disconnect

  datatype Envelope = Envelope(
    cmd: Cmd, userId: Option<string>, sessionId: Option<string>, roomId: Option<string>, payload: string,
    except: Option<string>)

  // ---- one socket -------------------------------------------------------------------------------------------

  predicate Backlogged(ws: Socket)
    reads ws`bufferedAmount
  {
    ws.bufferedAmount > MAX_BUFFERED_BYTES
  }

  /** Open and keeping up: the data reaches it. Open and too slow: it is terminated. Not open: nothing. */
  twostate predicate Tried(ws: Socket, data: string)
    reads ws
  {
    && ws.sent == (if old(ws.open) && !old(Backlogged(ws)) then old(ws.sent) + [data] else old(ws.sent))
    && (ws.open <==> old(ws.open) && !old(Backlogged(ws)))
  }

  twostate predicate Untouched(ws: Socket)
    reads ws
  {
    ws.sent == old(ws.sent) && ws.open == old(ws.open)
  }

  /** The targets are tried with the data once each, and no other socket is touched. */
  twostate predicate Reached(sockets: set<Socket>, targets: set<Socket>, data: string)
    reads sockets
  {
    forall ws :: ws in sockets ==> if ws in targets then Tried(ws, data) else Untouched(ws)
  }

  method TrySend(ws: Socket, data: string)
    modifies ws`sent, ws`open
    ensures Tried(ws, data)
    ensures !old(ws.open) ==> !ws.open && ws.sent == old(ws.sent)
    ensures old(ws.open) && ws.bufferedAmount > MAX_BUFFERED_BYTES ==> !ws.open && ws.sent == old(ws.sent)
    ensures old(ws.open) && ws.bufferedAmount <= MAX_BUFFERED_BYTES ==> ws.open && ws.sent == old(ws.sent) + [data]
  {
    if !ws.open {
      return;
    }
    if ws.bufferedAmount > MAX_BUFFERED_BYTES {
      ws.open := false;
      return;
    }
    ws.sent := ws.sent + [data];
  }

  // ---- one instance -----------------------------------------------------------------------------------------

  function Members(sets: map<string, set<Socket>>, key: string): set<Socket> {
    if key in sets then sets[key] else {}
  }

  function InRoom(registry: Registry, room: string, except: Option<string>): set<Socket>
    reads registry
  {
    set ws | ws in Members(registry.rooms, room) && except != Some(ws.connectionId)
  }

  function OfSession(registry: Registry, user: string, session: string): set<Socket>
    reads registry
  {
    set ws | ws in Members(registry.userConnections, user) && ws.sessionId == session
  }

  method SendToRoom(registry: Registry, room: string, data: string, except: Option<string>)
    modifies Members(registry.rooms, room)`sent, Members(registry.rooms, room)`open
    ensures Reached(Members(registry.rooms, room), InRoom(registry, room, except), data)
  {
    if room !in registry.rooms {
      return;
    }
    var members := registry.rooms[room];
    var todo := members;
    while todo != {}
      invariant todo <= members
      invariant forall ws :: ws in todo ==> Untouched(ws)
      invariant forall ws :: ws in members - todo ==>
                  if except != Some(ws.connectionId) then Tried(ws, data) else Untouched(ws)
      decreases |todo|
    {
      var ws :| ws in todo;
      if except != Some(ws.connectionId) {
        TrySend(ws, data);
      }
      todo := todo - {ws};
    }
  }

  method SendToUser(registry: Registry, user: string, data: string)
    modifies Members(registry.userConnections, user)`sent, Members(registry.userConnections, user)`open
    ensures Reached(Members(registry.userConnections, user), Members(registry.userConnections, user), data)
  {
    var connections := Members(registry.userConnections, user);
    var todo := connections;
    while todo != {}
      invariant todo <= connections
      invariant forall ws :: ws in todo ==> Untouched(ws)
      invariant forall ws :: ws in connections - todo ==> Tried(ws, data)
      decreases |todo|
    {
      var ws :| ws in todo;
      TrySend(ws, data);
      todo := todo - {ws};
    }
  }

  method SendToSession(registry: Registry, user: string, session: string, data: string)
    modifies Members(registry.userConnections, user)`sent, Members(registry.userConnections, user)`open
    ensures Reached(Members(registry.userConnections, user), OfSession(registry, user, session), data)
  {
    var connections := Members(registry.userConnections, user);
    var todo := connections;
    while todo != {}
      invariant todo <= connections
      invariant forall ws :: ws in todo ==> Untouched(ws)
      invariant forall ws :: ws in connections - todo ==>
                  if ws.sessionId == session then Tried(ws, data) else Untouched(ws)
      decreases |todo|
    {
      var ws :| ws in todo;
      if ws.sessionId == session {
        TrySend(ws, data);
      }
      todo := todo - {ws};
    }
  }

  /** The targets are closed, with nothing sent, and no other socket is touched. */
  twostate predicate Closed(sockets: set<Socket>, targets: set<Socket>)
    reads sockets
  {
    && (forall ws :: ws in sockets ==> ws.sent == old(ws.sent))
    && (forall ws :: ws in sockets ==> ws.open == (old(ws.open) && ws !in targets))
  }

  /** `closeSession`, or with no session `closeUser`. */
  method Close(registry: Registry, user: string, session: Option<string>)
    modifies Members(registry.userConnections, user)`open
    ensures Closed(Members(registry.userConnections, user),
                   if session.Some? then OfSession(registry, user, session.value)
                   else Members(registry.userConnections, user))
  {
    var connections := Members(registry.userConnections, user);
    var todo := connections;
    while todo != {}
      invariant todo <= connections
      invariant forall ws :: ws in todo ==> Untouched(ws)
      invariant forall ws :: ws in connections - todo ==>
                  ws.sent == old(ws.sent)
                  && ws.open == (old(ws.open) && !(session.None? || session.value == ws.sessionId))
      decreases |todo|
    {
      var ws :| ws in todo;
      if (session.None? || session.value == ws.sessionId) && ws.open {
        ws.open := false;
      }
      todo := todo - {ws};
    }
  }

  // ---- an envelope on one instance --------------------------------------------------------------------------

  /** A field that is absent or empty does not select. */
  predicate Selects(field: Option<string>) {
    field.Some? && field.value != ""
  }

  /** The sockets an envelope is for on this instance. */
  function Targets(registry: Registry, env: Envelope): set<Socket>
    reads registry
  {
    if Selects(env.roomId) then
      if env.cmd.Deliver? then InRoom(registry, env.roomId.value, env.except) else {}
    else if !Selects(env.userId) then {}
    else if Selects(env.sessionId) then OfSession(registry, env.userId.value, env.sessionId.value)
    else Members(registry.userConnections, env.userId.value)
  }

  /** What the envelope does to a socket it is for, and that it does nothing to any other. */
  twostate predicate Outcome(ws: Socket, chosen: bool, env: Envelope)
    reads ws
  {
    (ws.sent, ws.open) == Received(chosen, env, old(ws.sent), old(ws.open), old(Backlogged(ws)))
  }

  /** What a socket has been sent, and whether it is open, once the envelope has been routed. */
  function Received(chosen: bool, env: Envelope, sent: seq<string>, open: bool, backlogged: bool): (seq<string>, bool) {
    if !chosen then (sent, open)
    else if env.cmd.Disconnect? then (sent, false)
    else if open && !backlogged then (sent + [env.payload], true)
    else (sent, false)
  }

  twostate predicate Routed(sockets: set<Socket>, targets: set<Socket>, env: Envelope)
    reads sockets
  {
    forall ws :: ws in sockets ==> Outcome(ws, ws in targets, env)
  }

  method RouteEnvelope(registry: Registry, env: Envelope)
    requires registry.Valid()
    modifies registry.known`sent, registry.known`open
    ensures registry.Valid()
    ensures Routed(registry.known, Targets(registry, env), env)
  {
    hide Joined, Counted, Mirrored, Capped;
    if env.roomId.Some? && env.roomId.value != "" {
      if env.cmd.Deliver? {
        MembersAreKnown(registry, env.roomId.value);
        SendToRoom(registry, env.roomId.value, env.payload, env.except);
      }
      return;
    }
    if env.userId.None? || env.userId.value == "" {
      return;
    }
    var user := env.userId.value;
    if env.cmd.Deliver? {
      if env.sessionId.Some? && env.sessionId.value != "" {
        SendToSession(registry, user, env.sessionId.value, env.payload);
      } else {
        SendToUser(registry, user, env.payload);
      }
      return;
    }
    Close(registry, user, if env.sessionId.Some? && env.sessionId.value != "" then env.sessionId else None);
  }

  lemma MembersAreKnown(registry: Registry, room: string)
    requires registry.Valid()
    ensures Members(registry.rooms, room) <= registry.known
  {
  }

  // ---- all instances ----------------------------------------------------------------------------------------

  ghost function SocketsOf(instances: seq<Registry>): set<Socket>
    reads instances
  {
    set i, ws | 0 <= i < |instances| && ws in instances[i].known :: ws
  }

  /** No socket on two instances. */
  ghost predicate Cluster(instances: seq<Registry>)
    reads instances, SocketsOf(instances)`rooms
  {
    && (forall i :: 0 <= i < |instances| ==> instances[i].known <= SocketsOf(instances) && instances[i].Valid())
    && (forall i, j :: 0 <= i < j < |instances| ==> instances[i].known !! instances[j].known)
  }

  predicate Hears(registry: Registry, channel: string)
    reads registry
  {
    registry.applied <= |registry.commands| && channel in Subscribed(registry.commands[..registry.applied])
  }

  /** No command under way names the channel. */
  predicate Settled(registry: Registry, channel: string)
    reads registry
  {
    forall k :: registry.applied <= k < |registry.commands| ==> registry.commands[k].channel != channel
  }

  ghost predicate AllSettled(instances: seq<Registry>, channel: string)
    reads instances
  {
    forall i :: 0 <= i < |instances| ==> Settled(instances[i], channel)
  }

  /** The socket's instance hears the channel. */
  ghost predicate Heard(instances: seq<Registry>, channel: string, ws: Socket)
    reads instances
  {
    exists i :: 0 <= i < |instances| && ws in instances[i].known && Hears(instances[i], channel)
  }

  /** The sockets an envelope is for, on whichever instance hears the channel. */
  ghost function Goal(instances: seq<Registry>, channel: string, env: Envelope): set<Socket>
    reads instances
  {
    set i, ws | 0 <= i < |instances| && Hears(instances[i], channel) && ws in Targets(instances[i], env) :: ws
  }

  lemma TargetsAreKnown(registry: Registry, env: Envelope)
    requires registry.Valid()
    ensures Targets(registry, env) <= registry.known
  {
    hide Joined, Counted, Mirrored, Capped;
    if env.roomId.Some? { MembersAreKnown(registry, env.roomId.value); }
  }

  lemma GoalOn(instances: seq<Registry>, channel: string, env: Envelope, n: nat, ws: Socket)
    requires Cluster(instances) && n < |instances| && ws in instances[n].known
    ensures ws in Goal(instances, channel, env) <==>
      Hears(instances[n], channel) && ws in Targets(instances[n], env)
  {
    hide Registry.Valid, Targets, Hears;
    if ws in Goal(instances, channel, env) {
      var i :| 0 <= i < |instances| && Hears(instances[i], channel) && ws in Targets(instances[i], env);
      TargetsAreKnown(instances[i], env);
    }
  }

  method RouteIfHeard(registry: Registry, channel: string, env: Envelope, ghost goal: set<Socket>)
    requires registry.Valid()
    requires forall ws :: ws in registry.known ==>
               (ws in goal <==> Hears(registry, channel) && ws in Targets(registry, env))
    modifies registry.known`sent, registry.known`open
    ensures registry.Valid() && Routed(registry.known, goal, env)
  {
    hide Registry.Valid, Targets, Hears;
    if Hears(registry, channel) {
      RouteEnvelope(registry, env);
    }
  }

  /** PUBLISH: every instance subscribed to the channel routes the envelope, once. */
  method Publish(instances: seq<Registry>, channel: string, env: Envelope)
    requires Cluster(instances)
    modifies SocketsOf(instances)`sent, SocketsOf(instances)`open
    ensures Cluster(instances)
    ensures Routed(SocketsOf(instances), old(Goal(instances, channel, env)), env)
  {
    ghost var goal := Goal(instances, channel, env);
    ghost var all := SocketsOf(instances);
    ghost var done: set<Socket> := {};
    InSome(instances);
    hide Registry.Valid, Targets, Hears, Goal, SocketsOf, Received;
    for n := 0 to |instances|
      invariant Cluster(instances) && goal == Goal(instances, channel, env)
      invariant all == old(SocketsOf(instances)) == SocketsOf(instances) && done <= old(SocketsOf(instances))
      invariant forall i :: 0 <= i < n ==> instances[i].known <= done
      invariant forall i :: n <= i < |instances| ==> instances[i].known !! done
      invariant forall ws :: ws in done ==> Outcome(ws, ws in goal, env)
      invariant forall ws :: ws in old(SocketsOf(instances)) && ws !in done ==> Untouched(ws)
    {
      forall ws | ws in instances[n].known
        ensures ws in goal <==> Hears(instances[n], channel) && ws in Targets(instances[n], env)
      {
        GoalOn(instances, channel, env, n, ws);
      }
      RouteIfHeard(instances[n], channel, env, goal);
      done := done + instances[n].known;
    }
  }

  lemma InSome(instances: seq<Registry>)
    ensures forall ws :: ws in SocketsOf(instances) ==> exists i :: 0 <= i < |instances| && ws in instances[i].known
  {
  }

  // ---- publishers -------------------------------------------------------------------------------------------

  /** With nothing under way about a room, or a user, an instance hears it exactly if it has someone there. */
  lemma SettledMirrors(registry: Registry, name: string)
    requires registry.Valid()
    ensures Settled(registry, RoomChannel(name)) ==> (Hears(registry, RoomChannel(name)) <==> name in registry.rooms)
    ensures Settled(registry, UserChannel(name)) ==>
              (Hears(registry, UserChannel(name)) <==> name in registry.userConnections)
  {
    ChannelsDiffer();
    var n := registry.applied;
    if Settled(registry, RoomChannel(name)) { SubscribedBefore(registry.commands, n, RoomChannel(name)); }
    if Settled(registry, UserChannel(name)) { SubscribedBefore(registry.commands, n, UserChannel(name)); }
    hide Owned, Anonymous, Counted, Joined, Waiting, Capped, Subscribed;
  }

  lemma RoomTargets(registry: Registry, room: string, env: Envelope, ws: Socket)
    requires registry.Valid() && ws in registry.known && env.cmd.Deliver? && env.roomId == Some(room) && env.userId.None?
    ensures ws in Targets(registry, env) <==> room != "" && room in ws.rooms && env.except != Some(ws.connectionId)
    ensures Settled(registry, RoomChannel(room)) && room in ws.rooms ==> Hears(registry, RoomChannel(room))
  {
    SettledMirrors(registry, room);
    hide Hears, Counted, Mirrored, Capped, Settled;
  }

  lemma UserTargets(registry: Registry, user: string, env: Envelope, ws: Socket)
    requires registry.Valid() && ws in registry.known && env.roomId.None? && env.userId == Some(user)
    ensures ws in Targets(registry, env) <==>
      && user != "" && Holds(registry.userConnections, user, ws)
      && (Selects(env.sessionId) ==> ws.sessionId == env.sessionId.value)
    ensures Settled(registry, UserChannel(user)) && Holds(registry.userConnections, user, ws) ==>
              Hears(registry, UserChannel(user))
  {
    SettledMirrors(registry, user);
    hide Hears, Counted, Mirrored, Capped, Joined, Settled;
  }

  lemma HeardOn(instances: seq<Registry>, channel: string, n: nat, ws: Socket)
    requires Cluster(instances) && n < |instances| && ws in instances[n].known
    ensures Heard(instances, channel, ws) <==> Hears(instances[n], channel)
  {
    hide Registry.Valid, Hears;
  }

  /** A member of the room on an instance that hears it. */
  ghost predicate Attends(instances: seq<Registry>, room: string, ws: Socket)
    reads instances, ws`rooms
  {
    room in ws.rooms && Heard(instances, RoomChannel(room), ws)
  }

  /**
   * Each member of the room on an instance that hears it, but the excepted connection, is tried exactly once, so gets
   * the payload if open and keeping up; no other socket gets anything. A room named "" is never reached.
   */
  method DeliverToRoom(instances: seq<Registry>, room: string, payload: string, except: Option<string>)
    requires Cluster(instances)
    modifies SocketsOf(instances)`sent, SocketsOf(instances)`open
    ensures Cluster(instances)
    ensures forall ws :: ws in SocketsOf(instances) ==>
              if room != "" && Attends(instances, room, ws) && except != Some(ws.connectionId) then Tried(ws, payload)
              else Untouched(ws)
  {
    var env := Envelope(Deliver, None, None, Some(room), payload, except);
    hide Registry.Valid, Goal, Targets, Hears, Heard;
    forall ws | ws in SocketsOf(instances)
      ensures ws in Goal(instances, RoomChannel(room), env) <==>
        room != "" && Attends(instances, room, ws) && except != Some(ws.connectionId)
    {
      RoomGoal(instances, room, env, ws);
    }
    Publish(instances, RoomChannel(room), env);
  }

  lemma RoomGoal(instances: seq<Registry>, room: string, env: Envelope, ws: Socket)
    requires Cluster(instances) && ws in SocketsOf(instances)
    requires env.cmd.Deliver? && env.roomId == Some(room) && env.userId.None?
    ensures ws in Goal(instances, RoomChannel(room), env) <==>
      room != "" && Attends(instances, room, ws) && env.except != Some(ws.connectionId)
    ensures AllSettled(instances, RoomChannel(room)) && room in ws.rooms ==> Attends(instances, room, ws)
  {
    var i :| 0 <= i < |instances| && ws in instances[i].known;
    hide Registry.Valid, Goal, Targets, Hears, Heard, Settled;
    GoalOn(instances, RoomChannel(room), env, i, ws);
    HeardOn(instances, RoomChannel(room), i, ws);
    RoomTargets(instances[i], room, env, ws);
  }

  /** With no command about the room under way anywhere, that is every member. */
  lemma MembersAttend(instances: seq<Registry>, room: string)
    requires Cluster(instances) && AllSettled(instances, RoomChannel(room))
    ensures forall ws :: ws in SocketsOf(instances) ==> (Attends(instances, room, ws) <==> room in ws.rooms)
  {
    hide Cluster, Goal, Heard, AllSettled;
    forall ws | ws in SocketsOf(instances) && room in ws.rooms ensures Attends(instances, room, ws) {
      RoomGoal(instances, room, Envelope(Deliver, None, None, Some(room), "", None), ws);
    }
  }

  /** Connection ids are drawn once each. */
  ghost predicate DistinctIds(sockets: set<Socket>) {
    forall a, b :: a in sockets && b in sockets && a.connectionId == b.connectionId ==> a == b
  }

  /** Who a message in the room from this socket is for. */
  ghost predicate Hearer(instances: seq<Registry>, ws: Socket, sender: Socket, room: string)
    reads instances, ws`rooms, sender`rooms
  {
    sender.userId.Some? && room in sender.rooms && room != "" && Attends(instances, room, ws) && ws != sender
  }

  /** What a room.message handler carries across the saving of its text. */
  datatype Saving = Saving(room: string, from: string, payload: string)

  /** The part of room.message before the text is saved: only a user's socket that has joined goes on. */
  method RoomPost(sender: Socket, room: string, payload: string) returns (saving: Option<Saving>)
    ensures saving.Some? <==> sender.userId.Some? && room in sender.rooms
    ensures saving.Some? ==> saving.value == Saving(room, sender.connectionId, payload)
  {
    if sender.userId.None? || room !in sender.rooms {
      return None;
    }
    return Some(Saving(room, sender.connectionId, payload));
  }

  /**
   * The part after it, however much later: whoever is a member by then is tried once, whether or not they were when the
   * message was posted, and whether or not its sender is still in the room, or there at all.
   */
  method RoomDeliver(instances: seq<Registry>, saving: Saving)
    requires Cluster(instances)
    modifies SocketsOf(instances)`sent, SocketsOf(instances)`open
    ensures Cluster(instances)
    ensures forall ws :: ws in SocketsOf(instances) ==>
              if saving.room != "" && Attends(instances, saving.room, ws) && ws.connectionId != saving.from
              then Tried(ws, saving.payload) else Untouched(ws)
  {
    hide Cluster, Attends, SocketsOf, Tried, Untouched;
    DeliverToRoom(instances, saving.room, saving.payload, Some(saving.from));
  }

  /**
   * Both parts with nothing in between: from a user's socket that has joined the room, every other member on an
   * instance that hears it is tried exactly once, and neither the sender nor anyone outside the room is touched; from
   * any other socket, nobody is.
   */
  method RoomMessage(instances: seq<Registry>, sender: Socket, room: string, payload: string)
    requires Cluster(instances) && sender in SocketsOf(instances) && DistinctIds(SocketsOf(instances))
    modifies SocketsOf(instances)`sent, SocketsOf(instances)`open
    ensures Cluster(instances)
    ensures forall ws :: ws in SocketsOf(instances) ==>
              if Hearer(instances, ws, sender, room) then Tried(ws, payload) else Untouched(ws)
  {
    hide Cluster, Attends;
    var saving := RoomPost(sender, room, payload);
    if saving.Some? {
      RoomDeliver(instances, saving.value);
    }
  }

  /**
   * What joining is for: once its membership check has answered "member" and its instance's commands are applied, a
   * socket that is open and keeping up gets the next message another member sends to the room, whichever instances
   * the two are on.
   */
  method JoinedHears(
    instances: seq<Registry>, local: Registry, ws: Socket, sender: Socket, room: string, payload: string)
    requires Cluster(instances) && local in instances && DistinctIds(SocketsOf(instances))
    requires ws in local.known && (ws, room) in local.waiting && ws.open && !Backlogged(ws)
    requires sender in SocketsOf(instances) && ws != sender && sender.userId.Some? && room in sender.rooms && room != ""
    modifies local, SocketsOf(instances)
    ensures Cluster(instances) && ws.open && ws.sent == old(ws.sent) + [payload]
  {
    hide Cluster, Registry.Valid;
    InCluster(instances, local, ws);
    JoinInCluster(instances, local, ws, room, true);
    CatchUpInCluster(instances, local, ws);
    CaughtUpAttends(instances, local, ws, room);
    assert Hearer(instances, ws, sender, room) && ws in SocketsOf(instances);
    RoomMessage(instances, sender, room, payload);
    assert Hearer(instances, ws, sender, room);
  }

  /** The first local member of a room has joined, its subscription under way: it is in the room and does not attend. */
  method JoinedTooSoon(instances: seq<Registry>, local: Registry, ws: Socket, room: string)
    requires Cluster(instances) && local in instances && ws in local.known && (ws, room) in local.waiting
    requires local.applied == |local.commands| && room !in local.rooms
    modifies local`rooms, local`waiting, local`commands, ws`rooms
    ensures Cluster(instances) && SocketsOf(instances) == old(SocketsOf(instances))
    ensures ws in SocketsOf(instances) && room in ws.rooms && !Attends(instances, room, ws)
  {
    NotHeard(instances, local, room);
    InCluster(instances, local, ws);
    hide Cluster, Registry.Valid, Attends, SocketsOf, Subscribed;
    ghost var was := local.commands;
    JoinInCluster(instances, local, ws, room, true);
    assert was[..|was|] == was && (was + [Subscribe(RoomChannel(room))])[..|was|] == was;
    UnheardIsMissed(instances, local, ws, room);
  }

  /** Until then a message that another member sends passes it by. */
  method MessageMissed(instances: seq<Registry>, ws: Socket, sender: Socket, room: string, payload: string)
    requires Cluster(instances) && sender in SocketsOf(instances) && DistinctIds(SocketsOf(instances))
    requires ws in SocketsOf(instances) && !Attends(instances, room, ws)
    modifies SocketsOf(instances)`sent, SocketsOf(instances)`open
    ensures Cluster(instances) && ws.sent == old(ws.sent)
  {
    hide Cluster, Attends;
    RoomMessage(instances, sender, room, payload);
    assert !Hearer(instances, ws, sender, room);
  }

  lemma NotHeard(instances: seq<Registry>, local: Registry, room: string)
    requires Cluster(instances) && local in instances && local.applied == |local.commands| && room !in local.rooms
    ensures !Hears(local, RoomChannel(room))
  {
    var i :| 0 <= i < |instances| && instances[i] == local;
    SettledMirrors(local, room);
  }

  lemma UnheardIsMissed(instances: seq<Registry>, local: Registry, ws: Socket, room: string)
    requires Cluster(instances) && local in instances && ws in local.known && !Hears(local, RoomChannel(room))
    ensures !Attends(instances, room, ws)
  {
    var i :| 0 <= i < |instances| && instances[i] == local;
    HeardOn(instances, RoomChannel(room), i, ws);
  }

  /**
   * The sender is gone and someone has joined while the text was being saved: it is delivered all the same, to the one
   * who joined.
   */
  method DeliveredToThoseWhoAreThere(
    instances: seq<Registry>, local: Registry, late: Socket, sender: Socket, room: string, payload: string)
    requires Cluster(instances) && local in instances && DistinctIds(SocketsOf(instances))
    requires late in local.known && (late, room) in local.waiting && late.open && !Backlogged(late)
    requires sender in local.known && late != sender && sender.userId.Some? && room in sender.rooms && room != ""
    modifies local, SocketsOf(instances)
    ensures Cluster(instances) && late.open && late.sent == old(late.sent) + [payload]
    ensures sender.rooms == {} && !sender.open && sender.sent == old(sender.sent)
  {
    hide Cluster, Registry.Valid, Attends;
    InCluster(instances, local, late);
    InCluster(instances, local, sender);
    var saving := RoomPost(sender, room, payload);
    CloseInCluster(instances, local, sender);
    JoinInCluster(instances, local, late, room, true);
    CatchUpInCluster(instances, local, late);
    CaughtUpAttends(instances, local, late, room);
    assert late.connectionId != sender.connectionId;
    DeliverTo(instances, saving.value, late, sender);
  }

  method DeliverTo(instances: seq<Registry>, saving: Saving, ws: Socket, sender: Socket)
    requires Cluster(instances) && ws in SocketsOf(instances) && sender in SocketsOf(instances)
    requires saving.room != "" && Attends(instances, saving.room, ws) && ws.connectionId != saving.from
    requires sender.connectionId == saving.from
    modifies SocketsOf(instances)`sent, SocketsOf(instances)`open
    ensures Cluster(instances) && Tried(ws, saving.payload) && Untouched(sender)
  {
    hide Cluster, Attends;
    RoomDeliver(instances, saving);
    assert Attends(instances, saving.room, ws);
  }

  lemma CaughtUpAttends(instances: seq<Registry>, local: Registry, ws: Socket, room: string)
    requires Cluster(instances) && local in instances && ws in local.known && local.applied == |local.commands|
    requires room in ws.rooms
    ensures Attends(instances, room, ws)
  {
    var i :| 0 <= i < |instances| && instances[i] == local;
    HeardOn(instances, RoomChannel(room), i, ws);
    RoomTargets(local, room, Envelope(Deliver, None, None, Some(room), "", None), ws);
  }

  lemma InCluster(instances: seq<Registry>, local: Registry, ws: Socket)
    requires local in instances && ws in local.known
    ensures ws in SocketsOf(instances)
  {
    var i :| 0 <= i < |instances| && instances[i] == local;
  }

  lemma LocalValid(instances: seq<Registry>, local: Registry)
    requires Cluster(instances) && local in instances
    ensures local.Valid()
  {
    hide Registry.Valid;
  }

  lemma OnlyHere(instances: seq<Registry>, local: Registry, ws: Socket)
    requires Cluster(instances) && local in instances && ws in local.known
    ensures local.Valid()
    ensures forall i :: 0 <= i < |instances| ==> instances[i] == local || ws !in instances[i].known
    ensures forall i :: 0 <= i < |instances| ==> instances[i].Valid()
  {
    hide Registry.Valid;
    var j :| 0 <= j < |instances| && instances[j] == local;
  }

  /** An event elsewhere leaves an instance as it is. */
  twostate lemma OtherStays(other: Registry)
    requires old(other.Valid()) && unchanged(other)
    requires forall x :: x in old(other.known) ==> x.rooms == old(x.rooms)
    ensures other.Valid()
  {
    hide Registry.Valid;
  }

  twostate lemma ClusterMade(instances: seq<Registry>)
    requires old(Cluster(instances)) && forall i :: 0 <= i < |instances| ==> instances[i].known == old(instances[i].known)
    requires forall i :: 0 <= i < |instances| ==> instances[i].Valid()
    ensures Cluster(instances) && SocketsOf(instances) == old(SocketsOf(instances))
  {
    hide Registry.Valid;
    SameSockets(instances);
  }

  twostate lemma SameSockets(instances: seq<Registry>)
    requires forall i :: 0 <= i < |instances| ==> instances[i].known == old(instances[i].known)
    ensures SocketsOf(instances) == old(SocketsOf(instances))
  {
    assert forall ws :: ws in SocketsOf(instances) <==> exists i :: 0 <= i < |instances| && ws in instances[i].known;
    assert forall ws :: ws in old(SocketsOf(instances)) <==>
        exists i :: 0 <= i < |instances| && ws in old(instances[i].known);
  }

  method JoinInCluster(instances: seq<Registry>, local: Registry, ws: Socket, room: string, isMember: bool)
    requires Cluster(instances) && local in instances && ws in local.known && (ws, room) in local.waiting
    modifies local`rooms, local`waiting, local`commands, ws`rooms
    ensures Cluster(instances) && SocketsOf(instances) == old(SocketsOf(instances))
    ensures ws.rooms == if isMember then old(ws.rooms) + {room} else old(ws.rooms)
    ensures local.commands == if isMember && room !in old(local.rooms)
                              then old(local.commands) + [Subscribe(RoomChannel(room))] else old(local.commands)
  {
    hide *;
    OnlyHere(instances, local, ws);
    local.RoomJoin(ws, room, isMember);
    forall i | 0 <= i < |instances| ensures instances[i].Valid() {
      if instances[i] != local { OtherStays(instances[i]); }
    }
    ClusterMade(instances);
  }

  method CatchUpInCluster(instances: seq<Registry>, local: Registry, ws: Socket)
    requires Cluster(instances) && local in instances && ws in local.known
    modifies local`applied
    ensures Cluster(instances) && SocketsOf(instances) == old(SocketsOf(instances))
    ensures local.applied == |local.commands|
  {
    hide *;
    OnlyHere(instances, local, ws);
    local.CatchUp();
    forall i | 0 <= i < |instances| ensures instances[i].Valid() {
      if instances[i] != local { OtherStays(instances[i]); }
    }
    ClusterMade(instances);
  }

  method CloseInCluster(instances: seq<Registry>, local: Registry, ws: Socket)
    requires Cluster(instances) && local in instances && ws in local.known
    modifies local, ws`rooms, ws`open
    ensures Cluster(instances) && SocketsOf(instances) == old(SocketsOf(instances))
    ensures !ws.open && ws.rooms == {} && local.waiting == old(local.waiting) && local.known == old(local.known)
  {
    hide *;
    OnlyHere(instances, local, ws);
    local.OnClose(ws);
    forall i | 0 <= i < |instances| ensures instances[i].Valid() {
      if instances[i] != local { OtherStays(instances[i]); }
    }
    ClusterMade(instances);
  }

  /** Registered under the user on its instance. */
  ghost predicate Connected(instances: seq<Registry>, user: string, ws: Socket)
    reads instances
  {
    exists i :: 0 <= i < |instances| && Holds(instances[i].userConnections, user, ws)
  }

  /** And that instance hears the user's channel. */
  ghost predicate Listens(instances: seq<Registry>, user: string, ws: Socket)
    reads instances
  {
    Connected(instances, user, ws) && Heard(instances, UserChannel(user), ws)
  }

  lemma UserGoal(instances: seq<Registry>, user: string, env: Envelope, ws: Socket)
    requires Cluster(instances) && ws in SocketsOf(instances) && env.roomId.None? && env.userId == Some(user)
    ensures ws in Goal(instances, UserChannel(user), env) <==>
      && user != "" && Listens(instances, user, ws)
      && (Selects(env.sessionId) ==> ws.sessionId == env.sessionId.value)
    ensures AllSettled(instances, UserChannel(user)) && Connected(instances, user, ws) ==> Listens(instances, user, ws)
  {
    var i :| 0 <= i < |instances| && ws in instances[i].known;
    hide Registry.Valid, Goal, Targets, Hears, Heard, Settled, Connected;
    ConnectedOn(instances, user, i, ws);
    GoalOn(instances, UserChannel(user), env, i, ws);
    HeardOn(instances, UserChannel(user), i, ws);
    UserTargets(instances[i], user, env, ws);
  }

  lemma ConnectedOn(instances: seq<Registry>, user: string, n: nat, ws: Socket)
    requires Cluster(instances) && n < |instances| && ws in instances[n].known
    ensures Connected(instances, user, ws) <==> Holds(instances[n].userConnections, user, ws)
  {
    hide Registry.Valid;
    if Connected(instances, user, ws) {
      var j :| 0 <= j < |instances| && Holds(instances[j].userConnections, user, ws);
      HeldIsKnown(instances[j], user, ws);
    }
  }

  /** With no command about the user under way anywhere, that is every socket of the user. */
  lemma SocketsListen(instances: seq<Registry>, user: string)
    requires Cluster(instances) && AllSettled(instances, UserChannel(user))
    ensures forall ws :: ws in SocketsOf(instances) ==>
              (Listens(instances, user, ws) <==> Connected(instances, user, ws))
  {
    hide Cluster, Goal, Heard, AllSettled, Connected;
    forall ws | ws in SocketsOf(instances) && Connected(instances, user, ws) ensures Listens(instances, user, ws) {
      UserGoal(instances, user, Envelope(Deliver, Some(user), None, None, "", None), ws);
    }
  }

  lemma HeldIsKnown(registry: Registry, user: string, ws: Socket)
    requires registry.Valid() && Holds(registry.userConnections, user, ws)
    ensures ws in registry.known
  {
  }

  /** Every socket of the user on an instance that hears the user; no other. */
  method DeliverToUser(instances: seq<Registry>, user: string, payload: string)
    requires Cluster(instances)
    modifies SocketsOf(instances)`sent, SocketsOf(instances)`open
    ensures Cluster(instances)
    ensures forall ws :: ws in SocketsOf(instances) ==>
              if user != "" && Listens(instances, user, ws) then Tried(ws, payload) else Untouched(ws)
  {
    var env := Envelope(Deliver, Some(user), None, None, payload, None);
    hide Registry.Valid, Goal, Targets, Hears, SocketsOf, Listens;
    forall ws | ws in SocketsOf(instances)
      ensures ws in Goal(instances, UserChannel(user), env) <==> user != "" && Listens(instances, user, ws)
    {
      UserGoal(instances, user, env, ws);
    }
    Publish(instances, UserChannel(user), env);
  }

  /** Every such socket of the session; no other, unless the session is named "": then all the user's. */
  method DeliverToSession(instances: seq<Registry>, user: string, session: string, payload: string)
    requires Cluster(instances)
    modifies SocketsOf(instances)`sent, SocketsOf(instances)`open
    ensures Cluster(instances)
    ensures forall ws :: ws in SocketsOf(instances) ==>
              if user != "" && Listens(instances, user, ws) && (session != "" ==> ws.sessionId == session)
              then Tried(ws, payload) else Untouched(ws)
  {
    var env := Envelope(Deliver, Some(user), Some(session), None, payload, None);
    hide Registry.Valid, Goal, Targets, Hears, SocketsOf, Listens;
    forall ws | ws in SocketsOf(instances)
      ensures ws in Goal(instances, UserChannel(user), env) <==>
        user != "" && Listens(instances, user, ws) && (session != "" ==> ws.sessionId == session)
    {
      UserGoal(instances, user, env, ws);
    }
    Publish(instances, UserChannel(user), env);
  }

  /** Logout of one device: its sockets are closed wherever the user is heard, nothing is sent, no other is touched. */
  method DisconnectSocketConnection(instances: seq<Registry>, user: string, session: string)
    requires Cluster(instances)
    modifies SocketsOf(instances)`sent, SocketsOf(instances)`open
    ensures Cluster(instances)
    ensures forall ws :: ws in SocketsOf(instances) ==>
              && ws.sent == old(ws.sent)
              && ws.open == (old(ws.open) && !(user != "" && Listens(instances, user, ws)
                                               && (session != "" ==> ws.sessionId == session)))
  {
    var env := Envelope(Disconnect, Some(user), Some(session), None, "", None);
    hide Registry.Valid, Goal, Targets, Hears, SocketsOf, Listens;
    forall ws | ws in SocketsOf(instances)
      ensures ws in Goal(instances, UserChannel(user), env) <==>
        user != "" && Listens(instances, user, ws) && (session != "" ==> ws.sessionId == session)
    {
      UserGoal(instances, user, env, ws);
    }
    Publish(instances, UserChannel(user), env);
  }

  /** Logout everywhere: all the user's sockets are closed on every instance that hears the user. */
  method DisconnectUser(instances: seq<Registry>, user: string)
    requires Cluster(instances)
    modifies SocketsOf(instances)`sent, SocketsOf(instances)`open
    ensures Cluster(instances)
    ensures forall ws :: ws in SocketsOf(instances) ==>
              && ws.sent == old(ws.sent)
              && ws.open == (old(ws.open) && !(user != "" && Listens(instances, user, ws)))
  {
    var env := Envelope(Disconnect, Some(user), None, None, "", None);
    hide Registry.Valid, Goal, Targets, Hears, SocketsOf, Listens;
    forall ws | ws in SocketsOf(instances)
      ensures ws in Goal(instances, UserChannel(user), env) <==> user != "" && Listens(instances, user, ws)
    {
      UserGoal(instances, user, env, ws);
    }
    Publish(instances, UserChannel(user), env);
  }
}
