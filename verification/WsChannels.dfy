/** Pub/sub channels, the commands that manage them, and the bookkeeping of maps of sets. */
module WsChannels {
  const WS_USER_PREFIX := "ws:user:"
  const WS_ROOM_PREFIX := "ws:room:"

  function UserChannel(user: string): string { WS_USER_PREFIX + user }

  function RoomChannel(room: string): string { WS_ROOM_PREFIX + room }

  /** A channel names one user or one room, never both. */
  lemma ChannelsDiffer()
    ensures forall a, b :: UserChannel(a) == UserChannel(b) ==> a == b
    ensures forall a, b :: RoomChannel(a) == RoomChannel(b) ==> a == b
    ensures forall a, b :: UserChannel(a) != RoomChannel(b)
  {
    forall a, b | UserChannel(a) == UserChannel(b) ensures a == b {
      assert a == UserChannel(a)[|WS_USER_PREFIX|..] && b == UserChannel(b)[|WS_USER_PREFIX|..];
    }
    forall a, b | RoomChannel(a) == RoomChannel(b) ensures a == b {
      assert a == RoomChannel(a)[|WS_ROOM_PREFIX|..] && b == RoomChannel(b)[|WS_ROOM_PREFIX|..];
    }
    forall a, b ensures UserChannel(a) != RoomChannel(b) {
      assert UserChannel(a)[3] == 'u' && RoomChannel(b)[3] == 'r';
    }
  }

  // ---- commands -------------------------------------------------------------------------------------------

  datatype Command = Subscribe(channel: string) | Unsubscribe(channel: string)

  function Apply(before: set<string>, command: Command): set<string> {
    match command
    case Subscribe(channel) => before + {channel}
    case Unsubscribe(channel) => before - {channel}
  }

  /** What a connection is subscribed to after these commands, applied in order. */
  function Subscribed(commands: seq<Command>): set<string> {
    if commands == [] then {}
    else Apply(Subscribed(commands[..|commands| - 1]), commands[|commands| - 1])
  }

  lemma SubscribedNext(commands: seq<Command>, command: Command)
    ensures Subscribed(commands + [command]) == Apply(Subscribed(commands), command)
  {
    assert (commands + [command])[..|commands|] == commands;
  }

  /** Command k asks for the channel and no later one names it. */
  ghost predicate AsksLast(commands: seq<Command>, k: nat, channel: string) {
    && k < |commands| && commands[k] == Subscribe(channel)
    && forall m :: k < m < |commands| ==> commands[m].channel != channel
  }

  lemma AsksLastNext(commands: seq<Command>, command: Command, k: nat, channel: string)
    ensures AsksLast(commands + [command], k, channel) <==>
      (k == |commands| && command == Subscribe(channel)) || (AsksLast(commands, k, channel) && command.channel != channel)
  {
    var more := commands + [command];
    assert more[|commands|] == command;
    if AsksLast(more, k, channel) && k < |commands| {
      assert forall m :: k < m < |commands| ==> more[m] == commands[m];
    }
  }

  /** A channel is subscribed exactly if a command asked for it and no later one named it. */
  lemma {:induction false} SubscribedByTheLast(commands: seq<Command>, channel: string)
    ensures channel in Subscribed(commands) <==> exists k: nat :: AsksLast(commands, k, channel)
  {
    if commands != [] {
      var m := |commands| - 1;
      assert commands == commands[..m] + [commands[m]];
      SubscribedByTheLast(commands[..m], channel);
      assert channel in Subscribed(commands) <==>
        commands[m] == Subscribe(channel) || (channel in Subscribed(commands[..m]) && commands[m].channel != channel);
      hide Subscribed, AsksLast;
      AsksLastNext(commands[..m], commands[m], m, channel);
      if k: nat :| AsksLast(commands[..m], k, channel) {
        AsksLastNext(commands[..m], commands[m], k, channel);
      }
      if k: nat :| AsksLast(commands, k, channel) {
        AsksLastNext(commands[..m], commands[m], k, channel);
      }
    }
  }

  /** Commands that do not name a channel do not matter to it. */
  lemma {:induction false} SubscribedBefore(commands: seq<Command>, n: nat, channel: string)
    requires n <= |commands| && forall k :: n <= k < |commands| ==> commands[k].channel != channel
    ensures channel in Subscribed(commands) <==> channel in Subscribed(commands[..n])
  {
    if n < |commands| {
      var m := |commands| - 1;
      SubscribedBefore(commands[..m], n, channel);
      assert commands[..m][..n] == commands[..n];
    } else {
      assert commands[..n] == commands;
    }
  }

  /** The channels of these users and rooms. */
  ghost function Channels(users: set<string>, rooms: set<string>): set<string> {
    (set u | u in users :: UserChannel(u)) + (set r | r in rooms :: RoomChannel(r))
  }

  lemma ChannelsGrow(users: set<string>, rooms: set<string>, x: string)
    ensures Channels(users + {x}, rooms) == Channels(users, rooms) + {UserChannel(x)}
    ensures Channels(users, rooms + {x}) == Channels(users, rooms) + {RoomChannel(x)}
  {
  }

  lemma ChannelsShrink(users: set<string>, rooms: set<string>, x: string)
    ensures Channels(users - {x}, rooms) == Channels(users, rooms) - {UserChannel(x)}
    ensures Channels(users, rooms - {x}) == Channels(users, rooms) - {RoomChannel(x)}
  {
    ChannelsDiffer();
  }

  // ---- sizes ----------------------------------------------------------------------------------------------

  ghost function SumSizes<T>(sets: map<string, set<T>>): nat
    decreases |sets|
  {
    if sets.Keys == {} then 0
    else
      var k :| k in sets;
      assert (sets - {k}).Keys == sets.Keys - {k};
      |sets[k]| + SumSizes(sets - {k})
  }

  /** The sum does not depend on which key is counted first. */
  lemma {:induction false} SumSplits<T>(sets: map<string, set<T>>, x: string)
    requires x in sets
    ensures SumSizes(sets) == |sets[x]| + SumSizes(sets - {x})
    decreases |sets|
  {
    var k :| k in sets && SumSizes(sets) == |sets[k]| + SumSizes(sets - {k});
    if k != x {
      RemovedTwice(sets, k, x);
      SumSplits(sets - {k}, x);
      SumSplits(sets - {x}, k);
    }
  }

  lemma RemovedTwice<T>(sets: map<string, set<T>>, k: string, x: string)
    requires k in sets && x in sets && k != x
    ensures |sets - {k}| < |sets| && |sets - {x}| < |sets|
    ensures x in sets - {k} && k in sets - {x} && (sets - {k})[x] == sets[x] && (sets - {x})[k] == sets[k]
    ensures sets - {k} - {x} == sets - {x} - {k}
  {
    assert (sets - {k}).Keys == sets.Keys - {k} && (sets - {x}).Keys == sets.Keys - {x};
  }

  lemma SumWithout<T>(sets: map<string, set<T>>, x: string)
    ensures SumSizes(sets) == (if x in sets then |sets[x]| else 0) + SumSizes(sets - {x})
  {
    if x in sets {
      SumSplits(sets, x);
    } else {
      assert sets - {x} == sets;
    }
  }

  lemma SumUpdated<T>(sets: map<string, set<T>>, x: string, members: set<T>)
    ensures SumSizes(sets[x := members]) == SumSizes(sets - {x}) + |members|
  {
    SumSplits(sets[x := members], x);
    assert sets[x := members] - {x} == sets - {x};
  }

  // ---- maps of sets ---------------------------------------------------------------------------------------

  /** The map with x under key k. */
  function With<T(==)>(sets: map<string, set<T>>, k: string, x: T): map<string, set<T>> {
    sets[k := (if k in sets then sets[k] else {}) + {x}]
  }

  /** The map without x under key k, and without k when nothing is left under it. */
  function Without<T(==)>(sets: map<string, set<T>>, k: string, x: T): map<string, set<T>> {
    if k !in sets then sets
    else if sets[k] - {x} == {} then sets - {k}
    else sets[k := sets[k] - {x}]
  }

  predicate Holds<T(==)>(sets: map<string, set<T>>, k: string, x: T) {
    k in sets && x in sets[k]
  }

  lemma SumWith<T>(sets: map<string, set<T>>, k: string, x: T)
    ensures SumSizes(With(sets, k, x)) == SumSizes(sets) + (if Holds(sets, k, x) then 0 else 1)
  {
    var before := if k in sets then sets[k] else {};
    SumWithout(sets, k);
    SumUpdated(sets, k, before + {x});
    if x in before { assert before + {x} == before; }
  }

  lemma SumWithoutOne<T>(sets: map<string, set<T>>, k: string, x: T)
    ensures SumSizes(Without(sets, k, x)) == SumSizes(sets) - (if Holds(sets, k, x) then 1 else 0)
  {
    SumWithout(sets, k);
    if k in sets {
      if x !in sets[k] {
        assert sets[k] - {x} == sets[k];
      }
      if sets[k] - {x} == {} {
        assert |sets[k]| == |sets[k] - {x}| + if x in sets[k] then 1 else 0;
      } else {
        SumUpdated(sets, k, sets[k] - {x});
      }
    }
  }

  /** The map without x under any of these keys, and without the keys that only held x. */
  function Swept<T(==)>(sets: map<string, set<T>>, x: T, keys: set<string>): map<string, set<T>> {
    map k | k in sets && !(k in keys && sets[k] == {x}) :: if k in keys then sets[k] - {x} else sets[k]
  }

  lemma SweptNext<T>(sets: map<string, set<T>>, x: T, keys: set<string>, k: string)
    requires k !in keys && Holds(sets, k, x)
    ensures k in Swept(sets, x, keys) && Swept(sets, x, keys)[k] == sets[k]
    ensures Without(Swept(sets, x, keys), k, x) == Swept(sets, x, keys + {k})
  {
    assert sets[k] - {x} == {} <==> sets[k] == {x};
  }

  function Listed(items: seq<string>): set<string> {
    set x | x in items
  }

  lemma ListedFrom(items: seq<string>, i: nat)
    requires i < |items| && forall j, k :: 0 <= j < k < |items| ==> items[j] != items[k]
    ensures Listed(items[i..]) == {items[i]} + Listed(items[i + 1..]) && items[i] !in Listed(items[i + 1..])
  {
    assert items[i..] == [items[i]] + items[i + 1..];
  }

  lemma SubscribedOne(commands: seq<Command>, users: set<string>, rooms: set<string>, x: string)
    requires Subscribed(commands) == Channels(users, rooms)
    ensures Subscribed(commands + [Subscribe(UserChannel(x))]) == Channels(users + {x}, rooms)
    ensures Subscribed(commands + [Subscribe(RoomChannel(x))]) == Channels(users, rooms + {x})
  {
    SubscribedNext(commands, Subscribe(UserChannel(x)));
    SubscribedNext(commands, Subscribe(RoomChannel(x)));
    ChannelsGrow(users, rooms, x);
  }

  lemma OneMore(all: set<string>, todo: set<string>, x: string)
    requires todo <= all && x in todo
    ensures all - (todo - {x}) == all - todo + {x}
  {
  }

  /** The first half of a re-subscription: every user's channel. */
  method UserCommands(users: set<string>) returns (commands: seq<Command>)
    ensures Subscribed(commands) == Channels(users, {})
    ensures forall c :: c in commands ==> c.Subscribe?
  {
    assert Channels({}, {}) == {};
    commands := [];
    var todo := users;
    assert users - todo == {};
    hide Channels, Subscribed;
    while todo != {}
      invariant todo <= users && Subscribed(commands) == Channels(users - todo, {})
      invariant forall c :: c in commands ==> c.Subscribe?
      decreases |todo|
    {
      var u :| u in todo;
      SubscribedOne(commands, users - todo, {}, u);
      OneMore(users, todo, u);
      commands := commands + [Subscribe(UserChannel(u))];
      todo := todo - {u};
    }
    assert users - todo == users;
  }

  /** The second half: every room's. */
  method RoomCommands(first: seq<Command>, users: set<string>, rooms: set<string>) returns (commands: seq<Command>)
    requires Subscribed(first) == Channels(users, {}) && forall c :: c in first ==> c.Subscribe?
    ensures Subscribed(commands) == Channels(users, rooms)
    ensures forall c :: c in commands ==> c.Subscribe?
  {
    commands := first;
    var todo := rooms;
    assert rooms - todo == {};
    hide Channels, Subscribed;
    while todo != {}
      invariant todo <= rooms && Subscribed(commands) == Channels(users, rooms - todo)
      invariant forall c :: c in commands ==> c.Subscribe?
      decreases |todo|
    {
      var r :| r in todo;
      SubscribedOne(commands, users, rooms - todo, r);
      OneMore(rooms, todo, r);
      commands := commands + [Subscribe(RoomChannel(r))];
      todo := todo - {r};
    }
    assert rooms - todo == rooms;
  }
}
