/**
 * Rooms, and the joins that still wait for their membership check: asking, the answer, leaving and closing come in any
 * order, and closing a socket does not withdraw the joins it waits for.
 */
module WsJoins {
  import opened WsChannels

  /** Who is in which room, and which joins wait; the same one may have been asked for more than once. */
  datatype Hall<S(==)> = Hall(present: set<(S, string)>, waiting: multiset<(S, string)>)

  datatype Event<S> =
    | Asked(socket: S, room: string)
    | Answered(socket: S, room: string, isMember: bool)
    | Left(socket: S, room: string)
    | Closed(socket: S)

  ghost function Step<S>(h: Hall<S>, e: Event<S>): Hall<S> {
    match e
    case Asked(s, room) => h.(waiting := h.waiting + multiset{(s, room)})
    case Answered(s, room, isMember) =>
      if (s, room) !in h.waiting then h
      else Hall(if isMember then h.present + {(s, room)} else h.present, h.waiting - multiset{(s, room)})
    case Left(s, room) => h.(present := h.present - {(s, room)})
    case Closed(s) => h.(present := set p | p in h.present && p.0 != s)
  }

  ghost function Run<S>(h: Hall<S>, es: seq<Event<S>>): Hall<S>
    decreases |es|
  {
    if es == [] then h else Step(Run(h, es[..|es| - 1]), es[|es| - 1])
  }

  ghost predicate InSomeRoom<S>(h: Hall<S>, s: S) {
    exists room: string :: (s, room) in h.present
  }

  ghost predicate Waits<S>(h: Hall<S>, s: S) {
    exists room: string :: (s, room) in h.waiting
  }

  /** A join that waited is answered "member". */
  ghost predicate Admits<S>(h: Hall<S>, e: Event<S>, s: S, room: string) {
    e == Answered(s, room, true) && (s, room) in h.waiting
  }

  ghost predicate Removes<S>(e: Event<S>, s: S, room: string) {
    e == Left(s, room) || e == Closed(s)
  }

  /** After i events: 0 is before the first. */
  ghost function After<S>(h: Hall<S>, es: seq<Event<S>>, i: nat): Hall<S>
    requires i <= |es|
  {
    Run(h, es[..i])
  }

  lemma AfterNext<S>(h: Hall<S>, es: seq<Event<S>>, i: nat)
    requires i < |es|
    ensures After(h, es, i + 1) == Step(After(h, es, i), es[i])
  {
    assert es[..i + 1][..i] == es[..i];
  }

  lemma StepPresent<S>(h: Hall<S>, e: Event<S>, s: S, room: string)
    ensures (s, room) in Step(h, e).present <==>
      Admits(h, e, s, room) || ((s, room) in h.present && !Removes(e, s, room))
  {
  }

  /** Event i admits the socket to the room and nothing up to event n removes it again. */
  ghost predicate StaysFrom<S>(h: Hall<S>, es: seq<Event<S>>, i: nat, n: nat, s: S, room: string)
    requires i < n <= |es|
  {
    Admits(After(h, es, i), es[i], s, room) && forall k :: i < k < n ==> !Removes(es[k], s, room)
  }

  ghost predicate Stays<S>(h: Hall<S>, es: seq<Event<S>>, n: nat, s: S, room: string)
    requires n <= |es|
  {
    exists i :: 0 <= i < n && StaysFrom(h, es, i, n, s, room)
  }

  lemma StaysOneMore<S>(h: Hall<S>, es: seq<Event<S>>, m: nat, s: S, room: string)
    requires m < |es|
    ensures Stays(h, es, m + 1, s, room) <==>
      Admits(After(h, es, m), es[m], s, room) || (Stays(h, es, m, s, room) && !Removes(es[m], s, room))
  {
    hide After, Admits, Removes;
    if Admits(After(h, es, m), es[m], s, room) {
      assert StaysFrom(h, es, m, m + 1, s, room);
    }
    if Stays(h, es, m, s, room) && !Removes(es[m], s, room) {
      var i :| 0 <= i < m && StaysFrom(h, es, i, m, s, room);
      assert StaysFrom(h, es, i, m + 1, s, room);
    }
    if Stays(h, es, m + 1, s, room) {
      var i :| 0 <= i < m + 1 && StaysFrom(h, es, i, m + 1, s, room);
      assert i < m ==> StaysFrom(h, es, i, m, s, room);
    }
  }

  /**
   * A socket that was in no room is in this one after n events exactly if one of them answered a waiting join
   * with "member" and no later one was a leave or a close.
   */
  lemma {:induction false} PresentExactly<S>(h: Hall<S>, es: seq<Event<S>>, n: nat, s: S, room: string)
    requires n <= |es| && (s, room) !in h.present
    ensures (s, room) in After(h, es, n).present <==> exists i :: 0 <= i < n && StaysFrom(h, es, i, n, s, room)
  {
    if n > 0 {
      PresentExactly(h, es, n - 1, s, room);
      AfterNext(h, es, n - 1);
      StepPresent(After(h, es, n - 1), es[n - 1], s, room);
      hide Step, After, StaysFrom;
      StaysOneMore(h, es, n - 1, s, room);
    }
  }

  /** At no later point, the present one included, is the socket in any room. */
  ghost predicate StaysOut<S>(h: Hall<S>, es: seq<Event<S>>, s: S) {
    forall n :: 0 <= n <= |es| ==> !InSomeRoom(After(h, es, n), s)
  }

  ghost predicate NeverAdmitted<S>(h: Hall<S>, es: seq<Event<S>>, s: S) {
    forall i, room :: 0 <= i < |es| ==> !Admits(After(h, es, i), es[i], s, room)
  }

  /** From a close on, a socket is in no room at any point exactly if none of its waiting joins is answered "member". */
  lemma ClosedStaysOutExactly<S>(before: Hall<S>, es: seq<Event<S>>, s: S)
    ensures var h := Step(before, Closed(s));
            StaysOut(h, es, s) <==> NeverAdmitted(h, es, s)
  {
    var h := Step(before, Closed(s));
    assert !InSomeRoom(h, s);
    hide Step, After, Admits;
    if StaysOut(h, es, s) {
      forall i, room | 0 <= i < |es| ensures !Admits(After(h, es, i), es[i], s, room) {
        AfterNext(h, es, i);
        StepPresent(After(h, es, i), es[i], s, room);
        assert !InSomeRoom(After(h, es, i + 1), s);
      }
    }
    if NeverAdmitted(h, es, s) {
      forall n | 0 <= n <= |es| ensures !InSomeRoom(After(h, es, n), s) {
        if room: string :| (s, room) in After(h, es, n).present {
          PresentExactly(h, es, n, s, room);
        }
      }
    }
  }

  /** Nobody asks for this socket. */
  ghost predicate Unasked<S>(es: seq<Event<S>>, s: S) {
    forall e :: e in es ==> !(e.Asked? && e.socket == s)
  }

  lemma {:induction false} NothingWaits<S>(h: Hall<S>, es: seq<Event<S>>, n: nat, s: S)
    requires n <= |es| && !Waits(h, s) && Unasked(es, s)
    ensures !Waits(After(h, es, n), s)
  {
    if n > 0 {
      NothingWaits(h, es, n - 1, s);
      AfterNext(h, es, n - 1);
      assert es[n - 1] in es;
      StepWaits(After(h, es, n - 1), es[n - 1], s);
      hide Step, Waits, After;
    }
  }

  lemma StepWaits<S>(h: Hall<S>, e: Event<S>, s: S)
    requires !Waits(h, s) && !(e.Asked? && e.socket == s)
    ensures !Waits(Step(h, e), s)
  {
    forall room: string ensures (s, room) !in Step(h, e).waiting {
      assert (s, room) !in h.waiting;
    }
  }

  /**
   * What a caller can check at the close: unless the socket asks again, it can come back to a room, by some order
   * of later events, exactly if one of its joins waits now.
   */
  lemma ClosedComesBackExactly<S(!new)>(before: Hall<S>, s: S)
    ensures var h := Step(before, Closed(s));
            (exists es :: Unasked(es, s) && !StaysOut(h, es, s)) <==> Waits(before, s)
  {
    var h := Step(before, Closed(s));
    assert h.waiting == before.waiting;
    if Waits(before, s) {
      var room: string :| (s, room) in before.waiting;
      AnyWaitingJoinReturns(before, s, room);
    }
    hide Step;
    if es :| Unasked(es, s) && !StaysOut(h, es, s) {
      ClosedStaysOutExactly(before, es, s);
      var i, room :| 0 <= i < |es| && Admits(After(h, es, i), es[i], s, room);
      assert (s, room) in After(h, es, i).waiting;
      if !Waits(before, s) {
        NothingWaits(h, es, i, s);
      }
    }
  }

  /** Each single waiting join is enough. */
  lemma AnyWaitingJoinReturns<S>(before: Hall<S>, s: S, room: string)
    requires (s, room) in before.waiting
    ensures var h := Step(before, Closed(s));
            var es := [Answered(s, room, true)];
            Unasked(es, s) && (s, room) in Run(h, es).present && !StaysOut(h, es, s)
  {
    var h := Step(before, Closed(s));
    var es := [Answered(s, room, true)];
    assert After(h, es, 0) == h && After(h, es, 1) == Step(h, es[0]) by { AfterNext(h, es, 0); }
    assert es[..1] == es;
    assert InSomeRoom(After(h, es, 1), s);
  }

  // ---- a registry's rooms ---------------------------------------------------------------------------------

  ghost function Memberships<S>(rooms: map<string, set<S>>): set<(S, string)> {
    set room, s | room in rooms && s in rooms[room] :: (s, room)
  }

  lemma MembershipsWith<S>(rooms: map<string, set<S>>, room: string, s: S)
    ensures Memberships(With(rooms, room, s)) == Memberships(rooms) + {(s, room)}
  {
  }

  lemma MembershipsWithout<S>(rooms: map<string, set<S>>, room: string, s: S)
    ensures Memberships(Without(rooms, room, s)) == Memberships(rooms) - {(s, room)}
  {
    var fewer := Without(rooms, room, s);
    forall r, x ensures (x, r) in Memberships(fewer) <==> (x, r) in Memberships(rooms) && (x, r) != (s, room) {
      if r == room && Holds(rooms, room, x) && x != s {
        assert x in rooms[room] - {s};
      }
    }
  }

  lemma MembershipsSwept<S>(rooms: map<string, set<S>>, s: S, keys: set<string>)
    requires forall room :: Holds(rooms, room, s) ==> room in keys
    ensures Memberships(Swept(rooms, s, keys)) == set p | p in Memberships(rooms) && p.0 != s
  {
    var swept := Swept(rooms, s, keys);
    forall room, x ensures (x, room) in Memberships(swept) <==> (x, room) in Memberships(rooms) && x != s {
      if Holds(rooms, room, x) && x != s {
        assert rooms[room] != {s};
      }
    }
  }

  lemma AskedHall<S>(rooms: map<string, set<S>>, waiting: multiset<(S, string)>, s: S, room: string)
    ensures Hall(Memberships(rooms), waiting + multiset{(s, room)}) ==
            Step(Hall(Memberships(rooms), waiting), Asked(s, room))
  {
    hide Memberships;
  }

  lemma AnsweredHall<S>(rooms: map<string, set<S>>, waiting: multiset<(S, string)>, s: S, room: string)
    requires (s, room) in waiting
    ensures var h := Hall(Memberships(rooms), waiting);
            var less := waiting - multiset{(s, room)};
            && Step(h, Answered(s, room, true)) == Hall(Memberships(With(rooms, room, s)), less)
            && Step(h, Answered(s, room, false)) == Hall(Memberships(rooms), less)
  {
    MembershipsWith(rooms, room, s);
    hide Memberships, With;
  }

  lemma LeftHall<S>(rooms: map<string, set<S>>, waiting: multiset<(S, string)>, s: S, room: string)
    ensures Hall(Memberships(Without(rooms, room, s)), waiting) ==
            Step(Hall(Memberships(rooms), waiting), Left(s, room))
  {
    MembershipsWithout(rooms, room, s);
    hide Memberships, Without;
  }

  lemma ClosedHall<S>(rooms: map<string, set<S>>, waiting: multiset<(S, string)>, s: S, keys: set<string>)
    requires forall room :: Holds(rooms, room, s) ==> room in keys
    ensures Hall(Memberships(Swept(rooms, s, keys)), waiting) == Step(Hall(Memberships(rooms), waiting), Closed(s))
  {
    MembershipsSwept(rooms, s, keys);
    hide Memberships, Swept;
  }
}
