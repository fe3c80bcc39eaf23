/**
 * Login attempts that overlap. What one locking key sees of them: an attempt passes the lock check, later it may count
 * a failure, and at the threshold it goes on to set the lock. Checks, counts and locks of different attempts come in
 * any order; a crash is an attempt that takes no further step.
 */
module LoginOverlap {
  import opened Wrappers
  import opened Config
  import opened LoginLockout

  type Id = nat

  datatype Failure = Failure(at: nat, count: nat)

  /** Past the check and not counted yet; counted at the threshold and not locked yet; what was counted since cleared. */
  datatype View = View(
    now: nat, counter: Option<Counter>, lock: Option<nat>, passed: set<Id>, due: set<Id>, failures: seq<Failure>)

  datatype Op =
    | Wait(seconds: nat)
    | Pass(attempt: Id)
    | Fail(attempt: Id)
    | Lock(attempt: Id)
    | Leave(attempt: Id)   // the attempt ends without a failure
    | Succeed(attempt: Id) // and clears what was counted and locked
    | Nothing

  function Failed(v: View, a: Id): View {
    var next := Incremented(v.counter, v.now);
    v.(counter := Some(next), passed := v.passed - {a},
       due := if next.count >= MAX_FAILED_LOGINS then v.due + {a} else v.due,
       failures := v.failures + [Failure(v.now, next.count)])
  }

  function Act(v: View, op: Op): View {
    match op
    case Wait(seconds) => v.(now := v.now + seconds)
    case Pass(a) => if LockLive(v.lock, v.now) || a in v.due then v else v.(passed := v.passed + {a})
    case Fail(a) => if a in v.passed then Failed(v, a) else v
    case Lock(a) =>
      if a !in v.due then v
      else v.(due := v.due - {a}, lock := if LockLive(v.lock, v.now) then v.lock else Some(v.now + LOCKOUT_WINDOW_SEC))
    case Leave(a) => v.(passed := v.passed - {a})
    case Succeed(a) => v.(counter := None, lock := None, failures := [], passed := v.passed - {a})
    case Nothing => v
  }

  predicate In(f: Failure, start: nat) {
    start <= f.at < start + LOCKOUT_WINDOW_SEC
  }

  /** How many failures fall into the window that starts at a given second, and how many of those stay below the threshold. */
  function Within(failures: seq<Failure>, start: nat): nat {
    if failures == [] then 0
    else Within(failures[..|failures| - 1], start) + if In(failures[|failures| - 1], start) then 1 else 0
  }

  function Lows(failures: seq<Failure>, start: nat): nat {
    if failures == [] then 0
    else
      var last := failures[|failures| - 1];
      Lows(failures[..|failures| - 1], start) + if In(last, start) && last.count < MAX_FAILED_LOGINS then 1 else 0
  }

  /** The bound with at most this many attempts past the check at once. */
  function Bound(atOnce: nat): int {
    var M := MAX_FAILED_LOGINS;
    if 2 * M - 3 + atOnce >= M + 2 * atOnce - 2 then 2 * M - 3 + atOnce else M + 2 * atOnce - 2
  }

  // ---- the invariant, for one window ------------------------------------------------------------------------

  function Below(count: nat): nat {
    if count < MAX_FAILED_LOGINS then count else MAX_FAILED_LOGINS - 1
  }

  /** The counter's window opened inside the one watched. */
  predicate OpenedInside(counter: Option<Counter>, start: nat) {
    counter.Some? && start + LOCKOUT_WINDOW_SEC <= counter.value.until
  }

  /** Failures below the threshold that the counter accounts for: those of its own window, and of the one before it. */
  function LowBound(counter: Option<Counter>, start: nat): int {
    if counter.None? then 0
    else if OpenedInside(counter, start) then MAX_FAILED_LOGINS - 2 + Below(counter.value.count)
    else Below(counter.value.count) - 1
  }

  function LowsInside(counter: Option<Counter>, start: nat): nat {
    if OpenedInside(counter, start) then Below(counter.value.count) else 0
  }

  /** A counter window from before has reached the threshold. */
  predicate Reached(counter: Option<Counter>, start: nat) {
    counter.Some? && !OpenedInside(counter, start) ==> counter.value.count >= MAX_FAILED_LOGINS
  }

  predicate Sane(v: View, atOnce: nat) {
    && v.passed !! v.due && |v.passed| + |v.due| <= atOnce
    && (LockLive(v.lock, v.now) ==> |v.passed| + |v.due| < atOnce)
    && (v.counter.Some? ==> v.counter.value.count >= 1 && v.counter.value.until <= v.now + LOCKOUT_WINDOW_SEC)
    && (v.lock.Some? ==> v.lock.value <= v.now + LOCKOUT_WINDOW_SEC)
  }

  /** While a lock from before the window lives, only attempts already past the check can fail. */
  predicate UnderOldLock(v: View, n: nat, low: nat, start: nat, atOnce: nat) {
    n + |v.passed| < atOnce && (n > low ==> Reached(v.counter, start))
  }

  /** With no lock live, whoever has failed at the threshold is still due to lock, but for those under an old lock. */
  predicate Unlocked(v: View, n: nat, low: nat, start: nat, atOnce: nat) {
    || n - low <= |v.due|
    || (n <= atOnce - 1 + LowsInside(v.counter, start) + |v.due| && Reached(v.counter, start))
  }

  predicate Inside(v: View, n: nat, low: nat, start: nat, atOnce: nat) {
    && low <= LowBound(v.counter, start) && low <= n
    && (if !LockLive(v.lock, v.now) then Unlocked(v, n, low, start, atOnce)
        else if v.lock.value < start + LOCKOUT_WINDOW_SEC then UnderOldLock(v, n, low, start, atOnce)
        else n + |v.passed| <= Bound(atOnce))
  }

  predicate Watched(v: View, n: nat, low: nat, start: nat, atOnce: nat) {
    if v.now < start then n == low == 0
    else if v.now < start + LOCKOUT_WINDOW_SEC then Inside(v, n, low, start, atOnce)
    else n <= Bound(atOnce)
  }

  // ---- what each move keeps ---------------------------------------------------------------------------------

  lemma SaneWait(v: View, seconds: nat, atOnce: nat)
    requires Sane(v, atOnce)
    ensures Sane(Act(v, Wait(seconds)), atOnce)
  {
  }

  lemma WatchedWait(v: View, seconds: nat, n: nat, low: nat, start: nat, atOnce: nat)
    requires Sane(v, atOnce) && Watched(v, n, low, start, atOnce) && atOnce > 0
    ensures Watched(Act(v, Wait(seconds)), n, low, start, atOnce)
  {
  }

  lemma WatchedPass(v: View, a: Id, n: nat, low: nat, start: nat, atOnce: nat)
    requires Sane(v, atOnce) && Watched(v, n, low, start, atOnce)
    requires var v' := Act(v, Pass(a)); |v'.passed| + |v'.due| <= atOnce
    ensures Sane(Act(v, Pass(a)), atOnce) && Watched(Act(v, Pass(a)), n, low, start, atOnce)
  {
  }

  lemma OneFewer(s: set<Id>, a: Id)
    ensures |s - {a}| == |s| - (if a in s then 1 else 0)
  {
    if a !in s { assert s - {a} == s; }
  }

  lemma WatchedLeave(v: View, a: Id, n: nat, low: nat, start: nat, atOnce: nat)
    requires Sane(v, atOnce) && Watched(v, n, low, start, atOnce)
    ensures Sane(Act(v, Leave(a)), atOnce) && Watched(Act(v, Leave(a)), n, low, start, atOnce)
  {
    OneFewer(v.passed, a);
  }

  lemma LowBoundIs(counter: Option<Counter>, start: nat)
    ensures LowBound(counter, start) <= 2 * MAX_FAILED_LOGINS - 3 && LowsInside(counter, start) <= MAX_FAILED_LOGINS - 1
  {
  }

  lemma WatchedLock(v: View, a: Id, n: nat, low: nat, start: nat, atOnce: nat)
    requires Sane(v, atOnce) && Watched(v, n, low, start, atOnce)
    ensures Sane(Act(v, Lock(a)), atOnce) && Watched(Act(v, Lock(a)), n, low, start, atOnce)
  {
    OneFewer(v.due, a);
    LowBoundIs(v.counter, start);
    hide LowBound, LowsInside, Reached;
  }

  lemma WatchedFail(v: View, a: Id, n: nat, low: nat, start: nat, atOnce: nat)
    requires Sane(v, atOnce) && Watched(v, n, low, start, atOnce) && a in v.passed
    ensures var v' := Failed(v, a);
            var f := Failure(v.now, v'.counter.value.count);
            && Sane(v', atOnce)
            && Watched(v', n + (if In(f, start) then 1 else 0),
                       low + (if In(f, start) && f.count < MAX_FAILED_LOGINS then 1 else 0), start, atOnce)
  {
    OneFewer(v.passed, a);
    assert |v.due + {a}| == |v.due| + 1;
  }

  lemma WatchedSucceed(v: View, a: Id, n: nat, low: nat, start: nat, atOnce: nat)
    requires Sane(v, atOnce) && Watched(v, n, low, start, atOnce) && atOnce > 0
    ensures Sane(Act(v, Succeed(a)), atOnce) && Watched(Act(v, Succeed(a)), 0, 0, start, atOnce)
  {
    OneFewer(v.passed, a);
  }

  ghost predicate Bounded(v: View, start: nat, atOnce: nat) {
    Sane(v, atOnce) && Watched(v, Within(v.failures, start), Lows(v.failures, start), start, atOnce)
  }

  lemma CountedNext(failures: seq<Failure>, f: Failure, start: nat)
    ensures Within(failures + [f], start) == Within(failures, start) + if In(f, start) then 1 else 0
    ensures Lows(failures + [f], start) ==
            Lows(failures, start) + if In(f, start) && f.count < MAX_FAILED_LOGINS then 1 else 0
  {
    assert (failures + [f])[..|failures|] == failures;
  }

  lemma ActKeeps(v: View, op: Op, start: nat, atOnce: nat)
    requires Bounded(v, start, atOnce) && atOnce > 0
    requires |Act(v, op).passed| + |Act(v, op).due| <= atOnce
    ensures Bounded(Act(v, op), start, atOnce)
  {
    var n, low := Within(v.failures, start), Lows(v.failures, start);
    hide Sane, Watched;
    match op
    case Wait(seconds) =>
      SaneWait(v, seconds, atOnce);
      WatchedWait(v, seconds, n, low, start, atOnce);
    case Pass(a) => WatchedPass(v, a, n, low, start, atOnce);
    case Fail(a) =>
      if a in v.passed {
        CountedNext(v.failures, Failure(v.now, Incremented(v.counter, v.now).count), start);
        WatchedFail(v, a, n, low, start, atOnce);
      }
    case Lock(a) => WatchedLock(v, a, n, low, start, atOnce);
    case Leave(a) => WatchedLeave(v, a, n, low, start, atOnce);
    case Succeed(a) => WatchedSucceed(v, a, n, low, start, atOnce);
    case Nothing =>
  }

  lemma BoundedMeans(v: View, start: nat, atOnce: nat)
    requires Bounded(v, start, atOnce) && atOnce > 0
    ensures Within(v.failures, start) <= Bound(atOnce)
  {
    LowBoundIs(v.counter, start);
    hide Within, Lows, LowBound, LowsInside;
  }

  // ---- the service --------------------------------------------------------------------------------------------

  /** How far a login has come: its checks, its counts, its locks, each a command of its own. */
  datatype Stage =
    | AskedPair
    | Passed
    | IpCounted(ipCount: nat)
    | BothCounted(ipCount: nat, pairCount: nat)
    | IpLocked(pairCount: nat)
    | Over

  datatype Attempt = Attempt(email: string, ip: string, stage: Stage)

  /** How an attempt past the check turns out; the rest are a failed CAPTCHA and an account that is not active. */
  datatype Verdict = Wrong | Right | Neither

  datatype World = World(
    now: nat, counters: map<Key, Counter>, locks: map<Key, nat>, attempts: map<Id, Attempt>,
    failures: map<Key, seq<Failure>>)   // per key, its failures since it was last cleared; no step reads it

  datatype Event = Tick(seconds: nat) | Arrive(attempt: Id, email: string, ip: string) | Go(attempt: Id, verdict: Verdict)

  function Empty(): World {
    World(0, map[], map[], map[], map[])
  }

  function FailuresOf(failures: map<Key, seq<Failure>>, key: Key): seq<Failure> {
    if key in failures then failures[key] else []
  }

  /** INCR with EXPIRE on the first. */
  function Count(w: World, key: Key): World {
    var next := Incremented(Lookup(w.counters, key), w.now);
    w.(counters := w.counters[key := next],
       failures := w.failures[key := FailuresOf(w.failures, key) + [Failure(w.now, next.count)]])
  }

  /** SET NX with EX, if the count calls for it. */
  function LockAt(w: World, key: Key, count: nat): World {
    if count < MAX_FAILED_LOGINS || LockLive(Lookup(w.locks, key), w.now) then w
    else w.(locks := w.locks[key := w.now + LOCKOUT_WINDOW_SEC])
  }

  function Cleared(w: World, email: string, ip: string): World {
    var keys := {Ip(ip), Pair(email, ip)};
    w.(counters := w.counters - keys, locks := w.locks - keys, failures := w.failures - keys)
  }

  function Move(w: World, a: Id, next: Attempt): World {
    w.(attempts := w.attempts[a := next])
  }

  function Advance(w: World, a: Id, verdict: Verdict): World
    requires a in w.attempts
  {
    var t := w.attempts[a];
    var email, ip := t.email, t.ip;
    match t.stage
    case AskedPair =>
      Move(w, a, t.(stage := if LockLive(Lookup(w.locks, Pair(email, ip)), w.now) then Over else Passed))
    case Passed =>
      if verdict.Wrong? then
        Move(Count(w, Ip(ip)), a, t.(stage := IpCounted(Incremented(Lookup(w.counters, Ip(ip)), w.now).count)))
      else if verdict.Right? then Move(Cleared(w, email, ip), a, t.(stage := Over))
      else Move(w, a, t.(stage := Over))
    case IpCounted(n) =>
      Move(Count(w, Pair(email, ip)), a,
           t.(stage := BothCounted(n, Incremented(Lookup(w.counters, Pair(email, ip)), w.now).count)))
    case BothCounted(n, m) => Move(LockAt(w, Ip(ip), n), a, t.(stage := IpLocked(m)))
    case IpLocked(m) => Move(LockAt(w, Pair(email, ip), m), a, t.(stage := Over))
    case Over => w
  }

  function Step(w: World, e: Event): World {
    match e
    case Tick(seconds) => w.(now := w.now + seconds)
    case Arrive(a, email, ip) =>
      if a in w.attempts then w
      else Move(w, a, Attempt(email, ip, if LockLive(Lookup(w.locks, Ip(ip)), w.now) then Over else AskedPair))
    case Go(a, verdict) => if a in w.attempts then Advance(w, a, verdict) else w
  }

  function Run(w: World, events: seq<Event>): World
    decreases |events|
  {
    if events == [] then w else Step(Run(w, events[..|events| - 1]), events[|events| - 1])
  }

  // ---- what a key sees of it ----------------------------------------------------------------------------------

  predicate Concerns(t: Attempt, key: Key) {
    match key
    case Ip(ip) => t.ip == ip
    case Pair(email, ip) => t.email == email && t.ip == ip
    case Email(_) => false
  }

  predicate IsPassed(t: Attempt, key: Key) {
    Concerns(t, key) && if key.Ip? then t.stage.AskedPair? || t.stage.Passed? else t.stage.Passed? || t.stage.IpCounted?
  }

  predicate IsDue(t: Attempt, key: Key) {
    && Concerns(t, key)
    && if key.Ip? then (t.stage.IpCounted? || t.stage.BothCounted?) && t.stage.ipCount >= MAX_FAILED_LOGINS
       else (t.stage.BothCounted? || t.stage.IpLocked?) && t.stage.pairCount >= MAX_FAILED_LOGINS
  }

  function PassedOn(w: World, key: Key): set<Id> {
    set a | a in w.attempts && IsPassed(w.attempts[a], key)
  }

  function DueOn(w: World, key: Key): set<Id> {
    set a | a in w.attempts && IsDue(w.attempts[a], key)
  }

  function Seen(w: World, key: Key): View {
    View(w.now, Lookup(w.counters, key), Lookup(w.locks, key), PassedOn(w, key), DueOn(w, key), FailuresOf(w.failures, key))
  }

  function OpOf(w: World, e: Event, key: Key): Op {
    match e
    case Tick(seconds) => Wait(seconds)
    case Arrive(a, email, ip) => if a !in w.attempts && key == Ip(ip) then Pass(a) else Nothing
    case Go(a, verdict) =>
      if a !in w.attempts || !Concerns(w.attempts[a], key) then Nothing
      else
        var t := w.attempts[a];
        match t.stage
        case AskedPair =>
          if key.Pair? then Pass(a)
          else if LockLive(Lookup(w.locks, Pair(t.email, t.ip)), w.now) then Leave(a) else Nothing
        case Passed =>
          if verdict.Right? then Succeed(a)
          else if verdict.Neither? then Leave(a)
          else if key.Ip? then Fail(a) else Nothing
        case IpCounted(_) => if key.Pair? then Fail(a) else Nothing
        case BothCounted(n, _) => if key.Ip? && n >= MAX_FAILED_LOGINS then Lock(a) else Nothing
        case IpLocked(m) => if key.Pair? && m >= MAX_FAILED_LOGINS then Lock(a) else Nothing
        case Over => Nothing
  }

  lemma MoveSeen(w: World, w': World, a: Id, key: Key)
    requires a in w'.attempts && w'.attempts == w.attempts[a := w'.attempts[a]]
    ensures PassedOn(w', key) ==
            if IsPassed(w'.attempts[a], key) == (a in PassedOn(w, key)) then PassedOn(w, key)
            else if IsPassed(w'.attempts[a], key) then PassedOn(w, key) + {a} else PassedOn(w, key) - {a}
    ensures DueOn(w', key) ==
            if IsDue(w'.attempts[a], key) == (a in DueOn(w, key)) then DueOn(w, key)
            else if IsDue(w'.attempts[a], key) then DueOn(w, key) + {a} else DueOn(w, key) - {a}
  {
    hide IsPassed, IsDue;
  }

  lemma Absent(w: World, a: Id, key: Key)
    ensures a in PassedOn(w, key) <==> a in w.attempts && IsPassed(w.attempts[a], key)
    ensures a in DueOn(w, key) <==> a in w.attempts && IsDue(w.attempts[a], key)
  {
    hide IsPassed, IsDue;
  }

  lemma CountSeen(w: World, key: Key, other: Key)
    ensures var w' := Count(w, other);
            var next := Incremented(Lookup(w.counters, other), w.now);
            && w'.attempts == w.attempts && w'.locks == w.locks && w'.now == w.now
            && (key != other ==> Lookup(w'.counters, key) == Lookup(w.counters, key)
                                 && FailuresOf(w'.failures, key) == FailuresOf(w.failures, key))
            && Lookup(w'.counters, other) == Some(next)
            && FailuresOf(w'.failures, other) == FailuresOf(w.failures, other) + [Failure(w.now, next.count)]
  {
    hide Incremented;
  }

  lemma LockSeen(w: World, key: Key, other: Key, count: nat)
    ensures var w' := LockAt(w, other, count);
            && w' == w.(locks := w'.locks)
            && (key != other ==> Lookup(w'.locks, key) == Lookup(w.locks, key))
            && Lookup(w'.locks, other) ==
               if count < MAX_FAILED_LOGINS || LockLive(Lookup(w.locks, other), w.now) then Lookup(w.locks, other)
               else Some(w.now + LOCKOUT_WINDOW_SEC)
  {
    hide LockLive;
  }

  lemma ClearSeen(w: World, key: Key, email: string, ip: string)
    ensures var w' := Cleared(w, email, ip);
            && w'.attempts == w.attempts && w'.now == w.now
            && if key == Ip(ip) || key == Pair(email, ip) then
                 Lookup(w'.counters, key) == None && Lookup(w'.locks, key) == None && FailuresOf(w'.failures, key) == []
               else
                 && Lookup(w'.counters, key) == Lookup(w.counters, key) && Lookup(w'.locks, key) == Lookup(w.locks, key)
                 && FailuresOf(w'.failures, key) == FailuresOf(w.failures, key)
  {
  }

  lemma CheckGoes(w: World, a: Id, verdict: Verdict, key: Key)
    requires a in w.attempts && Locks(key) && (w.attempts[a].stage.AskedPair? || w.attempts[a].stage.Over?)
    ensures Seen(Advance(w, a, verdict), key) == Act(Seen(w, key), OpOf(w, Go(a, verdict), key))
  {
    hide PassedOn, DueOn, FailuresOf, Lookup, LockLive;
    Absent(w, a, key);
    MoveSeen(w, Advance(w, a, verdict), a, key);
  }

  lemma VerdictGoes(w: World, a: Id, verdict: Verdict, key: Key)
    requires a in w.attempts && Locks(key) && w.attempts[a].stage.Passed?
    ensures Seen(Advance(w, a, verdict), key) == Act(Seen(w, key), OpOf(w, Go(a, verdict), key))
  {
    hide Count, Cleared, PassedOn, DueOn, FailuresOf, Lookup, Incremented;
    Absent(w, a, key);
    CountSeen(w, key, Ip(w.attempts[a].ip));
    ClearSeen(w, key, w.attempts[a].email, w.attempts[a].ip);
    MoveSeen(w, Advance(w, a, verdict), a, key);
  }

  lemma CountGoes(w: World, a: Id, verdict: Verdict, key: Key)
    requires a in w.attempts && Locks(key) && w.attempts[a].stage.IpCounted?
    ensures Seen(Advance(w, a, verdict), key) == Act(Seen(w, key), OpOf(w, Go(a, verdict), key))
  {
    hide Count, PassedOn, DueOn, FailuresOf, Lookup, Incremented;
    Absent(w, a, key);
    CountSeen(w, key, Pair(w.attempts[a].email, w.attempts[a].ip));
    MoveSeen(w, Advance(w, a, verdict), a, key);
  }

  lemma LockGoes(w: World, a: Id, verdict: Verdict, key: Key)
    requires a in w.attempts && Locks(key) && (w.attempts[a].stage.BothCounted? || w.attempts[a].stage.IpLocked?)
    ensures Seen(Advance(w, a, verdict), key) == Act(Seen(w, key), OpOf(w, Go(a, verdict), key))
  {
    var t := w.attempts[a];
    hide LockAt, PassedOn, DueOn, FailuresOf, Lookup, LockLive;
    Absent(w, a, key);
    if t.stage.BothCounted? {
      LockSeen(w, key, Ip(t.ip), t.stage.ipCount);
    } else {
      LockSeen(w, key, Pair(t.email, t.ip), t.stage.pairCount);
    }
    MoveSeen(w, Advance(w, a, verdict), a, key);
  }

  /** A step of the service is, for each locking key, one move of what that key sees. */
  lemma StepSeen(w: World, e: Event, key: Key)
    requires Locks(key)
    ensures Seen(Step(w, e), key) == Act(Seen(w, key), OpOf(w, e, key))
  {
    if e.Go? && e.attempt in w.attempts {
      hide Advance, Act, OpOf, Seen;
      match w.attempts[e.attempt].stage
      case Passed => VerdictGoes(w, e.attempt, e.verdict, key);
      case IpCounted(_) => CountGoes(w, e.attempt, e.verdict, key);
      case BothCounted(_, _) => LockGoes(w, e.attempt, e.verdict, key);
      case IpLocked(_) => LockGoes(w, e.attempt, e.verdict, key);
      case _ => CheckGoes(w, e.attempt, e.verdict, key);
    } else if e.Arrive? && e.attempt !in w.attempts {
      hide Lookup, LockLive, PassedOn, DueOn;
      Absent(w, e.attempt, key);
      MoveSeen(w, Step(w, e), e.attempt, key);
    }
  }

  /** At every point of the run at most this many attempts are past the key's check and not done with its lock. */
  ghost predicate AtMost(events: seq<Event>, key: Key, atOnce: nat) {
    forall i :: 0 <= i <= |events| ==>
      var w := Run(Empty(), events[..i]);
      |PassedOn(w, key)| + |DueOn(w, key)| <= atOnce
  }

  lemma EmptyBounded(key: Key, start: nat, atOnce: nat)
    requires atOnce > 0
    ensures Bounded(Seen(Empty(), key), start, atOnce)
  {
    assert PassedOn(Empty(), key) == {} && DueOn(Empty(), key) == {};
  }

  lemma {:induction false} RunBounded(events: seq<Event>, key: Key, start: nat, atOnce: nat)
    requires Locks(key) && atOnce > 0 && AtMost(events, key, atOnce)
    ensures Bounded(Seen(Run(Empty(), events), key), start, atOnce)
  {
    if events == [] {
      EmptyBounded(key, start, atOnce);
    } else {
      var n := |events| - 1;
      var before := Run(Empty(), events[..n]);
      assert forall i :: 0 <= i <= n ==> events[..n][..i] == events[..i];
      RunBounded(events[..n], key, start, atOnce);
      assert events[..n + 1] == events;
      StepSeen(before, events[n], key);
      var v' := Seen(Run(Empty(), events), key);
      assert |v'.passed| + |v'.due| <= atOnce;
      hide Bounded, Step, PassedOn, DueOn;
      ActKeeps(Seen(before, key), OpOf(before, events[n], key), start, atOnce);
    }
  }

  /**
   * With at most K attempts of an address, or of a pair, past the check at once, in any interleaving of their commands:
   * no window of the lockout's length holds more failures counted since the last success than the greater of
   * 2M - 3 + K and M + 2K - 2. For K = 1 that is the 2M - 2 of attempts that do not overlap.
   */
  lemma FewFailuresThoughOverlapping(events: seq<Event>, key: Key, start: nat, atOnce: nat)
    requires Locks(key) && atOnce > 0 && AtMost(events, key, atOnce)
    ensures Within(FailuresOf(Run(Empty(), events).failures, key), start) <= Bound(atOnce)
    ensures Bound(1) == 2 * MAX_FAILED_LOGINS - 2
  {
    RunBounded(events, key, start, atOnce);
    BoundedMeans(Seen(Run(Empty(), events), key), start, atOnce);
  }

  // ---- the bound is met ---------------------------------------------------------------------------------------

  function Acts(v: View, ops: seq<Op>): View
    decreases |ops|
  {
    if ops == [] then v else Act(Acts(v, ops[..|ops| - 1]), ops[|ops| - 1])
  }

  /** Some moves lead from one view to the other, with at most this many attempts past the check at any point. */
  ghost predicate Leads(v: View, v': View, atOnce: nat) {
    exists ops: seq<Op> :: Acts(v, ops) == v' && Crowded(v, ops, atOnce)
  }

  ghost predicate Crowded(v: View, ops: seq<Op>, atOnce: nat) {
    forall i :: 0 <= i <= |ops| ==> |Acts(v, ops[..i]).passed| + |Acts(v, ops[..i]).due| <= atOnce
  }

  lemma LeadsOn(v: View, v': View, op: Op, atOnce: nat)
    requires Leads(v, v', atOnce) && |Act(v', op).passed| + |Act(v', op).due| <= atOnce
    ensures Leads(v, Act(v', op), atOnce)
  {
    var ops: seq<Op> :| Acts(v, ops) == v' && Crowded(v, ops, atOnce);
    var more := ops + [op];
    hide Act;
    assert more[..|ops|] == ops && Acts(v, more) == Act(v', op);
    forall i | 0 <= i <= |more| ensures |Acts(v, more[..i]).passed| + |Acts(v, more[..i]).due| <= atOnce {
      if i <= |ops| {
        assert more[..i] == ops[..i];
      } else {
        assert more[..i] == more;
      }
    }
  }

  /** Nobody past the check and nothing locked. */
  function Calm(now: nat, counter: Counter, failures: seq<Failure>): View {
    View(now, Some(counter), None, {}, {}, failures)
  }

  /** A pass and a failure below the threshold, in a window that runs or that a new one follows. */
  lemma OneInTurn(v: View, now: nat, counter: Counter, failures: seq<Failure>, atOnce: nat)
    requires Leads(v, Calm(now, counter, failures), atOnce) && atOnce > 0
    requires Incremented(Some(counter), now).count < MAX_FAILED_LOGINS
    ensures var next := Incremented(Some(counter), now);
            Leads(v, Calm(now, next, failures + [Failure(now, next.count)]), atOnce)
  {
    var calm := Calm(now, counter, failures);
    var next := Incremented(Some(counter), now);
    var passed := calm.(passed := {0});
    assert Act(calm, Pass(0)) == passed;
    assert Act(passed, Fail(0)) == Calm(now, next, failures + [Failure(now, next.count)]);
    hide Leads, Act;
    LeadsOn(v, calm, Pass(0), atOnce);
    LeadsOn(v, passed, Fail(0), atOnce);
  }

  lemma WaitCalm(v: View, now: nat, counter: Counter, failures: seq<Failure>, seconds: nat, atOnce: nat)
    requires Leads(v, Calm(now, counter, failures), atOnce)
    ensures Leads(v, Calm(now + seconds, counter, failures), atOnce)
  {
    assert Act(Calm(now, counter, failures), Wait(seconds)) == Calm(now + seconds, counter, failures);
    hide Leads, Act;
    LeadsOn(v, Calm(now, counter, failures), Wait(seconds), atOnce);
  }

  /** n failures one after the other, in one second of a running window and below the threshold. */
  lemma {:induction false} FailInTurn(
    v: View, now: nat, count: nat, until: nat, failures: seq<Failure>, n: nat, start: nat, atOnce: nat)
    returns (more: seq<Failure>)
    requires Leads(v, Calm(now, Counter(count, until), failures), atOnce) && atOnce > 0
    requires now < until && count + n < MAX_FAILED_LOGINS && start <= now < start + LOCKOUT_WINDOW_SEC
    ensures Leads(v, Calm(now, Counter(count + n, until), more), atOnce)
    ensures Within(more, start) == Within(failures, start) + n
  {
    hide Leads, Within, Calm;
    if n == 0 {
      more := failures;
    } else {
      var before := FailInTurn(v, now, count, until, failures, n - 1, start, atOnce);
      var f := Failure(now, count + n);
      more := before + [f];
      OneInTurn(v, now, Counter(count + n - 1, until), before, atOnce);
      CountedNext(before, f, start);
    }
  }

  /** k attempts pass the check before any of them is counted. */
  lemma {:induction false} PassTogether(v: View, now: nat, counter: Counter, failures: seq<Failure>, k: nat, atOnce: nat)
    requires Leads(v, Calm(now, counter, failures), atOnce) && k <= atOnce
    ensures Leads(v, View(now, Some(counter), None, Range(0, k), {}, failures), atOnce)
  {
    hide Leads, Act;
    if k > 0 {
      PassTogether(v, now, counter, failures, k - 1, atOnce);
      NextPasses(now, counter, failures, k - 1);
      LeadsOn(v, View(now, Some(counter), None, Range(0, k - 1), {}, failures), Pass(k - 1), atOnce);
    }
  }

  lemma NextPasses(now: nat, counter: Counter, failures: seq<Failure>, k: nat)
    ensures Act(View(now, Some(counter), None, Range(0, k), {}, failures), Pass(k)) ==
            View(now, Some(counter), None, Range(0, k + 1), {}, failures)
    ensures |Range(0, k + 1)| == k + 1
  {
    RangeCount(0, k + 1);
  }

  /** j of the k have failed, at the threshold, and none of them has locked yet. */
  function Together(now: nat, until: nat, k: nat, j: nat, failures: seq<Failure>): View
    requires j <= k
  {
    View(now, Some(Counter(MAX_FAILED_LOGINS - 1 + j, until)), None, Range(j, k - j), Range(0, j), failures)
  }

  lemma NextFails(now: nat, until: nat, k: nat, j: nat, failures: seq<Failure>)
    requires j < k && now < until
    ensures var w' := Act(Together(now, until, k, j, failures), Fail(j));
            && w' == Together(now, until, k, j + 1, failures + [Failure(now, MAX_FAILED_LOGINS + j)])
            && |w'.passed| + |w'.due| == k
  {
    NextInRange(k, j);
    hide Range;
  }

  lemma NextInRange(k: nat, j: nat)
    requires j < k
    ensures j in Range(j, k - j) && Range(j, k - j) - {j} == Range(j + 1, k - j - 1)
    ensures Range(0, j) + {j} == Range(0, j + 1) && |Range(j + 1, k - j - 1)| + |Range(0, j + 1)| == k
  {
    NextIsOut(k, j);
    hide Range;
    RangeCount(j + 1, k - j - 1);
    RangeCount(0, j + 1);
  }

  lemma NextIsOut(k: nat, j: nat)
    requires j < k
    ensures j in Range(j, k - j) && Range(j, k - j) - {j} == Range(j + 1, k - j - 1)
    ensures Range(0, j) + {j} == Range(0, j + 1)
  {
    RangeCount(j, k - j);
    RangeCount(j + 1, k - j - 1);
    assert Range(0, j + 1) == Range(0, j) + {j};
    hide Range;
  }

  lemma {:induction false} FailTogether(
    v: View, now: nat, until: nat, failures: seq<Failure>, k: nat, j: nat, start: nat, atOnce: nat)
    returns (more: seq<Failure>)
    requires now < until && start <= now < start + LOCKOUT_WINDOW_SEC && j <= k <= atOnce
    requires Leads(v, Together(now, until, k, 0, failures), atOnce)
    ensures Leads(v, Together(now, until, k, j, more), atOnce)
    ensures Within(more, start) == Within(failures, start) + j
  {
    hide Leads, Within, Act, Together;
    if j == 0 {
      more := failures;
    } else {
      var before := FailTogether(v, now, until, failures, k, j - 1, start, atOnce);
      var f := Failure(now, MAX_FAILED_LOGINS + j - 1);
      more := before + [f];
      CountedNext(before, f, start);
      NextFails(now, until, k, j - 1, before);
      LeadsOn(v, Together(now, until, k, j - 1, before), Fail(j - 1), atOnce);
    }
  }

  function Unseen(): View {
    View(0, None, None, {}, {}, [])
  }

  lemma FirstFailure(atOnce: nat)
    requires atOnce > 0
    ensures Leads(Unseen(), Calm(0, Counter(1, LOCKOUT_WINDOW_SEC), [Failure(0, 1)]), atOnce)
    ensures Within([Failure(0, 1)], LOCKOUT_WINDOW_SEC - 1) == 0
  {
    var v := Unseen();
    assert Acts(v, []) == v && Crowded(v, [], atOnce);
    var passed := v.(passed := {0});
    assert Act(v, Pass(0)) == passed;
    assert Act(passed, Fail(0)) == Calm(0, Counter(1, LOCKOUT_WINDOW_SEC), [Failure(0, 1)]);
    assert [Failure(0, 1)][..0] == [];
    hide Act, Acts, Crowded;
    LeadsOn(v, v, Pass(0), atOnce);
    LeadsOn(v, passed, Fail(0), atOnce);
  }

  /** One failure, M - 2 at the last second of its window, one in the second after it, and M - 2 more. */
  lemma NearTheThreshold(atOnce: nat) returns (failures: seq<Failure>)
    requires atOnce > 0
    ensures Leads(Unseen(),
                  Calm(LOCKOUT_WINDOW_SEC, Counter(MAX_FAILED_LOGINS - 1, 2 * LOCKOUT_WINDOW_SEC), failures), atOnce)
    ensures Within(failures, LOCKOUT_WINDOW_SEC - 1) == 2 * MAX_FAILED_LOGINS - 3
  {
    var v := Unseen();
    var now := LOCKOUT_WINDOW_SEC;
    hide Leads, Within, Calm, Unseen;
    FirstFailure(atOnce);
    WaitCalm(v, 0, Counter(1, now), [Failure(0, 1)], now - 1, atOnce);
    var early := FailInTurn(v, now - 1, 1, now, [Failure(0, 1)], MAX_FAILED_LOGINS - 2, now - 1, atOnce);
    WaitCalm(v, now - 1, Counter(MAX_FAILED_LOGINS - 1, now), early, 1, atOnce);
    OneInTurn(v, now, Counter(MAX_FAILED_LOGINS - 1, now), early, atOnce);
    CountedNext(early, Failure(now, 1), now - 1);
    failures := FailInTurn(
      v, now, 1, 2 * now, early + [Failure(now, 1)], MAX_FAILED_LOGINS - 2, now - 1, atOnce);
  }

  /** Up to M - 1 attempts at once the bound is met: K pass the check together, one failure short of the threshold. */
  lemma OverlappingBoundIsMet(atOnce: nat)
    requires 0 < atOnce < MAX_FAILED_LOGINS
    ensures exists v :: Leads(Unseen(), v, atOnce) && Within(v.failures, LOCKOUT_WINDOW_SEC - 1) == Bound(atOnce)
  {
    var now := LOCKOUT_WINDOW_SEC;
    var failures := NearTheThreshold(atOnce);
    hide Leads, Within;
    PassTogether(Unseen(), now, Counter(MAX_FAILED_LOGINS - 1, 2 * now), failures, atOnce, atOnce);
    var more := FailTogether(Unseen(), now, 2 * now, failures, atOnce, atOnce, now - 1, atOnce);
    assert Within(Together(now, 2 * now, atOnce, atOnce, more).failures, now - 1) == Bound(atOnce);
  }
}
