/**
 * The counters and locks in front of a password check.
 *
 * Attempts do not overlap and the clock shows whole seconds. A key carries its fields instead of their
 * concatenation, and an address is taken as lower-cased already.
 */
module LoginLockout {
  import opened Wrappers
  import opened Config

  datatype Key = Email(email: string) | Ip(ip: string) | Pair(email: string, ip: string)

  /** A counter and when it vanishes. */
  datatype Counter = Counter(count: nat, until: nat)

  /** When a key's failures were counted since it was last cleared, and what its counter read after each. */
  datatype Track = Track(times: seq<nat>, counts: seq<nat>)

  // ---- one failure on one key -------------------------------------------------------------------------------

  /** INCR, with EXPIRE on the first. */
  function Incremented(counter: Option<Counter>, at: nat): Counter {
    if counter.Some? && at < counter.value.until then Counter(counter.value.count + 1, counter.value.until)
    else Counter(1, at + LOCKOUT_WINDOW_SEC)
  }

  predicate LockLive(lock: Option<nat>, at: nat) {
    lock.Some? && at < lock.value
  }

  /** SET NX with EX, once the counter is at the threshold. */
  function Relocked(count: nat, lock: Option<nat>, at: nat): Option<nat> {
    if count >= MAX_FAILED_LOGINS && !LockLive(lock, at) then Some(at + LOCKOUT_WINDOW_SEC) else lock
  }

  function Extended(track: Track, at: nat, count: nat): Track {
    Track(track.times + [at], track.counts + [count])
  }

  // ---- what the history of a key looks like -----------------------------------------------------------------

  /** The failure that opened the counting window of failure j. */
  function Opening(track: Track, j: nat): int
    requires j < |track.counts|
  {
    j - track.counts[j] + 1
  }

  /** Failure j goes on counting in the window of the one before, or opens a new one once that window is over. */
  predicate StepOk(track: Track, j: nat)
    requires |track.times| == |track.counts| && j < |track.times|
  {
    && 1 <= track.counts[j] <= MAX_FAILED_LOGINS && track.counts[j] <= j + 1
    && (j > 0 ==>
          && 0 <= Opening(track, j - 1)
          && track.times[j - 1] <= track.times[j]
          && (track.counts[j] > 1 ==> track.counts[j] == track.counts[j - 1] + 1)
          && (track.counts[j] == 1 ==> track.times[Opening(track, j - 1)] + LOCKOUT_WINDOW_SEC <= track.times[j])
          && (track.counts[j - 1] == MAX_FAILED_LOGINS ==>
                track.times[j - 1] + LOCKOUT_WINDOW_SEC <= track.times[j]))
  }

  ghost predicate TrackOk(track: Track) {
    && |track.times| == |track.counts|
    && forall j :: 0 <= j < |track.times| ==> StepOk(track, j)
  }

  /** The stored counter and lock are those the history leads to. */
  ghost predicate Tied(counter: Option<Counter>, lock: Option<nat>, track: Track) {
    && TrackOk(track)
    && (track.times == [] ==> counter.None? && lock.None?)
    && (track.times != [] ==>
          var last := |track.times| - 1;
          && StepOk(track, last)
          && counter == Some(Counter(track.counts[last], track.times[Opening(track, last)] + LOCKOUT_WINDOW_SEC))
          && (track.counts[last] == MAX_FAILED_LOGINS ==>
                lock.Some? && track.times[last] + LOCKOUT_WINDOW_SEC <= lock.value))
  }

  lemma {:induction false} OpeningCountsOne(track: Track, j: nat)
    requires TrackOk(track) && j < |track.times|
    ensures 0 <= Opening(track, j) <= j && track.counts[Opening(track, j)] == 1
  {
    assert StepOk(track, j);
    if track.counts[j] > 1 {
      OpeningCountsOne(track, j - 1);
      assert Opening(track, j) == Opening(track, j - 1);
    }
  }

  lemma {:induction false} TimesSorted(track: Track, i: nat, j: nat)
    requires TrackOk(track) && i <= j < |track.times|
    ensures track.times[i] <= track.times[j]
  {
    if i < j {
      assert StepOk(track, j);
      TimesSorted(track, i, j - 1);
    }
  }

  /** A counter at the threshold comes with a lock that outlives it; so a failure let through finds neither. */
  lemma HitKeeps(counter: Option<Counter>, lock: Option<nat>, track: Track, at: nat)
    requires Tied(counter, lock, track) && !LockLive(lock, at)
    requires track.times != [] ==> track.times[|track.times| - 1] <= at
    ensures var next := Incremented(counter, at);
            Tied(Some(next), Relocked(next.count, lock, at), Extended(track, at, next.count))
  {
    var next := Incremented(counter, at);
    var longer := Extended(track, at, next.count);
    var n := |track.times|;
    if n > 0 {
      OpeningCountsOne(track, n - 1);
      assert StepOk(track, n - 1);
      TimesSorted(track, Opening(track, n - 1), n - 1);
    }
    forall j | 0 <= j < |longer.times| ensures StepOk(longer, j) {
      if j < n {
        assert StepOk(track, j);
        if j > 0 { OpeningCountsOne(track, j - 1); }
      }
    }
  }

  /** Tied, and nothing of it later than the clock. */
  ghost predicate Accounted(counter: Option<Counter>, lock: Option<nat>, track: Track, clock: nat) {
    && Tied(counter, lock, track)
    && (track.times != [] ==> track.times[|track.times| - 1] <= clock)
  }

  lemma HitAccounted(counter: Option<Counter>, lock: Option<nat>, track: Track, clock: nat, at: nat)
    requires Accounted(counter, lock, track, clock) && clock <= at && !LockLive(lock, at)
    ensures var next := Incremented(counter, at);
            Accounted(Some(next), Relocked(next.count, lock, at), Extended(track, at, next.count), at)
  {
    HitKeeps(counter, lock, track, at);
  }

  lemma AccountedLater(counter: Option<Counter>, lock: Option<nat>, track: Track, clock: nat, at: nat)
    requires Accounted(counter, lock, track, clock) && clock <= at
    ensures Accounted(counter, lock, track, at)
  {
  }

  // ---- the bound --------------------------------------------------------------------------------------------

  /** From any failure, the one 2M - 2 places later is at least a whole window away. */
  lemma WindowApart(track: Track, i: nat)
    requires TrackOk(track) && i + 2 * MAX_FAILED_LOGINS - 2 < |track.times|
    ensures track.times[i] + LOCKOUT_WINDOW_SEC <= track.times[i + 2 * MAX_FAILED_LOGINS - 2]
  {
    var j := i + 2 * MAX_FAILED_LOGINS - 2;
    assert StepOk(track, j);
    OpeningCountsOne(track, j);
    var head := Opening(track, j);
    assert StepOk(track, head);
    var k := head - 1;
    OpeningCountsOne(track, k);
    assert StepOk(track, k);
    TimesSorted(track, head, j);
    if i <= Opening(track, k) {
      TimesSorted(track, i, Opening(track, k));
    } else {
      assert track.counts[k] == MAX_FAILED_LOGINS;
      TimesSorted(track, i, k);
    }
  }

  /** The failures counted in the half-open window that starts at a given second. */
  function InWindow(track: Track, start: nat): set<nat> {
    set j | 0 <= j < |track.times| && start <= track.times[j] < start + LOCKOUT_WINDOW_SEC
  }

  function Range(first: nat, n: nat): set<nat> {
    if n == 0 then {} else Range(first, n - 1) + {first + n - 1}
  }

  lemma {:induction false} RangeCount(first: nat, n: nat)
    ensures |Range(first, n)| == n && forall j: nat :: j in Range(first, n) <==> first <= j < first + n
  {
    if n > 0 {
      RangeCount(first, n - 1);
    }
  }

  lemma SubsetCount(a: set<nat>, b: set<nat>)
    requires a <= b
    ensures |a| <= |b|
  {
    assert b == a + (b - a);
  }

  lemma {:induction false} LeastOf(s: set<nat>) returns (least: nat)
    requires s != {}
    ensures least in s && forall x :: x in s ==> least <= x
    decreases |s|
  {
    var x :| x in s;
    if s == {x} {
      least := x;
    } else {
      var rest := s - {x};
      assert s == rest + {x};
      var other := LeastOf(rest);
      least := if x < other then x else other;
    }
  }

  /** No window of the lockout's length holds more than 2M - 2 counted failures. */
  lemma AtMostEightFailures(track: Track, start: nat)
    requires TrackOk(track)
    ensures |InWindow(track, start)| <= 2 * MAX_FAILED_LOGINS - 2
  {
    var window := InWindow(track, start);
    if window != {} {
      var i := LeastOf(window);
      var n := 2 * MAX_FAILED_LOGINS - 2;
      forall j | j in window ensures j < i + n {
        if j >= i + n {
          WindowApart(track, i);
          TimesSorted(track, i + n, j);
        }
      }
      RangeCount(i, n);
      SubsetCount(window, Range(i, n));
    }
  }

  // ---- the service --------------------------------------------------------------------------------------------

  datatype Account = Missing | Known(passwordMatches: bool, status: string)

  datatype Login = Locked | CaptchaRequired | InvalidCredentials | NotActive(status: string) | Success

  /** Keys whose counter leads to a lock; the per-address one is only watched. */
  predicate Locks(key: Key) {
    !key.Email?
  }

  function Lookup<V>(m: map<Key, V>, key: Key): Option<V> {
    if key in m then Some(m[key]) else None
  }

  class Guard {
    var counters: map<Key, Counter>
    var locks: map<Key, nat>
    /** Per locking key, its counted failures since it was last cleared; and the latest second seen. */
    ghost var tracks: map<Key, Track>
    ghost var clock: nat

    ghost function TrackOf(key: Key): Track
      reads this
    {
      if key in tracks then tracks[key] else Track([], [])
    }

    ghost predicate KeyOk(key: Key)
      reads this
    {
      Accounted(Lookup(counters, key), Lookup(locks, key), TrackOf(key), clock)
    }

    ghost predicate Valid()
      reads this
    {
      forall key :: Locks(key) ==> KeyOk(key)
    }

    constructor ()
      ensures Valid() && counters == map[] && locks == map[] && tracks == map[] && clock == 0
    {
      counters, locks, tracks, clock := map[], map[], map[], 0;
    }

    method IncrWithTtl(key: Key, at: nat) returns (count: nat)
      modifies this`counters
      ensures counters == old(counters)[key := Incremented(Lookup(old(counters), key), at)]
      ensures count == counters[key].count
    {
      count := 1;
      var until := at + LOCKOUT_WINDOW_SEC;
      if key in counters && at < counters[key].until {
        count := counters[key].count + 1;
        until := counters[key].until;
      }
      counters := counters[key := Counter(count, until)];
    }

    method LockNx(key: Key, at: nat)
      modifies this`locks
      ensures locks == if LockLive(Lookup(old(locks), key), at) then old(locks)
                       else old(locks)[key := at + LOCKOUT_WINDOW_SEC]
    {
      if !(key in locks && at < locks[key]) {
        locks := locks[key := at + LOCKOUT_WINDOW_SEC];
      }
    }

    /** TTL of a lock: seconds left, or -2 when there is none. */
    method Ttl(key: Key, at: nat) returns (ttl: int)
      ensures ttl > 0 <==> LockLive(Lookup(locks, key), at)
      ensures ttl > 0 ==> locks[key] == at + ttl
    {
      return if key in locks && at < locks[key] then locks[key] - at else -2;
    }

    method CountFailure(email: string, ip: string, at: nat) returns (ipCount: nat, pairCount: nat)
      modifies this`counters
      ensures forall key :: Lookup(counters, key) ==
                if key in {Email(email), Ip(ip), Pair(email, ip)} then Some(Incremented(Lookup(old(counters), key), at))
                else Lookup(old(counters), key)
      ensures ipCount == Incremented(Lookup(old(counters), Ip(ip)), at).count
      ensures pairCount == Incremented(Lookup(old(counters), Pair(email, ip)), at).count
    {
      var emailCount := IncrWithTtl(Email(email), at);
      ipCount := IncrWithTtl(Ip(ip), at);
      pairCount := IncrWithTtl(Pair(email, ip), at);
    }

    method LockIfReached(key: Key, count: nat, at: nat)
      modifies this`locks
      ensures Lookup(locks, key) == Relocked(count, Lookup(old(locks), key), at)
      ensures forall other :: other != key ==> Lookup(locks, other) == Lookup(old(locks), other)
    {
      if count >= MAX_FAILED_LOGINS {
        LockNx(key, at);
      }
    }

    /** All three counters go up; the two locks are set where the threshold is reached. */
    method RecordFailedAttempt(email: string, ip: string, at: nat)
      requires Valid() && clock <= at
      requires !LockLive(Lookup(locks, Ip(ip)), at) && !LockLive(Lookup(locks, Pair(email, ip)), at)
      modifies this
      ensures Valid() && clock == at
      ensures forall key :: Lookup(counters, key) ==
                if key in {Email(email), Ip(ip), Pair(email, ip)} then Some(Incremented(Lookup(old(counters), key), at))
                else Lookup(old(counters), key)
      ensures forall key :: Lookup(locks, key) ==
                if key in {Ip(ip), Pair(email, ip)}
                then Relocked(Incremented(Lookup(old(counters), key), at).count, Lookup(old(locks), key), at)
                else Lookup(old(locks), key)
      ensures forall key :: TrackOf(key) ==
                if key in {Ip(ip), Pair(email, ip)}
                then Extended(old(TrackOf(key)), at, Incremented(Lookup(old(counters), key), at).count)
                else old(TrackOf(key))
    {
      hide Accounted, Incremented, Relocked, LockLive, Lookup, Extended;
      assert KeyOk(Ip(ip)) && KeyOk(Pair(email, ip));
      HitAccounted(Lookup(counters, Ip(ip)), Lookup(locks, Ip(ip)), TrackOf(Ip(ip)), clock, at);
      HitAccounted(Lookup(counters, Pair(email, ip)), Lookup(locks, Pair(email, ip)), TrackOf(Pair(email, ip)), clock, at);
      var ipCount, pairCount := CountFailure(email, ip, at);
      LockIfReached(Ip(ip), ipCount, at);
      LockIfReached(Pair(email, ip), pairCount, at);
      tracks := tracks[Ip(ip) := Extended(TrackOf(Ip(ip)), at, ipCount)]
                      [Pair(email, ip) := Extended(TrackOf(Pair(email, ip)), at, pairCount)];
      clock := at;
      forall key | Locks(key) ensures KeyOk(key) {
        if key != Ip(ip) && key != Pair(email, ip) {
          assert old(KeyOk(key));
          AccountedLater(Lookup(counters, key), Lookup(locks, key), TrackOf(key), old(clock), at);
        }
      }
    }

    /** Counters and locks of the address and the pair go; the per-address count of failures for the email stays. */
    method ClearFailedAttempts(email: string, ip: string)
      requires Valid()
      modifies this`counters, this`locks, this`tracks
      ensures Valid()
      ensures counters == old(counters) - {Ip(ip), Pair(email, ip)} && locks == old(locks) - {Ip(ip), Pair(email, ip)}
      ensures tracks == old(tracks) - {Ip(ip), Pair(email, ip)}
    {
      counters := counters - {Ip(ip), Pair(email, ip)};
      locks := locks - {Ip(ip), Pair(email, ip)};
      tracks := tracks - {Ip(ip), Pair(email, ip)};
      forall key | Locks(key) ensures KeyOk(key) {
        assert old(KeyOk(key));
      }
    }

    method IsLocked(email: string, ip: string, at: nat) returns (locked: bool)
      ensures locked <==> LockLive(Lookup(locks, Ip(ip)), at) || LockLive(Lookup(locks, Pair(email, ip)), at)
    {
      var ipLockTtl := Ttl(Ip(ip), at);
      var pairLockTtl := Ttl(Pair(email, ip), at);
      return ipLockTtl > 0 || pairLockTtl > 0;
    }

    /**
     * Only a wrong password or an unknown address is counted, and only when neither lock was live at the check;
     * only a login that succeeds clears anything.
     */
    method LoginWithPassword(
      email: string, ip: string, challenged: bool, account: Account, checkAt: nat, recordAt: nat)
      returns (login: Login)
      requires Valid() && clock <= checkAt <= recordAt
      modifies this
      ensures Valid()
      ensures login.Locked? <==>
                LockLive(Lookup(old(locks), Ip(ip)), checkAt) || LockLive(Lookup(old(locks), Pair(email, ip)), checkAt)
      ensures login.CaptchaRequired? <==> !login.Locked? && challenged
      ensures login.InvalidCredentials? <==>
                !login.Locked? && !challenged && (account.Missing? || !account.passwordMatches)
      ensures login.Success? <==>
                !login.Locked? && !challenged && account == Known(true, "active")
      ensures !login.InvalidCredentials? && !login.Success? ==>
                counters == old(counters) && locks == old(locks) && tracks == old(tracks)
      ensures login.Success? ==>
                && counters == old(counters) - {Ip(ip), Pair(email, ip)}
                && locks == old(locks) - {Ip(ip), Pair(email, ip)}
                && tracks == old(tracks) - {Ip(ip), Pair(email, ip)}
      ensures login.InvalidCredentials? ==> clock == recordAt && forall key ::
                && Lookup(counters, key) == (if key in {Email(email), Ip(ip), Pair(email, ip)}
                                             then Some(Incremented(Lookup(old(counters), key), recordAt))
                                             else Lookup(old(counters), key))
                && Lookup(locks, key) ==
                   (if key in {Ip(ip), Pair(email, ip)}
                    then Relocked(Incremented(Lookup(old(counters), key), recordAt).count, Lookup(old(locks), key), recordAt)
                    else Lookup(old(locks), key))
                && TrackOf(key).times == (if key in {Ip(ip), Pair(email, ip)} then old(TrackOf(key)).times + [recordAt]
                                          else old(TrackOf(key)).times)
    {
      hide Accounted;
      var locked := IsLocked(email, ip, checkAt);
      if locked {
        return Locked;
      }
      if challenged {
        return CaptchaRequired;
      }
      if account.Missing? || !account.passwordMatches {
        RecordFailedAttempt(email, ip, recordAt);
        return InvalidCredentials;
      }
      if account.status != "active" {
        return NotActive(account.status);
      }
      ClearFailedAttempts(email, ip);
      return Success;
    }

    /** The guarantee, for an address or a pair: between two successes no lockout window holds more than 2M - 2 failures. */
    lemma FewFailuresPerWindow(key: Key, start: nat)
      requires Valid() && Locks(key)
      ensures |InWindow(TrackOf(key), start)| <= 2 * MAX_FAILED_LOGINS - 2
    {
      assert KeyOk(key);
      AtMostEightFailures(TrackOf(key), start);
    }
  }

  function Times(n: nat, at: nat): seq<nat> {
    if n == 0 then [] else Times(n - 1, at) + [at]
  }

  /** Fresh keys: nothing counted and nothing locked beyond this. */
  ghost predicate StandsAt(guard: Guard, email: string, ip: string, counter: Option<Counter>, times: seq<nat>)
    reads guard
  {
    && Lookup(guard.counters, Ip(ip)) == counter && Lookup(guard.counters, Pair(email, ip)) == counter
    && Lookup(guard.locks, Ip(ip)) == None && Lookup(guard.locks, Pair(email, ip)) == None
    && guard.TrackOf(Ip(ip)).times == times
  }

  /** One wrong password while the count stays below the threshold. */
  method FailBelowThreshold(guard: Guard, email: string, ip: string, at: nat, counter: Option<Counter>, ghost times: seq<nat>)
    requires guard.Valid() && guard.clock <= at && StandsAt(guard, email, ip, counter, times)
    requires Incremented(counter, at).count < MAX_FAILED_LOGINS
    modifies guard
    ensures guard.Valid() && guard.clock == at
    ensures StandsAt(guard, email, ip, Some(Incremented(counter, at)), times + [at])
  {
    hide Guard.Valid, Incremented;
    var login := guard.LoginWithPassword(email, ip, false, Missing, at, at);
  }

  /** The same, n times in one second of a running window. */
  method FailTimes(
    guard: Guard, email: string, ip: string, at: nat, counter: Counter, n: nat, ghost times: seq<nat>)
    requires guard.Valid() && guard.clock <= at && StandsAt(guard, email, ip, Some(counter), times)
    requires at < counter.until && counter.count + n < MAX_FAILED_LOGINS
    modifies guard
    ensures guard.Valid() && guard.clock <= at
    ensures StandsAt(guard, email, ip, Some(Counter(counter.count + n, counter.until)), times + Times(n, at))
  {
    assert times + [] == times;
    for i := 0 to n
      invariant guard.Valid() && guard.clock <= at
      invariant StandsAt(guard, email, ip, Some(Counter(counter.count + i, counter.until)), times + Times(i, at))
    {
      hide Guard.Valid, StandsAt;
      FailBelowThreshold(
        guard, email, ip, at, Some(Counter(counter.count + i, counter.until)), times + Times(i, at));
      assert times + Times(i, at) + [at] == times + Times(i + 1, at);
    }
  }

  /** The bound is met: one failure, M - 2 at the last second of its window, M at the second after it. */
  method BoundIsMet(email: string, ip: string) returns (guard: Guard)
    ensures guard.Valid()
    ensures |InWindow(guard.TrackOf(Ip(ip)), LOCKOUT_WINDOW_SEC - 1)| == 2 * MAX_FAILED_LOGINS - 2
  {
    var late := LOCKOUT_WINDOW_SEC - 1;
    guard := new Guard();
    hide Guard.Valid, InWindow;
    FailBelowThreshold(guard, email, ip, 0, None, []);
    FailTimes(guard, email, ip, late, Counter(1, LOCKOUT_WINDOW_SEC), MAX_FAILED_LOGINS - 2, [0]);
    ghost var early := [0] + Times(MAX_FAILED_LOGINS - 2, late);
    FailBelowThreshold(
      guard, email, ip, late + 1, Some(Counter(MAX_FAILED_LOGINS - 1, LOCKOUT_WINDOW_SEC)), early);
    ghost var first := early + [late + 1];
    FailTimes(guard, email, ip, late + 1, Counter(1, 2 * LOCKOUT_WINDOW_SEC), MAX_FAILED_LOGINS - 2, first);
    var login := guard.LoginWithPassword(email, ip, false, Missing, late + 1, late + 1);
    TimesJoin(early, MAX_FAILED_LOGINS - 2, late + 1);
    WindowHoldsBoth(guard.TrackOf(Ip(ip)), late);
  }

  lemma TimesJoin(early: seq<nat>, n: nat, at: nat)
    ensures early + [at] + Times(n, at) + [at] == early + Times(n + 2, at)
  {
    TimesAre(n, at);
    TimesAre(n + 2, at);
  }

  lemma {:induction false} TimesAre(n: nat, at: nat)
    ensures |Times(n, at)| == n && forall i :: 0 <= i < n ==> Times(n, at)[i] == at
  {
    if n > 0 { TimesAre(n - 1, at); }
  }

  lemma WindowHoldsBoth(track: Track, late: nat)
    requires late == LOCKOUT_WINDOW_SEC - 1
    requires track.times == [0] + Times(MAX_FAILED_LOGINS - 2, late) + Times(MAX_FAILED_LOGINS, late + 1)
    ensures |InWindow(track, late)| == 2 * MAX_FAILED_LOGINS - 2
  {
    TimesAre(MAX_FAILED_LOGINS - 2, late);
    TimesAre(MAX_FAILED_LOGINS, late + 1);
    RangeCount(1, 2 * MAX_FAILED_LOGINS - 2);
    assert InWindow(track, late) == Range(1, 2 * MAX_FAILED_LOGINS - 2);
  }
}
