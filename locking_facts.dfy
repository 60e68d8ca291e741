/** What Locking promises: its two flags never collide, a lock is held exactly until its stamp
    plus the instance expiry (or its key's expiry), acquire gives up only when the lock is still
    held once the deadline has passed, and the state flag never disturbs the lock. */
module LockFacts {
  import opened Wrappers
  import opened Locks

  /** No key's lock flag is any key's state flag, and distinct keys have distinct flags. */
  lemma FlagsDistinct(k1: string, k2: string)
    ensures LockedFlag(k1) != StateFlag(k2)
    ensures k1 != k2 ==> LockedFlag(k1) != LockedFlag(k2) && StateFlag(k1) != StateFlag(k2)
  {
    var l1, s2 := LockedFlag(k1), StateFlag(k2);
    assert l1[|l1| - 1] == 'd' && s2[|s2| - 1] == 'e';
    if k1 != k2 {
      var l2, s1 := LockedFlag(k2), StateFlag(k1);
      assert l1[5..|l1| - 7] == k1 && l2[5..|l2| - 7] == k2;
      assert s1[5..|s1| - 6] == k1 && s2[5..|s2| - 6] == k2;
    }
  }

  /** is_locked when nothing but stamps is under the lock flag: held exactly before the moment
      the stamp plus expire, or the key's own expiry, is reached. */
  lemma IsLockedMeaning(data: map<string, Entry>, clock: int, flag: string, expire: int)
    ensures IsLockedIn(data, clock, flag, expire).Err? <==>
      flag in data && clock < data[flag].expiresAt && data[flag].value.Text?
    ensures IsLockedIn(data, clock, flag, expire).Ok? ==>
      (IsLockedIn(data, clock, flag, expire).value <==>
         UntilIn(data, flag, expire).Some? && clock < UntilIn(data, flag, expire).value)
  {
  }

  /** Without a write, a lock that is free stays free and the answer never turns into an error. */
  lemma FreeStaysFree(data: map<string, Entry>, c: int, c': int, flag: string, expire: int)
    requires c <= c' && IsLockedIn(data, c, flag, expire) == Ok(false)
    ensures IsLockedIn(data, c', flag, expire) == Ok(false)
  {
  }

  /** The lock counts only its stamp plus the instance's expire: a flag stored by
      acquire(expire=600) on an instance with expire 300 still exists after 300 seconds while
      is_locked says it is free. */
  lemma InstanceExpireDecides()
    ensures var data := map[LockedFlag("k") := Entry(Stamp(0), 600 * Second)];
      && LookupIn(data, 300 * Second, LockedFlag("k")).Some?
      && IsLockedIn(data, 300 * Second, LockedFlag("k"), 300) == Ok(false)
  {
  }

  /** Polling stops only when the lock is free or the deadline has passed; it never waits at all
      for a free lock or a passed deadline; it stops at the first poll at or after the deadline
      at the latest; and it advances in whole polls. */
  lemma {:induction false} PollEndFacts(clock: int, wait: int, until: Option<int>)
    ensures var e := PollEnd(clock, wait, until);
      && clock <= e
      && (e - clock) % Poll == 0
      && (until.None? || until.value <= e || wait <= e)
      && (until.None? || until.value <= clock || wait <= clock ==> e == clock)
      && (e == clock || e < wait + Poll)
      && (e == clock || e < until.value + Poll)
    decreases wait - clock
  {
    if until.Some? && clock < until.value && clock < wait {
      PollEndFacts(clock + Poll, wait, until);
    }
  }

  /** acquire raises ErrorIsLocked exactly when the lock is still held at the first poll at or
      after the deadline. */
  lemma AcquireGivesUp(data: map<string, Entry>, clock: int, flag: string, expire: int, wait: int)
    requires IsLockedIn(data, clock, flag, expire).Ok?
    ensures var e := PollEnd(clock, wait, UntilIn(data, flag, expire));
      IsLockedIn(data, e, flag, expire) == Ok(true) <==>
        && wait <= e && (e == clock || e < wait + Poll)
        && UntilIn(data, flag, expire).Some? && e < UntilIn(data, flag, expire).value
  {
    var u := UntilIn(data, flag, expire);
    var e := PollEnd(clock, wait, u);
    PollEndFacts(clock, wait, u);
    if IsLockedIn(data, clock, flag, expire) == Ok(false) {
      FreeStaysFree(data, clock, e, flag, expire);
    }
  }

  /** set_state never changes whether the lock is held. */
  lemma StateKeepsLock(data: map<string, Entry>, clock: int, key: string, entry: Entry, expire: int)
    ensures IsLockedIn(data[StateFlag(key) := entry], clock, LockedFlag(key), expire) == IsLockedIn(data, clock, LockedFlag(key), expire)
  {
    FlagsDistinct(key, key);
  }

  /** A successful acquire leaves the lock held for the instance's expire, or until its key
      expires if that comes first. */
  lemma AcquiredIsHeld(data: map<string, Entry>, now: int, key: string, ex: int, expire: int)
    requires ex > 0 && expire > 0
    ensures IsLockedIn(data[LockedFlag(key) := Entry(Stamp(now), now + ex * Second)], now, LockedFlag(key), expire) == Ok(true)
    ensures UntilIn(data[LockedFlag(key) := Entry(Stamp(now), now + ex * Second)], LockedFlag(key), expire) ==
      Some(if expire < ex then now + expire * Second else now + ex * Second)
  {
  }
}
