/** Locking of backend/ka_space/helpers/locking.py: a lock held as a time stamp under
    flag_<key>_locked in Redis, with a polling acquire, a release that waits out a minimum
    life, and a state text under flag_<key>_state. Times are whole milliseconds. */
module Locks {
  import opened Wrappers

  /** One second and the polling interval of acquire (0.1 s). */
  const Second: int := 1000
  const Poll: int := 100

  /** The defaults of Locking(key, timeout=60, expire=60 * 5, minimum_life=0), in seconds. */
  const DefaultTimeout: int := 60
  const DefaultExpire: int := 60 * 5
  const DefaultMinimumLife: int := 0

  // ---------------------------------------------------------------- the Redis store

  /** What the lock code writes: a time stamp under the lock flag, a text under the state flag. */
  datatype Stored = Stamp(at: int) | Text(s: string)

  /** A value with the moment its EX expiry removes it. */
  datatype Entry = Entry(value: Stored, expiresAt: int)

  /** GET at a moment: a key past its expiry is gone. */
  function LookupIn(data: map<string, Entry>, clock: int, k: string): (v: Option<Stored>)
    ensures v.Some? <==> k in data && clock < data[k].expiresAt
    ensures v.Some? ==> v.value == data[k].value
  {
    if k in data && clock < data[k].expiresAt then Some(data[k].value) else None
  }

  /** The Redis server and the clock it and time.time() read. */
  class Redis {
    var data: map<string, Entry>
    var clock: int

    constructor (now: int)
      ensures data == map[] && clock == now
    {
      data := map[];
      clock := now;
    }

    function Lookup(k: string): Option<Stored>
      reads this
    {
      LookupIn(data, clock, k)
    }

    /** SET k v EX ex: a non-positive expiry is refused. */
    method Set(k: string, v: Stored, ex: int) returns (r: Result<bool>)
      modifies this
      ensures clock == old(clock)
      ensures ex <= 0 ==> r == Err(ResponseError) && data == old(data)
      ensures ex > 0 ==> r == Ok(true) && data == old(data)[k := Entry(v, clock + ex * Second)]
    {
      if ex <= 0 {
        return Err(ResponseError);
      }
      data := data[k := Entry(v, clock + ex * Second)];
      return Ok(true);
    }

    /** DEL k: the number of live keys removed. */
    method Delete(k: string) returns (n: nat)
      modifies this
      ensures clock == old(clock) && data == old(data) - {k}
      ensures n == if LookupIn(old(data), clock, k).Some? then 1 else 0
    {
      n := if Lookup(k).Some? then 1 else 0;
      data := data - {k};
    }

    /** time.sleep(ms / 1000) */
    method Sleep(ms: nat)
      modifies this
      ensures data == old(data) && clock == old(clock) + ms
    {
      clock := clock + ms;
    }
  }

  // ---------------------------------------------------------------- the lock, as values

  function LockedFlag(key: string): string
  {
    "flag_" + key + "_locked"
  }

  function StateFlag(key: string): string
  {
    "flag_" + key + "_state"
  }

  /** is_locked at a moment: the lock flag holds a stamp and stamp + expire is still ahead;
      float() of a text raises. */
  function IsLockedIn(data: map<string, Entry>, clock: int, flag: string, expire: int): Result<bool>
  {
    match LookupIn(data, clock, flag)
    case None => Ok(false)
    case Some(Stamp(t)) => Ok(t + expire * Second > clock)
    case Some(Text(_)) => Err(ValueError)
  }

  /** The moment a stamped lock stops counting as held: its expire runs out or its key
      expires; None when no stamp is stored. */
  function UntilIn(data: map<string, Entry>, flag: string, expire: int): (u: Option<int>)
  {
    if flag in data && data[flag].value.Stamp? then
      var byStamp := data[flag].value.at + expire * Second;
      Some(if byStamp < data[flag].expiresAt then byStamp else data[flag].expiresAt)
    else None
  }

  /** The moment polling every 0.1 s from clock stops: the lock is free or the deadline wait
      has passed. */
  function PollEnd(clock: int, wait: int, until: Option<int>): int
    decreases wait - clock
  {
    if until.Some? && clock < until.value && clock < wait then PollEnd(clock + Poll, wait, until) else clock
  }

  /** `x or default` on an optional number: None and 0 are falsy. */
  function Or(x: Option<int>, default: int): (r: int)
    ensures x.None? || x == Some(0) ==> r == default
    ensures x.Some? && x.value != 0 ==> r == x.value
  {
    if x.None? || x.value == 0 then default else x.value
  }

  /** What state() returns. */
  datatype LockState = LockState(isLocked: bool, locked: Option<Stored>, state: Option<Stored>)

  // ---------------------------------------------------------------- the Locking object

  class Locking {
    const redis: Redis
    const key: string
    const timeout: int
    const expire: int
    const minimumLife: int
    var releaseAt: int

    constructor (redis: Redis, key: string, timeout: int, expire: int, minimumLife: int)
      ensures this.redis == redis && this.key == key && this.timeout == timeout
      ensures this.expire == expire && this.minimumLife == minimumLife
      ensures releaseAt == redis.clock
    {
      this.redis := redis;
      this.key := key;
      this.timeout := timeout;
      this.expire := expire;
      this.minimumLife := minimumLife;
      releaseAt := redis.clock;
    }

    /** Locking(key): the defaults timeout=60, expire=60 * 5 and minimum_life=0. */
    constructor Default(redis: Redis, key: string)
      ensures this.redis == redis && this.key == key && this.timeout == DefaultTimeout
      ensures this.expire == DefaultExpire && this.minimumLife == DefaultMinimumLife
      ensures releaseAt == redis.clock
    {
      this.redis := redis;
      this.key := key;
      this.timeout := DefaultTimeout;
      this.expire := DefaultExpire;
      this.minimumLife := DefaultMinimumLife;
      releaseAt := redis.clock;
    }

    /** is_locked() */
    function IsLocked(): (r: Result<bool>)
      reads redis
      ensures r.Err? <==> LookupIn(redis.data, redis.clock, LockedFlag(key)).Some? &&
                          LookupIn(redis.data, redis.clock, LockedFlag(key)).value.Text?
      ensures r.Ok? ==> (r.value <==> UntilIn(redis.data, LockedFlag(key), expire).Some? &&
                                      redis.clock < UntilIn(redis.data, LockedFlag(key), expire).value)
    {
      IsLockedIn(redis.data, redis.clock, LockedFlag(key), expire)
    }

    /** acquire(timeout, expire): polls while locked and before the deadline; raises when
        still locked; otherwise notes release_at and stores the current time under the lock
        flag with the given expiry. */
    method Acquire(timeout: Option<int>, expire: Option<int>) returns (r: Result<bool>)
      modifies this, redis
      ensures old(IsLocked()).Err? ==> r == old(IsLocked()) && redis.data == old(redis.data) &&
                                       redis.clock == old(redis.clock) && releaseAt == old(releaseAt)
      ensures old(IsLocked()).Ok? ==>
        var end := PollEnd(old(redis.clock), old(redis.clock) + Or(timeout, this.timeout) * Second,
                           UntilIn(old(redis.data), LockedFlag(key), this.expire));
        var ex := Or(expire, this.expire);
        && redis.clock == end
        && (r == Err(Error.IsLocked) <==> IsLockedIn(old(redis.data), end, LockedFlag(key), this.expire) == Ok(true))
        && (r == Err(Error.IsLocked) ==> redis.data == old(redis.data) && releaseAt == old(releaseAt))
        && (r != Err(Error.IsLocked) ==>
              && releaseAt == end + minimumLife * Second
              && (ex > 0 ==> r == Ok(true) && redis.data == old(redis.data)[LockedFlag(key) := Entry(Stamp(end), end + ex * Second)])
              && (ex <= 0 ==> r == Err(ResponseError) && redis.data == old(redis.data)))
    {
      var t := Or(timeout, this.timeout);
      var ex := Or(expire, this.expire);
      var wait := redis.clock + t * Second;
      ghost var until := UntilIn(redis.data, LockedFlag(key), this.expire);
      var locked := IsLocked();
      while locked == Ok(true) && wait > redis.clock
        invariant redis.data == old(redis.data) && releaseAt == old(releaseAt)
        invariant old(redis.clock) <= redis.clock
        invariant locked == IsLockedIn(redis.data, redis.clock, LockedFlag(key), this.expire)
        invariant old(IsLocked()).Err? ==> redis.clock == old(redis.clock)
        invariant old(IsLocked()).Ok? ==> locked.Ok?
        invariant old(IsLocked()).Ok? ==> PollEnd(old(redis.clock), wait, until) == PollEnd(redis.clock, wait, until)
        decreases wait - redis.clock
      {
        redis.Sleep(Poll);
        locked := IsLocked();
      }
      if locked.Err? {
        return Err(locked.error);
      }
      if locked.value {
        return Err(Error.IsLocked);
      }
      releaseAt := redis.clock + minimumLife * Second;
      r := redis.Set(LockedFlag(key), Stamp(redis.clock), ex);
    }

    /** release(): waits until release_at when it is ahead, then deletes the lock flag
        whoever stored it. */
    method Release() returns (n: nat)
      modifies redis
      ensures redis.clock == if releaseAt > old(redis.clock) then releaseAt else old(redis.clock)
      ensures redis.data == old(redis.data) - {LockedFlag(key)}
      ensures n == if LookupIn(old(redis.data), redis.clock, LockedFlag(key)).Some? then 1 else 0
    {
      if releaseAt - redis.clock > 0 {
        redis.Sleep(releaseAt - redis.clock);
      }
      n := redis.Delete(LockedFlag(key));
    }

    /** set_state(value): the state flag with the instance's expiry. */
    method SetState(value: string) returns (r: Result<bool>)
      modifies redis
      ensures redis.clock == old(redis.clock)
      ensures expire <= 0 ==> r == Err(ResponseError) && redis.data == old(redis.data)
      ensures expire > 0 ==> r == Ok(true) && redis.data == old(redis.data)[StateFlag(key) := Entry(Text(value), redis.clock + expire * Second)]
    {
      r := redis.Set(StateFlag(key), Text(value), expire);
    }

    /** state(): whether it is locked, and the raw lock and state values. */
    function State(): (s: Result<LockState>)
      reads redis
      ensures s.Err? <==> IsLocked().Err?
      ensures s.Ok? ==> s.value.isLocked == IsLocked().value
      ensures s.Ok? ==> s.value.locked == redis.Lookup(LockedFlag(key)) && s.value.state == redis.Lookup(StateFlag(key))
    {
      var locked :- IsLocked();
      Ok(LockState(locked, redis.Lookup(LockedFlag(key)), redis.Lookup(StateFlag(key))))
    }
  }
}
