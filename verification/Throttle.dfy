/**
 The rate limiter: the atomic counter-and-block script, its storage adapter, and what the
 limiter they refine guarantees about any sequence of requests.
 */
module Throttle {
  import opened Wrappers
  import opened Numbers
  import opened RedisStore

  // ---------------------------------------------------------------- The fixed-window limiter

  /** Both durations are at least one millisecond, as the command's arguments are. */
  datatype Config = Config(ttl: int, limit: nat, block: int) {
    predicate Valid() {
      ttl >= 1 && block >= 1
    }
  }

  /** The counter is live while now < until, the block while now < blockedUntil. */
  datatype Limiter = Limiter(hits: int, until: int, blockedUntil: int)

  datatype Reply = Reply(totalHits: int, ttlRemainingMs: int, isBlocked: bool, blockTtlRemainingMs: int)

  function Counted(l: Limiter, now: int, cfg: Config): Limiter {
    if now < l.until then l.(hits := l.hits + 1) else l.(hits := 1, until := now + cfg.ttl)
  }

  /** One request: ignored while blocked; otherwise counted, and the one over the limit starts a block. */
  function Request(l: Limiter, now: int, cfg: Config): Limiter {
    if now < l.blockedUntil then l
    else
      var counted := Counted(l, now, cfg);
      if counted.hits > cfg.limit then counted.(blockedUntil := now + cfg.block) else counted
  }

  predicate Admits(l: Limiter, now: int, cfg: Config) {
    now >= l.blockedUntil && Counted(l, now, cfg).hits <= cfg.limit
  }

  function ReplyTo(l: Limiter, now: int, cfg: Config): Reply {
    var after := Request(l, now, cfg);
    Reply(if now < after.until then after.hits else 0, Max(0, after.until - now),
          !Admits(l, now, cfg), Max(0, after.blockedUntil - now))
  }

  // ---------------------------------------------------------------- The script refines the limiter

  function BlockKey(key: string): string {
    key + ":block"
  }

  ghost predicate HoldsUntil(db: Db<string, int>, now: int, key: string, until: int) {
    && (Live(db, now, key) <==> now < until)
    && (Live(db, now, key) ==> db[key].expireAt == Some(until))
  }

  /** The two keys in Redis represent the limiter; in particular every live key carries an expiry. */
  ghost predicate Represents(db: Db<string, int>, now: int, key: string, l: Limiter) {
    && HoldsUntil(db, now, key, l.until)
    && (now < l.until ==> db[key].value == l.hits >= 1)
    && HoldsUntil(db, now, BlockKey(key), l.blockedUntil)
  }

  lemma TimeKeepsRepresentation(db: Db<string, int>, now: int, later: int, key: string, l: Limiter)
    requires Represents(db, now, key, l) && now <= later
    ensures Represents(db, later, key, l)
  {
  }

  /** A missing pair of keys is an idle limiter; losing either key to eviction is losing its window or its block. */
  lemma EvictionIsForgetting(db: Db<string, int>, now: int, key: string, l: Limiter)
    requires Represents(db, now, key, l)
    ensures Represents(db - {key}, now, key, l.(until := now))
    ensures Represents(db - {BlockKey(key)}, now, key, l.(blockedUntil := now))
    ensures Represents(map[], now, key, Limiter(0, now, now))
  {
    assert |BlockKey(key)| != |key|;
  }

  /** The script, command by command; Redis runs it as one atomic step. */
  method IncrementThrottle(redis: Redis<string, int>, key: string, ttlMs: int, limit: nat, blockDurationMs: int,
                           ghost l: Limiter)
    returns (reply: Reply)
    requires Represents(redis.db, redis.now, key, l)
    modifies redis`db
    ensures var cfg := Config(Max(1, ttlMs), limit, Max(1, blockDurationMs));
            && Represents(redis.db, redis.now, key, Request(l, redis.now, cfg))
            && reply == ReplyTo(l, redis.now, cfg)
    ensures forall k :: k != key && k != BlockKey(key) ==>
                          Lookup(redis.db, redis.now, k) == Lookup(old(redis.db), redis.now, k)
  {
    assert |BlockKey(key)| != |key|;
    var blockTtl := redis.RemainingMs(key + ":block");
    if blockTtl > 0 {
      var current := redis.GetCache(key);
      var pttl := redis.RemainingMs(key);
      return Reply(if current.Some? then current.value else 0, Max(0, pttl), true, blockTtl);
    }
    var count := redis.GetCache(key);
    var totalHits := (if count.Some? then count.value else 0) + 1;
    redis.SetKeepTtl(key, totalHits);
    if totalHits == 1 {
      redis.SetExpiry(key, Max(1, ttlMs));
    }
    var ttlRemaining := redis.RemainingMs(key);
    if totalHits > limit {
      redis.SetWithTtl(key + ":block", 1, Max(1, blockDurationMs));
      return Reply(totalHits, Max(0, ttlRemaining), true, Max(1, blockDurationMs));
    }
    return Reply(totalHits, Max(0, ttlRemaining), false, 0);
  }

  // ---------------------------------------------------------------- The storage adapter

  const REDIS_FAILURE_LOG_INTERVAL_MS := 30000

  datatype Record = Record(totalHits: int, timeToExpire: int, isBlocked: bool, timeToBlockExpire: int)

  /** Math.ceil(ms / 1000) for a non-negative number of milliseconds. */
  function CeilSeconds(ms: int): (seconds: int)
    requires ms >= 0
    ensures 1000 * (seconds - 1) < ms <= 1000 * seconds
  {
    (ms + 999) / 1000
  }

  class RedisThrottlerStorage {
    const redis: Redis<string, int>
    var lastRedisFailureLogAt: int
    ghost var loggedAt: seq<int>

    ghost predicate Valid()
      reads this
    {
      && (forall i :: 0 <= i < |loggedAt| - 1 ==> loggedAt[i] + REDIS_FAILURE_LOG_INTERVAL_MS <= loggedAt[i + 1])
      && (loggedAt != [] ==> lastRedisFailureLogAt == loggedAt[|loggedAt| - 1])
    }

    constructor (redis: Redis<string, int>)
      ensures Valid() && this.redis == redis && loggedAt == []
    {
      this.redis := redis;
      lastRedisFailureLogAt := 0;
      loggedAt := [];
    }

    /**
     With Redis up: the limiter's reply, milliseconds rounded up to whole seconds. With Redis
     down: the request passes, nothing is counted, and failures are logged at least 30 s apart.
     */
    method Increment(key: string, ttl: int, limit: nat, blockDuration: int, redisUp: bool, clock: int, ghost l: Limiter)
      returns (record: Record)
      requires Valid() && Represents(redis.db, redis.now, key, l)
      modifies this, redis`db
      ensures Valid()
      ensures var cfg := Config(Max(1, ttl), limit, Max(1, blockDuration));
              redisUp ==>
                && Represents(redis.db, redis.now, key, Request(l, redis.now, cfg))
                && record.isBlocked == !Admits(l, redis.now, cfg)
                && record.totalHits == ReplyTo(l, redis.now, cfg).totalHits
                && 1000 * (record.timeToExpire - 1) < ReplyTo(l, redis.now, cfg).ttlRemainingMs <= 1000 * record.timeToExpire
                && 1000 * (record.timeToBlockExpire - 1) < ReplyTo(l, redis.now, cfg).blockTtlRemainingMs
                   <= 1000 * record.timeToBlockExpire
                && 1000 * record.timeToBlockExpire >= Request(l, redis.now, cfg).blockedUntil - redis.now
                && (record.isBlocked ==>
                      1000 * (record.timeToBlockExpire - 1) < Request(l, redis.now, cfg).blockedUntil - redis.now)
                && 1000 * record.timeToExpire >= Request(l, redis.now, cfg).until - redis.now
                && loggedAt == old(loggedAt)
      ensures !redisUp ==> redis.db == old(redis.db) && record == Record(0, 0, false, 0)
      ensures !redisUp ==> loggedAt == if clock - old(lastRedisFailureLogAt) < 30000
                                       then old(loggedAt) else old(loggedAt) + [clock]
    {
      if redisUp {
        var reply := IncrementThrottle(redis, key, ttl, limit, blockDuration, l);
        record := Record(reply.totalHits, CeilSeconds(reply.ttlRemainingMs), reply.isBlocked,
                         CeilSeconds(reply.blockTtlRemainingMs));
      } else {
        if !(clock - lastRedisFailureLogAt < REDIS_FAILURE_LOG_INTERVAL_MS) {
          lastRedisFailureLogAt := clock;
          loggedAt := loggedAt + [clock];
        }
        record := Record(0, 0, false, 0);
      }
    }
  }

  // ---------------------------------------------------------------- Any sequence of requests

  /** The limiter after requests at the given instants. */
  function Play(l: Limiter, times: seq<int>, cfg: Config): Limiter
    decreases |times|
  {
    if times == [] then l else Play(Request(l, times[0], cfg), times[1..], cfg)
  }

  /** How many of the requests made in [from, to) are admitted. */
  function Admitted(l: Limiter, times: seq<int>, cfg: Config, from: int, to: int): nat
    decreases |times|
  {
    if times == [] then 0
    else (if Admits(l, times[0], cfg) && from <= times[0] < to then 1 else 0)
         + Admitted(Request(l, times[0], cfg), times[1..], cfg, from, to)
  }

  predicate Sorted(times: seq<int>) {
    forall i, j :: 0 <= i < j < |times| ==> times[i] <= times[j]
  }

  /** How many windows of length ttl it takes to cover a span. */
  function Windows(span: int, ttl: int): nat
    requires ttl >= 1
    decreases Max(0, span)
  {
    if span <= 0 then 0 else 1 + Windows(span - ttl, ttl)
  }

  lemma {:induction false} WindowsMonotone(a: int, b: int, ttl: int)
    requires ttl >= 1 && a <= b
    ensures Windows(a, ttl) <= Windows(b, ttl)
    decreases Max(0, b)
  {
    if b > 0 { WindowsMonotone(a - ttl, b - ttl, ttl); }
  }

  lemma {:induction false} WindowsOfMultiple(n: nat, ttl: int)
    requires ttl >= 1
    ensures Windows(n * ttl, ttl) == n
  {
    if n > 0 {
      WindowsOfMultiple(n - 1, ttl);
      assert n * ttl - ttl == (n - 1) * ttl;
      assert n * ttl >= 1 by { assert (n - 1) * ttl >= 0; }
    }
  }

  /** k added up n times. */
  function Times(k: nat, n: nat): nat {
    if n == 0 then 0 else k + Times(k, n - 1)
  }

  /** What may still be admitted before `to`: the rest of the open window, then whole windows. */
  function Room(l: Limiter, now: int, cfg: Config, to: int): int
    requires cfg.Valid()
  {
    if now < l.until then Max(0, cfg.limit - l.hits) + Times(cfg.limit, Windows(to - l.until, cfg.ttl))
    else Times(cfg.limit, Windows(to - now, cfg.ttl))
  }

  lemma {:induction false} TimesMonotone(k: nat, m: nat, n: nat)
    requires m <= n
    ensures Times(k, m) <= Times(k, n)
  {
    if m < n { TimesMonotone(k, m, n - 1); }
  }

  lemma {:induction false} TimesIsProduct(k: nat, n: nat)
    ensures Times(k, n) == n * k
  {
    if n > 0 { TimesIsProduct(k, n - 1); }
  }

  lemma RoomShrinks(l: Limiter, now: int, later: int, cfg: Config, to: int)
    requires cfg.Valid() && now <= later
    ensures Room(l, later, cfg, to) <= Room(l, now, cfg, to)
  {
    WindowsMonotone(to - later, to - now, cfg.ttl);
    TimesMonotone(cfg.limit, Windows(to - later, cfg.ttl), Windows(to - now, cfg.ttl));
    if now < l.until <= later {
      WindowsMonotone(to - later, to - l.until, cfg.ttl);
      TimesMonotone(cfg.limit, Windows(to - later, cfg.ttl), Windows(to - l.until, cfg.ttl));
    }
  }

  lemma RequestUsesRoom(l: Limiter, now: int, cfg: Config, to: int)
    requires cfg.Valid() && now < to
    ensures Room(Request(l, now, cfg), now, cfg, to) + (if Admits(l, now, cfg) then 1 else 0) <= Room(l, now, cfg, to)
  {
    if now >= l.blockedUntil && now >= l.until {
      assert Windows(to - now, cfg.ttl) == 1 + Windows(to - now - cfg.ttl, cfg.ttl);
    }
  }

  lemma {:induction false} NothingLater(l: Limiter, times: seq<int>, cfg: Config, from: int, to: int)
    requires forall i :: 0 <= i < |times| ==> times[i] >= to
    ensures Admitted(l, times, cfg, from, to) == 0
    decreases |times|
  {
    if times != [] { NothingLater(Request(l, times[0], cfg), times[1..], cfg, from, to); }
  }

  lemma {:induction false} AdmittedWithinRoom(l: Limiter, times: seq<int>, cfg: Config, from: int, to: int)
    requires cfg.Valid() && Sorted(times) && times != []
    requires times[0] < to
    ensures Admitted(l, times, cfg, from, to) <= Room(l, times[0], cfg, to)
    decreases |times|
  {
    var now, rest := times[0], times[1..];
    var next := Request(l, now, cfg);
    RequestUsesRoom(l, now, cfg, to);
    if rest == [] {
    } else if rest[0] < to {
      AdmittedWithinRoom(next, rest, cfg, from, to);
      RoomShrinks(next, now, rest[0], cfg, to);
    } else {
      NothingLater(next, rest, cfg, from, to);
    }
  }

  /**
   At most limit requests are admitted during one life of the counter: from a window that is
   already open only the remainder, from a fresh one at most limit.
   */
  lemma AtMostLimitPerWindow(l: Limiter, times: seq<int>, cfg: Config)
    requires cfg.Valid() && Sorted(times) && times != []
    ensures var now := times[0];
            if now < l.until then Admitted(l, times, cfg, now, l.until) <= Max(0, cfg.limit - l.hits)
            else Admitted(l, times, cfg, now, now + cfg.ttl) <= cfg.limit
  {
    var now := times[0];
    if now < l.until {
      AdmittedWithinRoom(l, times, cfg, now, l.until);
    } else {
      AdmittedWithinRoom(l, times, cfg, now, now + cfg.ttl);
    }
    RoomOfOneWindow(l, now, cfg);
  }

  lemma RoomOfOneWindow(l: Limiter, now: int, cfg: Config)
    requires cfg.Valid()
    ensures now < l.until ==> Room(l, now, cfg, l.until) == Max(0, cfg.limit - l.hits)
    ensures now >= l.until ==> Room(l, now, cfg, now + cfg.ttl) == cfg.limit
  {
    assert Windows(0, cfg.ttl) == 0 && Windows(cfg.ttl, cfg.ttl) == 1 + Windows(0, cfg.ttl);
    assert Times(cfg.limit, 1) == cfg.limit + Times(cfg.limit, 0);
  }

  lemma {:induction false} SkipEarlier(l: Limiter, times: seq<int>, cfg: Config, from: int, to: int) returns (k: nat)
    requires Sorted(times)
    ensures k <= |times| && (k < |times| ==> times[k] >= from)
    ensures Admitted(l, times, cfg, from, to) == Admitted(Play(l, times[..k], cfg), times[k..], cfg, from, to)
    decreases |times|
  {
    if times == [] || times[0] >= from {
      k := 0;
      assert times[0..] == times;
    } else {
      k := SkipEarlier(Request(l, times[0], cfg), times[1..], cfg, from, to);
      assert times[1..][..k] == times[..k + 1][1..] && times[1..][k..] == times[k + 1..];
      k := k + 1;
    }
  }

  lemma {:induction false} HitsStayPositive(l: Limiter, times: seq<int>, cfg: Config)
    requires l.hits >= 0
    ensures Play(l, times, cfg).hits >= 0
    decreases |times|
  {
    if times != [] { HitsStayPositive(Request(l, times[0], cfg), times[1..], cfg); }
  }

  /** In any n consecutive window lengths, wherever they start, at most (n+1)*limit requests pass. */
  lemma WindowBound(l: Limiter, times: seq<int>, cfg: Config, from: int, n: nat)
    requires cfg.Valid() && Sorted(times) && l.hits >= 0
    ensures Admitted(l, times, cfg, from, from + n * cfg.ttl) <= (n + 1) * cfg.limit
  {
    var to := from + n * cfg.ttl;
    TimesIsProduct(cfg.limit, n + 1);
    WindowsOfMultiple(n, cfg.ttl);
    SpanBound(l, times, cfg, from, to, n);
  }

  lemma SpanBound(l: Limiter, times: seq<int>, cfg: Config, from: int, to: int, n: nat)
    requires cfg.Valid() && Sorted(times) && l.hits >= 0 && Windows(to - from, cfg.ttl) <= n
    ensures Admitted(l, times, cfg, from, to) <= Times(cfg.limit, n + 1)
  {
    var k := SkipEarlier(l, times, cfg, from, to);
    var here, rest := Play(l, times[..k], cfg), times[k..];
    HitsStayPositive(l, times[..k], cfg);
    if rest != [] {
      if rest[0] < to {
        AdmittedWithinRoom(here, rest, cfg, from, to);
        var start := if rest[0] < here.until then here.until else rest[0];
        WindowsMonotone(to - start, to - from, cfg.ttl);
        TimesMonotone(cfg.limit, Windows(to - start, cfg.ttl), n);
      } else {
        NothingLater(here, rest, cfg, from, to);
      }
    }
  }

  /** A counter that has no window and no block at this instant. */
  predicate Quiet(l: Limiter, now: int) {
    now >= l.until && now >= l.blockedUntil
  }

  /** After n+1 requests within one window that opened at `start`, the limit not exceeded before the last. */
  lemma {:induction false} WindowCounts(l: Limiter, times: seq<int>, cfg: Config)
    requires cfg.Valid() && times != [] && Quiet(l, times[0]) && Sorted(times) && |times| <= cfg.limit + 1
    requires times[|times| - 1] < times[0] + cfg.ttl
    ensures var end, n, last := Play(l, times, cfg), |times|, times[|times| - 1];
            && end.hits == n && end.until == times[0] + cfg.ttl
            && (if n > cfg.limit then end.blockedUntil == last + cfg.block else end.blockedUntil <= times[0])
    decreases |times|
  {
    var n := |times| - 1;
    if n > 0 {
      WindowCounts(l, times[..n], cfg);
      PlayAppend(l, times[..n], times[n], cfg);
      assert times[..n] + [times[n]] == times;
    } else {
      assert times == [times[0]] && times[1..] == [];
      assert Play(l, times, cfg) == Play(Request(l, times[0], cfg), [], cfg);
    }
  }

  lemma ReplyAfter(l: Limiter, times: seq<int>, cfg: Config)
    requires times != []
    ensures var n, last := |times| - 1, times[|times| - 1];
            var after := Play(l, times, cfg);
            after == Request(Play(l, times[..n], cfg), last, cfg)
  {
    var n := |times| - 1;
    PlayAppend(l, times[..n], times[n], cfg);
    assert times[..n] + [times[n]] == times;
  }

  /**
   What clients are told: the n-th request of a window is answered with n hits and the rest of the
   window; it is blocked, for the whole block, exactly if n exceeds the limit.
   */
  lemma RepliesOfAWindow(l: Limiter, times: seq<int>, cfg: Config)
    requires cfg.Valid() && times != [] && Quiet(l, times[0]) && Sorted(times) && |times| <= cfg.limit + 1
    requires times[|times| - 1] < times[0] + cfg.ttl
    ensures var n, last := |times|, times[|times| - 1];
            ReplyTo(Play(l, times[..n - 1], cfg), last, cfg)
            == Reply(n, times[0] + cfg.ttl - last, n > cfg.limit, if n > cfg.limit then cfg.block else 0)
  {
    var n := |times| - 1;
    WindowCounts(l, times, cfg);
    ReplyAfter(l, times, cfg);
    if n > 0 { WindowCounts(l, times[..n], cfg); } else { assert Play(l, times[..0], cfg) == l; }
  }

  /** While the block runs, further requests are answered as blocked for its remaining time and not counted. */
  lemma RepliesOfABlock(l: Limiter, times: seq<int>, cfg: Config, during: int)
    requires cfg.Valid() && times != [] && Quiet(l, times[0]) && Sorted(times) && |times| == cfg.limit + 1
    requires times[|times| - 1] < times[0] + cfg.ttl
    requires times[|times| - 1] <= during < times[|times| - 1] + cfg.block
    ensures ReplyTo(Play(l, times, cfg), during, cfg)
            == Reply(if during < times[0] + cfg.ttl then cfg.limit + 1 else 0, Max(0, times[0] + cfg.ttl - during), true,
                     times[|times| - 1] + cfg.block - during)
  {
    WindowCounts(l, times, cfg);
  }

  // ---------------------------------------------------------------- Blocks

  const IDLE := Limiter(0, 0, 0)

  /** What holds just after a request at `last`: a running block belongs to an overrun counter. */
  predicate Settled(l: Limiter, last: int, cfg: Config) {
    && (last < l.blockedUntil ==> l.hits > cfg.limit)
    && l.until <= last + cfg.ttl
    && (cfg.block >= cfg.ttl ==> l.hits <= cfg.limit + 1 || last >= l.until)
    && (cfg.block >= cfg.ttl && l.hits > cfg.limit ==> l.until <= l.blockedUntil)
  }

  lemma RequestSettles(l: Limiter, last: int, now: int, cfg: Config)
    requires cfg.Valid() && Settled(l, last, cfg) && last <= now
    ensures Settled(Request(l, now, cfg), now, cfg)
  {
  }

  lemma {:induction false} PlaySettles(l: Limiter, last: int, times: seq<int>, cfg: Config)
    requires cfg.Valid() && Settled(l, last, cfg) && Sorted(times) && (times != [] ==> last <= times[0])
    ensures Settled(Play(l, times, cfg), if times == [] then last else times[|times| - 1], cfg)
    decreases |times|
  {
    if times != [] {
      RequestSettles(l, last, times[0], cfg);
      PlaySettles(Request(l, times[0], cfg), times[0], times[1..], cfg);
    }
  }

  /** Requests during a block change nothing at all, however many: they never extend it. */
  lemma {:induction false} BlockIsNotExtended(l: Limiter, times: seq<int>, cfg: Config)
    requires forall i :: 0 <= i < |times| ==> times[i] < l.blockedUntil
    ensures Play(l, times, cfg) == l
    ensures forall from, to :: Admitted(l, times, cfg, from, to) == 0
    decreases |times|
  {
    if times != [] { BlockIsNotExtended(l, times[1..], cfg); }
  }

  /**
   Recovery: after any history that ends in a block, the first request once the block is over is
   admitted if and only if the counter has expired too and the limit is not zero. When blocks
   last at least as long as windows, the counter always has.
   */
  lemma FirstRequestAfterBlock(times: seq<int>, cfg: Config, now: int)
    requires cfg.Valid() && Sorted(times) && times != [] && times[0] >= 0
    requires times[|times| - 1] < Play(IDLE, times, cfg).blockedUntil <= now
    ensures var l := Play(IDLE, times, cfg);
            && (Admits(l, now, cfg) <==> cfg.limit >= 1 && l.until <= now)
            && (cfg.block >= cfg.ttl && cfg.limit >= 1 ==> Admits(l, now, cfg))
  {
    PlaySettles(IDLE, 0, times, cfg);
  }

  /** The live counter after a history, 0 if it has expired. */
  function LiveHits(l: Limiter, now: int): int {
    if now < l.until then l.hits else 0
  }

  lemma {:induction false} Burst(l: Limiter, n: nat, cfg: Config)
    requires l.blockedUntil <= 0 < l.until && 1 <= l.hits && l.hits + n <= cfg.limit + 1 && n >= 1
    ensures Play(l, seq(n, i => 0), cfg)
            == Limiter(l.hits + n, l.until, if l.hits + n > cfg.limit then cfg.block else l.blockedUntil)
    decreases n
  {
    var zeros: seq<int> := seq(n, i => 0);
    assert zeros[1..] == seq((n - 1) as nat, i => 0);
    if n > 1 { Burst(Request(l, 0, cfg), n - 1, cfg); }
    else { assert zeros[1..] == []; }
  }

  lemma PlayAppend(l: Limiter, times: seq<int>, now: int, cfg: Config)
    ensures Play(l, times + [now], cfg) == Request(Play(l, times, cfg), now, cfg)
    decreases |times|
  {
    if times == [] {
      assert times + [now] == [now];
    } else {
      assert (times + [now])[1..] == times[1..] + [now];
      PlayAppend(Request(l, times[0], cfg), times[1..], now, cfg);
    }
  }

  /** limit+1 requests at once, then one more when the short block is over: the counter stands at limit+2. */
  lemma ShortBlockOverruns(cfg: Config) returns (times: seq<int>)
    requires cfg.Valid() && cfg.block < cfg.ttl
    ensures Sorted(times) && times != [] && times[0] >= 0
    ensures LiveHits(Play(IDLE, times, cfg), times[|times| - 1]) == cfg.limit + 2
  {
    var first := Request(IDLE, 0, cfg);
    var zeros: seq<int> := seq(cfg.limit + 1, i => 0);
    assert zeros[1..] == seq(cfg.limit, i => 0);
    if cfg.limit > 0 { Burst(first, cfg.limit, cfg); } else { assert zeros[1..] == []; }
    times := zeros + [cfg.block];
    PlayAppend(IDLE, zeros, cfg.block, cfg);
  }

  /** The counter stays within limit+1 in every history exactly when blocks last at least a window. */
  lemma CounterBoundIff(cfg: Config)
    requires cfg.Valid()
    ensures (forall times :: Sorted(times) && times != [] && times[0] >= 0 ==>
               LiveHits(Play(IDLE, times, cfg), times[|times| - 1]) <= cfg.limit + 1)
            <==> cfg.block >= cfg.ttl
  {
    if cfg.block >= cfg.ttl {
      forall times | Sorted(times) && times != [] && times[0] >= 0
        ensures LiveHits(Play(IDLE, times, cfg), times[|times| - 1]) <= cfg.limit + 1
      {
        PlaySettles(IDLE, 0, times, cfg);
      }
    } else {
      var times := ShortBlockOverruns(cfg);
    }
  }
}
