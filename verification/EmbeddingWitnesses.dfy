/**
 Three runs that show where the protocol's guarantees end. Each holds for every query, every
 non-empty vector and every time to live, and each needs only two concurrent calls.
 */
module EmbeddingWitnesses {
  import opened Wrappers
  import opened RedisStore
  import opened EmbeddingProtocol
  import opened EmbeddingStampede
  import Retry

  function TwoCalls(q: Query, ttlSeconds: int): (s: State)
    ensures Init(s)
  {
    var call := Client(0, false, q, Start);
    State(Shared(map[], 0, ttlSeconds, map[0 := PERMITS], {}, multiset{}, [], {}, map[]), [call, call])
  }

  ghost predicate IsTrace(states: seq<State>, actions: seq<Action>) {
    && |states| == |actions| + 1
    && forall i :: 0 <= i < |actions| ==> Step(states[i], actions[i]) == states[i + 1]
  }

  /** The run on the given actions leads from s to t. */
  ghost predicate Leads(s: State, actions: seq<Action>, t: State) {
    exists states :: IsTrace(states, actions) && states[0] == s && states[|actions|] == t
  }

  lemma {:induction false} TraceExec(states: seq<State>, actions: seq<Action>)
    requires IsTrace(states, actions)
    ensures Exec(states[0], actions) == states[|actions|]
    decreases |actions|
  {
    if actions != [] {
      assert Step(states[0], actions[0]) == states[1];
      TraceExec(states[1..], actions[1..]);
    }
  }

  lemma LeadsExec(s: State, actions: seq<Action>, t: State)
    requires Leads(s, actions, t)
    ensures Exec(s, actions) == t
  {
    var states :| IsTrace(states, actions) && states[0] == s && states[|actions|] == t;
    TraceExec(states, actions);
  }

  lemma LeadsConcat(s: State, first: seq<Action>, t: State, second: seq<Action>, u: State)
    requires Leads(s, first, t) && Leads(t, second, u)
    ensures Leads(s, first + second, u)
  {
    var xs :| IsTrace(xs, first) && xs[0] == s && xs[|first|] == t;
    var ys :| IsTrace(ys, second) && ys[0] == t && ys[|second|] == u;
    assert IsTrace(xs + ys[1..], first + second);
  }

  lemma OneStep(s: State, a: Action)
    ensures Leads(s, [a], Step(s, a))
  {
    assert IsTrace([s, Step(s, a)], [a]);
  }

  /** The state of two calls of which call 0 holds the lock and call 1 stands at the given phase. */
  function Holding(q: Query, ttlSeconds: int, now: int, permits: int, requests: multiset<Query>,
                   holder: Phase, other: Phase): State {
    State(Shared(map[LockKey(q) := Entry(Token(0), Some(LOCK_TTL_MS))], now, ttlSeconds, map[0 := permits],
                 {}, requests, [Lease(q, Some(0), LOCK_TTL_MS)], {}, map[]),
          [Client(0, false, q, holder), Client(0, false, q, other)])
  }

  lemma BothMissOneLocks(q: Query, ttlSeconds: int)
    ensures Leads(TwoCalls(q, ttlSeconds), [ReadCache(0), ReadCache(1), TryLock(0)],
                  Holding(q, ttlSeconds, 0, PERMITS, multiset{}, Waiting(0), Missed))
  {
    var s0 := TwoCalls(q, ttlSeconds);
    var s1 := Step(s0, ReadCache(0));
    var s2 := Step(s1, ReadCache(1));
    var s3 := Step(s2, TryLock(0));
    assert IsTrace([s0, s1, s2, s3], [ReadCache(0), ReadCache(1), TryLock(0)]);
  }

  /** The holder has written its vector and released; call 1 stands at the given phase. */
  function Cached(q: Query, ttlSeconds: int, now: int, requests: multiset<Query>, vector: Vector, other: Phase): State {
    State(Shared(map[CacheKey(q) := Entry(Stored(vector), CacheExpiry(now, ttlSeconds))], now, ttlSeconds,
                 map[0 := PERMITS], {(q, vector)}, requests, [Lease(q, Some(0), LOCK_TTL_MS)], {},
                 map[0 := CacheExpiry(now, ttlSeconds)]),
          [Client(0, false, q, Done(Some(vector))), Client(0, false, q, other)])
  }

  /** The holder has its answer and has yet to write it; call 1 stands at the given phase. */
  function Answering(q: Query, ttlSeconds: int, now: int, requests: multiset<Query>, vector: Vector, other: Phase): State {
    var s := Holding(q, ttlSeconds, now, PERMITS, requests, Answered(0, vector), other);
    s.(shared := s.shared.(produced := {(q, vector)}))
  }

  lemma HolderIsAnswered(q: Query, ttlSeconds: int, now: int, requests: multiset<Query>, vector: Vector, other: Phase)
    requires vector != []
    ensures Leads(Holding(q, ttlSeconds, now, PERMITS - 1, requests, Calling(0, 1), other), [ApiAnswer(0, [vector])],
                  Answering(q, ttlSeconds, now, requests, vector, other))
  {
    OneStep(Holding(q, ttlSeconds, now, PERMITS - 1, requests, Calling(0, 1), other), ApiAnswer(0, [vector]));
  }

  lemma HolderWritesAndReleases(q: Query, ttlSeconds: int, now: int, requests: multiset<Query>, vector: Vector, other: Phase)
    requires 0 <= now < LOCK_TTL_MS
    ensures Leads(Answering(q, ttlSeconds, now, requests, vector, other), [WriteCache(0), Release(0)],
                  Cached(q, ttlSeconds, now, requests, vector, other))
  {
    var s0 := Answering(q, ttlSeconds, now, requests, vector, other);
    var s1 := Step(s0, WriteCache(0));
    var s2 := Step(s1, Release(0));
    assert s2.shared.db == map[CacheKey(q) := Entry(Stored(vector), CacheExpiry(now, ttlSeconds))];
    assert IsTrace([s0, s1, s2], [WriteCache(0), Release(0)]);
  }

  lemma HolderFinishes(q: Query, ttlSeconds: int, now: int, requests: multiset<Query>, vector: Vector, other: Phase)
    requires vector != [] && 0 <= now < LOCK_TTL_MS
    ensures Leads(Holding(q, ttlSeconds, now, PERMITS - 1, requests, Calling(0, 1), other),
                  [ApiAnswer(0, [vector])] + [WriteCache(0), Release(0)],
                  Cached(q, ttlSeconds, now, requests, vector, other))
  {
    HolderIsAnswered(q, ttlSeconds, now, requests, vector, other);
    HolderWritesAndReleases(q, ttlSeconds, now, requests, vector, other);
    LeadsConcat(Holding(q, ttlSeconds, now, PERMITS - 1, requests, Calling(0, 1), other), [ApiAnswer(0, [vector])],
                Answering(q, ttlSeconds, now, requests, vector, other), [WriteCache(0), Release(0)],
                Cached(q, ttlSeconds, now, requests, vector, other));
  }

  /** Nothing is evicted, and neither Redis nor a process fails. */
  predicate Faultless(actions: seq<Action>) {
    forall i :: 0 <= i < |actions| ==> !actions[i].Evict? && !actions[i].Crash? && !actions[i].RedisError?
  }

  predicate Untimed(actions: seq<Action>) {
    forall i :: 0 <= i < |actions| ==> !actions[i].Tick?
  }

  predicate WithoutApiErrors(actions: seq<Action>) {
    forall i :: 0 <= i < |actions| ==> !actions[i].ApiError?
  }

  /** Extends a faultless run from s by a further faultless stretch. */
  lemma Extend(s: State, run: seq<Action>, t: State, more: seq<Action>, u: State)
    returns (longer: seq<Action>)
    requires Leads(s, run, t) && Leads(t, more, u) && Faultless(run) && Faultless(more)
    ensures Leads(s, longer, u) && Faultless(longer)
    ensures Untimed(run) && Untimed(more) ==> Untimed(longer)
    ensures WithoutApiErrors(run) && WithoutApiErrors(more) ==> WithoutApiErrors(longer)
  {
    longer := run + more;
    LeadsConcat(s, run, t, more, u);
  }

  lemma LateCallAsksAgain(q: Query, ttlSeconds: int, vector: Vector) returns (t: State)
    requires vector != []
    ensures Leads(Cached(q, ttlSeconds, 0, multiset{q}, vector, Missed), [TryLock(1), TakePermit(1)], t)
    ensures t.shared.requests[q] == 2 && Serves(t.shared, q)
  {
    var s0 := Cached(q, ttlSeconds, 0, multiset{q}, vector, Missed);
    var s1 := Step(s0, TryLock(1));
    t := Step(s1, TakePermit(1));
    assert IsTrace([s0, s1, t], [TryLock(1), TakePermit(1)]);
  }

  lemma HolderStartsCalling(q: Query, ttlSeconds: int) returns (actions: seq<Action>)
    ensures Faultless(actions) && Untimed(actions) && WithoutApiErrors(actions)
    ensures Leads(TwoCalls(q, ttlSeconds), actions,
                  Holding(q, ttlSeconds, 0, PERMITS - 1, multiset{q}, Calling(0, 1), Missed))
  {
    var s1 := Holding(q, ttlSeconds, 0, PERMITS, multiset{}, Waiting(0), Missed);
    var s2 := Holding(q, ttlSeconds, 0, PERMITS - 1, multiset{q}, Calling(0, 1), Missed);
    BothMissOneLocks(q, ttlSeconds);
    OneStep(s1, TakePermit(0));
    actions := Extend(TwoCalls(q, ttlSeconds), [ReadCache(0), ReadCache(1), TryLock(0)], s1, [TakePermit(0)], s2);
  }

  /**
   Two requests for one query in an undisturbed run: a call that missed the cache before the
   first holder wrote it wins the free lock afterwards and asks again, the cache being full.
   */
  lemma SecondRequestWithoutLapse(q: Query, vector: Vector, ttlSeconds: int) returns (actions: seq<Action>)
    requires vector != []
    ensures Faultless(actions) && Untimed(actions) && WithoutApiErrors(actions)
    ensures var s := Exec(TwoCalls(q, ttlSeconds), actions);
            s.shared.requests[q] == 2 && Serves(s.shared, q)
  {
    var s0 := TwoCalls(q, ttlSeconds);
    var s1 := Holding(q, ttlSeconds, 0, PERMITS - 1, multiset{q}, Calling(0, 1), Missed);
    var s2 := Cached(q, ttlSeconds, 0, multiset{q}, vector, Missed);
    actions := HolderStartsCalling(q, ttlSeconds);
    HolderFinishes(q, ttlSeconds, 0, multiset{q}, vector, Missed);
    actions := Extend(s0, actions, s1, [ApiAnswer(0, [vector])] + [WriteCache(0), Release(0)], s2);
    var s3 := LateCallAsksAgain(q, ttlSeconds, vector);
    actions := Extend(s0, actions, s2, [TryLock(1), TakePermit(1)], s3);
    LeadsExec(s0, actions, s3);
  }

  const TOO_MANY_REQUESTS := Retry.ApiError(Some(429), false, Retry.NoHeaders)

  lemma FailedAttempt(q: Query, ttlSeconds: int, now: int, attempt: nat)
    requires 1 <= attempt <= 2
    ensures var wakeAt := now + (if attempt == 1 then 3000 else 9000);
            Step(Holding(q, ttlSeconds, now, PERMITS - 1, multiset{q}, Calling(0, attempt), Missed), ApiError(0, TOO_MANY_REQUESTS))
            == Holding(q, ttlSeconds, now, PERMITS - 1, multiset{q}, BackingOff(0, attempt, wakeAt), Missed)
  {
    assert Retry.Pow(3, 0) == 1 && Retry.Pow(3, 1) == 3 * Retry.Pow(3, 0);
  }

  lemma HolderBacksOffOnce(q: Query, ttlSeconds: int)
    ensures Leads(Holding(q, ttlSeconds, 0, PERMITS, multiset{}, Waiting(0), Missed),
                  [TakePermit(0), ApiError(0, TOO_MANY_REQUESTS), Tick(3000)],
                  Holding(q, ttlSeconds, 3000, PERMITS - 1, multiset{q}, BackingOff(0, 1, 3000), Missed))
  {
    var s0 := Holding(q, ttlSeconds, 0, PERMITS, multiset{}, Waiting(0), Missed);
    var s1 := Holding(q, ttlSeconds, 0, PERMITS - 1, multiset{q}, Calling(0, 1), Missed);
    assert Step(s0, TakePermit(0)) == s1;
    FailedAttempt(q, ttlSeconds, 0, 1);
    var s2 := Step(s1, ApiError(0, TOO_MANY_REQUESTS));
    var s3 := Step(s2, Tick(3000));
    assert IsTrace([s0, s1, s2, s3], [TakePermit(0), ApiError(0, TOO_MANY_REQUESTS), Tick(3000)]);
  }

  lemma HolderBacksOffAgain(q: Query, ttlSeconds: int)
    ensures Leads(Holding(q, ttlSeconds, 3000, PERMITS - 1, multiset{q}, BackingOff(0, 1, 3000), Missed),
                  [RetryCall(0), ApiError(0, TOO_MANY_REQUESTS), Tick(7000)],
                  Holding(q, ttlSeconds, LOCK_TTL_MS, PERMITS - 1, multiset{q}, BackingOff(0, 2, 12000), Missed))
  {
    var s0 := Holding(q, ttlSeconds, 3000, PERMITS - 1, multiset{q}, BackingOff(0, 1, 3000), Missed);
    var s1 := Holding(q, ttlSeconds, 3000, PERMITS - 1, multiset{q}, Calling(0, 2), Missed);
    assert Step(s0, RetryCall(0)) == s1;
    FailedAttempt(q, ttlSeconds, 3000, 2);
    var s2 := Step(s1, ApiError(0, TOO_MANY_REQUESTS));
    var s3 := Step(s2, Tick(7000));
    assert IsTrace([s0, s1, s2, s3], [RetryCall(0), ApiError(0, TOO_MANY_REQUESTS), Tick(7000)]);
  }

  lemma LockChangesHands(q: Query, ttlSeconds: int) returns (t: State)
    ensures Leads(Holding(q, ttlSeconds, LOCK_TTL_MS, PERMITS - 1, multiset{q}, BackingOff(0, 2, 12000), Missed),
                  [TryLock(1), TakePermit(1)], t)
    ensures |t.clients| == 2 && t.clients[0].phase == BackingOff(0, 2, 12000) && t.clients[1].phase == Calling(1, 1)
    ensures t.shared.now == LOCK_TTL_MS
  {
    var s0 := Holding(q, ttlSeconds, LOCK_TTL_MS, PERMITS - 1, multiset{q}, BackingOff(0, 2, 12000), Missed);
    var s1 := Step(s0, TryLock(1));
    t := Step(s1, TakePermit(1));
    assert IsTrace([s0, s1, t], [TryLock(1), TakePermit(1)]);
  }

  /**
   The lock lives ten seconds, two 429 answers make its holder sleep twelve: ten seconds after
   the lock was granted a second call takes it over while the first is still backing off.
   */
  lemma BackoffOutlivesLock(q: Query, ttlSeconds: int) returns (actions: seq<Action>)
    ensures Faultless(actions)
    ensures var s := Exec(TwoCalls(q, ttlSeconds), actions);
            && |s.clients| == 2 && s.clients[0].phase.BackingOff? && s.clients[1].phase.Calling?
            && s.shared.now == LOCK_TTL_MS && s.clients[0].phase.wakeAt == 12000
  {
    var fail := ApiError(0, TOO_MANY_REQUESTS);
    var s0 := TwoCalls(q, ttlSeconds);
    var s1 := Holding(q, ttlSeconds, 0, PERMITS, multiset{}, Waiting(0), Missed);
    var s2 := Holding(q, ttlSeconds, 3000, PERMITS - 1, multiset{q}, BackingOff(0, 1, 3000), Missed);
    var s3 := Holding(q, ttlSeconds, LOCK_TTL_MS, PERMITS - 1, multiset{q}, BackingOff(0, 2, 12000), Missed);
    BothMissOneLocks(q, ttlSeconds);
    HolderBacksOffOnce(q, ttlSeconds);
    actions := Extend(s0, [ReadCache(0), ReadCache(1), TryLock(0)], s1, [TakePermit(0), fail, Tick(3000)], s2);
    HolderBacksOffAgain(q, ttlSeconds);
    actions := Extend(s0, actions, s2, [RetryCall(0), fail, Tick(7000)], s3);
    var s4 := LockChangesHands(q, ttlSeconds);
    actions := Extend(s0, actions, s3, [TryLock(1), TakePermit(1)], s4);
    LeadsExec(s0, actions, s4);
  }

  lemma WaiterSleeps(q: Query, ttlSeconds: int)
    ensures Leads(Holding(q, ttlSeconds, 0, PERMITS, multiset{}, Waiting(0), Missed),
                  [TryLock(1), TakePermit(0), Tick(200)],
                  Holding(q, ttlSeconds, 200, PERMITS - 1, multiset{q}, Calling(0, 1), Sleeping(0, 200)))
  {
    var s0 := Holding(q, ttlSeconds, 0, PERMITS, multiset{}, Waiting(0), Missed);
    var s1 := Holding(q, ttlSeconds, 0, PERMITS, multiset{}, Waiting(0), Sleeping(0, 200));
    var s2 := Holding(q, ttlSeconds, 0, PERMITS - 1, multiset{q}, Calling(0, 1), Sleeping(0, 200));
    var s3 := Holding(q, ttlSeconds, 200, PERMITS - 1, multiset{q}, Calling(0, 1), Sleeping(0, 200));
    assert Step(s0, TryLock(1)) == s1;
    assert Step(s1, TakePermit(0)) == s2;
    assert Step(s2, Tick(200)) == s3;
    assert IsTrace([s0, s1, s2, s3], [TryLock(1), TakePermit(0), Tick(200)]);
  }

  lemma WaiterSeesNothing(q: Query, ttlSeconds: int)
    ensures Leads(Holding(q, ttlSeconds, 200, PERMITS - 1, multiset{q}, Calling(0, 1), Sleeping(0, 200)),
                  [Wake(1), PollCache(1)],
                  Holding(q, ttlSeconds, 200, PERMITS - 1, multiset{q}, Calling(0, 1), Checking(0)))
  {
    var s0 := Holding(q, ttlSeconds, 200, PERMITS - 1, multiset{q}, Calling(0, 1), Sleeping(0, 200));
    var s1 := Step(s0, Wake(1));
    var s2 := Step(s1, PollCache(1));
    assert IsTrace([s0, s1, s2], [Wake(1), PollCache(1)]);
  }

  lemma WaiterReachesItsCheck(q: Query, ttlSeconds: int) returns (actions: seq<Action>)
    ensures Faultless(actions) && WithoutApiErrors(actions)
    ensures Leads(TwoCalls(q, ttlSeconds), actions,
                  Holding(q, ttlSeconds, 200, PERMITS - 1, multiset{q}, Calling(0, 1), Checking(0)))
  {
    var s0 := TwoCalls(q, ttlSeconds);
    var s1 := Holding(q, ttlSeconds, 0, PERMITS, multiset{}, Waiting(0), Missed);
    var s2 := Holding(q, ttlSeconds, 200, PERMITS - 1, multiset{q}, Calling(0, 1), Sleeping(0, 200));
    var s3 := Holding(q, ttlSeconds, 200, PERMITS - 1, multiset{q}, Calling(0, 1), Checking(0));
    BothMissOneLocks(q, ttlSeconds);
    WaiterSleeps(q, ttlSeconds);
    actions := Extend(s0, [ReadCache(0), ReadCache(1), TryLock(0)], s1, [TryLock(1), TakePermit(0), Tick(200)], s2);
    WaiterSeesNothing(q, ttlSeconds);
    actions := Extend(s0, actions, s2, [Wake(1), PollCache(1)], s3);
  }

  lemma WaiterGivesUp(q: Query, ttlSeconds: int, vector: Vector)
    requires vector != []
    ensures Leads(Cached(q, ttlSeconds, 200, multiset{q}, vector, Checking(0)), [PollLock(1)],
                  Cached(q, ttlSeconds, 200, multiset{q}, vector, Done(None)))
    ensures Serves(Cached(q, ttlSeconds, 200, multiset{q}, vector, Done(None)).shared, q)
  {
    OneStep(Cached(q, ttlSeconds, 200, multiset{q}, vector, Checking(0)), PollLock(1));
  }

  /**
   A poll reads the cache first and the lock second: if the holder writes and releases in
   between, the waiter gives up with nothing although the vector is being served.
   */
  lemma WaiterMissesFreshVector(q: Query, vector: Vector, ttlSeconds: int) returns (actions: seq<Action>)
    requires vector != []
    ensures Faultless(actions) && WithoutApiErrors(actions)
    ensures var s := Exec(TwoCalls(q, ttlSeconds), actions);
            |s.clients| == 2 && s.clients[1].phase == Done(None) && Serves(s.shared, q)
            && s.clients[0].phase == Done(Some(vector))
  {
    var s0 := TwoCalls(q, ttlSeconds);
    var s1 := Holding(q, ttlSeconds, 200, PERMITS - 1, multiset{q}, Calling(0, 1), Checking(0));
    var s2 := Cached(q, ttlSeconds, 200, multiset{q}, vector, Checking(0));
    var s3 := Cached(q, ttlSeconds, 200, multiset{q}, vector, Done(None));
    actions := WaiterReachesItsCheck(q, ttlSeconds);
    HolderFinishes(q, ttlSeconds, 200, multiset{q}, vector, Checking(0));
    actions := Extend(s0, actions, s1, [ApiAnswer(0, [vector])] + [WriteCache(0), Release(0)], s2);
    WaiterGivesUp(q, ttlSeconds, vector);
    actions := Extend(s0, actions, s2, [PollLock(1)], s3);
    LeadsExec(s0, actions, s3);
  }
}
