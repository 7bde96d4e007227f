/**
 embedSearchQuery and waitForCache as structured code: nested try/catch/finally, the retry loop and
 the polling loop, running among arbitrary other calls. Every await lets the environment act first;
 any Redis command may throw. The code is proved to perform exactly the steps of the protocol model,
 so what is proved of that model's runs is proved of this code.
 */
module EmbeddingCode {
  import opened Wrappers
  import opened RedisStore
  import opened EmbeddingProtocol
  import Retry

  /**
   What happens from outside: others' steps at the n-th await, the n-th command's fault, API attempts;
   and how many awaits long a call in want of a permit is watched.
   */
  datatype Env = Env(
    others: nat -> seq<Action>,
    fault: nat -> Option<bool>,
    patience: nat,
    attempts: nat -> Retry.Attempt<seq<Vector>>)

  /** An action that is not this call's own and does not kill its process. */
  predicate Foreign(c: nat, process: nat, a: Action) {
    && (IsClientAction(a) ==> a.c != c)
    && (a.Crash? ==> a.process != process)
  }

  predicate AllForeign(c: nat, process: nat, actions: seq<Action>) {
    forall a | a in actions :: Foreign(c, process, a)
  }

  lemma ForeignStepLeaves(s: State, c: nat, a: Action)
    requires c < |s.clients| && s.clients[c].process in s.shared.permits
    requires Foreign(c, s.clients[c].process, a)
    ensures c < |Step(s, a).clients| && Step(s, a).clients[c] == s.clients[c]
    ensures s.clients[c].process in Step(s, a).shared.permits
  {
  }

  lemma {:induction false} ForeignRunLeaves(s: State, c: nat, actions: seq<Action>)
    requires c < |s.clients| && s.clients[c].process in s.shared.permits
    requires AllForeign(c, s.clients[c].process, actions)
    ensures c < |Exec(s, actions).clients| && Exec(s, actions).clients[c] == s.clients[c]
    ensures s.clients[c].process in Exec(s, actions).shared.permits
    decreases |actions|
  {
    if actions != [] {
      ForeignStepLeaves(s, c, actions[0]);
      ForeignRunLeaves(Step(s, actions[0]), c, actions[1..]);
    }
  }

  lemma {:induction false} ExecConcat(s: State, a: seq<Action>, b: seq<Action>)
    ensures Exec(s, a + b) == Exec(Exec(s, a), b)
    decreases |a|
  {
    if a == [] {
      assert a + b == b;
    } else {
      assert (a + b)[1..] == a[1..] + b;
      ExecConcat(Step(s, a[0]), a[1..], b);
    }
  }

  lemma ExecOne(s: State, a: Action)
    ensures Exec(s, [a]) == Step(s, a)
  {
    assert [a][1..] == [];
  }

  /** Where a call stands after one of its Redis commands threw. */
  ghost predicate FailedFrom(before: Client, after: Client) {
    exists sh, applied ::
      && after == before.(phase := after.phase)
      && after.phase == FireRedisError(sh, before, applied).phase
  }

  class AiService {
    const env: Env
    const c: nat
    const process: nat
    var turn: nat
    var world: State
    ghost const origin: State
    ghost var trace: seq<Action>

    /** So far this is a run of the protocol from the origin, and this call is one of its calls. */
    ghost predicate Valid()
      reads this
    {
      && world == Exec(origin, trace)
      && c < |world.clients| && world.clients[c].process == process && process in world.shared.permits
      && (forall k :: AllForeign(c, process, env.others(k)))
    }

    function Phase(): Phase
      requires c < |world.clients|
      reads this
    {
      world.clients[c].phase
    }

    function Query(): Query
      requires c < |world.clients|
      reads this
    {
      world.clients[c].query
    }

    constructor (env: Env, c: nat, world: State)
      requires c < |world.clients| && world.clients[c].process in world.shared.permits
      requires forall k :: AllForeign(c, world.clients[c].process, env.others(k))
      ensures Valid() && this.c == c && this.world == world && origin == world && trace == []
    {
      this.env, this.c, this.process, this.world := env, c, world.clients[c].process, world;
      turn := 0;
      origin, trace := world, [];
    }

    /** Others run at an await. */
    method Await()
      requires Valid()
      modifies this
      ensures Valid() && world.clients[c] == old(world.clients[c])
    {
      ForeignRunLeaves(world, c, env.others(turn));
      ExecConcat(origin, trace, env.others(turn));
      world := Exec(world, env.others(turn));
      trace := trace + env.others(turn);
      turn := turn + 1;
    }

    /** One enabled step of this call. */
    method Do(a: Action)
      requires Valid() && Enabled(world, a) && IsClientAction(a) && a.c == c
      modifies this
      ensures Valid() && world == Step(old(world), a)
      ensures world.clients[c] == old(world.clients[c]).(phase := Fire(old(world.shared), old(world.clients[c]), a).phase)
    {
      FireMovesOnePermit(world.shared, world.clients[c], a);
      ExecConcat(origin, trace, [a]);
      ExecOne(world, a);
      world := Step(world, a);
      trace := trace + [a];
    }

    /** A timer: time passes until it is due. */
    method Sleep(until: int)
      requires Valid()
      modifies this
      ensures Valid() && world.clients[c] == old(world.clients[c]) && until <= world.shared.now
    {
      var a := Tick(if until > world.shared.now then until - world.shared.now else 0);
      ForeignStepLeaves(world, c, a);
      ExecConcat(origin, trace, [a]);
      ExecOne(world, a);
      world := Step(world, a);
      trace := trace + [a];
    }

    /** A Redis command that throws. */
    method Throws() returns (threw: bool)
      requires Valid() && RedisCommandPending(world.clients[c])
      modifies this
      ensures Valid()
      ensures !threw ==> world.clients[c] == old(world.clients[c])
      ensures threw ==> FailedFrom(old(world.clients[c]), world.clients[c])
    {
      Await();
      threw := env.fault(turn).Some?;
      if threw {
        ghost var sh, client, applied := world.shared, world.clients[c], env.fault(turn).value;
        Do(RedisError(c, env.fault(turn).value));
        assert world.clients[c].phase == FireRedisError(sh, client, applied).phase;
      }
    }

    /** The call: null for a blank query, on any failure and on giving up; it never throws. */
    method EmbedSearchQuery() returns (result: Option<Vector>, blocked: bool)
      requires Valid() && Phase() == Start
      modifies this
      ensures Valid()
      ensures blocked ==> Phase().Waiting? && world.shared.permits[process] <= 0
      ensures !blocked ==> Phase() == Done(result)
    {
      result, blocked := None, false;
      if world.clients[c].blank {
        Do(ReadCache(c));
        return;
      }
      var threw := Throws();
      if threw { return; }
      var cached := CachedVector(world.shared.db, world.shared.now, Query());
      Do(ReadCache(c));
      if cached.Some? { return cached, false; }

      threw := Throws();
      if threw { return; }
      var acquired := !Live(world.shared.db, world.shared.now, LockKey(Query()));
      Do(TryLock(c));
      if !acquired {
        result := WaitForCache();
        return;
      }

      // try
      var value;
      value, blocked := ProduceVector();
      if blocked { return; }
      // finally: the release may itself throw, and then the outer catch answers null
      threw := Throws();
      if threw { return; }
      Do(Release(c));
      result := value;
    }

    /** The body of the inner try: the embedding, inside the semaphore and with retries, then the cache write. */
    method ProduceVector() returns (value: Option<Vector>, blocked: bool)
      requires Valid() && Phase().Waiting?
      modifies this
      ensures Valid()
      ensures blocked ==> Phase().Waiting? && world.shared.permits[process] <= 0
      ensures !blocked ==> Phase() == Releasing(old(Phase().token), value)
    {
      value, blocked := None, false;
      Await();
      var waited := 0;
      while world.shared.permits[process] <= 0
        invariant Valid() && Phase().Waiting? && Phase().token == old(Phase().token)
        invariant waited <= env.patience
        decreases env.patience - waited
      {
        if waited == env.patience { return None, true; }
        Await();
        waited := waited + 1;
      }
      Do(TakePermit(c));
      var vector := VectorEmbeddingWithAi();
      if vector.None? || vector.value == [] { return; }
      var threw := Throws();
      if threw { return; }
      Do(WriteCache(c));
      value := vector;
    }

    /** The retry loop: at most three attempts; an empty answer counts as an error without a status. */
    method VectorEmbeddingWithAi() returns (vector: Option<Vector>)
      requires Valid() && Phase().Calling? && Phase().attempt == 1
      modifies this
      ensures Valid()
      ensures vector.Some? && vector.value != [] ==> Phase() == Answered(old(Phase().token), vector.value)
      ensures vector.None? || vector.value == [] ==> Phase() == Releasing(old(Phase().token), None)
    {
      ghost var token := Phase().token;
      var attempt := 1;
      while true
        invariant Valid() && 1 <= attempt <= Retry.EMBEDDING_MAX_RETRIES && Phase() == Calling(token, attempt)
        decreases Retry.EMBEDDING_MAX_RETRIES - attempt
      {
        Await();
        var error := Retry.ApiError(None, false, Retry.NoHeaders);
        match env.attempts(attempt) {
          case Answer(vectors) =>
            if vectors != [] {
              Do(ApiAnswer(c, vectors));
              return Some(vectors[0]);
            }
          case Failure(e) =>
            error := e;
        }
        var givesUp := AfterFailure(error);
        if givesUp { return None; }
        attempt := attempt + 1;
      }
    }

    /** After a failed attempt: give up with the permit returned, or sleep and try once more. */
    method AfterFailure(error: Retry.ApiError) returns (givesUp: bool)
      requires Valid() && Phase().Calling? && 1 <= Phase().attempt <= Retry.EMBEDDING_MAX_RETRIES
      modifies this
      ensures Valid()
      ensures givesUp == Retry.GivesUp(error, old(Phase().attempt), Retry.EMBEDDING_MAX_RETRIES)
      ensures givesUp ==> Phase() == Releasing(old(Phase().token), None)
      ensures !givesUp ==> Phase() == Calling(old(Phase().token), old(Phase().attempt) + 1)
    {
      givesUp := Retry.GivesUp(error, Phase().attempt, Retry.EMBEDDING_MAX_RETRIES);
      Do(ApiError(c, error));
      if givesUp { return; }
      Await();
      Sleep(Phase().wakeAt);
      Do(RetryCall(c));
    }

    /** At most 25 polls, each after a pause: the cached vector, or null once the lock is gone. */
    method WaitForCache() returns (result: Option<Vector>)
      requires Valid() && Phase().Sleeping? && Phase().poll == 0
      modifies this
      ensures Valid() && Phase() == Done(result)
    {
      var i := 0;
      while i < MAX_POLLS
        invariant Valid() && i <= MAX_POLLS
        invariant if i < MAX_POLLS then Phase().Sleeping? && Phase().poll == i else Phase() == Done(None)
      {
        Await();
        Sleep(Phase().wakeAt);
        Do(Wake(c));
        var threw := Throws();
        if threw { return None; }
        var cached := CachedVector(world.shared.db, world.shared.now, Query());
        Do(PollCache(c));
        if cached.Some? { return cached; }
        threw := Throws();
        if threw { return None; }
        var lockExists := Live(world.shared.db, world.shared.now, LockKey(Query()));
        Do(PollLock(c));
        if !lockExists { return None; }
        i := i + 1;
      }
      return None;
    }

    /** What the code returns in a run from the start is a non-empty vector of the API for this query. */
    lemma AnswerIsGenuine(vector: Vector)
      requires Valid() && Init(origin) && Phase() == Done(Some(vector))
      ensures vector != [] && (Query(), vector) in world.shared.produced
    {
      assert Reachable(world);
      ReachableInv(world);
      assert ClientInv(world.shared, c, world.clients[c]);
    }
  }
}
