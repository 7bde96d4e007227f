/**
 The embedding cache with its distributed lock, its three permits per process and its polling
 waiters, as a step relation over any number of concurrent calls of embedSearchQuery.

 A call is split at its awaits: every step below is one command answered by Redis, one answer
 of the embedding API, one timer, or the environment (time, eviction, a process crash).
 Step is total: an action that is not enabled changes nothing, so every sequence of actions
 is a run and the theorems quantify over all of them.

 produced, requests, leases, evicted and written are history: they record what has happened
 and no step depends on their contents, except that a lease's index is its lock token. That
 stands for the random lock value, which is fresh at every acquisition.
 */
module EmbeddingProtocol {
  import opened Wrappers
  import opened RedisStore
  import Arrays
  import Retry

  const LOCK_TTL_MS := 10000
  const MAX_POLLS := 25
  const POLL_DELAY_MS := 200
  const PERMITS := 3

  type Query = string
  type Vector = seq<real>

  datatype Key = CacheKey(query: Query) | LockKey(query: Query)

  datatype Value = Stored(vector: Vector) | Token(token: nat)

  datatype Phase =
    | Start                                              // about to read the cache
    | Missed                                             // no cached vector; about to try the lock
    | Waiting(token: nat)                                // holds the lock; wants a permit
    | Calling(token: nat, attempt: nat)                  // permit taken; API attempt in flight
    | BackingOff(token: nat, attempt: nat, wakeAt: int)  // permit kept; sleeps before the next attempt
    | Answered(token: nat, vector: Vector)               // permit returned; about to write the cache
    | Releasing(token: nat, result: Option<Vector>)      // about to release the lock
    | Sleeping(poll: nat, wakeAt: int)                   // lost the lock; sleeps before poll number poll
    | Polling(poll: nat)                                 // about to read the cache again
    | Checking(poll: nat)                                // still nothing; about to look at the lock
    | Done(result: Option<Vector>)
    | Crashed

  datatype Client = Client(process: nat, blank: bool, query: Query, phase: Phase)

  datatype Lease = Lease(query: Query, owner: Option<nat>, deadline: int)

  /** Redis, the clock, the permits of each process, and the history. */
  datatype Shared = Shared(
    db: Db<Key, Value>,
    now: int,
    ttlSeconds: int,
    permits: map<nat, int>,
    produced: set<(Query, Vector)>,
    requests: multiset<Query>,
    leases: seq<Lease>,
    evicted: set<nat>,
    written: map<nat, Option<int>>)

  datatype State = State(shared: Shared, clients: seq<Client>)

  /** What one step of one call does: the new shared part, and where that call stands now. */
  datatype Effect = Effect(shared: Shared, phase: Phase)

  datatype Action =
    | ReadCache(c: nat)
    | TryLock(c: nat)
    | TakePermit(c: nat)
    | ApiAnswer(c: nat, vectors: seq<Vector>)
    | ApiError(c: nat, error: Retry.ApiError)
    | RetryCall(c: nat)
    | WriteCache(c: nat)
    | Release(c: nat)
    | Wake(c: nat)
    | PollCache(c: nat)
    | PollLock(c: nat)
    | RedisError(c: nat, applied: bool)  // a command throws; applied says whether it took effect
    | Tick(ms: nat)
    | Evict(key: Key)
    | Crash(process: nat)

  predicate InSection(p: Phase) {
    p.Waiting? || p.Calling? || p.BackingOff? || p.Answered? || p.Releasing?
  }

  predicate UsesPermit(p: Phase) {
    p.Calling? || p.BackingOff?
  }

  predicate Finished(p: Phase) {
    p.Done? || p.Crashed?
  }

  /** getCache followed by the non-empty-array test. */
  function CachedVector(db: Db<Key, Value>, now: int, query: Query): Option<Vector> {
    match Lookup<Key, Value>(db, now, CacheKey(query))
    case Some(Stored(vector)) => if vector != [] then Some(vector) else None
    case _ => None
  }

  predicate IsClientAction(a: Action) {
    !a.Tick? && !a.Evict? && !a.Crash?
  }

  predicate RedisCommandPending(client: Client) {
    match client.phase
    case Start => !client.blank
    case Missed | Answered(_, _) | Releasing(_, _) | Polling(_) | Checking(_) => true
    case _ => false
  }

  predicate CanFire(sh: Shared, client: Client, a: Action) {
    match a
    case ReadCache(_) => client.phase.Start?
    case TryLock(_) => client.phase.Missed?
    case TakePermit(_) => client.phase.Waiting? && client.process in sh.permits && sh.permits[client.process] > 0
    case ApiAnswer(_, vectors) => client.phase.Calling? && client.process in sh.permits && vectors != []
    case ApiError(_, _) => client.phase.Calling? && client.phase.attempt >= 1 && client.process in sh.permits
    case RetryCall(_) => client.phase.BackingOff? && client.phase.wakeAt <= sh.now
    case WriteCache(_) => client.phase.Answered?
    case Release(_) => client.phase.Releasing?
    case Wake(_) => client.phase.Sleeping? && client.phase.wakeAt <= sh.now
    case PollCache(_) => client.phase.Polling?
    case PollLock(_) => client.phase.Checking?
    case RedisError(_, _) => RedisCommandPending(client)
    case _ => false
  }

  function GrantLease(sh: Shared, query: Query, owner: Option<nat>): Shared {
    sh.(db := SetPx(sh.db, sh.now, LockKey(query), Token(|sh.leases|), LOCK_TTL_MS),
        leases := sh.leases + [Lease(query, owner, sh.now + LOCK_TTL_MS)])
  }

  function StoreVector(sh: Shared, query: Query, token: nat, vector: Vector): Shared {
    sh.(db := SetCache(sh.db, sh.now, CacheKey(query), Stored(vector), sh.ttlSeconds),
        written := sh.written[token := CacheExpiry(sh.now, sh.ttlSeconds)])
  }

  function Unlock(sh: Shared, query: Query, token: nat): Shared {
    sh.(db := CompareAndDelete(sh.db, sh.now, LockKey(query), Token(token)))
  }

  function ChangePermits(sh: Shared, process: nat, delta: int): Shared
    requires process in sh.permits
  {
    sh.(permits := sh.permits[process := sh.permits[process] + delta])
  }

  function Fire(sh: Shared, client: Client, a: Action): Effect
    requires IsClientAction(a) && CanFire(sh, client, a)
  {
    var query := client.query;
    match a
    case ReadCache(_) =>
      if client.blank then Effect(sh, Done(None))
      else (match CachedVector(sh.db, sh.now, query)
            case Some(vector) => Effect(sh, Done(Some(vector)))
            case None => Effect(sh, Missed))
    case TryLock(c) =>
      if Live(sh.db, sh.now, LockKey(query)) then Effect(sh, Sleeping(0, sh.now + POLL_DELAY_MS))
      else Effect(GrantLease(sh, query, Some(c)), Waiting(|sh.leases|))
    case TakePermit(_) =>
      Effect(ChangePermits(sh, client.process, -1).(requests := sh.requests + multiset{query}),
             Calling(client.phase.token, 1))
    case ApiAnswer(_, vectors) =>
      var back := ChangePermits(sh, client.process, 1);
      if vectors[0] == [] then Effect(back, Releasing(client.phase.token, None))
      else Effect(back.(produced := sh.produced + {(query, vectors[0])}), Answered(client.phase.token, vectors[0]))
    case ApiError(_, error) =>
      var attempt := client.phase.attempt;
      if Retry.GivesUp(error, attempt, Retry.EMBEDDING_MAX_RETRIES) then
        Effect(ChangePermits(sh, client.process, 1), Releasing(client.phase.token, None))
      else
        var wakeAt := sh.now + Retry.Delay(error, attempt, Retry.EMBEDDING_BASE_DELAY_MS);
        Effect(sh, BackingOff(client.phase.token, attempt, wakeAt))
    case RetryCall(_) => Effect(sh, Calling(client.phase.token, client.phase.attempt + 1))
    case WriteCache(_) =>
      Effect(StoreVector(sh, query, client.phase.token, client.phase.vector),
             Releasing(client.phase.token, Some(client.phase.vector)))
    case Release(_) => Effect(Unlock(sh, query, client.phase.token), Done(client.phase.result))
    case Wake(_) => Effect(sh, Polling(client.phase.poll))
    case PollCache(_) =>
      (match CachedVector(sh.db, sh.now, query)
       case Some(vector) => Effect(sh, Done(Some(vector)))
       case None => Effect(sh, Checking(client.phase.poll)))
    case PollLock(_) =>
      if !Live(sh.db, sh.now, LockKey(query)) then Effect(sh, Done(None))
      else if client.phase.poll + 1 >= MAX_POLLS then Effect(sh, Done(None))
      else Effect(sh, Sleeping(client.phase.poll + 1, sh.now + POLL_DELAY_MS))
    case RedisError(_, applied) => FireRedisError(sh, client, applied)
  }

  /** A Redis command throws. Inside the locked section the finally block still runs; elsewhere the call ends. */
  function FireRedisError(sh: Shared, client: Client, applied: bool): Effect {
    match client.phase
    case Missed =>
      if applied && !Live(sh.db, sh.now, LockKey(client.query)) then
        Effect(GrantLease(sh, client.query, None), Done(None))
      else Effect(sh, Done(None))
    case Answered(token, vector) =>
      Effect(if applied then StoreVector(sh, client.query, token, vector) else sh, Releasing(token, None))
    case Releasing(token, _) =>
      Effect(if applied then Unlock(sh, client.query, token) else sh, Done(None))
    case _ => Effect(sh, Done(None))
  }

  function FireEvict(sh: Shared, key: Key): Shared {
    sh.(db := sh.db - {key},
        evicted := if key in sh.db && sh.db[key].value.Token? then sh.evicted + {sh.db[key].value.token} else sh.evicted)
  }

  /** A process dies: its calls vanish where they stand, and it comes back with fresh permits. */
  function FireCrash(s: State, process: nat): State {
    State(s.shared.(permits := s.shared.permits[process := PERMITS]),
          seq(|s.clients|, (i: nat) requires i < |s.clients| =>
            if s.clients[i].process == process && !s.clients[i].phase.Done?
            then s.clients[i].(phase := Crashed) else s.clients[i]))
  }

  predicate Enabled(s: State, a: Action) {
    if IsClientAction(a) then a.c < |s.clients| && CanFire(s.shared, s.clients[a.c], a)
    else a.Crash? ==> a.process in s.shared.permits
  }

  function Step(s: State, a: Action): State {
    if !Enabled(s, a) then s
    else if IsClientAction(a) then
      var client := s.clients[a.c];
      var effect := Fire(s.shared, client, a);
      State(effect.shared, s.clients[a.c := client.(phase := effect.phase)])
    else match a
      case Tick(ms) => s.(shared := s.shared.(now := s.shared.now + ms))
      case Evict(key) => s.(shared := FireEvict(s.shared, key))
      case Crash(process) => FireCrash(s, process)
  }

  function Exec(s: State, actions: seq<Action>): State
    decreases |actions|
  {
    if actions == [] then s else Exec(Step(s, actions[0]), actions[1..])
  }

  ghost predicate Init(s: State) {
    && s.shared.db == map[] && s.shared.produced == {} && s.shared.requests == multiset{}
    && s.shared.leases == [] && s.shared.evicted == {} && s.shared.written == map[]
    && (forall c :: 0 <= c < |s.clients| ==> s.clients[c].phase == Start && s.clients[c].process in s.shared.permits)
    && (forall p :: p in s.shared.permits ==> s.shared.permits[p] == PERMITS)
  }

  // ---------------------------------------------------------------- Invariants

  predicate HoldsEntry(sh: Shared, query: Query, token: nat) {
    LockKey(query) in sh.db && sh.db[LockKey(query)].value == Token(token)
  }

  /** A lease whose time is up or whose key was evicted no longer protects its owner. */
  predicate Lost(sh: Shared, token: nat) {
    token >= |sh.leases| || sh.leases[token].deadline <= sh.now || token in sh.evicted
  }

  ghost predicate Genuine(sh: Shared, query: Query, vector: Vector) {
    vector != [] && (query, vector) in sh.produced
  }

  /** A call's lock token is its own lease. */
  predicate TokenOwned(sh: Shared, c: nat, client: Client) {
    InSection(client.phase) ==>
      var t := client.phase.token;
      t < |sh.leases| && sh.leases[t].owner == Some(c) && sh.leases[t].query == client.query
  }

  /** A call in the locked section still owns the lock entry, or its lease is lost. */
  predicate EntryKept(sh: Shared, client: Client) {
    InSection(client.phase) && client.phase.token < |sh.leases| ==>
      HoldsEntry(sh, client.query, client.phase.token) || Lost(sh, client.phase.token)
  }

  /** Any later lease for the same query was granted after this call's own lease was lost. */
  ghost predicate LaterOnlyAfterLoss(sh: Shared, client: Client) {
    InSection(client.phase) && client.phase.token < |sh.leases| ==>
      var t := client.phase.token;
      forall later :: t < later < |sh.leases| && sh.leases[later].query == client.query ==>
        sh.leases[t].deadline + LOCK_TTL_MS <= sh.leases[later].deadline || t in sh.evicted
  }

  /** A vector in a call's hands, or returned by it, came from the API for that call's query. */
  ghost predicate VectorGenuine(sh: Shared, client: Client) {
    match client.phase
    case Answered(_, vector) => Genuine(sh, client.query, vector)
    case Releasing(_, Some(vector)) => Genuine(sh, client.query, vector)
    case Done(Some(vector)) => Genuine(sh, client.query, vector)
    case _ => true
  }

  predicate CountersInRange(client: Client) {
    match client.phase
    case Calling(_, attempt) => 1 <= attempt <= Retry.EMBEDDING_MAX_RETRIES
    case BackingOff(_, attempt, _) => 1 <= attempt < Retry.EMBEDDING_MAX_RETRIES
    case Sleeping(poll, _) => poll < MAX_POLLS
    case Polling(poll) => poll < MAX_POLLS
    case Checking(poll) => poll < MAX_POLLS
    case _ => true
  }

  ghost predicate ClientInv(sh: Shared, c: nat, client: Client) {
    && TokenOwned(sh, c, client) && EntryKept(sh, client) && LaterOnlyAfterLoss(sh, client)
    && VectorGenuine(sh, client) && CountersInRange(client)
    && client.process in sh.permits
  }

  /** Lock entries record granted leases; cache entries hold genuine vectors. */
  ghost predicate SharedInv(sh: Shared) {
    && (forall q :: LockKey(q) in sh.db ==>
          && sh.db[LockKey(q)].value.Token?
          && var t := sh.db[LockKey(q)].value.token;
             t < |sh.leases| && sh.leases[t].query == q && sh.db[LockKey(q)].expireAt == Some(sh.leases[t].deadline))
    && (forall q :: CacheKey(q) in sh.db ==>
          sh.db[CacheKey(q)].value.Stored? && Genuine(sh, q, sh.db[CacheKey(q)].value.vector))
    && (forall t :: t in sh.evicted ==> t < |sh.leases|)
  }

  ghost function Busy(s: State, process: nat): set<nat> {
    set c: nat | c < |s.clients| && s.clients[c].process == process && UsesPermit(s.clients[c].phase)
  }

  ghost predicate PermitsConserved(s: State) {
    forall p :: p in s.shared.permits ==> s.shared.permits[p] >= 0 && s.shared.permits[p] + |Busy(s, p)| == PERMITS
  }

  ghost predicate Inv(s: State) {
    && SharedInv(s.shared)
    && (forall c :: 0 <= c < |s.clients| ==> ClientInv(s.shared, c, s.clients[c]))
    && PermitsConserved(s)
  }

  lemma InitInv(s: State)
    requires Init(s)
    ensures Inv(s)
  {
    forall p | p in s.shared.permits ensures |Busy(s, p)| == 0 {
      assert Busy(s, p) == {};
    }
  }

  lemma RedisErrorKeepsShared(sh: Shared, c: nat, client: Client, applied: bool)
    requires SharedInv(sh) && ClientInv(sh, c, client) && RedisCommandPending(client)
    ensures SharedInv(FireRedisError(sh, client, applied).shared)
  {
  }

  lemma FireKeepsShared(sh: Shared, c: nat, client: Client, a: Action)
    requires SharedInv(sh) && ClientInv(sh, c, client)
    requires IsClientAction(a) && a.c == c && CanFire(sh, client, a)
    ensures SharedInv(Fire(sh, client, a).shared)
  {
    if a.RedisError? { RedisErrorKeepsShared(sh, c, client, a.applied); }
  }

  /** The actions by which a call that lost, or has not tried, the lock moves on. */
  predicate IsWaiterAction(a: Action) {
    a.ReadCache? || a.Wake? || a.PollCache? || a.PollLock?
  }

  lemma WaiterActionKeepsActor(sh: Shared, c: nat, client: Client, a: Action)
    requires SharedInv(sh) && ClientInv(sh, c, client)
    requires IsWaiterAction(a) && a.c == c && CanFire(sh, client, a)
    ensures var effect := Fire(sh, client, a);
            ClientInv(effect.shared, c, client.(phase := effect.phase))
  {
  }

  lemma HolderActionKeepsActor(sh: Shared, c: nat, client: Client, a: Action)
    requires SharedInv(sh) && ClientInv(sh, c, client)
    requires IsClientAction(a) && !IsWaiterAction(a) && !a.RedisError? && a.c == c && CanFire(sh, client, a)
    ensures var effect := Fire(sh, client, a);
            ClientInv(effect.shared, c, client.(phase := effect.phase))
  {
  }

  lemma RedisErrorKeepsActor(sh: Shared, c: nat, client: Client, applied: bool)
    requires SharedInv(sh) && ClientInv(sh, c, client) && RedisCommandPending(client)
    ensures var effect := FireRedisError(sh, client, applied);
            ClientInv(effect.shared, c, client.(phase := effect.phase))
  {
  }

  lemma FireKeepsActor(sh: Shared, c: nat, client: Client, a: Action)
    requires SharedInv(sh) && ClientInv(sh, c, client)
    requires IsClientAction(a) && a.c == c && CanFire(sh, client, a)
    ensures var effect := Fire(sh, client, a);
            ClientInv(effect.shared, c, client.(phase := effect.phase))
  {
    if a.RedisError? {
      RedisErrorKeepsActor(sh, c, client, a.applied);
    } else if IsWaiterAction(a) {
      WaiterActionKeepsActor(sh, c, client, a);
    } else {
      HolderActionKeepsActor(sh, c, client, a);
    }
  }

  lemma RedisErrorKeepsOthers(sh: Shared, c: nat, client: Client, applied: bool, d: nat, other: Client)
    requires SharedInv(sh) && ClientInv(sh, c, client) && ClientInv(sh, d, other) && c != d
    requires RedisCommandPending(client)
    ensures ClientInv(FireRedisError(sh, client, applied).shared, d, other)
  {
  }

  lemma FireKeepsOthers(sh: Shared, c: nat, client: Client, a: Action, d: nat, other: Client)
    requires SharedInv(sh) && ClientInv(sh, c, client) && ClientInv(sh, d, other) && c != d
    requires IsClientAction(a) && a.c == c && CanFire(sh, client, a)
    ensures ClientInv(Fire(sh, client, a).shared, d, other)
  {
    if a.RedisError? { RedisErrorKeepsOthers(sh, c, client, a.applied, d, other); }
  }

  lemma FireMovesOnePermit(sh: Shared, client: Client, a: Action)
    requires client.process in sh.permits
    requires IsClientAction(a) && CanFire(sh, client, a)
    ensures var effect := Fire(sh, client, a);
            && effect.shared.permits.Keys == sh.permits.Keys
            && (forall p :: p in sh.permits && p != client.process ==> effect.shared.permits[p] == sh.permits[p])
            && effect.shared.permits[client.process] + (if UsesPermit(effect.phase) then 1 else 0)
               == sh.permits[client.process] + (if UsesPermit(client.phase) then 1 else 0)
            && (sh.permits[client.process] >= 0 ==> effect.shared.permits[client.process] >= 0)
  {
  }

  lemma BusyAfterMove(s: State, c: nat, phase: Phase, shared: Shared, p: nat)
    requires c < |s.clients|
    ensures var s' := State(shared, s.clients[c := s.clients[c].(phase := phase)]);
            var counts := if s.clients[c].process == p then 1 else 0;
            |Busy(s', p)| + (if UsesPermit(s.clients[c].phase) then counts else 0)
            == |Busy(s, p)| + (if UsesPermit(phase) then counts else 0)
  {
    var s' := State(shared, s.clients[c := s.clients[c].(phase := phase)]);
    assert Busy(s, p) - {c} == Busy(s', p) - {c};
    Arrays.OneMemberMoves(Busy(s, p), Busy(s', p), c);
  }

  lemma StepKeepsPermits(s: State, a: Action)
    requires Inv(s) && IsClientAction(a) && Enabled(s, a)
    ensures PermitsConserved(Step(s, a))
  {
    var client := s.clients[a.c];
    var effect := Fire(s.shared, client, a);
    assert ClientInv(s.shared, a.c, client);
    FireMovesOnePermit(s.shared, client, a);
    forall p | p in effect.shared.permits
      ensures effect.shared.permits[p] >= 0 && effect.shared.permits[p] + |Busy(Step(s, a), p)| == PERMITS
    {
      BusyAfterMove(s, a.c, effect.phase, effect.shared, p);
    }
  }

  lemma EvictionKeepsShared(sh: Shared, key: Key)
    requires SharedInv(sh)
    ensures SharedInv(FireEvict(sh, key))
  {
    assert key == LockKey(key.query) || key == CacheKey(key.query);
  }

  lemma EvictionKeepsClient(sh: Shared, key: Key, c: nat, client: Client)
    requires SharedInv(sh) && ClientInv(sh, c, client)
    ensures ClientInv(FireEvict(sh, key), c, client)
  {
  }

  lemma EnvironmentKeepsPermits(s: State, a: Action)
    requires Inv(s) && !IsClientAction(a)
    ensures PermitsConserved(Step(s, a))
  {
    var s' := Step(s, a);
    forall p | p in s'.shared.permits
      ensures s'.shared.permits[p] >= 0 && s'.shared.permits[p] + |Busy(s', p)| == PERMITS
    {
      if a.Crash? && Enabled(s, a) && p == a.process {
        assert Busy(s', p) == {};
      } else {
        assert Busy(s', p) == Busy(s, p);
      }
    }
  }

  lemma EnvironmentKeepsInv(s: State, a: Action)
    requires Inv(s) && !IsClientAction(a)
    ensures Inv(Step(s, a))
  {
    EnvironmentKeepsPermits(s, a);
    var s' := Step(s, a);
    if a.Evict? { EvictionKeepsShared(s.shared, a.key); }
    forall c | 0 <= c < |s'.clients| ensures ClientInv(s'.shared, c, s'.clients[c]) {
      assert ClientInv(s.shared, c, s.clients[c]);
      if a.Evict? { EvictionKeepsClient(s.shared, a.key, c, s.clients[c]); }
    }
  }

  lemma StepKeepsInv(s: State, a: Action)
    requires Inv(s)
    ensures Inv(Step(s, a))
  {
    if !IsClientAction(a) {
      EnvironmentKeepsInv(s, a);
    } else if Enabled(s, a) {
      var s' := Step(s, a);
      var client := s.clients[a.c];
      FireKeepsShared(s.shared, a.c, client, a);
      FireKeepsActor(s.shared, a.c, client, a);
      StepKeepsPermits(s, a);
      forall d | 0 <= d < |s'.clients| ensures ClientInv(s'.shared, d, s'.clients[d]) {
        if d != a.c { FireKeepsOthers(s.shared, a.c, client, a, d, s.clients[d]); }
      }
    }
  }

  lemma {:induction false} ExecKeepsInv(s: State, actions: seq<Action>)
    requires Inv(s)
    ensures Inv(Exec(s, actions))
    decreases |actions|
  {
    if actions != [] {
      StepKeepsInv(s, actions[0]);
      ExecKeepsInv(Step(s, actions[0]), actions[1..]);
    }
  }

  ghost predicate Reachable(s: State) {
    exists init, actions :: Init(init) && s == Exec(init, actions)
  }

  lemma ReachableInv(s: State)
    requires Reachable(s)
    ensures Inv(s)
  {
    var init, actions :| Init(init) && s == Exec(init, actions);
    InitInv(init);
    ExecKeepsInv(init, actions);
  }
}
