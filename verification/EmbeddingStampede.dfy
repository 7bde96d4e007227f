/**
 How many embedding requests a burst of identical queries can cause, and what a waiter may
 conclude when it finds the lock gone.
 */
module EmbeddingStampede {
  import opened Wrappers
  import opened RedisStore
  import opened EmbeddingProtocol
  import Arrays

  predicate Serves(sh: Shared, q: Query) {
    CachedVector(sh.db, sh.now, q).Some?
  }

  /** Neither eviction nor expiry takes q's cached vector away during the run. */
  predicate StaysCached(s: State, actions: seq<Action>, q: Query)
    decreases |actions|
  {
    Serves(s.shared, q) && (actions != [] ==> StaysCached(Step(s, actions[0]), actions[1..], q))
  }

  predicate IsMissed(s: State, q: Query, c: nat) {
    c < |s.clients| && s.clients[c].query == q && s.clients[c].phase.Missed?
  }

  predicate IsWorking(s: State, q: Query, c: nat) {
    c < |s.clients| && s.clients[c].query == q && InSection(s.clients[c].phase)
  }

  /** Calls that may still ask the API: their missing cache read lies behind them, their request does not. */
  ghost function MayRequest(s: State, q: Query): set<nat> {
    set c: nat | c < |s.clients| && s.clients[c].query == q && (s.clients[c].phase.Missed? || s.clients[c].phase.Waiting?)
  }

  /** What one call's step may do to q: the only ways into the section, a missed read, produced and requests. */
  lemma FireEffects(sh: Shared, client: Client, a: Action)
    requires IsClientAction(a) && CanFire(sh, client, a)
    ensures var effect := Fire(sh, client, a);
            && (InSection(effect.phase) && !InSection(client.phase) ==>
                  a.TryLock? && client.phase.Missed? && !Live(sh.db, sh.now, LockKey(client.query))
                  && effect.phase == Waiting(|sh.leases|)
                  && effect.shared.leases == sh.leases + [Lease(client.query, Some(a.c), sh.now + LOCK_TTL_MS)])
            && (effect.phase.Missed? ==> a.ReadCache? && !Serves(sh, client.query))
            && (effect.shared.produced == sh.produced
                || (a.ApiAnswer? && client.phase.Calling? && effect.phase.Answered?
                    && effect.shared.produced == sh.produced + {(client.query, effect.phase.vector)}))
            && effect.shared.requests == (if a.TakePermit? then sh.requests + multiset{client.query} else sh.requests)
            && sh.leases <= effect.shared.leases
            && (forall t :: |sh.leases| <= t < |effect.shared.leases| && effect.shared.leases[t].owner.Some? ==>
                  effect.shared.leases[t] == Lease(client.query, Some(a.c), sh.now + LOCK_TTL_MS)
                  && client.phase.Missed?)
            && (effect.phase.Waiting? ==> client.phase.Missed?)
            && (a.TakePermit? ==> client.phase.Waiting? && effect.phase.Calling?)
  {
  }

  lemma FrameOfStep(s: State, a: Action, q: Query)
    ensures var s' := Step(s, a);
            && |s'.clients| == |s.clients|
            && (forall c: nat :: c < |s.clients| && (IsClientAction(a) ==> c != a.c) ==>
                  s'.clients[c] == s.clients[c]
                  || (a.Crash? && s'.clients[c] == s.clients[c].(phase := Crashed)))
            && (forall c: nat :: IsWorking(s', q, c) && (IsClientAction(a) ==> c != a.c) ==> IsWorking(s, q, c))
            && (forall c: nat :: IsMissed(s', q, c) && (IsClientAction(a) ==> c != a.c) ==> IsMissed(s, q, c))
            && (!(IsClientAction(a) && Enabled(s, a)) ==>
                  && s'.shared.leases == s.shared.leases && s'.shared.produced == s.shared.produced
                  && s'.shared.requests == s.shared.requests)
  {
  }

  lemma ContendersShrink(s: State, a: Action, q: Query)
    requires Serves(s.shared, q)
    ensures var s' := Step(s, a);
            s'.shared.requests[q] + |MayRequest(s', q)| <= s.shared.requests[q] + |MayRequest(s, q)|
  {
    var s' := Step(s, a);
    FrameOfStep(s, a, q);
    if IsClientAction(a) && Enabled(s, a) {
      ClientContends(s, a, q);
    } else {
      assert MayRequest(s', q) <= MayRequest(s, q);
      Arrays.SubsetSize(MayRequest(s', q), MayRequest(s, q));
    }
  }

  lemma ClientContends(s: State, a: Action, q: Query)
    requires Serves(s.shared, q) && IsClientAction(a) && Enabled(s, a)
    ensures var s' := Step(s, a);
            s'.shared.requests[q] + |MayRequest(s', q)| <= s.shared.requests[q] + |MayRequest(s, q)|
  {
    var s', client := Step(s, a), s.clients[a.c];
    var before, after := MayRequest(s, q), MayRequest(s', q);
    assert before - {a.c} == after - {a.c};
    Arrays.OneMemberMoves(before, after, a.c);
    FireEffects(s.shared, client, a);
    assert s'.shared.requests == if a.TakePermit? then s.shared.requests + multiset{client.query} else s.shared.requests;
    assert a.c in after ==> a.c in before && !a.TakePermit?;
  }

  /** While q is cached, one step brings no call into contention, and a request uses up a contender. */
  lemma CachedStep(s: State, a: Action, q: Query)
    requires Serves(s.shared, q)
    ensures var s' := Step(s, a);
            && |s'.clients| == |s.clients|
            && (forall c: nat :: IsMissed(s', q, c) ==> IsMissed(s, q, c))
            && (forall c: nat :: IsWorking(s', q, c) ==> IsWorking(s, q, c) || IsMissed(s, q, c))
            && s.shared.leases <= s'.shared.leases
            && (forall t :: |s.shared.leases| <= t < |s'.shared.leases| && s'.shared.leases[t].query == q
                            && s'.shared.leases[t].owner.Some? ==>
                  IsMissed(s, q, s'.shared.leases[t].owner.value))
  {
    FrameOfStep(s, a, q);
    if IsClientAction(a) && Enabled(s, a) {
      FireEffects(s.shared, s.clients[a.c], a);
    }
  }

  /**
   Once a vector is cached, and as long as it is neither evicted nor expired: only calls whose
   missing cache read came before can still win the lock or be at work, and the number of
   further embedding requests is at most the number of such calls that have not asked yet.
   */
  lemma {:induction false} StampedeBound(s: State, actions: seq<Action>, q: Query)
    requires StaysCached(s, actions, q)
    ensures var s' := Exec(s, actions);
            && (forall c: nat :: IsMissed(s', q, c) ==> IsMissed(s, q, c))
            && (forall c: nat :: IsWorking(s', q, c) ==> IsWorking(s, q, c) || IsMissed(s, q, c))
            && s.shared.leases <= s'.shared.leases
            && (forall t :: |s.shared.leases| <= t < |s'.shared.leases| && s'.shared.leases[t].query == q
                            && s'.shared.leases[t].owner.Some? ==>
                  IsMissed(s, q, s'.shared.leases[t].owner.value))
            && s'.shared.requests[q] + |MayRequest(s', q)| <= s.shared.requests[q] + |MayRequest(s, q)|
    decreases |actions|
  {
    if actions != [] {
      CachedStep(s, actions[0], q);
      ContendersShrink(s, actions[0], q);
      StampedeBound(Step(s, actions[0]), actions[1..], q);
    }
  }

  predicate WonAgain(s: State, s': State, q: Query) {
    exists t :: |s.shared.leases| <= t < |s'.shared.leases| && s'.shared.leases[t].query == q
                && s'.shared.leases[t].owner.Some?
  }

  /**
   Exactly when a cached query's lock can still be won: the lock is free and some call read the
   cache before the vector was written. Nothing re-reads the cache after winning the lock.
   */
  lemma SecondWinIff(s: State, q: Query)
    requires Serves(s.shared, q) && !Live(s.shared.db, s.shared.now, LockKey(q))
    ensures (exists actions :: StaysCached(s, actions, q) && WonAgain(s, Exec(s, actions), q))
            <==> (exists c: nat :: IsMissed(s, q, c))
  {
    if actions :| StaysCached(s, actions, q) && WonAgain(s, Exec(s, actions), q) {
      StampedeBound(s, actions, q);
      var s' := Exec(s, actions);
      var t :| |s.shared.leases| <= t < |s'.shared.leases| && s'.shared.leases[t].query == q
               && s'.shared.leases[t].owner.Some?;
      assert IsMissed(s, q, s'.shared.leases[t].owner.value);
    }
    if c: nat :| IsMissed(s, q, c) {
      var s' := Step(s, TryLock(c));
      assert Exec(s, [TryLock(c)]) == Exec(s', []) == s';
      assert s'.shared.leases[|s.shared.leases|] == Lease(q, Some(c), s.shared.now + LOCK_TTL_MS);
      assert StaysCached(s', [], q);
      assert StaysCached(s, [TryLock(c)], q);
      assert WonAgain(s, s', q);
    }
  }

  /** Some run in which q stays cached sends another embedding request for it. */
  ghost predicate MayAskAgain(s: State, q: Query) {
    exists actions :: StaysCached(s, actions, q) && Exec(s, actions).shared.requests[q] > s.shared.requests[q]
  }

  lemma ContenderAsks(s: State, q: Query, c: nat)
    requires Inv(s) && Serves(s.shared, q) && !Live(s.shared.db, s.shared.now, LockKey(q))
    requires c in MayRequest(s, q) && s.clients[c].process in s.shared.permits && s.shared.permits[s.clients[c].process] > 0
    ensures MayAskAgain(s, q)
  {
    if s.clients[c].phase.Waiting? {
      WaitingCallAsks(s, q, c);
      var s' := Step(s, TakePermit(c));
      assert Exec(s, [TakePermit(c)]) == Exec(s', []) == s';
      assert StaysCached(s', [], q);
      assert StaysCached(s, [TakePermit(c)], q);
    } else {
      var s1 := Step(s, TryLock(c));
      assert s1.clients[c] == s.clients[c].(phase := Waiting(|s.shared.leases|));
      WaitingCallAsks(s1, q, c);
      var s2 := Step(s1, TakePermit(c));
      assert Exec(s, [TryLock(c), TakePermit(c)]) == Exec(s1, [TakePermit(c)]) == Exec(s2, []) == s2 by {
        assert [TryLock(c), TakePermit(c)][1..] == [TakePermit(c)];
      }
      assert StaysCached(s2, [], q);
      assert StaysCached(s1, [TakePermit(c)], q);
      assert StaysCached(s, [TryLock(c), TakePermit(c)], q) by {
        assert [TryLock(c), TakePermit(c)][1..] == [TakePermit(c)];
      }
    }
  }

  lemma WaitingCallAsks(s: State, q: Query, c: nat)
    requires Serves(s.shared, q) && c < |s.clients| && s.clients[c].query == q && s.clients[c].phase.Waiting?
    requires s.clients[c].process in s.shared.permits && s.shared.permits[s.clients[c].process] > 0
    ensures var s' := Step(s, TakePermit(c));
            Serves(s'.shared, q) && s'.shared.requests[q] == s.shared.requests[q] + 1
  {
  }

  /**
   Exactly when a query whose vector is cached can still be sent to the API: some call has missed the
   cache before, whether it has yet to try the lock or waits for a permit with a lock it has won.
   */
  lemma FurtherRequestIff(s: State, q: Query)
    requires Inv(s) && Serves(s.shared, q) && !Live(s.shared.db, s.shared.now, LockKey(q))
    requires forall p :: p in s.shared.permits ==> s.shared.permits[p] > 0
    ensures MayAskAgain(s, q) <==> MayRequest(s, q) != {}
  {
    if actions :| StaysCached(s, actions, q) && Exec(s, actions).shared.requests[q] > s.shared.requests[q] {
      StampedeBound(s, actions, q);
      assert |MayRequest(s, q)| > 0;
    }
    if c :| c in MayRequest(s, q) {
      assert ClientInv(s.shared, c, s.clients[c]);
      ContenderAsks(s, q, c);
    }
  }

  // ---------------------------------------------------------------- Exactly one request

  ghost predicate NobodyWorking(s: State, q: Query) {
    forall c: nat :: !IsWorking(s, q, c)
  }

  ghost predicate NobodyMissed(s: State, q: Query) {
    forall c: nat :: !IsMissed(s, q, c)
  }

  /** Every call at work on q is still within its lease's ten seconds. */
  ghost predicate WithinLease(s: State, q: Query) {
    forall c: nat :: IsWorking(s, q, c) ==>
      s.clients[c].phase.token < |s.shared.leases| && s.shared.now < s.shared.leases[s.clients[c].phase.token].deadline
  }

  ghost predicate TouchesKeys(a: Action, q: Query) {
    a == Evict(CacheKey(q)) || a == Evict(LockKey(q))
  }

  /**
   A calm step: no eviction or expiry of q's entries, no lapse of a working lease, and a call
   leaves the locked section only when the vector is cached and every call whose cache read
   missed has already tried the lock.
   */
  ghost predicate CalmChange(s: State, s': State, a: Action, q: Query) {
    && !TouchesKeys(a, q)
    && WithinLease(s', q)
    && (Serves(s.shared, q) ==> Serves(s'.shared, q))
    && ((exists c: nat :: IsWorking(s, q, c) && !IsWorking(s', q, c)) ==> Serves(s'.shared, q) && NobodyMissed(s', q))
  }

  ghost predicate CalmStep(s: State, a: Action, q: Query) {
    CalmChange(s, Step(s, a), a, q)
  }

  ghost predicate CalmRun(s: State, actions: seq<Action>, q: Query)
    decreases |actions|
  {
    actions != [] ==> CalmStep(s, actions[0], q) && CalmRun(Step(s, actions[0]), actions[1..], q)
  }

  ghost predicate NoVector(s: State, q: Query) {
    forall v :: (q, v) !in s.shared.produced
  }

  ghost predicate OneVector(s: State, q: Query) {
    forall v, w :: (q, v) in s.shared.produced && (q, w) in s.shared.produced ==> v == w
  }

  ghost predicate Idle(s: State, q: Query) {
    NobodyWorking(s, q) && s.shared.requests[q] == 0
  }

  ghost predicate Flying(s: State, q: Query, h: nat) {
    && IsWorking(s, q, h)
    && (forall c: nat :: IsWorking(s, q, c) ==> c == h)
    && !Lost(s.shared, s.clients[h].phase.token)
    && s.shared.requests[q] == (if s.clients[h].phase.Waiting? then 0 else 1)
    && (UsesPermit(s.clients[h].phase) ==> NoVector(s, q))
  }

  ghost predicate Landed(s: State, q: Query) {
    NobodyWorking(s, q) && NobodyMissed(s, q) && Serves(s.shared, q)
  }

  ghost predicate SingleFlight(s: State, q: Query) {
    && s.shared.requests[q] <= 1
    && (s.shared.requests[q] == 0 ==> NoVector(s, q))
    && OneVector(s, q)
    && (Idle(s, q) || Landed(s, q) || exists h: nat :: Flying(s, q, h))
  }

  /** All that one step can do to the work on q, as a relation between the states around it. */
  ghost predicate Moves(s: State, s': State, a: Action, q: Query) {
    && |s'.clients| == |s.clients|
    && s.shared.leases <= s'.shared.leases
    && (forall c: nat :: IsMissed(s', q, c) && !IsMissed(s, q, c) ==> !Serves(s.shared, q))
    && (forall c: nat :: IsWorking(s', q, c) && !IsWorking(s, q, c) ==> StartsWork(s, s', q, c))
    && (forall c: nat :: IsWorking(s', q, c) && IsWorking(s, q, c) ==> GoesOn(s, s', a, q, c))
    && (s'.shared.requests[q] == s.shared.requests[q] || TakesPermit(s, s', a, q))
    && ((forall v :: (q, v) in s'.shared.produced ==> (q, v) in s.shared.produced) || GetsAnswer(s, s', a, q))
    && (forall t :: t in s'.shared.evicted && t !in s.shared.evicted ==>
          t < |s.shared.leases| && (s.shared.leases[t].query == q ==> a == Evict(LockKey(q))))
  }

  ghost predicate StartsWork(s: State, s': State, q: Query, c: nat)
    requires IsWorking(s', q, c)
  {
    && IsMissed(s, q, c) && !Live(s.shared.db, s.shared.now, LockKey(q))
    && s'.clients[c].phase == Waiting(|s.shared.leases|)
    && s'.shared.leases == s.shared.leases + [Lease(q, Some(c), s.shared.now + LOCK_TTL_MS)]
    && s'.shared.evicted == s.shared.evicted
    && s'.shared.requests == s.shared.requests
    && (forall d: nat :: d != c && IsWorking(s', q, d) ==> IsWorking(s, q, d))
  }

  ghost predicate GoesOn(s: State, s': State, a: Action, q: Query, c: nat)
    requires IsWorking(s', q, c) && IsWorking(s, q, c)
  {
    && s'.clients[c].phase.token == s.clients[c].phase.token
    && (s'.clients[c].phase.Waiting? ==> s.clients[c].phase.Waiting?)
    && (s'.clients[c].phase.Waiting? != s.clients[c].phase.Waiting? ==>
          a == TakePermit(c) && s'.shared.requests[q] == s.shared.requests[q] + 1)
    && (UsesPermit(s'.clients[c].phase) && !UsesPermit(s.clients[c].phase) ==> s.clients[c].phase.Waiting?)
  }

  ghost predicate TakesPermit(s: State, s': State, a: Action, q: Query) {
    && a.TakePermit? && IsWorking(s, q, a.c) && IsWorking(s', q, a.c)
    && s.clients[a.c].phase.Waiting? && s'.clients[a.c].phase.Calling?
    && s'.shared.requests[q] == s.shared.requests[q] + 1
    && s'.shared.produced == s.shared.produced
  }

  ghost predicate GetsAnswer(s: State, s': State, a: Action, q: Query) {
    && a.ApiAnswer? && IsWorking(s, q, a.c) && IsWorking(s', q, a.c)
    && s.clients[a.c].phase.Calling? && s'.clients[a.c].phase.Answered?
    && s'.shared.produced == s.shared.produced + {(q, s'.clients[a.c].phase.vector)}
    && s'.shared.requests == s.shared.requests
  }

  lemma WorkGoesOn(s: State, a: Action, q: Query, c: nat)
    requires IsClientAction(a) && Enabled(s, a) && IsWorking(Step(s, a), q, c)
    ensures !IsWorking(s, q, c) ==> StartsWork(s, Step(s, a), q, c)
    ensures IsWorking(s, q, c) ==> GoesOn(s, Step(s, a), a, q, c)
  {
    FireEffects(s.shared, s.clients[a.c], a);
  }

  lemma ClientStepMoves(s: State, a: Action, q: Query)
    requires IsClientAction(a) && Enabled(s, a)
    ensures Moves(s, Step(s, a), a, q)
  {
    FireEffects(s.shared, s.clients[a.c], a);
    forall c: nat | IsWorking(Step(s, a), q, c)
      ensures !IsWorking(s, q, c) ==> StartsWork(s, Step(s, a), q, c)
      ensures IsWorking(s, q, c) ==> GoesOn(s, Step(s, a), a, q, c)
    {
      WorkGoesOn(s, a, q, c);
    }
  }

  lemma EnvironmentStepMoves(s: State, a: Action, q: Query)
    requires Inv(s) && !(IsClientAction(a) && Enabled(s, a))
    ensures Moves(s, Step(s, a), a, q)
  {
    assert a.Evict? ==> a.key == LockKey(a.key.query) || a.key == CacheKey(a.key.query);
  }

  lemma StepMoves(s: State, a: Action, q: Query)
    requires Inv(s)
    ensures Moves(s, Step(s, a), a, q)
  {
    if IsClientAction(a) && Enabled(s, a) {
      ClientStepMoves(s, a, q);
    } else {
      EnvironmentStepMoves(s, a, q);
    }
  }

  lemma LandedStaysSingle(s: State, s': State, a: Action, q: Query)
    requires Moves(s, s', a, q) && CalmChange(s, s', a, q)
    requires SingleFlight(s, q) && Landed(s, q)
    ensures SingleFlight(s', q)
  {
    assert Landed(s', q);
  }

  lemma IdleStaysSingle(s: State, s': State, a: Action, q: Query)
    requires Moves(s, s', a, q) && CalmChange(s, s', a, q)
    requires forall t :: t in s.shared.evicted ==> t < |s.shared.leases|
    requires SingleFlight(s, q) && Idle(s, q)
    ensures SingleFlight(s', q)
  {
    if c: nat :| IsWorking(s', q, c) {
      assert Flying(s', q, c);
    } else {
      assert Idle(s', q);
    }
  }

  lemma FlyingStaysSingle(s: State, s': State, a: Action, q: Query, h: nat)
    requires Moves(s, s', a, q) && CalmChange(s, s', a, q)
    requires SingleFlight(s, q) && Flying(s, q, h)
    requires s.clients[h].phase.token < |s.shared.leases| && s.shared.leases[s.clients[h].phase.token].query == q
    requires Live(s.shared.db, s.shared.now, LockKey(q))
    ensures SingleFlight(s', q)
  {
    assert forall c: nat :: IsWorking(s', q, c) ==> IsWorking(s, q, c) && c == h;
    if IsWorking(s', q, h) {
      assert Flying(s', q, h);
    } else {
      assert Landed(s', q);
    }
  }

  lemma HolderLockIsLive(s: State, h: nat)
    requires Inv(s) && h < |s.clients| && InSection(s.clients[h].phase) && !Lost(s.shared, s.clients[h].phase.token)
    ensures s.shared.leases[s.clients[h].phase.token].query == s.clients[h].query
    ensures Live(s.shared.db, s.shared.now, LockKey(s.clients[h].query))
  {
    assert ClientInv(s.shared, h, s.clients[h]);
  }

  lemma SingleFlightStep(s: State, a: Action, q: Query)
    requires Inv(s) && SingleFlight(s, q) && CalmStep(s, a, q)
    ensures SingleFlight(Step(s, a), q)
  {
    var s' := Step(s, a);
    StepMoves(s, a, q);
    if Idle(s, q) {
      IdleStaysSingle(s, s', a, q);
    } else if Landed(s, q) {
      LandedStaysSingle(s, s', a, q);
    } else {
      var h: nat :| Flying(s, q, h);
      HolderLockIsLive(s, h);
      FlyingStaysSingle(s, s', a, q, h);
    }
  }

  lemma {:induction false} CalmRunIsSingleFlight(s: State, actions: seq<Action>, q: Query)
    requires Inv(s) && SingleFlight(s, q) && CalmRun(s, actions, q)
    ensures SingleFlight(Exec(s, actions), q) && Inv(Exec(s, actions))
    decreases |actions|
  {
    if actions != [] {
      SingleFlightStep(s, actions[0], q);
      StepKeepsInv(s, actions[0]);
      CalmRunIsSingleFlight(Step(s, actions[0]), actions[1..], q);
    }
  }

  predicate Returned(s: State, c: nat, q: Query, vector: Vector) {
    c < |s.clients| && s.clients[c].query == q && s.clients[c].phase == Done(Some(vector))
  }

  /**
   Exactly one embedding request: along a calm run from the start, q is requested at most once,
   exactly once as soon as any call has a vector, and all calls that get a vector get the same.
   */
  lemma ExactlyOneRequest(init: State, actions: seq<Action>, q: Query)
    requires Init(init) && CalmRun(init, actions, q)
    ensures var s := Exec(init, actions);
            && s.shared.requests[q] <= 1
            && (forall c: nat, v :: Returned(s, c, q, v) ==> s.shared.requests[q] == 1)
            && (forall c: nat, d: nat, v, w :: Returned(s, c, q, v) && Returned(s, d, q, w) ==> v == w)
  {
    InitInv(init);
    assert Idle(init, q);
    CalmRunIsSingleFlight(init, actions, q);
    var s := Exec(init, actions);
    forall c: nat, v | Returned(s, c, q, v) ensures (q, v) in s.shared.produced {
      assert ClientInv(s.shared, c, s.clients[c]);
    }
  }

  // ---------------------------------------------------------------- Early exit of a waiter

  /** A run in which q's entries are not evicted and no working call outlives its lease; crashes are allowed. */
  ghost predicate UnlapsedRun(s: State, actions: seq<Action>, q: Query)
    decreases |actions|
  {
    actions != [] ==>
      var s' := Step(s, actions[0]);
      !TouchesKeys(actions[0], q) && WithinLease(s', q) && UnlapsedRun(s', actions[1..], q)
  }

  /** Every write of a vector for q is still covered by the cache entry, until that write's own expiry. */
  ghost predicate WritesCovered(sh: Shared, q: Query) {
    forall t :: t in sh.written && t < |sh.leases| && sh.leases[t].query == q ==>
      && CacheKey(q) in sh.db
      && (sh.db[CacheKey(q)].expireAt.Some? ==>
            sh.written[t].Some? && sh.written[t].value <= sh.db[CacheKey(q)].expireAt.value)
  }

  ghost predicate WritesBounded(sh: Shared) {
    && (forall t :: t in sh.written ==> t < |sh.leases|)
    && (forall t :: t in sh.written ==>
          if sh.ttlSeconds > 0 then sh.written[t].Some? && sh.written[t].value <= sh.now + 1000 * sh.ttlSeconds
          else sh.written[t].None?)
  }

  ghost predicate NoneEvicted(s: State, q: Query) {
    forall c: nat :: IsWorking(s, q, c) ==> s.clients[c].phase.token !in s.shared.evicted
  }

  ghost predicate Covered(sh: Shared, q: Query) {
    WritesBounded(sh) && WritesCovered(sh, q)
  }

  lemma FireKeepsBounds(sh: Shared, c: nat, client: Client, a: Action)
    requires ClientInv(sh, c, client) && WritesBounded(sh)
    requires IsClientAction(a) && CanFire(sh, client, a)
    ensures WritesBounded(Fire(sh, client, a).shared)
  {
  }

  lemma RedisErrorKeepsCover(sh: Shared, c: nat, client: Client, applied: bool, q: Query)
    requires ClientInv(sh, c, client) && WritesBounded(sh) && WritesCovered(sh, q)
    requires RedisCommandPending(client)
    ensures WritesCovered(FireRedisError(sh, client, applied).shared, q)
  {
  }

  lemma FireKeepsCover(sh: Shared, c: nat, client: Client, a: Action, q: Query)
    requires ClientInv(sh, c, client) && WritesBounded(sh) && WritesCovered(sh, q)
    requires IsClientAction(a) && CanFire(sh, client, a)
    ensures WritesCovered(Fire(sh, client, a).shared, q)
  {
    if a.RedisError? { RedisErrorKeepsCover(sh, c, client, a.applied, q); }
  }

  lemma CoveredStep(s: State, a: Action, q: Query)
    requires Inv(s) && Covered(s.shared, q) && !TouchesKeys(a, q)
    ensures Covered(Step(s, a).shared, q)
  {
    if IsClientAction(a) && Enabled(s, a) {
      assert ClientInv(s.shared, a.c, s.clients[a.c]);
      FireKeepsBounds(s.shared, a.c, s.clients[a.c], a);
      FireKeepsCover(s.shared, a.c, s.clients[a.c], a, q);
    }
  }

  lemma NoneEvictedStep(s: State, a: Action, q: Query)
    requires Inv(s) && NoneEvicted(s, q) && !TouchesKeys(a, q)
    ensures NoneEvicted(Step(s, a), q)
  {
    var s' := Step(s, a);
    StepMoves(s, a, q);
    forall c: nat | IsWorking(s', q, c) ensures s'.clients[c].phase.token !in s'.shared.evicted {
      if IsWorking(s, q, c) { assert ClientInv(s.shared, c, s.clients[c]); }
    }
  }

  lemma {:induction false} CoveredRun(s: State, actions: seq<Action>, q: Query)
    requires Inv(s) && Covered(s.shared, q) && NoneEvicted(s, q) && WithinLease(s, q) && UnlapsedRun(s, actions, q)
    ensures var s' := Exec(s, actions); Inv(s') && Covered(s'.shared, q) && NoneEvicted(s', q) && WithinLease(s', q)
    decreases |actions|
  {
    if actions != [] {
      CoveredStep(s, actions[0], q);
      NoneEvictedStep(s, actions[0], q);
      StepKeepsInv(s, actions[0]);
      CoveredRun(Step(s, actions[0]), actions[1..], q);
    }
  }

  /**
   A waiter that finds the lock gone gives up rightly: in a run without lapse and eviction,
   whenever q's lock is absent nobody is at work on q, and every vector ever written for q is
   being served unless its own time to live has passed. So if nothing is served, no holder of
   the lock left an unexpired vector behind.
   */
  lemma LockGoneMeansNobodyWorking(init: State, actions: seq<Action>, q: Query)
    requires Init(init) && UnlapsedRun(init, actions, q)
    ensures var s := Exec(init, actions);
            !Live(s.shared.db, s.shared.now, LockKey(q)) ==>
              && NobodyWorking(s, q)
              && (forall t | t in s.shared.written && t < |s.shared.leases| && s.shared.leases[t].query == q
                             && Unexpired(s.shared.written[t], s.shared.now) :: Serves(s.shared, q))
  {
    InitInv(init);
    CoveredRun(init, actions, q);
    var s := Exec(init, actions);
    forall c: nat | IsWorking(s, q, c) ensures Live(s.shared.db, s.shared.now, LockKey(q)) {
      assert ClientInv(s.shared, c, s.clients[c]);
    }
  }
}
