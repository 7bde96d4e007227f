/**
 What a call that lost the lock comes back with: the vector, if it is cached when the call reads the
 cache, and possibly nothing if it is not, even when it is cached a moment later.
 */
module EmbeddingWaiters {
  import opened Wrappers
  import opened RedisStore
  import opened EmbeddingProtocol
  import opened EmbeddingStampede

  /** The next thing this call does with Redis is to read the cache. */
  predicate ReadsNext(client: Client) {
    (client.phase.Start? && !client.blank) || client.phase.Sleeping? || client.phase.Polling?
  }

  /** The call still has its cache read ahead, or it has a vector, or its process died. */
  predicate NotLeftOut(client: Client) {
    ReadsNext(client) || client.phase.Crashed? || (client.phase.Done? && client.phase.result.Some?)
  }

  predicate NoFaultOf(c: nat, actions: seq<Action>) {
    forall a | a in actions :: a.RedisError? ==> a.c != c
  }

  /** Once q is served, neither eviction nor expiry takes its vector away during the run. */
  predicate OnceServedStays(s: State, actions: seq<Action>, q: Query)
    decreases |actions|
  {
    actions != [] ==>
      && (Serves(s.shared, q) ==> Serves(Step(s, actions[0]).shared, q))
      && OnceServedStays(Step(s, actions[0]), actions[1..], q)
  }

  lemma ServedStep(s: State, a: Action, c: nat, q: Query)
    requires c < |s.clients| && s.clients[c].query == q && NotLeftOut(s.clients[c])
    requires Serves(s.shared, q) && (a.RedisError? ==> a.c != c)
    ensures c < |Step(s, a).clients| && Step(s, a).clients[c].query == q && NotLeftOut(Step(s, a).clients[c])
  {
    FrameOfStep(s, a, q);
  }

  /** A call that reads the cache while q is served, and none of whose commands fails, never ends with nothing. */
  lemma {:induction false} ServedCallGetsVector(s: State, actions: seq<Action>, c: nat, q: Query)
    requires c < |s.clients| && s.clients[c].query == q && NotLeftOut(s.clients[c])
    requires Serves(s.shared, q) && OnceServedStays(s, actions, q) && NoFaultOf(c, actions)
    ensures c < |Exec(s, actions).clients| && NotLeftOut(Exec(s, actions).clients[c])
    ensures Serves(Exec(s, actions).shared, q)
    decreases |actions|
  {
    if actions != [] {
      ServedStep(s, actions[0], c, q);
      ServedCallGetsVector(Step(s, actions[0]), actions[1..], c, q);
    }
  }

  /** Some run without a fault of this call ends it with nothing although q is served. */
  ghost predicate MayMiss(s: State, c: nat, q: Query) {
    exists actions ::
      && NoFaultOf(c, actions) && OnceServedStays(s, actions, q)
      && Misses(Exec(s, actions), c, q)
  }

  predicate Misses(s: State, c: nat, q: Query) {
    c < |s.clients| && s.clients[c].phase == Done(None) && Serves(s.shared, q)
  }

  // ---------------------------------------------------------------- The run that misses

  lemma UnservedPoll(s: State, c: nat, h: nat, q: Query)
    requires c < |s.clients| && h < |s.clients| && c != h && s.clients[c].query == q
    requires s.clients[c].phase.Polling? && !Serves(s.shared, q)
    ensures var s' := Step(s, PollCache(c));
            s'.shared == s.shared && |s'.clients| == |s.clients| && s'.clients[h] == s.clients[h]
            && s'.clients[c] == s.clients[c].(phase := Checking(s.clients[c].phase.poll))
  {
  }

  lemma HolderWrites(s: State, c: nat, h: nat, q: Query)
    requires c < |s.clients| && h < |s.clients| && c != h && s.clients[h].query == q
    requires s.clients[h].phase.Answered? && s.clients[h].phase.vector != []
    ensures var s', t, v := Step(s, WriteCache(h)), s.clients[h].phase.token, s.clients[h].phase.vector;
            && Serves(s'.shared, q) && s'.shared.now == s.shared.now && |s'.clients| == |s.clients|
            && s'.clients[c] == s.clients[c] && s'.clients[h] == s.clients[h].(phase := Releasing(t, Some(v)))
            && Lookup(s'.shared.db, s.shared.now, LockKey(q)) == Lookup(s.shared.db, s.shared.now, LockKey(q))
  {
  }

  lemma HolderReleases(s: State, c: nat, h: nat, q: Query)
    requires c < |s.clients| && h < |s.clients| && c != h && s.clients[h].query == q && s.clients[h].phase.Releasing?
    requires Serves(s.shared, q)
    requires Lookup(s.shared.db, s.shared.now, LockKey(q)) == Some(Token(s.clients[h].phase.token))
    ensures var s' := Step(s, Release(h));
            && Serves(s'.shared, q) && !Live(s'.shared.db, s'.shared.now, LockKey(q))
            && |s'.clients| == |s.clients| && s'.clients[c] == s.clients[c]
  {
  }

  lemma CheckFindsNothing(s: State, c: nat, q: Query)
    requires c < |s.clients| && s.clients[c].query == q && s.clients[c].phase.Checking?
    requires Serves(s.shared, q) && !Live(s.shared.db, s.shared.now, LockKey(q))
    ensures Misses(Step(s, PollLock(c)), c, q)
  {
  }

  lemma FourSteps(s: State, a: Action, b: Action, d: Action, e: Action, q: Query)
    requires var s1 := Step(s, a); var s2 := Step(s1, b); var s3 := Step(s2, d); var s4 := Step(s3, e);
             !Serves(s.shared, q) && !Serves(s1.shared, q)
             && Serves(s2.shared, q) && Serves(s3.shared, q) && Serves(s4.shared, q)
    ensures Exec(s, [a, b, d, e]) == Step(Step(Step(Step(s, a), b), d), e)
    ensures OnceServedStays(s, [a, b, d, e], q)
  {
    assert [a, b, d, e][1..] == [b, d, e] && [b, d, e][1..] == [d, e] && [d, e][1..] == [e] && [e][1..] == [];
    var s1 := Step(s, a);
    var s2 := Step(s1, b);
    var s3 := Step(s2, d);
    assert Exec(s3, [e]) == Step(s3, e) && Exec(s2, [d, e]) == Exec(s3, [e]) && Exec(s1, [b, d, e]) == Exec(s2, [d, e]);
    assert OnceServedStays(s3, [e], q) && OnceServedStays(s2, [d, e], q) && OnceServedStays(s1, [b, d, e], q);
  }

  lemma HolderHasItsLock(s: State, h: nat)
    requires Inv(s) && h < |s.clients| && s.clients[h].phase.Answered? && !Lost(s.shared, s.clients[h].phase.token)
    ensures s.clients[h].phase.vector != []
    ensures Lookup(s.shared.db, s.shared.now, LockKey(s.clients[h].query)) == Some(Token(s.clients[h].phase.token))
  {
    assert ClientInv(s.shared, h, s.clients[h]);
  }

  lemma UnservedPollMisses(s: State, c: nat, h: nat, q: Query)
    requires c < |s.clients| && h < |s.clients| && c != h && s.clients[c].query == q && s.clients[h].query == q
    requires s.clients[c].phase.Polling? && s.clients[h].phase.Answered? && s.clients[h].phase.vector != []
    requires Lookup(s.shared.db, s.shared.now, LockKey(q)) == Some(Token(s.clients[h].phase.token))
    requires !Serves(s.shared, q)
    ensures var run := [PollCache(c), WriteCache(h), Release(h), PollLock(c)];
            OnceServedStays(s, run, q) && Misses(Exec(s, run), c, q)
  {
    UnservedPoll(s, c, h, q);
    var s1 := Step(s, PollCache(c));
    HolderWrites(s1, c, h, q);
    var s2 := Step(s1, WriteCache(h));
    HolderReleases(s2, c, h, q);
    var s3 := Step(s2, Release(h));
    CheckFindsNothing(s3, c, q);
    FourSteps(s, PollCache(c), WriteCache(h), Release(h), PollLock(c), q);
  }

  lemma UnservedCallMayMiss(s: State, c: nat, h: nat, q: Query)
    requires Inv(s) && c < |s.clients| && h < |s.clients| && s.clients[c].query == q && s.clients[h].query == q
    requires s.clients[c].phase.Polling? && s.clients[h].phase.Answered? && !Lost(s.shared, s.clients[h].phase.token)
    requires !Serves(s.shared, q)
    ensures MayMiss(s, c, q)
  {
    HolderHasItsLock(s, h);
    UnservedPollMisses(s, c, h, q);
    assert NoFaultOf(c, [PollCache(c), WriteCache(h), Release(h), PollLock(c)]);
  }

  /**
   Exactly when a waiter can miss the vector: with a holder that has its answer and a lease that is not
   lost, a waiter about to read the cache can end with nothing although the vector is served if and
   only if it is not served at that read.
   */
  lemma WaiterMissesIff(s: State, c: nat, h: nat, q: Query)
    requires Inv(s) && c < |s.clients| && h < |s.clients| && s.clients[c].query == q && s.clients[h].query == q
    requires s.clients[c].phase.Polling? && s.clients[h].phase.Answered? && !Lost(s.shared, s.clients[h].phase.token)
    ensures MayMiss(s, c, q) <==> !Serves(s.shared, q)
  {
    if Serves(s.shared, q) {
      forall actions | NoFaultOf(c, actions) && OnceServedStays(s, actions, q) ensures !Misses(Exec(s, actions), c, q) {
        ServedCallGetsVector(s, actions, c, q);
      }
    } else {
      UnservedCallMayMiss(s, c, h, q);
    }
  }

  // ---------------------------------------------------------------- How long a waiter holds out

  /** A call that lost the lock at instant t has not given up early: poll number p comes 200 * (p + 1) ms after t. */
  predicate HoldsOut(sh: Shared, client: Client, t: int) {
    match client.phase
    case Sleeping(poll, wakeAt) => wakeAt >= t + 200 * (poll + 1)
    case Polling(poll) => sh.now >= t + 200 * (poll + 1)
    case Checking(poll) => sh.now >= t + 200 * (poll + 1)
    case Done(None) => sh.now >= t + 5000
    case Done(Some(_)) => true
    case Crashed => true
    case _ => false
  }

  predicate LockHeld(s: State, q: Query) {
    Live(s.shared.db, s.shared.now, LockKey(q))
  }

  /** The lock of q is held in every state of the run. */
  predicate LockStaysHeld(s: State, actions: seq<Action>, q: Query)
    decreases |actions|
  {
    LockHeld(s, q) && (actions != [] ==> LockStaysHeld(Step(s, actions[0]), actions[1..], q))
  }

  lemma HoldsOutStep(s: State, a: Action, c: nat, q: Query, t: int)
    requires c < |s.clients| && s.clients[c].query == q && HoldsOut(s.shared, s.clients[c], t)
    requires LockHeld(s, q) && (a.RedisError? ==> a.c != c)
    ensures var s' := Step(s, a);
            c < |s'.clients| && s'.clients[c].query == q && HoldsOut(s'.shared, s'.clients[c], t)
  {
    FrameOfStep(s, a, q);
    TimeNeverFalls(s, a);
  }

  lemma TimeNeverFalls(s: State, a: Action)
    ensures s.shared.now <= Step(s, a).shared.now
  {
  }

  lemma {:induction false} HoldsOutRun(s: State, actions: seq<Action>, c: nat, q: Query, t: int)
    requires c < |s.clients| && s.clients[c].query == q && HoldsOut(s.shared, s.clients[c], t)
    requires LockStaysHeld(s, actions, q) && NoFaultOf(c, actions)
    ensures var s' := Exec(s, actions);
            c < |s'.clients| && HoldsOut(s'.shared, s'.clients[c], t)
    decreases |actions|
  {
    if actions != [] {
      HoldsOutStep(s, actions[0], c, q, t);
      HoldsOutRun(Step(s, actions[0]), actions[1..], c, q, t);
    }
  }

  /**
   A call that finds the lock taken waits for its holder: while the lock is held and its own commands
   do not fail, it gives up with nothing no earlier than five seconds after it tried the lock.
   */
  lemma WaiterHoldsOut(s: State, actions: seq<Action>, c: nat, q: Query)
    requires c < |s.clients| && s.clients[c].query == q && s.clients[c].phase.Missed? && LockHeld(s, q)
    requires LockStaysHeld(Step(s, TryLock(c)), actions, q) && NoFaultOf(c, actions)
    ensures var s' := Exec(Step(s, TryLock(c)), actions);
            && c < |s'.clients| && !InSection(s'.clients[c].phase)
            && (s'.clients[c].phase == Done(None) ==> s'.shared.now >= s.shared.now + 5000)
  {
    HoldsOutRun(Step(s, TryLock(c)), actions, c, q, s.shared.now);
  }
}
