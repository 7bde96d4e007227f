/**
 What holds in every reachable state of the embedding protocol, under any interleaving of
 calls, clock ticks, lease expiry, eviction, Redis failures and process crashes.
 */
module EmbeddingSafety {
  import opened Wrappers
  import opened RedisStore
  import opened EmbeddingProtocol

  /**
   In every reachable state at most one call per query is in the locked section with a lease
   that is neither lapsed nor evicted; and if two calls are in the section together, the lease
   granted first was lost before the second one was granted.
   */
  lemma MutualExclusion(s: State, c: nat, d: nat)
    requires Reachable(s)
    requires c < |s.clients| && d < |s.clients| && c != d
    requires InSection(s.clients[c].phase) && InSection(s.clients[d].phase)
    requires s.clients[c].query == s.clients[d].query
    ensures var t, u := s.clients[c].phase.token, s.clients[d].phase.token;
            && t < |s.shared.leases| && u < |s.shared.leases| && t != u
            && (Lost(s.shared, t) || Lost(s.shared, u))
            && (t < u ==> s.shared.leases[t].deadline <= s.shared.leases[u].deadline - LOCK_TTL_MS
                          || t in s.shared.evicted)
  {
    ReachableInv(s);
    assert ClientInv(s.shared, c, s.clients[c]) && ClientInv(s.shared, d, s.clients[d]);
  }

  /** A live lock entry disappears or changes hands only through its owner's own step, time, or eviction. */
  lemma LiveLockIsSafe(s: State, a: Action, owner: nat)
    requires Reachable(s)
    requires owner < |s.clients| && InSection(s.clients[owner].phase)
    requires HoldsEntry(s.shared, s.clients[owner].query, s.clients[owner].phase.token)
    requires !Lost(s.shared, s.clients[owner].phase.token)
    ensures var q, t := s.clients[owner].query, s.clients[owner].phase.token;
            var s' := Step(s, a);
            HoldsEntry(s'.shared, q, t) || (IsClientAction(a) && a.c == owner) || a == Evict(LockKey(q))
  {
    ReachableInv(s);
    assert ClientInv(s.shared, owner, s.clients[owner]);
    if IsClientAction(a) && Enabled(s, a) && a.c != owner {
      assert ClientInv(s.shared, a.c, s.clients[a.c]);
      FireLeavesLock(s.shared, owner, s.clients[owner], a.c, s.clients[a.c], a);
    }
  }

  lemma FireLeavesLock(sh: Shared, owner: nat, holder: Client, c: nat, client: Client, a: Action)
    requires SharedInv(sh) && ClientInv(sh, owner, holder) && ClientInv(sh, c, client) && c != owner
    requires InSection(holder.phase) && HoldsEntry(sh, holder.query, holder.phase.token) && !Lost(sh, holder.phase.token)
    requires IsClientAction(a) && a.c == c && CanFire(sh, client, a)
    ensures HoldsEntry(Fire(sh, client, a).shared, holder.query, holder.phase.token)
  {
  }

  /** A release, by whatever call and however late, leaves every other lease's entry in place. */
  lemma ReleaseRemovesOnlyOwnLock(s: State, a: Action, q: Query, t: nat)
    requires Reachable(s)
    requires a.Release? || (a.RedisError? && a.c < |s.clients| && s.clients[a.c].phase.Releasing?)
    requires HoldsEntry(s.shared, q, t) && !HoldsEntry(Step(s, a).shared, q, t)
    ensures a.c < |s.clients| && InSection(s.clients[a.c].phase)
    ensures s.clients[a.c].query == q && s.clients[a.c].phase.token == t
    ensures t < |s.shared.leases| && s.shared.leases[t].owner == Some(a.c)
  {
    ReachableInv(s);
    assert ClientInv(s.shared, a.c, s.clients[a.c]);
  }

  // ---------------------------------------------------------------- Value integrity

  /**
   Whatever the interleaving, lapses and late writes: a cached vector, and any vector a call
   returns, is a non-empty vector that the API answered for exactly that query.
   */
  lemma ValueIntegrity(s: State)
    requires Reachable(s)
    ensures forall q, vector :: Lookup(s.shared.db, s.shared.now, CacheKey(q)) == Some(Stored(vector)) ==>
                                  vector != [] && (q, vector) in s.shared.produced
    ensures forall c, vector :: 0 <= c < |s.clients| && s.clients[c].phase == Done(Some(vector)) ==>
                                  vector != [] && (s.clients[c].query, vector) in s.shared.produced
  {
    ReachableInv(s);
    forall c, vector | 0 <= c < |s.clients| && s.clients[c].phase == Done(Some(vector))
      ensures vector != [] && (s.clients[c].query, vector) in s.shared.produced
    {
      assert ClientInv(s.shared, c, s.clients[c]);
    }
  }

  /** Entries of produced arise only where an API attempt of a lock holder for that query is answered. */
  lemma ProducedOnlyByApi(s: State, a: Action, query: Query, vector: Vector)
    requires (query, vector) !in s.shared.produced && (query, vector) in Step(s, a).shared.produced
    ensures a.ApiAnswer? && a.c < |s.clients| && s.clients[a.c].phase.Calling?
    ensures s.clients[a.c].query == query && a.vectors != [] && a.vectors[0] == vector
  {
  }

  // ---------------------------------------------------------------- Permits

  /** Free permits plus calls inside the semaphore make exactly three for every process, so at most three run. */
  lemma PermitsAddUp(s: State, process: nat)
    requires Reachable(s) && process in s.shared.permits
    ensures s.shared.permits[process] + |Busy(s, process)| == 3 && |Busy(s, process)| <= 3
  {
    ReachableInv(s);
  }

  // ---------------------------------------------------------------- The way out of the section

  /**
   Whoever won the lock tries to release it before the call ends: a call leaves the locked section by
   its release, by a release that fails, or with its process.
   */
  lemma SectionEndsWithRelease(s: State, a: Action, c: nat)
    requires c < |s.clients| && InSection(s.clients[c].phase)
    requires c < |Step(s, a).clients| && !InSection(Step(s, a).clients[c].phase)
    ensures a == Release(c) || (a.RedisError? && a.c == c && s.clients[c].phase.Releasing?) || a == Crash(s.clients[c].process)
    ensures a == Release(c) ==>
              && s.clients[c].phase.Releasing? && Step(s, a).clients[c].phase == Done(s.clients[c].phase.result)
              && Lookup(Step(s, a).shared.db, s.shared.now, LockKey(s.clients[c].query)) != Some(Token(s.clients[c].phase.token))
  {
  }

  /** An answered non-empty vector is stored for its time to live and returned by the call itself, if no command fails. */
  lemma AnswerIsStoredAndReturned(s: State, c: nat, vectors: seq<Vector>)
    requires Inv(s) && c < |s.clients| && s.clients[c].phase.Calling? && vectors != [] && vectors[0] != []
    ensures var q, s1 := s.clients[c].query, Step(s, ApiAnswer(c, vectors));
            var s2 := Step(s1, WriteCache(c));
            && s1.shared.permits[s.clients[c].process] == s.shared.permits[s.clients[c].process] + 1
            && Lookup(s2.shared.db, s2.shared.now, CacheKey(q)) == Some(Stored(vectors[0]))
            && Pttl(s2.shared.db, s2.shared.now, CacheKey(q)) == (if s.shared.ttlSeconds > 0 then 1000 * s.shared.ttlSeconds else -1)
            && |s2.clients| == |s.clients| && s2.clients[c].phase == Releasing(s.clients[c].phase.token, Some(vectors[0]))
  {
    assert ClientInv(s.shared, c, s.clients[c]);
  }
}
