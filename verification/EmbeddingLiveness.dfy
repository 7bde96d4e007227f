/**
 Every call of embedSearchQuery ends: a bound on the work of any run, freedom from deadlock,
 and the polling loop of a waiter on its own.
 */
module EmbeddingLiveness {
  import opened Wrappers
  import opened RedisStore
  import opened EmbeddingProtocol
  import Retry

  /** An upper bound on the steps a call still has to take. */
  function Rank(p: Phase): int {
    match p
    case Start => 77
    case Missed => 76
    case Sleeping(poll, _) => 3 * (MAX_POLLS - poll)
    case Polling(poll) => 3 * (MAX_POLLS - poll) - 1
    case Checking(poll) => 3 * (MAX_POLLS - poll) - 2
    case Waiting(_) => 8
    case Calling(_, attempt) => 9 - 2 * attempt
    case BackingOff(_, attempt, _) => 8 - 2 * attempt
    case Answered(_, _) => 2
    case Releasing(_, _) => 1
    case Done(_) => 0
    case Crashed => 0
  }

  function TotalRank(clients: seq<Client>): int {
    if clients == [] then 0 else Rank(clients[0].phase) + TotalRank(clients[1..])
  }

  ghost predicate InRange(clients: seq<Client>) {
    forall c :: 0 <= c < |clients| ==> CountersInRange(clients[c])
  }

  lemma {:induction false} RankBounds(clients: seq<Client>)
    requires InRange(clients)
    ensures 0 <= TotalRank(clients) <= 77 * |clients|
  {
    if clients != [] { RankBounds(clients[1..]); }
  }

  /** Replacing calls by calls of no higher rank lowers the total; replacing one by a lower one lowers it strictly. */
  lemma {:induction false} TotalDescends(before: seq<Client>, after: seq<Client>, c: int)
    requires |before| == |after|
    requires forall d :: 0 <= d < |before| ==> Rank(after[d].phase) <= Rank(before[d].phase)
    ensures TotalRank(after) <= TotalRank(before)
    ensures 0 <= c < |before| && Rank(after[c].phase) < Rank(before[c].phase) ==> TotalRank(after) < TotalRank(before)
  {
    if before != [] { TotalDescends(before[1..], after[1..], c - 1); }
  }

  lemma FireDescends(sh: Shared, client: Client, a: Action)
    requires IsClientAction(a) && CanFire(sh, client, a) && CountersInRange(client)
    ensures 0 <= Rank(Fire(sh, client, a).phase) < Rank(client.phase)
  {
  }

  predicate Effective(s: State, a: Action) {
    IsClientAction(a) && Enabled(s, a)
  }

  lemma StepDescends(s: State, a: Action)
    requires Inv(s)
    ensures TotalRank(Step(s, a).clients) + (if Effective(s, a) then 1 else 0) <= TotalRank(s.clients)
  {
    var s' := Step(s, a);
    assert forall d :: 0 <= d < |s.clients| ==> ClientInv(s.shared, d, s.clients[d]);
    if Effective(s, a) {
      FireDescends(s.shared, s.clients[a.c], a);
      TotalDescends(s.clients, s'.clients, a.c);
    } else {
      TotalDescends(s.clients, s'.clients, -1);
    }
  }

  /** How many actions of the run are steps actually taken by calls. */
  function StepsTaken(s: State, actions: seq<Action>): nat
    decreases |actions|
  {
    if actions == [] then 0
    else (if Effective(s, actions[0]) then 1 else 0) + StepsTaken(Step(s, actions[0]), actions[1..])
  }

  lemma {:induction false} WorkIsBoundedFrom(s: State, actions: seq<Action>)
    requires Inv(s)
    ensures StepsTaken(s, actions) + TotalRank(Exec(s, actions).clients) <= TotalRank(s.clients)
    ensures Inv(Exec(s, actions))
    decreases |actions|
  {
    if actions != [] {
      StepDescends(s, actions[0]);
      StepKeepsInv(s, actions[0]);
      WorkIsBoundedFrom(Step(s, actions[0]), actions[1..]);
    }
  }

  /** However the environment behaves, N calls take at most 77*N steps in all: no call polls or retries for ever. */
  lemma WorkIsBounded(init: State, actions: seq<Action>)
    requires Init(init)
    ensures StepsTaken(init, actions) <= 77 * |init.clients|
  {
    InitInv(init);
    WorkIsBoundedFrom(init, actions);
    var s := Exec(init, actions);
    assert forall c :: 0 <= c < |s.clients| ==> ClientInv(s.shared, c, s.clients[c]);
    RankBounds(s.clients);
    RankBounds(init.clients);
  }

  /** The answer a working dependency gives next to this call, after waiting for its timer. */
  function NextMove(c: nat, phase: Phase): Action
    requires !Finished(phase)
  {
    match phase
    case Start => ReadCache(c)
    case Missed => TryLock(c)
    case Waiting(_) => TakePermit(c)
    case Calling(_, _) => ApiAnswer(c, [[1.0]])
    case BackingOff(_, _, _) => RetryCall(c)
    case Answered(_, _) => WriteCache(c)
    case Releasing(_, _) => Release(c)
    case Sleeping(_, _) => Wake(c)
    case Polling(_) => PollCache(c)
    case Checking(_) => PollLock(c)
  }

  function TimeToWait(now: int, phase: Phase): nat {
    match phase
    case BackingOff(_, _, wakeAt) => if wakeAt > now then wakeAt - now else 0
    case Sleeping(_, wakeAt) => if wakeAt > now then wakeAt - now else 0
    case _ => 0
  }

  /** A permit holder waits for nothing but the API and its own timer; in particular not for any lock. */
  lemma PermitHolderCanMove(s: State, c: nat)
    requires Inv(s) && c < |s.clients| && UsesPermit(s.clients[c].phase)
    ensures Effective(Step(s, Tick(TimeToWait(s.shared.now, s.clients[c].phase))), NextMove(c, s.clients[c].phase))
  {
    assert ClientInv(s.shared, c, s.clients[c]);
  }

  lemma UnblockedCallCanMove(s: State, c: nat)
    requires Inv(s) && c < |s.clients| && !Finished(s.clients[c].phase)
    requires s.clients[c].process in s.shared.permits
    requires s.clients[c].phase.Waiting? ==> s.shared.permits[s.clients[c].process] > 0
    ensures Effective(Step(s, Tick(TimeToWait(s.shared.now, s.clients[c].phase))), NextMove(c, s.clients[c].phase))
  {
    assert ClientInv(s.shared, c, s.clients[c]);
  }

  /** No deadlock: if some call is unfinished, then some call can move on, perhaps after its timer. */
  lemma SomeoneCanMove(s: State, c: nat) returns (d: nat)
    requires Inv(s) && c < |s.clients| && !Finished(s.clients[c].phase)
    ensures d < |s.clients| && !Finished(s.clients[d].phase)
    ensures Effective(Step(s, Tick(TimeToWait(s.shared.now, s.clients[d].phase))), NextMove(d, s.clients[d].phase))
  {
    assert ClientInv(s.shared, c, s.clients[c]);
    var process := s.clients[c].process;
    if s.clients[c].phase.Waiting? && s.shared.permits[process] == 0 {
      assert Busy(s, process) != {};
      d :| d in Busy(s, process);
      PermitHolderCanMove(s, d);
    } else {
      d := c;
      UnblockedCallCanMove(s, c);
    }
  }

  predicate AllFinished(s: State) {
    forall c :: 0 <= c < |s.clients| ==> Finished(s.clients[c].phase)
  }

  /** An action of a world in which Redis, the API and the processes work. */
  predicate Healthy(a: Action) {
    !a.RedisError? && !a.ApiError? && !a.Evict? && !a.Crash?
  }

  lemma RankNonNegative(s: State)
    requires Inv(s)
    ensures TotalRank(s.clients) >= 0
  {
    assert forall c :: 0 <= c < |s.clients| ==> ClientInv(s.shared, c, s.clients[c]);
    RankBounds(s.clients);
  }

  predicate AllHealthy(actions: seq<Action>) {
    forall i :: 0 <= i < |actions| ==> Healthy(actions[i])
  }

  lemma HealthyConcat(first: seq<Action>, second: seq<Action>)
    requires AllHealthy(first) && AllHealthy(second)
    ensures AllHealthy(first + second)
  {
  }

  lemma ExecTwo(s: State, a: Action, b: Action, rest: seq<Action>)
    ensures Exec(s, [a, b] + rest) == Exec(Step(Step(s, a), b), rest)
  {
    assert ([a, b] + rest)[1..] == [b] + rest;
    assert ([b] + rest)[1..] == rest;
  }

  lemma MoveDescends(s: State, wait: Action, move: Action)
    requires Inv(s) && wait.Tick? && Effective(Step(s, wait), move)
    ensures var next := Step(Step(s, wait), move);
            Inv(next) && 0 <= TotalRank(next.clients) < TotalRank(s.clients)
  {
    StepKeepsInv(s, wait);
    StepKeepsInv(Step(s, wait), move);
    StepDescends(s, wait);
    StepDescends(Step(s, wait), move);
    RankNonNegative(Step(Step(s, wait), move));
  }

  lemma ExecRound(s: State, a: Action, b: Action)
    ensures forall rest :: Exec(s, [a, b] + rest) == Exec(Step(Step(s, a), b), rest)
  {
    forall rest { ExecTwo(s, a, b, rest); }
  }

  /** One call waits for its timer, if any, and moves on. */
  lemma HealthyRound(s: State, c: nat) returns (round: seq<Action>, next: State)
    requires Inv(s) && c < |s.clients| && !Finished(s.clients[c].phase)
    ensures AllHealthy(round)
    ensures forall rest :: Exec(s, round + rest) == Exec(next, rest)
    ensures Inv(next) && 0 <= TotalRank(next.clients) < TotalRank(s.clients)
  {
    var d := SomeoneCanMove(s, c);
    var wait, move := Tick(TimeToWait(s.shared.now, s.clients[d].phase)), NextMove(d, s.clients[d].phase);
    round, next := [wait, move], Step(Step(s, wait), move);
    MoveDescends(s, wait, move);
    ExecRound(s, wait, move);
  }

  /**
   If the dependencies answer, every call ends: from any state the protocol can reach, a healthy
   continuation finishes all calls, each with a vector or with nothing, never with an exception.
   */
  lemma {:induction false} EveryCallCanFinish(s: State) returns (actions: seq<Action>)
    requires Inv(s)
    ensures AllHealthy(actions)
    ensures AllFinished(Exec(s, actions))
    decreases TotalRank(s.clients)
  {
    if AllFinished(s) {
      actions := [];
    } else {
      var c :| 0 <= c < |s.clients| && !Finished(s.clients[c].phase);
      var round, next := HealthyRound(s, c);
      var rest := EveryCallCanFinish(next);
      actions := round + rest;
      HealthyConcat(round, rest);
    }
  }

  /**
   The waiting loop by itself, against any answers to its cache reads and lock checks: it sleeps
   before every poll, ends at the first cached vector, at the first missing lock, or after the
   last poll, and with its defaults never sleeps more than five seconds.
   */
  method WaitForCache(cached: nat -> Option<Vector>, locked: nat -> bool, maxRetries: nat, delayMs: nat)
    returns (result: Option<Vector>, polls: nat, sleptMs: nat)
    ensures polls <= maxRetries && sleptMs == delayMs * polls
    ensures maxRetries == MAX_POLLS && delayMs == POLL_DELAY_MS ==> sleptMs <= 5000
    ensures forall i: nat :: i + 1 < polls ==> (cached(i) == None || cached(i) == Some([])) && locked(i)
    ensures result.Some? ==> polls > 0 && result == cached(polls - 1) && result.value != []
    ensures result.None? && polls > 0 ==> cached(polls - 1) == None || cached(polls - 1) == Some([])
    ensures result.None? && polls < maxRetries ==> polls > 0 && !locked(polls - 1)
  {
    result, polls, sleptMs := None, 0, 0;
    while polls < maxRetries
      invariant polls <= maxRetries && sleptMs == delayMs * polls
      invariant forall i: nat :: i < polls ==> (cached(i) == None || cached(i) == Some([])) && locked(i)
    {
      sleptMs := sleptMs + delayMs;
      var vector := cached(polls);
      polls := polls + 1;
      if vector.Some? && |vector.value| > 0 {
        return vector, polls, sleptMs;
      }
      if !locked(polls - 1) {
        return None, polls, sleptMs;
      }
    }
  }
}
