/**
 What coalescing guarantees in every reachable state: one load per key, one outcome for all who
 wait for it, no cycle of waits, empty maps once everything has settled, and bounded staleness.
 */
module CoalescingTheorems {
  import opened Wrappers
  import opened RedisStore
  import opened Coalescing

  predicate IsUnsettled(s: State, t: nat, key: Key) {
    IsLoad(s, t, key) && !s.tasks[t].step.Settled?
  }

  /**
   At most one load per key is in flight, and the map finds it. For details and related lists an
   entry exists exactly while a load is in flight; a count's entry stays until its owner goes on.
   */
  lemma OneLoadPerKey(s: State, key: Key)
    requires Reachable(s)
    ensures forall t: nat, u: nat :: IsUnsettled(s, t, key) && IsUnsettled(s, u, key) ==> t == u
    ensures forall t: nat :: IsUnsettled(s, t, key) ==> key in s.loads && s.loads[key] == t
    ensures key in s.loads && !key.Count? ==> IsUnsettled(s, s.loads[key], key)
    ensures key in s.loads && key.Count? ==>
              IsLoad(s, s.loads[key], key) && s.tasks[s.loads[key]].owner < |s.tasks|
              && s.tasks[s.tasks[s.loads[key]].owner] == Call(key, Joined(s.loads[key]))
  {
    ReachableInv(s);
    if key in s.loads { assert TaskOk(s, s.loads[key]); }
  }

  predicate AnsweredVia(s: State, t: nat, load: nat, outcome: Outcome) {
    t < |s.tasks| && s.tasks[t].Call? && s.tasks[t].stage == Answered(outcome, Some(load))
  }

  /** The owner and every joiner of a load end with that load's own outcome, as seen by a caller. */
  lemma JoinersShareOutcome(s: State, load: nat)
    requires Reachable(s)
    ensures forall t: nat, outcome :: AnsweredVia(s, t, load, outcome) ==>
              && IsLoad(s, load, s.tasks[t].key) && s.tasks[load].step.Settled?
              && outcome == Surface(s.tasks[t].key, s.tasks[load].step.result)
    ensures forall t: nat, u: nat, o, p :: AnsweredVia(s, t, load, o) && AnsweredVia(s, u, load, p) ==> o == p
  {
    ReachableInv(s);
    forall t: nat, outcome | AnsweredVia(s, t, load, outcome)
      ensures IsLoad(s, load, s.tasks[t].key) && s.tasks[load].step.Settled?
      ensures outcome == Surface(s.tasks[t].key, s.tasks[load].step.result)
    {
      assert TaskOk(s, t);
    }
  }

  // ---------------------------------------------------------------- Progress and quiescence

  /** An upper bound on the steps a task and everything it may start still have to take. */
  function Rank(task: Task): nat {
    match task
    case Call(key, Reading) => if key.Related? then 11 else 5
    case Call(key, Read(_)) => if key.Related? then 10 else 4
    case Call(_, Joined(_)) => 1
    case Call(_, Answered(_, _)) => 0
    case Load(_, _, AwaitingDetail(_)) => 3
    case Load(_, _, Ranking(_, _)) => 2
    case Load(_, _, Ranked(_, _, _, _)) => 1
    case Load(_, _, Querying) => 2
    case Load(_, _, Queried(_, _)) => 1
    case Load(_, _, Settled(_)) => 0
  }

  function Total(tasks: seq<Task>): nat {
    if tasks == [] then 0 else Total(tasks[..|tasks| - 1]) + Rank(tasks[|tasks| - 1])
  }

  lemma {:induction false} TotalOfUpdate(tasks: seq<Task>, t: nat, task: Task)
    requires t < |tasks|
    ensures Total(tasks[t := task]) + Rank(tasks[t]) == Total(tasks) + Rank(task)
  {
    var n := |tasks| - 1;
    if t < n {
      TotalOfUpdate(tasks[..n], t, task);
      assert tasks[t := task][..n] == tasks[..n][t := task];
    } else {
      assert tasks[t := task][..n] == tasks[..n];
    }
  }

  lemma TotalOfAppend(tasks: seq<Task>, task: Task)
    ensures Total(tasks + [task]) == Total(tasks) + Rank(task)
  {
    assert (tasks + [task])[..|tasks|] == tasks;
  }

  /** The step is one of some task's own: the task it names goes on. */
  predicate Advances(s: State, a: Action) {
    var t := Actor(s, a);
    t < |s.tasks| && t < |Step(s, a).tasks| && Step(s, a).tasks[t] != s.tasks[t]
  }

  /** A load's own segments only lower its rank. */
  lemma LoadRankFalls(s: State, t: nat)
    requires Inv(s) && t < |s.tasks| && s.tasks[t].Load?
    ensures ResumeLoad(s, t).tasks == s.tasks[t := ResumeLoad(s, t).tasks[t]]
    ensures ResumeLoad(s, t).tasks[t] != s.tasks[t] ==> Rank(ResumeLoad(s, t).tasks[t]) < Rank(s.tasks[t])
  {
    assert TaskOk(s, t);
  }

  /** So do the answers to its queries. */
  lemma AnsweredRankFalls(s: State, t: nat, answer: Answer)
    requires t < |s.tasks| && s.tasks[t].Load?
    ensures AnswerQuery(s, t, answer).tasks == s.tasks[t := AnswerQuery(s, t, answer).tasks[t]]
    ensures AnswerQuery(s, t, answer).tasks[t] != s.tasks[t] ==> Rank(AnswerQuery(s, t, answer).tasks[t]) < Rank(s.tasks[t])
  {
  }

  lemma LoadAdvanceDescends(s: State, a: Action, t: nat)
    requires Inv(s) && t < |s.tasks| && s.tasks[t].Load? && t == Actor(s, a)
    ensures Total(Step(s, a).tasks) + (if Advances(s, a) then 1 else 0) <= Total(s.tasks)
  {
    var s' := Step(s, a);
    if a.Resume? { LoadRankFalls(s, t); }
    if a.DbAnswers? { AnsweredRankFalls(s, t, a.answer); }
    TotalOfUpdate(s.tasks, t, s'.tasks[t]);
    assert s'.tasks == s.tasks[t := s'.tasks[t]];
  }

  lemma StartDescends(s: State, t: nat)
    requires t < |s.tasks| && s.tasks[t].Call? && s.tasks[t].stage.Read?
    ensures Total(StartLoad(s, t).tasks) < Total(s.tasks)
  {
    var n, s' := |s.tasks|, StartLoad(s, t);
    var updated := s.tasks[t := s'.tasks[t]];
    TotalOfUpdate(s.tasks, t, s'.tasks[t]);
    TotalOfAppend(updated, s'.tasks[n]);
    if s.tasks[t].key.Related? {
      TotalOfAppend(updated + [s'.tasks[n]], s'.tasks[n + 1]);
      assert s'.tasks == updated + [s'.tasks[n]] + [s'.tasks[n + 1]];
    } else {
      assert s'.tasks == updated + [s'.tasks[n]];
    }
  }

  predicate Starts(s: State, a: Action) {
    a.Resume? && a.t < |s.tasks| && s.tasks[a.t].Call? && s.tasks[a.t].stage == Read(None) && s.tasks[a.t].key !in s.loads
  }

  lemma CallAdvanceDescends(s: State, a: Action, t: nat)
    requires t < |s.tasks| && s.tasks[t].Call? && t == Actor(s, a)
    ensures Total(Step(s, a).tasks) + (if Advances(s, a) then 1 else 0) <= Total(s.tasks)
  {
    if Starts(s, a) {
      StartDescends(s, t);
    } else {
      var s' := Step(s, a);
      assert s'.tasks == s.tasks[t := s'.tasks[t]];
      TotalOfUpdate(s.tasks, t, s'.tasks[t]);
    }
  }

  lemma StepDescends(s: State, a: Action)
    requires Inv(s)
    ensures Total(Step(s, a).tasks) + (if Advances(s, a) then 1 else 0)
            <= Total(s.tasks) + (if a.Arrive? then 11 else 0)
  {
    var t := Actor(s, a);
    if t < |s.tasks| {
      if s.tasks[t].Call? { CallAdvanceDescends(s, a, t); } else { LoadAdvanceDescends(s, a, t); }
    } else if a.Arrive? {
      TotalOfAppend(s.tasks, Call(a.key, Reading));
    }
  }

  /** The number of steps of a run that some task took. */
  function StepsTaken(s: State, actions: seq<Action>): nat
    decreases |actions|
  {
    if actions == [] then 0
    else (if Advances(s, actions[0]) then 1 else 0) + StepsTaken(Step(s, actions[0]), actions[1..])
  }

  function Arrivals(actions: seq<Action>): nat {
    if actions == [] then 0 else (if actions[0].Arrive? then 1 else 0) + Arrivals(actions[1..])
  }

  /** However the steps interleave and whatever fails, each request causes at most eleven of them. */
  lemma {:induction false} WorkIsBounded(s: State, actions: seq<Action>)
    requires Inv(s)
    ensures StepsTaken(s, actions) + Total(Exec(s, actions).tasks) <= Total(s.tasks) + 11 * Arrivals(actions)
    decreases |actions|
  {
    if actions != [] {
      StepDescends(s, actions[0]);
      StepKeepsInv(s, actions[0]);
      WorkIsBounded(Step(s, actions[0]), actions[1..]);
    }
  }

  // ---------------------------------------------------------------- No cycle of waits

  /** The one task a task waits for: a joined call for its load, a related load for its detail call. */
  function WaitsFor(s: State, t: nat): Option<nat>
    requires t < |s.tasks|
  {
    match s.tasks[t]
    case Call(_, Joined(load)) => Some(load)
    case Load(_, _, AwaitingDetail(call)) => Some(call)
    case _ => None
  }

  /** How many waits can still follow: related call, related load, detail call, detail load. */
  function Depth(task: Task): nat {
    match task
    case Call(key, _) => if key.Related? then 3 else 1
    case Load(key, _, _) => if key.Related? then 2 else 0
  }

  /** Every wait leads one level down, so no chain of waits comes back to where it began. */
  lemma WaitsDescend(s: State, t: nat)
    requires Reachable(s) && t < |s.tasks| && WaitsFor(s, t).Some?
    ensures WaitsFor(s, t).value < |s.tasks|
    ensures Depth(s.tasks[WaitsFor(s, t).value]) < Depth(s.tasks[t])
  {
    ReachableInv(s);
    assert TaskOk(s, t);
  }

  /** A step that a task can take next, if what it is waiting for outside has answered. */
  function NextStep(s: State, t: nat): Action
    requires t < |s.tasks|
  {
    match s.tasks[t]
    case Call(_, Reading) => CacheAnswers(t, false)
    case Load(_, _, Querying) => DbAnswers(t, Failed)
    case Load(_, _, Ranking(_, _)) => DbAnswers(t, Failed)
    case _ => Resume(t)
  }

  /** The task at the end of the chain of waits that starts at t. */
  function Frontier(s: State, t: nat): (f: nat)
    requires t < |s.tasks|
    ensures f < |s.tasks|
    decreases Depth(s.tasks[t])
  {
    match WaitsFor(s, t)
    case Some(u) =>
      if u < |s.tasks| && !Finished(s.tasks[u]) && Depth(s.tasks[u]) < Depth(s.tasks[t]) then Frontier(s, u) else t
    case None => t
  }

  lemma FrontierIsUnfinished(s: State, t: nat)
    requires t < |s.tasks| && !Finished(s.tasks[t])
    ensures !Finished(s.tasks[Frontier(s, t)])
    ensures var f := Frontier(s, t);
            WaitsFor(s, f).Some? ==> var u := WaitsFor(s, f).value;
              u >= |s.tasks| || Finished(s.tasks[u]) || Depth(s.tasks[u]) >= Depth(s.tasks[f])
    decreases Depth(s.tasks[t])
  {
    match WaitsFor(s, t)
    case Some(u) =>
      if u < |s.tasks| && !Finished(s.tasks[u]) && Depth(s.tasks[u]) < Depth(s.tasks[t]) { FrontierIsUnfinished(s, u); }
    case None =>
  }

  lemma UnblockedTaskAdvances(s: State, t: nat)
    requires Inv(s) && t < |s.tasks| && !Finished(s.tasks[t])
    requires WaitsFor(s, t).Some? ==> WaitsFor(s, t).value < |s.tasks| && Finished(s.tasks[WaitsFor(s, t).value])
    ensures Advances(s, NextStep(s, t))
  {
    assert TaskOk(s, t);
  }

  /** Whatever the interleaving, an unfinished task is never stuck: the task it finally waits for can go on. */
  lemma SomeoneCanAdvance(s: State, t: nat)
    requires Reachable(s) && t < |s.tasks| && !Finished(s.tasks[t])
    ensures Advances(s, NextStep(s, Frontier(s, t)))
  {
    ReachableInv(s);
    FrontierIsUnfinished(s, t);
    var f := Frontier(s, t);
    if WaitsFor(s, f).Some? { WaitsDescend(s, f); }
    UnblockedTaskAdvances(s, f);
  }

  ghost predicate Quiescent(s: State) {
    forall a :: !Advances(s, a)
  }

  /** When nothing can go on, every request has its answer and no map entry is left, also after errors. */
  lemma QuiescentMapsAreEmpty(s: State)
    requires Reachable(s) && Quiescent(s)
    ensures forall t: nat :: t < |s.tasks| ==> Finished(s.tasks[t])
    ensures s.loads == map[]
  {
    forall t: nat | t < |s.tasks| ensures Finished(s.tasks[t]) {
      if !Finished(s.tasks[t]) { SomeoneCanAdvance(s, t); }
    }
    ReachableInv(s);
    assert forall key :: key !in s.loads;
  }

  // ---------------------------------------------------------------- Staleness

  /**
   A count is one the database gave for this filter. From a load it is as old as its query; from the
   cache, younger than three minutes plus the delay of its cache write.
   */
  lemma CountStaleness(s: State, t: nat, source: string, isNew: bool, served: Served, via: Option<nat>)
    requires Reachable(s) && t < |s.tasks| && s.tasks[t] == Call(Count(source, isNew), Answered(Ok(served), via))
    ensures served.value.Number? && (Count(source, isNew), served.value) in s.answers
    ensures via.Some? ==> served.readAt == served.value.at
    ensures via.None? ==>
              && served.writtenAt.Some? && served.value.at <= served.writtenAt.value
              && served.readAt - served.value.at < 180000 + (served.writtenAt.value - served.value.at)
  {
    ReachableInv(s);
    assert TaskOk(s, t);
  }

  /** The age of an article when it was read: nothing if it came from a load, else bounded by the detail TTL. */
  function ArticleAgeBound(s: State, article: Served): int
    requires article.value.Doc?
  {
    match article.writtenAt
    case None => 0
    case Some(writtenAt) => 1000 * s.detailTtlSeconds + (writtenAt - article.value.article.at)
  }

  /**
   A cached related list was ranked with an embedding that the database gave for this very article.
   Its age is below the related TTL plus the detail TTL plus the delays of both loads and writes.
   */
  lemma RelatedStaleness(s: State, t: nat, id: int, limit: int, served: Served)
    requires Reachable(s) && s.detailTtlSeconds > 0 && s.relatedTtlSeconds > 0
    requires t < |s.tasks| && s.tasks[t] == Call(Related(id, limit), Answered(Ok(served), None))
    ensures served.value.List? && served.value.source.value.Doc? && served.writtenAt.Some?
    ensures var article := served.value.source;
            && article.value.article.id == id && (Detail(id), article.value) in s.answers
            && article.readAt <= served.value.usedAt <= served.writtenAt.value
            && article.readAt - article.value.article.at <= ArticleAgeBound(s, article)
            && served.readAt - article.value.article.at
               < 1000 * s.relatedTtlSeconds + (served.writtenAt.value - article.readAt) + ArticleAgeBound(s, article)
  {
    ReachableInv(s);
    assert TaskOk(s, t);
  }

  // ---------------------------------------------------------------- What the callers get

  /** The history of answers grows only by what the database has just answered to a load of that key. */
  lemma AnswersAreTheDatabases(s: State, a: Action, key: Key, value: Value)
    requires Inv(s) && (key, value) !in s.answers && (key, value) in Step(s, a).answers
    ensures a.DbAnswers? && IsLoad(s, a.t, key)
    ensures match key
            case Count(_, _) => a.answer.Total? && value == Number(a.answer.n, s.now)
            case Detail(id) => a.answer.Row? && value == Doc(Article(id, a.answer.embedding, s.now))
            case Related(_, _) => a.answer.Rows? && value.List? && value.rows == a.answer.rows
  {
    if Actor(s, a) < |s.tasks| { assert TaskOk(s, Actor(s, a)); }
  }

  /**
   A related list, from a load or from the cache, holds exactly the rows that the database ranked for
   this article by the embedding it was ranked with; it is empty if the article has no embedding.
   */
  lemma RelatedRowsAreTheDatabases(s: State, t: nat, id: int, limit: int, served: Served, via: Option<nat>)
    requires Reachable(s) && t < |s.tasks| && s.tasks[t] == Call(Related(id, limit), Answered(Ok(served), via))
    ensures served.value.List? && served.value.source.value.Doc? && served.value.source.value.article.id == id
    ensures served.value.source.value.article.embedding == [] ==> served.value.rows == []
    ensures served.value.source.value.article.embedding != [] ==> (Related(id, limit), served.value) in s.answers
  {
    ReachableInv(s);
    assert TaskOk(s, t);
  }

  predicate HasSettled(s: State, load: nat) {
    load < |s.tasks| && s.tasks[load].Load? && s.tasks[load].step.Settled?
  }

  predicate HasAnswered(s: State, call: nat, outcome: Outcome) {
    call < |s.tasks| && s.tasks[call].Call? && s.tasks[call].stage.Answered? && s.tasks[call].stage.outcome == outcome
  }

  /** A load whose key is not a count ends with this result. */
  predicate EndsWith(s: State, s': State, t: nat, result: Outcome)
    requires t < |s.tasks| && s.tasks[t].Load?
  {
    && t < |s'.tasks| && s'.tasks[t] == Load(s.tasks[t].key, s.tasks[t].owner, Settled(result))
    && s'.loads == s.loads - {s.tasks[t].key}
    && s'.writes == s.writes + (if result.Ok? then [(s.tasks[t].key, result.served.value)] else [])
  }

  /** The ranking query's rows, and only they, are what a related load ends with; an error is an error. */
  lemma RankingReachesTheLoad(s: State, t: nat, answer: Answer)
    requires t < |s.tasks| && s.tasks[t].Load? && s.tasks[t].step.Ranking?
    ensures var s' := Step(Step(s, DbAnswers(t, answer)), Resume(t));
            var step := s.tasks[t].step;
            EndsWith(s, s', t, if answer.Rows? then Ok(Served(List(answer.rows, step.article, step.usedAt), None, s.now)) else DbError)
  {
  }

  /** A detail load ends with the row it read, with NotFound for a missing one, with an error for an error. */
  lemma DetailReachesTheLoad(s: State, t: nat, answer: Answer)
    requires t < |s.tasks| && s.tasks[t].Load? && s.tasks[t].key.Detail? && s.tasks[t].step.Querying?
    ensures var s', id := Step(Step(s, DbAnswers(t, answer)), Resume(t)), s.tasks[t].key.id;
            EndsWith(s, s', t, if answer.Row? then Ok(Served(Doc(Article(id, answer.embedding, s.now)), None, s.now))
                               else if answer.Missing? then NotFound else DbError)
  {
  }

  /** A count load settles with the number it read, or with an error. */
  lemma CountReachesTheLoad(s: State, t: nat, answer: Answer)
    requires t < |s.tasks| && s.tasks[t].Load? && s.tasks[t].key.Count? && s.tasks[t].step.Querying?
    ensures Step(s, DbAnswers(t, answer)).tasks[t].step
            == Settled(if answer.Total? then Ok(Served(Number(answer.n, s.now), None, s.now)) else DbError)
  {
  }

  /**
   A settled load's outcome reaches whoever waits for it: results and NotFound as they are; errors of
   details and related lists as an internal error. The owner of a count also writes it and cleans up.
   */
  lemma OutcomeReachesTheCall(s: State, t: nat)
    requires Inv(s) && t < |s.tasks| && s.tasks[t].Call? && s.tasks[t].stage.Joined?
    requires HasSettled(s, s.tasks[t].stage.load)
    ensures var load, key, s' := s.tasks[t].stage.load, s.tasks[t].key, Step(s, Resume(t));
            var result := s.tasks[load].step.result;
            && t < |s'.tasks| && s'.tasks[t].key == key
            && (result.Ok? || result.NotFound? ==> s'.tasks[t].stage == Answered(result, Some(load)))
            && (result.DbError? && !key.Count? ==> s'.tasks[t].stage == Answered(Internal, Some(load)))
            && (result.DbError? && key.Count? ==> s'.tasks[t].stage == Answered(DbError, Some(load)))
            && (key.Count? && s.tasks[load].owner == t ==>
                  && s'.loads == s.loads - {key}
                  && s'.writes == s.writes + (if result.Ok? then [(key, result.served.value)] else []))
  {
    assert TaskOk(s, t);
  }

  /** A related load fails as its nested detail call failed, with nothing written and its entry dropped. */
  lemma NestedFailureReachesTheLoad(s: State, t: nat, failure: Outcome)
    requires t < |s.tasks| && s.tasks[t].Load? && s.tasks[t].step.AwaitingDetail?
    requires HasAnswered(s, s.tasks[t].step.call, failure) && !failure.Ok?
    ensures EndsWith(s, Step(s, Resume(t)), t, failure)
  {
  }

  lemma OthersStay(s: State, a: Action, i: nat)
    requires i < |s.tasks| && i != Actor(s, a)
    ensures i < |Step(s, a).tasks| && Step(s, a).tasks[i] == s.tasks[i]
  {
    StepGrows(s, a);
  }

  lemma JoinedCallIsNotFound(s: State, load: nat, call: nat)
    requires Inv(s) && HasSettled(s, load) && s.tasks[load].step.result == NotFound
    requires call < |s.tasks| && s.tasks[call].Call? && s.tasks[call].stage == Joined(load)
    ensures HasAnswered(Step(s, Resume(call)), call, NotFound)
  {
    OutcomeReachesTheCall(s, call);
    StepGrows(s, Resume(call));
  }

  /** A missing article is NotFound for a detail call that waits for the query. */
  lemma MissingArticleIsNotFound(s: State, load: nat, call: nat)
    requires Inv(s) && load < |s.tasks| && call < |s.tasks|
    requires s.tasks[load].Load? && s.tasks[load].key.Detail? && s.tasks[load].step.Querying?
    requires s.tasks[call].Call? && s.tasks[call].stage == Joined(load)
    ensures HasAnswered(Step(Step(Step(s, DbAnswers(load, Missing)), Resume(load)), Resume(call)), call, NotFound)
  {
    var s1 := Step(s, DbAnswers(load, Missing));
    var s2 := Step(s1, Resume(load));
    StepKeepsInv(s, DbAnswers(load, Missing));
    StepKeepsInv(s1, Resume(load));
    DetailReachesTheLoad(s, load, Missing);
    OthersStay(s, DbAnswers(load, Missing), call);
    OthersStay(s1, Resume(load), call);
    JoinedCallIsNotFound(s2, load, call);
  }

  /** And, once that detail call has its answer, for a related call whose load waits on it. */
  lemma MissingArticleHasNoRelated(s: State, detailCall: nat, load: nat, call: nat)
    requires Inv(s) && HasAnswered(s, detailCall, NotFound) && load < |s.tasks| && call < |s.tasks|
    requires s.tasks[load].Load? && s.tasks[load].step == AwaitingDetail(detailCall)
    requires s.tasks[call].Call? && s.tasks[call].stage == Joined(load)
    ensures HasAnswered(Step(Step(s, Resume(load)), Resume(call)), call, NotFound)
  {
    NestedFailureReachesTheLoad(s, load, NotFound);
    StepKeepsInv(s, Resume(load));
    OthersStay(s, Resume(load), call);
    JoinedCallIsNotFound(Step(s, Resume(load)), load, call);
  }

  /** A live cached value answers the call as it was written, and no load starts. */
  lemma CacheHitSkipsTheLoad(s: State, t: nat)
    requires t < |s.tasks| && s.tasks[t].Call? && s.tasks[t].stage.Reading? && Live(s.cache, s.now, s.tasks[t].key)
    ensures var key := s.tasks[t].key;
            var s', w := Step(Step(s, CacheAnswers(t, true)), Resume(t)), s.cache[key].value;
            && s'.tasks == s.tasks[t := Call(key, Answered(Ok(Served(w.value, Some(w.writtenAt), s.now)), None))]
            && s'.loads == s.loads && s'.writes == s.writes
  {
  }

  /** A cache write that succeeds is read back until its time to live is over; one that fails changes nothing. */
  lemma FlushedIsCached(s: State, i: nat, ok: bool)
    requires i < |s.writes|
    ensures var s', (key, value) := Step(s, Flush(i, ok)), s.writes[i];
            && (ok ==>
                  var seconds := match key
                                 case Count(_, _) => 180
                                 case Detail(_) => s.detailTtlSeconds
                                 case Related(_, _) => s.relatedTtlSeconds;
                  && Lookup(s'.cache, s'.now, key) == Some(Written(value, s.now))
                  && Pttl(s'.cache, s'.now, key) == if seconds > 0 then 1000 * seconds else -1)
            && (!ok ==> s'.cache == s.cache) && s'.tasks == s.tasks && s'.loads == s.loads
  {
  }
}
