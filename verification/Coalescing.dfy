/**
 Request coalescing over a cache with expiry, as a step relation over any number of calls.

 A call of getListCount, getTrendById or getRelatedTrends, and every load it starts, is a task;
 each step is one synchronous segment between two awaits, or an answer of the cache, the
 database, a background cache write or the clock. The service's three maps of pending loads are
 one map here, keyed by the kind of load as well as by its own key.

 Served, writtenAt and answers are history: they record where a value came from and when.
 */
module Coalescing {
  import opened Wrappers
  import opened RedisStore
  import TrendsCache

  datatype Key = Count(source: string, isNew: bool) | Detail(id: int) | Related(id: int, limit: int)

  /** A row with its embedding as the database had it at instant `at`. */
  datatype Article = Article(id: int, embedding: seq<real>, at: int)

  datatype Value =
    | Number(n: int, at: int)
    | Doc(article: Article)
    | List(rows: seq<int>, source: Served, usedAt: int)

  /** A value together with the instant it was last read and, if from the cache, when it was written there. */
  datatype Served = Served(value: Value, writtenAt: Option<int>, readAt: int)

  datatype Outcome = Ok(served: Served) | NotFound | DbError | Internal

  datatype Answer = Row(embedding: seq<real>) | Rows(rows: seq<int>) | Total(n: int) | Missing | Failed

  datatype Task =
    | Call(key: Key, stage: CallStage)
    | Load(key: Key, owner: nat, step: LoadStage)

  datatype CallStage =
    | Reading                                        // cache lookup in flight
    | Read(cached: Option<Served>)                   // cache answered; the call is about to go on
    | Joined(load: nat)                              // awaits a load, its own or another call's
    | Answered(outcome: Outcome, via: Option<nat>)

  datatype LoadStage =
    | Querying                                       // database query in flight
    | Queried(answer: Answer, at: int)
    | AwaitingDetail(call: nat)                      // a related load awaits its nested detail call
    | Ranking(article: Served, usedAt: int)          // related query in flight
    | Ranked(article: Served, usedAt: int, answer: Answer, at: int)
    | Settled(result: Outcome)

  datatype Written = Written(value: Value, writtenAt: int)

  datatype State = State(
    now: int,
    detailTtlSeconds: int,
    relatedTtlSeconds: int,
    tasks: seq<Task>,
    loads: map<Key, nat>,
    cache: Db<Key, Written>,
    writes: seq<(Key, Value)>,
    answers: set<(Key, Value)>)

  datatype Action =
    | Arrive(key: Key)
    | CacheAnswers(t: nat, up: bool)
    | DbAnswers(t: nat, answer: Answer)
    | Resume(t: nat)
    | Flush(i: nat, ok: bool)
    | Tick(ms: nat)

  function TtlSeconds(s: State, key: Key): int {
    match key
    case Count(_, _) => TrendsCache.LIST_COUNT_TTL_SECONDS
    case Detail(_) => s.detailTtlSeconds
    case Related(_, _) => s.relatedTtlSeconds
  }

  function FromCache(s: State, key: Key): Option<Served> {
    match Lookup<Key, Written>(s.cache, s.now, key)
    case Some(w) => Some(Served(w.value, Some(w.writtenAt), s.now))
    case None => None
  }

  predicate Finished(task: Task) {
    if task.Call? then task.stage.Answered? else task.step.Settled?
  }

  /** How a load's failure reaches the caller: HTTP errors pass, anything else becomes an internal error. */
  function Surface(key: Key, outcome: Outcome): Outcome {
    if outcome.DbError? && !key.Count? then Internal else outcome
  }

  function SetStage(s: State, t: nat, stage: CallStage): State
    requires t < |s.tasks| && s.tasks[t].Call?
  {
    s.(tasks := s.tasks[t := s.tasks[t].(stage := stage)])
  }

  function SetStep(s: State, t: nat, step: LoadStage): State
    requires t < |s.tasks| && s.tasks[t].Load?
  {
    s.(tasks := s.tasks[t := s.tasks[t].(step := step)])
  }

  /** The miss nobody is loading: register a load, and for a related load start its nested detail call. */
  function StartLoad(s: State, t: nat): State
    requires t < |s.tasks| && s.tasks[t].Call?
  {
    var key := s.tasks[t].key;
    var load := |s.tasks|;
    var added := if key.Related? then [Load(key, t, AwaitingDetail(load + 1)), Call(Detail(key.id), Reading)]
                 else [Load(key, t, Querying)];
    SetStage(s, t, Joined(load)).(tasks := SetStage(s, t, Joined(load)).tasks + added, loads := s.loads[key := load])
  }

  /** A detail or related load ends: start the cache write of a result, drop the entry, settle the promise. */
  function Settle(s: State, t: nat, result: Outcome): State
    requires t < |s.tasks| && s.tasks[t].Load?
  {
    var key := s.tasks[t].key;
    SetStep(s, t, Settled(result)).(loads := s.loads - {key}, writes := WritesAfter(s, key, result))
  }

  function WritesAfter(s: State, key: Key, result: Outcome): seq<(Key, Value)> {
    if result.Ok? then s.writes + [(key, result.served.value)] else s.writes
  }

  function ResumeCall(s: State, t: nat): State
    requires t < |s.tasks| && s.tasks[t].Call?
  {
    var key := s.tasks[t].key;
    match s.tasks[t].stage
    case Read(Some(served)) => SetStage(s, t, Answered(Ok(served), None))
    case Read(None) => if key in s.loads then SetStage(s, t, Joined(s.loads[key])) else StartLoad(s, t)
    case Joined(load) =>
      if load < |s.tasks| && s.tasks[load].Load? && s.tasks[load].step.Settled? then
        var result := s.tasks[load].step.result;
        var done := SetStage(s, t, Answered(Surface(key, result), Some(load)));
        if key.Count? && s.tasks[load].owner == t then
          done.(loads := s.loads - {key}, writes := WritesAfter(s, key, result))
        else done
      else s
    case _ => s
  }

  function ResumeLoad(s: State, t: nat): State
    requires t < |s.tasks| && s.tasks[t].Load?
  {
    var key := s.tasks[t].key;
    match s.tasks[t].step
    case Queried(Row(embedding), at) =>
      if key.Detail? then Settle(s, t, Ok(Served(Doc(Article(key.id, embedding, at)), None, at))) else s
    case Queried(Missing, _) => Settle(s, t, NotFound)
    case Queried(_, _) => Settle(s, t, DbError)
    case AwaitingDetail(call) =>
      if call < |s.tasks| && s.tasks[call].Call? && s.tasks[call].stage.Answered? then
        (match s.tasks[call].stage.outcome
         case Ok(served) =>
           if served.value.Doc? && served.value.article.embedding != [] then SetStep(s, t, Ranking(served, s.now))
           else Settle(s, t, Ok(Served(List([], served, s.now), None, s.now)))
         case failure => Settle(s, t, failure))
      else s
    case Ranked(article, usedAt, Rows(rows), at) => Settle(s, t, Ok(Served(List(rows, article, usedAt), None, at)))
    case Ranked(_, _, _, _) => Settle(s, t, DbError)
    case _ => s
  }

  function AnswerQuery(s: State, t: nat, answer: Answer): State
    requires t < |s.tasks| && s.tasks[t].Load?
  {
    var key := s.tasks[t].key;
    match s.tasks[t].step
    case Querying =>
      if key.Count? then
        (match answer
         case Total(n) =>
           SetStep(s, t, Settled(Ok(Served(Number(n, s.now), None, s.now)))).(answers := s.answers + {(key, Number(n, s.now))})
         case _ => SetStep(s, t, Settled(DbError)))
      else if key.Detail? && answer.Row? then
        SetStep(s, t, Queried(answer, s.now))
        .(answers := s.answers + {(key, Doc(Article(key.id, answer.embedding, s.now)))})
      else SetStep(s, t, Queried(if answer.Missing? then Missing else Failed, s.now))
    case Ranking(article, usedAt) =>
      var next := SetStep(s, t, Ranked(article, usedAt, answer, s.now));
      if answer.Rows? then next.(answers := s.answers + {(key, List(answer.rows, article, usedAt))}) else next
    case _ => s
  }

  function Flushed(s: State, i: nat, ok: bool): State
    requires i < |s.writes|
  {
    var (key, value) := s.writes[i];
    var rest := s.(writes := s.writes[..i] + s.writes[i + 1..]);
    if ok then rest.(cache := SetCache(s.cache, s.now, key, Written(value, s.now), TtlSeconds(s, key))) else rest
  }

  function Step(s: State, a: Action): State {
    match a
    case Arrive(key) => s.(tasks := s.tasks + [Call(key, Reading)])
    case CacheAnswers(t, up) =>
      if t < |s.tasks| && s.tasks[t].Call? && s.tasks[t].stage.Reading? then
        SetStage(s, t, Read(if up then FromCache(s, s.tasks[t].key) else None))
      else s
    case DbAnswers(t, answer) =>
      if t < |s.tasks| && s.tasks[t].Load? then AnswerQuery(s, t, answer) else s
    case Resume(t) =>
      if t >= |s.tasks| then s else if s.tasks[t].Call? then ResumeCall(s, t) else ResumeLoad(s, t)
    case Flush(i, ok) => if i < |s.writes| then Flushed(s, i, ok) else s
    case Tick(ms) => s.(now := s.now + ms)
  }

  function Exec(s: State, actions: seq<Action>): State
    decreases |actions|
  {
    if actions == [] then s else Exec(Step(s, actions[0]), actions[1..])
  }

  ghost predicate Init(s: State) {
    s.tasks == [] && s.loads == map[] && s.cache == map[] && s.writes == [] && s.answers == {}
  }

  // ---------------------------------------------------------------- Values

  function Born(value: Value): int {
    match value
    case Number(_, at) => at
    case Doc(article) => article.at
    case List(_, _, usedAt) => usedAt
  }

  /** Read no earlier than made; a cached value was read within its time to live, a fresh one as it was made. */
  predicate Timely(s: State, key: Key, served: Served) {
    && Born(served.value) <= served.readAt <= s.now
    && (served.writtenAt.None? && !served.value.List? ==> served.readAt == Born(served.value))
    && (served.writtenAt.Some? ==>
          && Born(served.value) <= served.writtenAt.value <= served.readAt
          && (TtlSeconds(s, key) > 0 ==> served.readAt < served.writtenAt.value + 1000 * TtlSeconds(s, key)))
  }

  /** An article the database gave for this id at the article's instant, in time. */
  ghost predicate GoodArticle(s: State, id: int, served: Served) {
    && served.value.Doc? && served.value.article.id == id && (Detail(id), served.value) in s.answers
    && Timely(s, Detail(id), served)
  }

  /** The value answers this key, and it is what the database said. */
  ghost predicate Sourced(s: State, key: Key, value: Value) {
    match value
    case Number(_, _) => key.Count? && (key, value) in s.answers
    case Doc(article) => key.Detail? && article.id == key.id && (key, value) in s.answers
    case List(rows, source, usedAt) =>
      && key.Related? && GoodArticle(s, key.id, source) && source.readAt <= usedAt
      && if source.value.article.embedding == [] then rows == [] else (key, value) in s.answers
  }

  ghost predicate Good(s: State, key: Key, served: Served) {
    Sourced(s, key, served.value) && Timely(s, key, served)
  }

  ghost predicate GoodOutcome(s: State, key: Key, outcome: Outcome, justLoaded: bool) {
    outcome.Ok? ==> Good(s, key, outcome.served) && (outcome.served.writtenAt.None? <==> justLoaded)
  }

  // ---------------------------------------------------------------- Invariants

  predicate IsLoad(s: State, t: nat, key: Key) {
    t < |s.tasks| && s.tasks[t].Load? && s.tasks[t].key == key
  }

  ghost predicate CallOk(s: State, call: Task)
    requires call.Call?
  {
    match call.stage
    case Reading => true
    case Read(cached) => cached.Some? ==> GoodOutcome(s, call.key, Ok(cached.value), false)
    case Joined(load) => IsLoad(s, load, call.key)
    case Answered(outcome, via) =>
      && GoodOutcome(s, call.key, outcome, via.Some?)
      && (via.Some? ==>
            && IsLoad(s, via.value, call.key) && s.tasks[via.value].step.Settled?
            && outcome == Surface(call.key, s.tasks[via.value].step.result))
  }

  ghost predicate LoadOk(s: State, t: nat, load: Task)
    requires load.Load?
  {
    && load.owner < |s.tasks| && s.tasks[load.owner].Call? && s.tasks[load.owner].key == load.key
    && (s.tasks[load.owner].stage == Joined(t) || s.tasks[load.owner].stage.Answered?)
    && match load.step
       case Querying => !load.key.Related?
       case Queried(answer, at) =>
         && load.key.Detail? && at <= s.now && (answer.Row? || answer.Missing? || answer.Failed?)
         && (answer.Row? ==> (load.key, Doc(Article(load.key.id, answer.embedding, at))) in s.answers)
       case AwaitingDetail(call) =>
         load.key.Related? && call < |s.tasks| && s.tasks[call].Call? && s.tasks[call].key == Detail(load.key.id)
       case Ranking(article, usedAt) => RankingOk(s, load.key, article, usedAt) && usedAt <= s.now
       case Ranked(article, usedAt, answer, at) =>
         && RankingOk(s, load.key, article, usedAt) && usedAt <= at <= s.now
         && (answer.Rows? ==> (load.key, List(answer.rows, article, usedAt)) in s.answers)
       case Settled(result) => GoodOutcome(s, load.key, result, true)
  }

  ghost predicate RankingOk(s: State, key: Key, article: Served, usedAt: int) {
    && key.Related? && GoodArticle(s, key.id, article) && article.readAt <= usedAt
    && article.value.article.embedding != []
  }

  ghost predicate TaskOk(s: State, t: nat)
    requires t < |s.tasks|
  {
    if s.tasks[t].Call? then CallOk(s, s.tasks[t]) else LoadOk(s, t, s.tasks[t])
  }

  /** A load keeps its map entry: a count load until its owner goes on, the others until they settle. */
  predicate Holds(s: State, t: nat)
    requires t < |s.tasks| && s.tasks[t].Load?
  {
    if s.tasks[t].key.Count? then
      s.tasks[t].owner < |s.tasks| && s.tasks[s.tasks[t].owner].Call?
      && s.tasks[s.tasks[t].owner].stage == Joined(t)
    else !s.tasks[t].step.Settled?
  }

  /** The map is exactly the set of loads that hold an entry, and an unsettled load always holds one. */
  ghost predicate MapsExact(s: State) {
    && (forall key :: key in s.loads ==> IsLoad(s, s.loads[key], key) && Holds(s, s.loads[key]))
    && (forall t: nat :: t < |s.tasks| && s.tasks[t].Load? && Holds(s, t) ==>
          s.tasks[t].key in s.loads && s.loads[s.tasks[t].key] == t)
    && (forall t: nat :: t < |s.tasks| && s.tasks[t].Load? && !s.tasks[t].step.Settled? ==> Holds(s, t))
  }

  ghost predicate CacheOk(s: State) {
    && (forall key :: key in s.cache ==>
          var w := s.cache[key].value;
          && Sourced(s, key, w.value) && Born(w.value) <= w.writtenAt <= s.now
          && s.cache[key].expireAt == CacheExpiry(w.writtenAt, TtlSeconds(s, key)))
    && (forall i :: 0 <= i < |s.writes| ==>
          Sourced(s, s.writes[i].0, s.writes[i].1) && Born(s.writes[i].1) <= s.now)
  }

  ghost predicate Inv(s: State) {
    && (forall t: nat :: t < |s.tasks| ==> TaskOk(s, t))
    && MapsExact(s)
    && CacheOk(s)
  }

  // ---------------------------------------------------------------- Steps keep the invariants

  /** From s to s' only task t may change, tasks may be appended, and a finished task stays as it is. */
  ghost predicate Grows(s: State, s': State, t: nat) {
    && |s.tasks| <= |s'.tasks|
    && (forall i: nat :: i < |s.tasks| && i != t ==> s'.tasks[i] == s.tasks[i])
    && (t < |s.tasks| ==> SameTask(s.tasks[t], s'.tasks[t]))
    && s.answers <= s'.answers && s.now <= s'.now
    && s'.detailTtlSeconds == s.detailTtlSeconds && s'.relatedTtlSeconds == s.relatedTtlSeconds
  }

  predicate SameTask(before: Task, after: Task) {
    && before.key == after.key
    && (before.Call? <==> after.Call?)
    && (before.Load? ==> before.owner == after.owner)
    && (Finished(before) ==> after == before)
    && (before.Call? && before.stage.Joined? ==> after == before || after.stage.Answered?)
  }

  lemma GrowthKeepsGood(s: State, s': State, t: nat, key: Key, served: Served)
    requires Grows(s, s', t) && Good(s, key, served)
    ensures Good(s', key, served)
  {
  }

  lemma GrowthKeepsCall(s: State, s': State, t: nat, i: nat)
    requires Grows(s, s', t) && i < |s.tasks| && i != t && s.tasks[i].Call? && TaskOk(s, i)
    ensures TaskOk(s', i)
  {
  }

  lemma GrowthKeepsLoad(s: State, s': State, t: nat, i: nat)
    requires Grows(s, s', t) && i < |s.tasks| && i != t && s.tasks[i].Load? && TaskOk(s, i)
    ensures TaskOk(s', i)
  {
  }

  lemma GrowthKeepsTask(s: State, s': State, t: nat, i: nat)
    requires Grows(s, s', t) && i < |s.tasks| && i != t && TaskOk(s, i)
    ensures TaskOk(s', i)
  {
    if s.tasks[i].Call? { GrowthKeepsCall(s, s', t, i); } else { GrowthKeepsLoad(s, s', t, i); }
  }

  lemma CallSegmentGrows(s: State, t: nat)
    requires t < |s.tasks| && s.tasks[t].Call?
    ensures Grows(s, ResumeCall(s, t), t)
  {
  }

  lemma LoadSegmentGrows(s: State, t: nat, answer: Answer)
    requires t < |s.tasks| && s.tasks[t].Load?
    ensures Grows(s, ResumeLoad(s, t), t) && Grows(s, AnswerQuery(s, t, answer), t)
  {
  }

  function Actor(s: State, a: Action): nat {
    if a.CacheAnswers? || a.DbAnswers? || a.Resume? then a.t else |s.tasks|
  }

  lemma StepGrows(s: State, a: Action)
    ensures Grows(s, Step(s, a), Actor(s, a))
  {
    var t := Actor(s, a);
    if t < |s.tasks| {
      if s.tasks[t].Call? {
        CallSegmentGrows(s, t);
      } else {
        LoadSegmentGrows(s, t, if a.DbAnswers? then a.answer else Failed);
      }
    }
  }

  lemma JoinedSegmentOk(s: State, t: nat)
    requires Inv(s) && t < |s.tasks| && s.tasks[t].Call? && s.tasks[t].stage.Joined?
    ensures TaskOk(ResumeCall(s, t), t)
  {
    assert TaskOk(s, t) && TaskOk(s, s.tasks[t].stage.load);
  }

  lemma CallSegmentOk(s: State, t: nat)
    requires Inv(s) && t < |s.tasks| && s.tasks[t].Call?
    ensures TaskOk(ResumeCall(s, t), t)
  {
    if s.tasks[t].stage.Joined? { JoinedSegmentOk(s, t); } else { assert TaskOk(s, t); }
  }

  lemma CacheAnswerOk(s: State, t: nat, up: bool)
    requires Inv(s) && t < |s.tasks| && s.tasks[t].Call?
    ensures TaskOk(Step(s, CacheAnswers(t, up)), t)
  {
    assert TaskOk(s, t);
  }

  lemma QueriedSegmentOk(s: State, t: nat)
    requires Inv(s) && t < |s.tasks| && s.tasks[t].Load? && s.tasks[t].step.Queried?
    ensures TaskOk(ResumeLoad(s, t), t)
  {
    assert TaskOk(s, t);
  }

  lemma AwaitingSegmentOk(s: State, t: nat)
    requires Inv(s) && t < |s.tasks| && s.tasks[t].Load? && s.tasks[t].step.AwaitingDetail?
    ensures TaskOk(ResumeLoad(s, t), t)
  {
    assert TaskOk(s, t);
    assert TaskOk(s, s.tasks[t].step.call);
  }

  lemma RankedSegmentOk(s: State, t: nat)
    requires Inv(s) && t < |s.tasks| && s.tasks[t].Load? && s.tasks[t].step.Ranked?
    ensures TaskOk(ResumeLoad(s, t), t)
  {
    assert TaskOk(s, t);
  }

  lemma LoadSegmentOk(s: State, t: nat)
    requires Inv(s) && t < |s.tasks| && s.tasks[t].Load?
    ensures TaskOk(ResumeLoad(s, t), t)
  {
    match s.tasks[t].step
    case Queried(_, _) => QueriedSegmentOk(s, t);
    case AwaitingDetail(_) => AwaitingSegmentOk(s, t);
    case Ranked(_, _, _, _) => RankedSegmentOk(s, t);
    case _ => assert TaskOk(s, t);
  }

  lemma QueryAnswerOk(s: State, t: nat, answer: Answer)
    requires Inv(s) && t < |s.tasks| && s.tasks[t].Load?
    ensures TaskOk(AnswerQuery(s, t, answer), t)
  {
    assert TaskOk(s, t);
  }

  lemma StartedOk(s: State, t: nat, i: nat)
    requires t < |s.tasks| && s.tasks[t].Call? && |s.tasks| <= i < |StartLoad(s, t).tasks|
    ensures TaskOk(StartLoad(s, t), i)
  {
  }

  lemma AppendedOk(s: State, a: Action, i: nat)
    requires |s.tasks| <= i < |Step(s, a).tasks|
    ensures TaskOk(Step(s, a), i)
  {
    if !a.Arrive? {
      assert Step(s, a) == StartLoad(s, a.t);
      StartedOk(s, a.t, i);
    }
  }

  /** A call that has not joined anything yet owns no load, so its moves leave every entry where it is. */
  lemma EarlyCallKeepsMaps(s: State, t: nat, stage: CallStage)
    requires Inv(s) && t < |s.tasks| && s.tasks[t].Call? && (s.tasks[t].stage.Reading? || s.tasks[t].stage.Read?)
    ensures MapsExact(SetStage(s, t, stage))
    ensures forall i: nat :: i < |s.tasks| && s.tasks[i].Load? ==> Holds(SetStage(s, t, stage), i) == Holds(s, i)
  {
    var s' := SetStage(s, t, stage);
    forall i: nat | i < |s.tasks| && s.tasks[i].Load? ensures Holds(s', i) == Holds(s, i) {
      assert TaskOk(s, i);
    }
  }

  lemma StartKeepsMaps(s: State, t: nat)
    requires Inv(s) && t < |s.tasks| && s.tasks[t].Call? && s.tasks[t].stage == Read(None) && s.tasks[t].key !in s.loads
    ensures MapsExact(StartLoad(s, t))
  {
    var s0, s' := SetStage(s, t, Joined(|s.tasks|)), StartLoad(s, t);
    EarlyCallKeepsMaps(s, t, Joined(|s.tasks|));
    assert forall i: nat :: i < |s.tasks| ==> s'.tasks[i] == s0.tasks[i];
    assert s'.tasks[|s.tasks|].Load? && Holds(s', |s.tasks|);
    forall i: nat | i < |s.tasks| && s.tasks[i].Load? ensures Holds(s', i) == Holds(s, i) {
      assert TaskOk(s, i);
      assert Holds(s', i) == Holds(s0, i);
    }
  }

  /** Going on after a load: an owner's count entry goes, nothing else changes. */
  lemma JoinedKeepsMaps(s: State, t: nat)
    requires Inv(s) && t < |s.tasks| && s.tasks[t].Call? && s.tasks[t].stage.Joined?
    ensures MapsExact(ResumeCall(s, t))
  {
    var s' := ResumeCall(s, t);
    var load := s.tasks[t].stage.load;
    assert TaskOk(s, t) && TaskOk(s, load);
    forall i: nat | i < |s.tasks| && s.tasks[i].Load? && i != load ensures Holds(s', i) == Holds(s, i) {
      assert TaskOk(s, i);
    }
    if s.tasks[t].key.Count? && s.tasks[load].owner == t {
      assert Holds(s, load) && s.loads[s.tasks[t].key] == load;
    }
  }

  lemma SettleKeepsMaps(s: State, t: nat, result: Outcome)
    requires MapsExact(s) && t < |s.tasks| && s.tasks[t].Load? && !s.tasks[t].step.Settled? && !s.tasks[t].key.Count?
    ensures MapsExact(Settle(s, t, result))
  {
    var s' := Settle(s, t, result);
    assert Holds(s, t);
    forall i: nat | i < |s.tasks| && s.tasks[i].Load? && i != t ensures Holds(s', i) == Holds(s, i) {
    }
  }

  lemma SetStepKeepsMaps(s: State, t: nat, step: LoadStage)
    requires MapsExact(s) && t < |s.tasks| && s.tasks[t].Load? && !s.tasks[t].step.Settled?
    requires s.tasks[t].key.Count? || !step.Settled?
    ensures MapsExact(SetStep(s, t, step))
  {
    var s' := SetStep(s, t, step);
    forall i: nat | i < |s.tasks| && s.tasks[i].Load? ensures Holds(s', i) == Holds(s, i) {
    }
  }

  lemma LoadSegmentKeepsMaps(s: State, t: nat)
    requires Inv(s) && t < |s.tasks| && s.tasks[t].Load?
    ensures MapsExact(ResumeLoad(s, t))
  {
    assert TaskOk(s, t);
    var s' := ResumeLoad(s, t);
    if s' != s {
      var step := s'.tasks[t].step;
      if step.Settled? {
        SettleKeepsMaps(s, t, step.result);
      } else {
        SetStepKeepsMaps(s, t, step);
      }
    }
  }

  lemma QueryKeepsMaps(s: State, t: nat, answer: Answer)
    requires Inv(s) && t < |s.tasks| && s.tasks[t].Load?
    ensures MapsExact(AnswerQuery(s, t, answer))
  {
    assert TaskOk(s, t);
    var s' := AnswerQuery(s, t, answer);
    if s' != s {
      SetStepKeepsMaps(s, t, s'.tasks[t].step);
      var s0 := SetStep(s, t, s'.tasks[t].step);
      forall i: nat | i < |s.tasks| && s.tasks[i].Load? ensures Holds(s', i) == Holds(s0, i) {
      }
    }
  }

  lemma StepKeepsMaps(s: State, a: Action)
    requires Inv(s)
    ensures MapsExact(Step(s, a))
  {
    var t := Actor(s, a);
    if t < |s.tasks| && s.tasks[t].Load? {
      if a.Resume? { LoadSegmentKeepsMaps(s, t); }
      if a.DbAnswers? { QueryKeepsMaps(s, t, a.answer); }
    } else if t < |s.tasks| {
      CallStepKeepsMaps(s, a, t);
    } else {
      var s' := Step(s, a);
      forall i: nat | i < |s.tasks| && s.tasks[i].Load? ensures Holds(s', i) == Holds(s, i) {
        assert TaskOk(s, i);
      }
    }
  }

  lemma CallStepKeepsMaps(s: State, a: Action, t: nat)
    requires Inv(s) && t < |s.tasks| && s.tasks[t].Call? && t == Actor(s, a)
    ensures MapsExact(Step(s, a))
  {
    var stage := s.tasks[t].stage;
    if stage.Joined? {
      JoinedKeepsMaps(s, t);
    } else if a.Resume? && stage == Read(None) && s.tasks[t].key !in s.loads {
      StartKeepsMaps(s, t);
    } else if (a.Resume? && stage.Read?) || (a.CacheAnswers? && stage.Reading?) {
      EarlyCallKeepsMaps(s, t, Step(s, a).tasks[t].stage);
    }
  }

  lemma FlushKeepsCache(s: State, i: nat, ok: bool)
    requires CacheOk(s) && i < |s.writes|
    ensures CacheOk(Flushed(s, i, ok))
  {
    assert s.writes[i] in s.writes;
  }

  lemma WriteKeepsCache(s: State, s': State, key: Key, served: Served)
    requires CacheOk(s) && s'.cache == s.cache && s.answers <= s'.answers && s.now <= s'.now
    requires s'.detailTtlSeconds == s.detailTtlSeconds && s'.relatedTtlSeconds == s.relatedTtlSeconds
    requires s'.writes == s.writes || (s'.writes == s.writes + [(key, served.value)] && Good(s', key, served))
    ensures CacheOk(s')
  {
    forall k | k in s'.cache ensures Sourced(s', k, s'.cache[k].value.value) {
      assert Sourced(s, k, s.cache[k].value.value);
    }
    forall i | 0 <= i < |s'.writes| ensures Sourced(s', s'.writes[i].0, s'.writes[i].1) {
      if i < |s.writes| { assert Sourced(s, s.writes[i].0, s.writes[i].1); }
    }
  }

  const NOTHING := Served(Number(0, 0), None, 0)

  lemma CallSegmentKeepsCache(s: State, t: nat)
    requires Inv(s) && t < |s.tasks| && s.tasks[t].Call?
    ensures CacheOk(ResumeCall(s, t))
  {
    var s' := ResumeCall(s, t);
    CallSegmentGrows(s, t);
    if s'.writes == s.writes {
      WriteKeepsCache(s, s', s.tasks[t].key, NOTHING);
    } else {
      var load := s.tasks[t].stage.load;
      assert TaskOk(s, t) && TaskOk(s, load);
      var served := s.tasks[load].step.result.served;
      GrowthKeepsGood(s, s', t, s.tasks[t].key, served);
      WriteKeepsCache(s, s', s.tasks[t].key, served);
    }
  }

  lemma LoadSegmentKeepsCache(s: State, t: nat)
    requires Inv(s) && t < |s.tasks| && s.tasks[t].Load?
    ensures CacheOk(ResumeLoad(s, t))
  {
    var s' := ResumeLoad(s, t);
    LoadSegmentGrows(s, t, Failed);
    if s'.writes == s.writes {
      WriteKeepsCache(s, s', s.tasks[t].key, NOTHING);
    } else {
      LoadSegmentOk(s, t);
      WriteKeepsCache(s, s', s.tasks[t].key, s'.tasks[t].step.result.served);
    }
  }

  lemma StepKeepsCache(s: State, a: Action)
    requires Inv(s)
    ensures CacheOk(Step(s, a))
  {
    if a.Flush? && a.i < |s.writes| {
      FlushKeepsCache(s, a.i, a.ok);
    } else if a.Resume? && a.t < |s.tasks| {
      if s.tasks[a.t].Call? { CallSegmentKeepsCache(s, a.t); } else { LoadSegmentKeepsCache(s, a.t); }
    } else {
      StepGrows(s, a);
      WriteKeepsCache(s, Step(s, a), Detail(0), NOTHING);
    }
  }

  lemma StepKeepsInv(s: State, a: Action)
    requires Inv(s)
    ensures Inv(Step(s, a))
  {
    var s', t := Step(s, a), Actor(s, a);
    StepGrows(s, a);
    StepKeepsMaps(s, a);
    StepKeepsCache(s, a);
    forall i: nat | i < |s'.tasks| ensures TaskOk(s', i) {
      if i >= |s.tasks| { AppendedOk(s, a, i); }
      else if i != t { GrowthKeepsTask(s, s', t, i); }
      else { ActorOk(s, a, t); }
    }
  }

  lemma ActorOk(s: State, a: Action, t: nat)
    requires Inv(s) && t < |s.tasks| && t == Actor(s, a)
    ensures TaskOk(Step(s, a), t)
  {
    assert TaskOk(s, t);
    if s.tasks[t].Call? {
      if a.Resume? { CallSegmentOk(s, t); }
      if a.CacheAnswers? { CacheAnswerOk(s, t, a.up); }
    } else {
      if a.Resume? { LoadSegmentOk(s, t); }
      if a.DbAnswers? { QueryAnswerOk(s, t, a.answer); }
    }
  }

  lemma {:induction false} ExecKeepsInv(s: State, actions: seq<Action>)
    requires Inv(s)
    ensures Inv(Exec(s, actions))
    decreases |actions|
  {
    if actions != [] {
      StepKeepsInv(s, actions[0]);
      ExecKeepsInv(Step(s, actions[0]), actions[1..]);
    }
  }

  ghost predicate Reachable(s: State) {
    exists init, actions :: Init(init) && s == Exec(init, actions)
  }

  lemma ReachableInv(s: State)
    requires Reachable(s)
    ensures Inv(s)
  {
    var init, actions :| Init(init) && s == Exec(init, actions);
    ExecKeepsInv(init, actions);
  }
}
