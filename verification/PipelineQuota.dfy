/**
 The daily target over any history of runs: retries, re-dispatches, failures and crashes at any
 point, and runs that go on past midnight in Seoul. Runs follow one another, as the queue's single
 worker makes them, on a clock that does not run backwards.
 */
module PipelineQuota {
  import opened Wrappers
  import opened Numbers
  import opened Arrays
  import opened Calendar
  import opened Pipeline

  ghost predicate Ticks(w: World, from: int, to: int) {
    forall k: nat :: from <= w.clock(k) <= to
  }

  /** How many of these commits the run never heard of. */
  function Unheard(heard: seq<bool>): nat {
    if heard == [] then 0 else Unheard(heard[..|heard| - 1]) + if heard[|heard| - 1] then 0 else 1
  }

  lemma {:induction false} UnheardOfPrefix(heard: seq<bool>, k: nat)
    requires k <= |heard|
    ensures Unheard(heard[..k]) <= Unheard(heard)
    ensures k - Unheard(heard[..k]) <= |heard| - Unheard(heard)
  {
    if k < |heard| {
      UnheardOfPrefix(heard[..|heard| - 1], k);
      assert heard[..|heard| - 1][..k] == heard[..k];
    } else {
      assert heard[..k] == heard;
    }
  }

  lemma UnheardOfNext(heard: seq<bool>, last: bool)
    ensures Unheard(heard + [last]) == Unheard(heard) + if last then 0 else 1
  {
    assert (heard + [last])[..|heard|] == heard;
  }

  /** From `so` to `end` at most n rows were appended, all of this source and mined in [from, to]. */
  ghost predicate Grew(source: string, from: int, to: int, so: Progress, end: Progress, n: int) {
    && so.rows <= end.rows && |end.rows| - |so.rows| <= n
    && so.saved <= end.saved && so.heard <= end.heard
    && |end.rows| - |so.rows| == |end.heard| - |so.heard|
    && |end.rows| - |so.rows| == (|end.saved| - |so.saved|) + (Unheard(end.heard) - Unheard(so.heard))
    && (forall i :: |so.rows| <= i < |end.rows| ==>
          end.rows[i].source == source && from <= end.rows[i].minedAt <= to)
  }

  lemma SaveOneGrows(w: World, source: string, from: int, to: int, k: nat, item: Embedded, so: Progress)
    requires Ticks(w, from, to)
    ensures Grew(source, from, to, so, SaveOne(w, source, k, item, so), 1)
  {
    var row := Row(source, item.item.article.id, item.item.article.url, item.item.summary, item.vector, w.clock(k));
    CommitGrows(source, from, to, so, row, so.saved + [row.sourceId], true);
    CommitGrows(source, from, to, so, row, so.saved, false);
  }

  lemma CommitGrows(source: string, from: int, to: int, so: Progress, row: Row, saved: seq<string>, told: bool)
    requires row.source == source && from <= row.minedAt <= to
    requires so.saved <= saved && |saved| == |so.saved| + if told then 1 else 0
    ensures Grew(source, from, to, so, so.(rows := so.rows + [row], saved := saved, heard := so.heard + [told]), 1)
  {
    UnheardOfNext(so.heard, told);
  }

  lemma GrewTwice(source: string, from: int, to: int, a: Progress, b: Progress, c: Progress, m: int, n: int)
    requires Grew(source, from, to, a, b, m) && Grew(source, from, to, b, c, n)
    ensures Grew(source, from, to, a, c, m + n)
    ensures Unheard(a.heard) <= Unheard(b.heard)
  {
    UnheardOfPrefix(b.heard, |a.heard|);
    assert b.heard[..|a.heard|] == a.heard;
  }

  lemma GrewNothing(source: string, from: int, to: int, so: Progress)
    ensures Grew(source, from, to, so, so, 0)
  {
  }

  lemma SaveAllStep(w: World, source: string, at: nat, items: seq<Embedded>, i: nat, so: Progress)
    requires i < |items|
    ensures SaveAll(w, source, at, items, i, so)
            == SaveAll(w, source, at, items, i + 1, SaveOne(w, source, at + i, items[i], so))
  {
  }

  lemma {:induction false} SaveAllGrows(w: World, source: string, from: int, to: int, at: nat, items: seq<Embedded>,
                                        i: nat, so: Progress)
    requires i <= |items| && Ticks(w, from, to)
    ensures Grew(source, from, to, so, SaveAll(w, source, at, items, i, so), |items| - i)
    decreases |items| - i
  {
    if i < |items| {
      var next := SaveOne(w, source, at + i, items[i], so);
      var end := SaveAll(w, source, at, items, i + 1, next);
      SaveAllGrows(w, source, from, to, at, items, i + 1, next);
      SaveOneGrows(w, source, from, to, at + i, items[i], so);
      GrewTwice(source, from, to, so, next, end, 1, |items| - (i + 1));
      SaveAllStep(w, source, at, items, i, so);
    } else {
      GrewNothing(source, from, to, so);
    }
  }

  lemma {:induction false} SummariesWithinLimit(w: World, at: nat, articles: seq<Article>, details: map<string, Details>,
                                                limit: int, i: nat, done: seq<Summarized>)
    requires i <= |articles| && |done| <= limit
    ensures |Summaries(w, at, articles, details, limit, i, done)| <= limit
    decreases |articles| - i
  {
    if i < |articles| && |done| < limit {
      var article := articles[i];
      SummariesWithinLimit(w, at, articles, details, limit, i + 1, done);
      if article.id in details {
        match w.summarize(at + i, article, details[article.id])
        case Some(s) =>
          SummariesWithinLimit(w, at, articles, details, limit, i + 1,
                               done + [Summarized(article, details[article.id], s)]);
        case None =>
      }
    }
  }

  /** A batch saves no more than the quota it was given, whatever the collaborators answer. */
  lemma BatchGrows(w: World, source: string, from: int, to: int, at: nat, batch: seq<Article>, limit: nat, so: Progress)
    requires Ticks(w, from, to)
    ensures Grew(source, from, to, so, Batch(w, source, at, batch, limit, so), limit)
  {
    var details := FetchDetails(w, at, Ids(batch), 0, map[]);
    var valid := Valid(batch, details);
    match w.select(at, Items(valid, details))
    case None =>
    case Some(ids) =>
      var summarized := Summaries(w, at, Valuable(valid, ids), details, limit, 0, []);
      SummariesWithinLimit(w, at, Valuable(valid, ids), details, limit, 0, []);
      match w.embed(at, Texts(summarized))
      case None =>
      case Some(vectors) =>
        if |vectors| == |summarized| { SaveAllGrows(w, source, from, to, at, Zip(summarized, vectors), 0, so); }
  }

  /** Over all batches: no more than what the target leaves, plus the commits nobody heard of. */
  lemma {:induction false} CollectGrows(w: World, cfg: Config, source: string, from: int, to: int, articles: seq<Article>,
                                        p: nat, baseline: nat, so: Progress)
    requires cfg.batchSize >= 1 && Ticks(w, from, to)
    ensures var end := Collect(w, cfg, source, articles, p, baseline, so);
            Grew(source, from, to, so, end, Max(0, cfg.target - (baseline + |so.saved|)) + Unheard(end.heard) - Unheard(so.heard))
    decreases |articles| - p
  {
    if p >= |articles| || so.threw || baseline + |so.saved| >= cfg.target {
      CollectStops(w, cfg, source, articles, p, baseline, so);
      GrewNothing(source, from, to, so);
    } else {
      var batch := articles[p..Min(p + cfg.batchSize, |articles|)];
      var limit := cfg.target - (baseline + |so.saved|);
      var next := Batch(w, source, p, batch, limit, so);
      BatchGrows(w, source, from, to, p, batch, limit, so);
      CollectGoesOn(w, cfg, source, articles, p, baseline, so);
      CollectGrows(w, cfg, source, from, to, articles, p + cfg.batchSize, baseline, next);
      var end := Collect(w, cfg, source, articles, p + cfg.batchSize, baseline, next);
      var rest := Max(0, cfg.target - (baseline + |next.saved|)) + Unheard(end.heard) - Unheard(next.heard);
      GrewTwice(source, from, to, so, next, end, limit, rest);
    }
  }

  lemma RunGrows(w: World, cfg: Config, source: string, now: int, to: int, rows: seq<Row>)
    requires cfg.batchSize >= 1 && Ticks(w, now, to)
    ensures var baseline := CountSince(rows, source, TodayStart(now));
            var end := Run(w, cfg, source, now, rows);
            Grew(source, now, to, Progress(rows, [], [], false), end, Max(0, cfg.target - baseline) + Unheard(end.heard))
  {
    var baseline := CountSince(rows, source, TodayStart(now));
    if w.articles.Some? {
      CollectGrows(w, cfg, source, now, to, NewArticles(rows, source, w.articles.value), 0, baseline,
                   Progress(rows, [], [], false));
    }
  }

  /** A batch that throws, in the AI filter or for its embeddings, has saved nothing; earlier batches keep their rows. */
  lemma ThrowingBatchSavesNothing(w: World, source: string, at: nat, batch: seq<Article>, limit: int, so: Progress)
    requires !so.threw && Batch(w, source, at, batch, limit, so).threw
    ensures Batch(w, source, at, batch, limit, so) == so.(threw := true)
  {
    var details := FetchDetails(w, at, Ids(batch), 0, map[]);
    var valid := Valid(batch, details);
    match w.select(at, Items(valid, details))
    case None =>
    case Some(ids) =>
      var summarized := Summaries(w, at, Valuable(valid, ids), details, limit, 0, []);
      match w.embed(at, Texts(summarized))
      case None =>
      case Some(vectors) =>
        if |vectors| == |summarized| { SaveAllKeepsThrew(w, source, at, Zip(summarized, vectors), 0, so); }
  }

  // ---------------------------------------------------------------- Rows of one day

  function CountOnDay(rows: seq<Row>, source: string, day: int): nat {
    if rows == [] then 0
    else CountOnDay(rows[..|rows| - 1], source, day)
         + var r := rows[|rows| - 1]; if r.source == source && KstDay(r.minedAt) == day then 1 else 0
  }

  ghost predicate MinedBy(rows: seq<Row>, now: int) {
    forall r :: r in rows ==> r.minedAt <= now
  }

  /** The baseline query counts exactly today's rows. */
  lemma {:induction false} BaselineIsToday(rows: seq<Row>, source: string, now: int)
    requires MinedBy(rows, now)
    ensures CountSince(rows, source, TodayStart(now)) == CountOnDay(rows, source, KstDay(now))
    ensures forall day :: day > KstDay(now) ==> CountOnDay(rows, source, day) == 0
  {
    if rows != [] {
      var n := |rows| - 1;
      BaselineIsToday(rows[..n], source, now);
      LaterDays(rows[n].minedAt, now);
    }
  }

  lemma {:induction false} CountAfterAppending(rows: seq<Row>, all: seq<Row>, source: string, day: int)
    requires rows <= all
    ensures CountOnDay(rows, source, day) <= CountOnDay(all, source, day) <= CountOnDay(rows, source, day) + |all| - |rows|
    ensures (forall i :: |rows| <= i < |all| ==> all[i].source != source || KstDay(all[i].minedAt) != day) ==>
              CountOnDay(all, source, day) == CountOnDay(rows, source, day)
  {
    if |all| > |rows| {
      CountAfterAppending(rows, all[..|all| - 1], source, day);
    } else {
      assert all == rows;
    }
  }

  // ---------------------------------------------------------------- Histories of runs

  /** A run over [start, end]; a crash may keep only its first `kept` new rows. */
  datatype Job = Job(source: string, start: int, end: int, world: World, kept: nat)

  function After(cfg: Config, rows: seq<Row>, job: Job): seq<Row>
    requires cfg.batchSize >= 1
  {
    var all := Run(job.world, cfg, job.source, job.start, rows).rows;
    all[..Min(|rows| + job.kept, |all|)]
  }

  function PlayJobs(cfg: Config, rows: seq<Row>, jobs: seq<Job>): seq<Row>
    requires cfg.batchSize >= 1
  {
    if jobs == [] then rows else After(cfg, PlayJobs(cfg, rows, jobs[..|jobs| - 1]), jobs[|jobs| - 1])
  }

  /** The commits of a job, up to where it stopped, that were reported as failures. */
  function LostIn(cfg: Config, rows: seq<Row>, job: Job): nat
    requires cfg.batchSize >= 1
  {
    var heard := Run(job.world, cfg, job.source, job.start, rows).heard;
    Unheard(heard[..Min(job.kept, |heard|)])
  }

  /** The commits of this source's jobs that were reported as failures. */
  function LostAcks(cfg: Config, rows: seq<Row>, jobs: seq<Job>, source: string): nat
    requires cfg.batchSize >= 1
  {
    if jobs == [] then 0
    else
      var before, job := jobs[..|jobs| - 1], jobs[|jobs| - 1];
      LostAcks(cfg, rows, before, source)
      + (if job.source == source then LostIn(cfg, PlayJobs(cfg, rows, before), job) else 0)
  }

  ghost predicate Serial(jobs: seq<Job>) {
    && (forall i :: 0 <= i < |jobs| ==> jobs[i].start <= jobs[i].end && Ticks(jobs[i].world, jobs[i].start, jobs[i].end))
    && (forall i :: 0 < i < |jobs| ==> jobs[i - 1].end <= jobs[i].start)
  }

  ghost predicate WithinQuota(rows: seq<Row>, source: string, bound: int) {
    forall day :: CountOnDay(rows, source, day) <= bound
  }

  /** Wherever a job stops, it has appended no more rows than the target leaves and its own lost acknowledgements. */
  lemma JobGrows(cfg: Config, rows: seq<Row>, job: Job)
    requires cfg.batchSize >= 1 && Ticks(job.world, job.start, job.end)
    ensures rows <= After(cfg, rows, job)
    ensures |After(cfg, rows, job)| - |rows|
            <= Max(0, cfg.target - CountSince(rows, job.source, TodayStart(job.start))) + LostIn(cfg, rows, job)
  {
    RunGrows(job.world, cfg, job.source, job.start, job.end, rows);
    var heard := Run(job.world, cfg, job.source, job.start, rows).heard;
    UnheardOfPrefix(heard, Min(job.kept, |heard|));
  }

  lemma JobKeepsQuota(cfg: Config, rows: seq<Row>, job: Job, source: string, bound: int)
    requires cfg.batchSize >= 1 && job.start <= job.end && Ticks(job.world, job.start, job.end)
    requires MinedBy(rows, job.start) && WithinQuota(rows, source, bound) && bound >= Max(0, cfg.target)
    ensures MinedBy(After(cfg, rows, job), job.end)
    ensures WithinQuota(After(cfg, rows, job), source,
                        bound + if job.source == source then LostIn(cfg, rows, job) else 0)
  {
    RunGrows(job.world, cfg, job.source, job.start, job.end, rows);
    JobGrows(cfg, rows, job);
    var rows', today := After(cfg, rows, job), KstDay(job.start);
    BaselineIsToday(rows, job.source, job.start);
    forall day
      ensures CountOnDay(rows', source, day)
              <= bound + if job.source == source then LostIn(cfg, rows, job) else 0
    {
      CountAfterAppending(rows, rows', source, day);
      if job.source == source && day < today {
        forall i | |rows| <= i < |rows'| ensures KstDay(rows'[i].minedAt) != day {
          LaterDays(job.start, rows'[i].minedAt);
        }
      }
    }
  }

  lemma {:induction false} JobsKeepQuota(cfg: Config, rows: seq<Row>, jobs: seq<Job>, source: string, bound: int)
    requires cfg.batchSize >= 1 && Serial(jobs)
    requires jobs != [] ==> MinedBy(rows, jobs[0].start)
    requires WithinQuota(rows, source, bound) && bound >= Max(0, cfg.target)
    ensures WithinQuota(PlayJobs(cfg, rows, jobs), source, bound + LostAcks(cfg, rows, jobs, source))
    ensures jobs != [] ==> MinedBy(PlayJobs(cfg, rows, jobs), jobs[|jobs| - 1].end)
  {
    if jobs != [] {
      var before, job := jobs[..|jobs| - 1], jobs[|jobs| - 1];
      JobsKeepQuota(cfg, rows, before, source, bound);
      JobKeepsQuota(cfg, PlayJobs(cfg, rows, before), job, source, bound + LostAcks(cfg, rows, before, source));
    }
  }

  /**
   The daily quota: from an empty table, after any history of runs, no source has on any Seoul day
   more rows than the target plus the commits whose acknowledgement was lost.
   */
  lemma DailyQuota(cfg: Config, jobs: seq<Job>, source: string, day: int)
    requires cfg.batchSize >= 1 && Serial(jobs)
    ensures CountOnDay(PlayJobs(cfg, [], jobs), source, day) <= Max(0, cfg.target) + LostAcks(cfg, [], jobs, source)
  {
    JobsKeepQuota(cfg, [], jobs, source, Max(0, cfg.target));
  }

  // ---------------------------------------------------------------- When the target itself is kept

  /** The database never reports a failure for a save that it committed. */
  ghost predicate AcksArrive(w: World) {
    forall k: nat :: w.save(k) != LostAck
  }

  lemma {:induction false} SaveAllLosesNothing(w: World, source: string, at: nat, items: seq<Embedded>, i: nat, so: Progress)
    requires i <= |items| && AcksArrive(w)
    ensures Unheard(SaveAll(w, source, at, items, i, so).heard) == Unheard(so.heard)
    decreases |items| - i
  {
    if i < |items| {
      var next := SaveOne(w, source, at + i, items[i], so);
      SaveAllLosesNothing(w, source, at, items, i + 1, next);
      UnheardOfNext(so.heard, true);
    }
  }

  lemma BatchLosesNothing(w: World, source: string, at: nat, batch: seq<Article>, limit: int, so: Progress)
    requires AcksArrive(w)
    ensures Unheard(Batch(w, source, at, batch, limit, so).heard) == Unheard(so.heard)
  {
    var details := FetchDetails(w, at, Ids(batch), 0, map[]);
    var valid := Valid(batch, details);
    match w.select(at, Items(valid, details))
    case None =>
    case Some(ids) =>
      var summarized := Summaries(w, at, Valuable(valid, ids), details, limit, 0, []);
      match w.embed(at, Texts(summarized))
      case None =>
      case Some(vectors) =>
        if |vectors| == |summarized| { SaveAllLosesNothing(w, source, at, Zip(summarized, vectors), 0, so); }
  }

  lemma {:induction false} CollectLosesNothing(w: World, cfg: Config, source: string, articles: seq<Article>, p: nat,
                                               baseline: nat, so: Progress)
    requires cfg.batchSize >= 1 && AcksArrive(w)
    ensures Unheard(Collect(w, cfg, source, articles, p, baseline, so).heard) == Unheard(so.heard)
    decreases |articles| - p
  {
    if !(p >= |articles| || so.threw || baseline + |so.saved| >= cfg.target) {
      var batch := articles[p..Min(p + cfg.batchSize, |articles|)];
      var limit := cfg.target - (baseline + |so.saved|);
      BatchLosesNothing(w, source, p, batch, limit, so);
      CollectGoesOn(w, cfg, source, articles, p, baseline, so);
      CollectLosesNothing(w, cfg, source, articles, p + cfg.batchSize, baseline, Batch(w, source, p, batch, limit, so));
    }
  }

  lemma {:induction false} NoLostAcks(cfg: Config, rows: seq<Row>, jobs: seq<Job>, source: string)
    requires cfg.batchSize >= 1 && forall i :: 0 <= i < |jobs| ==> AcksArrive(jobs[i].world)
    ensures LostAcks(cfg, rows, jobs, source) == 0
  {
    if jobs != [] {
      var before, job := jobs[..|jobs| - 1], jobs[|jobs| - 1];
      NoLostAcks(cfg, rows, before, source);
      var table := PlayJobs(cfg, rows, before);
      if job.world.articles.Some? {
        CollectLosesNothing(job.world, cfg, source, NewArticles(table, source, job.world.articles.value), 0,
                            CountSince(table, source, TodayStart(job.start)), Progress(table, [], [], false));
      }
      if job.source == source {
        var heard := Run(job.world, cfg, source, job.start, table).heard;
        UnheardOfPrefix(heard, Min(job.kept, |heard|));
      }
    }
  }

  /** Where every committed save is acknowledged, the daily target itself is never exceeded. */
  lemma DailyTargetKept(cfg: Config, jobs: seq<Job>, source: string, day: int)
    requires cfg.batchSize >= 1 && cfg.target >= 0 && Serial(jobs)
    requires forall i :: 0 <= i < |jobs| ==> AcksArrive(jobs[i].world)
    ensures CountOnDay(PlayJobs(cfg, [], jobs), source, day) <= cfg.target
  {
    DailyQuota(cfg, jobs, source, day);
    NoLostAcks(cfg, [], jobs, source);
  }

  // ---------------------------------------------------------------- What a run reports

  /** The ids of the rows that a run was told are saved. */
  function HeardIds(rows: seq<Row>, heard: seq<bool>): seq<string>
    requires |rows| == |heard|
  {
    if rows == [] then []
    else
      var n := |rows| - 1;
      HeardIds(rows[..n], heard[..n]) + if heard[n] then [rows[n].sourceId] else []
  }

  /** The ids a run counts as saved are those of the rows it has appended and heard of, in order. */
  ghost predicate Truthful(before: nat, so: Progress) {
    && |so.rows| == before + |so.heard|
    && so.saved == HeardIds(so.rows[before..], so.heard)
  }

  lemma CommitIsTruthful(before: nat, so: Progress, row: Row, told: bool)
    requires Truthful(before, so)
    ensures Truthful(before, so.(rows := so.rows + [row], heard := so.heard + [told],
                                 saved := if told then so.saved + [row.sourceId] else so.saved))
  {
    var rows, heard, n := (so.rows + [row])[before..], so.heard + [told], |so.heard|;
    assert rows[..n] == so.rows[before..] && heard[..n] == so.heard && rows[n] == row;
  }

  lemma {:induction false} SaveAllIsTruthful(w: World, source: string, at: nat, items: seq<Embedded>, i: nat, before: nat,
                                             so: Progress)
    requires i <= |items| && Truthful(before, so)
    ensures Truthful(before, SaveAll(w, source, at, items, i, so))
    decreases |items| - i
  {
    if i < |items| {
      var item := items[i];
      var row := Row(source, item.item.article.id, item.item.article.url, item.item.summary, item.vector, w.clock(at + i));
      CommitIsTruthful(before, so, row, true);
      CommitIsTruthful(before, so, row, false);
      SaveAllIsTruthful(w, source, at, items, i + 1, before, SaveOne(w, source, at + i, item, so));
    }
  }

  lemma BatchIsTruthful(w: World, source: string, at: nat, batch: seq<Article>, limit: int, before: nat, so: Progress)
    requires Truthful(before, so)
    ensures Truthful(before, Batch(w, source, at, batch, limit, so))
  {
    var details := FetchDetails(w, at, Ids(batch), 0, map[]);
    var valid := Valid(batch, details);
    match w.select(at, Items(valid, details))
    case None =>
    case Some(ids) =>
      var summarized := Summaries(w, at, Valuable(valid, ids), details, limit, 0, []);
      match w.embed(at, Texts(summarized))
      case None =>
      case Some(vectors) =>
        if |vectors| == |summarized| { SaveAllIsTruthful(w, source, at, Zip(summarized, vectors), 0, before, so); }
  }

  lemma {:induction false} CollectIsTruthful(w: World, cfg: Config, source: string, articles: seq<Article>, p: nat,
                                             baseline: nat, before: nat, so: Progress)
    requires cfg.batchSize >= 1 && Truthful(before, so)
    ensures Truthful(before, Collect(w, cfg, source, articles, p, baseline, so))
    decreases |articles| - p
  {
    if p >= |articles| || so.threw || baseline + |so.saved| >= cfg.target {
      CollectStops(w, cfg, source, articles, p, baseline, so);
    } else {
      var batch := articles[p..Min(p + cfg.batchSize, |articles|)];
      var limit := cfg.target - (baseline + |so.saved|);
      BatchIsTruthful(w, source, p, batch, limit, before, so);
      CollectGoesOn(w, cfg, source, articles, p, baseline, so);
      CollectIsTruthful(w, cfg, source, articles, p + cfg.batchSize, baseline, before, Batch(w, source, p, batch, limit, so));
    }
  }

  /** What a run reports as saved is what it has stored and heard of, in order: nothing more, nothing less. */
  lemma RunIsTruthful(w: World, cfg: Config, source: string, now: int, rows: seq<Row>)
    requires cfg.batchSize >= 1
    ensures Truthful(|rows|, Run(w, cfg, source, now, rows))
  {
    var start := Progress(rows, [], [], false);
    if w.articles.Some? {
      CollectIsTruthful(w, cfg, source, NewArticles(rows, source, w.articles.value), 0,
                        CountSince(rows, source, TodayStart(now)), |rows|, start);
    }
  }

  /** One save: a row is added unless the source has it or the database rejects it, and counted if it says so. */
  lemma SaveFollowsReply(w: World, source: string, k: nat, e: Embedded, so: Progress)
    ensures var next, id := SaveOne(w, source, k, e, so), e.item.article.id;
            && (|next.rows| > |so.rows| <==> !Taken(so.rows, source, id) && (w.save(k) == Saved || w.save(k) == LostAck))
            && next.saved == so.saved + (if !Taken(so.rows, source, id) && w.save(k) == Saved then [id] else [])
            && (!Taken(so.rows, source, id) && w.save(k) != Rejected ==> Taken(next.rows, source, id))
  {
    var next, row := SaveOne(w, source, k, e, so),
                     Row(source, e.item.article.id, e.item.article.url, e.item.summary, e.vector, w.clock(k));
    if next.rows != so.rows { assert next.rows[|so.rows|] == row && row in next.rows; }
  }

  /** A database that rejects every save. */
  ghost predicate Refusing(w: World) {
    forall k: nat :: w.save(k) == Rejected
  }

  lemma {:induction false} RefusedSaves(w: World, source: string, at: nat, items: seq<Embedded>, i: nat, so: Progress)
    requires i <= |items| && Refusing(w)
    ensures SaveAll(w, source, at, items, i, so) == so
    decreases |items| - i
  {
    if i < |items| { RefusedSaves(w, source, at, items, i + 1, so); }
  }

  lemma RefusedBatch(w: World, source: string, at: nat, batch: seq<Article>, limit: int, so: Progress)
    requires Refusing(w)
    ensures Batch(w, source, at, batch, limit, so) == so.(threw := Batch(w, source, at, batch, limit, so).threw)
  {
    var details := FetchDetails(w, at, Ids(batch), 0, map[]);
    var valid := Valid(batch, details);
    match w.select(at, Items(valid, details))
    case None =>
    case Some(ids) =>
      var summarized := Summaries(w, at, Valuable(valid, ids), details, limit, 0, []);
      match w.embed(at, Texts(summarized))
      case None =>
      case Some(vectors) =>
        if |vectors| == |summarized| { RefusedSaves(w, source, at, Zip(summarized, vectors), 0, so); }
  }

  lemma {:induction false} RefusedCollect(w: World, cfg: Config, source: string, articles: seq<Article>, p: nat,
                                          baseline: nat, so: Progress)
    requires cfg.batchSize >= 1 && Refusing(w)
    ensures var end := Collect(w, cfg, source, articles, p, baseline, so);
            end.rows == so.rows && end.saved == so.saved
    decreases |articles| - p
  {
    if p >= |articles| || so.threw || baseline + |so.saved| >= cfg.target {
      CollectStops(w, cfg, source, articles, p, baseline, so);
    } else {
      var batch := articles[p..Min(p + cfg.batchSize, |articles|)];
      var limit := cfg.target - (baseline + |so.saved|);
      RefusedBatch(w, source, p, batch, limit, so);
      CollectGoesOn(w, cfg, source, articles, p, baseline, so);
      RefusedCollect(w, cfg, source, articles, p + cfg.batchSize, baseline, Batch(w, source, p, batch, limit, so));
    }
  }

  /** A run whose saves are all rejected goes through its articles, stores nothing and reports nothing. */
  lemma RefusedRunStoresNothing(w: World, cfg: Config, source: string, now: int, rows: seq<Row>)
    requires cfg.batchSize >= 1 && Refusing(w)
    ensures Run(w, cfg, source, now, rows).rows == rows && Run(w, cfg, source, now, rows).saved == []
  {
    if w.articles.Some? {
      RefusedCollect(w, cfg, source, NewArticles(rows, source, w.articles.value), 0,
                     CountSince(rows, source, TodayStart(now)), Progress(rows, [], [], false));
    }
  }

  // ---------------------------------------------------------------- No article twice

  ghost predicate KeysUnique(rows: seq<Row>) {
    forall i, j :: 0 <= i < j < |rows| ==> rows[i].source != rows[j].source || rows[i].sourceId != rows[j].sourceId
  }

  lemma {:induction false} SaveAllKeepsKeys(w: World, source: string, at: nat, items: seq<Embedded>, i: nat, so: Progress)
    requires i <= |items| && KeysUnique(so.rows)
    ensures KeysUnique(SaveAll(w, source, at, items, i, so).rows)
    decreases |items| - i
  {
    if i < |items| {
      forall r | r in so.rows && r.source == source ensures Taken(so.rows, source, r.sourceId) {
      }
      SaveAllKeepsKeys(w, source, at, items, i + 1, SaveOne(w, source, at + i, items[i], so));
    }
  }

  lemma BatchKeepsKeys(w: World, source: string, at: nat, batch: seq<Article>, limit: int, so: Progress)
    requires KeysUnique(so.rows)
    ensures KeysUnique(Batch(w, source, at, batch, limit, so).rows)
  {
    var details := FetchDetails(w, at, Ids(batch), 0, map[]);
    var valid := Valid(batch, details);
    match w.select(at, Items(valid, details))
    case None =>
    case Some(ids) =>
      var summarized := Summaries(w, at, Valuable(valid, ids), details, limit, 0, []);
      match w.embed(at, Texts(summarized))
      case None =>
      case Some(vectors) =>
        if |vectors| == |summarized| { SaveAllKeepsKeys(w, source, at, Zip(summarized, vectors), 0, so); }
  }

  lemma {:induction false} CollectKeepsKeys(w: World, cfg: Config, source: string, articles: seq<Article>, p: nat,
                                            baseline: nat, so: Progress)
    requires cfg.batchSize >= 1 && KeysUnique(so.rows)
    ensures KeysUnique(Collect(w, cfg, source, articles, p, baseline, so).rows)
    decreases |articles| - p
  {
    if !(p >= |articles| || so.threw || baseline + |so.saved| >= cfg.target) {
      var batch := articles[p..Min(p + cfg.batchSize, |articles|)];
      var limit := cfg.target - (baseline + |so.saved|);
      BatchKeepsKeys(w, source, p, batch, limit, so);
      CollectGoesOn(w, cfg, source, articles, p, baseline, so);
      CollectKeepsKeys(w, cfg, source, articles, p + cfg.batchSize, baseline, Batch(w, source, p, batch, limit, so));
    }
  }

  /** After any history of runs, also with repeated articles and lost acknowledgements, no article is stored twice. */
  lemma {:induction false} NoArticleTwice(cfg: Config, rows: seq<Row>, jobs: seq<Job>)
    requires cfg.batchSize >= 1 && KeysUnique(rows)
    ensures KeysUnique(PlayJobs(cfg, rows, jobs))
  {
    if jobs != [] {
      var before, job := jobs[..|jobs| - 1], jobs[|jobs| - 1];
      NoArticleTwice(cfg, rows, before);
      var table := PlayJobs(cfg, rows, before);
      if job.world.articles.Some? {
        CollectKeepsKeys(job.world, cfg, job.source, NewArticles(table, job.source, job.world.articles.value), 0,
                         CountSince(table, job.source, TodayStart(job.start)), Progress(table, [], [], false));
      }
    }
  }
}
