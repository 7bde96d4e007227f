/**
 How far lost acknowledgements can carry a source beyond its daily target: exactly as far as there
 are any. For every target, batch size and number of losses there is one run that gets there.
 */
module QuotaExactness {
  import opened Wrappers
  import opened Numbers
  import opened Arrays
  import opened Calendar
  import opened Decimals
  import opened Pipeline
  import opened PipelineQuota
  import opened PipelineRefinement

  // ---------------------------------------------------------------- One good article per batch

  function Good(m: nat): Article {
    Article(Decimal(m), "good", Decimal(m))
  }

  function Plain(m: nat, i: nat): Article {
    Article(Decimal(m) + "-" + Decimal(i), "plain", Decimal(m) + "-" + Decimal(i))
  }

  function Plains(m: nat, count: nat): seq<Article> {
    seq(count, i requires 0 <= i => Plain(m, i))
  }

  function Block(size: nat, m: nat): seq<Article>
    requires size >= 1
  {
    [Good(m)] + Plains(m, size - 1)
  }

  function Blocks(size: nat, count: nat): (articles: seq<Article>)
    requires size >= 1
    ensures |articles| == Start(count, size)
  {
    if count == 0 then [] else Blocks(size, count - 1) + Block(size, count - 1)
  }

  lemma {:induction false} StartRises(m: nat, n: nat, size: nat)
    requires size >= 1
    ensures m < n <==> Start(m, size) < Start(n, size)
  {
    if m < n {
      if m < n - 1 { StartRises(m, n - 1, size); }
    } else if n < m {
      StartRises(m - 1, n, size);
    }
  }

  lemma {:induction false} BlockSlice(size: nat, count: nat, m: nat)
    requires size >= 1 && m < count
    ensures Start(m, size) + size <= Start(count, size)
    ensures Blocks(size, count)[Start(m, size)..Start(m, size) + size] == Block(size, m)
  {
    if m < count - 1 {
      BlockSlice(size, count - 1, m);
      assert Blocks(size, count)[..Start(count - 1, size)] == Blocks(size, count - 1);
    }
  }

  lemma DecimalsDiffer(m: nat, i: nat)
    ensures Decimal(m) == Decimal(i) <==> m == i
    ensures '-' !in Decimal(m)
  {
    DecimalReadsBack(m);
    DecimalReadsBack(i);
  }

  lemma PlainsDiffer(m: nat, i: nat, k: nat)
    ensures Plain(m, i).id != Good(m).id
    ensures i != k ==> Plain(m, i).id != Plain(m, k).id
  {
    DecimalsDiffer(m, i);
    DecimalsDiffer(i, k);
    var n := |Decimal(m)|;
    assert Plain(m, i).id[n] == '-';
    assert Plain(m, i).id[n + 1..] == Decimal(i) && Plain(m, k).id[n + 1..] == Decimal(k);
  }

  lemma BlockDistinct(size: nat, m: nat)
    requires size >= 1
    ensures DistinctIds(Block(size, m))
  {
    var block := Block(size, m);
    forall i, k | 0 <= i < k < |block| ensures block[i].id != block[k].id {
      assert block[k] == Plain(m, k - 1);
      PlainsDiffer(m, k - 1, if i == 0 then k - 1 else i - 1);
    }
  }

  // ---------------------------------------------------------------- The world that loses the first n answers

  /** All articles have details and summaries; the good ones are valuable. */
  function GoodOnes(): Judge {
    Judge(id => Some(Details("text")), (a: Article, d) => a.title == "good", (a, d) => Some("summary"), s => [1.0])
  }

  function Forgetful(size: nat, count: nat, n: nat): World
    requires size >= 1
  {
    var j := GoodOnes();
    World(true, Some(Blocks(size, count)), true, (k, id) => j.details(id), (k, items) => Some(SelectedIds(j, items)),
          (k, article, d) => j.summary(article, d), (k, texts) => Some(Vectors(j, texts)),
          k => if k < Start(n, size) then LostAck else Saved, k => 0)
  }

  function StoredRow(source: string, m: nat): Row {
    Row(source, Decimal(m), Decimal(m), "summary", [1.0], 0)
  }

  function StoredRows(source: string, m: nat): seq<Row> {
    seq(m, i requires 0 <= i => StoredRow(source, i))
  }

  function HeardFrom(n: nat, m: nat): seq<bool> {
    seq(m, i => i >= n)
  }

  /** After m batches: m rows, of which the run has heard from number n on. */
  function Reached(source: string, n: nat, m: nat): Progress {
    Progress(StoredRows(source, m), if m <= n then [] else seq(m - n, i requires 0 <= i => Decimal(n + i)),
             HeardFrom(n, m), false)
  }

  lemma {:induction false} KeptNone(j: Judge, articles: seq<Article>)
    requires forall a :: a in articles ==> !Acceptable(j, a)
    ensures Kept(j, articles) == []
  {
    if articles != [] { KeptNone(j, articles[1..]); }
  }

  function GoodItem(m: nat): Embedded {
    Embedded(Summarized(Good(m), Details("text"), "summary"), [1.0])
  }

  lemma AcceptedInBlock(size: nat, m: nat, limit: nat)
    requires size >= 1 && limit >= 1
    ensures Take(Accepted(GoodOnes(), Block(size, m)), limit) == [GoodItem(m)]
  {
    var j := GoodOnes();
    KeptConcat(j, [Good(m)], Plains(m, size - 1));
    KeptNone(j, Plains(m, size - 1));
    assert [Good(m)][1..] == [];
    assert Kept(j, [Good(m)]) == [GoodItem(m).item];
    assert Accepted(j, Block(size, m)) == [GoodItem(m)];
  }

  lemma GoodIsNew(source: string, m: nat)
    ensures !Taken(StoredRows(source, m), source, Decimal(m))
  {
    forall r | r in StoredRows(source, m) ensures r.sourceId != Decimal(m) {
      var i: nat :| i < m && StoredRows(source, m)[i] == r;
      DecimalsDiffer(m, i);
    }
  }

  lemma SaveReaches(w: World, source: string, size: nat, n: nat, m: nat)
    requires size >= 1
    requires w.save(Start(m, size)) == (if Start(m, size) < Start(n, size) then LostAck else Saved)
    requires w.clock(Start(m, size)) == 0
    ensures SaveOne(w, source, Start(m, size), GoodItem(m), Reached(source, n, m)) == Reached(source, n, m + 1)
  {
    GoodIsNew(source, m);
    StartRises(m, n, size);
    var next := SaveOne(w, source, Start(m, size), GoodItem(m), Reached(source, n, m));
    assert next.rows == StoredRows(source, m + 1);
    assert next.heard == HeardFrom(n, m + 1);
    assert next.saved == Reached(source, n, m + 1).saved;
  }

  lemma BatchReaches(source: string, size: nat, count: nat, n: nat, m: nat, limit: nat)
    requires size >= 1 && limit >= 1
    ensures Batch(Forgetful(size, count, n), source, Start(m, size), Block(size, m), limit, Reached(source, n, m))
            == Reached(source, n, m + 1)
  {
    var w, at, so := Forgetful(size, count, n), Start(m, size), Reached(source, n, m);
    BlockDistinct(size, m);
    BatchByJudge(w, GoodOnes(), source, at, Block(size, m), limit, so);
    AcceptedInBlock(size, m, limit);
    SaveReaches(w, source, size, n, m);
    SaveSingle(w, source, at, GoodItem(m), so);
  }

  lemma SaveSingle(w: World, source: string, at: nat, item: Embedded, so: Progress)
    ensures SaveAll(w, source, at, [item], 0, so) == SaveOne(w, source, at, item, so)
  {
  }

  /** From batch m on, when every batch takes the run one row further. */
  lemma {:induction false} CollectReaches(w: World, source: string, cfg: Config, n: nat, m: nat)
    requires cfg.target >= 1 && cfg.batchSize >= 1 && m <= cfg.target + n
    requires forall k: nat, limit: nat | limit >= 1 ::
               Batch(w, source, Start(k, cfg.batchSize), Block(cfg.batchSize, k), limit, Reached(source, n, k))
               == Reached(source, n, k + 1)
    ensures Collect(w, cfg, source, Blocks(cfg.batchSize, cfg.target + n), Start(m, cfg.batchSize), 0, Reached(source, n, m))
            == Reached(source, n, cfg.target + n)
    decreases cfg.target + n - m
  {
    var size, count := cfg.batchSize, cfg.target + n;
    var articles, p, so := Blocks(size, count), Start(m, size), Reached(source, n, m);
    if m == count {
      CollectStops(w, cfg, source, articles, p, 0, so);
    } else {
      BlockSlice(size, count, m);
      CollectGoesOn(w, cfg, source, articles, p, 0, so);
      assert Batch(w, source, p, Block(size, m), cfg.target - |so.saved|, so) == Reached(source, n, m + 1);
      CollectReaches(w, source, cfg, n, m + 1);
    }
  }

  lemma RunReaches(source: string, cfg: Config, n: nat)
    requires cfg.target >= 1 && cfg.batchSize >= 1
    ensures Run(Forgetful(cfg.batchSize, cfg.target + n, n), cfg, source, 0, []) == Reached(source, n, cfg.target + n)
  {
    var count := cfg.target + n;
    var articles := Blocks(cfg.batchSize, count);
    FilterKeepsAll(articles, (x: Article) => !Taken([], source, x.id));
    var w := Forgetful(cfg.batchSize, count, n);
    forall k: nat, limit: nat | limit >= 1
      ensures Batch(w, source, Start(k, cfg.batchSize), Block(cfg.batchSize, k), limit, Reached(source, n, k))
              == Reached(source, n, k + 1)
    {
      BatchReaches(source, cfg.batchSize, count, n, k, limit);
    }
    CollectReaches(w, source, cfg, n, 0);
    assert Reached(source, n, 0) == Progress([], [], [], false);
    StartRises(0, count, cfg.batchSize);
  }

  lemma {:induction false} UnheardInReached(n: nat, m: nat)
    ensures Unheard(HeardFrom(n, m)) == Min(n, m)
  {
    if m > 0 {
      UnheardInReached(n, m - 1);
      assert HeardFrom(n, m)[..m - 1] == HeardFrom(n, m - 1);
    }
  }

  lemma {:induction false} RowsOfDayZero(source: string, m: nat)
    ensures CountOnDay(StoredRows(source, m), source, 0) == m
  {
    if m > 0 {
      RowsOfDayZero(source, m - 1);
      assert StoredRows(source, m)[..m - 1] == StoredRows(source, m - 1);
    }
  }

  /**
   For every target, batch size and n: one run with exactly n lost acknowledgements that leaves
   target + n rows of its source on one day.
   */
  lemma LostAckExceedsTarget(cfg: Config, n: nat, source: string) returns (jobs: seq<Job>)
    requires cfg.target >= 1 && cfg.batchSize >= 1
    ensures Serial(jobs) && LostAcks(cfg, [], jobs, source) == n
    ensures CountOnDay(PlayJobs(cfg, [], jobs), source, 0) == cfg.target + n
  {
    var count := cfg.target + n;
    var job := Job(source, 0, 0, Forgetful(cfg.batchSize, count, n), count);
    jobs := [job];
    RunReaches(source, cfg, n);
    assert jobs[..0] == [];
    assert HeardFrom(n, count)[..count] == HeardFrom(n, count) && StoredRows(source, count)[..count] == StoredRows(source, count);
    UnheardInReached(n, count);
    RowsOfDayZero(source, count);
  }

  // ---------------------------------------------------------------- The exact bound

  /** Every history of runs with at most n lost acknowledgements of a source keeps it within the bound on every day. */
  ghost predicate AlwaysWithin(cfg: Config, n: nat, bound: int)
    requires cfg.batchSize >= 1
  {
    forall jobs, source, day | Serial(jobs) && LostAcks(cfg, [], jobs, source) <= n ::
      CountOnDay(PlayJobs(cfg, [], jobs), source, day) <= bound
  }

  /** The daily bound holds in all histories with at most n losses exactly if it is at least target + n. */
  lemma DailyBoundIff(cfg: Config, n: nat, bound: int)
    requires cfg.target >= 1 && cfg.batchSize >= 1
    ensures AlwaysWithin(cfg, n, bound) <==> bound >= cfg.target + n
  {
    if bound >= cfg.target + n {
      forall jobs, source, day | Serial(jobs) && LostAcks(cfg, [], jobs, source) <= n
        ensures CountOnDay(PlayJobs(cfg, [], jobs), source, day) <= bound
      {
        DailyQuota(cfg, jobs, source, day);
      }
    } else {
      var jobs := LostAckExceedsTarget(cfg, n, "source");
      assert CountOnDay(PlayJobs(cfg, [], jobs), "source", 0) > bound;
    }
  }

  /** Hence the target itself is kept in all of them exactly if no acknowledgement may be lost. */
  lemma DailyTargetIff(cfg: Config, n: nat)
    requires cfg.target >= 1 && cfg.batchSize >= 1
    ensures AlwaysWithin(cfg, n, cfg.target) <==> n == 0
  {
    DailyBoundIff(cfg, n, cfg.target);
  }
}
