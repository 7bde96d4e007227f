/**
 One run of the collection pipeline for one source: baseline and daily target, batches, article
 details, the AI filter, summaries up to the remaining quota, embeddings, and saves that may fail.

 Everything outside is a World: what the n-th call of each collaborator answers. A run's result is
 given twice, by functions on values and by the class that works as the service does; each method
 of the class is proved to compute the function.
 */
module Pipeline {
  import opened Wrappers
  import opened Numbers
  import opened Arrays
  import Calendar

  type Summary = string
  type Vector = seq<real>

  datatype Article = Article(id: string, title: string, url: string)

  datatype Details = Details(content: string)

  datatype Row = Row(source: string, sourceId: string, url: string, summary: Summary, vector: Vector, minedAt: int)

  datatype Summarized = Summarized(article: Article, details: Details, summary: Summary)

  datatype Embedded = Embedded(item: Summarized, vector: Vector)

  /** LostAck: the row was committed, but the caller saw an error. */
  datatype SaveReply = Saved | Rejected | LostAck

  datatype World = World(
    countAnswers: bool,
    articles: Option<seq<Article>>,
    lookupAnswers: bool,
    details: (nat, string) -> Option<Details>,
    select: (nat, seq<(Article, Details)>) -> Option<set<string>>,
    summarize: (nat, Article, Details) -> Option<Summary>,
    embed: (nat, seq<Summary>) -> Option<seq<Vector>>,
    save: nat -> SaveReply,
    clock: nat -> int)

  datatype Config = Config(target: int, batchSize: nat)

  /**
   A run so far: the table, what the run counts as saved, whether it threw; and as history, for each
   row it committed, whether it heard of that.
   */
  datatype Progress = Progress(rows: seq<Row>, saved: seq<string>, heard: seq<bool>, threw: bool)

  // ---------------------------------------------------------------- The table

  function ExistingIds(rows: seq<Row>, source: string): set<string> {
    set r | r in rows && r.source == source :: r.sourceId
  }

  function CountSince(rows: seq<Row>, source: string, since: int): nat {
    if rows == [] then 0
    else CountSince(rows[..|rows| - 1], source, since)
         + var r := rows[|rows| - 1]; if r.source == source && r.minedAt >= since then 1 else 0
  }

  predicate Taken(rows: seq<Row>, source: string, sourceId: string) {
    sourceId in ExistingIds(rows, source)
  }

  // ---------------------------------------------------------------- One batch

  function FetchDetails(w: World, at: nat, ids: seq<string>, i: nat, found: map<string, Details>): map<string, Details>
    requires i <= |ids|
    decreases |ids| - i
  {
    if i == |ids| then found
    else match w.details(at + i, ids[i])
      case Some(d) => FetchDetails(w, at, ids, i + 1, if d.content != "" then found[ids[i] := d] else found)
      case None => FetchDetails(w, at, ids, i + 1, found)
  }

  function Summaries(w: World, at: nat, articles: seq<Article>, details: map<string, Details>, limit: int,
                     i: nat, done: seq<Summarized>): (all: seq<Summarized>)
    requires i <= |articles|
    decreases |articles| - i
  {
    if i == |articles| || |done| >= limit then done
    else
      var article := articles[i];
      if article.id in details && details[article.id].content != "" then
        (match w.summarize(at + i, article, details[article.id])
         case Some(s) =>
           Summaries(w, at, articles, details, limit, i + 1, done + [Summarized(article, details[article.id], s)])
         case None => Summaries(w, at, articles, details, limit, i + 1, done))
      else Summaries(w, at, articles, details, limit, i + 1, done)
  }

  /** Saving one article: refused if the source already has it, else as the database replies. */
  function SaveOne(w: World, source: string, k: nat, e: Embedded, so: Progress): Progress {
    var row := Row(source, e.item.article.id, e.item.article.url, e.item.summary, e.vector, w.clock(k));
    if Taken(so.rows, source, row.sourceId) then so
    else match w.save(k)
      case Saved => so.(rows := so.rows + [row], saved := so.saved + [row.sourceId], heard := so.heard + [true])
      case LostAck => so.(rows := so.rows + [row], heard := so.heard + [false])
      case Rejected => so
  }

  function SaveAll(w: World, source: string, at: nat, items: seq<Embedded>, i: nat, so: Progress): Progress
    requires i <= |items|
    decreases |items| - i
  {
    if i == |items| then so else SaveAll(w, source, at, items, i + 1, SaveOne(w, source, at + i, items[i], so))
  }

  function Ids(articles: seq<Article>): seq<string> {
    seq(|articles|, i requires 0 <= i < |articles| => articles[i].id)
  }

  function Valid(batch: seq<Article>, details: map<string, Details>): seq<Article> {
    Filter(batch, (a: Article) => a.id in details)
  }

  function Valuable(articles: seq<Article>, ids: set<string>): seq<Article> {
    Filter(articles, (a: Article) => a.id in ids)
  }

  function Items(articles: seq<Article>, details: map<string, Details>): seq<(Article, Details)> {
    seq(|articles|, i requires 0 <= i < |articles| =>
      (articles[i], if articles[i].id in details then details[articles[i].id] else Details("")))
  }

  function Texts(items: seq<Summarized>): seq<Summary> {
    seq(|items|, i requires 0 <= i < |items| => items[i].summary)
  }

  function Zip(items: seq<Summarized>, vectors: seq<Vector>): seq<Embedded>
    requires |items| == |vectors|
  {
    seq(|items|, i requires 0 <= i < |items| => Embedded(items[i], vectors[i]))
  }

  function Batch(w: World, source: string, at: nat, batch: seq<Article>, limit: int, so: Progress): Progress {
    var details := FetchDetails(w, at, Ids(batch), 0, map[]);
    var valid := Valid(batch, details);
    if valid == [] then so
    else match w.select(at, Items(valid, details))
      case None => so.(threw := true)
      case Some(ids) =>
        var summarized := Summaries(w, at, Valuable(valid, ids), details, limit, 0, []);
        if summarized == [] then so
        else match w.embed(at, Texts(summarized))
          case None => so.(threw := true)
          case Some(vectors) =>
            if |vectors| != |summarized| then so.(threw := true)
            else SaveAll(w, source, at, Zip(summarized, vectors), 0, so)
  }

  // ---------------------------------------------------------------- One run

  /** The batch loop from article p on: its condition, the check of the target, and one batch. */
  function Collect(w: World, cfg: Config, source: string, articles: seq<Article>, p: nat, baseline: nat, so: Progress)
    : Progress
    requires cfg.batchSize >= 1
    decreases |articles| - p, 2
  {
    if p >= |articles| || so.threw then so else CheckTarget(w, cfg, source, articles, p, baseline, so)
  }

  function CheckTarget(w: World, cfg: Config, source: string, articles: seq<Article>, p: nat, baseline: nat, so: Progress)
    : Progress
    requires cfg.batchSize >= 1 && p < |articles|
    decreases |articles| - p, 1
  {
    if baseline + |so.saved| >= cfg.target then so else TakeBatch(w, cfg, source, articles, p, baseline, so)
  }

  function TakeBatch(w: World, cfg: Config, source: string, articles: seq<Article>, p: nat, baseline: nat, so: Progress)
    : Progress
    requires cfg.batchSize >= 1 && p < |articles|
    decreases |articles| - p, 0
  {
    var batch := articles[p..Min(p + cfg.batchSize, |articles|)];
    Collect(w, cfg, source, articles, p + cfg.batchSize, baseline,
            Batch(w, source, p, batch, cfg.target - (baseline + |so.saved|), so))
  }

  lemma CollectStops(w: World, cfg: Config, source: string, articles: seq<Article>, p: nat, baseline: nat, so: Progress)
    requires cfg.batchSize >= 1 && (p >= |articles| || so.threw || baseline + |so.saved| >= cfg.target)
    ensures Collect(w, cfg, source, articles, p, baseline, so) == so
  {
  }

  lemma CollectGoesOn(w: World, cfg: Config, source: string, articles: seq<Article>, p: nat, baseline: nat, so: Progress)
    requires cfg.batchSize >= 1 && p < |articles| && !so.threw && baseline + |so.saved| < cfg.target
    ensures var batch := articles[p..Min(p + cfg.batchSize, |articles|)];
            Collect(w, cfg, source, articles, p, baseline, so)
            == Collect(w, cfg, source, articles, p + cfg.batchSize, baseline,
                       Batch(w, source, p, batch, cfg.target - (baseline + |so.saved|), so))
  {
    var same := TakeBatch(w, cfg, source, articles, p, baseline, so);
    assert CheckTarget(w, cfg, source, articles, p, baseline, so) == same;
  }

  function NewArticles(rows: seq<Row>, source: string, articles: seq<Article>): seq<Article> {
    Filter(articles, (a: Article) => !Taken(rows, source, a.id))
  }

  function Run(w: World, cfg: Config, source: string, now: int, rows: seq<Row>): Progress
    requires cfg.batchSize >= 1
  {
    var start := Progress(rows, [], [], false);
    if !w.countAnswers then start.(threw := true)
    else
      var baseline := CountSince(rows, source, Calendar.TodayStart(now));
      if baseline >= cfg.target then start
      else match w.articles
        case None => start.(threw := true)
        case Some(articles) =>
          if articles == [] then start
          else if !w.lookupAnswers then start.(threw := true)
          else Collect(w, cfg, source, NewArticles(rows, source, articles), 0, baseline, start)
  }

  // ---------------------------------------------------------------- The service

  class TechTrendRepository {
    var rows: seq<Row>

    constructor (rows: seq<Row>)
      ensures this.rows == rows
    {
      this.rows := rows;
    }

    method CountSavedSince(source: string, since: int) returns (count: nat)
      ensures count == CountSince(rows, source, since)
    {
      count := 0;
      var i := 0;
      while i < |rows|
        invariant 0 <= i <= |rows| && count == CountSince(rows[..i], source, since)
      {
        assert rows[..i + 1][..i] == rows[..i];
        if rows[i].source == source && rows[i].minedAt >= since { count := count + 1; }
        i := i + 1;
      }
      assert rows[..i] == rows;
    }

    method FindExistingSourceIds(source: string, sourceIds: seq<string>) returns (ids: set<string>)
      ensures forall id :: id in ids <==> id in sourceIds && Taken(rows, source, id)
    {
      ids := set r | r in rows && r.source == source && r.sourceId in sourceIds :: r.sourceId;
    }

    /** The insert, guarded by the unique constraint on (source, source_id). */
    method SaveTrend(row: Row, reply: SaveReply) returns (ok: bool)
      modifies this
      ensures rows == if !Taken(old(rows), row.source, row.sourceId) && reply != Rejected
                      then old(rows) + [row] else old(rows)
      ensures ok <==> !Taken(old(rows), row.source, row.sourceId) && reply == Saved
    {
      if exists r :: r in rows && r.source == row.source && r.sourceId == row.sourceId {
        return false;
      }
      if reply != Rejected {
        rows := rows + [row];
      }
      ok := reply == Saved;
    }
  }

  class TrendsPipelineService {
    const repository: TechTrendRepository
    const cfg: Config

    constructor (repository: TechTrendRepository, cfg: Config)
      ensures this.repository == repository && this.cfg == cfg
    {
      this.repository := repository;
      this.cfg := cfg;
    }

    method FetchBatchDetailsMap(w: World, at: nat, ids: seq<string>) returns (details: map<string, Details>)
      ensures details == FetchDetails(w, at, ids, 0, map[])
    {
      details := map[];
      for i := 0 to |ids|
        invariant FetchDetails(w, at, ids, i, details) == FetchDetails(w, at, ids, 0, map[])
      {
        match w.details(at + i, ids[i]) {
          case Some(d) =>
            if d.content != "" { details := details[ids[i] := d]; }
          case None =>
        }
      }
    }

    method SummarizeArticles(w: World, at: nat, articles: seq<Article>, details: map<string, Details>, limit: int)
      returns (done: seq<Summarized>)
      ensures done == Summaries(w, at, articles, details, limit, 0, [])
    {
      done := [];
      var i := 0;
      while i < |articles|
        invariant i <= |articles|
        invariant Summaries(w, at, articles, details, limit, i, done) == Summaries(w, at, articles, details, limit, 0, [])
      {
        if |done| >= limit { break; }
        var article := articles[i];
        if article.id in details && details[article.id].content != "" {
          match w.summarize(at + i, article, details[article.id]) {
            case Some(s) => done := done + [Summarized(article, details[article.id], s)];
            case None =>
          }
        }
        i := i + 1;
      }
    }

    method SaveTrends(w: World, source: string, at: nat, items: seq<Embedded>, ghost so: Progress)
      returns (savedIds: seq<string>)
      requires so.rows == repository.rows
      modifies repository
      ensures var end := SaveAll(w, source, at, items, 0, so);
              repository.rows == end.rows && so.saved + savedIds == end.saved
    {
      savedIds := [];
      ghost var progress := so;
      var i := 0;
      while i < |items|
        invariant i <= |items|
        invariant repository.rows == progress.rows && so.saved + savedIds == progress.saved
        invariant SaveAll(w, source, at, items, i, progress) == SaveAll(w, source, at, items, 0, so)
      {
        var e := items[i];
        var row := Row(source, e.item.article.id, e.item.article.url, e.item.summary, e.vector, w.clock(at + i));
        var ok := repository.SaveTrend(row, w.save(at + i));
        if ok { savedIds := savedIds + [row.sourceId]; }
        progress := SaveOne(w, source, at + i, e, progress);
        i := i + 1;
      }
    }

    method ProcessBatch(w: World, source: string, at: nat, batch: seq<Article>, limit: int, ghost so: Progress)
      returns (savedIds: seq<string>, threw: bool)
      requires so.rows == repository.rows && !so.threw
      modifies repository
      ensures var end := Batch(w, source, at, batch, limit, so);
              repository.rows == end.rows && so.saved + savedIds == end.saved && threw == end.threw
    {
      savedIds, threw := [], false;
      var details := FetchBatchDetailsMap(w, at, Ids(batch));
      var valid := Valid(batch, details);
      if valid == [] { return; }
      var selected := w.select(at, Items(valid, details));
      if selected.None? { return [], true; }
      var valuable := Valuable(valid, selected.value);
      if valuable == [] { return; }
      var summarized := SummarizeArticles(w, at, valuable, details, limit);
      if summarized == [] { return; }
      var vectors := w.embed(at, Texts(summarized));
      if vectors.None? || |vectors.value| != |summarized| { return [], true; }
      SaveAllKeepsThrew(w, source, at, Zip(summarized, vectors.value), 0, so);
      savedIds := SaveTrends(w, source, at, Zip(summarized, vectors.value), so);
    }

    /** One turn of the batch loop: from here, all batches come to the same as the rest of them after this one. */
    method NextBatch(w: World, source: string, articles: seq<Article>, at: nat, batch: seq<Article>, baseline: nat,
                     savedSoFar: seq<string>, ghost so: Progress)
      returns (savedIds: seq<string>, threw: bool, ghost next: Progress)
      requires cfg.batchSize >= 1 && at < |articles| && batch == articles[at..Min(at + cfg.batchSize, |articles|)]
      requires so.rows == repository.rows && so.saved == savedSoFar && !so.threw && baseline + |savedSoFar| < cfg.target
      modifies repository
      ensures repository.rows == next.rows && savedSoFar + savedIds == next.saved && threw == next.threw
      ensures Collect(w, cfg, source, articles, at, baseline, so)
              == Collect(w, cfg, source, articles, at + cfg.batchSize, baseline, next)
    {
      var remainingQuota := cfg.target - (baseline + |savedSoFar|);
      CollectGoesOn(w, cfg, source, articles, at, baseline, so);
      next := Batch(w, source, at, batch, remainingQuota, so);
      savedIds, threw := ProcessBatch(w, source, at, batch, remainingQuota, so);
    }

    method ProcessBatches(w: World, source: string, articles: seq<Article>, baseline: nat, ghost start: Progress)
      returns (savedIds: seq<string>, threw: bool)
      requires cfg.batchSize >= 1
      requires start.rows == repository.rows && start.saved == [] && !start.threw
      modifies repository
      ensures var end := Collect(w, cfg, source, articles, 0, baseline, start);
              repository.rows == end.rows && threw == end.threw && savedIds == end.saved
    {
      savedIds, threw := [], false;
      var batches := ChunkArray(articles, cfg.batchSize);
      ghost var so := start;
      var index, at := 0, 0;
      while index < |batches| && !threw
        invariant index <= |batches| && at == Start(index, cfg.batchSize)
        invariant so.rows == repository.rows && so.saved == savedIds && so.threw == threw
        invariant Collect(w, cfg, source, articles, at, baseline, so)
                  == Collect(w, cfg, source, articles, 0, baseline, start)
      {
        if baseline + |savedIds| >= cfg.target { break; }
        assert batches[index] == Chunk(articles, cfg.batchSize, index);
        var ids;
        ids, threw, so := NextBatch(w, source, articles, at, batches[index], baseline, savedIds, so);
        savedIds := savedIds + ids;
        index, at := index + 1, at + cfg.batchSize;
      }
      CollectStops(w, cfg, source, articles, at, baseline, so);
    }

    /** On an exception the caller learns nothing of what was saved; otherwise exactly the acknowledged saves. */
    method ProcessSource(w: World, source: string, now: int) returns (savedIds: seq<string>, threw: bool)
      requires cfg.batchSize >= 1
      modifies repository
      ensures var end := Run(w, cfg, source, now, old(repository.rows));
              repository.rows == end.rows && threw == end.threw && (!threw ==> savedIds == end.saved)
    {
      savedIds, threw := [], true;
      if !w.countAnswers { return; }
      var start := Calendar.GetTodayStartUtc(now);
      var baseline := repository.CountSavedSince(source, start);
      if baseline >= cfg.target { return [], false; }
      if w.articles.None? { return; }
      var articles := w.articles.value;
      if articles == [] { return [], false; }
      if !w.lookupAnswers { return; }
      var existing := repository.FindExistingSourceIds(source, Ids(articles));
      var newArticles := Filter(articles, (a: Article) => a.id !in existing);
      NewArticlesByLookup(repository.rows, source, articles, existing);
      savedIds, threw := ProcessBatches(w, source, newArticles, baseline, Progress(repository.rows, [], [], false));
    }
  }

  lemma {:induction false} SaveAllKeepsThrew(w: World, source: string, at: nat, items: seq<Embedded>, i: nat, so: Progress)
    requires i <= |items|
    ensures SaveAll(w, source, at, items, i, so).threw == so.threw
    decreases |items| - i
  {
    if i < |items| { SaveAllKeepsThrew(w, source, at, items, i + 1, SaveOne(w, source, at + i, items[i], so)); }
  }

  lemma NewArticlesByLookup(rows: seq<Row>, source: string, articles: seq<Article>, existing: set<string>)
    requires forall id :: id in existing <==> id in Ids(articles) && Taken(rows, source, id)
    ensures Filter(articles, (a: Article) => a.id !in existing) == NewArticles(rows, source, articles)
  {
    forall a | a in articles ensures a.id in Ids(articles) {
      var i :| 0 <= i < |articles| && articles[i] == a;
      assert Ids(articles)[i] == a.id;
    }
    FilterAgrees(articles, (a: Article) => a.id !in existing, (a: Article) => !Taken(rows, source, a.id));
  }
}
