/**
 What a run amounts to when every article has one fixed outcome: the nested loops over batches,
 filters, summaries and saves store the first acceptable new articles in order, as many as today's
 target leaves, whatever the batch size; and a run that is stopped and retried stores the same rows.
 */
module PipelineRefinement {
  import opened Wrappers
  import opened Numbers
  import opened Arrays
  import opened Calendar
  import opened Pipeline
  import opened PipelineQuota

  /** Fixed outcomes: an article's details, its worth, its summary, and a summary's embedding. */
  datatype Judge = Judge(
    details: string -> Option<Details>,
    valuable: (Article, Details) -> bool,
    summary: (Article, Details) -> Option<Summary>,
    vector: Summary -> Vector)

  function SelectedIds(j: Judge, items: seq<(Article, Details)>): set<string> {
    set i | 0 <= i < |items| && j.valuable(items[i].0, items[i].1) :: items[i].0.id
  }

  function Vectors(j: Judge, texts: seq<Summary>): seq<Vector> {
    seq(|texts|, i requires 0 <= i < |texts| => j.vector(texts[i]))
  }

  /** The collaborators answer by the judge, however articles are grouped and whenever they are asked. */
  ghost predicate Follows(w: World, j: Judge) {
    && (forall k, id :: w.details(k, id) == j.details(id))
    && (forall k, items :: w.select(k, items) == Some(SelectedIds(j, items)))
    && (forall k, a, d :: w.summarize(k, a, d) == j.summary(a, d))
    && (forall k, texts :: w.embed(k, texts) == Some(Vectors(j, texts)))
  }

  predicate HasContent(j: Judge, id: string) {
    j.details(id).Some? && j.details(id).value.content != ""
  }

  predicate Worthy(j: Judge, a: Article) {
    HasContent(j, a.id) && j.valuable(a, j.details(a.id).value)
  }

  predicate Acceptable(j: Judge, a: Article) {
    Worthy(j, a) && j.summary(a, j.details(a.id).value).Some?
  }

  function Summarize(j: Judge, a: Article): Summarized
    requires Acceptable(j, a)
  {
    var d := j.details(a.id).value;
    Summarized(a, d, j.summary(a, d).value)
  }

  /** The acceptable articles, in order, with what the judge makes of them. */
  function Kept(j: Judge, articles: seq<Article>): seq<Summarized> {
    if articles == [] then []
    else if Acceptable(j, articles[0]) then [Summarize(j, articles[0])] + Kept(j, articles[1..])
    else Kept(j, articles[1..])
  }

  function Accepted(j: Judge, articles: seq<Article>): seq<Embedded> {
    var kept := Kept(j, articles);
    seq(|kept|, i requires 0 <= i < |kept| => Embedded(kept[i], j.vector(kept[i].summary)))
  }

  function Take<T>(xs: seq<T>, n: int): seq<T> {
    if n <= 0 then [] else xs[..Min(n, |xs|)]
  }

  ghost predicate DistinctIds(articles: seq<Article>) {
    forall i, k :: 0 <= i < k < |articles| ==> articles[i].id != articles[k].id
  }

  lemma {:induction false} KeptConcat(j: Judge, a: seq<Article>, b: seq<Article>)
    ensures Kept(j, a + b) == Kept(j, a) + Kept(j, b)
  {
    if a == [] {
      assert a + b == b;
    } else {
      assert (a + b)[1..] == a[1..] + b;
      KeptConcat(j, a[1..], b);
    }
  }

  lemma {:induction false} KeptMembers(j: Judge, articles: seq<Article>)
    ensures |Kept(j, articles)| <= |articles|
    ensures forall s :: s in Kept(j, articles) ==> s.article in articles && Acceptable(j, s.article)
  {
    if articles != [] { KeptMembers(j, articles[1..]); }
  }

  lemma {:induction false} KeptDistinct(j: Judge, articles: seq<Article>)
    requires DistinctIds(articles)
    ensures forall i, k :: 0 <= i < k < |Kept(j, articles)| ==> Kept(j, articles)[i].article.id != Kept(j, articles)[k].article.id
  {
    if articles != [] {
      KeptDistinct(j, articles[1..]);
      KeptMembers(j, articles[1..]);
    }
  }

  /** Filtering out articles that would not be kept anyway changes nothing. */
  lemma {:induction false} KeptOfFiltered(j: Judge, articles: seq<Article>, pass: Article -> bool)
    requires forall a :: a in articles && Acceptable(j, a) ==> pass(a)
    ensures Kept(j, Filter(articles, pass)) == Kept(j, articles)
  {
    if articles != [] { KeptOfFiltered(j, articles[1..], pass); }
  }

  // ---------------------------------------------------------------- One batch

  lemma {:induction false} FetchedByJudge(w: World, j: Judge, at: nat, ids: seq<string>, i: nat, found: map<string, Details>)
    requires i <= |ids| && Follows(w, j)
    requires forall id :: id in found ==> HasContent(j, id) && found[id] == j.details(id).value
    ensures var all := FetchDetails(w, at, ids, i, found);
            && found.Keys <= all.Keys
            && (forall id :: id in all ==> HasContent(j, id) && all[id] == j.details(id).value)
            && (forall k :: i <= k < |ids| && HasContent(j, ids[k]) ==> ids[k] in all)
    decreases |ids| - i
  {
    if i < |ids| {
      FetchedByJudge(w, j, at, ids, i + 1, if HasContent(j, ids[i]) then found[ids[i] := j.details(ids[i]).value] else found);
    }
  }

  lemma ValidByJudge(j: Judge, batch: seq<Article>, details: map<string, Details>)
    requires forall id :: id in details ==> HasContent(j, id)
    requires forall a :: a in batch && HasContent(j, a.id) ==> a.id in details
    ensures Valid(batch, details) == Filter(batch, (a: Article) => HasContent(j, a.id))
  {
    FilterAgrees(batch, (a: Article) => a.id in details, (a: Article) => HasContent(j, a.id));
  }

  lemma ValuableByJudge(j: Judge, articles: seq<Article>, details: map<string, Details>)
    requires forall a :: a in articles ==> a.id in details && HasContent(j, a.id) && details[a.id] == j.details(a.id).value
    requires forall a, b :: a in articles && b in articles && a.id == b.id ==> a == b
    ensures Valuable(articles, SelectedIds(j, Items(articles, details))) == Filter(articles, (a: Article) => Worthy(j, a))
  {
    var items := Items(articles, details);
    var ids := SelectedIds(j, items);
    forall a | a in articles ensures a.id in ids <==> Worthy(j, a) {
      var n :| 0 <= n < |articles| && articles[n] == a;
      assert items[n] == (a, details[a.id]);
      if a.id in ids {
        var i :| 0 <= i < |items| && j.valuable(items[i].0, items[i].1) && items[i].0.id == a.id;
        assert articles[i] in articles && articles[i] == a;
      }
    }
    FilterAgrees(articles, (a: Article) => a.id in ids, (a: Article) => Worthy(j, a));
  }

  /** Stopping the summaries at the limit gives the first of all that would have been kept. */
  lemma {:induction false} SummariesByJudge(w: World, j: Judge, at: nat, articles: seq<Article>,
                                            details: map<string, Details>, limit: nat, i: nat, done: seq<Summarized>)
    requires i <= |articles| && Follows(w, j) && |done| <= limit
    requires forall a :: a in articles ==> a.id in details && Worthy(j, a) && details[a.id] == j.details(a.id).value
    ensures Summaries(w, at, articles, details, limit, i, done) == Take(done + Kept(j, articles[i..]), limit)
    decreases |articles| - i
  {
    if i < |articles| && |done| < limit {
      var a := articles[i];
      assert a in articles && articles[i..][1..] == articles[i + 1..];
      if Acceptable(j, a) {
        SummariesByJudge(w, j, at, articles, details, limit, i + 1, done + [Summarize(j, a)]);
        assert done + ([Summarize(j, a)] + Kept(j, articles[i + 1..])) == done + [Summarize(j, a)] + Kept(j, articles[i + 1..]);
      } else {
        SummariesByJudge(w, j, at, articles, details, limit, i + 1, done);
      }
    }
  }

  lemma FilterTwice(j: Judge, batch: seq<Article>)
    ensures Kept(j, Filter(Filter(batch, (a: Article) => HasContent(j, a.id)), (a: Article) => Worthy(j, a))) == Kept(j, batch)
  {
    KeptOfFiltered(j, batch, (a: Article) => HasContent(j, a.id));
    KeptOfFiltered(j, Filter(batch, (a: Article) => HasContent(j, a.id)), (a: Article) => Worthy(j, a));
  }

  lemma SummarizedInBatch(w: World, j: Judge, at: nat, batch: seq<Article>, limit: nat)
    requires Follows(w, j) && DistinctIds(batch)
    ensures var details := FetchDetails(w, at, Ids(batch), 0, map[]);
            var valid := Valid(batch, details);
            Summaries(w, at, Valuable(valid, SelectedIds(j, Items(valid, details))), details, limit, 0, [])
            == Take(Kept(j, batch), limit)
    ensures Valid(batch, FetchDetails(w, at, Ids(batch), 0, map[])) == [] ==> Kept(j, batch) == []
  {
    var ids := Ids(batch);
    var details := FetchDetails(w, at, ids, 0, map[]);
    FetchedByJudge(w, j, at, ids, 0, map[]);
    forall a | a in batch && HasContent(j, a.id) ensures a.id in details {
      var n :| 0 <= n < |batch| && batch[n] == a;
      assert ids[n] == a.id;
    }
    ValidByJudge(j, batch, details);
    var valid := Valid(batch, details);
    FilterMembers(batch, (a: Article) => HasContent(j, a.id));
    ValuableByJudge(j, valid, details);
    var valuable := Valuable(valid, SelectedIds(j, Items(valid, details)));
    FilterMembers(valid, (a: Article) => Worthy(j, a));
    SummariesByJudge(w, j, at, valuable, details, limit, 0, []);
    FilterTwice(j, batch);
    assert valuable[0..] == valuable && [] + Kept(j, valuable) == Kept(j, valuable);
  }

  /** One batch, whatever the saves do: the first acceptable articles of the batch are offered to the database. */
  lemma BatchByJudge(w: World, j: Judge, source: string, at: nat, batch: seq<Article>, limit: nat, so: Progress)
    requires Follows(w, j) && DistinctIds(batch)
    ensures Batch(w, source, at, batch, limit, so) == SaveAll(w, source, at, Take(Accepted(j, batch), limit), 0, so)
  {
    SummarizedInBatch(w, j, at, batch, limit);
    var summarized := Take(Kept(j, batch), limit);
    var vectors := Vectors(j, Texts(summarized));
    assert w.embed(at, Texts(summarized)) == Some(vectors);
    assert Zip(summarized, vectors) == Take(Accepted(j, batch), limit);
  }

  // ---------------------------------------------------------------- Saves

  /** Rows without the instant of their insert. */
  function Content(rows: seq<Row>): seq<Row> {
    seq(|rows|, i requires 0 <= i < |rows| => rows[i].(minedAt := 0))
  }

  function Stored(source: string, items: seq<Embedded>): seq<Row> {
    seq(|items|, i requires 0 <= i < |items| =>
      Row(source, items[i].item.article.id, items[i].item.article.url, items[i].item.summary, items[i].vector, 0))
  }

  ghost predicate AllSaved(w: World) {
    forall k :: w.save(k) == Saved
  }

  /** The items from i on have distinct ids that are not in the table yet. */
  ghost predicate Fresh(rows: seq<Row>, source: string, items: seq<Embedded>, i: nat) {
    && (forall k :: i <= k < |items| ==> !Taken(rows, source, items[k].item.article.id))
    && (forall k, l :: i <= k < l < |items| ==> items[k].item.article.id != items[l].item.article.id)
  }

  lemma {:induction false} SaveAllSaves(w: World, source: string, at: nat, items: seq<Embedded>, i: nat, so: Progress)
    requires i <= |items| && AllSaved(w) && Fresh(so.rows, source, items, i)
    ensures var end := SaveAll(w, source, at, items, i, so);
            && Content(end.rows) == Content(so.rows) + Stored(source, items[i..])
            && |end.saved| == |so.saved| + |items| - i
            && end.threw == so.threw
    decreases |items| - i
  {
    if i < |items| {
      var next := SaveOne(w, source, at + i, items[i], so);
      assert ExistingIds(next.rows, source) == ExistingIds(so.rows, source) + {items[i].item.article.id} by {
        var row := next.rows[|so.rows|];
        assert next.rows == so.rows + [row];
        assert forall r :: r in next.rows <==> r in so.rows || r == row;
      }
      SaveAllSaves(w, source, at, items, i + 1, next);
      assert Content(next.rows) + Stored(source, items[i + 1..]) == Content(so.rows) + Stored(source, items[i..]);
    }
  }

  // ---------------------------------------------------------------- All batches

  lemma TakenByContent(rows: seq<Row>, before: seq<Row>, source: string, items: seq<Embedded>, id: string)
    requires Content(rows) == Content(before) + Stored(source, items)
    ensures Taken(rows, source, id) <==> Taken(before, source, id) || exists e :: e in items && e.item.article.id == id
  {
    var n := |before|;
    assert |rows| == n + |items|;
    forall i | 0 <= i < n ensures rows[i].source == before[i].source && rows[i].sourceId == before[i].sourceId {
      assert Content(rows)[i] == Content(before)[i];
    }
    forall i | 0 <= i < |items| ensures rows[n + i].source == source && rows[n + i].sourceId == items[i].item.article.id {
      assert Content(rows)[n + i] == Stored(source, items)[i];
    }
    if Taken(rows, source, id) {
      var r :| r in rows && r.source == source && r.sourceId == id;
      var i :| 0 <= i < |rows| && rows[i] == r;
      if i < n {
        assert before[i] in before && before[i].source == source && before[i].sourceId == id;
      } else {
        assert items[i - n] in items && items[i - n].item.article.id == id;
      }
    }
    if e :| e in items && e.item.article.id == id {
      var i :| 0 <= i < |items| && items[i] == e;
      assert rows[n + i] in rows && rows[n + i].source == source && rows[n + i].sourceId == id;
    }
    if Taken(before, source, id) {
      var r :| r in before && r.source == source && r.sourceId == id;
      var i :| 0 <= i < n && before[i] == r;
      assert rows[i] in rows && rows[i].source == source && rows[i].sourceId == id;
    }
  }

  ghost predicate NoneTaken(rows: seq<Row>, source: string, articles: seq<Article>) {
    forall a :: a in articles ==> !Taken(rows, source, a.id)
  }

  lemma AcceptedFresh(j: Judge, rows: seq<Row>, source: string, articles: seq<Article>, limit: int)
    requires DistinctIds(articles) && NoneTaken(rows, source, articles)
    ensures Fresh(rows, source, Take(Accepted(j, articles), limit), 0)
  {
    KeptMembers(j, articles);
    KeptDistinct(j, articles);
  }

  lemma BatchSaves(w: World, j: Judge, source: string, at: nat, batch: seq<Article>, limit: nat, so: Progress)
    requires Follows(w, j) && AllSaved(w) && DistinctIds(batch) && NoneTaken(so.rows, source, batch)
    ensures var end := Batch(w, source, at, batch, limit, so);
            var first := Take(Accepted(j, batch), limit);
            && Content(end.rows) == Content(so.rows) + Stored(source, first)
            && |end.saved| == |so.saved| + |first| && end.threw == so.threw
  {
    var first := Take(Accepted(j, batch), limit);
    BatchByJudge(w, j, source, at, batch, limit, so);
    AcceptedFresh(j, so.rows, source, batch, limit);
    SaveAllSaves(w, source, at, first, 0, so);
    assert first[0..] == first;
  }

  lemma TakeConcat<T>(a: seq<T>, b: seq<T>, n: int)
    ensures Take(a + b, n) == Take(a, n) + Take(b, n - |Take(a, n)|)
  {
  }

  lemma StoredConcat(source: string, a: seq<Embedded>, b: seq<Embedded>)
    ensures Stored(source, a + b) == Stored(source, a) + Stored(source, b)
  {
  }

  lemma AcceptedConcat(j: Judge, a: seq<Article>, b: seq<Article>)
    ensures Accepted(j, a + b) == Accepted(j, a) + Accepted(j, b)
  {
    KeptConcat(j, a, b);
  }

  /** The rest of the articles stays new: what a batch saves has the ids of that batch. */
  lemma RestStaysNew(j: Judge, rows: seq<Row>, before: seq<Row>, source: string, batch: seq<Article>,
                     rest: seq<Article>, limit: int)
    requires DistinctIds(batch + rest) && NoneTaken(before, source, rest)
    requires Content(rows) == Content(before) + Stored(source, Take(Accepted(j, batch), limit))
    ensures NoneTaken(rows, source, rest)
  {
    KeptMembers(j, batch);
    forall a | a in rest ensures !Taken(rows, source, a.id) {
      TakenByContent(rows, before, source, Take(Accepted(j, batch), limit), a.id);
      forall e | e in Take(Accepted(j, batch), limit) ensures e.item.article.id != a.id {
        var n :| 0 <= n < |rest| && rest[n] == a;
        assert e.item in Kept(j, batch);
        var m :| 0 <= m < |batch| && batch[m] == e.item.article;
        assert (batch + rest)[m] == batch[m] && (batch + rest)[|batch| + n] == a;
      }
    }
  }

  lemma FirstOfBoth(j: Judge, source: string, batch: seq<Article>, rest: seq<Article>, quota: int)
    ensures var first := Take(Accepted(j, batch), quota);
            Stored(source, first) + Stored(source, Take(Accepted(j, rest), quota - |first|))
            == Stored(source, Take(Accepted(j, batch + rest), quota))
  {
    var first := Take(Accepted(j, batch), quota);
    AcceptedConcat(j, batch, rest);
    TakeConcat(Accepted(j, batch), Accepted(j, rest), quota);
    StoredConcat(source, first, Take(Accepted(j, rest), quota - |first|));
  }

  lemma SplitBatch(rows: seq<Row>, source: string, articles: seq<Article>, p: nat, q: nat)
    requires p <= q <= |articles| && DistinctIds(articles) && NoneTaken(rows, source, articles[p..])
    ensures articles[p..] == articles[p..q] + articles[q..]
    ensures DistinctIds(articles[p..]) && DistinctIds(articles[p..q])
    ensures NoneTaken(rows, source, articles[p..q]) && NoneTaken(rows, source, articles[q..])
  {
    assert articles[p..] == articles[p..q] + articles[q..];
    forall a | a in articles[p..q] || a in articles[q..] ensures a in articles[p..] {
    }
  }

  lemma {:induction false} CollectSavesFirst(w: World, j: Judge, cfg: Config, source: string, articles: seq<Article>,
                                             p: nat, baseline: nat, so: Progress)
    requires cfg.batchSize >= 1 && Follows(w, j) && AllSaved(w) && !so.threw && p <= |articles|
    requires DistinctIds(articles) && NoneTaken(so.rows, source, articles[p..])
    ensures var end := Collect(w, cfg, source, articles, p, baseline, so);
            var first := Take(Accepted(j, articles[p..]), cfg.target - (baseline + |so.saved|));
            Content(end.rows) == Content(so.rows) + Stored(source, first) && !end.threw
    decreases |articles| - p
  {
    var quota := cfg.target - (baseline + |so.saved|);
    if p == |articles| || quota <= 0 {
      NothingToCollect(w, j, cfg, source, articles, p, baseline, so);
    } else {
      var q := Min(p + cfg.batchSize, |articles|);
      var batch, rest := articles[p..q], articles[q..];
      SplitBatch(so.rows, source, articles, p, q);
      var next := Batch(w, source, p, batch, quota, so);
      var first := Take(Accepted(j, batch), quota);
      BatchSaves(w, j, source, p, batch, quota, so);
      RestStaysNew(j, next.rows, so.rows, source, batch, rest, quota);
      CollectSavesFirst(w, j, cfg, source, articles, q, baseline, next);
      CollectStep(w, cfg, source, articles, p, baseline, so);
      var end := Collect(w, cfg, source, articles, p, baseline, so);
      JoinStretches(j, source, batch, rest, quota, Content(so.rows), Content(next.rows), Content(end.rows));
    }
  }

  lemma NothingToCollect(w: World, j: Judge, cfg: Config, source: string, articles: seq<Article>, p: nat, baseline: nat,
                         so: Progress)
    requires cfg.batchSize >= 1 && !so.threw && p <= |articles|
    requires p == |articles| || baseline + |so.saved| >= cfg.target
    ensures var end := Collect(w, cfg, source, articles, p, baseline, so);
            var first := Take(Accepted(j, articles[p..]), cfg.target - (baseline + |so.saved|));
            Content(end.rows) == Content(so.rows) + Stored(source, first) && !end.threw
  {
    CollectStops(w, cfg, source, articles, p, baseline, so);
    var first := Take(Accepted(j, articles[p..]), cfg.target - (baseline + |so.saved|));
    assert first == [] && Stored(source, first) == [];
  }

  lemma JoinStretches(j: Judge, source: string, batch: seq<Article>, rest: seq<Article>, quota: int,
                      before: seq<Row>, middle: seq<Row>, after: seq<Row>)
    requires middle == before + Stored(source, Take(Accepted(j, batch), quota))
    requires after == middle + Stored(source, Take(Accepted(j, rest), quota - |Take(Accepted(j, batch), quota)|))
    ensures after == before + Stored(source, Take(Accepted(j, batch + rest), quota))
  {
    var first := Take(Accepted(j, batch), quota);
    FirstOfBoth(j, source, batch, rest, quota);
    AppendTwice(before, Stored(source, first), Stored(source, Take(Accepted(j, rest), quota - |first|)));
  }

  lemma AppendTwice<T>(a: seq<T>, b: seq<T>, c: seq<T>)
    ensures a + b + c == a + (b + c)
  {
  }

  lemma CollectStep(w: World, cfg: Config, source: string, articles: seq<Article>, p: nat, baseline: nat, so: Progress)
    requires cfg.batchSize >= 1 && p < |articles| && !so.threw && baseline + |so.saved| < cfg.target
    ensures var q := Min(p + cfg.batchSize, |articles|);
            Collect(w, cfg, source, articles, p, baseline, so)
            == Collect(w, cfg, source, articles, q, baseline,
                       Batch(w, source, p, articles[p..q], cfg.target - (baseline + |so.saved|), so))
  {
    CollectGoesOn(w, cfg, source, articles, p, baseline, so);
    var q := Min(p + cfg.batchSize, |articles|);
    if q < p + cfg.batchSize {
      var next := Batch(w, source, p, articles[p..q], cfg.target - (baseline + |so.saved|), so);
      CollectStops(w, cfg, source, articles, q, baseline, next);
      CollectStops(w, cfg, source, articles, p + cfg.batchSize, baseline, next);
    }
  }

  // ---------------------------------------------------------------- One run

  /** Everything answers, saves succeed, and article outcomes are the judge's. */
  ghost predicate Smooth(w: World, j: Judge, articles: seq<Article>) {
    && w.countAnswers && w.lookupAnswers && w.articles == Some(articles)
    && Follows(w, j) && AllSaved(w) && DistinctIds(articles)
  }

  lemma {:induction false} FilterKeepsDistinct(articles: seq<Article>, keep: Article -> bool)
    requires DistinctIds(articles)
    ensures DistinctIds(Filter(articles, keep))
  {
    if articles != [] {
      var rest := articles[1..];
      FilterKeepsDistinct(rest, keep);
      FilterMembers(rest, keep);
      forall i | 0 <= i < |Filter(rest, keep)| ensures Filter(rest, keep)[i].id != articles[0].id {
        assert Filter(rest, keep)[i] in Filter(rest, keep);
        var n :| 0 <= n < |rest| && rest[n] == Filter(rest, keep)[i];
        assert articles[n + 1] == rest[n];
      }
    }
  }

  lemma NewArticlesAreNew(rows: seq<Row>, source: string, articles: seq<Article>)
    requires DistinctIds(articles)
    ensures DistinctIds(NewArticles(rows, source, articles)) && NoneTaken(rows, source, NewArticles(rows, source, articles))
  {
    FilterKeepsDistinct(articles, (a: Article) => !Taken(rows, source, a.id));
    FilterMembers(articles, (a: Article) => !Taken(rows, source, a.id));
  }

  /**
   The refinement: with fixed outcomes a run stores exactly the first acceptable new articles, in
   order, as many as the target leaves. The right-hand side does not mention the batch size.
   */
  lemma RunSavesFirst(w: World, j: Judge, cfg: Config, source: string, now: int, rows: seq<Row>, articles: seq<Article>)
    requires cfg.batchSize >= 1 && Smooth(w, j, articles)
    ensures var baseline := CountSince(rows, source, TodayStart(now));
            var end := Run(w, cfg, source, now, rows);
            && !end.threw
            && Content(end.rows) == Content(rows)
               + Stored(source, Take(Accepted(j, NewArticles(rows, source, articles)), cfg.target - baseline))
  {
    var baseline := CountSince(rows, source, TodayStart(now));
    var unseen := NewArticles(rows, source, articles);
    NewArticlesAreNew(rows, source, articles);
    assert unseen[0..] == unseen;
    CollectSavesFirst(w, j, cfg, source, unseen, 0, baseline, Progress(rows, [], [], false));
  }

  // ---------------------------------------------------------------- Runs that throw

  /** Outcomes are the judge's wherever there is one; any call outside details, summaries and saves may throw. */
  ghost predicate Falters(w: World, j: Judge, articles: seq<Article>) {
    && (w.articles.Some? ==> w.articles == Some(articles))
    && (forall k, id :: w.details(k, id) == j.details(id))
    && (forall k, items :: w.select(k, items) == None || w.select(k, items) == Some(SelectedIds(j, items)))
    && (forall k, a, d :: w.summarize(k, a, d) == j.summary(a, d))
    && (forall k, texts :: var vectors := w.embed(k, texts);
          vectors == None || |vectors.value| != |texts| || vectors == Some(Vectors(j, texts)))
    && AllSaved(w) && DistinctIds(articles)
  }

  /** The same world without its failures. */
  function Steady(w: World, j: Judge, articles: seq<Article>): World {
    w.(countAnswers := true, articles := Some(articles), lookupAnswers := true,
       select := (k, items) => Some(SelectedIds(j, items)), embed := (k, texts) => Some(Vectors(j, texts)))
  }

  lemma {:induction false} SameDetails(w: World, v: World, at: nat, ids: seq<string>, i: nat, found: map<string, Details>)
    requires i <= |ids| && w.details == v.details
    ensures FetchDetails(w, at, ids, i, found) == FetchDetails(v, at, ids, i, found)
    decreases |ids| - i
  {
    if i < |ids| {
      SameDetails(w, v, at, ids, i + 1, found);
      match w.details(at + i, ids[i])
      case Some(d) => SameDetails(w, v, at, ids, i + 1, found[ids[i] := d]);
      case None =>
    }
  }

  lemma {:induction false} SameSummaries(w: World, v: World, at: nat, articles: seq<Article>, details: map<string, Details>,
                                         limit: int, i: nat, done: seq<Summarized>)
    requires i <= |articles| && w.summarize == v.summarize
    ensures Summaries(w, at, articles, details, limit, i, done) == Summaries(v, at, articles, details, limit, i, done)
    decreases |articles| - i
  {
    if i < |articles| {
      var a := articles[i];
      SameSummaries(w, v, at, articles, details, limit, i + 1, done);
      if a.id in details {
        match w.summarize(at + i, a, details[a.id])
        case Some(s) =>
          SameSummaries(w, v, at, articles, details, limit, i + 1, done + [Summarized(a, details[a.id], s)]);
        case None =>
      }
    }
  }

  lemma {:induction false} SameSaves(w: World, v: World, source: string, at: nat, items: seq<Embedded>, i: nat, so: Progress)
    requires i <= |items| && w.save == v.save && w.clock == v.clock
    ensures SaveAll(w, source, at, items, i, so) == SaveAll(v, source, at, items, i, so)
    decreases |items| - i
  {
    if i < |items| { SameSaves(w, v, source, at, items, i + 1, SaveOne(w, source, at + i, items[i], so)); }
  }

  /** A batch of the failing world is a batch of the steady one, or it throws and has saved nothing. */
  lemma BatchOrThrow(w: World, j: Judge, source: string, at: nat, batch: seq<Article>, limit: int, so: Progress,
                     articles: seq<Article>)
    requires Falters(w, j, articles) && !so.threw
    ensures Batch(w, source, at, batch, limit, so) == Batch(Steady(w, j, articles), source, at, batch, limit, so)
            || Batch(w, source, at, batch, limit, so) == so.(threw := true)
  {
    var v := Steady(w, j, articles);
    SameDetails(w, v, at, Ids(batch), 0, map[]);
    var details := FetchDetails(w, at, Ids(batch), 0, map[]);
    var valid := Valid(batch, details);
    match w.select(at, Items(valid, details))
    case None =>
    case Some(ids) =>
      SameSummaries(w, v, at, Valuable(valid, ids), details, limit, 0, []);
      var summarized := Summaries(w, at, Valuable(valid, ids), details, limit, 0, []);
      var vectors := w.embed(at, Texts(summarized));
      if vectors.Some? && |vectors.value| == |summarized| {
        SameSaves(w, v, source, at, Zip(summarized, vectors.value), 0, so);
      }
  }

  lemma {:induction false} FailingCollectIsPrefix(w: World, j: Judge, cfg: Config, source: string, from: int, to: int,
                                                  todo: seq<Article>, p: nat, baseline: nat, so: Progress,
                                                  articles: seq<Article>)
    requires cfg.batchSize >= 1 && Falters(w, j, articles) && Ticks(w, from, to)
    ensures Collect(w, cfg, source, todo, p, baseline, so).rows
            <= Collect(Steady(w, j, articles), cfg, source, todo, p, baseline, so).rows
    decreases |todo| - p
  {
    var v := Steady(w, j, articles);
    if p >= |todo| || so.threw || baseline + |so.saved| >= cfg.target {
      CollectStops(w, cfg, source, todo, p, baseline, so);
      CollectStops(v, cfg, source, todo, p, baseline, so);
    } else {
      var batch, limit := todo[p..Min(p + cfg.batchSize, |todo|)], cfg.target - (baseline + |so.saved|);
      var next := Batch(w, source, p, batch, limit, so);
      CollectGoesOn(w, cfg, source, todo, p, baseline, so);
      CollectGoesOn(v, cfg, source, todo, p, baseline, so);
      BatchOrThrow(w, j, source, p, batch, limit, so, articles);
      if next == Batch(v, source, p, batch, limit, so) {
        FailingCollectIsPrefix(w, j, cfg, source, from, to, todo, p + cfg.batchSize, baseline, next, articles);
      } else {
        CollectStops(w, cfg, source, todo, p + cfg.batchSize, baseline, next);
        CollectGrows(v, cfg, source, from, to, todo, p, baseline, so);
      }
    }
  }

  /** Whatever throws: the run has saved a prefix of what it would have saved without the exception. */
  lemma FailingRunIsPrefix(w: World, j: Judge, cfg: Config, source: string, now: int, to: int, rows: seq<Row>,
                           articles: seq<Article>)
    requires cfg.batchSize >= 1 && Falters(w, j, articles) && Ticks(w, now, to)
    ensures Smooth(Steady(w, j, articles), j, articles) && Ticks(Steady(w, j, articles), now, to)
    ensures rows <= Run(w, cfg, source, now, rows).rows <= Run(Steady(w, j, articles), cfg, source, now, rows).rows
  {
    var v := Steady(w, j, articles);
    RunGrows(w, cfg, source, now, to, rows);
    RunGrows(v, cfg, source, now, to, rows);
    FailingCollectIsPrefix(w, j, cfg, source, now, to, NewArticles(rows, source, articles), 0,
                           CountSince(rows, source, TodayStart(now)), Progress(rows, [], [], false), articles);
  }

  lemma {:induction false} FailingCollectIsWhole(w: World, j: Judge, cfg: Config, source: string, todo: seq<Article>,
                                                 p: nat, baseline: nat, so: Progress, articles: seq<Article>)
    requires cfg.batchSize >= 1 && Falters(w, j, articles) && !so.threw
    ensures !Collect(w, cfg, source, todo, p, baseline, so).threw ==>
              Collect(w, cfg, source, todo, p, baseline, so)
              == Collect(Steady(w, j, articles), cfg, source, todo, p, baseline, so)
    decreases |todo| - p
  {
    var v := Steady(w, j, articles);
    if p >= |todo| || baseline + |so.saved| >= cfg.target {
      CollectStops(w, cfg, source, todo, p, baseline, so);
      CollectStops(v, cfg, source, todo, p, baseline, so);
    } else {
      var batch, limit := todo[p..Min(p + cfg.batchSize, |todo|)], cfg.target - (baseline + |so.saved|);
      var next := Batch(w, source, p, batch, limit, so);
      CollectGoesOn(w, cfg, source, todo, p, baseline, so);
      CollectGoesOn(v, cfg, source, todo, p, baseline, so);
      BatchOrThrow(w, j, source, p, batch, limit, so, articles);
      if next.threw {
        CollectStops(w, cfg, source, todo, p + cfg.batchSize, baseline, next);
      } else {
        FailingCollectIsWhole(w, j, cfg, source, todo, p + cfg.batchSize, baseline, next, articles);
      }
    }
  }

  /**
   No failure is swallowed: a run that reports success is, in its rows and in its result, the whole run
   that it would have been had nothing failed. In particular a failing scraper, count, lookup, filter
   or embedding that mattered makes the run throw, so the queue tries again.
   */
  lemma SuccessIsWholeRun(w: World, j: Judge, cfg: Config, source: string, now: int, rows: seq<Row>, articles: seq<Article>)
    requires cfg.batchSize >= 1 && Falters(w, j, articles)
    ensures !Run(w, cfg, source, now, rows).threw ==>
              Run(w, cfg, source, now, rows) == Run(Steady(w, j, articles), cfg, source, now, rows)
  {
    var start, baseline := Progress(rows, [], [], false), CountSince(rows, source, TodayStart(now));
    FailingCollectIsWhole(w, j, cfg, source, NewArticles(rows, source, articles), 0, baseline, start, articles);
  }

  // ---------------------------------------------------------------- Stopped and retried

  /** The table is the old one plus the first m of these items. */
  ghost predicate Partial(rows: seq<Row>, table: seq<Row>, source: string, now: int, items: seq<Embedded>, m: nat) {
    && m <= |items| && rows <= table
    && Content(table) == Content(rows) + Stored(source, items[..m])
    && (forall i :: |rows| <= i < |table| ==> table[i].minedAt >= TodayStart(now))
  }

  lemma {:induction false} CountGrowsByAppended(rows: seq<Row>, table: seq<Row>, source: string, since: int)
    requires rows <= table
    requires forall i :: |rows| <= i < |table| ==> table[i].source == source && table[i].minedAt >= since
    ensures CountSince(table, source, since) == CountSince(rows, source, since) + |table| - |rows|
  {
    if |table| > |rows| {
      CountGrowsByAppended(rows, table[..|table| - 1], source, since);
    } else {
      assert table == rows;
    }
  }

  lemma {:induction false} KeptCommutes(j: Judge, articles: seq<Article>, pass: Article -> bool)
    ensures Kept(j, Filter(articles, pass)) == Filter(Kept(j, articles), (s: Summarized) => pass(s.article))
  {
    if articles != [] { KeptCommutes(j, articles[1..], pass); }
  }

  lemma DropFirst(kept: seq<Summarized>, m: nat, pass: Summarized -> bool)
    requires m <= |kept|
    requires forall i :: 0 <= i < |kept| ==> (pass(kept[i]) <==> i >= m)
    ensures Filter(kept, pass) == kept[m..]
  {
    assert kept == kept[..m] + kept[m..];
    FilterConcat(kept[..m], kept[m..], pass);
    FilterKeepsNone(kept[..m], pass);
    FilterKeepsAll(kept[m..], pass);
  }

  /** After the first m acceptable articles are stored, what a retry would keep is the rest of them. */
  lemma KeptByRetry(j: Judge, rows: seq<Row>, table: seq<Row>, source: string, now: int, articles: seq<Article>, m: nat)
    requires DistinctIds(articles)
    requires Partial(rows, table, source, now, Accepted(j, NewArticles(rows, source, articles)), m)
    ensures Accepted(j, NewArticles(table, source, articles)) == Accepted(j, NewArticles(rows, source, articles))[m..]
  {
    var newOnes := NewArticles(rows, source, articles);
    var kept, items := Kept(j, newOnes), Accepted(j, newOnes)[..m];
    NewArticlesAreNew(rows, source, articles);
    KeptDistinct(j, newOnes);
    KeptMembers(j, newOnes);
    forall s | s in kept ensures !Taken(table, source, s.article.id) <==> forall e :: e in items ==> e.item.article.id != s.article.id {
      TakenByContent(table, rows, source, items, s.article.id);
    }
    forall i | 0 <= i < |kept| ensures !Taken(table, source, kept[i].article.id) <==> i >= m {
      assert kept[i] in kept;
      if i < m { assert items[i] in items && items[i].item == kept[i]; }
    }
    DropFirst(kept, m, (s: Summarized) => !Taken(table, source, s.article.id));
    forall a | a in articles && Taken(rows, source, a.id) ensures Taken(table, source, a.id) {
      TakenByContent(table, rows, source, items, a.id);
    }
    FilterBoth(articles, (a: Article) => !Taken(rows, source, a.id), (a: Article) => !Taken(table, source, a.id),
               (a: Article) => !Taken(table, source, a.id));
    KeptCommutes(j, newOnes, (a: Article) => !Taken(table, source, a.id));
    FilterAgrees(kept, (s: Summarized) => !Taken(table, source, s.article.id),
                 (s: Summarized) => ((a: Article) => !Taken(table, source, a.id))(s.article));
  }

  function Quota(cfg: Config, rows: seq<Row>, source: string, now: int): int {
    Max(0, cfg.target - CountSince(rows, source, TodayStart(now)))
  }

  lemma AppendedAreOurs(rows: seq<Row>, table: seq<Row>, source: string, now: int, items: seq<Embedded>, m: nat)
    requires Partial(rows, table, source, now, items, m)
    ensures |table| == |rows| + m && forall i :: |rows| <= i < |table| ==> table[i].source == source
  {
    assert |Content(table)| == |rows| + m;
    forall i | |rows| <= i < |table| ensures table[i].source == source {
      assert Content(table)[i] == Stored(source, items[..m])[i - |rows|];
    }
  }

  lemma TakeRest<T>(items: seq<T>, m: nat, quota: nat)
    requires m <= |items| && m <= quota
    ensures items[..m] + Take(items[m..], quota - m) == items[..Min(quota, |items|)]
  {
  }

  /** A retry, wherever the runs before it stopped, completes what the first run would have stored. */
  lemma RetryCompletes(w: World, j: Judge, cfg: Config, source: string, first: int, now: int, to: int, rows: seq<Row>,
                       table: seq<Row>, articles: seq<Article>, m: nat)
    requires cfg.batchSize >= 1 && Smooth(w, j, articles) && Ticks(w, now, to) && KstDay(now) == KstDay(first)
    requires Partial(rows, table, source, first, Accepted(j, NewArticles(rows, source, articles)), m)
    requires m <= Quota(cfg, rows, source, first)
    ensures var items := Accepted(j, NewArticles(rows, source, articles));
            var end := Run(w, cfg, source, now, table);
            && !end.threw && table <= end.rows
            && Partial(rows, end.rows, source, first, items, Min(Quota(cfg, rows, source, first), |items|))
  {
    var items, quota := Accepted(j, NewArticles(rows, source, articles)), Quota(cfg, rows, source, first);
    var end := Run(w, cfg, source, now, table);
    AppendedAreOurs(rows, table, source, first, items, m);
    CountGrowsByAppended(rows, table, source, TodayStart(first));
    RunSavesFirst(w, j, cfg, source, now, table, articles);
    RunGrows(w, cfg, source, now, to, table);
    KeptByRetry(j, rows, table, source, first, articles, m);
    SinceTodayIff(now, first);
    assert Take(items[m..], cfg.target - CountSince(table, source, TodayStart(now))) == Take(items[m..], quota - m);
    TakeRest(items, m, quota);
    StoredConcat(source, items[..m], Take(items[m..], quota - m));
    AppendTwice(Content(rows), Stored(source, items[..m]), Stored(source, Take(items[m..], quota - m)));
  }

  lemma PrefixIsPartial(rows: seq<Row>, all: seq<Row>, source: string, now: int, items: seq<Embedded>, m: nat, n: nat)
    requires Partial(rows, all, source, now, items, m) && |rows| <= n <= |all|
    ensures n - |rows| <= m && Partial(rows, all[..n], source, now, items, n - |rows|)
  {
    AppendedAreOurs(rows, all, source, now, items, m);
    var k := n - |rows|;
    assert Content(all[..n]) == Content(all)[..n];
    assert Stored(source, items[..m])[..k] == Stored(source, items[..k]);
  }

  /** A run of this day over this article list, with the judge's outcomes. */
  ghost predicate Retry(job: Job, j: Judge, source: string, first: int, articles: seq<Article>) {
    && job.source == source && KstDay(job.start) == KstDay(first)
    && Smooth(job.world, j, articles) && Ticks(job.world, job.start, job.end)
  }

  /** Such a run, in which any query, the scraper, the AI filter or the embedding may also throw. */
  ghost predicate FailingRetry(job: Job, j: Judge, source: string, first: int, articles: seq<Article>) {
    && job.source == source && KstDay(job.start) == KstDay(first)
    && Falters(job.world, j, articles) && Ticks(job.world, job.start, job.end)
  }

  ghost predicate Retries(jobs: seq<Job>, j: Judge, source: string, first: int, articles: seq<Article>) {
    forall i :: 0 <= i < |jobs| ==> FailingRetry(jobs[i], j, source, first, articles)
  }

  lemma StoppedRetryStaysPartial(cfg: Config, rows: seq<Row>, table: seq<Row>, job: Job, j: Judge, source: string,
                                 first: int, articles: seq<Article>, m: nat) returns (n: nat)
    requires cfg.batchSize >= 1 && FailingRetry(job, j, source, first, articles) && m <= Quota(cfg, rows, source, first)
    requires Partial(rows, table, source, first, Accepted(j, NewArticles(rows, source, articles)), m)
    ensures n <= Quota(cfg, rows, source, first)
    ensures Partial(rows, After(cfg, table, job), source, first, Accepted(j, NewArticles(rows, source, articles)), n)
  {
    var items := Accepted(j, NewArticles(rows, source, articles));
    var steady := Steady(job.world, j, articles);
    FailingRunIsPrefix(job.world, j, cfg, source, job.start, job.end, table, articles);
    RetryCompletes(steady, j, cfg, source, first, job.start, job.end, rows, table, articles, m);
    var got, all := Run(job.world, cfg, source, job.start, table).rows, Run(steady, cfg, source, job.start, table).rows;
    var kept := Min(|table| + job.kept, |got|);
    assert got[..kept] == all[..kept];
    PrefixIsPartial(rows, all, source, first, items, Min(Quota(cfg, rows, source, first), |items|), kept);
    n := kept - |rows|;
  }

  lemma {:induction false} RetriesStayPartial(cfg: Config, rows: seq<Row>, jobs: seq<Job>, j: Judge, source: string,
                                              first: int, articles: seq<Article>) returns (m: nat)
    requires cfg.batchSize >= 1 && Retries(jobs, j, source, first, articles)
    ensures m <= Quota(cfg, rows, source, first)
    ensures Partial(rows, PlayJobs(cfg, rows, jobs), source, first, Accepted(j, NewArticles(rows, source, articles)), m)
    decreases |jobs|
  {
    if jobs == [] {
      m := 0;
      assert Content(rows) + Stored(source, []) == Content(rows);
    } else {
      var before, job := jobs[..|jobs| - 1], jobs[|jobs| - 1];
      m := RetriesStayPartial(cfg, rows, before, j, source, first, articles);
      m := StoppedRetryStaysPartial(cfg, rows, PlayJobs(cfg, rows, before), job, j, source, first, articles, m);
    }
  }

  lemma WholeRun(cfg: Config, rows: seq<Row>, job: Job, j: Judge, articles: seq<Article>)
    requires cfg.batchSize >= 1 && Smooth(job.world, j, articles)
    ensures var items := Accepted(j, NewArticles(rows, job.source, articles));
            Content(Run(job.world, cfg, job.source, job.start, rows).rows)
            == Content(rows) + Stored(job.source, items[..Min(Quota(cfg, rows, job.source, job.start), |items|)])
  {
    var items := Accepted(j, NewArticles(rows, job.source, articles));
    RunSavesFirst(job.world, j, cfg, job.source, job.start, rows, articles);
    assert Take(items, cfg.target - CountSince(rows, job.source, TodayStart(job.start)))
           == items[..Min(Quota(cfg, rows, job.source, job.start), |items|)];
  }

  /**
   Crash and resume: after any number of runs that each stopped after any prefix of their saves, by a
   crash or by an exception at any of their calls, one complete retry leaves exactly the rows that a
   single uninterrupted run, with any batch size, would have left.
   */
  lemma CrashResume(cfg: Config, rows: seq<Row>, crashed: seq<Job>, last: Job, whole: Job, wholeCfg: Config, j: Judge,
                    articles: seq<Article>)
    requires cfg.batchSize >= 1 && wholeCfg.batchSize >= 1 && wholeCfg.target == cfg.target
    requires Smooth(whole.world, j, articles)
    requires Retries(crashed, j, whole.source, whole.start, articles)
    requires Retry(last, j, whole.source, whole.start, articles)
    ensures Content(Run(last.world, cfg, last.source, last.start, PlayJobs(cfg, rows, crashed)).rows)
            == Content(Run(whole.world, wholeCfg, whole.source, whole.start, rows).rows)
  {
    var m := RetriesStayPartial(cfg, rows, crashed, j, whole.source, whole.start, articles);
    RetryCompletes(last.world, j, cfg, whole.source, whole.start, last.start, last.end, rows, PlayJobs(cfg, rows, crashed),
                   articles, m);
    WholeRun(wholeCfg, rows, whole, j, articles);
  }
}
