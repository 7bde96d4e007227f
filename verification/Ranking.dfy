/**
 Hybrid search by reciprocal rank fusion: the full outer join of two candidate lists, each the top
 of its own ranking, scored by 1/(60 + rank) per list and ordered by score, then by creation date
 and id, both descending. Scores are exact rationals.
 */
module Ranking {
  import opened Numbers
  import opened Arrays
  import opened Ordering

  const RRF_K := 60
  const DEFAULT_CANDIDATE_LIMIT := 50

  type Dates = int -> int

  /** The share of one list in the score of the article at this rank, counted from 1. */
  function Share(rank: nat): (share: real)
    requires rank >= 1
    ensures share > 0.0
  {
    1.0 / (RRF_K + rank) as real
  }

  lemma ShareFalls(better: nat, worse: nat)
    requires 1 <= better < worse
    ensures Share(better) > Share(worse)
  {
    var a, b := (RRF_K + better) as real, (RRF_K + worse) as real;
    assert a * b > 0.0;
    assert 1.0 / a - 1.0 / b == (b - a) / (a * b);
  }

  /** Position of an id in a list, the list's length if it is not there. */
  function IndexOf(list: seq<int>, id: int): (i: nat)
    ensures i <= |list|
    ensures id in list <==> i < |list|
    ensures i < |list| ==> list[i] == id
    ensures forall k :: 0 <= k < i ==> list[k] != id
  {
    if list == [] then 0 else if list[0] == id then 0 else 1 + IndexOf(list[1..], id)
  }

  function Contribution(list: seq<int>, id: int): (share: real)
    ensures share >= 0.0 && (share > 0.0 <==> id in list)
  {
    if id in list then Share(IndexOf(list, id) + 1) else 0.0
  }

  function Score(keyword: seq<int>, vector: seq<int>, id: int): real {
    Contribution(keyword, id) + Contribution(vector, id)
  }

  /** Whether x comes before y in the result. */
  predicate Before(keyword: seq<int>, vector: seq<int>, createdAt: Dates, x: int, y: int) {
    var sx, sy := Score(keyword, vector, x), Score(keyword, vector, y);
    sx > sy || (sx == sy && (createdAt(x) > createdAt(y) || (createdAt(x) == createdAt(y) && x > y)))
  }

  /** The joined ids, each once: the keyword list, then what only the vector list has. */
  function Joined(keyword: seq<int>, vector: seq<int>): seq<int> {
    keyword + Filter(vector, (id: int) => id !in keyword)
  }

  function Hybrid(keyword: seq<int>, vector: seq<int>, createdAt: Dates): seq<int> {
    OrderBy(Joined(keyword, vector), (x, y) => Before(keyword, vector, createdAt, x, y))
  }

  /** Top candidates: the first L of a whole ranking. */
  function Top(ranking: seq<int>, limit: nat): seq<int> {
    ranking[..Min(limit, |ranking|)]
  }

  // ---------------------------------------------------------------- The joined rows

  lemma {:induction false} FilterKeepsDistinct(xs: seq<int>, keep: int -> bool)
    requires NoDuplicates(xs)
    ensures NoDuplicates(Filter(xs, keep))
  {
    if xs != [] {
      FilterKeepsDistinct(xs[1..], keep);
      FilterMembers(xs[1..], keep);
      forall i | 0 <= i < |Filter(xs[1..], keep)| ensures Filter(xs[1..], keep)[i] != xs[0] {
        assert Filter(xs[1..], keep)[i] in Filter(xs[1..], keep);
      }
    }
  }

  lemma {:induction false} FilterSplits(xs: seq<int>, keep: int -> bool, drop: int -> bool)
    requires forall x :: keep(x) == !drop(x)
    ensures |Filter(xs, keep)| + |Filter(xs, drop)| == |xs|
  {
    if xs != [] { FilterSplits(xs[1..], keep, drop); }
  }

  lemma JoinedRows(keyword: seq<int>, vector: seq<int>)
    requires NoDuplicates(keyword) && NoDuplicates(vector)
    ensures NoDuplicates(Joined(keyword, vector))
    ensures forall id :: id in Joined(keyword, vector) <==> id in keyword || id in vector
    ensures |Joined(keyword, vector)| == |keyword| + |vector| - |Filter(vector, (id: int) => id in keyword)|
  {
    var only := Filter(vector, (id: int) => id !in keyword);
    FilterMembers(vector, (id: int) => id !in keyword);
    FilterKeepsDistinct(vector, (id: int) => id !in keyword);
    FilterSplits(vector, (id: int) => id !in keyword, (id: int) => id in keyword);
    forall i, j | 0 <= i < |keyword| && 0 <= j < |only| ensures keyword[i] != only[j] {
      assert only[j] in only;
    }
  }

  /** The order is strict and total on any ids, so the result is determined. */
  lemma BeforeIsTotal(keyword: seq<int>, vector: seq<int>, createdAt: Dates, ids: seq<int>)
    ensures TotalOrder((x, y) => Before(keyword, vector, createdAt, x, y), ids)
  {
  }

  /**
   The hybrid result: every candidate of either list once, in strictly decreasing rank order, and
   it is the only such sequence. The separate count is its length, the size of the union, at most
   twice the candidate limit.
   */
  lemma HybridResult(keywordRanking: seq<int>, vectorRanking: seq<int>, limit: nat, createdAt: Dates)
    requires NoDuplicates(keywordRanking) && NoDuplicates(vectorRanking)
    ensures var keyword, vector := Top(keywordRanking, limit), Top(vectorRanking, limit);
            var result := Hybrid(keyword, vector, createdAt);
            && Sorted((x, y) => Before(keyword, vector, createdAt, x, y), result)
            && NoDuplicates(result)
            && (forall id :: id in result <==> id in keyword || id in vector)
            && |result| == |Joined(keyword, vector)| <= 2 * limit
            && (forall other | Sorted((x, y) => Before(keyword, vector, createdAt, x, y), other)
                               && SameElements(result, other) :: other == result)
  {
    var keyword, vector := Top(keywordRanking, limit), Top(vectorRanking, limit);
    var rows, before := Joined(keyword, vector), (x, y) => Before(keyword, vector, createdAt, x, y);
    var result := Hybrid(keyword, vector, createdAt);
    JoinedRows(keyword, vector);
    BeforeIsTotal(keyword, vector, createdAt, rows);
    BeforeIsTotal(keyword, vector, createdAt, result);
    OrderByIsSorted(rows, before);
    forall i, j | 0 <= i < j < |result| ensures result[i] != result[j] {
      assert before(result[i], result[j]);
    }
    forall other | Sorted(before, other) && SameElements(result, other) ensures other == result {
      SortedIsUnique(result, other, before);
    }
  }

  // ---------------------------------------------------------------- Found by both

  ghost predicate Candidates(keyword: seq<int>, vector: seq<int>, limit: nat) {
    NoDuplicates(keyword) && NoDuplicates(vector) && |keyword| <= limit && |vector| <= limit
  }

  predicate InBoth(keyword: seq<int>, vector: seq<int>, id: int) {
    id in keyword && id in vector
  }

  predicate InOne(keyword: seq<int>, vector: seq<int>, id: int) {
    id in keyword <==> id !in vector
  }

  ghost predicate BothBeatOne(limit: nat) {
    forall keyword, vector, createdAt, x, y ::
      Candidates(keyword, vector, limit) && InBoth(keyword, vector, x) && InOne(keyword, vector, y) ==>
        Before(keyword, vector, createdAt, x, y)
  }

  lemma ContributionBounds(list: seq<int>, id: int, limit: nat)
    requires |list| <= limit && limit >= 1
    ensures Contribution(list, id) <= Share(1)
    ensures id in list ==> Contribution(list, id) >= Share(limit)
  {
    if id in list {
      var rank := IndexOf(list, id) + 1;
      if rank > 1 { ShareFalls(1, rank); }
      if rank < limit { ShareFalls(rank, limit); }
    }
  }

  lemma TwiceTheLast(limit: nat)
    requires limit >= 1
    ensures Share(limit) + Share(limit) > Share(1) <==> limit <= 61
  {
    var n := (RRF_K + limit) as real;
    assert Share(limit) + Share(limit) == 2.0 / n;
    assert 2.0 / n > 1.0 / 61.0 <==> 122.0 > n;
  }

  /** Rank 1 of the keyword list only, article 2, against the last rank of both lists, article 1. */
  lemma CrowdedOut(limit: nat) returns (keyword: seq<int>, vector: seq<int>)
    requires limit > 61
    ensures Candidates(keyword, vector, limit) && InBoth(keyword, vector, 1) && InOne(keyword, vector, 2)
    ensures forall id :: id in keyword || id in vector ==> id >= 1
    ensures !Before(keyword, vector, _ => 0, 1, 2)
  {
    keyword := seq(limit, i => if i == limit - 1 then 1 else i + 2);
    vector := seq(limit, i => if i == limit - 1 then 1 else limit + i + 2);
    assert keyword[limit - 1] == 1 && vector[limit - 1] == 1 && keyword[0] == 2;
    TwiceTheLast(limit);
  }

  /**
   Every article found by both searches ranks strictly above every article found by only one, for
   all candidate lists, exactly when the candidate limit is at most 61; the default is 50.
   */
  lemma BothBeatOneIff(limit: nat)
    ensures BothBeatOne(limit) <==> limit <= 61
    ensures BothBeatOne(DEFAULT_CANDIDATE_LIMIT)
  {
    Dominance(limit);
    Dominance(DEFAULT_CANDIDATE_LIMIT);
    if limit > 61 {
      var keyword, vector := CrowdedOut(limit);
      assert InBoth(keyword, vector, 1) && InOne(keyword, vector, 2);
    }
  }

  lemma Dominance(limit: nat)
    ensures limit <= 61 ==> BothBeatOne(limit)
  {
    if limit <= 61 {
      forall keyword, vector, createdAt, x, y |
        Candidates(keyword, vector, limit) && InBoth(keyword, vector, x) && InOne(keyword, vector, y)
        ensures Before(keyword, vector, createdAt, x, y)
      {
        ContributionBounds(keyword, x, limit);
        ContributionBounds(vector, x, limit);
        ContributionBounds(keyword, y, limit);
        ContributionBounds(vector, y, limit);
        TwiceTheLast(limit);
      }
    }
  }

  // ---------------------------------------------------------------- Moving up

  /** The candidates that come before x: its final position, counted from 0. */
  ghost function Ahead(keyword: seq<int>, vector: seq<int>, createdAt: Dates, x: int): set<int> {
    set id | id in Joined(keyword, vector) && Before(keyword, vector, createdAt, id, x)
  }

  function Without(list: seq<int>, at: nat): seq<int>
    requires at <= |list|
  {
    if at == |list| then list else list[..at] + list[at + 1..]
  }

  function InsertAt(list: seq<int>, i: nat, x: int): seq<int>
    requires i <= |list|
  {
    list[..i] + [x] + list[i..]
  }

  /** The list after x moves up, or enters, at index i: x leaves its old place, the list is cut at the limit. */
  function Promoted(list: seq<int>, x: int, i: nat, limit: nat): seq<int>
    requires i <= IndexOf(list, x)
  {
    Top(InsertAt(Without(list, IndexOf(list, x)), i, x), limit)
  }

  /** Where the promoted list takes its element k from, except for x itself at i. */
  function Source(at: nat, i: nat, k: nat): int {
    if k < i then k else if k <= at then k - 1 else k
  }

  lemma PromotedAt(list: seq<int>, x: int, i: nat, limit: nat, k: nat)
    requires i <= IndexOf(list, x) && k < |Promoted(list, x, i, limit)|
    ensures k == i ==> Promoted(list, x, i, limit)[k] == x
    ensures k != i ==>
              var from := Source(IndexOf(list, x), i, k);
              0 <= from < |list| && from != IndexOf(list, x) && Promoted(list, x, i, limit)[k] == list[from]
  {
    var at := IndexOf(list, x);
    var others := Without(list, at);
    assert Promoted(list, x, i, limit)[k] == InsertAt(others, i, x)[k];
    if k != i {
      var n := if k < i then k else k - 1;
      assert InsertAt(others, i, x)[k] == others[n];
      assert others[n] == list[if n < at then n else n + 1];
    }
  }

  lemma PromotedDistinct(list: seq<int>, x: int, i: nat, limit: nat)
    requires NoDuplicates(list) && i <= IndexOf(list, x)
    ensures NoDuplicates(Promoted(list, x, i, limit))
  {
    var moved := Promoted(list, x, i, limit);
    forall a, b | 0 <= a < b < |moved| ensures moved[a] != moved[b] {
      PromotedAt(list, x, i, limit, a);
      PromotedAt(list, x, i, limit, b);
    }
  }

  lemma OtherLoses(list: seq<int>, x: int, i: nat, limit: nat, y: int)
    requires NoDuplicates(list) && i <= IndexOf(list, x) && y != x
    ensures Contribution(Promoted(list, x, i, limit), y) <= Contribution(list, y)
  {
    var moved := Promoted(list, x, i, limit);
    if y in moved {
      var k := IndexOf(moved, y);
      PromotedAt(list, x, i, limit, k);
      var from := Source(IndexOf(list, x), i, k);
      IndexIs(list, y, from);
      EarlierContributesMore(list, moved, y);
    }
  }

  lemma MoverLands(list: seq<int>, x: int, i: nat, limit: nat)
    requires NoDuplicates(list) && i <= IndexOf(list, x) && i < limit
    ensures IndexOf(Promoted(list, x, i, limit), x) == i < |Promoted(list, x, i, limit)|
  {
    var others := Without(list, IndexOf(list, x));
    assert |InsertAt(others, i, x)| == |others| + 1 > i;
    PromotedDistinct(list, x, i, limit);
    PromotedAt(list, x, i, limit, i);
    IndexIs(Promoted(list, x, i, limit), x, i);
  }

  lemma MoverGains(list: seq<int>, x: int, i: nat, limit: nat)
    requires NoDuplicates(list) && i <= IndexOf(list, x) && i < limit
    ensures Contribution(Promoted(list, x, i, limit), x) >= Contribution(list, x)
  {
    MoverLands(list, x, i, limit);
    EarlierContributesMore(Promoted(list, x, i, limit), list, x);
  }

  lemma EarlierContributesMore(a: seq<int>, b: seq<int>, x: int)
    requires x in a && (x in b ==> IndexOf(a, x) <= IndexOf(b, x))
    ensures Contribution(a, x) >= Contribution(b, x)
  {
    if x in b && IndexOf(a, x) < IndexOf(b, x) { ShareFalls(IndexOf(a, x) + 1, IndexOf(b, x) + 1); }
  }

  lemma PromotedShares(list: seq<int>, x: int, i: nat, limit: nat)
    requires NoDuplicates(list) && i <= IndexOf(list, x) && i < limit
    ensures NoDuplicates(Promoted(list, x, i, limit)) && |Promoted(list, x, i, limit)| <= limit
    ensures Contribution(Promoted(list, x, i, limit), x) >= Contribution(list, x)
    ensures forall y :: y != x ==> Contribution(Promoted(list, x, i, limit), y) <= Contribution(list, y)
  {
    PromotedDistinct(list, x, i, limit);
    MoverGains(list, x, i, limit);
    forall y | y != x ensures Contribution(Promoted(list, x, i, limit), y) <= Contribution(list, y) {
      OtherLoses(list, x, i, limit, y);
    }
  }

  lemma IndexIs(list: seq<int>, id: int, i: nat)
    requires NoDuplicates(list) && i < |list| && list[i] == id
    ensures IndexOf(list, id) == i
  {
    assert list[IndexOf(list, id)] == list[i];
  }

  /** A better score for x, and for nobody else, keeps everybody who was behind x behind x. */
  lemma NobodyOvertakes(keyword: seq<int>, vector: seq<int>, keyword': seq<int>, vector': seq<int>, createdAt: Dates, x: int)
    requires Score(keyword', vector', x) >= Score(keyword, vector, x)
    requires forall y :: y != x ==> Contribution(keyword', y) <= Contribution(keyword, y)
    requires forall y :: y != x ==> Contribution(vector', y) <= Contribution(vector, y)
    requires NoDuplicates(keyword) && NoDuplicates(vector) && NoDuplicates(keyword') && NoDuplicates(vector')
    ensures Ahead(keyword', vector', createdAt, x) <= Ahead(keyword, vector, createdAt, x)
  {
    JoinedRows(keyword, vector);
    JoinedRows(keyword', vector');
    forall id | id in Ahead(keyword', vector', createdAt, x) ensures id in Ahead(keyword, vector, createdAt, x) {
      assert Contribution(keyword', id) <= Contribution(keyword, id);
      assert Contribution(vector', id) <= Contribution(vector, id);
    }
  }

  /**
   Improving an article's rank in one candidate list, or letting it enter one, with everything else
   fixed, never lowers its final position, and nobody who was behind it gets ahead.
   */
  lemma PromotionNeverHurts(keyword: seq<int>, vector: seq<int>, createdAt: Dates, x: int, i: nat, limit: nat)
    requires Candidates(keyword, vector, limit) && i < limit
    ensures i <= IndexOf(keyword, x) ==>
              var promoted := Promoted(keyword, x, i, limit);
              && Ahead(promoted, vector, createdAt, x) <= Ahead(keyword, vector, createdAt, x)
              && |Ahead(promoted, vector, createdAt, x)| <= |Ahead(keyword, vector, createdAt, x)|
    ensures i <= IndexOf(vector, x) ==>
              var promoted := Promoted(vector, x, i, limit);
              && Ahead(keyword, promoted, createdAt, x) <= Ahead(keyword, vector, createdAt, x)
              && |Ahead(keyword, promoted, createdAt, x)| <= |Ahead(keyword, vector, createdAt, x)|
  {
    if i <= IndexOf(keyword, x) {
      var promoted := Promoted(keyword, x, i, limit);
      PromotedShares(keyword, x, i, limit);
      NobodyOvertakes(keyword, vector, promoted, vector, createdAt, x);
      SubsetSize(Ahead(promoted, vector, createdAt, x), Ahead(keyword, vector, createdAt, x));
    }
    if i <= IndexOf(vector, x) {
      var promoted := Promoted(vector, x, i, limit);
      PromotedShares(vector, x, i, limit);
      NobodyOvertakes(keyword, vector, keyword, promoted, createdAt, x);
      SubsetSize(Ahead(keyword, promoted, createdAt, x), Ahead(keyword, vector, createdAt, x));
    }
  }

  lemma HybridOfWhole(keyword: seq<int>, vector: seq<int>, createdAt: Dates)
    requires NoDuplicates(keyword) && NoDuplicates(vector)
    ensures var result := Hybrid(keyword, vector, createdAt);
            && Sorted((x, y) => Before(keyword, vector, createdAt, x, y), result)
            && (forall id :: id in result <==> id in Joined(keyword, vector))
            && |result| == |Joined(keyword, vector)|
  {
    var limit := Max(|keyword|, |vector|);
    HybridResult(keyword, vector, limit, createdAt);
    assert Top(keyword, limit) == keyword && Top(vector, limit) == vector;
    JoinedRows(keyword, vector);
  }

  lemma {:induction false} DistinctSize(xs: seq<int>, ids: set<int>)
    requires NoDuplicates(xs) && forall id :: id in ids <==> id in xs
    ensures |ids| == |xs|
  {
    if xs == [] {
      assert forall id :: id !in ids;
      assert ids == {};
    } else {
      DistinctSize(xs[1..], ids - {xs[0]});
    }
  }

  /** An article's index in the result is the number of candidates ahead of it. */
  lemma AheadIsIndex(keyword: seq<int>, vector: seq<int>, createdAt: Dates, n: nat)
    requires NoDuplicates(keyword) && NoDuplicates(vector) && n < |Hybrid(keyword, vector, createdAt)|
    ensures |Ahead(keyword, vector, createdAt, Hybrid(keyword, vector, createdAt)[n])| == n
  {
    var result, before := Hybrid(keyword, vector, createdAt), (x, y) => Before(keyword, vector, createdAt, x, y);
    HybridOfWhole(keyword, vector, createdAt);
    AheadAreBefore(keyword, vector, createdAt, n);
    forall i, j | 0 <= i < j < n ensures result[i] != result[j] {
      assert before(result[i], result[j]);
    }
    DistinctSize(result[..n], Ahead(keyword, vector, createdAt, result[n]));
  }

  lemma AheadAreBefore(keyword: seq<int>, vector: seq<int>, createdAt: Dates, n: nat)
    requires NoDuplicates(keyword) && NoDuplicates(vector) && n < |Hybrid(keyword, vector, createdAt)|
    ensures var result := Hybrid(keyword, vector, createdAt);
            forall id :: id in Ahead(keyword, vector, createdAt, result[n]) <==> id in result[..n]
  {
    var result, before := Hybrid(keyword, vector, createdAt), (x, y) => Before(keyword, vector, createdAt, x, y);
    HybridOfWhole(keyword, vector, createdAt);
    forall id ensures id in Ahead(keyword, vector, createdAt, result[n]) <==> id in result[..n] {
      if id in result {
        var k :| 0 <= k < |result| && result[k] == id;
        assert k < n ==> before(id, result[n]);
        assert n < k ==> before(result[n], id);
      }
    }
  }

  /** Along the result scores fall; of equal scores the later created comes first, of equal dates the larger id. */
  lemma ResultOrder(keyword: seq<int>, vector: seq<int>, createdAt: Dates, i: nat, j: nat)
    requires NoDuplicates(keyword) && NoDuplicates(vector) && i < j < |Hybrid(keyword, vector, createdAt)|
    ensures var result := Hybrid(keyword, vector, createdAt);
            var x, y := result[i], result[j];
            var sx, sy := Score(keyword, vector, x), Score(keyword, vector, y);
            && sx >= sy
            && (sx == sy ==> createdAt(x) >= createdAt(y))
            && (sx == sy && createdAt(x) == createdAt(y) ==> x > y)
  {
    HybridOfWhole(keyword, vector, createdAt);
    var result := Hybrid(keyword, vector, createdAt);
    assert ((x, y) => Before(keyword, vector, createdAt, x, y))(result[i], result[j]);
  }

  /** An article's score is 1/(60 + rank) for each list it is in, with ranks counted from 1. */
  lemma ScoreByRanks(keyword: seq<int>, vector: seq<int>, i: nat, j: nat)
    requires NoDuplicates(keyword) && NoDuplicates(vector) && i < |keyword| && j < |vector|
    ensures keyword[i] !in vector ==> Score(keyword, vector, keyword[i]) == 1.0 / (61 + i) as real
    ensures vector[j] !in keyword ==> Score(keyword, vector, vector[j]) == 1.0 / (61 + j) as real
    ensures keyword[i] == vector[j] ==>
              Score(keyword, vector, keyword[i]) == 1.0 / (61 + i) as real + 1.0 / (61 + j) as real
  {
    IndexIs(keyword, keyword[i], i);
    IndexIs(vector, vector[j], j);
  }

  /** The pages of a hybrid search, for the totalPages computed from its count, are its whole result. */
  lemma HybridPages(keyword: seq<int>, vector: seq<int>, createdAt: Dates, limit: nat)
    requires NoDuplicates(keyword) && NoDuplicates(vector) && limit >= 1
    ensures var result := Hybrid(keyword, vector, createdAt);
            && |Joined(keyword, vector)| == |result|
            && Pages(result, limit, TotalPages(|Joined(keyword, vector)|, limit)) == result
  {
    HybridOfWhole(keyword, vector, createdAt);
    PagesPartition(Hybrid(keyword, vector, createdAt), limit);
  }
}
