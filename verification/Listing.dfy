/**
 The article list: a query builder that collects filters and ordering terms, the list and the count
 built on the same filters, and what each sort option promises about the pages.
 */
module Listing {
  import opened Wrappers
  import opened Numbers
  import opened Arrays
  import opened Ordering

  datatype Trend = Trend(
    id: int,
    source: string,
    createdAt: int,
    minedAt: int,
    viewCount: Option<int>,
    likeCount: Option<int>,
    commentCount: Option<int>)

  datatype SortOption =
    | CreatedDesc | CreatedAsc | MinedDesc | MinedAsc | LikeDesc | ViewDesc | CommentDesc

  datatype Column = Id | CreatedAt | MinedAt | ViewCount | LikeCount | CommentCount

  /** One ORDER BY term. A null sorts last if nullsLast, else first. */
  datatype Term = Term(column: Column, descending: bool, nullsLast: bool)

  /** One WHERE condition; the day bounds stand for CURRENT_DATE and the next midnight. */
  datatype Condition = SourceIs(source: string) | MinedFrom(dayStart: int) | MinedBefore(dayEnd: int)

  function Cell(t: Trend, column: Column): Option<int> {
    match column
    case Id => Some(t.id)
    case CreatedAt => Some(t.createdAt)
    case MinedAt => Some(t.minedAt)
    case ViewCount => t.viewCount
    case LikeCount => t.likeCount
    case CommentCount => t.commentCount
  }

  /** Whether a comes before b by this term alone. */
  predicate TermLess(term: Term, a: Trend, b: Trend) {
    match (Cell(a, term.column), Cell(b, term.column))
    case (Some(x), Some(y)) => if term.descending then x > y else x < y
    case (Some(_), None) => term.nullsLast
    case (None, Some(_)) => !term.nullsLast
    case (None, None) => false
  }

  predicate TermEqual(term: Term, a: Trend, b: Trend) {
    Cell(a, term.column) == Cell(b, term.column)
  }

  /** Whether a comes before b by the terms, the earlier ones deciding first. */
  predicate Less(terms: seq<Term>, a: Trend, b: Trend) {
    if terms == [] then false
    else TermLess(terms[0], a, b) || (TermEqual(terms[0], a, b) && Less(terms[1..], a, b))
  }

  function By(terms: seq<Term>): (Trend, Trend) -> bool {
    (a, b) => Less(terms, a, b)
  }

  predicate Meets(t: Trend, condition: Condition) {
    match condition
    case SourceIs(source) => t.source == source
    case MinedFrom(dayStart) => t.minedAt >= dayStart
    case MinedBefore(dayEnd) => t.minedAt < dayEnd
  }

  predicate MeetsAll(t: Trend, conditions: seq<Condition>) {
    forall c | c in conditions :: Meets(t, c)
  }

  function Matching(table: seq<Trend>, conditions: seq<Condition>): seq<Trend> {
    Filter(table, (t: Trend) => MeetsAll(t, conditions))
  }

  // ---------------------------------------------------------------- The builder

  class SelectQueryBuilder {
    const table: seq<Trend>
    var conditions: seq<Condition>
    var terms: seq<Term>
    var offset: nat
    var limit: Option<nat>

    constructor (table: seq<Trend>)
      ensures this.table == table && conditions == [] && terms == [] && offset == 0 && limit == None
    {
      this.table := table;
      conditions, terms, offset, limit := [], [], 0, None;
    }

    method AndWhere(condition: Condition)
      modifies this`conditions
      ensures conditions == old(conditions) + [condition]
    {
      conditions := conditions + [condition];
    }

    /** orderBy forgets earlier terms. */
    method OrderBy(column: Column, descending: bool, nullsLast: bool)
      modifies this`terms
      ensures terms == [Term(column, descending, nullsLast)]
    {
      terms := [Term(column, descending, nullsLast)];
    }

    method AddOrderBy(column: Column, descending: bool, nullsLast: bool)
      modifies this`terms
      ensures terms == old(terms) + [Term(column, descending, nullsLast)]
    {
      terms := terms + [Term(column, descending, nullsLast)];
    }

    method SkipTake(skip: nat, take: nat)
      modifies this`offset, this`limit
      ensures offset == skip && limit == Some(take)
    {
      offset, limit := skip, Some(take);
    }

    method GetMany() returns (rows: seq<Trend>)
      ensures var all := Ordering.OrderBy(Matching(table, conditions), By(terms));
              rows == if limit.Some? then Slice(all, offset, limit.value) else all[Min(offset, |all|)..]
    {
      var all := Ordering.OrderBy(Matching(table, conditions), By(terms));
      rows := if limit.Some? then Slice(all, offset, limit.value) else all[Min(offset, |all|)..];
    }

    method GetCount() returns (count: nat)
      ensures count == |Matching(table, conditions)|
    {
      count := |Matching(table, conditions)|;
    }
  }

  // ---------------------------------------------------------------- The repository

  const DAY_MS := 24 * 60 * 60 * 1000

  function Conditions(source: string, isNew: bool, today: int): seq<Condition> {
    (if source != "ALL" then [SourceIs(source)] else [])
    + (if isNew then [MinedFrom(today), MinedBefore(today + DAY_MS)] else [])
  }

  function Terms(sort: SortOption): seq<Term> {
    var id := Term(Id, true, false);
    match sort
    case CreatedDesc => [Term(CreatedAt, true, false), id]
    case CreatedAsc => [Term(CreatedAt, false, true), id]
    case MinedDesc => [Term(MinedAt, true, false), Term(CreatedAt, true, false), id]
    case MinedAsc => [Term(MinedAt, false, true), Term(CreatedAt, false, true), id]
    case LikeDesc => [Term(LikeCount, true, true), Term(CreatedAt, true, false), id]
    case ViewDesc => [Term(ViewCount, true, true), Term(CreatedAt, true, false), id]
    case CommentDesc => [Term(CommentCount, true, true), Term(CreatedAt, true, false), id]
  }

  /** The whole list that the pages are cut from. */
  function Whole(table: seq<Trend>, source: string, isNew: bool, sort: SortOption, today: int): seq<Trend> {
    Ordering.OrderBy(Matching(table, Conditions(source, isNew, today)), By(Terms(sort)))
  }

  method ApplyListFilters(qb: SelectQueryBuilder, source: string, isNew: bool, today: int)
    modifies qb`conditions
    ensures qb.conditions == old(qb.conditions) + Conditions(source, isNew, today)
  {
    if source != "ALL" {
      qb.AndWhere(SourceIs(source));
    }
    if isNew {
      qb.AndWhere(MinedFrom(today));
      qb.AndWhere(MinedBefore(today + DAY_MS));
    }
  }

  method ListTrends(table: seq<Trend>, page: nat, limit: nat, source: string, isNew: bool, sort: SortOption, today: int)
    returns (rows: seq<Trend>)
    requires page >= 1
    ensures rows == Page(Whole(table, source, isNew, sort, today), page, limit)
  {
    var qb := new SelectQueryBuilder(table);
    ApplyListFilters(qb, source, isNew, today);
    match sort {
      case MinedDesc =>
        qb.OrderBy(MinedAt, true, false);
        qb.AddOrderBy(CreatedAt, true, false);
      case MinedAsc =>
        qb.OrderBy(MinedAt, false, true);
        qb.AddOrderBy(CreatedAt, false, true);
      case LikeDesc =>
        qb.OrderBy(LikeCount, true, true);
        qb.AddOrderBy(CreatedAt, true, false);
      case ViewDesc =>
        qb.OrderBy(ViewCount, true, true);
        qb.AddOrderBy(CreatedAt, true, false);
      case CommentDesc =>
        qb.OrderBy(CommentCount, true, true);
        qb.AddOrderBy(CreatedAt, true, false);
      case CreatedAsc =>
        qb.OrderBy(CreatedAt, false, true);
      case CreatedDesc =>
        qb.OrderBy(CreatedAt, true, false);
    }
    qb.AddOrderBy(Id, true, false);
    assert qb.terms == Terms(sort) && qb.conditions == Conditions(source, isNew, today);
    qb.SkipTake(Offset(page, limit), limit);
    rows := qb.GetMany();
  }

  method CountTrends(table: seq<Trend>, source: string, isNew: bool, today: int) returns (count: nat)
    ensures count == |Matching(table, Conditions(source, isNew, today))|
  {
    var qb := new SelectQueryBuilder(table);
    ApplyListFilters(qb, source, isNew, today);
    assert qb.conditions == Conditions(source, isNew, today);
    count := qb.GetCount();
  }

  // ---------------------------------------------------------------- The order is strict and total

  lemma {:induction false} LessIsStrict(terms: seq<Term>, a: Trend, b: Trend, c: Trend)
    ensures !Less(terms, a, a)
    ensures Less(terms, a, b) && Less(terms, b, c) ==> Less(terms, a, c)
    ensures Less(terms, a, b) ==> !Less(terms, b, a)
  {
    if terms != [] { LessIsStrict(terms[1..], a, b, c); }
  }

  lemma {:induction false} LessIsTotal(terms: seq<Term>, a: Trend, b: Trend)
    requires exists t :: t in terms && t.column == Id
    requires a.id != b.id
    ensures Less(terms, a, b) || Less(terms, b, a)
  {
    if terms[0].column != Id {
      assert forall t :: t in terms && t != terms[0] ==> t in terms[1..];
      LessIsTotal(terms[1..], a, b);
    }
  }

  ghost predicate UniqueIds(table: seq<Trend>) {
    forall i, j :: 0 <= i < j < |table| ==> table[i].id != table[j].id
  }

  lemma {:induction false} MatchingKeepsIds(table: seq<Trend>, conditions: seq<Condition>)
    requires UniqueIds(table)
    ensures UniqueIds(Matching(table, conditions))
    ensures forall t :: t in Matching(table, conditions) <==> t in table && MeetsAll(t, conditions)
  {
    FilterMembers(table, (t: Trend) => MeetsAll(t, conditions));
    if table != [] {
      var rest := table[1..];
      MatchingKeepsIds(rest, conditions);
      forall i | 0 <= i < |Matching(rest, conditions)| ensures Matching(rest, conditions)[i].id != table[0].id {
        assert Matching(rest, conditions)[i] in Matching(rest, conditions);
      }
    }
  }

  lemma SortTotal(rows: seq<Trend>, sort: SortOption)
    requires UniqueIds(rows)
    ensures NoDuplicates(rows) && TotalOrder(By(Terms(sort)), rows)
  {
    forall a, b, c | a in rows && b in rows && c in rows
      ensures !Less(Terms(sort), a, a)
      ensures Less(Terms(sort), a, b) && Less(Terms(sort), b, c) ==> Less(Terms(sort), a, c)
      ensures a != b ==> Less(Terms(sort), a, b) || Less(Terms(sort), b, a)
    {
      LessIsStrict(Terms(sort), a, b, c);
      if a != b {
        assert Term(Id, true, false) in Terms(sort);
        LessIsTotal(Terms(sort), a, b);
      }
    }
  }

  /**
   For every filter and sort option: the list holds exactly the matching rows, once each, in the one
   possible order; its length is what the separate count query returns; and the pages up to the
   totalPages computed from that count put together are the list.
   */
  lemma ListAndCountAgree(table: seq<Trend>, source: string, isNew: bool, sort: SortOption, today: int, limit: nat)
    requires UniqueIds(table) && limit >= 1
    ensures var whole := Whole(table, source, isNew, sort, today);
            var count := |Matching(table, Conditions(source, isNew, today))|;
            && (forall t :: t in whole <==> t in table && MeetsAll(t, Conditions(source, isNew, today)))
            && NoDuplicates(whole) && Sorted(By(Terms(sort)), whole)
            && count == |whole|
            && Pages(whole, limit, TotalPages(count, limit)) == whole
            && (forall other | Sorted(By(Terms(sort)), other) && SameElements(whole, other) :: other == whole)
  {
    var rows, less := Matching(table, Conditions(source, isNew, today)), By(Terms(sort));
    var whole := Whole(table, source, isNew, sort, today);
    MatchingKeepsIds(table, Conditions(source, isNew, today));
    SortTotal(rows, sort);
    OrderByIsSorted(rows, less);
    PagesPartition(whole, limit);
    forall i, j | 0 <= i < j < |whole| ensures whole[i] != whole[j] {
      assert less(whole[i], whole[j]) && whole[i] in rows;
    }
    forall other | Sorted(less, other) && SameElements(whole, other) ensures other == whole {
      SortedIsUnique(whole, other, less);
    }
  }

  /** What the filters mean. */
  lemma FilterMeaning(t: Trend, source: string, isNew: bool, today: int)
    ensures MeetsAll(t, Conditions(source, isNew, today))
            <==> (source == "ALL" || t.source == source) && (isNew ==> today <= t.minedAt < today + DAY_MS)
  {
    var conditions := Conditions(source, isNew, today);
    assert forall c :: c in conditions ==>
      (source != "ALL" && c == SourceIs(source)) || (isNew && (c == MinedFrom(today) || c == MinedBefore(today + DAY_MS)));
    if source != "ALL" { assert conditions[0] in conditions; }
    if isNew { assert MinedFrom(today) in conditions && MinedBefore(today + DAY_MS) in conditions; }
  }

  lemma ThreeTerms(t0: Term, t1: Term, t2: Term, a: Trend, b: Trend)
    ensures Less([t0, t1, t2], a, b)
            <==> TermLess(t0, a, b)
                 || (TermEqual(t0, a, b) && (TermLess(t1, a, b) || (TermEqual(t1, a, b) && TermLess(t2, a, b))))
  {
    assert [t0, t1, t2][1..] == [t1, t2] && [t1, t2][1..] == [t2] && [t2][1..] == [];
    assert Less([t2], a, b) == TermLess(t2, a, b);
    assert Less([t1, t2], a, b) == (TermLess(t1, a, b) || (TermEqual(t1, a, b) && TermLess(t2, a, b)));
  }

  /** The popularity column of the sort options that have one. */
  function Popularity(t: Trend, sort: SortOption): Option<int>
    requires sort.LikeDesc? || sort.ViewDesc? || sort.CommentDesc?
  {
    if sort.LikeDesc? then t.likeCount else if sort.ViewDesc? then t.viewCount else t.commentCount
  }

  /** By likes, views or comments: counts fall, articles without one come last, equal ones go by date, then by id. */
  lemma PopularityOrder(table: seq<Trend>, source: string, isNew: bool, sort: SortOption, today: int, i: nat, j: nat)
    requires UniqueIds(table) && (sort.LikeDesc? || sort.ViewDesc? || sort.CommentDesc?)
    requires i < j < |Whole(table, source, isNew, sort, today)|
    ensures var whole := Whole(table, source, isNew, sort, today);
            var a, b := whole[i], whole[j];
            var x, y := Popularity(a, sort), Popularity(b, sort);
            && (y.Some? ==> x.Some? && x.value >= y.value)
            && (x == y ==> a.createdAt > b.createdAt || (a.createdAt == b.createdAt && a.id > b.id))
  {
    var whole := Whole(table, source, isNew, sort, today);
    ListAndCountAgree(table, source, isNew, sort, today, 1);
    assert By(Terms(sort))(whole[i], whole[j]);
    PopularityLess(sort, whole[i], whole[j]);
  }

  lemma PopularityLess(sort: SortOption, a: Trend, b: Trend)
    requires (sort.LikeDesc? || sort.ViewDesc? || sort.CommentDesc?) && Less(Terms(sort), a, b)
    ensures var x, y := Popularity(a, sort), Popularity(b, sort);
            && (y.Some? ==> x.Some? && x.value >= y.value)
            && (x == y ==> a.createdAt > b.createdAt || (a.createdAt == b.createdAt && a.id > b.id))
  {
    var terms := Terms(sort);
    ThreeTerms(terms[0], terms[1], terms[2], a, b);
  }

  lemma TwoTerms(t0: Term, t1: Term, a: Trend, b: Trend)
    ensures Less([t0, t1], a, b) <==> TermLess(t0, a, b) || (TermEqual(t0, a, b) && TermLess(t1, a, b))
  {
    assert [t0, t1][1..] == [t1] && [t1][1..] == [];
    assert Less([t1], a, b) == TermLess(t1, a, b);
  }

  /** Whether instants x and y stand in the order of a list that falls, or rises. */
  predicate InOrder(falls: bool, x: int, y: int) {
    if falls then x > y else x < y
  }

  /** By creation date, newest or oldest first; equal dates by falling id. CreatedDesc is the default. */
  lemma CreationOrder(table: seq<Trend>, source: string, isNew: bool, sort: SortOption, today: int, i: nat, j: nat)
    requires UniqueIds(table) && (sort.CreatedDesc? || sort.CreatedAsc?)
    requires i < j < |Whole(table, source, isNew, sort, today)|
    ensures var whole := Whole(table, source, isNew, sort, today);
            var a, b := whole[i], whole[j];
            InOrder(sort.CreatedDesc?, a.createdAt, b.createdAt) || (a.createdAt == b.createdAt && a.id > b.id)
  {
    var whole := Whole(table, source, isNew, sort, today);
    ListAndCountAgree(table, source, isNew, sort, today, 1);
    assert By(Terms(sort))(whole[i], whole[j]);
    CreationLess(sort, whole[i], whole[j]);
  }

  lemma CreationLess(sort: SortOption, a: Trend, b: Trend)
    requires (sort.CreatedDesc? || sort.CreatedAsc?) && Less(Terms(sort), a, b)
    ensures InOrder(sort.CreatedDesc?, a.createdAt, b.createdAt) || (a.createdAt == b.createdAt && a.id > b.id)
  {
    TwoTerms(Terms(sort)[0], Terms(sort)[1], a, b);
  }

  /** By the time of mining and then by creation date, both newest or both oldest first; ties by falling id. */
  lemma MiningOrder(table: seq<Trend>, source: string, isNew: bool, sort: SortOption, today: int, i: nat, j: nat)
    requires UniqueIds(table) && (sort.MinedDesc? || sort.MinedAsc?)
    requires i < j < |Whole(table, source, isNew, sort, today)|
    ensures var whole := Whole(table, source, isNew, sort, today);
            MinedFirst(sort.MinedDesc?, whole[i], whole[j])
  {
    var whole := Whole(table, source, isNew, sort, today);
    ListAndCountAgree(table, source, isNew, sort, today, 1);
    assert By(Terms(sort))(whole[i], whole[j]);
    MiningLess(sort, whole[i], whole[j]);
  }

  predicate MinedFirst(falls: bool, a: Trend, b: Trend) {
    || InOrder(falls, a.minedAt, b.minedAt)
    || (a.minedAt == b.minedAt && InOrder(falls, a.createdAt, b.createdAt))
    || (a.minedAt == b.minedAt && a.createdAt == b.createdAt && a.id > b.id)
  }

  lemma MiningLess(sort: SortOption, a: Trend, b: Trend)
    requires (sort.MinedDesc? || sort.MinedAsc?) && Less(Terms(sort), a, b)
    ensures MinedFirst(sort.MinedDesc?, a, b)
  {
    ThreeTerms(Terms(sort)[0], Terms(sort)[1], Terms(sort)[2], a, b);
  }
}
