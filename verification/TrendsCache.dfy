/**
 The article cache: which Redis key and which time to live every cached value gets. All values share
 one Redis, so the keys of different values must differ.
 */
module TrendsCache {
  import opened Wrappers
  import opened RedisStore
  import opened Decimals

  const SOURCES_TTL_DEFAULT_SECONDS := 86400
  const DETAIL_TTL_DEFAULT_SECONDS := 900
  const RELATED_TTL_DEFAULT_SECONDS := 300
  const LIST_COUNT_TTL_SECONDS := 180

  datatype CacheItem = Sources | DetailOf(id: int) | RelatedTo(id: int, limit: int) | CountOf(source: string, isNew: bool)

  function Bool(b: bool): string {
    if b then "true" else "false"
  }

  /** trends:sources, trends:detail:id, trends:related:id:limit:n, trends:count:source:flag */
  function KeyOf(item: CacheItem): string {
    match item
    case Sources => "trends:sources"
    case DetailOf(id) => "trends:detail:" + Integer(id)
    case RelatedTo(id, limit) => "trends:related:" + Integer(id) + ":limit:" + Integer(limit)
    case CountOf(source, isNew) => "trends:count:" + source + ":" + Bool(isNew)
  }

  /** The character after "trends:" already tells the four kinds apart. */
  lemma KindShows(item: CacheItem)
    ensures |KeyOf(item)| > 7
    ensures KeyOf(item)[7] == match item
                              case Sources => 's' case DetailOf(_) => 'd' case RelatedTo(_, _) => 'r' case CountOf(_, _) => 'c'
  {
  }

  lemma SplitAtColon(a: string, b: string, rest: string, rest': string)
    requires ':' !in a && ':' !in b
    requires a + [':'] + rest == b + [':'] + rest'
    ensures a == b && rest == rest'
  {
    var whole := a + [':'] + rest;
    assert whole[|a|] == ':' && whole[|b|] == ':';
    assert forall i :: 0 <= i < |a| ==> whole[i] != ':';
    assert forall i :: 0 <= i < |b| ==> whole[i] != ':';
    assert whole[..|a|] == a && (b + [':'] + rest')[..|b|] == b;
    assert whole[|a| + 1..] == rest && (b + [':'] + rest')[|b| + 1..] == rest';
  }

  lemma SamePrefix(prefix: string, a: string, b: string)
    requires prefix + a == prefix + b
    ensures a == b
  {
    assert (prefix + a)[|prefix|..] == a && (prefix + b)[|prefix|..] == b;
  }

  lemma TwoParts(prefix: string, middle: string, a: string, b: string, a': string, b': string)
    requires ':' !in a && ':' !in a' && middle != [] && middle[0] == ':'
    requires prefix + a + middle + b == prefix + a' + middle + b'
    ensures a == a' && b == b'
  {
    var rest, rest' := middle[1..] + b, middle[1..] + b';
    assert prefix + a + middle + b == prefix + (a + [':'] + rest);
    assert prefix + a' + middle + b' == prefix + (a' + [':'] + rest');
    SamePrefix(prefix, a + [':'] + rest, a' + [':'] + rest');
    SplitAtColon(a, a', rest, rest');
    SamePrefix(middle[1..], b, b');
  }

  lemma RelatedKeyInjective(id: int, limit: int, id': int, limit': int)
    requires KeyOf(RelatedTo(id, limit)) == KeyOf(RelatedTo(id', limit'))
    ensures id == id' && limit == limit'
  {
    IntegerIsInjective(id, id');
    IntegerIsInjective(id', id);
    IntegerIsInjective(limit, limit');
    TwoParts("trends:related:", ":limit:", Integer(id), Integer(limit), Integer(id'), Integer(limit'));
  }

  lemma CountKeyInjective(source: string, isNew: bool, source': string, isNew': bool)
    requires KeyOf(CountOf(source, isNew)) == KeyOf(CountOf(source', isNew'))
    ensures source == source' && isNew == isNew'
  {
    var key, key' := KeyOf(CountOf(source, isNew)), KeyOf(CountOf(source', isNew'));
    assert Bool(isNew)[|Bool(isNew)| - 2] == if isNew then 'u' else 's';
    assert Bool(isNew')[|Bool(isNew')| - 2] == if isNew' then 'u' else 's';
    assert key[|key| - 2] == Bool(isNew)[|Bool(isNew)| - 2] && key'[|key'| - 2] == Bool(isNew')[|Bool(isNew')| - 2];
    assert key == "trends:count:" + (source + ":" + Bool(isNew));
    assert key' == "trends:count:" + (source' + ":" + Bool(isNew'));
    SamePrefix("trends:count:", source + ":" + Bool(isNew), source' + ":" + Bool(isNew'));
    assert (source + ":" + Bool(isNew))[..|source|] == source;
    assert (source' + ":" + Bool(isNew'))[..|source'|] == source';
  }

  /** No two values share a key, whatever the ids, limits and source names, even a source with colons in it. */
  lemma KeysAreInjective(item: CacheItem, other: CacheItem)
    requires KeyOf(item) == KeyOf(other)
    ensures item == other
  {
    KindShows(item);
    KindShows(other);
    match item
    case Sources =>
    case DetailOf(id) =>
      SamePrefix("trends:detail:", Integer(id), Integer(other.id));
      IntegerIsInjective(id, other.id);
    case RelatedTo(id, limit) =>
      RelatedKeyInjective(id, limit, other.id, other.limit);
    case CountOf(source, isNew) =>
      CountKeyInjective(source, isNew, other.source, other.isNew);
  }

  /** Number(value) || fallback: an unset, non-numeric or zero setting falls back. */
  function Setting(value: Option<int>, fallback: int): (seconds: int)
    ensures value.Some? && value.value != 0 ==> seconds == value.value
    ensures value == None || value == Some(0) ==> seconds == fallback
  {
    if value.Some? && value.value != 0 then value.value else fallback
  }

  class TrendsCacheService<V(==)> {
    const redis: Redis<string, V>
    const sourcesTtlSeconds: int
    const detailTtlSeconds: int
    const relatedTtlSeconds: int

    constructor (redis: Redis<string, V>, sources: Option<int>, detail: Option<int>, related: Option<int>)
      ensures this.redis == redis
      ensures sourcesTtlSeconds == Setting(sources, SOURCES_TTL_DEFAULT_SECONDS)
      ensures detailTtlSeconds == Setting(detail, DETAIL_TTL_DEFAULT_SECONDS)
      ensures relatedTtlSeconds == Setting(related, RELATED_TTL_DEFAULT_SECONDS)
    {
      this.redis := redis;
      sourcesTtlSeconds := Setting(sources, SOURCES_TTL_DEFAULT_SECONDS);
      detailTtlSeconds := Setting(detail, DETAIL_TTL_DEFAULT_SECONDS);
      relatedTtlSeconds := Setting(related, RELATED_TTL_DEFAULT_SECONDS);
    }

    function TtlOf(item: CacheItem): int {
      match item
      case Sources => sourcesTtlSeconds
      case DetailOf(_) => detailTtlSeconds
      case RelatedTo(_, _) => relatedTtlSeconds
      case CountOf(_, _) => LIST_COUNT_TTL_SECONDS
    }

    /** Without settings: a day for the source list, 15 minutes for a detail, 5 for a related list, 3 for a count. */
    lemma DefaultTimesToLive(id: int, limit: int, source: string, isNew: bool)
      requires sourcesTtlSeconds == Setting(None, SOURCES_TTL_DEFAULT_SECONDS)
      requires detailTtlSeconds == Setting(None, DETAIL_TTL_DEFAULT_SECONDS)
      requires relatedTtlSeconds == Setting(None, RELATED_TTL_DEFAULT_SECONDS)
      ensures TtlOf(Sources) == 24 * 60 * 60 && TtlOf(DetailOf(id)) == 15 * 60
      ensures TtlOf(RelatedTo(id, limit)) == 5 * 60 && TtlOf(CountOf(source, isNew)) == 3 * 60
    {
    }

    /** What the cache answers for an item at an instant. */
    function Cached(item: CacheItem, now: int): Option<V>
      reads redis
    {
      Lookup(redis.db, now, KeyOf(item))
    }

    method Get(item: CacheItem) returns (value: Option<V>)
      ensures value == Cached(item, redis.now)
    {
      value := redis.GetCache(KeyOf(item));
    }

    /** Readable from now on for exactly its time to live; every other item is left as it was. */
    method Set(item: CacheItem, value: V)
      modifies redis`db
      ensures forall later :: Cached(item, later)
                == if TtlOf(item) <= 0 || later < redis.now + 1000 * TtlOf(item) then Some(value) else None
      ensures forall other, at :: other != item ==> Cached(other, at) == old(Cached(other, at))
    {
      redis.SetCacheValue(KeyOf(item), value, TtlOf(item));
      forall other, at | other != item ensures Cached(other, at) == old(Cached(other, at)) {
        if KeyOf(other) == KeyOf(item) { KeysAreInjective(other, item); }
      }
    }

    /** Forgets the source list and nothing else. */
    method InvalidateSources()
      modifies redis`db
      ensures forall at :: Cached(Sources, at) == None
      ensures forall other, at :: other != Sources ==> Cached(other, at) == old(Cached(other, at))
    {
      redis.DelCache(KeyOf(Sources));
      forall other, at | other != Sources ensures Cached(other, at) == old(Cached(other, at)) {
        if KeyOf(other) == KeyOf(Sources) { KeysAreInjective(other, Sources); }
      }
    }
  }
}
