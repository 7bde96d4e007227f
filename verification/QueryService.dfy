/**
 The query service's own mutable state, updated in place: three maps of pending loads, the calls
 and loads in flight, and the cache writes it has started and not awaited. Each method is what the
 service does between two awaits, and is proved to be exactly that step of the coalescing model.
 */
module QueryService {
  import opened Wrappers
  import opened RedisStore
  import opened Coalescing

  type CountKey = (string, bool)
  type RelatedKey = (int, int)

  class TrendsQueryService {
    var listCountLoads: map<CountKey, nat>
    var detailLoads: map<int, nat>
    var relatedLoads: map<RelatedKey, nat>
    var tasks: seq<Task>
    var writes: seq<(Key, Value)>

    ghost var pending: map<Key, nat>

    constructor ()
      ensures Valid() && tasks == [] && writes == [] && pending == map[]
    {
      listCountLoads, detailLoads, relatedLoads := map[], map[], map[];
      tasks, writes, pending := [], [], map[];
    }

    /** What the three maps hold under a key. */
    function Pending(key: Key): (load: Option<nat>)
      reads this`listCountLoads, this`detailLoads, this`relatedLoads
    {
      match key
      case Count(source, isNew) =>
        if (source, isNew) in listCountLoads then Some(listCountLoads[(source, isNew)]) else None
      case Detail(id) => if id in detailLoads then Some(detailLoads[id]) else None
      case Related(id, limit) => if (id, limit) in relatedLoads then Some(relatedLoads[(id, limit)]) else None
    }

    /** The three maps read as one, keyed by the kind of load as well, are `pending`. */
    ghost predicate Valid()
      reads this
    {
      forall key :: Pending(key) == if key in pending then Some(pending[key]) else None
    }

    /** The model's state: what the service holds, and the clock, cache and history of `world`. */
    ghost function View(world: State): State
      reads this
    {
      world.(tasks := tasks, writes := writes, loads := pending)
    }

    method Register(key: Key, load: nat)
      requires Valid()
      modifies this`listCountLoads, this`detailLoads, this`relatedLoads, this`pending
      ensures Valid() && pending == old(pending)[key := load]
    {
      match key {
        case Count(source, isNew) => listCountLoads := listCountLoads[(source, isNew) := load];
        case Detail(id) => detailLoads := detailLoads[id := load];
        case Related(id, limit) => relatedLoads := relatedLoads[(id, limit) := load];
      }
      pending := pending[key := load];
      assert forall k :: Pending(k) == if k == key then Some(load) else old(Pending(k));
    }

    method Unregister(key: Key)
      requires Valid()
      modifies this`listCountLoads, this`detailLoads, this`relatedLoads, this`pending
      ensures Valid() && pending == old(pending) - {key}
    {
      match key {
        case Count(source, isNew) => listCountLoads := listCountLoads - {(source, isNew)};
        case Detail(id) => detailLoads := detailLoads - {id};
        case Related(id, limit) => relatedLoads := relatedLoads - {(id, limit)};
      }
      pending := pending - {key};
      assert forall k :: Pending(k) == if k == key then None else old(Pending(k));
    }

    /** A request enters: its cache lookup starts. */
    method Enter(key: Key, ghost world: State)
      requires Valid()
      modifies this`tasks
      ensures Valid() && View(world) == Step(old(View(world)), Arrive(key))
    {
      tasks := tasks + [Call(key, Reading)];
    }

    /** After the cache lookup: answer, join a pending load, or start one and register it. */
    method AfterLookup(t: nat, ghost world: State)
      requires Valid()
      requires t < |tasks| && tasks[t].Call? && tasks[t].stage.Read?
      modifies this
      ensures Valid() && View(world) == Step(old(View(world)), Resume(t))
    {
      var key := tasks[t].key;
      match tasks[t].stage.cached {
        case Some(served) =>
          tasks := tasks[t := Call(key, Answered(Ok(served), None))];
        case None =>
          match Pending(key) {
            case Some(load) =>
              tasks := tasks[t := Call(key, Joined(load))];
            case None =>
              var load := |tasks|;
              tasks := tasks[t := Call(key, Joined(load))];
              if key.Related? {
                tasks := tasks + [Load(key, t, AwaitingDetail(load + 1)), Call(Detail(key.id), Reading)];
              } else {
                tasks := tasks + [Load(key, t, Querying)];
              }
              Register(key, load);
          }
      }
    }

    /** After an awaited load has settled: take its outcome; the owner of a count also writes the cache and cleans up. */
    method AfterLoad(t: nat, ghost world: State)
      requires Valid()
      requires t < |tasks| && tasks[t].Call? && tasks[t].stage.Joined?
      requires var load := tasks[t].stage.load; load < |tasks| && tasks[load].Load? && tasks[load].step.Settled?
      modifies this
      ensures Valid() && View(world) == Step(old(View(world)), Resume(t))
    {
      var key, load := tasks[t].key, tasks[t].stage.load;
      var result := tasks[load].step.result;
      tasks := tasks[t := Call(key, Answered(if result.DbError? && !key.Count? then Internal else result, Some(load)))];
      if key.Count? && tasks[load].owner == t {
        if result.Ok? { writes := writes + [(key, result.served.value)]; }
        Unregister(key);
      }
    }

    /** A detail or related load has its result: start the cache write, and in any case drop the map entry. */
    method Conclude(t: nat, result: Outcome, ghost world: State)
      requires Valid()
      requires t < |tasks| && tasks[t].Load?
      modifies this
      ensures Valid() && View(world) == Settle(old(View(world)), t, result)
    {
      var key := tasks[t].key;
      tasks := tasks[t := Load(key, tasks[t].owner, Settled(result))];
      if result.Ok? { writes := writes + [(key, result.served.value)]; }
      Unregister(key);
    }

    /** loadDetail goes on with the row, the missing row or the error that the database returned. */
    method AfterDetailQuery(t: nat, ghost world: State)
      requires Valid()
      requires t < |tasks| && tasks[t].Load? && tasks[t].key.Detail? && tasks[t].step.Queried?
      modifies this
      ensures Valid() && View(world) == Step(old(View(world)), Resume(t))
    {
      var at := tasks[t].step.at;
      match tasks[t].step.answer {
        case Row(embedding) =>
          Conclude(t, Ok(Served(Doc(Article(tasks[t].key.id, embedding, at)), None, at)), world);
        case Missing => Conclude(t, NotFound, world);
        case _ => Conclude(t, DbError, world);
      }
    }

    /** loadRelated goes on after its nested detail call: fail alike, answer nothing, or rank by the embedding. */
    method AfterNestedDetail(t: nat, now: int, ghost world: State)
      requires Valid()
      requires t < |tasks| && tasks[t].Load? && tasks[t].step.AwaitingDetail?
      requires world.now == now
      requires var call := tasks[t].step.call; call < |tasks| && tasks[call].Call? && tasks[call].stage.Answered?
      modifies this
      ensures Valid() && View(world) == Step(old(View(world)), Resume(t))
    {
      var key := tasks[t].key;
      match tasks[tasks[t].step.call].stage.outcome {
        case Ok(served) =>
          if served.value.Doc? && served.value.article.embedding != [] {
            tasks := tasks[t := Load(key, tasks[t].owner, Ranking(served, now))];
          } else {
            Conclude(t, Ok(Served(List([], served, now), None, now)), world);
          }
        case failure =>
          Conclude(t, failure, world);
      }
    }

    /** loadRelated goes on with the rows, or the error, of the ranking query. */
    method AfterRanking(t: nat, ghost world: State)
      requires Valid()
      requires t < |tasks| && tasks[t].Load? && tasks[t].step.Ranked?
      modifies this
      ensures Valid() && View(world) == Step(old(View(world)), Resume(t))
    {
      var article, usedAt, at := tasks[t].step.article, tasks[t].step.usedAt, tasks[t].step.at;
      match tasks[t].step.answer {
        case Rows(rows) => Conclude(t, Ok(Served(List(rows, article, usedAt), None, at)), world);
        case _ => Conclude(t, DbError, world);
      }
    }
  }
}
