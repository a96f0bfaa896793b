/**
 * The channel cache of lib/create-channel-cache.js: `getChannel(id)` answers
 * from memory when it holds a truthy entry for the id, otherwise queries the
 * store over the bus, keeps the answer under the answer's own id and starts
 * a timer that deletes that key later. Time and the store are parameters;
 * timers are explicit and fire in `Tick`.
 */
module ChannelCache {
  import opened Wrappers
  import opened JsValue
  import opened Outcomes

  const TtlInSeconds: nat := 300

  /** The eviction delay as the source schedules it, `TTL_IN_SECONDS * 100`
      milliseconds. */
  const DelayAsWritten: nat := TtlInSeconds * 100

  /** The delay that makes the time to live the 300 seconds the constant
      names. */
  const Delay: nat := TtlInSeconds * 1000

  /** The query pattern sent to the store. */
  const StorePattern: Value := Obj(map["role" := Str("store"), "cmd" := Str("get"), "type" := Str("channel")])

  /** A pending `setTimeout` that deletes `key` at time `deadline` (ms). */
  datatype Timer = Timer(deadline: int, key: string)

  /** The `channels` object and the timers still to fire. */
  datatype Cache = Cache(entries: map<string, Value>, timers: seq<Timer>)

  /** What one `getChannel` call did: the cache afterwards, the payloads of
      the store queries it sent (none or one), and how it settled. */
  datatype Step = Step(cache: Cache, queries: seq<Value>, outcome: Settled<Value>)

  function TimerKeys(timers: seq<Timer>): set<string>
  {
    set t | t in timers :: t.key
  }

  /** Every entry will be deleted by some timer. */
  predicate Valid(c: Cache)
  {
    c.entries.Keys <= TimerKeys(c.timers)
  }

  /** A fresh cache. */
  function Empty(): (c: Cache)
    ensures Valid(c) && c.entries == map[]
  {
    Cache(map[], [])
  }

  /** `channels[id]` when it is truthy. */
  function Lookup(c: Cache, id: Value): (r: Option<Value>)
    ensures r.Some? <==> ToString(id) in c.entries && Truthy(c.entries[ToString(id)])
    ensures r.Some? ==> r.value == c.entries[ToString(id)]
  {
    var key := ToString(id);
    if key in c.entries && Truthy(c.entries[key]) then Some(c.entries[key]) else None
  }

  /** Reading after remembering: the remembered channel is served under its
      own id (when truthy), and every other id reads as before. */
  lemma LookupRemember(c: Cache, channel: Value, now: int, delay: nat, id: Value)
    requires Valid(c)
    ensures var key := ToString(Get(channel, "id"));
            Lookup(Remember(c, channel, now, delay), id)
            == if ToString(id) != key then Lookup(c, id) else if Truthy(channel) then Some(channel) else None
  {
  }

  /** Eviction only removes: what a tick leaves is served as before. */
  lemma LookupAfterTick(c: Cache, now: int, id: Value)
    ensures Lookup(Tick(c, now), id).Some? ==> Lookup(Tick(c, now), id) == Lookup(c, id)
    ensures Lookup(c, id).None? ==> Lookup(Tick(c, now), id).None?
  {
  }

  /** `channels[channel.id] = channel` and a timer for that key. */
  function Remember(c: Cache, channel: Value, now: int, delay: nat): (r: Cache)
    requires Valid(c)
    ensures Valid(r)
    ensures r.entries == c.entries[ToString(Get(channel, "id")) := channel]
    ensures r.timers == c.timers + [Timer(now + delay, ToString(Get(channel, "id")))]
  {
    var key := ToString(Get(channel, "id"));
    var r := Cache(c.entries[key := channel], c.timers + [Timer(now + delay, key)]);
    assert Timer(now + delay, key) in r.timers;
    assert forall t :: t in c.timers ==> t in r.timers;
    r
  }

  /** `getChannel(id)` at time `now` with eviction after `delay`. A query
      that throws or rejects, or that resolves with a value whose `id`
      cannot be read, leaves the cache as it was. */
  function GetWithDelay(c: Cache, id: Value, now: int, delay: nat, store: Value -> Settled<Value>): (r: Step)
    requires Valid(c)
    ensures Valid(r.cache)
    ensures Lookup(c, id).Some? ==> r == Step(c, [], Resolved(Lookup(c, id).value))
    ensures Lookup(c, id).None? ==> r.queries == [Obj(map["id" := id])]
    ensures !r.outcome.Resolved? ==> r.cache == c
    ensures r.outcome.Resolved? && Lookup(c, id).None? ==>
              && store(Obj(map["id" := id])) == r.outcome
              && r.cache == Remember(c, r.outcome.value, now, delay)
  {
    match Lookup(c, id)
    case Some(channel) => Step(c, [], Resolved(channel))
    case None =>
      var payload := Obj(map["id" := id]);
      match store(payload)
      case Threw(e) => Step(c, [payload], Threw(e))
      case Rejected(e) => Step(c, [payload], Rejected(e))
      case Resolved(channel) =>
        if !Dereferenceable(channel) then Step(c, [payload], Rejected(TypeError))
        else Step(Remember(c, channel, now, delay), [payload], Resolved(channel))
  }

  /** `getChannel(id)` as written: a hit changes nothing, a failure caches
      nothing, and a fetched channel's deletion is due `TTL_IN_SECONDS * 100`
      milliseconds after the fetch. */
  function GetChannel(c: Cache, id: Value, now: int, store: Value -> Settled<Value>): (r: Step)
    requires Valid(c)
    ensures Valid(r.cache)
    ensures Lookup(c, id).Some? ==> r == Step(c, [], Resolved(Lookup(c, id).value))
    ensures !r.outcome.Resolved? ==> r.cache == c
    ensures r.outcome.Resolved? && Lookup(c, id).None? ==>
              r.cache.timers == c.timers + [Timer(now + TtlInSeconds * 100, ToString(Get(r.outcome.value, "id")))]
  {
    GetWithDelay(c, id, now, DelayAsWritten, store)
  }

  /** `getChannel(id)` with the 300-second time to live its constant names:
      the same, except that the deletion is due 300 seconds after the
      fetch. */
  function GetChannelIntended(c: Cache, id: Value, now: int, store: Value -> Settled<Value>): (r: Step)
    requires Valid(c)
    ensures Valid(r.cache)
    ensures Lookup(c, id).Some? ==> r == Step(c, [], Resolved(Lookup(c, id).value))
    ensures !r.outcome.Resolved? ==> r.cache == c
    ensures r.outcome.Resolved? && Lookup(c, id).None? ==>
              r.cache.timers == c.timers + [Timer(now + TtlInSeconds * 1000, ToString(Get(r.outcome.value, "id")))]
  {
    GetWithDelay(c, id, now, Delay, store)
  }

  /** The timers not yet due at `now`, in order. */
  function Pending(timers: seq<Timer>, now: int): (r: seq<Timer>)
    ensures forall t :: t in r <==> t in timers && t.deadline > now
    ensures |r| <= |timers|
  {
    if |timers| == 0 then []
    else (if timers[0].deadline > now then [timers[0]] else []) + Pending(timers[1..], now)
  }

  /** The keys some due timer deletes. */
  function DueKeys(timers: seq<Timer>, now: int): set<string>
  {
    set t | t in timers && t.deadline <= now :: t.key
  }

  /** Time advances to `now`: every due timer fires and deletes its key
      (whatever entry is stored there then), and is dropped. */
  function Tick(c: Cache, now: int): (r: Cache)
    ensures r.timers == Pending(c.timers, now)
    ensures r.entries.Keys == c.entries.Keys - DueKeys(c.timers, now)
    ensures forall k :: k in r.entries ==> r.entries[k] == c.entries[k]
  {
    var due := DueKeys(c.timers, now);
    Cache(map k | k in c.entries && k !in due :: c.entries[k], Pending(c.timers, now))
  }

  // -------------------------------------------------------------- properties

  /** Firing timers keeps every remaining entry covered by a timer. */
  lemma TickValid(c: Cache, now: int)
    requires Valid(c)
    ensures Valid(Tick(c, now))
  {
    var r := Tick(c, now);
    forall k | k in r.entries
      ensures k in TimerKeys(r.timers)
    {
      var t :| t in c.timers && t.key == k;
      assert t in r.timers;
    }
  }

  /** A key is deleted by `Tick` exactly when one of its timers is due; the
      other entries keep their values. */
  lemma TickEvicts(c: Cache, now: int, k: string)
    requires k in c.entries
    ensures k !in Tick(c, now).entries <==> exists t :: t in c.timers && t.key == k && t.deadline <= now
  {
    if k !in Tick(c, now).entries {
      assert k in DueKeys(c.timers, now);
      var t :| t in c.timers && t.deadline <= now && t.key == k;
    }
  }

  /** A truthy entry answers without a query and without changing the
      cache. */
  lemma HitIsLocal(c: Cache, id: Value, now: int, store: Value -> Settled<Value>)
    requires Valid(c) && ToString(id) in c.entries && Truthy(c.entries[ToString(id)])
    ensures GetChannel(c, id, now, store) == Step(c, [], Resolved(c.entries[ToString(id)]))
  {
  }

  /** A fetched channel is kept under its own `id`: asking again for that id
      before any timer fires answers from memory. */
  lemma FetchThenHit(c: Cache, id: Value, now: int, later: int, store: Value -> Settled<Value>, again: Value -> Settled<Value>)
    requires Valid(c) && Lookup(c, id).None?
    requires store(Obj(map["id" := id])).Resolved?
    requires var channel := store(Obj(map["id" := id])).value;
             Truthy(channel) && ToString(Get(channel, "id")) == ToString(id)
    ensures var first := GetChannel(c, id, now, store);
            && first.queries == [Obj(map["id" := id])]
            && GetChannel(first.cache, id, later, again) == Step(first.cache, [], first.outcome)
  {
  }

  /** A channel is stored under the id it reports, which need not be the id
      asked for. */
  lemma StoredUnderOwnId(c: Cache, id: Value, now: int, store: Value -> Settled<Value>)
    requires Valid(c) && Lookup(c, id).None?
    requires store(Obj(map["id" := id])).Resolved? && Dereferenceable(store(Obj(map["id" := id])).value)
    ensures var channel := store(Obj(map["id" := id])).value;
            var r := GetChannel(c, id, now, store);
            && r.outcome == Resolved(channel)
            && r.cache.entries == c.entries[ToString(Get(channel, "id")) := channel]
  {
  }

  /** A failed query caches nothing. */
  lemma FailureCachesNothing(c: Cache, id: Value, now: int, store: Value -> Settled<Value>)
    requires Valid(c) && Lookup(c, id).None?
    requires !store(Obj(map["id" := id])).Resolved?
    ensures var r := GetChannel(c, id, now, store);
            r.cache == c && r.outcome == store(Obj(map["id" := id]))
  {
  }

  /** A channel fetched at `now` with eviction after `delay` is still
      served at every tick before `now + delay` (when no older timer for its
      key is pending), and is gone from the tick at that time on. */
  lemma Lifetime(c: Cache, id: Value, now: int, delay: nat, t: int, store: Value -> Settled<Value>)
    requires Valid(c) && Lookup(c, id).None?
    requires store(Obj(map["id" := id])).Resolved? && Dereferenceable(store(Obj(map["id" := id])).value)
    requires var key := ToString(Get(store(Obj(map["id" := id])).value, "id"));
             forall prior :: prior in c.timers ==> prior.key != key
    ensures var channel := store(Obj(map["id" := id])).value;
            var key := ToString(Get(channel, "id"));
            var after := Tick(GetWithDelay(c, id, now, delay, store).cache, t);
            && (t < now + delay ==> key in after.entries && after.entries[key] == channel)
            && (t >= now + delay ==> key !in after.entries)
  {
    var channel := store(Obj(map["id" := id])).value;
    var key := ToString(Get(channel, "id"));
    var cache := GetWithDelay(c, id, now, delay, store).cache;
    var timer := Timer(now + delay, key);
    assert timer in cache.timers;
    TickEvicts(cache, t, key);
    if t < now + delay {
      forall prior | prior in cache.timers && prior.key == key
        ensures prior.deadline > t
      {
        assert prior == timer || prior in c.timers;
      }
    }
  }

  /** With the intended 300-second time to live, a fetched channel is
      served at every tick before `now + 300000` ms and gone from then on. */
  lemma ServedForTtl(c: Cache, id: Value, now: int, t: int, store: Value -> Settled<Value>)
    requires Valid(c) && Lookup(c, id).None?
    requires store(Obj(map["id" := id])).Resolved? && Dereferenceable(store(Obj(map["id" := id])).value)
    requires var key := ToString(Get(store(Obj(map["id" := id])).value, "id"));
             forall prior :: prior in c.timers ==> prior.key != key
    ensures var channel := store(Obj(map["id" := id])).value;
            var key := ToString(Get(channel, "id"));
            var after := Tick(GetChannelIntended(c, id, now, store).cache, t);
            && (t < now + TtlInSeconds * 1000 ==> key in after.entries && after.entries[key] == channel)
            && (t >= now + TtlInSeconds * 1000 ==> key !in after.entries)
  {
    Lifetime(c, id, now, Delay, t, store);
  }

  /** As written, a fetched channel is served only until 30 seconds after
      the fetch and is gone from then on, long before the 300 seconds its
      time to live names. */
  lemma EvictedAfterThirtySeconds(c: Cache, id: Value, now: int, t: int, store: Value -> Settled<Value>)
    requires Valid(c) && Lookup(c, id).None?
    requires store(Obj(map["id" := id])).Resolved? && Dereferenceable(store(Obj(map["id" := id])).value)
    requires var key := ToString(Get(store(Obj(map["id" := id])).value, "id"));
             forall prior :: prior in c.timers ==> prior.key != key
    ensures var channel := store(Obj(map["id" := id])).value;
            var key := ToString(Get(channel, "id"));
            var after := Tick(GetChannel(c, id, now, store).cache, t);
            && (t < now + 30000 ==> key in after.entries && after.entries[key] == channel)
            && (t >= now + 30000 ==> key !in after.entries)
            && now + 30000 < now + TtlInSeconds * 1000
  {
    Lifetime(c, id, now, DelayAsWritten, t, store);
  }
}
