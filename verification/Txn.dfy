/** Transactions: a write buffer over the cluster, flushed in batches, and the bookkeeping of
    the intents left to resolve. */
module Txn {
  import opened Keys
  import opened Wrappers
  import opened RangeCache
  import opened Cluster
  import opened NodeRequest
  import opened Batches
  import opened TxnLog

  datatype Status = Pending | Committed | Aborted

  /** The walk of the buffer has met the first n keys. */
  ghost predicate Collected(w: World, now: nat, kv: Buffer, ks: seq<Key>, n: nat, breqs: map<int, Batch>,
                            items: seq<Item>, route: seq<int>)
  {
    && n <= |ks| && KeysOf(items) == ks[..n] && (forall j :: 0 <= j < |items| ==> FromBuffer(kv, items[j]))
    && Routed(w, items, route, now) && Grouped(breqs, items, route)
  }

  lemma CollectedNothing(w: World, now: nat, kv: Buffer, ks: seq<Key>)
    ensures Collected(w, now, kv, ks, 0, map[], [], [])
  {
  }

  lemma CollectedMore(w: World, now: nat, later: nat, kv: Buffer, ks: seq<Key>, n: nat, breqs: map<int, Batch>,
                      items: seq<Item>, route: seq<int>, x: Item, d: RangeDescriptor)
    requires Collected(w, now, kv, ks, n, breqs, items, route) && FromBuffer(kv, x) && n < |ks| && x.key == ks[n]
    requires now <= later && Fetched(w, d, later) && Contains(d, x.key)
    ensures Collected(w, later, kv, ks, n + 1, AddRequest(breqs, x, d.rangeID), items + [x], route + [d.rangeID])
  {
    RoutedMore(w, items, route, now, later, x, d);
    AddRequestGroups(breqs, items, route, x, d.rangeID);
    hide AddRequest, Grouped, Routed, Contains, Fetched;
    KeysOfMore(items, x);
    PrefixGrows(ks, n);
  }

  lemma CollectedAll(w: World, now: nat, kv: Buffer, ks: seq<Key>, breqs: map<int, Batch>, items: seq<Item>, route: seq<int>)
    requires Collected(w, now, kv, ks, |ks|, breqs, items, route) && Ascending(ks) && Lists(ks, kv.Keys)
    ensures ItemsOf(kv, items) && Routed(w, items, route, now) && Grouped(breqs, items, route)
  {
    WholePrefix(ks);
  }

  lemma RoutedIsHeld(w: World, k: Key, r: int, now: nat)
    requires Laid(w) && InSpace(k) && RoutedTo(w, k, r, now)
    ensures HeldBy(w, k, r)
  {
    var d :| Fetched(w, d, now) && Contains(d, k) && d.rangeID == r;
    var t: nat, x :| t <= now && InSpace(x) && d == w.locate(t, x);
    assert Partition(w, t, x, k);
    assert w.locate(t, k).rangeID == r;
  }

  lemma GroupIsHeld(w: World, now: nat, breqs: map<int, Batch>, items: seq<Item>, route: seq<int>, r: int)
    requires Laid(w) && Routed(w, items, route, now) && Grouped(breqs, items, route) && r in breqs
    requires forall i :: 0 <= i < |items| ==> InSpace(items[i].key)
    ensures AllHeld(w, breqs[r].items, r)
  {
    hide Select, Laid, RoutedTo, InSpace, HeldBy;
    forall j | 0 <= j < |breqs[r].items| ensures HeldBy(w, breqs[r].items[j].key, r) {
      SelectHolds(items, route, r, breqs[r].items[j]);
      var i :| 0 <= i < |items| && items[i] == breqs[r].items[j] && route[i] == r;
      RoutedIsHeld(w, items[i].key, r, now);
    }
  }

  /** What a successful flush achieved: the entries met in key order, each routed to a range
      of its key, and each range acknowledged exactly its entries in that order. */
  ghost predicate Delivered(w: World, now: nat, kv: Buffer, events: seq<Event>, items: seq<Item>, route: seq<int>) {
    && ItemsOf(kv, items) && Routed(w, items, route, now)
    && forall r :: Acked(events, r) == Select(items, route, r)
  }

  lemma AllAckedIsDelivered(w: World, now: nat, kv: Buffer, events: seq<Event>, breqs: map<int, Batch>, ranges: seq<int>,
                            items: seq<Item>, route: seq<int>)
    requires ItemsOf(kv, items) && Routed(w, items, route, now) && Grouped(breqs, items, route)
    requires AllAcked(breqs, ranges, events) && Lists(ranges, breqs.Keys)
    ensures Delivered(w, now, kv, events, items, route)
  {
    hide Acked, Select, ItemsOf, RoutedTo;
    forall r ensures Acked(events, r) == Select(items, route, r) {
      if r !in breqs { UnroutedSelectsNothing(items, route, r); }
    }
  }

  lemma NothingToDeliver(w: World, now: nat, t: Trace)
    ensures Complete(map[], t, t) && Delivered(w, now, map[], t.log[|t.log|..], [], [])
  {
    assert t.log[|t.log|..] == [];
  }

  lemma ItemsInSpace(kv: Buffer, items: seq<Item>)
    requires ItemsOf(kv, items) && forall k :: k in kv ==> InSpace(k)
    ensures forall i :: 0 <= i < |items| ==> InSpace(items[i].key)
  {
    hide InSpace;
    assert forall i :: 0 <= i < |items| ==> FromBuffer(kv, items[i]);
  }

  lemma SomethingGrouped(kv: Buffer, breqs: map<int, Batch>, items: seq<Item>, route: seq<int>)
    requires ItemsOf(kv, items) && |items| == |route| && Grouped(breqs, items, route)
    ensures kv == map[] || exists r :: r in breqs
  {
    if k :| k in kv {
      var i :| 0 <= i < |items| && KeysOf(items)[i] == k;
      var r := route[i];
      assert r in route;
      assert r in breqs;
    } else {
      assert kv == map[];
    }
  }

  lemma SaneIsPooled(s: TxnState)
    requires Sane(s)
    ensures s.pool.Some? ==> Pooled(s.pool.value, s.log)
  {
  }

  class DbTxn {
    const base: Base
    const id: Key
    /** As it was begun with. */
    const priority: nat
    var dirty: bool
    var hasBegin: bool
    var status: Status
    var kvCache: Buffer
    /** resolveIntent's pool; None once it was drained. */
    var pool: Option<Pool>
    /** The key lists handed to the workers. */
    var queue: seq<Resolve>

    constructor (base: Base, id: Key, priority: nat)
      requires base.Valid() && InSpace(id) && base.log == [] && base.intents == map[]
      ensures Valid() && this.base == base && this.id == id && this.priority == priority
      ensures kvCache == map[] && !dirty && !hasBegin && status == Pending
    {
      this.base, this.id, this.priority := base, id, priority;
      dirty, hasBegin, status, kvCache, pool, queue := false, false, Pending, map[], Some(map[]), [];
    }

    ghost function State(): TxnState
      reads this, base
    {
      TxnState(kvCache, dirty, hasBegin, pool, queue, base.log, base.intents)
    }

    /** What holds even after a commit sent too early. */
    ghost predicate Usable()
      reads this, base, base.cache
    {
      && base.Valid() && InSpace(id) && Kept(State()) && WellSent(base.world, base.log)
      && (forall k :: k in kvCache ==> InSpace(k) && kvCache[k] != Some([]))
    }

    ghost predicate Valid()
      reads this, base, base.cache
    {
      Usable() && CommitSafe(base.log)
    }

    // ---------------------------------------------------------- reading and writing

    /** Set: an empty value is refused. */
    method Set(k: Key, v: Bytes) returns (e: Option<ClientError>)
      requires Valid()
      modifies this`dirty, this`kvCache, base`log
      ensures Valid()
      ensures e == if v == [] then Some(InvalidValue) else None
      ensures State() == old(State()) || v != []
      ensures v != [] ==> dirty && kvCache == old(kvCache)[UserKey(k) := Some(v)]
                          && base.log == old(base.log) + [Written(UserKey(k), v)]
    {
      if v == [] { return Some(InvalidValue); }
      Write(UserKey(k), Some(v));
      return None;
    }

    method Delete(k: Key)
      requires Valid()
      modifies this`dirty, this`kvCache, base`log
      ensures Valid() && dirty && kvCache == old(kvCache)[UserKey(k) := None]
      ensures base.log == old(base.log) + [Written(UserKey(k), [])]
    {
      Write(UserKey(k), None);
    }

    method Write(key: Key, v: Option<Bytes>)
      requires Valid() && v != Some([]) && exists k :: key == UserKey(k)
      modifies this`dirty, this`kvCache, base`log
      ensures Valid() && dirty && kvCache == old(kvCache)[key := v]
      ensures base.log == old(base.log) + [Written(key, Stored(v))]
    {
      ghost var k :| key == UserKey(k);
      InSpaceOfUser(k);
      SaneAfterWrite(State(), key, v);
      WellSentOthers(base.world, base.log, base.log + [Written(key, Stored(v))]);
      hide Kept, CommitSafe, InSpace, Laid, Honest, WellSent;
      dirty := true;
      kvCache := kvCache[key := v];
      base.log := base.log + [Written(key, Stored(v))];
    }

    /** Get answers from the overlay, or fails with the error of a request; a buffered key
        needs none. Only nodes of a range of the key are asked. */
    method Get(k: Key) returns (r: ClientResult<Bytes>)
      requires Valid()
      modifies base, base.cache
      ensures Valid() && base.log == old(base.log) && base.intents == old(base.intents) && old(base.contacts) <= base.contacts
      ensures Guided(base.world, UserKey(k), base.contacts[|old(base.contacts)|..])
      ensures UserKey(k) in kvCache || k == [] ==> base.contacts == old(base.contacts)
      ensures r == GetAnswer(base.world, kvCache, base.intents, k) || (r.Err? && RequestError(r.error))
      ensures UserKey(k) in kvCache || k == [] || Calm(base.world) ==> r == GetAnswer(base.world, kvCache, base.intents, k)
    {
      hide Kept, CommitSafe, WellSent, InSpace, base.Valid, Guided, UserKey, Calm, Visible;
      var key := UserKey(k);
      if key in kvCache {
        NobodyAsked(base.world, key, base.contacts);
        return if kvCache[key].None? then Err(NotExist) else Ok(kvCache[key].value);
      }
      r := SnapshotGet(k);
    }

    /** Get of the snapshot below the buffer. */
    method SnapshotGet(k: Key) returns (r: ClientResult<Bytes>)
      requires Valid()
      modifies base, base.cache
      ensures Valid() && base.log == old(base.log) && base.intents == old(base.intents) && old(base.contacts) <= base.contacts
      ensures Guided(base.world, UserKey(k), base.contacts[|old(base.contacts)|..])
      ensures k == [] ==> r == Err(InvalidKey) && base.contacts == old(base.contacts)
      ensures k != [] ==>
                || r == (var v := Visible(base.world, base.intents, UserKey(k)); if v == [] then Err(NotExist) else Ok(v))
                || (r.Err? && RequestError(r.error) && !Calm(base.world))
    {
      InSpaceOfUser(k);
      hide Kept, CommitSafe, WellSent, InSpace, base.Valid, Answered, Guided, Requested, Route, Holding, UserKey, Calm, Visible;
      var key := UserKey(k);
      if k == [] {
        NobodyAsked(base.world, key, base.contacts);
        return Err(InvalidKey);
      }
      ghost var start, asked := base.Snapshot(), base.tick;
      var reply := base.DoNodeRequest(key, Request.Get(key));
      AnswerMeans(base.world, base.cache.entries, Request.Get(key), key, start, base.Snapshot(), asked, base.tick, reply);
      if reply.Err? { return Err(reply.error); }
      return if reply.value.values[0] == [] then Err(NotExist) else Ok(reply.value.values[0]);
    }

    // ---------------------------------------------------------- flushing

    /** createBatchPutRequest: the buffered entries in key order, grouped by range. */
    method CreateBatchPutRequest() returns (r: ClientResult<map<int, Batch>>, ghost items: seq<Item>, ghost route: seq<int>)
      requires Valid()
      modifies base`tick, base.cache
      ensures Valid() && base.tick >= old(base.tick)
      ensures r.Ok? ==> ItemsOf(kvCache, items) && Routed(base.world, items, route, base.tick) && Grouped(r.value, items, route)
      ensures r.Err? ==> OfDriver(r.error) && !Calm(base.world)
    {
      var ks := InOrder(kvCache.Keys);
      var breqs := map[];
      items, route := [], [];
      CollectedNothing(base.world, base.tick, kvCache, ks);
      hide Kept, CommitSafe, WellSent, InSpace, base.Valid, Contains, Fetched, Ascending, Grouped, Routed, ItemsOf, Collected, Lists,
           AddRequest, KeysOf, Select, Calm;
      for i := 0 to |ks|
        invariant base.Valid() && base.tick >= old(base.tick)
        invariant Collected(base.world, base.tick, kvCache, ks, i, breqs, items, route)
      {
        ghost var before := base.tick;
        ListsAt(ks, kvCache.Keys, i);
        var found := base.Locate(ks[i]);
        if found.Err? {
          DriverNotCalm(base.world, before);
          return Err(found.error), items, route;
        }
        var d, x := found.value, Item(ks[i], Stored(kvCache[ks[i]]));
        CollectedMore(base.world, before, base.tick, kvCache, ks, i, breqs, items, route, x, d);
        breqs := AddRequest(breqs, x, d.rangeID);
        items, route := items + [x], route + [d.rangeID];
      }
      CollectedAll(base.world, base.tick, kvCache, ks, breqs, items, route);
      return Ok(breqs), items, route;
    }

    /** The callback of splitBatchPutRequest. */
    method SendChunk(breq: Batch, chunk: seq<Item>, ghost start: Trace) returns (e: Option<ClientError>)
      requires base.Valid() && InSpace(breq.key) && breq.key in kvCache && DistinctItems(chunk) && ChunkOf(kvCache, chunk)
      requires Flushing(kvCache, start, base.Snapshot())
      requires WellSent(base.world, base.log) && AllHeld(base.world, chunk, breq.rangeID)
      modifies base, base.cache
      ensures base.Valid() && base.tick >= old(base.tick) && WellSent(base.world, base.log)
      ensures Requested(Put(breq.rangeID, chunk), e.None?, old(base.Snapshot()), base.Snapshot())
      ensures old(base.contacts) <= base.contacts && Guided(base.world, breq.key, base.contacts[|old(base.contacts)|..])
      ensures Flushing(kvCache, start, base.Snapshot())
      ensures e.None? ==> Gains(start, old(base.Snapshot()), base.Snapshot(), breq.rangeID, chunk)
      ensures e.Some? ==> FlushError(e.value) && e.value != Panic && !Calm(base.world)
    {
      hide Flushing, Requested, Gains, ChunkOf, InSpace, base.Valid, Answered, Guided, Route, Holding, WellSent, AllHeld;
      ghost var before, asked, req := base.Snapshot(), base.tick, Put(breq.rangeID, chunk);
      var r := base.DoNodeRequest(breq.key, Put(breq.rangeID, chunk));
      AnswerMeans(base.world, base.cache.entries, req, breq.key, before, base.Snapshot(), asked, base.tick, r);
      FlushStep(base.world, kvCache, start, before, base.Snapshot(), breq.key, breq.rangeID, chunk, r.Ok?);
      WellSentMore(base.world, before, base.Snapshot(), breq.rangeID, chunk, r.Ok?);
      if r.Ok? { return None; }
      return Some(if r.error == TransactionAborted then NeedRetry(true) else Traced(r.error));
    }

    /** resolveIntent.add */
    method Add(rangeID: int, key: Key)
      requires pool.Some?
      modifies this`pool
      ensures pool.Some? && forall r, k :: InPool(pool.value, r, k) <==> InPool(old(pool).value, r, k) || (r == rangeID && k == key)
    {
      var keys := if rangeID in pool.value then pool.value[rangeID] else {};
      pool := Some(pool.value[rangeID := keys + {key}]);
    }

    method AddAll(breq: Batch)
      requires pool.Some? && BatchOf(kvCache, breq)
      modifies this`pool
      ensures pool.Some? && PoolGrew(kvCache, old(pool).value, pool.value)
      ensures AllPooled(pool.value, breq.items, breq.rangeID)
    {
      hide InPool;
      for j := 0 to |breq.items|
        invariant pool.Some? && PoolGrew(kvCache, old(pool).value, pool.value)
        invariant forall i :: 0 <= i < j ==> InPool(pool.value, breq.rangeID, breq.items[i].key)
      {
        Add(breq.rangeID, breq.items[j].key);
      }
    }

    /** The chunk loop of splitBatchPutRequest. */
    method SendChunks(breq: Batch, ghost start: Trace) returns (e: Option<ClientError>)
      requires base.Valid() && InSpace(breq.key) && BatchOf(kvCache, breq)
      requires pool.Some? && Pooled(pool.value, base.log)
      requires AllPooled(pool.value, breq.items, breq.rangeID)
      requires Flushing(kvCache, start, base.Snapshot())
      requires WellSent(base.world, base.log) && AllHeld(base.world, breq.items, breq.rangeID)
      modifies base, base.cache
      ensures base.Valid() && base.tick >= old(base.tick) && WellSent(base.world, base.log)
      ensures Pooled(pool.value, base.log) && Flushing(kvCache, start, base.Snapshot())
      ensures e.None? ==> Gains(start, old(base.Snapshot()), base.Snapshot(), breq.rangeID, breq.items)
      ensures e.Some? ==> FlushError(e.value) && e.value != Panic && !Calm(base.world)
    {
      hide InSpace, Flushing, Pooled, Gains, BatchOf, base.Valid, InPool, Requested, ChunkOf, DistinctItems, WellSent, AllHeld, AllPooled;
      ghost var before := base.Snapshot();
      GainsNothing(kvCache, start, before, breq.rangeID);
      var size, s := |breq.items|, 0;
      while s != size
        invariant 0 <= s <= size && base.Valid() && base.tick >= old(base.tick) && WellSent(base.world, base.log)
        invariant Pooled(pool.value, base.log) && Flushing(kvCache, start, base.Snapshot())
        invariant Gains(start, before, base.Snapshot(), breq.rangeID, breq.items[..s])
        decreases size - s
      {
        var end := if s + MAX_BATCH_PUT_SIZE > size then size else s + MAX_BATCH_PUT_SIZE;
        var chunk := breq.items[s..end];
        SliceIsChunk(kvCache, breq, s, end);
        SliceIsReady(base.world, pool.value, breq, s, end);
        ghost var last := base.Snapshot();
        e := SendChunk(breq, chunk, start);
        PooledMore(pool.value, last, base.Snapshot(), breq.rangeID, chunk, e.None?);
        if e.Some? { return; }
        GainsMore(start, before, last, base.Snapshot(), breq.rangeID, breq.items[..s], chunk);
        assert breq.items[..s] + chunk == breq.items[..end];
        s := end;
      }
      assert breq.items[..size] == breq.items;
      return None;
    }

    /** One range of splitBatchPutRequest: its keys go into the pool before any is sent. */
    method SendBatch(breq: Batch, ghost start: Trace) returns (e: Option<ClientError>)
      requires base.Valid() && InSpace(breq.key) && BatchOf(kvCache, breq)
      requires pool.Some? && Pooled(pool.value, base.log) && Flushing(kvCache, start, base.Snapshot())
      requires WellSent(base.world, base.log) && AllHeld(base.world, breq.items, breq.rangeID)
      modifies this`pool, base, base.cache
      ensures base.Valid() && base.tick >= old(base.tick) && WellSent(base.world, base.log)
      ensures pool.Some? && PoolGrew(kvCache, old(pool).value, pool.value)
      ensures Pooled(pool.value, base.log) && Flushing(kvCache, start, base.Snapshot())
      ensures e.None? ==> Gains(start, old(base.Snapshot()), base.Snapshot(), breq.rangeID, breq.items)
      ensures e.Some? ==> FlushError(e.value) && e.value != Panic && !Calm(base.world)
    {
      hide InSpace, Flushing, Pooled, BatchOf, base.Valid, PoolGrew, Gains, InPool, WellSent, AllHeld;
      AddAll(breq);
      PooledGrows(kvCache, old(pool).value, pool.value, base.log);
      e := SendChunks(breq, start);
    }

    /** splitBatchPutRequest: the ranges in no particular order. Without a pool the first
        key to be added panics. */
    method SplitBatchPutRequest(breqs: map<int, Batch>, ghost start: Trace) returns (e: Option<ClientError>, ghost ranges: seq<int>)
      requires base.Valid() && start == base.Snapshot() && (pool.Some? ==> Pooled(pool.value, base.log))
      requires forall r :: r in breqs ==> BatchOf(kvCache, breqs[r]) && InSpace(breqs[r].key) && breqs[r].rangeID == r
      requires WellSent(base.world, base.log) && forall r :: r in breqs ==> AllHeld(base.world, breqs[r].items, r)
      modifies this`pool, base, base.cache
      ensures base.Valid() && base.tick >= old(base.tick) && WellSent(base.world, base.log)
      ensures pool.None? <==> old(pool).None?
      ensures pool.None? && (exists r :: r in breqs) ==> e == Some(Panic)
      ensures pool.None? ==> base.Snapshot() == start
      ensures pool.Some? ==> PoolGrew(kvCache, old(pool).value, pool.value) && Pooled(pool.value, base.log)
      ensures Flushing(kvCache, start, base.Snapshot())
      ensures e.None? ==> start.log <= base.log && AllAcked(breqs, ranges, base.log[|start.log|..])
      ensures e.None? ==> Lists(ranges, breqs.Keys)
      ensures e.Some? ==> FlushError(e.value) && (pool.None? || !Calm(base.world))
    {
      FlushStarts(kvCache, start);
      NoneAcked(breqs, base.log);
      var order := Enumerate(breqs.Keys);
      ranges := order;
      hide Flushing, Pooled, AllAcked, PoolGrew;
      if order == [] {
        if pool.Some? { PoolGrewNothing(kvCache, pool.value); }
        return None, ranges;
      }
      if pool.None? { return Some(Panic), ranges; }
      hide Sending, InSpace, BatchOf, base.Valid, Gains, Lists, RequestError, WellSent, AllHeld;
      SendingStarts(kvCache, pool.value, breqs, start);
      for i := 0 to |order|
        invariant base.Valid() && base.tick >= old(base.tick) && pool.Some? && WellSent(base.world, base.log)
        invariant Sending(kvCache, old(pool).value, pool.value, breqs, order[..i], start, base.Snapshot())
      {
        var r := order[i];
        ListsAt(order, breqs.Keys, i);
        ghost var had, before := pool.value, base.Snapshot();
        SendingIs(kvCache, old(pool).value, had, breqs, order[..i], start, before);
        e := SendBatch(breqs[r], start);
        SendingMore(kvCache, old(pool).value, had, pool.value, breqs, order[..i], start, before, base.Snapshot(), r, e.None?);
        if e.Some? { return; }
        PrefixGrows(order, i);
      }
      WholePrefix(order);
      SendingIs(kvCache, old(pool).value, pool.value, breqs, order, start, base.Snapshot());
      return None, ranges;
    }

    /** doPutData once the transaction has begun. */
    method Flush() returns (e: Option<ClientError>, ghost items: seq<Item>, ghost route: seq<int>)
      requires Valid()
      modifies this`kvCache, this`pool, base, base.cache
      ensures Valid() && base.tick >= old(base.tick) && (pool.None? <==> old(pool).None?)
      ensures kvCache == Left(old(kvCache), e.None?)
      ensures Flushing(old(kvCache), old(base.Snapshot()), base.Snapshot()) && old(base.log) <= base.log
      ensures e.None? ==> Complete(old(kvCache), old(base.Snapshot()), base.Snapshot())
      ensures e.None? ==> Delivered(base.world, base.tick, old(kvCache), base.log[|old(base.log)|..], items, route)
      ensures e.Some? ==> FlushError(e.value) && (pool.None? || !Calm(base.world))
      ensures old(kvCache) == map[] ==> e.None? && base.tick == old(base.tick)
    {
      hide Kept, CommitSafe, WellSent, InSpace, Laid, Honest, Flushing, Complete, Delivered, Pooled,
           AllAcked, BatchOf, PoolGrew, ItemsOf, Grouped, Select, RoutedTo, RangeCache.WellFormed, Disjoint, Fetched;
      ghost var s, start := State(), base.Snapshot();
      FlushStarts(kvCache, start);
      SaneIsPooled(s);
      if kvCache == map[] {
        NothingToDeliver(base.world, base.tick, base.Snapshot());
        return None, [], [];
      }
      var created;
      created, items, route := CreateBatchPutRequest();
      if created.Err? { return Some(created.error), items, route; }
      var breqs := created.value;
      forall r | r in breqs ensures BatchOf(kvCache, breqs[r]) && InSpace(breqs[r].key) && breqs[r].rangeID == r {
        GroupsAreBatches(kvCache, breqs, items, route, r);
      }
      ItemsInSpace(kvCache, items);
      forall r | r in breqs ensures AllHeld(base.world, breqs[r].items, r) {
        GroupIsHeld(base.world, base.tick, breqs, items, route, r);
      }
      ghost var ranges;
      ghost var now := base.tick;
      e, ranges := SplitBatchPutRequest(breqs, start);
      FlushExtends(kvCache, start, base.Snapshot());
      if e.None? {
        AllAckedIsComplete(kvCache, start, base.Snapshot(), breqs, ranges, items, route);
        RoutedLater(base.world, items, route, now, base.tick);
        AllAckedIsDelivered(base.world, base.tick, kvCache, base.log[|start.log|..], breqs, ranges, items, route);
        kvCache := map[];
      }
      if pool.Some? {
        SaneAfterFlush(s, start.contacts, base.Snapshot(), e.None?, pool.value);
      } else if e.None? {
        SomethingGrouped(s.kv, breqs, items, route);
      }
    }

    method BeginTransaction() returns (e: Option<ClientError>)
      requires Valid()
      modifies base, base.cache
      ensures Valid() && base.tick >= old(base.tick) && Beginning(old(base.Snapshot()), base.Snapshot())
      ensures old(base.contacts) <= base.contacts && Guided(base.world, id, base.contacts[|old(base.contacts)|..])
      ensures e.None? ==> Begun(base.log)
      ensures e.Some? ==> RequestError(e.value) && !Calm(base.world)
    {
      hide Kept, CommitSafe, InSpace, base.Valid, Begun, WellSent, Answered, Guided, Route, Holding, Walk;
      ghost var s, start, asked := State(), base.Snapshot(), base.tick;
      var r := base.DoNodeRequest(id, Begin);
      AnswerMeans(base.world, base.cache.entries, Begin, id, start, base.Snapshot(), asked, base.tick, r);
      SaneAfterRequest(s, Begin, r.Ok?, base.Snapshot(), start.contacts);
      forall i | |start.log| <= i < |base.log| ensures base.log[i].BeginSent? {
        assert base.log[i] == base.log[|start.log|..][i - |start.log|];
      }
      WellSentOthers(base.world, start.log, base.log);
      return if r.Ok? then None else Some(r.error);
    }

    /** doPutData: begin the transaction if need be, then send the buffer. It never changes
        what the transaction sees, and Get's answers only for an empty key that leaves the
        buffer. When it succeeds every range was sent its entries. */
    method DoPutData() returns (e: Option<ClientError>, ghost items: seq<Item>, ghost route: seq<int>)
      requires Valid()
      modifies this`hasBegin, this`kvCache, this`pool, base, base.cache
      ensures Valid() && (e.None? ==> hasBegin) && kvCache == Left(old(kvCache), e.None?)
      ensures pool.None? <==> old(pool).None?
      ensures forall k :: View(base.world, kvCache, base.intents, k) == View(base.world, old(kvCache), old(base.intents), k)
      ensures forall k :: GetAnswer(base.world, kvCache, base.intents, k) == GetAnswer(base.world, old(kvCache), old(base.intents), k)
                          <==> !(e.None? && k == [] && UserKey(k) in old(kvCache))
      ensures SentByFlush(old(kvCache), old(base.log), base.log)
      ensures e.None? ==> Delivered(base.world, base.tick, old(kvCache), base.log[|old(base.log)|..], items, route)
      ensures e.Some? ==> (FlushError(e.value) || e.value == TransactionAborted) && (pool.None? || !Calm(base.world))
      ensures old(hasBegin) && old(kvCache) == map[] ==> e.None? && base.tick == old(base.tick)
      ensures (old(hasBegin) ==> hasBegin) && (e.Some? ==> !hasBegin || kvCache != map[])
    {
      hide InSpace, Laid, Honest, Flushing, Complete, Acked, View, GetAnswer, SentByFlush, ItemsOf,
           Routed, Select;
      hide Tracked, CommitSafe, Covered, Latest;
      items, route := [], [];
      ghost var start := base.Snapshot();
      if !hasBegin {
        e := BeginTransaction();
        if e.Some? {
          FlushStarts(kvCache, base.Snapshot());
          BeginThenFlush(kvCache, start, base.Snapshot(), base.Snapshot());
          FlushKeepsMeaning(base.world, kvCache, base.Snapshot(), base.Snapshot(), false);
          e := PassedOn(e);
          return;
        }
        hasBegin := true;
      }
      ghost var kv, middle := kvCache, base.Snapshot();
      e, items, route := Flush();
      BeginThenFlush(kv, start, middle, base.Snapshot());
      FlushKeepsMeaning(base.world, kv, middle, base.Snapshot(), e.None?);
    }

    // ---------------------------------------------------------- ending

    /** resolveIntent.send: one list per range that has keys, and no pool any more. */
    method Send()
      requires Usable()
      modifies this`pool, this`queue
      ensures Usable() && pool.None?
      ensures if old(pool).Some? then Drained(old(pool).value, queue) else queue == old(queue)
    {
      if pool.None? { return; }
      ghost var s := State();
      hide Kept, WellSent, InSpace, Laid, Honest, Lists, InQueue, Enqueue;
      var had := pool.value;
      var order := Enumerate(had.Keys);
      KeptIsFresh(s);
      NothingDrained(had);
      for i := 0 to |order|
        invariant pool == old(pool) && DrainedFor(had, order[..i], queue)
      {
        ListsAt(order, had.Keys, i);
        var keys := Enumerate(had[order[i]]);
        PrefixGrows(order, i);
        DrainedOneMore(had, order[..i], order[i], queue, keys);
        queue := Enqueue(queue, order[i], keys);
      }
      WholePrefix(order);
      DrainedWhenAll(had, order, queue);
      pool := None;
      KeptAfterSend(s, queue);
    }

    /** The request that ends the transaction. */
    method SendEnd(commit: bool) returns (r: ClientResult<Reply>)
      requires Valid()
      modifies base, base.cache
      ensures Usable() && ((commit ==> old(MayCommit(base.log))) ==> Valid())
      ensures base.intents == old(base.intents) && Ending(commit, r.Ok?, old(base.log), base.log)
      ensures Answered(base.world, base.cache.entries, End(commit), id, old(base.Snapshot()), base.Snapshot(), old(base.tick), base.tick, r)
      ensures r.Err? ==> RequestError(r.error) && !Calm(base.world)
    {
      hide Kept, CommitSafe, WellSent, InSpace, base.Valid, MayCommit, Requested, Answered, Guided, Route, Holding, Ending;
      ghost var s, start, asked := State(), base.Snapshot(), base.tick;
      r := base.DoNodeRequest(id, End(commit));
      AnswerMeans(base.world, base.cache.entries, End(commit), id, start, base.Snapshot(), asked, base.tick, r);
      SaneAfterRequest(s, End(commit), r.Ok?, base.Snapshot(), start.contacts);
      RequestedEnd(commit, r.Ok?, start, base.Snapshot());
      EndingPutsNothing(commit, r.Ok?, start.log, base.log);
      WellSentOthers(base.world, start.log, base.log);
    }

    /** EndTransaction: after success a transaction that wrote has handed every key it sent to
        the resolvers. The answer is what doNodeRequest said, if it was asked. The transaction
        is marked aborted exactly when that was the untraced retryable error, which only
        running out of attempts gives: not when a node or the driver asked for a retry. */
    method EndTransaction(commit: bool) returns (e: Option<ClientError>, ghost answer: Option<ClientResult<Reply>>)
      requires Valid()
      modifies this`status, this`pool, this`queue, base, base.cache
      ensures Usable() && ((commit ==> old(MayCommit(base.log))) ==> Valid())
      ensures base.intents == old(base.intents) && Ending(commit, e.None?, old(base.log), base.log)
      ensures e.None? && dirty ==> pool.None? && Queued(queue, base.log)
      ensures e.Some? || !dirty ==> pool == old(pool) && queue == old(queue)
      ensures e == if answer.None? then DriverAnswer(base.world, old(base.tick)) else PassedOn(ErrorIn(answer.value))
      ensures answer.None? <==> DriverAnswer(base.world, old(base.tick)).Some?
      ensures answer.None? ==> base.contacts == old(base.contacts) && base.log == old(base.log)
      ensures answer.Some? ==> Answered(base.world, base.cache.entries, End(commit), id, old(base.Snapshot()), base.Snapshot(),
                                        old(base.tick), base.tick, answer.value)
      ensures status == if answer == Some(Err(NeedRetry(false))) then Status.Aborted else old(status)
      ensures e.Some? ==> RequestError(e.value) && !Calm(base.world)
    {
      hide Kept, CommitSafe, WellSent, InSpace, base.Valid, MayCommit, Queued, Drained, Answered, Ending;
      NothingEnded(commit, base.log);
      ghost var start := base.Snapshot();
      e := base.AskDriver();
      answer := None;
      if e.Some? {
        DriverNotCalm(base.world, old(base.tick));
        return;
      }
      ghost var asked := base.tick;
      var r := SendEnd(commit);
      AnsweredLater(base.world, base.cache.entries, End(commit), id, start, base.Snapshot(), old(base.tick), asked, base.tick, r);
      answer := Some(r);
      if r.Err? {
        if r.error == NeedRetry(false) { status := Status.Aborted; }
        return Some(Traced(r.error)), answer;
      }
      if dirty {
        Send();
        KeptIsQueued(State());
      }
    }

    /** Commit: nothing to do for a transaction that wrote nothing; otherwise the end is sent
        only once the whole buffer has been acknowledged. As long as it has not been the
        status stays, and no end is sent. */
    method Commit() returns (e: Option<ClientError>)
      requires Valid()
      modifies this, base, base.cache
      ensures Valid() && dirty == old(dirty)
      ensures !dirty ==> e.None? && State() == old(State()) && status == old(status)
      ensures Calm(base.world) && old(pool).Some? ==> e.None?
      ensures dirty && e.None? ==> kvCache == map[] && status == Committed && pool.None? && Queued(queue, base.log)
      ensures dirty && e.None? ==> base.log != [] && base.log[|base.log| - 1] == EndSent(true, true)
      ensures QuietSince(old(base.log), base.log) && (e.Some? ==> NoCommitAcked(old(base.log), base.log))
      ensures dirty && (!hasBegin || kvCache != map[]) ==> e.Some? && status == old(status) && NoEnd(old(base.log), base.log)
      ensures dirty && hasBegin && kvCache == map[] ==> status == Committed || status == Status.Aborted
      ensures dirty && old(hasBegin) && old(kvCache) == map[] ==>
                && (FailsWith(base.world, Conflict, old(base.tick)) ==> e == Some(NeedRetry(true)) && status == Committed)
                && (FailsWith(base.world, Disconnected, old(base.tick)) ==> e == Some(NeedRetry(true)) && status == Status.Aborted)
      ensures forall k :: View(base.world, kvCache, base.intents, k) == View(base.world, old(kvCache), old(base.intents), k)
    {
      hide Kept, CommitSafe, WellSent, InSpace, base.Valid, Queued, View, GetAnswer, Delivered, SentByFlush, MayCommit, Answered, FailsWith,
           Calm;
      if !dirty { return None; }
      ghost var items, route;
      e, items, route := DoPutData();
      FlushCommitsNothing(old(kvCache), old(base.log), base.log);
      FlushWritesNothing(old(kvCache), old(base.log), base.log);
      FlushEndsNothing(old(kvCache), old(base.log), base.log);
      if e.Some? { return; }
      status := Committed;
      SaneMayCommit(State());
      ghost var flushed := base.log;
      ghost var answer;
      ghost var start, asked := base.Snapshot(), base.tick;
      e, answer := EndTransaction(true);
      EndWhileFailing(base.world, base.cache.entries, id, start, base.Snapshot(), asked, base.tick, answer);
      NoneOfThemCommits(old(kvCache), true, e.None?, old(base.log), flushed, base.log);
    }

    /** Rollback: a transaction that never began has nothing to end. */
    method Rollback() returns (e: Option<ClientError>)
      requires Valid()
      modifies this, base, base.cache
      ensures Valid() && status == Status.Aborted && kvCache == old(kvCache) && dirty == old(dirty)
      ensures base.intents == old(base.intents)
      ensures if hasBegin then Ending(false, e.None?, old(base.log), base.log) else e.None? && base.log == old(base.log)
      ensures hasBegin && dirty && e.None? ==> pool.None? && Queued(queue, base.log)
      ensures Calm(base.world) ==> e.None?
    {
      hide Kept, CommitSafe, WellSent, InSpace, Laid, Honest, Queued, Contains, Disjoint, RangeCache.WellFormed;
      status := Status.Aborted;
      if hasBegin {
        ghost var answer;
        e, answer := EndTransaction(false);
      } else {
        e := None;
      }
    }
  }

  lemma EndWhileFailing(w: World, entries: map<nat, RangeDesc>, id: Key, a: Trace, b: Trace, from: nat, now: nat,
                        answer: Option<ClientResult<Reply>>)
    requires answer.None? ==> DriverAnswer(w, from).Some?
    requires answer.Some? ==> Answered(w, entries, End(true), id, a, b, from, now, answer.value)
    ensures FailsWith(w, Conflict, from) ==> answer == Some(Err(NeedRetry(true)))
    ensures FailsWith(w, Disconnected, from) ==> answer == Some(Err(NeedRetry(false)))
  {
    StillFailing(w, from, from);
  }

  predicate FlushError(e: ClientError) {
    e == Panic || (RequestError(e) && e != TransactionAborted && e != NeedRetry(false))
  }
}
