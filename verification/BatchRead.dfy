/** Reading many keys at once: grouped by range, round after round while ranges move. */
module BatchRead {
  import opened Keys
  import opened Wrappers
  import opened RangeCache
  import opened Cluster
  import opened NodeRequest
  import opened Batches

  type Values = map<Key, Bytes>

  // ------------------------------------------------------------ what is known so far

  /** Each wanted key has its value, or is still waited for, or was dropped as it does not
      exist. */
  ghost predicate Partial(w: World, intents: map<Key, Bytes>, wanted: set<Key>, vals: Values) {
    && vals.Keys <= wanted
    && forall k :: k in wanted ==> KnownAt(w, intents, vals, k)
  }

  predicate KnownAt(w: World, intents: map<Key, Bytes>, vals: Values, k: Key) {
    if k in vals then vals[k] == [] || vals[k] == Visible(w, intents, UserKey(k)) else Visible(w, intents, UserKey(k)) == []
  }

  function Pending(vals: Values): set<Key> {
    set k | k in vals && vals[k] == []
  }

  /** Looking the keys up one by one. */
  function Lookup(w: World, intents: map<Key, Bytes>, wanted: set<Key>): Values {
    map k | k in wanted && Visible(w, intents, UserKey(k)) != [] :: Visible(w, intents, UserKey(k))
  }

  /** With nothing to wait for, what is known is the pointwise lookup. */
  lemma PartialIsLookup(w: World, intents: map<Key, Bytes>, wanted: set<Key>, vals: Values)
    requires Partial(w, intents, wanted, vals) && Pending(vals) == {}
    ensures vals == Lookup(w, intents, wanted)
  {
    forall k ensures k in vals <==> k in Lookup(w, intents, wanted) {
      if k in wanted { assert KnownAt(w, intents, vals, k); }
      assert k !in Pending(vals);
    }
    forall k | k in vals ensures vals[k] == Lookup(w, intents, wanted)[k] {
      assert KnownAt(w, intents, vals, k) && k !in Pending(vals);
    }
  }

  // ------------------------------------------------------------ answers

  /** An answer for a key that was waited for. */
  ghost predicate AnswerFor(w: World, intents: map<Key, Bytes>, vals: Values, kv: Item) {
    kv.key in Pending(vals) && kv.value == Visible(w, intents, UserKey(kv.key))
  }

  ghost predicate Answers(w: World, intents: map<Key, Bytes>, vals: Values, kvs: seq<Item>) {
    forall j :: 0 <= j < |kvs| ==> AnswerFor(w, intents, vals, kvs[j])
  }

  function Store(vals: Values, kv: Item): Values {
    if kv.value == [] then vals - {kv.key} else vals[kv.key := kv.value]
  }

  lemma StoreKeepsPartial(w: World, intents: map<Key, Bytes>, wanted: set<Key>, vals: Values, kv: Item)
    requires Partial(w, intents, wanted, vals) && kv.key in wanted && kv.value == Visible(w, intents, UserKey(kv.key))
    ensures Partial(w, intents, wanted, Store(vals, kv)) && Pending(Store(vals, kv)) == Pending(vals) - {kv.key}
  {
    forall k | k in wanted ensures KnownAt(w, intents, Store(vals, kv), k) { assert KnownAt(w, intents, vals, k); }
  }

  /** The loop over the answers of a round: what was answered is no longer pending. */
  method Merge(vals: Values, kvs: seq<Item>, ghost w: World, ghost intents: map<Key, Bytes>, ghost wanted: set<Key>) returns (r: Values)
    requires Partial(w, intents, wanted, vals) && Answers(w, intents, vals, kvs)
    ensures Partial(w, intents, wanted, r) && Pending(r) <= Pending(vals)
    ensures forall j :: 0 <= j < |kvs| ==> kvs[j].key !in Pending(r)
    ensures kvs == [] ==> r == vals
  {
    r := vals;
    for i := 0 to |kvs|
      invariant Partial(w, intents, wanted, r) && Pending(r) <= Pending(vals)
      invariant forall j :: 0 <= j < i ==> kvs[j].key !in Pending(r)
      invariant i == 0 ==> r == vals
    {
      assert AnswerFor(w, intents, vals, kvs[i]);
      StoreKeepsPartial(w, intents, wanted, r, kvs[i]);
      r := Store(r, kvs[i]);
    }
  }

  // ------------------------------------------------------------ one round

  /** A batch per range of the keys waited for. */
  ghost predicate Asks(vals: Values, breqs: map<int, Batch>, items: seq<Item>, route: seq<int>) {
    && |items| == |route| && Grouped(breqs, items, route)
    && (forall i :: 0 <= i < |items| ==> Asked(vals, items[i].key))
    && (forall k :: k in Pending(vals) ==> UserKey(k) in KeysOf(items))
  }

  ghost predicate Asked(vals: Values, key: Key) {
    USER_PREFIX <= key && key[|USER_PREFIX|..] in Pending(vals)
  }

  lemma StripUserKey(k: Key)
    ensures USER_PREFIX <= UserKey(k) && UserKey(k)[|USER_PREFIX|..] == k
  {
  }

  lemma BatchIsAsked(vals: Values, breqs: map<int, Batch>, items: seq<Item>, route: seq<int>, r: int)
    requires Asks(vals, breqs, items, route) && r in breqs
    ensures forall j :: 0 <= j < |breqs[r].items| ==> Asked(vals, breqs[r].items[j].key)
    ensures breqs[r].items != [] && breqs[r].key == breqs[r].items[0].key
  {
    hide Select, Asked;
    forall j | 0 <= j < |breqs[r].items| ensures Asked(vals, breqs[r].items[j].key) {
      SelectHolds(items, route, r, breqs[r].items[j]);
      var i :| 0 <= i < |items| && items[i] == breqs[r].items[j] && route[i] == r;
    }
  }

  lemma AskedInSpace(vals: Values, key: Key)
    requires Asked(vals, key)
    ensures InSpace(key)
  {
    assert UserKey(key[|USER_PREFIX|..]) == key;
    InSpaceOfUser(key[|USER_PREFIX|..]);
  }

  lemma NothingAsked(vals: Values, breqs: map<int, Batch>, items: seq<Item>, route: seq<int>)
    requires Asks(vals, breqs, items, route)
    ensures (exists r :: r in breqs) <==> Pending(vals) != {}
  {
    hide Select, Pending;
    if k :| k in Pending(vals) {
      var i :| 0 <= i < |items| && KeysOf(items)[i] == UserKey(k);
      var r := route[i];
      assert r in route;
      assert r in breqs;
    }
    if r :| r in breqs {
      BatchIsAsked(vals, breqs, items, route, r);
      assert Asked(vals, breqs[r].items[0].key);
      assert breqs[r].items[0].key[|USER_PREFIX|..] in Pending(vals);
    }
  }

  /** The walk of the map has met the first n keys, and routed those waited for. */
  ghost predicate AsksSome(vals: Values, order: seq<Key>, n: nat, breqs: map<int, Batch>, items: seq<Item>, route: seq<int>) {
    && n <= |order| && |items| == |route| && Grouped(breqs, items, route)
    && (forall i :: 0 <= i < |items| ==> Asked(vals, items[i].key))
    && (forall j :: 0 <= j < n && order[j] in Pending(vals) ==> UserKey(order[j]) in KeysOf(items))
  }

  lemma AsksNone(vals: Values, order: seq<Key>)
    ensures AsksSome(vals, order, 0, map[], [], [])
  {
  }

  lemma AsksOneMore(vals: Values, order: seq<Key>, n: nat, breqs: map<int, Batch>, items: seq<Item>, route: seq<int>, r: int)
    requires AsksSome(vals, order, n, breqs, items, route) && n < |order| && order[n] in Pending(vals)
    ensures var x := Item(UserKey(order[n]), []);
            AsksSome(vals, order, n + 1, AddRequest(breqs, x, r), items + [x], route + [r])
  {
    var x := Item(UserKey(order[n]), []);
    AddRequestGroups(breqs, items, route, x, r);
    StripUserKey(order[n]);
    KeysOfMore(items, x);
    assert Asked(vals, x.key);
    hide Grouped, AddRequest, UserKey, KeysOf, Asked, Pending;
    forall i | 0 <= i < |items + [x]| ensures Asked(vals, (items + [x])[i].key) {
      assert (items + [x])[i] == if i < |items| then items[i] else x;
    }
    forall j | 0 <= j < n + 1 && order[j] in Pending(vals) ensures UserKey(order[j]) in KeysOf(items + [x]) {
      assert j < n ==> UserKey(order[j]) in KeysOf(items);
    }
  }

  lemma AsksAll(vals: Values, order: seq<Key>, breqs: map<int, Batch>, items: seq<Item>, route: seq<int>)
    requires AsksSome(vals, order, |order|, breqs, items, route) && Lists(order, vals.Keys)
    ensures Asks(vals, breqs, items, route)
  {
    hide Grouped, Asked;
    forall k | k in Pending(vals) ensures UserKey(k) in KeysOf(items) {
      assert k in order;
      var j :| 0 <= j < |order| && order[j] == k;
    }
  }

  lemma MovedWithin(w: World, a: nat, b: nat, c: nat, d: nat)
    requires MovedBetween(w, b, c) && a <= b && c <= d
    ensures MovedBetween(w, a, d)
  {
    var t: nat :| b <= t < c && w.fault(t).RangeNotFound?;
  }

  lemma AnswersMore(w: World, intents: map<Key, Bytes>, vals: Values, kvs: seq<Item>, more: seq<Item>)
    requires Answers(w, intents, vals, kvs) && Answers(w, intents, vals, more)
    ensures Answers(w, intents, vals, kvs + more)
  {
  }

  /** An answer carries this key. */
  ghost predicate Named(kvs: seq<Item>, key: Key) {
    exists j :: 0 <= j < |kvs| && UserKey(kvs[j].key) == key
  }

  ghost predicate AllNamed(kvs: seq<Item>, items: seq<Item>) {
    forall i :: 0 <= i < |items| ==> Named(kvs, items[i].key)
  }

  lemma AllNamedInOrder(kvs: seq<Item>, items: seq<Item>)
    requires |kvs| == |items| && forall i :: 0 <= i < |items| ==> UserKey(kvs[i].key) == KeysOf(items)[i]
    ensures AllNamed(kvs, items)
  {
    hide UserKey;
    assert forall i :: 0 <= i < |items| ==> UserKey(kvs[i].key) == items[i].key;
  }

  lemma NamedMore(kvs: seq<Item>, more: seq<Item>, items: seq<Item>)
    ensures AllNamed(kvs, items) || AllNamed(more, items) ==> AllNamed(kvs + more, items)
  {
    hide UserKey;
    forall key | Named(kvs, key) || Named(more, key) ensures Named(kvs + more, key) {
      if j :| 0 <= j < |kvs| && UserKey(kvs[j].key) == key {
        assert (kvs + more)[j] == kvs[j];
      } else {
        var j :| 0 <= j < |more| && UserKey(more[j].key) == key;
        assert (kvs + more)[|kvs| + j] == more[j];
      }
    }
  }

  /** With every batch answered, so is every key waited for. */
  lemma AskedIsNamed(vals: Values, breqs: map<int, Batch>, items: seq<Item>, route: seq<int>, order: seq<int>, kvs: seq<Item>, k: Key)
    requires Asks(vals, breqs, items, route) && Lists(order, breqs.Keys) && k in Pending(vals)
    requires forall j :: 0 <= j < |order| ==> order[j] in breqs && AllNamed(kvs, breqs[order[j]].items)
    ensures Named(kvs, UserKey(k))
  {
    hide Select, Named, UserKey, Pending;
    var i :| 0 <= i < |items| && KeysOf(items)[i] == UserKey(k);
    var r := route[i];
    assert r in route && r in breqs;
    SelectHolds(items, route, r, items[i]);
    var j :| 0 <= j < |order| && order[j] == r;
    var m :| 0 <= m < |breqs[r].items| && breqs[r].items[m] == items[i];
  }

  lemma AllAnswered(vals: Values, kvs: seq<Item>, next: Values)
    requires forall k :: k in Pending(vals) ==> Named(kvs, UserKey(k))
    requires Pending(next) <= Pending(vals) && forall j :: 0 <= j < |kvs| ==> kvs[j].key !in Pending(next)
    ensures Pending(next) == {}
  {
    hide Pending;
    forall k | k in Pending(vals) ensures k !in Pending(next) {
      var j :| 0 <= j < |kvs| && UserKey(kvs[j].key) == UserKey(k);
      StripUserKey(k);
      StripUserKey(kvs[j].key);
      assert kvs[j].key == k;
    }
  }

  class Snapshot {
    const base: Base

    constructor (base: Base)
      ensures this.base == base
    {
      this.base := base;
    }

    /** createBatchRequests: the keys without a value, grouped by range. */
    method CreateBatchRequests(vals: Values) returns (r: ClientResult<map<int, Batch>>, ghost items: seq<Item>, ghost route: seq<int>)
      requires base.Valid()
      modifies base`tick, base.cache
      ensures base.Valid() && base.tick >= old(base.tick)
      ensures r.Ok? ==> Asks(vals, r.value, items, route) && Routed(base.world, items, route, base.tick)
      ensures r.Err? ==> OfDriver(r.error) && !Calm(base.world)
    {
      hide Asks, AsksSome, Lists, InSpace, base.Valid, AddRequest, Fetched, Contains, UserKey, Routed, Calm;
      var order := Enumerate(vals.Keys);
      var m := map[];
      items, route := [], [];
      AsksNone(vals, order);
      NothingRouted(base.world, base.tick);
      for i := 0 to |order|
        invariant base.Valid() && base.tick >= old(base.tick)
        invariant AsksSome(vals, order, i, m, items, route) && Routed(base.world, items, route, base.tick)
      {
        ghost var before := base.tick;
        ListsAt(order, vals.Keys, i);
        if vals[order[i]] != [] {
          AsksSkip(vals, order, i, m, items, route);
          continue;
        }
        var x := Item(UserKey(order[i]), []);
        InSpaceOfUser(order[i]);
        var found := base.Locate(x.key);
        if found.Err? {
          DriverNotCalm(base.world, before);
          return Err(found.error), items, route;
        }
        RoutedMore(base.world, items, route, before, base.tick, x, found.value);
        AsksOneMore(vals, order, i, m, items, route, found.value.rangeID);
        m := AddRequest(m, x, found.value.rangeID);
        items, route := items + [x], route + [found.value.rangeID];
      }
      AsksAll(vals, order, m, items, route);
      return Ok(m), items, route;
    }

    /** parseBatchGetResponse: the answers with the user prefix taken off. */
    method ParseBatchGetResponse(keys: seq<Key>, values: seq<Bytes>, vals: Values) returns (kvs: seq<Item>)
      requires |values| == |keys|
      requires forall j :: 0 <= j < |keys| ==> Asked(vals, keys[j]) && values[j] == Visible(base.world, base.intents, keys[j])
      ensures |kvs| == |keys| && Answers(base.world, base.intents, vals, kvs)
      ensures forall j :: 0 <= j < |keys| ==> UserKey(kvs[j].key) == keys[j] && kvs[j].value == values[j]
    {
      kvs := [];
      for i := 0 to |keys|
        invariant |kvs| == i && Answers(base.world, base.intents, vals, kvs)
        invariant forall j :: 0 <= j < i ==> UserKey(kvs[j].key) == keys[j] && kvs[j].value == values[j]
      {
        assert Asked(vals, keys[i]) && UserKey(keys[i][|USER_PREFIX|..]) == keys[i];
        kvs := kvs + [Item(keys[i][|USER_PREFIX|..], values[i])];
      }
    }

    /** One batch of a round: its answers, or none when its range has moved. */
    method GetBatch(breq: Batch, vals: Values) returns (r: ClientResult<seq<Item>>)
      requires base.Valid() && breq.items != [] && breq.key == breq.items[0].key
      requires forall j :: 0 <= j < |breq.items| ==> Asked(vals, breq.items[j].key)
      modifies base, base.cache
      ensures base.Valid() && base.tick >= old(base.tick) && base.intents == old(base.intents) && base.log == old(base.log)
      ensures old(base.contacts) <= base.contacts && Guided(base.world, breq.key, base.contacts[|old(base.contacts)|..])
      ensures r.Ok? ==> Answers(base.world, base.intents, vals, r.value)
      ensures r.Ok? ==> AllNamed(r.value, breq.items) || (r.value == [] && MovedBetween(base.world, old(base.tick), base.tick))
      ensures r.Err? ==> RequestError(r.error) && !Calm(base.world)
    {
      hide InSpace, base.Valid, Answers, MovedBetween, Visible, Asked, Answered, Guided, Requested, Route, Holding, Calm;
      AskedInSpace(vals, breq.items[0].key);
      ghost var start, asked := base.Snapshot(), base.tick;
      var req := Request.BatchGet(breq.rangeID, KeysOf(breq.items));
      assert KeysOf(breq.items)[0] == breq.key;
      var reply := base.DoNodeRequest(breq.key, req);
      AnswerMeans(base.world, base.cache.entries, req, breq.key, start, base.Snapshot(), asked, base.tick, reply);
      if reply.Err? { return Err(reply.error); }
      if reply.value.Moved? {
        AnswerMoved(base.world, base.cache.entries, req, breq.key, start, base.Snapshot(), asked, base.tick, reply);
        NoAnswers(base.world, base.intents, vals);
        return Ok([]);
      }
      var kvs := ParseBatchGetResponse(KeysOf(breq.items), reply.value.values, vals);
      AllNamedInOrder(kvs, breq.items);
      return Ok(kvs);
    }

    /** doBatchGet: a batch per range; None, io.EOF, when nothing is waited for. Unless some
        range has moved, every key waited for is answered. */
    method DoBatchGet(vals: Values) returns (r: ClientResult<Option<seq<Item>>>)
      requires base.Valid()
      modifies base, base.cache
      ensures base.Valid() && base.tick >= old(base.tick) && base.intents == old(base.intents) && base.log == old(base.log)
      ensures r.Ok? ==> (r.value.None? <==> Pending(vals) == {})
      ensures r.Ok? && r.value.Some? ==> Answers(base.world, base.intents, vals, r.value.value)
      ensures r.Ok? && r.value.Some? ==>
                (forall k :: k in Pending(vals) ==> Named(r.value.value, UserKey(k))) || MovedBetween(base.world, old(base.tick), base.tick)
      ensures r.Err? ==> RequestError(r.error) && !Calm(base.world)
    {
      hide base.Valid, Named, Routed, Guided, UserKey, Asks, Answers, MovedBetween, Lists, Pending, Asked;
      var created;
      ghost var items, route;
      created, items, route := CreateBatchRequests(vals);
      if created.Err? { return Err(created.error); }
      var breqs := created.value;
      NothingAsked(vals, breqs, items, route);
      var order := Enumerate(breqs.Keys);
      ListsNothing(order, breqs.Keys);
      if order == [] { return Ok(None); }
      ListsAt(order, breqs.Keys, 0);
      var r0 := order[0];
      assert r0 in breqs;
      assert exists r :: r in breqs;
      assert Pending(vals) != {};
      var kvs := [];
      NoAnswers(base.world, base.intents, vals);
      for i := 0 to |order|
        invariant base.Valid() && base.tick >= old(base.tick) && base.intents == old(base.intents) && base.log == old(base.log)
        invariant Answers(base.world, base.intents, vals, kvs)
        invariant (forall j :: 0 <= j < i ==> AllNamed(kvs, breqs[order[j]].items)) || MovedBetween(base.world, old(base.tick), base.tick)
      {
        ListsAt(order, breqs.Keys, i);
        BatchIsAsked(vals, breqs, items, route, order[i]);
        ghost var before := base.tick;
        var got := GetBatch(breqs[order[i]], vals);
        if got.Err? { return Err(got.error); }
        AnswersMore(base.world, base.intents, vals, kvs, got.value);
        if !AllNamed(got.value, breqs[order[i]].items) { MovedWithin(base.world, old(base.tick), before, base.tick, base.tick); }
        if MovedBetween(base.world, old(base.tick), before) { MovedWithin(base.world, old(base.tick), old(base.tick), before, base.tick); }
        forall j | 0 <= j < i && AllNamed(kvs, breqs[order[j]].items) ensures AllNamed(kvs + got.value, breqs[order[j]].items) {
          NamedMore(kvs, got.value, breqs[order[j]].items);
        }
        NamedMore(kvs, got.value, breqs[order[i]].items);
        kvs := kvs + got.value;
      }
      if !MovedBetween(base.world, old(base.tick), base.tick) {
        forall k | k in Pending(vals) ensures Named(kvs, UserKey(k)) {
          AskedIsNamed(vals, breqs, items, route, order, kvs, k);
        }
      }
      return Ok(Some(kvs));
    }

    /** One round of BatchGet: None at the end; otherwise nothing is waited for any more,
        unless some batch met a moved range. */
    method Round(vals: Values, ghost wanted: set<Key>) returns (r: ClientResult<Option<Values>>)
      requires base.Valid() && Partial(base.world, base.intents, wanted, vals)
      modifies base, base.cache
      ensures base.Valid() && base.tick >= old(base.tick) && base.intents == old(base.intents) && base.log == old(base.log)
      ensures r.Ok? ==> (r.value.None? <==> Pending(vals) == {})
      ensures r.Ok? && r.value.Some? ==> Partial(base.world, base.intents, wanted, r.value.value)
      ensures r.Ok? && r.value.Some? ==>
                || Pending(r.value.value) == {}
                || (Pending(r.value.value) <= Pending(vals) && MovedBetween(base.world, old(base.tick), base.tick))
      ensures r.Err? ==> RequestError(r.error) && !Calm(base.world)
    {
      hide base.Valid, Partial, MovedBetween, Pending;
      var got := DoBatchGet(vals);
      if got.Err? { return Err(got.error); }
      if got.value.None? { return Ok(None); }
      var kvs := got.value.value;
      var next := Merge(vals, kvs, base.world, base.intents, wanted);
      if !MovedBetween(base.world, old(base.tick), base.tick) { AllAnswered(vals, kvs, next); }
      return Ok(Some(next));
    }

    /** The rounds of BatchGet, up to a number of them; None when it would go on. In every
        world, whatever the ranges do, it returns exactly the wanted keys that exist, with
        their values, if it returns a result at all. It goes on for more than two rounds only
        as long as ranges keep moving. */
    method BatchGetWithin(keys: seq<Key>, rounds: nat) returns (r: Option<ClientResult<Values>>)
      requires base.Valid()
      modifies base, base.cache
      ensures base.Valid() && base.intents == old(base.intents) && base.log == old(base.log)
      ensures r.Some? && r.value.Ok? ==> r.value.value == Lookup(base.world, base.intents, set k | k in keys)
      ensures r.Some? && r.value.Err? ==> RequestError(r.value.error) && !Calm(base.world)
      ensures forall settled: nat :: Settles(base.world, settled) && settled + 2 <= rounds ==> r.Some?
    {
      ghost var wanted := set k | k in keys;
      var vals: Values := map k | k in keys :: [];
      NothingKnown(base.world, base.intents, wanted, vals);
      ghost var idle := 0;
      hide base.Valid, Partial, Lookup, Pending, Settles, MovedBetween;
      for i := 0 to rounds
        invariant base.Valid() && base.intents == old(base.intents) && base.log == old(base.log)
        invariant Partial(base.world, base.intents, wanted, vals)
        invariant i <= idle + (if Pending(vals) == {} then 1 else 0) && idle <= base.tick
        invariant forall settled: nat :: Settles(base.world, settled) ==> idle <= settled
      {
        ghost var before := base.tick;
        var next := Round(vals, wanted);
        if next.Err? { return Some(Err(next.error)); }
        if next.value.None? {
          PartialIsLookup(base.world, base.intents, wanted, vals);
          return Some(Ok(vals));
        }
        vals := next.value.value;
        if Pending(vals) != {} {
          MovedIsLate(base.world, before, base.tick, idle);
          idle := idle + 1;
        }
      }
      return None;
    }

    /** BatchGet itself, in a world where ranges stop moving: then its loop ends. */
    method BatchGet(keys: seq<Key>, ghost settled: nat) returns (r: ClientResult<Values>)
      requires base.Valid() && Settles(base.world, settled)
      modifies base, base.cache
      ensures base.Valid() && base.intents == old(base.intents) && base.log == old(base.log)
      ensures r.Ok? ==> r.value == Lookup(base.world, base.intents, set k | k in keys)
      ensures r.Err? ==> RequestError(r.error) && !Calm(base.world)
    {
      ghost var wanted := set k | k in keys;
      var vals: Values := map k | k in keys :: [];
      NothingKnown(base.world, base.intents, wanted, vals);
      hide base.Valid, Partial, Lookup;
      while true
        invariant base.Valid() && base.intents == old(base.intents) && base.log == old(base.log)
        invariant Partial(base.world, base.intents, wanted, vals)
        decreases Pending(vals), settled - base.tick
      {
        var next := Round(vals, wanted);
        if next.Err? { return Err(next.error); }
        if next.value.None? {
          PartialIsLookup(base.world, base.intents, wanted, vals);
          return Ok(vals);
        }
        vals := next.value.value;
      }
    }
  }

  /** From some request on no range is reported as moved. */
  ghost predicate Settles(w: World, settled: nat) {
    forall t: nat :: w.fault(t).RangeNotFound? ==> t < settled
  }

  lemma MovedIsLate(w: World, a: nat, b: nat, idle: nat)
    requires MovedBetween(w, a, b) && idle <= a
    ensures idle < b && forall settled: nat :: Settles(w, settled) ==> idle < settled
  {
    var t: nat :| a <= t < b && w.fault(t).RangeNotFound?;
  }

  lemma NothingKnown(w: World, intents: map<Key, Bytes>, wanted: set<Key>, vals: Values)
    requires vals.Keys == wanted && forall k :: k in vals ==> vals[k] == []
    ensures Partial(w, intents, wanted, vals) && Pending(vals) == wanted
  {
  }

  lemma ListsNothing<T(!new)>(q: seq<T>, s: set<T>)
    requires Lists(q, s)
    ensures q == [] <==> !exists x :: x in s
  {
    if q != [] { assert q[0] in q; }
  }

  lemma NoAnswers(w: World, intents: map<Key, Bytes>, vals: Values)
    ensures Answers(w, intents, vals, [])
  {
  }

  lemma AsksSkip(vals: Values, order: seq<Key>, n: nat, breqs: map<int, Batch>, items: seq<Item>, route: seq<int>)
    requires AsksSome(vals, order, n, breqs, items, route) && n < |order| && order[n] !in Pending(vals)
    ensures AsksSome(vals, order, n + 1, breqs, items, route)
  {
  }
}
