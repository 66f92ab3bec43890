/** Iterators: walking from range to range with scans of two rows. */
module Iteration {
  import opened Keys
  import opened Wrappers
  import opened RangeCache
  import opened Cluster
  import opened NodeRequest
  import opened Batches
  import opened TxnLog
  import opened Txn

  // ------------------------------------------------------------ what one step finds

  /** No key exists in [lo, hi). */
  ghost predicate Empty(w: World, intents: map<Key, Bytes>, lo: Key, hi: Key) {
    forall x :: Leq(lo, x) && Less(x, hi) ==> Visible(w, intents, x) == []
  }

  /** No key exists strictly between lo and hi. */
  ghost predicate Gap(w: World, intents: map<Key, Bytes>, lo: Key, hi: Key) {
    forall x :: Less(lo, x) && Less(x, hi) ==> Visible(w, intents, x) == []
  }

  /** The first existing entry from a key on, and where to go on from; or the end. */
  ghost predicate Found(w: World, intents: map<Key, Bytes>, from: Key, r: Option<Item>, next: Key) {
    if r.None? then next == [] && Empty(w, intents, from, END_PREFIX)
    else
      && r.value.value == Visible(w, intents, r.value.key) != []
      && Leq(from, r.value.key) && Empty(w, intents, from, r.value.key)
      && Less(r.value.key, next) && Leq(next, END_PREFIX) && Gap(w, intents, r.value.key, next)
  }

  lemma EmptyOn(w: World, intents: map<Key, Bytes>, lo: Key, mid: Key, hi: Key)
    requires Empty(w, intents, lo, mid) && Empty(w, intents, mid, hi)
    ensures Empty(w, intents, lo, hi)
  {
    forall x | Leq(lo, x) && Less(x, hi) ensures Visible(w, intents, x) == [] { Trichotomy(x, mid); }
  }

  lemma EmptyAtOnce(w: World, intents: map<Key, Bytes>, k: Key)
    ensures Empty(w, intents, k, k)
  {
    forall x ensures !(Leq(k, x) && Less(x, k)) { Trichotomy(x, k); }
  }

  /** A scan without rows says its whole interval is empty. */
  lemma NoRows(w: World, intents: map<Key, Bytes>, lo: Key, hi: Key)
    requires CorrectScan(w, intents, lo, hi, [])
    ensures Empty(w, intents, lo, hi)
  {
    forall x | Leq(lo, x) && Less(x, hi) ensures Visible(w, intents, x) == [] {
      assert !InScan([], x);
    }
  }

  /** The first row is the first existing entry, and nothing exists between it and the
      second row, or the end of the interval if there is none. */
  lemma FirstRow(w: World, intents: map<Key, Bytes>, lo: Key, hi: Key, rows: seq<Item>)
    requires CorrectScan(w, intents, lo, hi, rows) && rows != [] && Leq(hi, END_PREFIX)
    ensures Found(w, intents, lo, Some(rows[0]), if |rows| == 1 then hi else rows[1].key)
  {
    var first, next := rows[0].key, if |rows| == 1 then hi else rows[1].key;
    LeqTransitive(next, hi, END_PREFIX);
    forall x | Leq(lo, x) && Less(x, first) ensures Visible(w, intents, x) == [] {
      LessTransitive(x, first, hi);
      NotInScan(rows, x);
    }
    forall x | Less(first, x) && Less(x, next) ensures Visible(w, intents, x) == [] {
      LeqTransitive(lo, first, x);
      LeqTransitive(x, next, hi);
      NotInScan(rows, x);
    }
  }

  lemma NotInScan(rows: seq<Item>, x: Key)
    requires rows != [] && (|rows| == 2 ==> Less(rows[0].key, rows[1].key))
    requires Less(x, rows[0].key) || (Less(rows[0].key, x) && (|rows| == 2 ==> Less(x, rows[1].key)))
    ensures !InScan(rows, x)
  {
    LessIrreflexive(x);
    if |rows| == 2 {
      Trichotomy(x, rows[1].key);
      if Less(x, rows[0].key) { LessTransitive(x, rows[0].key, rows[1].key); }
    }
  }

  // ------------------------------------------------------------ what has been yielded

  /** The existing entries of [lo, hi) in order, each once. */
  ghost predicate Yields(w: World, intents: map<Key, Bytes>, lo: Key, hi: Key, items: seq<Item>) {
    && Ascending(KeysOf(items))
    && (forall i :: 0 <= i < |items| ==>
          Leq(lo, items[i].key) && Less(items[i].key, hi) && items[i].value == Visible(w, intents, items[i].key) != [])
    && (forall x :: Leq(lo, x) && Less(x, hi) && Visible(w, intents, x) != [] ==> x in KeysOf(items))
  }

  lemma YieldsNothing(w: World, intents: map<Key, Bytes>, k: Key)
    ensures Yields(w, intents, k, k, [])
  {
    forall x ensures !(Leq(k, x) && Less(x, k)) { Trichotomy(x, k); }
  }

  lemma YieldsToTheEnd(w: World, intents: map<Key, Bytes>, lo: Key, hi: Key, items: seq<Item>)
    requires Yields(w, intents, lo, hi, items) && Leq(hi, END_PREFIX) && Found(w, intents, hi, None, [])
    ensures Yields(w, intents, lo, END_PREFIX, items)
  {
    forall i | 0 <= i < |items| ensures Less(items[i].key, END_PREFIX) { LeqTransitive(items[i].key, hi, END_PREFIX); }
    forall x | Leq(lo, x) && Less(x, END_PREFIX) && Visible(w, intents, x) != [] ensures x in KeysOf(items) {
      Trichotomy(x, hi);
    }
  }

  lemma YieldsOneMore(w: World, intents: map<Key, Bytes>, lo: Key, hi: Key, items: seq<Item>, x: Item, next: Key)
    requires Yields(w, intents, lo, hi, items) && Leq(lo, hi) && Found(w, intents, hi, Some(x), next)
    ensures Yields(w, intents, lo, next, items + [x])
  {
    KeysOfMore(items, x);
    LeqTransitive(lo, hi, x.key);
    forall i | 0 <= i < |items| ensures Less(items[i].key, x.key) && Less(items[i].key, next) {
      LeqTransitive(items[i].key, hi, x.key);
      LessTransitive(items[i].key, x.key, next);
    }
    forall k | Leq(lo, k) && Less(k, next) && Visible(w, intents, k) != [] ensures k in KeysOf(items + [x]) {
      Trichotomy(k, hi);
      LessTotal(k, x.key);
      assert (KeysOf(items) + [x.key])[|items|] == x.key;
      if Less(k, hi) { assert k in KeysOf(items); }
    }
  }

  // ------------------------------------------------------------ the iterator

  /** The range ends still ahead of a key. */
  ghost function Ahead(w: World, k: Key): set<Key> {
    set b | b in w.bounds && Less(k, b)
  }

  lemma FewerAhead(w: World, k: Key, end: Key)
    requires Less(k, end) && end in w.bounds
    ensures Ahead(w, end) < Ahead(w, k)
  {
    forall b | b in Ahead(w, end) ensures b in Ahead(w, k) { LessTransitive(k, end, b); }
    LessIrreflexive(end);
    assert end in Ahead(w, k) && end !in Ahead(w, end);
  }

  lemma InUserSpace(k: Key)
    requires Leq(USER_PREFIX, k) && Less(k, END_PREFIX)
    ensures InSpace(k) && USER_PREFIX <= k
  {
    assert Less(TXN_PREFIX, USER_PREFIX);
    LeqTransitive(TXN_PREFIX, USER_PREFIX, k);
    assert k[0] < END_PREFIX[0] || !Less(k[1..], END_PREFIX[1..]);
  }

  /** A scanned interval without rows moves the search past it. */
  lemma Onward(w: World, intents: map<Key, Bytes>, from: Key, at: Key, range: RangeDescriptor, rows: seq<Item>)
    requires Leq(USER_PREFIX, from) && Leq(from, at) && Empty(w, intents, from, at)
    requires Contains(range, at) && range.endKey != [] && range.endKey in w.bounds && Leq(range.endKey, END_PREFIX)
    requires CorrectScan(w, intents, at, range.endKey, rows)
    ensures rows == [] ==> Leq(from, range.endKey) && Empty(w, intents, from, range.endKey) && Ahead(w, range.endKey) < Ahead(w, at)
    ensures rows != [] ==> Found(w, intents, from, Some(rows[0]), if |rows| == 1 then range.endKey else rows[1].key)
  {
    FewerAhead(w, at, range.endKey);
    hide CorrectScan, Ahead;
    if rows == [] {
      NoRows(w, intents, at, range.endKey);
      EmptyOn(w, intents, from, at, range.endKey);
      LeqTransitive(from, at, range.endKey);
    } else {
      FirstRow(w, intents, at, range.endKey, rows);
      EmptyOn(w, intents, from, at, rows[0].key);
      LeqTransitive(from, at, rows[0].key);
    }
  }

  /** Where an iterator stands and what it has yielded; `steady` as long as it has always met
      the intents of the moment it was made. */
  datatype Cursor = Cursor(key: Key, scanKey: Key, result: Option<Item>, yielded: seq<Item>, failed: bool, steady: bool)

  predicate InBounds(items: seq<Item>, lo: Key, hi: Key) {
    forall i :: 0 <= i < |items| ==> Leq(lo, items[i].key) && Less(items[i].key, hi)
  }

  /** Entries come in ascending order, below scanKey. A steady iterator has yielded all that
      exists between the key sought and scanKey; at the end, all that exists. */
  ghost predicate OnCourse(w: World, seen: map<Key, Bytes>, c: Cursor) {
    && Leq(USER_PREFIX, c.key) && Ascending(KeysOf(c.yielded))
    && (c.scanKey != [] ==> Leq(c.key, c.scanKey) && Leq(c.scanKey, END_PREFIX) && InBounds(c.yielded, c.key, c.scanKey))
    && (c.steady && c.scanKey != [] ==> Yields(w, seen, c.key, c.scanKey, c.yielded))
    && (c.steady && c.scanKey == [] && !c.failed ==> Yields(w, seen, c.key, END_PREFIX, c.yielded))
    && (c.result.Some? ==> c.scanKey != [] && c.yielded != [] && c.result.value == c.yielded[|c.yielded| - 1])
  }

  /** A step that found r under the intents `now`. */
  ghost function Stepped(c: Cursor, r: Option<Item>, next: Key, seen: map<Key, Bytes>, now: map<Key, Bytes>): Cursor {
    Cursor(c.key, next, r, c.yielded + (if r.Some? then [r.value] else []), false, c.steady && now == seen)
  }

  /** A step that met an error. */
  ghost function Stopped(c: Cursor): Cursor {
    c.(result := None, scanKey := [], failed := true)
  }

  /** One step under the intents `now`: the first entry from scanKey on, or an error. */
  ghost predicate Advanced(w: World, seen: map<Key, Bytes>, now: map<Key, Bytes>, c: Cursor, to: Cursor) {
    if to.failed then to == Stopped(c)
    else Found(w, now, c.scanKey, to.result, to.scanKey) && to == Stepped(c, to.result, to.scanKey, seen, now)
  }

  lemma InBoundsMore(items: seq<Item>, lo: Key, hi: Key, x: Item, next: Key)
    requires Ascending(KeysOf(items)) && InBounds(items, lo, hi) && Leq(lo, hi) && Leq(hi, x.key) && Less(x.key, next)
    ensures Ascending(KeysOf(items + [x])) && InBounds(items + [x], lo, next)
  {
    KeysOfMore(items, x);
    LeqTransitive(lo, hi, x.key);
    forall i | 0 <= i < |items| ensures Less(items[i].key, x.key) && Less(items[i].key, next) {
      LeqTransitive(items[i].key, hi, x.key);
      LessTransitive(items[i].key, x.key, next);
    }
  }

  lemma StaysOnCourse(w: World, seen: map<Key, Bytes>, now: map<Key, Bytes>, c: Cursor, r: Option<Item>, next: Key)
    requires OnCourse(w, seen, c) && c.scanKey != [] && Found(w, now, c.scanKey, r, next)
    ensures var to := Stepped(c, r, next, seen, now);
            && OnCourse(w, seen, to) && Advanced(w, seen, now, c, to)
            && to.key == c.key && to.scanKey == next && to.result == r && !to.failed
  {
    hide Yields, Ascending, Empty, Gap;
    if r.Some? {
      InBoundsMore(c.yielded, c.key, c.scanKey, r.value, next);
      LeqTransitive(c.key, c.scanKey, r.value.key);
      LeqTransitive(c.key, r.value.key, next);
      if c.steady && now == seen { YieldsOneMore(w, seen, c.key, c.scanKey, c.yielded, r.value, next); }
    } else {
      assert c.yielded + [] == c.yielded;
      if c.steady && now == seen { YieldsToTheEnd(w, seen, c.key, c.scanKey, c.yielded); }
    }
  }

  class Iter {
    const txn: DbTxn
    /** The key sought and the intents the transaction had then. */
    const key: Key
    ghost const seen: map<Key, Bytes>
    var result: Option<Item>
    /** Where to go on from; nil, that is empty, at the end and after an error. */
    var scanKey: Key
    ghost var cursor: Cursor

    constructor (txn: DbTxn, k: Key)
      requires txn.Valid()
      ensures Valid() && this.txn == txn && key == scanKey == UserKey(k) && seen == txn.base.intents
      ensures result.None? && cursor == Cursor(key, key, None, [], false, true)
    {
      UserKeysInSpace(k);
      YieldsNothing(txn.base.world, txn.base.intents, UserKey(k));
      this.txn, key, seen := txn, UserKey(k), txn.base.intents;
      result, scanKey, cursor := None, UserKey(k), Cursor(UserKey(k), UserKey(k), None, [], false, true);
    }

    ghost predicate Valid()
      reads this, txn, txn.base, txn.base.cache
    {
      && txn.Valid() && OnCourse(txn.base.world, seen, cursor)
      && cursor.key == key && cursor.scanKey == scanKey && cursor.result == result
    }

    /** scanMutilRange: from range to range until a scan has a row. */
    method ScanMutilRange(from: Key) returns (r: ClientResult<Option<Item>>, next: Key)
      requires txn.Valid() && Leq(USER_PREFIX, from) && Leq(from, END_PREFIX)
      modifies txn.base, txn.base.cache
      ensures txn.Valid() && txn.base.intents == old(txn.base.intents) && txn.base.log == old(txn.base.log)
      ensures r.Ok? ==> Found(txn.base.world, txn.base.intents, from, r.value, next)
      ensures r.Err? ==> next == [] && RequestError(r.error) && !Calm(txn.base.world)
    {
      hide Kept, CommitSafe, WellSent, Calm, InSpace, txn.base.Valid, Contains, Found, Empty, CorrectScan, Ahead, Answered, Guided,
           Requested, Route, Holding;
      var at := from;
      EmptyAtOnce(txn.base.world, txn.base.intents, from);
      while true
        invariant txn.Valid() && txn.base.intents == old(txn.base.intents) && txn.base.log == old(txn.base.log)
        invariant Leq(from, at) && Leq(at, END_PREFIX) && Empty(txn.base.world, txn.base.intents, from, at)
        decreases Ahead(txn.base.world, at)
      {
        EndPrefixOnlyAtEnd(at);
        if HasPrefix(at, END_PREFIX) {
          EndIsFound(txn.base.world, txn.base.intents, from);
          return Ok(None), [];
        }
        LeqTransitive(USER_PREFIX, from, at);
        InUserSpace(at);
        ghost var start, asked := txn.base.Snapshot(), txn.base.tick;
        var reply := txn.base.DoNodeRequest(at, Scan(at));
        AnswerMeans(txn.base.world, txn.base.cache.entries, Scan(at), at, start, txn.base.Snapshot(), asked, txn.base.tick, reply);
        if reply.Err? { return Err(reply.error), []; }
        var range, rows := reply.value.range, reply.value.rows;
        Onward(txn.base.world, txn.base.intents, from, at, range, rows);
        if |rows| > 0 { return Ok(Some(rows[0])), if |rows| == 1 then range.endKey else rows[1].key; }
        at := range.endKey;
      }
    }

    /** Next: the next entry that exists now, at or after scanKey, or none at the end. An
        error also ends the iteration, which the caller is not told; after the end a call
        panics. */
    method Next() returns (e: Option<ClientError>)
      requires Valid()
      modifies this, txn.base, txn.base.cache
      ensures Valid() && txn.base.log == old(txn.base.log) && txn.base.intents == old(txn.base.intents)
      ensures e == if old(scanKey) == [] then Some(Panic) else None
      ensures e.Some? ==> cursor == old(cursor)
      ensures e.None? ==> Advanced(txn.base.world, seen, txn.base.intents, old(cursor), cursor)
      ensures e.None? && Calm(txn.base.world) ==> !cursor.failed
    {
      if scanKey == [] { return Some(Panic); }
      ScansUserSpace(txn.base.world, seen, cursor);
      hide txn.Valid, Calm, OnCourse, Found, Stepped, Advanced;
      ghost var c := cursor;
      var r, next := ScanMutilRange(scanKey);
      StopsOnCourse(txn.base.world, seen, txn.base.intents, c);
      if r.Ok? {
        StaysOnCourse(txn.base.world, seen, txn.base.intents, c, r.value, next);
        Accept(r.value, next, Stepped(c, r.value, next, seen, txn.base.intents));
      } else {
        Accept(None, [], Stopped(c));
      }
      return None;
    }

    /** What the scan found becomes the current entry. */
    method Accept(r: Option<Item>, next: Key, ghost to: Cursor)
      requires txn.Valid() && OnCourse(txn.base.world, seen, to)
      requires to.key == key && to.scanKey == next && to.result == r
      modifies this
      ensures Valid() && result == r && scanKey == next && cursor == to
    {
      hide txn.Valid, OnCourse;
      result, scanKey, cursor := r, next, to;
    }

    /** The current key without the user prefix. */
    method CurrentKey() returns (k: Option<Key>)
      requires Valid()
      ensures k.None? <==> result.None?
      ensures k.Some? ==> UserKey(k.value) == result.value.key
    {
      if result.None? { return None; }
      assert result.value == cursor.yielded[|cursor.yielded| - 1];
      LeqTransitive(USER_PREFIX, key, result.value.key);
      LeqTransitive(result.value.key, scanKey, END_PREFIX);
      InUserSpace(result.value.key);
      return Some(result.value.key[|USER_PREFIX|..]);
    }
  }

  lemma StopsOnCourse(w: World, seen: map<Key, Bytes>, now: map<Key, Bytes>, c: Cursor)
    requires OnCourse(w, seen, c)
    ensures OnCourse(w, seen, Stopped(c)) && Advanced(w, seen, now, c, Stopped(c))
  {
  }

  lemma ScansUserSpace(w: World, seen: map<Key, Bytes>, c: Cursor)
    requires OnCourse(w, seen, c) && c.scanKey != []
    ensures Leq(USER_PREFIX, c.scanKey) && Leq(c.scanKey, END_PREFIX)
  {
    LeqTransitive(USER_PREFIX, c.key, c.scanKey);
  }

  /** What lies below scanKey is never yielded any more, even if it was written since. */
  lemma NothingBehind(w: World, now: map<Key, Bytes>, c: Cursor, r: Option<Item>, next: Key, seen: map<Key, Bytes>)
    requires Found(w, now, c.scanKey, r, next)
    ensures forall k :: Less(k, c.scanKey) ==> (k in KeysOf(Stepped(c, r, next, seen, now).yielded) <==> k in KeysOf(c.yielded))
  {
    if r.Some? {
      KeysOfMore(c.yielded, r.value);
      forall k | Less(k, c.scanKey) ensures k != r.value.key { Trichotomy(k, c.scanKey); }
    } else {
      assert c.yielded + [] == c.yielded;
    }
  }

  /** Seek: flush the buffer, then find the first entry. Afterwards all that the transaction
      sees is what the iterator walks over. */
  method Seek(txn: DbTxn, k: Key) returns (r: ClientResult<Iter>)
    requires txn.Valid()
    modifies txn, txn.base, txn.base.cache
    ensures txn.Valid()
    ensures r == Err(InvalidKey) <==> k == []
    ensures Calm(txn.base.world) && k != [] && old(txn.pool).Some? ==> r.Ok?
    ensures Calm(txn.base.world) && r.Ok? ==> !r.value.cursor.failed
    ensures SentByFlush(old(txn.kvCache), old(txn.base.log), txn.base.log)
    ensures r.Ok? ==> r.value.Valid() && fresh(r.value) && r.value.txn == txn && r.value.key == UserKey(k)
    ensures r.Ok? ==> r.value.cursor.steady && r.value.seen == txn.base.intents && txn.kvCache == map[]
    ensures r.Ok? ==> forall x :: Visible(txn.base.world, r.value.seen, x)
                                  == View(txn.base.world, old(txn.kvCache), old(txn.base.intents), x)
    ensures r.Ok? ==> AtStart(r.value.cursor)
    ensures forall x :: View(txn.base.world, txn.kvCache, txn.base.intents, x)
                        == View(txn.base.world, old(txn.kvCache), old(txn.base.intents), x)
  {
    if k == [] { return Err(InvalidKey); }
    hide Kept, CommitSafe, WellSent, Calm, InSpace, Laid, Honest, GetAnswer, Delivered, SentByFlush, Contains, Disjoint,
         RangeCache.WellFormed, Visible;
    var e;
    ghost var items, route;
    e, items, route := txn.DoPutData();
    if e.Some? { return Err(e.value); }
    var it := new Iter(txn, k);
    var _ := it.Next();
    return Ok(it);
  }

  /** The entries that may still come. */
  ghost function Remaining(w: World, intents: map<Key, Bytes>, from: Key): set<Key> {
    set x | x in intents.Keys + w.base.Keys && Leq(from, x)
  }

  lemma FewerRemain(w: World, intents: map<Key, Bytes>, from: Key, x: Key, next: Key)
    requires Leq(from, x) && Less(x, next) && Visible(w, intents, x) != []
    ensures Remaining(w, intents, next) < Remaining(w, intents, from)
  {
    LeqTransitive(from, x, next);
    forall y | y in Remaining(w, intents, next) ensures y in Remaining(w, intents, from) { LeqTransitive(from, next, y); }
    Trichotomy(x, next);
    assert x in Remaining(w, intents, from) && x !in Remaining(w, intents, next);
  }

  /** An iterator as Seek hands it out: at its first entry, or already at its end. */
  ghost predicate AtStart(c: Cursor) {
    if c.result.Some? then !c.failed && c.yielded == [c.result.value] else c.scanKey == [] && c.yielded == []
  }

  /** Next until the end, from wherever the iterator stands and whatever was flushed before:
      without an error, exactly what exists now from scanKey on. */
  method Rest(it: Iter) returns (items: seq<Item>)
    requires it.Valid() && it.scanKey != []
    modifies it, it.txn.base, it.txn.base.cache
    ensures it.Valid() && it.scanKey == [] && it.result.None?
    ensures it.txn.base.log == old(it.txn.base.log) && it.txn.base.intents == old(it.txn.base.intents)
    ensures it.cursor.yielded == old(it.cursor.yielded) + items
    ensures InBounds(items, old(it.scanKey), END_PREFIX)
    ensures !it.cursor.failed ==> Yields(it.txn.base.world, it.txn.base.intents, old(it.scanKey), END_PREFIX, items)
    ensures old(it.cursor.steady) && it.txn.base.intents == it.seen ==> it.cursor.steady
    ensures Calm(it.txn.base.world) ==> !it.cursor.failed
  {
    hide it.txn.Valid, Calm, Yields, Remaining, Empty, Gap, KeysOf, OnCourse, InBounds;
    ghost var from, start := it.scanKey, it.cursor.yielded;
    items := [];
    RestStarts(it.txn.base.world, it.txn.base.intents, it.seen, it.cursor);
    while it.scanKey != []
      invariant it.Valid() && it.txn.base.log == old(it.txn.base.log) && it.txn.base.intents == old(it.txn.base.intents)
      invariant it.cursor.yielded == start + items && Resting(it.txn.base.world, it.txn.base.intents, from, it.cursor, items)
      invariant old(it.cursor.steady) && it.txn.base.intents == it.seen ==> it.cursor.steady
      invariant it.scanKey == [] && Calm(it.txn.base.world) ==> !it.cursor.failed
      decreases it.scanKey != [], Remaining(it.txn.base.world, it.txn.base.intents, it.scanKey)
    {
      ghost var c := it.cursor;
      var _ := it.Next();
      RestGoesOn(it.txn.base.world, it.txn.base.intents, it.seen, from, c, it.cursor, items);
      if it.result.Some? {
        assert start + items + [it.result.value] == start + (items + [it.result.value]);
        items := items + [it.result.value];
      }
    }
  }

  /** What the rest of an iteration has yielded so far, all under the same intents. */
  ghost predicate Resting(w: World, now: map<Key, Bytes>, from: Key, c: Cursor, items: seq<Item>) {
    && InBounds(items, from, END_PREFIX)
    && (c.scanKey != [] ==> Leq(from, c.scanKey) && Leq(c.scanKey, END_PREFIX) && Yields(w, now, from, c.scanKey, items))
    && (c.scanKey == [] ==> c.result.None? && (!c.failed ==> Yields(w, now, from, END_PREFIX, items)))
  }

  lemma RestStarts(w: World, now: map<Key, Bytes>, seen: map<Key, Bytes>, c: Cursor)
    requires OnCourse(w, seen, c) && c.scanKey != []
    ensures Resting(w, now, c.scanKey, c, [])
  {
    YieldsNothing(w, now, c.scanKey);
  }

  lemma RestGoesOn(w: World, now: map<Key, Bytes>, seen: map<Key, Bytes>, from: Key, c: Cursor, to: Cursor, items: seq<Item>)
    requires Resting(w, now, from, c, items) && c.scanKey != [] && Advanced(w, seen, now, c, to)
    ensures to.result.Some? ==> Resting(w, now, from, to, items + [to.result.value]) && to.yielded == c.yielded + [to.result.value]
    ensures to.result.None? ==> Resting(w, now, from, to, items) && to.yielded == c.yielded && to.scanKey == []
    ensures to.result.Some? ==> Remaining(w, now, to.scanKey) < Remaining(w, now, c.scanKey)
  {
    hide Yields, Remaining, Empty, Gap;
    if to.result.Some? {
      var x := to.result.value;
      YieldsOneMore(w, now, from, c.scanKey, items, x, to.scanKey);
      FewerRemain(w, now, c.scanKey, x.key, to.scanKey);
      LeqTransitive(from, c.scanKey, x.key);
      LeqTransitive(from, x.key, to.scanKey);
      LeqTransitive(x.key, to.scanKey, END_PREFIX);
      assert to.scanKey != [];
    } else {
      assert c.yielded + [] == c.yielded;
      if !to.failed { YieldsToTheEnd(w, now, from, c.scanKey, items); }
    }
  }

  /** A caller's loop: the current entry, then Next until the iterator is no longer valid. An
      iterator fresh from Seek, with no flush since, gives all there was; any other gives,
      after its entry, what exists now from scanKey on. */
  method Exhaust(it: Iter) returns (items: seq<Item>)
    requires it.Valid()
    modifies it, it.txn.base, it.txn.base.cache
    ensures it.Valid() && it.result.None? && it.txn.base.log == old(it.txn.base.log)
    ensures old(it.result).None? ==> items == [] && it.cursor == old(it.cursor)
    ensures old(it.result).Some? ==> items != [] && items[0] == old(it.result).value
    ensures old(it.result).Some? ==> it.cursor.yielded == old(it.cursor.yielded) + items[1..]
    ensures old(it.result).Some? && !it.cursor.failed ==>
              Yields(it.txn.base.world, it.txn.base.intents, old(it.scanKey), END_PREFIX, items[1..])
    ensures old(it.cursor.steady) && old(it.txn.base.intents) == it.seen && old(AtStart(it.cursor)) && !it.cursor.failed ==>
              Yields(it.txn.base.world, it.seen, it.key, END_PREFIX, items)
    ensures Calm(it.txn.base.world) ==> it.cursor.failed == (old(it.result).None? && old(it.cursor.failed))
  {
    hide it.txn.Valid, Calm, Yields, Remaining, Empty, Gap, KeysOf;
    if it.result.None? { return []; }
    var first := it.result.value;
    var rest := Rest(it);
    items := [first] + rest;
    assert items[1..] == rest;
  }

  /** The exact reach of an iterator that is still open when a write is flushed: without an
      error, its rest yields the key exactly when scanKey has not passed it yet. */
  method WrittenMeanwhile(it: Iter, k: Key, v: Bytes) returns (e: Option<ClientError>, items: seq<Item>)
    requires it.Valid() && it.scanKey != [] && v != []
    modifies it, it.txn, it.txn.base, it.txn.base.cache
    ensures it.Valid() && View(it.txn.base.world, it.txn.kvCache, it.txn.base.intents, UserKey(k)) == v
    ensures it.cursor.yielded == old(it.cursor.yielded) + items && InBounds(items, old(it.scanKey), END_PREFIX)
    ensures e.None? ==> it.scanKey == []
    ensures e.None? && !it.cursor.failed ==> (UserKey(k) in KeysOf(items) <==> Leq(old(it.scanKey), UserKey(k)))
  {
    UserKeysInSpace(k);
    hide it.txn.Valid, Calm, OnCourse, Found, KeysOf, GetAnswer, Delivered, SentByFlush, Visible, UserKey, Yields;
    items := [];
    var _ := it.txn.Set(k, v);
    assert View(it.txn.base.world, it.txn.kvCache, it.txn.base.intents, UserKey(k)) == v;
    hide View;
    ghost var sent, route;
    e, sent, route := it.txn.DoPutData();
    assert View(it.txn.base.world, it.txn.kvCache, it.txn.base.intents, UserKey(k)) == v;
    if e.Some? { return; }
    ghost var from := it.scanKey;
    items := Rest(it);
    if !it.cursor.failed { YieldedIffAhead(it.txn.base.world, it.txn.base.intents, from, items, UserKey(k)); }
  }

  lemma YieldedIffAhead(w: World, now: map<Key, Bytes>, from: Key, items: seq<Item>, x: Key)
    requires Yields(w, now, from, END_PREFIX, items)
    ensures x in KeysOf(items) <==> Leq(from, x) && Less(x, END_PREFIX) && Visible(w, now, x) != []
  {
    hide Visible, Ascending;
    if x in KeysOf(items) {
      var i :| 0 <= i < |items| && KeysOf(items)[i] == x;
    }
  }

  /** A write that is flushed behind an open iterator, between its entry and the key it has
      already fetched, is seen by the transaction but never yielded, however far the iteration
      goes. */
  method WrittenBehind(it: Iter, k: Key, v: Bytes) returns (e: Option<ClientError>)
    requires it.Valid() && it.result.Some? && v != []
    requires Less(it.result.value.key, UserKey(k)) && Less(UserKey(k), it.scanKey)
    modifies it, it.txn, it.txn.base, it.txn.base.cache
    ensures it.Valid() && View(it.txn.base.world, it.txn.kvCache, it.txn.base.intents, UserKey(k)) == v
    ensures e.None? ==> it.scanKey == []
    ensures UserKey(k) !in KeysOf(it.cursor.yielded)
  {
    LastIsAbove(it.cursor.yielded, UserKey(k));
    hide it.txn.Valid, Calm, OnCourse, KeysOf, Visible, UserKey, InBounds, View;
    ghost var from, start := it.scanKey, it.cursor.yielded;
    var items;
    e, items := WrittenMeanwhile(it, k, v);
    NotAmongLater(start, items, from, UserKey(k));
  }

  lemma NotAmongLater(items: seq<Item>, more: seq<Item>, from: Key, k: Key)
    requires k !in KeysOf(items) && InBounds(more, from, END_PREFIX) && Less(k, from)
    ensures k !in KeysOf(items + more)
  {
    forall i | 0 <= i < |items + more| ensures (items + more)[i].key != k {
      if i < |items| {
        assert KeysOf(items)[i] != k;
      } else {
        Trichotomy(k, from);
        assert Leq(from, more[i - |items|].key);
      }
    }
  }

  lemma LastIsAbove(items: seq<Item>, k: Key)
    requires Ascending(KeysOf(items)) && items != [] && Less(items[|items| - 1].key, k)
    ensures k !in KeysOf(items)
  {
    forall i | 0 <= i < |items| ensures items[i].key != k {
      if i < |items| - 1 { LessTransitive(KeysOf(items)[i], KeysOf(items)[|items| - 1], k); }
      LessIrreflexive(k);
    }
  }

  /** The entries from k on that the transaction sees, in key order, each once. */
  ghost predicate AllSeen(w: World, kv: Buffer, intents: map<Key, Bytes>, k: Key, items: seq<Item>) {
    && Ascending(KeysOf(items))
    && (forall i :: 0 <= i < |items| ==> items[i].value == View(w, kv, intents, items[i].key))
    && (forall x :: x in KeysOf(items) <==> Leq(UserKey(k), x) && Less(x, END_PREFIX) && View(w, kv, intents, x) != [])
  }

  lemma YieldsAllSeen(w: World, kv: Buffer, intents: map<Key, Bytes>, seen: map<Key, Bytes>, k: Key, items: seq<Item>)
    requires Yields(w, seen, UserKey(k), END_PREFIX, items)
    requires forall x :: Visible(w, seen, x) == View(w, kv, intents, x)
    ensures AllSeen(w, kv, intents, k, items)
  {
    hide View, Visible, Ascending;
    forall x | x in KeysOf(items) ensures Leq(UserKey(k), x) && Less(x, END_PREFIX) && View(w, kv, intents, x) != [] {
      var i :| 0 <= i < |items| && KeysOf(items)[i] == x;
    }
  }

  /** Seek and Next to the end, without an error on the way: exactly what the transaction saw
      when it sought, its own unflushed writes included, whatever the ranges were meanwhile. */
  method SeekAll(txn: DbTxn, k: Key) returns (r: ClientResult<seq<Item>>, ghost failed: bool)
    requires txn.Valid()
    modifies txn, txn.base, txn.base.cache
    ensures txn.Valid()
    ensures r.Err? ==> failed
    ensures r.Ok? && !failed ==> AllSeen(txn.base.world, old(txn.kvCache), old(txn.base.intents), k, r.value)
    ensures Calm(txn.base.world) && k != [] && old(txn.pool).Some? ==> r.Ok? && !failed
  {
    hide Kept, CommitSafe, WellSent, Calm, InSpace, Laid, Honest, Contains, Disjoint, RangeCache.WellFormed, Yields, AllSeen, View, Visible;
    var it := Seek(txn, k);
    if it.Err? { return Err(it.error), true; }
    var items := Exhaust(it.value);
    failed := it.value.cursor.failed;
    if !failed {
      YieldsAllSeen(txn.base.world, old(txn.kvCache), old(txn.base.intents), it.value.seen, k, items);
    }
    return Ok(items), failed;
  }

  lemma EndIsFound(w: World, intents: map<Key, Bytes>, from: Key)
    requires Empty(w, intents, from, END_PREFIX)
    ensures Found(w, intents, from, None, [])
  {
  }
}
