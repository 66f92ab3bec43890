/** What a transaction has written, sent and been told, as a history of events, and what the
    operations of a transaction keep of it. */
module TxnLog {
  import opened Keys
  import RangeCache
  import opened Wrappers
  import opened Cluster
  import opened NodeRequest
  import opened Batches

  /** The write buffer: None is the nil entry left by Delete. */
  type Buffer = map<Key, Option<Bytes>>

  /** The keys sent, by range. */
  type Pool = map<int, set<Key>>

  /** The value a buffered entry is stored as: a deletion is an empty value. */
  function Stored(v: Option<Bytes>): Bytes {
    if v.Some? then v.value else []
  }

  /** The buffer over own intents over the data. */
  function View(w: World, kv: Buffer, intents: map<Key, Bytes>, k: Key): Bytes {
    if k in kv then Stored(kv[k]) else Visible(w, intents, k)
  }

  /** What Get answers when no request fails. */
  function GetAnswer(w: World, kv: Buffer, intents: map<Key, Bytes>, k: Key): ClientResult<Bytes> {
    if k == [] && UserKey(k) !in kv then Err(InvalidKey)
    else if View(w, kv, intents, UserKey(k)) == [] then Err(NotExist)
    else Ok(View(w, kv, intents, UserKey(k)))
  }

  // ------------------------------------------------------------ written and acknowledged

  /** The value last written to a key. */
  function Latest(log: seq<Event>, k: Key): Option<Bytes> {
    if log == [] then None
    else
      var e := log[|log| - 1];
      if e.Written? && e.key == k then Some(e.value) else Latest(log[..|log| - 1], k)
  }

  /** A range acknowledged v for k after k was last written. */
  ghost predicate Acknowledged(log: seq<Event>, k: Key, v: Bytes) {
    exists i :: 0 <= i < |log| && Confirms(log[i], k, v) && NotWritten(log[i + 1..], k)
  }

  predicate Confirms(e: Event, k: Key, v: Bytes) {
    e.PutSent? && e.acked && Item(k, v) in e.items
  }

  predicate NotWritten(events: seq<Event>, k: Key) {
    forall i :: 0 <= i < |events| ==> !(events[i].Written? && events[i].key == k)
  }

  ghost predicate Begun(log: seq<Event>) {
    BeginSent(true) in log
  }

  /** Whatever was last written to k has been acknowledged. */
  ghost predicate Settled(log: seq<Event>, k: Key) {
    Latest(log, k).Some? ==> Acknowledged(log, k, Latest(log, k).value)
  }

  /** A commit may be sent: the transaction has begun and all its writes are acknowledged. */
  ghost predicate MayCommit(log: seq<Event>) {
    Begun(log) && forall k :: Settled(log, k)
  }

  /** Every commit that was sent might be. */
  ghost predicate CommitSafe(log: seq<Event>) {
    forall i :: 0 <= i < |log| && log[i].EndSent? && log[i].commit ==> MayCommit(log[..i])
  }

  predicate Quiet(events: seq<Event>) {
    forall i :: 0 <= i < |events| ==> !events[i].Written?
  }

  lemma {:induction false} LatestQuiet(log: seq<Event>, more: seq<Event>, k: Key)
    requires Quiet(more)
    ensures Latest(log + more, k) == Latest(log, k)
  {
    if more == [] {
      assert log + more == log;
    } else {
      var n := |more| - 1;
      assert (log + more)[..|log| + n] == log + more[..n];
      LatestQuiet(log, more[..n], k);
    }
  }

  lemma AcknowledgedQuiet(log: seq<Event>, more: seq<Event>, k: Key, v: Bytes)
    requires NotWritten(more, k) && Acknowledged(log, k, v)
    ensures Acknowledged(log + more, k, v)
  {
    var i :| 0 <= i < |log| && Confirms(log[i], k, v) && NotWritten(log[i + 1..], k);
    assert (log + more)[i] == log[i] && (log + more)[i + 1..] == log[i + 1..] + more;
  }

  lemma SettledQuiet(log: seq<Event>, more: seq<Event>, k: Key)
    requires Quiet(more) && Settled(log, k)
    ensures Settled(log + more, k)
  {
    LatestQuiet(log, more, k);
    if Latest(log, k).Some? { AcknowledgedQuiet(log, more, k, Latest(log, k).value); }
  }

  lemma MayCommitQuiet(log: seq<Event>, more: seq<Event>)
    requires Quiet(more) && MayCommit(log)
    ensures MayCommit(log + more)
  {
    forall k ensures Settled(log + more, k) { SettledQuiet(log, more, k); }
    assert forall e :: e in log ==> e in log + more;
  }

  /** Only sending a commit can make a history unsafe. */
  lemma OthersKeepSafe(log: seq<Event>, more: seq<Event>)
    requires CommitSafe(log) && forall i :: 0 <= i < |more| ==> !(more[i].EndSent? && more[i].commit)
    ensures CommitSafe(log + more)
  {
    var all := log + more;
    forall i | 0 <= i < |all| && all[i].EndSent? && all[i].commit ensures MayCommit(all[..i]) {
      assert i < |log| && all[..i] == log[..i];
    }
  }

  lemma EndsKeepSafe(log: seq<Event>, more: seq<Event>)
    requires CommitSafe(log) && MayCommit(log) && forall i :: 0 <= i < |more| ==> more[i].EndSent?
    ensures CommitSafe(log + more)
  {
    hide MayCommit;
    var all := log + more;
    forall i | 0 <= i < |all| && all[i].EndSent? && all[i].commit ensures MayCommit(all[..i]) {
      if i < |log| {
        assert all[..i] == log[..i];
      } else {
        assert all[..i] == log + more[..i - |log|];
        MayCommitQuiet(log, more[..i - |log|]);
      }
    }
  }

  // ------------------------------------------------------------ buffer and history

  /** A buffered key holds what was last written to it; any other key written has had it
      acknowledged, and it is among the intents. */
  ghost predicate TrackedAt(kv: Buffer, log: seq<Event>, intents: map<Key, Bytes>, k: Key) {
    if k in kv then Latest(log, k) == Some(Stored(kv[k]))
    else Settled(log, k) && (Latest(log, k).Some? ==> k in intents && intents[k] == Latest(log, k).value)
  }

  ghost predicate Tracked(kv: Buffer, log: seq<Event>, intents: map<Key, Bytes>) {
    forall k :: TrackedAt(kv, log, intents, k)
  }

  lemma WritingTracks(kv: Buffer, log: seq<Event>, intents: map<Key, Bytes>, key: Key, v: Option<Bytes>)
    requires Tracked(kv, log, intents)
    ensures Tracked(kv[key := v], log + [Written(key, Stored(v))], intents)
  {
    var next, e := kv[key := v], Written(key, Stored(v));
    assert (log + [e])[..|log|] == log;
    forall k ensures TrackedAt(next, log + [e], intents, k) {
      assert TrackedAt(kv, log, intents, k);
      if k != key && Latest(log, k).Some? && k !in kv { AcknowledgedQuiet(log, [e], k, Latest(log, k).value); }
    }
  }

  lemma QuietTracks(kv: Buffer, log: seq<Event>, intents: map<Key, Bytes>, more: seq<Event>)
    requires Tracked(kv, log, intents) && Quiet(more)
    ensures Tracked(kv, log + more, intents)
  {
    forall k ensures TrackedAt(kv, log + more, intents, k) {
      assert TrackedAt(kv, log, intents, k);
      LatestQuiet(log, more, k);
      if k !in kv { SettledQuiet(log, more, k); }
    }
  }

  lemma TrackedMayCommit(log: seq<Event>, intents: map<Key, Bytes>)
    requires Tracked(map[], log, intents) && Begun(log)
    ensures MayCommit(log)
  {
    forall k ensures Settled(log, k) { assert TrackedAt(map[], log, intents, k); }
  }

  // ------------------------------------------------------------ flushing

  predicate FromBuffer(kv: Buffer, x: Item) {
    x.key in kv && x.value == Stored(kv[x.key])
  }

  /** A chunk of buffered entries. */
  predicate ChunkOf(kv: Buffer, items: seq<Item>) {
    1 <= |items| <= MAX_BATCH_PUT_SIZE && forall j :: 0 <= j < |items| ==> FromBuffer(kv, items[j])
  }

  /** A batch of buffered entries, one per key, under the key of one. */
  predicate BatchOf(kv: Buffer, breq: Batch) {
    breq.key in kv && DistinctItems(breq.items) && forall j :: 0 <= j < |breq.items| ==> FromBuffer(kv, breq.items[j])
  }

  lemma SliceIsChunk(kv: Buffer, breq: Batch, s: nat, e: nat)
    requires BatchOf(kv, breq) && s < e <= |breq.items| && e - s <= MAX_BATCH_PUT_SIZE
    ensures breq.key in kv && ChunkOf(kv, breq.items[s..e]) && DistinctItems(breq.items[s..e])
  {
  }

  ghost predicate Done(events: seq<Event>, k: Key) {
    exists i, v :: 0 <= i < |events| && Confirms(events[i], k, v)
  }

  /** Other keys keep their intent; a buffered one keeps it or has the buffered value, and
      has it once it was acknowledged. */
  predicate FlushedAt(kv: Buffer, before: map<Key, Bytes>, after: map<Key, Bytes>, done: bool, k: Key) {
    if k !in kv then SameAt(before, after, k)
    else (k in after && after[k] == Stored(kv[k])) || (!done && SameAt(before, after, k))
  }

  /** The nodes contacted were those of ranges with a buffered key. */
  ghost predicate ForBuffer(kv: Buffer, cs: seq<Contact>) {
    forall i :: 0 <= i < |cs| ==> exists k :: k in kv && RangeCache.Contains(cs[i].desc, k)
  }

  lemma ForBufferMore(w: World, kv: Buffer, a: Trace, b: Trace, c: Trace, key: Key)
    requires a.contacts <= b.contacts <= c.contacts && key in kv
    requires ForBuffer(kv, b.contacts[|a.contacts|..]) && Guided(w, key, c.contacts[|b.contacts|..])
    ensures ForBuffer(kv, c.contacts[|a.contacts|..])
  {
    hide RangeCache.Contains;
    var cs, more := b.contacts[|a.contacts|..], c.contacts[|b.contacts|..];
    var all: seq<Contact> := c.contacts[|a.contacts|..];
    assert all == cs + more;
    forall i | 0 <= i < |all| ensures exists k :: k in kv && RangeCache.Contains(all[i].desc, k) {
      if i >= |cs| { assert Met(w, key, more[i - |cs|]); }
    }
  }

  /** Between a and b some chunks of the buffer were sent, and nothing else happened. */
  ghost predicate Flushing(kv: Buffer, a: Trace, b: Trace) {
    && a.log <= b.log
    && a.contacts <= b.contacts && ForBuffer(kv, b.contacts[|a.contacts|..])
    && (forall i :: |a.log| <= i < |b.log| ==> b.log[i].PutSent? && ChunkOf(kv, b.log[i].items))
    && (forall k :: FlushedAt(kv, a.intents, b.intents, Done(b.log[|a.log|..], k), k))
  }

  lemma FlushStarts(kv: Buffer, a: Trace)
    ensures Flushing(kv, a, a)
  {
  }

  lemma DoneMore(es: seq<Event>, more: seq<Event>, rangeID: int, items: seq<Item>, acked: bool, k: Key)
    requires Attempts(Put(rangeID, items), acked, more)
    ensures Done(es + more, k) ==> Done(es, k) || (acked && exists j :: 0 <= j < |items| && items[j].key == k)
  {
    if Done(es + more, k) {
      var i, v :| 0 <= i < |es + more| && Confirms((es + more)[i], k, v);
      if i < |es| {
        assert Confirms(es[i], k, v);
      } else {
        assert more[i - |es|] == PutSent(rangeID, items, acked && i - |es| == |more| - 1);
        var j :| 0 <= j < |items| && items[j] == Item(k, v);
      }
    }
  }

  lemma FlushedAtMore(kv: Buffer, a: map<Key, Bytes>, b: map<Key, Bytes>, c: map<Key, Bytes>,
                      items: seq<Item>, acked: bool, was: bool, done: bool, k: Key)
    requires FlushedAt(kv, a, b, was, k) && PutEffect(b, c, items, acked) && ChunkOf(kv, items)
    requires done ==> was || (acked && exists j :: 0 <= j < |items| && items[j].key == k)
    ensures FlushedAt(kv, a, c, done, k)
  {
    if j :| 0 <= j < |items| && items[j].key == k {
      assert FromBuffer(kv, items[j]);
    } else {
      assert forall j :: 0 <= j < |items| ==> items[j].key != k;
      assert SameAt(b, c, k);
    }
  }

  lemma ChunkGains(a: Trace, b: Trace, c: Trace, rangeID: int, items: seq<Item>, acked: bool)
    requires a.log <= b.log <= c.log && Attempts(Put(rangeID, items), acked, c.log[|b.log|..])
    ensures Gains(a, b, c, rangeID, if acked then items else [])
  {
    hide Acked, Attempts;
    var es, more := b.log[|a.log|..], c.log[|b.log|..];
    assert c.log[|a.log|..] == es + more;
    forall r ensures Acked(es + more, r) == Acked(es, r) + if acked && r == rangeID then items else [] {
      AckedConcat(es, more, r);
      AttemptsAck(rangeID, items, acked, more, r);
    }
  }

  lemma ChunkEvents(kv: Buffer, a: Trace, b: Trace, c: Trace, rangeID: int, items: seq<Item>, acked: bool)
    requires a.log <= b.log <= c.log && Attempts(Put(rangeID, items), acked, c.log[|b.log|..]) && ChunkOf(kv, items)
    requires forall i :: |a.log| <= i < |b.log| ==> b.log[i].PutSent? && ChunkOf(kv, b.log[i].items)
    ensures forall i :: |a.log| <= i < |c.log| ==> c.log[i].PutSent? && ChunkOf(kv, c.log[i].items)
  {
    hide ChunkOf;
    forall i | |a.log| <= i < |c.log| ensures c.log[i].PutSent? && ChunkOf(kv, c.log[i].items) {
      if i < |b.log| {
        assert c.log[i] == b.log[i];
      } else {
        assert c.log[i] == c.log[|b.log|..][i - |b.log|];
      }
    }
  }

  lemma ChunkEffect(kv: Buffer, a: Trace, b: Trace, c: Trace, rangeID: int, items: seq<Item>, acked: bool, k: Key)
    requires a.log <= b.log <= c.log && Attempts(Put(rangeID, items), acked, c.log[|b.log|..]) && ChunkOf(kv, items)
    requires FlushedAt(kv, a.intents, b.intents, Done(b.log[|a.log|..], k), k) && PutEffect(b.intents, c.intents, items, acked)
    ensures FlushedAt(kv, a.intents, c.intents, Done(c.log[|a.log|..], k), k)
  {
    hide ChunkOf, FlushedAt, PutEffect, Done, Attempts;
    var es, more := b.log[|a.log|..], c.log[|b.log|..];
    assert c.log[|a.log|..] == es + more;
    DoneMore(es, more, rangeID, items, acked, k);
    FlushedAtMore(kv, a.intents, b.intents, c.intents, items, acked, Done(es, k), Done(es + more, k), k);
  }

  /** One more chunk: sent, and acknowledged or not. */
  lemma FlushStep(w: World, kv: Buffer, a: Trace, b: Trace, c: Trace, key: Key, rangeID: int, items: seq<Item>, acked: bool)
    requires Flushing(kv, a, b) && Requested(Put(rangeID, items), acked, b, c) && ChunkOf(kv, items)
    requires key in kv && Guided(w, key, c.contacts[|b.contacts|..])
    ensures Flushing(kv, a, c) && Gains(a, b, c, rangeID, if acked then items else [])
  {
    ForBufferMore(w, kv, a, b, c, key);
    hide ForBuffer, Guided, Walk, ChunkOf, FlushedAt, PutEffect, Done, Acked, Attempts, Gains;
    ChunkGains(a, b, c, rangeID, items, acked);
    ChunkEvents(kv, a, b, c, rangeID, items, acked);
    forall k ensures FlushedAt(kv, a.intents, c.intents, Done(c.log[|a.log|..], k), k) {
      ChunkEffect(kv, a, b, c, rangeID, items, acked, k);
    }
  }

  /** From b to c, range rangeID acknowledged these items and no range anything else. */
  ghost predicate Gains(a: Trace, b: Trace, c: Trace, rangeID: int, items: seq<Item>) {
    && a.log <= b.log && a.log <= c.log
    && forall r :: Acked(c.log[|a.log|..], r) == Acked(b.log[|a.log|..], r) + if r == rangeID then items else []
  }

  lemma GainsMore(a: Trace, b: Trace, c: Trace, d: Trace, rangeID: int, items: seq<Item>, more: seq<Item>)
    requires Gains(a, b, c, rangeID, items) && Gains(a, c, d, rangeID, more)
    ensures Gains(a, b, d, rangeID, items + more)
  {
    hide Acked;
  }

  lemma GainsNothing(kv: Buffer, a: Trace, b: Trace, rangeID: int)
    requires Flushing(kv, a, b)
    ensures Gains(a, b, b, rangeID, [])
  {
  }

  /** Every buffered key was acknowledged on the way. */
  ghost predicate Complete(kv: Buffer, a: Trace, b: Trace)
    requires a.log <= b.log
  {
    forall k :: k in kv ==> Done(b.log[|a.log|..], k)
  }

  /** The buffer a flush leaves behind. */
  function Left(kv: Buffer, ok: bool): Buffer {
    if ok then map[] else kv
  }

  /** Flushing preserves meaning: however far a flush got, the buffer it leaves over the
      intents it leaves shows the same value for every key. */
  lemma FlushKeepsView(w: World, kv: Buffer, a: Trace, b: Trace, ok: bool, k: Key)
    requires Flushing(kv, a, b) && (ok ==> Complete(kv, a, b))
    ensures View(w, Left(kv, ok), b.intents, k) == View(w, kv, a.intents, k)
  {
    hide ChunkOf, Done;
    assert FlushedAt(kv, a.intents, b.intents, Done(b.log[|a.log|..], k), k);
  }

  /** Get answers the same before and after a flush, except in one case: the empty key is
      refused once it has left the buffer. */
  lemma FlushKeepsAnswers(w: World, kv: Buffer, a: Trace, b: Trace, ok: bool, k: Key)
    requires Flushing(kv, a, b) && (ok ==> Complete(kv, a, b))
    ensures GetAnswer(w, Left(kv, ok), b.intents, k) == GetAnswer(w, kv, a.intents, k)
            <==> !(ok && k == [] && UserKey(k) in kv)
  {
    FlushKeepsView(w, kv, a, b, ok, UserKey(k));
  }

  lemma FlushKeepsMeaning(w: World, kv: Buffer, a: Trace, b: Trace, ok: bool)
    requires Flushing(kv, a, b) && (ok ==> Complete(kv, a, b))
    ensures forall k :: View(w, Left(kv, ok), b.intents, k) == View(w, kv, a.intents, k)
    ensures forall k :: GetAnswer(w, Left(kv, ok), b.intents, k) == GetAnswer(w, kv, a.intents, k)
                        <==> !(ok && k == [] && UserKey(k) in kv)
  {
    hide View, GetAnswer, Flushing, Complete;
    var left := Left(kv, ok);
    forall k ensures View(w, left, b.intents, k) == View(w, kv, a.intents, k) { FlushKeepsView(w, kv, a, b, ok, k); }
    forall k ensures GetAnswer(w, left, b.intents, k) == GetAnswer(w, kv, a.intents, k) <==> !(ok && k == [] && UserKey(k) in kv) {
      FlushKeepsAnswers(w, kv, a, b, ok, k);
    }
  }

  lemma FlushExtends(kv: Buffer, a: Trace, b: Trace)
    requires Flushing(kv, a, b)
    ensures a.log <= b.log
  {
  }

  lemma FlushIsQuiet(kv: Buffer, a: Trace, b: Trace)
    requires Flushing(kv, a, b)
    ensures Quiet(b.log[|a.log|..]) && b.log == a.log + b.log[|a.log|..]
  {
  }

  /** What was acknowledged during a flush is the buffered value, and stays acknowledged. */
  lemma DoneIsAcknowledged(kv: Buffer, a: Trace, b: Trace, k: Key)
    requires Flushing(kv, a, b) && Done(b.log[|a.log|..], k)
    ensures k in kv && Acknowledged(b.log, k, Stored(kv[k]))
  {
    var es := b.log[|a.log|..];
    var i, v :| 0 <= i < |es| && Confirms(es[i], k, v);
    var j :| 0 <= j < |es[i].items| && es[i].items[j] == Item(k, v);
    assert b.log[|a.log| + i] == es[i];
    assert FromBuffer(kv, es[i].items[j]);
    assert NotWritten(b.log[|a.log| + i + 1..], k);
  }

  lemma FlushTracks(kv: Buffer, a: Trace, b: Trace, ok: bool)
    requires Tracked(kv, a.log, a.intents) && Flushing(kv, a, b) && (ok ==> Complete(kv, a, b))
    ensures Tracked(Left(kv, ok), b.log, b.intents)
  {
    var es, left := b.log[|a.log|..], Left(kv, ok);
    FlushIsQuiet(kv, a, b);
    forall k ensures TrackedAt(left, b.log, b.intents, k) {
      assert TrackedAt(kv, a.log, a.intents, k);
      assert FlushedAt(kv, a.intents, b.intents, Done(es, k), k);
      hide Flushing, Done, Acknowledged, Latest;
      LatestQuiet(a.log, es, k);
      if k !in kv {
        SettledQuiet(a.log, es, k);
      } else if ok {
        DoneIsAcknowledged(kv, a, b, k);
      }
    }
  }

  // ------------------------------------------------------------ a complete flush

  /** The entries a walk of the buffer meets. */
  ghost predicate ItemsOf(kv: Buffer, items: seq<Item>) {
    && Ascending(KeysOf(items))
    && (forall k :: k in kv <==> k in KeysOf(items))
    && (forall i :: 0 <= i < |items| ==> FromBuffer(kv, items[i]))
  }

  /** Each of these ranges has acknowledged exactly its batch, and the others nothing. */
  ghost predicate AllAcked(breqs: map<int, Batch>, ranges: seq<int>, events: seq<Event>) {
    forall r :: Acked(events, r) == if r in ranges && r in breqs then breqs[r].items else []
  }

  lemma {:induction false} AckedIsDone(events: seq<Event>, r: int, x: Item)
    requires x in Acked(events, r)
    ensures Done(events, x.key)
  {
    var n := |events| - 1;
    if x in AckedBy(events[n], r) {
      assert Confirms(events[n], x.key, x.value);
    } else {
      AckedIsDone(events[..n], r, x);
      var i, v :| 0 <= i < n && Confirms(events[..n][i], x.key, v);
      assert Confirms(events[i], x.key, v);
    }
  }

  lemma NoneAcked(breqs: map<int, Batch>, log: seq<Event>)
    ensures AllAcked(breqs, [], log[|log|..])
  {
    assert log[|log|..] == [];
  }

  lemma AllAckedMore(breqs: map<int, Batch>, ranges: seq<int>, a: Trace, b: Trace, c: Trace, r: int)
    requires r in breqs && r !in ranges && Gains(a, b, c, r, breqs[r].items) && AllAcked(breqs, ranges, b.log[|a.log|..])
    ensures AllAcked(breqs, ranges + [r], c.log[|a.log|..])
  {
    hide Acked;
  }

  lemma GroupsAreBatches(kv: Buffer, breqs: map<int, Batch>, items: seq<Item>, route: seq<int>, r: int)
    requires ItemsOf(kv, items) && |items| == |route| && Grouped(breqs, items, route) && r in breqs
    ensures BatchOf(kv, breqs[r]) && breqs[r].key in kv && breqs[r].rangeID == r
  {
    GroupsAreOrdered(breqs, items, route, r);
    hide Select;
    forall j | 0 <= j < |breqs[r].items| ensures FromBuffer(kv, breqs[r].items[j]) {
      assert breqs[r].items[j] in items;
    }
    assert FromBuffer(kv, breqs[r].items[0]);
  }

  lemma AllAckedIsComplete(kv: Buffer, a: Trace, b: Trace, breqs: map<int, Batch>, ranges: seq<int>,
                           items: seq<Item>, route: seq<int>)
    requires a.log <= b.log && ItemsOf(kv, items) && |items| == |route| && Grouped(breqs, items, route)
    requires AllAcked(breqs, ranges, b.log[|a.log|..]) && Lists(ranges, breqs.Keys)
    ensures Complete(kv, a, b)
  {
    AscendingIsDistinct(items);
    hide Acked, Done, Select, DistinctItems;
    forall k | k in kv ensures Done(b.log[|a.log|..], k) {
      assert k in KeysOf(items);
      var i :| 0 <= i < |items| && KeysOf(items)[i] == k;
      GroupingConserves(breqs, items, route, i);
      AckedIsDone(b.log[|a.log|..], route[i], items[i]);
    }
  }

  // ------------------------------------------------------------ intents to resolve

  predicate InPool(pool: Pool, r: int, k: Key) {
    r in pool && k in pool[r]
  }

  /** Every key sent is in the pool under the range it was sent to. */
  ghost predicate Pooled(pool: Pool, events: seq<Event>) {
    forall i, j :: 0 <= i < |events| && events[i].PutSent? && 0 <= j < |events[i].items|
                   ==> InPool(pool, events[i].rangeID, events[i].items[j].key)
  }

  /** The keys of one range, handed to the workers for resolving. */
  datatype Resolve = Resolve(rangeID: int, keys: seq<Key>)

  predicate InQueue(queue: seq<Resolve>, r: int, k: Key) {
    exists i :: 0 <= i < |queue| && queue[i].rangeID == r && k in queue[i].keys
  }

  /** Every key sent is in a list enqueued for the range it was sent to. */
  ghost predicate Queued(queue: seq<Resolve>, events: seq<Event>) {
    forall i, j :: 0 <= i < |events| && events[i].PutSent? && 0 <= j < |events[i].items|
                   ==> InQueue(queue, events[i].rangeID, events[i].items[j].key)
  }

  /** As long as there is a pool it covers all that was sent; then the lists do. Both hold
      only keys that were written. */
  ghost predicate Covered(pool: Option<Pool>, queue: seq<Resolve>, log: seq<Event>) {
    && (if pool.Some? then Pooled(pool.value, log) && queue == [] else Queued(queue, log))
    && (pool.Some? ==> forall r, k :: InPool(pool.value, r, k) ==> Latest(log, k).Some?)
    && (forall r, k :: InQueue(queue, r, k) ==> Latest(log, k).Some?)
  }

  ghost predicate AllPooled(pool: Pool, items: seq<Item>, r: int) {
    forall j :: 0 <= j < |items| ==> InPool(pool, r, items[j].key)
  }

  lemma PooledMore(pool: Pool, a: Trace, b: Trace, rangeID: int, items: seq<Item>, acked: bool)
    requires Pooled(pool, a.log) && Requested(Put(rangeID, items), acked, a, b)
    requires AllPooled(pool, items, rangeID)
    ensures Pooled(pool, b.log)
  {
    forall i, j | 0 <= i < |b.log| && b.log[i].PutSent? && 0 <= j < |b.log[i].items|
      ensures InPool(pool, b.log[i].rangeID, b.log[i].items[j].key)
    {
      if i < |a.log| {
        assert b.log[i] == a.log[i];
      } else {
        assert b.log[i] == b.log[|a.log|..][i - |a.log|];
      }
    }
  }

  // ------------------------------------------------------------ sent to the right range

  /** At some time k was in range r. */
  ghost predicate HeldBy(w: World, k: Key, r: int) {
    exists t: nat :: w.locate(t, k).rangeID == r
  }

  ghost predicate AllHeld(w: World, items: seq<Item>, r: int) {
    forall j :: 0 <= j < |items| ==> HeldBy(w, items[j].key, r)
  }

  /** Every put went to a range of its keys. */
  ghost predicate WellSent(w: World, events: seq<Event>) {
    forall i :: 0 <= i < |events| && events[i].PutSent? ==> AllHeld(w, events[i].items, events[i].rangeID)
  }

  lemma WellSentOthers(w: World, log: seq<Event>, more: seq<Event>)
    requires WellSent(w, log) && log <= more && forall i :: |log| <= i < |more| ==> !more[i].PutSent?
    ensures WellSent(w, more)
  {
    assert forall i :: 0 <= i < |log| ==> more[i] == log[i];
  }

  lemma WellSentMore(w: World, a: Trace, b: Trace, rangeID: int, items: seq<Item>, acked: bool)
    requires WellSent(w, a.log) && Requested(Put(rangeID, items), acked, a, b) && AllHeld(w, items, rangeID)
    ensures WellSent(w, b.log)
  {
    hide AllHeld;
    forall i | 0 <= i < |b.log| && b.log[i].PutSent? ensures AllHeld(w, b.log[i].items, b.log[i].rangeID) {
      if i < |a.log| {
        assert b.log[i] == a.log[i];
      } else {
        assert b.log[i] == b.log[|a.log|..][i - |a.log|];
      }
    }
  }

  lemma SliceIsReady(w: World, pool: Pool, breq: Batch, s: nat, e: nat)
    requires s <= e <= |breq.items| && AllPooled(pool, breq.items, breq.rangeID) && AllHeld(w, breq.items, breq.rangeID)
    ensures AllPooled(pool, breq.items[s..e], breq.rangeID) && AllHeld(w, breq.items[s..e], breq.rangeID)
  {
    hide InPool, HeldBy;
  }

  // ------------------------------------------------------------ what every operation keeps

  datatype TxnState = TxnState(
    kv: Buffer, dirty: bool, hasBegin: bool, pool: Option<Pool>, queue: seq<Resolve>,
    log: seq<Event>, intents: map<Key, Bytes>)

  /** What holds whoever ends the transaction. */
  ghost predicate Kept(s: TxnState) {
    && Tracked(s.kv, s.log, s.intents) && Covered(s.pool, s.queue, s.log)
    && (s.hasBegin ==> Begun(s.log))
    && (!s.dirty ==> forall k :: Latest(s.log, k).None?)
  }

  ghost predicate Sane(s: TxnState) {
    Kept(s) && CommitSafe(s.log)
  }

  lemma CoveredWrite(pool: Option<Pool>, queue: seq<Resolve>, log: seq<Event>, key: Key, v: Bytes)
    requires Covered(pool, queue, log)
    ensures Covered(pool, queue, log + [Written(key, v)])
  {
    var more := log + [Written(key, v)];
    assert more[..|log|] == log;
    assert forall k :: Latest(log, k).Some? ==> Latest(more, k).Some?;
    assert forall i :: 0 <= i < |log| ==> more[i] == log[i];
  }

  lemma SaneAfterWrite(s: TxnState, key: Key, v: Option<Bytes>)
    requires Sane(s)
    ensures Sane(s.(kv := s.kv[key := v], dirty := true, log := s.log + [Written(key, Stored(v))]))
  {
    hide Tracked, CommitSafe, Covered, Latest;
    WritingTracks(s.kv, s.log, s.intents, key, v);
    OthersKeepSafe(s.log, [Written(key, Stored(v))]);
    CoveredWrite(s.pool, s.queue, s.log, key, Stored(v));
  }

  lemma CoveredQuiet(pool: Option<Pool>, queue: seq<Resolve>, log: seq<Event>, more: seq<Event>)
    requires Covered(pool, queue, log) && Quiet(more)
    requires if pool.Some? then Pooled(pool.value, log + more) else Queued(queue, log + more)
    ensures Covered(pool, queue, log + more)
  {
    forall k ensures Latest(log + more, k) == Latest(log, k) { LatestQuiet(log, more, k); }
  }

  /** Beginning and ending a transaction, with all their attempts. */
  lemma SaneAfterRequest(s: TxnState, req: Request, acked: bool, b: Trace, cs: seq<Contact>)
    requires Sane(s) && (req.Begin? || req.End?) && Requested(req, acked, Trace(s.log, s.intents, cs), b)
    ensures b.intents == s.intents && (acked && req.Begin? ==> Begun(b.log))
    ensures Kept(s.(log := b.log)) && ((req.End? && req.commit ==> MayCommit(s.log)) ==> CommitSafe(b.log))
  {
    var more := b.log[|s.log|..];
    assert b.log == s.log + more;
    if acked { assert b.log[|b.log| - 1] == more[|more| - 1]; }
    assert Quiet(more);
    hide Tracked, CommitSafe, MayCommit, Latest, Covered, Attempts;
    assert forall i :: 0 <= i < |more| ==>
        more[i].EndSent? == req.End? && !more[i].PutSent? && (more[i].EndSent? ==> more[i].commit == req.commit);
    QuietTracks(s.kv, s.log, s.intents, more);
    if !(req.End? && req.commit) {
      OthersKeepSafe(s.log, more);
    } else if MayCommit(s.log) {
      EndsKeepSafe(s.log, more);
    }
    CoveredQuiet(s.pool, s.queue, s.log, more);
    forall k ensures Latest(s.log + more, k) == Latest(s.log, k) { LatestQuiet(s.log, more, k); }
  }

  /** The pool gained buffered keys only. */
  ghost predicate PoolGrew(kv: Buffer, before: Pool, after: Pool) {
    && (forall r, k :: InPool(before, r, k) ==> InPool(after, r, k))
    && (forall r, k :: InPool(after, r, k) ==> InPool(before, r, k) || k in kv)
  }

  lemma PoolGrewNothing(kv: Buffer, pool: Pool)
    ensures PoolGrew(kv, pool, pool)
  {
  }

  lemma PooledGrows(kv: Buffer, pool: Pool, more: Pool, events: seq<Event>)
    requires Pooled(pool, events) && PoolGrew(kv, pool, more)
    ensures Pooled(more, events)
  {
  }

  lemma PoolGrewMore(kv: Buffer, a: Pool, b: Pool, c: Pool)
    requires PoolGrew(kv, a, b) && PoolGrew(kv, b, c)
    ensures PoolGrew(kv, a, c)
  {
    hide InPool;
  }

  lemma SaneAfterFlush(s: TxnState, cs: seq<Contact>, b: Trace, ok: bool, pool: Pool)
    requires Sane(s) && s.pool.Some? && PoolGrew(s.kv, s.pool.value, pool) && Pooled(pool, b.log)
    requires var a := Trace(s.log, s.intents, cs); Flushing(s.kv, a, b) && (ok ==> Complete(s.kv, a, b))
    ensures Sane(s.(kv := Left(s.kv, ok), pool := Some(pool), log := b.log, intents := b.intents))
  {
    var a, more := Trace(s.log, s.intents, cs), b.log[|s.log|..];
    FlushTracks(s.kv, a, b, ok);
    FlushIsQuiet(s.kv, a, b);
    assert forall i :: 0 <= i < |more| ==> more[i] == b.log[|s.log| + i] && !more[i].EndSent?;
    OthersKeepSafe(s.log, more);
    if s.hasBegin { assert forall e :: e in s.log ==> e in s.log + more; }
    hide Tracked, CommitSafe, Flushing, Pooled;
    forall k ensures Latest(b.log, k) == Latest(s.log, k) { LatestQuiet(s.log, more, k); }
    forall r, k | InPool(pool, r, k) ensures Latest(b.log, k).Some? {
      if !InPool(s.pool.value, r, k) { BufferedWasWritten(s, k); }
    }
  }

  lemma BufferedWasWritten(s: TxnState, k: Key)
    requires Sane(s) && k in s.kv
    ensures Latest(s.log, k).Some?
  {
    assert TrackedAt(s.kv, s.log, s.intents, k);
  }

  /** The lists hold what the pool held, range by range. */
  ghost predicate Drained(pool: Pool, queue: seq<Resolve>) {
    forall r, k :: InQueue(queue, r, k) <==> InPool(pool, r, k)
  }

  /** The lists of these ranges have been made. */
  ghost predicate DrainedFor(pool: Pool, ranges: seq<int>, queue: seq<Resolve>) {
    forall r, k :: InQueue(queue, r, k) <==> r in ranges && InPool(pool, r, k)
  }

  function Enqueue(queue: seq<Resolve>, r: int, keys: seq<Key>): seq<Resolve> {
    if keys == [] then queue else queue + [Resolve(r, keys)]
  }

  lemma QueueMore(queue: seq<Resolve>, q: int, keys: seq<Key>, r: int, k: Key)
    ensures InQueue(Enqueue(queue, q, keys), r, k) <==> InQueue(queue, r, k) || (r == q && k in keys)
  {
    var more := Enqueue(queue, q, keys);
    assert forall i :: 0 <= i < |queue| ==> more[i] == queue[i];
    if keys != [] { assert more[|queue|] == Resolve(q, keys); }
  }

  /** dump: the list of one more range, left out when it is empty. */
  lemma DrainedOneMore(pool: Pool, ranges: seq<int>, q: int, queue: seq<Resolve>, keys: seq<Key>)
    requires DrainedFor(pool, ranges, queue) && q in pool && Lists(keys, pool[q])
    ensures DrainedFor(pool, ranges + [q], Enqueue(queue, q, keys))
  {
    var more := Enqueue(queue, q, keys);
    hide InQueue, Enqueue;
    forall r, k ensures InQueue(more, r, k) <==> r in ranges + [q] && InPool(pool, r, k) {
      QueueMore(queue, q, keys, r, k);
      assert r in ranges + [q] <==> r in ranges || r == q;
    }
  }

  lemma NothingDrained(pool: Pool)
    ensures DrainedFor(pool, [], [])
  {
  }

  lemma DrainedWhenAll(pool: Pool, ranges: seq<int>, queue: seq<Resolve>)
    requires DrainedFor(pool, ranges, queue) && Lists(ranges, pool.Keys)
    ensures Drained(pool, queue)
  {
    hide InQueue;
  }

  /** Nothing is enqueued while there is a pool. */
  lemma KeptIsFresh(s: TxnState)
    requires Kept(s) && s.pool.Some?
    ensures s.queue == []
  {
  }

  lemma KeptAfterSend(s: TxnState, queue: seq<Resolve>)
    requires Kept(s) && s.pool.Some? && Drained(s.pool.value, queue)
    ensures Kept(s.(pool := None, queue := queue))
  {
    hide Tracked, InPool, InQueue, Latest;
  }

  // ------------------------------------------------------------ range after range

  /** From start to now the batches of these ranges were sent and acknowledged. */
  ghost predicate Sending(kv: Buffer, had: Pool, pool: Pool, breqs: map<int, Batch>, sent: seq<int>, start: Trace, now: Trace) {
    && PoolGrew(kv, had, pool) && Pooled(pool, now.log)
    && Flushing(kv, start, now) && AllAcked(breqs, sent, now.log[|start.log|..])
  }

  lemma SendingStarts(kv: Buffer, pool: Pool, breqs: map<int, Batch>, start: Trace)
    requires Pooled(pool, start.log)
    ensures Sending(kv, pool, pool, breqs, [], start, start)
  {
    hide InPool;
    FlushStarts(kv, start);
    NoneAcked(breqs, start.log);
  }

  lemma SendingIs(kv: Buffer, had: Pool, pool: Pool, breqs: map<int, Batch>, sent: seq<int>, start: Trace, now: Trace)
    requires Sending(kv, had, pool, breqs, sent, start, now)
    ensures PoolGrew(kv, had, pool) && Pooled(pool, now.log) && Flushing(kv, start, now) && start.log <= now.log
    ensures AllAcked(breqs, sent, now.log[|start.log|..])
  {
  }

  /** One more batch was attempted; when it was acknowledged it is one of those sent. */
  lemma SendingMore(kv: Buffer, had: Pool, pool: Pool, more: Pool, breqs: map<int, Batch>, sent: seq<int>,
                    start: Trace, a: Trace, b: Trace, r: int, ok: bool)
    requires Sending(kv, had, pool, breqs, sent, start, a) && r in breqs && r !in sent
    requires PoolGrew(kv, pool, more) && Pooled(more, b.log) && Flushing(kv, start, b)
    requires ok ==> Gains(start, a, b, r, breqs[r].items)
    ensures PoolGrew(kv, had, more) && (ok ==> Sending(kv, had, more, breqs, sent + [r], start, b))
  {
    PoolGrewMore(kv, had, pool, more);
    FlushExtends(kv, start, a);
    FlushExtends(kv, start, b);
    hide PoolGrew, Pooled, Flushing, AllAcked, Gains;
    if ok { AllAckedMore(breqs, sent, start, a, b, r); }
  }

  // ------------------------------------------------------------ beginning, then flushing

  /** From a to b the transaction was begun, successfully or not, and nothing else sent. */
  ghost predicate Beginning(a: Trace, b: Trace) {
    a.log <= b.log && a.intents == b.intents && forall i :: |a.log| <= i < |b.log| ==> b.log[i].BeginSent?
  }

  /** Nothing but begins and chunks of the buffer was sent. */
  ghost predicate SentByFlush(kv: Buffer, before: seq<Event>, after: seq<Event>) {
    && before <= after
    && forall i :: |before| <= i < |after| ==> after[i].BeginSent? || (after[i].PutSent? && ChunkOf(kv, after[i].items))
  }

  /** No commit was acknowledged. */
  ghost predicate NoCommitAcked(before: seq<Event>, after: seq<Event>) {
    before <= after && forall i :: |before| <= i < |after| ==> after[i] != EndSent(true, true)
  }

  lemma FlushCommitsNothing(kv: Buffer, before: seq<Event>, after: seq<Event>)
    requires SentByFlush(kv, before, after)
    ensures NoCommitAcked(before, after)
  {
  }

  lemma NoneOfThemCommits(kv: Buffer, commit: bool, acked: bool, a: seq<Event>, b: seq<Event>, c: seq<Event>)
    requires SentByFlush(kv, a, b) && Ending(commit, acked, b, c)
    ensures a <= c && (!(commit && acked) ==> NoCommitAcked(a, c)) && QuietSince(a, c)
  {
    assert forall i :: |a| <= i < |b| ==> c[i] == b[i];
  }

  /** Nothing was written. */
  ghost predicate QuietSince(before: seq<Event>, after: seq<Event>) {
    before <= after && Quiet(after[|before|..])
  }

  /** No end was sent. */
  ghost predicate NoEnd(before: seq<Event>, after: seq<Event>) {
    before <= after && forall i :: |before| <= i < |after| ==> !after[i].EndSent?
  }

  lemma FlushEndsNothing(kv: Buffer, before: seq<Event>, after: seq<Event>)
    requires SentByFlush(kv, before, after)
    ensures NoEnd(before, after)
  {
  }

  lemma FlushWritesNothing(kv: Buffer, before: seq<Event>, after: seq<Event>)
    requires SentByFlush(kv, before, after)
    ensures QuietSince(before, after)
  {
  }

  lemma EndingWritesNothing(commit: bool, acked: bool, before: seq<Event>, after: seq<Event>)
    requires Ending(commit, acked, before, after)
    ensures QuietSince(before, after)
  {
  }

  /** The writes of a history, in order. */
  function WritesIn(log: seq<Event>): seq<Event> {
    if log == [] then []
    else
      var n := |log| - 1;
      WritesIn(log[..n]) + if log[n].Written? then [log[n]] else []
  }

  lemma {:induction false} WritesInQuiet(log: seq<Event>, more: seq<Event>)
    requires Quiet(more)
    ensures WritesIn(log + more) == WritesIn(log)
  {
    if more == [] {
      assert log + more == log;
    } else {
      var n := |more| - 1;
      assert (log + more)[..|log| + n] == log + more[..n];
      WritesInQuiet(log, more[..n]);
    }
  }

  lemma WritesInSince(before: seq<Event>, after: seq<Event>)
    requires QuietSince(before, after)
    ensures WritesIn(after) == WritesIn(before)
  {
    assert after == before + after[|before|..];
    WritesInQuiet(before, after[|before|..]);
  }

  /** The last write of a key is all that the writes of a history say about it. */
  lemma {:induction false} LatestOfWrites(log: seq<Event>, k: Key)
    ensures Latest(WritesIn(log), k) == Latest(log, k)
  {
    if log != [] {
      var n := |log| - 1;
      LatestOfWrites(log[..n], k);
      var before := WritesIn(log[..n]);
      if log[n].Written? {
        assert (before + [log[n]])[..|before|] == before;
      } else {
        assert before + [] == before;
      }
    }
  }

  lemma BeginsAckNothing(a: Trace, m: Trace, b: Trace, r: int)
    requires Beginning(a, m) && m.log <= b.log
    ensures Acked(b.log[|a.log|..], r) == Acked(b.log[|m.log|..], r)
  {
    var es, more := m.log[|a.log|..], b.log[|m.log|..];
    assert b.log[|a.log|..] == es + more;
    AckedConcat(es, more, r);
    FailedAckNothing(es, r);
  }

  lemma BeginThenFlush(kv: Buffer, a: Trace, m: Trace, b: Trace)
    requires Beginning(a, m) && Flushing(kv, m, b)
    ensures SentByFlush(kv, a.log, b.log)
    ensures forall r :: Acked(b.log[|a.log|..], r) == Acked(b.log[|m.log|..], r)
  {
    hide ChunkOf, FlushedAt;
    assert forall i :: |a.log| <= i < |m.log| ==> b.log[i] == m.log[i] && b.log[i].BeginSent?;
    forall r ensures Acked(b.log[|a.log|..], r) == Acked(b.log[|m.log|..], r) { BeginsAckNothing(a, m, b, r); }
  }

  /** From before to after the end of the transaction was sent, again and again until it was
      acknowledged, if it was. */
  ghost predicate Ending(commit: bool, acked: bool, before: seq<Event>, after: seq<Event>) {
    && before <= after && (acked ==> |before| < |after|)
    && (forall i :: |before| <= i < |after| ==> after[i] == EndSent(commit, acked && i == |after| - 1))
  }

  lemma NothingEnded(commit: bool, log: seq<Event>)
    ensures Ending(commit, false, log, log)
  {
  }

  lemma EndingPutsNothing(commit: bool, acked: bool, before: seq<Event>, after: seq<Event>)
    requires Ending(commit, acked, before, after)
    ensures before <= after && forall i :: |before| <= i < |after| ==> !after[i].PutSent?
  {
  }

  lemma RequestedEnd(commit: bool, acked: bool, a: Trace, b: Trace)
    requires Requested(End(commit), acked, a, b)
    ensures Ending(commit, acked, a.log, b.log)
  {
    forall i | |a.log| <= i < |b.log| ensures b.log[i] == EndSent(commit, acked && i == |b.log| - 1) {
      assert b.log[i] == b.log[|a.log|..][i - |a.log|];
    }
    assert acked ==> |b.log[|a.log|..]| > 0;
  }

  /** While there is no pool the lists cover every key sent. */
  lemma KeptIsQueued(s: TxnState)
    requires Kept(s) && s.pool.None?
    ensures Queued(s.queue, s.log)
  {
  }

  lemma SaneMayCommit(s: TxnState)
    requires Sane(s) && s.kv == map[] && s.hasBegin
    ensures MayCommit(s.log)
  {
    TrackedMayCommit(s.log, s.intents);
  }
}
