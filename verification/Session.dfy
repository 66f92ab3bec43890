/** A transaction driven by any sequence of calls. */
module Session {
  import opened Keys
  import opened Wrappers
  import opened Cluster
  import opened NodeRequest
  import opened Batches
  import opened TxnLog
  import opened Txn
  import opened Iteration

  datatype Op = Set(key: Key, value: Bytes) | Delete(key: Key) | Get(key: Key) | Seek(key: Key) | Commit | Rollback

  /** What a call gives back: an error or nil, a value, or the entry an iterator is at. */
  datatype Answer = Returned(error: Option<ClientError>) | Value(value: ClientResult<Bytes>) | Entry(first: ClientResult<Option<Item>>)

  // ------------------------------------------------------------ what the calls say

  /** The write that a call makes. */
  function WriteOf(op: Op): seq<Event> {
    match op
    case Set(k, v) => if v == [] then [] else [Written(UserKey(k), v)]
    case Delete(k) => [Written(UserKey(k), [])]
    case _ => []
  }

  function WritesOf(ops: seq<Op>): seq<Event> {
    if ops == [] then [] else WritesOf(ops[..|ops| - 1]) + WriteOf(ops[|ops| - 1])
  }

  /** What a key shows after the calls: their last write to it, or what it showed before. */
  function ViewAfter(w: World, kv: Buffer, intents: map<Key, Bytes>, ops: seq<Op>, k: Key): Bytes {
    var last := Latest(WritesOf(ops), k);
    if last.Some? then last.value else View(w, kv, intents, k)
  }

  function ReadOf(v: Bytes): ClientResult<Bytes> {
    if v == [] then Err(NotExist) else Ok(v)
  }

  /** The first entry that shows a value at or after a key. */
  ghost predicate FirstFrom(view: Key -> Bytes, k: Key, x: Item) {
    && Leq(k, x.key) && x.value == view(x.key) != []
    && forall y :: Leq(k, y) && Less(y, x.key) ==> view(y) == []
  }

  ghost predicate NoneFrom(view: Key -> Bytes, k: Key) {
    forall y :: Leq(k, y) && Less(y, END_PREFIX) ==> view(y) == []
  }

  /** What a call may answer when keys show `view`: Get the value shown, Seek the first entry
      shown, or the error of a request. A value under the empty key may be refused. */
  ghost predicate Tells(w: World, view: Key -> Bytes, op: Op, answer: Answer) {
    match op
    case Set(_, v) => answer == Returned(if v == [] then Some(InvalidValue) else None)
    case Delete(_) => answer == Returned(None)
    case Get(k) =>
      && answer.Value?
      && (answer.value == ReadOf(view(UserKey(k))) ||
          (answer.value.Err? && ((RequestError(answer.value.error) && !Calm(w)) || (k == [] && answer.value.error == InvalidKey))))
    case Seek(k) =>
      && answer.Entry? && (answer.first == Err(InvalidKey) <==> k == [])
      && (answer.first.Ok? && answer.first.value.Some? ==> FirstFrom(view, UserKey(k), answer.first.value.value))
      && (answer.first == Ok(None) && Calm(w) ==> NoneFrom(view, UserKey(k)))
    case _ => answer.Returned?
  }

  /** Every call told of all the writes before it. */
  ghost predicate TellsAll(w: World, kv: Buffer, intents: map<Key, Bytes>, ops: seq<Op>, answers: seq<Answer>) {
    && |answers| == |ops|
    && forall i :: 0 <= i < |ops| ==> Tells(w, k => ViewAfter(w, kv, intents, ops[..i], k), ops[i], answers[i])
  }

  // ------------------------------------------------------------ any sequence of calls

  /** Whatever is called, in whatever order, and whatever fails: no commit is ever sent before
      the transaction has begun and every key has had its latest value acknowledged, every put
      went to a range of its keys, and every key ever sent is in the pool under the range it
      was sent to or, later, in a list to resolve for it. What was written is what the calls
      wrote, in order; the transaction sees the last of it, and every call tells of it. */
  method Run(txn: DbTxn, ops: seq<Op>) returns (answers: seq<Answer>)
    requires txn.Valid()
    modifies txn, txn.base, txn.base.cache
    ensures txn.Valid() && CommitSafe(txn.base.log) && WellSent(txn.base.world, txn.base.log)
    ensures Covered(txn.pool, txn.queue, txn.base.log)
    ensures Commit !in ops ==> NoCommitAcked(old(txn.base.log), txn.base.log)
    ensures WritesIn(txn.base.log) == WritesIn(old(txn.base.log)) + WritesOf(ops)
    ensures forall k :: View(txn.base.world, txn.kvCache, txn.base.intents, k)
                        == ViewAfter(txn.base.world, old(txn.kvCache), old(txn.base.intents), ops, k)
    ensures TellsAll(txn.base.world, old(txn.kvCache), old(txn.base.intents), ops, answers)
  {
    hide txn.Valid, NoCommitAcked, View, Called, Running, QuietSince;
    ghost var a := SeenBy(txn);
    RunStarts(txn.base.world, a, Commit !in ops);
    answers := [];
    for i := 0 to |ops|
      invariant txn.Valid() && Running(txn.base.world, a, SeenBy(txn), ops[..i], answers, Commit !in ops)
    {
      ghost var b := SeenBy(txn);
      var answer := Step(txn, ops[i]);
      RunsOn(txn.base.world, a, b, SeenBy(txn), ops[..i], ops[i], answers, answer, Commit !in ops);
      assert ops[..i + 1] == ops[..i] + [ops[i]];
      answers := answers + [answer];
    }
    assert ops[..|ops|] == ops;
    ValidMeans(txn);
    RunMeans(txn.base.world, a, SeenBy(txn), ops, answers, Commit !in ops);
  }

  /** Between two calls of a run. */
  ghost predicate Running(w: World, a: Seen, b: Seen, ops: seq<Op>, answers: seq<Answer>, uncommitted: bool) {
    && (uncommitted ==> NoCommitAcked(a.log, b.log)) && WritesIn(b.log) == WritesIn(a.log) + WritesOf(ops)
    && (forall k :: View(w, b.kv, b.intents, k) == ViewAfter(w, a.kv, a.intents, ops, k))
    && TellsAll(w, a.kv, a.intents, ops, answers)
  }

  lemma RunStarts(w: World, a: Seen, uncommitted: bool)
    ensures Running(w, a, a, [], [], uncommitted)
  {
    NothingAcked(a.log);
  }

  lemma RunMeans(w: World, a: Seen, b: Seen, ops: seq<Op>, answers: seq<Answer>, uncommitted: bool)
    requires Running(w, a, b, ops, answers, uncommitted)
    ensures uncommitted ==> NoCommitAcked(a.log, b.log)
    ensures WritesIn(b.log) == WritesIn(a.log) + WritesOf(ops)
    ensures forall k :: View(w, b.kv, b.intents, k) == ViewAfter(w, a.kv, a.intents, ops, k)
    ensures TellsAll(w, a.kv, a.intents, ops, answers)
  {
    hide ViewAfter, TellsAll, View;
  }

  lemma RunsOn(w: World, a: Seen, b: Seen, c: Seen, ops: seq<Op>, op: Op, answers: seq<Answer>, answer: Answer, uncommitted: bool)
    requires Running(w, a, b, ops, answers, uncommitted) && Called(w, op, answer, b, c) && (uncommitted ==> !op.Commit?)
    ensures Running(w, a, c, ops + [op], answers + [answer], uncommitted)
  {
    hide ViewAfter, TellsAll, View, Tells, WriteOf, NoCommitAcked, WritesIn;
    if uncommitted { NoCommitAckedOn(a.log, b.log, c.log); }
    CalledMore(w, a.kv, a.intents, b.kv, b.intents, ops, op, answers, answer);
  }

  lemma CalledMore(w: World, kv0: Buffer, intents0: map<Key, Bytes>, kv: Buffer, intents: map<Key, Bytes>, ops: seq<Op>, op: Op,
                   answers: seq<Answer>, answer: Answer)
    requires TellsAll(w, kv0, intents0, ops, answers) && Tells(w, k => View(w, kv, intents, k), op, answer)
    requires forall k :: View(w, kv, intents, k) == ViewAfter(w, kv0, intents0, ops, k)
    ensures TellsAll(w, kv0, intents0, ops + [op], answers + [answer]) && WritesOf(ops + [op]) == WritesOf(ops) + WriteOf(op)
    ensures forall k :: ViewAfter(w, kv0, intents0, ops + [op], k)
                        == if WriteOf(op) != [] && WriteOf(op)[0].key == k then WriteOf(op)[0].value else View(w, kv, intents, k)
  {
    assert (ops + [op])[..|ops|] == ops;
    forall k ensures Latest(WritesOf(ops) + WriteOf(op), k)
                     == if WriteOf(op) != [] && WriteOf(op)[0].key == k then Some(WriteOf(op)[0].value) else Latest(WritesOf(ops), k) {
      if WriteOf(op) == [] {
        assert WritesOf(ops) + WriteOf(op) == WritesOf(ops);
      } else {
        assert (WritesOf(ops) + WriteOf(op))[..|WritesOf(ops)|] == WritesOf(ops);
      }
    }
    hide WriteOf, View;
    TellsAlike(w, k => View(w, kv, intents, k), k => ViewAfter(w, kv0, intents0, ops, k), op, answer);
    hide Tells, ViewAfter, Latest;
    var all, said := ops + [op], answers + [answer];
    forall i | 0 <= i < |all| ensures Tells(w, k => ViewAfter(w, kv0, intents0, all[..i], k), all[i], said[i]) {
      if i < |ops| { assert all[..i] == ops[..i]; }
    }
  }

  lemma TellsAlike(w: World, view: Key -> Bytes, same: Key -> Bytes, op: Op, answer: Answer)
    requires Tells(w, view, op, answer) && forall k :: view(k) == same(k)
    ensures Tells(w, same, op, answer)
  {
  }

  /** The one case where a flush changes an answer, as a run: a value set under the empty key
      is read back until a Seek flushes it, and refused afterwards. */
  method EmptyKeyIsLost(txn: DbTxn, v: Bytes, k: Key) returns (before: ClientResult<Bytes>, after: ClientResult<Bytes>)
    requires txn.Valid() && v != [] && k != [] && txn.pool.Some? && Calm(txn.base.world)
    modifies txn, txn.base, txn.base.cache
    ensures before == Ok(v) && after == Err(InvalidKey)
  {
    hide txn.Valid, Calm, SentByFlush, OnCourse;
    var _ := txn.Set([], v);
    before := txn.Get([]);
    var _ := Iteration.Seek(txn, k);
    after := txn.Get([]);
  }

  /** A transaction whose writes are all flushed, and whose end no node accepts. The caller of
      Commit cannot tell a transaction that another has pushed aside from one that found no
      node: but the first still says that it is committed, and only the second that it is
      aborted. No commit has been acknowledged in either case. */
  method UnacceptedCommit(txn: DbTxn, pushed: bool) returns (e: Option<ClientError>)
    requires txn.Valid() && txn.dirty && txn.hasBegin && txn.kvCache == map[]
    requires FailsWith(txn.base.world, if pushed then Conflict else Disconnected, txn.base.tick)
    modifies txn, txn.base, txn.base.cache
    ensures e == Some(NeedRetry(true)) && txn.status == if pushed then Committed else Status.Aborted
    ensures NoCommitAcked(old(txn.base.log), txn.base.log)
  {
    hide txn.Valid, FailsWith;
    e := txn.Commit();
  }

  lemma NothingAcked(log: seq<Event>)
    ensures NoCommitAcked(log, log)
  {
  }

  lemma NoCommitAckedOn(a: seq<Event>, b: seq<Event>, c: seq<Event>)
    requires NoCommitAcked(a, b) && NoCommitAcked(b, c)
    ensures NoCommitAcked(a, c)
  {
    assert forall i :: |a| <= i < |b| ==> c[i] == b[i];
  }

  /** What one call does to a transaction, and what it tells. */
  ghost predicate Called(w: World, op: Op, answer: Answer, a: Seen, b: Seen) {
    && WritesIn(b.log) == WritesIn(a.log) + WriteOf(op) && (!op.Commit? ==> NoCommitAcked(a.log, b.log))
    && (forall k :: View(w, b.kv, b.intents, k)
                    == if WriteOf(op) != [] && WriteOf(op)[0].key == k then WriteOf(op)[0].value else View(w, a.kv, a.intents, k))
    && Tells(w, k => View(w, a.kv, a.intents, k), op, answer)
  }

  /** What a transaction sees, and what it has done. */
  datatype Seen = Seen(kv: Buffer, intents: map<Key, Bytes>, log: seq<Event>)

  ghost function SeenBy(txn: DbTxn): Seen
    reads txn, txn.base
  {
    Seen(txn.kvCache, txn.base.intents, txn.base.log)
  }

  lemma WriteCalled(w: World, op: Op, answer: Answer, a: Seen, b: Seen)
    requires op.Set? || op.Delete?
    requires answer == Returned(if op.Set? && op.value == [] then Some(InvalidValue) else None)
    requires if WriteOf(op) == [] then b == a
             else
               && b.intents == a.intents && b.log == a.log + WriteOf(op)
               && b.kv == a.kv[UserKey(op.key) := if op.Set? then Some(op.value) else None]
    ensures Called(w, op, answer, a, b)
  {
    if WriteOf(op) != [] { assert b.log[..|a.log|] == a.log; }
  }

  lemma GetCalled(w: World, k: Key, v: ClientResult<Bytes>, a: Seen)
    requires v == GetAnswer(w, a.kv, a.intents, k) || (v.Err? && RequestError(v.error) && !Calm(w))
    ensures Called(w, Op.Get(k), Value(v), a, a)
  {
  }

  /** A call that writes nothing and leaves all values as they were. */
  lemma QuietCalled(w: World, op: Op, answer: Answer, a: Seen, b: Seen)
    requires (op.Commit? || op.Rollback? || op.Seek?) && QuietSince(a.log, b.log) && (!op.Commit? ==> NoCommitAcked(a.log, b.log))
    requires forall k :: View(w, b.kv, b.intents, k) == View(w, a.kv, a.intents, k)
    requires Tells(w, k => View(w, a.kv, a.intents, k), op, answer)
    ensures Called(w, op, answer, a, b)
  {
    WritesInSince(a.log, b.log);
  }

  lemma RolledBack(acked: bool, before: seq<Event>, after: seq<Event>)
    requires Ending(false, acked, before, after)
    ensures NoCommitAcked(before, after) && QuietSince(before, after)
  {
  }

  lemma FirstYielded(w: World, seen: map<Key, Bytes>, view: Key -> Bytes, lo: Key, hi: Key, x: Item)
    requires Yields(w, seen, lo, hi, [x]) && forall y :: Visible(w, seen, y) == view(y)
    ensures FirstFrom(view, lo, x)
  {
    hide Visible;
    assert [x][0] == x;
    forall y | Leq(lo, y) && Less(y, x.key) ensures view(y) == [] {
      LessTransitive(y, x.key, hi);
      LessIrreflexive(y);
      assert y !in KeysOf([x]);
    }
  }

  lemma NoneYielded(w: World, seen: map<Key, Bytes>, view: Key -> Bytes, lo: Key)
    requires Yields(w, seen, lo, END_PREFIX, []) && forall y :: Visible(w, seen, y) == view(y)
    ensures NoneFrom(view, lo)
  {
    hide Visible;
    forall y | Leq(lo, y) && Less(y, END_PREFIX) ensures view(y) == [] { assert y !in KeysOf([]); }
  }

  /** Seek, for the entry its iterator is at. */
  method SeekFirst(txn: DbTxn, k: Key) returns (first: ClientResult<Option<Item>>)
    requires txn.Valid()
    modifies txn, txn.base, txn.base.cache
    ensures txn.Valid() && Called(txn.base.world, Seek(k), Entry(first), old(SeenBy(txn)), SeenBy(txn))
  {
    hide txn.Valid, SentByFlush, Calm, View, Visible, Called, Yields;
    ghost var a, w := SeenBy(txn), txn.base.world;
    var it := Iteration.Seek(txn, k);
    FlushCommitsNothing(a.kv, a.log, txn.base.log);
    FlushWritesNothing(a.kv, a.log, txn.base.log);
    first := if it.Err? then Err(it.error) else Ok(it.value.result);
    if it.Ok? && it.value.result.Some? {
      FirstYielded(w, it.value.seen, x => View(w, a.kv, a.intents, x), UserKey(k), it.value.scanKey, it.value.result.value);
    } else if it.Ok? && Calm(w) {
      NoneYielded(w, it.value.seen, x => View(w, a.kv, a.intents, x), UserKey(k));
    }
    QuietCalled(w, Seek(k), Entry(first), a, SeenBy(txn));
  }

  /** A commit that was accepted. */
  ghost predicate Committing(txn: DbTxn)
    reads txn, txn.base
  {
    && txn.kvCache == map[] && txn.status == Committed
    && txn.base.log != [] && txn.base.log[|txn.base.log| - 1] == EndSent(true, true)
  }

  method Step(txn: DbTxn, op: Op) returns (answer: Answer)
    requires txn.Valid()
    modifies txn, txn.base, txn.base.cache
    ensures txn.Valid() && Called(txn.base.world, op, answer, old(SeenBy(txn)), SeenBy(txn))
    ensures op.Commit? && txn.dirty && answer == Returned(None) ==> Committing(txn)
    ensures op.Rollback? ==> txn.status == Status.Aborted
    ensures op.Rollback? && txn.hasBegin ==> Ending(false, answer == Returned(None), old(txn.base.log), txn.base.log)
  {
    hide txn.Valid, Called, GetAnswer, Calm, View, Ending, Queued;
    ghost var a, w := SeenBy(txn), txn.base.world;
    match op {
      case Set(k, v) =>
        var e := txn.Set(k, v);
        answer := Returned(e);
        WriteCalled(w, op, answer, a, SeenBy(txn));
      case Delete(k) =>
        txn.Delete(k);
        answer := Returned(None);
        WriteCalled(w, op, answer, a, SeenBy(txn));
      case Get(k) =>
        var v := txn.Get(k);
        answer := Value(v);
        GetCalled(w, k, v, a);
      case Seek(k) =>
        var first := SeekFirst(txn, k);
        answer := Entry(first);
      case Commit =>
        var e := txn.Commit();
        answer := Returned(e);
        QuietCalled(w, op, answer, a, SeenBy(txn));
      case Rollback =>
        var e := txn.Rollback();
        answer := Returned(e);
        if txn.hasBegin { RolledBack(e.None?, a.log, txn.base.log); }
        SameView(w, a, SeenBy(txn));
        QuietCalled(w, op, answer, a, SeenBy(txn));
    }
  }

  lemma SameView(w: World, a: Seen, b: Seen)
    requires a.kv == b.kv && a.intents == b.intents
    ensures forall k :: View(w, b.kv, b.intents, k) == View(w, a.kv, a.intents, k)
  {
  }

  lemma ValidMeans(txn: DbTxn)
    requires txn.Valid()
    ensures CommitSafe(txn.base.log) && WellSent(txn.base.world, txn.base.log) && Covered(txn.pool, txn.queue, txn.base.log)
  {
  }
}
