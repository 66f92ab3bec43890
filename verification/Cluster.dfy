/** The cluster as one transaction meets it: ranges that move, nodes and a placement
    driver that may fail, and the data and intents behind them. All that the environment
    decides is given by functions of the number of requests made so far. */
module Cluster {
  import opened Keys
  import opened RangeCache
  import opened Wrappers
  import Varint

  type Bytes = seq<Varint.Byte>

  datatype Item = Item(key: Key, value: Bytes)

  // ------------------------------------------------------------ errors

  /** What a node may answer instead of a result. Conflict is a write that came too late, or
      a transaction that another one has pushed aside. */
  datatype Fault = Fine | Aborted | Disconnected | NotLeader(hint: NodeID) | RangeNotFound | Conflict | Broken

  /** Why a request to the placement driver failed: it was refused, it ran out of attempts,
      or the client was stopped. */
  datatype DriverFault = Refusal | Overrun | Shutdown

  /** Why there is no connection to a node: its address is unknown, or could not be asked for. */
  datatype LinkFault = NoAddress | FromDriver(fault: DriverFault)

  /** A retryable error that was traced on its way is no longer one by its own type, only by
      its cause. */
  datatype ClientError =
    | NeedRetry(traced: bool) | InvalidState | InvalidKey | InvalidValue | NotExist
    | PDFailed | NoConnection | TransactionAborted | NodeFailed | Panic

  type ClientResult<T> = Result<T, ClientError>

  function Traced(e: ClientError): ClientError {
    if e.NeedRetry? then NeedRetry(true) else e
  }

  function PassedOn(e: Option<ClientError>): Option<ClientError> {
    if e.Some? then Some(Traced(e.value)) else None
  }

  function ErrorIn<T>(r: ClientResult<T>): Option<ClientError> {
    if r.Ok? then None else Some(r.error)
  }

  function DriverError(f: DriverFault): ClientError {
    match f case Refusal => PDFailed case Overrun => NeedRetry(true) case Shutdown => InvalidState
  }

  function LinkError(f: LinkFault): ClientError {
    match f case NoAddress => NoConnection case FromDriver(d) => DriverError(d)
  }

  // ------------------------------------------------------------ the environment

  /** `locate(t, k)` is the range that holds k at time t. Faults are drawn per request;
      a put that fails at time t has still taken effect for the keys with `torn(t, k)`.
      `scan(t, intents, lo, hi)` is the answer to a two-row scan at time t.
      `bounds` are the end keys that ever occur, `base` is the data at the
      transaction's timestamp without its own writes. */
  datatype World = World(
    locate: (nat, Key) -> RangeDescriptor,
    fault: nat -> Fault,
    driver: nat -> Option<DriverFault>,
    link: nat -> Option<LinkFault>,
    closed: nat -> bool,
    torn: (nat, Key) -> bool,
    scan: (nat, map<Key, Bytes>, Key, Key) -> seq<Item>,
    bounds: set<Key>,
    base: map<Key, Bytes>)

  /** Transaction records and user data. */
  predicate InSpace(k: Key) {
    Leq(TXN_PREFIX, k) && Less(k, END_PREFIX)
  }

  ghost predicate ProperRange(w: World, t: nat, k: Key) {
    var d := w.locate(t, k);
    && Contains(d, k) && RangeCache.WellFormed(d) && d.endKey != []
    && d.endKey in w.bounds
    && Leq(TXN_PREFIX, d.startKey) && Leq(d.endKey, END_PREFIX)
  }

  /** At each time the ranges partition the space. */
  ghost predicate Partition(w: World, t: nat, k: Key, x: Key) {
    Contains(w.locate(t, k), x) ==> w.locate(t, x) == w.locate(t, k)
  }

  /** Ranges only ever split. */
  ghost predicate SplitsOnly(w: World, t: nat, u: nat, k: Key, x: Key) {
    t <= u && Contains(w.locate(u, k), x) ==> Contains(w.locate(t, k), x)
  }

  ghost predicate Laid(w: World) {
    && (forall t, k :: InSpace(k) ==> ProperRange(w, t, k))
    && (forall t, k, x :: InSpace(k) && InSpace(x) ==> Partition(w, t, k, x))
    && (forall t, u, k, x :: InSpace(k) ==> SplitsOnly(w, t, u, k, x))
  }

  lemma InSpaceOfUser(k: Key)
    ensures InSpace(UserKey(k))
  {
    UserKeysInSpace(k);
    assert Less(TXN_PREFIX, USER_PREFIX);
    LeqTransitive(TXN_PREFIX, USER_PREFIX, UserKey(k));
  }

  lemma ContainedInSpace(w: World, t: nat, k: Key, x: Key)
    requires Laid(w) && InSpace(k) && Contains(w.locate(t, k), x)
    ensures InSpace(x)
  {
    var d := w.locate(t, k);
    assert ProperRange(w, t, k);
    LeqTransitive(TXN_PREFIX, d.startKey, x);
    LeqTransitive(x, d.endKey, END_PREFIX);
  }

  /** A range that shares a key with an older one lies within it: if the older range does
      not hold the key the newer one was fetched for, the two are disjoint. */
  lemma OverlapMeansWithin(w: World, t: nat, u: nat, k0: Key, k: Key, x: Key)
    requires Laid(w) && t <= u && InSpace(k0) && InSpace(k)
    requires Contains(w.locate(t, k0), x) && Contains(w.locate(u, k), x)
    ensures Contains(w.locate(t, k0), k)
  {
    ContainedInSpace(w, t, k0, x);
    assert Partition(w, t, k0, x);
    assert Partition(w, u, k, x);
    assert ProperRange(w, u, k);
    assert SplitsOnly(w, t, u, x, k);
  }

  // ------------------------------------------------------------ what the transaction sees

  /** Own intents over the data. An empty value means the key does not exist. */
  function Visible(w: World, intents: map<Key, Bytes>, k: Key): Bytes {
    if k in intents then intents[k] else if k in w.base then w.base[k] else []
  }

  /** A transaction sees its own intents and, where it has none, the data. */
  lemma IntentsOverData(w: World, intents: map<Key, Bytes>, k: Key, v: Bytes)
    ensures k in intents ==> (Visible(w, intents, k) == v <==> intents[k] == v)
    ensures k !in intents ==>
              (Visible(w, intents, k) == v <==> if v == [] then k !in w.base || w.base[k] == [] else k in w.base && w.base[k] == v)
  {
  }

  /** The answer to a scan of [lo, hi) for two rows: the existing keys in order, none
      left out before the last row returned. */
  ghost predicate CorrectScan(w: World, intents: map<Key, Bytes>, lo: Key, hi: Key, rows: seq<Item>) {
    && |rows| <= 2
    && (forall i :: 0 <= i < |rows| ==>
          Leq(lo, rows[i].key) && Less(rows[i].key, hi) && rows[i].value == Visible(w, intents, rows[i].key) != [])
    && (|rows| == 2 ==> Less(rows[0].key, rows[1].key))
    && (forall x :: Leq(lo, x) && Less(x, hi) && Visible(w, intents, x) != [] ==> InScan(rows, x))
  }

  predicate InScan(rows: seq<Item>, x: Key) {
    |rows| > 0 && (x == rows[0].key || (|rows| == 2 && Leq(rows[1].key, x)))
  }

  ghost predicate Honest(w: World) {
    forall t, intents, lo, hi :: CorrectScan(w, intents, lo, hi, w.scan(t, intents, lo, hi))
  }

  /** Nothing ever goes wrong. */
  ghost predicate Calm(w: World) {
    forall t: nat :: w.fault(t).Fine? && w.driver(t).None? && w.link(t).None? && !w.closed(t)
  }

  /** A node is contacted at time t and answers f, to a client that goes on. */
  predicate Meets(w: World, f: Fault, t: nat) {
    w.fault(t) == f && w.driver(t).None? && w.link(t).None? && !w.closed(t) && !w.closed(t + 1)
  }

  /** From some time on every node answers f, and nothing else goes wrong. */
  ghost predicate FailsWith(w: World, f: Fault, now: nat) {
    forall t: nat :: now <= t ==> Meets(w, f, t)
  }

  // ------------------------------------------------------------ puts

  predicate DistinctItems(items: seq<Item>) {
    forall i, j :: 0 <= i < j < |items| ==> items[i].key != items[j].key
  }

  predicate SameAt(a: map<Key, Bytes>, b: map<Key, Bytes>, k: Key) {
    (k in a <==> k in b) && (k in a && k in b ==> a[k] == b[k])
  }

  /** What a batch of puts may do to the intents: nothing to other keys, and to each of
      its own either nothing or the put. If it was acknowledged, all of them. */
  ghost predicate PutEffect(before: map<Key, Bytes>, after: map<Key, Bytes>, items: seq<Item>, acked: bool) {
    && (forall k :: (forall i :: 0 <= i < |items| ==> items[i].key != k) ==> SameAt(before, after, k))
    && (forall i :: 0 <= i < |items| ==>
          || (items[i].key in after && after[items[i].key] == items[i].value)
          || (!acked && SameAt(before, after, items[i].key)))
  }

  lemma PutEffectTwice(a: map<Key, Bytes>, b: map<Key, Bytes>, c: map<Key, Bytes>, items: seq<Item>, first: bool, acked: bool)
    requires PutEffect(a, b, items, first) && PutEffect(b, c, items, acked)
    ensures PutEffect(a, c, items, acked)
  {
    forall k | forall i :: 0 <= i < |items| ==> items[i].key != k ensures SameAt(a, c, k) {
      assert SameAt(a, b, k) && SameAt(b, c, k);
    }
  }

  /** The node's side of a put: all items, or those that were torn. */
  function ApplyPut(w: World, t: nat, intents: map<Key, Bytes>, items: seq<Item>, all: bool): map<Key, Bytes> {
    if items == [] then intents
    else
      var last, done := items[|items| - 1], ApplyPut(w, t, intents, items[..|items| - 1], all);
      if all || w.torn(t, last.key) then done[last.key := last.value] else done
  }

  /** An acknowledged put takes effect for all its keys, a failed one exactly for those that
      were torn, whichever they are. */
  lemma {:induction false} TornExactly(w: World, t: nat, intents: map<Key, Bytes>, items: seq<Item>, all: bool, i: nat)
    requires DistinctItems(items) && i < |items|
    ensures var after, x := ApplyPut(w, t, intents, items, all), items[i];
            if all || w.torn(t, x.key) then x.key in after && after[x.key] == x.value else SameAt(intents, after, x.key)
  {
    var n := |items| - 1;
    if i < n {
      TornExactly(w, t, intents, items[..n], all, i);
      assert items[..n][i] == items[i];
    } else {
      ApplyPutEffect(w, t, intents, items[..n], all);
      assert forall j :: 0 <= j < n ==> items[..n][j].key != items[n].key;
    }
  }

  lemma {:induction false} ApplyPutEffect(w: World, t: nat, intents: map<Key, Bytes>, items: seq<Item>, all: bool)
    requires DistinctItems(items)
    ensures PutEffect(intents, ApplyPut(w, t, intents, items, all), items, all)
  {
    if items != [] {
      var n := |items| - 1;
      var done, after := ApplyPut(w, t, intents, items[..n], all), ApplyPut(w, t, intents, items, all);
      ApplyPutEffect(w, t, intents, items[..n], all);
      forall k | forall i :: 0 <= i < |items| ==> items[i].key != k ensures SameAt(intents, after, k) {
        assert forall i :: 0 <= i < n ==> items[..n][i].key != k;
        assert SameAt(intents, done, k);
      }
      forall i | 0 <= i < |items|
        ensures || (items[i].key in after && after[items[i].key] == items[i].value)
                || (!all && SameAt(intents, after, items[i].key))
      {
        if i < n {
          assert items[..n][i] == items[i];
        } else {
          assert forall j :: 0 <= j < n ==> items[..n][j].key != items[n].key;
          assert SameAt(intents, done, items[n].key);
        }
      }
    }
  }
}
