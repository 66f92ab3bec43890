/** doNodeRequest: finding the range of a key, chasing its leader among the replicas,
    and refetching the range when it has moved, up to a bounded number of attempts. */
module NodeRequest {
  import opened Keys
  import opened RangeCache
  import opened Cluster
  import opened Wrappers

  /** defaultRetryOptions: one attempt and at most this many retries. */
  const MAX_RETRIES := 50

  /** What the callbacks passed to doNodeRequest ask of a node. Get, Scan, Begin and End
      go to whichever range is current, batches keep the range they were built for. */
  datatype Request =
    | Begin
    | End(commit: bool)
    | Put(rangeID: int, items: seq<Item>)
    | Get(key: Key)
    | BatchGet(rangeID: int, keys: seq<Key>)
    | Scan(from: Key)

  /** Moved is a batch read whose callback swallowed a range-not-found. */
  datatype Reply = Done | Values(values: seq<Bytes>) | Rows(range: RangeDescriptor, rows: seq<Item>) | Moved

  /** What the transaction did and sent, in order. */
  datatype Event =
    | Written(key: Key, value: Bytes)
    | BeginSent(acked: bool)
    | PutSent(rangeID: int, items: seq<Item>, acked: bool)
    | EndSent(commit: bool, acked: bool)

  /** One attempt: the descriptor in use, the position and node contacted, the time and the
      answer. */
  datatype Contact = Contact(desc: RangeDescriptor, index: int, node: NodeID, at: nat, fault: Fault)

  // ------------------------------------------------------------ leader chasing

  predicate InReplicas(c: Contact) {
    0 <= c.index < |c.desc.replicas|
  }

  /** The node contacted is the replica at the position kept. */
  predicate Sound(c: Contact) {
    InReplicas(c) && c.node == c.desc.replicas[c.index]
  }

  /** getNextNodeID */
  predicate Advances(a: Contact, b: Contact)
    requires InReplicas(a)
  {
    b.desc == a.desc && b.index == (a.index + 1) % |a.desc.replicas| && Sound(b)
  }

  /** How an attempt determines the one after it. */
  predicate Follows(a: Contact, b: Contact)
    requires InReplicas(a)
  {
    match a.fault
    case Aborted => b.desc == a.desc && b.index == a.index && b.node == a.node
    case Disconnected => Advances(a, b)
    case NotLeader(h) =>
      if h <= 0 then Advances(a, b)
      else b.desc == a.desc && b.node == h && b.index == IndexOf(a.desc.replicas, h)
    case RangeNotFound => Sound(b)
    case _ => false
  }

  predicate Walk(cs: seq<Contact>) {
    && (forall i :: 0 <= i < |cs| ==> InReplicas(cs[i]))
    && (|cs| > 0 ==> Sound(cs[0]))
    && (forall i :: 0 <= i < |cs| - 1 ==> Follows(cs[i], cs[i + 1]))
  }

  /** A hint that was followed names a replica. */
  predicate GoodHint(c: Contact) {
    c.fault.NotLeader? && c.fault.hint > 0 ==> c.fault.hint in c.desc.replicas
  }

  lemma {:induction false} SoundUpTo(cs: seq<Contact>, n: nat)
    requires Walk(cs) && n < |cs|
    requires forall i :: 0 <= i < n ==> GoodHint(cs[i])
    ensures Sound(cs[n])
  {
    if n > 0 {
      SoundUpTo(cs, n - 1);
      assert GoodHint(cs[n - 1]) && Follows(cs[n - 1], cs[n]);
    }
  }

  /** Every attempt contacts the replica at the position kept, exactly when every leader
      hint that was followed names a replica. A position is in range either way. */
  lemma ContactsSoundIffHintsGood(cs: seq<Contact>)
    requires Walk(cs)
    ensures (forall i :: 0 <= i < |cs| ==> Sound(cs[i])) <==> (forall i :: 0 <= i < |cs| - 1 ==> GoodHint(cs[i]))
  {
    if forall i :: 0 <= i < |cs| - 1 ==> GoodHint(cs[i]) {
      forall n | 0 <= n < |cs| ensures Sound(cs[n]) { SoundUpTo(cs, n); }
    } else {
      var i :| 0 <= i < |cs| - 1 && !GoodHint(cs[i]);
      assert Follows(cs[i], cs[i + 1]);
    }
  }

  /** A hint that names no replica: the node is contacted, the position kept is another's. */
  lemma BadHintIsUnsound() returns (cs: seq<Contact>)
    ensures |cs| == 2 && Walk(cs) && !GoodHint(cs[0]) && Sound(cs[0]) && !Sound(cs[1])
  {
    var d := RangeDescriptor(1, [1], [3], [10]);
    cs := [Contact(d, 0, 10, 0, NotLeader(99)), Contact(d, 0, 99, 1, Fine)];
    assert Follows(cs[0], cs[1]);
  }

  /** Counting modulo the number of replicas is going round. */
  lemma NextIndex(i: nat, n: nat)
    requires i < n
    ensures (i + 1) % n == if i + 1 == n then 0 else i + 1
  {
  }

  lemma {:induction false} SweepIndex(cs: seq<Contact>, i: nat, k: nat)
    requires Walk(cs) && i + k < |cs| && k < |cs[i].desc.replicas|
    requires forall j :: i <= j < i + k ==> cs[j].fault.Disconnected?
    ensures cs[i + k].desc == cs[i].desc
    ensures cs[i + k].index == var x := cs[i].index + k; if x < |cs[i].desc.replicas| then x else x - |cs[i].desc.replicas|
  {
    assert InReplicas(cs[i]);
    if k > 0 {
      SweepIndex(cs, i, k - 1);
      assert InReplicas(cs[i + k - 1]) && Follows(cs[i + k - 1], cs[i + k]);
      NextIndex(cs[i + k - 1].index, |cs[i].desc.replicas|);
    }
  }

  /** As many connection failures in a row as there are replicas visit every position. */
  lemma SweepVisitsEveryReplica(cs: seq<Contact>, i: nat, p: nat)
    requires Walk(cs) && i < |cs| && p < |cs[i].desc.replicas|
    requires i + |cs[i].desc.replicas| <= |cs|
    requires forall j :: i <= j < i + |cs[i].desc.replicas| - 1 ==> cs[j].fault.Disconnected?
    ensures exists j :: i <= j < i + |cs[i].desc.replicas| && cs[j].desc == cs[i].desc && cs[j].index == p
  {
    var n, s := |cs[i].desc.replicas|, cs[i].index;
    assert InReplicas(cs[i]);
    var k := if p >= s then p - s else p - s + n;
    SweepIndex(cs, i, k);
    assert cs[i + k].index == p;
  }

  // ------------------------------------------------------------ what a request leaves behind

  /** The events of one request: failed attempts, then the acknowledged one if any. */
  ghost predicate Attempts(req: Request, acked: bool, events: seq<Event>) {
    if req.Begin? || req.End? || req.Put? then
      && (acked ==> |events| > 0)
      && forall i :: 0 <= i < |events| ==> events[i] == EventOf(req, acked && i == |events| - 1)
    else events == []
  }

  function EventOf(req: Request, acked: bool): Event
    requires req.Begin? || req.End? || req.Put?
  {
    match req
    case Begin => BeginSent(acked)
    case End(commit) => EndSent(commit, acked)
    case Put(r, items) => PutSent(r, items, acked)
  }

  lemma MoreAttempts(req: Request, acked: bool, events: seq<Event>, more: seq<Event>)
    requires Attempts(req, false, events) && Attempts(req, acked, more)
    ensures Attempts(req, acked, events + more)
  {
  }

  /** The change a request makes to the intents. */
  ghost predicate Effect(req: Request, acked: bool, before: map<Key, Bytes>, after: map<Key, Bytes>) {
    if req.Put? then PutEffect(before, after, req.items, acked) else after == before
  }

  /** An answer that holds of the data, for the range it came from. */
  ghost predicate Correct(w: World, intents: map<Key, Bytes>, req: Request, reply: Reply) {
    match req
    case Get(k) => reply == Values([Visible(w, intents, k)])
    case BatchGet(_, keys) =>
      || reply.Moved?
      || (reply.Values? && |reply.values| == |keys| && forall i :: 0 <= i < |keys| ==> reply.values[i] == Visible(w, intents, keys[i]))
    case Scan(from) =>
      && reply.Rows? && Contains(reply.range, from) && reply.range.endKey != []
      && reply.range.endKey in w.bounds && Leq(reply.range.endKey, END_PREFIX)
      && CorrectScan(w, intents, from, reply.range.endKey, reply.rows)
    case _ => reply == Done
  }

  /** A read is routed by a key it asks for. The chunks of a batch of puts are all routed by
      the batch's own key. */
  predicate WellPosed(req: Request, key: Key) {
    && InSpace(key)
    && match req
       case Put(_, items) => DistinctItems(items)
       case Get(k) => k == key
       case BatchGet(_, keys) => key in keys
       case Scan(from) => from == key
       case _ => true
  }

  // ------------------------------------------------------------ where a request goes

  ghost predicate Holding(entries: map<nat, RangeDesc>, key: Key) {
    exists id :: id in entries && Contains(entries[id].desc, key)
  }

  /** The range of a key and its leader as a client knows them: what it has cached, or what
      the driver says at time t. */
  ghost predicate Route(w: World, entries: map<nat, RangeDesc>, t: nat, key: Key, d: RangeDesc) {
    if Holding(entries, key) then Recorded(entries, d) && Contains(d.desc, key) else d == RangeDesc(0, w.locate(t, key))
  }

  /** An attempt for a key: made over a live connection to a node of a range that holds the
      key by its descriptor. */
  predicate Met(w: World, key: Key, c: Contact) {
    Contains(c.desc, key) && c.fault == w.fault(c.at) && w.link(c.at).None?
  }

  /** The client goes on after an attempt only if it was not stopped, and after a range that
      has moved with what the driver then says, whatever was cached. */
  predicate GoesOn(w: World, key: Key, a: Contact, b: Contact) {
    && !w.closed(a.at + 1)
    && (a.fault.RangeNotFound? ==> w.driver(a.at + 1).None? && b.desc == w.locate(a.at + 1, key) && b.index == 0)
  }

  ghost predicate Guided(w: World, key: Key, cs: seq<Contact>) {
    && (forall i :: 0 <= i < |cs| ==> Met(w, key, cs[i]))
    && (forall i :: 0 <= i < |cs| - 1 ==> cs[i].at < cs[i + 1].at && GoesOn(w, key, cs[i], cs[i + 1]))
  }

  lemma NobodyAsked(w: World, key: Key, cs: seq<Contact>)
    ensures Guided(w, key, cs[|cs|..])
  {
  }

  /** What the next attempt of a guided walk has to be like. */
  ghost predicate Awaits(w: World, key: Key, cs: seq<Contact>, next: Contact, now: nat) {
    cs != [] ==> var last := cs[|cs| - 1]; last.at < now && GoesOn(w, key, last, next)
  }

  lemma GuidedOn(w: World, key: Key, cs: seq<Contact>, next: Contact, c: Contact)
    requires Guided(w, key, cs) && Awaits(w, key, cs, next, c.at) && Met(w, key, c)
    requires c.desc == next.desc && c.index == next.index
    ensures Guided(w, key, cs + [c])
  {
  }

  /** What a fault that a client has met leads to: an error that it stands for, the driver's
      own when the range cannot be refetched, or the next attempt. */
  predicate Redirects(w: World, key: Key, reading: bool, c: Contact, o: Outcome)
    requires InReplicas(c)
  {
    if FaultAnswer(c.fault, reading).Some? then o == Finished(Err(FaultAnswer(c.fault, reading).value))
    else if c.fault.RangeNotFound? && DriverAnswer(w, c.at + 1).Some? then o == Finished(Err(DriverAnswer(w, c.at + 1).value))
    else o.Continue? && Follows(c, o.next) && (c.fault.RangeNotFound? ==> o.next.desc == w.locate(c.at + 1, key) && o.next.index == 0)
  }

  /** The callback took the node's answer for a success. */
  predicate TakenAsFine(req: Request, f: Fault) {
    f.Fine? || (req.BatchGet? && f.RangeNotFound?)
  }

  /** What one turn of the retry loop comes to, in full. A key that does not exist is an
      error of the callback's, after which a stopped client gives up as after any other. */
  predicate Turn(w: World, intents: map<Key, Bytes>, req: Request, key: Key, c: Contact, o: Outcome)
    requires InReplicas(c)
  {
    if w.link(c.at).Some? then o == Finished(Err(LinkError(w.link(c.at).value)))
    else if TakenAsFine(req, c.fault) then
      && o.Finished?
      && (o.result.Err? <==> req.Get? && Visible(w, intents, req.key) == [] && w.closed(c.at + 1))
      && (o.result.Err? ==> o.result.error == InvalidState)
    else if w.closed(c.at + 1) then o == Finished(Err(InvalidState))
    else Redirects(w, key, Reading(req), c, o)
  }

  /** A turn with what it leaves behind. */
  ghost predicate Turned(w: World, entries: map<nat, RangeDesc>, req: Request, key: Key, a: Trace, b: Trace, c: Contact, o: Outcome)
    requires InReplicas(c)
  {
    && Turn(w, b.intents, req, key, c, o) && Attempted(req, Succeeded(o), a, b, c)
    && b.contacts == (if w.link(c.at).Some? then a.contacts else a.contacts + [c])
    && (Succeeded(o) ==> Correct(w, b.intents, req, o.result.value) && Remembered(entries, c, req, o.result.value))
  }

  /** One call of the callback with what it leaves behind. A read leaves nothing, whether its
      answer is used or not. */
  ghost predicate Tried(w: World, req: Request, a: Trace, b: Trace, c: Contact, fine: bool, reply: Reply) {
    && b.contacts == a.contacts + [c] && Attempted(req, fine, a, b, c) && (req.Get? ==> Attempted(req, false, a, b, c))
    && (fine ==> Correct(w, b.intents, req, reply))
    && (reply.Moved? <==> req.BatchGet? && c.fault.RangeNotFound?)
  }

  lemma TurnUnlinked(w: World, entries: map<nat, RangeDesc>, req: Request, key: Key, a: Trace, c: Contact)
    requires InReplicas(c) && w.link(c.at).Some?
    ensures Turned(w, entries, req, key, a, a, c, Finished(Err(LinkError(w.link(c.at).value))))
  {
    AttemptedNothing(req, a, c);
  }

  lemma TurnAfterFault(w: World, entries: map<nat, RangeDesc>, req: Request, key: Key, a: Trace, b: Trace, c: Contact,
                       reply: Reply, o: Outcome)
    requires InReplicas(c) && w.link(c.at).None? && !TakenAsFine(req, c.fault) && Tried(w, req, a, b, c, false, reply)
    requires if w.closed(c.at + 1) then o == Finished(Err(InvalidState)) else Redirects(w, key, Reading(req), c, o)
    ensures Turned(w, entries, req, key, a, b, c, o)
  {
    hide Attempted;
  }

  lemma TurnAfterAnswer(w: World, entries: map<nat, RangeDesc>, req: Request, key: Key, a: Trace, b: Trace, c: Contact,
                        reply: Reply, o: Outcome)
    requires InReplicas(c) && w.link(c.at).None? && TakenAsFine(req, c.fault) && Tried(w, req, a, b, c, true, reply)
    requires !reply.Moved? ==> Missing(req, reply) || Recorded(entries, Placed(c))
    requires o == if Missing(req, reply) && w.closed(c.at + 1) then Finished(Err(InvalidState)) else Finished(Ok(reply))
    ensures Turned(w, entries, req, key, a, b, c, o)
  {
    hide Attempted;
  }

  /** When a turn failed for a reason, and when nothing was wrong with it. */
  lemma TurnExplained(w: World, intents: map<Key, Bytes>, req: Request, key: Key, c: Contact, o: Outcome)
    requires InReplicas(c) && c.fault == w.fault(c.at) && Turn(w, intents, req, key, c, o)
    ensures o.Finished? && o.result.Err? ==> Blamed(w, req, o.result.error, c.at, if w.link(c.at).Some? then c.at else c.at + 1)
    ensures o.Continue? ==> w.link(c.at).None? && Follows(c, o.next) && GoesOn(w, key, c, o.next)
    ensures Calm(w) ==> Succeeded(o)
    ensures Meets(w, Conflict, c.at) ==> o == Finished(Err(NeedRetry(true)))
    ensures Meets(w, Disconnected, c.at) ==> o.Continue?
  {
    assert Calm(w) ==> w.fault(c.at).Fine? && w.link(c.at).None? && !w.closed(c.at + 1);
    if o.Finished? && o.result.Err? {
      if w.link(c.at).Some? {
        BlamedAt(w, req, o.result.error, c.at, c.at, c.at);
      } else if Causes(w, req, o.result.error, c.at) {
        BlamedAt(w, req, o.result.error, c.at, c.at, c.at + 1);
      } else {
        BlamedAt(w, req, o.result.error, c.at, c.at + 1, c.at + 1);
      }
    }
  }

  // ------------------------------------------------------------ the client

  /** The part of the client that all requests go through, with its view of the cluster. */
  class Base {
    const world: World
    const cache: Cache
    var tick: nat
    var intents: map<Key, Bytes>
    ghost var contacts: seq<Contact>
    ghost var log: seq<Event>

    /** A client after some number of requests, with what it has cached so far. */
    constructor (world: World, cache: Cache, tick: nat)
      requires Laid(world) && Honest(world) && cache.Valid() && AllFetched(world, cache.entries, tick)
      ensures Valid() && this.world == world && this.cache == cache
      ensures this.tick == tick && intents == map[] && contacts == [] && log == []
    {
      this.world, this.cache, this.tick := world, cache, tick;
      intents, contacts, log := map[], [], [];
    }

    ghost predicate Valid()
      reads this`tick, cache
    {
      Laid(world) && Honest(world) && cache.Valid() && AllFetched(world, cache.entries, tick)
    }

    /** getRangeDescFromCache: a cached descriptor of the key's range, fetched on a miss.
        A fetched descriptor never overlaps those cached before it. */
    method GetRangeDescFromCache(key: Key) returns (r: ClientResult<nat>)
      requires Valid() && InSpace(key)
      modifies this`tick, cache
      ensures Valid() && tick >= old(tick)
      ensures r.Ok? ==> r.value in cache.entries && Contains(cache.entries[r.value].desc, key)
      ensures if old(Holding(cache.entries, key)) then r.Ok? && cache.entries == old(cache.entries)
              else
                && tick == old(tick) + 1 && ErrorIn(r) == DriverAnswer(world, old(tick))
                && cache.entries == if r.Ok? then old(cache.entries)[r.value := RangeDesc(0, world.locate(old(tick), key))]
                                    else old(cache.entries)
    {
      InSpaceNotEmpty(key);
      var hit := cache.Lookup(key);
      if hit.Some? { return Ok(hit.value); }
      var failed, rd := DriverAnswer(world, tick), world.locate(tick, key);
      FetchedRange(world, tick, key);
      forall id | id in cache.entries ensures Disjoint(cache.entries[id].desc, rd) {
        DisjointFromOlder(world, cache.entries[id].desc, key, tick);
      }
      hide Laid, Honest, Disjoint, RangeCache.WellFormed, InSpace, Contains;
      tick := tick + 1;
      if failed.Some? { return Err(failed.value); }
      var id := cache.Add(rd);
      assert id in cache.entries && cache.entries[id].desc == rd;
      var again := cache.Lookup(key);
      return Ok(again.value);
    }

    /** The descriptor itself. */
    method Locate(key: Key) returns (r: ClientResult<RangeDescriptor>)
      requires Valid() && InSpace(key)
      modifies this`tick, cache
      ensures Valid() && tick >= old(tick)
      ensures r.Ok? ==> Contains(r.value, key) && Fetched(world, r.value, tick)
      ensures r.Err? ==> DriverAnswer(world, old(tick)) == Some(r.error)
    {
      hide Laid, Honest, Contains, InSpace, Fetched, Holding;
      var found := GetRangeDescFromCache(key);
      if found.Err? { return Err(found.error); }
      return Ok(cache.entries[found.value].desc);
    }

    /** A request to the placement driver, such as the one for a timestamp. */
    method AskDriver() returns (e: Option<ClientError>)
      requires Valid()
      modifies this`tick
      ensures Valid() && tick == old(tick) + 1 && e == DriverAnswer(world, old(tick))
    {
      hide Laid, Honest, InSpace;
      e := DriverAnswer(world, tick);
      FetchedStays(world, cache.entries, tick);
      tick := tick + 1;
    }

    /** The callback and the node behind it: an answer, or the fault it met. Batch reads
        swallow a moved range and forget the cached ones. */
    method Call(id: nat, rd: RangeDescriptor, key: Key, req: Request) returns (f: Fault, reply: Reply)
      requires Valid() && WellPosed(req, key) && Cached(id, rd, key)
      modifies this`tick, this`intents, this`log, cache
      ensures Valid() && tick == old(tick) + 1
      ensures f == if req.BatchGet? && world.fault(old(tick)).RangeNotFound? then Fine else world.fault(old(tick))
      ensures log == old(log) + NewEvents(req, f.Fine?)
      ensures Effect(req, f.Fine?, old(intents), intents)
      ensures f.Fine? ==> Correct(world, intents, req, reply)
      ensures reply.Moved? <==> req.BatchGet? && world.fault(old(tick)).RangeNotFound?
      ensures if reply.Moved? then cache.entries == map[] else Cached(id, rd, key)
    {
      FetchedIsProper(world, rd, tick);
      f := world.fault(tick);
      if req.BatchGet? && f.RangeNotFound? {
        assert log == log + NewEvents(req, true);
        tick := tick + 1;
        cache.Clear();
        return Fine, Moved;
      }
      CallIsCorrect(world, tick, intents, rd, key, req, f.Fine?);
      hide Laid, Honest, Correct, PutEffect, Contains, InSpace;
      log := log + NewEvents(req, f.Fine?);
      intents := IntentsAfter(world, tick, intents, req, f.Fine?);
      reply := if f.Fine? then Answer(world, tick, intents, rd, req) else Done;
      tick := tick + 1;
    }

    /** The cache holds this descriptor, and it is the range of the key. */
    ghost predicate Cached(id: nat, rd: RangeDescriptor, key: Key)
      reads cache
    {
      id in cache.entries && cache.entries[id].desc == rd && Contains(rd, key)
    }

    /** After a moved range: everything cached is forgotten, and the driver is asked. */
    method Refetch(key: Key) returns (o: Outcome)
      requires Valid() && InSpace(key)
      modifies this`tick, cache
      ensures Valid() && tick == old(tick) + 1
      ensures if DriverAnswer(world, old(tick)).Some? then
                o == Finished(Err(DriverAnswer(world, old(tick)).value)) && cache.entries == map[]
              else
                && o.Continue? && o.next.desc == world.locate(old(tick), key) && o.next.index == 0 && Sound(o.next)
                && cache.entries == map[o.id := RangeDesc(0, o.next.desc)] && Contains(o.next.desc, key)
    {
      hide Laid, Honest, InSpace, Contains, Disjoint, RangeCache.WellFormed;
      cache.Clear();
      var again := GetRangeDescFromCache(key);
      if again.Err? { return Finished(Err(again.error)); }
      var d := cache.entries[again.value];
      LeaderInRange(again.value);
      return Continue(again.value, Contact(d.desc, d.leaderIndex, d.desc.replicas[d.leaderIndex], tick, Fine));
    }

    /** What a failed attempt leads to: the same node again, the next replica, the hinted
        one, the refetched range, or giving up. Only a hint and a moved range change what is
        cached: the first the leader, the second everything. */
    method Redirect(key: Key, reading: bool, id: nat, c: Contact) returns (o: Outcome)
      requires Valid() && InSpace(key) && !c.fault.Fine? && tick == c.at + 1
      requires Cached(id, c.desc, key) && InReplicas(c)
      modifies this`tick, cache
      ensures Valid() && tick >= old(tick) && Redirects(world, key, reading, c, o)
      ensures o.Continue? ==> Cached(o.id, o.next.desc, key) && InReplicas(o.next)
      ensures cache.entries ==
              if c.fault.RangeNotFound? then (if o.Continue? then map[o.id := RangeDesc(0, o.next.desc)] else map[])
              else if c.fault.NotLeader? && c.fault.hint > 0 && c.fault.hint in c.desc.replicas
              then old(cache.entries)[id := RangeDesc(IndexOf(c.desc.replicas, c.fault.hint), c.desc)]
              else old(cache.entries)
    {
      hide Laid, Honest, Disjoint, Contains, InSpace, RangeCache.WellFormed;
      var replicas := c.desc.replicas;
      match c.fault {
        case Aborted => return if reading then Continue(id, c) else Finished(Err(TransactionAborted));
        case Conflict => return Finished(Err(NeedRetry(true)));
        case NotLeader(h) =>
          if h > 0 {
            var j := cache.SetLeaderNodeID(id, c.desc, h);
            return Continue(id, c.(index := j, node := h));
          }
        case RangeNotFound =>
          o := Refetch(key);
          return;
        case Broken => return Finished(Err(NodeFailed));
        case Disconnected =>
      }
      NextIndex(c.index, |replicas|);
      var j := (c.index + 1) % |replicas|;
      return Continue(id, c.(index := j, node := replicas[j]));
    }

    /** After a fault: a stopped client gives up, else Redirect decides. */
    method Recover(key: Key, req: Request, id: nat, c: Contact) returns (o: Outcome)
      requires Valid() && InSpace(key) && Cached(id, c.desc, key) && InReplicas(c) && !c.fault.Fine? && tick == c.at + 1
      modifies this`tick, cache
      ensures Valid() && tick >= old(tick)
      ensures if world.closed(c.at + 1) then o == Finished(Err(InvalidState)) else Redirects(world, key, Reading(req), c, o)
      ensures o.Continue? ==> Cached(o.id, o.next.desc, key) && InReplicas(o.next)
    {
      hide Valid, Cached, InSpace, Redirects;
      if world.closed(tick) { return Finished(Err(InvalidState)); }
      o := Redirect(key, Reading(req), id, c);
    }

    /** Success: the position of the node that answered is kept, if its range still is. */
    method Remember(id: nat, c: Contact, key: Key)
      requires Valid() && InReplicas(c) && (cache.entries == map[] || Cached(id, c.desc, key))
      modifies cache
      ensures Valid() && (old(cache.entries) == map[] || Recorded(cache.entries, RangeDesc(c.index, c.desc)))
    {
      hide Laid, Honest, Contains, Disjoint, RangeCache.WellFormed;
      cache.SetLeaderNodeIdx(id, c.index);
      if old(cache.entries) != map[] { assert id in cache.entries && cache.entries[id] == RangeDesc(c.index, c.desc); }
    }

    /** The callback at one node, on the record. */
    method Try(key: Key, req: Request, id: nat, next: Contact) returns (f: Fault, reply: Reply)
      requires Valid() && WellPosed(req, key) && Cached(id, next.desc, key)
      modifies this, cache
      ensures Valid() && tick == old(tick) + 1
      ensures f == if TakenAsFine(req, world.fault(old(tick))) then Fine else world.fault(old(tick))
      ensures Tried(world, req, old(Snapshot()), Snapshot(), Made(next, old(tick)), f.Fine?, reply)
      ensures if reply.Moved? then cache.entries == map[] else Cached(id, next.desc, key)
      ensures !f.Fine? ==> !reply.Moved?
    {
      hide Valid, WellPosed, Cached, Correct, Effect, NewEvents, Attempted;
      ghost var c, start := Made(next, tick), Snapshot();
      f, reply := Call(id, next.desc, key, req);
      contacts := contacts + [c];
      AttemptedOnce(req, f.Fine?, start, Snapshot(), c);
    }

    /** The attempt as it is made at time t. */
    function Made(next: Contact, t: nat): Contact {
      next.(at := t, fault := world.fault(t))
    }

    /** The callback succeeded: a key that does not exist is still reported as an error of the
        node, for which a stopped client gives up. */
    method Accept(key: Key, req: Request, id: nat, next: Contact, reply: Reply) returns (o: Outcome)
      requires Valid() && InReplicas(next) && (if reply.Moved? then cache.entries == map[] else Cached(id, next.desc, key))
      modifies cache
      ensures Valid()
      ensures o == if Missing(req, reply) && world.closed(tick) then Finished(Err(InvalidState)) else Finished(Ok(reply))
      ensures !reply.Moved? ==> Missing(req, reply) || Recorded(cache.entries, RangeDesc(next.index, next.desc))
    {
      hide Valid, Contains, Recorded;
      if !Missing(req, reply) {
        Remember(id, next, key);
      } else if world.closed(tick) {
        return Finished(Err(InvalidState));
      }
      return Finished(Ok(reply));
    }

    /** One turn of the retry loop: the descriptor in use, the position of the replica
        tried and the node contacted. */
    method Attempt(key: Key, req: Request, id: nat, next: Contact) returns (o: Outcome, ghost c: Contact)
      requires Valid() && WellPosed(req, key) && Cached(id, next.desc, key) && InReplicas(next)
      modifies this, cache
      ensures Valid() && tick >= old(tick) && (world.link(old(tick)).None? ==> tick > old(tick))
      ensures c == Made(next, old(tick)) && Turned(world, cache.entries, req, key, old(Snapshot()), Snapshot(), c, o)
      ensures o.Continue? ==> Cached(o.id, o.next.desc, key) && InReplicas(o.next)
    {
      WellPosedInSpace(req, key);
      hide Valid, WellPosed, Cached, InSpace, Turned, Tried, TakenAsFine;
      c := Made(next, tick);
      if world.link(tick).None? {
        var f, reply := Try(key, req, id, next);
        o := Settle(key, req, id, next, f, reply, old(Snapshot()), c);
      } else {
        o := Finished(Err(LinkError(world.link(tick).value)));
        TurnUnlinked(world, cache.entries, req, key, Snapshot(), c);
      }
    }

    /** What follows the callback. */
    method Settle(key: Key, req: Request, id: nat, next: Contact, f: Fault, reply: Reply, ghost a: Trace, ghost c: Contact)
      returns (o: Outcome)
      requires Valid() && InSpace(key) && InReplicas(next) && tick > 0 && c == Made(next, tick - 1) && world.link(c.at).None?
      requires f == if TakenAsFine(req, c.fault) then Fine else c.fault
      requires Tried(world, req, a, Snapshot(), c, f.Fine?, reply)
      requires if reply.Moved? then cache.entries == map[] && f.Fine? else Cached(id, next.desc, key)
      modifies this`tick, cache
      ensures Valid() && tick >= old(tick) && Turned(world, cache.entries, req, key, a, Snapshot(), c, o)
      ensures o.Continue? ==> Cached(o.id, o.next.desc, key) && InReplicas(o.next)
    {
      hide Valid, Cached, InSpace, Tried, Redirects, Turned, Recorded, Missing;
      if f.Fine? {
        o := Accept(key, req, id, next, reply);
        TurnAfterAnswer(world, cache.entries, req, key, a, Snapshot(), c, reply, o);
      } else {
        o := Recover(key, req, id, next.(at := tick - 1, fault := f));
        TurnAfterFault(world, cache.entries, req, key, a, Snapshot(), c, reply, o);
      }
    }

    ghost function Snapshot(): Trace
      reads this`log, this`intents, this`contacts
    {
      Trace(log, intents, contacts)
    }

    /** doNodeRequest: the attempts start from the leader that was known for the key, or
        fetched, and what they come to is told by Answered. */
    method DoNodeRequest(key: Key, req: Request) returns (r: ClientResult<Reply>)
      requires Valid() && WellPosed(req, key)
      modifies this, cache
      ensures Valid() && Answered(world, cache.entries, req, key, old(Snapshot()), Snapshot(), old(tick), tick, r)
      ensures |contacts| > |old(contacts)| ==> Route(world, old(cache.entries), old(tick), key, Placed(contacts[|old(contacts)|]))
      ensures !old(Holding(cache.entries, key)) && DriverAnswer(world, old(tick)).Some? ==>
                r == Err(DriverAnswer(world, old(tick)).value) && contacts == old(contacts)
    {
      WellPosedInSpace(req, key);
      hide Valid, Answered, WellPosed, Contains, InSpace;
      var found := GetRangeDescFromCache(key);
      if found.Err? {
        NeverSent(world, cache.entries, req, key, Snapshot(), old(tick), tick, found.error);
        return Err(found.error);
      }
      ghost var routed := tick;
      var id, d := found.value, cache.entries[found.value];
      LeaderInRange(id);
      var next := Contact(d.desc, d.leaderIndex, d.desc.replicas[d.leaderIndex], tick, Fine);
      r := Chase(key, req, id, next);
      AnsweredLater(world, cache.entries, req, key, old(Snapshot()), Snapshot(), old(tick), routed, tick, r);
    }

    lemma LeaderInRange(id: nat)
      requires Valid() && id in cache.entries
      ensures InRange(cache.entries[id])
    {
    }

    /** The retry loop of doNodeRequest. */
    method Chase(key: Key, req: Request, first: nat, contact: Contact) returns (r: ClientResult<Reply>)
      requires Valid() && WellPosed(req, key) && Cached(first, contact.desc, key) && Sound(contact)
      modifies this, cache
      ensures Valid() && Answered(world, cache.entries, req, key, old(Snapshot()), Snapshot(), old(tick), tick, r)
      ensures |contacts| > |old(contacts)| ==> Placed(contacts[|old(contacts)|]) == Placed(contact)
    {
      ghost var start := Snapshot();
      ChaseStarts(world, key, req, start, contact, tick);
      hide Valid, WellPosed, Contains, Answered, Turned, Chasing, InReplicas, Placed;
      var id, next := first, contact;
      var attempt := 0;
      while attempt <= MAX_RETRIES
        invariant 0 <= attempt <= MAX_RETRIES + 1
        invariant Valid() && Cached(id, next.desc, key) && InReplicas(next)
        invariant Chasing(world, key, req, start, Snapshot(), Placed(contact), next, old(tick), tick, attempt)
        decreases MAX_RETRIES - attempt
      {
        ghost var before, asked := Snapshot(), tick;
        var o, c := Attempt(key, req, id, next);
        ChaseOn(world, cache.entries, key, req, start, before, Snapshot(), Placed(contact), next, c, old(tick), asked, tick, o, attempt);
        if o.Finished? { return o.result; }
        id, next := o.id, o.next;
        attempt := attempt + 1;
      }
      ChasedInVain(world, cache.entries, key, req, start, Snapshot(), Placed(contact), next, old(tick), tick);
      return Err(NeedRetry(false));
    }
  }

  /** What a request made from time `from` to `now` came to. Its attempts go to nodes of a
      range of the key, one leading to the next; success is a right answer, and leaves the
      position of the node that gave it in the cache. The untraced retryable error means that
      all attempts were made, any other error that something happened which it stands for. */
  ghost predicate Answered(w: World, entries: map<nat, RangeDesc>, req: Request, key: Key, a: Trace, b: Trace,
                           from: nat, now: nat, r: ClientResult<Reply>)
  {
    && now >= from && Requested(req, r.Ok?, a, b) && |b.contacts| <= |a.contacts| + MAX_RETRIES + 1
    && Guided(w, key, b.contacts[|a.contacts|..])
    && (r.Ok? ==>
          && Correct(w, b.intents, req, r.value) && now > from && |b.contacts| > |a.contacts|
          && Remembered(entries, b.contacts[|b.contacts| - 1], req, r.value)
          && (r.value.Moved? ==> MovedBetween(w, from, now)))
    && (r.Err? ==> RequestError(r.error) &&
                   if r.error == NeedRetry(false) then |b.contacts| == |a.contacts| + MAX_RETRIES + 1
                   else Blamed(w, req, r.error, from, now))
    && (Calm(w) ==> r.Ok?)
    && (FailsWith(w, Conflict, from) ==> r == Err(NeedRetry(true)) && |b.contacts| == |a.contacts| + 1)
    && (FailsWith(w, Disconnected, from) ==> r == Err(NeedRetry(false)))
  }

  /** What most callers want to know of an answer. */
  lemma AnswerMeans(w: World, entries: map<nat, RangeDesc>, req: Request, key: Key, a: Trace, b: Trace,
                    from: nat, now: nat, r: ClientResult<Reply>)
    requires Answered(w, entries, req, key, a, b, from, now, r)
    ensures from <= now && Requested(req, r.Ok?, a, b) && a.contacts <= b.contacts && a.log <= b.log
    ensures Guided(w, key, b.contacts[|a.contacts|..])
    ensures Reading(req) ==> b.log == a.log && b.intents == a.intents
    ensures r.Ok? ==> Correct(w, b.intents, req, r.value)
    ensures r.Err? ==> RequestError(r.error) && !Calm(w)
  {
    hide Guided, Correct, Remembered, Calm, FailsWith, Walk, Blamed;
    if Reading(req) { assert b.log == a.log + b.log[|a.log|..]; }
  }

  lemma AnswerMoved(w: World, entries: map<nat, RangeDesc>, req: Request, key: Key, a: Trace, b: Trace,
                    from: nat, now: nat, r: ClientResult<Reply>)
    requires Answered(w, entries, req, key, a, b, from, now, r) && r.Ok? && r.value.Moved?
    ensures MovedBetween(w, from, now) && from < now
  {
  }

  lemma NeverSent(w: World, entries: map<nat, RangeDesc>, req: Request, key: Key, a: Trace, from: nat, now: nat, e: ClientError)
    requires from <= now && DriverAnswer(w, from) == Some(e)
    ensures Answered(w, entries, req, key, a, a, from, now, Err(e))
  {
    NothingRequested(req, a);
    StillFailing(w, from, from);
    BlamedAt(w, req, e, from, from, now);
    BlamedWithin(w, req, e, from, from, now, now);
    assert Calm(w) ==> w.driver(from).None?;
  }

  lemma AnsweredLater(w: World, entries: map<nat, RangeDesc>, req: Request, key: Key, a: Trace, b: Trace,
                      from: nat, routed: nat, now: nat, r: ClientResult<Reply>)
    requires Answered(w, entries, req, key, a, b, routed, now, r) && from <= routed
    ensures Answered(w, entries, req, key, a, b, from, now, r)
  {
    StillFailing(w, from, routed);
    if r.Err? && r.error != NeedRetry(false) { BlamedWithin(w, req, r.error, from, routed, now, now); }
    hide Requested, Guided, Correct, Remembered, Calm, FailsWith;
  }

  /** The range and position an attempt is made with. */
  function Placed(c: Contact): RangeDesc {
    RangeDesc(c.index, c.desc)
  }

  lemma WellPosedInSpace(req: Request, key: Key)
    requires WellPosed(req, key)
    ensures InSpace(key)
  {
  }

  /** The retry loop between two turns, after n of them. */
  ghost predicate Chasing(w: World, key: Key, req: Request, a: Trace, b: Trace, first: RangeDesc, next: Contact,
                          from: nat, now: nat, n: nat)
  {
    && Requested(req, false, a, b) && |b.contacts| == |a.contacts| + n && from <= now
    && Placed(if n == 0 then next else b.contacts[|a.contacts|]) == first
    && (var cs := b.contacts[|a.contacts|..];
        Guided(w, key, cs) && Awaits(w, key, cs, next, now) && Continues(cs, next))
    && if n == 0 then now == from else !Calm(w) && !FailsWith(w, Conflict, from)
  }

  lemma ChaseStarts(w: World, key: Key, req: Request, a: Trace, next: Contact, now: nat)
    requires Sound(next)
    ensures Chasing(w, key, req, a, a, Placed(next), next, now, now, 0)
  {
    NothingRequested(req, a);
  }

  lemma ChasedInVain(w: World, entries: map<nat, RangeDesc>, key: Key, req: Request, a: Trace, b: Trace,
                     first: RangeDesc, next: Contact, from: nat, now: nat)
    requires Chasing(w, key, req, a, b, first, next, from, now, MAX_RETRIES + 1)
    ensures Answered(w, entries, req, key, a, b, from, now, Err(NeedRetry(false)))
    ensures |b.contacts| > |a.contacts| ==> Placed(b.contacts[|a.contacts|]) == first
  {
    hide Requested, Guided, Awaits, Continues, Calm, FailsWith;
  }

  lemma ChaseOn(w: World, entries: map<nat, RangeDesc>, key: Key, req: Request, a: Trace, b: Trace, d: Trace,
                first: RangeDesc, next: Contact, c: Contact, from: nat, asked: nat, now: nat, o: Outcome, n: nat)
    requires Chasing(w, key, req, a, b, first, next, from, asked, n) && n <= MAX_RETRIES && Contains(next.desc, key) && InReplicas(next)
    requires c == next.(at := asked, fault := w.fault(asked)) && Turned(w, entries, req, key, b, d, c, o)
    requires now >= asked && (w.link(asked).None? ==> now > asked) && (o.Continue? ==> InReplicas(o.next))
    ensures o.Finished? ==> Answered(w, entries, req, key, a, d, from, now, o.result)
    ensures o.Finished? && |d.contacts| > |a.contacts| ==> Placed(d.contacts[|a.contacts|]) == first
    ensures o.Continue? ==> Chasing(w, key, req, a, d, first, o.next, from, now, n + 1)
  {
    ChaseWalks(w, key, req, a, b, d, first, next, c, from, asked, o, n);
    ChaseExplained(w, req, key, d.intents, c, from, now, o);
    hide Turn, Attempted, Requested, Guided, Calm, FailsWith, Blamed, Correct, GoesOn, Follows, Contains, Continues, Awaits, RequestError;
    if o.Continue? {
      assert b.contacts[|a.contacts|..] + [c] == d.contacts[|a.contacts|..];
      ContinuesAfter(w, key, b.contacts[|a.contacts|..], c, o.next, now);
    } else if Succeeded(o) && o.result.value.Moved? {
      assert MovedBetween(w, from, now);
    }
  }

  lemma ContinuesAfter(w: World, key: Key, cs: seq<Contact>, c: Contact, next: Contact, now: nat)
    requires InReplicas(c) && InReplicas(next) && Follows(c, next) && GoesOn(w, key, c, next) && c.at < now
    ensures Continues(cs + [c], next) && Awaits(w, key, cs + [c], next, now)
  {
  }

  lemma ChaseWalks(w: World, key: Key, req: Request, a: Trace, b: Trace, d: Trace,
                   first: RangeDesc, next: Contact, c: Contact, from: nat, asked: nat, o: Outcome, n: nat)
    requires Chasing(w, key, req, a, b, first, next, from, asked, n) && Contains(next.desc, key) && InReplicas(next)
    requires c == next.(at := asked, fault := w.fault(asked)) && Attempted(req, Succeeded(o), b, d, c)
    requires if w.link(asked).Some? then d.contacts == b.contacts else d.contacts == b.contacts + [c]
    ensures Requested(req, Succeeded(o), a, d) && Guided(w, key, d.contacts[|a.contacts|..])
    ensures |b.contacts| >= |a.contacts| && (w.link(asked).None? ==> d.contacts[|a.contacts|..] == b.contacts[|a.contacts|..] + [c])
  {
    RequestedOnce(req, Succeeded(o), a, b, d, next, c);
    hide Attempted, Walk, Calm, FailsWith;
    var cs := b.contacts[|a.contacts|..];
    if w.link(asked).None? {
      GuidedOn(w, key, cs, next, c);
      assert d.contacts[|a.contacts|..] == cs + [c];
    }
  }

  lemma ChaseExplained(w: World, req: Request, key: Key, intents: map<Key, Bytes>, c: Contact, from: nat, now: nat, o: Outcome)
    requires InReplicas(c) && c.fault == w.fault(c.at) && Turn(w, intents, req, key, c, o) && from <= c.at <= now
    requires w.link(c.at).None? ==> now > c.at
    ensures o.Finished? && o.result.Err? ==>
              Blamed(w, req, o.result.error, from, now) && RequestError(o.result.error) && o.result.error != NeedRetry(false)
    ensures o.Continue? || Succeeded(o) ==> w.link(c.at).None?
    ensures o.Continue? ==> Follows(c, o.next) && GoesOn(w, key, c, o.next)
    ensures Calm(w) ==> Succeeded(o)
    ensures FailsWith(w, Conflict, from) ==> o == Finished(Err(NeedRetry(true))) && w.link(c.at).None?
    ensures FailsWith(w, Disconnected, from) ==> o.Continue?
  {
    TurnExplained(w, intents, req, key, c, o);
    StillFailing(w, from, c.at);
    if o.Finished? && o.result.Err? {
      BlamedWithin(w, req, o.result.error, from, c.at, if w.link(c.at).Some? then c.at else c.at + 1, now);
    }
  }

  /** What a request leaves behind: the events, the intents and the attempts. */
  datatype Trace = Trace(log: seq<Event>, intents: map<Key, Bytes>, contacts: seq<Contact>)

  ghost predicate Requested(req: Request, acked: bool, a: Trace, b: Trace) {
    && a.log <= b.log && Attempts(req, acked, b.log[|a.log|..])
    && Effect(req, acked, a.intents, b.intents)
    && a.contacts <= b.contacts && Walk(b.contacts[|a.contacts|..])
  }

  lemma NothingRequested(req: Request, a: Trace)
    ensures Requested(req, false, a, a)
  {
    NoAttempt(req, a.log, a.intents);
  }

  /** One attempt: its events, its effect, and the contact unless there was no connection. */
  ghost predicate Attempted(req: Request, acked: bool, a: Trace, b: Trace, c: Contact) {
    && a.log <= b.log && Attempts(req, acked, b.log[|a.log|..])
    && Effect(req, acked, a.intents, b.intents)
    && (b.contacts == a.contacts || b.contacts == a.contacts + [c])
  }

  lemma AttemptedNothing(req: Request, a: Trace, c: Contact)
    ensures Attempted(req, false, a, a, c)
  {
    NoAttempt(req, a.log, a.intents);
  }

  /** A read leaves nothing behind, whether its answer is used or not. */
  lemma AttemptedOnce(req: Request, acked: bool, a: Trace, b: Trace, c: Contact)
    requires b.log == a.log + NewEvents(req, acked) && Effect(req, acked, a.intents, b.intents)
    requires b.contacts == a.contacts + [c]
    ensures Attempted(req, acked, a, b, c) && (req.Get? ==> Attempted(req, false, a, b, c))
  {
    assert b.log[|a.log|..] == NewEvents(req, acked);
  }

  lemma RequestedOnce(req: Request, acked: bool, a: Trace, b: Trace, d: Trace, next: Contact, c: Contact)
    requires Requested(req, false, a, b) && Continues(b.contacts[|a.contacts|..], next)
    requires c == next.(at := c.at, fault := c.fault) && Attempted(req, acked, b, d, c)
    ensures Requested(req, acked, a, d)
  {
    var es, more := b.log[|a.log|..], d.log[|b.log|..];
    assert d.log[|a.log|..] == es + more;
    AttemptsAndEffects(req, acked, es, more, a.intents, b.intents, d.intents);
    var cs := b.contacts[|a.contacts|..];
    WalkOn(cs, c);
    if d.contacts != b.contacts { assert d.contacts[|a.contacts|..] == cs + [c]; }
  }

  /** The contact a walk goes on with; its answer does not matter. */
  ghost predicate Continues(cs: seq<Contact>, next: Contact) {
    && InReplicas(next)
    && if cs == [] then Sound(next) else InReplicas(cs[|cs| - 1]) && Follows(cs[|cs| - 1], next)
  }

  lemma WalkOn(cs: seq<Contact>, c: Contact)
    requires Walk(cs) && Continues(cs, c)
    ensures Walk(cs + [c])
  {
  }

  lemma AttemptsAndEffects(req: Request, acked: bool, es: seq<Event>, more: seq<Event>,
                           a: map<Key, Bytes>, b: map<Key, Bytes>, c: map<Key, Bytes>)
    requires Attempts(req, false, es) && Attempts(req, acked, more)
    requires Effect(req, false, a, b) && Effect(req, acked, b, c)
    ensures Attempts(req, acked, es + more) && Effect(req, acked, a, c)
  {
    MoreAttempts(req, acked, es, more);
    if req.Put? { PutEffectTwice(a, b, c, req.items, false, acked); }
  }

  lemma NoAttempt(req: Request, log: seq<Event>, intents: map<Key, Bytes>)
    ensures Attempts(req, false, log[|log|..]) && Effect(req, false, intents, intents)
  {
  }

  /** The node's side of a request at time t. */
  function IntentsAfter(w: World, t: nat, intents: map<Key, Bytes>, req: Request, ok: bool): map<Key, Bytes> {
    if req.Put? then ApplyPut(w, t, intents, req.items, ok) else intents
  }

  function Answer(w: World, t: nat, intents: map<Key, Bytes>, rd: RangeDescriptor, req: Request): (r: Reply)
    ensures !r.Moved?
  {
    match req
    case Get(k) => Values([Visible(w, intents, k)])
    case BatchGet(_, keys) => Values(seq(|keys|, i requires 0 <= i < |keys| => Visible(w, intents, keys[i])))
    case Scan(from) => Rows(rd, w.scan(t, intents, from, rd.endKey))
    case _ => Done
  }

  lemma CallIsCorrect(w: World, t: nat, intents: map<Key, Bytes>, rd: RangeDescriptor, key: Key, req: Request, ok: bool)
    requires Honest(w) && WellPosed(req, key) && Contains(rd, key)
    requires rd.endKey != [] && rd.endKey in w.bounds && Leq(rd.endKey, END_PREFIX)
    ensures Effect(req, ok, intents, IntentsAfter(w, t, intents, req, ok))
    ensures Correct(w, IntentsAfter(w, t, intents, req, ok), req, Answer(w, t, IntentsAfter(w, t, intents, req, ok), rd, req))
  {
    match req {
      case Put(_, items) => ApplyPutEffect(w, t, intents, items, ok);
      case Scan(from) => assert CorrectScan(w, intents, from, rd.endKey, w.scan(t, intents, from, rd.endKey));
      case _ =>
    }
  }

  predicate Reading(req: Request) {
    req.Get? || req.BatchGet? || req.Scan?
  }

  /** Something that happened at time t and that a request may fail for. Reads do not fail
      because of other transactions. */
  predicate Causes(w: World, req: Request, e: ClientError, t: nat) {
    || FaultAnswer(w.fault(t), Reading(req)) == Some(e)
    || DriverAnswer(w, t) == Some(e)
    || (w.link(t).Some? && LinkError(w.link(t).value) == e)
    || (e.InvalidState? && w.closed(t))
  }

  /** Error by error what may have caused it. A cause is worth another attempt only if it is a
      conflict or a driver that ran out of attempts, asked for a range or for an address; and
      then the error is always a traced one. */
  lemma ErrorsByCause(w: World, req: Request, e: ClientError, t: nat)
    ensures Causes(w, req, e, t) <==>
            match e
            case NeedRetry(traced) =>
              traced && (w.fault(t).Conflict? || w.driver(t) == Some(Overrun) || w.link(t) == Some(FromDriver(Overrun)))
            case InvalidState => w.closed(t) || w.driver(t) == Some(Shutdown) || w.link(t) == Some(FromDriver(Shutdown))
            case PDFailed => w.driver(t) == Some(Refusal) || w.link(t) == Some(FromDriver(Refusal))
            case NoConnection => w.link(t) == Some(NoAddress)
            case TransactionAborted => w.fault(t).Aborted? && (req.Begin? || req.End? || req.Put?)
            case NodeFailed => w.fault(t).Broken?
            case _ => false
  {
  }

  /** The error that a request to the driver made at time t gets. */
  function DriverAnswer(w: World, t: nat): Option<ClientError> {
    if w.driver(t).Some? then Some(DriverError(w.driver(t).value)) else None
  }

  lemma StillFailing(w: World, now: nat, later: nat)
    requires now <= later
    ensures forall f :: FailsWith(w, f, now) ==> DriverAnswer(w, now).None? && FailsWith(w, f, later) && Meets(w, f, later)
  {
    assert forall f :: FailsWith(w, f, now) ==> Meets(w, f, now) && Meets(w, f, later);
  }

  lemma DriverNotCalm(w: World, t: nat)
    requires DriverAnswer(w, t).Some?
    ensures !Calm(w) && RequestError(DriverAnswer(w, t).value)
  {
  }

  predicate OfDriver(e: ClientError) {
    e in {PDFailed, NeedRetry(true), InvalidState}
  }

  /** The error that a fault is passed on as at once, if it is. */
  function FaultAnswer(f: Fault, reading: bool): Option<ClientError> {
    match f
    case Aborted => if reading then None else Some(TransactionAborted)
    case Conflict => Some(NeedRetry(true))
    case Broken => Some(NodeFailed)
    case _ => None
  }

  ghost predicate Blamed(w: World, req: Request, e: ClientError, a: nat, b: nat) {
    exists t: nat :: a <= t <= b && Causes(w, req, e, t)
  }

  lemma BlamedAt(w: World, req: Request, e: ClientError, a: nat, t: nat, b: nat)
    requires a <= t <= b && Causes(w, req, e, t)
    ensures Blamed(w, req, e, a, b)
  {
  }

  lemma BlamedWithin(w: World, req: Request, e: ClientError, a: nat, b: nat, c: nat, d: nat)
    requires Blamed(w, req, e, b, c) && a <= b && c <= d
    ensures Blamed(w, req, e, a, d) && RequestError(e) && e != NeedRetry(false)
  {
    var t: nat :| b <= t <= c && Causes(w, req, e, t);
  }

  /** The errors a request may end with. */
  predicate RequestError(e: ClientError) {
    e.NeedRetry? || e in {InvalidState, PDFailed, NoConnection, TransactionAborted, NodeFailed}
  }

  /** A node reported a range as moved to a request made in between. */
  ghost predicate MovedBetween(w: World, a: nat, b: nat) {
    exists t: nat :: a <= t < b && w.fault(t).RangeNotFound?
  }

  /** A key that does not exist is reported by Get's callback as an error. */
  predicate Missing(req: Request, reply: Reply) {
    req.Get? && reply == Values([[]])
  }

  /** What the cache knows after an answer: the position of the node that gave it, unless
      the range has moved or the key does not exist. */
  ghost predicate Remembered(entries: map<nat, RangeDesc>, c: Contact, req: Request, reply: Reply) {
    if reply.Moved? then c.fault.RangeNotFound? else Missing(req, reply) || Recorded(entries, RangeDesc(c.index, c.desc))
  }

  ghost predicate Recorded(entries: map<nat, RangeDesc>, d: RangeDesc) {
    exists id :: id in entries && entries[id] == d
  }

  datatype Outcome = Finished(result: ClientResult<Reply>) | Continue(id: nat, next: Contact)

  predicate Succeeded(o: Outcome) {
    o.Finished? && o.result.Ok?
  }

  function NewEvents(req: Request, acked: bool): (events: seq<Event>) {
    if req.Begin? || req.End? || req.Put? then [EventOf(req, acked)] else []
  }

  lemma FetchedIsProper(w: World, d: RangeDescriptor, now: nat)
    requires Laid(w) && Fetched(w, d, now)
    ensures d.endKey != [] && d.endKey in w.bounds && Leq(d.endKey, END_PREFIX)
  {
    var t: nat, k :| t <= now && InSpace(k) && d == w.locate(t, k);
    assert ProperRange(w, t, k);
  }

  /** A descriptor d was the range of some key at some time up to now. */
  ghost predicate Fetched(w: World, d: RangeDescriptor, now: nat) {
    exists t: nat, k :: t <= now && InSpace(k) && d == w.locate(t, k)
  }

  /** Every cached descriptor was right when it was fetched. */
  ghost predicate AllFetched(w: World, entries: map<nat, RangeDesc>, now: nat) {
    forall id :: id in entries ==> Fetched(w, entries[id].desc, now)
  }

  lemma FetchedStays(w: World, entries: map<nat, RangeDesc>, now: nat)
    requires AllFetched(w, entries, now)
    ensures AllFetched(w, entries, now + 1)
  {
    forall id | id in entries ensures Fetched(w, entries[id].desc, now + 1) {
      var t: nat, k :| t <= now && InSpace(k) && entries[id].desc == w.locate(t, k);
    }
  }

  lemma FetchedRange(w: World, now: nat, key: Key)
    requires Laid(w) && InSpace(key)
    ensures var d := w.locate(now, key);
            Fetched(w, d, now) && Contains(d, key) && RangeCache.WellFormed(d)
  {
    assert ProperRange(w, now, key);
  }

  lemma DisjointFromOlder(w: World, d: RangeDescriptor, key: Key, now: nat)
    requires Laid(w) && InSpace(key) && Fetched(w, d, now) && !Contains(d, key)
    ensures Disjoint(d, w.locate(now, key))
  {
    var t: nat, k0 :| t <= now && InSpace(k0) && d == w.locate(t, k0);
    forall x ensures !(Contains(d, x) && Contains(w.locate(now, key), x)) {
      if Contains(d, x) && Contains(w.locate(now, key), x) { OverlapMeansWithin(w, t, now, k0, key, x); }
    }
  }

  lemma InSpaceNotEmpty(k: Key)
    requires InSpace(k)
    ensures k != []
  {
  }
}
