/** RunInNewTxn: a function run in one transaction after another until it is committed, it
    fails for good, or the attempts are used up. */
module Retry {
  import opened Keys
  import opened Wrappers
  import opened RangeCache
  import opened Cluster
  import opened NodeRequest
  import opened TxnLog
  import opened Txn
  import opened Session

  /** IsRetryableError */
  predicate IsRetryable(e: Option<ClientError>) {
    e.Some? && e.value.NeedRetry?
  }

  // ------------------------------------------------------------ the store

  /** The data differ from transaction to transaction, the ranges do not. */
  ghost predicate SameRanges(v: World, w: World) {
    forall t, k :: v.locate(t, k) == w.locate(t, k)
  }

  lemma FetchedAlike(v: World, w: World, entries: map<nat, RangeDesc>, now: nat)
    requires SameRanges(v, w) && AllFetched(v, entries, now)
    ensures AllFetched(w, entries, now)
  {
    forall id | id in entries ensures Fetched(w, entries[id].desc, now) {
      var t: nat, k :| t <= now && InSpace(k) && entries[id].desc == v.locate(t, k);
      assert entries[id].desc == w.locate(t, k);
    }
  }

  /** A store: whether it has been closed by the time each of its transactions is to begin,
      what each of them meets, and the cache they share. */
  class Storage {
    const shut: nat -> bool
    const worlds: nat -> World
    const ids: nat -> Key
    const cache: Cache
    var tick: nat

    constructor (shut: nat -> bool, worlds: nat -> World, ids: nat -> Key)
      requires forall n :: Laid(worlds(n)) && Honest(worlds(n)) && SameRanges(worlds(n), worlds(0)) && InSpace(ids(n))
      ensures Valid() && fresh(cache) && tick == 0 && this.shut == shut && this.worlds == worlds && this.ids == ids
    {
      this.shut, this.worlds, this.ids, tick := shut, worlds, ids, 0;
      cache := new Cache();
    }

    ghost predicate Valid()
      reads this, cache
    {
      && (forall n :: Laid(worlds(n)) && Honest(worlds(n)) && InSpace(ids(n)))
      && (forall n :: SameRanges(worlds(n), worlds(0)) && SameRanges(worlds(0), worlds(n)))
      && cache.Valid() && AllFetched(worlds(0), cache.entries, tick)
    }

    /** Why Begin fails, if it does: the store is closed, or the driver gave no timestamp. */
    ghost function BeginFails(n: nat, now: nat): Option<ClientError> {
      if shut(n) then Some(InvalidState) else DriverAnswer(worlds(n), now)
    }

    /** Begin: the n-th transaction, of that priority, for which the driver is asked for a
        timestamp. */
    method Begin(n: nat) returns (r: ClientResult<DbTxn>)
      requires Valid()
      modifies this
      ensures Valid()
      ensures r.Ok? ==> fresh(r.value) && fresh(r.value.base) && r.value.Valid()
      ensures r.Ok? ==> r.value.base.world == worlds(n) && r.value.base.cache == cache && r.value.priority == n
      ensures r.Ok? ==> r.value.base.log == [] && !r.value.hasBegin && !r.value.dirty
      ensures r.Ok? ==> r.value.kvCache == map[] && r.value.base.intents == map[]
      ensures ErrorIn(r) == BeginFails(n, old(tick)) && tick == old(tick) + if shut(n) then 0 else 1
    {
      hide Laid, Honest, InSpace, SameRanges, Fetched;
      if shut(n) { return Err(InvalidState); }
      var failed := DriverAnswer(worlds(n), tick);
      FetchedStays(worlds(0), cache.entries, tick);
      tick := tick + 1;
      if failed.Some? { return Err(failed.value); }
      FetchedAlike(worlds(0), worlds(n), cache.entries, tick);
      var base := new Base(worlds(n), cache, tick);
      var txn := new DbTxn(base, ids(n), n);
      return Ok(txn);
    }

    /** The requests of a transaction are requests of its store. */
    method Join(txn: DbTxn, n: nat)
      requires txn.base.Valid() && txn.base.world == worlds(n) && txn.base.cache == cache
      requires forall m :: Laid(worlds(m)) && Honest(worlds(m)) && InSpace(ids(m))
      requires forall m :: SameRanges(worlds(m), worlds(0)) && SameRanges(worlds(0), worlds(m))
      modifies this
      ensures Valid()
    {
      hide Laid, Honest, InSpace, SameRanges, AllFetched;
      FetchedAlike(worlds(n), worlds(0), cache.entries, txn.base.tick);
      tick := txn.base.tick;
    }
  }

  // ------------------------------------------------------------ one attempt

  /** One attempt: its transaction, what the function called, was told and returned, and what
      Commit and Rollback returned if they were called. */
  datatype Attempt = Attempt(txn: DbTxn, ops: seq<Op>, answers: seq<Answer>, run: Option<ClientError>,
                             commit: Option<Option<ClientError>>, rollback: Option<Option<ClientError>>)

  predicate Succeeded(a: Attempt) {
    a.run.None? && a.commit == Some(None)
  }

  /** The error an attempt ends with. */
  function ErrorOf(a: Attempt): Option<ClientError> {
    if a.run.Some? then a.run else if a.commit.Some? then a.commit.value else None
  }

  /** Commit is called exactly when the function returned nil; Rollback when the function
      failed, or the commit did in a way worth another attempt. */
  predicate CallsInOrder(a: Attempt, retryable: bool) {
    && (a.commit.Some? <==> a.run.None?)
    && (a.rollback.Some? <==> a.run.Some? || (retryable && IsRetryable(ErrorOf(a))))
  }

  ghost predicate EndsWith(log: seq<Event>, e: Event) {
    log != [] && log[|log| - 1] == e
  }

  /** The function was run: what was written is what it wrote, and it was told of it. Its last
      writes are what a successful attempt leaves in the store. */
  ghost predicate Worked(a: Attempt)
    reads a.txn, a.txn.base
  {
    var base := a.txn.base;
    && WritesIn(base.log) == WritesOf(a.ops) && TellsAll(base.world, map[], map[], a.ops, a.answers)
    && (Succeeded(a) ==> forall k :: Latest(WritesOf(a.ops), k).Some? ==>
                                       Visible(base.world, base.intents, k) == Latest(WritesOf(a.ops), k).value)
  }

  /** What became of the transaction. Rolled back, it is aborted, and either it had never begun
      or its end was sent last and acknowledged, or the rollback reported an error. Committed,
      it had written nothing, or its commit was sent last and acknowledged. No other has an
      acknowledged commit, unless the function sent one itself. */
  ghost predicate Settled(a: Attempt)
    reads a.txn, a.txn.base
  {
    var txn := a.txn;
    && (a.rollback.Some? ==> txn.status == Status.Aborted)
    && (a.rollback == Some(None) && txn.hasBegin ==> EndsWith(txn.base.log, EndSent(false, true)))
    && (a.rollback.Some? && a.rollback.value.Some? ==> txn.hasBegin && !Calm(txn.base.world))
    && (Succeeded(a) && txn.dirty ==> txn.status == Committed && txn.kvCache == map[] && EndsWith(txn.base.log, EndSent(true, true)))
    && (!Succeeded(a) && Commit !in a.ops ==> EndSent(true, true) !in txn.base.log)
  }

  lemma NoneAckedFrom(before: seq<Event>, after: seq<Event>)
    requires NoCommitAcked(before, after) && EndSent(true, true) !in before
    ensures EndSent(true, true) !in after
  {
    assert forall i :: 0 <= i < |before| ==> after[i] == before[i] && before[i] in before;
  }

  lemma RolledBackEnd(acked: bool, before: seq<Event>, after: seq<Event>)
    requires Ending(false, acked, before, after)
    ensures NoCommitAcked(before, after) && QuietSince(before, after) && (acked ==> EndsWith(after, EndSent(false, true)))
  {
  }

  /** The rollback of an attempt. */
  method GiveUp(txn: DbTxn, ghost ops: seq<Op>) returns (r: Option<ClientError>)
    requires txn.Valid() && (Commit !in ops ==> EndSent(true, true) !in txn.base.log)
    modifies txn, txn.base, txn.base.cache
    ensures txn.Valid() && txn.status == Status.Aborted
    ensures r.None? && txn.hasBegin ==> EndsWith(txn.base.log, EndSent(false, true))
    ensures r.Some? ==> txn.hasBegin && !Calm(txn.base.world)
    ensures Commit !in ops ==> EndSent(true, true) !in txn.base.log
    ensures WritesIn(txn.base.log) == old(WritesIn(txn.base.log))
  {
    hide txn.Valid, Calm, Queued, Ending, EndsWith;
    ghost var before := txn.base.log;
    r := txn.Rollback();
    if txn.hasBegin {
      RolledBackEnd(r.None?, before, txn.base.log);
      WritesInSince(before, txn.base.log);
      if Commit !in ops { NoneAckedFrom(before, txn.base.log); }
    }
  }

  /** What a committed transaction wrote is what the store shows for it. */
  lemma CommittedShows(txn: DbTxn, ops: seq<Op>)
    requires txn.Valid() && WritesIn(txn.base.log) == WritesOf(ops) && (txn.dirty ==> txn.kvCache == map[])
    ensures forall k :: Latest(WritesOf(ops), k).Some? ==> Visible(txn.base.world, txn.base.intents, k) == Latest(WritesOf(ops), k).value
  {
    forall k | Latest(WritesOf(ops), k).Some? ensures Visible(txn.base.world, txn.base.intents, k) == Latest(WritesOf(ops), k).value {
      LatestOfWrites(txn.base.log, k);
      assert TrackedAt(txn.kvCache, txn.base.log, txn.base.intents, k);
    }
  }

  /** The body of the loop: run the function, commit, or roll back. */
  method RunOnce(txn: DbTxn, ops: seq<Op>, result: Option<ClientError>, retryable: bool)
    returns (e: Option<ClientError>, again: bool, ghost a: Attempt)
    requires txn.Valid() && txn.base.log == [] && txn.kvCache == map[] && txn.base.intents == map[]
    modifies txn, txn.base, txn.base.cache
    ensures txn.Valid() && a.txn == txn && a.ops == ops && a.run == result
    ensures CallsInOrder(a, retryable) && Settled(a) && Worked(a)
    ensures e == ErrorOf(a) && (e.None? <==> Succeeded(a)) && (again <==> retryable && IsRetryable(e))
  {
    hide txn.Valid, Calm, Queued, NoCommitAcked, View, ViewAfter, TellsAll, CommitSafe, WellSent, Covered;
    var answers := Run(txn, ops);
    if Commit !in ops { NoneAckedFrom([], txn.base.log); }
    e := result;
    again := retryable && IsRetryable(e);
    if e.Some? {
      var r := GiveUp(txn, ops);
      a := Attempt(txn, ops, answers, result, None, Some(r));
      return;
    }
    ghost var before := txn.base.log;
    e := txn.Commit();
    WritesInSince(before, txn.base.log);
    if e.None? { CommittedShows(txn, ops); }
    if e.Some? && Commit !in ops { NoneAckedFrom(before, txn.base.log); }
    again := retryable && IsRetryable(e);
    if again {
      var r := GiveUp(txn, ops);
      a := Attempt(txn, ops, answers, result, Some(e), Some(r));
    } else {
      a := Attempt(txn, ops, answers, result, Some(e), None);
    }
  }

  // ------------------------------------------------------------ the loop

  ghost function Objects(attempts: seq<Attempt>): set<object> {
    (set i | 0 <= i < |attempts| :: attempts[i].txn as object) + (set i | 0 <= i < |attempts| :: attempts[i].txn.base as object)
  }

  ghost predicate AllSettled(attempts: seq<Attempt>)
    reads Objects(attempts)
  {
    forall i :: 0 <= i < |attempts| ==> Settled(attempts[i]) && Worked(attempts[i])
  }

  /** The attempts are those of the function, in transactions of their own, and each called
      what it should. */
  ghost predicate Recorded(attempts: seq<Attempt>, f: nat -> seq<Op>, results: nat -> Option<ClientError>, retryable: bool) {
    && (forall i :: 0 <= i < |attempts| ==> attempts[i].ops == f(i) && attempts[i].run == results(i) && attempts[i].txn.priority == i)
    && (forall i :: 0 <= i < |attempts| ==> CallsInOrder(attempts[i], retryable))
    && (forall i, j :: 0 <= i < j < |attempts| ==>
          attempts[i].txn != attempts[j].txn && attempts[i].txn.base != attempts[j].txn.base)
  }

  ghost predicate AllGivenUp(attempts: seq<Attempt>, retryable: bool) {
    forall i :: 0 <= i < |attempts| ==> retryable && IsRetryable(ErrorOf(attempts[i]))
  }

  lemma RecordedMore(attempts: seq<Attempt>, f: nat -> seq<Op>, results: nat -> Option<ClientError>, retryable: bool, a: Attempt)
    requires Recorded(attempts, f, results, retryable) && CallsInOrder(a, retryable)
    requires a.ops == f(|attempts|) && a.run == results(|attempts|) && a.txn.priority == |attempts|
    requires (a.txn as object) !in Objects(attempts) && (a.txn.base as object) !in Objects(attempts)
    ensures Recorded(attempts + [a], f, results, retryable)
  {
    hide CallsInOrder;
    forall i | 0 <= i < |attempts| ensures attempts[i].txn != a.txn && attempts[i].txn.base != a.txn.base {
      assert (attempts[i].txn as object) in Objects(attempts) && (attempts[i].txn.base as object) in Objects(attempts);
    }
  }

  lemma Apart(store: Storage, attempts: seq<Attempt>)
    ensures (store as object) !in Objects(attempts) && (store.cache as object) !in Objects(attempts)
  {
  }

  lemma ObjectsMore(attempts: seq<Attempt>, a: Attempt)
    ensures Objects(attempts + [a]) == Objects(attempts) + {a.txn, a.txn.base}
  {
    var more := attempts + [a];
    assert more[|attempts|] == a && forall i :: 0 <= i < |attempts| ==> more[i] == attempts[i];
    assert (more[|attempts|].txn as object) in Objects(more) && (more[|attempts|].txn.base as object) in Objects(more);
    forall i | 0 <= i < |attempts|
      ensures (attempts[i].txn as object) in Objects(more) && (attempts[i].txn.base as object) in Objects(more)
    {
      assert more[i] == attempts[i];
    }
  }

  /** The loop may go round again. */
  ghost predicate GoingOn(attempts: seq<Attempt>, f: nat -> seq<Op>, results: nat -> Option<ClientError>,
                          retryable: bool, e: Option<ClientError>)
  {
    && Recorded(attempts, f, results, retryable) && AllGivenUp(attempts, retryable)
    && (attempts != [] ==> e == ErrorOf(attempts[|attempts| - 1]))
  }

  /** What RunInNewTxn promises of its attempts and its result. Either a Begin failed, at once
      or after attempts that were all worth another, and its error is returned, retryable or
      not. Or the last attempt decides: nil exactly when its function and Commit both returned
      nil, its error otherwise, a retryable one only when the attempts are used up. Every
      attempt before the last met an error worth another attempt, and so was rolled back. */
  ghost predicate Outcome(attempts: seq<Attempt>, f: nat -> seq<Op>, results: nat -> Option<ClientError>,
                          retryable: bool, begin: Option<ClientError>, e: Option<ClientError>)
  {
    && Recorded(attempts, f, results, retryable)
    && if begin.Some? then |attempts| <= MAX_RETRIES && AllGivenUp(attempts, retryable) && e == PassedOn(begin)
       else
         && 0 < |attempts| <= MAX_RETRIES + 1
         && var last := |attempts| - 1;
         && AllGivenUp(attempts[..last], retryable)
         && e == PassedOn(ErrorOf(attempts[last])) && (e.None? <==> Succeeded(attempts[last]))
         && (retryable && IsRetryable(e) ==> |attempts| == MAX_RETRIES + 1)
  }

  lemma AttemptMade(done: seq<Attempt>, f: nat -> seq<Op>, results: nat -> Option<ClientError>, retryable: bool,
                    was: Option<ClientError>, a: Attempt)
    requires GoingOn(done, f, results, retryable, was) && |done| <= MAX_RETRIES && CallsInOrder(a, retryable)
    requires a.ops == f(|done|) && a.run == results(|done|) && a.txn.priority == |done|
    requires (a.txn as object) !in Objects(done) && (a.txn.base as object) !in Objects(done)
    ensures var e := ErrorOf(a);
            if retryable && IsRetryable(e) then GoingOn(done + [a], f, results, retryable, e)
            else Outcome(done + [a], f, results, retryable, None, PassedOn(e))
  {
    RecordedMore(done, f, results, retryable, a);
    AllGivenUpMore(done, retryable, a);
    assert a.commit.Some? <==> a.run.None?;
    hide Recorded, AllGivenUp, CallsInOrder, Objects;
  }

  lemma AllGivenUpMore(done: seq<Attempt>, retryable: bool, a: Attempt)
    requires AllGivenUp(done, retryable)
    ensures AllGivenUp((done + [a])[..|done|], retryable)
    ensures retryable && IsRetryable(ErrorOf(a)) ==> AllGivenUp(done + [a], retryable)
  {
    assert (done + [a])[..|done|] == done;
  }

  lemma NoAttemptMade(done: seq<Attempt>, f: nat -> seq<Op>, results: nat -> Option<ClientError>, retryable: bool, was: Option<ClientError>)
    requires GoingOn(done, f, results, retryable, was) && |done| <= MAX_RETRIES + 1
    ensures |done| <= MAX_RETRIES ==>
              forall begin: Option<ClientError> :: begin.Some? ==> Outcome(done, f, results, retryable, begin, PassedOn(begin))
    ensures |done| == MAX_RETRIES + 1 ==> Outcome(done, f, results, retryable, None, PassedOn(was))
  {
    hide Recorded;
    if done != [] {
      var last := |done| - 1;
      assert IsRetryable(ErrorOf(done[last]));
      assert forall i :: 0 <= i < last ==> done[..last][i] == done[i];
    }
  }

  ghost function With(done: seq<Attempt>, a: Option<Attempt>): seq<Attempt> {
    if a.Some? then done + [a.value] else done
  }

  /** What a turn of the loop comes to. */
  lemma TurnTaken(done: seq<Attempt>, f: nat -> seq<Op>, results: nat -> Option<ClientError>, retryable: bool,
                  was: Option<ClientError>, a: Option<Attempt>, e: Option<ClientError>, again: bool)
    requires GoingOn(done, f, results, retryable, was) && |done| <= MAX_RETRIES
    requires a.None? ==> e.Some? && !again
    requires a.Some? ==> a.value.ops == f(|done|) && a.value.run == results(|done|)
                         && a.value.txn.priority == |done| && CallsInOrder(a.value, retryable)
    requires a.Some? ==> (a.value.txn as object) !in Objects(done) && (a.value.txn.base as object) !in Objects(done)
    requires a.Some? ==> e == ErrorOf(a.value) && (again <==> retryable && IsRetryable(e))
    ensures |With(done, a)| == |done| + if a.Some? then 1 else 0
    ensures if again then GoingOn(With(done, a), f, results, retryable, e)
            else Outcome(With(done, a), f, results, retryable, if a.None? then e else None, PassedOn(e))
  {
    NoAttemptMade(done, f, results, retryable, was);
    if a.Some? { AttemptMade(done, f, results, retryable, was, a.value); }
    hide GoingOn, Outcome, Objects;
  }

  /** One turn of the loop, after which the earlier attempts are as they were. Without an
      attempt, Begin failed and the error is its own. */
  method OneMore(store: Storage, n: nat, ops: seq<Op>, result: Option<ClientError>, retryable: bool, ghost done: seq<Attempt>)
    returns (e: Option<ClientError>, again: bool, ghost a: Option<Attempt>)
    requires store.Valid() && AllSettled(done)
    modifies store, store.cache
    ensures store.Valid() && AllSettled(With(done, a)) && fresh(Objects(With(done, a)) - Objects(done))
    ensures a.None? <==> store.BeginFails(n, old(store.tick)).Some?
    ensures a.None? ==> e == store.BeginFails(n, old(store.tick)) && !again
    ensures a.Some? ==> a.value.ops == ops && a.value.run == result && CallsInOrder(a.value, retryable)
    ensures a.Some? ==> a.value.txn.base.world == store.worlds(n) && a.value.txn.priority == n
    ensures a.Some? ==> (a.value.txn as object) !in Objects(done) && (a.value.txn.base as object) !in Objects(done)
    ensures a.Some? ==> e == ErrorOf(a.value) && (again <==> retryable && IsRetryable(e))
  {
    hide CallsInOrder, Settled, Worked, Laid, Honest, InSpace, SameRanges, AllFetched, Kept, CommitSafe, WellSent;
    Apart(store, done);
    var begun := store.Begin(n);
    e, again, a := ErrorIn(begun), false, None;
    assert AllSettled(done);
    if begun.Ok? {
      ghost var made;
      e, again, made := RunOnce(begun.value, ops, result, retryable);
      assert AllSettled(done);
      store.Join(begun.value, n);
      a := Some(made);
      ObjectsMore(done, made);
      assert AllSettled(done + [made]);
    }
  }

  method RunInNewTxn(store: Storage, retryable: bool, f: nat -> seq<Op>, results: nat -> Option<ClientError>)
    returns (e: Option<ClientError>, ghost attempts: seq<Attempt>, ghost begin: Option<ClientError>)
    requires store.Valid()
    modifies store, store.cache
    ensures store.Valid() && fresh(Objects(attempts)) && AllSettled(attempts)
    ensures Outcome(attempts, f, results, retryable, begin, e)
    ensures begin.Some? ==> exists now: nat :: begin == store.BeginFails(|attempts|, now)
  {
    attempts, begin, e := [], None, None;
    NothingRecorded(f, results, retryable);
    hide store.Valid, GoingOn, Outcome, AllSettled, CallsInOrder, Objects, With;
    var n := 0;
    while n <= MAX_RETRIES
      invariant 0 <= n == |attempts| <= MAX_RETRIES + 1 && store.Valid() && fresh(Objects(attempts)) && AllSettled(attempts)
      invariant GoingOn(attempts, f, results, retryable, e)
    {
      ghost var was := e;
      var again;
      ghost var a;
      e, again, a := OneMore(store, n, f(n), results(n), retryable, attempts);
      TurnTaken(attempts, f, results, retryable, was, a, e, again);
      attempts := With(attempts, a);
      if !again {
        begin := if a.None? then e else None;
        e := PassedOn(e);
        return;
      }
      n := n + 1;
    }
    UsedUp(attempts, f, results, retryable, e);
    e := PassedOn(e);
  }

  lemma UsedUp(done: seq<Attempt>, f: nat -> seq<Op>, results: nat -> Option<ClientError>, retryable: bool, was: Option<ClientError>)
    requires GoingOn(done, f, results, retryable, was) && |done| == MAX_RETRIES + 1
    ensures Outcome(done, f, results, retryable, None, PassedOn(was))
  {
    NoAttemptMade(done, f, results, retryable, was);
  }

  lemma NothingRecorded(f: nat -> seq<Op>, results: nat -> Option<ClientError>, retryable: bool)
    ensures GoingOn([], f, results, retryable, None) && AllSettled([]) && Objects([]) == {}
  {
  }
}
