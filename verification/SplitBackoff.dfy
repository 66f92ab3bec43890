/** Back-off of range splits: a range whose split failed is left alone for an interval
    that doubles with every further failure, up to a minute. */
module SplitBackoff {
  import opened Wrappers

  const SECOND := 1_000_000_000
  const MAX_RETRY_INTERVAL := 60 * SECOND

  type RangeID = int

  datatype DelayRecord = DelayRecord(timeout: int, interval: int)

  /** One call of checkRangeSplit: when it was made, the clock reading its delay record was
      found expired at (if it had one), and for a failure the reading and interval recorded. */
  datatype Attempt = Attempt(range: RangeID, tick: nat, checkedAt: Option<int>, failed: bool, recordedAt: int, interval: int)

  // ------------------------------------------------------------ what the log says

  function Last(calls: seq<Attempt>, r: RangeID): Option<Attempt> {
    if calls == [] then None
    else if calls[|calls| - 1].range == r then Some(calls[|calls| - 1])
    else Last(calls[..|calls| - 1], r)
  }

  /** Failures of the range since its last success. */
  function Streak(calls: seq<Attempt>, r: RangeID): nat {
    if calls == [] then 0
    else
      var c, before := calls[|calls| - 1], calls[..|calls| - 1];
      if c.range != r then Streak(before, r)
      else if c.failed then 1 + Streak(before, r)
      else 0
  }

  /** The interval after n failures in a row. */
  function Backoff(n: nat): (d: int)
    requires n >= 1
    ensures SECOND <= d <= MAX_RETRY_INTERVAL
  {
    if n == 1 then SECOND
    else
      var d := 2 * Backoff(n - 1);
      if d > MAX_RETRY_INTERVAL then MAX_RETRY_INTERVAL else d
  }

  lemma BackoffTable()
    ensures Backoff(1) == 1 * SECOND && Backoff(2) == 2 * SECOND && Backoff(3) == 4 * SECOND
    ensures Backoff(4) == 8 * SECOND && Backoff(5) == 16 * SECOND && Backoff(6) == 32 * SECOND
  {
    assert Backoff(2) == 2 * SECOND;
    assert Backoff(4) == 8 * SECOND;
  }

  lemma {:induction false} BackoffSaturates(n: nat)
    requires n >= 7
    ensures Backoff(n) == MAX_RETRY_INTERVAL
  {
    if n == 7 { BackoffTable(); } else { BackoffSaturates(n - 1); }
  }

  /** A call on a range whose previous call failed comes after that failure's interval. */
  ghost predicate Spaced(calls: seq<Attempt>) {
    calls == [] || (
      var c, before := calls[|calls| - 1], calls[..|calls| - 1];
      var prev := Last(before, c.range);
      && Spaced(before)
      && (prev.Some? && prev.value.failed ==>
            c.checkedAt.Some? && c.checkedAt.value > prev.value.recordedAt + prev.value.interval)
      && (c.failed ==> c.interval == Backoff(Streak(calls, c.range))))
  }

  lemma {:induction false} LastUnlessCalled(calls: seq<Attempt>, i: nat)
    requires i < |calls|
    requires forall k :: i < k < |calls| ==> calls[k].range != calls[i].range
    ensures Last(calls, calls[i].range) == Some(calls[i])
    decreases |calls|
  {
    if i < |calls| - 1 { LastUnlessCalled(calls[..|calls| - 1], i); }
  }

  lemma {:induction false} SpacedPrefix(calls: seq<Attempt>, n: nat)
    requires Spaced(calls) && n <= |calls|
    ensures Spaced(calls[..n])
    decreases |calls|
  {
    if n < |calls| {
      SpacedPrefix(calls[..|calls| - 1], n);
      assert calls[..|calls| - 1][..n] == calls[..n];
    } else {
      assert calls[..n] == calls;
    }
  }

  /** Over a whole run: after a failure recorded at time t with interval d, the next call
      on that range, from whichever node's statistics, finds the clock past t + d. */
  lemma NoCallWithinInterval(calls: seq<Attempt>, i: nat, j: nat)
    requires Spaced(calls) && i < j < |calls|
    requires calls[i].range == calls[j].range && calls[i].failed
    requires forall k :: i < k < j ==> calls[k].range != calls[i].range
    ensures calls[j].checkedAt.Some? && calls[j].checkedAt.value > calls[i].recordedAt + calls[i].interval
  {
    SpacedPrefix(calls, j + 1);
    assert calls[..j + 1][..j] == calls[..j] && calls[..j + 1][j] == calls[j];
    LastUnlessCalled(calls[..j], i);
  }

  lemma {:induction false} IntervalsAreBounded(calls: seq<Attempt>, i: nat)
    requires Spaced(calls) && i < |calls| && calls[i].failed
    ensures SECOND <= calls[i].interval <= MAX_RETRY_INTERVAL
  {
    SpacedPrefix(calls, i + 1);
    assert calls[..i + 1][i] == calls[i];
  }

  // ------------------------------------------------------------ the records

  /** A range has a record exactly when its last call failed, and the record holds that
      failure's interval and deadline. */
  ghost predicate Fits(calls: seq<Attempt>, records: map<RangeID, DelayRecord>, r: RangeID) {
    var last, n := Last(calls, r), Streak(calls, r);
    && (r in records <==> n > 0)
    && (n > 0 <==> last.Some? && last.value.failed)
    && (n > 0 ==>
          && records[r] == DelayRecord(last.value.recordedAt + last.value.interval, last.value.interval)
          && last.value.interval == Backoff(n))
  }

  ghost predicate Consistent(calls: seq<Attempt>, records: map<RangeID, DelayRecord>) {
    Spaced(calls) && forall r :: Fits(calls, records, r)
  }

  lemma Appended(calls: seq<Attempt>, c: Attempt, r: RangeID)
    ensures Last(calls + [c], r) == if c.range == r then Some(c) else Last(calls, r)
    ensures Streak(calls + [c], r)
         == if c.range != r then Streak(calls, r) else if c.failed then 1 + Streak(calls, r) else 0
  {
    assert (calls + [c])[..|calls|] == calls;
  }

  /** The next interval, as delayRecord.next and newDelayRecord set it. */
  function NextInterval(records: map<RangeID, DelayRecord>, r: RangeID): int {
    if r !in records then SECOND
    else
      var d := records[r].interval * 2;
      if d > MAX_RETRY_INTERVAL then MAX_RETRY_INTERVAL else d
  }

  /** The call waited for the record of its range, if there is one. */
  predicate Waited(records: map<RangeID, DelayRecord>, c: Attempt) {
    c.range in records ==> c.checkedAt.Some? && c.checkedAt.value > records[c.range].timeout
  }

  lemma FailureRecorded(calls: seq<Attempt>, records: map<RangeID, DelayRecord>, c: Attempt)
    requires Consistent(calls, records) && Waited(records, c)
    requires c.failed && c.interval == NextInterval(records, c.range)
    ensures Consistent(calls + [c], records[c.range := DelayRecord(c.recordedAt + c.interval, c.interval)])
  {
    var records' := records[c.range := DelayRecord(c.recordedAt + c.interval, c.interval)];
    assert (calls + [c])[..|calls|] == calls;
    assert Fits(calls, records, c.range);
    Appended(calls, c, c.range);
    forall r ensures Fits(calls + [c], records', r) {
      Appended(calls, c, r);
      assert Fits(calls, records, r);
    }
  }

  lemma SuccessRecorded(calls: seq<Attempt>, records: map<RangeID, DelayRecord>, c: Attempt)
    requires Consistent(calls, records) && Waited(records, c) && !c.failed
    ensures Consistent(calls + [c], records - {c.range})
  {
    assert (calls + [c])[..|calls|] == calls;
    assert Fits(calls, records, c.range);
    forall r ensures Fits(calls + [c], records - {c.range}, r) {
      Appended(calls, c, r);
      assert Fits(calls, records, r);
    }
  }

  // ------------------------------------------------------------ one visit

  /** The clock and split outcomes the environment will give, and what the server knows. */
  datatype Env = Env(clock: nat -> int, splitFails: nat -> bool)
  datatype Sched = Sched(tick: nat, records: map<RangeID, DelayRecord>, calls: seq<Attempt>)

  /** A visit to a range in some node's statistics: wait while its record is valid,
      otherwise try the split and keep or drop the record by the outcome. Each clock
      reading and each attempt uses up one tick; the clock has a value at each. */
  ghost function Visit(env: Env, s: Sched, r: RangeID): Sched {
    var waiting := r in s.records;
    if waiting && env.clock(s.tick) <= s.records[r].timeout then s.(tick := s.tick + 1)
    else
      var seen := if waiting then Some(env.clock(s.tick)) else None;
      var t := if waiting then s.tick + 1 else s.tick;
      if env.splitFails(t) then
        var c := Attempt(r, t, seen, true, env.clock(t + 1), NextInterval(s.records, r));
        Sched(t + 2, s.records[r := DelayRecord(c.recordedAt + c.interval, c.interval)], s.calls + [c])
      else
        Sched(t + 1, s.records - {r}, s.calls + [Attempt(r, t, seen, false, 0, 0)])
  }

  ghost function VisitAll(env: Env, s: Sched, rs: seq<RangeID>): Sched {
    if rs == [] then s else Visit(env, VisitAll(env, s, rs[..|rs| - 1]), rs[|rs| - 1])
  }

  lemma VisitKeepsConsistent(env: Env, s: Sched, r: RangeID)
    requires Consistent(s.calls, s.records)
    ensures Consistent(Visit(env, s, r).calls, Visit(env, s, r).records)
  {
    hide Consistent;
    var s' := Visit(env, s, r);
    if s'.calls != s.calls {
      var c := s'.calls[|s.calls|];
      if c.failed { FailureRecorded(s.calls, s.records, c); } else { SuccessRecorded(s.calls, s.records, c); }
    }
  }

  lemma {:induction false} VisitsKeepConsistent(env: Env, s: Sched, rs: seq<RangeID>)
    requires Consistent(s.calls, s.records)
    ensures Consistent(VisitAll(env, s, rs).calls, VisitAll(env, s, rs).records)
  {
    if rs != [] {
      VisitsKeepConsistent(env, s, rs[..|rs| - 1]);
      VisitKeepsConsistent(env, VisitAll(env, s, rs[..|rs| - 1]), rs[|rs| - 1]);
    }
  }

  ghost function Flatten(stats: seq<seq<RangeID>>): seq<RangeID> {
    if stats == [] then [] else Flatten(stats[..|stats| - 1]) + stats[|stats| - 1]
  }

  lemma {:induction false} VisitAllConcat(env: Env, s: Sched, a: seq<RangeID>, b: seq<RangeID>)
    ensures VisitAll(env, s, a + b) == VisitAll(env, VisitAll(env, s, a), b)
    decreases |b|
  {
    hide Visit;
    if b == [] {
      assert a + b == a;
    } else {
      var n := |b| - 1;
      assert (a + b)[..|a| + n] == a + b[..n];
      VisitAllConcat(env, s, a, b[..n]);
    }
  }

  /** Rounds of checkSplit, each over some statistics. */
  ghost function Rounds(env: Env, s: Sched, rounds: seq<seq<seq<RangeID>>>): Sched {
    if rounds == [] then s
    else VisitAll(env, Rounds(env, s, rounds[..|rounds| - 1]), Flatten(rounds[|rounds| - 1]))
  }

  /** Over any number of rounds, with any statistics, clock and split outcomes, from an
      empty table of records: no range is tried again within the interval its last
      failure recorded, and every interval is the one its run of failures calls for. */
  lemma {:induction false} RunsAreSpaced(env: Env, rounds: seq<seq<seq<RangeID>>>)
    ensures var s := Rounds(env, Sched(0, map[], []), rounds);
            Spaced(s.calls) && Consistent(s.calls, s.records)
  {
    if rounds != [] {
      RunsAreSpaced(env, rounds[..|rounds| - 1]);
      VisitsKeepConsistent(env, Rounds(env, Sched(0, map[], []), rounds[..|rounds| - 1]), Flatten(rounds[|rounds| - 1]));
    }
  }

  /** What has happened when `rs` have been visited in a further round. */
  ghost function Reached(env: Env, rounds: seq<seq<seq<RangeID>>>, rs: seq<RangeID>): Sched {
    VisitAll(env, Rounds(env, Sched(0, map[], []), rounds), rs)
  }

  /** Whether a range is to be tried, by the calls made so far: never tried, last tried with
      success, or the clock is past the interval of its last failure. */
  predicate Due(env: Env, calls: seq<Attempt>, tick: nat, r: RangeID) {
    var last := Last(calls, r);
    last.None? || !last.value.failed || env.clock(tick) > last.value.recordedAt + last.value.interval
  }

  /** What a visit to a range makes of s: nothing but time passing when the range is not due,
      otherwise one call on it. The call fails exactly when the split does, with an interval
      by its run of failures, recorded by the clock just after it. */
  ghost predicate Visited(env: Env, s: Sched, r: RangeID, t: Sched) {
    if !Due(env, s.calls, s.tick, r) then t.calls == s.calls && t.records == s.records
    else
      && |t.calls| == |s.calls| + 1 && t.calls[..|s.calls|] == s.calls
      && var c := t.calls[|s.calls|];
         && c.range == r && s.tick <= c.tick < t.tick && c.failed == env.splitFails(c.tick)
         && (c.failed ==> c.recordedAt == env.clock(c.tick + 1) && c.interval == Backoff(Streak(s.calls, r) + 1))
         && (r in t.records <==> c.failed)
  }

  lemma VisitWhenDue(env: Env, s: Sched, r: RangeID)
    requires Fits(s.calls, s.records, r)
    ensures Visited(env, s, r, Visit(env, s, r))
  {
    var n := Streak(s.calls, r);
    assert Backoff(n + 1) == NextInterval(s.records, r);
    hide Streak, Last, Backoff, NextInterval;
  }

  /** In every run a visit calls checkRangeSplit on its range exactly when the range is due. */
  lemma CallsExactlyWhenDue(env: Env, rounds: seq<seq<seq<RangeID>>>, rs: seq<RangeID>, r: RangeID)
    ensures Visited(env, Reached(env, rounds, rs), r, Reached(env, rounds, rs + [r]))
  {
    var start := Rounds(env, Sched(0, map[], []), rounds);
    RunsAreSpaced(env, rounds);
    VisitsKeepConsistent(env, start, rs);
    assert (rs + [r])[..|rs|] == rs;
    var s := Reached(env, rounds, rs);
    hide Visited, Visit, Fits, Spaced;
    assert Fits(s.calls, s.records, r);
    VisitWhenDue(env, s, r);
  }

  // ------------------------------------------------------------ by the clock

  ghost predicate Monotone(env: Env) {
    forall i: nat, j: nat :: i <= j ==> env.clock(i) <= env.clock(j)
  }

  /** A call's readings were taken just before and just after it. */
  predicate Timed(env: Env, c: Attempt) {
    && (c.checkedAt.Some? ==> c.tick >= 1 && c.checkedAt.value == env.clock(c.tick - 1))
    && (c.failed ==> c.recordedAt == env.clock(c.tick + 1))
  }

  ghost predicate Clocked(env: Env, calls: seq<Attempt>, now: nat) {
    && (forall i :: 0 <= i < |calls| ==> calls[i].tick < now && Timed(env, calls[i]))
    && (forall i, j :: 0 <= i < j < |calls| ==> calls[i].tick < calls[j].tick)
  }

  lemma VisitKeepsClocked(env: Env, s: Sched, r: RangeID)
    requires Clocked(env, s.calls, s.tick)
    ensures Clocked(env, Visit(env, s, r).calls, Visit(env, s, r).tick)
  {
    hide NextInterval;
  }

  lemma {:induction false} VisitsKeepClocked(env: Env, s: Sched, rs: seq<RangeID>)
    requires Clocked(env, s.calls, s.tick)
    ensures Clocked(env, VisitAll(env, s, rs).calls, VisitAll(env, s, rs).tick)
  {
    hide Visit, Clocked;
    if rs != [] {
      VisitsKeepClocked(env, s, rs[..|rs| - 1]);
      VisitKeepsClocked(env, VisitAll(env, s, rs[..|rs| - 1]), rs[|rs| - 1]);
    }
  }

  lemma {:induction false} RunsAreClocked(env: Env, rounds: seq<seq<seq<RangeID>>>)
    ensures var s := Rounds(env, Sched(0, map[], []), rounds); Clocked(env, s.calls, s.tick)
  {
    hide VisitAll;
    if rounds != [] {
      RunsAreClocked(env, rounds[..|rounds| - 1]);
      VisitsKeepClocked(env, Rounds(env, Sched(0, map[], []), rounds[..|rounds| - 1]), Flatten(rounds[|rounds| - 1]));
    }
  }

  /** The first call on the range of call i after it, given a later one. */
  lemma {:induction false} FirstAfter(calls: seq<Attempt>, i: nat, j: nat) returns (k: nat)
    requires i < j < |calls| && calls[i].range == calls[j].range
    ensures i < k <= j && calls[k].range == calls[i].range && forall m :: i < m < k ==> calls[m].range != calls[i].range
    decreases j
  {
    if m :| i < m < j && calls[m].range == calls[i].range {
      k := FirstAfter(calls, i, m);
    } else {
      k := j;
    }
  }

  /** Over any number of rounds, with a clock that never goes back: after a failure recorded
      at time t with interval d, no later call on that range, from whichever node's
      statistics and whatever happened in between, is made before the clock is past t + d. */
  lemma NoLaterCallBefore(env: Env, rounds: seq<seq<seq<RangeID>>>, i: nat, j: nat)
    requires Monotone(env)
    requires var calls := Rounds(env, Sched(0, map[], []), rounds).calls;
             i < j < |calls| && calls[i].range == calls[j].range && calls[i].failed
    ensures var calls := Rounds(env, Sched(0, map[], []), rounds).calls;
            calls[i].recordedAt == env.clock(calls[i].tick + 1)
            && env.clock(calls[j].tick) > calls[i].recordedAt + calls[i].interval
  {
    RunsAreSpaced(env, rounds);
    RunsAreClocked(env, rounds);
    var s := Rounds(env, Sched(0, map[], []), rounds);
    var calls := s.calls;
    hide Rounds, Spaced, Consistent;
    var k := FirstAfter(calls, i, j);
    NoCallWithinInterval(calls, i, k);
    assert Timed(env, calls[i]) && Timed(env, calls[k]);
    assert calls[k].tick - 1 <= calls[j].tick;
  }

  // ------------------------------------------------------------ the server

  class Server {
    const env: Env
    var tick: nat
    var delayRecord: map<RangeID, DelayRecord>
    ghost var calls: seq<Attempt>

    constructor (env: Env)
      ensures this.env == env && State() == Sched(0, map[], [])
    {
      this.env := env;
      tick, delayRecord, calls := 0, map[], [];
    }

    ghost function State(): Sched
      reads this
    {
      Sched(tick, delayRecord, calls)
    }

    method Now() returns (t: int)
      modifies this`tick
      ensures t == env.clock(old(tick)) && tick == old(tick) + 1
    {
      t := env.clock(tick);
      tick := tick + 1;
    }

    /** checkRangeSplit: whatever it does, it succeeds or fails. */
    method CheckRangeSplit() returns (failed: bool)
      modifies this`tick
      ensures failed == env.splitFails(old(tick)) && tick == old(tick) + 1
    {
      failed := env.splitFails(tick);
      tick := tick + 1;
    }

    /** checkDelayRecord: whether the range is dealt with, by waiting or by a retry. */
    method CheckDelayRecord(r: RangeID) returns (handled: bool)
      modifies this
      ensures handled <==> r in old(delayRecord)
      ensures State() == if handled then Visit(env, old(State()), r) else old(State())
    {
      if r !in delayRecord { return false; }
      var d := delayRecord[r];
      var now := Now();
      if now <= d.timeout { return true; }
      ghost var at := tick;
      var failed := CheckRangeSplit();
      if failed {
        var interval := d.interval * 2;
        if interval > MAX_RETRY_INTERVAL { interval := MAX_RETRY_INTERVAL; }
        var later := Now();
        calls := calls + [Attempt(r, at, Some(now), true, later, interval)];
        delayRecord := delayRecord[r := DelayRecord(later + interval, interval)];
      } else {
        calls := calls + [Attempt(r, at, Some(now), false, 0, 0)];
        delayRecord := delayRecord - {r};
      }
      return true;
    }

    /** The body of checkSplit's loops. */
    method CheckRange(r: RangeID)
      modifies this
      ensures State() == Visit(env, old(State()), r)
    {
      var handled := CheckDelayRecord(r);
      if handled { return; }
      ghost var at := tick;
      var failed := CheckRangeSplit();
      if failed {
        var now := Now();
        calls := calls + [Attempt(r, at, None, true, now, SECOND)];
        delayRecord := delayRecord[r := DelayRecord(now + SECOND, SECOND)];
      } else {
        calls := calls + [Attempt(r, at, None, false, 0, 0)];
        assert delayRecord - {r} == delayRecord;
      }
    }

    /** The inner loop of checkSplit: one node's statistics. */
    method CheckNode(ranges: seq<RangeID>)
      modifies this
      ensures State() == VisitAll(env, old(State()), ranges)
    {
      hide Visit;
      for k := 0 to |ranges|
        invariant State() == VisitAll(env, old(State()), ranges[..k])
      {
        assert ranges[..k + 1][..k] == ranges[..k];
        CheckRange(ranges[k]);
      }
      assert ranges[..|ranges|] == ranges;
    }

    /** checkSplit: one round over the ranges in every node's statistics. */
    method CheckSplit(stats: seq<seq<RangeID>>)
      modifies this
      ensures State() == VisitAll(env, old(State()), Flatten(stats))
    {
      hide Visit, VisitAll;
      NoVisits(env, State());
      for n := 0 to |stats|
        invariant State() == VisitAll(env, old(State()), Flatten(stats[..n]))
      {
        assert stats[..n + 1][..n] == stats[..n];
        VisitAllConcat(env, old(State()), Flatten(stats[..n]), stats[n]);
        CheckNode(stats[n]);
      }
      assert stats[..|stats|] == stats;
    }
  }

  lemma NoVisits(env: Env, s: Sched)
    ensures VisitAll(env, s, []) == s
  {
  }
}
