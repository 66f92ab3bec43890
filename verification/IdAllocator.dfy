/** The identifier allocator of the placement driver: any number of newID calls, from any
    number of servers, over one etcd key. A call reads the key, adds one and writes back
    under a comparison with what it read, and starts over when the comparison fails.
    A write whose reply is lost stays in flight and may take effect at any later time. */
module IdAllocator {
  import opened Varint
  import opened Wrappers

  // ------------------------------------------------------------ state

  /** The comparison a write is guarded by: that the key has never been created, or
      that it holds the value read. */
  datatype Guard = Absent | Holds(value: Int64)

  datatype Op = Op(guard: Guard, id: Int64)

  /** Where a call stands, with its local variable `id`. */
  datatype Call =
    | Loop(id: Int64)
    | Writing(op: Op)
    | Returned(id: Int64)
    | Failed

  datatype Effect = Effect(call: nat, id: Int64)

  /** `history` lists the writes that took effect, in order. */
  datatype State = State(key: Option<Int64>, calls: map<nat, Call>, inflight: map<nat, Op>, history: seq<Effect>)

  const INIT := State(None, map[], map[], [])

  /** Go's `id++` on an int64. */
  function Inc(v: Int64): Int64 {
    if v == TWO63 - 1 then -TWO63 else v + 1
  }

  predicate Allows(g: Guard, key: Option<Int64>) {
    match g
    case Absent => key.None?
    case Holds(v) => key == Some(v)
  }

  // ------------------------------------------------------------ steps

  datatype Step =
    | Start(c: nat)
    | Read(c: nat)
    | ReadError(c: nat)
    | WriteReply(c: nat)
    | WriteLost(c: nat)
    | Land(c: nat)

  /** The step a call or the store may take, and the state after it. */
  predicate Enabled(s: State, step: Step) {
    match step
    case Start(c) => c !in s.calls
    case Read(c) => c in s.calls && s.calls[c].Loop?
    case ReadError(c) => c in s.calls && s.calls[c].Loop?
    case WriteReply(c) => c in s.calls && s.calls[c].Writing?
    case WriteLost(c) => c in s.calls && s.calls[c].Writing?
    case Land(c) => c in s.inflight
  }

  function Next(s: State, step: Step): State
    requires Enabled(s, step)
  {
    match step
    case Start(c) => s.(calls := s.calls[c := Loop(0)])
    case Read(c) =>
      // With no value the old `id` is counted up, otherwise the value read.
      var op := if s.key.None? then Op(Absent, Inc(s.calls[c].id)) else Op(Holds(s.key.value), Inc(s.key.value));
      s.(calls := s.calls[c := Writing(op)])
    case ReadError(c) => s.(calls := s.calls[c := Failed])
    case WriteReply(c) =>
      var op := s.calls[c].op;
      if Allows(op.guard, s.key)
      then Apply(s, c, op).(calls := s.calls[c := Returned(op.id)])
      else s.(calls := s.calls[c := Loop(op.id)])
    case WriteLost(c) => s.(calls := s.calls[c := Failed], inflight := s.inflight[c := s.calls[c].op])
    case Land(c) =>
      var op := s.inflight[c];
      var s' := s.(inflight := s.inflight - {c});
      if Allows(op.guard, s.key) then Apply(s', c, op) else s'
  }

  function Apply(s: State, c: nat, op: Op): State {
    s.(key := Some(op.id), history := s.history + [Effect(c, op.id)])
  }

  // ------------------------------------------------------------ runs

  function Run(steps: seq<Step>): (r: Option<State>)
    decreases |steps|
  {
    if steps == [] then Some(INIT)
    else
      var last := |steps| - 1;
      match Run(steps[..last])
      case None => None
      case Some(s) => if Enabled(s, steps[last]) then Some(Next(s, steps[last])) else None
  }

  // ------------------------------------------------------------ invariant

  /** The n-th effect wrote n, up to the wrap-around of int64. */
  predicate Counts(s: State) {
    && (forall i :: 0 <= i < |s.history| ==> s.history[i].id == ToInt64(i + 1))
    && s.key == (if s.history == [] then None else Some(ToInt64(|s.history|)))
  }

  /** A write still to be made counts up from what it is guarded by. */
  predicate CountsUp(op: Op) {
    match op.guard
    case Absent => op.id == 1
    case Holds(v) => op.id == Inc(v)
  }

  /** A call has at most one effect, and it has one exactly when it returned. */
  predicate Owned(s: State) {
    && (forall i, j :: 0 <= i < j < |s.history| ==> s.history[i].call != s.history[j].call)
    && (forall i :: 0 <= i < |s.history| ==>
          var c := s.history[i].call;
          c in s.calls && c !in s.inflight && (s.calls[c].Failed? || s.calls[c] == Returned(s.history[i].id)))
    && (forall c :: c in s.inflight ==> c in s.calls && s.calls[c].Failed?)
    && (forall c :: c in s.calls && s.calls[c].Returned? ==> Effect(c, s.calls[c].id) in s.history)
  }

  predicate Pending(s: State) {
    && (forall c :: c in s.inflight ==> CountsUp(s.inflight[c]))
    && (forall c :: c in s.calls && s.calls[c].Writing? ==> CountsUp(s.calls[c].op))
    // A call that has been round the loop has seen the key, which is never deleted.
    && (forall c :: c in s.calls && s.calls[c].Loop? && s.calls[c].id != 0 ==> s.key.Some?)
    && (forall c :: c in s.calls && s.calls[c].Writing? && s.calls[c].op.guard.Holds? ==> s.key.Some?)
  }

  predicate Inv(s: State) {
    Counts(s) && Owned(s) && Pending(s)
  }

  lemma IncWraps(n: nat)
    ensures Inc(ToInt64(n)) == ToInt64(n + 1)
  {
  }

  lemma EffectCounts(s: State, op: Op)
    requires Counts(s) && CountsUp(op) && Allows(op.guard, s.key)
    ensures op.id == ToInt64(|s.history| + 1)
  {
    IncWraps(|s.history|);
  }

  lemma WriteReplyKeepsInv(s: State, c: nat)
    requires Inv(s) && Enabled(s, WriteReply(c))
    ensures Inv(Next(s, WriteReply(c)))
  {
    var op := s.calls[c].op;
    if Allows(op.guard, s.key) {
      EffectCounts(s, op);
      var s' := Next(s, WriteReply(c));
      assert s'.history[|s.history|] == Effect(c, op.id);
      forall d | d in s'.calls && s'.calls[d].Returned? ensures Effect(d, s'.calls[d].id) in s'.history {
        if d != c { assert Effect(d, s.calls[d].id) in s.history; }
      }
    }
  }

  lemma LandKeepsInv(s: State, c: nat)
    requires Inv(s) && Enabled(s, Land(c))
    ensures Inv(Next(s, Land(c)))
  {
    var op := s.inflight[c];
    if Allows(op.guard, s.key) {
      EffectCounts(s, op);
      var s' := Next(s, Land(c));
      forall d | d in s'.calls && s'.calls[d].Returned? ensures Effect(d, s'.calls[d].id) in s'.history {
        assert Effect(d, s.calls[d].id) in s.history;
      }
    }
  }

  lemma StepKeepsInv(s: State, step: Step)
    requires Inv(s) && Enabled(s, step)
    ensures Inv(Next(s, step))
  {
    match step {
      case WriteReply(c) => WriteReplyKeepsInv(s, c);
      case Land(c) => LandKeepsInv(s, c);
      case _ =>
    }
  }

  lemma {:induction false} Reachable(steps: seq<Step>)
    requires Run(steps).Some?
    ensures Inv(Run(steps).value)
    decreases |steps|
  {
    if steps != [] {
      Reachable(steps[..|steps| - 1]);
      StepKeepsInv(Run(steps[..|steps| - 1]).value, steps[|steps| - 1]);
    }
  }

  /** Effects are never taken back or reordered. */
  lemma {:induction false} HistoryGrows(steps: seq<Step>, n: nat)
    requires n <= |steps| && Run(steps).Some?
    ensures Run(steps[..n]).Some?
    ensures Run(steps[..n]).value.history <= Run(steps).value.history
    decreases |steps|
  {
    if n == |steps| {
      assert steps[..n] == steps;
    } else {
      var m := |steps| - 1;
      HistoryGrows(steps[..m], n);
      assert steps[..m][..n] == steps[..n];
    }
  }

  // ------------------------------------------------------------ the results

  lemma WrapInjective(i: nat, j: nat)
    requires i < j <= TWO64 && i >= 1
    ensures ToInt64(i) != ToInt64(j)
    ensures j < TWO63 ==> ToInt64(i) < ToInt64(j)
  {
  }

  /** Where a returned identifier took effect. */
  lemma EffectOf(s: State, c: nat) returns (i: nat)
    requires Inv(s) && c in s.calls && s.calls[c].Returned?
    ensures i < |s.history| && s.history[i] == Effect(c, s.calls[c].id)
    ensures s.calls[c].id == ToInt64(i + 1)
  {
    assert Effect(c, s.calls[c].id) in s.history;
    i :| 0 <= i < |s.history| && s.history[i] == Effect(c, s.calls[c].id);
  }

  /** No two calls have returned the same identifier. */
  predicate Unique(s: State) {
    forall c, d :: c in s.calls && d in s.calls && c != d && s.calls[c].Returned? && s.calls[d].Returned?
                   ==> s.calls[c].id != s.calls[d].id
  }

  predicate DistinctIDs(h: seq<Effect>) {
    forall i, j :: 0 <= i < j < |h| ==> h[i].id != h[j].id
  }

  lemma DistinctEffects(s: State, c: nat, d: nat)
    requires Inv(s) && |s.history| <= TWO64 && c != d
    requires c in s.calls && s.calls[c].Returned? && d in s.calls && s.calls[d].Returned?
    ensures s.calls[c].id != s.calls[d].id
  {
    hide Inv;
    var i := EffectOf(s, c);
    var j := EffectOf(s, d);
    if i < j { WrapInjective(i + 1, j + 1); } else { WrapInjective(j + 1, i + 1); }
  }

  /** In every reachable state with at most 2^64 effects no two calls have returned the same
      identifier, however calls interleave and replies are lost. */
  lemma IdsAreUnique(steps: seq<Step>)
    requires Run(steps).Some? && |Run(steps).value.history| <= TWO64
    ensures Unique(Run(steps).value)
  {
    var s := Run(steps).value;
    Reachable(steps);
    forall c, d | c in s.calls && d in s.calls && c != d && s.calls[c].Returned? && s.calls[d].Returned?
      ensures s.calls[c].id != s.calls[d].id
    {
      DistinctEffects(s, c, d);
    }
  }

  lemma CountsDistinct(s: State)
    requires Counts(s)
    ensures DistinctIDs(s.history) <==> |s.history| <= TWO64
  {
    var h := s.history;
    if |h| <= TWO64 {
      forall i, j | 0 <= i < j < |h| ensures h[i].id != h[j].id { WrapInjective(i + 1, j + 1); }
    } else {
      assert h[0].id == 1 && h[TWO64].id == 1;
    }
  }

  /** The identifiers that took effect are pairwise distinct exactly as long as there are at
      most 2^64 of them. */
  lemma EffectsAreDistinctUntilRepeat(steps: seq<Step>)
    requires Run(steps).Some?
    ensures DistinctIDs(Run(steps).value.history) <==> |Run(steps).value.history| <= TWO64
  {
    Reachable(steps);
    CountsDistinct(Run(steps).value);
  }

  /** n calls one after the other, each of which returns. */
  predicate InTurn(s: State, n: nat) {
    && |s.history| == n && (forall c :: c in s.calls ==> c < n)
    && forall c :: 0 <= c < n ==> c in s.calls && s.calls[c] == Returned(ToInt64(c + 1))
  }

  lemma Extend(steps: seq<Step>, s: State, step: Step)
    requires Run(steps) == Some(s) && Enabled(s, step)
    ensures Run(steps + [step]) == Some(Next(s, step))
  {
    assert (steps + [step])[..|steps|] == steps;
  }

  lemma OneMoreCall(s: State, n: nat) returns (s1: State, s2: State, s3: State)
    requires Inv(s) && InTurn(s, n)
    ensures Enabled(s, Start(n)) && s1 == Next(s, Start(n))
    ensures Enabled(s1, Read(n)) && s2 == Next(s1, Read(n))
    ensures Enabled(s2, WriteReply(n)) && s3 == Next(s2, WriteReply(n)) && InTurn(s3, n + 1)
  {
    s1 := Next(s, Start(n));
    s2 := Next(s1, Read(n));
    s3 := Next(s2, WriteReply(n));
    IncWraps(n);
  }

  lemma {:induction false} CallsInTurn(n: nat) returns (steps: seq<Step>)
    ensures Run(steps).Some? && InTurn(Run(steps).value, n)
  {
    if n == 0 {
      steps := [];
    } else {
      var before := CallsInTurn(n - 1);
      Reachable(before);
      var s := Run(before).value;
      hide Run, Inv, InTurn, Next, Enabled;
      var s1, s2, s3 := OneMoreCall(s, n - 1);
      Extend(before, s, Start(n - 1));
      Extend(before + [Start(n - 1)], s1, Read(n - 1));
      Extend(before + [Start(n - 1)] + [Read(n - 1)], s2, WriteReply(n - 1));
      steps := before + [Start(n - 1)] + [Read(n - 1)] + [WriteReply(n - 1)];
    }
  }

  /** 2^64 is exactly how many effects uniqueness survives: with more, some run returns the
      same identifier twice. */
  lemma UniqueInAllRunsExactly(n: nat)
    ensures (forall steps :: Run(steps).Some? && |Run(steps).value.history| == n ==> Unique(Run(steps).value)) <==> n <= TWO64
  {
    if n <= TWO64 {
      forall steps | Run(steps).Some? && |Run(steps).value.history| == n ensures Unique(Run(steps).value) {
        IdsAreUnique(steps);
      }
    } else {
      var steps := CallsInTurn(n);
      var s := Run(steps).value;
      assert s.calls[0] == Returned(ToInt64(1)) && s.calls[TWO64] == Returned(ToInt64(TWO64 + 1));
      assert !Unique(s);
    }
  }

  // ------------------------------------------------------------ what becomes of a call

  /** A call fails exactly when a read or the reply to a write of it is lost: losing a
      comparison only sends it round again. */
  lemma {:induction false} FailsExactlyByErrors(steps: seq<Step>, c: nat)
    requires Run(steps).Some?
    ensures var s := Run(steps).value;
            c in s.calls && s.calls[c].Failed? <==> ReadError(c) in steps || WriteLost(c) in steps
    ensures c in Run(steps).value.calls <==> Start(c) in steps
    decreases |steps|
  {
    if steps != [] {
      var before, step := steps[..|steps| - 1], steps[|steps| - 1];
      FailsExactlyByErrors(before, c);
      assert steps == before + [step];
    }
  }

  /** Whenever a call reads, the read may fail, and whenever it writes, the reply may be lost;
      nothing else can happen to it. */
  lemma AnyRequestMayFail(steps: seq<Step>, c: nat)
    requires Run(steps).Some? && c in Run(steps).value.calls
    ensures var call := Run(steps).value.calls[c];
            && (Run(steps + [Read(c)]).Some? <==> call.Loop?) && (Run(steps + [ReadError(c)]).Some? <==> call.Loop?)
            && (Run(steps + [WriteReply(c)]).Some? <==> call.Writing?) && (Run(steps + [WriteLost(c)]).Some? <==> call.Writing?)
  {
    assert forall step :: (steps + [step])[..|steps|] == steps && (steps + [step])[|steps|] == step;
  }

  /** The identifier after the one the key holds. */
  function Following(key: Option<Int64>): Int64 {
    if key.None? then 1 else Inc(key.value)
  }

  function KeyAt(steps: seq<Step>): Option<Int64>
    requires Run(steps).Some?
  {
    Run(steps).value.key
  }

  /** The last read of a call was its step r. */
  predicate LastRead(steps: seq<Step>, c: nat, r: nat) {
    r < |steps| && steps[r] == Read(c) && Read(c) !in steps[r + 1..]
  }

  lemma LastReadOn(before: seq<Step>, step: Step, c: nat, r: nat)
    requires LastRead(before, c, r) && step != Read(c)
    ensures LastRead(before + [step], c, r) && (before + [step])[..r] == before[..r]
  {
    assert (before + [step])[r + 1..] == before[r + 1..] + [step];
  }

  /** The write of a call, made or still in flight. */
  predicate Writes(s: State, c: nat, op: Op) {
    (c in s.calls && s.calls[c] == Writing(op)) || (c in s.inflight && s.inflight[c] == op)
  }

  /** A write is guarded by what the call last read, and counts up from it. */
  lemma {:induction false} WritesAfterLastRead(steps: seq<Step>, c: nat, op: Op) returns (r: nat)
    requires Run(steps).Some? && Writes(Run(steps).value, c, op)
    ensures LastRead(steps, c, r) && Run(steps[..r]).Some?
    ensures op == Op(if KeyAt(steps[..r]).None? then Absent else Holds(KeyAt(steps[..r]).value), Following(KeyAt(steps[..r])))
    decreases |steps|
  {
    var before, step := steps[..|steps| - 1], steps[|steps| - 1];
    assert steps == before + [step];
    Reachable(before);
    if step == Read(c) {
      r := |before|;
    } else {
      r := WritesAfterLastRead(before, c, op);
      LastReadOn(before, step, c, r);
    }
  }

  /** Compare and swap: a write, whether its reply arrives or it lands late, takes effect
      exactly when the key is as its call last read it. Then the reply makes the call
      return; otherwise the call goes round again, and a late write is gone. */
  lemma EffectIffUnchanged(steps: seq<Step>, step: Step) returns (r: nat)
    requires Run(steps).Some? && Enabled(Run(steps).value, step) && (step.WriteReply? || step.Land?)
    ensures LastRead(steps, step.c, r) && Run(steps[..r]).Some? && Run(steps + [step]).Some?
    ensures var s, t, c, id := Run(steps).value, Run(steps + [step]).value, step.c, Following(KeyAt(steps[..r]));
            && (if KeyAt(steps) == KeyAt(steps[..r]) then t.key == Some(id) && t.history == s.history + [Effect(c, id)]
                else t.key == s.key && t.history == s.history)
            && (step.WriteReply? ==> t.inflight == s.inflight && t.calls == s.calls[c := t.calls[c]]
                                     && (if KeyAt(steps) == KeyAt(steps[..r]) then t.calls[c] == Returned(id) else t.calls[c].Loop?))
            && (step.Land? ==> t.calls == s.calls && t.inflight == s.inflight - {c})
  {
    var s, c := Run(steps).value, step.c;
    r := WritesAfterLastRead(steps, c, if step.WriteReply? then s.calls[c].op else s.inflight[c]);
    Extend(steps, s, step);
    hide Run;
  }

  /** No other step touches the key, and only a lost reply leaves a write in flight. */
  lemma OtherStepsWriteNothing(s: State, step: Step)
    requires Enabled(s, step) && !step.WriteReply? && !step.Land?
    ensures Next(s, step).key == s.key && Next(s, step).history == s.history
    ensures forall c :: c != step.c ==>
                          (c in Next(s, step).calls <==> c in s.calls) && (c in s.calls ==> Next(s, step).calls[c] == s.calls[c])
    ensures step.WriteLost? ==> Writes(Next(s, step), step.c, s.calls[step.c].op) && step.c in Next(s, step).inflight
    ensures !step.WriteLost? ==> Next(s, step).inflight == s.inflight
  {
  }

  /** The state in which a call has just written the next identifier and returned it. */
  function Served(s: State, c: nat): State {
    var id := Following(s.key);
    State(Some(id), s.calls[c := Returned(id)], s.inflight, s.history + [Effect(c, id)])
  }

  lemma LostComparison(s: State, c: nat)
    requires Inv(s) && c in s.calls && s.calls[c].Writing?
    ensures Enabled(s, WriteReply(c))
    ensures var t := Next(s, WriteReply(c));
            t == Served(s, c) || (Inv(t) && c in t.calls && t.calls[c].Loop? && Served(t, c) == Served(s, c))
  {
    WriteReplyKeepsInv(s, c);
    hide Counts, Owned;
    var t := Next(s, WriteReply(c));
    assert t.calls[c := Returned(Following(s.key))] == s.calls[c := Returned(Following(s.key))];
  }

  lemma ReadThenWrite(s: State, c: nat)
    requires Inv(s) && c in s.calls && s.calls[c].Loop?
    ensures Enabled(s, Read(c)) && Enabled(Next(s, Read(c)), WriteReply(c))
    ensures Next(Next(s, Read(c)), WriteReply(c)) == Served(s, c)
  {
    hide Counts, Owned;
    var t := Next(s, Read(c));
    assert Next(t, WriteReply(c)).calls == Served(s, c).calls;
  }

  /** In every reachable state a call that has neither returned nor failed, left to itself,
      returns the identifier after the one the key holds, in at most three steps: also when
      its write is about to lose the comparison. */
  lemma UndisturbedCallReturns(steps: seq<Step>, c: nat) returns (more: seq<Step>)
    requires Run(steps).Some? && c in Run(steps).value.calls
    requires var call := Run(steps).value.calls[c]; call.Loop? || call.Writing?
    ensures |more| <= 3 && forall i :: 0 <= i < |more| ==> more[i] == Read(c) || more[i] == WriteReply(c)
    ensures Run(steps + more) == Some(Served(Run(steps).value, c))
  {
    Reachable(steps);
    hide Run, Next, Enabled, Inv, Served;
    var s := Run(steps).value;
    if s.calls[c].Loop? {
      more := LoopReturns(steps, s, c);
    } else {
      LostComparison(s, c);
      Extend(steps, s, WriteReply(c));
      more := [WriteReply(c)];
      var t := Next(s, WriteReply(c));
      if t != Served(s, c) {
        var last := LoopReturns(steps + more, t, c);
        assert steps + more + last == steps + (more + last);
        more := more + last;
      }
    }
  }

  lemma LoopReturns(steps: seq<Step>, s: State, c: nat) returns (more: seq<Step>)
    requires Run(steps) == Some(s) && Inv(s) && c in s.calls && s.calls[c].Loop?
    ensures more == [Read(c), WriteReply(c)] && Run(steps + more) == Some(Served(s, c))
  {
    ReadThenWrite(s, c);
    Extend(steps, s, Read(c));
    Extend(steps + [Read(c)], Next(s, Read(c)), WriteReply(c));
    more := [Read(c), WriteReply(c)];
    assert steps + [Read(c)] + [WriteReply(c)] == steps + more;
  }

  predicate Ascending(h: seq<Effect>) {
    forall i, j :: 0 <= i < j < |h| ==> h[i].id < h[j].id
  }

  lemma CountsAscend(s: State)
    requires Counts(s)
    ensures Ascending(s.history) <==> |s.history| < TWO63
  {
    var h := s.history;
    if |h| < TWO63 {
      forall i, j | 0 <= i < j < |h| ensures h[i].id < h[j].id { WrapInjective(i + 1, j + 1); }
    } else {
      assert h[TWO63 - 2].id == TWO63 - 1 && h[TWO63 - 1].id == -TWO63;
    }
  }

  /** Identifiers strictly increase in the order the writes take effect exactly as long
      as fewer than 2^63 have: the next one wraps to the least int64. */
  lemma IdsIncreaseUntilWrap(steps: seq<Step>)
    requires Run(steps).Some?
    ensures Ascending(Run(steps).value.history) <==> |Run(steps).value.history| < TWO63
  {
    Reachable(steps);
    CountsAscend(Run(steps).value);
  }

  /** A call that starts after another has returned gets the larger identifier. */
  lemma LaterCallsGetLargerIds(steps: seq<Step>, n: nat, c: nat, d: nat)
    requires n <= |steps| && Run(steps).Some? && Run(steps[..n]).Some?
    requires var early, late := Run(steps[..n]).value, Run(steps).value;
             && c in early.calls && early.calls[c].Returned?
             && d !in early.calls && d in late.calls && late.calls[d].Returned?
             && |late.history| < TWO63
    ensures Run(steps[..n]).value.calls[c].id < Run(steps).value.calls[d].id
  {
    Reachable(steps);
    Reachable(steps[..n]);
    HistoryGrows(steps, n);
    hide Run;
    OrderedEffects(Run(steps[..n]).value, Run(steps).value, c, d);
  }

  lemma OrderedEffects(early: State, late: State, c: nat, d: nat)
    requires Inv(early) && Inv(late) && early.history <= late.history && |late.history| < TWO63
    requires c in early.calls && early.calls[c].Returned?
    requires d !in early.calls && d in late.calls && late.calls[d].Returned?
    ensures early.calls[c].id < late.calls[d].id
  {
    var i := EffectOf(early, c);
    var j := EffectOf(late, d);
    assert j >= |early.history|;
    WrapInjective(i + 1, j + 1);
  }
}
