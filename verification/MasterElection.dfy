/** Master election of the placement driver: servers campaign for one etcd key under a
    lease, load their state, serve while the lease is kept alive, and step down. Leases
    may expire at any time, replies may be lost and the write still take effect later,
    and servers may crash and restart. Every etcd write of a master is guarded by a
    comparison of the key with the server's own value, written here as its number. */
module MasterElection {
  import opened Wrappers

  // ------------------------------------------------------------ state

  /** What the key holds: a server's value, attached to a lease. */
  datatype Holder = Holder(server: nat, lease: nat)

  /** A campaign write: `renew` is the comparison with the server's own value, otherwise
      the comparison is that the key does not exist. */
  datatype Campaign = Campaign(server: nat, renew: bool, lease: nat)

  /** Program points of masterLoop and campaignAndRunMaster. */
  datatype Pc =
    | Top | TopReady | Ask
    | Watch | AskLease(mine: bool) | Campaigning(op: Campaign)
    | Won | StartKeepAlive | LoadTimestamp | LoadRanges | LoadNodes | Loaded
    | Serving | ClearReady | ClearMaster

  /** The two flags, and the times of this tenure's win and loads. */
  datatype Server = Server(
    pc: Pc, master: bool, ready: bool,
    wonAt: nat, timestampAt: nat, rangesAt: nat, nodesAt: nat)

  const FRESH := Server(Top, false, false, 0, 0, 0, 0)

  /** What etcd has seen, in order. */
  datatype Event = Acquired(server: nat) | Renewed(server: nat) | Deleted(server: nat) | Wrote(server: nat)

  datatype State = State(
    now: nat, key: Option<Holder>, live: set<nat>, granted: nat,
    inflight: set<Campaign>, servers: map<nat, Server>, log: seq<Event>)

  const INIT := State(0, None, {}, 0, {}, map[], [])

  function Get(s: State, i: nat): Server {
    if i in s.servers then s.servers[i] else FRESH
  }

  predicate Holds(s: State, i: nat) {
    s.key.Some? && s.key.value.server == i
  }

  // ------------------------------------------------------------ steps

  datatype Step =
    | SetMasterFalse(i: nat) | SetReadyFalse(i: nat)
    | GetMaster(i: nat) | WatchEnds(i: nat) | GrantLease(i: nat)
    | CampaignReply(i: nat) | CampaignLost(i: nat) | CampaignLands(op: Campaign)
    | SetMasterTrue(i: nat) | KeepAlive(i: nat)
    | LoadTimestampDone(i: nat) | LoadRangesDone(i: nat) | LoadNodesDone(i: nat)
    | SetReadyTrue(i: nat) | Error(i: nat) | StepDown(i: nat)
    | MasterPut(i: nat) | Expire(lease: nat) | Stop(i: nat) | Crash(i: nat)

  predicate Enabled(s: State, step: Step) {
    match step
    case SetMasterFalse(i) => Get(s, i).pc.Top?
    case SetReadyFalse(i) => Get(s, i).pc.TopReady?
    case GetMaster(i) => Get(s, i).pc.Ask?
    case WatchEnds(i) => Get(s, i).pc.Watch?
    case GrantLease(i) => Get(s, i).pc.AskLease?
    case CampaignReply(i) => Get(s, i).pc.Campaigning?
    case CampaignLost(i) => Get(s, i).pc.Campaigning?
    case CampaignLands(op) => op in s.inflight
    case SetMasterTrue(i) => Get(s, i).pc.Won?
    case KeepAlive(i) => Get(s, i).pc.StartKeepAlive?
    // Loading the timestamp saves it again, under the master comparison.
    case LoadTimestampDone(i) => Get(s, i).pc.LoadTimestamp? && Holds(s, i)
    case LoadRangesDone(i) => Get(s, i).pc.LoadRanges?
    case LoadNodesDone(i) => Get(s, i).pc.LoadNodes?
    case SetReadyTrue(i) => Get(s, i).pc.Loaded?
    case Error(i) => CanFail(Get(s, i).pc)
    case StepDown(i) => Get(s, i).pc.ClearReady? || Get(s, i).pc.ClearMaster?
    case MasterPut(i) => true
    case Expire(l) => l in s.live
    case Stop(i) => true
    case Crash(i) => true
  }

  predicate CanFail(pc: Pc) {
    pc.Ask? || pc.AskLease? || pc.StartKeepAlive? || pc.LoadTimestamp? || pc.LoadRanges? || pc.LoadNodes? || pc.Serving?
  }

  /** Where an error, a closed keep-alive channel or a stop leads: the deferred calls run
      in reverse order of their registration. */
  function AfterError(pc: Pc): Pc
    requires CanFail(pc)
  {
    if pc.Ask? || pc.AskLease? then Top
    else if pc.Serving? then ClearReady
    else ClearMaster
  }

  function Next(s: State, step: Step): State
    requires Enabled(s, step)
  {
    var e := EtcdNext(s, step).(now := s.now + 1);
    if step.CampaignLands? || step.Expire? then e else e.(servers := s.servers[step.i := ServerNext(s, step)])
  }

  /** What the step does to the server that takes it. */
  function ServerNext(s: State, step: Step): Server
    requires Enabled(s, step) && !step.CampaignLands? && !step.Expire?
  {
    var v := Get(s, step.i);
    match step
    case SetMasterFalse(i) => v.(pc := TopReady, master := false)
    case SetReadyFalse(i) => v.(pc := Ask, ready := false)
    case GetMaster(i) =>
      v.(pc := if s.key.None? then AskLease(false) else if Holds(s, i) then AskLease(true) else Watch)
    case WatchEnds(i) => v.(pc := AskLease(false))
    case GrantLease(i) => v.(pc := Campaigning(Campaign(i, v.pc.mine, s.granted)))
    case CampaignReply(i) => if Wins(s, v.pc.op) then v.(pc := Won, wonAt := s.now) else v.(pc := Top)
    case CampaignLost(i) => v.(pc := Top)
    case SetMasterTrue(i) => v.(pc := StartKeepAlive, master := true)
    case KeepAlive(i) => v.(pc := LoadTimestamp)
    case LoadTimestampDone(i) => v.(pc := LoadRanges, timestampAt := s.now)
    case LoadRangesDone(i) => v.(pc := LoadNodes, rangesAt := s.now)
    case LoadNodesDone(i) => v.(pc := Loaded, nodesAt := s.now)
    case SetReadyTrue(i) => v.(pc := Serving, ready := true)
    case Error(i) => v.(pc := AfterError(v.pc))
    case StepDown(i) =>
      if v.pc.ClearReady? then v.(pc := ClearMaster, ready := false) else v.(pc := Top, master := false)
    case MasterPut(i) => v
    // Stop clears the master flag at once; the loop notices later.
    case Stop(i) => v.(master := false)
    case Crash(i) => FRESH
  }

  /** What the step does to etcd. */
  function EtcdNext(s: State, step: Step): (r: State)
    requires Enabled(s, step)
    ensures r.servers == s.servers && r.now == s.now
  {
    match step
    case GrantLease(i) => s.(granted := s.granted + 1, live := s.live + {s.granted})
    case CampaignReply(i) => if Wins(s, Get(s, i).pc.op) then Win(s, Get(s, i).pc.op) else s
    case CampaignLost(i) => s.(inflight := s.inflight + {Get(s, i).pc.op})
    case CampaignLands(op) =>
      var s' := s.(inflight := s.inflight - {op});
      if Wins(s, op) then Win(s', op) else s'
    case LoadTimestampDone(i) => s.(log := s.log + [Wrote(i)])
    case MasterPut(i) => if Holds(s, i) then s.(log := s.log + [Wrote(i)]) else s
    case Expire(l) =>
      var s' := s.(live := s.live - {l});
      if s.key.Some? && s.key.value.lease == l
      then s'.(key := None, log := s.log + [Deleted(s.key.value.server)])
      else s'
    case _ => s
  }

  /** etcd's side of a campaign: the comparison, and that the lease still lives. */
  predicate Wins(s: State, op: Campaign) {
    op.lease in s.live && if op.renew then Holds(s, op.server) else s.key.None?
  }

  function Win(s: State, op: Campaign): State {
    s.(key := Some(Holder(op.server, op.lease)),
       log := s.log + [if op.renew then Renewed(op.server) else Acquired(op.server)])
  }

  function Run(steps: seq<Step>): (r: Option<State>)
    decreases |steps|
  {
    if steps == [] then Some(INIT)
    else
      var last := |steps| - 1;
      match Run(steps[..last])
      case None => None
      case Some(s) => if Enabled(s, steps[last]) then Some(Next(s, steps[last])) else None
  }

  // ------------------------------------------------------------ the flags

  /** What a server's flags and load times are at each point of its loop. */
  predicate ServerInv(v: Server, now: nat) {
    && (v.ready <==> v.pc.Serving? || v.pc.ClearReady?)
    && (v.master ==> !v.pc.TopReady? && !v.pc.Ask? && !v.pc.Watch? && !v.pc.AskLease? && !v.pc.Campaigning? && !v.pc.Won? && !v.pc.Top?)
    && (v.pc.Won? || PastWin(v.pc) ==> v.wonAt < now)
    && (PastTimestamp(v.pc) ==> v.wonAt < v.timestampAt < now)
    && (PastRanges(v.pc) ==> v.timestampAt < v.rangesAt < now)
    && (v.pc.Loaded? || v.pc.Serving? || v.pc.ClearReady? ==> v.rangesAt < v.nodesAt < now)
  }

  predicate PastWin(pc: Pc) {
    pc.StartKeepAlive? || pc.LoadTimestamp? || PastTimestamp(pc)
  }

  predicate PastTimestamp(pc: Pc) {
    pc.LoadRanges? || PastRanges(pc)
  }

  predicate PastRanges(pc: Pc) {
    pc.LoadNodes? || pc.Loaded? || pc.Serving? || pc.ClearReady?
  }

  ghost predicate FlagInv(s: State) {
    forall i :: ServerInv(Get(s, i), s.now)
  }

  lemma TimePasses(v: Server, now: nat)
    requires ServerInv(v, now)
    ensures ServerInv(v, now + 1)
  {
  }

  lemma ServerStep(s: State, step: Step)
    requires Enabled(s, step) && !step.CampaignLands? && !step.Expire?
    requires ServerInv(Get(s, step.i), s.now)
    ensures ServerInv(ServerNext(s, step), s.now + 1)
  {
  }

  lemma StepKeepsServer(s: State, step: Step, i: nat)
    requires Enabled(s, step) && ServerInv(Get(s, i), s.now)
    ensures ServerInv(Get(Next(s, step), i), s.now + 1)
  {
    hide EtcdNext, ServerNext, ServerInv, Enabled;
    if !step.CampaignLands? && !step.Expire? && step.i == i {
      ServerStep(s, step);
    } else {
      TimePasses(Get(s, i), s.now);
    }
  }

  lemma {:induction false} FlagsReachable(steps: seq<Step>)
    requires Run(steps).Some?
    ensures FlagInv(Run(steps).value)
    decreases |steps|
  {
    if steps != [] {
      var before := steps[..|steps| - 1];
      FlagsReachable(before);
      var s, step := Run(before).value, steps[|steps| - 1];
      forall i ensures ServerInv(Get(Next(s, step), i), s.now + 1) { StepKeepsServer(s, step, i); }
    }
  }

  /** A ready server has loaded timestamp, ranges and nodes, in this order, after it won
      the tenure it is serving. */
  lemma ReadyMeansLoaded(steps: seq<Step>, i: nat)
    requires Run(steps).Some? && Get(Run(steps).value, i).ready
    ensures var v := Get(Run(steps).value, i);
            v.wonAt < v.timestampAt < v.rangesAt < v.nodesAt < |steps|
  {
    FlagsReachable(steps);
    TimeIsLength(steps);
  }

  lemma {:induction false} TimeIsLength(steps: seq<Step>)
    requires Run(steps).Some?
    ensures Run(steps).value.now == |steps|
    decreases |steps|
  {
    if steps != [] { TimeIsLength(steps[..|steps| - 1]); }
  }

  /** Stop was called on the server and it has not become master since. */
  predicate StoppedSince(steps: seq<Step>, i: nat) {
    exists k :: 0 <= k < |steps| && steps[k] == Stop(i) && SetMasterTrue(i) !in steps[k + 1..]
  }

  lemma StoppedStep(before: seq<Step>, step: Step, i: nat)
    ensures StoppedSince(before + [step], i) <==> step == Stop(i) || (StoppedSince(before, i) && step != SetMasterTrue(i))
  {
    var steps := before + [step];
    if step == Stop(i) {
      assert steps[|before|] == Stop(i) && steps[|before| + 1..] == [];
    } else {
      if k :| 0 <= k < |before| && before[k] == Stop(i) && SetMasterTrue(i) !in before[k + 1..] {
        assert steps[k] == Stop(i) && steps[k + 1..] == before[k + 1..] + [step];
      }
      if k :| 0 <= k < |steps| && steps[k] == Stop(i) && SetMasterTrue(i) !in steps[k + 1..] {
        assert k < |before| && steps[k + 1..] == before[k + 1..] + [step];
      }
    }
  }

  /** From the win to the clearing of the flags. */
  predicate FlagsAgree(v: Server, stopped: bool) {
    PastWin(v.pc) ==> (v.master <==> !stopped)
  }

  lemma StepKeepsAgreement(s: State, step: Step, i: nat, stopped: bool)
    requires Enabled(s, step) && FlagsAgree(Get(s, i), stopped)
    ensures FlagsAgree(Get(Next(s, step), i), step == Stop(i) || (stopped && step != SetMasterTrue(i)))
  {
    hide EtcdNext;
  }

  lemma {:induction false} AgreementReachable(steps: seq<Step>, i: nat)
    requires Run(steps).Some?
    ensures FlagsAgree(Get(Run(steps).value, i), StoppedSince(steps, i))
    decreases |steps|
  {
    if steps != [] {
      var before, step := steps[..|steps| - 1], steps[|steps| - 1];
      AgreementReachable(before, i);
      assert steps == before + [step];
      StoppedStep(before, step, i);
      hide FlagsAgree, Get, Next, Enabled, StoppedSince;
      StepKeepsAgreement(Run(before).value, step, i, StoppedSince(before, i));
    }
  }

  /** A ready server is master exactly when no Stop was called on it after it last became
      master. */
  lemma ReadyIsMasterUnlessStopped(steps: seq<Step>, i: nat)
    requires Run(steps).Some? && Get(Run(steps).value, i).ready
    ensures Get(Run(steps).value, i).master <==> !StoppedSince(steps, i)
  {
    FlagsReachable(steps);
    AgreementReachable(steps, i);
    hide StoppedSince, Run;
    assert ServerInv(Get(Run(steps).value, i), Run(steps).value.now);
  }

  lemma ReadyIsMaster(steps: seq<Step>, i: nat)
    requires Run(steps).Some? && Get(Run(steps).value, i).ready && Stop(i) !in steps
    ensures Get(Run(steps).value, i).master
  {
    ReadyIsMasterUnlessStopped(steps, i);
  }

  lemma Extend(steps: seq<Step>, s: State, step: Step)
    requires Run(steps) == Some(s) && Enabled(s, step)
    ensures Run(steps + [step]) == Some(Next(s, step))
  {
    assert (steps + [step])[..|steps|] == steps;
  }

  /** Stop on a ready server leaves it ready and not master. */
  lemma StopSplitsTheFlags(steps: seq<Step>, i: nat)
    requires Run(steps).Some? && Get(Run(steps).value, i).ready
    ensures Run(steps + [Stop(i)]).Some?
    ensures var v := Get(Run(steps + [Stop(i)]).value, i); v.ready && !v.master
  {
    Extend(steps, Run(steps).value, Stop(i));
  }

  // ------------------------------------------------------------ the flags by the history

  predicate ReadyAt(steps: seq<Step>, i: nat) {
    Run(steps).Some? && Get(Run(steps).value, i).ready
  }

  /** The steps that clear a flag. Stepping down clears the ready flag first, if it is set. */
  predicate ClearsReady(steps: seq<Step>, j: nat, i: nat)
    requires j < |steps|
  {
    steps[j] == SetReadyFalse(i) || steps[j] == Crash(i) || steps[j] == StepDown(i)
  }

  predicate ClearsMaster(steps: seq<Step>, j: nat, i: nat)
    requires j < |steps|
  {
    || steps[j] == SetMasterFalse(i) || steps[j] == Crash(i) || steps[j] == Stop(i)
    || (steps[j] == StepDown(i) && !ReadyAt(steps[..j], i))
  }

  predicate ReadySince(steps: seq<Step>, i: nat) {
    exists k :: 0 <= k < |steps| && steps[k] == SetReadyTrue(i) && forall j :: k < j < |steps| ==> !ClearsReady(steps, j, i)
  }

  predicate MasterSince(steps: seq<Step>, i: nat) {
    exists k :: 0 <= k < |steps| && steps[k] == SetMasterTrue(i) && forall j :: k < j < |steps| ==> !ClearsMaster(steps, j, i)
  }

  lemma ReadySinceStep(steps: seq<Step>, i: nat)
    requires steps != []
    ensures var n := |steps| - 1;
            ReadySince(steps, i) <==> steps[n] == SetReadyTrue(i) || (ReadySince(steps[..n], i) && !ClearsReady(steps, n, i))
  {
    var n := |steps| - 1;
    assert forall j :: 0 <= j < n ==> ClearsReady(steps[..n], j, i) == ClearsReady(steps, j, i);
    if ReadySince(steps[..n], i) && !ClearsReady(steps, n, i) {
      var k :| 0 <= k < n && steps[..n][k] == SetReadyTrue(i) && forall j :: k < j < n ==> !ClearsReady(steps[..n], j, i);
      assert steps[k] == SetReadyTrue(i);
    }
    if ReadySince(steps, i) && steps[n] != SetReadyTrue(i) {
      var k :| 0 <= k < |steps| && steps[k] == SetReadyTrue(i) && forall j :: k < j < |steps| ==> !ClearsReady(steps, j, i);
      assert steps[..n][k] == SetReadyTrue(i);
    }
  }

  lemma MasterSinceStep(steps: seq<Step>, i: nat)
    requires steps != []
    ensures var n := |steps| - 1;
            MasterSince(steps, i) <==> steps[n] == SetMasterTrue(i) || (MasterSince(steps[..n], i) && !ClearsMaster(steps, n, i))
  {
    var n := |steps| - 1;
    forall j | 0 <= j < n ensures ClearsMaster(steps[..n], j, i) == ClearsMaster(steps, j, i) {
      assert steps[..n][..j] == steps[..j];
    }
    hide ReadyAt;
    if MasterSince(steps[..n], i) && !ClearsMaster(steps, n, i) {
      var k :| 0 <= k < n && steps[..n][k] == SetMasterTrue(i) && forall j :: k < j < n ==> !ClearsMaster(steps[..n], j, i);
      assert steps[k] == SetMasterTrue(i);
    }
    if MasterSince(steps, i) && steps[n] != SetMasterTrue(i) {
      var k :| 0 <= k < |steps| && steps[k] == SetMasterTrue(i) && forall j :: k < j < |steps| ==> !ClearsMaster(steps, j, i);
      assert steps[..n][k] == SetMasterTrue(i);
    }
  }

  lemma FlagStep(s: State, step: Step, i: nat)
    requires Enabled(s, step) && ServerInv(Get(s, i), s.now)
    ensures var v, w := Get(s, i), Get(Next(s, step), i);
            && (w.ready <==> step == SetReadyTrue(i) ||
                             (v.ready && step != SetReadyFalse(i) && step != Crash(i) && step != StepDown(i)))
            && (w.master <==> step == SetMasterTrue(i) ||
                              (v.master && step != SetMasterFalse(i) && step != Crash(i) && step != Stop(i)
                               && !(step == StepDown(i) && !v.ready)))
  {
    hide EtcdNext;
  }

  /** Both flags are what the history says, in every run: set by their step, and cleared by
      the loop's head, by stepping down, by a crash and, the master flag, by Stop. */
  lemma {:induction false} FlagsByHistory(steps: seq<Step>, i: nat)
    requires Run(steps).Some?
    ensures var v := Get(Run(steps).value, i);
            (v.ready <==> ReadySince(steps, i)) && (v.master <==> MasterSince(steps, i))
    decreases |steps|
  {
    if steps != [] {
      var before, step := steps[..|steps| - 1], steps[|steps| - 1];
      FlagsByHistory(before, i);
      FlagsReachable(before);
      FlagStep(Run(before).value, step, i);
      ReadySinceStep(steps, i);
      MasterSinceStep(steps, i);
      hide Next, Enabled, ReadySince, MasterSince;
    }
  }

  /** The tenure a server is in began with a campaign of its own that etcd accepted. */
  predicate WonTenure(steps: seq<Step>, i: nat) {
    Run(steps).Some? &&
    var w := Get(Run(steps).value, i).wonAt;
    w < |steps| && steps[w] == CampaignReply(i) && Run(steps[..w]).Some? && Run(steps[..w + 1]).Some?
    && exists e :: e in {Acquired(i), Renewed(i)} && Run(steps[..w + 1]).value.log == Run(steps[..w]).value.log + [e]
  }

  /** In a tenure: from the win to the clearing of the master flag. */
  predicate InTenure(v: Server) {
    v.pc.Won? || PastWin(v.pc) || v.master || v.ready
  }

  lemma TenureStep(s: State, step: Step, i: nat)
    requires Enabled(s, step) && ServerInv(Get(s, i), s.now) && InTenure(Get(Next(s, step), i))
    ensures step != CampaignReply(i) ==> InTenure(Get(s, i)) && Get(Next(s, step), i).wonAt == Get(s, i).wonAt
    ensures step == CampaignReply(i) ==> Get(Next(s, step), i).wonAt == s.now && Wins(s, Get(s, i).pc.op)
    ensures step == CampaignReply(i) ==> Next(s, step).log == Win(s, Get(s, i).pc.op).log
  {
  }

  lemma {:induction false} MasterHasWon(steps: seq<Step>, i: nat)
    requires Run(steps).Some? && InTenure(Get(Run(steps).value, i))
    ensures WonTenure(steps, i)
    decreases |steps|
  {
    var m := |steps| - 1;
    var before, step := steps[..m], steps[m];
    FlagsReachable(before);
    TimeIsLength(before);
    TenureStep(Run(before).value, step, i);
    assert steps[..m + 1] == steps;
    hide Next, InTenure, ServerInv;
    if step != CampaignReply(i) {
      MasterHasWon(before, i);
      var w := Get(Run(steps).value, i).wonAt;
      assert before[..w] == steps[..w] && before[..w + 1] == steps[..w + 1];
    } else {
      OpIsOwn(before, i);
      var op := Get(Run(before).value, i).pc.op;
      assert (if op.renew then Renewed(i) else Acquired(i)) in {Acquired(i), Renewed(i)};
    }
  }

  /** A server campaigns in its own name. */
  lemma {:induction false} OpIsOwn(steps: seq<Step>, i: nat)
    requires Run(steps).Some? && Get(Run(steps).value, i).pc.Campaigning?
    ensures Get(Run(steps).value, i).pc.op.server == i
    decreases |steps|
  {
    hide EtcdNext;
    var before := steps[..|steps| - 1];
    if Get(Run(before).value, i).pc.Campaigning? { OpIsOwn(before, i); }
  }

  // ------------------------------------------------------------ the loop goes on

  /** A step of a server's own loop. */
  predicate OwnStep(step: Step, i: nat) {
    && !step.CampaignLands? && !step.Expire? && !step.MasterPut? && !step.Stop? && !step.Crash?
    && step.i == i
  }

  /** Steps of the loop of i alone lead from s to t. */
  ghost predicate Leads(s: State, i: nat, more: seq<Step>, t: State)
    decreases |more|
  {
    if more == [] then s == t
    else OwnStep(more[0], i) && Enabled(s, more[0]) && Leads(Next(s, more[0]), i, more[1..], t)
  }

  lemma {:induction false} RunLeads(steps: seq<Step>, s: State, i: nat, more: seq<Step>, t: State)
    requires Run(steps) == Some(s) && Leads(s, i, more, t)
    ensures Run(steps + more) == Some(t)
    decreases |more|
  {
    hide Run, Next, Enabled;
    if more == [] {
      assert steps + more == steps;
    } else {
      Extend(steps, s, more[0]);
      RunLeads(steps + [more[0]], Next(s, more[0]), i, more[1..], t);
      assert steps + [more[0]] + more[1..] == steps + more;
    }
  }

  lemma {:induction false} LeadsOn(s: State, i: nat, a: seq<Step>, t: State, b: seq<Step>, u: State)
    requires Leads(s, i, a, t) && Leads(t, i, b, u)
    ensures Leads(s, i, a + b, u)
    decreases |a|
  {
    hide Next, Enabled;
    if a == [] {
      assert a + b == b;
    } else {
      LeadsOn(Next(s, a[0]), i, a[1..], t, b, u);
      assert (a + b)[1..] == a[1..] + b;
    }
  }

  /** Leases are numbered as they are granted, and the key never outlives its own. */
  predicate LeaseInv(s: State) {
    && (forall l :: l in s.live ==> l < s.granted)
    && (s.key.Some? ==> s.key.value.lease in s.live)
  }

  lemma {:induction false} LeasesReachable(steps: seq<Step>)
    requires Run(steps).Some?
    ensures LeaseInv(Run(steps).value)
    decreases |steps|
  {
    if steps != [] { LeasesReachable(steps[..|steps| - 1]); }
  }

  lemma LeadsOneMore(s: State, i: nat, a: seq<Step>, t: State, step: Step)
    requires Leads(s, i, a, t) && OwnStep(step, i) && Enabled(t, step)
    ensures Leads(s, i, a + [step], Next(t, step))
  {
    var u := Next(t, step);
    assert [step][1..] == [] && Leads(u, i, [], u);
    hide Next, Enabled;
    assert Leads(t, i, [step], u);
    LeadsOn(s, i, a, t, [step], u);
  }

  lemma WinsUndisturbed(s: State, i: nat, a: seq<Step>, t: State) returns (u: State)
    requires Leads(s, i, a, t)
    requires LeaseInv(t) && Get(t, i).pc.AskLease? && (if Get(t, i).pc.mine then Holds(t, i) else t.key.None?)
    ensures Leads(s, i, a + [GrantLease(i)] + [CampaignReply(i)] + [SetMasterTrue(i)], u)
    ensures var v := Get(u, i); v.pc.StartKeepAlive? && v.master && Holds(u, i)
    ensures u.log == t.log + [if Get(t, i).pc.mine then Renewed(i) else Acquired(i)]
  {
    hide Leads;
    LeadsOneMore(s, i, a, t, GrantLease(i));
    var t1 := Next(t, GrantLease(i));
    LeadsOneMore(s, i, a + [GrantLease(i)], t1, CampaignReply(i));
    var t2 := Next(t1, CampaignReply(i));
    LeadsOneMore(s, i, a + [GrantLease(i)] + [CampaignReply(i)], t2, SetMasterTrue(i));
    u := Next(t2, SetMasterTrue(i));
  }

  lemma LoadsUndisturbed(s: State, i: nat, a: seq<Step>, t: State) returns (u: State)
    requires Leads(s, i, a, t) && Get(t, i).pc.StartKeepAlive? && Get(t, i).master && Holds(t, i)
    ensures Leads(s, i, a + [KeepAlive(i)] + [LoadTimestampDone(i)] + [LoadRangesDone(i)] + [LoadNodesDone(i)] + [SetReadyTrue(i)], u)
    ensures Get(u, i).ready && Get(u, i).master && Holds(u, i) && u.log == t.log + [Wrote(i)]
  {
    hide Leads;
    LeadsOneMore(s, i, a, t, KeepAlive(i));
    var b, t1 := a + [KeepAlive(i)], Next(t, KeepAlive(i));
    LeadsOneMore(s, i, b, t1, LoadTimestampDone(i));
    var t2 := Next(t1, LoadTimestampDone(i));
    LeadsOneMore(s, i, b + [LoadTimestampDone(i)], t2, LoadRangesDone(i));
    var c, t3 := b + [LoadTimestampDone(i)] + [LoadRangesDone(i)], Next(t2, LoadRangesDone(i));
    LeadsOneMore(s, i, c, t3, LoadNodesDone(i));
    var t4 := Next(t3, LoadNodesDone(i));
    LeadsOneMore(s, i, c + [LoadNodesDone(i)], t4, SetReadyTrue(i));
    u := Next(t4, SetReadyTrue(i));
  }

  lemma FirstStep(s: State, i: nat) returns (t: State)
    requires LeaseInv(s)
    requires (Get(s, i).pc.Ask? && (s.key.None? || Holds(s, i))) || (Get(s, i).pc.Watch? && s.key.None?)
    ensures Leads(s, i, [if Get(s, i).pc.Ask? then GetMaster(i) else WatchEnds(i)], t)
    ensures LeaseInv(t) && t.key == s.key && t.log == s.log && Get(t, i).pc == AskLease(Holds(s, i))
  {
    var step := if Get(s, i).pc.Ask? then GetMaster(i) else WatchEnds(i);
    t := Next(s, step);
    assert Leads(s, i, [], s) && [] + [step] == [step];
    LeadsOneMore(s, i, [], s, step);
  }

  /** A server that asks who is master while the key is absent acquires it and serves. One
      that finds its own value renews it, without a deletion, and serves; it does not wait
      for its old lease to run out. One whose watch ends with the key absent acquires it. */
  lemma ElectionSucceeds(s: State, i: nat) returns (more: seq<Step>, t: State)
    requires LeaseInv(s)
    requires (Get(s, i).pc.Ask? && (s.key.None? || Holds(s, i))) || (Get(s, i).pc.Watch? && s.key.None?)
    ensures Leads(s, i, more, t) && Get(t, i).ready && Get(t, i).master && Holds(t, i)
    ensures t.log == s.log + [if Holds(s, i) then Renewed(i) else Acquired(i), Wrote(i)]
  {
    hide Leads, LeaseInv;
    var first := if Get(s, i).pc.Ask? then GetMaster(i) else WatchEnds(i);
    var s1 := FirstStep(s, i);
    var s2 := WinsUndisturbed(s, i, [first], s1);
    var a := [first] + [GrantLease(i)] + [CampaignReply(i)] + [SetMasterTrue(i)];
    t := LoadsUndisturbed(s, i, a, s2);
    more := a + [KeepAlive(i)] + [LoadTimestampDone(i)] + [LoadRangesDone(i)] + [LoadNodesDone(i)] + [SetReadyTrue(i)];
  }

  /** So in every run: asking or watching as above, a server left to itself serves, and etcd
      has seen its renewal or acquisition and the write of its timestamp, nothing else. */
  lemma ElectedInRun(steps: seq<Step>, i: nat) returns (more: seq<Step>)
    requires Run(steps).Some?
    requires var s := Run(steps).value;
             (Get(s, i).pc.Ask? && (s.key.None? || Holds(s, i))) || (Get(s, i).pc.Watch? && s.key.None?)
    ensures Run(steps + more).Some? && forall k :: 0 <= k < |more| ==> OwnStep(more[k], i)
    ensures var s, t := Run(steps).value, Run(steps + more).value;
            && Get(t, i).ready && Get(t, i).master && Holds(t, i)
            && t.log == s.log + [if Holds(s, i) then Renewed(i) else Acquired(i), Wrote(i)]
  {
    LeasesReachable(steps);
    hide Run, LeaseInv, Leads;
    var s := Run(steps).value;
    var t;
    more, t := ElectionSucceeds(s, i);
    RunLeads(steps, s, i, more, t);
    LeadsByOwnSteps(s, i, more, t);
  }

  /** The step that brings a server back to the question, from wherever it is. */
  function Homeward(pc: Pc, i: nat): Step {
    match pc
    case Top => SetMasterFalse(i)
    case TopReady => SetReadyFalse(i)
    case Watch => WatchEnds(i)
    case Campaigning(_) => CampaignReply(i)
    case Won => SetMasterTrue(i)
    case Loaded => SetReadyTrue(i)
    case ClearReady => StepDown(i)
    case ClearMaster => StepDown(i)
    case _ => Error(i)
  }

  function Distance(pc: Pc): nat {
    match pc
    case Ask => 0
    case TopReady => 1
    case Top => 2
    case ClearMaster => 3
    case ClearReady => 4
    case Serving => 5
    case Loaded => 6
    case AskLease(_) => 3
    case Watch => 4
    case Won => 5
    case Campaigning(_) => 6
    case _ => 4
  }

  lemma StepHomeward(s: State, i: nat)
    requires LeaseInv(s) && !Get(s, i).pc.Ask? && (Get(s, i).pc.Campaigning? ==> Get(s, i).pc.op.server == i)
    ensures var step := Homeward(Get(s, i).pc, i);
            && Enabled(s, step) && OwnStep(step, i)
            && var t := Next(s, step);
               && LeaseInv(t) && Distance(Get(t, i).pc) < Distance(Get(s, i).pc) && !Get(t, i).pc.Campaigning?
               && (Holds(s, i) ==> Holds(t, i)) && (s.key.None? ==> t.key.None? || Holds(t, i))
               && (t.log == s.log || t.log == s.log + [Acquired(i)] || t.log == s.log + [Renewed(i)])
               && (Get(s, i).pc.Campaigning? || t.log == s.log)
  {
  }

  /** Whatever a server is doing, its own loop brings it back to the question, and the key
      is then as it was, or its own. */
  lemma {:induction false} ReturnsToAsk(s: State, i: nat) returns (more: seq<Step>, t: State)
    requires LeaseInv(s) && (Get(s, i).pc.Campaigning? ==> Get(s, i).pc.op.server == i)
    ensures Leads(s, i, more, t) && Get(t, i).pc.Ask? && LeaseInv(t)
    ensures (Holds(s, i) ==> Holds(t, i)) && (s.key.None? ==> t.key.None? || Holds(t, i))
    decreases Distance(Get(s, i).pc)
  {
    if Get(s, i).pc.Ask? {
      more, t := [], s;
    } else {
      StepHomeward(s, i);
      hide Next, Enabled, LeaseInv;
      var step := Homeward(Get(s, i).pc, i);
      var rest;
      rest, t := ReturnsToAsk(Next(s, step), i);
      more := [step] + rest;
      assert more[1..] == rest;
    }
  }

  /** In every reachable state in which the key is absent or its own, a server left to itself
      becomes master and ready, wherever in its loop it is. */
  lemma ServesWhenUndisturbed(steps: seq<Step>, i: nat) returns (more: seq<Step>)
    requires Run(steps).Some? && (Run(steps).value.key.None? || Holds(Run(steps).value, i))
    ensures Run(steps + more).Some? && forall k :: 0 <= k < |more| ==> OwnStep(more[k], i)
    ensures var t := Run(steps + more).value; Get(t, i).ready && Get(t, i).master && Holds(t, i)
  {
    var s := Run(steps).value;
    LeasesReachable(steps);
    if Get(s, i).pc.Campaigning? { OpIsOwn(steps, i); }
    hide Run, Next, Enabled, LeaseInv, Leads;
    var home, mid := ReturnsToAsk(s, i);
    var path, t := ElectionSucceeds(mid, i);
    LeadsOn(s, i, home, mid, path, t);
    more := home + path;
    RunLeads(steps, s, i, more, t);
    LeadsByOwnSteps(s, i, more, t);
  }

  lemma {:induction false} LeadsByOwnSteps(s: State, i: nat, more: seq<Step>, t: State)
    requires Leads(s, i, more, t)
    ensures forall k :: 0 <= k < |more| ==> OwnStep(more[k], i)
    decreases |more|
  {
    if more != [] {
      LeadsByOwnSteps(Next(s, more[0]), i, more[1..], t);
      assert forall k :: 1 <= k < |more| ==> more[k] == more[1..][k - 1];
    }
  }

  /** When the lease of the holder runs out the key is deleted, and any server, left to
      itself, then takes over. */
  lemma TakesOver(steps: seq<Step>, j: nat) returns (more: seq<Step>)
    requires Run(steps).Some? && Run(steps).value.key.Some?
    ensures var s := Run(steps).value;
            var expired := steps + [Expire(s.key.value.lease)];
            && Run(expired).Some? && Run(expired).value.key.None?
            && Run(expired).value.log == s.log + [Deleted(s.key.value.server)]
            && Run(expired + more).Some? && (forall k :: 0 <= k < |more| ==> OwnStep(more[k], j))
            && var t := Run(expired + more).value; Get(t, j).ready && Get(t, j).master && Holds(t, j)
  {
    var s := Run(steps).value;
    LeasesReachable(steps);
    Extend(steps, s, Expire(s.key.value.lease));
    more := ServesWhenUndisturbed(steps + [Expire(s.key.value.lease)], j);
  }

  lemma LateWin(s: State, i: nat)
    requires Get(s, i).pc.Campaigning? && Get(s, i).pc.op.server == i && Wins(s, Get(s, i).pc.op)
    ensures Enabled(s, CampaignLost(i))
    ensures var op, t := Get(s, i).pc.op, Next(s, CampaignLost(i));
            Enabled(t, CampaignLands(op)) && var u := Next(t, CampaignLands(op)); Holds(u, i) && Get(u, i).pc.Top?
  {
  }

  lemma BackToAsk(s: State, i: nat)
    requires Get(s, i).pc.Top?
    ensures Enabled(s, SetMasterFalse(i))
    ensures var t := Next(s, SetMasterFalse(i));
            && Enabled(t, SetReadyFalse(i))
            && var u := Next(t, SetReadyFalse(i)); Get(u, i).pc.Ask? && u.key == s.key && u.log == s.log
  {
  }

  /** From the head of the loop. */
  lemma ElectedFromTop(steps: seq<Step>, i: nat) returns (more: seq<Step>)
    requires Run(steps).Some? && Get(Run(steps).value, i).pc.Top?
    requires Run(steps).value.key.None? || Holds(Run(steps).value, i)
    ensures Run(steps + more).Some? && forall k :: 0 <= k < |more| ==> OwnStep(more[k], i)
    ensures var s, t := Run(steps).value, Run(steps + more).value;
            && Get(t, i).ready && Get(t, i).master && Holds(t, i)
            && t.log == s.log + [if Holds(s, i) then Renewed(i) else Acquired(i), Wrote(i)]
  {
    hide Run, Next, Enabled;
    var s := Run(steps).value;
    BackToAsk(s, i);
    var t := Next(s, SetMasterFalse(i));
    Extend(steps, s, SetMasterFalse(i));
    Extend(steps + [SetMasterFalse(i)], t, SetReadyFalse(i));
    var path := ElectedInRun(steps + [SetMasterFalse(i)] + [SetReadyFalse(i)], i);
    more := [SetMasterFalse(i), SetReadyFalse(i)] + path;
    assert steps + [SetMasterFalse(i)] + [SetReadyFalse(i)] + path == steps + more;
  }

  /** A campaign that etcd accepts although its reply was lost: the server goes back to the
      head of its loop, the write lands later, and the server then renews the key it did not
      know it had. */
  lemma LostWinIsRenewed(steps: seq<Step>, i: nat) returns (landed: seq<Step>, more: seq<Step>)
    requires Run(steps).Some? && Get(Run(steps).value, i).pc.Campaigning?
    requires Wins(Run(steps).value, Get(Run(steps).value, i).pc.op)
    ensures landed == steps + [CampaignLost(i)] + [CampaignLands(Get(Run(steps).value, i).pc.op)]
    ensures Run(landed).Some? && Holds(Run(landed).value, i) && Get(Run(landed).value, i).pc.Top?
    ensures Run(landed + more).Some? && forall k :: 0 <= k < |more| ==> OwnStep(more[k], i)
    ensures var t := Run(landed + more).value;
            Get(t, i).ready && Get(t, i).master && t.log == Run(landed).value.log + [Renewed(i), Wrote(i)]
  {
    OpIsOwn(steps, i);
    hide Run, Next, Enabled, Wins;
    var s := Run(steps).value;
    var op := Get(s, i).pc.op;
    LateWin(s, i);
    Extend(steps, s, CampaignLost(i));
    Extend(steps + [CampaignLost(i)], Next(s, CampaignLost(i)), CampaignLands(op));
    landed := steps + [CampaignLost(i)] + [CampaignLands(op)];
    more := ElectedFromTop(landed, i);
  }

  /** A campaign is under way: it waits for its reply, or its reply was lost. */
  ghost predicate UnderWay(s: State, op: Campaign) {
    op in s.inflight || Get(s, op.server).pc == Campaigning(op)
  }

  /** Campaigns carry leases of their own, and each is in one place only. */
  ghost predicate CampaignInv(s: State) {
    && (forall i :: Get(s, i).pc.Campaigning? ==> Get(s, i).pc.op.server == i)
    && (forall op :: UnderWay(s, op) ==> op.lease < s.granted)
    && (forall op :: op in s.inflight ==> Get(s, op.server).pc != Campaigning(op))
  }

  lemma ServerKeepsName(s: State, step: Step, i: nat)
    requires Enabled(s, step) && (Get(s, i).pc.Campaigning? ==> Get(s, i).pc.op.server == i)
    ensures var pc := Get(Next(s, step), i).pc;
            pc.Campaigning? ==> pc.op.server == i && (pc == Get(s, i).pc || pc.op.lease == s.granted)
    ensures step == CampaignLost(i) ==> !Get(Next(s, step), i).pc.Campaigning?
  {
    hide EtcdNext;
  }

  lemma InFlightStep(s: State, step: Step)
    requires Enabled(s, step)
    ensures Next(s, step).granted == s.granted + if step.GrantLease? then 1 else 0
    ensures Next(s, step).inflight == (if step.CampaignLost? then s.inflight + {Get(s, step.i).pc.op}
                                       else if step.CampaignLands? then s.inflight - {step.op} else s.inflight)
    ensures !step.GrantLease? ==> forall i :: Get(Next(s, step), i).pc.Campaigning? ==> Get(Next(s, step), i).pc == Get(s, i).pc
  {
  }

  lemma CampaignStep(s: State, step: Step)
    requires CampaignInv(s) && Enabled(s, step)
    ensures CampaignInv(Next(s, step))
    ensures forall op :: UnderWay(Next(s, step), op) ==> UnderWay(s, op) || op.lease == s.granted
    ensures step.CampaignLands? ==> !UnderWay(Next(s, step), step.op) && UnderWay(s, step.op)
    ensures s.granted <= Next(s, step).granted
  {
    InFlightStep(s, step);
    forall i ensures var pc := Get(Next(s, step), i).pc;
                     && (pc.Campaigning? ==> pc.op.server == i && (pc == Get(s, i).pc || pc.op.lease == s.granted))
                     && (step == CampaignLost(i) ==> !pc.Campaigning?) {
      ServerKeepsName(s, step, i);
    }
    assert step.CampaignLost? ==> UnderWay(s, Get(s, step.i).pc.op);
    assert step.CampaignLands? ==> step.op in s.inflight;
    hide Next, Enabled, Get;
  }

  /** In every run a campaign whose reply was lost lands at most once, and a lease that has
      run out is never alive again: no campaign under it wins. */
  lemma {:induction false} LandsOnceAndInTime(steps: seq<Step>)
    requires Run(steps).Some?
    ensures CampaignInv(Run(steps).value) && LeaseInv(Run(steps).value)
    ensures forall op :: CampaignLands(op) in steps ==> !UnderWay(Run(steps).value, op) && op.lease < Run(steps).value.granted
    ensures forall l: nat :: Expire(l) in steps ==> l !in Run(steps).value.live && l < Run(steps).value.granted
    ensures forall op: Campaign :: Expire(op.lease) in steps ==> !Wins(Run(steps).value, op)
    decreases |steps|
  {
    if steps != [] {
      var before, step := steps[..|steps| - 1], steps[|steps| - 1];
      LandsOnceAndInTime(before);
      LeasesReachable(steps);
      assert steps == before + [step];
      var s := Run(before).value;
      CampaignStep(s, step);
      LivesOnce(s, step);
      hide Next, Enabled, CampaignInv, UnderWay;
      forall op | CampaignLands(op) in steps ensures !UnderWay(Run(steps).value, op) && op.lease < Run(steps).value.granted {
        assert CampaignLands(op) in before || step == CampaignLands(op);
      }
      forall l: nat | Expire(l) in steps ensures l !in Run(steps).value.live && l < Run(steps).value.granted {
        assert Expire(l) in before || step == Expire(l);
      }
    }
  }

  lemma LivesOnce(s: State, step: Step)
    requires LeaseInv(s) && Enabled(s, step)
    ensures forall l :: l in Next(s, step).live ==> l in s.live || l == s.granted
    ensures step.Expire? ==> step.lease !in Next(s, step).live && step.lease < s.granted
    ensures s.granted <= Next(s, step).granted
  {
  }

  /** A server that finds another's value does not campaign before its watch has ended (or it
      has crashed). */
  lemma WatchesBeforeCampaign(steps: seq<Step>, m: nat, i: nat) returns (k: nat)
    requires Run(steps).Some? && m < |steps| - 1 && steps[m] == GetMaster(i) && steps[|steps| - 1] == GrantLease(i)
    requires Run(steps[..m]).Some? && Run(steps[..m]).value.key.Some? && !Holds(Run(steps[..m]).value, i)
    ensures m < k < |steps| && (steps[k] == WatchEnds(i) || steps[k] == Crash(i))
  {
    var n := |steps| - 1;
    assert steps[..n][..m] == steps[..m] && Enabled(Run(steps[..n]).value, GrantLease(i));
    hide Run, Next, Holds;
    if forall k :: m < k < n ==> steps[..n][k] != WatchEnds(i) && steps[..n][k] != Crash(i) {
      StillWatching(steps[..n], m, i);
      assert false;
    } else {
      k :| m < k < n && (steps[..n][k] == WatchEnds(i) || steps[..n][k] == Crash(i));
    }
  }

  lemma {:induction false} StillWatching(steps: seq<Step>, m: nat, i: nat)
    requires Run(steps).Some? && m < |steps| && steps[m] == GetMaster(i)
    requires Run(steps[..m]).Some? && Run(steps[..m]).value.key.Some? && !Holds(Run(steps[..m]).value, i)
    requires forall k :: m < k < |steps| ==> steps[k] != WatchEnds(i) && steps[k] != Crash(i)
    ensures Get(Run(steps).value, i).pc.Watch?
    decreases |steps|
  {
    var n := |steps| - 1;
    hide EtcdNext;
    if m < n {
      assert steps[..n][..m] == steps[..m];
      StillWatching(steps[..n], m, i);
    }
  }

  /** A server may crash at any time. It then starts afresh, and etcd and the others are as
      they were, so that it may find its own value in the key. */
  lemma CrashForgets(steps: seq<Step>, i: nat)
    requires Run(steps).Some?
    ensures Run(steps + [Crash(i)]).Some?
    ensures var s, t := Run(steps).value, Run(steps + [Crash(i)]).value;
            Get(t, i) == FRESH && t == s.(now := s.now + 1, servers := s.servers[i := FRESH])
  {
    Extend(steps, Run(steps).value, Crash(i));
  }

  /** A master's write goes through exactly when the key holds its value, whatever its flags. */
  lemma PutsExactlyWhenHolding(steps: seq<Step>, i: nat)
    requires Run(steps).Some?
    ensures Run(steps + [MasterPut(i)]).Some?
    ensures var s, t := Run(steps).value, Run(steps + [MasterPut(i)]).value;
            t.log == s.log + (if HolderOf(s.log) == Some(i) then [Wrote(i)] else []) && t.key == s.key
  {
    LogReachable(steps);
    Extend(steps, Run(steps).value, MasterPut(i));
  }

  // ------------------------------------------------------------ the key

  function KeyAt(steps: seq<Step>): Option<nat>
    requires Run(steps).Some?
  {
    ServerOf(Run(steps).value.key)
  }

  lemma StepKeepsHolder(s: State, step: Step)
    requires Enabled(s, step) && s.key.Some?
    ensures var k := Next(s, step).key; k.Some? ==> k.value.server == s.key.value.server
  {
  }

  lemma HolderKept(steps: seq<Step>)
    requires steps != [] && Run(steps).Some? && KeyAt(steps).Some?
    ensures Run(steps[..|steps| - 1]).Some?
    ensures var before := KeyAt(steps[..|steps| - 1]); before.Some? ==> before == KeyAt(steps)
  {
    var before := Run(steps[..|steps| - 1]).value;
    if before.key.Some? { StepKeepsHolder(before, steps[|steps| - 1]); }
  }

  /** The key never passes from one server to another without having been deleted in
      between. */
  lemma {:induction false} KeyPassesThroughDeletion(steps: seq<Step>, n: nat, a: nat, b: nat) returns (k: nat)
    requires n <= |steps| && Run(steps).Some? && Run(steps[..n]).Some?
    requires KeyAt(steps[..n]) == Some(a) && KeyAt(steps) == Some(b) && a != b
    ensures n < k < |steps| && Run(steps[..k]).Some? && KeyAt(steps[..k]) == None
    decreases |steps|
  {
    hide Next, Enabled;
    assert steps[..|steps|] == steps;
    var m := |steps| - 1;
    var before := steps[..m];
    assert before[..n] == steps[..n] && Run(before).Some?;
    hide Run;
    if KeyAt(before) == None {
      k := m;
    } else {
      HolderKept(steps);
      k := KeyPassesThroughDeletion(before, n, a, b);
      assert before[..k] == steps[..k];
    }
  }

  // ------------------------------------------------------------ fencing

  /** The holder of the key according to the log. */
  function HolderOf(log: seq<Event>): Option<nat> {
    if log == [] then None
    else
      var e := log[|log| - 1];
      match e
      case Acquired(i) => Some(i)
      case Renewed(i) => Some(i)
      case Deleted(_) => None
      case Wrote(i) => HolderOf(log[..|log| - 1])
  }

  /** Every event fits the holder before it. */
  predicate WellLogged(log: seq<Event>) {
    log == [] || (
      var before, e := log[..|log| - 1], log[|log| - 1];
      && WellLogged(before)
      && HolderOf(before) == if e.Acquired? then None else Some(e.server))
  }

  function ServerOf(key: Option<Holder>): Option<nat> {
    if key.None? then None else Some(key.value.server)
  }

  predicate LogInv(s: State) {
    && WellLogged(s.log)
    && HolderOf(s.log) == ServerOf(s.key)
  }

  lemma LogStep(s: State, step: Step)
    requires LogInv(s) && Enabled(s, step)
    ensures LogInv(Next(s, step))
  {
    EtcdLogs(s, step);
    hide Next, Enabled;
    var log := Next(s, step).log;
    if log != s.log { assert log[..|s.log|] == s.log; }
  }

  /** Who holds the key after an event. */
  function HolderAfter(e: Event): Option<nat> {
    if e.Deleted? then None else Some(e.server)
  }

  /** A step either leaves the log and the holder as they were, or adds an event that fits the
      holder before it and tells the one after it. */
  lemma EtcdLogs(s: State, step: Step)
    requires Enabled(s, step)
    ensures var t := Next(s, step);
            || (t.log == s.log && ServerOf(t.key) == ServerOf(s.key))
            || (|t.log| == |s.log| + 1 && t.log[..|s.log|] == s.log
                && var e := t.log[|s.log|];
                   ServerOf(s.key) == (if e.Acquired? then None else Some(e.server)) && ServerOf(t.key) == HolderAfter(e))
  {
    hide ServerNext, Get;
  }

  lemma {:induction false} LogReachable(steps: seq<Step>)
    requires Run(steps).Some?
    ensures LogInv(Run(steps).value)
    decreases |steps|
  {
    if steps != [] {
      LogReachable(steps[..|steps| - 1]);
      LogStep(Run(steps[..|steps| - 1]).value, steps[|steps| - 1]);
    }
  }

  lemma {:induction false} WellLoggedPrefix(log: seq<Event>, n: nat)
    requires WellLogged(log) && n <= |log|
    ensures WellLogged(log[..n])
    decreases |log|
  {
    if n < |log| {
      WellLoggedPrefix(log[..|log| - 1], n);
      assert log[..|log| - 1][..n] == log[..n];
    } else {
      assert log[..n] == log;
    }
  }

  lemma HolderStep(log: seq<Event>, n: nat)
    requires WellLogged(log) && n < |log|
    ensures HolderOf(log[..n]) == if log[n].Acquired? then None else Some(log[n].server)
    ensures HolderOf(log[..n + 1]) == if log[n].Deleted? then None else Some(log[n].server)
  {
    WellLoggedPrefix(log, n + 1);
    assert log[..n + 1][..n] == log[..n] && log[..n + 1][n] == log[n];
  }

  /** If `a` held the key at m and does not at n, it was deleted from `a` in between. */
  lemma {:induction false} LosesByDeletion(log: seq<Event>, m: nat, n: nat, a: nat) returns (k: nat)
    requires WellLogged(log) && m <= n <= |log|
    requires HolderOf(log[..m]) == Some(a) && HolderOf(log[..n]) != Some(a)
    ensures m <= k < n && log[k] == Deleted(a)
    decreases n
  {
    HolderStep(log, n - 1);
    if HolderOf(log[..n - 1]) == Some(a) {
      k := n - 1;
    } else {
      k := LosesByDeletion(log, m, n - 1, a);
    }
  }

  /** If `b` did not hold the key at m and does at n, it acquired it in between. */
  lemma {:induction false} GainsByAcquiring(log: seq<Event>, m: nat, n: nat, b: nat) returns (k: nat)
    requires WellLogged(log) && m <= n <= |log|
    requires HolderOf(log[..m]) != Some(b) && HolderOf(log[..n]) == Some(b)
    ensures m <= k < n && log[k] == Acquired(b)
    decreases n
  {
    HolderStep(log, n - 1);
    if HolderOf(log[..n - 1]) != Some(b) {
      k := n - 1;
    } else {
      k := GainsByAcquiring(log, m, n - 1, b);
    }
  }

  /** Fencing: between writes of two different masters, the first one's key was deleted
      and the second one then acquired it. A deposed master's writes never land among
      those of its successor, whatever its flags say. */
  lemma WritesAreFenced(steps: seq<Step>, i: nat, j: nat) returns (k: nat, l: nat)
    requires Run(steps).Some?
    requires var log := Run(steps).value.log;
             i < j < |log| && log[i].Wrote? && log[j].Wrote? && log[i].server != log[j].server
    ensures var log := Run(steps).value.log;
            i < k < l < j && log[k] == Deleted(log[i].server) && log[l] == Acquired(log[j].server)
  {
    LogReachable(steps);
    k, l := FencedLog(Run(steps).value.log, i, j);
  }

  lemma FencedLog(log: seq<Event>, i: nat, j: nat) returns (k: nat, l: nat)
    requires WellLogged(log)
    requires i < j < |log| && log[i].Wrote? && log[j].Wrote? && log[i].server != log[j].server
    ensures i < k < l < j && log[k] == Deleted(log[i].server) && log[l] == Acquired(log[j].server)
  {
    HolderStep(log, i);
    HolderStep(log, j);
    k := LosesByDeletion(log, i + 1, j, log[i].server);
    HolderStep(log, k);
    l := GainsByAcquiring(log, k + 1, j, log[j].server);
  }
}
