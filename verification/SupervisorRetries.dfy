/** Agent runs with as many starts and as many failures as the retry loop allows. Every generation in
    them is torn down in time, so they also show what the timing hypothesis leaves possible. */
module SupervisorRetries {
  import opened JobState
  import Exec = Executor
  import Gn = Runner
  import opened Supervisor
  import Base = SupervisorInv
  import opened SupervisorSafety
  import opened SupervisorRestart
  import opened SupervisorTerminated
  import opened SupervisorLimits
  import opened SupervisorExact

  lemma {:induction false} TimelyBoth(s: Agent, a: seq<Act>, b: seq<Act>)
    requires Timely(s, a) && Timely(Run(s, a), b)
    ensures Timely(s, a + b)
    decreases |a|
  {
    if a == [] {
      assert a + b == b;
    } else {
      assert (a + b)[1..] == a[1..] + b;
      TimelyBoth(Step(s, a[0]), a[1..], b);
    }
  }

  lemma TimelyLast(s: Agent, acts: seq<Act>, a: Act)
    requires Timely(s, acts) && (SleepEnds(Run(s, acts), a) ==> TornDown(Run(s, acts).cmd))
    ensures Timely(s, acts + [a]) && Run(s, acts + [a]) == Step(Run(s, acts), a)
  {
    assert [a][1..] == [];
    assert Run(Run(s, acts), [a]) == Run(Step(Run(s, acts), a), []);
    TimelyBoth(s, acts, [a]);
    Append(s, acts, [a]);
  }

  // ---- a generation winds down ------------------------------------------------------------------

  predicate ReadsOrDone(pc: Gn.ScanPc) { pc.Reading? || pc.ScanDone? }

  /** The last generation was launched and has nothing to say; all earlier ones are gone. */
  predicate Winding(s: Agent, n: nat) {
    && |s.cmd.gens| == n + 1 && (forall g :: 0 <= g < n ==> Gone(s.cmd.gens[g]))
    && s.sup.pc.Select? && s.svc.db == Absent && !s.svc.alive && !s.cancelled
    && var gen := s.cmd.gens[n];
    && !gen.jobStarted && ReadsOrDone(gen.out) && ReadsOrDone(gen.err)
    && (gen.x.AwaitExit? || gen.x.StopCall? || gen.x.Drain? || Gn.AfterDrain(gen.x))
    && (if gen.x.AwaitExit? then s.cmd.running && s.cmd.holder.Nobody?
        else if gen.x.StopCall? then s.cmd.holder == (if s.cmd.running then Nobody else ByX(n))
        else !s.cmd.running && s.cmd.holder.Nobody?)
  }

  function XLeft(s: Agent, gen: Gn.Gen): nat {
    match gen.x
    case AwaitExit => 20 + (match gen.ex.waiter case WaitFresh => 4 case Waiting => 3 case Closing => 2 case WaitSpent => 1)
    case StopCall => 5 + if s.cmd.running then 8 else 1 + Exec.BodyLeft(gen.ex)
    case Drain => 4
    case GoOffline => 3
    case CheckFlag => 2
    case FinishCall => 1
    case _ => 0
  }

  function WindLeft(s: Agent, gen: Gn.Gen): nat {
    XLeft(s, gen) + (if gen.ex.proc.Live? then 1 else 0)
    + (if gen.out.Reading? then 1 else 0) + (if gen.err.Reading? then 1 else 0)
    + (match gen.loop case Selecting => 2 case LoopStop => 1 case LoopDone => 0)
  }

  /** What comes next. */
  function WindAct(s: Agent, n: nat): Act
    requires n < |s.cmd.gens|
  {
    var gen := s.cmd.gens[n];
    if gen.ex.proc.Live? then Exits(n)
    else if gen.x.StopCall? then
      if s.cmd.running || gen.ex.once.Spent? then Stop(ByX(n)) else Cleanup(Exec.Outcome(true, true, true))
    else if gen.x.Drain? && gen.out.Reading? then Scan(n, false, Gn.Eof, FINE)
    else if gen.x.Drain? && gen.err.Reading? then Scan(n, true, Gn.Eof, FINE)
    else if !gen.x.XDone? then X(n, true, FINE)
    else if gen.loop.Selecting? then LoopWakes(n)
    else Stop(ByLoop(n))
  }

  /** What winding down leaves alone. */
  predicate OnlyWinds(s: Agent, s': Agent) {
    s' == s.(cmd := s'.cmd, svc := s.svc.(log := s'.svc.log))
  }

  /** The next step goes on winding down, and brings the end nearer. */
  predicate Winds(s: Agent, n: nat)
    requires n < |s.cmd.gens|
  {
    var s' := Step(s, WindAct(s, n));
    Winding(s', n) && OnlyWinds(s, s') && WindLeft(s', s'.cmd.gens[n]) < WindLeft(s, s.cmd.gens[n])
  }

  lemma WindX(s: Agent, n: nat)
    requires Base.Inv(s) && Winding(s, n) && !Gone(s.cmd.gens[n]) && WindAct(s, n).X?
    ensures Winds(s, n)
  {
    assert Gn.GenInv(s.cmd.gens[n]);
  }

  lemma WindScan(s: Agent, n: nat)
    requires Base.Inv(s) && Winding(s, n) && !Gone(s.cmd.gens[n]) && WindAct(s, n).Scan?
    ensures Winds(s, n)
  {
    assert Gn.GenInv(s.cmd.gens[n]);
  }

  lemma WindLoop(s: Agent, n: nat)
    requires Base.Inv(s) && Winding(s, n) && !Gone(s.cmd.gens[n]) && WindAct(s, n).LoopWakes?
    ensures Winds(s, n)
  {
    assert Gn.GenInv(s.cmd.gens[n]);
  }

  lemma WindExit(s: Agent, n: nat)
    requires Base.Inv(s) && Winding(s, n) && !Gone(s.cmd.gens[n]) && WindAct(s, n).Exits?
    ensures Winds(s, n)
  {
    assert Gn.GenInv(s.cmd.gens[n]);
  }

  lemma WindStop(s: Agent, n: nat)
    requires Base.Inv(s) && Winding(s, n) && !Gone(s.cmd.gens[n]) && WindAct(s, n).Stop?
    ensures Winds(s, n)
  {
    assert Gn.GenInv(s.cmd.gens[n]);
  }

  lemma WindCleanup(s: Agent, n: nat)
    requires Base.Inv(s) && Winding(s, n) && !Gone(s.cmd.gens[n]) && WindAct(s, n).Cleanup?
    ensures Winds(s, n)
  {
    assert Gn.GenInv(s.cmd.gens[n]);
  }

  lemma WindStep(s: Agent, n: nat)
    requires Base.Inv(s) && Winding(s, n) && !Gone(s.cmd.gens[n])
    ensures Winds(s, n)
  {
    match WindAct(s, n)
    case X(_, _, _) => WindX(s, n);
    case Scan(_, _, _, _) => WindScan(s, n);
    case Stop(_) => WindStop(s, n);
    case Cleanup(_) => WindCleanup(s, n);
    case Exits(_) => WindExit(s, n);
    case _ => WindLoop(s, n);
  }

  lemma {:induction false} WindDown(s: Agent, n: nat) returns (acts: seq<Act>)
    requires Base.Inv(s) && Winding(s, n)
    ensures AllPlain(acts)
    ensures var s' := Run(s, acts); OnlyWinds(s, s') && TornDown(s'.cmd) && !s'.cmd.running && s'.cmd.holder.Nobody?
    decreases if n < |s.cmd.gens| then WindLeft(s, s.cmd.gens[n]) else 0
  {
    if Gone(s.cmd.gens[n]) {
      acts := [];
    } else {
      var a := WindAct(s, n);
      WindStep(s, n);
      Base.StepInv(s, a);
      var rest := WindDown(Step(s, a), n);
      acts := [a] + rest;
      OneStep(s, a, rest);
    }
  }

  // ---- rounds of the retry loop -----------------------------------------------------------------

  /** In front of the retry loop with nothing left of any generation. */
  predicate AtLoop(s: Agent, retryCount: nat, ok: nat, failed: nat) {
    && Base.Inv(s) && TornDown(s.cmd) && !s.cmd.running && s.cmd.holder.Nobody?
    && s.svc.db == Absent && !s.svc.alive && !s.cancelled && s.procStarts == ok
    && s.sup == Thread(Top, s.sup.aliveSeen, s.sup.late, retryCount, ok, failed, failed)
  }

  /** A run of the agent from its boot that gets there in time. */
  ghost predicate Gets(acts: seq<Act>, retryCount: nat, ok: nat, failed: nat) {
    AllDbOk(acts) && Timely(Agent0(Absent), acts) && AtLoop(Run(Agent0(Absent), acts), retryCount, ok, failed)
  }

  lemma Extend(acts: seq<Act>, more: seq<Act>, retryCount: nat, ok: nat, failed: nat)
    requires AllDbOk(acts) && Timely(Agent0(Absent), acts)
    requires var s := Run(Agent0(Absent), acts); AllDbOk(more) && Timely(s, more) && AtLoop(Run(s, more), retryCount, ok, failed)
    ensures Gets(acts + more, retryCount, ok, failed)
  {
    TimelyBoth(Agent0(Absent), acts, more);
    Append(Agent0(Absent), acts, more);
  }

  const GO := Sup(Go, FINE)
  const TIMER := Sup(Timer, FINE)

  lemma ToFailed(s: Agent, retryCount: nat, ok: nat, failed: nat)
    requires AtLoop(s, retryCount, ok, failed) && retryCount <= 5
    ensures var s' := Run(s, [GO, GO, Sup(Fail, FINE)]);
      && s' == s.(sup := s'.sup, svc := s.svc.(log := s'.svc.log, hasCmd := s'.svc.hasCmd))
      && s'.sup == Thread(FailAlive, false, s.sup.late, retryCount + 1, ok, failed + 1, failed)
  {
    Steps3(s, GO, GO, Sup(Fail, FINE));
    var s1 := Step(s, GO);
    assert s1.sup == s.sup.(pc := TopDb, aliveSeen := false);
    assert Step(s1, GO).sup == s.sup.(pc := StartCall, aliveSeen := false);
  }

  lemma ToReported(s: Agent, retryCount: nat, ok: nat, failed: nat)
    requires s.sup == Thread(FailAlive, false, s.sup.late, retryCount, ok, failed + 1, failed)
    requires s.svc.db == Absent && !s.svc.alive && !s.cancelled
    ensures var s' := Run(s, [GO, GO]);
      && s' == s.(sup := s'.sup, svc := s.svc.(log := s'.svc.log, hasCmd := s'.svc.hasCmd))
      && s'.sup == Thread(FailSleep, false, false, retryCount, ok, failed + 1, failed + 1)
  {
    Steps2(s, GO, GO);
    assert Step(s, GO).sup == s.sup.(pc := FailDb, aliveSeen := false);
  }

  /** Start fails, and the failure is reported. */
  lemma FailRound(s: Agent, retryCount: nat, ok: nat, failed: nat) returns (acts: seq<Act>)
    requires AtLoop(s, retryCount, ok, failed) && retryCount <= 5
    ensures AllDbOk(acts) && Timely(s, acts) && AtLoop(Run(s, acts), retryCount + 1, ok, failed + 1)
  {
    ToFailed(s, retryCount, ok, failed);
    ToReported(Run(s, [GO, GO, Sup(Fail, FINE)]), retryCount + 1, ok, failed);
    Append(s, [GO, GO, Sup(Fail, FINE)], [GO, GO]);
    acts := [GO, GO, Sup(Fail, FINE)] + [GO, GO];
    NoTimer(s, acts);
    TimelyLast(s, acts, TIMER);
    acts := acts + [TIMER];
    Base.RunInv(s, acts);
  }

  /** Start works, and executeCommand launches the process. */
  lemma ToLaunched(s: Agent, retryCount: nat, ok: nat, failed: nat) returns (acts: seq<Act>)
    requires AtLoop(s, retryCount, ok, failed) && retryCount <= 5
    ensures AllPlain(acts)
    ensures var s' := Run(s, acts);
      && Winding(s', |s.cmd.gens|) && s'.procStarts == ok + 1
      && s'.sup == Thread(Select, false, s.sup.late, 0, ok + 1, failed, failed)
  {
    var n := |s.cmd.gens|;
    var x := X(n, true, FINE);
    StartedRun(s, retryCount, ok, failed);
    ToLaunch(Run(s, [GO, GO, GO]), s.cmd.gens, FINE);
    Append(s, [GO, GO, GO], [x, x, x, x]);
    acts := [GO, GO, GO] + [x, x, x, x];
    assert Run(s, acts).cmd.gens[n] == LAUNCHED;
  }

  /** A generation is launched, exits without a job, and is torn down before the sleep ends. */
  lemma StartRound(s: Agent, retryCount: nat, ok: nat, failed: nat) returns (acts: seq<Act>)
    requires AtLoop(s, retryCount, ok, failed) && retryCount <= 5
    ensures AllDbOk(acts) && Timely(s, acts) && AtLoop(Run(s, acts), 0, ok + 1, failed)
  {
    var n := |s.cmd.gens|;
    acts := ToLaunched(s, retryCount, ok, failed);
    Base.RunInv(s, acts);
    var wind := WindDown(Run(s, acts), n);
    PlainIsTimely(s, acts);
    PlainIsTimely(Run(s, acts), wind);
    TimelyBoth(s, acts, wind);
    Append(s, acts, wind);
    acts := acts + wind;
    Base.RunInv(s, acts);
    var wake := WakeRound(Run(s, acts), ok + 1, failed);
    TimelyBoth(s, acts, wake);
    Append(s, acts, wake);
    acts := acts + wake;
    Base.RunInv(s, acts);
  }

  lemma PlainIsTimely(s: Agent, acts: seq<Act>)
    requires AllPlain(acts)
    ensures AllDbOk(acts) && Timely(s, acts)
  {
    NoTimer(s, acts);
  }

  lemma StartedRun(s: Agent, retryCount: nat, ok: nat, failed: nat)
    requires AtLoop(s, retryCount, ok, failed) && retryCount <= 5
    ensures var s' := Run(s, [GO, GO, GO]);
      && s' == s.(sup := s'.sup, svc := s.svc.(log := s'.svc.log), cmd := s.cmd.(running := true, gens := s.cmd.gens + [Gn.NEWGEN]))
      && s'.sup == Thread(Select, false, s.sup.late, 0, ok + 1, failed, failed)
  {
    NextStart(s);
    Steps3(s, GO, GO, GO);
    var s1 := Step(s, GO);
    assert s1.sup == s.sup.(pc := TopDb, aliveSeen := false);
    assert Step(s1, GO).sup == s.sup.(pc := StartCall, aliveSeen := false);
  }

  lemma ToAsleep(s: Agent, ok: nat, failed: nat)
    requires Base.Inv(s) && !s.cmd.running && s.svc.db == Absent && !s.svc.alive && !s.cancelled
    requires s.sup == Thread(Select, false, s.sup.late, 0, ok, failed, failed)
    ensures var s' := Run(s, [GO, GO, GO]);
      && s' == s.(sup := s'.sup, svc := s.svc.(log := s'.svc.log, hasCmd := s'.svc.hasCmd))
      && s'.sup == Thread(WakeSleep, false, false, 0, ok, failed, failed)
  {
    Steps3(s, GO, GO, GO);
    var s1 := Step(s, GO);
    assert s1.sup == s.sup.(pc := WakeAlive);
    assert Step(s1, GO).sup == s.sup.(pc := WakeDb, aliveSeen := false);
  }

  /** The supervisor wakes, finds the runner offline, and sleeps to the end. */
  lemma WakeRound(s: Agent, ok: nat, failed: nat) returns (acts: seq<Act>)
    requires Base.Inv(s) && TornDown(s.cmd) && !s.cmd.running && s.cmd.holder.Nobody?
    requires s.svc.db == Absent && !s.svc.alive && !s.cancelled && s.procStarts == ok
    requires s.sup == Thread(Select, false, s.sup.late, 0, ok, failed, failed)
    ensures AllDbOk(acts) && Timely(s, acts) && AtLoop(Run(s, acts), 0, ok, failed)
  {
    ToAsleep(s, ok, failed);
    acts := [GO, GO, GO];
    NoTimer(s, acts);
    TimelyLast(s, acts, TIMER);
    acts := acts + [TIMER];
    Base.RunInv(s, acts);
  }

  lemma {:induction false} Failures(acts: seq<Act>, n: nat, ok: nat, failed: nat) returns (acts': seq<Act>)
    requires Gets(acts, 0, ok, failed) && n <= 6
    ensures Gets(acts', n, ok, failed + n)
  {
    if n == 0 {
      acts' := acts;
    } else {
      acts' := Failures(acts, n - 1, ok, failed);
      var more := FailRound(Run(Agent0(Absent), acts'), n - 1, ok, failed + n - 1);
      Extend(acts', more, n, ok, failed + n);
      acts' := acts' + more;
    }
  }

  lemma {:induction false} Streaks(k: nat) returns (acts: seq<Act>)
    ensures Gets(acts, 0, k, 5 * k)
  {
    if k == 0 {
      acts := [GO, GO, GO, GO];
      ToReady(Absent, FINE);
      BootInv(Absent, [], 0);
      Base.RunInv(Agent0(Absent), acts);
      NoTimer(Agent0(Absent), acts);
    } else {
      acts := Streaks(k - 1);
      acts := Failures(acts, 5, k - 1, 5 * (k - 1));
      var more := StartRound(Run(Agent0(Absent), acts), 5, k - 1, 5 * k);
      Extend(acts, more, 0, k, 5 * k);
      acts := acts + more;
    }
  }

  /**
   * The bound of `RetryBound` cannot be lowered: for every k the agent has a run with k successful
   * Start calls and exactly 5k + 6 failed ones, each of them reported. In it k processes are
   * launched one after the other, every sleep ending in time, so the timing hypothesis leaves
   * restarts without a job as they are.
   */
  lemma RetryBoundIsReached(k: nat) returns (acts: seq<Act>)
    ensures AllDbOk(acts) && Timely(Agent0(Absent), acts)
    ensures var s := Run(Agent0(Absent), acts);
      && s.sup.okStarts == k && s.sup.failedStarts == 5 * k + 6 && s.sup.failedMsgs == 5 * k + 6
      && s.procStarts == k
  {
    acts := Streaks(k);
    acts := Failures(acts, 6, k, 5 * k);
  }
}
