/** The transactions an agent commits, and what they make of the job's duration. */
module SupervisorRecord {
  import opened JobState
  import Gn = Runner
  import opened Service
  import opened Supervisor
  import opened SupervisorSafety
  import opened SupervisorRestart
  import opened SupervisorTerminated

  /** What a callback writes. */
  function CallOps(calls: seq<Gn.Call>, io: Io): seq<Op> {
    if calls == [] || !io.commits then []
    else
      match calls[0]
      case JobStarted => [Started(io.now)]
      case RunnerStarted(_) => []
      case JobFinished => [Finished(io.now)]
  }

  function StepOps(s: Agent, a: Act): seq<Op> {
    match a
    case X(g, _, io) => if g < |s.cmd.gens| then CallOps(Gn.XCalls(s.cmd.gens[g]), io) else []
    case Scan(g, isErr, _, io) =>
      if g < |s.cmd.gens| then CallOps(Gn.ScanCalls(if isErr then s.cmd.gens[g].err else s.cmd.gens[g].out), io) else []
    case _ => []
  }

  /** All committed transactions of a run, crashes and all. */
  function History(s: Agent, acts: seq<Act>): seq<Op>
    decreases |acts|
  {
    if acts == [] then [] else StepOps(s, acts[0]) + History(Step(s, acts[0]), acts[1..])
  }

  lemma {:induction false} ApplyBoth(d: Stored, a: seq<Op>, b: seq<Op>)
    ensures ApplyAll(d, a + b) == ApplyAll(ApplyAll(d, a), b)
  {
    if b == [] {
      assert a + b == a;
    } else {
      ApplyBoth(d, a, b[..|b| - 1]);
      assert (a + b)[..|a + b| - 1] == a + b[..|b| - 1];
    }
  }

  lemma StepWrites(s: Agent, a: Act)
    ensures |StepOps(s, a)| <= 1
    ensures Step(s, a).svc.db == ApplyAll(s.svc.db, StepOps(s, a))
  {
    var ops := StepOps(s, a);
    if ops != [] {
      assert ops[..0] == [];
      assert ApplyAll(s.svc.db, ops) == Apply(s.svc.db, ops[0]);
    }
  }

  lemma {:induction false} RecordIsHistory(s: Agent, acts: seq<Act>)
    ensures Run(s, acts).svc.db == ApplyAll(s.svc.db, History(s, acts))
    decreases |acts|
  {
    if acts != [] {
      StepWrites(s, acts[0]);
      RecordIsHistory(Step(s, acts[0]), acts[1..]);
      ApplyBoth(s.svc.db, StepOps(s, acts[0]), History(Step(s, acts[0]), acts[1..]));
    }
  }

  // ---- the order of the transactions --------------------------------------------------------------

  lemma NothingAfterFinish(s: Agent, a: Act)
    requires Final(s) && JobOver(s.svc.db)
    ensures StepOps(s, a) == []
  {
    if (a.X? || a.Scan?) && a.g < |s.cmd.gens| {
      var gen := s.cmd.gens[a.g];
      assert Gn.GenInv(gen);
      if !gen.x.XDone? {
        ActsLast(s, a.g);
      }
    }
  }

  lemma FinishIsOver(s: Agent, a: Act)
    requires s.svc.db != Garbage && StepOps(s, a) != [] && StepOps(s, a)[0].Finished?
    ensures JobOver(Step(s, a).svc.db)
  {
  }

  lemma InOrder(first: seq<Op>, rest: seq<Op>)
    requires |first| <= 1 && Lifecycle(rest) && (first != [] && first[0].Finished? ==> rest == [])
    ensures Lifecycle(first + rest)
  {
  }

  lemma {:induction false} InLifecycle(s: Agent, acts: seq<Act>)
    requires Final(s) && AllDbOk(acts) && Timely(s, acts)
    ensures Lifecycle(History(s, acts)) && (JobOver(s.svc.db) ==> History(s, acts) == [])
    decreases |acts|
  {
    if acts != [] {
      assert acts[0] in acts && forall a :: a in acts[1..] ==> a in acts;
      StepFinal(s, acts[0]);
      StepWrites(s, acts[0]);
      InLifecycle(Step(s, acts[0]), acts[1..]);
      if JobOver(s.svc.db) {
        NothingAfterFinish(s, acts[0]);
        FrozenStep(s, acts[0]);
      }
      if StepOps(s, acts[0]) != [] && StepOps(s, acts[0])[0].Finished? {
        FinishIsOver(s, acts[0]);
      }
      InOrder(StepOps(s, acts[0]), History(Step(s, acts[0]), acts[1..]));
    }
  }

  // ---- the clock ----------------------------------------------------------------------------------

  /** The clock the callbacks read never goes back, and has reached `now` in the end. */
  ghost predicate ClockForward(acts: seq<Act>, low: int, now: int)
    decreases |acts|
  {
    if acts == [] then low <= now
    else if acts[0].X? || acts[0].Scan? then low <= acts[0].io.now && ClockForward(acts[1..], acts[0].io.now, now)
    else ClockForward(acts[1..], low, now)
  }

  ghost predicate Since(ops: seq<Op>, low: int) {
    forall i :: 0 <= i < |ops| ==> low <= ops[i].at
  }

  lemma OneMore(first: seq<Op>, rest: seq<Op>, low: int, at: int, now: int)
    requires |first| <= 1 && (first != [] ==> first[0].at == at) && low <= at <= now
    requires ClockRuns(rest, now) && Since(rest, at)
    ensures ClockRuns(first + rest, now) && Since(first + rest, low)
  {
  }

  lemma OpsRead(s: Agent, a: Act)
    ensures |StepOps(s, a)| <= 1
    ensures StepOps(s, a) != [] ==> (a.X? || a.Scan?) && StepOps(s, a)[0].at == a.io.now
  {
  }

  lemma {:induction false} HistoryClock(s: Agent, acts: seq<Act>, low: int, now: int)
    requires ClockForward(acts, low, now)
    ensures low <= now && ClockRuns(History(s, acts), now) && Since(History(s, acts), low)
    decreases |acts|
  {
    if acts != [] {
      var at := if acts[0].X? || acts[0].Scan? then acts[0].io.now else low;
      OpsRead(s, acts[0]);
      HistoryClock(Step(s, acts[0]), acts[1..], at, now);
      OneMore(StepOps(s, acts[0]), History(Step(s, acts[0]), acts[1..]), low, at, now);
    }
  }

  /**
   * The record of every agent run follows the lifecycle: it is the result of the transactions the
   * run committed, no start among them after a finish. So with a clock that never goes back the
   * job's duration is there exactly when a start is on record, and it is never negative.
   */
  lemma AgentDuration(acts: seq<Act>, low: int, now: int)
    requires AllDbOk(acts) && Timely(Agent0(Absent), acts) && ClockForward(acts, low, now)
    ensures var db := Run(Agent0(Absent), acts).svc.db; var ops := History(Agent0(Absent), acts);
      && db == ApplyAll(Absent, ops) && Lifecycle(ops)
      && (Duration(db, now).Ok? <==> JobKnown(db))
      && (JobKnown(db) ==> Duration(db, now).value >= 0)
  {
    var s := Agent0(Absent);
    BootInv(Absent, [], 0);
    RecordIsHistory(s, acts);
    InLifecycle(s, acts);
    HistoryClock(s, acts, low, now);
    var ops := History(s, acts);
    DurationLaw(ops, now);
    var k := HistoryRecord(ops, false);
    if !Never(ops, false) {
      DurationNonNegative(ops, now);
    }
  }
}
