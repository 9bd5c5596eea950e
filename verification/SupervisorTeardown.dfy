/** Which processes are left running when keepRunnerAlive has returned, told from the schedule. */
module SupervisorTeardown {
  import Exec = Executor
  import Gn = Runner
  import opened Supervisor
  import Base = SupervisorInv
  import opened SupervisorSafety
  import opened SupervisorRelaunch
  import opened SupervisorLimits

  /** The step at which cleanup of generation `g` finds no process. */
  predicate FindsNone(s: Agent, a: Act, g: nat) {
    && a.Cleanup? && !s.cmd.holder.Nobody? && s.cmd.gens != [] && g == Last(s.cmd)
    && var ex := s.cmd.gens[g].ex; ex.once.Busy? && ex.pc.CheckProcess? && ex.proc.NotStarted?
  }

  /** The same while executeCommand is still on its way to the launch. */
  predicate StopsEarly(s: Agent, a: Act, g: nat) {
    FindsNone(s, a, g) && !Past(s.cmd.gens[g])
  }

  /** A KILL was sent, and both kill calls failed. */
  predicate KillRefused(ex: Exec.Ex) {
    exists k :: 0 <= k < |ex.signals| && ex.signals[k].Sigkill? && !ex.signals[k].delivered
  }

  // ---- one step -----------------------------------------------------------------------------------

  predicate NoneFound(c: Cmd, g: nat) { g < |c.gens| && c.gens[g].ex.verdict.NoProcess? }

  lemma OwnVerdict(gen: Gn.Gen, a: Gn.GenAct)
    requires Gn.GenInv(gen)
    ensures Gn.GenStep(gen, a).ex.verdict.NoProcess? <==>
      || gen.ex.verdict.NoProcess?
      || (a.CleanupBody? && gen.ex.once.Busy? && gen.ex.pc.CheckProcess? && gen.ex.proc.NotStarted?)
  {
  }

  lemma UpdateVerdict(s: Agent, k: nat, a: Gn.GenAct, g: nat)
    requires Base.GensOk(s.cmd) && k < |s.cmd.gens| && !a.CleanupBody?
    ensures NoneFound(UpdateGen(s.cmd, k, Gn.GenStep(s.cmd.gens[k], a)), g) <==> NoneFound(s.cmd, g)
  {
    OwnVerdict(s.cmd.gens[k], a);
  }

  lemma StopVerdict(c: Cmd, who: Who, supAt: bool, g: nat)
    ensures NoneFound(StopStep(c, who, supAt).cmd, g) <==> NoneFound(c, g)
  {
    Base.StopCases(c, who, supAt);
  }

  lemma StepVerdict(s: Agent, a: Act, g: nat)
    requires Base.Inv(s) && !a.Crash?
    ensures NoneFound(Step(s, a).cmd, g) <==> NoneFound(s.cmd, g) || FindsNone(s, a, g)
  {
    match a
    case X(k, ok, _) => if k < |s.cmd.gens| { UpdateVerdict(s, k, Gn.X(ok), g); }
    case Scan(k, isErr, scan, _) => if k < |s.cmd.gens| { UpdateVerdict(s, k, Gn.Scanner(isErr, scan), g); }
    case LoopWakes(k) => if k < |s.cmd.gens| { UpdateVerdict(s, k, Gn.LoopWakes, g); }
    case Exits(k) => if k < |s.cmd.gens| { UpdateVerdict(s, k, Gn.Exits, g); }
    case Stop(who) => StopVerdict(s.cmd, who, s.sup.pc.DeferStop?, g);
    case Cleanup(o) => if s.cmd.gens != [] { OwnVerdict(s.cmd.gens[Last(s.cmd)], Gn.CleanupBody(o)); }
    case _ =>
  }

  /** Past the launch without a process: there will be none. */
  predicate NeverUp(c: Cmd, g: nat) {
    g < |c.gens| && Past(c.gens[g]) && c.gens[g].ex.proc.NotStarted?
  }

  lemma StillNone(s: Agent, a: Act, g: nat)
    requires NeverUp(s.cmd, g) && !a.Crash?
    ensures NeverUp(Step(s, a).cmd, g)
  {
    if a.LoopWakes? || a.Exits? || a.Stop? || a.Cleanup? {
      OtherAlike(s, a);
      assert Alike(s.cmd.gens[g], Step(s, a).cmd.gens[g]);
    }
  }

  lemma {:induction false} StillNoneRun(s: Agent, acts: seq<Act>, g: nat)
    requires NeverUp(s.cmd, g) && Lifetime(acts)
    ensures NeverUp(Run(s, acts).cmd, g)
    decreases |acts|
  {
    if acts != [] {
      assert acts[0] in acts && forall a :: a in acts[1..] ==> a in acts;
      StillNone(s, acts[0], g);
      StillNoneRun(Step(s, acts[0]), acts[1..], g);
    }
  }

  // ---- a whole process lifetime -------------------------------------------------------------------

  ghost predicate Lifetime(acts: seq<Act>) { forall a :: a in acts ==> !a.Crash? }

  ghost predicate FoundNone(s: Agent, acts: seq<Act>, g: nat) {
    exists k: nat :: k < |acts| && FindsNone(Run(s, acts[..k]), acts[k], g)
  }

  ghost predicate StoppedEarly(s: Agent, acts: seq<Act>, g: nat) {
    exists k: nat :: k < |acts| && StopsEarly(Run(s, acts[..k]), acts[k], g)
  }

  lemma {:induction false} NoProcessWhen(s: Agent, acts: seq<Act>, g: nat)
    requires Base.Inv(s) && s.cmd.gens == [] && Lifetime(acts)
    ensures NoneFound(Run(s, acts).cmd, g) <==> FoundNone(s, acts, g)
    decreases |acts|
  {
    if acts != [] {
      var n := |acts| - 1;
      var front := acts[..n];
      assert forall a :: a in front ==> a in acts;
      NoProcessWhen(s, front, g);
      Base.RunInv(s, front);
      assert acts == front + [acts[n]];
      OneMore(s, front, acts[n]);
      StepVerdict(Run(s, front), acts[n], g);
      assert forall k :: 0 <= k < n ==> front[..k] == acts[..k] && front[k] == acts[k];
      if FoundNone(s, acts, g) {
        var k: nat :| k < |acts| && FindsNone(Run(s, acts[..k]), acts[k], g);
        if k < n {
          assert FindsNone(Run(s, front[..k]), front[k], g);
        }
      }
      if FoundNone(s, front, g) {
        var k: nat :| k < n && FindsNone(Run(s, front[..k]), front[k], g);
        assert FindsNone(Run(s, acts[..k]), acts[k], g);
      }
      if FindsNone(Run(s, front), acts[n], g) {
        assert FoundNone(s, acts, g);
      }
    }
  }

  lemma NotYetPast(s: Agent, acts: seq<Act>, k: nat, g: nat)
    requires Lifetime(acts) && k < |acts| && FindsNone(Run(s, acts[..k]), acts[k], g)
    requires g < |Run(s, acts).cmd.gens| && !Run(s, acts).cmd.gens[g].ex.proc.NotStarted?
    ensures StopsEarly(Run(s, acts[..k]), acts[k], g)
  {
    var mid := Run(s, acts[..k]);
    assert acts == acts[..k] + acts[k..];
    Append(s, acts[..k], acts[k..]);
    if Past(mid.cmd.gens[g]) {
      assert forall a :: a in acts[k..] ==> a in acts;
      StillNoneRun(mid, acts[k..], g);
    }
  }

  /** With a process launched after all, the cleanup that found none came before the launch. */
  lemma LaunchedAfterwards(s: Agent, acts: seq<Act>, g: nat)
    requires Lifetime(acts) && g < |Run(s, acts).cmd.gens| && !Run(s, acts).cmd.gens[g].ex.proc.NotStarted?
    ensures FoundNone(s, acts, g) <==> StoppedEarly(s, acts, g)
  {
    if FoundNone(s, acts, g) {
      var k: nat :| k < |acts| && FindsNone(Run(s, acts[..k]), acts[k], g);
      NotYetPast(s, acts, k, g);
    }
    if StoppedEarly(s, acts, g) {
      var k: nat :| k < |acts| && StopsEarly(Run(s, acts[..k]), acts[k], g);
      assert FindsNone(Run(s, acts[..k]), acts[k], g);
    }
  }

  lemma RefusedWhen(ex: Exec.Ex)
    requires Exec.Inv(ex) && ex.once.Spent?
    ensures KillRefused(ex) <==> ex.verdict.KillFailed?
  {
    if ex.pc.SendKill? {
      assert ex.signals[2].Sigkill?;
    }
  }

  /**
   * When keepRunnerAlive has returned, in any process lifetime: every generation was stopped and
   * cleaned up, and a process runs on without a delivered KILL exactly when both kill calls failed,
   * or cleanup ran its check while executeCommand had not yet launched the process.
   */
  lemma LeftRunning(s: Agent, acts: seq<Act>)
    requires Base.Inv(s) && s.cmd.gens == [] && Lifetime(acts) && Run(s, acts).sup.pc.Returned?
    ensures var gens := Run(s, acts).cmd.gens;
      forall g: nat :: g < |gens| ==>
        && gens[g].done && gens[g].ex.once.Spent?
        && (Orphaned(gens[g].ex) <==> gens[g].ex.proc.Live? && (KillRefused(gens[g].ex) || StoppedEarly(s, acts, g)))
  {
    Base.RunInv(s, acts);
    var gens := Run(s, acts).cmd.gens;
    forall g: nat | g < |gens|
      ensures gens[g].done && gens[g].ex.once.Spent?
      ensures Orphaned(gens[g].ex) <==> gens[g].ex.proc.Live? && (KillRefused(gens[g].ex) || StoppedEarly(s, acts, g))
    {
      var ex := gens[g].ex;
      assert Gn.GenInv(gens[g]);
      assert gens[g].done && ex.once.Spent?;
      OrphanedWhen(ex);
      RefusedWhen(ex);
      NoProcessWhen(s, acts, g);
      if ex.proc.Live? {
        LaunchedAfterwards(s, acts, g);
      }
    }
  }
}
