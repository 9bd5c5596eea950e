/** A runner is left alone until the agent is told to end, and then it is stopped. */
module SupervisorUndisturbed {
  import opened JobState
  import Exec = Executor
  import Gn = Runner
  import opened Supervisor
  import Base = SupervisorInv
  import opened SupervisorSafety
  import opened SupervisorRestart

  /** Nothing to signal: there is no process, or it was reaped. */
  predicate Through(g: Gn.Gen) { g.ex.proc.NotStarted? || g.ex.exited }

  /** executeCommand has got to its deferred part. */
  predicate Deferred(x: Gn.XPc) { !Gn.BeforeStart(x) && !x.AwaitExit? }

  predicate CalmGen(g: Gn.Gen) {
    && (Deferred(g.x) ==> Through(g))
    && (g.done ==> Deferred(g.x))
    && (g.loop.Selecting? || g.done)
    && g.ex.signals == [] && g.ex.pc in {Exec.CheckProcess, Exec.PollExited}
  }

  predicate CalmGens(c: Cmd) { forall g :: 0 <= g < |c.gens| ==> CalmGen(c.gens[g]) }

  predicate Calm(s: Agent) {
    !s.cancelled ==> CalmGens(s.cmd) && (s.sup.pc.DeferStop? ==> !s.cmd.running)
  }

  lemma XCalm(g: Gn.Gen, ok: bool)
    requires Gn.GenInv(g) && CalmGen(g)
    ensures CalmGen(Gn.XStep(g, ok))
  {
  }

  lemma OwnCalm(g: Gn.Gen, a: Gn.GenAct)
    requires Gn.GenInv(g) && CalmGen(g) && !a.StopBegins? && !a.StopReturns?
    requires (a.LoopWakes? || a.CleanupBody?) ==> g.done
    ensures CalmGen(Gn.GenStep(g, a))
  {
    if a.X? {
      XCalm(g, a.ok);
    }
  }

  lemma UpdateCalm(c: Cmd, g: nat, a: Gn.GenAct)
    requires Base.GensOk(c) && CalmGens(c) && g < |c.gens| && !a.StopBegins? && !a.StopReturns?
    requires (a.LoopWakes? || a.CleanupBody?) ==> c.gens[g].done
    ensures CalmGens(UpdateGen(c, g, Gn.GenStep(c.gens[g], a)))
  {
    OwnCalm(c.gens[g], a);
  }

  /** Whoever gets to stop the running generation is its own executeCommand, at its end. */
  lemma StopCalm(c: Cmd, who: Who, supAt: bool)
    requires CalmGens(c) && Base.MutexOk(c, supAt) && (supAt ==> !c.running)
    requires forall g :: 0 <= g < |c.gens| - 1 ==> Gone(c.gens[g])
    ensures CalmGens(StopStep(c, who, supAt).cmd)
  {
    Base.StopCases(c, who, supAt);
    if AtStop(c, who, supAt) && c.holder.Nobody? && c.running {
      assert who == ByX(Last(c));
      assert CalmGen(Gn.Entered(c.gens[Last(c)]));
    }
  }

  lemma StepCalm(s: Agent, a: Act)
    requires Inv(s) && Calm(s)
    ensures Calm(Step(s, a))
  {
    if !s.cancelled && !a.Cancel? && !a.Crash? {
      var c := s.cmd;
      match a
      case Sup(pick, io) => SupCalm(s, pick, io);
      case X(g, ok, _) => if g < |c.gens| { UpdateCalm(c, g, Gn.X(ok)); }
      case Scan(g, isErr, scan, _) => if g < |c.gens| { UpdateCalm(c, g, Gn.Scanner(isErr, scan)); }
      case LoopWakes(g) => if g < |c.gens| && c.gens[g].done { UpdateCalm(c, g, Gn.LoopWakes); }
      case Exits(g) => if g < |c.gens| { UpdateCalm(c, g, Gn.Exits); }
      case Cleanup(o) => if !c.holder.Nobody? { UpdateCalm(c, Last(c), Gn.CleanupBody(o)); }
      case Stop(who) =>
        StopCalm(c, who, s.sup.pc.DeferStop?);
        Base.StopsRunning(c, who, s.sup.pc.DeferStop?);
      case _ =>
    }
  }

  lemma CreateGivesUp(t: Thread, e: Sight, pick: Pick)
    requires Creating(t.pc) && !e.cancelled
    ensures !CreateLocal(t, e, pick).t.pc.DeferStop?
  {
  }

  lemma WatchGivesUp(t: Thread, e: Sight, pick: Pick)
    requires !e.cancelled && !t.pc.DeferStop? && WatchLocal(t, e, pick).t.pc.DeferStop?
    ensures t.pc.WakeDb?
  {
  }

  lemma SupCalm(s: Agent, pick: Pick, io: Io)
    requires Base.IdleOk(s) && Calm(s) && !s.cancelled
    ensures Calm(SupStep(s, pick, io))
  {
    var e := View(s, io);
    if s.sup.pc.StartCall? || s.sup.pc.DeferStop? {
    } else if Creating(s.sup.pc) {
      CreateGivesUp(s.sup, e, pick);
    } else if !Trying(s.sup.pc) {
      if WatchLocal(s.sup, e, pick).t.pc.DeferStop? {
        WatchGivesUp(s.sup, e, pick);
      }
    }
  }

  lemma {:induction false} RunCalm(s: Agent, acts: seq<Act>)
    requires Inv(s) && Calm(s) && SupReads(acts) && Timely(s, acts)
    ensures Inv(Run(s, acts)) && Calm(Run(s, acts))
    decreases |acts|
  {
    if acts != [] {
      assert acts[0] in acts && forall a :: a in acts[1..] ==> a in acts;
      StepCalm(s, acts[0]);
      StepKeeps(s, acts[0]);
      RunCalm(Step(s, acts[0]), acts[1..]);
    }
  }

  /**
   * With the supervisor's reads succeeding and its sleeps outlasting the teardown: until the agent
   * is cancelled no signal is sent to any process, and no generation is stopped before its process
   * was reaped or its launch failed.
   */
  lemma Undisturbed(db: Stored, acts: seq<Act>)
    requires db != Garbage && SupReads(acts) && Timely(Agent0(db), acts)
    ensures var s := Run(Agent0(db), acts);
      !s.cancelled ==> forall g :: 0 <= g < |s.cmd.gens| ==>
        s.cmd.gens[g].ex.signals == [] && (s.cmd.gens[g].done ==> Through(s.cmd.gens[g]))
  {
    BootInv(db, [], 0);
    RunCalm(Agent0(db), acts);
  }

  /** Once it is cancelled, the loop goroutine of the running generation can stop it by itself. */
  lemma LoopStopsIt(db: Stored, acts: seq<Act>)
    requires var s := Run(Agent0(db), acts);
      s.cancelled && s.cmd.running && s.cmd.gens != [] && s.cmd.gens[Last(s.cmd)].loop.Selecting?
    ensures var s := Run(Agent0(db), acts); var g := Last(s.cmd);
      var c := Step(Step(s, LoopWakes(g)), Stop(ByLoop(g))).cmd;
      !c.running && c.gens[g].done && c.holder == ByLoop(g) && c.gens[g].ex.once.Busy? && !c.panicked
  {
    BootInv(db, [], 0);
    Base.RunInv(Agent0(db), acts);
  }
}
