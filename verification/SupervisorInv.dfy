/** What every run of the supervisor keeps, with no hypothesis on timing or the database. */
module SupervisorInv {
  import Exec = Executor
  import Gn = Runner
  import opened Supervisor

  predicate GensOk(c: Cmd) {
    forall g :: 0 <= g < |c.gens| ==> Gn.GenInv(c.gens[g])
  }

  /** runnerCmd.mux: `done`, `running` and the cleanup of a generation go together. */
  predicate GenMutex(gen: Gn.Gen, last: bool, running: bool, held: bool) {
    && gen.done == !(running && last)
    && gen.ex.once.Fresh? == !gen.done
    && (gen.ex.once.Busy? ==> last && held)
  }

  predicate MutexOk(c: Cmd, supAt: bool) {
    && !c.panicked
    && (c.running ==> c.gens != [] && c.holder.Nobody?)
    && (!c.holder.Nobody? ==> c.gens != [] && AtStop(c, c.holder, supAt))
    && forall g :: 0 <= g < |c.gens| ==>
         GenMutex(c.gens[g], g == |c.gens| - 1, c.running, !c.holder.Nobody?)
  }

  predicate PhaseOk(s: Agent) {
    && (Creating(s.sup.pc) ==> s.cmd.gens == [])
    && (s.sup.pc in {DeferWait, Returned} ==> !s.cmd.running && s.cmd.holder.Nobody?)
    && (s.cmd.gens != [] ==> s.svc.hasCmd)
    && (!Creating(s.sup.pc) && !s.sup.pc.Returned? ==> s.svc.hasCmd)
    && s.boot <= |s.svc.log|
  }

  /** Before the first Start, and from the wake-up or the failed Start to the next one. */
  predicate BetweenStarts(pc: SupPc) {
    Creating(pc) || Trying(pc) || pc in {StartCall, WakeAlive, WakeDb, WakeSleep}
  }

  /** keepRunnerAlive never calls Start on a running command. */
  predicate IdleOk(s: Agent) {
    BetweenStarts(s.sup.pc) ==> !s.cmd.running
  }

  predicate RetryOk(t: Thread) {
    && t.retryCount <= 6
    && (t.pc in {TopDb, StartCall, Select, WakeAlive, WakeDb, WakeSleep} ==> t.retryCount <= 5)
    && t.failedStarts <= 5 * t.okStarts + t.retryCount
    && t.failedMsgs <= t.failedStarts
    && (t.pc in {FailAlive, FailDb} ==> t.failedMsgs < t.failedStarts)
    && (Creating(t.pc) ==> t.failedStarts == 0)
  }

  predicate Inv(s: Agent) {
    && GensOk(s.cmd)
    && MutexOk(s.cmd, s.sup.pc.DeferStop?)
    && PhaseOk(s)
    && IdleOk(s)
    && RetryOk(s.sup)
  }

  /** What one step of Stop can be. */
  lemma StopCases(c: Cmd, who: Who, supAt: bool)
    ensures var c' := StopStep(c, who, supAt).cmd;
      || c' == c
      || (AtStop(c, who, supAt) && c' in {Return(c, who, supAt).cmd, Return(c.(holder := Nobody), who, supAt).cmd})
      || (c.gens != [] && c' == EnterStop(c, who))
  {
  }

  // ---- the generations' own invariant ---------------------------------------------------------

  lemma NewGenInv()
    ensures Gn.GenInv(Gn.NEWGEN)
  {
  }

  lemma StartGens(c: Cmd)
    requires GensOk(c)
    ensures GensOk(StartCmd(c))
  {
    NewGenInv();
  }

  lemma EnterGens(c: Cmd, who: Who)
    requires GensOk(c) && c.gens != []
    ensures GensOk(EnterStop(c, who))
  {
    Gn.GenStepInv(c.gens[Last(c)], Gn.StopBegins);
  }

  lemma ReturnGens(c: Cmd, who: Who, supAt: bool)
    requires GensOk(c) && AtStop(c, who, supAt)
    ensures GensOk(Return(c, who, supAt).cmd)
  {
    if who.ByX? {
      Gn.GenStepInv(c.gens[who.g], Gn.StopReturns(false));
    } else if who.ByLoop? {
      Gn.GenStepInv(c.gens[who.g], Gn.StopReturns(true));
    }
  }

  lemma StopGens(c: Cmd, who: Who, supAt: bool)
    requires GensOk(c)
    ensures GensOk(StopStep(c, who, supAt).cmd)
  {
    if AtStop(c, who, supAt) {
      ReturnGens(c, who, supAt);
      ReturnGens(c.(holder := Nobody), who, supAt);
      if c.gens != [] {
        EnterGens(c, who);
      }
    }
  }

  lemma OwnGens(c: Cmd, g: nat, a: Gn.GenAct)
    requires GensOk(c) && g < |c.gens|
    ensures GensOk(UpdateGen(c, g, Gn.GenStep(c.gens[g], a)))
  {
    Gn.GenStepInv(c.gens[g], a);
  }

  lemma EveryGen(s: Agent, a: Act)
    requires GensOk(s.cmd)
    ensures GensOk(Step(s, a).cmd)
  {
    var c := s.cmd;
    match a
    case X(g, ok, _) => if g < |c.gens| { OwnGens(c, g, Gn.X(ok)); }
    case Scan(g, isErr, scan, _) => if g < |c.gens| { OwnGens(c, g, Gn.Scanner(isErr, scan)); }
    case LoopWakes(g) => if g < |c.gens| { OwnGens(c, g, Gn.LoopWakes); }
    case Exits(g) => if g < |c.gens| { OwnGens(c, g, Gn.Exits); }
    case Stop(who) => StopGens(c, who, s.sup.pc.DeferStop?);
    case Cleanup(o) => if c.gens != [] { OwnGens(c, Last(c), Gn.CleanupBody(o)); }
    case Sup(pick, io) => StartGens(c);
    case _ =>
  }

  // ---- the lock -------------------------------------------------------------------------------

  /** What a step of one generation's own threads leaves alone. */
  predicate SameStop(gen: Gn.Gen, gen': Gn.Gen) {
    && gen'.done == gen.done && gen'.ex.once == gen.ex.once
    && (gen.x.StopCall? ==> gen'.x.StopCall?)
    && (gen.loop.LoopStop? ==> gen'.loop.LoopStop?)
  }

  lemma UpdateMutex(c: Cmd, g: nat, gen: Gn.Gen, supAt: bool)
    requires MutexOk(c, supAt) && g < |c.gens| && SameStop(c.gens[g], gen)
    ensures MutexOk(UpdateGen(c, g, gen), supAt)
  {
  }

  lemma StartMutex(c: Cmd, supAt: bool)
    requires MutexOk(c, supAt) && c.holder.Nobody?
    ensures MutexOk(StartCmd(c), supAt)
  {
  }

  lemma EnterMutex(c: Cmd, who: Who, supAt: bool)
    requires MutexOk(c, supAt) && c.running && AtStop(c, who, supAt)
    ensures MutexOk(EnterStop(c, who), supAt)
  {
  }

  /** Leaving, or finding nothing to stop: the lock is free afterwards. */
  lemma ReturnMutex(c: Cmd, who: Who, supAt: bool)
    requires MutexOk(c, supAt) && c.holder.Nobody? && AtStop(c, who, supAt)
    ensures MutexOk(Return(c, who, supAt).cmd, supAt)
  {
  }

  lemma ReleaseMutex(c: Cmd, supAt: bool)
    requires MutexOk(c, supAt) && !c.holder.Nobody? && c.gens[Last(c)].ex.once.Spent?
    ensures MutexOk(c.(holder := Nobody), supAt)
  {
  }

  lemma StopMutex(c: Cmd, who: Who, supAt: bool)
    requires MutexOk(c, supAt)
    ensures var m := StopStep(c, who, supAt);
      && MutexOk(m.cmd, supAt)
      && (m.returned ==> !m.cmd.running && m.cmd.holder.Nobody? && who.BySup?)
  {
    if AtStop(c, who, supAt) {
      if c.holder == who {
        if c.gens[Last(c)].ex.once.Spent? {
          ReleaseMutex(c, supAt);
          ReturnMutex(c.(holder := Nobody), who, supAt);
        }
      } else if c.holder.Nobody? {
        if c.running {
          EnterMutex(c, who, supAt);
        } else {
          ReturnMutex(c, who, supAt);
        }
      }
    }
  }

  lemma CleanupMutex(c: Cmd, o: Exec.Outcome, supAt: bool)
    requires MutexOk(c, supAt) && !c.holder.Nobody?
    ensures MutexOk(UpdateGen(c, Last(c), Gn.GenStep(c.gens[Last(c)], Gn.CleanupBody(o))), supAt)
  {
  }

  lemma XSame(gen: Gn.Gen, ok: bool)
    ensures SameStop(gen, Gn.XStep(gen, ok))
  {
  }

  lemma OwnMutex(c: Cmd, g: nat, a: Gn.GenAct, supAt: bool)
    requires MutexOk(c, supAt) && g < |c.gens|
    requires a.X? || a.Scanner? || a.LoopWakes? || a.Exits?
    ensures MutexOk(UpdateGen(c, g, Gn.GenStep(c.gens[g], a)), supAt)
  {
    if a.X? {
      XSame(c.gens[g], a.ok);
    }
    assert SameStop(c.gens[g], Gn.GenStep(c.gens[g], a));
    UpdateMutex(c, g, Gn.GenStep(c.gens[g], a), supAt);
  }

  lemma EveryMutex(s: Agent, a: Act)
    requires MutexOk(s.cmd, s.sup.pc.DeferStop?)
    ensures MutexOk(Step(s, a).cmd, Step(s, a).sup.pc.DeferStop?)
  {
    var c, at := s.cmd, s.sup.pc.DeferStop?;
    match a
    case X(g, ok, _) => if g < |c.gens| { OwnMutex(c, g, Gn.X(ok), at); }
    case Scan(g, isErr, scan, _) => if g < |c.gens| { OwnMutex(c, g, Gn.Scanner(isErr, scan), at); }
    case LoopWakes(g) => if g < |c.gens| { OwnMutex(c, g, Gn.LoopWakes, at); }
    case Exits(g) => if g < |c.gens| { OwnMutex(c, g, Gn.Exits, at); }
    case Stop(who) => StopMutex(c, who, at);
    case Cleanup(o) => if !c.holder.Nobody? { CleanupMutex(c, o, at); }
    case Sup(pick, io) => if c.holder.Nobody? { StartMutex(c, at); }
    case _ =>
  }

  // ---- keepRunnerAlive ------------------------------------------------------------------------

  lemma CreateRetry(t: Thread, e: Sight, pick: Pick)
    requires RetryOk(t) && Creating(t.pc)
    ensures RetryOk(CreateLocal(t, e, pick).t)
  {
  }

  lemma TryRetry(t: Thread, e: Sight, pick: Pick)
    requires RetryOk(t) && Trying(t.pc)
    ensures RetryOk(TryLocal(t, e, pick).t)
  {
  }

  lemma WatchRetry(t: Thread, e: Sight, pick: Pick)
    requires RetryOk(t) && !t.pc.StartCall?
    ensures RetryOk(WatchLocal(t, e, pick).t)
  {
  }

  lemma EveryRetry(s: Agent, a: Act)
    requires RetryOk(s.sup)
    ensures RetryOk(Step(s, a).sup)
  {
    if a.Sup? && !s.sup.pc.StartCall? {
      var e := View(s, a.io);
      if Creating(s.sup.pc) {
        CreateRetry(s.sup, e, a.pick);
      } else if Trying(s.sup.pc) {
        TryRetry(s.sup, e, a.pick);
      } else {
        WatchRetry(s.sup, e, a.pick);
      }
    }
  }

  lemma SupPhase(s: Agent, pick: Pick, io: Io)
    requires MutexOk(s.cmd, s.sup.pc.DeferStop?) && PhaseOk(s)
    ensures PhaseOk(SupStep(s, pick, io))
  {
    var e := View(s, io);
    LocalFlow(s.sup, e, pick);
  }

  /** How the program counter can move between calls into the runner command. */
  predicate Flow(pc: SupPc, next: SupPc) {
    && (next.DeferWait? ==> pc.DeferWait?)
    && (next.Returned? ==> pc in {Returned, DeferWait, CreateDb, CreateSleep})
    && (Creating(next) ==> Creating(pc))
    && (Creating(pc) && !Creating(next) ==> next.Returned? || pc.Publish?)
    && (pc.Returned? ==> next.Returned?)
  }

  lemma CreateFlow(t: Thread, e: Sight, pick: Pick)
    requires Creating(t.pc)
    ensures Flow(t.pc, CreateLocal(t, e, pick).t.pc)
  {
  }

  lemma TryFlow(t: Thread, e: Sight, pick: Pick)
    requires Trying(t.pc)
    ensures Flow(t.pc, TryLocal(t, e, pick).t.pc)
  {
  }

  lemma WatchFlow(t: Thread, e: Sight, pick: Pick)
    requires !Creating(t.pc)
    ensures Flow(t.pc, WatchLocal(t, e, pick).t.pc)
  {
  }

  lemma LocalFlow(t: Thread, e: Sight, pick: Pick)
    ensures Flow(t.pc, Local(t, e, pick).t.pc)
  {
    if Creating(t.pc) {
      CreateFlow(t, e, pick);
    } else if Trying(t.pc) {
      TryFlow(t, e, pick);
    } else {
      WatchFlow(t, e, pick);
    }
  }

  lemma EveryPhase(s: Agent, a: Act)
    requires MutexOk(s.cmd, s.sup.pc.DeferStop?) && PhaseOk(s)
    ensures PhaseOk(Step(s, a))
  {
    match a
    case Sup(pick, io) => SupPhase(s, pick, io);
    case Stop(who) => StopPhase(s, who);
    case _ =>
  }

  lemma WokenByDone(t: Thread, e: Sight, pick: Pick)
    ensures BetweenStarts(Local(t, e, pick).t.pc) ==> BetweenStarts(t.pc) || (t.pc.Select? && e.waitReady)
  {
    LocalFlow(t, e, pick);
  }

  lemma StopsRunning(c: Cmd, who: Who, supAt: bool)
    ensures StopStep(c, who, supAt).cmd.running ==> c.running
  {
  }

  lemma EveryIdle(s: Agent, a: Act)
    requires MutexOk(s.cmd, s.sup.pc.DeferStop?) && IdleOk(s)
    ensures IdleOk(Step(s, a))
  {
    match a
    case Sup(pick, io) => if !s.sup.pc.StartCall? { WokenByDone(s.sup, View(s, io), pick); }
    case Stop(who) => StopsRunning(s.cmd, who, s.sup.pc.DeferStop?);
    case _ =>
  }

  lemma StopPhase(s: Agent, who: Who)
    requires MutexOk(s.cmd, s.sup.pc.DeferStop?) && PhaseOk(s)
    ensures PhaseOk(StopAct(s, who))
  {
    StopMutex(s.cmd, who, s.sup.pc.DeferStop?);
  }

  lemma StepInv(s: Agent, a: Act)
    requires Inv(s)
    ensures Inv(Step(s, a))
  {
    EveryGen(s, a);
    EveryMutex(s, a);
    EveryPhase(s, a);
    EveryIdle(s, a);
    EveryRetry(s, a);
  }

  lemma {:induction false} RunInv(s: Agent, acts: seq<Act>)
    requires Inv(s)
    ensures Inv(Run(s, acts))
    decreases |acts|
  {
    if acts != [] {
      StepInv(s, acts[0]);
      RunInv(Step(s, acts[0]), acts[1..]);
    }
  }
}
