/**
 * No restart after a job. `keepRunnerAlive` is woken by `done`, which executeCommand closes before
 * it drains its scanners and clears the liveness bit; only the 5 second sleep separates one
 * generation from the next. The theorems take as hypothesis that the sleep outlasts the teardown.
 */
module SupervisorRestart {
  import opened JobState
  import Gn = Runner
  import opened Service
  import opened Supervisor
  import Base = SupervisorInv
  import opened SupervisorSafety

  /** executeCommand and the loop goroutine of the generation have both returned. */
  predicate Gone(g: Gn.Gen) { g.x.XDone? && g.loop.LoopDone? }

  predicate TornDown(c: Cmd) {
    forall g :: 0 <= g < |c.gens| ==> Gone(c.gens[g])
  }

  /** The supervisor's sleep after a wake-up ends by its timer. */
  predicate SleepEnds(s: Agent, a: Act) {
    a.Sup? && a.pick.Timer? && s.sup.pc.WakeSleep? && !s.sup.late
  }

  /** Every such sleep outlasts the teardown of the old generation. */
  ghost predicate Timely(s: Agent, acts: seq<Act>)
    decreases |acts|
  {
    acts == [] || ((SleepEnds(s, acts[0]) ==> TornDown(s.cmd)) && Timely(Step(s, acts[0]), acts[1..]))
  }

  predicate Job(db: Stored) { JobKnown(db) || JobOver(db) }

  /** Nothing of an earlier generation is left, and before a Start nothing of any. */
  predicate OneAtATime(s: Agent) {
    && (forall g :: 0 <= g < |s.cmd.gens| - 1 ==> Gone(s.cmd.gens[g]))
    && ((Creating(s.sup.pc) || Trying(s.sup.pc) || s.sup.pc.StartCall?) ==> TornDown(s.cmd))
  }

  predicate MayBeAlive(x: Gn.XPc) {
    x in {Gn.XPc.StartCmd, Gn.XPc.AwaitExit, Gn.XPc.StopCall, Gn.XPc.Drain, Gn.XPc.GoOffline}
  }

  predicate AliveOk(s: Agent) {
    s.svc.alive ==> s.cmd.gens != [] && MayBeAlive(s.cmd.gens[Last(s.cmd)].x)
  }

  /** A job on record means the current generation's process was started. */
  predicate JobOk(s: Agent) {
    && s.svc.db != Garbage
    && (s.sup.pc.TopDb? ==> !s.sup.aliveSeen)
    && (s.sup.pc.StartCall? ==> !Job(s.svc.db))
    && (s.cmd.gens != [] && s.cmd.gens[Last(s.cmd)].ex.proc.NotStarted? ==> !Job(s.svc.db))
  }

  predicate Inv(s: Agent) {
    Base.Inv(s) && OneAtATime(s) && AliveOk(s) && JobOk(s)
  }

  predicate Good(s: Agent, a: Act) {
    && (a.Sup? ==> a.io.readable)
    && (SleepEnds(s, a) ==> TornDown(s.cmd))
  }

  /** A generation that is gone does nothing. */
  lemma GoneIsStill(g: Gn.Gen, ok: bool, isErr: bool, scan: Gn.Scan)
    requires Gn.GenInv(g) && Gone(g)
    ensures Gn.XStep(g, ok) == g && Gn.XCalls(g) == [] && !Launches(g, ok)
    ensures Gn.ScanCalls(if isErr then g.err else g.out) == []
    ensures Gn.ScanStep(g, isErr, scan) == g
  {
    assert g.early + [] == g.early && g.calls + [] == g.calls;
  }

  /** What a scanner or executeCommand can do to the service, seen from its generation. */
  lemma XCallsWhen(g: Gn.Gen, ok: bool)
    requires Gn.GenInv(g)
    ensures Gn.XCalls(g) == [] || (Gn.XCalls(g) == [Gn.RunnerStarted(false)] && g.x.GoOffline?)
            || (Gn.XCalls(g) == [Gn.JobFinished] && g.x.FinishCall? && !g.ex.proc.NotStarted?)
    ensures g.ex.proc.NotStarted? && !Gn.XStep(g, ok).ex.proc.NotStarted? ==> g.x.StartCmd? && ok
    ensures !g.ex.proc.NotStarted? ==> !Gn.XStep(g, ok).ex.proc.NotStarted?
    ensures Launches(g, ok) ==> g.ex.proc.NotStarted?
    ensures Gn.XStep(g, ok).loop == g.loop
    ensures MayBeAlive(g.x) && !g.x.GoOffline? ==> MayBeAlive(Gn.XStep(g, ok).x)
    ensures g.x.XDone? ==> Gn.XStep(g, ok).x.XDone?
  {
  }

  lemma ScanCallsWhen(g: Gn.Gen, isErr: bool, scan: Gn.Scan)
    requires Gn.GenInv(g)
    ensures var calls := Gn.ScanCalls(if isErr then g.err else g.out);
      calls == [] || (calls in {[Gn.JobStarted], [Gn.RunnerStarted(true)]} && !g.ex.proc.NotStarted? && MayBeAlive(g.x))
    ensures var g' := Gn.ScanStep(g, isErr, scan); g'.ex == g.ex && g'.x == g.x && g'.loop == g.loop
  {
  }

  predicate Core(s: Agent) { OneAtATime(s) && AliveOk(s) && JobOk(s) }

  /** One generation moves and the service takes its callback. */
  lemma GenMoves(s: Agent, g: nat, gen: Gn.Gen, svc: Svc, starts: nat)
    requires Core(s) && g < |s.cmd.gens|
    requires Gone(s.cmd.gens[g]) ==> gen == s.cmd.gens[g] && svc == s.svc
    requires svc.db != Garbage
    requires gen.ex.proc.NotStarted? ==> s.cmd.gens[g].ex.proc.NotStarted? && Job(svc.db) == Job(s.svc.db)
    requires g == Last(s.cmd) && svc.alive ==> MayBeAlive(gen.x)
    requires s.cmd.gens[g].x.XDone? ==> gen.x.XDone? && svc == s.svc
    ensures Core(s.(cmd := UpdateGen(s.cmd, g, gen), svc := svc, procStarts := starts))
  {
  }

  lemma XCore(s: Agent, g: nat, ok: bool, io: Io)
    requires Core(s) && Base.GensOk(s.cmd) && g < |s.cmd.gens|
    ensures Core(XAct(s, g, ok, io))
  {
    var gen := s.cmd.gens[g];
    assert Gn.GenInv(gen);
    if Gone(gen) {
      GoneIsStill(gen, ok, false, Gn.Eof);
    }
    XCallsWhen(gen, ok);
    GenMoves(s, g, Gn.XStep(gen, ok), Effect(s.svc, Gn.XCalls(gen), io), XAct(s, g, ok, io).procStarts);
  }

  lemma ScanCore(s: Agent, g: nat, isErr: bool, scan: Gn.Scan, io: Io)
    requires Core(s) && Base.GensOk(s.cmd) && g < |s.cmd.gens|
    ensures Core(ScanAct(s, g, isErr, scan, io))
  {
    var gen := s.cmd.gens[g];
    assert Gn.GenInv(gen);
    if Gone(gen) {
      GoneIsStill(gen, true, isErr, scan);
    }
    ScanCallsWhen(gen, isErr, scan);
    var calls := Gn.ScanCalls(if isErr then gen.err else gen.out);
    GenMoves(s, g, Gn.ScanStep(gen, isErr, scan), Effect(s.svc, calls, io), s.procStarts);
  }

  /** With the generations all gone the bit is down. */
  lemma DownWhenGone(s: Agent)
    requires AliveOk(s) && TornDown(s.cmd)
    ensures !s.svc.alive
  {
  }

  /** What a check that goes on to Start has established. */
  lemma CheckSays(t: Thread, e: Sight, db: Stored)
    requires e.record == Load(db) && db != Garbage && !t.aliveSeen
    ensures Check(t, e).Terminated? <==> Job(db)
  {
  }

  /** The steps of keepRunnerAlive that stay off the runner command keep what a restart needs. */
  predicate Flows(t: Thread, t': Thread, e: Sight, pick: Pick) {
    && (Creating(t'.pc) || Trying(t'.pc) ==>
          Creating(t.pc) || Trying(t.pc) || (t.pc.WakeSleep? && pick.Timer? && !t.late))
    && (t'.pc.StartCall? ==> t.pc.TopDb? && !Check(t, e).Terminated?)
    && (t'.pc.TopDb? ==> t.pc.Top? && t'.aliveSeen == e.alive)
  }

  lemma CreateFlows(t: Thread, e: Sight, pick: Pick)
    requires Creating(t.pc)
    ensures Flows(t, CreateLocal(t, e, pick).t, e, pick)
  {
  }

  lemma TryFlows(t: Thread, e: Sight, pick: Pick)
    requires Trying(t.pc)
    ensures Flows(t, TryLocal(t, e, pick).t, e, pick)
  {
  }

  lemma WatchFlows(t: Thread, e: Sight, pick: Pick)
    requires !Creating(t.pc) && !Trying(t.pc) && !t.pc.StartCall?
    ensures Flows(t, WatchLocal(t, e, pick).t, e, pick)
  {
  }

  lemma LocalFlow(t: Thread, e: Sight, pick: Pick)
    requires !t.pc.StartCall?
    ensures Flows(t, Local(t, e, pick).t, e, pick)
  {
    if Creating(t.pc) {
      CreateFlows(t, e, pick);
    } else if Trying(t.pc) {
      TryFlows(t, e, pick);
    } else {
      WatchFlows(t, e, pick);
    }
  }

  lemma SupCore(s: Agent, pick: Pick, io: Io)
    requires Core(s) && Good(s, Sup(pick, io))
    ensures Core(SupStep(s, pick, io))
  {
    if s.sup.pc.StartCall? {
      StartCore(s, pick);
    } else {
      LocalFlow(s.sup, View(s, io), pick);
      if TornDown(s.cmd) {
        DownWhenGone(s);
      }
      if s.sup.pc.TopDb? {
        CheckSays(s.sup, View(s, io), s.svc.db);
      }
    }
  }

  lemma StartCore(s: Agent, pick: Pick)
    requires Core(s) && s.sup.pc.StartCall?
    ensures Core(StartStep(s, pick))
  {
    DownWhenGone(s);
  }

  /** Stop touches `done`, the cleanup and the caller's own program counter. */
  predicate SameLife(g: Gn.Gen, g': Gn.Gen) {
    && g'.ex.proc == g.ex.proc
    && (Gone(g) ==> Gone(g'))
    && (MayBeAlive(g.x) ==> MayBeAlive(g'.x))
  }

  predicate SameLives(c: Cmd, c': Cmd) {
    |c'.gens| == |c.gens| && forall g :: 0 <= g < |c.gens| ==> SameLife(c.gens[g], c'.gens[g])
  }

  lemma EnterLives(c: Cmd, who: Who)
    requires c.gens != []
    ensures SameLives(c, EnterStop(c, who))
  {
    assert SameLife(c.gens[Last(c)], Gn.Entered(c.gens[Last(c)]));
  }

  lemma ReturnLives(c: Cmd, who: Who, supAt: bool)
    requires AtStop(c, who, supAt)
    ensures SameLives(c, Return(c, who, supAt).cmd)
  {
    if who.ByX? {
      assert SameLife(c.gens[who.g], Gn.Left(c.gens[who.g], false));
    } else if who.ByLoop? {
      assert SameLife(c.gens[who.g], Gn.Left(c.gens[who.g], true));
    }
  }

  lemma StopLives(c: Cmd, who: Who, supAt: bool)
    ensures SameLives(c, StopStep(c, who, supAt).cmd)
  {
    if AtStop(c, who, supAt) {
      if c.holder == who {
        ReturnLives(c.(holder := Nobody), who, supAt);
      } else {
        ReturnLives(c, who, supAt);
      }
      if c.gens != [] {
        EnterLives(c, who);
      }
    }
  }

  lemma LivesCore(s: Agent, c: Cmd, t: Thread)
    requires Core(s) && SameLives(s.cmd, c) && (t == s.sup || t.pc.DeferWait?)
    ensures Core(s.(cmd := c, sup := t))
  {
    assert forall g :: 0 <= g < |c.gens| ==> SameLife(s.cmd.gens[g], c.gens[g]);
  }

  lemma StopCore(s: Agent, who: Who)
    requires Core(s)
    ensures Core(StopAct(s, who))
  {
    StopLives(s.cmd, who, s.sup.pc.DeferStop?);
    LivesCore(s, StopAct(s, who).cmd, StopAct(s, who).sup);
  }

  lemma OtherCore(s: Agent, a: Act)
    requires Core(s) && !a.Sup? && !a.X? && !a.Scan? && !a.Stop?
    ensures Core(Step(s, a))
  {
  }

  lemma StepKeeps(s: Agent, a: Act)
    requires Inv(s) && Good(s, a)
    ensures Inv(Step(s, a))
  {
    Base.StepInv(s, a);
    match a
    case Sup(pick, io) => SupCore(s, pick, io);
    case X(g, ok, io) => if g < |s.cmd.gens| { XCore(s, g, ok, io); }
    case Scan(g, isErr, scan, io) => if g < |s.cmd.gens| { ScanCore(s, g, isErr, scan, io); }
    case Stop(who) => StopCore(s, who);
    case _ => OtherCore(s, a);
  }

  /** With a job on record no step starts a process. */
  lemma NoLaunch(s: Agent, a: Act)
    requires Inv(s) && Job(s.svc.db)
    ensures Step(s, a).procStarts == s.procStarts
  {
    if a.X? && a.g < |s.cmd.gens| {
      var gen := s.cmd.gens[a.g];
      assert Gn.GenInv(gen);
      XCallsWhen(gen, a.ok);
    }
  }

  ghost predicate SupReads(acts: seq<Act>) {
    forall a :: a in acts && a.Sup? ==> a.io.readable
  }

  lemma {:induction false} RunKeeps(s: Agent, acts: seq<Act>)
    requires Inv(s) && SupReads(acts) && Timely(s, acts)
    ensures Inv(Run(s, acts))
    decreases |acts|
  {
    if acts != [] {
      assert acts[0] in acts && forall a :: a in acts[1..] ==> a in acts;
      StepKeeps(s, acts[0]);
      RunKeeps(Step(s, acts[0]), acts[1..]);
    }
  }

  lemma JobStays(s: Agent, a: Act)
    requires Job(s.svc.db)
    ensures Job(Step(s, a).svc.db)
  {
  }

  lemma {:induction false} NoLaunchRun(s: Agent, acts: seq<Act>)
    requires Inv(s) && SupReads(acts) && Timely(s, acts) && Job(s.svc.db)
    ensures Run(s, acts).procStarts == s.procStarts
    decreases |acts|
  {
    if acts != [] {
      assert acts[0] in acts && forall a :: a in acts[1..] ==> a in acts;
      NoLaunch(s, acts[0]);
      JobStays(s, acts[0]);
      StepKeeps(s, acts[0]);
      NoLaunchRun(Step(s, acts[0]), acts[1..]);
    }
  }

  /**
   * Over any sequence of runs, stops and crashes on one record: once a job is on record no runner
   * process is ever started again, if the supervisor's reads succeed and its sleep outlasts the
   * teardown of the generation before.
   */
  lemma NoRestartAfterJob(db: Stored, acts: seq<Act>, more: seq<Act>)
    requires db != Garbage
    requires SupReads(acts) && Timely(Agent0(db), acts)
    requires SupReads(more) && Timely(Run(Agent0(db), acts), more)
    requires Job(Run(Agent0(db), acts).svc.db)
    ensures Run(Run(Agent0(db), acts), more).procStarts == Run(Agent0(db), acts).procStarts
  {
    BootInv(db, [], 0);
    RunKeeps(Agent0(db), acts);
    NoLaunchRun(Run(Agent0(db), acts), more);
  }

  /**
   * Under the same hypotheses a generation whose goroutines have not all returned is the current
   * one: reading `r.cmd`, `r.executor` or `r.done` again, it finds its own.
   */
  lemma OnlyCurrentActs(db: Stored, acts: seq<Act>)
    requires db != Garbage && SupReads(acts) && Timely(Agent0(db), acts)
    ensures var c := Run(Agent0(db), acts).cmd;
      forall g :: 0 <= g < |c.gens| && !Gone(c.gens[g]) ==> g == Last(c)
  {
    BootInv(db, [], 0);
    RunKeeps(Agent0(db), acts);
  }

  // ---- an agent that comes up with a job on record --------------------------------------------

  /** keepRunnerAlive has got no further than its first check. */
  ghost predicate Silent(s: Agent) {
    && Job(s.svc.db) && s.svc.db != Garbage
    && !s.svc.hasCmd && !s.svc.alive
    && s.cmd == Cmd(false, Nobody, [], false) && s.loopSeen.None?
    && s.sup.pc in {CreateAlive, CreateDb, Returned} && (s.sup.pc.CreateDb? ==> !s.sup.aliveSeen)
    && (forall k :: 0 <= k < |s.svc.log| ==> s.svc.log[k] == Entry(Terminated, BySupervisor))
  }

  lemma SilentStep(s: Agent, a: Act)
    requires Silent(s) && (a.Sup? ==> a.io.readable)
    ensures Silent(Step(s, a)) && Step(s, a).svc.db == s.svc.db
  {
    if a.Sup? && s.sup.pc.CreateDb? {
      CheckSays(s.sup, View(s, a.io), s.svc.db);
    }
  }

  lemma {:induction false} SilentRun(s: Agent, acts: seq<Act>)
    requires Silent(s) && SupReads(acts)
    ensures Silent(Run(s, acts)) && Run(s, acts).svc.db == s.svc.db
    decreases |acts|
  {
    if acts != [] {
      assert acts[0] in acts && forall a :: a in acts[1..] ==> a in acts;
      SilentStep(s, acts[0]);
      SilentRun(Step(s, acts[0]), acts[1..]);
    }
  }

  /**
   * An agent that comes up with a job on record never creates the runner command: it starts
   * nothing, and it sends no status either, since every sender needs that command. All it does is
   * compute Terminated for itself.
   */
  lemma SilentAfterRestart(db: Stored, acts: seq<Act>)
    requires Job(db) && db != Garbage && SupReads(acts)
    ensures var s := Run(Agent0(db), acts);
      && !s.svc.hasCmd && s.cmd.gens == [] && s.procStarts == 0 && s.svc.db == db
      && forall k :: 0 <= k < |s.svc.log| ==> s.svc.log[k] == Entry(Terminated, BySupervisor)
  {
    SilentRun(Agent0(db), acts);
    BootInv(db, [], 0);
    NoLaunchSilent(Agent0(db), acts);
  }

  lemma {:induction false} NoLaunchSilent(s: Agent, acts: seq<Act>)
    requires Silent(s) && SupReads(acts)
    ensures Run(s, acts).procStarts == s.procStarts
    decreases |acts|
  {
    if acts != [] {
      assert acts[0] in acts && forall a :: a in acts[1..] ==> a in acts;
      SilentStep(s, acts[0]);
      assert Step(s, acts[0]).procStarts == s.procStarts;
      NoLaunchSilent(Step(s, acts[0]), acts[1..]);
    }
  }
}
