/**
 * The exact condition for a restart after a job. At the end of keepRunnerAlive's sleep, with every
 * database access succeeding, a launch with a job on record can follow if and only if the state is
 * not `Clear`. That takes less than the teardown of the old generation, and it covers a job that is
 * recorded before the check as well as one recorded between the check and the launch.
 */
module SupervisorRelaunch {
  import opened JobState
  import Gn = Runner
  import opened Service
  import opened Supervisor
  import Base = SupervisorInv
  import opened SupervisorSafety
  import opened SupervisorRestart
  import opened SupervisorTerminated

  /** Its executeCommand will not launch a process any more. */
  predicate Past(g: Gn.Gen) { !Gn.BeforeStart(g.x) }

  /** Its scanners make no more callbacks: they are through, or have no process to read from. */
  predicate AtRest(g: Gn.Gen) { g.ex.proc.NotStarted? || Gn.Scanned(g) }

  predicate AllPast(c: Cmd) { forall g :: 0 <= g < |c.gens| ==> Past(c.gens[g]) }

  predicate AllRest(c: Cmd) { forall g :: 0 <= g < |c.gens| ==> AtRest(c.gens[g]) }

  predicate ClearFor(s: Agent, alive: bool) {
    AllPast(s.cmd) && (JobOver(s.svc.db) || (AllRest(s.cmd) && !(JobKnown(s.svc.db) && alive)))
  }

  /** No generation is still on the way to its launch, and either a finish is on record, or every
      scanner is at rest and the liveness bit is down if a start is. */
  predicate Clear(s: Agent) { ClearFor(s, s.svc.alive) }

  /** Every sleep after a wake-up ends in a clear state. */
  ghost predicate AllClear(s: Agent, acts: seq<Act>)
    decreases |acts|
  {
    acts == [] || ((SleepEnds(s, acts[0]) ==> Clear(s)) && AllClear(Step(s, acts[0]), acts[1..]))
  }

  /** Somewhere in the run a process is launched with a job on record. */
  ghost predicate LaunchesAfterJob(s: Agent, acts: seq<Act>)
    decreases |acts|
  {
    acts != [] && ((Job(s.svc.db) && Step(s, acts[0]).procStarts > s.procStarts) || LaunchesAfterJob(Step(s, acts[0]), acts[1..]))
  }

  // ---- what every run keeps, however the sleeps end ---------------------------------------------

  predicate Recorded(s: Agent) {
    forall g :: 0 <= g < |s.cmd.gens| && Gn.JobStarted in s.cmd.gens[g].early ==> JobKnown(s.svc.db)
  }

  ghost predicate SomeoneAlive(c: Cmd) {
    exists g :: 0 <= g < |c.gens| && MayBeAlive(c.gens[g].x)
  }

  ghost predicate Facts(s: Agent) {
    Plausible(s.svc.db) && Recorded(s) && (s.svc.alive ==> SomeoneAlive(s.cmd))
  }

  ghost predicate Sound(s: Agent) { Base.Inv(s) && Facts(s) }

  // ---- what a run keeps when every sleep ends in a clear state ----------------------------------

  /** Only the last generation can still be launched or call back, and it is launched before a job
      is on record. */
  predicate OldSafe(s: Agent) {
    && (forall g :: 0 <= g < |s.cmd.gens| - 1 ==> Past(s.cmd.gens[g]) && (JobOver(s.svc.db) || AtRest(s.cmd.gens[g])))
    && (s.cmd.gens != [] && JobKnown(s.svc.db) ==> Past(s.cmd.gens[Last(s.cmd)]))
  }

  predicate PhaseSafe(s: Agent) {
    && (s.sup.pc.Top? ==> Clear(s))
    && (s.sup.pc.TopDb? ==> ClearFor(s, s.sup.aliveSeen))
    && (s.sup.pc in {StartCall, FailAlive, FailDb, FailSleep} ==>
          AllPast(s.cmd) && AllRest(s.cmd) && !JobKnown(s.svc.db))
  }

  predicate Guarded(s: Agent) { OldSafe(s) && PhaseSafe(s) }

  ghost predicate Safe(s: Agent) { Sound(s) && Guarded(s) }

  // ---- a generation moves -----------------------------------------------------------------------

  /** What a step of one generation's own threads can do to the rest. */
  predicate Fits(g: Gn.Gen, g': Gn.Gen, v: Svc, v': Svc) {
    && Plausible(v'.db)
    && (JobKnown(v.db) ==> JobKnown(v'.db)) && (JobOver(v.db) ==> JobOver(v'.db))
    && (Gn.JobStarted in g'.early ==> Gn.JobStarted in g.early || JobKnown(v'.db))
    && (v'.alive ==> MayBeAlive(g'.x) || (v.alive && !MayBeAlive(g.x)))
    && (Past(g) ==> Past(g'))
    && (Past(g) && AtRest(g) ==> AtRest(g') && (v'.alive ==> v.alive))
    && (JobKnown(v'.db) && !JobKnown(v.db) ==> Past(g) && !AtRest(g))
  }

  lemma FitsFacts(s: Agent, g: nat, gen: Gn.Gen, v: Svc, starts: nat)
    requires Facts(s) && g < |s.cmd.gens| && Fits(s.cmd.gens[g], gen, s.svc, v)
    ensures Facts(s.(cmd := UpdateGen(s.cmd, g, gen), svc := v, procStarts := starts))
  {
    var c := UpdateGen(s.cmd, g, gen);
    if v.alive {
      if MayBeAlive(gen.x) {
        assert MayBeAlive(c.gens[g].x);
      } else {
        var k :| 0 <= k < |s.cmd.gens| && MayBeAlive(s.cmd.gens[k].x);
        assert MayBeAlive(c.gens[k].x);
      }
    }
  }

  lemma FitsGuarded(s: Agent, g: nat, gen: Gn.Gen, v: Svc, starts: nat)
    requires Guarded(s) && Plausible(s.svc.db) && g < |s.cmd.gens| && Fits(s.cmd.gens[g], gen, s.svc, v)
    ensures Guarded(s.(cmd := UpdateGen(s.cmd, g, gen), svc := v, procStarts := starts))
  {
    assert g < Last(s.cmd) && !AtRest(s.cmd.gens[g]) ==> JobOver(s.svc.db);
  }

  lemma XFits(g: Gn.Gen, ok: bool, v: Svc, io: Io)
    requires Gn.GenInv(g) && Plausible(v.db) && io.commits
    requires Gn.JobStarted in g.early ==> JobKnown(v.db)
    ensures Fits(g, Gn.XStep(g, ok), v, Effect(v, Gn.XCalls(g), io))
  {
    XCallsWhen(g, ok);
    XKeeps(g, ok);
  }

  lemma XKeeps(g: Gn.Gen, ok: bool)
    requires Gn.GenInv(g)
    ensures var g' := Gn.XStep(g, ok);
      && g'.early == g.early && (Past(g) ==> Past(g'))
      && (Past(g) && AtRest(g) ==> AtRest(g'))
    ensures g.x.FinishCall? ==> Gn.JobStarted in g.early
  {
  }

  lemma ScanFits(g: Gn.Gen, isErr: bool, scan: Gn.Scan, v: Svc, io: Io)
    requires Gn.GenInv(g) && Plausible(v.db) && io.commits
    requires Gn.JobStarted in g.early ==> JobKnown(v.db)
    ensures Fits(g, Gn.ScanStep(g, isErr, scan), v, Effect(v, Gn.ScanCalls(if isErr then g.err else g.out), io))
  {
    var calls := Gn.ScanCalls(if isErr then g.err else g.out);
    ScanCallsWhen(g, isErr, scan);
    if calls == [] {
      assert g.early + [] == g.early;
    }
    ScanKeeps(g, isErr, scan);
  }

  lemma ScanKeeps(g: Gn.Gen, isErr: bool, scan: Gn.Scan)
    requires Gn.GenInv(g)
    ensures var g' := Gn.ScanStep(g, isErr, scan);
      && g'.early == g.early + Gn.ScanCalls(if isErr then g.err else g.out)
      && (AtRest(g) ==> AtRest(g') && Gn.ScanCalls(if isErr then g.err else g.out) == [])
  {
  }

  // ---- nobody's launch or callback --------------------------------------------------------------

  /** A step of Stop, of a cleanup, of a loop goroutine, or the exit of a process. */
  predicate Alike(g: Gn.Gen, g': Gn.Gen) {
    && g'.out == g.out && g'.err == g.err && g'.early == g.early
    && g'.ex.proc.NotStarted? == g.ex.proc.NotStarted?
    && (g'.x == g.x || (g.x.StopCall? && g'.x.Drain?))
  }

  predicate AllAlike(c: Cmd, c': Cmd) {
    |c'.gens| == |c.gens| && forall g :: 0 <= g < |c.gens| ==> Alike(c.gens[g], c'.gens[g])
  }

  lemma AlikeSafe(s: Agent, c: Cmd, t: Thread)
    requires AllAlike(s.cmd, c) && (t == s.sup || t.pc.DeferWait?)
    ensures Facts(s) ==> Facts(s.(cmd := c, sup := t))
    ensures Guarded(s) ==> Guarded(s.(cmd := c, sup := t))
  {
    assert forall g :: 0 <= g < |c.gens| ==> Alike(s.cmd.gens[g], c.gens[g]);
    if SomeoneAlive(s.cmd) {
      var k :| 0 <= k < |s.cmd.gens| && MayBeAlive(s.cmd.gens[k].x);
      assert MayBeAlive(c.gens[k].x);
    }
  }

  lemma EnterAlike(c: Cmd, who: Who)
    requires c.gens != []
    ensures AllAlike(c, EnterStop(c, who))
  {
    assert Alike(c.gens[Last(c)], Gn.Entered(c.gens[Last(c)]));
  }

  lemma ReturnAlike(c: Cmd, who: Who, supAt: bool)
    requires AtStop(c, who, supAt)
    ensures AllAlike(c, Return(c, who, supAt).cmd)
  {
    if who.ByX? {
      assert Alike(c.gens[who.g], Gn.Left(c.gens[who.g], false));
    } else if who.ByLoop? {
      assert Alike(c.gens[who.g], Gn.Left(c.gens[who.g], true));
    }
  }

  lemma StopAlike(c: Cmd, who: Who, supAt: bool)
    ensures AllAlike(c, StopStep(c, who, supAt).cmd)
  {
    Base.StopCases(c, who, supAt);
    var c' := StopStep(c, who, supAt).cmd;
    if c' == c {
    } else if c.gens != [] && c' == EnterStop(c, who) {
      EnterAlike(c, who);
    } else {
      ReturnAlike(c, who, supAt);
      ReturnAlike(c.(holder := Nobody), who, supAt);
    }
  }

  lemma OwnAlike(c: Cmd, g: nat, a: Gn.GenAct)
    requires g < |c.gens| && (a.LoopWakes? || a.Exits? || a.CleanupBody?)
    ensures AllAlike(c, UpdateGen(c, g, Gn.GenStep(c.gens[g], a)))
  {
  }

  /** Every act but those of keepRunnerAlive, executeCommand and the scanners, and the crash. */
  lemma OtherAlike(s: Agent, a: Act)
    requires a.LoopWakes? || a.Exits? || a.Stop? || a.Cleanup?
    ensures AllAlike(s.cmd, Step(s, a).cmd)
    ensures Step(s, a) == s.(cmd := Step(s, a).cmd, sup := Step(s, a).sup)
    ensures Step(s, a).sup == s.sup || Step(s, a).sup.pc.DeferWait?
  {
    match a
    case LoopWakes(g) => if g < |s.cmd.gens| { OwnAlike(s.cmd, g, Gn.LoopWakes); }
    case Exits(g) => if g < |s.cmd.gens| { OwnAlike(s.cmd, g, Gn.Exits); }
    case Stop(who) => StopAlike(s.cmd, who, s.sup.pc.DeferStop?);
    case Cleanup(o) => if s.cmd.gens != [] { OwnAlike(s.cmd, Last(s.cmd), Gn.CleanupBody(o)); }
  }

  // ---- keepRunnerAlive --------------------------------------------------------------------------

  lemma SupFacts(s: Agent, pick: Pick, io: Io)
    requires Sound(s)
    ensures Facts(SupStep(s, pick, io))
  {
    if s.sup.pc.StartCall? {
      StartFacts(s, pick);
    }
  }

  lemma StartFacts(s: Agent, pick: Pick)
    requires Facts(s)
    ensures Facts(StartStep(s, pick))
  {
    var c := StartStep(s, pick).cmd;
    if SomeoneAlive(s.cmd) {
      var k :| 0 <= k < |s.cmd.gens| && MayBeAlive(s.cmd.gens[k].x);
      assert MayBeAlive(c.gens[k].x);
    }
  }

  /** Where a local step of keepRunnerAlive can lead. */
  predicate Goes(t: Thread, t': Thread, e: Sight, pick: Pick) {
    && (t'.pc.Top? ==> t.pc in {Top, Publish, FailSleep} || (t.pc.WakeSleep? && pick.Timer? && !t.late))
    && (t'.pc.TopDb? ==> t.pc.Top? && t'.aliveSeen == e.alive)
    && (t'.pc.StartCall? ==> t.pc.TopDb? && !Check(t, e).Terminated?)
    && (t'.pc in {FailAlive, FailDb, FailSleep} ==> t.pc in {FailAlive, FailDb, FailSleep})
  }

  lemma CreateGoes(t: Thread, e: Sight, pick: Pick)
    requires Creating(t.pc)
    ensures Goes(t, CreateLocal(t, e, pick).t, e, pick)
  {
  }

  lemma TryGoes(t: Thread, e: Sight, pick: Pick)
    requires Trying(t.pc)
    ensures Goes(t, TryLocal(t, e, pick).t, e, pick)
  {
  }

  lemma WatchGoes(t: Thread, e: Sight, pick: Pick)
    requires !Creating(t.pc) && !Trying(t.pc) && !t.pc.StartCall?
    ensures Goes(t, WatchLocal(t, e, pick).t, e, pick)
  {
  }

  lemma LocalGoes(t: Thread, e: Sight, pick: Pick)
    requires !t.pc.StartCall?
    ensures Goes(t, Local(t, e, pick).t, e, pick)
  {
    if Creating(t.pc) {
      CreateGoes(t, e, pick);
    } else if Trying(t.pc) {
      TryGoes(t, e, pick);
    } else {
      WatchGoes(t, e, pick);
    }
  }

  lemma StartGuarded(s: Agent, pick: Pick)
    requires Guarded(s) && s.sup.pc.StartCall? && !s.cmd.running
    ensures Guarded(StartStep(s, pick))
  {
  }

  lemma CheckClears(t: Thread, e: Sight, db: Stored)
    requires e.record == Load(db) && Plausible(db)
    ensures !Check(t, e).Terminated? <==> !JobOver(db) && (JobKnown(db) ==> t.aliveSeen)
  {
  }

  lemma SupGuarded(s: Agent, pick: Pick, io: Io)
    requires Safe(s) && io.readable && (SleepEnds(s, Sup(pick, io)) ==> Clear(s))
    ensures Guarded(SupStep(s, pick, io))
  {
    if s.sup.pc.StartCall? {
      StartGuarded(s, pick);
    } else {
      LocalGoes(s.sup, View(s, io), pick);
      CheckClears(s.sup, View(s, io), s.svc.db);
      LocalGuarded(s, SupStep(s, pick, io));
    }
  }

  lemma LocalGuarded(s: Agent, s': Agent)
    requires Safe(s) && s'.cmd == s.cmd && s'.svc.db == s.svc.db && s'.svc.alive == s.svc.alive
    requires s'.sup.pc.Top? ==> s.sup.pc in {Top, Publish, FailSleep} || (s.sup.pc.WakeSleep? && Clear(s))
    requires s'.sup.pc.TopDb? ==> s.sup.pc.Top? && s'.sup.aliveSeen == s.svc.alive
    requires s'.sup.pc.StartCall? ==> s.sup.pc.TopDb? && !JobOver(s.svc.db) && (JobKnown(s.svc.db) ==> s.sup.aliveSeen)
    requires s'.sup.pc in {FailAlive, FailDb, FailSleep} ==> s.sup.pc in {FailAlive, FailDb, FailSleep}
    ensures Guarded(s')
  {
    if s.sup.pc.Publish? {
      assert s.cmd.gens == [];
    }
  }

  // ---- every step ---------------------------------------------------------------------------------

  lemma XSafe(s: Agent, g: nat, ok: bool, io: Io)
    requires Sound(s) && g < |s.cmd.gens| && io.commits
    ensures Facts(XAct(s, g, ok, io)) && (Guarded(s) ==> Guarded(XAct(s, g, ok, io)))
  {
    var gen, s' := s.cmd.gens[g], XAct(s, g, ok, io);
    XFits(gen, ok, s.svc, io);
    FitsFacts(s, g, Gn.XStep(gen, ok), s'.svc, s'.procStarts);
    if Guarded(s) {
      FitsGuarded(s, g, Gn.XStep(gen, ok), s'.svc, s'.procStarts);
    }
  }

  lemma ScanSafe(s: Agent, g: nat, isErr: bool, scan: Gn.Scan, io: Io)
    requires Sound(s) && g < |s.cmd.gens| && io.commits
    ensures Facts(ScanAct(s, g, isErr, scan, io)) && (Guarded(s) ==> Guarded(ScanAct(s, g, isErr, scan, io)))
  {
    var gen, s' := s.cmd.gens[g], ScanAct(s, g, isErr, scan, io);
    ScanFits(gen, isErr, scan, s.svc, io);
    FitsFacts(s, g, Gn.ScanStep(gen, isErr, scan), s'.svc, s.procStarts);
    if Guarded(s) {
      FitsGuarded(s, g, Gn.ScanStep(gen, isErr, scan), s'.svc, s.procStarts);
    }
  }

  lemma OtherSafe(s: Agent, a: Act)
    requires Facts(s) && !a.Sup? && !a.X? && !a.Scan?
    ensures Facts(Step(s, a)) && (Guarded(s) ==> Guarded(Step(s, a)))
  {
    if a.LoopWakes? || a.Exits? || a.Stop? || a.Cleanup? {
      OtherAlike(s, a);
      AlikeSafe(s, Step(s, a).cmd, Step(s, a).sup);
    }
  }

  lemma StepSafe(s: Agent, a: Act)
    requires Sound(s) && DbOk(a)
    ensures Sound(Step(s, a))
    ensures Guarded(s) && (SleepEnds(s, a) ==> Clear(s)) ==> Guarded(Step(s, a))
  {
    Base.StepInv(s, a);
    match a
    case Sup(pick, io) =>
      SupFacts(s, pick, io);
      if Guarded(s) && (SleepEnds(s, a) ==> Clear(s)) {
        SupGuarded(s, pick, io);
      }
    case X(g, ok, io) => if g < |s.cmd.gens| { XSafe(s, g, ok, io); }
    case Scan(g, isErr, scan, io) => if g < |s.cmd.gens| { ScanSafe(s, g, isErr, scan, io); }
    case _ => OtherSafe(s, a);
  }

  /** A launch is the last generation's, before a job is on record. */
  lemma GuardedLaunch(s: Agent, a: Act)
    requires Safe(s) && Job(s.svc.db)
    ensures Step(s, a).procStarts == s.procStarts
  {
    if a.X? && a.g < |s.cmd.gens| {
      var gen := s.cmd.gens[a.g];
      assert a.g < Last(s.cmd) || a.g == Last(s.cmd);
      assert Past(gen);
    }
  }

  lemma {:induction false} RunSound(s: Agent, acts: seq<Act>)
    requires Sound(s) && AllDbOk(acts)
    ensures Sound(Run(s, acts))
    decreases |acts|
  {
    if acts != [] {
      assert acts[0] in acts && forall a :: a in acts[1..] ==> a in acts;
      StepSafe(s, acts[0]);
      RunSound(Step(s, acts[0]), acts[1..]);
    }
  }

  lemma {:induction false} RunSafe(s: Agent, acts: seq<Act>)
    requires Safe(s) && AllDbOk(acts) && AllClear(s, acts)
    ensures Safe(Run(s, acts)) && !LaunchesAfterJob(s, acts)
    decreases |acts|
  {
    if acts != [] {
      assert acts[0] in acts && forall a :: a in acts[1..] ==> a in acts;
      StepSafe(s, acts[0]);
      if Job(s.svc.db) {
        GuardedLaunch(s, acts[0]);
      }
      RunSafe(Step(s, acts[0]), acts[1..]);
    }
  }

  lemma BootSafe(db: Stored)
    requires Plausible(db)
    ensures Safe(Agent0(db))
  {
    BootInv(db, [], 0);
  }

  /** Over any runs, stops and crashes on one record: with every sleep ending in a clear state no
      process is ever launched with a job on record. */
  lemma NoRelaunch(db: Stored, acts: seq<Act>)
    requires Plausible(db) && AllDbOk(acts) && AllClear(Agent0(db), acts)
    ensures !LaunchesAfterJob(Agent0(db), acts)
  {
    BootSafe(db);
    RunSafe(Agent0(db), acts);
  }

  /** A torn down generation leaves the state clear, so `Timely` asks for more than is needed. */
  lemma TornDownIsClear(s: Agent)
    requires Sound(s) && TornDown(s.cmd)
    ensures Clear(s)
  {
    forall g | 0 <= g < |s.cmd.gens|
      ensures Past(s.cmd.gens[g]) && AtRest(s.cmd.gens[g])
    {
      assert Gn.GenInv(s.cmd.gens[g]) && Gone(s.cmd.gens[g]);
    }
  }

  lemma {:induction false} TimelyIsClear(s: Agent, acts: seq<Act>)
    requires Sound(s) && AllDbOk(acts) && Timely(s, acts)
    ensures AllClear(s, acts)
    decreases |acts|
  {
    if acts != [] {
      assert acts[0] in acts && forall a :: a in acts[1..] ==> a in acts;
      if SleepEnds(s, acts[0]) {
        TornDownIsClear(s);
      }
      StepSafe(s, acts[0]);
      TimelyIsClear(Step(s, acts[0]), acts[1..]);
    }
  }
}
