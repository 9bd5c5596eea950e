/** Every state that is not clear lets a restart through: the runs behind the exact condition. */
module SupervisorExact {
  import opened JobState
  import Exec = Executor
  import Gn = Runner
  import opened Service
  import opened Supervisor
  import Base = SupervisorInv
  import SStop = SupervisorShutdown
  import opened SupervisorSafety
  import opened SupervisorRestart
  import opened SupervisorTerminated
  import opened SupervisorRelaunch
  import opened SupervisorLimits

  /** An act with its database access succeeding, that ends no sleep. */
  predicate Plain(a: Act) { DbOk(a) && !a.Crash? && (a.Sup? ==> a.pick.Go?) }

  ghost predicate AllPlain(acts: seq<Act>) { forall a :: a in acts ==> Plain(a) }

  lemma {:induction false} PlainIsClear(s: Agent, acts: seq<Act>)
    requires AllPlain(acts)
    ensures AllDbOk(acts) && AllClear(s, acts)
    decreases |acts|
  {
    if acts != [] {
      assert acts[0] in acts && forall a :: a in acts[1..] ==> a in acts;
      PlainIsClear(Step(s, acts[0]), acts[1..]);
    }
  }

  lemma {:induction false} LaunchesLater(s: Agent, a: seq<Act>, b: seq<Act>)
    requires LaunchesAfterJob(Run(s, a), b)
    ensures LaunchesAfterJob(s, a + b)
    decreases |a|
  {
    if a == [] {
      assert a + b == b;
    } else {
      assert (a + b)[1..] == a[1..] + b;
      LaunchesLater(Step(s, a[0]), a[1..], b);
    }
  }

  lemma OneStep(s: Agent, a: Act, rest: seq<Act>)
    ensures Run(s, [a] + rest) == Run(Step(s, a), rest)
    ensures LaunchesAfterJob(s, [a] + rest) <==>
      (Job(s.svc.db) && Step(s, a).procStarts > s.procStarts) || LaunchesAfterJob(Step(s, a), rest)
  {
    assert ([a] + rest)[1..] == rest;
  }

  // ---- whoever holds runnerCmd.mux can give it back ---------------------------------------------

  function LockLeft(c: Cmd): nat {
    if c.holder.Nobody? || c.gens == [] then 0 else 1 + Exec.BodyLeft(c.gens[Last(c)].ex)
  }

  lemma AlikeTwice(c: Cmd, c1: Cmd, c2: Cmd)
    requires AllAlike(c, c1) && AllAlike(c1, c2)
    ensures AllAlike(c, c2)
  {
    assert forall g :: 0 <= g < |c.gens| ==> Alike(c.gens[g], c1.gens[g]) && Alike(c1.gens[g], c2.gens[g]);
  }

  /** A step that brings the lock nearer to being free. */
  lemma LockMoves(s: Agent) returns (a: Act)
    requires Base.Inv(s) && !s.sup.pc.DeferStop? && !s.cmd.holder.Nobody?
    ensures Plain(a) && (a.Stop? || a.Cleanup?)
    ensures Step(s, a) == s.(cmd := Step(s, a).cmd)
    ensures Step(s, a).cmd.running == s.cmd.running && LockLeft(Step(s, a).cmd) < LockLeft(s.cmd)
  {
    if s.cmd.gens[Last(s.cmd)].ex.once.Spent? {
      a := Stop(s.cmd.holder);
    } else {
      a := Cleanup(Exec.Outcome(true, true, true));
      SStop.BodyMoves(s.cmd.gens[Last(s.cmd)].ex);
    }
  }

  lemma {:induction false} FreeLock(s: Agent) returns (acts: seq<Act>)
    requires Base.Inv(s) && !s.sup.pc.DeferStop?
    ensures AllPlain(acts)
    ensures var s' := Run(s, acts);
      && s' == s.(cmd := s'.cmd) && s'.cmd.holder.Nobody? && s'.cmd.running == s.cmd.running
      && AllAlike(s.cmd, s'.cmd)
    decreases LockLeft(s.cmd)
  {
    if s.cmd.holder.Nobody? {
      acts := [];
    } else {
      var a := LockMoves(s);
      OtherAlike(s, a);
      Base.StepInv(s, a);
      var rest := FreeLock(Step(s, a));
      acts := [a] + rest;
      OneStep(s, a, rest);
      AlikeTwice(s.cmd, Step(s, a).cmd, Run(s, acts).cmd);
    }
  }

  // ---- executeCommand up to the launch ----------------------------------------------------------

  function LaunchLeft(x: Gn.XPc): nat {
    match x
    case PipeOut => 4
    case PipeErr => 3
    case Spawn => 2
    case StartCmd => 1
    case _ => 0
  }

  lemma LaunchStep(s: Agent, g: nat)
    requires g < |s.cmd.gens| && !Past(s.cmd.gens[g]) && s.cmd.gens[g].ex.proc.NotStarted?
    ensures var gen := s.cmd.gens[g]; var gen' := Gn.XStep(gen, true);
      && Step(s, X(g, true, FINE)) ==
           s.(cmd := UpdateGen(s.cmd, g, gen'), procStarts := s.procStarts + if gen.x.StartCmd? then 1 else 0)
      && gen'.out == (if gen.x.Spawn? then Gn.Reading else gen.out)
      && LaunchLeft(gen'.x) < LaunchLeft(gen.x)
      && (if gen.x.StartCmd? then gen'.ex.proc.Live? else !Past(gen') && gen'.ex.proc.NotStarted?)
  {
  }

  lemma {:induction false} LaunchGen(s: Agent, g: nat) returns (acts: seq<Act>)
    requires g < |s.cmd.gens| && !Past(s.cmd.gens[g]) && s.cmd.gens[g].ex.proc.NotStarted?
    ensures AllPlain(acts) && |Run(s, acts).cmd.gens| == |s.cmd.gens|
    ensures var s' := Run(s, acts); var g' := s'.cmd.gens[g];
      && s' == s.(cmd := UpdateGen(s.cmd, g, g'), procStarts := s.procStarts + 1)
      && g'.ex.proc.Live? && g'.out == (if s.cmd.gens[g].x.StartCmd? then s.cmd.gens[g].out else Gn.Reading)
    ensures Job(s.svc.db) ==> LaunchesAfterJob(s, acts)
    decreases LaunchLeft(s.cmd.gens[g].x)
  {
    var a := X(g, true, FINE);
    LaunchStep(s, g);
    var rest := [];
    if !s.cmd.gens[g].x.StartCmd? {
      var s1 := Step(s, a);
      LaunchStep(s1, g);
      rest := LaunchGen(s1, g);
      var s' := Run(s1, rest);
      assert UpdateGen(s1.cmd, g, s'.cmd.gens[g]) == UpdateGen(s.cmd, g, s'.cmd.gens[g]);
    }
    acts := [a] + rest;
    OneStep(s, a, rest);
  }

  // ---- a scanner and its lines ------------------------------------------------------------------

  /** What a scanner of generation `g` changes. */
  predicate OnlyScans(s: Agent, s': Agent, g: nat)
    requires g < |s.cmd.gens|
  {
    && |s'.cmd.gens| == |s.cmd.gens|
    && s' == s.(cmd := UpdateGen(s.cmd, g, s'.cmd.gens[g]), svc := s'.svc)
    && s'.cmd.gens[g].ex == s.cmd.gens[g].ex && s'.cmd.gens[g].x == s.cmd.gens[g].x
    && s'.svc.db != Garbage && (JobOver(s'.svc.db) <==> JobOver(s.svc.db))
    && (JobKnown(s.svc.db) ==> JobKnown(s'.svc.db)) && (s.svc.alive ==> s'.svc.alive)
  }

  predicate Scans(s: Agent, g: nat, isErr: bool) {
    && g < |s.cmd.gens| && !s.cmd.gens[g].ex.proc.NotStarted? && s.svc.db != Garbage
    && !Gn.Idle(Gn.PcOf(s.cmd.gens[g], isErr))
  }

  /** One step of the scanner. */
  lemma ScanOne(s: Agent, g: nat, isErr: bool, scan: Gn.Scan)
    requires Scans(s, g, isErr)
    ensures var s' := Step(s, Scan(g, isErr, scan, FINE)); var pc := Gn.PcOf(s.cmd.gens[g], isErr);
      && OnlyScans(s, s', g)
      && Gn.PcOf(s'.cmd.gens[g], isErr) == Gn.ScanNext(s.cmd.gens[g], pc, scan)
      && (pc.CallJob? ==> JobKnown(s'.svc.db)) && (pc.CallRunner? ==> s'.svc.alive)
  {
  }

  /** Back at the reading of lines. */
  lemma {:induction false} ToReading(s: Agent, g: nat, isErr: bool) returns (acts: seq<Act>)
    requires Scans(s, g, isErr)
    ensures AllPlain(acts) && OnlyScans(s, Run(s, acts), g)
    ensures Gn.PcOf(Run(s, acts).cmd.gens[g], isErr).Reading?
    decreases match Gn.PcOf(s.cmd.gens[g], isErr) case CallJob => 2 case SetFlag => 1 case CallRunner => 1 case _ => 0
  {
    if Gn.PcOf(s.cmd.gens[g], isErr).Reading? {
      acts := [];
    } else {
      var a := Scan(g, isErr, Gn.Eof, FINE);
      ScanOne(s, g, isErr, Gn.Eof);
      var rest := ToReading(Step(s, a), g, isErr);
      ScansTwice(s, Step(s, a), Run(Step(s, a), rest), g);
      acts := [a] + rest;
      OneStep(s, a, rest);
    }
  }

  lemma ScansTwice(s: Agent, s1: Agent, s2: Agent, g: nat)
    requires g < |s.cmd.gens| && OnlyScans(s, s1, g) && OnlyScans(s1, s2, g)
    ensures OnlyScans(s, s2, g)
  {
    assert UpdateGen(s1.cmd, g, s2.cmd.gens[g]) == UpdateGen(s.cmd, g, s2.cmd.gens[g]);
  }

  /** The reading of one line and the callback it leads to. */
  lemma OneLine(s: Agent, g: nat, isErr: bool, job: bool)
    requires Scans(s, g, isErr) && Gn.PcOf(s.cmd.gens[g], isErr).Reading?
    ensures var s' := Run(s, [Scan(g, isErr, Gn.Got(Gn.Line(job, !job)), FINE), Scan(g, isErr, Gn.Eof, FINE)]);
      OnlyScans(s, s', g) && Scans(s', g, isErr) && (if job then JobKnown(s'.svc.db) else s'.svc.alive)
  {
    var line := Gn.Got(Gn.Line(job, !job));
    var a, b := Scan(g, isErr, line, FINE), Scan(g, isErr, Gn.Eof, FINE);
    ScanOne(s, g, isErr, line);
    ScanOne(Step(s, a), g, isErr, Gn.Eof);
    Steps2(s, a, b);
    ScansTwice(s, Step(s, a), Step(Step(s, a), b), g);
  }

  /** A line that says the runner listens, or that a job has started. */
  lemma ReadLine(s: Agent, g: nat, isErr: bool, job: bool) returns (acts: seq<Act>)
    requires Scans(s, g, isErr)
    ensures AllPlain(acts)
    ensures var s' := Run(s, acts);
      OnlyScans(s, s', g) && Scans(s', g, isErr) && (if job then JobKnown(s'.svc.db) else s'.svc.alive)
  {
    var before := ToReading(s, g, isErr);
    var s1 := Run(s, before);
    OneLine(s1, g, isErr, job);
    var line := [Scan(g, isErr, Gn.Got(Gn.Line(job, !job)), FINE), Scan(g, isErr, Gn.Eof, FINE)];
    ScansTwice(s, s1, Run(s1, line), g);
    acts := before + line;
    Append(s, before, line);
  }

  // ---- keepRunnerAlive to its next Start --------------------------------------------------------

  /** In front of the check, which lets it through. */
  predicate AtOpenCheck(s: Agent) {
    && s.sup.pc.Top? && s.sup.retryCount <= 5 && !s.cmd.running
    && s.svc.db != Garbage && !JobOver(s.svc.db) && (JobKnown(s.svc.db) ==> s.svc.alive)
  }

  lemma NextStart(s: Agent)
    requires AtOpenCheck(s) && s.cmd.holder.Nobody?
    ensures var go := Sup(Go, FINE); var s' := Run(s, [go, go, go]);
      s' == s.(sup := s'.sup, svc := s.svc.(log := s'.svc.log), cmd := s.cmd.(running := true, gens := s.cmd.gens + [Gn.NEWGEN]))
  {
    var go := Sup(Go, FINE);
    Steps3(s, go, go, go);
    var s1 := Step(s, go);
    assert s1.sup == s.sup.(pc := TopDb, aliveSeen := s.svc.alive);
    var s2 := Step(s1, go);
    assert s2.sup.pc.StartCall?;
  }

  /** The lock is given back, the check passed, and a further generation started. */
  lemma NextGen(s: Agent) returns (acts: seq<Act>)
    requires Base.Inv(s) && AtOpenCheck(s)
    ensures AllPlain(acts)
    ensures var s' := Run(s, acts); var n := |s.cmd.gens|;
      && s'.svc.db == s.svc.db && s'.svc.alive == s.svc.alive
      && |s'.cmd.gens| == n + 1 && s'.cmd.gens[n] == Gn.NEWGEN
      && forall g :: 0 <= g < n ==> Alike(s.cmd.gens[g], s'.cmd.gens[g])
  {
    var go := Sup(Go, FINE);
    acts := FreeLock(s);
    NextStart(Run(s, acts));
    Append(s, acts, [go, go, go]);
    acts := acts + [go, go, go];
  }

  // ---- the three ways ---------------------------------------------------------------------------

  /** The start is on record and the bit is up: the check lets the supervisor through. */
  lemma ByBit(s: Agent) returns (acts: seq<Act>)
    requires Base.Inv(s) && AtOpenCheck(s) && JobKnown(s.svc.db)
    ensures AllPlain(acts) && LaunchesAfterJob(s, acts)
  {
    var next := NextGen(s);
    var launch := LaunchGen(Run(s, next), |s.cmd.gens|);
    LaunchesLater(s, next, launch);
    acts := next + launch;
  }

  /** A scanner still reads: it puts the bit up, and has the start recorded after the check. */
  lemma ByScanner(s: Agent, g: nat, isErr: bool) returns (acts: seq<Act>)
    requires Base.Inv(s) && Scans(s, g, isErr)
    requires s.sup.pc.Top? && s.sup.retryCount <= 5 && !s.cmd.running && !JobOver(s.svc.db)
    ensures AllPlain(acts) && LaunchesAfterJob(s, acts)
  {
    var listens := ReadLine(s, g, isErr, false);
    var s1 := Run(s, listens);
    Base.RunInv(s, listens);
    var next := NextGen(s1);
    var s2 := Run(s1, next);
    assert Alike(s1.cmd.gens[g], s2.cmd.gens[g]);
    var starts := ReadLine(s2, g, isErr, true);
    var launch := LaunchGen(Run(s2, starts), |s.cmd.gens|);
    LaunchesLater(s2, starts, launch);
    LaunchesLater(s1, next, starts + launch);
    LaunchesLater(s, listens, next + (starts + launch));
    acts := listens + (next + (starts + launch));
  }

  /** A generation was stopped on the way to its launch: the next one runs a job first. */
  lemma ByOldLaunch(s: Agent, g: nat) returns (acts: seq<Act>)
    requires Sound(s) && g < |s.cmd.gens| && !Past(s.cmd.gens[g])
    requires s.sup.pc.Top? && s.sup.retryCount <= 5 && !s.cmd.running
    ensures AllPlain(acts) && LaunchesAfterJob(s, acts)
  {
    assert Gn.GenInv(s.cmd.gens[g]);
    if Job(s.svc.db) {
      acts := LaunchGen(s, g);
    } else {
      var n := |s.cmd.gens|;
      var next := NextGen(s);
      var s1 := Run(s, next);
      assert Alike(s.cmd.gens[g], s1.cmd.gens[g]);
      var first := LaunchGen(s1, n);
      var s2 := Run(s1, first);
      var starts := ReadLine(s2, n, false, true);
      var launch := LaunchGen(Run(s2, starts), g);
      LaunchesLater(s2, starts, launch);
      LaunchesLater(s1, first, starts + launch);
      LaunchesLater(s, next, first + (starts + launch));
      acts := next + (first + (starts + launch));
    }
  }

  /** A sleep that has just ended in a state that is not clear. */
  lemma NotClearRelaunches(s: Agent) returns (acts: seq<Act>)
    requires Sound(s) && s.sup.pc.Top? && s.sup.retryCount <= 5 && !s.cmd.running && !Clear(s)
    ensures AllPlain(acts) && LaunchesAfterJob(s, acts)
  {
    if g: nat :| g < |s.cmd.gens| && !Past(s.cmd.gens[g]) {
      acts := ByOldLaunch(s, g);
    } else if JobKnown(s.svc.db) && s.svc.alive {
      acts := ByBit(s);
    } else {
      var g: nat :| g < |s.cmd.gens| && !AtRest(s.cmd.gens[g]);
      acts := ByScanner(s, g, !Gn.Idle(s.cmd.gens[g].err));
    }
  }

  /** The state after a sleep that ends by its timer. */
  function SleptOut(s: Agent): Agent { Step(s, Sup(Timer, FINE)) }

  /**
   * Once no restart, exactly: in every reachable state in which keepRunnerAlive sleeps after a
   * wake-up, with every database access succeeding, the end of that sleep can lead to a launch with
   * a job on record - all later sleeps ending in clear states - if and only if the state is not
   * clear. The job may be recorded before the check or between the check and the launch.
   */
  lemma RestartExactly(db: Stored, acts: seq<Act>)
    requires Plausible(db) && AllDbOk(acts)
    requires var s := Run(Agent0(db), acts); s.sup.pc.WakeSleep? && !s.sup.late
    ensures var s := Run(Agent0(db), acts);
      (exists more: seq<Act> :: AllDbOk(more) && AllClear(SleptOut(s), more) && LaunchesAfterJob(SleptOut(s), more))
        <==> !Clear(s)
  {
    BootSafe(db);
    RunSound(Agent0(db), acts);
    var s := Run(Agent0(db), acts);
    var s' := SleptOut(s);
    assert s' == s.(sup := s.sup.(pc := Top));
    StepSafe(s, Sup(Timer, FINE));
    if Clear(s) {
      forall more: seq<Act> | AllDbOk(more) && AllClear(s', more)
        ensures !LaunchesAfterJob(s', more)
      {
        CleanStart(s);
        RunSafe(s', more);
      }
    } else {
      var more := NotClearRelaunches(s');
      PlainIsClear(s', more);
    }
  }

  lemma CleanStart(s: Agent)
    requires Sound(s) && Clear(s) && s.sup.pc.WakeSleep? && !s.sup.late
    ensures Safe(SleptOut(s))
  {
    StepSafe(s, Sup(Timer, FINE));
  }
}
