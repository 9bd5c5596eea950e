/** Why the hypotheses of the supervisor's theorems are there: runs of the agent that break the
    conclusion when one of them is dropped. What exactly lets a restart through at the end of a sleep
    is in `SupervisorRelaunch` and `SupervisorExact`; here is the guard of the check itself. */
module SupervisorLimits {
  import opened Wrappers
  import opened JobState
  import Exec = Executor
  import Gn = Runner
  import opened Service
  import opened Supervisor
  import opened SupervisorSafety
  import opened SupervisorRestart
  import opened SupervisorTerminated

  /**
   * The check before Start, with a job on record: keepRunnerAlive goes on to start a process
   * exactly when the record could not be read, or it saw the liveness bit still up and no finish
   * is on record. A job that is recorded after the check is past this guard.
   */
  lemma RestartGuard(s: Agent, io: Io)
    requires s.sup.pc.TopDb? && JobKnown(s.svc.db)
    ensures SupStep(s, Go, io).sup.pc.StartCall? <==>
      !io.readable || (s.sup.aliveSeen && !JobOver(s.svc.db))
  {
  }

  // ---- runs step by step ----------------------------------------------------------------------

  lemma {:induction false} Append(s: Agent, a: seq<Act>, b: seq<Act>)
    ensures Run(s, a + b) == Run(Run(s, a), b)
    decreases |a|
  {
    if a == [] {
      assert a + b == b;
    } else {
      assert (a + b)[1..] == a[1..] + b;
      Append(Step(s, a[0]), a[1..], b);
    }
  }

  lemma OneMore(s: Agent, acts: seq<Act>, a: Act)
    ensures Run(s, acts + [a]) == Step(Run(s, acts), a)
  {
    Append(s, acts, [a]);
    assert [a][1..] == [] && Run(Run(s, acts), [a]) == Run(Step(Run(s, acts), a), []);
  }

  lemma Steps2(s: Agent, a: Act, b: Act)
    ensures Run(s, [a, b]) == Step(Step(s, a), b)
  {
    assert [a, b][1..] == [b] && [b][1..] == [];
    assert Run(Step(s, a), [b]) == Run(Step(Step(s, a), b), []);
  }

  lemma Steps4(s: Agent, a: Act, b: Act, c: Act, d: Act)
    ensures Run(s, [a, b, c, d]) == Step(Step(Step(Step(s, a), b), c), d)
  {
    Steps2(s, a, b);
    Steps2(Step(Step(s, a), b), c, d);
    Append(s, [a, b], [c, d]);
    assert [a, b] + [c, d] == [a, b, c, d];
  }

  lemma Steps3(s: Agent, a: Act, b: Act, c: Act)
    ensures Run(s, [a, b, c]) == Step(Step(Step(s, a), b), c)
  {
    Steps2(s, a, b);
    Append(s, [a, b], [c]);
    assert [a, b] + [c] == [a, b, c] && [c][1..] == [];
    assert Run(Step(Step(s, a), b), [c]) == Run(Step(Step(Step(s, a), b), c), []);
  }

  /** Two stretches of a run put together. */
  lemma Join(s: Agent, a: seq<Act>, mid: Agent, b: seq<Act>, end: Agent) returns (acts: seq<Act>)
    requires Run(s, a) == mid && Run(mid, b) == end
    ensures acts == a + b && Run(s, acts) == end
  {
    Append(s, a, b);
    acts := a + b;
  }

  const FINE := Io(true, true, 0)
  const BLIND := Io(false, true, 0)
  const OFFLINE := Entry(Offline, BySupervisor)
  const CALM := Exec.Outcome(false, true, true)

  /** The runner command is in place and nothing was started. */
  function Ready(db: Stored): Agent {
    Agent(Svc(db, false, true, [OFFLINE]), false, Thread(Top, false, false, 0, 0, 0, 0),
          Cmd(false, Nobody, [], false), None, 0, 0)
  }

  /** keepRunnerAlive in its select with the first generation just started. */
  function Up(db: Stored): Agent {
    Agent(Svc(db, false, true, [OFFLINE, OFFLINE]), false, Thread(Select, false, false, 0, 1, 0, 0),
          Cmd(true, Nobody, [Gn.NEWGEN], false), None, 0, 0)
  }

  lemma ToReady(db: Stored, io: Io)
    requires db == Absent || !io.readable
    ensures Run(Agent0(db), [Sup(Go, io), Sup(Go, io), Sup(Go, io), Sup(Go, io)]) == Ready(db)
  {
    var go := Sup(Go, io);
    Steps4(Agent0(db), go, go, go, go);
    var s2 := Step(Step(Agent0(db), go), go);
    assert s2.sup.pc.Create? && s2.svc.log == [OFFLINE];
  }

  lemma ToUp(db: Stored, io: Io)
    requires db == Absent || !io.readable
    ensures Run(Ready(db), [Sup(Go, io), Sup(Go, io), Sup(Go, io)]) == Up(db)
  {
    var go := Sup(Go, io);
    Steps3(Ready(db), go, go, go);
    var s2 := Step(Step(Ready(db), go), go);
    assert s2.sup.pc.StartCall? && s2.svc.log == [OFFLINE, OFFLINE];
  }

  /** From the boot to the select. */
  lemma BringUp(db: Stored, io: Io) returns (acts: seq<Act>)
    requires db == Absent || !io.readable
    ensures Run(Agent0(db), acts) == Up(db)
    ensures forall a :: a in acts ==> a == Sup(Go, io)
  {
    var go := Sup(Go, io);
    ToReady(db, io);
    ToUp(db, io);
    acts := Join(Agent0(db), [go, go, go, go], Ready(db), [go, go, go], Up(db));
  }

  // ---- reads that fail ------------------------------------------------------------------------

  /** The process of the generation was launched. */
  const LAUNCHED := Gn.NEWGEN.(x := Gn.AwaitExit, out := Gn.Reading, err := Gn.Reading, ex := Exec.NEW.(proc := Exec.Live))

  lemma ToLaunch(s: Agent, front: seq<Gn.Gen>, io: Io)
    requires s.cmd.gens == front + [Gn.NEWGEN]
    ensures var x := X(|front|, true, io);
      Run(s, [x, x, x, x]) ==
        s.(cmd := s.cmd.(gens := front + [LAUNCHED]), procStarts := s.procStarts + 1)
  {
    var g := |front|;
    var x := X(g, true, io);
    Steps4(s, x, x, x, x);
    var g2 := Gn.NEWGEN.(x := Gn.Spawn);
    var s1 := Step(s, x);
    assert s1.cmd.gens == front + [Gn.NEWGEN.(x := Gn.PipeErr)];
    var s2 := Step(s1, x);
    assert s2.cmd.gens == front + [g2];
    var s3 := Step(s2, x);
    assert s3.cmd.gens == front + [g2.(x := Gn.StartCmd, out := Gn.Reading, err := Gn.Reading)];
    assert Step(s3, x).cmd.gens == front + [LAUNCHED];
  }

  /** With a job on record, an agent whose reads fail starts a runner process. */
  lemma RestartWhenUnreadable(db: Stored) returns (acts: seq<Act>)
    ensures Timely(Agent0(db), acts)
    ensures Run(Agent0(db), acts).procStarts == 1 && Run(Agent0(db), acts).svc.db == db
  {
    var up := BringUp(db, BLIND);
    var x := X(0, true, BLIND);
    ToLaunch(Up(db), [], BLIND);
    assert [] + [Gn.NEWGEN] == [Gn.NEWGEN] && [] + [LAUNCHED] == [LAUNCHED];
    acts := Join(Agent0(db), up, Up(db), [x, x, x, x], Run(Up(db), [x, x, x, x]));
    assert forall a :: a in acts ==> a == Sup(Go, BLIND) || a == x;
    NoTimer(Agent0(db), acts);
  }

  lemma {:induction false} NoTimer(s: Agent, acts: seq<Act>)
    requires forall a :: a in acts && a.Sup? ==> !a.pick.Timer?
    ensures Timely(s, acts)
    decreases |acts|
  {
    if acts != [] {
      assert acts[0] in acts && forall a :: a in acts[1..] ==> a in acts;
      NoTimer(Step(s, acts[0]), acts[1..]);
    }
  }

  // ---- a stop that comes too early ------------------------------------------------------------

  /** Stopped before its process was launched. */
  const STOPPED := Gn.NEWGEN.(done := true, ex := Exec.NEW.(once := Exec.Spent, verdict := Exec.NoProcess))

  function Down(db: Stored, pc: SupPc, holder: Who): Agent {
    Up(db).(cancelled := true, sup := Up(db).sup.(pc := pc), cmd := Cmd(false, holder, [STOPPED], false))
  }

  lemma ToCleaned()
    ensures Run(Up(Absent), [Cancel, Sup(Quit, FINE), Stop(BySup), Cleanup(CALM)]) == Down(Absent, DeferStop, BySup)
  {
    var s := Up(Absent);
    Steps4(s, Cancel, Sup(Quit, FINE), Stop(BySup), Cleanup(CALM));
    var s2 := Step(Step(s, Cancel), Sup(Quit, FINE));
    assert s2.svc.log == s.svc.log;
    assert Step(s2, Stop(BySup)).cmd.gens == [Gn.Entered(Gn.NEWGEN)];
    assert Step(Step(s2, Stop(BySup)), Cleanup(CALM)).cmd.gens == [STOPPED];
  }

  lemma ToReturned()
    ensures Run(Down(Absent, DeferStop, BySup), [Stop(BySup), Sup(Go, FINE)]) == Down(Absent, Returned, Nobody)
  {
    var s := Down(Absent, DeferStop, BySup);
    Steps2(s, Stop(BySup), Sup(Go, FINE));
    assert Step(Step(s, Stop(BySup)), Sup(Go, FINE)).svc.log == s.svc.log;
  }

  lemma ToOrphan()
    ensures var x := X(0, true, FINE); var s := Run(Down(Absent, Returned, Nobody), [x, x, x, x]);
      s.sup.pc.Returned? && |s.cmd.gens| == 1 && Orphaned(s.cmd.gens[0].ex)
  {
    var x := X(0, true, FINE);
    Steps4(Down(Absent, Returned, Nobody), x, x, x, x);
  }

  /** Cancellation before executeCommand has launched the process: cleanup finds none and spends
      its Once, and the process comes up afterwards with nobody left to signal it. */
  lemma OrphanOnEarlyStop() returns (acts: seq<Act>)
    ensures var s := Run(Agent0(Absent), acts);
      s.sup.pc.Returned? && |s.cmd.gens| == 1 && Orphaned(s.cmd.gens[0].ex)
  {
    var s0, s1, s2, s3 := Agent0(Absent), Up(Absent), Down(Absent, DeferStop, BySup), Down(Absent, Returned, Nobody);
    var x := X(0, true, FINE);
    acts := BringUp(Absent, FINE);
    ToCleaned();
    acts := Join(s0, acts, s1, [Cancel, Sup(Quit, FINE), Stop(BySup), Cleanup(CALM)], s2);
    ToReturned();
    acts := Join(s0, acts, s2, [Stop(BySup), Sup(Go, FINE)], s3);
    ToOrphan();
    acts := Join(s0, acts, s3, [x, x, x, x], Run(s3, [x, x, x, x]));
  }

  // ---- a sleep that ends before the teardown --------------------------------------------------

  const IDLELINE := Gn.Line(false, true)
  const JOBLINE := Gn.Line(true, false)

  const LISTENING := LAUNCHED.(lines := [IDLELINE], early := [Gn.RunnerStarted(true)], calls := [Gn.RunnerStarted(true)])
  const REAPED := Exec.Ex(Exec.Dead, Exec.WaitSpent, 1, true, Exec.Fresh, Exec.CheckProcess, [], Exec.Undecided, false)
  const EXITED := LISTENING.(x := Gn.StopCall, ex := REAPED)
  const CLEANED := REAPED.(once := Exec.Spent, pc := Exec.PollExited, verdict := Exec.SawExit)
  const DRAINING := EXITED.(x := Gn.Drain, done := true, ex := CLEANED)
  const JOBSEEN := DRAINING.(out := Gn.SetFlag, lines := [IDLELINE, JOBLINE],
                             early := [Gn.RunnerStarted(true), Gn.JobStarted],
                             calls := [Gn.RunnerStarted(true), Gn.JobStarted])
  const JOBDB := Encoded(State(true, false, Some(0), None))

  function Stage(db: Stored, log: seq<Entry>, t: Thread, running: bool, gens: seq<Gn.Gen>, starts: nat): Agent {
    Agent(Svc(db, true, true, [OFFLINE, OFFLINE, Entry(Idle, ByRunnerCallback)] + log), false, t,
          Cmd(running, Nobody, gens, false), None, starts, 0)
  }

  const SELECTING := Thread(Select, false, false, 0, 1, 0, 0)
  const SLEEPING := Thread(WakeSleep, true, false, 0, 1, 0, 0)
  const IDLE := Entry(Idle, BySupervisor)

  /** The runner listens: the liveness bit goes up. */
  lemma ToListening()
    ensures Run(Launched(), [Scan(0, false, Gn.Got(IDLELINE), FINE), Scan(0, false, Gn.Eof, FINE)])
         == Stage(Absent, [], SELECTING, true, [LISTENING], 1)
  {
    var s := Launched();
    var a, b := Scan(0, false, Gn.Got(IDLELINE), FINE), Scan(0, false, Gn.Eof, FINE);
    Steps2(s, a, b);
    var g := Step(s, a).cmd.gens[0];
    assert g.lines == [IDLELINE] && g.early == [] && g.calls == [];
    assert g == LAUNCHED.(lines := [IDLELINE], out := Gn.CallRunner);
    var h := Step(Step(s, a), b).cmd.gens[0];
    assert h.early == h.calls == [Gn.RunnerStarted(true)];
    assert Step(Step(s, a), b).cmd.gens == [LISTENING];
    assert Step(Step(s, a), b).svc.log == [OFFLINE, OFFLINE, Entry(Idle, ByRunnerCallback)] + [];
  }

  /** Its process exits and is reaped. */
  lemma ToExited(t: Thread)
    ensures var x := X(0, true, FINE);
      Run(Stage(Absent, [], t, true, [LISTENING], 1), [Exits(0), x, x, x] + [x])
        == Stage(Absent, [], t, true, [EXITED], 1)
  {
    var s := Stage(Absent, [], t, true, [LISTENING], 1);
    var x := X(0, true, FINE);
    Steps4(s, Exits(0), x, x, x);
    var g := LISTENING.(ex := REAPED);
    var s4 := s.(cmd := s.cmd.(gens := [g]));
    assert Step(Step(s, Exits(0)), x).cmd.gens == [LISTENING.(ex := LAUNCHED.ex.(proc := Exec.Dead, waiter := Exec.Waiting))];
    assert Step(Step(Step(s, Exits(0)), x), x).cmd.gens == [LISTENING.(ex := LAUNCHED.ex.(proc := Exec.Dead, waiter := Exec.Closing, reaps := 1))];
    assert Run(s, [Exits(0), x, x, x]) == s4;
    Append(s, [Exits(0), x, x, x], [x]);
    assert [x][1..] == [] && Run(s4, [x]) == Run(Step(s4, x), []);
    assert Step(s4, x).cmd.gens == [EXITED];
  }

  /** executeCommand closes `done` and starts to drain. */
  lemma ToDraining(t: Thread)
    requires !t.pc.DeferStop?
    ensures Run(Stage(Absent, [], t, true, [EXITED], 1),
                [Stop(ByX(0)), Cleanup(CALM), Cleanup(CALM), Stop(ByX(0))])
         == Stage(Absent, [], t, false, [DRAINING], 1)
  {
    var s := Stage(Absent, [], t, true, [EXITED], 1);
    Steps4(s, Stop(ByX(0)), Cleanup(CALM), Cleanup(CALM), Stop(ByX(0)));
    var s1 := Step(s, Stop(ByX(0)));
    assert s1.cmd.gens == [EXITED.(done := true, ex := REAPED.(once := Exec.Busy))];
    var s2 := Step(s1, Cleanup(CALM));
    assert s2.cmd.gens == [EXITED.(done := true, ex := REAPED.(once := Exec.Busy, pc := Exec.PollExited))];
    var s3 := Step(s2, Cleanup(CALM));
    assert s3.cmd.gens == [EXITED.(done := true, ex := CLEANED)];
    assert Step(s3, Stop(ByX(0))).cmd.gens == [DRAINING];
  }

  /** The supervisor wakes, finds the bit still up, and goes to sleep. */
  lemma ToSleeping()
    ensures var go := Sup(Go, FINE);
      Run(Stage(Absent, [], SELECTING, false, [DRAINING], 1), [go, go, go])
        == Stage(Absent, [IDLE], SLEEPING, false, [DRAINING], 1)
  {
    var s, go := Stage(Absent, [], SELECTING, false, [DRAINING], 1), Sup(Go, FINE);
    Steps3(s, go, go, go);
    var s2 := Step(Step(s, go), go);
    assert s2.svc.log == s.svc.log && s2.sup == SELECTING.(pc := WakeDb, aliveSeen := true);
    assert Step(s2, go).svc.log == [OFFLINE, OFFLINE, Entry(Idle, ByRunnerCallback)] + [IDLE];
  }

  /** Only now does the scanner reach the line that says a job has started. */
  lemma ToJobSeen()
    ensures Run(Stage(Absent, [IDLE], SLEEPING, false, [DRAINING], 1),
                [Scan(0, false, Gn.Got(JOBLINE), FINE), Scan(0, false, Gn.Eof, FINE)])
         == Stage(JOBDB, [IDLE, Entry(Active, ByJobCallback)], SLEEPING, false, [JOBSEEN], 1)
  {
    var s := Stage(Absent, [IDLE], SLEEPING, false, [DRAINING], 1);
    var a, b := Scan(0, false, Gn.Got(JOBLINE), FINE), Scan(0, false, Gn.Eof, FINE);
    Steps2(s, a, b);
    var g := Step(s, a).cmd.gens[0];
    assert g.lines == [IDLELINE, JOBLINE] && g.early == g.calls == [Gn.RunnerStarted(true)];
    assert g == DRAINING.(lines := [IDLELINE, JOBLINE], out := Gn.CallJob);
    var h := Step(Step(s, a), b).cmd.gens[0];
    assert h.early == h.calls == [Gn.RunnerStarted(true), Gn.JobStarted];
    assert Step(Step(s, a), b).cmd.gens == [JOBSEEN];
    assert Step(Step(s, a), b).svc.log ==
      [OFFLINE, OFFLINE, Entry(Idle, ByRunnerCallback)] + [IDLE, Entry(Active, ByJobCallback)];
  }

  /** The sleep ends, the check says Active, and a second generation is launched. */
  lemma ToSecond()
    ensures var go := Sup(Go, FINE); var x := X(1, true, FINE);
      var s := Stage(JOBDB, [IDLE, Entry(Active, ByJobCallback)], SLEEPING, false, [JOBSEEN], 1);
      Run(s, [Sup(Timer, FINE), go, go, go] + [x, x, x, x]).procStarts == 2
  {
    var go, x := Sup(Go, FINE), X(1, true, FINE);
    var s := Stage(JOBDB, [IDLE, Entry(Active, ByJobCallback)], SLEEPING, false, [JOBSEEN], 1);
    Steps4(s, Sup(Timer, FINE), go, go, go);
    var s2 := Step(Step(s, Sup(Timer, FINE)), go);
    assert s2.sup.pc.TopDb? && s2.sup.aliveSeen && s2.svc.db == JOBDB;
    var s4 := Step(Step(s2, go), go);
    assert s4.cmd.gens == [JOBSEEN] + [Gn.NEWGEN];
    ToLaunch(s4, [JOBSEEN], FINE);
    Append(s, [Sup(Timer, FINE), go, go, go], [x, x, x, x]);
  }

  function Launched(): Agent {
    Up(Absent).(cmd := Cmd(true, Nobody, [LAUNCHED], false), procStarts := 1)
  }

  lemma LaunchedRun() returns (acts: seq<Act>)
    ensures AllDbOk(acts) && Run(Agent0(Absent), acts) == Launched()
  {
    var x := X(0, true, FINE);
    acts := BringUp(Absent, FINE);
    ToLaunch(Up(Absent), [], FINE);
    assert [] + [Gn.NEWGEN] == [Gn.NEWGEN] && [] + [LAUNCHED] == [LAUNCHED];
    acts := Join(Agent0(Absent), acts, Up(Absent), [x, x, x, x], Launched());
  }

  /** A generation that is up and listening. */
  lemma ListeningRun() returns (acts: seq<Act>)
    ensures AllDbOk(acts)
    ensures Run(Agent0(Absent), acts) == Stage(Absent, [], SELECTING, true, [LISTENING], 1)
  {
    acts := LaunchedRun();
    ToListening();
    acts := Join(Agent0(Absent), acts, Launched(),
                 [Scan(0, false, Gn.Got(IDLELINE), FINE), Scan(0, false, Gn.Eof, FINE)],
                 Stage(Absent, [], SELECTING, true, [LISTENING], 1));
  }

  /** The same generation after its process exited, draining. */
  lemma DrainingRun() returns (acts: seq<Act>)
    ensures AllDbOk(acts)
    ensures Run(Agent0(Absent), acts) == Stage(Absent, [], SELECTING, false, [DRAINING], 1)
  {
    var s0, x := Agent0(Absent), X(0, true, FINE);
    var s2 := Stage(Absent, [], SELECTING, true, [LISTENING], 1);
    var s3 := Stage(Absent, [], SELECTING, true, [EXITED], 1);
    var s4 := Stage(Absent, [], SELECTING, false, [DRAINING], 1);
    acts := ListeningRun();
    ToExited(SELECTING);
    acts := Join(s0, acts, s2, [Exits(0), x, x, x] + [x], s3);
    ToDraining(SELECTING);
    acts := Join(s0, acts, s3, [Stop(ByX(0)), Cleanup(CALM), Cleanup(CALM), Stop(ByX(0))], s4);
  }

  /** A job on record, the supervisor asleep, and the liveness bit still up. */
  function AsleepWithJob(): Agent {
    Stage(JOBDB, [IDLE, Entry(Active, ByJobCallback)], SLEEPING, false, [JOBSEEN], 1)
  }

  lemma JobSeenRun() returns (acts: seq<Act>)
    ensures AllDbOk(acts) && Run(Agent0(Absent), acts) == AsleepWithJob()
  {
    var s0, go := Agent0(Absent), Sup(Go, FINE);
    var s4 := Stage(Absent, [], SELECTING, false, [DRAINING], 1);
    var s5 := Stage(Absent, [IDLE], SLEEPING, false, [DRAINING], 1);
    acts := DrainingRun();
    ToSleeping();
    acts := Join(s0, acts, s4, [go, go, go], s5);
    ToJobSeen();
    acts := Join(s0, acts, s5, [Scan(0, false, Gn.Got(JOBLINE), FINE), Scan(0, false, Gn.Eof, FINE)], AsleepWithJob());
  }

  /**
   * With every database operation succeeding, a sleep that ends before the old generation is torn
   * down lets a second runner process start although a job is on record: the scanner still had the
   * job-start line to read, and the liveness bit was still up.
   */
  lemma RestartWhenUntimely() returns (acts: seq<Act>, more: seq<Act>)
    ensures AllDbOk(acts) && AllDbOk(more)
    ensures var s := Run(Agent0(Absent), acts);
      JobKnown(s.svc.db) && Run(s, more).procStarts > s.procStarts
  {
    var go, x := Sup(Go, FINE), X(1, true, FINE);
    acts := JobSeenRun();
    ToSecond();
    more := [Sup(Timer, FINE), go, go, go] + [x, x, x, x];
  }
}
