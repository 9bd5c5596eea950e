/** `runnerCmd` of `service/runner/runner.go` as an object: Start, Stop, the scanner loop, and one
    generation of executeCommand from its launch to its last callback. */
module RunnerCmd {
  import opened Executor
  import Gn = Runner
  import opened Service
  import opened Supervisor

  /** What the callbacks of a generation meet: the k-th one its own outcome of the database access
      and its own clock. */
  type World = nat -> Io

  /** The callbacks taken one after the other, the first of them meeting `w(n)`. */
  function Effects(v: Svc, calls: seq<Gn.Call>, n: nat, w: World): Svc {
    if calls == [] then v
    else Effect(Effects(v, calls[..|calls| - 1], n, w), [calls[|calls| - 1]], w(n + |calls| - 1))
  }

  lemma EffectsMore(v: Svc, calls: seq<Gn.Call>, c: Gn.Call, n: nat, w: World)
    ensures Effects(v, calls + [c], n, w) == Effect(Effects(v, calls, n, w), [c], w(n + |calls|))
  {
    assert (calls + [c])[..|calls|] == calls;
  }

  lemma {:induction false} EffectsApart(v: Svc, a: seq<Gn.Call>, b: seq<Gn.Call>, n: nat, w: World)
    ensures Effects(v, a + b, n, w) == Effects(Effects(v, a, n, w), b, n + |a|, w)
  {
    if b == [] {
      assert a + b == a;
    } else {
      var front, last := b[..|b| - 1], b[|b| - 1];
      EffectsApart(v, a, front, n, w);
      EffectsMore(v, a + front, last, n, w);
      assert a + front + [last] == a + b;
    }
  }

  lemma LineCallsMore(lines: seq<Gn.Line>, i: nat)
    requires i < |lines|
    ensures Gn.LineCalls(lines[..i + 1]) == Gn.LineCalls(lines[..i]) + Gn.LineCall(lines[i])
    ensures Gn.Matched(lines[..i + 1]) <==> Gn.Matched(lines[..i]) || lines[i].job
  {
    assert lines[..i + 1] == lines[..i] + [lines[i]] && lines[..i + 1][..i] == lines[..i];
    Gn.MatchedMore(lines[..i], lines[i]);
  }

  lemma EffectsLine(v: Svc, calls: seq<Gn.Call>, line: Gn.Line, n: nat, w: World)
    ensures Effects(v, calls + Gn.LineCall(line), n, w) == Effect(Effects(v, calls, n, w), Gn.LineCall(line), w(n + |calls|))
  {
    if Gn.LineCall(line) == [] {
      assert calls + [] == calls;
    } else {
      EffectsMore(v, calls, Gn.LineCall(line)[0], n, w);
    }
  }

  /** The line says that the runner listens, and not that a job has started. */
  predicate Listens(line: Gn.Line) { line.runner && !line.job }

  /** The message a matching line leads to. */
  predicate Sends(e: Entry, line: Gn.Line) {
    if line.job then e == Entry(Active, ByJobCallback) else e.origin.ByRunnerCallback?
  }

  /** What a scanner's lines do to the service: the bit goes up exactly when one of them says that
      the runner listens, and with a runner command in place each matching line sends one message. */
  ghost predicate Told(v: Svc, v': Svc, lines: seq<Gn.Line>) {
    var telling := Gn.Telling(lines);
    && v'.hasCmd == v.hasCmd
    && (v'.alive <==> v.alive || exists l :: l in lines && Listens(l))
    && (!v.hasCmd ==> v'.log == v.log)
    && (v.hasCmd ==>
          && |v'.log| == |v.log| + |telling| && v.log <= v'.log
          && forall k :: 0 <= k < |telling| ==> Sends(v'.log[|v.log| + k], telling[k]))
  }

  lemma LineTold(v: Svc, line: Gn.Line, io: Io)
    ensures var v' := Effect(v, Gn.LineCall(line), io);
      && v'.hasCmd == v.hasCmd && (v'.alive <==> v.alive || Listens(line))
      && (!v.hasCmd || !(line.job || line.runner) ==> v'.log == v.log)
      && (v.hasCmd && (line.job || line.runner) ==>
            |v'.log| == |v.log| + 1 && v.log <= v'.log && Sends(v'.log[|v.log|], line))
  {
  }

  lemma MoreTold(v: Svc, v1: Svc, v2: Svc, lines: seq<Gn.Line>, line: Gn.Line)
    requires Told(v, v1, lines)
    requires v2.hasCmd == v1.hasCmd && (v2.alive <==> v1.alive || Listens(line))
    requires !v1.hasCmd || !(line.job || line.runner) ==> v2.log == v1.log
    requires v1.hasCmd && (line.job || line.runner) ==>
      |v2.log| == |v1.log| + 1 && v1.log <= v2.log && Sends(v2.log[|v1.log|], line)
    ensures Told(v, v2, lines + [line])
  {
    var all := lines + [line];
    assert all[..|lines|] == lines && all[|lines|] == line;
    assert forall l :: l in all <==> l in lines || l == line;
  }

  lemma {:induction false} LinesTold(v: Svc, lines: seq<Gn.Line>, n: nat, w: World)
    ensures Told(v, Effects(v, Gn.LineCalls(lines), n, w), lines)
  {
    if lines != [] {
      var front, last := lines[..|lines| - 1], lines[|lines| - 1];
      LinesTold(v, front, n, w);
      assert lines == front + [last];
      var calls := Gn.LineCalls(front);
      EffectsLine(v, calls, last, n, w);
      LineTold(Effects(v, calls, n, w), last, w(n + |calls|));
      MoreTold(v, Effects(v, calls, n, w), Effects(v, Gn.LineCalls(lines), n, w), front, last);
    }
  }

  /** The bit is down, and with a runner command in place that is reported, and after a job the end
      of the job as well. */
  predicate Concluded(v: Svc, v': Svc, jobStarted: bool) {
    var n := |v.log|;
    && !v'.alive && v'.hasCmd == v.hasCmd
    && (!v.hasCmd ==> v'.log == v.log)
    && (v.hasCmd ==>
          && |v'.log| == n + (if jobStarted then 2 else 1) && v.log <= v'.log
          && v'.log[n].origin.ByRunnerCallback? && v'.log[n].status in {Offline, Terminated}
          && (jobStarted ==> v'.log[n + 1] == Entry(Terminated, ByJobCallback)))
  }

  /** A whole generation at the service: its lines were told, then its end. */
  ghost predicate Spoke(v: Svc, v': Svc, lines: seq<Gn.Line>) {
    exists told :: Told(v, told, lines) && Concluded(told, v', Gn.Matched(lines))
  }

  lemma TailEffects(v: Svc, jobStarted: bool, n: nat, w: World)
    ensures var v1 := Effect(v, [Gn.RunnerStarted(false)], w(n));
      Effects(v, Gn.Tail(Gn.XDone, jobStarted), n, w) == if jobStarted then Effect(v1, [Gn.JobFinished], w(n + 1)) else v1
  {
    EffectsMore(v, [], Gn.RunnerStarted(false), n, w);
    assert [] + [Gn.RunnerStarted(false)] == [Gn.RunnerStarted(false)];
    if jobStarted {
      EffectsMore(v, [Gn.RunnerStarted(false)], Gn.JobFinished, n, w);
      assert [Gn.RunnerStarted(false)] + [Gn.JobFinished] == Gn.Tail(Gn.XDone, true);
    }
  }

  lemma TailConcludes(v: Svc, jobStarted: bool, io: Io, io': Io)
    ensures var v1 := Effect(v, [Gn.RunnerStarted(false)], io);
      Concluded(v, if jobStarted then Effect(v1, [Gn.JobFinished], io') else v1, jobStarted)
  {
  }

  class Command {
    const st: Service
    var running: bool
    var doneClosed: bool
    var executor: PlatformExecutor
    var generations: nat
    var cmdErr: bool

    /** NewRunnerCommand: `done` is the package's closed channel. */
    constructor (st: Service)
      ensures this.st == st && !running && doneClosed && generations == 0 && !cmdErr
      ensures fresh(executor) && executor.View() == NEW
    {
      this.st := st;
      running, doneClosed, generations, cmdErr := false, true, 0, false;
      executor := new PlatformExecutor();
    }

    /** With a generation running nothing happens; setupCommand failing changes nothing either. */
    method Start(setupOk: bool) returns (err: bool)
      modifies this
      ensures err == (!old(running) && !setupOk)
      ensures old(running) || err ==>
        && executor == old(executor) && doneClosed == old(doneClosed)
        && running == old(running) && generations == old(generations)
      ensures !old(running) && !err ==>
        running && !doneClosed && generations == old(generations) + 1 && fresh(executor) && executor.View() == NEW
      ensures cmdErr == old(cmdErr)
    {
      err := false;
      if running {
        return;
      }
      if !setupOk {
        return true;
      }
      executor := new PlatformExecutor();
      doneClosed, running, generations := false, true, generations + 1;
    }

    /** The caller that finds the command running closes `done` and cleans up; the others return. */
    method Stop(s: Script) returns (err: bool)
      requires Executor.Inv(executor.View()) && !executor.once.Busy?
      requires running ==> !doneClosed
      modifies this`running, this`doneClosed, executor
      ensures !running && doneClosed == (old(running) || old(doneClosed))
      ensures executor.View() == if old(running) then CleanupAlone(old(executor.View()), s) else old(executor.View())
      ensures err == (old(running) && old(executor.once).Fresh? && executor.View().verdict.KillFailed?)
    {
      err := false;
      if !running {
        return;
      }
      doneClosed, running := true, false;
      err := executor.Cleanup(s);
    }

    /** The body of the scanner loop for one line. */
    method HandleLine(line: Gn.Line, n: nat, w: World) returns (made: nat)
      modifies st, st.agentState
      ensures st.View() == Effect(old(st.View()), Gn.LineCall(line), w(n)) && made == n + |Gn.LineCall(line)|
    {
      made := n;
      if line.job {
        st.SetJobStarted(w(n).now, w(n).commits);
        made := n + 1;
      } else if line.runner {
        st.SetRunnerStarted(true, w(n).readable);
        made := n + 1;
      }
    }

    /** One output scanner, `n` callbacks into the generation; it reports whether it saw a job
        start, and how many callbacks there were then. */
    method ScanOutput(lines: seq<Gn.Line>, n: nat, w: World) returns (jobStarted: bool, made: nat)
      modifies st, st.agentState
      ensures st.View() == Effects(old(st.View()), Gn.LineCalls(lines), n, w)
      ensures Told(old(st.View()), st.View(), lines)
      ensures jobStarted <==> Gn.Matched(lines)
      ensures made == n + |Gn.Telling(lines)| == n + |Gn.LineCalls(lines)|
    {
      jobStarted, made := false, n;
      ghost var v, calls := st.View(), [];
      var i := 0;
      while i < |lines|
        invariant i <= |lines| && calls == Gn.LineCalls(lines[..i]) && made == n + |calls|
        invariant st.View() == Effects(v, calls, n, w)
        invariant jobStarted <==> Gn.Matched(lines[..i])
      {
        LineCallsMore(lines, i);
        EffectsLine(v, calls, lines[i], n, w);
        made := HandleLine(lines[i], made, w);
        jobStarted, calls, i := jobStarted || lines[i].job, calls + Gn.LineCall(lines[i]), i + 1;
      }
      assert lines[..i] == lines;
      Gn.LineCallsTell(lines);
      LinesTold(v, lines, n, w);
    }

    /** Both scanners, one after the other. */
    method ScanBoth(out: seq<Gn.Line>, err: seq<Gn.Line>, w: World) returns (jobStarted: bool, made: nat)
      modifies st, st.agentState
      ensures st.View() == Effects(old(st.View()), Gn.LineCalls(out + err), 0, w)
      ensures Told(old(st.View()), st.View(), out + err)
      ensures jobStarted <==> Gn.Matched(out + err)
      ensures made == |Gn.LineCalls(out + err)|
    {
      var o, e;
      o, made := ScanOutput(out, 0, w);
      e, made := ScanOutput(err, made, w);
      jobStarted := o || e;
      BothScanners(old(st.View()), out, err, w);
      LinesTold(old(st.View()), out + err, 0, w);
    }

    /** The deferred part of executeCommand once the scanners are through. */
    method FinishGeneration(jobStarted: bool, n: nat, w: World)
      modifies st, st.agentState
      ensures st.View() == Effects(old(st.View()), Gn.Tail(Gn.XDone, jobStarted), n, w)
      ensures Concluded(old(st.View()), st.View(), jobStarted)
    {
      TailEffects(old(st.View()), jobStarted, n, w);
      TailConcludes(old(st.View()), jobStarted, w(n), w(n + 1));
      st.SetRunnerStarted(false, w(n).readable);
      if jobStarted {
        st.SetJobFinished(w(n + 1).now, w(n + 1).commits);
      }
    }

    /** The process from its launch to its exit, and the deferred Stop. */
    method RunProcess(pipesOk: bool, startOk: bool, waitErr: bool, s: Script)
      requires running && !doneClosed && executor.View() == NEW
      modifies this`cmdErr, this`running, this`doneClosed, executor
      ensures !running && doneClosed
      ensures cmdErr == (!pipesOk || !startOk || waitErr)
      ensures executor.View().verdict == if pipesOk && startOk then SawExit else NoProcess
      ensures executor.signals == []
    {
      var failed := true;
      if pipesOk {
        failed := executor.StartCommand(startOk);
        if !failed {
          failed := executor.Wait(waitErr);
        }
      }
      cmdErr := failed;
      var stopErr := Stop(s);
    }

    /** Everything after the deferred Stop; without a process the scanners have nothing to read. */
    method Conclude(ran: bool, out: seq<Gn.Line>, err: seq<Gn.Line>, w: World) returns (ghost calls: seq<Gn.Call>)
      modifies st, st.agentState
      ensures var lines := if ran then out + err else [];
        calls == Gn.LineCalls(lines) + Gn.Tail(Gn.XDone, Gn.Matched(lines))
      ensures st.View() == Effects(old(st.View()), calls, 0, w)
      ensures Spoke(old(st.View()), st.View(), if ran then out + err else [])
    {
      var jobStarted, n := false, 0;
      ghost var lines := [];
      if ran {
        jobStarted, n := ScanBoth(out, err, w);
        lines := out + err;
      } else {
        LinesTold(old(st.View()), [], 0, w);
      }
      ghost var told := st.View();
      FinishGeneration(jobStarted, n, w);
      assert Told(old(st.View()), told, lines) && Concluded(told, st.View(), jobStarted);
      calls := Gn.LineCalls(lines) + Gn.Tail(Gn.XDone, jobStarted);
      EffectsApart(old(st.View()), Gn.LineCalls(lines), Gn.Tail(Gn.XDone, jobStarted), 0, w);
    }

    /**
     * executeCommand with its scanners run one after the other: a pipe that fails, a process that
     * does not start, or one that runs, writes its lines and exits. In every case the command is
     * not running in the end, and the callbacks are those of a finished generation.
     */
    method ExecuteCommand(pipesOk: bool, startOk: bool, out: seq<Gn.Line>, err: seq<Gn.Line>, waitErr: bool, s: Script, w: World)
      returns (ghost calls: seq<Gn.Call>)
      requires running && !doneClosed && executor.View() == NEW
      modifies this`cmdErr, this`running, this`doneClosed, executor, st, st.agentState
      ensures !running && doneClosed
      ensures cmdErr == (!pipesOk || !startOk || waitErr)
      ensures var lines := if pipesOk && startOk then out + err else [];
        calls == Gn.LineCalls(lines) + Gn.Tail(Gn.XDone, Gn.Matched(lines))
      ensures st.View() == Effects(old(st.View()), calls, 0, w)
      ensures Spoke(old(st.View()), st.View(), if pipesOk && startOk then out + err else [])
      ensures executor.View().verdict == if pipesOk && startOk then SawExit else NoProcess
      ensures executor.signals == []
    {
      RunProcess(pipesOk, startOk, waitErr, s);
      calls := Conclude(pipesOk && startOk, out, err, w);
    }
  }

  lemma BothScanners(v: Svc, a: seq<Gn.Line>, b: seq<Gn.Line>, w: World)
    ensures |Gn.LineCalls(a + b)| == |Gn.LineCalls(a)| + |Gn.LineCalls(b)|
    ensures Effects(v, Gn.LineCalls(a + b), 0, w)
         == Effects(Effects(v, Gn.LineCalls(a), 0, w), Gn.LineCalls(b), |Gn.LineCalls(a)|, w)
    ensures Gn.Matched(a + b) <==> Gn.Matched(a) || Gn.Matched(b)
  {
    Gn.LineCallsApart(a, b);
    EffectsApart(v, Gn.LineCalls(a), Gn.LineCalls(b), 0, w);
    assert forall l :: l in a + b <==> l in a || l in b;
    if l :| l in a && l.job {
      assert l in a + b;
    }
    if l :| l in b && l.job {
      assert l in a + b;
    }
  }
}
