/**
 * One generation of the runner process, `runnerCmd` in `service/runner/runner.go`: executeCommand
 * with its two output scanners and its ordered teardown, and the small loop that reacts to
 * cancellation. A generation is a state machine over their steps; the rest of the agent appears as
 * the steps `StopBegins`, `StopReturns` and `LoopWakes`, which may come at any time.
 */
module Runner {
  import opened Executor

  /** A line of output, by which of the two patterns it matches. */
  datatype Line = Line(job: bool, runner: bool)

  datatype ScanPc = NotSpawned | Reading | CallJob | SetFlag | CallRunner | ScanDone

  datatype XPc =
    | PipeOut | PipeErr | Spawn | StartCmd | AwaitExit
    | StopCall | Drain | GoOffline | CheckFlag | FinishCall | XDone

  datatype LoopPc = Selecting | LoopStop | LoopDone

  /** A callback into the service. */
  datatype Call = JobStarted | RunnerStarted(st: bool) | JobFinished

  /** `lines`, `early` and `calls` are history: the lines scanned, the callbacks made by the two
      scanners, and all callbacks. */
  datatype Gen = Gen(
    done: bool,
    x: XPc,
    loop: LoopPc,
    out: ScanPc,
    err: ScanPc,
    jobStarted: bool,
    ex: Ex,
    lines: seq<Line>,
    early: seq<Call>,
    calls: seq<Call>)

  const NEWGEN := Gen(false, PipeOut, Selecting, NotSpawned, NotSpawned, false, NEW, [], [], [])

  /** bufio.Scanner either hands out a line or stops. */
  datatype Scan = Got(line: Line) | Eof

  datatype GenAct =
    | X(ok: bool)
    | Scanner(isErr: bool, scan: Scan)
    | LoopWakes
    | Exits
    | StopBegins
    | CleanupBody(o: Outcome)
    | StopReturns(byLoop: bool)

  predicate Idle(pc: ScanPc) { pc.NotSpawned? || pc.ScanDone? }

  function ScanNext(g: Gen, pc: ScanPc, scan: Scan): ScanPc {
    match pc
    case Reading =>
      (match scan
       case Eof => ScanDone
       case Got(line) =>
         if g.ex.proc.NotStarted? then Reading
         else if line.job then CallJob
         else if line.runner then CallRunner
         else Reading)
    case CallJob => SetFlag
    case SetFlag => Reading
    case CallRunner => Reading
    case _ => pc
  }

  /** The callback the step makes, if any. */
  function ScanCalls(pc: ScanPc): seq<Call> {
    match pc
    case CallJob => [JobStarted]
    case CallRunner => [RunnerStarted(true)]
    case _ => []
  }

  function ScanStep(g: Gen, isErr: bool, scan: Scan): Gen {
    var pc := if isErr then g.err else g.out;
    var next := ScanNext(g, pc, scan);
    var read := pc.Reading? && scan.Got? && !g.ex.proc.NotStarted?;
    var g1 := g.(lines := if read then g.lines + [scan.line] else g.lines,
                 early := g.early + ScanCalls(pc),
                 calls := g.calls + ScanCalls(pc),
                 jobStarted := g.jobStarted || pc.SetFlag?);
    if isErr then g1.(err := next) else g1.(out := next)
  }

  function XCalls(g: Gen): seq<Call> {
    match g.x
    case GoOffline => [RunnerStarted(false)]
    case FinishCall => [JobFinished]
    case _ => []
  }

  function XStep(g: Gen, ok: bool): Gen {
    match g.x
    case PipeOut => g.(x := if ok then PipeErr else StopCall)
    case PipeErr => g.(x := if ok then Spawn else StopCall)
    case Spawn => g.(x := StartCmd, out := Reading, err := Reading)
    case StartCmd => g.(ex := Step(g.ex, StartCommand(ok)), x := if ok then AwaitExit else StopCall)
    case AwaitExit =>
      (match g.ex.waiter
       case WaitFresh => g.(ex := Step(g.ex, WaitCall))
       case Waiting => g.(ex := Step(g.ex, Reap))
       case Closing => g.(ex := Step(g.ex, CloseExited))
       case WaitSpent => g.(x := StopCall))
    case Drain => if Idle(g.out) && Idle(g.err) then g.(x := GoOffline) else g
    case GoOffline => g.(calls := g.calls + XCalls(g), x := CheckFlag)
    case CheckFlag => g.(x := if g.jobStarted then FinishCall else XDone)
    case FinishCall => g.(calls := g.calls + XCalls(g), x := XDone)
    case StopCall => g
    case XDone => g
  }

  function Entered(g: Gen): Gen {
    g.(done := true, ex := Step(g.ex, CleanupCall))
  }

  function Left(g: Gen, byLoop: bool): Gen {
    if byLoop then (if g.loop.LoopStop? then g.(loop := LoopDone) else g)
    else if g.x.StopCall? then g.(x := Drain) else g
  }

  function GenStep(g: Gen, a: GenAct): Gen {
    match a
    case X(ok) => XStep(g, ok)
    case Scanner(isErr, scan) => ScanStep(g, isErr, scan)
    case LoopWakes => if g.loop.Selecting? then g.(loop := LoopStop) else g
    case Exits => g.(ex := Step(g.ex, ProcessExit))
    case StopBegins => Entered(g)
    case CleanupBody(o) => g.(ex := Step(g.ex, Body(o)))
    case StopReturns(byLoop) => Left(g, byLoop)
  }

  function GenRun(g: Gen, acts: seq<GenAct>): Gen
    decreases |acts|
  {
    if acts == [] then g else GenRun(GenStep(g, acts[0]), acts[1..])
  }

  predicate Matched(lines: seq<Line>) {
    exists l :: l in lines && l.job
  }

  /** Only the scanners' callbacks. */
  predicate Early(calls: seq<Call>) {
    forall c :: c in calls ==> c == JobStarted || c == RunnerStarted(true)
  }

  predicate Scanned(g: Gen) { Idle(g.out) && Idle(g.err) }

  predicate BeforeStart(x: XPc) { x in {PipeOut, PipeErr, Spawn, StartCmd} }

  predicate AfterDrain(x: XPc) { x in {GoOffline, CheckFlag, FinishCall, XDone} }

  /** The callbacks after the scanners' own. */
  function Tail(x: XPc, finished: bool): seq<Call> {
    match x
    case CheckFlag => [RunnerStarted(false)]
    case FinishCall => [RunnerStarted(false)]
    case XDone => if finished then [RunnerStarted(false), JobFinished] else [RunnerStarted(false)]
    case _ => []
  }

  predicate Ordered(g: Gen) {
    && Early(g.early)
    && g.calls == g.early + Tail(g.x, g.jobStarted)
    && (g.x.FinishCall? ==> g.jobStarted)
  }

  predicate Flagged(g: Gen) {
    && (g.jobStarted ==> JobStarted in g.early)
    && (JobStarted in g.early ==> g.jobStarted || g.out.SetFlag? || g.err.SetFlag?)
    && (g.out.SetFlag? || g.err.SetFlag? ==> JobStarted in g.early)
    && (Matched(g.lines) <==> JobStarted in g.early || g.out.CallJob? || g.err.CallJob?)
  }

  /** Which threads can be where together. */
  predicate Shaped(g: Gen) {
    && (g.x in {PipeOut, PipeErr, Spawn} ==> g.out.NotSpawned? && g.err.NotSpawned?)
    && (AfterDrain(g.x) ==> Scanned(g))
    && (BeforeStart(g.x) ==> g.ex.proc.NotStarted?)
    && (g.x.AwaitExit? ==> !g.ex.proc.NotStarted?)
    && (g.ex.proc.NotStarted? ==> g.lines == [] && g.out !in {CallJob, CallRunner} && g.err !in {CallJob, CallRunner})
  }

  predicate GenInv(g: Gen) {
    Executor.Inv(g.ex) && Shaped(g) && Ordered(g) && Flagged(g)
  }

  lemma MatchedMore(lines: seq<Line>, l: Line)
    ensures Matched(lines + [l]) <==> Matched(lines) || l.job
  {
    if Matched(lines) {
      var m :| m in lines && m.job;
      assert m in lines + [l];
    }
    if l.job {
      assert l in lines + [l];
    }
  }

  lemma ScanOrdered(g: Gen, isErr: bool, scan: Scan)
    requires Ordered(g) && (AfterDrain(g.x) ==> Scanned(g))
    ensures Ordered(ScanStep(g, isErr, scan))
  {
    var calls := ScanCalls(if isErr then g.err else g.out);
    if AfterDrain(g.x) {
      assert calls == [];
      assert g.early + calls == g.early && g.calls + calls == g.calls;
    } else {
      assert g.calls == g.early;
    }
  }

  lemma ScanFlagged(g: Gen, isErr: bool, scan: Scan)
    requires Flagged(g)
    ensures Flagged(ScanStep(g, isErr, scan))
  {
    if scan.Got? {
      MatchedMore(g.lines, scan.line);
    }
    var pc := if isErr then g.err else g.out;
    assert JobStarted in g.early + ScanCalls(pc) <==> JobStarted in g.early || pc.CallJob?;
  }

  lemma ScanInv(g: Gen, isErr: bool, scan: Scan)
    requires GenInv(g)
    ensures GenInv(ScanStep(g, isErr, scan))
  {
    ScanOrdered(g, isErr, scan);
    ScanFlagged(g, isErr, scan);
  }

  lemma XOrdered(g: Gen, ok: bool)
    requires Ordered(g)
    ensures Ordered(XStep(g, ok))
  {
    if g.x.FinishCall? {
      assert g.calls + [JobFinished] == g.early + Tail(XDone, true);
    }
  }

  lemma XExecutor(g: Gen, ok: bool)
    requires Executor.Inv(g.ex)
    ensures Executor.Inv(XStep(g, ok).ex)
  {
    if g.x.StartCmd? {
      StepInv(g.ex, StartCommand(ok));
    } else if g.x.AwaitExit? {
      var a := match g.ex.waiter case WaitFresh => WaitCall case Waiting => Reap case _ => CloseExited;
      StepInv(g.ex, a);
    }
  }

  lemma XShaped(g: Gen, ok: bool)
    requires Shaped(g)
    ensures Shaped(XStep(g, ok))
  {
  }

  lemma XInv(g: Gen, ok: bool)
    requires GenInv(g)
    ensures GenInv(XStep(g, ok))
  {
    XOrdered(g, ok);
    XExecutor(g, ok);
    XShaped(g, ok);
  }

  lemma GenStepInv(g: Gen, a: GenAct)
    requires GenInv(g)
    ensures GenInv(GenStep(g, a))
  {
    match a
    case X(ok) => XInv(g, ok);
    case Scanner(isErr, scan) => ScanInv(g, isErr, scan);
    case Exits => StepInv(g.ex, ProcessExit);
    case StopBegins => StepInv(g.ex, CleanupCall);
    case CleanupBody(o) => StepInv(g.ex, Body(o));
    case LoopWakes =>
    case StopReturns(_) =>
  }

  lemma {:induction false} GenRunInv(g: Gen, acts: seq<GenAct>)
    requires GenInv(g)
    ensures GenInv(GenRun(g, acts))
    decreases |acts|
  {
    if acts != [] {
      GenStepInv(g, acts[0]);
      GenRunInv(GenStep(g, acts[0]), acts[1..]);
    }
  }

  /**
   * In every interleaving of the two scanners, the teardown and everybody's Stop: all
   * SetJobStarted and SetRunnerStarted(true) calls come before the single SetRunnerStarted(false),
   * and SetJobFinished follows it if and only if some scanned line matched job-start.
   */
  lemma CallbackOrder(acts: seq<GenAct>) returns (early: seq<Call>)
    ensures var g := GenRun(NEWGEN, acts);
      && Early(early)
      && g.calls == early + Tail(g.x, Matched(g.lines))
      && (g.x.XDone? ==> (JobStarted in early <==> Matched(g.lines)))
  {
    GenRunInv(NEWGEN, acts);
    early := GenRun(NEWGEN, acts).early;
  }

  // ---- when there is a process at all -------------------------------------------------------------

  /** A pipe cannot be had, or the process does not start. */
  predicate Fails(g: Gen, a: GenAct) {
    a == X(false) && g.x in {PipeOut, PipeErr, StartCmd}
  }

  ghost predicate SawFailure(g: Gen, acts: seq<GenAct>)
    decreases |acts|
  {
    acts != [] && (Fails(g, acts[0]) || SawFailure(GenStep(g, acts[0]), acts[1..]))
  }

  lemma LaunchStep(g: Gen, a: GenAct)
    requires GenInv(g)
    ensures var g' := GenStep(g, a);
      && (BeforeStart(g'.x) ==> BeforeStart(g.x) && !Fails(g, a))
      && (BeforeStart(g.x) && !BeforeStart(g'.x) ==> (g'.ex.proc.NotStarted? <==> Fails(g, a)))
      && (!BeforeStart(g.x) ==> !Fails(g, a) && (g'.ex.proc.NotStarted? <==> g.ex.proc.NotStarted?))
      && (BeforeStart(g'.x) ==> g'.ex.proc.NotStarted?)
      && (g.ex.proc.NotStarted? ==> g'.early == g.early)
  {
    if a.Scanner? {
      assert g.early + [] == g.early;
    }
    GenStepInv(g, a);
  }

  lemma {:induction false} LaunchRun(g: Gen, acts: seq<GenAct>)
    requires GenInv(g) && (g.ex.proc.NotStarted? ==> g.early == [])
    ensures var g' := GenRun(g, acts);
      && (g'.ex.proc.NotStarted? ==> g'.early == [])
      && (BeforeStart(g'.x) ==> BeforeStart(g.x) && !SawFailure(g, acts))
      && (BeforeStart(g.x) && !BeforeStart(g'.x) ==> (g'.ex.proc.NotStarted? <==> SawFailure(g, acts)))
      && (!BeforeStart(g.x) ==> (g'.ex.proc.NotStarted? <==> g.ex.proc.NotStarted?) && !SawFailure(g, acts))
    decreases |acts|
  {
    if acts != [] {
      LaunchStep(g, acts[0]);
      GenStepInv(g, acts[0]);
      LaunchRun(GenStep(g, acts[0]), acts[1..]);
    }
  }

  /**
   * In every interleaving a generation past its launch has no process exactly when a pipe or the
   * start failed, and one before its launch has met no failure. Without a process nothing is
   * scanned, and in the end the only callback is SetRunnerStarted(false).
   */
  lemma LaunchNeedsAll(acts: seq<GenAct>)
    ensures var g := GenRun(NEWGEN, acts);
      && (!BeforeStart(g.x) ==> (g.ex.proc.NotStarted? <==> SawFailure(NEWGEN, acts)))
      && (BeforeStart(g.x) ==> g.ex.proc.NotStarted? && !SawFailure(NEWGEN, acts))
      && (g.ex.proc.NotStarted? ==> g.lines == [])
      && (g.ex.proc.NotStarted? && g.x.XDone? ==> g.calls == [RunnerStarted(false)])
  {
    GenRunInv(NEWGEN, acts);
    LaunchRun(NEWGEN, acts);
  }

  // ---- what the scanners make of the lines ----------------------------------------------------------

  function PcOf(g: Gen, isErr: bool): ScanPc { if isErr then g.err else g.out }

  /** The job-start pattern is tried first. */
  function LineCall(line: Line): seq<Call> {
    if line.job then [JobStarted] else if line.runner then [RunnerStarted(true)] else []
  }

  /** What one scanner calls for its lines. */
  function LineCalls(lines: seq<Line>): seq<Call> {
    if lines == [] then [] else LineCalls(lines[..|lines| - 1]) + LineCall(lines[|lines| - 1])
  }

  lemma {:induction false} LineCallsApart(a: seq<Line>, b: seq<Line>)
    ensures LineCalls(a + b) == LineCalls(a) + LineCalls(b)
  {
    if b == [] {
      assert a + b == a;
    } else {
      var front := b[..|b| - 1];
      LineCallsApart(a, front);
      assert (a + b)[..|a + b| - 1] == a + front;
      assert (a + b)[|a + b| - 1] == b[|b| - 1];
    }
  }

  /** The lines that match one of the two patterns. */
  function Telling(lines: seq<Line>): seq<Line> {
    if lines == [] then []
    else
      var last := lines[|lines| - 1];
      Telling(lines[..|lines| - 1]) + if last.job || last.runner then [last] else []
  }

  /** One callback for every such line, in their order: a job start where the line says so, else the
      news that the runner is up. */
  predicate Tells(calls: seq<Call>, lines: seq<Line>) {
    var telling := Telling(lines);
    && |calls| == |telling|
    && forall k :: 0 <= k < |calls| ==> calls[k] == if telling[k].job then JobStarted else RunnerStarted(true)
  }

  lemma {:induction false} LineCallsTell(lines: seq<Line>)
    ensures Tells(LineCalls(lines), lines)
  {
    if lines != [] {
      LineCallsTell(lines[..|lines| - 1]);
    }
  }

  /** The line that a step makes one scanner read. */
  function ReadBy(g: Gen, a: GenAct, isErr: bool): seq<Line> {
    if a.Scanner? && a.isErr == isErr && PcOf(g, isErr).Reading? && a.scan.Got? && !g.ex.proc.NotStarted?
    then [a.scan.line] else []
  }

  /** The callbacks that a step of one scanner adds to the generation's. */
  function CalledBy(g: Gen, a: GenAct, isErr: bool): seq<Call> {
    var g' := GenStep(g, a);
    if a.Scanner? && a.isErr == isErr && |g.calls| <= |g'.calls| then g'.calls[|g.calls|..] else []
  }

  function LinesOf(g: Gen, acts: seq<GenAct>, isErr: bool): seq<Line>
    decreases |acts|
  {
    if acts == [] then [] else ReadBy(g, acts[0], isErr) + LinesOf(GenStep(g, acts[0]), acts[1..], isErr)
  }

  function CallsOf(g: Gen, acts: seq<GenAct>, isErr: bool): seq<Call>
    decreases |acts|
  {
    if acts == [] then [] else CalledBy(g, acts[0], isErr) + CallsOf(GenStep(g, acts[0]), acts[1..], isErr)
  }

  /** The callback a scanner is about to make. */
  function Pending(pc: ScanPc): seq<Call> {
    match pc
    case CallJob => [JobStarted]
    case CallRunner => [RunnerStarted(true)]
    case _ => []
  }

  lemma XPending(g: Gen, ok: bool, isErr: bool)
    requires Shaped(g)
    ensures Pending(PcOf(XStep(g, ok), isErr)) == Pending(PcOf(g, isErr))
  {
  }

  lemma ScanTells(g: Gen, isErr: bool, scan: Scan)
    requires Shaped(g)
    ensures var pc := PcOf(g, isErr); var read := ReadBy(g, Scanner(isErr, scan), isErr);
      ScanCalls(pc) + Pending(ScanNext(g, pc, scan)) == Pending(pc) + LineCalls(read)
  {
    var read := ReadBy(g, Scanner(isErr, scan), isErr);
    assert read != [] ==> read[..0] == [];
  }

  lemma StepTells(g: Gen, a: GenAct, isErr: bool)
    requires Shaped(g)
    ensures var g' := GenStep(g, a);
      CalledBy(g, a, isErr) + Pending(PcOf(g', isErr)) == Pending(PcOf(g, isErr)) + LineCalls(ReadBy(g, a, isErr))
  {
    if a.X? {
      XPending(g, a.ok, isErr);
    } else if a.Scanner? && a.isErr == isErr {
      ScanTells(g, isErr, a.scan);
      assert CalledBy(g, a, isErr) == ScanCalls(PcOf(g, isErr));
    }
  }

  lemma Shift(called: seq<Call>, mid: seq<Call>, calls: seq<Call>, end: seq<Call>, start: seq<Call>, a: seq<Call>, b: seq<Call>)
    requires called + mid == start + a && calls + end == mid + b
    ensures called + calls + end == start + (a + b)
  {
    assert called + calls + end == called + (calls + end);
    assert called + (mid + b) == called + mid + b;
    assert start + a + b == start + (a + b);
  }

  lemma {:induction false} RunTells(g: Gen, acts: seq<GenAct>, isErr: bool)
    requires GenInv(g)
    ensures CallsOf(g, acts, isErr) + Pending(PcOf(GenRun(g, acts), isErr))
         == Pending(PcOf(g, isErr)) + LineCalls(LinesOf(g, acts, isErr))
    decreases |acts|
  {
    if acts == [] {
      assert Pending(PcOf(g, isErr)) + [] == Pending(PcOf(g, isErr));
    } else {
      var g', read := GenStep(g, acts[0]), ReadBy(g, acts[0], isErr);
      StepTells(g, acts[0], isErr);
      GenStepInv(g, acts[0]);
      RunTells(g', acts[1..], isErr);
      LineCallsApart(read, LinesOf(g', acts[1..], isErr));
      Shift(CalledBy(g, acts[0], isErr), Pending(PcOf(g', isErr)), CallsOf(g', acts[1..], isErr),
            Pending(PcOf(GenRun(g, acts), isErr)), Pending(PcOf(g, isErr)),
            LineCalls(read), LineCalls(LinesOf(g', acts[1..], isErr)));
    }
  }

  /**
   * In every interleaving each scanner makes exactly one callback for each of its lines that
   * matches a pattern, in the order of the lines, job-start before runner-started. One may be on
   * its way while the scanner is between reading the line and making the call.
   */
  lemma EveryLineTold(acts: seq<GenAct>, isErr: bool)
    ensures var g := GenRun(NEWGEN, acts);
      Tells(CallsOf(NEWGEN, acts, isErr) + Pending(PcOf(g, isErr)), LinesOf(NEWGEN, acts, isErr))
    ensures Idle(PcOf(GenRun(NEWGEN, acts), isErr)) ==>
      Tells(CallsOf(NEWGEN, acts, isErr), LinesOf(NEWGEN, acts, isErr))
  {
    RunTells(NEWGEN, acts, isErr);
    LineCallsTell(LinesOf(NEWGEN, acts, isErr));
    NothingPending(CallsOf(NEWGEN, acts, isErr), PcOf(GenRun(NEWGEN, acts), isErr), LineCalls(LinesOf(NEWGEN, acts, isErr)));
  }

  lemma NothingPending(calls: seq<Call>, pc: ScanPc, all: seq<Call>)
    requires calls + Pending(pc) == [] + all
    ensures calls + Pending(pc) == all && (Idle(pc) ==> calls == all)
  {
    assert [] + all == all && calls + [] == calls;
  }
}
