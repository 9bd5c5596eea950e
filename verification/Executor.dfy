/**
 * `platformExecutor` of `service/runner/exec_nix.go`: one reaper, and a cleanup body that a
 * `sync.Once` lets through a single time whoever calls it and however often.
 *
 * Every step is one function of the executor's state; a step that is not enabled changes nothing,
 * so a schedule is any sequence of steps.
 */
module Executor {
  import opened Wrappers

  datatype Proc = NotStarted | Live | Dead

  /** Progress of the body under `waitOnce`: inside cmd.Wait, then about to close `exited`. */
  datatype WaitPc = WaitFresh | Waiting | Closing | WaitSpent

  datatype Once = Fresh | Busy | Spent

  /** Where the cleanup body is. */
  datatype Pc = CheckProcess | PollExited | SendTerm | Grace | SendKill

  /** `delivered` is false when both the group and the single-process kill call fail; `reaped` is
      history: whether the process had been reaped when the signal was sent. */
  datatype Signal = Sigterm(delivered: bool, reaped: bool) | GraceElapsed | Sigkill(delivered: bool, reaped: bool)

  datatype Verdict = Undecided | NoProcess | SawExit | Killed | KillFailed

  datatype Ex = Ex(
    proc: Proc,
    waiter: WaitPc,
    reaps: nat,
    exited: bool,
    once: Once,
    pc: Pc,
    signals: seq<Signal>,
    verdict: Verdict,
    panicked: bool)

  const NEW := Ex(NotStarted, WaitFresh, 0, false, Fresh, CheckProcess, [], Undecided, false)

  /** What the environment decides for one step of the cleanup body. */
  datatype Outcome = Outcome(timeout: bool, groupOk: bool, pidOk: bool)

  datatype Act =
    | StartCommand(ok: bool)
    | ProcessExit
    | WaitCall
    | Reap
    | CloseExited
    | CleanupCall
    | Body(o: Outcome)

  function Finish(e: Ex, v: Verdict): Ex {
    e.(once := Spent, verdict := v)
  }

  function BodyStep(e: Ex, o: Outcome): Ex
    requires e.once.Busy?
  {
    match e.pc
    case CheckProcess => if e.proc.NotStarted? then Finish(e, NoProcess) else e.(pc := PollExited)
    case PollExited => if e.exited then Finish(e, SawExit) else e.(pc := SendTerm)
    case SendTerm => e.(signals := e.signals + [Sigterm(o.groupOk || o.pidOk, e.reaps == 1)], pc := Grace)
    case Grace =>
      if o.timeout then e.(signals := e.signals + [GraceElapsed], pc := SendKill)
      else if e.exited then Finish(e, SawExit)
      else e
    case SendKill =>
      var delivered := o.groupOk || o.pidOk;
      Finish(e.(signals := e.signals + [Sigkill(delivered, e.reaps == 1)]), if delivered then Killed else KillFailed)
  }

  function Step(e: Ex, a: Act): Ex {
    match a
    case StartCommand(ok) => if e.proc.NotStarted? && ok then e.(proc := Live) else e
    case ProcessExit => if e.proc.Live? then e.(proc := Dead) else e
    case WaitCall => if e.waiter.WaitFresh? && !e.proc.NotStarted? then e.(waiter := Waiting) else e
    case Reap => if e.waiter.Waiting? && e.proc.Dead? then e.(waiter := Closing, reaps := e.reaps + 1) else e
    case CloseExited =>
      if !e.waiter.Closing? then e
      else if e.exited then e.(panicked := true)
      else e.(waiter := WaitSpent, exited := true)
    case CleanupCall => if e.once.Fresh? then e.(once := Busy) else e
    case Body(o) => if e.once.Busy? then BodyStep(e, o) else e
  }

  /** Every signal log there can be, by how far the body got. */
  predicate Signalled(e: Ex) {
    var sig := e.signals;
    && (e.once.Fresh? ==> e.pc.CheckProcess?)
    && (!e.once.Spent? ==> e.verdict.Undecided?)
    && match e.pc
       case CheckProcess => sig == [] && e.verdict in {Undecided, NoProcess}
       case PollExited => sig == [] && e.verdict in {Undecided, SawExit}
       case SendTerm => sig == [] && e.verdict.Undecided? && e.once.Busy?
       case Grace => |sig| == 1 && sig[0].Sigterm? && e.verdict in {Undecided, SawExit}
       case SendKill =>
         && |sig| >= 2 && sig[0].Sigterm? && sig[1].GraceElapsed?
         && (e.once.Busy? ==> |sig| == 2)
         && (e.once.Spent? ==> |sig| == 3 && sig[2].Sigkill? && sig[2].delivered == e.verdict.Killed? && e.verdict in {Killed, KillFailed})
  }

  predicate Inv(e: Ex) {
    && !e.panicked
    && Signalled(e)
    && (e.once.Spent? ==> !e.verdict.Undecided?)
    && (e.exited <==> e.waiter.WaitSpent?)
    && e.reaps == (if e.waiter in {Closing, WaitSpent} then 1 else 0)
    && (e.reaps == 1 ==> e.proc.Dead?)
    && (!e.waiter.WaitFresh? ==> !e.proc.NotStarted?)
    && (e.verdict.SawExit? ==> e.exited)
    && (e.pc != CheckProcess ==> !e.proc.NotStarted?)
  }

  predicate KillDelivered(e: Ex) {
    exists k :: 0 <= k < |e.signals| && e.signals[k].Sigkill? && e.signals[k].delivered
  }

  lemma StepInv(e: Ex, a: Act)
    requires Inv(e)
    ensures Inv(Step(e, a))
  {
  }

  /** Steps left in the cleanup body. */
  function BodyLeft(e: Ex): nat {
    match e.once
    case Fresh => 6
    case Spent => 0
    case Busy =>
      match e.pc
      case CheckProcess => 5
      case PollExited => 4
      case SendTerm => 3
      case Grace => 2
      case SendKill => 1
  }

  // ---- any number of callers ------------------------------------------------------------------

  /** A goroutine inside cleanup(). sync.Once makes late callers wait until the body is done. */
  datatype Caller = Running | Blocked | Returned(failed: bool)

  datatype World = World(ex: Ex, callers: map<nat, Caller>, first: Option<nat>)

  datatype WorldAct =
    | Enter(c: nat)
    | Leave(c: nat)
    | Inner(a: Act)

  const NEWWORLD := World(NEW, map[], None)

  function WorldStep(w: World, a: WorldAct): World {
    match a
    case Enter(c) =>
      if c in w.callers then w
      else (
        match w.ex.once
        case Fresh => World(Step(w.ex, CleanupCall), w.callers[c := Running], Some(c))
        case Busy => w.(callers := w.callers[c := Blocked])
        case Spent => w.(callers := w.callers[c := Returned(false)])
      )
    case Leave(c) =>
      if c !in w.callers || !w.ex.once.Spent? then w
      else (
        match w.callers[c]
        case Running => w.(callers := w.callers[c := Returned(w.ex.verdict.KillFailed?)])
        case Blocked => w.(callers := w.callers[c := Returned(false)])
        case Returned(_) => w
      )
    case Inner(inner) => if inner.CleanupCall? then w else w.(ex := Step(w.ex, inner))
  }

  function Run(w: World, acts: seq<WorldAct>): World
    decreases |acts|
  {
    if acts == [] then w else Run(WorldStep(w, acts[0]), acts[1..])
  }

  ghost predicate WorldInv(w: World) {
    && Inv(w.ex)
    && (w.first.None? <==> w.ex.once.Fresh?)
    && (w.ex.once.Fresh? ==> w.callers == map[])
    && (w.first.Some? ==> w.first.value in w.callers && !w.callers[w.first.value].Blocked?)
    && (forall c :: c in w.callers && w.callers[c].Running? ==> w.first == Some(c))
    && (forall c :: c in w.callers && w.callers[c].Returned? ==> w.ex.once.Spent?)
    && (forall c :: c in w.callers && w.callers[c] == Returned(true) ==> w.first == Some(c))
    && (w.first.Some? && w.callers[w.first.value].Returned? ==>
          w.callers[w.first.value].failed == w.ex.verdict.KillFailed?)
  }

  lemma WorldStepInv(w: World, a: WorldAct)
    requires WorldInv(w)
    ensures WorldInv(WorldStep(w, a))
  {
    if a.Inner? {
      StepInv(w.ex, a.a);
    }
  }

  lemma {:induction false} RunInv(w: World, acts: seq<WorldAct>)
    requires WorldInv(w)
    ensures WorldInv(Run(w, acts))
    decreases |acts|
  {
    if acts != [] {
      WorldStepInv(w, acts[0]);
      RunInv(WorldStep(w, acts[0]), acts[1..]);
    }
  }

  ghost predicate FirstReturned(w: World, failed: bool) {
    w.first.Some? && w.first.value in w.callers && w.callers[w.first.value] == Returned(failed)
  }

  /**
   * Whatever the interleaving of the waiter, the process and any number of cleanup callers: the
   * process is reaped at most once and `exited` never closed twice; there is at most one TERM and
   * one KILL round, the KILL after the TERM and an elapsed grace period; nobody returns before the
   * body is done; and a nil first cleanup means no process, an observed exit, or a delivered KILL.
   */
  lemma CleanupOnce(acts: seq<WorldAct>)
    ensures var w := Run(NEWWORLD, acts); var sig := w.ex.signals;
      && !w.ex.panicked && w.ex.reaps <= 1
      && (forall k :: 0 <= k < |sig| && sig[k].Sigterm? ==> k == 0)
      && (forall k :: 0 <= k < |sig| && sig[k].Sigkill? ==> k == 2 && sig[0].Sigterm? && sig[1].GraceElapsed?)
      && (forall c :: c in w.callers && w.callers[c].Returned? ==> w.ex.once.Spent?)
      && (FirstReturned(w, false) ==>
            || (w.ex.verdict.NoProcess? && sig == [])
            || (w.ex.verdict.SawExit? && w.ex.exited && w.ex.reaps == 1 && w.ex.proc.Dead? && |sig| <= 1)
            || (w.ex.verdict.Killed? && |sig| == 3 && sig[2].Sigkill? && sig[2].delivered))
      && (FirstReturned(w, true) ==> |sig| == 3 && sig[2].Sigkill? && !sig[2].delivered)
  {
    RunInv(NEWWORLD, acts);
  }

  // ---- signals against the reap ---------------------------------------------------------------

  function At(acts: seq<WorldAct>, k: nat): World
    requires k <= |acts|
  {
    Run(NEWWORLD, acts[..k])
  }

  lemma {:induction false} RunMore(w: World, acts: seq<WorldAct>, a: WorldAct)
    ensures Run(w, acts + [a]) == WorldStep(Run(w, acts), a)
    decreases |acts|
  {
    if acts == [] {
      assert [a][1..] == [];
      assert Run(WorldStep(w, a), []) == WorldStep(w, a);
    } else {
      assert (acts + [a])[1..] == acts[1..] + [a];
      RunMore(WorldStep(w, acts[0]), acts[1..], a);
    }
  }

  lemma Next(acts: seq<WorldAct>, k: nat)
    requires k < |acts|
    ensures At(acts, k + 1) == WorldStep(At(acts, k), acts[k])
    ensures Inv(At(acts, k).ex)
  {
    assert acts[..k + 1] == acts[..k] + [acts[k]];
    RunMore(NEWWORLD, acts[..k], acts[k]);
    RunInv(NEWWORLD, acts[..k]);
  }

  /** The step sends a signal. */
  predicate Sends(e: Ex, a: WorldAct) {
    a.Inner? && a.a.Body? && e.once.Busy? && e.pc in {SendTerm, SendKill}
  }

  /** The body looks at `exited` and goes on to a signal: the poll that finds it open, or the select
      that is left by its timer. */
  predicate LooksOn(e: Ex, a: WorldAct) {
    a.Inner? && a.a.Body? && e.once.Busy? && (if e.pc.Grace? then a.a.o.timeout else e.pc.PollExited? && !e.exited)
  }

  /** cmd.Wait returns. */
  predicate Reaps(e: Ex, a: WorldAct) {
    a == Inner(Reap) && e.waiter.Waiting? && e.proc.Dead?
  }

  /** The last look before the state at `k`, and nothing but others' steps since. */
  ghost predicate LastLook(acts: seq<WorldAct>, j: nat, k: nat)
    requires k <= |acts|
  {
    && j < k && LooksOn(At(acts, j).ex, acts[j])
    && forall i :: j < i < k ==> !(acts[i].Inner? && acts[i].a.Body?)
  }

  ghost predicate ReapedBetween(acts: seq<WorldAct>, j: nat, k: nat)
    requires k <= |acts|
  {
    exists i: nat :: j < i < k && Reaps(At(acts, i).ex, acts[i])
  }

  /** Only the body gets itself to a signal. */
  lemma BodyOnly(w: World, a: WorldAct)
    requires Inv(w.ex) && WorldStep(w, a).ex.once.Busy? && WorldStep(w, a).ex.pc in {SendTerm, SendKill}
    ensures var e, e' := w.ex, WorldStep(w, a).ex;
      if a.Inner? && a.a.Body? then LooksOn(e, a) && e.pc == (if e'.pc.SendTerm? then PollExited else Grace)
      else e.once.Busy? && e.pc == e'.pc
  {
  }

  /** Where a body about to send looked last. */
  lemma {:induction false} FindLook(acts: seq<WorldAct>, k: nat) returns (j: nat)
    requires k <= |acts| && At(acts, k).ex.once.Busy? && At(acts, k).ex.pc in {SendTerm, SendKill}
    ensures LastLook(acts, j, k)
    ensures At(acts, j).ex.pc == if At(acts, k).ex.pc.SendTerm? then PollExited else Grace
  {
    if k == 0 {
      assert false;
    } else {
      Next(acts, k - 1);
      BodyOnly(At(acts, k - 1), acts[k - 1]);
      if acts[k - 1].Inner? && acts[k - 1].a.Body? {
        j := k - 1;
      } else {
        j := FindLook(acts, k - 1);
      }
    }
  }

  /** Nothing else reaps, so the count tells whether it happened between. */
  lemma {:induction false} ReapCount(acts: seq<WorldAct>, j: nat, k: nat)
    requires j < k <= |acts| && acts[j].Inner? && acts[j].a.Body?
    ensures At(acts, k).ex.reaps == 1 <==> At(acts, j).ex.reaps == 1 || ReapedBetween(acts, j, k)
  {
    Next(acts, k - 1);
    if k == j + 1 {
    } else {
      ReapCount(acts, j, k - 1);
      if Reaps(At(acts, k - 1).ex, acts[k - 1]) {
        assert ReapedBetween(acts, j, k);
      } else if ReapedBetween(acts, j, k) {
        var i: nat :| j < i < k && Reaps(At(acts, i).ex, acts[i]);
        assert i < k - 1 && ReapedBetween(acts, j, k - 1);
      }
    }
  }

  /**
   * When a signal goes to a process that has been reaped already, for every schedule and every
   * signal in it: exactly when the process was reaped by the body's last look at `exited`, or the
   * reap comes between that look and the signal. At the poll before the TERM the first can only be
   * the moment between the return of cmd.Wait and the close of `exited`; at the select before the
   * KILL `exited` can be closed as well, when both cases are ready and the timer's is picked. The
   * signal counts as delivered exactly when the call on the group worked, or else the one on the
   * process.
   */
  lemma SignalAfterReap(acts: seq<WorldAct>, k: nat) returns (j: nat)
    requires k < |acts| && Sends(At(acts, k).ex, acts[k])
    ensures var sig := At(acts, k + 1).ex.signals;
      && LastLook(acts, j, k)
      && |sig| == |At(acts, k).ex.signals| + 1
      && (if At(acts, k).ex.pc.SendTerm? then sig[|sig| - 1].Sigterm? else sig[|sig| - 1].Sigkill?)
      && (sig[|sig| - 1].delivered <==> acts[k].a.o.groupOk || acts[k].a.o.pidOk)
      && (sig[|sig| - 1].reaped <==> At(acts, j).ex.reaps == 1 || ReapedBetween(acts, j, k))
    ensures var e := At(acts, j).ex;
      && (At(acts, k).ex.pc.SendTerm? ==> (e.reaps == 1 <==> e.waiter.Closing?))
      && (At(acts, k).ex.pc.SendKill? ==> (e.reaps == 1 <==> e.waiter.Closing? || e.exited))
  {
    j := FindLook(acts, k);
    Next(acts, k);
    Next(acts, j);
    ReapCount(acts, j, k);
  }

  /** A schedule taken one state at a time. */
  lemma {:induction false} Trace(acts: seq<WorldAct>, ws: seq<World>)
    requires |ws| == |acts| + 1
    requires forall i :: 0 <= i < |acts| ==> ws[i + 1] == WorldStep(ws[i], acts[i])
    ensures Run(ws[0], acts) == ws[|acts|]
    decreases |acts|
  {
    if acts != [] {
      Trace(acts[1..], ws[1..]);
    }
  }

  const CALM := Inner(Body(Outcome(false, true, true)))
  const LATE := Inner(Body(Outcome(true, true, true)))
  const UP := [Inner(StartCommand(true)), Inner(WaitCall), Enter(0), CALM]
  const GONE := [Inner(ProcessExit), Inner(Reap), Inner(CloseExited)]

  /** A started process, a waiter in cmd.Wait, and a cleanup that has found the process. */
  const POLLING := World(Ex(Live, Waiting, 0, false, Busy, PollExited, [], Undecided, false), map[0 := Running], Some(0))

  lemma ToPolling()
    ensures Run(NEWWORLD, UP) == POLLING
  {
    var w1 := WorldStep(NEWWORLD, UP[0]);
    var w2 := WorldStep(w1, UP[1]);
    var w3 := WorldStep(w2, UP[2]);
    Trace(UP, [NEWWORLD, w1, w2, w3, WorldStep(w3, UP[3])]);
  }

  lemma {:induction false} Append(w: World, a: seq<WorldAct>, b: seq<WorldAct>)
    ensures Run(w, a + b) == Run(Run(w, a), b)
    decreases |a|
  {
    if a == [] {
      assert a + b == b;
    } else {
      assert (a + b)[1..] == a[1..] + b;
      Append(WorldStep(w, a[0]), a[1..], b);
    }
  }

  /** Six more steps. */
  lemma Six(w: World, b: seq<WorldAct>) returns (end: World)
    requires |b| == 6
    ensures end == WorldStep(WorldStep(WorldStep(WorldStep(WorldStep(WorldStep(w, b[0]), b[1]), b[2]), b[3]), b[4]), b[5])
    ensures Run(w, b) == end
  {
    var w1 := WorldStep(w, b[0]);
    var w2 := WorldStep(w1, b[1]);
    var w3 := WorldStep(w2, b[2]);
    var w4 := WorldStep(w3, b[3]);
    var w5 := WorldStep(w4, b[4]);
    end := WorldStep(w5, b[5]);
    Trace(b, [w, w1, w2, w3, w4, w5, end]);
  }

  /** The comment above the KILL says the PID cannot have been reused because `exited` is not
      closed. The reap can still slip in between the timeout and the KILL, `exited` and all. */
  lemma KillCanFollowReap() returns (acts: seq<WorldAct>)
    ensures var e := Run(NEWWORLD, acts).ex;
      e.exited && e.signals == [Sigterm(true, false), GraceElapsed, Sigkill(true, true)]
  {
    ToPolling();
    acts := UP + ([CALM, CALM, LATE] + GONE) + [CALM];
    var end := Six(POLLING, [CALM, CALM, LATE] + GONE);
    Append(NEWWORLD, UP, [CALM, CALM, LATE] + GONE);
    RunMore(NEWWORLD, UP + ([CALM, CALM, LATE] + GONE), CALM);
  }

  /** The process is reaped between the poll and the TERM. */
  lemma TermCanFollowReap() returns (acts: seq<WorldAct>)
    ensures var e := Run(NEWWORLD, acts).ex; e.exited && e.signals == [Sigterm(true, true)]
  {
    ToPolling();
    var b := [CALM] + GONE + [CALM, CALM];
    acts := UP + b;
    var end := Six(POLLING, b);
    Append(NEWWORLD, UP, b);
  }

  /** `exited` is closed within the grace period, both cases of the select are ready, and the
      timer's is picked. */
  lemma TimerCanBeatExit() returns (acts: seq<WorldAct>)
    ensures var e := Run(NEWWORLD, acts).ex;
      e.exited && e.signals == [Sigterm(true, false), GraceElapsed, Sigkill(true, true)]
    ensures |acts| >= 2 && LooksOn(At(acts, |acts| - 2).ex, acts[|acts| - 2]) && At(acts, |acts| - 2).ex.exited
  {
    ToPolling();
    var b := [CALM, CALM] + GONE + [LATE];
    var end := Six(POLLING, b);
    Append(NEWWORLD, UP, b);
    RunMore(NEWWORLD, UP + b, CALM);
    acts := UP + b + [CALM];
    var w5 := WorldStep(WorldStep(WorldStep(WorldStep(WorldStep(POLLING, CALM), CALM), GONE[0]), GONE[1]), GONE[2]);
    assert acts[..|acts| - 2] == UP + b[..5];
    Append(NEWWORLD, UP, b[..5]);
    Trace(b[..5], [POLLING, WorldStep(POLLING, CALM), WorldStep(WorldStep(POLLING, CALM), CALM),
                   WorldStep(WorldStep(WorldStep(POLLING, CALM), CALM), GONE[0]),
                   WorldStep(WorldStep(WorldStep(WorldStep(POLLING, CALM), CALM), GONE[0]), GONE[1]), w5]);
  }

  // ---- the object ---------------------------------------------------------------------------

  /** What happens around one uninterrupted call of cleanup: whether the process exits and is
      reaped within the grace period, and how the kill calls fare. */
  datatype Script = Script(exits: bool, term: Outcome, kill: Outcome)

  /** The reaper goroutine sees the process go. */
  function ExitSeen(e: Ex): Ex {
    Step(Step(Step(e, ProcessExit), Reap), CloseExited)
  }

  /** The body up to the TERM, with nothing else happening. */
  function Opening(e: Ex, o: Outcome): Ex
    requires e.once.Fresh? && e.pc.CheckProcess?
  {
    var e1 := BodyStep(e.(once := Busy), o);
    if !e1.once.Busy? then e1
    else
      var e2 := BodyStep(e1, o);
      if !e2.once.Busy? then e2 else BodyStep(e2, o)
  }

  /** The grace period, the process exiting in it or not, and what follows. */
  function Ending(e: Ex, s: Script): Ex
    requires e.once.Busy? && e.pc.Grace?
  {
    var e1 := if s.exits then ExitSeen(e) else e;
    var e2 := BodyStep(e1, s.term.(timeout := !e1.exited));
    if e2.once.Busy? then BodyStep(e2, s.kill) else e2
  }

  /** One call of cleanup() as steps of the machine above. */
  function CleanupAlone(e: Ex, s: Script): Ex
    requires Inv(e) && !e.once.Busy?
  {
    if e.once.Spent? then e
    else
      var e1 := Opening(e, s.term);
      if e1.once.Busy? then Ending(e1, s) else e1
  }

  function ExRun(e: Ex, acts: seq<Act>): Ex
    decreases |acts|
  {
    if acts == [] then e else ExRun(Step(e, acts[0]), acts[1..])
  }

  /** A step of a call of cleanup, or of the reaper if the process goes away meanwhile. */
  predicate OfCleanup(a: Act, exits: bool) {
    a.CleanupCall? || a.Body? || (exits && (a.ProcessExit? || a.Reap? || a.CloseExited?))
  }

  lemma {:induction false} ExAppend(e: Ex, a: seq<Act>, b: seq<Act>)
    ensures ExRun(e, a + b) == ExRun(ExRun(e, a), b)
    decreases |a|
  {
    if a == [] {
      assert a + b == b;
    } else {
      assert (a + b)[1..] == a[1..] + b;
      ExAppend(Step(e, a[0]), a[1..], b);
    }
  }

  lemma ExOne(e: Ex, acts: seq<Act>, a: Act)
    ensures ExRun(e, acts + [a]) == Step(ExRun(e, acts), a)
  {
    ExAppend(e, acts, [a]);
    assert [a][1..] == [];
    assert ExRun(ExRun(e, acts), [a]) == ExRun(Step(ExRun(e, acts), a), []);
  }

  lemma OpeningIsRun(e: Ex, o: Outcome) returns (acts: seq<Act>)
    requires e.once.Fresh? && e.pc.CheckProcess?
    ensures ExRun(e, acts) == Opening(e, o) && forall a :: a in acts ==> OfCleanup(a, false)
  {
    acts := [CleanupCall];
    ExOne(e, [], CleanupCall);
    assert [] + [CleanupCall] == [CleanupCall];
    ExOne(e, acts, Body(o));
    acts := acts + [Body(o)];
    if ExRun(e, acts).once.Busy? {
      ExOne(e, acts, Body(o));
      acts := acts + [Body(o)];
      if ExRun(e, acts).once.Busy? {
        ExOne(e, acts, Body(o));
        acts := acts + [Body(o)];
      }
    }
  }

  lemma EndingIsRun(e: Ex, s: Script) returns (acts: seq<Act>)
    requires e.once.Busy? && e.pc.Grace?
    ensures ExRun(e, acts) == Ending(e, s) && forall a :: a in acts ==> OfCleanup(a, s.exits)
  {
    acts := [];
    if s.exits {
      ExOne(e, [], ProcessExit);
      ExOne(e, [] + [ProcessExit], Reap);
      ExOne(e, [] + [ProcessExit] + [Reap], CloseExited);
      acts := [] + [ProcessExit] + [Reap] + [CloseExited];
    }
    var e1 := ExRun(e, acts);
    assert e1.once.Busy? && e1.pc.Grace?;
    var select := Body(s.term.(timeout := !e1.exited));
    ExOne(e, acts, select);
    acts := acts + [select];
    if ExRun(e, acts).once.Busy? {
      ExOne(e, acts, Body(s.kill));
      acts := acts + [Body(s.kill)];
    }
  }

  lemma {:induction false} ExRunInv(e: Ex, acts: seq<Act>)
    requires Inv(e)
    ensures Inv(ExRun(e, acts))
    decreases |acts|
  {
    if acts != [] {
      StepInv(e, acts[0]);
      ExRunInv(Step(e, acts[0]), acts[1..]);
    }
  }

  /** One call of cleanup is a run of the machine, in which the reaper moves only if the process
      exits. So everything that holds of every run holds of it. */
  lemma CleanupIsRun(e: Ex, s: Script) returns (acts: seq<Act>)
    requires Inv(e) && !e.once.Busy?
    ensures ExRun(e, acts) == CleanupAlone(e, s) && Inv(CleanupAlone(e, s))
    ensures forall a :: a in acts ==> OfCleanup(a, s.exits)
  {
    acts := [];
    if e.once.Fresh? {
      acts := OpeningIsRun(e, s.term);
      var e1 := ExRun(e, acts);
      if e1.once.Busy? {
        var more := EndingIsRun(e1, s);
        ExAppend(e, acts, more);
        acts := acts + more;
      }
    }
    ExRunInv(e, acts);
  }

  /**
   * What the first call sends and returns. No process, or one reaped before: nothing. One that is
   * reaped in the grace period: the TERM. One that stays: the TERM, and after the grace period the
   * KILL, tried on the group and then on the process; the call fails exactly when neither worked.
   */
  predicate CleanedUp(e: Ex, e': Ex, s: Script, err: bool) {
    var seen := s.exits && e.waiter in {Waiting, Closing};
    var sig := e'.signals;
    if e.proc.NotStarted? || e.exited then sig == [] && !err
    else
      && |sig| == (if seen then 1 else 3)
      && sig[0].Sigterm? && (sig[0].delivered <==> s.term.groupOk || s.term.pidOk)
      && (seen ==> e'.exited && e'.proc.Dead? && !err)
      && (!seen ==>
            && sig[1].GraceElapsed? && sig[2].Sigkill?
            && (sig[2].delivered <==> s.kill.groupOk || s.kill.pidOk) && (err <==> !sig[2].delivered))
  }

  lemma OpeningSends(e: Ex, o: Outcome)
    requires Inv(e) && e.once.Fresh?
    ensures var e' := Opening(e, o);
      if e.proc.NotStarted? || e.exited
      then e'.once.Spent? && e'.signals == [] && !e'.verdict.KillFailed?
      else e' == e.(once := Busy, pc := Grace, signals := [Sigterm(o.groupOk || o.pidOk, e.reaps == 1)])
  {
    assert e.signals == [];
  }

  lemma EndingSends(e: Ex, s: Script)
    requires Inv(e) && e.once.Busy? && e.pc.Grace? && !e.exited && |e.signals| == 1
    ensures var e' := Ending(e, s); var sig := e'.signals;
      if s.exits && e.waiter in {Waiting, Closing}
      then sig == e.signals && e'.exited && e'.proc.Dead? && e'.verdict.SawExit?
      else
        && |sig| == 3 && sig[0] == e.signals[0] && sig[1].GraceElapsed? && sig[2].Sigkill?
        && (sig[2].delivered <==> s.kill.groupOk || s.kill.pidOk)
        && (e'.verdict.KillFailed? <==> !sig[2].delivered)
  {
  }

  lemma FirstCleanup(e: Ex, s: Script)
    requires Inv(e) && e.once.Fresh?
    ensures CleanedUp(e, CleanupAlone(e, s), s, CleanupAlone(e, s).verdict.KillFailed?)
  {
    OpeningSends(e, s.term);
    var e1 := Opening(e, s.term);
    if e1.once.Busy? {
      EndingSends(e1, s);
    }
  }

  class PlatformExecutor {
    var proc: Proc
    var waiter: WaitPc
    var waitErr: bool
    var exited: bool
    var once: Once
    var signals: seq<Signal>
    ghost var reaps: nat
    ghost var pc: Pc
    ghost var verdict: Verdict

    ghost function View(): Ex
      reads this
    {
      Ex(proc, waiter, reaps, exited, once, pc, signals, verdict, false)
    }

    /** setupCommand. */
    constructor ()
      ensures View() == NEW
    {
      proc, waiter, waitErr, exited, once, signals := NotStarted, WaitFresh, false, false, Fresh, [];
      reaps, pc, verdict := 0, CheckProcess, Undecided;
    }

    method StartCommand(ok: bool) returns (err: bool)
      requires proc.NotStarted?
      modifies this
      ensures err == !ok && View() == Step(old(View()), Act.StartCommand(ok))
      ensures proc == if ok then Live else NotStarted
    {
      if ok {
        proc := Live;
      }
      err := !ok;
    }

    /** The call blocks until the process is gone; a later call hands out the cached result. With
        no process cmd.Wait fails at once, and `exited` is closed all the same. */
    method Wait(cmdErr: bool) returns (err: bool)
      requires Inv(View()) && waiter in {WaitFresh, WaitSpent}
      modifies this
      ensures View() ==
        if !old(waiter).WaitFresh? then old(View())
        else if old(proc).NotStarted? then old(View()).(waiter := WaitSpent, exited := true)
        else ExitSeen(Step(old(View()), WaitCall))
      ensures err == waitErr == if old(waiter).WaitFresh? then cmdErr || old(proc).NotStarted? else old(waitErr)
    {
      if waiter.WaitFresh? {
        waitErr := cmdErr || proc.NotStarted?;
        if proc.NotStarted? {
          waiter, exited := WaitSpent, true;
        } else {
          waiter := Waiting;
          ReaperReturns();
        }
      }
      err := waitErr;
    }

    method ReaperReturns()
      requires Inv(View())
      modifies this`proc, this`waiter, this`exited, this`reaps
      ensures View() == ExitSeen(old(View()))
    {
      if proc.Live? {
        proc := Dead;
      }
      if waiter.Waiting? && proc.Dead? {
        reaps, waiter := reaps + 1, Closing;
      }
      if waiter.Closing? {
        exited, waiter := true, WaitSpent;
      }
    }

    method Cleanup(s: Script) returns (err: bool)
      requires Inv(View()) && !once.Busy?
      modifies this
      ensures View() == CleanupAlone(old(View()), s)
      ensures err == (old(once).Fresh? && View().verdict.KillFailed?)
      ensures old(once).Fresh? ==> CleanedUp(old(View()), View(), s, err)
      ensures old(once).Spent? ==> signals == old(signals) && !err
    {
      err := false;
      if once.Spent? {
        return;
      }
      FirstCleanup(View(), s);
      once := Busy;
      if proc.NotStarted? {
        once, verdict := Spent, NoProcess;
        return;
      }
      pc := PollExited;
      if exited {
        once, verdict := Spent, SawExit;
        return;
      }
      pc := SendTerm;
      signals := signals + [Sigterm(s.term.groupOk || s.term.pidOk, waiter in {Closing, WaitSpent})];
      pc := Grace;
      err := AwaitExitOrKill(s);
    }

    method AwaitExitOrKill(s: Script) returns (err: bool)
      requires Inv(View()) && once.Busy? && pc.Grace?
      modifies this
      ensures View() == Ending(old(View()), s)
      ensures err == View().verdict.KillFailed?
    {
      err := false;
      if s.exits {
        ReaperReturns();
      }
      if exited {
        once, verdict := Spent, SawExit;
        return;
      }
      signals := signals + [GraceElapsed];
      pc := SendKill;
      var delivered := s.kill.groupOk;
      if !delivered {
        delivered := s.kill.pidOk;
      }
      signals := signals + [Sigkill(delivered, waiter in {Closing, WaitSpent})];
      once, verdict := Spent, if delivered then Killed else KillFailed;
      err := !delivered;
    }
  }
}
