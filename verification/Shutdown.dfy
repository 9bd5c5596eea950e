/** The three goroutines that Service.Wait waits for, together: keepAliveLoop and loop of
    `Handshake`, keepRunnerAlive of `Supervisor`, and the one cancellation they share. */
module Shutdown {
  import JobState
  import H = Handshake
  import S = Supervisor
  import SInv = SupervisorInv
  import SStop = SupervisorShutdown
  import Safety = SupervisorSafety
  import Left = SupervisorTeardown

  datatype World = World(h: H.St, s: S.Agent)

  datatype Act = Net(na: H.Act) | Agent(sa: S.Act)

  /** keepRunnerAlive sees the context and `done` that the other two see. */
  function Share(w: World): World {
    if H.Ended(w.h.gate) then w.(s := w.s.(cancelled := true)) else w
  }

  /** Cancellation comes through `Net`; a crash ends all three. */
  function Step(w: World, a: Act): World {
    match a
    case Net(na) => Share(w.(h := H.Step(w.h, na)))
    case Agent(sa) => if sa.Crash? || sa.Cancel? then w else w.(s := S.Step(w.s, sa))
  }

  function Run(w: World, acts: seq<Act>): World
    decreases |acts|
  {
    if acts == [] then w else Run(Step(w, acts[0]), acts[1..])
  }

  ghost predicate Inv(w: World) {
    H.Inv(w.h) && SInv.Inv(w.s) && (H.Ended(w.h.gate) ==> w.s.cancelled)
  }

  /** A fresh agent on a given record. */
  function Fresh(db: JobState.Stored): World { World(H.INIT, S.Boot(db, [], 0)) }

  lemma StepKeeps(w: World, a: Act)
    requires Inv(w)
    ensures Inv(Step(w, a))
  {
    match a
    case Net(na) => H.StepInv(w.h, na);
    case Agent(sa) => if !sa.Crash? && !sa.Cancel? { SInv.StepInv(w.s, sa); }
  }

  lemma {:induction false} RunKeeps(w: World, acts: seq<Act>)
    requires Inv(w)
    ensures Inv(Run(w, acts))
    decreases |acts|
  {
    if acts != [] {
      StepKeeps(w, acts[0]);
      RunKeeps(Step(w, acts[0]), acts[1..]);
    }
  }

  // ---- keepRunnerAlive's own run inside this one --------------------------------------------------

  const IDLE := S.Stop(S.Nobody)

  /** What an act is for the agent: its own act, the cancellation it comes to see, or nothing. */
  function Shadow(w: World, a: Act): S.Act {
    match a
    case Net(na) => if H.Ended(H.Step(w.h, na).gate) then S.Cancel else IDLE
    case Agent(sa) => if sa.Crash? || sa.Cancel? then IDLE else sa
  }

  function Shadows(w: World, acts: seq<Act>): (r: seq<S.Act>)
    ensures |r| == |acts|
    decreases |acts|
  {
    if acts == [] then [] else [Shadow(w, acts[0])] + Shadows(Step(w, acts[0]), acts[1..])
  }

  lemma ShadowStep(w: World, a: Act)
    ensures Step(w, a).s == S.Step(w.s, Shadow(w, a)) && !Shadow(w, a).Crash?
  {
  }

  lemma {:induction false} ShadowRun(w: World, acts: seq<Act>)
    ensures Run(w, acts).s == S.Run(w.s, Shadows(w, acts))
    ensures Left.Lifetime(Shadows(w, acts))
    decreases |acts|
  {
    if acts != [] {
      ShadowStep(w, acts[0]);
      ShadowRun(Step(w, acts[0]), acts[1..]);
      assert Shadows(w, acts)[1..] == Shadows(Step(w, acts[0]), acts[1..]);
    }
  }

  /** The state before the k-th act, and what that act is for the agent. */
  lemma {:induction false} ShadowAt(w: World, acts: seq<Act>, k: nat)
    requires k < |acts|
    ensures Run(w, acts[..k]).s == S.Run(w.s, Shadows(w, acts)[..k])
    ensures Shadows(w, acts)[k] == Shadow(Run(w, acts[..k]), acts[k])
    decreases |acts|
  {
    ShadowStep(w, acts[0]);
    if k > 0 {
      ShadowAt(Step(w, acts[0]), acts[1..], k - 1);
      assert acts[..k][1..] == acts[1..][..k - 1];
      assert Shadows(w, acts)[..k][1..] == Shadows(Step(w, acts[0]), acts[1..])[..k - 1];
    }
  }

  lemma {:induction false} Append(w: World, a: seq<Act>, b: seq<Act>)
    ensures Run(w, a + b) == Run(Run(w, a), b)
    decreases |a|
  {
    if a == [] {
      assert a + b == b;
    } else {
      assert (a + b)[1..] == a[1..] + b;
      Append(Step(w, a[0]), a[1..], b);
    }
  }

  /** At some step of the run cleanup looked for the process of generation `g` before its launch. */
  ghost predicate StoppedEarly(w: World, acts: seq<Act>, g: nat) {
    exists k: nat :: k < |acts| && acts[k].Agent? && Left.StopsEarly(Run(w, acts[..k]).s, acts[k].sa, g)
  }

  lemma StoppedEarlyHere(w: World, acts: seq<Act>, g: nat)
    ensures StoppedEarly(w, acts, g) <==> Left.StoppedEarly(w.s, Shadows(w, acts), g)
  {
    var shadows := Shadows(w, acts);
    if StoppedEarly(w, acts, g) {
      var k: nat :| k < |acts| && acts[k].Agent? && Left.StopsEarly(Run(w, acts[..k]).s, acts[k].sa, g);
      ShadowAt(w, acts, k);
      assert Left.StopsEarly(S.Run(w.s, shadows[..k]), shadows[k], g);
    }
    if Left.StoppedEarly(w.s, shadows, g) {
      var k: nat :| k < |shadows| && Left.StopsEarly(S.Run(w.s, shadows[..k]), shadows[k], g);
      ShadowAt(w, acts, k);
      assert Left.StopsEarly(Run(w, acts[..k]).s, acts[k].sa, g);
    }
  }

  /** The processes when keepRunnerAlive has returned. */
  ghost predicate TornDown(w: World, acts: seq<Act>) {
    var gens := Run(w, acts).s.cmd.gens;
    forall g: nat :: g < |gens| ==>
      && gens[g].done && gens[g].ex.once.Spent?
      && (Safety.Orphaned(gens[g].ex) <==>
            gens[g].ex.proc.Live? && (Left.KillRefused(gens[g].ex) || StoppedEarly(w, acts, g)))
  }

  lemma TornDownHere(db: JobState.Stored, acts: seq<Act>)
    requires Run(Fresh(db), acts).s.sup.pc.Returned?
    ensures TornDown(Fresh(db), acts)
  {
    var w := Fresh(db);
    ShadowRun(w, acts);
    Safety.BootInv(db, [], 0);
    Left.LeftRunning(w.s, Shadows(w, acts));
    forall g ensures StoppedEarly(w, acts, g) <==> Left.StoppedEarly(w.s, Shadows(w, acts), g) {
      StoppedEarlyHere(w, acts, g);
    }
  }

  // ---- the end ------------------------------------------------------------------------------------

  function Rank(w: World): nat { H.Rank(w.h) + SStop.Rank(w.s) }

  predicate Dials(w: World, a: Act) { a.Net? && H.Dials(w.h, a.na) }

  predicate Ticks(w: World, a: Act) { a.Net? && H.Ticks(w.h, a.na) }

  /** An effective step of one of the three goroutines. */
  predicate Moves(w: World, a: Act) {
    match a
    case Net(na) => (na.Keep? || na.Loop?) && H.Step(w.h, na) != w.h
    case Agent(sa) => sa.Sup? && S.Step(w.s, sa).sup != w.s.sup
  }

  lemma StepLowers(w: World, a: Act)
    requires Inv(w) && H.Ended(w.h.gate) && !Dials(w, a)
    ensures Inv(Step(w, a)) && H.Ended(Step(w, a).h.gate) && Rank(Step(w, a)) <= Rank(w)
    ensures Moves(w, a) && !Ticks(w, a) ==> Rank(Step(w, a)) < Rank(w)
  {
    StepKeeps(w, a);
    match a
    case Net(na) =>
      H.StepLowers(w.h, na);
      assert Step(w, a).s == w.s;
    case Agent(sa) =>
      if !sa.Crash? {
        SStop.StepLowers(w.s, sa);
      }
  }

  ghost predicate NoDial(w: World, acts: seq<Act>)
    decreases |acts|
  {
    acts == [] || (!Dials(w, acts[0]) && NoDial(Step(w, acts[0]), acts[1..]))
  }

  function MoveCount(w: World, acts: seq<Act>): nat
    decreases |acts|
  {
    if acts == [] then 0 else (if Moves(w, acts[0]) then 1 else 0) + MoveCount(Step(w, acts[0]), acts[1..])
  }

  function TickCount(w: World, acts: seq<Act>): nat
    decreases |acts|
  {
    if acts == [] then 0 else (if Ticks(w, acts[0]) then 1 else 0) + TickCount(Step(w, acts[0]), acts[1..])
  }

  predicate AllExited(w: World) { H.BothExited(w.h) && w.s.sup.pc.Returned? }

  lemma CanMove(w: World) returns (a: Act)
    requires Inv(w) && H.Ended(w.h.gate) && !AllExited(w)
    ensures !Dials(w, a) && Rank(Step(w, a)) < Rank(w)
  {
    if H.BothExited(w.h) {
      var sa := SStop.CanMove(w.s);
      assert !sa.Cancel?;
      a := Agent(sa);
    } else {
      var na := H.CanMove(w.h);
      a := Net(na);
      StepLowers(w, a);
    }
  }

  lemma {:induction false} Bounded(w: World, acts: seq<Act>)
    requires Inv(w) && H.Ended(w.h.gate) && NoDial(w, acts)
    ensures var w' := Run(w, acts);
      && Inv(w') && H.Ended(w'.h.gate)
      && MoveCount(w, acts) + Rank(w') <= Rank(w) + TickCount(w, acts)
    decreases |acts|
  {
    if acts != [] {
      StepLowers(w, acts[0]);
      Bounded(Step(w, acts[0]), acts[1..]);
    }
  }

  /**
   * From any reachable state after cancellation or Stop, if no further dial succeeds, the three
   * goroutines take at most Rank(w) steps plus one per heartbeat tick, whichever ready select case
   * is picked and whatever the runner's own goroutines do; as long as one of them is left something
   * brings the end nearer; and when all have exited, so that Wait returns, `done` is closed, no
   * runner command is running, and a process runs on without a delivered KILL exactly when both
   * kill calls failed or it was launched after the cleanup of its generation had looked for it.
   */
  lemma AllExit(db: JobState.Stored, before: seq<Act>, acts: seq<Act>)
    requires var w := Run(Fresh(db), before); H.Ended(w.h.gate) && NoDial(w, acts)
    ensures var w := Run(Fresh(db), before); var w' := Run(w, acts);
      && MoveCount(w, acts) + Rank(w') <= Rank(w) + TickCount(w, acts)
      && (!AllExited(w') ==> exists a: Act :: !Dials(w', a) && Rank(Step(w', a)) < Rank(w'))
      && (AllExited(w') ==>
            && w'.h.gate.doneClosed && !w'.s.cmd.running && w'.s.cmd.holder.Nobody?
            && TornDown(Fresh(db), before + acts))
  {
    RunKeeps(Fresh(db), before);
    var w := Run(Fresh(db), before);
    Bounded(w, acts);
    Append(Fresh(db), before, acts);
    if AllExited(Run(w, acts)) {
      TornDownHere(db, before + acts);
    } else {
      var a := CanMove(Run(w, acts));
    }
  }
}
