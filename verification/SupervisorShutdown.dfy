/** keepRunnerAlive ends after cancellation, whichever ready select case is picked. */
module SupervisorShutdown {
  import Exec = Executor
  import Gn = Runner
  import opened Supervisor
  import Base = SupervisorInv

  /** Steps left for keepRunnerAlive. A sleep begun before the cancellation can still end by its
      timer and go round once more; a later one cannot. */
  function PcRank(t: Thread): nat {
    match t.pc
    case CreateSleep => if t.late then 1 else 25
    case CreateAlive => 24
    case CreateDb => 23
    case Create => 22
    case Publish => 21
    case Top => 20
    case TopDb => 19
    case StartCall => 18
    case Select => 17
    case WakeAlive => 16
    case WakeDb => 15
    case FailAlive => 9
    case FailDb => 8
    case FailSleep => if t.late then 7 else 21
    case WakeSleep => if t.late then 6 else 21
    case DeferStop => 5
    case DeferWait => 3
    case Returned => 0
  }

  /** What stands between a caller of Stop and the lock: a generation that somebody else may still
      stop, and the cleanup in progress. */
  function LockRank(c: Cmd): nat {
    (if c.running then 8 else 0) +
    (if c.holder.Nobody? || c.gens == [] then 0 else 1 + Exec.BodyLeft(c.gens[Last(c)].ex))
  }

  function Rank(s: Agent): nat {
    10 * PcRank(s.sup) + LockRank(s.cmd)
  }

  lemma CreateLowers(t: Thread, e: Sight, pick: Pick)
    requires Creating(t.pc) && e.cancelled
    ensures var t' := CreateLocal(t, e, pick).t; t' == t || PcRank(t') < PcRank(t)
  {
  }

  lemma TryLowers(t: Thread, e: Sight, pick: Pick)
    requires Trying(t.pc) && e.cancelled
    ensures var t' := TryLocal(t, e, pick).t; t' == t || PcRank(t') < PcRank(t)
  {
  }

  lemma WatchLowers(t: Thread, e: Sight, pick: Pick)
    requires !Creating(t.pc) && !Trying(t.pc) && !t.pc.StartCall? && e.cancelled
    ensures var t' := WatchLocal(t, e, pick).t; t' == t || PcRank(t') < PcRank(t)
  {
  }

  lemma SupLowers(s: Agent, pick: Pick, io: Io)
    requires s.cancelled
    ensures var s' := SupStep(s, pick, io); s'.sup == s.sup || Rank(s') < Rank(s)
    ensures Rank(SupStep(s, pick, io)) <= Rank(s)
  {
    if s.sup.pc.StartCall? {
    } else {
      var e := View(s, io);
      if Creating(s.sup.pc) {
        CreateLowers(s.sup, e, pick);
      } else if Trying(s.sup.pc) {
        TryLowers(s.sup, e, pick);
      } else {
        WatchLowers(s.sup, e, pick);
      }
    }
  }

  lemma StopLowers(s: Agent, who: Who)
    requires Base.MutexOk(s.cmd, s.sup.pc.DeferStop?)
    ensures Rank(StopAct(s, who)) <= Rank(s)
    ensures s.cmd.holder.Nobody? && who.BySup? && s.sup.pc.DeferStop? ==> Rank(StopAct(s, who)) < Rank(s)
    ensures s.cmd.holder == who && who != Nobody && s.cmd.gens[Last(s.cmd)].ex.once.Spent? ==>
      Rank(StopAct(s, who)) < Rank(s)
  {
  }

  /** No step of anybody lets the supervisor do more than before. */
  lemma StepLowers(s: Agent, a: Act)
    requires Base.Inv(s) && s.cancelled && !a.Crash?
    ensures Rank(Step(s, a)) <= Rank(s) && Step(s, a).cancelled
    ensures a.Sup? && Step(s, a).sup != s.sup ==> Rank(Step(s, a)) < Rank(s)
  {
    match a
    case Sup(pick, io) => SupLowers(s, pick, io);
    case Stop(who) => StopLowers(s, who);
    case X(g, ok, io) => if g < |s.cmd.gens| { OwnLeft(s.cmd, g, Gn.X(ok)); }
    case Scan(g, isErr, scan, io) => if g < |s.cmd.gens| { OwnLeft(s.cmd, g, Gn.Scanner(isErr, scan)); }
    case LoopWakes(g) => if g < |s.cmd.gens| { OwnLeft(s.cmd, g, Gn.LoopWakes); }
    case Exits(g) => if g < |s.cmd.gens| { OwnLeft(s.cmd, g, Gn.Exits); }
    case Cleanup(o) => if s.cmd.gens != [] { OwnLeft(s.cmd, Last(s.cmd), Gn.CleanupBody(o)); }
    case _ =>
  }

  lemma OwnBody(gen: Gn.Gen, a: Gn.GenAct)
    requires !a.StopBegins? && !a.StopReturns?
    ensures Exec.BodyLeft(Gn.GenStep(gen, a).ex) <= Exec.BodyLeft(gen.ex)
  {
    if a.X? {
      XBody(gen, a.ok);
    } else if a.CleanupBody? && gen.ex.once.Busy? {
      CleanupBody(gen.ex, a.o);
    }
  }

  lemma XBody(gen: Gn.Gen, ok: bool)
    ensures Exec.BodyLeft(Gn.XStep(gen, ok).ex) <= Exec.BodyLeft(gen.ex)
  {
    Base.XSame(gen, ok);
    assert Gn.XStep(gen, ok).ex.pc == gen.ex.pc;
  }

  lemma CleanupBody(ex: Exec.Ex, o: Exec.Outcome)
    requires ex.once.Busy?
    ensures Exec.BodyLeft(Exec.BodyStep(ex, o)) <= Exec.BodyLeft(ex)
  {
  }

  lemma OwnLeft(c: Cmd, g: nat, a: Gn.GenAct)
    requires g < |c.gens| && !a.StopBegins? && !a.StopReturns?
    ensures LockRank(UpdateGen(c, g, Gn.GenStep(c.gens[g], a))) <= LockRank(c)
  {
    OwnBody(c.gens[g], a);
  }

  /** A step that brings the end nearer, or any effective step of keepRunnerAlive itself. */
  predicate Counts(s: Agent, a: Act) {
    Rank(Step(s, a)) < Rank(s) || (a.Sup? && Step(s, a).sup != s.sup)
  }

  function Moves(s: Agent, acts: seq<Act>): nat
    decreases |acts|
  {
    if acts == [] then 0
    else (if Counts(s, acts[0]) then 1 else 0) + Moves(Step(s, acts[0]), acts[1..])
  }

  ghost predicate NoCrash(acts: seq<Act>) {
    forall a :: a in acts ==> !a.Crash?
  }

  /** An act that brings the end nearer, from every state where keepRunnerAlive has not returned:
      its own next step, or one by whoever holds the lock it waits for. */
  lemma CanMove(s: Agent) returns (a: Act)
    requires Base.Inv(s) && s.cancelled && !s.sup.pc.Returned?
    ensures !a.Crash? && Rank(Step(s, a)) < Rank(s)
  {
    var io := Io(true, true, 0);
    if s.sup.pc in {StartCall, DeferStop} && !s.cmd.holder.Nobody? {
      if s.cmd.gens[Last(s.cmd)].ex.once.Spent? {
        a := Stop(s.cmd.holder);
        StopLowers(s, s.cmd.holder);
      } else {
        a := Cleanup(Exec.Outcome(true, true, true));
        BodyMoves(s.cmd.gens[Last(s.cmd)].ex);
      }
    } else if s.sup.pc.DeferStop? {
      a := Stop(BySup);
      StopLowers(s, BySup);
    } else {
      a := Sup(Quit, io);
      OwnMove(s, io);
    }
  }

  lemma BodyMoves(ex: Exec.Ex)
    requires ex.once.Busy?
    ensures Exec.BodyLeft(Exec.Step(ex, Exec.Body(Exec.Outcome(true, true, true)))) < Exec.BodyLeft(ex)
  {
  }

  lemma OwnMove(s: Agent, io: Io)
    requires s.cancelled && !s.sup.pc.Returned? && !s.sup.pc.DeferStop?
    requires s.sup.pc.StartCall? ==> s.cmd.holder.Nobody?
    ensures Rank(SupStep(s, Quit, io)) < Rank(s)
  {
    SupLowers(s, Quit, io);
    if !s.sup.pc.StartCall? {
      QuitMoves(s.sup, View(s, io));
    }
  }

  lemma QuitMoves(t: Thread, e: Sight)
    requires e.cancelled && t.pc !in {Returned, DeferStop, StartCall}
    ensures Local(t, e, Quit).t.pc != t.pc
  {
  }

  /**
   * After cancellation keepRunnerAlive takes at most Rank(s) more steps, whichever select case is
   * picked and whoever else runs, and until it has returned there is always a step - its own, or
   * one by whoever holds the lock it waits for - that brings the end nearer: it cannot spin and it
   * cannot get stuck.
   */
  lemma {:induction false} ShutdownBounded(s: Agent, acts: seq<Act>)
    requires Base.Inv(s) && s.cancelled && NoCrash(acts)
    ensures var s' := Run(s, acts);
      && Moves(s, acts) + Rank(s') <= Rank(s)
      && (Rank(s') == 0 ==> s'.sup.pc.Returned?)
      && (!s'.sup.pc.Returned? ==> exists a: Act :: !a.Crash? && Counts(s', a))
    decreases |acts|
  {
    if acts == [] {
      if !s.sup.pc.Returned? {
        var a := CanMove(s);
      }
    } else {
      assert acts[0] in acts && forall a :: a in acts[1..] ==> a in acts;
      StepLowers(s, acts[0]);
      Base.StepInv(s, acts[0]);
      ShutdownBounded(Step(s, acts[0]), acts[1..]);
    }
  }
}
