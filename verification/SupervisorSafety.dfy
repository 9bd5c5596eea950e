/** Theorems about every run of the supervisor, over any number of crashes and restarts. */
module SupervisorSafety {
  import opened JobState
  import Exec = Executor
  import Gn = Runner
  import opened Service
  import opened Supervisor
  import Base = SupervisorInv

  function Agent0(db: Stored): Agent { Boot(db, [], 0) }

  lemma BootInv(db: Stored, log: seq<Entry>, procStarts: nat)
    ensures Base.Inv(Boot(db, log, procStarts))
  {
  }

  // ---- no hypothesis --------------------------------------------------------------------------

  /** With k successful Start calls since the agent came up there are at most 5k + 6 failed ones,
      and at most one RunnerFailed message for each of these. */
  lemma RetryBound(db: Stored, acts: seq<Act>)
    ensures var t := Run(Agent0(db), acts).sup;
      t.failedMsgs <= t.failedStarts <= 5 * t.okStarts + 6
  {
    BootInv(db, [], 0);
    Base.RunInv(Agent0(db), acts);
  }

  /**
   * However the callers of Stop interleave, in every reachable state: no `done` is closed twice;
   * whoever is inside Stop has found the command running and cleared the flag; a generation's `done`
   * is closed exactly when it is not the running one, and exactly then its cleanup has begun; a
   * cleanup in progress is the last generation's; and after keepRunnerAlive's own Stop nothing runs.
   */
  lemma StopsInterleave(db: Stored, acts: seq<Act>)
    ensures var s := Run(Agent0(db), acts); var c := s.cmd;
      && !c.panicked
      && (!c.holder.Nobody? ==> !c.running && c.gens != [] && AtStop(c, c.holder, s.sup.pc.DeferStop?))
      && (forall g :: 0 <= g < |c.gens| ==>
            && (c.gens[g].done <==> !(c.running && g == Last(c)))
            && (c.gens[g].done <==> !c.gens[g].ex.once.Fresh?)
            && (c.gens[g].ex.once.Busy? ==> g == Last(c) && !c.holder.Nobody?))
      && (s.sup.pc in {DeferWait, Returned} ==> !c.running && c.holder.Nobody?)
  {
    BootInv(db, [], 0);
    Base.RunInv(Agent0(db), acts);
  }

  /** The process runs on and no KILL was delivered to its group. */
  predicate Orphaned(ex: Exec.Ex) {
    ex.proc.Live? && !Exec.KillDelivered(ex)
  }

  lemma OrphanedWhen(ex: Exec.Ex)
    requires Exec.Inv(ex) && ex.once.Spent?
    ensures Orphaned(ex) <==> ex.proc.Live? && ex.verdict in {Exec.NoProcess, Exec.KillFailed}
  {
    if ex.pc.SendKill? {
      assert ex.signals == [ex.signals[0], ex.signals[1], ex.signals[2]];
    }
  }

  /**
   * When keepRunnerAlive has returned - so when Service.Wait can return - no generation is running,
   * nobody is inside Stop, and whoever won the race to Stop, a process is left running without a
   * delivered KILL exactly when cleanup found no process to signal or both KILL calls failed.
   * `done` of a generation is never closed twice.
   */
  lemma TornDownOnReturn(db: Stored, acts: seq<Act>)
    ensures var s := Run(Agent0(db), acts);
      && !s.cmd.panicked
      && (s.sup.pc.Returned? ==>
            && !s.cmd.running && s.cmd.holder.Nobody?
            && forall g :: 0 <= g < |s.cmd.gens| ==>
                 var gen := s.cmd.gens[g];
                 && gen.done && gen.ex.once.Spent?
                 && (Orphaned(gen.ex) <==>
                       gen.ex.proc.Live? && gen.ex.verdict in {Exec.NoProcess, Exec.KillFailed}))
  {
    BootInv(db, [], 0);
    Base.RunInv(Agent0(db), acts);
    var s := Run(Agent0(db), acts);
    if s.sup.pc.Returned? {
      forall g | 0 <= g < |s.cmd.gens|
        ensures s.cmd.gens[g].ex.once.Spent?
        ensures Orphaned(s.cmd.gens[g].ex) <==>
                s.cmd.gens[g].ex.proc.Live? && s.cmd.gens[g].ex.verdict in {Exec.NoProcess, Exec.KillFailed}
      {
        assert Gn.GenInv(s.cmd.gens[g]);
        assert s.cmd.gens[g].ex.once.Spent?;
        OrphanedWhen(s.cmd.gens[g].ex);
      }
    }
  }

  // ---- statuses, when state reads succeed -----------------------------------------------------

  predicate Reads(a: Act) {
    match a
    case Sup(_, io) => io.readable
    case X(_, _, io) => io.readable
    case Scan(_, _, _, io) => io.readable
    case LoopStatus(io) => io.readable
    case _ => true
  }

  ghost predicate AllRead(acts: seq<Act>) {
    forall a :: a in acts ==> Reads(a)
  }

  predicate Computed(e: Entry) { !e.origin.ByJobCallback? }

  predicate Busy(e: Entry) { e.status in {Active, Terminated} }

  /** What a step adds to the log. */
  ghost predicate Adds(s: Agent, s': Agent) {
    && s.svc.log <= s'.svc.log
    && (JobKnown(s.svc.db) ==> JobKnown(s'.svc.db))
    && (JobOver(s.svc.db) ==> JobOver(s'.svc.db))
    && (JobKnown(s.svc.db) ==> forall k :: |s.svc.log| <= k < |s'.svc.log| ==> Busy(s'.svc.log[k]))
    && (JobOver(s.svc.db) ==>
          forall k :: |s.svc.log| <= k < |s'.svc.log| && Computed(s'.svc.log[k]) ==> s'.svc.log[k].status.Terminated?)
  }

  lemma CreateNotes(t: Thread, e: Sight, pick: Pick)
    requires Creating(t.pc) && e.record.Ok? && (e.record.value.jobStarted || e.record.value.jobFinished)
    ensures var notes := CreateLocal(t, e, pick).notes;
      forall k :: 0 <= k < |notes| ==> Busy(notes[k]) && (e.record.value.jobFinished ==> notes[k].status.Terminated?)
  {
  }

  lemma TryNotes(t: Thread, e: Sight, pick: Pick)
    requires Trying(t.pc) && e.record.Ok? && (e.record.value.jobStarted || e.record.value.jobFinished)
    ensures var notes := TryLocal(t, e, pick).notes;
      forall k :: 0 <= k < |notes| ==> Busy(notes[k]) && (e.record.value.jobFinished ==> notes[k].status.Terminated?)
  {
  }

  lemma WatchNotes(t: Thread, e: Sight, pick: Pick)
    requires e.record.Ok? && (e.record.value.jobStarted || e.record.value.jobFinished)
    ensures var notes := WatchLocal(t, e, pick).notes;
      forall k :: 0 <= k < |notes| ==> Busy(notes[k]) && (e.record.value.jobFinished ==> notes[k].status.Terminated?)
  {
  }

  lemma SupAdds(s: Agent, pick: Pick, io: Io)
    requires io.readable
    ensures Adds(s, SupStep(s, pick, io))
  {
    if (JobKnown(s.svc.db) || JobOver(s.svc.db)) && !s.sup.pc.StartCall? {
      var e := View(s, io);
      if Creating(s.sup.pc) {
        CreateNotes(s.sup, e, pick);
      } else if Trying(s.sup.pc) {
        TryNotes(s.sup, e, pick);
      } else {
        WatchNotes(s.sup, e, pick);
      }
    }
  }

  lemma EffectAdds(s: Agent, calls: seq<Gn.Call>, io: Io)
    requires io.readable
    ensures Adds(s, s.(svc := Effect(s.svc, calls, io)))
  {
  }

  lemma StepAdds(s: Agent, a: Act)
    requires Reads(a)
    ensures Adds(s, Step(s, a))
  {
    match a
    case Sup(pick, io) => SupAdds(s, pick, io);
    case X(g, ok, io) => if g < |s.cmd.gens| { EffectAdds(s, Gn.XCalls(s.cmd.gens[g]), io); }
    case Scan(g, isErr, scan, io) =>
      if g < |s.cmd.gens| {
        EffectAdds(s, Gn.ScanCalls(if isErr then s.cmd.gens[g].err else s.cmd.gens[g].out), io);
      }
    case _ =>
  }

  /**
   * From the moment JobStarted is on record every status computed or sent is Active or Terminated -
   * RunnerFailed is never chosen - and from JobFinished on only Terminated is computed, across all
   * later steps and crashes.
   */
  lemma {:induction false} StatusAfterJob(s: Agent, acts: seq<Act>)
    requires AllRead(acts)
    ensures Adds(s, Run(s, acts))
    decreases |acts|
  {
    if acts != [] {
      assert acts[0] in acts && forall a :: a in acts[1..] ==> a in acts;
      StepAdds(s, acts[0]);
      StatusAfterJob(Step(s, acts[0]), acts[1..]);
    }
  }
}
