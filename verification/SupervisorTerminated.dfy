/** Terminated is final: in what the runner callbacks send, and in the durable record. */
module SupervisorTerminated {
  import opened JobState
  import Gn = Runner
  import opened Service
  import opened Supervisor
  import Base = SupervisorInv
  import opened SupervisorSafety
  import opened SupervisorRestart

  predicate FromCallback(e: Entry) { e.origin in {ByRunnerCallback, ByJobCallback} }

  predicate SaysEnded(e: Entry) { FromCallback(e) && e.status.Terminated? }

  /** A callback has sent Terminated since the agent came up. */
  ghost predicate Ended(log: seq<Entry>, boot: nat) {
    exists i :: boot <= i < |log| && SaysEnded(log[i])
  }

  /** After the first Terminated no callback sends anything else. */
  ghost predicate Absorbing(log: seq<Entry>, boot: nat) {
    forall i, j :: boot <= i < j < |log| && SaysEnded(log[i]) && FromCallback(log[j]) ==> log[j].status.Terminated?
  }

  lemma AppendQuiet(log: seq<Entry>, notes: seq<Entry>, boot: nat)
    requires forall k :: 0 <= k < |notes| ==> !FromCallback(notes[k])
    ensures Ended(log + notes, boot) <==> Ended(log, boot)
    ensures Absorbing(log, boot) ==> Absorbing(log + notes, boot)
  {
    var all := log + notes;
    if Ended(log, boot) {
      var i :| boot <= i < |log| && SaysEnded(log[i]);
      assert SaysEnded(all[i]);
    }
  }

  lemma AppendOne(log: seq<Entry>, e: Entry, boot: nat)
    requires Absorbing(log, boot) && boot <= |log|
    requires Ended(log, boot) ==> e.status.Terminated?
    ensures Ended(log + [e], boot) <==> Ended(log, boot) || SaysEnded(e)
    ensures Absorbing(log + [e], boot)
  {
    var all := log + [e];
    if Ended(log, boot) {
      var i :| boot <= i < |log| && SaysEnded(log[i]);
      assert SaysEnded(all[i]);
    }
    if SaysEnded(e) {
      assert SaysEnded(all[|log|]);
    }
  }

  predicate PastOffline(x: Gn.XPc) { x in {Gn.XPc.CheckFlag, Gn.XPc.FinishCall, Gn.XPc.XDone} }

  /** The record against the current generation. */
  predicate RecordOk(db: Stored, c: Cmd) {
    && (JobOver(db) ==> JobKnown(db))
    && (c.gens != [] && JobOver(db) ==> c.gens[Last(c)].x.XDone?)
    && (c.gens != [] && Gn.JobStarted in c.gens[Last(c)].early ==> JobKnown(db))
  }

  ghost predicate LogOk(s: Agent) {
    && s.boot <= |s.svc.log|
    && Absorbing(s.svc.log, s.boot)
    && (Ended(s.svc.log, s.boot) ==>
          s.cmd.gens != [] && JobKnown(s.svc.db) && PastOffline(s.cmd.gens[Last(s.cmd)].x))
  }

  ghost predicate Final(s: Agent) {
    SupervisorRestart.Inv(s) && RecordOk(s.svc.db, s.cmd) && LogOk(s)
  }

  predicate DbOk(a: Act) {
    && Reads(a)
    && (a.X? || a.Scan? ==> a.io.commits)
  }

  predicate SameEnd(g: Gn.Gen, g': Gn.Gen) {
    && g'.early == g.early
    && (g.x.XDone? ==> g'.x.XDone?)
    && (PastOffline(g.x) ==> PastOffline(g'.x))
  }

  predicate SameEnds(c: Cmd, c': Cmd) {
    |c'.gens| == |c.gens| && forall g :: 0 <= g < |c.gens| ==> SameEnd(c.gens[g], c'.gens[g])
  }

  lemma EndsFinal(s: Agent, c: Cmd, t: Thread)
    requires LogOk(s) && RecordOk(s.svc.db, s.cmd) && SameEnds(s.cmd, c)
    ensures LogOk(s.(cmd := c, sup := t)) && RecordOk(s.svc.db, c)
  {
    if s.cmd.gens != [] {
      assert SameEnd(s.cmd.gens[Last(s.cmd)], c.gens[Last(c)]);
    }
  }

  // ---- executeCommand -------------------------------------------------------------------------

  /** A generation that can still act is the current one. */
  lemma ActsLast(s: Agent, g: nat)
    requires OneAtATime(s) && g < |s.cmd.gens| && !Gone(s.cmd.gens[g])
    ensures g == Last(s.cmd)
  {
  }

  lemma OfflineFinal(s: Agent, gen: Gn.Gen, v: Svc)
    requires LogOk(s) && RecordOk(s.svc.db, s.cmd) && s.svc.db != Garbage && s.cmd.gens != []
    requires s.cmd.gens[Last(s.cmd)].x.GoOffline?
    requires gen == s.cmd.gens[Last(s.cmd)].(x := Gn.CheckFlag, calls := gen.calls)
    requires v == OnRunnerStarted(s.svc, false, true)
    ensures LogOk(s.(cmd := UpdateGen(s.cmd, Last(s.cmd), gen), svc := v))
    ensures RecordOk(v.db, UpdateGen(s.cmd, Last(s.cmd), gen))
  {
    var e := Entry(StatusOf(Load(s.svc.db), false), ByRunnerCallback);
    AppendOne(s.svc.log, e, s.boot);
  }

  lemma FinishFinal(s: Agent, gen: Gn.Gen, io: Io)
    requires LogOk(s) && RecordOk(s.svc.db, s.cmd) && s.svc.db != Garbage && s.cmd.gens != [] && io.commits
    requires s.cmd.gens[Last(s.cmd)].x.FinishCall? && Gn.JobStarted in s.cmd.gens[Last(s.cmd)].early
    requires gen == s.cmd.gens[Last(s.cmd)].(x := Gn.XDone, calls := gen.calls)
    ensures var v := OnJobFinished(s.svc, io.now, io.commits);
      && LogOk(s.(cmd := UpdateGen(s.cmd, Last(s.cmd), gen), svc := v))
      && RecordOk(v.db, UpdateGen(s.cmd, Last(s.cmd), gen))
  {
    AppendOne(s.svc.log, Entry(Terminated, ByJobCallback), s.boot);
  }

  lemma XMoves(g: Gn.Gen, ok: bool)
    requires g.x !in {Gn.XPc.GoOffline, Gn.XPc.FinishCall}
    ensures Gn.XCalls(g) == []
    ensures var g' := Gn.XStep(g, ok);
      && g'.early == g.early
      && (g.x.XDone? ==> g'.x.XDone?)
      && (PastOffline(g.x) ==> PastOffline(g'.x))
  {
  }

  /** A step of executeCommand without a callback. */
  lemma XQuiet(s: Agent, g: nat, ok: bool)
    requires g < |s.cmd.gens| && s.cmd.gens[g].x !in {Gn.XPc.GoOffline, Gn.XPc.FinishCall}
    ensures Gn.XCalls(s.cmd.gens[g]) == []
    ensures SameEnds(s.cmd, UpdateGen(s.cmd, g, Gn.XStep(s.cmd.gens[g], ok)))
  {
    XMoves(s.cmd.gens[g], ok);
  }

  lemma XFinal(s: Agent, g: nat, ok: bool, io: Io)
    requires Final(s) && g < |s.cmd.gens| && io.readable && io.commits
    ensures LogOk(XAct(s, g, ok, io)) && RecordOk(XAct(s, g, ok, io).svc.db, XAct(s, g, ok, io).cmd)
  {
    var gen := s.cmd.gens[g];
    assert Gn.GenInv(gen);
    if gen.x.GoOffline? {
      ActsLast(s, g);
      OfflineFinal(s, Gn.XStep(gen, ok), OnRunnerStarted(s.svc, false, io.readable));
    } else if gen.x.FinishCall? {
      ActsLast(s, g);
      FinishFinal(s, Gn.XStep(gen, ok), io);
    } else {
      XQuiet(s, g, ok);
      EndsFinal(s, UpdateGen(s.cmd, g, Gn.XStep(gen, ok)), s.sup);
    }
  }

  // ---- the scanners ---------------------------------------------------------------------------

  /** While a scanner can call back, no Terminated was sent and no finish is on record. */
  lemma ScanningFinal(s: Agent, calls: seq<Gn.Call>, gen: Gn.Gen, io: Io)
    requires LogOk(s) && RecordOk(s.svc.db, s.cmd) && s.svc.db != Garbage && s.cmd.gens != []
    requires io.readable && io.commits
    requires calls == [Gn.JobStarted] || calls == [Gn.RunnerStarted(true)]
    requires MayBeAlive(s.cmd.gens[Last(s.cmd)].x) && gen.x == s.cmd.gens[Last(s.cmd)].x
    requires gen.early == s.cmd.gens[Last(s.cmd)].early + calls
    ensures var v := Effect(s.svc, calls, io);
      && LogOk(s.(cmd := UpdateGen(s.cmd, Last(s.cmd), gen), svc := v))
      && RecordOk(v.db, UpdateGen(s.cmd, Last(s.cmd), gen))
  {
    var e := if calls == [Gn.JobStarted] then Entry(Active, ByJobCallback)
             else Entry(StatusOf(Load(s.svc.db), true), ByRunnerCallback);
    AppendOne(s.svc.log, e, s.boot);
  }

  lemma ScanFinal(s: Agent, g: nat, isErr: bool, scan: Gn.Scan, io: Io)
    requires Final(s) && g < |s.cmd.gens| && io.readable && io.commits
    ensures var s' := ScanAct(s, g, isErr, scan, io); LogOk(s') && RecordOk(s'.svc.db, s'.cmd)
  {
    var gen := s.cmd.gens[g];
    assert Gn.GenInv(gen);
    ScanCallsWhen(gen, isErr, scan);
    if Gn.ScanCalls(if isErr then gen.err else gen.out) != [] {
      ActsLast(s, g);
      ScanningFinal(s, Gn.ScanCalls(if isErr then gen.err else gen.out), Gn.ScanStep(gen, isErr, scan), io);
    } else {
      ScanQuiet(s, g, isErr, scan);
      EndsFinal(s, UpdateGen(s.cmd, g, Gn.ScanStep(gen, isErr, scan)), s.sup);
    }
  }

  /** A scanner step without a callback. */
  lemma ScanQuiet(s: Agent, g: nat, isErr: bool, scan: Gn.Scan)
    requires g < |s.cmd.gens|
    requires Gn.ScanCalls(if isErr then s.cmd.gens[g].err else s.cmd.gens[g].out) == []
    ensures SameEnds(s.cmd, UpdateGen(s.cmd, g, Gn.ScanStep(s.cmd.gens[g], isErr, scan)))
  {
    assert s.cmd.gens[g].early + [] == s.cmd.gens[g].early;
  }

  // ---- everybody else -------------------------------------------------------------------------

  lemma CreateQuiet(t: Thread, e: Sight, pick: Pick)
    requires Creating(t.pc)
    ensures var notes := CreateLocal(t, e, pick).notes; forall k :: 0 <= k < |notes| ==> !FromCallback(notes[k])
  {
  }

  lemma TryQuiet(t: Thread, e: Sight, pick: Pick)
    requires Trying(t.pc)
    ensures var notes := TryLocal(t, e, pick).notes; forall k :: 0 <= k < |notes| ==> !FromCallback(notes[k])
  {
  }

  lemma WatchQuiet(t: Thread, e: Sight, pick: Pick)
    ensures var notes := WatchLocal(t, e, pick).notes; forall k :: 0 <= k < |notes| ==> !FromCallback(notes[k])
  {
  }

  lemma SupFinal(s: Agent, pick: Pick, io: Io)
    requires Final(s)
    ensures var s' := SupStep(s, pick, io); LogOk(s') && RecordOk(s'.svc.db, s'.cmd)
  {
    if !s.sup.pc.StartCall? {
      var e := View(s, io);
      if Creating(s.sup.pc) {
        CreateQuiet(s.sup, e, pick);
      } else if Trying(s.sup.pc) {
        TryQuiet(s.sup, e, pick);
      } else {
        WatchQuiet(s.sup, e, pick);
      }
      AppendQuiet(s.svc.log, Local(s.sup, e, pick).notes, s.boot);
    }
  }

  lemma EnterEnds(c: Cmd, who: Who)
    requires c.gens != []
    ensures SameEnds(c, EnterStop(c, who))
  {
  }

  lemma ReturnEnds(c: Cmd, who: Who, supAt: bool)
    requires AtStop(c, who, supAt)
    ensures SameEnds(c, Return(c, who, supAt).cmd)
  {
  }

  lemma StopEnds(c: Cmd, who: Who, supAt: bool)
    ensures SameEnds(c, StopStep(c, who, supAt).cmd)
  {
    Base.StopCases(c, who, supAt);
    if c.gens != [] {
      EnterEnds(c, who);
    }
    if AtStop(c, who, supAt) {
      ReturnEnds(c, who, supAt);
      ReturnEnds(c.(holder := Nobody), who, supAt);
    }
  }

  lemma GenEnds(s: Agent, a: Act)
    requires a.LoopWakes? || a.Exits? || a.Cleanup?
    ensures SameEnds(s.cmd, Step(s, a).cmd) && Step(s, a) == s.(cmd := Step(s, a).cmd)
  {
  }

  lemma OtherFinal(s: Agent, a: Act)
    requires LogOk(s) && RecordOk(s.svc.db, s.cmd)
    requires a.LoopStatus? || a in {Snapshot, Cancel, Crash}
    ensures LogOk(Step(s, a)) && RecordOk(Step(s, a).svc.db, Step(s, a).cmd)
  {
    if a.LoopStatus? && s.loopSeen.Some? {
      AppendQuiet(s.svc.log, [Entry(StatusOf(Read(s.svc.db, a.io.readable), s.loopSeen.value), ByStatusLoop)], s.boot);
    }
  }

  lemma StepFinal(s: Agent, a: Act)
    requires Final(s) && Good(s, a) && DbOk(a)
    ensures Final(Step(s, a))
  {
    StepKeeps(s, a);
    match a
    case Sup(pick, io) => SupFinal(s, pick, io);
    case X(g, ok, io) => if g < |s.cmd.gens| { XFinal(s, g, ok, io); }
    case Scan(g, isErr, scan, io) => if g < |s.cmd.gens| { ScanFinal(s, g, isErr, scan, io); }
    case Stop(who) =>
      StopEnds(s.cmd, who, s.sup.pc.DeferStop?);
      EndsFinal(s, StopAct(s, who).cmd, StopAct(s, who).sup);
    case _ =>
      if a.LoopWakes? || a.Exits? || a.Cleanup? {
        GenEnds(s, a);
        EndsFinal(s, Step(s, a).cmd, s.sup);
      } else {
        OtherFinal(s, a);
      }
  }

  ghost predicate AllDbOk(acts: seq<Act>) {
    forall a :: a in acts ==> DbOk(a)
  }

  lemma {:induction false} RunFinal(s: Agent, acts: seq<Act>)
    requires Final(s) && AllDbOk(acts) && Timely(s, acts)
    ensures Final(Run(s, acts))
    decreases |acts|
  {
    if acts != [] {
      assert acts[0] in acts && forall a :: a in acts[1..] ==> a in acts;
      StepFinal(s, acts[0]);
      RunFinal(Step(s, acts[0]), acts[1..]);
    }
  }

  /** A record a previous agent can have left: a finish is there only with a start. */
  predicate Plausible(db: Stored) { db != Garbage && (JobOver(db) ==> JobKnown(db)) }

  /**
   * In every process lifetime, after the first Terminated no runner callback ever sends Idle,
   * Active or Offline again.
   */
  lemma TerminatedAbsorbs(db: Stored, acts: seq<Act>)
    requires Plausible(db) && AllDbOk(acts) && Timely(Agent0(db), acts)
    ensures var s := Run(Agent0(db), acts); Absorbing(s.svc.log, s.boot)
    ensures Plausible(Run(Agent0(db), acts).svc.db)
  {
    BootInv(db, [], 0);
    RunFinal(Agent0(db), acts);
  }

  lemma FrozenStep(s: Agent, a: Act)
    requires Final(s) && JobOver(s.svc.db)
    ensures Step(s, a).svc.db == s.svc.db
  {
    if (a.X? || a.Scan?) && a.g < |s.cmd.gens| {
      var gen := s.cmd.gens[a.g];
      assert Gn.GenInv(gen);
      if !gen.x.XDone? {
        ActsLast(s, a.g);
      }
    }
  }

  lemma {:induction false} FrozenRun(s: Agent, acts: seq<Act>)
    requires Final(s) && AllDbOk(acts) && Timely(s, acts) && JobOver(s.svc.db)
    ensures Run(s, acts).svc.db == s.svc.db
    decreases |acts|
  {
    if acts != [] {
      assert acts[0] in acts && forall a :: a in acts[1..] ==> a in acts;
      FrozenStep(s, acts[0]);
      StepFinal(s, acts[0]);
      FrozenRun(Step(s, acts[0]), acts[1..]);
    }
  }

  /** Once the finish is on record nothing writes the record again, so the job's duration is
      settled (JobState.DurationFrozen). */
  lemma RecordFrozen(db: Stored, acts: seq<Act>, more: seq<Act>)
    requires Plausible(db) && AllDbOk(acts) && Timely(Agent0(db), acts)
    requires AllDbOk(more) && Timely(Run(Agent0(db), acts), more)
    requires JobOver(Run(Agent0(db), acts).svc.db)
    ensures Run(Run(Agent0(db), acts), more).svc.db == Run(Agent0(db), acts).svc.db
  {
    BootInv(db, [], 0);
    RunFinal(Agent0(db), acts);
    FrozenRun(Run(Agent0(db), acts), more);
  }
}
