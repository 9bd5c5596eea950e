/** What the runner callbacks send: one message each, in every run of the agent. */
module SupervisorCallbacks {
  import opened JobState
  import Gn = Runner
  import opened Service
  import opened Supervisor
  import Base = SupervisorInv
  import opened SupervisorSafety

  // ---- one step -----------------------------------------------------------------------------------

  /** The callbacks a step of generation `g` adds to those it made before. */
  function NewCalls(s: Agent, s': Agent, g: nat): seq<Gn.Call>
    requires g < |s.cmd.gens| && |s'.cmd.gens| == |s.cmd.gens|
    requires |s.cmd.gens[g].calls| <= |s'.cmd.gens[g].calls|
  {
    s'.cmd.gens[g].calls[|s.cmd.gens[g].calls|..]
  }

  /** The message and the change of state that belong to a callback. */
  predicate Sends(v: Svc, v': Svc, c: Gn.Call, io: Io) {
    && |v'.log| == |v.log| + 1 && v.log <= v'.log && v'.hasCmd == v.hasCmd
    && var e := v'.log[|v.log|];
    match c
    case JobStarted =>
      && e == Entry(Active, ByJobCallback) && v'.alive == v.alive
      && (io.commits && v.db != Garbage ==> JobKnown(v'.db) && v'.db.state.startTime.Some? && v'.db.state.startTime.value == io.now)
    case JobFinished =>
      && e == Entry(Terminated, ByJobCallback) && v'.alive == v.alive
      && (io.commits && v.db != Garbage ==> JobOver(v'.db) && v'.db.state.finishTime.Some? && v'.db.state.finishTime.value == io.now)
    case RunnerStarted(st) =>
      e.origin.ByRunnerCallback? && Reports(e.status, Read(v.db, io.readable), st) && v'.alive == st && v'.db == v.db
  }

  lemma EffectSends(v: Svc, c: Gn.Call, io: Io)
    requires v.hasCmd
    ensures Sends(v, Effect(v, [c], io), c, io)
  {
    if c.RunnerStarted? {
      StatusTable(Read(v.db, io.readable), c.st);
    }
  }

  /** A step of executeCommand or of a scanner that makes a callback sends its one message; any other
      leaves the service alone. */
  lemma CallbackSends(s: Agent, a: Act)
    requires (a.X? || a.Scan?) && a.g < |s.cmd.gens| && s.svc.hasCmd
    ensures var s' := Step(s, a);
      && |s'.cmd.gens| == |s.cmd.gens| && s.cmd.gens[a.g].calls <= s'.cmd.gens[a.g].calls
      && var calls := NewCalls(s, s', a.g);
      && |calls| <= 1
      && (if calls == [] then s'.svc == s.svc else Sends(s.svc, s'.svc, calls[0], a.io))
  {
    var gen := s.cmd.gens[a.g];
    var calls := if a.X? then Gn.XCalls(gen) else Gn.ScanCalls(Gn.PcOf(gen, a.isErr));
    var s' := Step(s, a);
    assert s'.cmd.gens[a.g].calls == gen.calls + calls by {
      assert gen.calls + [] == gen.calls;
    }
    assert NewCalls(s, s', a.g) == calls;
    if calls != [] {
      assert calls == [calls[0]];
      EffectSends(s.svc, calls[0], a.io);
    }
  }

  // ---- all of them --------------------------------------------------------------------------------

  datatype Kind = Start | Finish | Liveness

  predicate CallOf(c: Gn.Call, k: Kind) {
    match k
    case Start => c.JobStarted?
    case Finish => c.JobFinished?
    case Liveness => c.RunnerStarted?
  }

  /** The messages of that kind of callback. */
  predicate EntryOf(e: Entry, k: Kind) {
    match k
    case Start => e == Entry(Active, ByJobCallback)
    case Finish => e == Entry(Terminated, ByJobCallback)
    case Liveness => e.origin.ByRunnerCallback?
  }

  function CallCount(calls: seq<Gn.Call>, k: Kind): nat {
    if calls == [] then 0 else CallCount(calls[..|calls| - 1], k) + if CallOf(calls[|calls| - 1], k) then 1 else 0
  }

  /** Over all generations since the agent came up. */
  function AllCalls(gens: seq<Gn.Gen>, k: Kind): nat {
    if gens == [] then 0 else AllCalls(gens[..|gens| - 1], k) + CallCount(gens[|gens| - 1].calls, k)
  }

  function EntryCount(log: seq<Entry>, k: Kind): nat {
    if log == [] then 0 else EntryCount(log[..|log| - 1], k) + if EntryOf(log[|log| - 1], k) then 1 else 0
  }

  lemma CallMore(calls: seq<Gn.Call>, c: Gn.Call, k: Kind)
    ensures CallCount(calls + [c], k) == CallCount(calls, k) + if CallOf(c, k) then 1 else 0
  {
    assert (calls + [c])[..|calls|] == calls;
  }

  lemma EntryMore(log: seq<Entry>, e: Entry, k: Kind)
    ensures EntryCount(log + [e], k) == EntryCount(log, k) + if EntryOf(e, k) then 1 else 0
  {
    assert (log + [e])[..|log|] == log;
  }

  lemma {:induction false} OneChanged(gens: seq<Gn.Gen>, g: nat, gen: Gn.Gen, k: Kind)
    requires g < |gens|
    ensures AllCalls(gens[g := gen], k) == AllCalls(gens, k) - CallCount(gens[g].calls, k) + CallCount(gen.calls, k)
    decreases |gens|
  {
    var n := |gens| - 1;
    if g == n {
      assert gens[g := gen][..n] == gens[..n];
    } else {
      OneChanged(gens[..n], g, gen, k);
      assert gens[g := gen][..n] == gens[..n][g := gen];
    }
  }

  lemma {:induction false} SameCalls(gens: seq<Gn.Gen>, gens': seq<Gn.Gen>, k: Kind)
    requires |gens'| == |gens| && forall g :: 0 <= g < |gens| ==> gens'[g].calls == gens[g].calls
    ensures AllCalls(gens', k) == AllCalls(gens, k)
    decreases |gens|
  {
    if gens != [] {
      SameCalls(gens[..|gens| - 1], gens'[..|gens| - 1], k);
    }
  }

  /** The log since the agent came up. */
  function Since(s: Agent): seq<Entry>
    requires s.boot <= |s.svc.log|
  {
    s.svc.log[s.boot..]
  }

  /** As many messages as callbacks, kind by kind. */
  predicate Balanced(s: Agent, k: Kind) {
    s.boot <= |s.svc.log| && EntryCount(Since(s), k) == AllCalls(s.cmd.gens, k)
  }

  lemma {:induction false} NoteMore(log: seq<Entry>, notes: seq<Entry>, k: Kind)
    requires forall i :: 0 <= i < |notes| ==> !EntryOf(notes[i], k)
    ensures EntryCount(log + notes, k) == EntryCount(log, k)
    decreases |notes|
  {
    if notes == [] {
      assert log + notes == log;
    } else {
      var front, last := notes[..|notes| - 1], notes[|notes| - 1];
      NoteMore(log, front, k);
      EntryMore(log + front, last, k);
      assert log + front + [last] == log + notes;
    }
  }

  /** A callback and its message are counted under the same kind. */
  lemma SameKind(v: Svc, v': Svc, c: Gn.Call, io: Io, k: Kind)
    requires Sends(v, v', c, io)
    ensures EntryOf(v'.log[|v.log|], k) <==> CallOf(c, k)
  {
  }

  lemma OneEach(log: seq<Entry>, log': seq<Entry>, boot: nat, gen: Gn.Gen, gen': Gn.Gen, c: Gn.Call, k: Kind)
    requires boot <= |log| && |log'| == |log| + 1 && log <= log' && gen'.calls == gen.calls + [c]
    requires EntryOf(log'[|log|], k) <==> CallOf(c, k)
    ensures EntryCount(log'[boot..], k) - EntryCount(log[boot..], k) == CallCount(gen'.calls, k) - CallCount(gen.calls, k)
  {
    CallMore(gen.calls, c, k);
    EntryMore(log[boot..], log'[|log|], k);
    assert log'[boot..] == log[boot..] + [log'[|log|]];
  }

  /** The sums on both sides move together. */
  lemma CountsMove(log: seq<Entry>, log': seq<Entry>, boot: nat, gens: seq<Gn.Gen>, g: nat, gen: Gn.Gen, k: Kind)
    requires boot <= |log| && boot <= |log'| && g < |gens|
    requires EntryCount(log[boot..], k) == AllCalls(gens, k)
    requires EntryCount(log'[boot..], k) - EntryCount(log[boot..], k) == CallCount(gen.calls, k) - CallCount(gens[g].calls, k)
    ensures EntryCount(log'[boot..], k) == AllCalls(gens[g := gen], k)
  {
    OneChanged(gens, g, gen, k);
  }

  lemma MoveCounts(log: seq<Entry>, log': seq<Entry>, boot: nat, gen: Gn.Gen, gen': Gn.Gen, calls: seq<Gn.Call>, k: Kind)
    requires boot <= |log| && log <= log' && gen'.calls == gen.calls + calls && |log'| == |log| + |calls| && |calls| <= 1
    requires calls != [] ==> (EntryOf(log'[|log|], k) <==> CallOf(calls[0], k))
    ensures EntryCount(log'[boot..], k) - EntryCount(log[boot..], k) == CallCount(gen'.calls, k) - CallCount(gen.calls, k)
  {
    if calls == [] {
      assert log' == log && gen'.calls == gen.calls;
    } else {
      assert gen'.calls == gen.calls + [calls[0]];
      OneEach(log, log', boot, gen, gen', calls[0], k);
    }
  }

  /** What a callback step does to the two logs and to nothing else that counts. */
  lemma CallbackMoves(s: Agent, a: Act, k: Kind) returns (gen: Gn.Gen, calls: seq<Gn.Call>)
    requires Base.Inv(s) && (a.X? || a.Scan?) && a.g < |s.cmd.gens|
    ensures var s' := Step(s, a);
      && s'.boot == s.boot && s'.cmd.gens == s.cmd.gens[a.g := gen] && gen.calls == s.cmd.gens[a.g].calls + calls
      && s.svc.log <= s'.svc.log && |s'.svc.log| == |s.svc.log| + |calls| && |calls| <= 1
      && (calls != [] ==> (EntryOf(s'.svc.log[|s.svc.log|], k) <==> CallOf(calls[0], k)))
  {
    CallbackSends(s, a);
    var s' := Step(s, a);
    gen, calls := s'.cmd.gens[a.g], NewCalls(s, s', a.g);
    OneMoves(s, a, gen);
    if calls != [] {
      SameKind(s.svc, s'.svc, calls[0], a.io, k);
    }
  }

  lemma CallbackBalanced(s: Agent, a: Act, k: Kind)
    requires Base.Inv(s) && Balanced(s, k) && (a.X? || a.Scan?) && a.g < |s.cmd.gens|
    ensures Balanced(Step(s, a), k)
  {
    var gen, calls := CallbackMoves(s, a, k);
    MoveCounts(s.svc.log, Step(s, a).svc.log, s.boot, s.cmd.gens[a.g], gen, calls, k);
    CountsMove(s.svc.log, Step(s, a).svc.log, s.boot, s.cmd.gens, a.g, gen, k);
  }

  lemma OneMoves(s: Agent, a: Act, gen: Gn.Gen)
    requires (a.X? || a.Scan?) && a.g < |s.cmd.gens| && a.g < |Step(s, a).cmd.gens| && gen == Step(s, a).cmd.gens[a.g]
    ensures Step(s, a).cmd.gens == s.cmd.gens[a.g := gen] && Step(s, a).boot == s.boot
  {
  }

  lemma StartBalanced(c: Cmd, k: Kind)
    ensures AllCalls(StartCmd(c).gens, k) == AllCalls(c.gens, k)
  {
    if !c.running {
      assert (c.gens + [Gn.NEWGEN])[..|c.gens|] == c.gens;
    }
  }

  lemma SupNotes(s: Agent, pick: Pick, io: Io)
    requires !s.sup.pc.StartCall?
    ensures var notes := Local(s.sup, View(s, io), pick).notes;
      forall i, k :: 0 <= i < |notes| ==> !EntryOf(notes[i], k)
  {
    var t, e := s.sup, View(s, io);
    if Creating(t.pc) {
      CreateQuiet(t, e, pick);
    } else if Trying(t.pc) {
      TryQuiet(t, e, pick);
    } else {
      WatchQuiet(t, e, pick);
    }
  }

  predicate Own(notes: seq<Entry>) { forall i :: 0 <= i < |notes| ==> notes[i].origin.BySupervisor? }

  lemma CreateQuiet(t: Thread, e: Sight, pick: Pick)
    requires Creating(t.pc)
    ensures Own(CreateLocal(t, e, pick).notes)
  {
  }

  lemma TryQuiet(t: Thread, e: Sight, pick: Pick)
    requires Trying(t.pc)
    ensures Own(TryLocal(t, e, pick).notes)
  {
  }

  lemma WatchQuiet(t: Thread, e: Sight, pick: Pick)
    ensures Own(WatchLocal(t, e, pick).notes)
  {
  }

  lemma SupBalanced(s: Agent, pick: Pick, io: Io, k: Kind)
    requires Balanced(s, k)
    ensures Balanced(SupStep(s, pick, io), k)
  {
    if s.sup.pc.StartCall? {
      StartBalanced(s.cmd, k);
    } else {
      SupNotes(s, pick, io);
      NotesBalanced(s, SupStep(s, pick, io), Local(s.sup, View(s, io), pick).notes, k);
    }
  }

  lemma NotesBalanced(s: Agent, s': Agent, notes: seq<Entry>, k: Kind)
    requires Balanced(s, k) && s'.boot == s.boot && s'.cmd == s.cmd && s'.svc.log == s.svc.log + notes
    requires forall i :: 0 <= i < |notes| ==> !EntryOf(notes[i], k)
    ensures Balanced(s', k)
  {
    assert Since(s') == Since(s) + notes;
    NoteMore(Since(s), notes, k);
  }

  /** Stop, cleanup, the loop goroutines and the exit of a process make no callback. */
  lemma OtherCalls(s: Agent, a: Act, k: Kind)
    requires a.Stop? || a.Cleanup? || a.LoopWakes? || a.Exits?
    ensures AllCalls(Step(s, a).cmd.gens, k) == AllCalls(s.cmd.gens, k)
    ensures Step(s, a).svc == s.svc && Step(s, a).boot == s.boot
  {
    if a.Stop? {
      StopCalls(s.cmd, a.who, s.sup.pc.DeferStop?);
    }
    SameCalls(s.cmd.gens, Step(s, a).cmd.gens, k);
  }

  lemma StopCalls(c: Cmd, who: Who, supAt: bool)
    ensures var c' := StopStep(c, who, supAt).cmd;
      |c'.gens| == |c.gens| && forall g :: 0 <= g < |c.gens| ==> c'.gens[g].calls == c.gens[g].calls
  {
    Base.StopCases(c, who, supAt);
  }

  lemma StepBalanced(s: Agent, a: Act, k: Kind)
    requires Base.Inv(s) && Balanced(s, k)
    ensures Balanced(Step(s, a), k)
  {
    if a.Sup? {
      SupBalanced(s, a.pick, a.io, k);
    } else if a.X? || a.Scan? {
      if a.g < |s.cmd.gens| {
        CallbackBalanced(s, a, k);
      }
    } else if a.Stop? || a.Cleanup? || a.LoopWakes? || a.Exits? {
      OtherCalls(s, a, k);
    } else if a.LoopStatus? && s.loopSeen.Some? {
      var e := Entry(StatusOf(Read(s.svc.db, a.io.readable), s.loopSeen.value), ByStatusLoop);
      assert Since(Step(s, a)) == Since(s) + [e];
      EntryMore(Since(s), e, k);
    }
  }

  lemma {:induction false} RunBalanced(s: Agent, acts: seq<Act>, k: Kind)
    requires Base.Inv(s) && Balanced(s, k)
    ensures Balanced(Run(s, acts), k)
    decreases |acts|
  {
    if acts != [] {
      StepBalanced(s, acts[0], k);
      Base.StepInv(s, acts[0]);
      RunBalanced(Step(s, acts[0]), acts[1..], k);
    }
  }

  lemma {:induction false} Counted(log: seq<Entry>, k: Kind) returns (i: nat)
    requires EntryCount(log, k) > 0
    ensures i < |log| && EntryOf(log[i], k)
  {
    if EntryOf(log[|log| - 1], k) {
      i := |log| - 1;
    } else {
      i := Counted(log[..|log| - 1], k);
    }
  }

  lemma {:induction false} OneOfAll(gens: seq<Gn.Gen>, g: nat, k: Kind)
    requires g < |gens|
    ensures AllCalls(gens, k) >= CallCount(gens[g].calls, k)
    decreases |gens|
  {
    if g < |gens| - 1 {
      OneOfAll(gens[..|gens| - 1], g, k);
    }
  }

  /**
   * Over every run, in each process lifetime: the agent has sent as many Active messages as there
   * were SetJobStarted calls, as many Terminated messages of a job's end as there were
   * SetJobFinished calls, and as many liveness reports as there were SetRunnerStarted calls. So a
   * generation that scanned a job start and went through has had a Terminated sent.
   */
  lemma EveryCallbackSends(db: Stored, acts: seq<Act>)
    ensures var s := Run(Agent0(db), acts);
      && (forall k :: Balanced(s, k))
      && (forall g :: 0 <= g < |s.cmd.gens| && s.cmd.gens[g].x.XDone? && Gn.Matched(s.cmd.gens[g].lines) ==>
            exists i :: s.boot <= i < |s.svc.log| && s.svc.log[i] == Entry(Terminated, ByJobCallback))
  {
    BootInv(db, [], 0);
    Base.RunInv(Agent0(db), acts);
    var s := Run(Agent0(db), acts);
    forall k ensures Balanced(s, k) {
      RunBalanced(Agent0(db), acts, k);
    }
    forall g | 0 <= g < |s.cmd.gens| && s.cmd.gens[g].x.XDone? && Gn.Matched(s.cmd.gens[g].lines)
      ensures exists i :: s.boot <= i < |s.svc.log| && s.svc.log[i] == Entry(Terminated, ByJobCallback)
    {
      FinishedSent(s, g);
    }
  }

  lemma FinishedSent(s: Agent, g: nat)
    requires Base.Inv(s) && Balanced(s, Finish) && g < |s.cmd.gens|
    requires s.cmd.gens[g].x.XDone? && Gn.Matched(s.cmd.gens[g].lines)
    ensures exists i :: s.boot <= i < |s.svc.log| && s.svc.log[i] == Entry(Terminated, ByJobCallback)
  {
    var gen := s.cmd.gens[g];
    assert Gn.GenInv(gen);
    assert gen.jobStarted;
    assert gen.calls == gen.early + [Gn.RunnerStarted(false)] + [Gn.JobFinished];
    CallMore(gen.early + [Gn.RunnerStarted(false)], Gn.JobFinished, Finish);
    OneOfAll(s.cmd.gens, g, Finish);
    var i := Counted(Since(s), Finish);
    assert s.svc.log[s.boot + i] == Since(s)[i];
  }
}
