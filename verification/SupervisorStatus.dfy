/** Every status the agent computes, told from the schedule: which liveness bit and which record it
    was computed from, and what comes of it. */
module SupervisorStatus {
  import opened Wrappers
  import opened JobState
  import opened Service
  import opened Supervisor
  import opened SupervisorSafety
  import opened SupervisorLimits

  function At(db: Stored, acts: seq<Act>, k: nat): Agent
    requires k <= |acts|
  {
    Run(Agent0(db), acts[..k])
  }

  lemma Next(db: Stored, acts: seq<Act>, k: nat)
    requires k < |acts|
    ensures At(db, acts, k + 1) == Step(At(db, acts, k), acts[k])
  {
    assert acts[..k + 1] == acts[..k] + [acts[k]];
    OneMore(Agent0(db), acts[..k], acts[k]);
  }

  // ---- the status that loop sends after a reconnect -----------------------------------------------

  /** A snapshot with a runner command in place. */
  predicate Snaps(s: Agent, a: Act) { a.Snapshot? && s.svc.hasCmd }

  /** The snapshot at `j` is the one loop goes by at `k`. */
  ghost predicate InHand(db: Stored, acts: seq<Act>, j: nat, k: nat)
    requires k <= |acts|
  {
    && j < k && Snaps(At(db, acts, j), acts[j])
    && forall i :: j < i < k ==> !Snaps(At(db, acts, i), acts[i]) && !acts[i].LoopStatus? && !acts[i].Crash?
  }

  lemma StillInHand(db: Stored, acts: seq<Act>, k: nat)
    requires 0 < k <= |acts|
    requires !Snaps(At(db, acts, k - 1), acts[k - 1]) && !acts[k - 1].LoopStatus? && !acts[k - 1].Crash?
    ensures forall i: nat :: InHand(db, acts, i, k) <==> InHand(db, acts, i, k - 1)
  {
  }

  lemma SeenKept(s: Agent, a: Act)
    requires !Snaps(s, a) && !a.LoopStatus? && !a.Crash?
    ensures Step(s, a).loopSeen == s.loopSeen
  {
  }

  lemma {:induction false} SeenMeans(db: Stored, acts: seq<Act>, k: nat) returns (j: nat)
    requires k <= |acts|
    ensures At(db, acts, k).loopSeen.Some? ==>
      InHand(db, acts, j, k) && At(db, acts, k).loopSeen.value == At(db, acts, j).svc.alive
    ensures At(db, acts, k).loopSeen.None? ==> forall i: nat :: !InHand(db, acts, i, k)
  {
    j := 0;
    if k > 0 {
      Next(db, acts, k - 1);
      j := SeenMeans(db, acts, k - 1);
      var s, a := At(db, acts, k - 1), acts[k - 1];
      if Snaps(s, a) {
        j := k - 1;
      } else if !a.LoopStatus? && !a.Crash? {
        SeenKept(s, a);
        StillInHand(db, acts, k);
      }
    }
  }

  /** The step adds one status of this origin, and it reports this bit and this record. */
  predicate AddsOne(s: Agent, s': Agent, origin: Origin, record: Result<State>, alive: bool) {
    && |s'.svc.log| == |s.svc.log| + 1 && s.svc.log <= s'.svc.log
    && s'.svc.log[|s.svc.log|].origin == origin
    && Reports(s'.svc.log[|s.svc.log|].status, record, alive)
  }

  /**
   * In every schedule the status loop sends nothing without a snapshot in hand, and with one
   * exactly one status: it reports the liveness bit as the snapshot found it, however long ago, and
   * the record as it is read now.
   */
  lemma StatusLoopReports(db: Stored, acts: seq<Act>, k: nat) returns (j: nat)
    requires k < |acts| && acts[k].LoopStatus?
    ensures var s, s' := At(db, acts, k), At(db, acts, k + 1);
      if InHand(db, acts, j, k)
      then AddsOne(s, s', ByStatusLoop, Read(s.svc.db, acts[k].io.readable), At(db, acts, j).svc.alive)
      else s'.svc == s.svc && forall i: nat :: !InHand(db, acts, i, k)
  {
    j := SeenMeans(db, acts, k);
    Next(db, acts, k);
    var s := At(db, acts, k);
    if s.loopSeen.Some? {
      StatusTable(Read(s.svc.db, acts[k].io.readable), s.loopSeen.value);
    }
  }

  // ---- the supervisor's own checks ----------------------------------------------------------------

  /** The step reads the record, with the bit read before. */
  predicate AtRecord(pc: SupPc) { pc in {CreateDb, TopDb, FailDb, WakeDb} }

  /** Where the bit of that check is read. */
  function AtBit(pc: SupPc): SupPc
    requires AtRecord(pc)
  {
    match pc
    case CreateDb => CreateAlive
    case TopDb => Top
    case FailDb => FailAlive
    case WakeDb => WakeAlive
  }

  /** The check at `k` began at `j`: nothing of the supervisor's in between. */
  ghost predicate BeganAt(db: Stored, acts: seq<Act>, j: nat, k: nat)
    requires k <= |acts| && AtRecord(At(db, acts, k).sup.pc)
  {
    && j < k && acts[j].Sup? && At(db, acts, j).sup.pc == AtBit(At(db, acts, k).sup.pc)
    && forall i :: j < i < k ==> !acts[i].Sup? && !acts[i].Crash?
  }

  lemma CreateBit(t: Thread, e: Sight, pick: Pick)
    requires Creating(t.pc)
    ensures var t' := CreateLocal(t, e, pick).t; AtRecord(t'.pc) ==> t.pc == AtBit(t'.pc) && t'.aliveSeen == e.alive
  {
  }

  lemma TryBit(t: Thread, e: Sight, pick: Pick)
    requires Trying(t.pc)
    ensures var t' := TryLocal(t, e, pick).t; AtRecord(t'.pc) ==> t.pc == AtBit(t'.pc) && t'.aliveSeen == e.alive
  {
  }

  lemma WatchBit(t: Thread, e: Sight, pick: Pick)
    requires !Creating(t.pc) && !Trying(t.pc) && !t.pc.StartCall?
    ensures var t' := WatchLocal(t, e, pick).t; AtRecord(t'.pc) ==> t.pc == AtBit(t'.pc) && t'.aliveSeen == e.alive
  {
  }

  lemma StepBit(s: Agent, a: Act)
    requires AtRecord(Step(s, a).sup.pc)
    ensures !a.Crash?
    ensures a.Sup? ==> s.sup.pc == AtBit(Step(s, a).sup.pc) && Step(s, a).sup.aliveSeen == s.svc.alive
    ensures !a.Sup? ==> Step(s, a).sup == s.sup
  {
    if a.Sup? && !s.sup.pc.StartCall? {
      var e := View(s, a.io);
      if Creating(s.sup.pc) {
        CreateBit(s.sup, e, a.pick);
      } else if Trying(s.sup.pc) {
        TryBit(s.sup, e, a.pick);
      } else {
        WatchBit(s.sup, e, a.pick);
      }
    }
  }

  lemma {:induction false} BitMeans(db: Stored, acts: seq<Act>, k: nat) returns (j: nat)
    requires k <= |acts| && AtRecord(At(db, acts, k).sup.pc)
    ensures BeganAt(db, acts, j, k) && At(db, acts, k).sup.aliveSeen == At(db, acts, j).svc.alive
  {
    if k == 0 {
      assert false;
    } else {
      Next(db, acts, k - 1);
      StepBit(At(db, acts, k - 1), acts[k - 1]);
      j := k - 1;
      if !acts[k - 1].Sup? {
        j := BitMeans(db, acts, k - 1);
      }
    }
  }

  /** What follows a check. */
  function AfterCheck(pc: SupPc, ended: bool): SupPc
    requires AtRecord(pc)
  {
    match pc
    case CreateDb => if ended then Returned else Create
    case TopDb => if ended then DeferStop else StartCall
    case FailDb => FailSleep
    case WakeDb => if ended then DeferStop else WakeSleep
  }

  lemma LocalReports(t: Thread, e: Sight, pick: Pick)
    requires AtRecord(t.pc)
    ensures var m := Local(t, e, pick);
      && |m.notes| >= 1 && m.notes[0].origin.BySupervisor? && Reports(m.notes[0].status, e.record, t.aliveSeen)
      && m.notes[1..] == (if t.pc.FailDb? && m.notes[0].status.Offline? then [Entry(Failed, BySupervisor)] else [])
      && m.t.pc == AfterCheck(t.pc, m.notes[0].status.Terminated?)
  {
    StatusTable(e.record, t.aliveSeen);
  }

  /**
   * In every schedule each check of keepRunnerAlive computes one status: it reports the liveness bit
   * as the check's first step found it and the record as its second step reads it. Terminated ends
   * the goroutine, except after a failed Start; anything else lets it go on. After a failed Start an
   * Offline is followed by one RunnerFailed.
   */
  lemma SupervisorReports(db: Stored, acts: seq<Act>, k: nat) returns (j: nat)
    requires k < |acts| && acts[k].Sup? && AtRecord(At(db, acts, k).sup.pc)
    ensures BeganAt(db, acts, j, k)
    ensures var s, s' := At(db, acts, k), At(db, acts, k + 1); var n := |s.svc.log|;
      && s.svc.log <= s'.svc.log && |s'.svc.log| > n && s'.svc.log[n].origin.BySupervisor?
      && Reports(s'.svc.log[n].status, Read(s.svc.db, acts[k].io.readable), At(db, acts, j).svc.alive)
      && s'.svc.log[n + 1..] == (if s.sup.pc.FailDb? && s'.svc.log[n].status.Offline? then [Entry(Failed, BySupervisor)] else [])
      && s'.sup.pc == AfterCheck(s.sup.pc, s'.svc.log[n].status.Terminated?)
  {
    j := BitMeans(db, acts, k);
    Next(db, acts, k);
    var s := At(db, acts, k);
    LocalReports(s.sup, View(s, acts[k].io), acts[k].pick);
  }

  /** Its other steps compute nothing; the runner command is put in place by Publish. */
  lemma SupervisorQuiet(s: Agent, pick: Pick, io: Io)
    requires !AtRecord(s.sup.pc)
    ensures var v := SupStep(s, pick, io).svc;
      v.log == s.svc.log && v.db == s.svc.db && v.alive == s.svc.alive
      && v.hasCmd == (s.svc.hasCmd || s.sup.pc.Publish?)
  {
  }
}
