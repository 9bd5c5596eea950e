/** keepRunnerAlive as the loop it is, on a finite stretch of what the environment does. */
module KeepAlive {
  import opened JobState
  import opened Service
  import opened Supervisor
  import Base = SupervisorInv
  import opened SupervisorSafety

  /** One step of the goroutine: what it sees, and which way the environment lets it go. */
  datatype Decision = Decision(e: Sight, pick: Pick)

  /** The goroutine's side of a Start call. */
  function Started(t: Thread, pick: Pick): Thread {
    if pick.Fail? then t.(pc := FailAlive, retryCount := t.retryCount + 1, failedStarts := t.failedStarts + 1)
    else t.(pc := Select, retryCount := 0, okStarts := t.okStarts + 1)
  }

  function ThreadStep(t: Thread, d: Decision): Move {
    if t.pc.StartCall? then Quiet(Started(t, d.pick)) else Local(t, d.e, d.pick)
  }

  /** The locals after a run, and all statuses computed or sent in it. */
  function ThreadRun(t: Thread, ds: seq<Decision>): Move {
    if ds == [] then Quiet(t)
    else
      var m := ThreadRun(t, ds[..|ds| - 1]);
      var n := ThreadStep(m.t, ds[|ds| - 1]);
      Move(n.t, m.notes + n.notes)
  }

  lemma RunMore(t: Thread, ds: seq<Decision>, d: Decision)
    ensures var m := ThreadRun(t, ds); var n := ThreadStep(m.t, d);
      ThreadRun(t, ds + [d]) == Move(n.t, m.notes + n.notes)
  {
    assert (ds + [d])[..|ds|] == ds;
  }

  lemma RunTwo(t: Thread, ds: seq<Decision>, a: Decision, b: Decision)
    ensures var m := ThreadRun(t, ds); var m1 := ThreadStep(m.t, a); var m2 := ThreadStep(m1.t, b);
      ThreadRun(t, ds + [a, b]) == Move(m2.t, m.notes + m1.notes + m2.notes)
  {
    RunMore(t, ds, a);
    RunMore(t, ds + [a], b);
    assert ds + [a] + [b] == ds + [a, b];
  }

  /** In every reachable state the agent's own step of the goroutine is a step of this run, or waits
      for the lock; Start never finds the command running. */
  lemma AgentStepIsThreadStep(db: Stored, acts: seq<Act>, pick: Pick, io: Io)
    ensures var s := Run(Agent0(db), acts); var s' := SupStep(s, pick, io);
      if s.sup.pc.StartCall? && !s.cmd.holder.Nobody? then s' == s
      else
        var m := ThreadStep(s.sup, Decision(View(s, io), pick));
        s'.sup == m.t && s'.svc.log == s.svc.log + m.notes
    ensures Run(Agent0(db), acts).sup.pc.StartCall? ==> !Run(Agent0(db), acts).cmd.running
  {
    BootInv(db, [], 0);
    Base.RunInv(Agent0(db), acts);
  }

  lemma {:induction false} RunRetry(t: Thread, ds: seq<Decision>)
    requires Base.RetryOk(t)
    ensures Base.RetryOk(ThreadRun(t, ds).t)
  {
    if ds != [] {
      var front, d := ds[..|ds| - 1], ds[|ds| - 1];
      RunRetry(t, front);
      var m := ThreadRun(t, front);
      if !m.t.pc.StartCall? {
        if Creating(m.t.pc) {
          Base.CreateRetry(m.t, d.e, d.pick);
        } else if Trying(m.t.pc) {
          Base.TryRetry(m.t, d.e, d.pick);
        } else {
          Base.WatchRetry(m.t, d.e, d.pick);
        }
      }
    }
  }

  const FRESH := Thread(Top, false, false, 0, 0, 0, 0)

  /** What a status check meets: it reads the liveness bit, and one critical section later the
      record. */
  datatype Look = Look(bit: Sight, db: Sight)

  function Seen(l: Look): Status { StatusOf(l.db.record, l.bit.alive) }

  /** One round of the retryStart loop: what each status check sees, whether Start works, whether
      the select is left by cancellation, and what the sleep after it meets. */
  datatype Round = Round(top: Look, startOk: bool, quitSelect: bool, after: Look, woken: Sight, timerFirst: bool)

  /** sleepWithCancel. A sleep begun after cancellation ends at once. */
  predicate Quits(r: Round) {
    r.after.db.cancelled || (r.woken.cancelled && !r.timerFirst)
  }

  /** The sleep that `Quits` decides, as a step. */
  function SleepStep(r: Round): Decision {
    if Quits(r) then Decision(r.woken.(cancelled := true), Quit) else Decision(r.woken, Timer)
  }

  function Cancelled(e: Sight): Sight { e.(cancelled := true) }

  function Woken(e: Sight): Sight { e.(waitReady := true) }

  /**
   * From retryStart on. The statuses it computes and sends, and its counts, are those of a run of
   * the goroutine's machine; it stops in front of the deferred Stop, or where the stretch ends.
   * With k successful Start calls there are at most 5k + 6 failed ones, and no more RunnerFailed
   * messages than failures.
   */
  method RetryStart(rounds: seq<Round>)
    returns (log: seq<Entry>, okStarts: nat, failedStarts: nat, failedMsgs: nat, ghost ds: seq<Decision>)
    ensures var m := ThreadRun(FRESH, ds);
      && m.notes == log
      && m.t.okStarts == okStarts && m.t.failedStarts == failedStarts && m.t.failedMsgs == failedMsgs
      && (m.t.pc.DeferStop? || m.t.pc.Top?)
    ensures failedMsgs <= failedStarts <= 5 * okStarts + 6
    ensures okStarts + failedStarts <= |rounds|
  {
    log, okStarts, failedStarts, failedMsgs, ds := [], 0, 0, 0, [];
    var retryCount := 0;
    ghost var t := FRESH;
    var deferred := false;
    var i := 0;
    while i < |rounds| && !deferred
      invariant i <= |rounds|
      invariant ThreadRun(FRESH, ds) == Move(t, log)
      invariant t.retryCount == retryCount && t.okStarts == okStarts
      invariant t.failedStarts == failedStarts && t.failedMsgs == failedMsgs
      invariant t.pc == if deferred then DeferStop else Top
      invariant okStarts + failedStarts <= i
    {
      var r := rounds[i];
      i := i + 1;
      if retryCount > 5 {
        t := GiveUpRun(t, r, ds, log);
        ds, deferred := ds + [Decision(r.top.bit, Go)], true;
        continue;
      }
      var status := Seen(r.top);
      t := TopRun(t, r, ds, log);
      log, ds := log + [Entry(status, BySupervisor)], ds + [Decision(r.top.bit, Go), Decision(r.top.db, Go)];
      if status.Terminated? {
        deferred := true;
        continue;
      }
      var quit, ok, told, notes;
      ghost var more;
      quit, ok, told, notes, more, t := Attempt(t, r, ds, log);
      log, ds := log + notes, ds + more;
      if ok {
        retryCount, okStarts := 0, okStarts + 1;
      } else {
        retryCount, failedStarts := retryCount + 1, failedStarts + 1;
        if told {
          failedMsgs := failedMsgs + 1;
        }
      }
      deferred := quit;
    }
    RunRetry(FRESH, ds);
  }

  /** From the call of Start to the next round or the deferred Stop. */
  method Attempt(ghost t: Thread, r: Round, ghost ds: seq<Decision>, ghost log: seq<Entry>)
    returns (quit: bool, ok: bool, told: bool, notes: seq<Entry>, ghost more: seq<Decision>, ghost t': Thread)
    requires t.pc.StartCall? && ThreadRun(FRESH, ds) == Move(t, log)
    ensures ThreadRun(FRESH, ds + more) == Move(t', log + notes)
    ensures t'.pc == if quit then DeferStop else Top
    ensures ok == r.startOk && (told ==> !ok)
    ensures t'.okStarts == t.okStarts + (if ok then 1 else 0)
    ensures t'.failedStarts == t.failedStarts + (if ok then 0 else 1)
    ensures t'.failedMsgs == t.failedMsgs + (if told then 1 else 0)
    ensures t'.retryCount == if ok then 0 else t.retryCount + 1
  {
    ok, told, notes := r.startOk, false, [];
    var status := Seen(r.after);
    if !ok {
      more := [Decision(r.after.bit, Fail), Decision(r.after.bit, Go), Decision(r.after.db, Go), SleepStep(r)];
      notes := [Entry(status, BySupervisor)];
      if status.Offline? {
        told := true;
        notes := notes + [Entry(Failed, BySupervisor)];
      }
      quit := Quits(r);
      t' := FailedRun(t, r, ds, log, notes);
    } else if r.quitSelect {
      more := [Decision(r.after.bit, Go), Decision(Cancelled(r.after.bit), Quit)];
      quit := true;
      t' := QuitRun(t, r, ds, log);
    } else {
      notes := [Entry(status, BySupervisor)];
      quit := status.Terminated? || Quits(r);
      var d := Decision(r.after.bit, Go);
      more := [d, Decision(Woken(r.after.bit), Go), d, Decision(r.after.db, Go)] + if status.Terminated? then [] else [SleepStep(r)];
      t' := WokenRun(t, r, ds, log);
    }
  }

  lemma FailedRun(t: Thread, r: Round, ds: seq<Decision>, log: seq<Entry>, notes: seq<Entry>) returns (t': Thread)
    requires t.pc.StartCall? && ThreadRun(FRESH, ds) == Move(t, log)
    requires var status := Seen(r.after);
      notes == [Entry(status, BySupervisor)] + if status.Offline? then [Entry(Failed, BySupervisor)] else []
    ensures var d1, d2, d3 := Decision(r.after.bit, Fail), Decision(r.after.bit, Go), Decision(r.after.db, Go);
      ThreadRun(FRESH, ds + [d1, d2, d3, SleepStep(r)]) == Move(t', log + notes)
    ensures t' == t.(pc := t'.pc, aliveSeen := t'.aliveSeen, late := t'.late,
                     retryCount := t.retryCount + 1, failedStarts := t.failedStarts + 1,
                     failedMsgs := t.failedMsgs + |notes| - 1)
    ensures t'.pc == if Quits(r) then DeferStop else Top
  {
    var d1, d2, d3 := Decision(r.after.bit, Fail), Decision(r.after.bit, Go), Decision(r.after.db, Go);
    var t2 := t.(pc := FailDb, aliveSeen := r.after.bit.alive,
                 retryCount := t.retryCount + 1, failedStarts := t.failedStarts + 1);
    RunTwo(FRESH, ds, d1, d2);
    assert log + [] + [] == log;
    assert ThreadRun(FRESH, ds + [d1, d2]) == Move(t2, log);
    t' := ReportedRun(t2, r, ds + [d1, d2], log, notes);
    assert ds + [d1, d2] + [d3, SleepStep(r)] == ds + [d1, d2, d3, SleepStep(r)];
  }

  /** The check after a failed Start, and the sleep. */
  lemma ReportedRun(t: Thread, r: Round, ds: seq<Decision>, log: seq<Entry>, notes: seq<Entry>) returns (t': Thread)
    requires t.pc.FailDb? && t.aliveSeen == r.after.bit.alive && ThreadRun(FRESH, ds) == Move(t, log)
    requires var status := Seen(r.after);
      notes == [Entry(status, BySupervisor)] + if status.Offline? then [Entry(Failed, BySupervisor)] else []
    ensures ThreadRun(FRESH, ds + [Decision(r.after.db, Go), SleepStep(r)]) == Move(t', log + notes)
    ensures t' == t.(pc := t'.pc, late := t'.late, failedMsgs := t.failedMsgs + |notes| - 1)
    ensures t'.pc == if Quits(r) then DeferStop else Top
  {
    var d := Decision(r.after.db, Go);
    RunTwo(FRESH, ds, d, SleepStep(r));
    var m := ThreadStep(t, d);
    assert m.notes == notes;
    t' := ThreadStep(m.t, SleepStep(r)).t;
    assert log + notes + [] == log + notes;
  }

  lemma QuitRun(t: Thread, r: Round, ds: seq<Decision>, log: seq<Entry>) returns (t': Thread)
    requires t.pc.StartCall? && ThreadRun(FRESH, ds) == Move(t, log)
    ensures ThreadRun(FRESH, ds + [Decision(r.after.bit, Go), Decision(Cancelled(r.after.bit), Quit)]) == Move(t', log + [])
    ensures t' == t.(pc := DeferStop, retryCount := 0, okStarts := t.okStarts + 1)
  {
    var d1, d2 := Decision(r.after.bit, Go), Decision(Cancelled(r.after.bit), Quit);
    RunTwo(FRESH, ds, d1, d2);
    assert log + [] + [] == log + [];
    t' := t.(pc := DeferStop, retryCount := 0, okStarts := t.okStarts + 1);
  }

  lemma GiveUpRun(t: Thread, r: Round, ds: seq<Decision>, log: seq<Entry>) returns (t': Thread)
    requires t.pc.Top? && t.retryCount > 5 && ThreadRun(FRESH, ds) == Move(t, log)
    ensures ThreadRun(FRESH, ds + [Decision(r.top.bit, Go)]) == Move(t', log)
    ensures t' == t.(pc := DeferStop)
  {
    RunMore(FRESH, ds, Decision(r.top.bit, Go));
    assert log + [] == log;
    t' := t.(pc := DeferStop);
  }

  lemma TopRun(t: Thread, r: Round, ds: seq<Decision>, log: seq<Entry>) returns (t': Thread)
    requires t.pc.Top? && t.retryCount <= 5 && ThreadRun(FRESH, ds) == Move(t, log)
    ensures var status := Seen(r.top);
      && ThreadRun(FRESH, ds + [Decision(r.top.bit, Go), Decision(r.top.db, Go)]) == Move(t', log + [Entry(status, BySupervisor)])
      && t' == t.(pc := if status.Terminated? then DeferStop else StartCall, aliveSeen := r.top.bit.alive)
  {
    var d1, d2 := Decision(r.top.bit, Go), Decision(r.top.db, Go);
    RunTwo(FRESH, ds, d1, d2);
    var t1 := t.(aliveSeen := r.top.bit.alive, pc := TopDb);
    assert ThreadStep(t, d1) == Quiet(t1);
    t' := ThreadStep(t1, d2).t;
    assert log + [] == log;
  }

  /** Started, woken, and about to read the record. */
  lemma WakeRun(t: Thread, r: Round, ds: seq<Decision>, log: seq<Entry>)
    requires t.pc.StartCall? && ThreadRun(FRESH, ds) == Move(t, log)
    ensures var d := Decision(r.after.bit, Go);
      ThreadRun(FRESH, ds + [d] + [Decision(Woken(r.after.bit), Go)] + [d])
        == Move(t.(pc := WakeDb, aliveSeen := r.after.bit.alive, retryCount := 0, okStarts := t.okStarts + 1), log)
  {
    var d, w := Decision(r.after.bit, Go), Decision(Woken(r.after.bit), Go);
    RunMore(FRESH, ds, d);
    RunMore(FRESH, ds + [d], w);
    RunMore(FRESH, ds + [d] + [w], d);
    assert log + [] == log;
  }

  /** Woken: the check, and the sleep unless it says Terminated. */
  lemma CheckRun(t: Thread, r: Round, ds: seq<Decision>, log: seq<Entry>) returns (t': Thread)
    requires t.pc.WakeDb? && t.aliveSeen == r.after.bit.alive && ThreadRun(FRESH, ds) == Move(t, log)
    ensures var status := Seen(r.after);
      var more := [Decision(r.after.db, Go)] + if status.Terminated? then [] else [SleepStep(r)];
      && ThreadRun(FRESH, ds + more) == Move(t', log + [Entry(status, BySupervisor)])
      && t'.pc == if status.Terminated? || Quits(r) then DeferStop else Top
    ensures t' == t.(pc := t'.pc, late := t'.late)
  {
    var d := Decision(r.after.db, Go);
    var status := Seen(r.after);
    RunMore(FRESH, ds, d);
    t' := ThreadRun(FRESH, ds + [d]).t;
    if status.Terminated? {
      assert [d] + [] == [d];
    } else {
      RunMore(FRESH, ds + [d], SleepStep(r));
      assert ds + [d] + [SleepStep(r)] == ds + ([d] + [SleepStep(r)]);
      assert log + [Entry(status, BySupervisor)] + [] == log + [Entry(status, BySupervisor)];
      t' := ThreadStep(t', SleepStep(r)).t;
    }
  }

  lemma WokenRun(t: Thread, r: Round, ds: seq<Decision>, log: seq<Entry>) returns (t': Thread)
    requires t.pc.StartCall? && ThreadRun(FRESH, ds) == Move(t, log)
    ensures var status := Seen(r.after); var d := Decision(r.after.bit, Go);
      var more := [d, Decision(Woken(r.after.bit), Go), d, Decision(r.after.db, Go)] + if status.Terminated? then [] else [SleepStep(r)];
      && ThreadRun(FRESH, ds + more) == Move(t', log + [Entry(status, BySupervisor)])
      && t'.pc == if status.Terminated? || Quits(r) then DeferStop else Top
    ensures t' == t.(pc := t'.pc, aliveSeen := t'.aliveSeen, late := t'.late, retryCount := 0, okStarts := t.okStarts + 1)
  {
    var d, w := Decision(r.after.bit, Go), Decision(Woken(r.after.bit), Go);
    WakeRun(t, r, ds, log);
    var woken := ds + [d] + [w] + [d];
    t' := CheckRun(t.(pc := WakeDb, aliveSeen := r.after.bit.alive, retryCount := 0, okStarts := t.okStarts + 1), r, woken, log);
    var tail := if Seen(r.after).Terminated? then [] else [SleepStep(r)];
    var db := Decision(r.after.db, Go);
    assert woken + ([db] + tail) == ds + ([d, w, d, db] + tail);
  }

  // ---- until the runner command is there ------------------------------------------------------

  /** One round of the retryCreate loop. */
  datatype Creation = Creation(seen: Look, createOk: bool, woken: Sight, timerFirst: bool)

  const ENTRY := Thread(CreateAlive, false, false, 0, 0, 0, 0)

  predicate QuitsCreation(r: Creation) {
    r.seen.db.cancelled || (r.woken.cancelled && !r.timerFirst)
  }

  /** NewRunnerCommand. */
  function CreateDecision(r: Creation): Decision {
    if r.createOk then Decision(r.seen.db, Go) else Decision(r.seen.db, Fail)
  }

  /** Putting the command in place, or the sleep when there is none. */
  function AfterCreate(r: Creation): Decision {
    if r.createOk then Decision(r.seen.db, Go)
    else if QuitsCreation(r) then Decision(Cancelled(r.woken), Quit)
    else Decision(r.woken, Timer)
  }

  function CreationSteps(r: Creation): seq<Decision> {
    var look := [Decision(r.seen.bit, Go), Decision(r.seen.db, Go)];
    if Seen(r.seen).Terminated? then look else look + [CreateDecision(r), AfterCreate(r)]
  }

  lemma EntryCheckRun(t: Thread, r: Creation, ds: seq<Decision>, log: seq<Entry>) returns (t': Thread)
    requires t.pc.CreateAlive? && ThreadRun(ENTRY, ds) == Move(t, log)
    ensures var status := Seen(r.seen);
      && ThreadRun(ENTRY, ds + [Decision(r.seen.bit, Go), Decision(r.seen.db, Go)]) == Move(t', log + [Entry(status, BySupervisor)])
      && t'.pc == if status.Terminated? then Returned else Create
  {
    var d1, d2 := Decision(r.seen.bit, Go), Decision(r.seen.db, Go);
    RunTwo(ENTRY, ds, d1, d2);
    assert log + [] == log;
    t' := ThreadRun(ENTRY, ds + [d1, d2]).t;
  }

  lemma CreatingRun(t: Thread, r: Creation, ds: seq<Decision>, log: seq<Entry>) returns (t': Thread)
    requires t.pc.Create? && ThreadRun(ENTRY, ds) == Move(t, log)
    ensures ThreadRun(ENTRY, ds + [CreateDecision(r), AfterCreate(r)]) == Move(t', log)
    ensures t'.pc == if r.createOk then Top else if QuitsCreation(r) then Returned else CreateAlive
  {
    var d1, d2 := CreateDecision(r), AfterCreate(r);
    RunTwo(ENTRY, ds, d1, d2);
    assert log + [] + [] == log;
    t' := ThreadRun(ENTRY, ds + [d1, d2]).t;
  }

  lemma CreationRun(t: Thread, r: Creation, ds: seq<Decision>, log: seq<Entry>) returns (t': Thread)
    requires t.pc.CreateAlive? && ThreadRun(ENTRY, ds) == Move(t, log)
    ensures var status := Seen(r.seen);
      && ThreadRun(ENTRY, ds + CreationSteps(r)) == Move(t', log + [Entry(status, BySupervisor)])
      && t'.pc == if status.Terminated? then Returned
                  else if r.createOk then Top
                  else if QuitsCreation(r) then Returned else CreateAlive
  {
    var look, status := [Decision(r.seen.bit, Go), Decision(r.seen.db, Go)], Seen(r.seen);
    t' := EntryCheckRun(t, r, ds, log);
    if !status.Terminated? {
      t' := CreatingRun(t', r, ds + look, log + [Entry(status, BySupervisor)]);
      assert ds + look + [CreateDecision(r), AfterCreate(r)] == ds + CreationSteps(r);
    }
  }

  /**
   * From the entry of keepRunnerAlive: check, create, and on failure sleep and check again. The
   * command is created only right after a check that did not say Terminated, and every check before
   * it was of that kind too.
   */
  method RetryCreate(rounds: seq<Creation>)
    returns (created: bool, returned: bool, log: seq<Entry>, ghost ds: seq<Decision>)
    ensures var m := ThreadRun(ENTRY, ds);
      m.notes == log && m.t.pc == if created then Top else if returned then Returned else CreateAlive
    ensures created ==> log != [] && forall k :: 0 <= k < |log| ==> !log[k].status.Terminated?
    ensures !created && !returned ==> |log| == |rounds|
  {
    created, returned, log, ds := false, false, [], [];
    ghost var t := ENTRY;
    var i := 0;
    while i < |rounds| && !created && !returned
      invariant i <= |rounds| && |log| == i
      invariant !(created && returned)
      invariant ThreadRun(ENTRY, ds) == Move(t, log)
      invariant t.pc == if created then Top else if returned then Returned else CreateAlive
      invariant !returned ==> forall k :: 0 <= k < |log| ==> !log[k].status.Terminated?
      invariant created ==> log != []
    {
      var r := rounds[i];
      t := CreationRun(t, r, ds, log);
      ds := ds + CreationSteps(r);
      var status := Seen(r.seen);
      log := log + [Entry(status, BySupervisor)];
      i := i + 1;
      if status.Terminated? {
        returned := true;
      } else if r.createOk {
        created := true;
      } else {
        returned := QuitsCreation(r);
      }
    }
  }
}
