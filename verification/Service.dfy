/**
 * The part of `Service` in `service/service.go` that lives under `s.mux`: the liveness bit, the
 * runner callbacks, and the status computed from the durable record.
 */
module Service {
  import opened Wrappers
  import opened JobState

  datatype Status = Offline | Idle | Active | Terminated | Failed

  function StatusOf(record: Result<State>, runnerAlive: bool): Status {
    var base := if runnerAlive then Idle else Offline;
    match record
    case Err => base
    case Ok(st) =>
      var job := if st.jobStarted then (if runnerAlive then Active else Terminated) else base;
      if st.jobFinished then Terminated else job
  }

  /** The status says what the record and the liveness bit are. */
  predicate Reports(s: Status, record: Result<State>, alive: bool) {
    && (s.Terminated? <==> record.Ok? && (record.value.jobFinished || (record.value.jobStarted && !alive)))
    && (s.Active? <==> record.Ok? && record.value.jobStarted && !record.value.jobFinished && alive)
    && (s.Idle? || s.Offline? <==> record.Ok? ==> !record.value.jobStarted && !record.value.jobFinished)
    && (s.Idle? ==> alive) && (s.Offline? ==> !alive) && !s.Failed?
  }

  /** The whole table, read from the status back to its causes; there is one status for each. */
  lemma StatusTable(record: Result<State>, alive: bool)
    ensures Reports(StatusOf(record, alive), record, alive)
    ensures forall s :: Reports(s, record, alive) ==> s == StatusOf(record, alive)
  {
  }

  /** Who put a status together. The job callbacks send constants, the others a computed one. */
  datatype Origin = ByRunnerCallback | ByJobCallback | BySupervisor | ByStatusLoop

  datatype Entry = Entry(status: Status, origin: Origin)

  datatype Svc = Svc(db: Stored, alive: bool, hasCmd: bool, log: seq<Entry>)

  function Read(db: Stored, readable: bool): Result<State> {
    if readable then Load(db) else Err
  }

  function Note(v: Svc, s: Status, o: Origin): Svc {
    if v.hasCmd then v.(log := v.log + [Entry(s, o)]) else v
  }

  function OnRunnerStarted(v: Svc, st: bool, readable: bool): Svc {
    Note(v.(alive := st), StatusOf(Read(v.db, readable), st), ByRunnerCallback)
  }

  function OnJobStarted(v: Svc, now: int, commits: bool): Svc {
    Note(v.(db := if commits then Apply(v.db, Started(now)) else v.db), Active, ByJobCallback)
  }

  function OnJobFinished(v: Svc, now: int, commits: bool): Svc {
    Note(v.(db := if commits then Apply(v.db, Finished(now)) else v.db), Terminated, ByJobCallback)
  }

  /** What a message about a runner callback has to be, given the record read and the bit set. */
  predicate Tells(e: Entry, record: Result<State>, st: bool) {
    e.origin.ByRunnerCallback? && Reports(e.status, record, st)
  }

  /** A job is on record. */
  predicate JobKnown(db: Stored) {
    db.Encoded? && db.state.jobStarted
  }

  predicate JobOver(db: Stored) {
    db.Encoded? && db.state.jobFinished
  }

  class Service {
    const agentState: Manager
    var runnerAlive: bool
    var hasCmd: bool
    var log: seq<Entry>

    ghost function View(): Svc
      reads this, agentState
    {
      Svc(agentState.current, runnerAlive, hasCmd, log)
    }

    constructor (agentState: Manager)
      ensures this.agentState == agentState
      ensures View() == Svc(agentState.current, false, false, [])
    {
      this.agentState := agentState;
      runnerAlive, hasCmd, log := false, false, [];
    }

    method DetermineRunnerState(runnerAlive: bool, readable: bool) returns (state: Status)
      ensures state == StatusOf(Read(agentState.current, readable), runnerAlive)
    {
      state := Offline;
      if runnerAlive {
        state := Idle;
      }
      var st := agentState.GetState(readable);
      if st.Err? {
        return;
      }
      if st.value.jobStarted {
        if !runnerAlive {
          state := Terminated;
        } else {
          state := Active;
        }
      }
      if st.value.jobFinished {
        state := Terminated;
      }
    }

    method SetRunnerStarted(st: bool, readable: bool)
      modifies this
      ensures View() == OnRunnerStarted(old(View()), st, readable)
      ensures runnerAlive == st && hasCmd == old(hasCmd) && agentState.current == old(agentState.current)
      ensures !hasCmd ==> log == old(log)
      ensures hasCmd ==> |log| == |old(log)| + 1 && old(log) <= log
      ensures hasCmd ==> Tells(log[|old(log)|], Read(agentState.current, readable), st)
    {
      runnerAlive := st;
      if !hasCmd {
        return;
      }
      var status := DetermineRunnerState(runnerAlive, readable);
      log := log + [Entry(status, ByRunnerCallback)];
    }

    method SetJobStarted(now: int, commits: bool)
      modifies this, agentState
      ensures View() == OnJobStarted(old(View()), now, commits)
      ensures log == old(log) + if hasCmd then [Entry(Active, ByJobCallback)] else []
      ensures runnerAlive == old(runnerAlive) && hasCmd == old(hasCmd)
      ensures commits && old(agentState.current) != Garbage ==>
        JobKnown(agentState.current) && agentState.current.state.startTime == Some(now)
    {
      var ok := agentState.SetJobStarted(now, commits);
      if !hasCmd {
        return;
      }
      log := log + [Entry(Active, ByJobCallback)];
    }

    method SetJobFinished(now: int, commits: bool)
      modifies this, agentState
      ensures View() == OnJobFinished(old(View()), now, commits)
      ensures log == old(log) + if hasCmd then [Entry(Terminated, ByJobCallback)] else []
      ensures runnerAlive == old(runnerAlive) && hasCmd == old(hasCmd)
      ensures commits && old(agentState.current) != Garbage ==>
        JobOver(agentState.current) && agentState.current.state.finishTime == Some(now)
    {
      var ok := agentState.SetJobFinished(now, commits);
      if !hasCmd {
        return;
      }
      log := log + [Entry(Terminated, ByJobCallback)];
    }
  }
}
