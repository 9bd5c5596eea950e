/**
 * The runner supervisor: `keepRunnerAlive` of `service/service.go`, every generation it starts,
 * `runnerCmd.Start` and `Stop` under `runnerCmd.mux`, the service callbacks under `s.mux`, and the
 * durable record. A crash drops everything but the record, and the agent starts over.
 */
module Supervisor {
  import opened Wrappers
  import opened JobState
  import Exec = Executor
  import Gn = Runner
  import opened Service

  // ---- keepRunnerAlive ------------------------------------------------------------------------

  /** Program counter of keepRunnerAlive. Reading the liveness bit and reading the record are two
      separate critical sections, so every status check is two steps. `retryCreate` is CreateAlive,
      `retryStart` is Top. */
  datatype SupPc =
    | CreateAlive | CreateDb | Create | CreateSleep | Publish
    | Top | TopDb | StartCall | FailAlive | FailDb | FailSleep
    | Select | WakeAlive | WakeDb | WakeSleep
    | DeferStop | DeferWait | Returned

  /** The goroutine's locals, and how its Start calls went so far. */
  datatype Thread = Thread(
    pc: SupPc,
    aliveSeen: bool,
    late: bool,
    retryCount: nat,
    okStarts: nat,
    failedStarts: nat,
    failedMsgs: nat)

  /** How one database access goes. */
  datatype Io = Io(readable: bool, commits: bool, now: int)

  datatype Pick = Quit | Timer | Go | Fail

  /** What the goroutine can see of the rest. */
  datatype Sight = Sight(alive: bool, record: Result<State>, cancelled: bool, waitReady: bool)

  /** A step's new locals, and the statuses it computed or sent. */
  datatype Move = Move(t: Thread, notes: seq<Entry>)

  function Quiet(t: Thread): Move { Move(t, []) }

  /** A status check with the liveness bit read one step before. */
  function Check(t: Thread, e: Sight): Status {
    StatusOf(e.record, t.aliveSeen)
  }

  function Checked(t: Thread, e: Sight, pc: SupPc): Move {
    Move(t.(pc := pc), [Entry(Check(t, e), BySupervisor)])
  }

  /** sleepWithCancel: begun after cancellation, it finds ctx or done ready before its timer. */
  function Sleep(m: Move, e: Sight): Move {
    m.(t := m.t.(late := e.cancelled))
  }

  function Wake(t: Thread, e: Sight, pick: Pick, onQuit: SupPc, onTimer: SupPc): Move {
    if pick.Quit? && e.cancelled then Quiet(t.(pc := onQuit))
    else if pick.Timer? && !t.late then Quiet(t.(pc := onTimer))
    else Quiet(t)
  }

  predicate Creating(pc: SupPc) { pc in {CreateAlive, CreateDb, Create, CreateSleep, Publish} }

  /** Until the runner command is in place; a failing NewRunnerCommand goes round again. */
  function CreateLocal(t: Thread, e: Sight, pick: Pick): Move
    requires Creating(t.pc)
  {
    match t.pc
    case CreateAlive => Quiet(t.(aliveSeen := e.alive, pc := CreateDb))
    case CreateDb => Checked(t, e, if Check(t, e).Terminated? then Returned else Create)
    case Create => if pick.Fail? then Sleep(Quiet(t.(pc := CreateSleep)), e) else Quiet(t.(pc := Publish))
    case CreateSleep => Wake(t, e, pick, Returned, CreateAlive)
    case Publish => Quiet(t.(retryCount := 0, pc := Top))
  }

  predicate Trying(pc: SupPc) { pc in {Top, TopDb, FailAlive, FailDb, FailSleep} }

  /** Around the call of Start: the check before it, and what follows when it fails. */
  function TryLocal(t: Thread, e: Sight, pick: Pick): Move
    requires Trying(t.pc)
  {
    match t.pc
    case Top =>
      if t.retryCount > 5 then Quiet(t.(pc := DeferStop)) else Quiet(t.(aliveSeen := e.alive, pc := TopDb))
    case TopDb => Checked(t, e, if Check(t, e).Terminated? then DeferStop else StartCall)
    case FailAlive => Quiet(t.(aliveSeen := e.alive, pc := FailDb))
    case FailDb =>
      var m := Sleep(Checked(t, e, FailSleep), e);
      if Check(t, e).Offline?
      then Move(m.t.(failedMsgs := t.failedMsgs + 1), m.notes + [Entry(Failed, BySupervisor)])
      else m
    case FailSleep => Wake(t, e, pick, DeferStop, Top)
  }

  /** A generation is up, or the deferred Stop has returned. */
  function WatchLocal(t: Thread, e: Sight, pick: Pick): Move {
    match t.pc
    case Select =>
      if pick.Quit? && e.cancelled then Quiet(t.(pc := DeferStop))
      else if pick.Go? && e.waitReady then Quiet(t.(pc := WakeAlive))
      else Quiet(t)
    case WakeAlive => Quiet(t.(aliveSeen := e.alive, pc := WakeDb))
    case WakeDb =>
      if Check(t, e).Terminated? then Checked(t, e, DeferStop) else Sleep(Checked(t, e, WakeSleep), e)
    case WakeSleep => Wake(t, e, pick, DeferStop, Top)
    case DeferWait => Quiet(t.(pc := Returned))
    case _ => Quiet(t)
  }

  /** Every step that does not call into the runner command. */
  function Local(t: Thread, e: Sight, pick: Pick): Move {
    if Creating(t.pc) then CreateLocal(t, e, pick)
    else if Trying(t.pc) then TryLocal(t, e, pick)
    else WatchLocal(t, e, pick)
  }

  // ---- the runner command ---------------------------------------------------------------------

  /** Who is inside runnerCmd.Stop, holding runnerCmd.mux. */
  datatype Who = Nobody | ByX(g: nat) | ByLoop(g: nat) | BySup

  /** `runnerCmd`: the last generation is the current one. */
  datatype Cmd = Cmd(running: bool, holder: Who, gens: seq<Gn.Gen>, panicked: bool)

  function Last(c: Cmd): nat
    requires c.gens != []
  {
    |c.gens| - 1
  }

  /** runnerCmd.Wait() hands out the channel of the current generation. */
  predicate WaitReady(c: Cmd) {
    c.gens == [] || c.gens[Last(c)].done
  }

  function StartCmd(c: Cmd): Cmd {
    if c.running then c else c.(running := true, gens := c.gens + [Gn.NEWGEN])
  }

  /** The caller is about to call runnerCmd.Stop, or is in it. */
  predicate AtStop(c: Cmd, who: Who, supAt: bool) {
    match who
    case Nobody => false
    case ByX(g) => g < |c.gens| && c.gens[g].x.StopCall?
    case ByLoop(g) => g < |c.gens| && c.gens[g].loop.LoopStop?
    case BySup => supAt
  }

  datatype StopMove = StopMove(cmd: Cmd, returned: bool)

  function Return(c: Cmd, who: Who, supAt: bool): StopMove
    requires AtStop(c, who, supAt)
  {
    match who
    case ByX(g) => StopMove(c.(gens := c.gens[g := Gn.Left(c.gens[g], false)]), false)
    case ByLoop(g) => StopMove(c.(gens := c.gens[g := Gn.Left(c.gens[g], true)]), false)
    case BySup => StopMove(c, true)
  }

  /** Taking the lock, closing `done` and clearing `running`. */
  function EnterStop(c: Cmd, who: Who): Cmd
    requires c.gens != []
  {
    var last := Last(c);
    if c.gens[last].done then c.(panicked := true)
    else c.(running := false, holder := who, gens := c.gens[last := Gn.Entered(c.gens[last])])
  }

  function StopStep(c: Cmd, who: Who, supAt: bool): StopMove {
    if !AtStop(c, who, supAt) then StopMove(c, false)
    else if c.holder == who then
      // inside: leave once cleanup() is through
      if c.gens != [] && c.gens[Last(c)].ex.once.Spent? then Return(c.(holder := Nobody), who, supAt)
      else StopMove(c, false)
    else if !c.holder.Nobody? then StopMove(c, false)
    else if !c.running || c.gens == [] then Return(c, who, supAt)
    else StopMove(EnterStop(c, who), false)
  }

  function UpdateGen(c: Cmd, g: nat, gen: Gn.Gen): Cmd
    requires g < |c.gens|
  {
    c.(gens := c.gens[g := gen])
  }

  // ---- the agent ------------------------------------------------------------------------------

  /** `procStarts`, `boot` and the service's log are history: the number of processes ever
      started, and the length the log had when this agent process came up. */
  datatype Agent = Agent(
    svc: Svc,
    cancelled: bool,
    sup: Thread,
    cmd: Cmd,
    loopSeen: Option<bool>,
    procStarts: nat,
    boot: nat)

  datatype Act =
    | Sup(pick: Pick, io: Io)
    | X(g: nat, ok: bool, io: Io)
    | Scan(g: nat, isErr: bool, scan: Gn.Scan, io: Io)
    | LoopWakes(g: nat)
    | Exits(g: nat)
    | Stop(who: Who)
    | Cleanup(o: Exec.Outcome)
    | Snapshot
    | LoopStatus(io: Io)
    | Cancel
    | Crash

  /** A fresh process on a given record. */
  function Boot(db: Stored, log: seq<Entry>, procStarts: nat): Agent {
    Agent(Svc(db, false, false, log), false, Thread(CreateAlive, false, false, 0, 0, 0, 0),
          Cmd(false, Nobody, [], false), None, procStarts, |log|)
  }

  function View(s: Agent, io: Io): Sight {
    Sight(s.svc.alive, Read(s.svc.db, io.readable), s.cancelled, WaitReady(s.cmd))
  }

  function StartStep(s: Agent, pick: Pick): Agent {
    if !s.cmd.holder.Nobody? then s
    else if !s.cmd.running && pick.Fail? then
      s.(sup := s.sup.(pc := FailAlive, retryCount := s.sup.retryCount + 1, failedStarts := s.sup.failedStarts + 1))
    else
      s.(sup := s.sup.(pc := Select, retryCount := 0, okStarts := s.sup.okStarts + 1), cmd := StartCmd(s.cmd))
  }

  function SupStep(s: Agent, pick: Pick, io: Io): Agent {
    if s.sup.pc.StartCall? then StartStep(s, pick)
    else
      var m := Local(s.sup, View(s, io), pick);
      s.(sup := m.t, svc := s.svc.(log := s.svc.log + m.notes, hasCmd := s.svc.hasCmd || s.sup.pc.Publish?))
  }

  function Effect(v: Svc, calls: seq<Gn.Call>, io: Io): Svc {
    if calls == [] then v
    else
      match calls[0]
      case JobStarted => OnJobStarted(v, io.now, io.commits)
      case RunnerStarted(st) => OnRunnerStarted(v, st, io.readable)
      case JobFinished => OnJobFinished(v, io.now, io.commits)
  }

  predicate Launches(g: Gn.Gen, ok: bool) { g.x.StartCmd? && ok }

  function XAct(s: Agent, g: nat, ok: bool, io: Io): Agent
    requires g < |s.cmd.gens|
  {
    var gen := s.cmd.gens[g];
    s.(cmd := UpdateGen(s.cmd, g, Gn.XStep(gen, ok)),
       svc := Effect(s.svc, Gn.XCalls(gen), io),
       procStarts := if Launches(gen, ok) then s.procStarts + 1 else s.procStarts)
  }

  function ScanAct(s: Agent, g: nat, isErr: bool, scan: Gn.Scan, io: Io): Agent
    requires g < |s.cmd.gens|
  {
    var gen := s.cmd.gens[g];
    s.(cmd := UpdateGen(s.cmd, g, Gn.ScanStep(gen, isErr, scan)),
       svc := Effect(s.svc, Gn.ScanCalls(if isErr then gen.err else gen.out), io))
  }

  function StopAct(s: Agent, who: Who): Agent {
    var m := StopStep(s.cmd, who, s.sup.pc.DeferStop?);
    s.(cmd := m.cmd, sup := if m.returned then s.sup.(pc := DeferWait) else s.sup)
  }

  function Step(s: Agent, a: Act): Agent {
    match a
    case Sup(pick, io) => SupStep(s, pick, io)
    case X(g, ok, io) => if g < |s.cmd.gens| then XAct(s, g, ok, io) else s
    case Scan(g, isErr, scan, io) => if g < |s.cmd.gens| then ScanAct(s, g, isErr, scan, io) else s
    case LoopWakes(g) =>
      if g < |s.cmd.gens| && (s.cancelled || s.cmd.gens[g].done)
      then s.(cmd := UpdateGen(s.cmd, g, Gn.GenStep(s.cmd.gens[g], Gn.LoopWakes))) else s
    case Exits(g) =>
      if g < |s.cmd.gens| then s.(cmd := UpdateGen(s.cmd, g, Gn.GenStep(s.cmd.gens[g], Gn.Exits))) else s
    case Stop(who) => StopAct(s, who)
    case Cleanup(o) =>
      if s.cmd.holder.Nobody? || s.cmd.gens == [] then s
      else s.(cmd := UpdateGen(s.cmd, Last(s.cmd), Gn.GenStep(s.cmd.gens[Last(s.cmd)], Gn.CleanupBody(o))))
    case Snapshot => if s.svc.hasCmd then s.(loopSeen := Some(s.svc.alive)) else s
    case LoopStatus(io) =>
      if s.loopSeen.None? then s
      else
        var status := StatusOf(Read(s.svc.db, io.readable), s.loopSeen.value);
        s.(svc := s.svc.(log := s.svc.log + [Entry(status, ByStatusLoop)]), loopSeen := None)
    case Cancel => s.(cancelled := true)
    case Crash => Boot(s.svc.db, s.svc.log, s.procStarts)
  }

  function Run(s: Agent, acts: seq<Act>): Agent
    decreases |acts|
  {
    if acts == [] then s else Run(Step(s, acts[0]), acts[1..])
  }
}
