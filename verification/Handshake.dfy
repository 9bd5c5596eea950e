/**
 * The connect/reconnect handshake of `service/service.go`: keepAliveLoop and loop wake each other
 * by closing and re-creating two channels. A channel is an index into `chans`, which says whether
 * it is closed; closing a closed channel panics.
 */
module Handshake {
  import opened Wrappers

  // ---- the two channels, under connMux --------------------------------------------------------

  datatype Conn = Conn(chans: seq<bool>, connecting: nat, connected: nat, panicked: bool)

  predicate InRange(c: Conn) { c.connecting < |c.chans| && c.connected < |c.chans| }

  predicate IsClosed(c: Conn, ch: nat) { ch < |c.chans| && c.chans[ch] }

  function CloseChan(c: Conn, ch: nat): Conn {
    if ch >= |c.chans| || c.chans[ch] then c.(panicked := true) else c.(chans := c.chans[ch := true])
  }

  /** connectionUp: a fresh `connected`, and loop is woken. */
  function Up(c: Conn): Conn {
    CloseChan(c.(chans := c.chans + [false], connected := |c.chans|), c.connecting)
  }

  /** connectionDown: a fresh `connecting`, and keepAliveLoop is woken. */
  function Down(c: Conn): Conn {
    CloseChan(c.(chans := c.chans + [false], connecting := |c.chans|), c.connected)
  }

  /** NewService: `connected` is the closed channel of the package, `connecting` a fresh one. */
  const NEWCONN := Conn([true, false], 1, 0, false)

  class Connection {
    var chans: seq<bool>
    var connecting: nat
    var connected: nat

    ghost function View(): Conn
      reads this
    {
      Conn(chans, connecting, connected, false)
    }

    constructor ()
      ensures View() == NEWCONN
    {
      chans, connecting, connected := [true, false], 1, 0;
    }

    method Make() returns (ch: nat)
      modifies this`chans
      ensures ch == |old(chans)| && chans == old(chans) + [false]
    {
      ch := |chans|;
      chans := chans + [false];
    }

    /** Go panics when the channel is closed already. */
    method Close(ch: nat)
      requires ch < |chans| && !chans[ch]
      modifies this`chans
      ensures chans == old(chans)[ch := true]
    {
      chans := chans[ch := true];
    }

    method ConnectionUp()
      requires InRange(View()) && !IsClosed(View(), connecting)
      modifies this
      ensures View() == Up(old(View()))
    {
      connected := Make();
      Close(connecting);
    }

    method ConnectionDown()
      requires InRange(View()) && !IsClosed(View(), connected)
      modifies this
      ensures View() == Down(old(View()))
    {
      connecting := Make();
      Close(connected);
    }
  }

  // ---- Stop, under s.mux ----------------------------------------------------------------------

  /** `done` and `running`, and the context. */
  datatype Gate = Gate(running: bool, doneClosed: bool, ctxDone: bool, panicked: bool)

  predicate Ended(g: Gate) { g.doneClosed || g.ctxDone }

  function StopGate(g: Gate): Gate {
    if !g.running then g
    else if g.doneClosed then g.(panicked := true)
    else g.(doneClosed := true, running := false)
  }

  /** `running`, `done` and `cli` of the service object; `stopped` is history: the clients that
      Stop was called on. */
  class Life {
    var running: bool
    var doneClosed: bool
    var cli: Option<nat>
    var stopped: set<nat>

    ghost function View(ctxDone: bool): Gate
      reads this
    {
      Gate(running, doneClosed, ctxDone, false)
    }

    /** NewService: not running, and `done` is the package's closed channel. */
    constructor ()
      ensures !running && doneClosed && cli.None? && stopped == {}
    {
      running, doneClosed, cli, stopped := false, true, None, {};
    }

    /** A work_dir that is missing or no directory refuses the start. */
    method Start(workDirOk: bool) returns (started: bool)
      modifies this`running, this`doneClosed
      ensures started == (!old(running) && workDirOk)
      ensures started ==> View(false) == INIT.gate
      ensures !started ==> running == old(running) && doneClosed == old(doneClosed)
    {
      started := !running && workDirOk;
      if started {
        running, doneClosed := true, false;
      }
    }

    method Stop(ghost ctxDone: bool)
      requires running ==> !doneClosed
      modifies this`running, this`doneClosed, this`stopped
      ensures View(ctxDone) == StopGate(old(View(ctxDone)))
      ensures stopped == old(stopped) + if old(running) && cli.Some? then {cli.value} else {}
    {
      if !running {
        return;
      }
      doneClosed := true;
      running := false;
      if cli.Some? {
        stopped := stopped + {cli.value};
      }
    }
  }

  // ---- the two goroutines ---------------------------------------------------------------------

  datatype KPc = KRetry | KSleep | KGrab | KSelect | KDial | KSetCli | KStart | KUp | KExit

  /** keepAliveLoop: `slept` says that sleepTime is set, `late` that the current sleep began after
      the end, when its timer cannot win against the context or `done`. */
  datatype K = K(pc: KPc, ch: nat, cli: nat, slept: bool, late: bool)

  datatype LPc = LGrab | LSelect | LGetCli | LNil | LBeat | LOnline | LDown | LStop | LExit

  datatype L = L(pc: LPc, ch: nat, cli: nat)

  /** A connection came up or went down, with its client. */
  datatype Event = WentUp(cli: nat) | WentDown(cli: nat)

  datatype St = St(
    conn: Conn,
    gate: Gate,
    k: K,
    l: L,
    cli: Option<nat>,
    clients: nat,
    downs: set<nat>,
    // history
    started: Option<nat>,
    log: seq<Event>,
    beats: nat)

  const INIT := St(NEWCONN, Gate(true, false, false, false), K(KRetry, 0, 0, false, false), L(LGrab, 0, 0),
                   None, 0, {}, None, [], 0)

  datatype Pick = Quit | Timer | Go | Fail | BadUrl

  datatype Act =
    | Keep(pick: Pick)
    | Loop(pick: Pick)
    | Cancel
    | StopCall
    | ClientDone(c: nat)

  function KeepStep(s: St, pick: Pick): St {
    var k := s.k;
    match k.pc
    case KRetry => s.(k := if k.slept then k.(pc := KSleep, late := Ended(s.gate)) else k.(pc := KGrab))
    case KSleep =>
      if pick.Quit? && Ended(s.gate) then s.(k := k.(pc := KExit))
      else if pick.Timer? && !k.late then s.(k := k.(pc := KGrab))
      else s
    case KGrab => s.(k := k.(pc := KSelect, ch := s.conn.connected))
    case KSelect =>
      if pick.Quit? && Ended(s.gate) then s.(k := k.(pc := KExit))
      else if pick.Go? && IsClosed(s.conn, k.ch) then s.(k := k.(pc := KDial, slept := true))
      else s
    case KDial =>
      if pick.BadUrl? then s.(k := k.(pc := KExit))
      else if pick.Fail? then s.(k := k.(pc := KRetry))
      else s.(k := k.(pc := KSetCli, cli := s.clients), clients := s.clients + 1)
    case KSetCli => s.(k := k.(pc := KStart), cli := Some(k.cli))
    case KStart =>
      if pick.Go? then s.(k := k.(pc := KUp), started := Some(k.cli)) else s.(k := k.(pc := KRetry))
    case KUp => s.(k := k.(pc := KGrab), conn := Up(s.conn), log := s.log + [WentUp(k.cli)])
    case KExit => s
  }

  function LoopStep(s: St, pick: Pick): St {
    var l := s.l;
    match l.pc
    case LGrab => s.(l := l.(pc := LSelect, ch := s.conn.connecting))
    case LSelect =>
      if pick.Quit? && Ended(s.gate) then s.(l := l.(pc := LStop))
      else if pick.Go? && IsClosed(s.conn, l.ch) then s.(l := l.(pc := LGetCli))
      else s
    case LGetCli => s.(l := if s.cli.None? then l.(pc := LNil) else l.(pc := LBeat, cli := s.cli.value))
    case LNil => s.(l := l.(pc := LGrab), conn := Down(s.conn))
    case LBeat => s.(l := l.(pc := LOnline), beats := s.beats + 1)
    case LOnline =>
      if pick.Quit? && Ended(s.gate) then s.(l := l.(pc := LStop))
      else if pick.Go? && l.cli in s.downs then s.(l := l.(pc := LDown))
      else if pick.Timer? then s.(beats := s.beats + 1)
      else s
    case LDown => s.(l := l.(pc := LGrab), conn := Down(s.conn), log := s.log + [WentDown(l.cli)])
    case LStop => s.(l := l.(pc := LExit), gate := StopGate(s.gate))
    case LExit => s
  }

  function Step(s: St, a: Act): St {
    match a
    case Keep(pick) => KeepStep(s, pick)
    case Loop(pick) => LoopStep(s, pick)
    case Cancel => s.(gate := s.gate.(ctxDone := true))
    case StopCall => s.(gate := StopGate(s.gate))
    case ClientDone(c) => if c < s.clients then s.(downs := s.downs + {c}) else s
  }

  function Run(s: St, acts: seq<Act>): St
    decreases |acts|
  {
    if acts == [] then s else Run(Step(s, acts[0]), acts[1..])
  }

  // ---- what every run keeps -------------------------------------------------------------------

  /** Both channels are known, they differ, and exactly one of them is closed. */
  predicate OneClosed(c: Conn) {
    && !c.panicked && InRange(c) && c.connecting != c.connected
    && c.chans[c.connecting] != c.chans[c.connected]
  }

  /** A connection is up: loop was woken and has not taken it down. */
  predicate IsUp(c: Conn) { IsClosed(c, c.connecting) }

  predicate KOk(s: St) {
    && (s.k.pc.KSelect? ==> s.k.ch == s.conn.connected)
    && (IsUp(s.conn) ==> s.k.pc in {KGrab, KSelect, KExit})
    && (s.k.pc in {KSetCli, KStart, KUp} ==> s.k.cli < s.clients)
    && (s.k.pc in {KStart, KUp} ==> s.cli == Some(s.k.cli))
    && (s.k.pc.KUp? ==> s.started == s.cli)
    && (s.k.pc in {KDial, KSetCli, KStart} ==> s.k.slept)
    && (s.k.pc.KSleep? && s.k.late ==> Ended(s.gate))
  }

  predicate Online(pc: LPc) { pc in {LGetCli, LNil, LBeat, LOnline, LDown} }

  predicate LOk(s: St) {
    && (s.l.pc.LSelect? ==> s.l.ch == s.conn.connecting)
    && (Online(s.l.pc) ==> IsUp(s.conn))
    && (IsUp(s.conn) ==> s.started.Some? && s.cli == s.started)
    && (s.l.pc in {LBeat, LOnline, LDown} ==> s.cli == Some(s.l.cli))
    && s.l.pc != LNil
    && (s.cli.Some? ==> s.cli.value < s.clients)
  }

  predicate GateOk(s: St) {
    && !s.gate.panicked
    && s.gate.running == !s.gate.doneClosed
    && (s.l.pc.LExit? ==> s.gate.doneClosed)
    && (s.l.pc.LStop? ==> Ended(s.gate))
  }

  /** The log alternates, and every connection goes down with the client it came up with. */
  ghost predicate Alternates(log: seq<Event>) {
    && (forall i :: 0 <= i < |log| ==> log[i].WentUp? == (i % 2 == 0))
    && (forall i, j :: 0 <= i < j < |log| && j == i + 1 && log[i].WentUp? ==> log[j] == WentDown(log[i].cli))
  }

  ghost predicate LogOk(s: St) {
    && Alternates(s.log)
    && (|s.log| % 2 == 1 <==> IsUp(s.conn))
    && (IsUp(s.conn) ==> s.started == Some(s.log[|s.log| - 1].cli))
  }

  ghost predicate Inv(s: St) {
    OneClosed(s.conn) && KOk(s) && LOk(s) && GateOk(s) && LogOk(s)
  }

  lemma LogUp(log: seq<Event>, c: nat)
    requires Alternates(log) && |log| % 2 == 0
    ensures Alternates(log + [WentUp(c)])
  {
  }

  lemma LogDown(log: seq<Event>)
    requires Alternates(log) && |log| % 2 == 1
    ensures Alternates(log + [WentDown(log[|log| - 1].cli)])
  {
  }

  lemma KeepInv(s: St, pick: Pick)
    requires Inv(s)
    ensures Inv(KeepStep(s, pick))
  {
    if s.k.pc.KUp? {
      UpInv(s, pick);
    } else {
      KeepOwn(s, pick);
      KeepOthers(s, pick);
    }
  }

  lemma KeepOwn(s: St, pick: Pick)
    requires OneClosed(s.conn) && KOk(s) && !s.k.pc.KUp?
    ensures KOk(KeepStep(s, pick))
  {
  }

  lemma KeepOthers(s: St, pick: Pick)
    requires Inv(s) && !s.k.pc.KUp?
    ensures var s' := KeepStep(s, pick); OneClosed(s'.conn) && LOk(s') && GateOk(s') && LogOk(s')
  {
    assert KeepStep(s, pick).conn == s.conn && KeepStep(s, pick).log == s.log && KeepStep(s, pick).l == s.l;
  }

  lemma UpInv(s: St, pick: Pick)
    requires Inv(s) && s.k.pc.KUp?
    ensures Inv(KeepStep(s, pick))
  {
    LogUp(s.log, s.k.cli);
  }

  lemma LoopInv(s: St, pick: Pick)
    requires Inv(s)
    ensures Inv(LoopStep(s, pick))
  {
    if s.l.pc.LDown? {
      LogDown(s.log);
    }
  }

  lemma StepInv(s: St, a: Act)
    requires Inv(s)
    ensures Inv(Step(s, a))
  {
    match a
    case Keep(pick) => KeepInv(s, pick);
    case Loop(pick) => LoopInv(s, pick);
    case _ =>
  }

  lemma {:induction false} RunInv(s: St, acts: seq<Act>)
    requires Inv(s)
    ensures Inv(Run(s, acts))
    decreases |acts|
  {
    if acts != [] {
      StepInv(s, acts[0]);
      RunInv(Step(s, acts[0]), acts[1..]);
    }
  }

  /** keepAliveLoop or loop sits in its select on an open channel. */
  predicate KeepWaits(s: St) { s.k.pc.KSelect? && !IsClosed(s.conn, s.k.ch) }

  predicate LoopWaits(s: St) { s.l.pc.LSelect? && !IsClosed(s.conn, s.l.ch) }

  /**
   * In every reachable state exactly one of `connecting` and `connected` is closed, no channel was
   * ever closed twice - `done` included - and the two goroutines never both wait for the other.
   */
  lemma OneSideWaits(acts: seq<Act>)
    ensures var s := Run(INIT, acts);
      && IsClosed(s.conn, s.conn.connecting) == !IsClosed(s.conn, s.conn.connected)
      && !s.conn.panicked && !s.gate.panicked
      && !(KeepWaits(s) && LoopWaits(s))
  {
    RunInv(INIT, acts);
  }

  /**
   * Once loop is past its wake-up, `s.cli` and its local client are the most recent client whose
   * Start succeeded, and the branch for a missing client is never taken. Connections alternate
   * between up and down, each going down at most once, with the client it came up with.
   */
  lemma LoopHoldsTheLatestClient(acts: seq<Act>)
    ensures var s := Run(INIT, acts);
      && s.l.pc != LNil
      && (Online(s.l.pc) ==> s.started.Some? && s.cli == s.started)
      && (s.l.pc in {LBeat, LOnline, LDown} ==> s.started == Some(s.l.cli))
      && Alternates(s.log)
  {
    RunInv(INIT, acts);
  }

  // ---- it ends only when it should, and can always go on ------------------------------------------

  /** keepAliveLoop is told to end, or cannot parse its URL. */
  predicate KeepGivesUp(s: St, a: Act) {
    || (a == Keep(BadUrl) && s.k.pc.KDial?)
    || (a == Keep(Quit) && s.k.pc in {KSleep, KSelect} && Ended(s.gate))
  }

  predicate LoopGivesUp(s: St, a: Act) {
    a == Loop(Quit) && s.l.pc in {LSelect, LOnline} && Ended(s.gate)
  }

  ghost predicate GaveUp(s: St, acts: seq<Act>, keep: bool)
    decreases |acts|
  {
    acts != [] && ((if keep then KeepGivesUp(s, acts[0]) else LoopGivesUp(s, acts[0])) || GaveUp(Step(s, acts[0]), acts[1..], keep))
  }

  predicate Over(s: St, keep: bool) { if keep then s.k.pc.KExit? else s.l.pc in {LStop, LExit} }

  lemma StepOver(s: St, a: Act, keep: bool)
    ensures Over(Step(s, a), keep) <==> Over(s, keep) || (if keep then KeepGivesUp(s, a) else LoopGivesUp(s, a))
  {
  }

  lemma {:induction false} RunOver(s: St, acts: seq<Act>, keep: bool)
    ensures Over(Run(s, acts), keep) <==> Over(s, keep) || GaveUp(s, acts, keep)
    decreases |acts|
  {
    if acts != [] {
      StepOver(s, acts[0], keep);
      RunOver(Step(s, acts[0]), acts[1..], keep);
    }
  }

  /** In every schedule keepAliveLoop has ended exactly when it was told to or its URL did not parse,
      and loop is on its way out exactly when it was told to. */
  lemma EndsOnlyWhenTold(acts: seq<Act>)
    ensures var s := Run(INIT, acts);
      && (s.k.pc.KExit? <==> GaveUp(INIT, acts, true))
      && (s.l.pc in {LStop, LExit} <==> GaveUp(INIT, acts, false))
  {
    RunOver(INIT, acts, true);
    RunOver(INIT, acts, false);
  }

  /** Steps to the next connection: down with the one that is up, and then through a dial. */
  function ToUp(s: St): nat {
    if IsUp(s.conn) then
      20 + (match s.l.pc
            case LGrab => 6
            case LSelect => 5
            case LGetCli => 4
            case LBeat => 3
            case LOnline => if s.l.cli in s.downs then 1 else 2
            case _ => 0)
    else
      match s.k.pc
      case KRetry => 8
      case KSleep => 7
      case KGrab => 6
      case KSelect => 5
      case KDial => 4
      case KSetCli => 3
      case KStart => 2
      case KUp => 1
      case KExit => 0
  }

  /** The client drops the connection if it is up, every select takes its way on, and the dial works. */
  function UpAct(s: St): Act {
    if IsUp(s.conn) then (if s.l.pc.LOnline? && s.l.cli !in s.downs then ClientDone(s.l.cli) else Loop(Go))
    else if s.k.pc.KSleep? then Keep(Timer)
    else Keep(Go)
  }

  lemma UpLowers(s: St)
    requires Inv(s) && !Ended(s.gate) && !s.k.pc.KExit? && (IsUp(s.conn) || !s.k.pc.KUp?)
    ensures var s' := Step(s, UpAct(s));
      ToUp(s') < ToUp(s) && Ups(s'.log) == Ups(s.log) && !Ended(s'.gate) && !s'.k.pc.KExit?
  {
    if IsUp(s.conn) && s.l.pc.LDown? {
      UpsMore(s.log, WentDown(s.l.cli));
    }
  }

  /**
   * From every reachable state before the end, a bad URL aside, the two goroutines can get to a
   * further connection: they are never stuck with each other.
   */
  lemma {:induction false} CanReconnect(s: St) returns (acts: seq<Act>)
    requires Inv(s) && !Ended(s.gate) && !s.k.pc.KExit?
    ensures Ups(Run(s, acts).log) == Ups(s.log) + 1 && IsUp(Run(s, acts).conn) && |acts| <= ToUp(s)
    ensures forall a :: a in acts ==> a.Keep? || a.Loop? || a.ClientDone?
    decreases ToUp(s)
  {
    if !IsUp(s.conn) && s.k.pc.KUp? {
      acts := [Keep(Go)];
      assert acts[1..] == [] && Run(s, acts) == Run(Step(s, Keep(Go)), []);
      UpsMore(s.log, WentUp(s.k.cli));
    } else {
      var a := UpAct(s);
      UpLowers(s);
      StepInv(s, a);
      var rest := CanReconnect(Step(s, a));
      acts := [a] + rest;
      assert acts[1..] == rest;
    }
  }

  // ---- heartbeats -------------------------------------------------------------------------------

  /** Connections that came up. */
  function Ups(log: seq<Event>): nat {
    if log == [] then 0 else Ups(log[..|log| - 1]) + if log[|log| - 1].WentUp? then 1 else 0
  }

  lemma UpsMore(log: seq<Event>, e: Event)
    ensures Ups(log + [e]) == Ups(log) + if e.WentUp? then 1 else 0
  {
    assert (log + [e])[..|log|] == log;
  }

  /** A heartbeat tick that loop takes. */
  predicate Ticks(s: St, a: Act) { a.Loop? && s.l.pc.LOnline? && a.pick.Timer? }

  function TickCount(s: St, acts: seq<Act>): nat
    decreases |acts|
  {
    if acts == [] then 0
    else (if Ticks(s, acts[0]) then 1 else 0) + TickCount(Step(s, acts[0]), acts[1..])
  }

  /** The heartbeats that are not a tick's: one for every connection loop has woken up for. */
  predicate Beaten(s: St, first: int) {
    && Ups(s.log) - 1 <= first <= Ups(s.log)
    && (!IsUp(s.conn) || s.l.pc in {LOnline, LDown} ==> first == Ups(s.log))
    && (IsUp(s.conn) && s.l.pc in {LGrab, LSelect, LGetCli, LBeat} ==> first == Ups(s.log) - 1)
  }

  lemma KeepBeaten(s: St, pick: Pick, first: int)
    requires Inv(s) && Beaten(s, first)
    ensures Beaten(KeepStep(s, pick), first) && KeepStep(s, pick).beats == s.beats
  {
    if s.k.pc.KUp? {
      UpBeaten(s, pick, first);
    } else {
      KeepQuiet(s, pick);
    }
  }

  lemma KeepQuiet(s: St, pick: Pick)
    requires !s.k.pc.KUp?
    ensures var s' := KeepStep(s, pick); s'.log == s.log && s'.conn == s.conn && s'.l == s.l && s'.beats == s.beats
  {
  }

  /** A connection that comes up finds loop before its wake-up. */
  lemma UpBeaten(s: St, pick: Pick, first: int)
    requires OneClosed(s.conn) && KOk(s) && LOk(s) && Beaten(s, first) && s.k.pc.KUp?
    ensures Beaten(KeepStep(s, pick), first) && KeepStep(s, pick).beats == s.beats
  {
    UpsMore(s.log, WentUp(s.k.cli));
    assert !IsUp(s.conn) && !Online(s.l.pc) && first == Ups(s.log);
    var s' := KeepStep(s, pick);
    assert s'.l == s.l && Ups(s'.log) == Ups(s.log) + 1;
  }

  lemma LoopBeaten(s: St, pick: Pick, first: int)
    requires Inv(s) && Beaten(s, first)
    ensures var s' := LoopStep(s, pick);
      Beaten(s', first + s'.beats - s.beats - if Ticks(s, Loop(pick)) then 1 else 0)
  {
    if s.l.pc.LDown? {
      UpsMore(s.log, WentDown(s.l.cli));
    } else {
      assert LoopStep(s, pick).log == s.log;
    }
  }

  lemma StepBeaten(s: St, a: Act, first: int)
    requires Inv(s) && Beaten(s, first)
    ensures var s' := Step(s, a);
      Beaten(s', first + s'.beats - s.beats - if Ticks(s, a) then 1 else 0)
  {
    match a
    case Keep(pick) => KeepBeaten(s, pick, first);
    case Loop(pick) => LoopBeaten(s, pick, first);
    case _ =>
  }

  lemma {:induction false} RunBeaten(s: St, acts: seq<Act>, first: int)
    requires Inv(s) && Beaten(s, first)
    ensures Beaten(Run(s, acts), first + Run(s, acts).beats - s.beats - TickCount(s, acts))
    decreases |acts|
  {
    if acts != [] {
      var s' := Step(s, acts[0]);
      StepBeaten(s, acts[0], first);
      StepInv(s, acts[0]);
      RunBeaten(s', acts[1..], first + s'.beats - s.beats - if Ticks(s, acts[0]) then 1 else 0);
    }
  }

  /**
   * In every schedule loop sends one heartbeat for each tick it takes and one for each connection
   * it wakes up for: while a connection is online, and when none is up, that is one for every
   * connection so far; until it has woken up for the last one, that one is still due.
   */
  lemma OneHeartbeatEach(acts: seq<Act>)
    ensures var s := Run(INIT, acts); Beaten(s, s.beats - TickCount(INIT, acts))
  {
    RunBeaten(INIT, acts, 0);
  }

  // ---- shutdown -------------------------------------------------------------------------------

  function KRank(k: K): nat {
    match k.pc
    case KUp => 12
    case KRetry => if k.slept then 3 else 10
    case KSleep => if k.late then 2 else 10
    case KGrab => 9
    case KSelect => 8
    case KDial => 7
    case KSetCli => 6
    case KStart => 5
    case KExit => 0
  }

  function LRank(l: L, up: bool): nat {
    match l.pc
    case LGrab => if up then 9 else 3
    case LSelect => if up then 8 else 2
    case LGetCli => 7
    case LNil => 6
    case LBeat => 6
    case LOnline => 5
    case LDown => 4
    case LStop => 1
    case LExit => 0
  }

  function Rank(s: St): nat { 10 * KRank(s.k) + LRank(s.l, IsUp(s.conn)) }

  /** A dial that succeeds. */
  predicate Dials(s: St, a: Act) { a.Keep? && s.k.pc.KStart? && a.pick.Go? }

  lemma KeepLowers(s: St, pick: Pick)
    requires Inv(s) && Ended(s.gate) && !Dials(s, Keep(pick))
    ensures var s' := KeepStep(s, pick); s' == s || Rank(s') < Rank(s)
  {
  }

  lemma LoopLowers(s: St, pick: Pick)
    requires Inv(s) && Ended(s.gate)
    ensures var s' := LoopStep(s, pick); s' == s || Rank(s') < Rank(s) || (Ticks(s, Loop(pick)) && Rank(s') == Rank(s))
  {
  }

  lemma StepLowers(s: St, a: Act)
    requires Inv(s) && Ended(s.gate) && !Dials(s, a)
    ensures Rank(Step(s, a)) <= Rank(s) && Ended(Step(s, a).gate)
    ensures (a.Keep? || a.Loop?) && Step(s, a) != s && !Ticks(s, a) ==> Rank(Step(s, a)) < Rank(s)
  {
    match a
    case Keep(pick) => KeepLowers(s, pick);
    case Loop(pick) => LoopLowers(s, pick);
    case _ =>
  }

  /** Effective steps of the two goroutines; `ticks` counts the heartbeat ticks among them. */
  function Moves(s: St, acts: seq<Act>): nat
    decreases |acts|
  {
    if acts == [] then 0
    else
      var a := acts[0];
      (if (a.Keep? || a.Loop?) && Step(s, a) != s then 1 else 0) + Moves(Step(s, a), acts[1..])
  }

  ghost predicate NoDial(s: St, acts: seq<Act>)
    decreases |acts|
  {
    acts == [] || (!Dials(s, acts[0]) && NoDial(Step(s, acts[0]), acts[1..]))
  }

  lemma CanMove(s: St) returns (a: Act)
    requires Inv(s) && Ended(s.gate) && !(s.k.pc.KExit? && s.l.pc.LExit?)
    ensures (a.Keep? || a.Loop?) && !Dials(s, a) && Rank(Step(s, a)) < Rank(s)
  {
    if s.k.pc.KExit? {
      a := Loop(Quit);
      LoopLowers(s, Quit);
    } else {
      a := Keep(Quit);
      KeepLowers(s, Quit);
    }
  }

  predicate BothExited(s: St) { s.k.pc.KExit? && s.l.pc.LExit? }

  /**
   * After cancellation or Stop, if no further dial succeeds, the two goroutines take at most
   * Rank(s) steps plus one per heartbeat tick, whichever ready select case is picked; until both
   * have exited one of them can move; and when loop has exited `done` is closed.
   */
  lemma {:induction false} ShutdownBounded(s: St, acts: seq<Act>)
    requires Inv(s) && Ended(s.gate) && NoDial(s, acts)
    ensures var s' := Run(s, acts);
      && Moves(s, acts) + Rank(s') <= Rank(s) + TickCount(s, acts)
      && (BothExited(s') ==> s'.gate.doneClosed)
      && (!BothExited(s') ==> exists a: Act :: (a.Keep? || a.Loop?) && !Dials(s', a) && Rank(Step(s', a)) < Rank(s'))
    decreases |acts|
  {
    if acts == [] {
      if !BothExited(s) {
        var a := CanMove(s);
      }
    } else {
      StepLowers(s, acts[0]);
      StepInv(s, acts[0]);
      ShutdownBounded(Step(s, acts[0]), acts[1..]);
    }
  }
}
