/**
 * One remote shell, `ShellSession` of `service/shell.go`: the goroutine that copies PTY output to
 * the server, the one that reacts to cancellation, and Stop, which they and the message handlers
 * race to call. Stop holds the session's mutex; its parts are separate steps, since the two
 * goroutines see the PTY and `done` without it.
 */
module Shell {

  type Byte = bv8

  const CHUNK := 1024

  /** What was handed to the writer, and whether the write succeeded. Ready is the success Ready. */
  datatype Msg = Ready(ok: bool) | Data(bytes: seq<Byte>, ok: bool) | Exit(ok: bool)

  // ---- Stop -----------------------------------------------------------------------------------

  /** Progress inside Stop. */
  datatype StopPc = Free | ClosePty | CloseDone | SendExit

  datatype Who = ByOutput | ByLoop | ByHandler

  datatype Ctl = Ctl(
    running: bool,
    ptyOpen: bool,
    doneClosed: bool,
    stop: StopPc,
    who: Who,
    ptyCloses: nat,
    panicked: bool)

  /** After Start. */
  const STARTED := Ctl(true, true, false, Free, ByHandler, 0, false)

  /** The mutex is taken and `running` cleared; with nothing running Stop returns at once. */
  function Enter(c: Ctl, who: Who): Ctl {
    if c.running then c.(running := false, stop := ClosePty, who := who) else c
  }

  function Inside(c: Ctl): Ctl {
    match c.stop
    case Free => c
    case ClosePty => c.(ptyOpen := false, ptyCloses := c.ptyCloses + 1, stop := CloseDone)
    case CloseDone => if c.doneClosed then c.(panicked := true) else c.(doneClosed := true, stop := SendExit)
    case SendExit => c.(stop := Free)
  }

  predicate CtlOk(c: Ctl) {
    && !c.panicked
    && match c.stop
       case Free => c.ptyOpen == c.running && c.doneClosed == !c.running && c.ptyCloses == (if c.running then 0 else 1)
       case ClosePty => !c.running && c.ptyOpen && !c.doneClosed && c.ptyCloses == 0
       case CloseDone => !c.running && !c.ptyOpen && !c.doneClosed && c.ptyCloses == 1
       case SendExit => !c.running && !c.ptyOpen && c.doneClosed && c.ptyCloses == 1
  }

  /** Stop has run to its end. */
  predicate Stopped(c: Ctl) { c.stop.Free? && !c.running }

  // ---- the session ----------------------------------------------------------------------------

  datatype OutPc = SendReady | ReadPty | WriteData | OutStop | OutExit

  datatype LoopPc = Waiting | LoopStop | LoopExit

  /** `read` is what Read returned so far, `log` what was written; `buf` is the chunk in hand. */
  datatype Sess = Sess(
    ctl: Ctl,
    out: OutPc,
    buf: seq<Byte>,
    loop: LoopPc,
    read: seq<Byte>,
    log: seq<Msg>)

  const NEWSESS := Sess(STARTED, SendReady, [], Waiting, [], [])

  datatype SessAct =
    | Output(ok: bool, chunk: seq<Byte>)
    | LoopWakes(cancelled: bool)
    | Calls(who: Who)
    | InStop(ok: bool)

  /** What fits the buffer. */
  function Take(chunk: seq<Byte>): (r: seq<Byte>)
    ensures r <= chunk && |r| <= CHUNK && (|r| < CHUNK ==> r == chunk)
  {
    if |chunk| > CHUNK then chunk[..CHUNK] else chunk
  }

  function OutputStep(s: Sess, ok: bool, chunk: seq<Byte>): Sess {
    match s.out
    case SendReady => s.(log := s.log + [Ready(ok)], out := if ok then ReadPty else OutStop)
    case ReadPty =>
      if ok && s.ctl.ptyOpen
      then s.(buf := Take(chunk), read := s.read + Take(chunk), out := WriteData)
      else s.(out := OutStop)
    case WriteData =>
      var s1 := s.(log := s.log + [Data(s.buf, ok)]);
      if ok then s1.(buf := [], out := ReadPty) else s1.(out := OutStop)
    case OutStop => s
    case OutExit => s
  }

  predicate AtStop(s: Sess, who: Who) {
    match who
    case ByOutput => s.out.OutStop?
    case ByLoop => s.loop.LoopStop?
    case ByHandler => true
  }

  function Return(s: Sess, who: Who): Sess {
    match who
    case ByOutput => s.(out := OutExit)
    case ByLoop => s.(loop := LoopExit)
    case ByHandler => s
  }

  function SessStep(s: Sess, a: SessAct): Sess {
    match a
    case Output(ok, chunk) => OutputStep(s, ok, chunk)
    case LoopWakes(cancelled) =>
      if s.loop.Waiting? && (cancelled || s.ctl.doneClosed) then s.(loop := LoopStop) else s
    case Calls(who) =>
      if !s.ctl.stop.Free? || !AtStop(s, who) then s
      else if s.ctl.running then s.(ctl := Enter(s.ctl, who))
      else Return(s, who)
    case InStop(ok) =>
      if s.ctl.stop.Free? then s
      else if s.ctl.stop.SendExit?
      then Return(s.(ctl := Inside(s.ctl), log := s.log + [Exit(ok)]), s.ctl.who)
      else s.(ctl := Inside(s.ctl))
  }

  function SessRun(s: Sess, acts: seq<SessAct>): Sess
    decreases |acts|
  {
    if acts == [] then s else SessRun(SessStep(s, acts[0]), acts[1..])
  }

  // ---- what every run keeps -------------------------------------------------------------------

  ghost predicate NoExit(log: seq<Msg>) { forall k :: 0 <= k < |log| ==> !log[k].Exit? }

  /** At most one success Ready, before all Data; at most one Exit, and at most one message after it. */
  ghost predicate Ordered(log: seq<Msg>) {
    && (forall i, j :: 0 <= i < j < |log| && log[j].Ready? ==> log[i].Exit?)
    && (forall j :: 0 <= j < |log| && log[j].Data? ==> log[0] == Ready(true))
    && (forall i, j :: 0 <= i < j < |log| && log[i].Exit? ==> !log[j].Exit?)
    && (forall i :: 0 <= i < |log| && log[i].Exit? ==> |log| - i <= 2)
  }

  /** Where the output goroutine is against the messages written. */
  ghost predicate OutOk(s: Sess) {
    && (s.out.SendReady? ==> forall k :: 0 <= k < |s.log| ==> s.log[k].Exit?)
    && (s.out.ReadPty? && s.ctl.ptyOpen ==> s.log != [] && s.log[0] == Ready(true))
    && (s.out.WriteData? ==> s.log != [] && s.log[0] == Ready(true))
    && (s.out in {SendReady, WriteData} && Stopped(s.ctl) ==> s.log != [] && s.log[|s.log| - 1].Exit?)
    && (NoExit(s.log) <==> !Stopped(s.ctl))
  }

  /** The Data payloads whose write succeeded, in order. */
  function Payload(log: seq<Msg>): seq<Byte> {
    if log == [] then []
    else
      var last := log[|log| - 1];
      Payload(log[..|log| - 1]) + if last.Data? && last.ok then last.bytes else []
  }

  /** What was read is what was written plus the chunk in hand, and every chunk fits the buffer. */
  ghost predicate Conserved(s: Sess) {
    && s.read == Payload(s.log) + s.buf
    && |s.buf| <= CHUNK
    && (forall k :: 0 <= k < |s.log| && s.log[k].Data? ==> |s.log[k].bytes| <= CHUNK)
    && (s.out in {SendReady, ReadPty} ==> s.buf == [])
    && (s.out in {OutStop, OutExit} && s.buf != [] ==> Data(s.buf, false) in s.log)
  }

  ghost predicate Inv(s: Sess) {
    CtlOk(s.ctl) && Caller(s) && Ordered(s.log) && OutOk(s) && Conserved(s)
  }

  /** Whoever is inside Stop is still there, and nobody leaves it with the session running. */
  predicate Caller(s: Sess) {
    && (!s.ctl.stop.Free? ==> AtStop(s, s.ctl.who))
    && (s.out.OutExit? || s.loop.LoopExit? ==> !s.ctl.running)
  }

  lemma PayloadMore(log: seq<Msg>, m: Msg)
    ensures Payload(log + [m]) == Payload(log) + if m.Data? && m.ok then m.bytes else []
  {
    assert (log + [m])[..|log|] == log;
  }

  lemma MoreOrdered(s: Sess, ok: bool)
    requires Ordered(s.log) && OutOk(s)
    ensures Ordered(OutputStep(s, ok, []).log)
  {
  }

  lemma OutputOrdered(s: Sess, ok: bool, chunk: seq<Byte>)
    requires CtlOk(s.ctl) && Ordered(s.log) && OutOk(s)
    ensures var s' := OutputStep(s, ok, chunk); Ordered(s'.log) && OutOk(s')
  {
    MoreOrdered(s, ok);
    var s' := OutputStep(s, ok, chunk);
    assert s'.log == s.log || (|s'.log| == |s.log| + 1 && s'.log[..|s.log|] == s.log);
    if !NoExit(s.log) {
      var k :| 0 <= k < |s.log| && s.log[k].Exit?;
      assert s'.log[k].Exit?;
    }
  }

  lemma OutputConserved(s: Sess, ok: bool, chunk: seq<Byte>)
    requires Conserved(s)
    ensures Conserved(OutputStep(s, ok, chunk))
  {
    if s.out.SendReady? {
      PayloadMore(s.log, Ready(ok));
    } else if s.out.WriteData? {
      WriteConserved(s, ok, chunk);
    }
  }

  /** The chunk in hand is written, or its write fails and it stays the missing one. */
  lemma OneMessage(log: seq<Msg>, buf: seq<Byte>, read: seq<Byte>, ok: bool)
    requires read == Payload(log) + buf && |buf| <= CHUNK
    requires forall k :: 0 <= k < |log| && log[k].Data? ==> |log[k].bytes| <= CHUNK
    ensures var log' := log + [Data(buf, ok)];
      && read == Payload(log') + (if ok then [] else buf) && Data(buf, ok) in log'
      && forall k :: 0 <= k < |log'| && log'[k].Data? ==> |log'[k].bytes| <= CHUNK
  {
    PayloadMore(log, Data(buf, ok));
    var log' := log + [Data(buf, ok)];
    assert log'[|log|] == Data(buf, ok);
    assert Payload(log') + [] == Payload(log') && Payload(log) + [] == Payload(log);
  }

  lemma WriteConserved(s: Sess, ok: bool, chunk: seq<Byte>)
    requires Conserved(s) && s.out.WriteData?
    ensures Conserved(OutputStep(s, ok, chunk))
  {
    OneMessage(s.log, s.buf, s.read, ok);
  }

  lemma ExitOrdered(s: Sess, ok: bool)
    requires CtlOk(s.ctl) && Ordered(s.log) && OutOk(s) && s.ctl.stop.SendExit?
    ensures var s' := SessStep(s, InStop(ok)); Ordered(s'.log) && OutOk(s')
  {
    var s' := SessStep(s, InStop(ok));
    assert s'.log == s.log + [Exit(ok)] && s'.log[|s.log|].Exit?;
  }

  lemma ExitConserved(s: Sess, ok: bool)
    requires Conserved(s) && s.ctl.stop.SendExit? && AtStop(s, s.ctl.who)
    ensures Conserved(SessStep(s, InStop(ok)))
  {
    PayloadMore(s.log, Exit(ok));
    assert Data(s.buf, false) in s.log ==> Data(s.buf, false) in s.log + [Exit(ok)];
  }

  lemma QuietInv(s: Sess, s': Sess)
    requires Inv(s) && CtlOk(s'.ctl) && Caller(s')
    requires s' == s.(ctl := s'.ctl, out := s'.out, loop := s'.loop)
    requires s'.out == s.out || (s.out.OutStop? && s'.out.OutExit?)
    requires Stopped(s'.ctl) == Stopped(s.ctl) && (s'.ctl.ptyOpen ==> s.ctl.ptyOpen)
    ensures Inv(s')
  {
  }

  lemma InStopInv(s: Sess, ok: bool)
    requires Inv(s)
    ensures Inv(SessStep(s, InStop(ok)))
  {
    if s.ctl.stop.SendExit? {
      ExitOrdered(s, ok);
      ExitConserved(s, ok);
    } else {
      QuietInv(s, SessStep(s, InStop(ok)));
    }
  }

  lemma StepInv(s: Sess, a: SessAct)
    requires Inv(s)
    ensures Inv(SessStep(s, a))
  {
    match a
    case Output(ok, chunk) =>
      OutputOrdered(s, ok, chunk);
      OutputConserved(s, ok, chunk);
    case InStop(ok) => InStopInv(s, ok);
    case _ => QuietInv(s, SessStep(s, a));
  }

  lemma {:induction false} RunInv(s: Sess, acts: seq<SessAct>)
    requires Inv(s)
    ensures Inv(SessRun(s, acts))
    decreases |acts|
  {
    if acts != [] {
      StepInv(s, acts[0]);
      RunInv(SessStep(s, acts[0]), acts[1..]);
    }
  }

  lemma NewInv()
    ensures Inv(NEWSESS)
  {
  }

  /**
   * For every interleaving of the two goroutines and any callers of Stop: the messages come in
   * order (`Ordered`), the PTY and `done` are closed at most once, and once Stop is through both
   * are closed and Exit was sent.
   */
  lemma MessageOrder(acts: seq<SessAct>)
    ensures var s := SessRun(NEWSESS, acts);
      && Ordered(s.log)
      && s.ctl.ptyCloses <= 1 && !s.ctl.panicked
      && (Stopped(s.ctl) <==> !NoExit(s.log))
      && (!NoExit(s.log) ==> s.ctl.doneClosed && !s.ctl.ptyOpen)
  {
    NewInv();
    RunInv(NEWSESS, acts);
  }

  /** The bytes a step gets out of the PTY: a read that works on an open PTY fills the buffer. */
  function GotBy(s: Sess, a: SessAct): seq<Byte> {
    if a.Output? && s.out.ReadPty? && a.ok && s.ctl.ptyOpen then Take(a.chunk) else []
  }

  /** All bytes the PTY gave away in a run, in order. */
  function Got(s: Sess, acts: seq<SessAct>): seq<Byte>
    decreases |acts|
  {
    if acts == [] then [] else GotBy(s, acts[0]) + Got(SessStep(s, acts[0]), acts[1..])
  }

  lemma StepReads(s: Sess, a: SessAct)
    ensures SessStep(s, a).read == s.read + GotBy(s, a)
  {
    assert s.read + [] == s.read;
  }

  lemma {:induction false} RunReads(s: Sess, acts: seq<SessAct>)
    ensures SessRun(s, acts).read == s.read + Got(s, acts)
    decreases |acts|
  {
    if acts == [] {
      assert s.read + [] == s.read;
    } else {
      StepReads(s, acts[0]);
      RunReads(SessStep(s, acts[0]), acts[1..]);
      assert s.read + GotBy(s, acts[0]) + Got(SessStep(s, acts[0]), acts[1..]) == s.read + Got(s, acts);
    }
  }

  /**
   * PTY output is conserved: the successfully written payloads are a prefix of the bytes read, in
   * order, and what is missing is one chunk - the one in hand, or the last one when its write
   * failed. Every chunk has at most 1024 bytes. The bytes read are those the PTY gave away, each
   * chunk cut to the buffer.
   */
  lemma OutputConservation(acts: seq<SessAct>)
    ensures SessRun(NEWSESS, acts).read == Got(NEWSESS, acts)
    ensures var s := SessRun(NEWSESS, acts);
      && Payload(s.log) <= s.read
      && s.read[|Payload(s.log)|..] == s.buf && |s.buf| <= CHUNK
      && (s.out in {SendReady, ReadPty} ==> Payload(s.log) == s.read)
      && (s.out in {OutStop, OutExit} && Payload(s.log) != s.read ==> Data(s.buf, false) in s.log)
      && (forall k :: 0 <= k < |s.log| && s.log[k].Data? ==> |s.log[k].bytes| <= CHUNK)
  {
    NewInv();
    RunInv(NEWSESS, acts);
    RunReads(NEWSESS, acts);
    assert [] + Got(NEWSESS, acts) == Got(NEWSESS, acts);
  }

  // ---- the end ------------------------------------------------------------------------------------

  function StopLeft(c: Ctl): nat {
    match c.stop
    case Free => if c.running then 4 else 0
    case ClosePty => 3
    case CloseDone => 2
    case SendExit => 1
  }

  function Left(s: Sess): nat {
    3 * StopLeft(s.ctl)
    + (match s.loop case Waiting => 2 case LoopStop => 1 case LoopExit => 0)
    + (match s.out case SendReady => 2 case ReadPty => 2 case WriteData => 2 case OutStop => 1 case OutExit => 0)
  }

  predicate BothExited(s: Sess) { s.out.OutExit? && s.loop.LoopExit? && Stopped(s.ctl) }

  /** Once cancelled or stopped: whoever is inside Stop goes on; loop calls Stop; then the output
      goroutine. */
  function EndAct(s: Sess): SessAct {
    if !s.ctl.stop.Free? then InStop(true)
    else if s.loop.Waiting? then LoopWakes(!s.ctl.doneClosed)
    else if s.loop.LoopStop? then Calls(ByLoop)
    else if s.out.OutStop? then Calls(ByOutput)
    else Output(false, [])
  }

  lemma EndStopLowers(s: Sess)
    requires Inv(s) && !s.ctl.stop.Free?
    ensures Left(SessStep(s, InStop(true))) < Left(s)
  {
  }

  lemma EndOutLowers(s: Sess)
    requires s.ctl.stop.Free? && s.out in {SendReady, ReadPty, WriteData}
    ensures Left(SessStep(s, Output(false, []))) < Left(s)
  {
  }

  lemma EndCallLowers(s: Sess, who: Who)
    requires s.ctl.stop.Free? && !who.ByHandler? && AtStop(s, who)
    ensures Left(SessStep(s, Calls(who))) < Left(s)
  {
  }

  lemma EndLowers(s: Sess)
    requires Inv(s) && !BothExited(s)
    ensures Left(SessStep(s, EndAct(s))) < Left(s)
  {
    if !s.ctl.stop.Free? {
      EndStopLowers(s);
    } else if s.loop.Waiting? {
    } else if s.loop.LoopStop? {
      EndCallLowers(s, ByLoop);
    } else if s.out.OutStop? {
      EndCallLowers(s, ByOutput);
    } else {
      EndOutLowers(s);
    }
  }

  lemma StaysClosed(s: Sess, a: SessAct)
    ensures s.ctl.doneClosed ==> SessStep(s, a).ctl.doneClosed
  {
  }

  /** From every reachable state the cancellation lets the session end by its own goroutines alone:
      Exit is sent, the PTY and `done` are closed, and both goroutines are gone. Once Stop is through
      they end without it. */
  lemma {:induction false} CanEnd(s: Sess) returns (acts: seq<SessAct>)
    requires Inv(s)
    ensures BothExited(SessRun(s, acts)) && |acts| <= Left(s)
    ensures forall a :: a in acts ==> a != Calls(ByHandler) && (s.ctl.doneClosed ==> a != LoopWakes(true))
    decreases Left(s)
  {
    if BothExited(s) {
      acts := [];
    } else {
      var a := EndAct(s);
      EndLowers(s);
      StepInv(s, a);
      StaysClosed(s, a);
      var rest := CanEnd(SessStep(s, a));
      acts := [a] + rest;
      assert acts[1..] == rest;
    }
  }
}
