/** The session object of `service/shell.go`, run by one goroutine at a time: each method is a run
    of the machine in `Shell`, so what holds of every run holds of it. */
module ShellSession {
  import opened Wrappers
  import opened Shell

  /** A pseudo-terminal that plays back a script: `None` is a read that fails by itself. */
  class Pty {
    var isOpen: bool
    var script: seq<Option<seq<Byte>>>
    var input: seq<Byte>

    constructor (script: seq<Option<seq<Byte>>>)
      ensures isOpen && this.script == script && input == []
    {
      isOpen, input := true, [];
      this.script := script;
    }

    /** A closed terminal refuses every write. */
    method Write(data: seq<Byte>, works: bool) returns (ok: bool)
      modifies this`input
      ensures ok == (works && isOpen)
      ensures input == old(input) + if ok then data else []
    {
      ok := works && isOpen;
      if ok {
        input := input + data;
      }
    }

    /** Fills a prefix of the buffer. A closed terminal fails every read. */
    method Read(buf: array<Byte>) returns (n: nat, ok: bool)
      requires buf.Length == CHUNK
      modifies this`script, buf
      ensures n <= buf.Length
      ensures !isOpen ==> !ok
      ensures ok ==> old(script) != [] && old(script)[0].Some? && buf[..n] == Take(old(script)[0].value)
      ensures script == if ok then old(script)[1..] else old(script)
    {
      if !isOpen || script == [] || script[0].None? {
        return 0, false;
      }
      var data := script[0].value;
      script := script[1..];
      n, ok := if |data| > CHUNK then CHUNK else |data|, true;
      for i := 0 to n
        invariant n <= |data| && buf[..i] == data[..i]
        invariant script == old(script)[1..]
      {
        buf[i] := data[i];
      }
      assert data[..n] == Take(data);
    }

    method Close()
      modifies this`isOpen
      ensures !isOpen
    {
      isOpen := false;
    }
  }

  /** What the reads of these script entries put into the buffer, one after the other. */
  function Played(script: seq<Option<seq<Byte>>>): seq<Byte> {
    if script == [] then []
    else
      var last := script[|script| - 1];
      Played(script[..|script| - 1]) + if last.Some? then Take(last.value) else []
  }

  /** The entries of `before` that are gone in `after`. */
  predicate Consumed(before: seq<Option<seq<Byte>>>, after: seq<Option<seq<Byte>>>) {
    |after| <= |before| && before[|before| - |after|..] == after
  }

  function Eaten(before: seq<Option<seq<Byte>>>, after: seq<Option<seq<Byte>>>): seq<Option<seq<Byte>>>
    requires Consumed(before, after)
  {
    before[..|before| - |after|]
  }

  /** What was read is what the entries consumed put into the buffer. */
  predicate Fed(before: seq<Option<seq<Byte>>>, after: seq<Option<seq<Byte>>>, read: seq<Byte>, read': seq<Byte>) {
    Consumed(before, after) && read' == read + Played(Eaten(before, after))
  }

  lemma FeedOne(before: seq<Option<seq<Byte>>>, mid: seq<Option<seq<Byte>>>, read: seq<Byte>, read': seq<Byte>)
    requires Fed(before, mid, read, read') && mid != [] && mid[0].Some?
    ensures Fed(before, mid[1..], read, read' + Take(mid[0].value))
  {
    var n := |before| - |mid|;
    assert before[n] == mid[0];
    assert before[..n + 1][..n] == before[..n];
    assert read + (Played(before[..n]) + Take(mid[0].value)) == read + Played(before[..n]) + Take(mid[0].value);
  }

  lemma NothingFed(script: seq<Option<seq<Byte>>>, read: seq<Byte>)
    ensures Fed(script, script, read, read)
  {
    assert script[..0] == [] && read + [] == read;
  }

  /** writeMessage: notes every message and whether the client took it. */
  class Writer {
    var log: seq<Msg>
    var outcomes: seq<bool>

    constructor (outcomes: seq<bool>)
      ensures log == []
    {
      log, this.outcomes := [], outcomes;
    }

    method Outcome() returns (ok: bool)
      modifies this`outcomes
    {
      ok := outcomes != [] && outcomes[0];
      if outcomes != [] {
        outcomes := outcomes[1..];
      }
    }

    method Note(m: Msg)
      modifies this`log
      ensures log == old(log) + [m]
    {
      log := log + [m];
    }
  }

  /** A whole call of Stop as steps of the machine. */
  function StopRun(s: Sess, who: Who, ok: bool): Sess {
    SessStep(SessStep(SessStep(SessStep(s, Calls(who)), InStop(true)), InStop(true)), InStop(ok))
  }

  lemma {:induction false} RunMore(s: Sess, acts: seq<SessAct>, a: SessAct)
    ensures SessRun(s, acts + [a]) == SessStep(SessRun(s, acts), a)
    decreases |acts|
  {
    if acts == [] {
      assert [a][1..] == [];
      assert SessRun(SessStep(s, a), []) == SessStep(s, a);
    } else {
      assert (acts + [a])[1..] == acts[1..] + [a];
      RunMore(SessStep(s, acts[0]), acts[1..], a);
    }
  }

  lemma StopIsRun(s: Sess, acts: seq<SessAct>, who: Who, ok: bool) returns (acts': seq<SessAct>)
    ensures SessRun(s, acts') == StopRun(SessRun(s, acts), who, ok)
  {
    RunMore(s, acts, Calls(who));
    RunMore(s, acts + [Calls(who)], InStop(true));
    RunMore(s, acts + [Calls(who)] + [InStop(true)], InStop(true));
    RunMore(s, acts + [Calls(who)] + [InStop(true)] + [InStop(true)], InStop(ok));
    acts' := acts + [Calls(who)] + [InStop(true)] + [InStop(true)] + [InStop(ok)];
  }

  /** One turn of the copy loop as steps of the run. */
  lemma TurnIsRun(s0: Sess, s: Sess, acts: seq<SessAct>, got: bool, chunk: seq<Byte>, online: bool) returns (acts': seq<SessAct>)
    requires SessRun(s0, acts) == s
    ensures SessRun(s0, acts') == var s1 := OutputStep(s, got, chunk); if got then OutputStep(s1, online, []) else s1
  {
    RunMore(s0, acts, Output(got, chunk));
    acts' := acts + [Output(got, chunk)];
    if got {
      RunMore(s0, acts', Output(online, []));
      acts' := acts' + [Output(online, [])];
    }
  }

  /** The deferred Stop of the output goroutine. */
  lemma OutputEnds(s: Sess, acts: seq<SessAct>, ok: bool) returns (acts': seq<SessAct>)
    requires Inv(s) && SessRun(s, acts).out.OutStop? && SessRun(s, acts).ctl.stop.Free?
    ensures var s' := StopRun(SessRun(s, acts), ByOutput, ok);
      && SessRun(s, acts') == s' && Inv(s')
      && s'.out.OutExit? && !s'.ctl.running && s'.ctl.doneClosed
      && Payload(s'.log) + s'.buf == s'.read
  {
    RunInv(s, acts);
    acts' := StopIsRun(s, acts, ByOutput, ok);
    RunInv(s, acts');
  }

  class Session {
    const shell: Pty?
    const writer: Writer
    var running: bool
    var doneClosed: bool
    // history, and where the goroutines are
    ghost var caller: Who
    ghost var ptyCloses: nat
    ghost var out: OutPc
    ghost var loop: LoopPc
    ghost var pending: seq<Byte>
    ghost var read: seq<Byte>

    ghost function View(): Sess
      reads this, shell, writer
    {
      Sess(Ctl(running, shell != null && shell.isOpen, doneClosed, Free, caller, ptyCloses, false), out, pending, loop, read, writer.log)
    }

    /** NewShellSession: `done` is the package's closed channel, and the PTY is open already. */
    constructor (shell: Pty?, writer: Writer)
      ensures this.shell == shell && this.writer == writer
      ensures !running && doneClosed
      ensures out == SendReady && loop == Waiting && pending == read == [] && ptyCloses == 0 && caller == ByHandler
    {
      this.shell, this.writer := shell, writer;
      running, doneClosed := false, true;
      caller, ptyCloses, out, loop, pending, read := ByHandler, 0, SendReady, Waiting, [], [];
    }

    /** On a fresh session with its PTY open this is the machine's first state. */
    method Start() returns (err: bool)
      modifies this`running, this`doneClosed
      ensures err == (!old(running) && shell == null)
      ensures running == !err
      ensures old(running) || err ==> doneClosed == old(doneClosed)
      ensures !old(running) && !err ==> !doneClosed
    {
      err := false;
      if running {
        return;
      }
      if shell == null {
        return true;
      }
      running, doneClosed := true, false;
    }

    method Stop(ghost who: Who) returns (ok: bool)
      requires (running ==> CtlOk(View().ctl)) && AtStop(View(), who)
      modifies this`running, this`doneClosed, this`caller, this`ptyCloses, this`out, this`loop, shell, writer
      ensures shell != null ==> shell.script == old(shell.script) && shell.input == old(shell.input)
      ensures View() == StopRun(old(View()), who, ok)
      ensures !old(running) ==> ok && writer.log == old(writer.log)
      ensures old(running) ==> writer.log == old(writer.log) + [Exit(ok)] && doneClosed && (shell != null ==> !shell.isOpen)
      ensures Stopped(View().ctl)
    {
      ok := true;
      if !running {
        Leave(who);
        return;
      }
      running, caller := false, who;
      if shell != null {
        shell.Close();
      }
      ptyCloses := ptyCloses + 1;
      doneClosed := true;
      ok := writer.Outcome();
      writer.Note(Exit(ok));
      Leave(who);
    }

    ghost method Leave(who: Who)
      modifies this`out, this`loop
      ensures View() == Return(old(View()), who)
    {
      match who {
        case ByOutput => out := OutExit;
        case ByLoop => loop := LoopExit;
        case ByHandler =>
      }
    }

    /** One turn of the copy loop: two steps of the machine, or one when the read fails. */
    method CopyChunk() returns (online: bool, ghost chunk: seq<Byte>, ghost got: bool)
      requires shell != null && out.ReadPty?
      modifies this`out, this`pending, this`read, shell`script, writer
      ensures View() == var s := OutputStep(old(View()), got, chunk);
                        if got then OutputStep(s, online, []) else s
      ensures online ==> got && out.ReadPty? && |shell.script| < |old(shell.script)|
      ensures !online ==> out.OutStop?
      ensures !got ==> shell.script == old(shell.script) && read == old(read) && writer.log == old(writer.log)
      ensures got ==> old(shell.script) != [] && old(shell.script)[0].Some? && shell.script == old(shell.script)[1..]
      ensures got ==> chunk == Take(old(shell.script)[0].value) && read == old(read) + chunk
      ensures got ==> writer.log == old(writer.log) + [Data(chunk, online)]
    {
      chunk := [];
      var buf := new Byte[CHUNK];
      var n, ok := shell.Read(buf);
      got := ok;
      if !ok {
        online, out := false, OutStop;
        return;
      }
      chunk := buf[..n];
      assert Take(chunk) == chunk;
      pending, read, out := buf[..n], read + buf[..n], WriteData;
      online := writer.Outcome();
      writer.Note(Data(buf[..n], online));
      if online {
        pending, out := [], ReadPty;
      } else {
        out := OutStop;
      }
    }

    /** The success Ready, the first step of the output goroutine. */
    method Greet() returns (online: bool)
      requires out.SendReady?
      modifies this`out, writer
      ensures View() == OutputStep(old(View()), online, [])
    {
      online := writer.Outcome();
      writer.Note(Ready(online));
      out := if online then ReadPty else OutStop;
    }

    /** Everything up to the deferred Stop. */
    method CopyOutput() returns (ghost acts: seq<SessAct>)
      requires shell != null && out.SendReady?
      modifies this`out, this`pending, this`read, shell`script, writer
      ensures View() == SessRun(old(View()), acts) && out.OutStop?
      ensures Fed(old(shell.script), shell.script, old(read), read)
    {
      ghost var s0 := View();
      NothingFed(shell.script, read);
      var online := Greet();
      RunMore(s0, [], Output(online, []));
      acts := [] + [Output(online, [])];
      while online
        invariant Fed(old(shell.script), shell.script, old(read), read)
        invariant View() == SessRun(s0, acts)
        invariant out == if online then ReadPty else OutStop
        decreases online, |shell.script|
      {
        ghost var chunk, got;
        ghost var s1, script, before := View(), shell.script, read;
        online, chunk, got := CopyChunk();
        acts := TurnIsRun(s0, s1, acts, got, chunk, online);
        if got {
          FeedOne(old(shell.script), script, old(read), before);
        }
      }
    }

    /** The output goroutine from start to end is a run of the machine; what it wrote is what it
        read, but for the chunk whose write failed. */
    method HandlePTYOutput() returns (ghost acts: seq<SessAct>)
      requires shell != null && Inv(View()) && out.SendReady?
      modifies this, shell, writer
      ensures View() == SessRun(old(View()), acts)
      ensures Inv(View()) && out.OutExit? && !running && doneClosed
      ensures Payload(writer.log) + pending == read
      ensures Fed(old(shell.script), shell.script, old(read), read)
    {
      ghost var s0 := View();
      acts := CopyOutput();
      assert CtlOk(View().ctl) by {
        RunInv(s0, acts);
      }
      var stopped := Stop(ByOutput);
      acts := OutputEnds(s0, acts, stopped);
    }
  }
}
