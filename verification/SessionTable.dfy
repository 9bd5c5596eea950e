/** The message handlers of `service/service.go` as methods of the object that owns the table. */
module SessionTable {
  import opened Shell
  import opened ShellSession
  import opened Sessions

  class Handlers {
    const max: nat
    const hasShell: bool
    var sessions: map<string, Session>

    constructor (max: nat, hasShell: bool)
      ensures this.max == max && this.hasShell == hasShell && sessions == map[]
    {
      this.max, this.hasShell, sessions := max, hasShell, map[];
    }

    /** `hasShell` is not consulted here. A nil PTY stands for NewSessionPTY failing. */
    method HandleCreateShell(id: string, pty: Pty?, writer: Writer) returns (v: Verdict)
      requires pty != null ==> pty.isOpen
      modifies this
      ensures v == Admission(id, old(sessions).Keys, max, pty != null)
      ensures v.Admitted? <==> id != "" && |old(sessions)| < max && id !in old(sessions) && pty != null
      ensures v.NoId? <==> id == ""
      ensures v.TooMany? <==> id != "" && |old(sessions)| >= max
      ensures v.Duplicate? <==> id != "" && |old(sessions)| < max && id in old(sessions)
      ensures !v.Admitted? ==> sessions == old(sessions)
      ensures v.Admitted? ==>
        && id in sessions && fresh(sessions[id]) && sessions == old(sessions)[id := sessions[id]]
        && sessions[id].View() == NEWSESS.(log := writer.log)
    {
      if id == "" {
        return NoId;
      }
      if |sessions| >= max {
        assert |sessions| == |sessions.Keys|;
        return TooMany;
      }
      assert |sessions| == |sessions.Keys|;
      if id in sessions {
        return Duplicate;
      }
      if pty == null {
        return NoPty;
      }
      var session := new Session(pty, writer);
      var err := session.Start();
      sessions := sessions[id := session];
      v := Admitted;
    }

    /** With shells disabled, or no such session, nothing happens. */
    method HandleClientShellClosed(id: string) returns (ok: bool)
      requires id in sessions && sessions[id].running ==> CtlOk(sessions[id].View().ctl)
      modifies if id in sessions then {sessions[id], sessions[id].shell, sessions[id].writer} else {}
      ensures sessions == old(sessions)
      ensures !(hasShell && id in sessions) ==> ok
      ensures hasShell && id in sessions ==> sessions[id].View() == StopRun(old(sessions[id].View()), ByHandler, ok)
      ensures !hasShell && id in sessions ==> sessions[id].View() == old(sessions[id].View())
    {
      if !hasShell || id !in sessions {
        return true;
      }
      ok := sessions[id].Stop(ByHandler);
    }

    /** The data goes to the terminal of the session under that ID; a failing write stops it. */
    method HandleShellData(id: string, data: seq<Byte>, works: bool) returns (ok: bool)
      requires id in sessions ==> sessions[id].shell != null
      requires id in sessions && sessions[id].running ==> CtlOk(sessions[id].View().ctl)
      modifies if id in sessions then {sessions[id], sessions[id].shell, sessions[id].writer} else {}
      ensures sessions == old(sessions)
      ensures !(hasShell && id in sessions) ==> ok
      ensures id in sessions ==>
        var s := sessions[id];
        var taken := hasShell && works && old(s.shell.isOpen);
        && s.shell.input == old(s.shell.input) + (if taken then data else [])
        && s.View() == (if taken || !hasShell then old(s.View()) else StopRun(old(s.View()), ByHandler, ok))
        && (taken ==> ok)
    {
      if !hasShell || id !in sessions {
        return true;
      }
      ok := sessions[id].shell.Write(data, works);
      if !ok {
        ok := sessions[id].Stop(ByHandler);
      }
    }

    /** One look of the detached goroutine of a session at its select: it stays there until the
        session, the service or the context is done. */
    method Cleanup(id: string, session: Session, ended: bool) returns (woken: bool)
      modifies this
      ensures woken <==> ended || session.doneClosed
      ensures sessions == if woken then old(sessions) - {id} else old(sessions)
    {
      woken := ended || session.doneClosed;
      if woken {
        sessions := sessions - {id};
      }
    }
  }
}
