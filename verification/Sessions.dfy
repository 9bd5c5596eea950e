/**
 * The table of shell sessions in `service/service.go`: the message handlers, which hold `s.mux`,
 * the two goroutines of every session ever created, and for each session a detached goroutine that
 * deletes from the table by session ID.
 */
module Sessions {
  import opened Wrappers
  import opened Shell

  datatype Verdict = Admitted | NoId | TooMany | Duplicate | NoPty

  /** What handleCreateShell decides, in the order it asks. */
  function Admission(id: string, inUse: set<string>, max: nat, ptyOk: bool): Verdict {
    if id == "" then NoId
    else if |inUse| >= max then TooMany
    else if id in inUse then Duplicate
    else if !ptyOk then NoPty
    else Admitted
  }

  /** A session with the ID it was created under; `cleanup` says that its cleanup goroutine has
      not deleted yet. The index in `all` is the session's identity. */
  datatype Entry = Entry(id: string, sess: Sess, cleanup: bool)

  /** `busy` is the session whose Stop a handler is running, holding `s.mux`. */
  datatype Table = Table(
    all: seq<Entry>,
    sessions: map<string, nat>,
    busy: Option<nat>,
    ended: bool)

  const EMPTY := Table([], map[], None, false)

  datatype Act =
    | Create(id: string, ptyOk: bool)
    | CloseShell(id: string)
    | ShellData(id: string, writeOk: bool)
    | HandlerStep(ok: bool)
    | Own(i: nat, a: SessAct)
    | CleanupFires(i: nat)
    | End

  function SetSess(t: Table, i: nat, s: Sess): Table
    requires i < |t.all|
  {
    t.(all := t.all[i := t.all[i].(sess := s)])
  }

  /** One more entry under an unused ID. */
  function Insert(t: Table, id: string): Table {
    t.(all := t.all + [Entry(id, NEWSESS, true)], sessions := t.sessions[id := |t.all|])
  }

  function CreateStep(t: Table, max: nat, id: string, ptyOk: bool): Table {
    if !Admission(id, t.sessions.Keys, max, ptyOk).Admitted? then t
    else Insert(t, id)
  }

  /** A handler calls Stop on the session it finds; once Stop is entered it keeps `s.mux`. */
  function StopSession(t: Table, id: string): Table {
    if id !in t.sessions || t.sessions[id] >= |t.all| then t
    else
      var i := t.sessions[id];
      var s := t.all[i].sess;
      if !s.ctl.stop.Free? then t
      else
        var s' := SessStep(s, Calls(ByHandler));
        var t' := SetSess(t, i, s');
        if s'.ctl.stop.Free? then t' else t'.(busy := Some(i))
  }

  function HandlerStop(t: Table, ok: bool): Table {
    if t.busy.None? || t.busy.value >= |t.all| then t
    else
      var i := t.busy.value;
      var s' := SessStep(t.all[i].sess, InStop(ok));
      var t' := SetSess(t, i, s');
      if s'.ctl.stop.Free? then t'.(busy := None) else t'
  }

  /** The steps a session's own goroutines can take. */
  predicate OwnAct(s: Sess, a: SessAct, ended: bool) {
    match a
    case Output(_, _) => true
    case LoopWakes(cancelled) => cancelled ==> ended
    case Calls(who) => !who.ByHandler?
    case InStop(_) => !s.ctl.who.ByHandler?
  }

  predicate CleanupReady(t: Table, i: nat) {
    i < |t.all| && t.all[i].cleanup && (t.ended || t.all[i].sess.ctl.doneClosed)
  }

  function Delete(t: Table, i: nat): Table
    requires i < |t.all|
  {
    t.(all := t.all[i := t.all[i].(cleanup := false)], sessions := t.sessions - {t.all[i].id})
  }

  function Step(t: Table, max: nat, a: Act): Table {
    match a
    case Create(id, ptyOk) => if t.busy.None? then CreateStep(t, max, id, ptyOk) else t
    case CloseShell(id) => if t.busy.None? then StopSession(t, id) else t
    case ShellData(id, writeOk) => if t.busy.None? && !writeOk then StopSession(t, id) else t
    case HandlerStep(ok) => HandlerStop(t, ok)
    case Own(i, sa) =>
      if i < |t.all| && OwnAct(t.all[i].sess, sa, t.ended) then SetSess(t, i, SessStep(t.all[i].sess, sa)) else t
    case CleanupFires(i) => if t.busy.None? && CleanupReady(t, i) then Delete(t, i) else t
    case End => t.(ended := true)
  }

  function Run(t: Table, max: nat, acts: seq<Act>): Table
    decreases |acts|
  {
    if acts == [] then t else Run(Step(t, max, acts[0]), max, acts[1..])
  }

  // ---- what every run keeps -------------------------------------------------------------------

  /** Table entries and pending cleanups are the same thing seen from two sides. */
  ghost predicate Paired(t: Table) {
    && (forall id :: id in t.sessions ==>
          t.sessions[id] < |t.all| && t.all[t.sessions[id]].id == id && t.all[t.sessions[id]].cleanup)
    && (forall i :: 0 <= i < |t.all| && t.all[i].cleanup ==>
          t.all[i].id in t.sessions && t.sessions[t.all[i].id] == i)
  }

  ghost predicate SessOk(t: Table, e: Entry) {
    && CtlOk(e.sess.ctl)
    && (!t.ended && !e.sess.ctl.doneClosed ==> e.cleanup)
  }

  ghost predicate Inv(t: Table, max: nat) {
    && Paired(t)
    && "" !in t.sessions
    && |t.sessions| <= max
    && (forall i :: 0 <= i < |t.all| ==> SessOk(t, t.all[i]))
  }

  lemma SessCtl(s: Sess, a: SessAct)
    requires CtlOk(s.ctl)
    ensures CtlOk(SessStep(s, a).ctl)
    ensures s.ctl.doneClosed ==> SessStep(s, a).ctl.doneClosed
  {
  }

  lemma SetSessInv(t: Table, max: nat, i: nat, a: SessAct)
    requires Inv(t, max) && i < |t.all|
    ensures Inv(SetSess(t, i, SessStep(t.all[i].sess, a)), max)
  {
    assert SessOk(t, t.all[i]);
    SessCtl(t.all[i].sess, a);
    var t' := SetSess(t, i, SessStep(t.all[i].sess, a));
    assert forall k :: 0 <= k < |t.all| ==> t'.all[k].id == t.all[k].id && t'.all[k].cleanup == t.all[k].cleanup;
    forall k | 0 <= k < |t'.all| ensures SessOk(t', t'.all[k]) {
      assert SessOk(t, t.all[k]);
    }
  }

  lemma CreatePaired(t: Table, id: string)
    requires Paired(t) && id !in t.sessions
    ensures Paired(Insert(t, id))
  {
  }

  lemma CreateSess(t: Table, t': Table, id: string)
    requires forall i :: 0 <= i < |t.all| ==> SessOk(t, t.all[i])
    requires t'.all == t.all + [Entry(id, NEWSESS, true)] && t'.ended == t.ended
    ensures forall i :: 0 <= i < |t'.all| ==> SessOk(t', t'.all[i])
  {
    forall k | 0 <= k < |t'.all| ensures SessOk(t', t'.all[k]) {
      assert k < |t.all| ==> t'.all[k] == t.all[k] && SessOk(t, t.all[k]);
    }
  }

  lemma CreateSize(sessions: map<string, nat>, id: string, n: nat)
    requires id !in sessions
    ensures |sessions[id := n]| == |sessions.Keys| + 1 && |sessions| == |sessions.Keys|
  {
    assert sessions[id := n].Keys == sessions.Keys + {id};
    assert |sessions[id := n]| == |sessions[id := n].Keys|;
  }

  lemma InsertInv(t: Table, max: nat, id: string)
    requires Inv(t, max) && id != "" && id !in t.sessions && |t.sessions.Keys| < max
    ensures Inv(Insert(t, id), max)
  {
    CreatePaired(t, id);
    CreateSess(t, Insert(t, id), id);
    CreateSize(t.sessions, id, |t.all|);
  }

  lemma CreateInv(t: Table, max: nat, id: string, ptyOk: bool)
    requires Inv(t, max)
    ensures Inv(CreateStep(t, max, id, ptyOk), max)
  {
    if Admission(id, t.sessions.Keys, max, ptyOk).Admitted? {
      InsertInv(t, max, id);
    }
  }

  /** The deletion by key takes out exactly the session the goroutine was created for. */
  lemma DeletesOwn(t: Table, max: nat, i: nat)
    requires Inv(t, max) && CleanupReady(t, i)
    ensures t.all[i].id in t.sessions && t.sessions[t.all[i].id] == i
    ensures var t' := Delete(t, i);
      && (forall id :: id in t'.sessions <==> id in t.sessions && t.sessions[id] != i)
      && (forall id :: id in t'.sessions ==> t'.sessions[id] == t.sessions[id])
  {
  }

  lemma DeleteInv(t: Table, max: nat, i: nat)
    requires Inv(t, max) && CleanupReady(t, i)
    ensures Inv(Delete(t, i), max)
  {
    DeletesOwn(t, max, i);
    var t' := Delete(t, i);
    assert t'.sessions.Keys <= t.sessions.Keys;
    Smaller(t'.sessions.Keys, t.sessions.Keys);
    assert |t'.sessions| == |t'.sessions.Keys| && |t.sessions| == |t.sessions.Keys|;
    forall k | 0 <= k < |t'.all| ensures SessOk(t', t'.all[k]) {
      assert SessOk(t, t.all[k]);
    }
  }

  lemma {:induction false} Smaller<T>(a: set<T>, b: set<T>)
    requires a <= b
    ensures |a| <= |b|
  {
    if a != {} {
      var x :| x in a;
      Smaller(a - {x}, b - {x});
    }
  }

  lemma BusyInv(t: Table, max: nat, busy: Option<nat>)
    requires Inv(t, max)
    ensures Inv(t.(busy := busy), max)
  {
    assert forall i :: 0 <= i < |t.all| && SessOk(t, t.all[i]) ==> SessOk(t.(busy := busy), t.all[i]);
  }

  lemma StopSessionInv(t: Table, max: nat, id: string)
    requires Inv(t, max)
    ensures Inv(StopSession(t, id), max)
  {
    if id in t.sessions {
      var i := t.sessions[id];
      SetSessInv(t, max, i, Calls(ByHandler));
      BusyInv(SetSess(t, i, SessStep(t.all[i].sess, Calls(ByHandler))), max, Some(i));
    }
  }

  lemma HandlerStopInv(t: Table, max: nat, ok: bool)
    requires Inv(t, max)
    ensures Inv(HandlerStop(t, ok), max)
  {
    if t.busy.Some? && t.busy.value < |t.all| {
      var i := t.busy.value;
      SetSessInv(t, max, i, InStop(ok));
      BusyInv(SetSess(t, i, SessStep(t.all[i].sess, InStop(ok))), max, None);
    }
  }

  lemma StepInv(t: Table, max: nat, a: Act)
    requires Inv(t, max)
    ensures Inv(Step(t, max, a), max)
  {
    match a
    case Create(id, ptyOk) => CreateInv(t, max, id, ptyOk);
    case CloseShell(id) => StopSessionInv(t, max, id);
    case ShellData(id, _) => StopSessionInv(t, max, id);
    case HandlerStep(ok) => HandlerStopInv(t, max, ok);
    case Own(i, sa) => if i < |t.all| { SetSessInv(t, max, i, sa); }
    case CleanupFires(i) => if CleanupReady(t, i) { DeleteInv(t, max, i); }
    case End => EndInv(t, max);
  }

  lemma EndInv(t: Table, max: nat)
    requires Inv(t, max)
    ensures Inv(t.(ended := true), max)
  {
    assert forall i :: 0 <= i < |t.all| && SessOk(t, t.all[i]) ==> SessOk(t.(ended := true), t.all[i]);
  }

  lemma {:induction false} RunInv(t: Table, max: nat, acts: seq<Act>)
    requires Inv(t, max)
    ensures Inv(Run(t, max, acts), max)
    decreases |acts|
  {
    if acts != [] {
      StepInv(t, max, acts[0]);
      RunInv(Step(t, max, acts[0]), max, acts[1..]);
    }
  }

  /**
   * In every reachable state, shutdown included, each table entry has exactly one pending cleanup
   * goroutine and each pending cleanup its table entry; so the delete by key always removes the
   * session the goroutine was created for, never a later one under the same ID.
   */
  lemma OneCleanupEach(max: nat, acts: seq<Act>)
    ensures var t := Run(EMPTY, max, acts);
      && (forall id, i :: 0 <= i < |t.all| ==>
            ((t.all[i].cleanup && t.all[i].id == id) <==> (id in t.sessions && t.sessions[id] == i)))
      && (forall i :: CleanupReady(t, i) ==>
            forall id :: id in Delete(t, i).sessions <==> id in t.sessions && t.sessions[id] != i)
  {
    RunInv(EMPTY, max, acts);
    var t := Run(EMPTY, max, acts);
    forall i | CleanupReady(t, i)
      ensures forall id :: id in Delete(t, i).sessions <==> id in t.sessions && t.sessions[id] != i
    {
      DeletesOwn(t, max, i);
    }
  }

  /**
   * A create that the table decides alone succeeds exactly when the ID is not empty and not in use,
   * there is room, and the PTY comes up: then one session is added, started and with its PTY open,
   * under that ID, and its cleanup is pending. Otherwise nothing changes.
   */
  lemma CreateAdmits(max: nat, acts: seq<Act>, id: string, ptyOk: bool)
    requires Run(EMPTY, max, acts).busy.None?
    ensures var t := Run(EMPTY, max, acts); var t' := Step(t, max, Create(id, ptyOk)); var n := |t.all|;
      if id != "" && id !in t.sessions && |t.sessions| < max && ptyOk then
        && |t'.all| == n + 1 && t'.all[..n] == t.all && t'.sessions == t.sessions[id := n]
        && t'.all[n].id == id && t'.all[n].cleanup
        && t'.all[n].sess.ctl.running && t'.all[n].sess.ctl.ptyOpen && !t'.all[n].sess.ctl.doneClosed
        && t'.all[n].sess.log == [] && t'.busy.None? && t'.ended == t.ended
      else t' == t
  {
    var t := Run(EMPTY, max, acts);
    assert |t.sessions| == |t.sessions.Keys|;
  }

  /** Every goroutine of a session goes on as if it were alone: its step is the session's, and nothing
      else in the table moves. */
  lemma SessionsRunFree(t: Table, max: nat, i: nat, a: SessAct)
    requires i < |t.all| && (a.Output? || a.LoopWakes? || a.Calls? || a.InStop?)
    requires a.LoopWakes? && a.cancelled ==> t.ended
    requires a != Calls(ByHandler) && (a.InStop? ==> !t.all[i].sess.ctl.who.ByHandler?)
    ensures var t' := Step(t, max, Own(i, a));
      t'.all[i].sess == SessStep(t.all[i].sess, a) && t' == t.(all := t.all[i := t'.all[i]]) && t'.all[i].id == t.all[i].id
      && t'.all[i].cleanup == t.all[i].cleanup
  {
  }

  /** A handler's whole Stop. */
  function StopSteps(t: Table, max: nat, stops: Act, ok: bool): Table {
    Step(Step(Step(Step(t, max, stops), max, HandlerStep(true)), max, HandlerStep(true)), max, HandlerStep(ok))
  }

  predicate Running(t: Table, id: string) {
    && id in t.sessions && t.sessions[id] < |t.all|
    && t.all[t.sessions[id]].sess.ctl.running && t.all[t.sessions[id]].sess.ctl.stop.Free?
  }

  /** The session at `i` was stopped and sent its Exit; nothing else moved. */
  predicate StoppedOne(t: Table, t': Table, i: nat, ok: bool) {
    && |t'.all| == |t.all| && i < |t.all|
    && t' == t.(all := t.all[i := t.all[i].(sess := t'.all[i].sess)])
    && Stopped(t'.all[i].sess.ctl) && t'.all[i].sess.ctl.doneClosed && !t'.all[i].sess.ctl.ptyOpen
    && t'.all[i].sess.log == t.all[i].sess.log + [Exit(ok)]
  }

  /** One more step of the handler in Stop. */
  lemma HandlerSteps(t: Table, max: nat, i: nat, ok: bool)
    requires t.busy == Some(i) && i < |t.all| && !t.all[i].sess.ctl.stop.Free?
    ensures var s' := SessStep(t.all[i].sess, InStop(ok));
      Step(t, max, HandlerStep(ok)) ==
        t.(all := t.all[i := t.all[i].(sess := s')], busy := if s'.ctl.stop.Free? then None else Some(i))
  {
  }

  lemma HandlerStops(t: Table, max: nat, id: string, stops: Act, ok: bool)
    requires Inv(t, max) && t.busy.None? && Running(t, id) && stops in {CloseShell(id), ShellData(id, false)}
    ensures StoppedOne(t, StopSteps(t, max, stops, ok), t.sessions[id], ok)
  {
    var i := t.sessions[id];
    var s := t.all[i].sess;
    assert SessOk(t, t.all[i]);
    var s1 := s.(ctl := s.ctl.(running := false, stop := ClosePty, who := ByHandler));
    var t1 := Step(t, max, stops);
    assert t1 == t.(all := t.all[i := t.all[i].(sess := s1)], busy := Some(i));
    HandlerSteps(t1, max, i, true);
    var t2 := Step(t1, max, HandlerStep(true));
    HandlerSteps(t2, max, i, true);
    var t3 := Step(t2, max, HandlerStep(true));
    HandlerSteps(t3, max, i, ok);
  }

  /** Afterwards the cleanup of that session can fire, and the ID is free for another create. */
  lemma PlaceIsFree(t: Table, t': Table, max: nat, id: string, ok: bool)
    requires Inv(t, max) && t.busy.None? && Running(t, id) && StoppedOne(t, t', t.sessions[id], ok)
    ensures var free := Step(t', max, CleanupFires(t.sessions[id]));
      free.sessions == t.sessions - {id} && id in Step(free, max, Create(id, true)).sessions
  {
    var free := Step(t', max, CleanupFires(t.sessions[id]));
    assert free.sessions.Keys == t.sessions.Keys - {id};
    assert |t.sessions| == |t.sessions.Keys|;
  }

  /**
   * In every reachable table a close message, or data that the PTY refuses, stops the running
   * session under its ID and no other; its cleanup can then fire, and the ID is free for another
   * create.
   */
  lemma CloseFreesPlace(max: nat, acts: seq<Act>, id: string, stops: Act, ok: bool)
    requires var t := Run(EMPTY, max, acts); t.busy.None? && Running(t, id)
    requires stops in {CloseShell(id), ShellData(id, false)}
    ensures var t := Run(EMPTY, max, acts); var t' := StopSteps(t, max, stops, ok);
      var free := Step(t', max, CleanupFires(t.sessions[id]));
      && StoppedOne(t, t', t.sessions[id], ok)
      && free.sessions == t.sessions - {id} && id in Step(free, max, Create(id, true)).sessions
  {
    RunInv(EMPTY, max, acts);
    var t := Run(EMPTY, max, acts);
    HandlerStops(t, max, id, stops, ok);
    PlaceIsFree(t, StopSteps(t, max, stops, ok), max, id, ok);
  }

  // ---- every session in the table is a run of its own -----------------------------------------

  ghost predicate AllSessions(t: Table) {
    forall i :: 0 <= i < |t.all| ==> Shell.Inv(t.all[i].sess)
  }

  lemma SetSessAll(t: Table, i: nat, a: SessAct)
    requires AllSessions(t) && i < |t.all|
    ensures AllSessions(SetSess(t, i, SessStep(t.all[i].sess, a)))
  {
    Shell.StepInv(t.all[i].sess, a);
  }

  lemma StepAll(t: Table, max: nat, a: Act)
    requires AllSessions(t)
    ensures AllSessions(Step(t, max, a))
  {
    match a
    case Create(_, _) => NewInv();
    case CloseShell(id) => StopAll(t, id);
    case ShellData(id, _) => StopAll(t, id);
    case HandlerStep(ok) =>
      if t.busy.Some? && t.busy.value < |t.all| { SetSessAll(t, t.busy.value, InStop(ok)); }
    case Own(i, sa) => if i < |t.all| { SetSessAll(t, i, sa); }
    case CleanupFires(i) => if i < |t.all| { assert Shell.Inv(t.all[i].sess); }
    case End =>
  }

  lemma StopAll(t: Table, id: string)
    requires AllSessions(t)
    ensures AllSessions(StopSession(t, id))
  {
    if id in t.sessions && t.sessions[id] < |t.all| {
      SetSessAll(t, t.sessions[id], Calls(ByHandler));
    }
  }

  lemma {:induction false} RunAll(t: Table, max: nat, acts: seq<Act>)
    requires AllSessions(t)
    ensures AllSessions(Run(t, max, acts))
    decreases |acts|
  {
    if acts != [] {
      StepAll(t, max, acts[0]);
      RunAll(Step(t, max, acts[0]), max, acts[1..]);
    }
  }

  /** The order of messages and the conservation of output hold of every session ever created,
      whatever the handlers, the other sessions and the shutdown do. */
  lemma EverySession(max: nat, acts: seq<Act>)
    ensures var all := Run(EMPTY, max, acts).all;
      forall i :: 0 <= i < |all| ==>
        var s := all[i].sess;
        && Ordered(s.log) && Conserved(s)
        && s.ctl.ptyCloses <= 1 && !s.ctl.panicked
        && (Stopped(s.ctl) <==> !NoExit(s.log))
  {
    RunAll(EMPTY, max, acts);
    var all := Run(EMPTY, max, acts).all;
    assert forall i :: 0 <= i < |all| ==> Shell.Inv(all[i].sess);
  }

  // ---- how many terminals are open ------------------------------------------------------------

  function OpenPtys(t: Table): set<nat> {
    set i: nat | i < |t.all| && t.all[i].sess.ctl.ptyOpen
  }

  lemma {:induction false} Inject(t: Table, open: set<nat>, ids: set<string>)
    requires forall i :: i in open ==> i < |t.all| && t.all[i].id in ids
    requires forall i, j :: i in open && j in open && t.all[i].id == t.all[j].id ==> i == j
    ensures |open| <= |ids|
  {
    if open != {} {
      var i :| i in open;
      Inject(t, open - {i}, ids - {t.all[i].id});
    }
  }

  /**
   * Until shutdown every session with an open PTY is in the table under its own ID and the table
   * never exceeds the configured limit, so over any sequence of creates, closes, failures and
   * cleanups there are never more open PTYs than that.
   */
  lemma OpenPtysBounded(max: nat, acts: seq<Act>)
    ensures var t := Run(EMPTY, max, acts);
      && |t.sessions| <= max && "" !in t.sessions
      && (!t.ended ==>
            && (forall i :: i in OpenPtys(t) ==> t.all[i].id in t.sessions && t.sessions[t.all[i].id] == i)
            && |OpenPtys(t)| <= max)
  {
    RunInv(EMPTY, max, acts);
    var t := Run(EMPTY, max, acts);
    if !t.ended {
      forall i | i in OpenPtys(t)
        ensures t.all[i].id in t.sessions && t.sessions[t.all[i].id] == i
      {
        assert SessOk(t, t.all[i]);
      }
      Inject(t, OpenPtys(t), t.sessions.Keys);
      assert |t.sessions.Keys| == |t.sessions|;
    }
  }

  lemma {:induction false} RunMore(t: Table, max: nat, acts: seq<Act>, a: Act)
    ensures Run(t, max, acts + [a]) == Step(Run(t, max, acts), max, a)
    decreases |acts|
  {
    if acts == [] {
      assert [a][1..] == [];
      assert Run(Step(t, max, a), max, []) == Step(t, max, a);
    } else {
      assert (acts + [a])[1..] == acts[1..] + [a];
      RunMore(Step(t, max, acts[0]), max, acts[1..], a);
    }
  }

  /** After shutdown, with nobody in the table: `n` sessions were created and none was stopped. */
  predicate Piled(t: Table, n: nat) {
    && t.ended && t.busy.None? && t.sessions == map[] && |t.all| == n
    && forall i :: 0 <= i < n ==> t.all[i].sess.ctl.ptyOpen
  }

  /** One more: created, and taken out of the table with its PTY still open. */
  lemma PileOne(t: Table, max: nat, n: nat)
    requires Piled(t, n) && max >= 1
    ensures Piled(Step(Step(t, max, Create("a", true)), max, CleanupFires(n)), n + 1)
  {
    assert t.sessions.Keys == {};
    var t1 := Step(t, max, Create("a", true));
    assert t1 == Insert(t, "a");
    assert t1.all[n] == Entry("a", NEWSESS, true);
  }

  /**
   * The bound needs the service to be live: after shutdown a cleanup fires while its PTY is still
   * open and frees the place in the table, so whatever the configured limit, any number of PTYs
   * can be open.
   */
  lemma {:induction false} OpenPtysUnboundedAfterEnd(max: nat, n: nat) returns (acts: seq<Act>)
    requires max >= 1
    ensures Piled(Run(EMPTY, max, acts), n) && |OpenPtys(Run(EMPTY, max, acts))| == n
  {
    if n == 0 {
      acts := [End];
      assert [End][1..] == [] && Run(EMPTY, max, [End]) == Run(Step(EMPTY, max, End), max, []);
      assert OpenPtys(Run(EMPTY, max, acts)) == {};
    } else {
      var before := OpenPtysUnboundedAfterEnd(max, n - 1);
      PileOne(Run(EMPTY, max, before), max, n - 1);
      RunMore(EMPTY, max, before, Create("a", true));
      RunMore(EMPTY, max, before + [Create("a", true)], CleanupFires(n - 1));
      acts := before + [Create("a", true)] + [CleanupFires(n - 1)];
      PiledPtys(Run(EMPTY, max, acts), n);
    }
  }

  lemma {:induction false} Below(n: nat, s: set<nat>)
    requires forall i: nat :: i in s <==> i < n
    ensures |s| == n
  {
    if n == 0 {
      assert s == {};
    } else {
      Below(n - 1, s - {n - 1});
    }
  }

  lemma PiledPtys(t: Table, n: nat)
    requires Piled(t, n)
    ensures |OpenPtys(t)| == n
  {
    Below(n, OpenPtys(t));
  }

  lemma {:induction false} NobodyAdmitted(t: Table, acts: seq<Act>)
    requires t.all == [] && t.sessions == map[]
    ensures Run(t, 0, acts).all == []
    decreases |acts|
  {
    if acts != [] {
      assert Step(t, 0, acts[0]).all == [] && Step(t, 0, acts[0]).sessions == map[];
      NobodyAdmitted(Step(t, 0, acts[0]), acts[1..]);
    }
  }

  /** Over all schedules, shutdown included, the limit holds exactly when it is zero. */
  lemma LimitPastEnd(max: nat)
    ensures (forall acts :: |OpenPtys(Run(EMPTY, max, acts))| <= max) <==> max == 0
  {
    if max == 0 {
      forall acts ensures |OpenPtys(Run(EMPTY, max, acts))| <= max {
        NobodyAdmitted(EMPTY, acts);
        assert OpenPtys(Run(EMPTY, max, acts)) == {};
      }
    } else {
      var acts := OpenPtysUnboundedAfterEnd(max, max + 1);
    }
  }
}
