/**
 * The mutexes of the agent. Every operation is listed with the locks it takes and gives back, in
 * the order the source does; calls into code outside the agent are taken to return.
 */
module Locks {

  /** Sessions are told apart by an identity; every generation has its own jobMux. */
  datatype Lock = ServiceMux | SessionMux(session: nat) | CliMux | ConnMux | RunnerMux | JobMux(generation: nat)

  function Rank(l: Lock): nat {
    match l
    case ServiceMux => 0
    case SessionMux(_) => 1
    case CliMux => 2
    case ConnMux => 3
    case RunnerMux => 3
    case JobMux(_) => 3
  }

  datatype Op = Acquire(l: Lock) | Release(l: Lock)

  function Section(l: Lock, inner: seq<Op>): seq<Op> {
    [Acquire(l)] + inner + [Release(l)]
  }

  /** getClient, and so every message that is written. */
  const GETCLIENT := Section(CliMux, [])

  function When(b: bool, ops: seq<Op>): seq<Op> { if b then ops else [] }

  /** ShellSession.Stop sends Exit from inside when it finds the session running. */
  function SessionStop(s: nat, running: bool): seq<Op> {
    Section(SessionMux(s), When(running, GETCLIENT))
  }

  datatype Call =
    | CreateShellRefusedEarly
    | CreateShellRefused
    | CreateShellAdmitted(s: nat)
    | ShellDisabled
    | ShellResize
    | ShellClosed(found: bool, s: nat, running: bool)
    | ShellDataWritten(found: bool, s: nat, stops: bool, running: bool)
    | SessionGoroutineStops(s: nat, running: bool)
    | SessionWrites
    | CleanupDeletes
    | ServiceStart
    | ServiceStop(running: bool)
    | ReadsState
    | SetsClient
    | WritesMessage
    | Handshakes
    | RunnerCallback(hasCmd: bool)
    | PublishesRunner
    | RunnerStartOrStop
    | JobFlag(g: nat)

  /** The locks of one call. A refused create answers inline and once more in its deferred function. */
  function Script(c: Call): seq<Op> {
    match c
    case CreateShellRefusedEarly => GETCLIENT + GETCLIENT
    case CreateShellRefused => Section(ServiceMux, []) + (GETCLIENT + GETCLIENT)
    case CreateShellAdmitted(s) => Section(ServiceMux, Section(SessionMux(s), []))
    case ShellDisabled => GETCLIENT
    case ShellResize => Section(ServiceMux, [])
    case ShellClosed(found, s, running) => Section(ServiceMux, When(found, SessionStop(s, running)))
    case ShellDataWritten(found, s, stops, running) =>
      Section(ServiceMux, When(found && stops, SessionStop(s, running)))
    case SessionGoroutineStops(s, running) => SessionStop(s, running)
    case SessionWrites => GETCLIENT
    case CleanupDeletes => Section(ServiceMux, [])
    case ServiceStart => Section(ServiceMux, [])
    case ServiceStop(running) => Section(ServiceMux, When(running, GETCLIENT))
    case ReadsState => Section(ServiceMux, [])
    case SetsClient => GETCLIENT
    case WritesMessage => GETCLIENT
    case Handshakes => Section(ConnMux, [])
    case RunnerCallback(hasCmd) => Section(ServiceMux, When(hasCmd, GETCLIENT))
    case PublishesRunner => Section(ServiceMux, [])
    case RunnerStartOrStop => Section(RunnerMux, [])
    case JobFlag(g) => Section(JobMux(g), [])
  }

  function Program(calls: seq<Call>): seq<Op> {
    if calls == [] then [] else Script(calls[0]) + Program(calls[1..])
  }

  /** Every lock taken ranks above all locks held, only held locks are given back, and in the end
      none is held. */
  ghost predicate Respects(ops: seq<Op>, held: set<Lock>)
    decreases |ops|
  {
    if ops == [] then held == {}
    else
      match ops[0]
      case Acquire(l) => (forall h :: h in held ==> Rank(h) < Rank(l)) && Respects(ops[1..], held + {l})
      case Release(l) => l in held && Respects(ops[1..], held - {l})
  }

  lemma {:induction false} Follow(a: seq<Op>, held: set<Lock>, b: seq<Op>)
    requires Respects(a, held) && Respects(b, {})
    ensures Respects(a + b, held)
    decreases |a|
  {
    if a == [] {
      assert a + b == b;
    } else {
      assert (a + b)[1..] == a[1..] + b;
      match a[0]
      case Acquire(l) => Follow(a[1..], held + {l}, b);
      case Release(l) => Follow(a[1..], held - {l}, b);
    }
  }

  /** A script whose locks all rank above `l` can run inside a section of `l`. */
  ghost predicate Above(ops: seq<Op>, l: Lock) {
    forall k :: 0 <= k < |ops| ==> Rank(l) < Rank(ops[k].l)
  }

  lemma {:induction false} Nest(ops: seq<Op>, held: set<Lock>, l: Lock)
    requires Respects(ops, held) && Above(ops, l) && l !in held
    ensures Respects(ops + [Release(l)], held + {l})
    decreases |ops|
  {
    var all := ops + [Release(l)];
    if ops == [] {
      assert all[1..] == [] && held + {l} - {l} == {};
    } else {
      assert all[1..] == ops[1..] + [Release(l)] && ops[0].l != l;
      match ops[0]
      case Acquire(m) =>
        Nest(ops[1..], held + {m}, l);
        assert held + {m} + {l} == held + {l} + {m};
      case Release(m) =>
        Nest(ops[1..], held - {m}, l);
        assert held - {m} + {l} == held + {l} - {m};
    }
  }

  lemma SectionRespects(l: Lock, inner: seq<Op>)
    requires Respects(inner, {}) && Above(inner, l)
    ensures Respects(Section(l, inner), {})
  {
    Nest(inner, {}, l);
    var all := Section(l, inner);
    assert all[0] == Acquire(l) && all[1..] == inner + [Release(l)];
    assert {} + {l} == {l};
  }

  lemma StopRespects(s: nat, running: bool)
    ensures Respects(SessionStop(s, running), {}) && Above(SessionStop(s, running), ServiceMux)
  {
    SectionRespects(CliMux, []);
    SectionRespects(SessionMux(s), When(running, GETCLIENT));
  }

  /** The shell handlers and what they start. */
  lemma ShellRespects(c: Call)
    requires c.ShellClosed? || c.ShellDataWritten? || c.SessionGoroutineStops? || c.CreateShellAdmitted?
    ensures Respects(Script(c), {})
  {
    SectionRespects(ServiceMux, []);
    match c
    case CreateShellAdmitted(s) =>
      SectionRespects(SessionMux(s), []);
      SectionRespects(ServiceMux, Section(SessionMux(s), []));
    case ShellClosed(found, s, running) =>
      StopRespects(s, running);
      SectionRespects(ServiceMux, When(found, SessionStop(s, running)));
    case ShellDataWritten(found, s, stops, running) =>
      StopRespects(s, running);
      SectionRespects(ServiceMux, When(found && stops, SessionStop(s, running)));
    case SessionGoroutineStops(s, running) => StopRespects(s, running);
  }

  /** Every operation of the agent respects the order. */
  lemma ScriptRespects(c: Call)
    ensures Respects(Script(c), {})
  {
    if c.ShellClosed? || c.ShellDataWritten? || c.SessionGoroutineStops? || c.CreateShellAdmitted? {
      ShellRespects(c);
    } else {
      SectionRespects(CliMux, []);
      SectionRespects(ServiceMux, []);
      Follow(GETCLIENT, {}, GETCLIENT);
      match c
      case CreateShellRefused => Follow(Section(ServiceMux, []), {}, GETCLIENT + GETCLIENT);
      case ServiceStop(running) => SectionRespects(ServiceMux, When(running, GETCLIENT));
      case RunnerCallback(hasCmd) => SectionRespects(ServiceMux, When(hasCmd, GETCLIENT));
      case Handshakes => SectionRespects(ConnMux, []);
      case RunnerStartOrStop => SectionRespects(RunnerMux, []);
      case JobFlag(g) => SectionRespects(JobMux(g), []);
      case _ =>
    }
  }

  // ---- which locks are held together ----------------------------------------------------------

  /** The locks held before the k-th operation. */
  function HeldAt(ops: seq<Op>, k: nat): set<Lock>
    requires k <= |ops|
  {
    if k == 0 then {}
    else if ops[k - 1].Acquire? then HeldAt(ops, k - 1) + {ops[k - 1].l}
    else HeldAt(ops, k - 1) - {ops[k - 1].l}
  }

  /** The operation takes `inner` while it holds `outer`. */
  ghost predicate Nests(ops: seq<Op>, outer: Lock, inner: Lock) {
    exists k :: 0 <= k < |ops| && ops[k] == Acquire(inner) && outer in HeldAt(ops, k)
  }

  ghost predicate Takes(ops: seq<Op>, l: Lock) {
    exists k :: 0 <= k < |ops| && ops[k] == Acquire(l)
  }

  ghost predicate NestedSomewhere(outer: Lock, inner: Lock) { exists c: Call :: Nests(Script(c), outer, inner) }

  ghost predicate TakenSomewhere(l: Lock) { exists c: Call :: Takes(Script(c), l) }

  /** Flat scripts hold one lock at a time; the others nest one section in another. */
  lemma HeldInScript(c: Call)
    ensures var ops := Script(c);
      && 2 <= |ops| <= 6 && HeldAt(ops, 1) == {ops[0].l}
      && (ops[1].Release? ==> HeldAt(ops, 2) == {})
      && (ops[1].Release? && |ops| > 2 ==> HeldAt(ops, 3) == {CliMux} && HeldAt(ops, 4) == {})
      && (ops[1].Acquire? ==> HeldAt(ops, 2) == {ops[0].l, ops[1].l})
  {
    var ops := Script(c);
    assert HeldAt(ops, 1) == {} + {ops[0].l};
    if ops[1].Release? {
      assert HeldAt(ops, 2) == HeldAt(ops, 1) - {ops[1].l};
      assert ops[1].l == ops[0].l;
      if |ops| > 2 {
        assert HeldAt(ops, 3) == HeldAt(ops, 2) + {ops[2].l};
        assert HeldAt(ops, 4) == HeldAt(ops, 3) - {ops[3].l};
      }
    } else {
      assert HeldAt(ops, 2) == HeldAt(ops, 1) + {ops[1].l};
    }
  }

  lemma NestsIn(c: Call, outer: Lock, inner: Lock)
    requires Nests(Script(c), outer, inner)
    ensures (outer == ServiceMux && (inner == CliMux || inner.SessionMux?)) || (outer.SessionMux? && inner == CliMux)
  {
    var ops := Script(c);
    var k :| 0 <= k < |ops| && ops[k] == Acquire(inner) && outer in HeldAt(ops, k);
    HeldInScript(c);
    assert k in {0, 1, 2, 3, 4, 5};
  }

  /** Every lock is taken by some operation, and the nestings that occur are exactly these: a
      session's mutex and cliMux under the service's, and cliMux under a session's. */
  lemma NestingsOccur(outer: Lock, inner: Lock)
    ensures TakenSomewhere(outer)
    ensures NestedSomewhere(outer, inner) <==>
      || (outer == ServiceMux && (inner == CliMux || inner.SessionMux?))
      || (outer.SessionMux? && inner == CliMux)
  {
    if NestedSomewhere(outer, inner) {
      var c: Call :| Nests(Script(c), outer, inner);
      NestsIn(c, outer, inner);
    }
    TakenBy(outer);
    if outer == ServiceMux && inner == CliMux {
      var ops := Script(RunnerCallback(true));
      assert ops[1] == Acquire(CliMux) && HeldAt(ops, 1) == {ServiceMux};
      assert Nests(ops, outer, inner);
    } else if outer == ServiceMux && inner.SessionMux? {
      var ops := Script(CreateShellAdmitted(inner.session));
      assert ops[1] == Acquire(inner) && HeldAt(ops, 1) == {ServiceMux};
      assert Nests(ops, outer, inner);
    } else if outer.SessionMux? && inner == CliMux {
      var ops := Script(SessionGoroutineStops(outer.session, true));
      assert ops[1] == Acquire(CliMux) && HeldAt(ops, 1) == {outer};
      assert Nests(ops, outer, inner);
    }
  }

  // ---- what the locks are for -------------------------------------------------------------------

  /** What an operation touches that others touch too: the fields and the table of the service, a
      session's, the client, the two channels, the runner command's fields, a generation's flag. */
  datatype Shared = OfService | OfSession(session: nat) | TheClient | TheChannels | OfRunner | TheFlag(generation: nat)

  function GuardOf(d: Shared): Lock {
    match d
    case OfService => ServiceMux
    case OfSession(s) => SessionMux(s)
    case TheClient => CliMux
    case TheChannels => ConnMux
    case OfRunner => RunnerMux
    case TheFlag(g) => JobMux(g)
  }

  function Stopping(s: nat, running: bool): set<Shared> {
    {OfSession(s)} + if running then {TheClient} else {}
  }

  function Uses(c: Call): set<Shared> {
    match c
    case CreateShellRefusedEarly => {TheClient}
    case CreateShellRefused => {OfService, TheClient}
    case CreateShellAdmitted(s) => {OfService, OfSession(s)}
    case ShellDisabled => {TheClient}
    case ShellResize => {OfService}
    case ShellClosed(found, s, running) => {OfService} + if found then Stopping(s, running) else {}
    case ShellDataWritten(found, s, stops, running) => {OfService} + if found && stops then Stopping(s, running) else {}
    case SessionGoroutineStops(s, running) => Stopping(s, running)
    case SessionWrites => {TheClient}
    case CleanupDeletes => {OfService}
    case ServiceStart => {OfService}
    case ServiceStop(running) => {OfService} + if running then {TheClient} else {}
    case ReadsState => {OfService}
    case SetsClient => {TheClient}
    case WritesMessage => {TheClient}
    case Handshakes => {TheChannels}
    case RunnerCallback(hasCmd) => {OfService} + if hasCmd then {TheClient} else {}
    case PublishesRunner => {OfService}
    case RunnerStartOrStop => {OfRunner}
    case JobFlag(g) => {TheFlag(g)}
  }

  /** The locks of the first three acquisitions, which are all there are. */
  lemma TakesWhere(ops: seq<Op>, l: Lock)
    requires 2 <= |ops| <= 6
    ensures Takes(ops, l) <==>
      || ops[0] == Acquire(l) || ops[1] == Acquire(l)
      || (|ops| > 2 && ops[2] == Acquire(l)) || (|ops| > 3 && ops[3] == Acquire(l))
      || (|ops| > 4 && ops[4] == Acquire(l)) || (|ops| > 5 && ops[5] == Acquire(l))
  {
    if Takes(ops, l) {
      var k :| 0 <= k < |ops| && ops[k] == Acquire(l);
      assert k in {0, 1, 2, 3, 4, 5};
    }
  }

  /** Every operation takes exactly the locks of the shared data it touches. */
  lemma LocksWhatItUses(c: Call, d: Shared)
    ensures Takes(Script(c), GuardOf(d)) <==> d in Uses(c)
  {
    HeldInScript(c);
    TakesWhere(Script(c), GuardOf(d));
  }

  lemma TakenBy(l: Lock)
    ensures TakenSomewhere(l)
  {
    var c := match l
      case ServiceMux => ReadsState
      case SessionMux(s) => SessionGoroutineStops(s, true)
      case CliMux => WritesMessage
      case ConnMux => Handshakes
      case RunnerMux => RunnerStartOrStop
      case JobMux(g) => JobFlag(g);
    assert Script(c)[0] == Acquire(l);
    assert Takes(Script(c), l);
  }

  lemma {:induction false} ProgramRespects(calls: seq<Call>)
    ensures Respects(Program(calls), {})
  {
    if calls != [] {
      ScriptRespects(calls[0]);
      ProgramRespects(calls[1..]);
      Follow(Script(calls[0]), {}, Program(calls[1..]));
    }
  }

  // ---- any number of goroutines ---------------------------------------------------------------

  datatype Thread = Thread(rest: seq<Op>, held: set<Lock>)

  datatype Act = Spawn(t: nat, calls: seq<Call>) | Move(t: nat)

  predicate Wants(th: Thread) { th.rest != [] && th.rest[0].Acquire? }

  ghost predicate Free(w: map<nat, Thread>, l: Lock) {
    forall u :: u in w ==> l !in w[u].held
  }

  ghost predicate CanMove(w: map<nat, Thread>, t: nat) {
    t in w && w[t].rest != [] && (Wants(w[t]) ==> Free(w, w[t].rest[0].l))
  }

  ghost function Step(w: map<nat, Thread>, a: Act): map<nat, Thread> {
    match a
    case Spawn(t, calls) => if t in w then w else w[t := Thread(Program(calls), {})]
    case Move(t) =>
      if !CanMove(w, t) then w
      else
        var op := w[t].rest[0];
        w[t := Thread(w[t].rest[1..], if op.Acquire? then w[t].held + {op.l} else w[t].held - {op.l})]
  }

  ghost function Run(w: map<nat, Thread>, acts: seq<Act>): map<nat, Thread>
    decreases |acts|
  {
    if acts == [] then w else Run(Step(w, acts[0]), acts[1..])
  }

  ghost predicate Inv(w: map<nat, Thread>) {
    && (forall t :: t in w ==> Respects(w[t].rest, w[t].held))
    && (forall t, u :: t in w && u in w && t != u ==> w[t].held !! w[u].held)
  }

  lemma {:induction false} RunInv(w: map<nat, Thread>, acts: seq<Act>)
    requires Inv(w)
    ensures Inv(Run(w, acts))
    decreases |acts|
  {
    if acts != [] {
      if acts[0].Spawn? {
        ProgramRespects(acts[0].calls);
      }
      RunInv(Step(w, acts[0]), acts[1..]);
    }
  }

  /** `t` waits for a lock that `u` holds. */
  ghost predicate WaitsFor(w: map<nat, Thread>, t: nat, u: nat) {
    t in w && u in w && Wants(w[t]) && w[t].rest[0].l in w[u].held
  }

  /** A waiting goroutine's lock ranks above everything it holds, so waiting climbs the ranks. */
  lemma WaitingClimbs(w: map<nat, Thread>, t: nat, u: nat)
    requires Inv(w) && WaitsFor(w, t, u)
    ensures t != u && w[u].rest != []
    ensures Wants(w[u]) ==> Rank(w[t].rest[0].l) < Rank(w[u].rest[0].l)
  {
  }

  ghost predicate WaitChain(w: map<nat, Thread>, ts: seq<nat>) {
    forall i :: 0 <= i < |ts| - 1 ==> WaitsFor(w, ts[i], ts[i + 1])
  }

  lemma {:induction false} ChainClimbs(w: map<nat, Thread>, ts: seq<nat>)
    requires Inv(w) && WaitChain(w, ts) && |ts| >= 2
    ensures ts[|ts| - 2] in w && Wants(w[ts[|ts| - 2]]) && Rank(w[ts[|ts| - 2]].rest[0].l) >= |ts| - 2
  {
    var n := |ts|;
    assert WaitsFor(w, ts[n - 2], ts[n - 2 + 1]);
    if n > 2 {
      ChainClimbs(w, ts[..n - 1]);
      assert WaitsFor(w, ts[n - 3], ts[n - 3 + 1]);
      WaitingClimbs(w, ts[n - 3], ts[n - 2]);
    }
  }

  lemma Someone(w: map<nat, Thread>, t: nat) returns (u: nat)
    requires Inv(w) && t in w && w[t].rest != []
    ensures CanMove(w, u)
    decreases if Wants(w[t]) then 4 - Rank(w[t].rest[0].l) else 0
  {
    u := t;
    if !CanMove(w, t) {
      var v :| v in w && w[t].rest[0].l in w[v].held;
      WaitingClimbs(w, t, v);
      u := Someone(w, v);
    }
  }

  /**
   * No deadlock, with any number of sessions, generations and goroutines, each making any finite
   * sequence of calls: in every reachable state some goroutine can move unless all have finished,
   * and a chain of goroutines waiting for one another has at most five members, so no cycle.
   */
  lemma NoDeadlock(acts: seq<Act>)
    ensures var w := Run(map[], acts);
      && ((exists t :: t in w && w[t].rest != []) ==> exists u :: CanMove(w, u))
      && (forall ts: seq<nat> :: WaitChain(w, ts) ==> |ts| <= 5)
  {
    RunInv(map[], acts);
    var w := Run(map[], acts);
    if t :| t in w && w[t].rest != [] {
      var u := Someone(w, t);
    }
    forall ts: seq<nat> | WaitChain(w, ts)
      ensures |ts| <= 5
    {
      if |ts| >= 2 {
        ChainClimbs(w, ts);
      }
    }
  }
}
