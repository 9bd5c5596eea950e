/** The durable job record of `state/state.go`: one value kept under the key "current". */
module JobState {
  import opened Wrappers

  datatype State = State(
    jobStarted: bool,
    jobFinished: bool,
    startTime: Option<int>,
    finishTime: Option<int>)

  const ZERO := State(false, false, None, None)

  /** What the bucket holds under "current"; `Garbage` is a value that does not decode. */
  datatype Stored = Absent | Garbage | Encoded(state: State)

  function Load(d: Stored): Result<State> {
    match d
    case Absent => Ok(ZERO)
    case Garbage => Err
    case Encoded(st) => Ok(st)
  }

  /** One committed SetJobStarted or SetJobFinished transaction, with the clock it read. */
  datatype Op = Started(at: int) | Finished(at: int)

  /** A transaction that cannot decode the old value is rolled back. */
  function Apply(d: Stored, op: Op): Stored {
    match Load(d)
    case Err => d
    case Ok(st) =>
      match op
      case Started(now) => Encoded(st.(jobStarted := true, startTime := Some(now)))
      case Finished(now) => Encoded(st.(jobFinished := true, finishTime := Some(now)))
  }

  function Duration(d: Stored, now: int): Result<int> {
    match Load(d)
    case Err => Err
    case Ok(st) =>
      if st.startTime.None? then Err
      else if st.finishTime.Some? then Ok(st.finishTime.value - st.startTime.value)
      else Ok(now - st.startTime.value)
  }

  class Manager {
    var current: Stored

    /** Opening an existing database keeps what it holds. */
    constructor (onDisk: Stored)
      ensures current == onDisk
    {
      current := onDisk;
    }

    method SetState(st: State, commits: bool) returns (ok: bool)
      modifies this
      ensures ok == commits
      ensures current == if commits then Encoded(st) else old(current)
    {
      if commits {
        current := Encoded(st);
      }
      ok := commits;
    }

    method GetState(readable: bool) returns (r: Result<State>)
      ensures r == if readable then Load(current) else Err
    {
      if !readable {
        return Err;
      }
      match current {
        case Absent => r := Ok(ZERO);
        case Garbage => r := Err;
        case Encoded(st) => r := Ok(st);
      }
    }

    method SetJobStarted(now: int, commits: bool) returns (ok: bool)
      modifies this
      ensures ok == (commits && old(current) != Garbage)
      ensures current == if commits then Apply(old(current), Started(now)) else old(current)
    {
      var st := ZERO;
      match current {
        case Absent =>
        case Garbage => return false;
        case Encoded(old') => st := old';
      }
      st := st.(jobStarted := true, startTime := Some(now));
      if commits {
        current := Encoded(st);
      }
      ok := commits;
    }

    method SetJobFinished(now: int, commits: bool) returns (ok: bool)
      modifies this
      ensures ok == (commits && old(current) != Garbage)
      ensures current == if commits then Apply(old(current), Finished(now)) else old(current)
    {
      var st := ZERO;
      match current {
        case Absent =>
        case Garbage => return false;
        case Encoded(old') => st := old';
      }
      st := st.(jobFinished := true, finishTime := Some(now));
      if commits {
        current := Encoded(st);
      }
      ok := commits;
    }

    method IsJobRunning(readable: bool) returns (r: Result<bool>)
      ensures r.Err? <==> !readable || current == Garbage
      ensures r.Ok? ==> (r.value <==> Load(current).value.jobStarted && !Load(current).value.jobFinished)
    {
      var st := GetState(readable);
      if st.Err? {
        return Err;
      }
      r := Ok(st.value.jobStarted && !st.value.jobFinished);
    }

    method GetJobDuration(readable: bool, now: int) returns (r: Result<int>)
      ensures r == if readable then Duration(current, now) else Err
    {
      var st := GetState(readable);
      if st.Err? || st.value.startTime.None? {
        return Err;
      }
      var endTime := now;
      if st.value.finishTime.Some? {
        endTime := st.value.finishTime.value;
      }
      r := Ok(endTime - st.value.startTime.value);
    }
  }

  /** The record after a whole history of committed transactions. */
  function ApplyAll(d: Stored, ops: seq<Op>): Stored {
    if ops == [] then d else Apply(ApplyAll(d, ops[..|ops| - 1]), ops[|ops| - 1])
  }

  predicate Writes(op: Op, finish: bool) {
    op.Finished? == finish
  }

  /** `ops[k]` is the last finish (or the last start) of the history. */
  ghost predicate IsLast(ops: seq<Op>, finish: bool, k: nat) {
    && k < |ops| && Writes(ops[k], finish)
    && forall j :: k < j < |ops| ==> !Writes(ops[j], finish)
  }

  ghost predicate Never(ops: seq<Op>, finish: bool) {
    forall k :: 0 <= k < |ops| ==> !Writes(ops[k], finish)
  }

  /** The time the record keeps for a kind of transaction. */
  function Kept(st: State, finish: bool): Option<int> {
    if finish then st.finishTime else st.startTime
  }

  function Flag(st: State, finish: bool): bool {
    if finish then st.jobFinished else st.jobStarted
  }

  /** Over every history: a flag is set exactly when its time is present, and the time is that
      of the last transaction of its kind. Returns the index of that transaction. */
  lemma {:induction false} HistoryRecord(ops: seq<Op>, finish: bool) returns (k: nat)
    ensures ApplyAll(Absent, ops) != Garbage
    ensures var st := Load(ApplyAll(Absent, ops)).value;
      && Flag(st, finish) == Kept(st, finish).Some?
      && (Kept(st, finish).None? ==> Never(ops, finish))
      && (Kept(st, finish).Some? ==> IsLast(ops, finish, k) && Kept(st, finish) == Some(ops[k].at))
  {
    k := 0;
    if ops != [] {
      var front, last := ops[..|ops| - 1], ops[|ops| - 1];
      k := HistoryRecord(front, finish);
      if Writes(last, finish) {
        k := |ops| - 1;
      }
    }
  }

  ghost predicate ClockRuns(ops: seq<Op>, now: int) {
    && (forall i, j :: 0 <= i < j < |ops| ==> ops[i].at <= ops[j].at)
    && (forall i :: 0 <= i < |ops| ==> ops[i].at <= now)
  }

  /** No start is recorded after a finish: the order in which one generation makes its calls. */
  ghost predicate Lifecycle(ops: seq<Op>) {
    forall i, j :: 0 <= i < j < |ops| && ops[i].Finished? ==> ops[j].Finished?
  }

  /** The last finish on record was taken before the last start. */
  ghost predicate StartedAfterFinish(ops: seq<Op>) {
    exists f: nat, s: nat :: IsLast(ops, true, f) && IsLast(ops, false, s) && ops[f].at < ops[s].at
  }

  /**
   * The duration is an error exactly when no start is on record. It is negative exactly when the
   * last start on record is later than the last finish.
   */
  lemma DurationLaw(ops: seq<Op>, now: int)
    requires ClockRuns(ops, now)
    ensures Duration(ApplyAll(Absent, ops), now).Err? <==> Never(ops, false)
    ensures Duration(ApplyAll(Absent, ops), now).Ok? ==>
      (Duration(ApplyAll(Absent, ops), now).value < 0 <==> StartedAfterFinish(ops))
  {
    var s := HistoryRecord(ops, false);
    var f := HistoryRecord(ops, true);
  }

  /** The duration runs from the last start on record to the last finish, or to the present while
      there is no finish. Returns the transactions that count. */
  lemma DurationValue(ops: seq<Op>, now: int) returns (s: nat, f: nat)
    requires !Never(ops, false)
    ensures IsLast(ops, false, s)
    ensures Never(ops, true) ==> Duration(ApplyAll(Absent, ops), now) == Ok(now - ops[s].at)
    ensures !Never(ops, true) ==>
      IsLast(ops, true, f) && Duration(ApplyAll(Absent, ops), now) == Ok(ops[f].at - ops[s].at)
  {
    s := HistoryRecord(ops, false);
    f := HistoryRecord(ops, true);
  }

  /** A history in lifecycle order never gets there, however often it repeats SetJobStarted. */
  lemma DurationNonNegative(ops: seq<Op>, now: int)
    requires ClockRuns(ops, now) && Lifecycle(ops) && !Never(ops, false)
    ensures Duration(ApplyAll(Absent, ops), now).Ok? && Duration(ApplyAll(Absent, ops), now).value >= 0
  {
    DurationLaw(ops, now);
  }

  /** Once a finish is on record and nothing more is written, the clock no longer matters. */
  lemma DurationFrozen(ops: seq<Op>, now: int, later: int)
    requires !Never(ops, true)
    ensures Duration(ApplyAll(Absent, ops), now) == Duration(ApplyAll(Absent, ops), later)
  {
    var f := HistoryRecord(ops, true);
  }

  /** A start recorded after the finish makes the duration negative: the lifecycle is needed. */
  lemma DurationCanBeNegative()
    ensures var ops := [Started(0), Finished(5), Started(7)];
            ClockRuns(ops, 7) && Duration(ApplyAll(Absent, ops), 7) == Ok(-2)
  {
    var ops := [Started(0), Finished(5), Started(7)];
    assert ops[..2] == [Started(0), Finished(5)] && ops[..2][..1] == [Started(0)] && [Started(0)][..0] == [];
    assert ApplyAll(Absent, ops[..2][..1]) == Encoded(State(true, false, Some(0), None));
    assert ApplyAll(Absent, ops[..2]) == Encoded(State(true, true, Some(0), Some(5)));
  }
}
