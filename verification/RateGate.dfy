/**
 The per-firm rate gate: a session lock, a durable row with the next call time and a crash fence,
 and a log of call starts. Times are microseconds of the database clock; `None` is minus infinity.
 */
module RateGate {
  import opened Prelude
  import opened Filing

  const SPACING: int := 3_100_000
  const FENCE: int := 60_000_000

  datatype Operation = OperationSubmit | OperationStatus

  datatype CallOutcome = CallCompleted | CallAmbiguous | CallRetryableError | CallTerminalError

  datatype CallResult = CallResult(outcome: CallOutcome, httpStatus: int, errorCode: string)

  datatype Completion = Completion(at: int, outcome: CallOutcome, httpStatus: Option<int>, errorCode: string)

  /** A row of the call log. Its start never changes, and it is completed at most once. */
  datatype CallRow = CallRow(batchId: int, operation: Operation, startedAt: int, completed: Option<Completion>)

  datatype Gate = Gate(nextCallAt: Option<int>, fenceUntil: Option<int>, log: seq<CallRow>)

  function Max(a: int, b: int): int {
    if a < b then b else a
  }

  function OrEpoch(time: Option<int>): int {
    if time.Some? then Max(time.value, 0) else 0
  }

  /** `GREATEST(next_call_at, crash_fence_until, '1970-01-01')` */
  function AllowedAt(gate: Gate): int {
    Max(OrEpoch(gate.nextCallAt), OrEpoch(gate.fenceUntil))
  }

  /** The call may start once this time has come, for a gate read at `now`. */
  function WaitUntil(gate: Gate, now: int): int {
    Max(AllowedAt(gate), now)
  }

  /** The second transaction of a permit: the log row, and the fence that a crash would leave behind. */
  function StartCall(gate: Gate, batchId: int, operation: Operation, startedAt: int, fencedAt: int): Gate {
    gate.(log := gate.log + [CallRow(batchId, operation, startedAt, None)], fenceUntil := Some(fencedAt + FENCE))
  }

  predicate ValidResult(result: CallResult) {
    0 <= result.httpStatus <= 599 && ValidFailureCode(result.errorCode)
  }

  /** The log row's check: no status, or one from 100 to 599. */
  predicate StorableStatus(httpStatus: int) {
    httpStatus == 0 || 100 <= httpStatus <= 599
  }

  function NonZero(httpStatus: int): Option<int> {
    if httpStatus == 0 then None else Some(httpStatus)
  }

  /**
   The transaction of `Finish`: the row is completed, the spacing starts, and only an ambiguous
   outcome keeps a fence.
   */
  function FinishCall(gate: Gate, row: nat, at: int, result: CallResult): Result<Gate, StoreError> {
    if !ValidResult(result) then Err(InvalidEvent)
    else if row >= |gate.log| || gate.log[row].completed.Some? then Err(InvalidTransition)
    else if !StorableStatus(result.httpStatus) then Err(Invariant)
    else
      var completion := Completion(at, result.outcome, NonZero(result.httpStatus), result.errorCode);
      Ok(Gate(Some(at + SPACING), if result.outcome.CallAmbiguous? then Some(at + FENCE) else None,
              gate.log[row := gate.log[row].(completed := Some(completion))]))
  }

  // The objects

  /** The gate of one firm. `locked` is the advisory lock, held by at most one session. */
  class FirmGate {
    var nextCallAt: Option<int>
    var fenceUntil: Option<int>
    var log: seq<CallRow>
    var locked: bool

    ghost function State(): Gate
      reads this
    {
      Gate(nextCallAt, fenceUntil, log)
    }

    constructor ()
      ensures State() == Gate(None, None, []) && !locked
    {
      nextCallAt, fenceUntil, log, locked := None, None, [], false;
    }

    /**
     `AcquireCallPermit` once the lock is granted: the gate is read at `readAt`; after the wait,
     unless cancelled, the call starts at `startedAt` and the fence is written at `fencedAt`.
     */
    method AcquireCallPermit(batchId: int, operation: Operation, batchKnown: bool, cancelled: bool,
                             readAt: int, startedAt: int, fencedAt: int)
      returns (permit: Result<CallPermit, StoreError>)
      requires !locked
      requires readAt <= startedAt <= fencedAt
      requires WaitUntil(State(), readAt) > readAt && !cancelled ==> WaitUntil(State(), readAt) <= startedAt
      modifies this
      ensures permit.Ok? <==>
                batchId > 0 && batchKnown && !(cancelled && WaitUntil(old(State()), readAt) > readAt)
      ensures permit.Ok? ==>
                && State() == StartCall(old(State()), batchId, operation, startedAt, fencedAt)
                && log == old(log) + [CallRow(batchId, operation, startedAt, None)]
                && fenceUntil == Some(fencedAt + 60_000_000) && nextCallAt == old(nextCallAt)
                && startedAt >= AllowedAt(old(State()))
                && (old(nextCallAt).Some? ==> startedAt >= old(nextCallAt).value)
                && (old(fenceUntil).Some? ==> startedAt >= old(fenceUntil).value)
                && locked && fresh(permit.value) && permit.value.gate == this
                && permit.value.row == |old(log)| && !permit.value.finished && !permit.value.released
      ensures permit.Err? ==> State() == old(State()) && !locked
    {
      if batchId <= 0 {
        return Err(InvalidEvent);
      }
      locked := true;
      var allowedAt := Max(OrEpoch(nextCallAt), OrEpoch(fenceUntil));
      if allowedAt > readAt && cancelled {
        locked := false;
        return Err(Invariant);
      }
      if !batchKnown {
        locked := false;
        return Err(NotFound);
      }
      var granted := new CallPermit(this, |log|);
      log := log + [CallRow(batchId, operation, startedAt, None)];
      fenceUntil := Some(fencedAt + FENCE);
      return Ok(granted);
    }
  }

  class CallPermit {
    const gate: FirmGate
    const row: nat
    var finished: bool
    var released: bool

    constructor (gate: FirmGate, row: nat)
      ensures this.gate == gate && this.row == row && !finished && !released
    {
      this.gate, this.row, finished, released := gate, row, false, false;
    }

    /** `Finish`, at most once: a refusal leaves gate and permit as they were. */
    method Finish(result: CallResult, at: int) returns (error: Option<StoreError>)
      modifies this, gate
      ensures old(finished || released) ==> error == Some(InvalidTransition)
      ensures !old(finished || released) ==>
                match FinishCall(old(gate.State()), row, at, result)
                case Ok(after) => error.None? && gate.State() == after && finished && released && !gate.locked
                case Err(e) => error == Some(e)
      ensures error.Some? ==>
                gate.State() == old(gate.State()) && gate.locked == old(gate.locked)
                && finished == old(finished) && released == old(released)
      ensures error.None? <==>
                && !old(finished || released) && row < |old(gate.log)| && old(gate.log)[row].completed.None?
                && (result.httpStatus == 0 || 100 <= result.httpStatus <= 599) && ValidFailureCode(result.errorCode)
      ensures error.None? ==>
                && AllowedAt(gate.State())
                    == Max(0, at + if result.outcome.CallAmbiguous? then 60_000_000 else 3_100_000)
                && gate.log == old(gate.log)[row := old(gate.log)[row].(completed :=
                     Some(Completion(at, result.outcome, if result.httpStatus == 0 then None
                                     else Some(result.httpStatus),
                                     result.errorCode)))]
    {
      if finished || released {
        return Some(InvalidTransition);
      }
      if result.httpStatus < 0 || result.httpStatus > 599 || !ValidFailureCode(result.errorCode) {
        return Some(InvalidEvent);
      }
      if row >= |gate.log| || gate.log[row].completed.Some? {
        return Some(InvalidTransition);
      }
      if !StorableStatus(result.httpStatus) {
        return Some(Invariant);
      }
      var completion := Completion(at, result.outcome, NonZero(result.httpStatus), result.errorCode);
      gate.log := gate.log[row := gate.log[row].(completed := Some(completion))];
      gate.nextCallAt := Some(at + SPACING);
      gate.fenceUntil := if result.outcome.CallAmbiguous? then Some(at + FENCE) else None;
      finished := true;
      Release();
      return None;
    }

    /** `Close`: gives the lock back, once, and leaves the fence standing. */
    method Close()
      modifies this, gate
      ensures released && finished == old(finished) && gate.State() == old(gate.State())
      ensures gate.locked == if old(released) then old(gate.locked) else false
    {
      Release();
    }

    /** `releaseLocked`. */
    method Release()
      modifies this`released, gate`locked
      ensures released
      ensures gate.locked == if old(released) then old(gate.locked) else false
    {
      if released {
        return;
      }
      gate.locked := false;
      released := true;
    }
  }

  // Runs of any number of sessions

  /**
   What one worker's session does. `Closing` has a finish that committed although it reported an
   error. `Orphan` has lost its connection, and with it the lock and the power to finish; it may
   still send its request.
   */
  datatype Session =
    | Free
    | Locked
    | Waiting(until: int)
    | Granted(row: nat, sent: bool)
    | Closing
    | Orphan(row: nat, sent: bool)

  /** `sends` holds the time at which each permitted request was sent, by log row. */
  datatype RateState = RateState(gate: Gate, now: int, holder: Option<string>, sessions: map<string, Session>,
                                 sends: map<nat, int>)

  /** A commit whose answer is lost is a step that is not `acknowledged`. */
  datatype RateStep =
    | TakeLock(worker: string)
    | ReadGate(worker: string)
    | StartPermit(worker: string, batchId: int, operation: Operation, fenceDelay: nat, acknowledged: bool)
    | SendRequest(worker: string)
    | FinishPermit(worker: string, result: CallResult, acknowledged: bool)
    | GiveLockBack(worker: string)
    | LoseConnection(worker: string)
    | Elapse(micros: nat)

  function SessionOf(s: RateState, worker: string): Session {
    if worker in s.sessions then s.sessions[worker] else Free
  }

  predicate RateEnabled(s: RateState, step: RateStep) {
    match step
    case TakeLock(worker) => s.holder.None? && SessionOf(s, worker).Free?
    case ReadGate(worker) => SessionOf(s, worker).Locked?
    case StartPermit(worker, _, _, _, _) => SessionOf(s, worker).Waiting? && SessionOf(s, worker).until <= s.now
    case SendRequest(worker) =>
      (SessionOf(s, worker).Granted? || SessionOf(s, worker).Orphan?) && !SessionOf(s, worker).sent
    case FinishPermit(worker, result, _) =>
      SessionOf(s, worker).Granted? && FinishCall(s.gate, SessionOf(s, worker).row, s.now, result).Ok?
    case GiveLockBack(worker) => s.holder == Some(worker)
    case LoseConnection(worker) => true
    case Elapse(_) => true
  }

  function Become(s: RateState, worker: string, session: Session): RateState {
    s.(sessions := s.sessions[worker := session])
  }

  function Unlocked(s: RateState, worker: string): RateState {
    s.(holder := if s.holder == Some(worker) then None else s.holder)
  }

  function RateNext(s: RateState, step: RateStep): RateState
    requires RateEnabled(s, step)
  {
    match step
    case TakeLock(worker) => Become(s, worker, Locked).(holder := Some(worker))
    case ReadGate(worker) => Become(s, worker, Waiting(WaitUntil(s.gate, s.now)))
    case StartPermit(worker, batchId, operation, fenceDelay, acknowledged) =>
      var started := s.(gate := StartCall(s.gate, batchId, operation, s.now, s.now + fenceDelay),
                        now := s.now + fenceDelay);
      if acknowledged then Become(started, worker, Granted(|s.gate.log|, false))
      else Unlocked(Become(started, worker, Free), worker)
    case SendRequest(worker) =>
      var session := SessionOf(s, worker);
      Become(s, worker, session.(sent := true)).(sends := s.sends[session.row := s.now])
    case FinishPermit(worker, result, acknowledged) =>
      var finished := s.(gate := FinishCall(s.gate, SessionOf(s, worker).row, s.now, result).value);
      if acknowledged then Unlocked(Become(finished, worker, Free), worker) else Become(finished, worker, Closing)
    case GiveLockBack(worker) => Unlocked(Become(s, worker, Free), worker)
    case LoseConnection(worker) =>
      var session := SessionOf(s, worker);
      Unlocked(Become(s, worker, if session.Granted? then Orphan(session.row, session.sent)
                                 else if session.Orphan? then session else Free), worker)
    case Elapse(micros) => s.(now := s.now + micros)
  }

  function RateInitial(now: int): RateState {
    RateState(Gate(None, None, []), now, None, map[], map[])
  }

  function RateRun(start: int, steps: seq<RateStep>): RateState {
    if steps == [] then RateInitial(start)
    else
      var before := RateRun(start, steps[..|steps| - 1]);
      if RateEnabled(before, steps[|steps| - 1]) then RateNext(before, steps[|steps| - 1]) else before
  }

  // What holds in every run

  predicate NotBefore(time: Option<int>, bound: int) {
    time.Some? && time.value >= bound
  }

  /** How long after a call's completion the next call may start. */
  function Gap(outcome: CallOutcome): int {
    if outcome.CallAmbiguous? then 60_000_000 else 3_100_000
  }

  /** Two consecutive rows: the later start keeps its distance from the earlier start and from its send. */
  predicate PairApart(gate: Gate, sends: map<nat, int>, i: nat)
    requires i + 1 < |gate.log|
  {
    && gate.log[i + 1].startedAt >= gate.log[i].startedAt + SPACING
    && (if gate.log[i].completed.None? then gate.log[i + 1].startedAt >= gate.log[i].startedAt + FENCE
        else
          && gate.log[i + 1].startedAt >= gate.log[i].completed.value.at + Gap(gate.log[i].completed.value.outcome)
          && (i in sends ==> gate.log[i + 1].startedAt >= sends[i] + SPACING))
  }

  /** The last row's distance is guaranteed by the gate: by the fence while it is open, then by the next call time. */
  predicate LastGuarded(gate: Gate, sends: map<nat, int>) {
    gate.log != [] ==>
      var last := |gate.log| - 1;
      if gate.log[last].completed.None? then NotBefore(gate.fenceUntil, gate.log[last].startedAt + FENCE)
      else
        && NotBefore(gate.nextCallAt, gate.log[last].startedAt + SPACING)
        && (last in sends ==> NotBefore(gate.nextCallAt, sends[last] + SPACING))
        && AllowedAt(gate) == Max(0, gate.log[last].completed.value.at + Gap(gate.log[last].completed.value.outcome))
  }

  predicate SessionOk(s: RateState, worker: string, session: Session) {
    match session
    case Free => s.holder != Some(worker)
    case Locked => s.holder == Some(worker)
    case Waiting(until) => s.holder == Some(worker) && until >= AllowedAt(s.gate)
    case Granted(row, sent) =>
      && s.holder == Some(worker) && row == |s.gate.log| - 1 && s.gate.log[row].completed.None?
      && (row in s.sends ==> sent)
    case Closing => s.holder == Some(worker)
    case Orphan(row, _) =>
      s.holder != Some(worker) && row < |s.gate.log| && s.gate.log[row].completed.None?
  }

  predicate HasRow(session: Session) {
    session.Granted? || session.Orphan?
  }

  /** No two sessions hold the same row. */
  ghost predicate RowsOwned(s: RateState) {
    forall w, w' :: w in s.sessions && w' in s.sessions && w != w' && HasRow(s.sessions[w]) && HasRow(s.sessions[w'])
      ==> s.sessions[w].row != s.sessions[w'].row
  }

  ghost predicate RateInv(s: RateState) {
    && RowsOwned(s)
    && (forall i :: 0 <= i < |s.gate.log| ==> s.gate.log[i].startedAt <= s.now)
    && (forall i :: 0 <= i < |s.gate.log| - 1 ==> PairApart(s.gate, s.sends, i))
    && LastGuarded(s.gate, s.sends)
    && (forall i :: i in s.sends ==> i < |s.gate.log| && s.gate.log[i].startedAt <= s.sends[i] <= s.now)
    && (forall w :: w in s.sessions ==> SessionOk(s, w, s.sessions[w]))
    && (s.holder.Some? ==> s.holder.value in s.sessions)
  }

  /** The gate never asks anyone to wait for more than the fence. */
  predicate WaitBounded(s: RateState) {
    && (s.gate.nextCallAt.Some? ==> s.gate.nextCallAt.value <= s.now + SPACING)
    && (s.gate.fenceUntil.Some? ==> s.gate.fenceUntil.value <= s.now + FENCE)
  }

  lemma StartKeepsSessions(s: RateState, step: RateStep)
    requires RateInv(s) && RateEnabled(s, step) && step.StartPermit?
    ensures forall w :: w in RateNext(s, step).sessions ==>
              SessionOk(RateNext(s, step), w, RateNext(s, step).sessions[w])
  {
    hide RowsOwned, LastGuarded, PairApart;
    var t := RateNext(s, step);
    forall w | w in t.sessions
      ensures SessionOk(t, w, t.sessions[w])
    {
      assert w in s.sessions ==> SessionOk(s, w, s.sessions[w]);
    }
  }

  lemma StartKeepsRateInv(s: RateState, step: RateStep)
    requires RateInv(s) && RateEnabled(s, step) && step.StartPermit?
    ensures RateInv(RateNext(s, step))
  {
    StartKeepsSessions(s, step);
    var t := RateNext(s, step);
    assert SessionOk(s, step.worker, SessionOf(s, step.worker));
    assert AllowedAt(s.gate) <= s.now;
    forall i | 0 <= i < |t.gate.log| - 1
      ensures PairApart(t.gate, t.sends, i)
    {
      if i < |s.gate.log| - 1 {
        assert PairApart(s.gate, s.sends, i);
      }
    }
  }

  lemma FinishKeepsSessions(s: RateState, step: RateStep)
    requires RateInv(s) && RateEnabled(s, step) && step.FinishPermit?
    ensures forall w :: w in RateNext(s, step).sessions ==>
              SessionOk(RateNext(s, step), w, RateNext(s, step).sessions[w])
  {
    hide LastGuarded, PairApart;
    var t := RateNext(s, step);
    assert SessionOk(s, step.worker, SessionOf(s, step.worker));
    forall w | w in t.sessions
      ensures SessionOk(t, w, t.sessions[w])
    {
      assert w in s.sessions ==> SessionOk(s, w, s.sessions[w]);
    }
  }

  lemma FinishKeepsRateInv(s: RateState, step: RateStep)
    requires RateInv(s) && RateEnabled(s, step) && step.FinishPermit?
    ensures RateInv(RateNext(s, step))
  {
    FinishKeepsSessions(s, step);
    var t := RateNext(s, step);
    assert SessionOk(s, step.worker, SessionOf(s, step.worker));
    forall i | 0 <= i < |t.gate.log| - 1
      ensures PairApart(t.gate, t.sends, i)
    {
      assert PairApart(s.gate, s.sends, i);
    }
  }

  lemma SendKeepsRateInv(s: RateState, step: RateStep)
    requires RateInv(s) && RateEnabled(s, step) && step.SendRequest?
    ensures RateInv(RateNext(s, step))
  {
    var t := RateNext(s, step);
    assert SessionOk(s, step.worker, SessionOf(s, step.worker));
    forall i | 0 <= i < |t.gate.log| - 1
      ensures PairApart(t.gate, t.sends, i)
    {
      assert PairApart(s.gate, s.sends, i);
    }
    forall w | w in t.sessions
      ensures SessionOk(t, w, t.sessions[w])
    {
      assert w in s.sessions ==> SessionOk(s, w, s.sessions[w]);
    }
  }

  lemma LossKeepsRateInv(s: RateState, step: RateStep)
    requires RateInv(s) && RateEnabled(s, step) && (step.LoseConnection? || step.GiveLockBack?)
    ensures RateInv(RateNext(s, step))
  {
    var t := RateNext(s, step);
    forall w | w in t.sessions
      ensures SessionOk(t, w, t.sessions[w])
    {
      assert w in s.sessions ==> SessionOk(s, w, s.sessions[w]);
    }
  }

  lemma RateStepKeepsInv(s: RateState, step: RateStep)
    requires RateInv(s) && RateEnabled(s, step)
    ensures RateInv(RateNext(s, step))
  {
    match step
    case StartPermit(_, _, _, _, _) => StartKeepsRateInv(s, step);
    case FinishPermit(_, _, _) => FinishKeepsRateInv(s, step);
    case SendRequest(_) => SendKeepsRateInv(s, step);
    case LoseConnection(_) => LossKeepsRateInv(s, step);
    case GiveLockBack(_) => LossKeepsRateInv(s, step);
    case _ =>
  }

  lemma {:induction false} RateRunInv(start: int, steps: seq<RateStep>)
    ensures RateInv(RateRun(start, steps)) && WaitBounded(RateRun(start, steps))
  {
    if steps != [] {
      var n := |steps| - 1;
      RateRunInv(start, steps[..n]);
      var before := RateRun(start, steps[..n]);
      if RateEnabled(before, steps[n]) {
        RateStepKeepsInv(before, steps[n]);
        StepKeepsWaitBounded(before, steps[n]);
      }
    }
  }

  lemma StepKeepsWaitBounded(s: RateState, step: RateStep)
    requires WaitBounded(s) && RateEnabled(s, step)
    ensures WaitBounded(RateNext(s, step))
  {
  }

  // The rolling bound

  lemma {:induction false} StartsApart(gate: Gate, sends: map<nat, int>, i: nat, j: nat)
    requires forall k :: 0 <= k < |gate.log| - 1 ==> PairApart(gate, sends, k)
    requires i <= j < |gate.log|
    ensures gate.log[j].startedAt >= gate.log[i].startedAt + (j - i) * SPACING
  {
    if i < j {
      StartsApart(gate, sends, i, j - 1);
      assert PairApart(gate, sends, j - 1);
    }
  }

  /**
   In every run a start that follows a call whose outcome was ambiguous comes at least 60 seconds
   after that call's completion, and after any other completion at least 3.1 seconds.
   */
  lemma {:induction false} StartFollowsCompletion(start: int, steps: seq<RateStep>, i: nat)
    requires var log := RateRun(start, steps).gate.log; i + 1 < |log| && log[i].completed.Some?
    ensures var log := RateRun(start, steps).gate.log;
            var completion := log[i].completed.value;
            log[i + 1].startedAt >= completion.at + if completion.outcome.CallAmbiguous? then 60_000_000 else 3_100_000
  {
    RateRunInv(start, steps);
    var s := RateRun(start, steps);
    assert PairApart(s.gate, s.sends, i);
  }

  lemma NextRun(start: int, steps: seq<RateStep>, step: RateStep)
    ensures RateRun(start, steps + [step])
         == if RateEnabled(RateRun(start, steps), step) then RateNext(RateRun(start, steps), step)
            else RateRun(start, steps)
  {
    assert (steps + [step])[..|steps|] == steps;
  }

  /** A session that takes the lock, reads the gate, and waits as long as it says. */
  function Turn(worker: string, wait: nat, batchId: int, operation: Operation): seq<RateStep> {
    [TakeLock(worker), ReadGate(worker), Elapse(wait), StartPermit(worker, batchId, operation, 0, true)]
  }

  lemma {:induction false} TurnRuns(start: int, steps: seq<RateStep>, worker: string, wait: nat, batchId: int,
                                    operation: Operation)
    requires var s := RateRun(start, steps);
             s.holder.None? && SessionOf(s, worker).Free? && WaitUntil(s.gate, s.now) <= s.now + wait
    ensures var s := RateRun(start, steps);
            RateRun(start, steps + Turn(worker, wait, batchId, operation)).gate.log
            == s.gate.log + [CallRow(batchId, operation, s.now + wait, None)]
  {
    var turn := Turn(worker, wait, batchId, operation);
    var a := steps + [turn[0]];
    var b := a + [turn[1]];
    var c := b + [turn[2]];
    NextRun(start, steps, turn[0]);
    NextRun(start, a, turn[1]);
    NextRun(start, b, turn[2]);
    NextRun(start, c, turn[3]);
    assert c + [turn[3]] == steps + turn;
  }

  /**
   And no later than that: a session that finds the lock free starts its call exactly when the gap
   after the last completion is over, or at once if it is.
   */
  lemma {:induction false} NextStartIsGranted(start: int, steps: seq<RateStep>, worker: string, batchId: int,
                                              operation: Operation)
    requires var s := RateRun(start, steps);
             && s.holder.None? && SessionOf(s, worker).Free? && s.now >= 0 && s.gate.log != []
             && s.gate.log[|s.gate.log| - 1].completed.Some?
    ensures var s := RateRun(start, steps);
            var completion := s.gate.log[|s.gate.log| - 1].completed.value;
            var from := completion.at + if completion.outcome.CallAmbiguous? then 60_000_000 else 3_100_000;
            var wait := if from > s.now then from - s.now else 0;
            RateRun(start, steps + Turn(worker, wait, batchId, operation)).gate.log
            == s.gate.log + [CallRow(batchId, operation, if from > s.now then from else s.now, None)]
  {
    RateRunInv(start, steps);
    var s := RateRun(start, steps);
    var completion := s.gate.log[|s.gate.log| - 1].completed.value;
    var from := completion.at + Gap(completion.outcome);
    TurnRuns(start, steps, worker, if from > s.now then from - s.now else 0, batchId, operation);
  }

  /** The log rows whose time lies in the window of 60 seconds that begins at `from`, both ends included. */
  function InWindow(times: map<nat, int>, from: int): set<nat> {
    set i | i in times && from <= times[i] <= from + 60_000_000
  }

  function Starts(log: seq<CallRow>): map<nat, int> {
    map i: nat | 0 <= i < |log| :: log[i].startedAt
  }

  predicate Spaced(times: map<nat, int>) {
    forall i, j :: i in times && j in times && i <= j ==> times[j] >= times[i] + (j - i) * 3_100_000
  }

  function Indices(a: nat, n: nat): (r: set<nat>)
    ensures |r| == n
    ensures forall i :: i in r <==> a <= i < a + n
  {
    if n == 0 then {} else Indices(a, n - 1) + {a + n - 1}
  }

  lemma Least(s: set<nat>) returns (least: nat)
    requires s != {}
    ensures least in s && forall i :: i in s ==> least <= i
  {
    least :| least in s;
    var some := least;
    var smaller := set i | i in s && i < some;
    if smaller != {} {
      least := Least(smaller);
    }
    forall i | i in s
      ensures least <= i
    {
      assert i in smaller || some <= i;
    }
  }

  /** Events that are 3.1 seconds apart number at most 20 in any 60 seconds. */
  lemma SpacedInWindow(times: map<nat, int>, from: int)
    requires Spaced(times)
    ensures |InWindow(times, from)| <= 20
  {
    var window := InWindow(times, from);
    if window != {} {
      var a := Least(window);
      forall i | i in window
        ensures i in Indices(a, 20)
      {
        assert times[i] >= times[a] + (i - a) * 3_100_000;
      }
      SubsetNotLarger(window, Indices(a, 20));
    }
  }

  /**
   In every run, whatever crashes, unfinished permits, cancelled waits, lost answers and ambiguous
   outcomes it contains, any 60 seconds of the call log hold at most 20 starts.
   */
  lemma {:induction false} AtMostTwentyStarts(start: int, steps: seq<RateStep>, from: int)
    ensures |InWindow(Starts(RateRun(start, steps).gate.log), from)| <= 20
  {
    RateRunInv(start, steps);
    var s := RateRun(start, steps);
    forall i: nat, j: nat | i <= j < |s.gate.log|
      ensures s.gate.log[j].startedAt >= s.gate.log[i].startedAt + (j - i) * 3_100_000
    {
      StartsApart(s.gate, s.sends, i, j);
    }
    SpacedInWindow(Starts(s.gate.log), from);
  }

  /** Every send follows its permit by less than 56.9 seconds. */
  predicate SentPromptly(s: RateState) {
    forall i :: i in s.sends && i < |s.gate.log| ==> s.sends[i] < s.gate.log[i].startedAt + 56_900_000
  }

  lemma NextStartAfterSend(s: RateState, i: nat)
    requires RateInv(s) && SentPromptly(s) && i in s.sends && i + 1 < |s.gate.log|
    ensures s.gate.log[i + 1].startedAt >= s.sends[i] + SPACING
  {
    assert PairApart(s.gate, s.sends, i);
  }

  /** If every send follows its permit by less than 56.9 seconds, the same bound holds for the sends. */
  lemma {:induction false} AtMostTwentySends(start: int, steps: seq<RateStep>, from: int)
    requires SentPromptly(RateRun(start, steps))
    ensures |InWindow(RateRun(start, steps).sends, from)| <= 20
  {
    RateRunInv(start, steps);
    var s := RateRun(start, steps);
    forall i, j | i in s.sends && j in s.sends && i <= j
      ensures s.sends[j] >= s.sends[i] + (j - i) * 3_100_000
    {
      if i < j {
        NextStartAfterSend(s, i);
        StartsApart(s.gate, s.sends, i + 1, j);
      }
    }
    SpacedInWindow(s.sends, from);
  }

  // Leases

  /** A session that gets the lock at once waits at most 60 seconds for its permit. */
  lemma {:induction false} WaitAtMostFence(start: int, steps: seq<RateStep>)
    ensures var s := RateRun(start, steps);
            WaitUntil(s.gate, s.now) <= Max(s.now, 0) + FENCE
  {
    RateRunInv(start, steps);
  }

  /** The configuration's inequality, in nanoseconds: the fence, the HTTP timeout and a 5 second margin. */
  predicate LeaseConfigured(lease: int, totalTimeout: int) {
    totalTimeout >= 0 && lease > 60_000_000_000 + totalTimeout + 5_000_000_000
  }

  /** The claim is live at its event, after a wait, a call and other work. */
  predicate LiveAtEvent(batch: Batch, owner: string, token: string, claimedAt: int, lease: int,
                        wait: int, call: int, other: int)
  {
    Holds(Leased(batch, owner, lease / 1000, token, claimedAt), batch.firm, token, claimedAt + wait + call + other)
  }

  /** The lease, in the whole microseconds in which it is stored, exceeds the fence, the timeout and the margin. */
  predicate MarginCovers(lease: int, totalTimeout: int) {
    lease / 1000 > 65_000_000 + totalTimeout / 1000
  }

  /**
   Every claim that waits no longer than the fence, whose call stays within the timeout and whose
   other work stays within 5 seconds is live at its event, if and only if the lease covers the
   margin in whole microseconds.
   */
  lemma LeaseSufficesExactly(batch: Batch, owner: string, token: string, claimedAt: int, lease: int, totalTimeout: int)
    ensures (forall wait: int, call: int, other: int ::
               (wait <= FENCE && call * 1000 <= totalTimeout && other <= 5_000_000)
                 ==> LiveAtEvent(batch, owner, token, claimedAt, lease, wait, call, other))
       <==> MarginCovers(lease, totalTimeout)
  {
    var longest := totalTimeout / 1000;
    if !MarginCovers(lease, totalTimeout) {
      assert !LiveAtEvent(batch, owner, token, claimedAt, lease, FENCE, longest, 5_000_000);
    }
  }

  /**
   For settings in whole microseconds the configured inequality is that very condition; in general
   it falls short by one.
   */
  lemma ConfiguredMargin(lease: int, totalTimeout: int)
    requires totalTimeout >= 0
    ensures MarginCovers(lease, totalTimeout) ==> LeaseConfigured(lease, totalTimeout - totalTimeout % 1000)
    ensures LeaseConfigured(lease, totalTimeout) ==> lease / 1000 >= 65_000_000 + totalTimeout / 1000
    ensures lease % 1000 == 0 && totalTimeout % 1000 == 0 ==>
              (LeaseConfigured(lease, totalTimeout) <==> MarginCovers(lease, totalTimeout))
  {
  }

  /**
   Under the configured inequality the margin of 5 seconds may be used up to its last microsecond,
   or fully when covered.
   */
  lemma ClaimOutlivesCall(batch: Batch, owner: string, token: string, claimedAt: int, lease: int, totalTimeout: int,
                          wait: int, call: int, other: int)
    requires LeaseConfigured(lease, totalTimeout)
    requires wait <= FENCE && call * 1000 <= totalTimeout && other <= 5_000_000
    ensures other < 5_000_000 || MarginCovers(lease, totalTimeout) ==>
              LiveAtEvent(batch, owner, token, claimedAt, lease, wait, call, other)
  {
  }

  /** A configuration that passes the check and does not cover the margin. */
  lemma MarginIsTight(batch: Batch, owner: string, token: string, claimedAt: int)
    ensures LeaseConfigured(75_000_000_001, 10_000_000_000) && !MarginCovers(75_000_000_001, 10_000_000_000)
    ensures !LiveAtEvent(batch, owner, token, claimedAt, 75_000_000_001, FENCE, 10_000_000, 5_000_000)
  {
  }

  /** A claim taken where the run stands, whose wait is the gate's, is live at its event. */
  lemma {:induction false} UncontendedClaimIsLive(start: int, steps: seq<RateStep>, batch: Batch, owner: string,
                                                  token: string, lease: int, totalTimeout: int, claimedAt: int,
                                                  before: int, call: int, after: int)
    requires LeaseConfigured(lease, totalTimeout)
    requires var s := RateRun(start, steps);
             && 0 <= claimedAt && s.now == claimedAt + before
             && 0 <= before && 0 <= after && call * 1000 <= totalTimeout
             && (before + after < 5_000_000 || (before + after == 5_000_000 && MarginCovers(lease, totalTimeout)))
    ensures var s := RateRun(start, steps);
            Holds(Leased(batch, owner, lease / 1000, token, claimedAt), batch.firm, token,
                  WaitUntil(s.gate, s.now) + call + after)
  {
    WaitAtMostFence(start, steps);
    var s := RateRun(start, steps);
    ClaimOutlivesCall(batch, owner, token, claimedAt, lease, totalTimeout,
                      WaitUntil(s.gate, s.now) - s.now, call, before + after);
  }
}
