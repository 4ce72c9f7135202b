/**
 The bound on completed claims is attained, by runs of the composed system: every claim of the
 worst calm run brings the batch one level down, until it is acknowledged.
 */
module WorstCase {
  import opened Prelude
  import opened Retry
  import opened Stub
  import opened Client
  import opened Filing
  import opened Worker
  import opened System
  import opened Invariant
  import opened ClaimHolders
  import opened Convergence
  import opened CalmClaims
  import Safety

  // One claim

  /** What arrives during the claim: its own call, after an earlier submission when it submits itself. */
  function Arrivals(state: BatchState, early: int, call: int, draw: Draw, stubNow: int): seq<Step> {
    if state.Planned? then [Arrive(early, draw, stubNow), Arrive(call, draw, stubNow)]
    else [Arrive(call, draw, stubNow)]
  }

  function ClaimSteps(worker: string, id: int, wait: nat, token: string, call: int, arrivals: seq<Step>): seq<Step> {
    AskSteps(worker, id, wait, token, call) + arrivals + [Receive(worker), Commit(worker, 0)]
  }

  /** An earlier submission of the batch, still on its way, or else the claim's own call, which may arrive twice. */
  predicate Early(s: State, id: int, early: int, call: int)
    requires id in s.db.batches
  {
    early == call || (early in s.calls && s.calls[early] == Call(id, SubmitRequest(s.db.batches[id].document)))
  }

  /** What the worker has heard: a duplicate of its submission, or the answer to its lookup or poll. */
  ghost predicate Heard(s: State, t: State, u: State, id: int, call: int, draw: Draw, stubNow: int) {
    && id in s.db.batches && id in u.db.batches && OnlyHeard(t, u) && call in u.replies && Answers(u, id, draw, stubNow)
    && (if s.db.batches[id].state.Planned? then
          u.replies[call] == ErrorReply(409, "DUPLICATE_UTID") && IsRecorded(u.stub, u.db.batches[id])
        else
          && (IsRecorded(u.stub, u.db.batches[id]) <==> IsRecorded(s.stub, s.db.batches[id]))
          && if IsRecorded(s.stub, s.db.batches[id]) then
               u.replies[call].StatusReply? && u.replies[call].status != "Processing"
             else u.replies[call] == ErrorReply(404, "NOT_FOUND"))
  }

  lemma HearOwnSubmit(s: State, t: State, worker: string, id: int, token: string, early: int, call: int, draw: Draw,
                      stubNow: int, backoff: Backoff)
    returns (u: State)
    requires Inv(t) && Asking(s, t, worker, id, token, call) && Early(s, id, early, call)
    requires Answers(s, id, draw, stubNow)
    requires call !in s.calls && s.db.batches[id].state.Planned?
    ensures Inv(u) && Leads(t, Arrivals(s.db.batches[id].state, early, call, draw, stubNow), u, backoff, id, 0)
    ensures Heard(s, t, u, id, call, draw, stubNow)
  {
    hide Inv, Leads, HolderOf, FreshDraw;
    u := HearDuplicate(t, id, early, call, draw, stubNow, backoff);
  }

  lemma HearOwnStatus(s: State, t: State, worker: string, id: int, token: string, early: int, call: int, draw: Draw,
                      stubNow: int, backoff: Backoff)
    returns (u: State)
    requires Inv(t) && Asking(s, t, worker, id, token, call) && Answers(s, id, draw, stubNow)
    requires !s.db.batches[id].state.Planned?
    ensures Inv(u) && Leads(t, Arrivals(s.db.batches[id].state, early, call, draw, stubNow), u, backoff, id, 0)
    ensures Heard(s, t, u, id, call, draw, stubNow)
  {
    hide Inv, Leads, HolderOf, FreshDraw, Next, Enabled;
    HearStatus(t, id, call, draw, stubNow, backoff);
    Safety.StepKeepsInv(t, Arrive(call, draw, stubNow), backoff);
    u := Next(t, Arrive(call, draw, stubNow), backoff);
  }

  /** After the claim: one level down, one attempt more, unheld, and the receiver still answers. */
  ghost predicate Advanced(s: State, v: State, worker: string, id: int, token: string, call: int, draw: Draw,
                           stubNow: int)
  {
    && id in s.db.batches && id in v.db.batches && SameBatch(s.db.batches[id], v.db.batches[id])
    && Unheld(v, id) && !v.db.batches[id].state.InvariantFailed?
    && Level(v, id) == Level(s, id) - 1
    && v.db.batches[id].attempts == s.db.batches[id].attempts + 1
    && Answers(v, id, draw, stubNow)
    && v.calls.Keys == s.calls.Keys + {call} && (forall c :: c in s.calls ==> v.calls[c] == s.calls[c])
    && v.tokens.Keys == s.tokens.Keys + {token} && PhaseOf(v, worker).Idle?
  }

  lemma PolledIsRecorded(s: State, id: int)
    requires Inv(s) && id in s.db.batches && s.db.batches[id].state in {Submitted, AwaitingAck}
    ensures IsRecorded(s.stub, s.db.batches[id])
  {
    assert BatchOk(s.db, id, s.db.batches[id]) && ReceiptAgrees(s.stub, s.db.batches[id]);
  }

  lemma OneLevelDown(s: State, t: State, u: State, v: State, worker: string, id: int, token: string, call: int,
                     draw: Draw, stubNow: int)
    requires Asking(s, t, worker, id, token, call) && Heard(s, t, u, id, call, draw, stubNow) && call !in s.calls
    requires s.db.batches[id].state in {Submitted, AwaitingAck} ==> IsRecorded(s.stub, s.db.batches[id])
    requires var work := PhaseOf(t, worker).work;
             Settled(u, v, worker, id, StateAfterReply(work.action, u.replies[call], u.db.batches[id].state))
    ensures Advanced(s, v, worker, id, token, call, draw, stubNow)
  {
    hide FreshDraw;
    UnleasedIsUnheld(v, id);
  }

  lemma OneClaim(s: State, worker: string, id: int, wait: nat, token: string, early: int, call: int, draw: Draw,
                 stubNow: int, backoff: Backoff)
    returns (v: State)
    requires Startable(s, worker, id, wait, token, call) && SoundSettings(backoff)
    requires Early(s, id, early, call) && Answers(s, id, draw, stubNow)
    requires !Exhausted(backoff, s.db.batches[id].attempts + 1)
    ensures Inv(v) && Advanced(s, v, worker, id, token, call, draw, stubNow)
    ensures Leads(s, ClaimSteps(worker, id, wait, token, call,
                                Arrivals(s.db.batches[id].state, early, call, draw, stubNow)),
                  v, backoff, id, 1)
  {
    hide Inv, Leads, Answers, Advanced, StateAfterReply, Settled;
    var asked := AskSteps(worker, id, wait, token, call);
    var arrivals := Arrivals(s.db.batches[id].state, early, call, draw, stubNow);
    var t := Ask(s, worker, id, wait, token, call, backoff);
    var u: State;
    if s.db.batches[id].state.Planned? {
      u := HearOwnSubmit(s, t, worker, id, token, early, call, draw, stubNow, backoff);
    } else {
      u := HearOwnStatus(s, t, worker, id, token, early, call, draw, stubNow, backoff);
    }
    v := Settle(u, worker, id, backoff);
    if s.db.batches[id].state in {Submitted, AwaitingAck} {
      PolledIsRecorded(s, id);
    }
    OneLevelDown(s, t, u, v, worker, id, token, call, draw, stubNow);
    LeadsThrough(s, asked, t, arrivals, u, backoff, id, 0, 0);
    LeadsThrough(s, asked + arrivals, u, [Receive(worker), Commit(worker, 0)], v, backoff, id, 0, 1);
  }

  // New names

  /** A string longer than every one of a finite set. */
  lemma {:induction false} LongerThanAll(names: set<string>) returns (n: nat)
    ensures forall x :: x in names ==> |x| < n
  {
    if names == {} {
      n := 0;
    } else {
      var x := Member(names);
      var m := LongerThanAll(names - {x});
      n := if m <= |x| then |x| + 1 else m;
    }
  }

  lemma NewString(names: set<string>) returns (x: string)
    ensures x !in names
  {
    var n := LongerThanAll(names);
    x := seq(n, _ => 'x');
  }

  lemma {:induction false} NewNumber(numbers: set<int>) returns (n: int)
    ensures forall x :: x in numbers ==> x < n
  {
    if numbers == {} {
      n := 0;
    } else {
      var x := Member(numbers);
      var m := NewNumber(numbers - {x});
      n := if m <= x then x + 1 else m;
      forall y | y in numbers
        ensures y < n
      {
        assert y == x || y in numbers - {x};
      }
    }
  }

  /** How long until the batch is due: its lease runs out and its next action comes. */
  function WaitFor(row: Batch, now: int): (wait: nat)
    ensures !Terminal(row.state) ==> Due(row, now + wait)
  {
    var action := if row.nextActionAt > now then row.nextActionAt - now else 0;
    var lease := if row.lease.Some? && row.lease.value.expiresAt > now then row.lease.value.expiresAt - now else 0;
    if action < lease then lease else action
  }

  lemma FirstStart(s: State, id: int, worker: string, token: string, call: int)
    requires Inv(s) && id in s.db.batches && Unheld(s, id) && !Terminal(s.db.batches[id].state)
    requires PhaseOf(s, worker).Idle? && token !in s.tokens && call !in s.calls
    ensures Startable(s, worker, id, WaitFor(s.db.batches[id], s.now), token, call)
  {
    hide Inv, Unheld;
  }

  // The whole way down

  /** The batch can go all the way: it has not failed, attempts remain, and the receiver will acknowledge it. */
  ghost predicate CanFinish(s: State, id: int, draw: Draw, stubNow: int, backoff: Backoff) {
    && Inv(s) && SoundSettings(backoff) && id in s.db.batches && Unheld(s, id)
    && !s.db.batches[id].state.InvariantFailed?
    && !Exhausted(backoff, s.db.batches[id].attempts + Level(s, id))
    && Answers(s, id, draw, stubNow)
  }

  lemma AdvancedCanFinish(s: State, v: State, worker: string, id: int, token: string, call: int, draw: Draw,
                          stubNow: int, backoff: Backoff)
    requires CanFinish(s, id, draw, stubNow, backoff) && Inv(v)
    requires Advanced(s, v, worker, id, token, call, draw, stubNow)
    ensures CanFinish(v, id, draw, stubNow, backoff)
  {
    hide Inv, Answers, SoundSettings, Unheld, Level;
  }

  lemma CanStart(s: State, id: int, draw: Draw, stubNow: int, backoff: Backoff)
    returns (worker: string, token: string, call: int)
    requires CanFinish(s, id, draw, stubNow, backoff) && Level(s, id) > 0
    ensures Startable(s, worker, id, WaitFor(s.db.batches[id], s.now), token, call)
    ensures !Exhausted(backoff, s.db.batches[id].attempts + 1)
  {
    hide Inv, Answers, SoundSettings, Unheld;
    worker := NewString(s.workers.Keys);
    token := NewString(s.tokens.Keys);
    call := NewNumber(s.calls.Keys);
  }

  lemma {:induction false} AllTheWay(s: State, id: int, draw: Draw, stubNow: int, backoff: Backoff)
    returns (steps: seq<Step>, t: State)
    requires CanFinish(s, id, draw, stubNow, backoff)
    ensures Leads(s, steps, t, backoff, id, Level(s, id))
    ensures id in t.db.batches && t.db.batches[id].state.BatchAcknowledged?
    decreases Level(s, id)
  {
    hide Inv, Leads, Answers, Unheld, Startable;
    if Level(s, id) == 0 {
      steps, t := [], s;
      LeadsNowhere(s, backoff, id);
    } else {
      var worker, token, call := CanStart(s, id, draw, stubNow, backoff);
      var wait := WaitFor(s.db.batches[id], s.now);
      var v := OneClaim(s, worker, id, wait, token, call, call, draw, stubNow, backoff);
      AdvancedCanFinish(s, v, worker, id, token, call, draw, stubNow, backoff);
      var first := ClaimSteps(worker, id, wait, token, call,
                              Arrivals(s.db.batches[id].state, call, call, draw, stubNow));
      var rest: seq<Step>;
      rest, t := AllTheWay(v, id, draw, stubNow, backoff);
      LeadsThrough(s, first, v, rest, t, backoff, id, 1, Level(v, id));
      steps := first + rest;
    }
  }

  lemma LeadsNowhere(s: State, backoff: Backoff, id: int)
    ensures Leads(s, [], s, backoff, id, 0)
  {
  }

  // From a claim in progress

  /** The holder's own claim is not among those that a run completes at most: it lapses, and that costs more. */
  predicate CountsLapse(s: State, worker: string, id: int)
    requires HolderOf(s, worker, id)
  {
    var phase := PhaseOf(s, worker);
    var action, recorded := phase.work.action, IsRecorded(s.stub, s.db.batches[id]);
    && Seen(s, phase).Some? && !Recordable(Seen(s, phase).value)
    && (phase.Answered? || ReplyLevel(action, Seen(s, phase).value, recorded) > FreshLevel(action, recorded))
  }

  /** How many of the claims that a run completes at most are still to be taken. */
  function HolderAhead(s: State, worker: string, id: int): int
    requires HolderOf(s, worker, id)
  {
    HolderLevel(s, worker, id) - if CountsLapse(s, worker, id) then 0 else 1
  }

  ghost function Ahead(s: State, id: int): int
    requires id in s.db.batches
  {
    if exists w :: HolderOf(s, w, id) then
      var w :| HolderOf(s, w, id);
      HolderAhead(s, w, id)
    else Level(s, id)
  }

  lemma AnswersStay(s: State, t: State, id: int, draw: Draw, stubNow: int)
    requires id in s.db.batches && Answers(s, id, draw, stubNow) && t.stub == s.stub
    requires id in t.db.batches && SameBatch(s.db.batches[id], t.db.batches[id])
    ensures Answers(t, id, draw, stubNow)
  {
    hide FreshDraw, Acknowledged;
  }

  lemma GaveUpIsUnheld(s: State, worker: string, id: int)
    requires Inv(s) && HolderOf(s, worker, id)
    ensures Unheld(Move(s, worker, Idle), id)
  {
    hide Inv;
    var v := Move(s, worker, Idle);
    forall w
      ensures !HolderOf(v, w, id)
    {
      if HolderOf(v, w, id) {
        UniqueHolder(s, w, worker, id);
      }
    }
  }

  /** A claim whose answer cannot be recorded is given up, and the batch starts over. */
  lemma FromStuck(s: State, worker: string, id: int, draw: Draw, stubNow: int, backoff: Backoff)
    returns (steps: seq<Step>, t: State)
    requires Inv(s) && SoundSettings(backoff) && Stuck(s, worker, id) && Answers(s, id, draw, stubNow)
    requires !Exhausted(backoff, s.db.batches[id].attempts + HolderAhead(s, worker, id))
    ensures Leads(s, steps, t, backoff, id, HolderLevel(s, worker, id))
  {
    hide Inv, Leads, Answers, Unheld, WorkLevel, RowLevel;
    var step := GiveUp(worker);
    var v := Next(s, step, backoff);
    StuckLevel(s, worker, id);
    GaveUpIsUnheld(s, worker, id);
    LeadsOne(s, step, backoff, id);
    Safety.StepKeepsInv(s, step, backoff);
    AnswersStay(s, v, id, draw, stubNow);
    var rest: seq<Step>;
    rest, t := AllTheWay(v, id, draw, stubNow, backoff);
    LeadsThrough(s, [step], v, rest, t, backoff, id, 0, HolderLevel(s, worker, id));
    steps := [step] + rest;
  }

  /** A claim with an unreadable answer is completed, and fails the batch. */
  lemma FromFailure(s: State, worker: string, id: int, backoff: Backoff) returns (steps: seq<Step>, t: State)
    requires HolderOf(s, worker, id) && PhaseOf(s, worker).Answered? && PhaseOf(s, worker).reply.ProtocolFailure?
    requires !Exhausted(backoff, PhaseOf(s, worker).work.attempts)
    ensures Leads(s, steps, t, backoff, id, 1) && HolderLevel(s, worker, id) == 1
  {
    hide Leads, AfterCommit;
    steps, t := [Commit(worker, 0)], Next(s, Commit(worker, 0), backoff);
    LeadsOne(s, Commit(worker, 0), backoff, id);
  }

  /** What a commit leaves is one level below the claim with its answer. */
  lemma SettledLevel(s: State, v: State, worker: string, id: int)
    requires PhaseOk(s, worker, PhaseOf(s, worker)) && HolderOf(s, worker, id) && PhaseOf(s, worker).Answered?
    requires Recordable(PhaseOf(s, worker).reply) && !PhaseOf(s, worker).reply.ProtocolFailure?
    requires var phase := PhaseOf(s, worker);
             Settled(s, v, worker, id, StateAfterReply(phase.work.action, phase.reply, s.db.batches[id].state))
    ensures Level(v, id) == HolderLevel(s, worker, id) - 1 && !v.db.batches[id].state.InvariantFailed?
    ensures PhaseOf(s, worker).work.attempts == s.db.batches[id].attempts
    ensures Unheld(v, id)
  {
    UnleasedIsUnheld(v, id);
  }

  /** A claim with its answer is completed, and the rest follows. */
  lemma FromReply(s: State, worker: string, id: int, draw: Draw, stubNow: int, backoff: Backoff)
    returns (steps: seq<Step>, t: State)
    requires Inv(s) && SoundSettings(backoff) && HolderOf(s, worker, id) && PhaseOf(s, worker).Answered?
    requires Recordable(PhaseOf(s, worker).reply) && !PhaseOf(s, worker).reply.ProtocolFailure?
    requires Answers(s, id, draw, stubNow)
    requires !Exhausted(backoff, s.db.batches[id].attempts + HolderLevel(s, worker, id) - 1)
    ensures Leads(s, steps, t, backoff, id, HolderLevel(s, worker, id))
  {
    hide Inv, Leads, Answers, Unheld, WorkLevel, Level, StateAfterReply, HolderOf, PhaseOk;
    HeldIsPositive(s, worker, id);
    HolderAttempts(s, worker, id);
    var v := CommitReply(s, worker, id, backoff);
    Safety.CurrentPhase(s, worker);
    SettledLevel(s, v, worker, id);
    AnswersStay(s, v, id, draw, stubNow);
    var rest: seq<Step>;
    rest, t := AllTheWay(v, id, draw, stubNow, backoff);
    LeadsThrough(s, [Commit(worker, 0)], v, rest, t, backoff, id, 1, Level(v, id));
    steps := [Commit(worker, 0)] + rest;
  }

  lemma HolderAttempts(s: State, worker: string, id: int)
    requires Inv(s) && HolderOf(s, worker, id)
    ensures PhaseOf(s, worker).work.attempts == s.db.batches[id].attempts
  {
    hide DbOk, StubOk, Agree, CallsOk;
    Safety.CurrentPhase(s, worker);
  }

  lemma FromAnswered(s: State, worker: string, id: int, draw: Draw, stubNow: int, backoff: Backoff)
    returns (steps: seq<Step>, t: State)
    requires Inv(s) && SoundSettings(backoff) && HolderOf(s, worker, id) && PhaseOf(s, worker).Answered?
    requires Answers(s, id, draw, stubNow)
    requires !Exhausted(backoff, s.db.batches[id].attempts + HolderAhead(s, worker, id))
    ensures Leads(s, steps, t, backoff, id, HolderLevel(s, worker, id))
  {
    hide Inv, Leads, Answers, WorkLevel, HolderOf;
    HolderAttempts(s, worker, id);
    HeldIsPositive(s, worker, id);
    if !Recordable(PhaseOf(s, worker).reply) {
      steps, t := FromStuck(s, worker, id, draw, stubNow, backoff);
    } else if PhaseOf(s, worker).reply.ProtocolFailure? {
      steps, t := FromFailure(s, worker, id, backoff);
    } else {
      steps, t := FromReply(s, worker, id, draw, stubNow, backoff);
    }
  }

  /** The worker takes the answer that has arrived. */
  lemma TakeReply(s: State, worker: string, id: int, backoff: Backoff) returns (v: State)
    requires Inv(s) && HolderOf(s, worker, id) && PhaseOf(s, worker).Calling? && PhaseOf(s, worker).call in s.replies
    ensures Inv(v) && Leads(s, [Receive(worker)], v, backoff, id, 0)
    ensures v.db == s.db && v.stub == s.stub && HolderOf(v, worker, id)
    ensures PhaseOf(v, worker) == Answered(PhaseOf(s, worker).work, s.replies[PhaseOf(s, worker).call])
  {
    hide Inv, Leads;
    LeadsOne(s, Receive(worker), backoff, id);
    Safety.StepKeepsInv(s, Receive(worker), backoff);
    v := Next(s, Receive(worker), backoff);
  }

  lemma TakenLevel(s: State, v: State, worker: string, id: int)
    requires HolderOf(s, worker, id) && PhaseOf(s, worker).Calling? && PhaseOf(s, worker).call in s.replies
    requires v.db == s.db && v.stub == s.stub && HolderOf(v, worker, id)
    requires PhaseOf(v, worker) == Answered(PhaseOf(s, worker).work, s.replies[PhaseOf(s, worker).call])
    ensures var action, recorded := PhaseOf(s, worker).work.action, IsRecorded(s.stub, s.db.batches[id]);
            && HolderLevel(v, worker, id) == ReplyLevel(action, s.replies[PhaseOf(s, worker).call], recorded)
            && HolderLevel(s, worker, id) == if HolderLevel(v, worker, id) > FreshLevel(action, recorded)
                                             then HolderLevel(v, worker, id) else FreshLevel(action, recorded)
    ensures CountsLapse(v, worker, id) <==> !Recordable(s.replies[PhaseOf(s, worker).call])
  {
  }

  /** Taking the answer that has arrived, and going on from it. */
  lemma FromArrived(s: State, worker: string, id: int, draw: Draw, stubNow: int, backoff: Backoff)
    returns (steps: seq<Step>, t: State)
    requires Inv(s) && SoundSettings(backoff) && HolderOf(s, worker, id)
    requires PhaseOf(s, worker).Calling? && PhaseOf(s, worker).call in s.replies && Answers(s, id, draw, stubNow)
    requires ReplyLevel(PhaseOf(s, worker).work.action, s.replies[PhaseOf(s, worker).call],
                        IsRecorded(s.stub, s.db.batches[id])) == HolderLevel(s, worker, id)
    requires Recordable(s.replies[PhaseOf(s, worker).call]) || CountsLapse(s, worker, id)
    requires !Exhausted(backoff, s.db.batches[id].attempts + HolderAhead(s, worker, id))
    ensures Leads(s, steps, t, backoff, id, HolderLevel(s, worker, id))
  {
    hide Inv, Leads, Answers, ReplyLevel, WorkLevel, FreshLevel;
    var v := TakeReply(s, worker, id, backoff);
    TakenLevel(s, v, worker, id);
    AnswersStay(s, v, id, draw, stubNow);
    var rest: seq<Step>;
    rest, t := FromAnswered(v, worker, id, draw, stubNow, backoff);
    LeadsThrough(s, [Receive(worker)], v, rest, t, backoff, id, 0, HolderLevel(s, worker, id));
    steps := [Receive(worker)] + rest;
  }

  lemma HoldersCall(s: State, worker: string, id: int)
    requires Inv(s) && HolderOf(s, worker, id) && PhaseOf(s, worker).Calling?
    ensures var call, work := PhaseOf(s, worker).call, PhaseOf(s, worker).work;
            && call in s.calls && s.calls[call] == Call(id, RequestFor(work))
            && work.document == s.db.batches[id].document
            && (work.action.PollStatus? ==> IsRecorded(s.stub, s.db.batches[id]))
  {
    hide DbOk, StubOk, Agree, CallsOk;
    Safety.CurrentPhase(s, worker);
  }

  /** The receiver's own answer arrives: for a submission, that it is a duplicate. */
  lemma HearFresh(s: State, worker: string, id: int, draw: Draw, stubNow: int, backoff: Backoff)
    returns (steps: seq<Step>, u: State)
    requires Inv(s) && HolderOf(s, worker, id) && PhaseOf(s, worker).Calling? && Answers(s, id, draw, stubNow)
    ensures Inv(u) && OnlyHeard(s, u) && Leads(s, steps, u, backoff, id, 0)
    ensures Answers(u, id, draw, stubNow) && PhaseOf(s, worker).call in u.replies
    ensures Recordable(u.replies[PhaseOf(s, worker).call])
    ensures var action, reply := PhaseOf(s, worker).work.action, u.replies[PhaseOf(s, worker).call];
            ReplyLevel(action, reply, IsRecorded(u.stub, u.db.batches[id]))
            == FreshLevel(action, IsRecorded(u.stub, u.db.batches[id]))
            == FreshLevel(action, IsRecorded(s.stub, s.db.batches[id]))
  {
    hide Inv, Leads, Answers, Next, Enabled;
    var call := PhaseOf(s, worker).call;
    HoldersCall(s, worker, id);
    if PhaseOf(s, worker).work.action.Submit? {
      steps := [Arrive(call, draw, stubNow), Arrive(call, draw, stubNow)];
      u := HearDuplicate(s, id, call, call, draw, stubNow, backoff);
    } else {
      steps := [Arrive(call, draw, stubNow)];
      HearStatus(s, id, call, draw, stubNow, backoff);
      Safety.StepKeepsInv(s, Arrive(call, draw, stubNow), backoff);
      u := Next(s, Arrive(call, draw, stubNow), backoff);
      AnswersStay(s, u, id, draw, stubNow);
    }
  }

  lemma HeardLevel(s: State, u: State, worker: string, id: int)
    requires HolderOf(s, worker, id) && PhaseOf(s, worker).Calling? && OnlyHeard(s, u)
    requires PhaseOf(s, worker).call in u.replies
    requires var action, reply := PhaseOf(s, worker).work.action, u.replies[PhaseOf(s, worker).call];
             ReplyLevel(action, reply, IsRecorded(u.stub, u.db.batches[id]))
             == FreshLevel(action, IsRecorded(u.stub, u.db.batches[id]))
    ensures HolderOf(u, worker, id) && PhaseOf(u, worker) == PhaseOf(s, worker)
    ensures HolderLevel(u, worker, id)
         == FreshLevel(PhaseOf(s, worker).work.action, IsRecorded(u.stub, u.db.batches[id]))
  {
  }

  lemma FromCalling(s: State, worker: string, id: int, draw: Draw, stubNow: int, backoff: Backoff)
    returns (steps: seq<Step>, t: State)
    requires Inv(s) && SoundSettings(backoff) && HolderOf(s, worker, id) && PhaseOf(s, worker).Calling?
    requires Answers(s, id, draw, stubNow)
    requires !Exhausted(backoff, s.db.batches[id].attempts + HolderAhead(s, worker, id))
    ensures Leads(s, steps, t, backoff, id, HolderLevel(s, worker, id))
  {
    hide Inv, Leads, Answers, ReplyLevel, FreshLevel;
    var call, action := PhaseOf(s, worker).call, PhaseOf(s, worker).work.action;
    var recorded := IsRecorded(s.stub, s.db.batches[id]);
    if call in s.replies && ReplyLevel(action, s.replies[call], recorded) > FreshLevel(action, recorded) {
      steps, t := FromArrived(s, worker, id, draw, stubNow, backoff);
    } else {
      var arrivals, u := HearFresh(s, worker, id, draw, stubNow, backoff);
      HeardLevel(s, u, worker, id);
      var rest: seq<Step>;
      rest, t := FromArrived(u, worker, id, draw, stubNow, backoff);
      LeadsThrough(s, arrivals, u, rest, t, backoff, id, 0, HolderLevel(s, worker, id));
      steps := arrivals + rest;
    }
  }

  /** The worker sends its call. */
  lemma FromPermitted(s: State, worker: string, id: int, draw: Draw, stubNow: int, backoff: Backoff)
    returns (steps: seq<Step>, t: State)
    requires Inv(s) && SoundSettings(backoff) && HolderOf(s, worker, id) && PhaseOf(s, worker).Permitted?
    requires Answers(s, id, draw, stubNow)
    requires !Exhausted(backoff, s.db.batches[id].attempts + HolderAhead(s, worker, id))
    ensures Leads(s, steps, t, backoff, id, HolderLevel(s, worker, id))
  {
    hide DbOk, StubOk, Agree, WorkersOk, Leads, Answers, FreshLevel;
    var call := NewNumber(s.calls.Keys);
    var step := Send(worker, call);
    var v := Next(s, step, backoff);
    LeadsOne(s, step, backoff, id);
    Safety.StepKeepsInv(s, step, backoff);
    AnswersStay(s, v, id, draw, stubNow);
    var rest: seq<Step>;
    rest, t := FromCalling(v, worker, id, draw, stubNow, backoff);
    LeadsThrough(s, [step], v, rest, t, backoff, id, 0, HolderLevel(s, worker, id));
    steps := [step] + rest;
  }

  /** The worker acquires its permit. */
  lemma FromClaimed(s: State, worker: string, id: int, draw: Draw, stubNow: int, backoff: Backoff)
    returns (steps: seq<Step>, t: State)
    requires Inv(s) && SoundSettings(backoff) && HolderOf(s, worker, id) && PhaseOf(s, worker).Claimed?
    requires Answers(s, id, draw, stubNow)
    requires !Exhausted(backoff, s.db.batches[id].attempts + HolderAhead(s, worker, id))
    ensures Leads(s, steps, t, backoff, id, HolderLevel(s, worker, id))
  {
    hide Inv, Leads, Answers, FreshLevel;
    var step := AcquirePermit(worker);
    var v := Next(s, step, backoff);
    LeadsOne(s, step, backoff, id);
    Safety.StepKeepsInv(s, step, backoff);
    AnswersStay(s, v, id, draw, stubNow);
    var rest: seq<Step>;
    rest, t := FromPermitted(v, worker, id, draw, stubNow, backoff);
    LeadsThrough(s, [step], v, rest, t, backoff, id, 0, HolderLevel(s, worker, id));
    steps := [step] + rest;
  }

  lemma FromHolder(s: State, worker: string, id: int, draw: Draw, stubNow: int, backoff: Backoff)
    returns (steps: seq<Step>, t: State)
    requires Inv(s) && SoundSettings(backoff) && HolderOf(s, worker, id) && Answers(s, id, draw, stubNow)
    requires !Exhausted(backoff, s.db.batches[id].attempts + HolderAhead(s, worker, id))
    ensures Leads(s, steps, t, backoff, id, HolderLevel(s, worker, id))
  {
    hide Inv, Leads, Answers, WorkLevel;
    match PhaseOf(s, worker)
    case Claimed(_) => steps, t := FromClaimed(s, worker, id, draw, stubNow, backoff);
    case Permitted(_) => steps, t := FromPermitted(s, worker, id, draw, stubNow, backoff);
    case Calling(_, _) => steps, t := FromCalling(s, worker, id, draw, stubNow, backoff);
    case Answered(_, _) => steps, t := FromAnswered(s, worker, id, draw, stubNow, backoff);
  }

  lemma FromUnheld(s: State, id: int, draw: Draw, stubNow: int, backoff: Backoff) returns (steps: seq<Step>, t: State)
    requires Inv(s) && SoundSettings(backoff) && id in s.db.batches && Unheld(s, id) && Answers(s, id, draw, stubNow)
    requires !Exhausted(backoff, s.db.batches[id].attempts + Level(s, id))
    ensures Leads(s, steps, t, backoff, id, Level(s, id))
  {
    hide Inv, Leads, Answers, Unheld;
    if s.db.batches[id].state.InvariantFailed? {
      steps, t := [], s;
      LeadsNowhere(s, backoff, id);
    } else {
      steps, t := AllTheWay(s, id, draw, stubNow, backoff);
    }
  }

  lemma FromAnywhere(s: State, id: int, draw: Draw, stubNow: int, backoff: Backoff) returns (steps: seq<Step>, t: State)
    requires Inv(s) && SoundSettings(backoff) && id in s.db.batches && Answers(s, id, draw, stubNow)
    requires !Exhausted(backoff, s.db.batches[id].attempts + Ahead(s, id))
    ensures Leads(s, steps, t, backoff, id, Distance(s, id))
  {
    hide Inv, Leads, Answers, HolderOf, HolderLevel, Level;
    if w :| HolderOf(s, w, id) {
      HolderIsUnique(s, w, id);
      HeldDistance(s, w, id);
      steps, t := FromHolder(s, w, id, draw, stubNow, backoff);
    } else {
      UnheldDistance(s, id);
      steps, t := FromUnheld(s, id, draw, stubNow, backoff);
    }
  }

  /**
   The bound is attained: from every reachable state in which attempts remain and the receiver
   answers, whether or not a claim of the batch is in progress, some calm run completes as many
   claims as the bound allows. Unless the batch has failed or is about to, it ends acknowledged.
   */
  lemma DistanceIsAttained(s: State, backoff: Backoff, id: int, draw: Draw, stubNow: int)
    requires Reachable(s, backoff) && SoundSettings(backoff) && id in s.db.batches && Answers(s, id, draw, stubNow)
    requires !Exhausted(backoff, s.db.batches[id].attempts + Ahead(s, id))
    ensures exists steps ::
              && CalmRun(s, steps, backoff, id) && CompletedClaims(s, steps, backoff, id) == Distance(s, id)
              && id in Run(s, steps, backoff).db.batches
              && (Clean(s, id) ==> Run(s, steps, backoff).db.batches[id].state.BatchAcknowledged?)
  {
    hide Reachable, Inv, CalmRun, CompletedClaims, Run, Distance, Answers, Clean;
    Safety.ReachableInv(s, backoff);
    var steps, t := FromAnywhere(s, id, draw, stubNow, backoff);
    AtMostFourClaims(s, steps, backoff, id);
  }

  // Four claims, step by step

  /** One worker, four claims: a lookup, a submission behind an earlier one that is late, a lookup, and a poll. */
  function FourClaims(worker: string, id: int, waits: seq<nat>, tokens: seq<string>, calls: seq<int>, late: int,
                      draw: Draw, stubNow: int): seq<Step>
    requires |waits| == |tokens| == |calls| == 4
  {
    ClaimSteps(worker, id, waits[0], tokens[0], calls[0], [Arrive(calls[0], draw, stubNow)])
    + ClaimSteps(worker, id, waits[1], tokens[1], calls[1],
                 [Arrive(late, draw, stubNow), Arrive(calls[1], draw, stubNow)])
    + ClaimSteps(worker, id, waits[2], tokens[2], calls[2], [Arrive(calls[2], draw, stubNow)])
    + ClaimSteps(worker, id, waits[3], tokens[3], calls[3], [Arrive(calls[3], draw, stubNow)])
  }

  /** Ready for its next claims, `level` of them, with an earlier submission still on its way. */
  ghost predicate OnTheWay(s: State, worker: string, id: int, late: int, level: nat, attempts: nat, draw: Draw,
                           stubNow: int)
  {
    && Inv(s) && id in s.db.batches && Unheld(s, id) && !s.db.batches[id].state.InvariantFailed?
    && Level(s, id) == level && s.db.batches[id].attempts == attempts
    && PhaseOf(s, worker).Idle? && Answers(s, id, draw, stubNow)
    && late in s.calls && s.calls[late] == Call(id, SubmitRequest(s.db.batches[id].document))
  }

  /** At level three the batch is planned, so the earlier submission arrives before the claim's own. */
  function ArrivalsAt(level: nat, late: int, call: int, draw: Draw, stubNow: int): seq<Step> {
    if level == 3 then [Arrive(late, draw, stubNow), Arrive(call, draw, stubNow)] else [Arrive(call, draw, stubNow)]
  }

  lemma ClaimOnTheWay(s: State, worker: string, id: int, late: int, level: nat, attempts: nat, token: string, call: int,
                      draw: Draw, stubNow: int, backoff: Backoff)
    returns (wait: nat, v: State)
    requires OnTheWay(s, worker, id, late, level, attempts, draw, stubNow) && level > 0 && SoundSettings(backoff)
    requires token !in s.tokens && call !in s.calls && !Exhausted(backoff, attempts + 1)
    ensures OnTheWay(v, worker, id, late, level - 1, attempts + 1, draw, stubNow)
    ensures Leads(s, ClaimSteps(worker, id, wait, token, call, ArrivalsAt(level, late, call, draw, stubNow)), v,
                  backoff, id, 1)
    ensures v.tokens.Keys == s.tokens.Keys + {token} && v.calls.Keys == s.calls.Keys + {call}
  {
    hide Inv, Answers, Unheld, Startable, Leads, ClaimSteps;
    wait := WaitFor(s.db.batches[id], s.now);
    FirstStart(s, id, worker, token, call);
    v := OneClaim(s, worker, id, wait, token, late, call, draw, stubNow, backoff);
  }

  lemma TwoInARow(s: State, worker: string, id: int, late: int, level: nat, attempts: nat, tokens: seq<string>,
                  calls: seq<int>, draw: Draw, stubNow: int, backoff: Backoff)
    returns (w0: nat, w1: nat, v: State)
    requires OnTheWay(s, worker, id, late, level, attempts, draw, stubNow) && level >= 2 && SoundSettings(backoff)
    requires |tokens| == |calls| == 2 && tokens[0] != tokens[1] && calls[0] != calls[1]
    requires tokens[0] !in s.tokens && tokens[1] !in s.tokens && calls[0] !in s.calls && calls[1] !in s.calls
    requires !Exhausted(backoff, attempts + 2)
    ensures OnTheWay(v, worker, id, late, level - 2, attempts + 2, draw, stubNow)
    ensures Leads(s, ClaimSteps(worker, id, w0, tokens[0], calls[0], ArrivalsAt(level, late, calls[0], draw, stubNow))
                     + ClaimSteps(worker, id, w1, tokens[1], calls[1],
                                  ArrivalsAt(level - 1, late, calls[1], draw, stubNow)),
                  v, backoff, id, 2)
    ensures v.tokens.Keys == s.tokens.Keys + {tokens[0], tokens[1]}
    ensures v.calls.Keys == s.calls.Keys + {calls[0], calls[1]}
  {
    hide OnTheWay, Leads, ClaimSteps, ArrivalsAt;
    var u: State;
    w0, u := ClaimOnTheWay(s, worker, id, late, level, attempts, tokens[0], calls[0], draw, stubNow, backoff);
    w1, v := ClaimOnTheWay(u, worker, id, late, level - 1, attempts + 1, tokens[1], calls[1], draw, stubNow, backoff);
    var first := ClaimSteps(worker, id, w0, tokens[0], calls[0], ArrivalsAt(level, late, calls[0], draw, stubNow));
    var second := ClaimSteps(worker, id, w1, tokens[1], calls[1], ArrivalsAt(level - 1, late, calls[1], draw, stubNow));
    LeadsThrough(s, first, u, second, v, backoff, id, 1, 1);
  }

  lemma LostIsOnTheWay(s: State, worker: string, id: int, late: int, draw: Draw, stubNow: int)
    requires Inv(s) && id in s.db.batches && Unheld(s, id) && PhaseOf(s, worker).Idle? && Answers(s, id, draw, stubNow)
    requires s.db.batches[id].state in {Submitting, SubmitUnknown} && !IsRecorded(s.stub, s.db.batches[id])
    requires late in s.calls && s.calls[late] == Call(id, SubmitRequest(s.db.batches[id].document))
    ensures OnTheWay(s, worker, id, late, 4, s.db.batches[id].attempts, draw, stubNow)
  {
    hide Inv, Unheld, Answers;
  }

  lemma ArrivedIsAcknowledged(s: State, worker: string, id: int, late: int, attempts: nat, draw: Draw, stubNow: int)
    requires OnTheWay(s, worker, id, late, 0, attempts, draw, stubNow)
    ensures id in s.db.batches && s.db.batches[id].state.BatchAcknowledged?
  {
    hide Inv, Unheld, Answers;
  }

  /**
   Four claims can be needed, for every reachable batch whose submission outcome is unknown and
   not recorded while an earlier submission is still on its way: the lookup finds nothing, that
   submission then arrives before the next one, which is refused as a duplicate, the second lookup
   finds it, and the poll brings the results.
   */
  lemma FourClaimsNeeded(s: State, backoff: Backoff, id: int, worker: string, tokens: seq<string>, calls: seq<int>,
                         late: int, draw: Draw, stubNow: int)
    returns (waits: seq<nat>)
    requires Reachable(s, backoff) && SoundSettings(backoff) && id in s.db.batches && Unheld(s, id)
    requires s.db.batches[id].state in {Submitting, SubmitUnknown} && !IsRecorded(s.stub, s.db.batches[id])
    requires Answers(s, id, draw, stubNow) && !Exhausted(backoff, s.db.batches[id].attempts + 4)
    requires late in s.calls && s.calls[late] == Call(id, SubmitRequest(s.db.batches[id].document))
    requires PhaseOf(s, worker).Idle? && |tokens| == |calls| == 4 && Distinct(tokens) && Distinct(calls)
    requires forall i :: 0 <= i < 4 ==> tokens[i] !in s.tokens && calls[i] !in s.calls
    ensures |waits| == 4
    ensures var steps := FourClaims(worker, id, waits, tokens, calls, late, draw, stubNow);
            && CalmRun(s, steps, backoff, id) && CompletedClaims(s, steps, backoff, id) == 4
            && id in Run(s, steps, backoff).db.batches
            && Run(s, steps, backoff).db.batches[id].state.BatchAcknowledged?
  {
    hide Reachable, Inv, Answers, Unheld, OnTheWay, CalmRun, CompletedClaims, Run, ClaimSteps;
    Safety.ReachableInv(s, backoff);
    var attempts := s.db.batches[id].attempts;
    LostIsOnTheWay(s, worker, id, late, draw, stubNow);
    var w0, w1, b := TwoInARow(s, worker, id, late, 4, attempts, tokens[..2], calls[..2], draw, stubNow, backoff);
    var w2, w3, d := TwoInARow(b, worker, id, late, 2, attempts + 2, tokens[2..], calls[2..], draw, stubNow, backoff);
    waits := [w0, w1, w2, w3];
    var first := ClaimSteps(worker, id, w0, tokens[0], calls[0], ArrivalsAt(4, late, calls[0], draw, stubNow));
    var second := ClaimSteps(worker, id, w1, tokens[1], calls[1], ArrivalsAt(3, late, calls[1], draw, stubNow));
    var third := ClaimSteps(worker, id, w2, tokens[2], calls[2], ArrivalsAt(2, late, calls[2], draw, stubNow));
    var fourth := ClaimSteps(worker, id, w3, tokens[3], calls[3], ArrivalsAt(1, late, calls[3], draw, stubNow));
    LeadsThrough(s, first + second, b, third + fourth, d, backoff, id, 2, 2);
    assert first + second + (third + fourth) == FourClaims(worker, id, waits, tokens, calls, late, draw, stubNow);
    ArrivedIsAcknowledged(d, worker, id, late, attempts + 4, draw, stubNow);
  }

  // Five claims, and exactly when

  /** A fault can be held: a claim of a batch that is not recorded, whose call a gateway answers with 503. */
  lemma FaultCanBeHeld(s: State, backoff: Backoff, worker: string, id: int, token: string, call: int)
    requires Reachable(s, backoff) && id in s.db.batches && Unheld(s, id)
    requires Unsubmitted(s.db.batches[id].state) && !IsRecorded(s.stub, s.db.batches[id])
    requires PhaseOf(s, worker).Idle? && token !in s.tokens && call !in s.calls
    ensures var steps := AskSteps(worker, id, WaitFor(s.db.batches[id], s.now), token, call)
                         + [CallFails(worker, ErrorReply(503, "SERVICE_UNAVAILABLE"))];
            FaultHeld(Run(s, steps, backoff), id)
  {
    hide Reachable, Inv, Unheld, AskSteps, CalmRun, CompletedClaims;
    Safety.ReachableInv(s, backoff);
    FirstStart(s, id, worker, token, call);
    var ask := AskSteps(worker, id, WaitFor(s.db.batches[id], s.now), token, call);
    var t := Ask(s, worker, id, WaitFor(s.db.batches[id], s.now), token, call, backoff);
    var fails := CallFails(worker, ErrorReply(503, "SERVICE_UNAVAILABLE"));
    assert (ask + [fails])[..|ask|] == ask;
    FaultIsSeen(s, t, worker, id, token, call, backoff);
  }

  lemma FaultIsSeen(s: State, t: State, worker: string, id: int, token: string, call: int, backoff: Backoff)
    requires Asking(s, t, worker, id, token, call) && !IsRecorded(s.stub, s.db.batches[id])
    requires Unsubmitted(s.db.batches[id].state)
    ensures var fails := CallFails(worker, ErrorReply(503, "SERVICE_UNAVAILABLE"));
            Enabled(t, fails) && SeesFault(Next(t, fails, backoff), worker, id)
  {
    assert ValidFailureCode("SERVICE_UNAVAILABLE");
  }

  /** The claim that has seen the fault is completed, gets nowhere, and the four that follow are the way down. */
  lemma FiveClaims(s: State, worker: string, id: int, draw: Draw, stubNow: int, backoff: Backoff)
    returns (steps: seq<Step>, t: State)
    requires Inv(s) && SoundSettings(backoff) && SeesFault(s, worker, id) && Answers(s, id, draw, stubNow)
    requires !Exhausted(backoff, s.db.batches[id].attempts + 4)
    ensures Leads(s, steps, t, backoff, id, 5)
  {
    hide Inv, Leads, Answers;
    if PhaseOf(s, worker).Calling? {
      var v := TakeReply(s, worker, id, backoff);
      AnswersStay(s, v, id, draw, stubNow);
      var rest: seq<Step>;
      rest, t := FromReply(v, worker, id, draw, stubNow, backoff);
      LeadsThrough(s, [Receive(worker)], v, rest, t, backoff, id, 0, 5);
      steps := [Receive(worker)] + rest;
    } else {
      steps, t := FromReply(s, worker, id, draw, stubNow, backoff);
    }
  }

  lemma FaultCostsAClaim(s: State, backoff: Backoff, id: int, draw: Draw, stubNow: int)
    requires Inv(s) && SoundSettings(backoff) && FaultHeld(s, id) && id in s.db.batches && Answers(s, id, draw, stubNow)
    requires !Exhausted(backoff, s.db.batches[id].attempts + 4)
    ensures exists steps :: CalmRun(s, steps, backoff, id) && CompletedClaims(s, steps, backoff, id) == 5
  {
    hide Inv, CalmRun, CompletedClaims, Run, Answers;
    var w :| SeesFault(s, w, id);
    var steps, t := FiveClaims(s, w, id, draw, stubNow, backoff);
  }

  /**
   Exactly when four claims are enough, with attempts left and a receiver that answers: no calm run
   completes a fifth if and only if no claim in progress has already seen a fault.
   */
  lemma FourSufficeExactly(s: State, backoff: Backoff, id: int, draw: Draw, stubNow: int)
    requires Reachable(s, backoff) && SoundSettings(backoff) && id in s.db.batches
    requires Answers(s, id, draw, stubNow) && !Exhausted(backoff, s.db.batches[id].attempts + 4)
    ensures (forall steps :: CalmRun(s, steps, backoff, id) ==> CompletedClaims(s, steps, backoff, id) <= 4)
       <==> !FaultHeld(s, id)
  {
    hide Reachable, Inv, Run, Answers, Distance, Clean, FaultHeld;
    Safety.ReachableInv(s, backoff);
    if FaultHeld(s, id) {
      FaultCostsAClaim(s, backoff, id, draw, stubNow);
    } else {
      forall steps | CalmRun(s, steps, backoff, id)
        ensures CompletedClaims(s, steps, backoff, id) <= 4
      {
        AtMostFourClaims(s, steps, backoff, id);
      }
    }
  }
}
