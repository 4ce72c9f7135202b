/**
 Submit discipline over whole runs: a batch is submitted again only after a lookup of its UTID
 has committed that the receiver does not have it, and then with the same UTID and bytes.
 */
module Discipline {
  import opened Prelude
  import opened Retry
  import opened Filing
  import opened Planning
  import opened Worker
  import opened System
  import opened Invariant
  import DbSteps
  import Safety
  import Fencing

  /** The last entry that concerns the batch is a submit claim. */
  predicate SubmitOpen(history: seq<Entry>, id: int) {
    history != [] &&
    var last := history[|history| - 1];
    if last.batchId == id then last.SubmitClaimed? else SubmitOpen(history[..|history| - 1], id)
  }

  /** Between any two submit claims of one batch lies a committed not-found lookup of it. */
  ghost predicate Disciplined(history: seq<Entry>) {
    forall i, j ::
      (0 <= i < j < |history| && history[i].SubmitClaimed? && history[j].SubmitClaimed?
       && history[i].batchId == history[j].batchId)
        ==> exists k :: i < k < j && history[k] == NotFoundCommitted(history[i].batchId)
  }

  /** Claims of submits name the batch's own UTID and document. */
  ghost predicate EntryOk(db: Db, entry: Entry) {
    && entry.batchId in db.batches
    && (entry.SubmitClaimed? ==>
          entry.utid == db.batches[entry.batchId].utid && entry.document == db.batches[entry.batchId].document)
  }

  ghost predicate HistoryOk(s: State) {
    && (forall i :: 0 <= i < |s.history| ==> EntryOk(s.db, s.history[i]))
    && (forall id :: id in s.db.batches && s.db.batches[id].state.Planned? ==> !SubmitOpen(s.history, id))
    && Disciplined(s.history)
  }

  /** An earlier submit that is no longer open was followed by a not-found. */
  lemma {:induction false} ClosedSubmit(history: seq<Entry>, id: int, i: nat)
    requires i < |history| && history[i].SubmitClaimed? && history[i].batchId == id
    requires !SubmitOpen(history, id)
    ensures exists k :: i < k < |history| && history[k] == NotFoundCommitted(id)
  {
    var n := |history| - 1;
    if history[n].batchId == id {
      assert history[n] == NotFoundCommitted(id);
    } else {
      ClosedSubmit(history[..n], id, i);
      var k :| i < k < n && history[..n][k] == NotFoundCommitted(id);
      assert history[k] == NotFoundCommitted(id);
    }
  }

  lemma AppendSubmit(history: seq<Entry>, entry: Entry)
    requires Disciplined(history) && entry.SubmitClaimed? && !SubmitOpen(history, entry.batchId)
    ensures Disciplined(history + [entry])
  {
    var after := history + [entry];
    forall i, j | 0 <= i < j < |after| && after[i].SubmitClaimed? && after[j].SubmitClaimed?
                  && after[i].batchId == after[j].batchId
      ensures exists k :: i < k < j && after[k] == NotFoundCommitted(after[i].batchId)
    {
      if j == |history| {
        ClosedSubmit(history, entry.batchId, i);
        var k :| i < k < |history| && history[k] == NotFoundCommitted(entry.batchId);
        assert after[k] == NotFoundCommitted(entry.batchId);
      } else {
        var k :| i < k < j && history[k] == NotFoundCommitted(history[i].batchId);
        assert after[k] == history[k];
      }
    }
  }

  lemma AppendNotFound(history: seq<Entry>, id: int)
    requires Disciplined(history)
    ensures Disciplined(history + [NotFoundCommitted(id)])
  {
    var after := history + [NotFoundCommitted(id)];
    forall i, j | 0 <= i < j < |after| && after[i].SubmitClaimed? && after[j].SubmitClaimed?
                  && after[i].batchId == after[j].batchId
      ensures exists k :: i < k < j && after[k] == NotFoundCommitted(after[i].batchId)
    {
      var k :| i < k < j && history[k] == NotFoundCommitted(history[i].batchId);
      assert after[k] == history[k];
    }
  }

  lemma OpenAfterAppend(history: seq<Entry>, entry: Entry, id: int)
    ensures SubmitOpen(history + [entry], id)
         == if entry.batchId == id then entry.SubmitClaimed? else SubmitOpen(history, id)
  {
    assert (history + [entry])[..|history|] == history;
  }

  lemma {:induction false} OpenIsKnown(s: State, history: seq<Entry>, id: int)
    requires forall i :: 0 <= i < |history| ==> history[i].batchId in s.db.batches
    ensures SubmitOpen(history, id) ==> id in s.db.batches
  {
    if history != [] {
      OpenIsKnown(s, history[..|history| - 1], id);
    }
  }

  // Each step

  lemma EntriesStable(a: Db, b: Db, history: seq<Entry>)
    requires forall i :: 0 <= i < |history| ==> EntryOk(a, history[i])
    requires DbGrows(a, b)
    ensures forall i :: 0 <= i < |history| ==> EntryOk(b, history[i])
  {
    forall i | 0 <= i < |history|
      ensures EntryOk(b, history[i])
    {
      assert EntryOk(a, history[i]);
      assert SameBatch(a.batches[history[i].batchId], b.batches[history[i].batchId]);
    }
  }

  /** Steps that add no entry and plan no batch again. */
  lemma QuietStep(s: State, t: State)
    requires HistoryOk(s) && t.history == s.history && DbGrows(s.db, t.db)
    requires forall id :: id in s.db.batches && t.db.batches[id].state.Planned? ==> s.db.batches[id].state.Planned?
    ensures HistoryOk(t)
  {
    EntriesStable(s.db, t.db, s.history);
    forall id | id in t.db.batches && t.db.batches[id].state.Planned?
      ensures !SubmitOpen(t.history, id)
    {
      if id !in s.db.batches {
        OpenIsKnown(s, s.history, id);
      }
    }
  }

  /** The claim that submits a planned batch. */
  lemma SubmitStep(s: State, t: State, id: int)
    requires HistoryOk(s) && DbGrows(s.db, t.db)
    requires id in s.db.batches && s.db.batches[id].state.Planned? && !t.db.batches[id].state.Planned?
    requires t.history == s.history + [SubmitClaimed(id, s.db.batches[id].utid, s.db.batches[id].document)]
    requires forall other :: other in t.db.batches && other != id ==>
               other in s.db.batches && t.db.batches[other] == s.db.batches[other]
    ensures HistoryOk(t)
  {
    var entry := SubmitClaimed(id, s.db.batches[id].utid, s.db.batches[id].document);
    assert EntryOk(s.db, entry);
    EntriesStable(s.db, t.db, s.history + [entry]);
    AppendSubmit(s.history, entry);
    forall other | other in t.db.batches && t.db.batches[other].state.Planned?
      ensures !SubmitOpen(t.history, other)
    {
      OpenAfterAppend(s.history, entry, other);
    }
  }

  lemma NotFoundStep(s: State, t: State, id: int)
    requires HistoryOk(s) && DbGrows(s.db, t.db) && id in s.db.batches
    requires t.history == s.history + [NotFoundCommitted(id)]
    requires forall other :: other in t.db.batches && other != id ==>
               other in s.db.batches && t.db.batches[other] == s.db.batches[other]
    ensures HistoryOk(t)
  {
    var entry := NotFoundCommitted(id);
    assert EntryOk(s.db, entry);
    EntriesStable(s.db, t.db, s.history + [entry]);
    AppendNotFound(s.history, id);
    forall other | other in t.db.batches && t.db.batches[other].state.Planned?
      ensures !SubmitOpen(t.history, other)
    {
      OpenAfterAppend(s.history, entry, other);
    }
  }

  lemma ClaimKeepsHistory(s: State, worker: string, id: int, leaseMicros: int, token: string)
    requires Inv(s) && HistoryOk(s) && id in s.db.batches && token !in s.tokens && !Terminal(s.db.batches[id].state)
    ensures HistoryOk(AfterClaim(s, worker, id, leaseMicros, token))
  {
    assert BatchOk(s.db, id, s.db.batches[id]);
    DbSteps.ClaimKeepsDbOk(s.db, id, worker, leaseMicros, token, s.now);
    Safety.ClaimStep(s, worker, id, leaseMicros, token);
    ClaimChangeKeepsHistory(s, AfterClaim(s, worker, id, leaseMicros, token), worker, id, leaseMicros, token);
  }

  lemma ClaimChangeKeepsHistory(s: State, t: State, worker: string, id: int, leaseMicros: int, token: string)
    requires HistoryOk(s) && Safety.ClaimChange(s, t, worker, id, leaseMicros, token) && DbGrows(s.db, t.db)
    ensures HistoryOk(t)
  {
    if t.db.batches[id].state.Submitting? {
      SubmitStep(s, t, id);
    } else {
      QuietStep(s, t);
    }
  }

  /** Only a committed not-found lookup plans a batch again. */
  lemma OnlyNotFoundPlans(db: Db, claim: Claim, now: int, event: Event)
    requires Apply(db, claim, now, event).Ok? && claim.batchId in db.batches && !event.ReferenceNotFound?
    requires claim.batchId in Apply(db, claim, now, event).value.batches
    ensures !Apply(db, claim, now, event).value.batches[claim.batchId].state.Planned?
  {
  }

  lemma CommitKeepsHistory(s: State, worker: string, backoff: Backoff, jitter: Int64)
    requires Inv(s) && HistoryOk(s) && PhaseOf(s, worker).Answered?
    ensures HistoryOk(AfterCommit(s, worker, backoff, jitter))
  {
    hide DbOk, StubOk, Agree, CallsOk, WorkersOk, Decide;
    var work, reply := PhaseOf(s, worker).work, PhaseOf(s, worker).reply;
    var event := Decide(work, reply, backoff, jitter);
    if Apply(s.db, ClaimOf(work), s.now, event).Ok? {
      EventKeepsHistory(s, AfterCommit(s, worker, backoff, jitter), ClaimOf(work), event);
    } else {
      QuietStep(s, AfterCommit(s, worker, backoff, jitter));
    }
  }

  lemma EventKeepsHistory(s: State, t: State, claim: Claim, event: Event)
    requires DbOk(s.db) && HistoryOk(s) && Apply(s.db, claim, s.now, event) == Ok(t.db)
    requires t.history == if event.ReferenceNotFound? then s.history + [NotFoundCommitted(claim.batchId)] else s.history
    ensures HistoryOk(t)
  {
    hide DbOk, Apply, DbGrows;
    DbSteps.EventKeepsDbOk(s.db, claim, s.now, event);
    if event.ReferenceNotFound? {
      NotFoundStep(s, t, claim.batchId);
    } else {
      OnlyNotFoundPlans(s.db, claim, s.now, event);
      QuietStep(s, t);
    }
  }

  lemma InsertionKeepsHistory(s: State, step: Step, backoff: Backoff)
    requires HistoryOk(s) && (step.PlanOne? || step.Determine?) && Enabled(s, step)
    requires DbGrows(s.db, Next(s, step, backoff).db)
    ensures HistoryOk(Next(s, step, backoff))
  {
    forall id | id in s.db.batches
      ensures Next(s, step, backoff).db.batches[id] == s.db.batches[id]
    {
      Fencing.InsertionsLeaveRows(s, step, backoff, id);
    }
    QuietStep(s, Next(s, step, backoff));
  }

  lemma StepKeepsHistory(s: State, step: Step, backoff: Backoff)
    requires Inv(s) && HistoryOk(s) && Enabled(s, step)
    ensures HistoryOk(Next(s, step, backoff))
  {
    hide Inv, HistoryOk, AfterClaim, AfterCommit, InsertFiling, InsertBatch, Serve;
    match step
    case ClaimBatch(worker, id, leaseMicros, token) => ClaimKeepsHistory(s, worker, id, leaseMicros, token);
    case Commit(worker, jitter) => CommitKeepsHistory(s, worker, backoff, jitter);
    case Determine(_, _) =>
      Safety.InsertionGrowsDb(s, step, backoff);
      InsertionKeepsHistory(s, step, backoff);
    case PlanOne(_, _) =>
      Safety.InsertionGrowsDb(s, step, backoff);
      InsertionKeepsHistory(s, step, backoff);
    case _ => LocalKeepsHistory(s, step, backoff);
  }

  lemma LocalKeepsHistory(s: State, step: Step, backoff: Backoff)
    requires HistoryOk(s) && Enabled(s, step)
    requires !step.PlanOne? && !step.Determine? && !step.ClaimBatch? && !step.Commit?
    ensures HistoryOk(Next(s, step, backoff))
  {
    Fencing.LocalsLeaveDb(s, step, backoff);
    LocalsLeaveHistory(s, step, backoff);
    QuietStep(s, Next(s, step, backoff));
  }

  lemma LocalsLeaveHistory(s: State, step: Step, backoff: Backoff)
    requires Enabled(s, step) && !step.ClaimBatch? && !step.Commit?
    ensures Next(s, step, backoff).history == s.history
  {
  }

  lemma {:induction false} RunKeepsHistory(start: int, steps: seq<Step>, backoff: Backoff)
    ensures Inv(Run(Initial(start), steps, backoff)) && HistoryOk(Run(Initial(start), steps, backoff))
  {
    if steps != [] {
      var n := |steps| - 1;
      RunKeepsHistory(start, steps[..n], backoff);
      var before := Run(Initial(start), steps[..n], backoff);
      if Enabled(before, steps[n]) {
        Safety.StepKeepsInv(before, steps[n], backoff);
        StepKeepsHistory(before, steps[n], backoff);
      }
    }
  }

  /**
   Between any two submit claims of the same batch there is a lookup that committed not found,
   and both submits carry the same UTID and the same document, the batch's own.
   */
  lemma SubmitsAreSeparated(s: State, backoff: Backoff, i: nat, j: nat)
    requires Reachable(s, backoff) && i < j < |s.history|
    requires s.history[i].SubmitClaimed? && s.history[j].SubmitClaimed? && s.history[i].batchId == s.history[j].batchId
    ensures exists k :: i < k < j && s.history[k] == NotFoundCommitted(s.history[i].batchId)
    ensures s.history[i] == s.history[j]
    ensures s.history[i].batchId in s.db.batches
    ensures s.history[i].utid == s.db.batches[s.history[i].batchId].utid
    ensures s.history[i].document == s.db.batches[s.history[i].batchId].document
  {
    var start: int, steps: seq<Step> :| s == Run(Initial(start), steps, backoff);
    RunKeepsHistory(start, steps, backoff);
    assert EntryOk(s.db, s.history[i]) && EntryOk(s.db, s.history[j]);
  }
}
