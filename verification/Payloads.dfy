/** In every reachable state each recorded submission was made from its batch's own document. */
module Payloads {
  import opened Retry
  import opened Intake
  import opened Stub
  import opened Filing
  import opened System
  import opened Invariant
  import Immutability
  import Safety
  import Termination

  /** The submission is what the receiver makes of the document, for some draw of identifiers and availability. */
  ghost predicate MadeFrom(document: Document, recorded: Submission) {
    && Decode(document).Ok?
    && var tx := Decode(document).value;
    exists draw: Draw :: |draw.recordIds| == |tx.records| && recorded == SubmissionFor(tx, draw)
  }

  ghost predicate AllMade(s: State) {
    forall id :: id in s.db.batches && IsRecorded(s.stub, s.db.batches[id]) ==>
      MadeFrom(s.db.batches[id].document, SubmissionOf(s.stub, s.db.batches[id]))
  }

  /** A batch that is planned now is not recorded: its UTID is new, and every recorded one is a batch's. */
  lemma NewBatchUnrecorded(s: State, step: Step, backoff: Backoff, id: int)
    requires Inv(s) && Enabled(s, step) && Inv(Next(s, step, backoff))
    requires id !in s.db.batches && id in Next(s, step, backoff).db.batches
    ensures !IsRecorded(s.stub, Next(s, step, backoff).db.batches[id])
  {
    if step.PlanOne? {
      Safety.InsertionGrowsDb(s, step, backoff);
      UnrecordedByGrowth(s.db, Next(s, step, backoff).db, s.stub, id);
    } else {
      Termination.NoRowElse(s, step, backoff, id);
    }
  }

  lemma UnrecordedByGrowth(a: Db, b: Db, stub: StubState, id: int)
    requires StubOk(a, stub) && DbGrows(a, b) && id !in a.batches && id in b.batches && BatchOk(b, id, b.batches[id])
    ensures !IsRecorded(stub, b.batches[id])
  {
    var k := FirmUtid(b.batches[id].firm, b.batches[id].utid);
    assert k in stub.byUtid ==> SubmissionOk(a, stub, k, stub.byUtid[k]);
  }

  /** Every row is an old one with its document, or not recorded. */
  ghost predicate OldOrUnrecorded(s: State, t: State, id: int)
    requires id in t.db.batches
  {
    if id in s.db.batches then SameBatch(s.db.batches[id], t.db.batches[id]) else !IsRecorded(s.stub, t.db.batches[id])
  }

  lemma RowIsOldOrUnrecorded(s: State, step: Step, backoff: Backoff, id: int)
    requires Inv(s) && Enabled(s, step) && Inv(Next(s, step, backoff)) && id in Next(s, step, backoff).db.batches
    ensures OldOrUnrecorded(s, Next(s, step, backoff), id)
  {
    if id in s.db.batches {
      Immutability.StepAllowed(s, step, backoff);
      assert Immutability.BatchUpdateAllowed(s.db.batches[id], Next(s, step, backoff).db.batches[id]);
    } else {
      NewBatchUnrecorded(s, step, backoff, id);
    }
  }

  lemma MadeStays(s: State, t: State)
    requires AllMade(s) && t.stub == s.stub && forall id :: id in t.db.batches ==> OldOrUnrecorded(s, t, id)
    ensures AllMade(t)
  {
    forall id | id in t.db.batches && IsRecorded(t.stub, t.db.batches[id])
      ensures MadeFrom(t.db.batches[id].document, SubmissionOf(t.stub, t.db.batches[id]))
    {
      assert OldOrUnrecorded(s, t, id);
    }
  }

  lemma QuietKeepsMade(s: State, step: Step, backoff: Backoff)
    requires Inv(s) && AllMade(s) && Enabled(s, step) && Inv(Next(s, step, backoff)) && !step.Arrive?
    ensures AllMade(Next(s, step, backoff))
  {
    StubUntouched(s, step, backoff);
    forall id | id in Next(s, step, backoff).db.batches
      ensures OldOrUnrecorded(s, Next(s, step, backoff), id)
    {
      RowIsOldOrUnrecorded(s, step, backoff, id);
    }
    MadeStays(s, Next(s, step, backoff));
  }

  lemma StubUntouched(s: State, step: Step, backoff: Backoff)
    requires Enabled(s, step) && !step.Arrive?
    ensures Next(s, step, backoff).stub == s.stub
  {
  }

  /** What a submit request leaves recorded: what was, and possibly the submission made of its document. */
  lemma RecordedNow(stub: StubState, document: Document, draw: Draw, k: FirmUtid)
    requires FreshDraw(stub, SubmitRequest(document), draw)
    requires k in ServeIntake(stub, document, draw).0.byUtid
    ensures var after := ServeIntake(stub, document, draw).0;
            || (k in stub.byUtid && after.byUtid[k] == stub.byUtid[k])
            || (MadeFrom(document, after.byUtid[k])
                && k == FirmUtid(Decode(document).value.firm, Decode(document).value.utid))
  {
    if k !in stub.byUtid {
      var tx := Decode(document).value;
      assert ServeIntake(stub, document, draw).0.byUtid[k] == SubmissionFor(tx, draw);
    }
  }

  lemma ArrivalMade(db: Db, stub: StubState, made: int, draw: Draw, id: int)
    requires DbOk(db) && made in db.batches && id in db.batches
    requires FreshDraw(stub, SubmitRequest(db.batches[made].document), draw)
    requires IsRecorded(stub, db.batches[id]) ==> MadeFrom(db.batches[id].document, SubmissionOf(stub, db.batches[id]))
    ensures var after := ServeIntake(stub, db.batches[made].document, draw).0;
            IsRecorded(after, db.batches[id]) ==> MadeFrom(db.batches[id].document, SubmissionOf(after, db.batches[id]))
  {
    assert BatchOk(db, id, db.batches[id]) && BatchOk(db, made, db.batches[made]);
    var k := FirmUtid(db.batches[id].firm, db.batches[id].utid);
    if k in ServeIntake(stub, db.batches[made].document, draw).0.byUtid {
      RecordedNow(stub, db.batches[made].document, draw, k);
    }
  }

  lemma ArriveKeepsMade(s: State, step: Step, backoff: Backoff)
    requires Inv(s) && AllMade(s) && Enabled(s, step) && step.Arrive?
    ensures AllMade(Next(s, step, backoff))
  {
    var t := Next(s, step, backoff);
    var call := s.calls[step.call];
    assert CallOk(s.db, s.stub, call);
    forall id | id in t.db.batches && IsRecorded(t.stub, t.db.batches[id])
      ensures MadeFrom(t.db.batches[id].document, SubmissionOf(t.stub, t.db.batches[id]))
    {
      if call.request.SubmitRequest? {
        ArrivalMade(s.db, s.stub, call.batchId, step.draw, id);
      }
    }
  }

  lemma {:induction false} RunKeepsMade(start: int, steps: seq<Step>, backoff: Backoff)
    ensures Inv(Run(Initial(start), steps, backoff)) && AllMade(Run(Initial(start), steps, backoff))
  {
    if steps != [] {
      var n := |steps| - 1;
      RunKeepsMade(start, steps[..n], backoff);
      var before := Run(Initial(start), steps[..n], backoff);
      if Enabled(before, steps[n]) {
        Safety.StepKeepsInv(before, steps[n], backoff);
        if steps[n].Arrive? {
          ArriveKeepsMade(before, steps[n], backoff);
        } else {
          QuietKeepsMade(before, steps[n], backoff);
        }
      }
    }
  }

  lemma ReachableMade(s: State, backoff: Backoff)
    requires Reachable(s, backoff)
    ensures AllMade(s)
  {
    var start: int, steps: seq<Step> :| s == Run(Initial(start), steps, backoff);
    RunKeepsMade(start, steps, backoff);
  }
}
