/** An acknowledgment is recorded for all filings of its batch or for none. */
module AllOrNothing {
  import opened Prelude
  import opened Client
  import opened Filing
  import opened Invariant
  import DbSteps

  /** The keys of the batch's own filings. */
  ghost function LinkedKeys(db: Db, row: Batch): set<string>
    requires LinksExist(db, row)
  {
    set i | 0 <= i < |row.links| :: db.filings[row.links[i]].key
  }

  predicate NoRepeats(outcomes: seq<Outcome>) {
    forall i, j :: 0 <= i < j < |outcomes| ==> outcomes[i].key != outcomes[j].key
  }

  predicate AllWellFormed(outcomes: seq<Outcome>) {
    forall i :: 0 <= i < |outcomes| ==> WellFormed(outcomes[i])
  }

  /**
   Well formed: an accepted record has an identifier and no reason, a rejected one has one of the
   four reasons only.
   */
  lemma WellFormedExactly(outcome: Outcome)
    ensures WellFormed(outcome) <==>
              || (outcome.irsRecordId != "" && outcome.reason == "")
              || (outcome.irsRecordId == ""
                  && (outcome.reason == "TIN_MISSING" || outcome.reason == "TIN_MALFORMED"
                      || outcome.reason == "TIN_INVALID" || outcome.reason == "AMOUNT_INVALID"))
  {
  }

  /** The caller holds a live claim of a batch that awaits its acknowledgment. */
  ghost predicate AwaitsFrom(db: Db, claim: Claim, now: int) {
    && claim.batchId in db.batches
    && Holds(db.batches[claim.batchId], claim.firm, claim.token, now)
    && db.batches[claim.batchId].state in {Submitted, AwaitingAck}
  }

  /** The outcomes are in bijection with the batch's filings. */
  ghost predicate OneOutcomePerFiling(db: Db, row: Batch, outcomes: seq<Outcome>) {
    LinksExist(db, row) && NoRepeats(outcomes) && OutcomeKeys(outcomes) == LinkedKeys(db, row)
  }

  lemma {:induction false} KeyCount(outcomes: seq<Outcome>)
    requires NoRepeats(outcomes)
    ensures |OutcomeKeys(outcomes)| == |outcomes|
  {
    if outcomes == [] {
      assert OutcomeKeys(outcomes) == {};
    } else {
      var n := |outcomes| - 1;
      KeyCount(outcomes[..n]);
      OutcomeKeysSnoc(outcomes[..n], outcomes[n]);
      assert outcomes == outcomes[..n] + [outcomes[n]];
    }
  }

  lemma OutcomeKeysSnoc(prefix: seq<Outcome>, last: Outcome)
    ensures OutcomeKeys(prefix + [last]) == OutcomeKeys(prefix) + {last.key}
  {
    var all := prefix + [last];
    forall k | k in OutcomeKeys(prefix) + {last.key}
      ensures k in OutcomeKeys(all)
    {
      if k == last.key {
        assert all[|prefix|].key == k;
      } else {
        var i :| 0 <= i < |prefix| && prefix[i].key == k;
        assert all[i].key == k;
      }
    }
  }

  lemma ExpectedKeys(db: Db, id: int)
    requires DbOk(db) && id in db.batches
    ensures LinksExist(db, db.batches[id]) && db.batches[id].links != []
    ensures var expected := Expected(db.filings, db.batches[id].links);
            && expected.Keys == LinkedKeys(db, db.batches[id])
            && OneToOne(expected) && |expected| == |db.batches[id].links|
  {
    hide FilingsOk, IndexesOk, DocumentOk, ReceiptOk, PendingOk;
    assert BatchOk(db, id, db.batches[id]);
    DbSteps.LinkedKeysDistinct(db, id);
    ExpectedMeaning(db.filings, db.batches[id].links);
    ExpectedSize(db.filings, db.batches[id].links);
    var row := db.batches[id];
    var expected := Expected(db.filings, row.links);
    forall k | k in expected
      ensures k in LinkedKeys(db, row)
    {
      var i :| 0 <= i < |row.links| && row.links[i] == expected[k];
      assert db.filings[row.links[i]].key == k;
    }
  }

  /** As many distinct known keys as there are filings: the keys are all of them. */
  lemma BijectionByCounting(expected: map<string, int>, outcomes: seq<Outcome>)
    requires NoRepeats(outcomes)
    ensures (|expected| == |outcomes| && OutcomeKeys(outcomes) <= expected.Keys)
       <==> OutcomeKeys(outcomes) == expected.Keys
  {
    KeyCount(outcomes);
    assert |expected.Keys| == |expected|;
    if |expected| == |outcomes| && OutcomeKeys(outcomes) <= expected.Keys {
      SubsetOfEqualSize(OutcomeKeys(outcomes), expected.Keys);
    }
  }

  lemma CompleteIsBijection(expected: map<string, int>, outcomes: seq<Outcome>)
    ensures (Complete(expected, outcomes) && |expected| == |outcomes|)
       <==> (AllWellFormed(outcomes) && NoRepeats(outcomes) && OutcomeKeys(outcomes) == expected.Keys)
  {
    if NoRepeats(outcomes) {
      BijectionByCounting(expected, outcomes);
    }
    if OutcomeKeys(outcomes) == expected.Keys {
      forall i | 0 <= i < |outcomes|
        ensures outcomes[i].key in expected
      {
        assert outcomes[i].key in OutcomeKeys(outcomes);
      }
    }
  }

  lemma ExpectedForItsFirm(db: Db, claim: Claim, now: int)
    requires DbOk(db) && claim.batchId in db.batches && db.batches[claim.batchId].firm == claim.firm
    ensures claim.batchId > 0 && LinksExist(db, db.batches[claim.batchId])
    ensures ExpectedFor(db, claim) == Expected(db.filings, db.batches[claim.batchId].links)
  {
    assert BatchOk(db, claim.batchId, db.batches[claim.batchId]);
  }

  /** Pending filings are what the loop needs of the rows, and a batch that is not acknowledged has only such. */
  lemma PendingFilings(db: Db, id: int, outcomes: seq<Outcome>)
    requires DbOk(db) && id in db.batches && !db.batches[id].state.BatchAcknowledged? && LinksExist(db, db.batches[id])
    requires InExpected(Expected(db.filings, db.batches[id].links), outcomes)
    ensures AllBatched(db.filings, Expected(db.filings, db.batches[id].links), outcomes)
  {
    assert BatchOk(db, id, db.batches[id]);
    ExpectedMeaning(db.filings, db.batches[id].links);
  }

  /**
   An acknowledgment is recorded if and only if the claim is live, the batch awaits it, and the
   outcomes are well formed and in bijection with the batch's filings.
   */
  lemma AcknowledgedExactlyWhenComplete(db: Db, claim: Claim, now: int, outcomes: seq<Outcome>)
    requires DbOk(db)
    ensures Acknowledge(db, claim, now, outcomes).Ok? <==>
              && AwaitsFrom(db, claim, now)
              && AllWellFormed(outcomes)
              && OneOutcomePerFiling(db, db.batches[claim.batchId], outcomes)
  {
    if Acknowledge(db, claim, now, outcomes).Ok? {
      DbSteps.AcknowledgeShape(db, claim, now, outcomes);
      ExpectedKeys(db, claim.batchId);
      CompleteIsBijection(Expected(db.filings, db.batches[claim.batchId].links), outcomes);
    } else if AwaitsFrom(db, claim, now) && AllWellFormed(outcomes)
              && OneOutcomePerFiling(db, db.batches[claim.batchId], outcomes) {
      CompleteIsRecorded(db, claim, now, outcomes);
    }
  }

  lemma CompleteIsRecorded(db: Db, claim: Claim, now: int, outcomes: seq<Outcome>)
    requires DbOk(db) && AwaitsFrom(db, claim, now) && AllWellFormed(outcomes)
    requires OneOutcomePerFiling(db, db.batches[claim.batchId], outcomes)
    ensures Acknowledge(db, claim, now, outcomes).Ok?
  {
    var expected := Expected(db.filings, db.batches[claim.batchId].links);
    ExpectedKeys(db, claim.batchId);
    CompleteIsBijection(expected, outcomes);
    ExpectedForItsFirm(db, claim, now);
    PendingFilings(db, claim.batchId, outcomes);
    RecordOutcomesMeaning(db.filings, expected, outcomes, now);
  }

  ghost predicate AllPending(db: Db, row: Batch) {
    LinksExist(db, row) && forall i :: 0 <= i < |row.links| ==> db.filings[row.links[i]].state.Batched?
  }

  lemma PendingExactly(db: Db, id: int, outcomes: seq<Outcome>)
    requires DbOk(db) && id in db.batches && OneOutcomePerFiling(db, db.batches[id], outcomes)
    requires InExpected(Expected(db.filings, db.batches[id].links), outcomes)
    ensures AllBatched(db.filings, Expected(db.filings, db.batches[id].links), outcomes) <==>
              AllPending(db, db.batches[id])
  {
    var links := db.batches[id].links;
    DbSteps.LinkedKeysDistinct(db, id);
    ExpectedMeaning(db.filings, links);
    forall j | 0 <= j < |links|
      ensures exists i :: 0 <= i < |outcomes| && Expected(db.filings, links)[outcomes[i].key] == links[j]
    {
      ExpectedAt(db.filings, links, j);
      assert db.filings[links[j]].key in LinkedKeys(db, db.batches[id]);
      var i :| 0 <= i < |outcomes| && outcomes[i].key == db.filings[links[j]].key;
    }
  }

  /**
   What is refused: outcomes that are not those of the firm's batch, or that a filing no longer
   waits for, before the claim is looked at; and then a claim that is lost or out of turn.
   */
  lemma RefusalExactly(db: Db, claim: Claim, now: int, outcomes: seq<Outcome>)
    requires DbOk(db) && Acknowledge(db, claim, now, outcomes).Err?
    ensures var error := Acknowledge(db, claim, now, outcomes).error;
            if claim.batchId in db.batches && db.batches[claim.batchId].firm == claim.firm
               && AllWellFormed(outcomes) && OneOutcomePerFiling(db, db.batches[claim.batchId], outcomes)
               && AllPending(db, db.batches[claim.batchId])
            then
              var lease := db.batches[claim.batchId].lease;
              if lease.Some? && lease.value.token == claim.token && now < lease.value.expiresAt
              then error == InvalidTransition else error == StaleClaim
            else error == Invariant
  {
    hide DbOk, Expected, LinkedKeys, AllBatched, Complete, RecordOutcomes;
    if claim.batchId in db.batches && db.batches[claim.batchId].firm == claim.firm {
      var row := db.batches[claim.batchId];
      var expected := ExpectedFor(db, claim);
      ExpectedForItsFirm(db, claim, now);
      ExpectedKeys(db, claim.batchId);
      CompleteIsBijection(expected, outcomes);
      RecordOutcomesMeaning(db.filings, expected, outcomes, now);
      if AllWellFormed(outcomes) && OneOutcomePerFiling(db, row, outcomes) {
        KeysExpected(expected, outcomes);
        PendingExactly(db, claim.batchId, outcomes);
      }
    }
  }

  lemma KeysExpected(expected: map<string, int>, outcomes: seq<Outcome>)
    requires Complete(expected, outcomes)
    ensures InExpected(expected, outcomes)
  {
  }

  /**
   Success gives each of the batch's filings exactly its own outcome, by key, acknowledges the
   batch, releases the claim, and touches nothing else.
   */
  lemma AcknowledgmentGivesEachItsOutcome(db: Db, claim: Claim, now: int, outcomes: seq<Outcome>, f: int)
    requires DbOk(db) && Acknowledge(db, claim, now, outcomes).Ok? && f in db.filings
    ensures claim.batchId in db.batches
    ensures var after := Acknowledge(db, claim, now, outcomes).value;
            && f in after.filings
            && (f in db.batches[claim.batchId].links ==>
                  && (exists i :: 0 <= i < |outcomes| && outcomes[i].key == db.filings[f].key)
                  && forall i :: 0 <= i < |outcomes| && outcomes[i].key == db.filings[f].key ==>
                       after.filings[f] == db.filings[f].(state := if outcomes[i].irsRecordId != ""
                                                                  then FilingAccepted(outcomes[i].irsRecordId, now)
                                                                  else FilingRejected(outcomes[i].reason, now)))
            && (f !in db.batches[claim.batchId].links ==> after.filings[f] == db.filings[f])
            && after == db.(filings := after.filings,
                            batches := db.batches[claim.batchId :=
                              db.batches[claim.batchId].(state := BatchAcknowledged, lease := None, lastError := "")])
  {
    DbSteps.AcknowledgeShape(db, claim, now, outcomes);
    AcknowledgedExactlyWhenComplete(db, claim, now, outcomes);
    var row := db.batches[claim.batchId];
    var after := Acknowledge(db, claim, now, outcomes).value;
    var expected := Expected(db.filings, row.links);
    ExpectedMeaning(db.filings, row.links);
    if f in row.links {
      var j :| 0 <= j < |row.links| && row.links[j] == f;
      DbSteps.LinkedKeysDistinct(db, claim.batchId);
      ExpectedAt(db.filings, row.links, j);
      assert db.filings[f].key in LinkedKeys(db, row);
      assert exists i :: 0 <= i < |outcomes| && outcomes[i].key == db.filings[f].key;
      forall i | 0 <= i < |outcomes| && outcomes[i].key == db.filings[f].key
        ensures after.filings[f] == db.filings[f].(state := if outcomes[i].irsRecordId != ""
                                                           then FilingAccepted(outcomes[i].irsRecordId, now)
                                                           else FilingRejected(outcomes[i].reason, now))
      {
        assert expected[outcomes[i].key] == f;
      }
    } else {
      forall i | 0 <= i < |outcomes|
        ensures expected[outcomes[i].key] != f
      {
        assert expected[outcomes[i].key] in row.links;
      }
    }
  }
}
