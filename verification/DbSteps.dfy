/** Every transaction keeps the database invariant and only lets rows grow. */
module DbSteps {
  import opened Prelude
  import opened Client
  import opened Filing
  import opened Planning
  import opened Invariant

  lemma DbGrowsReflexive(db: Db)
    ensures DbGrows(db, db)
  {
  }

  lemma DbGrowsThrough(a: Db, b: Db, c: Db)
    requires DbGrows(a, b) && DbGrows(b, c)
    ensures DbGrows(a, c)
  {
  }

  /** A row keeps its immutable columns and any receipt it has; the receipt index gains at most its receipt. */
  ghost predicate RowStep(db: Db, id: int, row: Batch, byReceipt: map<string, int>) {
    && id in db.batches && SameBatch(db.batches[id], row)
    && (if row.receipt == db.batches[id].receipt then byReceipt == db.batchByReceipt
        else && db.batches[id].receipt.None? && row.receipt.Some? && row.receipt.value != ""
             && (row.receipt.value in db.batchByReceipt ==> db.batchByReceipt[row.receipt.value] == id)
             && byReceipt == db.batchByReceipt[row.receipt.value := id])
    && (Unsubmitted(row.state) ==> row.receipt.None?)
    && (row.state in {Submitted, AwaitingAck, BatchAcknowledged} ==> row.receipt.Some?)
  }

  function WithRow(db: Db, id: int, row: Batch, byReceipt: map<string, int>): Db {
    db.(batches := db.batches[id := row], batchByReceipt := byReceipt)
  }

  lemma WithRowFilings(db: Db, id: int, row: Batch, byReceipt: map<string, int>)
    requires FilingsOk(db) && RowStep(db, id, row, byReceipt)
    ensures FilingsOk(WithRow(db, id, row, byReceipt))
    ensures DbGrows(db, WithRow(db, id, row, byReceipt))
  {
    var after := WithRow(db, id, row, byReceipt);
    forall k | k in after.filings
      ensures FilingOk(after, k, after.filings[k])
    {
      assert FilingOk(db, k, db.filings[k]);
    }
  }

  lemma WithRowIndexes(db: Db, id: int, row: Batch, byReceipt: map<string, int>)
    requires IndexesOk(db) && RowStep(db, id, row, byReceipt) && BatchOk(db, id, db.batches[id])
    ensures IndexesOk(WithRow(db, id, row, byReceipt))
  {
    var after := WithRow(db, id, row, byReceipt);
    forall r | r in byReceipt
      ensures byReceipt[r] in after.batches && after.batches[byReceipt[r]].receipt == Some(r)
    {
    }
  }

  lemma OtherRowOk(db: Db, id: int, row: Batch, byReceipt: map<string, int>, other: int)
    requires DbOk(db) && RowStep(db, id, row, byReceipt) && other in db.batches && other != id
    ensures BatchOk(WithRow(db, id, row, byReceipt), other, db.batches[other])
  {
    assert BatchOk(db, other, db.batches[other]);
    assert ReceiptOk(WithRow(db, id, row, byReceipt), other, db.batches[other]);
  }

  lemma ThisRowOk(db: Db, id: int, row: Batch, byReceipt: map<string, int>)
    requires DbOk(db) && RowStep(db, id, row, byReceipt)
    requires row.state.BatchAcknowledged? ==> db.batches[id].state.BatchAcknowledged?
    requires db.batches[id].state.BatchAcknowledged? ==> row.state.BatchAcknowledged?
    ensures BatchOk(WithRow(db, id, row, byReceipt), id, row)
  {
    assert BatchOk(db, id, db.batches[id]);
    assert ReceiptOk(WithRow(db, id, row, byReceipt), id, row);
  }

  /** Changing one row that is not acknowledged, to one that is not either. */
  lemma RowStepKeepsDbOk(db: Db, id: int, row: Batch, byReceipt: map<string, int>)
    requires DbOk(db) && RowStep(db, id, row, byReceipt)
    requires !row.state.BatchAcknowledged? && !db.batches[id].state.BatchAcknowledged?
    ensures DbOk(WithRow(db, id, row, byReceipt))
    ensures DbGrows(db, WithRow(db, id, row, byReceipt))
  {
    assert BatchOk(db, id, db.batches[id]);
    WithRowFilings(db, id, row, byReceipt);
    WithRowIndexes(db, id, row, byReceipt);
    ThisRowOk(db, id, row, byReceipt);
    var after := WithRow(db, id, row, byReceipt);
    forall other | other in after.batches
      ensures BatchOk(after, other, after.batches[other])
    {
      if other != id {
        OtherRowOk(db, id, row, byReceipt, other);
      }
    }
  }

  /** A claim of a batch whose payload hash is right always yields work, in a state with an action. */
  lemma ClaimYieldsWork(id: int, batch: Batch, owner: string, leaseMicros: int, token: string, now: int)
    requires batch.digest == Sha256(batch.document) && !Terminal(batch.state)
    ensures var (row, result) := ClaimRow(id, batch, owner, leaseMicros, token, now);
            && result.Ok?
            && row == Leased(batch, owner, leaseMicros, token, now)
            && ActionFor(row.state) == Some(result.value.action) && !row.state.Submitted?
            && result.value == WorkOf(id, row, result.value.action, token)
  {
  }

  lemma LeasedIsRowStep(db: Db, id: int, owner: string, leaseMicros: int, token: string, now: int)
    requires id in db.batches && ReceiptOk(db, id, db.batches[id]) && !Terminal(db.batches[id].state)
    ensures RowStep(db, id, Leased(db.batches[id], owner, leaseMicros, token, now), db.batchByReceipt)
  {
  }

  lemma ClaimKeepsDbOk(db: Db, id: int, owner: string, leaseMicros: int, token: string, now: int)
    requires DbOk(db) && id in db.batches && !Terminal(db.batches[id].state)
    ensures db.batches[id].digest == Sha256(db.batches[id].document)
    ensures var row := Leased(db.batches[id], owner, leaseMicros, token, now);
            && DbOk(db.(batches := db.batches[id := row]))
            && DbGrows(db, db.(batches := db.batches[id := row]))
  {
    assert BatchOk(db, id, db.batches[id]);
    var row := Leased(db.batches[id], owner, leaseMicros, token, now);
    LeasedIsRowStep(db, id, owner, leaseMicros, token, now);
    RowStepKeepsDbOk(db, id, row, db.batchByReceipt);
    assert WithRow(db, id, row, db.batchByReceipt) == db.(batches := db.batches[id := row]);
  }

  // Events

  /** What a committed event leaves alone: every other batch, its filings, and who linked what. */
  ghost predicate OnlyBatch(a: Db, b: Db, id: int) {
    && id in a.batches && id in b.batches
    && b.batches.Keys == a.batches.Keys
    && (forall other :: other in a.batches && other != id ==> b.batches[other] == a.batches[other])
    && b.filings.Keys == a.filings.Keys
    && (forall f :: f in a.filings && b.filings[f] != a.filings[f] ==> f in a.batchOfFiling && a.batchOfFiling[f] == id)
    && b.batchOfFiling == a.batchOfFiling && b.batchByUtid == a.batchByUtid && b.filingByKey == a.filingByKey
  }

  predicate Simple(event: Event) {
    !event.CompleteAcknowledgment?
  }

  /** A change of the claimed row, under a live claim, that releases the claim and does not acknowledge. */
  ghost predicate ClaimedRowStep(db: Db, claim: Claim, now: int, after: Db) {
    && claim.batchId in db.batches && claim.batchId in after.batches
    && Holds(db.batches[claim.batchId], claim.firm, claim.token, now)
    && !db.batches[claim.batchId].state.BatchAcknowledged? && !after.batches[claim.batchId].state.BatchAcknowledged?
    && RowStep(db, claim.batchId, after.batches[claim.batchId], after.batchByReceipt)
    && after == WithRow(db, claim.batchId, after.batches[claim.batchId], after.batchByReceipt)
    && after.batches[claim.batchId].lease.None?
  }

  ghost predicate ClaimedReceiptOk(db: Db, claim: Claim) {
    claim.batchId in db.batches ==> ReceiptOk(db, claim.batchId, db.batches[claim.batchId])
  }

  lemma TransitionIsRowStep(db: Db, claim: Claim, now: int, states: set<BatchState>, newState: BatchState, delay: int,
                            receiptId: string, code: string, setSubmitted: bool)
    requires ClaimedReceiptOk(db, claim)
    requires Transition(db, claim, now, states, newState, delay, receiptId, code, setSubmitted).Ok?
    requires BatchAcknowledged !in states && !newState.BatchAcknowledged?
    requires receiptId != "" ==> newState.Submitted? && states <= {Submitting, SubmitUnknown}
    requires receiptId == "" && newState in {Submitted, AwaitingAck} ==> states <= {Submitted, AwaitingAck}
    ensures ClaimedRowStep(db, claim, now,
              Transition(db, claim, now, states, newState, delay, receiptId, code, setSubmitted).value)
  {
    var held := db.batches[claim.batchId];
    assert held.state in states;
    assert receiptId != "" ==> Unsubmitted(held.state);
  }

  lemma PostponeIsRowStep(db: Db, claim: Claim, now: int, delay: int, code: string)
    requires ClaimedReceiptOk(db, claim) && Postpone(db, claim, now, delay, code).Ok?
    ensures ClaimedRowStep(db, claim, now, Postpone(db, claim, now, delay, code).value)
  {
  }

  lemma TerminateIsRowStep(db: Db, claim: Claim, now: int, code: string, exhausted: bool)
    requires ClaimedReceiptOk(db, claim) && Terminate(db, claim, now, code, exhausted).Ok?
    ensures ClaimedRowStep(db, claim, now, Terminate(db, claim, now, code, exhausted).value)
  {
  }

  /** Every event but an acknowledgment changes one row, not to acknowledged. */
  lemma SimpleEventIsRowStep(db: Db, claim: Claim, now: int, event: Event)
    requires ClaimedReceiptOk(db, claim) && Simple(event) && Apply(db, claim, now, event).Ok?
    ensures ClaimedRowStep(db, claim, now, Apply(db, claim, now, event).value)
  {
    match event
    case SubmitAccepted(receiptId, delay) =>
      TransitionIsRowStep(db, claim, now, {Submitting}, Submitted, delay, receiptId, "", true);
    case SubmitOutcomeUnknown(delay, code) =>
      TransitionIsRowStep(db, claim, now, {Submitting}, SubmitUnknown, delay, "", code, false);
    case ReferenceFound(receiptId, delay) =>
      TransitionIsRowStep(db, claim, now, {SubmitUnknown}, Submitted, delay, receiptId, "", true);
    case ReferenceNotFound(delay, code) =>
      TransitionIsRowStep(db, claim, now, {SubmitUnknown}, Planned, delay, "", code, false);
    case AcknowledgmentPending(delay, code) =>
      TransitionIsRowStep(db, claim, now, {Submitted, AwaitingAck}, AwaitingAck, delay, "", code, false);
    case StatusUnavailable(delay, code) => PostponeIsRowStep(db, claim, now, delay, code);
    case RetryExhausted(code) => TerminateIsRowStep(db, claim, now, code, true);
    case FailInvariant(code) => TerminateIsRowStep(db, claim, now, code, false);
  }

  lemma ClaimedReceipt(db: Db, claim: Claim)
    requires DbOk(db)
    ensures ClaimedReceiptOk(db, claim)
  {
    if claim.batchId in db.batches {
      assert BatchOk(db, claim.batchId, db.batches[claim.batchId]);
    }
  }

  lemma SimpleEventKeepsDbOk(db: Db, claim: Claim, now: int, event: Event)
    requires DbOk(db) && Simple(event) && Apply(db, claim, now, event).Ok?
    ensures var after := Apply(db, claim, now, event).value;
            && DbOk(after) && DbGrows(db, after) && OnlyBatch(db, after, claim.batchId)
  {
    hide DbOk, DbGrows;
    ClaimedReceipt(db, claim);
    SimpleEventIsRowStep(db, claim, now, event);
    var after := Apply(db, claim, now, event).value;
    RowStepKeepsDbOk(db, claim.batchId, after.batches[claim.batchId], after.batchByReceipt);
  }

  // Acknowledgments

  lemma LinkedKeysDistinct(db: Db, id: int)
    requires DbOk(db) && id in db.batches
    ensures LinksExist(db, db.batches[id]) && KeysDistinct(db.filings, db.batches[id].links)
  {
    var row := db.batches[id];
    assert BatchOk(db, id, row);
    forall i, j | 0 <= i < j < |row.links|
      ensures db.filings[row.links[i]].key != db.filings[row.links[j]].key
    {
      assert FilingOk(db, row.links[i], db.filings[row.links[i]]);
      assert FilingOk(db, row.links[j], db.filings[row.links[j]]);
    }
  }

  /** What a successful acknowledgment comes from and does. */
  lemma AcknowledgeShape(db: Db, claim: Claim, now: int, outcomes: seq<Outcome>)
    requires DbOk(db) && Acknowledge(db, claim, now, outcomes).Ok?
    ensures var after := Acknowledge(db, claim, now, outcomes).value;
            && claim.batchId in db.batches
            && Holds(db.batches[claim.batchId], claim.firm, claim.token, now)
            && db.batches[claim.batchId].state in {Submitted, AwaitingAck}
            && LinksExist(db, db.batches[claim.batchId])
            && var expected := Expected(db.filings, db.batches[claim.batchId].links);
            && OneToOne(expected) && |expected| == |outcomes| == |db.batches[claim.batchId].links|
            && Complete(expected, outcomes) && AllBatched(db.filings, expected, outcomes)
            && Recorded(db.filings, after.filings, expected, outcomes, now)
            && after == db.(filings := after.filings,
                            batches := db.batches[claim.batchId :=
                              db.batches[claim.batchId].(state := BatchAcknowledged, lease := None, lastError := "")])
  {
    var row := db.batches[claim.batchId];
    LinkedKeysDistinct(db, claim.batchId);
    var expected := Expected(db.filings, row.links);
    ExpectedMeaning(db.filings, row.links);
    ExpectedSize(db.filings, row.links);
    RecordOutcomesMeaning(db.filings, expected, outcomes, now);
  }

  lemma AcknowledgeRecords(db: Db, claim: Claim, now: int, outcomes: seq<Outcome>)
    requires DbOk(db) && Acknowledge(db, claim, now, outcomes).Ok?
    ensures claim.batchId in db.batches && LinksExist(db, db.batches[claim.batchId])
    ensures var after := Acknowledge(db, claim, now, outcomes).value;
            && Recorded(db.filings, after.filings, Expected(db.filings, db.batches[claim.batchId].links), outcomes, now)
            && claim.batchId in after.batches && SameBatch(db.batches[claim.batchId], after.batches[claim.batchId])
  {
    AcknowledgeShape(db, claim, now, outcomes);
  }

  /** A changed filing is one of the expected ones, was pending, and now has a result. */
  lemma RecordedTouches(before: map<int, FilingRow>, after: map<int, FilingRow>, expected: map<string, int>,
                        outcomes: seq<Outcome>, now: int, f: int)
    requires Recorded(before, after, expected, outcomes, now) && AllBatched(before, expected, outcomes)
    requires f in before
    ensures f in after && SameFiling(before[f], after[f])
    ensures after[f] != before[f] ==>
              && f in expected.Values && before[f].state.Batched?
              && (after[f].state.FilingAccepted? || after[f].state.FilingRejected?)
  {
    if i :| 0 <= i < |outcomes| && expected[outcomes[i].key] == f {
      assert expected[outcomes[i].key] in after;
    } else {
      assert after[f] == before[f];
    }
  }

  ghost predicate FilingStep(db: Db, after: Db, batch: int, f: int) {
    && f in db.filings && f in after.filings
    && SameFiling(db.filings[f], after.filings[f])
    && (after.filings[f] != db.filings[f] ==>
          && f in db.batchOfFiling && db.batchOfFiling[f] == batch
          && db.filings[f].state.Batched?
          && (after.filings[f].state.FilingAccepted? || after.filings[f].state.FilingRejected?))
  }

  lemma ExpectedAreLinked(db: Db, id: int, f: int)
    requires DbOk(db) && id in db.batches && LinksExist(db, db.batches[id])
    requires f in Expected(db.filings, db.batches[id].links).Values
    ensures f in db.batchOfFiling && db.batchOfFiling[f] == id
  {
    ExpectedMeaning(db.filings, db.batches[id].links);
    assert LinksOk(db, id, db.batches[id]) by {
      assert BatchOk(db, id, db.batches[id]);
    }
    var k :| k in Expected(db.filings, db.batches[id].links) && Expected(db.filings, db.batches[id].links)[k] == f;
    var i :| 0 <= i < |db.batches[id].links| && db.batches[id].links[i] == f;
  }

  /** Only filings linked to the batch change, and each change sets a result. */
  lemma AcknowledgeTouches(db: Db, claim: Claim, now: int, outcomes: seq<Outcome>, f: int)
    requires DbOk(db) && Acknowledge(db, claim, now, outcomes).Ok? && f in db.filings
    ensures FilingStep(db, Acknowledge(db, claim, now, outcomes).value, claim.batchId, f)
  {
    AcknowledgeShape(db, claim, now, outcomes);
    var after := Acknowledge(db, claim, now, outcomes).value;
    var expected := Expected(db.filings, db.batches[claim.batchId].links);
    RecordedTouches(db.filings, after.filings, expected, outcomes, now, f);
    if after.filings[f] != db.filings[f] {
      ExpectedAreLinked(db, claim.batchId, f);
    }
  }

  lemma FilingStepKeepsFilingOk(db: Db, after: Db, batch: int, f: int)
    requires FilingStep(db, after, batch, f) && FilingOk(db, f, db.filings[f])
    requires after.filingByKey == db.filingByKey && after.batchOfFiling == db.batchOfFiling
    ensures FilingOk(after, f, after.filings[f])
  {
    assert RecordOf(after.filings[f]) == RecordOf(db.filings[f]);
  }

  /** One batch row and some of its filings change; nothing else does. */
  ghost predicate ResultChange(db: Db, after: Db, id: int) {
    && id in db.batches && id in after.batches && SameBatch(db.batches[id], after.batches[id])
    && after.batches[id].receipt == db.batches[id].receipt
    && after == db.(filings := after.filings, batches := db.batches[id := after.batches[id]])
    && after.filings.Keys == db.filings.Keys
    && forall f :: f in db.filings ==> FilingStep(db, after, id, f)
  }

  lemma ResultChangeGrows(db: Db, after: Db, id: int)
    requires ResultChange(db, after, id)
    ensures DbGrows(db, after) && OnlyBatch(db, after, id)
  {
    forall f | f in db.filings
      ensures SameFiling(db.filings[f], after.filings[f])
      ensures after.filings[f] != db.filings[f] ==> f in db.batchOfFiling && db.batchOfFiling[f] == id
    {
      assert FilingStep(db, after, id, f);
    }
  }

  lemma ResultChangeIndexes(db: Db, after: Db, id: int)
    requires ResultChange(db, after, id) && IndexesOk(db)
    ensures IndexesOk(after)
  {
  }

  lemma ResultChangeFilings(db: Db, after: Db, id: int)
    requires ResultChange(db, after, id) && FilingsOk(db)
    ensures FilingsOk(after)
  {
    forall f | f in after.filings
      ensures FilingOk(after, f, after.filings[f])
    {
      assert FilingStep(db, after, id, f);
      FilingStepKeepsFilingOk(db, after, id, f);
    }
  }

  lemma AcknowledgeKeepsFilings(db: Db, claim: Claim, now: int, outcomes: seq<Outcome>)
    requires DbOk(db) && Acknowledge(db, claim, now, outcomes).Ok?
    ensures var after := Acknowledge(db, claim, now, outcomes).value;
            FilingsOk(after) && IndexesOk(after) && DbGrows(db, after) && OnlyBatch(db, after, claim.batchId)
  {
    AcknowledgeShape(db, claim, now, outcomes);
    var after := Acknowledge(db, claim, now, outcomes).value;
    forall f | f in db.filings
      ensures FilingStep(db, after, claim.batchId, f)
    {
      AcknowledgeTouches(db, claim, now, outcomes, f);
    }
    assert ResultChange(db, after, claim.batchId);
    ResultChangeGrows(db, after, claim.batchId);
    ResultChangeIndexes(db, after, claim.batchId);
    ResultChangeFilings(db, after, claim.batchId);
  }

  lemma AcknowledgeKeepsDbOk(db: Db, claim: Claim, now: int, outcomes: seq<Outcome>)
    requires DbOk(db) && Acknowledge(db, claim, now, outcomes).Ok?
    ensures var after := Acknowledge(db, claim, now, outcomes).value;
            && DbOk(after) && DbGrows(db, after) && OnlyBatch(db, after, claim.batchId)
            && after.batches[claim.batchId].lease.None?
  {
    AcknowledgeShape(db, claim, now, outcomes);
    AcknowledgeKeepsFilings(db, claim, now, outcomes);
    var after := Acknowledge(db, claim, now, outcomes).value;
    forall id | id in after.batches
      ensures BatchOk(after, id, after.batches[id])
    {
      BatchOkAfterAcknowledge(db, after, claim.batchId, id);
    }
  }

  lemma LinksAfterAcknowledge(db: Db, after: Db, row: Batch, i: nat)
    requires DbGrows(db, after) && i < |row.links| && row.links[i] in db.filings
    ensures row.links[i] in after.filings
    ensures RecordOf(after.filings[row.links[i]]) == RecordOf(db.filings[row.links[i]])
    ensures after.filings[row.links[i]].firm == db.filings[row.links[i]].firm
    ensures after.filings[row.links[i]].client == db.filings[row.links[i]].client
  {
    var link := row.links[i];
    assert link in db.filings;
    assert SameFiling(db.filings[link], after.filings[link]);
  }

  lemma BatchOkAfterAcknowledge(db: Db, after: Db, acknowledged: int, id: int)
    requires DbGrows(db, after) && OnlyBatch(db, after, acknowledged)
    requires after.batchByReceipt == db.batchByReceipt
    requires acknowledged in after.batches
          && after.batches[acknowledged].state.BatchAcknowledged?
          && after.batches[acknowledged].receipt == db.batches[acknowledged].receipt
          && db.batches[acknowledged].receipt.Some?
    requires id in db.batches && BatchOk(db, id, db.batches[id])
    ensures BatchOk(after, id, after.batches[id])
  {
    var row, row' := db.batches[id], after.batches[id];
    assert SameBatch(row, row');
    forall i | 0 <= i < |row.links|
      ensures row.links[i] in after.filings
      ensures RecordOf(after.filings[row.links[i]]) == RecordOf(db.filings[row.links[i]])
      ensures after.filings[row.links[i]].firm == row.firm && after.filings[row.links[i]].client == row.client
      ensures id != acknowledged ==> after.filings[row.links[i]] == db.filings[row.links[i]]
    {
      LinksAfterAcknowledge(db, after, row, i);
      var link := row.links[i];
      assert db.batchOfFiling[link] == id;
    }
    assert ReceiptOk(after, id, row');
    assert LinksOk(after, id, row');
    assert DocumentOk(after, row');
  }

  /** Whatever the event, a committed event keeps the database invariant and releases the claim. */
  lemma EventKeepsDbOk(db: Db, claim: Claim, now: int, event: Event)
    requires DbOk(db) && Apply(db, claim, now, event).Ok?
    ensures var after := Apply(db, claim, now, event).value;
            && DbOk(after) && DbGrows(db, after) && OnlyBatch(db, after, claim.batchId)
            && Holds(db.batches[claim.batchId], claim.firm, claim.token, now)
            && after.batches[claim.batchId].lease.None?
  {
    if event.CompleteAcknowledgment? {
      AcknowledgeShape(db, claim, now, event.outcomes);
      AcknowledgeKeepsDbOk(db, claim, now, event.outcomes);
    } else {
      SimpleEventKeepsDbOk(db, claim, now, event);
      ClaimedReceipt(db, claim);
      SimpleEventIsRowStep(db, claim, now, event);
    }
  }
}
