/** Inserting determined filings and planned batches keeps the database invariant. */
module InsertSteps {
  import opened Prelude
  import opened Intake
  import opened Filing
  import opened Planning
  import opened Invariant
  import Identity

  lemma InsertFilingGrows(db: Db, id: int, row: FilingRow)
    requires InsertFiling(db, id, row).Ok?
    ensures DbGrows(db, InsertFiling(db, id, row).value)
  {
  }

  lemma BatchOkUnderGrowth(a: Db, b: Db, id: int, row: Batch)
    requires BatchOk(a, id, row) && DbGrows(a, b)
    requires b.batchByReceipt == a.batchByReceipt
    requires forall f :: f in a.filings && f in a.batchOfFiling ==> b.filings[f] == a.filings[f]
    ensures BatchOk(b, id, row)
  {
    forall i | 0 <= i < |row.links|
      ensures row.links[i] in b.filings && b.filings[row.links[i]] == a.filings[row.links[i]]
      ensures row.links[i] in b.batchOfFiling && b.batchOfFiling[row.links[i]] == id
    {
      var link := row.links[i];
      assert link in a.filings && link in a.batchOfFiling && a.batchOfFiling[link] == id;
    }
    assert LinksOk(b, id, row);
    assert DocumentOk(b, row);
  }

  lemma InsertFilingFilings(db: Db, id: int, row: FilingRow)
    requires FilingsOk(db) && Prepared(row) && InsertFiling(db, id, row).Ok?
    ensures FilingsOk(InsertFiling(db, id, row).value)
  {
    var after := InsertFiling(db, id, row).value;
    assert id !in db.batchOfFiling;
    forall f | f in after.filings
      ensures FilingOk(after, f, after.filings[f])
    {
      if f != id {
        assert FilingOk(db, f, db.filings[f]);
      }
    }
  }

  lemma InsertFilingKeepsDbOk(db: Db, id: int, row: FilingRow)
    requires DbOk(db) && Prepared(row) && InsertFiling(db, id, row).Ok?
    ensures DbOk(InsertFiling(db, id, row).value) && DbGrows(db, InsertFiling(db, id, row).value)
  {
    hide BatchOk, DbGrows;
    var after := InsertFiling(db, id, row).value;
    InsertFilingGrows(db, id, row);
    InsertFilingFilings(db, id, row);
    forall b | b in after.batches
      ensures BatchOk(after, b, after.batches[b])
    {
      BatchOkUnderGrowth(db, after, b, db.batches[b]);
    }
  }

  // Planned batches

  lemma ReadyRecord(db: Db, group: PlannedGroup, i: nat)
    requires DbOk(db) && Plannable(db, group) && i < |group.links|
    ensures var row := db.filings[group.links[i]];
            && Prepared(row) && row.state.Ready?
            && row.firm == group.firm && row.client == group.client && row.taxYear == group.taxYear
            && FilingOk(db, group.links[i], row)
  {
    var link := group.links[i];
    assert link in db.filings && db.filings[link].state.Ready?;
    assert FilingOk(db, link, db.filings[link]);
  }

  /** The planner's document is acceptable to the receiver and decodes to the records of the group's filings. */
  lemma PlannedDocumentDecodes(db: Db, group: PlannedGroup)
    requires DbOk(db) && Plannable(db, group)
    requires Identity.UtidPattern(group.utid, group.firm) && group.submissionId != ""
    ensures Decode(DocumentFor(db, group))
         == Ok(Transmission(group.firm, group.client, "2025", group.utid, group.submissionId,
                            RecordsOf(db.filings, group.links)))
  {
    var records := RecordsOf(db.filings, group.links);
    ReadyRecord(db, group, 0);
    forall i, j | 0 <= i < j < |records|
      ensures records[i].recordId != records[j].recordId
    {
      ReadyRecord(db, group, i);
      ReadyRecord(db, group, j);
      assert group.links[i] != group.links[j];
    }
    CanonicalDocumentDecodes(group.firm, group.client, group.taxYear, group.utid, group.submissionId, records);
  }

  lemma InsertBatchGrows(db: Db, id: int, group: PlannedGroup, now: int)
    requires InsertBatch(db, id, group, now).Ok?
    ensures DbGrows(db, InsertBatch(db, id, group, now).value)
    ensures forall f :: f in db.filings && f in db.batchOfFiling ==>
              InsertBatch(db, id, group, now).value.filings[f] == db.filings[f]
  {
    hide DocumentFor;
    var after := InsertBatch(db, id, group, now).value;
    forall f | f in db.filings
      ensures SameFiling(db.filings[f], after.filings[f])
      ensures f in db.batchOfFiling ==>
                after.filings[f] == db.filings[f] && after.batchOfFiling[f] == db.batchOfFiling[f]
    {
      if f in group.links {
        var i :| 0 <= i < |group.links| && group.links[i] == f;
        assert f !in db.batchOfFiling;
      }
    }
  }

  lemma LinkedFilingOk(db: Db, id: int, group: PlannedGroup, now: int, f: int)
    requires DbOk(db) && InsertBatch(db, id, group, now).Ok? && f in db.filings
    ensures FilingOk(InsertBatch(db, id, group, now).value, f, InsertBatch(db, id, group, now).value.filings[f])
  {
    var after := InsertBatch(db, id, group, now).value;
    assert FilingOk(db, f, db.filings[f]);
    if f in group.links {
      var i :| 0 <= i < |group.links| && group.links[i] == f;
      assert db.filings[f].state.Ready?;
      assert after.filings[f] == db.filings[f].(state := Batched);
      assert RecordOf(after.filings[f]) == RecordOf(db.filings[f]);
    } else {
      assert after.filings[f] == db.filings[f];
    }
  }

  lemma NewBatchOk(db: Db, id: int, group: PlannedGroup, now: int)
    requires DbOk(db) && InsertBatch(db, id, group, now).Ok?
    requires id > 0 && Identity.UtidPattern(group.utid, group.firm) && group.submissionId != ""
    ensures BatchOk(InsertBatch(db, id, group, now).value, id, InsertBatch(db, id, group, now).value.batches[id])
  {
    var after := InsertBatch(db, id, group, now).value;
    var row := after.batches[id];
    PlannedDocumentDecodes(db, group);
    forall i | 0 <= i < |row.links|
      ensures row.links[i] in after.filings
      ensures after.filings[row.links[i]] == db.filings[row.links[i]].(state := Batched)
      ensures row.links[i] in after.batchOfFiling && after.batchOfFiling[row.links[i]] == id
      ensures RecordOf(after.filings[row.links[i]]) == RecordOf(db.filings[row.links[i]])
      ensures after.filings[row.links[i]].firm == row.firm && after.filings[row.links[i]].client == row.client
    {
      var link := row.links[i];
      ReadyRecord(db, group, i);
      assert link in row.links;
    }
    assert LinksOk(after, id, row);
    assert DocumentOk(after, row);
    assert |group.utid| >= 36;
  }

  lemma InsertBatchKeepsDbOk(db: Db, id: int, group: PlannedGroup, now: int)
    requires DbOk(db) && InsertBatch(db, id, group, now).Ok?
    requires id > 0 && Identity.UtidPattern(group.utid, group.firm) && group.submissionId != ""
    ensures DbOk(InsertBatch(db, id, group, now).value) && DbGrows(db, InsertBatch(db, id, group, now).value)
  {
    var after := InsertBatch(db, id, group, now).value;
    InsertBatchGrows(db, id, group, now);
    NewBatchOk(db, id, group, now);
    forall f | f in after.filings
      ensures FilingOk(after, f, after.filings[f])
    {
      LinkedFilingOk(db, id, group, now, f);
    }
    forall b | b in after.batches
      ensures BatchOk(after, b, after.batches[b])
    {
      if b != id {
        BatchOkUnderGrowth(db, after, b, db.batches[b]);
      }
    }
    InsertBatchLinks(db, id, group, now);
    InsertBatchIndexes(db, id, group, now);
  }

  lemma InsertBatchLinks(db: Db, id: int, group: PlannedGroup, now: int)
    requires FilingsOk(db) && InsertBatch(db, id, group, now).Ok?
    ensures var after := InsertBatch(db, id, group, now).value;
            && (forall k :: k in after.filingByKey ==> after.filingByKey[k] in after.filings)
            && (forall f :: f in after.batchOfFiling ==>
                  && f in after.filings && after.batchOfFiling[f] in after.batches
                  && f in after.batches[after.batchOfFiling[f]].links)
  {
    hide FilingOk, DocumentFor;
    var after := InsertBatch(db, id, group, now).value;
    forall f | f in after.batchOfFiling
      ensures f in after.filings && after.batchOfFiling[f] in after.batches
      ensures f in after.batches[after.batchOfFiling[f]].links
    {
      if f in group.links {
        var i :| 0 <= i < |group.links| && group.links[i] == f;
      }
    }
  }

  lemma InsertBatchIndexes(db: Db, id: int, group: PlannedGroup, now: int)
    requires IndexesOk(db) && InsertBatch(db, id, group, now).Ok?
    ensures IndexesOk(InsertBatch(db, id, group, now).value)
  {
    hide DocumentFor, Plannable;
  }
}
