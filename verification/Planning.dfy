/** The insertion of determined filings and of planned batches, with the constraints the tables enforce. */
module Planning {
  import opened Prelude
  import opened Intake
  import opened Stub
  import opened Filing
  import Identity

  /** `COALESCE(recipient_tin, '')` */
  function TinText(tin: Option<string>): string {
    if tin.Some? then tin.value else ""
  }

  /** The record the planner builds for a filing. */
  function RecordOf(row: FilingRow): FilingRecord {
    FilingRecord(row.key, row.displayName, TinText(row.tin), row.reportable, row.withheld)
  }

  /** What determination guarantees of the filings it inserts: a ready one is acceptable to the receiver. */
  predicate Prepared(row: FilingRow) {
    && row.firm != "" && row.client != "" && row.key != "" && row.taxYear == 2025
    && (row.state.Ready? || row.state.Blocked?)
    && (row.state.Ready? ==>
          && Accepts(RecordOf(row))
          && row.reportable <= INT64_MAX && 0 <= row.withheld <= INT64_MAX)
  }

  /** One inserted filing row; the unique index on the filing key may refuse it. */
  function InsertFiling(db: Db, id: int, row: FilingRow): Result<Db, StoreError> {
    if id in db.filings || row.key in db.filingByKey then Err(Conflict)
    else Ok(db.(filings := db.filings[id := row], filingByKey := db.filingByKey[row.key := id]))
  }

  predicate LinksReady(db: Db, links: seq<int>) {
    forall i :: 0 <= i < |links| ==>
      && links[i] in db.filings && links[i] !in db.batchOfFiling
      && db.filings[links[i]].state.Ready?
  }

  predicate OneClient(db: Db, firm: string, client: string, taxYear: int, links: seq<int>)
    requires LinksReady(db, links)
  {
    forall i :: 0 <= i < |links| ==>
      var row := db.filings[links[i]];
      row.firm == firm && row.client == client && row.taxYear == taxYear
  }

  function RecordsOf(filings: map<int, FilingRow>, links: seq<int>): (r: seq<FilingRecord>)
    requires forall i :: 0 <= i < |links| ==> links[i] in filings
    ensures |r| == |links|
  {
    seq(|links|, i requires 0 <= i < |links| => RecordOf(filings[links[i]]))
  }

  function MarkBatched(filings: map<int, FilingRow>, links: seq<int>): (after: map<int, FilingRow>)
    ensures after.Keys == filings.Keys
  {
    map id | id in filings :: if id in links then filings[id].(state := Batched) else filings[id]
  }

  function Link(batchOfFiling: map<int, int>, links: seq<int>, batch: int): map<int, int> {
    batchOfFiling + map id | id in links :: batch
  }

  /** A new batch row. */
  function NewBatch(firm: string, client: string, taxYear: int, utid: string, document: Document, links: seq<int>,
                    now: int): Batch
  {
    Batch(firm, client, taxYear, utid, document, Sha256(document), links, Planned, None, now, 0, None, None, None, "")
  }

  datatype PlannedGroup = PlannedGroup(firm: string, client: string, taxYear: int, utid: string, submissionId: string,
                                       links: seq<int>)

  /** The group is what the planner's query and partition deliver: ready, unbatched filings of one client. */
  predicate Plannable(db: Db, group: PlannedGroup) {
    && 1 <= |group.links| <= 100
    && Distinct(group.links)
    && LinksReady(db, group.links)
    && OneClient(db, group.firm, group.client, group.taxYear, group.links)
    && AllSendable(RecordsOf(db.filings, group.links))
  }

  function DocumentFor(db: Db, group: PlannedGroup): Document
    requires Plannable(db, group)
  {
    CanonicalDocument(group.firm, group.client, group.taxYear, group.utid, group.submissionId,
                      RecordsOf(db.filings, group.links))
  }

  /** One planned batch with its links, its filings marked as batched; the unique index on the UTID may refuse it. */
  function InsertBatch(db: Db, id: int, group: PlannedGroup, now: int): Result<Db, StoreError> {
    if id in db.batches || FirmUtid(group.firm, group.utid) in db.batchByUtid then Err(Conflict)
    else if !Plannable(db, group) then Err(Invariant)
    else
      var row := NewBatch(group.firm, group.client, group.taxYear, group.utid, DocumentFor(db, group), group.links,
                          now);
      Ok(db.(batches := db.batches[id := row],
             batchByUtid := db.batchByUtid[FirmUtid(group.firm, group.utid) := id],
             filings := MarkBatched(db.filings, group.links),
             batchOfFiling := Link(db.batchOfFiling, group.links, id)))
  }

  /** A filing is inserted unless its key or id is taken, and nothing else changes. */
  lemma FilingInsertedExactly(db: Db, id: int, row: FilingRow)
    ensures InsertFiling(db, id, row).Err? <==> id in db.filings || row.key in db.filingByKey
    ensures InsertFiling(db, id, row).Err? ==> InsertFiling(db, id, row).error == Conflict
    ensures InsertFiling(db, id, row).Ok? ==>
              var after := InsertFiling(db, id, row).value;
              && id in after.filings && after.filings[id] == row && after.filings - {id} == db.filings
              && row.key in after.filingByKey && after.filingByKey[row.key] == id
              && after.filingByKey - {row.key} == db.filingByKey
              && after == db.(filings := after.filings, filingByKey := after.filingByKey)
  {
  }

  /** A batch is refused for a taken id or UTID, and for filings that are not ready, unbatched ones of its client. */
  lemma BatchRefusedExactly(db: Db, id: int, group: PlannedGroup, now: int)
    ensures InsertBatch(db, id, group, now) == Err(Conflict) <==>
              id in db.batches || FirmUtid(group.firm, group.utid) in db.batchByUtid
    ensures InsertBatch(db, id, group, now) == Err(Invariant) <==>
              && id !in db.batches && FirmUtid(group.firm, group.utid) !in db.batchByUtid
              && !Plannable(db, group)
    ensures InsertBatch(db, id, group, now).Err? ==> InsertBatch(db, id, group, now).error in {Conflict, Invariant}
  {
  }

  /**
   An inserted batch is planned and due at once, with no attempt, receipt or lease; its filings, and
   no others, are batched and linked to it.
   */
  lemma BatchInsertedExactly(db: Db, id: int, group: PlannedGroup, now: int)
    requires InsertBatch(db, id, group, now).Ok?
    ensures var after := InsertBatch(db, id, group, now).value;
            && id in after.batches && after.batches - {id} == db.batches
            && var row := after.batches[id];
            && (row.firm, row.client, row.taxYear, row.utid) == (group.firm, group.client, group.taxYear, group.utid)
            && row.links == group.links && row.digest == Sha256(row.document)
            && row.state == Planned && row.nextActionAt == now && row.attempts == 0 && row.lastError == ""
            && row.receipt.None? && row.lease.None? && row.submittedAt.None? && row.exhaustedAt.None?
            && after.batchByUtid == db.batchByUtid[FirmUtid(group.firm, group.utid) := id]
            && after.filings.Keys == db.filings.Keys
            && (forall f :: f in db.filings ==>
                  after.filings[f] == if f in group.links then db.filings[f].(state := Batched) else db.filings[f])
            && after.batchOfFiling.Keys == db.batchOfFiling.Keys + set f | f in group.links
            && (forall f :: f in after.batchOfFiling ==>
                  if f in group.links then after.batchOfFiling[f] == id
                  else after.batchOfFiling[f] == db.batchOfFiling[f])
            && after.filingByKey == db.filingByKey && after.batchByReceipt == db.batchByReceipt
  {
  }

  /** The document of an inserted batch lists, slot by slot, the filings' columns; a missing TIN is empty. */
  lemma DocumentExactly(db: Db, id: int, group: PlannedGroup, now: int)
    requires InsertBatch(db, id, group, now).Ok?
    requires group.taxYear == 2025 && DistinctRecords(RecordsOf(db.filings, group.links))
    requires Identity.UtidPattern(group.utid, group.firm) && group.submissionId != ""
    requires group.firm != "" && group.client != ""
    ensures var document := InsertBatch(db, id, group, now).value.batches[id].document;
            && Decode(document).Ok?
            && var tx := Decode(document).value;
            && (tx.firm, tx.client, tx.taxYear, tx.utid, tx.submissionId)
               == (group.firm, group.client, "2025", group.utid, group.submissionId)
            && |tx.records| == |group.links|
            && forall i :: 0 <= i < |group.links| ==>
                 var filing := db.filings[group.links[i]];
                 tx.records[i] == FilingRecord(filing.key, filing.displayName,
                                               if filing.tin.Some? then filing.tin.value else "",
                                               filing.reportable, filing.withheld)
  {
    CanonicalDocumentDecodes(group.firm, group.client, group.taxYear, group.utid, group.submissionId,
                             RecordsOf(db.filings, group.links));
  }
}
