/** The rows a plan leaves in the tables are the ones its loop staged: batches, links and slots, joined by UTID. */
module PlanStaged {
  import opened Stub
  import opened Filing
  import opened Planning
  import opened Invariant
  import opened Planner
  import opened PlanInsert
  import DbSteps
  import InsertSteps
  import Safety

  /** Batch `id` carries the staged columns and links the given filings, one for each slot, in order. */
  ghost predicate Carries(db: Db, firm: string, staged: StagedBatch, filings: seq<int>, id: int) {
    && id in db.batches
    && var row := db.batches[id];
    && row.firm == firm && row.client == staged.client && row.taxYear == staged.taxYear && row.utid == staged.utid
    && row.document == staged.document && row.digest == Sha256(staged.document)
    && row.state.Planned? && row.links == filings
    && FirmUtid(firm, staged.utid) in db.batchByUtid && db.batchByUtid[FirmUtid(firm, staged.utid)] == id
    && forall i :: 0 <= i < |filings| ==> filings[i] in db.batchOfFiling && db.batchOfFiling[filings[i]] == id
  }

  /** A later insertion leaves it so. */
  lemma CarriesStable(a: Db, b: Db, firm: string, staged: StagedBatch, filings: seq<int>, id: int)
    requires Carries(a, firm, staged, filings, id) && DbGrows(a, b) && b.batches[id] == a.batches[id]
    ensures Carries(b, firm, staged, filings, id)
  {
    forall i | 0 <= i < |filings|
      ensures filings[i] in b.batchOfFiling && b.batchOfFiling[filings[i]] == id
    {
      var f := filings[i];
      assert f in a.batchOfFiling && a.batchOfFiling[f] == id;
    }
  }

  lemma InsertedCarries(db: Db, sha: Hash, firm: string, group: seq<Pending>, sequence: int, id: int, now: int)
    requires DbOk(db) && IsHash(sha) && Loadable(group)
    requires AllReflect(db, firm, group) && OneClientGroup(group) && DistinctIds(group)
    requires InsertBatch(db, id, GroupOf(sha, firm, group), now).Ok?
    ensures Carries(InsertBatch(db, id, GroupOf(sha, firm, group), now).value, firm,
                    Staged(sha, firm, group, sequence), Ids(group), id)
  {
    GroupIsReady(db, firm, group);
    RowIsStaged(db, sha, firm, group, sequence, id, now);
  }

  lemma RowIsStaged(db: Db, sha: Hash, firm: string, group: seq<Pending>, sequence: int, id: int, now: int)
    requires IsHash(sha) && Loadable(group) && InsertBatch(db, id, GroupOf(sha, firm, group), now).Ok?
    requires RecordsOf(db.filings, Ids(group)) == GroupRecords(group)
    ensures Carries(InsertBatch(db, id, GroupOf(sha, firm, group), now).value, firm,
                    Staged(sha, firm, group, sequence), Ids(group), id)
  {
    var planned := GroupOf(sha, firm, group);
    assert DocumentFor(db, planned) == Staged(sha, firm, group, sequence).document;
  }

  /** Rows are never touched by what a plan inserts beside them. */
  ghost predicate RowsKept(a: Db, b: Db) {
    && DbGrows(a, b)
    && forall id :: id in a.batches ==> id in b.batches && b.batches[id] == a.batches[id]
  }

  lemma RowsKeptThrough(a: Db, b: Db, c: Db)
    requires RowsKept(a, b) && RowsKept(b, c)
    ensures RowsKept(a, c)
  {
    DbSteps.DbGrowsThrough(a, b, c);
  }

  lemma InsertionKeepsRows(db: Db, id: int, group: PlannedGroup, now: int)
    requires DbOk(db) && InsertBatch(db, id, group, now).Ok?
    ensures RowsKept(db, InsertBatch(db, id, group, now).value)
  {
    InsertSteps.InsertBatchGrows(db, id, group, now);
    Safety.BatchInsertionOnlyAdds(db, id, group, now);
  }

  lemma FirstStep(db: Db, sha: Hash, preimages: set<string>, firm: string, groups: seq<seq<Pending>>, firstId: int,
                  now: int)
    requires groups != [] && Insertable(db, sha, preimages, firm, groups, firstId)
    ensures Loadable(groups[0]) && InsertBatch(db, firstId, GroupOf(sha, firm, groups[0]), now).Ok?
    ensures Insertable(InsertBatch(db, firstId, GroupOf(sha, firm, groups[0]), now).value, sha, preimages, firm,
                       groups[1..], firstId + 1)
  {
    TailOfPlan(firm, groups, preimages);
    InsertFirst(db, sha, preimages, firm, groups[0], groups[1..], firstId, now);
  }

  lemma {:induction false} PlanKeepsRows(db: Db, sha: Hash, preimages: set<string>, firm: string,
                                         groups: seq<seq<Pending>>, firstId: int, now: int)
    requires Insertable(db, sha, preimages, firm, groups, firstId)
    ensures AllLoadable(groups) && InsertAll(db, sha, firm, groups, firstId, now).Ok?
    ensures RowsKept(db, InsertAll(db, sha, firm, groups, firstId, now).value)
    decreases |groups|
  {
    if groups != [] {
      FirstStep(db, sha, preimages, firm, groups, firstId, now);
      var next := InsertBatch(db, firstId, GroupOf(sha, firm, groups[0]), now).value;
      InsertionKeepsRows(db, firstId, GroupOf(sha, firm, groups[0]), now);
      PlanKeepsRows(next, sha, preimages, firm, groups[1..], firstId + 1, now);
      LoadableFirst(groups);
      RowsKeptThrough(db, next, InsertAll(next, sha, firm, groups[1..], firstId + 1, now).value);
    } else {
      DbSteps.DbGrowsReflexive(db);
    }
  }

  lemma FirstCarries(db: Db, sha: Hash, preimages: set<string>, firm: string, groups: seq<seq<Pending>>, firstId: int,
                     now: int, sequence: int)
    requires groups != [] && Insertable(db, sha, preimages, firm, groups, firstId) && Loadable(groups[0])
    requires InsertBatch(db, firstId, GroupOf(sha, firm, groups[0]), now).Ok?
    ensures Carries(InsertBatch(db, firstId, GroupOf(sha, firm, groups[0]), now).value, firm,
                    Staged(sha, firm, groups[0], sequence), Ids(groups[0]), firstId)
  {
    SplitRows(db, firm, groups[0], Concat(groups[1..]));
    InsertedCarries(db, sha, firm, groups[0], sequence, firstId, now);
  }

  lemma InsertRest(db: Db, sha: Hash, firm: string, groups: seq<seq<Pending>>, firstId: int, now: int)
    requires groups != [] && IsHash(sha) && AllLoadable(groups)
    requires InsertBatch(db, firstId, GroupOf(sha, firm, groups[0]), now).Ok?
    ensures AllLoadable(groups[1..])
    ensures InsertAll(db, sha, firm, groups, firstId, now)
         == InsertAll(InsertBatch(db, firstId, GroupOf(sha, firm, groups[0]), now).value, sha, firm, groups[1..],
                      firstId + 1, now)
  {
  }

  /** The batch of the first group, at the end of the plan. */
  lemma HeadCarries(db: Db, sha: Hash, preimages: set<string>, firm: string, groups: seq<seq<Pending>>, firstId: int,
                    now: int, sequence: int)
    requires groups != [] && Insertable(db, sha, preimages, firm, groups, firstId)
    ensures AllLoadable(groups) && InsertAll(db, sha, firm, groups, firstId, now).Ok?
    ensures Carries(InsertAll(db, sha, firm, groups, firstId, now).value, firm,
                    Staged(sha, firm, groups[0], sequence), Ids(groups[0]), firstId)
  {
    FirstStep(db, sha, preimages, firm, groups, firstId, now);
    var next := InsertBatch(db, firstId, GroupOf(sha, firm, groups[0]), now).value;
    PlanKeepsRows(next, sha, preimages, firm, groups[1..], firstId + 1, now);
    LoadableFirst(groups);
    InsertRest(db, sha, firm, groups, firstId, now);
    FirstCarries(db, sha, preimages, firm, groups, firstId, now, sequence);
    CarriesStable(next, InsertAll(db, sha, firm, groups, firstId, now).value, firm,
                  Staged(sha, firm, groups[0], sequence), Ids(groups[0]), firstId);
  }

  lemma TailStep(db: Db, sha: Hash, preimages: set<string>, firm: string, groups: seq<seq<Pending>>, firstId: int,
                 now: int)
    requires groups != [] && Insertable(db, sha, preimages, firm, groups, firstId)
    ensures IsHash(sha) && Loadable(groups[0]) && InsertBatch(db, firstId, GroupOf(sha, firm, groups[0]), now).Ok?
    ensures var next := InsertBatch(db, firstId, GroupOf(sha, firm, groups[0]), now).value;
            && Insertable(next, sha, preimages, firm, groups[1..], firstId + 1)
            && AllLoadable(groups) && AllLoadable(groups[1..])
            && InsertAll(db, sha, firm, groups, firstId, now)
                == InsertAll(next, sha, firm, groups[1..], firstId + 1, now)
  {
    FirstStep(db, sha, preimages, firm, groups, firstId, now);
    var next := InsertBatch(db, firstId, GroupOf(sha, firm, groups[0]), now).value;
    PlanKeepsRows(next, sha, preimages, firm, groups[1..], firstId + 1, now);
    LoadableFirst(groups);
    InsertRest(db, sha, firm, groups, firstId, now);
  }

  /** The batch of group `g`, at the end of the plan. */
  lemma {:induction false} PlanCarries(db: Db, sha: Hash, preimages: set<string>, firm: string,
                                       groups: seq<seq<Pending>>, firstId: int, now: int, g: nat, sequence: int)
    requires Insertable(db, sha, preimages, firm, groups, firstId) && g < |groups|
    ensures AllLoadable(groups) && InsertAll(db, sha, firm, groups, firstId, now).Ok?
    ensures Carries(InsertAll(db, sha, firm, groups, firstId, now).value, firm,
                    Staged(sha, firm, groups[g], sequence), Ids(groups[g]), firstId + g)
    decreases g
  {
    hide Insertable, Carries, InsertBatch, InsertAll, Staged;
    if g == 0 {
      HeadCarries(db, sha, preimages, firm, groups, firstId, now, sequence);
    } else {
      TailStep(db, sha, preimages, firm, groups, firstId, now);
      var next := InsertBatch(db, firstId, GroupOf(sha, firm, groups[0]), now).value;
      PlanCarries(next, sha, preimages, firm, groups[1..], firstId + 1, now, g - 1, sequence);
    }
  }

  /**
   The batches the loop stages are the batches of the table, with consecutive identities, each with
   its group's filings.
   */
  lemma PlanIsStaged(db: Db, sha: Hash, preimages: set<string>, firm: string, groups: seq<seq<Pending>>, firstId: int,
                     now: int, g: nat)
    requires Insertable(db, sha, preimages, firm, groups, firstId) && g < |groups|
    ensures AllLoadable(groups) && InsertAll(db, sha, firm, groups, firstId, now).Ok?
    ensures Carries(InsertAll(db, sha, firm, groups, firstId, now).value, firm,
                    StagedBatches(sha, firm, groups)[g], Ids(groups[g]), firstId + g)
  {
    hide Insertable, Carries, InsertAll, Staged;
    PlanCarries(db, sha, preimages, firm, groups, firstId, now, g, g + 1);
  }

  /** No two batches of one plan have the same UTID. */
  lemma PlanUtidsDiffer(db: Db, sha: Hash, preimages: set<string>, firm: string, groups: seq<seq<Pending>>,
                        firstId: int, g: nat, h: nat)
    requires Insertable(db, sha, preimages, firm, groups, firstId) && g < h < |groups|
    ensures AllLoadable(groups) && UtidOf(sha, firm, groups[g]) != UtidOf(sha, firm, groups[h])
  {
    PlanCarries(db, sha, preimages, firm, groups, firstId, 0, g, 0);
    PlanCarries(db, sha, preimages, firm, groups, firstId, 0, h, 0);
  }

  /** The join of the staged links with the batches, on firm and UTID, finds the one batch and slot of the filing. */
  ghost predicate Joined(db: Db, firm: string, link: StagedLink) {
    && FirmUtid(firm, link.utid) in db.batchByUtid
    && var id := db.batchByUtid[FirmUtid(firm, link.utid)];
    && id in db.batches && db.batches[id].client == link.client
    && 1 <= link.slot <= |db.batches[id].links| && db.batches[id].links[link.slot - 1] == link.filingId
    && link.filingId in db.batchOfFiling && db.batchOfFiling[link.filingId] == id
  }

  ghost predicate AllJoined(db: Db, firm: string, links: seq<StagedLink>) {
    forall j :: 0 <= j < |links| ==> Joined(db, firm, links[j])
  }

  lemma GroupJoined(db: Db, sha: Hash, firm: string, group: seq<Pending>, id: int)
    requires IsHash(sha) && Loadable(group) && OneClientGroup(group)
    requires Carries(db, firm, Staged(sha, firm, group, 0), Ids(group), id)
    ensures AllJoined(db, firm, LinksFor(sha, firm, group))
  {
    forall j | 0 <= j < |group|
      ensures Joined(db, firm, LinksFor(sha, firm, group)[j])
    {
      assert Ids(group)[j] == group[j].id && group[j].client == group[0].client;
    }
  }

  lemma JoinedTogether(db: Db, firm: string, a: seq<StagedLink>, b: seq<StagedLink>)
    requires AllJoined(db, firm, a) && AllJoined(db, firm, b)
    ensures AllJoined(db, firm, a + b)
  {
  }

  /** The staged links are joined when each group's are. */
  lemma {:induction false} LinksJoined(db: Db, sha: Hash, firm: string, groups: seq<seq<Pending>>)
    requires IsHash(sha) && AllLoadable(groups)
    requires forall g :: 0 <= g < |groups| ==> AllJoined(db, firm, LinksFor(sha, firm, groups[g]))
    ensures AllJoined(db, firm, StagedLinks(sha, firm, groups))
  {
    if groups != [] {
      var n := |groups| - 1;
      LinksJoined(db, sha, firm, groups[..n]);
      JoinedTogether(db, firm, StagedLinks(sha, firm, groups[..n]), LinksFor(sha, firm, groups[n]));
    }
  }

  lemma PlanGroupJoined(db: Db, sha: Hash, preimages: set<string>, firm: string, groups: seq<seq<Pending>>,
                        firstId: int, now: int, g: nat)
    requires Insertable(db, sha, preimages, firm, groups, firstId) && g < |groups|
    ensures AllLoadable(groups) && InsertAll(db, sha, firm, groups, firstId, now).Ok?
    ensures AllJoined(InsertAll(db, sha, firm, groups, firstId, now).value, firm, LinksFor(sha, firm, groups[g]))
  {
    hide AllJoined, Carries, InsertAll, Staged, DbOk;
    PlanCarries(db, sha, preimages, firm, groups, firstId, now, g, 0);
    GroupJoined(InsertAll(db, sha, firm, groups, firstId, now).value, sha, firm, groups[g], firstId + g);
  }

  /** Every link the loop stages is in the tables, under the batch with its UTID and in its slot. */
  lemma PlanLinksJoined(db: Db, sha: Hash, preimages: set<string>, firm: string, groups: seq<seq<Pending>>,
                        firstId: int, now: int)
    requires Insertable(db, sha, preimages, firm, groups, firstId)
    ensures AllLoadable(groups) && InsertAll(db, sha, firm, groups, firstId, now).Ok?
    ensures AllJoined(InsertAll(db, sha, firm, groups, firstId, now).value, firm, StagedLinks(sha, firm, groups))
  {
    hide AllJoined, InsertAll, DbOk;
    PlanKeepsRows(db, sha, preimages, firm, groups, firstId, now);
    forall g | 0 <= g < |groups|
      ensures AllJoined(InsertAll(db, sha, firm, groups, firstId, now).value, firm, LinksFor(sha, firm, groups[g]))
    {
      PlanGroupJoined(db, sha, preimages, firm, groups, firstId, now, g);
    }
    LinksJoined(InsertAll(db, sha, firm, groups, firstId, now).value, sha, firm, groups);
  }
}
