/** Inserting the planner's batches: no group is ever refused, every ready filing is linked, and a replay finds none. */
module PlanInsert {
  import opened Prelude
  import opened Intake
  import opened Stub
  import opened Filing
  import opened Planning
  import opened Invariant
  import opened Planner
  import InsertSteps
  import Identity

  /** The row says what its filing says. */
  ghost predicate Reflects(db: Db, firm: string, row: Pending) {
    && row.id in db.filings && row.id !in db.batchOfFiling && db.filings[row.id].state.Ready?
    && var filing := db.filings[row.id];
    && filing.firm == firm && filing.client == row.client && filing.taxYear == row.taxYear
    && Identity.IsDigest(row.digest) && filing.key == Identity.Hex(row.digest)
    && RecordOf(filing) == row.record
  }

  ghost predicate AllReflect(db: Db, firm: string, rows: seq<Pending>) {
    forall i :: 0 <= i < |rows| ==> Reflects(db, firm, rows[i])
  }

  predicate DistinctIds(rows: seq<Pending>) {
    forall i, j :: 0 <= i < j < |rows| ==> rows[i].id != rows[j].id
  }

  ghost predicate NeedsBatch(db: Db, firm: string, determination: int, id: int) {
    && id in db.filings && db.filings[id].firm == firm && db.filings[id].determination == determination
    && db.filings[id].state.Ready? && id !in db.batchOfFiling
  }

  /** What the planning query returns, up to its order: every ready filing that no batch has, once. */
  ghost predicate QueryRows(db: Db, firm: string, determination: int, rows: seq<Pending>) {
    && AllReflect(db, firm, rows) && DistinctIds(rows)
    && (forall i :: 0 <= i < |rows| ==> NeedsBatch(db, firm, determination, rows[i].id))
    && forall id :: NeedsBatch(db, firm, determination, id) ==> exists i :: 0 <= i < |rows| && rows[i].id == id
  }

  /** Which filings the query returns, and what it returns of each. */
  lemma QueryExactly(db: Db, firm: string, determination: int, rows: seq<Pending>, id: int)
    requires QueryRows(db, firm, determination, rows)
    ensures (exists i :: 0 <= i < |rows| && rows[i].id == id) <==>
              && id in db.filings && db.filings[id].firm == firm && db.filings[id].determination == determination
              && db.filings[id].state.Ready? && id !in db.batchOfFiling
    ensures forall i :: 0 <= i < |rows| && rows[i].id == id ==>
              var filing := db.filings[id];
              && rows[i].client == filing.client && rows[i].taxYear == filing.taxYear
              && |rows[i].digest| == 32 && Identity.ByteString(rows[i].digest)
              && Identity.Hex(rows[i].digest) == filing.key
              && rows[i].record == FilingRecord(filing.key, filing.displayName,
                                                if filing.tin.Some? then filing.tin.value else "",
                                                filing.reportable, filing.withheld)
    ensures forall i, j :: 0 <= i < j < |rows| ==> rows[i].id != rows[j].id
  {
    forall i | 0 <= i < |rows| && rows[i].id == id
      ensures NeedsBatch(db, firm, determination, id) && Reflects(db, firm, rows[i])
    {
    }
    if id in db.filings && db.filings[id].firm == firm && db.filings[id].determination == determination
       && db.filings[id].state.Ready? && id !in db.batchOfFiling {
      assert NeedsBatch(db, firm, determination, id);
    }
  }

  function Ids(group: seq<Pending>): (ids: seq<int>)
    ensures |ids| == |group|
  {
    seq(|group|, i requires 0 <= i < |group| => group[i].id)
  }

  /** The group as the insertion takes it. */
  ghost function GroupOf(sha: Hash, firm: string, group: seq<Pending>): PlannedGroup
    requires IsHash(sha) && Loadable(group)
  {
    PlannedGroup(firm, group[0].client, group[0].taxYear, UtidOf(sha, firm, group),
                 Identity.SubmissionId(Identity.Patched(DigestOf(sha, firm, group))), Ids(group))
  }

  // A group is plannable

  lemma ReflectedIsReady(db: Db, firm: string, row: Pending)
    requires DbOk(db) && Reflects(db, firm, row)
    ensures row.taxYear == 2025 && Sendable(row.record) && row.record.recordId == Identity.Hex(row.digest)
  {
    assert FilingOk(db, row.id, db.filings[row.id]);
  }

  lemma GroupIsLoadable(db: Db, firm: string, group: seq<Pending>)
    requires DbOk(db) && AllReflect(db, firm, group) && group != []
    ensures Loadable(group)
    ensures forall i :: 0 <= i < |group| ==> group[i].taxYear == 2025
  {
    forall i | 0 <= i < |group|
      ensures Sendable(group[i].record) && group[i].taxYear == 2025 && Identity.IsDigest(group[i].digest)
    {
      assert Reflects(db, firm, group[i]);
      ReflectedIsReady(db, firm, group[i]);
    }
  }

  lemma GroupIsReady(db: Db, firm: string, group: seq<Pending>)
    requires DbOk(db) && AllReflect(db, firm, group) && OneClientGroup(group) && DistinctIds(group)
    ensures Distinct(Ids(group)) && LinksReady(db, Ids(group))
    ensures group[0].taxYear == 2025 && OneClient(db, firm, group[0].client, 2025, Ids(group))
    ensures RecordsOf(db.filings, Ids(group)) == GroupRecords(group)
  {
    GroupIsLoadable(db, firm, group);
    var ids := Ids(group);
    forall i | 0 <= i < |ids|
      ensures ids[i] in db.filings && ids[i] !in db.batchOfFiling && db.filings[ids[i]].state.Ready?
      ensures RecordOf(db.filings[ids[i]]) == GroupRecords(group)[i]
      ensures db.filings[ids[i]].firm == firm && db.filings[ids[i]].client == group[0].client
      ensures db.filings[ids[i]].taxYear == 2025
    {
      assert Reflects(db, firm, group[i]);
    }
  }

  lemma GroupIsPlannable(db: Db, sha: Hash, firm: string, group: seq<Pending>)
    requires DbOk(db) && IsHash(sha) && AllReflect(db, firm, group) && OneClientGroup(group) && DistinctIds(group)
    ensures Loadable(group) && Plannable(db, GroupOf(sha, firm, group))
  {
    GroupIsLoadable(db, firm, group);
    GroupIsReady(db, firm, group);
    assert GroupOf(sha, firm, group).links == Ids(group);
  }

  // A group's UTID is new

  ghost function PreimageOf(firm: string, client: string, keys: seq<string>): string
    requires Identity.AllDigests(keys)
  {
    Identity.Preimage(Identity.BatchParts(firm, client, 2025, keys))
  }

  /** The UTID was made from the keys of the linked filings, in slot order. */
  ghost predicate DerivedUtid(db: Db, sha: Hash, preimages: set<string>, row: Batch, keys: seq<string>)
    requires IsHash(sha)
  {
    && Identity.AllDigests(keys) && |keys| == |row.links|
    && (forall i :: 0 <= i < |keys| ==>
          row.links[i] in db.filings && db.filings[row.links[i]].key == Identity.Hex(keys[i]))
    && Identity.AllShort(Identity.BatchParts(row.firm, row.client, 2025, keys))
    && PreimageOf(row.firm, row.client, keys) in preimages
    && row.utid == Identity.BatchUtid(sha, row.firm, row.client, 2025, keys)
  }

  /** Every batch's UTID is derived, and on these preimages the truncated hash has no collisions. */
  ghost predicate UtidsDerived(db: Db, sha: Hash, preimages: set<string>) {
    && IsHash(sha) && Identity.UuidCollisionFree(sha, preimages)
    && forall id :: id in db.batches ==> exists keys :: DerivedUtid(db, sha, preimages, db.batches[id], keys)
  }

  /** The group's own preimage is one of those considered. */
  ghost predicate Hashable(firm: string, group: seq<Pending>, preimages: set<string>) {
    && group != [] && KeysAreDigests(group)
    && Identity.AllShort(Identity.BatchParts(firm, group[0].client, 2025, DigestsOf(group)))
    && PreimageOf(firm, group[0].client, DigestsOf(group)) in preimages
  }

  lemma SameUtidSameKeys(sha: Hash, preimages: set<string>, firm: string, client: string, keys: seq<string>,
                         client': string, keys': seq<string>)
    requires IsHash(sha) && Identity.UuidCollisionFree(sha, preimages)
    requires Identity.AllDigests(keys) && Identity.AllShort(Identity.BatchParts(firm, client, 2025, keys))
    requires Identity.AllDigests(keys') && Identity.AllShort(Identity.BatchParts(firm, client', 2025, keys'))
    requires PreimageOf(firm, client, keys) in preimages && PreimageOf(firm, client', keys') in preimages
    requires Identity.BatchUtid(sha, firm, client, 2025, keys) == Identity.BatchUtid(sha, firm, client', 2025, keys')
    ensures keys == keys'
  {
    Identity.BatchUtidInjective(sha, preimages, firm, client, 2025, keys, client', 2025, keys');
  }

  lemma SameKeySameFiling(db: Db, f: int, f': int)
    requires FilingsOk(db) && f in db.filings && f' in db.filings && db.filings[f].key == db.filings[f'].key
    ensures f == f'
  {
    assert FilingOk(db, f, db.filings[f]) && FilingOk(db, f', db.filings[f']);
  }

  /** A batch with the group's UTID would already link the group's first filing. */
  lemma UtidClaimsFiling(db: Db, sha: Hash, preimages: set<string>, firm: string, group: seq<Pending>, id: int, f: int)
    requires DbOk(db) && UtidsDerived(db, sha, preimages)
    requires Loadable(group) && Hashable(firm, group, preimages) && group[0].taxYear == 2025
    requires id in db.batches && db.batches[id].firm == firm && db.batches[id].utid == UtidOf(sha, firm, group)
    requires f in db.filings && db.filings[f].key == Identity.Hex(group[0].digest)
    ensures f in db.batchOfFiling
  {
    var row := db.batches[id];
    var keys :| DerivedUtid(db, sha, preimages, row, keys);
    SameUtidSameKeys(sha, preimages, firm, row.client, keys, group[0].client, DigestsOf(group));
    assert BatchOk(db, id, row);
    var link := row.links[0];
    assert db.filings[link].key == Identity.Hex(keys[0]);
    SameKeySameFiling(db, f, link);
  }

  /** So the UTID of filings that no batch has is new, and the unique index never refuses the plan. */
  lemma UtidIsFresh(db: Db, sha: Hash, preimages: set<string>, firm: string, group: seq<Pending>)
    requires DbOk(db) && UtidsDerived(db, sha, preimages) && AllReflect(db, firm, group)
    requires Loadable(group) && Hashable(firm, group, preimages) && group[0].taxYear == 2025
    ensures FirmUtid(firm, UtidOf(sha, firm, group)) !in db.batchByUtid
  {
    var k := FirmUtid(firm, UtidOf(sha, firm, group));
    assert Reflects(db, firm, group[0]);
    if k in db.batchByUtid {
      UtidClaimsFiling(db, sha, preimages, firm, group, db.batchByUtid[k], group[0].id);
    }
  }

  // Inserting the groups

  lemma InsertionKeepsDerived(db: Db, sha: Hash, preimages: set<string>, firm: string, group: seq<Pending>, id: int,
                              now: int)
    requires DbOk(db) && UtidsDerived(db, sha, preimages) && AllReflect(db, firm, group)
    requires Loadable(group) && Hashable(firm, group, preimages) && group[0].taxYear == 2025
    requires InsertBatch(db, id, GroupOf(sha, firm, group), now).Ok?
    ensures UtidsDerived(InsertBatch(db, id, GroupOf(sha, firm, group), now).value, sha, preimages)
  {
    hide DbOk, DerivedUtid, DbGrows, AllReflect, Loadable, Hashable;
    var after := InsertBatch(db, id, GroupOf(sha, firm, group), now).value;
    InsertSteps.InsertBatchGrows(db, id, GroupOf(sha, firm, group), now);
    forall b | b in after.batches
      ensures exists keys :: DerivedUtid(after, sha, preimages, after.batches[b], keys)
    {
      if b == id {
        NewBatchDerived(db, sha, preimages, firm, group, id, now);
      } else {
        var keys :| DerivedUtid(db, sha, preimages, db.batches[b], keys);
        DerivedStable(db, after, sha, preimages, db.batches[b], keys);
      }
    }
  }

  lemma DerivedStable(a: Db, b: Db, sha: Hash, preimages: set<string>, row: Batch, keys: seq<string>)
    requires IsHash(sha) && DerivedUtid(a, sha, preimages, row, keys) && DbGrows(a, b)
    ensures DerivedUtid(b, sha, preimages, row, keys)
  {
    forall i | 0 <= i < |keys|
      ensures row.links[i] in b.filings && b.filings[row.links[i]].key == Identity.Hex(keys[i])
    {
      var link := row.links[i];
      assert link in a.filings && SameFiling(a.filings[link], b.filings[link]);
    }
  }

  lemma NewBatchDerived(db: Db, sha: Hash, preimages: set<string>, firm: string, group: seq<Pending>, id: int, now: int)
    requires IsHash(sha) && AllReflect(db, firm, group)
    requires Loadable(group) && Hashable(firm, group, preimages) && group[0].taxYear == 2025
    requires InsertBatch(db, id, GroupOf(sha, firm, group), now).Ok?
    ensures var after := InsertBatch(db, id, GroupOf(sha, firm, group), now).value;
            DerivedUtid(after, sha, preimages, after.batches[id], DigestsOf(group))
  {
    var after := InsertBatch(db, id, GroupOf(sha, firm, group), now).value;
    forall i | 0 <= i < |group|
      ensures Ids(group)[i] in after.filings && after.filings[Ids(group)[i]].key == Identity.Hex(DigestsOf(group)[i])
    {
      assert Reflects(db, firm, group[i]);
    }
  }

  /** Exactly the rows' filings change: each becomes batched and linked. */
  ghost predicate LinksExactly(before: Db, after: Db, rows: seq<Pending>) {
    && after.filings == MarkBatched(before.filings, Ids(rows))
    && after.batchOfFiling.Keys == before.batchOfFiling.Keys + Elements(Ids(rows))
  }

  /** One group: it is inserted, and the rows of other groups still reflect their filings. */
  lemma InsertOne(db: Db, sha: Hash, preimages: set<string>, firm: string, group: seq<Pending>, rest: seq<Pending>,
                  id: int, now: int)
    requires DbOk(db) && UtidsDerived(db, sha, preimages) && id > 0 && id !in db.batches
    requires OneClientGroup(group) && Hashable(firm, group, preimages)
    requires AllReflect(db, firm, group + rest) && DistinctIds(group + rest)
    ensures Loadable(group) && InsertBatch(db, id, GroupOf(sha, firm, group), now).Ok?
    ensures var after := InsertBatch(db, id, GroupOf(sha, firm, group), now).value;
            && DbOk(after) && UtidsDerived(after, sha, preimages)
            && AllReflect(after, firm, rest) && DistinctIds(rest)
            && after.batches.Keys == db.batches.Keys + {id}
            && after.filings == MarkBatched(db.filings, Ids(group))
            && after.batchOfFiling == Link(db.batchOfFiling, Ids(group), id)
  {
    hide DbOk, Plannable;
    SplitRows(db, firm, group, rest);
    GroupIsPlannable(db, sha, firm, group);
    GroupIsLoadable(db, firm, group);
    UtidIsFresh(db, sha, preimages, firm, group);
    var planned := GroupOf(sha, firm, group);
    Identity.UtidIsWellFormed(DigestOf(sha, firm, group), firm);
    assert planned.submissionId != "" by {
      assert planned.submissionId[0] == 'S';
    }
    InsertSteps.InsertBatchKeepsDbOk(db, id, planned, now);
    InsertionKeepsDerived(db, sha, preimages, firm, group, id, now);
    RestStillReflects(db, firm, group, rest, InsertBatch(db, id, planned, now).value, id);
  }

  lemma SplitRows(db: Db, firm: string, group: seq<Pending>, rest: seq<Pending>)
    requires AllReflect(db, firm, group + rest) && DistinctIds(group + rest)
    ensures AllReflect(db, firm, group) && AllReflect(db, firm, rest)
    ensures DistinctIds(group) && DistinctIds(rest)
    ensures forall i, j :: 0 <= i < |group| && 0 <= j < |rest| ==> group[i].id != rest[j].id
  {
    var all := group + rest;
    forall i | 0 <= i < |group|
      ensures Reflects(db, firm, group[i])
    {
      assert Reflects(db, firm, all[i]);
    }
    forall j | 0 <= j < |rest|
      ensures Reflects(db, firm, rest[j])
    {
      assert Reflects(db, firm, all[|group| + j]);
    }
    forall i, j | 0 <= i < j < |group|
      ensures group[i].id != group[j].id
    {
      assert all[i].id != all[j].id;
    }
    forall i, j | 0 <= i < j < |rest|
      ensures rest[i].id != rest[j].id
    {
      assert all[|group| + i].id != all[|group| + j].id;
    }
    forall i, j | 0 <= i < |group| && 0 <= j < |rest|
      ensures group[i].id != rest[j].id
    {
      assert all[i].id != all[|group| + j].id;
    }
  }

  lemma RestStillReflects(db: Db, firm: string, group: seq<Pending>, rest: seq<Pending>, after: Db, id: int)
    requires AllReflect(db, firm, rest)
    requires forall i, j :: 0 <= i < |group| && 0 <= j < |rest| ==> group[i].id != rest[j].id
    requires after.filings == MarkBatched(db.filings, Ids(group))
    requires after.batchOfFiling == Link(db.batchOfFiling, Ids(group), id)
    ensures AllReflect(after, firm, rest)
  {
    forall j | 0 <= j < |rest|
      ensures Reflects(after, firm, rest[j])
    {
      assert Reflects(db, firm, rest[j]);
    }
  }

  ghost predicate AllHashable(firm: string, groups: seq<seq<Pending>>, preimages: set<string>) {
    forall g :: 0 <= g < |groups| ==> Hashable(firm, groups[g], preimages)
  }

  /** The batches of a plan, inserted one after the other with consecutive identities. */
  ghost function InsertAll(db: Db, sha: Hash, firm: string, groups: seq<seq<Pending>>, firstId: int, now: int)
    : Result<Db, StoreError>
    requires IsHash(sha) && AllLoadable(groups)
    decreases |groups|
  {
    if groups == [] then Ok(db)
    else
      match InsertBatch(db, firstId, GroupOf(sha, firm, groups[0]), now)
      case Err(e) => Err(e)
      case Ok(next) => InsertAll(next, sha, firm, groups[1..], firstId + 1, now)
  }

  lemma LinksThenLinks(a: Db, b: Db, c: Db, group: seq<Pending>, rest: seq<Pending>)
    requires LinksExactly(a, b, group) && LinksExactly(b, c, rest)
    ensures LinksExactly(a, c, group + rest)
  {
    assert Ids(group + rest) == Ids(group) + Ids(rest);
    assert Elements(Ids(group + rest)) == Elements(Ids(group)) + Elements(Ids(rest));
  }

  /** Batch identities come from a sequence. */
  ghost predicate IdsBelow(db: Db, firstId: int) {
    firstId > 0 && forall id :: id in db.batches ==> id < firstId
  }

  lemma NextIds(db: Db, next: Db, firstId: int)
    requires IdsBelow(db, firstId) && next.batches.Keys == db.batches.Keys + {firstId}
    ensures firstId !in db.batches && IdsBelow(next, firstId + 1)
  {
  }

  /** A plan for rows that reflect the database, with new batch identities from `firstId` on. */
  ghost predicate Insertable(db: Db, sha: Hash, preimages: set<string>, firm: string, groups: seq<seq<Pending>>,
                             firstId: int)
  {
    && DbOk(db) && UtidsDerived(db, sha, preimages)
    && IdsBelow(db, firstId)
    && WellSized(groups) && AllHashable(firm, groups, preimages)
    && AllReflect(db, firm, Concat(groups)) && DistinctIds(Concat(groups))
  }

  lemma LinksFromInsert(before: Db, after: Db, rows: seq<Pending>, id: int)
    requires after.filings == MarkBatched(before.filings, Ids(rows))
    requires after.batchOfFiling == Link(before.batchOfFiling, Ids(rows), id)
    ensures LinksExactly(before, after, rows)
  {
  }

  lemma OneMore(before: map<int, Batch>, after: map<int, Batch>, id: int)
    requires id !in before && after.Keys == before.Keys + {id}
    ensures |after| == |before| + 1
  {
    assert |after.Keys| == |before.Keys| + 1;
  }

  lemma MakeInsertable(db: Db, sha: Hash, preimages: set<string>, firm: string, groups: seq<seq<Pending>>, firstId: int)
    requires DbOk(db) && UtidsDerived(db, sha, preimages)
    requires IdsBelow(db, firstId)
    requires WellSized(groups) && AllHashable(firm, groups, preimages)
    requires AllReflect(db, firm, Concat(groups)) && DistinctIds(Concat(groups))
    ensures Insertable(db, sha, preimages, firm, groups, firstId)
  {
  }

  lemma InsertFirst(db: Db, sha: Hash, preimages: set<string>, firm: string, group: seq<Pending>,
                    groups: seq<seq<Pending>>, firstId: int, now: int)
    requires DbOk(db) && UtidsDerived(db, sha, preimages)
    requires IdsBelow(db, firstId)
    requires WellSized(groups) && AllHashable(firm, groups, preimages)
    requires OneClientGroup(group) && Hashable(firm, group, preimages)
    requires AllReflect(db, firm, group + Concat(groups)) && DistinctIds(group + Concat(groups))
    ensures Loadable(group) && InsertBatch(db, firstId, GroupOf(sha, firm, group), now).Ok?
    ensures var next := InsertBatch(db, firstId, GroupOf(sha, firm, group), now).value;
            && Insertable(next, sha, preimages, firm, groups, firstId + 1)
            && next.filings == MarkBatched(db.filings, Ids(group))
            && next.batchOfFiling == Link(db.batchOfFiling, Ids(group), firstId)
            && next.batches.Keys == db.batches.Keys + {firstId}
  {
    InsertOne(db, sha, preimages, firm, group, Concat(groups), firstId, now);
    var next := InsertBatch(db, firstId, GroupOf(sha, firm, group), now).value;
    NextIds(db, next, firstId);
    MakeInsertable(next, sha, preimages, firm, groups, firstId + 1);
  }

  /** The whole plan is inserted: no group is refused, and exactly its rows become batched and linked. */
  lemma {:induction false} PlanIsInserted(db: Db, sha: Hash, preimages: set<string>, firm: string,
                                          groups: seq<seq<Pending>>, firstId: int, now: int)
    requires Insertable(db, sha, preimages, firm, groups, firstId)
    ensures AllLoadable(groups) && InsertAll(db, sha, firm, groups, firstId, now).Ok?
    ensures var after := InsertAll(db, sha, firm, groups, firstId, now).value;
            && DbOk(after) && UtidsDerived(after, sha, preimages)
            && LinksExactly(db, after, Concat(groups))
            && |after.batches| == |db.batches| + |groups|
    decreases |groups|
  {
    hide DbOk, InsertBatch, AllHashable;
    if groups == [] {
      assert MarkBatched(db.filings, []) == db.filings;
    } else {
      TailOfPlan(firm, groups, preimages);
      InsertFirst(db, sha, preimages, firm, groups[0], groups[1..], firstId, now);
      var next := InsertBatch(db, firstId, GroupOf(sha, firm, groups[0]), now).value;
      LinksFromInsert(db, next, groups[0], firstId);
      OneMore(db.batches, next.batches, firstId);
      PlanIsInserted(next, sha, preimages, firm, groups[1..], firstId + 1, now);
      LoadableFirst(groups);
      var after := InsertAll(next, sha, firm, groups[1..], firstId + 1, now).value;
      LinksThenLinks(db, next, after, groups[0], Concat(groups[1..]));
    }
  }

  lemma TailOfPlan(firm: string, groups: seq<seq<Pending>>, preimages: set<string>)
    requires groups != [] && WellSized(groups) && AllHashable(firm, groups, preimages)
    ensures WellSized(groups[1..]) && AllHashable(firm, groups[1..], preimages)
    ensures OneClientGroup(groups[0]) && Hashable(firm, groups[0], preimages)
  {
  }

  lemma LoadableFirst(groups: seq<seq<Pending>>)
    requires groups != [] && Loadable(groups[0]) && AllLoadable(groups[1..])
    ensures AllLoadable(groups)
  {
    assert groups == [groups[0]] + groups[1..];
  }

  lemma NothingLeft(db: Db, after: Db, firm: string, determination: int, rows: seq<Pending>, id: int)
    requires QueryRows(db, firm, determination, rows) && LinksExactly(db, after, rows)
    ensures !NeedsBatch(after, firm, determination, id)
  {
    if NeedsBatch(db, firm, determination, id) {
      var i :| 0 <= i < |rows| && rows[i].id == id;
      assert Ids(rows)[i] == id;
    }
  }

  lemma QueryIsInsertable(db: Db, sha: Hash, preimages: set<string>, firm: string, determination: int,
                          rows: seq<Pending>, firstId: int)
    requires DbOk(db) && UtidsDerived(db, sha, preimages)
    requires IdsBelow(db, firstId)
    requires QueryRows(db, firm, determination, rows) && AllHashable(firm, Partition(rows), preimages)
    ensures Insertable(db, sha, preimages, firm, Partition(rows), firstId) && Concat(Partition(rows)) == rows
  {
    PartitionCovers(rows);
  }

  /**
   Planning a determination inserts a batch for every group of the partition, whatever was planned
   before; planning it again finds nothing to plan.
   */
  lemma ReplayCreatesNone(db: Db, sha: Hash, preimages: set<string>, firm: string, determination: int,
                          rows: seq<Pending>, firstId: int, now: int, again: seq<Pending>)
    requires DbOk(db) && UtidsDerived(db, sha, preimages)
    requires IdsBelow(db, firstId)
    requires QueryRows(db, firm, determination, rows) && AllHashable(firm, Partition(rows), preimages)
    ensures AllLoadable(Partition(rows)) && InsertAll(db, sha, firm, Partition(rows), firstId, now).Ok?
    ensures var after := InsertAll(db, sha, firm, Partition(rows), firstId, now).value;
            && |after.batches| == |db.batches| + |Partition(rows)|
            && (QueryRows(after, firm, determination, again) <==> again == [])
  {
    QueryIsInsertable(db, sha, preimages, firm, determination, rows, firstId);
    PlanIsInserted(db, sha, preimages, firm, Partition(rows), firstId, now);
    NothingQueried(db, InsertAll(db, sha, firm, Partition(rows), firstId, now).value, firm, determination, rows, again);
  }

  lemma NothingQueried(db: Db, after: Db, firm: string, determination: int, rows: seq<Pending>, again: seq<Pending>)
    requires QueryRows(db, firm, determination, rows) && LinksExactly(db, after, rows)
    ensures QueryRows(after, firm, determination, again) <==> again == []
  {
    forall id
      ensures !NeedsBatch(after, firm, determination, id)
    {
      NothingLeft(db, after, firm, determination, rows, id);
    }
    assert again != [] ==> !NeedsBatch(after, firm, determination, again[0].id);
  }
}
