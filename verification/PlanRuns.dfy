/**
 Planning along the runs of the system: where every planned group comes from the planner, every
 batch's UTID is derived from its filings, so the planner's next groups are never refused.
 */
module PlanRuns {
  import opened Prelude
  import opened Retry
  import opened Filing
  import opened Planning
  import opened System
  import opened Invariant
  import opened Planner
  import opened PlanInsert
  import opened Stub
  import Identity
  import Immutability
  import Safety
  import Termination

  /** The planned group is made of rows that reflect the database. */
  ghost predicate FromRows(db: Db, sha: Hash, preimages: set<string>, planned: PlannedGroup, group: seq<Pending>) {
    && IsHash(sha) && Loadable(group) && OneClientGroup(group) && DistinctIds(group)
    && AllReflect(db, planned.firm, group) && Hashable(planned.firm, group, preimages)
    && planned == GroupOf(sha, planned.firm, group)
  }

  /** Only the planner inserts batches. */
  ghost predicate PlannerStep(s: State, step: Step, sha: Hash, preimages: set<string>) {
    step.PlanOne? ==> exists group :: FromRows(s.db, sha, preimages, step.group, group)
  }

  ghost predicate PlannerRun(s: State, steps: seq<Step>, backoff: Backoff, sha: Hash, preimages: set<string>) {
    steps == [] ||
    var n := |steps| - 1;
    var before := Run(s, steps[..n], backoff);
    && PlannerRun(s, steps[..n], backoff, sha, preimages)
    && (Enabled(before, steps[n]) ==> PlannerStep(before, steps[n], sha, preimages))
  }

  // Every step keeps the UTIDs derived

  lemma DerivedStays(a: Db, b: Db, sha: Hash, preimages: set<string>, row: Batch, row': Batch, keys: seq<string>)
    requires IsHash(sha) && DerivedUtid(a, sha, preimages, row, keys)
    requires SameBatch(row, row') && Immutability.ChangesAllowed(a, b)
    ensures DerivedUtid(b, sha, preimages, row', keys)
  {
    forall i | 0 <= i < |keys|
      ensures row'.links[i] in b.filings && b.filings[row'.links[i]].key == Identity.Hex(keys[i])
    {
      var link := row.links[i];
      assert link in a.filings && Immutability.FilingUpdateAllowed(a.filings[link], b.filings[link]);
    }
  }

  lemma NoNewRowKeepsDerived(a: Db, b: Db, sha: Hash, preimages: set<string>)
    requires UtidsDerived(a, sha, preimages) && Immutability.ChangesAllowed(a, b)
    requires forall id :: id in b.batches ==> id in a.batches
    ensures UtidsDerived(b, sha, preimages)
  {
    hide DerivedUtid;
    forall id | id in b.batches
      ensures exists keys :: DerivedUtid(b, sha, preimages, b.batches[id], keys)
    {
      assert Immutability.BatchUpdateAllowed(a.batches[id], b.batches[id]);
      var keys :| DerivedUtid(a, sha, preimages, a.batches[id], keys);
      DerivedStays(a, b, sha, preimages, a.batches[id], b.batches[id], keys);
    }
  }

  lemma OtherStepKeepsDerived(s: State, step: Step, backoff: Backoff, sha: Hash, preimages: set<string>)
    requires Inv(s) && Enabled(s, step) && !step.PlanOne? && UtidsDerived(s.db, sha, preimages)
    ensures UtidsDerived(Next(s, step, backoff).db, sha, preimages)
  {
    hide UtidsDerived, Immutability.ChangesAllowed, StubOk, Agree, CallsOk, WorkersOk, Next;
    var t := Next(s, step, backoff);
    Immutability.StepAllowed(s, step, backoff);
    forall id | id in t.db.batches
      ensures id in s.db.batches
    {
      if id !in s.db.batches {
        Termination.NoRowElse(s, step, backoff, id);
      }
    }
    NoNewRowKeepsDerived(s.db, t.db, sha, preimages);
  }

  lemma PlanStepKeepsDerived(s: State, step: Step, backoff: Backoff, sha: Hash, preimages: set<string>)
    requires DbOk(s.db) && Enabled(s, step) && step.PlanOne? && PlannerStep(s, step, sha, preimages)
    requires UtidsDerived(s.db, sha, preimages)
    ensures UtidsDerived(Next(s, step, backoff).db, sha, preimages)
  {
    hide DbOk, UtidsDerived, InsertBatch;
    if InsertBatch(s.db, step.newBatch, step.group, s.now).Ok? {
      var group :| FromRows(s.db, sha, preimages, step.group, group);
      GroupIsLoadable(s.db, step.group.firm, group);
      InsertionKeepsDerived(s.db, sha, preimages, step.group.firm, group, step.newBatch, s.now);
    }
  }

  lemma {:induction false} RunKeepsDerived(s: State, steps: seq<Step>, backoff: Backoff, sha: Hash,
                                           preimages: set<string>)
    requires Inv(s) && UtidsDerived(s.db, sha, preimages) && PlannerRun(s, steps, backoff, sha, preimages)
    ensures Inv(Run(s, steps, backoff)) && UtidsDerived(Run(s, steps, backoff).db, sha, preimages)
  {
    hide StubOk, Agree, CallsOk, WorkersOk, DbOk, UtidsDerived, Next, Enabled, PlannerStep;
    if steps != [] {
      var n := |steps| - 1;
      RunKeepsDerived(s, steps[..n], backoff, sha, preimages);
      var before := Run(s, steps[..n], backoff);
      if Enabled(before, steps[n]) {
        Safety.StepKeepsInv(before, steps[n], backoff);
        if steps[n].PlanOne? {
          PlanStepKeepsDerived(before, steps[n], backoff, sha, preimages);
        } else {
          OtherStepKeepsDerived(before, steps[n], backoff, sha, preimages);
        }
      }
    }
  }

  lemma InitialDerived(start: int, sha: Hash, preimages: set<string>)
    requires IsHash(sha) && Identity.UuidCollisionFree(sha, preimages)
    ensures Inv(Initial(start)) && UtidsDerived(Initial(start).db, sha, preimages)
  {
  }

  /** In every run whose batches the planner inserts, whatever else happens, the UTIDs are derived. */
  lemma UtidsAreDerived(start: int, steps: seq<Step>, backoff: Backoff, sha: Hash, preimages: set<string>)
    requires IsHash(sha) && Identity.UuidCollisionFree(sha, preimages)
    requires PlannerRun(Initial(start), steps, backoff, sha, preimages)
    ensures Inv(Run(Initial(start), steps, backoff))
    ensures UtidsDerived(Run(Initial(start), steps, backoff).db, sha, preimages)
  {
    hide Inv, UtidsDerived, PlannerRun, Identity.UuidCollisionFree;
    InitialDerived(start, sha, preimages);
    RunKeepsDerived(Initial(start), steps, backoff, sha, preimages);
  }

  // A plan is a run

  /** The insertions of a plan, one step for each group. */
  ghost function PlanSteps(sha: Hash, firm: string, groups: seq<seq<Pending>>, firstId: int): seq<Step>
    requires IsHash(sha) && AllLoadable(groups)
  {
    if groups == [] then []
    else [PlanOne(firstId, GroupOf(sha, firm, groups[0]))] + PlanSteps(sha, firm, groups[1..], firstId + 1)
  }

  lemma {:induction false} RunThrough(s: State, a: seq<Step>, b: seq<Step>, backoff: Backoff, sha: Hash,
                                      preimages: set<string>)
    ensures Run(s, a + b, backoff) == Run(Run(s, a, backoff), b, backoff)
    ensures PlannerRun(s, a, backoff, sha, preimages) && PlannerRun(Run(s, a, backoff), b, backoff, sha, preimages) ==>
              PlannerRun(s, a + b, backoff, sha, preimages)
    decreases |b|
  {
    hide Next, Enabled, PlannerStep;
    if b == [] {
      assert a + b == a;
    } else {
      var k := |b| - 1;
      RunThrough(s, a, b[..k], backoff, sha, preimages);
      assert (a + b)[..|a + b| - 1] == a + b[..k];
    }
  }

  lemma OneStep(s: State, step: Step, backoff: Backoff, sha: Hash, preimages: set<string>)
    requires Enabled(s, step) && PlannerStep(s, step, sha, preimages)
    ensures Run(s, [step], backoff) == Next(s, step, backoff) && PlannerRun(s, [step], backoff, sha, preimages)
  {
    hide Next, Enabled, PlannerStep;
    assert [step][..0] == [];
    assert Run(s, [], backoff) == s && PlannerRun(s, [], backoff, sha, preimages);
  }

  lemma GroupIsEnabled(s: State, sha: Hash, firm: string, group: seq<Pending>, id: int)
    requires IsHash(sha) && Loadable(group) && id > 0
    ensures Enabled(s, PlanOne(id, GroupOf(sha, firm, group)))
  {
    Identity.UtidIsWellFormed(DigestOf(sha, firm, group), firm);
    assert GroupOf(sha, firm, group).submissionId[0] == 'S';
  }

  /** The first group of a plan, as a step. */
  lemma FirstGroup(s: State, sha: Hash, preimages: set<string>, firm: string, groups: seq<seq<Pending>>, firstId: int,
                   backoff: Backoff)
    returns (next: State)
    requires groups != [] && Insertable(s.db, sha, preimages, firm, groups, firstId)
    ensures Loadable(groups[0]) && InsertBatch(s.db, firstId, GroupOf(sha, firm, groups[0]), s.now) == Ok(next.db)
    ensures next == s.(db := next.db) && Insertable(next.db, sha, preimages, firm, groups[1..], firstId + 1)
    ensures var steps := [PlanOne(firstId, GroupOf(sha, firm, groups[0]))];
            Run(s, steps, backoff) == next && PlannerRun(s, steps, backoff, sha, preimages)
  {
    hide DbOk, InsertBatch, PlannerRun, Run;
    TailOfPlan(firm, groups, preimages);
    InsertFirst(s.db, sha, preimages, firm, groups[0], groups[1..], firstId, s.now);
    SplitRows(s.db, firm, groups[0], Concat(groups[1..]));
    var planned := GroupOf(sha, firm, groups[0]);
    var step := PlanOne(firstId, planned);
    GroupIsEnabled(s, sha, firm, groups[0], firstId);
    assert FromRows(s.db, sha, preimages, planned, groups[0]);
    OneStep(s, step, backoff, sha, preimages);
    next := Next(s, step, backoff);
  }

  /** Inserting a plan is a run of these steps, each of them the planner's. */
  lemma {:induction false} PlanIsRun(s: State, sha: Hash, preimages: set<string>, firm: string,
                                     groups: seq<seq<Pending>>, firstId: int, backoff: Backoff)
    requires Insertable(s.db, sha, preimages, firm, groups, firstId)
    ensures AllLoadable(groups) && InsertAll(s.db, sha, firm, groups, firstId, s.now).Ok?
    ensures var steps := PlanSteps(sha, firm, groups, firstId);
            && Run(s, steps, backoff) == s.(db := InsertAll(s.db, sha, firm, groups, firstId, s.now).value)
            && PlannerRun(s, steps, backoff, sha, preimages)
    decreases |groups|
  {
    if groups != [] {
      hide DbOk, InsertBatch, PlannerRun, Run;
      var next := FirstGroup(s, sha, preimages, firm, groups, firstId, backoff);
      PlanIsRun(next, sha, preimages, firm, groups[1..], firstId + 1, backoff);
      LoadableFirst(groups);
      RunThrough(s, [PlanOne(firstId, GroupOf(sha, firm, groups[0]))], PlanSteps(sha, firm, groups[1..], firstId + 1),
                 backoff, sha, preimages);
    }
  }

  /**
   After any run whose batches the planner inserted, the rows of the planning query are planned
   without a refusal, in one more run of the planner: exactly they become batched and linked.
   */
  lemma PlanAlongRun(start: int, steps: seq<Step>, backoff: Backoff, sha: Hash, preimages: set<string>, firm: string,
                     groups: seq<seq<Pending>>, firstId: int)
    requires IsHash(sha) && Identity.UuidCollisionFree(sha, preimages)
    requires PlannerRun(Initial(start), steps, backoff, sha, preimages)
    requires WellSized(groups) && AllHashable(firm, groups, preimages)
    requires var s := Run(Initial(start), steps, backoff);
             IdsBelow(s.db, firstId) && AllReflect(s.db, firm, Concat(groups)) && DistinctIds(Concat(groups))
    ensures AllLoadable(groups)
    ensures var s := Run(Initial(start), steps, backoff);
            var more := steps + PlanSteps(sha, firm, groups, firstId);
            var t := Run(Initial(start), more, backoff);
            && PlannerRun(Initial(start), more, backoff, sha, preimages)
            && InsertAll(s.db, sha, firm, groups, firstId, s.now) == Ok(t.db)
            && LinksExactly(s.db, t.db, Concat(groups)) && |t.db.batches| == |s.db.batches| + |groups|
  {
    hide Inv, DbOk, UtidsDerived, PlannerRun, Run, Initial, InsertAll, PlanSteps, LinksExactly, AllReflect, WellSized;
    UtidsAreDerived(start, steps, backoff, sha, preimages);
    var s := Run(Initial(start), steps, backoff);
    InvIsDbOk(s);
    MakeInsertable(s.db, sha, preimages, firm, groups, firstId);
    PlanIsInserted(s.db, sha, preimages, firm, groups, firstId, s.now);
    PlanIsRun(s, sha, preimages, firm, groups, firstId, backoff);
    RunThrough(Initial(start), steps, PlanSteps(sha, firm, groups, firstId), backoff, sha, preimages);
  }

  lemma InvIsDbOk(s: State)
    requires Inv(s)
    ensures DbOk(s.db)
  {
    hide DbOk;
  }

  /** The UTID of filings that no batch has is new in every such run. */
  lemma UtidIsFreshAlongRun(start: int, steps: seq<Step>, backoff: Backoff, sha: Hash, preimages: set<string>,
                            firm: string, group: seq<Pending>)
    requires IsHash(sha) && Identity.UuidCollisionFree(sha, preimages)
    requires PlannerRun(Initial(start), steps, backoff, sha, preimages)
    requires Hashable(firm, group, preimages) && AllReflect(Run(Initial(start), steps, backoff).db, firm, group)
    ensures Loadable(group)
    ensures FirmUtid(firm, UtidOf(sha, firm, group)) !in Run(Initial(start), steps, backoff).db.batchByUtid
  {
    hide Inv, DbOk, UtidsDerived, PlannerRun, Run, Initial, AllReflect;
    UtidsAreDerived(start, steps, backoff, sha, preimages);
    var s := Run(Initial(start), steps, backoff);
    InvIsDbOk(s);
    GroupIsLoadable(s.db, firm, group);
    UtidIsFresh(s.db, sha, preimages, firm, group);
  }
}
