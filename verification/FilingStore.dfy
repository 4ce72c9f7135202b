/**
 The store as an object: its methods are the transactions, which update the tables in place and,
 when they refuse, roll back. Each is proved to do what its rule in `Filing` says. `now` is the
 database clock at the transaction's one instant.
 */
module FilingStore {
  import opened Prelude
  import opened Retry
  import opened Stub
  import opened Client
  import opened Filing
  import opened Worker
  import Effects

  /** The row the claim query selects: the due, unlocked row of the firm that comes first. */
  ghost predicate FirstDue(db: Db, firm: string, now: int, locked: set<int>, id: int) {
    && id in db.batches && db.batches[id].firm == firm && Due(db.batches[id], now) && id !in locked
    && forall other ::
         (other in db.batches && db.batches[other].firm == firm && Due(db.batches[other], now)
          && other !in locked && other != id)
           ==> Before(db.batches[id], id, db.batches[other], other)
  }

  /** `ORDER BY next_action_at, id` */
  predicate Before(a: Batch, i: int, b: Batch, j: int) {
    a.nextActionAt < b.nextActionAt || (a.nextActionAt == b.nextActionAt && i < j)
  }

  ghost predicate NoneDue(db: Db, firm: string, now: int, locked: set<int>) {
    forall id :: id in db.batches && db.batches[id].firm == firm && Due(db.batches[id], now) ==> id in locked
  }

  /** A row of the firm that is open, due, not held and not locked. */
  predicate Claimable(db: Db, firm: string, now: int, locked: set<int>, id: int) {
    && id in db.batches && id !in locked
    && var row := db.batches[id];
    && row.firm == firm && row.nextActionAt <= now
    && row.state in {Planned, Submitting, SubmitUnknown, Submitted, AwaitingAck}
    && (row.lease.None? || row.lease.value.expiresAt <= now)
  }

  /** The query selects a row exactly when one is claimable: the one due earliest, and of those the least id. */
  lemma FirstDueExactly(db: Db, firm: string, now: int, locked: set<int>, id: int)
    ensures FirstDue(db, firm, now, locked, id) <==>
              && Claimable(db, firm, now, locked, id)
              && forall other :: Claimable(db, firm, now, locked, other) ==>
                   var a, b := db.batches[id].nextActionAt, db.batches[other].nextActionAt;
                   a < b || (a == b && id <= other)
    ensures NoneDue(db, firm, now, locked) <==> forall any :: !Claimable(db, firm, now, locked, any)
  {
    forall any
      ensures Claimable(db, firm, now, locked, any) <==>
                any in db.batches && db.batches[any].firm == firm && Due(db.batches[any], now) && any !in locked
    {
      if any in db.batches {
        Effects.DueExactly(db.batches[any], now);
      }
    }
  }

  /** There is always one answer to the query: the first claimable row, or none when no row is claimable. */
  lemma CandidateExists(db: Db, firm: string, now: int, locked: set<int>) returns (candidate: Option<int>)
    ensures match candidate
            case Some(id) => FirstDue(db, firm, now, locked, id)
            case None => NoneDue(db, firm, now, locked)
  {
    candidate := FirstOf(db, firm, now, locked, db.batches.Keys);
    if candidate.Some? {
      FirstDueExactly(db, firm, now, locked, candidate.value);
    } else {
      FirstDueExactly(db, firm, now, locked, 0);
    }
  }

  lemma {:induction false} FirstOf(db: Db, firm: string, now: int, locked: set<int>, ids: set<int>)
    returns (first: Option<int>)
    ensures first.None? ==> forall any :: any in ids ==> !Claimable(db, firm, now, locked, any)
    ensures first.Some? ==>
              && Claimable(db, firm, now, locked, first.value)
              && forall other :: other in ids && Claimable(db, firm, now, locked, other) ==>
                   var a, b := db.batches[first.value].nextActionAt, db.batches[other].nextActionAt;
                   a < b || (a == b && first.value <= other)
  {
    if id :| id in ids {
      first := FirstOf(db, firm, now, locked, ids - {id});
      if Claimable(db, firm, now, locked, id)
         && (first.None? || db.batches[id].nextActionAt < db.batches[first.value].nextActionAt
             || (db.batches[id].nextActionAt == db.batches[first.value].nextActionAt && id < first.value)) {
        first := Some(id);
      }
    } else {
      first := None;
    }
  }

  /** The transaction did what its rule says: the new tables, or an error and no change. */
  predicate Follows(rule: Result<Db, StoreError>, before: Db, after: Db, error: Option<StoreError>) {
    match rule
    case Ok(db) => error.None? && after == db
    case Err(e) => error == Some(e) && after == before
  }

  class Store {
    var batches: map<int, Batch>
    var filings: map<int, FilingRow>
    var batchByUtid: map<FirmUtid, int>
    var filingByKey: map<string, int>
    var batchOfFiling: map<int, int>
    var batchByReceipt: map<string, int>

    ghost function Tables(): Db
      reads this
    {
      Db(batches, filings, batchByUtid, filingByKey, batchOfFiling, batchByReceipt)
    }

    constructor ()
      ensures Tables() == Db(map[], map[], map[], map[], map[], map[])
    {
      batches, filings, batchByUtid := map[], map[], map[];
      filingByKey, batchOfFiling, batchByReceipt := map[], map[], map[];
    }

    /** `ClaimNextBatch`, given the row its query selects. */
    method ClaimNextBatch(firm: string, owner: string, leaseMicros: int, token: string, now: int,
                          ghost locked: set<int>, candidate: Option<int>)
      returns (claimed: Option<Result<Work, StoreError>>)
      requires match candidate
               case Some(id) => FirstDue(Tables(), firm, now, locked, id)
               case None => NoneDue(Tables(), firm, now, locked)
      modifies this`batches
      ensures (owner == "" || leaseMicros <= 0) ==> claimed == Some(Err(InvalidEvent)) && Tables() == old(Tables())
      ensures owner != "" && leaseMicros > 0 && candidate.None? ==> claimed.None? && Tables() == old(Tables())
      ensures owner != "" && leaseMicros > 0 && candidate.Some? ==>
                var id := candidate.value;
                var (row, result) := ClaimRow(id, old(batches)[id], owner, leaseMicros, token, now);
                claimed == Some(result) && Tables() == old(Tables()).(batches := old(batches)[id := row])
    {
      if owner == "" || leaseMicros <= 0 {
        return Some(Err(InvalidEvent));
      }
      if candidate.None? {
        return None;
      }
      var id := candidate.value;
      var saved := batches[id];
      var state := StateAfterClaim(saved.state);
      batches := batches[id := saved.(state := state, attempts := saved.attempts + 1,
                                      lease := Some(Lease(owner, now + leaseMicros, token)))];
      if Sha256(batches[id].document) != batches[id].digest {
        batches := batches[id := batches[id].(state := InvariantFailed, lastError := "PAYLOAD_HASH_MISMATCH",
                                              lease := None)];
        return Some(Err(Invariant));
      }
      var action := PollStatus;
      match state {
        case Submitting => action := Submit;
        case SubmitUnknown => action := LookupByUtid;
        case Submitted => action := PollStatus;
        case AwaitingAck => action := PollStatus;
        case _ => assert false;
      }
      return Some(Ok(WorkOf(id, batches[id], action, token)));
    }

    method WhyMissed(claim: Claim, now: int) returns (error: StoreError)
      ensures error == ClaimMiss(Tables(), claim, now)
      ensures error == NotFound <==> claim.batchId !in batches || batches[claim.batchId].firm != claim.firm
      ensures error == InvalidTransition <==>
                && claim.batchId in batches && batches[claim.batchId].firm == claim.firm
                && var lease := batches[claim.batchId].lease;
                lease.Some? && lease.value.token == claim.token && now < lease.value.expiresAt
      ensures error in {NotFound, StaleClaim, InvalidTransition}
    {
      if claim.batchId !in batches || batches[claim.batchId].firm != claim.firm {
        return NotFound;
      }
      var row := batches[claim.batchId];
      var live := row.lease.Some? && row.lease.value.expiresAt > now;
      if row.lease.None? || row.lease.value.token != claim.token || !live {
        return StaleClaim;
      }
      return InvalidTransition;
    }

    /** `eventTransition`. */
    method EventTransition(claim: Claim, now: int, states: set<BatchState>, newState: BatchState, delay: int,
                           receiptId: string, code: string, setSubmitted: bool)
      returns (error: Option<StoreError>)
      modifies this`batches, this`batchByReceipt
      ensures Follows(Transition(old(Tables()), claim, now, states, newState, delay, receiptId, code, setSubmitted),
                      old(Tables()), Tables(), error)
      ensures error.None? ==>
                && claim.batchId in old(batches) && old(batches)[claim.batchId].state in states
                && var row := old(batches)[claim.batchId];
                && batches == old(batches)[claim.batchId := row.(
                     state := newState, lease := None, lastError := code, nextActionAt := now + delay / 1000,
                     receipt := if receiptId == "" then row.receipt else Some(receiptId),
                     submittedAt := if setSubmitted && row.submittedAt.None? then Some(now) else row.submittedAt)]
                && batchByReceipt == if receiptId == "" then old(batchByReceipt)
                                     else old(batchByReceipt)[receiptId := claim.batchId]
    {
      if claim.batchId <= 0 || !ValidDelay(delay) || !ValidFailureCode(code) || |receiptId| > 256 {
        return Some(InvalidEvent);
      }
      if claim.batchId !in batches || !Holds(batches[claim.batchId], claim.firm, claim.token, now)
         || batches[claim.batchId].state !in states {
        var miss := WhyMissed(claim, now);
        return Some(miss);
      }
      if receiptId != "" && receiptId in batchByReceipt && batchByReceipt[receiptId] != claim.batchId {
        return Some(Conflict);
      }
      var held := batches[claim.batchId];
      var row := held.(state := newState, nextActionAt := DueAfter(now, delay), lastError := code, lease := None,
                       submittedAt := if setSubmitted && held.submittedAt.None? then Some(now) else held.submittedAt,
                       receipt := if receiptId == "" then held.receipt else Some(receiptId));
      if !ReceiptAllowed(row) {
        return Some(Invariant);
      }
      batches := batches[claim.batchId := row];
      if receiptId != "" {
        batchByReceipt := batchByReceipt[receiptId := claim.batchId];
      }
      return None;
    }

    method RecordSubmitAccepted(claim: Claim, now: int, receiptId: string, delay: int)
      returns (error: Option<StoreError>)
      modifies this`batches, this`batchByReceipt
      ensures Follows(Apply(old(Tables()), claim, now, SubmitAccepted(receiptId, delay)),
                      old(Tables()), Tables(), error)
    {
      if receiptId == "" {
        return Some(InvalidEvent);
      }
      error := EventTransition(claim, now, {Submitting}, Submitted, delay, receiptId, "", true);
    }

    method RecordSubmitUnknown(claim: Claim, now: int, delay: int, code: string) returns (error: Option<StoreError>)
      modifies this`batches, this`batchByReceipt
      ensures Follows(Apply(old(Tables()), claim, now, SubmitOutcomeUnknown(delay, code)),
                      old(Tables()), Tables(), error)
    {
      error := EventTransition(claim, now, {Submitting}, SubmitUnknown, delay, "", code, false);
    }

    method RecordReferenceFound(claim: Claim, now: int, receiptId: string, delay: int)
      returns (error: Option<StoreError>)
      modifies this`batches, this`batchByReceipt
      ensures Follows(Apply(old(Tables()), claim, now, ReferenceFound(receiptId, delay)),
                      old(Tables()), Tables(), error)
    {
      if receiptId == "" {
        return Some(InvalidEvent);
      }
      error := EventTransition(claim, now, {SubmitUnknown}, Submitted, delay, receiptId, "", true);
    }

    method RecordReferenceNotFound(claim: Claim, now: int, delay: int, code: string) returns (error: Option<StoreError>)
      modifies this`batches, this`batchByReceipt
      ensures Follows(Apply(old(Tables()), claim, now, ReferenceNotFound(delay, code)),
                      old(Tables()), Tables(), error)
    {
      error := EventTransition(claim, now, {SubmitUnknown}, Planned, delay, "", code, false);
    }

    method RecordAcknowledgmentPending(claim: Claim, now: int, delay: int, code: string)
      returns (error: Option<StoreError>)
      modifies this`batches, this`batchByReceipt
      ensures Follows(Apply(old(Tables()), claim, now, AcknowledgmentPending(delay, code)),
                      old(Tables()), Tables(), error)
    {
      error := EventTransition(claim, now, {Submitted, AwaitingAck}, AwaitingAck, delay, "", code, false);
    }

    method RecordStatusUnavailable(claim: Claim, now: int, delay: int, code: string) returns (error: Option<StoreError>)
      modifies this`batches
      ensures Follows(Apply(old(Tables()), claim, now, StatusUnavailable(delay, code)),
                      old(Tables()), Tables(), error)
    {
      if claim.batchId <= 0 || !ValidDelay(delay) || !ValidFailureCode(code) {
        return Some(InvalidEvent);
      }
      if claim.batchId !in batches || !Holds(batches[claim.batchId], claim.firm, claim.token, now)
         || batches[claim.batchId].state !in {SubmitUnknown, AwaitingAck} {
        var miss := WhyMissed(claim, now);
        return Some(miss);
      }
      batches := batches[claim.batchId :=
        batches[claim.batchId].(nextActionAt := DueAfter(now, delay), lastError := code, lease := None)];
      return None;
    }

    /** `terminalTransition`. */
    method TerminalTransition(claim: Claim, now: int, code: string, exhausted: bool) returns (error: Option<StoreError>)
      modifies this`batches
      ensures Follows(Terminate(old(Tables()), claim, now, code, exhausted),
                      old(Tables()), Tables(), error)
      ensures error.None? ==>
                && claim.batchId in old(batches)
                && batches == old(batches)[claim.batchId := old(batches)[claim.batchId].(
                     state := InvariantFailed, lease := None, lastError := code,
                     exhaustedAt := if exhausted then Some(now) else None)]
    {
      if claim.batchId <= 0 || code == "" || !ValidFailureCode(code) {
        return Some(InvalidEvent);
      }
      if claim.batchId !in batches || !Holds(batches[claim.batchId], claim.firm, claim.token, now)
         || Terminal(batches[claim.batchId].state) {
        var miss := WhyMissed(claim, now);
        return Some(miss);
      }
      batches := batches[claim.batchId :=
        batches[claim.batchId].(state := InvariantFailed, lastError := code,
                                exhaustedAt := if exhausted then Some(now) else None, lease := None)];
      return None;
    }

    /** The rows of the joined query, by key; a batch of another firm has none. */
    method ExpectedFilings(claim: Claim) returns (expected: map<string, int>)
      ensures expected == ExpectedFor(Tables(), claim)
    {
      expected := map[];
      if claim.batchId !in batches || batches[claim.batchId].firm != claim.firm {
        return;
      }
      var links := batches[claim.batchId].links;
      if exists i :: 0 <= i < |links| && links[i] !in filings {
        return;
      }
      for i := 0 to |links|
        invariant expected == Expected(filings, links[..i])
      {
        assert links[..i + 1][..i] == links[..i];
        expected := expected[filings[links[i]].key := links[i]];
      }
      assert links[..|links|] == links;
    }

    /** `CompleteAcknowledgment`: filings are updated one by one, and all of it is rolled back on the first refusal. */
    method CompleteAcknowledgment(claim: Claim, now: int, outcomes: seq<Outcome>) returns (error: Option<StoreError>)
      modifies this`batches, this`filings
      ensures Follows(Acknowledge(old(Tables()), claim, now, outcomes),
                      old(Tables()), Tables(), error)
    {
      if claim.batchId <= 0 || |outcomes| == 0 {
        return Some(Invariant);
      }
      var saved := filings;
      var expected := ExpectedFilings(claim);
      if |expected| != |outcomes| {
        return Some(Invariant);
      }
      var refused := UpdateFilings(expected, outcomes, now);
      if refused {
        filings := saved;
        return Some(Invariant);
      }
      if claim.batchId !in batches || !Holds(batches[claim.batchId], claim.firm, claim.token, now)
         || batches[claim.batchId].state !in {Submitted, AwaitingAck} {
        filings := saved;
        var miss := WhyMissed(claim, now);
        return Some(miss);
      }
      batches := batches[claim.batchId :=
        batches[claim.batchId].(state := BatchAcknowledged, lease := None, lastError := "")];
      return None;
    }

    /** The loop over the outcomes, with its set of keys seen so far. */
    method UpdateFilings(expected: map<string, int>, outcomes: seq<Outcome>, now: int) returns (refused: bool)
      modifies this`filings
      ensures var recorded := RecordOutcomes(old(filings), expected, outcomes, now);
              if refused then recorded == Err(Invariant) else recorded == Ok(filings)
      ensures !refused && OneToOne(expected) ==> Recorded(old(filings), filings, expected, outcomes, now)
    {
      var seen: set<string> := {};
      for i := 0 to |outcomes|
        invariant seen == OutcomeKeys(outcomes[..i])
        invariant RecordOutcomes(old(filings), expected, outcomes[..i], now) == Ok(filings)
      {
        var outcome := outcomes[i];
        OutcomesNext(old(filings), expected, outcomes, now, i);
        if outcome.key !in expected || outcome.key in seen {
          RefusalIsFinal(old(filings), expected, outcomes, now, i + 1);
          return true;
        }
        seen := seen + {outcome.key};
        var accepted := outcome.irsRecordId != "" && outcome.reason == "";
        var rejected := outcome.irsRecordId == "" && ValidReason(outcome.reason);
        if !accepted && !rejected {
          RefusalIsFinal(old(filings), expected, outcomes, now, i + 1);
          return true;
        }
        var id := expected[outcome.key];
        if id !in filings || !filings[id].state.Batched? {
          RefusalIsFinal(old(filings), expected, outcomes, now, i + 1);
          return true;
        }
        var result :=
          if rejected then FilingRejected(outcome.reason, now) else FilingAccepted(outcome.irsRecordId, now);
        filings := filings[id := filings[id].(state := result)];
      }
      assert outcomes[..|outcomes|] == outcomes;
      if OneToOne(expected) {
        RecordOutcomesMeaning(old(filings), expected, outcomes, now);
      }
      return false;
    }
  }

  lemma OutcomesNext(before: map<int, FilingRow>, expected: map<string, int>, outcomes: seq<Outcome>, now: int, i: nat)
    requires i < |outcomes|
    ensures outcomes[..i + 1][..i] == outcomes[..i] && outcomes[..i + 1][i] == outcomes[i]
    ensures OutcomeKeys(outcomes[..i + 1]) == OutcomeKeys(outcomes[..i]) + {outcomes[i].key}
  {
    var prefix, longer := outcomes[..i], outcomes[..i + 1];
    forall k | k in OutcomeKeys(prefix) + {outcomes[i].key}
      ensures k in OutcomeKeys(longer)
    {
      if k == outcomes[i].key {
        assert longer[i].key == k;
      } else {
        var j :| 0 <= j < i && prefix[j].key == k;
        assert longer[j].key == k;
      }
    }
    forall k | k in OutcomeKeys(longer)
      ensures k in OutcomeKeys(prefix) + {outcomes[i].key}
    {
      var j :| 0 <= j < i + 1 && longer[j].key == k;
      assert j < i ==> prefix[j].key == k;
    }
  }

  /** A refused prefix refuses the whole list, with the same error. */
  lemma {:induction false} RefusalIsFinal(before: map<int, FilingRow>, expected: map<string, int>,
                                          outcomes: seq<Outcome>, now: int, k: nat)
    requires k <= |outcomes| && RecordOutcomes(before, expected, outcomes[..k], now).Err?
    ensures RecordOutcomes(before, expected, outcomes, now) == RecordOutcomes(before, expected, outcomes[..k], now)
    decreases |outcomes| - k
  {
    if k == |outcomes| {
      assert outcomes[..k] == outcomes;
    } else {
      assert outcomes[..k + 1][..k] == outcomes[..k];
      RefusalIsFinal(before, expected, outcomes, now, k + 1);
    }
  }

  /** The worker, whose methods issue the one event its reply calls for. */
  class FilingWorker {
    const backoff: Backoff

    constructor (backoff: Backoff)
      ensures this.backoff == backoff
    {
      this.backoff := backoff;
    }

    method WaitFor(attempt: int, jitter: Int64) returns (delay: int)
      requires 0 <= attempt <= INT64_MAX
      ensures delay == PollDelay(backoff, attempt, jitter)
    {
      var granted, retry := ComputeDelay(backoff, attempt as Int64, jitter);
      if !retry {
        return backoff.maximum as int;
      }
      return granted as int;
    }

    method RetrySubmitLater(store: Store, work: Work, code: string, jitter: Int64, now: int)
      returns (error: Option<StoreError>)
      requires work.attempts <= INT64_MAX
      modifies store
      ensures Follows(Apply(old(store.Tables()), ClaimOf(work), now, RetrySubmit(work, code, backoff, jitter)),
                      old(store.Tables()), store.Tables(), error)
      ensures error.None? ==>
                && work.batchId in store.batches
                && var row := store.batches[work.batchId];
                match Delay(backoff, work.attempts, jitter)
                case Some(delay) => row.state == SubmitUnknown && row.nextActionAt == now + delay / 1000
                case None => row.state == InvariantFailed && row.exhaustedAt == Some(now)
    {
      var delay, retry := ComputeDelay(backoff, work.attempts as Int64, jitter);
      if !retry {
        error := store.TerminalTransition(ClaimOf(work), now, FailureOr(code, "SUBMIT_RETRY_EXHAUSTED"), true);
      } else {
        error := store.RecordSubmitUnknown(ClaimOf(work), now, delay as int, FailureOr(code, "SUBMIT_UNKNOWN"));
      }
    }

    method RetryStatusLater(store: Store, work: Work, code: string, jitter: Int64, now: int)
      returns (error: Option<StoreError>)
      requires work.attempts <= INT64_MAX
      modifies store
      ensures Follows(Apply(old(store.Tables()), ClaimOf(work), now, RetryStatus(work, code, backoff, jitter)),
                      old(store.Tables()), store.Tables(), error)
      ensures error.None? ==>
                && work.batchId in store.batches && work.batchId in old(store.batches)
                && var row := store.batches[work.batchId];
                match Delay(backoff, work.attempts, jitter)
                case Some(delay) =>
                  row.state == old(store.batches)[work.batchId].state && row.nextActionAt == now + delay / 1000
                case None => row.state == InvariantFailed && row.exhaustedAt == Some(now)
    {
      var delay, retry := ComputeDelay(backoff, work.attempts as Int64, jitter);
      if !retry {
        error := store.TerminalTransition(ClaimOf(work), now, FailureOr(code, "STATUS_RETRY_EXHAUSTED"), true);
      } else {
        error := store.RecordStatusUnavailable(ClaimOf(work), now, delay as int, FailureOr(code, "STATUS_UNAVAILABLE"));
      }
    }

    /** `submit`, from the reply on. */
    method FinishSubmit(store: Store, work: Work, reply: Reply, jitter: Int64, now: int)
      returns (error: Option<StoreError>)
      requires work.attempts <= INT64_MAX
      modifies store
      ensures Follows(Apply(old(store.Tables()), ClaimOf(work), now, DecideSubmit(work, reply, backoff, jitter)),
                      old(store.Tables()), store.Tables(), error)
    {
      match reply {
        case ProtocolFailure =>
          error := store.TerminalTransition(ClaimOf(work), now, "MALFORMED_RESPONSE", false);
        case TransportFailure =>
          error := RetrySubmitLater(store, work, "TRANSPORT_ERROR", jitter, now);
        case ReceiptReply(receiptId) =>
          if receiptId != "" {
            var delay := WaitFor(work.attempts, jitter);
            error := store.RecordSubmitAccepted(ClaimOf(work), now, receiptId, delay);
          } else {
            error := store.TerminalTransition(ClaimOf(work), now, "SUBMIT_TERMINAL", false);
          }
        case ErrorReply(httpStatus, code) =>
          if httpStatus == 409 && code == "DUPLICATE_UTID" {
            error := RetrySubmitLater(store, work, code, jitter, now);
          } else if httpStatus == 429 || httpStatus >= 500 {
            error := RetrySubmitLater(store, work, code, jitter, now);
          } else {
            error := store.TerminalTransition(ClaimOf(work), now, FailureOr(code, "SUBMIT_TERMINAL"), false);
          }
        case StatusReply(_, _, _, _) =>
          error := store.TerminalTransition(ClaimOf(work), now, "SUBMIT_TERMINAL", false);
      }
    }

    /** `status`, from the reply on. */
    method FinishStatus(store: Store, work: Work, byUtid: bool, reply: Reply, jitter: Int64, now: int)
      returns (error: Option<StoreError>)
      requires work.attempts <= INT64_MAX
      requires byUtid <==> !SearchesByReceipt(work)
      modifies store
      ensures Follows(Apply(old(store.Tables()), ClaimOf(work), now, DecideStatus(work, reply, backoff, jitter)),
                      old(store.Tables()), store.Tables(), error)
    {
      match reply {
        case ProtocolFailure =>
          error := store.TerminalTransition(ClaimOf(work), now, "MALFORMED_RESPONSE", false);
        case TransportFailure =>
          error := RetryStatusLater(store, work, "TRANSPORT_ERROR", jitter, now);
        case ReceiptReply(_) =>
          error := store.TerminalTransition(ClaimOf(work), now, "STATUS_TERMINAL", false);
        case ErrorReply(httpStatus, code) =>
          if httpStatus == 429 || httpStatus >= 500 {
            error := RetryStatusLater(store, work, FailureOr(code, "STATUS_UNAVAILABLE"), jitter, now);
          } else if byUtid && httpStatus == 404 && code == "NOT_FOUND" {
            var delay := WaitFor(work.attempts, jitter);
            error := store.RecordReferenceNotFound(ClaimOf(work), now, delay, code);
          } else {
            error := store.TerminalTransition(ClaimOf(work), now, FailureOr(code, "STATUS_TERMINAL"), false);
          }
        case StatusReply(receiptId, utid, status, outcomes) =>
          if utid != work.utid || (work.receiptId != "" && receiptId != work.receiptId) {
            error := store.TerminalTransition(ClaimOf(work), now, "REMOTE_IDENTITY_MISMATCH", false);
          } else if byUtid {
            var delay := WaitFor(work.attempts, jitter);
            error := store.RecordReferenceFound(ClaimOf(work), now, receiptId, delay);
          } else if status == "Processing" {
            var delay := WaitFor(work.attempts, jitter);
            error := store.RecordAcknowledgmentPending(ClaimOf(work), now, delay, "");
          } else {
            error := store.CompleteAcknowledgment(ClaimOf(work), now, outcomes);
          }
      }
    }

    /** A live claim with attempts left, under plain settings; the payload is intact and the code storable. */
    ghost predicate Retries(db: Db, work: Work, reply: Reply, now: int) {
      && Effects.Working(db, work, now) && work.digest == Sha256(work.document)
      && Effects.Plain(backoff) && work.attempts > 0 && Effects.AttemptsLeft(backoff, work.attempts)
      && (reply.ErrorReply? ==> ValidFailureCode(reply.code))
    }

    lemma RetryRows(db: Db, work: Work, reply: Reply, now: int, jitter: Int64)
      ensures Retries(db, work, reply, now) ==>
                var row := db.batches[work.batchId];
                var next := now + Min(backoff.maximum as int, backoff.initial as int * Pow2(work.attempts - 1)) / 1000;
                var committed := Apply(db, ClaimOf(work), now, Decide(work, reply, backoff, jitter));
                && (work.action.Submit? && Effects.LeavesUnknown(reply) ==>
                      && committed.Ok? && work.batchId in committed.value.batches
                      && committed.value == db.(batches := db.batches[work.batchId := row.(
                           state := SubmitUnknown, lease := None, nextActionAt := next,
                           lastError := committed.value.batches[work.batchId].lastError)]))
                && (!work.action.Submit? && Effects.Unavailable(reply) ==>
                      && committed.Ok? && work.batchId in committed.value.batches
                      && committed.value == db.(batches := db.batches[work.batchId := row.(
                           lease := None, nextActionAt := next,
                           lastError := committed.value.batches[work.batchId].lastError)]))
                && (reply.StatusReply? && reply.status == "Processing" && work.action.PollStatus?
                    && reply.utid == work.utid && reply.receiptId == work.receiptId ==>
                      committed == Ok(db.(batches := db.batches[work.batchId := row.(
                        lease := None, nextActionAt := next, lastError := "")])))
    {
      if Retries(db, work, reply, now) {
        hide Decide, Apply, Delay;
        Effects.PlainDelay(backoff, work.attempts, jitter);
        Effects.PollExactly(backoff, work.attempts, jitter);
        if work.action.Submit? && Effects.LeavesUnknown(reply) {
          Effects.SubmitRetries(db, work, reply, now, backoff, jitter);
        }
        if !work.action.Submit? && Effects.Unavailable(reply) {
          Effects.StatusRetries(db, work, reply, now, backoff, jitter);
        }
        if reply.StatusReply? && reply.status == "Processing" && work.action.PollStatus?
           && reply.utid == work.utid && reply.receiptId == work.receiptId {
          Effects.PollWaits(db, work, reply, now, backoff, jitter);
        }
      }
    }

    /**
     `ProcessOne` once work is claimed and its call answered: the event is the one the protocol
     model decides on, unless the payload does not match its hash.
     */
    method ProcessReply(store: Store, work: Work, reply: Reply, jitter: Int64, now: int)
      returns (error: Option<StoreError>)
      requires work.attempts <= INT64_MAX
      modifies store
      ensures var event := if Sha256(work.document) != work.digest then FailInvariant("PAYLOAD_HASH_MISMATCH")
                           else Decide(work, reply, backoff, jitter);
              Follows(Apply(old(store.Tables()), ClaimOf(work), now, event),
                      old(store.Tables()), store.Tables(), error)
      ensures Retries(old(store.Tables()), work, reply, now) && work.action.Submit? && Effects.LeavesUnknown(reply) ==>
                error.None? && store.Tables() == old(store.Tables()).(batches := old(store.batches)[work.batchId :=
                  old(store.batches)[work.batchId].(
                    state := SubmitUnknown, lease := None, lastError := store.batches[work.batchId].lastError,
                    nextActionAt := now + Min(backoff.maximum as int,
                                              backoff.initial as int * Pow2(work.attempts - 1)) / 1000)])
      ensures Retries(old(store.Tables()), work, reply, now) && !work.action.Submit? && Effects.Unavailable(reply) ==>
                error.None? && store.Tables() == old(store.Tables()).(batches := old(store.batches)[work.batchId :=
                  old(store.batches)[work.batchId].(
                    lease := None, lastError := store.batches[work.batchId].lastError,
                    nextActionAt := now + Min(backoff.maximum as int,
                                              backoff.initial as int * Pow2(work.attempts - 1)) / 1000)])
      ensures Retries(old(store.Tables()), work, reply, now) && reply.StatusReply? && reply.status == "Processing"
              && work.action.PollStatus? && reply.utid == work.utid && reply.receiptId == work.receiptId ==>
                error.None? && store.Tables() == old(store.Tables()).(batches := old(store.batches)[work.batchId :=
                  old(store.batches)[work.batchId].(
                    lease := None, lastError := "",
                    nextActionAt := now + Min(backoff.maximum as int,
                                              backoff.initial as int * Pow2(work.attempts - 1)) / 1000)])
    {
      ghost var before := store.Tables();
      RetryRows(before, work, reply, now, jitter);
      if Sha256(work.document) != work.digest {
        error := store.TerminalTransition(ClaimOf(work), now, "PAYLOAD_HASH_MISMATCH", false);
        return;
      }
      match work.action {
        case Submit => error := FinishSubmit(store, work, reply, jitter, now);
        case LookupByUtid => error := FinishStatus(store, work, true, reply, jitter, now);
        case PollStatus => error := FinishStatus(store, work, work.receiptId == "", reply, jitter, now);
      }
    }
  }
}
