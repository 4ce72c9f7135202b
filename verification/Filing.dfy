/**
 The durable filing rows and the rules of the store's transactions, as functions on values.
 Each transaction is one atomic step at one database clock instant `now`, in microseconds.
 */
module Filing {
  import opened Prelude
  import opened Intake
  import opened Stub
  import opened Client
  import opened Retry

  datatype BatchState =
    | Planned
    | Submitting
    | SubmitUnknown
    | Submitted
    | AwaitingAck
    | BatchAcknowledged
    | InvariantFailed

  /** Owner, expiry and claim token are null together or not at all. */
  datatype Lease = Lease(owner: string, expiresAt: int, token: string)

  /** SHA-256 of a stored document, taken to be collision-free: the digest is its preimage. */
  datatype Digest = Sha256(document: Document)

  datatype Batch = Batch(firm: string, client: string, taxYear: int, utid: string, document: Document, digest: Digest,
                         links: seq<int>, state: BatchState, receipt: Option<string>, nextActionAt: int, attempts: nat,
                         lease: Option<Lease>, submittedAt: Option<int>, exhaustedAt: Option<int>, lastError: string)

  /** A filing's state carries exactly the columns that the result-shape check allows with it. */
  datatype FilingState =
    | Blocked(preflight: Reason)
    | Ready
    | Batched
    | FilingAccepted(irsRecordId: string, at: int)
    | FilingRejected(reason: string, at: int)

  datatype FilingRow = FilingRow(firm: string, client: string, determination: int, taxYear: int, vendorIdentity: string,
                                 displayName: string, tin: Option<string>, key: string, reportable: int, withheld: int,
                                 state: FilingState)

  /**
   The tables, and the unique indexes on (firm, utid), filing key and receipt. `batchOfFiling` is
   the link table, in which a filing occurs at most once; the slots of a batch are its `links` in order.
   */
  datatype Db = Db(batches: map<int, Batch>, filings: map<int, FilingRow>,
                   batchByUtid: map<FirmUtid, int>, filingByKey: map<string, int>,
                   batchOfFiling: map<int, int>, batchByReceipt: map<string, int>)

  datatype StoreError = InvalidEvent | NotFound | StaleClaim | InvalidTransition | Conflict | Invariant

  predicate Terminal(state: BatchState) {
    state.BatchAcknowledged? || state.InvariantFailed?
  }

  /** `receipt_id IS NULL OR state IN (...)` */
  predicate ReceiptAllowed(batch: Batch) {
    batch.receipt.Some? ==> batch.state in {Submitted, AwaitingAck, BatchAcknowledged, InvariantFailed}
  }

  // Claims

  predicate Unleased(batch: Batch, now: int) {
    batch.lease.None? || batch.lease.value.expiresAt <= now
  }

  predicate Due(batch: Batch, now: int) {
    batch.nextActionAt <= now && !Terminal(batch.state) && Unleased(batch, now)
  }

  function StateAfterClaim(state: BatchState): BatchState {
    match state
    case Planned => Submitting
    case Submitting => SubmitUnknown
    case Submitted => AwaitingAck
    case _ => state
  }

  datatype Action = Submit | LookupByUtid | PollStatus

  function ActionFor(state: BatchState): Option<Action> {
    match state
    case Submitting => Some(Submit)
    case SubmitUnknown => Some(LookupByUtid)
    case Submitted => Some(PollStatus)
    case AwaitingAck => Some(PollStatus)
    case _ => None
  }

  datatype Work = Work(batchId: int, firm: string, client: string, taxYear: int, attempts: nat, action: Action,
                       utid: string, document: Document, digest: Digest, receiptId: string, token: string)

  function Leased(batch: Batch, owner: string, leaseMicros: int, token: string, now: int): Batch {
    batch.(state := StateAfterClaim(batch.state), attempts := batch.attempts + 1,
           lease := Some(Lease(owner, now + leaseMicros, token)))
  }

  function ReceiptText(receipt: Option<string>): string {
    if receipt.Some? then receipt.value else ""
  }

  function WorkOf(id: int, batch: Batch, action: Action, token: string): Work {
    Work(id, batch.firm, batch.client, batch.taxYear, batch.attempts, action, batch.utid, batch.document, batch.digest,
         ReceiptText(batch.receipt), token)
  }

  /** The claim of batch `id`: its new row, and the work handed out or the reason there is none. */
  function ClaimRow(id: int, batch: Batch, owner: string, leaseMicros: int, token: string, now: int)
    : (Batch, Result<Work, StoreError>)
  {
    var leased := Leased(batch, owner, leaseMicros, token, now);
    if Sha256(leased.document) != leased.digest then
      (leased.(state := InvariantFailed, lastError := "PAYLOAD_HASH_MISMATCH", lease := None), Err(Invariant))
    else
      match ActionFor(leased.state)
      case None => (batch, Err(Invariant))
      case Some(action) => (leased, Ok(WorkOf(id, leased, action, token)))
  }

  // Events

  datatype Claim = Claim(batchId: int, firm: string, token: string)

  datatype Event =
    | SubmitAccepted(receiptId: string, delay: int)
    | SubmitOutcomeUnknown(delay: int, code: string)
    | ReferenceFound(receiptId: string, delay: int)
    | ReferenceNotFound(delay: int, code: string)
    | AcknowledgmentPending(delay: int, code: string)
    | StatusUnavailable(delay: int, code: string)
    | CompleteAcknowledgment(outcomes: seq<Outcome>)
    | RetryExhausted(code: string)
    | FailInvariant(code: string)

  predicate FailureCodeChar(c: char) {
    'A' <= c <= 'Z' || '0' <= c <= '9' || c in {'_', '.', '-'}
  }

  predicate ValidFailureCode(code: string) {
    |code| <= 64 && forall i :: 0 <= i < |code| ==> FailureCodeChar(code[i])
  }

  /** `clock_timestamp() + $3 * interval '1 microsecond'`, from a duration in nanoseconds. */
  function DueAfter(now: int, delay: int): int
    requires delay >= 0
  {
    now + delay / 1000
  }

  predicate Holds(batch: Batch, firm: string, token: string, now: int) {
    batch.firm == firm && batch.lease.Some? && batch.lease.value.token == token && batch.lease.value.expiresAt > now
  }

  /** `claimMiss`: why an update matched no row. */
  function ClaimMiss(db: Db, claim: Claim, now: int): StoreError {
    if claim.batchId !in db.batches || db.batches[claim.batchId].firm != claim.firm then NotFound
    else if !Holds(db.batches[claim.batchId], claim.firm, claim.token, now) then StaleClaim
    else InvalidTransition
  }

  /** `eventTransition`. */
  function Transition(db: Db, claim: Claim, now: int, states: set<BatchState>, newState: BatchState, delay: int,
                      receiptId: string, code: string, setSubmitted: bool): Result<Db, StoreError>
  {
    if claim.batchId <= 0 || !ValidDelay(delay) || !ValidFailureCode(code) || |receiptId| > 256 then Err(InvalidEvent)
    else if claim.batchId in db.batches && Holds(db.batches[claim.batchId], claim.firm, claim.token, now)
            && db.batches[claim.batchId].state in states then
      var held := db.batches[claim.batchId];
      if receiptId != "" && receiptId in db.batchByReceipt && db.batchByReceipt[receiptId] != claim.batchId then
        Err(Conflict)
      else
        var row := held.(state := newState,
                        receipt := if receiptId == "" then held.receipt else Some(receiptId),
                        nextActionAt := DueAfter(now, delay),
                        submittedAt := if setSubmitted && held.submittedAt.None? then Some(now) else held.submittedAt,
                        lastError := code, lease := None);
        if !ReceiptAllowed(row) then Err(Invariant)
        else
          Ok(db.(batches := db.batches[claim.batchId := row],
                 batchByReceipt := if receiptId == "" then db.batchByReceipt
                                   else db.batchByReceipt[receiptId := claim.batchId]))
    else Err(ClaimMiss(db, claim, now))
  }

  /** `RecordStatusUnavailable` leaves the state as it is. */
  function Postpone(db: Db, claim: Claim, now: int, delay: int, code: string): Result<Db, StoreError> {
    if claim.batchId <= 0 || !ValidDelay(delay) || !ValidFailureCode(code) then Err(InvalidEvent)
    else if claim.batchId in db.batches && Holds(db.batches[claim.batchId], claim.firm, claim.token, now)
            && db.batches[claim.batchId].state in {SubmitUnknown, AwaitingAck} then
      var held := db.batches[claim.batchId];
      Ok(db.(batches := db.batches[claim.batchId :=
        held.(nextActionAt := DueAfter(now, delay), lastError := code, lease := None)]))
    else Err(ClaimMiss(db, claim, now))
  }

  /** `terminalTransition`. */
  function Terminate(db: Db, claim: Claim, now: int, code: string, exhausted: bool): Result<Db, StoreError> {
    if claim.batchId <= 0 || code == "" || !ValidFailureCode(code) then Err(InvalidEvent)
    else if claim.batchId in db.batches && Holds(db.batches[claim.batchId], claim.firm, claim.token, now)
            && !Terminal(db.batches[claim.batchId].state) then
      var held := db.batches[claim.batchId];
      Ok(db.(batches := db.batches[claim.batchId :=
        held.(state := InvariantFailed, lastError := code, exhaustedAt := if exhausted then Some(now) else None,
             lease := None)]))
    else Err(ClaimMiss(db, claim, now))
  }

  // Acknowledgments

  predicate AcceptedOutcome(outcome: Outcome) {
    outcome.irsRecordId != "" && outcome.reason == ""
  }

  predicate RejectedOutcome(outcome: Outcome) {
    outcome.irsRecordId == "" && ValidReason(outcome.reason)
  }

  predicate WellFormed(outcome: Outcome) {
    AcceptedOutcome(outcome) || RejectedOutcome(outcome)
  }

  function ResultState(outcome: Outcome, now: int): FilingState {
    if RejectedOutcome(outcome) then FilingRejected(outcome.reason, now) else FilingAccepted(outcome.irsRecordId, now)
  }

  /** The rows of the joined query: filing key to filing, for the filings of one batch. */
  function Expected(filings: map<int, FilingRow>, links: seq<int>): map<string, int>
    requires forall i :: 0 <= i < |links| ==> links[i] in filings
  {
    if links == [] then map[]
    else
      var n := |links| - 1;
      Expected(filings, links[..n])[filings[links[n]].key := links[n]]
  }

  function OutcomeKeys(outcomes: seq<Outcome>): set<string> {
    set i | 0 <= i < |outcomes| :: outcomes[i].key
  }

  /** What the loop over the outcomes does to the filing rows, up to its first refusal. */
  function RecordOutcomes(filings: map<int, FilingRow>, expected: map<string, int>, outcomes: seq<Outcome>, now: int)
    : Result<map<int, FilingRow>, StoreError>
  {
    if outcomes == [] then Ok(filings)
    else
      var n := |outcomes| - 1;
      match RecordOutcomes(filings, expected, outcomes[..n], now)
      case Err(e) => Err(e)
      case Ok(rows) =>
        var outcome := outcomes[n];
        if outcome.key !in expected || outcome.key in OutcomeKeys(outcomes[..n]) || !WellFormed(outcome) then
          Err(Invariant)
        else
          var id := expected[outcome.key];
          if id in rows && rows[id].state.Batched? then
            Ok(rows[id := rows[id].(state := ResultState(outcome, now))])
          else Err(Invariant)
  }

  predicate LinksExist(db: Db, batch: Batch) {
    forall i :: 0 <= i < |batch.links| ==> batch.links[i] in db.filings
  }

  /** The filings a claim names, as the joined query sees them; none when the batch is not the firm's. */
  function ExpectedFor(db: Db, claim: Claim): map<string, int> {
    if claim.batchId in db.batches && db.batches[claim.batchId].firm == claim.firm
        && LinksExist(db, db.batches[claim.batchId])
    then Expected(db.filings, db.batches[claim.batchId].links)
    else map[]
  }

  function Acknowledge(db: Db, claim: Claim, now: int, outcomes: seq<Outcome>): Result<Db, StoreError> {
    if claim.batchId <= 0 || outcomes == [] then Err(Invariant)
    else
      var expected := ExpectedFor(db, claim);
      if |expected| != |outcomes| then Err(Invariant)
      else
        match RecordOutcomes(db.filings, expected, outcomes, now)
        case Err(e) => Err(e)
        case Ok(rows) =>
          if claim.batchId in db.batches && Holds(db.batches[claim.batchId], claim.firm, claim.token, now)
             && db.batches[claim.batchId].state in {Submitted, AwaitingAck} then
            var held := db.batches[claim.batchId];
            Ok(db.(filings := rows,
                   batches := db.batches[claim.batchId := held.(state := BatchAcknowledged, lease := None,
                                                                lastError := "")]))
          else Err(ClaimMiss(db, claim, now))
  }

  /** Every transition the store offers, on the event that carries its data. */
  function Apply(db: Db, claim: Claim, now: int, event: Event): Result<Db, StoreError> {
    match event
    case SubmitAccepted(receiptId, delay) =>
      if receiptId == "" then Err(InvalidEvent)
      else Transition(db, claim, now, {Submitting}, Submitted, delay, receiptId, "", true)
    case SubmitOutcomeUnknown(delay, code) =>
      Transition(db, claim, now, {Submitting}, SubmitUnknown, delay, "", code, false)
    case ReferenceFound(receiptId, delay) =>
      if receiptId == "" then Err(InvalidEvent)
      else Transition(db, claim, now, {SubmitUnknown}, Submitted, delay, receiptId, "", true)
    case ReferenceNotFound(delay, code) =>
      Transition(db, claim, now, {SubmitUnknown}, Planned, delay, "", code, false)
    case AcknowledgmentPending(delay, code) =>
      Transition(db, claim, now, {Submitted, AwaitingAck}, AwaitingAck, delay, "", code, false)
    case StatusUnavailable(delay, code) => Postpone(db, claim, now, delay, code)
    case CompleteAcknowledgment(outcomes) => Acknowledge(db, claim, now, outcomes)
    case RetryExhausted(code) => Terminate(db, claim, now, code, true)
    case FailInvariant(code) => Terminate(db, claim, now, code, false)
  }

  // What an acknowledgment does

  /** Outcomes that name each expected filing exactly once, each well formed. */
  predicate Complete(expected: map<string, int>, outcomes: seq<Outcome>) {
    && (forall i :: 0 <= i < |outcomes| ==> outcomes[i].key in expected && WellFormed(outcomes[i]))
    && (forall i, j :: 0 <= i < j < |outcomes| ==> outcomes[i].key != outcomes[j].key)
  }

  predicate AllBatched(filings: map<int, FilingRow>, expected: map<string, int>, outcomes: seq<Outcome>)
    requires forall i :: 0 <= i < |outcomes| ==> outcomes[i].key in expected
  {
    forall i :: 0 <= i < |outcomes| ==>
      expected[outcomes[i].key] in filings && filings[expected[outcomes[i].key]].state.Batched?
  }

  predicate OneToOne(expected: map<string, int>) {
    forall k, k' :: k in expected && k' in expected && expected[k] == expected[k'] ==> k == k'
  }

  predicate InExpected(expected: map<string, int>, outcomes: seq<Outcome>) {
    forall i :: 0 <= i < |outcomes| ==> outcomes[i].key in expected
  }

  /** Each outcome's filing is accepted with its record, or rejected for its reason, and otherwise as before. */
  predicate Updated(before: map<int, FilingRow>, after: map<int, FilingRow>, expected: map<string, int>,
                    outcomes: seq<Outcome>, now: int)
    requires InExpected(expected, outcomes)
  {
    forall i :: 0 <= i < |outcomes| ==>
      var id := expected[outcomes[i].key];
      && id in before && id in after
      && after[id] == before[id].(state := if outcomes[i].irsRecordId != ""
                                           then FilingAccepted(outcomes[i].irsRecordId, now)
                                           else FilingRejected(outcomes[i].reason, now))
  }

  /** Filings that no outcome names are as before. */
  predicate Untouched(before: map<int, FilingRow>, after: map<int, FilingRow>, expected: map<string, int>,
                      outcomes: seq<Outcome>)
    requires InExpected(expected, outcomes)
  {
    && after.Keys == before.Keys
    && forall id :: id in before && (forall i :: 0 <= i < |outcomes| ==> expected[outcomes[i].key] != id)
         ==> after[id] == before[id]
  }

  predicate Recorded(before: map<int, FilingRow>, after: map<int, FilingRow>, expected: map<string, int>,
                     outcomes: seq<Outcome>, now: int)
  {
    && InExpected(expected, outcomes)
    && Updated(before, after, expected, outcomes, now)
    && Untouched(before, after, expected, outcomes)
  }

  /**
   The loop refuses, with one error, exactly when an outcome is unknown, repeated, malformed or for
   a filing not pending.
   */
  lemma {:induction false} RecordOutcomesMeaning(filings: map<int, FilingRow>, expected: map<string, int>,
                                                 outcomes: seq<Outcome>, now: int)
    requires OneToOne(expected)
    ensures RecordOutcomes(filings, expected, outcomes, now).Ok? <==>
              Complete(expected, outcomes) && AllBatched(filings, expected, outcomes)
    ensures RecordOutcomes(filings, expected, outcomes, now).Ok? ==>
              Recorded(filings, RecordOutcomes(filings, expected, outcomes, now).value, expected, outcomes, now)
    ensures RecordOutcomes(filings, expected, outcomes, now).Err? ==>
              RecordOutcomes(filings, expected, outcomes, now).error == Invariant
  {
    if outcomes != [] {
      var n := |outcomes| - 1;
      var prefix := outcomes[..n];
      RecordOutcomesMeaning(filings, expected, prefix, now);
      assert outcomes == prefix + [outcomes[n]];
      if RecordOutcomes(filings, expected, outcomes, now).Ok? {
        var rows := RecordOutcomes(filings, expected, prefix, now).value;
        KeysDiffer(expected, prefix, outcomes[n]);
        RecordOne(filings, rows, expected, prefix, outcomes[n], now);
      } else if Complete(expected, outcomes) && AllBatched(filings, expected, outcomes) {
        CompletePrefix(filings, expected, prefix, outcomes[n]);
        var rows := RecordOutcomes(filings, expected, prefix, now).value;
        RecordOne(filings, rows, expected, prefix, outcomes[n], now);
      }
    }
  }

  predicate NewKey(outcomes: seq<Outcome>, outcome: Outcome) {
    forall i :: 0 <= i < |outcomes| ==> outcomes[i].key != outcome.key
  }

  lemma KeysDiffer(expected: map<string, int>, outcomes: seq<Outcome>, outcome: Outcome)
    requires outcome.key !in OutcomeKeys(outcomes)
    ensures NewKey(outcomes, outcome)
  {
    forall i | 0 <= i < |outcomes|
      ensures outcomes[i].key != outcome.key
    {
      assert outcomes[i].key in OutcomeKeys(outcomes);
    }
  }

  lemma CompletePrefix(filings: map<int, FilingRow>, expected: map<string, int>, prefix: seq<Outcome>, last: Outcome)
    requires Complete(expected, prefix + [last]) && AllBatched(filings, expected, prefix + [last])
    ensures Complete(expected, prefix) && AllBatched(filings, expected, prefix)
    ensures NewKey(prefix, last) && last.key !in OutcomeKeys(prefix)
  {
    var outcomes := prefix + [last];
    assert forall i :: 0 <= i < |prefix| ==> prefix[i] == outcomes[i];
    assert outcomes[|prefix|] == last;
  }

  /** Recording one more outcome, for a filing that no earlier outcome names. */
  lemma RecordOne(filings: map<int, FilingRow>, rows: map<int, FilingRow>, expected: map<string, int>,
                  prefix: seq<Outcome>, last: Outcome, now: int)
    requires OneToOne(expected) && Complete(expected, prefix) && AllBatched(filings, expected, prefix)
    requires Recorded(filings, rows, expected, prefix, now)
    requires last.key in expected && NewKey(prefix, last)
    ensures expected[last.key] in rows <==> expected[last.key] in filings
    ensures expected[last.key] in rows ==> rows[expected[last.key]] == filings[expected[last.key]]
    ensures WellFormed(last) && expected[last.key] in rows && rows[expected[last.key]].state.Batched? ==>
              var id := expected[last.key];
              var outcomes := prefix + [last];
              && Complete(expected, outcomes) && AllBatched(filings, expected, outcomes)
              && Recorded(filings, rows[id := rows[id].(state := ResultState(last, now))], expected, outcomes, now)
  {
    var id := expected[last.key];
    forall i | 0 <= i < |prefix|
      ensures expected[prefix[i].key] != id
    {
      assert prefix[i].key != last.key;
    }
    if WellFormed(last) && id in rows && rows[id].state.Batched? {
      ExtendRecorded(filings, rows, expected, prefix, last, now);
    }
  }

  lemma ExtendUpdated(filings: map<int, FilingRow>, rows: map<int, FilingRow>, expected: map<string, int>,
                      prefix: seq<Outcome>, last: Outcome, now: int)
    requires InExpected(expected, prefix) && last.key in expected && Updated(filings, rows, expected, prefix, now)
    requires WellFormed(last)
    requires forall i :: 0 <= i < |prefix| ==> expected[prefix[i].key] != expected[last.key]
    requires expected[last.key] in rows && expected[last.key] in filings
    requires rows[expected[last.key]] == filings[expected[last.key]]
    ensures var id := expected[last.key];
            && InExpected(expected, prefix + [last])
            && Updated(filings, rows[id := rows[id].(state := ResultState(last, now))], expected, prefix + [last], now)
  {
    var outcomes := prefix + [last];
    assert outcomes[|prefix|] == last;
    assert forall i :: 0 <= i < |prefix| ==> outcomes[i] == prefix[i];
  }

  lemma ExtendUntouched(filings: map<int, FilingRow>, rows: map<int, FilingRow>, expected: map<string, int>,
                        prefix: seq<Outcome>, last: Outcome, row: FilingRow)
    requires InExpected(expected, prefix) && last.key in expected && Untouched(filings, rows, expected, prefix)
    requires expected[last.key] in filings
    ensures InExpected(expected, prefix + [last])
    ensures Untouched(filings, rows[expected[last.key] := row], expected, prefix + [last])
  {
    var outcomes := prefix + [last];
    assert outcomes[|prefix|] == last;
    assert forall i :: 0 <= i < |prefix| ==> outcomes[i] == prefix[i];
  }

  lemma ExtendRecorded(filings: map<int, FilingRow>, rows: map<int, FilingRow>, expected: map<string, int>,
                       prefix: seq<Outcome>, last: Outcome, now: int)
    requires Complete(expected, prefix) && AllBatched(filings, expected, prefix)
    requires Recorded(filings, rows, expected, prefix, now)
    requires last.key in expected && NewKey(prefix, last) && WellFormed(last)
    requires forall i :: 0 <= i < |prefix| ==> expected[prefix[i].key] != expected[last.key]
    requires expected[last.key] in filings && filings[expected[last.key]].state.Batched?
    requires expected[last.key] in rows && rows[expected[last.key]] == filings[expected[last.key]]
    ensures var id := expected[last.key];
            var outcomes := prefix + [last];
            && Complete(expected, outcomes) && AllBatched(filings, expected, outcomes)
            && Recorded(filings, rows[id := rows[id].(state := ResultState(last, now))], expected, outcomes, now)
  {
    hide Updated, Untouched, WellFormed, ResultState;
    ExtendUpdated(filings, rows, expected, prefix, last, now);
    ExtendUntouched(filings, rows, expected, prefix, last,
                    rows[expected[last.key]].(state := ResultState(last, now)));
  }

  lemma {:induction false} ExpectedMeaning(filings: map<int, FilingRow>, links: seq<int>)
    requires forall i :: 0 <= i < |links| ==> links[i] in filings
    ensures var expected := Expected(filings, links);
            && (forall k :: k in expected ==> expected[k] in links && filings[expected[k]].key == k)
            && (forall i :: 0 <= i < |links| ==> filings[links[i]].key in expected)
            && OneToOne(expected)
  {
    if links != [] {
      var n := |links| - 1;
      ExpectedMeaning(filings, links[..n]);
      assert links == links[..n] + [links[n]];
    }
  }

  predicate KeysDistinct(filings: map<int, FilingRow>, links: seq<int>)
    requires forall i :: 0 <= i < |links| ==> links[i] in filings
  {
    forall i, j :: 0 <= i < j < |links| ==> filings[links[i]].key != filings[links[j]].key
  }

  lemma {:induction false} ExpectedSize(filings: map<int, FilingRow>, links: seq<int>)
    requires forall i :: 0 <= i < |links| ==> links[i] in filings
    requires KeysDistinct(filings, links)
    ensures |Expected(filings, links)| == |links|
  {
    if links != [] {
      var n := |links| - 1;
      var prefix := links[..n];
      ExpectedSize(filings, prefix);
      ExpectedMeaning(filings, prefix);
      assert forall j :: 0 <= j < n ==> prefix[j] == links[j];
      assert filings[links[n]].key !in Expected(filings, prefix);
    }
  }

  lemma ExpectedAt(filings: map<int, FilingRow>, links: seq<int>, i: nat)
    requires forall i :: 0 <= i < |links| ==> links[i] in filings
    requires KeysDistinct(filings, links) && i < |links|
    ensures var expected := Expected(filings, links);
            filings[links[i]].key in expected && expected[filings[links[i]].key] == links[i]
  {
    ExpectedMeaning(filings, links);
    var id := Expected(filings, links)[filings[links[i]].key];
    var j :| 0 <= j < |links| && links[j] == id;
  }
}
