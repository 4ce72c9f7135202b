/**
 The receiver: two indexes of recorded submissions, the set of original records, and frozen
 results. The rules are functions on values; `StubStore` is the object whose methods, under one
 mutex, update its maps in place.
 */
module Stub {
  import opened Prelude
  import opened Intake
  import opened Money

  datatype Reason = TinMissing | TinMalformed | TinInvalid | AmountInvalid

  datatype RecordResult =
    | AcceptedRecord(recordId: string, irsRecordId: string)
    | RejectedRecord(recordId: string, reason: Reason)

  datatype Submission = Submission(receiptId: string, utid: string, firm: string, client: string, taxYear: string,
                                   submissionId: string, availableAt: Option<int>, results: seq<RecordResult>)

  datatype FirmUtid = FirmUtid(firm: string, utid: string)

  datatype RecordKey = RecordKey(firm: string, client: string, taxYear: string, recordId: string)

  datatype StubState = StubState(byUtid: map<FirmUtid, Submission>, byReceipt: map<string, Submission>,
                                 originals: set<RecordKey>, generated: set<string>)

  datatype Fault = IntakeSucceeded | FailBeforeRecord | FailAfterRecord

  /**
   The random draws of one intake: which fault, the identifiers `newOpaqueID` settles on (it
   redraws until the identifier is new), and when, if ever, the acknowledgment is available.
   `recordIds` holds one identifier for every record; those of rejected records go unused.
   */
  datatype Draw = Draw(fault: Fault, receiptId: string, recordIds: seq<string>, availableAt: Option<int>)

  datatype IntakeError = DuplicateUtid | DuplicateRecord

  /** `strings.TrimSpace(value) == ""`, on ASCII white space. */
  predicate Blank(value: string) {
    forall i :: 0 <= i < |value| ==> value[i] in {' ', '\t', '\n', '\r', 11 as char, 12 as char}
  }

  predicate NineDigits(value: string) {
    |value| == 9 && AllDigits(value)
  }

  predicate StartsWith000(value: string) {
    |value| >= 3 && value[0] == '0' && value[1] == '0' && value[2] == '0'
  }

  /** The defect the receiver reports, in its fixed order of precedence. */
  function Defect(record: FilingRecord): Option<Reason> {
    if Blank(record.recipientTin) then Some(TinMissing)
    else if !NineDigits(record.recipientTin) then Some(TinMalformed)
    else if StartsWith000(record.recipientTin) then Some(TinInvalid)
    else if record.amountCents <= 0 then Some(AmountInvalid)
    else None
  }

  predicate Accepts(record: FilingRecord) {
    Defect(record).None?
  }

  function ResultFor(record: FilingRecord, irsRecordId: string): RecordResult {
    match Defect(record)
    case Some(reason) => RejectedRecord(record.recordId, reason)
    case None => AcceptedRecord(record.recordId, irsRecordId)
  }

  lemma BlankMeaning(value: string)
    ensures Blank(value) <==> forall c :: c in value ==> c == ' ' || 9 <= c as int <= 13
  {
    forall i | 0 <= i < |value|
      ensures value[i] in {' ', '\t', '\n', '\r', 11 as char, 12 as char}
         <==> value[i] == ' ' || 9 <= value[i] as int <= 13
    {
      White(value[i]);
    }
    if Blank(value) {
      forall c | c in value
        ensures c == ' ' || 9 <= c as int <= 13
      {
        var i :| 0 <= i < |value| && value[i] == c;
      }
    } else {
      var i :| 0 <= i < |value| && value[i] !in {' ', '\t', '\n', '\r', 11 as char, 12 as char};
      assert value[i] in value;
    }
  }

  lemma White(c: char)
    ensures c in {' ', '\t', '\n', '\r', 11 as char, 12 as char} <==> c == ' ' || 9 <= c as int <= 13
  {
    assert '\t' as int == 9 && '\n' as int == 10 && '\r' as int == 13;
    if 9 <= c as int <= 13 {
      assert c == (c as int) as char;
    }
  }

  /** Nine digits that do not begin with three zeros. */
  predicate ValidTin(tin: string) {
    |tin| == 9 && (forall i :: 0 <= i < 9 ==> '0' <= tin[i] <= '9') && !(tin[0] == tin[1] == tin[2] == '0')
  }

  /**
   The verdict on a record and how it is written: accepted, with the identifier, exactly with a
   valid TIN and a positive amount; otherwise the first defect of blank TIN, not nine digits, 000,
   and amount.
   */
  lemma VerdictExactly(record: FilingRecord, irsRecordId: string)
    ensures var tin, wire := record.recipientTin, WireOf(ResultFor(record, irsRecordId));
            && wire.recordId == record.recordId
            && (wire.status == "Accepted" <==> ValidTin(tin) && record.amountCents > 0)
            && (wire.status == "Accepted" ==> wire.irsRecordId == irsRecordId && wire.reason == "")
            && (wire.status != "Accepted" ==> wire.status == "Rejected" && wire.irsRecordId == "")
            && (wire.reason == "TIN_MISSING" <==> forall c :: c in tin ==> c == ' ' || 9 <= c as int <= 13)
            && (wire.reason == "TIN_INVALID" <==> |tin| == 9 && AllDigits(tin) && tin[..3] == "000")
            && (wire.reason == "AMOUNT_INVALID" <==> ValidTin(tin) && record.amountCents <= 0)
            && (wire.reason == "TIN_MALFORMED" <==>
                  && !(|tin| == 9 && AllDigits(tin))
                  && exists c :: c in tin && c != ' ' && !(9 <= c as int <= 13))
  {
    var tin := record.recipientTin;
    BlankMeaning(tin);
    if |tin| == 9 && AllDigits(tin) {
      assert '0' <= tin[0] <= '9';
      assert tin[..3] == "000" <==> tin[0] == tin[1] == tin[2] == '0';
    }
  }

  function Results(records: seq<FilingRecord>, ids: seq<string>): (r: seq<RecordResult>)
    requires |ids| == |records|
    ensures |r| == |records|
  {
    seq(|records|, i requires 0 <= i < |records| => ResultFor(records[i], ids[i]))
  }

  function KeyOf(tx: Transmission, record: FilingRecord): RecordKey {
    RecordKey(tx.firm, tx.client, tx.taxYear, record.recordId)
  }

  function KeysOf(tx: Transmission): set<RecordKey> {
    set i | 0 <= i < |tx.records| :: KeyOf(tx, tx.records[i])
  }

  predicate RecordedBefore(st: StubState, tx: Transmission) {
    exists i :: 0 <= i < |tx.records| && KeyOf(tx, tx.records[i]) in st.originals
  }

  /** A prefix followed by 32 hexadecimal digits. */
  predicate OpaqueId(prefix: string, id: string) {
    |id| == |prefix| + 32 && id[..|prefix|] == prefix
  }

  /** The identifiers drawn are well formed, new, and pairwise different. */
  predicate NewIds(st: StubState, tx: Transmission, draw: Draw) {
    && |draw.recordIds| == |tx.records|
    && OpaqueId("rcpt_", draw.receiptId)
    && (forall i :: 0 <= i < |draw.recordIds| ==> OpaqueId("irsrec_", draw.recordIds[i]))
    && draw.receiptId !in st.generated
    && (forall i :: 0 <= i < |draw.recordIds| ==>
          draw.recordIds[i] !in st.generated && draw.recordIds[i] != draw.receiptId)
    && Distinct(draw.recordIds)
  }

  function UsedIds(records: seq<FilingRecord>, ids: seq<string>): set<string>
    requires |ids| == |records|
  {
    set i | 0 <= i < |records| && Accepts(records[i]) :: ids[i]
  }

  function SubmissionFor(tx: Transmission, draw: Draw): Submission
    requires |draw.recordIds| == |tx.records|
  {
    Submission(draw.receiptId, tx.utid, tx.firm, tx.client, tx.taxYear, tx.submissionId, draw.availableAt,
               Results(tx.records, draw.recordIds))
  }

  /** `Store.record`: the UTID is checked before the records, and a fault before recording leaves no trace. */
  function Record(st: StubState, tx: Transmission, draw: Draw): (StubState, Result<string, IntakeError>)
    requires |draw.recordIds| == |tx.records|
  {
    if FirmUtid(tx.firm, tx.utid) in st.byUtid then (st, Err(DuplicateUtid))
    else if RecordedBefore(st, tx) then (st, Err(DuplicateRecord))
    else if draw.fault.FailBeforeRecord? then (st, Ok(""))
    else
      var recorded := SubmissionFor(tx, draw);
      (StubState(st.byUtid[FirmUtid(tx.firm, tx.utid) := recorded],
                 st.byReceipt[draw.receiptId := recorded],
                 st.originals + KeysOf(tx),
                 st.generated + {draw.receiptId} + UsedIds(tx.records, draw.recordIds)),
       Ok(draw.receiptId))
  }

  /** A search finds what is indexed under the identity for the searching firm, and nothing of another firm. */
  lemma FindsOwnOnly(st: StubState, firm: string, receiptId: string, utid: string)
    ensures FindByReceipt(st, firm, receiptId).Some?
       <==> receiptId in st.byReceipt && st.byReceipt[receiptId].firm == firm
    ensures FindByReceipt(st, firm, receiptId).Some? ==>
              FindByReceipt(st, firm, receiptId).value == st.byReceipt[receiptId]
    ensures FindByUtid(st, firm, utid).Some? <==> FirmUtid(firm, utid) in st.byUtid
    ensures FindByUtid(st, firm, utid).Some? ==> FindByUtid(st, firm, utid).value == st.byUtid[FirmUtid(firm, utid)]
  {
  }

  function FindByReceipt(st: StubState, firm: string, receiptId: string): Option<Submission> {
    if receiptId in st.byReceipt && st.byReceipt[receiptId].firm == firm then Some(st.byReceipt[receiptId]) else None
  }

  function FindByUtid(st: StubState, firm: string, utid: string): Option<Submission> {
    if FirmUtid(firm, utid) in st.byUtid then Some(st.byUtid[FirmUtid(firm, utid)]) else None
  }

  /** `classifyIntakeFault`, on a draw from 0 up to 100. */
  function ClassifyFault(draw: real, failBefore: real, failAfter: real): Fault {
    if draw < failBefore then FailBeforeRecord
    else if draw < failBefore + failAfter then FailAfterRecord
    else IntakeSucceeded
  }

  // Status answers

  datatype WireResult = WireResult(recordId: string, status: string, irsRecordId: string, reason: string)

  datatype WireStatus = WireStatus(receiptId: string, utid: string, status: string, results: seq<WireResult>)

  function ReasonText(reason: Reason): string {
    match reason
    case TinMissing => "TIN_MISSING"
    case TinMalformed => "TIN_MALFORMED"
    case TinInvalid => "TIN_INVALID"
    case AmountInvalid => "AMOUNT_INVALID"
  }

  function WireOf(result: RecordResult): WireResult {
    match result
    case AcceptedRecord(id, irs) => WireResult(id, "Accepted", irs, "")
    case RejectedRecord(id, reason) => WireResult(id, "Rejected", "", ReasonText(reason))
  }

  function WiresOf(results: seq<RecordResult>): (w: seq<WireResult>)
    ensures |w| == |results|
  {
    seq(|results|, i requires 0 <= i < |results| => WireOf(results[i]))
  }

  function AcceptedCount(results: seq<RecordResult>): (n: nat)
    ensures n <= |results|
  {
    if results == [] then 0
    else AcceptedCount(results[..|results| - 1]) + (if results[|results| - 1].AcceptedRecord? then 1 else 0)
  }

  function OverallStatus(results: seq<RecordResult>): string {
    var accepted := AcceptedCount(results);
    if accepted == |results| then "Accepted" else if accepted == 0 then "Rejected" else "PartiallyAccepted"
  }

  predicate Acknowledged(recorded: Submission, now: int) {
    recorded.availableAt.Some? && recorded.availableAt.value <= now
  }

  /** The answer of `handleStatus` for a submission that was found. */
  function StatusOf(recorded: Submission, now: int): WireStatus {
    if Acknowledged(recorded, now) then
      WireStatus(recorded.receiptId, recorded.utid, OverallStatus(recorded.results), WiresOf(recorded.results))
    else
      WireStatus(recorded.receiptId, recorded.utid, "Processing", [])
  }

  /** The loop of `handleStatus`, with its accepted counter. */
  method BuildStatus(recorded: Submission, now: int) returns (response: WireStatus)
    ensures response == StatusOf(recorded, now)
  {
    response := WireStatus(recorded.receiptId, recorded.utid, "Processing", []);
    if recorded.availableAt.Some? && recorded.availableAt.value <= now {
      var wires: seq<WireResult> := [];
      var accepted := 0;
      for i := 0 to |recorded.results|
        invariant wires == WiresOf(recorded.results[..i])
        invariant accepted == AcceptedCount(recorded.results[..i])
      {
        assert recorded.results[..i + 1][..i] == recorded.results[..i];
        wires := wires + [WireOf(recorded.results[i])];
        if recorded.results[i].AcceptedRecord? {
          accepted := accepted + 1;
        }
      }
      assert recorded.results[..|recorded.results|] == recorded.results;
      var status := "PartiallyAccepted";
      if accepted == |recorded.results| {
        status := "Accepted";
      } else if accepted == 0 {
        status := "Rejected";
      }
      response := WireStatus(recorded.receiptId, recorded.utid, status, wires);
    }
  }

  /** The overall status says exactly whether all, none, or some of the records were accepted. */
  lemma {:induction false} OverallStatusMeaning(results: seq<RecordResult>)
    ensures OverallStatus(results) == "Accepted" <==> forall i :: 0 <= i < |results| ==> results[i].AcceptedRecord?
    ensures OverallStatus(results) == "Rejected" <==>
              results != [] && forall i :: 0 <= i < |results| ==> results[i].RejectedRecord?
  {
    CountMeaning(results);
  }

  /**
   Before the acknowledgment is available the answer is `Processing` and empty; from then on it is
   all the results.
   */
  lemma StatusExactly(recorded: Submission, now: int)
    ensures var response := StatusOf(recorded, now);
            && response.receiptId == recorded.receiptId && response.utid == recorded.utid
            && (recorded.availableAt.None? || now < recorded.availableAt.value ==>
                  response.status == "Processing" && response.results == [])
            && (recorded.availableAt.Some? && recorded.availableAt.value <= now ==>
                  && |response.results| == |recorded.results|
                  && (forall i :: 0 <= i < |recorded.results| ==> response.results[i] == WireOf(recorded.results[i]))
                  && (response.status == "Accepted" <==>
                        forall i :: 0 <= i < |recorded.results| ==> recorded.results[i].AcceptedRecord?)
                  && (response.status == "Rejected" <==>
                        && recorded.results != []
                        && forall i :: 0 <= i < |recorded.results| ==> recorded.results[i].RejectedRecord?)
                  && response.status in {"Accepted", "Rejected", "PartiallyAccepted"})
  {
    OverallStatusMeaning(recorded.results);
  }

  lemma {:induction false} CountMeaning(results: seq<RecordResult>)
    ensures AcceptedCount(results) == |results| <==> forall i :: 0 <= i < |results| ==> results[i].AcceptedRecord?
    ensures AcceptedCount(results) == 0 <==> forall i :: 0 <= i < |results| ==> results[i].RejectedRecord?
  {
    if results != [] {
      var n := |results| - 1;
      var prefix := results[..n];
      CountMeaning(prefix);
      assert forall i :: 0 <= i < n ==> prefix[i] == results[i];
    }
  }

  /** The receiver's state, updated in place under its mutex. */
  class StubStore {
    var byUtid: map<FirmUtid, Submission>
    var byReceipt: map<string, Submission>
    var originals: set<RecordKey>
    var generated: set<string>

    function State(): StubState
      reads this
    {
      StubState(byUtid, byReceipt, originals, generated)
    }

    constructor ()
      ensures State() == StubState(map[], map[], {}, {})
    {
      byUtid, byReceipt, originals, generated := map[], map[], {}, {};
    }

    /** Draws until the identifier is new; `draws` is the stream of random identifiers, consumed up to the one used. */
    method NewOpaqueId(draws: seq<string>) returns (index: nat)
      requires exists i :: 0 <= i < |draws| && draws[i] !in generated
      modifies this`generated
      ensures index < |draws| && draws[index] !in old(generated)
      ensures forall i :: 0 <= i < index ==> draws[i] in old(generated)
      ensures generated == old(generated) + {draws[index]}
    {
      index := 0;
      while draws[index] in generated
        invariant index < |draws|
        invariant forall i :: 0 <= i < index ==> draws[i] in generated
        decreases |draws| - index
      {
        index := index + 1;
      }
      generated := generated + {draws[index]};
    }

    /** The loop that decides every record once and for all, drawing an identifier for each accepted one. */
    method FreezeResults(tx: Transmission, draw: Draw) returns (results: seq<RecordResult>)
      requires |draw.recordIds| == |tx.records|
      modifies this`generated
      ensures results == Results(tx.records, draw.recordIds)
      ensures generated == old(generated) + UsedIds(tx.records, draw.recordIds)
    {
      results := [];
      for i := 0 to |tx.records|
        invariant |results| == i && forall k :: 0 <= k < i ==> results[k] == ResultFor(tx.records[k], draw.recordIds[k])
        invariant generated == old(generated) + UsedIds(tx.records[..i], draw.recordIds[..i])
      {
        results := results + [ResultFor(tx.records[i], draw.recordIds[i])];
        UsedIdsNext(tx.records, draw.recordIds, i);
        if Accepts(tx.records[i]) {
          generated := generated + {draw.recordIds[i]};
        }
      }
      assert tx.records[..|tx.records|] == tx.records && draw.recordIds[..|tx.records|] == draw.recordIds;
    }

    /** `Store.record`, given its first random draw, the fault percentages, and what its other draws settle on. */
    method RecordTransmission(tx: Transmission, roll: real, failBefore: real, failAfter: real, draw: Draw)
      returns (r: Result<string, IntakeError>, fault: Fault)
      requires |draw.recordIds| == |tx.records|
      modifies this
      ensures (State(), r) == Record(old(State()), tx, draw.(fault := ClassifyFault(roll, failBefore, failAfter)))
      ensures fault == if r.Err? then IntakeSucceeded else ClassifyFault(roll, failBefore, failAfter)
      ensures r == Err(DuplicateUtid) <==> FirmUtid(tx.firm, tx.utid) in old(byUtid)
      ensures r == Err(DuplicateRecord) <==>
                && FirmUtid(tx.firm, tx.utid) !in old(byUtid)
                && exists record :: record in tx.records
                     && RecordKey(tx.firm, tx.client, tx.taxYear, record.recordId) in old(originals)
      ensures r.Err? ==> State() == old(State())
      ensures r.Ok? && 0.0 <= failBefore && 0.0 <= failAfter ==>
                && (fault.FailBeforeRecord? <==> roll < failBefore)
                && (fault.FailAfterRecord? <==> failBefore <= roll < failBefore + failAfter)
                && (fault.IntakeSucceeded? <==> failBefore + failAfter <= roll)
      ensures r.Ok? && roll < failBefore ==> r == Ok("") && State() == old(State())
      ensures r.Ok? && failBefore <= roll ==>
                && r == Ok(draw.receiptId) && draw.receiptId in byReceipt
                && var recorded := byReceipt[draw.receiptId];
                && byUtid == old(byUtid)[FirmUtid(tx.firm, tx.utid) := recorded]
                && byReceipt == old(byReceipt)[draw.receiptId := recorded]
                && recorded.receiptId == draw.receiptId && recorded.availableAt == draw.availableAt
                && recorded.firm == tx.firm && recorded.client == tx.client && recorded.taxYear == tx.taxYear
                && recorded.utid == tx.utid && recorded.submissionId == tx.submissionId
                && |recorded.results| == |tx.records|
                && (forall i :: 0 <= i < |tx.records| ==>
                      recorded.results[i] == ResultFor(tx.records[i], draw.recordIds[i]))
                && (forall key :: key in originals <==>
                      || key in old(originals)
                      || exists record :: record in tx.records
                           && key == RecordKey(tx.firm, tx.client, tx.taxYear, record.recordId))
    {
      var key := FirmUtid(tx.firm, tx.utid);
      if key in byUtid {
        return Err(DuplicateUtid), IntakeSucceeded;
      }
      for i := 0 to |tx.records|
        invariant forall k :: 0 <= k < i ==> KeyOf(tx, tx.records[k]) !in originals
        invariant unchanged(this)
      {
        if KeyOf(tx, tx.records[i]) in originals {
          return Err(DuplicateRecord), IntakeSucceeded;
        }
      }
      fault := ClassifyFault(roll, failBefore, failAfter);
      if fault.FailBeforeRecord? {
        return Ok(""), fault;
      }
      generated := generated + {draw.receiptId};
      var results := FreezeResults(tx, draw);
      var recorded := Submission(draw.receiptId, tx.utid, tx.firm, tx.client, tx.taxYear, tx.submissionId,
                                 draw.availableAt, results);
      byUtid := byUtid[key := recorded];
      byReceipt := byReceipt[draw.receiptId := recorded];
      var added: set<RecordKey> := {};
      for i := 0 to |tx.records|
        invariant added == set k | 0 <= k < i :: KeyOf(tx, tx.records[k])
      {
        added := added + {KeyOf(tx, tx.records[i])};
      }
      originals := originals + added;
      return Ok(draw.receiptId), fault;
    }
  }

  lemma UsedIdsNext(records: seq<FilingRecord>, ids: seq<string>, i: nat)
    requires |ids| == |records| && i < |records|
    ensures UsedIds(records[..i + 1], ids[..i + 1])
         == UsedIds(records[..i], ids[..i]) + (if Accepts(records[i]) then {ids[i]} else {})
  {
    var before, after := UsedIds(records[..i], ids[..i]), UsedIds(records[..i + 1], ids[..i + 1]);
    forall id | id in before
      ensures id in after
    {
      var k :| 0 <= k < i && Accepts(records[..i][k]) && ids[..i][k] == id;
      assert records[..i + 1][k] == records[k] && ids[..i + 1][k] == id;
    }
    if Accepts(records[i]) {
      assert records[..i + 1][i] == records[i] && ids[..i + 1][i] == ids[i];
    }
    forall id | id in after
      ensures id in before + (if Accepts(records[i]) then {ids[i]} else {})
    {
      var k :| 0 <= k < i + 1 && Accepts(records[..i + 1][k]) && ids[..i + 1][k] == id;
      if k < i {
        assert records[..i][k] == records[k] && ids[..i][k] == id;
      }
    }
  }
}
