/**
 The transmission document at the level of its elements, as the planner writes it and as the
 receiver decodes it. XML text itself is Go's library and is not modelled.
 */
module Intake {
  import opened Prelude
  import opened Money
  import Identity

  datatype Detail = Detail(recordId: string, recipientName: string, recipientTin: string,
                           compensation: string, withholding: string)

  datatype Manifest = Manifest(utid: string, transmitter: string, transmissionType: string, taxYear: string)

  datatype Header = Header(submissionId: string, clientId: string, formType: string, count: int)

  /** The decoder's view: every element may be repeated or missing. */
  datatype Group = Group(headers: seq<Header>, details: seq<Detail>)

  datatype Document = Document(manifests: seq<Manifest>, groups: seq<Group>)

  datatype FilingRecord = FilingRecord(recordId: string, recipientName: string, recipientTin: string,
                                       amountCents: int, withholdingCents: int)

  datatype Transmission = Transmission(firm: string, client: string, taxYear: string, utid: string,
                                       submissionId: string, records: seq<FilingRecord>)

  datatype Refusal =
    | WrongShape | MissingIdentity | UnsupportedForm | BadUtid | BadCount
    | MissingField | RepeatedRecord | BadCompensation | BadWithholding

  type MoneyParser = string -> Result<int, MoneyError>

  /** What the loop over the records answers for one record, given the identities seen before it. */
  function DecodeDetail(detail: Detail, seen: set<string>, parse: MoneyParser): Result<FilingRecord, Refusal> {
    if detail.recordId == "" || detail.compensation == "" || detail.withholding == "" then Err(MissingField)
    else if detail.recordId in seen then Err(RepeatedRecord)
    else
      match parse(detail.compensation)
      case Err(_) => Err(BadCompensation)
      case Ok(amount) =>
        match parse(detail.withholding)
        case Err(_) => Err(BadWithholding)
        case Ok(withheld) =>
          Ok(FilingRecord(detail.recordId, detail.recipientName, detail.recipientTin, amount, withheld))
  }

  function RecordIds(details: seq<Detail>): set<string> {
    set i | 0 <= i < |details| :: details[i].recordId
  }

  /** The records of a prefix, or the refusal of its first bad record. */
  function DecodeDetails(details: seq<Detail>, parse: MoneyParser): Result<seq<FilingRecord>, Refusal> {
    if details == [] then Ok([])
    else
      var n := |details| - 1;
      match DecodeDetails(details[..n], parse)
      case Err(e) => Err(e)
      case Ok(records) =>
        match DecodeDetail(details[n], RecordIds(details[..n]), parse)
        case Err(e) => Err(e)
        case Ok(record) => Ok(records + [record])
  }

  /** The checks that precede the loop over the records. */
  function CheckEnvelope(document: Document): Option<Refusal> {
    if |document.manifests| != 1 || |document.groups| != 1 then Some(WrongShape)
    else
      var manifest, group := document.manifests[0], document.groups[0];
      if |group.headers| != 1 then Some(WrongShape)
      else
        var header := group.headers[0];
        if manifest.utid == "" || manifest.transmitter == "" || header.submissionId == "" || header.clientId == "" then
          Some(MissingIdentity)
        else if manifest.transmissionType != "O" || manifest.taxYear != "2025" || header.formType != "1099-NEC" then
          Some(UnsupportedForm)
        else if !Identity.UtidPattern(manifest.utid, manifest.transmitter) then
          Some(BadUtid)
        else if |group.details| < 1 || |group.details| > 100 || header.count != |group.details| then
          Some(BadCount)
        else None
  }

  /**
   What passes the checks before the records: one of each, nothing blank, the one form and year, 1
   to 100 counted records.
   */
  lemma EnvelopeExactly(document: Document)
    ensures CheckEnvelope(document).None? <==>
              && |document.manifests| == 1 && |document.groups| == 1 && |document.groups[0].headers| == 1
              && var manifest, group := document.manifests[0], document.groups[0];
              && var header := group.headers[0];
              && manifest.utid != "" && manifest.transmitter != "" && header.submissionId != "" && header.clientId != ""
              && manifest.transmissionType == "O" && manifest.taxYear == "2025" && header.formType == "1099-NEC"
              && Identity.UtidPattern(manifest.utid, manifest.transmitter)
              && 1 <= |group.details| <= 100 && header.count == |group.details|
  {
  }

  /** The refusals before the records, in their order. */
  lemma EnvelopeRefusals(document: Document)
    requires |document.manifests| == 1 && |document.groups| == 1 && |document.groups[0].headers| == 1
    ensures var manifest, group := document.manifests[0], document.groups[0];
            var header, refusal := group.headers[0], CheckEnvelope(document);
            var blank := "" in [manifest.utid, manifest.transmitter, header.submissionId, header.clientId];
            var foreign := (manifest.transmissionType, manifest.taxYear, header.formType) != ("O", "2025", "1099-NEC");
            var misnamed := !Identity.UtidPattern(manifest.utid, manifest.transmitter);
            && (refusal == Some(MissingIdentity) <==> blank)
            && (refusal == Some(UnsupportedForm) <==> !blank && foreign)
            && (refusal == Some(BadUtid) <==> !blank && !foreign && misnamed)
            && (refusal == Some(BadCount) <==>
                  && !blank && !foreign && !misnamed
                  && (group.details == [] || |group.details| > 100 || header.count != |group.details|))
  {
  }

  lemma MisshapenIsRefused(document: Document)
    ensures CheckEnvelope(document) == Some(WrongShape) <==>
              |document.manifests| != 1 || |document.groups| != 1 || |document.groups[0].headers| != 1
  {
  }

  lemma EnvelopeShape(document: Document)
    requires CheckEnvelope(document).None?
    ensures |document.manifests| == 1 && |document.groups| == 1 && |document.groups[0].headers| == 1
  {
  }

  function Decode(document: Document): Result<Transmission, Refusal> {
    match CheckEnvelope(document)
    case Some(refusal) => Err(refusal)
    case None =>
      EnvelopeShape(document);
      var manifest, group := document.manifests[0], document.groups[0];
      var header := group.headers[0];
      match DecodeDetails(group.details, ParseCents)
      case Err(e) => Err(e)
      case Ok(records) =>
        Ok(Transmission(manifest.transmitter, header.clientId, manifest.taxYear, manifest.utid,
                        header.submissionId, records))
  }

  /** A refused prefix stays refused. */
  lemma {:induction false} RefusalIsFinal(details: seq<Detail>, k: nat, parse: MoneyParser)
    requires k <= |details| && DecodeDetails(details[..k], parse).Err?
    ensures DecodeDetails(details, parse) == DecodeDetails(details[..k], parse)
  {
    if k == |details| {
      assert details[..k] == details;
    } else {
      var n := |details| - 1;
      assert details[..n][..k] == details[..k];
      RefusalIsFinal(details[..n], k, parse);
    }
  }

  lemma DecodeNext(details: seq<Detail>, k: nat, parse: MoneyParser)
    requires k < |details| && DecodeDetails(details[..k], parse).Ok?
    ensures var decoded := DecodeDetail(details[k], RecordIds(details[..k]), parse);
            DecodeDetails(details[..k + 1], parse) ==
              if decoded.Err? then Err(decoded.error)
              else Ok(DecodeDetails(details[..k], parse).value + [decoded.value])
    ensures RecordIds(details[..k + 1]) == RecordIds(details[..k]) + {details[k].recordId}
  {
    var next := details[..k + 1];
    assert next[..k] == details[..k];
    forall id | id in RecordIds(details[..k])
      ensures id in RecordIds(next)
    {
      var i :| 0 <= i < k && details[..k][i].recordId == id;
      assert next[i].recordId == id;
    }
    assert next[k].recordId in RecordIds(next);
  }

  /** An identity was seen before exactly when an earlier record has it. */
  lemma SeenExactly(details: seq<Detail>, n: nat)
    requires n < |details|
    ensures details[n].recordId in RecordIds(details[..n]) <==>
              exists i :: 0 <= i < n && details[i].recordId == details[n].recordId
  {
    if details[n].recordId in RecordIds(details[..n]) {
      var i :| 0 <= i < n && details[..n][i].recordId == details[n].recordId;
      assert details[i].recordId == details[n].recordId;
    }
    if i :| 0 <= i < n && details[i].recordId == details[n].recordId {
      assert details[..n][i].recordId == details[n].recordId;
    }
  }

  /** What one record must have, apart from an identity of its own. */
  predicate Filled(detail: Detail, parse: MoneyParser) {
    && detail.recordId != "" && detail.compensation != "" && detail.withholding != ""
    && parse(detail.compensation).Ok? && parse(detail.withholding).Ok?
  }

  /** The records pass exactly when nothing is blank, every amount parses, and no identity repeats. */
  lemma {:induction false} DecodesExactly(details: seq<Detail>, parse: MoneyParser)
    ensures DecodeDetails(details, parse).Ok? <==>
              && (forall i :: 0 <= i < |details| ==> Filled(details[i], parse))
              && (forall i, j :: 0 <= i < j < |details| ==> details[i].recordId != details[j].recordId)
  {
    hide RecordIds, Filled;
    if details != [] {
      var n := |details| - 1;
      DecodesExactly(details[..n], parse);
      SeenExactly(details, n);
      OneDecodes(details[n], RecordIds(details[..n]), parse);
      assert forall i :: 0 <= i < n ==> details[..n][i] == details[i];
    }
  }

  lemma OneDecodes(detail: Detail, seen: set<string>, parse: MoneyParser)
    ensures DecodeDetail(detail, seen, parse).Ok? <==> Filled(detail, parse) && detail.recordId !in seen
  {
  }

  /** The records that pass are those of the document, with their amounts read. */
  lemma {:induction false} DecodedRecords(details: seq<Detail>, parse: MoneyParser)
    requires DecodeDetails(details, parse).Ok?
    ensures var records := DecodeDetails(details, parse).value;
            && |records| == |details|
            && forall i :: 0 <= i < |details| ==>
                 && records[i].recordId == details[i].recordId
                 && records[i].recipientName == details[i].recipientName
                 && records[i].recipientTin == details[i].recipientTin
                 && Ok(records[i].amountCents) == parse(details[i].compensation)
                 && Ok(records[i].withholdingCents) == parse(details[i].withholding)
  {
    hide RecordIds;
    if details != [] {
      DecodedRecords(details[..|details| - 1], parse);
    }
  }

  /** The first record that does not pass decides the refusal: missing field, repetition, then the two amounts. */
  lemma {:induction false} FirstRefusal(details: seq<Detail>, parse: MoneyParser) returns (k: nat)
    requires DecodeDetails(details, parse).Err?
    ensures k < |details| && DecodeDetails(details[..k], parse).Ok?
    ensures var detail, refusal := details[k], DecodeDetails(details, parse).error;
            var repeated := exists i :: 0 <= i < k && details[i].recordId == detail.recordId;
            if detail.recordId == "" || detail.compensation == "" || detail.withholding == ""
            then refusal == MissingField
            else if repeated then refusal == RepeatedRecord
            else if parse(detail.compensation).Err? then refusal == BadCompensation
            else parse(detail.withholding).Err? && refusal == BadWithholding
  {
    var n := |details| - 1;
    if DecodeDetails(details[..n], parse).Err? {
      k := FirstRefusal(details[..n], parse);
      assert details[..n][..k] == details[..k] && details[..n][k] == details[k];
      assert forall i :: 0 <= i < k ==> details[..n][i] == details[i];
    } else {
      k := n;
      SeenExactly(details, n);
    }
  }

  /** The loop over the records, with its set of identities seen so far. */
  method DecodeRecords(details: seq<Detail>, parse: MoneyParser) returns (r: Result<seq<FilingRecord>, Refusal>)
    ensures r == DecodeDetails(details, parse)
  {
    var records: seq<FilingRecord> := [];
    var seen: set<string> := {};
    for index := 0 to |details|
      invariant DecodeDetails(details[..index], parse) == Ok(records)
      invariant seen == RecordIds(details[..index])
    {
      DecodeNext(details, index, parse);
      var decoded := DecodeDetail(details[index], seen, parse);
      if decoded.Err? {
        RefusalIsFinal(details, index + 1, parse);
        return Err(decoded.error);
      }
      seen := seen + {details[index].recordId};
      records := records + [decoded.value];
    }
    assert details[..|details|] == details;
    return Ok(records);
  }

  /** `decodeTransmission`. */
  method DecodeTransmission(document: Document) returns (r: Result<Transmission, Refusal>)
    ensures r == Decode(document)
  {
    var refusal := CheckEnvelope(document);
    if refusal.Some? {
      return Err(refusal.value);
    }
    EnvelopeShape(document);
    var manifest, group := document.manifests[0], document.groups[0];
    var header := group.headers[0];
    var records := DecodeRecords(group.details, ParseCents);
    if records.Err? {
      return Err(records.error);
    }
    return Ok(Transmission(manifest.transmitter, header.clientId, manifest.taxYear, manifest.utid,
                           header.submissionId, records.value));
  }

  /** What is decoded is what the elements say, and the first check that fails decides the refusal. */
  lemma DecodedExactly(document: Document)
    ensures CheckEnvelope(document).Some? ==> Decode(document) == Err(CheckEnvelope(document).value)
    ensures CheckEnvelope(document).None? ==>
              && |document.manifests| == 1 && |document.groups| == 1 && |document.groups[0].headers| == 1
              && var manifest, group := document.manifests[0], document.groups[0];
              && var header, records := group.headers[0], DecodeDetails(group.details, ParseCents);
              Decode(document) == if records.Err? then Err(records.error)
                                  else Ok(Transmission(manifest.transmitter, header.clientId, "2025", manifest.utid,
                                                       header.submissionId, records.value))
  {
    EnvelopeExactly(document);
  }

  // What the sender builds

  predicate Sendable(record: FilingRecord) {
    && record.recordId != ""
    && -INT64_MAX <= record.amountCents <= INT64_MAX
    && -INT64_MAX <= record.withholdingCents <= INT64_MAX
  }

  function DetailOf(record: FilingRecord): Detail
    requires InInt64(record.amountCents) && InInt64(record.withholdingCents)
  {
    Detail(record.recordId, record.recipientName, record.recipientTin,
           FormatCents(record.amountCents), FormatCents(record.withholdingCents))
  }

  predicate AllSendable(records: seq<FilingRecord>) {
    forall i :: 0 <= i < |records| ==> Sendable(records[i])
  }

  function DetailsOf(records: seq<FilingRecord>): (d: seq<Detail>)
    requires AllSendable(records)
    ensures |d| == |records|
  {
    seq(|records|, i requires 0 <= i < |records| => DetailOf(records[i]))
  }

  /** `canonicalXML`: one manifest, one group with one header that states the record count. */
  function CanonicalDocument(firm: string, client: string, taxYear: int, utid: string, submissionId: string,
                             records: seq<FilingRecord>): Document
    requires AllSendable(records)
  {
    Document([Manifest(utid, firm, "O", SignedDecimal(taxYear))],
             [Group([Header(submissionId, client, "1099-NEC", |records|)], DetailsOf(records))])
  }

  predicate DistinctRecords(records: seq<FilingRecord>) {
    forall i, j :: 0 <= i < j < |records| ==> records[i].recordId != records[j].recordId
  }

  lemma DetailRoundTrip(record: FilingRecord, seen: set<string>)
    requires Sendable(record) && record.recordId !in seen
    ensures DecodeDetail(DetailOf(record), seen, ParseCents) == Ok(record)
  {
    PrintThenParse(record.amountCents);
    PrintThenParse(record.withholdingCents);
    FormattedNotEmpty(record.amountCents);
    FormattedNotEmpty(record.withholdingCents);
  }

  lemma FormattedNotEmpty(cents: int)
    requires InInt64(cents)
    ensures FormatCents(cents) != ""
  {
  }

  /** If every detail decodes to its record whenever the record is new, the whole list decodes to the records. */
  lemma {:induction false} PointwiseRoundTrip(details: seq<Detail>, records: seq<FilingRecord>, parse: MoneyParser)
    requires |details| == |records| && DistinctRecords(records)
    requires forall i :: 0 <= i < |records| ==> details[i].recordId == records[i].recordId
    requires forall i, seen: set<string> {:trigger DecodeDetail(details[i], seen, parse)} ::
               0 <= i < |records| && records[i].recordId !in seen ==>
                 DecodeDetail(details[i], seen, parse) == Ok(records[i])
    ensures DecodeDetails(details, parse) == Ok(records)
  {
    if records != [] {
      var n := |records| - 1;
      var prefix := details[..n];
      PointwiseRoundTrip(prefix, records[..n], parse);
      var seen := RecordIds(prefix);
      assert forall i :: 0 <= i < n ==> prefix[i].recordId == records[i].recordId != records[n].recordId;
      assert DecodeDetail(details[n], seen, parse) == Ok(records[n]);
      assert records == records[..n] + [records[n]];
    }
  }

  lemma DetailsRoundTrip(records: seq<FilingRecord>)
    requires AllSendable(records) && DistinctRecords(records)
    ensures DecodeDetails(DetailsOf(records), ParseCents) == Ok(records)
  {
    var details := DetailsOf(records);
    forall i, seen: set<string> | 0 <= i < |records| && records[i].recordId !in seen
      ensures DecodeDetail(details[i], seen, ParseCents) == Ok(records[i])
    {
      DetailRoundTrip(records[i], seen);
    }
    PointwiseRoundTrip(details, records, ParseCents);
  }

  lemma TaxYear2025()
    ensures SignedDecimal(2025) == "2025"
  {
    assert Decimal(2) == "2" && Decimal(20) == "20" && Decimal(202) == "202";
  }

  /** What the receiver asks of the sender's arguments. */
  predicate Acceptable(firm: string, client: string, taxYear: int, utid: string, submissionId: string,
                       records: seq<FilingRecord>) {
    && firm != "" && client != "" && submissionId != ""
    && taxYear == 2025
    && Identity.UtidPattern(utid, firm)
    && 1 <= |records| <= 100
    && DistinctRecords(records)
  }

  lemma AcceptableDecodes(firm: string, client: string, taxYear: int, utid: string, submissionId: string,
                          records: seq<FilingRecord>)
    requires AllSendable(records)
    requires Acceptable(firm, client, taxYear, utid, submissionId, records)
    ensures Decode(CanonicalDocument(firm, client, taxYear, utid, submissionId, records))
         == Ok(Transmission(firm, client, "2025", utid, submissionId, records))
  {
    TaxYear2025();
    DetailsRoundTrip(records);
    var document := CanonicalDocument(firm, client, taxYear, utid, submissionId, records);
    assert utid != "";
    assert CheckEnvelope(document).None?;
  }

  lemma OnlyTaxYear2025(taxYear: int)
    requires SignedDecimal(taxYear) == "2025"
    ensures taxYear == 2025
  {
    TaxYear2025();
    assert "2025"[0] != '-';
    assert taxYear >= 0;
    DecimalDenotes(taxYear);
    DecimalDenotes(2025);
  }

  /** What passes the decoder carries between 1 and 100 records with pairwise distinct identities. */
  lemma {:induction false} DecodedRecordsDistinct(details: seq<Detail>, parse: MoneyParser)
    requires DecodeDetails(details, parse).Ok?
    ensures var records := DecodeDetails(details, parse).value;
            && |records| == |details|
            && (forall i :: 0 <= i < |records| ==> records[i].recordId == details[i].recordId)
            && DistinctRecords(records)
  {
    if details != [] {
      var n := |details| - 1;
      DecodedRecordsDistinct(details[..n], parse);
    }
  }

  lemma PassedEnvelope(document: Document)
    requires CheckEnvelope(document).None?
    requires |document.manifests| == 1 && |document.groups| == 1 && |document.groups[0].headers| == 1
    ensures var manifest, group := document.manifests[0], document.groups[0];
            var header := group.headers[0];
            && manifest.transmitter != "" && header.submissionId != "" && header.clientId != ""
            && manifest.taxYear == "2025"
            && Identity.UtidPattern(manifest.utid, manifest.transmitter)
            && 1 <= |group.details| <= 100
  {
  }

  lemma DecodedIsAcceptable(firm: string, client: string, taxYear: int, utid: string, submissionId: string,
                            records: seq<FilingRecord>)
    requires AllSendable(records)
    requires Decode(CanonicalDocument(firm, client, taxYear, utid, submissionId, records)).Ok?
    ensures Acceptable(firm, client, taxYear, utid, submissionId, records)
  {
    var document := CanonicalDocument(firm, client, taxYear, utid, submissionId, records);
    PassedEnvelope(document);
    OnlyTaxYear2025(taxYear);
    var details := DetailsOf(records);
    DecodedRecordsDistinct(details, ParseCents);
    forall i, j | 0 <= i < j < |records|
      ensures records[i].recordId != records[j].recordId
    {
      assert details[i].recordId == records[i].recordId && details[j].recordId == records[j].recordId;
    }
  }

  /**
   A document built from sendable records passes every check of the receiver exactly when its
   arguments are acceptable, and it then decodes to the very records it was built from.
   */
  lemma CanonicalDocumentDecodes(firm: string, client: string, taxYear: int, utid: string, submissionId: string,
                                 records: seq<FilingRecord>)
    requires AllSendable(records)
    ensures var decoded := Decode(CanonicalDocument(firm, client, taxYear, utid, submissionId, records));
            && (decoded.Ok? <==> Acceptable(firm, client, taxYear, utid, submissionId, records))
            && (decoded.Ok? ==> decoded.value == Transmission(firm, client, "2025", utid, submissionId, records))
  {
    if Acceptable(firm, client, taxYear, utid, submissionId, records) {
      AcceptableDecodes(firm, client, taxYear, utid, submissionId, records);
    } else if Decode(CanonicalDocument(firm, client, taxYear, utid, submissionId, records)).Ok? {
      DecodedIsAcceptable(firm, client, taxYear, utid, submissionId, records);
    }
  }
}
