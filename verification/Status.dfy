/** Status and exceptions as projections of the tables at one clock instant. */
module Status {
  import opened Prelude
  import opened Retry
  import opened Stub
  import opened Client
  import opened Filing
  import opened System
  import opened Invariant
  import AllOrNothing
  import ExactlyOnce
  import Safety

  const THIRTY_MINUTES: int := 1_800_000_000

  datatype Kind = IsBlocked | IsReady | IsPending | IsAccepted | IsRejected

  function KindOf(state: FilingState): Kind {
    match state
    case Blocked(_) => IsBlocked
    case Ready => IsReady
    case Batched => IsPending
    case FilingAccepted(_, _) => IsAccepted
    case FilingRejected(_, _) => IsRejected
  }

  datatype Counts = Counts(required: nat, blocked: nat, ready: nat, pending: nat, accepted: nat, rejected: nat)

  datatype Headline = FullyFiled | PartiallyFiled | AwaitingIrs | NeedsAttention

  datatype ClientFacts = ClientFacts(counts: Counts, attention: bool, awaiting: bool)

  datatype ClientStatus = ClientStatus(client: string, headline: Headline, counts: Counts)

  datatype FirmStatus = FirmStatus(headline: Headline, counts: Counts, clients: seq<ClientStatus>)

  // The rows of one client

  predicate Owns(row: FilingRow, firm: string, client: string) {
    row.firm == firm && row.client == client
  }

  function FilingsOf(db: Db, firm: string, client: string): set<int> {
    set id | id in db.filings && Owns(db.filings[id], firm, client)
  }

  function FilingsOfKind(db: Db, firm: string, client: string, kind: Kind): set<int> {
    set id | id in db.filings && Owns(db.filings[id], firm, client) && KindOf(db.filings[id].state) == kind
  }

  function BatchesOf(db: Db, firm: string, client: string): set<int> {
    set id | id in db.batches && db.batches[id].firm == firm && db.batches[id].client == client
  }

  /** `COALESCE(submitted_at, next_action_at)` */
  function WaitingSince(row: Batch): int {
    if row.submittedAt.Some? then row.submittedAt.value else row.nextActionAt
  }

  predicate Overdue(row: Batch, now: int) {
    row.state in {Submitted, AwaitingAck} && WaitingSince(row) < now - THIRTY_MINUTES
  }

  predicate InFlight(row: Batch) {
    row.state in {Submitting, SubmitUnknown, Submitted, AwaitingAck}
  }

  function CountsOf(db: Db, firm: string, client: string): Counts {
    Counts(|FilingsOf(db, firm, client)|, |FilingsOfKind(db, firm, client, IsBlocked)|,
           |FilingsOfKind(db, firm, client, IsReady)|, |FilingsOfKind(db, firm, client, IsPending)|,
           |FilingsOfKind(db, firm, client, IsAccepted)|, |FilingsOfKind(db, firm, client, IsRejected)|)
  }

  predicate HasFailed(db: Db, firm: string, client: string) {
    exists id :: id in BatchesOf(db, firm, client) && db.batches[id].state.InvariantFailed?
  }

  predicate HasOverdue(db: Db, firm: string, client: string, now: int) {
    exists id :: id in BatchesOf(db, firm, client) && Overdue(db.batches[id], now)
  }

  predicate HasInFlight(db: Db, firm: string, client: string) {
    exists id :: id in BatchesOf(db, firm, client) && InFlight(db.batches[id])
  }

  /** The query of `readClientStatus`. */
  function ReadFacts(db: Db, firm: string, client: string, now: int): ClientFacts {
    var counts := CountsOf(db, firm, client);
    ClientFacts(counts,
                counts.blocked + counts.rejected > 0 || HasFailed(db, firm, client)
                || HasOverdue(db, firm, client, now),
                HasInFlight(db, firm, client))
  }

  function HeadlineOf(facts: ClientFacts): Headline {
    if facts.attention then NeedsAttention
    else if facts.awaiting then AwaitingIrs
    else if facts.counts.ready == 0 && facts.counts.pending == 0 then FullyFiled
    else PartiallyFiled
  }

  /** `ClientStatus`, for a client that exists. */
  function StatusOfClient(db: Db, firm: string, client: string, now: int): ClientStatus {
    var facts := ReadFacts(db, firm, client, now);
    ClientStatus(client, HeadlineOf(facts), facts.counts)
  }

  // The firm query, with its groups and outer joins

  /** `state IN ('blocked_preflight', 'rejected')` */
  predicate Troubled(row: FilingRow) {
    row.state.Blocked? || row.state.FilingRejected?
  }

  /** `filing_counts`: a row for every client of the firm that has filings. */
  function FilingCounts(db: Db, firm: string): map<string, (Counts, bool)> {
    map client | client in ClientsWithFilings(db, firm) ::
      (CountsOf(db, firm, client),
       exists id :: id in FilingsOf(db, firm, client) && Troubled(db.filings[id]))
  }

  function ClientsWithFilings(db: Db, firm: string): set<string> {
    set id | id in db.filings && db.filings[id].firm == firm :: db.filings[id].client
  }

  function ClientsWithBatches(db: Db, firm: string): set<string> {
    set id | id in db.batches && db.batches[id].firm == firm :: db.batches[id].client
  }

  /** `batch_flags`: attention and awaiting, for every client of the firm that has batches. */
  function BatchFlags(db: Db, firm: string, now: int): map<string, (bool, bool)> {
    map client | client in ClientsWithBatches(db, firm) ::
      (exists id :: id in BatchesOf(db, firm, client) && BatchAttention(db.batches[id], now),
       HasInFlight(db, firm, client))
  }

  predicate BatchAttention(row: Batch, now: int) {
    row.state.InvariantFailed? || Overdue(row, now)
  }

  /** One row of the firm query: missing groups count as zero and false. */
  function JoinedFacts(db: Db, firm: string, client: string, now: int): ClientFacts {
    var filings, flags := FilingCounts(db, firm), BatchFlags(db, firm, now);
    ClientFacts(if client in filings then filings[client].0 else Counts(0, 0, 0, 0, 0, 0),
                (client in filings && filings[client].1) || (client in flags && flags[client].0),
                client in flags && flags[client].1)
  }

  lemma OwnerHasFilings(db: Db, firm: string, client: string, id: int)
    requires id in FilingsOf(db, firm, client)
    ensures client in ClientsWithFilings(db, firm)
  {
    assert db.filings[id].client in ClientsWithFilings(db, firm);
  }

  lemma NoFilings(db: Db, firm: string, client: string)
    requires client !in ClientsWithFilings(db, firm)
    ensures CountsOf(db, firm, client) == Counts(0, 0, 0, 0, 0, 0)
  {
    if FilingsOf(db, firm, client) != {} {
      var id := Member(FilingsOf(db, firm, client));
      OwnerHasFilings(db, firm, client, id);
    }
    NoFilingsOfKind(db, firm, client, IsBlocked);
    NoFilingsOfKind(db, firm, client, IsReady);
    NoFilingsOfKind(db, firm, client, IsPending);
    NoFilingsOfKind(db, firm, client, IsAccepted);
    NoFilingsOfKind(db, firm, client, IsRejected);
  }

  lemma NoFilingsOfKind(db: Db, firm: string, client: string, kind: Kind)
    requires FilingsOf(db, firm, client) == {}
    ensures FilingsOfKind(db, firm, client, kind) == {}
  {
    assert FilingsOfKind(db, firm, client, kind) <= FilingsOf(db, firm, client);
  }

  lemma TroubledExactlyWhenCounted(db: Db, firm: string, client: string)
    ensures var counts := CountsOf(db, firm, client);
            counts.blocked + counts.rejected > 0 <==>
              exists id :: id in FilingsOf(db, firm, client) && Troubled(db.filings[id])
  {
    var blocked, rejected := FilingsOfKind(db, firm, client, IsBlocked), FilingsOfKind(db, firm, client, IsRejected);
    if id :| id in FilingsOf(db, firm, client) && Troubled(db.filings[id]) {
      assert id in blocked + rejected;
      assert |blocked| + |rejected| > 0;
    }
    if |blocked| + |rejected| > 0 {
      var both := blocked + rejected;
      assert |both| == |blocked| + |rejected|;
      assert both != {};
      var id := Member(both);
      assert id in FilingsOf(db, firm, client) && Troubled(db.filings[id]);
    }
  }

  lemma BatchFlagsAgree(db: Db, firm: string, client: string, now: int)
    ensures (client in BatchFlags(db, firm, now) && BatchFlags(db, firm, now)[client].0)
       <==> (HasFailed(db, firm, client) || HasOverdue(db, firm, client, now))
    ensures (client in BatchFlags(db, firm, now) && BatchFlags(db, firm, now)[client].1)
       <==> HasInFlight(db, firm, client)
  {
    forall id | id in BatchesOf(db, firm, client)
      ensures client in ClientsWithBatches(db, firm)
    {
      assert db.batches[id].client in ClientsWithBatches(db, firm);
    }
    if id :| id in BatchesOf(db, firm, client) && db.batches[id].state.InvariantFailed? {
      assert BatchAttention(db.batches[id], now);
    }
    if id :| id in BatchesOf(db, firm, client) && Overdue(db.batches[id], now) {
      assert BatchAttention(db.batches[id], now);
    }
  }

  /**
   The firm query and the client query read the same facts, so a client's status is its entry in the
   firm's status.
   */
  lemma FirmQueryAgrees(db: Db, firm: string, client: string, now: int)
    ensures JoinedFacts(db, firm, client, now) == ReadFacts(db, firm, client, now)
  {
    BatchFlagsAgree(db, firm, client, now);
    TroubledExactlyWhenCounted(db, firm, client);
    if client !in ClientsWithFilings(db, firm) {
      NoFilings(db, firm, client);
    }
  }

  // The fold over the clients

  function Severity(headline: Headline): int {
    match headline
    case FullyFiled => 0
    case PartiallyFiled => 1
    case AwaitingIrs => 2
    case NeedsAttention => 3
  }

  function AddCounts(a: Counts, b: Counts): Counts {
    Counts(a.required + b.required, a.blocked + b.blocked, a.ready + b.ready, a.pending + b.pending,
           a.accepted + b.accepted, a.rejected + b.rejected)
  }

  function TotalCounts(clients: seq<ClientStatus>): Counts {
    if clients == [] then Counts(0, 0, 0, 0, 0, 0)
    else AddCounts(TotalCounts(clients[..|clients| - 1]), clients[|clients| - 1].counts)
  }

  /** The most severe of the clients' headlines; fully filed when there is none. */
  predicate IsWorst(headline: Headline, clients: seq<ClientStatus>) {
    && (forall i :: 0 <= i < |clients| ==> Severity(clients[i].headline) <= Severity(headline))
    && (headline.FullyFiled? || exists i :: 0 <= i < |clients| && clients[i].headline == headline)
  }

  lemma WorstUnique(a: Headline, b: Headline, clients: seq<ClientStatus>, permuted: seq<ClientStatus>)
    requires multiset(clients) == multiset(permuted) && IsWorst(a, clients) && IsWorst(b, permuted)
    ensures a == b
  {
    forall i | 0 <= i < |permuted|
      ensures Severity(permuted[i].headline) <= Severity(a)
    {
      assert permuted[i] in multiset(clients);
    }
    forall i | 0 <= i < |clients|
      ensures Severity(clients[i].headline) <= Severity(b)
    {
      assert clients[i] in multiset(permuted);
    }
    assert Severity(a) == Severity(b);
  }

  /** The loop of `FirmStatus`, over the rows of its query. Its headline is the worst of the clients', in any order. */
  method FoldFirm(rows: seq<(string, ClientFacts)>) returns (r: Result<FirmStatus, StoreError>)
    ensures r.Err? <==> rows == []
    ensures r.Err? ==> r.error == NotFound
    ensures r.Ok? ==>
              && |r.value.clients| == |rows|
              && (forall i :: 0 <= i < |rows| ==>
                    r.value.clients[i] == ClientStatus(rows[i].0, HeadlineOf(rows[i].1), rows[i].1.counts))
              && r.value.counts == TotalCounts(r.value.clients)
              && IsWorst(r.value.headline, r.value.clients)
  {
    assert IsWorst(FullyFiled, []);
    hide IsWorst, HeadlineOf;
    var headline := FullyFiled;
    var counts := Counts(0, 0, 0, 0, 0, 0);
    var clients: seq<ClientStatus> := [];
    for i := 0 to |rows|
      invariant |clients| == i
      invariant forall k :: 0 <= k < i ==>
                  clients[k] == ClientStatus(rows[k].0, HeadlineOf(rows[k].1), rows[k].1.counts)
      invariant counts == TotalCounts(clients)
      invariant IsWorst(headline, clients)
    {
      var status := ClientStatus(rows[i].0, HeadlineOf(rows[i].1), rows[i].1.counts);
      ghost var before := clients;
      clients := clients + [status];
      assert clients[..i] == before && clients[i] == status;
      counts := AddCounts(counts, status.counts);
      ghost var was := headline;
      if status.headline.NeedsAttention? {
        headline := NeedsAttention;
      } else if !headline.NeedsAttention? && status.headline.AwaitingIrs? {
        headline := AwaitingIrs;
      } else if headline.FullyFiled? && status.headline.PartiallyFiled? {
        headline := PartiallyFiled;
      }
      WorstNext(was, before, status, headline);
    }
    if |clients| == 0 {
      return Err(NotFound);
    }
    return Ok(FirmStatus(headline, counts, clients));
  }

  lemma WorstNext(was: Headline, before: seq<ClientStatus>, status: ClientStatus, headline: Headline)
    requires IsWorst(was, before)
    requires headline == if Severity(status.headline) > Severity(was) then status.headline else was
    ensures IsWorst(headline, before + [status])
  {
    var clients := before + [status];
    assert clients[|before|] == status;
    if !was.FullyFiled? {
      var i :| 0 <= i < |before| && before[i].headline == was;
      assert clients[i].headline == was;
    }
  }

  /** `FirmStatus`: the fold over the rows of the firm query; a client's entry is what `ClientStatus` gives for it. */
  method ReadFirmStatus(db: Db, firm: string, clients: seq<string>, now: int)
    returns (r: Result<FirmStatus, StoreError>)
    ensures r.Err? <==> clients == []
    ensures r.Ok? ==>
              && |r.value.clients| == |clients|
              && (forall i :: 0 <= i < |clients| ==> r.value.clients[i] == StatusOfClient(db, firm, clients[i], now))
              && r.value.counts == TotalCounts(r.value.clients)
              && IsWorst(r.value.headline, r.value.clients)
  {
    var rows := seq(|clients|, i requires 0 <= i < |clients| => (clients[i], JoinedFacts(db, firm, clients[i], now)));
    r := FoldFirm(rows);
    forall i | 0 <= i < |clients|
      ensures rows[i].1 == ReadFacts(db, firm, clients[i], now)
    {
      FirmQueryAgrees(db, firm, clients[i], now);
    }
  }

  // What the status says, in terms of the rows

  lemma OfKind(db: Db, firm: string, client: string, all: set<int>, those: set<int>, kind: Kind)
    requires all == FilingsOf(db, firm, client)
    requires forall f :: f in those <==> f in all && KindOf(db.filings[f].state) == kind
    ensures those == FilingsOfKind(db, firm, client, kind)
  {
    forall f
      ensures f in those <==> f in FilingsOfKind(db, firm, client, kind)
    {
      assert f in all <==> f in FilingsOf(db, firm, client);
    }
  }

  /** Each count is the number of the client's filings in that state. */
  lemma CountsExactly(db: Db, firm: string, client: string, all: set<int>, blocked: set<int>, ready: set<int>,
                      pending: set<int>, accepted: set<int>, rejected: set<int>)
    requires forall f :: f in all <==> f in db.filings && db.filings[f].firm == firm && db.filings[f].client == client
    requires forall f :: f in blocked <==> f in all && db.filings[f].state.Blocked?
    requires forall f :: f in ready <==> f in all && db.filings[f].state.Ready?
    requires forall f :: f in pending <==> f in all && db.filings[f].state.Batched?
    requires forall f :: f in accepted <==> f in all && db.filings[f].state.FilingAccepted?
    requires forall f :: f in rejected <==> f in all && db.filings[f].state.FilingRejected?
    ensures CountsOf(db, firm, client) == Counts(|all|, |blocked|, |ready|, |pending|, |accepted|, |rejected|)
  {
    forall f
      ensures f in all <==> f in FilingsOf(db, firm, client)
    {
      assert f in db.filings <==> f in db.filings.Keys;
    }
    OfKind(db, firm, client, all, blocked, IsBlocked);
    OfKind(db, firm, client, all, ready, IsReady);
    OfKind(db, firm, client, all, pending, IsPending);
    OfKind(db, firm, client, all, accepted, IsAccepted);
    OfKind(db, firm, client, all, rejected, IsRejected);
  }

  /** The client has a blocked or rejected filing. */
  ghost predicate WrongFiling(db: Db, firm: string, client: string) {
    exists f :: f in db.filings && db.filings[f].firm == firm && db.filings[f].client == client
      && (db.filings[f].state.Blocked? || db.filings[f].state.FilingRejected?)
  }

  /** The client has a failed batch, or one unacknowledged for more than half an hour. */
  ghost predicate WrongBatch(db: Db, firm: string, client: string, now: int) {
    exists id :: id in db.batches && db.batches[id].firm == firm && db.batches[id].client == client
      && (|| db.batches[id].state.InvariantFailed?
          || (db.batches[id].state in {Submitted, AwaitingAck}
              && now - (if db.batches[id].submittedAt.Some? then db.batches[id].submittedAt.value
                        else db.batches[id].nextActionAt) > 1_800_000_000))
  }

  ghost predicate Wrong(db: Db, firm: string, client: string, now: int) {
    WrongFiling(db, firm, client) || WrongBatch(db, firm, client, now)
  }

  /** The client has a batch that was claimed for submission and is not acknowledged. */
  ghost predicate Waiting(db: Db, firm: string, client: string) {
    exists id :: id in db.batches && db.batches[id].firm == firm && db.batches[id].client == client
      && db.batches[id].state in {Submitting, SubmitUnknown, Submitted, AwaitingAck}
  }

  /** The client has a filing that is neither held back nor decided. */
  ghost predicate Unfiled(db: Db, firm: string, client: string) {
    exists f :: f in db.filings && db.filings[f].firm == firm && db.filings[f].client == client
      && (db.filings[f].state.Ready? || db.filings[f].state.Batched?)
  }

  /** What is wrong comes first, then what waits for the receiver, then what is yet to be filed. */
  lemma HeadlineExactly(db: Db, firm: string, client: string, now: int)
    ensures HeadlineOf(ReadFacts(db, firm, client, now))
         == if Wrong(db, firm, client, now) then NeedsAttention
            else if Waiting(db, firm, client) then AwaitingIrs
            else if Unfiled(db, firm, client) then PartiallyFiled
            else FullyFiled
  {
    AttentionExactly(db, firm, client, now);
    UnfiledExactly(db, firm, client);
    if id :| id in BatchesOf(db, firm, client) && InFlight(db.batches[id]) {
      assert db.batches[id].firm == firm;
    }
    if Waiting(db, firm, client) {
      var id :| id in db.batches && db.batches[id].firm == firm && db.batches[id].client == client
                && db.batches[id].state in {Submitting, SubmitUnknown, Submitted, AwaitingAck};
      assert id in BatchesOf(db, firm, client) && InFlight(db.batches[id]);
    }
  }

  lemma AttentionExactly(db: Db, firm: string, client: string, now: int)
    ensures ReadFacts(db, firm, client, now).attention <==> Wrong(db, firm, client, now)
  {
    hide HasFailed, HasOverdue, CountsOf, WrongFiling, WrongBatch;
    TroubledExactlyWhenCounted(db, firm, client);
    TroubledExactly(db, firm, client);
    BatchTroubleExactly(db, firm, client, now);
  }

  lemma TroubledExactly(db: Db, firm: string, client: string)
    ensures (exists id :: id in FilingsOf(db, firm, client) && Troubled(db.filings[id])) <==>
              WrongFiling(db, firm, client)
  {
    if f :| f in FilingsOf(db, firm, client) && Troubled(db.filings[f]) {
      assert db.filings[f].firm == firm;
    }
    if WrongFiling(db, firm, client) {
      var f :| f in db.filings && db.filings[f].firm == firm && db.filings[f].client == client
               && (db.filings[f].state.Blocked? || db.filings[f].state.FilingRejected?);
      assert f in FilingsOf(db, firm, client) && Troubled(db.filings[f]);
    }
  }

  lemma BatchTroubleExactly(db: Db, firm: string, client: string, now: int)
    ensures HasFailed(db, firm, client) || HasOverdue(db, firm, client, now) <==> WrongBatch(db, firm, client, now)
  {
    if id :| id in BatchesOf(db, firm, client) && db.batches[id].state.InvariantFailed? {
      assert db.batches[id].firm == firm;
    }
    if id :| id in BatchesOf(db, firm, client) && Overdue(db.batches[id], now) {
      assert db.batches[id].firm == firm;
    }
    if WrongBatch(db, firm, client, now) {
      var id :| id in db.batches && db.batches[id].firm == firm && db.batches[id].client == client
                && (|| db.batches[id].state.InvariantFailed?
                    || (db.batches[id].state in {Submitted, AwaitingAck}
                        && now - (if db.batches[id].submittedAt.Some? then db.batches[id].submittedAt.value
                                  else db.batches[id].nextActionAt) > 1_800_000_000));
      assert id in BatchesOf(db, firm, client);
    }
  }

  lemma UnfiledExactly(db: Db, firm: string, client: string)
    ensures var c := CountsOf(db, firm, client); (c.ready > 0 || c.pending > 0) <==> Unfiled(db, firm, client)
  {
    var ready, pending := FilingsOfKind(db, firm, client, IsReady), FilingsOfKind(db, firm, client, IsPending);
    if ready != {} {
      var f := Member(ready);
      assert db.filings[f].state.Ready?;
    }
    if pending != {} {
      var f := Member(pending);
      assert db.filings[f].state.Batched?;
    }
    if f :| f in db.filings && db.filings[f].firm == firm && db.filings[f].client == client
            && (db.filings[f].state.Ready? || db.filings[f].state.Batched?) {
      assert f in ready + pending;
      if |ready| == 0 {
        assert ready == {} && pending != {};
      }
    }
  }

  /** A firm needs attention when a client does; else it waits when one does; else it is partly filed when one is. */
  lemma FirmHeadlineExactly(headline: Headline, clients: seq<ClientStatus>)
    requires IsWorst(headline, clients)
    ensures headline.NeedsAttention? <==> exists i :: 0 <= i < |clients| && clients[i].headline.NeedsAttention?
    ensures headline.AwaitingIrs? <==>
              && (exists i :: 0 <= i < |clients| && clients[i].headline.AwaitingIrs?)
              && forall i :: 0 <= i < |clients| ==> !clients[i].headline.NeedsAttention?
    ensures headline.FullyFiled? <==> forall i :: 0 <= i < |clients| ==> clients[i].headline.FullyFiled?
  {
    if !headline.FullyFiled? {
      var i :| 0 <= i < |clients| && clients[i].headline == headline;
    }
  }

  /** Every column of the firm's counts is the sum of that column over its clients. */
  lemma TotalsAddUp(clients: seq<ClientStatus>, last: ClientStatus)
    ensures TotalCounts([]) == Counts(0, 0, 0, 0, 0, 0)
    ensures var total, more := TotalCounts(clients), TotalCounts(clients + [last]);
            && more.required == total.required + last.counts.required
            && more.blocked == total.blocked + last.counts.blocked && more.ready == total.ready + last.counts.ready
            && more.pending == total.pending + last.counts.pending
            && more.accepted == total.accepted + last.counts.accepted
            && more.rejected == total.rejected + last.counts.rejected
  {
    assert (clients + [last])[..|clients|] == clients;
  }

  // Conservation

  /** Every filing of a client is in exactly one of the five counts. */
  lemma CountsAddUp(db: Db, firm: string, client: string)
    ensures var c := CountsOf(db, firm, client);
            c.required == c.blocked + c.ready + c.pending + c.accepted + c.rejected
  {
    var a, b, c := FilingsOfKind(db, firm, client, IsBlocked), FilingsOfKind(db, firm, client, IsReady),
                   FilingsOfKind(db, firm, client, IsPending);
    var d, e := FilingsOfKind(db, firm, client, IsAccepted), FilingsOfKind(db, firm, client, IsRejected);
    forall id | id in FilingsOf(db, firm, client)
      ensures id in a + b + c + d + e
    {
      match KindOf(db.filings[id].state)
      case IsBlocked => assert id in a;
      case IsReady => assert id in b;
      case IsPending => assert id in c;
      case IsAccepted => assert id in d;
      case IsRejected => assert id in e;
    }
    assert FilingsOf(db, firm, client) == a + b + c + d + e;
    assert |a + b| == |a| + |b|;
    assert |a + b + c| == |a + b| + |c|;
    assert |a + b + c + d| == |a + b + c| + |d|;
    assert |a + b + c + d + e| == |a + b + c + d| + |e|;
  }

  // Exceptions

  datatype ExceptionType =
    | MissingTin | InvalidTin | InvalidAmount | FilingRejectedFor(reason: string)
    | RetryExhaustedType | InvariantFailure | SubmissionUnacknowledged

  datatype ExceptionItem = ExceptionItem(client: string, filingId: int, batchId: int, vendorName: string, code: string)

  datatype ExceptionRow = ExceptionRow(kind: ExceptionType, item: ExceptionItem)

  datatype ExceptionGroup = ExceptionGroup(kind: ExceptionType, count: nat, items: seq<ExceptionItem>)

  function TypeForReason(reason: Reason): ExceptionType {
    match reason
    case TinMissing => MissingTin
    case TinMalformed => InvalidTin
    case TinInvalid => InvalidTin
    case AmountInvalid => InvalidAmount
  }

  function BatchIdOf(db: Db, filing: int): int {
    if filing in db.batchOfFiling then db.batchOfFiling[filing] else 0
  }

  predicate Asked(wanted: string, client: string) {
    wanted == "" || client == wanted
  }

  function FilingException(db: Db, id: int): ExceptionRow
    requires id in db.filings && Troubled(db.filings[id])
  {
    var row := db.filings[id];
    if row.state.Blocked? then
      ExceptionRow(TypeForReason(row.state.preflight),
                   ExceptionItem(row.client, id, 0, row.displayName, ReasonText(row.state.preflight)))
    else
      ExceptionRow(FilingRejectedFor(row.state.reason),
                   ExceptionItem(row.client, id, BatchIdOf(db, id), row.displayName, row.state.reason))
  }

  function CodeOr(code: string): string {
    if code == "" then "INVARIANT" else code
  }

  function BatchException(db: Db, id: int, now: int): ExceptionRow
    requires id in db.batches && BatchAttention(db.batches[id], now)
  {
    var row := db.batches[id];
    if row.state.InvariantFailed? then
      ExceptionRow(if row.exhaustedAt.Some? then RetryExhaustedType else InvariantFailure,
                   ExceptionItem(row.client, 0, id, "", CodeOr(row.lastError)))
    else
      ExceptionRow(SubmissionUnacknowledged, ExceptionItem(row.client, 0, id, "", "ACK_DELAY"))
  }

  /** The union of the exceptions query. */
  function ExceptionRows(db: Db, firm: string, wanted: string, now: int): set<ExceptionRow> {
    (set id | id in db.filings && db.filings[id].firm == firm && Asked(wanted, db.filings[id].client)
              && Troubled(db.filings[id]) :: FilingException(db, id))
    + (set id | id in db.batches && db.batches[id].firm == firm && Asked(wanted, db.batches[id].client)
                && BatchAttention(db.batches[id], now) :: BatchException(db, id, now))
  }

  /** An acknowledged rejection is listed under its reason, with the filing, its batch and its vendor. */
  lemma RejectionIsReported(db: Db, claim: Claim, now: int, outcomes: seq<Outcome>, f: int, i: nat, later: int)
    requires DbOk(db) && Acknowledge(db, claim, now, outcomes).Ok? && claim.batchId in db.batches
    requires f in db.filings && f in db.batches[claim.batchId].links
    requires i < |outcomes| && outcomes[i].key == db.filings[f].key && outcomes[i].irsRecordId == ""
    ensures var row, reason := db.filings[f], outcomes[i].reason;
            ExceptionRow(FilingRejectedFor(reason),
                         ExceptionItem(row.client, f, claim.batchId, row.displayName, reason))
            in ExceptionRows(Acknowledge(db, claim, now, outcomes).value, row.firm, row.client, later)
  {
    AllOrNothing.AcknowledgmentGivesEachItsOutcome(db, claim, now, outcomes, f);
    assert BatchOk(db, claim.batchId, db.batches[claim.batchId]);
    var after := Acknowledge(db, claim, now, outcomes).value;
    RejectedIsListed(after, f, later);
  }

  lemma RejectedIsListed(db: Db, f: int, now: int)
    requires f in db.filings && db.filings[f].state.FilingRejected?
    ensures var row := db.filings[f];
            ExceptionRow(FilingRejectedFor(row.state.reason),
                         ExceptionItem(row.client, f, if f in db.batchOfFiling then db.batchOfFiling[f] else 0,
                                       row.displayName, row.state.reason))
            in ExceptionRows(db, row.firm, row.client, now)
  {
    assert FilingException(db, f) in ExceptionRows(db, db.filings[f].firm, db.filings[f].client, now);
  }

  /** A filing held back is listed under the kind of its reason. */
  lemma BlockedIsListed(db: Db, f: int, now: int)
    requires f in db.filings && db.filings[f].state.Blocked?
    ensures var row := db.filings[f];
            var (kind, code) := match row.state.preflight
                                case TinMissing => (MissingTin, "TIN_MISSING")
                                case TinMalformed => (InvalidTin, "TIN_MALFORMED")
                                case TinInvalid => (InvalidTin, "TIN_INVALID")
                                case AmountInvalid => (InvalidAmount, "AMOUNT_INVALID");
            ExceptionRow(kind, ExceptionItem(row.client, f, 0, row.displayName, code))
            in ExceptionRows(db, row.firm, row.client, now)
  {
    assert FilingException(db, f) in ExceptionRows(db, db.filings[f].firm, db.filings[f].client, now);
  }

  /** A failed batch is listed as exhausted or as an invariant failure, with its last error. */
  lemma FailedIsListed(db: Db, id: int, now: int)
    requires id in db.batches && db.batches[id].state.InvariantFailed?
    ensures var row := db.batches[id];
            ExceptionRow(if row.exhaustedAt.Some? then RetryExhaustedType else InvariantFailure,
                         ExceptionItem(row.client, 0, id, "", if row.lastError == "" then "INVARIANT"
                                       else row.lastError))
            in ExceptionRows(db, row.firm, row.client, now)
  {
    assert BatchException(db, id, now) in ExceptionRows(db, db.batches[id].firm, db.batches[id].client, now);
  }

  /**
   Nothing else is listed: a row is about a blocked or rejected filing, a failed batch, or a batch
   that has waited for its acknowledgment for more than half an hour, of the firm and client asked for.
   */
  lemma NothingElseIsListed(db: Db, firm: string, wanted: string, now: int, row: ExceptionRow)
    requires row in ExceptionRows(db, firm, wanted, now)
    ensures wanted == "" || row.item.client == wanted
    ensures || (row.item.filingId in db.filings && db.filings[row.item.filingId].firm == firm
                && row.item.client == db.filings[row.item.filingId].client
                && (db.filings[row.item.filingId].state.Blocked?
                    || db.filings[row.item.filingId].state.FilingRejected?))
            || (row.item.batchId in db.batches && db.batches[row.item.batchId].firm == firm
                && row.item.client == db.batches[row.item.batchId].client
                && var batch := db.batches[row.item.batchId];
                (batch.state.InvariantFailed?
                 || (batch.state in {Submitted, AwaitingAck}
                     && now - (if batch.submittedAt.Some? then batch.submittedAt.value else batch.nextActionAt)
                        > 1_800_000_000)))
  {
    if f :| f in db.filings && db.filings[f].firm == firm && Asked(wanted, db.filings[f].client)
            && Troubled(db.filings[f]) && FilingException(db, f) == row {
    } else {
      var id :| id in db.batches && db.batches[id].firm == firm && Asked(wanted, db.batches[id].client)
                && BatchAttention(db.batches[id], now) && BatchException(db, id, now) == row;
    }
  }

  /** The list for the whole firm is made of the lists of its clients. */
  lemma FirmExceptions(db: Db, firm: string, now: int, row: ExceptionRow)
    requires row.item.client != ""
    ensures row in ExceptionRows(db, firm, "", now) <==> row in ExceptionRows(db, firm, row.item.client, now)
  {
    var client := row.item.client;
    if f :| f in db.filings && db.filings[f].firm == firm && Troubled(db.filings[f]) && FilingException(db, f) == row {
      assert Asked("", db.filings[f].client) && Asked(client, db.filings[f].client);
    }
    if id :| id in db.batches && db.batches[id].firm == firm && BatchAttention(db.batches[id], now)
             && BatchException(db, id, now) == row {
      assert Asked("", db.batches[id].client) && Asked(client, db.batches[id].client);
    }
  }

  /** At one instant a client needs attention exactly when its list of exceptions is not empty. */
  lemma AttentionExactlyWithExceptions(db: Db, firm: string, client: string, now: int)
    requires client != ""
    ensures HeadlineOf(ReadFacts(db, firm, client, now)).NeedsAttention? <==> ExceptionRows(db, firm, client, now) != {}
  {
    TroubledExactlyWhenCounted(db, firm, client);
    var rows := ExceptionRows(db, firm, client, now);
    if id :| id in FilingsOf(db, firm, client) && Troubled(db.filings[id]) {
      assert FilingException(db, id) in rows;
    }
    if id :| id in BatchesOf(db, firm, client) && BatchAttention(db.batches[id], now) {
      assert BatchException(db, id, now) in rows;
    }
    BatchFlagsAgree(db, firm, client, now);
  }

  function ItemsOf(rows: seq<ExceptionRow>, kind: ExceptionType): seq<ExceptionItem> {
    if rows == [] then []
    else
      ItemsOf(rows[..|rows| - 1], kind) + if rows[|rows| - 1].kind == kind then [rows[|rows| - 1].item] else []
  }

  /** The groups so far are those of the rows, each with its items in order. */
  ghost predicate GroupedAs(rows: seq<ExceptionRow>, grouped: map<ExceptionType, ExceptionGroup>) {
    && (forall kind :: kind in grouped <==> ItemsOf(rows, kind) != [])
    && (forall kind :: kind in grouped ==>
          grouped[kind] == ExceptionGroup(kind, |ItemsOf(rows, kind)|, ItemsOf(rows, kind)))
  }

  lemma ItemsNext(rows: seq<ExceptionRow>, row: ExceptionRow, kind: ExceptionType)
    ensures ItemsOf(rows + [row], kind) == ItemsOf(rows, kind) + if row.kind == kind then [row.item] else []
  {
    assert (rows + [row])[..|rows|] == rows;
  }

  function GroupWith(grouped: map<ExceptionType, ExceptionGroup>, row: ExceptionRow): ExceptionGroup {
    if row.kind in grouped then
      ExceptionGroup(row.kind, grouped[row.kind].count + 1, grouped[row.kind].items + [row.item])
    else ExceptionGroup(row.kind, 1, [row.item])
  }

  lemma GroupedNext(rows: seq<ExceptionRow>, grouped: map<ExceptionType, ExceptionGroup>, row: ExceptionRow)
    requires GroupedAs(rows, grouped)
    ensures GroupedAs(rows + [row], grouped[row.kind := GroupWith(grouped, row)])
  {
    forall kind
      ensures ItemsOf(rows + [row], kind) == ItemsOf(rows, kind) + if row.kind == kind then [row.item] else []
    {
      ItemsNext(rows, row, kind);
    }
  }

  /**
   The grouping loop of `Exceptions`: one group for each type that occurs, with its items in the
   order of the rows.
   */
  method GroupExceptions(rows: seq<ExceptionRow>)
    returns (grouped: map<ExceptionType, ExceptionGroup>, order: seq<ExceptionType>)
    ensures Distinct(order) && Elements(order) == grouped.Keys
    ensures GroupedAs(rows, grouped)
  {
    assert GroupedAs(rows[..0], map[]);
    hide GroupedAs;
    grouped, order := map[], [];
    for i := 0 to |rows|
      invariant Distinct(order) && Elements(order) == grouped.Keys
      invariant GroupedAs(rows[..i], grouped)
    {
      assert rows[..i + 1] == rows[..i] + [rows[i]];
      GroupedNext(rows[..i], grouped, rows[i]);
      var kind := rows[i].kind;
      var group := ExceptionGroup(kind, 0, []);
      if kind in grouped {
        group := grouped[kind];
      } else {
        assert kind !in Elements(order);
        assert Elements(order + [kind]) == Elements(order) + {kind};
        order := order + [kind];
      }
      assert ExceptionGroup(kind, group.count + 1, group.items + [rows[i].item]) == GroupWith(grouped, rows[i]);
      grouped := grouped[kind := ExceptionGroup(kind, group.count + 1, group.items + [rows[i].item])];
    }
    assert rows[..|rows|] == rows;
  }

  // Truthfulness in every reachable state

  /** Fully filed means that every required filing is accepted, in every state; the counts then agree. */
  lemma FullyFiledMeansAccepted(db: Db, firm: string, client: string, now: int)
    requires HeadlineOf(ReadFacts(db, firm, client, now)).FullyFiled?
    ensures CountsOf(db, firm, client).accepted == CountsOf(db, firm, client).required
  {
    CountsAddUp(db, firm, client);
  }

  lemma AllAccepted(db: Db, firm: string, client: string, f: int)
    requires CountsOf(db, firm, client).accepted == CountsOf(db, firm, client).required
    requires f in FilingsOf(db, firm, client)
    ensures db.filings[f].state.FilingAccepted?
  {
    var accepted := FilingsOfKind(db, firm, client, IsAccepted);
    SubsetOfEqualSize(accepted, FilingsOf(db, firm, client));
  }

  /** A batch that is not acknowledged has a pending filing of its client. */
  lemma OpenBatchHasPending(s: State, firm: string, client: string, id: int)
    requires Inv(s) && id in BatchesOf(s.db, firm, client) && !s.db.batches[id].state.BatchAcknowledged?
    ensures CountsOf(s.db, firm, client).accepted != CountsOf(s.db, firm, client).required
  {
    var row := s.db.batches[id];
    assert BatchOk(s.db, id, row);
    var link := row.links[0];
    assert s.db.filings[link].state.Batched? && link in FilingsOf(s.db, firm, client);
    if CountsOf(s.db, firm, client).accepted == CountsOf(s.db, firm, client).required {
      AllAccepted(s.db, firm, client, link);
    }
  }

  lemma AcceptedMeansAcknowledged(s: State, firm: string, client: string)
    requires Inv(s) && CountsOf(s.db, firm, client).accepted == CountsOf(s.db, firm, client).required
    ensures forall id :: id in BatchesOf(s.db, firm, client) ==> s.db.batches[id].state.BatchAcknowledged?
  {
    CountsAddUp(s.db, firm, client);
    forall id | id in BatchesOf(s.db, firm, client)
      ensures s.db.batches[id].state.BatchAcknowledged?
    {
      if !s.db.batches[id].state.BatchAcknowledged? {
        OpenBatchHasPending(s, firm, client, id);
      }
    }
  }

  /**
   In every reachable state, and at any instant, a client is shown as fully filed exactly when all
   its required filings are accepted.
   */
  lemma FullyFiledExactly(s: State, backoff: Backoff, firm: string, client: string, now: int)
    requires Reachable(s, backoff)
    ensures HeadlineOf(ReadFacts(s.db, firm, client, now)).FullyFiled?
       <==> CountsOf(s.db, firm, client).accepted == CountsOf(s.db, firm, client).required
  {
    hide Reachable, Inv, CountsOf, FilingsOfKind;
    Safety.ReachableInv(s, backoff);
    CountsAddUp(s.db, firm, client);
    if CountsOf(s.db, firm, client).accepted == CountsOf(s.db, firm, client).required {
      AcceptedMeansAcknowledged(s, firm, client);
    }
  }

  /** Behind a fully filed client stands, at the receiver, one live record for each required filing. */
  lemma FullyFiledIsLive(s: State, backoff: Backoff, firm: string, client: string, now: int, f: int)
    requires Reachable(s, backoff) && HeadlineOf(ReadFacts(s.db, firm, client, now)).FullyFiled?
    requires f in FilingsOf(s.db, firm, client)
    ensures s.db.filings[f].state.FilingAccepted?
    ensures exists k, i :: k in s.stub.byUtid && k.firm == firm && 0 <= i < |s.stub.byUtid[k].results|
              && s.stub.byUtid[k].results[i] == AcceptedRecord(s.db.filings[f].key, s.db.filings[f].state.irsRecordId)
  {
    FullyFiledMeansAccepted(s.db, firm, client, now);
    AllAccepted(s.db, firm, client, f);
    ExactlyOnce.AcceptedFilingIsLive(s, backoff, f);
  }

  /** The filing waits to be planned, or its batch waits to be submitted. */
  predicate Waits(db: Db, f: int) {
    && f in db.filings
    && (|| db.filings[f].state.Ready?
        || (f in db.batchOfFiling && db.batchOfFiling[f] in db.batches
            && db.batches[db.batchOfFiling[f]].state.Planned?))
  }

  lemma PendingIsPlanned(s: State, firm: string, client: string, now: int, f: int)
    requires Inv(s) && f in FilingsOfKind(s.db, firm, client, IsPending)
    requires HeadlineOf(ReadFacts(s.db, firm, client, now)).PartiallyFiled?
    ensures Waits(s.db, f)
  {
    hide IndexesOk, DocumentOk, StubOk, CallsOk, WorkersOk;
    assert FilingOk(s.db, f, s.db.filings[f]);
    var id := s.db.batchOfFiling[f];
    var row := s.db.batches[id];
    assert BatchOk(s.db, id, row);
    assert ResultsAgree(s.db, s.stub, row);
    var i :| 0 <= i < |row.links| && row.links[i] == f;
    assert id in BatchesOf(s.db, firm, client);
    assert !row.state.InvariantFailed? && !InFlight(row);
  }

  /** A client shown as partially filed has a filing that is yet to be planned or submitted. */
  lemma PartiallyFiledMeansWaiting(s: State, backoff: Backoff, firm: string, client: string, now: int)
    requires Reachable(s, backoff) && HeadlineOf(ReadFacts(s.db, firm, client, now)).PartiallyFiled?
    ensures exists f :: f in FilingsOf(s.db, firm, client) && Waits(s.db, f)
  {
    hide Reachable, Inv;
    Safety.ReachableInv(s, backoff);
    var ready, pending := FilingsOfKind(s.db, firm, client, IsReady), FilingsOfKind(s.db, firm, client, IsPending);
    if ready != {} {
      var f := Member(ready);
      assert f in FilingsOf(s.db, firm, client) && Waits(s.db, f);
    } else {
      var f := Member(pending);
      PendingIsPlanned(s, firm, client, now, f);
      assert f in FilingsOf(s.db, firm, client) && Waits(s.db, f);
    }
  }

  /** The firm's filings. */
  function FirmFilings(db: Db, firm: string): set<int> {
    set id | id in db.filings && db.filings[id].firm == firm
  }

  function FilingsOfSome(db: Db, firm: string, clients: seq<string>): set<int> {
    set id | id in db.filings && db.filings[id].firm == firm && db.filings[id].client in clients
  }

  function RequiredTotal(db: Db, firm: string, clients: seq<string>): nat {
    if clients == [] then 0
    else RequiredTotal(db, firm, clients[..|clients| - 1]) + |FilingsOf(db, firm, clients[|clients| - 1])|
  }

  lemma SplitLast(db: Db, firm: string, clients: seq<string>)
    requires Distinct(clients) && clients != []
    ensures var n := |clients| - 1;
            var before, last := FilingsOfSome(db, firm, clients[..n]), FilingsOf(db, firm, clients[n]);
            FilingsOfSome(db, firm, clients) == before + last && before !! last
  {
    var n := |clients| - 1;
    var before, last := FilingsOfSome(db, firm, clients[..n]), FilingsOf(db, firm, clients[n]);
    assert clients == clients[..n] + [clients[n]];
    forall id
      ensures id in FilingsOfSome(db, firm, clients) <==> id in before + last
    {
    }
    assert FilingsOfSome(db, firm, clients) == before + last;
    forall id | id in before
      ensures id !in last
    {
      var i :| 0 <= i < n && clients[..n][i] == db.filings[id].client;
      assert clients[i] != clients[n];
    }
  }

  lemma {:induction false} RequiredOfSome(db: Db, firm: string, clients: seq<string>)
    requires Distinct(clients)
    ensures RequiredTotal(db, firm, clients) == |FilingsOfSome(db, firm, clients)|
  {
    if clients == [] {
      assert FilingsOfSome(db, firm, clients) == {};
    } else {
      var n := |clients| - 1;
      RequiredOfSome(db, firm, clients[..n]);
      var before, last := FilingsOfSome(db, firm, clients[..n]), FilingsOf(db, firm, clients[n]);
      SplitLast(db, firm, clients);
      assert |before + last| == |before| + |last|;
    }
  }

  /** Over the firm's clients, each listed once, the required counts add up to the firm's filings. */
  lemma FirmRequiredIsAll(db: Db, firm: string, clients: seq<string>)
    requires Distinct(clients) && forall id :: id in FirmFilings(db, firm) ==> db.filings[id].client in clients
    ensures RequiredTotal(db, firm, clients) == |FirmFilings(db, firm)|
  {
    RequiredOfSome(db, firm, clients);
    forall id
      ensures id in FilingsOfSome(db, firm, clients) <==> id in FirmFilings(db, firm)
    {
    }
    assert FilingsOfSome(db, firm, clients) == FirmFilings(db, firm);
  }

  /** The firm's status, over its clients each listed once, requires exactly the firm's filings. */
  lemma FirmTotalIsAll(db: Db, firm: string, clients: seq<string>, statuses: seq<ClientStatus>, now: int)
    requires Distinct(clients) && |statuses| == |clients|
    requires forall id :: id in FirmFilings(db, firm) ==> db.filings[id].client in clients
    requires forall i :: 0 <= i < |clients| ==> statuses[i].counts == JoinedFacts(db, firm, clients[i], now).counts
    ensures TotalCounts(statuses).required == |FirmFilings(db, firm)|
  {
    FirmRequiredIsAll(db, firm, clients);
    SumsRequired(db, firm, clients, statuses, now);
  }

  lemma {:induction false} SumsRequired(db: Db, firm: string, clients: seq<string>, statuses: seq<ClientStatus>,
                                        now: int)
    requires |statuses| == |clients|
    requires forall i :: 0 <= i < |clients| ==> statuses[i].counts == JoinedFacts(db, firm, clients[i], now).counts
    ensures TotalCounts(statuses).required == RequiredTotal(db, firm, clients)
  {
    if clients != [] {
      var n := |clients| - 1;
      SumsRequired(db, firm, clients[..n], statuses[..n], now);
      FirmQueryAgrees(db, firm, clients[n], now);
    }
  }
}
