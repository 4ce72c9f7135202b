/** The planner's partition of ready filings into batches. */
module Planner {
  import opened Prelude
  import opened Intake
  import Identity

  /** A row of the planning query: a ready filing that no batch has yet. */
  datatype Pending = Pending(id: int, client: string, taxYear: nat, digest: string, record: FilingRecord)

  datatype StagedBatch = StagedBatch(sequence: int, client: string, taxYear: nat, utid: string, document: Document)

  datatype StagedLink = StagedLink(utid: string, filingId: int, client: string, slot: int)

  datatype PlanError = KeyLength

  /** How far the inner loop gets from `end` on. */
  function GroupEnd(rows: seq<Pending>, end: nat): (n: nat)
    requires 1 <= end <= |rows| && end <= 100
    requires forall i :: 0 <= i < end ==> rows[i].client == rows[0].client
    ensures end <= n <= |rows| && n <= 100
    ensures forall i :: 0 <= i < n ==> rows[i].client == rows[0].client
    ensures n == |rows| || n == 100 || rows[n].client != rows[0].client
    decreases |rows| - end
  {
    if end < |rows| && end < 100 && rows[end].client == rows[0].client then GroupEnd(rows, end + 1) else end
  }

  /** The groups of the outer loop. */
  function Partition(rows: seq<Pending>): seq<seq<Pending>>
    decreases |rows|
  {
    if rows == [] then [] else [rows[..GroupEnd(rows, 1)]] + Partition(rows[GroupEnd(rows, 1)..])
  }

  function Concat<T>(groups: seq<seq<T>>): seq<T> {
    if groups == [] then [] else groups[0] + Concat(groups[1..])
  }

  predicate OneClientGroup(group: seq<Pending>) {
    1 <= |group| <= 100 && forall i :: 0 <= i < |group| ==> group[i].client == group[0].client
  }

  predicate WellSized(groups: seq<seq<Pending>>) {
    forall g :: 0 <= g < |groups| ==> OneClientGroup(groups[g])
  }

  /** The groups concatenate to the rows, and each has 1 to 100 filings of one client. */
  lemma {:induction false} PartitionCovers(rows: seq<Pending>)
    ensures Concat(Partition(rows)) == rows
    ensures WellSized(Partition(rows))
    decreases |rows|
  {
    if rows != [] {
      var n := GroupEnd(rows, 1);
      PartitionCovers(rows[n..]);
      GroupFirst(rows[..n], Partition(rows[n..]));
      assert OneClientGroup(rows[..n]);
      assert rows == rows[..n] + rows[n..];
    }
  }

  lemma GroupFirst(group: seq<Pending>, groups: seq<seq<Pending>>)
    requires WellSized(groups)
    ensures Concat([group] + groups) == group + Concat(groups)
    ensures OneClientGroup(group) ==> WellSized([group] + groups)
  {
    assert ([group] + groups)[1..] == groups;
  }

  // How many batches

  function CountRows(rows: seq<Pending>, client: string): nat {
    if rows == [] then 0 else (if rows[0].client == client then 1 else 0) + CountRows(rows[1..], client)
  }

  /** The groups that serve one client. */
  function CountGroups(groups: seq<seq<Pending>>, client: string): nat
    requires WellSized(groups)
  {
    if groups == [] then 0 else (if groups[0][0].client == client then 1 else 0) + CountGroups(groups[1..], client)
  }

  /** ceil(n / 100) */
  function Needed(n: nat): nat {
    (n + 99) / 100
  }

  /** Rows of one client are adjacent, as `ORDER BY client_id` delivers them. */
  predicate ClientsAdjacent(rows: seq<Pending>) {
    forall i, j, k :: 0 <= i < j < k < |rows| && rows[i].client == rows[k].client ==> rows[j].client == rows[i].client
  }

  lemma {:induction false} CountRowsConcat(a: seq<Pending>, b: seq<Pending>, client: string)
    ensures CountRows(a + b, client) == CountRows(a, client) + CountRows(b, client)
  {
    if a == [] {
      assert a + b == b;
    } else {
      assert (a + b)[1..] == a[1..] + b;
      CountRowsConcat(a[1..], b, client);
    }
  }

  lemma {:induction false} CountUniform(rows: seq<Pending>, other: string, client: string)
    requires forall i :: 0 <= i < |rows| ==> rows[i].client == other
    ensures CountRows(rows, client) == if client == other then |rows| else 0
  {
    if rows != [] {
      CountUniform(rows[1..], other, client);
    }
  }

  lemma {:induction false} CountAbsent(rows: seq<Pending>, client: string)
    requires forall i :: 0 <= i < |rows| ==> rows[i].client != client
    ensures CountRows(rows, client) == 0
  {
    if rows != [] {
      CountAbsent(rows[1..], client);
    }
  }

  lemma BetweenSame(rows: seq<Pending>, i: nat, j: nat, k: nat)
    requires ClientsAdjacent(rows) && i < j < k < |rows|
    ensures rows[i].client == rows[k].client ==> rows[j].client == rows[i].client
  {
  }

  /** After a group that is not full comes another client, for good. */
  lemma ClientDone(rows: seq<Pending>, n: nat)
    requires ClientsAdjacent(rows) && 1 <= n < |rows| && rows[n].client != rows[0].client
    ensures forall i :: n <= i < |rows| ==> rows[i].client != rows[0].client
  {
    forall i | n <= i < |rows|
      ensures rows[i].client != rows[0].client
    {
      if i > n {
        BetweenSame(rows, 0, n, i);
      }
    }
  }

  lemma AdjacentSuffix(rows: seq<Pending>, n: nat)
    requires ClientsAdjacent(rows) && n <= |rows|
    ensures ClientsAdjacent(rows[n..])
  {
    var rest := rows[n..];
    forall i, j, k | 0 <= i < j < k < |rest| && rest[i].client == rest[k].client
      ensures rest[j].client == rest[i].client
    {
      assert rows[n + i].client == rows[n + k].client;
    }
  }

  lemma FullGroupNeeded(rest: nat)
    ensures Needed(100 + rest) == 1 + Needed(rest)
  {
  }

  lemma LastGroupNeeded(n: nat)
    requires 1 <= n <= 100
    ensures Needed(n) == 1 && Needed(0) == 0
  {
  }

  /** How many filings of the first row's client the first group leaves. */
  lemma FirstGroupRest(rows: seq<Pending>, n: nat)
    requires ClientsAdjacent(rows) && rows != [] && n == GroupEnd(rows, 1)
    ensures CountRows(rows, rows[0].client) == n + CountRows(rows[n..], rows[0].client)
    ensures n < 100 ==> CountRows(rows[n..], rows[0].client) == 0
  {
    assert rows == rows[..n] + rows[n..];
    CountRowsConcat(rows[..n], rows[n..], rows[0].client);
    CountUniform(rows[..n], rows[0].client, rows[0].client);
    if n < 100 {
      if n < |rows| {
        ClientDone(rows, n);
      }
      CountAbsent(rows[n..], rows[0].client);
    }
  }

  lemma OtherClientRest(rows: seq<Pending>, n: nat, client: string)
    requires rows != [] && n == GroupEnd(rows, 1) && client != rows[0].client
    ensures CountRows(rows, client) == CountRows(rows[n..], client)
  {
    assert rows == rows[..n] + rows[n..];
    CountRowsConcat(rows[..n], rows[n..], client);
    CountUniform(rows[..n], rows[0].client, client);
  }

  /** Each client gets ceil(n / 100) batches for its n filings. */
  lemma {:induction false} BatchesPerClient(rows: seq<Pending>, client: string)
    requires ClientsAdjacent(rows)
    ensures WellSized(Partition(rows))
    ensures CountGroups(Partition(rows), client) == Needed(CountRows(rows, client))
    decreases |rows|
  {
    PartitionCovers(rows);
    if rows != [] {
      var n := GroupEnd(rows, 1);
      AdjacentSuffix(rows, n);
      BatchesPerClient(rows[n..], client);
      assert Partition(rows)[1..] == Partition(rows[n..]);
      if client == rows[0].client {
        FirstGroupRest(rows, n);
        FullGroupNeeded(CountRows(rows[n..], client));
        LastGroupNeeded(n);
      } else {
        OtherClientRest(rows, n, client);
      }
    }
  }

  /** No partition into groups of at most 100 filings of one client serves a client with fewer groups. */
  lemma {:induction false} AtLeastNeeded(groups: seq<seq<Pending>>, client: string)
    requires WellSized(groups)
    ensures CountGroups(groups, client) >= Needed(CountRows(Concat(groups), client))
  {
    if groups != [] {
      AtLeastNeeded(groups[1..], client);
      CountRowsConcat(groups[0], Concat(groups[1..]), client);
      CountUniform(groups[0], groups[0][0].client, client);
    }
  }

  // The number of batches over all clients

  function TotalNeeded(clients: seq<string>, rows: seq<Pending>): nat {
    if clients == [] then 0 else Needed(CountRows(rows, clients[0])) + TotalNeeded(clients[1..], rows)
  }

  function TotalGroups(clients: seq<string>, groups: seq<seq<Pending>>): nat
    requires WellSized(groups)
  {
    if clients == [] then 0 else CountGroups(groups, clients[0]) + TotalGroups(clients[1..], groups)
  }

  predicate Covers(clients: seq<string>, rows: seq<Pending>) {
    Distinct(clients) && forall i :: 0 <= i < |rows| ==> rows[i].client in clients
  }

  /** A group is counted once over a list of distinct clients that holds its own. */
  lemma {:induction false} GroupCountedOnce(clients: seq<string>, groups: seq<seq<Pending>>)
    requires Distinct(clients) && WellSized(groups) && groups != []
    ensures TotalGroups(clients, groups)
         == TotalGroups(clients, groups[1..]) + if groups[0][0].client in clients then 1 else 0
  {
    if clients != [] {
      GroupCountedOnce(clients[1..], groups);
      assert clients == [clients[0]] + clients[1..];
    }
  }

  lemma {:induction false} NoGroups(clients: seq<string>)
    ensures TotalGroups(clients, []) == 0
  {
    if clients != [] {
      NoGroups(clients[1..]);
    }
  }

  lemma {:induction false} GroupsAreTotal(clients: seq<string>, groups: seq<seq<Pending>>)
    requires WellSized(groups) && Covers(clients, Concat(groups))
    ensures TotalGroups(clients, groups) == |groups|
  {
    if groups == [] {
      NoGroups(clients);
    } else {
      var rest := Concat(groups[1..]);
      assert Concat(groups)[0] == groups[0][0];
      forall i | 0 <= i < |rest|
        ensures rest[i].client in clients
      {
        assert Concat(groups)[|groups[0]| + i] == rest[i];
      }
      GroupsAreTotal(clients, groups[1..]);
      GroupCountedOnce(clients, groups);
    }
  }

  lemma {:induction false} PartitionTotal(clients: seq<string>, rows: seq<Pending>)
    requires ClientsAdjacent(rows) && WellSized(Partition(rows))
    ensures TotalGroups(clients, Partition(rows)) == TotalNeeded(clients, rows)
  {
    if clients != [] {
      BatchesPerClient(rows, clients[0]);
      PartitionTotal(clients[1..], rows);
    }
  }

  /** The number of batches is the sum over the clients of ceil(n / 100). */
  lemma BatchCount(clients: seq<string>, rows: seq<Pending>)
    requires ClientsAdjacent(rows) && Covers(clients, rows)
    ensures |Partition(rows)| == TotalNeeded(clients, rows)
  {
    PartitionCovers(rows);
    GroupsAreTotal(clients, Partition(rows));
    PartitionTotal(clients, rows);
  }

  // No other partition does with fewer batches

  lemma {:induction false} CountRowsPermuted(a: seq<Pending>, b: seq<Pending>, client: string)
    requires multiset(a) == multiset(b)
    ensures CountRows(a, client) == CountRows(b, client)
  {
    if a == [] {
      assert b == [] by {
        assert |multiset(a)| == |a| && |multiset(b)| == |b|;
      }
    } else {
      var j := SameRest(a, b, 0);
      assert a[..0] + a[0 + 1..] == a[1..];
      CountRowsPermuted(a[1..], b[..j] + b[j + 1..], client);
      CountRowsWithout(b, j, client);
    }
  }

  lemma CountRowsWithout(rows: seq<Pending>, j: nat, client: string)
    requires j < |rows|
    ensures CountRows(rows, client)
         == CountRows(rows[..j] + rows[j + 1..], client) + if rows[j].client == client then 1 else 0
  {
    var tail := rows[j..];
    assert tail[1..] == rows[j + 1..] && rows == rows[..j] + tail;
    CountRowsConcat(rows[..j], tail, client);
    CountRowsConcat(rows[..j], rows[j + 1..], client);
  }

  lemma {:induction false} TotalAtLeastNeeded(clients: seq<string>, groups: seq<seq<Pending>>, rows: seq<Pending>)
    requires WellSized(groups) && multiset(Concat(groups)) == multiset(rows)
    ensures TotalGroups(clients, groups) >= TotalNeeded(clients, rows)
  {
    if clients != [] {
      AtLeastNeeded(groups, clients[0]);
      CountRowsPermuted(Concat(groups), rows, clients[0]);
      TotalAtLeastNeeded(clients[1..], groups, rows);
    }
  }

  /** The distinct clients of the rows. */
  function ClientsOf(rows: seq<Pending>): (clients: seq<string>)
    ensures Covers(clients, rows)
  {
    if rows == [] then []
    else
      var rest := ClientsOf(rows[1..]);
      if rows[0].client in rest then rest else [rows[0].client] + rest
  }

  lemma CoversPermuted(clients: seq<string>, a: seq<Pending>, b: seq<Pending>)
    requires multiset(a) == multiset(b) && Covers(clients, a)
    ensures Covers(clients, b)
  {
    forall i | 0 <= i < |b|
      ensures b[i].client in clients
    {
      assert b[i] in multiset(a);
    }
  }

  /** However the same filings are grouped into valid batches, in any order, it takes at least as many. */
  lemma PartitionIsMinimal(rows: seq<Pending>, other: seq<seq<Pending>>)
    requires ClientsAdjacent(rows)
    requires WellSized(other) && multiset(Concat(other)) == multiset(rows)
    ensures |Partition(rows)| <= |other|
  {
    var clients := ClientsOf(rows);
    BatchCount(clients, rows);
    CoversPermuted(clients, rows, Concat(other));
    GroupsAreTotal(clients, other);
    TotalAtLeastNeeded(clients, other, rows);
  }

  // The batches and links of the loop

  type Hash = Identity.Hash

  predicate KeysAreDigests(rows: seq<Pending>) {
    forall i :: 0 <= i < |rows| ==> Identity.IsDigest(rows[i].digest)
  }

  predicate RecordsSendable(rows: seq<Pending>) {
    forall i :: 0 <= i < |rows| ==> Sendable(rows[i].record)
  }

  function DigestsOf(group: seq<Pending>): (keys: seq<string>)
    ensures |keys| == |group|
    ensures KeysAreDigests(group) ==> Identity.AllDigests(keys)
  {
    seq(|group|, i requires 0 <= i < |group| => group[i].digest)
  }

  function GroupRecords(group: seq<Pending>): (records: seq<FilingRecord>)
    ensures |records| == |group|
    ensures RecordsSendable(group) ==> AllSendable(records)
  {
    seq(|group|, i requires 0 <= i < |group| => group[i].record)
  }

  /** SHA-256 yields 32 bytes. */
  ghost predicate IsHash(sha: Hash) {
    forall p :: Identity.IsDigest(sha(p))
  }

  predicate Loadable(group: seq<Pending>) {
    group != [] && KeysAreDigests(group) && RecordsSendable(group)
  }

  ghost function DigestOf(sha: Hash, firm: string, group: seq<Pending>): string
    requires IsHash(sha) && Loadable(group)
  {
    sha(Identity.Preimage(Identity.BatchParts(firm, group[0].client, group[0].taxYear, DigestsOf(group))))
  }

  ghost function UtidOf(sha: Hash, firm: string, group: seq<Pending>): string
    requires IsHash(sha) && Loadable(group)
  {
    Identity.BatchUtid(sha, firm, group[0].client, group[0].taxYear, DigestsOf(group))
  }

  ghost function Staged(sha: Hash, firm: string, group: seq<Pending>, sequence: int): StagedBatch
    requires IsHash(sha) && Loadable(group)
  {
    var utid := UtidOf(sha, firm, group);
    StagedBatch(sequence, group[0].client, group[0].taxYear, utid,
                CanonicalDocument(firm, group[0].client, group[0].taxYear, utid,
                                  Identity.SubmissionId(Identity.Patched(DigestOf(sha, firm, group))),
                                  GroupRecords(group)))
  }

  ghost function LinksFor(sha: Hash, firm: string, group: seq<Pending>): (links: seq<StagedLink>)
    requires IsHash(sha) && Loadable(group)
    ensures |links| == |group|
  {
    var utid := UtidOf(sha, firm, group);
    seq(|group|, i requires 0 <= i < |group| => StagedLink(utid, group[i].id, group[i].client, i + 1))
  }

  predicate AllLoadable(groups: seq<seq<Pending>>) {
    forall g :: 0 <= g < |groups| ==> Loadable(groups[g])
  }

  ghost function StagedBatches(sha: Hash, firm: string, groups: seq<seq<Pending>>): (batches: seq<StagedBatch>)
    requires IsHash(sha) && AllLoadable(groups)
    ensures |batches| == |groups|
  {
    seq(|groups|, g requires 0 <= g < |groups| => Staged(sha, firm, groups[g], g + 1))
  }

  ghost function StagedLinks(sha: Hash, firm: string, groups: seq<seq<Pending>>): seq<StagedLink>
    requires IsHash(sha) && AllLoadable(groups)
  {
    if groups == [] then []
    else StagedLinks(sha, firm, groups[..|groups| - 1]) + LinksFor(sha, firm, groups[|groups| - 1])
  }

  /** The staged rows in full: numbered from one, each with its group's columns, and a link for every filing of it. */
  lemma StagedExactly(sha: Hash, firm: string, groups: seq<seq<Pending>>, g: nat)
    requires IsHash(sha) && AllLoadable(groups) && g < |groups|
    ensures |StagedBatches(sha, firm, groups)| == |groups|
    ensures var batch, group := StagedBatches(sha, firm, groups)[g], groups[g];
            && batch.sequence == g + 1 && batch.client == group[0].client && batch.taxYear == group[0].taxYear
            && batch.utid == Identity.BatchUtid(sha, firm, group[0].client, group[0].taxYear, DigestsOf(group))
    ensures var links, group := LinksFor(sha, firm, groups[g]), groups[g];
            && |links| == |group|
            && forall i :: 0 <= i < |group| ==>
                 links[i] == StagedLink(StagedBatches(sha, firm, groups)[g].utid, group[i].id, group[i].client, i + 1)
  {
  }

  /** The document of a staged batch is the one the receiver decodes to the group's records, under the batch's UTID. */
  lemma StagedDocumentDecodes(sha: Hash, firm: string, group: seq<Pending>, sequence: int)
    requires IsHash(sha) && Loadable(group) && OneClientGroup(group) && firm != "" && group[0].client != ""
    requires group[0].taxYear == 2025 && DistinctRecords(GroupRecords(group))
    ensures var batch := Staged(sha, firm, group, sequence);
            && |batch.utid| >= 36
            && Decode(batch.document)
               == Ok(Transmission(firm, group[0].client, "2025", batch.utid,
                                  "SUB-" + Identity.Upper(Identity.UuidDigits(batch.utid)), GroupRecords(group)))
    ensures forall i :: 0 <= i < |group| ==> GroupRecords(group)[i] == group[i].record
  {
    var d := DigestOf(sha, firm, group);
    Identity.UtidIsWellFormed(d, firm);
    Identity.SubmissionIdFollowsUtid(d, firm);
    var submissionId := Identity.SubmissionId(Identity.Patched(d));
    assert submissionId[0] == 'S';
    CanonicalDocumentDecodes(firm, group[0].client, 2025, UtidOf(sha, firm, group), submissionId, GroupRecords(group));
  }

  /** The inner loop over one group: its keys and its details. */
  method GroupParts(group: seq<Pending>) returns (keys: seq<string>, records: seq<FilingRecord>)
    ensures keys == DigestsOf(group) && records == GroupRecords(group)
  {
    keys, records := [], [];
    for i := 0 to |group|
      invariant keys == DigestsOf(group[..i]) && records == GroupRecords(group[..i])
    {
      keys := keys + [group[i].digest];
      records := records + [group[i].record];
    }
    assert group[..|group|] == group;
  }

  /** `canonicalXML` and the batch row of one group. */
  method StageGroup(sha: Hash, firm: string, group: seq<Pending>, sequence: int) returns (batch: StagedBatch)
    requires IsHash(sha) && Loadable(group)
    ensures batch == Staged(sha, firm, group, sequence)
  {
    var keys, records := GroupParts(group);
    var digest := sha(Identity.Preimage(Identity.BatchParts(firm, group[0].client, group[0].taxYear, keys)));
    var patched := Identity.Patched(digest);
    var utid := Identity.Utid(patched, firm);
    batch := StagedBatch(sequence, group[0].client, group[0].taxYear, utid,
                         CanonicalDocument(firm, group[0].client, group[0].taxYear, utid,
                                           Identity.SubmissionId(patched), records));
  }

  /** The links of one group, with slots from 1. */
  method StageLinks(sha: Hash, firm: string, group: seq<Pending>, utid: string) returns (links: seq<StagedLink>)
    requires IsHash(sha) && Loadable(group) && utid == UtidOf(sha, firm, group)
    ensures links == LinksFor(sha, firm, group)
  {
    links := [];
    for i := 0 to |group|
      invariant |links| == i
      invariant forall k :: 0 <= k < i ==> links[k] == StagedLink(utid, group[k].id, group[k].client, k + 1)
    {
      links := links + [StagedLink(utid, group[i].id, group[i].client, i + 1)];
    }
  }

  /** The length check on the filing keys that the query returns. */
  method CheckKeys(rows: seq<Pending>) returns (ok: bool)
    requires forall i :: 0 <= i < |rows| ==> Identity.ByteString(rows[i].digest)
    ensures ok <==> KeysAreDigests(rows)
  {
    for i := 0 to |rows|
      invariant KeysAreDigests(rows[..i])
    {
      if |rows[i].digest| != 32 {
        return false;
      }
      assert Identity.IsDigest(rows[i].digest);
    }
    assert rows[..|rows|] == rows;
    return true;
  }

  /** The inner loop that finds the end of a group. */
  method FindEnd(rows: seq<Pending>, start: nat) returns (end: nat)
    requires start < |rows|
    ensures start < end <= |rows| && end == start + GroupEnd(rows[start..], 1)
  {
    end := start;
    while end < |rows| && end - start < 100 && rows[end].client == rows[start].client
      invariant start <= end <= |rows| && end - start <= 100
      invariant forall i :: start <= i < end ==> rows[i].client == rows[start].client
      invariant end > start ==> GroupEnd(rows[start..], 1) == GroupEnd(rows[start..], end - start)
    {
      end := end + 1;
    }
  }

  /** One turn of the outer loop: the group's batch and its links are appended. */
  method AppendGroup(sha: Hash, firm: string, ghost groups: seq<seq<Pending>>, group: seq<Pending>,
                     batches: seq<StagedBatch>, links: seq<StagedLink>)
    returns (moreBatches: seq<StagedBatch>, moreLinks: seq<StagedLink>)
    requires IsHash(sha) && AllLoadable(groups) && Loadable(group)
    requires batches == StagedBatches(sha, firm, groups) && links == StagedLinks(sha, firm, groups)
    ensures AllLoadable(groups + [group])
    ensures moreBatches == StagedBatches(sha, firm, groups + [group])
    ensures moreLinks == StagedLinks(sha, firm, groups + [group])
  {
    var batch := StageGroup(sha, firm, group, |batches| + 1);
    var added := StageLinks(sha, firm, group, batch.utid);
    LoadableNext(groups, group);
    BatchesNext(sha, firm, groups, group);
    LinksNext(sha, firm, groups, group);
    moreBatches, moreLinks := batches + [batch], links + added;
  }

  lemma SliceLoadable(rows: seq<Pending>, start: nat, end: nat)
    requires start < end <= |rows| && KeysAreDigests(rows) && RecordsSendable(rows)
    ensures Loadable(rows[start..end])
  {
  }

  /** The query's rows are checked, then cut into batches by the loop of `PlanBatches`. */
  method PlanRows(sha: Hash, firm: string, rows: seq<Pending>)
    returns (r: Result<(seq<StagedBatch>, seq<StagedLink>), PlanError>)
    requires IsHash(sha) && RecordsSendable(rows)
    requires forall i :: 0 <= i < |rows| ==> Identity.ByteString(rows[i].digest)
    ensures r.Ok? <==> KeysAreDigests(rows)
    ensures r.Ok? ==>
              && AllLoadable(Partition(rows))
              && r.value == (StagedBatches(sha, firm, Partition(rows)), StagedLinks(sha, firm, Partition(rows)))
  {
    var ok := CheckKeys(rows);
    if !ok {
      return Err(KeyLength);
    }
    var batches: seq<StagedBatch>, links: seq<StagedLink> := [], [];
    ghost var groups: seq<seq<Pending>> := [];
    var start := 0;
    while start < |rows|
      invariant start <= |rows|
      invariant Planned(rows, start, groups)
      invariant AllLoadable(groups)
      invariant batches == StagedBatches(sha, firm, groups) && links == StagedLinks(sha, firm, groups)
    {
      var end := FindEnd(rows, start);
      SliceLoadable(rows, start, end);
      PartitionNext(rows, start, end, groups);
      batches, links := AppendGroup(sha, firm, groups, rows[start..end], batches, links);
      groups := groups + [rows[start..end]];
      start := end;
    }
    assert Partition(rows) == groups;
    return Ok((batches, links));
  }

  /** The groups made so far are those of the whole partition, up to `start`. */
  predicate Planned(rows: seq<Pending>, start: nat, groups: seq<seq<Pending>>)
    requires start <= |rows|
  {
    Partition(rows) == groups + Partition(rows[start..])
  }

  lemma LoadableNext(groups: seq<seq<Pending>>, group: seq<Pending>)
    requires AllLoadable(groups) && Loadable(group)
    ensures AllLoadable(groups + [group])
  {
  }

  lemma BatchesNext(sha: Hash, firm: string, groups: seq<seq<Pending>>, group: seq<Pending>)
    requires IsHash(sha) && AllLoadable(groups) && Loadable(group) && AllLoadable(groups + [group])
    ensures StagedBatches(sha, firm, groups + [group])
         == StagedBatches(sha, firm, groups) + [Staged(sha, firm, group, |groups| + 1)]
  {
    var all := StagedBatches(sha, firm, groups + [group]);
    var before := StagedBatches(sha, firm, groups);
    forall g | 0 <= g < |groups|
      ensures all[g] == before[g]
    {
      assert (groups + [group])[g] == groups[g];
    }
  }

  lemma LinksNext(sha: Hash, firm: string, groups: seq<seq<Pending>>, group: seq<Pending>)
    requires IsHash(sha) && AllLoadable(groups) && Loadable(group) && AllLoadable(groups + [group])
    ensures StagedLinks(sha, firm, groups + [group]) == StagedLinks(sha, firm, groups) + LinksFor(sha, firm, group)
  {
    assert (groups + [group])[..|groups|] == groups;
  }

  lemma PartitionStep(rows: seq<Pending>, n: nat)
    requires rows != [] && n == GroupEnd(rows, 1)
    ensures Partition(rows) == [rows[..n]] + Partition(rows[n..])
  {
  }

  lemma Reassociate<T>(a: seq<T>, b: seq<T>, c: seq<T>)
    ensures a + (b + c) == a + b + c
  {
  }

  lemma PartitionNext(rows: seq<Pending>, start: nat, end: nat, groups: seq<seq<Pending>>)
    requires start < end <= |rows| && end == start + GroupEnd(rows[start..], 1)
    requires Planned(rows, start, groups)
    ensures Planned(rows, end, groups + [rows[start..end]])
  {
    var rest := rows[start..];
    PartitionStep(rest, end - start);
    assert rest[..end - start] == rows[start..end] && rest[end - start..] == rows[end..];
    Reassociate(groups, [rows[start..end]], Partition(rows[end..]));
  }
}
