/**
 Determination: payments grouped by client and vendor, the rule that requires a filing, the
 preflight check, and the per-payment explanation. The query is read as a function on the rows.
 */
module Determination {
  import opened Prelude
  import opened Retry
  import opened Stub
  import opened Filing
  import opened Planning
  import Identity

  datatype PaymentMethod = Check | Ach | Wire | Cash | CreditCard | PayPal

  datatype Payment = Payment(sourceRow: int, client: string, vendorName: string, vendor: string, amount: Int64,
                             paidBy: PaymentMethod, withheld: Int64)

  datatype GroupKey = GroupKey(client: string, vendor: string)

  /** The classification view. */
  predicate Counted(paidBy: PaymentMethod) {
    paidBy in {Check, Ach, Wire, Cash}
  }

  function ExclusionReason(paidBy: PaymentMethod): string {
    match paidBy
    case CreditCard => "PAYMENT_PROCESSOR_REPORTED"
    case PayPal => "THIRD_PARTY_NETWORK_REPORTED"
    case _ => ""
  }

  function GroupOf(p: Payment): GroupKey {
    GroupKey(p.client, p.vendor)
  }

  // Sums

  function Sum(payments: seq<Payment>, f: Payment -> int): int {
    if payments == [] then 0 else Sum(payments[..|payments| - 1], f) + f(payments[|payments| - 1])
  }

  lemma {:induction false} SumConcat(a: seq<Payment>, b: seq<Payment>, f: Payment -> int)
    ensures Sum(a + b, f) == Sum(a, f) + Sum(b, f)
  {
    if b == [] {
      assert a + b == a;
    } else {
      var n := |b| - 1;
      assert (a + b)[..|a| + n] == a + b[..n];
      SumConcat(a, b[..n], f);
    }
  }

  lemma SumWithout(payments: seq<Payment>, j: nat, f: Payment -> int)
    requires j < |payments|
    ensures Sum(payments, f) == Sum(payments[..j] + payments[j + 1..], f) + f(payments[j])
  {
    assert payments == payments[..j] + ([payments[j]] + payments[j + 1..]);
    SumConcat(payments[..j], [payments[j]] + payments[j + 1..], f);
    SumConcat([payments[j]], payments[j + 1..], f);
    SumConcat(payments[..j], payments[j + 1..], f);
    assert Sum([payments[j]], f) == f(payments[j]);
  }

  /** A sum does not depend on the order of the rows. */
  lemma {:induction false} SumPermuted(a: seq<Payment>, b: seq<Payment>, f: Payment -> int)
    requires multiset(a) == multiset(b)
    ensures Sum(a, f) == Sum(b, f)
  {
    if a == [] {
      assert b == [] by {
        assert |multiset(a)| == |a| && |multiset(b)| == |b|;
      }
    } else {
      var n := |a| - 1;
      var j := SameRest(a, b, n);
      assert a[..n] + a[n + 1..] == a[..n];
      SumPermuted(a[..n], b[..j] + b[j + 1..], f);
      SumWithout(b, j, f);
    }
  }

  // Aggregates

  function CountedAmount(k: GroupKey): Payment -> int {
    (p: Payment) => if GroupOf(p) == k && Counted(p.paidBy) then p.amount as int else 0
  }

  function WithheldAmount(k: GroupKey): Payment -> int {
    (p: Payment) => if GroupOf(p) == k then p.withheld as int else 0
  }

  function HasName(k: GroupKey, name: string): Payment -> int {
    (p: Payment) => if GroupOf(p) == k && p.vendorName == name then 1 else 0
  }

  function Reportable(payments: seq<Payment>, k: GroupKey): int {
    Sum(payments, CountedAmount(k))
  }

  function Withheld(payments: seq<Payment>, k: GroupKey): int {
    Sum(payments, WithheldAmount(k))
  }

  function NameCount(payments: seq<Payment>, k: GroupKey, name: string): int {
    Sum(payments, HasName(k, name))
  }

  /** A payment adds to the totals of its client and vendor: all it withheld, and its amount unless it is excluded. */
  lemma TotalsGrow(payments: seq<Payment>, p: Payment, client: string, vendor: string)
    ensures var k, longer := GroupKey(client, vendor), payments + [p];
            var mine := p.client == client && p.vendor == vendor;
            && Reportable(longer, k) == Reportable(payments, k) +
                 (if mine && p.paidBy != CreditCard && p.paidBy != PayPal then p.amount as int else 0)
            && Withheld(longer, k) == Withheld(payments, k) + (if mine then p.withheld as int else 0)
            && forall name :: NameCount(longer, k, name) == NameCount(payments, k, name) +
                 (if mine && p.vendorName == name then 1 else 0)
    ensures var k := GroupKey(client, vendor);
            Reportable([], k) == 0 && Withheld([], k) == 0 && forall name :: NameCount([], k, name) == 0
  {
    assert (payments + [p])[..|payments|] == payments;
  }

  predicate Present(payments: seq<Payment>, k: GroupKey) {
    exists i :: 0 <= i < |payments| && GroupOf(payments[i]) == k
  }

  /** The `HAVING` rule: a counted net of at least 600 dollars, or any withholding. */
  predicate RequiresFiling(payments: seq<Payment>, k: GroupKey) {
    Present(payments, k) && (Reportable(payments, k) >= 60000 || Withheld(payments, k) > 0)
  }

  function RequiredGroups(payments: seq<Payment>): set<GroupKey> {
    set i | 0 <= i < |payments| && RequiresFiling(payments, GroupOf(payments[i])) :: GroupOf(payments[i])
  }

  /** The order of vendor names under the database's collation. */
  type Collation = (string, string) -> bool

  ghost predicate TotalOrder(le: Collation) {
    && (forall a, b :: le(a, b) || le(b, a))
    && (forall a, b :: le(a, b) && le(b, a) ==> a == b)
    && (forall a, b, c :: le(a, b) && le(b, c) ==> le(a, c))
  }

  /** `row_number() OVER (... ORDER BY count(*) DESC, vendor_name) = 1` */
  ghost predicate FirstName(payments: seq<Payment>, k: GroupKey, le: Collation, name: string) {
    && NameCount(payments, k, name) > 0
    && forall other :: NameCount(payments, k, other) > 0 ==>
         || NameCount(payments, k, name) > NameCount(payments, k, other)
         || (NameCount(payments, k, name) == NameCount(payments, k, other) && le(name, other))
  }

  predicate Better(payments: seq<Payment>, k: GroupKey, le: Collation, a: string, b: string) {
    || NameCount(payments, k, a) > NameCount(payments, k, b)
    || (NameCount(payments, k, a) == NameCount(payments, k, b) && le(a, b))
  }

  /** The best of the names in a prefix of the rows that belong to the group. */
  function BestName(payments: seq<Payment>, k: GroupKey, le: Collation, n: nat): Option<string>
    requires n <= |payments|
  {
    if n == 0 then None
    else
      var best := BestName(payments, k, le, n - 1);
      var p := payments[n - 1];
      if GroupOf(p) != k then best
      else if best.Some? && Better(payments, k, le, best.value, p.vendorName) then best
      else Some(p.vendorName)
  }

  lemma {:induction false} NameCountPositive(payments: seq<Payment>, k: GroupKey, name: string)
    ensures NameCount(payments, k, name) >= 0
    ensures NameCount(payments, k, name) > 0 <==>
              exists i :: 0 <= i < |payments| && GroupOf(payments[i]) == k && payments[i].vendorName == name
  {
    if payments != [] {
      var n := |payments| - 1;
      NameCountPositive(payments[..n], k, name);
      if i :| 0 <= i < n && GroupOf(payments[..n][i]) == k && payments[..n][i].vendorName == name {
        assert GroupOf(payments[i]) == k && payments[i].vendorName == name;
      }
      if i :| 0 <= i < |payments| && GroupOf(payments[i]) == k && payments[i].vendorName == name {
        assert i < n ==> GroupOf(payments[..n][i]) == k && payments[..n][i].vendorName == name;
      }
    }
  }

  lemma {:induction false} BestNameIsBest(payments: seq<Payment>, k: GroupKey, le: Collation, n: nat)
    requires TotalOrder(le) && n <= |payments|
    ensures var best := BestName(payments, k, le, n);
            && (best.None? <==> forall i :: 0 <= i < n ==> GroupOf(payments[i]) != k)
            && (best.Some? ==>
                  && (exists i :: 0 <= i < n && GroupOf(payments[i]) == k && payments[i].vendorName == best.value)
                  && forall i :: 0 <= i < n && GroupOf(payments[i]) == k ==>
                       Better(payments, k, le, best.value, payments[i].vendorName))
  {
    if n > 0 {
      BestNameIsBest(payments, k, le, n - 1);
    }
  }

  function DisplayName(payments: seq<Payment>, k: GroupKey, le: Collation): string
    requires Present(payments, k)
  {
    var best := BestName(payments, k, le, |payments|);
    if best.Some? then best.value else ""
  }

  /** The display name is the group's most frequent name, and the least of those that tie. */
  lemma DisplayNameIsFirst(payments: seq<Payment>, k: GroupKey, le: Collation)
    requires TotalOrder(le) && Present(payments, k)
    ensures FirstName(payments, k, le, DisplayName(payments, k, le))
  {
    BestNameIsBest(payments, k, le, |payments|);
    var name := DisplayName(payments, k, le);
    NameCountPositive(payments, k, name);
    forall other | NameCount(payments, k, other) > 0
      ensures Better(payments, k, le, name, other)
    {
      NameCountPositive(payments, k, other);
    }
  }

  lemma FirstNameUnique(payments: seq<Payment>, k: GroupKey, le: Collation, a: string, b: string)
    requires TotalOrder(le) && FirstName(payments, k, le, a) && FirstName(payments, k, le, b)
    ensures a == b
  {
  }

  // Filings

  datatype Candidate = Candidate(name: string, reportable: int, withheld: int)

  datatype DeterminationError = TotalOutOfRange

  function CandidateOf(payments: seq<Payment>, k: GroupKey, le: Collation): Candidate
    requires Present(payments, k)
  {
    Candidate(DisplayName(payments, k, le), Reportable(payments, k), Withheld(payments, k))
  }

  lemma RequiredArePresent(payments: seq<Payment>)
    ensures forall k :: k in RequiredGroups(payments) ==> Present(payments, k)
    ensures forall k :: k in RequiredGroups(payments) <==> RequiresFiling(payments, k)
  {
    forall k | RequiresFiling(payments, k)
      ensures k in RequiredGroups(payments)
    {
      var i :| 0 <= i < |payments| && GroupOf(payments[i]) == k;
      assert RequiresFiling(payments, GroupOf(payments[i]));
    }
  }

  /** The cast of the sums to bigint succeeds for every required group. */
  predicate InRange(payments: seq<Payment>) {
    forall k :: k in RequiredGroups(payments) ==> InInt64(Reportable(payments, k)) && InInt64(Withheld(payments, k))
  }

  function CandidateMap(payments: seq<Payment>, le: Collation): map<GroupKey, Candidate> {
    map k | k in RequiredGroups(payments) && Present(payments, k) :: CandidateOf(payments, k, le)
  }

  /**
   The candidates of the determination query: one for each required group, or an error when a total
   is out of range.
   */
  function Candidates(payments: seq<Payment>, le: Collation): Result<map<GroupKey, Candidate>, DeterminationError> {
    if InRange(payments) then Ok(CandidateMap(payments, le)) else Err(TotalOutOfRange)
  }

  lemma SamePresence(a: seq<Payment>, b: seq<Payment>, k: GroupKey)
    requires multiset(a) == multiset(b) && Present(a, k)
    ensures Present(b, k)
  {
    var i :| 0 <= i < |a| && GroupOf(a[i]) == k;
    assert a[i] in multiset(b);
    var j :| 0 <= j < |b| && b[j] == a[i];
    assert GroupOf(b[j]) == k;
  }

  lemma SameTotals(a: seq<Payment>, b: seq<Payment>, k: GroupKey)
    requires multiset(a) == multiset(b)
    ensures Present(a, k) == Present(b, k)
    ensures Reportable(a, k) == Reportable(b, k) && Withheld(a, k) == Withheld(b, k)
    ensures forall name :: NameCount(a, k, name) == NameCount(b, k, name)
  {
    if Present(a, k) {
      SamePresence(a, b, k);
    }
    if Present(b, k) {
      SamePresence(b, a, k);
    }
    SumPermuted(a, b, CountedAmount(k));
    SumPermuted(a, b, WithheldAmount(k));
    forall name
      ensures NameCount(a, k, name) == NameCount(b, k, name)
    {
      SumPermuted(a, b, HasName(k, name));
    }
  }

  lemma SameCandidate(a: seq<Payment>, b: seq<Payment>, k: GroupKey, le: Collation)
    requires TotalOrder(le) && multiset(a) == multiset(b) && Present(a, k)
    ensures Present(b, k) && CandidateOf(a, k, le) == CandidateOf(b, k, le)
  {
    SameTotals(a, b, k);
    DisplayNameIsFirst(a, k, le);
    DisplayNameIsFirst(b, k, le);
    FirstNameUnique(a, k, le, DisplayName(a, k, le), DisplayName(b, k, le));
  }

  lemma SameGroups(a: seq<Payment>, b: seq<Payment>)
    requires multiset(a) == multiset(b)
    ensures RequiredGroups(a) == RequiredGroups(b)
  {
    RequiredArePresent(a);
    RequiredArePresent(b);
    forall k
      ensures RequiresFiling(a, k) == RequiresFiling(b, k)
    {
      SameTotals(a, b, k);
    }
  }

  lemma SameRange(a: seq<Payment>, b: seq<Payment>)
    requires multiset(a) == multiset(b) && InRange(a)
    ensures InRange(b)
  {
    SameGroups(a, b);
    forall k | k in RequiredGroups(b)
      ensures InInt64(Reportable(b, k)) && InInt64(Withheld(b, k))
    {
      SameTotals(a, b, k);
    }
  }

  lemma MapKeys(payments: seq<Payment>, le: Collation)
    ensures CandidateMap(payments, le).Keys == RequiredGroups(payments)
  {
    RequiredArePresent(payments);
  }

  lemma SameMap(a: seq<Payment>, b: seq<Payment>, le: Collation)
    requires TotalOrder(le) && multiset(a) == multiset(b)
    ensures CandidateMap(a, le) == CandidateMap(b, le)
  {
    SameGroups(a, b);
    MapKeys(a, le);
    MapKeys(b, le);
    var x, y := CandidateMap(a, le), CandidateMap(b, le);
    assert x.Keys == y.Keys;
    forall k | k in x.Keys
      ensures x[k] == y[k]
    {
      SameCandidate(a, b, k, le);
    }
  }

  /** The determination does not depend on the order of the payments, error included. */
  lemma OrderIndependent(a: seq<Payment>, b: seq<Payment>, le: Collation)
    requires TotalOrder(le) && multiset(a) == multiset(b)
    ensures Candidates(a, le) == Candidates(b, le)
  {
    if InRange(a) {
      SameRange(a, b);
    }
    if InRange(b) {
      SameRange(b, a);
    }
    SameMap(a, b, le);
  }

  /**
   Exactly the groups with a counted net of at least 60000 cents or a positive withholding get a
   filing, each one, with its totals and its first name; a total out of range fails them all.
   */
  lemma OneFilingPerRequiredGroup(payments: seq<Payment>, le: Collation, k: GroupKey)
    requires TotalOrder(le) && Candidates(payments, le).Ok?
    ensures k in Candidates(payments, le).value <==>
              && Present(payments, k)
              && (Reportable(payments, k) >= 60000 || Withheld(payments, k) > 0)
    ensures k in Candidates(payments, le).value ==>
              var candidate := Candidates(payments, le).value[k];
              && candidate.reportable == Reportable(payments, k) && InInt64(candidate.reportable)
              && candidate.withheld == Withheld(payments, k) && InInt64(candidate.withheld)
              && FirstName(payments, k, le, candidate.name)
  {
    RequiredArePresent(payments);
    if k in Candidates(payments, le).value {
      DisplayNameIsFirst(payments, k, le);
    }
  }

  // The explanation of one vendor's payments

  datatype Explained = Explained(payment: Payment, counted: bool, exclusion: string)

  datatype Explanation = Explanation(reportable: Int64, withheld: Int64, payments: seq<Explained>)

  function Explain(p: Payment): Explained {
    Explained(p, Counted(p.paidBy), ExclusionReason(p.paidBy))
  }

  function ExplainAll(rows: seq<Payment>): (explained: seq<Explained>)
    ensures |explained| == |rows|
  {
    seq(|rows|, i requires 0 <= i < |rows| => Explain(rows[i]))
  }

  /** The rows of the explanation query: those of one group, in some order. */
  predicate GroupRows(rows: seq<Payment>, k: GroupKey) {
    forall i :: 0 <= i < |rows| ==> GroupOf(rows[i]) == k
  }

  lemma ExplainNext(rows: seq<Payment>, k: GroupKey, i: nat)
    requires GroupRows(rows, k) && i < |rows|
    ensures Reportable(rows[..i + 1], k)
         == Reportable(rows[..i], k) + if Counted(rows[i].paidBy) then rows[i].amount as int else 0
    ensures Withheld(rows[..i + 1], k) == Withheld(rows[..i], k) + rows[i].withheld as int
    ensures ExplainAll(rows[..i + 1]) == ExplainAll(rows[..i]) + [Explain(rows[i])]
  {
    assert rows[..i + 1][..i] == rows[..i];
  }

  /** The loop of `PaymentExplanation`; its int64 totals may wrap. */
  method PaymentExplanation(rows: seq<Payment>, k: GroupKey) returns (r: Result<Explanation, StoreError>)
    requires GroupRows(rows, k)
    ensures r.Err? <==> rows == []
    ensures r.Err? ==> r.error == NotFound
    ensures r.Ok? ==>
              && r.value.reportable as int == Wrap64(Reportable(rows, k))
              && r.value.withheld as int == Wrap64(Withheld(rows, k))
              && r.value.payments == ExplainAll(rows)
  {
    var reportable: Int64, withheld: Int64 := 0, 0;
    var explained: seq<Explained> := [];
    for i := 0 to |rows|
      invariant reportable as int == Wrap64(Reportable(rows[..i], k))
      invariant withheld as int == Wrap64(Withheld(rows[..i], k))
      invariant explained == ExplainAll(rows[..i])
    {
      ExplainNext(rows, k, i);
      WrapPartialSum(Reportable(rows[..i], k), rows[i].amount as int);
      WrapPartialSum(Withheld(rows[..i], k), rows[i].withheld as int);
      if Counted(rows[i].paidBy) {
        reportable := AddInt64(reportable, rows[i].amount);
      }
      withheld := AddInt64(withheld, rows[i].withheld);
      explained := explained + [Explained(rows[i], Counted(rows[i].paidBy), ExclusionReason(rows[i].paidBy))];
    }
    assert rows[..|rows|] == rows;
    if |explained| == 0 {
      return Err(NotFound);
    }
    return Ok(Explanation(reportable, withheld, explained));
  }

  function RowsOf(payments: seq<Payment>, k: GroupKey): (rows: seq<Payment>)
    ensures GroupRows(rows, k)
  {
    if payments == [] then []
    else
      var n := |payments| - 1;
      RowsOf(payments[..n], k) + if GroupOf(payments[n]) == k then [payments[n]] else []
  }

  lemma {:induction false} GroupSums(payments: seq<Payment>, k: GroupKey)
    ensures Reportable(RowsOf(payments, k), k) == Reportable(payments, k)
    ensures Withheld(RowsOf(payments, k), k) == Withheld(payments, k)
  {
    if payments != [] {
      var n := |payments| - 1;
      GroupSums(payments[..n], k);
      if GroupOf(payments[n]) == k {
        SumConcat(RowsOf(payments[..n], k), [payments[n]], CountedAmount(k));
        SumConcat(RowsOf(payments[..n], k), [payments[n]], WithheldAmount(k));
      } else {
        assert RowsOf(payments, k) == RowsOf(payments[..n], k);
      }
    }
  }

  /**
   The explanation of a vendor, however its rows are ordered, shows the group's totals exactly when
   these fit an int64; so it always agrees with a filing.
   */
  lemma ExplanationAgrees(payments: seq<Payment>, k: GroupKey, rows: seq<Payment>)
    requires multiset(rows) == multiset(RowsOf(payments, k))
    ensures Wrap64(Reportable(rows, k)) == Reportable(payments, k) <==> InInt64(Reportable(payments, k))
    ensures Wrap64(Withheld(rows, k)) == Withheld(payments, k) <==> InInt64(Withheld(payments, k))
    ensures InRange(payments) && k in RequiredGroups(payments) ==>
              && Wrap64(Reportable(rows, k)) == Reportable(payments, k)
              && Wrap64(Withheld(rows, k)) == Withheld(payments, k)
  {
    SumPermuted(rows, RowsOf(payments, k), CountedAmount(k));
    SumPermuted(rows, RowsOf(payments, k), WithheldAmount(k));
    GroupSums(payments, k);
  }

  lemma OnePayment(p: Payment)
    ensures Reportable([p], GroupOf(p)) == if Counted(p.paidBy) then p.amount as int else 0
    ensures Withheld([p], GroupOf(p)) == p.withheld as int
    ensures RowsOf([p], GroupOf(p)) == [p]
  {
    var k := GroupOf(p);
    assert [p][..0] == [] && [p][0] == p;
    assert Sum([p], CountedAmount(k)) == CountedAmount(k)(p);
    assert Sum([p], WithheldAmount(k)) == WithheldAmount(k)(p);
  }

  /**
   An explanation that wraps: two wires of -(2^63 - 1) cents to one vendor. The determination
   succeeds, requires nothing of the vendor, and the explanation shows a total of two cents.
   */
  lemma WrappedExplanation(le: Collation)
    ensures var wire := Payment(1, "client", "Vendor", "missing-tin:vendor", -0x7fff_ffff_ffff_ffff, Wire, 0);
            var payments, k := [wire, wire.(sourceRow := 2)], GroupOf(wire);
            && Candidates(payments, le).Ok? && k !in Candidates(payments, le).value
            && RowsOf(payments, k) == payments
            && Reportable(payments, k) == -0xffff_ffff_ffff_fffe && Wrap64(Reportable(payments, k)) == 2
  {
    var wire := Payment(1, "client", "Vendor", "missing-tin:vendor", -0x7fff_ffff_ffff_ffff, Wire, 0);
    var payments, k := [wire, wire.(sourceRow := 2)], GroupOf(wire);
    assert payments[..1] == [wire] && [wire][..0] == [];
    OnePayment(wire);
    assert Reportable(payments, k) == -0xffff_ffff_ffff_fffe && Withheld(payments, k) == 0;
    assert RequiredGroups(payments) == {};
  }

  /** A payment counts exactly when the explanation gives no reason to exclude it: no card, and no payment network. */
  lemma CountedOrExcluded(p: Payment)
    ensures Explain(p).payment == p
    ensures Explain(p).counted <==> Explain(p).exclusion == ""
    ensures Explain(p).counted <==> p.paidBy != CreditCard && p.paidBy != PayPal
    ensures Explain(p).exclusion == "PAYMENT_PROCESSOR_REPORTED" <==> p.paidBy == CreditCard
    ensures Explain(p).exclusion == "THIRD_PARTY_NETWORK_REPORTED" <==> p.paidBy == PayPal
  {
    assert "PAYMENT_PROCESSOR_REPORTED"[0] != "THIRD_PARTY_NETWORK_REPORTED"[0];
  }

  // Vendor identities, as the import derives them

  function TrimLeft(s: string): string {
    if s != "" && s[0] == ' ' then TrimLeft(s[1..]) else s
  }

  function TrimRight(s: string): string {
    if s != "" && s[|s| - 1] == ' ' then TrimRight(s[..|s| - 1]) else s
  }

  /** `btrim` */
  function Btrim(s: string): string {
    TrimRight(TrimLeft(s))
  }

  /** `regexp_replace(s, '[ -]', '', 'g')` */
  function Compact(s: string): string {
    if s == "" then "" else (if s[0] == ' ' || s[0] == '-' then "" else [s[0]]) + Compact(s[1..])
  }

  predicate IsSpace(c: char) {
    c == ' ' || '\t' <= c <= '\r'
  }

  /** Runs of white space become one space, and the letters A to Z become small. */
  function FoldName(s: string): string {
    if s == "" then ""
    else if IsSpace(s[0]) then (if |s| > 1 && IsSpace(s[1]) then "" else " ") + FoldName(s[1..])
    else [FoldChar(s[0])] + FoldName(s[1..])
  }

  function FoldChar(c: char): char {
    if 'A' <= c <= 'Z' then (c as int + 32) as char else c
  }

  lemma FoldLetter(c: char, rest: string)
    requires !IsSpace(c)
    ensures FoldName([c] + rest) == [FoldChar(c)] + FoldName(rest)
    ensures !IsSpace(FoldChar(c)) && FoldChar(FoldChar(c)) == FoldChar(c) && !('A' <= FoldChar(c) <= 'Z')
  {
    assert ([c] + rest)[1..] == rest;
  }

  lemma FoldSpace(c: char, rest: string)
    requires IsSpace(c) && (rest == "" || !IsSpace(rest[0]))
    ensures FoldName([c] + rest) == " " + FoldName(rest)
  {
    assert ([c] + rest)[1..] == rest;
  }

  lemma FoldRun(s: string)
    requires |s| > 1 && IsSpace(s[0]) && IsSpace(s[1])
    ensures FoldName(s) == FoldName(s[1..])
  {
    assert "" + FoldName(s[1..]) == FoldName(s[1..]);
  }

  predicate Canonical(s: string) {
    && (forall i :: 0 <= i < |s| ==> !('A' <= s[i] <= 'Z') && (IsSpace(s[i]) ==> s[i] == ' '))
    && (forall i :: 0 < i < |s| && IsSpace(s[i]) ==> !IsSpace(s[i - 1]))
  }

  lemma CanonicalCons(c: char, rest: string)
    requires Canonical(rest) && !('A' <= c <= 'Z')
    requires IsSpace(c) ==> c == ' ' && (rest == "" || !IsSpace(rest[0]))
    ensures Canonical([c] + rest)
  {
    assert forall i :: 0 < i <= |rest| ==> ([c] + rest)[i] == rest[i - 1];
  }

  lemma FoldHead(s: string)
    requires s != "" && !IsSpace(s[0])
    ensures FoldName(s) != "" && !IsSpace(FoldName(s)[0])
  {
  }

  /** A folded name has no capital letter and no white space but single spaces. */
  lemma {:induction false} FoldedNameIsCanonical(s: string)
    ensures Canonical(FoldName(s))
  {
    if s != "" {
      var rest := FoldName(s[1..]);
      FoldedNameIsCanonical(s[1..]);
      assert s == [s[0]] + s[1..];
      if !IsSpace(s[0]) {
        FoldLetter(s[0], s[1..]);
        CanonicalCons(FoldChar(s[0]), rest);
      } else if |s| == 1 || !IsSpace(s[1]) {
        FoldSpace(s[0], s[1..]);
        if |s| > 1 {
          FoldHead(s[1..]);
        }
        CanonicalCons(' ', rest);
      } else {
        FoldRun(s);
      }
    }
  }

  /** Folding a folded name again changes nothing. */
  lemma {:induction false} FoldingIsIdempotent(s: string)
    ensures FoldName(FoldName(s)) == FoldName(s)
  {
    if s != "" {
      var rest := FoldName(s[1..]);
      FoldingIsIdempotent(s[1..]);
      assert s == [s[0]] + s[1..];
      if !IsSpace(s[0]) {
        FoldLetter(s[0], s[1..]);
        FoldLetter(FoldChar(s[0]), rest);
      } else if |s| == 1 || !IsSpace(s[1]) {
        FoldSpace(s[0], s[1..]);
        if |s| > 1 {
          FoldHead(s[1..]);
        }
        FoldSpace(' ', rest);
      } else {
        FoldRun(s);
      }
    }
  }

  /** Spaces, and the characters from tab to carriage return. */
  predicate AllWhite(s: string) {
    forall i :: 0 <= i < |s| ==> s[i] == ' ' || 9 <= s[i] as int <= 13
  }

  lemma SpacesExactly(c: char)
    ensures IsSpace(c) <==> c == ' ' || 9 <= c as int <= 13
  {
    assert '\t' as int == 9 && '\r' as int == 13;
  }

  /** A word keeps its length, and its letters become small one by one. */
  lemma {:induction false} FoldWord(s: string)
    requires forall i :: 0 <= i < |s| ==> s[i] != ' ' && !(9 <= s[i] as int <= 13)
    ensures |FoldName(s)| == |s|
    ensures forall i :: 0 <= i < |s| ==>
              FoldName(s)[i] as int == s[i] as int + if 'A' <= s[i] <= 'Z' then 'a' as int - 'A' as int else 0
  {
    if s != "" {
      SpacesExactly(s[0]);
      FoldWord(s[1..]);
    }
  }

  /** What the first character of a text leaves of itself. */
  function Folded(c: char, next: string): (r: string)
    ensures IsSpace(c) ==> r == if next != "" && IsSpace(next[0]) then "" else " "
    ensures !IsSpace(c) ==> r == [FoldChar(c)]
  {
    if !IsSpace(c) then [FoldChar(c)] else if next != "" && IsSpace(next[0]) then "" else " "
  }

  lemma FoldFirst(s: string)
    requires s != ""
    ensures FoldName(s) == Folded(s[0], s[1..]) + FoldName(s[1..])
  {
  }

  lemma SplitFirst(a: string, b: string)
    requires a != ""
    ensures (a + b)[0] == a[0] && (a + b)[1..] == a[1..] + b
  {
  }

  lemma Associative(a: string, b: string, c: string)
    ensures a + (b + c) == (a + b) + c
  {
  }

  lemma FoldNothing()
    ensures FoldName("") == ""
  {
  }

  /** Folding two texts together is folding each, unless white space meets white space. */
  lemma {:induction false} FoldConcat(a: string, b: string)
    requires a == "" || b == "" || !IsSpace(a[|a| - 1]) || !IsSpace(b[0])
    ensures FoldName(a + b) == FoldName(a) + FoldName(b)
  {
    hide FoldName, FoldChar, IsSpace;
    if a == "" {
      assert a + b == b;
      FoldNothing();
    } else {
      SplitFirst(a, b);
      FoldConcat(a[1..], b);
      FoldFirst(a);
      FoldFirst(a + b);
      if a[1..] != "" {
        SplitFirst(a[1..], b);
      }
      assert Folded(a[0], a[1..] + b) == Folded(a[0], a[1..]);
      Associative(Folded(a[0], a[1..]), FoldName(a[1..]), FoldName(b));
    }
  }

  lemma {:induction false} FoldWhite(s: string)
    requires s != "" && AllWhite(s)
    ensures FoldName(s) == " "
  {
    SpacesExactly(s[0]);
    if |s| > 1 {
      SpacesExactly(s[1]);
      FoldWhite(s[1..]);
      FoldRun(s);
    } else {
      assert s == [s[0]] + "";
      FoldSpace(s[0], "");
    }
  }

  /** A run of white space between what is none becomes one space; so a folded name is its words, one space apart. */
  lemma FoldWords(a: string, run: string, b: string)
    requires run != "" && AllWhite(run)
    requires (a == "" || !AllWhite(a[|a| - 1..])) && (b == "" || !AllWhite(b[..1]))
    ensures FoldName(a + run + b) == FoldName(a) + " " + FoldName(b)
  {
    if a != "" {
      SpacesExactly(a[|a| - 1]);
      assert a[|a| - 1..][0] == a[|a| - 1];
    }
    if b != "" {
      SpacesExactly(b[0]);
      assert b[..1][0] == b[0];
    }
    FoldConcat(a, run);
    FoldConcat(a + run, b);
    FoldWhite(run);
  }

  lemma {:induction false} TrimLeftMeaning(s: string)
    ensures TrimLeft(s) == "" || TrimLeft(s)[0] != ' '
    ensures |TrimLeft(s)| <= |s| && TrimLeft(s) == s[|s| - |TrimLeft(s)|..]
    ensures forall i :: 0 <= i < |s| - |TrimLeft(s)| ==> s[i] == ' '
  {
    if s != "" && s[0] == ' ' {
      TrimLeftMeaning(s[1..]);
    }
  }

  lemma {:induction false} TrimRightMeaning(s: string)
    ensures TrimRight(s) == "" || TrimRight(s)[|TrimRight(s)| - 1] != ' '
    ensures |TrimRight(s)| <= |s| && TrimRight(s) == s[..|TrimRight(s)|]
    ensures forall i :: |TrimRight(s)| <= i < |s| ==> s[i] == ' '
  {
    if s != "" && s[|s| - 1] == ' ' {
      TrimRightMeaning(s[..|s| - 1]);
    }
  }

  /** Trimming takes spaces off both ends and nothing else, so it leaves nothing exactly of a string of spaces. */
  lemma BtrimMeaning(s: string)
    ensures exists i, j :: 0 <= i <= j <= |s| && Btrim(s) == s[i..j]
              && (forall k :: 0 <= k < i || j <= k < |s| ==> s[k] == ' ')
    ensures Btrim(s) != "" ==> Btrim(s)[0] != ' ' && Btrim(s)[|Btrim(s)| - 1] != ' '
  {
    TrimLeftMeaning(s);
    TrimRightMeaning(TrimLeft(s));
    var i := |s| - |TrimLeft(s)|;
    var j := i + |Btrim(s)|;
    assert Btrim(s) == s[i..j];
    forall k | j <= k < |s|
      ensures s[k] == ' '
    {
      assert TrimLeft(s)[k - i] == s[k];
    }
  }

  lemma {:induction false} CompactConcat(a: string, b: string)
    ensures Compact(a + b) == Compact(a) + Compact(b)
  {
    if a == "" {
      assert a + b == b;
    } else {
      assert (a + b)[1..] == a[1..] + b;
      CompactConcat(a[1..], b);
    }
  }

  /** Compacting a written TIN drops its spaces and hyphens, wherever they stand. */
  lemma SeparatorsIgnored(a: string, separator: char, b: string)
    requires separator == ' ' || separator == '-'
    ensures Compact(a + [separator] + b) == Compact(a + b)
  {
    CompactConcat(a + [separator], b);
    CompactConcat(a, [separator]);
    CompactConcat(a, b);
  }

  /** What has neither spaces nor hyphens is left as it is. */
  lemma {:induction false} CompactKeepsDigits(s: string)
    requires forall i :: 0 <= i < |s| ==> s[i] != ' ' && s[i] != '-'
    ensures Compact(s) == s
  {
    if s != "" {
      CompactKeepsDigits(s[1..]);
      assert s == [s[0]] + s[1..];
    }
  }

  function VendorIdentity(tin: string, name: string): string {
    if Btrim(tin) == "" then "missing-tin:" + FoldName(Btrim(name))
    else if NineDigits(Compact(tin)) then "tin:" + Compact(tin)
    else "malformed-tin:" + Btrim(tin)
  }

  predicate HasPrefix(s: string, prefix: string) {
    |prefix| <= |s| && s[..|prefix|] == prefix
  }

  /** The CASE expressions of the determination query. */
  function RecipientTin(vendor: string): Option<string> {
    if HasPrefix(vendor, "tin:") then Some(vendor[4..]) else None
  }

  function Preflight(vendor: string, tin: Option<string>, reportable: int): Option<Reason> {
    if HasPrefix(vendor, "missing-tin:") then Some(TinMissing)
    else if HasPrefix(vendor, "malformed-tin:") then Some(TinMalformed)
    else if tin.Some? && StartsWith000(tin.value) then Some(TinInvalid)
    else if reportable <= 0 then Some(AmountInvalid)
    else None
  }

  function PreflightState(reason: Option<Reason>): FilingState {
    if reason.Some? then Blocked(reason.value) else Ready
  }

  /** The inserted row. */
  function RowFor(sha: Identity.Hash, firm: string, determination: int, k: GroupKey, candidate: Candidate): FilingRow
    requires Identity.ByteString(Identity.FilingKey(sha, firm, k.client, 2025, k.vendor))
  {
    var tin := RecipientTin(k.vendor);
    FilingRow(firm, k.client, determination, 2025, k.vendor, candidate.name, tin,
              Identity.Hex(Identity.FilingKey(sha, firm, k.client, 2025, k.vendor)),
              candidate.reportable, candidate.withheld,
              PreflightState(Preflight(k.vendor, tin, candidate.reportable)))
  }

  /** The identity the import derives says which of the three kinds of TIN the row had. */
  lemma VendorKinds(tin: string, name: string)
    ensures HasPrefix(VendorIdentity(tin, name), "missing-tin:") <==> Btrim(tin) == ""
    ensures HasPrefix(VendorIdentity(tin, name), "tin:") <==> Btrim(tin) != "" && NineDigits(Compact(tin))
    ensures HasPrefix(VendorIdentity(tin, name), "malformed-tin:") <==> Btrim(tin) != "" && !NineDigits(Compact(tin))
    ensures RecipientTin(VendorIdentity(tin, name)) ==
              if Btrim(tin) != "" && NineDigits(Compact(tin)) then Some(Compact(tin)) else None
  {
    var vendor := VendorIdentity(tin, name);
    assert "missing-tin:"[0] != "tin:"[0] && "missing-tin:"[1] != "malformed-tin:"[1]
        && "malformed-tin:"[0] != "tin:"[0];
    if Btrim(tin) == "" {
      assert vendor[0] == 'm' && vendor[1] == 'i' && vendor[..12] == "missing-tin:";
    } else if NineDigits(Compact(tin)) {
      assert vendor[0] == 't' && vendor[..4] == "tin:" && vendor[4..] == Compact(tin);
    } else {
      assert vendor[0] == 'm' && vendor[1] == 'a' && vendor[..14] == "malformed-tin:";
    }
  }

  /**
   Which rows of an import share a vendor: those of one valid TIN however it is written, those of
   one malformed TIN as it is written, and those without a TIN whose folded names are the same.
   */
  lemma SameVendorExactly(tin: string, name: string, tin': string, name': string)
    ensures VendorIdentity(tin, name) == VendorIdentity(tin', name') <==>
              if Btrim(tin) == "" then Btrim(tin') == "" && FoldName(Btrim(name)) == FoldName(Btrim(name'))
              else if NineDigits(Compact(tin)) then
                Btrim(tin') != "" && NineDigits(Compact(tin')) && Compact(tin) == Compact(tin')
              else Btrim(tin') != "" && !NineDigits(Compact(tin')) && Btrim(tin) == Btrim(tin')
  {
    hide Btrim, Compact, FoldName, NineDigits;
    VendorKinds(tin, name);
    VendorKinds(tin', name');
    var prefix := if Btrim(tin) == "" then "missing-tin:"
                  else if NineDigits(Compact(tin)) then "tin:"
                  else "malformed-tin:";
    if HasPrefix(VendorIdentity(tin', name'), prefix) {
      assert VendorIdentity(tin, name)[|prefix|..] ==
             if Btrim(tin) == "" then FoldName(Btrim(name))
             else if NineDigits(Compact(tin)) then Compact(tin) else Btrim(tin);
      assert VendorIdentity(tin', name')[|prefix|..] ==
             if Btrim(tin') == "" then FoldName(Btrim(name'))
             else if NineDigits(Compact(tin')) then Compact(tin') else Btrim(tin');
    }
  }

  /**
   The columns of a determined filing. It is blocked by the first of these that applies: a blank
   TIN, one that is not nine digits, one that starts with three zeros, an amount that is not positive.
   */
  lemma DeterminedColumns(sha: Identity.Hash, firm: string, determination: int, client: string,
                          tin: string, name: string, candidate: Candidate)
    requires Identity.ByteString(Identity.FilingKey(sha, firm, client, 2025, VendorIdentity(tin, name)))
    ensures var vendor, digits := VendorIdentity(tin, name), Compact(tin);
            var row := RowFor(sha, firm, determination, GroupKey(client, vendor), candidate);
            var valid := Btrim(tin) != "" && |digits| == 9 && forall c :: c in digits ==> '0' <= c <= '9';
            && (row.firm, row.client, row.determination, row.taxYear) == (firm, client, determination, 2025)
            && (row.displayName, row.reportable, row.withheld)
               == (candidate.name, candidate.reportable, candidate.withheld)
            && row.vendorIdentity == vendor
            && row.key == Identity.Hex(Identity.FilingKey(sha, firm, client, 2025, vendor))
            && row.tin == (if valid then Some(digits) else None)
            && row.state == if Btrim(tin) == "" then Blocked(TinMissing)
                            else if !valid then Blocked(TinMalformed)
                            else if digits[..3] == "000" then Blocked(TinInvalid)
                            else if candidate.reportable <= 0 then Blocked(AmountInvalid)
                            else Ready
  {
    hide Btrim, Compact, FoldName;
    VendorKinds(tin, name);
    NineDigitsExactly(Compact(tin));
  }

  lemma NineDigitsExactly(s: string)
    ensures NineDigits(s) <==> |s| == 9 && forall c :: c in s ==> '0' <= c <= '9'
  {
    if |s| == 9 && !NineDigits(s) {
      var i :| 0 <= i < 9 && !('0' <= s[i] <= '9');
      assert s[i] in s;
    }
  }

  /** The receiver's verdict on the record that would be built from the row. */
  function ReceiverDefect(row: FilingRow): Option<Reason> {
    Defect(RecordOf(row))
  }

  lemma NotBlank(tin: string)
    requires NineDigits(tin)
    ensures !Blank(tin)
  {
    assert '0' <= tin[0] <= '9';
  }

  /**
   A determined filing is ready exactly when the receiver accepts its record. The reasons agree as
   well, but for a malformed TIN, which the row does not carry: there the receiver would say missing.
   */
  lemma PreflightAgreesWithReceiver(sha: Identity.Hash, firm: string, determination: int, client: string,
                                    tin: string, name: string, candidate: Candidate)
    requires Identity.ByteString(Identity.FilingKey(sha, firm, client, 2025, VendorIdentity(tin, name)))
    ensures var row := RowFor(sha, firm, determination, GroupKey(client, VendorIdentity(tin, name)), candidate);
            && (row.state.Ready? <==> Accepts(RecordOf(row)))
            && (row.state.Blocked? <==> ReceiverDefect(row).Some?)
            && (row.state.Blocked? && !row.state.preflight.TinMalformed? ==>
                  ReceiverDefect(row) == Some(row.state.preflight))
            && (row.state == Blocked(TinMalformed) ==> ReceiverDefect(row) == Some(TinMissing))
  {
    VendorKinds(tin, name);
    var row := RowFor(sha, firm, determination, GroupKey(client, VendorIdentity(tin, name)), candidate);
    if Btrim(tin) != "" && NineDigits(Compact(tin)) {
      NotBlank(Compact(tin));
    }
    assert Blank("");
  }

  /** Every filing that a determination inserts is prepared: what the protocol model takes for granted. */
  lemma DeterminedIsPrepared(sha: Identity.Hash, firm: string, determination: int, payments: seq<Payment>,
                             le: Collation, k: GroupKey, tin: string, name: string)
    requires TotalOrder(le) && Candidates(payments, le).Ok? && k in Candidates(payments, le).value
    requires k.vendor == VendorIdentity(tin, name) && firm != "" && k.client != ""
    requires Identity.IsDigest(Identity.FilingKey(sha, firm, k.client, 2025, k.vendor))
    requires forall i :: 0 <= i < |payments| ==> payments[i].withheld >= 0
    ensures Prepared(RowFor(sha, firm, determination, k, Candidates(payments, le).value[k]))
  {
    OneFilingPerRequiredGroup(payments, le, k);
    PreflightAgreesWithReceiver(sha, firm, determination, k.client, tin, name, Candidates(payments, le).value[k]);
    WithheldNotNegative(payments, k);
  }

  lemma {:induction false} WithheldNotNegative(payments: seq<Payment>, k: GroupKey)
    requires forall i :: 0 <= i < |payments| ==> payments[i].withheld >= 0
    ensures Withheld(payments, k) >= 0
  {
    if payments != [] {
      WithheldNotNegative(payments[..|payments| - 1], k);
    }
  }

  /** Two groups of one determination never get the same filing key. */
  lemma DeterminedKeysDistinct(sha: Identity.Hash, firm: string, k: GroupKey, k': GroupKey)
    requires Identity.AllShort(Identity.FilingParts(firm, k.client, 2025, k.vendor))
    requires Identity.AllShort(Identity.FilingParts(firm, k'.client, 2025, k'.vendor))
    requires var p, p' := Identity.Preimage(Identity.FilingParts(firm, k.client, 2025, k.vendor)),
                          Identity.Preimage(Identity.FilingParts(firm, k'.client, 2025, k'.vendor));
             && Identity.ByteString(sha(p)) && Identity.ByteString(sha(p'))
             && (p != p' ==> sha(p) != sha(p'))
    requires Identity.Hex(Identity.FilingKey(sha, firm, k.client, 2025, k.vendor))
          == Identity.Hex(Identity.FilingKey(sha, firm, k'.client, 2025, k'.vendor))
    ensures k == k'
  {
    Identity.HexInjective(Identity.FilingKey(sha, firm, k.client, 2025, k.vendor),
                          Identity.FilingKey(sha, firm, k'.client, 2025, k'.vendor));
    Identity.FilingPreimageInjective(firm, k.client, 2025, k.vendor, firm, k'.client, 2025, k'.vendor);
  }
}
