/**
 Deterministic identities: the length-prefixed hash input, the filing key, and the batch
 UTID with its RFC 4122 version and variant bits (sections 4.1.3 and 4.1.1).

 A Go string is a sequence of bytes; each `char` here stands for one byte. SHA-256 is a
 parameter `sha`; where distinct identities are claimed, `sha` is assumed to have no
 collision among the finitely many preimages concerned.
 */
module Identity {
  import opened Money

  const TWO_TO_THE_32: nat := 0x1_0000_0000

  type Hash = string -> string

  predicate IsDigest(d: string) {
    |d| == 32 && forall i :: 0 <= i < 32 ==> d[i] as int < 256
  }

  /** `binary.BigEndian.PutUint32` of `uint32(n)`; the conversion drops all but 32 bits. */
  function BigEndian32(n: nat): (s: string)
    ensures |s| == 4
  {
    var m := n % 0x1_0000_0000;
    [(m / 256 / 256 / 256) as char, (m / 256 / 256 % 256) as char, (m / 256 % 256) as char, (m % 256) as char]
  }

  function Read32(s: string): nat
    requires |s| == 4
  {
    ((s[0] as int * 256 + s[1] as int) * 256 + s[2] as int) * 256 + s[3] as int
  }

  lemma ByteDigits(q0: nat, q1: nat, q2: nat, q3: nat)
    requires q1 == q0 / 256 && q2 == q1 / 256 && q3 == q2 / 256
    ensures ((q3 * 256 + q2 % 256) * 256 + q1 % 256) * 256 + q0 % 256 == q0
  {
  }

  lemma BigEndian32Readable(n: nat)
    requires n < TWO_TO_THE_32
    ensures Read32(BigEndian32(n)) == n
    ensures var s := BigEndian32(n);
            && s[0] as int * 0x100_0000 + s[1] as int * 0x1_0000 + s[2] as int * 0x100 + s[3] as int == n
            && forall i :: 0 <= i < 4 ==> s[i] as int < 256
  {
    var q1 := n / 256;
    var q2 := q1 / 256;
    var q3 := q2 / 256;
    ByteDigits(n, q1, q2, q3);
    var s := BigEndian32(n);
    assert n % 0x1_0000_0000 == n;
    assert s[0] as int == q3;
    assert s[1] as int == q2 % 256;
    assert s[2] as int == q1 % 256;
    assert s[3] as int == n % 256;
  }

  lemma BigEndian32Injective(a: nat, b: nat)
    requires a < TWO_TO_THE_32 && b < TWO_TO_THE_32
    requires BigEndian32(a) == BigEndian32(b)
    ensures a == b
  {
    BigEndian32Readable(a);
    BigEndian32Readable(b);
  }

  function Prefixed(value: string): string {
    BigEndian32(|value|) + value
  }

  /** The bytes `hashSequence` feeds to the hash. */
  function Preimage(values: seq<string>): string {
    if values == [] then "" else Prefixed(values[0]) + Preimage(values[1..])
  }

  predicate AllShort(values: seq<string>) {
    forall i :: 0 <= i < |values| ==> |values[i]| < TWO_TO_THE_32
  }

  lemma {:induction false} PreimageSnoc(values: seq<string>, last: string)
    ensures Preimage(values + [last]) == Preimage(values) + Prefixed(last)
  {
    if values == [] {
      assert values + [last] == [last];
      assert Preimage([last]) == Prefixed(last) + Preimage([]);
    } else {
      assert (values + [last])[1..] == values[1..] + [last];
      PreimageSnoc(values[1..], last);
    }
  }

  /** The loop of `hashSequence` writes exactly the preimage into the hash buffer. */
  method HashInput(values: seq<string>) returns (written: string)
    ensures written == Preimage(values)
  {
    written := "";
    for index := 0 to |values|
      invariant written == Preimage(values[..index])
    {
      var length := BigEndian32(|values[index]|);
      PreimageSnoc(values[..index], values[index]);
      assert values[..index + 1] == values[..index] + [values[index]];
      written := written + length;
      written := written + values[index];
    }
    assert values[..|values|] == values;
  }

  /** Lists of strings shorter than 2^32 bytes have distinct preimages. */
  lemma {:induction false} PreimageInjective(xs: seq<string>, ys: seq<string>)
    requires AllShort(xs) && AllShort(ys)
    requires Preimage(xs) == Preimage(ys)
    ensures xs == ys
  {
    if xs == [] || ys == [] {
      assert xs == [] ==> Preimage(xs) == "";
      assert ys == [] ==> Preimage(ys) == "";
    } else {
      var px, py := Preimage(xs), Preimage(ys);
      assert px[..4] == BigEndian32(|xs[0]|);
      assert py[..4] == BigEndian32(|ys[0]|);
      BigEndian32Injective(|xs[0]|, |ys[0]|);
      var n := 4 + |xs[0]|;
      assert px[4..n] == xs[0] && py[4..n] == ys[0];
      assert px[n..] == Preimage(xs[1..]) && py[n..] == Preimage(ys[1..]);
      PreimageInjective(xs[1..], ys[1..]);
      assert xs == [xs[0]] + xs[1..] && ys == [ys[0]] + ys[1..];
    }
  }

  function Zeros(n: nat): string {
    seq(n, i => 0 as char)
  }

  function Empties(n: nat): seq<string> {
    seq(n, i => "")
  }

  lemma {:induction false} PreimageOfEmpties(n: nat)
    ensures Preimage(Empties(n)) == Zeros(4 * n)
  {
    if n > 0 {
      assert Empties(n)[1..] == Empties(n - 1);
      PreimageOfEmpties(n - 1);
      assert Prefixed("") == Zeros(4);
      assert Zeros(4) + Zeros(4 * (n - 1)) == Zeros(4 * n);
    }
  }

  /** The bound is sharp: a string of 2^32 bytes has its length prefix truncated to zero. */
  lemma LongStringsCollide()
    ensures var long := [Zeros(TWO_TO_THE_32)];
            var empties := Empties(TWO_TO_THE_32 / 4 + 1);
            long != empties && Preimage(long) == Preimage(empties)
  {
    var value := Zeros(TWO_TO_THE_32);
    var long := [value];
    assert long[1..] == [];
    assert BigEndian32(|value|) == Zeros(4);
    assert Preimage(long) == Zeros(4) + value + Preimage([]);
    assert Zeros(4) + value == Zeros(TWO_TO_THE_32 + 4);
    PreimageOfEmpties(TWO_TO_THE_32 / 4 + 1);
    assert |long| != |Empties(TWO_TO_THE_32 / 4 + 1)|;
  }

  function FilingParts(firm: string, client: string, taxYear: nat, vendorIdentity: string): seq<string> {
    ["filing-key-v1", firm, client, Decimal(taxYear), "1099-NEC", vendorIdentity, "0"]
  }

  function FilingKey(sha: Hash, firm: string, client: string, taxYear: nat, vendorIdentity: string): string {
    sha(Preimage(FilingParts(firm, client, taxYear, vendorIdentity)))
  }

  /** `int4send(octet_length(...)) || convert_to(...)`, for one text value. */
  function SqlField(value: string): string {
    BigEndian32(|value|) + value
  }

  /** The argument of `sha256(...)` in the determination query, as the query spells it. */
  function SqlKeyPreimage(firm: string, client: string, taxYear: nat, vendorIdentity: string): string {
    SqlField("filing-key-v1") + SqlField(firm) + SqlField(client) + SqlField(Decimal(taxYear)) +
    SqlField("1099-NEC") + SqlField(vendorIdentity) + SqlField("0")
  }

  /** The database and the Go code hash the same bytes for a filing. */
  lemma SqlKeyAgrees(firm: string, client: string, taxYear: nat, vendorIdentity: string)
    ensures SqlKeyPreimage(firm, client, taxYear, vendorIdentity)
         == Preimage(FilingParts(firm, client, taxYear, vendorIdentity))
  {
    var parts := FilingParts(firm, client, taxYear, vendorIdentity);
    PreimageOfSeven(parts[0], parts[1], parts[2], parts[3], parts[4], parts[5], parts[6]);
  }

  lemma PreimageExtends(values: seq<string>, last: string, extended: seq<string>, bytes: string)
    requires Preimage(values) == bytes && extended == values + [last]
    ensures Preimage(extended) == bytes + Prefixed(last)
  {
    PreimageSnoc(values, last);
  }

  lemma PreimageOfFour(a: string, b: string, c: string, d: string)
    ensures Preimage([a, b, c, d]) == Prefixed(a) + Prefixed(b) + Prefixed(c) + Prefixed(d)
  {
    assert [a][1..] == [];
    assert Preimage([a]) == Prefixed(a) + Preimage([]) == Prefixed(a);
    PreimageExtends([a], b, [a, b], Prefixed(a));
    PreimageExtends([a, b], c, [a, b, c], Prefixed(a) + Prefixed(b));
    PreimageExtends([a, b, c], d, [a, b, c, d], Prefixed(a) + Prefixed(b) + Prefixed(c));
  }

  lemma PreimageOfSeven(a: string, b: string, c: string, d: string, e: string, f: string, g: string)
    ensures Preimage([a, b, c, d, e, f, g])
         == Prefixed(a) + Prefixed(b) + Prefixed(c) + Prefixed(d) + Prefixed(e) + Prefixed(f) + Prefixed(g)
  {
    PreimageOfFour(a, b, c, d);
    var bytes := Prefixed(a) + Prefixed(b) + Prefixed(c) + Prefixed(d);
    PreimageExtends([a, b, c, d], e, [a, b, c, d, e], bytes);
    PreimageExtends([a, b, c, d, e], f, [a, b, c, d, e, f], bytes + Prefixed(e));
    PreimageExtends([a, b, c, d, e, f], g, [a, b, c, d, e, f, g], bytes + Prefixed(e) + Prefixed(f));
  }

  lemma DecimalInjective(a: nat, b: nat)
    requires Decimal(a) == Decimal(b)
    ensures a == b
  {
    DecimalDenotes(a);
    DecimalDenotes(b);
  }

  /** Different filings have different preimages, as long as each component is shorter than 2^32 bytes. */
  lemma FilingPreimageInjective(firm: string, client: string, taxYear: nat, vendor: string,
                                firm': string, client': string, taxYear': nat, vendor': string)
    requires AllShort(FilingParts(firm, client, taxYear, vendor))
    requires AllShort(FilingParts(firm', client', taxYear', vendor'))
    requires Preimage(FilingParts(firm, client, taxYear, vendor))
          == Preimage(FilingParts(firm', client', taxYear', vendor'))
    ensures firm == firm' && client == client' && taxYear == taxYear' && vendor == vendor'
  {
    var x := FilingParts(firm, client, taxYear, vendor);
    var y := FilingParts(firm', client', taxYear', vendor');
    PreimageInjective(x, y);
    assert x[1] == y[1] && x[2] == y[2] && x[3] == y[3] && x[5] == y[5];
    DecimalInjective(taxYear, taxYear');
  }

  /** What a filing key hashes, part by part. */
  lemma FilingPartsExactly(firm: string, client: string, taxYear: nat, vendor: string)
    ensures Preimage(FilingParts(firm, client, taxYear, vendor))
         == BigEndian32(13) + "filing-key-v1" + (BigEndian32(|firm|) + firm) + (BigEndian32(|client|) + client)
            + (BigEndian32(|Decimal(taxYear)|) + Decimal(taxYear)) + (BigEndian32(8) + "1099-NEC")
            + (BigEndian32(|vendor|) + vendor) + (BigEndian32(1) + "0")
  {
    PreimageOfSeven("filing-key-v1", firm, client, Decimal(taxYear), "1099-NEC", vendor, "0");
  }

  // Batch identity

  function HexDigit(n: int): char
    requires 0 <= n < 16
  {
    if n < 10 then '0' + n as char else 'a' + (n - 10) as char
  }

  function HexByte(c: char): string
    requires c as int < 256
  {
    [HexDigit(c as int / 16), HexDigit(c as int % 16)]
  }

  predicate ByteString(s: string) {
    forall i :: 0 <= i < |s| ==> s[i] as int < 256
  }

  /** `hex.EncodeToString`. */
  function Hex(s: string): (h: string)
    requires ByteString(s)
    ensures |h| == 2 * |s|
  {
    if s == "" then "" else HexByte(s[0]) + Hex(s[1..])
  }

  lemma HexByteInjective(a: char, b: char)
    requires a as int < 256 && b as int < 256 && HexByte(a) == HexByte(b)
    ensures a == b
  {
    var x, y := HexByte(a), HexByte(b);
    assert x[0] == y[0] && x[1] == y[1];
    assert a as int == (a as int / 16) * 16 + a as int % 16;
    assert b as int == (b as int / 16) * 16 + b as int % 16;
  }

  lemma {:induction false} HexInjective(s: string, t: string)
    requires ByteString(s) && ByteString(t) && Hex(s) == Hex(t)
    ensures s == t
  {
    if s == "" || t == "" {
      assert |Hex(s)| == 2 * |s| && |Hex(t)| == 2 * |t|;
    } else {
      assert Hex(s)[..2] == HexByte(s[0]) && Hex(t)[..2] == HexByte(t[0]);
      assert Hex(s)[2..] == Hex(s[1..]) && Hex(t)[2..] == Hex(t[1..]);
      HexByteInjective(s[0], t[0]);
      HexInjective(s[1..], t[1..]);
      assert s == [s[0]] + s[1..] && t == [t[0]] + t[1..];
    }
  }

  lemma {:induction false} HexAt(s: string, i: nat)
    requires ByteString(s) && i < |s|
    ensures Hex(s)[2 * i] == HexDigit(s[i] as int / 16)
    ensures Hex(s)[2 * i + 1] == HexDigit(s[i] as int % 16)
  {
    if i > 0 {
      HexAt(s[1..], i - 1);
    }
  }

  predicate AllDigests(keys: seq<string>) {
    forall i :: 0 <= i < |keys| ==> IsDigest(keys[i])
  }

  function HexKeys(keys: seq<string>): seq<string>
    requires AllDigests(keys)
  {
    seq(|keys|, i requires 0 <= i < |keys| => Hex(keys[i]))
  }

  function BatchParts(firm: string, client: string, taxYear: nat, keys: seq<string>): seq<string>
    requires AllDigests(keys)
  {
    ["batch-ref-v1", firm, client, Decimal(taxYear)] + HexKeys(keys)
  }

  lemma {:induction false} PreimageConcat(a: seq<string>, b: seq<string>)
    ensures Preimage(a + b) == Preimage(a) + Preimage(b)
  {
    if a == [] {
      assert a + b == b;
    } else {
      assert (a + b)[1..] == a[1..] + b;
      PreimageConcat(a[1..], b);
    }
  }

  /** What a batch reference hashes: four parts and the hexadecimal keys in order. */
  lemma BatchPartsExactly(firm: string, client: string, taxYear: nat, keys: seq<string>)
    requires AllDigests(keys)
    ensures Preimage(BatchParts(firm, client, taxYear, keys))
         == BigEndian32(12) + "batch-ref-v1" + (BigEndian32(|firm|) + firm) + (BigEndian32(|client|) + client)
            + (BigEndian32(|Decimal(taxYear)|) + Decimal(taxYear)) + Preimage(HexKeys(keys))
    ensures |HexKeys(keys)| == |keys| && forall i :: 0 <= i < |keys| ==> HexKeys(keys)[i] == Hex(keys[i])
  {
    PreimageConcat(["batch-ref-v1", firm, client, Decimal(taxYear)], HexKeys(keys));
    PreimageOfFour("batch-ref-v1", firm, client, Decimal(taxYear));
  }

  /** Two hexadecimal digits for each byte, the high one first, in small letters. */
  lemma HexExactly(s: string, i: nat)
    requires ByteString(s) && i < |s|
    ensures |Hex(s)| == 2 * |s|
    ensures Hex(s)[2 * i] == "0123456789abcdef"[s[i] as int / 16]
    ensures Hex(s)[2 * i + 1] == "0123456789abcdef"[s[i] as int % 16]
  {
    HexAt(s, i);
    DigitIsLetter(s[i] as int / 16);
    DigitIsLetter(s[i] as int % 16);
  }

  lemma DigitIsLetter(n: nat)
    requires n < 16
    ensures HexDigit(n) == "0123456789abcdef"[n]
  {
  }

  /** Batches that differ in any component, or in the order of their keys, have different preimages. */
  lemma BatchPreimageInjective(firm: string, client: string, taxYear: nat, keys: seq<string>,
                               firm': string, client': string, taxYear': nat, keys': seq<string>)
    requires AllDigests(keys) && AllDigests(keys')
    requires AllShort(BatchParts(firm, client, taxYear, keys))
    requires AllShort(BatchParts(firm', client', taxYear', keys'))
    requires Preimage(BatchParts(firm, client, taxYear, keys))
          == Preimage(BatchParts(firm', client', taxYear', keys'))
    ensures firm == firm' && client == client' && taxYear == taxYear' && keys == keys'
  {
    var x := BatchParts(firm, client, taxYear, keys);
    var y := BatchParts(firm', client', taxYear', keys');
    PreimageInjective(x, y);
    assert x[1] == y[1] && x[2] == y[2] && x[3] == y[3];
    DecimalInjective(taxYear, taxYear');
    assert |keys| == |x| - 4 == |y| - 4 == |keys'|;
    forall i | 0 <= i < |keys|
      ensures keys[i] == keys'[i]
    {
      assert x[4 + i] == Hex(keys[i]) && y[4 + i] == Hex(keys'[i]);
      HexInjective(keys[i], keys'[i]);
    }
  }

  /** A filing and a batch are never hashed from the same bytes. */
  lemma PreimageKindsDisjoint(firm: string, client: string, taxYear: nat, vendor: string,
                              firm': string, client': string, taxYear': nat, keys: seq<string>)
    requires AllDigests(keys)
    requires AllShort(FilingParts(firm, client, taxYear, vendor))
    requires AllShort(BatchParts(firm', client', taxYear', keys))
    ensures Preimage(FilingParts(firm, client, taxYear, vendor))
         != Preimage(BatchParts(firm', client', taxYear', keys))
  {
    var x := FilingParts(firm, client, taxYear, vendor);
    var y := BatchParts(firm', client', taxYear', keys);
    assert |x[0]| == 13 && |y[0]| == 12;
    if Preimage(x) == Preimage(y) {
      PreimageInjective(x, y);
    }
  }

  /** The digest after the version and variant bits are set; the masks and bit-ors are written as arithmetic. */
  function Patched(digest: string): (d: string)
    requires IsDigest(digest)
    ensures IsDigest(d)
  {
    digest[6 := (digest[6] as int % 16 + 0x40) as char][8 := (digest[8] as int % 64 + 0x80) as char]
  }

  /**
   `uuidBytes` is a slice of the digest array, so setting its bits changes the digest itself,
   and the digest that is returned is the patched one.
   */
  method PatchUuid(digest: array<char>)
    requires IsDigest(digest[..])
    modifies digest
    ensures digest[..] == Patched(old(digest[..]))
  {
    digest[6] := (digest[6] as int % 16 + 0x40) as char;
    digest[8] := (digest[8] as int % 64 + 0x80) as char;
  }

  /** Setting the bits does what the masks of the source say, byte by byte. */
  lemma MasksAsArithmetic(b: bv8)
    ensures ((b & 0x0f) | 0x40) == (b % 16) + 0x40
    ensures ((b & 0x3f) | 0x80) == (b % 64) + 0x80
  {
  }

  /** Patching sets the high four bits of byte 6 to 4 and the high two bits of byte 8 to 2, and nothing else. */
  lemma PatchedExactly(digest: string, i: nat)
    requires IsDigest(digest) && i < 32
    ensures var was, now := digest[i] as int, Patched(digest)[i] as int;
            if i == 6 then now / 16 == 4 && now % 16 == was % 16
            else if i == 8 then now / 64 == 2 && now % 64 == was % 64
            else now == was
  {
  }

  function Uuid(digest: string): string
    requires IsDigest(digest)
  {
    Hex(digest[0..4]) + "-" + Hex(digest[4..6]) + "-" + Hex(digest[6..8]) + "-" + Hex(digest[8..10]) + "-"
        + Hex(digest[10..16])
  }

  function UtidSuffix(firm: string): string {
    ":IRIS:" + firm + "::A"
  }

  function Utid(digest: string, firm: string): string
    requires IsDigest(digest)
  {
    Uuid(digest) + UtidSuffix(firm)
  }

  predicate IsHexDigit(c: char) {
    '0' <= c <= '9' || 'a' <= c <= 'f' || 'A' <= c <= 'F'
  }

  predicate AllHex(s: string) {
    forall i :: 0 <= i < |s| ==> IsHexDigit(s[i])
  }

  /** `[0-9A-Fa-f]{8}-[0-9A-Fa-f]{4}-[0-9A-Fa-f]{4}-[0-9A-Fa-f]{4}-[0-9A-Fa-f]{12}` */
  predicate UuidShape(s: string) {
    && |s| == 36
    && AllHex(s[0..8]) && s[8] == '-'
    && AllHex(s[9..13]) && s[13] == '-'
    && AllHex(s[14..18]) && s[18] == '-'
    && AllHex(s[19..23]) && s[23] == '-'
    && AllHex(s[24..36])
  }

  /** The receiver's pattern: a UUID, then `:IRIS:`, the transmitter quoted literally, and `::A`. */
  predicate UtidPattern(utid: string, firm: string) {
    |utid| >= 36 && UuidShape(utid[..36]) && utid[36..] == UtidSuffix(firm)
  }

  /** The receiver's pattern, position by position. */
  lemma UtidPatternExactly(utid: string, firm: string)
    ensures UtidPattern(utid, firm) <==>
              && |utid| == 36 + 6 + |firm| + 3 && utid[36..] == ":IRIS:" + firm + "::A"
              && forall i :: 0 <= i < 36 ==>
                   if i == 8 || i == 13 || i == 18 || i == 23 then utid[i] == '-'
                   else '0' <= utid[i] <= '9' || 'a' <= utid[i] <= 'f' || 'A' <= utid[i] <= 'F'
  {
    if |utid| >= 36 {
      var u := utid[..36];
      assert forall i :: 0 <= i < 36 ==> u[i] == utid[i];
      if forall i :: 0 <= i < 36 ==>
           if i == 8 || i == 13 || i == 18 || i == 23 then utid[i] == '-' else IsHexDigit(utid[i]) {
        assert UuidShape(u);
      } else if UuidShape(u) {
        ShapeAt(u);
      }
    }
  }

  lemma ShapeAt(u: string)
    requires UuidShape(u)
    ensures forall i :: 0 <= i < 36 ==> if i == 8 || i == 13 || i == 18 || i == 23 then u[i] == '-'
            else IsHexDigit(u[i])
  {
    forall i | 0 <= i < 36
      ensures if i == 8 || i == 13 || i == 18 || i == 23 then u[i] == '-' else IsHexDigit(u[i])
    {
      assert i < 8 ==> u[i] == u[0..8][i];
      assert 8 < i < 13 ==> u[i] == u[9..13][i - 9];
      assert 13 < i < 18 ==> u[i] == u[14..18][i - 14];
      assert 18 < i < 23 ==> u[i] == u[19..23][i - 19];
      assert 23 < i ==> u[i] == u[24..36][i - 24];
    }
  }

  lemma {:induction false} HexIsHex(s: string)
    requires ByteString(s)
    ensures AllHex(Hex(s))
  {
    if s != "" {
      HexIsHex(s[1..]);
    }
  }

  lemma UuidHasShape(digest: string)
    requires IsDigest(digest)
    ensures UuidShape(Uuid(digest))
  {
    var u := Uuid(digest);
    HexIsHex(digest[0..4]);
    HexIsHex(digest[4..6]);
    HexIsHex(digest[6..8]);
    HexIsHex(digest[8..10]);
    HexIsHex(digest[10..16]);
    assert u[0..8] == Hex(digest[0..4]);
    assert u[9..13] == Hex(digest[4..6]);
    assert u[14..18] == Hex(digest[6..8]);
    assert u[19..23] == Hex(digest[8..10]);
    assert u[24..36] == Hex(digest[10..16]);
  }

  /**
   Every batch UTID matches the receiver's pattern, carries version 4 as the first digit of its
   third group, and one of the digits 8, 9, a, b (variant bits 10) as the first of its fourth.
   */
  lemma UtidIsWellFormed(digest: string, firm: string)
    requires IsDigest(digest)
    ensures var utid := Utid(Patched(digest), firm);
            && UtidPattern(utid, firm)
            && utid[14] == '4'
            && utid[19] in {'8', '9', 'a', 'b'}
  {
    var d := Patched(digest);
    UuidHasShape(d);
    var u := Uuid(d);
    var utid := Utid(d, firm);
    assert utid[..36] == u;
    HexAt(d[6..8], 0);
    HexAt(d[8..10], 0);
    assert utid[14] == Hex(d[6..8])[0];
    assert utid[19] == Hex(d[8..10])[0];
  }

  /** `strings.ToUpper` on hexadecimal text. */
  function UpperHex(c: char): char {
    if 'a' <= c <= 'f' then (c as int - 32) as char else c
  }

  function Upper(s: string): string {
    seq(|s|, i requires 0 <= i < |s| => UpperHex(s[i]))
  }

  function SubmissionId(digest: string): string
    requires IsDigest(digest)
  {
    "SUB-" + Upper(Hex(digest[..12]))
  }

  /** The 24 hexadecimal digits of the UUID's first twelve bytes, without the hyphens. */
  function UuidDigits(utid: string): string
    requires |utid| >= 36
  {
    utid[0..8] + utid[9..13] + utid[14..18] + utid[19..23] + utid[24..28]
  }

  lemma {:induction false} HexConcat(s: string, t: string)
    requires ByteString(s) && ByteString(t)
    ensures ByteString(s + t) && Hex(s + t) == Hex(s) + Hex(t)
  {
    if s == "" {
      assert s + t == t;
    } else {
      assert (s + t)[1..] == s[1..] + t;
      assert (s + t)[0] == s[0];
      HexConcat(s[1..], t);
      assert Hex(s) + Hex(t) == HexByte(s[0]) + (Hex(s[1..]) + Hex(t));
    }
  }

  lemma HexSplit(d: string, i: nat, j: nat, k: nat)
    requires ByteString(d) && i <= j <= k <= |d|
    ensures Hex(d[i..k]) == Hex(d[i..j]) + Hex(d[j..k])
  {
    assert d[i..k] == d[i..j] + d[j..k];
    HexConcat(d[i..j], d[j..k]);
  }

  /** The UTID without its hyphens is the hexadecimal form of the first sixteen bytes, followed by firm and suffix. */
  lemma UtidExactly(d: string, firm: string)
    requires IsDigest(d)
    ensures var utid := Utid(d, firm);
            && |utid| >= 36 && utid[36..] == ":IRIS:" + firm + "::A"
            && utid[8] == utid[13] == utid[18] == utid[23] == '-'
            && utid[0..8] + utid[9..13] + utid[14..18] + utid[19..23] + utid[24..36] == Hex(d[0..16])
  {
    hide Hex;
    var utid := Utid(d, firm);
    assert utid[0..8] == Hex(d[0..4]) && utid[9..13] == Hex(d[4..6]) && utid[14..18] == Hex(d[6..8]);
    assert utid[19..23] == Hex(d[8..10]) && utid[24..36] == Hex(d[10..16]);
    HexSplit(d, 0, 4, 6);
    HexSplit(d, 0, 6, 8);
    HexSplit(d, 0, 8, 10);
    HexSplit(d, 0, 10, 16);
  }

  /** The submission identity spells the first twelve bytes in capital hexadecimal digits. */
  lemma SubmissionIdExactly(d: string, i: nat)
    requires IsDigest(d) && i < 12
    ensures |SubmissionId(d)| == 28 && SubmissionId(d)[..4] == "SUB-"
    ensures SubmissionId(d)[4 + 2 * i] == "0123456789ABCDEF"[d[i] as int / 16]
    ensures SubmissionId(d)[5 + 2 * i] == "0123456789ABCDEF"[d[i] as int % 16]
  {
    HexExactly(d[..12], i);
    CapitalDigit(d[i] as int / 16);
    CapitalDigit(d[i] as int % 16);
  }

  lemma CapitalDigit(n: nat)
    requires n < 16
    ensures UpperHex("0123456789abcdef"[n]) == "0123456789ABCDEF"[n]
  {
  }

  lemma UuidDigitsAreHex(d: string, firm: string)
    requires IsDigest(d)
    ensures |Utid(d, firm)| >= 36 && UuidDigits(Utid(d, firm)) == Hex(d[0..12])
  {
    var utid := Utid(d, firm);
    HexSplit(d, 10, 12, 16);
    assert utid[0..8] == Hex(d[0..4]) && utid[9..13] == Hex(d[4..6]) && utid[14..18] == Hex(d[6..8]);
    assert utid[19..23] == Hex(d[8..10]);
    assert utid[24..28] == Hex(d[10..12]);
    HexSplit(d, 0, 4, 6);
    HexSplit(d, 0, 6, 8);
    HexSplit(d, 0, 8, 10);
    HexSplit(d, 0, 10, 12);
  }

  /**
   Because the digest is patched in place, the submission identity repeats the UTID's digits,
   patched bits included.
   */
  lemma SubmissionIdFollowsUtid(digest: string, firm: string)
    requires IsDigest(digest)
    ensures |Utid(Patched(digest), firm)| >= 36
    ensures SubmissionId(Patched(digest)) == "SUB-" + Upper(UuidDigits(Utid(Patched(digest), firm)))
    ensures SubmissionId(Patched(digest))[16] == '4'
  {
    var d := Patched(digest);
    UuidDigitsAreHex(d, firm);
    assert d[..12] == d[0..12];
    HexAt(d[..12], 6);
  }

  /** No two of these preimages give the same UUID once the digest is truncated and patched. */
  predicate UuidCollisionFree(sha: Hash, preimages: set<string>) {
    && (forall p :: p in preimages ==> IsDigest(sha(p)))
    && forall p, q :: p in preimages && q in preimages && p != q ==> Uuid(Patched(sha(p))) != Uuid(Patched(sha(q)))
  }

  predicate ShaIsDigest(sha: Hash, preimage: string) {
    IsDigest(sha(preimage))
  }

  function BatchUtid(sha: Hash, firm: string, client: string, taxYear: nat, keys: seq<string>): string
    requires AllDigests(keys) && ShaIsDigest(sha, Preimage(BatchParts(firm, client, taxYear, keys)))
  {
    Utid(Patched(sha(Preimage(BatchParts(firm, client, taxYear, keys)))), firm)
  }

  /** Two batches of one firm share a UTID only when they are the same batch. */
  lemma BatchUtidInjective(sha: Hash, preimages: set<string>, firm: string,
                           client: string, taxYear: nat, keys: seq<string>,
                           client': string, taxYear': nat, keys': seq<string>)
    requires AllDigests(keys) && AllDigests(keys')
    requires AllShort(BatchParts(firm, client, taxYear, keys))
    requires AllShort(BatchParts(firm, client', taxYear', keys'))
    requires UuidCollisionFree(sha, preimages)
    requires Preimage(BatchParts(firm, client, taxYear, keys)) in preimages
    requires Preimage(BatchParts(firm, client', taxYear', keys')) in preimages
    requires ShaIsDigest(sha, Preimage(BatchParts(firm, client, taxYear, keys)))
    requires ShaIsDigest(sha, Preimage(BatchParts(firm, client', taxYear', keys')))
    requires BatchUtid(sha, firm, client, taxYear, keys) == BatchUtid(sha, firm, client', taxYear', keys')
    ensures client == client' && taxYear == taxYear' && keys == keys'
  {
    var p := Preimage(BatchParts(firm, client, taxYear, keys));
    var q := Preimage(BatchParts(firm, client', taxYear', keys'));
    UuidHasShape(Patched(sha(p)));
    UuidHasShape(Patched(sha(q)));
    assert Utid(Patched(sha(p)), firm)[..36] == Uuid(Patched(sha(p)));
    assert Utid(Patched(sha(q)), firm)[..36] == Uuid(Patched(sha(q)));
    assert p == q;
    BatchPreimageInjective(firm, client, taxYear, keys, firm, client', taxYear', keys');
  }
}
