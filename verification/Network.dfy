/** Source-network restrictions of API tokens (src/common/account_token.c):
    clearing host bits in place, and matching a peer against a prefix.
    The reference is bit equality: section 3.1 of RFC 4632 and section 2.3 of
    RFC 4291 define a prefix as the leading bits of an address. */
module Network {
  import opened Base

  /** `b >> n` for a byte. */
  function Shr(b: byte, n: nat): byte
    requires n <= 8
  {
    match n
    case 0 => b
    case 1 => b / 2
    case 2 => b / 4
    case 3 => b / 8
    case 4 => b / 16
    case 5 => b / 32
    case 6 => b / 64
    case 7 => b / 128
    case _ => 0
  }

  /** `b & (0xff << n)` for a byte: its low `n` bits cleared. */
  function ClearLow(b: byte, n: nat): byte
    requires n <= 8
  {
    match n
    case 0 => b
    case 1 => b - b % 2
    case 2 => b - b % 4
    case 3 => b - b % 8
    case 4 => b - b % 16
    case 5 => b - b % 32
    case 6 => b - b % 64
    case 7 => b - b % 128
    case _ => 0
  }

  /** Bit `j` of a byte, counted from its most significant bit. */
  function ByteBit(b: byte, j: nat): int
    requires j < 8
  {
    Shr(b, 7 - j) % 2
  }

  /** Bit `k` of an address, counted from the most significant bit of byte 0. */
  function Bit(address: seq<byte>, k: nat): int
    requires k < 8 * |address|
  {
    ByteBit(address[k / 8], k % 8)
  }

  /** The leading `prefix` bits of two addresses agree. */
  predicate SamePrefix(a: seq<byte>, b: seq<byte>, prefix: nat) {
    && |a| == |b|
    && prefix <= 8 * |a|
    && forall k :: 0 <= k < prefix ==> Bit(a, k) == Bit(b, k)
  }

  function Canonical(address: seq<byte>, prefix: nat): (r: seq<byte>)
    requires prefix <= 8 * |address|
    ensures |r| == |address|
  {
    seq(|address|, i requires 0 <= i < |address| =>
      if i < prefix / 8 then address[i]
      else if i == prefix / 8 then ClearLow(address[i], 8 - prefix % 8)
      else 0)
  }

  /** `source_network_matches` for a stored network of the peer's family. */
  predicate Matches(network: seq<byte>, prefix: nat, remote: seq<byte>)
    requires prefix <= 8 * |network|
  {
    && |remote| == |network|
    && network[..prefix / 8] == remote[..prefix / 8]
    && (prefix % 8 != 0 ==>
          Shr(network[prefix / 8], 8 - prefix % 8) == Shr(remote[prefix / 8], 8 - prefix % 8))
  }

  method CanonicalizeSourceAddress(output: array<byte>, input: seq<byte>, prefix: nat)
    requires output.Length == 16 && |input| <= 16 && prefix <= 8 * |input|
    modifies output
    ensures output[..|input|] == Canonical(input, prefix)
    ensures forall i :: |input| <= i < 16 ==> output[i] == 0
  {
    var completeBytes, remainingBits := prefix / 8, prefix % 8;
    var firstClear := completeBytes;
    var i := 0;
    while i < 16
      invariant i <= 16
      invariant forall k :: 0 <= k < i ==> output[k] == if k < |input| then input[k] else 0
    {
      output[i] := if i < |input| then input[i] else 0;
      i := i + 1;
    }
    if remainingBits != 0 {
      output[completeBytes] := ClearLow(output[completeBytes], 8 - remainingBits);
      firstClear := completeBytes + 1;
    }
    i := firstClear;
    while i < |input|
      invariant firstClear <= i
      invariant i <= |input| || i == firstClear
      invariant forall k :: 0 <= k < completeBytes ==> output[k] == input[k]
      invariant remainingBits != 0 ==> output[completeBytes] == ClearLow(input[completeBytes], 8 - remainingBits)
      invariant forall k :: firstClear <= k < i && k < |input| ==> output[k] == 0
      invariant forall k :: |input| <= k < 16 ==> output[k] == 0
    {
      output[i] := 0;
      i := i + 1;
    }
  }

  // ---- Matching is equality of leading bits ----

  lemma ShrStep(x: byte, n: nat)
    requires n < 8
    ensures Shr(x, n) == 2 * Shr(x, n + 1) + Shr(x, n) % 2
  {
    match n
    case 0 => case 1 => case 2 => case 3 => case 4 => case 5 => case 6 => case 7 =>
  }

  /** Two bytes agree after a shift exactly when their leading bits agree. */
  lemma {:induction false} ByteBits(x: byte, y: byte, n: nat)
    requires n <= 8
    ensures Shr(x, 8 - n) == Shr(y, 8 - n) <==> forall j :: 0 <= j < n ==> ByteBit(x, j) == ByteBit(y, j)
  {
    if n > 0 {
      ShrStep(x, 8 - n);
      ShrStep(y, 8 - n);
      ByteBits(x, y, n - 1);
      assert ByteBit(x, n - 1) == Shr(x, 8 - n) % 2 && ByteBit(y, n - 1) == Shr(y, 8 - n) % 2;
    }
  }

  lemma ByteOfPrefix(a: seq<byte>, b: seq<byte>, i: nat, n: nat)
    requires |a| == |b| && i < |a| && n <= 8
    ensures Shr(a[i], 8 - n) == Shr(b[i], 8 - n)
       <==> forall k :: 8 * i <= k < 8 * i + n ==> Bit(a, k) == Bit(b, k)
  {
    ByteBits(a[i], b[i], n);
    if forall k :: 8 * i <= k < 8 * i + n ==> Bit(a, k) == Bit(b, k) {
      forall j | 0 <= j < n ensures ByteBit(a[i], j) == ByteBit(b[i], j) {
        assert Bit(a, 8 * i + j) == Bit(b, 8 * i + j);
      }
    } else {
      var k :| 8 * i <= k < 8 * i + n && Bit(a, k) != Bit(b, k);
      assert ByteBit(a[i], k - 8 * i) != ByteBit(b[i], k - 8 * i);
    }
  }

  lemma WholeBytes(a: seq<byte>, b: seq<byte>, count: nat)
    requires |a| == |b| && count <= |a|
    ensures a[..count] == b[..count] <==> forall k :: 0 <= k < 8 * count ==> Bit(a, k) == Bit(b, k)
  {
    if a[..count] == b[..count] {
      forall k | 0 <= k < 8 * count ensures Bit(a, k) == Bit(b, k) {
        assert a[k / 8] == a[..count][k / 8] == b[..count][k / 8] == b[k / 8];
      }
    } else {
      var i :| 0 <= i < count && a[i] != b[i];
      ByteOfPrefix(a, b, i, 8);
      var k :| 8 * i <= k < 8 * i + 8 && Bit(a, k) != Bit(b, k);
    }
  }

  /** The byte-and-shift test decides equality of the leading bits. */
  lemma MatchesIsSamePrefix(a: seq<byte>, b: seq<byte>, prefix: nat)
    requires prefix <= 8 * |a|
    ensures Matches(a, prefix, b) <==> SamePrefix(a, b, prefix)
  {
    if |a| == |b| {
      var whole, part := prefix / 8, prefix % 8;
      WholeBytes(a, b, whole);
      if part != 0 { ByteOfPrefix(a, b, whole, part); }
    }
  }

  lemma ClearLowShift(b: byte, n: nat)
    requires n <= 8
    ensures Shr(ClearLow(b, n), n) == Shr(b, n) && ClearLow(ClearLow(b, n), n) == ClearLow(b, n)
  {
    match n
    case 0 => case 1 => case 2 => case 3 => case 4 => case 5 => case 6 => case 7 => case 8 =>
  }

  /** A peer matches the stored network exactly when its leading bits equal
      those of the configured address, before canonicalisation. */
  lemma StoredNetworkMatches(configured: seq<byte>, prefix: nat, remote: seq<byte>)
    requires prefix <= 8 * |configured|
    ensures Matches(Canonical(configured, prefix), prefix, remote) <==> SamePrefix(configured, remote, prefix)
  {
    var whole, part := prefix / 8, prefix % 8;
    assert Canonical(configured, prefix)[..whole] == configured[..whole];
    if part != 0 {
      ClearLowShift(configured[whole], 8 - part);
    }
    MatchesIsSamePrefix(configured, remote, prefix);
  }

  lemma CanonicalIdempotent(a: seq<byte>, prefix: nat)
    requires prefix <= 8 * |a|
    ensures Canonical(Canonical(a, prefix), prefix) == Canonical(a, prefix)
  {
    if prefix / 8 < |a| {
      ClearLowShift(a[prefix / 8], 8 - prefix % 8);
    }
  }
}
