/** Network-order integers in bounded buffers (src/common/checked.c:31-122). */
module BigEndian {
  import opened Base

  // ---- What the bytes mean ----

  /** The `n` low-order bytes of a value, most significant first. */
  function Bytes(value: nat, n: nat): (r: seq<byte>)
    ensures |r| == n
  {
    if n == 0 then [] else Bytes(value / 256, n - 1) + [value % 256]
  }

  function Value(bytes: seq<byte>): nat {
    if bytes == [] then 0 else 256 * Value(bytes[..|bytes| - 1]) + bytes[|bytes| - 1]
  }

  function Limit(n: nat): nat {
    if n == 0 then 1 else 256 * Limit(n - 1)
  }

  lemma {:induction false} ValueOfBytes(value: nat, n: nat)
    requires value < Limit(n)
    ensures Value(Bytes(value, n)) == value
  {
    if n > 0 {
      ValueOfBytes(value / 256, n - 1);
      assert Bytes(value, n)[..n - 1] == Bytes(value / 256, n - 1);
    }
  }

  lemma {:induction false} BytesOfValue(bytes: seq<byte>)
    ensures Bytes(Value(bytes), |bytes|) == bytes && Value(bytes) < Limit(|bytes|)
  {
    if bytes != [] {
      BytesOfValue(bytes[..|bytes| - 1]);
    }
  }

  /** Equal encodings of one width come from equal values. */
  lemma BytesInjective(a: nat, b: nat, n: nat)
    requires a < Limit(n) && b < Limit(n) && Bytes(a, n) == Bytes(b, n)
    ensures a == b
  {
    ValueOfBytes(a, n);
    ValueOfBytes(b, n);
  }

  lemma Limits()
    ensures Limit(2) == 0x1_0000 && Limit(4) == 0x1_0000_0000 && Limit(8) == 0x1_0000_0000_0000_0000
  {
    assert Limit(2) == 256 * Limit(1);
    assert Limit(4) == 256 * Limit(3) == 65536 * Limit(2);
    assert Limit(6) == 65536 * Limit(4);
    assert Limit(8) == 65536 * Limit(6);
  }

  lemma Bytes4(value: u32)
    ensures Bytes(value, 4) == [value / 0x100_0000, value / 0x1_0000 % 256, value / 256 % 256, value % 256]
  {
    assert Bytes(value, 4) == Bytes(value / 256, 3) + [value % 256];
    assert Bytes(value / 256, 3) == Bytes(value / 256 / 256, 2) + [value / 256 % 256];
    assert Bytes(value / 65536, 2) == Bytes(value / 65536 / 256, 1) + [value / 65536 % 256];
  }

  lemma {:induction false} BytesAppend(high: nat, low: seq<byte>, n: nat)
    ensures Bytes(high * Limit(|low|) + Value(low), n + |low|) == Bytes(high, n) + low
  {
    if low != [] {
      var front, last := low[..|low| - 1], low[|low| - 1];
      BytesAppend(high, front, n);
      var whole := high * Limit(|front|) + Value(front);
      assert high * (256 * Limit(|front|)) == 256 * (high * Limit(|front|));
      assert high * Limit(|low|) + Value(low) == 256 * whole + last;
      assert Bytes(high, n) + front + [last] == Bytes(high, n) + low;
    }
  }

  lemma {:induction false} ValueAppend(high: seq<byte>, low: seq<byte>)
    ensures Value(high + low) == Value(high) * Limit(|low|) + Value(low)
  {
    if low == [] {
      assert high + low == high;
    } else {
      var front := low[..|low| - 1];
      ValueAppend(high, front);
      assert (high + low)[..|high + low| - 1] == high + front;
      assert Value(high) * (256 * Limit(|front|)) == 256 * (Value(high) * Limit(|front|));
    }
  }

  /** The halves of a 64-bit value. */
  lemma BytesSplit(value: u64)
    ensures Bytes(value, 8) == Bytes(value / 0x1_0000_0000, 4) + Bytes(value % 0x1_0000_0000, 4)
  {
    Limits();
    ValueOfBytes(value % 0x1_0000_0000, 4);
    BytesAppend(value / 0x1_0000_0000, Bytes(value % 0x1_0000_0000, 4), 4);
  }

  // ---- Buffers ----

  predicate RangeValid(offset: nat, length: nat, total: nat) {
    offset <= total && length <= total - offset
  }

  /** A buffer with some bytes replaced. */
  function Patched(buffer: seq<byte>, offset: nat, bytes: seq<byte>): seq<byte>
    requires offset + |bytes| <= |buffer|
  {
    buffer[..offset] + bytes + buffer[offset + |bytes|..]
  }

  method ReadU16(data: array<byte>, offset: nat) returns (ok: bool, value: u16)
    ensures ok == RangeValid(offset, 2, data.Length)
    ensures ok ==> value == Value(data[offset..offset + 2])
  {
    if !RangeValid(offset, 2, data.Length) { return false, 0; }
    ghost var bytes := data[offset..offset + 2];
    var high: int, low: int := data[offset], data[offset + 1];
    assert Value(bytes[..1]) == high by { assert bytes[..1][..0] == []; }
    ok, value := true, high * 256 + low;
  }

  method ReadU32(data: array<byte>, offset: nat) returns (ok: bool, value: u32)
    ensures ok == RangeValid(offset, 4, data.Length)
    ensures ok ==> value == Value(data[offset..offset + 4])
  {
    if !RangeValid(offset, 4, data.Length) { return false, 0; }
    ghost var bytes := data[offset..offset + 4];
    var a: int, b: int, c: int, d: int := data[offset], data[offset + 1], data[offset + 2], data[offset + 3];
    assert Value(bytes[..1]) == a by { assert bytes[..1][..0] == []; }
    assert Value(bytes[..2]) == 256 * a + b by { assert bytes[..2][..1] == bytes[..1]; }
    assert Value(bytes[..3]) == 65536 * a + 256 * b + c by { assert bytes[..3][..2] == bytes[..2]; }
    ok, value := true, a * 0x100_0000 + b * 0x1_0000 + c * 256 + d;
  }

  method ReadU64(data: array<byte>, offset: nat) returns (ok: bool, value: u64)
    ensures ok == RangeValid(offset, 8, data.Length)
    ensures ok ==> value == Value(data[offset..offset + 8])
  {
    value := 0;
    var high, low;
    ok, high := ReadU32(data, offset);
    if !ok { return; }
    ok, low := ReadU32(data, offset + 4);
    if !ok { return; }
    ghost var bytes := data[offset..offset + 8];
    assert bytes[..4] == data[offset..offset + 4] && bytes[4..] == data[offset + 4..offset + 8];
    assert bytes == bytes[..4] + bytes[4..];
    ValueAppend(bytes[..4], bytes[4..]);
    Limits();
    var upper: int, lower: int := high, low;
    value := upper * 0x1_0000_0000 + lower;
  }

  method WriteU16(data: array<byte>, offset: nat, value: u16) returns (ok: bool)
    modifies data
    ensures ok == RangeValid(offset, 2, data.Length)
    ensures data[..] == if ok then Patched(old(data[..]), offset, Bytes(value, 2)) else old(data[..])
  {
    if !RangeValid(offset, 2, data.Length) { return false; }
    assert Bytes(value, 2) == [value / 256, value % 256] by {
      assert Bytes(value, 2) == Bytes(value / 256, 1) + [value % 256];
    }
    data[offset] := value / 256;
    data[offset + 1] := value % 256;
    ok := true;
  }

  method WriteU32(data: array<byte>, offset: nat, value: u32) returns (ok: bool)
    modifies data
    ensures ok == RangeValid(offset, 4, data.Length)
    ensures data[..] == if ok then Patched(old(data[..]), offset, Bytes(value, 4)) else old(data[..])
  {
    if !RangeValid(offset, 4, data.Length) { return false; }
    var a: byte, b: byte, c: byte, d: byte :=
      value / 0x100_0000, value / 0x1_0000 % 256, value / 256 % 256, value % 256;
    Bytes4(value);
    data[offset] := a;
    data[offset + 1] := b;
    data[offset + 2] := c;
    data[offset + 3] := d;
    assert data[..] == Patched(old(data[..]), offset, [a, b, c, d]);
    ok := true;
  }

  /** A 64-bit write into a buffer with room for four to seven bytes leaves the
      high half behind and reports failure. */
  method WriteU64(data: array<byte>, offset: nat, value: u64) returns (ok: bool)
    modifies data
    ensures ok == RangeValid(offset, 8, data.Length)
    ensures data[..] ==
              if ok then Patched(old(data[..]), offset, Bytes(value, 8))
              else if RangeValid(offset, 4, data.Length)
              then Patched(old(data[..]), offset, Bytes(value / 0x1_0000_0000, 4))
              else old(data[..])
  {
    ok := WriteU32(data, offset, value / 0x1_0000_0000);
    if !ok { return; }
    ok := WriteU32(data, offset + 4, value % 0x1_0000_0000);
    if ok {
      BytesSplit(value);
      PatchedTwice(old(data[..]), offset, Bytes(value / 0x1_0000_0000, 4), Bytes(value % 0x1_0000_0000, 4));
    }
  }

  lemma PatchedTwice(buffer: seq<byte>, offset: nat, a: seq<byte>, b: seq<byte>)
    requires offset + |a| + |b| <= |buffer|
    ensures |Patched(buffer, offset, a)| == |buffer|
    ensures Patched(Patched(buffer, offset, a), offset + |a|, b) == Patched(buffer, offset, a + b)
  {
  }

  /** What a write leaves in a buffer reads back as the value, at any width, and
      the rest of the buffer is as it was. */
  lemma WrittenReadsBack(buffer: seq<byte>, offset: nat, value: nat, n: nat)
    requires offset + n <= |buffer| && value < Limit(n)
    ensures var patched := Patched(buffer, offset, Bytes(value, n));
            && |patched| == |buffer| && Value(patched[offset..offset + n]) == value
            && patched[..offset] == buffer[..offset] && patched[offset + n..] == buffer[offset + n..]
  {
    assert Patched(buffer, offset, Bytes(value, n))[offset..offset + n] == Bytes(value, n);
    ValueOfBytes(value, n);
  }
}
