// Base 128 varints: encodeVarintIntrarelayer, sovIntrarelayer and the unrolled shift loops
// of x/intrarelayer/types/intrarelayer.pb.go.
module Varint {
  import opened Base

  // Specification: seven bits a byte, least significant group first.
  function Encode(v: nat): Bytes
  {
    if v < 128 then [v] else [v % 128 + 128] + Encode(v / 128)
  }

  // math/bits.Len64.
  function BitLen(x: nat): nat
  {
    if x == 0 then 0 else 1 + BitLen(x / 2)
  }

  // sovIntrarelayer and sovGenesis: (Len64(x|1) + 6) / 7.
  function Sov(x: nat): nat
  {
    (BitLen(if x % 2 == 0 then x + 1 else x) + 6) / 7
  }

  lemma {:induction false} BitLenShift7(x: nat)
    requires x >= 128
    ensures BitLen(x) == 7 + BitLen(x / 128)
  {
    assert BitLen(x) == 4 + BitLen(x / 2 / 2 / 2 / 2) by {
      assert BitLen(x) == 2 + BitLen(x / 2 / 2);
      assert BitLen(x / 2 / 2) == 2 + BitLen(x / 2 / 2 / 2 / 2);
    }
    var y := x / 2 / 2 / 2 / 2;
    assert y == x / 16;
    assert BitLen(y) == 3 + BitLen(y / 2 / 2 / 2) by {
      assert BitLen(y) == 2 + BitLen(y / 2 / 2);
    }
    assert y / 2 / 2 / 2 == x / 128;
  }

  lemma BitLenBelow128(x: nat)
    requires 1 <= x < 128
    ensures 1 <= BitLen(x) <= 7
  {
    assert x < 64 ==> x / 2 < 32;
    BitLenBound(x, 7);
  }

  lemma {:induction false} BitLenBound(x: nat, n: nat)
    requires x < Pow2(n)
    ensures BitLen(x) <= n
  {
    if x > 0 {
      BitLenBound(x / 2, n - 1);
    }
  }

  // Setting the lowest bit does not change how many bytes a nonzero value takes.
  lemma BitLenOdd(x: nat)
    requires x > 0
    ensures BitLen(if x % 2 == 0 then x + 1 else x) == BitLen(x)
  {
    if x % 2 == 0 {
      assert (x + 1) / 2 == x / 2;
    }
  }

  // The bit-length formula is the number of bytes that the shift loop writes.
  lemma {:induction false} SovIsLength(v: nat)
    ensures |Encode(v)| == Sov(v)
  {
    var odd := if v % 2 == 0 then v + 1 else v;
    if v < 128 {
      BitLenBelow128(odd);
    } else {
      SovIsLength(v / 128);
      BitLenShift7(odd);
      assert odd / 128 == v / 128;
      BitLenOdd(v / 128);
    }
  }

  lemma {:induction false} Pow2Adds(m: nat, n: nat)
    ensures Pow2(m + n) == Pow2(m) * Pow2(n)
  {
    if n > 0 {
      Pow2Adds(m, n - 1);
    }
  }

  // A uint64 takes one to ten bytes.
  lemma SovRange(v: uint64)
    ensures 1 <= Sov(v) <= 10
  {
    var odd := if v % 2 == 0 then v + 1 else v;
    Pow2Of64();
    BitLenBound(odd, 64);
  }

  // What a decoding loop reads: a value and the number of bytes it took.
  datatype Read = Read(value: nat, size: nat)

  // The continuation groups as an unbounded number, at most ten of them: the k-th group is
  // shifted by 7k bits and a shift of 64 or more is an overflow error.
  function Groups(s: Bytes, k: nat): (r: Option<Read>)
    ensures r.Some? ==> 1 <= r.value.size <= |s|
    decreases |s|
  {
    if k >= 10 || s == [] then None
    else if s[0] < 128 then Some(Read(s[0], 1))
    else
      var rest :- Groups(s[1..], k + 1);
      Some(Read(s[0] - 128 + 128 * rest.value, 1 + rest.size))
  }

  // Specification of the loop: the groups, kept to 64 bits.
  function ReadUint64(s: Bytes): (r: Option<Read>)
    ensures r.Some? ==> 1 <= r.value.size <= |s| && r.value.value < TWO_64
  {
    var r :- Groups(s, 0);
    Some(Read(r.value % TWO_64, r.size))
  }

  function Pow128(n: nat): nat
  {
    if n == 0 then 1 else 128 * Pow128(n - 1)
  }

  lemma {:induction false} GroupsInvertEncode(v: nat, k: nat, rest: Bytes)
    requires k < 10 && v < Pow128(10 - k)
    ensures Groups(Encode(v) + rest, k) == Some(Read(v, |Encode(v)|))
    decreases v
  {
    var s := Encode(v) + rest;
    if v >= 128 {
      assert Pow128(10 - k) == 128 * Pow128(9 - k);
      assert k < 9;
      GroupsInvertEncode(v / 128, k + 1, rest);
      assert s[1..] == Encode(v / 128) + rest;
    }
  }

  // Decoding inverts encoding for every uint64, whatever follows.
  lemma ReadInvertsEncode(v: uint64, rest: Bytes)
    ensures ReadUint64(Encode(v) + rest) == Some(Read(v, Sov(v)))
  {
    assert Pow128(10) == TWO_64 * 64 by {
      assert Pow128(5) == 0x8_0000_0000;
      assert Pow128(10) == 128 * 128 * 128 * 128 * 128 * Pow128(5);
    }
    GroupsInvertEncode(v, 0, rest);
    SovIsLength(v);
  }

  // A varint that was read does not depend on what follows it.
  lemma {:induction false} GroupsLocal(s: Bytes, t: Bytes, k: nat)
    requires Groups(s, k).Some?
    ensures Groups(s + t, k) == Groups(s, k)
    decreases |s|
  {
    assert (s + t)[0] == s[0];
    if s[0] >= 128 {
      GroupsLocal(s[1..], t, k + 1);
      assert (s + t)[1..] == s[1..] + t;
    }
  }

  lemma ReadLocal(s: Bytes, t: Bytes)
    requires ReadUint64(s).Some?
    ensures ReadUint64(s + t) == ReadUint64(s)
  {
    GroupsLocal(s, t, 0);
  }

  // ---- Varints as texts --------------------------------------------------------------

  // One to ten bytes, of which exactly the last has a clear top bit. They need not be minimal.
  predicate IsVarint(b: Bytes)
  {
    1 <= |b| <= 10 && b[|b| - 1] < 128 && forall i :: 0 <= i < |b| - 1 ==> b[i] >= 128
  }

  // The number that the low seven bits of the bytes spell, the first byte the least significant.
  function Spelled(b: Bytes): nat
  {
    if |b| == 0 then 0 else b[0] % 128 + 128 * Spelled(b[1..])
  }

  lemma {:induction false} GroupsSpelled(b: Bytes, k: nat)
    requires k <= 10
    ensures Groups(b, k).Some? && Groups(b, k).value.size == |b| <==>
            1 <= |b| <= 10 - k && b[|b| - 1] < 128 && forall i :: 0 <= i < |b| - 1 ==> b[i] >= 128
    ensures Groups(b, k).Some? && Groups(b, k).value.size == |b| ==> Groups(b, k).value.value == Spelled(b)
    decreases |b|
  {
    if |b| > 1 && k < 10 {
      GroupsSpelled(b[1..], k + 1);
      assert forall i :: 0 <= i < |b| - 2 ==> b[1..][i] == b[i + 1];
      assert (forall i :: 0 <= i < |b| - 1 ==> b[i] >= 128) ==> forall i :: 0 <= i < |b| - 2 ==> b[1..][i] >= 128;
      if b[0] >= 128 && forall i :: 0 <= i < |b| - 2 ==> b[1..][i] >= 128 {
        forall i | 0 <= i < |b| - 1
          ensures b[i] >= 128
        {
          assert i > 0 ==> b[i] == b[1..][i - 1];
        }
      }
    }
  }

  // All of some bytes is read exactly when they are one varint, and the value is what they
  // spell, kept to 64 bits.
  lemma ReadsAllIff(b: Bytes)
    ensures ReadUint64(b).Some? && ReadUint64(b).value.size == |b| <==> IsVarint(b)
    ensures IsVarint(b) ==> ReadUint64(b).value.value == Spelled(b) % TWO_64
  {
    GroupsSpelled(b, 0);
  }

  lemma {:induction false} GroupsTaken(s: Bytes, k: nat)
    requires Groups(s, k).Some?
    ensures Groups(s[..Groups(s, k).value.size], k) == Groups(s, k)
    decreases |s|
  {
    var n := Groups(s, k).value.size;
    if s[0] >= 128 {
      GroupsTaken(s[1..], k + 1);
      assert s[..n][1..] == s[1..][..n - 1];
    }
  }

  // A varint is read, and n bytes are taken, exactly when the first n bytes are one varint.
  lemma ReadsIff(s: Bytes, n: nat)
    requires n <= |s|
    ensures ReadUint64(s).Some? && ReadUint64(s).value.size == n <==> IsVarint(s[..n])
    ensures IsVarint(s[..n]) ==> ReadUint64(s).value.value == Spelled(s[..n]) % TWO_64
  {
    ReadsAllIff(s[..n]);
    if IsVarint(s[..n]) {
      ReadLocal(s[..n], s[n..]);
      assert s[..n] + s[n..] == s;
    }
    if ReadUint64(s).Some? && ReadUint64(s).value.size == n {
      GroupsTaken(s, 0);
    }
  }

  lemma LowBits(b: Bytes)
    requires IsVarint(b)
    ensures Spelled(b) % TWO_64 % 8 == b[0] % 8
  {
    WordKeepsLowBits(Spelled(b));
    LowGroup(b[0], Spelled(b[1..]));
    hide IsVarint;
  }

  lemma WordKeepsLowBits(x: nat)
    ensures x % TWO_64 % 8 == x % 8
  {
    var q := x / TWO_64;
    assert x == 8 * (q * 0x2000_0000_0000_0000) + x % TWO_64;
  }

  lemma LowGroup(b: byte, rest: nat)
    ensures (b % 128 + 128 * rest) % 8 == b % 8
  {
    assert b % 128 + 128 * rest == b + 8 * (16 * rest - 16 * (b / 128));
  }

  // ---- Bitwise or --------------------------------------------------------------------

  function Or(a: nat, b: nat): nat
    decreases a + b
  {
    if a == 0 && b == 0 then 0
    else (if a % 2 == 1 || b % 2 == 1 then 1 else 0) + 2 * Or(a / 2, b / 2)
  }

  lemma {:induction false} OrZero(a: nat)
    ensures Or(a, 0) == a && Or(0, a) == a
  {
    if a > 0 {
      OrZero(a / 2);
    }
  }

  // The or of a number below 2^k and a multiple of 2^k is their sum.
  lemma {:induction false} OrIsAddition(a: nat, g: nat, k: nat)
    requires a < Pow2(k)
    ensures Or(a, g * Pow2(k)) == a + g * Pow2(k)
  {
    if k == 0 {
      OrZero(g);
    } else {
      var b := g * Pow2(k - 1);
      assert g * Pow2(k) == 2 * b;
      OrIsAddition(a / 2, g, k - 1);
    }
  }

  // What one turn of the shift loop adds to the value.
  function Shifted(b: byte, shift: nat): nat
  {
    b % 0x80 * Pow2(shift)
  }

  // One turn in a word of some width: v |= word(b & 0x7f) << shift, where the bits that are
  // shifted out of the word are lost.
  function OrShifted(v: nat, b: byte, shift: nat, bits: nat): nat
  {
    Or(v, Shifted(b, shift) % Pow2(bits))
  }

  lemma AtLeastOne(k: int, d: nat)
    ensures k >= 1 ==> k * d >= d
    ensures k <= -1 ==> k * d <= -1 * d
  {
  }

  lemma RemainderIs(x: nat, d: nat, q: nat, m: nat)
    requires x == q * d + m && m < d
    ensures x % d == m
  {
    AtLeastOne(q - x / d, d);
    assert x == x / d * d + x % d;
    assert (q - x / d) * d == q * d - x / d * d;
  }

  lemma HalfOfRemainder(x: nat, k: nat)
    requires k > 0
    ensures x % (2 * k) == 2 * (x / 2 % k) + x % 2
  {
    var q, m := x / 2 / k, x / 2 % k;
    assert x / 2 == q * k + m;
    assert x == q * (2 * k) + (2 * m + x % 2);
    RemainderIs(x, 2 * k, q, 2 * m + x % 2);
  }

  // The low bits of an or are the or of the low bits.
  lemma {:induction false} OrTruncates(a: nat, b: nat, bits: nat)
    ensures Or(a, b) % Pow2(bits) == Or(a % Pow2(bits), b % Pow2(bits))
  {
    if bits > 0 {
      var k := Pow2(bits - 1);
      HalfOfRemainder(a, k);
      HalfOfRemainder(b, k);
      HalfOfRemainder(Or(a, b), k);
      OrTruncates(a / 2, b / 2, bits - 1);
      OrUnfolds(a, b);
      OrUnfolds(a % (2 * k), b % (2 * k));
      hide Or;
    }
  }

  lemma OrUnfolds(a: nat, b: nat)
    ensures Or(a, b) % 2 == (if a % 2 == 1 || b % 2 == 1 then 1 else 0) && Or(a, b) / 2 == Or(a / 2, b / 2)
  {
  }

  // In the word, the or of the next group is the addition of the unbounded value.
  lemma OrShiftedAdds(acc: nat, b: byte, shift: nat, bits: nat)
    requires acc < Pow2(shift)
    ensures OrShifted(acc % Pow2(bits), b, shift, bits) == (acc + Shifted(b, shift)) % Pow2(bits)
  {
    OrTruncates(acc, Shifted(b, shift), bits);
    OrIsAddition(acc, b % 0x80, shift);
  }

  // One more byte of a varint of which done is written and v is left.
  lemma EncodeMore(done: Bytes, v: nat)
    ensures v < 128 ==> done + [v] == done + Encode(v)
    ensures v >= 128 ==>
              && v / 128 < v && |Encode(v)| == 1 + |Encode(v / 128)| && v % 128 + 128 < 256
              && done + [v % 128 + 128] + Encode(v / 128) == done + Encode(v)
  {
  }

  // encodeVarintIntrarelayer: writes v into the Sov(v) bytes that end at offset.
  method EncodeVarint(buf: array<byte>, offset: nat, v: uint64) returns (base: nat)
    requires Sov(v) <= offset <= buf.Length
    modifies buf
    ensures base == offset - Sov(v)
    ensures buf[base..offset] == Encode(v)
    ensures buf[..base] == old(buf[..base]) && buf[offset..] == old(buf[offset..])
  {
    SovIsLength(v);
    EncodeMore([], v);
    hide Sov, Encode;
    base := offset - Sov(v);
    var o, x := base, v as nat;
    while x >= 0x80
      invariant base <= o < offset && o + |Encode(x)| == offset
      invariant buf[base..o] + Encode(x) == Encode(v)
      invariant buf[..base] == old(buf[..base]) && buf[offset..] == old(buf[offset..])
      decreases x
    {
      ghost var done := buf[base..o];
      EncodeMore(done, x);
      EncodeLength(x / 0x80);
      var low := x % 0x80 + 0x80;
      x := x / 0x80;
      buf[o] := low;
      assert buf[base..o + 1] == done + [low];
      o := o + 1;
    }
    ghost var done := buf[base..o];
    EncodeMore(done, x);
    buf[o] := x;
    assert buf[base..o + 1] == done + [x];
    EncodeLength(x);
  }

  lemma EncodeLength(v: nat)
    ensures |Encode(v)| >= 1 && (v < 128 ==> |Encode(v)| == 1)
  {
  }

  // The whole value of a varint that starts with n groups worth acc.
  ghost function Extend(r: Option<Read>, acc: nat, n: nat): Option<Read>
  {
    if r.None? then None else Some(Read(acc + Pow2(7 * n) * r.value.value, n + r.value.size))
  }

  lemma Distribute(unit: nat, b: nat, w: nat)
    ensures unit * (b + 128 * w) == b * unit + 128 * unit * w
  {
  }

  lemma ExtendStep(s: Bytes, n: nat, acc: nat)
    requires s != [] && n < 10 && s[0] >= 128
    ensures Extend(Groups(s, n), acc, n) == Extend(Groups(s[1..], n + 1), acc + Shifted(s[0], 7 * n), n + 1)
  {
    var rest := Groups(s[1..], n + 1);
    assert Pow2(7 * (n + 1)) == 128 * Pow2(7 * n) by {
      Pow2Adds(7 * n, 7);
      assert Pow2(7) == 128;
    }
    if rest.Some? {
      Distribute(Pow2(7 * n), s[0] - 128, rest.value.value);
    }
  }

  lemma ExtendLast(s: Bytes, n: nat, acc: nat)
    requires s != [] && n < 10 && s[0] < 128
    ensures Extend(Groups(s, n), acc, n) == Some(Read(acc + Shifted(s[0], 7 * n), n + 1))
  {
  }

  lemma ExtendNone(s: Bytes, n: nat, acc: nat)
    requires n >= 10 || |s| == 0
    ensures Extend(Groups(s, n), acc, n) == None
  {
  }

  lemma ExtendFirst(s: Bytes)
    ensures Extend(Groups(s, 0), 0, 0) == Groups(s, 0)
  {
    var r := Groups(s, 0);
    assert r.Some? ==> 0 + Pow2(7 * 0) * r.value.value == r.value.value;
  }

  lemma NextGroup(acc: nat, b: byte, shift: nat)
    requires acc < Pow2(shift)
    ensures acc + Shifted(b, shift) < Pow2(shift + 7)
  {
    assert Pow2(7) == 128;
    Pow2Adds(7, shift);
    hide Pow2;
    AtLeastOne(128 - b % 0x80, Pow2(shift));
    assert (128 - b % 0x80) * Pow2(shift) == 128 * Pow2(shift) - b % 0x80 * Pow2(shift);
  }

  // The shift loop that the generated code unrolls at every varint it reads, into a word of
  // this many bits.
  method DecodeWord(data: Bytes, start: nat, bits: nat) returns (r: Option<Read>)
    requires start <= |data|
    ensures var all := Groups(data[start..], 0);
            r == if all.None? then None else Some(Read(all.value.value % Pow2(bits), all.value.size))
  {
    hide Groups, Extend, Shifted, OrShifted;
    var v, shift, i := 0, 0, start;
    ghost var acc: nat := 0;
    ExtendFirst(data[start..]);
    RemainderIs(0, Pow2(bits), 0, 0);
    assert Pow2(0) == 1;
    hide Pow2;
    while true
      invariant start <= i <= |data| && shift == 7 * (i - start) <= 70
      invariant v == acc % Pow2(bits) && acc < Pow2(shift)
      invariant Groups(data[start..], 0) == Extend(Groups(data[i..], i - start), acc, i - start)
      decreases 70 - shift
    {
      ghost var at := data[i..];
      if shift >= 64 {
        ExtendNone(at, i - start, acc);
        return None;
      }
      if i >= |data| {
        ExtendNone(at, i - start, acc);
        return None;
      }
      var b := data[i];
      i := i + 1;
      OrShiftedAdds(acc, b, shift, bits);
      NextGroup(acc, b, shift);
      v := OrShifted(v, b, shift, bits);
      if b < 0x80 {
        ExtendLast(at, i - 1 - start, acc);
        return Some(Read(v, i - start));
      }
      ExtendStep(at, i - 1 - start, acc);
      assert at[1..] == data[i..];
      acc := acc + Shifted(b, shift);
      shift := shift + 7;
    }
  }

  lemma Pow2Of64()
    ensures Pow2(32) == TWO_32 && Pow2(64) == TWO_64
  {
    assert Pow2(8) == 0x100;
    hide Pow2;
    Pow2Adds(8, 8);
    Pow2Adds(16, 16);
    Pow2Adds(32, 32);
  }

  // The loop into a uint64.
  method DecodeVarint(data: Bytes, start: nat) returns (r: Option<Read>)
    requires start <= |data|
    ensures r == ReadUint64(data[start..])
  {
    Pow2Of64();
    hide Groups, Pow2;
    r := DecodeWord(data, start, 64);
  }

  // The loop into an int32: the same bytes, read as the low 32 bits.
  method DecodeInt32(data: Bytes, start: nat) returns (v: int32, size: nat, ok: bool)
    requires start <= |data|
    ensures ok <==> ReadUint64(data[start..]).Some?
    ensures ok ==> v == ToInt32(ReadUint64(data[start..]).value.value) && size == ReadUint64(data[start..]).value.size
  {
    Pow2Of64();
    hide Groups, Pow2;
    var r := DecodeWord(data, start, 32);
    if r.None? {
      return 0, 0, false;
    }
    return ToInt32(r.value.value), r.value.size, true;
  }
}
