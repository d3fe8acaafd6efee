// The loop that every generated Unmarshal method shares, over the field that one turn decodes.
module Message {
  import opened Base
  import opened Varint
  import opened Wire

  // A message after one field and the bytes that the field took.
  datatype Parsed<+M> = Parsed(msg: M, size: nat)

  type FieldReader<!M> = (Bytes, M) -> Option<Parsed<M>>

  // Specification of Unmarshal: fields are read into the message until the bytes run out.
  function Decode<M>(field: FieldReader<M>, s: Bytes, m: M): Option<M>
    decreases |s|
  {
    if |s| == 0 then Some(m)
    else
      var p :- field(s, m);
      if 1 <= p.size <= |s| then Decode(field, s[p.size..], p.msg) else None
  }

  // A field that was read lies in the bytes and does not depend on what follows it.
  ghost predicate Local<M(!new)>(field: FieldReader<M>)
  {
    forall s, m :: field(s, m).Some? ==>
      && 1 <= field(s, m).value.size <= |s|
      && forall t :: field(s + t, m) == field(s, m)
  }

  // Decoding one field and then the rest.
  lemma DecodeField<M(!new)>(field: FieldReader<M>, s: Bytes, m: M, m': M, rest: Bytes)
    requires |s| > 0 && field(s + rest, m) == Some(Parsed(m', |s|))
    ensures Decode(field, s + rest, m) == Decode(field, rest, m')
  {
    assert (s + rest)[|s|..] == rest;
  }

  // Decoding a concatenation is decoding the parts in order.
  lemma {:induction false} DecodeConcat<M(!new)>(field: FieldReader<M>, a: Bytes, b: Bytes, m: M)
    requires Local(field) && Decode(field, a, m).Some?
    ensures Decode(field, a + b, m) == Decode(field, b, Decode(field, a, m).value)
    decreases |a|
  {
    if |a| == 0 {
      assert a + b == b;
    } else {
      var p := field(a, m).value;
      assert field(a + b, m) == Some(p);
      assert (a + b)[p.size..] == a[p.size..] + b;
      DecodeConcat(field, a[p.size..], b, p.msg);
    }
  }

  // ---- What fields mean --------------------------------------------------------------

  // The number of a field, in the 32 bits that the code keeps of it.
  function FieldNumber(f: Field): int32
  {
    ToInt32(Spelled(f.tag) % TWO_64 / 8)
  }

  function FieldWire(f: Field): nat
  {
    if |f.tag| == 0 then 0 else f.tag[0] % 8
  }

  // The number in a field of wire type 0.
  function FieldValue(f: Field): uint64
  {
    if f.Plain? then Spelled(f.body) % TWO_64 else 0
  }

  // The bytes up to the first with a clear top bit.
  function HeadSize(b: Bytes): (n: nat)
    ensures n <= |b|
  {
    if |b| == 0 then 0 else if b[0] < 128 then 1 else 1 + HeadSize(b[1..])
  }

  // The bytes after the length in a field of wire type 2.
  function FieldPayload(f: Field): Bytes
  {
    if f.Plain? then f.body[HeadSize(f.body)..] else []
  }

  // What a field makes of a message, None when the message refuses it.
  type Meaning<!M> = (Field, M) -> Option<M>

  function MeaningOfAll<M>(meaning: Meaning<M>, fs: Fields, m: M): Option<M>
  {
    if fs.Nil? then Some(m)
    else
      var m' :- meaning(fs.head, m);
      MeaningOfAll(meaning, fs.tail, m')
  }

  // A turn of the loop reads one well-formed field and does what the field means.
  ghost predicate Reads<M(!new)>(field: FieldReader<M>, meaning: Meaning<M>)
  {
    && (forall f, m, rest :: WellFormed(f) ==> field(Render(f) + rest, m) == Outcome(meaning, f, m))
    && (forall s, m :: field(s, m).Some? ==>
          1 <= field(s, m).value.size <= |s| && exists f :: WellFormed(f) && Render(f) == s[..field(s, m).value.size])
  }

  function Outcome<M>(meaning: Meaning<M>, f: Field, m: M): Option<Parsed<M>>
  {
    var m' :- meaning(f, m);
    Some(Parsed(m', |Render(f)|))
  }

  lemma {:induction false} FieldsDecode<M(!new)>(field: FieldReader<M>, meaning: Meaning<M>, fs: Fields, m: M)
    requires Reads(field, meaning) && AllWellFormed(fs)
    ensures Decode(field, RenderAll(fs), m) == MeaningOfAll(meaning, fs, m)
    decreases fs
  {
    hide Render, WellFormed;
    if fs.Cons? {
      var f, rest := fs.head, RenderAll(fs.tail);
      FieldNotEmpty(f);
      assert (Render(f) + rest)[|Render(f)|..] == rest;
      assert field(Render(f) + rest, m) == Outcome(meaning, f, m);
      if meaning(f, m).Some? {
        FieldsDecode(field, meaning, fs.tail, meaning(f, m).value);
      }
    }
  }

  lemma FieldNotEmpty(f: Field)
    requires WellFormed(f)
    ensures |Render(f)| > 0
  {
  }

  lemma {:induction false} DecodedAreFields<M(!new)>(field: FieldReader<M>, meaning: Meaning<M>, s: Bytes, m: M)
    returns (fs: Fields)
    requires Reads(field, meaning) && Decode(field, s, m).Some?
    ensures AllWellFormed(fs) && RenderAll(fs) == s
    decreases |s|
  {
    hide Render, WellFormed;
    if |s| == 0 {
      fs := Nil;
    } else {
      var p := field(s, m).value;
      var f :| WellFormed(f) && Render(f) == s[..p.size];
      var tail := DecodedAreFields(field, meaning, s[p.size..], p.msg);
      fs := Cons(f, tail);
    }
  }

  // Unmarshal accepts exactly the sequences of well-formed fields that the message does not
  // refuse, and its result is what the fields mean, in order.
  lemma DecodesIff<M(!new)>(field: FieldReader<M>, meaning: Meaning<M>, s: Bytes, m: M, r: M)
    requires Reads(field, meaning)
    ensures Decode(field, s, m) == Some(r) <==>
            exists fs :: AllWellFormed(fs) && RenderAll(fs) == s && MeaningOfAll(meaning, fs, m) == Some(r)
  {
    hide Decode, Reads, AllWellFormed, RenderAll, MeaningOfAll;
    if Decode(field, s, m) == Some(r) {
      var fs := DecodedAreFields(field, meaning, s, m);
      FieldsDecode(field, meaning, fs, m);
    }
    if fs :| AllWellFormed(fs) && RenderAll(fs) == s && MeaningOfAll(meaning, fs, m) == Some(r) {
      FieldsDecode(field, meaning, fs, m);
    }
  }

  // ---- Reading the parts of a field --------------------------------------------------

  // The bytes of a field after its tag.
  function AfterTag(f: Field): Bytes
  {
    if f.Plain? then f.body else RenderAll(f.fields) + f.end
  }

  lemma FieldParts(f: Field)
    requires WellFormed(f)
    ensures Render(f) == f.tag + AfterTag(f) && IsVarint(f.tag) && FieldWire(f) != 4
  {
    hide IsVarint;
    if f.Group? {
      assert f.tag + RenderAll(f.fields) + f.end == f.tag + (RenderAll(f.fields) + f.end);
    }
  }

  lemma TagIsRead(f: Field, rest: Bytes)
    requires WellFormed(f)
    ensures Render(f) == f.tag + AfterTag(f) && |f.tag| > 0 && FieldWire(f) != 4
    ensures ReadTag(Render(f) + rest) ==
            if FieldNumber(f) <= 0 then None else Some(Tag(FieldNumber(f), FieldWire(f), |f.tag|))
    ensures (Render(f) + rest)[|f.tag|..] == AfterTag(f) + rest
  {
    FieldParts(f);
    hide ReadUint64, ToInt32, Spelled, Render, WellFormed, AfterTag;
    ReadsAllIff(f.tag);
    LowBits(f.tag);
    ReadLocal(f.tag, AfterTag(f) + rest);
    assert Render(f) + rest == f.tag + (AfterTag(f) + rest);
  }

  lemma VarintIsRead(f: Field, rest: Bytes)
    requires WellFormed(f) && FieldWire(f) == 0
    ensures f.Plain? && ReadUint64(f.body + rest) == Some(Read(FieldValue(f), |f.body|))
  {
    hide ReadUint64, Spelled;
    ReadsAllIff(f.body);
    ReadLocal(f.body, rest);
  }

  lemma {:induction false} HeadOfVarint(b: Bytes, k: nat)
    requires 1 <= k <= |b| && b[k - 1] < 128 && forall i :: 0 <= i < k - 1 ==> b[i] >= 128
    ensures HeadSize(b) == k
    decreases k
  {
    if k > 1 {
      HeadOfVarint(b[1..], k - 1);
    }
  }

  lemma PayloadIsRead(f: Field, rest: Bytes)
    requires WellFormed(f) && FieldWire(f) == 2
    ensures f.Plain? && ReadPayload(f.body + rest) == Some(Payload(FieldPayload(f), |f.body|))
  {
    hide ReadUint64, Spelled;
    var k :| 0 <= k <= |f.body| && IsLength(f.body, k);
    assert forall i :: 0 <= i < k ==> f.body[..k][i] == f.body[i];
    HeadOfVarint(f.body, k);
    hide IsVarint;
    ReadsIff(f.body, k);
    ReadLocal(f.body, rest);
    assert (f.body + rest)[k..] == f.body[k..] + rest;
    assert (f.body[k..] + rest)[..|f.body| - k] == f.body[k..];
  }

  // A turn that read a tag and a body of wire type 0 or 2 read a well-formed field.
  lemma VarintTurnIsField(s: Bytes) returns (f: Field)
    requires ReadTag(s).Some? && ReadTag(s).value.wire == 0 && ReadUint64(s[ReadTag(s).value.size..]).Some?
    ensures var t := ReadTag(s).value;
            WellFormed(f) && Render(f) == s[..t.size + ReadUint64(s[t.size..]).value.size]
  {
    hide ReadUint64, Spelled;
    var t := ReadTag(s).value.size;
    var n := ReadUint64(s[t..]).value.size;
    TagTaken(s);
    ReadsIff(s[t..], n);
    assert s[t..][..n] == s[t..t + n];
    f := Plain(s[..t], s[t..t + n]);
  }

  lemma PayloadTurnIsField(s: Bytes) returns (f: Field)
    requires ReadTag(s).Some? && ReadTag(s).value.wire == 2 && ReadPayload(s[ReadTag(s).value.size..]).Some?
    ensures var t := ReadTag(s).value;
            WellFormed(f) && Render(f) == s[..t.size + ReadPayload(s[t.size..]).value.size]
  {
    hide ReadUint64, Spelled, IsVarint;
    var t := ReadTag(s).value.size;
    var rest := s[t..];
    var k, n := ReadUint64(rest).value.size, ReadPayload(rest).value.size;
    TagTaken(s);
    ReadsIff(rest, k);
    var body := s[t..t + n];
    assert body == rest[..n] && body[..k] == rest[..k];
    assert IsLength(body, k);
    f := Plain(s[..t], body);
  }

  // ---- Fields of the two wire types the messages use ---------------------------------

  function Key(num: nat, wire: nat): Bytes
  {
    Encode(8 * num + wire)
  }

  lemma ReadKey(num: nat, wire: nat, rest: Bytes)
    requires 1 <= num <= 15 && wire <= 5 && wire != 4
    ensures Key(num, wire) == [8 * num + wire]
    ensures ReadTag(Key(num, wire) + rest) == Some(Tag(num, wire, 1))
  {
    hide ReadUint64, Sov, Encode;
    var v := 8 * num + wire;
    EncodeSmall(v);
    ReadInvertsEncode(v, rest);
    assert v / 8 == num && v % 8 == wire;
  }

  lemma EncodeSmall(v: nat)
    requires v < 128
    ensures Encode(v) == [v] && Sov(v) == 1
  {
    hide Sov;
    SovIsLength(v);
  }

  function VarintField(num: nat, v: nat): Bytes
  {
    Key(num, 0) + Encode(v)
  }

  function BytesField(num: nat, b: Bytes): Bytes
  {
    Key(num, 2) + EncodePayload(b)
  }

  // The bytes of such fields.
  lemma FieldBytes(num: nat, b: Bytes)
    requires 1 <= num <= 15
    ensures BytesField(num, b) == [8 * num + 2] + Encode(|b|) + b
    ensures VarintField(num, 1) == [8 * num, 1]
  {
    hide Encode, Sov;
    EncodeSmall(8 * num + 2);
    EncodeSmall(8 * num);
    EncodeSmall(1);
    assert BytesField(num, b) == [8 * num + 2] + (Encode(|b|) + b);
  }

  lemma VarintFieldSize(num: nat, v: nat)
    requires 1 <= num <= 15
    ensures |VarintField(num, v)| == 1 + Sov(v)
  {
    SovIsLength(v);
  }

  lemma BytesFieldSize(num: nat, b: Bytes)
    requires 1 <= num <= 15
    ensures |BytesField(num, b)| == 1 + |b| + Sov(|b|)
  {
    SovIsLength(|b|);
  }

  lemma ReadVarintField(num: nat, v: uint64, rest: Bytes)
    requires 1 <= num <= 15
    ensures var s := VarintField(num, v) + rest;
            && ReadTag(s) == Some(Tag(num, 0, 1))
            && ReadUint64(s[1..]) == Some(Read(v, |VarintField(num, v)| - 1))
  {
    var s := VarintField(num, v) + rest;
    VarintFieldSize(num, v);
    ReadKey(num, 0, Encode(v) + rest);
    assert s == Key(num, 0) + (Encode(v) + rest);
    assert s[1..] == Encode(v) + rest;
    ReadInvertsEncode(v, rest);
  }

  lemma ReadBytesField(num: nat, b: Bytes, rest: Bytes)
    requires 1 <= num <= 15 && |b| <= MAX_INT
    ensures var s := BytesField(num, b) + rest;
            && ReadTag(s) == Some(Tag(num, 2, 1))
            && ReadPayload(s[1..]) == Some(Payload(b, |BytesField(num, b)| - 1))
  {
    var s := BytesField(num, b) + rest;
    ReadKey(num, 2, EncodePayload(b) + rest);
    assert s == Key(num, 2) + (EncodePayload(b) + rest);
    assert s[1..] == EncodePayload(b) + rest;
    ReadPayloadInverts(b, rest);
  }

  // A field of a number that the message does not know.
  function UnknownField<M>(s: Bytes, m: M): Option<Parsed<M>>
  {
    var n :- Skip(s, 0);
    Some(Parsed(m, n))
  }

  // ---- Writing backwards -------------------------------------------------------------

  // s with x written over the bytes that end at end, and nothing else touched.
  ghost function Written(s: Bytes, end: nat, x: Bytes): Bytes
    requires |x| <= end <= |s|
  {
    s[..end - |x|] + x + s[end..]
  }

  // Writing y in front of x.
  lemma WrittenBefore(s: Bytes, end: nat, x: Bytes, y: Bytes)
    requires |y| + |x| <= end <= |s|
    ensures |Written(s, end, x)| == |s|
    ensures Written(Written(s, end, x), end - |x|, y) == Written(s, end, y + x)
  {
    var w := Written(s, end, x);
    assert w[end - |x|..] == x + s[end..];
    assert w[..end - |x| - |y|] == s[..end - |x| - |y|];
  }

  lemma WrittenNothing(s: Bytes, end: nat)
    requires end <= |s|
    ensures Written(s, end, []) == s
  {
  }

  method PutByte(buf: array<byte>, end: nat, b: byte) returns (i: nat)
    requires 1 <= end <= buf.Length
    modifies buf
    ensures i == end - 1 && buf[..] == Written(old(buf[..]), end, [b])
  {
    i := end - 1;
    buf[i] := b;
  }

  // encodeVarint in place, as a whole-buffer update.
  method PutVarint(buf: array<byte>, end: nat, v: uint64) returns (i: nat)
    requires Sov(v) <= end <= buf.Length
    modifies buf
    ensures i == end - |Encode(v)| && |Encode(v)| == Sov(v)
    ensures buf[..] == Written(old(buf[..]), end, Encode(v))
  {
    SovIsLength(v);
    i := EncodeVarint(buf, end, v);
    assert buf[..] == buf[..i] + buf[i..end] + buf[end..];
  }

  // copy(buf[end - len(b):], b).
  method PutBytes(buf: array<byte>, end: nat, b: Bytes) returns (i: nat)
    requires |b| <= end <= buf.Length
    modifies buf
    ensures i == end - |b| && buf[..] == Written(old(buf[..]), end, b)
  {
    i := end - |b|;
    forall k | 0 <= k < |b| {
      buf[i + k] := b[k];
    }
    assert buf[i..end] == b;
    assert buf[..] == buf[..i] + buf[i..end] + buf[end..];
  }

  method PutVarintField(buf: array<byte>, end: nat, num: nat, v: uint64) returns (i: nat)
    requires 1 <= num <= 15 && 1 + Sov(v) <= end <= buf.Length
    modifies buf
    ensures i == end - |VarintField(num, v)| && |VarintField(num, v)| == 1 + Sov(v)
    ensures buf[..] == Written(old(buf[..]), end, VarintField(num, v))
  {
    hide Written;
    VarintFieldSize(num, v);
    i := PutVarint(buf, end, v);
    WrittenBefore(old(buf[..]), end, Encode(v), Key(num, 0));
    ReadKey(num, 0, []);
    i := PutByte(buf, i, 8 * num);
  }

  // The two bytes of a true bool field.
  method PutBoolField(buf: array<byte>, end: nat, num: nat) returns (i: nat)
    requires 1 <= num <= 15 && 2 <= end <= buf.Length
    modifies buf
    ensures i == end - |VarintField(num, 1)| && |VarintField(num, 1)| == 2
    ensures buf[..] == Written(old(buf[..]), end, VarintField(num, 1))
  {
    hide Written;
    i := PutByte(buf, end, 1);
    WrittenBefore(old(buf[..]), end, [1], Key(num, 0));
    ReadKey(num, 0, []);
    i := PutByte(buf, i, 8 * num);
  }

  // The length and the key in front of a payload of n bytes that is already in place.
  method PutHeader(buf: array<byte>, end: nat, num: nat, n: nat) returns (i: nat)
    requires 1 <= num <= 15 && n <= MAX_INT && 1 + Sov(n) <= end <= buf.Length
    modifies buf
    ensures i == end - |Key(num, 2) + Encode(n)| && |Key(num, 2) + Encode(n)| == 1 + Sov(n)
    ensures buf[..] == Written(old(buf[..]), end, Key(num, 2) + Encode(n))
  {
    hide Written;
    i := PutVarint(buf, end, n);
    WrittenBefore(old(buf[..]), end, Encode(n), Key(num, 2));
    ReadKey(num, 2, []);
    i := PutByte(buf, i, 8 * num + 2);
  }

  method PutBytesField(buf: array<byte>, end: nat, num: nat, b: Bytes) returns (i: nat)
    requires 1 <= num <= 15 && |b| <= MAX_INT && 1 + |b| + Sov(|b|) <= end <= buf.Length
    modifies buf
    ensures i == end - |BytesField(num, b)| && |BytesField(num, b)| == 1 + |b| + Sov(|b|)
    ensures buf[..] == Written(old(buf[..]), end, BytesField(num, b))
  {
    hide Written, Key, Encode;
    BytesFieldSize(num, b);
    i := PutBytes(buf, end, b);
    ghost var header := Key(num, 2) + Encode(|b|);
    i := PutHeader(buf, i, num, |b|);
    WrittenBefore(old(buf[..]), end, b, header);
    assert header + b == BytesField(num, b);
  }
}
