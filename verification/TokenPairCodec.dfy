// TokenPair: Marshal, Size and Unmarshal of x/intrarelayer/types/intrarelayer.pb.go.
module TokenPairCodec {
  import opened Base
  import opened Varint
  import opened Wire
  import opened Message

  // Owner is an int32 of which the module uses three values.
  type Owner = int32
  const OWNER_UNSPECIFIED: Owner := 0
  const OWNER_MODULE: Owner := 1
  const OWNER_EXTERNAL: Owner := 2

  datatype TokenPair = TokenPair(erc20Address: Bytes, denom: Bytes, enabled: bool, contractOwner: Owner)

  // The value of new(TokenPair).
  const ZERO := TokenPair([], [], false, 0)

  // Specification of Marshal: the fields that differ from the zero value, in order.
  function Encoding(p: TokenPair): Bytes
  {
    Field1(p) + (Field2(p) + (Field3(p) + Field4(p)))
  }

  function Field1(p: TokenPair): Bytes
  {
    if |p.erc20Address| > 0 then BytesField(1, p.erc20Address) else []
  }

  function Field2(p: TokenPair): Bytes
  {
    if |p.denom| > 0 then BytesField(2, p.denom) else []
  }

  function Field3(p: TokenPair): Bytes
  {
    if p.enabled then VarintField(3, 1) else []
  }

  function Field4(p: TokenPair): Bytes
  {
    if p.contractOwner != 0 then VarintField(4, SignExtend(p.contractOwner)) else []
  }

  function Size(p: TokenPair): nat
  {
    (if |p.erc20Address| > 0 then 1 + |p.erc20Address| + Sov(|p.erc20Address|) else 0)
    + (if |p.denom| > 0 then 1 + |p.denom| + Sov(|p.denom|) else 0)
    + (if p.enabled then 2 else 0)
    + (if p.contractOwner != 0 then 1 + Sov(SignExtend(p.contractOwner)) else 0)
  }

  lemma FieldSizes(p: TokenPair)
    ensures |Field1(p)| + (|Field2(p)| + (|Field3(p)| + |Field4(p)|)) == |Encoding(p)| == Size(p)
    ensures |p.erc20Address| > 0 ==> |Field1(p)| == 1 + |p.erc20Address| + Sov(|p.erc20Address|)
    ensures |p.denom| > 0 ==> |Field2(p)| == 1 + |p.denom| + Sov(|p.denom|)
    ensures p.enabled ==> |Field3(p)| == 2
    ensures p.contractOwner != 0 ==> |Field4(p)| == 1 + Sov(SignExtend(p.contractOwner))
  {
    BytesFieldSize(1, p.erc20Address);
    BytesFieldSize(2, p.denom);
    VarintFieldSize(3, 1);
    VarintFieldSize(4, SignExtend(p.contractOwner));
  }

  // Size agrees with what is written, and only the zero pair is written as no bytes.
  lemma SizeIsLength(p: TokenPair)
    ensures |Encoding(p)| == Size(p)
    ensures |Encoding(p)| == 0 <==> p == ZERO
  {
    FieldSizes(p);
  }

  // A pair whose encoding a Go slice can hold.
  predicate Fits(p: TokenPair)
  {
    Size(p) <= MAX_INT
  }

  // One turn of the Unmarshal loop.
  function ReadField(s: Bytes, m: TokenPair): Option<Parsed<TokenPair>>
  {
    var tag :- ReadTag(s);
    var rest := s[tag.size..];
    match tag.num
    case 1 =>
      if tag.wire != 2 then None else
      var b :- ReadPayload(rest);
      Some(Parsed(m.(erc20Address := b.bytes), tag.size + b.size))
    case 2 =>
      if tag.wire != 2 then None else
      var b :- ReadPayload(rest);
      Some(Parsed(m.(denom := b.bytes), tag.size + b.size))
    case 3 =>
      if tag.wire != 0 then None else
      var v :- ReadUint64(rest);
      Some(Parsed(m.(enabled := v.value != 0), tag.size + v.size))
    case 4 =>
      if tag.wire != 0 then None else
      var v :- ReadUint64(rest);
      Some(Parsed(m.(contractOwner := ToInt32(v.value)), tag.size + v.size))
    case _ => UnknownField(s, m)
  }

  function DecodeInto(s: Bytes, m: TokenPair): Option<TokenPair>
  {
    Decode(ReadField, s, m)
  }

  // Unmarshal into a fresh value.
  function Decoding(s: Bytes): Option<TokenPair>
  {
    DecodeInto(s, ZERO)
  }

  lemma ReadFieldLocal(s: Bytes, m: TokenPair, t: Bytes)
    requires ReadField(s, m).Some?
    ensures 1 <= ReadField(s, m).value.size <= |s|
    ensures ReadField(s + t, m) == ReadField(s, m)
  {
    hide ReadTag, ReadPayload, ReadUint64, Skip;
    ReadTagLocal(s, t);
    var tag := ReadTag(s).value;
    var rest := s[tag.size..];
    assert (s + t)[tag.size..] == rest + t;
    match tag.num
    case 1 => ReadPayloadLocal(rest, t);
    case 2 => ReadPayloadLocal(rest, t);
    case 3 => ReadLocal(rest, t);
    case 4 => ReadLocal(rest, t);
    case _ => SkipLocal(s, t, 0);
  }

  lemma ReadFieldIsLocal()
    ensures Local(ReadField)
  {
    hide ReadField;
    forall s, m | ReadField(s, m).Some?
      ensures 1 <= ReadField(s, m).value.size <= |s|
      ensures forall t :: ReadField(s + t, m) == ReadField(s, m)
    {
      ReadFieldLocal(s, m, []);
      forall t: Bytes
        ensures ReadField(s + t, m) == ReadField(s, m)
      {
        ReadFieldLocal(s, m, t);
      }
    }
  }

  // ---- Round trip and merging --------------------------------------------------------

  // Last one wins, field by field: the fields that p writes replace those of m.
  function Merge(m: TokenPair, p: TokenPair): TokenPair
  {
    TokenPair(if |p.erc20Address| > 0 then p.erc20Address else m.erc20Address,
              if |p.denom| > 0 then p.denom else m.denom,
              m.enabled || p.enabled,
              if p.contractOwner != 0 then p.contractOwner else m.contractOwner)
  }

  lemma OwnerRoundTrip(o: Owner)
    ensures ToInt32(SignExtend(o)) == o
  {
  }

  lemma ReadField1(p: TokenPair, m: TokenPair, rest: Bytes)
    requires |p.erc20Address| <= MAX_INT
    ensures DecodeInto(Field1(p) + rest, m) ==
            DecodeInto(rest, if |p.erc20Address| > 0 then m.(erc20Address := p.erc20Address) else m)
  {
    hide ReadTag, ReadPayload;
    if |p.erc20Address| > 0 {
      ReadBytesField(1, p.erc20Address, rest);
      BytesFieldSize(1, p.erc20Address);
      DecodeField(ReadField, Field1(p), m, m.(erc20Address := p.erc20Address), rest);
    } else {
      assert Field1(p) + rest == rest;
    }
  }

  lemma ReadField2(p: TokenPair, m: TokenPair, rest: Bytes)
    requires |p.denom| <= MAX_INT
    ensures DecodeInto(Field2(p) + rest, m) ==
            DecodeInto(rest, if |p.denom| > 0 then m.(denom := p.denom) else m)
  {
    hide ReadTag, ReadPayload;
    if |p.denom| > 0 {
      ReadBytesField(2, p.denom, rest);
      BytesFieldSize(2, p.denom);
      DecodeField(ReadField, Field2(p), m, m.(denom := p.denom), rest);
    } else {
      assert Field2(p) + rest == rest;
    }
  }

  lemma ReadField3(p: TokenPair, m: TokenPair, rest: Bytes)
    ensures DecodeInto(Field3(p) + rest, m) ==
            DecodeInto(rest, if p.enabled then m.(enabled := true) else m)
  {
    hide ReadTag, ReadUint64;
    if p.enabled {
      ReadVarintField(3, 1, rest);
      VarintFieldSize(3, 1);
      DecodeField(ReadField, Field3(p), m, m.(enabled := true), rest);
    } else {
      assert Field3(p) + rest == rest;
    }
  }

  lemma ReadField4(p: TokenPair, m: TokenPair, rest: Bytes)
    ensures DecodeInto(Field4(p) + rest, m) ==
            DecodeInto(rest, if p.contractOwner != 0 then m.(contractOwner := p.contractOwner) else m)
  {
    hide ReadTag, ReadUint64;
    if p.contractOwner != 0 {
      var v := SignExtend(p.contractOwner);
      OwnerRoundTrip(p.contractOwner);
      ReadVarintField(4, v, rest);
      VarintFieldSize(4, v);
      DecodeField(ReadField, Field4(p), m, m.(contractOwner := p.contractOwner), rest);
    } else {
      assert Field4(p) + rest == rest;
    }
  }

  // Decoding what Marshal wrote, into any message and with anything after it.
  lemma UnmarshalMerges(p: TokenPair, m: TokenPair, rest: Bytes)
    requires Fits(p)
    ensures DecodeInto(Encoding(p) + rest, m) == DecodeInto(rest, Merge(m, p))
  {
    hide DecodeInto, Field1, Field2, Field3, Field4, Sov;
    var f1, f2, f3, f4 := Field1(p), Field2(p), Field3(p), Field4(p);
    assert Encoding(p) + rest == f1 + (f2 + (f3 + (f4 + rest)));
    ReadField1(p, m, f2 + (f3 + (f4 + rest)));
    var m1 := m.(erc20Address := Merge(m, p).erc20Address);
    ReadField2(p, m1, f3 + (f4 + rest));
    var m2 := m1.(denom := Merge(m, p).denom);
    ReadField3(p, m2, f4 + rest);
    var m3 := m2.(enabled := Merge(m, p).enabled);
    ReadField4(p, m3, rest);
  }

  // Unmarshal inverts Marshal for every pair, whatever int32 its owner is.
  lemma RoundTrip(p: TokenPair)
    requires Fits(p)
    ensures Decoding(Encoding(p)) == Some(p)
  {
    UnmarshalMerges(p, ZERO, []);
    assert Encoding(p) + [] == Encoding(p);
  }

  // Two pairs never share an encoding.
  lemma MarshalInjective(p: TokenPair, q: TokenPair)
    requires Fits(p) && Fits(q) && Encoding(p) == Encoding(q)
    ensures p == q
  {
    RoundTrip(p);
    RoundTrip(q);
  }

  // Decoding two encodings in a row lets the last one win, field by field.
  lemma ConcatenationMerges(p: TokenPair, q: TokenPair)
    requires Fits(p) && Fits(q)
    ensures Decoding(Encoding(p) + Encoding(q)) == Some(Merge(p, q))
  {
    UnmarshalMerges(p, ZERO, Encoding(q));
    UnmarshalMerges(q, p, []);
    assert Encoding(q) + [] == Encoding(q);
    assert Merge(ZERO, p) == p;
  }

  // Decoding any valid bytes followed by more bytes goes on from the decoded message.
  lemma DecodeInOrder(a: Bytes, b: Bytes, m: TokenPair)
    requires DecodeInto(a, m).Some?
    ensures DecodeInto(a + b, m) == DecodeInto(b, DecodeInto(a, m).value)
  {
    ReadFieldIsLocal();
    DecodeConcat(ReadField, a, b, m);
  }

  // Some field of these bytes has this number.
  ghost predicate Sets(s: Bytes, num: nat)
    decreases |s|
  {
    && |s| > 0 && ReadField(s, ZERO).Some? && ReadTag(s).Some?
    && (ReadTag(s).value.num == num
        || (1 <= ReadField(s, ZERO).value.size <= |s| && Sets(s[ReadField(s, ZERO).value.size..], num)))
  }

  // m with the fields that s sets taken from r.
  ghost function Overlay(s: Bytes, m: TokenPair, r: TokenPair): TokenPair
  {
    TokenPair(if Sets(s, 1) then r.erc20Address else m.erc20Address,
              if Sets(s, 2) then r.denom else m.denom,
              if Sets(s, 3) then r.enabled else m.enabled,
              if Sets(s, 4) then r.contractOwner else m.contractOwner)
  }

  lemma ReadFieldOverwrites(s: Bytes, m: TokenPair, m': TokenPair)
    ensures ReadField(s, m).Some? <==> ReadField(s, m').Some?
    ensures ReadField(s, m).Some? ==>
              var p, p', num := ReadField(s, m).value, ReadField(s, m').value, ReadTag(s).value.num;
              && p.size == p'.size
              && p.msg.erc20Address == (if num == 1 then p'.msg.erc20Address else m.erc20Address)
              && p.msg.denom == (if num == 2 then p'.msg.denom else m.denom)
              && p.msg.enabled == (if num == 3 then p'.msg.enabled else m.enabled)
              && p.msg.contractOwner == (if num == 4 then p'.msg.contractOwner else m.contractOwner)
  {
    hide ReadTag, ReadPayload, ReadUint64, Skip;
  }

  // Any two decodings of the same bytes agree on the fields that the bytes set, and keep the
  // fields of the message they started from on the others.
  lemma {:induction false} DecodingOverwrites(s: Bytes, m: TokenPair, m': TokenPair)
    ensures DecodeInto(s, m) ==
            if DecodeInto(s, m').None? then None else Some(Overlay(s, m, DecodeInto(s, m').value))
    decreases |s|
  {
    if |s| > 0 {
      ReadFieldOverwrites(s, m, m');
      ReadFieldOverwrites(s, m, ZERO);
      ReadFieldOverwrites(s, m', m);
      if ReadField(s, m).Some? {
        ReadFieldLocal(s, m, []);
        hide ReadField, ReadTag;
        var p, p' := ReadField(s, m).value, ReadField(s, m').value;
        DecodingOverwrites(s[p.size..], p.msg, p'.msg);
        DecodingOverwrites(s[p.size..], p'.msg, p.msg);
      }
    }
  }

  // Last one wins on any two valid encodings: each field comes from the second if the second
  // sets it and from the first otherwise.
  lemma LastOneWins(a: Bytes, b: Bytes)
    requires Decoding(a).Some? && Decoding(b).Some?
    ensures Decoding(a + b) == Some(Overlay(b, Decoding(a).value, Decoding(b).value))
  {
    hide DecodeInto, Sets;
    DecodeInOrder(a, b, ZERO);
    DecodingOverwrites(b, Decoding(a).value, ZERO);
  }

  // ---- Unknown fields ----------------------------------------------------------------

  // A field of the wire-format grammar whose number TokenPair does not use.
  ghost predicate IsUnknown(f: Field)
  {
    var tag := ReadTag(Render(f));
    WellFormed(f) && tag.Some? && tag.value.num > 4
  }

  // Unknown fields, nested groups included, can stand between any two valid parts of an
  // encoding without changing what is decoded.
  lemma UnknownFieldsAreTransparent(a: Bytes, f: Field, b: Bytes, m: TokenPair)
    requires IsUnknown(f) && DecodeInto(a, m).Some?
    ensures DecodeInto(a + Render(f) + b, m) == DecodeInto(a + b, m)
  {
    hide Skip, ReadTag, WellFormed, Render;
    var u := Render(f);
    var m' := DecodeInto(a, m).value;
    assert a + u + b == a + (u + b);
    DecodeInOrder(a, u + b, m);
    DecodeInOrder(a, b, m);
    SkipTakesField(f, b, 0);
    ReadTagLocal(u, b);
    DecodeField(ReadField, u, m', m', b);
  }

  // ---- What Unmarshal accepts --------------------------------------------------------

  // What a field means for a pair: fields 1 and 2 are bytes, 3 is true for any number but 0,
  // 4 is the low 32 bits of a number, and all others are ignored. A number that is not positive
  // and a known field of another wire type are refused.
  function Means(f: Field, m: TokenPair): Option<TokenPair>
  {
    var num, wire := FieldNumber(f), FieldWire(f);
    if num <= 0 then None
    else if num == 1 || num == 2 then
      if wire != 2 then None
      else if num == 1 then Some(m.(erc20Address := FieldPayload(f)))
      else Some(m.(denom := FieldPayload(f)))
    else if num == 3 || num == 4 then
      if wire != 0 then None
      else if num == 3 then Some(m.(enabled := FieldValue(f) != 0))
      else Some(m.(contractOwner := ToInt32(FieldValue(f))))
    else Some(m)
  }

  lemma FieldIsMeant(f: Field, m: TokenPair, rest: Bytes)
    requires WellFormed(f)
    ensures ReadField(Render(f) + rest, m) == Outcome(Means, f, m)
  {
    hide ReadTag, ReadPayload, ReadUint64, Skip, WellFormed, Render, FieldNumber, FieldWire, FieldValue, FieldPayload;
    TagIsRead(f, rest);
    var num, wire := FieldNumber(f), FieldWire(f);
    if (num == 1 || num == 2) && wire == 2 {
      PayloadIsRead(f, rest);
    } else if (num == 3 || num == 4) && wire == 0 {
      VarintIsRead(f, rest);
    } else if num > 4 {
      SkipTakesField(f, rest, 0);
    }
  }

  lemma TurnIsField(s: Bytes, m: TokenPair) returns (f: Field)
    requires ReadField(s, m).Some?
    ensures WellFormed(f) && Render(f) == s[..ReadField(s, m).value.size]
  {
    hide ReadTag, ReadPayload, ReadUint64, Skip, WellFormed, Render;
    var tag := ReadTag(s).value;
    if tag.num == 1 || tag.num == 2 {
      f := PayloadTurnIsField(s);
    } else if tag.num == 3 || tag.num == 4 {
      f := VarintTurnIsField(s);
    } else {
      f := SkippedIsField(s);
    }
  }

  lemma ReadsMeaning()
    ensures Reads(ReadField, Means)
  {
    hide ReadField, Means, WellFormed, Render;
    forall f, m, rest | WellFormed(f)
      ensures ReadField(Render(f) + rest, m) == Outcome(Means, f, m)
    {
      FieldIsMeant(f, m, rest);
    }
    forall s, m | ReadField(s, m).Some?
      ensures 1 <= ReadField(s, m).value.size <= |s|
      ensures exists f :: WellFormed(f) && Render(f) == s[..ReadField(s, m).value.size]
    {
      ReadFieldLocal(s, m, []);
      var f := TurnIsField(s, m);
    }
  }

  // Unmarshal into m gives r exactly when the bytes are well-formed fields, none of them
  // refused, that make r of m one after the other.
  lemma UnmarshalIff(s: Bytes, m: TokenPair, r: TokenPair)
    ensures DecodeInto(s, m) == Some(r) <==>
            exists fs :: AllWellFormed(fs) && RenderAll(fs) == s && MeaningOfAll(Means, fs, m) == Some(r)
  {
    ReadsMeaning();
    DecodesIff(ReadField, Means, s, m, r);
  }

  // The bytes that Marshal writes, fields in increasing order.
  lemma EncodingBytes(p: TokenPair)
    ensures Encoding(p) ==
            (if |p.erc20Address| > 0 then [0x0a] + Encode(|p.erc20Address|) + p.erc20Address else [])
            + (if |p.denom| > 0 then [0x12] + Encode(|p.denom|) + p.denom else [])
            + (if p.enabled then [0x18, 1] else [])
            + (if p.contractOwner != 0 then [0x20] + Encode(p.contractOwner % TWO_64) else [])
  {
    hide Encode, Sov, Encoding;
    EncodeSmall(0x20);
    FieldBytes(1, p.erc20Address);
    FieldBytes(2, p.denom);
    FieldBytes(3, []);
    FieldsInOrder(p);
  }

  lemma FieldsInOrder(p: TokenPair)
    ensures Encoding(p) == Field1(p) + Field2(p) + Field3(p) + Field4(p)
  {
    hide Field1, Field2, Field3, Field4;
  }

  // ---- The code ----------------------------------------------------------------------

  // MarshalToSizedBuffer on the slice buf[..end]: writes backwards from end.
  method MarshalToSizedBuffer(p: TokenPair, buf: array<byte>, end: nat) returns (n: nat)
    requires Size(p) <= end <= buf.Length <= MAX_INT
    modifies buf
    ensures n == Size(p) == |Encoding(p)|
    ensures buf[..] == Written(old(buf[..]), end, Encoding(p))
  {
    hide Written, BytesField, VarintField, Sov;
    FieldSizes(p);
    ghost var s, f1, f2, f3, f4 := buf[..], Field1(p), Field2(p), Field3(p), Field4(p);
    WrittenNothing(s, end);
    var i := end;
    if p.contractOwner != 0 {
      i := PutVarintField(buf, i, 4, SignExtend(p.contractOwner));
    }
    assert i == end - |f4| && buf[..] == Written(s, end, f4);
    WrittenBefore(s, end, f4, f3);
    WrittenNothing(buf[..], i);
    if p.enabled {
      i := PutBoolField(buf, i, 3);
    }
    assert i == end - |f3 + f4| && buf[..] == Written(s, end, f3 + f4);
    WrittenBefore(s, end, f3 + f4, f2);
    WrittenNothing(buf[..], i);
    if |p.denom| > 0 {
      i := PutBytesField(buf, i, 2, p.denom);
    }
    assert i == end - |f2 + (f3 + f4)| && buf[..] == Written(s, end, f2 + (f3 + f4));
    WrittenBefore(s, end, f2 + (f3 + f4), f1);
    WrittenNothing(buf[..], i);
    if |p.erc20Address| > 0 {
      i := PutBytesField(buf, i, 1, p.erc20Address);
    }
    return end - i;
  }

  // Marshal: a buffer of exactly Size bytes, filled from its end down to index 0.
  method Marshal(p: TokenPair) returns (data: array<byte>)
    requires Fits(p)
    ensures fresh(data) && data.Length == Size(p) && data[..] == Encoding(p)
  {
    var size := Size(p);
    data := new byte[size];
    var n := MarshalToSizedBuffer(p, data, size);
  }

  lemma DecodeTurn(s: Bytes, m: TokenPair)
    requires |s| > 0
    ensures var p := ReadField(s, m);
            DecodeInto(s, m) == if p.None? then None else DecodeInto(s[p.value.size..], p.value.msg)
  {
    hide ReadField;
    if ReadField(s, m).Some? {
      ReadFieldLocal(s, m, []);
    }
  }

  // Unmarshal into an existing message.
  method UnmarshalInto(data: Bytes, into: TokenPair) returns (r: Option<TokenPair>)
    requires |data| <= MAX_INT
    ensures r == DecodeInto(data, into)
  {
    hide ReadTag, ReadPayload, ReadUint64, DecodeInto;
    var m := into;
    var i := 0;
    while i < |data|
      invariant 0 <= i <= |data|
      invariant DecodeInto(data, into) == DecodeInto(data[i..], m)
      decreases |data| - i
    {
      DecodeTurn(data[i..], m);
      var p := UnmarshalField(data, i, m);
      if p.None? {
        return None;
      }
      assert data[i..][p.value.size..] == data[i + p.value.size..];
      m, i := p.value.msg, i + p.value.size;
    }
    assert data[i..] == [];
    DecodeNothing(m);
    return Some(m);
  }

  lemma DecodeNothing(m: TokenPair)
    ensures DecodeInto([], m) == Some(m)
  {
  }

  // The body of the Unmarshal loop.
  method UnmarshalField(data: Bytes, preIndex: nat, into: TokenPair) returns (r: Option<Parsed<TokenPair>>)
    requires preIndex < |data| <= MAX_INT
    ensures r == ReadField(data[preIndex..], into)
  {
    hide Groups, ReadPayload, ReadUint64, ToInt32, Skip;
    var iNdEx, m := preIndex, into;
    var wire := DecodeVarint(data, iNdEx);
    if wire.None? {
      return None;
    }
    iNdEx := iNdEx + wire.value.size;
    assert data[preIndex..][wire.value.size..] == data[iNdEx..];
    var fieldNum := ToInt32(wire.value.value / 8);
    var wireType := wire.value.value % 8;
    if wireType == 4 {
      return None;
    }
    if fieldNum <= 0 {
      return None;
    }
    match fieldNum {
      case 1 =>
        if wireType != 2 {
          return None;
        }
        var ok, from, post := DecodePayload(data, iNdEx);
        if !ok {
          return None;
        }
        m := m.(erc20Address := data[from..post]);
        iNdEx := post;
      case 2 =>
        if wireType != 2 {
          return None;
        }
        var ok, from, post := DecodePayload(data, iNdEx);
        if !ok {
          return None;
        }
        m := m.(denom := data[from..post]);
        iNdEx := post;
      case 3 =>
        if wireType != 0 {
          return None;
        }
        var v := DecodeVarint(data, iNdEx);
        if v.None? {
          return None;
        }
        iNdEx := iNdEx + v.value.size;
        m := m.(enabled := v.value.value != 0);
      case 4 =>
        if wireType != 0 {
          return None;
        }
        var owner, size, ok := DecodeInt32(data, iNdEx);
        if !ok {
          return None;
        }
        iNdEx := iNdEx + size;
        m := m.(contractOwner := owner);
      case _ =>
        var skipped := SkipAt(data, preIndex);
        if skipped.None? {
          return None;
        }
        iNdEx := preIndex + skipped.value;
    }
    return Some(Parsed(m, iNdEx - preIndex));
  }

  method Unmarshal(data: Bytes) returns (r: Option<TokenPair>)
    requires |data| <= MAX_INT
    ensures r == Decoding(data)
  {
    r := UnmarshalInto(data, ZERO);
  }
}
