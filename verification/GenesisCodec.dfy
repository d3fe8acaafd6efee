// Params and GenesisState: Marshal, Size and Unmarshal of x/intrarelayer/types/genesis.pb.go.
module GenesisCodec {
  import opened Base
  import opened Varint
  import opened Wire
  import opened Message
  import TokenPairCodec

  type TokenPair = TokenPairCodec.TokenPair

  // StdDurationMarshalTo and StdDurationUnmarshal, which are library code.
  datatype DurationCodec = DurationCodec(encode: int64 -> Bytes, decode: Bytes -> Option<int64>) {
    ghost predicate Sound() {
      forall d: int64 :: decode(encode(d)) == Some(d)
    }
  }

  datatype Params = Params(enableIntrarelayer: bool, tokenPairVotingPeriod: int64, enableEVMHook: bool)

  datatype GenesisState = GenesisState(params: Params, tokenPairs: seq<TokenPair>)

  const ZERO_PARAMS := Params(false, 0, false)
  const ZERO_GENESIS := GenesisState(ZERO_PARAMS, [])

  // ---- Specification of Marshal and Size ---------------------------------------------

  function BoolField(num: nat, b: bool): Bytes
  {
    if b then VarintField(num, 1) else []
  }

  function ParamsEncoding(dur: DurationCodec, p: Params): Bytes
  {
    BoolField(1, p.enableIntrarelayer)
    + (BytesField(2, dur.encode(p.tokenPairVotingPeriod)) + BoolField(3, p.enableEVMHook))
  }

  function ParamsSize(dur: DurationCodec, p: Params): nat
  {
    var l := |dur.encode(p.tokenPairVotingPeriod)|;
    (if p.enableIntrarelayer then 2 else 0) + (1 + l + Sov(l)) + (if p.enableEVMHook then 2 else 0)
  }

  function PairsEncoding(ps: seq<TokenPair>): Bytes
  {
    if |ps| == 0 then [] else BytesField(2, TokenPairCodec.Encoding(ps[0])) + PairsEncoding(ps[1..])
  }

  function PairsSize(ps: seq<TokenPair>): nat
  {
    if |ps| == 0 then 0
    else
      var l := TokenPairCodec.Size(ps[0]);
      1 + l + Sov(l) + PairsSize(ps[1..])
  }

  function Encoding(dur: DurationCodec, g: GenesisState): Bytes
  {
    BytesField(1, ParamsEncoding(dur, g.params)) + PairsEncoding(g.tokenPairs)
  }

  function Size(dur: DurationCodec, g: GenesisState): nat
  {
    var l := ParamsSize(dur, g.params);
    1 + l + Sov(l) + PairsSize(g.tokenPairs)
  }

  lemma BoolFieldSize(num: nat, b: bool)
    requires 1 <= num <= 15
    ensures |BoolField(num, b)| == if b then 2 else 0
  {
    VarintFieldSize(num, 1);
  }

  lemma ParamsSizeIsLength(dur: DurationCodec, p: Params)
    ensures |ParamsEncoding(dur, p)| == ParamsSize(dur, p)
  {
    hide BoolField, BytesField, Sov;
    BoolFieldSize(1, p.enableIntrarelayer);
    BoolFieldSize(3, p.enableEVMHook);
    BytesFieldSize(2, dur.encode(p.tokenPairVotingPeriod));
  }

  lemma {:induction false} PairsSizeIsLength(ps: seq<TokenPair>)
    ensures |PairsEncoding(ps)| == PairsSize(ps)
  {
    hide BytesField, Sov, TokenPairCodec.Encoding, TokenPairCodec.Size;
    if |ps| > 0 {
      TokenPairCodec.SizeIsLength(ps[0]);
      BytesFieldSize(2, TokenPairCodec.Encoding(ps[0]));
      PairsSizeIsLength(ps[1..]);
    }
  }

  // Nested lengths agree with the sizes of the nested messages.
  lemma SizeIsLength(dur: DurationCodec, g: GenesisState)
    ensures |Encoding(dur, g)| == Size(dur, g)
  {
    hide BytesField, Sov, ParamsEncoding, ParamsSize, PairsEncoding, PairsSize;
    ParamsSizeIsLength(dur, g.params);
    BytesFieldSize(1, ParamsEncoding(dur, g.params));
    PairsSizeIsLength(g.tokenPairs);
  }

  // ---- Specification of Unmarshal ----------------------------------------------------

  function ReadParamsField(dur: DurationCodec, s: Bytes, m: Params): Option<Parsed<Params>>
  {
    var tag :- ReadTag(s);
    var rest := s[tag.size..];
    match tag.num
    case 1 =>
      if tag.wire != 0 then None else
      var v :- ReadUint64(rest);
      Some(Parsed(m.(enableIntrarelayer := v.value != 0), tag.size + v.size))
    case 2 =>
      if tag.wire != 2 then None else
      var b :- ReadPayload(rest);
      var d :- dur.decode(b.bytes);
      Some(Parsed(m.(tokenPairVotingPeriod := d), tag.size + b.size))
    case 3 =>
      if tag.wire != 0 then None else
      var v :- ReadUint64(rest);
      Some(Parsed(m.(enableEVMHook := v.value != 0), tag.size + v.size))
    case _ => UnknownField(s, m)
  }

  function ParamsReader(dur: DurationCodec): FieldReader<Params>
  {
    (s: Bytes, m: Params) => ReadParamsField(dur, s, m)
  }

  function DecodeParams(dur: DurationCodec, s: Bytes, m: Params): Option<Params>
  {
    Decode(ParamsReader(dur), s, m)
  }

  function ReadGenesisField(dur: DurationCodec, s: Bytes, m: GenesisState): Option<Parsed<GenesisState>>
  {
    var tag :- ReadTag(s);
    var rest := s[tag.size..];
    match tag.num
    case 1 =>
      if tag.wire != 2 then None else
      var b :- ReadPayload(rest);
      var p :- DecodeParams(dur, b.bytes, m.params);
      Some(Parsed(m.(params := p), tag.size + b.size))
    case 2 =>
      if tag.wire != 2 then None else
      var b :- ReadPayload(rest);
      var p :- TokenPairCodec.Decoding(b.bytes);
      Some(Parsed(m.(tokenPairs := m.tokenPairs + [p]), tag.size + b.size))
    case _ => UnknownField(s, m)
  }

  function GenesisReader(dur: DurationCodec): FieldReader<GenesisState>
  {
    (s: Bytes, m: GenesisState) => ReadGenesisField(dur, s, m)
  }

  function DecodeInto(dur: DurationCodec, s: Bytes, m: GenesisState): Option<GenesisState>
  {
    Decode(GenesisReader(dur), s, m)
  }

  function Decoding(dur: DurationCodec, s: Bytes): Option<GenesisState>
  {
    DecodeInto(dur, s, ZERO_GENESIS)
  }

  // ---- Round trip --------------------------------------------------------------------

  lemma ReadBool(dur: DurationCodec, num: nat, b: bool, m: Params, m': Params, rest: Bytes)
    requires num == 1 || num == 3
    requires m' == if !b then m else if num == 1 then m.(enableIntrarelayer := true) else m.(enableEVMHook := true)
    ensures DecodeParams(dur, BoolField(num, b) + rest, m) == DecodeParams(dur, rest, m')
  {
    hide ReadTag, ReadUint64;
    if b {
      ReadVarintField(num, 1, rest);
      VarintFieldSize(num, 1);
      DecodeField(ParamsReader(dur), BoolField(num, b), m, m', rest);
    } else {
      assert BoolField(num, b) + rest == rest;
    }
  }

  lemma ReadPeriod(dur: DurationCodec, d: int64, m: Params, rest: Bytes)
    requires dur.Sound() && |dur.encode(d)| <= MAX_INT
    ensures DecodeParams(dur, BytesField(2, dur.encode(d)) + rest, m) ==
            DecodeParams(dur, rest, m.(tokenPairVotingPeriod := d))
  {
    hide ReadTag, ReadPayload;
    var b := dur.encode(d);
    ReadBytesField(2, b, rest);
    BytesFieldSize(2, b);
    DecodeField(ParamsReader(dur), BytesField(2, b), m, m.(tokenPairVotingPeriod := d), rest);
  }

  // Unmarshal of written Params into existing Params: the bools only ever turn on.
  lemma ParamsMerge(dur: DurationCodec, p: Params, m: Params)
    requires dur.Sound() && ParamsSize(dur, p) <= MAX_INT
    ensures DecodeParams(dur, ParamsEncoding(dur, p), m) ==
            Some(Params(m.enableIntrarelayer || p.enableIntrarelayer, p.tokenPairVotingPeriod,
                        m.enableEVMHook || p.enableEVMHook))
  {
    var b1, b2, b3 := BoolField(1, p.enableIntrarelayer), BytesField(2, dur.encode(p.tokenPairVotingPeriod)),
                      BoolField(3, p.enableEVMHook);
    var m1 := m.(enableIntrarelayer := m.enableIntrarelayer || p.enableIntrarelayer);
    var m2 := m1.(tokenPairVotingPeriod := p.tokenPairVotingPeriod);
    var m3 := m2.(enableEVMHook := m.enableEVMHook || p.enableEVMHook);
    assert DecodeParams(dur, [], m3) == Some(m3);
    hide BoolField, BytesField, DecodeParams;
    ReadBool(dur, 1, p.enableIntrarelayer, m, m1, b2 + b3);
    ReadPeriod(dur, p.tokenPairVotingPeriod, m1, b3);
    ReadBool(dur, 3, p.enableEVMHook, m2, m3, []);
    assert b3 + [] == b3;
  }

  // One turn over a payload field.
  lemma ReadPayloadTurn(dur: DurationCodec, num: nat, b: Bytes, m: GenesisState, rest: Bytes)
    requires (num == 1 || num == 2) && |b| <= MAX_INT
    ensures |BytesField(num, b)| > 0
    ensures ReadGenesisField(dur, BytesField(num, b) + rest, m) ==
            if num == 1 then
              var p := DecodeParams(dur, b, m.params);
              if p.None? then None else Some(Parsed(m.(params := p.value), |BytesField(num, b)|))
            else
              var p := TokenPairCodec.Decoding(b);
              if p.None? then None
              else Some(Parsed(m.(tokenPairs := m.tokenPairs + [p.value]), |BytesField(num, b)|))
  {
    ReadBytesField(num, b, rest);
    BytesFieldSize(num, b);
    hide ReadTag, ReadPayload, DecodeParams, TokenPairCodec.Decoding, Skip, BytesField;
  }

  lemma ReadPair(dur: DurationCodec, p: TokenPair, m: GenesisState, rest: Bytes)
    requires TokenPairCodec.Fits(p)
    ensures DecodeInto(dur, BytesField(2, TokenPairCodec.Encoding(p)) + rest, m) ==
            DecodeInto(dur, rest, m.(tokenPairs := m.tokenPairs + [p]))
  {
    TokenPairCodec.SizeIsLength(p);
    TokenPairCodec.RoundTrip(p);
    hide TokenPairCodec.Encoding, TokenPairCodec.Decoding, ReadGenesisField, BytesField;
    var b := TokenPairCodec.Encoding(p);
    ReadPayloadTurn(dur, 2, b, m, rest);
    DecodeField(GenesisReader(dur), BytesField(2, b), m, m.(tokenPairs := m.tokenPairs + [p]), rest);
  }

  lemma {:induction false} ReadPairs(dur: DurationCodec, ps: seq<TokenPair>, m: GenesisState, rest: Bytes)
    requires PairsSize(ps) <= MAX_INT
    ensures DecodeInto(dur, PairsEncoding(ps) + rest, m) ==
            DecodeInto(dur, rest, m.(tokenPairs := m.tokenPairs + ps))
    decreases |ps|
  {
    hide DecodeInto, BytesField, Sov, TokenPairCodec.Encoding, TokenPairCodec.Size;
    if |ps| == 0 {
      assert PairsEncoding(ps) + rest == rest;
      assert m.tokenPairs + ps == m.tokenPairs;
    } else {
      var b := BytesField(2, TokenPairCodec.Encoding(ps[0]));
      var m' := m.(tokenPairs := m.tokenPairs + [ps[0]]);
      assert PairsEncoding(ps) + rest == b + (PairsEncoding(ps[1..]) + rest);
      ReadPair(dur, ps[0], m, PairsEncoding(ps[1..]) + rest);
      ReadPairs(dur, ps[1..], m', rest);
      assert m.tokenPairs + [ps[0]] + ps[1..] == m.tokenPairs + ps;
    }
  }

  lemma ReadParams(dur: DurationCodec, p: Params, m: GenesisState, m': GenesisState, rest: Bytes)
    requires dur.Sound() && ParamsSize(dur, p) <= MAX_INT
    requires m' == m.(params := Params(m.params.enableIntrarelayer || p.enableIntrarelayer, p.tokenPairVotingPeriod,
                                       m.params.enableEVMHook || p.enableEVMHook))
    ensures DecodeInto(dur, BytesField(1, ParamsEncoding(dur, p)) + rest, m) == DecodeInto(dur, rest, m')
  {
    ParamsSizeIsLength(dur, p);
    ParamsMerge(dur, p, m.params);
    hide ParamsEncoding, DecodeParams, ReadGenesisField, BytesField;
    var b := ParamsEncoding(dur, p);
    ReadPayloadTurn(dur, 1, b, m, rest);
    DecodeField(GenesisReader(dur), BytesField(1, b), m, m', rest);
  }

  // Decoding a written genesis state into any message merges the params and appends the
  // token pairs.
  lemma UnmarshalMerges(dur: DurationCodec, g: GenesisState, m: GenesisState, rest: Bytes)
    requires dur.Sound() && Size(dur, g) <= MAX_INT
    ensures DecodeInto(dur, Encoding(dur, g) + rest, m) ==
            DecodeInto(dur, rest, Merge(m, g))
  {
    hide DecodeInto, BytesField, ParamsEncoding, PairsEncoding, ParamsSize, PairsSize, Sov;
    var b, ps := BytesField(1, ParamsEncoding(dur, g.params)), PairsEncoding(g.tokenPairs);
    assert Encoding(dur, g) + rest == b + (ps + rest);
    var m' := m.(params := Merge(m, g).params);
    ReadParams(dur, g.params, m, m', ps + rest);
    ReadPairs(dur, g.tokenPairs, m', rest);
  }

  function Merge(m: GenesisState, g: GenesisState): GenesisState
  {
    GenesisState(Params(m.params.enableIntrarelayer || g.params.enableIntrarelayer,
                        g.params.tokenPairVotingPeriod,
                        m.params.enableEVMHook || g.params.enableEVMHook),
                 m.tokenPairs + g.tokenPairs)
  }

  lemma DecodeNothing(dur: DurationCodec, m: GenesisState)
    ensures DecodeInto(dur, [], m) == Some(m)
  {
  }

  // Unmarshal inverts Marshal for every genesis state.
  lemma RoundTrip(dur: DurationCodec, g: GenesisState)
    requires dur.Sound() && Size(dur, g) <= MAX_INT
    ensures Decoding(dur, Encoding(dur, g)) == Some(g)
  {
    DecodeNothing(dur, g);
    hide DecodeInto, Encoding, Size;
    UnmarshalMerges(dur, g, ZERO_GENESIS, []);
    assert Encoding(dur, g) + [] == Encoding(dur, g);
    assert [] + g.tokenPairs == g.tokenPairs;
  }

  // Decoding two encodings in a row concatenates the token pairs.
  lemma ConcatenationMerges(dur: DurationCodec, g: GenesisState, h: GenesisState)
    requires dur.Sound() && Size(dur, g) <= MAX_INT && Size(dur, h) <= MAX_INT
    ensures Decoding(dur, Encoding(dur, g) + Encoding(dur, h)) == Some(Merge(g, h))
  {
    DecodeNothing(dur, Merge(g, h));
    hide DecodeInto, Encoding, Size;
    UnmarshalMerges(dur, g, ZERO_GENESIS, Encoding(dur, h));
    assert [] + g.tokenPairs == g.tokenPairs;
    assert Merge(ZERO_GENESIS, g) == g;
    UnmarshalMerges(dur, h, g, []);
    assert Encoding(dur, h) + [] == Encoding(dur, h);
  }

  // ---- The code ----------------------------------------------------------------------

  method MarshalParamsToSizedBuffer(dur: DurationCodec, p: Params, buf: array<byte>, end: nat) returns (n: nat)
    requires ParamsSize(dur, p) <= end <= buf.Length <= MAX_INT
    modifies buf
    ensures n == ParamsSize(dur, p) == |ParamsEncoding(dur, p)|
    ensures buf[..] == Written(old(buf[..]), end, ParamsEncoding(dur, p))
  {
    hide Written, BytesField, VarintField, Sov;
    ParamsSizeIsLength(dur, p);
    BoolFieldSize(1, p.enableIntrarelayer);
    BoolFieldSize(3, p.enableEVMHook);
    var period := dur.encode(p.tokenPairVotingPeriod);
    BytesFieldSize(2, period);
    ghost var s := buf[..];
    ghost var b1, b2, b3 := BoolField(1, p.enableIntrarelayer), BytesField(2, period), BoolField(3, p.enableEVMHook);
    WrittenNothing(s, end);
    var i := end;
    if p.enableEVMHook {
      i := PutBoolField(buf, i, 3);
    }
    assert i == end - |b3| && buf[..] == Written(s, end, b3);
    WrittenBefore(s, end, b3, b2);
    i := PutBytesField(buf, i, 2, period);
    WrittenBefore(s, end, b2 + b3, b1);
    WrittenNothing(buf[..], i);
    if p.enableIntrarelayer {
      i := PutBoolField(buf, i, 1);
    }
    return end - i;
  }

  // MarshalToSizedBuffer of GenesisState: token pairs from the last to the first, then params.
  method MarshalToSizedBuffer(dur: DurationCodec, g: GenesisState, buf: array<byte>, end: nat) returns (n: nat)
    requires Size(dur, g) <= end <= buf.Length <= MAX_INT
    modifies buf
    ensures n == Size(dur, g) == |Encoding(dur, g)|
    ensures buf[..] == Written(old(buf[..]), end, Encoding(dur, g))
  {
    hide Written, BytesField, Sov, TokenPairCodec.Encoding, TokenPairCodec.Size, ParamsEncoding, ParamsSize;
    SizeIsLength(dur, g);
    ParamsSizeIsLength(dur, g.params);
    PairsSizeIsLength(g.tokenPairs);
    var ps := g.tokenPairs;
    ghost var s := buf[..];
    WrittenNothing(s, end);
    var i, k := end, |ps|;
    assert ps[..k] == ps && |ps[k..]| == 0;
    while k > 0
      invariant 0 <= k <= |ps|
      invariant |PairsEncoding(ps[k..])| == PairsSize(ps[k..]) <= end && i == end - PairsSize(ps[k..])
      invariant PairsSize(ps[..k]) + PairsSize(ps[k..]) == PairsSize(ps)
      invariant buf[..] == Written(s, end, PairsEncoding(ps[k..]))
    {
      k := k - 1;
      TailSplit(ps, k);
      ghost var later := PairsEncoding(ps[k + 1..]);
      i := PutPair(buf, i, ps[k]);
      WrittenBefore(s, end, later, BytesField(2, TokenPairCodec.Encoding(ps[k])));
    }
    assert ps[0..] == ps;
    i := PutParams(dur, buf, i, g.params);
    WrittenBefore(s, end, PairsEncoding(ps), BytesField(1, ParamsEncoding(dur, g.params)));
    return end - i;
  }

  lemma {:induction false} PairsSizeSplit(ps: seq<TokenPair>, k: nat)
    requires k <= |ps|
    ensures PairsSize(ps[..k]) + PairsSize(ps[k..]) == PairsSize(ps)
  {
    hide Sov, TokenPairCodec.Size;
    if k == 0 {
      assert ps[0..] == ps;
    } else {
      PairsSizeSplit(ps[1..], k - 1);
      assert ps[..k][1..] == ps[1..][..k - 1];
      assert ps[1..][k - 1..] == ps[k..];
    }
  }

  lemma TailSplit(ps: seq<TokenPair>, k: nat)
    requires k < |ps|
    ensures PairsEncoding(ps[k..]) == BytesField(2, TokenPairCodec.Encoding(ps[k])) + PairsEncoding(ps[k + 1..])
    ensures PairsSize(ps[k..]) ==
            1 + TokenPairCodec.Size(ps[k]) + Sov(TokenPairCodec.Size(ps[k])) + PairsSize(ps[k + 1..])
    ensures PairsSize(ps[..k]) + PairsSize(ps[k..]) == PairsSize(ps)
    ensures |PairsEncoding(ps[k..])| == PairsSize(ps[k..])
  {
    hide BytesField, Sov, TokenPairCodec.Encoding, TokenPairCodec.Size;
    PairsSizeSplit(ps, k);
    PairsSizeIsLength(ps[k..]);
    assert ps[k..][1..] == ps[k + 1..];
  }

  // One element of the loop: the nested message, its length and its key.
  method PutPair(buf: array<byte>, end: nat, p: TokenPair) returns (i: nat)
    requires 1 + TokenPairCodec.Size(p) + Sov(TokenPairCodec.Size(p)) <= end <= buf.Length <= MAX_INT
    modifies buf
    ensures i == end - |BytesField(2, TokenPairCodec.Encoding(p))|
    ensures |BytesField(2, TokenPairCodec.Encoding(p))| == 1 + TokenPairCodec.Size(p) + Sov(TokenPairCodec.Size(p))
    ensures buf[..] == Written(old(buf[..]), end, BytesField(2, TokenPairCodec.Encoding(p)))
  {
    hide Written, TokenPairCodec.Size, TokenPairCodec.Encoding, Sov, Key, Encode;
    var size := TokenPairCodec.MarshalToSizedBuffer(p, buf, end);
    ghost var b := TokenPairCodec.Encoding(p);
    BytesFieldSize(2, b);
    i := PutHeader(buf, end - size, 2, size);
    WrittenBefore(old(buf[..]), end, b, Key(2, 2) + Encode(size));
    assert Key(2, 2) + Encode(size) + b == BytesField(2, b);
  }

  method PutParams(dur: DurationCodec, buf: array<byte>, end: nat, p: Params) returns (i: nat)
    requires 1 + ParamsSize(dur, p) + Sov(ParamsSize(dur, p)) <= end <= buf.Length <= MAX_INT
    modifies buf
    ensures i == end - |BytesField(1, ParamsEncoding(dur, p))|
    ensures |BytesField(1, ParamsEncoding(dur, p))| == 1 + ParamsSize(dur, p) + Sov(ParamsSize(dur, p))
    ensures buf[..] == Written(old(buf[..]), end, BytesField(1, ParamsEncoding(dur, p)))
  {
    hide Written, ParamsSize, ParamsEncoding, Sov, Key, Encode;
    var size := MarshalParamsToSizedBuffer(dur, p, buf, end);
    ghost var b := ParamsEncoding(dur, p);
    BytesFieldSize(1, b);
    i := PutHeader(buf, end - size, 1, size);
    WrittenBefore(old(buf[..]), end, b, Key(1, 2) + Encode(size));
    assert Key(1, 2) + Encode(size) + b == BytesField(1, b);
  }

  method Marshal(dur: DurationCodec, g: GenesisState) returns (data: array<byte>)
    requires Size(dur, g) <= MAX_INT
    ensures fresh(data) && data.Length == Size(dur, g) && data[..] == Encoding(dur, g)
  {
    hide Encoding, Size;
    var size := Size(dur, g);
    data := new byte[size];
    var n := MarshalToSizedBuffer(dur, g, data, size);
  }

  // ---- Unmarshal ---------------------------------------------------------------------

  lemma ReadGenesisFieldLocal(dur: DurationCodec, s: Bytes, m: GenesisState, t: Bytes)
    requires ReadGenesisField(dur, s, m).Some?
    ensures 1 <= ReadGenesisField(dur, s, m).value.size <= |s|
    ensures ReadGenesisField(dur, s + t, m) == ReadGenesisField(dur, s, m)
  {
    hide ReadTag, ReadPayload, Skip, DecodeParams, TokenPairCodec.Decoding;
    ReadTagLocal(s, t);
    var tag := ReadTag(s).value;
    assert (s + t)[tag.size..] == s[tag.size..] + t;
    if tag.num == 1 || tag.num == 2 {
      ReadPayloadLocal(s[tag.size..], t);
    } else {
      SkipLocal(s, t, 0);
    }
  }

  lemma ReadParamsFieldLocal(dur: DurationCodec, s: Bytes, m: Params, t: Bytes)
    requires ReadParamsField(dur, s, m).Some?
    ensures 1 <= ReadParamsField(dur, s, m).value.size <= |s|
    ensures ReadParamsField(dur, s + t, m) == ReadParamsField(dur, s, m)
  {
    hide ReadTag, ReadPayload, ReadUint64, Skip;
    ReadTagLocal(s, t);
    var tag := ReadTag(s).value;
    assert (s + t)[tag.size..] == s[tag.size..] + t;
    if tag.num == 2 {
      ReadPayloadLocal(s[tag.size..], t);
    } else if tag.num == 1 || tag.num == 3 {
      ReadLocal(s[tag.size..], t);
    } else {
      SkipLocal(s, t, 0);
    }
  }

  lemma GenesisReaderIsLocal(dur: DurationCodec)
    ensures Local(GenesisReader(dur))
  {
    var field := GenesisReader(dur);
    forall s, m | field(s, m).Some?
      ensures 1 <= field(s, m).value.size <= |s|
      ensures forall t :: field(s + t, m) == field(s, m)
    {
      hide ReadGenesisField;
      ReadGenesisFieldLocal(dur, s, m, []);
      forall t: Bytes
        ensures field(s + t, m) == field(s, m)
      {
        ReadGenesisFieldLocal(dur, s, m, t);
      }
    }
  }

  // Reading a field does not look at the pairs read so far.
  lemma ReadGenesisFieldAppends(dur: DurationCodec, s: Bytes, m: GenesisState, ps: seq<TokenPair>)
    ensures var r, r' := ReadGenesisField(dur, s, m), ReadGenesisField(dur, s, m.(tokenPairs := ps + m.tokenPairs));
            r' == if r.None? then None
                  else Some(Parsed(r.value.msg.(tokenPairs := ps + r.value.msg.tokenPairs), r.value.size))
  {
    hide ReadTag, ReadPayload, Skip, DecodeParams, TokenPairCodec.Decoding;
    forall p: TokenPair
      ensures ps + m.tokenPairs + [p] == ps + (m.tokenPairs + [p])
    {
    }
  }

  lemma {:induction false} DecodingAppends(dur: DurationCodec, s: Bytes, m: GenesisState, ps: seq<TokenPair>)
    ensures var r := DecodeInto(dur, s, m);
            DecodeInto(dur, s, m.(tokenPairs := ps + m.tokenPairs)) ==
            if r.None? then None else Some(r.value.(tokenPairs := ps + r.value.tokenPairs))
    decreases |s|
  {
    if |s| > 0 {
      GenesisTurn(dur, s, m);
      var m' := m.(tokenPairs := ps + m.tokenPairs);
      GenesisTurn(dur, s, m');
      ReadGenesisFieldAppends(dur, s, m, ps);
      var p := ReadGenesisField(dur, s, m);
      if p.Some? {
        ReadGenesisFieldLocal(dur, s, m, []);
        hide DecodeInto, ReadGenesisField;
        DecodingAppends(dur, s[p.value.size..], p.value.msg, ps);
      }
    }
  }

  // Whether bytes decode as params, and how many bytes each field takes, does not depend on the
  // params that they are merged into.
  lemma {:induction false} ParamsDecodeAlike(dur: DurationCodec, s: Bytes, m: Params, m': Params)
    ensures DecodeParams(dur, s, m).Some? <==> DecodeParams(dur, s, m').Some?
    decreases |s|
  {
    if |s| > 0 {
      ParamsTurn(dur, s, m);
      ParamsTurn(dur, s, m');
      ParamsFieldAlike(dur, s, m, m');
      var p, p' := ReadParamsField(dur, s, m), ReadParamsField(dur, s, m');
      if p.Some? {
        ReadParamsFieldLocal(dur, s, m, []);
        hide DecodeParams, ReadParamsField;
        ParamsDecodeAlike(dur, s[p.value.size..], p.value.msg, p'.value.msg);
      }
    }
  }

  lemma ParamsFieldAlike(dur: DurationCodec, s: Bytes, m: Params, m': Params)
    ensures var p, p' := ReadParamsField(dur, s, m), ReadParamsField(dur, s, m');
            (p.Some? <==> p'.Some?) && (p.Some? ==> p.value.size == p'.value.size)
  {
    hide ReadTag, ReadPayload, ReadUint64, Skip;
  }

  lemma GenesisFieldAlike(dur: DurationCodec, s: Bytes, m: GenesisState, m': GenesisState)
    requires m.tokenPairs == m'.tokenPairs
    ensures var p, p' := ReadGenesisField(dur, s, m), ReadGenesisField(dur, s, m');
            && (p.Some? <==> p'.Some?)
            && (p.Some? ==> p.value.size == p'.value.size && p.value.msg.tokenPairs == p'.value.msg.tokenPairs)
  {
    hide ReadTag, ReadPayload, Skip, DecodeParams, TokenPairCodec.Decoding;
    forall b: Bytes
      ensures DecodeParams(dur, b, m.params).Some? <==> DecodeParams(dur, b, m'.params).Some?
    {
      ParamsDecodeAlike(dur, b, m.params, m'.params);
    }
  }

  lemma {:induction false} GenesisDecodeAlike(dur: DurationCodec, s: Bytes, m: GenesisState, m': GenesisState)
    requires m.tokenPairs == m'.tokenPairs
    ensures var r, r' := DecodeInto(dur, s, m), DecodeInto(dur, s, m');
            (r.Some? <==> r'.Some?) && (r.Some? ==> r.value.tokenPairs == r'.value.tokenPairs)
    decreases |s|
  {
    if |s| > 0 {
      GenesisTurn(dur, s, m);
      GenesisTurn(dur, s, m');
      GenesisFieldAlike(dur, s, m, m');
      var p, p' := ReadGenesisField(dur, s, m), ReadGenesisField(dur, s, m');
      if p.Some? {
        ReadGenesisFieldLocal(dur, s, m, []);
        hide DecodeInto, ReadGenesisField;
        GenesisDecodeAlike(dur, s[p.value.size..], p.value.msg, p'.value.msg);
      }
    }
  }

  // Any two valid encodings in a row are valid: their token pairs are concatenated, and the
  // params are what the second makes of the params of the first.
  lemma PairsConcatenate(dur: DurationCodec, a: Bytes, b: Bytes)
    requires Decoding(dur, a).Some? && Decoding(dur, b).Some?
    ensures var first, second := Decoding(dur, a).value, Decoding(dur, b).value;
            var merged := DecodeInto(dur, b, first.(tokenPairs := []));
            && merged.Some?
            && Decoding(dur, a + b) ==
               Some(GenesisState(merged.value.params, first.tokenPairs + second.tokenPairs))
  {
    GenesisReaderIsLocal(dur);
    DecodeConcat(GenesisReader(dur), a, b, ZERO_GENESIS);
    hide Decode;
    var first := Decoding(dur, a).value;
    var m := first.(tokenPairs := []);
    GenesisDecodeAlike(dur, b, m, ZERO_GENESIS);
    DecodingAppends(dur, b, m, first.tokenPairs);
    assert m.(tokenPairs := first.tokenPairs + m.tokenPairs) == first by {
      assert first.tokenPairs + [] == first.tokenPairs;
    }
  }

  // ---- What Unmarshal accepts --------------------------------------------------------

  // What a field means for params: 1 and 3 are true for any number but 0, 2 is the duration.
  function ParamsMeaning(dur: DurationCodec): Meaning<Params>
  {
    (f: Field, m: Params) => MeansForParams(dur, f, m)
  }

  function MeansForParams(dur: DurationCodec, f: Field, m: Params): Option<Params>
  {
    var num, wire := FieldNumber(f), FieldWire(f);
    if num <= 0 then None
    else if num == 1 || num == 3 then
      if wire != 0 then None
      else if num == 1 then Some(m.(enableIntrarelayer := FieldValue(f) != 0))
      else Some(m.(enableEVMHook := FieldValue(f) != 0))
    else if num == 2 then
      if wire != 2 then None else
      var d :- dur.decode(FieldPayload(f));
      Some(m.(tokenPairVotingPeriod := d))
    else Some(m)
  }

  // And for a genesis state: 1 is merged into the params, 2 is one more pair.
  function GenesisMeaning(dur: DurationCodec): Meaning<GenesisState>
  {
    (f: Field, m: GenesisState) => MeansForGenesis(dur, f, m)
  }

  function MeansForGenesis(dur: DurationCodec, f: Field, m: GenesisState): Option<GenesisState>
  {
    var num, wire := FieldNumber(f), FieldWire(f);
    if num <= 0 then None
    else if num == 1 || num == 2 then
      if wire != 2 then None
      else if num == 1 then
        var p :- DecodeParams(dur, FieldPayload(f), m.params);
        Some(m.(params := p))
      else
        var p :- TokenPairCodec.Decoding(FieldPayload(f));
        Some(m.(tokenPairs := m.tokenPairs + [p]))
    else Some(m)
  }

  lemma ParamsFieldIsMeant(dur: DurationCodec, f: Field, m: Params, rest: Bytes)
    requires WellFormed(f)
    ensures ReadParamsField(dur, Render(f) + rest, m) == Outcome(ParamsMeaning(dur), f, m)
  {
    hide ReadTag, ReadPayload, ReadUint64, Skip, WellFormed, Render, FieldNumber, FieldWire, FieldValue, FieldPayload;
    TagIsRead(f, rest);
    var num, wire := FieldNumber(f), FieldWire(f);
    if num == 2 && wire == 2 {
      PayloadIsRead(f, rest);
    } else if (num == 1 || num == 3) && wire == 0 {
      VarintIsRead(f, rest);
    } else if num > 3 {
      SkipTakesField(f, rest, 0);
    }
  }

  lemma GenesisFieldIsMeant(dur: DurationCodec, f: Field, m: GenesisState, rest: Bytes)
    requires WellFormed(f)
    ensures ReadGenesisField(dur, Render(f) + rest, m) == Outcome(GenesisMeaning(dur), f, m)
  {
    hide ReadTag, ReadPayload, Skip, WellFormed, Render, FieldNumber, FieldWire, FieldPayload, DecodeParams,
         TokenPairCodec.Decoding;
    TagIsRead(f, rest);
    var num, wire := FieldNumber(f), FieldWire(f);
    if (num == 1 || num == 2) && wire == 2 {
      PayloadIsRead(f, rest);
    } else if num > 2 {
      SkipTakesField(f, rest, 0);
    }
  }

  lemma ParamsTurnIsField(dur: DurationCodec, s: Bytes, m: Params) returns (f: Field)
    requires ReadParamsField(dur, s, m).Some?
    ensures WellFormed(f) && Render(f) == s[..ReadParamsField(dur, s, m).value.size]
  {
    hide ReadTag, ReadPayload, ReadUint64, Skip, WellFormed, Render;
    var tag := ReadTag(s).value;
    if tag.num == 2 {
      f := PayloadTurnIsField(s);
    } else if tag.num == 1 || tag.num == 3 {
      f := VarintTurnIsField(s);
    } else {
      f := SkippedIsField(s);
    }
  }

  lemma GenesisTurnIsField(dur: DurationCodec, s: Bytes, m: GenesisState) returns (f: Field)
    requires ReadGenesisField(dur, s, m).Some?
    ensures WellFormed(f) && Render(f) == s[..ReadGenesisField(dur, s, m).value.size]
  {
    hide ReadTag, ReadPayload, Skip, WellFormed, Render, DecodeParams, TokenPairCodec.Decoding;
    var tag := ReadTag(s).value;
    if tag.num == 1 || tag.num == 2 {
      f := PayloadTurnIsField(s);
    } else {
      f := SkippedIsField(s);
    }
  }

  lemma ParamsReadsMeaning(dur: DurationCodec)
    ensures Reads(ParamsReader(dur), ParamsMeaning(dur))
  {
    hide ReadParamsField, MeansForParams, WellFormed, Render, Outcome;
    var field := ParamsReader(dur);
    forall f, m, rest | WellFormed(f)
      ensures field(Render(f) + rest, m) == Outcome(ParamsMeaning(dur), f, m)
    {
      ParamsFieldIsMeant(dur, f, m, rest);
    }
    forall s, m | field(s, m).Some?
      ensures 1 <= field(s, m).value.size <= |s|
      ensures exists f :: WellFormed(f) && Render(f) == s[..field(s, m).value.size]
    {
      ReadParamsFieldLocal(dur, s, m, []);
      var f := ParamsTurnIsField(dur, s, m);
    }
  }

  lemma GenesisReadsMeaning(dur: DurationCodec)
    ensures Reads(GenesisReader(dur), GenesisMeaning(dur))
  {
    hide ReadGenesisField, MeansForGenesis, WellFormed, Render, Outcome;
    var field := GenesisReader(dur);
    forall f, m, rest | WellFormed(f)
      ensures field(Render(f) + rest, m) == Outcome(GenesisMeaning(dur), f, m)
    {
      GenesisFieldIsMeant(dur, f, m, rest);
    }
    forall s, m | field(s, m).Some?
      ensures 1 <= field(s, m).value.size <= |s|
      ensures exists f :: WellFormed(f) && Render(f) == s[..field(s, m).value.size]
    {
      ReadGenesisFieldLocal(dur, s, m, []);
      var f := GenesisTurnIsField(dur, s, m);
    }
  }

  // Unmarshal accepts exactly the well-formed fields that are not refused, and does what they
  // mean, one after the other.
  lemma ParamsUnmarshalIff(dur: DurationCodec, s: Bytes, m: Params, r: Params)
    ensures DecodeParams(dur, s, m) == Some(r) <==>
            exists fs :: AllWellFormed(fs) && RenderAll(fs) == s && MeaningOfAll(ParamsMeaning(dur), fs, m) == Some(r)
  {
    ParamsReadsMeaning(dur);
    hide Reads, ParamsMeaning, ParamsReader;
    DecodesIff(ParamsReader(dur), ParamsMeaning(dur), s, m, r);
  }

  lemma UnmarshalIff(dur: DurationCodec, s: Bytes, m: GenesisState, r: GenesisState)
    ensures DecodeInto(dur, s, m) == Some(r) <==>
            exists fs :: AllWellFormed(fs) && RenderAll(fs) == s && MeaningOfAll(GenesisMeaning(dur), fs, m) == Some(r)
  {
    GenesisReadsMeaning(dur);
    hide Reads, GenesisMeaning, GenesisReader;
    DecodesIff(GenesisReader(dur), GenesisMeaning(dur), s, m, r);
  }

  // The bytes that Marshal writes, fields in increasing order. The duration is always written.
  lemma ParamsEncodingBytes(dur: DurationCodec, p: Params)
    ensures var d := dur.encode(p.tokenPairVotingPeriod);
            ParamsEncoding(dur, p) ==
            (if p.enableIntrarelayer then [0x08, 1] else [])
            + ([0x12] + Encode(|d|) + d)
            + (if p.enableEVMHook then [0x18, 1] else [])
  {
    hide Encode, BytesField, VarintField;
    var d := dur.encode(p.tokenPairVotingPeriod);
    FieldBytes(1, []);
    FieldBytes(2, d);
    FieldBytes(3, []);
  }

  lemma EncodingBytes(dur: DurationCodec, g: GenesisState)
    ensures var p := ParamsEncoding(dur, g.params);
            Encoding(dur, g) == [0x0a] + Encode(|p|) + p + PairsEncoding(g.tokenPairs)
    ensures |g.tokenPairs| > 0 ==>
              var b := TokenPairCodec.Encoding(g.tokenPairs[0]);
              PairsEncoding(g.tokenPairs) == [0x12] + Encode(|b|) + b + PairsEncoding(g.tokenPairs[1..])
  {
    hide Encode, BytesField, ParamsEncoding, TokenPairCodec.Encoding;
    FieldBytes(1, ParamsEncoding(dur, g.params));
    if |g.tokenPairs| > 0 {
      FieldBytes(2, TokenPairCodec.Encoding(g.tokenPairs[0]));
    }
  }

  lemma ParamsTurn(dur: DurationCodec, s: Bytes, m: Params)
    requires |s| > 0
    ensures var p := ReadParamsField(dur, s, m);
            DecodeParams(dur, s, m) == if p.None? then None else DecodeParams(dur, s[p.value.size..], p.value.msg)
  {
    hide ReadParamsField;
    if ReadParamsField(dur, s, m).Some? {
      ReadParamsFieldLocal(dur, s, m, []);
    }
  }

  lemma GenesisTurn(dur: DurationCodec, s: Bytes, m: GenesisState)
    requires |s| > 0
    ensures var p := ReadGenesisField(dur, s, m);
            DecodeInto(dur, s, m) == if p.None? then None else DecodeInto(dur, s[p.value.size..], p.value.msg)
  {
    hide ReadGenesisField;
    if ReadGenesisField(dur, s, m).Some? {
      ReadGenesisFieldLocal(dur, s, m, []);
    }
  }

  lemma DecodeNoParams(dur: DurationCodec, m: Params)
    ensures DecodeParams(dur, [], m) == Some(m)
  {
  }

  method UnmarshalParams(dur: DurationCodec, data: Bytes, into: Params) returns (r: Option<Params>)
    requires |data| <= MAX_INT
    ensures r == DecodeParams(dur, data, into)
  {
    hide ReadParamsField, DecodeParams;
    var m, i := into, 0;
    while i < |data|
      invariant 0 <= i <= |data|
      invariant DecodeParams(dur, data, into) == DecodeParams(dur, data[i..], m)
      decreases |data| - i
    {
      ParamsTurn(dur, data[i..], m);
      var p := UnmarshalParamsField(dur, data, i, m);
      if p.None? {
        return None;
      }
      ReadParamsFieldLocal(dur, data[i..], m, []);
      assert data[i..][p.value.size..] == data[i + p.value.size..];
      m, i := p.value.msg, i + p.value.size;
    }
    assert data[i..] == [];
    DecodeNoParams(dur, m);
    return Some(m);
  }

  method UnmarshalParamsField(dur: DurationCodec, data: Bytes, preIndex: nat, into: Params)
    returns (r: Option<Parsed<Params>>)
    requires preIndex < |data| <= MAX_INT
    ensures r == ReadParamsField(dur, data[preIndex..], into)
  {
    hide Groups, ReadPayload, ReadUint64, ToInt32, Skip;
    var iNdEx, m := preIndex, into;
    var wire := DecodeVarint(data, iNdEx);
    if wire.None? {
      return None;
    }
    iNdEx := iNdEx + wire.value.size;
    assert data[preIndex..][wire.value.size..] == data[iNdEx..];
    var fieldNum := ToInt32(wire.value.value / 8);
    var wireType := wire.value.value % 8;
    if wireType == 4 {
      return None;
    }
    if fieldNum <= 0 {
      return None;
    }
    match fieldNum {
      case 1 =>
        if wireType != 0 {
          return None;
        }
        var v := DecodeVarint(data, iNdEx);
        if v.None? {
          return None;
        }
        iNdEx := iNdEx + v.value.size;
        m := m.(enableIntrarelayer := v.value.value != 0);
      case 2 =>
        if wireType != 2 {
          return None;
        }
        var ok, from, post := DecodePayload(data, iNdEx);
        if !ok {
          return None;
        }
        var d := dur.decode(data[from..post]);
        if d.None? {
          return None;
        }
        m := m.(tokenPairVotingPeriod := d.value);
        iNdEx := post;
      case 3 =>
        if wireType != 0 {
          return None;
        }
        var v := DecodeVarint(data, iNdEx);
        if v.None? {
          return None;
        }
        iNdEx := iNdEx + v.value.size;
        m := m.(enableEVMHook := v.value.value != 0);
      case _ =>
        var skipped := SkipAt(data, preIndex);
        if skipped.None? {
          return None;
        }
        iNdEx := preIndex + skipped.value;
    }
    return Some(Parsed(m, iNdEx - preIndex));
  }

  method Unmarshal(dur: DurationCodec, data: Bytes) returns (r: Option<GenesisState>)
    requires |data| <= MAX_INT
    ensures r == Decoding(dur, data)
  {
    hide ReadGenesisField, DecodeInto;
    var m, i := ZERO_GENESIS, 0;
    while i < |data|
      invariant 0 <= i <= |data|
      invariant DecodeInto(dur, data, ZERO_GENESIS) == DecodeInto(dur, data[i..], m)
      decreases |data| - i
    {
      GenesisTurn(dur, data[i..], m);
      var p := UnmarshalField(dur, data, i, m);
      if p.None? {
        return None;
      }
      ReadGenesisFieldLocal(dur, data[i..], m, []);
      assert data[i..][p.value.size..] == data[i + p.value.size..];
      m, i := p.value.msg, i + p.value.size;
    }
    assert data[i..] == [];
    DecodeNothing(dur, m);
    return Some(m);
  }

  method UnmarshalField(dur: DurationCodec, data: Bytes, preIndex: nat, into: GenesisState)
    returns (r: Option<Parsed<GenesisState>>)
    requires preIndex < |data| <= MAX_INT
    ensures r == ReadGenesisField(dur, data[preIndex..], into)
  {
    hide Groups, ReadPayload, ReadUint64, ToInt32, Skip, DecodeParams, TokenPairCodec.Decoding;
    var iNdEx, m := preIndex, into;
    var wire := DecodeVarint(data, iNdEx);
    if wire.None? {
      return None;
    }
    iNdEx := iNdEx + wire.value.size;
    assert data[preIndex..][wire.value.size..] == data[iNdEx..];
    var fieldNum := ToInt32(wire.value.value / 8);
    var wireType := wire.value.value % 8;
    if wireType == 4 {
      return None;
    }
    if fieldNum <= 0 {
      return None;
    }
    match fieldNum {
      case 1 =>
        if wireType != 2 {
          return None;
        }
        var ok, from, post := DecodePayload(data, iNdEx);
        if !ok {
          return None;
        }
        var p := UnmarshalParams(dur, data[from..post], m.params);
        if p.None? {
          return None;
        }
        m := m.(params := p.value);
        iNdEx := post;
      case 2 =>
        if wireType != 2 {
          return None;
        }
        var ok, from, post := DecodePayload(data, iNdEx);
        if !ok {
          return None;
        }
        var p := TokenPairCodec.Unmarshal(data[from..post]);
        if p.None? {
          return None;
        }
        m := m.(tokenPairs := m.tokenPairs + [p.value]);
        iNdEx := post;
      case _ =>
        var skipped := SkipAt(data, preIndex);
        if skipped.None? {
          return None;
        }
        iNdEx := preIndex + skipped.value;
    }
    return Some(Parsed(m, iNdEx - preIndex));
  }
}
