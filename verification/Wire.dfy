// The wire format below the messages: tags, length-delimited payloads, and skipping of
// unknown fields (skipIntrarelayer and skipGenesis, which are the same code).
module Wire {
  import opened Base
  import opened Varint

  datatype Tag = Tag(num: int32, wire: nat, size: nat)

  // The head of one turn of an Unmarshal loop. An end-group tag and a field number that is
  // not a positive int32 are errors.
  function ReadTag(s: Bytes): (t: Option<Tag>)
    ensures t.Some? ==> 1 <= t.value.size <= |s|
  {
    var r :- ReadUint64(s);
    var num, wire := ToInt32(r.value / 8), r.value % 8;
    if wire == 4 || num <= 0 then None else Some(Tag(num, wire, r.size))
  }

  lemma ReadTagLocal(s: Bytes, t: Bytes)
    requires ReadTag(s).Some?
    ensures ReadTag(s + t) == ReadTag(s)
  {
    ReadLocal(s, t);
  }

  datatype Payload = Payload(bytes: Bytes, size: nat)

  // A length and that many bytes.
  function ReadPayload(s: Bytes): (p: Option<Payload>)
    ensures p.Some? ==> |p.value.bytes| < p.value.size <= |s|
  {
    var r :- ReadUint64(s);
    if r.value > |s| - r.size then None else Some(Payload(s[r.size..][..r.value], r.size + r.value))
  }

  lemma ReadPayloadLocal(s: Bytes, t: Bytes)
    requires ReadPayload(s).Some?
    ensures ReadPayload(s + t) == ReadPayload(s)
  {
    ReadLocal(s, t);
    var r := ReadUint64(s).value;
    assert (s + t)[r.size..] == s[r.size..] + t;
    assert (s[r.size..] + t)[..r.value] == s[r.size..][..r.value];
  }

  function EncodePayload(b: Bytes): Bytes
  {
    Encode(|b|) + b
  }

  lemma ReadPayloadInverts(b: Bytes, rest: Bytes)
    requires |b| <= MAX_INT
    ensures ReadPayload(EncodePayload(b) + rest) == Some(Payload(b, |EncodePayload(b)|))
  {
    var s := EncodePayload(b) + rest;
    ReadInvertsEncode(|b|, b + rest);
    SovIsLength(|b|);
    assert s == Encode(|b|) + (b + rest);
    assert s[Sov(|b|)..] == b + rest;
  }

  // ---- Skipping one field ------------------------------------------------------------

  // What a field of a wire type has after its tag: how many bytes, None for a malformed one.
  function BodySize(wire: nat, s: Bytes): Option<nat>
  {
    match wire
    case 0 => var r :- ReadUint64(s); Some(r.size)
    case 1 => if |s| < 8 then None else Some(8)
    case 2 => var p :- ReadPayload(s); Some(p.size)
    case 3 => Some(0)
    case 4 => Some(0)
    case 5 => if |s| < 4 then None else Some(4)
    case _ => None
  }

  // One turn of the skipping loop: a wire type and the bytes of the tag and what follows it.
  datatype Turn = Turn(wire: nat, size: nat)

  function ReadTurn(s: Bytes): (t: Option<Turn>)
    ensures t.Some? ==> 1 <= t.value.size <= |s|
  {
    var tag :- ReadUint64(s);
    var body :- BodySize(tag.value % 8, s[tag.size..]);
    Some(Turn(tag.value % 8, tag.size + body))
  }

  // Groups still open after a field of this wire type.
  function Open(wire: nat, depth: nat): Option<nat>
  {
    if wire == 3 then Some(depth + 1)
    else if wire != 4 then Some(depth)
    else if depth == 0 then None
    else Some(depth - 1)
  }

  // Specification of skip: the bytes from here to the end of the field, with depth groups
  // still open.
  function Skip(s: Bytes, depth: nat): (n: Option<nat>)
    ensures n.Some? ==> 1 <= n.value <= |s|
    decreases |s|, 1
  {
    var turn :- ReadTurn(s);
    var open :- Open(turn.wire, depth);
    SkipRest(turn.size, s, open)
  }

  // n bytes of s and then the rest of a field that still has depth groups open.
  function SkipRest(n: nat, s: Bytes, depth: nat): (r: Option<nat>)
    requires 1 <= n <= |s|
    ensures r.Some? ==> n <= r.value <= |s|
    decreases |s|, 0
  {
    if depth == 0 then Some(n)
    else
      var more :- Skip(s[n..], depth);
      Some(n + more)
  }

  lemma BodySizeLocal(wire: nat, s: Bytes, t: Bytes)
    requires BodySize(wire, s).Some?
    ensures BodySize(wire, s + t) == BodySize(wire, s)
  {
    if wire == 0 {
      ReadLocal(s, t);
    } else if wire == 2 {
      ReadPayloadLocal(s, t);
    }
  }

  lemma ReadTurnLocal(s: Bytes, t: Bytes)
    requires ReadTurn(s).Some?
    ensures ReadTurn(s + t) == ReadTurn(s)
  {
    hide BodySize;
    ReadLocal(s, t);
    var tag := ReadUint64(s).value;
    assert (s + t)[tag.size..] == s[tag.size..] + t;
    BodySizeLocal(tag.value % 8, s[tag.size..], t);
  }

  lemma {:induction false} SkipLocal(s: Bytes, t: Bytes, depth: nat)
    requires Skip(s, depth).Some?
    ensures Skip(s + t, depth) == Skip(s, depth)
    decreases |s|
  {
    hide ReadTurn;
    ReadTurnLocal(s, t);
    var turn := ReadTurn(s).value;
    var open := Open(turn.wire, depth).value;
    if open > 0 {
      assert (s + t)[turn.size..] == s[turn.size..] + t;
      SkipLocal(s[turn.size..], t, open);
    }
  }

  // ---- The grammar of fields ---------------------------------------------------------

  // One field of any wire type with its bytes as written. Varints need not be minimal, and
  // the number in an end-group tag is free, as the skipping code accepts both.
  datatype Field =
    | Plain(tag: Bytes, body: Bytes)
    | Group(tag: Bytes, fields: Fields, end: Bytes)

  datatype Fields = Nil | Cons(head: Field, tail: Fields)

  // A varint whose low three bits are the wire type.
  predicate IsTag(t: Bytes, wire: nat)
  {
    IsVarint(t) && t[0] % 8 == wire
  }

  // What may follow the tag of a field that is no group: a varint, eight bytes, a length with
  // that many bytes, or four bytes.
  ghost predicate IsBody(wire: nat, body: Bytes)
  {
    match wire
    case 0 => IsVarint(body)
    case 1 => |body| == 8
    case 2 => exists k :: 0 <= k <= |body| && IsLength(body, k)
    case 5 => |body| == 4
    case _ => false
  }

  // The first k bytes spell the number of the others.
  predicate IsLength(body: Bytes, k: nat)
    requires k <= |body|
  {
    IsVarint(body[..k]) && Spelled(body[..k]) % TWO_64 == |body| - k
  }

  ghost predicate WellFormed(f: Field)
  {
    match f
    case Plain(tag, body) => IsVarint(tag) && IsBody(tag[0] % 8, body)
    case Group(tag, fields, end) => IsTag(tag, 3) && AllWellFormed(fields) && IsTag(end, 4)
  }

  ghost predicate AllWellFormed(fs: Fields)
  {
    fs.Cons? ==> WellFormed(fs.head) && AllWellFormed(fs.tail)
  }

  function Render(f: Field): Bytes
  {
    match f
    case Plain(tag, body) => tag + body
    case Group(tag, fields, end) => tag + RenderAll(fields) + end
  }

  function RenderAll(fs: Fields): Bytes
  {
    if fs.Nil? then [] else Render(fs.head) + RenderAll(fs.tail)
  }

  // The grammar agrees with what the code reads.
  lemma TagReads(t: Bytes, wire: nat)
    ensures IsTag(t, wire) <==>
            ReadUint64(t).Some? && ReadUint64(t).value.size == |t| && ReadUint64(t).value.value % 8 == wire
  {
    ReadsAllIff(t);
    if IsVarint(t) {
      LowBits(t);
    }
  }

  lemma PayloadReads(body: Bytes)
    ensures ReadPayload(body).Some? && ReadPayload(body).value.size == |body| <==>
            exists k :: 0 <= k <= |body| && IsLength(body, k)
  {
    hide ReadUint64, IsVarint, Spelled;
    if ReadPayload(body).Some? && ReadPayload(body).value.size == |body| {
      var k := ReadUint64(body).value.size;
      ReadsIff(body, k);
      assert IsLength(body, k);
    }
    if k :| 0 <= k <= |body| && IsLength(body, k) {
      ReadsIff(body, k);
    }
  }

  lemma BodyReads(wire: nat, body: Bytes)
    requires wire != 3 && wire != 4
    ensures BodySize(wire, body) == Some(|body|) <==> IsBody(wire, body)
  {
    hide ReadUint64, ReadPayload, IsVarint;
    ReadsAllIff(body);
    PayloadReads(body);
  }

  lemma BodyOfGroupTag(wire: nat, body: Bytes)
    requires wire == 3 || wire == 4
    ensures BodySize(wire, body) == Some(|body|) <==> body == []
  {
  }

  lemma TurnOf(tag: Bytes, wire: nat, body: Bytes, rest: Bytes)
    requires IsTag(tag, wire) && BodySize(wire, body) == Some(|body|)
    ensures ReadTurn(tag + body + rest) == Some(Turn(wire, |tag| + |body|))
  {
    hide BodySize, IsTag;
    TagReads(tag, wire);
    var s := tag + body + rest;
    assert s == tag + (body + rest);
    ReadLocal(tag, body + rest);
    assert s[|tag|..] == body + rest;
    BodySizeLocal(wire, body, rest);
  }

  lemma PlainReads(tag: Bytes, body: Bytes) returns (wire: nat)
    requires WellFormed(Plain(tag, body))
    ensures wire != 3 && wire != 4 && IsTag(tag, wire) && BodySize(wire, body) == Some(|body|)
  {
    wire := tag[0] % 8;
    BodyReads(wire, body);
  }

  lemma PlainSkips(tag: Bytes, body: Bytes, rest: Bytes, depth: nat)
    requires WellFormed(Plain(tag, body))
    ensures |tag| > 0 && Skip(tag + body + rest, depth) == SkipRest(|tag + body|, tag + body + rest, depth)
  {
    var wire := PlainReads(tag, body);
    TurnOf(tag, wire, body, rest);
    hide ReadTurn, BodySize, WellFormed;
  }

  // Skipping takes exactly the bytes of a well-formed field, groups nested to any depth.
  lemma {:induction false} SkipTakesField(f: Field, rest: Bytes, depth: nat)
    requires WellFormed(f)
    ensures 1 <= |Render(f)|
    ensures Skip(Render(f) + rest, depth) == SkipRest(|Render(f)|, Render(f) + rest, depth)
    decreases f
  {
    hide ReadTurn, BodySize, IsTag, IsVarint, IsBody, ReadUint64;
    var s := Render(f) + rest;
    match f
    case Plain(tag, body) =>
      PlainSkips(tag, body, rest, depth);
    case Group(tag, fields, end) =>
      var inner := RenderAll(fields);
      var more := inner + (end + rest);
      assert s == tag + more;
      SkipTakesFields(fields, end + rest, depth + 1);
      InnerCloses(inner, end, rest, depth);
      GroupOpens(tag, more, depth);
      hide Skip, SkipRest;
      SkipRestShift(|tag|, |inner + end|, s, depth + 1, depth);
  }

  lemma InnerCloses(inner: Bytes, end: Bytes, rest: Bytes, depth: nat)
    requires IsTag(end, 4)
    requires Skip(inner + (end + rest), depth + 1) ==
             if Skip(end + rest, depth + 1).None? then None else Some(|inner| + Skip(end + rest, depth + 1).value)
    ensures |end| > 0
    ensures Skip(inner + (end + rest), depth + 1) == SkipRest(|inner + end|, inner + (end + rest), depth)
  {
    hide Skip;
    GroupCloses(end, rest, depth);
    assert (inner + (end + rest))[|inner + end|..] == rest;
  }

  // The turn of a tag that opens a group, and of one that closes it.
  lemma GroupOpens(tag: Bytes, more: Bytes, depth: nat)
    requires IsTag(tag, 3)
    ensures |tag| > 0 && Skip(tag + more, depth) == SkipRest(|tag|, tag + more, depth + 1)
    ensures (tag + more)[|tag|..] == more
  {
    BodyOfGroupTag(3, []);
    TurnOf(tag, 3, [], more);
    assert tag + [] + more == tag + more;
    hide ReadTurn, BodySize;
  }

  lemma GroupCloses(end: Bytes, rest: Bytes, depth: nat)
    requires IsTag(end, 4)
    ensures |end| > 0 && Skip(end + rest, depth + 1) == SkipRest(|end|, end + rest, depth)
    ensures (end + rest)[|end|..] == rest
  {
    BodyOfGroupTag(4, []);
    TurnOf(end, 4, [], rest);
    assert end + [] + rest == end + rest;
    hide ReadTurn, BodySize;
  }

  lemma {:induction false} SkipTakesFields(fs: Fields, rest: Bytes, depth: nat)
    requires AllWellFormed(fs) && depth > 0
    ensures Skip(RenderAll(fs) + rest, depth) ==
            if Skip(rest, depth).None? then None else Some(|RenderAll(fs)| + Skip(rest, depth).value)
    decreases fs
  {
    hide ReadTurn, BodySize, IsTag, ReadUint64;
    if fs.Nil? {
      assert RenderAll(fs) + rest == rest;
    } else {
      var more := RenderAll(fs.tail) + rest;
      assert RenderAll(fs) + rest == Render(fs.head) + more;
      SkipTakesField(fs.head, more, depth);
      assert (Render(fs.head) + more)[|Render(fs.head)|..] == more;
      SkipTakesFields(fs.tail, rest, depth);
    }
  }

  lemma TagTaken(s: Bytes)
    requires ReadUint64(s).Some?
    ensures IsTag(s[..ReadUint64(s).value.size], ReadUint64(s).value.value % 8)
  {
    GroupsTaken(s, 0);
    TagReads(s[..ReadUint64(s).value.size], ReadUint64(s).value.value % 8);
  }

  lemma BodyTaken(wire: nat, s: Bytes)
    requires BodySize(wire, s).Some?
    ensures BodySize(wire, s).value <= |s|
    ensures BodySize(wire, s[..BodySize(wire, s).value]) == BodySize(wire, s)
  {
    if wire == 0 {
      GroupsTaken(s, 0);
    } else if wire == 2 {
      var r, p := ReadUint64(s).value, ReadPayload(s).value;
      GroupsTaken(s, 0);
      assert s[..p.size] == s[..r.size] + s[r.size..p.size];
      ReadLocal(s[..r.size], s[r.size..p.size]);
    }
  }

  // The first turn, taken apart into a tag and a body.
  lemma TurnTaken(s: Bytes) returns (tag: Bytes, body: Bytes)
    requires ReadTurn(s).Some?
    ensures s[..ReadTurn(s).value.size] == tag + body
    ensures IsTag(tag, ReadTurn(s).value.wire)
    ensures BodySize(ReadTurn(s).value.wire, body) == Some(|body|)
    ensures ReadTurn(s).value.wire == 3 || ReadTurn(s).value.wire == 4 ==> s[..ReadTurn(s).value.size] == tag
  {
    var r := ReadUint64(s).value;
    var n := ReadTurn(s).value.size;
    TagTaken(s);
    BodyTaken(r.value % 8, s[r.size..]);
    tag, body := s[..r.size], s[r.size..n];
    assert s[r.size..][..n - r.size] == body;
  }

  lemma SkipUnfolds(s: Bytes, depth: nat)
    requires Skip(s, depth).Some?
    ensures ReadTurn(s).Some?
    ensures var turn := ReadTurn(s).value;
            match turn.wire
            case 3 => Skip(s, depth) == SkipRest(turn.size, s, depth + 1) && Skip(s[turn.size..], depth + 1).Some?
            case 4 => depth > 0 && Skip(s, depth) == SkipRest(turn.size, s, depth - 1)
            case _ => Skip(s, depth) == SkipRest(turn.size, s, depth)
  {
    hide ReadTurn;
  }

  lemma SkipRestMore(k: nat, s: Bytes, depth: nat)
    requires depth > 0 && 1 <= k <= |s| && SkipRest(k, s, depth).Some?
    ensures Skip(s[k..], depth).Some?
  {
  }

  // Skipping j more bytes after the first k.
  lemma SkipRestShift(k: nat, j: nat, s: Bytes, depth: nat, open: nat)
    requires 1 <= k <= |s| && depth > 0 && 1 <= j <= |s| - k
    requires Skip(s[k..], depth) == SkipRest(j, s[k..], open)
    ensures SkipRest(k, s, depth) == SkipRest(k + j, s, open)
  {
    hide ReadTurn;
    assert s[k..][j..] == s[k + j..];
  }

  lemma FieldsTaken(s: Bytes, k: nat, f: Field, fs: Fields, end: Bytes, j: nat)
    requires k <= |s| && j <= |s| - k
    requires WellFormed(f) && AllWellFormed(fs)
    requires s[..k] == Render(f) && s[k..][..j] == RenderAll(fs) + end
    ensures AllWellFormed(Cons(f, fs))
    ensures s[..k + j] == RenderAll(Cons(f, fs)) + end
  {
    TakeSplit(s, k, j);
  }

  lemma GroupTaken(s: Bytes, k: nat, tag: Bytes, fs: Fields, end: Bytes, i: nat)
    requires k <= |s| && i <= |s| - k
    requires IsTag(tag, 3) && AllWellFormed(fs) && IsTag(end, 4)
    requires s[..k] == tag && s[k..][..i] == RenderAll(fs) + end
    ensures WellFormed(Group(tag, fs, end))
    ensures s[..k + i] == Render(Group(tag, fs, end))
  {
    TakeSplit(s, k, i);
    assert Render(Group(tag, fs, end)) == tag + (RenderAll(fs) + end);
  }

  lemma NoFields(end: Bytes)
    ensures AllWellFormed(Nil) && RenderAll(Nil) + end == end
  {
  }

  lemma PlainTaken(tag: Bytes, body: Bytes, wire: nat)
    requires wire != 3 && wire != 4 && IsTag(tag, wire) && BodySize(wire, body) == Some(|body|)
    ensures WellFormed(Plain(tag, body)) && Render(Plain(tag, body)) == tag + body
  {
    BodyReads(wire, body);
  }

  // A turn that does not end a group starts a field, which is skipped as a whole.
  lemma {:induction false} FirstField(s: Bytes, depth: nat) returns (f: Field, m: nat)
    requires Skip(s, depth).Some? && ReadTurn(s).value.wire != 4
    ensures 1 <= m <= |s| && WellFormed(f) && s[..m] == Render(f)
    ensures Skip(s, depth) == SkipRest(m, s, depth)
    decreases |s|, 0
  {
    hide *;
    SkipUnfolds(s, depth);
    var turn := ReadTurn(s).value;
    var k := turn.size;
    var tag, body := TurnTaken(s);
    if turn.wire == 3 {
      var inner, close, i := SkipInsideGroup(s[k..], depth + 1);
      SkipRestShift(k, i, s, depth + 1, depth);
      GroupTaken(s, k, tag, inner, close, i);
      f, m := Group(tag, inner, close), k + i;
    } else {
      PlainTaken(tag, body, turn.wire);
      f, m := Plain(tag, body), k;
    }
  }

  // What skipping takes off while groups are open: fields, the tag that ends the innermost
  // group, and what the outer groups need.
  lemma {:induction false} SkipInsideGroup(s: Bytes, depth: nat) returns (fs: Fields, end: Bytes, n: nat)
    requires depth > 0 && Skip(s, depth).Some?
    ensures AllWellFormed(fs) && IsTag(end, 4)
    ensures 1 <= n <= |s| && s[..n] == RenderAll(fs) + end
    ensures Skip(s, depth) == SkipRest(n, s, depth - 1)
    decreases |s|, 1
  {
    hide *;
    SkipUnfolds(s, depth);
    var turn := ReadTurn(s).value;
    if turn.wire == 4 {
      var tag, body := TurnTaken(s);
      fs, end, n := Nil, tag, turn.size;
      NoFields(end);
    } else {
      var f, m := FirstField(s, depth);
      SkipRestMore(m, s, depth);
      var after, last, j := SkipInsideGroup(s[m..], depth);
      SkipRestShift(m, j, s, depth, depth - 1);
      FieldsTaken(s, m, f, after, last, j);
      fs, end, n := Cons(f, after), last, m + j;
    }
  }

  // The partner of SkipTakesField: whatever skipping takes off is one well-formed field.
  lemma SkippedIsField(s: Bytes) returns (f: Field)
    requires Skip(s, 0).Some?
    ensures WellFormed(f) && Render(f) == s[..Skip(s, 0).value]
  {
    var m;
    f, m := FirstField(s, 0);
  }

  // Skipping succeeds with n exactly when the first n bytes are one well-formed field.
  lemma SkipIffField(s: Bytes, n: nat)
    requires n <= |s|
    ensures Skip(s, 0) == Some(n) <==> exists f :: WellFormed(f) && Render(f) == s[..n]
  {
    hide ReadTurn, BodySize, IsTag, WellFormed;
    if Skip(s, 0) == Some(n) {
      var f := SkippedIsField(s);
    }
    if f :| WellFormed(f) && Render(f) == s[..n] {
      SkipTakesField(f, s[n..], 0);
      assert s == s[..n] + s[n..];
    }
  }

  // ---- The code ----------------------------------------------------------------------

  // Go addition on int, which wraps around.
  function AddInt(a: int, b: int): int
  {
    ToInt(a + b)
  }

  // Adding a length to an index either gives the sum or wraps to a negative index.
  lemma AddIntWraps(a: nat, b: nat)
    requires a <= MAX_INT && b <= MAX_INT
    ensures AddInt(a, b) == if a + b <= MAX_INT then a + b else a + b - TWO_64
    ensures a + b > MAX_INT ==> AddInt(a, b) < 0
  {
  }

  lemma ToIntOfUint64(v: uint64)
    ensures ToInt(v) == if v <= MAX_INT then v else v - TWO_64
  {
  }

  // The length prefix and bounds guards that Unmarshal repeats at each string and message
  // field: the payload is data[from..post].
  method DecodePayload(data: Bytes, start: nat) returns (ok: bool, from: nat, post: nat)
    requires start <= |data| <= MAX_INT
    ensures ok <==> ReadPayload(data[start..]).Some?
    ensures ok ==> start < from <= post <= |data|
    ensures ok ==> ReadPayload(data[start..]) == Some(Payload(data[from..post], post - start))
  {
    hide ReadUint64, ToInt, AddInt;
    var r := DecodeVarint(data, start);
    if r.None? {
      return false, 0, 0;
    }
    from := start + r.value.size;
    ToIntOfUint64(r.value.value);
    var length := ToInt(r.value.value);
    if length < 0 {
      return false, from, 0;
    }
    AddIntWraps(from, length);
    var postIndex := AddInt(from, length);
    if postIndex < 0 {
      return false, from, 0;
    }
    if postIndex > |data| {
      return false, from, 0;
    }
    assert data[start..][r.value.size..][..r.value.value] == data[from..postIndex];
    return true, from, postIndex;
  }

  // The switch of the skipping loop: past the body of one field. The sum may wrap to a
  // negative index or pass the end of the data.
  method SkipBody(data: Bytes, at: nat, wire: nat) returns (ok: bool, next: int)
    requires at <= |data| <= MAX_INT
    ensures next <= MAX_INT && (ok && next >= 0 ==> at <= next)
    ensures BodySize(wire, data[at..]) == if ok && at <= next <= |data| then Some(next - at) else None
  {
    hide ReadUint64, ToInt, AddInt;
    next := at;
    match wire {
      case 0 =>
        var v := DecodeVarint(data, next);
        if v.None? {
          return false, next;
        }
        next := next + v.value.size;
      case 1 =>
        AddIntWraps(next, 8);
        next := AddInt(next, 8);
      case 2 =>
        var v := DecodeVarint(data, next);
        if v.None? {
          return false, next;
        }
        next := next + v.value.size;
        ToIntOfUint64(v.value.value);
        var length := ToInt(v.value.value);
        if length < 0 {
          return false, next;
        }
        AddIntWraps(next, length);
        next := AddInt(next, length);
      case 3 =>
      case 4 =>
      case 5 =>
        AddIntWraps(next, 4);
        next := AddInt(next, 4);
      case _ =>
        return false, next;
    }
    return true, next;
  }

  // The body of the skipping loop up to the switch on depth.
  method SkipTurn(data: Bytes, at: nat) returns (ok: bool, wire: nat, next: int)
    requires at <= |data| <= MAX_INT
    ensures next <= MAX_INT && (ok && next >= 0 ==> at < next)
    ensures ReadTurn(data[at..]) == if ok && at <= next <= |data| then Some(Turn(wire, next - at)) else None
  {
    hide ReadUint64, BodySize;
    var tag := DecodeVarint(data, at);
    if tag.None? {
      return false, 0, at;
    }
    wire := tag.value.value % 8;
    ok, next := SkipBody(data, at + tag.value.size, wire);
    assert data[at..][tag.value.size..] == data[at + tag.value.size..];
  }

  // The loop's position: i bytes done, depth groups open.
  ghost function SkipFrom(i: nat, s: Bytes, depth: nat): Option<nat>
  {
    if i == 0 then Skip(s, depth) else if i <= |s| then SkipRest(i, s, depth) else None
  }

  lemma SkipFromTurn(i: nat, s: Bytes, depth: nat)
    requires i < |s| && (i > 0 ==> depth > 0)
    ensures SkipFrom(i, s, depth) ==
            var turn := ReadTurn(s[i..]);
            if turn.None? || Open(turn.value.wire, depth).None? then None
            else SkipFrom(i + turn.value.size, s, Open(turn.value.wire, depth).value)
  {
    hide ReadTurn;
    if i == 0 {
      assert s[0..] == s;
    } else if ReadTurn(s[i..]).Some? {
      var turn := ReadTurn(s[i..]).value;
      var open := Open(turn.wire, depth);
      if open.Some? {
        assert s[i..][turn.size..] == s[i + turn.size..];
        assert Skip(s[i..], depth) == SkipRest(turn.size, s[i..], open.value);
      }
    }
  }

  // skipIntrarelayer and skipGenesis. The answer may lie past the end of the data, which the
  // callers check.
  method SkipField(data: Bytes) returns (r: Option<int>)
    requires |data| <= MAX_INT
    ensures r.Some? ==> 1 <= r.value <= MAX_INT
    ensures Skip(data, 0) == if r.Some? && r.value <= |data| then r else None
  {
    hide ReadTurn, Skip;
    var i: int := 0;
    var depth := 0;
    assert data == [] ==> Skip(data, 0) == None by {
      SkipEmpty();
    }
    while i < |data|
      invariant 0 <= i <= MAX_INT && (i > 0 <==> depth > 0)
      invariant Skip(data, 0) == SkipFrom(i, data, depth)
      decreases |data| - i
    {
      SkipFromTurn(i, data, depth);
      var ok, wire, next := SkipTurn(data, i);
      if !ok {
        return None;
      }
      if wire == 3 {
        depth := depth + 1;
      } else if wire == 4 {
        if depth == 0 {
          return None;
        }
        depth := depth - 1;
      }
      i := next;
      if i < 0 {
        return None;
      }
      if depth == 0 {
        return Some(i);
      }
    }
    SkipEmpty();
    assert data[|data|..] == [];
    return None;
  }

  lemma SkipEmpty()
    ensures forall depth :: Skip([], depth) == None
  {
  }

  // The default case of an Unmarshal switch: skip the field at preIndex, then the guards.
  method SkipAt(data: Bytes, preIndex: nat) returns (r: Option<nat>)
    requires preIndex <= |data| <= MAX_INT
    ensures r == Skip(data[preIndex..], 0)
  {
    hide Skip, ToInt, AddInt;
    var skippy := SkipField(data[preIndex..]);
    if skippy.None? {
      return None;
    }
    AddIntWraps(preIndex, skippy.value);
    if skippy.value < 0 || AddInt(preIndex, skippy.value) < 0 {
      return None;
    }
    if AddInt(preIndex, skippy.value) > |data| {
      return None;
    }
    return Some(skippy.value);
  }
}
