/**
  The generated codec of ChatMessage (cmd/pb/chat.pb.go) as functions on bytes: base-128 varints,
  printer, parser with unknown-field retention, and the recursive field skipper. Sections "Base
  128 Varints" and "Message Structure" of the Protocol Buffers encoding specification.
*/
module ChatCodec {
  import opened Basics

  datatype Error =
    | IntOverflow
    | UnexpectedEof
    | InvalidLength
    | EndGroup
    | IllegalTag
    | WrongWireType
    | IllegalWireType
    | PanicUnreachable

  /** The message; a nil slice and an empty one are the same byte sequence. */
  datatype Chat = Chat(peerId: bytes, data: bytes, unknown: bytes)

  const EMPTY: Chat := Chat([], [], [])

  // ----- varints -----

  function Pow128(k: nat): (p: nat)
    ensures p > 0
  {
    if k == 0 then 1 else 128 * Pow128(k - 1)
  }

  /** encodeVarintChat. */
  function PutVarint(v: nat): (b: bytes)
    ensures |b| >= 1
  {
    if v < 128 then [v as byte] else [(v % 128 + 128) as byte] + PutVarint(v / 128)
  }

  datatype Varint = Varint(value: nat, size: nat) | BadVarint(why: Error)

  /**
    The shift loop after k bytes, with `acc` read so far. Or-ing in bits above those of `acc` is
    addition, and bits shifted beyond the 64th are dropped.
  */
  function GetVarint(b: bytes, k: nat, acc: nat): (r: Varint)
    ensures r.Varint? ==> 1 <= r.size <= |b| && r.value < TWO_64
    decreases |b|
  {
    if 7 * k >= 64 then BadVarint(IntOverflow)
    else if b == [] then BadVarint(UnexpectedEof)
    else
      var acc' := (acc + (b[0] as nat % 128) * Pow128(k)) % TWO_64;
      if b[0] < 128 then Varint(acc', 1)
      else
        match GetVarint(b[1..], k + 1, acc')
        case Varint(v, n) => Varint(v, n + 1)
        case BadVarint(why) => BadVarint(why)
  }

  /** Decoding depends only on the bytes consumed. */
  lemma {:induction false} VarintLocal(b: bytes, c: bytes, k: nat, acc: nat)
    requires GetVarint(b, k, acc).Varint? && b[..GetVarint(b, k, acc).size] <= c
    ensures GetVarint(c, k, acc) == GetVarint(b, k, acc)
    decreases |b|
  {
    var n := GetVarint(b, k, acc).size;
    assert c[0] == b[..n][0];
    if b[0] >= 128 {
      assert b[..n][1..] == b[1..][..n - 1];
      VarintLocal(b[1..], c[1..], k + 1, (acc + (b[0] as nat % 128) * Pow128(k)) % TWO_64);
    }
  }

  lemma Pow128Grows(k: nat)
    requires k >= 10
    ensures Pow128(k) > TWO_64
  {
    if k > 10 { Pow128Grows(k - 1); }
  }

  /** A positive multiple of 128^k below 2^64 leaves room for this byte. */
  lemma ShiftInRange(v: nat, k: nat)
    requires v * Pow128(k) < TWO_64 && (v > 0 || k == 0)
    ensures k < 10
  {
    if k >= 10 {
      Pow128Grows(k);
      MulGrows(v, Pow128(k));
    }
  }

  lemma MulGrows(v: nat, p: nat)
    requires v > 0
    ensures v * p >= p
  {
  }

  lemma SplitLow(v: nat, p: nat)
    ensures v * p == (v % 128) * p + (v / 128) * (128 * p)
    ensures (v % 128) * p <= v * p
  {
    var (low, high) := (v % 128, v / 128);
    assert v == low + 128 * high;
    assert (low + 128 * high) * p == low * p + high * (128 * p);
  }

  /** One turn of the shift loop on a continuation byte, and on the last byte. */
  lemma GetOne(b: bytes, k: nat, acc: nat, p: nat)
    requires k < 10 && b != [] && p == Pow128(k) && acc + (b[0] as nat % 128) * p < TWO_64
    ensures b[0] < 128 ==> GetVarint(b, k, acc) == Varint(acc + (b[0] as nat % 128) * p, 1)
    ensures b[0] >= 128 && GetVarint(b[1..], k + 1, acc + (b[0] as nat % 128) * p).Varint? ==>
              var r := GetVarint(b[1..], k + 1, acc + (b[0] as nat % 128) * p);
              GetVarint(b, k, acc) == Varint(r.value, r.size + 1)
  {
    var acc' := acc + (b[0] as nat % 128) * p;
    assert acc' % TWO_64 == acc';
  }

  lemma {:induction false} PutThenGet(v: nat, rest: bytes, k: nat, acc: nat)
    requires acc + v * Pow128(k) < TWO_64 && (v > 0 || k == 0)
    ensures GetVarint(PutVarint(v) + rest, k, acc) == Varint(acc + v * Pow128(k), |PutVarint(v)|)
    decreases v
  {
    hide Pow128, GetVarint, PutVarint;
    var (b, p) := (PutVarint(v) + rest, Pow128(k));
    ShiftInRange(v, k);
    SplitLow(v, p);
    PowNext(k);
    PutSplits(v, rest);
    GetOne(b, k, acc, p);
    if v >= 128 {
      PutThenGet(v / 128, rest, k + 1, acc + (v % 128) * p);
    }
  }

  lemma PutSplits(v: nat, rest: bytes)
    ensures var b := PutVarint(v) + rest;
            && b[0] as nat % 128 == v % 128 && (b[0] < 128 <==> v < 128)
            && (v >= 128 ==> b[1..] == PutVarint(v / 128) + rest && |PutVarint(v)| == |PutVarint(v / 128)| + 1)
            && (v < 128 ==> |PutVarint(v)| == 1)
  {
  }

  lemma PowNext(k: nat)
    ensures Pow128(k + 1) == 128 * Pow128(k)
  {
  }

  /** Decoding an encoded 64-bit value gives it back, and leaves what follows unread. */
  lemma VarintRoundTrip(v: nat, rest: bytes)
    requires v < TWO_64
    ensures GetVarint(PutVarint(v) + rest, 0, 0) == Varint(v, |PutVarint(v)|)
  {
    PutThenGet(v, rest, 0, 0);
  }

  /** The size of a varint is the least n with v < 128^n. */
  lemma {:induction false} VarintSizeLeast(v: nat)
    ensures var n := |PutVarint(v)|;
            v < Pow128(n) && (n > 1 ==> v >= Pow128(n - 1))
  {
    if v >= 128 {
      VarintSizeLeast(v / 128);
      var n := |PutVarint(v / 128)|;
      assert |PutVarint(v)| == n + 1;
      assert Pow128(n) >= v / 128 + 1;
    }
  }

  lemma VarintSizeBound(v: nat)
    requires v < TWO_64
    ensures 1 <= |PutVarint(v)| <= 10
  {
    VarintSizeLeast(v);
    var n := |PutVarint(v)|;
    if n > 10 { Pow128Grows(n - 1); }
  }

  // ----- skipChat -----

  datatype Skip = Skipped(n: nat) | SkipFails(why: Error)

  /**
    The number of bytes of the field at the front of b. Fixed-size and length-delimited fields
    are counted without looking whether they end inside b.
  */
  function SkipField(b: bytes): (r: Skip)
    ensures r.Skipped? ==> r.n >= 1 && b != []
    decreases |b|, 0
  {
    if b == [] then SkipFails(PanicUnreachable)
    else
      match GetVarint(b, 0, 0)
      case BadVarint(why) => SkipFails(why)
      case Varint(wire, i) =>
        match wire % 8
        case 0 =>
          (match GetVarint(b[i..], 0, 0)
           case BadVarint(why) => SkipFails(why)
           case Varint(_, j) => Skipped(i + j))
        case 1 => Skipped(i + 8)
        case 2 =>
          (match GetVarint(b[i..], 0, 0)
           case BadVarint(why) => SkipFails(why)
           case Varint(len, j) => if len >= TWO_63 then SkipFails(InvalidLength) else Skipped(i + j + len))
        case 3 =>
          (match SkipGroup(b[i..])
           case SkipFails(why) => SkipFails(why)
           case Skipped(j) => Skipped(i + j))
        case 4 => Skipped(i)
        case 5 => Skipped(i + 4)
        case _ => SkipFails(IllegalWireType)
  }

  /** The rest of a group: fields up to the end-group tag, all inside b. */
  function SkipGroup(b: bytes): (r: Skip)
    ensures r.Skipped? ==> 1 <= r.n <= |b|
    decreases |b|, 1
  {
    match GetVarint(b, 0, 0)
    case BadVarint(why) => SkipFails(why)
    case Varint(wire, i) =>
      if wire % 8 == 4 then Skipped(i)
      else
        match SkipField(b)
        case SkipFails(why) => SkipFails(why)
        case Skipped(n) =>
          if n >= |b| then SkipFails(UnexpectedEof)
          else
            match SkipGroup(b[n..])
            case SkipFails(why) => SkipFails(why)
            case Skipped(j) => Skipped(n + j)
  }

  lemma VarintLocal0(b: bytes, c: bytes)
    requires GetVarint(b, 0, 0).Varint? && b[..GetVarint(b, 0, 0).size] <= c
    ensures GetVarint(c, 0, 0) == GetVarint(b, 0, 0)
  {
    VarintLocal(b, c, 0, 0);
  }

  /** Dropping the same front from a string and from one that starts with its first n bytes. */
  lemma DropPrefix(b: bytes, c: bytes, n: nat, i: nat, m: nat)
    requires i + m <= n <= |b| && b[..n] <= c
    ensures b[..i] <= c && b[i..][..m] <= c[i..]
  {
    assert forall j :: 0 <= j < n ==> c[j] == b[..n][j];
  }

  /** Skipping depends only on the bytes it consumes. */
  lemma {:induction false} SkipLocal(b: bytes, c: bytes)
    requires SkipField(b).Skipped? && SkipField(b).n <= |b| && b[..SkipField(b).n] <= c
    ensures SkipField(c) == SkipField(b)
    decreases |b|, 0
  {
    var n := SkipField(b).n;
    var i := GetVarint(b, 0, 0).size;
    DropPrefix(b, c, n, i, 0);
    VarintLocal0(b, c);
    var kind := GetVarint(b, 0, 0).value % 8;
    if kind == 0 || kind == 2 {
      DropPrefix(b, c, n, i, GetVarint(b[i..], 0, 0).size);
      VarintLocal0(b[i..], c[i..]);
    } else if kind == 3 {
      DropPrefix(b, c, n, i, n - i);
      GroupLocal(b[i..], c[i..]);
    }
  }

  lemma {:induction false} GroupLocal(b: bytes, c: bytes)
    requires SkipGroup(b).Skipped? && b[..SkipGroup(b).n] <= c
    ensures SkipGroup(c) == SkipGroup(b)
    decreases |b|, 1
  {
    var n := SkipGroup(b).n;
    var i := GetVarint(b, 0, 0).size;
    if GetVarint(b, 0, 0).value % 8 == 4 {
      VarintLocal0(b, c);
    } else {
      var k := SkipField(b).n;
      SkipCoversTag(b);
      DropPrefix(b, c, n, k, n - k);
      DropPrefix(b, c, n, i, 0);
      VarintLocal0(b, c);
      SkipLocal(b, c);
      GroupLocal(b[k..], c[k..]);
    }
  }

  lemma SkipCoversTag(b: bytes)
    requires SkipField(b).Skipped?
    ensures GetVarint(b, 0, 0).Varint? && GetVarint(b, 0, 0).size <= SkipField(b).n
  {
  }

  // ----- Unmarshal -----

  /** int32(wire >> 3): the low 32 bits, read as a signed number. */
  function FieldNum(wire: nat): int {
    var x := (wire / 8) % TWO_32;
    if x >= TWO_31 then x - TWO_32 else x
  }

  datatype Field = Field(chat: Chat, size: nat) | BadField(why: Error)

  /** The length-delimited content behind a tag of i bytes: where it starts and how long it is. */
  datatype Content = Content(start: nat, len: nat) | BadContent(why: Error)

  function GetContent(b: bytes, i: nat): (r: Content)
    requires i <= |b|
    ensures r.Content? ==> i < r.start && r.start + r.len <= |b| && r.len < TWO_63
  {
    match GetVarint(b[i..], 0, 0)
    case BadVarint(why) => BadContent(why)
    case Varint(len, j) =>
      if len >= TWO_63 then BadContent(InvalidLength)
      else if i + j + len > |b| then BadContent(UnexpectedEof)
      else Content(i + j, len)
  }

  /** One turn of Unmarshal's loop on the bytes that are left. */
  function ParseField(m: Chat, b: bytes): (r: Field)
    requires b != []
    ensures r.Field? ==> 1 <= r.size <= |b|
  {
    match GetVarint(b, 0, 0)
    case BadVarint(why) => BadField(why)
    case Varint(wire, i) =>
      if wire % 8 == 4 then BadField(EndGroup)
      else if FieldNum(wire) <= 0 then BadField(IllegalTag)
      else if FieldNum(wire) == 1 || FieldNum(wire) == 2 then
        if wire % 8 != 2 then BadField(WrongWireType)
        else
          match GetContent(b, i)
          case BadContent(why) => BadField(why)
          case Content(start, len) =>
            var value := b[start..start + len];
            Field(if FieldNum(wire) == 1 then m.(peerId := value) else m.(data := value), start + len)
      else
        match SkipField(b)
        case SkipFails(why) => BadField(why)
        case Skipped(n) =>
          if n > |b| then BadField(UnexpectedEof)
          else Field(m.(unknown := m.unknown + b[..n]), n)
  }

  /** The outcome of Unmarshal; a rejected message keeps what was set before the error. */
  datatype Outcome = Parsed(chat: Chat) | Rejected(why: Error, partial: Chat)

  function Parse(m: Chat, b: bytes): Outcome
    decreases |b|
  {
    if b == [] then Parsed(m)
    else
      match ParseField(m, b)
      case BadField(why) => Rejected(why, m)
      case Field(m', n) => Parse(m', b[n..])
  }

  // ----- Marshal -----

  const PEER_ID_TAG: byte := 0x0a
  const DATA_TAG: byte := 0x12

  function PutField(tag: byte, value: bytes): bytes {
    if value == [] then [] else [tag] + PutVarint(|value|) + value
  }

  function Marshal(m: Chat): bytes {
    PutField(PEER_ID_TAG, m.peerId) + PutField(DATA_TAG, m.data) + m.unknown
  }

  // ----- parsing depends only on what it consumes -----

  lemma ContentLocal(b: bytes, c: bytes, i: nat)
    requires i <= |b| && GetContent(b, i).Content?
    requires b[..GetContent(b, i).start + GetContent(b, i).len] <= c
    ensures i <= |c| && GetContent(c, i) == GetContent(b, i)
  {
    var r := GetContent(b, i);
    DropPrefix(b, c, r.start + r.len, i, r.start - i);
    VarintLocal0(b[i..], c[i..]);
  }

  lemma ParseFieldLocal(m: Chat, b: bytes, c: bytes)
    requires b != [] && ParseField(m, b).Field? && b[..ParseField(m, b).size] <= c && c != []
    ensures ParseField(m, c) == ParseField(m, b)
  {
    var n := ParseField(m, b).size;
    var (wire, i) := (GetVarint(b, 0, 0).value, GetVarint(b, 0, 0).size);
    if FieldNum(wire) == 1 || FieldNum(wire) == 2 {
      DropPrefix(b, c, n, i, 0);
      VarintLocal0(b, c);
      ContentLocal(b, c, i);
      var r := GetContent(b, i);
      assert c[r.start..n] == c[..n][r.start..n] == b[..n][r.start..n] == b[r.start..n];
    } else {
      SkipCoversTag(b);
      DropPrefix(b, c, n, i, 0);
      VarintLocal0(b, c);
      SkipLocal(b, c);
      assert c[..n] == b[..n];
    }
  }

  /** Parsing a + b is parsing b from the message that a leads to. */
  lemma {:induction false} ParseConcat(m: Chat, a: bytes, b: bytes)
    requires Parse(m, a).Parsed?
    ensures Parse(m, a + b) == Parse(Parse(m, a).chat, b)
    decreases |a|
  {
    hide ParseField;
    if a == [] {
      assert a + b == b;
    } else {
      var r := ParseField(m, a);
      assert (a + b)[..r.size] == a[..r.size];
      ParseFieldLocal(m, a, a + b);
      assert (a + b)[r.size..] == a[r.size..] + b;
      ParseConcat(r.chat, a[r.size..], b);
    }
  }

  // ----- printing and parsing back -----

  lemma TagByte(tag: byte, rest: bytes)
    requires tag < 128
    ensures GetVarint([tag] + rest, 0, 0) == Varint(tag as nat, 1)
  {
  }

  lemma ParseOne(m: Chat, b: bytes, m': Chat)
    requires b != [] && ParseField(m, b) == Field(m', |b|)
    ensures Parse(m, b) == Parsed(m')
  {
    assert b[|b|..] == [];
  }

  lemma PutFieldContent(tag: byte, value: bytes)
    requires tag < 128 && value != [] && |value| < TWO_63
    ensures var b := PutField(tag, value);
            && GetVarint(b, 0, 0) == Varint(tag as nat, 1)
            && GetContent(b, 1).Content? && GetContent(b, 1).start + GetContent(b, 1).len == |b|
            && b[GetContent(b, 1).start..|b|] == value
  {
    var (b, len) := (PutField(tag, value), PutVarint(|value|));
    assert b == [tag] + (len + value);
    TagByte(tag, len + value);
    hide GetVarint, PutVarint;
    assert b[1..] == len + value;
    VarintRoundTrip(|value|, value);
    assert GetContent(b, 1) == Content(1 + |len|, |value|);
    assert b[1 + |len|..] == value;
  }

  lemma KnownTags()
    ensures FieldNum(PEER_ID_TAG as nat) == 1 && FieldNum(DATA_TAG as nat) == 2
    ensures PEER_ID_TAG as nat % 8 == 2 && DATA_TAG as nat % 8 == 2
  {
  }

  /** A printed field, if not empty, is parsed as that field. */
  lemma FieldRoundTrip(m: Chat, tag: byte, value: bytes)
    requires (tag == PEER_ID_TAG || tag == DATA_TAG) && value != [] && |value| < TWO_63
    ensures Parse(m, PutField(tag, value))
        == Parsed(if tag == PEER_ID_TAG then m.(peerId := value) else m.(data := value))
  {
    hide Parse, GetVarint, PutField, GetContent, SkipField, FieldNum;
    PutFieldContent(tag, value);
    KnownTags();
    ParseOne(m, PutField(tag, value), if tag == PEER_ID_TAG then m.(peerId := value) else m.(data := value));
  }

  /** Bytes that parse as unknown fields only: they are kept, in order, and change nothing else. */
  ghost predicate OnlyUnknown(u: bytes) {
    forall m :: Parse(m, u) == Parsed(m.(unknown := m.unknown + u))
  }

  lemma UnknownAt(m: Chat, u: bytes)
    requires OnlyUnknown(u)
    ensures Parse(m, u) == Parsed(m.(unknown := m.unknown + u))
  {
  }

  lemma UnknownAppendAt(m: Chat, u: bytes, w: bytes)
    requires OnlyUnknown(u) && OnlyUnknown(w)
    ensures Parse(m, u + w) == Parsed(m.(unknown := m.unknown + (u + w)))
  {
    hide Parse, OnlyUnknown;
    UnknownAt(m, u);
    UnknownAt(m.(unknown := m.unknown + u), w);
    ParseConcat(m, u, w);
    assert m.unknown + u + w == m.unknown + (u + w);
  }

  lemma OnlyUnknownAppend(u: bytes, w: bytes)
    requires OnlyUnknown(u) && OnlyUnknown(w)
    ensures OnlyUnknown(u + w)
  {
    hide Parse;
    forall m
      ensures Parse(m, u + w) == Parsed(m.(unknown := m.unknown + (u + w)))
    {
      UnknownAppendAt(m, u, w);
    }
  }

  /** An unknown field, cut out of its surroundings, parses as itself. */
  lemma SkippedIsUnknown(m: Chat, b: bytes)
    requires b != [] && ParseField(m, b).Field? && FieldNum(GetVarint(b, 0, 0).value) > 2
    ensures ParseField(m, b).chat == m.(unknown := m.unknown + b[..ParseField(m, b).size])
    ensures OnlyUnknown(b[..ParseField(m, b).size])
  {
    var n := ParseField(m, b).size;
    var c := b[..n];
    forall m'
      ensures Parse(m', c) == Parsed(m'.(unknown := m'.unknown + c))
    {
      assert ParseField(m', b) == Field(m'.(unknown := m'.unknown + c), n);
      ParseFieldLocal(m', b, c);
      assert c[n..] == [];
    }
  }

  /** Everything a parse can produce: lengths that fit an int, and unknown bytes that parse alone. */
  ghost predicate Normal(m: Chat) {
    |m.peerId| < TWO_63 && |m.data| < TWO_63 && OnlyUnknown(m.unknown)
  }

  lemma FieldKeepsNormal(m: Chat, b: bytes)
    requires Normal(m) && b != [] && ParseField(m, b).Field?
    ensures Normal(ParseField(m, b).chat)
  {
    hide OnlyUnknown, GetVarint, SkipField;
    if FieldNum(GetVarint(b, 0, 0).value) > 2 {
      SkippedIsUnknown(m, b);
      OnlyUnknownAppend(m.unknown, b[..ParseField(m, b).size]);
    }
  }

  lemma {:induction false} ParseKeepsNormal(m: Chat, b: bytes)
    requires Normal(m) && Parse(m, b).Parsed?
    ensures Normal(Parse(m, b).chat)
    decreases |b|
  {
    hide Normal, ParseField;
    if b != [] {
      FieldKeepsNormal(m, b);
      var r := ParseField(m, b);
      ParseKeepsNormal(r.chat, b[r.size..]);
    }
  }

  lemma PutFieldParses(m: Chat, tag: byte, value: bytes)
    requires (tag == PEER_ID_TAG && m.peerId == []) || (tag == DATA_TAG && m.data == [])
    requires |value| < TWO_63
    ensures Parse(m, PutField(tag, value))
        == Parsed(if tag == PEER_ID_TAG then m.(peerId := value) else m.(data := value))
  {
    if value != [] {
      FieldRoundTrip(m, tag, value);
    }
  }

  /** A normal message is read back from its encoding, unknown fields included. */
  lemma MarshalRoundTrip(m: Chat)
    requires Normal(m)
    ensures Parse(EMPTY, Marshal(m)) == Parsed(m)
  {
    hide Parse, PutField, OnlyUnknown;
    var (p, d) := (PutField(PEER_ID_TAG, m.peerId), PutField(DATA_TAG, m.data));
    var (m1, m2) := (EMPTY.(peerId := m.peerId), EMPTY.(peerId := m.peerId, data := m.data));
    PutFieldParses(EMPTY, PEER_ID_TAG, m.peerId);
    PutFieldParses(m1, DATA_TAG, m.data);
    ParseConcat(EMPTY, p, d + m.unknown);
    ParseConcat(m1, d, m.unknown);
    UnknownAt(m2, m.unknown);
    assert Marshal(m) == p + (d + m.unknown);
  }

  /** Main result. Whatever bytes parse to m, marshalling m and parsing again gives m. */
  lemma NormalForm(b: bytes)
    requires Parse(EMPTY, b).Parsed?
    ensures Parse(EMPTY, Marshal(Parse(EMPTY, b).chat)) == Parse(EMPTY, b)
  {
    EmptyIsNormal();
    ParseKeepsNormal(EMPTY, b);
    MarshalRoundTrip(Parse(EMPTY, b).chat);
  }

  lemma EmptyIsNormal()
    ensures Normal(EMPTY)
  {
    forall m: Chat
      ensures Parse(m, []) == Parsed(m.(unknown := m.unknown + []))
    {
      assert m.unknown + [] == m.unknown;
    }
  }

  /** A field adds at most itself to the unknown bytes, and all of itself only if it is unknown. */
  lemma FieldCounts(m: Chat, b: bytes)
    requires b != [] && ParseField(m, b).Field?
    ensures var r := ParseField(m, b);
            && |r.chat.unknown| <= |m.unknown| + r.size
            && (|r.chat.unknown| == |m.unknown| + r.size ==> OnlyUnknown(b[..r.size]))
  {
    hide OnlyUnknown;
    if FieldNum(GetVarint(b, 0, 0).value) > 2 {
      SkippedIsUnknown(m, b);
    }
  }

  lemma {:induction false} UnknownCounts(m: Chat, b: bytes)
    requires Parse(m, b).Parsed?
    ensures |Parse(m, b).chat.unknown| <= |m.unknown| + |b|
    ensures |Parse(m, b).chat.unknown| == |m.unknown| + |b| ==> OnlyUnknown(b)
    decreases |b|
  {
    hide OnlyUnknown, ParseField;
    if b == [] {
      EmptyIsNormal();
    } else {
      var r := ParseField(m, b);
      FieldCounts(m, b);
      UnknownCounts(r.chat, b[r.size..]);
      if OnlyUnknown(b[..r.size]) && OnlyUnknown(b[r.size..]) {
        OnlyUnknownAppend(b[..r.size], b[r.size..]);
        assert b[..r.size] + b[r.size..] == b;
      }
    }
  }

  /** Whether unknown bytes parse alone can be seen from one parse. */
  lemma OnlyUnknownCheck(u: bytes)
    ensures OnlyUnknown(u) <==> Parse(EMPTY, u) == Parsed(EMPTY.(unknown := u))
  {
    if OnlyUnknown(u) {
      UnknownAt(EMPTY, u);
      assert [] + u == u;
    } else if Parse(EMPTY, u) == Parsed(EMPTY.(unknown := u)) {
      UnknownCounts(EMPTY, u);
    }
  }

  /** A message is read back from its encoding exactly when it is one that a parse can produce. */
  lemma RoundTripIffNormal(m: Chat)
    ensures Parse(EMPTY, Marshal(m)) == Parsed(m) <==>
            |m.peerId| < TWO_63 && |m.data| < TWO_63 && Parse(EMPTY, m.unknown) == Parsed(EMPTY.(unknown := m.unknown))
  {
    OnlyUnknownCheck(m.unknown);
    if Normal(m) {
      MarshalRoundTrip(m);
    } else if Parse(EMPTY, Marshal(m)) == Parsed(m) {
      EmptyIsNormal();
      ParseKeepsNormal(EMPTY, Marshal(m));
    }
  }

  // ----- the panic -----

  lemma {:induction false} SkipNeverPanics(b: bytes)
    ensures SkipField(b) == SkipFails(PanicUnreachable) <==> b == []
    ensures SkipGroup(b) != SkipFails(PanicUnreachable)
    decreases |b|
  {
    if b != [] {
      VarintNeverPanics(b, 0, 0);
      match GetVarint(b, 0, 0)
      case BadVarint(_) =>
      case Varint(wire, i) =>
        VarintNeverPanics(b[i..], 0, 0);
        SkipNeverPanics(b[i..]);
        if SkipField(b).Skipped? && SkipField(b).n < |b| {
          SkipNeverPanics(b[SkipField(b).n..]);
        }
    }
  }

  lemma {:induction false} VarintNeverPanics(b: bytes, k: nat, acc: nat)
    ensures GetVarint(b, k, acc) != BadVarint(PanicUnreachable)
    decreases |b|
  {
    if b != [] && 7 * k < 64 {
      VarintNeverPanics(b[1..], k + 1, (acc + (b[0] as nat % 128) * Pow128(k)) % TWO_64);
    }
  }

  /** No input makes Unmarshal run into the final panic of skipChat. */
  lemma {:induction false} ParseNeverPanics(m: Chat, b: bytes)
    ensures Parse(m, b).Rejected? ==> Parse(m, b).why != PanicUnreachable
    decreases |b|
  {
    if b != [] {
      SkipNeverPanics(b);
      VarintNeverPanics(b, 0, 0);
      if GetVarint(b, 0, 0).Varint? {
        VarintNeverPanics(b[GetVarint(b, 0, 0).size..], 0, 0);
      }
      var r := ParseField(m, b);
      if r.Field? {
        ParseNeverPanics(r.chat, b[r.size..]);
      }
    }
  }
}
