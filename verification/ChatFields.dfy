/**
  The wire format as a printer of fields of every wire type (section "Message Structure" of the
  Protocol Buffers encoding specification), and what the codec of cmd/pb/chat.pb.go does with
  what it prints: how far a field is skipped, and what Unmarshal makes of a list of fields.
*/
module ChatFields {
  import opened Basics
  import opened ChatCodec

  /** A field by its wire type: a varint, 8 bytes, length and content, a group of fields, or 4 bytes. */
  datatype Wire =
    | Number(num: nat, value: nat)
    | Eight(num: nat, body: bytes)
    | Delimited(num: nat, content: bytes)
    | Group(num: nat, fields: seq<Wire>)
    | Four(num: nat, body: bytes)

  /** Field numbers are positive and fit an int32; values and lengths fit what carries them. */
  predicate Sound(f: Wire) {
    && 1 <= f.num < TWO_31
    && match f
       case Number(_, value) => value < TWO_64
       case Eight(_, body) => |body| == 8
       case Delimited(_, content) => |content| < TWO_63
       case Group(_, fields) => AllSound(fields)
       case Four(_, body) => |body| == 4
  }

  predicate AllSound(fields: seq<Wire>) {
    forall i :: 0 <= i < |fields| ==> Sound(fields[i])
  }

  /** The tag of a field: its number, and its wire type in the lowest three bits. */
  function Tag(num: nat, kind: nat): bytes {
    PutVarint(8 * num + kind)
  }

  function Print(f: Wire): (b: bytes)
    ensures b != []
    decreases f, 1
  {
    match f
    case Number(num, value) => Tag(num, 0) + PutVarint(value)
    case Eight(num, body) => Tag(num, 1) + body
    case Delimited(num, content) => Tag(num, 2) + (PutVarint(|content|) + content)
    case Group(num, fields) => Tag(num, 3) + (PrintAll(fields) + Tag(num, 4))
    case Four(num, body) => Tag(num, 5) + body
  }

  function PrintAll(fields: seq<Wire>): bytes
    decreases fields, 0
  {
    if fields == [] then [] else Print(fields[0]) + PrintAll(fields[1..])
  }

  // ----- digits of a varint -----

  /** Byte i of an encoded number is its i-th digit to the base 128, with the high bit set on all but the last. */
  lemma {:induction false} VarintDigits(v: nat, i: nat)
    requires i < |PutVarint(v)|
    ensures PutVarint(v)[i] as nat == (v / Pow128(i)) % 128 + if i + 1 < |PutVarint(v)| then 128 else 0
  {
    if i > 0 {
      VarintDigits(v / 128, i - 1);
      DivTwice(v, Pow128(i - 1));
    }
  }

  lemma DivTwice(v: nat, p: nat)
    requires p > 0
    ensures v / 128 / p == v / (128 * p)
  {
    var (q, r) := (v / 128, v % 128);
    var (a, c) := (q / p, q % p);
    assert v == 128 * (a * p + c) + r;
    assert 128 * (a * p + c) + r == a * (128 * p) + (128 * c + r);
    assert 128 * c + r < 128 * p;
    QuotientIs(v, 128 * p, a, 128 * c + r);
  }

  lemma QuotientIs(v: nat, d: nat, a: nat, r: nat)
    requires d > 0 && v == a * d + r && r < d
    ensures v / d == a
  {
    var q := v / d;
    assert v == q * d + v % d;
    assert (a - q) * d == a * d - q * d;
    SmallMultiple(a - q, d);
  }

  lemma SmallMultiple(x: int, d: int)
    requires d >= 0
    ensures -d < x * d < d ==> x == 0
  {
    if x >= 1 {
      assert x * d == d + (x - 1) * d && (x - 1) * d >= 0;
    } else if x <= -1 {
      assert x * d == -d + (x + 1) * d && (x + 1) * d <= 0;
    }
  }

  // ----- skipping -----

  lemma TagRead(num: nat, kind: nat, rest: bytes)
    requires num < TWO_31 && kind < 8
    ensures var b := Tag(num, kind) + rest;
            && GetVarint(b, 0, 0) == Varint(8 * num + kind, |Tag(num, kind)|)
            && (8 * num + kind) % 8 == kind && b[|Tag(num, kind)|..] == rest
            && (num >= 1 ==> FieldNum(8 * num + kind) == num)
  {
    hide GetVarint, PutVarint;
    VarintRoundTrip(8 * num + kind, rest);
  }

  /** Tag and body of a field, with what follows. */
  lemma Behind(tag: bytes, body: bytes, rest: bytes)
    ensures (tag + body) + rest == tag + (body + rest) && ((tag + body) + rest)[|tag|..] == body + rest
    ensures |tag + body| == |tag| + |body|
  {
  }

  /** How long a field is, by its wire type. */
  lemma SkipTagged(num: nat, kind: nat, x: bytes)
    requires num < TWO_31 && kind < 6
    ensures var (b, n) := (Tag(num, kind) + x, |Tag(num, kind)|);
            && (kind == 0 && GetVarint(x, 0, 0).Varint? ==> SkipField(b) == Skipped(n + GetVarint(x, 0, 0).size))
            && (kind == 1 ==> SkipField(b) == Skipped(n + 8))
            && (kind == 2 && GetVarint(x, 0, 0).Varint? && GetVarint(x, 0, 0).value < TWO_63 ==>
                  SkipField(b) == Skipped(n + GetVarint(x, 0, 0).size + GetVarint(x, 0, 0).value))
            && (kind == 3 && SkipGroup(x).Skipped? ==> SkipField(b) == Skipped(n + SkipGroup(x).n))
            && (kind == 5 ==> SkipField(b) == Skipped(n + 4))
  {
    hide GetVarint, PutVarint, SkipGroup;
    TagRead(num, kind, x);
    NonEmptyTag(num, kind);
  }

  lemma NonEmptyTag(num: nat, kind: nat)
    ensures |Tag(num, kind)| >= 1
  {
  }

  /** What is printed for a field is skipped exactly, whatever its wire type and whatever follows. */
  lemma {:induction false} SkipsPrinted(f: Wire, rest: bytes)
    requires Sound(f)
    ensures SkipField(Print(f) + rest) == Skipped(|Print(f)|)
    decreases f, 1
  {
    PrintIs(f);
    hide GetVarint, PutVarint, Print, PrintAll, FieldNum, SkipField, SkipGroup, Tag;
    match f
    case Number(num, value) =>
      Behind(Tag(num, 0), PutVarint(value), rest);
      SkipTagged(num, 0, PutVarint(value) + rest);
      VarintRoundTrip(value, rest);
    case Eight(num, body) =>
      Behind(Tag(num, 1), body, rest);
      SkipTagged(num, 1, body + rest);
    case Delimited(num, content) =>
      var len := PutVarint(|content|);
      Behind(Tag(num, 2), len + content, rest);
      SkipTagged(num, 2, (len + content) + rest);
      Behind(len, content, rest);
      VarintRoundTrip(|content|, content + rest);
    case Group(num, fields) =>
      var body := PrintAll(fields) + Tag(num, 4);
      Behind(Tag(num, 3), body, rest);
      SkipTagged(num, 3, body + rest);
      Behind(PrintAll(fields), Tag(num, 4), rest);
      GroupSkipsPrinted(fields, num, rest);
    case Four(num, body) =>
      Behind(Tag(num, 5), body, rest);
      SkipTagged(num, 5, body + rest);
  }

  lemma PrintIs(f: Wire)
    ensures match f
            case Number(num, value) => Print(f) == Tag(num, 0) + PutVarint(value)
            case Eight(num, body) => Print(f) == Tag(num, 1) + body
            case Delimited(num, content) => Print(f) == Tag(num, 2) + (PutVarint(|content|) + content)
            case Group(num, fields) => Print(f) == Tag(num, 3) + (PrintAll(fields) + Tag(num, 4))
            case Four(num, body) => Print(f) == Tag(num, 5) + body
  {
  }

  function KindOf(f: Wire): nat {
    match f
    case Number(_, _) => 0
    case Eight(_, _) => 1
    case Delimited(_, _) => 2
    case Group(_, _) => 3
    case Four(_, _) => 5
  }

  /** A printed field starts with its own tag. */
  lemma StartsWithTag(f: Wire, rest: bytes)
    requires Sound(f)
    ensures GetVarint(Print(f) + rest, 0, 0) == Varint(8 * f.num + KindOf(f), |Tag(f.num, KindOf(f))|)
    ensures FieldNum(8 * f.num + KindOf(f)) == f.num && (8 * f.num + KindOf(f)) % 8 == KindOf(f)
    ensures |Tag(f.num, KindOf(f))| <= |Print(f)|
  {
    hide GetVarint, PutVarint, FieldNum;
    var tag := Tag(f.num, KindOf(f));
    var body := Print(f)[|tag|..];
    assert Print(f) == tag + body;
    Behind(tag, body, rest);
    TagRead(f.num, KindOf(f), body + rest);
  }

  /** The fields of a group up to its end tag. */
  lemma {:induction false} GroupSkipsPrinted(fields: seq<Wire>, num: nat, rest: bytes)
    requires AllSound(fields) && num < TWO_31
    ensures SkipGroup(PrintAll(fields) + (Tag(num, 4) + rest)) == Skipped(|PrintAll(fields) + Tag(num, 4)|)
    decreases fields, 0
  {
    hide GetVarint, PutVarint, Print, SkipField, FieldNum;
    TagRead(num, 4, rest);
    if fields == [] {
      assert PrintAll(fields) + (Tag(num, 4) + rest) == Tag(num, 4) + rest;
    } else {
      var (first, more) := (Print(fields[0]), PrintAll(fields[1..]) + (Tag(num, 4) + rest));
      assert PrintAll(fields) + (Tag(num, 4) + rest) == first + more && (first + more)[|first|..] == more;
      StartsWithTag(fields[0], more);
      SkipsPrinted(fields[0], more);
      GroupSkipsPrinted(fields[1..], num, rest);
    }
  }

  // ----- parsing a list of fields -----

  /** The two fields of the message, and how they must be written. */
  predicate Known(f: Wire) {
    f.num == 1 || f.num == 2
  }

  predicate Fitting(fields: seq<Wire>) {
    forall i :: 0 <= i < |fields| && Known(fields[i]) ==> fields[i].Delimited?
  }

  /** The content of the last field with this number, or else the value there was before. */
  predicate LastIs(fields: seq<Wire>, num: nat, before: bytes, value: bytes) {
    || ((forall i :: 0 <= i < |fields| ==> fields[i].num != num) && value == before)
    || exists i :: 0 <= i < |fields| && fields[i] == Delimited(num, value)
                   && forall j :: i < j < |fields| ==> fields[j].num != num
  }

  /** All other fields, in order. */
  function Others(fields: seq<Wire>): seq<Wire> {
    if fields == [] then []
    else if Known(fields[0]) then Others(fields[1..])
    else [fields[0]] + Others(fields[1..])
  }

  /** What one field does to a message. */
  function Taken(m: Chat, f: Wire): Chat
    requires Known(f) ==> f.Delimited?
  {
    if f.num == 1 then m.(peerId := f.content)
    else if f.num == 2 then m.(data := f.content)
    else m.(unknown := m.unknown + Print(f))
  }

  lemma KnownContent(f: Wire, rest: bytes)
    requires Sound(f) && f.Delimited?
    ensures var b := Print(f) + rest;
            var i := |Tag(f.num, 2)|;
            && i <= |b| && GetContent(b, i).Content?
            && GetContent(b, i).start + GetContent(b, i).len == |Print(f)|
            && b[GetContent(b, i).start..|Print(f)|] == f.content
  {
    hide GetVarint, PutVarint;
    var (tag, len) := (Tag(f.num, 2), PutVarint(|f.content|));
    Behind(tag, len + f.content, rest);
    Behind(len, f.content, rest);
    VarintRoundTrip(|f.content|, f.content + rest);
    var b := Print(f) + rest;
    assert GetContent(b, |tag|) == Content(|tag| + |len|, |f.content|);
    assert b[|tag| + |len|..|Print(f)|] == f.content;
  }

  /** One turn of Unmarshal on a printed field. */
  lemma ParsesPrinted(m: Chat, f: Wire, rest: bytes)
    requires Sound(f)
    ensures Known(f) && !f.Delimited? ==> ParseField(m, Print(f) + rest) == BadField(WrongWireType)
    ensures (Known(f) ==> f.Delimited?) ==> ParseField(m, Print(f) + rest) == Field(Taken(m, f), |Print(f)|)
  {
    hide GetVarint, PutVarint, Print, SkipField, GetContent, FieldNum;
    var b := Print(f) + rest;
    StartsWithTag(f, rest);
    assert b[..|Print(f)|] == Print(f);
    if f.Delimited? { KnownContent(f, rest); }
    SkipsPrinted(f, rest);
  }

  lemma ParseTurn(m: Chat, f: Wire, rest: bytes)
    requires Sound(f)
    ensures Known(f) && !f.Delimited? ==> Parse(m, Print(f) + rest) == Rejected(WrongWireType, m)
    ensures (Known(f) ==> f.Delimited?) ==> Parse(m, Print(f) + rest) == Parse(Taken(m, f), rest)
  {
    hide ParseField, Print;
    ParsesPrinted(m, f, rest);
    assert (Print(f) + rest)[|Print(f)|..] == rest;
  }

  lemma LastOfMore(f: Wire, more: seq<Wire>, num: nat, before: bytes, value: bytes)
    requires f.num == num ==> f.Delimited?
    requires LastIs(more, num, if f.num == num then f.content else before, value)
    ensures LastIs([f] + more, num, before, value)
  {
    var all := [f] + more;
    if forall i :: 0 <= i < |more| ==> more[i].num != num {
      if f.num == num {
        assert all[0] == Delimited(num, value) && forall j :: 0 < j < |all| ==> all[j] == more[j - 1];
      }
    } else {
      var i :| 0 <= i < |more| && more[i] == Delimited(num, value) && forall j :: i < j < |more| ==> more[j].num != num;
      assert all[i + 1] == Delimited(num, value) && forall j :: i + 1 < j < |all| ==> all[j] == more[j - 1];
    }
  }

  /**
    Main result. Unmarshal of any list of printed fields sets PeerID and Data to the content of the
    last field with their number, if there is one, and keeps exactly the other fields, in order.
  */
  lemma {:induction false} ParsesFields(m: Chat, fields: seq<Wire>)
    requires AllSound(fields) && Fitting(fields)
    ensures var r := Parse(m, PrintAll(fields));
            && r.Parsed? && LastIs(fields, 1, m.peerId, r.chat.peerId) && LastIs(fields, 2, m.data, r.chat.data)
            && r.chat.unknown == m.unknown + PrintAll(Others(fields))
    decreases |fields|
  {
    hide Print, Sound;
    if fields == [] {
      assert m.unknown + [] == m.unknown;
    } else {
      var (f, more) := (fields[0], fields[1..]);
      assert [f] + more == fields && (Known(f) ==> f.Delimited?);
      hide Parse;
      ParseTurn(m, f, PrintAll(more));
      ParsesFields(Taken(m, f), more);
      var r := Parse(m, PrintAll(fields)).chat;
      hide LastIs;
      LastOfMore(f, more, 1, m.peerId, r.peerId);
      LastOfMore(f, more, 2, m.data, r.data);
      OthersOfMore(m.unknown, f, more);
    }
  }

  lemma OthersOfMore(before: bytes, f: Wire, more: seq<Wire>)
    ensures PrintAll(Others([f] + more)) == (if Known(f) then [] else Print(f)) + PrintAll(Others(more))
    ensures before + PrintAll(Others([f] + more))
        == (if Known(f) then before else before + Print(f)) + PrintAll(Others(more))
  {
    hide Print;
    assert ([f] + more)[1..] == more;
    if !Known(f) {
      assert ([f] + Others(more))[1..] == Others(more);
      assert before + Print(f) + PrintAll(Others(more)) == before + (Print(f) + PrintAll(Others(more)));
    }
  }

  /** A list of printed fields is accepted exactly when its fields 1 and 2 are length-delimited. */
  lemma {:induction false} AcceptsFieldsIff(m: Chat, fields: seq<Wire>)
    requires AllSound(fields)
    ensures Parse(m, PrintAll(fields)).Parsed? <==> Fitting(fields)
    ensures !Fitting(fields) ==> Parse(m, PrintAll(fields)).why == WrongWireType
    decreases |fields|
  {
    hide Print;
    if fields != [] {
      var (f, more) := (fields[0], fields[1..]);
      hide Parse;
      ParseTurn(m, f, PrintAll(more));
      assert Fitting(fields) <==> (Known(f) ==> f.Delimited?) && Fitting(more) by {
        assert forall i :: 0 < i < |fields| ==> fields[i] == more[i - 1];
      }
      if Known(f) ==> f.Delimited? { AcceptsFieldsIff(Taken(m, f), more); }
    }
  }

  /** What Unmarshal says to a tag that starts no field. */
  lemma StrayTags(m: Chat, num: nat, rest: bytes)
    requires num < TWO_31
    ensures Parse(m, Tag(num, 4) + rest) == Rejected(EndGroup, m)
    ensures num > 2 ==> Parse(m, Tag(num, 6) + rest) == Parse(m, Tag(num, 7) + rest) == Rejected(IllegalWireType, m)
    ensures forall kind :: 0 <= kind < 8 && kind != 4 ==> Parse(m, Tag(0, kind) + rest) == Rejected(IllegalTag, m)
  {
    hide GetVarint, PutVarint;
    forall kind | 0 <= kind < 8 && kind != 4
      ensures Parse(m, Tag(0, kind) + rest) == Rejected(IllegalTag, m)
    {
      TagRead(0, kind, rest);
      NonEmptyTag(0, kind);
    }
    StrayTag(m, num, 4, rest);
    if num > 2 {
      StrayTag(m, num, 6, rest);
      StrayTag(m, num, 7, rest);
    }
  }

  lemma StrayTag(m: Chat, num: nat, kind: nat, rest: bytes)
    requires num < TWO_31 && (kind == 4 || (num > 2 && (kind == 6 || kind == 7)))
    ensures Parse(m, Tag(num, kind) + rest) == Rejected(if kind == 4 then EndGroup else IllegalWireType, m)
  {
    hide GetVarint, PutVarint, FieldNum;
    TagRead(num, kind, rest);
    NonEmptyTag(num, kind);
  }

  // ----- truncated input -----

  /** A varint that is cut short. */
  lemma {:induction false} VarintCut(v: nat, k: nat, n: nat, acc: nat)
    requires k < |PutVarint(v)| && n + |PutVarint(v)| <= 10
    ensures GetVarint(PutVarint(v)[..k], n, acc) == BadVarint(UnexpectedEof)
  {
    if k > 0 {
      var acc' := (acc + (PutVarint(v)[0] as nat % 128) * Pow128(n)) % TWO_64;
      assert PutVarint(v)[..k][1..] == PutVarint(v / 128)[..k - 1];
      VarintCut(v / 128, k - 1, n + 1, acc');
    }
  }

  lemma ShortTag(num: nat, kind: nat, k: nat)
    requires num < TWO_31 && kind < 8 && k < |Tag(num, kind)|
    ensures GetVarint(Tag(num, kind)[..k], 0, 0) == BadVarint(UnexpectedEof)
  {
    VarintSizeBound(8 * num + kind);
    VarintCut(8 * num + kind, k, 0, 0);
  }

  /** A string cut behind its first part, and before. */
  lemma CutBehind(a: bytes, b: bytes, k: nat)
    requires k <= |a + b|
    ensures k >= |a| ==> (a + b)[..k] == a + b[..k - |a|]
    ensures k <= |a| ==> (a + b)[..k] == a[..k]
  {
  }

  lemma SkipCutTag(b: bytes)
    requires b != [] && GetVarint(b, 0, 0) == BadVarint(UnexpectedEof)
    ensures SkipField(b) == SkipFails(UnexpectedEof)
  {
  }

  lemma SkipCutBody(num: nat, kind: nat, x: bytes)
    requires num < TWO_31 && GetVarint(x, 0, 0) == BadVarint(UnexpectedEof)
    ensures kind == 0 || kind == 2 ==> SkipField(Tag(num, kind) + x) == SkipFails(UnexpectedEof)
  {
    if kind == 0 || kind == 2 {
      hide GetVarint, PutVarint;
      TagRead(num, kind, x);
      NonEmptyTag(num, kind);
    }
  }

  lemma SkipCutGroup(num: nat, x: bytes)
    requires num < TWO_31 && SkipGroup(x) == SkipFails(UnexpectedEof)
    ensures SkipField(Tag(num, 3) + x) == SkipFails(UnexpectedEof)
  {
    hide GetVarint, PutVarint, SkipGroup;
    TagRead(num, 3, x);
    NonEmptyTag(num, 3);
  }

  /** The body behind the tag of a printed field. */
  function Body(f: Wire): bytes {
    match f
    case Number(_, value) => PutVarint(value)
    case Eight(_, body) => body
    case Delimited(_, content) => PutVarint(|content|) + content
    case Group(num, fields) => PrintAll(fields) + Tag(num, 4)
    case Four(_, body) => body
  }

  lemma TagAndBody(f: Wire)
    ensures Print(f) == Tag(f.num, KindOf(f)) + Body(f)
  {
  }

  /** Of a field that is cut short nothing is skipped, or more than there is. */
  lemma {:induction false} SkipsNoCut(f: Wire, k: nat)
    requires Sound(f) && 0 < k < |Print(f)|
    ensures var r := SkipField(Print(f)[..k]);
            r == SkipFails(UnexpectedEof) || (r.Skipped? && r.n > k)
    decreases f, 1
  {
    TagAndBody(f);
    var (tag, body) := (Tag(f.num, KindOf(f)), Body(f));
    hide GetVarint, PutVarint, Print, PrintAll, SkipField, SkipGroup, Tag, Body;
    CutBehind(tag, body, k);
    if k < |tag| {
      ShortTag(f.num, KindOf(f), k);
      SkipCutTag(tag[..k]);
    } else {
      CutBody(f, k - |tag|);
      SkipTagged(f.num, KindOf(f), body[..k - |tag|]);
    }
  }

  lemma {:induction false} CutBody(f: Wire, k: nat)
    requires Sound(f) && k < |Body(f)|
    ensures var (n, r) := (|Tag(f.num, KindOf(f))|, SkipField(Tag(f.num, KindOf(f)) + Body(f)[..k]));
            r == SkipFails(UnexpectedEof) || (r.Skipped? && r.n > n + k)
    decreases f, 0
  {
    hide GetVarint, PutVarint, Print, PrintAll, SkipField, SkipGroup, Tag;
    SkipTagged(f.num, KindOf(f), Body(f)[..k]);
    match f
    case Number(num, value) =>
      VarintSizeBound(value);
      VarintCut(value, k, 0, 0);
      SkipCutBody(num, 0, Body(f)[..k]);
    case Eight(_, _) =>
    case Delimited(num, content) =>
      var len := PutVarint(|content|);
      CutBehind(len, content, k);
      if k < |len| {
        VarintSizeBound(|content|);
        VarintCut(|content|, k, 0, 0);
        SkipCutBody(num, 2, Body(f)[..k]);
      } else {
        VarintRoundTrip(|content|, content[..k - |len|]);
      }
    case Group(num, fields) =>
      GroupCut(fields, num, k);
      SkipCutGroup(num, Body(f)[..k]);
    case Four(_, _) =>
  }

  lemma {:induction false} GroupCut(fields: seq<Wire>, num: nat, k: nat)
    requires AllSound(fields) && num < TWO_31 && k < |PrintAll(fields) + Tag(num, 4)|
    ensures SkipGroup((PrintAll(fields) + Tag(num, 4))[..k]) == SkipFails(UnexpectedEof)
    decreases fields, 1
  {
    hide GetVarint, PutVarint, Print, SkipField, Tag;
    var b := (PrintAll(fields) + Tag(num, 4))[..k];
    if fields == [] {
      assert PrintAll(fields) + Tag(num, 4) == Tag(num, 4);
      ShortTag(num, 4, k);
    } else {
      var (f, first, more) := (fields[0], Print(fields[0]), PrintAll(fields[1..]) + Tag(num, 4));
      var tag := Tag(f.num, KindOf(f));
      assert PrintAll(fields) + Tag(num, 4) == first + more;
      CutBehind(first, more, k);
      StartsWithTag(f, []);
      assert first + [] == first;
      if k < |tag| {
        TagAndBody(f);
        assert b == tag[..k];
        ShortTag(f.num, KindOf(f), k);
      } else if k < |first| {
        CutStartsWithTag(f, k);
        NonEmptyTag(f.num, KindOf(f));
        SkipsNoCut(f, k);
      } else {
        var rest := more[..k - |first|];
        StartsWithTag(f, rest);
        SkipsPrinted(f, rest);
        assert b == first + rest && b[|first|..] == rest;
        if k > |first| { GroupCut(fields[1..], num, k - |first|); }
      }
    }
  }

  lemma CutStartsWithTag(f: Wire, k: nat)
    requires Sound(f) && |Tag(f.num, KindOf(f))| <= k <= |Print(f)|
    ensures GetVarint(Print(f)[..k], 0, 0) == Varint(8 * f.num + KindOf(f), |Tag(f.num, KindOf(f))|)
    ensures (8 * f.num + KindOf(f)) % 8 == KindOf(f) && FieldNum(8 * f.num + KindOf(f)) == f.num
  {
    TagAndBody(f);
    hide GetVarint, PutVarint, Print, Body, Tag, FieldNum;
    CutBehind(Tag(f.num, KindOf(f)), Body(f), k);
    TagRead(f.num, KindOf(f), Body(f)[..k - |Tag(f.num, KindOf(f))|]);
  }

  /** Unmarshal never takes a field of which the end is missing. */
  lemma RejectsCut(m: Chat, f: Wire, k: nat)
    requires Sound(f) && (Known(f) ==> f.Delimited?) && 0 < k < |Print(f)|
    ensures Parse(m, Print(f)[..k]) == Rejected(UnexpectedEof, m)
  {
    hide GetVarint, PutVarint, Print, SkipField, FieldNum, Tag;
    var tag := Tag(f.num, KindOf(f));
    StartsWithTag(f, []);
    if k < |tag| {
      TagAndBody(f);
      CutBehind(tag, Body(f), k);
      ShortTag(f.num, KindOf(f), k);
    } else {
      CutStartsWithTag(f, k);
      if Known(f) {
        ContentCut(f, k);
      } else {
        SkipsNoCut(f, k);
      }
    }
  }

  lemma ContentCut(f: Wire, k: nat)
    requires Sound(f) && f.Delimited? && |Tag(f.num, 2)| <= k < |Print(f)|
    ensures GetContent(Print(f)[..k], |Tag(f.num, 2)|) == BadContent(UnexpectedEof)
  {
    var (tag, len, content) := (Tag(f.num, 2), PutVarint(|f.content|), f.content);
    TagAndBody(f);
    hide GetVarint, PutVarint, Tag, Print;
    CutBehind(tag, len + content, k);
    CutBehind(len, content, k - |tag|);
    if k - |tag| < |len| {
      VarintSizeBound(|content|);
      VarintCut(|content|, k - |tag|, 0, 0);
    } else {
      VarintRoundTrip(|content|, content[..k - |tag| - |len|]);
    }
  }

  /** A list of printed fields that ends in the middle of one is rejected, after its whole fields were taken. */
  lemma TruncatedIsRejected(m: Chat, fields: seq<Wire>, f: Wire, k: nat)
    requires AllSound(fields) && Fitting(fields) && Sound(f) && (Known(f) ==> f.Delimited?) && 0 < k < |Print(f)|
    ensures var r := Parse(m, PrintAll(fields) + Print(f)[..k]);
            && Parse(m, PrintAll(fields)).Parsed?
            && r == Rejected(UnexpectedEof, Parse(m, PrintAll(fields)).chat)
  {
    hide Parse, Print;
    AcceptsFieldsIff(m, fields);
    ParseConcat(m, PrintAll(fields), Print(f)[..k]);
    RejectsCut(Parse(m, PrintAll(fields)).chat, f, k);
  }

  // ----- what Marshal prints -----

  /** A field of the message as a list of fields: empty ones are left out. */
  function Single(num: nat, content: bytes): seq<Wire> {
    if content == [] then [] else [Delimited(num, content)]
  }

  /** Marshal prints PeerID as field 1, then Data as field 2, then the retained bytes. */
  lemma MarshalPrints(m: Chat)
    ensures Marshal(m) == PrintAll(Single(1, m.peerId) + Single(2, m.data)) + m.unknown
  {
    PutFieldPrints(PEER_ID_TAG, 1, m.peerId);
    PutFieldPrints(DATA_TAG, 2, m.data);
    PrintTwo(Single(1, m.peerId), Single(2, m.data));
    hide PutVarint, PrintAll;
  }

  lemma PutFieldPrints(tag: byte, num: nat, content: bytes)
    requires tag as nat == 8 * num + 2 && num < 16
    ensures PutField(tag, content) == PrintAll(Single(num, content))
  {
    assert Tag(num, 2) == [tag];
    if content != [] {
      var one := Single(num, content);
      assert one[1..] == [];
      assert PrintAll(one) == Print(one[0]) + [];
      assert PutField(tag, content) == [tag] + (PutVarint(|content|) + content);
    }
  }

  lemma PrintTwo(a: seq<Wire>, b: seq<Wire>)
    requires |a| <= 1
    ensures PrintAll(a + b) == PrintAll(a) + PrintAll(b)
  {
    if a == [] {
      assert a + b == b;
    } else {
      assert (a + b)[1..] == b && a[1..] == [];
    }
  }
}
