/**
  Length-prefixed payloads (secure/message.go): EncodePayload and ReadPayload over a reader that
  returns the bytes in pieces of any size, and over SecureSession.
*/
module Framing {
  import opened Basics
  import opened SecureStream

  // ----- secure/message.go: the encoding -----

  const LEN_LEN: nat := 4

  /** Int2Bytes of a uint32. */
  function PutUint32(v: nat): (b: bytes)
    ensures |b| == LEN_LEN
  {
    [((v / 0x100_0000) % 256) as byte, ((v / 0x1_0000) % 256) as byte, ((v / 256) % 256) as byte, (v % 256) as byte]
  }

  function Uint32(b: bytes): (v: nat)
    requires |b| >= LEN_LEN
    ensures v < TWO_32
  {
    b[0] as nat * 0x100_0000 + b[1] as nat * 0x1_0000 + b[2] as nat * 256 + b[3] as nat
  }

  /** The length is converted to uint32, which drops the higher bits. */
  function EncodePayload(data: bytes): bytes {
    PutUint32(|data| % TWO_32) + data
  }

  datatype Parsed = NeedsMore | Payload(data: bytes, rest: bytes)

  /** What ReadPayload returns when exactly these bytes are left in the reader. */
  function Parse(b: bytes): Parsed {
    if |b| < LEN_LEN || |b| - LEN_LEN < Uint32(b) then NeedsMore
    else Payload(b[LEN_LEN..LEN_LEN + Uint32(b)], b[LEN_LEN + Uint32(b)..])
  }

  lemma DivDiv(v: nat)
    ensures v / 0x1_0000 == v / 256 / 256 && v / 0x100_0000 == v / 256 / 256 / 256
  {
  }

  lemma Uint32RoundTrip(v: nat, rest: bytes)
    ensures v < TWO_32 ==> Uint32(PutUint32(v) + rest) == v
  {
    if v < TWO_32 {
      var (x, y, z) := (v / 256, v / 0x1_0000, v / 0x100_0000);
      DivDiv(v);
      assert v == x * 256 + v % 256;
      assert x == y * 256 + x % 256;
      assert y == z * 256 + y % 256;
      assert z < 256;
    }
  }

  /** On the wire: four bytes of length, the highest first, then the payload itself. */
  lemma PayloadLayout(data: bytes)
    ensures var b := EncodePayload(data);
            && |b| == 4 + |data| && b[4..] == data
            && (|data| < TWO_32 ==>
                  b[0] as nat * 0x100_0000 + b[1] as nat * 0x1_0000 + b[2] as nat * 0x100 + b[3] as nat == |data|)
  {
    hide PutUint32;
    Uint32RoundTrip(|data|, data);
    if |data| < TWO_32 { assert |data| % TWO_32 == |data|; }
  }

  /** A payload is read back, and what follows it left alone, exactly when its length fits 32 bits. */
  lemma PayloadRoundTrip(data: bytes, rest: bytes)
    ensures Parse(EncodePayload(data) + rest) == Payload(data, rest) <==> |data| < TWO_32
  {
    var l := |data| % TWO_32;
    var whole := EncodePayload(data) + rest;
    assert whole == PutUint32(l) + (data + rest);
    Uint32RoundTrip(l, data + rest);
    assert whole[LEN_LEN..] == data + rest;
    if |data| < TWO_32 {
      assert whole[LEN_LEN..LEN_LEN + l] == data;
      assert whole[LEN_LEN + l..] == rest;
    } else {
      assert |whole[LEN_LEN..LEN_LEN + l]| == l < |data|;
    }
  }

  function EncodeAll(list: seq<bytes>): bytes {
    if list == [] then [] else EncodePayload(list[0]) + EncodeAll(list[1..])
  }

  predicate AllShort(list: seq<bytes>) {
    forall i :: 0 <= i < |list| ==> |list[i]| < TWO_32
  }

  /** Every payload that can be read in full from these bytes. */
  function ParseAll(b: bytes): seq<bytes>
    decreases |b|
  {
    match Parse(b)
    case NeedsMore => []
    case Payload(data, rest) => [data] + ParseAll(rest)
  }

  /** More bytes never change what has been parsed. */
  lemma ParseExtends(b: bytes, more: bytes)
    requires Parse(b).Payload?
    ensures Parse(b + more) == Payload(Parse(b).data, Parse(b).rest + more)
  {
    var l := Uint32(b);
    assert (b + more)[LEN_LEN..LEN_LEN + l] == b[LEN_LEN..LEN_LEN + l];
    assert (b + more)[LEN_LEN + l..] == b[LEN_LEN + l..] + more;
  }

  /** Any prefix of an encoded list parses to a prefix of the list. */
  lemma {:induction false} PrefixParsesToPrefix(list: seq<bytes>, part: bytes, more: bytes)
    requires AllShort(list) && part + more == EncodeAll(list)
    ensures ParseAll(part) <= list && (more == [] ==> ParseAll(part) == list)
    decreases |list|
  {
    if list == [] {
      assert part == [] && ParseAll(part) == [];
    } else {
      PayloadRoundTrip(list[0], EncodeAll(list[1..]));
      assert more == [] ==> part + more == part;
      if Parse(part).Payload? {
        ParseExtends(part, more);
        PrefixParsesToPrefix(list[1..], Parse(part).rest, more);
      }
    }
  }

  // ----- reading in pieces -----

  /**
    A reader that splits its bytes freely: `plan` says how much the next calls would like to
    return, and any plan may be chosen. Only this is promised: with room and bytes left, two calls
    in a row do not both return nothing.
  */
  class Reader {
    var rest: bytes
    var plan: seq<nat>
    var idle: bool

    constructor (rest: bytes, plan: seq<nat>)
      ensures this.rest == rest && this.plan == plan && !idle
    {
      this.rest, this.plan, idle := rest, plan, false;
    }

    method Read(room: nat) returns (data: bytes)
      modifies this
      ensures |data| <= room && old(rest) == data + rest
      ensures room > 0 && old(rest) != [] && data == [] ==> !old(idle) && idle
    {
      var k := Min(room, |rest|);
      if plan != [] {
        k := Min(k, plan[0]);
        plan := plan[1..];
      }
      if k == 0 && idle && room > 0 && rest != [] {
        k := 1;
      }
      idle := k == 0;
      data, rest := rest[..k], rest[k..];
    }
  }

  /** io.ReadFull: reads again until the buffer is full or the reader has no more. */
  method ReadFull(reader: Reader, count: nat) returns (data: bytes, ok: bool)
    modifies reader
    ensures ok <==> |old(reader.rest)| >= count
    ensures ok ==> data == old(reader.rest)[..count] && reader.rest == old(reader.rest)[count..]
  {
    data := [];
    while |data| < count
      invariant |data| <= count && old(reader.rest) == data + reader.rest
      decreases count - |data|, if reader.idle then 0 else 1
    {
      if reader.rest == [] {
        return data, false;
      }
      var piece := reader.Read(count - |data|);
      data := data + piece;
    }
    ok := true;
  }

  method ReadPayload(reader: Reader) returns (r: Option<bytes>)
    modifies reader
    ensures r.Some? <==> Parse(old(reader.rest)).Payload?
    ensures r.Some? ==> Parse(old(reader.rest)) == Payload(r.value, reader.rest)
  {
    var all := reader.rest;
    var prefix, ok := ReadFull(reader, LEN_LEN);
    if !ok {
      return None;
    }
    assert Uint32(prefix) == Uint32(all);
    var l := Uint32(prefix);
    var data;
    data, ok := ReadFull(reader, l);
    if !ok {
      return None;
    }
    assert data == all[LEN_LEN..LEN_LEN + l];
    return Some(data);
  }

  /** Reading a list of payloads back, whatever the pieces, leaves what follows untouched. */
  method ReadPayloads(reader: Reader, ghost list: seq<bytes>, ghost tail: bytes, count: nat) returns (r: seq<bytes>)
    requires AllShort(list) && |list| == count && reader.rest == EncodeAll(list) + tail
    modifies reader
    ensures r == list && reader.rest == tail
  {
    r := [];
    while |r| < count
      invariant |r| <= count && r == list[..|r|] && reader.rest == EncodeAll(list[|r|..]) + tail
    {
      ghost var (left, after) := (list[|r|..], EncodeAll(list[|r| + 1..]) + tail);
      assert left[1..] == list[|r| + 1..];
      assert EncodeAll(left) + tail == EncodePayload(left[0]) + after;
      PayloadRoundTrip(left[0], after);
      var one := ReadPayload(reader);
      r := r + [one.value];
    }
  }

  // ----- over SecureSession -----

  /** How many of the sent bytes the reader has yet to see. */
  function Unread(f: Flow): bytes
    requires |f.got| <= |f.sent|
  {
    f.sent[|f.got|..]
  }

  lemma GotIsPrefix(a: Aead, f: Flow)
    requires Synced(a, f)
    ensures f.got <= f.sent
  {
    var chunks :| QueueIs(a, f, chunks);
  }

  /** More bytes arrive. */
  function Delivered(f: Flow, k: nat): Flow
    requires k <= |f.wire|
  {
    f.(receiver := f.receiver.(inbox := f.receiver.inbox + f.wire[..k]), wire := f.wire[k..])
  }

  lemma DeliveryKeeps(a: Aead, f: Flow, k: nat)
    requires a.Lawful() && Synced(a, f) && k <= |f.wire|
    ensures Synced(a, Delivered(f, k))
  {
    StepKeeps(a, f, Delivers(k), Delivered(f, k));
  }

  /** One Read that does not have to wait. */
  lemma ReadyRead(a: Aead, f: Flow, room: nat)
    requires a.Lawful() && Synced(a, f) && f.receiver.Ready() && room > 0
    ensures f.receiver.Sane()
    ensures var r := ReadStep(a, f.receiver, room);
            && r.result.Got? && |r.result.data| <= room
            && var f1 := f.(receiver := r.receiver, got := f.got + r.result.data);
               && Synced(a, f1)
               && (r.result.data == [] ==> f.receiver.qbuf.Some? && f1.receiver.qbuf.None?)
  {
    var chunks :| QueueIs(a, f, chunks);
    assert f.receiver.Sane();
    hide QueueIs;
    ReadKeeps(a, f, chunks, room);
    var r := ReadStep(a, f.receiver, room);
    var left := if f.receiver.qbuf.Some? then chunks else chunks[1..];
    assert QueueIs(a, f.(receiver := r.receiver, got := f.got + r.result.data), left);
    EmptyReadIff(a, f, room);
  }

  /** A reader that has to wait for unread data has some under way. */
  lemma WaitingMeansUnderWay(a: Aead, f: Flow)
    requires a.Lawful() && Synced(a, f) && f.got != f.sent && !f.receiver.Ready()
    ensures f.wire != []
  {
    if f.wire == [] {
      UnreadMeansReady(a, f);
    }
  }

  /**
    io.ReadFull over SecureSession ends and returns the next `count` bytes that were written,
    however the bytes under way arrive meanwhile: `plan` says how many arrive before each turn,
    and once it is used up a reader that has to wait gets the rest.
  */
  method ReadFullSecure(a: Aead, f: Flow, count: nat, plan: seq<nat>) returns (data: bytes, f': Flow, plan': seq<nat>)
    requires a.Lawful() && Synced(a, f) && |f.got| + count <= |f.sent|
    ensures Synced(a, f') && f' == f.(receiver := f'.receiver, wire := f'.wire, got := f.got + data)
    ensures |data| == count && |f'.got| <= |f.sent| && Unread(f) == data + Unread(f')
  {
    hide Aead.Lawful, Synced, ReadStep, Receiver.Sane;
    data, f', plan' := [], f, plan;
    while |data| < count
      invariant |data| <= count && Synced(a, f')
      invariant f' == f.(receiver := f'.receiver, wire := f'.wire, got := f.got + data)
      decreases |plan'|, |f'.wire|, count - |data|, if f'.receiver.qbuf.Some? then 1 else 0
    {
      GotIsPrefix(a, f');
      if plan' != [] {
        DeliveryKeeps(a, f', Min(plan'[0], |f'.wire|));
        f', plan' := Delivered(f', Min(plan'[0], |f'.wire|)), plan'[1..];
      } else if !f'.receiver.Ready() {
        WaitingMeansUnderWay(a, f');
        DeliveryKeeps(a, f', |f'.wire|);
        f' := Delivered(f', |f'.wire|);
      }
      if f'.receiver.Ready() {
        ReadyRead(a, f', count - |data|);
        var r := ReadStep(a, f'.receiver, count - |data|);
        data := data + r.result.data;
        f' := f'.(receiver := r.receiver, got := f'.got + r.result.data);
      }
    }
    GotIsPrefix(a, f');
    UnreadSplits(f, data, f');
  }

  lemma UnreadSplits(f: Flow, data: bytes, f': Flow)
    requires f'.sent == f.sent && f'.got == f.got + data && f'.got <= f.sent
    ensures |f.got| <= |f.sent| && Unread(f) == data + Unread(f')
  {
  }

  /** ReadPayload over SecureSession returns the payload that the unread bytes start with. */
  method ReadPayloadSecure(a: Aead, f: Flow, plan: seq<nat>) returns (data: bytes, f': Flow)
    requires a.Lawful() && Synced(a, f) && |f.got| <= |f.sent| && Parse(Unread(f)).Payload?
    ensures Synced(a, f') && f'.sent == f.sent && |f'.got| <= |f.sent|
    ensures Parse(Unread(f)) == Payload(data, Unread(f'))
  {
    hide Aead.Lawful, Synced;
    ghost var all := Unread(f);
    var prefix, f1, rest := ReadFullSecure(a, f, LEN_LEN, plan);
    ParseSplits(all, prefix, Unread(f1));
    data, f', rest := ReadFullSecure(a, f1, Uint32(prefix), rest);
    assert Unread(f1)[..Uint32(prefix)] == data && Unread(f1)[Uint32(prefix)..] == Unread(f');
  }

  lemma ParseSplits(b: bytes, prefix: bytes, after: bytes)
    requires |prefix| == LEN_LEN && b == prefix + after && Parse(b).Payload?
    ensures |after| >= Uint32(prefix) && Parse(b) == Payload(after[..Uint32(prefix)], after[Uint32(prefix)..])
  {
    assert Uint32(prefix) == Uint32(b);
    assert b[LEN_LEN..] == after;
  }
}
