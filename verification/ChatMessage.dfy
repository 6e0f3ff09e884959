/**
  The generated code of cmd/pb/chat.pb.go as it runs: bytes written at a moving offset, shift
  loops, fields set while parsing. Every method is proved against the functions of ChatCodec.
*/
module ChatMessage {
  import opened Basics
  import opened ChatCodec
  import MachineWords

  // ----- varints -----

  /** Writes v at the offset and returns the index behind it; nothing else changes. */
  method EncodeVarintChat(dAtA: array<byte>, offset: nat, v: nat) returns (end: nat)
    requires offset + |PutVarint(v)| <= dAtA.Length
    modifies dAtA
    ensures end == offset + |PutVarint(v)|
    ensures dAtA[..end] == old(dAtA[..offset]) + PutVarint(v) && dAtA[end..] == old(dAtA[end..])
  {
    end := offset;
    var rest := v;
    while rest >= 128
      invariant offset <= end && end + |PutVarint(rest)| == offset + |PutVarint(v)|
      invariant dAtA[..end] + PutVarint(rest) == old(dAtA[..offset]) + PutVarint(v)
      invariant forall j :: end <= j < dAtA.Length ==> dAtA[j] == old(dAtA[j])
      decreases rest
    {
      ghost var before := dAtA[..end];
      dAtA[end] := (rest % 128 + 128) as byte;
      assert dAtA[..end + 1] == before + [(rest % 128 + 128) as byte];
      rest := rest / 128;
      end := end + 1;
    }
    ghost var before := dAtA[..end];
    dAtA[end] := rest as byte;
    assert dAtA[..end + 1] == before + [rest as byte];
    end := end + 1;
  }

  /** The least n with x < 128^n, between 1 and 10: exactly what EncodeVarintChat writes. */
  method SovChat(x: nat) returns (n: nat)
    requires x < TWO_64
    ensures n == |PutVarint(x)| && 1 <= n <= 10 && x < Pow128(n) && (n > 1 ==> x >= Pow128(n - 1))
  {
    VarintSizeLeast(x);
    VarintSizeBound(x);
    n := 1;
    var rest: nat := x / 128;
    while rest != 0
      invariant rest == 0 ==> n == |PutVarint(x)|
      invariant rest > 0 ==> n + |PutVarint(rest)| == |PutVarint(x)|
      decreases rest
    {
      n := n + 1;
      rest := rest / 128;
    }
  }

  function Later(r: Varint, k: nat): Varint {
    if r.Varint? then Varint(r.value, r.size + k) else r
  }

  /** One turn of the shift loop. */
  lemma VarintTurn(d: bytes, i: nat, k: nat, acc: nat, acc': nat)
    requires i < |d| && 7 * k < 64 && acc' == (acc + (d[i] as nat % 128) * Pow128(k)) % TWO_64
    ensures GetVarint(d[i..], k, acc)
         == if d[i] < 128 then Varint(acc', 1) else Later(GetVarint(d[i + 1..], k + 1, acc'), 1)
  {
    assert d[i..][0] == d[i] && d[i..][1..] == d[i + 1..];
  }

  /** The shift loop that Unmarshal and skipChat repeat, on a 64-bit word. */
  method ReadVarint(dAtA: bytes, start: nat) returns (r: Varint)
    requires start <= |dAtA|
    ensures r == GetVarint(dAtA[start..], 0, 0)
  {
    hide MachineWords.Value, MachineWords.Below, MachineWords.Or, MachineWords.Shifted, MachineWords.Mask7;
    hide Pow128, MachineWords.Word;
    var i, k: nat, acc: bv64 := start, 0, 0;
    MachineWords.StartsBelow();
    while true
      invariant start <= i <= |dAtA| && i == start + k
      invariant 7 * k < 64 ==> MachineWords.Below(acc, k)
      invariant GetVarint(dAtA[start..], 0, 0) == Later(GetVarint(dAtA[i..], k, MachineWords.Value(acc)), k)
      decreases |dAtA| - i
    {
      if 7 * k >= 64 {
        return BadVarint(IntOverflow);
      }
      if i >= |dAtA| {
        return BadVarint(UnexpectedEof);
      }
      var b := dAtA[i];
      MachineWords.LoopTurn(acc, b, k);
      ghost var before := MachineWords.Value(acc);
      acc := MachineWords.Or(acc, MachineWords.Shifted(MachineWords.Mask7(MachineWords.Word(b as nat)), k));
      VarintTurn(dAtA, i, k, before, MachineWords.Value(acc));
      i, k := i + 1, k + 1;
      if b < 128 {
        return Varint(MachineWords.Value(acc), k);
      }
    }
  }

  // ----- skipChat -----

  function Further(r: Skip, k: nat): Skip {
    if r.Skipped? then Skipped(r.n + k) else r
  }

  /** Ends on every input, because every slice it recurses on is shorter. */
  method SkipChat(dAtA: bytes) returns (r: Skip)
    ensures r == SkipField(dAtA)
    decreases |dAtA|, 1
  {
    if dAtA == [] {
      return SkipFails(PanicUnreachable);
    }
    var tag := ReadVarint(dAtA, 0);
    assert dAtA[0..] == dAtA;
    if tag.BadVarint? {
      return SkipFails(tag.why);
    }
    var i := tag.size;
    match tag.value % 8
    case 0 =>
      var v := ReadVarint(dAtA, i);
      return if v.BadVarint? then SkipFails(v.why) else Skipped(i + v.size);
    case 1 => return Skipped(i + 8);
    case 2 =>
      var v := ReadVarint(dAtA, i);
      return if v.BadVarint? then SkipFails(v.why)
             else if v.value >= TWO_63 then SkipFails(InvalidLength)
             else Skipped(i + v.size + v.value);
    case 3 => r := SkipChatGroup(dAtA, i);
    case 4 => return Skipped(i);
    case 5 => return Skipped(i + 4);
    case _ => return SkipFails(IllegalWireType);
  }

  /** The loop of skipChat over the fields of a group. */
  method SkipChatGroup(dAtA: bytes, start: nat) returns (r: Skip)
    requires 0 < start <= |dAtA|
    ensures r == Further(SkipGroup(dAtA[start..]), start)
    decreases |dAtA|, 0
  {
    hide SkipGroup, SkipField, GetVarint;
    var i := start;
    while true
      invariant start <= i <= |dAtA|
      invariant SkipGroup(dAtA[start..]) == Further(SkipGroup(dAtA[i..]), i - start)
      decreases |dAtA| - i
    {
      ghost var rest := dAtA[i..];
      GroupStep(rest);
      var inner := ReadVarint(dAtA, i);
      if inner.BadVarint? {
        return SkipFails(inner.why);
      }
      if inner.value % 8 == 4 {
        return Skipped(i + inner.size);
      }
      var next := SkipChat(dAtA[i..]);
      if next.SkipFails? {
        return next;
      }
      if i + next.n >= |dAtA| {
        return SkipFails(UnexpectedEof);
      }
      assert rest[next.n..] == dAtA[i + next.n..];
      i := i + next.n;
    }
  }

  /** One turn of that loop, as SkipGroup is defined. */
  lemma GroupStep(b: bytes)
    ensures var (tag, field) := (GetVarint(b, 0, 0), SkipField(b));
            SkipGroup(b) ==
              if tag.BadVarint? then SkipFails(tag.why)
              else if tag.value % 8 == 4 then Skipped(tag.size)
              else if field.SkipFails? then field
              else if field.n >= |b| then SkipFails(UnexpectedEof)
              else Further(SkipGroup(b[field.n..]), field.n)
  {
    hide SkipField, GetVarint;
  }

  // ----- the message -----

  /** Go's copy into dAtA[i..], whose room has been checked. */
  method CopyAt(dAtA: array<byte>, i: nat, data: bytes) returns (end: nat)
    requires i + |data| <= dAtA.Length
    modifies dAtA
    ensures end == i + |data|
    ensures dAtA[..end] == old(dAtA[..i]) + data && dAtA[end..] == old(dAtA[end..])
  {
    forall j | 0 <= j < |data| {
      dAtA[i + j] := data[j];
    }
    end := i + |data|;
  }

  lemma Behind(was: bytes, i: nat, m: nat, n: nat)
    requires i + m + n <= |was|
    ensures was[i..][m..][n..] == was[i + m + n..]
  {
  }

  lemma PutFieldIs(tag: byte, value: bytes)
    ensures PutField(tag, value) == if value == [] then [] else [tag] + PutVarint(|value|) + value
  {
    hide PutVarint;
  }

  lemma Joined(a: bytes, b: bytes, c: bytes, d: bytes)
    ensures a + b + c + d == a + (b + c + d)
  {
  }

  class Message {
    var peerId: bytes
    var data: bytes
    var unrecognized: bytes

    constructor ()
      ensures View() == EMPTY
    {
      peerId, data, unrecognized := [], [], [];
    }

    function View(): Chat
      reads this
    {
      Chat(peerId, data, unrecognized)
    }

    method Size() returns (n: nat)
      requires |peerId| < TWO_63 && |data| < TWO_63
      ensures n == |Marshal(View())|
    {
      n := 0;
      if |peerId| > 0 {
        var s := SovChat(|peerId|);
        n := n + 1 + |peerId| + s;
      }
      if |data| > 0 {
        var s := SovChat(|data|);
        n := n + 1 + |data| + s;
      }
      n := n + |unrecognized|;
    }

    /** One tagged field at offset i. */
    method MarshalField(dAtA: array<byte>, i: nat, tag: byte, value: bytes) returns (end: nat)
      requires i + |PutField(tag, value)| <= dAtA.Length && |value| < TWO_63
      modifies dAtA
      ensures end == i + |PutField(tag, value)|
      ensures dAtA[..end] == old(dAtA[..i]) + PutField(tag, value) && dAtA[end..] == old(dAtA[end..])
    {
      PutFieldIs(tag, value);
      hide PutVarint, PutField;
      end := i;
      if |value| > 0 {
        ghost var (was, len) := (dAtA[..], PutVarint(|value|));
        end := CopyAt(dAtA, i, [tag]);
        end := EncodeVarintChat(dAtA, end, |value|);
        end := CopyAt(dAtA, end, value);
        Joined(was[..i], [tag], len, value);
        Behind(was, i + 1, |len|, |value|);
      }
    }

    /** Writes exactly Size() bytes, inside the buffer, and touches nothing behind them. */
    method MarshalTo(dAtA: array<byte>) returns (i: nat)
      requires |peerId| < TWO_63 && |data| < TWO_63 && |Marshal(View())| <= dAtA.Length
      modifies dAtA
      ensures i == |Marshal(View())| && dAtA[..i] == Marshal(View()) && dAtA[i..] == old(dAtA[i..])
    {
      hide PutField;
      ghost var was := dAtA[..];
      ghost var (p, d) := (PutField(PEER_ID_TAG, peerId), PutField(DATA_TAG, data));
      i := MarshalField(dAtA, 0, PEER_ID_TAG, peerId);
      assert dAtA[..i] == p && dAtA[i..] == was[i..];
      i := MarshalField(dAtA, i, DATA_TAG, data);
      assert dAtA[..i] == p + d && dAtA[i..] == was[|p|..][|d|..] == was[i..];
      i := CopyAt(dAtA, i, unrecognized);
      assert dAtA[i..] == was[|p| + |d|..][|unrecognized|..] == was[i..];
    }

    method MarshalBytes() returns (b: bytes)
      requires |peerId| < TWO_63 && |data| < TWO_63
      ensures b == Marshal(View())
    {
      var n := Size();
      var dAtA := new byte[n];
      n := MarshalTo(dAtA);
      b := dAtA[..n];
    }

    /** One length-delimited value behind the tag. */
    method ReadContent(dAtA: bytes, i: nat) returns (r: Content)
      requires i <= |dAtA|
      ensures r == GetContent(dAtA, i)
    {
      var len := ReadVarint(dAtA, i);
      if len.BadVarint? {
        return BadContent(len.why);
      }
      if len.value >= TWO_63 {
        return BadContent(InvalidLength);
      }
      if i + len.size + len.value > |dAtA| {
        return BadContent(UnexpectedEof);
      }
      return Content(i + len.size, len.value);
    }

    /** One turn of the loop, on the bytes that are left. */
    method UnmarshalField(rest: bytes) returns (size: nat, err: Option<Error>)
      requires rest != []
      modifies this
      ensures match ParseField(old(View()), rest)
              case BadField(why) => err == Some(why) && View() == old(View())
              case Field(m, n) => err == None && size == n && View() == m
    {
      size := 0;
      var tag := ReadVarint(rest, 0);
      assert rest[0..] == rest;
      if tag.BadVarint? {
        return 0, Some(tag.why);
      }
      var (fieldNum, wireType) := (FieldNum(tag.value), tag.value % 8);
      if wireType == 4 {
        return 0, Some(EndGroup);
      }
      if fieldNum <= 0 {
        return 0, Some(IllegalTag);
      }
      if fieldNum == 1 || fieldNum == 2 {
        if wireType != 2 {
          return 0, Some(WrongWireType);
        }
        var c := ReadContent(rest, tag.size);
        if c.BadContent? {
          return 0, Some(c.why);
        }
        if fieldNum == 1 {
          peerId := rest[c.start..c.start + c.len];
        } else {
          data := rest[c.start..c.start + c.len];
        }
        return c.start + c.len, None;
      }
      var skippy := SkipChat(rest);
      if skippy.SkipFails? {
        return 0, Some(skippy.why);
      }
      if skippy.n > |rest| {
        return 0, Some(UnexpectedEof);
      }
      unrecognized := unrecognized + rest[..skippy.n];
      return skippy.n, None;
    }

    method Unmarshal(dAtA: bytes) returns (err: Option<Error>)
      modifies this
      ensures match Parse(old(View()), dAtA)
              case Parsed(m) => err == None && View() == m
              case Rejected(why, partial) => err == Some(why) && View() == partial
    {
      hide ParseField;
      var i := 0;
      assert dAtA[0..] == dAtA;
      while i < |dAtA|
        invariant i <= |dAtA| && Parse(View(), dAtA[i..]) == Parse(old(View()), dAtA)
        decreases |dAtA| - i
      {
        var size;
        size, err := UnmarshalField(dAtA[i..]);
        if err.Some? {
          return;
        }
        assert dAtA[i..][size..] == dAtA[i + size..];
        i := i + size;
      }
      return None;
    }
  }
}
