/**
  SecureSession.Read and Write (secure/rw.go, secure/crypto.go): plaintext is cut into AEAD
  frames with a 16-bit length prefix, and short reads leave a queue behind. The specification is
  a plain byte queue.
*/
module SecureStream {
  import opened Basics

  // ----- cipher states (section 5.1 of the Noise Protocol Framework, revision 34) -----

  type Key = nat

  const TAG_SIZE: nat := 16
  const MAX_TRANSPORT: nat := 0xffff
  const MAX_PLAINTEXT: nat := MAX_TRANSPORT - TAG_SIZE
  const PREFIX: nat := 2

  /**
    An authenticated cipher: `seal` under a key and counter, `open` may refuse. Whether a refused
    frame counts (the standard says no) is left to the library.
  */
  datatype Aead = Aead(
    seal: (Key, nat, bytes) -> bytes, open: (Key, nat, bytes) -> Option<bytes>, countsRefused: bool)
  {
    ghost predicate Lawful() {
      && (forall k, n, p :: |seal(k, n, p)| == |p| + TAG_SIZE && open(k, n, seal(k, n, p)) == Some(p))
      && (forall k, n, c :: open(k, n, c).Some? ==> |open(k, n, c).value| + TAG_SIZE == |c|)
    }
  }

  datatype Cipher = Cipher(key: Key, n: nat) {
    function Next(): Cipher {
      Cipher(key, n + 1)
    }
  }

  /** Lawful ciphers exist, so nothing below is vacuous. */
  lemma LawfulExists()
    ensures exists a: Aead :: a.Lawful()
  {
    var tag: bytes := seq(TAG_SIZE, _ => 0);
    var a := Aead((k, n, p) => p + tag,
                  (k, n, c) => if |c| >= TAG_SIZE then Some(c[..|c| - TAG_SIZE]) else None, false);
    forall k, n, p
      ensures |a.seal(k, n, p)| == |p| + TAG_SIZE && a.open(k, n, a.seal(k, n, p)) == Some(p)
    {
      assert (p + tag)[..|p|] == p;
    }
    assert a.Lawful();
  }

  // ----- frames -----

  /** binary.BigEndian.PutUint16 of uint16(v). */
  function PutUint16(v: nat): (b: bytes)
    ensures |b| == 2
  {
    [((v / 256) % 256) as byte, (v % 256) as byte]
  }

  function Uint16(b: bytes): nat
    requires |b| >= 2
  {
    b[0] as nat * 256 + b[1] as nat
  }

  lemma Uint16RoundTrip(v: nat, rest: bytes)
    ensures v < TWO_16 ==> Uint16(PutUint16(v) + rest) == v
  {
  }

  function Frame(a: Aead, c: Cipher, p: bytes): bytes {
    var sealed := a.seal(c.key, c.n, p);
    PutUint16(|sealed|) + sealed
  }

  /** The frames of successive chunks under successive counters. */
  function Frames(a: Aead, c: Cipher, chunks: seq<bytes>): bytes
    decreases |chunks|
  {
    if chunks == [] then [] else Frame(a, c, chunks[0]) + Frames(a, c.Next(), chunks[1..])
  }

  function Advanced(c: Cipher, k: nat): Cipher {
    Cipher(c.key, c.n + k)
  }

  lemma {:induction false} FramesAppend(a: Aead, c: Cipher, xs: seq<bytes>, ys: seq<bytes>)
    ensures Frames(a, c, xs + ys) == Frames(a, c, xs) + Frames(a, Advanced(c, |xs|), ys)
    decreases |xs|
  {
    hide Frame;
    if xs == [] {
      assert xs + ys == ys;
    } else {
      assert (xs + ys)[1..] == xs[1..] + ys && (xs + ys)[0] == xs[0];
      FramesAppend(a, c.Next(), xs[1..], ys);
      assert Advanced(c.Next(), |xs| - 1) == Advanced(c, |xs|);
      JoinThree(Frame(a, c, xs[0]), Frames(a, c.Next(), xs[1..]), Frames(a, Advanced(c, |xs|), ys));
    }
  }

  lemma JoinThree(x: bytes, y: bytes, z: bytes)
    ensures x + (y + z) == x + y + z
  {
  }

  /** How Write cuts its argument: full chunks and one rest, never an empty chunk. */
  function Chunks(data: bytes): (cs: seq<bytes>)
    ensures Fits(cs) && Concat(cs) == data
  {
    if data == [] then []
    else
      var end := Min(|data|, MAX_PLAINTEXT);
      assert data[..end] + data[end..] == data;
      [data[..end]] + Chunks(data[end..])
  }

  /** One turn of the loop of Write: the chunk it cuts off is the next one. */
  lemma ChunksNext(data: bytes, written: nat, end: nat, done: seq<bytes>)
    requires written < |data| && end == Min(written + MAX_PLAINTEXT, |data|)
    requires Chunks(data) == done + Chunks(data[written..])
    ensures Chunks(data) == (done + [data[written..end]]) + Chunks(data[end..])
    ensures |Chunks(data)| > |done| && Chunks(data)[..|done|] == done
  {
    hide Chunks;
    var rest := data[written..];
    assert data[written..end] == rest[..Min(|rest|, MAX_PLAINTEXT)]
           && rest[Min(|rest|, MAX_PLAINTEXT)..] == data[end..];
    ChunksOnce(rest);
  }

  lemma ChunksOnce(data: bytes)
    requires data != []
    ensures var end := Min(|data|, MAX_PLAINTEXT); Chunks(data) == [data[..end]] + Chunks(data[end..])
  {
  }

  lemma FramesOneMore(a: Aead, c: Cipher, done: seq<bytes>, p: bytes)
    ensures Frames(a, c, done + [p]) == Frames(a, c, done) + Frame(a, Advanced(c, |done|), p)
    ensures |Concat(done + [p])| == |Concat(done)| + |p|
  {
    FramesAppend(a, c, done, [p]);
    ConcatAppend(done, [p]);
    assert [p][1..] == [];
    assert Frames(a, Advanced(c, |done|), [p]) == Frame(a, Advanced(c, |done|), p) + [];
    assert Concat([p]) == p + [];
  }

  lemma WriteStart(a: Aead, data: bytes)
    ensures data[0..] == data && Chunks([]) == [] && Concat<byte>([]) == []
    ensures forall c :: Frames(a, c, []) == []
  {
  }

  /** Every chunk but the last is as long as a frame can carry. */
  lemma {:induction false} ChunksAreFull(data: bytes, i: nat)
    requires i < |Chunks(data)| - 1
    ensures |Chunks(data)[i]| == 65535 - 16
  {
    ChunksOnce(data);
    var rest := data[Min(|data|, MAX_PLAINTEXT)..];
    assert Chunks(data)[1..] == Chunks(rest);
    if i > 0 { ChunksAreFull(rest, i - 1); }
  }

  /** Frame i of what is written: its length, higher byte first, and chunk i sealed under the i-th next counter. */
  lemma FrameStands(a: Aead, c: Cipher, chunks: seq<bytes>, i: nat)
    requires a.Lawful() && Fits(chunks) && i < |chunks|
    ensures var len := |chunks[i]| + 16;
            Frames(a, c, chunks)
            == Frames(a, c, chunks[..i])
               + ([(len / 256) as byte, (len % 256) as byte] + a.seal(c.key, c.n + i, chunks[i]))
               + Frames(a, Cipher(c.key, c.n + i + 1), chunks[i + 1..])
  {
    assert chunks == chunks[..i] + chunks[i..] && chunks[i..][1..] == chunks[i + 1..];
    FramesAppend(a, c, chunks[..i], chunks[i..]);
    var p := chunks[i];
    assert |a.seal(c.key, c.n + i, p)| == |p| + 16 < TWO_16;
    assert Frame(a, Advanced(c, i), p)
        == [((|p| + 16) / 256) as byte, ((|p| + 16) % 256) as byte] + a.seal(c.key, c.n + i, p);
    hide Frame;
  }

  predicate Fits(chunks: seq<bytes>) {
    forall i :: 0 <= i < |chunks| ==> 0 < |chunks[i]| <= MAX_PLAINTEXT
  }

  // ----- reading -----

  /** What Read works on: the cipher, the queue `qbuf[qseek..]` and the bytes that have arrived. */
  datatype Receiver = Receiver(dec: Option<Cipher>, qbuf: Option<bytes>, qseek: nat, inbox: bytes) {
    predicate Sane() {
      qbuf.Some? ==> qseek <= |qbuf.value|
    }

    function Leftover(): bytes
      requires Sane()
    {
      if qbuf.Some? then qbuf.value[qseek..] else []
    }

    /** A whole frame has arrived. */
    predicate FrameReady() {
      |inbox| >= PREFIX && |inbox| >= PREFIX + Uint16(inbox)
    }

    /** Read returns without waiting. */
    predicate Ready() {
      qbuf.Some? || FrameReady()
    }
  }

  datatype Failure = Starved | NoCipher | Garbled

  datatype ReadResult = Got(data: bytes) | Failed(why: Failure)

  datatype Reading = Reading(receiver: Receiver, result: ReadResult)

  /** One call of Read with a buffer of `room` bytes. */
  function ReadStep(a: Aead, r: Receiver, room: nat): Reading
    requires r.Sane()
  {
    if r.qbuf.Some? then
      var q := r.qbuf.value;
      var k := Min(room, |q| - r.qseek);
      Reading(if r.qseek + k == |q| then r.(qbuf := None, qseek := 0) else r.(qseek := r.qseek + k),
              Got(q[r.qseek..r.qseek + k]))
    else if !r.FrameReady() then
      Reading(r.(inbox := []), Failed(Starved))
    else
      var len := Uint16(r.inbox);
      var sealed := r.inbox[PREFIX..PREFIX + len];
      var r1 := r.(inbox := r.inbox[PREFIX + len..]);
      if r.dec.None? then Reading(r1, Failed(NoCipher))
      else
        var plain := a.open(r.dec.value.key, r.dec.value.n, sealed);
        if plain.None? then
          Reading(if a.countsRefused then r1.(dec := Some(r.dec.value.Next())) else r1, Failed(Garbled))
        else
          var (p, r2) := (plain.value, r1.(dec := Some(r.dec.value.Next())));
          if room >= len then Reading(r2, Got(p))
          else Reading(r2.(qbuf := Some(p), qseek := Min(room, |p|)), Got(p[..Min(room, |p|)]))
  }

  // ----- what Read accepts -----

  /** The length announced by the first two bytes. */
  function AnnouncedLength(b: bytes): nat
    requires |b| >= 2
  {
    256 * (b[0] as nat) + b[1] as nat
  }

  /** The frame at the front of the inbox, without its prefix. */
  function FrontFrame(b: bytes): bytes
    requires |b| >= 2 && |b| - 2 >= AnnouncedLength(b)
  {
    b[2..2 + AnnouncedLength(b)]
  }

  /** A cipher is there, a whole frame has arrived, and it opens under the cipher's key and counter. */
  predicate AcceptsFrame(a: Aead, r: Receiver) {
    && r.dec.Some? && |r.inbox| >= 2 && |r.inbox| - 2 >= AnnouncedLength(r.inbox)
    && a.open(r.dec.value.key, r.dec.value.n, FrontFrame(r.inbox)).Some?
  }

  function PlainOf(a: Aead, r: Receiver): bytes
    requires AcceptsFrame(a, r)
  {
    a.open(r.dec.value.key, r.dec.value.n, FrontFrame(r.inbox)).value
  }

  /**
    With nothing queued, Read succeeds exactly when the frame at the front is accepted. It then
    returns the plaintext as far as the buffer goes and keeps the rest of it, and nothing else,
    for later; the counter goes up by one and the frame is used up. Otherwise no byte is returned
    or queued.
  */
  lemma ReadAuthenticates(a: Aead, r: Receiver, room: nat)
    requires a.Lawful() && r.Sane() && r.qbuf.None?
    ensures var (s, result) := (ReadStep(a, r, room).receiver, ReadStep(a, r, room).result);
            && s.Sane() && (result.Got? <==> AcceptsFrame(a, r))
            && (AcceptsFrame(a, r) ==>
                  && |result.data| == Min(room, |PlainOf(a, r)|)
                  && result.data + s.Leftover() == PlainOf(a, r)
                  && s.dec == Some(Cipher(r.dec.value.key, r.dec.value.n + 1))
                  && s.inbox == r.inbox[2 + AnnouncedLength(r.inbox)..])
            && (!AcceptsFrame(a, r) ==> s.qbuf.None?)
  {
    if AcceptsFrame(a, r) {
      var p := PlainOf(a, r);
      assert |p| + TAG_SIZE == AnnouncedLength(r.inbox);
      assert p[..Min(room, |p|)] + p[Min(room, |p|)..] == p;
      assert p + [] == p;
    }
  }

  /** With something queued, Read takes from the front of the queue and touches neither cipher nor inbox. */
  lemma QueueServesFirst(a: Aead, r: Receiver, room: nat)
    requires r.Sane() && r.qbuf.Some?
    ensures var (s, result) := (ReadStep(a, r, room).receiver, ReadStep(a, r, room).result);
            && result.Got? && |result.data| == Min(room, |r.Leftover()|) && s.Sane()
            && result.data + s.Leftover() == r.Leftover()
            && s.dec == r.dec && s.inbox == r.inbox
  {
    var (q, k) := (r.qbuf.value, Min(room, |r.qbuf.value| - r.qseek));
    assert q[r.qseek..] == q[r.qseek..r.qseek + k] + q[r.qseek + k..];
  }

  /** Either way, in one statement. */
  lemma ReadMeans(a: Aead, r: Receiver, room: nat)
    requires a.Lawful() && r.Sane()
    ensures var (s, result) := (ReadStep(a, r, room).receiver, ReadStep(a, r, room).result);
            && s.Sane() && (r.qbuf.None? ==> (result.Got? <==> AcceptsFrame(a, r)))
            && (r.qbuf.None? && AcceptsFrame(a, r) ==> result.data + s.Leftover() == PlainOf(a, r))
            && (result.Failed? ==> s.qbuf.None?)
  {
    if r.qbuf.Some? { QueueServesFirst(a, r, room); } else { ReadAuthenticates(a, r, room); }
  }

  // ----- one direction of a matched pair -----

  /**
    Sender, bytes on their way, receiver, and the history: `sent` is what Write accepted and
    `got` what Read returned. After a failed write the connection is closed and `up` is false.
  */
  datatype Flow = Flow(enc: Cipher, up: bool, wire: bytes, receiver: Receiver, sent: bytes, got: bytes)

  /** The byte queue between the two plaintext ends, given the chunks still sealed. */
  predicate QueueIs(a: Aead, f: Flow, chunks: seq<bytes>) {
    && f.receiver.Sane() && f.receiver.dec.Some? && Fits(chunks)
    && f.receiver.inbox + f.wire == Frames(a, f.receiver.dec.value, chunks)
    && f.sent == f.got + f.receiver.Leftover() + Concat(chunks)
    && f.receiver.dec.value.key == f.enc.key
    && (f.up ==> f.enc == Advanced(f.receiver.dec.value, |chunks|))
  }

  ghost predicate Synced(a: Aead, f: Flow) {
    exists chunks :: QueueIs(a, f, chunks)
  }

  datatype Event =
    | Writes(data: bytes, lasting: nat)
    | Delivers(k: nat)
    | Reads(room: nat)

  /** Write: `lasting` frames get through before the connection fails, all of them if it does not. */
  function WriteStep(a: Aead, f: Flow, data: bytes, lasting: nat): Flow {
    var chunks := Chunks(data);
    if !f.up then f.(enc := Advanced(f.enc, Min(1, |chunks|)))
    else if lasting < |chunks| then
      f.(enc := Advanced(f.enc, lasting + 1), up := false,
         wire := f.wire + Frames(a, f.enc, chunks[..lasting]), sent := f.sent + Concat(chunks[..lasting]))
    else
      f.(enc := Advanced(f.enc, |chunks|), wire := f.wire + Frames(a, f.enc, chunks), sent := f.sent + data)
  }

  ghost predicate Step(a: Aead, f: Flow, ev: Event, f': Flow) {
    match ev
    case Writes(data, lasting) => f' == WriteStep(a, f, data, lasting)
    case Delivers(k) =>
      k <= |f.wire| && f' == f.(receiver := f.receiver.(inbox := f.receiver.inbox + f.wire[..k]), wire := f.wire[k..])
    case Reads(room) =>
      && f.receiver.Sane() && f.receiver.Ready()
      && var r := ReadStep(a, f.receiver, room);
         f' == f.(receiver := r.receiver, got := f.got + if r.result.Got? then r.result.data else [])
  }

  // ----- the first frame in the inbox is the first chunk -----

  lemma FrameSize(a: Aead, c: Cipher, p: bytes)
    requires a.Lawful() && |p| <= MAX_PLAINTEXT
    ensures |Frame(a, c, p)| == PREFIX + |p| + TAG_SIZE
    ensures forall rest: bytes :: Uint16(Frame(a, c, p) + rest) == |p| + TAG_SIZE
  {
    forall rest: bytes
      ensures Uint16(Frame(a, c, p) + rest) == |p| + TAG_SIZE
    {
      var sealed := a.seal(c.key, c.n, p);
      assert Frame(a, c, p) + rest == PutUint16(|sealed|) + (sealed + rest);
      Uint16RoundTrip(|sealed|, sealed + rest);
    }
  }

  /** A complete frame at the front of the inbox is the frame of the first chunk. */
  lemma FirstFrame(a: Aead, f: Flow, chunks: seq<bytes>)
    requires a.Lawful() && QueueIs(a, f, chunks) && f.receiver.FrameReady()
    ensures chunks != []
    ensures var (r, p) := (f.receiver, chunks[0]);
            var len := |p| + TAG_SIZE;
            && Uint16(r.inbox) == len && |r.inbox| >= PREFIX + len
            && r.inbox[PREFIX..PREFIX + len] == a.seal(r.dec.value.key, r.dec.value.n, p)
            && r.inbox[PREFIX + len..] + f.wire == Frames(a, r.dec.value.Next(), chunks[1..])
  {
    var r := f.receiver;
    var whole := r.inbox + f.wire;
    assert |whole| >= PREFIX;
    assert chunks != [];
    var (c, p) := (r.dec.value, chunks[0]);
    var (first, rest) := (Frame(a, c, p), Frames(a, c.Next(), chunks[1..]));
    FrameSize(a, c, p);
    assert whole == first + rest;
    assert Uint16(first + rest) == |p| + TAG_SIZE;
    assert whole[0] == r.inbox[0] && whole[1] == r.inbox[1];
    assert Uint16(r.inbox) == Uint16(whole);
    var len := |p| + TAG_SIZE;
    assert r.inbox[PREFIX..PREFIX + len] == whole[PREFIX..PREFIX + len] == first[PREFIX..PREFIX + len];
    assert first[PREFIX..] == a.seal(c.key, c.n, p);
    assert r.inbox[PREFIX + len..] + f.wire == whole[PREFIX + len..] == rest;
  }

  /** What a Read out of the queue does to the receiver. */
  lemma QueueStep(a: Aead, r: Receiver, room: nat)
    requires r.Sane() && r.qbuf.Some?
    ensures var (read, left) := (ReadStep(a, r, room), r.Leftover());
            && read.result.Got? && |read.result.data| <= room && read.receiver.Sane()
            && read.receiver.dec == r.dec && read.receiver.inbox == r.inbox
            && left == read.result.data + read.receiver.Leftover()
  {
    var (q, k) := (r.qbuf.value, Min(room, |r.qbuf.value| - r.qseek));
    assert q[r.qseek..] == q[r.qseek..r.qseek + k] + q[r.qseek + k..];
  }

  lemma TakeFront(got: bytes, data: bytes, left: bytes, rest: bytes)
    ensures got + (data + left) + rest == got + data + left + rest
  {
    assert got + (data + left) == got + data + left;
  }

  /** Serving from the queue left by an earlier short read. */
  lemma QueueReadKeeps(a: Aead, f: Flow, chunks: seq<bytes>, room: nat)
    requires QueueIs(a, f, chunks) && f.receiver.qbuf.Some?
    ensures var r := ReadStep(a, f.receiver, room);
            && r.result.Got? && |r.result.data| <= room
            && QueueIs(a, f.(receiver := r.receiver, got := f.got + r.result.data), chunks)
  {
    hide Frames, Concat, Fits, ReadStep, Receiver.Leftover;
    QueueStep(a, f.receiver, room);
    var r := ReadStep(a, f.receiver, room);
    TakeFront(f.got, r.result.data, r.receiver.Leftover(), Concat(chunks));
  }

  lemma ConcatHead(chunks: seq<bytes>)
    requires chunks != []
    ensures Concat(chunks) == chunks[0] + Concat(chunks[1..])
  {
  }

  /** What a Read of a frame that opens to p does to the receiver. */
  lemma FrameStep(a: Aead, r: Receiver, p: bytes, room: nat)
    requires r.Sane() && r.qbuf.None? && r.FrameReady() && r.dec.Some? && Uint16(r.inbox) == |p| + TAG_SIZE
    requires var len := Uint16(r.inbox);
             a.open(r.dec.value.key, r.dec.value.n, r.inbox[PREFIX..PREFIX + len]) == Some(p)
    ensures var read := ReadStep(a, r, room);
            && read.result == Got(p[..Min(room, |p|)]) && read.receiver.Sane()
            && read.receiver.dec == Some(r.dec.value.Next())
            && read.receiver.inbox == r.inbox[PREFIX + Uint16(r.inbox)..]
            && p == read.result.data + read.receiver.Leftover()
  {
    var k := Min(room, |p|);
    assert p == p[..k] + p[k..];
    if room >= Uint16(r.inbox) {
      assert p[..k] == p;
    }
  }

  /** Taking the next frame, whether it fits the buffer or not. */
  lemma FrameReadKeeps(a: Aead, f: Flow, chunks: seq<bytes>, room: nat)
    requires a.Lawful() && QueueIs(a, f, chunks) && f.receiver.qbuf.None? && f.receiver.FrameReady()
    ensures var r := ReadStep(a, f.receiver, room);
            && r.result.Got? && |r.result.data| <= room && chunks != []
            && r.result.data == chunks[0][..Min(room, |chunks[0]|)]
            && (room > 0 ==> r.result.data != [])
            && QueueIs(a, f.(receiver := r.receiver, got := f.got + r.result.data), chunks[1..])
  {
    FirstFrame(a, f, chunks);
    assert 0 < |chunks[0]| && Fits(chunks[1..]);
    ConcatHead(chunks);
    var p := chunks[0];
    FrameStep(a, f.receiver, p, room);
    assert f.receiver.Leftover() == [];
    hide Frames, Concat, Fits, ReadStep, Aead.Lawful, Receiver.Leftover;
    var r := ReadStep(a, f.receiver, room);
    NothingBefore(f.got, p, Concat(chunks[1..]));
    TakeFront(f.got, r.result.data, r.receiver.Leftover(), Concat(chunks[1..]));
  }

  lemma NothingBefore(got: bytes, p: bytes, rest: bytes)
    ensures got + [] + (p + rest) == got + p + rest
  {
    assert got + [] == got;
  }

  /** Read takes from the front of the byte queue, never fails, and leaves the rest in it. */
  lemma ReadKeeps(a: Aead, f: Flow, chunks: seq<bytes>, room: nat)
    requires a.Lawful() && QueueIs(a, f, chunks) && f.receiver.Ready()
    ensures f.receiver.qbuf.Some? || chunks != []
    ensures var r := ReadStep(a, f.receiver, room);
            && r.result.Got? && |r.result.data| <= room
            && QueueIs(a, f.(receiver := r.receiver, got := f.got + r.result.data),
                       if f.receiver.qbuf.Some? then chunks else chunks[1..])
  {
    hide Frames, Concat, Fits, ReadStep;
    if f.receiver.qbuf.Some? {
      QueueReadKeeps(a, f, chunks, room);
    } else {
      FrameReadKeeps(a, f, chunks, room);
    }
  }

  lemma FitsAppend(xs: seq<bytes>, ys: seq<bytes>)
    requires Fits(xs) && Fits(ys)
    ensures Fits(xs + ys)
  {
  }

  lemma Regroup(a: bytes, b: bytes, c: bytes, d: bytes)
    ensures a + (b + c) == (a + b) + c
    ensures a + b + (c + d) == (a + b + c) + d
  {
  }

  lemma WriteKeeps(a: Aead, f: Flow, chunks: seq<bytes>, more: seq<bytes>)
    requires QueueIs(a, f, chunks) && f.up && Fits(more)
    ensures QueueIs(a,
        f.(enc := Advanced(f.enc, |more|), wire := f.wire + Frames(a, f.enc, more), sent := f.sent + Concat(more)),
                    chunks + more)
  {
    hide Frames, Concat, Fits, Receiver.Leftover;
    FitsAppend(chunks, more);
    FramesAppend(a, f.receiver.dec.value, chunks, more);
    ConcatAppend(chunks, more);
    Regroup(f.receiver.inbox, f.wire, Frames(a, f.enc, more), []);
    Regroup(f.got, f.receiver.Leftover(), Concat(chunks), Concat(more));
  }

  /** Every step keeps the two ends matched by a byte queue. */
  lemma StepKeeps(a: Aead, f: Flow, ev: Event, f': Flow)
    requires a.Lawful() && Synced(a, f) && Step(a, f, ev, f')
    ensures Synced(a, f')
  {
    hide QueueIs, ReadStep, Frames, Concat, Aead.Lawful;
    var chunks :| QueueIs(a, f, chunks);
    match ev
    case Writes(data, lasting) => WriteStepKeeps(a, f, chunks, data, lasting);
    case Delivers(k) => DeliverKeeps(a, f, chunks, k);
    case Reads(room) =>
      ReadKeeps(a, f, chunks, room);
      var left := if f.receiver.qbuf.Some? then chunks else chunks[1..];
      assert QueueIs(a, f', left);
  }

  lemma WriteStepKeeps(a: Aead, f: Flow, chunks: seq<bytes>, data: bytes, lasting: nat)
    requires QueueIs(a, f, chunks)
    ensures Synced(a, WriteStep(a, f, data, lasting))
  {
    hide Frames, Concat, Fits, Chunks;
    var cs := Chunks(data);
    if f.up {
      var more := if lasting < |cs| then cs[..lasting] else cs;
      SomeFit(cs, |more|);
      WriteKeeps(a, f, chunks, more);
      var g := f.(enc := Advanced(f.enc, |more|), wire := f.wire + Frames(a, f.enc, more),
          sent := f.sent + Concat(more));
      assert QueueIs(a, WriteStep(a, f, data, lasting), chunks + more) by {
        assert QueueIs(a, g, chunks + more);
      }
    } else {
      assert QueueIs(a, WriteStep(a, f, data, lasting), chunks);
    }
  }

  lemma SomeFit(cs: seq<bytes>, k: nat)
    requires Fits(cs) && k <= |cs|
    ensures Fits(cs[..k]) && cs[..|cs|] == cs
  {
  }

  lemma DeliverKeeps(a: Aead, f: Flow, chunks: seq<bytes>, k: nat)
    requires QueueIs(a, f, chunks) && k <= |f.wire|
    ensures Synced(a, f.(receiver := f.receiver.(inbox := f.receiver.inbox + f.wire[..k]), wire := f.wire[k..]))
  {
    hide Frames, Concat, Fits;
    var f' := f.(receiver := f.receiver.(inbox := f.receiver.inbox + f.wire[..k]), wire := f.wire[k..]);
    assert f'.receiver.inbox + f'.wire == f.receiver.inbox + f.wire;
    assert QueueIs(a, f', chunks);
  }

  /** A read returns data, no more than there is room for. */
  predicate ReadsWell(a: Aead, f: Flow, ev: Event) {
    ev.Reads? ==>
      && f.receiver.Sane()
      && var r := ReadStep(a, f.receiver, ev.room).result; r.Got? && |r.data| <= ev.room
  }

  ghost predicate IsRun(a: Aead, flows: seq<Flow>, events: seq<Event>) {
    && |flows| == |events| + 1
    && forall i :: 0 <= i < |events| ==> Step(a, flows[i], events[i], flows[i + 1])
  }

  /** Matched ends with nothing sent yet. */
  predicate Matched(f: Flow) {
    && f.up && f.wire == [] && f.sent == [] && f.got == []
    && f.receiver == Receiver(Some(f.enc), None, 0, [])
  }

  /**
    Main result. For every sequence of writes, every delivery schedule and every sequence of read
    buffer sizes, what was read is a prefix of what was written, and no read fails.
  */
  lemma ReadsArePrefixOfWrites(a: Aead, flows: seq<Flow>, events: seq<Event>)
    requires a.Lawful() && IsRun(a, flows, events) && Matched(flows[0])
    ensures forall i :: 0 <= i < |flows| ==> Synced(a, flows[i]) && flows[i].got <= flows[i].sent
    ensures forall i :: 0 <= i < |events| ==> ReadsWell(a, flows[i], events[i])
  {
    hide Step, ReadsWell, Synced, Aead.Lawful;
    MatchedIsSynced(a, flows[0]);
    forall i | 0 <= i < |flows|
      ensures Synced(a, flows[i]) && flows[i].got <= flows[i].sent
    {
      RunSynced(a, flows, events, i);
      SyncedPrefix(a, flows[i]);
    }
    forall i | 0 <= i < |events|
      ensures ReadsWell(a, flows[i], events[i])
    {
      assert Step(a, flows[i], events[i], flows[i + 1]);
      StepReads(a, flows[i], events[i], flows[i + 1]);
    }
  }

  lemma {:induction false} RunSynced(a: Aead, flows: seq<Flow>, events: seq<Event>, i: nat)
    requires a.Lawful() && IsRun(a, flows, events) && Synced(a, flows[0]) && i < |flows|
    ensures Synced(a, flows[i])
  {
    hide Step, Synced, Aead.Lawful;
    if i > 0 {
      RunSynced(a, flows, events, i - 1);
      assert Step(a, flows[i - 1], events[i - 1], flows[i]);
      StepKeeps(a, flows[i - 1], events[i - 1], flows[i]);
    }
  }

  lemma MatchedIsSynced(a: Aead, f: Flow)
    requires Matched(f)
    ensures Synced(a, f)
  {
    assert QueueIs(a, f, []);
  }

  lemma SyncedPrefix(a: Aead, f: Flow)
    requires Synced(a, f)
    ensures f.got <= f.sent
  {
    hide Frames, Concat, Fits;
    var chunks :| QueueIs(a, f, chunks);
  }

  lemma StepReads(a: Aead, f: Flow, ev: Event, f': Flow)
    requires a.Lawful() && Synced(a, f) && Step(a, f, ev, f')
    ensures ReadsWell(a, f, ev)
  {
    if ev.Reads? {
      var chunks :| QueueIs(a, f, chunks);
      ReadKeeps(a, f, chunks, ev.room);
    }
  }

  // ----- frame boundaries, progress, empty reads -----

  lemma FramesNonEmpty(a: Aead, c: Cipher, chunks: seq<bytes>)
    requires chunks != []
    ensures |Frames(a, c, chunks)| >= PREFIX
  {
  }

  /** With nothing on the way, the counters are in step and all that was written is read or queued. */
  lemma InStepAtBoundary(a: Aead, f: Flow)
    requires Synced(a, f) && f.up && f.wire == [] && f.receiver.inbox == []
    ensures f.receiver.Sane() && f.receiver.dec == Some(f.enc) && f.sent == f.got + f.receiver.Leftover()
  {
    var chunks :| QueueIs(a, f, chunks);
    if chunks != [] {
      FramesNonEmpty(a, f.receiver.dec.value, chunks);
    }
  }

  /** The receiver's counter is never ahead of the sender's. */
  lemma NeverAhead(a: Aead, f: Flow)
    requires Synced(a, f) && f.up
    ensures f.receiver.dec.Some? && f.receiver.dec.value.key == f.enc.key && f.receiver.dec.value.n <= f.enc.n
  {
    var chunks :| QueueIs(a, f, chunks);
  }

  /** Once everything on the way has arrived, a reader with unread data is not kept waiting. */
  lemma UnreadMeansReady(a: Aead, f: Flow)
    requires a.Lawful() && Synced(a, f) && f.wire == [] && f.got != f.sent
    ensures f.receiver.Sane() && f.receiver.Ready()
  {
    var chunks :| QueueIs(a, f, chunks);
    if chunks != [] {
      var (c, rest) := (f.receiver.dec.value, Frames(a, f.receiver.dec.value.Next(), chunks[1..]));
      FrameSize(a, c, chunks[0]);
      assert f.receiver.inbox == Frame(a, c, chunks[0]) + rest;
      assert Uint16(Frame(a, c, chunks[0]) + rest) == |chunks[0]| + TAG_SIZE;
    }
  }

  /** A read into a non-empty buffer returns nothing exactly when an exhausted queue was left behind. */
  lemma EmptyReadIff(a: Aead, f: Flow, room: nat)
    requires a.Lawful() && Synced(a, f) && f.receiver.Sane() && f.receiver.Ready() && room > 0
    ensures var r := ReadStep(a, f.receiver, room);
            && r.result.Got?
            && (r.result.data == [] <==> f.receiver.qbuf.Some? && f.receiver.qseek == |f.receiver.qbuf.value|)
            && (r.result.data == [] ==> r.receiver.qbuf.None?)
  {
    var chunks :| QueueIs(a, f, chunks);
    if f.receiver.qbuf.None? {
      FrameReadKeeps(a, f, chunks, room);
    }
  }

  /** Two reads in a row with room and with data available cannot both return nothing. */
  lemma NoTwoEmptyReads(a: Aead, f: Flow, room: nat, f1: Flow, room1: nat)
    requires a.Lawful() && Synced(a, f) && room > 0 && room1 > 0
    requires Step(a, f, Reads(room), f1) && f1.got == f.got && f1.receiver.Sane() && f1.receiver.Ready()
    ensures var r := ReadStep(a, f1.receiver, room1).result; r.Got? && r.data != []
  {
    EmptyReadIff(a, f, room);
    StepKeeps(a, f, Reads(room), f1);
    EmptyReadIff(a, f1, room1);
  }

  /** The exhausted queue does arise: a buffer that holds the plaintext but not the sealed frame. */
  lemma SnugReadLeavesEmptyQueue(a: Aead, f: Flow, chunks: seq<bytes>, room: nat)
    requires a.Lawful() && QueueIs(a, f, chunks) && f.receiver.qbuf.None? && f.receiver.FrameReady() && chunks != []
    ensures var r := ReadStep(a, f.receiver, room).receiver;
            r.qbuf.Some? && r.qseek == |r.qbuf.value| <==> |chunks[0]| <= room < |chunks[0]| + TAG_SIZE
  {
    FirstFrame(a, f, chunks);
  }

  // ----- the object -----

  /** SecureSession over its insecure connection: `inbox` has arrived, `outbox` has been written. */
  class SecureSession {
    const aead: Aead
    var enc: Option<Cipher>
    var dec: Option<Cipher>
    var qbuf: Option<bytes>
    var qseek: nat
    var inbox: bytes
    var outbox: bytes

    constructor (aead: Aead)
      ensures Valid() && this.aead == aead && enc == None && dec == None && inbox == [] && outbox == []
    {
      this.aead := aead;
      enc, dec, qbuf, qseek, inbox, outbox := None, None, None, 0, [], [];
    }

    function View(): Receiver
      reads this
    {
      Receiver(dec, qbuf, qseek, inbox)
    }

    predicate Valid()
      reads this
    {
      View().Sane()
    }

    /** readNextInsecureMsgLen and readNextMsgInsecure: a short supply is used up and reported. */
    method ReadFull(count: nat) returns (data: bytes, ok: bool)
      modifies this`inbox
      ensures ok <==> |old(inbox)| >= count
      ensures if ok then data == old(inbox)[..count] && inbox == old(inbox)[count..] else data == [] && inbox == []
    {
      if |inbox| < count {
        inbox := [];
        return [], false;
      }
      data, inbox, ok := inbox[..count], inbox[count..], true;
    }

    /** The branch of Read that serves from the queue. */
    method ReadQueue(buf: array<byte>) returns (n: nat)
      requires Valid() && qbuf.Some?
      modifies this`qbuf, this`qseek, buf
      ensures Valid()
      ensures var r := ReadStep(aead, old(View()), buf.Length);
              View() == r.receiver && r.result.Got? && n == |r.result.data| <= buf.Length && buf[..n] == r.result.data
    {
      n := CopyTo(buf, qbuf.value[qseek..]);
      qseek := qseek + n;
      if qseek == |qbuf.value| {
        qseek, qbuf := 0, None;
      }
    }

    method Read(buf: array<byte>) returns (n: nat, why: Option<Failure>)
      requires Valid() && aead.Lawful()
      modifies this`dec, this`qbuf, this`qseek, this`inbox, buf
      ensures Valid()
      ensures var r := ReadStep(aead, old(View()), buf.Length);
              && View() == r.receiver
              && match r.result
                 case Got(data) => why == None && n == |data| <= buf.Length && buf[..n] == data
                 case Failed(w) => why == Some(w) && n == 0
      ensures old(qbuf).None? ==> (why.None? <==> AcceptsFrame(aead, old(View())))
      ensures old(qbuf).None? && why.None? ==>
                buf[..n] + View().Leftover() == PlainOf(aead, old(View()))
      ensures why.Some? ==> n == 0 && qbuf.None?
    {
      ReadMeans(aead, View(), buf.Length);
      if qbuf.Some? {
        n := ReadQueue(buf);
        return n, None;
      }
      var prefix, ok := ReadFull(PREFIX);
      if !ok {
        return 0, Some(Starved);
      }
      var len := Uint16(prefix);
      var sealed;
      sealed, ok := ReadFull(len);
      if !ok {
        return 0, Some(Starved);
      }
      assert sealed == old(inbox)[PREFIX..PREFIX + len];
      if dec.None? {
        return 0, Some(NoCipher);
      }
      var plain := aead.open(dec.value.key, dec.value.n, sealed);
      if plain.None? {
        if aead.countsRefused {
          dec := Some(dec.value.Next());
        }
        return 0, Some(Garbled);
      }
      dec := Some(dec.value.Next());
      n := CopyTo(buf, plain.value);
      if buf.Length < len {
        qbuf, qseek := plain, n;
      }
      return n, None;
    }

    /** Go's copy: as much as fits. */
    method CopyTo(buf: array<byte>, data: bytes) returns (n: nat)
      modifies buf
      ensures n == Min(buf.Length, |data|) && buf[..n] == data[..n] && buf[n..] == old(buf[n..])
    {
      n := Min(buf.Length, |data|);
      for i := 0 to n
        invariant buf[..i] == data[..i] && buf[n..] == old(buf[n..])
      {
        buf[i] := data[i];
        assert buf[..i + 1] == buf[..i] + [data[i]];
      }
    }

    /** The connection accepts `lasting` more messages, then fails. */
    method Write(data: bytes, lasting: nat) returns (written: nat, ok: bool)
      requires aead.Lawful()
      modifies this`enc, this`outbox
      ensures data == [] ==> ok
      ensures enc.Some? <==> old(enc).Some?
      ensures old(enc).None? ==> (ok <==> data == []) && written == 0 && outbox == old(outbox)
      ensures old(enc).Some? ==>
                var chunks := Chunks(data);
                var k := Min(lasting, |chunks|);
                && (ok <==> k == |chunks|)
                && outbox == old(outbox) + Frames(aead, old(enc).value, chunks[..k])
                && written == |Concat(chunks[..k])|
                && enc == Some(Advanced(old(enc).value, if ok then k else k + 1))
    {
      WriteStart(aead, data);
      hide Frames, Concat, Chunks, Frame;
      var total := |data|;
      var cbuf := new byte[if total < MAX_PLAINTEXT then total + TAG_SIZE + PREFIX else MAX_TRANSPORT + PREFIX];
      written := 0;
      var left := lasting;
      ghost var (chunks, done) := (Chunks(data), []);
      while written < total
        invariant written <= total && chunks == done + Chunks(data[written..]) && |done| + left == lasting
        invariant written == |Concat(done)|
        invariant enc.Some? <==> old(enc).Some?
        invariant old(enc).None? ==> written == 0 && outbox == old(outbox)
        invariant old(enc).Some? ==> outbox == old(outbox) + Frames(aead, old(enc).value, done)
        invariant old(enc).Some? ==> enc == Some(Advanced(old(enc).value, |done|))
      {
        var end := Min(written + MAX_PLAINTEXT, total);
        if enc.None? {
          return 0, false;
        }
        var len := Seal(cbuf, data[written..end]);
        ChunksNext(data, written, end, done);
        if left == 0 {
          return written, false;
        }
        outbox, left := outbox + cbuf[..len], left - 1;
        FramesOneMore(aead, old(enc).value, done, data[written..end]);
        done := done + [data[written..end]];
        written := end;
      }
      assert data[written..] == [] && chunks == done && chunks[..|chunks|] == chunks;
      ok := true;
    }

    /** Encrypts behind the space of the length prefix, then fills the prefix in; the frame fits the buffer. */
    method Seal(cbuf: array<byte>, p: bytes) returns (len: nat)
      requires aead.Lawful() && enc.Some? && |p| <= MAX_PLAINTEXT && PREFIX + |p| + TAG_SIZE <= cbuf.Length
      modifies this`enc, cbuf
      ensures enc == Some(old(enc).value.Next())
      ensures len <= cbuf.Length && cbuf[..len] == Frame(aead, old(enc).value, p)
    {
      var sealed := aead.seal(enc.value.key, enc.value.n, p);
      enc := Some(enc.value.Next());
      forall j | 0 <= j < |sealed| {
        cbuf[PREFIX + j] := sealed[j];
      }
      cbuf[0], cbuf[1] := PutUint16(|sealed|)[0], PutUint16(|sealed|)[1];
      len := PREFIX + |sealed|;
      assert cbuf[..len] == PutUint16(|sealed|) + sealed;
    }
  }
}
