/**
  The components together. Set-up builds a line; over that line the two clients run the
  handshake and then write and read through their secure sessions, all in Data messages on the
  same circuit. The bytes one client writes come out, in order, at the other, for any number of
  hops, any interleaving, any write sizes and any read buffer sizes.
*/
module EndToEnd {
  import opened Basics
  import opened Relay
  import opened LineModel
  import opened SecureStream
  import opened Framing
  import SetupLine
  import C = Conservation
  import H = Handshake
  import CircuitSetup
  import SetupTheorem
  import SetupRuns

  // ----- the state -----

  /** One direction of the secure connection: both ciphers, the receiver's queue and the history. */
  datatype Channel = Channel(
    enc: Option<Cipher>, dec: Option<Cipher>, qbuf: Option<bytes>, qseek: nat, sent: bytes, got: bytes)
  {
    predicate Sane() {
      qbuf.Some? ==> qseek <= |qbuf.value|
    }

    function Leftover(): bytes
      requires Sane()
    {
      if qbuf.Some? then qbuf.value[qseek..] else []
    }
  }

  const UNUSED: Channel := Channel(None, None, None, 0, [], [])

  /**
    The line with its traffic, the two ends of the handshake and the two directions. The caller
    is the initiator and sits where Rightward starts. The pipes of `net` are history: the
    handshake messages that are under way in the circuit.
  */
  datatype System = System(traffic: C.Traffic, net: H.Net, right: Channel, left: Channel) {
    function Chan(d: Dir): Channel {
      if d.Rightward? then right else left
    }

    function WithChan(d: Dir, ch: Channel): System {
      if d.Rightward? then this.(right := ch) else this.(left := ch)
    }

    /** The end that writes in direction d. */
    function Sender(d: Dir): H.Party {
      if d.Rightward? then net.i else net.r
    }

    /** The end that reads in direction d. */
    function Reader(d: Dir): H.Party {
      if d.Rightward? then net.r else net.i
    }

    function Pipe(d: Dir): seq<bytes> {
      if d.Rightward? then net.ir else net.ri
    }
  }

  /** A handshake message on the circuit: its length in 16 bits, then the message. */
  function HandshakeFrame(m: bytes): bytes {
    PutUint16(|m|) + m
  }

  function ReceiverOf(sys: System, d: Dir): Receiver
    requires sys.traffic.chain.Sized()
  {
    var ch := sys.Chan(d);
    Receiver(ch.dec, ch.qbuf, ch.qseek, C.Inbox(sys.traffic.chain, d))
  }

  /** The first frame that has arrived in direction d, without its prefix. */
  function FirstBody(sys: System, d: Dir): bytes
    requires sys.traffic.chain.Sized() && ReceiverOf(sys, d).FrameReady()
  {
    var inbox := ReceiverOf(sys, d).inbox;
    inbox[PREFIX..PREFIX + Uint16(inbox)]
  }

  // ----- the steps -----

  datatype Event =
    | Shakes(d: Dir, bad: set<StreamId>)
    | HearsShake(d: Dir)
    | WritesFrame(d: Dir, p: bytes, bad: set<StreamId>)
    | Reads(d: Dir, room: nat)
    | Network(ev: C.Event)

  /** Ciphers come into use when an end has finished its handshake. */
  function Finished(sys: System, net: H.Net): System {
    System(sys.traffic, net,
           sys.right.(enc := if net.i.Done() && !sys.net.i.Done() then net.i.enc else sys.right.enc,
                      dec := if net.r.Done() && !sys.net.r.Done() then net.r.dec else sys.right.dec),
           sys.left.(enc := if net.r.Done() && !sys.net.r.Done() then net.r.enc else sys.left.enc,
                     dec := if net.i.Done() && !sys.net.i.Done() then net.i.dec else sys.left.dec))
  }

  /** The sender of direction d writes its next handshake message to the circuit. */
  predicate ShakesStep(cr: H.Crypto, sys: System, d: Dir, bad: set<StreamId>, sys': System) {
    var mv := if d.Rightward? then H.ISends(true) else H.RSends(true);
    && H.Enabled(sys.net, mv)
    && var out := H.SendMessage(cr, sys.Sender(d), true).fields;
       && out.Some?
       && C.Step(sys.traffic, C.Writes(d, HandshakeFrame(out.value), bad), sys'.traffic)
       && sys' == Finished(sys, H.After(cr, sys.net, mv)).(traffic := sys'.traffic)
  }

  /** The reader of direction d takes a frame from the circuit as its next handshake message. */
  predicate HearsStep(cr: H.Crypto, sys: System, d: Dir, sys': System) {
    && sys.traffic.chain.Sized() && sys.Reader(d).ToRead() && ReceiverOf(sys, d).FrameReady()
    && C.Step(sys.traffic, C.Reads(d, PREFIX + |FirstBody(sys, d)|), sys'.traffic)
    && var heard := H.ReadNext(cr, sys.Reader(d), FirstBody(sys, d));
       var net := if d.Rightward? then sys.net.(r := heard, ir := Tail(sys.net.ir))
                  else sys.net.(i := heard, ri := Tail(sys.net.ri));
       sys' == Finished(sys, net).(traffic := sys'.traffic)
  }

  function Tail(s: seq<bytes>): seq<bytes> {
    if s == [] then [] else s[1..]
  }

  /** One frame of a Write by a finished end; a longer Write is several such steps. */
  predicate WritesStep(a: Aead, sys: System, d: Dir, p: bytes, bad: set<StreamId>, sys': System) {
    var ch := sys.Chan(d);
    && ch.enc.Some? && 0 < |p| <= MAX_PLAINTEXT
    && C.Step(sys.traffic, C.Writes(d, Frame(a, ch.enc.value, p), bad), sys'.traffic)
    && sys' == sys.WithChan(d, ch.(enc := Some(ch.enc.value.Next()), sent := ch.sent + p)).(traffic := sys'.traffic)
  }

  /** How many bytes a Read takes out of the circuit's buffer. */
  function Taken(a: Aead, r: Receiver, room: nat): nat
    requires r.Sane()
  {
    var left := ReadStep(a, r, room).receiver.inbox;
    if |left| <= |r.inbox| then |r.inbox| - |left| else 0
  }

  /** One Read by a finished end. */
  predicate ReadsStep(a: Aead, sys: System, d: Dir, room: nat, sys': System) {
    && sys.traffic.chain.Sized() && sys.Chan(d).dec.Some?
    && var (ch, r) := (sys.Chan(d), ReceiverOf(sys, d));
       && r.Sane() && r.Ready()
       && var read := ReadStep(a, r, room);
          && (if r.qbuf.Some? then sys'.traffic == sys.traffic
              else C.Step(sys.traffic, C.Reads(d, Taken(a, r, room)), sys'.traffic))
          && sys' == sys.WithChan(d,
             ch.(dec := read.receiver.dec, qbuf := read.receiver.qbuf, qseek := read.receiver.qseek,
                                         got := ch.got + if read.result.Got? then read.result.data else []))
                     .(traffic := sys'.traffic)
  }

  /** Everything else that happens on the line: messages travel, nodes signal or serve other sessions. */
  predicate NetworkStep(sys: System, ev: C.Event, sys': System) {
    !ev.Writes? && !ev.Reads? && C.Step(sys.traffic, ev, sys'.traffic) && sys' == sys.(traffic := sys'.traffic)
  }

  predicate Step(a: Aead, cr: H.Crypto, sys: System, ev: Event, sys': System) {
    match ev
    case Shakes(d, bad) => ShakesStep(cr, sys, d, bad, sys')
    case HearsShake(d) => HearsStep(cr, sys, d, sys')
    case WritesFrame(d, p, bad) => WritesStep(a, sys, d, p, bad, sys')
    case Reads(d, room) => ReadsStep(a, sys, d, room, sys')
    case Network(ev) => NetworkStep(sys, ev, sys')
  }

  // ----- what is under way on the chain -----

  /** All bytes between the two ends in direction d. */
  function Flight(t: C.Traffic, d: Dir): bytes
    requires t.chain.Sized()
  {
    C.Inbox(t.chain, d) + C.Ahead(C.HopBytes(t.chain, d))
  }

  /** The books of the chain balance in both directions. */
  predicate Books(t: C.Traffic) {
    t.chain.Sized() && C.Conserved(t, Rightward) && C.Conserved(t, Leftward)
  }

  lemma CancelLeft(a: bytes, b: bytes, c: bytes)
    requires a + b == a + c
    ensures b == c
  {
    assert (a + b)[|a|..] == b && (a + c)[|a|..] == c;
  }

  lemma InFlight(t: C.Traffic, d: Dir)
    requires t.chain.Sized() && C.Conserved(t, d)
    ensures t.Sent(d) == t.Got(d) + Flight(t, d)
  {
    hide C.Inbox, C.HopBytes, C.Ahead;
    Regroup(t.Got(d), C.Inbox(t.chain, d), C.Ahead(C.HopBytes(t.chain, d)), []);
  }

  /** What a step of the chain does to the histories of one direction. */
  lemma StepHistory(t: C.Traffic, ev: C.Event, t': C.Traffic, d: Dir)
    requires C.Step(t, ev, t') && t.chain.Sized()
    ensures t'.Sent(d) == t.Sent(d) + if ev.Writes? && ev.d == d then ev.payload else []
    ensures ev.Reads? && ev.d == d ==>
              t'.Got(d) == t.Got(d) + C.Inbox(t.chain, d)[..Min(ev.room, |C.Inbox(t.chain, d)|)]
    ensures !(ev.Reads? && ev.d == d) ==> t'.Got(d) == t.Got(d)
  {
    hide C.Inbox, Chain.Open, C.WriteAt, Arrive, Act, C.SameInbox, C.Drained;
  }

  /** Only a write adds to what is under way, only a read takes from it. */
  lemma FlightMoves(t: C.Traffic, ev: C.Event, t': C.Traffic, d: Dir)
    requires Books(t) && C.Step(t, ev, t') && !(ev.Reads? && ev.d == d)
    ensures Books(t') && Flight(t', d) == Flight(t, d) + if ev.Writes? && ev.d == d then ev.payload else []
  {
    hide C.Step, C.Conserved, Flight;
    C.StepConserves(t, ev, t', Rightward);
    C.StepConserves(t, ev, t', Leftward);
    StepHistory(t, ev, t', d);
    InFlight(t, d);
    InFlight(t', d);
    var more := if ev.Writes? && ev.d == d then ev.payload else [];
    Regroup(t.Got(d), Flight(t, d), more, []);
    CancelLeft(t.Got(d), Flight(t, d) + more, Flight(t', d));
  }

  lemma FlightShrinks(t: C.Traffic, d: Dir, k: nat, t': C.Traffic)
    requires Books(t) && k <= |C.Inbox(t.chain, d)| && C.Step(t, C.Reads(d, k), t')
    ensures Books(t') && k <= |Flight(t, d)| && Flight(t', d) == Flight(t, d)[k..]
  {
    hide C.Step, C.Conserved, C.Inbox, C.HopBytes, C.Ahead;
    C.StepConserves(t, C.Reads(d, k), t', Rightward);
    C.StepConserves(t, C.Reads(d, k), t', Leftward);
    StepHistory(t, C.Reads(d, k), t', d);
    InFlight(t, d);
    InFlight(t', d);
    var (inbox, flight) := (C.Inbox(t.chain, d), Flight(t, d));
    assert flight[..k] == inbox[..k];
    assert flight == flight[..k] + flight[k..];
    hide Flight;
    Regroup(t.Got(d), flight[..k], flight[k..], []);
    CancelLeft(t.Got(d) + flight[..k], flight[k..], Flight(t', d));
  }

  // ----- the invariant of one direction -----

  function PipeBytes(pipe: seq<bytes>): bytes {
    if pipe == [] then [] else HandshakeFrame(pipe[0]) + PipeBytes(pipe[1..])
  }

  /** The cipher that the first frame under way is sealed with. */
  function Base(ch: Channel, s: H.Party): Cipher {
    if ch.dec.Some? then ch.dec.value else if s.enc.Some? then s.enc.value else Cipher(0, 0)
  }

  /** How far the two ends of a direction have come. */
  predicate Staged(ch: Channel, s: H.Party, v: H.Party) {
    && (ch.enc.Some? <==> s.Done()) && (ch.dec.Some? <==> v.Done()) && (s.Done() ==> s.enc.Some?)
    && ch.Sane()
    && (ch.dec.None? ==> ch.got == [] && ch.qbuf.None?)
    && (ch.enc.None? ==> ch.sent == [] && ch.got == [] && ch.qbuf.None? && (ch.dec.Some? ==> ch.dec == v.dec))
  }

  /**
    Under way from s to v are the handshake messages of `pipe` and then the frames of `chunks`;
    what was sent is what was read, what is queued and those chunks.
  */
  predicate DirOk(a: Aead, ch: Channel, pipe: seq<bytes>, flight: bytes, s: H.Party, v: H.Party, chunks: seq<bytes>) {
    && Staged(ch, s, v) && Fits(chunks) && (ch.enc.None? ==> chunks == [])
    && (forall k :: 0 <= k < |pipe| ==> |pipe[k]| <= MAX_TRANSPORT)
    && flight == PipeBytes(pipe) + Frames(a, Base(ch, s), chunks)
    && ch.sent == ch.got + ch.Leftover() + Concat(chunks)
    && (ch.enc.Some? ==> ch.enc.value == Advanced(Base(ch, s), |chunks|))
  }

  ghost predicate DirInv(a: Aead, sys: System, d: Dir)
    requires sys.traffic.chain.Sized()
  {
    exists chunks :: DirOk(a, sys.Chan(d), sys.Pipe(d), Flight(sys.traffic, d), sys.Sender(d), sys.Reader(d), chunks)
  }

  ghost predicate Inv(a: Aead, cr: H.Crypto, dialled: Peer, sys: System) {
    Books(sys.traffic) && H.Inv(cr, sys.net, dialled) && DirInv(a, sys, Rightward) && DirInv(a, sys, Leftward)
  }

  /** Nothing has been sent by an end that is not done. */
  lemma NotYetSent(a: Aead, ch: Channel, pipe: seq<bytes>, flight: bytes, s: H.Party, v: H.Party, chunks: seq<bytes>)
    requires DirOk(a, ch, pipe, flight, s, v, chunks) && !s.Done()
    ensures chunks == [] && flight == PipeBytes(pipe)
  {
  }

  // ----- handshake messages -----

  lemma OnePipe(m: bytes)
    ensures PipeBytes([m]) == HandshakeFrame(m) && PipeBytes([]) == []
  {
    assert [m][1..] == [];
    assert HandshakeFrame(m) + [] == HandshakeFrame(m);
  }

  /** The sender's direction after it sent handshake message m. */
  lemma ShakeForward(a: Aead, ch: Channel, flight: bytes, s: H.Party, v: H.Party, chunks: seq<bytes>, m: bytes,
                     s': H.Party)
    requires DirOk(a, ch, [], flight, s, v, chunks) && !s.Done() && !v.Done() && |m| <= MAX_TRANSPORT
    requires s'.Done() ==> s'.enc.Some?
    ensures DirOk(a, if s'.Done() then ch.(enc := s'.enc) else ch, [m], flight + HandshakeFrame(m), s', v, [])
  {
    OnePipe(m);
    NotYetSent(a, ch, [], flight, s, v, chunks);
    hide HandshakeFrame, PipeBytes;
    assert HandshakeFrame(m) + [] == [] + HandshakeFrame(m) == HandshakeFrame(m);
  }

  /** The other direction, whose reader has just sent: it may be done now. */
  lemma ShakeBack(a: Aead, ch: Channel, flight: bytes, s: H.Party, v: H.Party, chunks: seq<bytes>, v': H.Party)
    requires DirOk(a, ch, [], flight, s, v, chunks) && !s.Done() && !v.Done() && (v'.Done() ==> v'.dec.Some?)
    ensures DirOk(a, if v'.Done() then ch.(dec := v'.dec) else ch, [], flight, s, v', [])
  {
    NotYetSent(a, ch, [], flight, s, v, chunks);
  }

  /** A complete frame in front of the inbox is the handshake message under way. */
  lemma FirstHandshake(inbox: bytes, wire: bytes, m: bytes, rest: bytes)
    requires inbox + wire == HandshakeFrame(m) + rest && |m| <= MAX_TRANSPORT
    requires |inbox| >= PREFIX && |inbox| >= PREFIX + Uint16(inbox)
    ensures Uint16(inbox) == |m| && inbox[PREFIX..PREFIX + |m|] == m && (inbox + wire)[PREFIX + |m|..] == rest
  {
    var whole := inbox + wire;
    assert whole == PutUint16(|m|) + (m + rest);
    Uint16RoundTrip(|m|, m + rest);
    assert whole[0] == inbox[0] && whole[1] == inbox[1];
    assert Uint16(inbox) == Uint16(whole);
    assert inbox[PREFIX..PREFIX + |m|] == whole[PREFIX..PREFIX + |m|];
  }

  /** The reader's direction after it took message m. */
  lemma HearForward(a: Aead, ch: Channel, m: bytes, flight: bytes, s: H.Party, v: H.Party, chunks: seq<bytes>,
                    v': H.Party)
    requires DirOk(a, ch, [m], flight, s, v, chunks) && !v.Done()
    requires v'.Done() ==> s.Done() && v'.dec.Some? && v'.dec == s.enc
    ensures PREFIX + |m| <= |flight|
    ensures DirOk(a, if v'.Done() then ch.(dec := v'.dec) else ch, [], flight[PREFIX + |m|..], s, v', chunks)
  {
    OnePipe(m);
    var frames := Frames(a, Base(ch, s), chunks);
    assert |HandshakeFrame(m)| == PREFIX + |m|;
    hide Frames, HandshakeFrame, Concat;
    assert flight[PREFIX + |m|..] == frames == [] + frames;
  }

  /** The other direction, whose sender has just read: it may be done now. */
  lemma HearBack(a: Aead, ch: Channel, pipe: seq<bytes>, flight: bytes, s: H.Party, v: H.Party, chunks: seq<bytes>,
                 s': H.Party)
    requires DirOk(a, ch, pipe, flight, s, v, chunks) && !s.Done()
    requires s'.Done() ==> v.Done() && s'.enc.Some? && s'.enc == v.dec
    ensures DirOk(a, if s'.Done() then ch.(enc := s'.enc) else ch, pipe, flight, s', v, [])
  {
    NotYetSent(a, ch, pipe, flight, s, v, chunks);
  }

  // ----- frames -----

  lemma WriteForward(a: Aead, ch: Channel, pipe: seq<bytes>, flight: bytes, s: H.Party, v: H.Party, chunks: seq<bytes>,
                     p: bytes)
    requires DirOk(a, ch, pipe, flight, s, v, chunks) && ch.enc.Some? && 0 < |p| <= MAX_PLAINTEXT
    ensures DirOk(a, ch.(enc := Some(ch.enc.value.Next()), sent := ch.sent + p), pipe,
                  flight + Frame(a, ch.enc.value, p), s, v, chunks + [p])
  {
    FitsAppend(chunks, [p]);
    FramesOneMore(a, Base(ch, s), chunks, p);
    ConcatAppend(chunks, [p]);
    assert Concat([p]) == p + Concat([p][1..]) && [p][1..] == [];
    hide Frames, Frame, Concat, PipeBytes, Channel.Leftover, Fits;
    Regroup(PipeBytes(pipe), Frames(a, Base(ch, s), chunks), Frame(a, ch.enc.value, p), []);
    Regroup(ch.got, ch.Leftover(), Concat(chunks), p);
  }

  /** The direction as a flow of the secure stream. */
  function FlowOf(ch: Channel, inbox: bytes, wire: bytes, chunks: seq<bytes>): Flow
    requires ch.dec.Some?
  {
    Flow(Advanced(ch.dec.value, |chunks|), true, wire, Receiver(ch.dec, ch.qbuf, ch.qseek, inbox), ch.sent, ch.got)
  }

  lemma DirIsQueue(a: Aead, ch: Channel, inbox: bytes, wire: bytes, s: H.Party, v: H.Party, chunks: seq<bytes>)
    requires DirOk(a, ch, [], inbox + wire, s, v, chunks) && ch.dec.Some?
    ensures QueueIs(a, FlowOf(ch, inbox, wire, chunks), chunks)
  {
    hide Frames, Concat, Fits;
  }

  lemma QueueIsDir(a: Aead, ch: Channel, inbox: bytes, wire: bytes, s: H.Party, v: H.Party, chunks: seq<bytes>)
    requires ch.dec.Some? && QueueIs(a, FlowOf(ch, inbox, wire, chunks), chunks) && Staged(ch, s, v)
    requires ch.enc.Some? && ch.enc.value == Advanced(ch.dec.value, |chunks|)
    ensures DirOk(a, ch, [], inbox + wire, s, v, chunks)
  {
    hide Frames, Concat, Fits;
    assert [] + (inbox + wire) == inbox + wire;
  }

  /** A ready reader implies that the sender is done. */
  lemma ReadyMeansSent(a: Aead, ch: Channel, inbox: bytes, wire: bytes, s: H.Party, v: H.Party, chunks: seq<bytes>)
    requires DirOk(a, ch, [], inbox + wire, s, v, chunks) && ch.dec.Some?
    requires Receiver(ch.dec, ch.qbuf, ch.qseek, inbox).Ready()
    ensures ch.enc.Some?
  {
    if ch.enc.None? {
      NotYetSent(a, ch, [], inbox + wire, s, v, chunks);
    }
  }

  lemma ReadForward(a: Aead, ch: Channel, inbox: bytes, wire: bytes, s: H.Party, v: H.Party, chunks: seq<bytes>,
                    room: nat)
    requires a.Lawful() && DirOk(a, ch, [], inbox + wire, s, v, chunks) && ch.dec.Some?
    requires Receiver(ch.dec, ch.qbuf, ch.qseek, inbox).Ready()
    ensures ch.qbuf.None? ==> chunks != []
    ensures var r := Receiver(ch.dec, ch.qbuf, ch.qseek, inbox);
            && r.Sane()
            && var read := ReadStep(a, r, room);
               && read.result.Got?
               && DirOk(a, ch.(dec := read.receiver.dec, qbuf := read.receiver.qbuf, qseek := read.receiver.qseek,
                               got := ch.got + read.result.data),
                        [], read.receiver.inbox + wire, s, v, if r.qbuf.Some? then chunks else chunks[1..])
  {
    ReadyMeansSent(a, ch, inbox, wire, s, v, chunks);
    DirIsQueue(a, ch, inbox, wire, s, v, chunks);
    var f := FlowOf(ch, inbox, wire, chunks);
    assert f.receiver.Sane();
    ReadKeeps(a, f, chunks, room);
    var read := ReadStep(a, f.receiver, room);
    hide Frames, Concat, Fits, ReadStep, Aead.Lawful;
    var chunks' := if f.receiver.qbuf.Some? then chunks else chunks[1..];
    var ch' := ch.(dec := read.receiver.dec, qbuf := read.receiver.qbuf, qseek := read.receiver.qseek,
                   got := ch.got + read.result.data);
    assert FlowOf(ch', read.receiver.inbox, wire, chunks') == f.(receiver := read.receiver, got := ch'.got);
    QueueIsDir(a, ch', read.receiver.inbox, wire, s, v, chunks');
  }

  // ----- every step -----

  /** A direction in which nothing of its own changed keeps what it had. */
  lemma DirSame(a: Aead, sys: System, sys': System, d: Dir)
    requires sys.traffic.chain.Sized() && sys'.traffic.chain.Sized() && DirInv(a, sys, d)
    requires sys'.Chan(d) == sys.Chan(d) && sys'.Pipe(d) == sys.Pipe(d)
    requires Flight(sys'.traffic, d) == Flight(sys.traffic, d)
    requires sys'.Sender(d) == sys.Sender(d) && sys'.Reader(d) == sys.Reader(d)
    ensures DirInv(a, sys', d)
  {
    hide DirOk, Flight;
  }

  /** A direction with its chunks in hand. */
  lemma DirHolds(a: Aead, sys: System, d: Dir, ch: Channel, pipe: seq<bytes>, flight: bytes, s: H.Party, v: H.Party,
                 chunks: seq<bytes>)
    requires sys.traffic.chain.Sized() && DirOk(a, ch, pipe, flight, s, v, chunks)
    requires sys.Chan(d) == ch && sys.Pipe(d) == pipe && Flight(sys.traffic, d) == flight
    requires sys.Sender(d) == s && sys.Reader(d) == v
    ensures DirInv(a, sys, d)
  {
    hide DirOk, Flight;
  }

  lemma NetworkKeeps(a: Aead, cr: H.Crypto, dialled: Peer, sys: System, ev: C.Event, sys': System)
    requires Inv(a, cr, dialled, sys) && NetworkStep(sys, ev, sys')
    ensures Inv(a, cr, dialled, sys')
  {
    hide C.Step, C.Conserved, DirInv, H.Inv, Flight;
    FlightMoves(sys.traffic, ev, sys'.traffic, Rightward);
    FlightMoves(sys.traffic, ev, sys'.traffic, Leftward);
    assert Flight(sys.traffic, Rightward) + [] == Flight(sys.traffic, Rightward);
    assert Flight(sys.traffic, Leftward) + [] == Flight(sys.traffic, Leftward);
    DirSame(a, sys, sys', Rightward);
    DirSame(a, sys, sys', Leftward);
  }

  lemma WritesKeeps(a: Aead, cr: H.Crypto, dialled: Peer, sys: System, d: Dir, p: bytes, bad: set<StreamId>,
                    sys': System)
    requires Inv(a, cr, dialled, sys) && WritesStep(a, sys, d, p, bad, sys')
    ensures Inv(a, cr, dialled, sys')
  {
    hide C.Step, C.Conserved, H.Inv, Flight, DirOk, Frame;
    var (ch, e) := (sys.Chan(d), Opposite(d));
    var ev := C.Writes(d, Frame(a, ch.enc.value, p), bad);
    FlightMoves(sys.traffic, ev, sys'.traffic, d);
    FlightMoves(sys.traffic, ev, sys'.traffic, e);
    assert Flight(sys.traffic, e) + [] == Flight(sys.traffic, e);
    var chunks :| DirOk(a, ch, sys.Pipe(d), Flight(sys.traffic, d), sys.Sender(d), sys.Reader(d), chunks);
    WriteForward(a, ch, sys.Pipe(d), Flight(sys.traffic, d), sys.Sender(d), sys.Reader(d), chunks, p);
    DirHolds(a, sys', d, ch.(enc := Some(ch.enc.value.Next()), sent := ch.sent + p), sys.Pipe(d),
             Flight(sys.traffic, d) + Frame(a, ch.enc.value, p), sys.Sender(d), sys.Reader(d), chunks + [p]);
    DirSame(a, sys, sys', e);
  }

  lemma ReadTakes(a: Aead, r: Receiver, room: nat)
    requires r.Sane() && r.Ready()
    ensures var left := ReadStep(a, r, room).receiver.inbox;
            && Taken(a, r, room) <= |r.inbox| && left == r.inbox[Taken(a, r, room)..]
            && (r.qbuf.Some? ==> left == r.inbox)
  {
  }

  /** What a Read leaves under way. */
  lemma ReadFlight(a: Aead, sys: System, d: Dir, room: nat, sys': System)
    requires Books(sys.traffic) && ReadsStep(a, sys, d, room, sys')
    ensures Books(sys'.traffic)
    ensures Flight(sys'.traffic, d)
         == ReadStep(a, ReceiverOf(sys, d), room).receiver.inbox + C.Ahead(C.HopBytes(sys.traffic.chain, d))
    ensures Flight(sys'.traffic, Opposite(d)) == Flight(sys.traffic, Opposite(d))
  {
    hide C.Step, C.Conserved, C.HopBytes, C.Ahead, ReadStep, Receiver.Ready;
    var (t, t', r) := (sys.traffic, sys'.traffic, ReceiverOf(sys, d));
    ReadTakes(a, r, room);
    if r.qbuf.None? {
      var k := Taken(a, r, room);
      FlightShrinks(t, d, k, t');
      FlightMoves(t, C.Reads(d, k), t', Opposite(d));
      assert Flight(t, d)[k..] == r.inbox[k..] + C.Ahead(C.HopBytes(t.chain, d));
      assert Flight(t, Opposite(d)) + [] == Flight(t, Opposite(d));
    }
  }

  /** An end that is done has no handshake message coming. */
  lemma DonePipe(cr: H.Crypto, dialled: Peer, sys: System, d: Dir)
    requires H.Inv(cr, sys.net, dialled) && sys.Reader(d).Done()
    ensures sys.Pipe(d) == []
  {
    hide H.Inv;
    H.DoneFacts(cr, sys.net, dialled);
  }

  lemma ReadsDir(a: Aead, cr: H.Crypto, dialled: Peer, sys: System, d: Dir, room: nat, sys': System)
    requires a.Lawful() && sys.traffic.chain.Sized() && sys'.traffic.chain.Sized() && H.Inv(cr, sys.net, dialled)
    requires DirInv(a, sys, d) && sys.Chan(d).dec.Some? && ReceiverOf(sys, d).Sane() && ReceiverOf(sys, d).Ready()
    requires sys'.net == sys.net
    requires var (ch, read) := (sys.Chan(d), ReadStep(a, ReceiverOf(sys, d), room));
             && Flight(sys'.traffic, d) == read.receiver.inbox + C.Ahead(C.HopBytes(sys.traffic.chain, d))
             && sys'.Chan(d) == ch.(dec := read.receiver.dec, qbuf := read.receiver.qbuf, qseek := read.receiver.qseek,
                                    got := ch.got + if read.result.Got? then read.result.data else [])
    ensures DirInv(a, sys', d)
  {
    hide H.Inv, C.HopBytes, C.Ahead, C.Inbox, ReadStep, Aead.Lawful, Receiver.Ready, DirOk, DirInv;
    var (ch, r) := (sys.Chan(d), ReceiverOf(sys, d));
    var wire := C.Ahead(C.HopBytes(sys.traffic.chain, d));
    var chunks := ReadChunks(a, cr, dialled, sys, d);
    ReadForward(a, ch, r.inbox, wire, sys.Sender(d), sys.Reader(d), chunks, room);
    DonePipe(cr, dialled, sys, d);
    DirHolds(a, sys', d, sys'.Chan(d), [], Flight(sys'.traffic, d), sys.Sender(d), sys.Reader(d),
             if r.qbuf.Some? then chunks else chunks[1..]);
  }

  lemma ReadsKeeps(a: Aead, cr: H.Crypto, dialled: Peer, sys: System, d: Dir, room: nat, sys': System)
    requires a.Lawful() && Inv(a, cr, dialled, sys) && ReadsStep(a, sys, d, room, sys')
    ensures Inv(a, cr, dialled, sys')
  {
    hide C.Step, C.Conserved, H.Inv, C.HopBytes, C.Ahead, C.Inbox, ReadStep, Aead.Lawful;
    hide Receiver.Ready, Taken, DirInv, Flight;
    ReadFlight(a, sys, d, room, sys');
    ReadsDir(a, cr, dialled, sys, d, room, sys');
    DirSame(a, sys, sys', Opposite(d));
  }

  lemma ReadChunks(a: Aead, cr: H.Crypto, dialled: Peer, sys: System, d: Dir) returns (chunks: seq<bytes>)
    requires sys.traffic.chain.Sized() && H.Inv(cr, sys.net, dialled) && DirInv(a, sys, d) && sys.Chan(d).dec.Some?
    ensures DirOk(a, sys.Chan(d), [], Flight(sys.traffic, d), sys.Sender(d), sys.Reader(d), chunks)
    ensures sys.Reader(d).Done()
  {
    hide H.Inv;
    chunks :| DirOk(a, sys.Chan(d), sys.Pipe(d), Flight(sys.traffic, d), sys.Sender(d), sys.Reader(d), chunks);
    assert sys.Reader(d).Done();
    DonePipe(cr, dialled, sys, d);
  }

  // ----- handshake steps -----

  /** Who is where when the sender of direction d is about to send. */
  lemma ShakeTurn(cr: H.Crypto, dialled: Peer, sys: System, d: Dir)
    requires cr.Lawful() && H.Inv(cr, sys.net, dialled)
    requires H.Enabled(sys.net, if d.Rightward? then H.ISends(true) else H.RSends(true))
    ensures var mv := if d.Rightward? then H.ISends(true) else H.RSends(true);
            var (out, net') := (H.SendMessage(cr, sys.Sender(d), true), H.After(cr, sys.net, mv));
            && sys.Pipe(Rightward) == [] && sys.Pipe(Leftward) == [] && !sys.net.i.Done() && !sys.net.r.Done()
            && H.Inv(cr, net', dialled) && out.fields.Some? && |out.fields.value| <= MAX_TRANSPORT
            && net' == (if d.Rightward? then sys.net.(i := out.party, ir := [out.fields.value])
                        else sys.net.(r := out.party, ri := [out.fields.value]))
            && (out.party.Done() ==> out.party.enc.Some? && out.party.dec.Some?)
  {
    hide H.Inv, H.SendMessage, H.Crypto.Lawful;
    var mv := if d.Rightward? then H.ISends(true) else H.RSends(true);
    H.DoneFacts(cr, sys.net, dialled);
    H.SendsSomething(cr, sys.net, mv, dialled);
    H.StepKeeps(cr, sys.net, mv, dialled);
    H.DoneFacts(cr, H.After(cr, sys.net, mv), dialled);
  }

  lemma ShakesKeeps(a: Aead, cr: H.Crypto, dialled: Peer, sys: System, d: Dir, bad: set<StreamId>, sys': System)
    requires cr.Lawful() && Inv(a, cr, dialled, sys) && ShakesStep(cr, sys, d, bad, sys')
    ensures Inv(a, cr, dialled, sys')
  {
    hide C.Step, C.Conserved, H.Inv, Flight, DirOk, H.SendMessage, H.Crypto.Lawful, HandshakeFrame;
    ShakeTurn(cr, dialled, sys, d);
    var (e, t, t') := (Opposite(d), sys.traffic, sys'.traffic);
    var out := H.SendMessage(cr, sys.Sender(d), true);
    var m := out.fields.value;
    var ev := C.Writes(d, HandshakeFrame(m), bad);
    FlightMoves(t, ev, t', d);
    FlightMoves(t, ev, t', e);
    assert Flight(t, e) + [] == Flight(t, e);
    var x :| DirOk(a, sys.Chan(d), sys.Pipe(d), Flight(t, d), sys.Sender(d), sys.Reader(d), x);
    var y :| DirOk(a, sys.Chan(e), sys.Pipe(e), Flight(t, e), sys.Sender(e), sys.Reader(e), y);
    ShakeForward(a, sys.Chan(d), Flight(t, d), sys.Sender(d), sys.Reader(d), x, m, out.party);
    ShakeBack(a, sys.Chan(e), Flight(t, e), sys.Sender(e), sys.Reader(e), y, out.party);
    DirHolds(a, sys', d, if out.party.Done() then sys.Chan(d).(enc := out.party.enc) else sys.Chan(d), [m],
             Flight(t, d) + HandshakeFrame(m), out.party, sys.Reader(d), []);
    DirHolds(a, sys', e, if out.party.Done() then sys.Chan(e).(dec := out.party.dec) else sys.Chan(e), [],
             Flight(t, e), sys.Sender(e), out.party, []);
  }

  /** A frame in front of one pending handshake message, or of nothing sent, is that message. */
  lemma FrameIsMessage(a: Aead, ch: Channel, pipe: seq<bytes>, inbox: bytes, wire: bytes, s: H.Party, v: H.Party,
                       chunks: seq<bytes>)
    requires DirOk(a, ch, pipe, inbox + wire, s, v, chunks) && |pipe| <= 1 && (pipe == [] ==> !s.Done())
    requires |inbox| >= PREFIX && |inbox| >= PREFIX + Uint16(inbox)
    ensures |pipe| == 1 && pipe == [pipe[0]] && inbox[PREFIX..PREFIX + Uint16(inbox)] == pipe[0]
  {
    if pipe == [] {
      NotYetSent(a, ch, [], inbox + wire, s, v, chunks);
    } else {
      var m := pipe[0];
      assert pipe == [m] && |m| <= MAX_TRANSPORT;
      OnePipe(m);
      hide HandshakeFrame, Frames;
      FirstHandshake(inbox, wire, m, Frames(a, Base(ch, s), chunks));
    }
  }

  /** A reader in its handshake that finds a frame finds the message under way. */
  lemma HearsMessage(a: Aead, cr: H.Crypto, dialled: Peer, sys: System, d: Dir)
    requires sys.traffic.chain.Sized() && H.Inv(cr, sys.net, dialled) && DirInv(a, sys, d)
    requires sys.Reader(d).ToRead() && ReceiverOf(sys, d).FrameReady()
    ensures |sys.Pipe(d)| == 1 && FirstBody(sys, d) == sys.Pipe(d)[0] && sys.Pipe(d) == [sys.Pipe(d)[0]]
  {
    hide H.Inv, C.Inbox, C.HopBytes, C.Ahead, DirOk;
    H.DoneFacts(cr, sys.net, dialled);
    var (inbox, wire) := (C.Inbox(sys.traffic.chain, d), C.Ahead(C.HopBytes(sys.traffic.chain, d)));
    var chunks :| DirOk(a, sys.Chan(d), sys.Pipe(d), Flight(sys.traffic, d), sys.Sender(d), sys.Reader(d), chunks);
    FrameIsMessage(a, sys.Chan(d), sys.Pipe(d), inbox, wire, sys.Sender(d), sys.Reader(d), chunks);
  }

  /** Hearing message m is the reader's move of the handshake. */
  lemma HearTurn(cr: H.Crypto, dialled: Peer, sys: System, d: Dir, m: bytes)
    requires cr.Lawful() && H.Inv(cr, sys.net, dialled) && sys.Reader(d).ToRead() && sys.Pipe(d) == [m]
    ensures var heard := H.ReadNext(cr, sys.Reader(d), m);
            var net := if d.Rightward? then sys.net.(r := heard, ir := []) else sys.net.(i := heard, ri := []);
            && H.Inv(cr, net, dialled) && !sys.Reader(d).Done()
            && (heard.Done() ==> sys.Sender(d).Done() && heard.dec.Some? && heard.dec == sys.Sender(d).enc
                                 && heard.enc.Some? && heard.enc == sys.Sender(d).dec)
  {
    hide H.Inv, H.ReadNext, H.Crypto.Lawful;
    var mv := if d.Rightward? then H.RReads else H.IReads;
    assert [m][1..] == [];
    H.StepKeeps(cr, sys.net, mv, dialled);
    H.DoneFacts(cr, sys.net, dialled);
    H.DoneFacts(cr, H.After(cr, sys.net, mv), dialled);
    if d.Leftward? { CallerReadsSecond(cr, sys.net, m, dialled); }
  }

  /** The caller is never done by reading. */
  lemma CallerReadsSecond(cr: H.Crypto, net: H.Net, m: bytes, dialled: Peer)
    requires H.Inv(cr, net, dialled) && net.i.ToRead()
    ensures !H.ReadNext(cr, net.i, m).Done()
  {
    assert net.i.initiator;
    hide H.Inv;
  }

  lemma HearsKeeps(a: Aead, cr: H.Crypto, dialled: Peer, sys: System, d: Dir, sys': System)
    requires cr.Lawful() && Inv(a, cr, dialled, sys) && HearsStep(cr, sys, d, sys')
    ensures Inv(a, cr, dialled, sys')
  {
    hide C.Step, C.Conserved, H.Inv, DirOk, H.ReadNext, H.Crypto.Lawful, C.Inbox, C.HopBytes, C.Ahead;
    HearsMessage(a, cr, dialled, sys, d);
    var (e, t, t', m) := (Opposite(d), sys.traffic, sys'.traffic, sys.Pipe(d)[0]);
    var k := PREFIX + |m|;
    HearTurn(cr, dialled, sys, d, m);
    FlightShrinks(t, d, k, t');
    FlightMoves(t, C.Reads(d, k), t', e);
    hide Flight;
    assert Flight(t, e) + [] == Flight(t, e);
    var heard := H.ReadNext(cr, sys.Reader(d), m);
    var x :| DirOk(a, sys.Chan(d), sys.Pipe(d), Flight(t, d), sys.Sender(d), sys.Reader(d), x);
    var y :| DirOk(a, sys.Chan(e), sys.Pipe(e), Flight(t, e), sys.Sender(e), sys.Reader(e), y);
    HearForward(a, sys.Chan(d), m, Flight(t, d), sys.Sender(d), sys.Reader(d), x, heard);
    HearBack(a, sys.Chan(e), sys.Pipe(e), Flight(t, e), sys.Sender(e), sys.Reader(e), y, heard);
    DirHolds(a, sys', d, if heard.Done() then sys.Chan(d).(dec := heard.dec) else sys.Chan(d), [],
             Flight(t, d)[k..], sys.Sender(d), heard, x);
    DirHolds(a, sys', e, if heard.Done() then sys.Chan(e).(enc := heard.enc) else sys.Chan(e), sys.Pipe(e),
             Flight(t, e), heard, sys.Reader(e), []);
  }

  lemma StepKeepsInv(a: Aead, cr: H.Crypto, dialled: Peer, sys: System, ev: Event, sys': System)
    requires a.Lawful() && cr.Lawful() && Inv(a, cr, dialled, sys) && Step(a, cr, sys, ev, sys')
    ensures Inv(a, cr, dialled, sys')
  {
    hide Inv, ShakesStep, HearsStep, WritesStep, ReadsStep, NetworkStep, Aead.Lawful, H.Crypto.Lawful;
    match ev
    case Shakes(d, bad) => ShakesKeeps(a, cr, dialled, sys, d, bad, sys');
    case HearsShake(d) => HearsKeeps(a, cr, dialled, sys, d, sys');
    case WritesFrame(d, p, bad) => WritesKeeps(a, cr, dialled, sys, d, p, bad, sys');
    case Reads(d, room) => ReadsKeeps(a, cr, dialled, sys, d, room, sys');
    case Network(ev) => NetworkKeeps(a, cr, dialled, sys, ev, sys');
  }

  // ----- whole runs -----

  predicate IsRun(a: Aead, cr: H.Crypto, syss: seq<System>, events: seq<Event>) {
    |syss| == |events| + 1 && forall k :: 0 <= k < |events| ==> Step(a, cr, syss[k], events[k], syss[k + 1])
  }

  lemma {:induction false} RunKeeps(a: Aead, cr: H.Crypto, dialled: Peer, syss: seq<System>, events: seq<Event>)
    requires a.Lawful() && cr.Lawful() && IsRun(a, cr, syss, events) && Inv(a, cr, dialled, syss[0])
    ensures Inv(a, cr, dialled, syss[|events|])
    decreases |events|
  {
    hide Step, Inv, Aead.Lawful, H.Crypto.Lawful;
    if events != [] {
      var n := |events| - 1;
      var before := syss[..|events|];
      assert forall k :: 0 <= k < n ==> events[..n][k] == events[k];
      assert forall k :: 0 <= k < |before| ==> before[k] == syss[k];
      RunKeeps(a, cr, dialled, before, events[..n]);
      assert Step(a, cr, syss[n], events[n], syss[n + 1]);
      StepKeepsInv(a, cr, dialled, syss[n], events[n], syss[n + 1]);
    }
  }

  /** What a client has read is a prefix of what the other has written. */
  lemma DirPrefix(a: Aead, sys: System, d: Dir)
    requires sys.traffic.chain.Sized() && DirInv(a, sys, d)
    ensures sys.Chan(d).got <= sys.Chan(d).sent
  {
    var chunks :| DirOk(a, sys.Chan(d), sys.Pipe(d), Flight(sys.traffic, d), sys.Sender(d), sys.Reader(d), chunks);
  }

  /** Nothing is lost in direction d: what has been sent and not read is under way or waits to be read. */
  predicate Accounted(sys: System, d: Dir)
    requires sys.traffic.chain.Sized()
  {
    var ch := sys.Chan(d);
    && ch.Sane()
    && (Flight(sys.traffic, d) == [] && ch.Leftover() == [] ==> ch.got == ch.sent)
    && (C.Ahead(C.HopBytes(sys.traffic.chain, d)) == [] && ch.got != ch.sent ==>
          if ch.dec.Some? then ReceiverOf(sys, d).Ready()
          else sys.Reader(d).ToRead() && ReceiverOf(sys, d).FrameReady())
  }

  /** A frame takes room. */
  lemma NoFrames(a: Aead, c: Cipher, chunks: seq<bytes>)
    requires Frames(a, c, chunks) == []
    ensures chunks == []
  {
  }

  lemma UnreadAhead(a: Aead, ch: Channel, inbox: bytes, s: H.Party, v: H.Party, chunks: seq<bytes>)
    requires a.Lawful() && DirOk(a, ch, [], inbox, s, v, chunks) && ch.dec.Some? && ch.got != ch.sent
    ensures Receiver(ch.dec, ch.qbuf, ch.qseek, inbox).Ready()
  {
    assert inbox + [] == inbox;
    DirIsQueue(a, ch, inbox, [], s, v, chunks);
    var f := FlowOf(ch, inbox, [], chunks);
    assert Synced(a, f);
    hide *;
    UnreadMeansReady(a, f);
    FlowFields(ch, inbox, [], chunks);
  }

  lemma FlowFields(ch: Channel, inbox: bytes, wire: bytes, chunks: seq<bytes>)
    requires ch.dec.Some?
    ensures var f := FlowOf(ch, inbox, wire, chunks);
            && f.receiver == Receiver(ch.dec, ch.qbuf, ch.qseek, inbox) && f.wire == wire
            && f.sent == ch.sent && f.got == ch.got
  {
  }

  /** A handshake message that has arrived is complete. */
  lemma ShakeAhead(a: Aead, ch: Channel, m: bytes, inbox: bytes, s: H.Party, v: H.Party, chunks: seq<bytes>)
    requires DirOk(a, ch, [m], inbox, s, v, chunks)
    ensures |inbox| >= PREFIX + |m| && Uint16(inbox) == |m|
  {
    OnePipe(m);
    var rest := Frames(a, Base(ch, s), chunks);
    Uint16RoundTrip(|m|, m + rest);
    assert inbox == PutUint16(|m|) + (m + rest);
    hide Frames;
  }

  lemma AllRead(a: Aead, ch: Channel, pipe: seq<bytes>, s: H.Party, v: H.Party, chunks: seq<bytes>)
    requires DirOk(a, ch, pipe, [], s, v, chunks) && ch.Leftover() == []
    ensures ch.got == ch.sent
  {
    NoFrames(a, Base(ch, s), chunks);
    assert chunks == [] && Concat(chunks) == [];
  }

  lemma DirAccounted(a: Aead, cr: H.Crypto, dialled: Peer, sys: System, d: Dir)
    requires a.Lawful() && Inv(a, cr, dialled, sys)
    ensures sys.traffic.chain.Sized() && Accounted(sys, d)
  {
    var (ch, pipe, s, v) := (sys.Chan(d), sys.Pipe(d), sys.Sender(d), sys.Reader(d));
    assert DirInv(a, sys, d);
    hide H.Inv, C.Conserved, C.Inbox, C.HopBytes, C.Ahead, Aead.Lawful;
    var (inbox, wire) := (C.Inbox(sys.traffic.chain, d), C.Ahead(C.HopBytes(sys.traffic.chain, d)));
    var chunks :| DirOk(a, ch, pipe, Flight(sys.traffic, d), s, v, chunks);
    assert Staged(ch, s, v);
    hide DirOk, Inv, DirInv;
    if Flight(sys.traffic, d) == [] && ch.Leftover() == [] { AllRead(a, ch, pipe, s, v, chunks); }
    if wire == [] && ch.got != ch.sent {
      assert Flight(sys.traffic, d) == inbox;
      UnreadWaits(a, cr, dialled, sys, d, inbox, chunks);
    }
  }

  lemma UnreadWaits(a: Aead, cr: H.Crypto, dialled: Peer, sys: System, d: Dir, inbox: bytes, chunks: seq<bytes>)
    requires a.Lawful() && H.Inv(cr, sys.net, dialled) && sys.Chan(d).got != sys.Chan(d).sent
    requires DirOk(a, sys.Chan(d), sys.Pipe(d), inbox, sys.Sender(d), sys.Reader(d), chunks)
    ensures var (ch, r) := (sys.Chan(d), Receiver(sys.Chan(d).dec, sys.Chan(d).qbuf, sys.Chan(d).qseek, inbox));
            if ch.dec.Some? then r.Ready() else sys.Reader(d).ToRead() && r.FrameReady()
  {
    var (ch, pipe, s, v) := (sys.Chan(d), sys.Pipe(d), sys.Sender(d), sys.Reader(d));
    assert Staged(ch, s, v);
    hide H.Inv, Aead.Lawful, DirOk, Receiver.Ready;
    H.DoneFacts(cr, sys.net, dialled);
    if ch.dec.Some? {
      DonePipe(cr, dialled, sys, d);
      UnreadAhead(a, ch, inbox, s, v, chunks);
    } else {
      assert d.Rightward? && pipe == [pipe[0]];
      ShakeAhead(a, ch, pipe[0], inbox, s, v, chunks);
    }
  }

  // ----- from set-up to payloads -----

  /** A fresh pair of ends on a chain: keys have been made, nothing has been sent. */
  function Begin(c: Chain, caller: nat, dialled: Peer, cs: nat, ce: nat, answer: nat, as_: nat, ae: nat): System {
    System(C.Traffic(c, [], [], [], []), H.Begin(caller, dialled, cs, ce, answer, as_, ae), UNUSED, UNUSED)
  }

  lemma BeginInv(a: Aead, cr: H.Crypto, c: Chain, caller: nat, dialled: Peer, cs: nat, ce: nat, answer: nat, as_: nat,
                 ae: nat)
    requires c.Sized() && forall d: Dir :: C.Inbox(c, d) == [] && C.Ahead(C.HopBytes(c, d)) == []
    ensures Inv(a, cr, dialled, Begin(c, caller, dialled, cs, ce, answer, as_, ae))
  {
    hide C.Inbox, C.Ahead, C.HopBytes, H.Inv;
    var sys := Begin(c, caller, dialled, cs, ce, answer, as_, ae);
    H.BeginInv(cr, caller, dialled, cs, ce, answer, as_, ae);
    forall d: Dir
      ensures DirInv(a, sys, d)
    {
      assert Flight(sys.traffic, d) == [];
      assert DirOk(a, sys.Chan(d), sys.Pipe(d), [], sys.Sender(d), sys.Reader(d), []);
    }
  }

  /**
    A call: set-up reaches a Success, the route is still kept after it, no end has written to the
    circuit before; then the clients, the caller dialling the answer's peer id, take any run of
    handshake, writes, reads and network events over the line that was built.
  */
  ghost predicate IsCall(plan: CircuitSetup.Plan, states: seq<CircuitSetup.State>, moves: seq<CircuitSetup.Move>,
                         i: nat,
                         a: Aead, cr: H.Crypto, syss: seq<System>, events: seq<Event>)
  {
    && CircuitSetup.IsRun(plan, states, moves) && i < |moves| && CircuitSetup.Originates(plan, states[i], moves[i])
    && plan.caller != plan.answer && SetupTheorem.RouteKept(plan, states[i + 1])
    && (forall k :: 0 <= k <= i ==> !moves[k].Writes?)
    && a.Lawful() && cr.Lawful() && IsRun(a, cr, syss, events)
    && exists c, caller, cs, ce, answer, as_, ae ::
         IsRouteChain(plan, states[i + 1], c) && syss[0] == Begin(c, caller, plan.answer, cs, ce, answer, as_, ae)
  }

  /** The chain is the route of the plan in that state. */
  predicate IsRouteChain(plan: CircuitSetup.Plan, g: CircuitSetup.State, c: Chain) {
    && SetupTheorem.RouteMade(plan, g)
    && CircuitSetup.IsLine(plan, g, SetupTheorem.RoutePeers(plan, g), SetupTheorem.RouteIds(plan, g))
    && c == SetupLine.ChainOf(plan, g, SetupTheorem.RoutePeers(plan, g), SetupTheorem.RouteIds(plan, g))
  }

  /** The route after the announcement exists, is open, and has nothing on it. */
  lemma CallHasChain(plan: CircuitSetup.Plan, states: seq<CircuitSetup.State>, moves: seq<CircuitSetup.Move>, i: nat)
    returns (c: Chain)
    requires CircuitSetup.IsRun(plan, states, moves) && i < |moves|
        && CircuitSetup.Originates(plan, states[i], moves[i])
    requires plan.caller != plan.answer && SetupTheorem.RouteKept(plan, states[i + 1])
    requires forall k :: 0 <= k <= i ==> !moves[k].Writes?
    ensures IsRouteChain(plan, states[i + 1], c) && c.Open()
    ensures forall d: Dir :: C.Inbox(c, d) == [] && C.Ahead(C.HopBytes(c, d)) == []
  {
    var g := states[i + 1];
    SetupLine.SuccessOpensChain(plan, states, moves, i, i + 1);
    SetupLine.RunSilent(plan, states, moves, i + 1);
    hide CircuitSetup.IsRun, CircuitSetup.Originates, CircuitSetup.IsLine, SetupLine.ChainOf, SetupTheorem.RouteMade;
    hide C.Inbox, C.Ahead, C.HopBytes, Chain.Open;
    c := SetupLine.ChainOf(plan, g, SetupTheorem.RoutePeers(plan, g), SetupTheorem.RouteIds(plan, g));
    forall d: Dir
      ensures C.Inbox(c, d) == [] && C.Ahead(C.HopBytes(c, d)) == []
    {
      SetupLine.SilentLine(plan, g, SetupTheorem.RoutePeers(plan, g), SetupTheorem.RouteIds(plan, g), d);
    }
  }

  lemma CallSized(plan: CircuitSetup.Plan, states: seq<CircuitSetup.State>, moves: seq<CircuitSetup.Move>, i: nat,
                  a: Aead, cr: H.Crypto, syss: seq<System>, events: seq<Event>)
    requires IsCall(plan, states, moves, i, a, cr, syss, events)
    ensures |syss| == |events| + 1 && |states| == |moves| + 1 && i < |moves|
  {
    hide CircuitSetup.Initial, CircuitSetup.Step, Step, CircuitSetup.Originates, Aead.Lawful, H.Crypto.Lawful;
    hide SetupTheorem.RouteKept, IsRouteChain, Begin;
  }

  lemma OpenSized(c: Chain)
    requires c.Open()
    ensures c.Sized()
  {
  }

  lemma CallKeeps(plan: CircuitSetup.Plan, states: seq<CircuitSetup.State>, moves: seq<CircuitSetup.Move>, i: nat,
                  a: Aead, cr: H.Crypto, syss: seq<System>, events: seq<Event>)
    requires IsCall(plan, states, moves, i, a, cr, syss, events)
    ensures Inv(a, cr, plan.answer, syss[|events|])
  {
    hide CircuitSetup.IsRun, CircuitSetup.Originates, SetupTheorem.RouteKept, Inv, Aead.Lawful, H.Crypto.Lawful;
    hide CircuitSetup.IsLine, SetupLine.ChainOf, SetupTheorem.RouteMade, Step, Chain.Open, C.Inbox, C.Ahead, C.HopBytes;
    hide IsRun, H.Begin;
    CallSized(plan, states, moves, i, a, cr, syss, events);
    var built := CallHasChain(plan, states, moves, i);
    var c, caller, cs, ce, answer, as_, ae :|
      IsRouteChain(plan, states[i + 1], c) && syss[0] == Begin(c, caller, plan.answer, cs, ce, answer, as_, ae);
    assert c == built;
    OpenSized(c);
    BeginInv(a, cr, c, caller, plan.answer, cs, ce, answer, as_, ae);
    RunKeeps(a, cr, plan.answer, syss, events);
  }

  lemma CallAccounted(plan: CircuitSetup.Plan, states: seq<CircuitSetup.State>, moves: seq<CircuitSetup.Move>, i: nat,
                      a: Aead, cr: H.Crypto, syss: seq<System>, events: seq<Event>)
    requires IsCall(plan, states, moves, i, a, cr, syss, events)
    ensures |syss| == |events| + 1 && syss[|events|].traffic.chain.Sized()
    ensures forall d: Dir :: Accounted(syss[|events|], d)
  {
    CallSized(plan, states, moves, i, a, cr, syss, events);
    CallKeeps(plan, states, moves, i, a, cr, syss, events);
    assert a.Lawful();
    hide *;
    forall d: Dir
      ensures syss[|events|].traffic.chain.Sized() && Accounted(syss[|events|], d)
    {
      DirAccounted(a, cr, plan.answer, syss[|events|], d);
    }
    DirAccounted(a, cr, plan.answer, syss[|events|], Rightward);
  }

  /**
    Main result. Over every set-up run that announces Success on a kept route, and every run of
    the clients over the line it built, in both directions: what a client has read is a prefix
    of what the other has written. Nothing is lost: when nothing is left between the ends all has
    been read, and when all has arrived a reader that lacks something need not wait. A caller that
    has finished its handshake has verified an identity whose peer id is the one it dialled.
  */
  lemma ClientsTalkInOrder(plan: CircuitSetup.Plan, states: seq<CircuitSetup.State>, moves: seq<CircuitSetup.Move>,
                           i: nat,
                           a: Aead, cr: H.Crypto, syss: seq<System>, events: seq<Event>)
    requires IsCall(plan, states, moves, i, a, cr, syss, events)
    ensures var sys := syss[|events|];
            && sys.right.got <= sys.right.sent && sys.left.got <= sys.left.sent
            && sys.traffic.chain.Sized() && (forall d: Dir :: Accounted(sys, d))
            && (sys.net.i.Done() && sys.net.r.Done() ==>
                  && sys.net.i.remoteKey == cr.ids.key(sys.net.r.identity)
                  && cr.ids.peerId(sys.net.i.remoteKey) == Some(plan.answer))
  {
    hide IsCall, C.Conserved, DirInv, H.Inv;
    CallSized(plan, states, moves, i, a, cr, syss, events);
    CallKeeps(plan, states, moves, i, a, cr, syss, events);
    var sys := syss[|events|];
    DirPrefix(a, sys, Rightward);
    DirPrefix(a, sys, Leftward);
    CallAccounted(plan, states, moves, i, a, cr, syss, events);
    if sys.net.i.Done() && sys.net.r.Done() {
      H.DoneTrusts(cr, sys.net, plan.answer);
    }
  }

  /** And a list of payloads written to the session is read, payload by payload, as a prefix of that list. */
  lemma PayloadsArriveInOrder(plan: CircuitSetup.Plan, states: seq<CircuitSetup.State>, moves: seq<CircuitSetup.Move>,
                              i: nat,
                              a: Aead, cr: H.Crypto, syss: seq<System>, events: seq<Event>, d: Dir, list: seq<bytes>)
    requires IsCall(plan, states, moves, i, a, cr, syss, events)
    requires AllShort(list) && syss[|events|].Chan(d).sent <= EncodeAll(list)
    ensures var got := syss[|events|].Chan(d).got;
            ParseAll(got) <= list && (got == EncodeAll(list) ==> ParseAll(got) == list)
  {
    hide IsCall, ParseAll, EncodeAll, AllShort;
    CallSized(plan, states, moves, i, a, cr, syss, events);
    ClientsTalkInOrder(plan, states, moves, i, a, cr, syss, events);
    PrefixOfEncoded(list, syss[|events|].Chan(d).got, syss[|events|].Chan(d).sent);
  }

  lemma PrefixOfEncoded(list: seq<bytes>, got: bytes, sent: bytes)
    requires AllShort(list) && got <= sent <= EncodeAll(list)
    ensures ParseAll(got) <= list && (got == EncodeAll(list) ==> ParseAll(got) == list)
  {
    hide ParseAll, EncodeAll, AllShort;
    var all := EncodeAll(list);
    assert got + all[|got|..] == all;
    PrefixParsesToPrefix(list, got, all[|got|..]);
  }
}
