/**
  What the clients can bring about on a line that carries only Data and Success: they complete the
  handshake, and whatever one has written the other can read to the last byte.
*/
module CallRuns {
  import opened Basics
  import opened Relay
  import opened LineModel
  import S = SecureStream
  import opened EndToEnd
  import C = Conservation
  import H = Handshake
  import Delivery
  import CircuitSetup
  import SetupTheorem
  import SetupRuns
  import SetupLine

  // ----- putting runs together -----

  lemma Chained(a: S.Aead, cr: H.Crypto, xs: seq<System>, es: seq<Event>, ys: seq<System>, fs: seq<Event>)
    requires IsRun(a, cr, xs, es) && IsRun(a, cr, ys, fs) && xs[|es|] == ys[0]
    ensures IsRun(a, cr, xs + ys[1..], es + fs) && (xs + ys[1..])[|es + fs|] == ys[|fs|]
    ensures (xs + ys[1..])[0] == xs[0]
  {
    hide Step;
    var (zs, gs) := (xs + ys[1..], es + fs);
    forall k | 0 <= k < |gs|
      ensures Step(a, cr, zs[k], gs[k], zs[k + 1])
    {
      if k < |es| {
        assert Step(a, cr, xs[k], es[k], xs[k + 1]);
      } else {
        assert Step(a, cr, ys[k - |es|], fs[k - |es|], ys[k - |es| + 1]);
      }
    }
  }

  lemma OneStep(a: S.Aead, cr: H.Crypto, sys: System, ev: Event, sys': System)
    requires Step(a, cr, sys, ev, sys')
    ensures IsRun(a, cr, [sys, sys'], [ev])
  {
    hide Step;
  }

  // ----- the chain under a step -----

  /** An open line with nothing but Data and Success on it. */
  predicate Fluent(c: Chain) {
    c.Open() && Delivery.Flows(c, Rightward) && Delivery.Flows(c, Leftward)
  }

  /** A write that nothing refuses joins the first wire. */
  lemma WriteJoins(c: Chain, d: Dir, p: bytes)
    requires c.Open()
    ensures c.Sized() && C.WriteAt(c, d, p, {}) == c.WithWire(d, 0, c.Wire(d, 0) + [Data(c.sid, p)])
    ensures C.WriteAt(c, d, p, {}).Open()
  {
    var (i, m, s) := (c.At(d, 0), Data(c.sid, p), c.Onward(d, 0));
    assert c.Live(i);
    assert PairOf(c.nodes[i], c.sid) == [s];
    assert [s][0] == s && [s][1..] == [];
    assert WriteRound([s], m, None, {}) == [Send(s, m)];
    assert SendRelay(c.nodes[i], c.sid, m, {}) == Effect(c.nodes[i], [Send(s, m)], []);
    assert c.Simple() && c.Sized();
    Delivery.TravelsAt(c, d, 0);
    hide Chain.Open, Chain.Live, Chain.Simple, Chain.Wire, Chain.WithWire, Chain.Onward, SendRelay, Post;
    C.ActSame(c, i, [Send(s, m)]);
    C.PostOnward(c, d, 0, m);
    C.WithWireOpen(c, d, 0, c.Wire(d, 0) + [m]);
  }

  lemma WriteFluent(c: Chain, d: Dir, p: bytes)
    requires Fluent(c)
    ensures Fluent(C.WriteAt(c, d, p, {}))
  {
    WriteJoins(c, d, p);
    hide Chain.Open, C.WriteAt;
    var w := c.Wire(d, 0) + [Data(c.sid, p)];
    assert Delivery.Flowing(c.Wire(d, 0));
    forall e: Dir, j: nat | j < |c.ids|
      ensures Delivery.Flowing(c.WithWire(d, 0, w).Wire(e, j))
    {
      Delivery.WireAfter(c, d, 0, w, e, j);
      assert Delivery.Flowing(c.Wire(e, j));
    }
  }

  /** What taking k bytes from the buffer of direction d leaves. */
  function ReadAt(c: Chain, d: Dir, k: nat): Chain
    requires c.Sized() && c.sid in c.nodes[c.At(d, |c.ids|)].circuits && k <= |C.Inbox(c, d)|
  {
    var i := c.At(d, |c.ids|);
    c.(nodes := c.nodes[i := C.Drained(c.nodes[i], c.sid, k)])
  }

  lemma ReadFluent(c: Chain, d: Dir, k: nat)
    requires Fluent(c) && c.Sized() && k <= |C.Inbox(c, d)|
    ensures c.sid in c.nodes[c.At(d, |c.ids|)].circuits && Fluent(ReadAt(c, d, k))
  {
    var i := c.At(d, |c.ids|);
    C.OpenFacts(c, i);
    var n := C.Drained(c.nodes[i], c.sid, k);
    hide Chain.Live, Chain.Simple, Chain.Travelling;
    Delivery.NodeOpen(c, i, n);
    hide Chain.Open;
    forall e: Dir, j: nat | j < |c.ids|
      ensures Delivery.Flowing(ReadAt(c, d, k).Wire(e, j))
    {
      assert ReadAt(c, d, k).Wire(e, j) == c.Wire(e, j) && Delivery.Flowing(c.Wire(e, j));
    }
  }

  // ----- calls that go on -----

  /** A state of a call on a line with nothing but Data and Success on it. */
  ghost predicate Going(a: S.Aead, cr: H.Crypto, dialled: Peer, sys: System) {
    a.Lawful() && cr.Lawful() && Inv(a, cr, dialled, sys) && Fluent(sys.traffic.chain)
  }

  lemma RunInv(a: S.Aead, cr: H.Crypto, dialled: Peer, syss: seq<System>, events: seq<Event>)
    requires a.Lawful() && cr.Lawful() && IsRun(a, cr, syss, events) && Inv(a, cr, dialled, syss[0])
    ensures |syss| == |events| + 1 && Inv(a, cr, dialled, syss[|events|])
  {
    hide Step, Inv;
    RunKeeps(a, cr, dialled, syss, events);
  }

  lemma OnNetwork(a: S.Aead, cr: H.Crypto, sys: System, states: seq<C.Traffic>, events: seq<C.Event>)
    returns (syss: seq<System>, evs: seq<Event>)
    requires C.IsRun(states, events) && Delivery.OnlyArrivals(events) && states[0] == sys.traffic
    ensures IsRun(a, cr, syss, evs) && |evs| == |events| && |states| == |events| + 1
    ensures syss[0] == sys && syss[|evs|] == sys.(traffic := states[|events|])
  {
    hide C.Step;
    syss := seq(|states|, j requires 0 <= j < |states| => sys.(traffic := states[j]));
    evs := seq(|events|, j requires 0 <= j < |events| => Network(events[j]));
    forall k | 0 <= k < |evs|
      ensures Step(a, cr, syss[k], evs[k], syss[k + 1])
    {
      assert C.Step(states[k], events[k], states[k + 1]);
    }
  }

  lemma SameFlows(c: Chain, c': Chain, d: Dir)
    requires c.Sized() && c'.Sized() && Delivery.SameWires(c, c', d) && Delivery.Flows(c, d)
    ensures Delivery.Flows(c', d)
  {
    hide Chain.Wire;
    forall k | 0 <= k < |c'.ids|
      ensures Delivery.Flowing(c'.Wire(d, k))
    {
      assert Delivery.Flowing(c.Wire(d, k));
    }
  }

  lemma EmptyFlows(c: Chain, d: Dir)
    requires c.Sized() && Delivery.Empty(c, d)
    ensures Delivery.Flows(c, d)
  {
    hide Chain.Wire;
  }

  /** The network brings everything that is under way in direction d. */
  lemma Drains(a: S.Aead, cr: H.Crypto, dialled: Peer, sys: System, d: Dir)
    returns (syss: seq<System>, events: seq<Event>)
    requires Going(a, cr, dialled, sys)
    ensures IsRun(a, cr, syss, events) && |syss| == |events| + 1 && syss[0] == sys
    ensures var last := syss[|events|];
            && Going(a, cr, dialled, last) && last == sys.(traffic := last.traffic) && last.traffic.chain.Sized()
            && C.Ahead(C.HopBytes(last.traffic.chain, d)) == []
  {
    var t := sys.traffic;
    assert t.chain.Sized() && Delivery.Flows(t.chain, d) && Delivery.Flows(t.chain, Opposite(d));
    var states, evs := Delivery.LineDrains(t, d);
    var t' := states[|evs|];
    assert Delivery.SameWires(t.chain, t'.chain, Opposite(d));
    syss, events := OnNetwork(a, cr, sys, states, evs);
    hide Inv, IsRun, Chain.Open, C.Step, Delivery.OnlyArrivals, C.IsRun;
    Delivery.EmptyHops(t'.chain, d);
    EmptyFlows(t'.chain, d);
    SameFlows(t.chain, t'.chain, Opposite(d));
    assert Fluent(t'.chain);
    RunInv(a, cr, dialled, syss, events);
  }

  // ----- the handshake -----

  /** The direction in which move k of the handshake sends, or reads what was sent. */
  function Heading(k: nat): Dir {
    if k == 2 || k == 3 then Leftward else Rightward
  }

  /** The plaintext history is as it was. */
  predicate SameBooks(sys: System, sys': System) {
    && sys'.right.sent == sys.right.sent && sys'.right.got == sys.right.got
    && sys'.left.sent == sys.left.sent && sys'.left.got == sys.left.got
  }

  function Wrote(t: C.Traffic, d: Dir, p: bytes): C.Traffic
    requires t.chain.Sized()
  {
    var c := C.WriteAt(t.chain, d, p, {});
    if d.Rightward? then t.(chain := c, sentR := t.sentR + p) else t.(chain := c, sentL := t.sentL + p)
  }

  lemma WroteStep(t: C.Traffic, d: Dir, p: bytes)
    requires Fluent(t.chain)
    ensures t.chain.Sized() && C.Step(t, C.Writes(d, p, {}), Wrote(t, d, p)) && Fluent(Wrote(t, d, p).chain)
  {
    WriteJoins(t.chain, d, p);
    WriteFluent(t.chain, d, p);
    hide Chain.Open, C.WriteAt, Delivery.Flows;
  }

  /** The state after the k-th move of the handshake, a send, was written to the circuit. */
  function SentState(cr: H.Crypto, sys: System, k: nat): System
    requires sys.traffic.chain.Sized() && H.Enabled(sys.net, H.MoveAt(k)) && (k == 0 || k == 2 || k == 4)
    requires sys.Sender(Heading(k)).ToSend() && H.SendMessage(cr, sys.Sender(Heading(k)), true).fields.Some?
  {
    var d := Heading(k);
    var frame := HandshakeFrame(H.SendMessage(cr, sys.Sender(d), true).fields.value);
    Finished(sys, H.After(cr, sys.net, H.MoveAt(k))).(traffic := Wrote(sys.traffic, d, frame))
  }

  lemma SentIsStep(a: S.Aead, cr: H.Crypto, sys: System, k: nat)
    requires Fluent(sys.traffic.chain) && sys.traffic.chain.Sized()
    requires H.Enabled(sys.net, H.MoveAt(k)) && (k == 0 || k == 2 || k == 4)
    requires sys.Sender(Heading(k)).ToSend() && H.SendMessage(cr, sys.Sender(Heading(k)), true).fields.Some?
    ensures var sys' := SentState(cr, sys, k);
            && Step(a, cr, sys, Shakes(Heading(k), {}), sys') && Fluent(sys'.traffic.chain)
            && sys'.net == H.After(cr, sys.net, H.MoveAt(k)) && SameBooks(sys, sys')
  {
    var d := Heading(k);
    WroteStep(sys.traffic, d, HandshakeFrame(H.SendMessage(cr, sys.Sender(d), true).fields.value));
    hide H.SendMessage, H.After, Fluent, C.Step, Wrote, HandshakeFrame;
  }

  lemma SendTurn(cr: H.Crypto, dialled: Peer, net: H.Net, k: nat)
    requires cr.Lawful() && H.Inv(cr, net, dialled) && H.Clean(cr, net, dialled) && H.Stage(net, k)
    requires k == 0 || k == 2 || k == 4
    ensures var (mv, s) := (H.MoveAt(k), if k == 2 then net.r else net.i);
            && H.Enabled(net, mv) && s.ToSend() && H.SendMessage(cr, s, true).fields.Some?
            && H.Clean(cr, H.After(cr, net, mv), dialled) && H.Stage(H.After(cr, net, mv), k + 1)
  {
    hide H.Inv, H.Crypto.Lawful, H.SendMessage, H.After;
    H.StageTurns(cr, net, k, dialled);
    H.CleanTurn(cr, net, H.MoveAt(k), dialled);
  }

  /** In its turn the sender writes its message to the circuit. */
  lemma Sends(a: S.Aead, cr: H.Crypto, dialled: Peer, sys: System, k: nat) returns (sys': System)
    requires Going(a, cr, dialled, sys) && H.Clean(cr, sys.net, dialled) && H.Stage(sys.net, k)
    requires k == 0 || k == 2 || k == 4
    ensures Step(a, cr, sys, Shakes(Heading(k), {}), sys') && Going(a, cr, dialled, sys')
    ensures H.Clean(cr, sys'.net, dialled) && H.Stage(sys'.net, k + 1) && SameBooks(sys, sys')
  {
    assert H.Inv(cr, sys.net, dialled) && sys.traffic.chain.Sized();
    SendTurn(cr, dialled, sys.net, k);
    assert sys.Sender(Heading(k)) == if k == 2 then sys.net.r else sys.net.i;
    SentIsStep(a, cr, sys, k);
    sys' := SentState(cr, sys, k);
    assert Fluent(sys.traffic.chain) && a.Lawful() && cr.Lawful() && Inv(a, cr, dialled, sys);
    hide *;
    StepKeepsInv(a, cr, dialled, sys, Shakes(Heading(k), {}), sys');
    GoingIs(a, cr, dialled, sys');
  }

  lemma GoingIs(a: S.Aead, cr: H.Crypto, dialled: Peer, sys: System)
    requires a.Lawful() && cr.Lawful() && Inv(a, cr, dialled, sys) && Fluent(sys.traffic.chain)
    ensures Going(a, cr, dialled, sys)
  {
  }

  function Took(t: C.Traffic, d: Dir, k: nat): C.Traffic
    requires t.chain.Sized() && t.chain.sid in t.chain.nodes[t.chain.At(d, |t.chain.ids|)].circuits
    requires k <= |C.Inbox(t.chain, d)|
  {
    var (c, p) := (ReadAt(t.chain, d, k), C.Inbox(t.chain, d)[..k]);
    if d.Rightward? then t.(chain := c, gotR := t.gotR + p) else t.(chain := c, gotL := t.gotL + p)
  }

  lemma TookStep(t: C.Traffic, d: Dir, k: nat)
    requires Fluent(t.chain) && t.chain.Sized() && k <= |C.Inbox(t.chain, d)|
    ensures t.chain.sid in t.chain.nodes[t.chain.At(d, |t.chain.ids|)].circuits
    ensures C.Step(t, C.Reads(d, k), Took(t, d, k)) && Fluent(Took(t, d, k).chain)
  {
    ReadFluent(t.chain, d, k);
    hide Chain.Open, C.Drained, Delivery.Flows, C.Inbox;
  }

  /** The message under way has arrived as a whole. */
  lemma MessageThere(a: S.Aead, cr: H.Crypto, dialled: Peer, sys: System, d: Dir)
    requires Inv(a, cr, dialled, sys) && |sys.Pipe(d)| == 1 && sys.Reader(d).ToRead()
    requires sys.traffic.chain.Sized() && C.Ahead(C.HopBytes(sys.traffic.chain, d)) == []
    ensures ReceiverOf(sys, d).FrameReady() && FirstBody(sys, d) == sys.Pipe(d)[0]
    ensures S.PREFIX + |FirstBody(sys, d)| <= |C.Inbox(sys.traffic.chain, d)|
  {
    hide H.Inv, C.Conserved, C.Inbox, C.HopBytes, C.Ahead, DirOk;
    var (ch, inbox) := (sys.Chan(d), C.Inbox(sys.traffic.chain, d));
    assert DirInv(a, sys, d);
    var chunks :| DirOk(a, ch, sys.Pipe(d), Flight(sys.traffic, d), sys.Sender(d), sys.Reader(d), chunks);
    assert Flight(sys.traffic, d) == inbox && sys.Pipe(d) == [sys.Pipe(d)[0]];
    ShakeAhead(a, ch, sys.Pipe(d)[0], inbox, sys.Sender(d), sys.Reader(d), chunks);
    HearsMessage(a, cr, dialled, sys, d);
  }

  function HeardState(cr: H.Crypto, sys: System, k: nat): System
    requires sys.traffic.chain.Sized() && H.Enabled(sys.net, H.MoveAt(k)) && (k == 1 || k == 3 || k == 5)
    requires ReceiverOf(sys, Heading(k)).FrameReady()
    requires var (c, d) := (sys.traffic.chain, Heading(k));
             c.sid in c.nodes[c.At(d, |c.ids|)].circuits && S.PREFIX + |FirstBody(sys, d)| <= |C.Inbox(c, d)|
  {
    var d := Heading(k);
    Finished(sys, H.After(cr, sys.net, H.MoveAt(k)))
    .(traffic := Took(sys.traffic, d, S.PREFIX + |FirstBody(sys, d)|))
  }

  lemma HeardIsStep(a: S.Aead, cr: H.Crypto, sys: System, k: nat)
    requires Fluent(sys.traffic.chain) && sys.traffic.chain.Sized()
    requires H.Enabled(sys.net, H.MoveAt(k)) && (k == 1 || k == 3 || k == 5)
    requires var d := Heading(k);
             && ReceiverOf(sys, d).FrameReady() && sys.Reader(d).ToRead()
             && |sys.Pipe(d)| == 1 && FirstBody(sys, d) == sys.Pipe(d)[0]
             && S.PREFIX + |FirstBody(sys, d)| <= |C.Inbox(sys.traffic.chain, d)|
    ensures var (c, d) := (sys.traffic.chain, Heading(k)); c.sid in c.nodes[c.At(d, |c.ids|)].circuits
    ensures var sys' := HeardState(cr, sys, k);
            && Step(a, cr, sys, HearsShake(Heading(k)), sys') && Fluent(sys'.traffic.chain)
            && sys'.net == H.After(cr, sys.net, H.MoveAt(k)) && SameBooks(sys, sys')
  {
    var d := Heading(k);
    TookStep(sys.traffic, d, S.PREFIX + |FirstBody(sys, d)|);
    hide H.ReadNext, Fluent, C.Step, Took, C.Inbox, S.Receiver.FrameReady;
  }

  lemma HearTurnAt(cr: H.Crypto, dialled: Peer, net: H.Net, k: nat)
    requires cr.Lawful() && H.Inv(cr, net, dialled) && H.Clean(cr, net, dialled) && H.Stage(net, k)
    requires k == 1 || k == 3 || k == 5
    ensures var (mv, v, pipe) := (H.MoveAt(k), if k == 3 then net.i else net.r, if k == 3 then net.ri else net.ir);
            && H.Enabled(net, mv) && v.ToRead() && |pipe| == 1
            && H.Clean(cr, H.After(cr, net, mv), dialled) && H.Stage(H.After(cr, net, mv), k + 1)
  {
    hide H.Inv, H.Crypto.Lawful, H.After;
    H.StageTurns(cr, net, k, dialled);
  }

  /** In its turn the reader takes the message that has arrived. */
  lemma Hears(a: S.Aead, cr: H.Crypto, dialled: Peer, sys: System, k: nat) returns (sys': System)
    requires Going(a, cr, dialled, sys) && H.Clean(cr, sys.net, dialled) && H.Stage(sys.net, k)
    requires k == 1 || k == 3 || k == 5
    requires sys.traffic.chain.Sized() && C.Ahead(C.HopBytes(sys.traffic.chain, Heading(k))) == []
    ensures Step(a, cr, sys, HearsShake(Heading(k)), sys') && Going(a, cr, dialled, sys')
    ensures H.Clean(cr, sys'.net, dialled) && H.Stage(sys'.net, k + 1) && SameBooks(sys, sys')
  {
    assert H.Inv(cr, sys.net, dialled) && Inv(a, cr, dialled, sys) && Fluent(sys.traffic.chain);
    assert a.Lawful() && cr.Lawful();
    HearTurnAt(cr, dialled, sys.net, k);
    var d := Heading(k);
    assert sys.Reader(d) == (if k == 3 then sys.net.i else sys.net.r);
    assert sys.Pipe(d) == if k == 3 then sys.net.ri else sys.net.ir;
    MessageThere(a, cr, dialled, sys, d);
    hide *;
    HeardIsStep(a, cr, sys, k);
    sys' := HeardState(cr, sys, k);
    StepKeepsInv(a, cr, dialled, sys, HearsShake(d), sys');
    GoingIs(a, cr, dialled, sys');
  }

  /** From every stage the handshake can be finished. */
  lemma {:induction false} Finishes(a: S.Aead, cr: H.Crypto, dialled: Peer, sys: System, k: nat)
    returns (syss: seq<System>, events: seq<Event>)
    requires Going(a, cr, dialled, sys) && H.Clean(cr, sys.net, dialled) && H.Stage(sys.net, k) && k <= 6
    ensures IsRun(a, cr, syss, events) && |syss| == |events| + 1 && syss[0] == sys
    ensures var last := syss[|events|];
            && Going(a, cr, dialled, last) && H.Clean(cr, last.net, dialled) && H.Stage(last.net, 6)
            && SameBooks(sys, last)
    decreases 6 - k
  {
    hide Going, H.Clean, H.Stage, Step, Heading;
    if k == 6 {
      syss, events := [sys], [];
    } else if k == 0 || k == 2 || k == 4 {
      var next := Sends(a, cr, dialled, sys, k);
      var rest, more := Finishes(a, cr, dialled, next, k + 1);
      syss, events := Prepended(a, cr, sys, Shakes(Heading(k), {}), rest, more);
    } else {
      var d := Heading(k);
      var mid, net := Drains(a, cr, dialled, sys, d);
      var next := Hears(a, cr, dialled, mid[|net|], k);
      var rest, more := Finishes(a, cr, dialled, next, k + 1);
      var tail, last := Prepended(a, cr, mid[|net|], HearsShake(d), rest, more);
      Chained(a, cr, mid, net, tail, last);
      syss, events := mid + tail[1..], net + last;
    }
  }

  lemma Prepended(a: S.Aead, cr: H.Crypto, sys: System, ev: Event, rest: seq<System>, more: seq<Event>)
    returns (syss: seq<System>, events: seq<Event>)
    requires IsRun(a, cr, rest, more) && Step(a, cr, sys, ev, rest[0])
    ensures IsRun(a, cr, syss, events) && |syss| == |events| + 1 && syss[0] == sys && syss[|events|] == rest[|more|]
    ensures events == [ev] + more
  {
    hide Step;
    OneStep(a, cr, sys, ev, rest[0]);
    Chained(a, cr, [sys, rest[0]], [ev], rest, more);
    syss, events := [sys, rest[0]] + rest[1..], [ev] + more;
  }

  // ----- reading to the last byte -----

  /** Room for any frame, and for what is left in the queue. */
  function Plenty(sys: System, d: Dir): nat {
    S.MAX_TRANSPORT + if sys.Chan(d).Sane() then |sys.Chan(d).Leftover()| else 0
  }

  /** The state after a ready Read with plenty of room. */
  function ReadState(a: S.Aead, sys: System, d: Dir): System
    requires sys.traffic.chain.Sized() && ReceiverOf(sys, d).Sane() && ReceiverOf(sys, d).Ready()
    requires var c := sys.traffic.chain; c.sid in c.nodes[c.At(d, |c.ids|)].circuits
  {
    var (ch, r) := (sys.Chan(d), ReceiverOf(sys, d));
    var read := S.ReadStep(a, r, Plenty(sys, d));
    ReadTakes(a, r, Plenty(sys, d));
    sys.WithChan(d, ch.(dec := read.receiver.dec, qbuf := read.receiver.qbuf, qseek := read.receiver.qseek,
                        got := ch.got + if read.result.Got? then read.result.data else []))
       .(traffic := if r.qbuf.Some? then sys.traffic
                    else Took(sys.traffic, d, EndToEnd.Taken(a, r, Plenty(sys, d))))
  }

  lemma ReadIsStep(a: S.Aead, cr: H.Crypto, sys: System, d: Dir)
    requires Fluent(sys.traffic.chain) && sys.traffic.chain.Sized() && sys.Chan(d).dec.Some?
    requires ReceiverOf(sys, d).Sane() && ReceiverOf(sys, d).Ready()
    ensures var c := sys.traffic.chain; c.sid in c.nodes[c.At(d, |c.ids|)].circuits
    ensures var sys' := ReadState(a, sys, d);
            && Step(a, cr, sys, Reads(d, Plenty(sys, d)), sys') && Fluent(sys'.traffic.chain)
            && sys'.net == sys.net && sys'.Chan(d).sent == sys.Chan(d).sent && sys'.traffic.chain.Sized()
  {
    var (t, r) := (sys.traffic, ReceiverOf(sys, d));
    TookStep(t, d, 0);
    ReadTakes(a, r, Plenty(sys, d));
    TookStep(t, d, EndToEnd.Taken(a, r, Plenty(sys, d)));
    hide Fluent, C.Step, Took, C.Inbox, S.ReadStep, S.Receiver.Ready, S.Receiver.Sane, EndToEnd.Taken, Plenty;
  }

  /** With plenty of room a Read leaves no queue. */
  lemma PlentyLeavesNone(a: S.Aead, sys: System, d: Dir)
    requires sys.traffic.chain.Sized() && sys.Chan(d).Sane() && ReceiverOf(sys, d).Ready()
    ensures var read := S.ReadStep(a, ReceiverOf(sys, d), Plenty(sys, d));
            read.result.Got? ==> read.receiver.qbuf.None?
  {
    hide C.Inbox;
  }

  /** What is on the hops and in the buffer after that Read. */
  lemma ReadStateFlight(a: S.Aead, sys: System, d: Dir)
    requires Fluent(sys.traffic.chain) && sys.traffic.chain.Sized()
    requires var c := sys.traffic.chain; c.sid in c.nodes[c.At(d, |c.ids|)].circuits
    requires ReceiverOf(sys, d).Sane() && ReceiverOf(sys, d).Ready()
    ensures var (sys', c) := (ReadState(a, sys, d), sys.traffic.chain);
            && sys'.traffic.chain.Sized()
            && C.Inbox(sys'.traffic.chain, d) == S.ReadStep(a, ReceiverOf(sys, d), Plenty(sys, d)).receiver.inbox
            && C.HopBytes(sys'.traffic.chain, d) == C.HopBytes(c, d)
  {
    var (c, r) := (sys.traffic.chain, ReceiverOf(sys, d));
    var k := EndToEnd.Taken(a, r, Plenty(sys, d));
    ReadTakes(a, r, Plenty(sys, d));
    C.OpenFacts(c, 0);
    assert c.sid in c.nodes[0].circuits && c.sid in c.nodes[|c.ids|].circuits;
    hide Fluent, Chain.Open, S.ReadStep, S.Receiver.Ready, EndToEnd.Taken, Plenty, C.HopBytes;
    if r.qbuf.None? {
      Delivery.ReadInbox(c, ReadAt(c, d, k), d, k, d);
      C.NodesKeepBytes(c, ReadAt(c, d, k).nodes, d);
    }
  }

  /** What is left to do for the reader of direction d. */
  function Pending(ch: Channel, chunks: seq<bytes>): nat {
    |chunks| + if ch.qbuf.Some? then 1 else 0
  }

  /** A finished reader to whom everything under way has come. */
  ghost predicate Reading(a: S.Aead, cr: H.Crypto, dialled: Peer, sys: System, d: Dir, chunks: seq<bytes>) {
    && Going(a, cr, dialled, sys) && sys.Chan(d).dec.Some? && sys.traffic.chain.Sized()
    && C.Ahead(C.HopBytes(sys.traffic.chain, d)) == []
    && DirOk(a, sys.Chan(d), [], C.Inbox(sys.traffic.chain, d), sys.Sender(d), sys.Reader(d), chunks)
  }

  lemma ReadOnce(a: S.Aead, cr: H.Crypto, dialled: Peer, sys: System, d: Dir, chunks: seq<bytes>)
    returns (sys': System, chunks': seq<bytes>)
    requires Reading(a, cr, dialled, sys, d, chunks) && sys.Chan(d).got != sys.Chan(d).sent
    ensures Step(a, cr, sys, Reads(d, Plenty(sys, d)), sys') && Reading(a, cr, dialled, sys', d, chunks')
    ensures sys'.net == sys.net && sys'.Chan(Opposite(d)) == sys.Chan(Opposite(d))
    ensures sys'.Chan(d).sent == sys.Chan(d).sent && Pending(sys'.Chan(d), chunks') < Pending(sys.Chan(d), chunks)
  {
    var (ch, inbox, room) := (sys.Chan(d), C.Inbox(sys.traffic.chain, d), Plenty(sys, d));
    var r := S.Receiver(ch.dec, ch.qbuf, ch.qseek, inbox);
    assert r == ReceiverOf(sys, d) && ch.Sane() && r.Sane();
    assert Fluent(sys.traffic.chain) && Inv(a, cr, dialled, sys) && a.Lawful() && cr.Lawful();
    hide Going, Inv, Fluent, DirOk, C.Inbox, C.HopBytes, C.Ahead, S.ReadStep, S.Receiver.Ready, Plenty, Step;
    hide S.Aead.Lawful, H.Crypto.Lawful, ReadState;
    UnreadAhead(a, ch, inbox, sys.Sender(d), sys.Reader(d), chunks);
    assert inbox + [] == inbox;
    ReadForward(a, ch, inbox, [], sys.Sender(d), sys.Reader(d), chunks, room);
    PlentyLeavesNone(a, sys, d);
    ReadIsStep(a, cr, sys, d);
    ReadStateFlight(a, sys, d);
    sys', chunks' := ReadState(a, sys, d), if r.qbuf.Some? then chunks else chunks[1..];
    ReadStateChan(a, sys, d);
    var read := S.ReadStep(a, r, room);
    assert read.receiver.inbox + [] == read.receiver.inbox;
    StepKeepsInv(a, cr, dialled, sys, Reads(d, room), sys');
    GoingIs(a, cr, dialled, sys');
  }

  lemma ReadStateChan(a: S.Aead, sys: System, d: Dir)
    requires sys.traffic.chain.Sized() && ReceiverOf(sys, d).Sane() && ReceiverOf(sys, d).Ready()
    requires var c := sys.traffic.chain; c.sid in c.nodes[c.At(d, |c.ids|)].circuits
    ensures var (ch, read) := (sys.Chan(d), S.ReadStep(a, ReceiverOf(sys, d), Plenty(sys, d)));
            && ReadState(a, sys, d).net == sys.net
            && ReadState(a, sys, d).Chan(Opposite(d)) == sys.Chan(Opposite(d))
            && ReadState(a, sys, d).Chan(d)
               == ch.(dec := read.receiver.dec, qbuf := read.receiver.qbuf, qseek := read.receiver.qseek,
                      got := ch.got + if read.result.Got? then read.result.data else [])
  {
    hide S.ReadStep, S.Receiver.Ready, Plenty, Took, EndToEnd.Taken;
  }

  /** A reader to whom everything has come can read it all. */
  lemma {:induction false} ReadsOut(a: S.Aead, cr: H.Crypto, dialled: Peer, sys: System, d: Dir, chunks: seq<bytes>)
    returns (syss: seq<System>, events: seq<Event>)
    requires Reading(a, cr, dialled, sys, d, chunks)
    ensures IsRun(a, cr, syss, events) && |syss| == |events| + 1 && syss[0] == sys
    ensures var last := syss[|events|];
            && Going(a, cr, dialled, last) && last.net == sys.net && last.Chan(Opposite(d)) == sys.Chan(Opposite(d))
            && last.Chan(d).got == last.Chan(d).sent == sys.Chan(d).sent
    decreases Pending(sys.Chan(d), chunks)
  {
    assert Going(a, cr, dialled, sys);
    hide Reading, Going, Step, Plenty;
    if sys.Chan(d).got == sys.Chan(d).sent {
      syss, events := [sys], [];
    } else {
      var next, left := ReadOnce(a, cr, dialled, sys, d, chunks);
      var rest, more := ReadsOut(a, cr, dialled, next, d, left);
      syss, events := Prepended(a, cr, sys, Reads(d, Plenty(sys, d)), rest, more);
    }
  }

  /** Whatever a client has written the other can read, once it has finished its handshake. */
  lemma AllCanBeRead(a: S.Aead, cr: H.Crypto, dialled: Peer, sys: System, d: Dir)
    returns (syss: seq<System>, events: seq<Event>)
    requires Going(a, cr, dialled, sys) && sys.Chan(d).dec.Some?
    ensures IsRun(a, cr, syss, events) && |syss| == |events| + 1 && syss[0] == sys
    ensures var last := syss[|events|];
            && Going(a, cr, dialled, last) && last.net == sys.net && last.Chan(Opposite(d)) == sys.Chan(Opposite(d))
            && last.Chan(d).got == last.Chan(d).sent == sys.Chan(d).sent
  {
    var mid, net := Drains(a, cr, dialled, sys, d);
    var now := mid[|net|];
    assert Inv(a, cr, dialled, now) && DirInv(a, now, d) && H.Inv(cr, now.net, dialled);
    hide IsRun, H.Inv, Inv, DirInv, DirOk, C.Inbox, C.HopBytes, C.Ahead;
    var chunks := ReadChunks(a, cr, dialled, now, d);
    var inbox := C.Inbox(now.traffic.chain, d);
    assert inbox + [] == inbox;
    assert Reading(a, cr, dialled, now, d, chunks);
    var rest, more := ReadsOut(a, cr, dialled, now, d, chunks);
    Chained(a, cr, mid, net, rest, more);
    syss, events := mid + rest[1..], net + more;
  }

  lemma StageDone(cr: H.Crypto, dialled: Peer, net: H.Net)
    requires H.Clean(cr, net, dialled) && H.Stage(net, 6)
    ensures net.i.Done() && net.r.Done()
  {
  }

  lemma DoneCiphers(a: S.Aead, cr: H.Crypto, dialled: Peer, sys: System)
    requires Going(a, cr, dialled, sys) && sys.net.i.Done() && sys.net.r.Done()
    ensures sys.right.dec.Some? && sys.left.dec.Some? && sys.right.enc.Some? && sys.left.enc.Some?
  {
    assert DirInv(a, sys, Rightward) && DirInv(a, sys, Leftward);
    hide H.Inv, Fluent, C.Conserved, Flight;
    var x :| DirOk(a, sys.right, sys.Pipe(Rightward), Flight(sys.traffic, Rightward), sys.net.i, sys.net.r, x);
    var y :| DirOk(a, sys.left, sys.Pipe(Leftward), Flight(sys.traffic, Leftward), sys.net.r, sys.net.i, y);
  }

  /** Both finished ends read all that was written to them. */
  lemma BothRead(a: S.Aead, cr: H.Crypto, dialled: Peer, sys: System) returns (syss: seq<System>, events: seq<Event>)
    requires Going(a, cr, dialled, sys) && sys.right.dec.Some? && sys.left.dec.Some?
    ensures IsRun(a, cr, syss, events) && |syss| == |events| + 1 && syss[0] == sys
    ensures var last := syss[|events|];
            && Going(a, cr, dialled, last) && last.net == sys.net
            && last.right.got == last.right.sent == sys.right.sent && last.left.got == last.left.sent == sys.left.sent
  {
    hide *;
    ChanIs(sys);
    var one, first := AllCanBeRead(a, cr, dialled, sys, Rightward);
    ChanIs(one[|first|]);
    var two, second := AllCanBeRead(a, cr, dialled, one[|first|], Leftward);
    ChanIs(two[|second|]);
    Chained(a, cr, one, first, two, second);
    syss, events := one + two[1..], first + second;
  }

  lemma ChanIs(sys: System)
    ensures sys.Chan(Rightward) == sys.right && sys.Chan(Leftward) == sys.left
    ensures Opposite(Rightward) == Leftward && Opposite(Leftward) == Rightward
  {
  }

  /**
    Main result. A call never paints itself into a corner: from every state in which neither end
    has failed, the caller dialled the right peer and the line carries only Data and Success, the
    two clients can finish the handshake and read everything written, in both directions.
  */
  lemma CanFinish(a: S.Aead, cr: H.Crypto, dialled: Peer, sys: System) returns (syss: seq<System>, events: seq<Event>)
    requires Going(a, cr, dialled, sys) && H.Clean(cr, sys.net, dialled)
    ensures IsRun(a, cr, syss, events) && |syss| == |events| + 1 && syss[0] == sys
    ensures var last := syss[|events|];
            && Going(a, cr, dialled, last) && last.net.i.Done() && last.net.r.Done()
            && last.right.got == last.right.sent == sys.right.sent && last.left.got == last.left.sent == sys.left.sent
  {
    assert H.Inv(cr, sys.net, dialled);
    var k := H.StageOf(cr, sys.net, dialled);
    hide *;
    var one, first := Finishes(a, cr, dialled, sys, k);
    StageDone(cr, dialled, one[|first|].net);
    DoneCiphers(a, cr, dialled, one[|first|]);
    BooksAre(sys, one[|first|]);
    var two, second := BothRead(a, cr, dialled, one[|first|]);
    Chained(a, cr, one, first, two, second);
    syss, events := one + two[1..], first + second;
  }

  lemma BooksAre(sys: System, sys': System)
    requires SameBooks(sys, sys')
    ensures sys'.right.sent == sys.right.sent && sys'.left.sent == sys.left.sent
  {
  }

  lemma CallGrows(plan: CircuitSetup.Plan, states: seq<CircuitSetup.State>, moves: seq<CircuitSetup.Move>, i: nat,
                  a: S.Aead, cr: H.Crypto, syss: seq<System>, events: seq<Event>, more: seq<System>, evs: seq<Event>)
    requires IsCall(plan, states, moves, i, a, cr, syss, events) && |syss| == |events| + 1
    requires IsRun(a, cr, more, evs) && syss[|events|] == more[0]
    ensures IsCall(plan, states, moves, i, a, cr, syss + more[1..], events + evs)
    ensures (syss + more[1..])[|events + evs|] == more[|evs|]
  {
    hide CircuitSetup.IsRun, CircuitSetup.Originates, SetupTheorem.RouteKept, S.Aead.Lawful, H.Crypto.Lawful;
    hide IsRouteChain, Begin, IsRun;
    Chained(a, cr, syss, events, more, evs);
  }

  lemma CallIsLawful(plan: CircuitSetup.Plan, states: seq<CircuitSetup.State>, moves: seq<CircuitSetup.Move>, i: nat,
                     a: S.Aead, cr: H.Crypto, syss: seq<System>, events: seq<Event>)
    requires IsCall(plan, states, moves, i, a, cr, syss, events)
    ensures a.Lawful() && cr.Lawful()
  {
    hide CircuitSetup.IsRun, CircuitSetup.Originates, SetupTheorem.RouteKept, IsRouteChain, Begin, IsRun;
  }

  /** So every call on such a line can be continued to its end. */
  lemma CallCanFinish(plan: CircuitSetup.Plan, states: seq<CircuitSetup.State>, moves: seq<CircuitSetup.Move>, i: nat,
                      a: S.Aead, cr: H.Crypto, syss: seq<System>, events: seq<Event>)
    returns (all: seq<System>, evs: seq<Event>)
    requires IsCall(plan, states, moves, i, a, cr, syss, events) && |syss| == |events| + 1
    requires Fluent(syss[|events|].traffic.chain) && H.Clean(cr, syss[|events|].net, plan.answer)
    ensures IsCall(plan, states, moves, i, a, cr, all, evs) && |all| == |evs| + 1 && syss <= all && events <= evs
    ensures var (now, last) := (syss[|events|], all[|evs|]);
            && last.net.i.Done() && last.net.r.Done()
            && last.right.got == last.right.sent == now.right.sent && last.left.got == last.left.sent == now.left.sent
  {
    hide *;
    CallKeeps(plan, states, moves, i, a, cr, syss, events);
    CallIsLawful(plan, states, moves, i, a, cr, syss, events);
    var now := syss[|events|];
    GoingIs(a, cr, plan.answer, now);
    var more, rest := CanFinish(a, cr, plan.answer, now);
    CallGrows(plan, states, moves, i, a, cr, syss, events, more, rest);
    all, evs := syss + more[1..], events + rest;
  }

  // ----- a call, from set-up to a frame that was read -----

  lemma SuccessFlows(plan: CircuitSetup.Plan, g: CircuitSetup.State, path: seq<Peer>, ids: seq<StreamId>, d: Dir)
    requires CircuitSetup.IsLine(plan, g, path, ids) && SetupRuns.OnlySuccess(g.wires)
    ensures Delivery.Flows(SetupLine.ChainOf(plan, g, path, ids), d)
  {
    hide CircuitSetup.Placed, CircuitSetup.Distinct;
    var c := SetupLine.ChainOf(plan, g, path, ids);
    forall k | 0 <= k < |c.ids|
      ensures Delivery.Flowing(c.Wire(d, k))
    {
      var l := c.Over(d, k);
      var w := if d.Rightward? then CircuitSetup.Wire(ids[l], path[l], path[l + 1])
               else CircuitSetup.Wire(ids[l], path[l + 1], path[l]);
      assert c.Wire(d, k) == CircuitSetup.On(g.wires, w);
    }
  }

  function FrameState(a: S.Aead, sys: System, d: Dir, p: bytes): System
    requires sys.traffic.chain.Sized() && sys.Chan(d).enc.Some? && 0 < |p| <= S.MAX_PLAINTEXT
  {
    var ch := sys.Chan(d);
    sys.WithChan(d, ch.(enc := Some(ch.enc.value.Next()), sent := ch.sent + p))
       .(traffic := Wrote(sys.traffic, d, S.Frame(a, ch.enc.value, p)))
  }

  lemma FrameIsStep(a: S.Aead, cr: H.Crypto, sys: System, d: Dir, p: bytes)
    requires Fluent(sys.traffic.chain) && sys.traffic.chain.Sized()
    requires sys.Chan(d).enc.Some? && 0 < |p| <= S.MAX_PLAINTEXT
    ensures var sys' := FrameState(a, sys, d, p);
            && Step(a, cr, sys, WritesFrame(d, p, {}), sys') && Fluent(sys'.traffic.chain) && sys'.net == sys.net
            && sys'.Chan(d).sent == sys.Chan(d).sent + p && sys'.Chan(d).dec == sys.Chan(d).dec
            && sys'.Chan(Opposite(d)) == sys.Chan(Opposite(d))
  {
    WroteStep(sys.traffic, d, S.Frame(a, sys.Chan(d).enc.value, p));
    hide Fluent, C.Step, Wrote, S.Frame;
  }

  /** A finished end writes one frame. */
  lemma WritesOne(a: S.Aead, cr: H.Crypto, dialled: Peer, sys: System, d: Dir, p: bytes) returns (sys': System)
    requires Going(a, cr, dialled, sys) && sys.Chan(d).enc.Some? && 0 < |p| <= S.MAX_PLAINTEXT
    ensures Step(a, cr, sys, WritesFrame(d, p, {}), sys') && Going(a, cr, dialled, sys') && sys'.net == sys.net
    ensures sys'.Chan(d).sent == sys.Chan(d).sent + p && sys'.Chan(d).dec == sys.Chan(d).dec
    ensures sys'.Chan(Opposite(d)) == sys.Chan(Opposite(d))
  {
    assert Fluent(sys.traffic.chain) && Inv(a, cr, dialled, sys) && a.Lawful() && cr.Lawful();
    assert sys.traffic.chain.Sized();
    hide *;
    FrameIsStep(a, cr, sys, d, p);
    sys' := FrameState(a, sys, d, p);
    StepKeepsInv(a, cr, dialled, sys, WritesFrame(d, p, {}), sys');
    GoingIs(a, cr, dialled, sys');
  }

  /** The clients finish the handshake, the caller writes p, the answer reads it. */
  lemma Exchanges(a: S.Aead, cr: H.Crypto, dialled: Peer, sys: System, p: bytes)
    returns (syss: seq<System>, events: seq<Event>)
    requires Going(a, cr, dialled, sys) && H.Clean(cr, sys.net, dialled) && 0 < |p| <= S.MAX_PLAINTEXT
    ensures IsRun(a, cr, syss, events) && |syss| == |events| + 1 && syss[0] == sys
    ensures WritesFrame(Rightward, p, {}) in events
    ensures var last := syss[|events|];
            && last.net.i.Done() && last.net.r.Done()
            && last.right.sent == sys.right.sent + p && last.right.got == last.right.sent
  {
    hide *;
    var one, first := CanFinish(a, cr, dialled, sys);
    var now := one[|first|];
    DoneCiphers(a, cr, dialled, now);
    ChanIs(now);
    var next := WritesOne(a, cr, dialled, now, Rightward, p);
    ChanIs(next);
    var two, second := AllCanBeRead(a, cr, dialled, next, Rightward);
    ChanIs(two[|second|]);
    var three, third := Prepended(a, cr, now, WritesFrame(Rightward, p, {}), two, second);
    Chained(a, cr, one, first, three, third);
    syss, events := one + three[1..], first + third;
    assert third[0] in third;
  }

  /** A call that has just begun, over a line that was set up undisturbed. */
  lemma CallBegins(a: S.Aead, cr: H.Crypto)
    returns (plan: CircuitSetup.Plan, states: seq<CircuitSetup.State>, moves: seq<CircuitSetup.Move>, sys: System)
    requires a.Lawful() && cr.Lawful()
    ensures IsCall(plan, states, moves, 3, a, cr, [sys], []) && Fluent(sys.traffic.chain)
    ensures H.Clean(cr, sys.net, plan.answer) && sys.right == UNUSED && sys.left == UNUSED
  {
    var dialled := DialledPeer(cr);
    plan, states, moves := SetupRuns.QuietSuccess(dialled);
    hide CircuitSetup.IsRun, CircuitSetup.Originates, SetupTheorem.RouteKept, S.Aead.Lawful, H.Crypto.Lawful;
    hide Chain.Open, C.Inbox, C.Ahead, C.HopBytes, CircuitSetup.IsLine, SetupLine.ChainOf, SetupTheorem.RouteMade;
    hide Delivery.Flows, SetupRuns.OnlySuccess;
    var c := CallHasChain(plan, states, moves, 3);
    var (g, path, ids) := (states[4], SetupTheorem.RoutePeers(plan, states[4]), SetupTheorem.RouteIds(plan, states[4]));
    assert IsRouteChain(plan, g, c) && c == SetupLine.ChainOf(plan, g, path, ids);
    SuccessFlows(plan, g, path, ids, Rightward);
    SuccessFlows(plan, g, path, ids, Leftward);
    sys := Begin(c, 1, plan.answer, 2, 3, 4, 5, 6);
    assert [sys][0] == Begin(c, 1, plan.answer, 2, 3, 4, 5, 6);
    assert IsRun(a, cr, [sys], []);
  }

  lemma DialledPeer(cr: H.Crypto) returns (dialled: Peer)
    requires cr.Lawful()
    ensures cr.ids.peerId(cr.ids.key(4)) == Some(dialled)
  {
    dialled := cr.ids.peerId(cr.ids.key(4)).value;
  }

  /**
    For every lawful cipher and crypto and every plaintext that fits a frame, there is a call in
    which the line is set up, the three handshake messages go to and fro, the caller writes the
    plaintext, and the answer reads it.
  */
  lemma CallExists(a: S.Aead, cr: H.Crypto, p: bytes)
    returns (plan: CircuitSetup.Plan, states: seq<CircuitSetup.State>, moves: seq<CircuitSetup.Move>,
             syss: seq<System>, events: seq<Event>)
    requires a.Lawful() && cr.Lawful() && 0 < |p| <= S.MAX_PLAINTEXT
    ensures IsCall(plan, states, moves, 3, a, cr, syss, events) && |syss| == |events| + 1
    ensures syss[0].right == UNUSED && syss[0].left == UNUSED && WritesFrame(Rightward, p, {}) in events
    ensures var last := syss[|events|];
            last.net.i.Done() && last.net.r.Done() && last.right.sent == p && last.right.got == p
  {
    var first: System;
    plan, states, moves, first := CallBegins(a, cr);
    assert UNUSED.sent + p == p;
    CallKeeps(plan, states, moves, 3, a, cr, [first], []);
    hide *;
    GoingIs(a, cr, plan.answer, first);
    var more, evs := Exchanges(a, cr, plan.answer, first, p);
    CallGrows(plan, states, moves, 3, a, cr, [first], [], more, evs);
    syss, events := [first] + more[1..], [] + evs;
  }
}
