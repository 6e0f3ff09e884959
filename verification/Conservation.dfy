/**
  Routing and conservation on an open line: no byte passed to CircuitConn.Write is lost,
  duplicated or reordered on its way to the far CircuitConn, for any number of hops and any
  interleaving (protocol/relay/connection.go, manager.go SendRelay, relay.go handleRelayMsg).
*/
module Conservation {
  import opened Basics
  import opened Relay
  import opened NodeFacts
  import opened LineModel

  // ----- bytes on the way -----

  /** The payload bytes of the Data messages in a queue. */
  function Bytes(msgs: seq<Msg>): bytes {
    if msgs == [] then [] else (if msgs[0].Data? then msgs[0].payload else []) + Bytes(msgs[1..])
  }

  lemma BytesAppend(msgs: seq<Msg>, m: Msg)
    ensures Bytes(msgs + [m]) == Bytes(msgs) + if m.Data? then m.payload else []
  {
    if msgs == [] {
      assert msgs + [m] == [m];
    } else {
      assert (msgs + [m])[1..] == msgs[1..] + [m];
      BytesAppend(msgs[1..], m);
    }
  }

  /** The payloads of the Data messages in a queue, one by one. */
  function Payloads(msgs: seq<Msg>): seq<bytes> {
    if msgs == [] then [] else (if msgs[0].Data? then [msgs[0].payload] else []) + Payloads(msgs[1..])
  }

  lemma PayloadsCons(m: Msg, rest: seq<Msg>)
    ensures Payloads([m] + rest) == (if m.Data? then [m.payload] else []) + Payloads(rest)
  {
    assert ([m] + rest)[1..] == rest;
  }

  lemma {:induction false} PayloadsAppend(msgs: seq<Msg>, m: Msg)
    ensures Payloads(msgs + [m]) == Payloads(msgs) + if m.Data? then [m.payload] else []
  {
    if msgs == [] {
      assert msgs + [m] == [m] + [];
      PayloadsCons(m, []);
    } else {
      var (head, rest) := (msgs[0], msgs[1..]);
      assert msgs == [head] + rest && msgs + [m] == [head] + (rest + [m]);
      hide Payloads;
      PayloadsAppend(rest, m);
      PayloadsCons(head, rest);
      PayloadsCons(head, rest + [m]);
    }
  }

  lemma BytesOfPayloads(msgs: seq<Msg>)
    ensures Bytes(msgs) == Concat(Payloads(msgs))
  {
    if msgs != [] {
      var rest := Payloads(msgs[1..]);
      BytesOfPayloads(msgs[1..]);
      if msgs[0].Data? {
        assert ([msgs[0].payload] + rest)[1..] == rest;
      } else {
        assert [] + rest == rest;
      }
    }
  }

  /** What is on successive hops, in the order in which it will arrive: the last hop first. */
  function Ahead<T>(hops: seq<seq<T>>): seq<T> {
    if hops == [] then [] else Ahead(hops[1..]) + hops[0]
  }

  lemma AheadPush<T>(hops: seq<seq<T>>, p: seq<T>)
    requires hops != []
    ensures Ahead(hops[0 := hops[0] + p]) == Ahead(hops) + p
  {
    assert hops[0 := hops[0] + p][1..] == hops[1..];
  }

  /** Moving the oldest bytes of one hop to the end of the next changes nothing. */
  lemma {:induction false} AheadShift<T>(hops: seq<seq<T>>, k: nat, head: seq<T>, rest: seq<T>)
    requires k + 1 < |hops| && hops[k] == head + rest
    ensures Ahead(hops[k := rest][k + 1 := hops[k + 1] + head]) == Ahead(hops)
  {
    var moved := hops[k := rest][k + 1 := hops[k + 1] + head];
    if k == 0 {
      assert moved[1..] == hops[1..][0 := hops[1..][0] + head];
      AheadPush(hops[1..], head);
    } else {
      assert moved[1..] == hops[1..][k - 1 := rest][k := hops[1..][k] + head];
      AheadShift(hops[1..], k - 1, head, rest);
    }
  }

  /** The oldest bytes of the last hop are the next to arrive. */
  lemma {:induction false} AheadPop<T>(hops: seq<seq<T>>, head: seq<T>, rest: seq<T>)
    requires hops != [] && hops[|hops| - 1] == head + rest
    ensures Ahead(hops) == head + Ahead(hops[|hops| - 1 := rest])
  {
    var popped := hops[|hops| - 1 := rest];
    if |hops| == 1 {
      assert hops[1..] == [] && popped[1..] == [];
    } else {
      assert popped[1..] == hops[1..][|hops| - 2 := rest];
      AheadPop(hops[1..], head, rest);
    }
  }

  lemma {:induction false} NoneAhead<T>(hops: seq<seq<T>>)
    requires forall k :: 0 <= k < |hops| ==> hops[k] == []
    ensures Ahead(hops) == []
  {
    if hops != [] {
      NoneAhead(hops[1..]);
      assert Ahead(hops[1..]) + hops[0] == [];
    }
  }

  function HopBytes(c: Chain, d: Dir): (hops: seq<bytes>)
    requires c.Sized()
    ensures |hops| == |c.ids|
  {
    seq(|c.ids|, k requires 0 <= k < |c.ids| => Bytes(c.Wire(d, k)))
  }

  /** The payloads on each hop in direction d. */
  function Queued(c: Chain, d: Dir): (hops: seq<seq<bytes>>)
    requires c.Sized()
    ensures |hops| == |c.ids|
  {
    seq(|c.ids|, k requires 0 <= k < |c.ids| => Payloads(c.Wire(d, k)))
  }

  lemma QueuedAt(c: Chain, d: Dir, k: nat)
    requires c.Sized() && k < |c.ids|
    ensures Queued(c, d)[k] == Payloads(c.Wire(d, k)) && HopBytes(c, d)[k] == Concat(Queued(c, d)[k])
  {
    hide Bytes;
    BytesOfPayloads(c.Wire(d, k));
  }

  /** The same payloads are the same bytes. */
  lemma SameQueues(c: Chain, c': Chain, d: Dir)
    requires c.Sized() && c'.Sized() && c'.ids == c.ids && Queued(c', d) == Queued(c, d)
    ensures HopBytes(c', d) == HopBytes(c, d)
  {
    hide Bytes, Payloads, Queued;
    forall k | 0 <= k < |c.ids|
      ensures HopBytes(c', d)[k] == HopBytes(c, d)[k]
    {
      QueuedAt(c, d, k);
      QueuedAt(c', d, k);
    }
  }

  /** What the end that direction d leads to has received but not yet handed out. */
  function Inbox(c: Chain, d: Dir): bytes
    requires c.Sized()
  {
    var n := c.nodes[c.At(d, |c.ids|)];
    if c.sid in n.circuits then n.circuits[c.sid].inbox else []
  }

  // ----- routing at one node -----

  /** GetPattern is its own inverse on a pair of distinct streams, and never answers the stream asked about. */
  lemma PatternInvolution(s: Session, id: StreamId)
    requires |s.pair| == 2 && s.pair[0].id != s.pair[1].id
    ensures s.GetPattern(id).Some? <==> s.Has(id)
    ensures s.GetPattern(id).Some? ==>
              var partner := s.GetPattern(id).value;
              && partner in s.pair && partner.id != id
              && s.GetPattern(partner.id).Some? && s.GetPattern(partner.id).value.id == id
  {
    assert s.pair[0].id == id || s.pair[1].id == id ==> s.Has(id);
  }

  /** The stream a message came in on and the one it must leave on are the pair of the node in between. */
  lemma Partner(c: Chain, d: Dir, k: nat)
    requires c.Sized() && c.Simple() && 0 < k < |c.ids| && c.Live(c.At(d, k))
    ensures var sess := c.nodes[c.At(d, k)].sessions[c.sid];
            && !IsEnd(sess.role) && sess.IsReady()
            && sess.GetPattern(c.Backward(d, k).id) == Some(c.Onward(d, k))
            && c.Onward(d, k) != c.Backward(d, k)
  {
  }

  /** A node in between passes Data on unchanged, once, in the same direction only, or closes. */
  lemma RoutesOnward(c: Chain, d: Dir, k: nat, payload: bytes, bad: set<StreamId>)
    requires c.Sized() && c.Simple() && 0 < k < |c.ids| && c.Live(c.At(d, k))
    ensures var n := c.nodes[c.At(d, k)];
            var e := HandleData(n, c.sid, payload, c.Backward(d, k), bad);
            if c.Onward(d, k).id !in bad then e == Effect(n, [Send(c.Onward(d, k), Data(c.sid, payload))], [])
            else c.sid !in e.node.sessions
  {
    Partner(c, d, k);
  }

  /** An end keeps Data in its circuit's buffer and sends nothing. */
  lemma EndReceives(c: Chain, d: Dir, payload: bytes, bad: set<StreamId>)
    requires c.Sized() && c.Live(c.At(d, |c.ids|)) && c.sid in c.nodes[c.At(d, |c.ids|)].circuits
    ensures var n := c.nodes[c.At(d, |c.ids|)];
            var conn := n.circuits[c.sid];
            HandleData(n, c.sid, payload, c.Backward(d, |c.ids|), bad)
            == Quiet(n.(circuits := n.circuits[c.sid := conn.(inbox := conn.inbox + payload)]))
  {
  }

  // ----- messages that are not Data -----

  predicate CarriesData(sends: seq<Send>) {
    exists i :: 0 <= i < |sends| && sends[i].msg.Data?
  }

  /** The effect does not touch the session's receive buffer. */
  predicate SameInbox(n: Node, n': Node, sid: Sid) {
    sid in n'.circuits ==> sid in n.circuits && n'.circuits[sid].inbox == n.circuits[sid].inbox
  }

  lemma BroadcastNoData(n: Node, sid: Sid, msg: Msg, skip: Option<Peer>, bad: set<StreamId>)
    requires !msg.Data?
    ensures var e := Broadcast(n, sid, msg, skip, bad); !CarriesData(e.sends) && SameInbox(n, e.node, sid)
  {
    WriteRoundFacts(PairOf(n, sid), msg, skip, bad);
    FarewellFacts(PairOf(n, sid), sid, bad);
  }

  lemma OthersNoData(n: Node, msg: Msg, from: Stream, sid: Sid, bad: set<StreamId>)
    requires Travels(msg, sid) && !msg.Data?
    ensures var e := Handle(n, msg, from, bad); !CarriesData(e.sends) && SameInbox(n, e.node, sid)
  {
    hide Broadcast, CloseCircuit, CarriesData, SameInbox, PassOn;
    NothingNoData(n, sid);
    CloseNoData(n, sid, bad);
    match msg {
      case Wake =>
      case Malformed =>
      case Probe(_, _) =>
        BroadcastNoData(n, sid, Success(sid), None, bad);
        ProbeStoredNoData(n, sid, msg.rand);
        if sid in n.sessions { PassOnNoData(n, sid, msg, from.id, bad); }
      case Disconnect(_) =>
        BroadcastNoData(n, sid, msg, Some(from.remote), bad);
        RemovedNoData(n, sid, msg, from, bad);
      case Success(_) =>
        SuccessNotedNoData(n, sid);
        if sid in n.sessions { PassOnNoData(n, sid, msg, from.id, bad); }
    }
  }

  lemma NothingNoData(n: Node, sid: Sid)
    ensures !CarriesData([]) && SameInbox(n, n, sid)
  {
  }

  lemma CloseNoData(n: Node, sid: Sid, bad: set<StreamId>)
    ensures var e := CloseCircuit(n, sid, bad); !CarriesData(e.sends) && SameInbox(n, e.node, sid)
  {
    FarewellFacts(PairOf(n, sid), sid, bad);
  }

  lemma PassOnNoData(n: Node, sid: Sid, msg: Msg, from: StreamId, bad: set<StreamId>)
    requires sid in n.sessions && !msg.Data?
    ensures var e := PassOn(n, sid, msg, from, false, bad); !CarriesData(e.sends) && SameInbox(n, e.node, sid)
  {
    hide CloseCircuit;
  }

  lemma ProbeStoredNoData(n: Node, sid: Sid, rand: bytes)
    ensures SameInbox(n, n.(probes := n.probes[sid := rand]), sid)
  {
  }

  lemma SuccessNotedNoData(n: Node, sid: Sid)
    ensures sid in n.circuits ==> SameInbox(n, n.(circuits := n.circuits[sid := n.circuits[sid].(ready := true)]), sid)
  {
  }

  lemma RemovedNoData(n: Node, sid: Sid, msg: Msg, from: Stream, bad: set<StreamId>)
    requires msg == Disconnect(sid)
    requires !CarriesData(Broadcast(n, sid, msg, Some(from.remote), bad).sends)
    ensures var e := HandleDisconnect(n, sid, from, bad); !CarriesData(e.sends) && SameInbox(n, e.node, sid)
  {
    hide Broadcast;
    var told := Broadcast(n, sid, msg, Some(from.remote), bad);
    assert told.sends + [] == told.sends;
  }

  lemma PostOneQueued(c: Chain, i: nat, s: Send, d: Dir)
    requires c.Sized() && i < |c.nodes| && !s.msg.Data?
    ensures Queued(PostOne(c, i, s), d) == Queued(c, d)
  {
    if i < |c.ids| { PayloadsAppend(c.right[i], s.msg); }
    if i > 0 { PayloadsAppend(c.left[i - 1], s.msg); }
    var c' := PostOne(c, i, s);
    forall k | 0 <= k < |c.ids|
      ensures Payloads(c'.Wire(d, k)) == Payloads(c.Wire(d, k))
    {
    }
  }

  /** Writing messages that are not Data leaves the payloads on every hop as they were. */
  lemma {:induction false} PostQueued(c: Chain, i: nat, sends: seq<Send>, d: Dir)
    requires c.Sized() && i < |c.nodes| && !CarriesData(sends)
    ensures Queued(Post(c, i, sends), d) == Queued(c, d)
    decreases |sends|
  {
    if sends != [] {
      assert !sends[0].msg.Data?;
      PostOneQueued(c, i, sends[0], d);
      PostQueued(PostOne(c, i, sends[0]), i, sends[1..], d);
    }
  }

  // ----- runs -----

  lemma OpenFacts(c: Chain, i: nat)
    requires c.Open() && i < |c.nodes|
    ensures c.Sized() && c.Simple() && c.Live(i) && c.sid in c.nodes[i].sessions
  {
  }

  lemma OpenHead(c: Chain, d: Dir, k: nat)
    requires c.Open() && k < |c.ids| && c.Wire(d, k) != []
    ensures Travels(c.Wire(d, k)[0], c.sid)
  {
  }

  /** A line with the history of its two byte flows. */
  datatype Traffic = Traffic(chain: Chain, sentR: bytes, gotR: bytes, sentL: bytes, gotL: bytes) {
    /** Everything passed to CircuitConn.Write at the end where direction d starts. */
    function Sent(d: Dir): bytes {
      if d.Rightward? then sentR else sentL
    }

    /** Everything CircuitConn.Read has returned at the end where direction d leads. */
    function Got(d: Dir): bytes {
      if d.Rightward? then gotR else gotL
    }
  }

  datatype Event =
    | Writes(d: Dir, payload: bytes, bad: set<StreamId>)
    | Reads(d: Dir, room: nat)
    | Arrives(d: Dir, k: nat, bad: set<StreamId>)
    | Signals(i: nat, msg: Msg, bad: set<StreamId>)
    | Elsewhere(i: nat, node: Node)

  function WriteAt(c: Chain, d: Dir, payload: bytes, bad: set<StreamId>): (c': Chain)
    requires c.Sized()
  {
    var i := c.At(d, 0);
    Act(c, i, SendRelay(c.nodes[i], c.sid, Data(c.sid, payload), bad))
  }

  function Drained(n: Node, sid: Sid, k: nat): Node
    requires sid in n.circuits && k <= |n.circuits[sid].inbox|
  {
    n.(circuits := n.circuits[sid := n.circuits[sid].(inbox := n.circuits[sid].inbox[k..])])
  }

  /** One step between two states in which the line is up. */
  predicate Step(t: Traffic, ev: Event, t': Traffic) {
    var c := t.chain;
    && c.Open() && t'.chain.Open()
    && match ev
       case Writes(d, payload, bad) =>
         && t'.chain == WriteAt(c, d, payload, bad)
         && t' == if d.Rightward? then t.(chain := t'.chain, sentR := t.sentR + payload)
                  else t.(chain := t'.chain, sentL := t.sentL + payload)
       case Reads(d, room) =>
         var i := c.At(d, |c.ids|);
         var k := Min(room, |Inbox(c, d)|);
         && t'.chain == c.(nodes := c.nodes[i := Drained(c.nodes[i], c.sid, k)])
         && t' == if d.Rightward? then t.(chain := t'.chain, gotR := t.gotR + Inbox(c, d)[..k])
                  else t.(chain := t'.chain, gotL := t.gotL + Inbox(c, d)[..k])
       case Arrives(d, k, bad) =>
         && k < |c.ids| && c.Wire(d, k) != []
         && t' == t.(chain := Arrive(c, d, k, bad))
       case Signals(i, msg, bad) =>
         && i < |c.nodes| && !msg.Data?
         && t' == t.(chain := Act(c, i, SendRelay(c.nodes[i], c.sid, msg, bad)))
       case Elsewhere(i, n) =>
         && i < |c.nodes| && SameInbox(c.nodes[i], n, c.sid)
         && t' == t.(chain := c.(nodes := c.nodes[i := n]))
  }

  /** Sent = returned + buffered + in flight, in order, in direction d. */
  predicate Conserved(t: Traffic, d: Dir)
    requires t.chain.Sized()
  {
    Balanced(t.Sent(d), t.Got(d), Inbox(t.chain, d), HopBytes(t.chain, d))
  }

  predicate Balanced(sent: bytes, got: bytes, inbox: bytes, hops: seq<bytes>) {
    sent == got + inbox + Ahead(hops)
  }

  lemma BalanceWrite(sent: bytes, got: bytes, inbox: bytes, hops: seq<bytes>, p: bytes)
    requires Balanced(sent, got, inbox, hops) && hops != []
    ensures Balanced(sent + p, got, inbox, hops[0 := hops[0] + p])
  {
    AheadPush(hops, p);
  }

  lemma BalanceMove(sent: bytes, got: bytes, inbox: bytes, hops: seq<bytes>, k: nat, head: bytes, rest: bytes)
    requires Balanced(sent, got, inbox, hops) && k + 1 < |hops| && hops[k] == head + rest
    ensures Balanced(sent, got, inbox, hops[k := rest][k + 1 := hops[k + 1] + head])
  {
    AheadShift(hops, k, head, rest);
  }

  lemma BalanceLand(sent: bytes, got: bytes, inbox: bytes, hops: seq<bytes>, head: bytes, rest: bytes)
    requires Balanced(sent, got, inbox, hops) && hops != [] && hops[|hops| - 1] == head + rest
    ensures Balanced(sent, got, inbox + head, hops[|hops| - 1 := rest])
  {
    AheadPop(hops, head, rest);
  }

  lemma BalanceRead(sent: bytes, got: bytes, inbox: bytes, hops: seq<bytes>, k: nat)
    requires Balanced(sent, got, inbox, hops) && k <= |inbox|
    ensures Balanced(sent, got + inbox[..k], inbox[k..], hops)
  {
    assert inbox == inbox[..k] + inbox[k..];
  }

  lemma PostSingle(c: Chain, i: nat, s: Send)
    requires c.Sized() && i < |c.nodes|
    ensures Post(c, i, [s]) == PostOne(c, i, s)
  {
    hide PostOne;
    assert [s][1..] == [];
    assert Post(c, i, [s]) == Post(PostOne(c, i, s), i, []);
  }

  /** A message written on the onward stream goes on the wire of that direction. */
  lemma PostOneOnward(c: Chain, d: Dir, k: nat, m: Msg)
    requires c.Sized() && c.Simple() && k < |c.ids|
    ensures PostOne(c, c.At(d, k), Send(c.Onward(d, k), m)) == c.WithWire(d, k, c.Wire(d, k) + [m])
  {
  }

  lemma PostOnward(c: Chain, d: Dir, k: nat, m: Msg)
    requires c.Sized() && c.Simple() && k < |c.ids|
    ensures Post(c, c.At(d, k), [Send(c.Onward(d, k), m)]) == c.WithWire(d, k, c.Wire(d, k) + [m])
  {
    hide Post, PostOne, Chain.WithWire, Chain.Wire, Chain.Onward;
    PostSingle(c, c.At(d, k), Send(c.Onward(d, k), m));
    PostOneOnward(c, d, k, m);
  }

  lemma WireBytes(c: Chain, d: Dir, k: nat, msgs: seq<Msg>, e: Dir)
    requires c.Sized() && k < |c.ids|
    ensures HopBytes(c.WithWire(d, k, msgs), e)
         == if e == d then HopBytes(c, e)[k := Bytes(msgs)] else HopBytes(c, e)
  {
    hide Bytes;
    var c' := c.WithWire(d, k, msgs);
    assert forall j | 0 <= j < |c.ids| :: c'.Wire(e, j) == if e == d && j == k then msgs else c.Wire(e, j);
  }

  /** An end that writes: the message enters the first hop, or the line goes down. */
  lemma WriteEnters(c: Chain, d: Dir, payload: bytes, bad: set<StreamId>)
    requires c.Open() && WriteAt(c, d, payload, bad).Open()
    ensures WriteAt(c, d, payload, bad) == c.WithWire(d, 0, c.Wire(d, 0) + [Data(c.sid, payload)])
  {
    var (i, m) := (c.At(d, 0), Data(c.sid, payload));
    assert c.Live(i);
    assert WriteAt(c, d, payload, bad).Live(i);
    var s := c.Onward(d, 0);
    assert PairOf(c.nodes[i], c.sid) == [s];
    assert [s][0] == s && [s][1..] == [];
    assert s.id !in bad;
    assert WriteRound([s], m, None, bad) == [Send(s, m)];
    PostOnward(c, d, 0, m);
    assert c.(nodes := c.nodes[i := c.nodes[i]]) == c;
  }

  lemma ActSame(c: Chain, i: nat, sends: seq<Send>)
    requires c.Sized() && i < |c.nodes|
    ensures Act(c, i, Effect(c.nodes[i], sends, [])) == Post(c, i, sends)
  {
    assert c.(nodes := c.nodes[i := c.nodes[i]]) == c;
  }

  lemma ArriveData(c: Chain, d: Dir, k: nat, bad: set<StreamId>)
    requires c.Sized() && k < |c.ids| && c.Wire(d, k) != [] && c.Wire(d, k)[0].Data? && Travels(c.Wire(d, k)[0], c.sid)
    ensures var (i, w) := (c.At(d, k + 1), c.Wire(d, k));
            Arrive(c, d, k, bad)
            == Act(c.WithWire(d, k, w[1..]), i, HandleData(c.nodes[i], c.sid, w[0].payload, c.Backward(d, k + 1), bad))
  {
    hide HandleData, Act;
  }

  lemma OtherWire(c: Chain, d: Dir, k: nat, w: seq<Msg>, j: nat)
    requires c.Sized() && k < |c.ids| && j < |c.ids| && j != k
    ensures c.WithWire(d, k, w).Wire(d, j) == c.Wire(d, j)
  {
  }

  /** Data arriving in the middle moves one hop on in the same direction, or the line goes down. */
  lemma ArriveMoves(c: Chain, d: Dir, k: nat, bad: set<StreamId>)
    requires c.Sized() && c.Simple() && k + 1 < |c.ids| && c.Wire(d, k) != [] && c.Live(c.At(d, k + 1))
    requires c.Wire(d, k)[0].Data? && Travels(c.Wire(d, k)[0], c.sid)
    ensures c.Onward(d, k + 1).id !in bad ==>
              Arrive(c, d, k, bad)
              == c.WithWire(d, k, c.Wire(d, k)[1..]).WithWire(d, k + 1, c.Wire(d, k + 1) + [c.Wire(d, k)[0]])
    ensures c.Onward(d, k + 1).id in bad ==> c.sid !in Arrive(c, d, k, bad).nodes[c.At(d, k + 1)].sessions
  {
    hide Arrive, HandleData, Chain.Live, Chain.WithWire, Chain.Wire, Act, Post, Chain.Onward, Chain.Backward;
    var (i, m) := (c.At(d, k + 1), c.Wire(d, k)[0]);
    RoutesOnward(c, d, k + 1, m.payload, bad);
    OtherWire(c, d, k, c.Wire(d, k)[1..], k + 1);
    ArriveData(c, d, k, bad);
    var popped := c.WithWire(d, k, c.Wire(d, k)[1..]);
    if c.Onward(d, k + 1).id !in bad {
      ActSame(popped, i, [Send(c.Onward(d, k + 1), m)]);
      OnwardAlike(c, popped, d, k + 1);
      PostOnward(popped, d, k + 1, m);
    }
  }

  lemma OnwardAlike(c: Chain, c': Chain, d: Dir, k: nat)
    requires c.Sized() && c'.Sized() && c'.ids == c.ids && c'.peers == c.peers && k < |c.ids|
    ensures c'.Onward(d, k) == c.Onward(d, k) && c'.At(d, k) == c.At(d, k) && (c.Simple() ==> c'.Simple())
  {
  }

  /** Data arriving at the far end joins the buffer there. */
  lemma ArriveLands(c: Chain, d: Dir, bad: set<StreamId>)
    requires var k := |c.ids| - 1; c.Open() && c.Wire(d, k) != [] && c.Wire(d, k)[0].Data?
    ensures var k := |c.ids| - 1;
            var i := c.At(d, k + 1);
            var conn := c.nodes[i].circuits[c.sid];
            var grown := conn.(inbox := conn.inbox + c.Wire(d, k)[0].payload);
            Arrive(c, d, k, bad)
            == c.WithWire(d, k, c.Wire(d, k)[1..])
               .(nodes := c.nodes[i := c.nodes[i].(circuits := c.nodes[i].circuits[c.sid := grown])])
  {
    var k := |c.ids| - 1;
    assert c.Live(c.At(d, k + 1));
    assert Travels(c.Wire(d, k)[0], c.sid);
    EndReceives(c, d, c.Wire(d, k)[0].payload, bad);
  }

  lemma InboxOf(c: Chain, c': Chain, d: Dir, i: nat, n: Node)
    requires c.Open() && c'.Open() && c'.ids == c.ids && c'.sid == c.sid && i < |c.nodes|
    requires c'.nodes == c.nodes[i := n] && SameInbox(c.nodes[i], n, c.sid)
    ensures Inbox(c', d) == Inbox(c, d)
  {
  }

  lemma BytesHead(msgs: seq<Msg>)
    requires msgs != []
    ensures Bytes(msgs) == (if msgs[0].Data? then msgs[0].payload else []) + Bytes(msgs[1..])
  {
  }

  lemma WireQueued(c: Chain, d: Dir, k: nat, msgs: seq<Msg>, e: Dir)
    requires c.Sized() && k < |c.ids|
    ensures Queued(c.WithWire(d, k, msgs), e)
         == if e == d then Queued(c, e)[k := Payloads(msgs)] else Queued(c, e)
  {
    hide Payloads;
    var c' := c.WithWire(d, k, msgs);
    assert forall j | 0 <= j < |c.ids| :: c'.Wire(e, j) == if e == d && j == k then msgs else c.Wire(e, j);
  }

  lemma PopQueued(c: Chain, d0: Dir, k: nat, d: Dir)
    requires c.Sized() && k < |c.ids| && c.Wire(d0, k) != [] && !c.Wire(d0, k)[0].Data?
    ensures Queued(c.WithWire(d0, k, c.Wire(d0, k)[1..]), d) == Queued(c, d)
  {
    WireQueued(c, d0, k, c.Wire(d0, k)[1..], d);
    assert Payloads(c.Wire(d0, k)) == Payloads(c.Wire(d0, k)[1..]);
  }

  lemma NodesKeepQueued(c: Chain, nodes: seq<Node>, d: Dir)
    requires c.Sized() && |nodes| == |c.nodes|
    ensures Queued(c.(nodes := nodes), d) == Queued(c, d)
  {
    hide Payloads;
  }

  lemma ActQueued(c: Chain, i: nat, e: Effect, d: Dir)
    requires c.Sized() && i < |c.nodes| && !CarriesData(e.sends)
    ensures Queued(Act(c, i, e), d) == Queued(c, d) && HopBytes(Act(c, i, e), d) == HopBytes(c, d)
  {
    var placed := c.(nodes := c.nodes[i := e.node]);
    PostQueued(placed, i, e.sends, d);
    NodesKeepQueued(c, placed.nodes, d);
    hide Queued, HopBytes, Post;
    SameQueues(c, Act(c, i, e), d);
  }

  /** A message that is not Data moves no payload. */
  lemma ArriveOtherBytes(c: Chain, d0: Dir, k: nat, bad: set<StreamId>, d: Dir)
    requires c.Sized() && k < |c.ids| && c.Wire(d0, k) != []
    requires !c.Wire(d0, k)[0].Data? && Travels(c.Wire(d0, k)[0], c.sid)
    ensures Queued(Arrive(c, d0, k, bad), d) == Queued(c, d)
    ensures HopBytes(Arrive(c, d0, k, bad), d) == HopBytes(c, d)
  {
    hide Handle, Act, Bytes, Queued, HopBytes, CarriesData, SameInbox, Chain.Wire, Chain.WithWire, Chain.Backward;
    var (i, m) := (c.At(d0, k + 1), c.Wire(d0, k)[0]);
    OthersNoData(c.nodes[i], m, c.Backward(d0, k + 1), c.sid, bad);
    PopQueued(c, d0, k, d);
    ActQueued(c.WithWire(d0, k, c.Wire(d0, k)[1..]), i, Handle(c.nodes[i], m, c.Backward(d0, k + 1), bad), d);
    SameQueues(c, Arrive(c, d0, k, bad), d);
  }

  lemma ArriveOtherConserves(t: Traffic, d0: Dir, k: nat, bad: set<StreamId>, d: Dir)
    requires t.chain.Open() && k < |t.chain.ids| && t.chain.Wire(d0, k) != [] && Conserved(t, d)
    requires !t.chain.Wire(d0, k)[0].Data? && Arrive(t.chain, d0, k, bad).Open()
    ensures Conserved(t.(chain := Arrive(t.chain, d0, k, bad)), d)
  {
    var c := t.chain;
    var (i, m) := (c.At(d0, k + 1), c.Wire(d0, k)[0]);
    OpenHead(c, d0, k);
    ArriveOtherBytes(c, d0, k, bad, d);
    OthersNoData(c.nodes[i], m, c.Backward(d0, k + 1), c.sid, bad);
    hide Handle, Post, HopBytes;
    InboxOf(c, Arrive(c, d0, k, bad), d, i, Handle(c.nodes[i], m, c.Backward(d0, k + 1), bad).node);
  }

  lemma HopAt(c: Chain, d: Dir, k: nat)
    requires c.Sized() && k < |c.ids|
    ensures HopBytes(c, d)[k] == Bytes(c.Wire(d, k))
  {
    hide Bytes;
  }

  /** Moving the head of one wire to the end of the next. */
  lemma MoveBytes(c: Chain, d0: Dir, k: nat, d: Dir)
    requires c.Sized() && k + 1 < |c.ids| && c.Wire(d0, k) != [] && c.Wire(d0, k)[0].Data?
    ensures var (w, hops) := (c.Wire(d0, k), HopBytes(c, d));
            HopBytes(c.WithWire(d0, k, w[1..]).WithWire(d0, k + 1, c.Wire(d0, k + 1) + [w[0]]), d)
            == if d == d0 then hops[k := Bytes(w[1..])][k + 1 := hops[k + 1] + w[0].payload] else hops
  {
    hide Bytes, HopBytes, Chain.WithWire, Chain.Wire;
    var (w, next) := (c.Wire(d0, k), c.Wire(d0, k + 1));
    HopAt(c, d0, k + 1);
    WireBytes(c, d0, k, w[1..], d);
    WireBytes(c.WithWire(d0, k, w[1..]), d0, k + 1, next + [w[0]], d);
    BytesAppend(next, w[0]);
  }

  /** Where Data goes in the middle of the line. */
  lemma ArriveMidBytes(c: Chain, d0: Dir, k: nat, bad: set<StreamId>, d: Dir)
    requires c.Open() && k + 1 < |c.ids| && c.Wire(d0, k) != [] && c.Wire(d0, k)[0].Data?
        && Arrive(c, d0, k, bad).Open()
    ensures var (w, hops, c') := (c.Wire(d0, k), HopBytes(c, d), Arrive(c, d0, k, bad));
            && HopBytes(c', d)
               == (if d == d0 then hops[k := Bytes(w[1..])][k + 1 := hops[k + 1] + w[0].payload] else hops)
            && Inbox(c', d) == Inbox(c, d)
  {
    OpenFacts(c, c.At(d0, k + 1));
    OpenFacts(Arrive(c, d0, k, bad), c.At(d0, k + 1));
    OpenHead(c, d0, k);
    hide Arrive, Chain.Open, Chain.Live, Chain.Simple, Bytes, HopBytes, Chain.Wire, Chain.WithWire;
    ArriveMoves(c, d0, k, bad);
    MoveBytes(c, d0, k, d);
  }

  lemma NodesKeepBytes(c: Chain, nodes: seq<Node>, d: Dir)
    requires c.Sized() && |nodes| == |c.nodes|
    ensures HopBytes(c.(nodes := nodes), d) == HopBytes(c, d)
  {
    hide Bytes;
  }

  /** Where Data goes at the far end. */
  lemma ArriveEndBytes(c: Chain, d0: Dir, bad: set<StreamId>, d: Dir)
    requires var k := |c.ids| - 1; c.Open() && c.Wire(d0, k) != [] && c.Wire(d0, k)[0].Data?
    ensures var k := |c.ids| - 1;
            var (w, hops, c') := (c.Wire(d0, k), HopBytes(c, d), Arrive(c, d0, k, bad));
            && HopBytes(c', d) == (if d == d0 then hops[k := Bytes(w[1..])] else hops)
            && Inbox(c', d) == if d == d0 then Inbox(c, d) + w[0].payload else Inbox(c, d)
  {
    var k := |c.ids| - 1;
    var (i, w) := (c.At(d0, k + 1), c.Wire(d0, k));
    ArriveLands(c, d0, bad);
    WireBytes(c, d0, k, w[1..], d);
    hide Arrive, Bytes, HopBytes, Chain.Wire, Chain.Travelling, Chain.Simple;
    NodesKeepBytes(c.WithWire(d0, k, w[1..]), Arrive(c, d0, k, bad).nodes, d);
  }

  lemma ArriveDataConserves(t: Traffic, d0: Dir, k: nat, bad: set<StreamId>, d: Dir)
    requires t.chain.Open() && k < |t.chain.ids| && t.chain.Wire(d0, k) != [] && Conserved(t, d)
    requires t.chain.Wire(d0, k)[0].Data? && Arrive(t.chain, d0, k, bad).Open()
    ensures Conserved(t.(chain := Arrive(t.chain, d0, k, bad)), d)
  {
    var c := t.chain;
    assert c.Sized();
    var (c', w, hops) := (Arrive(c, d0, k, bad), c.Wire(d0, k), HopBytes(c, d));
    HopAt(c, d0, k);
    BytesHead(w);
    assert Balanced(t.Sent(d), t.Got(d), Inbox(c, d), hops) && |hops| == |c.ids|;
    var (head, rest) := (w[0].payload, Bytes(w[1..]));
    assert d == d0 ==> hops[k] == head + rest;
    if k + 1 < |c.ids| {
      ArriveMidBytes(c, d0, k, bad, d);
      assert Inbox(c', d) == Inbox(c, d);
      assert HopBytes(c', d) == if d == d0 then hops[k := rest][k + 1 := hops[k + 1] + head] else hops;
      hide *;
      if d == d0 { BalanceMove(t.Sent(d), t.Got(d), Inbox(c, d), hops, k, head, rest); }
    } else {
      ArriveEndBytes(c, d0, bad, d);
      assert Inbox(c', d) == if d == d0 then Inbox(c, d) + head else Inbox(c, d);
      assert HopBytes(c', d) == if d == d0 then hops[k := rest] else hops;
      assert k == |hops| - 1;
      hide *;
      if d == d0 { BalanceLand(t.Sent(d), t.Got(d), Inbox(c, d), hops, head, rest); }
    }
    ConservedOn(t, c', d);
  }

  lemma ConservedOn(t: Traffic, c': Chain, d: Dir)
    requires c'.Sized() && Balanced(t.Sent(d), t.Got(d), Inbox(c', d), HopBytes(c', d))
    ensures Conserved(t.(chain := c'), d)
  {
  }

  lemma WriteConserves(t: Traffic, d0: Dir, payload: bytes, bad: set<StreamId>, t': Traffic, d: Dir)
    requires Step(t, Writes(d0, payload, bad), t') && Conserved(t, d)
    ensures Conserved(t', d)
  {
    var c := t.chain;
    WriteEnters(c, d0, payload, bad);
    hide Chain.Open, WriteAt, Bytes, Balanced;
    var w := c.Wire(d0, 0);
    BytesAppend(w, Data(c.sid, payload));
    WireBytes(c, d0, 0, w + [Data(c.sid, payload)], d);
    if d == d0 {
      BalanceWrite(t.Sent(d), t.Got(d), Inbox(c, d), HopBytes(c, d), payload);
    }
  }

  /** Every step on an open line conserves the bytes of both directions. */
  lemma StepConserves(t: Traffic, ev: Event, t': Traffic, d: Dir)
    requires Step(t, ev, t') && Conserved(t, d)
    ensures t'.chain.Sized() && Conserved(t', d)
  {
    hide Conserved, Arrive, Act, Chain.Open, SendRelay, SameInbox;
    var c := t.chain;
    StepSized(t, ev, t');
    match ev
    case Writes(d0, payload, bad) => WriteConserves(t, d0, payload, bad, t', d);
    case Reads(d0, room) => ReadConserves(t, d0, room, t', d);
    case Arrives(d0, k, bad) =>
      if c.Wire(d0, k)[0].Data? {
        ArriveDataConserves(t, d0, k, bad, d);
      } else {
        ArriveOtherConserves(t, d0, k, bad, d);
      }
    case Signals(i, msg, bad) => SignalConserves(t, i, msg, bad, t', d);
    case Elsewhere(i, n) => ElsewhereConserves(t, i, n, t', d);
  }

  lemma StepSized(t: Traffic, ev: Event, t': Traffic)
    requires Step(t, ev, t')
    ensures t.chain.Sized() && t'.chain.Sized()
  {
    hide Arrive, Act, SendRelay, WriteAt;
  }

  lemma ReadConserves(t: Traffic, d0: Dir, room: nat, t': Traffic, d: Dir)
    requires Step(t, Reads(d0, room), t') && Conserved(t, d)
    ensures t'.chain.Sized() && Conserved(t', d)
  {
    hide Bytes, Balanced;
    var c := t.chain;
    NodesKeepBytes(c, t'.chain.nodes, d);
    if d == d0 {
      BalanceRead(t.Sent(d), t.Got(d), Inbox(c, d), HopBytes(c, d), Min(room, |Inbox(c, d)|));
    }
  }

  lemma SignalConserves(t: Traffic, i: nat, msg: Msg, bad: set<StreamId>, t': Traffic, d: Dir)
    requires Step(t, Signals(i, msg, bad), t') && Conserved(t, d)
    ensures t'.chain.Sized() && Conserved(t', d)
  {
    hide Bytes, Post, Broadcast, HopBytes, Chain.Live, Chain.Travelling, CarriesData;
    var c := t.chain;
    BroadcastNoData(c.nodes[i], c.sid, msg, None, bad);
    ActQueued(c, i, SendRelay(c.nodes[i], c.sid, msg, bad), d);
    InboxOf(c, t'.chain, d, i, SendRelay(c.nodes[i], c.sid, msg, bad).node);
  }

  lemma ElsewhereConserves(t: Traffic, i: nat, n: Node, t': Traffic, d: Dir)
    requires Step(t, Elsewhere(i, n), t') && Conserved(t, d)
    ensures t'.chain.Sized() && Conserved(t', d)
  {
    hide Bytes, Inbox, HopBytes, Chain.Live, Chain.Travelling;
    var c := t.chain;
    InboxOf(c, t'.chain, d, i, n);
    NodesKeepBytes(c, t'.chain.nodes, d);
  }

  predicate IsRun(states: seq<Traffic>, events: seq<Event>) {
    && |states| == |events| + 1
    && forall i :: 0 <= i < |events| ==> Step(states[i], events[i], states[i + 1])
  }

  /**
    Main result. From any state of an open line in which the books balance, along any run that
    keeps the line open, what was written at one end equals, in order, what was read at the
    other, plus its buffer, plus what is in flight hop by hop.
  */
  lemma {:induction false} RunConserves(states: seq<Traffic>, events: seq<Event>, d: Dir)
    requires IsRun(states, events) && states[0].chain.Open() && Conserved(states[0], d)
    ensures forall t | t in states :: t.chain.Sized() && Conserved(t, d)
  {
    hide Step, Conserved;
    if |events| > 0 {
      var (before, last) := (states[..|events|], |events| - 1);
      assert forall i :: 0 <= i < last ==> Step(before[i], events[..last][i], before[i + 1]);
      RunConserves(before, events[..last], d);
      assert before[last] in before;
      assert Step(states[last], events[last], states[last + 1]);
      StepConserves(states[last], events[last], states[last + 1], d);
      assert states == before + [states[last + 1]];
    }
  }

  /** In particular nothing arrives that was not written, and nothing arrives out of order. */
  lemma ReadIsPrefixOfWritten(states: seq<Traffic>, events: seq<Event>, d: Dir)
    requires IsRun(states, events) && states[0].chain.Open() && Conserved(states[0], d)
    ensures var t := states[|events|]; t.Got(d) <= t.Sent(d)
  {
    RunConserves(states, events, d);
    assert states[|events|] in states;
  }

  // ----- one message, end to end -----

  /** Lets the head of the k-th wire travel on until it reaches the end; the distance left decreases. */
  function Ferry(c: Chain, d: Dir, k: nat): Chain
    requires c.Sized() && k < |c.ids|
    decreases |c.ids| - k
  {
    if c.Wire(d, k) == [] then c
    else if k + 1 == |c.ids| then Arrive(c, d, k, {})
    else Ferry(Arrive(c, d, k, {}), d, k + 1)
  }

  /** The chain after payload p has joined the buffer at the far end of direction d. */
  function Landed(c: Chain, d: Dir, p: bytes): Chain
    requires c.Sized() && c.sid in c.nodes[c.At(d, |c.ids|)].circuits
  {
    var i := c.At(d, |c.ids|);
    var conn := c.nodes[i].circuits[c.sid];
    c.(nodes := c.nodes[i := c.nodes[i].(circuits := c.nodes[i].circuits[c.sid := conn.(inbox := conn.inbox + p)])])
  }

  /** A travelling message may be put on any wire of an open line. */
  lemma WithWireOpen(c: Chain, d: Dir, k: nat, w: seq<Msg>)
    requires c.Open() && k < |c.ids| && forall j :: 0 <= j < |w| ==> Travels(w[j], c.sid)
    ensures c.WithWire(d, k, w).Open()
  {
    var c' := c.WithWire(d, k, w);
    assert forall i | 0 <= i < |c.nodes| :: c.Live(i) ==> c'.Live(i);
    hide Chain.Live, Chain.Simple;
  }

  lemma WireBack(c: Chain, d: Dir, k: nat, m: Msg)
    requires c.Sized() && k + 1 < |c.ids| && c.Wire(d, k + 1) == []
    ensures c.WithWire(d, k, []).WithWire(d, k + 1, [m]).WithWire(d, k + 1, []) == c.WithWire(d, k, [])
  {
    var c' := c.WithWire(d, k, []).WithWire(d, k + 1, [m]).WithWire(d, k + 1, []);
    if d.Rightward? {
      assert c'.right == c.right[k := []];
    } else {
      var a := c.Over(d, k);
      assert c'.left == c.left[a := []];
    }
  }

  lemma SwapWires(c: Chain, d: Dir, k: nat, m: Msg)
    requires c.Open() && k + 1 < |c.ids| && c.Wire(d, k) == [m] && c.Wire(d, k + 1) == [] && Travels(m, c.sid)
    ensures var c' := c.WithWire(d, k, []).WithWire(d, k + 1, [m]);
            && c'.Open() && c'.Wire(d, k + 1) == [m]
            && (forall j | k + 1 < j < |c.ids| :: c'.Wire(d, j) == c.Wire(d, j))
            && c'.WithWire(d, k + 1, []) == c.WithWire(d, k, [])
  {
    assert c.Sized();
    hide Chain.Open;
    WithWireOpen(c, d, k, []);
    WithWireOpen(c.WithWire(d, k, []), d, k + 1, [m]);
    WireBack(c, d, k, m);
  }

  /** One hop of a message that is alone on its direction. */
  lemma FerryStep(c: Chain, d: Dir, k: nat, p: bytes)
    requires c.Open() && k + 1 < |c.ids| && c.Wire(d, k) == [Data(c.sid, p)] && c.Wire(d, k + 1) == []
    ensures var c' := c.WithWire(d, k, []).WithWire(d, k + 1, [Data(c.sid, p)]);
            Arrive(c, d, k, {}) == c'
  {
    var m := Data(c.sid, p);
    assert [m][1..] == [] && [] + [m] == [m];
    OpenFacts(c, c.At(d, k + 1));
    ArriveMoves(c, d, k, {});
  }

  lemma FerryLands(c: Chain, d: Dir, p: bytes)
    requires var k := |c.ids| - 1; c.Open() && c.Wire(d, k) == [Data(c.sid, p)]
    ensures Arrive(c, d, |c.ids| - 1, {}) == Landed(c.WithWire(d, |c.ids| - 1, []), d, p)
  {
    assert [Data(c.sid, p)][1..] == [];
    ArriveLands(c, d, {});
  }

  /**
    A Data message alone on its direction of an open line is delivered to the far end exactly
    once and unchanged; no other node, no other wire and nothing in the opposite direction moves.
  */
  lemma {:induction false} DeliveredOnce(c: Chain, d: Dir, k: nat, p: bytes)
    requires c.Open() && k < |c.ids| && AloneFrom(c, d, k, p)
    ensures Ferry(c, d, k) == Landed(c.WithWire(d, k, []), d, p)
    decreases |c.ids| - k
  {
    hide *;
    if k + 1 == |c.ids| {
      FerryEnds(c, d, p);
    } else {
      var c' := FerryOn(c, d, k, p);
      DeliveredOnce(c', d, k + 1, p);
    }
  }

  lemma FerryEnds(c: Chain, d: Dir, p: bytes)
    requires c.Open() && AloneFrom(c, d, |c.ids| - 1, p)
    ensures Ferry(c, d, |c.ids| - 1) == Landed(c.WithWire(d, |c.ids| - 1, []), d, p)
  {
    assert c.Sized();
    hide Arrive, Landed, Chain.Open;
    FerryLands(c, d, p);
  }

  lemma FerryOn(c: Chain, d: Dir, k: nat, p: bytes) returns (c': Chain)
    requires c.Open() && k + 1 < |c.ids| && AloneFrom(c, d, k, p)
    ensures c'.Open() && |c'.ids| == |c.ids| && AloneFrom(c', d, k + 1, p) && Ferry(c, d, k) == Ferry(c', d, k + 1)
    ensures c'.sid in c'.nodes[c'.At(d, |c'.ids|)].circuits
    ensures c.sid in c.nodes[c.At(d, |c.ids|)].circuits
    ensures Landed(c'.WithWire(d, k + 1, []), d, p) == Landed(c.WithWire(d, k, []), d, p)
  {
    assert c.Sized() && c.sid in c.nodes[c.At(d, |c.ids|)].circuits;
    hide Arrive, Ferry, Landed, Chain.Open, Chain.Wire, Chain.WithWire, AloneFrom;
    AloneHere(c, d, k, p);
    FerryTurn(c, d, k);
    c' := c.WithWire(d, k, []).WithWire(d, k + 1, [Data(c.sid, p)]);
    FerryStep(c, d, k, p);
    AloneNext(c, d, k, p);
  }

  /** The k-th wire carries just this payload, and the wires after it nothing. */
  predicate AloneFrom(c: Chain, d: Dir, k: nat, p: bytes)
    requires c.Sized() && k < |c.ids|
  {
    c.Wire(d, k) == [Data(c.sid, p)] && forall j | k < j < |c.ids| :: c.Wire(d, j) == []
  }

  lemma AloneHere(c: Chain, d: Dir, k: nat, p: bytes)
    requires c.Sized() && k < |c.ids| && AloneFrom(c, d, k, p)
    ensures c.Wire(d, k) == [Data(c.sid, p)] && (k + 1 < |c.ids| ==> c.Wire(d, k + 1) == [])
  {
  }

  /** One hop on, the payload is alone again, and only its own wire was touched. */
  lemma AloneNext(c: Chain, d: Dir, k: nat, p: bytes)
    requires c.Open() && k + 1 < |c.ids| && AloneFrom(c, d, k, p)
    ensures var c' := c.WithWire(d, k, []).WithWire(d, k + 1, [Data(c.sid, p)]);
            c'.Open() && AloneFrom(c', d, k + 1, p) && c'.WithWire(d, k + 1, []) == c.WithWire(d, k, [])
  {
    assert c.Sized();
    hide Chain.Open, Chain.Wire, Chain.WithWire;
    SwapWires(c, d, k, Data(c.sid, p));
  }

  lemma FerryTurn(c: Chain, d: Dir, k: nat)
    requires c.Sized() && k < |c.ids| && c.Wire(d, k) != []
    ensures Ferry(c, d, k) == if k + 1 == |c.ids| then Arrive(c, d, k, {}) else Ferry(Arrive(c, d, k, {}), d, k + 1)
  {
    hide Arrive;
  }
}
