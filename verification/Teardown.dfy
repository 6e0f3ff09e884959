/**
  Teardown of a line of any length: Disconnect flooding (relay.go handleDisconnect, manager.go
  ForwardRelay, SendDisconnectRelay, CloseCircuit, RemoveSession) together with the notices that
  a stream was closed (actor.go), under every schedule and every pattern of failed writes.
*/
module Teardown {
  import opened Basics
  import opened Relay
  import opened NodeFacts
  import opened LineModel
  import Conservation

  /** Notices still to be handled: stream `id` was closed, to be told to that peer. */
  datatype Falling = Falling(chain: Chain, notices: set<(StreamId, Peer)>)

  datatype Event =
    | Closes(i: nat, bad: set<StreamId>)
    | Writes(i: nat, payload: bytes, bad: set<StreamId>)
    | Secures(i: nat, x: Secured)
    | Arrives(d: Dir, k: nat, bad: set<StreamId>)
    | Lost(d: Dir, k: nat)
    | Notified(i: nat, id: StreamId, bad: set<StreamId>)

  /** Closing a stream is noticed at both of its ends. */
  function NoticesOf(me: Peer, shut: seq<Stream>): set<(StreamId, Peer)> {
    if shut == [] then {} else {(shut[0].id, me), (shut[0].id, shut[0].remote)} + NoticesOf(me, shut[1..])
  }

  function ActAt(f: Falling, i: nat, e: Effect): Falling
    requires f.chain.Sized() && i < |f.chain.nodes|
  {
    Falling(Act(f.chain, i, e), f.notices + NoticesOf(f.chain.peers[i], e.shut))
  }

  /** The head of the k-th wire of direction d is gone. */
  function Popped(f: Falling, d: Dir, k: nat): (f': Falling)
    requires f.chain.Sized() && k < |f.chain.ids| && f.chain.Wire(d, k) != []
    ensures f'.chain.Sized() && f'.chain.sid == f.chain.sid && f'.chain.peers == f.chain.peers
    ensures f'.chain.ids == f.chain.ids && f'.chain.nodes == f.chain.nodes && f'.notices == f.notices
  {
    f.(chain := f.chain.WithWire(d, k, f.chain.Wire(d, k)[1..]))
  }

  predicate Enabled(f: Falling, ev: Event)
    requires f.chain.Sized()
  {
    match ev
    case Closes(i, _) => i < |f.chain.nodes| && f.chain.sid in f.chain.nodes[i].sessions
    case Writes(i, _, _) => i < |f.chain.nodes|
    case Secures(i, _) => i < |f.chain.nodes| && f.chain.sid in f.chain.nodes[i].sessions
    case Arrives(d, k, _) => k < |f.chain.ids| && f.chain.Wire(d, k) != []
    case Lost(d, k) => k < |f.chain.ids| && f.chain.Wire(d, k) != []
    case Notified(i, id, _) => i < |f.chain.nodes| && (id, f.chain.peers[i]) in f.notices
  }

  function After(f: Falling, ev: Event): Falling
    requires f.chain.Sized() && Enabled(f, ev)
  {
    var c := f.chain;
    match ev
    case Closes(i, bad) => ActAt(f, i, CloseCircuit(c.nodes[i], c.sid, bad))
    case Writes(i, payload, bad) => ActAt(f, i, SendRelay(c.nodes[i], c.sid, Data(c.sid, payload), bad))
    case Secures(i, x) => ActAt(f, i, Quiet(c.nodes[i].(secured := c.nodes[i].secured[c.sid := x])))
    case Arrives(d, k, bad) =>
      var i := c.At(d, k + 1);
      ActAt(Popped(f, d, k), i, HeadEffect(c, d, k, bad))
    case Lost(d, k) => Popped(f, d, k)
    case Notified(i, id, bad) =>
      ActAt(f.(notices := f.notices - {(id, c.peers[i])}), i, HandleStreamClosed(c.nodes[i], id, bad))
  }

  // ----- one node -----

  /** Nothing of the session is left. */
  predicate Cleared(n: Node, sid: Sid) {
    sid !in n.sessions && sid !in n.circuits && sid !in n.secured && sid !in n.probes
  }

  /** A node that lost its session keeps no other trace of it. */
  predicate Tidy(n: Node, sid: Sid) {
    sid in n.sessions || Cleared(n, sid)
  }

  /** A node is touched only in what concerns the session, and never gains it. */
  predicate Fades(n: Node, n': Node, sid: Sid) {
    OthersSame(n, n', sid) && (sid in n'.sessions ==> sid in n.sessions)
  }

  /**
    What an effect on behalf of `sid` does to a node: the session stays and no stream is closed,
    or everything about it goes and exactly its streams are closed. It writes at most four
    messages, to streams of the pair.
  */
  predicate Orderly(n: Node, e: Effect, sid: Sid) {
    && OthersSame(n, e.node, sid) && AllTravel(e.sends, sid) && Within(e.sends, PairOf(n, sid)) && |e.sends| <= 4
    && if sid in e.node.sessions then
         sid in n.sessions && e.node.sessions[sid] == n.sessions[sid] && e.shut == []
       else Cleared(e.node, sid) && e.shut == PairOf(n, sid) && !CarriesProbe(e.sends)
  }

  lemma RoundSize(pair: seq<Stream>, msg: Msg, skip: Option<Peer>, bad: set<StreamId>)
    ensures |WriteRound(pair, msg, skip, bad)| <= |pair|
  {
  }

  lemma FarewellSize(pair: seq<Stream>, sid: Sid, bad: set<StreamId>)
    ensures |Farewells(pair, sid, bad)| <= |pair|
  {
  }

  lemma CloseOrderly(n: Node, sid: Sid, bad: set<StreamId>)
    requires |PairOf(n, sid)| <= 2
    ensures Orderly(n, CloseCircuit(n, sid, bad), sid) && |CloseCircuit(n, sid, bad).sends| <= 2
    ensures CloseCircuit(n, sid, bad).node.streams == n.streams
  {
    CloseFacts(n, sid, bad);
    FarewellSize(PairOf(n, sid), sid, bad);
  }

  lemma BroadcastOrderly(n: Node, sid: Sid, msg: Msg, skip: Option<Peer>, bad: set<StreamId>)
    requires |PairOf(n, sid)| <= 2 && Travels(msg, sid) && !msg.Probe? && (sid in n.sessions ==> PairOf(n, sid) != [])
    ensures var e := Broadcast(n, sid, msg, skip, bad); Orderly(n, e, sid) && e.node.streams == n.streams
  {
    CloseOrderly(n, sid, bad);
    BroadcastFacts(n, sid, msg, skip, bad);
    RoundSize(PairOf(n, sid), msg, skip, bad);
  }

  lemma PassOnOrderly(n: Node, sid: Sid, msg: Msg, from: StreamId, closeOnError: bool, bad: set<StreamId>)
    requires |PairOf(n, sid)| <= 2 && Travels(msg, sid) && sid in n.sessions
    ensures var e := PassOn(n, sid, msg, from, closeOnError, bad); Orderly(n, e, sid) && e.node.streams == n.streams
  {
    CloseOrderly(n, sid, bad);
  }

  lemma DisconnectOrderly(n: Node, sid: Sid, from: Stream, bad: set<StreamId>)
    requires |PairOf(n, sid)| <= 2 && (sid in n.sessions ==> PairOf(n, sid) != [])
    ensures var e := HandleDisconnect(n, sid, from, bad);
            Orderly(n, e, sid) && sid !in e.node.sessions && e.node.streams == n.streams
  {
    BroadcastOrderly(n, sid, Disconnect(sid), Some(from.remote), bad);
    DisconnectFacts(n, sid, from, bad);
    hide Broadcast, AllTravel, Within, CarriesProbe;
    var told := Broadcast(n, sid, Disconnect(sid), Some(from.remote), bad);
    assert told.shut + [] == told.shut && told.sends + [] == told.sends;
  }

  /**
    What a surviving session does with a message: nothing, pass it to the partner stream, or,
    for a probe only, answer with at most two messages that are not probes.
  */
  predicate Calm(n: Node, e: Effect, msg: Msg, from: StreamId, sid: Sid)
    requires sid in n.sessions
  {
    || e.sends == []
    || (n.sessions[sid].GetPattern(from).Some? && e.sends == [Send(n.sessions[sid].GetPattern(from).value, msg)]
        && (msg.Data? || msg.Success? || msg.Probe?))
    || (msg.Probe? && |e.sends| <= 2 && !CarriesProbe(e.sends))
  }

  /** Handling `msg` on behalf of `sid`. */
  predicate Settles(n: Node, e: Effect, msg: Msg, from: StreamId, sid: Sid) {
    && Orderly(n, e, sid) && e.node.streams == n.streams
    && (sid in e.node.sessions ==> sid in n.sessions && Calm(n, e, msg, from, sid))
  }

  /** Touching nothing of the session but its circuit. */
  lemma QuietSettles(n: Node, n': Node, msg: Msg, from: StreamId, sid: Sid)
    requires Tidy(n, sid) && n' == n.(circuits := n'.circuits, probes := n'.probes)
    requires n'.circuits - {sid} == n.circuits - {sid} && n'.probes - {sid} == n.probes - {sid}
    requires sid in n.sessions || n' == n
    ensures Settles(n, Quiet(n'), msg, from, sid)
  {
  }

  lemma PassOnSettles(n: Node, sid: Sid, msg: Msg, from: StreamId, closeOnError: bool, bad: set<StreamId>)
    requires |PairOf(n, sid)| <= 2 && Travels(msg, sid) && sid in n.sessions
        && (msg.Data? || msg.Success? || msg.Probe?)
    ensures Settles(n, PassOn(n, sid, msg, from, closeOnError, bad), msg, from, sid)
  {
    PassOnOrderly(n, sid, msg, from, closeOnError, bad);
    hide Orderly, CloseCircuit;
    CloseGone(n, sid, bad);
  }

  lemma CloseGone(n: Node, sid: Sid, bad: set<StreamId>)
    ensures sid !in CloseCircuit(n, sid, bad).node.sessions
  {
  }

  lemma CloseSettles(n: Node, sid: Sid, msg: Msg, from: StreamId, bad: set<StreamId>)
    requires |PairOf(n, sid)| <= 2
    ensures Settles(n, CloseCircuit(n, sid, bad), msg, from, sid)
  {
    CloseOrderly(n, sid, bad);
    CloseGone(n, sid, bad);
    hide Orderly, CloseCircuit;
  }

  /** The joint's answer to a matching probe. */
  lemma AnswerSettles(n: Node, sid: Sid, msg: Msg, from: StreamId, bad: set<StreamId>)
    requires |PairOf(n, sid)| <= 2 && sid in n.sessions && PairOf(n, sid) != [] && msg.Probe?
    ensures Settles(n, SendRelay(n, sid, Success(sid), bad), msg, from, sid)
  {
    BroadcastOrderly(n, sid, Success(sid), None, bad);
    BroadcastFacts(n, sid, Success(sid), None, bad);
    KeptFew(n, sid, Success(sid), bad);
    hide Orderly, Broadcast;
  }

  /** A node that keeps its session, or had none, writes at most two messages. */
  lemma KeptFew(n: Node, sid: Sid, m: Msg, bad: set<StreamId>)
    requires |PairOf(n, sid)| <= 2 && (sid in n.sessions ==> PairOf(n, sid) != [])
    ensures var e := SendRelay(n, sid, m, bad);
            (sid in n.sessions <==> sid in e.node.sessions) ==> |e.sends| <= 2
  {
    RoundSize(PairOf(n, sid), m, None, bad);
    hide WriteRound;
  }

  lemma ProbeSettles(n: Node, sid: Sid, rand: bytes, from: Stream, bad: set<StreamId>)
    requires Tidy(n, sid) && |PairOf(n, sid)| <= 2 && (sid in n.sessions ==> PairOf(n, sid) != [])
    ensures Settles(n, HandleProbe(n, sid, rand, from, bad), Probe(sid, rand), from.id, sid)
  {
    hide Settles, SendRelay, CloseCircuit, PassOn;
    var msg := Probe(sid, rand);
    if sid in n.sessions && n.sessions[sid].role == Joint {
      CloseSettles(n, sid, msg, from.id, bad);
      AnswerSettles(n, sid, msg, from.id, bad);
      QuietSettles(n, n.(probes := n.probes[sid := rand]), msg, from.id, sid);
    } else {
      QuietSettles(n, n, msg, from.id, sid);
      if sid in n.sessions { PassOnSettles(n, sid, msg, from.id, false, bad); }
    }
  }

  /** Data and Success: buffered, noted, passed on or ignored. */
  lemma FlowSettles(n: Node, msg: Msg, from: Stream, sid: Sid, bad: set<StreamId>)
    requires Travels(msg, sid) && (msg.Data? || msg.Success?) && Tidy(n, sid) && |PairOf(n, sid)| <= 2
    ensures Settles(n, Handle(n, msg, from, bad), msg, from.id, sid)
  {
    hide Settles, CloseCircuit, PassOn;
    QuietSettles(n, n, msg, from.id, sid);
    if sid in n.sessions {
      PassOnSettles(n, sid, msg, from.id, msg.Data?, bad);
      if sid in n.circuits {
        var conn := n.circuits[sid];
        var conn' := if msg.Data? then conn.(inbox := conn.inbox + msg.payload) else conn.(ready := true);
        QuietSettles(n, n.(circuits := n.circuits[sid := conn']), msg, from.id, sid);
      }
    }
  }

  lemma DisconnectSettles(n: Node, sid: Sid, from: Stream, bad: set<StreamId>)
    requires Tidy(n, sid) && |PairOf(n, sid)| <= 2 && (sid in n.sessions ==> PairOf(n, sid) != [])
    ensures Settles(n, HandleDisconnect(n, sid, from, bad), Disconnect(sid), from.id, sid)
  {
    DisconnectOrderly(n, sid, from, bad);
    hide HandleDisconnect, Orderly;
  }

  /** Every handler of a travelling message keeps to this. */
  lemma HandleSettles(n: Node, msg: Msg, from: Stream, sid: Sid, bad: set<StreamId>)
    requires Travels(msg, sid) && Tidy(n, sid) && |PairOf(n, sid)| <= 2 && (sid in n.sessions ==> PairOf(n, sid) != [])
    ensures Settles(n, Handle(n, msg, from, bad), msg, from.id, sid)
  {
    hide Settles, HandleDisconnect, HandleProbe, Tidy;
    match msg
    case Wake => QuietSettles(n, n, msg, from.id, sid);
    case Malformed => QuietSettles(n, n, msg, from.id, sid);
    case Disconnect(_) => DisconnectSettles(n, sid, from, bad);
    case Data(_, _) => FlowSettles(n, msg, from, sid, bad);
    case Success(_) => FlowSettles(n, msg, from, sid, bad);
    case Probe(_, _) => ProbeSettles(n, sid, msg.rand, from, bad);
  }

  /** The notice that stream `id` was closed, at a node that has it bound to `sid` if at all. */
  lemma ClosedOrderly(n: Node, id: StreamId, sid: Sid, bad: set<StreamId>)
    requires Tidy(n, sid) && |PairOf(n, sid)| <= 2 && sid != UNBOUND && (id in n.streams ==> n.streams[id].sid == sid)
    ensures var e := HandleStreamClosed(n, id, bad);
            && Orderly(n, e, sid) && e.node.streams == n.streams - {id}
            && (id in n.streams ==> sid !in e.node.sessions)
            && (sid in e.node.sessions ==> e.sends == [])
  {
    CloseOrderly(n, sid, bad);
  }

  // ----- sums -----

  function Sum(s: seq<nat>): nat {
    if s == [] then 0 else s[0] + Sum(s[1..])
  }

  lemma {:induction false} SumUpdate(s: seq<nat>, i: nat, v: nat)
    requires i < |s|
    ensures Sum(s[i := v]) + s[i] == Sum(s) + v
  {
    if i == 0 {
      assert s[0 := v][1..] == s[1..];
    } else {
      assert s[i := v][1..] == s[1..][i - 1 := v];
      SumUpdate(s[1..], i - 1, v);
    }
  }

  // ----- the measure -----

  /** How much work a message with r hops to go can still cause on a line of h links. */
  function MsgLoad(m: Msg, r: nat, h: nat): nat {
    match m
    case Data(_, _) => r
    case Success(_) => r
    case Probe(_, _) => 2 * h + r
    case _ => 1
  }

  function WireLoad(w: seq<Msg>, r: nat, h: nat): nat {
    if w == [] then 0 else MsgLoad(w[0], r, h) + WireLoad(w[1..], r, h)
  }

  lemma WireLoadAppend(w: seq<Msg>, m: Msg, r: nat, h: nat)
    ensures WireLoad(w + [m], r, h) == WireLoad(w, r, h) + MsgLoad(m, r, h)
  {
    if w == [] {
      assert w + [m] == [m];
    } else {
      assert (w + [m])[1..] == w[1..] + [m];
      WireLoadAppend(w[1..], m, r, h);
    }
  }

  function Loads(c: Chain, d: Dir): (s: seq<nat>)
    requires c.Sized()
    ensures |s| == |c.ids|
  {
    seq(|c.ids|, k requires 0 <= k < |c.ids| => WireLoad(c.Wire(d, k), |c.ids| - k, |c.ids|))
  }

  function Load(c: Chain): nat
    requires c.Sized()
  {
    Sum(Loads(c, Rightward)) + Sum(Loads(c, Leftward))
  }

  function Alive(nodes: seq<Node>, sid: Sid): seq<nat> {
    seq(|nodes|, i requires 0 <= i < |nodes| => if sid in nodes[i].sessions then 1 else 0)
  }

  /** Each live node outweighs everything its fall can set in motion. */
  function Weigh(h: nat, alive: nat, load: nat, notices: nat): nat {
    (4 * h + 5) * alive + load + notices
  }

  lemma WeighFall(h: nat, alive: nat, load: nat, notices: nat, sends: nat, load': nat, notices': nat)
    requires alive > 0 && sends <= 4 && load' <= load + h * sends && notices' <= notices + 4
    ensures Weigh(h, alive - 1, load', notices') < Weigh(h, alive, load, notices)
  {
    assert h * sends <= h * 4;
    assert (4 * h + 5) * alive == (4 * h + 5) * (alive - 1) + (4 * h + 5);
  }

  function Rank(f: Falling): nat
    requires f.chain.Sized()
  {
    Weigh(|f.chain.ids|, Sum(Alive(f.chain.nodes, f.chain.sid)), Load(f.chain), |f.notices|)
  }

  /** Changing one wire changes the load by the difference of that wire's load. */
  lemma LoadWithWire(c: Chain, d: Dir, k: nat, w: seq<Msg>)
    requires c.Sized() && k < |c.ids|
    ensures var (r, h) := (|c.ids| - k, |c.ids|);
            Load(c.WithWire(d, k, w)) + WireLoad(c.Wire(d, k), r, h) == Load(c) + WireLoad(w, r, h)
  {
    var (r, h) := (|c.ids| - k, |c.ids|);
    var c' := c.WithWire(d, k, w);
    hide WireLoad, Sum;
    assert Loads(c', d) == Loads(c, d)[k := WireLoad(w, r, h)];
    assert Loads(c', Opposite(d)) == Loads(c, Opposite(d));
    SumUpdate(Loads(c, d), k, WireLoad(w, r, h));
  }

  /** Taking the head off a wire. */
  lemma LoadPop(c: Chain, d: Dir, k: nat)
    requires c.Sized() && k < |c.ids| && c.Wire(d, k) != []
    ensures Load(c.WithWire(d, k, c.Wire(d, k)[1..])) + MsgLoad(c.Wire(d, k)[0], |c.ids| - k, |c.ids|) == Load(c)
  {
    LoadWithWire(c, d, k, c.Wire(d, k)[1..]);
  }

  /** Writing onto the k-th wire of direction d. */
  lemma LoadPush(c: Chain, d: Dir, k: nat, m: Msg)
    requires c.Sized() && k < |c.ids|
    ensures Load(c.WithWire(d, k, c.Wire(d, k) + [m])) == Load(c) + MsgLoad(m, |c.ids| - k, |c.ids|)
  {
    LoadWithWire(c, d, k, c.Wire(d, k) + [m]);
    WireLoadAppend(c.Wire(d, k), m, |c.ids| - k, |c.ids|);
  }

  lemma LoadPostOne(c: Chain, i: nat, s: Send)
    requires c.Sized() && i < |c.nodes| && !s.msg.Probe?
    ensures Load(PostOne(c, i, s)) <= Load(c) + |c.ids|
  {
    if i < |c.ids| { LoadPush(c, Rightward, i, s.msg); }
    if i > 0 { LoadPush(c, Leftward, |c.ids| - i, s.msg); }
  }

  lemma {:induction false} LoadPost(c: Chain, i: nat, sends: seq<Send>)
    requires c.Sized() && i < |c.nodes| && !CarriesProbe(sends)
    ensures Load(Post(c, i, sends)) <= Load(c) + |c.ids| * |sends|
    decreases |sends|
  {
    hide Load, PostOne;
    if sends != [] {
      var (h, n) := (|c.ids|, |sends| - 1);
      assert !sends[0].msg.Probe?;
      LoadPostOne(c, i, sends[0]);
      LoadPost(PostOne(c, i, sends[0]), i, sends[1..]);
      assert h * |sends| == h * n + h;
    }
  }

  lemma LoadNodes(c: Chain, nodes: seq<Node>)
    requires c.Sized() && |nodes| == |c.nodes|
    ensures c.(nodes := nodes).Sized() && Load(c.(nodes := nodes)) == Load(c)
  {
    assert Loads(c.(nodes := nodes), Rightward) == Loads(c, Rightward);
    assert Loads(c.(nodes := nodes), Leftward) == Loads(c, Leftward);
  }

  // ----- the invariant of a falling line -----

  /** Line streams in the node's index belong to the session, and a live node has its own indexed. */
  predicate IndexFits(c: Chain, i: nat)
    requires c.Sized() && i < |c.nodes|
  {
    var n := c.nodes[i];
    && (forall l :: 0 <= l < |c.ids| && (l == i || l + 1 == i) && c.ids[l] in n.streams ==>
          n.streams[c.ids[l]].sid == c.sid)
    && (c.sid in n.sessions ==>
          forall j :: 0 <= j < |n.sessions[c.sid].pair| ==> n.sessions[c.sid].pair[j].id in n.streams)
  }

  /** Node i holds its session as the line requires, or nothing of it is left. */
  predicate Stands(c: Chain, i: nat)
    requires c.Sized() && i < |c.nodes|
  {
    IndexFits(c, i) && if c.sid in c.nodes[i].sessions then c.Live(i) else Cleared(c.nodes[i], c.sid)
  }

  /** When only one end of link l is left, that end will be told that the stream was closed. */
  predicate Warned(f: Falling, l: nat)
    requires f.chain.Sized() && l < |f.chain.ids|
  {
    var (c, sid) := (f.chain, f.chain.sid);
    && (sid in c.nodes[l].sessions && sid !in c.nodes[l + 1].sessions ==> (c.ids[l], c.peers[l]) in f.notices)
    && (sid !in c.nodes[l].sessions && sid in c.nodes[l + 1].sessions ==> (c.ids[l], c.peers[l + 1]) in f.notices)
  }

  /** The notice is about link l, to one of its ends. */
  predicate AtLink(ids: seq<StreamId>, peers: seq<Peer>, x: (StreamId, Peer), l: nat)
    requires |peers| == |ids| + 1 && l < |ids|
  {
    x.0 == ids[l] && (x.1 == peers[l] || x.1 == peers[l + 1])
  }

  predicate OnLine(ids: seq<StreamId>, peers: seq<Peer>, x: (StreamId, Peer))
    requires |peers| == |ids| + 1
  {
    exists l :: 0 <= l < |ids| && AtLink(ids, peers, x, l)
  }

  predicate AboutLine(ids: seq<StreamId>, peers: seq<Peer>, notices: set<(StreamId, Peer)>)
    requires |peers| == |ids| + 1
  {
    forall x :: x in notices ==> OnLine(ids, peers, x)
  }

  /** Any mixture of live and cleared nodes with any travelling messages and pending notices. */
  predicate Falls(f: Falling) {
    var c := f.chain;
    && c.Sized() && c.Simple() && c.Travelling() && c.sid != UNBOUND && AboutLine(c.ids, c.peers, f.notices)
    && (forall i :: 0 <= i < |c.nodes| ==> Stands(c, i))
    && (forall l :: 0 <= l < |c.ids| ==> Warned(f, l))
  }

  lemma FallsStands(f: Falling, i: nat)
    requires Falls(f) && i < |f.chain.nodes|
    ensures Stands(f.chain, i)
  {
  }

  lemma FallsWarned(f: Falling, l: nat)
    requires Falls(f) && l < |f.chain.ids|
    ensures Warned(f, l)
  {
  }

  /** What a standing node looks like to the handlers. */
  lemma StandsFacts(c: Chain, i: nat)
    requires c.Sized() && i < |c.nodes| && Stands(c, i)
    ensures var pair := PairOf(c.nodes[i], c.sid);
            && Tidy(c.nodes[i], c.sid) && |pair| <= 2 && (c.sid in c.nodes[i].sessions ==> pair != [])
            && (forall s | s in pair ::
                  (i < |c.ids| && s == c.Onward(Rightward, i)) || (i > 0 && s == c.Backward(Rightward, i)))
            && (c.sid in c.nodes[i].sessions && i < |c.ids| ==> c.Onward(Rightward, i) in pair)
            && (c.sid in c.nodes[i].sessions && i > 0 ==> c.Backward(Rightward, i) in pair)
  {
    if c.sid in c.nodes[i].sessions {
      var pair := c.nodes[i].sessions[c.sid].pair;
      if i < |c.ids| { assert c.Onward(Rightward, i) == pair[0] || c.Onward(Rightward, i) == pair[1]; }
      if i > 0 { assert c.Backward(Rightward, i) == pair[0] || c.Backward(Rightward, i) == pair[1]; }
    }
  }

  lemma NoticesHold(me: Peer, shut: seq<Stream>, s: Stream)
    requires s in shut
    ensures (s.id, s.remote) in NoticesOf(me, shut) && (s.id, me) in NoticesOf(me, shut)
  {
  }

  lemma NoticesFew(me: Peer, shut: seq<Stream>)
    ensures |NoticesOf(me, shut)| <= 2 * |shut|
    ensures forall x :: x in NoticesOf(me, shut) ==>
              exists s :: s in shut && s.id == x.0 && (x.1 == me || x.1 == s.remote)
  {
    if shut != [] {
      NoticesFew(me, shut[1..]);
    }
  }

  // ----- keeping the invariant -----

  lemma PostOneTravels(c: Chain, i: nat, s: Send)
    requires c.Sized() && i < |c.nodes| && c.Travelling() && Travels(s.msg, c.sid)
    ensures PostOne(c, i, s).Travelling()
  {
  }

  lemma {:induction false} PostTravels(c: Chain, i: nat, sends: seq<Send>)
    requires c.Sized() && i < |c.nodes| && c.Travelling() && AllTravel(sends, c.sid)
    ensures Post(c, i, sends).Travelling()
    decreases |sends|
  {
    hide Chain.Travelling;
    if sends != [] {
      PostOneTravels(c, i, sends[0]);
      PostTravels(PostOne(c, i, sends[0]), i, sends[1..]);
    }
  }

  /** The index loses at most `id`, and only together with the session if it is one of its streams. */
  predicate IndexShrinks(n: Node, n': Node, sid: Sid) {
    && (forall id :: id in n'.streams ==> id in n.streams && n'.streams[id] == n.streams[id])
    && (sid in n'.sessions ==> n'.streams == n.streams)
  }

  lemma ActStands(c: Chain, i: nat, e: Effect, j: nat)
    requires c.Sized() && i < |c.nodes| && j < |c.nodes| && Stands(c, j) && Orderly(c.nodes[i], e, c.sid)
    requires IndexShrinks(c.nodes[i], e.node, c.sid)
    ensures Stands(Act(c, i, e), j)
  {
    hide Post;
    var c' := Act(c, i, e);
    if j != i { assert c'.nodes[j] == c.nodes[j]; }
  }

  lemma ActWarned(f: Falling, i: nat, e: Effect, l: nat)
    requires var c := f.chain; c.Sized() && c.Simple() && i < |c.nodes| && l < |c.ids| && Stands(c, i)
    requires Orderly(f.chain.nodes[i], e, f.chain.sid)
    requires
      || Warned(f, l)
      || (f.chain.sid in f.chain.nodes[i].sessions && f.chain.sid !in e.node.sessions && (l == i || l + 1 == i))
    ensures Warned(ActAt(f, i, e), l)
  {
    hide Post, NoticesOf, Stands, Orderly;
    var c := f.chain;
    StandsFacts(c, i);
    OrderlyNode(c.nodes[i], e, c.sid);
    if c.sid in c.nodes[i].sessions && c.sid !in e.node.sessions {
      if l == i { NoticesHold(c.peers[i], e.shut, c.Onward(Rightward, i)); }
      if l + 1 == i { NoticesHold(c.peers[i], e.shut, c.Backward(Rightward, i)); }
    }
  }

  lemma OrderlyNode(n: Node, e: Effect, sid: Sid)
    requires Orderly(n, e, sid)
    ensures sid in e.node.sessions ==> sid in n.sessions
    ensures sid !in e.node.sessions ==> e.shut == PairOf(n, sid)
  {
  }

  lemma ActAbout(f: Falling, i: nat, e: Effect)
    requires var c := f.chain; c.Sized() && i < |c.nodes| && Stands(c, i) && AboutLine(c.ids, c.peers, f.notices)
    requires Orderly(f.chain.nodes[i], e, f.chain.sid)
    ensures AboutLine(f.chain.ids, f.chain.peers, ActAt(f, i, e).notices)
  {
    hide Post, NoticesOf, Stands, Orderly, OnLine, Chain.Onward, Chain.Backward;
    var c := f.chain;
    StandsFacts(c, i);
    NoticesFew(c.peers[i], e.shut);
    OrderlyShut(c.nodes[i], e, c.sid);
    forall x | x in ActAt(f, i, e).notices
      ensures OnLine(c.ids, c.peers, x)
    {
      if x !in f.notices {
        var s :| s in e.shut && s.id == x.0 && (x.1 == c.peers[i] || x.1 == s.remote);
        ShutOnLine(c, i, x, s);
      }
    }
  }

  lemma ShutOnLine(c: Chain, i: nat, x: (StreamId, Peer), s: Stream)
    requires c.Sized() && i < |c.nodes| && s.id == x.0 && (x.1 == c.peers[i] || x.1 == s.remote)
    requires (i < |c.ids| && s == c.Onward(Rightward, i)) || (i > 0 && s == c.Backward(Rightward, i))
    ensures OnLine(c.ids, c.peers, x)
  {
    if i < |c.ids| && s == c.Onward(Rightward, i) {
      assert AtLink(c.ids, c.peers, x, i);
    } else {
      assert AtLink(c.ids, c.peers, x, i - 1);
    }
  }

  lemma OrderlyShut(n: Node, e: Effect, sid: Sid)
    requires Orderly(n, e, sid)
    ensures forall s | s in e.shut :: s in PairOf(n, sid)
  {
  }

  /** The part of the invariant that does not mention notices. */
  predicate Upright(c: Chain) {
    && c.Sized() && c.Simple() && c.Travelling() && c.sid != UNBOUND
    && (forall i :: 0 <= i < |c.nodes| ==> Stands(c, i))
  }

  lemma ActFalls(f: Falling, i: nat, e: Effect)
    requires Upright(f.chain) && AboutLine(f.chain.ids, f.chain.peers, f.notices) && i < |f.chain.nodes|
    requires Orderly(f.chain.nodes[i], e, f.chain.sid) && IndexShrinks(f.chain.nodes[i], e.node, f.chain.sid)
    requires forall l :: 0 <= l < |f.chain.ids| ==>
      || Warned(f, l)
      || (f.chain.sid in f.chain.nodes[i].sessions && f.chain.sid !in e.node.sessions && (l == i || l + 1 == i))
    ensures Falls(ActAt(f, i, e))
  {
    var c := f.chain;
    var f' := ActAt(f, i, e);
    ActAbout(f, i, e);
    var c1 := c.(nodes := c.nodes[i := e.node]);
    assert AllTravel(e.sends, c.sid) && c1.Travelling() && c.Simple();
    PostTravels(c1, i, e.sends);
    hide Orderly, IndexShrinks, Stands, Warned, NoticesOf, Post, Chain.Travelling, AllTravel, AboutLine;
    forall j | 0 <= j < |c.nodes|
      ensures Stands(f'.chain, j)
    {
      assert Stands(c, j);
      ActStands(c, i, e, j);
    }
    forall l | 0 <= l < |c.ids|
      ensures Warned(f', l)
    {
      assert Stands(c, i);
      ActWarned(f, i, e, l);
    }
  }

  // ----- the measure decreases -----

  lemma AliveAct(nodes: seq<Node>, i: nat, n: Node, sid: Sid)
    requires i < |nodes|
    ensures Sum(Alive(nodes[i := n], sid)) + (if sid in nodes[i].sessions then 1 else 0)
            == Sum(Alive(nodes, sid)) + (if sid in n.sessions then 1 else 0)
  {
    var v := if sid in n.sessions then 1 else 0;
    assert Alive(nodes[i := n], sid) == Alive(nodes, sid)[i := v];
    SumUpdate(Alive(nodes, sid), i, v);
  }

  lemma DropFacts(c: Chain, i: nat, e: Effect)
    requires c.Sized() && i < |c.nodes| && Stands(c, i) && Orderly(c.nodes[i], e, c.sid) && c.sid !in e.node.sessions
    ensures |e.sends| <= 4 && |e.shut| <= 2 && !CarriesProbe(e.sends)
  {
    StandsFacts(c, i);
  }

  /** A node that drops its session pays for all it still sends and closes. */
  lemma DropRank(f: Falling, i: nat, e: Effect)
    requires var c := f.chain; c.Sized() && i < |c.nodes| && Stands(c, i) && c.sid in c.nodes[i].sessions
    requires Orderly(f.chain.nodes[i], e, f.chain.sid) && f.chain.sid !in e.node.sessions
    ensures Rank(ActAt(f, i, e)) < Rank(f)
  {
    hide Orderly, Stands, Post, Load, NoticesOf, Weigh, Sum, Alive, CarriesProbe;
    var c := f.chain;
    var c1 := c.(nodes := c.nodes[i := e.node]);
    DropFacts(c, i, e);
    AliveAct(c.nodes, i, e.node, c.sid);
    LoadNodes(c, c1.nodes);
    LoadPost(c1, i, e.sends);
    NoticesFew(c.peers[i], e.shut);
    var f' := ActAt(f, i, e);
    WeighFall(|c.ids|, Sum(Alive(c.nodes, c.sid)), Load(c), |f.notices|, |e.sends|, Load(f'.chain), |f'.notices|);
  }

  /** A node whose session stays, or was gone before, changes only the load. */
  lemma KeepRank(f: Falling, i: nat, e: Effect)
    requires var c := f.chain; c.Sized() && i < |c.nodes| && Stands(c, i)
    requires Orderly(f.chain.nodes[i], e, f.chain.sid)
    requires f.chain.sid in e.node.sessions <==> f.chain.sid in f.chain.nodes[i].sessions
    ensures var f' := ActAt(f, i, e);
            && f'.notices == f.notices
            && Rank(f') + Load(f.chain) == Rank(f) + Load(f'.chain)
  {
    var c := f.chain;
    assert e.shut == [];
    hide Orderly, Stands, Post, Load, Sum, Alive;
    AliveAct(c.nodes, i, e.node, c.sid);
  }

  lemma OneHopLess(m: Msg, r: nat, h: nat)
    requires r > 0 && (m.Data? || m.Success? || m.Probe?)
    ensures MsgLoad(m, r - 1, h) < MsgLoad(m, r, h)
  {
  }

  lemma PushedLoad(c: Chain, d: Dir, k: nat, m: Msg)
    requires c.Sized() && c.Simple() && k < |c.ids|
    ensures Load(Post(c, c.At(d, k), [Send(c.Onward(d, k), m)])) == Load(c) + MsgLoad(m, |c.ids| - k, |c.ids|)
  {
    hide Load, Post, Chain.WithWire, Chain.Wire, Chain.Onward, MsgLoad;
    Conservation.PostOnward(c, d, k, m);
    LoadPush(c, d, k, m);
  }

  /** Passing a message on costs one hop less than it did. */
  lemma PassLoad(c: Chain, i: nat, s: Stream, m: Msg, n: Node, r: nat)
    requires c.Sized() && i < |c.nodes| && r > 0 && (m.Data? || m.Success? || m.Probe?)
    requires var c1 := c.(nodes := c.nodes[i := n]);
             c1.Sized() && Load(Post(c1, i, [Send(s, m)])) == Load(c1) + MsgLoad(m, r - 1, |c.ids|)
    ensures Load(Act(c, i, Effect(n, [Send(s, m)], []))) < Load(c) + MsgLoad(m, r, |c.ids|)
  {
    hide Load, Post, MsgLoad;
    LoadNodes(c, c.nodes[i := n]);
    OneHopLess(m, r, |c.ids|);
    ActPosts(c, i, Effect(n, [Send(s, m)], []));
  }

  lemma ActPosts(c: Chain, i: nat, e: Effect)
    requires c.Sized() && i < |c.nodes|
    ensures c.(nodes := c.nodes[i := e.node]).Sized()
            && Act(c, i, e) == Post(c.(nodes := c.nodes[i := e.node]), i, e.sends)
  {
    hide Post;
  }

  lemma SameOnward(c: Chain, c': Chain, d: Dir, k: nat)
    requires c.Sized() && c' == c.(nodes := c'.nodes) && |c'.nodes| == |c.nodes| && k < |c.ids|
    ensures c'.Sized() && c'.Onward(d, k) == c.Onward(d, k) && c'.At(d, k) == c.At(d, k)
    ensures c.Simple() ==> c'.Simple()
  {
  }

  lemma PassedLoad(c: Chain, d: Dir, k: nat, m: Msg, n: Node)
    requires c.Sized() && c.Simple() && k + 1 < |c.ids| && (m.Data? || m.Success? || m.Probe?)
    ensures Load(Act(c, c.At(d, k + 1), Effect(n, [Send(c.Onward(d, k + 1), m)], [])))
            < Load(c) + MsgLoad(m, |c.ids| - k, |c.ids|)
  {
    hide Load, Post, MsgLoad, Chain.Simple, Chain.Onward, Act;
    var i := c.At(d, k + 1);
    var c1 := c.(nodes := c.nodes[i := n]);
    SameOnward(c, c1, d, k + 1);
    PushedLoad(c1, d, k + 1, m);
    PassLoad(c, i, c.Onward(d, k + 1), m, n, |c.ids| - k);
  }

  /** Two answers to a probe cost less than the probe. */
  lemma AnswerLoad(c: Chain, i: nat, k: nat, m: Msg, e: Effect)
    requires c.Sized() && i < |c.nodes| && k < |c.ids| && m.Probe? && |e.sends| <= 2 && !CarriesProbe(e.sends)
    ensures Load(Act(c, i, e)) < Load(c) + MsgLoad(m, |c.ids| - k, |c.ids|)
  {
    hide Load, Post, CarriesProbe;
    var c1 := c.(nodes := c.nodes[i := e.node]);
    LoadNodes(c, c1.nodes);
    LoadPost(c1, i, e.sends);
    assert |c.ids| * |e.sends| <= |c.ids| * 2;
  }

  /** What a surviving node writes costs less than the message that made it write. */
  lemma CalmLoad(c: Chain, d: Dir, k: nat, m: Msg, e: Effect)
    requires c.Sized() && c.Simple() && k < |c.ids|
    requires var i := c.At(d, k + 1);
             c.sid in c.nodes[i].sessions && c.Live(i) && Calm(c.nodes[i], e, m, c.Backward(d, k + 1).id, c.sid)
    ensures Load(Act(c, c.At(d, k + 1), e)) < Load(c) + MsgLoad(m, |c.ids| - k, |c.ids|)
  {
    hide Load, CarriesProbe;
    var i := c.At(d, k + 1);
    if e.sends == [] {
      LoadNodes(c, c.nodes[i := e.node]);
    } else if m.Probe? && |e.sends| <= 2 && !CarriesProbe(e.sends) {
      AnswerLoad(c, i, k, m, e);
    } else {
      assert k + 1 < |c.ids|;
      Conservation.Partner(c, d, k + 1);
      PassedLoad(c, d, k, m, e.node);
      assert Act(c, i, e) == Act(c, i, Effect(e.node, e.sends, []));
    }
  }

  // ----- every event -----

  /** Taking the head off a wire keeps the invariant. */
  lemma PopFalls(f: Falling, d: Dir, k: nat)
    requires Falls(f) && k < |f.chain.ids| && f.chain.Wire(d, k) != []
    ensures Falls(Popped(f, d, k))
  {
    hide AboutLine;
    var c := f.chain;
    var c' := c.WithWire(d, k, c.Wire(d, k)[1..]);
    assert forall i | 0 <= i < |c.nodes| :: Stands(c, i) ==> Stands(c', i);
    assert forall l | 0 <= l < |c.ids| :: Warned(f, l) ==> Warned(f.(chain := c'), l);
  }

  lemma HeadTravels(c: Chain, d: Dir, k: nat)
    requires c.Sized() && c.Travelling() && k < |c.ids| && c.Wire(d, k) != []
    ensures Travels(c.Wire(d, k)[0], c.sid)
  {
  }

  lemma PopRank(f: Falling, d: Dir, k: nat)
    requires f.chain.Sized() && k < |f.chain.ids| && f.chain.Wire(d, k) != []
    ensures Rank(Popped(f, d, k)) + MsgLoad(f.chain.Wire(d, k)[0], |f.chain.ids| - k, |f.chain.ids|) == Rank(f)
  {
    hide Load, Sum, Alive;
    LoadPop(f.chain, d, k);
  }

  lemma FallsTravels(f: Falling)
    requires Falls(f)
    ensures f.chain.Travelling()
  {
  }

  /** The effect of the message at the head of a wire. */
  function HeadEffect(c: Chain, d: Dir, k: nat, bad: set<StreamId>): Effect
    requires c.Sized() && k < |c.ids| && c.Wire(d, k) != []
  {
    Handle(c.nodes[c.At(d, k + 1)], c.Wire(d, k)[0], c.Backward(d, k + 1), bad)
  }

  /** Whoever a message arrives at settles it. */
  lemma HeadSettles(f: Falling, d: Dir, k: nat, bad: set<StreamId>)
    requires Falls(f) && k < |f.chain.ids| && f.chain.Wire(d, k) != []
    ensures var c := f.chain;
            Settles(c.nodes[c.At(d, k + 1)], HeadEffect(c, d, k, bad), c.Wire(d, k)[0], c.Backward(d, k + 1).id, c.sid)
  {
    assert f.chain.Sized();
    hide Falls, Stands, Settles, Handle, Chain.Travelling, Chain.Wire;
    var c := f.chain;
    FallsStands(f, c.At(d, k + 1));
    FallsTravels(f);
    HeadTravels(c, d, k);
    StandsFacts(c, c.At(d, k + 1));
    HandleSettles(c.nodes[c.At(d, k + 1)], c.Wire(d, k)[0], c.Backward(d, k + 1), c.sid, bad);
  }

  /** A message that arrives. */
  lemma ArriveFalls(f: Falling, d: Dir, k: nat, bad: set<StreamId>)
    requires f.chain.Sized() && Falls(f) && k < |f.chain.ids| && f.chain.Wire(d, k) != []
    ensures var f' := ActAt(Popped(f, d, k), f.chain.At(d, k + 1), HeadEffect(f.chain, d, k, bad));
            && Falls(f') && Rank(f') < Rank(f)
            && Fades(f.chain.nodes[f.chain.At(d, k + 1)], f'.chain.nodes[f.chain.At(d, k + 1)], f.chain.sid)
  {
    hide *;
    HeadSettles(f, d, k, bad);
    PopFalls(f, d, k);
    PopRank(f, d, k);
    SameBackward(f.chain, Popped(f, d, k).chain, d, k + 1);
    ActSettled(Popped(f, d, k), d, k, f.chain.Wire(d, k)[0], HeadEffect(f.chain, d, k, bad));
  }

  lemma ArrivesFalls(f: Falling, d: Dir, k: nat, bad: set<StreamId>)
    requires f.chain.Sized() && Falls(f) && Enabled(f, Arrives(d, k, bad))
    ensures var f' := After(f, Arrives(d, k, bad));
            && Falls(f') && Rank(f') < Rank(f)
            && Fades(f.chain.nodes[f.chain.At(d, k + 1)], f'.chain.nodes[f.chain.At(d, k + 1)], f.chain.sid)
  {
    hide Falls, Rank, Fades, ActAt, HeadEffect, Popped, Chain.Wire;
    ArriveFalls(f, d, k, bad);
  }

  lemma SameBackward(c: Chain, c': Chain, d: Dir, k: nat)
    requires c.Sized() && c'.Sized() && c'.ids == c.ids && c'.peers == c.peers && 0 < k <= |c.ids|
    ensures c'.Backward(d, k) == c.Backward(d, k) && c'.At(d, k) == c.At(d, k)
  {
  }

  /** A settled effect of message m, already taken off the wire. */
  lemma ActSettled(f: Falling, d: Dir, k: nat, m: Msg, e: Effect)
    requires Falls(f) && k < |f.chain.ids|
    requires Settles(f.chain.nodes[f.chain.At(d, k + 1)], e, m, f.chain.Backward(d, k + 1).id, f.chain.sid)
    ensures var (c, i) := (f.chain, f.chain.At(d, k + 1));
            var f' := ActAt(f, i, e);
            && Falls(f') && Rank(f') < Rank(f) + MsgLoad(m, |c.ids| - k, |c.ids|)
            && Fades(c.nodes[i], f'.chain.nodes[i], c.sid)
  {
    hide Rank, Load, Post, Calm, Stands, Warned, Chain.Travelling, AllTravel, Within;
    var (c, i) := (f.chain, f.chain.At(d, k + 1));
    var n := c.nodes[i];
    assert Stands(c, i);
    ActFalls(f, i, e);
    if c.sid in e.node.sessions {
      KeepRank(f, i, e);
      StandsLive(c, i);
      CalmLoad(c, d, k, m, e);
    } else if c.sid in n.sessions {
      DropRank(f, i, e);
    } else {
      KeepRank(f, i, e);
      SilentLoad(c, i, e);
    }
  }

  lemma StandsLive(c: Chain, i: nat)
    requires c.Sized() && i < |c.nodes| && Stands(c, i) && c.sid in c.nodes[i].sessions
    ensures c.Live(i)
  {
  }

  lemma WithinSome(sends: seq<Send>, pair: seq<Stream>)
    requires Within(sends, pair)
    ensures sends == [] || pair != []
  {
    if sends != [] {
      assert sends[0].to in pair;
    }
  }

  lemma SilentLoad(c: Chain, i: nat, e: Effect)
    requires c.Sized() && i < |c.nodes| && Within(e.sends, [])
    ensures e.sends == [] && Load(Act(c, i, e)) == Load(c)
  {
    WithinSome(e.sends, []);
    LoadNodes(c, c.nodes[i := e.node]);
  }

  lemma NoticeFits(f: Falling, i: nat, id: StreamId)
    requires Falls(f) && i < |f.chain.nodes| && (id, f.chain.peers[i]) in f.notices
    ensures var n := f.chain.nodes[i]; id in n.streams ==> n.streams[id].sid == f.chain.sid
  {
    assert Stands(f.chain, i);
    var c := f.chain;
    assert OnLine(c.ids, c.peers, (id, c.peers[i]));
    var l :| 0 <= l < |c.ids| && AtLink(c.ids, c.peers, (id, c.peers[i]), l);
    assert l == i || l + 1 == i;
  }

  /** Using up a notice leaves every other link warned. */
  lemma StillWarned(f: Falling, i: nat, id: StreamId, l: nat)
    requires Falls(f) && i < |f.chain.nodes| && l < |f.chain.ids|
    ensures var (c, f1) := (f.chain, f.(notices := f.notices - {(id, f.chain.peers[i])}));
            || Warned(f1, l)
            || (c.sid in c.nodes[i].sessions && id in c.nodes[i].streams && (l == i || l + 1 == i))
  {
    hide Chain.Travelling;
    FallsStands(f, i);
    FallsWarned(f, l);
    StandsFacts(f.chain, i);
  }

  lemma OrderlySame(n: Node, e: Effect, sid: Sid)
    requires Orderly(n, e, sid)
    ensures Fades(n, e.node, sid)
    ensures sid in e.node.sessions ==> sid in n.sessions
    ensures sid !in n.sessions ==> e.sends == []
  {
    if sid !in n.sessions { WithinSome(e.sends, []); }
  }

  lemma ClosedShrinks(n: Node, n': Node, id: StreamId, sid: Sid)
    requires n'.streams == n.streams - {id} && (id in n.streams ==> sid !in n'.sessions)
    ensures IndexShrinks(n, n', sid)
  {
  }

  /** A node is told that a stream was closed. */
  lemma NotifiedFalls(f: Falling, i: nat, id: StreamId, bad: set<StreamId>)
    requires Falls(f) && i < |f.chain.nodes| && (id, f.chain.peers[i]) in f.notices
    ensures var f' := After(f, Notified(i, id, bad));
            Falls(f') && Rank(f') < Rank(f) && Fades(f.chain.nodes[i], f'.chain.nodes[i], f.chain.sid)
  {
    hide Load, Post, Orderly, Chain.Travelling, HandleStreamClosed, Stands, Warned, Fades, Sum, Alive, IndexShrinks;
    var c := f.chain;
    var f1 := f.(notices := f.notices - {(id, c.peers[i])});
    var e := HandleStreamClosed(c.nodes[i], id, bad);
    FallsStands(f, i);
    StandsFacts(c, i);
    NoticeFits(f, i, id);
    ClosedOrderly(c.nodes[i], id, c.sid, bad);
    ClosedShrinks(c.nodes[i], e.node, id, c.sid);
    OrderlySame(c.nodes[i], e, c.sid);
    forall l | 0 <= l < |c.ids|
      ensures Warned(f1, l) || (c.sid in c.nodes[i].sessions && c.sid !in e.node.sessions && (l == i || l + 1 == i))
    {
      StillWarned(f, i, id, l);
    }
    ActFalls(f1, i, e);
    assert Rank(f1) + 1 == Rank(f);
    hide Rank;
    if c.sid in c.nodes[i].sessions && c.sid !in e.node.sessions {
      DropRank(f1, i, e);
    } else {
      KeepRank(f1, i, e);
      SilentLoad(c, i, e);
    }
  }

  /** A node closes the circuit of its own accord. */
  lemma ClosesFalls(f: Falling, i: nat, bad: set<StreamId>)
    requires Falls(f) && i < |f.chain.nodes| && f.chain.sid in f.chain.nodes[i].sessions
    ensures var f' := After(f, Closes(i, bad));
            && Falls(f') && Rank(f') < Rank(f) && f.chain.sid !in f'.chain.nodes[i].sessions
            && Fades(f.chain.nodes[i], f'.chain.nodes[i], f.chain.sid)
  {
    hide Load, Post, Orderly, Chain.Travelling, Stands, Warned, Fades, Rank;
    var c := f.chain;
    FallsStands(f, i);
    StandsFacts(c, i);
    CloseFacts(c.nodes[i], c.sid, bad);
    CloseOrderly(c.nodes[i], c.sid, bad);
    hide CloseCircuit;
    var e := CloseCircuit(c.nodes[i], c.sid, bad);
    OrderlySame(c.nodes[i], e, c.sid);
    ActFalls(f, i, e);
    DropRank(f, i, e);
  }

  /** Every node fades. */
  predicate Wanes(c: Chain, c': Chain) {
    && c'.sid == c.sid && c'.peers == c.peers && c'.ids == c.ids && |c'.nodes| == |c.nodes|
    && forall i :: 0 <= i < |c.nodes| ==> Fades(c.nodes[i], c'.nodes[i], c.sid)
  }

  lemma WanesAt(c: Chain, c': Chain, i: nat, n: Node)
    requires c.Sized() && i < |c.nodes| && c'.nodes == c.nodes[i := n] && Fades(c.nodes[i], n, c.sid)
    requires c'.sid == c.sid && c'.peers == c.peers && c'.ids == c.ids
    ensures Wanes(c, c')
  {
  }

  /** An end, or any node, writes Data of its own; it may keep its session, at a price. */
  lemma WritesFalls(f: Falling, i: nat, payload: bytes, bad: set<StreamId>)
    requires Falls(f) && i < |f.chain.nodes|
    ensures var f' := After(f, Writes(i, payload, bad));
            && Falls(f') && Rank(f') <= Rank(f) + 2 * |f.chain.ids|
            && Fades(f.chain.nodes[i], f'.chain.nodes[i], f.chain.sid)
  {
    hide Load, Post, Orderly, Chain.Travelling, Stands, Warned, Fades, Rank, Broadcast;
    var c := f.chain;
    var e := SendRelay(c.nodes[i], c.sid, Data(c.sid, payload), bad);
    FallsStands(f, i);
    StandsFacts(c, i);
    BroadcastOrderly(c.nodes[i], c.sid, Data(c.sid, payload), None, bad);
    OrderlySame(c.nodes[i], e, c.sid);
    ActFalls(f, i, e);
    if c.sid in c.nodes[i].sessions && c.sid !in e.node.sessions {
      DropRank(f, i, e);
    } else {
      KeepRank(f, i, e);
      WriteLoad(c, i, payload, bad);
    }
  }

  /** A handshake finishes at a node that still has the session, and its result is stored. */
  lemma SecuresFalls(f: Falling, i: nat, x: Secured)
    requires Falls(f) && i < |f.chain.nodes| && f.chain.sid in f.chain.nodes[i].sessions
    ensures var f' := After(f, Secures(i, x));
            Falls(f') && Rank(f') <= Rank(f) && Fades(f.chain.nodes[i], f'.chain.nodes[i], f.chain.sid)
  {
    hide Load, Post, Chain.Travelling, Stands, Warned, Rank;
    var c := f.chain;
    var e := Quiet(c.nodes[i].(secured := c.nodes[i].secured[c.sid := x]));
    FallsStands(f, i);
    StandsFacts(c, i);
    assert Orderly(c.nodes[i], e, c.sid);
    hide Orderly;
    OrderlySame(c.nodes[i], e, c.sid);
    ActFalls(f, i, e);
    KeepRank(f, i, e);
    SilentLoad(c, i, e);
  }

  lemma WriteLoad(c: Chain, i: nat, payload: bytes, bad: set<StreamId>)
    requires c.Sized() && i < |c.nodes| && Stands(c, i)
    requires var e := SendRelay(c.nodes[i], c.sid, Data(c.sid, payload), bad);
             c.sid in c.nodes[i].sessions <==> c.sid in e.node.sessions
    ensures var e := SendRelay(c.nodes[i], c.sid, Data(c.sid, payload), bad);
            Load(Act(c, i, e)) <= Load(c) + 2 * |c.ids|
  {
    hide Load, Post, Stands, Broadcast, CarriesProbe;
    var (n, m) := (c.nodes[i], Data(c.sid, payload));
    var e := SendRelay(n, c.sid, m, bad);
    StandsFacts(c, i);
    BroadcastFacts(n, c.sid, m, None, bad);
    KeptFew(n, c.sid, m, bad);
    LoadNodes(c, c.nodes[i := e.node]);
    LoadPost(c.(nodes := c.nodes[i := e.node]), i, e.sends);
    assert |c.ids| * |e.sends| <= |c.ids| * 2;
  }

  /** What an event may add to the measure: a write the way of its messages, a stored result one. */
  function Cost(ev: Event, h: nat): nat {
    if ev.Writes? then 2 * h + 1 else if ev.Secures? then 1 else 0
  }

  /** Every event keeps the invariant, uses up some of the measure and touches no other session. */
  lemma StepFalls(f: Falling, ev: Event)
    requires Falls(f) && Enabled(f, ev)
    ensures var f' := After(f, ev);
            Falls(f') && Rank(f') < Rank(f) + Cost(ev, |f.chain.ids|) && Wanes(f.chain, f'.chain)
  {
    assert f.chain.Sized();
    hide Rank, Falls, Wanes, Fades, After;
    StepTouches(f, ev);
    match ev
    case Closes(i, bad) => ClosesFalls(f, i, bad);
    case Writes(i, payload, bad) => WritesFalls(f, i, payload, bad);
    case Secures(i, x) => SecuresFalls(f, i, x);
    case Arrives(d, k, bad) => ArrivesFalls(f, d, k, bad);
    case Lost(d, k) => LostFalls(f, d, k);
    case Notified(i, id, bad) => NotifiedFalls(f, i, id, bad);
  }

  /** A message gets lost. */
  lemma LostFalls(f: Falling, d: Dir, k: nat)
    requires Falls(f) && k < |f.chain.ids| && f.chain.Wire(d, k) != []
    ensures Falls(After(f, Lost(d, k))) && Rank(After(f, Lost(d, k))) < Rank(f)
  {
    assert f.chain.Sized();
    hide Rank, Falls;
    PopFalls(f, d, k);
    PopRank(f, d, k);
  }

  /** The node an event happens at; losing a message happens at none. */
  function Site(f: Falling, ev: Event): nat
    requires f.chain.Sized() && Enabled(f, ev)
  {
    match ev
    case Closes(i, _) => i
    case Writes(i, _, _) => i
    case Secures(i, _) => i
    case Arrives(d, k, _) => f.chain.At(d, k + 1)
    case Lost(_, _) => 0
    case Notified(i, _, _) => i
  }

  /** Only the node at the site changes. */
  lemma StepTouches(f: Falling, ev: Event)
    requires f.chain.Sized() && Enabled(f, ev)
    ensures var (c, c', i) := (f.chain, After(f, ev).chain, Site(f, ev));
            && c'.Sized() && (ev.Lost? || Fades(c.nodes[i], c'.nodes[i], c.sid) ==> Wanes(c, c'))
  {
    hide Handle, CloseCircuit, HandleStreamClosed, Post, Wanes, Fades, HeadEffect;
    var (c, c', i) := (f.chain, After(f, ev).chain, Site(f, ev));
    if ev.Lost? {
      WanesOver(c, c');
    } else if Fades(c.nodes[i], c'.nodes[i], c.sid) {
      WanesAt(c, c', i, c'.nodes[i]);
    }
  }

  lemma WanesSame(c: Chain)
    ensures Wanes(c, c)
  {
  }

  lemma WanesOver(c: Chain, c': Chain)
    requires c' == c.(right := c'.right, left := c'.left)
    ensures Wanes(c, c')
  {
  }

  // ----- whole runs -----

  predicate IsRun(states: seq<Falling>, events: seq<Event>) {
    && |states| == |events| + 1
    && forall j :: 0 <= j < |events| ==>
                     states[j].chain.Sized() && Enabled(states[j], events[j])
                     && states[j + 1] == After(states[j], events[j])
  }

  /** Nothing is left to happen by itself: no message on any wire and no notice to handle. */
  predicate Settled(f: Falling)
    requires f.chain.Sized()
  {
    && (forall d: Dir, k :: 0 <= k < |f.chain.ids| ==> f.chain.Wire(d, k) == [])
    && (forall x :: x in f.notices ==> x.1 !in f.chain.peers)
  }

  lemma WanesTrans(a: Chain, b: Chain, c: Chain)
    requires Wanes(a, b) && Wanes(b, c)
    ensures Wanes(a, c)
  {
    forall i | 0 <= i < |a.nodes|
      ensures Fades(a.nodes[i], c.nodes[i], a.sid)
    {
      assert Fades(a.nodes[i], b.nodes[i], a.sid) && Fades(b.nodes[i], c.nodes[i], a.sid);
    }
  }

  /** What all writes and stored results of a run may add to the measure. */
  function Budget(events: seq<Event>, h: nat): nat {
    if events == [] then 0 else Budget(events[..|events| - 1], h) + Cost(events[|events| - 1], h)
  }

  /**
    Every schedule is shorter than the measure of its start and the price of its writes and stored
    results, whatever nodes close and whatever writes fail.
  */
  lemma {:induction false} RunWanes(states: seq<Falling>, events: seq<Event>)
    requires IsRun(states, events) && Falls(states[0])
    ensures forall f | f in states :: Falls(f) && Wanes(states[0].chain, f.chain)
    ensures var last := states[|events|];
            Falls(last) && |events| + Rank(last) <= Rank(states[0]) + Budget(events, |states[0].chain.ids|)
  {
    hide Rank, Wanes, After, Enabled, Falls, Cost;
    if events == [] {
      WanesSame(states[0].chain);
    } else {
      var n := |events| - 1;
      var before := states[..|events|];
      assert forall j :: 0 <= j < n ==> events[..n][j] == events[j] && before[j] == states[j];
      RunWanes(before, events[..n]);
      assert before[n] == states[n] && before[n] in before;
      assert Enabled(states[n], events[n]) && states[n + 1] == After(states[n], events[n]);
      StepFalls(states[n], events[n]);
      WanesShape(states[0].chain, states[n].chain);
      WanesTrans(states[0].chain, states[n].chain, states[n + 1].chain);
      assert states == before + [states[n + 1]];
    }
  }

  /** Without pending notices the two ends of a link stand or fall together. */
  lemma SettledLink(f: Falling, l: nat)
    requires Falls(f) && Settled(f) && l < |f.chain.ids|
    ensures f.chain.sid in f.chain.nodes[l].sessions <==> f.chain.sid in f.chain.nodes[l + 1].sessions
  {
    FallsWarned(f, l);
    assert f.chain.peers[l] in f.chain.peers && f.chain.peers[l + 1] in f.chain.peers;
  }

  lemma {:induction false} SettledTogether(f: Falling, i: nat, j: nat)
    requires Falls(f) && Settled(f) && i <= j < |f.chain.nodes|
    ensures f.chain.sid in f.chain.nodes[i].sessions <==> f.chain.sid in f.chain.nodes[j].sessions
    decreases j - i
  {
    hide Falls, Settled;
    if i < j {
      assert f.chain.Sized() by { SettledSized(f); }
      SettledLink(f, i);
      SettledTogether(f, i + 1, j);
    }
  }

  lemma SettledSized(f: Falling)
    requires Falls(f)
    ensures f.chain.Sized()
  {
  }

  /**
    Main result. Start from any mixture of standing and cleared nodes of a line of any length,
    with any messages and notices under way. However events are scheduled, whichever nodes close
    and whichever writes fail or messages get lost, no run is longer than the measure of its
    start plus a fixed price per write and per handshake that finishes at a node with the session;
    and when nothing is left to
    happen and some node has dropped the session, every node holds no session, circuit, secure
    connection or probe for it, nothing is in flight, and the entries of all other sessions are
    as they were.
  */
  lemma FloodingClears(states: seq<Falling>, events: seq<Event>, closed: nat)
    requires IsRun(states, events) && Falls(states[0])
    ensures |events| <= Rank(states[0]) + Budget(events, |states[0].chain.ids|)
    ensures var (first, last) := (states[0].chain, states[|events|]);
            && last.chain.Sized() && Wanes(first, last.chain)
            && (Settled(last) && closed < |first.nodes| && first.sid !in last.chain.nodes[closed].sessions ==>
                  forall i :: 0 <= i < |first.nodes| ==> Cleared(last.chain.nodes[i], first.sid))
  {
    RunWanes(states, events);
    var last := states[|events|];
    assert last in states;
    hide Wanes, Rank, After, Enabled, Settled, IsRun, Stands, Warned, Chain.Travelling;
    WanesShape(states[0].chain, last.chain);
    if Settled(last) && closed < |last.chain.nodes| && last.chain.sid !in last.chain.nodes[closed].sessions {
      forall i | 0 <= i < |last.chain.nodes|
        ensures Cleared(last.chain.nodes[i], last.chain.sid)
      {
        SettledTogether(last, if i <= closed then i else closed, if i <= closed then closed else i);
        FallsStands(last, i);
        StandsCleared(last.chain, i);
      }
    }
  }

  lemma RunStep(states: seq<Falling>, events: seq<Event>, j: nat)
    requires IsRun(states, events) && j < |events|
    ensures states[j].chain.Sized() && Enabled(states[j], events[j]) && states[j + 1] == After(states[j], events[j])
  {
  }

  lemma RunTail(states: seq<Falling>, events: seq<Event>, j: nat)
    requires IsRun(states, events) && j <= |events|
    ensures IsRun(states[j..], events[j..])
  {
    hide After, Enabled;
    var (tail, rest) := (states[j..], events[j..]);
    assert forall n :: 0 <= n < |rest| ==> rest[n] == events[j + n] && tail[n] == states[j + n];
  }

  lemma DownStaysDown(c: Chain, c': Chain, i: nat)
    requires Wanes(c, c') && i < |c.nodes| && c.sid !in c.nodes[i].sessions
    ensures i < |c'.nodes| && c'.sid !in c'.nodes[i].sessions
  {
    assert Fades(c.nodes[i], c'.nodes[i], c.sid);
  }

  /** A node that closed during the run is without the session at its end. */
  lemma ClosedStaysDown(states: seq<Falling>, events: seq<Event>, j: nat)
    requires IsRun(states, events) && Falls(states[0]) && j < |events| && events[j].Closes?
    ensures var last := states[|events|].chain;
            events[j].i < |last.nodes| && last.sid !in last.nodes[events[j].i].sessions
  {
    assert |states| == |events| + 1;
    hide IsRun, Falls, Rank, After, Enabled, Wanes;
    RunStep(states, events, j);
    RunTail(states, events, j + 1);
    RunWanesAt(states, events, j);
    CloseEvent(states[j], events[j]);
    var (tail, rest) := (states[j + 1..], events[j + 1..]);
    RunWanesAt(tail, rest, |rest|);
    assert tail[0] == states[j + 1] && tail[|rest|] == states[|events|];
    DownStaysDown(states[j + 1].chain, states[|events|].chain, events[j].i);
  }

  lemma RunWanesAt(states: seq<Falling>, events: seq<Event>, k: nat)
    requires IsRun(states, events) && Falls(states[0]) && k <= |events|
    ensures Falls(states[k]) && Wanes(states[0].chain, states[k].chain)
  {
    hide Falls, Rank, After, Enabled, Wanes;
    RunWanes(states, events);
    assert states[k] in states;
  }

  lemma CloseEvent(f: Falling, ev: Event)
    requires Falls(f) && Enabled(f, ev) && ev.Closes?
    ensures var c := After(f, ev).chain;
            Falls(After(f, ev)) && ev.i < |c.nodes| && c.sid !in c.nodes[ev.i].sessions
  {
    ClosesFalls(f, ev.i, ev.bad);
    hide Falls, CloseCircuit, Post;
  }

  /** So once any node has closed, a settled end of the run has the session nowhere. */
  lemma ClosingClears(states: seq<Falling>, events: seq<Event>)
    requires IsRun(states, events) && Falls(states[0]) && exists j :: 0 <= j < |events| && events[j].Closes?
    ensures var (first, last) := (states[0].chain, states[|events|]);
            && last.chain.Sized() && |last.chain.nodes| == |first.nodes|
            && (Settled(last) ==> forall i :: 0 <= i < |first.nodes| ==> Cleared(last.chain.nodes[i], first.sid))
  {
    var j :| 0 <= j < |events| && events[j].Closes?;
    ClosedStaysDown(states, events, j);
    FloodingClears(states, events, events[j].i);
    WanesShape(states[0].chain, states[|events|].chain);
  }

  lemma WanesShape(c: Chain, c': Chain)
    requires Wanes(c, c')
    ensures c'.sid == c.sid && |c'.nodes| == |c.nodes| && c'.ids == c.ids
  {
  }

  lemma StandsCleared(c: Chain, i: nat)
    requires c.Sized() && i < |c.nodes| && Stands(c, i) && c.sid !in c.nodes[i].sessions
    ensures Cleared(c.nodes[i], c.sid)
  {
  }

  /** A run that has not settled can go on, so every schedule does reach a settled state. */
  lemma UnsettledGoesOn(f: Falling) returns (ev: Event)
    requires f.chain.Sized() && !Settled(f)
    ensures Enabled(f, ev) && !ev.Closes? && !ev.Lost? && !ev.Writes? && !ev.Secures?
  {
    if d: Dir, k :| 0 <= k < |f.chain.ids| && f.chain.Wire(d, k) != [] {
      ev := Arrives(d, k, {});
    } else {
      var x :| x in f.notices && x.1 in f.chain.peers;
      var i :| 0 <= i < |f.chain.peers| && f.chain.peers[i] == x.1;
      ev := Notified(i, x.0, {});
    }
  }

  /** An open line whose nodes have their streams indexed is such a start. */
  lemma OpenFalls(c: Chain)
    requires c.Open() && c.sid != UNBOUND && forall i :: 0 <= i < |c.nodes| ==> IndexFits(c, i)
    ensures Falls(Falling(c, {}))
  {
    hide IndexFits, Chain.Travelling, Chain.Simple, Chain.Live;
    forall i | 0 <= i < |c.nodes|
      ensures c.sid in c.nodes[i].sessions && Stands(c, i)
    {
      assert c.Live(i) && IndexFits(c, i);
      LiveHolds(c, i);
    }
  }

  lemma LiveHolds(c: Chain, i: nat)
    requires c.Sized() && i < |c.nodes| && c.Live(i)
    ensures c.sid in c.nodes[i].sessions
  {
  }
}
