/**
  Disconnect messages alone bring a line down: without a single notice that a stream was closed,
  one close and the arrival of what is written are enough (protocol/relay/relay.go handleDisconnect,
  protocol/relay/manager.go SendDisconnectRelay and ForwardRelay).
*/
module Flooding {
  import opened Basics
  import opened Relay
  import opened NodeFacts
  import opened LineModel
  import opened Teardown
  import Answers
  import Conservation

  // ----- one node -----

  /**
    A node that drops the session tells all its streams, but for those that lead to `skip`; a node
    that keeps it tells nobody; a node without it says nothing.
  */
  predicate Loud(n: Node, e: Effect, sid: Sid, skip: Option<Peer>) {
    && (sid in n.sessions && sid !in e.node.sessions ==>
          forall s :: s in PairOf(n, sid) && skip != Some(s.remote) ==> Send(s, Disconnect(sid)) in e.sends)
    && (sid in e.node.sessions ==> forall x :: x in e.sends ==> !x.msg.Disconnect?)
    && (sid !in n.sessions ==> e.sends == [])
  }

  lemma CloseIsLoud(n: Node, sid: Sid, skip: Option<Peer>)
    ensures Loud(n, CloseCircuit(n, sid, {}), sid, skip)
  {
    hide Answers.ToldExactly;
    var e := CloseCircuit(n, sid, {});
    Answers.ClosingTells(n, sid, {});
    Answers.ToldMembers(e.sends, PairOf(n, sid), Disconnect(sid), None, {});
    if sid !in n.sessions { assert e.sends == []; }
  }

  lemma RelayIsLoud(n: Node, sid: Sid, msg: Msg)
    requires !msg.Disconnect? && (sid in n.sessions ==> PairOf(n, sid) != [])
    ensures Loud(n, SendRelay(n, sid, msg, {}), sid, None)
  {
    hide SendRelay;
    Answers.RelaySends(n, sid, msg, {});
    if sid !in n.sessions { SilentRelay(n, sid, msg); }
  }

  lemma SilentRelay(n: Node, sid: Sid, msg: Msg)
    requires sid !in n.sessions
    ensures SendRelay(n, sid, msg, {}).sends == [] && sid !in SendRelay(n, sid, msg, {}).node.sessions
  {
  }

  lemma PassOnIsLoud(n: Node, sid: Sid, msg: Msg, from: StreamId, closeOnError: bool)
    requires sid in n.sessions && !msg.Disconnect?
    ensures Loud(n, PassOn(n, sid, msg, from, closeOnError, {}), sid, None)
  {
    CloseIsLoud(n, sid, None);
    hide CloseCircuit;
  }

  lemma DisconnectIsLoud(n: Node, sid: Sid, from: Stream)
    ensures Loud(n, Handle(n, Disconnect(sid), from, {}), sid, Some(from.remote))
    ensures sid !in Handle(n, Disconnect(sid), from, {}).node.sessions
  {
    hide Answers.ToldExactly;
    var e := Handle(n, Disconnect(sid), from, {});
    Answers.DisconnectTells(n, sid, from);
    Answers.ToldMembers(e.sends, PairOf(n, sid), Disconnect(sid), Some(from.remote), {});
    if sid !in n.sessions { assert e.sends == []; }
  }

  lemma QuietIsLoud(n: Node, n': Node, sid: Sid)
    requires n'.sessions == n.sessions
    ensures Loud(n, Quiet(n'), sid, None)
  {
  }

  /** With no write failing, every handler is loud. */
  lemma HandleIsLoud(n: Node, msg: Msg, from: Stream, sid: Sid)
    requires Travels(msg, sid) && (sid in n.sessions ==> PairOf(n, sid) != [])
    ensures Loud(n, Handle(n, msg, from, {}), sid, if msg.Disconnect? then Some(from.remote) else None)
  {
    hide Loud, PassOn, SendRelay, CloseCircuit;
    QuietIsLoud(n, n, sid);
    match msg
    case Wake =>
    case Malformed =>
    case Disconnect(_) => DisconnectIsLoud(n, sid, from);
    case Data(_, payload) =>
      if sid in n.sessions { PassOnIsLoud(n, sid, msg, from.id, true); }
      QuietIsLoud(n, n.(circuits := HandleData(n, sid, payload, from, {}).node.circuits), sid);
    case Success(_) =>
      if sid in n.sessions { PassOnIsLoud(n, sid, msg, from.id, false); }
      QuietIsLoud(n, n.(circuits := HandleSuccess(n, sid, from, {}).node.circuits), sid);
    case Probe(_, rand) =>
      if sid in n.sessions { PassOnIsLoud(n, sid, msg, from.id, false); }
      QuietIsLoud(n, n.(probes := n.probes[sid := rand]), sid);
      RelayIsLoud(n, sid, Success(sid));
      CloseIsLoud(n, sid, None);
  }

  // ----- what is written and what is on the wires -----

  lemma PostOneMembers(c: Chain, i: nat, s: Send, d: Dir, k: nat)
    requires c.Sized() && c.Simple() && i < |c.nodes| && k < |c.ids|
    ensures var (w, w') := (c.Wire(d, k), PostOne(c, i, s).Wire(d, k));
            if c.At(d, k) == i && s.to == c.Onward(d, k) then w' == w + [s.msg] else w' == w
  {
  }

  /** A wire keeps what it has; what is added was written to its stream by the node at its start. */
  lemma {:induction false} PostMembers(c: Chain, i: nat, sends: seq<Send>, d: Dir, k: nat)
    requires c.Sized() && c.Simple() && i < |c.nodes| && k < |c.ids|
    ensures var w := c.Wire(d, k);
            var w' := Post(c, i, sends).Wire(d, k);
            && (forall m :: m in w ==> m in w')
            && (c.At(d, k) == i ==> forall m :: Send(c.Onward(d, k), m) in sends ==> m in w')
            && (forall m :: m in w' ==> m in w || (c.At(d, k) == i && Send(c.Onward(d, k), m) in sends))
    decreases |sends|
  {
    if sends != [] {
      var c1 := PostOne(c, i, sends[0]);
      PostOneMembers(c, i, sends[0], d, k);
      hide PostOne, Chain.Wire;
      SameStreams(c, c1, d, k);
      PostMembers(c1, i, sends[1..], d, k);
      assert forall x: Send :: x in sends <==> x == sends[0] || x in sends[1..];
    }
  }

  lemma SameStreams(c: Chain, c1: Chain, d: Dir, k: nat)
    requires c.Sized() && c1.Sized() && c1.ids == c.ids && c1.peers == c.peers && k < |c.ids|
    ensures c1.Onward(d, k) == c.Onward(d, k) && c1.At(d, k) == c.At(d, k) && (c.Simple() ==> c1.Simple())
  {
  }

  predicate Up(c: Chain, i: nat)
    requires c.Sized() && i < |c.nodes|
  {
    c.sid in c.nodes[i].sessions
  }

  /** If only the far end of this hop still has the session, a Disconnect is on its way there. */
  predicate ToldAt(c: Chain, d: Dir, k: nat)
    requires c.Sized() && k < |c.ids|
  {
    !Up(c, c.At(d, k)) && Up(c, c.At(d, k + 1)) ==> Disconnect(c.sid) in c.Wire(d, k)
  }

  /** Only a node without the session has a Disconnect under way. */
  predicate SpokenAt(c: Chain, d: Dir, k: nat)
    requires c.Sized() && k < |c.ids|
  {
    Disconnect(c.sid) in c.Wire(d, k) ==> !Up(c, c.At(d, k))
  }

  /** A falling line on which everyone who needs to hear is told. */
  predicate Flooded(f: Falling) {
    && Falls(f)
    && forall d: Dir, k {:trigger ToldAt(f.chain, d, k)} {:trigger SpokenAt(f.chain, d, k)} ::
         0 <= k < |f.chain.ids| ==> ToldAt(f.chain, d, k) && SpokenAt(f.chain, d, k)
  }

  lemma ActWire(c: Chain, i: nat, e: Effect, d: Dir, k: nat)
    requires c.Sized() && c.Simple() && i < |c.nodes| && k < |c.ids|
    ensures var w := c.Wire(d, k);
            var w' := Act(c, i, e).Wire(d, k);
            && (forall m :: m in w ==> m in w')
            && (c.At(d, k) == i ==> forall m :: Send(c.Onward(d, k), m) in e.sends ==> m in w')
            && (forall m :: m in w' ==> m in w || (c.At(d, k) == i && Send(c.Onward(d, k), m) in e.sends))
  {
    var c1 := c.(nodes := c.nodes[i := e.node]);
    SameStreams(c, c1, d, k);
    PostMembers(c1, i, e.sends, d, k);
    assert c1.Wire(d, k) == c.Wire(d, k);
    hide Post, Chain.Wire, Chain.Onward;
  }

  lemma ActUp(c: Chain, i: nat, e: Effect, j: nat)
    requires c.Sized() && i < |c.nodes| && j < |c.nodes|
    ensures Up(Act(c, i, e), j) <==> if j == i then c.sid in e.node.sessions else Up(c, j)
  {
    hide Post;
  }

  lemma ToldAfter(c: Chain, i: nat, e: Effect, skip: Option<Peer>, d: Dir, k: nat)
    requires c.Sized() && c.Simple() && i < |c.nodes| && k < |c.ids| && Stands(c, i)
    requires (c.sid in e.node.sessions ==> Up(c, i)) && Loud(c.nodes[i], e, c.sid, skip)
    requires ToldAt(c, d, k) || (c.At(d, k + 1) == i && c.sid !in e.node.sessions)
    requires c.At(d, k) == i && skip == Some(c.Onward(d, k).remote) ==> !Up(c, c.At(d, k + 1))
    ensures ToldAt(Act(c, i, e), d, k)
  {
    hide Stands, Chain.Wire, Act, Chain.Onward, Chain.Backward;
    ActWire(c, i, e, d, k);
    ActUp(c, i, e, c.At(d, k));
    ActUp(c, i, e, c.At(d, k + 1));
    if c.At(d, k) == i && Up(c, i) {
      OnwardInPair(c, d, k);
    }
  }

  lemma OnwardInPair(c: Chain, d: Dir, k: nat)
    requires c.Sized() && k < |c.ids| && Stands(c, c.At(d, k)) && Up(c, c.At(d, k))
    ensures c.Onward(d, k) in PairOf(c.nodes[c.At(d, k)], c.sid)
  {
    StandsFacts(c, c.At(d, k));
    hide Stands;
  }

  lemma SpokenAfter(c: Chain, i: nat, e: Effect, skip: Option<Peer>, d: Dir, k: nat)
    requires c.Sized() && c.Simple() && i < |c.nodes| && k < |c.ids| && SpokenAt(c, d, k)
    requires (c.sid in e.node.sessions ==> Up(c, i)) && Loud(c.nodes[i], e, c.sid, skip)
    ensures SpokenAt(Act(c, i, e), d, k)
  {
    hide Chain.Wire, Act, Chain.Onward;
    ActWire(c, i, e, d, k);
    ActUp(c, i, e, c.At(d, k));
  }

  // ----- every event without failure -----

  /** Closes, arrivals, writes and finished handshakes; nothing is lost, no write fails, no notice is handled. */
  predicate Smooth(ev: Event) {
    match ev
    case Closes(_, bad) => bad == {}
    case Writes(_, _, bad) => bad == {}
    case Secures(_, _) => true
    case Arrives(_, _, bad) => bad == {}
    case Lost(_, _) => false
    case Notified(_, _, _) => false
  }

  /** Node i acts without handling a message. */
  lemma OwnActFloods(f: Falling, i: nat, e: Effect, f': Falling)
    requires Flooded(f) && i < |f.chain.nodes| && f'.chain == Act(f.chain, i, e) && Falls(f')
    requires (f.chain.sid in e.node.sessions ==> Up(f.chain, i)) && Loud(f.chain.nodes[i], e, f.chain.sid, None)
    ensures Flooded(f')
  {
    var c := f.chain;
    assert c.Sized() && c.Simple() && Stands(c, i);
    hide Falls, Loud, Stands, Act, ToldAt, SpokenAt, Chain.Simple;
    forall d: Dir, k | 0 <= k < |c.ids|
      ensures ToldAt(f'.chain, d, k) && SpokenAt(f'.chain, d, k)
    {
      assert ToldAt(c, d, k) && SpokenAt(c, d, k);
      ToldAfter(c, i, e, None, d, k);
      SpokenAfter(c, i, e, None, d, k);
    }
  }

  /** The wires of a chain from which the head of one wire was taken. */
  lemma PoppedWire(f: Falling, d0: Dir, k0: nat, d: Dir, k: nat)
    requires f.chain.Sized() && k0 < |f.chain.ids| && k < |f.chain.ids| && f.chain.Wire(d0, k0) != []
    ensures var c := Popped(f, d0, k0).chain;
            && c.Wire(d, k) == (if d == d0 && k == k0 then f.chain.Wire(d0, k0)[1..] else f.chain.Wire(d, k))
            && c.At(d, k) == f.chain.At(d, k) && c.At(d, k + 1) == f.chain.At(d, k + 1)
            && c.Onward(d, k) == f.chain.Onward(d, k) && c.nodes == f.chain.nodes && c.sid == f.chain.sid
  {
  }

  lemma PoppedSpoken(f: Falling, d0: Dir, k0: nat, d: Dir, k: nat)
    requires f.chain.Sized() && k0 < |f.chain.ids| && k < |f.chain.ids| && f.chain.Wire(d0, k0) != []
    requires SpokenAt(f.chain, d, k)
    ensures SpokenAt(Popped(f, d0, k0).chain, d, k)
  {
    PoppedWire(f, d0, k0, d, k);
    hide Popped, Chain.Wire, Chain.At, Chain.Onward;
  }

  /** Only a Disconnect that is handled can leave a hop untold, and then its far end is down. */
  lemma PoppedTold(f: Falling, d0: Dir, k0: nat, d: Dir, k: nat)
    requires f.chain.Sized() && k0 < |f.chain.ids| && k < |f.chain.ids| && f.chain.Wire(d0, k0) != []
    requires ToldAt(f.chain, d, k)
    ensures ToldAt(Popped(f, d0, k0).chain, d, k)
            || (d == d0 && k == k0 && f.chain.Wire(d0, k0)[0] == Disconnect(f.chain.sid))
  {
    PoppedWire(f, d0, k0, d, k);
    hide Popped, Chain.Wire, Chain.At, Chain.Onward;
    var w := f.chain.Wire(d0, k0);
    assert forall m :: m in w ==> m == w[0] || m in w[1..];
  }

  /** Where a hop that leads back to the sender of a Disconnect ends. */
  lemma BackToSender(c: Chain, d0: Dir, k0: nat, d: Dir, k: nat)
    requires c.Sized() && c.Simple() && k0 < |c.ids| && k < |c.ids| && c.At(d, k) == c.At(d0, k0 + 1)
    requires c.Onward(d, k).remote == c.Backward(d0, k0 + 1).remote
    ensures c.At(d, k + 1) == c.At(d0, k0)
  {
  }

  lemma ArriveFloods(f: Falling, d0: Dir, k0: nat, f': Falling)
    requires Flooded(f) && k0 < |f.chain.ids| && f.chain.Wire(d0, k0) != [] && Falls(f') && Falls(Popped(f, d0, k0))
    requires f'.chain == Act(Popped(f, d0, k0).chain, f.chain.At(d0, k0 + 1), HeadEffect(f.chain, d0, k0, {}))
    requires var (c, e) := (f.chain, HeadEffect(f.chain, d0, k0, {}));
             var (n, m) := (c.nodes[c.At(d0, k0 + 1)], c.Wire(d0, k0)[0]);
             && Travels(m, c.sid) && (c.sid in e.node.sessions ==> c.sid in n.sessions)
             && Loud(n, e, c.sid, if m.Disconnect? then Some(c.Backward(d0, k0 + 1).remote) else None)
             && (m.Disconnect? ==> c.sid !in e.node.sessions)
    ensures Flooded(f')
  {
    var (c, c1, e) := (f.chain, Popped(f, d0, k0).chain, HeadEffect(f.chain, d0, k0, {}));
    var (i, m) := (c.At(d0, k0 + 1), c.Wire(d0, k0)[0]);
    var skip := if m.Disconnect? then Some(c.Backward(d0, k0 + 1).remote) else None;
    assert c.Sized() && c.Simple() && c1.Simple() && Stands(c1, i) && SpokenAt(c, d0, k0);
    assert m.Disconnect? ==> m == Disconnect(c.sid) && !Up(c, c.At(d0, k0));
    hide Falls, Loud, Stands, Act, ToldAt, SpokenAt, Chain.Simple, HeadEffect, Chain.Wire, Chain.Onward, Chain.Backward;
    forall d: Dir, k | 0 <= k < |c.ids|
      ensures ToldAt(f'.chain, d, k) && SpokenAt(f'.chain, d, k)
    {
      assert ToldAt(c, d, k) && SpokenAt(c, d, k);
      PoppedTold(f, d0, k0, d, k);
      PoppedSpoken(f, d0, k0, d, k);
      PoppedWire(f, d0, k0, d, k);
      if c.At(d, k) == i && skip == Some(c.Onward(d, k).remote) { BackToSender(c, d0, k0, d, k); }
      ToldAfter(c1, i, e, skip, d, k);
      SpokenAfter(c1, i, e, skip, d, k);
    }
  }

  /** Every smooth event keeps the line flooded. */
  lemma StepFloods(f: Falling, ev: Event)
    requires Flooded(f) && f.chain.Sized() && Enabled(f, ev) && Smooth(ev)
    ensures Flooded(After(f, ev))
  {
    StepFalls(f, ev);
    var c := f.chain;
    match ev
    case Closes(i, _) =>
      SiteFacts(f, i);
      hide Falls, Loud, CloseCircuit, Rank, Wanes;
      CloseIsLoud(c.nodes[i], c.sid, None);
      CloseDrops(c.nodes[i], c.sid);
      OwnActFloods(f, i, CloseCircuit(c.nodes[i], c.sid, {}), After(f, ev));
    case Writes(i, payload, _) =>
      SiteFacts(f, i);
      hide Falls, Loud, SendRelay, Rank, Wanes;
      RelayIsLoud(c.nodes[i], c.sid, Data(c.sid, payload));
      RelayKeeps(c.nodes[i], c.sid, Data(c.sid, payload));
      OwnActFloods(f, i, SendRelay(c.nodes[i], c.sid, Data(c.sid, payload), {}), After(f, ev));
    case Secures(i, x) =>
      var n' := c.nodes[i].(secured := c.nodes[i].secured[c.sid := x]);
      hide Falls, Loud, Rank, Wanes;
      QuietIsLoud(c.nodes[i], n', c.sid);
      OwnActFloods(f, i, Quiet(n'), After(f, ev));
    case Arrives(d, k, _) =>
      SiteFacts(f, c.At(d, k + 1));
      FallsTravels(f);
      HeadTravels(c, d, k);
      PopFalls(f, d, k);
      hide Falls, Loud, Handle, Rank, Wanes, Chain.Wire, Chain.Backward;
      HandleIsLoud(c.nodes[c.At(d, k + 1)], c.Wire(d, k)[0], c.Backward(d, k + 1), c.sid);
      HeadSettles(f, d, k, {});
      SettledNode(c, d, k);
      ArriveFloods(f, d, k, After(f, ev));
  }

  lemma SiteFacts(f: Falling, i: nat)
    requires Falls(f) && i < |f.chain.nodes|
    ensures var n := f.chain.nodes[i]; f.chain.sid in n.sessions ==> PairOf(n, f.chain.sid) != []
  {
    FallsStands(f, i);
    StandsFacts(f.chain, i);
  }

  lemma CloseDrops(n: Node, sid: Sid)
    ensures sid !in CloseCircuit(n, sid, {}).node.sessions
  {
  }

  lemma RelayKeeps(n: Node, sid: Sid, msg: Msg)
    ensures sid in SendRelay(n, sid, msg, {}).node.sessions ==> sid in n.sessions
  {
  }

  lemma SettledNode(c: Chain, d: Dir, k: nat)
    requires c.Sized() && k < |c.ids| && c.Wire(d, k) != [] && Travels(c.Wire(d, k)[0], c.sid)
    requires Settles(c.nodes[c.At(d, k + 1)], HeadEffect(c, d, k, {}), c.Wire(d, k)[0], c.Backward(d, k + 1).id, c.sid)
    ensures var (n, e, m) := (c.nodes[c.At(d, k + 1)], HeadEffect(c, d, k, {}), c.Wire(d, k)[0]);
            && (c.sid in e.node.sessions ==> c.sid in n.sessions)
            && (m.Disconnect? ==> c.sid !in e.node.sessions)
  {
    hide Orderly, Calm, Chain.Wire, Chain.Backward;
    var m := c.Wire(d, k)[0];
    if m.Disconnect? {
      DisconnectIsLoud(c.nodes[c.At(d, k + 1)], c.sid, c.Backward(d, k + 1));
    }
    hide Handle;
  }

  // ----- whole runs -----

  lemma {:induction false} RunFloods(states: seq<Falling>, events: seq<Event>)
    requires IsRun(states, events) && Flooded(states[0]) && forall j :: 0 <= j < |events| ==> Smooth(events[j])
    ensures Flooded(states[|events|])
    decreases |events|
  {
    hide Flooded, After, Enabled, Smooth;
    if events != [] {
      var n := |events| - 1;
      var before := states[..|events|];
      assert forall j :: 0 <= j < n ==> events[..n][j] == events[j] && before[j] == states[j];
      RunFloods(before, events[..n]);
      assert Enabled(states[n], events[n]) && states[n + 1] == After(states[n], events[n]);
      StepFloods(states[n], events[n]);
    }
  }

  predicate NothingUnderWay(c: Chain)
    requires c.Sized()
  {
    forall d: Dir, k :: 0 <= k < |c.ids| ==> c.Wire(d, k) == []
  }

  /** With nothing under way the two ends of a link stand or fall together. */
  lemma QuietLink(f: Falling, l: nat)
    requires Flooded(f) && f.chain.Sized() && NothingUnderWay(f.chain) && l < |f.chain.ids|
    ensures Up(f.chain, l) <==> Up(f.chain, l + 1)
  {
    hide Falls;
    var (c, h) := (f.chain, |f.chain.ids|);
    assert ToldAt(c, Rightward, l) && ToldAt(c, Leftward, h - 1 - l);
    assert c.Wire(Rightward, l) == [] && c.Wire(Leftward, h - 1 - l) == [];
    assert c.At(Rightward, l) == l && c.At(Leftward, h - 1 - l) == l + 1 && c.At(Leftward, h - l) == l;
  }

  lemma {:induction false} QuietTogether(f: Falling, i: nat, j: nat)
    requires Flooded(f) && f.chain.Sized() && NothingUnderWay(f.chain) && i <= j < |f.chain.nodes|
    ensures Up(f.chain, i) <==> Up(f.chain, j)
    decreases j - i
  {
    hide Flooded, NothingUnderWay, Up;
    if i < j {
      QuietLink(f, i);
      QuietTogether(f, i + 1, j);
    }
  }

  /** No Disconnect is on any wire. */
  predicate Undisturbed(c: Chain)
    requires c.Sized()
  {
    forall d: Dir, k :: 0 <= k < |c.ids| ==> Disconnect(c.sid) !in c.Wire(d, k)
  }

  lemma OpenFloods(c: Chain)
    requires c.Open() && c.sid != UNBOUND && (forall i :: 0 <= i < |c.nodes| ==> IndexFits(c, i)) && Undisturbed(c)
    ensures Flooded(Falling(c, {}))
  {
    OpenFalls(c);
    hide Falls, IndexFits, Chain.Wire;
    forall d: Dir, k | 0 <= k < |c.ids|
      ensures ToldAt(c, d, k) && SpokenAt(c, d, k)
    {
      assert c.Live(c.At(d, k));
    }
  }

  /**
    Main result. An open line of any length, with any Data, probes and Success under way. Any nodes
    close, any of them write and finish handshakes, and what is written arrives; no write fails, no
    message gets lost, and no notice of a closed stream is handled. Then no run is longer than its
    measure and the price of its writes, and whenever nothing is under way after some node has
    closed, no node has anything left of the session, and all other sessions are as they were.
  */
  lemma DisconnectsSuffice(c: Chain, states: seq<Falling>, events: seq<Event>)
    requires c.Open() && c.sid != UNBOUND && (forall i :: 0 <= i < |c.nodes| ==> IndexFits(c, i)) && Undisturbed(c)
    requires IsRun(states, events) && states[0] == Falling(c, {})
    requires forall j :: 0 <= j < |events| ==> Smooth(events[j])
    requires exists j :: 0 <= j < |events| && events[j].Closes?
    ensures |events| <= Rank(states[0]) + Budget(events, |c.ids|)
    ensures var last := states[|events|].chain;
            && last.Sized() && |last.nodes| == |c.nodes| && Wanes(c, last)
            && (NothingUnderWay(last) ==> forall i :: 0 <= i < |c.nodes| ==> Cleared(last.nodes[i], c.sid))
  {
    OpenFloods(c);
    RunFloods(states, events);
    var j :| 0 <= j < |events| && events[j].Closes?;
    FloodedFalls(states[0]);
    ClosedStaysDown(states, events, j);
    RunWanes(states, events);
    var f := states[|events|];
    assert f in states;
    FloodedFalls(f);
    WanesShape(c, f.chain);
    hide Flooded, Falls, Chain.Open, IndexFits, Rank, Budget, IsRun, After, Enabled, Undisturbed;
    if NothingUnderWay(f.chain) {
      var i0 := events[j].i;
      forall i | 0 <= i < |c.nodes|
        ensures Cleared(f.chain.nodes[i], c.sid)
      {
        QuietTogether(f, if i <= i0 then i else i0, if i <= i0 then i0 else i);
        FallsStands(f, i);
        StandsCleared(f.chain, i);
      }
    }
  }

  lemma FloodedFalls(f: Falling)
    requires Flooded(f)
    ensures Falls(f) && f.chain.Sized()
  {
  }

  // ----- one close, then arrivals only -----

  /** Everything under way can arrive, one message after the other, until nothing is left. */
  lemma {:induction false} Empties(f: Falling) returns (states: seq<Falling>, events: seq<Event>)
    requires Falls(f)
    ensures IsRun(states, events) && states[0] == f && |states| == |events| + 1
    ensures forall j :: 0 <= j < |events| ==> events[j].Arrives? && Smooth(events[j])
    ensures states[|events|].chain.Sized() && NothingUnderWay(states[|events|].chain)
    decreases Rank(f)
  {
    assert f.chain.Sized();
    if NothingUnderWay(f.chain) {
      states, events := [f], [];
    } else {
      var d: Dir, k :| 0 <= k < |f.chain.ids| && f.chain.Wire(d, k) != [];
      var ev := Arrives(d, k, {});
      assert Enabled(f, ev);
      StepFalls(f, ev);
      hide Falls, After, Rank, Wanes, Enabled, NothingUnderWay;
      var more, rest := Empties(After(f, ev));
      states, events := RunFrom(f, ev, more, rest);
    }
  }

  lemma RunFrom(f: Falling, ev: Event, more: seq<Falling>, rest: seq<Event>)
    returns (states: seq<Falling>, events: seq<Event>)
    requires f.chain.Sized() && Enabled(f, ev) && IsRun(more, rest) && more[0] == After(f, ev)
    ensures states == [f] + more && events == [ev] + rest && IsRun(states, events)
    ensures states[|events|] == more[|rest|]
  {
    hide After, Enabled;
    states, events := [f] + more, [ev] + rest;
    forall j | 0 <= j < |events|
      ensures states[j].chain.Sized() && Enabled(states[j], events[j]) && states[j + 1] == After(states[j], events[j])
    {
      if j > 0 { assert states[j] == more[j - 1] && events[j] == rest[j - 1] && states[j + 1] == more[j]; }
    }
  }

  /**
    From every open line, for every node: after it closes there is a run of arrivals alone, without
    a notice or a failed write, at the end of which the session is nowhere.
  */
  lemma CloseAndArrive(c: Chain, i: nat) returns (states: seq<Falling>, events: seq<Event>)
    requires c.Open() && c.sid != UNBOUND && (forall j :: 0 <= j < |c.nodes| ==> IndexFits(c, j)) && Undisturbed(c)
    requires i < |c.nodes|
    ensures IsRun(states, events) && states[0] == Falling(c, {}) && events != [] && events[0] == Closes(i, {})
    ensures forall j :: 1 <= j < |events| ==> events[j].Arrives? && Smooth(events[j])
    ensures var last := states[|events|].chain;
            |last.nodes| == |c.nodes| && forall j :: 0 <= j < |c.nodes| ==> Cleared(last.nodes[j], c.sid)
  {
    var (f, ev) := (Falling(c, {}), Closes(i, {}));
    OpenFloods(c);
    FloodedFalls(f);
    assert c.Live(i) && Enabled(f, ev);
    StepFalls(f, ev);
    hide Chain.Open, IndexFits, After, Enabled, Rank, Budget, Falls, NothingUnderWay, Cleared, Wanes, Chain.Live;
    var more, rest := Empties(After(f, ev));
    states, events := RunFrom(f, ev, more, rest);
    DisconnectsSuffice(c, states, events);
  }
}
