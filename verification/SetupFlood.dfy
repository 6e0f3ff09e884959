/**
  Disconnect messages along set-up runs: one is under way on a stream only if the peer that wrote it
  no longer holds that stream, so the line of a kept route is undisturbed and flooding brings it down.
*/
module SetupFlood {
  import opened Basics
  import opened Relay
  import opened NodeFacts
  import L = LineModel
  import opened CircuitSetup
  import opened SetupInvariant
  import opened SetupTheorem
  import SetupLine
  import SetupNodes
  import SetupProbes
  import SetupRuns
  import NodeRuns
  import T = Teardown
  import F = Flooding

  /** Whoever has a Disconnect under way has let that stream go. */
  predicate Whispered(plan: Plan, g: State) {
    forall w | w in g.wires :: Disconnect(plan.sid) in g.wires[w] ==> (w.src, w.id) in g.lost
  }

  /** An effect tells Disconnect only to streams it lets go. */
  predicate Parting(n: Node, e: Effect, sid: Sid) {
    forall x :: x in e.sends && x.msg == Disconnect(sid) ==> x.to in PairOf(n, sid) && x.to !in PairOf(e.node, sid)
  }

  lemma CloseParts(n: Node, sid: Sid, bad: set<StreamId>)
    ensures Parting(n, CloseCircuit(n, sid, bad), sid)
  {
    FarewellFacts(PairOf(n, sid), sid, bad);
  }

  lemma SilentParts(n: Node, e: Effect, sid: Sid)
    requires forall x :: x in e.sends ==> !x.msg.Disconnect?
    ensures Parting(n, e, sid)
  {
  }

  lemma BroadcastParts(n: Node, sid: Sid, msg: Msg, skip: Option<Peer>, bad: set<StreamId>)
    requires !msg.Disconnect?
    ensures Parting(n, Broadcast(n, sid, msg, skip, bad), sid)
  {
    CloseParts(n, sid, bad);
    WriteRoundFacts(PairOf(n, sid), msg, skip, bad);
  }

  lemma PassOnParts(n: Node, sid: Sid, msg: Msg, from: StreamId, closeOnError: bool, bad: set<StreamId>)
    requires sid in n.sessions && !msg.Disconnect?
    ensures Parting(n, PassOn(n, sid, msg, from, closeOnError, bad), sid)
  {
    CloseParts(n, sid, bad);
  }

  lemma DisconnectParts(n: Node, sid: Sid, from: Stream, bad: set<StreamId>)
    ensures Parting(n, HandleDisconnect(n, sid, from, bad), sid)
  {
    DisconnectFacts(n, sid, from, bad);
    hide HandleDisconnect;
    var e := HandleDisconnect(n, sid, from, bad);
    forall x | x in e.sends && x.msg == Disconnect(sid)
      ensures x.to in PairOf(n, sid) && x.to !in PairOf(e.node, sid)
    {
      var i :| 0 <= i < |e.sends| && e.sends[i] == x;
    }
  }

  lemma HandleParts(n: Node, msg: Msg, from: Stream, sid: Sid, bad: set<StreamId>)
    requires Travels(msg, sid)
    ensures Parting(n, Handle(n, msg, from, bad), sid)
  {
    hide Parting, PassOn, Broadcast, CloseCircuit, HandleDisconnect;
    SilentParts(n, Quiet(Handle(n, msg, from, bad).node), sid);
    match msg
    case Wake =>
    case Malformed =>
    case Disconnect(_) => DisconnectParts(n, sid, from, bad);
    case Data(_, _) => if sid in n.sessions { PassOnParts(n, sid, msg, from.id, true, bad); }
    case Success(_) => if sid in n.sessions { PassOnParts(n, sid, msg, from.id, false, bad); }
    case Probe(_, rand) =>
      if sid in n.sessions { PassOnParts(n, sid, msg, from.id, false, bad); }
      BroadcastParts(n, sid, Success(sid), None, bad);
      CloseParts(n, sid, bad);
  }

  lemma StreamCloseParts(n: Node, id: StreamId, sid: Sid, bad: set<StreamId>)
    requires id in n.streams && n.streams[id].sid == sid
    ensures Parting(n, HandleStreamClosed(n, id, bad), sid)
  {
    CloseParts(n, sid, bad);
  }

  // ----- wires and history -----

  lemma {:induction false} PostWhispers(wires: map<Wire, seq<Msg>>, src: Peer, sends: seq<Send>, m: Msg, w: Wire)
    requires m in On(Post(wires, src, sends), w)
    ensures m in On(wires, w) || (w.src == src && exists x :: x in sends && x.msg == m && x.to.id == w.id)
    decreases |sends|
  {
    if sends != [] {
      var w0 := Wire(sends[0].to.id, src, sends[0].to.remote);
      var wires1 := wires[w0 := On(wires, w0) + [sends[0].msg]];
      PostWhispers(wires1, src, sends[1..], m, w);
      if m in On(wires1, w) {
        if m !in On(wires, w) { assert sends[0] in sends; }
      } else {
        var x :| x in sends[1..] && x.msg == m && x.to.id == w.id;
        assert x in sends;
      }
    }
  }

  lemma ActWhispers(plan: Plan, g: State, p: Peer, e: Effect)
    requires Whispered(plan, g) && p in g.nodes && Parting(g.nodes[p], e, plan.sid)
    ensures Whispered(plan, Act(plan, g, p, e))
  {
    hide Post;
    var g' := Act(plan, g, p, e);
    forall w | w in g'.wires && Disconnect(plan.sid) in g'.wires[w]
      ensures (w.src, w.id) in g'.lost
    {
      PostWhispers(g.wires, p, e.sends, Disconnect(plan.sid), w);
      if Disconnect(plan.sid) !in On(g.wires, w) {
        var x :| x in e.sends && x.msg == Disconnect(plan.sid) && x.to.id == w.id;
        assert x.to in PairOf(g.nodes[p], plan.sid) && x.to !in PairOf(e.node, plan.sid);
      }
    }
  }

  lemma WhisperedOnly(plan: Plan, g: State, g': State)
    requires Whispered(plan, g) && g'.wires == g.wires && g.lost <= g'.lost
    ensures Whispered(plan, g')
  {
  }

  lemma RelaysWhispers(plan: Plan, g: State, p: Peer, msg: Msg, bad: set<StreamId>, g': State)
    requires Whispered(plan, g) && !msg.Disconnect? && Relays(plan, g, p, msg, bad, g')
    ensures Whispered(plan, g')
  {
    hide Whispered, Parting, Act, Broadcast;
    BroadcastParts(g.nodes[p], plan.sid, msg, None, bad);
    ActWhispers(plan, g, p, SendRelay(g.nodes[p], plan.sid, msg, bad));
  }

  lemma DeliversWhispers(plan: Plan, g: State, w: Wire, bad: set<StreamId>, g': State)
    requires Whispered(plan, g) && AllWiresTravel(g.wires, plan.sid) && DeliversFrom(plan, g, w, bad, g')
    ensures Whispered(plan, g')
  {
    assert Travels(g.wires[w][0], plan.sid) && Whispered(plan, Popped(g, w));
    hide Whispered, Parting, Act, Handle;
    HandleParts(g.nodes[w.dst], g.wires[w][0], Stream(w.id, w.src), plan.sid, bad);
    ActWhispers(plan, Popped(g, w), w.dst, Handle(g.nodes[w.dst], g.wires[w][0], Stream(w.id, w.src), bad));
  }

  /** An exchange whose acceptor is not asked to be the relay writes nothing. */
  lemma PlainWhispers(plan: Plan, g: State, p: Peer, q: Peer, id: StreamId, roleP: Role, roleQ: Role, g': State)
    requires Whispered(plan, g) && CanExchange(plan, g, p, q, id, roleQ) && roleQ != Relayer
    requires var x := Exchange(plan, g, p, q, id, roleP, roleQ, {}); g'.wires == x.wires && g'.lost == x.lost
    ensures Whispered(plan, g')
  {
    SetupRuns.ExchangeWires(plan, g, p, q, id, roleP, roleQ, {});
    hide HandleSetSession, CompleteSetSession, Post, Whispered;
    WhisperedOnly(plan, g, g');
  }

  lemma PickWhispers(plan: Plan, g: State, relay: Peer, id: StreamId, bad: set<StreamId>, g': State)
    requires Inv(plan, g) && Whispered(plan, g) && PicksRelay(plan, g, relay, id, bad, g')
    ensures Whispered(plan, g')
  {
    EntryStreams(plan, g);
    assert g.links.ce.Link? && g.links.ej.Link?;
    hide Inv, PicksRelay, Whispered;
    PickKeeps(plan, g, relay, id, bad, g');
    if Quietly(g, g') {
      WhisperedOnly(plan, g, g');
    } else {
      var (keep, drop) := (Stream(g.links.ce.id, plan.caller), Stream(g.links.ej.id, g.links.ej.b));
      SwapWhispers(plan, g, id, keep, drop, g'.swapTold, g');
    }
  }

  lemma SwapWhispers(plan: Plan, g: State, id: StreamId, keep: Stream, drop: Stream, told: bool, g': State)
    requires Whispered(plan, g) && SwapState(plan, g, id, keep, drop, told, g')
    ensures Whispered(plan, g')
  {
    hide Post, Gains;
    var sends := if told then [Send(drop, Disconnect(plan.sid))] else [];
    forall w | w in g'.wires && Disconnect(plan.sid) in g'.wires[w]
      ensures (w.src, w.id) in g'.lost
    {
      PostWhispers(g.wires, plan.entry, sends, Disconnect(plan.sid), w);
    }
  }

  lemma ExchangeWhispers(plan: Plan, g: State, move: Move, g': State)
    requires Inv(plan, g) && Whispered(plan, g) && Step(plan, g, move, g') && IsExchange(move)
    ensures Whispered(plan, g')
  {
    hide Whispered, Exchange, Accepts, IsSwap, Fresh, Inv;
    match move
    case CallerOpens(id) => PlainWhispers(plan, g, plan.caller, plan.entry, id, Caller, Entry, g');
    case EntryServesBoth(id) => PlainWhispers(plan, g, plan.exit, plan.answer, id, Exit, Answer, g');
    case ExitCallsAnswer(id) => PlainWhispers(plan, g, plan.exit, plan.answer, id, Exit, Answer, g');
    case EntryJoins(joint, id) => PlainWhispers(plan, g, plan.entry, joint, id, Entry, Joint, g');
    case ExitPicksRelay(relay, id, bad) => hide PicksRelay; PickWhispers(plan, g, relay, id, bad, g');
    case RelayExpends(id) => PlainWhispers(plan, g, g.links.xr.b, g.links.ej.b, id, Relayer, Joint, g');
  }

  /** Every move keeps it so. */
  lemma StepWhispers(plan: Plan, g: State, move: Move, g': State)
    requires Inv(plan, g) && Whispered(plan, g) && Step(plan, g, move, g')
    ensures Whispered(plan, g')
  {
    assert AllWiresTravel(g.wires, plan.sid);
    hide Inv, Whispered, Parting, Act;
    hide Opens, Requests, CallsAnswer, Joins, PicksRelay, Expends, Relays, DeliversFrom, ActsElsewhere;
    if IsExchange(move) {
      ExchangeWhispers(plan, g, move, g');
    } else {
      match move
      case CallerRequests => RequestWhispers(plan, g, g');
      case EntryAnnounces(bad) => RelaysWhispers(plan, g, plan.entry, Success(plan.sid), bad, g');
      case EntryGossips => WhisperedOnly(plan, g, g');
      case EntryProbes(bad, rand) =>
        WhisperedOnly(plan, g, g.(entryProbed := true));
        RelaysWhispers(plan, g.(entryProbed := true), plan.entry, Probe(plan.sid, rand), bad, g');
      case ExitAnnounces(bad) => RelaysWhispers(plan, g, plan.exit, Success(plan.sid), bad, g');
      case RelayAnnounces(bad) =>
        WhisperedOnly(plan, g, g.(expended := true));
        RelaysWhispers(plan, g.(expended := true), g.links.xr.b, Success(plan.sid), bad, g');
      case ExitProbes(bad, rand) =>
        WhisperedOnly(plan, g, g.(exitProbed := true));
        RelaysWhispers(plan, g.(exitProbed := true), plan.exit, Probe(plan.sid, rand), bad, g');
      case Delivers(w, bad) => DeliversWhispers(plan, g, w, bad, g');
      case Closes(p, bad) =>
        CloseParts(g.nodes[p], plan.sid, bad);
        ActWhispers(plan, g, p, CloseCircuit(g.nodes[p], plan.sid, bad));
      case StreamCloses(p, id, bad) =>
        StreamCloseParts(g.nodes[p], id, plan.sid, bad);
        ActWhispers(plan, g, p, HandleStreamClosed(g.nodes[p], id, bad));
      case Writes(p, payload, bad) => RelaysWhispers(plan, g, p, Data(plan.sid, payload), bad, g');
      case Elsewhere(p, op) => ElsewhereWhispers(plan, g, p, op, g');
      case _ =>
    }
  }

  lemma RequestWhispers(plan: Plan, g: State, g': State)
    requires Whispered(plan, g) && Requests(plan, g, g')
    ensures Whispered(plan, g')
  {
    hide Whispered;
    WhisperedOnly(plan, g, g');
  }

  lemma ElsewhereWhispers(plan: Plan, g: State, p: Peer, op: NodeRuns.Op, g': State)
    requires Whispered(plan, g) && ActsElsewhere(plan, g, p, op, g')
    ensures Whispered(plan, g')
  {
    hide Whispered, NodeRuns.Apply, NodeRuns.Fair;
    WhisperedOnly(plan, g, g');
  }

  lemma {:induction false} RunWhispers(plan: Plan, states: seq<State>, moves: seq<Move>, i: nat)
    requires IsRun(plan, states, moves) && i < |states|
    ensures Whispered(plan, states[i])
  {
    hide Inv, SetupProbes.ProbeInv, Step;
    if i > 0 {
      RunWhispers(plan, states, moves, i - 1);
      RunKeeps(plan, states, moves, i - 1);
      assert Step(plan, states[i - 1], moves[i - 1], states[i]);
      hide Whispered;
      StepWhispers(plan, states[i - 1], moves[i - 1], states[i]);
    }
  }

  // ----- the line of a reached state -----

  /** A stream that a peer holds has not been lost. */
  lemma HeldIsKept(plan: Plan, g: State, p: Peer, s: Stream)
    requires Inv(plan, g) && p in g.nodes && s in PairOf(g.nodes[p], plan.sid)
    ensures (p, s.id) !in g.lost
  {
    hide RolesOk, EntryOk, LostOk, AllWiresTravel, CastOk;
    assert Agrees(plan, g, p);
    HeldUnlost(g.links, g.lost, p, s);
  }

  lemma HeldUnlost(ls: Links, lost: set<(Peer, StreamId)>, p: Peer, s: Stream)
    requires DistinctIds(ls) && s in Held(ls, lost, p)
    ensures (p, s.id) !in lost
  {
  }

  /** The stream of hop k, as the peer at its start holds it. */
  lemma HopHeld(plan: Plan, g: State, path: seq<Peer>, ids: seq<StreamId>, d: L.Dir, k: nat)
    requires IsLine(plan, g, path, ids) && k < |ids|
    ensures var c := SetupLine.ChainOf(plan, g, path, ids);
            var (p, s) := (path[c.At(d, k)], Stream(ids[c.Over(d, k)], path[c.At(d, k + 1)]));
            && p in g.nodes && s in PairOf(g.nodes[p], plan.sid)
            && c.Wire(d, k) == On(g.wires, Wire(s.id, p, s.remote))
  {
    hide Distinct, On, Placed;
    var c := SetupLine.ChainOf(plan, g, path, ids);
    var (l, i) := (c.Over(d, k), c.At(d, k));
    var s := Stream(ids[l], path[c.At(d, k + 1)]);
    assert path[i] in g.nodes && Placed(g.nodes[path[i]], plan.sid, path, ids, i);
    HoldsNeighbour(g.nodes[path[i]], plan.sid, path, ids, i, l, s);
  }

  lemma KeptIsUntold(plan: Plan, g: State, p: Peer, s: Stream)
    requires Inv(plan, g) && Whispered(plan, g) && p in g.nodes && s in PairOf(g.nodes[p], plan.sid)
    ensures Disconnect(plan.sid) !in On(g.wires, Wire(s.id, p, s.remote))
  {
    HeldIsKept(plan, g, p, s);
    hide Inv;
  }

  /** On a line there is no Disconnect under way. */
  lemma LineIsUndisturbed(plan: Plan, g: State, path: seq<Peer>, ids: seq<StreamId>)
    requires Inv(plan, g) && Whispered(plan, g) && IsLine(plan, g, path, ids)
    ensures F.Undisturbed(SetupLine.ChainOf(plan, g, path, ids))
  {
    var c := SetupLine.ChainOf(plan, g, path, ids);
    assert |c.ids| == |ids| && c.sid == plan.sid && |path| == |ids| + 1;
    hide Inv, Whispered, IsLine, On, SetupLine.ChainOf, L.Chain.Wire;
    forall d: L.Dir, k | 0 <= k < |c.ids|
      ensures Disconnect(plan.sid) !in c.Wire(d, k)
    {
      HopHeld(plan, g, path, ids, d, k);
      KeptIsUntold(plan, g, path[c.At(d, k)], Stream(ids[c.Over(d, k)], path[c.At(d, k + 1)]));
    }
  }

  lemma HoldsNeighbour(n: Node, sid: Sid, path: seq<Peer>, ids: seq<StreamId>, i: nat, l: nat, s: Stream)
    requires |path| == |ids| + 1 >= 2 && i < |path| && Placed(n, sid, path, ids, i)
    requires (l == i && i < |ids| && s == Stream(ids[i], path[i + 1]))
          || (l + 1 == i && s == Stream(ids[i - 1], path[i - 1]))
    ensures s in PairOf(n, sid)
  {
    var pair := PairOf(n, sid);
    assert s == pair[0] || s == pair[|pair| - 1];
  }

  /**
    Main result. Every line that set-up reaches can be flooded: from any of its nodes, after a close,
    arrivals of Disconnect messages alone bring it down everywhere.
  */
  lemma ReachedLineFloods(plan: Plan, states: seq<State>, moves: seq<Move>, k: nat, path: seq<Peer>,
                          ids: seq<StreamId>, i: nat)
    returns (falls: seq<T.Falling>, events: seq<T.Event>)
    requires IsRun(plan, states, moves) && k < |states| && IsLine(plan, states[k], path, ids) && i < |path|
    ensures var c := SetupLine.ChainOf(plan, states[k], path, ids);
            && F.Undisturbed(c)
            && T.IsRun(falls, events) && falls[0] == T.Falling(c, {}) && events != [] && events[0] == T.Closes(i, {})
            && (forall j :: 1 <= j < |events| ==> events[j].Arrives? && F.Smooth(events[j]))
            && forall j :: 0 <= j < |falls[|events|].chain.nodes| ==>
                             T.Cleared(falls[|events|].chain.nodes[j], plan.sid)
  {
    hide Inv, SetupProbes.ProbeInv, IsRun, IsLine, SetupLine.ChainOf, Whispered, F.Undisturbed, T.Falls, L.Chain.Open;
    RunKeeps(plan, states, moves, k);
    RunWhispers(plan, states, moves, k);
    LineIsUndisturbed(plan, states[k], path, ids);
    SetupLine.ReachedLineIsOpen(plan, states, moves, k, path, ids);
    var c := SetupLine.ChainOf(plan, states[k], path, ids);
    ChainShape(plan, states[k], path, ids);
    FallsIndexed(c);
    falls, events := F.CloseAndArrive(c, i);
  }

  lemma ChainShape(plan: Plan, g: State, path: seq<Peer>, ids: seq<StreamId>)
    requires IsLine(plan, g, path, ids)
    ensures |SetupLine.ChainOf(plan, g, path, ids).nodes| == |path|
    ensures SetupLine.ChainOf(plan, g, path, ids).sid == plan.sid
  {
  }

  lemma FallsIndexed(c: L.Chain)
    requires T.Falls(T.Falling(c, {}))
    ensures c.Sized() && c.sid != UNBOUND && forall i :: 0 <= i < |c.nodes| ==> T.IndexFits(c, i)
  {
    forall i | 0 <= i < |c.nodes|
      ensures T.IndexFits(c, i)
    {
      T.FallsStands(T.Falling(c, {}), i);
    }
  }
}
