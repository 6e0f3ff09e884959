/** The line that circuit set-up builds is an open chain, to which conservation and teardown apply. */
module SetupLine {
  import opened Basics
  import opened Relay
  import opened NodeFacts
  import opened LineModel
  import opened CircuitSetup
  import SetupInvariant
  import SetupProbes
  import opened SetupNodes
  import opened SetupTheorem
  import NodeRuns
  import C = Conservation
  import T = Teardown

  /** The nodes and wires along a path of the circuit-building system. */
  function ChainOf(plan: Plan, g: State, path: seq<Peer>, ids: seq<StreamId>): (c: Chain)
    requires IsLine(plan, g, path, ids)
    ensures c.Sized()
  {
    Chain(plan.sid, path, ids,
          seq(|path|, i requires 0 <= i < |path| => g.nodes[path[i]]),
          seq(|ids|, i requires 0 <= i < |ids| => On(g.wires, CircuitSetup.Wire(ids[i], path[i], path[i + 1]))),
          seq(|ids|, i requires 0 <= i < |ids| => On(g.wires, CircuitSetup.Wire(ids[i], path[i + 1], path[i]))))
  }

  // ----- over every run -----

  lemma {:induction false} RunNodes(plan: Plan, states: seq<State>, moves: seq<Move>, i: nat)
    requires IsRun(plan, states, moves) && i < |states|
    ensures NodesOk(plan, states[i])
  {
    hide SetupInvariant.Inv, SetupProbes.ProbeInv, NodesOk, Step;
    if i == 0 {
      InitialNodes(plan, states[0]);
    } else {
      RunNodes(plan, states, moves, i - 1);
      RunKeeps(plan, states, moves, i - 1);
      assert Step(plan, states[i - 1], moves[i - 1], states[i]);
      StepNodes(plan, states[i - 1], moves[i - 1], states[i]);
    }
  }

  /** Before an end writes there is nothing to read anywhere. */
  lemma {:induction false} RunSilent(plan: Plan, states: seq<State>, moves: seq<Move>, i: nat)
    requires IsRun(plan, states, moves) && i < |states| && forall k :: 0 <= k < i ==> !moves[k].Writes?
    ensures Silent(plan, states[i])
  {
    hide SetupInvariant.Inv, SetupProbes.ProbeInv, Step;
    if i > 0 {
      RunSilent(plan, states, moves, i - 1);
      RunKeeps(plan, states, moves, i - 1);
      assert Step(plan, states[i - 1], moves[i - 1], states[i]);
      hide Silent;
      StepSilent(plan, states[i - 1], moves[i - 1], states[i]);
    }
  }

  // ----- one state -----

  lemma LineTravels(plan: Plan, g: State, path: seq<Peer>, ids: seq<StreamId>)
    requires IsLine(plan, g, path, ids) && SetupInvariant.AllWiresTravel(g.wires, plan.sid)
    ensures ChainOf(plan, g, path, ids).Travelling()
  {
    hide Placed, Distinct;
    assert forall w :: forall i :: 0 <= i < |On(g.wires, w)| ==> Travels(On(g.wires, w)[i], plan.sid);
  }

  lemma PlaceIsLive(plan: Plan, g: State, path: seq<Peer>, ids: seq<StreamId>, i: nat)
    requires IsLine(plan, g, path, ids) && NodesOk(plan, g) && g.requested && i < |path|
    ensures var c := ChainOf(plan, g, path, ids);
            && c.Live(i) && (i == 0 || i == |ids| ==> plan.sid in c.nodes[i].circuits) && NodeRuns.Agrees(c.nodes[i])
  {
    hide On, NodeRuns.Agrees, Distinct;
    assert path[i] in g.nodes && Placed(g.nodes[path[i]], plan.sid, path, ids, i);
    assert NodeOk(plan.sid, g.requested, path[i], g.nodes[path[i]]);
  }

  /** A live node in order has the streams of its links indexed under the session. */
  lemma LiveIsIndexed(c: Chain, i: nat)
    requires c.Sized() && i < |c.nodes| && c.Live(i) && NodeRuns.Agrees(c.nodes[i])
    ensures T.IndexFits(c, i)
  {
    NodeRuns.SoundOf(c.nodes[i], c.sid);
    hide NodeRuns.Agrees;
    PairsIndexed(c.nodes[i], c.sid);
    hide NodeRuns.Sound;
    var pair := c.nodes[i].sessions[c.sid].pair;
    if i < |c.ids| { assert c.Onward(Rightward, i) == pair[0] || c.Onward(Rightward, i) == pair[|pair| - 1]; }
    if i > 0 { assert c.Backward(Rightward, i) == pair[0] || c.Backward(Rightward, i) == pair[|pair| - 1]; }
  }

  /** Every stream of a sound pair is indexed under the session. */
  lemma PairsIndexed(n: Node, sid: Sid)
    requires sid in n.sessions && NodeRuns.Sound(n, sid)
    ensures forall s | s in n.sessions[sid].pair :: s.id in n.streams && n.streams[s.id].sid == sid
  {
  }

  lemma LineIsOpen(plan: Plan, g: State, path: seq<Peer>, ids: seq<StreamId>)
    requires IsLine(plan, g, path, ids) && NodesOk(plan, g) && g.requested
    requires SetupInvariant.AllWiresTravel(g.wires, plan.sid)
    ensures var c := ChainOf(plan, g, path, ids); c.Open() && T.Falls(T.Falling(c, {}))
  {
    var c := ChainOf(plan, g, path, ids);
    assert c.Simple();
    LineTravels(plan, g, path, ids);
    hide ChainOf, Chain.Live, Chain.Travelling, Chain.Simple, SetupInvariant.AllWiresTravel, IsLine, T.IndexFits,
        NodeRuns.Agrees;
    forall i | 0 <= i < |c.nodes|
      ensures c.Live(i) && (i == 0 || i == |c.ids| ==> c.sid in c.nodes[i].circuits) && T.IndexFits(c, i)
    {
      PlaceIsLive(plan, g, path, ids, i);
      LiveIsIndexed(c, i);
    }
    T.OpenFalls(c);
  }

  // ----- the line at and after a Success -----

  /** A line that set-up reaches is an open chain, and a start of teardown. */
  lemma ReachedLineIsOpen(plan: Plan, states: seq<State>, moves: seq<Move>, k: nat, path: seq<Peer>, ids: seq<StreamId>)
    requires IsRun(plan, states, moves) && k < |states| && IsLine(plan, states[k], path, ids)
    ensures var c := ChainOf(plan, states[k], path, ids); c.Open() && T.Falls(T.Falling(c, {}))
  {
    hide SetupInvariant.Inv, SetupProbes.ProbeInv, IsRun, IsLine, NodesOk, ChainOf;
    RunKeeps(plan, states, moves, k);
    RunNodes(plan, states, moves, k);
    LineEnds(plan, states[k], path, ids);
    ReachedFacts(plan, states[k]);
    LineIsOpen(plan, states[k], path, ids);
  }

  lemma ReachedFacts(plan: Plan, g: State)
    requires SetupInvariant.Inv(plan, g) && g.links.xa.Link?
    ensures g.requested && SetupInvariant.AllWiresTravel(g.wires, plan.sid)
  {
  }

  /** Originating Success changes no link. */
  lemma OriginFrame(plan: Plan, g: State, move: Move, g': State)
    requires Step(plan, g, move, g') && Originates(plan, g, move)
    ensures g'.links == g.links && g'.swapped == g.swapped && g.lost <= g'.lost
  {
    hide CircuitSetup.Act, SendRelay, Handle, ProbeMatches, Relays;
    hide Opens, Requests, CallsAnswer, Joins, PicksRelay, Expends, ActsElsewhere;
    match move
    case EntryAnnounces(bad) => RelayFrame(plan, g, plan.entry, bad, g');
    case ExitAnnounces(bad) => RelayFrame(plan, g, plan.exit, bad, g');
    case RelayAnnounces(bad) => RelayFrame(plan, g.(expended := true), g.links.xr.b, bad, g');
    case Delivers(w, bad) =>
      SetupProbes.ActShape(plan, Popped(g, w), w.dst, Handle(g.nodes[w.dst], g.wires[w][0], Stream(w.id, w.src), bad));
  }

  lemma RelayFrame(plan: Plan, g: State, p: Peer, bad: set<StreamId>, g': State)
    requires Relays(plan, g, p, Success(plan.sid), bad, g')
    ensures g'.links == g.links && g'.swapped == g.swapped && g.lost <= g'.lost
  {
    hide CircuitSetup.Act, SendRelay;
    SetupProbes.ActShape(plan, g, p, SendRelay(g.nodes[p], plan.sid, Success(plan.sid), bad));
  }

  lemma KeptBefore(plan: Plan, g: State, g': State)
    requires g'.links == g.links && g'.swapped == g.swapped && g.lost <= g'.lost
    ensures RouteKept(plan, g') ==> RouteKept(plan, g)
    ensures RouteMade(plan, g) <==> RouteMade(plan, g')
  {
  }

  /**
    Whenever Success is originated and the route is kept, before and after the announcement, the
    route is an open chain, and a start of teardown.
  */
  lemma SuccessOpensChain(plan: Plan, states: seq<State>, moves: seq<Move>, i: nat, k: nat)
    requires IsRun(plan, states, moves) && i < |moves| && Originates(plan, states[i], moves[i])
    requires (k == i || k == i + 1) && plan.caller != plan.answer && RouteKept(plan, states[k])
    ensures var g := states[k];
            && RouteMade(plan, g) && IsLine(plan, g, RoutePeers(plan, g), RouteIds(plan, g))
            && var c := ChainOf(plan, g, RoutePeers(plan, g), RouteIds(plan, g));
               c.Open() && T.Falls(T.Falling(c, {}))
  {
    assert Step(plan, states[i], moves[i], states[i + 1]);
    hide SetupInvariant.Inv, SetupProbes.ProbeInv, IsRun, IsLine, Step, Originates, RouteKept, RouteMade, ChainOf;
    RunKeeps(plan, states, moves, i);
    RunKeeps(plan, states, moves, k);
    OriginFrame(plan, states[i], moves[i], states[i + 1]);
    KeptBefore(plan, states[i], states[i + 1]);
    OriginMakesRoute(plan, states[i], moves[i], states[i + 1]);
    KeptRouteIsLine(plan, states[k]);
    ReachedLineIsOpen(plan, states, moves, k, RoutePeers(plan, states[k]), RouteIds(plan, states[k]));
  }

  // ----- nothing under way at the start -----

  lemma {:induction false} NoBytes(msgs: seq<Msg>)
    requires NoData(msgs)
    ensures C.Bytes(msgs) == []
    decreases |msgs|
  {
    if msgs != [] {
      assert !msgs[0].Data?;
      NoBytes(msgs[1..]);
    }
  }

  lemma SilentWire(plan: Plan, g: State, path: seq<Peer>, ids: seq<StreamId>, d: Dir, k: nat)
    requires IsLine(plan, g, path, ids) && WiresSilent(g.wires) && k < |ids|
    ensures NoData(ChainOf(plan, g, path, ids).Wire(d, k))
  {
    hide Placed, Distinct;
  }

  lemma SilentHops(c: Chain, d: Dir)
    requires c.Sized() && forall k :: 0 <= k < |c.ids| ==> NoData(c.Wire(d, k))
    ensures C.Ahead(C.HopBytes(c, d)) == []
  {
    forall k | 0 <= k < |c.ids|
      ensures C.HopBytes(c, d)[k] == []
    {
      NoBytes(c.Wire(d, k));
      C.HopAt(c, d, k);
    }
    hide C.HopBytes, C.Bytes;
    C.NoneAhead(C.HopBytes(c, d));
  }

  /** On a silent line the ends have nothing to read and nothing is under way. */
  lemma SilentLine(plan: Plan, g: State, path: seq<Peer>, ids: seq<StreamId>, d: Dir)
    requires IsLine(plan, g, path, ids) && Silent(plan, g)
    ensures var c := ChainOf(plan, g, path, ids); C.Inbox(c, d) == [] && C.Ahead(C.HopBytes(c, d)) == []
  {
    hide Placed, Distinct, C.HopBytes, C.Ahead, WiresSilent, NoData, On;
    var c := ChainOf(plan, g, path, ids);
    forall k | 0 <= k < |c.ids|
      ensures NoData(c.Wire(d, k))
    {
      SilentWire(plan, g, path, ids, d, k);
    }
    SilentHops(c, d);
    var i := c.At(d, |c.ids|);
    assert path[i] in g.nodes && EmptyBox(plan.sid, g.nodes[path[i]]);
  }
}
