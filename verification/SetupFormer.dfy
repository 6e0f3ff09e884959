/**
  The joint that the entry gave up in a swap never announces Success: nobody writes to it any more,
  so it sees at most the one probe the entry sent before (protocol/relay/relay.go handleRelayProbe).
*/
module SetupFormer {
  import opened Basics
  import opened Relay
  import opened NodeFacts
  import opened CircuitSetup
  import opened SetupInvariant
  import opened SetupProbes
  import SetupTheorem
  import NodeRuns

  /** The joint that was given up still has its half of the session. */
  predicate HasFormer(plan: Plan, g: State) {
    && g.swapped && plan.caller != plan.answer && g.links.ej.Link? && Holds(g, g.links.ej.b, g.links.ej)
  }

  /** At most one probe is on its way to that joint or kept there. */
  ghost predicate FormerOk(plan: Plan, g: State) {
    HasFormer(plan, g) ==>
      && g.links.ej.b in g.nodes
      && (forall w: Wire :: w.dst == g.links.ej.b && Probes(On(g.wires, w)) > 0 ==> w == ProbeWire(g))
      && Probes(On(g.wires, ProbeWire(g))) + One(plan.sid in g.nodes[g.links.ej.b].probes) <= 1
  }

  /** After a swap no session leads to that joint. */
  predicate Averted(plan: Plan, g: State) {
    g.swapped && g.links.ej.Link? ==>
      forall p | p in g.nodes :: forall s | s in PairOf(g.nodes[p], plan.sid) :: s.remote != g.links.ej.b
  }

  lemma SwappedAverts(plan: Plan, g: State)
    requires Inv(plan, g)
    ensures Averted(plan, g)
  {
    hide RolesOk, LostOk, AllWiresTravel;
    if g.swapped && g.links.ej.Link? {
      forall p, s | p in g.nodes && s in PairOf(g.nodes[p], plan.sid)
        ensures s.remote != g.links.ej.b
      {
        assert Agrees(plan, g, p);
        FacesOthers(plan, g, p, s);
      }
    }
  }

  lemma FacesOthers(plan: Plan, g: State, p: Peer, s: Stream)
    requires CastOk(plan, g.nodes) && LinksOk(plan, g) && EntryOk(plan, g) && g.swapped && g.links.ej.Link?
    requires s in Held(g.links, g.lost, p)
    ensures s.remote != g.links.ej.b
  {
    var (ls, j) := (g.links, g.links.ej.b);
    assert j != plan.caller && j != plan.answer && j != plan.entry && j != plan.exit && ls.rj.NoLink?;
  }

  /** What is written to streams that do not lead to `dst` does not reach it. */
  lemma {:induction false} PostElsewhere(wires: map<Wire, seq<Msg>>, src: Peer, sends: seq<Send>, w: Wire)
    requires forall x :: x in sends ==> x.to.remote != w.dst
    ensures On(Post(wires, src, sends), w) == On(wires, w)
    decreases |sends|
  {
    if sends != [] {
      var w0 := Wire(sends[0].to.id, src, sends[0].to.remote);
      assert sends[0] in sends && w0 != w;
      PostElsewhere(wires[w0 := On(wires, w0) + [sends[0].msg]], src, sends[1..], w);
    }
  }

  /** Fewer probes on the way to it, none kept that was not there before. */
  lemma FormerKept(plan: Plan, g: State, g': State)
    requires FormerOk(plan, g) && g'.swapped == g.swapped && g.lost <= g'.lost && g'.nodes.Keys == g.nodes.Keys
    requires g.swapped ==> g'.links.ej == g.links.ej
    requires g.links.ej.Link? && g.links.ej.b in g.nodes && plan.sid in g'.nodes[g.links.ej.b].probes ==>
               plan.sid in g.nodes[g.links.ej.b].probes
    requires g.links.ej.Link? ==>
               forall w: Wire :: w.dst == g.links.ej.b ==> Probes(On(g'.wires, w)) <= Probes(On(g.wires, w))
    ensures FormerOk(plan, g')
  {
    hide Probes, On;
  }

  lemma ActFormer(plan: Plan, g: State, p: Peer, e: Effect)
    requires FormerOk(plan, g) && Averted(plan, g) && p in g.nodes && Mild(g.nodes[p], e, plan.sid)
    ensures FormerOk(plan, Act(plan, g, p, e))
  {
    ActShape(plan, g, p, e);
    var g' := Act(plan, g, p, e);
    if g.swapped && g.links.ej.Link? {
      forall w: Wire | w.dst == g.links.ej.b
        ensures Probes(On(g'.wires, w)) <= Probes(On(g.wires, w))
      {
        WithinAverts(plan, g, p, e.sends);
        PostElsewhere(g.wires, p, e.sends, w);
      }
      hide Act, Post, Averted, FormerOk, Probes;
      FormerKept(plan, g, g');
    }
  }

  lemma WithinAverts(plan: Plan, g: State, p: Peer, sends: seq<Send>)
    requires Averted(plan, g) && p in g.nodes && Within(sends, PairOf(g.nodes[p], plan.sid))
    requires g.swapped && g.links.ej.Link?
    ensures forall x :: x in sends ==> x.to.remote != g.links.ej.b
  {
  }

  lemma FlagFormer(plan: Plan, g: State, g': State)
    requires FormerOk(plan, g) && Averted(plan, g)
    requires g' == g.(requested := g'.requested, gossiped := g'.gossiped, entryProbed := g'.entryProbed,
                      expended := g'.expended, exitProbed := g'.exitProbed)
    ensures FormerOk(plan, g') && Averted(plan, g')
  {
    hide Probes, On;
  }

  lemma RelaysFormer(plan: Plan, g: State, p: Peer, msg: Msg, bad: set<StreamId>, g': State)
    requires FormerOk(plan, g) && Averted(plan, g) && Travels(msg, plan.sid) && Relays(plan, g, p, msg, bad, g')
    ensures FormerOk(plan, g')
  {
    BroadcastFacts(g.nodes[p], plan.sid, msg, None, bad);
    hide FormerOk, Averted, SendRelay, Act, Mild;
    ActFormer(plan, g, p, SendRelay(g.nodes[p], plan.sid, msg, bad));
  }

  // ----- delivery -----

  lemma PopFormer(plan: Plan, g: State, w: Wire)
    requires FormerOk(plan, g) && Averted(plan, g) && w in g.wires && g.wires[w] != []
    ensures FormerOk(plan, Popped(g, w)) && Averted(plan, Popped(g, w))
  {
    forall x { PopProbes(g, w, x); }
    hide Probes, On;
    FormerKept(plan, g, Popped(g, w));
  }

  /** The first probe at the joint goes from its wire into its store. */
  lemma StoreFormer(plan: Plan, g: State, w: Wire, n: Node)
    requires FormerOk(plan, g) && w in g.wires && g.wires[w] != [] && g.wires[w][0].Probe? && w.dst in g.nodes
    requires g.links.ej.Link? && w.dst == g.links.ej.b && plan.sid !in g.nodes[w.dst].probes
    ensures FormerOk(plan, Popped(g, w).(nodes := g.nodes[w.dst := n]))
  {
    forall x { PopProbes(g, w, x); }
    assert Probes(On(g.wires, w)) > 0;
    hide Probes, On;
  }

  lemma DeliverFormer(plan: Plan, g: State, w: Wire, bad: set<StreamId>, g': State)
    requires Inv(plan, g) && FormerOk(plan, g) && Averted(plan, g) && DeliversFrom(plan, g, w, bad, g')
    ensures FormerOk(plan, g')
  {
    var (n, m, from) := (g.nodes[w.dst], g.wires[w][0], Stream(w.id, w.src));
    var e := Handle(n, m, from, bad);
    assert Travels(m, plan.sid);
    PopFormer(plan, g, w);
    if m.Probe? && plan.sid in n.sessions && n.sessions[plan.sid].role == Joint && plan.sid !in n.probes {
      ProbeFacts(n, plan.sid, m.rand, from, bad);
      assert RoleOk(plan, g, w.dst, Joint);
      var n' := n.(probes := n.probes[plan.sid := m.rand]);
      assert e == Quiet(n');
      hide Inv, FormerOk, Averted, Handle, Act;
      ActQuiet(plan, Popped(g, w), w.dst, n');
      StoreFormer(plan, g, w, n');
    } else {
      if m.Probe? { ProbeFacts(n, plan.sid, m.rand, from, bad); } else { HandleFacts(n, m, from, plan.sid, bad); }
      assert Mild(n, e, plan.sid);
      hide Inv, FormerOk, Averted, Handle, Act, Mild;
      ActFormer(plan, Popped(g, w), w.dst, e);
    }
  }

  // ----- exchanges -----

  /** The swap itself: until then the entry's probe was the only one that could reach the joint. */
  lemma SwapFormer(plan: Plan, g: State, id: StreamId, told: bool, g': State)
    requires Inv(plan, g) && Inv(plan, g') && CalmOk(plan, g) && g.links.ej.Link? && g.links.xr.NoLink? && !g.swapped
    requires g.links.ce.Link? && g.links.ej.b != plan.exit
    requires SwapState(plan, g, id, Stream(g.links.ce.id, plan.caller), Stream(g.links.ej.id, g.links.ej.b), told, g')
    ensures FormerOk(plan, g')
  {
    if HasFormer(plan, g') {
      CalmAtSwap(plan, g, id, told, g');
      JointServes(plan, g);
      SwapCounts(plan, g, id, told, g');
      hide Inv, SwapState, Post, Gains, FormerOk;
      CalmToFormer(plan, g, g');
    }
  }

  lemma SwapCounts(plan: Plan, g: State, id: StreamId, told: bool, g': State)
    requires g.links.ej.Link? && g.links.ce.Link?
    requires SwapState(plan, g, id, Stream(g.links.ce.id, plan.caller), Stream(g.links.ej.id, g.links.ej.b), told, g')
    ensures forall w :: Probes(On(g'.wires, w)) == Probes(On(g.wires, w))
    ensures g'.links.ej == g.links.ej && g'.nodes.Keys == g.nodes.Keys
    ensures var j := g.links.ej.b;
            j in g.nodes && j != plan.entry && j != plan.exit ==> g'.nodes[j].probes == g.nodes[j].probes
  {
    var sends := if told then [Send(Stream(g.links.ej.id, g.links.ej.b), Disconnect(plan.sid))] else [];
    forall w
      ensures Probes(On(g'.wires, w)) == Probes(On(g.wires, w))
    {
      PostProbes(g.wires, plan.entry, sends, w);
    }
    hide Probes, On, Post, Gains;
  }

  lemma CalmToFormer(plan: Plan, g: State, g': State)
    requires CalmOk(plan, g) && Calm(plan, g) && g'.links.ej == g.links.ej && g'.nodes.Keys == g.nodes.Keys
    requires forall w :: Probes(On(g'.wires, w)) == Probes(On(g.wires, w))
    requires var j := g.links.ej.b;
             j in g.nodes && j != plan.caller && j != plan.answer && g'.nodes[j].probes == g.nodes[j].probes
    ensures FormerOk(plan, g')
  {
    hide Probes, On;
  }

  lemma JointServes(plan: Plan, g: State)
    requires Inv(plan, g) && g.links.ej.Link?
    ensures var j := g.links.ej.b; j in g.nodes && j != plan.caller && j != plan.answer && j != plan.entry
  {
  }

  lemma CalmAtSwap(plan: Plan, g: State, id: StreamId, told: bool, g': State)
    requires Inv(plan, g) && Inv(plan, g') && g.links.ej.Link? && g.links.xr.NoLink? && !g.swapped && g.links.ce.Link?
    requires SwapState(plan, g, id, Stream(g.links.ce.id, plan.caller), Stream(g.links.ej.id, g.links.ej.b), told, g')
    requires HasFormer(plan, g')
    ensures Calm(plan, g)
  {
    hide RolesOk, AllWiresTravel, EntryOk, LostOk, Post, Gains;
    assert Agrees(plan, g', plan.entry);
    assert g'.nodes[plan.entry].sessions[plan.sid].pair[0] == Stream(g.links.ce.id, plan.caller);
  }

  lemma QuietlyFormer(plan: Plan, g: State, g': State)
    requires FormerOk(plan, g) && Quietly(g, g') && (g.swapped ==> g'.links.ej == g.links.ej)
    ensures FormerOk(plan, g')
  {
    hide Probes, On;
  }

  lemma PlainQuietly(plan: Plan, g: State, move: Move, g': State)
    requires Inv(plan, g) && Step(plan, g, move, g') && IsExchange(move) && !move.ExitPicksRelay?
    ensures Quietly(g, g')
  {
    hide Inv, Exchange, Quietly, Linked, Act, Fresh, Accepts, IsSwap, CanExchange;
    match move
    case CallerOpens(id) => OpenKeeps(plan, g, id, g');
    case EntryServesBoth(id) => CallKeeps(plan, g, id, g');
    case EntryJoins(joint, id) => JoinKeeps(plan, g, joint, id, g');
    case ExitCallsAnswer(id) => CallKeeps(plan, g, id, g');
    case RelayExpends(id) => ExpendKeeps(plan, g, id, g');
  }

  lemma ExchangeFormer(plan: Plan, g: State, move: Move, g': State)
    requires Inv(plan, g) && Inv(plan, g') && FormerOk(plan, g) && CalmOk(plan, g)
    requires Step(plan, g, move, g')
    requires move.CallerOpens? || move.EntryServesBoth? || move.EntryJoins? || move.ExitCallsAnswer?
          || move.ExitPicksRelay? || move.RelayExpends?
    ensures FormerOk(plan, g')
  {
    SwapNeedsLinks(plan, g, move, g');
    hide Inv, FormerOk, CalmOk, PicksRelay, Quietly, SwapState, Opens, CallsAnswer, Joins, Expends;
    if move.ExitPicksRelay? {
      PickKeeps(plan, g, move.relay, move.id, move.bad, g');
      if !Quietly(g, g') { SwapFormer(plan, g, move.id, g'.swapTold, g'); }
    } else {
      PlainQuietly(plan, g, move, g');
    }
    if Quietly(g, g') { QuietlyFormer(plan, g, g'); }
  }

  lemma SwapNeedsLinks(plan: Plan, g: State, move: Move, g': State)
    requires Inv(plan, g) && Step(plan, g, move, g') && IsExchange(move)
    ensures g.swapped ==> g'.links.ej == g.links.ej
    ensures move.ExitPicksRelay? ==> g.links.ej.Link? && g.links.xr.NoLink? && !g.swapped && g.links.ce.Link?
    ensures move.ExitPicksRelay? ==> g.links.ej.b != plan.exit
  {
    hide Exchange, CanExchange, PairsOk, RolesOk, EntryOk, LostOk, AllWiresTravel;
  }

  // ----- every step -----

  lemma SameFormer(plan: Plan, g: State, p: Peer, n: Node)
    requires FormerOk(plan, g) && Averted(plan, g) && p in g.nodes && SameFor(plan.sid, g.nodes[p], n)
    ensures FormerOk(plan, g.(nodes := g.nodes[p := n]))
  {
    ActQuiet(plan, g, p, n);
    hide FormerOk, Averted;
    ActFormer(plan, g, p, Quiet(n));
  }

  lemma RequestFormer(plan: Plan, g: State, g': State)
    requires FormerOk(plan, g) && Averted(plan, g) && Requests(plan, g, g')
    ensures FormerOk(plan, g')
  {
    hide FormerOk, Averted;
    FlagFormer(plan, g, g.(requested := true));
    SameFormer(plan, g.(requested := true), plan.caller, AddCircuit(g.nodes[plan.caller], plan.sid, plan.answer));
  }

  lemma ElsewhereFormer(plan: Plan, g: State, p: Peer, op: NodeRuns.Op, g': State)
    requires FormerOk(plan, g) && Averted(plan, g) && ActsElsewhere(plan, g, p, op, g')
    ensures FormerOk(plan, g')
  {
    ElsewhereSame(plan, g.nodes[p], op);
    hide NodeRuns.Apply, NodeRuns.Fair, FormerOk, Averted;
    SameFormer(plan, g, p, NodeRuns.Apply(g.nodes[p], op).node);
  }

  lemma ClosesFormer(plan: Plan, g: State, p: Peer, bad: set<StreamId>)
    requires FormerOk(plan, g) && Averted(plan, g) && p in g.nodes
    ensures FormerOk(plan, Act(plan, g, p, CloseCircuit(g.nodes[p], plan.sid, bad)))
  {
    CloseFacts(g.nodes[p], plan.sid, bad);
    hide FormerOk, Averted;
    ActFormer(plan, g, p, CloseCircuit(g.nodes[p], plan.sid, bad));
  }

  lemma StreamClosesFormer(plan: Plan, g: State, p: Peer, id: StreamId, bad: set<StreamId>)
    requires FormerOk(plan, g) && Averted(plan, g) && p in g.nodes
    requires id in g.nodes[p].streams && g.nodes[p].streams[id].sid == plan.sid
    ensures FormerOk(plan, Act(plan, g, p, HandleStreamClosed(g.nodes[p], id, bad)))
  {
    hide FormerOk, Averted;
    if plan.sid != UNBOUND { CloseFacts(g.nodes[p], plan.sid, bad); }
    ActFormer(plan, g, p, HandleStreamClosed(g.nodes[p], id, bad));
  }

  /** The moves that write a message of their own. */
  lemma SaysFormer(plan: Plan, g: State, move: Move, g': State)
    requires FormerOk(plan, g) && Averted(plan, g) && Step(plan, g, move, g')
    requires move.EntryAnnounces? || move.ExitAnnounces? || move.RelayAnnounces? || move.EntryProbes?
          || move.ExitProbes? || move.Writes?
    ensures FormerOk(plan, g')
  {
    hide FormerOk, Averted, Relays;
    match move
    case EntryAnnounces(bad) => RelaysFormer(plan, g, plan.entry, Success(plan.sid), bad, g');
    case ExitAnnounces(bad) => RelaysFormer(plan, g, plan.exit, Success(plan.sid), bad, g');
    case RelayAnnounces(bad) =>
      FlagFormer(plan, g, g.(expended := true));
      RelaysFormer(plan, g.(expended := true), g.links.xr.b, Success(plan.sid), bad, g');
    case EntryProbes(bad, rand) =>
      FlagFormer(plan, g, g.(entryProbed := true));
      RelaysFormer(plan, g.(entryProbed := true), plan.entry, Probe(plan.sid, rand), bad, g');
    case ExitProbes(bad, rand) =>
      FlagFormer(plan, g, g.(exitProbed := true));
      RelaysFormer(plan, g.(exitProbed := true), plan.exit, Probe(plan.sid, rand), bad, g');
    case Writes(p, payload, bad) => RelaysFormer(plan, g, p, Data(plan.sid, payload), bad, g');
  }

  /** The other moves of one peer. */
  lemma DoesFormer(plan: Plan, g: State, move: Move, g': State)
    requires FormerOk(plan, g) && Averted(plan, g) && Step(plan, g, move, g')
    requires move.CallerRequests? || move.EntryGossips? || move.Closes? || move.StreamCloses? || move.Elsewhere?
    ensures FormerOk(plan, g')
  {
    hide FormerOk, Averted, Act, Requests, ActsElsewhere, CloseCircuit, HandleStreamClosed;
    match move
    case CallerRequests => RequestFormer(plan, g, g');
    case EntryGossips => FlagFormer(plan, g, g');
    case Closes(p, bad) => ClosesFormer(plan, g, p, bad);
    case StreamCloses(p, id, bad) => StreamClosesFormer(plan, g, p, id, bad);
    case Elsewhere(p, op) => ElsewhereFormer(plan, g, p, op, g');
  }

  lemma ArrivesFormer(plan: Plan, g: State, move: Move, g': State)
    requires Inv(plan, g) && FormerOk(plan, g) && Averted(plan, g) && Step(plan, g, move, g') && move.Delivers?
    ensures FormerOk(plan, g')
  {
    hide Inv, FormerOk, Averted, DeliversFrom;
    DeliverFormer(plan, g, move.wire, move.bad, g');
  }

  /** Every move keeps it so. */
  lemma StepFormer(plan: Plan, g: State, move: Move, g': State)
    requires Inv(plan, g) && Inv(plan, g') && ProbeInv(plan, g) && FormerOk(plan, g) && Step(plan, g, move, g')
    ensures FormerOk(plan, g')
  {
    hide *;
    SwappedAverts(plan, g);
    HasCalm(plan, g);
    match move
    case CallerOpens(_) => ExchangeFormer(plan, g, move, g');
    case EntryServesBoth(_) => ExchangeFormer(plan, g, move, g');
    case EntryJoins(_, _) => ExchangeFormer(plan, g, move, g');
    case ExitCallsAnswer(_) => ExchangeFormer(plan, g, move, g');
    case ExitPicksRelay(_, _, _) => ExchangeFormer(plan, g, move, g');
    case RelayExpends(_) => ExchangeFormer(plan, g, move, g');
    case CallerRequests => DoesFormer(plan, g, move, g');
    case EntryGossips => DoesFormer(plan, g, move, g');
    case Closes(_, _) => DoesFormer(plan, g, move, g');
    case StreamCloses(_, _, _) => DoesFormer(plan, g, move, g');
    case Elsewhere(_, _) => DoesFormer(plan, g, move, g');
    case Delivers(_, _) => ArrivesFormer(plan, g, move, g');
    case _ => SaysFormer(plan, g, move, g');
  }

  lemma HasCalm(plan: Plan, g: State)
    requires ProbeInv(plan, g)
    ensures CalmOk(plan, g)
  {
    hide CalmOk;
  }

  lemma {:induction false} RunFormer(plan: Plan, states: seq<State>, moves: seq<Move>, i: nat)
    requires IsRun(plan, states, moves) && i < |states|
    ensures FormerOk(plan, states[i])
  {
    hide Inv, ProbeInv, Step;
    if i > 0 {
      RunFormer(plan, states, moves, i - 1);
      SetupTheorem.RunKeeps(plan, states, moves, i - 1);
      SetupTheorem.RunKeeps(plan, states, moves, i);
      assert Step(plan, states[i - 1], moves[i - 1], states[i]);
      hide FormerOk;
      StepFormer(plan, states[i - 1], moves[i - 1], states[i]);
    }
  }

  /** A matching probe after a swap would be a second one. */
  lemma NoSecondProbe(plan: Plan, g: State, w: Wire)
    requires Inv(plan, g) && FormerOk(plan, g) && plan.caller != plan.answer
    requires w in g.wires && g.wires[w] != [] && w.dst in g.nodes && g.wires[w][0].Probe?
    requires ProbeMatches(g.nodes[w.dst], plan.sid, g.wires[w][0].rand)
    ensures !g.swapped
  {
    hide LostOk, AllWiresTravel;
    assert Probes(On(g.wires, w)) > 0;
    assert RoleOk(plan, g, w.dst, Joint) && Agrees(plan, g, w.dst);
  }

  /**
    In every run, a Success that is originated by a matching probe comes from a joint that was not
    given up: there has been no swap.
  */
  lemma MatchMeansNoSwap(plan: Plan, states: seq<State>, moves: seq<Move>, i: nat)
    requires IsRun(plan, states, moves) && i < |moves| && plan.caller != plan.answer
    requires Originates(plan, states[i], moves[i]) && moves[i].Delivers?
    ensures !states[i].swapped
  {
    assert i < |states|;
    hide Inv, ProbeInv, FormerOk, IsRun, ProbeMatches;
    SetupTheorem.RunKeeps(plan, states, moves, i);
    RunFormer(plan, states, moves, i);
    NoSecondProbe(plan, states[i], moves[i].wire);
  }
}
