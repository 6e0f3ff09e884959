/**
  What becomes of an announced Success (protocol/relay/relay.go handleSuccess): on a line that stays
  up it reaches both ends, amid any other traffic, and marks their circuits ready.
*/
module Announced {
  import opened Basics
  import opened Relay
  import opened NodeFacts
  import opened LineModel
  import C = Conservation
  import D = Delivery
  import F = Flooding
  import S = CircuitSetup
  import SetupInvariant
  import SetupProbes
  import SetupTheorem
  import SetupFormer
  import SetupLine
  import Answers

  /** Whether the end in direction d has heard Success. */
  predicate Heard(c: Chain, d: Dir)
    requires c.Sized()
  {
    IsReady(c.nodes[c.At(d, |c.ids|)], c.sid)
  }

  predicate IsReady(n: Node, sid: Sid) {
    sid in n.circuits && n.circuits[sid].ready
  }

  /** Success is under way in direction d, or its end has heard it. */
  predicate Coming(c: Chain, d: Dir)
    requires c.Sized()
  {
    Heard(c, d) || exists k :: 0 <= k < |c.ids| && Success(c.sid) in c.Wire(d, k)
  }

  /** No arriving message meets a failing write, and work on other sessions leaves this circuit's mark. */
  predicate Faultless(t: C.Traffic, ev: C.Event) {
    match ev
    case Arrives(_, _, bad) => bad == {}
    case Elsewhere(i, n) => i < |t.chain.nodes| && (IsReady(t.chain.nodes[i], t.chain.sid) ==> IsReady(n, t.chain.sid))
    case _ => true
  }

  // ----- a node keeps the mark as long as it keeps the circuit -----

  predicate Marked(n: Node, n': Node, sid: Sid) {
    sid in n'.circuits && IsReady(n, sid) ==> IsReady(n', sid)
  }

  lemma CloseMarks(n: Node, sid: Sid, bad: set<StreamId>)
    ensures Marked(n, CloseCircuit(n, sid, bad).node, sid)
  {
    hide Farewells;
  }

  lemma RelayMarks(n: Node, sid: Sid, msg: Msg, skip: Option<Peer>, bad: set<StreamId>)
    ensures Marked(n, Broadcast(n, sid, msg, skip, bad).node, sid)
  {
    CloseMarks(n, sid, bad);
    hide CloseCircuit, WriteRound, RoundOk;
  }

  lemma HandleMarks(n: Node, msg: Msg, from: Stream, sid: Sid, bad: set<StreamId>)
    requires Travels(msg, sid)
    ensures Marked(n, Handle(n, msg, from, bad).node, sid)
  {
    CloseMarks(n, sid, bad);
    RelayMarks(n, sid, Success(sid), None, bad);
    hide CloseCircuit, Broadcast;
  }

  // ----- wires -----

  /** Whatever else is written, a message stays under way until it arrives. */
  lemma ActStays(c: Chain, i: nat, e: Effect, d: Dir, k: nat, m: Msg)
    requires c.Sized() && c.Simple() && i < |c.nodes| && k < |c.ids| && m in c.Wire(d, k)
    ensures m in Act(c, i, e).Wire(d, k)
  {
    var c0 := c.(nodes := c.nodes[i := e.node]);
    assert c0.Wire(d, k) == c.Wire(d, k) && c0.Simple();
    F.PostMembers(c0, i, e.sends, d, k);
    hide Post, Chain.Wire;
  }

  /** What a node writes onward is under way. */
  lemma ActWrites(c: Chain, d: Dir, k: nat, e: Effect, m: Msg)
    requires c.Sized() && c.Simple() && k < |c.ids| && Send(c.Onward(d, k), m) in e.sends
    ensures m in Act(c, c.At(d, k), e).Wire(d, k)
  {
    var c0 := c.(nodes := c.nodes[c.At(d, k) := e.node]);
    assert c0.Onward(d, k) == c.Onward(d, k);
    F.PostMembers(c0, c.At(d, k), e.sends, d, k);
    hide Post, Chain.Wire;
  }

  lemma ActHeard(c: Chain, i: nat, e: Effect, d: Dir)
    requires c.Sized() && i < |c.nodes| && Heard(c, d) && Marked(c.nodes[i], e.node, c.sid)
    requires Act(c, i, e).Open()
    ensures Heard(Act(c, i, e), d)
  {
    hide Act, Chain.Simple, Chain.Travelling, Chain.Live;
  }

  /** A step of one node keeps it coming. */
  lemma ActComes(c: Chain, i: nat, e: Effect, d: Dir)
    requires c.Sized() && c.Simple() && i < |c.nodes| && Coming(c, d) && Marked(c.nodes[i], e.node, c.sid)
    requires Act(c, i, e).Open()
    ensures Coming(Act(c, i, e), d)
  {
    hide Act, Chain.Open, Chain.Wire, Heard;
    if Heard(c, d) {
      ActHeard(c, i, e, d);
    } else {
      var k :| 0 <= k < |c.ids| && Success(c.sid) in c.Wire(d, k);
      ActStays(c, i, e, d, k, Success(c.sid));
    }
  }

  // ----- arrivals -----

  lemma PoppedAlike(c: Chain, d: Dir, k: nat, w: seq<Msg>)
    requires c.Sized() && k + 1 < |c.ids| && c.Simple()
    ensures var popped := c.WithWire(d, k, w);
            && popped.Simple() && popped.Onward(d, k + 1) == c.Onward(d, k + 1)
            && popped.At(d, k + 1) == c.At(d, k + 1)
  {
  }

  lemma SuccessHops(c: Chain, d: Dir, k: nat)
    requires c.Open() && k + 1 < |c.ids| && c.Wire(d, k) != [] && c.Wire(d, k)[0] == Success(c.sid)
    ensures Success(c.sid) in Arrive(c, d, k, {}).Wire(d, k + 1)
  {
    C.OpenFacts(c, c.At(d, k + 1));
    hide Chain.Open, Chain.Live, Chain.Simple, Chain.Wire, Chain.WithWire, Arrive, Act, Handle;
    D.ArriveIs(c, d, k);
    D.HandledOnward(c, d, k + 1, Success(c.sid));
    var popped := c.WithWire(d, k, c.Wire(d, k)[1..]);
    PoppedAlike(c, d, k, c.Wire(d, k)[1..]);
    var e := Effect(c.nodes[c.At(d, k + 1)], [Send(c.Onward(d, k + 1), Success(c.sid))], []);
    hide *;
    ActWrites(popped, d, k + 1, e, Success(c.sid));
  }

  lemma SuccessLands(c: Chain, d: Dir)
    requires var k := |c.ids| - 1; c.Open() && c.Wire(d, k) != [] && c.Wire(d, k)[0] == Success(c.sid)
    ensures Heard(Arrive(c, d, |c.ids| - 1, {}), d)
  {
    var k := |c.ids| - 1;
    D.ArriveIs(c, d, k);
    D.HandledAtEnd(c, d, Success(c.sid));
    var i := c.At(d, |c.ids|);
    var popped := c.WithWire(d, k, c.Wire(d, k)[1..]);
    var n := D.Received(c.nodes[i], c.sid, Success(c.sid));
    assert IsReady(n, c.sid) && c.Sized();
    hide Chain.Open, Handle, Arrive, Act, Chain.Wire, Chain.WithWire, D.Received, IsReady;
    assert Act(popped, i, Quiet(n)).nodes[i] == n;
  }

  /** The Success itself arrives: one hop on it is under way again, or the end has heard it. */
  lemma SuccessMoves(c: Chain, d: Dir, k: nat)
    requires c.Open() && k < |c.ids| && c.Wire(d, k) != [] && c.Wire(d, k)[0] == Success(c.sid)
    ensures c.Sized() && Coming(Arrive(c, d, k, {}), d)
  {
    assert c.Sized();
    hide Chain.Open, Arrive, Chain.Wire, Heard;
    if k + 1 < |c.ids| { SuccessHops(c, d, k); } else { SuccessLands(c, d); }
  }

  /** Anything else arrives: the Success is still there. */
  lemma OtherArrives(c: Chain, e: Dir, j: nat, d: Dir)
    requires c.Open() && j < |c.ids| && c.Wire(e, j) != [] && Arrive(c, e, j, {}).Open() && Coming(c, d)
    requires d == e ==> c.Wire(e, j)[0] != Success(c.sid)
    ensures c.Sized() && Coming(Arrive(c, e, j, {}), d)
  {
    C.OpenFacts(c, c.At(e, j + 1));
    C.OpenHead(c, e, j);
    D.ArriveIs(c, e, j);
    var w := c.Wire(e, j);
    var popped := c.WithWire(e, j, w[1..]);
    var i := c.At(e, j + 1);
    HandleMarks(c.nodes[i], w[0], c.Backward(e, j + 1), c.sid, {});
    assert popped.Simple();
    hide Chain.Open, Chain.Simple, Handle, Arrive, Act, Chain.Live, Marked;
    PopComes(c, e, j, d);
    ActComes(popped, i, Handle(c.nodes[i], w[0], c.Backward(e, j + 1), {}), d);
  }

  lemma PopComes(c: Chain, e: Dir, j: nat, d: Dir)
    requires c.Sized() && j < |c.ids| && c.Wire(e, j) != [] && Coming(c, d)
    requires d == e ==> c.Wire(e, j)[0] != Success(c.sid)
    ensures Coming(c.WithWire(e, j, c.Wire(e, j)[1..]), d)
  {
    var w := c.Wire(e, j);
    var popped := c.WithWire(e, j, w[1..]);
    if !Heard(c, d) {
      var k :| 0 <= k < |c.ids| && Success(c.sid) in c.Wire(d, k);
      D.WireAfter(c, e, j, w[1..], d, k);
      assert w == [w[0]] + w[1..];
      hide Chain.Wire, Chain.WithWire;
      assert Success(c.sid) in popped.Wire(d, k);
    }
  }

  // ----- steps and runs -----

  /** Every faultless step of the line keeps it coming, whatever the traffic. */
  lemma StepComes(t: C.Traffic, ev: C.Event, t': C.Traffic, d: Dir)
    requires C.Step(t, ev, t') && Faultless(t, ev) && t.chain.Sized() && Coming(t.chain, d)
    ensures t'.chain.Sized() && Coming(t'.chain, d)
  {
    var c := t.chain;
    assert c.Simple();
    match ev
    case Writes(e, payload, bad) =>
      var i := c.At(e, 0);
      RelayMarks(c.nodes[i], c.sid, Data(c.sid, payload), None, bad);
      hide Chain.Open, SendRelay, Act, Coming, Marked;
      ActComes(c, i, SendRelay(c.nodes[i], c.sid, Data(c.sid, payload), bad), d);
    case Signals(i, msg, bad) =>
      RelayMarks(c.nodes[i], c.sid, msg, None, bad);
      hide Chain.Open, SendRelay, Act, Coming, Marked;
      ActComes(c, i, SendRelay(c.nodes[i], c.sid, msg, bad), d);
    case Reads(e, room) =>
      hide Chain.Open;
      NodesCome(c, t'.chain, d);
    case Elsewhere(i, n) =>
      hide Chain.Open;
      NodesCome(c, t'.chain, d);
    case Arrives(e, j, _) =>
      hide Arrive, Coming, Chain.Wire;
      if d == e && c.Wire(e, j)[0] == Success(c.sid) {
        SuccessMoves(c, e, j);
      } else {
        OtherArrives(c, e, j, d);
      }
  }

  lemma NodesCome(c: Chain, c': Chain, d: Dir)
    requires c.Sized() && c'.Sized() && Coming(c, d) && c' == c.(nodes := c'.nodes)
    requires forall i :: 0 <= i < |c.nodes| && IsReady(c.nodes[i], c.sid) ==> IsReady(c'.nodes[i], c.sid)
    ensures Coming(c', d)
  {
    if !Heard(c, d) {
      var k :| 0 <= k < |c.ids| && Success(c.sid) in c.Wire(d, k);
      assert c'.Wire(d, k) == c.Wire(d, k);
    }
  }

  predicate AllFaultless(states: seq<C.Traffic>, events: seq<C.Event>)
    requires |states| == |events| + 1
  {
    forall j :: 0 <= j < |events| ==> Faultless(states[j], events[j])
  }

  /** A run without its last step. */
  lemma Shorter(states: seq<C.Traffic>, events: seq<C.Event>)
    requires C.IsRun(states, events) && AllFaultless(states, events) && events != []
    ensures var n := |events| - 1;
            && C.IsRun(states[..|events|], events[..n]) && AllFaultless(states[..|events|], events[..n])
            && C.Step(states[n], events[n], states[n + 1]) && Faultless(states[n], events[n])
  {
    hide C.Step, Faultless;
  }

  /** Along whole runs. */
  lemma {:induction false} RunComes(states: seq<C.Traffic>, events: seq<C.Event>, d: Dir)
    requires C.IsRun(states, events) && AllFaultless(states, events)
    requires states[0].chain.Sized() && Coming(states[0].chain, d)
    ensures states[|events|].chain.Sized() && Coming(states[|events|].chain, d)
    decreases |events|
  {
    if events != [] {
      var n := |events| - 1;
      Shorter(states, events);
      hide C.Step, Faultless, Coming, AllFaultless;
      RunComes(states[..|events|], events[..n], d);
      StepComes(states[n], events[n], states[n + 1], d);
    }
  }

  lemma NothingComes(c: Chain, d: Dir)
    requires c.Sized() && Coming(c, d) && D.Empty(c, d)
    ensures Heard(c, d)
  {
  }

  /** Two runs of arrivals, one after the other. */
  lemma Joined(a: seq<C.Traffic>, ea: seq<C.Event>, b: seq<C.Traffic>, eb: seq<C.Event>)
    returns (states: seq<C.Traffic>, events: seq<C.Event>)
    requires C.IsRun(a, ea) && C.IsRun(b, eb) && a[|ea|] == b[0] && D.OnlyArrivals(ea) && D.OnlyArrivals(eb)
    ensures C.IsRun(states, events) && D.OnlyArrivals(events)
    ensures states[0] == a[0] && states[|events|] == b[|eb|]
  {
    hide C.Step;
    states, events := a + b[1..], ea + eb;
    forall i | 0 <= i < |events|
      ensures C.Step(states[i], events[i], states[i + 1])
    {
      if i < |ea| {
        assert C.Step(a[i], ea[i], a[i + 1]);
      } else {
        var j := i - |ea|;
        assert C.Step(b[j], eb[j], b[j + 1]) && states[i] == b[j] && states[i + 1] == b[j + 1];
      }
    }
  }

  lemma ArrivalsAreFaultless(states: seq<C.Traffic>, events: seq<C.Event>)
    requires |states| == |events| + 1 && D.OnlyArrivals(events)
    ensures AllFaultless(states, events)
  {
  }

  lemma DrainedFlows(c: Chain, c': Chain, d: Dir)
    requires c.Sized() && c'.Sized() && D.SameWires(c, c', d)
    ensures D.Flows(c, d) ==> D.Flows(c', d)
    ensures D.Empty(c, d) ==> D.Empty(c', d)
  {
    hide Chain.Wire;
    if D.Flows(c, d) {
      forall k | 0 <= k < |c'.ids|
        ensures D.Flowing(c'.Wire(d, k))
      {
        assert D.Flowing(c.Wire(d, k));
      }
    }
  }

  lemma OpenSized(c: Chain)
    requires c.Open()
    ensures c.Sized()
  {
  }

  /**
    Main result, for one line. While only Data and Success are under way on an open line of any
    length, and a Success is coming in both directions, arrivals alone make both ends ready and
    leave nothing under way.
  */
  lemma LineHears(t: C.Traffic) returns (states: seq<C.Traffic>, events: seq<C.Event>)
    requires t.chain.Open() && t.chain.Sized()
    requires forall d: Dir :: D.Flows(t.chain, d) && Coming(t.chain, d)
    ensures C.IsRun(states, events) && D.OnlyArrivals(events) && states[0] == t
    ensures states[|events|].chain.Sized()
    ensures forall d: Dir :: D.Empty(states[|events|].chain, d) && Heard(states[|events|].chain, d)
  {
    hide Coming, Heard, D.Flows, D.Empty, D.SameWires, Chain.Open, C.Step, D.OnlyArrivals, AllFaultless;
    var a, ea := D.LineDrains(t, Rightward);
    var u := a[|ea|];
    DrainedFlows(t.chain, u.chain, Leftward);
    var b, eb := D.LineDrains(u, Leftward);
    DrainedFlows(u.chain, b[|eb|].chain, Rightward);
    assert D.Empty(b[|eb|].chain, Rightward) && D.Empty(b[|eb|].chain, Leftward);
    states, events := Joined(a, ea, b, eb);
    ArrivalsAreFaultless(states, events);
    forall d: Dir
      ensures D.Empty(states[|events|].chain, d) && Heard(states[|events|].chain, d)
    {
      assert d == Rightward || d == Leftward;
      RunComes(states, events, d);
      NothingComes(states[|events|].chain, d);
    }
  }

  // ----- the announcement itself -----

  /** Who announces Success in a move that originates it. */
  function Announcer(plan: S.Plan, g: S.State, move: S.Move): Peer {
    match move
    case EntryAnnounces(_) => plan.entry
    case ExitAnnounces(_) => plan.exit
    case RelayAnnounces(_) => if g.links.xr.Link? then g.links.xr.b else plan.entry
    case Delivers(w, _) => w.dst
    case _ => plan.caller
  }

  function Refusing(move: S.Move): set<StreamId> {
    match move
    case EntryAnnounces(bad) => bad
    case ExitAnnounces(bad) => bad
    case RelayAnnounces(bad) => bad
    case Delivers(_, bad) => bad
    case _ => {}
  }

  lemma {:induction false} PostHas(wires: map<S.Wire, seq<Msg>>, src: Peer, sends: seq<Send>, x: Send)
    requires x in sends
    ensures x.msg in S.On(S.Post(wires, src, sends), S.Wire(x.to.id, src, x.to.remote))
    decreases |sends|
  {
    var w0 := S.Wire(sends[0].to.id, src, sends[0].to.remote);
    var wires' := wires[w0 := S.On(wires, w0) + [sends[0].msg]];
    if x == sends[0] {
      SetupProbes.PostStays(wires', src, sends[1..], w0, x.msg);
    } else {
      PostHas(wires', src, sends[1..], x);
    }
  }

  /** Peer `p` has sent Success to its session, as far as the streams take it. */
  ghost predicate Sent(plan: S.Plan, g: S.State, p: Peer, bad: set<StreamId>, g': S.State) {
    && p in g.nodes && p in g'.nodes
    && var e := SendRelay(g.nodes[p], plan.sid, Success(plan.sid), bad);
       && g'.nodes[p] == e.node
       && forall x: Send :: x in e.sends ==> x.msg in S.On(g'.wires, S.Wire(x.to.id, p, x.to.remote))
  }

  lemma ActSent(plan: S.Plan, g: S.State, p: Peer, bad: set<StreamId>, g': S.State)
    requires p in g.nodes && g' == S.Act(plan, g, p, SendRelay(g.nodes[p], plan.sid, Success(plan.sid), bad))
    ensures Sent(plan, g, p, bad, g')
  {
    var e := SendRelay(g.nodes[p], plan.sid, Success(plan.sid), bad);
    SetupProbes.ActShape(plan, g, p, e);
    hide SendRelay, S.Act, S.Post, S.On;
    forall x: Send | x in e.sends
      ensures x.msg in S.On(g'.wires, S.Wire(x.to.id, p, x.to.remote))
    {
      PostHas(g.wires, p, e.sends, x);
    }
  }

  lemma OriginSends(plan: S.Plan, g: S.State, move: S.Move, g': S.State)
    requires SetupInvariant.AllWiresTravel(g.wires, plan.sid)
    requires S.Step(plan, g, move, g') && S.Originates(plan, g, move)
    ensures Sent(plan, g, Announcer(plan, g, move), Refusing(move), g')
  {
    hide S.Act, SendRelay, Sent, S.Opens, S.Requests, S.CallsAnswer, S.Joins, S.PicksRelay, S.Expends, S.ActsElsewhere;
    match move
    case EntryAnnounces(bad) => ActSent(plan, g, plan.entry, bad, g');
    case ExitAnnounces(bad) => ActSent(plan, g, plan.exit, bad, g');
    case RelayAnnounces(bad) =>
      ActSent(plan, g.(expended := true), g.links.xr.b, bad, g');
      SentFrom(plan, g.(expended := true), g, g.links.xr.b, bad, g');
    case Delivers(w, bad) =>
      assert Travels(g.wires[w][0], plan.sid);
      ActSent(plan, S.Popped(g, w), w.dst, bad, g');
      SentFrom(plan, S.Popped(g, w), g, w.dst, bad, g');
  }

  lemma SentFrom(plan: S.Plan, g: S.State, h: S.State, p: Peer, bad: set<StreamId>, g': S.State)
    requires Sent(plan, g, p, bad, g') && h.nodes == g.nodes
    ensures Sent(plan, h, p, bad, g')
  {
    hide SendRelay, S.On;
  }

  /** The announcer is a server on the route, so not one of its ends. */
  lemma AnnouncerServes(plan: S.Plan, g: S.State, move: S.Move, g': S.State)
    requires SetupInvariant.Inv(plan, g) && S.Step(plan, g, move, g') && S.Originates(plan, g, move)
    ensures Announcer(plan, g, move) != plan.caller && Announcer(plan, g, move) != plan.answer
    ensures move.RelayAnnounces? ==> g.swapped && Announcer(plan, g, move) == plan.entry
    ensures move.Delivers? ==> g.links.ej.Link? && Announcer(plan, g, move) == g.links.ej.b
  {
    hide S.Relays, S.DeliversFrom, SetupInvariant.PairsOk, SetupInvariant.LostOk, SetupInvariant.AllWiresTravel,
        SetupInvariant.EntryOk;
    if move.RelayAnnounces? { SetupInvariant.ReadyRelaySwapped(plan, g); }
  }

  /** It is on the route, except for a joint that was given up in a swap. */
  lemma AnnouncerOnRoute(plan: S.Plan, g: S.State, move: S.Move, g': S.State)
    requires SetupInvariant.Inv(plan, g) && S.Step(plan, g, move, g') && S.Originates(plan, g, move)
    requires SetupTheorem.RouteMade(plan, g) && (g.swapped ==> !move.Delivers?)
    ensures var (path, p) := (SetupTheorem.RoutePeers(plan, g), Announcer(plan, g, move));
            exists x :: 0 < x < |path| - 1 && path[x] == p
  {
    AnnouncerServes(plan, g, move, g');
    var (path, p) := (SetupTheorem.RoutePeers(plan, g), Announcer(plan, g, move));
    assert p in path by {
      hide S.Relays, S.DeliversFrom, SetupInvariant.PairsOk, SetupInvariant.LostOk, SetupInvariant.AllWiresTravel,
          SetupInvariant.EntryOk, SetupInvariant.RolesOk;
    }
    assert path[0] == plan.caller && path[|path| - 1] == plan.answer;
    hide *;
    var x :| 0 <= x < |path| && path[x] == p;
  }

  /** What a peer inside the line has sent on a kept line is coming in both directions. */
  lemma SentComes(plan: S.Plan, g: S.State, bad: set<StreamId>, g': S.State, path: seq<Peer>, ids: seq<StreamId>,
                  x: nat)
    requires S.IsLine(plan, g', path, ids) && 0 < x < |ids| && Sent(plan, g, path[x], bad, g')
    ensures var c := SetupLine.ChainOf(plan, g', path, ids); Coming(c, Rightward) && Coming(c, Leftward)
  {
    var p := path[x];
    var (left, right) := (Stream(ids[x - 1], path[x - 1]), Stream(ids[x], path[x + 1]));
    assert S.Placed(g'.nodes[p], plan.sid, path, ids, x);
    assert plan.sid in g'.nodes[p].sessions && left in PairOf(g'.nodes[p], plan.sid)
        && right in PairOf(g'.nodes[p], plan.sid) by {
      var pair := g'.nodes[p].sessions[plan.sid].pair;
      assert pair[0] in pair && pair[1] in pair;
    }
    Answers.RelaySends(g.nodes[p], plan.sid, Success(plan.sid), bad);
    hide S.IsLine, S.Placed, SendRelay, S.On;
    SentWhere(plan, g, p, bad, g', left);
    SentWhere(plan, g, p, bad, g', right);
    hide Sent;
    ComesFrom(plan, g', path, ids, x);
  }

  lemma SentWhere(plan: S.Plan, g: S.State, p: Peer, bad: set<StreamId>, g': S.State, s: Stream)
    requires Sent(plan, g, p, bad, g') && plan.sid in g'.nodes[p].sessions && s in PairOf(g'.nodes[p], plan.sid)
    ensures Success(plan.sid) in S.On(g'.wires, S.Wire(s.id, p, s.remote))
  {
    Answers.RelaySends(g.nodes[p], plan.sid, Success(plan.sid), bad);
    hide SendRelay, S.On;
    var (n, e) := (g.nodes[p], SendRelay(g.nodes[p], plan.sid, Success(plan.sid), bad));
    assert !Answers.Forgotten(e.node, plan.sid);
    var pair := PairOf(n, plan.sid);
    var i :| 0 <= i < |pair| && pair[i] == s;
    assert e.sends[i] == Send(s, Success(plan.sid));
  }

  lemma ComesFrom(plan: S.Plan, g: S.State, path: seq<Peer>, ids: seq<StreamId>, x: nat)
    requires S.IsLine(plan, g, path, ids) && 0 < x < |ids|
    requires Success(plan.sid) in S.On(g.wires, S.Wire(ids[x], path[x], path[x + 1]))
    requires Success(plan.sid) in S.On(g.wires, S.Wire(ids[x - 1], path[x], path[x - 1]))
    ensures var c := SetupLine.ChainOf(plan, g, path, ids); Coming(c, Rightward) && Coming(c, Leftward)
  {
    hide S.IsLine, S.On, Heard;
    var c := SetupLine.ChainOf(plan, g, path, ids);
    assert Success(c.sid) in c.Wire(Rightward, x);
    assert Success(c.sid) in c.Wire(Leftward, |ids| - x);
  }

  /** After an announcement on a route that is still kept, Success is coming in both directions. */
  lemma AnnouncementComes(plan: S.Plan, setup: seq<S.State>, moves: seq<S.Move>, i: nat)
    requires S.IsRun(plan, setup, moves) && i < |moves| && S.Originates(plan, setup[i], moves[i])
    requires plan.caller != plan.answer && SetupTheorem.RouteKept(plan, setup[i + 1])
    ensures OnRoute(plan, setup[i + 1])
    ensures var c := RouteChain(plan, setup[i + 1]); c.Open() && Coming(c, Rightward) && Coming(c, Leftward)
  {
    assert S.Step(plan, setup[i], moves[i], setup[i + 1]);
    hide S.Step, S.IsRun, S.Originates, SetupInvariant.Inv, SetupProbes.ProbeInv, SetupTheorem.RouteKept, S.IsLine;
    hide SetupLine.ChainOf, Sent, Coming, Announcer, Refusing, SetupTheorem.RouteMade, SetupTheorem.RoutePeers,
        SetupTheorem.RouteIds, Chain.Open;
    var (g, g') := (setup[i], setup[i + 1]);
    SetupTheorem.RunKeeps(plan, setup, moves, i);
    SetupLine.SuccessOpensChain(plan, setup, moves, i, i + 1);
    SetupLine.OriginFrame(plan, g, moves[i], g');
    SameRoute(plan, g, g');
    if moves[i].Delivers? { SetupFormer.MatchMeansNoSwap(plan, setup, moves, i); }
    AnnouncerOnRoute(plan, g, moves[i], g');
    WiresTravel(plan, g);
    OriginSends(plan, g, moves[i], g');
    var (path, ids) := (SetupTheorem.RoutePeers(plan, g'), SetupTheorem.RouteIds(plan, g'));
    LineSize(plan, g', path, ids);
    var x :| 0 < x < |path| - 1 && path[x] == Announcer(plan, g, moves[i]);
    SentComes(plan, g, Refusing(moves[i]), g', path, ids, x);
  }

  predicate OnRoute(plan: S.Plan, g: S.State) {
    && SetupTheorem.RouteMade(plan, g)
    && S.IsLine(plan, g, SetupTheorem.RoutePeers(plan, g), SetupTheorem.RouteIds(plan, g))
  }

  /** The nodes and wires along the route. */
  function RouteChain(plan: S.Plan, g: S.State): Chain
    requires OnRoute(plan, g)
  {
    SetupLine.ChainOf(plan, g, SetupTheorem.RoutePeers(plan, g), SetupTheorem.RouteIds(plan, g))
  }

  lemma WiresTravel(plan: S.Plan, g: S.State)
    requires SetupInvariant.Inv(plan, g)
    ensures SetupInvariant.AllWiresTravel(g.wires, plan.sid)
  {
  }

  lemma LineSize(plan: S.Plan, g: S.State, path: seq<Peer>, ids: seq<StreamId>)
    requires S.IsLine(plan, g, path, ids)
    ensures |path| == |ids| + 1
  {
  }

  /**
    Main result. Whenever Success is originated on a route that is still kept after it, the route is
    an open chain, and in every run of it from there, with any traffic, in which the line stays up
    and no arriving message meets a failing write, Success stays under way or has been heard in both
    directions: once nothing is under way towards an end, its circuit is ready.
  */
  lemma AnnouncementIsHeard(plan: S.Plan, setup: seq<S.State>, moves: seq<S.Move>, i: nat, states: seq<C.Traffic>,
                            events: seq<C.Event>)
    requires S.IsRun(plan, setup, moves) && i < |moves| && S.Originates(plan, setup[i], moves[i])
    requires plan.caller != plan.answer && SetupTheorem.RouteKept(plan, setup[i + 1])
    ensures OnRoute(plan, setup[i + 1]) && RouteChain(plan, setup[i + 1]).Open()
    ensures C.IsRun(states, events) && AllFaultless(states, events)
            && states[0].chain == RouteChain(plan, setup[i + 1]) ==>
              && states[|events|].chain.Sized()
              && forall d: Dir ::
                   && Coming(states[|events|].chain, d)
                   && (D.Empty(states[|events|].chain, d) ==> Heard(states[|events|].chain, d))
  {
    assert i + 1 < |setup|;
    hide S.IsRun, S.Originates, SetupTheorem.RouteKept, OnRoute, RouteChain, AllFaultless, Coming, Heard, D.Empty;
    AnnouncementComes(plan, setup, moves, i);
    if C.IsRun(states, events) && AllFaultless(states, events)
      && states[0].chain == RouteChain(plan, setup[i + 1]) {
      OpenSized(states[0].chain);
      hide Chain.Open, C.Step;
      RunComes(states, events, Rightward);
      RunComes(states, events, Leftward);
      forall d: Dir
        ensures Coming(states[|events|].chain, d)
        ensures D.Empty(states[|events|].chain, d) ==> Heard(states[|events|].chain, d)
      {
        assert d == Rightward || d == Leftward;
        if D.Empty(states[|events|].chain, d) { NothingComes(states[|events|].chain, d); }
      }
    }
  }

  lemma SameRoute(plan: S.Plan, g: S.State, g': S.State)
    requires g'.links == g.links && g'.swapped == g.swapped && SetupTheorem.RouteMade(plan, g)
    ensures SetupTheorem.RouteMade(plan, g') && SetupTheorem.RoutePeers(plan, g') == SetupTheorem.RoutePeers(plan, g)
  {
  }
}
