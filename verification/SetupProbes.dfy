/** Where probes can be while a circuit is being set up, and the joint that a swap leaves behind. */
module SetupProbes {
  import opened Basics
  import opened Relay
  import opened NodeFacts
  import opened CircuitSetup
  import opened SetupInvariant
  import NodeRuns

  function Probes(msgs: seq<Msg>): nat {
    if msgs == [] then 0 else (if msgs[0].Probe? then 1 else 0) + Probes(msgs[1..])
  }

  lemma ProbesAppend(msgs: seq<Msg>, m: Msg)
    ensures Probes(msgs + [m]) == Probes(msgs) + if m.Probe? then 1 else 0
  {
    if msgs != [] {
      assert (msgs + [m])[1..] == msgs[1..] + [m];
      ProbesAppend(msgs[1..], m);
    }
  }

  /** Messages that carry no probe leave every wire's probe count as it was. */
  lemma PostProbes(wires: map<Wire, seq<Msg>>, src: Peer, sends: seq<Send>, w: Wire)
    requires !CarriesProbe(sends)
    ensures Probes(On(Post(wires, src, sends), w)) == Probes(On(wires, w))
    decreases |sends|
  {
    if sends != [] {
      var w0 := Wire(sends[0].to.id, src, sends[0].to.remote);
      assert !sends[0].msg.Probe?;
      ProbesAppend(On(wires, w0), sends[0].msg);
      PostProbes(wires[w0 := On(wires, w0) + [sends[0].msg]], src, sends[1..], w);
    }
  }

  /** Posting never removes a message. */
  lemma PostStays(wires: map<Wire, seq<Msg>>, src: Peer, sends: seq<Send>, w: Wire, m: Msg)
    requires m in On(wires, w)
    ensures m in On(Post(wires, src, sends), w)
    decreases |sends|
  {
    if sends != [] {
      var w0 := Wire(sends[0].to.id, src, sends[0].to.remote);
      PostStays(wires[w0 := On(wires, w0) + [sends[0].msg]], src, sends[1..], w, m);
    }
  }

  // ----- the invariant -----

  ghost predicate NoProbes(wires: map<Wire, seq<Msg>>) {
    forall w :: Probes(On(wires, w)) == 0
  }

  /** The wire on which the entry's probe travels to the joint. */
  function ProbeWire(g: State): Wire
    requires g.links.ej.Link?
  {
    Wire(g.links.ej.id, g.links.ej.a, g.links.ej.b)
  }

  /** Only the joint keeps a probe. */
  predicate KeptOk(plan: Plan, g: State) {
    forall p | p in g.nodes :: plan.sid in g.nodes[p].probes ==> g.links.ej.Link? && p == g.links.ej.b
  }

  /** Before any probe was sent there is none. */
  ghost predicate UnsentOk(plan: Plan, g: State) {
    !g.entryProbed && !g.exitProbed ==> NoProbes(g.wires) && forall p | p in g.nodes :: plan.sid !in g.nodes[p].probes
  }

  /** The exit has not probed yet and the entry and the joint still hold what they had. */
  predicate Calm(plan: Plan, g: State) {
    && plan.caller != plan.answer && !g.exitProbed && !g.swapped && g.links.ej.Link?
    && Holds(g, plan.entry, g.links.ce) && Holds(g, g.links.ej.b, g.links.ej)
  }

  function One(b: bool): nat {
    if b then 1 else 0
  }

  /** In calm states only the entry's single probe can be on its way to the joint or kept there. */
  ghost predicate CalmOk(plan: Plan, g: State) {
    Calm(plan, g) ==>
      && (forall w :: Probes(On(g.wires, w)) > 0 ==> w.dst == plan.caller || w.dst == plan.answer || w == ProbeWire(g))
      && g.links.ej.b in g.nodes
      && Probes(On(g.wires, ProbeWire(g))) + One(plan.sid in g.nodes[g.links.ej.b].probes) + One(!g.entryProbed) <= 1
  }

  /** A joint given up in a swap still holds its stream only while the Disconnect for it is on the wire. */
  predicate LeftBehindOk(plan: Plan, g: State) {
    g.swapped && g.swapTold && g.links.ej.Link? && Holds(g, g.links.ej.b, g.links.ej) ==>
      Disconnect(plan.sid) in On(g.wires, ProbeWire(g))
  }

  ghost predicate ProbeInv(plan: Plan, g: State) {
    KeptOk(plan, g) && UnsentOk(plan, g) && CalmOk(plan, g) && LeftBehindOk(plan, g)
  }

  lemma InitialProbeInv(plan: Plan, g: State)
    requires Initial(plan, g)
    ensures ProbeInv(plan, g)
  {
  }

  lemma ActShape(plan: Plan, g: State, p: Peer, e: Effect)
    requires p in g.nodes
    ensures var g' := Act(plan, g, p, e);
            && g.lost <= g'.lost
            && g' == g.(nodes := g.nodes[p := e.node], wires := Post(g.wires, p, e.sends), lost := g'.lost)
  {
  }

  // ----- steps without probes -----

  /** An act that keeps or drops its session, stores no probe and sends none. */
  lemma ActProbes(plan: Plan, g: State, p: Peer, e: Effect)
    requires ProbeInv(plan, g) && p in g.nodes && Mild(g.nodes[p], e, plan.sid) && !CarriesProbe(e.sends)
    ensures ProbeInv(plan, Act(plan, g, p, e))
  {
    ActShape(plan, g, p, e);
    hide Act, Post, Probes;
    forall w { PostProbes(g.wires, p, e.sends, w); }
    if g.links.ej.Link? && Disconnect(plan.sid) in On(g.wires, ProbeWire(g)) {
      PostStays(g.wires, p, e.sends, ProbeWire(g), Disconnect(plan.sid));
    }
  }

  // ----- the entry's probe -----

  /** The entry that still has its caller and its joint holds exactly those two streams. */
  lemma CalmEntryPair(plan: Plan, g: State)
    requires CastOk(plan, g.nodes) && LinksOk(plan, g) && EntryOk(plan, g) && Agrees(plan, g, plan.entry)
        && Calm(plan, g)
    ensures PairOf(g.nodes[plan.entry], plan.sid)
         == [Stream(g.links.ce.id, plan.caller), Stream(g.links.ej.id, g.links.ej.b)]
  {
  }

  lemma PostPair(wires: map<Wire, seq<Msg>>, src: Peer, a: Stream, b: Stream, m: Msg, w: Wire)
    requires a.id != b.id
    ensures On(Post(wires, src, [Send(a, m), Send(b, m)]), w)
         == if w == Wire(a.id, src, a.remote) || w == Wire(b.id, src, b.remote) then On(wires, w) + [m]
             else On(wires, w)
  {
    var wa := Wire(a.id, src, a.remote);
    var wires1 := wires[wa := On(wires, wa) + [m]];
    assert [Send(a, m), Send(b, m)][1..] == [Send(b, m)];
    assert Post(wires1, src, [Send(b, m)])
        == wires1[Wire(b.id, src, b.remote) := On(wires1, Wire(b.id, src, b.remote)) + [m]];
  }

  lemma TwoWrites(a: Stream, b: Stream, m: Msg, bad: set<StreamId>)
    requires RoundOk([a, b], None, bad)
    ensures WriteRound([a, b], m, None, bad) == [Send(a, m), Send(b, m)]
  {
    assert [a, b][0].id !in bad && [a, b][1].id !in bad;
    assert [a, b][1..] == [b];
    assert [b][1..] == [];
    assert WriteRound([b][1..], m, None, bad) == [];
    assert WriteRound([b], m, None, bad) == [Send(b, m)];
  }

  /** The wires after the entry probed its two streams. */
  lemma ProbePosted(plan: Plan, g: State, m: Msg, g': State)
    requires CalmOk(plan, g) && Calm(plan, g) && !g.entryProbed && m.Probe? && g.links.ce.id != g.links.ej.id
    requires g.links.ej.a == plan.entry
    requires g'.wires
        == Post(g.wires, plan.entry,
            [Send(Stream(g.links.ce.id, plan.caller), m), Send(Stream(g.links.ej.id, g.links.ej.b), m)])
    requires g'.links == g.links && g'.nodes.Keys == g.nodes.Keys && g'.entryProbed
    requires plan.sid in g'.nodes[g.links.ej.b].probes ==> plan.sid in g.nodes[g.links.ej.b].probes
    ensures CalmOk(plan, g')
  {
    var (a, b) := (Stream(g.links.ce.id, plan.caller), Stream(g.links.ej.id, g.links.ej.b));
    forall w
      ensures Probes(On(g'.wires, w))
           == Probes(On(g.wires, w))
              + One(w == Wire(a.id, plan.entry, a.remote) || w == Wire(b.id, plan.entry, b.remote))
    {
      PostPair(g.wires, plan.entry, a, b, m, w);
      ProbesAppend(On(g.wires, w), m);
    }
  }

  /** Sending to a pair: both streams get the message, or the session is gone. */
  lemma PairSend(n: Node, sid: Sid, a: Stream, b: Stream, m: Msg, bad: set<StreamId>)
    requires PairOf(n, sid) == [a, b]
    ensures var e := SendRelay(n, sid, m, bad);
            e == Effect(n, [Send(a, m), Send(b, m)], []) || sid !in e.node.sessions
  {
    if RoundOk([a, b], None, bad) {
      TwoWrites(a, b, m, bad);
    }
  }

  lemma DropLoses(plan: Plan, g: State, p: Peer, e: Effect, a: Stream)
    requires p in g.nodes && a in PairOf(g.nodes[p], plan.sid) && plan.sid !in e.node.sessions
    ensures (p, a.id) in Act(plan, g, p, e).lost
  {
  }

  /** The entry's probe reaches at most the caller and the joint. */
  lemma EntryProbeCalm(plan: Plan, g: State, m: Msg, bad: set<StreamId>, g': State)
    requires Inv(plan, g) && CalmOk(plan, g) && !g.entryProbed && m.Probe? && plan.entry in g.nodes
    requires g' == Act(plan, g.(entryProbed := true), plan.entry, SendRelay(g.nodes[plan.entry], plan.sid, m, bad))
    ensures CalmOk(plan, g')
  {
    hide Inv, CalmOk, Calm, SendRelay, Act, Post;
    var (g0, e) := (g.(entryProbed := true), SendRelay(g.nodes[plan.entry], plan.sid, m, bad));
    ActShape(plan, g0, plan.entry, e);
    if Calm(plan, g') {
      CalmBefore(plan, g, g');
      EntryPairIs(plan, g);
      var (a, b) := (Stream(g.links.ce.id, plan.caller), Stream(g.links.ej.id, g.links.ej.b));
      PairSend(g.nodes[plan.entry], plan.sid, a, b, m, bad);
      if plan.sid !in e.node.sessions {
        DropLoses(plan, g0, plan.entry, e, a);
        CalmHolds(plan, g');
        assert false;
      }
      ProbePosted(plan, g, m, g');
    } else {
      NotCalmOk(plan, g');
    }
  }

  lemma CalmBefore(plan: Plan, g: State, g': State)
    requires Calm(plan, g') && g'.links == g.links && g.lost <= g'.lost
    requires g'.swapped == g.swapped && g'.exitProbed == g.exitProbed
    ensures Calm(plan, g)
  {
  }

  lemma CalmHolds(plan: Plan, g: State)
    requires Calm(plan, g)
    ensures Holds(g, plan.entry, g.links.ce)
  {
  }

  lemma NotCalmOk(plan: Plan, g: State)
    requires !Calm(plan, g)
    ensures CalmOk(plan, g)
  {
  }

  /** In a calm state the entry's pair is its caller and its joint, on different streams. */
  lemma EntryPairIs(plan: Plan, g: State)
    requires Inv(plan, g) && Calm(plan, g)
    ensures plan.entry in g.nodes && g.links.ce.Link? && g.links.ej.Link?
    ensures g.links.ej.a == plan.entry && g.links.ce.id != g.links.ej.id
    ensures PairOf(g.nodes[plan.entry], plan.sid)
         == [Stream(g.links.ce.id, plan.caller), Stream(g.links.ej.id, g.links.ej.b)]
  {
    hide RolesOk, LostOk, AllWiresTravel;
    assert Agrees(plan, g, plan.entry);
    CalmEntryPair(plan, g);
  }

  /** An act that stores no probe leaves the parts that do not count probes. */
  lemma ActKept(plan: Plan, g: State, p: Peer, e: Effect)
    requires KeptOk(plan, g) && LeftBehindOk(plan, g) && p in g.nodes
    requires plan.sid in e.node.probes ==> plan.sid in g.nodes[p].probes || (g.links.ej.Link? && p == g.links.ej.b)
    ensures var g' := Act(plan, g, p, e); KeptOk(plan, g') && LeftBehindOk(plan, g')
  {
    ActShape(plan, g, p, e);
    hide Act, Post;
    if g.links.ej.Link? && Disconnect(plan.sid) in On(g.wires, ProbeWire(g)) {
      PostStays(g.wires, p, e.sends, ProbeWire(g), Disconnect(plan.sid));
    }
  }

  lemma EntryProbesKeeps(plan: Plan, g: State, rand: bytes, bad: set<StreamId>, g': State)
    requires Inv(plan, g) && ProbeInv(plan, g) && !g.entryProbed
    requires Relays(plan, g.(entryProbed := true), plan.entry, Probe(plan.sid, rand), bad, g')
    ensures ProbeInv(plan, g')
  {
    var (n, m) := (g.nodes[plan.entry], Probe(plan.sid, rand));
    hide Inv, SendRelay, CalmOk, KeptOk, LeftBehindOk;
    BroadcastFacts(n, plan.sid, m, None, bad);
    EntryProbeCalm(plan, g, m, bad, g');
    KeptFlag(plan, g, g.(entryProbed := true));
    ActKept(plan, g.(entryProbed := true), plan.entry, SendRelay(n, plan.sid, m, bad));
  }

  lemma KeptFlag(plan: Plan, g: State, g': State)
    requires KeptOk(plan, g) && LeftBehindOk(plan, g)
    requires g' == g.(entryProbed := g'.entryProbed, exitProbed := g'.exitProbed)
    ensures KeptOk(plan, g') && LeftBehindOk(plan, g')
  {
  }

  // ----- delivery -----

  lemma PopProbes(g: State, w: Wire, x: Wire)
    requires w in g.wires && g.wires[w] != []
    ensures Probes(On(Popped(g, w).wires, x))
         == Probes(On(g.wires, x)) - One(x == w && g.wires[w][0].Probe?)
  {
  }

  /** The head is the Disconnect meant for the joint of a swap. */
  predicate IsFarewell(plan: Plan, g: State, w: Wire)
    requires w in g.wires && g.wires[w] != []
  {
    g.links.ej.Link? && w == ProbeWire(g) && g.wires[w][0] == Disconnect(plan.sid)
  }

  lemma PopProbeInv(plan: Plan, g: State, w: Wire)
    requires ProbeInv(plan, g) && w in g.wires && g.wires[w] != [] && !g.wires[w][0].Probe?
    ensures ProbeInv(plan, Popped(g, w).(swapTold := g.swapTold && !IsFarewell(plan, g, w)))
  {
    forall x { PopProbes(g, w, x); }
  }

  /** A joint without its stream to the entry is not one left behind. */
  lemma ForgetTold(plan: Plan, g: State)
    requires ProbeInv(plan, g.(swapTold := false)) && g.links.ej.Link? && Gone(g, g.links.ej.b, g.links.ej)
    ensures ProbeInv(plan, g)
  {
  }

  lemma FarewellDrops(plan: Plan, g: State, w: Wire, bad: set<StreamId>)
    requires PairsOk(plan, g) && LinksOk(plan, g) && w in g.wires && g.wires[w] != [] && IsFarewell(plan, g, w)
    ensures w.dst in g.nodes
    ensures var e := Handle(g.nodes[w.dst], g.wires[w][0], Stream(w.id, w.src), bad);
            Gone(Act(plan, Popped(g, w), w.dst, e), g.links.ej.b, g.links.ej)
  {
    DisconnectFacts(g.nodes[w.dst], plan.sid, Stream(w.id, w.src), bad);
    assert Agrees(plan, g, w.dst);
    var e := Handle(g.nodes[w.dst], g.wires[w][0], Stream(w.id, w.src), bad);
    ActLoses(plan, Popped(g, w), w.dst, e, g.links.ej);
  }

  lemma DeliverPlain(plan: Plan, g: State, w: Wire, bad: set<StreamId>, g': State)
    requires Inv(plan, g) && ProbeInv(plan, g) && DeliversFrom(plan, g, w, bad, g') && !g.wires[w][0].Probe?
    ensures ProbeInv(plan, g')
  {
    var (m, from) := (g.wires[w][0], Stream(w.id, w.src));
    assert Travels(m, plan.sid);
    HandleFacts(g.nodes[w.dst], m, from, plan.sid, bad);
    PopProbeInv(plan, g, w);
    if IsFarewell(plan, g, w) {
      FarewellDrops(plan, g, w, bad);
    }
    hide Inv, ProbeInv, Handle, Mild, Act;
    var e := Handle(g.nodes[w.dst], m, from, bad);
    if IsFarewell(plan, g, w) {
      var quiet := Popped(g, w).(swapTold := false);
      ActProbes(plan, quiet, w.dst, e);
      ActTold(plan, Popped(g, w), w.dst, e);
      ForgetTold(plan, g');
    } else {
      ActProbes(plan, Popped(g, w), w.dst, e);
    }
  }

  lemma ActTold(plan: Plan, g: State, p: Peer, e: Effect)
    requires p in g.nodes
    ensures Act(plan, g.(swapTold := false), p, e) == Act(plan, g, p, e).(swapTold := false)
    ensures Act(plan, g, p, e).links == g.links
  {
  }

  /** A client that holds one stream ignores a probe. */
  lemma ClientIgnoresProbe(plan: Plan, g: State, p: Peer, rand: bytes, from: Stream, bad: set<StreamId>)
    requires CastOk(plan, g.nodes) && LinksOk(plan, g) && plan.caller != plan.answer
    requires (p == plan.caller || p == plan.answer) && Agrees(plan, g, p)
    requires plan.sid in g.nodes[p].sessions ==> RoleOk(plan, g, p, g.nodes[p].sessions[plan.sid].role)
    ensures HandleProbe(g.nodes[p], plan.sid, rand, from, bad) == Quiet(g.nodes[p])
  {
  }

  /** The joint that still holds its stream to the entry keeps the first probe it sees. */
  lemma JointKeepsProbe(plan: Plan, g: State, rand: bytes, from: Stream, bad: set<StreamId>)
    requires Inv(plan, g) && g.links.ej.Link? && Holds(g, g.links.ej.b, g.links.ej)
    requires plan.sid !in g.nodes[g.links.ej.b].probes
    ensures var n := g.nodes[g.links.ej.b];
            HandleProbe(n, plan.sid, rand, from, bad) == Quiet(n.(probes := n.probes[plan.sid := rand]))
  {
    assert Agrees(plan, g, g.links.ej.b);
  }

  /** In a calm state a delivered probe is ignored by a client or kept by the joint. */
  lemma CalmProbeEffect(plan: Plan, g: State, w: Wire, bad: set<StreamId>)
    requires Inv(plan, g) && CalmOk(plan, g) && Calm(plan, g)
    requires w in g.wires && g.wires[w] != [] && w.dst in g.nodes && g.wires[w][0].Probe?
    ensures var n := g.nodes[w.dst];
            var e := Handle(n, g.wires[w][0], Stream(w.id, w.src), bad);
            if w == ProbeWire(g) then e == Quiet(n.(probes := n.probes[plan.sid := g.wires[w][0].rand]))
            else e == Quiet(n)
  {
    assert Travels(g.wires[w][0], plan.sid);
    assert Probes(On(g.wires, w)) > 0;
    if w == ProbeWire(g) {
      JointKeepsProbe(plan, g, g.wires[w][0].rand, Stream(w.id, w.src), bad);
    } else {
      assert Agrees(plan, g, w.dst);
      ClientIgnoresProbe(plan, g, w.dst, g.wires[w][0].rand, Stream(w.id, w.src), bad);
    }
  }

  lemma ProbeDeliveredCalm(plan: Plan, g: State, w: Wire, bad: set<StreamId>, g': State)
    requires Inv(plan, g) && CalmOk(plan, g) && Calm(plan, g)
    requires DeliversFrom(plan, g, w, bad, g') && g.wires[w][0].Probe?
    ensures CalmOk(plan, g')
  {
    hide Inv, Handle, Act, Post, Probes;
    CalmProbeEffect(plan, g, w, bad);
    forall x { PopProbes(g, w, x); }
    var n := g.nodes[w.dst];
    ActQuiet(plan, Popped(g, w), w.dst,
             if w == ProbeWire(g) then n.(probes := n.probes[plan.sid := g.wires[w][0].rand]) else n);
  }

  lemma ProbeKept(plan: Plan, g: State, w: Wire, bad: set<StreamId>)
    requires Inv(plan, g) && ProbeInv(plan, g) && w in g.wires && g.wires[w] != [] && w.dst in g.nodes
        && g.wires[w][0].Probe?
    ensures g.entryProbed || g.exitProbed
    ensures KeptOk(plan, Popped(g, w)) && LeftBehindOk(plan, Popped(g, w))
    ensures var e := Handle(g.nodes[w.dst], g.wires[w][0], Stream(w.id, w.src), bad);
            plan.sid in e.node.probes ==>
              plan.sid in g.nodes[w.dst].probes || (g.links.ej.Link? && w.dst == g.links.ej.b)
  {
    assert Travels(g.wires[w][0], plan.sid);
    ProbeFacts(g.nodes[w.dst], plan.sid, g.wires[w][0].rand, Stream(w.id, w.src), bad);
    assert Probes(On(g.wires, w)) > 0;
  }

  lemma DeliverProbe(plan: Plan, g: State, w: Wire, bad: set<StreamId>, g': State)
    requires Inv(plan, g) && ProbeInv(plan, g) && DeliversFrom(plan, g, w, bad, g') && g.wires[w][0].Probe?
    ensures ProbeInv(plan, g')
  {
    var (n, rand, from) := (g.nodes[w.dst], g.wires[w][0].rand, Stream(w.id, w.src));
    var e := Handle(n, g.wires[w][0], from, bad);
    ProbeKept(plan, g, w, bad);
    hide Inv, CalmOk, KeptOk, LeftBehindOk, Probes, Post, Handle, Act;
    ActShape(plan, Popped(g, w), w.dst, e);
    ActKept(plan, Popped(g, w), w.dst, e);
    if Calm(plan, g) {
      ProbeDeliveredCalm(plan, g, w, bad, g');
    } else {
      NeverCalmAgain(plan, g, g');
    }
  }

  /** Between exchanges a state that is not calm does not become calm. */
  lemma NeverCalmAgain(plan: Plan, g: State, g': State)
    requires !Calm(plan, g) && g'.links == g.links && g.lost <= g'.lost && (g.exitProbed ==> g'.exitProbed)
    requires g'.swapped == g.swapped
    ensures CalmOk(plan, g')
  {
  }

  // ----- exchanges and the remaining steps -----

  /** An exchange stores and sends no probe. */
  lemma QuietlyProbes(plan: Plan, g: State, g': State)
    requires ProbeInv(plan, g) && Quietly(g, g')
    requires g'.links.ej == g.links.ej || (!g.entryProbed && !g.exitProbed && !g.swapped && g.links.ej.NoLink?)
    requires g'.links.ce == g.links.ce || g'.links.ej.NoLink?
    requires g.links.ej.Link? ==> g.links.ej.b in g.nodes
    requires g'.links.ej.Link? ==> g'.links.ej.b in g'.nodes
    ensures ProbeInv(plan, g')
  {
    hide Probes, Post;
    assert KeptOk(plan, g');
    assert UnsentOk(plan, g');
    assert LeftBehindOk(plan, g');
    assert CalmOk(plan, g');
  }

  lemma SwapProbes(plan: Plan, g: State, id: StreamId, keep: Stream, told: bool, g': State)
    requires ProbeInv(plan, g) && g.links.ej.Link? && g.links.ej.a == plan.entry
    requires SwapState(plan, g, id, keep, Stream(g.links.ej.id, g.links.ej.b), told, g')
    ensures ProbeInv(plan, g')
  {
    var send := Send(Stream(g.links.ej.id, g.links.ej.b), Disconnect(plan.sid));
    var sends := if told then [send] else [];
    assert g'.wires == Post(g.wires, plan.entry, sends);
    forall w
      ensures Probes(On(g'.wires, w)) == Probes(On(g.wires, w))
    {
      PostProbes(g.wires, plan.entry, sends, w);
    }
    PostOne(g.wires, plan.entry, send);
    hide Post, Probes;
    assert LeftBehindOk(plan, g') by {
      if told {
        var w := ProbeWire(g');
        assert On(g'.wires, w)[|On(g.wires, w)|] == Disconnect(plan.sid);
      }
    }
  }

  lemma PostOne(wires: map<Wire, seq<Msg>>, src: Peer, send: Send)
    ensures var w := Wire(send.to.id, src, send.to.remote);
            Post(wires, src, [send]) == wires[w := On(wires, w) + [send.msg]]
  {
    var w := Wire(send.to.id, src, send.to.remote);
    assert [send][1..] == [];
    assert Post(wires[w := On(wires, w) + [send.msg]], src, [send][1..]) == wires[w := On(wires, w) + [send.msg]];
  }

  lemma LinkFacts(plan: Plan, g: State)
    requires Inv(plan, g)
    ensures g.links.ej.Link? ==> g.links.ej.b in g.nodes && g.links.ej.a == plan.entry && g.links.ce.Link?
    ensures g.links.ej.NoLink? ==> !g.entryProbed && !g.exitProbed && !g.swapped
  {
  }

  lemma ExchangeProbes(plan: Plan, g: State, move: Move, g': State)
    requires Inv(plan, g) && Inv(plan, g') && ProbeInv(plan, g) && Step(plan, g, move, g') && IsExchange(move)
    ensures ProbeInv(plan, g')
  {
    hide Inv, ProbeInv, Exchange, Linked, SwapState, Act, Fresh, Accepts, IsSwap;
    LinkFacts(plan, g);
    LinkFacts(plan, g');
    match move {
    case CallerOpens(id) => OpenKeeps(plan, g, id, g');
    case EntryServesBoth(id) => CallKeeps(plan, g, id, g');
    case EntryJoins(joint, id) => JoinKeeps(plan, g, joint, id, g');
    case ExitCallsAnswer(id) => CallKeeps(plan, g, id, g');
    case ExitPicksRelay(relay, id, bad) => PickKeeps(plan, g, relay, id, bad, g');
    case RelayExpends(id) => ExpendKeeps(plan, g, id, g');
    }
    if Quietly(g, g') {
      hide Quietly;
      QuietlyProbes(plan, g, g');
    } else {
      SwapProbes(plan, g, move.id, Stream(g.links.ce.id, plan.caller), g'.swapTold, g');
    }
  }

  lemma RelaysProbes(plan: Plan, g: State, p: Peer, msg: Msg, bad: set<StreamId>, g': State)
    requires ProbeInv(plan, g) && Travels(msg, plan.sid) && !msg.Probe? && Relays(plan, g, p, msg, bad, g')
    ensures ProbeInv(plan, g')
  {
    BroadcastFacts(g.nodes[p], plan.sid, msg, None, bad);
    hide ProbeInv;
    ActProbes(plan, g, p, SendRelay(g.nodes[p], plan.sid, msg, bad));
  }

  lemma ExitProbesKeeps(plan: Plan, g: State, rand: bytes, bad: set<StreamId>, g': State)
    requires ProbeInv(plan, g) && Relays(plan, g.(exitProbed := true), plan.exit, Probe(plan.sid, rand), bad, g')
    ensures ProbeInv(plan, g')
  {
    var (n, m) := (g.nodes[plan.exit], Probe(plan.sid, rand));
    KeptFlag(plan, g, g.(exitProbed := true));
    hide SendRelay, KeptOk, LeftBehindOk;
    BroadcastFacts(n, plan.sid, m, None, bad);
    ActKept(plan, g.(exitProbed := true), plan.exit, SendRelay(n, plan.sid, m, bad));
  }

  lemma FlagProbes(plan: Plan, g: State, g': State)
    requires ProbeInv(plan, g) && g' == g.(requested := g'.requested, gossiped := g'.gossiped, expended := g'.expended)
    ensures ProbeInv(plan, g')
  {
  }

  lemma SameProbes(plan: Plan, g: State, p: Peer, n: Node)
    requires ProbeInv(plan, g) && p in g.nodes && SameFor(plan.sid, g.nodes[p], n)
    ensures ProbeInv(plan, g.(nodes := g.nodes[p := n]))
  {
    ActQuiet(plan, g, p, n);
    hide ProbeInv;
    ActProbes(plan, g, p, Quiet(n));
  }

  lemma RequestProbes(plan: Plan, g: State, g': State)
    requires ProbeInv(plan, g) && Requests(plan, g, g')
    ensures ProbeInv(plan, g')
  {
    hide ProbeInv;
    FlagProbes(plan, g, g.(requested := true));
    SameProbes(plan, g.(requested := true), plan.caller, AddCircuit(g.nodes[plan.caller], plan.sid, plan.answer));
  }

  lemma ClosesProbes(plan: Plan, g: State, p: Peer, bad: set<StreamId>)
    requires ProbeInv(plan, g) && p in g.nodes
    ensures ProbeInv(plan, Act(plan, g, p, CloseCircuit(g.nodes[p], plan.sid, bad)))
  {
    CloseFacts(g.nodes[p], plan.sid, bad);
    hide ProbeInv;
    ActProbes(plan, g, p, CloseCircuit(g.nodes[p], plan.sid, bad));
  }

  lemma StreamClosesProbes(plan: Plan, g: State, p: Peer, id: StreamId, bad: set<StreamId>)
    requires ProbeInv(plan, g) && p in g.nodes && id in g.nodes[p].streams && g.nodes[p].streams[id].sid == plan.sid
    ensures ProbeInv(plan, Act(plan, g, p, HandleStreamClosed(g.nodes[p], id, bad)))
  {
    hide ProbeInv;
    if plan.sid != UNBOUND {
      CloseFacts(g.nodes[p], plan.sid, bad);
    }
    ActProbes(plan, g, p, HandleStreamClosed(g.nodes[p], id, bad));
  }

  /** Every step keeps the whole invariant. */
  lemma StepKeepsAll(plan: Plan, g: State, move: Move, g': State)
    requires Inv(plan, g) && ProbeInv(plan, g) && Step(plan, g, move, g')
    ensures Inv(plan, g') && ProbeInv(plan, g')
  {
    hide Inv, ProbeInv, Opens, Requests, CallsAnswer, Joins, PicksRelay, Expends, Relays, Act;
    StepKeeps(plan, g, move, g');
    if IsExchange(move) {
      ExchangeProbes(plan, g, move, g');
    } else {
      match move
      case CallerRequests => RequestProbes(plan, g, g');
      case EntryAnnounces(bad) => RelaysProbes(plan, g, plan.entry, Success(plan.sid), bad, g');
      case EntryGossips => FlagProbes(plan, g, g');
      case EntryProbes(bad, rand) => EntryProbesKeeps(plan, g, rand, bad, g');
      case ExitAnnounces(bad) => RelaysProbes(plan, g, plan.exit, Success(plan.sid), bad, g');
      case RelayAnnounces(bad) =>
        FlagProbes(plan, g, g.(expended := true));
        RelaysProbes(plan, g.(expended := true), g.links.xr.b, Success(plan.sid), bad, g');
      case ExitProbes(bad, rand) => ExitProbesKeeps(plan, g, rand, bad, g');
      case Delivers(w, bad) =>
        if g.wires[w][0].Probe? { DeliverProbe(plan, g, w, bad, g'); } else { DeliverPlain(plan, g, w, bad, g'); }
      case Closes(p, bad) => ClosesProbes(plan, g, p, bad);
      case StreamCloses(p, id, bad) => StreamClosesProbes(plan, g, p, id, bad);
      case Writes(p, payload, bad) => RelaysProbes(plan, g, p, Data(plan.sid, payload), bad, g');
      case Elsewhere(p, op) =>
        ElsewhereSame(plan, g.nodes[p], op);
        hide NodeRuns.Apply;
        SameProbes(plan, g, p, NodeRuns.Apply(g.nodes[p], op).node);
      case _ =>
    }
  }
}
