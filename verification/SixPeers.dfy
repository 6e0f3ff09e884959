/**
  The full set-up, move by move: six different peers, both probes, the joint's announcement, and
  Success at both ends, for any peers, any session id and any probe value.
*/
module SixPeers {
  import opened Basics
  import opened Relay
  import opened NodeFacts
  import opened CircuitSetup
  import opened SetupInvariant
  import opened SetupProbes
  import opened SetupTheorem
  import opened SetupRuns
  import opened SetupNodes
  import SetupLine
  import NodeRuns
  import Answers

  /** The peers of the plan, a joint and a relay are six different peers. */
  predicate Six(plan: Plan, joint: Peer, relay: Peer) {
    && plan.sid != UNBOUND
    && plan.caller != plan.entry && plan.caller != joint && plan.caller != relay && plan.caller != plan.exit
    && plan.caller != plan.answer && plan.entry != joint && plan.entry != relay && plan.entry != plan.exit
    && plan.entry != plan.answer && joint != relay && joint != plan.exit && joint != plan.answer
    && relay != plan.exit && relay != plan.answer && plan.exit != plan.answer
  }

  function SixLinks(plan: Plan, joint: Peer, relay: Peer): Links {
    Links(Link(10, plan.caller, plan.entry), Link(11, plan.entry, joint), Link(12, plan.exit, plan.answer),
          Link(13, plan.exit, relay), Link(14, relay, joint))
  }

  // ----- the exchanges -----

  function SixBeginning(plan: Plan, joint: Peer, relay: Peer): State {
    var g := Beginning(plan, joint);
    g.(nodes := g.nodes[relay := BareNode(relay, ServerMode)])
  }

  lemma SixInitial(plan: Plan, joint: Peer, relay: Peer)
    requires Six(plan, joint, relay)
    ensures var g := SixBeginning(plan, joint, relay);
            && Initial(plan, g) && IndexKnown(g) && Server(g, joint) && Server(g, relay) && g.links == NO_LINKS
            && g.lost == {} && g.wires == map[] && !g.entryProbed && !g.exitProbed
            && !g.requested && !g.gossiped && !g.expended && !g.swapped
  {
    var g := SixBeginning(plan, joint, relay);
    forall p | p in g.nodes
      ensures Idle(plan.sid, p, g.nodes[p]) && g.nodes[p].streams == map[]
    {
      BareIsIdle(plan.sid, p, g.nodes[p].mode);
      assert g.nodes[p] == BareNode(p, g.nodes[p].mode);
    }
    hide Idle;
  }

  lemma BareIsIdle(sid: Sid, p: Peer, mode: Mode)
    ensures Idle(sid, p, BareNode(p, mode))
  {
  }

  lemma StartSix(plan: Plan, joint: Peer, relay: Peer)
    requires Six(plan, joint, relay)
    ensures var g := SixBeginning(plan, joint, relay);
            && IsRun(plan, [g], []) && Stage(plan, g, NO_LINKS, false, false)
            && Server(g, joint) && Server(g, relay) && g.wires == map[] && !g.entryProbed && !g.exitProbed
  {
    SixInitial(plan, joint, relay);
    hide Initial, SixBeginning, Inv, IndexKnown;
    InitialInv(plan, SixBeginning(plan, joint, relay));
  }

  /** The exit finds a relay that knows nothing of the session. */
  lemma DoPick(plan: Plan, g: State, relay: Peer, id: StreamId) returns (g': State)
    requires Stage(plan, g, g.links.(xr := NoLink, rj := NoLink), true, true) && g.links.xa.Link?
    requires g.links.ej.Link? && g.links.ce.Link?
    requires g.links.ej.b != plan.exit && !Known(g.links, id) && Server(g, relay)
    requires relay != g.links.ej.b && relay != plan.exit && relay != plan.entry && relay != plan.caller
    requires relay != plan.answer
    ensures Step(plan, g, ExitPicksRelay(relay, id, {}), g') && g'.wires == g.wires && SameModes(g, g')
    ensures Stage(plan, g', g.links.(xr := Link(id, plan.exit, relay)), true, true)
  {
    var ls := g.links.(xr := Link(id, plan.exit, relay));
    assert Covers(g.links, ls, id);
    assert plan.exit in g.nodes && relay in g.nodes by { EntryThere(plan, g); }
    hide Exchange, Act, Inv, IsSwap, Accepts, PicksRelay, IndexKnown, SameModes, Covers, Known, Server, Step;
    hide CanExchange;
    NewcomerIdle(plan, g, relay);
    CanBegin(plan, g, plan.exit, relay, id, Relayer);
    ExchangeFrame(plan, g, plan.exit, relay, id, Exit, Relayer, {});
    var x := Exchange(plan, g, plan.exit, relay, id, Exit, Relayer, {});
    g' := x.(links := ls, swapped := false, swapTold := false);
    PickPossible(plan, g, relay, id, g');
    PickQuietly(plan, g, relay, id, g');
    PickFrame(g, x, id, g');
  }

  lemma PickQuietly(plan: Plan, g: State, relay: Peer, id: StreamId, g': State)
    requires Inv(plan, g) && PicksRelay(plan, g, relay, id, {}, g') && !g'.swapped
    ensures Inv(plan, g') && Quietly(g, g')
  {
    hide Inv, PicksRelay;
    PickKeeps(plan, g, relay, id, {}, g');
  }

  /** The links know what they knew, and one more stream. */
  ghost predicate Covers(ls: Links, ls': Links, id: StreamId) {
    Known(ls', id) && forall i :: Known(ls, i) ==> Known(ls', i)
  }

  lemma PickPossible(plan: Plan, g: State, relay: Peer, id: StreamId, g': State)
    requires g.gossiped && g.links.xa.Link? && g.links.xr.NoLink? && g.links.ej.Link? && g.links.ej.b != plan.exit
    requires relay != g.links.ej.b && relay != plan.exit && CanExchange(plan, g, plan.exit, relay, id, Relayer)
    requires !IsSwap(g.nodes[relay], plan.sid, Relayer)
    requires g' == Exchange(plan, g, plan.exit, relay, id, Exit, Relayer, {})
                   .(links := g.links.(xr := Link(id, plan.exit, relay)), swapped := false, swapTold := false)
    ensures PicksRelay(plan, g, relay, id, {}, g') && Step(plan, g, ExitPicksRelay(relay, id, {}), g')
  {
    hide Exchange;
  }

  /** The recorded link covers the one stream that was indexed. */
  lemma PickFrame(g: State, x: State, id: StreamId, g': State)
    requires IndexKnown(g) && SameModes(g, x) && g'.nodes == x.nodes
    requires g'.entryProbed == x.entryProbed && g'.exitProbed == x.exitProbed
    requires forall p | p in g.nodes :: x.nodes[p].streams.Keys <= g.nodes[p].streams.Keys + {id}
    requires Covers(g.links, g'.links, id)
    ensures SameModes(g, g') && IndexKnown(g')
  {
    IndexGrows(g, g', id);
  }

  /** A peer that no exchange names has no session. */
  lemma NewcomerIdle(plan: Plan, g: State, p: Peer)
    requires Inv(plan, g) && Server(g, p) && g.links.xr.NoLink? && g.links.rj.NoLink?
    requires p != plan.caller && p != plan.entry && p != plan.exit && p != plan.answer
    requires g.links.ej.Link? && p != g.links.ej.b
    ensures plan.sid !in g.nodes[p].sessions && !IsSwap(g.nodes[p], plan.sid, Relayer)
    ensures Accepts(g.nodes[p], plan.sid, Relayer)
  {
    assert Agrees(plan, g, p);
  }

  /** The relay reaches the joint. */
  lemma DoExpend(plan: Plan, g: State, id: StreamId) returns (g': State)
    requires Stage(plan, g, g.links.(rj := NoLink), true, true) && g.links.xr.Link? && g.links.ej.Link?
    requires g.links.xa.Link? && g.links.ce.Link? && !Known(g.links, id) && g.links.xr.b != plan.entry
    requires g.links.xr.b != plan.answer && g.links.xr.b != plan.caller
    ensures Step(plan, g, RelayExpends(id), g') && g'.wires == g.wires && SameModes(g, g')
    ensures Inv(plan, g') && g'.lost == {} && g'.links == g.links.(rj := Link(id, g.links.xr.b, g.links.ej.b))
    ensures !g'.swapped && g'.expended && g'.requested && g'.gossiped
  {
    assert Covers(g.links, g.links.(rj := Link(id, g.links.xr.b, g.links.ej.b)), id);
    hide Exchange, Act, Inv, Accepts, Expends, IndexKnown, SameModes, Covers, Known, Step, CanExchange;
    var (relay, joint) := (g.links.xr.b, g.links.ej.b);
    RelayHalf(plan, g);
    CanBegin(plan, g, relay, joint, id, Joint);
    ExchangeFrame(plan, g, relay, joint, id, Relayer, Joint, {});
    ExchangeWires(plan, g, relay, joint, id, Relayer, Joint, {});
    var x := Exchange(plan, g, relay, joint, id, Relayer, Joint, {});
    g' := x.(links := g.links.(rj := Link(id, relay, joint)), expended := true);
    ExpendPossible(plan, g, id, g');
    ExpendKeeps(plan, g, id, g');
    PickFrame(g, x, id, g');
  }

  lemma ExpendPossible(plan: Plan, g: State, id: StreamId, g': State)
    requires var (r, j) := (g.links.xr, g.links.ej);
             && r.Link? && !g.expended && g.links.rj.NoLink? && j.Link? && CanExchange(plan, g, r.b, j.b, id, Joint)
             && plan.sid in g.nodes[r.b].sessions && !g.nodes[r.b].sessions[plan.sid].IsReady()
             && g' == Exchange(plan, g, r.b, j.b, id, Relayer, Joint, {})
                      .(links := g.links.(rj := Link(id, r.b, j.b)), expended := true)
    ensures Expends(plan, g, id, g') && Step(plan, g, RelayExpends(id), g')
  {
    hide Exchange;
  }

  /** Before that, the relay has only its stream to the exit, and the joint takes another. */
  lemma RelayHalf(plan: Plan, g: State)
    requires Inv(plan, g) && g.lost == {} && g.links.rj.NoLink? && g.links.xr.Link? && g.links.ej.Link?
    requires g.links.xr.b != plan.entry && g.links.xr.b != plan.answer && g.links.xr.b != plan.caller
    ensures var (r, j) := (g.links.xr.b, g.links.ej.b);
            && r in g.nodes && j in g.nodes && r != j && plan.sid in g.nodes[r].sessions
            && !g.nodes[r].sessions[plan.sid].IsReady() && Accepts(g.nodes[j], plan.sid, Joint)
  {
    var (r, j) := (g.links.xr.b, g.links.ej.b);
    assert Agrees(plan, g, r) && Agrees(plan, g, j);
  }

  lemma ServerStays(g: State, g': State, p: Peer)
    requires SameModes(g, g') && Server(g, p)
    ensures Server(g', p) && g'.entryProbed == g.entryProbed && g'.exitProbed == g.exitProbed
  {
  }

  /** Seven moves to a complete route, with nothing on the wires. */
  lemma BuildSix(plan: Plan, joint: Peer, relay: Peer) returns (states: seq<State>, moves: seq<Move>)
    requires Six(plan, joint, relay)
    ensures IsRun(plan, states, moves) && |moves| == 7 && |states| == 8
    ensures var g := states[7];
            && Inv(plan, g) && g.lost == {} && g.links == SixLinks(plan, joint, relay) && g.wires == map[]
            && g.requested && g.gossiped && g.expended && !g.swapped && !g.entryProbed && !g.exitProbed
            && Server(g, joint) && Server(g, relay)
  {
    hide Step, Initial, IsRun, Inv, SixBeginning, IndexKnown, SameModes, Server;
    StartSix(plan, joint, relay);
    var s0 := SixBeginning(plan, joint, relay);
    var s1 := DoOpen(plan, s0, 10, joint);
    ServerStays(s0, s1, relay);
    var s2 := DoRequest(plan, s1, joint);
    ServerStays(s1, s2, relay);
    var s3 := DoJoin(plan, s2, joint, 11);
    ServerStays(s2, s3, relay);
    ServerStays(s2, s3, joint);
    var s4 := DoGossip(plan, s3);
    ServerStays(s3, s4, relay);
    ServerStays(s3, s4, joint);
    states, moves := [s0], [];
    states, moves := Grow(plan, states, moves, CallerOpens(10), s1);
    states, moves := Grow(plan, states, moves, CallerRequests, s2);
    states, moves := Grow(plan, states, moves, EntryJoins(joint, 11), s3);
    states, moves := Grow(plan, states, moves, EntryGossips, s4);
    states, moves := BuildRest(plan, joint, relay, states, moves);
  }

  lemma BuildRest(plan: Plan, joint: Peer, relay: Peer, states: seq<State>, moves: seq<Move>)
    returns (states': seq<State>, moves': seq<Move>)
    requires Six(plan, joint, relay) && IsRun(plan, states, moves) && |moves| == 4 && |states| == 5
    requires var g := states[4];
             && Stage(plan, g, SixLinks(plan, joint, relay).(xa := NoLink, xr := NoLink, rj := NoLink), true, true)
             && g.wires == map[] && !g.entryProbed && !g.exitProbed && Server(g, joint) && Server(g, relay)
    ensures IsRun(plan, states', moves') && |moves'| == 7 && |states'| == 8
    ensures var g := states'[7];
            && Inv(plan, g) && g.lost == {} && g.links == SixLinks(plan, joint, relay) && g.wires == map[]
            && g.requested && g.gossiped && g.expended && !g.swapped && !g.entryProbed && !g.exitProbed
            && Server(g, joint) && Server(g, relay)
  {
    hide Step, Initial, IsRun, Inv, IndexKnown, SameModes, Server;
    var s4 := states[4];
    var s5 := DoCall(plan, s4, 12);
    ServerStays(s4, s5, relay);
    ServerStays(s4, s5, joint);
    var s6 := DoPick(plan, s5, relay, 13);
    ServerStays(s5, s6, relay);
    ServerStays(s5, s6, joint);
    var s7 := DoExpend(plan, s6, 14);
    ServerStays(s6, s7, relay);
    ServerStays(s6, s7, joint);
    states', moves' := Grow(plan, states, moves, ExitCallsAnswer(12), s5);
    states', moves' := Grow(plan, states', moves', ExitPicksRelay(relay, 13, {}), s6);
    states', moves' := Grow(plan, states', moves', RelayExpends(14), s7);
  }

  // ----- messages under way, oldest first -----

  datatype Letter = Letter(wire: Wire, msg: Msg)

  /** What a list of letters puts on one wire. */
  function Load(letters: seq<Letter>, w: Wire): seq<Msg> {
    if letters == [] then []
    else (if letters[0].wire == w then [letters[0].msg] else []) + Load(letters[1..], w)
  }

  /** The wires carry these letters, in this order, and nothing else. */
  ghost predicate Bears(wires: map<Wire, seq<Msg>>, letters: seq<Letter>) {
    forall w :: On(wires, w) == Load(letters, w)
  }

  function Posted(src: Peer, sends: seq<Send>): (letters: seq<Letter>)
    ensures |letters| == |sends|
  {
    seq(|sends|, i requires 0 <= i < |sends| =>
      Letter(Wire(sends[i].to.id, src, sends[i].to.remote), sends[i].msg))
  }

  lemma {:induction false} LoadConcat(a: seq<Letter>, b: seq<Letter>, w: Wire)
    ensures Load(a + b, w) == Load(a, w) + Load(b, w)
  {
    if a == [] {
      assert a + b == b;
    } else {
      assert (a + b)[1..] == a[1..] + b;
      LoadConcat(a[1..], b, w);
    }
  }

  lemma {:induction false} PostLoads(wires: map<Wire, seq<Msg>>, src: Peer, sends: seq<Send>, w: Wire)
    ensures On(Post(wires, src, sends), w) == On(wires, w) + Load(Posted(src, sends), w)
    decreases |sends|
  {
    if sends != [] {
      var w0 := Wire(sends[0].to.id, src, sends[0].to.remote);
      var wires' := wires[w0 := On(wires, w0) + [sends[0].msg]];
      assert Posted(src, sends)[1..] == Posted(src, sends[1..]);
      PostLoads(wires', src, sends[1..], w);
    }
  }

  lemma PostBears(wires: map<Wire, seq<Msg>>, letters: seq<Letter>, src: Peer, sends: seq<Send>)
    requires Bears(wires, letters)
    ensures Bears(Post(wires, src, sends), letters + Posted(src, sends))
  {
    forall w
      ensures On(Post(wires, src, sends), w) == Load(letters + Posted(src, sends), w)
    {
      PostLoads(wires, src, sends, w);
      LoadConcat(letters, Posted(src, sends), w);
    }
  }

  /** The oldest letter is at the head of its wire. */
  lemma PopBears(g: State, letters: seq<Letter>)
    requires letters != [] && Bears(g.wires, letters)
    ensures var w := letters[0].wire;
            && w in g.wires && g.wires[w] != [] && g.wires[w][0] == letters[0].msg
            && Bears(Popped(g, w).wires, letters[1..])
  {
    var w := letters[0].wire;
    assert On(g.wires, w) == [letters[0].msg] + Load(letters[1..], w);
    forall x
      ensures On(Popped(g, w).wires, x) == Load(letters[1..], x)
    {
      assert On(g.wires, x) == Load(letters, x);
    }
  }

  /** Its arrival: the receiver does `e`, and what it writes is the newest. */
  lemma Arrives(plan: Plan, g: State, letters: seq<Letter>, e: Effect) returns (g': State)
    requires letters != [] && Bears(g.wires, letters) && letters[0].wire.dst in g.nodes
    requires var w := letters[0].wire;
             && e == Handle(g.nodes[w.dst], letters[0].msg, Stream(w.id, w.src), {})
             && PairOf(e.node, plan.sid) == PairOf(g.nodes[w.dst], plan.sid)
    ensures Step(plan, g, Delivers(letters[0].wire, {}), g')
    ensures Bears(g'.wires, letters[1..] + Posted(letters[0].wire.dst, e.sends))
    ensures g' == g.(nodes := g.nodes[letters[0].wire.dst := e.node], wires := g'.wires)
  {
    hide Handle, Bears, Post;
    PopBears(g, letters);
    var w := letters[0].wire;
    g' := Act(plan, Popped(g, w), w.dst, e);
    PostBears(Popped(g, w).wires, letters[1..], w.dst, e.sends);
    SameStreams(plan, Popped(g, w), w.dst, e);
  }

  lemma SameStreams(plan: Plan, g: State, p: Peer, e: Effect)
    requires p in g.nodes && PairOf(e.node, plan.sid) == PairOf(g.nodes[p], plan.sid)
    ensures Act(plan, g, p, e) == g.(nodes := g.nodes[p := e.node], wires := Post(g.wires, p, e.sends))
  {
    assert (set s | s in PairOf(g.nodes[p], plan.sid) && s !in PairOf(e.node, plan.sid) :: (p, s.id)) == {};
  }

  // ----- the six seats -----

  /** Everyone in its seat: the caller, the three that pass on, the joint and the answer, with their streams. */
  predicate Seated(plan: Plan, joint: Peer, relay: Peer, nodes: map<Peer, Node>) {
    && SeatedEnd(plan.sid, nodes, plan.caller, Caller, Stream(10, plan.entry))
    && SeatedEnd(plan.sid, nodes, plan.answer, Answer, Stream(12, plan.exit))
    && SeatedAt(plan.sid, nodes, plan.entry, Stream(10, plan.caller), Stream(11, joint))
    && SeatedAt(plan.sid, nodes, relay, Stream(13, plan.exit), Stream(14, joint))
    && SeatedAt(plan.sid, nodes, plan.exit, Stream(12, plan.answer), Stream(13, relay))
    && joint in nodes && plan.sid in nodes[joint].sessions
    && nodes[joint].sessions[plan.sid] == Session(Joint, [Stream(11, plan.entry), Stream(14, relay)])
  }

  predicate SeatedEnd(sid: Sid, nodes: map<Peer, Node>, p: Peer, role: Role, s: Stream) {
    && p in nodes && sid in nodes[p].sessions && nodes[p].sessions[sid] == Session(role, [s])
    && sid in nodes[p].circuits
  }

  predicate SeatedAt(sid: Sid, nodes: map<Peer, Node>, p: Peer, a: Stream, b: Stream) {
    && p in nodes && sid in nodes[p].sessions && nodes[p].sessions[sid].pair == [a, b]
    && var role := nodes[p].sessions[sid].role; role != Caller && role != Answer && role != Joint
  }

  /** Whether Success has reached peer `p`. */
  predicate HeardAt(sid: Sid, nodes: map<Peer, Node>, p: Peer) {
    p in nodes && sid in nodes[p].circuits && nodes[p].circuits[sid].ready
  }

  /** What the joint has stored. */
  predicate Stored(sid: Sid, nodes: map<Peer, Node>, joint: Peer, probe: Option<bytes>) {
    && joint in nodes
    && match probe
       case None => sid !in nodes[joint].probes
       case Some(rand) => sid in nodes[joint].probes && nodes[joint].probes[sid] == rand
  }

  /** A state of the run: the seats, what is under way, what the joint stored. */
  ghost predicate Scene(plan: Plan, joint: Peer, relay: Peer, g: State, letters: seq<Letter>, probe: Option<bytes>) {
    && Six(plan, joint, relay) && Seated(plan, joint, relay, g.nodes) && Stored(plan.sid, g.nodes, joint, probe)
    && Bears(g.wires, letters) && g.links == SixLinks(plan, joint, relay) && g.lost == {}
  }

  function ToCaller(plan: Plan): Wire { Wire(10, plan.entry, plan.caller) }
  function EntryToJoint(plan: Plan, joint: Peer): Wire { Wire(11, plan.entry, joint) }
  function JointToEntry(plan: Plan, joint: Peer): Wire { Wire(11, joint, plan.entry) }
  function ToAnswer(plan: Plan): Wire { Wire(12, plan.exit, plan.answer) }
  function ExitToRelay(plan: Plan, relay: Peer): Wire { Wire(13, plan.exit, relay) }
  function RelayToExit(plan: Plan, relay: Peer): Wire { Wire(13, relay, plan.exit) }
  function RelayToJoint(joint: Peer, relay: Peer): Wire { Wire(14, relay, joint) }
  function JointToRelay(joint: Peer, relay: Peer): Wire { Wire(14, joint, relay) }

  // ----- taking the seats -----

  /** A complete route that lost nothing has everyone in its seat. */
  lemma TakeSeats(plan: Plan, joint: Peer, relay: Peer, states: seq<State>, moves: seq<Move>)
    requires Six(plan, joint, relay) && IsRun(plan, states, moves) && |moves| == 7 && |states| == 8
    requires var g := states[7];
             && Inv(plan, g) && g.lost == {} && g.links == SixLinks(plan, joint, relay) && g.wires == map[]
             && g.requested && !g.entryProbed && !g.exitProbed && !g.swapped
    ensures Scene(plan, joint, relay, states[7], [], None)
  {
    hide IsRun, Inv, ProbeInv, NodesOk;
    RunKeeps(plan, states, moves, 7);
    SetupLine.RunNodes(plan, states, moves, 7);
    var g := states[7];
    PairsSeated(plan, joint, relay, g);
    CircuitsSeated(plan, joint, relay, g);
    JointIsBlank(plan, joint, g);
  }

  lemma JointIsBlank(plan: Plan, joint: Peer, g: State)
    requires ProbeInv(plan, g) && !g.entryProbed && !g.exitProbed && joint in g.nodes
    ensures plan.sid !in g.nodes[joint].probes
  {
    hide KeptOk, CalmOk, LeftBehindOk;
  }

  /** The seats, but for the circuits. */
  predicate Paired(plan: Plan, joint: Peer, relay: Peer, nodes: map<Peer, Node>) {
    && {plan.caller, plan.entry, joint, relay, plan.exit, plan.answer} <= nodes.Keys
    && (forall p | p in {plan.caller, plan.entry, joint, relay, plan.exit, plan.answer} ::
          plan.sid in nodes[p].sessions)
    && nodes[plan.caller].sessions[plan.sid] == Session(Caller, [Stream(10, plan.entry)])
    && nodes[plan.answer].sessions[plan.sid] == Session(Answer, [Stream(12, plan.exit)])
    && nodes[joint].sessions[plan.sid] == Session(Joint, [Stream(11, plan.entry), Stream(14, relay)])
    && SeatedAt(plan.sid, nodes, plan.entry, Stream(10, plan.caller), Stream(11, joint))
    && SeatedAt(plan.sid, nodes, relay, Stream(13, plan.exit), Stream(14, joint))
    && SeatedAt(plan.sid, nodes, plan.exit, Stream(12, plan.answer), Stream(13, relay))
  }

  lemma PairsSeated(plan: Plan, joint: Peer, relay: Peer, g: State)
    requires Six(plan, joint, relay) && Inv(plan, g) && g.lost == {} && g.links == SixLinks(plan, joint, relay)
    requires !g.swapped
    ensures Paired(plan, joint, relay, g.nodes)
  {
    assert g.links.ej.Link? && g.links.xr.Link? && joint in g.nodes && relay in g.nodes;
    hide EntryOk, LostOk, AllWiresTravel, PairsOk, RolesOk, RoleOk;
    SixHeld(plan, joint, relay);
    hide Held;
    SessionIs(plan, g, plan.caller);
    SessionIs(plan, g, plan.entry);
    SessionIs(plan, g, joint);
    SessionIs(plan, g, relay);
    SessionIs(plan, g, plan.exit);
    SessionIs(plan, g, plan.answer);
    SixRoles(plan, joint, relay, g);
  }

  lemma SixHeld(plan: Plan, joint: Peer, relay: Peer)
    requires Six(plan, joint, relay)
    ensures var ls := SixLinks(plan, joint, relay);
            && Held(ls, {}, plan.caller) == [Stream(10, plan.entry)]
            && Held(ls, {}, plan.entry) == [Stream(10, plan.caller), Stream(11, joint)]
            && Held(ls, {}, joint) == [Stream(11, plan.entry), Stream(14, relay)]
            && Held(ls, {}, relay) == [Stream(13, plan.exit), Stream(14, joint)]
            && Held(ls, {}, plan.exit) == [Stream(12, plan.answer), Stream(13, relay)]
            && Held(ls, {}, plan.answer) == [Stream(12, plan.exit)]
  {
  }

  lemma SixRoles(plan: Plan, joint: Peer, relay: Peer, g: State)
    requires Six(plan, joint, relay) && g.lost == {} && g.links == SixLinks(plan, joint, relay)
    ensures forall role :: RoleOk(plan, g, plan.caller, role) ==> role == Caller
    ensures forall role :: RoleOk(plan, g, plan.answer, role) ==> role == Answer
    ensures forall role :: RoleOk(plan, g, joint, role) ==> role == Joint
    ensures forall p, role :: (p == plan.entry || p == relay || p == plan.exit) && RoleOk(plan, g, p, role) ==>
              role != Caller && role != Answer && role != Joint
  {
  }

  lemma CircuitsSeated(plan: Plan, joint: Peer, relay: Peer, g: State)
    requires Paired(plan, joint, relay, g.nodes) && NodesOk(plan, g) && g.requested
    ensures plan.sid in g.nodes[plan.caller].circuits && plan.sid in g.nodes[plan.answer].circuits
  {
    hide NodeRuns.Agrees;
    assert NodeOk(plan.sid, true, plan.caller, g.nodes[plan.caller]);
    assert NodeOk(plan.sid, true, plan.answer, g.nodes[plan.answer]);
  }

  // ----- arrivals -----

  /** A probe that comes to an end stops there. */
  lemma EndIgnores(plan: Plan, joint: Peer, relay: Peer, g: State, letters: seq<Letter>, probe: Option<bytes>,
                   rand: bytes) returns (g': State)
    requires Scene(plan, joint, relay, g, letters, probe) && letters != []
    requires letters[0] == Letter(ToCaller(plan), Probe(plan.sid, rand))
          || letters[0] == Letter(ToAnswer(plan), Probe(plan.sid, rand))
    ensures Step(plan, g, Delivers(letters[0].wire, {}), g')
    ensures Scene(plan, joint, relay, g', letters[1..], probe) && g' == g.(wires := g'.wires)
  {
    var w := letters[0].wire;
    var n := g.nodes[w.dst];
    assert Handle(n, Probe(plan.sid, rand), Stream(w.id, w.src), {}) == Quiet(n);
    hide Handle, Seated, Step, Bears;
    assert w.dst in g.nodes;
    g' := Arrives(plan, g, letters, Quiet(n));
    assert letters[1..] + Posted(w.dst, []) == letters[1..];
    assert g'.nodes == g.nodes;
  }

  /** A peer in between passes a probe or Success on to its other stream. */
  lemma PassedOn(plan: Plan, joint: Peer, relay: Peer, g: State, letters: seq<Letter>, probe: Option<bytes>, p: Peer,
                 from: Stream, other: Stream) returns (g': State)
    requires Scene(plan, joint, relay, g, letters, probe) && letters != []
    requires SeatedAt(plan.sid, g.nodes, p, from, other) || SeatedAt(plan.sid, g.nodes, p, other, from)
    requires from.id != other.id && letters[0].wire == Wire(from.id, from.remote, p)
    requires letters[0].msg == Success(plan.sid) || (letters[0].msg.Probe? && letters[0].msg.sid == plan.sid)
    ensures Step(plan, g, Delivers(letters[0].wire, {}), g') && g' == g.(wires := g'.wires)
    ensures Scene(plan, joint, relay, g', letters[1..] + [Letter(Wire(other.id, p, other.remote), letters[0].msg)],
                  probe)
  {
    var (n, msg) := (g.nodes[p], letters[0].msg);
    if msg.Probe? {
      Answers.ProbePassesOn(n, plan.sid, msg.rand, from, other, {});
    } else {
      Answers.SuccessPassesOn(n, plan.sid, from, other, {});
    }
    var e := Effect(n, [Send(other, msg)], []);
    assert Handle(n, msg, from, {}) == e;
    hide Handle, Seated, SeatedAt, Step, Bears;
    g' := Arrives(plan, g, letters, e);
    assert Posted(p, e.sends) == [Letter(Wire(other.id, p, other.remote), msg)];
    assert g'.nodes == g.nodes;
  }

  /** The first probe at the joint. */
  lemma JointStores(plan: Plan, joint: Peer, relay: Peer, g: State, letters: seq<Letter>, rand: bytes)
    returns (g': State)
    requires Scene(plan, joint, relay, g, letters, None) && letters != []
    requires letters[0] == Letter(EntryToJoint(plan, joint), Probe(plan.sid, rand))
    ensures Step(plan, g, Delivers(letters[0].wire, {}), g') && SameFlags(g, g')
    ensures Scene(plan, joint, relay, g', letters[1..], Some(rand))
  {
    var (n, from) := (g.nodes[joint], Stream(11, plan.entry));
    Answers.FirstProbeIsStored(n, plan.sid, rand, from, {});
    var e := Handle(n, Probe(plan.sid, rand), from, {});
    assert Seated(plan, joint, relay, g.nodes[joint := e.node]);
    hide Handle, Seated, SeatedAt, Step, Bears;
    g' := Arrives(plan, g, letters, e);
    assert letters[1..] + Posted(joint, []) == letters[1..];
  }

  /** The second probe with the same value: Success to both sides. */
  lemma JointMatches(plan: Plan, joint: Peer, relay: Peer, g: State, letters: seq<Letter>, rand: bytes)
    returns (g': State)
    requires Scene(plan, joint, relay, g, letters, Some(rand)) && letters != []
    requires letters[0] == Letter(RelayToJoint(joint, relay), Probe(plan.sid, rand))
    ensures Step(plan, g, Delivers(letters[0].wire, {}), g') && Originates(plan, g, Delivers(letters[0].wire, {}))
    ensures Scene(plan, joint, relay, g', letters[1..] + [Letter(JointToEntry(plan, joint), Success(plan.sid)),
                                                          Letter(JointToRelay(joint, relay), Success(plan.sid))],
                  Some(rand))
  {
    var (n, from) := (g.nodes[joint], Stream(14, relay));
    Answers.MatchingProbeAnnounces(n, plan.sid, rand, from);
    var e := Handle(n, Probe(plan.sid, rand), from, {});
    assert e.node == n && |e.sends| == 2;
    var both := [Letter(JointToEntry(plan, joint), Success(plan.sid)),
                 Letter(JointToRelay(joint, relay), Success(plan.sid))];
    assert Posted(joint, e.sends) == both;
    assert ProbeMatches(n, plan.sid, rand);
    PopBears(g, letters);
    hide Handle, Seated, SeatedAt, Step, Bears, ProbeMatches;
    g' := Arrives(plan, g, letters, e);
    assert g'.nodes == g.nodes;
  }

  /** Success at an end. */
  lemma EndHears(plan: Plan, joint: Peer, relay: Peer, g: State, letters: seq<Letter>, probe: Option<bytes>)
    returns (g': State)
    requires Scene(plan, joint, relay, g, letters, probe) && letters != []
    requires letters[0] == Letter(ToCaller(plan), Success(plan.sid))
          || letters[0] == Letter(ToAnswer(plan), Success(plan.sid))
    ensures Step(plan, g, Delivers(letters[0].wire, {}), g')
    ensures Scene(plan, joint, relay, g', letters[1..], probe)
    ensures forall p :: HeardAt(plan.sid, g.nodes, p) || p == letters[0].wire.dst ==> HeardAt(plan.sid, g'.nodes, p)
  {
    var w := letters[0].wire;
    var (n, from) := (g.nodes[w.dst], Stream(w.id, w.src));
    Answers.EndTakesIn(n, plan.sid, [], from, {});
    var e := Handle(n, Success(plan.sid), from, {});
    assert Seated(plan, joint, relay, g.nodes[w.dst := e.node]);
    hide Handle, Seated, SeatedAt, Step, Bears;
    g' := Arrives(plan, g, letters, e);
    assert letters[1..] + Posted(w.dst, []) == letters[1..];
  }

  predicate SameFlags(g: State, g': State) {
    && g'.requested == g.requested && g'.gossiped == g.gossiped && g'.expended == g.expended
    && g'.entryProbed == g.entryProbed && g'.exitProbed == g.exitProbed
  }

  // ----- the probes -----

  lemma BothWritten(n: Node, sid: Sid, a: Stream, b: Stream, msg: Msg)
    requires PairOf(n, sid) == [a, b]
    ensures SendRelay(n, sid, msg, {}) == Effect(n, [Send(a, msg), Send(b, msg)], [])
  {
    Answers.RelaySends(n, sid, msg, {});
    hide SendRelay;
    var e := SendRelay(n, sid, msg, {});
    assert e.sends[0] == Send(a, msg) && e.sends[1] == Send(b, msg);
  }

  /** A peer in between probes both of its streams. */
  lemma Probing(plan: Plan, joint: Peer, relay: Peer, g: State, probe: Option<bytes>, p: Peer, a: Stream, b: Stream,
                rand: bytes) returns (g': State)
    requires Scene(plan, joint, relay, g, [], probe) && SeatedAt(plan.sid, g.nodes, p, a, b)
    ensures Relays(plan, g, p, Probe(plan.sid, rand), {}, g') && g' == g.(wires := g'.wires)
    ensures Scene(plan, joint, relay, g', [Letter(Wire(a.id, p, a.remote), Probe(plan.sid, rand)),
                                           Letter(Wire(b.id, p, b.remote), Probe(plan.sid, rand))], probe)
  {
    var msg := Probe(plan.sid, rand);
    BothWritten(g.nodes[p], plan.sid, a, b, msg);
    var e := Effect(g.nodes[p], [Send(a, msg), Send(b, msg)], []);
    var both := [Letter(Wire(a.id, p, a.remote), msg), Letter(Wire(b.id, p, b.remote), msg)];
    assert Posted(p, e.sends) == both;
    hide SendRelay, Seated, SeatedAt, Bears;
    PostBears(g.wires, [], p, e.sends);
    assert [] + both == both;
    hide Posted;
    g' := Act(plan, g, p, e);
    SameStreams(plan, g, p, e);
    hide Act, Post;
    assert g'.nodes == g.nodes;
  }

  lemma EntryProbing(plan: Plan, joint: Peer, relay: Peer, g: State, rand: bytes) returns (g': State)
    requires Scene(plan, joint, relay, g, [], None) && g.gossiped && !g.entryProbed
    ensures Step(plan, g, EntryProbes({}, rand), g') && SameFlags(g.(entryProbed := true), g')
    ensures Scene(plan, joint, relay, g', [Letter(ToCaller(plan), Probe(plan.sid, rand)),
                                           Letter(EntryToJoint(plan, joint), Probe(plan.sid, rand))], None)
  {
    hide Relays, Bears;
    g' := Probing(plan, joint, relay, g.(entryProbed := true), None, plan.entry, Stream(10, plan.caller),
                  Stream(11, joint), rand);
  }

  lemma ExitProbing(plan: Plan, joint: Peer, relay: Peer, g: State, rand: bytes) returns (g': State)
    requires Scene(plan, joint, relay, g, [], Some(rand)) && g.expended && !g.exitProbed
    ensures Step(plan, g, ExitProbes({}, rand), g') && SameFlags(g.(exitProbed := true), g')
    ensures Scene(plan, joint, relay, g', [Letter(ToAnswer(plan), Probe(plan.sid, rand)),
                                           Letter(ExitToRelay(plan, relay), Probe(plan.sid, rand))], Some(rand))
  {
    hide Relays, Bears;
    g' := Probing(plan, joint, relay, g.(exitProbed := true), Some(rand), plan.exit, Stream(12, plan.answer),
                  Stream(13, relay), rand);
  }

  // ----- the whole run -----

  /** The entry's probe reaches the joint, which stores it; the copy to the caller stops there. */
  lemma FirstProbe(plan: Plan, joint: Peer, relay: Peer, rand: bytes, states: seq<State>, moves: seq<Move>)
    returns (states': seq<State>, moves': seq<Move>)
    requires IsRun(plan, states, moves) && |moves| == 7 && |states| == 8
    requires Scene(plan, joint, relay, states[7], [], None)
    requires states[7].gossiped && states[7].expended && !states[7].entryProbed && !states[7].exitProbed
    ensures IsRun(plan, states', moves') && |moves'| == 10 && |states'| == 11
    ensures Scene(plan, joint, relay, states'[10], [], Some(rand))
    ensures states'[10].expended && !states'[10].exitProbed && moves'[7] == EntryProbes({}, rand)
  {
    hide Step, Initial, IsRun, Seated, Stored, Bears;
    var s8 := EntryProbing(plan, joint, relay, states[7], rand);
    var under := [Letter(ToCaller(plan), Probe(plan.sid, rand)),
                  Letter(EntryToJoint(plan, joint), Probe(plan.sid, rand))];
    var s9 := EndIgnores(plan, joint, relay, s8, under, None, rand);
    assert under[1..] == [under[1]] && [under[1]][1..] == [];
    var s10 := JointStores(plan, joint, relay, s9, [under[1]], rand);
    states', moves' := Grow(plan, states, moves, EntryProbes({}, rand), s8);
    states', moves' := Grow(plan, states', moves', Delivers(ToCaller(plan), {}), s9);
    states', moves' := Grow(plan, states', moves', Delivers(EntryToJoint(plan, joint), {}), s10);
  }

  /** The exit's probe reaches the joint by way of the relay; the copy to the answer stops there. */
  lemma SecondProbe(plan: Plan, joint: Peer, relay: Peer, rand: bytes, g: State) returns (gs: seq<State>)
    requires Scene(plan, joint, relay, g, [], Some(rand)) && g.expended && !g.exitProbed
    ensures |gs| == 3 && Step(plan, g, ExitProbes({}, rand), gs[0])
    ensures Step(plan, gs[0], Delivers(ToAnswer(plan), {}), gs[1])
    ensures Step(plan, gs[1], Delivers(ExitToRelay(plan, relay), {}), gs[2])
    ensures Scene(plan, joint, relay, gs[2], [Letter(RelayToJoint(joint, relay), Probe(plan.sid, rand))], Some(rand))
  {
    hide Step, Stored, Bears;
    var s11 := ExitProbing(plan, joint, relay, g, rand);
    var under := [Letter(ToAnswer(plan), Probe(plan.sid, rand)),
                  Letter(ExitToRelay(plan, relay), Probe(plan.sid, rand))];
    var s12 := EndIgnores(plan, joint, relay, s11, under, Some(rand), rand);
    assert under[1..] == [under[1]] && [under[1]][1..] == [];
    var s13 := PassedOn(plan, joint, relay, s12, [under[1]], Some(rand), relay, Stream(13, plan.exit),
                        Stream(14, joint));
    assert [] + [Letter(RelayToJoint(joint, relay), Probe(plan.sid, rand))]
        == [Letter(RelayToJoint(joint, relay), Probe(plan.sid, rand))];
    gs := [s11, s12, s13];
  }

  function ProbingMoves(plan: Plan, relay: Peer, rand: bytes): seq<Move> {
    [ExitProbes({}, rand), Delivers(ToAnswer(plan), {}), Delivers(ExitToRelay(plan, relay), {})]
  }

  /** A run grows by three steps. */
  lemma Grow3(plan: Plan, states: seq<State>, moves: seq<Move>, ms: seq<Move>, gs: seq<State>)
    requires IsRun(plan, states, moves) && |ms| == |gs| == 3
    requires Step(plan, states[|moves|], ms[0], gs[0]) && Step(plan, gs[0], ms[1], gs[1])
    requires Step(plan, gs[1], ms[2], gs[2])
    ensures IsRun(plan, states + gs, moves + ms)
  {
    hide Step, Initial;
    var (states', moves') := (states + gs, moves + ms);
    forall i | 0 <= i < |moves'|
      ensures Step(plan, states'[i], moves'[i], states'[i + 1])
    {
      if i < |moves| {
        assert states'[i] == states[i] && states'[i + 1] == states[i + 1] && moves'[i] == moves[i];
      } else {
        var k := i - |moves|;
        assert moves'[i] == ms[k] && states'[i + 1] == gs[k];
        assert states'[i] == if k == 0 then states[|moves|] else gs[k - 1];
      }
    }
  }

  /** The joint's Success crosses one hop on each side. */
  lemma Announcing(plan: Plan, joint: Peer, relay: Peer, rand: bytes, g: State) returns (gs: seq<State>)
    requires Scene(plan, joint, relay, g, [Letter(RelayToJoint(joint, relay), Probe(plan.sid, rand))], Some(rand))
    ensures |gs| == 3 && Step(plan, g, Delivers(RelayToJoint(joint, relay), {}), gs[0])
    ensures Step(plan, gs[0], Delivers(JointToEntry(plan, joint), {}), gs[1])
    ensures Step(plan, gs[1], Delivers(JointToRelay(joint, relay), {}), gs[2])
    ensures Originates(plan, g, Delivers(RelayToJoint(joint, relay), {}))
    ensures Scene(plan, joint, relay, gs[2], [Letter(ToCaller(plan), Success(plan.sid)),
                                              Letter(RelayToExit(plan, relay), Success(plan.sid))], Some(rand))
  {
    hide Step, Stored, Bears, Originates;
    var probe := [Letter(RelayToJoint(joint, relay), Probe(plan.sid, rand))];
    var s14 := JointMatches(plan, joint, relay, g, probe, rand);
    var (a, b) := (Letter(JointToEntry(plan, joint), Success(plan.sid)),
                   Letter(JointToRelay(joint, relay), Success(plan.sid)));
    var (c, d) := (Letter(ToCaller(plan), Success(plan.sid)), Letter(RelayToExit(plan, relay), Success(plan.sid)));
    assert probe[1..] + [a, b] == [a, b];
    var s15 := PassedOn(plan, joint, relay, s14, [a, b], Some(rand), plan.entry, Stream(11, joint),
                        Stream(10, plan.caller));
    assert [a, b][1..] + [c] == [b, c];
    var s16 := PassedOn(plan, joint, relay, s15, [b, c], Some(rand), relay, Stream(14, joint),
                        Stream(13, plan.exit));
    assert [b, c][1..] + [d] == [c, d];
    gs := [s14, s15, s16];
  }

  /** And the rest of the way to both ends. */
  lemma Hearing(plan: Plan, joint: Peer, relay: Peer, rand: bytes, g: State) returns (gs: seq<State>)
    requires Scene(plan, joint, relay, g, [Letter(ToCaller(plan), Success(plan.sid)),
                                           Letter(RelayToExit(plan, relay), Success(plan.sid))], Some(rand))
    ensures |gs| == 3 && Step(plan, g, Delivers(ToCaller(plan), {}), gs[0])
    ensures Step(plan, gs[0], Delivers(RelayToExit(plan, relay), {}), gs[1])
    ensures Step(plan, gs[1], Delivers(ToAnswer(plan), {}), gs[2])
    ensures Scene(plan, joint, relay, gs[2], [], Some(rand))
    ensures HeardAt(plan.sid, gs[2].nodes, plan.caller) && HeardAt(plan.sid, gs[2].nodes, plan.answer)
  {
    hide Step, Stored, Bears, HeardAt;
    var (c, d) := (Letter(ToCaller(plan), Success(plan.sid)), Letter(RelayToExit(plan, relay), Success(plan.sid)));
    var f := Letter(ToAnswer(plan), Success(plan.sid));
    var s17 := EndHears(plan, joint, relay, g, [c, d], Some(rand));
    assert [c, d][1..] == [d];
    var s18 := PassedOn(plan, joint, relay, s17, [d], Some(rand), plan.exit, Stream(13, relay),
                        Stream(12, plan.answer));
    assert [d][1..] + [f] == [f] && s18.nodes == s17.nodes;
    var s19 := EndHears(plan, joint, relay, s18, [f], Some(rand));
    assert [f][1..] == [];
    gs := [s17, s18, s19];
  }

  function AnnouncingMoves(plan: Plan, joint: Peer, relay: Peer): seq<Move> {
    [Delivers(RelayToJoint(joint, relay), {}), Delivers(JointToEntry(plan, joint), {}),
     Delivers(JointToRelay(joint, relay), {})]
  }

  function HearingMoves(plan: Plan, relay: Peer): seq<Move> {
    [Delivers(ToCaller(plan), {}), Delivers(RelayToExit(plan, relay), {}), Delivers(ToAnswer(plan), {})]
  }

  lemma StillThere(plan: Plan, states: seq<State>, moves: seq<Move>, k: nat, joint: Peer, relay: Peer)
    requires Six(plan, joint, relay) && IsRun(plan, states, moves) && k < |states|
    requires states[k].lost == {} && states[k].links == SixLinks(plan, joint, relay)
    ensures IsLine(plan, states[k], [plan.caller, plan.entry, joint, relay, plan.exit, plan.answer],
                   [10, 11, 14, 13, 12])
  {
    hide IsRun, Inv, ProbeInv, IsLine, Step;
    RunKeeps(plan, states, moves, k);
    NothingLost(plan, states[k]);
    SixShape(plan, states[k], joint, relay);
    KeptRouteIsLine(plan, states[k]);
  }

  lemma SixShape(plan: Plan, g: State, joint: Peer, relay: Peer)
    requires Six(plan, joint, relay) && Inv(plan, g) && g.lost == {} && g.links == SixLinks(plan, joint, relay)
    ensures RouteMade(plan, g)
    ensures RoutePeers(plan, g) == [plan.caller, plan.entry, joint, relay, plan.exit, plan.answer]
    ensures RouteIds(plan, g) == [10, 11, 14, 13, 12]
  {
    hide PairsOk, RolesOk, LostOk, AllWiresTravel;
  }

  /**
    For any six different peers, any session id and any probe value there is a set-up in which
    both probes arrive, the second one makes the joint originate Success on the complete line, and
    that Success reaches both ends: both circuits are ready, on the same line, with nothing left
    under way.
  */
  lemma BothEndsReady(plan: Plan, joint: Peer, relay: Peer, rand: bytes)
    returns (states: seq<State>, moves: seq<Move>)
    requires Six(plan, joint, relay)
    ensures IsRun(plan, states, moves) && |moves| == 19 && |states| == 20
    ensures moves[7] == EntryProbes({}, rand) && moves[10] == ExitProbes({}, rand)
    ensures forall i | 11 <= i < 19 :: moves[i].Delivers?
    ensures moves[13] == Delivers(RelayToJoint(joint, relay), {}) && Originates(plan, states[13], moves[13])
    ensures forall k | k == 13 || k == 19 ::
              IsLine(plan, states[k], [plan.caller, plan.entry, joint, relay, plan.exit, plan.answer],
                     [10, 11, 14, 13, 12])
    ensures HeardAt(plan.sid, states[19].nodes, plan.caller) && HeardAt(plan.sid, states[19].nodes, plan.answer)
    ensures forall w :: On(states[19].wires, w) == []
  {
    hide Step, IsRun, Inv, Server, Six, Seated, Stored, HeardAt, Originates, IsLine, Bears;
    states, moves := BuildSix(plan, joint, relay);
    TakeSeats(plan, joint, relay, states, moves);
    states, moves := FirstProbe(plan, joint, relay, rand, states, moves);
    var probed := SecondProbe(plan, joint, relay, rand, states[10]);
    var announced := Announcing(plan, joint, relay, rand, probed[2]);
    var heard := Hearing(plan, joint, relay, rand, announced[2]);
    hide Scene, ToCaller, ToAnswer, RelayToJoint, RelayToExit, JointToEntry, JointToRelay, ExitToRelay;
    Grow3(plan, states, moves, ProbingMoves(plan, relay, rand), probed);
    states, moves := states + probed, moves + ProbingMoves(plan, relay, rand);
    Grow3(plan, states, moves, AnnouncingMoves(plan, joint, relay), announced);
    states, moves := states + announced, moves + AnnouncingMoves(plan, joint, relay);
    Grow3(plan, states, moves, HearingMoves(plan, relay), heard);
    states, moves := states + heard, moves + HearingMoves(plan, relay);
    assert states[13] == probed[2] && states[16] == announced[2] && states[19] == heard[2];
    StillThere(plan, states, moves, 13, joint, relay);
    StillThere(plan, states, moves, 19, joint, relay);
    NothingUnderWay(states[19].wires);
  }

  lemma NothingUnderWay(wires: map<Wire, seq<Msg>>)
    requires Bears(wires, [])
    ensures forall w :: On(wires, w) == []
  {
  }
}
