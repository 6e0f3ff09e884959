/** Concrete runs of circuit set-up that show the conditions of SetupTheorem are needed. */
module SetupRuns {
  import opened Basics
  import opened Relay
  import opened NodeFacts
  import opened CircuitSetup
  import opened SetupInvariant
  import opened SetupProbes
  import opened SetupTheorem
  import NodeRuns

  // ----- building runs step by step -----

  function BareNode(me: Peer, mode: Mode): Node {
    Node(me, mode, map[], map[], map[], map[], map[])
  }

  const NO_LINKS: Links := Links(NoLink, NoLink, NoLink, NoLink, NoLink)

  /** The peers of the plan and one more server. */
  function Beginning(plan: Plan, joint: Peer): State {
    State(map[plan.entry := BareNode(plan.entry, ServerMode), plan.exit := BareNode(plan.exit, ServerMode),
              joint := BareNode(joint, ServerMode),
              plan.caller := BareNode(plan.caller, ClientMode), plan.answer := BareNode(plan.answer, ClientMode)],
          map[], NO_LINKS, false, false, false, false, false, false, false, {})
  }

  /** Servers and clients are different peers. */
  predicate Separate(plan: Plan, joint: Peer) {
    && plan.sid != UNBOUND
    && plan.entry != plan.caller && plan.entry != plan.answer && plan.exit != plan.caller && plan.exit != plan.answer
    && joint != plan.caller && joint != plan.answer
  }

  predicate IndexKnown(g: State) {
    forall p, id :: p in g.nodes && id in g.nodes[p].streams ==> Known(g.links, id)
  }

  predicate Server(g: State, p: Peer) {
    p in g.nodes && g.nodes[p].mode == ServerMode
  }

  /** The same peers, in the same modes, and no probe was sent in between. */
  predicate SameModes(g: State, g': State) {
    && g'.entryProbed == g.entryProbed && g'.exitProbed == g.exitProbed
    && g'.nodes.Keys == g.nodes.Keys
    && forall x | x in g.nodes :: g'.nodes[x].mode == g.nodes[x].mode
  }

  /** A state of an undisturbed set-up with these links and flags. */
  ghost predicate Stage(plan: Plan, g: State, ls: Links, requested: bool, gossiped: bool) {
    && Inv(plan, g) && IndexKnown(g) && g.lost == {} && g.links == ls
    && g.requested == requested && g.gossiped == gossiped && !g.expended && !g.swapped
  }

  lemma FreshInitial(plan: Plan, joint: Peer)
    requires Separate(plan, joint)
    ensures var g := Beginning(plan, joint);
            && Initial(plan, g) && IndexKnown(g) && Server(g, joint) && g.links == NO_LINKS && g.lost == {}
            && !g.requested && !g.gossiped && !g.expended && !g.swapped
  {
  }

  lemma Start(plan: Plan, joint: Peer)
    requires Separate(plan, joint)
    ensures Initial(plan, Beginning(plan, joint)) && Stage(plan, Beginning(plan, joint), NO_LINKS, false, false)
    ensures Server(Beginning(plan, joint), joint) && IsRun(plan, [Beginning(plan, joint)], [])
  {
    FreshInitial(plan, joint);
    hide Initial, Beginning, Inv;
    InitialInv(plan, Beginning(plan, joint));
  }

  /** A run grows by one step. */
  lemma Grow(plan: Plan, states: seq<State>, moves: seq<Move>, move: Move, g: State)
    returns (states': seq<State>, moves': seq<Move>)
    requires IsRun(plan, states, moves) && Step(plan, states[|moves|], move, g)
    ensures IsRun(plan, states', moves') && |moves'| == |moves| + 1 && |states'| == |moves'| + 1
    ensures states' == states + [g] && moves' == moves + [move]
    ensures states'[|moves|] == states[|moves|] && states'[|moves'|] == g && moves'[|moves|] == move
    ensures (forall m | m in moves :: !m.Writes?) && !move.Writes? ==> forall m | m in moves' :: !m.Writes?
  {
    hide Step, Initial;
    states', moves' := states + [g], moves + [move];
  }

  lemma CanBegin(plan: Plan, g: State, p: Peer, q: Peer, id: StreamId, role: Role)
    requires IndexKnown(g) && !Known(g.links, id) && p in g.nodes && q in g.nodes && p != q
    requires Accepts(g.nodes[q], plan.sid, role)
    ensures CanExchange(plan, g, p, q, id, role)
  {
  }

  /** An exchange indexes its own stream only and changes nobody's mode. */
  lemma ExchangeFrame(plan: Plan, g: State, p: Peer, q: Peer, id: StreamId, roleP: Role, roleQ: Role,
                      bad: set<StreamId>)
    requires CanExchange(plan, g, p, q, id, roleQ)
    ensures var g' := Exchange(plan, g, p, q, id, roleP, roleQ, bad);
            && SameModes(g, g')
            && (forall x | x in g.nodes :: g'.nodes[x].streams.Keys <= g.nodes[x].streams.Keys + {id})
  {
    hide HandleSetSession, CompleteSetSession, Post;
    var (atQ, atP) := (Stream(id, p), Stream(id, q));
    var n := HandleSetSession(AddStream(g.nodes[q], atQ), plan.sid, roleQ, atQ, bad).node;
    var g' := Exchange(plan, g, p, q, id, roleP, roleQ, bad);
    NodeRuns.SetSessionIndex(AddStream(g.nodes[q], atQ), plan.sid, roleQ, atQ, bad);
    NodeRuns.SetSessionSame(AddStream(g.nodes[q], atQ), plan.sid, roleQ, atQ, bad);
    CompleteIndex(g.nodes[p], plan.sid, roleP, atP);
    assert n.mode == g.nodes[q].mode && n.streams.Keys <= g.nodes[q].streams.Keys + {id} && p != q;
    var m := CompleteSetSession(AddStream(g.nodes[p], atP), plan.sid, roleP, atP);
    assert g'.nodes == g.nodes[q := n][p := m];
    assert g'.entryProbed == g.entryProbed && g'.exitProbed == g.exitProbed;
    hide Exchange, Act, CanExchange, Accepts, IsSwap, AddStream;
  }

  lemma CompleteIndex(n: Node, sid: Sid, role: Role, s: Stream)
    ensures var n' := CompleteSetSession(AddStream(n, s), sid, role, s);
            n'.mode == n.mode && n'.streams.Keys <= n.streams.Keys + {s.id}
  {
  }

  /** Only the swap writes a message. */
  lemma SilentAccept(n: Node, sid: Sid, role: Role, s: Stream, bad: set<StreamId>)
    requires role != Relayer
    ensures HandleSetSession(n, sid, role, s, bad).sends == []
  {
  }

  lemma ExchangeWires(plan: Plan, g: State, p: Peer, q: Peer, id: StreamId, roleP: Role, roleQ: Role,
                      bad: set<StreamId>)
    requires CanExchange(plan, g, p, q, id, roleQ) && roleQ != Relayer
    ensures Exchange(plan, g, p, q, id, roleP, roleQ, bad).wires == g.wires
  {
    var atQ := Stream(id, p);
    SilentAccept(AddStream(g.nodes[q], atQ), plan.sid, roleQ, atQ, bad);
    hide HandleSetSession, CompleteSetSession;
  }

  lemma IndexGrows(g: State, g': State, id: StreamId)
    requires IndexKnown(g) && g'.nodes.Keys == g.nodes.Keys && Known(g'.links, id)
    requires forall x | x in g.nodes :: g'.nodes[x].streams.Keys <= g.nodes[x].streams.Keys + {id}
    requires forall x :: Known(g.links, x) ==> Known(g'.links, x)
    ensures IndexKnown(g')
  {
  }

  lemma DoOpen(plan: Plan, g: State, id: StreamId, joint: Peer) returns (g': State)
    requires Stage(plan, g, NO_LINKS, false, false) && plan.caller != plan.entry && Server(g, joint)
    ensures Step(plan, g, CallerOpens(id), g') && Server(g', joint) && g'.wires == g.wires && SameModes(g, g')
    ensures Stage(plan, g', NO_LINKS.(ce := Link(id, plan.caller, plan.entry)), false, false)
  {
    hide Exchange, Act, PairsOk, RolesOk, EntryOk, LostOk, AllWiresTravel;
    EmptyAt(plan, g, plan.caller);
    CanBegin(plan, g, plan.caller, plan.entry, id, Entry);
    ExchangeFrame(plan, g, plan.caller, plan.entry, id, Caller, Entry, {});
    ExchangeWires(plan, g, plan.caller, plan.entry, id, Caller, Entry, {});
    var ls := g.links.(ce := Link(id, plan.caller, plan.entry));
    g' := Exchange(plan, g, plan.caller, plan.entry, id, Caller, Entry, {}).(links := ls);
    OpenKeeps(plan, g, id, g');
    IndexGrows(g, g', id);
  }

  lemma EmptyAt(plan: Plan, g: State, p: Peer)
    requires Inv(plan, g) && g.links == NO_LINKS && p in g.nodes
    ensures plan.sid !in g.nodes[p].sessions
  {
    assert Agrees(plan, g, p);
  }

  /** The entry that has only met the caller accepts its request. */
  lemma DoRequest(plan: Plan, g: State, joint: Peer) returns (g': State)
    requires Stage(plan, g, NO_LINKS.(ce := g.links.ce), false, false) && g.links.ce.Link? && Server(g, joint)
    ensures g'.wires == g.wires && SameModes(g, g')
    ensures Step(plan, g, CallerRequests, g') && Server(g', joint) && Stage(plan, g', g.links, true, false)
  {
    assert Agrees(plan, g, plan.entry);
    g' := g.(requested := true,
             nodes := g.nodes[plan.caller := AddCircuit(g.nodes[plan.caller], plan.sid, plan.answer)]);
    hide PairsOk, RolesOk, EntryOk, LostOk, AllWiresTravel;
    RequestKeeps(plan, g, g');
  }

  lemma DoCall(plan: Plan, g: State, id: StreamId) returns (g': State)
    requires Stage(plan, g, g.links.(xa := NoLink), true, g.gossiped) && !Known(g.links, id)
    requires plan.exit != plan.answer && (plan.entry == plan.exit || g.gossiped)
    ensures plan.entry == plan.exit ==> Step(plan, g, EntryServesBoth(id), g')
    ensures g.gossiped ==> Step(plan, g, ExitCallsAnswer(id), g')
    ensures g'.wires == g.wires && SameModes(g, g')
    ensures Stage(plan, g', g.links.(xa := Link(id, plan.exit, plan.answer)), true, g.gossiped)
  {
    hide Exchange, Act, PairsOk, RolesOk, EntryOk, LostOk, AllWiresTravel;
    CanBegin(plan, g, plan.exit, plan.answer, id, Answer);
    ExchangeFrame(plan, g, plan.exit, plan.answer, id, Exit, Answer, {});
    ExchangeWires(plan, g, plan.exit, plan.answer, id, Exit, Answer, {});
    var ls := g.links.(xa := Link(id, plan.exit, plan.answer));
    g' := Exchange(plan, g, plan.exit, plan.answer, id, Exit, Answer, {}).(links := ls);
    CallKeeps(plan, g, id, g');
    IndexGrows(g, g', id);
  }

  lemma DoJoin(plan: Plan, g: State, joint: Peer, id: StreamId) returns (g': State)
    requires Stage(plan, g, NO_LINKS.(ce := g.links.ce), true, false) && !Known(g.links, id) && Server(g, joint)
    requires joint != plan.entry && joint != plan.caller && plan.entry != plan.exit
    ensures Step(plan, g, EntryJoins(joint, id), g') && g'.wires == g.wires && SameModes(g, g')
    ensures Stage(plan, g', g.links.(ej := Link(id, plan.entry, joint)), true, false)
  {
    hide Exchange, Act, PairsOk, RolesOk, EntryOk, LostOk, AllWiresTravel;
    CanBegin(plan, g, plan.entry, joint, id, Joint);
    ExchangeFrame(plan, g, plan.entry, joint, id, Entry, Joint, {});
    ExchangeWires(plan, g, plan.entry, joint, id, Entry, Joint, {});
    var ls := g.links.(ej := Link(id, plan.entry, joint));
    g' := Exchange(plan, g, plan.entry, joint, id, Entry, Joint, {}).(links := ls);
    JoinKeeps(plan, g, joint, id, g');
    IndexGrows(g, g', id);
  }

  lemma DoGossip(plan: Plan, g: State) returns (g': State)
    requires Stage(plan, g, g.links, true, false) && g.links.ej.Link?
    ensures Step(plan, g, EntryGossips, g') && Stage(plan, g', g.links, true, true)
    ensures g'.wires == g.wires && SameModes(g, g')
  {
    g' := g.(gossiped := true);
    hide PairsOk, RolesOk, EntryOk, LostOk, AllWiresTravel;
    FlagKeeps(plan, g, g');
  }

  /** The entry that still has caller and joint is ready to be the relay as well. */
  lemma EntryIsFull(plan: Plan, g: State)
    requires Stage(plan, g, g.links.(xr := NoLink, rj := NoLink), true, true)
    ensures g.links.ej.Link? && plan.entry in g.nodes && plan.entry != plan.exit && plan.entry != g.links.ej.b
    ensures IsSwap(g.nodes[plan.entry], plan.sid, Relayer) && Accepts(g.nodes[plan.entry], plan.sid, Relayer)
  {
    hide LostOk, AllWiresTravel;
    SessionIs(plan, g, plan.entry);
  }

  lemma DoSwap(plan: Plan, g: State, id: StreamId) returns (g': State)
    requires Stage(plan, g, g.links.(xr := NoLink, rj := NoLink), true, true) && g.links.xa.Link?
    requires g.links.ej.b != plan.exit && !Known(g.links, id)
    ensures Step(plan, g, ExitPicksRelay(plan.entry, id, {}), g')
    ensures Inv(plan, g') && g'.swapped && !g'.expended && g'.lost == {(plan.entry, g.links.ej.id)}
    ensures g'.links == g.links.(xr := Link(id, plan.exit, plan.entry))
  {
    hide Inv, Exchange, IsSwap, Accepts, PicksRelay, IndexKnown, Post, Gains;
    EntryIsFull(plan, g);
    EntryThere(plan, g);
    CanBegin(plan, g, plan.exit, plan.entry, id, Relayer);
    g' := Exchange(plan, g, plan.exit, plan.entry, id, Exit, Relayer, {})
          .(links := g.links.(xr := Link(id, plan.exit, plan.entry)), swapped := true, swapTold := true);
    SwapPossible(plan, g, id, g');
    PickKeeps(plan, g, plan.entry, id, {}, g');
  }

  lemma SwapPossible(plan: Plan, g: State, id: StreamId, g': State)
    requires Inv(plan, g) && CanExchange(plan, g, plan.exit, plan.entry, id, Relayer) && g.gossiped
    requires g.links.xa.Link? && g.links.xr.NoLink? && g.links.ej.Link? && g.links.ej.b != plan.exit
    requires IsSwap(g.nodes[plan.entry], plan.sid, Relayer)
    requires g' == Exchange(plan, g, plan.exit, plan.entry, id, Exit, Relayer, {})
                   .(links := g.links.(xr := Link(id, plan.exit, plan.entry)), swapped := true, swapTold := true)
    ensures PicksRelay(plan, g, plan.entry, id, {}, g')
  {
    hide Exchange, PairsOk, RolesOk, EntryOk, LostOk, AllWiresTravel;
  }

  // ----- Success without a line -----

  /** The run that builds a line through one shared proxy, in three moves. */
  lemma RunShared(plan: Plan) returns (states: seq<State>, moves: seq<Move>)
    requires Separate(plan, plan.entry) && plan.entry == plan.exit
    ensures IsRun(plan, states, moves) && |moves| == 3 && |states| == 4
    ensures Inv(plan, states[3]) && states[3].links.ce.Link? && states[3].links.xa.Link? && states[3].lost == {}
    ensures plan.entry in states[3].nodes && states[3].wires == map[] && forall m | m in moves :: !m.Writes?
  {
    assert Beginning(plan, plan.entry).wires == map[];
    hide Step, Initial, IsRun, Inv, Beginning, IndexKnown;
    Start(plan, plan.entry);
    var s0 := Beginning(plan, plan.entry);
    var s1 := DoOpen(plan, s0, 10, plan.entry);
    var s2 := DoRequest(plan, s1, plan.entry);
    var s3 := DoCall(plan, s2, 11);
    states, moves := [s0], [];
    states, moves := Grow(plan, states, moves, CallerOpens(10), s1);
    states, moves := Grow(plan, states, moves, CallerRequests, s2);
    states, moves := Grow(plan, states, moves, EntryServesBoth(11), s3);
    EntryThere(plan, s3);
  }

  lemma EntryThere(plan: Plan, g: State)
    requires Inv(plan, g)
    ensures {plan.caller, plan.entry, plan.exit, plan.answer} <= g.nodes.Keys
  {
  }

  /** Closing at the caller loses its stream to the entry. */
  lemma CallerCloses(plan: Plan, g: State)
    requires Inv(plan, g) && g.links.ce.Link?
    ensures !Untouched(Act(plan, g, plan.caller, CloseCircuit(g.nodes[plan.caller], plan.sid, {})), g.links.ce)
  {
    assert Agrees(plan, g, plan.caller);
    CloseFacts(g.nodes[plan.caller], plan.sid, {});
    ActLoses(plan, g, plan.caller, CloseCircuit(g.nodes[plan.caller], plan.sid, {}), g.links.ce);
  }

  /** After the line is built the caller closes, then the shared proxy announces Success. */
  lemma CloseAndAnnounce(plan: Plan, g: State) returns (g': State, g'': State)
    requires Inv(plan, g) && plan.entry == plan.exit && g.links.ce.Link? && g.links.xa.Link?
    ensures Step(plan, g, Closes(plan.caller, {}), g') && Step(plan, g', EntryAnnounces({}), g'')
    ensures !RouteKept(plan, g')
  {
    CallerCloses(plan, g);
    g' := Act(plan, g, plan.caller, CloseCircuit(g.nodes[plan.caller], plan.sid, {}));
    g'' := Act(plan, g', plan.entry, SendRelay(g'.nodes[plan.entry], plan.sid, Success(plan.sid), {}));
  }

  /**
    A caller that closes the circuit between the last exchange and the announcement: the proxy
    originates Success although there is no line.
  */
  lemma HangingUpBreaksLine() returns (plan: Plan, states: seq<State>, moves: seq<Move>)
    ensures IsRun(plan, states, moves) && |moves| == 5 && plan.caller != plan.answer
    ensures Originates(plan, states[4], moves[4]) && !Line(plan, states[4])
  {
    plan := Plan(1, 1, 2, 2, 3);
    hide Inv, Step, Line, RouteKept, Initial, IsRun;
    states, moves := RunShared(plan);
    var s4, s5 := CloseAndAnnounce(plan, states[3]);
    states, moves := Grow(plan, states, moves, Closes(1, {}), s4);
    states, moves := Grow(plan, states, moves, EntryAnnounces({}), s5);
    SuccessMeansLine(plan, states, moves, 4);
  }

  /** A caller that dials itself: Success is originated with every exchange kept, and there is no line. */
  lemma SelfDialBreaksLine() returns (plan: Plan, states: seq<State>, moves: seq<Move>)
    ensures IsRun(plan, states, moves) && |moves| == 4 && plan.caller == plan.answer
    ensures Originates(plan, states[3], moves[3]) && RouteKept(plan, states[3]) && !Line(plan, states[3])
  {
    plan := Plan(1, 1, 2, 2, 1);
    hide Inv, Step, Line, Initial, IsRun, RouteKept, Act, SendRelay;
    states, moves := RunShared(plan);
    var g := states[3];
    var g' := Act(plan, g, plan.entry, SendRelay(g.nodes[plan.entry], plan.sid, Success(plan.sid), {}));
    AnnouncePossible(plan, g, g');
    NothingLost(plan, g);
    states, moves := Grow(plan, states, moves, EntryAnnounces({}), g');
    SuccessMeansLine(plan, states, moves, 3);
  }

  lemma NothingLost(plan: Plan, g: State)
    requires g.lost == {}
    ensures RouteKept(plan, g)
  {
  }

  lemma AnnouncePossible(plan: Plan, g: State, g': State)
    requires plan.entry == plan.exit && g.links.xa.Link? && plan.entry in g.nodes
    requires g' == Act(plan, g, plan.entry, SendRelay(g.nodes[plan.entry], plan.sid, Success(plan.sid), {}))
    ensures Step(plan, g, EntryAnnounces({}), g')
  {
  }

  /** An announcement that every stream takes loses nothing. */
  lemma AnnounceKeeps(plan: Plan, g: State)
    requires plan.entry in g.nodes && PairOf(g.nodes[plan.entry], plan.sid) != []
    ensures Act(plan, g, plan.entry, SendRelay(g.nodes[plan.entry], plan.sid, Success(plan.sid), {})).lost == g.lost
  {
    var e := SendRelay(g.nodes[plan.entry], plan.sid, Success(plan.sid), {});
    assert e.node == g.nodes[plan.entry];
    hide SendRelay, Post;
    assert (set s | s in PairOf(g.nodes[plan.entry], plan.sid) && s !in PairOf(e.node, plan.sid) ::
        (plan.entry, s.id)) == {};
  }

  lemma EntryHolds(plan: Plan, g: State)
    requires Inv(plan, g) && g.links.ce.Link? && g.lost == {}
    ensures plan.entry in g.nodes && PairOf(g.nodes[plan.entry], plan.sid) != []
  {
    hide LostOk, AllWiresTravel, RolesOk;
    SessionHeld(plan, g, plan.entry);
  }

  lemma SessionHeld(plan: Plan, g: State, p: Peer)
    requires PairsOk(plan, g) && p in g.nodes && Held(g.links, g.lost, p) != []
    ensures PairOf(g.nodes[p], plan.sid) == Held(g.links, g.lost, p)
  {
    assert Agrees(plan, g, p);
  }

  /** Nothing but Success is under way. */
  predicate OnlySuccess(wires: map<Wire, seq<Msg>>) {
    forall w, i :: w in wires && 0 <= i < |wires[w]| ==> wires[w][i].Success?
  }

  lemma {:induction false} PostSuccess(wires: map<Wire, seq<Msg>>, src: Peer, sends: seq<Send>)
    requires OnlySuccess(wires) && forall i :: 0 <= i < |sends| ==> sends[i].msg.Success?
    ensures OnlySuccess(Post(wires, src, sends))
    decreases |sends|
  {
    if sends != [] {
      var w := Wire(sends[0].to.id, src, sends[0].to.remote);
      PostSuccess(wires[w := On(wires, w) + [sends[0].msg]], src, sends[1..]);
    }
  }

  lemma RoundOfSuccess(pair: seq<Stream>, sid: Sid)
    ensures forall i :: 0 <= i < |WriteRound(pair, Success(sid), None, {})| ==>
              WriteRound(pair, Success(sid), None, {})[i].msg.Success?
  {
  }

  lemma AnnounceWires(plan: Plan, g: State)
    requires plan.entry in g.nodes && g.wires == map[] && PairOf(g.nodes[plan.entry], plan.sid) != []
    ensures OnlySuccess(Act(plan, g, plan.entry, SendRelay(g.nodes[plan.entry], plan.sid, Success(plan.sid), {})).wires)
  {
    var pair := PairOf(g.nodes[plan.entry], plan.sid);
    RoundOfSuccess(pair, plan.sid);
    assert OnlySuccess(g.wires);
    PostSuccess(g.wires, plan.entry, WriteRound(pair, Success(plan.sid), None, {}));
    hide OnlySuccess, WriteRound;
  }

  /** A set-up that succeeds undisturbed, for any answer: Success on a kept route, still kept after it. */
  lemma QuietSuccess(answer: Peer) returns (plan: Plan, states: seq<State>, moves: seq<Move>)
    ensures IsRun(plan, states, moves) && |moves| == 4 && plan.caller != plan.answer == answer
    ensures OnlySuccess(states[4].wires)
    ensures Originates(plan, states[3], moves[3]) && RouteKept(plan, states[4])
    ensures forall m | m in moves :: !m.Writes?
  {
    plan := Plan(1, answer + 1, answer + 2, answer + 2, answer);
    hide Inv, Step, Initial, IsRun, RouteKept, Act, SendRelay, OnlySuccess;
    states, moves := RunShared(plan);
    var g := states[3];
    EntryHolds(plan, g);
    AnnounceWires(plan, g);
    AnnounceKeeps(plan, g);
    var g' := Act(plan, g, plan.entry, SendRelay(g.nodes[plan.entry], plan.sid, Success(plan.sid), {}));
    AnnouncePossible(plan, g, g');
    NothingLost(plan, g');
    states, moves := Grow(plan, states, moves, EntryAnnounces({}), g');
  }

  // ----- the joint left behind -----

  /** The moves that lead to the swap: four exchanges, a request and the gossip. */
  lemma RunSwap(plan: Plan, joint: Peer) returns (states: seq<State>, moves: seq<Move>)
    requires Separate(plan, joint) && plan.entry != plan.exit && joint != plan.entry && joint != plan.exit
    ensures IsRun(plan, states, moves) && |moves| == 6 && |states| == 7
    ensures var g := states[6];
            && Inv(plan, g) && g.swapped && !g.expended && g.lost == {(plan.entry, 11)}
            && g.links == Links(Link(10, plan.caller, plan.entry), Link(11, plan.entry, joint),
                                Link(12, plan.exit, plan.answer), Link(13, plan.exit, plan.entry), NoLink)
  {
    hide Step, Initial, IsRun, Inv, Beginning, IndexKnown;
    Start(plan, joint);
    var s0 := Beginning(plan, joint);
    var s1 := DoOpen(plan, s0, 10, joint);
    var s2 := DoRequest(plan, s1, joint);
    var s3 := DoJoin(plan, s2, joint, 11);
    var s4 := DoGossip(plan, s3);
    var s5 := DoCall(plan, s4, 12);
    var s6 := DoSwap(plan, s5, 13);
    states, moves := [s0], [];
    states, moves := Grow(plan, states, moves, CallerOpens(10), s1);
    states, moves := Grow(plan, states, moves, CallerRequests, s2);
    states, moves := Grow(plan, states, moves, EntryJoins(joint, 11), s3);
    states, moves := Grow(plan, states, moves, EntryGossips, s4);
    states, moves := Grow(plan, states, moves, ExitCallsAnswer(12), s5);
    states, moves := Grow(plan, states, moves, ExitPicksRelay(plan.entry, 13, {}), s6);
  }

  /** The swapped entry can announce, its line is up, and the old joint still holds the session. */
  lemma SwappedCanAnnounce(plan: Plan, g: State, g': State)
    requires Inv(plan, g) && g.swapped && !g.expended && g.links.ej.Link? && g.links.ce.Link? && g.links.xr.Link?
    requires (plan.entry, g.links.ce.id) !in g.lost && (plan.entry, g.links.xr.id) !in g.lost
    requires g' == Act(plan, g.(expended := true), plan.entry,
                       SendRelay(g.nodes[plan.entry], plan.sid, Success(plan.sid), {}))
    ensures Step(plan, g, RelayAnnounces({}), g')
  {
    hide Inv, Act, SendRelay;
    SwappedEntry(plan, g);
  }

  lemma SwappedEntry(plan: Plan, g: State)
    requires Inv(plan, g) && g.swapped && g.links.ce.Link? && g.links.xr.Link?
    requires (plan.entry, g.links.ce.id) !in g.lost && (plan.entry, g.links.xr.id) !in g.lost
    ensures plan.entry in g.nodes && g.links.xr.b == plan.entry
    ensures plan.sid in g.nodes[plan.entry].sessions && g.nodes[plan.entry].sessions[plan.sid].IsReady()
  {
    hide LostOk, AllWiresTravel, RolesOk;
    assert Agrees(plan, g, plan.entry);
  }

  lemma SwappedRoute(plan: Plan, g: State)
    requires Inv(plan, g) && g.swapped && plan.caller != plan.answer && g.links.xa.Link?
    requires g.lost == {(plan.entry, g.links.ej.id)}
    ensures RouteMade(plan, g) && RouteKept(plan, g) && Holds(g, g.links.ej.b, g.links.ej)
  {
    hide LostOk, AllWiresTravel, RolesOk, PairsOk;
  }

  /** After the swap the entry announces; the old joint is as it was. */
  lemma RunSwapped(plan: Plan, joint: Peer) returns (states: seq<State>, moves: seq<Move>)
    requires Separate(plan, joint) && plan.entry != plan.exit && joint != plan.entry && joint != plan.exit
    requires plan.caller != plan.answer
    ensures IsRun(plan, states, moves) && |moves| == 7 && |states| == 8
    ensures Originates(plan, states[6], moves[6])
    ensures var g := states[6];
            && Inv(plan, g) && g.swapped && RouteMade(plan, g) && RouteKept(plan, g)
            && g.links.ej.Link? && g.links.ej.b == joint && Holds(g, joint, g.links.ej)
  {
    hide Inv, Step, Initial, IsRun, RouteMade, RouteKept, Act, SendRelay, Separate;
    states, moves := RunSwap(plan, joint);
    var g := states[6];
    EntryThere(plan, g);
    var g' := Act(plan, g.(expended := true), plan.entry,
                  SendRelay(g.nodes[plan.entry], plan.sid, Success(plan.sid), {}));
    SwappedCanAnnounce(plan, g, g');
    SwappedRoute(plan, g);
    states, moves := Grow(plan, states, moves, RelayAnnounces({}), g');
  }

  /**
    Success is originated on a line through the entry as relay while a peer off that line, the
    joint it gave up, still holds the session.
  */
  lemma SwapLeavesJointBehind() returns (plan: Plan, states: seq<State>, moves: seq<Move>, joint: Peer)
    ensures IsRun(plan, states, moves) && |moves| == 7 && Originates(plan, states[6], moves[6])
    ensures Line(plan, states[6]) && RouteMade(plan, states[6]) && Stray(plan, states[6], joint)
  {
    plan, joint := Plan(1, 1, 2, 5, 3), 4;
    assert Separate(plan, joint);
    hide *;
    states, moves := RunSwapped(plan, joint);
    SuccessMeansLine(plan, states, moves, 6);
    JointHolds(plan, states[6], joint);
  }

  lemma JointHolds(plan: Plan, g: State, joint: Peer)
    requires Inv(plan, g) && g.swapped && RouteMade(plan, g) && g.links.ej.Link? && g.links.ej.b == joint
    requires Holds(g, joint, g.links.ej)
    ensures Stray(plan, g, joint)
  {
    hide LostOk, AllWiresTravel, RolesOk;
    assert Agrees(plan, g, joint);
  }
}
