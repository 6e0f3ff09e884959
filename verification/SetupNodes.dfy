/**
  What every run of circuit set-up keeps at each node beside the session itself: session table
  and stream index agree, and an end that has requested or answered has its circuit connection,
  which stays empty until an end writes.
*/
module SetupNodes {
  import opened Basics
  import opened Relay
  import opened NodeFacts
  import opened CircuitSetup
  import opened SetupInvariant
  import NodeRuns
  import Conservation

  // ----- agreement and connections -----

  /** An answer, and a caller whose request was accepted, has its circuit connection. */
  predicate Connected(sid: Sid, requested: bool, n: Node) {
    sid in n.sessions && (n.sessions[sid].role == Answer || (n.sessions[sid].role == Caller && requested)) ==>
      sid in n.circuits
  }

  predicate NodeOk(sid: Sid, requested: bool, p: Peer, n: Node) {
    n.me == p && NodeRuns.Agrees(n) && Connected(sid, requested, n)
  }

  predicate NodesOk(plan: Plan, g: State) {
    plan.sid != UNBOUND && forall p | p in g.nodes :: NodeOk(plan.sid, g.requested, p, g.nodes[p])
  }

  lemma InitialNodes(plan: Plan, g: State)
    requires Initial(plan, g)
    ensures NodesOk(plan, g)
  {
  }

  /** A session that stays keeps its role and its circuit. */
  predicate StaysConnected(n: Node, n': Node, sid: Sid) {
    sid in n'.sessions ==>
      sid in n.sessions && n'.sessions[sid].role == n.sessions[sid].role && (sid in n.circuits ==> sid in n'.circuits)
  }

  lemma BroadcastConnected(n: Node, sid: Sid, msg: Msg, skip: Option<Peer>, bad: set<StreamId>)
    ensures StaysConnected(n, Broadcast(n, sid, msg, skip, bad).node, sid)
  {
  }

  lemma DisconnectConnected(n: Node, sid: Sid, from: Stream, bad: set<StreamId>)
    ensures StaysConnected(n, HandleDisconnect(n, sid, from, bad).node, sid)
  {
    DisconnectFacts(n, sid, from, bad);
  }

  lemma HandleConnected(n: Node, msg: Msg, from: Stream, sid: Sid, bad: set<StreamId>)
    requires Travels(msg, sid)
    ensures StaysConnected(n, Handle(n, msg, from, bad).node, sid)
  {
    match msg {
      case Wake =>
      case Malformed =>
      case Data(_, _) => hide Broadcast;
      case Probe(_, _) => BroadcastConnected(n, sid, Success(sid), None, bad); hide Broadcast;
      case Disconnect(_) => DisconnectConnected(n, sid, from, bad); hide HandleDisconnect;
      case Success(_) => hide Broadcast;
    }
  }

  /** An operation that binds no stream keeps a node in order. */
  lemma OpKeepsNode(sid: Sid, requested: bool, p: Peer, n: Node, op: NodeRuns.Op)
    requires NodeOk(sid, requested, p, n) && NodeRuns.Fair(n, op)
    requires StaysConnected(n, NodeRuns.Apply(n, op).node, sid)
    ensures NodeOk(sid, requested, p, NodeRuns.Apply(n, op).node)
  {
    hide NodeRuns.Apply, NodeRuns.Agrees, NodeRuns.Fair;
    NodeRuns.StepAgrees(n, op);
    NodeRuns.StepFrame(n, op);
  }

  lemma ActNodes(plan: Plan, g: State, p: Peer, e: Effect)
    requires NodesOk(plan, g) && p in g.nodes && NodeOk(plan.sid, g.requested, p, e.node)
    ensures NodesOk(plan, Act(plan, g, p, e))
  {
    hide NodeOk, Post;
  }

  lemma RelaysNodes(plan: Plan, g: State, p: Peer, msg: Msg, bad: set<StreamId>, g': State)
    requires NodesOk(plan, g) && Relays(plan, g, p, msg, bad, g')
    ensures NodesOk(plan, g')
  {
    hide NodeOk, Act, Broadcast;
    BroadcastConnected(g.nodes[p], plan.sid, msg, None, bad);
    OpKeepsNode(plan.sid, g.requested, p, g.nodes[p], NodeRuns.Sends(plan.sid, msg, bad));
    ActNodes(plan, g, p, SendRelay(g.nodes[p], plan.sid, msg, bad));
  }

  lemma HandledNode(plan: Plan, g: State, p: Peer, msg: Msg, from: Stream, bad: set<StreamId>)
    requires NodesOk(plan, g) && p in g.nodes && Travels(msg, plan.sid)
    ensures NodeOk(plan.sid, g.requested, p, Handle(g.nodes[p], msg, from, bad).node)
  {
    hide NodeOk, Handle;
    HandleConnected(g.nodes[p], msg, from, plan.sid, bad);
    OpKeepsNode(plan.sid, g.requested, p, g.nodes[p], NodeRuns.Handles(msg, from, bad));
  }

  lemma DeliversNodes(plan: Plan, g: State, w: Wire, bad: set<StreamId>, g': State)
    requires NodesOk(plan, g) && AllWiresTravel(g.wires, plan.sid) && DeliversFrom(plan, g, w, bad, g')
    ensures NodesOk(plan, g')
  {
    assert Travels(g.wires[w][0], plan.sid);
    hide NodeOk, Handle, Act;
    HandledNode(plan, g, w.dst, g.wires[w][0], Stream(w.id, w.src), bad);
    ActNodes(plan, Popped(g, w), w.dst, Handle(g.nodes[w.dst], g.wires[w][0], Stream(w.id, w.src), bad));
  }

  lemma ClosesNodes(plan: Plan, g: State, p: Peer, bad: set<StreamId>)
    requires NodesOk(plan, g) && p in g.nodes
    ensures NodesOk(plan, Act(plan, g, p, CloseCircuit(g.nodes[p], plan.sid, bad)))
  {
    hide NodeOk, Act;
    OpKeepsNode(plan.sid, g.requested, p, g.nodes[p], NodeRuns.Closes(plan.sid, bad));
    ActNodes(plan, g, p, CloseCircuit(g.nodes[p], plan.sid, bad));
  }

  lemma StreamClosesNodes(plan: Plan, g: State, p: Peer, id: StreamId, bad: set<StreamId>)
    requires NodesOk(plan, g) && p in g.nodes && id in g.nodes[p].streams && g.nodes[p].streams[id].sid == plan.sid
    ensures NodesOk(plan, Act(plan, g, p, HandleStreamClosed(g.nodes[p], id, bad)))
  {
    hide NodeOk, Act;
    OpKeepsNode(plan.sid, g.requested, p, g.nodes[p], NodeRuns.Notices(id, bad));
    ActNodes(plan, g, p, HandleStreamClosed(g.nodes[p], id, bad));
  }

  lemma ElsewhereNodes(plan: Plan, g: State, p: Peer, op: NodeRuns.Op, g': State)
    requires NodesOk(plan, g) && ActsElsewhere(plan, g, p, op, g')
    ensures NodesOk(plan, g')
  {
    hide NodeOk, NodeRuns.Apply, NodeRuns.Fair;
    ElsewhereSame(plan, g.nodes[p], op);
    OpKeepsNode(plan.sid, g.requested, p, g.nodes[p], op);
  }

  /** Only the caller can hold the session as Caller, and the request gives it its circuit. */
  lemma RequestNodes(plan: Plan, g: State, g': State)
    requires NodesOk(plan, g) && RolesOk(plan, g) && Requests(plan, g, g')
    ensures NodesOk(plan, g')
  {
    var n := g.nodes[plan.caller];
    NodeRuns.AgreesOnly(n, AddCircuit(n, plan.sid, plan.answer));
    hide NodeRuns.Agrees;
    forall p | p in g'.nodes
      ensures NodeOk(plan.sid, true, p, g'.nodes[p])
    {
      assert NodeOk(plan.sid, g.requested, p, g.nodes[p]);
    }
  }

  // ----- exchanges -----

  /** A stream that is not in the index is in nobody's pair. */
  lemma UnindexedUnheld(n: Node, sid: Sid, id: StreamId)
    requires NodeRuns.Agrees(n) && id !in n.streams
    ensures !NodeRuns.HeldElsewhere(n, sid, id) && !NodeRuns.Holds(n, sid, id)
    ensures sid in n.sessions && n.sessions[sid].pair != [] ==> n.sessions[sid].pair[0].id != id
  {
    assert forall other | other in n.sessions :: NodeRuns.Sound(n, other);
  }

  /** Whom a stream serves does not depend on the index. */
  lemma HeldAlike(n: Node, n': Node, sid: Sid, id: StreamId)
    requires n'.sessions == n.sessions
    ensures NodeRuns.HeldElsewhere(n', sid, id) == NodeRuns.HeldElsewhere(n, sid, id)
    ensures NodeRuns.Holds(n', sid, id) == NodeRuns.Holds(n, sid, id)
  {
  }

  lemma OpensNode(sid: Sid, requested: bool, p: Peer, n: Node, s: Stream)
    requires NodeOk(sid, requested, p, n) && s.id !in n.streams
    ensures NodeOk(sid, requested, p, AddStream(n, s))
  {
    UnindexedUnheld(n, UNBOUND, s.id);
    hide NodeRuns.Agrees, NodeRuns.HeldElsewhere;
    NodeRuns.OpensAgrees(n, s);
  }

  /** The role a node ends up with, and its circuit if that needs one. */
  lemma AcceptsConnected(n: Node, sid: Sid, requested: bool, role: Role, s: Stream, bad: set<StreamId>)
    requires Connected(sid, requested, n) && role != Caller && (role == Answer ==> n.mode == ClientMode)
    ensures var n' := HandleSetSession(n, sid, role, s, bad).node; Connected(sid, requested, n') && n'.me == n.me
  {
  }

  lemma AcceptsNode(sid: Sid, requested: bool, p: Peer, n: Node, role: Role, s: Stream, bad: set<StreamId>)
    requires NodeOk(sid, requested, p, n) && s.id !in n.streams && sid != UNBOUND
    requires role != Caller && (role == Answer ==> n.mode == ClientMode)
    ensures NodeOk(sid, requested, p, HandleSetSession(AddStream(n, s), sid, role, s, bad).node)
  {
    var n1 := AddStream(n, s);
    UnindexedUnheld(n, sid, s.id);
    HeldAlike(n, n1, sid, s.id);
    OpensNode(sid, requested, p, n, s);
    AcceptsConnected(n1, sid, requested, role, s, bad);
    hide NodeRuns.Agrees, NodeRuns.HeldElsewhere, HandleSetSession, NodeRuns.Holds;
    NodeRuns.SetSessionAgrees(n1, sid, role, s, bad);
  }

  lemma CompletesNode(sid: Sid, requested: bool, p: Peer, n: Node, role: Role, s: Stream)
    requires NodeOk(sid, requested, p, n) && s.id !in n.streams && sid != UNBOUND
    requires role != Answer && (role == Caller ==> !requested)
    ensures NodeOk(sid, requested, p, CompleteSetSession(AddStream(n, s), sid, role, s))
  {
    var n1 := AddStream(n, s);
    UnindexedUnheld(n, sid, s.id);
    HeldAlike(n, n1, sid, s.id);
    OpensNode(sid, requested, p, n, s);
    hide NodeRuns.Agrees, NodeRuns.HeldElsewhere, NodeRuns.Holds;
    NodeRuns.CompletesAgrees(n1, sid, role, s);
  }

  lemma ExchangeNodes(plan: Plan, g: State, p: Peer, q: Peer, id: StreamId, roleP: Role, roleQ: Role,
                      bad: set<StreamId>)
    requires NodesOk(plan, g) && CanExchange(plan, g, p, q, id, roleQ)
    requires roleQ != Caller && (roleQ == Answer ==> g.nodes[q].mode == ClientMode)
    requires roleP != Answer && (roleP == Caller ==> !g.requested)
    ensures NodesOk(plan, Exchange(plan, g, p, q, id, roleP, roleQ, bad))
  {
    var (atQ, atP) := (Stream(id, p), Stream(id, q));
    var e := HandleSetSession(AddStream(g.nodes[q], atQ), plan.sid, roleQ, atQ, bad);
    assert NodeOk(plan.sid, g.requested, q, g.nodes[q]) && NodeOk(plan.sid, g.requested, p, g.nodes[p]);
    hide NodeOk, HandleSetSession, CompleteSetSession, Post;
    AcceptsNode(plan.sid, g.requested, q, g.nodes[q], roleQ, atQ, bad);
    ActNodes(plan, g, q, e);
    CompletesNode(plan.sid, g.requested, p, g.nodes[p], roleP, atP);
    var g1 := Act(plan, g, q, e);
    ActNodes(plan, g1, p, Quiet(CompleteSetSession(AddStream(g1.nodes[p], atP), plan.sid, roleP, atP)));
  }

  lemma NodesOnly(plan: Plan, g: State, g': State)
    requires NodesOk(plan, g) && g'.nodes == g.nodes && g'.requested == g.requested
    ensures NodesOk(plan, g')
  {
    hide NodeOk;
  }

  lemma ExchangeStepNodes(plan: Plan, g: State, move: Move, g': State)
    requires NodesOk(plan, g) && CastOk(plan, g.nodes) && LinksOk(plan, g) && Step(plan, g, move, g')
        && IsExchange(move)
    ensures NodesOk(plan, g')
  {
    hide NodesOk, Exchange, Accepts, IsSwap, Fresh;
    match move
    case CallerOpens(id) =>
      ExchangeNodes(plan, g, plan.caller, plan.entry, id, Caller, Entry, {});
      NodesOnly(plan, Exchange(plan, g, plan.caller, plan.entry, id, Caller, Entry, {}), g');
    case EntryServesBoth(id) => CallNodes(plan, g, id, g');
    case ExitCallsAnswer(id) => CallNodes(plan, g, id, g');
    case EntryJoins(joint, id) =>
      ExchangeNodes(plan, g, plan.entry, joint, id, Entry, Joint, {});
      NodesOnly(plan, Exchange(plan, g, plan.entry, joint, id, Entry, Joint, {}), g');
    case ExitPicksRelay(relay, id, bad) =>
      ExchangeNodes(plan, g, plan.exit, relay, id, Exit, Relayer, bad);
      NodesOnly(plan, Exchange(plan, g, plan.exit, relay, id, Exit, Relayer, bad), g');
    case RelayExpends(id) =>
      ExchangeNodes(plan, g, g.links.xr.b, g.links.ej.b, id, Relayer, Joint, {});
      NodesOnly(plan, Exchange(plan, g, g.links.xr.b, g.links.ej.b, id, Relayer, Joint, {}), g');
  }

  lemma CallNodes(plan: Plan, g: State, id: StreamId, g': State)
    requires NodesOk(plan, g) && CastOk(plan, g.nodes) && CallsAnswer(plan, g, id, g')
    ensures NodesOk(plan, g')
  {
    hide NodesOk, Exchange, Accepts, Fresh;
    ExchangeNodes(plan, g, plan.exit, plan.answer, id, Exit, Answer, {});
    NodesOnly(plan, Exchange(plan, g, plan.exit, plan.answer, id, Exit, Answer, {}), g');
  }

  /** Every step keeps every node in order. */
  lemma StepNodes(plan: Plan, g: State, move: Move, g': State)
    requires Inv(plan, g) && NodesOk(plan, g) && Step(plan, g, move, g')
    ensures NodesOk(plan, g')
  {
    hide PairsOk, RolesOk, EntryOk, LostOk, AllWiresTravel, NodesOk, LinksOk, CastOk;
    hide Opens, Requests, CallsAnswer, Joins, PicksRelay, Expends, Relays, DeliversFrom, ActsElsewhere, Act;
    if IsExchange(move) {
      ExchangeStepNodes(plan, g, move, g');
    } else {
      match move
      case CallerRequests => RequestNodes(plan, g, g');
      case EntryAnnounces(bad) => RelaysNodes(plan, g, plan.entry, Success(plan.sid), bad, g');
      case EntryGossips => NodesOnly(plan, g, g');
      case EntryProbes(bad, rand) =>
        NodesOnly(plan, g, g.(entryProbed := true));
        RelaysNodes(plan, g.(entryProbed := true), plan.entry, Probe(plan.sid, rand), bad, g');
      case ExitAnnounces(bad) => RelaysNodes(plan, g, plan.exit, Success(plan.sid), bad, g');
      case RelayAnnounces(bad) =>
        NodesOnly(plan, g, g.(expended := true));
        RelaysNodes(plan, g.(expended := true), g.links.xr.b, Success(plan.sid), bad, g');
      case ExitProbes(bad, rand) =>
        NodesOnly(plan, g, g.(exitProbed := true));
        RelaysNodes(plan, g.(exitProbed := true), plan.exit, Probe(plan.sid, rand), bad, g');
      case Delivers(w, bad) => DeliversNodes(plan, g, w, bad, g');
      case Closes(p, bad) => ClosesNodes(plan, g, p, bad);
      case StreamCloses(p, id, bad) => StreamClosesNodes(plan, g, p, id, bad);
      case Writes(p, payload, bad) => RelaysNodes(plan, g, p, Data(plan.sid, payload), bad, g');
      case Elsewhere(p, op) => ElsewhereNodes(plan, g, p, op, g');
      case _ =>
    }
  }

  // ----- nothing to read before an end writes -----

  predicate NoData(msgs: seq<Msg>) {
    forall i :: 0 <= i < |msgs| ==> !msgs[i].Data?
  }

  predicate WiresSilent(wires: map<Wire, seq<Msg>>) {
    forall w | w in wires :: NoData(wires[w])
  }

  predicate EmptyBox(sid: Sid, n: Node) {
    sid in n.circuits ==> n.circuits[sid].inbox == []
  }

  /** No Data is under way and every circuit of the session is empty. */
  predicate Silent(plan: Plan, g: State) {
    && WiresSilent(g.wires)
    && (forall p | p in g.nodes :: EmptyBox(plan.sid, g.nodes[p]))
  }

  lemma {:induction false} PostSilent(wires: map<Wire, seq<Msg>>, src: Peer, sends: seq<Send>)
    requires WiresSilent(wires) && !Conservation.CarriesData(sends)
    ensures WiresSilent(Post(wires, src, sends))
    decreases |sends|
  {
    if sends != [] {
      var w := Wire(sends[0].to.id, src, sends[0].to.remote);
      assert !sends[0].msg.Data?;
      PostSilent(wires[w := On(wires, w) + [sends[0].msg]], src, sends[1..]);
    }
  }

  lemma ActSilent(plan: Plan, g: State, p: Peer, e: Effect)
    requires Silent(plan, g) && p in g.nodes && !Conservation.CarriesData(e.sends) && EmptyBox(plan.sid, e.node)
    ensures Silent(plan, Act(plan, g, p, e))
  {
    PostSilent(g.wires, p, e.sends);
    hide Post, WiresSilent;
  }

  lemma RelaysSilent(plan: Plan, g: State, p: Peer, msg: Msg, bad: set<StreamId>, g': State)
    requires Silent(plan, g) && !msg.Data? && Relays(plan, g, p, msg, bad, g')
    ensures Silent(plan, g')
  {
    assert EmptyBox(plan.sid, g.nodes[p]);
    Conservation.BroadcastNoData(g.nodes[p], plan.sid, msg, None, bad);
    hide Silent, Act, Broadcast, Conservation.CarriesData;
    ActSilent(plan, g, p, SendRelay(g.nodes[p], plan.sid, msg, bad));
  }

  lemma PopSilent(plan: Plan, g: State, w: Wire)
    requires Silent(plan, g) && w in g.wires && g.wires[w] != []
    ensures Silent(plan, Popped(g, w)) && !g.wires[w][0].Data?
  {
    assert NoData(g.wires[w]);
  }

  lemma DeliversSilent(plan: Plan, g: State, w: Wire, bad: set<StreamId>, g': State)
    requires Silent(plan, g) && AllWiresTravel(g.wires, plan.sid) && DeliversFrom(plan, g, w, bad, g')
    ensures Silent(plan, g')
  {
    assert EmptyBox(plan.sid, g.nodes[w.dst]) && Travels(g.wires[w][0], plan.sid);
    PopSilent(plan, g, w);
    Conservation.OthersNoData(g.nodes[w.dst], g.wires[w][0], Stream(w.id, w.src), plan.sid, bad);
    hide Silent, Act, Handle, Conservation.CarriesData;
    ActSilent(plan, Popped(g, w), w.dst, Handle(g.nodes[w.dst], g.wires[w][0], Stream(w.id, w.src), bad));
  }

  lemma ClosesSilent(plan: Plan, g: State, p: Peer, bad: set<StreamId>)
    requires Silent(plan, g) && p in g.nodes
    ensures Silent(plan, Act(plan, g, p, CloseCircuit(g.nodes[p], plan.sid, bad)))
  {
    FarewellFacts(PairOf(g.nodes[p], plan.sid), plan.sid, bad);
    hide Silent, Act;
    ActSilent(plan, g, p, CloseCircuit(g.nodes[p], plan.sid, bad));
  }

  lemma StreamClosesSilent(plan: Plan, g: State, p: Peer, id: StreamId, bad: set<StreamId>)
    requires Silent(plan, g) && p in g.nodes && id in g.nodes[p].streams && g.nodes[p].streams[id].sid == plan.sid
    ensures Silent(plan, Act(plan, g, p, HandleStreamClosed(g.nodes[p], id, bad)))
  {
    assert EmptyBox(plan.sid, g.nodes[p]);
    FarewellFacts(PairOf(g.nodes[p], plan.sid), plan.sid, bad);
    hide Silent, Act;
    ActSilent(plan, g, p, HandleStreamClosed(g.nodes[p], id, bad));
  }

  /** Replacing a node by one whose circuit is empty. */
  lemma NodeSilent(plan: Plan, g: State, p: Peer, n: Node)
    requires Silent(plan, g) && p in g.nodes && EmptyBox(plan.sid, n)
    ensures Silent(plan, g.(nodes := g.nodes[p := n]))
  {
    hide NoData;
  }

  lemma ElsewhereSilent(plan: Plan, g: State, p: Peer, op: NodeRuns.Op, g': State)
    requires Silent(plan, g) && ActsElsewhere(plan, g, p, op, g')
    ensures Silent(plan, g')
  {
    assert EmptyBox(plan.sid, g.nodes[p]);
    hide Silent, NodeRuns.Apply, NodeRuns.Fair;
    ElsewhereSame(plan, g.nodes[p], op);
    NodeSilent(plan, g, p, NodeRuns.Apply(g.nodes[p], op).node);
  }

  lemma AcceptsSilent(n: Node, sid: Sid, role: Role, s: Stream, bad: set<StreamId>)
    requires EmptyBox(sid, n)
    ensures var e := HandleSetSession(AddStream(n, s), sid, role, s, bad);
            !Conservation.CarriesData(e.sends) && EmptyBox(sid, e.node)
  {
    FarewellFacts(PairOf(n, sid), sid, bad);
  }

  lemma ExchangeSilent(plan: Plan, g: State, p: Peer, q: Peer, id: StreamId, roleP: Role, roleQ: Role,
                       bad: set<StreamId>)
    requires Silent(plan, g) && CanExchange(plan, g, p, q, id, roleQ)
    ensures Silent(plan, Exchange(plan, g, p, q, id, roleP, roleQ, bad))
  {
    var (atQ, atP) := (Stream(id, p), Stream(id, q));
    var e := HandleSetSession(AddStream(g.nodes[q], atQ), plan.sid, roleQ, atQ, bad);
    assert EmptyBox(plan.sid, g.nodes[q]) && EmptyBox(plan.sid, g.nodes[p]);
    AcceptsSilent(g.nodes[q], plan.sid, roleQ, atQ, bad);
    hide Silent, HandleSetSession, Post;
    ActSilent(plan, g, q, e);
    var g1 := Act(plan, g, q, e);
    ActSilent(plan, g1, p, Quiet(CompleteSetSession(AddStream(g1.nodes[p], atP), plan.sid, roleP, atP)));
  }

  lemma SilentOnly(plan: Plan, g: State, g': State)
    requires Silent(plan, g) && g'.nodes == g.nodes && g'.wires == g.wires
    ensures Silent(plan, g')
  {
  }

  lemma ExchangeStepSilent(plan: Plan, g: State, move: Move, g': State)
    requires Silent(plan, g) && Step(plan, g, move, g') && IsExchange(move)
    ensures Silent(plan, g')
  {
    hide Silent, Exchange, Accepts, IsSwap, Fresh;
    match move
    case CallerOpens(id) =>
      ExchangeSilent(plan, g, plan.caller, plan.entry, id, Caller, Entry, {});
      SilentOnly(plan, Exchange(plan, g, plan.caller, plan.entry, id, Caller, Entry, {}), g');
    case EntryServesBoth(id) => CallSilent(plan, g, id, g');
    case ExitCallsAnswer(id) => CallSilent(plan, g, id, g');
    case EntryJoins(joint, id) =>
      ExchangeSilent(plan, g, plan.entry, joint, id, Entry, Joint, {});
      SilentOnly(plan, Exchange(plan, g, plan.entry, joint, id, Entry, Joint, {}), g');
    case ExitPicksRelay(relay, id, bad) =>
      ExchangeSilent(plan, g, plan.exit, relay, id, Exit, Relayer, bad);
      SilentOnly(plan, Exchange(plan, g, plan.exit, relay, id, Exit, Relayer, bad), g');
    case RelayExpends(id) =>
      ExchangeSilent(plan, g, g.links.xr.b, g.links.ej.b, id, Relayer, Joint, {});
      SilentOnly(plan, Exchange(plan, g, g.links.xr.b, g.links.ej.b, id, Relayer, Joint, {}), g');
  }

  lemma CallSilent(plan: Plan, g: State, id: StreamId, g': State)
    requires Silent(plan, g) && CallsAnswer(plan, g, id, g')
    ensures Silent(plan, g')
  {
    hide Silent, Exchange, Accepts, Fresh;
    ExchangeSilent(plan, g, plan.exit, plan.answer, id, Exit, Answer, {});
    SilentOnly(plan, Exchange(plan, g, plan.exit, plan.answer, id, Exit, Answer, {}), g');
  }

  lemma RequestSilent(plan: Plan, g: State, g': State)
    requires Silent(plan, g) && Requests(plan, g, g')
    ensures Silent(plan, g')
  {
    var n := g.nodes[plan.caller];
    assert EmptyBox(plan.sid, n);
    hide Silent;
    SilentOnly(plan, g, g.(requested := true));
    NodeSilent(plan, g.(requested := true), plan.caller, AddCircuit(n, plan.sid, plan.answer));
  }

  /** Until an end writes, nothing is there to be read. */
  lemma StepSilent(plan: Plan, g: State, move: Move, g': State)
    requires Inv(plan, g) && Silent(plan, g) && Step(plan, g, move, g') && !move.Writes?
    ensures Silent(plan, g')
  {
    hide PairsOk, RolesOk, EntryOk, LostOk, AllWiresTravel, Silent, LinksOk, CastOk;
    hide Opens, Requests, CallsAnswer, Joins, PicksRelay, Expends, Relays, DeliversFrom, ActsElsewhere, Act;
    if IsExchange(move) {
      ExchangeStepSilent(plan, g, move, g');
    } else {
      match move
      case CallerRequests => RequestSilent(plan, g, g');
      case EntryAnnounces(bad) => RelaysSilent(plan, g, plan.entry, Success(plan.sid), bad, g');
      case EntryGossips => SilentOnly(plan, g, g');
      case EntryProbes(bad, rand) =>
        SilentOnly(plan, g, g.(entryProbed := true));
        RelaysSilent(plan, g.(entryProbed := true), plan.entry, Probe(plan.sid, rand), bad, g');
      case ExitAnnounces(bad) => RelaysSilent(plan, g, plan.exit, Success(plan.sid), bad, g');
      case RelayAnnounces(bad) =>
        SilentOnly(plan, g, g.(expended := true));
        RelaysSilent(plan, g.(expended := true), g.links.xr.b, Success(plan.sid), bad, g');
      case ExitProbes(bad, rand) =>
        SilentOnly(plan, g, g.(exitProbed := true));
        RelaysSilent(plan, g.(exitProbed := true), plan.exit, Probe(plan.sid, rand), bad, g');
      case Delivers(w, bad) => DeliversSilent(plan, g, w, bad, g');
      case Closes(p, bad) => ClosesSilent(plan, g, p, bad);
      case StreamCloses(p, id, bad) => StreamClosesSilent(plan, g, p, id, bad);
      case Elsewhere(p, op) => ElsewhereSilent(plan, g, p, op, g');
      case _ =>
    }
  }
}
