/**
  Building one circuit: the caller's NewCircuit (network/noise/noise.go), the entry's
  HandleNewCircuit (protocol/proxy/proxy.go), the exit's handleGossipMsg
  (network/gossip/pubsub.go) and the relay's session-expend command
  (protocol/command/command.go), interleaved with the relay handlers of every node.

  The system is a labelled transition system. Premises: a SetSession exchange succeeds at
  both ends or at neither (one atomic step), every stream is FIFO, carries one session id and
  is opened once, the destination is registered at exactly one proxy (`exit`) and stays so.
*/
module CircuitSetup {
  import opened Basics
  import opened Relay
  import opened NodeFacts
  import NodeRuns

  /** The peers fixed before set-up starts: who calls whom and their two proxies. */
  datatype Plan = Plan(sid: Sid, caller: Peer, entry: Peer, exit: Peer, answer: Peer)

  /** A stream that was bound to the session by an exchange from `a` to `b`. */
  datatype Link = NoLink | Link(id: StreamId, a: Peer, b: Peer)

  /** One direction of a stream. */
  datatype Wire = Wire(id: StreamId, src: Peer, dst: Peer)

  /** The exchanges that have happened, in the order the protocol performs them. */
  datatype Links = Links(ce: Link, ej: Link, xa: Link, xr: Link, rj: Link)

  datatype State = State(
    nodes: map<Peer, Node>,
    wires: map<Wire, seq<Msg>>,
    links: Links,
    requested: bool,     // the NewCircuit request was accepted by the entry
    gossiped: bool,      // the negotiation reached the exit
    entryProbed: bool,   // the entry sent its probe
    expended: bool,      // the session-expend command was acknowledged
    exitProbed: bool,    // the exit sent its probe
    swapped: bool,       // the entry became the relay as well
    swapTold: bool,      // ... and its Disconnect to the joint was written
    lost: set<(Peer, StreamId)>)  // history: streams a peer's session held and no longer holds

  datatype Move =
    | CallerOpens(id: StreamId)
    | CallerRequests
    | EntryServesBoth(id: StreamId)
    | EntryAnnounces(bad: set<StreamId>)
    | EntryJoins(joint: Peer, id: StreamId)
    | EntryGossips
    | EntryProbes(bad: set<StreamId>, rand: bytes)
    | ExitCallsAnswer(id: StreamId)
    | ExitAnnounces(bad: set<StreamId>)
    | ExitPicksRelay(relay: Peer, id: StreamId, bad: set<StreamId>)
    | RelayExpends(id: StreamId)
    | RelayAnnounces(bad: set<StreamId>)
    | ExitProbes(bad: set<StreamId>, rand: bytes)
    | Delivers(wire: Wire, bad: set<StreamId>)
    | Closes(peer: Peer, bad: set<StreamId>)
    | StreamCloses(peer: Peer, id: StreamId, bad: set<StreamId>)
    | Writes(peer: Peer, payload: bytes, bad: set<StreamId>)
    | Elsewhere(peer: Peer, op: NodeRuns.Op)

  // ----- wires -----

  function On(wires: map<Wire, seq<Msg>>, w: Wire): seq<Msg> {
    if w in wires then wires[w] else []
  }

  /** Appends what `src` wrote to the wires. */
  function Post(wires: map<Wire, seq<Msg>>, src: Peer, sends: seq<Send>): map<Wire, seq<Msg>>
    decreases |sends|
  {
    if sends == [] then wires
    else
      var w := Wire(sends[0].to.id, src, sends[0].to.remote);
      Post(wires[w := On(wires, w) + [sends[0].msg]], src, sends[1..])
  }

  // ----- steps -----

  /** Peer `p` performs `e`: its node, the wires and the history change. */
  function Act(plan: Plan, g: State, p: Peer, e: Effect): State
    requires p in g.nodes
  {
    var before := PairOf(g.nodes[p], plan.sid);
    var after := PairOf(e.node, plan.sid);
    g.(nodes := g.nodes[p := e.node],
       wires := Post(g.wires, p, e.sends),
       lost := g.lost + set s | s in before && s !in after :: (p, s.id))
  }

  predicate Is(l: Link, id: StreamId) {
    l.Link? && l.id == id
  }

  /** Some exchange used this stream id. */
  predicate Known(ls: Links, id: StreamId) {
    Is(ls.ce, id) || Is(ls.ej, id) || Is(ls.xa, id) || Is(ls.xr, id) || Is(ls.rj, id)
  }

  /** A stream id no exchange of this session has used. */
  predicate Fresh(g: State, id: StreamId) {
    !Known(g.links, id)
  }

  /** The stream is a new one at both ends, and the acceptor takes the role. */
  predicate CanExchange(plan: Plan, g: State, p: Peer, q: Peer, id: StreamId, roleQ: Role) {
    && p in g.nodes && q in g.nodes && p != q && Fresh(g, id) && Accepts(g.nodes[q], plan.sid, roleQ)
    && id !in g.nodes[p].streams && id !in g.nodes[q].streams
  }

  /** NewSessionToPeer with a positive ack: the acceptor handles SetSession, then the requester completes. */
  function Exchange(plan: Plan, g: State, p: Peer, q: Peer, id: StreamId, roleP: Role, roleQ: Role,
                    bad: set<StreamId>): State
    requires CanExchange(plan, g, p, q, id, roleQ)
  {
    var atQ := Stream(id, p);
    var atP := Stream(id, q);
    var g1 := Act(plan, g, q, HandleSetSession(AddStream(g.nodes[q], atQ), plan.sid, roleQ, atQ, bad));
    Act(plan, g1, p, Quiet(CompleteSetSession(AddStream(g1.nodes[p], atP), plan.sid, roleP, atP)))
  }

  /** Node `p` does something about another session, on streams that serve that session only. */
  predicate ActsElsewhere(plan: Plan, g: State, p: Peer, op: NodeRuns.Op, g': State) {
    && p in g.nodes && NodeRuns.Subject(g.nodes[p], op) != plan.sid && NodeRuns.Fair(g.nodes[p], op)
    && g' == g.(nodes := g.nodes[p := NodeRuns.Apply(g.nodes[p], op).node])
  }

  // One predicate per move: when it can happen and what it leaves.

  predicate Opens(plan: Plan, g: State, id: StreamId, g': State) {
    && g.links.ce.NoLink? && CanExchange(plan, g, plan.caller, plan.entry, id, Entry)
    && plan.sid !in g.nodes[plan.caller].sessions
    && g' == Exchange(plan, g, plan.caller, plan.entry, id, Caller, Entry, {})
             .(links := g.links.(ce := Link(id, plan.caller, plan.entry)))
  }

  predicate Requests(plan: Plan, g: State, g': State) {
    && g.links.ce.Link? && !g.requested && plan.entry in g.nodes && plan.caller in g.nodes
    && plan.sid in g.nodes[plan.entry].sessions && !g.nodes[plan.entry].sessions[plan.sid].IsReady()
    && g' == g.(requested := true,
                nodes := g.nodes[plan.caller := AddCircuit(g.nodes[plan.caller], plan.sid, plan.answer)])
  }

  /** The exchange with the destination: by the entry when it is both proxies, else by the exit. */
  predicate CallsAnswer(plan: Plan, g: State, id: StreamId, g': State) {
    && g.links.xa.NoLink? && CanExchange(plan, g, plan.exit, plan.answer, id, Answer)
    && g' == Exchange(plan, g, plan.exit, plan.answer, id, Exit, Answer, {})
             .(links := g.links.(xa := Link(id, plan.exit, plan.answer)))
  }

  predicate Joins(plan: Plan, g: State, joint: Peer, id: StreamId, g': State) {
    && g.requested && plan.entry != plan.exit && g.links.ej.NoLink?
    && joint != plan.entry && joint != plan.caller && CanExchange(plan, g, plan.entry, joint, id, Joint)
    && g' == Exchange(plan, g, plan.entry, joint, id, Entry, Joint, {})
             .(links := g.links.(ej := Link(id, plan.entry, joint)))
  }

  predicate PicksRelay(plan: Plan, g: State, relay: Peer, id: StreamId, bad: set<StreamId>, g': State) {
    && g.gossiped && g.links.xa.Link? && g.links.xr.NoLink? && g.links.ej.Link? && g.links.ej.b != plan.exit
    && relay != g.links.ej.b && relay != plan.exit && CanExchange(plan, g, plan.exit, relay, id, Relayer)
    && var swap := IsSwap(g.nodes[relay], plan.sid, Relayer);
    && g' == Exchange(plan, g, plan.exit, relay, id, Exit, Relayer, bad)
             .(links := g.links.(xr := Link(id, plan.exit, relay)), swapped := swap,
               swapTold := swap && g.nodes[relay].sessions[plan.sid].pair[1].id !in bad)
  }

  predicate Expends(plan: Plan, g: State, id: StreamId, g': State) {
    var ls := g.links;
    && ls.xr.Link? && !g.expended && ls.rj.NoLink? && ls.ej.Link?
    && CanExchange(plan, g, ls.xr.b, ls.ej.b, id, Joint)
    && plan.sid in g.nodes[ls.xr.b].sessions && !g.nodes[ls.xr.b].sessions[plan.sid].IsReady()
    && g' == Exchange(plan, g, ls.xr.b, ls.ej.b, id, Relayer, Joint, {})
             .(links := ls.(rj := Link(id, ls.xr.b, ls.ej.b)), expended := true)
  }

  /** Peer `p` sends `msg` to every stream of its session (ReqSendRelay). */
  predicate Relays(plan: Plan, g: State, p: Peer, msg: Msg, bad: set<StreamId>, g': State) {
    p in g.nodes && g' == Act(plan, g, p, SendRelay(g.nodes[p], plan.sid, msg, bad))
  }

  predicate DeliversFrom(plan: Plan, g: State, w: Wire, bad: set<StreamId>, g': State) {
    && w in g.wires && g.wires[w] != [] && w.dst in g.nodes
    && g' == Act(plan, Popped(g, w), w.dst, Handle(g.nodes[w.dst], g.wires[w][0], Stream(w.id, w.src), bad))
  }

  predicate Step(plan: Plan, g: State, move: Move, g': State) {
    var sid := plan.sid;
    var ls := g.links;
    match move
    case CallerOpens(id) => Opens(plan, g, id, g')
    case CallerRequests => Requests(plan, g, g')
    case EntryServesBoth(id) => g.requested && plan.entry == plan.exit && CallsAnswer(plan, g, id, g')
    case EntryAnnounces(bad) =>
      plan.entry == plan.exit && ls.xa.Link? && Relays(plan, g, plan.entry, Success(sid), bad, g')
    case EntryJoins(joint, id) => Joins(plan, g, joint, id, g')
    case EntryGossips => ls.ej.Link? && !g.gossiped && g' == g.(gossiped := true)
    case EntryProbes(bad, rand) =>
      g.gossiped && !g.entryProbed && Relays(plan, g.(entryProbed := true), plan.entry, Probe(sid, rand), bad, g')
    case ExitCallsAnswer(id) => g.gossiped && CallsAnswer(plan, g, id, g')
    case ExitAnnounces(bad) =>
      && g.gossiped && ls.xa.Link? && ls.ej.Link? && ls.ej.b == plan.exit
      && Relays(plan, g, plan.exit, Success(sid), bad, g')
    case ExitPicksRelay(relay, id, bad) => PicksRelay(plan, g, relay, id, bad, g')
    case RelayExpends(id) => Expends(plan, g, id, g')
    case RelayAnnounces(bad) =>
      && ls.xr.Link? && !g.expended && ls.xr.b in g.nodes
      && sid in g.nodes[ls.xr.b].sessions && g.nodes[ls.xr.b].sessions[sid].IsReady()
      && Relays(plan, g.(expended := true), ls.xr.b, Success(sid), bad, g')
    case ExitProbes(bad, rand) =>
      g.expended && !g.exitProbed && Relays(plan, g.(exitProbed := true), plan.exit, Probe(sid, rand), bad, g')
    case Delivers(w, bad) => DeliversFrom(plan, g, w, bad, g')
    case Closes(p, bad) =>
      p in g.nodes && g' == Act(plan, g, p, CloseCircuit(g.nodes[p], sid, bad))
    case StreamCloses(p, id, bad) =>
      && p in g.nodes && id in g.nodes[p].streams && g.nodes[p].streams[id].sid == sid
      && g' == Act(plan, g, p, HandleStreamClosed(g.nodes[p], id, bad))
    case Writes(p, payload, bad) => Relays(plan, g, p, Data(sid, payload), bad, g')
    case Elsewhere(p, op) => ActsElsewhere(plan, g, p, op, g')
  }

  /** The head of a wire is taken off. */
  function Popped(g: State, w: Wire): State
    requires w in g.wires && g.wires[w] != []
  {
    g.(wires := g.wires[w := g.wires[w][1..]])
  }

  /** The four sites that originate Success (proxy.go:372, pubsub.go:202, command.go:112, relay.go:230). */
  predicate Originates(plan: Plan, g: State, move: Move) {
    match move
    case EntryAnnounces(_) => true
    case ExitAnnounces(_) => true
    case RelayAnnounces(_) => true
    case Delivers(w, _) =>
      && w in g.wires && g.wires[w] != [] && w.dst in g.nodes
      && g.wires[w][0].Probe? && ProbeMatches(g.nodes[w.dst], plan.sid, g.wires[w][0].rand)
    case _ => false
  }

  /** A node that goes by its own id, has its streams in order and knows nothing of the session. */
  predicate Idle(sid: Sid, p: Peer, n: Node) {
    && n.me == p && NodeRuns.Agrees(n)
    && sid !in n.sessions && sid !in n.probes && sid !in n.circuits
  }

  predicate Initial(plan: Plan, g: State) {
    && {plan.caller, plan.entry, plan.exit, plan.answer} <= g.nodes.Keys
    && plan.sid != UNBOUND
    && g.nodes[plan.caller].mode == g.nodes[plan.answer].mode == ClientMode
    && g.nodes[plan.entry].mode == g.nodes[plan.exit].mode == ServerMode
    && (forall p | p in g.nodes :: Idle(plan.sid, p, g.nodes[p]))
    && g.wires == map[]
    && g.links == Links(NoLink, NoLink, NoLink, NoLink, NoLink)
    && !g.requested && !g.gossiped && !g.entryProbed && !g.expended && !g.exitProbed && !g.swapped && !g.swapTold
    && g.lost == {}
  }

  /** A run: states joined by labelled steps, from an initial one. */
  predicate IsRun(plan: Plan, states: seq<State>, moves: seq<Move>) {
    && |states| == |moves| + 1 && Initial(plan, states[0])
    && forall i :: 0 <= i < |moves| ==> Step(plan, states[i], moves[i], states[i + 1])
  }

  // ----- the line -----

  predicate Distinct<T(==)>(s: seq<T>) {
    forall i, j :: 0 <= i < j < |s| ==> s[i] != s[j]
  }

  /** Position `i` of the line: an end with its one stream, or a node with the two towards its neighbours. */
  predicate Placed(n: Node, sid: Sid, path: seq<Peer>, ids: seq<StreamId>, i: nat)
    requires |path| == |ids| + 1 >= 2 && i < |path|
  {
    && sid in n.sessions
    && var sess := n.sessions[sid];
       if i == 0 then sess == Session(Caller, [Stream(ids[0], path[1])])
       else
         var left := Stream(ids[i - 1], path[i - 1]);
         if i == |ids| then sess == Session(Answer, [left])
         else
           var right := Stream(ids[i], path[i + 1]);
           !IsEnd(sess.role) && (sess.pair == [left, right] || sess.pair == [right, left])
  }

  /** The sessions along `path` form one simple line from a Caller session to an Answer session. */
  predicate IsLine(plan: Plan, g: State, path: seq<Peer>, ids: seq<StreamId>) {
    && |path| == |ids| + 1 >= 2 && Distinct(path) && Distinct(ids)
    && forall i {:trigger path[i]} :: 0 <= i < |path| ==>
         path[i] in g.nodes && Placed(g.nodes[path[i]], plan.sid, path, ids, i)
  }

  ghost predicate Line(plan: Plan, g: State) {
    exists path, ids :: IsLine(plan, g, path, ids)
  }
}
