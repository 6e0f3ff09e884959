/**
  One relay node as a value: the maps of RelayMsgManager (protocol/relay/manager.go), the
  Session record it stores (network/session/session.go) and every message handler of
  protocol/relay/relay.go as a function from node to effect.

  A handler body is one atomic step. Whether a write to a stream fails is decided outside:
  `bad` is the set of streams whose writes fail during the step.
*/
module Relay {
  import opened Basics

  type Peer = nat
  type StreamId = nat

  /** A session id. The empty string, which the stream index uses for "no session", is 0. */
  type Sid = nat
  const UNBOUND: Sid := 0

  datatype Role = NoRole | Caller | Entry | Joint | Relayer | Exit | Answer

  datatype Mode = ClientMode | ServerMode

  datatype Stream = Stream(id: StreamId, remote: Peer)

  // ----- network/session/session.go -----

  datatype Session = Session(role: Role, pair: seq<Stream>) {

    predicate IsReady() {
      |pair| == 2
    }

    predicate Has(id: StreamId) {
      exists i :: 0 <= i < |pair| && pair[i].id == id
    }

    /** Adds a stream unless two are held already; only the last two are ever kept. */
    function AddStream(s: Stream): (r: Session)
      ensures |pair| <= 2 ==> |r.pair| <= 2
      ensures r.role == role
    {
      if IsReady() then this
      else
        var grown := pair + [s];
        this.(pair := if |grown| > 2 then grown[|grown| - 2..] else grown)
    }

    /** The other stream of a full pair, or None when not ready or not a member. */
    function GetPattern(id: StreamId): Option<Stream> {
      if |pair| != 2 then None
      else if pair[0].id == id then Some(pair[1])
      else if pair[1].id == id then Some(pair[0])
      else None
    }
  }

  // ----- protocol/relay/manager.go: the maps -----

  datatype StreamInfo = StreamInfo(stream: Stream, sid: Sid)

  /** CircuitConn: the receive buffer and whether Success has been seen. */
  datatype Conn = Conn(inbox: bytes, ready: bool, remote: Peer)

  /** What a finished handshake leaves behind (secure/session.go). */
  datatype Secured = Secured(initiator: bool, remoteId: Peer, remoteKey: bytes, remoteStatic: bytes, sig: bytes)

  datatype Node = Node(
    me: Peer,
    mode: Mode,
    sessions: map<Sid, Session>,
    streams: map<StreamId, StreamInfo>,
    probes: map<Sid, bytes>,
    circuits: map<Sid, Conn>,
    secured: map<Sid, Secured>)

  datatype Msg =
    | Wake
    | Malformed
    | SetSession(sid: Sid, role: Role)
    | Data(sid: Sid, payload: bytes)
    | Probe(sid: Sid, rand: bytes)
    | Disconnect(sid: Sid)
    | Success(sid: Sid)

  /** A message that was written to a stream. */
  datatype Send = Send(to: Stream, msg: Msg)

  /** The outcome of one handler: the new node, what was written, which streams were closed. */
  datatype Effect = Effect(node: Node, sends: seq<Send>, shut: seq<Stream>)

  function Quiet(n: Node): Effect {
    Effect(n, [], [])
  }

  /** Runs a second action on the node left by a first one. */
  function AndThen(a: Effect, b: Effect): Effect {
    Effect(b.node, a.sends + b.sends, a.shut + b.shut)
  }

  function PairOf(n: Node, sid: Sid): (p: seq<Stream>) {
    if sid in n.sessions then n.sessions[sid].pair else []
  }

  // ----- stream index -----

  function AddStream(n: Node, s: Stream): Node {
    n.(streams := n.streams[s.id := StreamInfo(s, UNBOUND)])
  }

  function AddStreamSessionId(n: Node, id: StreamId, sid: Sid): Node {
    if id in n.streams then n.(streams := n.streams[id := n.streams[id].(sid := sid)]) else n
  }

  function DeleteStream(n: Node, id: StreamId): Node {
    n.(streams := n.streams - {id})
  }

  // ----- writing to a session's streams -----

  /** Writes in pair order, skipping streams to one peer, up to the first failure. */
  function WriteRound(pair: seq<Stream>, msg: Msg, skip: Option<Peer>, bad: set<StreamId>): seq<Send> {
    if pair == [] then []
    else if skip == Some(pair[0].remote) then WriteRound(pair[1..], msg, skip, bad)
    else if pair[0].id in bad then []
    else [Send(pair[0], msg)] + WriteRound(pair[1..], msg, skip, bad)
  }

  /** Whether that round of writes meets no failure. */
  predicate RoundOk(pair: seq<Stream>, skip: Option<Peer>, bad: set<StreamId>) {
    forall i :: 0 <= i < |pair| && skip != Some(pair[i].remote) ==> pair[i].id !in bad
  }

  /** Disconnect goes to every stream of the pair that accepts it. */
  function Farewells(pair: seq<Stream>, sid: Sid, bad: set<StreamId>): seq<Send> {
    if pair == [] then []
    else (if pair[0].id in bad then [] else [Send(pair[0], Disconnect(sid))]) + Farewells(pair[1..], sid, bad)
  }

  function RemoveSession(n: Node, sid: Sid): Effect {
    Effect(n.(secured := n.secured - {sid}, circuits := n.circuits - {sid},
              sessions := n.sessions - {sid}, probes := n.probes - {sid}),
           [], PairOf(n, sid))
  }

  function CloseCircuit(n: Node, sid: Sid, bad: set<StreamId>): Effect {
    var gone := RemoveSession(n, sid);
    gone.(sends := Farewells(PairOf(n, sid), sid, bad))
  }

  /** SendRelay (skip None) and ForwardRelay (skip the sender's peer): any failure closes the circuit. */
  function Broadcast(n: Node, sid: Sid, msg: Msg, skip: Option<Peer>, bad: set<StreamId>): Effect {
    var pair := PairOf(n, sid);
    if pair == [] then CloseCircuit(n, sid, bad)
    else
      var wrote := Effect(n, WriteRound(pair, msg, skip, bad), []);
      if RoundOk(pair, skip, bad) then wrote else AndThen(wrote, CloseCircuit(n, sid, bad))
  }

  function SendRelay(n: Node, sid: Sid, msg: Msg, bad: set<StreamId>): Effect {
    Broadcast(n, sid, msg, None, bad)
  }

  // ----- protocol/relay/relay.go: the handlers -----

  /** Passes a message on to the partner stream; a missing partner or a failed write may close. */
  function PassOn(n: Node, sid: Sid, msg: Msg, from: StreamId, closeOnError: bool, bad: set<StreamId>): Effect
    requires sid in n.sessions
  {
    match n.sessions[sid].GetPattern(from)
    case Some(partner) =>
      if partner.id !in bad then Effect(n, [Send(partner, msg)], [])
      else if closeOnError then CloseCircuit(n, sid, bad)
      else Quiet(n)
    case None =>
      if closeOnError then CloseCircuit(n, sid, bad) else Quiet(n)
  }

  predicate IsEnd(role: Role) {
    role == Caller || role == Answer
  }

  function HandleData(n: Node, sid: Sid, payload: bytes, from: Stream, bad: set<StreamId>): Effect {
    if sid !in n.sessions then Quiet(n)
    else if IsEnd(n.sessions[sid].role) then
      if sid in n.circuits then
        var conn := n.circuits[sid];
        Quiet(n.(circuits := n.circuits[sid := conn.(inbox := conn.inbox + payload)]))
      else Quiet(n)
    else if n.sessions[sid].IsReady() then PassOn(n, sid, Data(sid, payload), from.id, true, bad)
    else Quiet(n)
  }

  /** Whether handling this probe makes the joint originate Success. */
  predicate ProbeMatches(n: Node, sid: Sid, rand: bytes) {
    sid in n.sessions && n.sessions[sid].role == Joint && sid in n.probes && n.probes[sid] == rand
  }

  function HandleProbe(n: Node, sid: Sid, rand: bytes, from: Stream, bad: set<StreamId>): Effect {
    if sid in n.sessions && n.sessions[sid].role == Joint then
      if sid !in n.probes then Quiet(n.(probes := n.probes[sid := rand]))
      else if n.probes[sid] == rand then SendRelay(n, sid, Success(sid), bad)
      else CloseCircuit(n, sid, bad)
    else if sid in n.sessions && n.sessions[sid].IsReady() then PassOn(n, sid, Probe(sid, rand), from.id, false, bad)
    else Quiet(n)
  }

  function HandleDisconnect(n: Node, sid: Sid, from: Stream, bad: set<StreamId>): Effect {
    if sid !in n.sessions then RemoveSession(n, sid)
    else
      var told := Broadcast(n, sid, Disconnect(sid), Some(from.remote), bad);
      AndThen(told, RemoveSession(told.node, sid))
  }

  /** Success marks an end's circuit ready (the handshake then runs on its own) or is passed on. */
  function HandleSuccess(n: Node, sid: Sid, from: Stream, bad: set<StreamId>): Effect {
    if sid !in n.sessions then Quiet(n)
    else if IsEnd(n.sessions[sid].role) then
      if sid in n.circuits then Quiet(n.(circuits := n.circuits[sid := n.circuits[sid].(ready := true)]))
      else Quiet(n)
    else if n.sessions[sid].IsReady() then PassOn(n, sid, Success(sid), from.id, false, bad)
    else Quiet(n)
  }

  function AddCircuit(n: Node, sid: Sid, remote: Peer): Node {
    if sid in n.circuits then n else n.(circuits := n.circuits[sid := Conn([], false, remote)])
  }

  /** The session with one more stream, created with the given role when there is none. */
  function Extended(n: Node, sid: Sid, role: Role, s: Stream): Session {
    (if sid in n.sessions then n.sessions[sid] else Session(role, [])).AddStream(s)
  }

  predicate Refuses(n: Node, role: Role) {
    n.mode == ClientMode && role != Answer
  }

  /** The entry of a session is asked to be its relay as well. */
  predicate IsSwap(n: Node, sid: Sid, role: Role) {
    sid in n.sessions && n.sessions[sid].role == Entry && role == Relayer && !Refuses(n, role)
  }

  /** Whether SetSession is acknowledged with a positive ack. */
  predicate Accepts(n: Node, sid: Sid, role: Role) {
    !Refuses(n, role) && (IsSwap(n, sid, role) ==> n.sessions[sid].IsReady())
  }

  function HandleSetSession(n: Node, sid: Sid, role: Role, s: Stream, bad: set<StreamId>): Effect {
    if Refuses(n, role) then Quiet(n)
    else
      var n1 := if n.mode == ClientMode then AddCircuit(n, sid, 0) else n;
      if IsSwap(n, sid, role) then
        if n1.sessions[sid].IsReady() then
          var former := n1.sessions[sid].pair[1];
          var n2 := DeleteStream(n1, former.id);
          var sess := n1.sessions[sid].(pair := [n1.sessions[sid].pair[0], s]);
          var n3 := n2.(sessions := n2.sessions[sid := sess]);
          Effect(AddStreamSessionId(AddStream(n3, s), s.id, sid),
                 if former.id in bad then [] else [Send(former, Disconnect(sid))], [])
        else CloseCircuit(n1, sid, bad)
      else
        var n2 := n1.(sessions := n1.sessions[sid := Extended(n1, sid, role, s)]);
        Quiet(AddStreamSessionId(AddStream(n2, s), s.id, sid))
  }

  /** The requester's half of a SetSession exchange whose ack was positive (manager.go SetSessionId). */
  function CompleteSetSession(n: Node, sid: Sid, myRole: Role, s: Stream): Node {
    AddStreamSessionId(n.(sessions := n.sessions[sid := Extended(n, sid, myRole, s)]), s.id, sid)
  }

  /** The stream-closed notice of the relay actor (actor.go). */
  function HandleStreamClosed(n: Node, id: StreamId, bad: set<StreamId>): Effect {
    if id !in n.streams then Quiet(n)
    else
      var sid := n.streams[id].sid;
      var closed := if sid != UNBOUND then CloseCircuit(n, sid, bad) else Quiet(n);
      closed.(node := DeleteStream(closed.node, id))
  }

  /** The dispatch of RelayInboundHandler. */
  function Handle(n: Node, msg: Msg, from: Stream, bad: set<StreamId>): Effect {
    match msg
    case Wake => Quiet(n)
    case Malformed => Quiet(n)
    case SetSession(sid, role) => HandleSetSession(n, sid, role, from, bad)
    case Data(sid, payload) => HandleData(n, sid, payload, from, bad)
    case Probe(sid, rand) => HandleProbe(n, sid, rand, from, bad)
    case Disconnect(sid) => HandleDisconnect(n, sid, from, bad)
    case Success(sid) => HandleSuccess(n, sid, from, bad)
  }
}
