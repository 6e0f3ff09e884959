/**
  Every run of one relay node: the session table and the stream index agree, other sessions are
  never touched, and the entry that is asked to be the relay as well swaps one stream of its pair
  (protocol/relay/manager.go, relay.go handleSetSession, actor.go).
*/
module NodeRuns {
  import opened Basics
  import opened Relay
  import opened NodeFacts

  // ----- the operations on a node -----

  datatype Op =
    | Opens(s: Stream)
    | Handles(msg: Msg, from: Stream, bad: set<StreamId>)
    | Completes(sid: Sid, role: Role, s: Stream)
    | Sends(sid: Sid, msg: Msg, bad: set<StreamId>)
    | Closes(sid: Sid, bad: set<StreamId>)
    | Notices(id: StreamId, bad: set<StreamId>)
    | Dials(sid: Sid, remote: Peer)
    | Secures(sid: Sid, peer: Secured)

  function Apply(n: Node, op: Op): Effect {
    match op
    case Opens(s) => Quiet(AddStream(n, s))
    case Handles(msg, from, bad) => Handle(n, msg, from, bad)
    case Completes(sid, role, s) => Quiet(CompleteSetSession(n, sid, role, s))
    case Sends(sid, msg, bad) => SendRelay(n, sid, msg, bad)
    case Closes(sid, bad) => CloseCircuit(n, sid, bad)
    case Notices(id, bad) => HandleStreamClosed(n, id, bad)
    case Dials(sid, remote) => Quiet(AddCircuit(n, sid, remote))
    case Secures(sid, peer) => Quiet(n.(secured := n.secured[sid := peer]))
  }

  // ----- agreement of session table and stream index -----

  /** A session's pair: at most two streams, distinct, all indexed under the session. */
  predicate Sound(n: Node, sid: Sid)
    requires sid in n.sessions
  {
    var pair := n.sessions[sid].pair;
    && sid != UNBOUND && |pair| <= 2 && (|pair| == 2 ==> pair[0].id != pair[1].id)
    && forall j :: 0 <= j < |pair| ==> pair[j].id in n.streams && n.streams[pair[j].id].sid == sid
  }

  predicate Agrees(n: Node) {
    forall sid :: sid in n.sessions ==> Sound(n, sid)
  }

  /** Some session other than `sid` has stream `id` in its pair. */
  predicate HeldElsewhere(n: Node, sid: Sid, id: StreamId) {
    exists other :: other in n.sessions && other != sid && n.sessions[other].Has(id)
  }

  predicate Holds(n: Node, sid: Sid, id: StreamId) {
    sid in n.sessions && n.sessions[sid].Has(id)
  }

  predicate IsFull(n: Node, sid: Sid) {
    sid in n.sessions && n.sessions[sid].IsReady()
  }

  /** What the caller of an operation has to see to: a stream serves one session, once. */
  predicate Fair(n: Node, op: Op) {
    match op
    case Opens(s) => !HeldElsewhere(n, UNBOUND, s.id)
    case Handles(SetSession(sid, role), s, _) =>
      Accepts(n, sid, role) ==>
        && sid != UNBOUND && !HeldElsewhere(n, sid, s.id)
        && (if IsSwap(n, sid, role) then n.sessions[sid].pair[0].id != s.id
            else IsFull(n, sid) || !Holds(n, sid, s.id))
    case Completes(sid, role, s) =>
      if IsFull(n, sid) then s.id in n.streams ==> !HeldElsewhere(n, sid, s.id)
      else sid != UNBOUND && s.id in n.streams && !HeldElsewhere(n, sid, s.id) && !Holds(n, sid, s.id)
    case _ => true
  }

  /** Every stream belongs to at most one session. */
  lemma OneSession(n: Node, a: Sid, b: Sid, id: StreamId)
    requires Agrees(n) && Holds(n, a, id) && Holds(n, b, id)
    ensures a == b
  {
    var i :| 0 <= i < |n.sessions[a].pair| && n.sessions[a].pair[i].id == id;
    var j :| 0 <= j < |n.sessions[b].pair| && n.sessions[b].pair[j].id == id;
    assert Sound(n, a) && Sound(n, b);
  }

  /** Sessions may only go, the index only loses streams that no remaining session holds. */
  predicate Shrinks(n: Node, n': Node) {
    && (forall sid :: sid in n'.sessions ==> sid in n.sessions && n'.sessions[sid] == n.sessions[sid])
    && (forall sid, j :: sid in n'.sessions && 0 <= j < |n'.sessions[sid].pair| ==>
          var id := n'.sessions[sid].pair[j].id;
          id in n.streams ==> id in n'.streams && n'.streams[id] == n.streams[id])
  }

  lemma ShrinksAgrees(n: Node, n': Node)
    requires Agrees(n) && Shrinks(n, n')
    ensures Agrees(n')
  {
    forall sid | sid in n'.sessions
      ensures Sound(n', sid)
    {
      assert Sound(n, sid);
    }
  }

  /** The index stays, the session stays or goes, and no other session is touched. */
  predicate Dims(n: Node, n': Node, sid: Sid) {
    && OthersSame(n, n', sid) && n'.streams == n.streams
    && (sid in n'.sessions ==> sid in n.sessions && n'.sessions[sid] == n.sessions[sid])
  }

  lemma DimsShrinks(n: Node, n': Node, sid: Sid)
    requires Dims(n, n', sid)
    ensures Shrinks(n, n')
  {
    forall x | x in n'.sessions
      ensures x in n.sessions && n'.sessions[x] == n.sessions[x]
    {
      if x != sid {
        assert x in n'.sessions - {sid} && (n'.sessions - {sid})[x] == n'.sessions[x];
      }
    }
  }

  lemma PassOnDims(n: Node, sid: Sid, msg: Msg, from: StreamId, closeOnError: bool, bad: set<StreamId>)
    requires sid in n.sessions
    ensures Dims(n, PassOn(n, sid, msg, from, closeOnError, bad).node, sid)
  {
  }

  lemma BroadcastDims(n: Node, sid: Sid, msg: Msg, skip: Option<Peer>, bad: set<StreamId>)
    ensures Dims(n, Broadcast(n, sid, msg, skip, bad).node, sid)
  {
  }

  lemma DisconnectDims(n: Node, sid: Sid, from: Stream, bad: set<StreamId>)
    ensures Dims(n, HandleDisconnect(n, sid, from, bad).node, sid)
  {
    BroadcastDims(n, sid, Disconnect(sid), Some(from.remote), bad);
  }

  lemma CloseDims(n: Node, sid: Sid, bad: set<StreamId>)
    ensures Dims(n, CloseCircuit(n, sid, bad).node, sid)
  {
  }

  lemma ProbeDims(n: Node, sid: Sid, rand: bytes, from: Stream, bad: set<StreamId>)
    ensures Dims(n, HandleProbe(n, sid, rand, from, bad).node, sid)
  {
    hide Broadcast, PassOn, CloseCircuit, Dims;
    CloseDims(n, sid, bad);
    BroadcastDims(n, sid, Success(sid), None, bad);
    OwnDims(n, n.(probes := n.probes[sid := rand]), sid);
    OwnDims(n, n, sid);
    if sid in n.sessions {
      PassOnDims(n, sid, Probe(sid, rand), from.id, false, bad);
    }
  }

  /** Entries of the session itself may change. */
  lemma OwnDims(n: Node, n': Node, sid: Sid)
    requires n' == n.(circuits := n'.circuits, probes := n'.probes)
    requires n'.circuits == n.circuits || (sid in n'.circuits && n'.circuits == n.circuits[sid := n'.circuits[sid]])
    requires n'.probes == n.probes || (sid in n'.probes && n'.probes == n.probes[sid := n'.probes[sid]])
    ensures Dims(n, n', sid)
  {
  }

  /** A message of one session that sets up none touches nothing of any other session. */
  lemma HandleDims(n: Node, msg: Msg, from: Stream, sid: Sid, bad: set<StreamId>)
    requires Travels(msg, sid)
    ensures Dims(n, Handle(n, msg, from, bad).node, sid)
  {
    hide Dims, PassOn, HandleProbe, HandleDisconnect;
    OwnDims(n, n, sid);
    match msg {
      case Wake =>
      case Malformed =>
      case Data(_, payload) =>
        if sid in n.sessions { PassOnDims(n, sid, msg, from.id, true, bad); }
        if sid in n.circuits {
          var conn := n.circuits[sid].(inbox := n.circuits[sid].inbox + payload);
          OwnDims(n, n.(circuits := n.circuits[sid := conn]), sid);
        }
      case Probe(_, rand) => ProbeDims(n, sid, rand, from, bad);
      case Disconnect(_) => DisconnectDims(n, sid, from, bad);
      case Success(_) =>
        if sid in n.sessions { PassOnDims(n, sid, msg, from.id, false, bad); }
        if sid in n.circuits {
          OwnDims(n, n.(circuits := n.circuits[sid := n.circuits[sid].(ready := true)]), sid);
        }
    }
  }

  /** Closing a stream under agreement. */
  lemma NoticeShrinks(n: Node, id: StreamId, bad: set<StreamId>)
    requires Agrees(n)
    ensures Shrinks(n, HandleStreamClosed(n, id, bad).node)
  {
    var n' := HandleStreamClosed(n, id, bad).node;
    forall sid, j | sid in n'.sessions && 0 <= j < |n'.sessions[sid].pair|
      ensures n'.sessions[sid].pair[j].id in n'.streams
    {
      assert Sound(n, sid);
    }
  }

  // ----- the three operations that bind streams -----

  lemma OpensAgrees(n: Node, s: Stream)
    requires Agrees(n)
    ensures Agrees(AddStream(n, s)) <==> !HeldElsewhere(n, UNBOUND, s.id)
  {
    var n' := AddStream(n, s);
    if HeldElsewhere(n, UNBOUND, s.id) {
      var sid :| sid in n.sessions && sid != UNBOUND && n.sessions[sid].Has(s.id);
      assert !Sound(n', sid);
    } else {
      forall sid | sid in n.sessions
        ensures Sound(n', sid)
      {
        assert Sound(n, sid);
        forall j | 0 <= j < |n.sessions[sid].pair|
          ensures n.sessions[sid].pair[j].id != s.id
        {
          assert n.sessions[sid].Has(n.sessions[sid].pair[j].id);
        }
      }
    }
  }

  /** Storing a session and binding its new stream. */
  function Bound(n: Node, sid: Sid, sess: Session, streams: map<StreamId, StreamInfo>): Node {
    n.(sessions := n.sessions[sid := sess], streams := streams)
  }

  /** The other sessions stay sound exactly when none of them holds the stream. */
  lemma OthersSound(n: Node, sid: Sid, sess: Session, id: StreamId, streams: map<StreamId, StreamInfo>)
    requires Agrees(n) && id in streams && streams[id].sid == sid
    requires forall x :: x in n.streams && x != id && !Holds(n, sid, x) ==> x in streams && streams[x] == n.streams[x]
    ensures (forall other :: other in n.sessions && other != sid ==> Sound(Bound(n, sid, sess, streams), other))
            <==> !HeldElsewhere(n, sid, id)
  {
    var n' := Bound(n, sid, sess, streams);
    if HeldElsewhere(n, sid, id) {
      var other :| other in n.sessions && other != sid && n.sessions[other].Has(id);
      assert !Sound(n', other);
    } else {
      forall other | other in n.sessions && other != sid
        ensures Sound(n', other)
      {
        assert Sound(n, other);
        forall j | 0 <= j < |n.sessions[other].pair|
          ensures var x := n.sessions[other].pair[j].id; x in streams && streams[x] == n.streams[x]
        {
          var x := n.sessions[other].pair[j].id;
          assert n.sessions[other].Has(x);
          if Holds(n, sid, x) { OneSession(n, sid, other, x); }
        }
      }
    }
  }

  lemma AgreesOnly(n: Node, n': Node)
    requires n'.sessions == n.sessions && n'.streams == n.streams
    ensures Agrees(n') <==> Agrees(n)
  {
    assert forall sid | sid in n.sessions :: Sound(n', sid) <==> Sound(n, sid);
  }

  lemma BindAgrees(n: Node, sid: Sid, sess: Session, id: StreamId, streams: map<StreamId, StreamInfo>)
    requires Agrees(n) && id in streams && streams[id].sid == sid
    requires forall x :: x in n.streams && x != id && !Holds(n, sid, x) ==> x in streams && streams[x] == n.streams[x]
    ensures Agrees(Bound(n, sid, sess, streams))
            <==> !HeldElsewhere(n, sid, id) && Sound(Bound(n, sid, sess, streams), sid)
  {
    OthersSound(n, sid, sess, id, streams);
    var n' := Bound(n, sid, sess, streams);
    assert forall x :: x in n'.sessions <==> x == sid || x in n.sessions;
  }

  /** Adding stream s to the session (a new one if there was none) and indexing it. */
  lemma ExtendAgrees(n: Node, sid: Sid, role: Role, s: Stream, info: StreamInfo)
    requires Agrees(n) && info.sid == sid
    ensures Agrees(Bound(n, sid, Extended(n, sid, role, s), n.streams[s.id := info]))
            <==> sid != UNBOUND && !HeldElsewhere(n, sid, s.id) && (IsFull(n, sid) || !Holds(n, sid, s.id))
  {
    var (sess, streams) := (Extended(n, sid, role, s), n.streams[s.id := info]);
    BindAgrees(n, sid, sess, s.id, streams);
    hide Agrees, HeldElsewhere, Sound, Holds;
    if IsFull(n, sid) {
      FullSound(n, sid, role, s, info);
    } else {
      GrownSound(n, sid, role, s, info);
    }
  }

  /** A full session does not change. */
  lemma FullSound(n: Node, sid: Sid, role: Role, s: Stream, info: StreamInfo)
    requires Agrees(n) && info.sid == sid && IsFull(n, sid)
    ensures sid != UNBOUND && Sound(Bound(n, sid, Extended(n, sid, role, s), n.streams[s.id := info]), sid)
  {
    SoundOf(n, sid);
    hide Agrees;
    assert Extended(n, sid, role, s) == n.sessions[sid];
  }

  /** A session that takes one more stream is sound iff it did not hold it before. */
  lemma GrownSound(n: Node, sid: Sid, role: Role, s: Stream, info: StreamInfo)
    requires Agrees(n) && info.sid == sid && !IsFull(n, sid)
    ensures Sound(Bound(n, sid, Extended(n, sid, role, s), n.streams[s.id := info]), sid)
            <==> sid != UNBOUND && !Holds(n, sid, s.id)
  {
    var pair := PairOf(n, sid);
    if sid in n.sessions { SoundOf(n, sid); }
    hide Agrees;
    assert |pair| < 2;
    if |pair| == 1 {
      assert Extended(n, sid, role, s).pair == [pair[0], s];
      OneHeld(n, sid, s.id);
    } else {
      assert Extended(n, sid, role, s).pair == [s];
    }
  }

  lemma OneHeld(n: Node, sid: Sid, id: StreamId)
    requires sid in n.sessions && |n.sessions[sid].pair| == 1
    ensures Holds(n, sid, id) <==> n.sessions[sid].pair[0].id == id
  {
    assert n.sessions[sid].pair[0].id == id ==> n.sessions[sid].Has(id);
  }

  lemma SoundOf(n: Node, sid: Sid)
    requires Agrees(n) && sid in n.sessions
    ensures Sound(n, sid)
  {
  }

  /** The swap: the second stream of the pair leaves the index, s takes its place. */
  lemma SwapAgrees(n: Node, sid: Sid, s: Stream)
    requires Agrees(n) && IsFull(n, sid)
    ensures var sess := n.sessions[sid];
            var streams := (n.streams - {sess.pair[1].id})[s.id := StreamInfo(s, sid)];
            Agrees(Bound(n, sid, sess.(pair := [sess.pair[0], s]), streams))
            <==> !HeldElsewhere(n, sid, s.id) && sess.pair[0].id != s.id
  {
    var sess := n.sessions[sid];
    var streams := (n.streams - {sess.pair[1].id})[s.id := StreamInfo(s, sid)];
    assert Holds(n, sid, sess.pair[1].id);
    BindAgrees(n, sid, sess.(pair := [sess.pair[0], s]), s.id, streams);
    SoundOf(n, sid);
  }

  /** What an accepted SetSession does to session table and index. */
  lemma SetSessionShape(n: Node, sid: Sid, role: Role, s: Stream, bad: set<StreamId>)
    requires Accepts(n, sid, role)
    ensures var n' := HandleSetSession(n, sid, role, s, bad).node;
            && (IsSwap(n, sid, role) ==>
                  var sess := n.sessions[sid];
                  var b := Bound(n, sid, sess.(pair := [sess.pair[0], s]),
                      (n.streams - {sess.pair[1].id})[s.id := StreamInfo(s, sid)]);
                  n'.sessions == b.sessions && n'.streams == b.streams)
            && (!IsSwap(n, sid, role) ==>
                  var b := Bound(n, sid, Extended(n, sid, role, s), n.streams[s.id := StreamInfo(s, sid)]);
                  n'.sessions == b.sessions && n'.streams == b.streams)
  {
  }

  /** SetSession keeps the agreement exactly when the stream serves no other session and this one only once. */
  lemma SetSessionAgrees(n: Node, sid: Sid, role: Role, s: Stream, bad: set<StreamId>)
    requires Agrees(n)
    ensures Agrees(HandleSetSession(n, sid, role, s, bad).node) <==> Fair(n, Handles(SetSession(sid, role), s, bad))
  {
    hide Agrees, HeldElsewhere;
    var n' := HandleSetSession(n, sid, role, s, bad).node;
    if !Accepts(n, sid, role) {
      CloseDims(n, sid, bad);
      hide CloseCircuit;
      DimsShrinks(n, n', sid);
      ShrinksAgrees(n, n');
    } else {
      SetSessionShape(n, sid, role, s, bad);
      hide HandleSetSession;
      if IsSwap(n, sid, role) {
        var sess := n.sessions[sid];
        SwapAgrees(n, sid, s);
        SoundOf(n, sid);
        AgreesOnly(Bound(n, sid, sess.(pair := [sess.pair[0], s]),
            (n.streams - {sess.pair[1].id})[s.id := StreamInfo(s, sid)]), n');
      } else {
        ExtendAgrees(n, sid, role, s, StreamInfo(s, sid));
        AgreesOnly(Bound(n, sid, Extended(n, sid, role, s), n.streams[s.id := StreamInfo(s, sid)]), n');
      }
    }
  }

  lemma CompletesAgrees(n: Node, sid: Sid, role: Role, s: Stream)
    requires Agrees(n)
    ensures Agrees(CompleteSetSession(n, sid, role, s)) <==> Fair(n, Completes(sid, role, s))
  {
    hide Agrees, HeldElsewhere;
    var n' := CompleteSetSession(n, sid, role, s);
    if s.id in n.streams {
      ExtendAgrees(n, sid, role, s, n.streams[s.id].(sid := sid));
      AgreesOnly(Bound(n, sid, Extended(n, sid, role, s), n.streams[s.id := n.streams[s.id].(sid := sid)]), n');
      if IsFull(n, sid) { SoundOf(n, sid); }
    } else if IsFull(n, sid) {
      assert n'.sessions == n.sessions;
      AgreesOnly(n, n');
    } else {
      var sess := Extended(n, sid, role, s);
      assert n'.sessions[sid].pair[|sess.pair| - 1] == s;
      NotSound(n', sid);
    }
  }

  lemma NotSound(n: Node, sid: Sid)
    requires sid in n.sessions && !Sound(n, sid)
    ensures !Agrees(n)
  {
  }

  // ----- whole runs -----

  /** An operation keeps the agreement exactly when it is fair. */
  lemma StepAgrees(n: Node, op: Op)
    requires Agrees(n)
    ensures Agrees(Apply(n, op).node) <==> Fair(n, op)
  {
    hide Agrees, HeldElsewhere, Handle, HandleSetSession, CompleteSetSession, SendRelay, CloseCircuit,
        HandleStreamClosed;
    var n' := Apply(n, op).node;
    match op
    case Opens(s) => OpensAgrees(n, s);
    case Completes(sid, role, s) => CompletesAgrees(n, sid, role, s);
    case Handles(msg, from, bad) =>
      if msg.SetSession? {
        SetSessionAgrees(n, msg.sid, msg.role, from, bad);
        HandlesSetSession(n, msg.sid, msg.role, from, bad);
      } else {
        var sid := Subject(n, op);
        HandleDims(n, msg, from, sid, bad);
        DimsShrinks(n, n', sid);
        ShrinksAgrees(n, n');
      }
    case Sends(sid, msg, bad) =>
      SendDims(n, sid, msg, bad);
      DimsShrinks(n, n', sid);
      ShrinksAgrees(n, n');
    case Closes(sid, bad) =>
      CloseDims(n, sid, bad);
      DimsShrinks(n, n', sid);
      ShrinksAgrees(n, n');
    case Notices(id, bad) =>
      NoticeShrinks(n, id, bad);
      ShrinksAgrees(n, n');
    case Dials(sid, remote) => AgreesOnly(n, n');
    case Secures(sid, peer) => AgreesOnly(n, n');
  }

  lemma HandlesSetSession(n: Node, sid: Sid, role: Role, s: Stream, bad: set<StreamId>)
    ensures Handle(n, SetSession(sid, role), s, bad) == HandleSetSession(n, sid, role, s, bad)
  {
  }

  lemma SendDims(n: Node, sid: Sid, msg: Msg, bad: set<StreamId>)
    ensures Dims(n, SendRelay(n, sid, msg, bad).node, sid)
  {
    BroadcastDims(n, sid, msg, None, bad);
  }

  predicate IsRun(nodes: seq<Node>, ops: seq<Op>) {
    && |nodes| == |ops| + 1
    && forall i :: 0 <= i < |ops| ==> nodes[i + 1] == Apply(nodes[i], ops[i]).node
  }

  /**
    Main result. Along every run from an agreeing node, session table and stream index agree in
    every state if and only if every operation was fair when it was performed.
  */
  lemma {:induction false} RunAgrees(nodes: seq<Node>, ops: seq<Op>)
    requires IsRun(nodes, ops) && Agrees(nodes[0])
    ensures (forall i :: 0 <= i < |nodes| ==> Agrees(nodes[i]))
            <==> (forall i :: 0 <= i < |ops| ==> Fair(nodes[i], ops[i]))
    decreases |ops|
  {
    hide Agrees, Apply, Fair;
    if ops != [] {
      assert nodes[1] == Apply(nodes[0], ops[0]).node;
      StepAgrees(nodes[0], ops[0]);
      if Agrees(nodes[1]) {
        var (ns, os) := (nodes[1..], ops[1..]);
        assert (forall i :: 0 <= i < |os| ==> os[i] == ops[i + 1])
            && (forall i :: 0 <= i < |ns| ==> ns[i] == nodes[i + 1]);
        RunAgrees(ns, os);
        assert forall i :: 0 <= i < |nodes| ==> i == 0 || nodes[i] == ns[i - 1];
        assert forall i :: 0 <= i < |ops| ==> i == 0 || ops[i] == os[i - 1];
      }
    }
  }

  // ----- what an operation is about -----

  function Subject(n: Node, op: Op): Sid {
    match op
    case Opens(_) => UNBOUND
    case Handles(msg, _, _) => if msg.Wake? || msg.Malformed? then UNBOUND else msg.sid
    case Notices(id, _) => if id in n.streams then n.streams[id].sid else UNBOUND
    case _ => op.sid
  }

  lemma StoreSame(n: Node, n': Node, sid: Sid)
    requires sid in n'.sessions && n'.sessions == n.sessions[sid := n'.sessions[sid]]
    requires n' == n.(sessions := n'.sessions, streams := n'.streams, circuits := n'.circuits)
    requires n'.circuits == n.circuits || (sid in n'.circuits && n'.circuits == n.circuits[sid := n'.circuits[sid]])
    ensures OthersSame(n, n', sid)
  {
  }

  lemma SetSessionSame(n: Node, sid: Sid, role: Role, s: Stream, bad: set<StreamId>)
    ensures OthersSame(n, HandleSetSession(n, sid, role, s, bad).node, sid)
  {
    hide CloseCircuit, OthersSame, Extended;
    var n' := HandleSetSession(n, sid, role, s, bad).node;
    if Accepts(n, sid, role) {
      StoreSame(n, n', sid);
    } else {
      CloseSame(n, sid, bad);
    }
  }

  lemma CloseSame(n: Node, sid: Sid, bad: set<StreamId>)
    ensures OthersSame(n, CloseCircuit(n, sid, bad).node, sid) && OthersSame(n, n, sid)
  {
    CloseDims(n, sid, bad);
  }

  /** No operation touches an entry of a session it is not about. */
  lemma StepFrame(n: Node, op: Op)
    ensures OthersSame(n, Apply(n, op).node, Subject(n, op))
  {
    hide Handle, HandleSetSession, SendRelay, CloseCircuit;
    var sid := Subject(n, op);
    match op
    case Opens(s) =>
    case Completes(_, role, s) =>
    case Handles(msg, from, bad) =>
      if msg.SetSession? {
        SetSessionSame(n, sid, msg.role, from, bad);
        HandlesSetSession(n, sid, msg.role, from, bad);
      } else {
        HandleDims(n, msg, from, sid, bad);
      }
    case Sends(_, msg, bad) => SendDims(n, sid, msg, bad);
    case Closes(_, bad) => CloseDims(n, sid, bad);
    case Notices(id, bad) => CloseDims(n, sid, bad);
    case Dials(_, remote) =>
    case Secures(_, peer) =>
  }

  /** Closing any stream of a live session removes exactly that session and closes all its streams. */
  lemma ClosingRemovesOne(n: Node, sid: Sid, id: StreamId, bad: set<StreamId>)
    requires Agrees(n) && Holds(n, sid, id)
    ensures var e := HandleStreamClosed(n, id, bad);
            && e.node.sessions == n.sessions - {sid} && e.node.circuits == n.circuits - {sid}
            && e.node.secured == n.secured - {sid} && e.node.probes == n.probes - {sid}
            && e.node.streams == n.streams - {id} && e.shut == n.sessions[sid].pair
  {
    var i :| 0 <= i < |n.sessions[sid].pair| && n.sessions[sid].pair[i].id == id;
    assert Sound(n, sid);
  }

  /** Without the premise: a stream taken into a second session leaves the first one standing when it closes. */
  lemma SharedStreamLeaks(n: Node, a: Sid, b: Sid, s: Stream, role: Role, bad: set<StreamId>)
    requires Agrees(n) && Holds(n, a, s.id) && b != a && b !in n.sessions && !Refuses(n, role) && b != UNBOUND
    ensures var n1 := HandleSetSession(n, b, role, s, bad).node;
            !Agrees(n1) && Holds(HandleStreamClosed(n1, s.id, bad).node, a, s.id)
  {
    assert HeldElsewhere(n, b, s.id);
    SetSessionAgrees(n, b, role, s, bad);
  }

  // ----- the entry as relay -----

  /**
    The swap keeps the caller's stream in slot 0 and the role, makes the new stream the second
    one, sends Disconnect to the old joint stream and nothing else, closes nothing and takes the
    old joint stream out of the index.
  */
  lemma SwapKeepsCaller(n: Node, sid: Sid, s: Stream, bad: set<StreamId>)
    requires Agrees(n) && IsSwap(n, sid, Relayer) && IsFull(n, sid) && !HeldElsewhere(n, sid, s.id)
        && !Holds(n, sid, s.id)
    ensures var (e, former) := (HandleSetSession(n, sid, Relayer, s, bad), n.sessions[sid].pair[1]);
            && Accepts(n, sid, Relayer) && Agrees(e.node)
            && sid in e.node.sessions && e.node.sessions[sid] == Session(Entry, [n.sessions[sid].pair[0], s])
            && e.sends == (if former.id in bad then [] else [Send(former, Disconnect(sid))]) && e.shut == []
            && former.id !in e.node.streams && OthersSame(n, e.node, sid)
  {
    var pair := n.sessions[sid].pair;
    assert pair[0].id != s.id && pair[1].id != s.id;
    SetSessionAgrees(n, sid, Relayer, s, bad);
    SetSessionShape(n, sid, Relayer, s, bad);
    SetSessionSame(n, sid, Relayer, s, bad);
  }

  /** The stream, if indexed at all, is not indexed under the session. */
  predicate NotOurs(n: Node, id: StreamId, sid: Sid) {
    id in n.streams ==> n.streams[id].sid != sid
  }

  /** Whether the operation binds stream `id` to the session. */
  predicate Binds(op: Op, id: StreamId, sid: Sid) {
    || (op.Handles? && op.msg.SetSession? && op.msg.sid == sid && op.from.id == id)
    || (op.Completes? && op.sid == sid && op.s.id == id)
  }

  lemma StaysNotOurs(n: Node, op: Op, id: StreamId, sid: Sid)
    requires NotOurs(n, id, sid) && !Binds(op, id, sid) && sid != UNBOUND
    ensures NotOurs(Apply(n, op).node, id, sid)
  {
    hide Handle, HandleSetSession, SendRelay, CloseCircuit;
    match op
    case Opens(s) =>
    case Completes(_, role, s) =>
    case Handles(msg, from, bad) =>
      if msg.SetSession? {
        SetSessionIndex(n, msg.sid, msg.role, from, bad);
        HandlesSetSession(n, msg.sid, msg.role, from, bad);
      } else {
        HandleDims(n, msg, from, Subject(n, op), bad);
      }
    case Sends(x, msg, bad) => SendDims(n, x, msg, bad);
    case Closes(x, bad) => CloseDims(n, x, bad);
    case Notices(x, bad) => CloseDims(n, Subject(n, op), bad);
    case Dials(_, remote) =>
    case Secures(_, peer) =>
  }

  /** SetSession binds its own stream to its own session; all other entries stay or go. */
  lemma SetSessionIndex(n: Node, sid: Sid, role: Role, s: Stream, bad: set<StreamId>)
    ensures var n' := HandleSetSession(n, sid, role, s, bad).node;
            && n'.streams.Keys <= n.streams.Keys + {s.id}
            && (forall x :: x in n'.streams ==>
                  (x == s.id && n'.streams[x].sid == sid) || (x in n.streams && n'.streams[x] == n.streams[x]))
  {
  }

  /** Whatever a closing does, it leaves this session alone. */
  predicate Spares(n: Node, n': Node, sid: Sid) {
    && (sid in n'.sessions <==> sid in n.sessions) && (sid in n.sessions ==> n'.sessions[sid] == n.sessions[sid])
    && (sid in n'.circuits <==> sid in n.circuits) && (sid in n.circuits ==> n'.circuits[sid] == n.circuits[sid])
    && (sid in n'.secured <==> sid in n.secured) && (sid in n.secured ==> n'.secured[sid] == n.secured[sid])
  }

  lemma ClosingSpares(n: Node, id: StreamId, sid: Sid, bad: set<StreamId>)
    requires NotOurs(n, id, sid)
    ensures Spares(n, HandleStreamClosed(n, id, bad).node, sid)
  {
  }

  /** A swap makes the old joint stream such a stream. */
  lemma SwapLetsGo(n: Node, sid: Sid, s: Stream, bad: set<StreamId>)
    requires Agrees(n) && IsSwap(n, sid, Relayer) && IsFull(n, sid) && !HeldElsewhere(n, sid, s.id)
        && !Holds(n, sid, s.id)
    ensures NotOurs(HandleSetSession(n, sid, Relayer, s, bad).node, n.sessions[sid].pair[1].id, sid)
  {
    SwapKeepsCaller(n, sid, s, bad);
  }

  /**
    After the swap, along every run that does not bind the old joint stream to the session again,
    even one that uses it for other sessions, its closing never touches the swapped session.
  */
  lemma {:induction false} FormerStreamIsHarmless(nodes: seq<Node>, ops: seq<Op>, id: StreamId, sid: Sid,
                                                  bad: set<StreamId>)
    requires IsRun(nodes, ops) && NotOurs(nodes[0], id, sid) && sid != UNBOUND
    requires forall i :: 0 <= i < |ops| ==> !Binds(ops[i], id, sid)
    ensures forall i :: 0 <= i < |nodes| ==> Spares(nodes[i], HandleStreamClosed(nodes[i], id, bad).node, sid)
    decreases |ops|
  {
    ClosingSpares(nodes[0], id, sid, bad);
    hide Apply, Spares, NotOurs, HandleStreamClosed;
    if ops != [] {
      var (ns, os) := (nodes[1..], ops[1..]);
      assert nodes[1] == Apply(nodes[0], ops[0]).node;
      StaysNotOurs(nodes[0], ops[0], id, sid);
      assert (forall i :: 0 <= i < |os| ==> os[i] == ops[i + 1])
          && (forall i :: 0 <= i < |ns| ==> ns[i] == nodes[i + 1]);
      FormerStreamIsHarmless(ns, os, id, sid, bad);
      assert forall i :: 0 <= i < |nodes| ==> i == 0 || nodes[i] == ns[i - 1];
    }
  }
}
