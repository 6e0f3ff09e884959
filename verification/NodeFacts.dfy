/** Facts about single handlers that every later argument uses. */
module NodeFacts {
  import opened Basics
  import opened Relay

  /** The session survives unchanged, or it is gone. */
  predicate KeepsOrDrops(n: Node, n': Node, sid: Sid) {
    && n'.me == n.me && n'.mode == n.mode
    && (sid in n'.sessions ==> sid in n.sessions && n'.sessions[sid] == n.sessions[sid])
  }

  /** A message that belongs to session `sid` and does not itself set up a session. */
  predicate Travels(msg: Msg, sid: Sid) {
    match msg
    case Wake => true
    case Malformed => true
    case SetSession(_, _) => false
    case Data(s, _) => s == sid
    case Probe(s, _) => s == sid
    case Disconnect(s) => s == sid
    case Success(s) => s == sid
  }

  predicate AllTravel(sends: seq<Send>, sid: Sid) {
    forall i :: 0 <= i < |sends| ==> Travels(sends[i].msg, sid)
  }

  /** Every send goes to a stream of `pair`. */
  predicate Within(sends: seq<Send>, pair: seq<Stream>) {
    forall i :: 0 <= i < |sends| ==> sends[i].to in pair
  }

  predicate CarriesProbe(sends: seq<Send>) {
    exists i :: 0 <= i < |sends| && sends[i].msg.Probe?
  }

  /** Entries of all other sessions are as before. */
  predicate OthersSame(n: Node, n': Node, sid: Sid) {
    && n'.me == n.me && n'.mode == n.mode
    && n'.sessions - {sid} == n.sessions - {sid} && n'.circuits - {sid} == n.circuits - {sid}
    && n'.secured - {sid} == n.secured - {sid} && n'.probes - {sid} == n.probes - {sid}
  }

  lemma WriteRoundFacts(pair: seq<Stream>, msg: Msg, skip: Option<Peer>, bad: set<StreamId>)
    ensures forall i :: 0 <= i < |WriteRound(pair, msg, skip, bad)| ==>
                          var s := WriteRound(pair, msg, skip, bad)[i];
                          s.msg == msg && s.to in pair && skip != Some(s.to.remote)
  {
    if pair != [] {
      WriteRoundFacts(pair[1..], msg, skip, bad);
    }
  }

  lemma FarewellFacts(pair: seq<Stream>, sid: Sid, bad: set<StreamId>)
    ensures forall i :: 0 <= i < |Farewells(pair, sid, bad)| ==>
                          var s := Farewells(pair, sid, bad)[i];
                          s.msg == Disconnect(sid) && s.to in pair
  {
    if pair != [] {
      FarewellFacts(pair[1..], sid, bad);
    }
  }

  /** What acting on behalf of session `sid` can do: keep or drop it, write travelling messages to its pair. */
  predicate Mild(n: Node, e: Effect, sid: Sid) {
    && KeepsOrDrops(n, e.node, sid) && AllTravel(e.sends, sid) && Within(e.sends, PairOf(n, sid))
    && (sid in e.node.probes ==> sid in n.probes)
  }

  lemma CloseFacts(n: Node, sid: Sid, bad: set<StreamId>)
    ensures var e := CloseCircuit(n, sid, bad);
            && Mild(n, e, sid) && !CarriesProbe(e.sends) && sid !in e.node.sessions
            && e.node.streams == n.streams && sid !in e.node.probes
  {
    FarewellFacts(PairOf(n, sid), sid, bad);
  }

  lemma BroadcastFacts(n: Node, sid: Sid, msg: Msg, skip: Option<Peer>, bad: set<StreamId>)
    requires Travels(msg, sid)
    ensures var e := Broadcast(n, sid, msg, skip, bad); Mild(n, e, sid) && (!msg.Probe? ==> !CarriesProbe(e.sends))
  {
    var pair := PairOf(n, sid);
    CloseFacts(n, sid, bad);
    WriteRoundFacts(pair, msg, skip, bad);
  }

  lemma PassOnFacts(n: Node, sid: Sid, msg: Msg, from: StreamId, closeOnError: bool, bad: set<StreamId>)
    requires Travels(msg, sid) && sid in n.sessions
    ensures var e := PassOn(n, sid, msg, from, closeOnError, bad);
            Mild(n, e, sid) && (!msg.Probe? ==> !CarriesProbe(e.sends))
  {
    CloseFacts(n, sid, bad);
  }

  lemma ProbeFacts(n: Node, sid: Sid, rand: bytes, from: Stream, bad: set<StreamId>)
    ensures var e := HandleProbe(n, sid, rand, from, bad);
            if sid in n.sessions && n.sessions[sid].role == Joint && sid !in n.probes
            then e == Quiet(n.(probes := n.probes[sid := rand]))
            else Mild(n, e, sid)
  {
    CloseFacts(n, sid, bad);
    BroadcastFacts(n, sid, Success(sid), None, bad);
    if sid in n.sessions {
      PassOnFacts(n, sid, Probe(sid, rand), from.id, false, bad);
    }
  }

  lemma DisconnectFacts(n: Node, sid: Sid, from: Stream, bad: set<StreamId>)
    ensures var e := HandleDisconnect(n, sid, from, bad);
            Mild(n, e, sid) && !CarriesProbe(e.sends) && sid !in e.node.sessions && sid !in e.node.probes
  {
    BroadcastFacts(n, sid, Disconnect(sid), Some(from.remote), bad);
  }

  lemma QuietFacts(n: Node, n': Node, sid: Sid)
    requires n' == n.(circuits := n'.circuits)
    ensures Mild(n, Quiet(n'), sid) && !CarriesProbe(Quiet(n').sends)
  {
  }

  /** A travelling message other than a probe changes a session only by removing it and sends no probe. */
  lemma HandleFacts(n: Node, msg: Msg, from: Stream, sid: Sid, bad: set<StreamId>)
    requires Travels(msg, sid) && !msg.Probe?
    ensures var e := Handle(n, msg, from, bad); Mild(n, e, sid) && !CarriesProbe(e.sends)
  {
    match msg
    case Wake => QuietFacts(n, n, sid);
    case Malformed => QuietFacts(n, n, sid);
    case Disconnect(_) => DisconnectFacts(n, sid, from, bad);
    case Data(_, _) =>
      QuietFacts(n,
          HandleData(n, sid, msg.payload, from, bad).node.(sessions := n.sessions, streams := n.streams,
              probes := n.probes, secured := n.secured), sid);
      if sid in n.sessions { PassOnFacts(n, sid, msg, from.id, true, bad); }
    case Success(_) =>
      if sid in n.sessions { PassOnFacts(n, sid, msg, from.id, false, bad); }
  }
}
