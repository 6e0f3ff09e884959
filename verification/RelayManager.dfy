/**
  RelayMsgManager as the mutable object it is: maps stored to and deleted from, loops that write
  to each stream of a pair. Every method is proved to perform exactly the effect that module
  Relay assigns to it, so all results about nodes hold of this object.
*/
module RelayManager {
  import opened Basics
  import R = Relay
  import opened Noise
  import opened Handshake
  import opened SecureConn
  import Answers
  import NodeRuns
  import Conservation

  // ----- network/session/session.go: the loops over a pair -----

  /** AddStream: append, then drop from the front while more than two are held. */
  method AddToSession(sess: R.Session, s: R.Stream) returns (r: R.Session)
    ensures r == sess.AddStream(s)
  {
    if |sess.pair| == 2 {
      return sess;
    }
    var pair := sess.pair + [s];
    ghost var grown := pair;
    while |pair| > 2
      invariant |pair| <= |grown| && pair == grown[|grown| - |pair|..] && |pair| >= Min(2, |grown|)
      decreases |pair|
    {
      pair := pair[1..];
    }
    r := sess.(pair := pair);
  }

  method HasStream(sess: R.Session, id: R.StreamId) returns (found: bool)
    ensures found <==> sess.Has(id)
  {
    for i := 0 to |sess.pair|
      invariant forall j :: 0 <= j < i ==> sess.pair[j].id != id
    {
      if sess.pair[i].id == id {
        return true;
      }
    }
    return false;
  }

  /** GetPattern: the index of the other stream is the index found with its last bit flipped. */
  method PartnerOf(sess: R.Session, id: R.StreamId) returns (partner: Option<R.Stream>)
    ensures partner == sess.GetPattern(id)
  {
    if |sess.pair| != 2 {
      return None;
    }
    for i := 0 to |sess.pair|
      invariant forall j :: 0 <= j < i ==> sess.pair[j].id != id
    {
      if sess.pair[i].id == id {
        return Some(sess.pair[1 - i]);
      }
    }
    return None;
  }

  // ----- protocol/relay/connection.go -----

  /**
    CircuitConn.Read once there is data: as much as fits, taken from the front of the buffer.
    It works on the connection at hand, which may no longer be in the manager's table.
  */
  method ReadConn(conn: R.Conn, buf: array<byte>) returns (n: nat, rest: R.Conn)
    modifies buf
    ensures n == Min(buf.Length, |conn.inbox|)
    ensures buf[..n] + rest.inbox == conn.inbox && buf[n..] == old(buf[n..])
    ensures rest == conn.(inbox := rest.inbox)
  {
    n := Min(buf.Length, |conn.inbox|);
    for i := 0 to n
      invariant buf[..i] == conn.inbox[..i] && buf[n..] == old(buf[n..])
    {
      buf[i] := conn.inbox[i];
      assert buf[..i + 1] == buf[..i] + [conn.inbox[i]];
    }
    rest := conn.(inbox := conn.inbox[n..]);
  }

  // ----- protocol/relay/manager.go -----

  class RelayMsgManager {
    const me: R.Peer
    const mode: R.Mode
    var sessionMap: map<R.Sid, R.Session>
    var streamMap: map<R.StreamId, R.StreamInfo>
    var probeMap: map<R.Sid, bytes>
    var circuitConnMap: map<R.Sid, R.Conn>
    var secureConnMap: map<R.Sid, R.Secured>
    /** What has been written to streams, and which streams have been closed, so far. */
    var written: seq<R.Send>
    var closed: seq<R.Stream>

    constructor (me: R.Peer, mode: R.Mode)
      ensures Valid()
      ensures View() == R.Node(me, mode, map[], map[], map[], map[], map[]) && written == [] && closed == []
    {
      this.me, this.mode := me, mode;
      sessionMap, streamMap, probeMap, circuitConnMap, secureConnMap := map[], map[], map[], map[], map[];
      written, closed := [], [];
    }

    function View(): R.Node
      reads this
    {
      R.Node(me, mode, sessionMap, streamMap, probeMap, circuitConnMap, secureConnMap)
    }

    /** Streams are stored under their own ids. */
    predicate Valid()
      reads this
    {
      forall id :: id in streamMap ==> streamMap[id].stream.id == id
    }

    /** The object has gone through exactly this effect since the old state. */
    twostate predicate Performed(e: R.Effect)
      reads this
    {
      View() == e.node && written == old(written) + e.sends && closed == old(closed) + e.shut
    }

    method AddStream(s: R.Stream)
      requires Valid()
      modifies this
      ensures Valid()
      ensures Performed(R.Quiet(R.AddStream(old(View()), s)))
    {
      streamMap := streamMap[s.id := R.StreamInfo(s, R.UNBOUND)];
    }

    method AddStreamSessionId(id: R.StreamId, sid: R.Sid)
      requires Valid()
      modifies this
      ensures Valid()
      ensures Performed(R.Quiet(R.AddStreamSessionId(old(View()), id, sid)))
    {
      if id in streamMap {
        streamMap := streamMap[id := streamMap[id].(sid := sid)];
      }
    }

    method DeleteStream(id: R.StreamId)
      requires Valid()
      modifies this
      ensures Valid()
      ensures Performed(R.Quiet(R.DeleteStream(old(View()), id)))
    {
      streamMap := streamMap - {id};
    }

    method AddCircuit(sid: R.Sid, remote: R.Peer)
      requires Valid()
      modifies this
      ensures Valid()
      ensures Performed(R.Quiet(R.AddCircuit(old(View()), sid, remote)))
    {
      if sid !in circuitConnMap {
        circuitConnMap := circuitConnMap[sid := R.Conn([], false, remote)];
      }
    }

    method RemoveSession(sid: R.Sid)
      requires Valid()
      modifies this
      ensures Valid()
      ensures Performed(R.RemoveSession(old(View()), sid))
    {
      secureConnMap := secureConnMap - {sid};
      circuitConnMap := circuitConnMap - {sid};
      if sid in sessionMap {
        var pair := sessionMap[sid].pair;
        for i := 0 to |pair|
          invariant closed == old(closed) + pair[..i]
          invariant written == old(written) && sessionMap == old(sessionMap) && streamMap == old(streamMap)
          invariant probeMap == old(probeMap)
          invariant circuitConnMap == old(circuitConnMap) - {sid} && secureConnMap == old(secureConnMap) - {sid}
        {
          closed := closed + [pair[i]];
          assert pair[..i + 1] == pair[..i] + [pair[i]];
        }
        assert pair[..|pair|] == pair;
        sessionMap := sessionMap - {sid};
      }
      probeMap := probeMap - {sid};
    }

    /** A failed write is logged and the loop goes on. */
    method SendDisconnectRelay(sid: R.Sid, bad: set<R.StreamId>)
      requires Valid()
      modifies this`written
      ensures Valid()
      ensures written == old(written) + R.Farewells(R.PairOf(View(), sid), sid, bad)
      ensures Answers.ToldExactly(written[|old(written)|..], R.PairOf(View(), sid), R.Disconnect(sid), None, bad)
    {
      hide Answers.ToldExactly;
      Answers.FarewellsTell(R.PairOf(View(), sid), sid, bad);
      if sid !in sessionMap {
        return;
      }
      var pair := sessionMap[sid].pair;
      for i := 0 to |pair|
        invariant written + R.Farewells(pair[i..], sid, bad) == old(written) + R.Farewells(pair, sid, bad)
      {
        assert pair[i..][1..] == pair[i + 1..];
        if pair[i].id !in bad {
          written := written + [R.Send(pair[i], R.Disconnect(sid))];
        }
      }
    }

    method CloseCircuit(sid: R.Sid, bad: set<R.StreamId>)
      requires Valid()
      modifies this
      ensures Valid()
      ensures Performed(R.CloseCircuit(old(View()), sid, bad))
      ensures Answers.ToldExactly(written[|old(written)|..], R.PairOf(old(View()), sid), R.Disconnect(sid), None, bad)
      ensures Answers.Forgotten(View(), sid) && closed == old(closed) + R.PairOf(old(View()), sid)
    {
      hide Answers.ToldExactly;
      Answers.ClosingTells(View(), sid, bad);
      if sid in sessionMap {
        SendDisconnectRelay(sid, bad);
      }
      RemoveSession(sid);
      assert written[|old(written)|..] == R.CloseCircuit(old(View()), sid, bad).sends;
    }

    /** The write loop of SendRelay and ForwardRelay, up to the first failure. */
    method WriteRound(pair: seq<R.Stream>, msg: R.Msg, skip: Option<R.Peer>, bad: set<R.StreamId>) returns (ok: bool)
      requires Valid()
      modifies this`written
      ensures Valid()
      ensures written == old(written) + R.WriteRound(pair, msg, skip, bad)
      ensures ok <==> R.RoundOk(pair, skip, bad)
    {
      for i := 0 to |pair|
        invariant written + R.WriteRound(pair[i..], msg, skip, bad) == old(written) + R.WriteRound(pair, msg, skip, bad)
        invariant R.RoundOk(pair[..i], skip, bad)
      {
        assert pair[i..][1..] == pair[i + 1..];
        if skip != Some(pair[i].remote) {
          if pair[i].id in bad {
            return false;
          }
          written := written + [R.Send(pair[i], msg)];
        }
      }
      assert pair[..|pair|] == pair;
      return true;
    }

    /** SendRelay (skip None) and ForwardRelay: the deferred close runs on every error. */
    method Broadcast(sid: R.Sid, msg: R.Msg, skip: Option<R.Peer>, bad: set<R.StreamId>) returns (ok: bool)
      requires Valid()
      modifies this
      ensures Valid()
      ensures Performed(R.Broadcast(old(View()), sid, msg, skip, bad))
      ensures ok <==> R.PairOf(old(View()), sid) != [] && R.RoundOk(R.PairOf(old(View()), sid), skip, bad)
    {
      hide R.WriteRound, R.CloseCircuit, R.RoundOk, Answers.ToldExactly, Answers.Forgotten;
      if sid !in sessionMap || sessionMap[sid].pair == [] {
        CloseCircuit(sid, bad);
        return false;
      }
      ok := WriteRound(sessionMap[sid].pair, msg, skip, bad);
      if !ok {
        CloseCircuit(sid, bad);
      }
    }

    method SendRelay(sid: R.Sid, msg: R.Msg, bad: set<R.StreamId>) returns (ok: bool)
      requires Valid()
      modifies this
      ensures Valid()
      ensures Performed(R.SendRelay(old(View()), sid, msg, bad))
    {
      ok := Broadcast(sid, msg, None, bad);
    }

    /** The requester's half of SetSession, after a positive ack; None when the stream is unknown. */
    method CompleteSetSession(sid: R.Sid, id: R.StreamId, myRole: R.Role) returns (ok: bool)
      requires Valid()
      modifies this
      ensures Valid()
      ensures ok <==> id in old(streamMap)
      ensures ok ==>
                Performed(R.Quiet(R.CompleteSetSession(old(View()), sid, myRole, old(streamMap)[id].stream)))
      ensures !ok ==> Performed(R.Quiet(old(View())))
    {
      if id !in streamMap {
        return false;
      }
      var s := streamMap[id].stream;
      var sess := if sid in sessionMap then sessionMap[sid] else R.Session(myRole, []);
      sess := AddToSession(sess, s);
      sessionMap := sessionMap[sid := sess];
      AddStreamSessionId(id, sid);
      return true;
    }

    // ----- protocol/relay/relay.go -----

    method PassOn(sid: R.Sid, msg: R.Msg, from: R.StreamId, closeOnError: bool, bad: set<R.StreamId>)
      requires Valid()
      requires sid in sessionMap
      modifies this
      ensures Valid()
      ensures Performed(R.PassOn(old(View()), sid, msg, from, closeOnError, bad))
    {
      var partner := PartnerOf(sessionMap[sid], from);
      if partner.Some? && partner.value.id !in bad {
        written := written + [R.Send(partner.value, msg)];
      } else if closeOnError {
        CloseCircuit(sid, bad);
      }
    }

    method HandleData(sid: R.Sid, payload: bytes, from: R.Stream, bad: set<R.StreamId>)
      requires Valid()
      modifies this
      ensures Valid()
      ensures Performed(R.HandleData(old(View()), sid, payload, from, bad))
    {
      if sid !in sessionMap {
        return;
      }
      if R.IsEnd(sessionMap[sid].role) {
        if sid in circuitConnMap {
          var conn := circuitConnMap[sid];
          circuitConnMap := circuitConnMap[sid := conn.(inbox := conn.inbox + payload)];
        }
        return;
      }
      if sessionMap[sid].IsReady() {
        PassOn(sid, R.Data(sid, payload), from.id, true, bad);
      }
    }

    method HandleProbe(sid: R.Sid, rand: bytes, from: R.Stream, bad: set<R.StreamId>)
      requires Valid()
      modifies this
      ensures Valid()
      ensures Performed(R.HandleProbe(old(View()), sid, rand, from, bad))
      ensures R.ProbeMatches(old(View()), sid, rand) && R.PairOf(old(View()), sid) != [] && bad == {} ==>
                View() == old(View())
                && Answers.ToldAllInOrder(written[|old(written)|..], R.PairOf(old(View()), sid), R.Success(sid))
    {
      if R.ProbeMatches(View(), sid, rand) && R.PairOf(View(), sid) != [] {
        Answers.MatchingProbeAnnounces(View(), sid, rand, from);
      }
      if sid in sessionMap && sessionMap[sid].role == R.Joint {
        if sid !in probeMap {
          probeMap := probeMap[sid := rand];
        } else if probeMap[sid] == rand {
          var _ := SendRelay(sid, R.Success(sid), bad);
        } else {
          CloseCircuit(sid, bad);
        }
        return;
      }
      if sid in sessionMap && sessionMap[sid].IsReady() {
        PassOn(sid, R.Probe(sid, rand), from.id, false, bad);
      }
    }

    method HandleDisconnect(sid: R.Sid, from: R.Stream, bad: set<R.StreamId>)
      requires Valid()
      modifies this
      ensures Valid()
      ensures Performed(R.HandleDisconnect(old(View()), sid, from, bad))
      ensures Answers.Forgotten(View(), sid)
      ensures bad == {} ==> Answers.ToldExactly(written[|old(written)|..], R.PairOf(old(View()), sid),
                                                R.Disconnect(sid), Some(from.remote), {})
    {
      hide Answers.ToldExactly;
      Answers.DisconnectTells(View(), sid, from);
      if sid in sessionMap {
        var _ := Broadcast(sid, R.Disconnect(sid), Some(from.remote), bad);
      }
      RemoveSession(sid);
    }

    method HandleSuccess(sid: R.Sid, from: R.Stream, bad: set<R.StreamId>)
      requires Valid()
      modifies this
      ensures Valid()
      ensures Performed(R.HandleSuccess(old(View()), sid, from, bad))
    {
      if sid !in sessionMap {
        return;
      }
      if R.IsEnd(sessionMap[sid].role) {
        if sid in circuitConnMap {
          circuitConnMap := circuitConnMap[sid := circuitConnMap[sid].(ready := true)];
        }
      } else if sessionMap[sid].IsReady() {
        PassOn(sid, R.Success(sid), from.id, false, bad);
      }
    }

    /** The entry becomes the relay too: its second stream is told to disconnect and replaced. */
    method Swap(sid: R.Sid, s: R.Stream, bad: set<R.StreamId>)
      requires Valid()
      requires R.IsSwap(View(), sid, R.Relayer) && sessionMap[sid].IsReady() && mode == R.ServerMode
      modifies this
      ensures Valid()
      ensures Performed(R.HandleSetSession(old(View()), sid, R.Relayer, s, bad))
    {
      var sess := sessionMap[sid];
      var former := sess.pair[1];
      if former.id !in bad {
        written := written + [R.Send(former, R.Disconnect(sid))];
      }
      DeleteStream(former.id);
      assert sess.pair[1 := s] == [sess.pair[0], s];
      sessionMap := sessionMap[sid := sess.(pair := sess.pair[1 := s])];
      AddStream(s);
      AddStreamSessionId(s.id, sid);
    }

    /** The whole of handleSetSession; `ack` is the result sent back. */
    method HandleSetSession(sid: R.Sid, role: R.Role, s: R.Stream, bad: set<R.StreamId>) returns (ack: bool)
      requires Valid()
      modifies this
      ensures Valid()
      ensures Performed(R.HandleSetSession(old(View()), sid, role, s, bad))
      ensures ack <==> R.Accepts(old(View()), sid, role)
    {
      if mode == R.ClientMode && role != R.Answer {
        return false;
      }
      if mode == R.ClientMode && role == R.Answer {
        AddCircuit(sid, 0);
      }
      if sid in sessionMap && sessionMap[sid].role == R.Entry && role == R.Relayer {
        if !sessionMap[sid].IsReady() {
          CloseCircuit(sid, bad);
          return false;
        }
        Swap(sid, s, bad);
        return true;
      }
      var sess := if sid in sessionMap then sessionMap[sid] else R.Session(role, []);
      sess := AddToSession(sess, s);
      sessionMap := sessionMap[sid := sess];
      AddStream(s);
      AddStreamSessionId(s.id, sid);
      return true;
    }

    // ----- protocol/relay/connection.go -----

    /** CircuitConn.Read on the circuit the session has in the table. */
    method ReadCircuit(sid: R.Sid, buf: array<byte>) returns (n: nat)
      requires Valid()
      requires sid in circuitConnMap
      modifies this`circuitConnMap, buf
      ensures Valid()
      ensures var inbox := old(circuitConnMap)[sid].inbox;
              && n == Min(buf.Length, |inbox|) && buf[..n] == inbox[..n] && buf[n..] == old(buf[n..])
              && View() == Conservation.Drained(old(View()), sid, n)
    {
      var conn;
      n, conn := ReadConn(circuitConnMap[sid], buf);
      assert conn.inbox == old(circuitConnMap)[sid].inbox[n..];
      circuitConnMap := circuitConnMap[sid := conn];
    }

    /** CircuitConn.Write: one Data message to the session; the count is the argument's length even on error. */
    method WriteCircuit(sid: R.Sid, payload: bytes, bad: set<R.StreamId>) returns (n: nat, ok: bool)
      requires Valid()
      modifies this
      ensures Valid()
      ensures n == |payload| && Performed(R.SendRelay(old(View()), sid, R.Data(sid, payload), bad))
      ensures ok <==> R.PairOf(old(View()), sid) != [] && R.RoundOk(R.PairOf(old(View()), sid), None, bad)
    {
      n := |payload|;
      ok := Broadcast(sid, R.Data(sid, payload), None, bad);
    }

    // ----- protocol/relay/secure_conn.go -----

    /**
      NewSecureConnCaller (initiator) and NewSecureConnAnswer, run without interruption: a session
      that is there already is left alone, a failed or cancelled handshake stores nothing, and what
      is stored is an outcome for `remote`, the identity of the circuit at hand. `remote` is None
      when the dialled identity yields no peer id. What may come in between is in SecureRuns.
    */
    method NewSecureConn(cr: Crypto, identity: Secret, sid: R.Sid, initiator: bool, remote: Option<R.Peer>,
                         s: Secret, e: Secret, incoming: seq<bytes>, writes: nat, cancelled: bool) returns (ok: bool)
      requires Valid()
      modifies this`secureConnMap
      ensures Valid()
      ensures sid in old(secureConnMap) ==> ok && secureConnMap == old(secureConnMap)
      ensures sid !in old(secureConnMap) && (remote.None? || cancelled) ==> !ok
      ensures sid !in old(secureConnMap) && remote.Some? && !cancelled ==>
                (ok <==> RunAlone(cr, NewParty(initiator, identity, remote.value, s, e), incoming, writes).Done())
      ensures !ok ==> secureConnMap == old(secureConnMap)
      ensures ok && sid !in old(secureConnMap) ==>
                && remote.Some? && sid in secureConnMap && Outcome(cr, initiator, remote.value, secureConnMap[sid])
                && View() == NodeRuns.Apply(old(View()), NodeRuns.Secures(sid, secureConnMap[sid])).node
    {
      hide Outcome, RunAlone, NewParty;
      if sid in secureConnMap {
        return true;
      }
      if remote.None? {
        return false;
      }
      var entry := NewSecureSession(cr, identity, initiator, remote.value, s, e, incoming, writes, cancelled);
      if entry.None? {
        return false;
      }
      FinishedIsOutcome(cr, initiator, remote.value, identity, s, e, incoming, writes);
      secureConnMap := secureConnMap[sid := entry.value];
      return true;
    }

    // ----- protocol/relay/actor.go and the inbound dispatch -----

    method HandleStreamClosed(id: R.StreamId, bad: set<R.StreamId>)
      requires Valid()
      modifies this
      ensures Valid()
      ensures Performed(R.HandleStreamClosed(old(View()), id, bad))
    {
      if id in streamMap {
        if streamMap[id].sid != R.UNBOUND {
          CloseCircuit(streamMap[id].sid, bad);
        }
        DeleteStream(id);
      }
    }

    method Inbound(msg: R.Msg, from: R.Stream, bad: set<R.StreamId>)
      requires Valid()
      modifies this
      ensures Valid()
      ensures Performed(R.Handle(old(View()), msg, from, bad))
    {
      match msg
      case Wake =>
      case Malformed =>
      case SetSession(sid, role) => var _ := HandleSetSession(sid, role, from, bad);
      case Data(sid, payload) => HandleData(sid, payload, from, bad);
      case Probe(sid, rand) => HandleProbe(sid, rand, from, bad);
      case Disconnect(sid) => HandleDisconnect(sid, from, bad);
      case Success(sid) => HandleSuccess(sid, from, bad);
    }
  }
}
