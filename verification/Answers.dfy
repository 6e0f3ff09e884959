/**
  What a relay node answers to each message, seen from outside: which messages leave on which of
  its session's streams, in which order, and what is left of the session. Stated by the positions
  of the session's pair, for all nodes and all handlers of protocol/relay/relay.go.
*/
module Answers {
  import opened Basics
  import opened Relay

  /** Which positions of a pair are written to: all whose stream accepts and does not lead to `skip`. */
  predicate Picks(at: seq<nat>, pair: seq<Stream>, skip: Option<Peer>, bad: set<StreamId>) {
    && (forall i, j :: 0 <= i < j < |at| ==> at[i] < at[j])
    && (forall j :: 0 <= j < |at| ==> at[j] < |pair| && Takes(pair[at[j]], skip, bad))
    && (forall i :: 0 <= i < |pair| && Takes(pair[i], skip, bad) ==> i in at)
  }

  predicate Takes(s: Stream, skip: Option<Peer>, bad: set<StreamId>) {
    skip != Some(s.remote) && s.id !in bad
  }

  /** `msg` was written once to each stream picked, in the order of the pair, and nothing else was. */
  ghost predicate ToldExactly(sends: seq<Send>, pair: seq<Stream>, msg: Msg, skip: Option<Peer>, bad: set<StreamId>) {
    exists at: seq<nat> :: Picks(at, pair, skip, bad) && |at| == |sends|
                           && forall j :: 0 <= j < |at| ==> sends[j] == Send(pair[at[j]], msg)
  }

  /** `msg` was written to every stream of the pair, once each and in order. */
  predicate ToldAllInOrder(sends: seq<Send>, pair: seq<Stream>, msg: Msg) {
    |sends| == |pair| && forall i :: 0 <= i < |pair| ==> sends[i] == Send(pair[i], msg)
  }

  /** Nothing of the session is left. */
  predicate Forgotten(n: Node, sid: Sid) {
    sid !in n.sessions && sid !in n.circuits && sid !in n.secured && sid !in n.probes
  }

  // ----- rounds of writes -----

  /** The positions of the rest of a pair, in the whole pair. */
  function Shifted(at: seq<nat>): (s: seq<nat>)
    ensures |s| == |at| && forall j :: 0 <= j < |at| ==> s[j] == at[j] + 1
  {
    seq(|at|, j requires 0 <= j < |at| => at[j] + 1)
  }

  /** The positions for a pair with one more stream in front. */
  function Ahead(at: seq<nat>, first: bool): seq<nat> {
    (if first then [0] else []) + Shifted(at)
  }

  lemma AheadRises(at: seq<nat>, first: bool)
    requires forall i, j :: 0 <= i < j < |at| ==> at[i] < at[j]
    ensures forall i, j :: 0 <= i < j < |Ahead(at, first)| ==> Ahead(at, first)[i] < Ahead(at, first)[j]
  {
  }

  lemma AheadHas(at: seq<nat>, first: bool, i: nat)
    requires if i == 0 then first else i - 1 in at
    ensures i in Ahead(at, first)
  {
    if i == 0 {
      assert Ahead(at, first)[0] == 0;
    } else {
      var j :| 0 <= j < |at| && at[j] == i - 1;
      assert Ahead(at, first)[if first then 1 + j else j] == i;
    }
  }

  lemma PicksMore(at: seq<nat>, s: Stream, rest: seq<Stream>, skip: Option<Peer>, bad: set<StreamId>)
    requires Picks(at, rest, skip, bad)
    ensures Picks(Ahead(at, Takes(s, skip, bad)), [s] + rest, skip, bad)
  {
    hide Takes;
    var (pair, at') := ([s] + rest, Ahead(at, Takes(s, skip, bad)));
    AheadRises(at, Takes(s, skip, bad));
    forall j | 0 <= j < |at'|
      ensures at'[j] < |pair| && Takes(pair[at'[j]], skip, bad)
    {
      var k := if Takes(s, skip, bad) then j - 1 else j;
      if k >= 0 { assert at'[j] == at[k] + 1 && pair[at'[j]] == rest[at[k]]; }
    }
    hide Ahead;
    forall i | 0 <= i < |pair| && Takes(pair[i], skip, bad)
      ensures i in at'
    {
      if i > 0 { assert pair[i] == rest[i - 1] && i - 1 in at; }
      AheadHas(at, Takes(s, skip, bad), i);
    }
  }

  /** One more stream in front. */
  lemma ToldMore(s: Stream, rest: seq<Stream>, more: seq<Send>, msg: Msg, skip: Option<Peer>, bad: set<StreamId>)
    requires ToldExactly(more, rest, msg, skip, bad)
    ensures ToldExactly((if Takes(s, skip, bad) then [Send(s, msg)] else []) + more, [s] + rest, msg, skip, bad)
  {
    hide ToldExactly;
    var at := WhereTold(more, rest, msg, skip, bad);
    PicksMore(at, s, rest, skip, bad);
    hide Picks, Takes;
    var first := Takes(s, skip, bad);
    SendsMore(at, s, rest, more, msg, first);
    ToldIs(Ahead(at, first), (if first then [Send(s, msg)] else []) + more, [s] + rest, msg, skip, bad);
  }

  lemma SendsMore(at: seq<nat>, s: Stream, rest: seq<Stream>, more: seq<Send>, msg: Msg, first: bool)
    requires |at| == |more| && forall j :: 0 <= j < |at| ==> at[j] < |rest| && more[j] == Send(rest[at[j]], msg)
    ensures var (at', sends, pair) := (Ahead(at, first), (if first then [Send(s, msg)] else []) + more, [s] + rest);
            |at'| == |sends| && forall j :: 0 <= j < |at'| ==> at'[j] < |pair| && sends[j] == Send(pair[at'[j]], msg)
  {
    var (at', sends, pair) := (Ahead(at, first), (if first then [Send(s, msg)] else []) + more, [s] + rest);
    forall j | 0 <= j < |at'|
      ensures at'[j] < |pair| && sends[j] == Send(pair[at'[j]], msg)
    {
      var k := if first then j - 1 else j;
      if k >= 0 { assert at'[j] == at[k] + 1 && pair[at'[j]] == rest[at[k]] && sends[j] == more[k]; }
    }
  }

  /** The positions told. */
  lemma WhereTold(sends: seq<Send>, pair: seq<Stream>, msg: Msg, skip: Option<Peer>, bad: set<StreamId>)
    returns (at: seq<nat>)
    requires ToldExactly(sends, pair, msg, skip, bad)
    ensures Picks(at, pair, skip, bad) && |at| == |sends|
    ensures forall j :: 0 <= j < |at| ==> at[j] < |pair| && sends[j] == Send(pair[at[j]], msg)
  {
    at :| Picks(at, pair, skip, bad) && |at| == |sends|
          && forall j :: 0 <= j < |at| ==> sends[j] == Send(pair[at[j]], msg);
  }

  lemma ToldIs(at: seq<nat>, sends: seq<Send>, pair: seq<Stream>, msg: Msg, skip: Option<Peer>, bad: set<StreamId>)
    requires Picks(at, pair, skip, bad) && |at| == |sends|
    requires forall j :: 0 <= j < |at| ==> at[j] < |pair| && sends[j] == Send(pair[at[j]], msg)
    ensures ToldExactly(sends, pair, msg, skip, bad)
  {
    hide Picks;
  }

  lemma ToldNobody(msg: Msg, skip: Option<Peer>, bad: set<StreamId>)
    ensures ToldExactly([], [], msg, skip, bad)
  {
    assert Picks([], [], skip, bad);
  }

  lemma {:induction false} FarewellsTell(pair: seq<Stream>, sid: Sid, bad: set<StreamId>)
    ensures ToldExactly(Farewells(pair, sid, bad), pair, Disconnect(sid), None, bad)
  {
    hide ToldExactly;
    if pair == [] {
      ToldNobody(Disconnect(sid), None, bad);
    } else {
      FarewellsTell(pair[1..], sid, bad);
      ToldMore(pair[0], pair[1..], Farewells(pair[1..], sid, bad), Disconnect(sid), None, bad);
      assert [pair[0]] + pair[1..] == pair;
    }
  }

  lemma {:induction false} RoundTells(pair: seq<Stream>, msg: Msg, skip: Option<Peer>, bad: set<StreamId>)
    requires RoundOk(pair, skip, bad)
    ensures ToldExactly(WriteRound(pair, msg, skip, bad), pair, msg, skip, bad)
  {
    hide ToldExactly;
    if pair == [] {
      ToldNobody(msg, skip, bad);
    } else {
      assert pair[1..] == pair[1..] && skip != Some(pair[0].remote) ==> pair[0].id !in bad;
      RoundTells(pair[1..], msg, skip, bad);
      ToldMore(pair[0], pair[1..], WriteRound(pair[1..], msg, skip, bad), msg, skip, bad);
      assert [pair[0]] + pair[1..] == pair;
      var rest := WriteRound(pair[1..], msg, skip, bad);
      assert [] + rest == rest;
    }
  }

  /** Told to all: one message per stream, in order. */
  lemma ToldAll(sends: seq<Send>, pair: seq<Stream>, msg: Msg)
    requires ToldExactly(sends, pair, msg, None, {})
    ensures |sends| == |pair| && forall i :: 0 <= i < |pair| ==> sends[i] == Send(pair[i], msg)
  {
    var at := WhereTold(sends, pair, msg, None, {});
    hide ToldExactly;
    PicksAll(at, pair);
    hide Picks;
    Everyone(at, |pair|);
  }

  lemma PicksAll(at: seq<nat>, pair: seq<Stream>)
    requires Picks(at, pair, None, {})
    ensures forall i, j :: 0 <= i < j < |at| ==> at[i] < at[j]
    ensures forall i :: 0 <= i < |pair| ==> i in at
  {
    assert forall i :: 0 <= i < |pair| ==> Takes(pair[i], None, {});
  }

  /** An increasing list that contains all numbers below n, and no others, is the list of them. */
  lemma {:induction false} Everyone(at: seq<nat>, n: nat)
    requires forall i, j :: 0 <= i < j < |at| ==> at[i] < at[j]
    requires forall j :: 0 <= j < |at| ==> at[j] < n
    requires forall i :: 0 <= i < n ==> i in at
    ensures |at| == n && forall j :: 0 <= j < n ==> at[j] == j
  {
    if n == 0 {
      assert at == [];
    } else {
      assert n - 1 in at;
      var j :| 0 <= j < |at| && at[j] == n - 1;
      assert j == |at| - 1;
      forall i | 0 <= i < n - 1
        ensures i in at[..j]
      {
        assert i in at;
      }
      Everyone(at[..j], n - 1);
    }
  }

  /** Who is told, as membership. */
  lemma ToldMembers(sends: seq<Send>, pair: seq<Stream>, msg: Msg, skip: Option<Peer>, bad: set<StreamId>)
    requires ToldExactly(sends, pair, msg, skip, bad)
    ensures forall x: Send :: x in sends <==> x.msg == msg && x.to in pair && Takes(x.to, skip, bad)
  {
    var at := WhereTold(sends, pair, msg, skip, bad);
    hide ToldExactly;
    forall x: Send | x.msg == msg && x.to in pair && Takes(x.to, skip, bad)
      ensures x in sends
    {
      var i :| 0 <= i < |pair| && pair[i] == x.to;
      assert i in at;
      var j :| 0 <= j < |at| && at[j] == i;
      assert sends[j] == x;
    }
  }

  // ----- closing -----

  /**
    Closing a circuit tells Disconnect to every stream of the session that accepts it, once each,
    in the order of the pair, and then forgets the session and closes exactly its streams.
  */
  lemma ClosingTells(n: Node, sid: Sid, bad: set<StreamId>)
    ensures var e := CloseCircuit(n, sid, bad);
            && ToldExactly(e.sends, PairOf(n, sid), Disconnect(sid), None, bad)
            && Forgotten(e.node, sid) && e.shut == PairOf(n, sid) && e.node.streams == n.streams
  {
    hide ToldExactly;
    FarewellsTell(PairOf(n, sid), sid, bad);
  }

  /** With two streams that accept it: the first, then the second. */
  lemma ClosingTellsBoth(n: Node, sid: Sid, bad: set<StreamId>)
    requires |PairOf(n, sid)| == 2 && PairOf(n, sid)[0].id !in bad && PairOf(n, sid)[1].id !in bad
    ensures CloseCircuit(n, sid, bad).sends
         == [Send(PairOf(n, sid)[0], Disconnect(sid)), Send(PairOf(n, sid)[1], Disconnect(sid))]
  {
    var pair := PairOf(n, sid);
    assert pair[1..] == [pair[1]] && pair[1..][1..] == [];
    assert Farewells([], sid, bad) == [] && Farewells([pair[1]], sid, bad) == [Send(pair[1], Disconnect(sid))] + [];
  }

  /**
    A Disconnect is told to exactly the streams that do not lead to whoever sent it, and the
    session is forgotten with all its streams closed.
  */
  lemma DisconnectTells(n: Node, sid: Sid, from: Stream)
    ensures var e := Handle(n, Disconnect(sid), from, {});
            && ToldExactly(e.sends, PairOf(n, sid), Disconnect(sid), Some(from.remote), {})
            && Forgotten(e.node, sid) && e.node.streams == n.streams
            && (sid in n.sessions ==> forall s :: s in PairOf(n, sid) ==> s in e.shut)
  {
    var pair := PairOf(n, sid);
    hide ToldExactly;
    if pair == [] {
      ToldNobody(Disconnect(sid), Some(from.remote), {});
      assert sid in n.sessions ==> Broadcast(n, sid, Disconnect(sid), Some(from.remote), {}).sends == [];
    } else {
      RoundTells(pair, Disconnect(sid), Some(from.remote), {});
      var wrote := WriteRound(pair, Disconnect(sid), Some(from.remote), {});
      assert wrote + [] == wrote;
    }
  }

  /** A node in the middle passes it on to the other side only. */
  lemma DisconnectCrosses(n: Node, sid: Sid, from: Stream, other: Stream)
    requires PairOf(n, sid) == [from, other] || PairOf(n, sid) == [other, from]
    requires from.remote != other.remote
    ensures Handle(n, Disconnect(sid), from, {}).sends == [Send(other, Disconnect(sid))]
  {
    DisconnectTells(n, sid, from);
    var (pair, sends) := (PairOf(n, sid), Handle(n, Disconnect(sid), from, {}).sends);
    hide Handle, ToldExactly;
    var at := WhereTold(sends, pair, Disconnect(sid), Some(from.remote), {});
    var k := if pair[0] == other then 0 else 1;
    assert Takes(pair[k], Some(from.remote), {}) && !Takes(pair[1 - k], Some(from.remote), {});
    OnlyOne(at, pair, k, Some(from.remote));
  }

  lemma OnlyOne(at: seq<nat>, pair: seq<Stream>, k: nat, skip: Option<Peer>)
    requires |pair| == 2 && k < 2 && Picks(at, pair, skip, {})
    requires Takes(pair[k], skip, {}) && !Takes(pair[1 - k], skip, {})
    ensures at == [k]
  {
    assert k in at && forall j :: 0 <= j < |at| ==> at[j] == k;
    FirstTwo(at);
  }

  lemma FirstTwo(at: seq<nat>)
    requires forall i, j :: 0 <= i < j < |at| ==> at[i] < at[j]
    ensures |at| >= 2 ==> at[0] < at[1]
  {
  }

  // ----- writing to a whole session -----

  /**
    What a session sends of its own accord goes to each of its streams once, in order, if all
    accept it; if there is no stream or one refuses, the circuit is closed instead.
  */
  lemma RelaySends(n: Node, sid: Sid, msg: Msg, bad: set<StreamId>)
    ensures var (e, pair) := (SendRelay(n, sid, msg, bad), PairOf(n, sid));
            && (pair != [] && (forall i :: 0 <= i < |pair| ==> pair[i].id !in bad) ==>
                  && e.node == n && e.shut == [] && |e.sends| == |pair|
                  && forall i :: 0 <= i < |pair| ==> e.sends[i] == Send(pair[i], msg))
            && (pair == [] || (exists i :: 0 <= i < |pair| && pair[i].id in bad) ==>
                  && Forgotten(e.node, sid) && e.shut == pair
                  && forall s :: s in pair && s.id !in bad ==> Send(s, Disconnect(sid)) in e.sends)
  {
    var pair := PairOf(n, sid);
    hide ToldExactly, WriteRound, Picks;
    ClosingTells(n, sid, bad);
    ToldMembers(CloseCircuit(n, sid, bad).sends, pair, Disconnect(sid), None, bad);
    hide CloseCircuit;
    if pair != [] && RoundOk(pair, None, bad) {
      Untroubled(pair, msg, bad);
      RoundTells(pair, msg, None, {});
      ToldAll(WriteRound(pair, msg, None, {}), pair, msg);
    } else if pair != [] {
      assert !RoundOk(pair, None, bad);
    }
  }

  lemma Untroubled(pair: seq<Stream>, msg: Msg, bad: set<StreamId>)
    requires RoundOk(pair, None, bad)
    ensures WriteRound(pair, msg, None, bad) == WriteRound(pair, msg, None, {}) && RoundOk(pair, None, {})
  {
    if pair != [] {
      assert pair[0].id !in bad;
      Untroubled(pair[1..], msg, bad);
    }
  }

  // ----- probes -----

  /** The first probe of a session is kept by its joint, which says nothing yet. */
  lemma FirstProbeIsStored(n: Node, sid: Sid, rand: bytes, from: Stream, bad: set<StreamId>)
    requires sid in n.sessions && n.sessions[sid].role == Joint && sid !in n.probes
    ensures var e := Handle(n, Probe(sid, rand), from, bad);
            && e.sends == [] && e.shut == [] && sid in e.node.probes && e.node.probes[sid] == rand
            && e.node == n.(probes := e.node.probes) && e.node.probes - {sid} == n.probes - {sid}
  {
  }

  /**
    The second one, if it carries the same value: the joint announces Success on each of its
    streams, in order, and stays as it is.
  */
  lemma MatchingProbeAnnounces(n: Node, sid: Sid, rand: bytes, from: Stream)
    requires sid in n.sessions && n.sessions[sid].role == Joint && sid in n.probes && n.probes[sid] == rand
    requires n.sessions[sid].pair != []
    ensures var (e, pair) := (Handle(n, Probe(sid, rand), from, {}), n.sessions[sid].pair);
            && e.node == n && e.shut == [] && |e.sends| == |pair|
            && (forall i :: 0 <= i < |pair| ==> e.sends[i] == Send(pair[i], Success(sid)))
            && (|pair| == 2 ==> e.sends == [Send(pair[0], Success(sid)), Send(pair[1], Success(sid))])
  {
    RelaySends(n, sid, Success(sid), {});
    hide SendRelay;
  }

  /** If it carries another value: the joint closes the circuit. */
  lemma OtherProbeCloses(n: Node, sid: Sid, rand: bytes, from: Stream, bad: set<StreamId>)
    requires sid in n.sessions && n.sessions[sid].role == Joint && sid in n.probes && n.probes[sid] != rand
    ensures var e := Handle(n, Probe(sid, rand), from, bad);
            && Forgotten(e.node, sid) && e.shut == n.sessions[sid].pair
            && ToldExactly(e.sends, n.sessions[sid].pair, Disconnect(sid), None, bad)
  {
    hide ToldExactly;
    ClosingTells(n, sid, bad);
    hide CloseCircuit;
  }

  // ----- passing on -----

  /** The two streams of a full pair, as seen from one of them. */
  predicate Between(n: Node, sid: Sid, from: Stream, other: Stream) {
    && sid in n.sessions && from.id != other.id
    && (n.sessions[sid].pair == [from, other] || n.sessions[sid].pair == [other, from])
  }

  /** Everyone but the joint passes a probe on, once and unchanged; so it does a Success, unless it is an end. */
  lemma ProbePassesOn(n: Node, sid: Sid, rand: bytes, from: Stream, other: Stream, bad: set<StreamId>)
    requires Between(n, sid, from, other) && n.sessions[sid].role != Joint
    ensures var e := Handle(n, Probe(sid, rand), from, bad);
            e.node == n && e.shut == [] && e.sends == if other.id in bad then [] else [Send(other, Probe(sid, rand))]
  {
  }

  lemma SuccessPassesOn(n: Node, sid: Sid, from: Stream, other: Stream, bad: set<StreamId>)
    requires Between(n, sid, from, other) && n.sessions[sid].role != Caller && n.sessions[sid].role != Answer
    ensures var e := Handle(n, Success(sid), from, bad);
            e.node == n && e.shut == [] && e.sends == if other.id in bad then [] else [Send(other, Success(sid))]
  {
  }

  /** Data that cannot be passed on closes the circuit; a probe or a Success that cannot is just dropped. */
  lemma DataPassesOn(n: Node, sid: Sid, payload: bytes, from: Stream, other: Stream, bad: set<StreamId>)
    requires Between(n, sid, from, other) && n.sessions[sid].role != Caller && n.sessions[sid].role != Answer
    ensures var e := Handle(n, Data(sid, payload), from, bad);
            && (other.id !in bad ==> e.node == n && e.shut == [] && e.sends == [Send(other, Data(sid, payload))])
            && (other.id in bad ==>
                  && Forgotten(e.node, sid) && e.shut == n.sessions[sid].pair
                  && ToldExactly(e.sends, n.sessions[sid].pair, Disconnect(sid), None, bad))
  {
    hide ToldExactly;
    ClosingTells(n, sid, bad);
    hide CloseCircuit;
  }

  /** Data on a stream that is not one of a full pair's closes the circuit as well. */
  lemma StrayDataCloses(n: Node, sid: Sid, payload: bytes, from: Stream, bad: set<StreamId>)
    requires sid in n.sessions && n.sessions[sid].role != Caller && n.sessions[sid].role != Answer
    requires |n.sessions[sid].pair| == 2 && forall i :: 0 <= i < 2 ==> n.sessions[sid].pair[i].id != from.id
    ensures var e := Handle(n, Data(sid, payload), from, bad);
            && Forgotten(e.node, sid) && e.shut == n.sessions[sid].pair
            && ToldExactly(e.sends, n.sessions[sid].pair, Disconnect(sid), None, bad)
  {
    hide ToldExactly;
    ClosingTells(n, sid, bad);
    hide CloseCircuit;
  }

  // ----- the ends -----

  /** An end with a circuit: Success makes it ready, Data goes behind what is buffered, nothing is written. */
  lemma EndTakesIn(n: Node, sid: Sid, payload: bytes, from: Stream, bad: set<StreamId>)
    requires sid in n.sessions && (n.sessions[sid].role == Caller || n.sessions[sid].role == Answer)
    requires sid in n.circuits
    ensures var e := Handle(n, Success(sid), from, bad);
            && e.sends == [] && e.shut == [] && sid in e.node.circuits && e.node.circuits[sid].ready
            && e.node.circuits[sid].inbox == n.circuits[sid].inbox
            && e.node.circuits[sid].remote == n.circuits[sid].remote
            && e.node == n.(circuits := n.circuits[sid := e.node.circuits[sid]])
    ensures var e := Handle(n, Data(sid, payload), from, bad);
            && e.sends == [] && e.shut == [] && sid in e.node.circuits
            && e.node.circuits[sid].inbox == n.circuits[sid].inbox + payload
            && e.node.circuits[sid].ready == n.circuits[sid].ready
            && e.node.circuits[sid].remote == n.circuits[sid].remote
            && e.node == n.(circuits := n.circuits[sid := e.node.circuits[sid]])
  {
  }

  /** A node that does not know the session ignores Data, Probe and Success for it. */
  lemma UnknownIsIgnored(n: Node, sid: Sid, payload: bytes, from: Stream, bad: set<StreamId>)
    requires sid !in n.sessions
    ensures Handle(n, Data(sid, payload), from, bad) == Quiet(n)
    ensures Handle(n, Probe(sid, payload), from, bad) == Quiet(n)
    ensures Handle(n, Success(sid), from, bad) == Quiet(n)
  {
  }

  // ----- SetSession -----

  /** A client takes no role but the answer's: any other request leaves it as it was. */
  lemma ClientRefuses(n: Node, sid: Sid, role: Role, s: Stream, bad: set<StreamId>)
    requires n.mode == ClientMode && role != Answer
    ensures Handle(n, SetSession(sid, role), s, bad) == Quiet(n) && !Accepts(n, sid, role)
  {
  }

  /**
    Otherwise, unless it is an entry asked to be the relay, the stream joins the session: the pair
    grows by it at the end if there was room, the role is the one asked for if the session is new,
    and the stream is indexed under the session. A client that becomes an answer has a circuit.
  */
  lemma StreamJoins(n: Node, sid: Sid, role: Role, s: Stream, bad: set<StreamId>)
    requires n.mode == ServerMode || role == Answer
    requires !(sid in n.sessions && n.sessions[sid].role == Entry && role == Relayer)
    requires |PairOf(n, sid)| <= 2
    ensures var (e, pair) := (Handle(n, SetSession(sid, role), s, bad), PairOf(n, sid));
            && Accepts(n, sid, role) && e.sends == [] && e.shut == [] && sid in e.node.sessions
            && PairOf(e.node, sid) == (if |pair| < 2 then pair + [s] else pair)
            && e.node.sessions[sid].role == (if sid in n.sessions then n.sessions[sid].role else role)
            && s.id in e.node.streams && e.node.streams[s.id] == StreamInfo(s, sid)
            && e.node.streams - {s.id} == n.streams - {s.id} && e.node.sessions - {sid} == n.sessions - {sid}
            && e.node.probes == n.probes && e.node.secured == n.secured
            && e.node.circuits - {sid} == n.circuits - {sid}
            && (sid in n.circuits ==> e.node.circuits == n.circuits)
            && (sid in e.node.circuits <==> sid in n.circuits || n.mode == ClientMode)
  {
  }

  /**
    An entry with both streams that is asked to be the relay as well tells its second stream
    Disconnect, puts the new one in its place and takes the old one out of the index.
  */
  lemma EntrySwaps(n: Node, sid: Sid, s: Stream, bad: set<StreamId>)
    requires n.mode == ServerMode && sid in n.sessions && n.sessions[sid].role == Entry && |n.sessions[sid].pair| == 2
    requires n.sessions[sid].pair[1].id != s.id
    ensures var (e, pair) := (Handle(n, SetSession(sid, Relayer), s, bad), n.sessions[sid].pair);
            && Accepts(n, sid, Relayer) && e.shut == []
            && e.sends == (if pair[1].id in bad then [] else [Send(pair[1], Disconnect(sid))])
            && e.node.sessions == n.sessions[sid := Session(Entry, [pair[0], s])]
            && pair[1].id !in e.node.streams && s.id in e.node.streams && e.node.streams[s.id] == StreamInfo(s, sid)
            && e.node.circuits == n.circuits && e.node.probes == n.probes && e.node.secured == n.secured
  {
  }

  /** One without the second stream yet closes the circuit and refuses. */
  lemma HalfEntryCloses(n: Node, sid: Sid, s: Stream, bad: set<StreamId>)
    requires n.mode == ServerMode && sid in n.sessions && n.sessions[sid].role == Entry && |n.sessions[sid].pair| != 2
    ensures var e := Handle(n, SetSession(sid, Relayer), s, bad);
            && !Accepts(n, sid, Relayer) && Forgotten(e.node, sid) && e.shut == n.sessions[sid].pair
            && ToldExactly(e.sends, n.sessions[sid].pair, Disconnect(sid), None, bad)
  {
    hide ToldExactly;
    ClosingTells(n, sid, bad);
  }

  // ----- closed streams -----

  /**
    The notice that a stream was closed: the session it is indexed under is closed, with
    Disconnect to all its streams that accept it, and the stream leaves the index.
  */
  lemma ClosedStreamTells(n: Node, id: StreamId, bad: set<StreamId>)
    requires id in n.streams
    ensures var (e, sid) := (HandleStreamClosed(n, id, bad), n.streams[id].sid);
            && e.node.streams == n.streams - {id}
            && (sid == UNBOUND ==> e.sends == [] && e.shut == [] && e.node == n.(streams := n.streams - {id}))
            && (sid != UNBOUND ==>
                  && Forgotten(e.node, sid) && e.shut == PairOf(n, sid)
                  && ToldExactly(e.sends, PairOf(n, sid), Disconnect(sid), None, bad))
  {
    hide ToldExactly;
    ClosingTells(n, n.streams[id].sid, bad);
  }
}
