/**
  runHandshake (secure/handshake.go) at both ends of a pair of FIFO pipes: turns, ciphers and
  identities in every interleaving, and the undisturbed handshake move by move.
*/
module Handshake {
  import opened Basics
  import opened SecureStream
  import opened Noise
  import Relay

  /** Identity keys: peer ids, signatures and the encoding of the handshake payload. */
  datatype Identities = Identities(
    key: Secret -> bytes,
    sign: (Secret, bytes) -> bytes,
    verify: (bytes, bytes, bytes) -> bool,
    peerId: bytes -> Option<Relay.Peer>,
    encode: (bytes, bytes) -> bytes,
    decode: bytes -> Option<(bytes, bytes)>)
  {
    ghost predicate Lawful() {
      && (forall x, m :: verify(key(x), m, sign(x, m)))
      && (forall x :: peerId(key(x)).Some?)
      && (forall k, s :: decode(encode(k, s)) == Some((k, s)))
      && (forall x, m :: |encode(key(x), sign(x, m))| + 2 * DH_LEN + 2 * TAG_SIZE <= MAX_TRANSPORT)
    }
  }

  /** The suite, the identity scheme and the constant that prefixes what is signed. */
  datatype Crypto = Crypto(suite: Suite, ids: Identities, prefix: bytes) {
    ghost predicate Lawful() {
      suite.Lawful() && ids.Lawful()
    }
  }

  /** A pair of byte strings as one: each byte of the first is announced by a 1, its end by a 0. */
  function Pack(k: bytes, s: bytes): bytes {
    if k == [] then [0] + s else [1, k[0]] + Pack(k[1..], s)
  }

  function Unpack(b: bytes): Option<(bytes, bytes)> {
    if b == [] then None
    else if b[0] == 0 then Some(([], b[1..]))
    else if |b| == 1 then None
    else
      match Unpack(b[2..])
      case None => None
      case Some((k, s)) => Some(([b[1]] + k, s))
  }

  lemma {:induction false} UnpackPack(k: bytes, s: bytes)
    ensures Unpack(Pack(k, s)) == Some((k, s))
  {
    if k != [] {
      UnpackPack(k[1..], s);
      assert Pack(k, s)[2..] == Pack(k[1..], s);
      assert [k[0]] + k[1..] == k;
    } else {
      assert Pack(k, s)[1..] == s;
    }
  }

  /** Lawful schemes exist, so nothing about them is vacuous. */
  lemma LawfulCryptoExists()
    ensures exists cr: Crypto :: cr.Lawful()
  {
    LawfulSuiteExists();
    var su: Suite :| su.Lawful();
    var ids := Identities(x => [], (x, m) => [], (k, m, s) => true, k => Some(0), (k, s) => Pack(k, s), b => Unpack(b));
    forall k, s
      ensures ids.decode(ids.encode(k, s)) == Some((k, s))
    {
      UnpackPack(k, s);
    }
    assert Crypto(su, ids, []).Lawful();
  }

  datatype Fault = WriteError | ReadError | NoiseError | BadPayload | BadKey | IdMismatch | BadSignature

  /** A SecureSession during its handshake; `pc` counts the messages it has sent or read. */
  datatype Party = Party(
    initiator: bool, identity: Secret, remoteId: Relay.Peer, remoteKey: bytes, remoteSig: bytes,
    hs: HandshakeState, pc: nat, enc: Option<Cipher>, dec: Option<Cipher>, fault: Option<Fault>)
  {
    predicate Running() {
      fault.None? && pc < 3
    }

    /** The initiator sends first and third, the responder second. */
    predicate ToSend() {
      Running() && (initiator <==> pc != 1)
    }

    predicate ToRead() {
      Running() && (initiator <==> pc == 1)
    }

    predicate Done() {
      fault.None? && pc >= 3
    }
  }

  function NewParty(initiator: bool, identity: Secret, remote: Relay.Peer, s: Secret, e: Secret): Party {
    Party(initiator, identity, remote, [], [],
          HandshakeState(initiator, s, e, false, None, None, Symmetric([], [], None)), 0, None, None, None)
  }

  /** generateHandshakePayload: the identity key and its signature over the static key. */
  function OwnPayload(cr: Crypto, p: Party): bytes {
    cr.ids.encode(cr.ids.key(p.identity), cr.ids.sign(p.identity, cr.prefix + cr.suite.pub(p.hs.s)))
  }

  /** setCipherStates with the two keys of Split. */
  function WithCiphers(cr: Crypto, p: Party): Party {
    var (cs1, cs2) := (Cipher(cr.suite.split1(p.hs.sym.ck), 0), Cipher(cr.suite.split2(p.hs.sym.ck), 0));
    if p.initiator then p.(enc := Some(cs1), dec := Some(cs2)) else p.(enc := Some(cs2), dec := Some(cs1))
  }

  /** handleRemoteHandshakePayload. */
  function HandlePayload(cr: Crypto, p: Party, payload: bytes): Party {
    match cr.ids.decode(payload)
    case None => p.(fault := Some(BadPayload))
    case Some(fields) =>
      var (key, sig) := fields;
      var id := cr.ids.peerId(key);
      if id.None? then p.(fault := Some(BadKey))
      else if p.initiator && p.remoteId != id.value then p.(fault := Some(IdMismatch))
      else if p.hs.rs.None? || !cr.ids.verify(key, cr.prefix + p.hs.rs.value, sig) then p.(fault := Some(BadSignature))
      else p.(remoteId := id.value, remoteKey := key, remoteSig := sig)
  }

  datatype Sent = Sent(party: Party, fields: Option<bytes>)

  /** sendHandshakeMessage; `ok` is whether the connection accepts the message. */
  function SendMessage(cr: Crypto, p: Party, ok: bool): Sent
    requires p.ToSend()
  {
    var payload := if p.initiator && p.pc == 0 then [] else OwnPayload(cr, p);
    match WriteMessage(cr.suite, p.hs, XX[p.pc], payload)
    case WriteFails => Sent(p.(fault := Some(NoiseError)), None)
    case Wrote(hs, fields) =>
      if !ok then Sent(p.(hs := hs, fault := Some(WriteError)), None)
      else
        var p1 := p.(hs := hs, pc := p.pc + 1);
        Sent(if p.pc == 2 then WithCiphers(cr, p1) else p1, Some(fields))
  }

  /** readHandshakeMessage and, where runHandshake does so, handleRemoteHandshakePayload. */
  function ReadNext(cr: Crypto, p: Party, fields: bytes): Party
    requires p.ToRead()
  {
    match ReadMessage(cr.suite, p.hs, XX[p.pc], fields)
    case BadMessage => p.(fault := Some(NoiseError))
    case Message(hs, payload) =>
      var p1 := if p.pc == 2 then WithCiphers(cr, p.(hs := hs)) else p.(hs := hs);
      var p2 := if p.pc == 0 then p1 else HandlePayload(cr, p1, payload);
      if p2.fault.Some? then p2 else p2.(pc := p.pc + 1)
  }

  // ----- the two parties and their pipes -----

  datatype Net = Net(i: Party, r: Party, ir: seq<bytes>, ri: seq<bytes>)

  datatype Move = ISends(ok: bool) | IReads | RSends(ok: bool) | RReads

  predicate Enabled(net: Net, mv: Move) {
    match mv
    case ISends(_) => net.i.ToSend()
    case IReads => net.i.ToRead() && net.ri != []
    case RSends(_) => net.r.ToSend()
    case RReads => net.r.ToRead() && net.ir != []
  }

  function After(cr: Crypto, net: Net, mv: Move): Net
    requires Enabled(net, mv)
  {
    match mv
    case ISends(ok) =>
      var s := SendMessage(cr, net.i, ok);
      net.(i := s.party, ir := if s.fields.Some? then net.ir + [s.fields.value] else net.ir)
    case IReads => net.(i := ReadNext(cr, net.i, net.ri[0]), ri := net.ri[1..])
    case RSends(ok) =>
      var s := SendMessage(cr, net.r, ok);
      net.(r := s.party, ri := if s.fields.Some? then net.ri + [s.fields.value] else net.ri)
    case RReads => net.(r := ReadNext(cr, net.r, net.ir[0]), ir := net.ir[1..])
  }

  /** The caller dials `remote`; both have their identity, static and ephemeral secrets. */
  function Begin(caller: Secret, remote: Relay.Peer, cs: Secret, ce: Secret, answer: Secret, as_: Secret,
                 ae: Secret): Net {
    Net(NewParty(true, caller, remote, cs, ce), NewParty(false, answer, 0, as_, ae), [], [])
  }

  // ----- the invariant -----

  /** Ciphers belong to Split of the final chaining key and are never there before the third message. */
  predicate CiphersFit(cr: Crypto, p: Party) {
    if p.pc == 3 then p.enc == WithCiphers(cr, p).enc && p.dec == WithCiphers(cr, p).dec
    else p.enc.None? && p.dec.None?
  }

  /** The keys a party holds after n messages of the pattern. */
  function KeysAt(initiator: bool, n: nat): Keys {
    if initiator then Keys(n >= 2, n >= 2) else Keys(n >= 1, n >= 3)
  }

  /** Both have processed n messages and the pipes are empty. */
  predicate Level(cr: Crypto, net: Net, n: nat) {
    && net.i.pc == n && net.r.pc == n && net.ir == [] && net.ri == []
    && InStep(cr.suite, net.i.hs, net.r.hs)
    && KeysOf(net.i.hs) == KeysAt(true, n) && KeysOf(net.r.hs) == KeysAt(false, n)
  }

  /** Message n is on its way from w to r, who will read it in step with w. */
  predicate Pending(cr: Crypto, w: Party, r: Party, m: bytes, n: nat)
    requires n < 3
  {
    && w.pc == n + 1 && r.pc == n
    && var got := ReadMessage(cr.suite, r.hs, XX[n], m);
       && got.Message? && InStep(cr.suite, w.hs, got.hs)
       && KeysOf(w.hs) == KeysAt(w.initiator, n + 1) && KeysOf(got.hs) == KeysAt(r.initiator, n + 1)
       && (n > 0 ==> got.payload == OwnPayload(cr, w))
  }

  predicate InTurn(cr: Crypto, net: Net) {
    || (exists n :: 0 <= n <= 3 && Level(cr, net, n))
    || (|net.ir| == 1 && net.ri == []
       && (Pending(cr, net.i, net.r, net.ir[0], 0) || Pending(cr, net.i, net.r, net.ir[0], 2)))
    || (|net.ri| == 1 && net.ir == [] && Pending(cr, net.r, net.i, net.ri[0], 1))
  }

  /** What verification has established about the other side. */
  predicate Trusts(cr: Crypto, p: Party, other: Party, since: nat) {
    p.pc >= since ==>
      && p.remoteKey == cr.ids.key(other.identity) && Some(p.remoteId) == cr.ids.peerId(p.remoteKey)
      && p.remoteSig == cr.ids.sign(other.identity, cr.prefix + cr.suite.pub(other.hs.s))
  }

  /** In a run between honest parties only a failed write or a wrong dialled identity can go wrong. */
  predicate FaultsFit(cr: Crypto, net: Net) {
    && (net.i.fault.Some? ==> net.i.fault.value == WriteError || net.i.fault.value == IdMismatch)
    && (net.r.fault.Some? ==> net.r.fault.value == WriteError)
    && (net.i.fault == Some(IdMismatch) ==> cr.ids.peerId(cr.ids.key(net.r.identity)) != Some(net.i.remoteId))
  }

  predicate Inv(cr: Crypto, net: Net, dialled: Relay.Peer) {
    && net.i.initiator && !net.r.initiator && net.i.hs.initiator && !net.r.hs.initiator && net.i.remoteId == dialled
    && CiphersFit(cr, net.i) && CiphersFit(cr, net.r) && FaultsFit(cr, net)
    && (net.i.fault.None? && net.r.fault.None? ==>
          InTurn(cr, net) && Trusts(cr, net.i, net.r, 2) && Trusts(cr, net.r, net.i, 3))
    && (net.i.fault.Some? || net.r.fault.Some? ==>
          net.ir == [] && net.ri == [] && !net.i.ToSend() && !net.r.ToSend() && net.i.pc < 3 && net.r.pc < 3)
  }

  lemma BeginInv(cr: Crypto, caller: Secret, remote: Relay.Peer, cs: Secret, ce: Secret, answer: Secret, as_: Secret,
                 ae: Secret)
    ensures Inv(cr, Begin(caller, remote, cs, ce, answer, as_, ae), remote)
  {
    assert Level(cr, Begin(caller, remote, cs, ce, answer, as_, ae), 0);
  }

  // ----- sending and reading in turn -----

  /** At every stage of XX the writer and the reader hold the keys the message needs. */
  lemma XXIsServed(n: nat)
    requires n < 3
    ensures forall t | t in XX[n] :: Serves(n != 1, KeysAt(n != 1, n), t)
    ensures Supplied(n == 1, KeysAt(n == 1, n), XX[n])
    ensures GainsAll(KeysAt(n == 1, n), XX[n]) == KeysAt(n == 1, n + 1)
    ensures KeysAt(n != 1, n) == KeysAt(n != 1, n + 1)
  {
    if n == 0 {
      assert XX[0] == [E] && XX[0][1..] == [];
    } else if n == 1 {
      var t := XX[1];
      assert t == [E, EE, S, ES] && t[1..] == [EE, S, ES] && t[1..][1..] == [S, ES] && t[1..][1..][1..] == [ES]
          && t[1..][1..][1..][1..] == [];
    } else {
      var t := XX[2];
      assert t == [S, SE] && t[1..] == [SE] && t[1..][1..] == [];
    }
  }

  /** A party that holds its keys and is in step can send message n, and the other can read it. */
  lemma SendKeeps(cr: Crypto, w: Party, r: Party, n: nat)
    requires cr.Lawful() && n < 3 && w.pc == n && r.pc == n && w.ToSend() && w.initiator != r.initiator
    requires w.hs.initiator == w.initiator && r.hs.initiator == r.initiator
    requires InStep(cr.suite, w.hs, r.hs)
    requires KeysOf(w.hs) == KeysAt(w.initiator, n) && KeysOf(r.hs) == KeysAt(r.initiator, n)
    ensures var s := SendMessage(cr, w, true);
            s.fields.Some? && Pending(cr, s.party, r, s.fields.value, n) && SameSelf(s.party.hs, w.hs)
    ensures SendMessage(cr, w, false).fields == None && SendMessage(cr, w, false).party.fault == Some(WriteError)
    ensures SameSelf(SendMessage(cr, w, false).party.hs, w.hs)
  {
    hide Suite.Lawful, Identities.Lawful, InStep, WriteMessage, ReadMessage, KeysOf, Serves, Supplied, GainsAll, KeysAt;
    XXIsServed(n);
    var payload := if w.initiator && w.pc == 0 then [] else OwnPayload(cr, w);
    MessageKeepsStep(cr.suite, w.hs, r.hs, XX[n], payload);
  }

  /** What handling the payload of an honest peer in step comes to. */
  lemma HonestPayload(cr: Crypto, p: Party, w: Party)
    requires cr.Lawful() && p.fault.None? && p.hs.rs == Some(cr.suite.pub(w.hs.s))
    ensures var q := HandlePayload(cr, p, OwnPayload(cr, w));
            var id := cr.ids.peerId(cr.ids.key(w.identity)).value;
            if p.initiator && p.remoteId != id then q == p.(fault := Some(IdMismatch))
            else q == p.(remoteId := id, remoteKey := cr.ids.key(w.identity),
                remoteSig := cr.ids.sign(w.identity, cr.prefix + cr.suite.pub(w.hs.s)))
  {
  }

  lemma InStepKnows(su: Suite, a: HandshakeState, b: HandshakeState)
    requires InStep(su, a, b) && KeysOf(b).rs
    ensures b.rs == Some(su.pub(a.s))
  {
  }

  /** Reading a pending message: in step again, or the caller finds a wrong identity. */
  lemma ReadKeeps(cr: Crypto, w: Party, r: Party, m: bytes, n: nat)
    requires cr.Lawful() && n < 3 && Pending(cr, w, r, m, n) && r.ToRead() && w.initiator != r.initiator
    requires w.hs.initiator == w.initiator && r.hs.initiator == r.initiator
    ensures var q := ReadNext(cr, r, m);
            var id := cr.ids.peerId(cr.ids.key(w.identity)).value;
            && q.initiator == r.initiator && q.identity == r.identity && SameSelf(q.hs, r.hs)
            && cr.ids.peerId(cr.ids.key(w.identity)) == Some(id)
            && if r.initiator && r.remoteId != id then
                 && q.fault == Some(IdMismatch) && q.pc == n && q.remoteId == r.remoteId && n == 1
                 && q.enc == r.enc && q.dec == r.dec
               else
                 && q.fault.None? && q.pc == n + 1 && q.hs == ReadMessage(cr.suite, r.hs, XX[n], m).hs
                 && (n == 0 ==> q.remoteId == r.remoteId)
                 && (n > 0 ==> q.remoteId == id && q.remoteKey == cr.ids.key(w.identity)
                               && q.remoteSig == cr.ids.sign(w.identity, cr.prefix + cr.suite.pub(w.hs.s)))
                 && (n == 2 ==> q.enc == WithCiphers(cr, q).enc && q.dec == WithCiphers(cr, q).dec)
                 && (n < 2 ==> q.enc == r.enc && q.dec == r.dec)
  {
    var got := ReadMessage(cr.suite, r.hs, XX[n], m);
    MessageKeepsSelf(cr.suite, r.hs, XX[n], m);
    assert cr.ids.peerId(cr.ids.key(w.identity)).Some?;
    hide InStep, ReadMessage, KeysOf, HandlePayload, OwnPayload, Crypto.Lawful;
    if n > 0 {
      InStepKnows(cr.suite, w.hs, got.hs);
      var p1 := if n == 2 then WithCiphers(cr, r.(hs := got.hs)) else r.(hs := got.hs);
      HonestPayload(cr, p1, w);
    }
  }

  // ----- whose turn it is -----

  /** A party about to send finds both sides level. */
  lemma SendersAreLevel(cr: Crypto, net: Net)
    requires InTurn(cr, net) && net.i.initiator && !net.r.initiator
    ensures net.i.ToSend() ==> Level(cr, net, net.i.pc)
    ensures net.r.ToSend() ==> Level(cr, net, net.r.pc)
  {
    hide InStep, ReadMessage, KeysOf;
  }

  /** A party that finds a message reads the one the other has just sent. */
  lemma ReadersHavePending(cr: Crypto, net: Net)
    requires InTurn(cr, net) && net.i.initiator && !net.r.initiator
    ensures net.i.ToRead() && net.ri != [] ==> |net.ri| == 1 && net.ir == [] && Pending(cr, net.r, net.i, net.ri[0], 1)
    ensures net.r.ToRead() && net.ir != [] ==>
              |net.ir| == 1 && net.ri == [] && (net.r.pc == 0 || net.r.pc == 2)
                  && Pending(cr, net.i, net.r, net.ir[0], net.r.pc)
  {
    hide InStep, ReadMessage, KeysOf;
  }

  lemma SendStepKeeps(cr: Crypto, net: Net, mv: Move, dialled: Relay.Peer)
    requires cr.Lawful() && Inv(cr, net, dialled) && Enabled(net, mv) && (mv.ISends? || mv.RSends?)
    ensures Inv(cr, After(cr, net, mv), dialled)
  {
    hide Crypto.Lawful, InStep, WriteMessage, ReadMessage, KeysOf, KeysAt, OwnPayload;
    SendersAreLevel(cr, net);
    var (w, r) := if mv.ISends? then (net.i, net.r) else (net.r, net.i);
    if mv.RSends? { InStepSym(cr.suite, net.i.hs, net.r.hs); }
    SendKeeps(cr, w, r, w.pc);
  }

  lemma InStepSym(su: Suite, a: HandshakeState, b: HandshakeState)
    requires InStep(su, a, b)
    ensures InStep(su, b, a)
  {
  }

  lemma ReadStepKeeps(cr: Crypto, net: Net, mv: Move, dialled: Relay.Peer)
    requires cr.Lawful() && Inv(cr, net, dialled) && Enabled(net, mv) && (mv.IReads? || mv.RReads?)
    ensures Inv(cr, After(cr, net, mv), dialled)
  {
    hide Crypto.Lawful, InStep, ReadMessage, KeysOf, KeysAt, OwnPayload, ReadNext;
    ReadersHavePending(cr, net);
    var net' := After(cr, net, mv);
    if mv.IReads? {
      ReadKeeps(cr, net.r, net.i, net.ri[0], 1);
      if net'.i.fault.None? {
        InStepSym(cr.suite, net.r.hs, net'.i.hs);
        assert Level(cr, net', 2);
      }
    } else {
      ReadKeeps(cr, net.i, net.r, net.ir[0], net.r.pc);
      assert Level(cr, net', net.r.pc + 1);
    }
  }

  /** Every move of either party keeps the invariant. */
  lemma StepKeeps(cr: Crypto, net: Net, mv: Move, dialled: Relay.Peer)
    requires cr.Lawful() && Inv(cr, net, dialled) && Enabled(net, mv)
    ensures Inv(cr, After(cr, net, mv), dialled)
  {
    hide Inv, After, Enabled, Crypto.Lawful;
    if mv.ISends? || mv.RSends? {
      SendStepKeeps(cr, net, mv, dialled);
    } else {
      ReadStepKeeps(cr, net, mv, dialled);
    }
  }

  // ----- whole runs -----

  predicate IsRun(cr: Crypto, nets: seq<Net>, moves: seq<Move>) {
    && |nets| == |moves| + 1
    && forall k :: 0 <= k < |moves| ==> Enabled(nets[k], moves[k]) && nets[k + 1] == After(cr, nets[k], moves[k])
  }

  lemma {:induction false} RunKeeps(cr: Crypto, nets: seq<Net>, moves: seq<Move>, dialled: Relay.Peer)
    requires cr.Lawful() && IsRun(cr, nets, moves) && Inv(cr, nets[0], dialled)
    ensures Inv(cr, nets[|moves|], dialled)
    decreases |moves|
  {
    hide Inv, After, Enabled, Crypto.Lawful;
    if moves != [] {
      var n := |moves| - 1;
      var before := nets[..|moves|];
      assert (forall k :: 0 <= k < n ==> moves[..n][k] == moves[k])
          && (forall k :: 0 <= k < |before| ==> before[k] == nets[k]);
      RunKeeps(cr, before, moves[..n], dialled);
      assert Enabled(nets[n], moves[n]) && nets[n + 1] == After(cr, nets[n], moves[n]);
      StepKeeps(cr, nets[n], moves[n], dialled);
    }
  }

  /** Whoever's turn it is can move: no interleaving gets stuck before both are done or one has failed. */
  lemma NeverStuck(cr: Crypto, net: Net, dialled: Relay.Peer)
    requires Inv(cr, net, dialled)
    ensures (net.i.Done() && net.r.Done()) || net.i.fault.Some? || net.r.fault.Some? || exists mv :: Enabled(net, mv)
  {
    hide InStep, ReadMessage, KeysOf, KeysAt;
    if net.i.fault.None? && net.r.fault.None? {
      assert Enabled(net, ISends(true)) || Enabled(net, IReads) || Enabled(net, RSends(true)) || Enabled(net, RReads)
          || (net.i.pc == 3 && net.r.pc == 3);
    }
  }

  /** Turns are strict: never are both parties able to move, and at most one message is under way. */
  lemma OneAtATime(cr: Crypto, net: Net, a: Move, b: Move, dialled: Relay.Peer)
    requires Inv(cr, net, dialled) && Enabled(net, a) && Enabled(net, b)
    ensures (a.ISends? <==> b.ISends?) && (a.IReads? <==> b.IReads?) && (a.RSends? <==> b.RSends?)
    ensures |net.ir| + |net.ri| <= 1
  {
    hide InStep, ReadMessage, KeysOf, KeysAt;
  }

  /** Every move brings a party forward or ends it, so a handshake takes at most six moves. */
  lemma MovesAdvance(cr: Crypto, net: Net, mv: Move)
    requires Enabled(net, mv)
    ensures var net' := After(cr, net, mv);
            var (left, left') := (Remaining(net.i) + Remaining(net.r), Remaining(net'.i) + Remaining(net'.r));
            left' < left
  {
    hide WriteMessage, ReadMessage, HandlePayload;
    if mv.IReads? { ReadAdvances(cr, net.i, net.ri[0]); }
    if mv.RReads? { ReadAdvances(cr, net.r, net.ir[0]); }
  }

  lemma ReadAdvances(cr: Crypto, p: Party, m: bytes)
    requires p.ToRead()
    ensures Remaining(ReadNext(cr, p, m)) < Remaining(p)
  {
    hide ReadMessage;
  }

  function Remaining(p: Party): nat {
    if p.Running() then 3 - p.pc else 0
  }

  /**
    Main result. In every interleaving: neither party can encrypt or decrypt before it has sent
    or read the third message; and when both have finished, the caller's sending cipher is the
    answer's receiving one and the other way round, with equal counters, each has verified the
    other's identity, and the caller talks to the peer it dialled.
  */
  lemma HandshakeAgrees(cr: Crypto, nets: seq<Net>, moves: seq<Move>, caller: Secret, dialled: Relay.Peer,
                        cs: Secret, ce: Secret, answer: Secret, as_: Secret, ae: Secret)
    requires cr.Lawful() && IsRun(cr, nets, moves) && nets[0] == Begin(caller, dialled, cs, ce, answer, as_, ae)
    ensures var net := nets[|moves|];
            && (net.i.pc < 3 ==> net.i.enc.None? && net.i.dec.None?)
            && (net.r.pc < 3 ==> net.r.enc.None? && net.r.dec.None?)
            && (net.i.Done() && net.r.Done() ==>
                  && net.i.enc.Some? && net.i.enc == net.r.dec && net.i.dec.Some? && net.i.dec == net.r.enc
                  && net.i.enc.value.n == 0 && net.i.dec.value.n == 0
                  && net.i.remoteKey == cr.ids.key(net.r.identity) && net.r.remoteKey == cr.ids.key(net.i.identity)
                  && net.i.remoteId == dialled && cr.ids.peerId(net.i.remoteKey) == Some(dialled))
            && (net.i.fault == Some(IdMismatch) ==> cr.ids.peerId(cr.ids.key(net.r.identity)) != Some(dialled))
  {
    BeginInv(cr, caller, dialled, cs, ce, answer, as_, ae);
    RunKeeps(cr, nets, moves, dialled);
    hide IsRun, ReadMessage, KeysOf, KeysAt, Crypto.Lawful;
  }

  // ----- for whoever carries the messages -----

  /** An honest handshake message fits its 16-bit length prefix. */
  lemma MessageFits(cr: Crypto, p: Party)
    requires cr.Lawful() && p.ToSend()
    ensures var s := SendMessage(cr, p, true); s.fields.Some? ==> |s.fields.value| <= MAX_TRANSPORT
  {
    var payload := if p.initiator && p.pc == 0 then [] else OwnPayload(cr, p);
    assert |payload| + 2 * DH_LEN + 2 * TAG_SIZE <= MAX_TRANSPORT;
    XXBound(p.pc);
    if WriteMessage(cr.suite, p.hs, XX[p.pc], payload).Wrote? {
      MessageBound(cr.suite, p.hs, XX[p.pc], payload);
    }
  }

  lemma XXBound(n: nat)
    requires n < 3
    ensures MostBytes(XX[n]) <= 2 * DH_LEN + TAG_SIZE
  {
    if n == 0 {
      assert XX[0] == [E] && XX[0][1..] == [];
    } else if n == 1 {
      var t := XX[1];
      assert t == [E, EE, S, ES] && t[1..] == [EE, S, ES] && t[1..][1..] == [S, ES];
      assert t[1..][1..][1..] == [ES] && t[1..][1..][1..][1..] == [];
    } else {
      var t := XX[2];
      assert t == [S, SE] && t[1..] == [SE] && t[1..][1..] == [];
    }
  }

  /** What the invariant says about ends that are done and messages under way. */
  lemma DoneFacts(cr: Crypto, net: Net, dialled: Relay.Peer)
    requires Inv(cr, net, dialled)
    ensures net.r.Done() ==> net.i.Done() && net.ir == [] && net.ri == []
    ensures net.i.Done() && !net.r.Done() ==> |net.ir| == 1 && net.ri == [] && net.r.ToRead()
    ensures net.i.Done() ==> net.i.enc.Some? && net.i.dec.Some?
    ensures net.r.Done() ==> net.r.dec == net.i.enc && net.r.enc == net.i.dec
    ensures net.i.ToSend() ==> net.ir == [] && net.ri == []
    ensures net.r.ToSend() ==> net.ir == [] && net.ri == []
    ensures net.i.ToRead() && net.ri != [] ==> |net.ri| == 1
    ensures net.r.ToRead() && net.ir != [] ==> |net.ir| == 1
  {
    hide ReadMessage, KeysOf, KeysAt;
  }

  /** In its turn a party does send a message. */
  lemma SendsSomething(cr: Crypto, net: Net, mv: Move, dialled: Relay.Peer)
    requires cr.Lawful() && Inv(cr, net, dialled) && Enabled(net, mv) && (mv == ISends(true) || mv == RSends(true))
    ensures var s := SendMessage(cr, if mv.ISends? then net.i else net.r, true);
            s.fields.Some? && |s.fields.value| <= MAX_TRANSPORT && s.party.fault.None?
  {
    hide Crypto.Lawful, InStep, WriteMessage, ReadMessage, KeysOf, KeysAt, OwnPayload;
    SendersAreLevel(cr, net);
    var (w, r) := if mv.ISends? then (net.i, net.r) else (net.r, net.i);
    if mv.RSends? { InStepSym(cr.suite, net.i.hs, net.r.hs); }
    SendKeeps(cr, w, r, w.pc);
    MessageFits(cr, w);
  }

  /** When both are done the caller has verified the peer it dialled. */
  lemma DoneTrusts(cr: Crypto, net: Net, dialled: Relay.Peer)
    requires Inv(cr, net, dialled) && net.i.Done() && net.r.Done()
    ensures net.i.remoteKey == cr.ids.key(net.r.identity) && cr.ids.peerId(net.i.remoteKey) == Some(dialled)
  {
    hide InTurn, CiphersFit;
  }

  // ----- the undisturbed handshake -----

  /** No write fails. */
  predicate Succeeds(mv: Move) {
    mv != ISends(false) && mv != RSends(false)
  }

  /** Neither end has failed, and the caller dialled the answer's peer id. */
  predicate Clean(cr: Crypto, net: Net, dialled: Relay.Peer) {
    net.i.fault.None? && net.r.fault.None? && cr.ids.peerId(cr.ids.key(net.r.identity)) == Some(dialled)
  }

  /** While no write fails, a caller that dialled the right peer meets no fault, nor does the answer. */
  lemma CleanTurn(cr: Crypto, net: Net, mv: Move, dialled: Relay.Peer)
    requires cr.Lawful() && Inv(cr, net, dialled) && Clean(cr, net, dialled) && Enabled(net, mv) && Succeeds(mv)
    ensures var net' := After(cr, net, mv);
            && Inv(cr, net', dialled) && Clean(cr, net', dialled)
            && net'.i.pc == net.i.pc + (if mv.ISends? || mv.IReads? then 1 else 0)
            && net'.r.pc == net.r.pc + (if mv.RSends? || mv.RReads? then 1 else 0)
            && net'.ir == (if mv.ISends? then net.ir + [SendMessage(cr, net.i, true).fields.value]
                           else if mv.RReads? then net.ir[1..] else net.ir)
            && net'.ri == (if mv.RSends? then net.ri + [SendMessage(cr, net.r, true).fields.value]
                           else if mv.IReads? then net.ri[1..] else net.ri)
            && (mv.ISends? ==> SendMessage(cr, net.i, true).fields.Some?)
            && (mv.RSends? ==> SendMessage(cr, net.r, true).fields.Some?)
  {
    StepKeeps(cr, net, mv, dialled);
    if mv.ISends? || mv.RSends? { SendsSomething(cr, net, mv, dialled); }
    assert FaultsFit(cr, After(cr, net, mv));
    hide Inv, FaultsFit, WriteMessage, ReadMessage, OwnPayload, Crypto.Lawful;
    TurnFaults(cr, net, mv);
  }

  /** A read never fails in writing, and nobody changes identity. */
  lemma TurnFaults(cr: Crypto, net: Net, mv: Move)
    requires Enabled(net, mv) && Succeeds(mv)
    ensures var net' := After(cr, net, mv);
            && (mv.IReads? ==> net'.i.fault != Some(WriteError)) && (mv.RReads? ==> net'.r.fault != Some(WriteError))
            && net'.r.identity == net.r.identity
            && (mv.IReads? || mv.ISends? ==> net'.r == net.r) && (mv.RReads? || mv.RSends? ==> net'.i == net.i)
  {
    hide WriteMessage, ReadMessage;
  }

  /** Where the two ends are after k moves of a handshake in which nothing goes wrong. */
  predicate Stage(net: Net, k: nat) {
    && net.i.initiator && !net.r.initiator
    && net.i.pc == (if k == 0 then 0 else if k < 4 then 1 else if k == 4 then 2 else 3)
    && net.r.pc == (if k < 2 then 0 else if k == 2 then 1 else if k < 6 then 2 else 3)
    && |net.ir| == (if k == 1 || k == 5 then 1 else 0) && |net.ri| == (if k == 3 then 1 else 0)
  }

  function MoveAt(k: nat): Move {
    if k == 0 || k == 4 then ISends(true) else if k == 2 then RSends(true) else if k == 3 then IReads else RReads
  }

  lemma StageTurns(cr: Crypto, net: Net, k: nat, dialled: Relay.Peer)
    requires cr.Lawful() && Inv(cr, net, dialled) && Clean(cr, net, dialled) && Stage(net, k) && k < 6
    ensures Enabled(net, MoveAt(k))
    ensures var net' := After(cr, net, MoveAt(k));
            Inv(cr, net', dialled) && Clean(cr, net', dialled) && Stage(net', k + 1)
  {
    CleanTurn(cr, net, MoveAt(k), dialled);
    assert After(cr, net, MoveAt(k)).i.initiator && !After(cr, net, MoveAt(k)).r.initiator;
    hide After, Inv, Crypto.Lawful;
  }

  /** A handshake without fault has come to one of the seven stages. */
  lemma StageOf(cr: Crypto, net: Net, dialled: Relay.Peer) returns (k: nat)
    requires Inv(cr, net, dialled) && Clean(cr, net, dialled)
    ensures k <= 6 && Stage(net, k)
  {
    assert InTurn(cr, net);
    hide InStep, ReadMessage, KeysOf, KeysAt, CiphersFit, FaultsFit, Trusts;
    k := net.i.pc + net.r.pc;
  }
}
