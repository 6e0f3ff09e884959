/**
  One end of the handshake against any peer at all (secure/handshake.go, secure/session.go):
  whatever messages arrive, a handshake that ends without error has verified an identity.
*/
module SecureConn {
  import opened Basics
  import opened SecureStream
  import opened Noise
  import opened Handshake
  import R = Relay

  /** One write fewer. */
  function Less(writes: nat): nat {
    if writes > 0 then writes - 1 else 0
  }

  /**
    runHandshake to its end: `incoming` are the messages that arrive, from whomever, and `writes`
    says how many writes succeed.
  */
  function RunAlone(cr: Crypto, p: Party, incoming: seq<bytes>, writes: nat): (q: Party)
    ensures !q.Running()
    decreases Remaining(p)
  {
    if !p.Running() then
      p
    else if p.ToSend() then
      var q := SendMessage(cr, p, writes > 0).party;
      RunAlone(cr, q, incoming, Less(writes))
    else if incoming == [] then
      p.(fault := Some(ReadError))
    else
      ReadAdvances(cr, p, incoming[0]);
      RunAlone(cr, ReadNext(cr, p, incoming[0]), incoming[1..], writes)
  }

  /** The signature check has bound the remote identity key to the static key of this handshake. */
  predicate Verified(cr: Crypto, p: Party, dialled: R.Peer) {
    && p.hs.rs.Some? && cr.ids.verify(p.remoteKey, cr.prefix + p.hs.rs.value, p.remoteSig)
    && cr.ids.peerId(p.remoteKey) == Some(p.remoteId)
    && (p.initiator ==> p.remoteId == dialled)
  }

  /** From which message on a running party must have verified its peer. */
  predicate Sound(cr: Crypto, p: Party, dialled: R.Peer) {
    && (p.initiator && p.pc < 2 ==> p.remoteId == dialled)
    && (p.fault.None? && p.pc >= (if p.initiator then 2 else 3) ==> Verified(cr, p, dialled))
  }

  /** Writing teaches nothing about the peer. */
  lemma {:induction false} WritingKeepsKeys(su: Suite, hs: HandshakeState, tokens: seq<Token>)
    ensures var wrote := WriteTokens(su, hs, tokens); wrote.Wrote? ==> wrote.hs.rs == hs.rs && wrote.hs.re == hs.re
    decreases |tokens|
  {
    if tokens != [] {
      var one := WriteToken(su, hs, tokens[0]);
      if one.Wrote? {
        WritingKeepsKeys(su, one.hs, tokens[1..]);
      }
    }
  }

  lemma SendSound(cr: Crypto, p: Party, dialled: R.Peer, ok: bool)
    requires Sound(cr, p, dialled) && p.ToSend()
    ensures Sound(cr, SendMessage(cr, p, ok).party, dialled) && SendMessage(cr, p, ok).party.initiator == p.initiator
  {
    hide WriteTokens, Sealed, Absorbed, OwnPayload;
    WritingKeepsKeys(cr.suite, p.hs, XX[p.pc]);
  }

  lemma ReadSound(cr: Crypto, p: Party, dialled: R.Peer, m: bytes)
    requires Sound(cr, p, dialled) && p.ToRead()
    ensures Sound(cr, ReadNext(cr, p, m), dialled) && ReadNext(cr, p, m).initiator == p.initiator
  {
    hide ReadMessage;
  }

  /** Whatever arrives, a handshake that ends without error has verified its peer. */
  lemma {:induction false} FinishedIsVerified(cr: Crypto, p: Party, incoming: seq<bytes>, writes: nat, dialled: R.Peer)
    requires Sound(cr, p, dialled)
    ensures var q := RunAlone(cr, p, incoming, writes);
            q.initiator == p.initiator && (q.Done() ==> Verified(cr, q, dialled))
    decreases Remaining(p)
  {
    hide Sound, SendMessage, ReadNext;
    if !p.Running() {
      SoundEnd(cr, p, dialled);
    } else if p.ToSend() {
      SendSound(cr, p, dialled, writes > 0);
      SendAdvances(cr, p, writes > 0);
      FinishedIsVerified(cr, SendMessage(cr, p, writes > 0).party, incoming, Less(writes), dialled);
    } else if incoming != [] {
      ReadSound(cr, p, dialled, incoming[0]);
      ReadAdvances(cr, p, incoming[0]);
      FinishedIsVerified(cr, ReadNext(cr, p, incoming[0]), incoming[1..], writes, dialled);
    }
  }

  lemma SendAdvances(cr: Crypto, p: Party, ok: bool)
    requires p.ToSend()
    ensures Remaining(SendMessage(cr, p, ok).party) < Remaining(p)
  {
    hide WriteMessage;
  }

  lemma SoundEnd(cr: Crypto, p: Party, dialled: R.Peer)
    requires Sound(cr, p, dialled)
    ensures p.Done() ==> Verified(cr, p, dialled)
  {
  }

  /** SecureSession while runHandshake works on it, field by field. */
  class Session {
    const cr: Crypto
    const initiator: bool
    const identity: Secret
    var remoteId: R.Peer
    var remoteKey: bytes
    var remoteSig: bytes
    var hs: HandshakeState
    var enc: Option<Cipher>
    var dec: Option<Cipher>

    constructor (cr: Crypto, initiator: bool, identity: Secret, remote: R.Peer, s: Secret, e: Secret)
      ensures View(0, None) == NewParty(initiator, identity, remote, s, e) && this.cr == cr
    {
      this.cr, this.initiator, this.identity := cr, initiator, identity;
      remoteId, remoteKey, remoteSig := remote, [], [];
      hs := NewParty(initiator, identity, remote, s, e).hs;
      enc, dec := None, None;
    }

    /** The session as a party that has come to message pc of the pattern. */
    function View(pc: nat, fault: Option<Fault>): Party
      reads this
    {
      Party(initiator, identity, remoteId, remoteKey, remoteSig, hs, pc, enc, dec, fault)
    }

    method SetCipherStates(cs1: Cipher, cs2: Cipher)
      modifies this`enc, this`dec
      ensures if initiator then enc == Some(cs1) && dec == Some(cs2) else enc == Some(cs2) && dec == Some(cs1)
    {
      if initiator {
        enc, dec := Some(cs1), Some(cs2);
      } else {
        enc, dec := Some(cs2), Some(cs1);
      }
    }

    method SendHandshakeMessage(pc: nat, payload: bytes, ok: bool) returns (fault: Option<Fault>)
      requires View(pc, None).ToSend()
      requires payload == (if initiator && pc == 0 then [] else OwnPayload(cr, View(pc, None)))
      modifies this
      ensures var q := SendMessage(cr, old(View(pc, None)), ok).party;
              fault == q.fault && View(q.pc, q.fault) == q
    {
      var wrote := WriteMessage(cr.suite, hs, XX[pc], payload);
      if wrote.WriteFails? {
        return Some(NoiseError);
      }
      hs := wrote.hs;
      if !ok {
        return Some(WriteError);
      }
      if pc == 2 {
        SetCipherStates(Cipher(cr.suite.split1(hs.sym.ck), 0), Cipher(cr.suite.split2(hs.sym.ck), 0));
      }
      return None;
    }

    method HandleRemoteHandshakePayload(pc: nat, payload: bytes) returns (fault: Option<Fault>)
      modifies this`remoteId, this`remoteKey, this`remoteSig
      ensures var q := HandlePayload(cr, old(View(pc, None)), payload);
              fault == q.fault && View(pc, fault) == q
    {
      var fields := cr.ids.decode(payload);
      if fields.None? {
        return Some(BadPayload);
      }
      var (key, sig) := fields.value;
      var id := cr.ids.peerId(key);
      if id.None? {
        return Some(BadKey);
      }
      if initiator && remoteId != id.value {
        return Some(IdMismatch);
      }
      if hs.rs.None? || !cr.ids.verify(key, cr.prefix + hs.rs.value, sig) {
        return Some(BadSignature);
      }
      remoteId, remoteKey, remoteSig := id.value, key, sig;
      return None;
    }

    /** The third message brings the ciphers before its payload is looked at. */
    method ReadHandshakeMessage(pc: nat, fields: bytes) returns (fault: Option<Fault>)
      requires View(pc, None).ToRead()
      modifies this
      ensures var q := ReadNext(cr, old(View(pc, None)), fields);
              fault == q.fault && View(q.pc, q.fault) == q
    {
      var got := ReadMessage(cr.suite, hs, XX[pc], fields);
      if got.BadMessage? {
        return Some(NoiseError);
      }
      hs := got.hs;
      if pc == 2 {
        SetCipherStates(Cipher(cr.suite.split1(hs.sym.ck), 0), Cipher(cr.suite.split2(hs.sym.ck), 0));
      }
      if pc > 0 {
        fault := HandleRemoteHandshakePayload(pc, got.payload);
        return;
      }
      return None;
    }

    /** The initiator sends, reads and checks, sends; the responder reads, sends, reads and checks. */
    method RunHandshake(incoming: seq<bytes>, writes: nat) returns (fault: Option<Fault>)
      modifies this
      ensures var q := RunAlone(cr, old(View(0, None)), incoming, writes);
              fault == q.fault && View(q.pc, q.fault) == q
    {
      hide SendMessage, ReadNext, OwnPayload, RunAlone;
      if initiator {
        AloneSends(cr, View(0, None), incoming, writes);
        fault := SendHandshakeMessage(0, [], writes > 0);
        if fault.Some? {
          return;
        }
        AloneReads(cr, View(1, None), incoming, writes - 1);
        if incoming == [] {
          return Some(ReadError);
        }
        fault := ReadHandshakeMessage(1, incoming[0]);
        if fault.Some? {
          return;
        }
        AloneSends(cr, View(2, None), incoming[1..], writes - 1);
        fault := SendHandshakeMessage(2, OwnPayload(cr, View(2, None)), writes > 1);
      } else {
        AloneReads(cr, View(0, None), incoming, writes);
        if incoming == [] {
          return Some(ReadError);
        }
        fault := ReadHandshakeMessage(0, incoming[0]);
        if fault.Some? {
          return;
        }
        AloneSends(cr, View(1, None), incoming[1..], writes);
        fault := SendHandshakeMessage(1, OwnPayload(cr, View(1, None)), writes > 0);
        if fault.Some? {
          return;
        }
        AloneReads(cr, View(2, None), incoming[1..], writes - 1);
        if |incoming| == 1 {
          return Some(ReadError);
        }
        fault := ReadHandshakeMessage(2, incoming[1]);
      }
    }
  }

  /** A sending stage of runHandshake. */
  lemma AloneSends(cr: Crypto, p: Party, incoming: seq<bytes>, writes: nat)
    requires p.ToSend()
    ensures var q := SendMessage(cr, p, writes > 0).party;
            && q.initiator == p.initiator && (q.fault.None? ==> writes > 0)
            && q.pc == (if q.fault.None? then p.pc + 1 else p.pc)
            && RunAlone(cr, p, incoming, writes)
               == if q.Running() then RunAlone(cr, q, incoming, Less(writes)) else q
  {
    hide WriteMessage;
  }

  /** A reading stage of runHandshake. */
  lemma AloneReads(cr: Crypto, p: Party, incoming: seq<bytes>, writes: nat)
    requires p.ToRead()
    ensures incoming == [] ==> RunAlone(cr, p, incoming, writes) == p.(fault := Some(ReadError))
    ensures incoming != [] ==>
              var q := ReadNext(cr, p, incoming[0]);
              && q.initiator == p.initiator && q.pc == (if q.fault.None? then p.pc + 1 else p.pc)
              && RunAlone(cr, p, incoming, writes)
                 == if q.Running() then RunAlone(cr, q, incoming[1..], writes) else q
  {
    hide ReadMessage;
  }

  // ----- what a handshake leaves behind -----

  /** What is stored of a finished handshake. */
  function EntryOf(p: Party): R.Secured
    requires p.hs.rs.Some?
  {
    R.Secured(p.initiator, p.remoteId, p.remoteKey, p.hs.rs.value, p.remoteSig)
  }

  predicate Authentic(cr: Crypto, x: R.Secured) {
    cr.ids.verify(x.remoteKey, cr.prefix + x.remoteStatic, x.sig) && cr.ids.peerId(x.remoteKey) == Some(x.remoteId)
  }

  /** What a finished handshake on a circuit dialled to `remote` leaves behind. */
  ghost predicate Outcome(cr: Crypto, initiator: bool, remote: R.Peer, x: R.Secured) {
    exists identity, s, e, incoming, writes ::
      var p := RunAlone(cr, NewParty(initiator, identity, remote, s, e), incoming, writes);
      p.Done() && p.hs.rs.Some? && x == EntryOf(p)
  }

  lemma FinishedIsOutcome(cr: Crypto, initiator: bool, remote: R.Peer, identity: Secret, s: Secret, e: Secret,
                          incoming: seq<bytes>, writes: nat)
    requires RunAlone(cr, NewParty(initiator, identity, remote, s, e), incoming, writes).Done()
    ensures var q := RunAlone(cr, NewParty(initiator, identity, remote, s, e), incoming, writes);
            q.hs.rs.Some? && Outcome(cr, initiator, remote, EntryOf(q))
  {
    hide RunAlone;
    FinishedIsVerified(cr, NewParty(initiator, identity, remote, s, e), incoming, writes, remote);
  }

  /**
    NewSecureSession: the entry to store, or None when the handshake failed, or when the select
    saw the circuit's context cancelled and so dropped whatever the handshake comes to.
  */
  method NewSecureSession(cr: Crypto, identity: Secret, initiator: bool, remote: R.Peer, s: Secret, e: Secret,
                          incoming: seq<bytes>, writes: nat, cancelled: bool) returns (entry: Option<R.Secured>)
    ensures var q := RunAlone(cr, NewParty(initiator, identity, remote, s, e), incoming, writes);
            if q.Done() && !cancelled then q.hs.rs.Some? && entry == Some(EntryOf(q)) else entry == None
  {
    hide RunAlone;
    var session := new Session(cr, initiator, identity, remote, s, e);
    var fault := session.RunHandshake(incoming, writes);
    FinishedIsVerified(cr, NewParty(initiator, identity, remote, s, e), incoming, writes, remote);
    if cancelled || fault.Some? {
      return None;
    }
    return Some(R.Secured(session.initiator, session.remoteId, session.remoteKey, session.hs.rs.value,
        session.remoteSig));
  }

  lemma NewIsSound(cr: Crypto, initiator: bool, identity: Secret, remote: R.Peer, s: Secret, e: Secret)
    ensures var p := NewParty(initiator, identity, remote, s, e); p.initiator == initiator && Sound(cr, p, remote)
  {
  }

  /** An outcome is authentic, and a caller's is for the identity it dialled. */
  lemma OutcomeIsAuthentic(cr: Crypto, initiator: bool, remote: R.Peer, x: R.Secured)
    requires Outcome(cr, initiator, remote, x)
    ensures Authentic(cr, x) && x.initiator == initiator && (initiator ==> x.remoteId == remote)
  {
    hide RunAlone, NewParty;
    var identity, s, e, incoming, writes :|
      var p := RunAlone(cr, NewParty(initiator, identity, remote, s, e), incoming, writes);
      p.Done() && p.hs.rs.Some? && x == EntryOf(p);
    NewIsSound(cr, initiator, identity, remote, s, e);
    hide Sound;
    FinishedIsVerified(cr, NewParty(initiator, identity, remote, s, e), incoming, writes, remote);
  }
}
