/**
  What the XX handshake of runHandshake (secure/handshake.go) mixes and writes: pattern XX of
  section 7.5 of the Noise Protocol Framework, revision 34, written out message by message, and
  the secrets every cipher comes from. Nothing here is phrased in tokens.
*/
module HandshakeKeys {
  import opened Basics
  import opened SecureStream
  import opened Noise
  import opened Handshake
  import opened SecureConn
  import Relay

  // ----- one end, whoever is at the other -----

  /**
    What an end has mixed after n messages: its ephemeral with the peer's, then the caller's
    ephemeral with the answer's static, then the caller's static with the answer's ephemeral.
  */
  predicate MixedAt(su: Suite, hs: HandshakeState, n: nat) {
    var (s, e, ck) := (hs.s, hs.e, hs.sym.ck);
    if n == 0 || (n == 1 && hs.initiator) then ck == []
    else if n == 1 then hs.re.Some? && ck == []
    else
      && hs.re.Some? && (hs.initiator || n > 2 ==> hs.rs.Some?)
      && var two := su.mixKey(su.mixKey([], su.dh(e, hs.re.value)),
                              if hs.initiator then su.dh(e, hs.rs.value) else su.dh(s, hs.re.value));
         ck == if n == 2 then two
               else su.mixKey(two, if hs.initiator then su.dh(s, hs.re.value) else su.dh(e, hs.rs.value))
  }

  /** The first of some tokens at the writer, then the others. */
  lemma WriteFirst(su: Suite, hs: HandshakeState, t: Token, more: seq<Token>)
    ensures var one := WriteToken(su, hs, t);
            var rest := if one.Wrote? then WriteTokens(su, one.hs, more) else WriteFails;
            WriteTokens(su, hs, [t] + more)
            == if rest.Wrote? then Wrote(rest.hs, one.fields + rest.fields) else WriteFails
  {
    assert ([t] + more)[1..] == more;
  }

  lemma ReadFirst(su: Suite, hs: HandshakeState, t: Token, more: seq<Token>, fields: bytes)
    ensures var one := ReadToken(su, hs, t, fields);
            ReadTokens(su, hs, [t] + more, fields)
            == if one.Took? then ReadTokens(su, one.hs, more, one.rest) else TakeFails
  {
    assert ([t] + more)[1..] == more;
  }

  /** The tokens of message n, one by one. */
  lemma XXTokens(n: nat)
    requires n < 3
    ensures n == 0 ==> XX[n] == [E] + []
    ensures n == 1 ==> XX[n] == [E] + ([EE] + ([S] + ([ES] + [])))
    ensures n == 2 ==> XX[n] == [S] + ([SE] + [])
  {
  }

  lemma SendMixes(cr: Crypto, p: Party, ok: bool)
    requires p.ToSend() && p.hs.initiator == p.initiator && MixedAt(cr.suite, p.hs, p.pc)
    ensures var q := SendMessage(cr, p, ok).party;
            q.fault.None? ==> SameSelf(q.hs, p.hs) && MixedAt(cr.suite, q.hs, q.pc)
  {
    var (su, hs) := (cr.suite, p.hs);
    XXTokens(p.pc);
    if p.pc == 0 {
      WriteFirst(su, hs, E, []);
    } else if p.pc == 1 {
      WriteFirst(su, hs, E, [EE] + ([S] + ([ES] + [])));
      var h1 := WriteToken(su, hs, E).hs;
      WriteFirst(su, h1, EE, [S] + ([ES] + []));
      var h2 := WriteToken(su, h1, EE).hs;
      WriteFirst(su, h2, S, [ES] + []);
      WriteFirst(su, WriteToken(su, h2, S).hs, ES, []);
    } else {
      WriteFirst(su, hs, S, [SE] + []);
      WriteFirst(su, WriteToken(su, hs, S).hs, SE, []);
    }
  }

  lemma ReadMixes(cr: Crypto, p: Party, m: bytes)
    requires p.ToRead() && p.hs.initiator == p.initiator && MixedAt(cr.suite, p.hs, p.pc)
    ensures var q := ReadNext(cr, p, m);
            q.fault.None? ==> SameSelf(q.hs, p.hs) && MixedAt(cr.suite, q.hs, q.pc)
  {
    var (su, hs) := (cr.suite, p.hs);
    XXTokens(p.pc);
    if p.pc == 0 {
      ReadFirst(su, hs, E, [], m);
    } else if p.pc == 1 {
      ReadFirst(su, hs, E, [EE] + ([S] + ([ES] + [])), m);
      var t1 := ReadToken(su, hs, E, m);
      if t1.Took? {
        ReadFirst(su, t1.hs, EE, [S] + ([ES] + []), t1.rest);
        var t2 := ReadToken(su, t1.hs, EE, t1.rest);
        ReadFirst(su, t2.hs, S, [ES] + [], t2.rest);
        var t3 := ReadToken(su, t2.hs, S, t2.rest);
        if t3.Took? { ReadFirst(su, t3.hs, ES, [], t3.rest); }
      }
    } else {
      ReadFirst(su, hs, S, [SE] + [], m);
      var t1 := ReadToken(su, hs, S, m);
      if t1.Took? { ReadFirst(su, t1.hs, SE, [], t1.rest); }
    }
  }

  /** The ciphers a finished end works with are Split of its chaining key. */
  predicate Splits(su: Suite, p: Party) {
    var (cs1, cs2) := (Some(Cipher(su.split1(p.hs.sym.ck), 0)), Some(Cipher(su.split2(p.hs.sym.ck), 0)));
    if p.initiator then p.enc == cs1 && p.dec == cs2 else p.enc == cs2 && p.dec == cs1
  }

  lemma SendSplits(cr: Crypto, p: Party, ok: bool)
    requires p.ToSend()
    ensures var q := SendMessage(cr, p, ok).party;
            q.initiator == p.initiator && (q.fault.None? && q.pc == 3 ==> Splits(cr.suite, q))
  {
    hide WriteMessage, OwnPayload;
  }

  lemma ReadSplits(cr: Crypto, p: Party, m: bytes)
    requires p.ToRead()
    ensures var q := ReadNext(cr, p, m);
            q.initiator == p.initiator && (q.fault.None? && q.pc == 3 ==> Splits(cr.suite, q))
  {
    hide ReadMessage;
  }

  lemma {:induction false} AloneMixes(cr: Crypto, p: Party, incoming: seq<bytes>, writes: nat)
    requires p.fault.None? && p.pc <= 3 && p.hs.initiator == p.initiator && MixedAt(cr.suite, p.hs, p.pc)
    requires p.pc == 3 ==> Splits(cr.suite, p)
    ensures var q := RunAlone(cr, p, incoming, writes);
            q.Done() ==>
              && SameSelf(q.hs, p.hs) && q.initiator == p.initiator && q.pc == 3
              && MixedAt(cr.suite, q.hs, 3) && Splits(cr.suite, q)
    decreases Remaining(p)
  {
    hide MixedAt, Splits, SendMessage, ReadNext;
    if p.ToSend() {
      SendMixes(cr, p, writes > 0);
      SendSplits(cr, p, writes > 0);
      AloneSends(cr, p, incoming, writes);
      SendAdvances(cr, p, writes > 0);
      var q := SendMessage(cr, p, writes > 0).party;
      if q.fault.None? { AloneMixes(cr, q, incoming, Less(writes)); }
    } else if p.ToRead() {
      AloneReads(cr, p, incoming, writes);
      if incoming != [] {
        ReadMixes(cr, p, incoming[0]);
        ReadSplits(cr, p, incoming[0]);
        ReadAdvances(cr, p, incoming[0]);
        var q := ReadNext(cr, p, incoming[0]);
        if q.fault.None? { AloneMixes(cr, q, incoming[1..], writes); }
      }
    }
  }

  /**
    Main result for one end, whatever the other sends: when it is done it holds a peer ephemeral
    and a peer static key, its own two secrets have both been mixed with them, in the order of XX,
    and its ciphers are the two halves of what came out.
  */
  lemma FinishedHasMixed(cr: Crypto, initiator: bool, identity: Secret, remote: Relay.Peer, s: Secret, e: Secret,
                         incoming: seq<bytes>, writes: nat)
    ensures var q := RunAlone(cr, NewParty(initiator, identity, remote, s, e), incoming, writes);
            q.Done() ==>
              && q.hs.re.Some? && q.hs.rs.Some?
              && var (su, re, rs) := (cr.suite, q.hs.re.value, q.hs.rs.value);
                 var ck := if initiator
                           then su.mixKey(su.mixKey(su.mixKey([], su.dh(e, re)), su.dh(e, rs)), su.dh(s, re))
                           else su.mixKey(su.mixKey(su.mixKey([], su.dh(e, re)), su.dh(s, re)), su.dh(e, rs));
                 var (cs1, cs2) := (Cipher(su.split1(ck), 0), Cipher(su.split2(ck), 0));
                 && q.hs.sym.ck == ck
                 && q.enc == Some(if initiator then cs1 else cs2) && q.dec == Some(if initiator then cs2 else cs1)
  {
    hide RunAlone;
    AloneMixes(cr, NewParty(initiator, identity, remote, s, e), incoming, writes);
  }

  // ----- both ends honest: every byte of the handshake -----

  /** The secrets of a caller and an answer. */
  datatype Ends = Ends(caller: Secret, cs: Secret, ce: Secret, answer: Secret, as_: Secret, ae: Secret)

  function BeginWith(x: Ends, dialled: Relay.Peer): Net {
    Begin(x.caller, dialled, x.cs, x.ce, x.answer, x.as_, x.ae)
  }

  /** The chaining key after the second message, and after the third. */
  function MixedTwice(su: Suite, x: Ends): bytes {
    su.mixKey(su.mixKey([], su.dh(x.ce, su.pub(x.ae))), su.dh(x.ce, su.pub(x.as_)))
  }

  function MixedThrice(su: Suite, x: Ends): bytes {
    su.mixKey(MixedTwice(su, x), su.dh(x.cs, su.pub(x.ae)))
  }

  /** An identity's payload: its key and its signature over the prefix and the static key. */
  function SignedPayload(cr: Crypto, identity: Secret, s: Secret): bytes {
    cr.ids.encode(cr.ids.key(identity), cr.ids.sign(identity, cr.prefix + cr.suite.pub(s)))
  }

  /** The three messages, and the transcript hash after each. */
  datatype Script = Script(m1: bytes, h1: bytes, m2: bytes, h2: bytes, m3: bytes, h3: bytes)

  /**
    Message one is the caller's ephemeral key in the clear. Message two is the answer's, then its
    static key and its payload sealed; message three is the caller's static key and payload sealed.
    Each sealing is under the keys mixed so far, a counter that starts again with each key, and
    the hash of all that went before.
  */
  function ScriptOf(cr: Crypto, x: Ends): Script {
    var su := cr.suite;
    var h1 := su.mixHash(su.mixHash([], su.pub(x.ce)), []);
    var hE := su.mixHash(h1, su.pub(x.ae));
    var k1 := su.keyOf(su.mixKey([], su.dh(x.ce, su.pub(x.ae))));
    var static2 := su.seal(k1, 0, hE, su.pub(x.as_));
    var hS := su.mixHash(hE, static2);
    var k2 := su.keyOf(MixedTwice(su, x));
    var payload2 := su.seal(k2, 0, hS, SignedPayload(cr, x.answer, x.as_));
    var h2 := su.mixHash(hS, payload2);
    var static3 := su.seal(k2, 1, h2, su.pub(x.cs));
    var hC := su.mixHash(h2, static3);
    var k3 := su.keyOf(MixedThrice(su, x));
    var payload3 := su.seal(k3, 0, hC, SignedPayload(cr, x.caller, x.cs));
    Script(su.pub(x.ce), h1, su.pub(x.ae) + static2 + payload2, h2, static3 + payload3, su.mixHash(hC, payload3))
  }

  /** The symmetric state after n messages. */
  function SymAt(cr: Crypto, x: Ends, n: nat): Symmetric {
    var (su, script) := (cr.suite, ScriptOf(cr, x));
    if n == 0 then Symmetric([], [], None)
    else if n == 1 then Symmetric([], script.h1, None)
    else if n == 2 then Symmetric(MixedTwice(su, x), script.h2, Some(Cipher(su.keyOf(MixedTwice(su, x)), 1)))
    else Symmetric(MixedThrice(su, x), script.h3, Some(Cipher(su.keyOf(MixedThrice(su, x)), 1)))
  }

  function MessageAt(cr: Crypto, x: Ends, n: nat): bytes {
    if n == 0 then ScriptOf(cr, x).m1 else if n == 1 then ScriptOf(cr, x).m2 else ScriptOf(cr, x).m3
  }

  /** Whose secrets these are. */
  predicate Owns(x: Ends, p: Party) {
    && p.hs.initiator == p.initiator
    && if p.initiator then p.identity == x.caller && p.hs.s == x.cs && p.hs.e == x.ce
       else p.identity == x.answer && p.hs.s == x.as_ && p.hs.e == x.ae
  }

  /** Both ends and the pipes are where the script has them. */
  predicate OnScript(cr: Crypto, x: Ends, net: Net) {
    && net.i.initiator && !net.r.initiator && Owns(x, net.i) && Owns(x, net.r)
    && net.i.pc <= 3 && net.r.pc <= 3
    && net.i.hs.sym == SymAt(cr, x, net.i.pc) && net.r.hs.sym == SymAt(cr, x, net.r.pc)
    && (net.ir != [] && net.i.pc > 0 ==> net.ir[0] == MessageAt(cr, x, net.i.pc - 1))
    && (net.ri != [] ==> net.ri[0] == MessageAt(cr, x, 1))
  }

  /** What an end about to send message n knows of the other. */
  lemma SenderKnows(cr: Crypto, x: Ends, w: Party, r: Party)
    requires InStep(cr.suite, w.hs, r.hs) && Owns(x, w) && Owns(x, r) && w.initiator != r.initiator
    requires w.pc <= 3 && KeysOf(w.hs) == KeysAt(w.initiator, w.pc)
    ensures w.initiator && w.pc >= 2 ==> w.hs.re == Some(cr.suite.pub(x.ae)) && w.hs.rs == Some(cr.suite.pub(x.as_))
    ensures !w.initiator && w.pc >= 1 ==> w.hs.re == Some(cr.suite.pub(x.ce))
    ensures !w.initiator && w.pc >= 3 ==> w.hs.rs == Some(cr.suite.pub(x.cs))
  {
  }

  /** The diffie-hellman secrets as the answer computes them. */
  lemma SameSecrets(su: Suite, x: Ends)
    requires su.Lawful()
    ensures su.dh(x.ae, su.pub(x.ce)) == su.dh(x.ce, su.pub(x.ae))
    ensures su.dh(x.as_, su.pub(x.ce)) == su.dh(x.ce, su.pub(x.as_))
    ensures su.dh(x.ae, su.pub(x.cs)) == su.dh(x.cs, su.pub(x.ae))
  {
  }

  lemma SendsScript(cr: Crypto, x: Ends, w: Party)
    requires cr.Lawful() && w.ToSend() && Owns(x, w) && w.hs.sym == SymAt(cr, x, w.pc)
    requires w.initiator && w.pc == 2 ==> w.hs.re == Some(cr.suite.pub(x.ae)) && w.hs.rs == Some(cr.suite.pub(x.as_))
    requires !w.initiator ==> w.hs.re == Some(cr.suite.pub(x.ce))
    ensures var s := SendMessage(cr, w, true);
            && s.fields == Some(MessageAt(cr, x, w.pc)) && s.party.fault.None?
            && s.party.hs.sym == SymAt(cr, x, w.pc + 1) && s.party.pc == w.pc + 1
            && Owns(x, s.party) && s.party.initiator == w.initiator
  {
    var (su, hs) := (cr.suite, w.hs);
    SameSecrets(su, x);
    hide Suite.Lawful, Identities.Lawful;
    XXTokens(w.pc);
    if w.pc == 0 {
      WriteFirst(su, hs, E, []);
      assert WriteTokens(su, hs, XX[0]).fields == su.pub(x.ce);
      assert su.pub(x.ce) + [] == su.pub(x.ce);
    } else if w.pc == 1 {
      WriteFirst(su, hs, E, [EE] + ([S] + ([ES] + [])));
      var h1 := WriteToken(su, hs, E).hs;
      WriteFirst(su, h1, EE, [S] + ([ES] + []));
      var h2 := WriteToken(su, h1, EE).hs;
      WriteFirst(su, h2, S, [ES] + []);
      var c := WriteToken(su, h2, S).fields;
      WriteFirst(su, WriteToken(su, h2, S).hs, ES, []);
      assert WriteTokens(su, hs, XX[1]).fields == su.pub(x.ae) + c;
    } else {
      WriteFirst(su, hs, S, [SE] + []);
      var c := WriteToken(su, hs, S).fields;
      WriteFirst(su, WriteToken(su, hs, S).hs, SE, []);
      assert WriteTokens(su, hs, XX[2]).fields == c;
    }
  }

  lemma BeginOnScript(cr: Crypto, x: Ends, dialled: Relay.Peer)
    ensures OnScript(cr, x, BeginWith(x, dialled))
  {
  }

  lemma SendStays(cr: Crypto, x: Ends, net: Net, mv: Move, dialled: Relay.Peer)
    requires cr.Lawful() && Handshake.Inv(cr, net, dialled) && OnScript(cr, x, net) && Enabled(net, mv)
    requires mv.ISends? || mv.RSends?
    ensures var net' := After(cr, net, mv);
            net'.i.fault.None? && net'.r.fault.None? ==> OnScript(cr, x, net')
  {
    SendersAreLevel(cr, net);
    var (w, r) := if mv.ISends? then (net.i, net.r) else (net.r, net.i);
    hide Crypto.Lawful, ReadMessage, KeysOf, KeysAt, OwnPayload, ScriptOf, SymAt, WriteMessage;
    if mv.RSends? { InStepSym(cr.suite, net.i.hs, net.r.hs); }
    SenderKnowsNow(cr, x, w, r);
    SendsScript(cr, x, w);
    hide SendMessage;
    DoneFacts(cr, net, dialled);
    RefusedFails(cr, w);
  }

  lemma SenderKnowsNow(cr: Crypto, x: Ends, w: Party, r: Party)
    requires InStep(cr.suite, w.hs, r.hs) && Owns(x, w) && Owns(x, r) && w.initiator != r.initiator && w.ToSend()
    requires KeysOf(w.hs) == KeysAt(w.initiator, w.pc)
    ensures w.initiator && w.pc == 2 ==> w.hs.re == Some(cr.suite.pub(x.ae)) && w.hs.rs == Some(cr.suite.pub(x.as_))
    ensures !w.initiator ==> w.hs.re == Some(cr.suite.pub(x.ce))
  {
    SenderKnows(cr, x, w, r);
  }

  lemma RefusedFails(cr: Crypto, w: Party)
    requires w.ToSend()
    ensures SendMessage(cr, w, false).party.fault.Some?
  {
    hide WriteMessage;
  }

  lemma ReadStays(cr: Crypto, x: Ends, net: Net, mv: Move, dialled: Relay.Peer)
    requires cr.Lawful() && Handshake.Inv(cr, net, dialled) && OnScript(cr, x, net) && Enabled(net, mv)
    requires mv.IReads? || mv.RReads?
    ensures var net' := After(cr, net, mv);
            net'.i.fault.None? && net'.r.fault.None? ==> OnScript(cr, x, net')
  {
    ReadersHavePending(cr, net);
    hide Crypto.Lawful, ReadMessage, KeysOf, KeysAt, OwnPayload, ScriptOf, ReadNext;
    if mv.IReads? {
      Handshake.ReadKeeps(cr, net.r, net.i, net.ri[0], 1);
    } else {
      Handshake.ReadKeeps(cr, net.i, net.r, net.ir[0], net.r.pc);
    }
  }

  lemma {:induction false} RunStays(cr: Crypto, x: Ends, nets: seq<Net>, moves: seq<Move>, dialled: Relay.Peer)
    requires cr.Lawful() && Handshake.IsRun(cr, nets, moves) && nets[0] == BeginWith(x, dialled)
    ensures var net := nets[|moves|];
            && Handshake.Inv(cr, net, dialled)
            && (net.i.fault.None? && net.r.fault.None? ==> OnScript(cr, x, net))
    decreases |moves|
  {
    hide Handshake.Inv, OnScript, After, Enabled, Crypto.Lawful;
    if moves == [] {
      BeginInv(cr, x.caller, dialled, x.cs, x.ce, x.answer, x.as_, x.ae);
      BeginOnScript(cr, x, dialled);
    } else {
      var n := |moves| - 1;
      var before := nets[..|moves|];
      assert (forall k :: 0 <= k < n ==> moves[..n][k] == moves[k])
          && (forall k :: 0 <= k < |before| ==> before[k] == nets[k]);
      RunStays(cr, x, before, moves[..n], dialled);
      assert Enabled(nets[n], moves[n]) && nets[n + 1] == After(cr, nets[n], moves[n]);
      Handshake.StepKeeps(cr, nets[n], moves[n], dialled);
      FaultsStay(cr, nets[n], moves[n]);
      if nets[n].i.fault.None? && nets[n].r.fault.None? {
        if moves[n].ISends? || moves[n].RSends? {
          SendStays(cr, x, nets[n], moves[n], dialled);
        } else {
          ReadStays(cr, x, nets[n], moves[n], dialled);
        }
      }
    }
  }

  /** A party that has failed does not move again. */
  lemma FaultsStay(cr: Crypto, net: Net, mv: Move)
    requires Enabled(net, mv)
    ensures net.i.fault.Some? ==> After(cr, net, mv).i.fault.Some?
    ensures net.r.fault.Some? ==> After(cr, net, mv).r.fault.Some?
  {
    hide SendMessage, ReadNext;
  }

  /**
    Main result for two honest ends, in every interleaving. Until something fails, every message
    under way is the one the script says, byte by byte. When both are done they have the same
    transcript hash, and their ciphers are the halves of the three secrets mixed one after the
    other: caller's ephemeral with answer's ephemeral, caller's ephemeral with answer's static,
    caller's static with answer's ephemeral.
  */
  lemma HonestHandshakeBytes(cr: Crypto, x: Ends, nets: seq<Net>, moves: seq<Move>, dialled: Relay.Peer)
    requires cr.Lawful() && Handshake.IsRun(cr, nets, moves) && nets[0] == BeginWith(x, dialled)
    ensures var (net, script) := (nets[|moves|], ScriptOf(cr, x));
            net.i.fault.None? && net.r.fault.None? ==>
              && (net.ri != [] ==> net.ri == [script.m2])
              && (net.ir != [] ==> net.ir == [if net.i.pc == 1 then script.m1 else script.m3])
    ensures var (net, su) := (nets[|moves|], cr.suite);
            net.i.Done() && net.r.Done() ==>
              var ck := su.mixKey(su.mixKey(su.mixKey([], su.dh(x.ce, su.pub(x.ae))), su.dh(x.ce, su.pub(x.as_))),
                                  su.dh(x.cs, su.pub(x.ae)));
              && net.i.hs.sym.ck == ck && net.r.hs.sym.ck == ck
              && net.i.hs.sym.h == net.r.hs.sym.h == ScriptOf(cr, x).h3
              && net.i.enc == net.r.dec == Some(Cipher(su.split1(ck), 0))
              && net.i.dec == net.r.enc == Some(Cipher(su.split2(ck), 0))
  {
    hide After, Enabled, ReadMessage, KeysOf, KeysAt, Crypto.Lawful, ScriptOf;
    RunStays(cr, x, nets, moves, dialled);
    DoneFacts(cr, nets[|moves|], dialled);
  }
}
