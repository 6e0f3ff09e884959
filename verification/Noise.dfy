/**
  The XX handshake state of the Noise Protocol Framework, revision 34 (objects of section 5,
  message processing of section 5.3, pattern of section 7.5), over an abstract suite. This is
  what secure/handshake.go asks of its Noise library.
*/
module Noise {
  import opened Basics
  import opened SecureStream

  type Secret = nat
  type Public = bytes

  /** Primitives as functions; `Lawful` says what is needed of them. */
  datatype Suite = Suite(
    pub: Secret -> Public,
    dh: (Secret, Public) -> bytes,
    mixHash: (bytes, bytes) -> bytes,
    mixKey: (bytes, bytes) -> bytes,
    keyOf: bytes -> Key,
    seal: (Key, nat, bytes, bytes) -> bytes,
    open: (Key, nat, bytes, bytes) -> Option<bytes>,
    split1: bytes -> Key,
    split2: bytes -> Key)
  {
    ghost predicate Lawful() {
      && (forall a, b :: dh(a, pub(b)) == dh(b, pub(a)))
      && (forall k, n, ad, p :: open(k, n, ad, seal(k, n, ad, p)) == Some(p))
      && (forall a :: |pub(a)| == DH_LEN)
      && (forall k, n, ad, p :: |seal(k, n, ad, p)| == |p| + TAG_SIZE)
    }
  }

  /** SymmetricState: chaining key, handshake hash, and a cipher once a key was mixed in. */
  datatype Symmetric = Symmetric(ck: bytes, h: bytes, cipher: Option<Cipher>)

  datatype Token = E | S | EE | ES | SE

  const XX: seq<seq<Token>> := [[E], [E, EE, S, ES], [S, SE]]

  /** HandshakeState; `e` is the ephemeral secret to be used, `sentE` whether it has been. */
  datatype HandshakeState = HandshakeState(
    initiator: bool, s: Secret, e: Secret, sentE: bool, re: Option<Public>, rs: Option<Public>, sym: Symmetric)

  /** The length of a public key of DH25519. */
  const DH_LEN: nat := 32

  datatype Wrote = Wrote(hs: HandshakeState, fields: bytes) | WriteFails

  datatype Took = Took(hs: HandshakeState, rest: bytes) | TakeFails

  function MixHash(su: Suite, y: Symmetric, data: bytes): Symmetric {
    y.(h := su.mixHash(y.h, data))
  }

  function MixKey(su: Suite, y: Symmetric, shared: bytes): Symmetric {
    var ck := su.mixKey(y.ck, shared);
    y.(ck := ck, cipher := Some(Cipher(su.keyOf(ck), 0)))
  }

  function Sealed(su: Suite, y: Symmetric, p: bytes): bytes {
    if y.cipher.None? then p else su.seal(y.cipher.value.key, y.cipher.value.n, y.h, p)
  }

  function Unsealed(su: Suite, y: Symmetric, c: bytes): Option<bytes> {
    if y.cipher.None? then Some(c) else su.open(y.cipher.value.key, y.cipher.value.n, y.h, c)
  }

  /** The symmetric state after either side has processed the (possibly sealed) field c. */
  function Absorbed(su: Suite, y: Symmetric, c: bytes): Symmetric {
    var y1 := if y.cipher.None? then y else y.(cipher := Some(y.cipher.value.Next()));
    MixHash(su, y1, c)
  }

  /** The DH of a token, from the side whose state this is. */
  function Shared(su: Suite, hs: HandshakeState, t: Token): Option<bytes> {
    var (mine, theirs) :=
      match t
      case EE => (hs.e, hs.re)
      case ES => if hs.initiator then (hs.e, hs.rs) else (hs.s, hs.re)
      case SE => if hs.initiator then (hs.s, hs.re) else (hs.e, hs.rs)
      case _ => (hs.s, None);
    if theirs.None? then None else Some(su.dh(mine, theirs.value))
  }

  /** One token at the writer: the new state and what is appended to the message. */
  function WriteToken(su: Suite, hs: HandshakeState, t: Token): Wrote {
    match t
    case E => Wrote(hs.(sentE := true, sym := MixHash(su, hs.sym, su.pub(hs.e))), su.pub(hs.e))
    case S =>
      var c := Sealed(su, hs.sym, su.pub(hs.s));
      Wrote(hs.(sym := Absorbed(su, hs.sym, c)), c)
    case _ =>
      match Shared(su, hs, t)
      case None => WriteFails
      case Some(z) => Wrote(hs.(sym := MixKey(su, hs.sym, z)), [])
  }

  /** A static key takes a tag more once there is a cipher. */
  function KeySize(y: Symmetric): nat {
    if y.cipher.None? then DH_LEN else DH_LEN + TAG_SIZE
  }

  /** One token at the reader. */
  function ReadToken(su: Suite, hs: HandshakeState, t: Token, fields: bytes): Took {
    match t
    case E =>
      if |fields| < DH_LEN then TakeFails
      else
        var key := fields[..DH_LEN];
        Took(hs.(re := Some(key), sym := MixHash(su, hs.sym, key)), fields[DH_LEN..])
    case S =>
      var size := KeySize(hs.sym);
      if |fields| < size || Unsealed(su, hs.sym, fields[..size]).None? then TakeFails
      else
        var c := fields[..size];
        Took(hs.(rs := Unsealed(su, hs.sym, c), sym := Absorbed(su, hs.sym, c)), fields[size..])
    case _ =>
      match Shared(su, hs, t)
      case None => TakeFails
      case Some(z) => Took(hs.(sym := MixKey(su, hs.sym, z)), fields)
  }

  function WriteTokens(su: Suite, hs: HandshakeState, tokens: seq<Token>): Wrote
    decreases |tokens|
  {
    if tokens == [] then Wrote(hs, [])
    else
      match WriteToken(su, hs, tokens[0])
      case WriteFails => WriteFails
      case Wrote(hs1, field) =>
        match WriteTokens(su, hs1, tokens[1..])
        case WriteFails => WriteFails
        case Wrote(hs2, fields) => Wrote(hs2, field + fields)
  }

  function ReadTokens(su: Suite, hs: HandshakeState, tokens: seq<Token>, fields: bytes): Took
    decreases |tokens|
  {
    if tokens == [] then Took(hs, fields)
    else
      match ReadToken(su, hs, tokens[0], fields)
      case TakeFails => TakeFails
      case Took(hs1, rest) => ReadTokens(su, hs1, tokens[1..], rest)
  }

  /** WriteMessage: the tokens, then the payload. */
  function WriteMessage(su: Suite, hs: HandshakeState, tokens: seq<Token>, payload: bytes): Wrote {
    match WriteTokens(su, hs, tokens)
    case WriteFails => WriteFails
    case Wrote(hs1, fields) =>
      var c := Sealed(su, hs1.sym, payload);
      Wrote(hs1.(sym := Absorbed(su, hs1.sym, c)), fields + c)
  }

  datatype Message = Message(hs: HandshakeState, payload: bytes) | BadMessage

  function ReadMessage(su: Suite, hs: HandshakeState, tokens: seq<Token>, fields: bytes): Message {
    match ReadTokens(su, hs, tokens, fields)
    case TakeFails => BadMessage
    case Took(hs1, rest) =>
      match Unsealed(su, hs1.sym, rest)
      case None => BadMessage
      case Some(payload) => Message(hs1.(sym := Absorbed(su, hs1.sym, rest)), payload)
  }

  // ----- both sides stay in step -----

  /** What one side knows of the other is right. */
  predicate Knows(su: Suite, a: HandshakeState, b: HandshakeState) {
    && (a.re.Some? ==> a.re.value == su.pub(b.e) && b.sentE)
    && (a.rs.Some? ==> a.rs.value == su.pub(b.s))
  }

  predicate InStep(su: Suite, a: HandshakeState, b: HandshakeState) {
    a.initiator != b.initiator && a.sym == b.sym && Knows(su, a, b) && Knows(su, b, a)
  }

  /** Whatever the writer can compute the reader can, with the same result. */
  lemma SharedAgrees(su: Suite, a: HandshakeState, b: HandshakeState, t: Token)
    requires su.Lawful() && InStep(su, a, b) && Shared(su, a, t).Some? && Shared(su, b, t).Some?
    ensures Shared(su, a, t) == Shared(su, b, t)
  {
  }

  /** Which of the peer's keys a side holds. */
  datatype Keys = Keys(re: bool, rs: bool)

  function KeysOf(hs: HandshakeState): Keys {
    Keys(hs.re.Some?, hs.rs.Some?)
  }

  predicate Serves(initiator: bool, k: Keys, t: Token) {
    match t
    case EE => k.re
    case ES => if initiator then k.rs else k.re
    case SE => if initiator then k.re else k.rs
    case _ => true
  }

  function Gains(k: Keys, t: Token): Keys {
    match t
    case E => k.(re := true)
    case S => k.(rs := true)
    case _ => k
  }

  /** A reader with these keys has what the tokens ask of it, given what they bring. */
  predicate Supplied(initiator: bool, k: Keys, tokens: seq<Token>)
    decreases |tokens|
  {
    tokens == [] || (Serves(initiator, k, tokens[0]) && Supplied(initiator, Gains(k, tokens[0]), tokens[1..]))
  }

  function GainsAll(k: Keys, tokens: seq<Token>): Keys
    decreases |tokens|
  {
    if tokens == [] then k else GainsAll(Gains(k, tokens[0]), tokens[1..])
  }

  /** The secrets and the role never change. */
  predicate SameSelf(a: HandshakeState, b: HandshakeState) {
    a.initiator == b.initiator && a.s == b.s && a.e == b.e
  }

  /** Writing succeeds when the writer holds the keys its tokens use, and teaches it nothing. */
  lemma {:induction false} WriterServes(su: Suite, hs: HandshakeState, tokens: seq<Token>)
    requires forall t | t in tokens :: Serves(hs.initiator, KeysOf(hs), t)
    ensures var wrote := WriteTokens(su, hs, tokens);
            wrote.Wrote? && SameSelf(wrote.hs, hs) && wrote.hs.re == hs.re && wrote.hs.rs == hs.rs
    decreases |tokens|
  {
    if tokens != [] {
      assert tokens[0] in tokens;
      var one := WriteToken(su, hs, tokens[0]);
      WriterServes(su, one.hs, tokens[1..]);
    }
  }

  lemma TokenKeepsStep(su: Suite, w: HandshakeState, r: HandshakeState, t: Token, rest: bytes)
    requires su.Lawful() && InStep(su, w, r) && WriteToken(su, w, t).Wrote? && Serves(r.initiator, KeysOf(r), t)
    ensures var wrote := WriteToken(su, w, t);
            var took := ReadToken(su, r, t, wrote.fields + rest);
            && took.Took? && took.rest == rest && InStep(su, wrote.hs, took.hs)
            && SameSelf(took.hs, r) && KeysOf(took.hs) == Gains(KeysOf(r), t)
  {
    match t
    case E =>
      var key := su.pub(w.e);
      assert (key + rest)[..DH_LEN] == key && (key + rest)[DH_LEN..] == rest;
    case S =>
      var c := Sealed(su, w.sym, su.pub(w.s));
      assert (c + rest)[..|c|] == c && (c + rest)[|c|..] == rest;
      assert Unsealed(su, r.sym, c) == Some(su.pub(w.s));
    case _ =>
      SharedAgrees(su, w, r, t);
      assert [] + rest == rest;
  }

  /** Reading what a matched peer wrote succeeds and leaves the two matched. */
  lemma {:induction false} TokensKeepStep(su: Suite, w: HandshakeState, r: HandshakeState, tokens: seq<Token>,
                                          rest: bytes)
    requires su.Lawful() && InStep(su, w, r) && WriteTokens(su, w, tokens).Wrote?
    requires Supplied(r.initiator, KeysOf(r), tokens)
    ensures var wrote := WriteTokens(su, w, tokens);
            var took := ReadTokens(su, r, tokens, wrote.fields + rest);
            && took.Took? && took.rest == rest && InStep(su, wrote.hs, took.hs)
            && SameSelf(took.hs, r) && KeysOf(took.hs) == GainsAll(KeysOf(r), tokens)
    decreases |tokens|
  {
    hide Suite.Lawful, InStep, WriteToken, ReadToken, KeysOf;
    if tokens == [] {
      assert [] + rest == rest;
    } else {
      var one := WriteToken(su, w, tokens[0]);
      var more := WriteTokens(su, one.hs, tokens[1..]);
      TokenKeepsStep(su, w, r, tokens[0], more.fields + rest);
      assert one.fields + more.fields + rest == one.fields + (more.fields + rest);
      TokensKeepStep(su, one.hs, ReadToken(su, r, tokens[0], one.fields + (more.fields + rest)).hs, tokens[1..], rest);
    }
  }

  /** A message written by a peer in step is read back with its payload, and the two stay in step. */
  lemma MessageKeepsStep(su: Suite, w: HandshakeState, r: HandshakeState, tokens: seq<Token>, payload: bytes)
    requires su.Lawful() && InStep(su, w, r) && Supplied(r.initiator, KeysOf(r), tokens)
    requires forall t | t in tokens :: Serves(w.initiator, KeysOf(w), t)
    ensures var wrote := WriteMessage(su, w, tokens, payload);
            && wrote.Wrote? && SameSelf(wrote.hs, w) && KeysOf(wrote.hs) == KeysOf(w)
            && var got := ReadMessage(su, r, tokens, wrote.fields);
               && got.Message? && got.payload == payload && InStep(su, wrote.hs, got.hs)
               && SameSelf(got.hs, r) && KeysOf(got.hs) == GainsAll(KeysOf(r), tokens)
  {
    hide WriteTokens, ReadTokens, Supplied, GainsAll;
    WriterServes(su, w, tokens);
    var wrote := WriteTokens(su, w, tokens);
    var c := Sealed(su, wrote.hs.sym, payload);
    TokensKeepStep(su, w, r, tokens, c);
  }

  /** Reading never changes the reader's own keys, whatever the message. */
  lemma {:induction false} TokensKeepSelf(su: Suite, hs: HandshakeState, tokens: seq<Token>, fields: bytes)
    ensures var took := ReadTokens(su, hs, tokens, fields); took.Took? ==> SameSelf(took.hs, hs)
    decreases |tokens|
  {
    if tokens != [] {
      var one := ReadToken(su, hs, tokens[0], fields);
      if one.Took? {
        TokensKeepSelf(su, one.hs, tokens[1..], one.rest);
      }
    }
  }

  lemma MessageKeepsSelf(su: Suite, hs: HandshakeState, tokens: seq<Token>, fields: bytes)
    ensures var got := ReadMessage(su, hs, tokens, fields); got.Message? ==> SameSelf(got.hs, hs)
  {
    hide ReadTokens;
    TokensKeepSelf(su, hs, tokens, fields);
  }

  /** How long the tokens can make a message. */
  function MostBytes(tokens: seq<Token>): nat
    decreases |tokens|
  {
    if tokens == [] then 0
    else (if tokens[0] == E then DH_LEN else if tokens[0] == S then DH_LEN + TAG_SIZE else 0) + MostBytes(tokens[1..])
  }

  lemma {:induction false} TokensBound(su: Suite, hs: HandshakeState, tokens: seq<Token>)
    requires su.Lawful() && WriteTokens(su, hs, tokens).Wrote?
    ensures |WriteTokens(su, hs, tokens).fields| <= MostBytes(tokens)
    decreases |tokens|
  {
    if tokens != [] {
      TokensBound(su, WriteToken(su, hs, tokens[0]).hs, tokens[1..]);
    }
  }

  lemma MessageBound(su: Suite, hs: HandshakeState, tokens: seq<Token>, payload: bytes)
    requires su.Lawful() && WriteMessage(su, hs, tokens, payload).Wrote?
    ensures |WriteMessage(su, hs, tokens, payload).fields| <= MostBytes(tokens) + |payload| + TAG_SIZE
  {
    TokensBound(su, hs, tokens);
    hide WriteTokens;
  }

  /** Lawful suites exist, so nothing about them is vacuous. */
  lemma LawfulSuiteExists()
    ensures exists su: Suite :: su.Lawful()
  {
    var tag: bytes := seq(TAG_SIZE, _ => 0);
    var su := Suite(x => seq(DH_LEN, _ => 0), (a, b) => [], (h, d) => h, (c, z) => c, c => 0,
                    (k, n, ad, p) => p + tag,
                    (k, n, ad, c) => if |c| >= TAG_SIZE then Some(c[..|c| - TAG_SIZE]) else None,
                    c => 0, c => 1);
    forall k, n, ad, p
      ensures su.open(k, n, ad, su.seal(k, n, ad, p)) == Some(p)
    {
      assert (p + tag)[..|p|] == p;
    }
    assert su.Lawful();
  }
}
