/**
  The proxy's two client maps (protocol/proxy/proxy.go): identity hash to client, and peer to
  identity. Registering, unregistering and losing the connection are atomic steps.
*/
module ClientRegistry {
  import opened Basics
  import opened Relay

  type Identity = nat
  type Hash = nat

  datatype ClientInfo = ClientInfo(id: Identity, peer: Peer)

  datatype Registry = Registry(wn: map<Hash, ClientInfo>, peers: map<Peer, Identity>)

  datatype Op =
    | Registers(peer: Peer, id: Identity)
    | Leaves(peer: Peer)

  /** Whether NewProxy is acknowledged: the identity must not be taken. */
  predicate Admits(r: Registry, hash: Identity -> Hash, op: Op) {
    op.Registers? && hash(op.id) !in r.wn
  }

  function Apply(r: Registry, hash: Identity -> Hash, op: Op): Registry {
    match op
    case Registers(peer, id) =>
      if hash(id) in r.wn then r
      else Registry(r.wn[hash(id) := ClientInfo(id, peer)], r.peers[peer := id])
    case Leaves(peer) =>
      if peer !in r.peers then r
      else Registry(r.wn - {hash(r.peers[peer])}, r.peers - {peer})
  }

  /** Each peer's recorded identity looks up that same peer and identity. */
  predicate LooksUp(r: Registry, hash: Identity -> Hash) {
    forall p :: p in r.peers ==> hash(r.peers[p]) in r.wn && r.wn[hash(r.peers[p])] == ClientInfo(r.peers[p], p)
  }

  /** A lookup entry whose peer is recorded under another identity, or not at all. */
  predicate Stale(r: Registry, hash: Identity -> Hash, h: Hash) {
    h in r.wn && (r.wn[h].peer in r.peers ==> hash(r.peers[r.wn[h].peer]) != h)
  }

  /** The two maps are exact inverses of each other. */
  predicate Inverse(r: Registry, hash: Identity -> Hash) {
    LooksUp(r, hash) && forall h :: h in r.wn ==> !Stale(r, hash, h)
  }

  /** Two peers never share an identity hash. */
  lemma NoSharedHash(r: Registry, hash: Identity -> Hash, p: Peer, q: Peer)
    requires LooksUp(r, hash) && p in r.peers && q in r.peers && hash(r.peers[p]) == hash(r.peers[q])
    ensures p == q
  {
  }

  /** Removing a peer removes no other peer's lookup. */
  lemma LeavingSparesOthers(r: Registry, hash: Identity -> Hash, p: Peer, h: Hash)
    requires LooksUp(r, hash) && h in r.wn && r.wn[h].peer != p
    ensures var r' := Apply(r, hash, Leaves(p)); h in r'.wn && r'.wn[h] == r.wn[h]
  {
  }

  /**
    A peer that leaves is not recorded any more, whoever else is registered, and exactly its own
    identity is free again in addition to those that were: anyone can register it.
  */
  lemma LeavingFrees(r: Registry, hash: Identity -> Hash, p: Peer, q: Peer, a: Identity)
    requires LooksUp(r, hash)
    ensures var r' := Apply(r, hash, Leaves(p));
            && p !in r'.peers && (forall x :: x in r'.peers <==> x in r.peers && x != p)
            && (forall h :: h in r'.wn && r'.wn[h].peer == p ==> h in r.wn && Stale(r, hash, h))
            && (Admits(r', hash, Registers(q, a)) <==>
                  Admits(r, hash, Registers(q, a)) || (p in r.peers && hash(r.peers[p]) == hash(a)))
            && (p in r.peers && a == r.peers[p] ==>
                  && Admits(r', hash, Registers(q, a))
                  && var r'' := Apply(r', hash, Registers(q, a));
                     hash(a) in r''.wn && r''.wn[hash(a)] == ClientInfo(a, q) && q in r''.peers && r''.peers[q] == a)
  {
    var r' := Apply(r, hash, Leaves(p));
    forall h | h in r'.wn && r'.wn[h].peer == p
      ensures h in r.wn && Stale(r, hash, h)
    {
      if p in r.peers { assert h != hash(r.peers[p]); }
    }
  }

  lemma StepLooksUp(r: Registry, hash: Identity -> Hash, op: Op)
    requires LooksUp(r, hash)
    ensures LooksUp(Apply(r, hash, op), hash)
  {
    var r' := Apply(r, hash, op);
    forall p | p in r'.peers
      ensures hash(r'.peers[p]) in r'.wn && r'.wn[hash(r'.peers[p])] == ClientInfo(r'.peers[p], p)
    {
      if op.Leaves? && op.peer in r.peers && hash(r.peers[p]) == hash(r.peers[op.peer]) {
        NoSharedHash(r, hash, p, op.peer);
      }
    }
  }

  /** A peer that is registered registers another identity. */
  predicate Doubles(r: Registry, hash: Identity -> Hash, op: Op) {
    Admits(r, hash, op) && op.peer in r.peers
  }

  /** The maps stay inverse exactly when no registered peer takes a second identity. */
  lemma StepInverse(r: Registry, hash: Identity -> Hash, op: Op)
    requires Inverse(r, hash)
    ensures Inverse(Apply(r, hash, op), hash) <==> !Doubles(r, hash, op)
  {
    StepLooksUp(r, hash, op);
    var r' := Apply(r, hash, op);
    if Doubles(r, hash, op) {
      var h := hash(r.peers[op.peer]);
      assert Stale(r', hash, h);
    } else {
      forall h | h in r'.wn
        ensures !Stale(r', hash, h)
      {
        if h in r.wn { assert !Stale(r, hash, h); }
      }
    }
  }

  /** A stale entry is never repaired: its hash stays taken. */
  lemma StaleForever(r: Registry, hash: Identity -> Hash, op: Op, h: Hash)
    requires LooksUp(r, hash) && Stale(r, hash, h)
    ensures Stale(Apply(r, hash, op), hash, h)
  {
  }

  predicate IsRun(rs: seq<Registry>, hash: Identity -> Hash, ops: seq<Op>) {
    |rs| == |ops| + 1 && forall i :: 0 <= i < |ops| ==> rs[i + 1] == Apply(rs[i], hash, ops[i])
  }

  predicate EverDoubles(rs: seq<Registry>, hash: Identity -> Hash, ops: seq<Op>)
    requires |rs| == |ops| + 1
  {
    exists i :: 0 <= i < |ops| && Doubles(rs[i], hash, ops[i])
  }

  /**
    Main result. Over every run from the empty registry, each recorded identity looks up its own
    peer; and the maps are exact inverses at the end if and only if no registered peer ever took
    a second identity.
  */
  lemma {:induction false} RunInverse(rs: seq<Registry>, hash: Identity -> Hash, ops: seq<Op>)
    requires IsRun(rs, hash, ops) && rs[0] == Registry(map[], map[])
    ensures LooksUp(rs[|ops|], hash)
    ensures Inverse(rs[|ops|], hash) <==> !EverDoubles(rs, hash, ops)
    ensures !Inverse(rs[|ops|], hash) ==> exists h :: Stale(rs[|ops|], hash, h)
    decreases |ops|
  {
    if ops != [] {
      var n := |ops| - 1;
      var (before, done) := (rs[..|ops|], ops[..n]);
      assert (forall i :: 0 <= i < n ==> done[i] == ops[i]) && (forall i :: 0 <= i < |before| ==> before[i] == rs[i]);
      RunInverse(before, hash, done);
      hide Apply, Stale, LooksUp, Doubles;
      assert EverDoubles(rs, hash, ops) <==> EverDoubles(before, hash, done) || Doubles(rs[n], hash, ops[n]) by {
        SplitDoubles(rs, hash, ops);
      }
      StepLooksUp(rs[n], hash, ops[n]);
      if Inverse(rs[n], hash) {
        StepInverse(rs[n], hash, ops[n]);
      } else {
        var h :| Stale(rs[n], hash, h);
        StaleForever(rs[n], hash, ops[n], h);
        StaleTaken(rs[n + 1], hash, h);
      }
    }
  }

  lemma StaleTaken(r: Registry, hash: Identity -> Hash, h: Hash)
    requires Stale(r, hash, h)
    ensures h in r.wn && !Inverse(r, hash)
  {
  }

  lemma SplitDoubles(rs: seq<Registry>, hash: Identity -> Hash, ops: seq<Op>)
    requires |rs| == |ops| + 1 && ops != []
    ensures var n := |ops| - 1;
            EverDoubles(rs, hash, ops) <==> EverDoubles(rs[..|ops|], hash, ops[..n]) || Doubles(rs[n], hash, ops[n])
  {
    var n := |ops| - 1;
    var (before, done) := (rs[..|ops|], ops[..n]);
    hide Doubles;
    if i :| 0 <= i < |ops| && Doubles(rs[i], hash, ops[i]) {
      if i < n { assert Doubles(before[i], hash, done[i]); }
    }
    if i :| 0 <= i < |done| && Doubles(before[i], hash, done[i]) {
      assert Doubles(rs[i], hash, ops[i]);
    }
  }

  /** It does happen: a peer registers twice and leaves, and its first identity stays taken by nobody. */
  lemma SecondIdentityLeaks(hash: Identity -> Hash, p: Peer, a: Identity, b: Identity, q: Peer)
    requires hash(a) != hash(b)
    ensures var r1 := Apply(Registry(map[], map[]), hash, Registers(p, a));
            var r3 := Apply(Apply(r1, hash, Registers(p, b)), hash, Leaves(p));
            r3.peers == map[] && hash(a) in r3.wn && !Admits(r3, hash, Registers(q, a))
  {
  }

  // ----- the object -----

  class ProxyManager {
    const hash: Identity -> Hash
    var clientWNMap: map<Hash, ClientInfo>
    var clientPeerMap: map<Peer, Identity>

    constructor (hash: Identity -> Hash)
      ensures View() == Registry(map[], map[]) && this.hash == hash && Valid()
    {
      this.hash := hash;
      clientWNMap, clientPeerMap := map[], map[];
    }

    function View(): Registry
      reads this
    {
      Registry(clientWNMap, clientPeerMap)
    }

    predicate Valid()
      reads this
    {
      LooksUp(View(), hash)
    }

    method AddClient(h: Hash, info: ClientInfo)
      modifies this
      ensures clientWNMap == old(clientWNMap)[h := info] && clientPeerMap == old(clientPeerMap)[info.peer := info.id]
    {
      clientWNMap := clientWNMap[h := info];
      clientPeerMap := clientPeerMap[info.peer := info.id];
    }

    method RemoveClient(peer: Peer)
      requires Valid()
      modifies this
      ensures Valid() && View() == Apply(old(View()), hash, Leaves(peer))
    {
      StepLooksUp(View(), hash, Leaves(peer));
      if peer !in clientPeerMap {
        clientPeerMap := clientPeerMap - {peer};
        return;
      }
      clientWNMap := clientWNMap - {hash(clientPeerMap[peer])};
      clientPeerMap := clientPeerMap - {peer};
    }

    method GetClient(h: Hash) returns (info: Option<ClientInfo>)
      ensures info.Some? <==> h in clientWNMap
      ensures info.Some? ==> info.value == clientWNMap[h]
    {
      return if h in clientWNMap then Some(clientWNMap[h]) else None;
    }

    /** The NewProxy request; `ack` is false when the identity is taken. */
    method NewProxy(peer: Peer, id: Identity) returns (ack: bool)
      requires Valid()
      modifies this
      ensures Valid() && View() == Apply(old(View()), hash, Registers(peer, id))
      ensures ack <==> Admits(old(View()), hash, Registers(peer, id))
    {
      StepLooksUp(View(), hash, Registers(peer, id));
      var known := GetClient(hash(id));
      if known.Some? {
        return false;
      }
      AddClient(hash(id), ClientInfo(id, peer));
      return true;
    }
  }
}
