/**
  Handshakes on a node that goes on working (protocol/relay/secure_conn.go, secure/session.go,
  the goroutines of relay.go handleCircuitSuccess): a handshake begins on a circuit, its result
  is taken or dropped by a select, and what was taken is stored later, without another look.
*/
module SecureRuns {
  import opened Basics
  import opened Noise
  import opened Handshake
  import opened SecureConn
  import opened NodeRuns
  import R = Relay

  // ----- the table of secure connections -----

  predicate AllAuthentic(cr: Crypto, n: R.Node) {
    forall sid :: sid in n.secured ==> Authentic(cr, n.secured[sid])
  }

  /** The session has its circuit in the table, and a caller's entry is for the identity dialled on it. */
  predicate OnCircuit(n: R.Node, sid: R.Sid, x: R.Secured) {
    sid in n.circuits && (x.initiator ==> x.remoteId == n.circuits[sid].remote)
  }

  /** Every secure connection belongs to a circuit. */
  predicate Attached(n: R.Node) {
    forall sid :: sid in n.secured ==> OnCircuit(n, sid, n.secured[sid])
  }

  // ----- the node with its handshakes -----

  /** A handshake that runs, has its result in the channel, or has had it taken by the select. */
  datatype Phase = Shaking | Ready(x: R.Secured) | Taken(x: R.Secured)

  /** One call of NewSecureSession; `cancelled` is whether the context of its circuit is. */
  datatype Try = Try(sid: R.Sid, initiator: bool, remote: R.Peer, cancelled: bool, phase: Phase)

  /** `spent` are the sessions whose circuit is in the table with a cancelled context. */
  datatype Host = Host(node: R.Node, spent: set<R.Sid>, tries: map<nat, Try>)

  datatype Move =
    | Does(op: Op)
    | Hangs(sid: R.Sid)
    | Begins(id: nat, sid: R.Sid)
    | Finishes(id: nat, x: R.Secured)
    | Fails(id: nat)
    | Takes(id: nat)
    | Discards(id: nat)
    | Stores(id: nat)

  /** CircuitConn.Close on the circuit in the table: its context is cancelled, the entry stays. */
  function Cancel(h: Host, sid: R.Sid): Host {
    h.(spent := h.spent + {sid},
       tries := map id | id in h.tries :: h.tries[id].(cancelled := h.tries[id].cancelled || h.tries[id].sid == sid))
  }

  /** An operation of the node cancels the contexts of the circuits that it removes. */
  function Worked(h: Host, n: R.Node): Host {
    Host(n, h.spent * n.circuits.Keys,
         map id | id in h.tries ::
           h.tries[id].(cancelled := h.tries[id].cancelled || h.tries[id].sid !in n.circuits))
  }

  function WithTry(h: Host, id: nat, t: Try): Host {
    h.(tries := h.tries[id := t])
  }

  function WithoutTry(h: Host, id: nat): Host {
    h.(tries := h.tries - {id})
  }

  /** A Success begins a handshake on the session's circuit unless there is a secure connection already. */
  predicate MayBegin(n: R.Node, sid: R.Sid) {
    && sid in n.sessions && R.IsEnd(n.sessions[sid].role)
    && sid in n.circuits && n.circuits[sid].ready && sid !in n.secured
  }

  /**
    With the result there and the context cancelled, which branch the select takes is free: it
    discards, or it takes. Nothing is looked at between taking and storing.
  */
  ghost predicate Enabled(cr: Crypto, h: Host, mv: Move) {
    match mv
    case Does(op) => !op.Secures?
    case Hangs(sid) => sid in h.node.circuits
    case Begins(id, sid) => id !in h.tries && MayBegin(h.node, sid)
    case Finishes(id, x) =>
      id in h.tries && h.tries[id].phase.Shaking? && Outcome(cr, h.tries[id].initiator, h.tries[id].remote, x)
    case Fails(id) => id in h.tries && h.tries[id].phase.Shaking?
    case Takes(id) => id in h.tries && h.tries[id].phase.Ready?
    case Discards(id) => id in h.tries && h.tries[id].cancelled && !h.tries[id].phase.Taken?
    case Stores(id) => id in h.tries && h.tries[id].phase.Taken?
  }

  ghost function After(cr: Crypto, h: Host, mv: Move): Host
    requires Enabled(cr, h, mv)
  {
    match mv
    case Does(op) => Worked(h, Apply(h.node, op).node)
    case Hangs(sid) => Cancel(h, sid)
    case Begins(id, sid) =>
      WithTry(h, id, Try(sid, h.node.sessions[sid].role == R.Caller, h.node.circuits[sid].remote, sid in h.spent,
                         Shaking))
    case Finishes(id, x) => WithTry(h, id, h.tries[id].(phase := Ready(x)))
    case Fails(id) =>
      WithoutTry(if h.tries[id].cancelled then h else Cancel(h, h.tries[id].sid), id)
    case Takes(id) => WithTry(h, id, h.tries[id].(phase := Taken(h.tries[id].phase.x)))
    case Discards(id) => WithoutTry(h, id)
    case Stores(id) =>
      WithoutTry(h, id).(node := Apply(h.node, Secures(h.tries[id].sid, h.tries[id].phase.x)).node)
  }

  ghost predicate IsRun(cr: Crypto, hosts: seq<Host>, moves: seq<Move>) {
    && |hosts| == |moves| + 1
    && forall k :: 0 <= k < |moves| ==> Enabled(cr, hosts[k], moves[k]) && hosts[k + 1] == After(cr, hosts[k], moves[k])
  }

  // ----- one step -----

  /** Secure connections only go, with their circuit or before it; a circuit keeps whom it was dialled to. */
  predicate Retains(n: R.Node, n': R.Node) {
    && (forall sid :: sid in n'.secured ==>
          && sid in n.secured && n'.secured[sid] == n.secured[sid]
          && (sid in n.circuits ==> sid in n'.circuits))
    && (forall sid :: sid in n.circuits && sid in n'.circuits ==> n'.circuits[sid].remote == n.circuits[sid].remote)
  }

  lemma CloseRetains(n: R.Node, sid: R.Sid, bad: set<R.StreamId>)
    ensures Retains(n, R.CloseCircuit(n, sid, bad).node) && Retains(n, n)
  {
  }

  lemma BroadcastRetains(n: R.Node, sid: R.Sid, msg: R.Msg, skip: Option<R.Peer>, bad: set<R.StreamId>)
    ensures Retains(n, R.Broadcast(n, sid, msg, skip, bad).node)
  {
  }

  lemma HandleRetains(n: R.Node, msg: R.Msg, from: R.Stream, bad: set<R.StreamId>)
    ensures Retains(n, R.Handle(n, msg, from, bad).node)
  {
    match msg {
      case Wake =>
      case Malformed =>
      case SetSession(sid, role) => SetSessionRetains(n, sid, role, from, bad);
      case Data(sid, payload) => hide R.CloseCircuit; CloseRetains(n, sid, bad);
      case Probe(sid, rand) =>
        hide R.CloseCircuit, R.Broadcast;
        CloseRetains(n, sid, bad);
        BroadcastRetains(n, sid, R.Success(sid), None, bad);
      case Disconnect(sid) => DisconnectRetains(n, sid, from, bad);
      case Success(sid) => hide R.CloseCircuit; CloseRetains(n, sid, bad);
    }
  }

  /** A node whose tables of sessions and streams alone change, or that gains a circuit. */
  lemma TablesRetain(n: R.Node, n': R.Node, sid: R.Sid)
    requires n'.secured == n.secured
    requires n'.circuits == n.circuits
        || (sid !in n.circuits && sid in n'.circuits && n'.circuits == n.circuits[sid := n'.circuits[sid]])
    ensures Retains(n, n')
  {
  }

  lemma SetSessionRetains(n: R.Node, sid: R.Sid, role: R.Role, s: R.Stream, bad: set<R.StreamId>)
    ensures Retains(n, R.HandleSetSession(n, sid, role, s, bad).node)
  {
    hide R.CloseCircuit, Retains, R.Extended;
    CloseRetains(n, sid, bad);
    var n' := R.HandleSetSession(n, sid, role, s, bad).node;
    if R.Accepts(n, sid, role) || R.Refuses(n, role) {
      TablesRetain(n, n', sid);
    }
  }

  lemma DisconnectRetains(n: R.Node, sid: R.Sid, from: R.Stream, bad: set<R.StreamId>)
    ensures Retains(n, R.HandleDisconnect(n, sid, from, bad).node)
  {
    hide R.Broadcast;
    BroadcastRetains(n, sid, R.Disconnect(sid), Some(from.remote), bad);
  }

  lemma NoticeRetains(n: R.Node, id: R.StreamId, bad: set<R.StreamId>)
    ensures Retains(n, R.HandleStreamClosed(n, id, bad).node)
  {
    hide R.CloseCircuit;
    if id in n.streams { CloseRetains(n, n.streams[id].sid, bad); }
  }

  lemma DialRetains(n: R.Node, sid: R.Sid, remote: R.Peer)
    ensures Retains(n, R.AddCircuit(n, sid, remote))
  {
  }

  /** Every operation but the storing of an outcome retains. */
  lemma StepRetains(n: R.Node, op: Op)
    requires !op.Secures?
    ensures Retains(n, Apply(n, op).node)
  {
    hide R.Handle, R.CloseCircuit, R.Broadcast, Retains, R.AddCircuit;
    match op {
      case Handles(msg, from, bad) => HandleRetains(n, msg, from, bad);
      case Sends(sid, msg, bad) => BroadcastRetains(n, sid, msg, None, bad);
      case Closes(sid, bad) => CloseRetains(n, sid, bad);
      case Notices(id, bad) => NoticeRetains(n, id, bad);
      case Dials(sid, remote) => DialRetains(n, sid, remote);
      case Opens(s) => TablesRetain(n, Apply(n, op).node, 0);
      case Completes(sid, role, s) => TablesRetain(n, Apply(n, op).node, 0);
    }
  }

  lemma RetainsAttached(n: R.Node, n': R.Node)
    requires Attached(n) && Retains(n, n')
    ensures Attached(n')
  {
  }

  /** What is stored is stored while the circuit it was dialled on, or one like it, is in the table. */
  predicate Timely(h: Host, mv: Move) {
    mv.Stores? && mv.id in h.tries && h.tries[mv.id].phase.Taken? ==>
      OnCircuit(h.node, h.tries[mv.id].sid, h.tries[mv.id].phase.x)
  }

  /** Entries are dropped, or a taken result is stored; circuits are dialled to one peer. */
  lemma StepEntries(cr: Crypto, h: Host, mv: Move)
    requires Enabled(cr, h, mv)
    ensures var n' := After(cr, h, mv).node;
            forall sid :: sid in n'.secured ==>
              || (sid in h.node.secured && n'.secured[sid] == h.node.secured[sid])
              || (mv.Stores? && h.tries[mv.id].sid == sid && n'.secured[sid] == h.tries[mv.id].phase.x)
  {
    hide Apply;
    if mv.Does? { StepRetains(h.node, mv.op); }
    if mv.Stores? { StoreOnly(h.node, h.tries[mv.id].sid, h.tries[mv.id].phase.x); }
  }

  lemma StoreOnly(n: R.Node, sid: R.Sid, x: R.Secured)
    ensures Apply(n, Secures(sid, x)).node == n.(secured := n.secured[sid := x])
  {
  }

  /** One move keeps every secure connection on a circuit if and only if it does not store too late. */
  lemma StepAttached(cr: Crypto, h: Host, mv: Move)
    requires Attached(h.node) && Enabled(cr, h, mv)
    ensures Attached(After(cr, h, mv).node) <==> Timely(h, mv)
  {
    hide Apply, Outcome;
    if mv.Does? {
      StepRetains(h.node, mv.op);
      hide Attached, Retains;
      RetainsAttached(h.node, Apply(h.node, mv.op).node);
    } else if mv.Stores? {
      var (n, sid, x) := (h.node, h.tries[mv.id].sid, h.tries[mv.id].phase.x);
      StoreOnly(n, sid, x);
      var n' := After(cr, h, mv).node;
      assert sid in n'.secured && n'.secured[sid] == x && (OnCircuit(n', sid, x) <==> OnCircuit(n, sid, x));
    }
  }

  // ----- what is known of the handshakes under way -----

  /** A result is genuine; and while it is not cancelled, the circuit it is for is in the table. */
  ghost predicate TryOk(cr: Crypto, n: R.Node, t: Try) {
    && (!t.cancelled ==> t.sid in n.circuits && n.circuits[t.sid].remote == t.remote)
    && (!t.phase.Shaking? ==> Outcome(cr, t.initiator, t.remote, t.phase.x))
  }

  ghost predicate TriesOk(cr: Crypto, h: Host) {
    forall id :: id in h.tries ==> TryOk(cr, h.node, h.tries[id])
  }

  lemma StepTries(cr: Crypto, h: Host, mv: Move)
    requires TriesOk(cr, h) && Enabled(cr, h, mv)
    ensures TriesOk(cr, After(cr, h, mv))
  {
    hide Apply, Outcome;
    if mv.Does? { StepRetains(h.node, mv.op); }
    if mv.Stores? { StoreOnly(h.node, h.tries[mv.id].sid, h.tries[mv.id].phase.x); }
  }

  /** A result that is stored before its circuit is closed is stored in time. */
  lemma UncancelledIsTimely(cr: Crypto, h: Host, mv: Move)
    requires TriesOk(cr, h) && Enabled(cr, h, mv) && mv.Stores? && !h.tries[mv.id].cancelled
    ensures Timely(h, mv)
  {
    var t := h.tries[mv.id];
    assert TryOk(cr, h.node, t);
    OutcomeIsAuthentic(cr, t.initiator, t.remote, t.phase.x);
  }

  // ----- whole runs -----

  /** Who was dialled on a circuit of the session, in one of the states up to k. */
  predicate Dialled(hosts: seq<Host>, k: nat, sid: R.Sid, remote: R.Peer) {
    exists j :: 0 <= j <= k < |hosts| && sid in hosts[j].node.circuits
                && remote == hosts[j].node.circuits[sid].remote
  }

  /** The entries and the handshakes of state k. */
  ghost predicate StateTrusted(cr: Crypto, hosts: seq<Host>, k: nat)
    requires k < |hosts|
  {
    && AllAuthentic(cr, hosts[k].node) && TriesOk(cr, hosts[k])
    && (forall sid :: sid in hosts[k].node.secured && hosts[k].node.secured[sid].initiator ==>
          Dialled(hosts, k, sid, hosts[k].node.secured[sid].remoteId))
    && (forall id :: id in hosts[k].tries ==> Dialled(hosts, k, hosts[k].tries[id].sid, hosts[k].tries[id].remote))
  }

  lemma DialledLater(hosts: seq<Host>, k: nat)
    requires 0 < k < |hosts|
    ensures forall sid, remote :: Dialled(hosts, k - 1, sid, remote) ==> Dialled(hosts, k, sid, remote)
  {
  }

  /** A handshake under way was there before, or begins on a circuit that is in the table. */
  lemma StepStarts(cr: Crypto, h: Host, mv: Move)
    requires Enabled(cr, h, mv)
    ensures var h' := After(cr, h, mv);
            forall id :: id in h'.tries ==>
              || (id in h.tries && h'.tries[id].sid == h.tries[id].sid && h'.tries[id].remote == h.tries[id].remote)
              || (h'.tries[id].sid in h.node.circuits
                  && h'.tries[id].remote == h.node.circuits[h'.tries[id].sid].remote)
  {
    hide Apply, Outcome;
  }

  lemma {:induction false} PrefixTrusted(cr: Crypto, hosts: seq<Host>, moves: seq<Move>, k: nat)
    requires IsRun(cr, hosts, moves) && k < |hosts|
    requires hosts[0].tries == map[] && AllAuthentic(cr, hosts[0].node) && Attached(hosts[0].node)
    ensures StateTrusted(cr, hosts, k)
  {
    hide After, Enabled, TryOk, Authentic, Timely;
    if k > 0 {
      hide Attached;
      PrefixTrusted(cr, hosts, moves, k - 1);
      var (h, mv) := (hosts[k - 1], moves[k - 1]);
      assert Enabled(cr, h, mv) && hosts[k] == After(cr, h, mv);
      StepTries(cr, h, mv);
      StepEntries(cr, h, mv);
      StepStarts(cr, h, mv);
      DialledLater(hosts, k);
      if mv.Stores? { StoredIsTrusted(cr, h, mv); }
      DialledHere(hosts, k);
      hide Dialled;
    }
  }

  lemma DialledHere(hosts: seq<Host>, k: nat)
    requires 0 < k < |hosts|
    ensures var n := hosts[k - 1].node;
            forall sid :: sid in n.circuits ==> Dialled(hosts, k, sid, n.circuits[sid].remote)
  {
  }

  lemma StoredIsTrusted(cr: Crypto, h: Host, mv: Move)
    requires TriesOk(cr, h) && Enabled(cr, h, mv) && mv.Stores?
    ensures mv.id in h.tries && h.tries[mv.id].phase.Taken?
    ensures var t := h.tries[mv.id];
            Authentic(cr, t.phase.x) && (t.phase.x.initiator ==> t.phase.x.remoteId == t.remote)
  {
    var t := h.tries[mv.id];
    assert TryOk(cr, h.node, t);
    OutcomeIsAuthentic(cr, t.initiator, t.remote, t.phase.x);
  }

  lemma {:induction false} RunAttached(cr: Crypto, hosts: seq<Host>, moves: seq<Move>)
    requires IsRun(cr, hosts, moves) && Attached(hosts[0].node)
    ensures (forall h | h in hosts :: Attached(h.node))
       <==> (forall k :: 0 <= k < |moves| ==> Timely(hosts[k], moves[k]))
    decreases |moves|
  {
    hide After, Enabled, Attached, Timely;
    if moves != [] {
      var (hs, ms) := (hosts[1..], moves[1..]);
      assert Enabled(cr, hosts[0], moves[0]) && hosts[1] == After(cr, hosts[0], moves[0]);
      StepAttached(cr, hosts[0], moves[0]);
      assert (forall k :: 0 <= k < |ms| ==> ms[k] == moves[k + 1])
          && (forall k :: 0 <= k < |hs| ==> hs[k] == hosts[k + 1]);
      assert hosts == [hosts[0]] + hs;
      if Attached(hosts[1].node) { RunAttached(cr, hs, ms); }
    }
  }

  /**
    Main result. In every state of every run, with circuits removed under running handshakes and
    results stored after that, every stored secure connection is authentic, and a caller's is for
    an identity it dialled in that session. Every secure connection of every state belongs to a
    circuit, an answer's as well as a caller's, if and only if every result was stored in time.
  */
  lemma RunTrusted(cr: Crypto, hosts: seq<Host>, moves: seq<Move>)
    requires IsRun(cr, hosts, moves)
    requires hosts[0].tries == map[] && AllAuthentic(cr, hosts[0].node) && Attached(hosts[0].node)
    ensures forall h | h in hosts :: AllAuthentic(cr, h.node)
    ensures forall k, sid ::
              0 <= k < |hosts| && sid in hosts[k].node.secured && hosts[k].node.secured[sid].initiator ==>
              Dialled(hosts, k, sid, hosts[k].node.secured[sid].remoteId)
    ensures (forall h | h in hosts :: Attached(h.node))
       <==> (forall k :: 0 <= k < |moves| ==> Timely(hosts[k], moves[k]))
  {
    hide Timely, Attached, AllAuthentic, Dialled, Enabled, After, TriesOk;
    forall k | 0 <= k < |hosts|
      ensures AllAuthentic(cr, hosts[k].node)
      ensures forall sid :: sid in hosts[k].node.secured && hosts[k].node.secured[sid].initiator ==>
                Dialled(hosts, k, sid, hosts[k].node.secured[sid].remoteId)
    {
      PrefixTrusted(cr, hosts, moves, k);
    }
    RunAttached(cr, hosts, moves);
  }

  /** So nothing but the closing of a circuit between a result and its storing takes the circuit away. */
  lemma UndisturbedIsAttached(cr: Crypto, hosts: seq<Host>, moves: seq<Move>)
    requires IsRun(cr, hosts, moves)
    requires hosts[0].tries == map[] && AllAuthentic(cr, hosts[0].node) && Attached(hosts[0].node)
    requires forall k :: 0 <= k < |moves| && moves[k].Stores? && moves[k].id in hosts[k].tries ==>
               !hosts[k].tries[moves[k].id].cancelled
    ensures forall h | h in hosts :: Attached(h.node)
  {
    hide Attached, AllAuthentic, Dialled, Enabled, After, TriesOk;
    forall k | 0 <= k < |moves|
      ensures Timely(hosts[k], moves[k])
    {
      PrefixTrusted(cr, hosts, moves, k);
      if moves[k].Stores? && moves[k].id in hosts[k].tries { UncancelledIsTimely(cr, hosts[k], moves[k]); }
    }
    RunAttached(cr, hosts, moves);
  }

  // ----- the race between closing and storing -----

  /**
    Honest ends that complete the handshake: the caller that dialled the answer's peer id has a
    result to store, and so has the answer.
  */
  lemma HonestOutcomes(cr: Crypto, caller: Secret, cs: Secret, ce: Secret, answer: Secret, as_: Secret, ae: Secret,
                       dialled: R.Peer)
    returns (x: R.Secured, y: R.Secured)
    requires cr.Lawful() && cr.ids.peerId(cr.ids.key(answer)) == Some(dialled)
    ensures Outcome(cr, true, dialled, x) && Outcome(cr, false, 0, y)
  {
    hide Crypto.Lawful, Handshake.Inv, RunAlone, SendMessage, ReadNext;
    var n0 := Begin(caller, dialled, cs, ce, answer, as_, ae);
    BeginInv(cr, caller, dialled, cs, ce, answer, as_, ae);
    StageTurns(cr, n0, 0, dialled);
    var n1 := Handshake.After(cr, n0, ISends(true));
    StageTurns(cr, n1, 1, dialled);
    var n2 := Handshake.After(cr, n1, RReads);
    StageTurns(cr, n2, 2, dialled);
    var n3 := Handshake.After(cr, n2, RSends(true));
    StageTurns(cr, n3, 3, dialled);
    var n4 := Handshake.After(cr, n3, IReads);
    StageTurns(cr, n4, 4, dialled);
    var n5 := Handshake.After(cr, n4, ISends(true));
    StageTurns(cr, n5, 5, dialled);
    var n6 := Handshake.After(cr, n5, RReads);
    var (m1, m2, m3) := (n1.ir[0], n3.ri[0], n5.ir[0]);
    assert [m2][1..] == [] && [m1, m3][1..] == [m3] && [m3][1..] == [];
    AloneSends(cr, n0.i, [m2], 2);
    AloneReads(cr, n3.i, [m2], 1);
    AloneSends(cr, n4.i, [], 1);
    FinishedIsOutcome(cr, true, dialled, caller, cs, ce, [m2], 2);
    x := EntryOf(RunAlone(cr, n0.i, [m2], 2));
    AloneReads(cr, n0.r, [m1, m3], 1);
    AloneSends(cr, n2.r, [m3], 1);
    AloneReads(cr, n5.r, [m3], 0);
    FinishedIsOutcome(cr, false, 0, answer, as_, ae, [m1, m3], 1);
    y := EntryOf(RunAlone(cr, n0.r, [m1, m3], 1));
  }

  lemma Joined(cr: Crypto, a: seq<Host>, am: seq<Move>, b: seq<Host>, bm: seq<Move>)
    requires IsRun(cr, a, am) && IsRun(cr, b, bm) && a[|am|] == b[0]
    ensures IsRun(cr, a + b[1..], am + bm)
  {
    hide Enabled, After;
    var (c, cm) := (a + b[1..], am + bm);
    forall k | 0 <= k < |cm|
      ensures Enabled(cr, c[k], cm[k]) && c[k + 1] == After(cr, c[k], cm[k])
    {
      if k < |am| {
        assert Enabled(cr, a[k], am[k]) && a[k + 1] == After(cr, a[k], am[k]);
      } else {
        assert Enabled(cr, b[k - |am|], bm[k - |am|]) && b[k - |am| + 1] == After(cr, b[k - |am|], bm[k - |am|]);
      }
    }
  }

  /** A handshake on a ready circuit whose result is taken. */
  lemma ResultTaken(cr: Crypto, h: Host, id: nat, sid: R.Sid, x: R.Secured) returns (hosts: seq<Host>)
    requires id !in h.tries && MayBegin(h.node, sid)
    requires Outcome(cr, h.node.sessions[sid].role == R.Caller, h.node.circuits[sid].remote, x)
    ensures IsRun(cr, hosts, [Begins(id, sid), Finishes(id, x), Takes(id)]) && hosts[0] == h
    ensures hosts[3].node == h.node && id in hosts[3].tries
    ensures hosts[3].tries[id].sid == sid && hosts[3].tries[id].phase == Taken(x)
  {
    hide Outcome, Apply;
    var h1 := After(cr, h, Begins(id, sid));
    var h2 := After(cr, h1, Finishes(id, x));
    hosts := [h, h1, h2, After(cr, h2, Takes(id))];
  }

  lemma ClosingDetaches(n: R.Node, sid: R.Sid, bad: set<R.StreamId>)
    ensures var n' := Apply(n, Closes(sid, bad)).node;
            sid !in n'.sessions && sid !in n'.circuits && sid !in n'.secured
  {
  }

  /**
    At every node with a circuit that is ready, and for every result that a handshake on it can
    have: the select takes it, the circuit is closed, and then it is stored. The secure connection
    stays in the table with no session and no circuit.
  */
  lemma LateOutcomeStays(cr: Crypto, h: Host, id: nat, sid: R.Sid, x: R.Secured, bad: set<R.StreamId>)
    returns (hosts: seq<Host>, moves: seq<Move>)
    requires id !in h.tries && MayBegin(h.node, sid)
    requires Outcome(cr, h.node.sessions[sid].role == R.Caller, h.node.circuits[sid].remote, x)
    ensures moves == [Begins(id, sid), Finishes(id, x), Takes(id)] + [Does(Closes(sid, bad)), Stores(id)]
    ensures IsRun(cr, hosts, moves) && hosts[0] == h
    ensures var late := hosts[5].node;
            && sid !in late.sessions && sid !in late.circuits && sid in late.secured && late.secured[sid] == x
    ensures !Timely(hosts[4], moves[4]) && !Attached(hosts[5].node)
  {
    var taken := ResultTaken(cr, h, id, sid, x);
    var (h3, close) := (taken[3], Closes(sid, bad));
    ClosingDetaches(h3.node, sid, bad);
    var h4 := After(cr, h3, Does(close));
    StoreOnly(h4.node, sid, x);
    hide Outcome, Apply, IsRun, MayBegin;
    var h5 := After(cr, h4, Stores(id));
    assert sid in h5.node.secured && !OnCircuit(h5.node, sid, x);
    TwoMoves(cr, h3, h4, h5, Does(close), Stores(id));
    Joined(cr, taken, [Begins(id, sid), Finishes(id, x), Takes(id)], [h3, h4, h5], [Does(close), Stores(id)]);
    RunSized(cr, taken, [Begins(id, sid), Finishes(id, x), Takes(id)]);
    assert [h3, h4, h5][1..] == [h4, h5];
    hosts := taken + [h4, h5];
    moves := [Begins(id, sid), Finishes(id, x), Takes(id)] + [Does(close), Stores(id)];
  }

  lemma RunSized(cr: Crypto, hosts: seq<Host>, moves: seq<Move>)
    requires IsRun(cr, hosts, moves)
    ensures |hosts| == |moves| + 1
  {
  }

  lemma TwoMoves(cr: Crypto, a: Host, b: Host, c: Host, first: Move, second: Move)
    requires Enabled(cr, a, first) && b == After(cr, a, first) && Enabled(cr, b, second) && c == After(cr, b, second)
    ensures IsRun(cr, [a, b, c], [first, second])
  {
    hide Enabled, After;
  }

  /** The same handshake when the select sees the closed circuit: nothing is stored. */
  lemma CancelledIsDropped(cr: Crypto, h: Host, id: nat, bad: set<R.StreamId>) returns (hosts: seq<Host>)
    requires id in h.tries && !h.tries[id].phase.Taken?
    ensures IsRun(cr, hosts, [Does(Closes(h.tries[id].sid, bad)), Discards(id)]) && hosts[0] == h
    ensures id !in hosts[2].tries && hosts[2].node == Apply(h.node, Closes(h.tries[id].sid, bad)).node
    ensures h.tries[id].sid !in hosts[2].node.secured
  {
    var close := Closes(h.tries[id].sid, bad);
    ClosingDetaches(h.node, h.tries[id].sid, bad);
    hide Apply, Outcome;
    var h1 := After(cr, h, Does(close));
    var h2 := After(cr, h1, Discards(id));
    TwoMoves(cr, h, h1, h2, Does(close), Discards(id));
    hosts := [h, h1, h2];
  }

  // ----- such a run from a node that has just started -----

  const SOMEONE: R.Stream := R.Stream(1, 7)

  /** A node without handshakes. */
  function Alone(n: R.Node): Host {
    Host(n, {}, map[])
  }

  function Fresh(me: R.Peer): R.Node {
    R.Node(me, R.ClientMode, map[], map[], map[], map[], map[])
  }

  /** What makes a client the caller or the answer of session 1, with a circuit that is ready. */
  function Preparation(initiator: bool, dialled: R.Peer): seq<Op> {
    if initiator then
      [Opens(SOMEONE), Dials(1, dialled), Completes(1, R.Caller, SOMEONE), Handles(R.Success(1), SOMEONE, {})]
    else
      [Opens(SOMEONE), Handles(R.Wake, SOMEONE, {}), Handles(R.SetSession(1, R.Answer), SOMEONE, {}),
       Handles(R.Success(1), SOMEONE, {})]
  }

  lemma AloneWorks(cr: Crypto, n: R.Node, op: Op)
    requires !op.Secures?
    ensures Enabled(cr, Alone(n), Does(op)) && After(cr, Alone(n), Does(op)) == Alone(Apply(n, op).node)
  {
    hide Apply;
    assert Worked(Alone(n), Apply(n, op).node).tries == map[];
  }

  /** The node after the first k operations. */
  function NodeAt(n: R.Node, ops: seq<Op>, k: nat): R.Node
    requires k <= |ops|
  {
    if k == 0 then n else Apply(NodeAt(n, ops, k - 1), ops[k - 1]).node
  }

  lemma CallerPrepared(me: R.Peer, dialled: R.Peer)
    ensures var n := NodeAt(Fresh(me), Preparation(true, dialled), 4);
            && MayBegin(n, 1) && n.sessions[1].role == R.Caller && n.circuits[1].remote == dialled
  {
    var (n0, ops) := (Fresh(me), Preparation(true, dialled));
    assert NodeAt(n0, ops, 1) == n0.(streams := map[1 := R.StreamInfo(SOMEONE, R.UNBOUND)]);
    var n2 := NodeAt(n0, ops, 2);
    assert n2.circuits == map[1 := R.Conn([], false, dialled)] && n2.sessions == map[] && n2.secured == map[];
    var n3 := NodeAt(n0, ops, 3);
    assert n3.sessions[1].role == R.Caller && n3.circuits == n2.circuits && n3.secured == map[];
  }

  lemma AnswerPrepared(me: R.Peer, dialled: R.Peer)
    ensures var n := NodeAt(Fresh(me), Preparation(false, dialled), 4);
            && MayBegin(n, 1) && n.sessions[1].role == R.Answer && n.circuits[1].remote == 0
  {
    var (n0, ops) := (Fresh(me), Preparation(false, dialled));
    var n2 := NodeAt(n0, ops, 2);
    assert n2 == NodeAt(n0, ops, 1) == n0.(streams := map[1 := R.StreamInfo(SOMEONE, R.UNBOUND)]);
    var n3 := NodeAt(n0, ops, 3);
    assert n3.sessions[1].role == R.Answer && n3.circuits == map[1 := R.Conn([], false, 0)] && n3.secured == map[];
  }

  lemma Prepared(cr: Crypto, initiator: bool, me: R.Peer, dialled: R.Peer) returns (hosts: seq<Host>, moves: seq<Move>)
    ensures IsRun(cr, hosts, moves) && |moves| == 4 && hosts[0] == Alone(Fresh(me))
    ensures var h := hosts[4];
            && h.tries == map[] && MayBegin(h.node, 1)
            && h.node.sessions[1].role == (if initiator then R.Caller else R.Answer)
            && h.node.circuits[1].remote == if initiator then dialled else 0
  {
    if initiator { CallerPrepared(me, dialled); } else { AnswerPrepared(me, dialled); }
    hide Apply, MayBegin, Enabled, After, Fresh;
    var (n, ops) := (Fresh(me), Preparation(initiator, dialled));
    hosts := seq(5, k requires 0 <= k < 5 => Alone(NodeAt(n, ops, k)));
    moves := seq(4, k requires 0 <= k < 4 => Does(ops[k]));
    forall k | 0 <= k < 4
      ensures Enabled(cr, hosts[k], moves[k]) && hosts[k + 1] == After(cr, hosts[k], moves[k])
    {
      AloneWorks(cr, NodeAt(n, ops, k), ops[k]);
    }
  }

  /**
    A run from an empty node, as caller and as answer, in which an honest handshake has its result
    taken, the circuit is closed, and the result is stored: a secure connection without circuit.
  */
  lemma LateRunExists(cr: Crypto, initiator: bool, me: R.Peer, bad: set<R.StreamId>)
    returns (hosts: seq<Host>, moves: seq<Move>)
    requires cr.Lawful()
    ensures IsRun(cr, hosts, moves) && hosts[0] == Alone(Fresh(me)) && |moves| == 9
    ensures moves[7] == Does(Closes(1, bad)) && moves[8] == Stores(0) && !Timely(hosts[8], moves[8])
    ensures var late := hosts[9].node;
            && 1 in late.secured && late.secured[1].initiator == initiator
            && 1 !in late.sessions && 1 !in late.circuits && !Attached(late)
  {
    hide Outcome, IsRun, Crypto.Lawful, Attached, MayBegin, Timely;
    var dialled := DialledPeer(cr, 4);
    var x, y := HonestOutcomes(cr, 1, 2, 3, 4, 5, 6, dialled);
    var z := if initiator then x else y;
    OutcomeIsAuthentic(cr, initiator, if initiator then dialled else 0, z);
    var a, am := Prepared(cr, initiator, me, dialled);
    RunSized(cr, a, am);
    var b, bm := LateOutcomeStays(cr, a[4], 0, 1, z, bad);
    RunSized(cr, b, bm);
    Joined(cr, a, am, b, bm);
    hosts, moves := a + b[1..], am + bm;
  }

  lemma DialledPeer(cr: Crypto, answer: Secret) returns (dialled: R.Peer)
    requires cr.Lawful()
    ensures cr.ids.peerId(cr.ids.key(answer)) == Some(dialled)
  {
    dialled := cr.ids.peerId(cr.ids.key(answer)).value;
  }
}
