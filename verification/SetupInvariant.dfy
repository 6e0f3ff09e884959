/** The inductive invariant of circuit set-up, kept by every step of CircuitSetup. */
module SetupInvariant {
  import opened Basics
  import opened Relay
  import opened NodeFacts
  import opened CircuitSetup
  import NodeRuns

  // ----- what a peer's session should hold -----

  /** The stream of link `l` at peer `p`, if `p` is an end of it that has not lost it. */
  function Piece(lost: set<(Peer, StreamId)>, p: Peer, l: Link): seq<Stream> {
    if l.NoLink? || (p, l.id) in lost then []
    else if p == l.a then [Stream(l.id, l.b)]
    else if p == l.b then [Stream(l.id, l.a)]
    else []
  }

  /** All streams peer `p` gained from exchanges and did not lose, oldest first. */
  function Held(ls: Links, lost: set<(Peer, StreamId)>, p: Peer): seq<Stream> {
    Piece(lost, p, ls.ce) + Piece(lost, p, ls.ej) + Piece(lost, p, ls.xa) + Piece(lost, p, ls.xr)
    + Piece(lost, p, ls.rj)
  }

  // ----- the invariant, part by part -----

  predicate CastOk(plan: Plan, nodes: map<Peer, Node>) {
    && {plan.caller, plan.entry, plan.exit, plan.answer} <= nodes.Keys
    && nodes[plan.caller].mode == nodes[plan.answer].mode == ClientMode
    && nodes[plan.entry].mode == nodes[plan.exit].mode == ServerMode
  }

  /** Which exchange can have happened, between whom, in which order. */
  predicate LinksOk(plan: Plan, g: State) {
    var ls := g.links;
    && (ls.ce.Link? ==> ls.ce.a == plan.caller && ls.ce.b == plan.entry)
    && (ls.ej.Link? ==> ls.ej.a == plan.entry && ls.ej.b != plan.entry && plan.entry != plan.exit
                        && ls.ej.b in g.nodes && g.nodes[ls.ej.b].mode == ServerMode && g.requested)
    && (ls.xa.Link? ==> ls.xa.a == plan.exit && ls.xa.b == plan.answer
                        && g.requested && (plan.entry == plan.exit || (g.gossiped && ls.ej.Link?)))
    && (ls.xr.Link? ==> ls.xr.a == plan.exit && ls.xr.b != plan.exit && ls.xa.Link? && g.gossiped
                        && ls.ej.Link? && ls.ej.b != plan.exit && ls.xr.b != ls.ej.b
                        && ls.xr.b in g.nodes && g.nodes[ls.xr.b].mode == ServerMode)
    && (ls.rj.Link? ==> ls.xr.Link? && ls.ej.Link? && ls.rj.a == ls.xr.b && ls.rj.b == ls.ej.b
                        && !g.swapped && g.expended)
    && (g.requested ==> ls.ce.Link?)
    && (g.gossiped ==> ls.ej.Link?)
    && (g.swapped ==> ls.xr.Link? && ls.xr.b == plan.entry)
    && (g.swapTold ==> g.swapped)
    && (g.expended ==> ls.xr.Link? && (ls.rj.Link? || g.swapped))
    && (g.exitProbed ==> g.expended)
    && (g.entryProbed ==> g.gossiped)
    && DistinctIds(ls)
  }

  predicate Apart(l: Link, m: Link) {
    l.Link? && m.Link? ==> l.id != m.id
  }

  predicate DistinctIds(ls: Links) {
    && Apart(ls.ce, ls.ej) && Apart(ls.ce, ls.xa) && Apart(ls.ce, ls.xr) && Apart(ls.ce, ls.rj) && Apart(ls.ej, ls.xa)
    && Apart(ls.ej, ls.xr) && Apart(ls.ej, ls.rj) && Apart(ls.xa, ls.xr) && Apart(ls.xa, ls.rj) && Apart(ls.xr, ls.rj)
  }

  /** Peer `p` has a session exactly when it holds a stream, and holds exactly those streams. */
  predicate Agrees(plan: Plan, g: State, p: Peer)
    requires p in g.nodes
  {
    var held := Held(g.links, g.lost, p);
    if held == [] then plan.sid !in g.nodes[p].sessions
    else plan.sid in g.nodes[p].sessions && g.nodes[p].sessions[plan.sid].pair == held
  }

  predicate PairsOk(plan: Plan, g: State) {
    forall p | p in g.nodes :: Agrees(plan, g, p)
  }

  predicate Holds(g: State, p: Peer, l: Link) {
    l.Link? && (p, l.id) !in g.lost
  }

  predicate Gone(g: State, p: Peer, l: Link) {
    l.Link? && (p, l.id) in g.lost
  }

  predicate RoleOk(plan: Plan, g: State, p: Peer, role: Role) {
    && (role == Caller ==> p == plan.caller)
    && (role == Answer ==> p == plan.answer)
    && (role == Joint ==> g.links.ej.Link? && p == g.links.ej.b)
    && (plan.caller != plan.answer && p == plan.caller ==> role == Caller)
    && (plan.caller != plan.answer && p == plan.answer ==> role == Answer)
    && (p == plan.entry && (Holds(g, p, g.links.ce) || Holds(g, p, g.links.ej)) ==> role == Entry)
    && (g.links.ej.Link? && p == g.links.ej.b && Holds(g, p, g.links.ej) ==> role == Joint)
  }

  predicate RolesOk(plan: Plan, g: State) {
    forall p | p in g.nodes ::
      plan.sid in g.nodes[p].sessions ==> RoleOk(plan, g, p, g.nodes[p].sessions[plan.sid].role)
  }

  /** The entry loses its streams together, except that a swap gives up the one to the joint. */
  predicate EntryOk(plan: Plan, g: State) {
    var ls := g.links;
    var e := plan.entry;
    && (Gone(g, e, ls.ej) && ls.ce.Link? ==> g.swapped || Gone(g, e, ls.ce))
    && (g.swapped ==> Gone(g, e, ls.ej) && (Gone(g, e, ls.ce) <==> Gone(g, e, ls.xr)))
    && (ls.xr.Link? && ls.xr.b == e && !g.swapped ==> Gone(g, e, ls.ce) && Gone(g, e, ls.ej))
  }

  /** Only streams that were gained can be lost. */
  predicate LostOk(g: State) {
    forall x | x in g.lost :: Known(g.links, x.1)
  }

  predicate AllWiresTravel(wires: map<Wire, seq<Msg>>, sid: Sid) {
    forall w | w in wires :: forall i :: 0 <= i < |wires[w]| ==> Travels(wires[w][i], sid)
  }

  ghost predicate Inv(plan: Plan, g: State) {
    && CastOk(plan, g.nodes) && LinksOk(plan, g) && PairsOk(plan, g) && RolesOk(plan, g)
    && EntryOk(plan, g) && LostOk(g) && AllWiresTravel(g.wires, plan.sid)
  }

  lemma InitialInv(plan: Plan, g: State)
    requires Initial(plan, g)
    ensures Inv(plan, g)
  {
  }

  // ----- wires -----

  lemma PostKeeps(wires: map<Wire, seq<Msg>>, src: Peer, sends: seq<Send>, sid: Sid)
    requires AllWiresTravel(wires, sid) && AllTravel(sends, sid)
    ensures AllWiresTravel(Post(wires, src, sends), sid)
    decreases |sends|
  {
    if sends != [] {
      var w := Wire(sends[0].to.id, src, sends[0].to.remote);
      assert Travels(sends[0].msg, sid);
      PostKeeps(wires[w := On(wires, w) + [sends[0].msg]], src, sends[1..], sid);
    }
  }

  // ----- a peer acting without an exchange -----

  /** An effect that keeps or drops the session and writes only travelling messages. */
  predicate Tame(plan: Plan, n: Node, e: Effect) {
    KeepsOrDrops(n, e.node, plan.sid) && AllTravel(e.sends, plan.sid)
  }

  /** Dropping the session loses every stream it held. */
  lemma ActLoses(plan: Plan, g: State, p: Peer, e: Effect, l: Link)
    requires p in g.nodes && Agrees(plan, g, p) && plan.sid !in e.node.sessions
    requires l == g.links.ce || l == g.links.ej || l == g.links.xa || l == g.links.xr || l == g.links.rj
    ensures var g' := Act(plan, g, p, e); Piece(g'.lost, p, l) == []
    ensures var g' := Act(plan, g, p, e); l.Link? && (p == l.a || p == l.b) ==> Gone(g', p, l)
  {
    var piece := Piece(g.lost, p, l);
    if piece != [] {
      var held := Held(g.links, g.lost, p);
      assert piece[0] in held;
      assert PairOf(g.nodes[p], plan.sid) == held;
    }
  }

  /** A peer that acts keeps its streams or loses all of them. */
  lemma ActorAgrees(plan: Plan, g: State, p: Peer, e: Effect)
    requires p in g.nodes && Agrees(plan, g, p) && Tame(plan, g.nodes[p], e)
    ensures Agrees(plan, Act(plan, g, p, e), p)
  {
    var g' := Act(plan, g, p, e);
    hide Post, AllTravel;
    if plan.sid in e.node.sessions {
      assert g'.lost == g.lost;
    } else {
      ActLoses(plan, g, p, e, g.links.ce);
      ActLoses(plan, g, p, e, g.links.ej);
      ActLoses(plan, g, p, e, g.links.xa);
      ActLoses(plan, g, p, e, g.links.xr);
      ActLoses(plan, g, p, e, g.links.rj);
    }
  }

  lemma BystanderAgrees(plan: Plan, g: State, p: Peer, e: Effect, q: Peer)
    requires p in g.nodes && q in g.nodes && q != p && Agrees(plan, g, q)
    ensures Agrees(plan, Act(plan, g, p, e), q)
  {
    hide Post;
    var g' := Act(plan, g, p, e);
    assert forall l: Link :: Piece(g'.lost, q, l) == Piece(g.lost, q, l);
  }

  lemma ActAgrees(plan: Plan, g: State, p: Peer, e: Effect)
    requires PairsOk(plan, g) && p in g.nodes && Tame(plan, g.nodes[p], e)
    ensures PairsOk(plan, Act(plan, g, p, e))
  {
    hide Agrees, Post, Tame;
    forall q | q in g.nodes
      ensures Agrees(plan, Act(plan, g, p, e), q)
    {
      assert Agrees(plan, g, q);
      if q == p { ActorAgrees(plan, g, p, e); } else { BystanderAgrees(plan, g, p, e, q); }
    }
  }

  lemma ActKeeps(plan: Plan, g: State, p: Peer, e: Effect)
    requires Inv(plan, g) && p in g.nodes && Tame(plan, g.nodes[p], e)
    ensures Inv(plan, Act(plan, g, p, e))
  {
    hide PairsOk, RolesOk, EntryOk, LostOk, AllWiresTravel, CastOk, LinksOk, Act, Post, AllTravel;
    ActCast(plan, g, p, e);
    ActAgrees(plan, g, p, e);
    ActTravels(plan, g, p, e);
    ActLost(plan, g, p, e);
    ActEntry(plan, g, p, e);
    ActRoles(plan, g, p, e);
  }

  lemma ActCast(plan: Plan, g: State, p: Peer, e: Effect)
    requires CastOk(plan, g.nodes) && LinksOk(plan, g) && p in g.nodes && KeepsOrDrops(g.nodes[p], e.node, plan.sid)
    ensures CastOk(plan, Act(plan, g, p, e).nodes) && LinksOk(plan, Act(plan, g, p, e))
  {
    hide Post;
  }

  lemma ActTravels(plan: Plan, g: State, p: Peer, e: Effect)
    requires AllWiresTravel(g.wires, plan.sid) && p in g.nodes && AllTravel(e.sends, plan.sid)
    ensures AllWiresTravel(Act(plan, g, p, e).wires, plan.sid)
  {
    PostKeeps(g.wires, p, e.sends, plan.sid);
    hide Post, AllWiresTravel;
  }

  lemma ActRoles(plan: Plan, g: State, p: Peer, e: Effect)
    requires RolesOk(plan, g) && p in g.nodes && Tame(plan, g.nodes[p], e)
    ensures RolesOk(plan, Act(plan, g, p, e))
  {
  }

  lemma ActLost(plan: Plan, g: State, p: Peer, e: Effect)
    requires LostOk(g) && PairsOk(plan, g) && p in g.nodes
    ensures LostOk(Act(plan, g, p, e))
  {
    var g' := Act(plan, g, p, e);
    forall x | x in g'.lost
      ensures Known(g.links, x.1)
    {
      if x !in g.lost {
        var s :| s in PairOf(g.nodes[p], plan.sid) && x == (p, s.id);
        assert Agrees(plan, g, p);
        HeldIsLinked(g.links, g.lost, p, s);
      }
    }
  }

  lemma HeldIsLinked(ls: Links, lost: set<(Peer, StreamId)>, p: Peer, s: Stream)
    requires s in Held(ls, lost, p)
    ensures Known(ls, s.id)
  {
  }

  lemma ActEntry(plan: Plan, g: State, p: Peer, e: Effect)
    requires Inv(plan, g) && p in g.nodes && Tame(plan, g.nodes[p], e)
    ensures EntryOk(plan, Act(plan, g, p, e))
  {
    var g' := Act(plan, g, p, e);
    assert Agrees(plan, g, p);
    if p == plan.entry && plan.sid !in e.node.sessions {
      ActLoses(plan, g, p, e, g.links.ce);
      ActLoses(plan, g, p, e, g.links.ej);
      ActLoses(plan, g, p, e, g.links.xr);
    } else {
      assert forall l: Link :: Gone(g', plan.entry, l) <==> Gone(g, plan.entry, l);
    }
  }

  // ----- exchanges -----

  /** Node `n'` is `n` with one more stream in its session. */
  predicate Gains(sid: Sid, n: Node, n': Node, role: Role, s: Stream) {
    && n'.me == n.me && n'.mode == n.mode && n'.probes == n.probes
    && sid in n'.sessions
    && n'.sessions[sid] == Session(if sid in n.sessions then n.sessions[sid].role else role, PairOf(n, sid) + [s])
  }

  lemma AcceptGains(n: Node, sid: Sid, role: Role, s: Stream, bad: set<StreamId>)
    requires !Refuses(n, role) && !IsSwap(n, sid, role) && |PairOf(n, sid)| < 2
    ensures var e := HandleSetSession(AddStream(n, s), sid, role, s, bad);
            Gains(sid, n, e.node, role, s) && e.sends == []
  {
  }

  lemma RequestGains(n: Node, sid: Sid, role: Role, s: Stream)
    requires |PairOf(n, sid)| < 2
    ensures Gains(sid, n, CompleteSetSession(AddStream(n, s), sid, role, s), role, s)
  {
  }

  lemma ActGains(plan: Plan, g: State, p: Peer, e: Effect, role: Role, s: Stream)
    requires p in g.nodes && Gains(plan.sid, g.nodes[p], e.node, role, s) && e.sends == []
    ensures Act(plan, g, p, e) == g.(nodes := g.nodes[p := e.node])
  {
    assert forall t | t in PairOf(g.nodes[p], plan.sid) :: t in PairOf(e.node, plan.sid);
    assert Act(plan, g, p, e).lost == g.lost;
  }

  /** An exchange that is not a swap adds one stream at each end and nothing else. */
  lemma ExchangePlain(plan: Plan, g: State, p: Peer, q: Peer, id: StreamId, roleP: Role, roleQ: Role,
                      bad: set<StreamId>)
    requires CanExchange(plan, g, p, q, id, roleQ) && !IsSwap(g.nodes[q], plan.sid, roleQ)
    requires |PairOf(g.nodes[p], plan.sid)| < 2 && |PairOf(g.nodes[q], plan.sid)| < 2
    ensures var g' := Exchange(plan, g, p, q, id, roleP, roleQ, bad);
            Linked(plan, g, g', p, q, id, roleP, roleQ) && g' == g.(nodes := g'.nodes)
  {
    var (atQ, atP) := (Stream(id, p), Stream(id, q));
    AcceptGains(g.nodes[q], plan.sid, roleQ, atQ, bad);
    var e := HandleSetSession(AddStream(g.nodes[q], atQ), plan.sid, roleQ, atQ, bad);
    ActGains(plan, g, q, e, roleQ, atQ);
    var g1 := Act(plan, g, q, e);
    RequestGains(g1.nodes[p], plan.sid, roleP, atP);
    ActGains(plan, g1, p, Quiet(CompleteSetSession(AddStream(g1.nodes[p], atP), plan.sid, roleP, atP)), roleP, atP);
  }

  /** The state after a plain exchange, with its link recorded. */
  predicate Linked(plan: Plan, g: State, g': State, p: Peer, q: Peer, id: StreamId, roleP: Role, roleQ: Role) {
    && p in g.nodes && q in g.nodes && p != q
    && g'.nodes.Keys == g.nodes.Keys
    && Gains(plan.sid, g.nodes[p], g'.nodes[p], roleP, Stream(id, q))
    && Gains(plan.sid, g.nodes[q], g'.nodes[q], roleQ, Stream(id, p))
    && (forall x | x in g.nodes && x != p && x != q :: g'.nodes[x] == g.nodes[x])
    && g'.wires == g.wires && g'.lost == g.lost
  }

  /** Nothing but sessions, links and the expended flag changed. */
  predicate Quietly(g: State, g': State) {
    && g'.nodes.Keys == g.nodes.Keys
    && (forall x | x in g.nodes :: g'.nodes[x].probes == g.nodes[x].probes)
    && g' == g.(nodes := g'.nodes, links := g'.links, expended := g'.expended)
  }

  function Added(p: Peer, q: Peer, id: StreamId, x: Peer): seq<Stream> {
    if x == p then [Stream(id, q)] else if x == q then [Stream(id, p)] else []
  }

  lemma LinkedPairs(plan: Plan, g: State, g': State, p: Peer, q: Peer, id: StreamId, roleP: Role, roleQ: Role)
    requires PairsOk(plan, g) && Linked(plan, g, g', p, q, id, roleP, roleQ)
    requires forall x | x in g.nodes :: Held(g'.links, g.lost, x) == Held(g.links, g.lost, x) + Added(p, q, id, x)
    ensures PairsOk(plan, g')
  {
    forall x | x in g'.nodes
      ensures Agrees(plan, g', x)
    {
      assert Agrees(plan, g, x);
    }
  }

  lemma LinkedRoles(plan: Plan, g: State, g': State, p: Peer, q: Peer, id: StreamId, roleP: Role, roleQ: Role)
    requires RolesOk(plan, g) && Linked(plan, g, g', p, q, id, roleP, roleQ)
    requires RoleOk(plan, g', p, g'.nodes[p].sessions[plan.sid].role)
    requires RoleOk(plan, g', q, g'.nodes[q].sessions[plan.sid].role)
    requires forall x, role | x != p && x != q && RoleOk(plan, g, x, role) :: RoleOk(plan, g', x, role)
    ensures RolesOk(plan, g')
  {
  }

  /** A fresh id is on nobody's record. */
  lemma FreshNotLost(g: State, id: StreamId, p: Peer)
    requires LostOk(g) && Fresh(g, id)
    ensures (p, id) !in g.lost
  {
    assert (p, id) in g.lost ==> Known(g.links, (p, id).1);
  }

  lemma LostGrows(g: State, g': State)
    requires LostOk(g) && g'.lost == g.lost
    requires forall id :: Known(g.links, id) ==> Known(g'.links, id)
    ensures LostOk(g')
  {
  }

  // The five exchanges in turn: first what the new link adds to each peer, then the invariant.

  lemma OpenHeld(plan: Plan, g: State, id: StreamId, x: Peer)
    requires LinksOk(plan, g) && LostOk(g) && Fresh(g, id) && g.links.ce.NoLink?
    ensures Held(g.links.(ce := Link(id, plan.caller, plan.entry)), g.lost, x)
         == Held(g.links, g.lost, x) + Added(plan.caller, plan.entry, id, x)
  {
    FreshNotLost(g, id, x);
  }

  lemma OpenLinked(plan: Plan, g: State, id: StreamId, g': State)
    requires Inv(plan, g) && Fresh(g, id) && g.links.ce.NoLink?
    requires Linked(plan, g, g', plan.caller, plan.entry, id, Caller, Entry)
    requires g' == g.(nodes := g'.nodes, links := g.links.(ce := Link(id, plan.caller, plan.entry)))
    requires plan.sid !in g.nodes[plan.caller].sessions
    ensures Inv(plan, g')
  {
    var (p, q) := (plan.caller, plan.entry);
    forall x { OpenHeld(plan, g, id, x); }
    LinkedPairs(plan, g, g', p, q, id, Caller, Entry);
    assert Agrees(plan, g, q);
    LinkedRoles(plan, g, g', p, q, id, Caller, Entry);
    LostGrows(g, g');
  }

  lemma OpenSizes(plan: Plan, g: State)
    requires Inv(plan, g) && g.links.ce.NoLink?
    ensures |PairOf(g.nodes[plan.caller], plan.sid)| < 2 && |PairOf(g.nodes[plan.entry], plan.sid)| < 2
  {
    assert Agrees(plan, g, plan.caller) && Agrees(plan, g, plan.entry);
  }

  /** The caller's exchange with its proxy. */
  lemma OpenKeeps(plan: Plan, g: State, id: StreamId, g': State)
    requires Inv(plan, g) && Opens(plan, g, id, g')
    ensures Inv(plan, g') && Quietly(g, g')
  {
    hide Inv, Exchange, Act;
    OpenSizes(plan, g);
    ExchangePlain(plan, g, plan.caller, plan.entry, id, Caller, Entry, {});
    OpenLinked(plan, g, id, g');
  }

  lemma CallHeld(plan: Plan, g: State, id: StreamId, x: Peer)
    requires LinksOk(plan, g) && LostOk(g) && Fresh(g, id) && g.links.xa.NoLink?
    ensures Held(g.links.(xa := Link(id, plan.exit, plan.answer)), g.lost, x)
         == Held(g.links, g.lost, x) + Added(plan.exit, plan.answer, id, x)
  {
    FreshNotLost(g, id, x);
  }

  lemma CallLinked(plan: Plan, g: State, id: StreamId, g': State)
    requires Inv(plan, g) && Fresh(g, id) && g.links.xa.NoLink?
    requires (g.requested && plan.entry == plan.exit) || g.gossiped
    requires Linked(plan, g, g', plan.exit, plan.answer, id, Exit, Answer)
    requires g' == g.(nodes := g'.nodes, links := g.links.(xa := Link(id, plan.exit, plan.answer)))
    ensures Inv(plan, g')
  {
    var (p, q) := (plan.exit, plan.answer);
    forall x { CallHeld(plan, g, id, x); }
    LinkedPairs(plan, g, g', p, q, id, Exit, Answer);
    CallRoles(plan, g, id, g');
    LostGrows(g, g');
  }

  lemma CallRoles(plan: Plan, g: State, id: StreamId, g': State)
    requires Inv(plan, g) && g.links.xa.NoLink?
    requires Linked(plan, g, g', plan.exit, plan.answer, id, Exit, Answer)
    requires g'.links.ce == g.links.ce && g'.links.ej == g.links.ej
    ensures RolesOk(plan, g')
  {
    assert Agrees(plan, g, plan.exit) && Agrees(plan, g, plan.answer);
    LinkedRoles(plan, g, g', plan.exit, plan.answer, id, Exit, Answer);
  }

  lemma CallSizes(plan: Plan, g: State)
    requires Inv(plan, g) && g.links.xa.NoLink?
    ensures |PairOf(g.nodes[plan.exit], plan.sid)| < 2 && |PairOf(g.nodes[plan.answer], plan.sid)| < 2
  {
    assert Agrees(plan, g, plan.exit) && Agrees(plan, g, plan.answer);
  }

  /** The exchange with the destination. */
  lemma CallKeeps(plan: Plan, g: State, id: StreamId, g': State)
    requires Inv(plan, g) && CallsAnswer(plan, g, id, g')
    requires (g.requested && plan.entry == plan.exit) || g.gossiped
    ensures Inv(plan, g') && Quietly(g, g')
  {
    hide Inv, Exchange, Act;
    CallSizes(plan, g);
    ExchangePlain(plan, g, plan.exit, plan.answer, id, Exit, Answer, {});
    CallLinked(plan, g, id, g');
  }

  lemma JoinHeld(plan: Plan, g: State, joint: Peer, id: StreamId, x: Peer)
    requires LinksOk(plan, g) && LostOk(g) && Fresh(g, id) && g.links.ej.NoLink? && plan.entry != plan.exit
    ensures Held(g.links.(ej := Link(id, plan.entry, joint)), g.lost, x)
         == Held(g.links, g.lost, x) + Added(plan.entry, joint, id, x)
  {
    FreshNotLost(g, id, x);
  }

  lemma JoinLinked(plan: Plan, g: State, joint: Peer, id: StreamId, g': State)
    requires Inv(plan, g) && Fresh(g, id) && g.links.ej.NoLink? && g.requested && plan.entry != plan.exit
    requires joint in g.nodes && g.nodes[joint].mode == ServerMode && joint != plan.entry
    requires Linked(plan, g, g', plan.entry, joint, id, Entry, Joint)
    requires g' == g.(nodes := g'.nodes, links := g.links.(ej := Link(id, plan.entry, joint)))
    ensures Inv(plan, g')
  {
    var (p, q) := (plan.entry, joint);
    forall x { JoinHeld(plan, g, joint, id, x); }
    LinkedPairs(plan, g, g', p, q, id, Entry, Joint);
    assert Agrees(plan, g, p) && Agrees(plan, g, q);
    LinkedRoles(plan, g, g', p, q, id, Entry, Joint);
    LostGrows(g, g');
  }

  lemma JoinSizes(plan: Plan, g: State, joint: Peer)
    requires Inv(plan, g) && g.links.ej.NoLink? && plan.entry != plan.exit && joint in g.nodes
    ensures |PairOf(g.nodes[plan.entry], plan.sid)| < 2 && |PairOf(g.nodes[joint], plan.sid)| < 2
  {
    assert Agrees(plan, g, plan.entry) && Agrees(plan, g, joint);
  }

  /** The entry's exchange with the joint it chose. */
  lemma JoinKeeps(plan: Plan, g: State, joint: Peer, id: StreamId, g': State)
    requires Inv(plan, g) && Joins(plan, g, joint, id, g')
    ensures Inv(plan, g') && Quietly(g, g')
  {
    hide Inv, Exchange, Act;
    JoinSizes(plan, g, joint);
    ExchangePlain(plan, g, plan.entry, joint, id, Entry, Joint, {});
    JoinLinked(plan, g, joint, id, g');
  }

  lemma RelayHeld(plan: Plan, g: State, relay: Peer, id: StreamId, x: Peer)
    requires LinksOk(plan, g) && LostOk(g) && Fresh(g, id) && g.links.xr.NoLink?
    ensures Held(g.links.(xr := Link(id, plan.exit, relay)), g.lost, x)
         == Held(g.links, g.lost, x) + Added(plan.exit, relay, id, x)
  {
    FreshNotLost(g, id, x);
  }

  lemma RelayLinked(plan: Plan, g: State, relay: Peer, id: StreamId, g': State)
    requires Inv(plan, g) && Fresh(g, id) && g.links.xr.NoLink? && g.links.xa.Link? && g.gossiped
    requires g.links.ej.b != plan.exit
    requires relay in g.nodes && g.nodes[relay].mode == ServerMode && relay != plan.exit && relay != g.links.ej.b
    requires plan.sid !in g.nodes[relay].sessions
    requires Linked(plan, g, g', plan.exit, relay, id, Exit, Relayer)
    requires g'
        == g.(nodes := g'.nodes, links := g.links.(xr := Link(id, plan.exit, relay)), swapped := false,
            swapTold := false)
    ensures Inv(plan, g')
  {
    var (p, q) := (plan.exit, relay);
    forall x { RelayHeld(plan, g, relay, id, x); }
    LinkedPairs(plan, g, g', p, q, id, Exit, Relayer);
    assert Agrees(plan, g, p) && Agrees(plan, g, q);
    LinkedRoles(plan, g, g', p, q, id, Exit, Relayer);
    LostGrows(g, g');
  }

  lemma ExpendHeld(plan: Plan, g: State, id: StreamId, x: Peer)
    requires LinksOk(plan, g) && LostOk(g) && Fresh(g, id) && g.links.rj.NoLink? && g.links.xr.Link? && g.links.ej.Link?
    ensures Held(g.links.(rj := Link(id, g.links.xr.b, g.links.ej.b)), g.lost, x)
         == Held(g.links, g.lost, x) + Added(g.links.xr.b, g.links.ej.b, id, x)
  {
    FreshNotLost(g, id, x);
  }

  lemma ExpendLinked(plan: Plan, g: State, id: StreamId, g': State)
    requires Inv(plan, g) && Fresh(g, id) && g.links.xr.Link? && g.links.rj.NoLink? && g.links.ej.Link?
    requires plan.sid in g.nodes[g.links.xr.b].sessions && !g.swapped
    requires Linked(plan, g, g', g.links.xr.b, g.links.ej.b, id, Relayer, Joint)
    requires g'
        == g.(nodes := g'.nodes, links := g.links.(rj := Link(id, g.links.xr.b, g.links.ej.b)), expended := true)
    ensures Inv(plan, g')
  {
    forall x { ExpendHeld(plan, g, id, x); }
    LinkedPairs(plan, g, g', g.links.xr.b, g.links.ej.b, id, Relayer, Joint);
    ExpendRoles(plan, g, id, g');
    LostGrows(g, g');
  }

  lemma ExpendRoles(plan: Plan, g: State, id: StreamId, g': State)
    requires Inv(plan, g) && g.links.xr.Link? && g.links.ej.Link?
    requires plan.sid in g.nodes[g.links.xr.b].sessions && !g.swapped
    requires Linked(plan, g, g', g.links.xr.b, g.links.ej.b, id, Relayer, Joint)
    requires g'.links.ce == g.links.ce && g'.links.ej == g.links.ej
    ensures RolesOk(plan, g')
  {
    var (p, q) := (g.links.xr.b, g.links.ej.b);
    assert Agrees(plan, g, p) && Agrees(plan, g, q);
    LinkedRoles(plan, g, g', p, q, id, Relayer, Joint);
  }

  /** A relay that must still be connected to the joint has one stream, and the joint at most one. */
  lemma ExpendSizes(plan: Plan, g: State)
    requires Inv(plan, g) && g.links.xr.Link? && g.links.rj.NoLink?
    requires plan.sid in g.nodes[g.links.xr.b].sessions && !g.nodes[g.links.xr.b].sessions[plan.sid].IsReady()
    ensures !g.swapped
    ensures |PairOf(g.nodes[g.links.xr.b], plan.sid)| < 2 && |PairOf(g.nodes[g.links.ej.b], plan.sid)| < 2
  {
    assert Agrees(plan, g, g.links.xr.b) && Agrees(plan, g, g.links.ej.b);
  }

  /** The session-expend command: the relay's exchange with the joint. */
  lemma ExpendKeeps(plan: Plan, g: State, id: StreamId, g': State)
    requires Inv(plan, g) && Expends(plan, g, id, g')
    ensures Inv(plan, g') && Quietly(g, g')
  {
    hide Inv, Exchange, Act;
    ExpendSizes(plan, g);
    ExchangePlain(plan, g, g.links.xr.b, g.links.ej.b, id, Relayer, Joint, {});
    ExpendLinked(plan, g, id, g');
  }

  // ----- the entry that becomes the relay as well -----

  /** Asked to relay, a peer either has no session, or it is the entry and its session is full. */
  lemma RelayCandidate(plan: Plan, g: State, relay: Peer)
    requires Inv(plan, g) && g.links.xr.NoLink? && g.links.ej.Link? && relay in g.nodes
    requires relay != g.links.ej.b && relay != plan.exit && Accepts(g.nodes[relay], plan.sid, Relayer)
    ensures g.nodes[relay].mode == ServerMode
    ensures !IsSwap(g.nodes[relay], plan.sid, Relayer) ==> plan.sid !in g.nodes[relay].sessions
    ensures IsSwap(g.nodes[relay], plan.sid, Relayer) ==>
              && relay == plan.entry
              && g.nodes[relay].sessions[plan.sid]
                 == Session(Entry, [Stream(g.links.ce.id, plan.caller), Stream(g.links.ej.id, g.links.ej.b)])
              && Holds(g, plan.entry, g.links.ce) && Holds(g, plan.entry, g.links.ej)
  {
    assert Agrees(plan, g, relay);
  }

  lemma SwapHandled(n: Node, sid: Sid, s: Stream, bad: set<StreamId>)
    requires IsSwap(n, sid, Relayer) && n.sessions[sid].IsReady() && n.mode == ServerMode
    ensures var e := HandleSetSession(AddStream(n, s), sid, Relayer, s, bad);
            var former := n.sessions[sid].pair[1];
            && e.node.me == n.me && e.node.mode == n.mode && e.node.probes == n.probes
            && sid in e.node.sessions && e.node.sessions[sid] == Session(Entry, [n.sessions[sid].pair[0], s])
            && e.sends == if former.id in bad then [] else [Send(former, Disconnect(sid))]
  {
  }

  /** The state right after the entry gave up stream `drop` for one to the exit. */
  predicate SwapState(plan: Plan, g: State, id: StreamId, keep: Stream, drop: Stream, told: bool, g': State) {
    var (x, e) := (plan.exit, plan.entry);
    && x in g.nodes && e in g.nodes && x != e
    && g'.nodes.Keys == g.nodes.Keys
    && Gains(plan.sid, g.nodes[x], g'.nodes[x], Exit, Stream(id, e))
    && g'.nodes[e].mode == g.nodes[e].mode && g'.nodes[e].probes == g.nodes[e].probes
    && plan.sid in g'.nodes[e].sessions && g'.nodes[e].sessions[plan.sid] == Session(Entry, [keep, Stream(id, x)])
    && (forall y | y in g.nodes && y != x && y != e :: g'.nodes[y] == g.nodes[y])
    && g'.lost == g.lost + {(e, drop.id)}
    && g'.wires == Post(g.wires, e, if told then [Send(drop, Disconnect(plan.sid))] else [])
    && g' == g.(nodes := g'.nodes, wires := g'.wires, lost := g'.lost,
                links := g.links.(xr := Link(id, x, e)), swapped := true, swapTold := told)
  }

  lemma ActLosesOne(plan: Plan, g: State, p: Peer, e: Effect, keep: Stream, drop: Stream, s: Stream)
    requires p in g.nodes && PairOf(g.nodes[p], plan.sid) == [keep, drop] && PairOf(e.node, plan.sid) == [keep, s]
    requires drop != keep && drop != s
    ensures Act(plan, g, p, e) == g.(nodes := g.nodes[p := e.node], wires := Post(g.wires, p, e.sends),
                                     lost := g.lost + {(p, drop.id)})
  {
    assert forall t :: t in [keep, drop] && t !in [keep, s] <==> t == drop;
  }

  lemma SwapExchange(plan: Plan, g: State, id: StreamId, bad: set<StreamId>, keep: Stream, drop: Stream, told: bool,
                     g': State)
    requires CanExchange(plan, g, plan.exit, plan.entry, id, Relayer) && g.nodes[plan.entry].mode == ServerMode
    requires plan.sid in g.nodes[plan.entry].sessions
    requires g.nodes[plan.entry].sessions[plan.sid] == Session(Entry, [keep, drop]) && drop.id != keep.id
        && drop.id != id
    requires |PairOf(g.nodes[plan.exit], plan.sid)| < 2
    requires told <==> drop.id !in bad
    requires g' == Exchange(plan, g, plan.exit, plan.entry, id, Exit, Relayer, bad)
                   .(links := g.links.(xr := Link(id, plan.exit, plan.entry)), swapped := true, swapTold := told)
    ensures SwapState(plan, g, id, keep, drop, told, g')
  {
    var (x, e) := (plan.exit, plan.entry);
    var (atE, atX) := (Stream(id, x), Stream(id, e));
    SwapHandled(g.nodes[e], plan.sid, atE, bad);
    var eff := HandleSetSession(AddStream(g.nodes[e], atE), plan.sid, Relayer, atE, bad);
    ActLosesOne(plan, g, e, eff, keep, drop, atE);
    var g1 := Act(plan, g, e, eff);
    assert g1.nodes[x] == g.nodes[x];
    RequestGains(g1.nodes[x], plan.sid, Exit, atX);
    ActGains(plan, g1, x, Quiet(CompleteSetSession(AddStream(g1.nodes[x], atX), plan.sid, Exit, atX)), Exit, atX);
  }

  lemma ExitSize(plan: Plan, g: State)
    requires Inv(plan, g) && g.links.xr.NoLink? && g.links.ej.Link? && g.links.ej.b != plan.exit
    ensures |PairOf(g.nodes[plan.exit], plan.sid)| < 2
  {
    assert Agrees(plan, g, plan.exit);
  }

  lemma SwapHeld(plan: Plan, g: State, id: StreamId, x: Peer)
    requires LinksOk(plan, g) && LostOk(g) && Fresh(g, id) && g.links.xr.NoLink? && g.links.ej.Link?
    requires Holds(g, plan.entry, g.links.ce) && Holds(g, plan.entry, g.links.ej)
    requires plan.caller != plan.entry && plan.answer != plan.entry
    ensures Held(g.links.(xr := Link(id, plan.exit, plan.entry)), g.lost + {(plan.entry, g.links.ej.id)}, x)
         == if x == plan.entry then [Stream(g.links.ce.id, plan.caller), Stream(id, plan.exit)]
            else Held(g.links, g.lost, x) + Added(plan.exit, plan.entry, id, x)
  {
    FreshNotLost(g, id, x);
  }

  lemma SwapPairs(plan: Plan, g: State, id: StreamId, drop: Stream, told: bool, g': State)
    requires CastOk(plan, g.nodes) && LinksOk(plan, g) && LostOk(g) && PairsOk(plan, g)
    requires Fresh(g, id) && g.links.xr.NoLink? && g.links.ej.Link? && drop.id == g.links.ej.id
    requires SwapState(plan, g, id, Stream(g.links.ce.id, plan.caller), drop, told, g')
    requires Holds(g, plan.entry, g.links.ce) && Holds(g, plan.entry, g.links.ej)
    ensures PairsOk(plan, g')
  {
    forall y | y in g'.nodes
      ensures Agrees(plan, g', y)
    {
      assert Agrees(plan, g, y);
      SwapHeld(plan, g, id, y);
    }
  }

  lemma SwapRoles(plan: Plan, g: State, id: StreamId, keep: Stream, drop: Stream, told: bool, g': State)
    requires CastOk(plan, g.nodes) && LinksOk(plan, g) && RolesOk(plan, g)
    requires SwapState(plan, g, id, keep, drop, told, g') && g.links.ej.Link? && g.links.ej.b != plan.exit
    ensures RolesOk(plan, g')
  {
  }

  lemma SwapLinks(plan: Plan, g: State, id: StreamId, keep: Stream, told: bool, g': State)
    requires CastOk(plan, g.nodes) && LinksOk(plan, g) && LostOk(g) && Fresh(g, id)
    requires g.links.ej.Link? && g.links.ej.b != plan.exit && g.links.xr.NoLink? && g.links.xa.Link? && g.gossiped
    requires Holds(g, plan.entry, g.links.ce)
    requires SwapState(plan, g, id, keep, Stream(g.links.ej.id, g.links.ej.b), told, g')
    ensures LinksOk(plan, g') && EntryOk(plan, g') && LostOk(g')
  {
    FreshNotLost(g, id, plan.entry);
  }

  lemma SwapInv(plan: Plan, g: State, id: StreamId, told: bool, g': State)
    requires Inv(plan, g) && Fresh(g, id) && g.links.ej.Link? && g.links.ej.b != plan.exit
    requires g.links.xr.NoLink? && g.links.xa.Link? && g.gossiped
    requires Holds(g, plan.entry, g.links.ce) && Holds(g, plan.entry, g.links.ej)
    requires SwapState(plan, g, id, Stream(g.links.ce.id, plan.caller), Stream(g.links.ej.id, g.links.ej.b), told, g')
    ensures Inv(plan, g')
  {
    hide PairsOk, RolesOk, EntryOk, LostOk, AllWiresTravel, LinksOk, SwapState;
    var drop := Stream(g.links.ej.id, g.links.ej.b);
    SwapCast(plan, g, id, Stream(g.links.ce.id, plan.caller), drop, told, g');
    SwapPairs(plan, g, id, drop, told, g');
    SwapRoles(plan, g, id, Stream(g.links.ce.id, plan.caller), drop, told, g');
    SwapLinks(plan, g, id, Stream(g.links.ce.id, plan.caller), told, g');
  }

  lemma SwapCast(plan: Plan, g: State, id: StreamId, keep: Stream, drop: Stream, told: bool, g': State)
    requires CastOk(plan, g.nodes) && AllWiresTravel(g.wires, plan.sid) && SwapState(plan, g, id, keep, drop, told, g')
    ensures CastOk(plan, g'.nodes) && AllWiresTravel(g'.wires, plan.sid)
  {
    hide AllWiresTravel, Post;
    PostKeeps(g.wires, plan.entry, if told then [Send(drop, Disconnect(plan.sid))] else [], plan.sid);
  }

  lemma EntryStreams(plan: Plan, g: State)
    requires Inv(plan, g) && g.links.ej.Link?
    ensures g.links.ce.Link? && g.links.ej.id != g.links.ce.id && g.nodes[plan.entry].mode == ServerMode
        && (g.links.xr.NoLink? ==> !g.swapped && !g.swapTold)
    ensures g.links.ce.a == plan.caller && g.links.ej.a == plan.entry
  {
  }

  /** The exit's exchange with the relay it chose, including the entry-as-relay swap. */
  lemma PickKeeps(plan: Plan, g: State, relay: Peer, id: StreamId, bad: set<StreamId>, g': State)
    requires Inv(plan, g) && PicksRelay(plan, g, relay, id, bad, g')
    ensures Inv(plan, g')
    ensures Quietly(g, g')
        || SwapState(plan, g, id, Stream(g.links.ce.id, plan.caller), Stream(g.links.ej.id, g.links.ej.b), g'.swapTold,
           g')
  {
    hide Inv, Exchange, Act, SwapState;
    RelayCandidate(plan, g, relay);
    ExitSize(plan, g);
    EntryStreams(plan, g);
    if IsSwap(g.nodes[relay], plan.sid, Relayer) {
      var (keep, drop) := (Stream(g.links.ce.id, plan.caller), Stream(g.links.ej.id, g.links.ej.b));
      SwapExchange(plan, g, id, bad, keep, drop, g'.swapTold, g');
      SwapInv(plan, g, id, g'.swapTold, g');
    } else {
      ExchangePlain(plan, g, plan.exit, relay, id, Exit, Relayer, bad);
      RelayLinked(plan, g, relay, id, g');
    }
  }

  // ----- every step -----

  lemma PopKeeps(plan: Plan, g: State, w: Wire)
    requires Inv(plan, g) && w in g.wires && g.wires[w] != []
    ensures Inv(plan, Popped(g, w)) && Travels(g.wires[w][0], plan.sid)
  {
    var g' := Popped(g, w);
    assert forall p | p in g.nodes :: Agrees(plan, g, p) ==> Agrees(plan, g', p);
    assert forall p, role :: RoleOk(plan, g, p, role) ==> RoleOk(plan, g', p, role);
  }

  /** Whatever a handler does with a travelling message is tame. */
  lemma HandleTame(plan: Plan, n: Node, msg: Msg, from: Stream, bad: set<StreamId>)
    requires Travels(msg, plan.sid)
    ensures Tame(plan, n, Handle(n, msg, from, bad))
  {
    if msg.Probe? {
      ProbeFacts(n, plan.sid, msg.rand, from, bad);
    } else {
      HandleFacts(n, msg, from, plan.sid, bad);
    }
  }

  lemma DeliverKeeps(plan: Plan, g: State, w: Wire, bad: set<StreamId>, g': State)
    requires Inv(plan, g) && DeliversFrom(plan, g, w, bad, g')
    ensures Inv(plan, g')
  {
    hide Inv;
    PopKeeps(plan, g, w);
    var e := Handle(g.nodes[w.dst], g.wires[w][0], Stream(w.id, w.src), bad);
    HandleTame(plan, g.nodes[w.dst], g.wires[w][0], Stream(w.id, w.src), bad);
    ActKeeps(plan, Popped(g, w), w.dst, e);
  }

  lemma RelaysKeeps(plan: Plan, g: State, p: Peer, msg: Msg, bad: set<StreamId>, g': State)
    requires Inv(plan, g) && Travels(msg, plan.sid) && Relays(plan, g, p, msg, bad, g')
    ensures Inv(plan, g')
  {
    hide Inv;
    BroadcastFacts(g.nodes[p], plan.sid, msg, None, bad);
    ActKeeps(plan, g, p, SendRelay(g.nodes[p], plan.sid, msg, bad));
  }

  lemma ClosesKeeps(plan: Plan, g: State, p: Peer, bad: set<StreamId>)
    requires Inv(plan, g) && p in g.nodes
    ensures Inv(plan, Act(plan, g, p, CloseCircuit(g.nodes[p], plan.sid, bad)))
  {
    hide Inv;
    CloseFacts(g.nodes[p], plan.sid, bad);
    ActKeeps(plan, g, p, CloseCircuit(g.nodes[p], plan.sid, bad));
  }

  lemma StreamClosesKeeps(plan: Plan, g: State, p: Peer, id: StreamId, bad: set<StreamId>)
    requires Inv(plan, g) && p in g.nodes && id in g.nodes[p].streams && g.nodes[p].streams[id].sid == plan.sid
    ensures Inv(plan, Act(plan, g, p, HandleStreamClosed(g.nodes[p], id, bad)))
  {
    hide Inv;
    CloseFacts(g.nodes[p], plan.sid, bad);
    ActKeeps(plan, g, p, HandleStreamClosed(g.nodes[p], id, bad));
  }

  lemma ActQuiet(plan: Plan, g: State, p: Peer, n: Node)
    requires p in g.nodes && PairOf(g.nodes[p], plan.sid) == PairOf(n, plan.sid)
    ensures Act(plan, g, p, Quiet(n)) == g.(nodes := g.nodes[p := n])
  {
    assert Act(plan, g, p, Quiet(n)).lost == g.lost;
  }

  /** A node changes in ways that do not concern this session. */
  predicate SameFor(sid: Sid, n: Node, n': Node) {
    && n'.me == n.me && n'.mode == n.mode
    && (sid in n.sessions <==> sid in n'.sessions) && (sid in n.sessions ==> n.sessions[sid] == n'.sessions[sid])
    && (sid in n.probes <==> sid in n'.probes) && (sid in n.probes ==> n.probes[sid] == n'.probes[sid])
  }

  lemma ElsewhereSame(plan: Plan, n: Node, op: NodeRuns.Op)
    requires NodeRuns.Subject(n, op) != plan.sid
    ensures var n' := NodeRuns.Apply(n, op).node;
            && SameFor(plan.sid, n, n')
            && (plan.sid in n.circuits <==> plan.sid in n'.circuits)
            && (plan.sid in n.circuits ==> n.circuits[plan.sid] == n'.circuits[plan.sid])
  {
    hide NodeRuns.Apply;
    NodeRuns.StepFrame(n, op);
    OtherEntries(n, NodeRuns.Apply(n, op).node, NodeRuns.Subject(n, op), plan.sid);
  }

  lemma OtherEntries(n: Node, n': Node, x: Sid, sid: Sid)
    requires OthersSame(n, n', x) && x != sid
    ensures SameFor(sid, n, n')
    ensures (sid in n.circuits <==> sid in n'.circuits) && (sid in n.circuits ==> n.circuits[sid] == n'.circuits[sid])
  {
    assert sid in n.sessions <==> sid in n.sessions - {x};
    assert sid in n.probes <==> sid in n.probes - {x};
    assert sid in n.circuits <==> sid in n.circuits - {x};
    assert sid in n'.sessions ==> (n'.sessions - {x})[sid] == n'.sessions[sid];
    assert sid in n'.probes ==> (n'.probes - {x})[sid] == n'.probes[sid];
    assert sid in n'.circuits ==> (n'.circuits - {x})[sid] == n'.circuits[sid];
  }

  /** Changes that leave every session of this id alone. */
  lemma SameKeeps(plan: Plan, g: State, p: Peer, n: Node)
    requires Inv(plan, g) && p in g.nodes && SameFor(plan.sid, g.nodes[p], n)
    ensures Inv(plan, g.(nodes := g.nodes[p := n]))
  {
    hide Inv;
    ActKeeps(plan, g, p, Quiet(n));
    ActQuiet(plan, g, p, n);
  }

  /** Control flags on their own do not disturb what the nodes hold. */
  lemma FlagKeeps(plan: Plan, g: State, g': State)
    requires Inv(plan, g) && LinksOk(plan, g')
    requires g' == g.(requested := g'.requested, gossiped := g'.gossiped, entryProbed := g'.entryProbed,
                      expended := g'.expended, exitProbed := g'.exitProbed)
    ensures Inv(plan, g')
  {
    forall q | q in g'.nodes
      ensures Agrees(plan, g', q)
    {
      assert Agrees(plan, g, q);
    }
    assert forall q, role :: RoleOk(plan, g, q, role) ==> RoleOk(plan, g', q, role);
  }

  /** A full relay session means the entry swapped. */
  lemma ReadyRelaySwapped(plan: Plan, g: State)
    requires Inv(plan, g) && g.links.xr.Link? && !g.expended
    requires plan.sid in g.nodes[g.links.xr.b].sessions && g.nodes[g.links.xr.b].sessions[plan.sid].IsReady()
    ensures g.swapped
  {
    assert Agrees(plan, g, g.links.xr.b);
  }

  lemma RequestKeeps(plan: Plan, g: State, g': State)
    requires Inv(plan, g) && Requests(plan, g, g')
    ensures Inv(plan, g')
  {
    var g1 := g.(requested := true);
    FlagKeeps(plan, g, g1);
    SameKeeps(plan, g1, plan.caller, AddCircuit(g.nodes[plan.caller], plan.sid, plan.answer));
  }

  /** Sending a probe or the relay's Success: a flag is raised and the message goes out. */
  lemma FlagAndRelayKeeps(plan: Plan, g: State, g1: State, p: Peer, msg: Msg, bad: set<StreamId>, g': State)
    requires Inv(plan, g) && LinksOk(plan, g1) && Travels(msg, plan.sid) && Relays(plan, g1, p, msg, bad, g')
    requires g1 == g.(entryProbed := g1.entryProbed, expended := g1.expended, exitProbed := g1.exitProbed)
    ensures Inv(plan, g')
  {
    hide Inv;
    FlagKeeps(plan, g, g1);
    RelaysKeeps(plan, g1, p, msg, bad, g');
  }

  predicate IsExchange(move: Move) {
    move.CallerOpens? || move.EntryServesBoth? || move.EntryJoins? || move.ExitCallsAnswer?
    || move.ExitPicksRelay? || move.RelayExpends?
  }

  lemma ExchangeStepKeeps(plan: Plan, g: State, move: Move, g': State)
    requires Inv(plan, g) && Step(plan, g, move, g') && IsExchange(move)
    ensures Inv(plan, g')
  {
    hide Inv, Opens, CallsAnswer, Joins, PicksRelay, Expends, Relays;
    match move
    case CallerOpens(id) => OpenKeeps(plan, g, id, g');
    case EntryServesBoth(id) => CallKeeps(plan, g, id, g');
    case EntryJoins(joint, id) => JoinKeeps(plan, g, joint, id, g');
    case ExitCallsAnswer(id) => CallKeeps(plan, g, id, g');
    case ExitPicksRelay(relay, id, bad) => PickKeeps(plan, g, relay, id, bad, g');
    case RelayExpends(id) => ExpendKeeps(plan, g, id, g');
  }

  /** Every step of every peer keeps the invariant. */
  lemma StepKeeps(plan: Plan, g: State, move: Move, g': State)
    requires Inv(plan, g) && Step(plan, g, move, g')
    ensures Inv(plan, g')
  {
    hide PairsOk, RolesOk, EntryOk, LostOk, AllWiresTravel, Opens, Requests, CallsAnswer, Joins, PicksRelay, Expends,
        Relays, DeliversFrom, Act;
    if IsExchange(move) {
      ExchangeStepKeeps(plan, g, move, g');
    } else {
      match move
      case CallerRequests => RequestKeeps(plan, g, g');
      case EntryAnnounces(bad) => RelaysKeeps(plan, g, plan.entry, Success(plan.sid), bad, g');
      case EntryGossips => FlagKeeps(plan, g, g');
      case EntryProbes(bad, rand) =>
        FlagAndRelayKeeps(plan, g, g.(entryProbed := true), plan.entry, Probe(plan.sid, rand), bad, g');
      case ExitAnnounces(bad) => RelaysKeeps(plan, g, plan.exit, Success(plan.sid), bad, g');
      case RelayAnnounces(bad) =>
        ReadyRelaySwapped(plan, g);
        FlagAndRelayKeeps(plan, g, g.(expended := true), g.links.xr.b, Success(plan.sid), bad, g');
      case ExitProbes(bad, rand) =>
        FlagAndRelayKeeps(plan, g, g.(exitProbed := true), plan.exit, Probe(plan.sid, rand), bad, g');
      case Delivers(w, bad) => DeliverKeeps(plan, g, w, bad, g');
      case Closes(p, bad) => ClosesKeeps(plan, g, p, bad);
      case StreamCloses(p, id, bad) => StreamClosesKeeps(plan, g, p, id, bad);
      case Writes(p, payload, bad) => RelaysKeeps(plan, g, p, Data(plan.sid, payload), bad, g');
      case Elsewhere(p, op) =>
        ElsewhereSame(plan, g.nodes[p], op);
        hide NodeRuns.Apply;
        SameKeeps(plan, g, p, NodeRuns.Apply(g.nodes[p], op).node);
      case _ =>
    }
  }
}
