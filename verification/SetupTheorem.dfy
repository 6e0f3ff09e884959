/**
  The main results about circuit set-up, over every run of CircuitSetup: when Success is
  originated the sessions form one simple line exactly if caller and destination differ and no
  peer of the route has dropped its session.
*/
module SetupTheorem {
  import opened Basics
  import opened Relay
  import opened NodeFacts
  import opened CircuitSetup
  import opened SetupInvariant
  import opened SetupProbes

  /** Neither end of an exchange has dropped the stream since. */
  predicate Untouched(g: State, l: Link) {
    l.Link? ==> (l.a, l.id) !in g.lost && (l.b, l.id) !in g.lost
  }

  /** How the circuit runs: one proxy for both, joint at the exit, entry as relay, or all six peers. */
  datatype Shape = OneProxy | JointAtExit | EntryAsRelay | SixPeers

  function ShapeOf(plan: Plan, g: State): Shape {
    if plan.entry == plan.exit then OneProxy
    else if g.links.ej.Link? && g.links.ej.b == plan.exit then JointAtExit
    else if g.swapped then EntryAsRelay
    else SixPeers
  }

  /** No peer of the route has dropped its session since its exchanges. */
  predicate RouteKept(plan: Plan, g: State) {
    var ls := g.links;
    && Untouched(g, ls.ce) && Untouched(g, ls.xa)
    && match ShapeOf(plan, g)
       case OneProxy => true
       case JointAtExit => Untouched(g, ls.ej)
       case EntryAsRelay => Untouched(g, ls.xr)
       case SixPeers => Untouched(g, ls.ej) && Untouched(g, ls.rj) && Untouched(g, ls.xr)
  }

  /** Every exchange of the route has happened. */
  predicate RouteMade(plan: Plan, g: State) {
    var ls := g.links;
    ls.ce.Link? && ls.xa.Link? && (ShapeOf(plan, g).SixPeers? ==> ls.rj.Link? && ls.ej.Link? && ls.xr.Link?)
    && (ShapeOf(plan, g).EntryAsRelay? ==> ls.xr.Link?)
  }

  function RoutePeers(plan: Plan, g: State): seq<Peer>
    requires RouteMade(plan, g)
  {
    match ShapeOf(plan, g)
    case OneProxy => [plan.caller, plan.entry, plan.answer]
    case JointAtExit => [plan.caller, plan.entry, plan.exit, plan.answer]
    case EntryAsRelay => [plan.caller, plan.entry, plan.exit, plan.answer]
    case SixPeers => [plan.caller, plan.entry, g.links.ej.b, g.links.xr.b, plan.exit, plan.answer]
  }

  function RouteIds(plan: Plan, g: State): seq<StreamId>
    requires RouteMade(plan, g)
  {
    var ls := g.links;
    match ShapeOf(plan, g)
    case OneProxy => [ls.ce.id, ls.xa.id]
    case JointAtExit => [ls.ce.id, ls.ej.id, ls.xa.id]
    case EntryAsRelay => [ls.ce.id, ls.xr.id, ls.xa.id]
    case SixPeers => [ls.ce.id, ls.ej.id, ls.rj.id, ls.xr.id, ls.xa.id]
  }

  // ----- a kept and complete route is a line -----

  lemma SessionIs(plan: Plan, g: State, p: Peer)
    requires PairsOk(plan, g) && RolesOk(plan, g) && p in g.nodes && Held(g.links, g.lost, p) != []
    ensures plan.sid in g.nodes[p].sessions && g.nodes[p].sessions[plan.sid].pair == Held(g.links, g.lost, p)
    ensures RoleOk(plan, g, p, g.nodes[p].sessions[plan.sid].role)
  {
    assert Agrees(plan, g, p);
  }

  /** Peer `p` is an intermediate node whose session holds exactly streams `a` and `b`. */
  predicate Sits(plan: Plan, g: State, p: Peer, a: Stream, b: Stream) {
    && p in g.nodes && plan.sid in g.nodes[p].sessions
    && !IsEnd(g.nodes[p].sessions[plan.sid].role) && g.nodes[p].sessions[plan.sid].pair == [a, b]
  }

  predicate EndsSit(plan: Plan, g: State) {
    && plan.caller in g.nodes && plan.sid in g.nodes[plan.caller].sessions
    && plan.answer in g.nodes && plan.sid in g.nodes[plan.answer].sessions
    && g.links.ce.Link? && g.links.xa.Link?
    && g.nodes[plan.caller].sessions[plan.sid] == Session(Caller, [Stream(g.links.ce.id, plan.entry)])
    && g.nodes[plan.answer].sessions[plan.sid] == Session(Answer, [Stream(g.links.xa.id, plan.exit)])
  }

  lemma PlaceEnds(plan: Plan, g: State)
    requires Inv(plan, g) && plan.caller != plan.answer && g.links.ce.Link? && g.links.xa.Link?
    requires Untouched(g, g.links.ce) && Untouched(g, g.links.xa)
    ensures EndsSit(plan, g)
  {
    hide PairsOk, RolesOk, EntryOk, LostOk, AllWiresTravel;
    SessionIs(plan, g, plan.caller);
    SessionIs(plan, g, plan.answer);
  }

  lemma PlaceEntry(plan: Plan, g: State)
    requires Inv(plan, g) && g.links.ce.Link? && Untouched(g, g.links.ce)
    ensures plan.entry == plan.exit && g.links.xa.Link? && Untouched(g, g.links.xa) ==>
              Sits(plan, g, plan.entry, Stream(g.links.ce.id, plan.caller), Stream(g.links.xa.id, plan.answer))
    ensures g.swapped ==>
              Sits(plan, g, plan.entry, Stream(g.links.ce.id, plan.caller), Stream(g.links.xr.id, plan.exit))
    ensures g.links.ej.Link? && !g.swapped ==>
              Sits(plan, g, plan.entry, Stream(g.links.ce.id, plan.caller), Stream(g.links.ej.id, g.links.ej.b))
  {
    hide PairsOk, RolesOk, LostOk, AllWiresTravel;
    SessionIs(plan, g, plan.entry);
  }

  lemma PlaceJoint(plan: Plan, g: State)
    requires Inv(plan, g) && g.links.ej.Link? && Untouched(g, g.links.ej)
    ensures g.links.ej.b == plan.exit && g.links.xa.Link? && Untouched(g, g.links.xa) ==>
              Sits(plan, g, plan.exit, Stream(g.links.ej.id, plan.entry), Stream(g.links.xa.id, plan.answer))
    ensures g.links.ej.b != plan.exit && g.links.rj.Link? && Untouched(g, g.links.rj) ==>
              Sits(plan, g, g.links.ej.b, Stream(g.links.ej.id, plan.entry), Stream(g.links.rj.id, g.links.xr.b))
  {
    hide PairsOk, RolesOk, EntryOk, LostOk, AllWiresTravel;
    SessionIs(plan, g, g.links.ej.b);
  }

  lemma PlaceExit(plan: Plan, g: State)
    requires Inv(plan, g) && g.links.xr.Link? && Untouched(g, g.links.xr) && Untouched(g, g.links.xa)
    ensures Sits(plan, g, plan.exit, Stream(g.links.xa.id, plan.answer), Stream(g.links.xr.id, g.links.xr.b))
  {
    hide PairsOk, RolesOk, EntryOk, LostOk, AllWiresTravel;
    SessionIs(plan, g, plan.exit);
  }

  lemma PlaceRelay(plan: Plan, g: State)
    requires Inv(plan, g) && g.links.rj.Link? && Untouched(g, g.links.xr) && Untouched(g, g.links.rj)
        && g.links.xr.b != plan.entry
    ensures Sits(plan, g, g.links.xr.b, Stream(g.links.xr.id, plan.exit), Stream(g.links.rj.id, g.links.ej.b))
  {
    hide PairsOk, RolesOk, EntryOk, LostOk, AllWiresTravel;
    SessionIs(plan, g, g.links.xr.b);
  }

  /** A relay other than the entry, as long as the entry keeps its caller. */
  lemma RelayNotEntry(plan: Plan, g: State)
    requires Inv(plan, g) && g.links.ce.Link? && Untouched(g, g.links.ce) && g.links.xr.Link? && !g.swapped
    ensures g.links.xr.b != plan.entry
  {
  }

  /** Who is who: the peers and the streams of the route are pairwise different. */
  lemma RouteDistinct(plan: Plan, g: State)
    requires CastOk(plan, g.nodes) && LinksOk(plan, g) && RouteMade(plan, g) && plan.caller != plan.answer
    requires g.links.xr.Link? && !g.swapped ==> g.links.xr.b != plan.entry
    ensures Distinct(RoutePeers(plan, g)) && Distinct(RouteIds(plan, g))
  {
  }

  lemma ShortLine(plan: Plan, g: State, b: Peer, i: StreamId, j: StreamId)
    requires EndsSit(plan, g) && b == plan.entry == plan.exit && i == g.links.ce.id && j == g.links.xa.id
    requires Distinct([plan.caller, b, plan.answer]) && Distinct([i, j])
    requires Sits(plan, g, b, Stream(i, plan.caller), Stream(j, plan.answer))
    ensures IsLine(plan, g, [plan.caller, b, plan.answer], [i, j])
  {
  }

  lemma MiddleLine(plan: Plan, g: State, i: StreamId, j: StreamId, k: StreamId)
    requires EndsSit(plan, g) && i == g.links.ce.id && k == g.links.xa.id
    requires Distinct([plan.caller, plan.entry, plan.exit, plan.answer]) && Distinct([i, j, k])
    requires Sits(plan, g, plan.entry, Stream(i, plan.caller), Stream(j, plan.exit))
    requires Sits(plan, g, plan.exit, Stream(j, plan.entry), Stream(k, plan.answer))
          || Sits(plan, g, plan.exit, Stream(k, plan.answer), Stream(j, plan.entry))
    ensures IsLine(plan, g, [plan.caller, plan.entry, plan.exit, plan.answer], [i, j, k])
  {
  }

  lemma LongLine(plan: Plan, g: State, path: seq<Peer>, ids: seq<StreamId>)
    requires EndsSit(plan, g) && |path| == 6 && |ids| == 5 && Distinct(path) && Distinct(ids)
    requires ids[0] == g.links.ce.id && ids[4] == g.links.xa.id
    requires path[0] == plan.caller && path[1] == plan.entry && path[4] == plan.exit && path[5] == plan.answer
    requires Sits(plan, g, path[1], Stream(ids[0], path[0]), Stream(ids[1], path[2]))
    requires Sits(plan, g, path[2], Stream(ids[1], path[1]), Stream(ids[2], path[3]))
    requires Sits(plan, g, path[3], Stream(ids[3], path[4]), Stream(ids[2], path[2]))
    requires Sits(plan, g, path[4], Stream(ids[4], path[5]), Stream(ids[3], path[3]))
    ensures IsLine(plan, g, path, ids)
  {
  }

  lemma KeptRouteIsLine(plan: Plan, g: State)
    requires Inv(plan, g) && RouteKept(plan, g) && RouteMade(plan, g) && plan.caller != plan.answer
    ensures IsLine(plan, g, RoutePeers(plan, g), RouteIds(plan, g))
  {
    hide PairsOk, RolesOk, EntryOk, LostOk, AllWiresTravel, EndsSit, Sits, Distinct, IsLine;
    var ls := g.links;
    if ls.xr.Link? && !g.swapped { RelayNotEntry(plan, g); }
    RouteDistinct(plan, g);
    PlaceEnds(plan, g);
    PlaceEntry(plan, g);
    LinkFacts(plan, g);
    match ShapeOf(plan, g)
    case OneProxy =>
      ShortLine(plan, g, plan.entry, ls.ce.id, ls.xa.id);
    case JointAtExit =>
      PlaceJoint(plan, g);
      NoSwapAtExit(plan, g);
      MiddleLine(plan, g, ls.ce.id, ls.ej.id, ls.xa.id);
    case EntryAsRelay =>
      PlaceExit(plan, g);
      NoSwapAtExit(plan, g);
      MiddleLine(plan, g, ls.ce.id, ls.xr.id, ls.xa.id);
    case SixPeers =>
      PlaceJoint(plan, g);
      PlaceRelay(plan, g);
      PlaceExit(plan, g);
      LongLine(plan, g, RoutePeers(plan, g), RouteIds(plan, g));
  }

  lemma NoSwapAtExit(plan: Plan, g: State)
    requires Inv(plan, g)
    ensures g.links.ej.Link? && g.links.ej.b == plan.exit ==> !g.swapped
    ensures g.swapped ==> g.links.xr.Link? && g.links.xr.b == plan.entry
  {
  }

  // ----- and a line is a kept and complete route -----

  lemma HeldKept(ls: Links, lost: set<(Peer, StreamId)>, p: Peer, l: Link, s: Stream)
    requires DistinctIds(ls) && s in Held(ls, lost, p) && l.Link? && s.id == l.id
    requires l == ls.ce || l == ls.ej || l == ls.xa || l == ls.xr || l == ls.rj
    ensures (p, l.id) !in lost
  {
  }

  /** What a place on the line says about a peer's session. */
  lemma PlaceHeld(plan: Plan, g: State, path: seq<Peer>, ids: seq<StreamId>, i: nat)
    requires PairsOk(plan, g) && RolesOk(plan, g) && IsLine(plan, g, path, ids) && i < |path|
    ensures path[i] in g.nodes && plan.sid in g.nodes[path[i]].sessions
    ensures RoleOk(plan, g, path[i], g.nodes[path[i]].sessions[plan.sid].role)
    ensures Placed(g.nodes[path[i]], plan.sid, path, ids, i)
    ensures g.nodes[path[i]].sessions[plan.sid].pair == Held(g.links, g.lost, path[i])
  {
    assert Agrees(plan, g, path[i]);
  }

  lemma LineRoles(plan: Plan, g: State, path: seq<Peer>, ids: seq<StreamId>)
    requires PairsOk(plan, g) && RolesOk(plan, g) && IsLine(plan, g, path, ids)
    ensures path[0] == plan.caller && path[|path| - 1] == plan.answer && plan.caller != plan.answer
  {
    PlaceHeld(plan, g, path, ids, 0);
    PlaceHeld(plan, g, path, ids, |path| - 1);
    DifferentEnds(path);
  }

  /** The end that holds a single stream determines the first link and its neighbour. */
  lemma LineFirst(plan: Plan, g: State, path: seq<Peer>, ids: seq<StreamId>)
    requires Inv(plan, g) && IsLine(plan, g, path, ids) && plan.caller != plan.answer && path[0] == plan.caller
    ensures g.links.ce.Link? && Stream(ids[0], path[1]) == Stream(g.links.ce.id, plan.entry)
    ensures (plan.caller, g.links.ce.id) !in g.lost
  {
    hide PairsOk, RolesOk, EntryOk, LostOk, AllWiresTravel, Distinct;
    PlaceHeld(plan, g, path, ids, 0);
    hide IsLine;
    var (ls, c, r) := (g.links, plan.caller, Stream(ids[0], path[1]));
    assert r in Held(ls, g.lost, c);
    assert Piece(g.lost, c, ls.ej) == [] && Piece(g.lost, c, ls.xa) == [] && Piece(g.lost, c, ls.xr) == []
        && Piece(g.lost, c, ls.rj) == [];
    assert r in Piece(g.lost, c, ls.ce);
  }

  lemma LineLast(plan: Plan, g: State, path: seq<Peer>, ids: seq<StreamId>)
    requires Inv(plan, g) && IsLine(plan, g, path, ids) && plan.caller != plan.answer && path[|path| - 1] == plan.answer
    ensures g.links.xa.Link? && Stream(ids[|ids| - 1], path[|path| - 2]) == Stream(g.links.xa.id, plan.exit)
    ensures (plan.answer, g.links.xa.id) !in g.lost
  {
    hide PairsOk, RolesOk, EntryOk, LostOk, AllWiresTravel, Distinct;
    PlaceHeld(plan, g, path, ids, |path| - 1);
    hide IsLine;
    var (ls, a, r) := (g.links, plan.answer, Stream(ids[|ids| - 1], path[|path| - 2]));
    assert r in Held(ls, g.lost, a);
    assert Piece(g.lost, a, ls.ce) == [] && Piece(g.lost, a, ls.ej) == [] && Piece(g.lost, a, ls.xr) == []
        && Piece(g.lost, a, ls.rj) == [];
    assert r in Piece(g.lost, a, ls.xa);
  }

  /** A peer on the line holds the streams to both of its neighbours, and nothing else. */
  predicate Between(plan: Plan, g: State, path: seq<Peer>, ids: seq<StreamId>, i: nat)
    requires |path| == |ids| + 1 && 0 < i < |ids|
  {
    var (l, r) := (Stream(ids[i - 1], path[i - 1]), Stream(ids[i], path[i + 1]));
    Held(g.links, g.lost, path[i]) == [l, r] || Held(g.links, g.lost, path[i]) == [r, l]
  }

  lemma LineBetween(plan: Plan, g: State, path: seq<Peer>, ids: seq<StreamId>, i: nat)
    requires PairsOk(plan, g) && RolesOk(plan, g) && IsLine(plan, g, path, ids) && 0 < i < |ids|
    ensures Between(plan, g, path, ids, i)
  {
    PlaceHeld(plan, g, path, ids, i);
  }

  lemma BetweenKept(plan: Plan, g: State, path: seq<Peer>, ids: seq<StreamId>, i: nat, l: Link)
    requires |path| == |ids| + 1 && 0 < i < |ids| && Between(plan, g, path, ids, i) && DistinctIds(g.links)
    requires l == g.links.ce || l == g.links.ej || l == g.links.xa || l == g.links.xr || l == g.links.rj
    requires l.Link? && (l.id == ids[i - 1] || l.id == ids[i])
    ensures (path[i], l.id) !in g.lost
  {
    var s := if l.id == ids[i - 1] then Stream(ids[i - 1], path[i - 1]) else Stream(ids[i], path[i + 1]);
    HeldKept(g.links, g.lost, path[i], l, s);
  }

  /** The corners of the line, seen from the plan. */
  lemma LineCorners(plan: Plan, g: State, path: seq<Peer>, ids: seq<StreamId>)
    requires Inv(plan, g) && IsLine(plan, g, path, ids)
    ensures plan.caller != plan.answer && g.links.ce.Link? && g.links.xa.Link?
    ensures |path| == |ids| + 1 >= 3 && path[0] == plan.caller && path[1] == plan.entry && ids[0] == g.links.ce.id
    ensures path[|path| - 1] == plan.answer && path[|path| - 2] == plan.exit && ids[|ids| - 1] == g.links.xa.id
    ensures (plan.caller, g.links.ce.id) !in g.lost && (plan.answer, g.links.xa.id) !in g.lost
  {
    LineSized(plan, g, path, ids);
    InvParts(plan, g);
    hide Inv, IsLine, PairsOk, RolesOk;
    LineRoles(plan, g, path, ids);
    LineFirst(plan, g, path, ids);
    LineLast(plan, g, path, ids);
    ClientsAndServers(plan, g);
  }

  lemma LineSized(plan: Plan, g: State, path: seq<Peer>, ids: seq<StreamId>)
    requires IsLine(plan, g, path, ids)
    ensures |path| == |ids| + 1 >= 2
  {
  }

  lemma InvParts(plan: Plan, g: State)
    requires Inv(plan, g)
    ensures PairsOk(plan, g) && RolesOk(plan, g) && DistinctIds(g.links)
    ensures g.links.ce.Link? ==> g.links.ce.a == plan.caller && g.links.ce.b == plan.entry
    ensures g.links.xa.Link? ==> g.links.xa.a == plan.exit && g.links.xa.b == plan.answer
  {
  }

  lemma ClientsAndServers(plan: Plan, g: State)
    requires Inv(plan, g)
    ensures plan.entry != plan.answer && plan.exit != plan.caller && plan.entry != plan.caller
        && plan.exit != plan.answer
  {
  }

  /** Both ends of the line, and that nobody dropped the streams there. */
  lemma LineEnds(plan: Plan, g: State, path: seq<Peer>, ids: seq<StreamId>)
    requires Inv(plan, g) && IsLine(plan, g, path, ids)
    ensures plan.caller != plan.answer && g.links.ce.Link? && g.links.xa.Link?
    ensures |path| == |ids| + 1 >= 3 && path[0] == plan.caller && path[1] == plan.entry && ids[0] == g.links.ce.id
    ensures path[|path| - 1] == plan.answer && path[|path| - 2] == plan.exit && ids[|ids| - 1] == g.links.xa.id
    ensures Untouched(g, g.links.ce) && Untouched(g, g.links.xa)
  {
    LineCorners(plan, g, path, ids);
    InvParts(plan, g);
    hide Inv, IsLine, PairsOk, RolesOk, Between, DistinctIds;
    LineBetween(plan, g, path, ids, 1);
    LineBetween(plan, g, path, ids, |ids| - 1);
    BetweenKept(plan, g, path, ids, 1, g.links.ce);
    BetweenKept(plan, g, path, ids, |ids| - 1, g.links.xa);
  }

  lemma DifferentEnds(path: seq<Peer>)
    requires |path| >= 2 && Distinct(path)
    ensures path[0] != path[|path| - 1]
  {
  }

  /** The entry's second stream leads to the next peer of the route. */
  lemma LineSecond(plan: Plan, g: State, path: seq<Peer>, ids: seq<StreamId>)
    requires CastOk(plan, g.nodes) && LinksOk(plan, g) && EntryOk(plan, g)
    requires |path| == |ids| + 1 >= 4 && path[0] == plan.caller && path[1] == plan.entry && plan.entry != plan.exit
    requires g.links.ce.Link? && ids[0] == g.links.ce.id && Untouched(g, g.links.ce) && ids[0] != ids[1]
    requires Between(plan, g, path, ids, 1)
    ensures if g.swapped then g.links.xr.Link? && Stream(ids[1], path[2]) == Stream(g.links.xr.id, plan.exit)
            else g.links.ej.Link? && Stream(ids[1], path[2]) == Stream(g.links.ej.id, g.links.ej.b)
  {
    var (ls, e) := (g.links, plan.entry);
    var r := Stream(ids[1], path[2]);
    assert r in Held(ls, g.lost, e);
    assert Piece(g.lost, e, ls.xa) == [] && Piece(g.lost, e, ls.rj) == [];
    assert Piece(g.lost, e, ls.ce) == [Stream(ls.ce.id, plan.caller)];
    if g.swapped {
      assert Piece(g.lost, e, ls.ej) == [];
      assert r in Piece(g.lost, e, ls.xr);
    } else {
      assert Piece(g.lost, e, ls.xr) == [];
      assert r in Piece(g.lost, e, ls.ej);
    }
  }

  /** From the joint to the relay. */
  lemma LineThird(plan: Plan, g: State, path: seq<Peer>, ids: seq<StreamId>)
    requires CastOk(plan, g.nodes) && LinksOk(plan, g) && |path| == |ids| + 1 >= 5
    requires g.links.ej.Link? && path[2] == g.links.ej.b && g.links.ej.b != plan.exit && ids[1] == g.links.ej.id
        && ids[1] != ids[2]
    requires Between(plan, g, path, ids, 2)
    ensures g.links.rj.Link? && Stream(ids[2], path[3]) == Stream(g.links.rj.id, g.links.xr.b)
  {
    var (ls, p, r) := (g.links, path[2], Stream(ids[2], path[3]));
    assert r in Held(ls, g.lost, p);
    assert Piece(g.lost, p, ls.ce) == [] && Piece(g.lost, p, ls.xa) == [] && Piece(g.lost, p, ls.xr) == [];
    assert r in Piece(g.lost, p, ls.ej) || r in Piece(g.lost, p, ls.rj);
  }

  /** From the relay to the exit. */
  lemma LineFourth(plan: Plan, g: State, path: seq<Peer>, ids: seq<StreamId>)
    requires CastOk(plan, g.nodes) && LinksOk(plan, g) && |path| == |ids| + 1 >= 6
    requires g.links.rj.Link? && path[3] == g.links.xr.b && g.links.xr.b != plan.entry && ids[2] == g.links.rj.id
        && ids[2] != ids[3]
    requires Between(plan, g, path, ids, 3)
    ensures Stream(ids[3], path[4]) == Stream(g.links.xr.id, plan.exit)
  {
    var (ls, p, r) := (g.links, path[3], Stream(ids[3], path[4]));
    assert r in Held(ls, g.lost, p);
    assert Piece(g.lost, p, ls.ce) == [] && Piece(g.lost, p, ls.xa) == [] && Piece(g.lost, p, ls.ej) == [];
    assert r in Piece(g.lost, p, ls.xr) || r in Piece(g.lost, p, ls.rj);
  }

  lemma Neighbours(ids: seq<StreamId>)
    requires Distinct(ids)
    ensures forall i :: 0 <= i < |ids| - 1 ==> ids[i] != ids[i + 1]
  {
  }

  /** Whatever line there is, it is the planned route, complete and kept at every peer. */
  lemma LineIsKeptRoute(plan: Plan, g: State, path: seq<Peer>, ids: seq<StreamId>)
    requires Inv(plan, g) && IsLine(plan, g, path, ids)
    ensures plan.caller != plan.answer && RouteKept(plan, g) && RouteMade(plan, g)
  {
    var (ls, n) := (g.links, |path|);
    LineEnds(plan, g, path, ids);
    Neighbours(ids);
    hide PairsOk, RolesOk, LostOk, AllWiresTravel, Distinct, Untouched, IsLine;
    if plan.entry != plan.exit {
      assert path[1] != path[n - 2];
      LineBetween(plan, g, path, ids, 1);
      LineBetween(plan, g, path, ids, 2);
      LineSecond(plan, g, path, ids);
      hide Between;
      if g.swapped {
        TwoKept(plan, g, path, ids, 1, ls.xr);
      } else {
        TwoKept(plan, g, path, ids, 1, ls.ej);
        if ls.ej.b != plan.exit {
          LineInner(plan, g, path, ids);
        }
      }
    }
  }

  lemma TwoKept(plan: Plan, g: State, path: seq<Peer>, ids: seq<StreamId>, i: nat, l: Link)
    requires |path| == |ids| + 1 && 0 < i < |ids| - 1 && DistinctIds(g.links)
    requires Between(plan, g, path, ids, i) && Between(plan, g, path, ids, i + 1)
    requires l == g.links.ce || l == g.links.ej || l == g.links.xa || l == g.links.xr || l == g.links.rj
    requires l.Link? && l.id == ids[i]
        && ((path[i] == l.a && path[i + 1] == l.b) || (path[i] == l.b && path[i + 1] == l.a))
    ensures Untouched(g, l)
  {
    BetweenKept(plan, g, path, ids, i, l);
    BetweenKept(plan, g, path, ids, i + 1, l);
  }

  /** The part of the line between joint and exit. */
  lemma LineInner(plan: Plan, g: State, path: seq<Peer>, ids: seq<StreamId>)
    requires Inv(plan, g) && IsLine(plan, g, path, ids) && |path| == |ids| + 1 >= 4 && g.links.ce.Link?
        && Untouched(g, g.links.ce)
    requires !g.swapped && g.links.ej.Link? && g.links.ej.b != plan.exit && plan.entry != plan.exit
    requires Stream(ids[1], path[2]) == Stream(g.links.ej.id, g.links.ej.b) && path[|path| - 2] == plan.exit
    requires forall i :: 0 <= i < |ids| - 1 ==> ids[i] != ids[i + 1]
    ensures g.links.rj.Link? && Untouched(g, g.links.rj) && Untouched(g, g.links.xr)
  {
    hide PairsOk, RolesOk, LostOk, AllWiresTravel, Distinct, Untouched, IsLine;
    var (ls, n) := (g.links, |path|);
    assert path[2] != path[n - 2];
    LineBetween(plan, g, path, ids, 2);
    LineBetween(plan, g, path, ids, 3);
    LineThird(plan, g, path, ids);
    RelayNotEntry(plan, g);
    hide Between;
    TwoKept(plan, g, path, ids, 2, ls.rj);
    assert path[3] != path[n - 2];
    LineBetween(plan, g, path, ids, 4);
    LineFourth(plan, g, path, ids);
    TwoKept(plan, g, path, ids, 3, ls.xr);
  }

  /** In every reachable state: there is a line exactly when the route is complete and kept by everyone on it. */
  lemma LineIffRoute(plan: Plan, g: State)
    requires Inv(plan, g)
    ensures Line(plan, g) <==> plan.caller != plan.answer && RouteMade(plan, g) && RouteKept(plan, g)
  {
    hide Inv, IsLine, RouteMade, RouteKept;
    if Line(plan, g) {
      var path, ids :| IsLine(plan, g, path, ids);
      LineIsKeptRoute(plan, g, path, ids);
    }
    if plan.caller != plan.answer && RouteMade(plan, g) && RouteKept(plan, g) {
      KeptRouteIsLine(plan, g);
    }
  }

  // ----- at the four sites that originate Success -----

  /** A matching second probe: without losses it is the exit's, which is sent only once the route is complete. */
  lemma MatchMakesRoute(plan: Plan, g: State, w: Wire)
    requires Inv(plan, g) && ProbeInv(plan, g) && plan.caller != plan.answer && RouteKept(plan, g)
    requires w in g.wires && g.wires[w] != [] && w.dst in g.nodes && g.wires[w][0].Probe?
    requires ProbeMatches(g.nodes[w.dst], plan.sid, g.wires[w][0].rand)
    ensures RouteMade(plan, g)
  {
    hide PairsOk, RolesOk, LostOk, AllWiresTravel, EntryOk, UnsentOk, LeftBehindOk;
    assert g.links.ej.Link? && w.dst == g.links.ej.b;
    assert Probes(On(g.wires, w)) > 0;
    assert w.dst != plan.caller && w.dst != plan.answer;
  }

  lemma OriginMakesRoute(plan: Plan, g: State, move: Move, g': State)
    requires Inv(plan, g) && ProbeInv(plan, g) && Step(plan, g, move, g') && Originates(plan, g, move)
    requires plan.caller != plan.answer && RouteKept(plan, g)
    ensures RouteMade(plan, g)
  {
    hide PairsOk, RolesOk, LostOk, AllWiresTravel, EntryOk, ProbeInv, Relays, DeliversFrom;
    match move
    case EntryAnnounces(_) =>
    case ExitAnnounces(_) =>
    case RelayAnnounces(_) => ReadyRelaySwapped(plan, g);
    case Delivers(w, _) => MatchMakesRoute(plan, g, w);
  }

  /** Every state of every run satisfies the invariant. */
  lemma {:induction false} RunKeeps(plan: Plan, states: seq<State>, moves: seq<Move>, i: nat)
    requires IsRun(plan, states, moves) && i < |states|
    ensures Inv(plan, states[i]) && ProbeInv(plan, states[i])
  {
    hide Inv, ProbeInv, Step;
    if i == 0 {
      InitialInv(plan, states[0]);
      InitialProbeInv(plan, states[0]);
    } else {
      RunKeeps(plan, states, moves, i - 1);
      assert Step(plan, states[i - 1], moves[i - 1], states[i - 1 + 1]);
      StepKeepsAll(plan, states[i - 1], moves[i - 1], states[i]);
    }
  }

  /**
    Main result. Whenever any of the four sites originates Success, in any run, the sessions
    form one simple line from a Caller session to an Answer session if and only if the caller
    did not dial itself and no peer of the route has dropped its session.
  */
  lemma SuccessMeansLine(plan: Plan, states: seq<State>, moves: seq<Move>, i: nat)
    requires IsRun(plan, states, moves) && i < |moves| && Originates(plan, states[i], moves[i])
    ensures Line(plan, states[i]) <==> plan.caller != plan.answer && RouteKept(plan, states[i])
  {
    RunKeeps(plan, states, moves, i);
    assert Step(plan, states[i], moves[i], states[i + 1]);
    hide Inv, ProbeInv, Step, Originates, Line, RouteKept, RouteMade;
    LineIffRoute(plan, states[i]);
    if plan.caller != plan.answer && RouteKept(plan, states[i]) {
      OriginMakesRoute(plan, states[i], moves[i], states[i + 1]);
    }
  }

  /**
    Nothing else holds the session id: a peer off the route has a session only if the entry
    became the relay, the peer is the joint it gave up, it holds just that one stream, and the
    Disconnect is still on its way (unless writing it failed).
  */
  lemma OnlyTheLine(plan: Plan, states: seq<State>, moves: seq<Move>, i: nat, p: Peer)
    requires IsRun(plan, states, moves) && i < |states| && RouteMade(plan, states[i]) && p in states[i].nodes
    requires plan.sid in states[i].nodes[p].sessions && p !in RoutePeers(plan, states[i])
    ensures var g := states[i];
            && g.swapped && g.links.ej.Link? && p == g.links.ej.b
            && g.nodes[p].sessions[plan.sid] == Session(Joint, [Stream(g.links.ej.id, plan.entry)])
            && (g.swapTold ==> Disconnect(plan.sid) in On(g.wires, Wire(g.links.ej.id, plan.entry, p)))
  {
    var g := states[i];
    RunKeeps(plan, states, moves, i);
    hide IsRun, AllWiresTravel, EntryOk, LostOk, UnsentOk, CalmOk;
    assert Agrees(plan, g, p);
    assert Held(g.links, g.lost, p) != [];
    RouteCovers(plan, g, p);
  }

  predicate Stray(plan: Plan, g: State, p: Peer)
    requires RouteMade(plan, g)
  {
    p in g.nodes && plan.sid in g.nodes[p].sessions && p !in RoutePeers(plan, g)
  }

  /** The entry gave up its joint, and the joint still holds its stream. */
  predicate LeftBehind(g: State) {
    g.swapped && g.links.ej.Link? && Holds(g, g.links.ej.b, g.links.ej)
  }

  lemma StrayIsLeftBehind(plan: Plan, g: State, p: Peer)
    requires Inv(plan, g) && RouteMade(plan, g) && Stray(plan, g, p)
    ensures LeftBehind(g)
  {
    hide RolesOk, AllWiresTravel, EntryOk, LostOk;
    assert Agrees(plan, g, p);
    assert Held(g.links, g.lost, p) != [];
    hide Held;
    RouteCovers(plan, g, p);
  }

  lemma LeftBehindIsStray(plan: Plan, g: State)
    requires Inv(plan, g) && RouteMade(plan, g) && LeftBehind(g)
    ensures Stray(plan, g, g.links.ej.b)
  {
    hide RolesOk, AllWiresTravel, EntryOk, LostOk;
    assert Agrees(plan, g, g.links.ej.b);
  }

  /** The exact condition: someone off the route holds the session iff a joint was left behind. */
  lemma StrayIffLeftBehind(plan: Plan, states: seq<State>, moves: seq<Move>, i: nat)
    requires IsRun(plan, states, moves) && i < |states| && RouteMade(plan, states[i])
    ensures (exists p :: Stray(plan, states[i], p)) <==> LeftBehind(states[i])
  {
    hide IsRun, Inv, ProbeInv, RouteMade, RoutePeers;
    var g := states[i];
    RunKeeps(plan, states, moves, i);
    if p :| Stray(plan, g, p) {
      StrayIsLeftBehind(plan, g, p);
    }
    if LeftBehind(g) {
      LeftBehindIsStray(plan, g);
    }
  }

  lemma RouteCovers(plan: Plan, g: State, p: Peer)
    requires CastOk(plan, g.nodes) && LinksOk(plan, g) && RouteMade(plan, g)
    requires Held(g.links, g.lost, p) != [] && p !in RoutePeers(plan, g)
    ensures g.swapped && g.links.ej.Link? && p == g.links.ej.b
    ensures Held(g.links, g.lost, p) == [Stream(g.links.ej.id, plan.entry)] && Holds(g, p, g.links.ej)
  {
  }
}
