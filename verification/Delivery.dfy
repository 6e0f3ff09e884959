/**
  Data messages one by one on an open line (protocol/relay/relay.go handleRelayMsg, connection.go):
  amid any other traffic each crosses every link exactly once, unchanged and in order; and a line
  that carries only Data and Success is always able to deliver all of it.
*/
module Delivery {
  import opened Basics
  import opened Relay
  import opened NodeFacts
  import opened LineModel
  import opened Conservation

  // ----- messages and the links in front of them -----

  /** Each payload of one hop with the number of links it still has to cross. */
  function Marked(payloads: seq<bytes>, distance: nat): (hop: seq<(bytes, nat)>)
    ensures |hop| == |payloads|
  {
    seq(|payloads|, j requires 0 <= j < |payloads| => (payloads[j], distance))
  }

  function MarkedHops(q: seq<seq<bytes>>): (hops: seq<seq<(bytes, nat)>>)
    ensures |hops| == |q|
  {
    seq(|q|, k requires 0 <= k < |q| => Marked(q[k], |q| - k))
  }

  /** The Data messages under way in direction d, the next to arrive first. */
  function Transit(c: Chain, d: Dir): seq<(bytes, nat)>
    requires c.Sized()
  {
    Ahead(MarkedHops(Queued(c, d)))
  }

  /** The head of one hop moves to the end of the next: its place in the order stays. */
  lemma {:induction false} AheadCrosses<T>(hops: seq<seq<T>>, k: nat, x: T, rest: seq<T>, y: T)
    requires k + 1 < |hops| && hops[k] == [x] + rest
    ensures var (pos, moved) := (|Ahead(hops[k + 1..])|, hops[k := rest][k + 1 := hops[k + 1] + [y]]);
            pos < |Ahead(hops)| && Ahead(hops)[pos] == x && Ahead(moved) == Ahead(hops)[pos := y]
  {
    var moved := hops[k := rest][k + 1 := hops[k + 1] + [y]];
    if k == 0 {
      assert moved[1..] == hops[1..][0 := hops[1..][0] + [y]];
      AheadPush(hops[1..], [y]);
    } else {
      assert moved[1..] == hops[1..][k - 1 := rest][k := hops[1..][k] + [y]];
      assert hops[1..][k..] == hops[k + 1..];
      AheadCrosses(hops[1..], k - 1, x, rest, y);
    }
  }

  /** One message crosses one link: it keeps its place, or it was the first and has arrived. */
  predicate Crosses(w: seq<(bytes, nat)>, w': seq<(bytes, nat)>, pos: nat, p: bytes, distance: nat) {
    && pos < |w| && w[pos] == (p, distance) && distance > 0
    && if distance == 1 then pos == 0 && w' == w[1..] else w' == w[pos := (p, distance - 1)]
  }

  lemma MarkedHead(p: bytes, rest: seq<bytes>, distance: nat)
    ensures Marked([p] + rest, distance) == [(p, distance)] + Marked(rest, distance)
    ensures Marked(rest + [p], distance) == Marked(rest, distance) + [(p, distance)]
  {
  }

  lemma PushMarked(q: seq<seq<bytes>>, p: bytes)
    requires q != []
    ensures Ahead(MarkedHops(q[0 := q[0] + [p]])) == Ahead(MarkedHops(q)) + [(p, |q|)]
  {
    MarkedHead(p, q[0], |q|);
    assert MarkedHops(q[0 := q[0] + [p]]) == MarkedHops(q)[0 := MarkedHops(q)[0] + [(p, |q|)]];
    AheadPush(MarkedHops(q), [(p, |q|)]);
  }

  lemma MoveMarked(q: seq<seq<bytes>>, k: nat, p: bytes, rest: seq<bytes>) returns (pos: nat)
    requires k + 1 < |q| && q[k] == [p] + rest
    ensures Crosses(Ahead(MarkedHops(q)), Ahead(MarkedHops(q[k := rest][k + 1 := q[k + 1] + [p]])), pos, p, |q| - k)
  {
    var (hops, left) := (MarkedHops(q), Marked(rest, |q| - k));
    var x: (bytes, nat) := (p, |q| - k);
    var y: (bytes, nat) := (p, |q| - k - 1);
    MarkedHead(p, rest, |q| - k);
    MarkedHead(p, q[k + 1], |q| - k - 1);
    MoveHops(q, k, p, rest);
    pos := |Ahead(hops[k + 1..])|;
    assert hops[k] == [x] + left;
    hide MarkedHops, Marked, Ahead;
    AheadCrosses(hops, k, x, left, y);
  }

  lemma MoveHops(q: seq<seq<bytes>>, k: nat, p: bytes, rest: seq<bytes>)
    requires k + 1 < |q|
    ensures MarkedHops(q[k := rest][k + 1 := q[k + 1] + [p]])
         == MarkedHops(q)[k := Marked(rest, |q| - k)][k + 1 := MarkedHops(q)[k + 1] + [(p, |q| - k - 1)]]
  {
    MarkedHead(p, q[k + 1], |q| - k - 1);
    hide Marked;
  }

  lemma PopMarked(q: seq<seq<bytes>>, p: bytes, rest: seq<bytes>)
    requires q != [] && q[|q| - 1] == [p] + rest
    ensures Crosses(Ahead(MarkedHops(q)), Ahead(MarkedHops(q[|q| - 1 := rest])), 0, p, 1)
  {
    var (hops, left) := (MarkedHops(q), Marked(rest, 1));
    MarkedHead(p, rest, 1);
    assert MarkedHops(q[|q| - 1 := rest]) == hops[|q| - 1 := left];
    AheadPop(hops, [(p, 1)], left);
  }

  // ----- what each step does to the queues -----

  lemma WriteQueues(c: Chain, d0: Dir, p: bytes, bad: set<StreamId>, d: Dir)
    requires c.Open() && WriteAt(c, d0, p, bad).Open()
    ensures var q := Queued(c, d); Queued(WriteAt(c, d0, p, bad), d) == if d == d0 then q[0 := q[0] + [p]] else q
  {
    WriteEnters(c, d0, p, bad);
    hide Chain.Open, WriteAt, Payloads;
    PayloadsAppend(c.Wire(d0, 0), Data(c.sid, p));
    WireQueued(c, d0, 0, c.Wire(d0, 0) + [Data(c.sid, p)], d);
  }

  lemma PayloadsHead(w: seq<Msg>)
    requires w != [] && w[0].Data?
    ensures Payloads(w) == [w[0].payload] + Payloads(w[1..])
  {
  }

  lemma MoveQueued(c: Chain, d0: Dir, k: nat, d: Dir)
    requires c.Sized() && k + 1 < |c.ids| && c.Wire(d0, k) != [] && c.Wire(d0, k)[0].Data?
    ensures var (w, q) := (c.Wire(d0, k), Queued(c, d));
            && (d == d0 ==> q[k] == [w[0].payload] + Payloads(w[1..]))
            && Queued(c.WithWire(d0, k, w[1..]).WithWire(d0, k + 1, c.Wire(d0, k + 1) + [w[0]]), d)
               == if d == d0 then q[k := Payloads(w[1..])][k + 1 := q[k + 1] + [w[0].payload]] else q
  {
    PayloadsHead(c.Wire(d0, k));
    hide Payloads, Queued, HopBytes, Chain.WithWire, Chain.Wire;
    var (w, next) := (c.Wire(d0, k), c.Wire(d0, k + 1));
    QueuedAt(c, d0, k);
    QueuedAt(c, d0, k + 1);
    WireQueued(c, d0, k, w[1..], d);
    WireQueued(c.WithWire(d0, k, w[1..]), d0, k + 1, next + [w[0]], d);
    PayloadsAppend(next, w[0]);
  }

  lemma MidQueues(c: Chain, d0: Dir, k: nat, bad: set<StreamId>, d: Dir)
    requires c.Open() && k + 1 < |c.ids| && c.Wire(d0, k) != [] && c.Wire(d0, k)[0].Data?
    requires Arrive(c, d0, k, bad).Open()
    ensures var (w, q) := (c.Wire(d0, k), Queued(c, d));
            && (d == d0 ==> q[k] == [w[0].payload] + Payloads(w[1..]))
            && Queued(Arrive(c, d0, k, bad), d)
               == if d == d0 then q[k := Payloads(w[1..])][k + 1 := q[k + 1] + [w[0].payload]] else q
  {
    OpenFacts(c, c.At(d0, k + 1));
    OpenFacts(Arrive(c, d0, k, bad), c.At(d0, k + 1));
    OpenHead(c, d0, k);
    hide Arrive, Chain.Open, Chain.Live, Chain.Simple, Payloads, Queued, Chain.Wire, Chain.WithWire;
    ArriveMoves(c, d0, k, bad);
    MoveQueued(c, d0, k, d);
  }

  lemma EndQueues(c: Chain, d0: Dir, bad: set<StreamId>, d: Dir)
    requires var k := |c.ids| - 1; c.Open() && c.Wire(d0, k) != [] && c.Wire(d0, k)[0].Data?
    ensures var (k, q) := (|c.ids| - 1, Queued(c, d));
            var w := c.Wire(d0, k);
            && (d == d0 ==> q[k] == [w[0].payload] + Payloads(w[1..]))
            && Queued(Arrive(c, d0, k, bad), d) == if d == d0 then q[k := Payloads(w[1..])] else q
  {
    var k := |c.ids| - 1;
    var w := c.Wire(d0, k);
    ArriveLands(c, d0, bad);
    PayloadsHead(w);
    QueuedAt(c, d0, k);
    WireQueued(c, d0, k, w[1..], d);
    hide Arrive, Payloads, Queued, HopBytes, Chain.Wire, Chain.Travelling, Chain.Simple;
    NodesKeepQueued(c.WithWire(d0, k, w[1..]), Arrive(c, d0, k, bad).nodes, d);
  }

  // ----- what each step does to the messages under way -----

  /** Whether the event carries a Data message of direction d over a link. */
  predicate Carries(c: Chain, ev: Event, d: Dir)
    requires c.Sized()
  {
    ev.Arrives? && ev.d == d && ev.k < |c.ids| && c.Wire(d, ev.k) != [] && c.Wire(d, ev.k)[0].Data?
  }

  /** Whatever else happens leaves the messages of direction d where they are. */
  lemma OtherTransit(t: Traffic, ev: Event, t': Traffic, d: Dir)
    requires Step(t, ev, t') && t.chain.Sized() && !Carries(t.chain, ev, d) && !(ev.Writes? && ev.d == d)
    ensures t'.chain.Sized() && Queued(t'.chain, d) == Queued(t.chain, d)
  {
    StepSized(t, ev, t');
    hide Payloads, Queued, Post, Transit, SendRelay, Chain.Open, WriteAt;
    var (c, c') := (t.chain, t'.chain);
    match ev {
      case Writes(d0, p, bad) => WriteQueues(c, d0, p, bad, d);
      case Reads(_, _) => NodesKeepQueued(c, c'.nodes, d);
      case Arrives(d0, k, bad) => OtherArrives(c, d0, k, bad, d);
      case Signals(i, msg, bad) =>
        BroadcastNoData(c.nodes[i], c.sid, msg, None, bad);
        ActQueued(c, i, SendRelay(c.nodes[i], c.sid, msg, bad), d);
      case Elsewhere(_, _) => NodesKeepQueued(c, c'.nodes, d);
    }
  }

  lemma OtherArrives(c: Chain, d0: Dir, k: nat, bad: set<StreamId>, d: Dir)
    requires c.Open() && k < |c.ids| && c.Wire(d0, k) != [] && Arrive(c, d0, k, bad).Open()
    requires !Carries(c, Arrives(d0, k, bad), d)
    ensures Queued(Arrive(c, d0, k, bad), d) == Queued(c, d)
  {
    assert c.Sized();
    if !c.Wire(d0, k)[0].Data? {
      OpenHead(c, d0, k);
      ArriveOtherBytes(c, d0, k, bad, d);
    } else if k + 1 < |c.ids| {
      MidQueues(c, d0, k, bad, d);
    } else {
      EndQueues(c, d0, bad, d);
    }
  }

  lemma CarryTransit(c: Chain, d: Dir, k: nat, bad: set<StreamId>) returns (pos: nat)
    requires c.Open() && k < |c.ids| && Carries(c, Arrives(d, k, bad), d) && Arrive(c, d, k, bad).Open()
    ensures Crosses(Transit(c, d), Transit(Arrive(c, d, k, bad), d), pos, c.Wire(d, k)[0].payload, |c.ids| - k)
  {
    assert c.Sized();
    var (c', w, q, h) := (Arrive(c, d, k, bad), c.Wire(d, k), Queued(c, d), |c.ids|);
    var (p, rest, q') := (w[0].payload, Payloads(w[1..]), Queued(c', d));
    assert |q| == h && Transit(c, d) == Ahead(MarkedHops(q)) && Transit(c', d) == Ahead(MarkedHops(q'));
    if k + 1 < h {
      MidQueues(c, d, k, bad, d);
      assert q[k] == [p] + rest && q' == q[k := rest][k + 1 := q[k + 1] + [p]];
      hide *;
      pos := MoveMarked(q, k, p, rest);
    } else {
      EndQueues(c, d, bad, d);
      assert k == h - 1 && q[k] == [p] + rest && q' == q[k := rest];
      hide *;
      PopMarked(q, p, rest);
      pos := 0;
    }
  }

  lemma WriteTransit(c: Chain, d: Dir, p: bytes, bad: set<StreamId>)
    requires c.Open() && WriteAt(c, d, p, bad).Open()
    ensures Transit(WriteAt(c, d, p, bad), d) == Transit(c, d) + [(p, |c.ids|)]
  {
    WriteQueues(c, d, p, bad, d);
    assert c.Sized();
    hide Chain.Open, WriteAt, Queued, MarkedHops;
    PushMarked(Queued(c, d), p);
  }

  lemma StepShape(t: Traffic, ev: Event, t': Traffic)
    requires Step(t, ev, t') && t.chain.Sized()
    ensures t.chain.Open() && t'.chain.Open()
    ensures ev.Writes? ==> t'.chain == WriteAt(t.chain, ev.d, ev.payload, ev.bad)
    ensures ev.Arrives? ==>
              && ev.k < |t.chain.ids| && t.chain.Wire(ev.d, ev.k) != []
              && t'.chain == Arrive(t.chain, ev.d, ev.k, ev.bad)
  {
    hide Handle, SendRelay, Chain.Open;
  }

  /**
    One step, message by message, amid any traffic: a write adds one message at the far end of the
    order, a carried message crosses exactly one link, and nothing else touches any of them.
  */
  lemma StepTransit(t: Traffic, ev: Event, t': Traffic, d: Dir) returns (pos: nat)
    requires Step(t, ev, t') && t.chain.Sized()
    ensures t'.chain.Sized() && t'.chain.ids == t.chain.ids
    ensures var (w, w', h) := (Transit(t.chain, d), Transit(t'.chain, d), |t.chain.ids|);
            if ev.Writes? && ev.d == d then w' == w + [(ev.payload, h)]
            else if Carries(t.chain, ev, d) then
              ev.k < h && Crosses(w, w', pos, t.chain.Wire(d, ev.k)[0].payload, h - ev.k)
            else w' == w
  {
    StepSized(t, ev, t');
    StepIds(t, ev, t');
    StepShape(t, ev, t');
    pos := 0;
    if Carries(t.chain, ev, d) {
      hide Step, Chain.Open, Arrive, WriteAt, Crosses, Queued, MarkedHops, Ahead, Chain.Wire, Transit;
      pos := CarryTransit(t.chain, d, ev.k, ev.bad);
    } else {
      hide Step, Chain.Open, Arrive, WriteAt, Crosses, Queued, MarkedHops, Ahead, Carries;
      if ev.Writes? && ev.d == d {
        WriteTransit(t.chain, d, ev.payload, ev.bad);
      } else {
        OtherTransit(t, ev, t', d);
      }
    }
  }

  lemma StepIds(t: Traffic, ev: Event, t': Traffic)
    requires Step(t, ev, t') && t.chain.Sized()
    ensures t'.chain.ids == t.chain.ids && t'.chain.sid == t.chain.sid && t'.chain.peers == t.chain.peers
  {
    hide Handle, SendRelay;
  }

  // ----- whole runs -----

  /** Whether the event brings a Data message of direction d into the far end's buffer. */
  predicate Lands(c: Chain, ev: Event, d: Dir)
    requires c.Sized()
  {
    Carries(c, ev, d) && ev.k + 1 == |c.ids|
  }

  /** All that the far end of direction d has received: what was read and what is buffered. */
  function Had(t: Traffic, d: Dir): bytes
    requires t.chain.Sized()
  {
    t.Got(d) + Inbox(t.chain, d)
  }

  /** The payloads written in direction d, in order. */
  function Written(events: seq<Event>, d: Dir): seq<bytes> {
    if events == [] then []
    else
      var ev := events[|events| - 1];
      Written(events[..|events| - 1], d) + if ev.Writes? && ev.d == d then [ev.payload] else []
  }

  /** The payloads that reached the far end of direction d, in order. */
  function Arrived(states: seq<Traffic>, events: seq<Event>, d: Dir): seq<bytes>
    requires |states| > |events| && forall t | t in states :: t.chain.Sized()
    decreases |events|
  {
    if events == [] then []
    else
      var n := |events| - 1;
      var (c, ev) := (states[n].chain, events[n]);
      Arrived(states[..|events|], events[..n], d) + if Lands(c, ev, d) then [c.Wire(d, ev.k)[0].payload] else []
  }

  /** How often a Data message of direction d crossed a link. */
  function Crossings(states: seq<Traffic>, events: seq<Event>, d: Dir): nat
    requires |states| > |events| && forall t | t in states :: t.chain.Sized()
    decreases |events|
  {
    if events == [] then 0
    else
      var n := |events| - 1;
      Crossings(states[..|events|], events[..n], d) + if Carries(states[n].chain, events[n], d) then 1 else 0
  }

  function Names(w: seq<(bytes, nat)>): seq<bytes> {
    seq(|w|, j requires 0 <= j < |w| => w[j].0)
  }

  /** All links that the messages under way still have to cross. */
  function Work(w: seq<(bytes, nat)>): nat {
    if w == [] then 0 else w[0].1 + Work(w[1..])
  }

  lemma {:induction false} WorkAt(w: seq<(bytes, nat)>, pos: nat, x: (bytes, nat))
    requires pos < |w|
    ensures Work(w[pos := x]) + w[pos].1 == Work(w) + x.1
  {
    if pos > 0 {
      assert w[pos := x][1..] == w[1..][pos - 1 := x];
      WorkAt(w[1..], pos - 1, x);
    } else {
      assert w[0 := x][1..] == w[1..];
    }
  }

  lemma WorkAppend(w: seq<(bytes, nat)>, x: (bytes, nat))
    ensures Work(w + [x]) == Work(w) + x.1
  {
    if w == [] {
      assert w + [x] == [x] && [x][1..] == [];
    } else {
      assert (w + [x])[1..] == w[1..] + [x];
      WorkAppend(w[1..], x);
    }
  }

  /** A crossing uses up one link, and only the last link makes a message arrive. */
  lemma CrossingWork(w: seq<(bytes, nat)>, w': seq<(bytes, nat)>, pos: nat, p: bytes, distance: nat)
    requires Crosses(w, w', pos, p, distance)
    ensures Work(w') + 1 == Work(w)
    ensures Names(w) == (if distance == 1 then [p] else []) + Names(w')
  {
    if distance == 1 {
      assert w == [w[0]] + w[1..];
    } else {
      WorkAt(w, pos, (p, distance - 1));
    }
  }

  lemma SignalHad(c: Chain, i: nat, msg: Msg, bad: set<StreamId>, d: Dir)
    requires c.Open() && i < |c.nodes| && !msg.Data?
    requires Act(c, i, SendRelay(c.nodes[i], c.sid, msg, bad)).Open()
    ensures Inbox(Act(c, i, SendRelay(c.nodes[i], c.sid, msg, bad)), d) == Inbox(c, d)
  {
    assert c.Sized();
    BroadcastNoData(c.nodes[i], c.sid, msg, None, bad);
    hide Broadcast, Post, Chain.Live, Chain.Travelling, CarriesData;
    InboxOf(c, Act(c, i, SendRelay(c.nodes[i], c.sid, msg, bad)), d, i, SendRelay(c.nodes[i], c.sid, msg, bad).node);
  }

  lemma ReadInbox(c: Chain, c': Chain, d0: Dir, k: nat, d: Dir)
    requires c.Sized() && c.sid in c.nodes[0].circuits && c.sid in c.nodes[|c.ids|].circuits && k <= |Inbox(c, d0)|
    requires var i := c.At(d0, |c.ids|); c' == c.(nodes := c.nodes[i := Drained(c.nodes[i], c.sid, k)])
    ensures c'.Sized() && Inbox(c', d) == if d == d0 then Inbox(c, d)[k..] else Inbox(c, d)
  {
  }

  lemma ReadHad(t: Traffic, d0: Dir, room: nat, t': Traffic, d: Dir)
    requires Step(t, Reads(d0, room), t') && t.chain.Sized() && t'.chain.Sized()
    ensures Had(t', d) == Had(t, d)
  {
    hide Chain.Live, Chain.Travelling, Chain.Simple;
    var (c, k) := (t.chain, Min(room, |Inbox(t.chain, d0)|));
    ReadInbox(c, t'.chain, d0, k, d);
    HadIs(t, d);
    HadIs(t', d);
    assert t'.Got(d) == if d == d0 then t.Got(d) + Inbox(c, d)[..k] else t.Got(d);
    hide *;
    if d == d0 {
      assert Inbox(c, d) == Inbox(c, d)[..k] + Inbox(c, d)[k..];
    }
  }

  lemma WriteHad(t: Traffic, d0: Dir, p: bytes, bad: set<StreamId>, t': Traffic, d: Dir)
    requires Step(t, Writes(d0, p, bad), t') && t.chain.Sized() && t'.chain.Sized()
    ensures Had(t', d) == Had(t, d)
  {
    WriteEnters(t.chain, d0, p, bad);
    var (c, c') := (t.chain, t'.chain);
    assert c'.nodes == c.nodes && c'.ids == c.ids && c'.sid == c.sid && t'.Got(d) == t.Got(d);
    hide *;
    SameNodes(c, c', d);
    assert Inbox(c', d) == Inbox(c, d) ==> Had(t', d) == Had(t, d) by { HadIs(t, d); HadIs(t', d); }
  }

  lemma SameNodes(c: Chain, c': Chain, d: Dir)
    requires c.Sized() && c'.Sized() && c'.nodes == c.nodes && c'.ids == c.ids && c'.sid == c.sid
    ensures Inbox(c', d) == Inbox(c, d)
  {
  }

  lemma HadIs(t: Traffic, d: Dir)
    requires t.chain.Sized()
    ensures Had(t, d) == t.Got(d) + Inbox(t.chain, d)
  {
  }

  lemma ElsewhereHad(t: Traffic, i: nat, n: Node, t': Traffic, d: Dir)
    requires Step(t, Elsewhere(i, n), t') && t.chain.Sized() && t'.chain.Sized()
    ensures Had(t', d) == Had(t, d)
  {
    hide Chain.Live, Chain.Travelling, Chain.Simple;
    InboxOf(t.chain, t'.chain, d, i, n);
  }

  /** What one step means for what has been received. */
  lemma StepHad(t: Traffic, ev: Event, t': Traffic, d: Dir)
    requires Step(t, ev, t') && t.chain.Sized() && t'.chain.Sized()
    ensures Had(t', d)
         == Had(t, d) + if Lands(t.chain, ev, d) then t.chain.Wire(d, ev.k)[0].payload else []
  {
    StepShape(t, ev, t');
    StepGot(t, ev, t', d);
    var c := t.chain;
    hide Step, Chain.Open, Inbox, Arrive, WriteAt, Act, SendRelay, Chain.Wire;
    match ev {
      case Writes(d0, p, bad) => WriteHad(t, d0, p, bad, t', d);
      case Reads(d0, room) => ReadHad(t, d0, room, t', d);
      case Arrives(d0, k, bad) => ArriveHad(c, d0, k, bad, d);
      case Signals(i, msg, bad) => SignalHad(c, i, msg, bad, d);
      case Elsewhere(i, n) => ElsewhereHad(t, i, n, t', d);
    }
  }

  lemma StepGot(t: Traffic, ev: Event, t': Traffic, d: Dir)
    requires Step(t, ev, t') && t.chain.Sized() && t'.chain.Sized()
    ensures !ev.Reads? ==> t'.Got(d) == t.Got(d)
    ensures ev.Signals? ==>
              && ev.i < |t.chain.nodes| && !ev.msg.Data?
              && t'.chain == Act(t.chain, ev.i, SendRelay(t.chain.nodes[ev.i], t.chain.sid, ev.msg, ev.bad))
  {
    hide Chain.Open, WriteAt, Arrive, SendRelay, Inbox;
  }

  lemma ArriveHad(c: Chain, d0: Dir, k: nat, bad: set<StreamId>, d: Dir)
    requires c.Open() && k < |c.ids| && c.Wire(d0, k) != [] && Arrive(c, d0, k, bad).Open()
    ensures Inbox(Arrive(c, d0, k, bad), d)
         == Inbox(c, d) + if Lands(c, Arrives(d0, k, bad), d) then c.Wire(d, k)[0].payload else []
  {
    assert c.Sized();
    if !c.Wire(d0, k)[0].Data? {
      var i := c.At(d0, k + 1);
      OpenHead(c, d0, k);
      OthersNoData(c.nodes[i], c.Wire(d0, k)[0], c.Backward(d0, k + 1), c.sid, bad);
      hide Handle, Chain.Live, Chain.Travelling, Post;
      InboxOf(c, Arrive(c, d0, k, bad), d, i, Handle(c.nodes[i], c.Wire(d0, k)[0], c.Backward(d0, k + 1), bad).node);
    } else if k + 1 < |c.ids| {
      ArriveMidBytes(c, d0, k, bad, d);
    } else {
      ArriveEndBytes(c, d0, bad, d);
    }
  }

  /** The books of one direction: w0, had0 at the start and w, had now, on a line of h links. */
  predicate Tallies(w0: seq<(bytes, nat)>, had0: bytes, w: seq<(bytes, nat)>, had: bytes, h: nat,
                    written: seq<bytes>, arrived: seq<bytes>, crossings: nat)
  {
    && Names(w0) + written == arrived + Names(w)
    && Work(w) + crossings == Work(w0) + h * |written|
    && had == had0 + Concat(arrived)
  }

  lemma TallyWrite(w0: seq<(bytes, nat)>, had0: bytes, w: seq<(bytes, nat)>, had: bytes, h: nat,
                   written: seq<bytes>, arrived: seq<bytes>, crossings: nat, p: bytes)
    requires Tallies(w0, had0, w, had, h, written, arrived, crossings)
    ensures Tallies(w0, had0, w + [(p, h)], had, h, written + [p], arrived, crossings)
  {
    hide Concat, Work;
    WorkAppend(w, (p, h));
    assert Names(w + [(p, h)]) == Names(w) + [p];
    var names := Names(w);
    hide Names;
    assert Names(w0) + (written + [p]) == (Names(w0) + written) + [p] == arrived + (names + [p]);
    assert |written + [p]| == |written| + 1;
    Distribute(h, |written|);
  }

  lemma TallyCross(w0: seq<(bytes, nat)>, had0: bytes, w: seq<(bytes, nat)>, had: bytes, h: nat,
                   written: seq<bytes>, arrived: seq<bytes>, crossings: nat,
                   w': seq<(bytes, nat)>, pos: nat, p: bytes, distance: nat)
    requires Tallies(w0, had0, w, had, h, written, arrived, crossings) && Crosses(w, w', pos, p, distance)
    ensures Tallies(w0, had0, w', had + (if distance == 1 then p else []), h, written,
                    arrived + (if distance == 1 then [p] else []), crossings + 1)
  {
    CrossingWork(w, w', pos, p, distance);
    hide Concat, Work, Names, Crosses;
    if distance == 1 {
      ConcatAppend(arrived, [p]);
      OneConcat(p);
      assert arrived + ([p] + Names(w')) == arrived + [p] + Names(w');
    } else {
      assert arrived + [] == arrived && had + [] == had && [] + Names(w') == Names(w');
    }
  }

  /** The books between the start of a run and some later state. */
  predicate Kept(first: Traffic, last: Traffic, d: Dir, written: seq<bytes>, arrived: seq<bytes>, crossings: nat)
    requires first.chain.Sized() && last.chain.Sized()
  {
    Tallies(Transit(first.chain, d), Had(first, d), Transit(last.chain, d), Had(last, d), |first.chain.ids|,
            written, arrived, crossings)
  }

  lemma KeptStep(first: Traffic, t: Traffic, ev: Event, t': Traffic, d: Dir, written: seq<bytes>, arrived: seq<bytes>,
                 crossings: nat)
    requires first.chain.Sized() && t.chain.Sized() && t.chain.ids == first.chain.ids && Step(t, ev, t')
    requires Kept(first, t, d, written, arrived, crossings)
    ensures t'.chain.Sized() && t'.chain.ids == first.chain.ids
    ensures Kept(first, t', d, written + (if ev.Writes? && ev.d == d then [ev.payload] else []),
                 arrived + (if Lands(t.chain, ev, d) then [t.chain.Wire(d, ev.k)[0].payload] else []),
                 crossings + if Carries(t.chain, ev, d) then 1 else 0)
  {
    hide Step, Transit, Had, Crosses, Tallies;
    var pos := StepTransit(t, ev, t', d);
    StepHad(t, ev, t', d);
    var (w, w', h) := (Transit(t.chain, d), Transit(t'.chain, d), |first.chain.ids|);
    var (w0, had0, had) := (Transit(first.chain, d), Had(first, d), Had(t, d));
    assert written + [] == written && arrived + [] == arrived && had + [] == had;
    if ev.Writes? && ev.d == d {
      TallyWrite(w0, had0, w, had, h, written, arrived, crossings, ev.payload);
    } else if Carries(t.chain, ev, d) {
      var p := t.chain.Wire(d, ev.k)[0].payload;
      TallyCross(w0, had0, w, had, h, written, arrived, crossings, w', pos, p, h - ev.k);
    }
  }

  lemma Distribute(h: nat, n: nat)
    ensures h * (n + 1) == h * n + h
  {
  }

  lemma OneConcat(p: bytes)
    ensures Concat([p]) == p
  {
    assert [p][1..] == [];
  }

  lemma RunIsSized(states: seq<Traffic>, events: seq<Event>)
    requires IsRun(states, events) && states[0].chain.Open()
    ensures forall t | t in states :: t.chain.Sized()
  {
    assert states[0].chain.Sized();
    hide Step, Chain.Open;
    forall k | 0 <= k < |states|
      ensures states[k].chain.Sized()
    {
      if k > 0 {
        assert Step(states[k - 1], events[k - 1], states[k]);
        StepSized(states[k - 1], events[k - 1], states[k]);
      }
    }
  }

  lemma {:induction false} RunKept(states: seq<Traffic>, events: seq<Event>, d: Dir)
    requires IsRun(states, events) && forall t | t in states :: t.chain.Sized()
    ensures states[|events|].chain.ids == states[0].chain.ids
    ensures Kept(states[0], states[|events|], d, Written(events, d), Arrived(states, events, d),
                 Crossings(states, events, d))
    decreases |events|
  {
    hide Step, Kept, Carries, Lands;
    if events == [] {
      KeptAtStart(states[0], d);
    } else {
      var n := |events| - 1;
      var (before, early) := (states[..|events|], events[..n]);
      assert forall j :: 0 <= j < n ==> early[j] == events[j] && before[j] == states[j];
      RunKept(before, early, d);
      assert before[n] == states[n] && Step(states[n], events[n], states[n + 1]);
      KeptStep(states[0], states[n], events[n], states[n + 1], d, Written(early, d), Arrived(before, early, d),
               Crossings(before, early, d));
    }
  }

  lemma KeptAtStart(t: Traffic, d: Dir)
    requires t.chain.Sized()
    ensures Kept(t, t, d, [], [], 0)
  {
    hide Transit, Had;
    var names := Names(Transit(t.chain, d));
    assert names + [] == [] + names && Had(t, d) + [] == Had(t, d);
  }

  /**
    Main result. Along any run of an open line, amid any traffic in both directions: the messages
    that were under way and those written since arrive in exactly this order, unchanged and each
    once; what is received is what arrived; and every one crosses every link in front of it
    exactly once, so with n messages delivered from a quiet line of h links it takes h * n crossings.
  */
  lemma DeliveredEachOnce(states: seq<Traffic>, events: seq<Event>, d: Dir)
    requires IsRun(states, events) && states[0].chain.Open()
    ensures forall t | t in states :: t.chain.Sized()
    ensures var (first, last) := (states[0], states[|events|]);
            var (w, w', arrived) := (Transit(first.chain, d), Transit(last.chain, d), Arrived(states, events, d));
            && Names(w) + Written(events, d) == arrived + Names(w')
            && Had(last, d) == Had(first, d) + Concat(arrived)
            && Work(w') + Crossings(states, events, d) == Work(w) + |first.chain.ids| * |Written(events, d)|
  {
    RunIsSized(states, events);
    hide IsRun, Chain.Open, Transit, Had, Work, Names, Written, Arrived, Crossings;
    RunKept(states, events, d);
  }

  // ----- a line that carries only Data and Success -----

  predicate Flowing(w: seq<Msg>) {
    forall j :: 0 <= j < |w| ==> w[j].Data? || w[j].Success?
  }

  /** In direction d there is nothing but Data and Success. */
  predicate Flows(c: Chain, d: Dir)
    requires c.Sized()
  {
    forall k :: 0 <= k < |c.ids| ==> Flowing(c.Wire(d, k))
  }

  predicate Empty(c: Chain, d: Dir)
    requires c.Sized()
  {
    forall k :: 0 <= k < |c.ids| ==> c.Wire(d, k) == []
  }

  /** In the middle, Data and Success go onward on the partner stream. */
  lemma HandledOnward(c: Chain, d: Dir, k: nat, m: Msg)
    requires c.Sized() && c.Simple() && 0 < k < |c.ids| && c.Live(c.At(d, k))
    requires Travels(m, c.sid) && (m.Data? || m.Success?)
    ensures var n := c.nodes[c.At(d, k)];
            Handle(n, m, c.Backward(d, k), {}) == Effect(n, [Send(c.Onward(d, k), m)], [])
  {
    Partner(c, d, k);
    hide Chain.Live, Chain.Simple, Session.GetPattern;
  }

  lemma FlowMoves(c: Chain, d: Dir, k: nat)
    requires c.Sized() && c.Simple() && k + 1 < |c.ids| && c.Wire(d, k) != [] && c.Live(c.At(d, k + 1))
    requires Travels(c.Wire(d, k)[0], c.sid) && (c.Wire(d, k)[0].Data? || c.Wire(d, k)[0].Success?)
    ensures Arrive(c, d, k, {})
         == c.WithWire(d, k, c.Wire(d, k)[1..]).WithWire(d, k + 1, c.Wire(d, k + 1) + [c.Wire(d, k)[0]])
  {
    hide Arrive, Handle, Chain.Live, Chain.WithWire, Chain.Wire, Act, Post, Chain.Onward, Chain.Backward;
    var (i, w) := (c.At(d, k + 1), c.Wire(d, k));
    var popped := c.WithWire(d, k, w[1..]);
    HandledOnward(c, d, k + 1, w[0]);
    ArriveIs(c, d, k);
    OtherWire(c, d, k, w[1..], k + 1);
    ActSame(popped, i, [Send(c.Onward(d, k + 1), w[0])]);
    OnwardAlike(c, popped, d, k + 1);
    PostOnward(popped, d, k + 1, w[0]);
  }

  lemma ArriveIs(c: Chain, d: Dir, k: nat)
    requires c.Sized() && k < |c.ids| && c.Wire(d, k) != []
    ensures var i := c.At(d, k + 1);
            Arrive(c, d, k, {})
            == Act(c.WithWire(d, k, c.Wire(d, k)[1..]), i,
                   Handle(c.nodes[i], c.Wire(d, k)[0], c.Backward(d, k + 1), {}))
  {
    hide Handle, Act;
  }

  /** An end keeps Data, or marks its circuit ready. */
  function Received(n: Node, sid: Sid, m: Msg): Node
    requires sid in n.circuits
  {
    var conn := n.circuits[sid];
    n.(circuits := n.circuits[sid := if m.Data? then conn.(inbox := conn.inbox + m.payload) else conn.(ready := true)])
  }

  lemma HandledAtEnd(c: Chain, d: Dir, m: Msg)
    requires c.Open() && Travels(m, c.sid) && (m.Data? || m.Success?)
    ensures var n := c.nodes[c.At(d, |c.ids|)];
            c.sid in n.circuits && Handle(n, m, c.Backward(d, |c.ids|), {}) == Quiet(Received(n, c.sid, m))
  {
    OpenFacts(c, c.At(d, |c.ids|));
  }

  lemma WireAfter(c: Chain, d: Dir, k: nat, w: seq<Msg>, e: Dir, j: nat)
    requires c.Sized() && k < |c.ids| && j < |c.ids|
    ensures c.WithWire(d, k, w).Wire(e, j) == if e == d && j == k then w else c.Wire(e, j)
  {
  }

  /** A node that keeps its name, its session and its circuit keeps the line open. */
  lemma NodeOpen(c: Chain, i: nat, n: Node)
    requires c.Open() && i < |c.nodes| && n.me == c.nodes[i].me && n.sessions == c.nodes[i].sessions
    requires c.sid in c.nodes[i].circuits ==> c.sid in n.circuits
    ensures c.(nodes := c.nodes[i := n]).Open()
  {
    var c' := c.(nodes := c.nodes[i := n]);
    assert forall j | 0 <= j < |c.nodes| :: c.Live(j) ==> c'.Live(j);
    assert c'.Travelling();
    hide Chain.Live, Chain.Travelling;
  }

  lemma TravelsAt(c: Chain, d: Dir, k: nat)
    requires c.Open() && k < |c.ids|
    ensures forall j :: 0 <= j < |c.Wire(d, k)| ==> Travels(c.Wire(d, k)[j], c.sid)
  {
  }

  lemma MovedOpen(c: Chain, d: Dir, k: nat)
    requires c.Open() && k + 1 < |c.ids| && c.Wire(d, k) != []
    ensures c.WithWire(d, k, c.Wire(d, k)[1..]).WithWire(d, k + 1, c.Wire(d, k + 1) + [c.Wire(d, k)[0]]).Open()
  {
    TravelsAt(c, d, k);
    TravelsAt(c, d, k + 1);
    var (w, next) := (c.Wire(d, k), c.Wire(d, k + 1));
    assert c.Sized();
    hide Chain.Open, Chain.Wire, Chain.WithWire;
    WithWireOpen(c, d, k, w[1..]);
    WithWireOpen(c.WithWire(d, k, w[1..]), d, k + 1, next + [w[0]]);
  }

  /** The last hop: the end takes the message. */
  lemma EndTakes(c: Chain, d: Dir)
    requires var k := |c.ids| - 1; c.Open() && c.Wire(d, k) != [] && Flowing(c.Wire(d, k))
    ensures var (k, i) := (|c.ids| - 1, c.At(d, |c.ids|));
            var popped := c.WithWire(d, k, c.Wire(d, k)[1..]);
            && c.sid in c.nodes[i].circuits
            && Arrive(c, d, k, {})
               == popped.(nodes := popped.nodes[i := Received(c.nodes[i], c.sid, c.Wire(d, k)[0])])
            && Arrive(c, d, k, {}).Open()
  {
    var (k, i) := (|c.ids| - 1, c.At(d, |c.ids|));
    var w := c.Wire(d, k);
    TravelsAt(c, d, k);
    ArriveIs(c, d, k);
    HandledAtEnd(c, d, w[0]);
    assert c.Sized();
    hide Chain.Open, Handle, Arrive, Chain.Wire, Chain.WithWire, Received;
    WithWireOpen(c, d, k, w[1..]);
    var n := Received(c.nodes[i], c.sid, w[0]);
    ReceivedKeeps(c.nodes[i], c.sid, w[0]);
    NodeOpen(c.WithWire(d, k, w[1..]), i, n);
  }

  lemma ReceivedKeeps(n: Node, sid: Sid, m: Msg)
    requires sid in n.circuits
    ensures var n' := Received(n, sid, m); n'.me == n.me && n'.sessions == n.sessions && sid in n'.circuits
  {
  }

  /** Up to hop k there is nothing. */
  predicate ClearTo(c: Chain, d: Dir, k: nat)
    requires c.Sized() && k <= |c.ids|
  {
    forall j :: 0 <= j < k ==> c.Wire(d, j) == []
  }

  predicate SameWires(c: Chain, c': Chain, d: Dir)
    requires c.Sized() && c'.Sized()
  {
    c'.ids == c.ids && forall j :: 0 <= j < |c.ids| ==> c'.Wire(d, j) == c.Wire(d, j)
  }

  /** The wires after the head of hop k has moved on. */
  predicate Hopped(c: Chain, c': Chain, d: Dir, k: nat)
    requires c.Sized() && c'.Sized() && k < |c.ids| && c.Wire(d, k) != []
  {
    && c'.ids == c.ids
    && forall e: Dir, j: nat :: j < |c.ids| ==>
         c'.Wire(e, j) == (if e == d && j == k then c.Wire(d, k)[1..]
                           else if e == d && j == k + 1 then c.Wire(d, j) + [c.Wire(d, k)[0]] else c.Wire(e, j))
  }

  lemma MidHop(c: Chain, d: Dir, k: nat)
    requires c.Open() && k + 1 < |c.ids| && c.Wire(d, k) != [] && Flowing(c.Wire(d, k))
    ensures Arrive(c, d, k, {}).Open() && Hopped(c, Arrive(c, d, k, {}), d, k)
  {
    var (c', w, next) := (Arrive(c, d, k, {}), c.Wire(d, k), c.Wire(d, k + 1));
    assert c.Sized() && (w[0].Data? || w[0].Success?);
    OpenFacts(c, c.At(d, k + 1));
    OpenHead(c, d, k);
    FlowMoves(c, d, k);
    MovedOpen(c, d, k);
    hide *;
    forall e: Dir, j: nat | j < |c.ids|
      ensures c'.Wire(e, j) == (if e == d && j == k then w[1..]
                                else if e == d && j == k + 1 then next + [w[0]] else c.Wire(e, j))
    {
      WireAfter(c, d, k, w[1..], e, j);
      WireAfter(c.WithWire(d, k, w[1..]), d, k + 1, next + [w[0]], e, j);
    }
    HoppedIs(c, c', d, k);
  }

  lemma HoppedIs(c: Chain, c': Chain, d: Dir, k: nat)
    requires c.Sized() && c'.Sized() && k < |c.ids| && c.Wire(d, k) != [] && c'.ids == c.ids
    requires forall e: Dir, j: nat :: j < |c.ids| ==>
               c'.Wire(e, j) == (if e == d && j == k then c.Wire(d, k)[1..]
                                 else if e == d && j == k + 1 then c.Wire(d, k + 1) + [c.Wire(d, k)[0]]
                                 else c.Wire(e, j))
    ensures Hopped(c, c', d, k)
  {
    hide Chain.Wire;
  }

  lemma EndHop(c: Chain, d: Dir)
    requires var k := |c.ids| - 1; c.Open() && c.Wire(d, k) != [] && Flowing(c.Wire(d, k))
    ensures var k := |c.ids| - 1; Arrive(c, d, k, {}).Open() && Hopped(c, Arrive(c, d, k, {}), d, k)
  {
    var k := |c.ids| - 1;
    var (c', w) := (Arrive(c, d, k, {}), c.Wire(d, k));
    assert c.Sized();
    EndTakes(c, d);
    forall e: Dir, j: nat | j < |c.ids|
      ensures c'.Wire(e, j) == if e == d && j == k then w[1..] else c.Wire(e, j)
    {
      WireAfter(c, d, k, w[1..], e, j);
    }
    hide *;
    HoppedIs(c, c', d, k);
  }

  /** The first message behind which there is nothing more moves on; the line stays open. */
  lemma OneHop(c: Chain, d: Dir, k: nat)
    requires c.Open() && k < |c.ids| && c.Wire(d, k) != [] && Flows(c, d) && ClearTo(c, d, k)
    ensures var c' := Arrive(c, d, k, {});
            && c'.Open() && c'.ids == c.ids && Flows(c', d) && ClearTo(c', d, k)
            && |c'.Wire(d, k)| + 1 == |c.Wire(d, k)| && SameWires(c, c', Opposite(d))
  {
    assert c.Sized() && Flowing(c.Wire(d, k));
    if k + 1 < |c.ids| { MidHop(c, d, k); } else { EndHop(c, d); }
    var c' := Arrive(c, d, k, {});
    assert c'.Sized();
    hide *;
    HopFacts(c, c', d, k);
  }

  lemma HopFacts(c: Chain, c': Chain, d: Dir, k: nat)
    requires c.Sized() && c'.Sized() && k < |c.ids| && c.Wire(d, k) != [] && Hopped(c, c', d, k)
    requires Flows(c, d) && ClearTo(c, d, k)
    ensures c'.ids == c.ids && Flows(c', d) && ClearTo(c', d, k) && SameWires(c, c', Opposite(d))
    ensures |c'.Wire(d, k)| + 1 == |c.Wire(d, k)|
  {
    hide Chain.Wire;
    assert Flowing(c.Wire(d, k)) && (k + 1 < |c.ids| ==> Flowing(c.Wire(d, k + 1)));
    forall j | 0 <= j < |c.ids|
      ensures Flowing(c'.Wire(d, j))
    {
      assert Flowing(c.Wire(d, j));
    }
  }

  /** Nothing but arrivals, and no write fails. */
  predicate OnlyArrivals(events: seq<Event>) {
    forall j :: 0 <= j < |events| ==> events[j].Arrives? && events[j].bad == {}
  }

  /** What draining direction d leaves as it was. */
  predicate DrainedFrom(t: Traffic, t': Traffic, d: Dir)
    requires t.chain.Sized() && t'.chain.Sized()
  {
    && SameWires(t.chain, t'.chain, Opposite(d)) && t' == t.(chain := t'.chain)
  }

  lemma HopStep(t: Traffic, d: Dir, k: nat)
    requires t.chain.Open() && k < |t.chain.ids| && t.chain.Wire(d, k) != [] && Arrive(t.chain, d, k, {}).Open()
    ensures Step(t, Arrives(d, k, {}), t.(chain := Arrive(t.chain, d, k, {})))
  {
    hide Chain.Open, Arrive;
  }

  lemma DrainedTrans(t: Traffic, u: Traffic, v: Traffic, d: Dir)
    requires t.chain.Sized() && u.chain.Sized() && v.chain.Sized() && DrainedFrom(t, u, d) && DrainedFrom(u, v, d)
    ensures DrainedFrom(t, v, d)
  {
    hide Chain.Wire;
  }

  lemma StepBefore(t: Traffic, ev: Event, states: seq<Traffic>, events: seq<Event>)
    requires IsRun(states, events) && Step(t, ev, states[0]) && ev.Arrives? && ev.bad == {} && OnlyArrivals(events)
    ensures IsRun([t] + states, [ev] + events) && OnlyArrivals([ev] + events)
    ensures ([t] + states)[|events| + 1] == states[|events|]
  {
    hide Step;
    var (ss, es) := ([t] + states, [ev] + events);
    forall i | 0 <= i < |es|
      ensures Step(ss[i], es[i], ss[i + 1])
    {
      if i > 0 { assert Step(states[i - 1], events[i - 1], states[i]); }
    }
  }

  /** What is on the hops from k on can be brought to the end. */
  lemma {:induction false} DrainsFrom(t: Traffic, d: Dir, k: nat) returns (states: seq<Traffic>, events: seq<Event>)
    requires t.chain.Open() && k <= |t.chain.ids| && Flows(t.chain, d) && ClearTo(t.chain, d, k)
    ensures IsRun(states, events) && OnlyArrivals(events) && states[0] == t
    ensures states[|events|].chain.Open()
    ensures Empty(states[|events|].chain, d) && DrainedFrom(t, states[|events|], d)
    decreases |t.chain.ids| - k, if k < |t.chain.ids| then |t.chain.Wire(d, k)| else 0
  {
    var c := t.chain;
    assert c.Sized();
    if k == |c.ids| {
      AlreadyDrained(t, d);
      states, events := [t], [];
    } else if c.Wire(d, k) == [] {
      ClearMore(c, d, k);
      hide *;
      states, events := DrainsFrom(t, d, k + 1);
    } else {
      OneHop(c, d, k);
      HopStep(t, d, k);
      var u := t.(chain := Arrive(c, d, k, {}));
      assert u.chain.Sized() && |u.chain.ids| == |c.ids| && DrainedFrom(t, u, d);
      hide *;
      var rest, more := DrainsFrom(u, d, k);
      OpenIsSized(rest[|more|].chain);
      StepBefore(t, Arrives(d, k, {}), rest, more);
      states, events := [t] + rest, [Arrives(d, k, {})] + more;
      DrainedTrans(t, u, rest[|more|], d);
    }
  }

  lemma OpenIsSized(c: Chain)
    requires c.Open()
    ensures c.Sized()
  {
  }

  lemma AlreadyDrained(t: Traffic, d: Dir)
    requires t.chain.Open() && ClearTo(t.chain, d, |t.chain.ids|)
    ensures IsRun([t], []) && OnlyArrivals([]) && Empty(t.chain, d) && DrainedFrom(t, t, d)
  {
  }

  lemma ClearMore(c: Chain, d: Dir, k: nat)
    requires c.Sized() && k < |c.ids| && ClearTo(c, d, k) && c.Wire(d, k) == []
    ensures ClearTo(c, d, k + 1)
  {
    hide Chain.Wire;
  }

  lemma EmptyHops(c: Chain, d: Dir)
    requires c.Sized() && Empty(c, d)
    ensures Transit(c, d) == [] && Ahead(HopBytes(c, d)) == []
  {
    hide Chain.Wire, Ahead;
    assert Payloads([]) == [] && Bytes([]) == [];
    NoneAhead(HopBytes(c, d));
    NoneAhead(MarkedHops(Queued(c, d)));
  }

  lemma OnlyArrivalsWrite(events: seq<Event>, d: Dir)
    requires OnlyArrivals(events)
    ensures Written(events, d) == []
  {
    if events != [] { OnlyArrivalsWrite(events[..|events| - 1], d); }
  }

  /**
    Main result. An open line of any length that carries only Data and Success in one direction
    can always deliver: arrivals alone, and no write or read, bring every payload under way into
    the far end's buffer, in order, and leave the other direction alone.
  */
  lemma LineDrains(t: Traffic, d: Dir) returns (states: seq<Traffic>, events: seq<Event>)
    requires t.chain.Open() && t.chain.Sized() && Flows(t.chain, d)
    ensures IsRun(states, events) && OnlyArrivals(events) && states[0] == t
    ensures var last := states[|events|];
            && last.chain.Open() && last.chain.Sized() && Empty(last.chain, d) && DrainedFrom(t, last, d)
            && Had(last, d) == Had(t, d) + Concat(Names(Transit(t.chain, d)))
  {
    assert ClearTo(t.chain, d, 0);
    hide *;
    states, events := DrainsFrom(t, d, 0);
    DeliveredEachOnce(states, events, d);
    OnlyArrivalsWrite(events, d);
    RunLength(states, events);
    var last := states[|events|];
    assert last in states;
    EmptyHops(last.chain, d);
    NamesOfNone();
    var names := Names(Transit(t.chain, d));
    assert names + [] == names && Arrived(states, events, d) + [] == Arrived(states, events, d);
  }

  lemma NamesOfNone()
    ensures Names([]) == []
  {
  }

  lemma RunLength(states: seq<Traffic>, events: seq<Event>)
    requires IsRun(states, events)
    ensures |states| == |events| + 1
  {
    hide Step;
  }
}
