/**
  A completed circuit as a chain of nodes of any length, with one FIFO per link and direction.
  Nodes act only through the handlers of module Relay.
*/
module LineModel {
  import opened Basics
  import opened Relay
  import opened NodeFacts

  /** Travelling direction along the chain. */
  datatype Dir = Rightward | Leftward

  function Opposite(d: Dir): Dir {
    if d.Rightward? then Leftward else Rightward
  }

  /**
    `right[i]` carries messages from node i to node i+1 over stream `ids[i]`,
    `left[i]` those from node i+1 to node i.
  */
  datatype Chain = Chain(
    sid: Sid,
    peers: seq<Peer>,
    ids: seq<StreamId>,
    nodes: seq<Node>,
    right: seq<seq<Msg>>,
    left: seq<seq<Msg>>)
  {
    predicate Sized() {
      |nodes| == |peers| == |ids| + 1 && |right| == |left| == |ids| && |ids| >= 1
    }

    /** The node reached after k hops in direction d. */
    function At(d: Dir, k: nat): nat
      requires Sized() && k <= |ids|
    {
      if d.Rightward? then k else |ids| - k
    }

    /** The link crossed by the k-th hop in direction d. */
    function Over(d: Dir, k: nat): nat
      requires Sized() && k < |ids|
    {
      if d.Rightward? then k else |ids| - 1 - k
    }

    function Wire(d: Dir, k: nat): seq<Msg>
      requires Sized() && k < |ids|
    {
      if d.Rightward? then right[Over(d, k)] else left[Over(d, k)]
    }

    /** Replaces the content of one wire. */
    function WithWire(d: Dir, k: nat, msgs: seq<Msg>): (c: Chain)
      requires Sized() && k < |ids|
      ensures c.Sized() && c.sid == sid && c.peers == peers && c.ids == ids && c.nodes == nodes
    {
      if d.Rightward? then this.(right := right[Over(d, k) := msgs]) else this.(left := left[Over(d, k) := msgs])
    }

    /** The stream on which the node after k hops sends onward in direction d. */
    function Onward(d: Dir, k: nat): Stream
      requires Sized() && k < |ids|
    {
      Stream(ids[Over(d, k)], peers[At(d, k + 1)])
    }

    /** The stream on which the node after k hops receives what travels in direction d. */
    function Backward(d: Dir, k: nat): Stream
      requires Sized() && 0 < k <= |ids|
    {
      Stream(ids[Over(d, k - 1)], peers[At(d, k - 1)])
    }

    /** Whether node i still holds its session as the line requires. */
    predicate Live(i: nat)
      requires Sized() && i < |nodes|
    {
      && nodes[i].me == peers[i] && sid in nodes[i].sessions
      && var sess := nodes[i].sessions[sid];
         if i == 0 then IsEnd(sess.role) && sess.pair == [Onward(Rightward, 0)]
         else if i == |ids| then IsEnd(sess.role) && sess.pair == [Backward(Rightward, i)]
         else
           var (l, r) := (Backward(Rightward, i), Onward(Rightward, i));
           !IsEnd(sess.role) && (sess.pair == [l, r] || sess.pair == [r, l])
    }

    /** Everything on the wires belongs to this session and sets up none. */
    predicate Travelling() {
      && (forall i, j :: 0 <= i < |right| && 0 <= j < |right[i]| ==> Travels(right[i][j], sid))
      && (forall i, j :: 0 <= i < |left| && 0 <= j < |left[i]| ==> Travels(left[i][j], sid))
    }

    predicate Simple() {
      && (forall i, j :: 0 <= i < j < |peers| ==> peers[i] != peers[j])
      && (forall i, j :: 0 <= i < j < |ids| ==> ids[i] != ids[j])
    }

    /** The whole line is up and both ends have their circuit connection. */
    predicate Open() {
      && Sized() && Simple() && Travelling()
      && (forall i :: 0 <= i < |nodes| ==> Live(i))
      && sid in nodes[0].circuits && sid in nodes[|ids|].circuits
    }
  }

  // ----- what a node writes goes on the wires next to it -----

  /** Appends one message written by node i. */
  function PostOne(c: Chain, i: nat, s: Send): (c': Chain)
    requires c.Sized() && i < |c.nodes|
    ensures c'.Sized() && c'.sid == c.sid && c'.peers == c.peers && c'.ids == c.ids && c'.nodes == c.nodes
  {
    if i < |c.ids| && s.to == c.Onward(Rightward, i) then c.(right := c.right[i := c.right[i] + [s.msg]])
    else if i > 0 && s.to == c.Backward(Rightward, i) then c.(left := c.left[i - 1 := c.left[i - 1] + [s.msg]])
    else c
  }

  function Post(c: Chain, i: nat, sends: seq<Send>): (c': Chain)
    requires c.Sized() && i < |c.nodes|
    ensures c'.Sized() && c'.sid == c.sid && c'.peers == c.peers && c'.ids == c.ids && c'.nodes == c.nodes
    decreases |sends|
  {
    if sends == [] then c else Post(PostOne(c, i, sends[0]), i, sends[1..])
  }

  /** Node i performs `e`. */
  function Act(c: Chain, i: nat, e: Effect): (c': Chain)
    requires c.Sized() && i < |c.nodes|
    ensures c'.Sized() && c'.sid == c.sid && c'.peers == c.peers && c'.ids == c.ids
    ensures c'.nodes == c.nodes[i := e.node]
  {
    Post(c.(nodes := c.nodes[i := e.node]), i, e.sends)
  }

  /** The head of the k-th wire in direction d reaches the next node. */
  function Arrive(c: Chain, d: Dir, k: nat, bad: set<StreamId>): (c': Chain)
    requires c.Sized() && k < |c.ids| && c.Wire(d, k) != []
    ensures c'.Sized() && c'.sid == c.sid && c'.peers == c.peers && c'.ids == c.ids
  {
    var i := c.At(d, k + 1);
    Act(c.WithWire(d, k, c.Wire(d, k)[1..]), i, Handle(c.nodes[i], c.Wire(d, k)[0], c.Backward(d, k + 1), bad))
  }
}
