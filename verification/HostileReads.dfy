/**
  SecureSession.Read (secure/rw.go, secure/crypto.go) against whatever bytes arrive: what it
  accepts, what it hands out, and what a run of reads over arbitrary arrivals can ever return.
*/
module HostileReads {
  import opened Basics
  import opened SecureStream

  // ----- runs -----

  /** A frame that was accepted: where its prefix stands among the arrived bytes, its counter, both texts. */
  datatype Opened = Opened(at: nat, n: nat, sealed: bytes, plain: bytes)

  /** A receiver, all bytes that have arrived, all bytes that were read, and the frames accepted. */
  datatype Watched = Watched(receiver: Receiver, arrived: bytes, got: bytes, log: seq<Opened>)

  datatype Event = Arrives(data: bytes) | Reads(room: nat)

  /** What a call of Read adds to the history. */
  function Noted(a: Aead, w: Watched): seq<Opened>
    requires |w.receiver.inbox| <= |w.arrived|
  {
    var r := w.receiver;
    if r.qbuf.Some? || !AcceptsFrame(a, r) then w.log
    else w.log + [Opened(|w.arrived| - |r.inbox|, r.dec.value.n, FrontFrame(r.inbox), PlainOf(a, r))]
  }

  /** Any bytes arrive at any time; Read may be called at any time, and may run out of bytes. */
  ghost predicate Step(a: Aead, w: Watched, ev: Event, w': Watched) {
    match ev
    case Arrives(data) =>
      w' == w.(receiver := w.receiver.(inbox := w.receiver.inbox + data), arrived := w.arrived + data)
    case Reads(room) =>
      && w.receiver.Sane() && |w.receiver.inbox| <= |w.arrived|
      && var r := ReadStep(a, w.receiver, room);
         w' == Watched(r.receiver, w.arrived, w.got + if r.result.Got? then r.result.data else [], Noted(a, w))
  }

  ghost predicate IsRun(a: Aead, ws: seq<Watched>, events: seq<Event>) {
    |ws| == |events| + 1 && forall i :: 0 <= i < |events| ==> Step(a, ws[i], events[i], ws[i + 1])
  }

  function Plains(log: seq<Opened>): bytes {
    if log == [] then [] else Plains(log[..|log| - 1]) + log[|log| - 1].plain
  }

  /** Entry i of the log stands in the arrived bytes with its length in front and opens under `key`. */
  predicate Genuine(a: Aead, key: Key, arrived: bytes, x: Opened) {
    && x.at + 2 + |x.sealed| <= |arrived| && AnnouncedLength(arrived[x.at..]) == |x.sealed|
    && arrived[x.at + 2..x.at + 2 + |x.sealed|] == x.sealed
    && a.open(key, x.n, x.sealed) == Some(x.plain)
  }

  /** Accepted frames do not overlap, come in arrival order, and no counter serves twice. */
  predicate InOrder(log: seq<Opened>) {
    forall i, j :: 0 <= i < j < |log| ==> log[i].at + 2 + |log[i].sealed| <= log[j].at && log[i].n < log[j].n
  }

  /**
    Every counter in the log lies between the first and the next one; they are the first ones, one
    for each accepted frame, if a refused frame does not count.
  */
  predicate Counted(a: Aead, first: nat, log: seq<Opened>, next: nat) {
    && (forall i :: 0 <= i < |log| ==> first <= log[i].n < next)
    && (!a.countsRefused ==> next == first + |log| && forall i :: 0 <= i < |log| ==> log[i].n == first + i)
  }

  /** All that was accepted lies before position `end`. */
  predicate Before(log: seq<Opened>, end: int) {
    forall i :: 0 <= i < |log| ==> log[i].at + 2 + |log[i].sealed| <= end
  }

  predicate Watchful(a: Aead, c: Cipher, w: Watched) {
    && w.receiver.Sane() && |w.receiver.inbox| <= |w.arrived|
    && w.arrived[|w.arrived| - |w.receiver.inbox|..] == w.receiver.inbox
    && w.receiver.dec.Some? && w.receiver.dec.value.key == c.key && w.receiver.dec.value.n >= c.n
    && (forall i :: 0 <= i < |w.log| ==> Genuine(a, c.key, w.arrived, w.log[i]))
    && Counted(a, c.n, w.log, w.receiver.dec.value.n)
    && Before(w.log, |w.arrived| - |w.receiver.inbox|) && InOrder(w.log)
    && w.got + w.receiver.Leftover() == Plains(w.log)
  }

  lemma ArrivalKeeps(a: Aead, c: Cipher, w: Watched, data: bytes)
    requires Watchful(a, c, w)
    ensures Watchful(a, c, w.(receiver := w.receiver.(inbox := w.receiver.inbox + data), arrived := w.arrived + data))
  {
    var arrived := w.arrived + data;
    forall i | 0 <= i < |w.log|
      ensures Genuine(a, c.key, arrived, w.log[i])
    {
      var x := w.log[i];
      assert Genuine(a, c.key, w.arrived, x);
      assert arrived[x.at..][0] == w.arrived[x.at..][0] && arrived[x.at..][1] == w.arrived[x.at..][1];
      assert arrived[x.at + 2..x.at + 2 + |x.sealed|] == w.arrived[x.at + 2..x.at + 2 + |x.sealed|];
    }
  }

  /** Reading from the queue, or a read that fails. */
  lemma QuietReadKeeps(a: Aead, c: Cipher, w: Watched, room: nat)
    requires a.Lawful() && Watchful(a, c, w) && (w.receiver.qbuf.Some? || !AcceptsFrame(a, w.receiver))
    ensures var r := ReadStep(a, w.receiver, room);
            Watchful(a, c, Watched(r.receiver, w.arrived, w.got + if r.result.Got? then r.result.data else [], w.log))
  {
    if w.receiver.qbuf.Some? {
      QueueServesFirst(a, w.receiver, room);
      var r := ReadStep(a, w.receiver, room);
      Onward(w.got, r.result.data, r.receiver.Leftover());
    } else {
      ReadAuthenticates(a, w.receiver, room);
      assert w.got + [] == w.got;
    }
  }

  /** The log grows by a frame that starts behind all others. */
  lemma LogGrows(a: Aead, c: Cipher, arrived: bytes, log: seq<Opened>, x: Opened)
    requires forall i :: 0 <= i < |log| ==> Genuine(a, c.key, arrived, log[i])
    requires Genuine(a, c.key, arrived, x) && x.n >= c.n
    requires Counted(a, c.n, log, x.n) && Before(log, x.at) && InOrder(log)
    ensures var log' := log + [x];
            && (forall i :: 0 <= i < |log'| ==> Genuine(a, c.key, arrived, log'[i]))
            && Counted(a, c.n, log', x.n + 1) && Before(log', x.at + 2 + |x.sealed|) && InOrder(log')
            && Plains(log') == Plains(log) + x.plain
  {
    var log' := log + [x];
    assert log'[..|log|] == log;
    hide Genuine;
  }

  /** The frame at the front of the inbox, as it stands in the arrived bytes. */
  lemma FrontStands(a: Aead, w: Watched)
    requires |w.receiver.inbox| <= |w.arrived| && AcceptsFrame(a, w.receiver)
    requires w.arrived[|w.arrived| - |w.receiver.inbox|..] == w.receiver.inbox
    ensures var (r, at) := (w.receiver, |w.arrived| - |w.receiver.inbox|);
            var x := Opened(at, r.dec.value.n, FrontFrame(r.inbox), PlainOf(a, r));
            && Genuine(a, r.dec.value.key, w.arrived, x)
            && x.at + 2 + |x.sealed| == |w.arrived| - (|r.inbox| - 2 - AnnouncedLength(r.inbox))
            && w.arrived[x.at + 2 + |x.sealed|..] == r.inbox[2 + AnnouncedLength(r.inbox)..]
  {
    var (r, at) := (w.receiver, |w.arrived| - |w.receiver.inbox|);
    assert w.arrived[at + 2..at + 2 + AnnouncedLength(r.inbox)] == r.inbox[2..2 + AnnouncedLength(r.inbox)];
  }

  /** Reading a frame that is accepted. */
  lemma AcceptingReadKeeps(a: Aead, c: Cipher, w: Watched, room: nat)
    requires a.Lawful() && Watchful(a, c, w) && w.receiver.qbuf.None? && AcceptsFrame(a, w.receiver)
    ensures var r := ReadStep(a, w.receiver, room);
            r.result.Got? && Watchful(a, c, Watched(r.receiver, w.arrived, w.got + r.result.data, Noted(a, w)))
  {
    hide Genuine, Counted, Before, InOrder, Plains, ReadStep, AcceptsFrame, Aead.Lawful;
    hide FrontFrame, PlainOf, AnnouncedLength;
    var (r, read) := (w.receiver, ReadStep(a, w.receiver, room));
    ReadAuthenticates(a, r, room);
    FrontStands(a, w);
    var x := Opened(|w.arrived| - |r.inbox|, r.dec.value.n, FrontFrame(r.inbox), PlainOf(a, r));
    assert r.Leftover() == [] && w.got + [] == w.got;
    LogGrows(a, c, w.arrived, w.log, x);
    Onward(w.got, read.result.data, read.receiver.Leftover());
    hide Receiver.Leftover;
  }

  lemma Onward(got: bytes, data: bytes, left: bytes)
    ensures got + (data + left) == got + data + left
  {
  }

  lemma StepWatches(a: Aead, c: Cipher, w: Watched, ev: Event, w': Watched)
    requires a.Lawful() && Watchful(a, c, w) && Step(a, w, ev, w')
    ensures Watchful(a, c, w')
  {
    hide Watchful, Aead.Lawful, ReadStep, AcceptsFrame;
    match ev
    case Arrives(data) => ArrivalKeeps(a, c, w, data);
    case Reads(room) =>
      if w.receiver.qbuf.None? && AcceptsFrame(a, w.receiver) {
        AcceptingReadKeeps(a, c, w, room);
      } else {
        QuietReadKeeps(a, c, w, room);
      }
  }

  lemma {:induction false} RunWatches(a: Aead, c: Cipher, ws: seq<Watched>, events: seq<Event>, i: nat)
    requires a.Lawful() && IsRun(a, ws, events) && Watchful(a, c, ws[0]) && i < |ws|
    ensures Watchful(a, c, ws[i])
  {
    hide Watchful, Step, Aead.Lawful;
    if i > 0 {
      RunWatches(a, c, ws, events, i - 1);
      assert Step(a, ws[i - 1], events[i - 1], ws[i]);
      StepWatches(a, c, ws[i - 1], events[i - 1], ws[i]);
    }
  }

  /** A session whose handshake left cipher c, before anything has arrived. */
  function Fresh(c: Cipher): Watched {
    Watched(Receiver(Some(c), None, 0, []), [], [], [])
  }

  /**
    Main result. Whatever bytes arrive, in whatever pieces, and whenever Read is called with
    whatever buffers: all that was ever read is a prefix of the plaintexts of accepted frames, in
    order. Each of these frames stands in the arrived bytes behind its length, they do not overlap
    and come in arrival order, each opened under the session's key and a counter of its own, and
    the counters only grow, so that no frame is accepted a second time under the same counter.
  */
  lemma OnlyAcceptedIsRead(a: Aead, c: Cipher, ws: seq<Watched>, events: seq<Event>)
    requires a.Lawful() && IsRun(a, ws, events) && ws[0] == Fresh(c)
    ensures forall i :: 0 <= i < |ws| ==>
                          && ws[i].got <= Plains(ws[i].log) && InOrder(ws[i].log)
                          && forall j :: 0 <= j < |ws[i].log| ==>
                                           && Genuine(a, c.key, ws[i].arrived, ws[i].log[j])
                                           && ws[i].log[j].n >= c.n
                                           && (!a.countsRefused ==> ws[i].log[j].n == c.n + j)
  {
    FreshWatches(a, c);
    forall i | 0 <= i < |ws|
      ensures Watchful(a, c, ws[i])
    {
      hide Watchful, Step, Aead.Lawful;
      RunWatches(a, c, ws, events, i);
    }
    hide Step;
  }

  lemma FreshWatches(a: Aead, c: Cipher)
    ensures Watchful(a, c, Fresh(c))
  {
  }
}
