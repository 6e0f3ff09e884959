/**
  The circular peer scans with an exclusion set and a bounded number of retries: the joint is
  chosen by the entry (protocol/proxy/proxy.go), the relay by the exit (network/gossip/pubsub.go).
*/
module PeerChoice {
  import opened Basics
  import opened Relay

  // ----- one scan -----

  /** int64 addition of a small step: values from 2^63 on wrap to negative ones. */
  function Wrapped(x: int): int {
    if x >= TWO_63 then x - TWO_64 else x
  }

  /** Go's remainder, which takes the sign of its first operand. */
  function GoRem(x: int, n: nat): int
    requires n > 0
  {
    if x >= 0 then x % n else -((-x) % n)
  }

  /** The index that the j-th turn of a scan from `start` looks at. */
  function IndexAt(start: nat, j: nat, n: nat): int
    requires n > 0
  {
    GoRem(Wrapped(start + j), n)
  }

  datatype Scan = Offers(id: Peer) | NoneLeft | Panics

  /** The scan from turn j on: the first peer that is not excluded; a negative index panics. */
  function ScanFrom(peers: seq<Peer>, start: nat, excluded: set<Peer>, j: nat): Scan
    decreases |peers| - j
  {
    if j >= |peers| then NoneLeft
    else
      var k := IndexAt(start, j + 1, |peers|);
      if k < 0 || k >= |peers| then Panics
      else if peers[k] !in excluded then Offers(peers[k])
      else ScanFrom(peers, start, excluded, j + 1)
  }

  method ScanPeers(peers: seq<Peer>, start: nat, excluded: set<Peer>) returns (r: Scan)
    requires start < TWO_63 && |peers| < TWO_63
    ensures r == ScanFrom(peers, start, excluded, 0)
  {
    hide GoRem;
    var startIndex: int := start;
    for j := 0 to |peers|
      invariant startIndex == Wrapped(start + j)
      invariant ScanFrom(peers, start, excluded, j) == ScanFrom(peers, start, excluded, 0)
    {
      startIndex := if startIndex + 1 == TWO_63 then -TWO_63 else startIndex + 1;
      var index := GoRem(startIndex, |peers|);
      if index < 0 || index >= |peers| {
        return Panics;
      }
      if peers[index] !in excluded {
        return Offers(peers[index]);
      }
    }
    return NoneLeft;
  }

  /** No turn of a scan meets a negative index. */
  predicate Safe(start: nat, n: nat) {
    n > 0 ==> forall j :: 1 <= j <= n ==> IndexAt(start, j, n) >= 0
  }

  /** Exactly when: the counter does not wrap, or there is one peer, or it wraps on the last turn onto index 0. */
  lemma SafeIff(start: nat, n: nat)
    requires start < TWO_63 && n < TWO_63
    ensures Safe(start, n) <==> start + n < TWO_63 || n == 1 || (start + n == TWO_63 && TWO_63 % n == 0)
  {
    if n > 1 && start + n > TWO_63 {
      var j := TWO_63 - start;
      assert IndexAt(start, j, n) == -(TWO_63 % n);
      assert IndexAt(start, j + 1, n) == -((TWO_63 - 1) % n);
      NeighboursDiffer(TWO_63, n);
    } else if n > 1 && start + n == TWO_63 {
      assert IndexAt(start, n, n) == -(TWO_63 % n);
    }
  }

  lemma NeighboursDiffer(x: nat, n: nat)
    requires n > 1 && x > 0
    ensures x % n != 0 || (x - 1) % n != 0
  {
    if x % n == 0 {
      var q := x / n;
      assert x - 1 == (q - 1) * n + (n - 1);
      assert q > 0;
      ModUnique(x - 1, n, q - 1, n - 1);
    }
  }

  /** A number has one remainder. */
  lemma ModUnique(x: nat, n: nat, q: int, k: nat)
    requires k < n && x == q * n + k
    ensures x % n == k
  {
    var (d, r) := (x / n - q, x % n);
    assert x == x / n * n + r;
    assert d * n == k - r by {
      assert (x / n - q) * n == x / n * n - q * n;
    }
    if d > 0 {
      MulFar(d, n);
    } else if d < 0 {
      MulFar(-d, n);
      NegMul(d, n);
    }
  }

  lemma NegMul(d: int, n: nat)
    ensures (-d) * n == -(d * n)
  {
  }

  lemma MulFar(d: int, n: nat)
    requires d >= 1
    ensures d * n >= n
  {
  }

  /** Where turn j looks, in unbounded arithmetic. */
  function Around(start: nat, j: nat, n: nat): (k: nat)
    requires n > 0
    ensures k < n
  {
    (start + j) % n
  }

  /** A safe scan looks where unbounded arithmetic would. */
  lemma SafeIndex(start: nat, n: nat, j: nat)
    requires start < TWO_63 && n < TWO_63 && Safe(start, n) && 1 <= j <= n
    ensures IndexAt(start, j, n) == Around(start, j, n)
  {
    SafeIff(start, n);
  }

  /** Every index is looked at. */
  lemma EveryIndexIsVisited(start: nat, n: nat, k: nat) returns (j: nat)
    requires k < n
    ensures 1 <= j <= n && Around(start, j, n) == k
  {
    var (q, r) := (start / n, start % n);
    assert start == q * n + r;
    if k > r {
      j := k - r;
      ModUnique(start + j, n, q, k);
    } else {
      j := k + n - r;
      assert (q + 1) * n == q * n + n;
      ModUnique(start + j, n, q + 1, k);
    }
  }

  predicate Eligible(peers: seq<Peer>, excluded: set<Peer>, id: Peer) {
    id in peers && id !in excluded
  }

  /** Turns from j on find an eligible peer if one of them looks at it. */
  lemma {:induction false} ScanFinds(peers: seq<Peer>, start: nat, excluded: set<Peer>, j: nat)
    requires start < TWO_63 && |peers| < TWO_63 && Safe(start, |peers|) && j <= |peers|
    ensures var r := ScanFrom(peers, start, excluded, j);
            && !r.Panics? && (r.Offers? ==> Eligible(peers, excluded, r.id))
            && (r.NoneLeft? ==> forall i :: j < i <= |peers| ==> peers[Around(start, i, |peers|)] in excluded)
    decreases |peers| - j
  {
    hide Around, IndexAt, Safe;
    if j < |peers| {
      SafeIndex(start, |peers|, j + 1);
      ScanFinds(peers, start, excluded, j + 1);
    }
  }

  /** A safe scan offers an eligible peer exactly when there is one. */
  lemma ScanIsComplete(peers: seq<Peer>, start: nat, excluded: set<Peer>)
    requires start < TWO_63 && |peers| < TWO_63 && Safe(start, |peers|)
    ensures var r := ScanFrom(peers, start, excluded, 0);
            && !r.Panics? && (r.Offers? ==> Eligible(peers, excluded, r.id))
            && (r.Offers? <==> exists id :: Eligible(peers, excluded, id))
  {
    ScanFinds(peers, start, excluded, 0);
    if ScanFrom(peers, start, excluded, 0).NoneLeft? {
      forall id | id in peers
        ensures id in excluded
      {
        var k :| 0 <= k < |peers| && peers[k] == id;
        hide Around;
        var i := EveryIndexIsVisited(start, |peers|, k);
        assert peers[Around(start, i, |peers|)] in excluded;
      }
    }
  }

  /** The turns after j and before i look at excluded peers. */
  predicate PassesOver(peers: seq<Peer>, start: nat, excluded: set<Peer>, j: nat, i: nat) {
    |peers| > 0 ==>
      forall k {:trigger IndexAt(start, k, |peers|)} :: j < k < i ==>
        var index := IndexAt(start, k, |peers|); 0 <= index < |peers| && peers[index] in excluded
  }

  predicate CrashesAt(peers: seq<Peer>, start: nat, excluded: set<Peer>, j: nat, i: nat) {
    |peers| > 0 && j < i <= |peers| && IndexAt(start, i, |peers|) < 0 && PassesOver(peers, start, excluded, j, i)
  }

  /** A turn after j meets a negative index, and every turn before it an excluded peer. */
  predicate Crashes(peers: seq<Peer>, start: nat, excluded: set<Peer>, j: nat) {
    exists i :: j < i <= |peers| && CrashesAt(peers, start, excluded, j, i)
  }

  /** For every list, start and exclusion set: when a scan panics, exactly. */
  lemma {:induction false} PanicsIff(peers: seq<Peer>, start: nat, excluded: set<Peer>, j: nat)
    requires start < TWO_63 && |peers| < TWO_63 && j <= |peers|
    ensures ScanFrom(peers, start, excluded, j).Panics? <==> Crashes(peers, start, excluded, j)
    decreases |peers| - j
  {
    if j < |peers| {
      IndexBelow(start, j + 1, |peers|);
      hide IndexAt;
      PanicsIff(peers, start, excluded, j + 1);
      CrashesNext(peers, start, excluded, j);
    }
  }

  /** A crash later than the next turn. */
  lemma CrashesLater(peers: seq<Peer>, start: nat, excluded: set<Peer>, j: nat, i: nat)
    requires j + 1 < i <= |peers|
    ensures var index := IndexAt(start, j + 1, |peers|);
            CrashesAt(peers, start, excluded, j, i) <==>
            0 <= index < |peers| && peers[index] in excluded && CrashesAt(peers, start, excluded, j + 1, i)
  {
    hide IndexAt;
  }

  /** Crashing from turn j on: at the next turn, or later if that one is passed over. */
  lemma CrashesNext(peers: seq<Peer>, start: nat, excluded: set<Peer>, j: nat)
    requires start < TWO_63 && j < |peers| < TWO_63
    ensures var index := IndexAt(start, j + 1, |peers|);
            Crashes(peers, start, excluded, j) <==>
            index < 0 || (index < |peers| && peers[index] in excluded && Crashes(peers, start, excluded, j + 1))
  {
    hide IndexAt, PassesOver;
    PassesNone(peers, start, excluded, j);
    var next := j + 1;
    if i :| j < i <= |peers| && CrashesAt(peers, start, excluded, j, i) {
      if i > j + 1 { CrashesLater(peers, start, excluded, j, i); }
    }
    if IndexAt(start, j + 1, |peers|) < 0 {
      assert CrashesAt(peers, start, excluded, j, j + 1);
    } else if i :| next < i <= |peers| && CrashesAt(peers, start, excluded, next, i) {
      CrashesLater(peers, start, excluded, j, i);
    }
  }

  lemma PassesNone(peers: seq<Peer>, start: nat, excluded: set<Peer>, j: nat)
    ensures PassesOver(peers, start, excluded, j, j + 1)
  {
    hide IndexAt;
  }

  /** A scan that comes to its end has met no negative index. */
  lemma {:induction false} EndIsSafe(peers: seq<Peer>, start: nat, excluded: set<Peer>, j: nat)
    requires j <= |peers| && ScanFrom(peers, start, excluded, j).NoneLeft?
    ensures forall i :: j < i <= |peers| ==> IndexAt(start, i, |peers|) >= 0
    decreases |peers| - j
  {
    if j < |peers| {
      hide IndexAt;
      EndIsSafe(peers, start, excluded, j + 1);
    }
  }

  lemma {:induction false} OfferIsEligible(peers: seq<Peer>, start: nat, excluded: set<Peer>, j: nat)
    ensures var r := ScanFrom(peers, start, excluded, j); r.Offers? ==> Eligible(peers, excluded, r.id)
    decreases |peers| - j
  {
    if j < |peers| {
      hide IndexAt;
      OfferIsEligible(peers, start, excluded, j + 1);
    }
  }

  /**
    Every scan: it panics exactly when it crashes; otherwise it offers an eligible peer exactly
    when there is one.
  */
  lemma ScanOutcome(peers: seq<Peer>, start: nat, excluded: set<Peer>)
    requires start < TWO_63 && |peers| < TWO_63
    ensures var r := ScanFrom(peers, start, excluded, 0);
            && (r.Panics? <==> Crashes(peers, start, excluded, 0))
            && (r.Offers? ==> Eligible(peers, excluded, r.id))
            && (!r.Panics? ==> (r.Offers? <==> exists id :: Eligible(peers, excluded, id)))
  {
    PanicsIff(peers, start, excluded, 0);
    OfferIsEligible(peers, start, excluded, 0);
    if ScanFrom(peers, start, excluded, 0).NoneLeft? {
      EndIsSafe(peers, start, excluded, 0);
      ScanIsComplete(peers, start, excluded);
    }
  }

  /** With an eligible peer in the list, it is offered exactly when the scan does not crash before it. */
  lemma EligibleIsOffered(peers: seq<Peer>, start: nat, excluded: set<Peer>, id: Peer)
    requires start < TWO_63 && |peers| < TWO_63 && Eligible(peers, excluded, id)
    ensures ScanFrom(peers, start, excluded, 0).Offers? <==> !Crashes(peers, start, excluded, 0)
  {
    ScanOutcome(peers, start, excluded);
  }

  /** It does crash with eligible peers left: the last start there is, three peers, nobody excluded. */
  lemma LastStartCrashes()
    ensures Eligible([1, 2, 3], {}, 1) && ScanFrom([1, 2, 3], TWO_63 - 1, {}, 0) == Panics
  {
    assert IndexAt(TWO_63 - 1, 1, 3) == -(TWO_63 % 3) == -2;
  }

  /** A safe start never crashes; an unsafe one does when everyone is excluded. */
  lemma SafeIffNeverCrashes(peers: seq<Peer>, start: nat)
    requires start < TWO_63 && |peers| < TWO_63
    ensures Safe(start, |peers|) <==> forall excluded: set<Peer> :: !Crashes(peers, start, excluded, 0)
  {
    hide IndexAt;
    if !Safe(start, |peers|) {
      var i :| 1 <= i <= |peers| && IndexAt(start, i, |peers|) < 0;
      var all := set x | x in peers;
      var first := FirstNegative(peers, start, i);
      assert CrashesAt(peers, start, all, 0, first);
      assert Crashes(peers, start, all, 0);
    }
  }

  lemma {:induction false} FirstNegative(peers: seq<Peer>, start: nat, i: nat) returns (first: nat)
    requires 1 <= i <= |peers| && IndexAt(start, i, |peers|) < 0
    ensures 1 <= first <= i && IndexAt(start, first, |peers|) < 0
    ensures PassesOver(peers, start, set x | x in peers, 0, first)
    decreases i
  {
    hide IndexAt;
    if k :| 1 <= k < i && IndexAt(start, k, |peers|) < 0 {
      first := FirstNegative(peers, start, k);
    } else {
      first := i;
      forall k | 0 < k < i
        ensures var index := IndexAt(start, k, |peers|); 0 <= index < |peers| && peers[index] in set x | x in peers
      {
        IndexBelow(start, k, |peers|);
      }
    }
  }

  lemma IndexBelow(start: nat, j: nat, n: nat)
    requires n > 0
    ensures IndexAt(start, j, n) < n
  {
  }

  // ----- the retries -----

  /** The outcome of asking a peer to take the role. */
  datatype Answer = Accepted | Refused | Aborted

  datatype Choice = Found(id: Option<Peer>) | NotFound | Broken | Crashed

  /** All peers offered so far. */
  function Tried(offers: seq<Option<Peer>>): set<Peer> {
    set i | 0 <= i < |offers| && offers[i].Some? :: offers[i].value
  }

  /**
    Offer i is an eligible peer that has not been tried, if there is one; otherwise it is the
    previous candidate again (nobody, on the first attempt).
  */
  predicate OfferFits(peers: seq<Peer>, excluded: set<Peer>, offers: seq<Option<Peer>>, i: nat)
    requires i < |offers|
  {
    var gone := excluded + Tried(offers[..i]);
    if exists id :: id in peers && id !in gone then offers[i].Some? && Eligible(peers, gone, offers[i].value)
    else offers[i] == if i == 0 then None else offers[i - 1]
  }

  predicate AllFit(peers: seq<Peer>, excluded: set<Peer>, offers: seq<Option<Peer>>) {
    forall i :: 0 <= i < |offers| ==> OfferFits(peers, excluded, offers, i)
  }

  /** What a scan that does not crash finds is the right next offer. */
  lemma NextFits(peers: seq<Peer>, start: nat, excluded: set<Peer>, offers: seq<Option<Peer>>)
    requires start < TWO_63 && |peers| < TWO_63 && AllFit(peers, excluded, offers)
    requires !ScanFrom(peers, start, excluded + Tried(offers), 0).Panics?
    ensures var r := ScanFrom(peers, start, excluded + Tried(offers), 0);
            var last := if offers == [] then None else offers[|offers| - 1];
            AllFit(peers, excluded, offers + [if r.Offers? then Some(r.id) else last])
  {
    hide ScanFrom, Crashes;
    ScanOutcome(peers, start, excluded + Tried(offers));
    var r := ScanFrom(peers, start, excluded + Tried(offers), 0);
    var more := offers + [if r.Offers? then Some(r.id) else if offers == [] then None else offers[|offers| - 1]];
    forall i | 0 <= i < |more|
      ensures OfferFits(peers, excluded, more, i)
    {
      if i < |offers| {
        assert OfferFits(peers, excluded, offers, i);
        assert more[..i] == offers[..i];
      } else {
        assert more[..i] == offers;
        assert forall id | id in peers && id !in excluded + Tried(offers) ::
            Eligible(peers, excluded + Tried(offers), id);
      }
    }
  }

  /** The scan of attempt i crashes. */
  predicate AttemptCrashes(peers: seq<Peer>, excluded: set<Peer>, starts: seq<nat>, offers: seq<Option<Peer>>, i: nat)
    requires i < |starts| && i <= |offers|
  {
    Crashes(peers, starts[i], excluded + Tried(offers[..i]), 0)
  }

  lemma AttemptKept(peers: seq<Peer>, excluded: set<Peer>, starts: seq<nat>, offers: seq<Option<Peer>>,
                    c: Option<Peer>, k: nat)
    requires k < |starts| && k <= |offers|
    ensures AttemptCrashes(peers, excluded, starts, offers + [c], k)
        <==> AttemptCrashes(peers, excluded, starts, offers, k)
  {
    assert (offers + [c])[..k] == offers[..k];
  }

  /**
    The selection loop. `starts` are the random starting points and `answers` the outcomes of the
    exchanges. Every offer that is made fits; the loop crashes exactly when the scan of the next
    attempt does.
  */
  method ChoosePeer(peers: seq<Peer>, excluded: set<Peer>, starts: seq<nat>, answers: seq<Answer>, retryTimes: nat)
    returns (choice: Choice, offers: seq<Option<Peer>>)
    requires |starts| == |answers| == retryTimes && |peers| < TWO_63
    requires forall i :: 0 <= i < |starts| ==> starts[i] < TWO_63
    ensures |offers| <= retryTimes && AllFit(peers, excluded, offers)
    ensures forall i :: 0 <= i < |offers| ==> !AttemptCrashes(peers, excluded, starts, offers, i)
    ensures choice.Crashed? ==> |offers| < retryTimes && AttemptCrashes(peers, excluded, starts, offers, |offers|)
    ensures choice.Crashed? ==> forall i :: 0 <= i < |offers| ==> answers[i] == Refused
    ensures choice.Found? ==> |offers| > 0 && choice.id == offers[|offers| - 1] && answers[|offers| - 1] == Accepted
    ensures choice.NotFound? ==> |offers| == retryTimes
    ensures choice.Broken? ==> |offers| > 0 && answers[|offers| - 1] == Aborted
    ensures !choice.Crashed? ==>
              forall i :: 0 <= i < |offers| && answers[i] != Refused ==>
                            i == |offers| - 1 && choice == if answers[i] == Accepted then Found(offers[i]) else Broken
  {
    hide AllFit, Crashes, Tried, ScanFrom;
    var invalid: set<Peer> := {};
    var candidate: Option<Peer> := None;
    offers := [];
    NothingTried(peers, excluded);
    for i := 0 to retryTimes
      invariant |offers| == i && candidate == if i == 0 then None else offers[i - 1]
      invariant invalid == Tried(offers) && AllFit(peers, excluded, offers)
      invariant forall k :: 0 <= k < i ==> answers[k] == Refused
      invariant forall k :: 0 <= k < i ==> !AttemptCrashes(peers, excluded, starts, offers, k)
    {
      var scan := ScanPeers(peers, starts[i], excluded + invalid);
      PanicsIff(peers, starts[i], excluded + invalid, 0);
      assert offers[..i] == offers;
      if scan.Panics? {
        return Crashed, offers;
      }
      NextFits(peers, starts[i], excluded, offers);
      if scan.Offers? {
        candidate := Some(scan.id);
      }
      TriedMore(offers, candidate);
      assert !AttemptCrashes(peers, excluded, starts, offers, i);
      forall k | 0 <= k <= i {
        AttemptKept(peers, excluded, starts, offers, candidate, k);
      }
      offers := offers + [candidate];
      if answers[i] == Aborted {
        return Broken, offers;
      }
      if answers[i] == Accepted {
        return Found(candidate), offers;
      }
      if candidate.Some? {
        invalid := invalid + {candidate.value};
      }
    }
    return NotFound, offers;
  }

  lemma NothingTried(peers: seq<Peer>, excluded: set<Peer>)
    ensures Tried([]) == {} && AllFit(peers, excluded, [])
  {
  }

  lemma TriedMore(offers: seq<Option<Peer>>, c: Option<Peer>)
    ensures Tried(offers + [c]) == Tried(offers) + if c.Some? then {c.value} else {}
  {
    var more := offers + [c];
    forall x | x in Tried(offers) || (c.Some? && x == c.value)
      ensures x in Tried(more)
    {
      if x in Tried(offers) {
        var i :| 0 <= i < |offers| && offers[i].Some? && offers[i].value == x;
        assert more[i] == offers[i];
      } else {
        assert more[|offers|] == c;
      }
    }
  }

  /** While eligible peers remain, the offers are pairwise distinct and never an excluded peer. */
  lemma OffersAreDistinct(peers: seq<Peer>, excluded: set<Peer>, offers: seq<Option<Peer>>, i: nat, j: nat)
    requires i < j < |offers| && OfferFits(peers, excluded, offers, j)
    requires exists id :: id in peers && id !in excluded + Tried(offers[..j])
    ensures offers[j].Some? && offers[j] != offers[i] && offers[j].value !in excluded && offers[j].value in peers
  {
    assert offers[..j][i] == offers[i];
  }
}
