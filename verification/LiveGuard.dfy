/**
The live guard: cumulative counts of a device read over ssh, each read known only to have
been taken within `t - u .. t + u`, and the decision to trip. The watch keeps a pruned
window and one instant per busy key; the specification speaks of the whole history since
the device last started, and of the true instants of the reads.
*/
module LiveGuard {
  import opened Options

  datatype Key = Uncounted | Request(port: nat, peer: nat, op: nat)

  datatype Flow = Flow(fpp: nat, packets: nat)

  datatype Sample = Sample(
    t: real, u: real, requests: map<Key, nat>, flowRequests: map<nat, nat>, arcReads: map<nat, nat>,
    tx: map<nat, Flow>, rx: map<nat, Flow>, polls: nat)

  datatype Trip =
    | Requests(key: Key, since: real)
    | ArcReads(peer: nat, more: int)
    | FlowRequests(peer: nat, more: int)
    | Packets(sent: bool, flow: nat)

  const REQUEST_RATE: real := 20.0
  const SUSTAIN_S: real := 3.0
  const FLOW_SPAN_S: real := 5.0
  const FLOW_REQUESTS_MAX: int := 1
  const ARC_READS_MAX: int := 1
  const PACKET_MARGIN: real := 1.25

  function Count<K>(m: map<K, nat>, k: K): nat {
    if k in m then m[k] else 0
  }

  function FlowOf(m: map<nat, Flow>, f: nat): Flow {
    if f in m then m[f] else Flow(0, 0)
  }

  /** Some count of `a` is lower in `b`: the device started again. */
  predicate WentBack(a: Sample, b: Sample) {
    || (exists k :: k in a.requests && Count(b.requests, k) < a.requests[k])
    || (exists p :: p in a.flowRequests && Count(b.flowRequests, p) < a.flowRequests[p])
    || (exists p :: p in a.arcReads && Count(b.arcReads, p) < a.arcReads[p])
    || (exists f :: f in a.tx && FlowOf(b.tx, f).packets < a.tx[f].packets)
    || (exists f :: f in a.rx && FlowOf(b.rx, f).packets < a.rx[f].packets)
    || b.polls < a.polls
  }

  /** No count fell: what one read counted, a later one counts at least as often. */
  ghost predicate AtMost<K(!new)>(a: map<K, nat>, b: map<K, nat>) {
    forall k :: k in a ==> a[k] <= if k in b then b[k] else 0
  }

  ghost predicate FlowsAtMost(a: map<nat, Flow>, b: map<nat, Flow>) {
    forall f :: f in a ==> a[f].packets <= if f in b then b[f].packets else 0
  }

  ghost predicate NoneLower(a: Sample, b: Sample) {
    && AtMost(a.requests, b.requests) && AtMost(a.flowRequests, b.flowRequests) && AtMost(a.arcReads, b.arcReads)
    && FlowsAtMost(a.tx, b.tx) && FlowsAtMost(a.rx, b.rx) && a.polls <= b.polls
  }

  lemma WentBackIs(a: Sample, b: Sample)
    ensures WentBack(a, b) <==> !NoneLower(a, b)
  {
  }

  /** The longest the two reads can be apart. */
  function Width(a: Sample, s: Sample): real {
    (s.t + s.u) - (a.t - a.u)
  }

  // ----- the decisions over the whole history since a start

  function Rise(a: Sample, s: Sample, key: Key): int {
    Count(s.requests, key) - Count(a.requests, key)
  }

  /** The key's count rose above the rate even over the longest time. */
  predicate Above(a: Sample, s: Sample, key: Key) {
    Rise(a, s, key) as real > REQUEST_RATE * Width(a, s)
  }

  /** Where the unbroken stretch of above-rate intervals that ends at the newest sample
      began; the newest sample itself when the last interval was not above. */
  ghost function Start(run: seq<Sample>, key: Key): (i: nat)
    requires run != []
    ensures i < |run|
  {
    var n := |run| - 1;
    if n > 0 && Above(run[n - 1], run[n], key) then Start(run[..n], key) else n
  }

  ghost predicate Sustained(run: seq<Sample>, key: Key)
    requires run != []
  {
    Start(run, key) < |run| - 1 && run[|run| - 1].t - run[Start(run, key)].t >= SUSTAIN_S
  }

  predicate Near(a: Sample, s: Sample) {
    Width(a, s) <= FLOW_SPAN_S
  }

  /** The peer's count rose by more than `most`. */
  predicate Rose(before: map<nat, nat>, now: map<nat, nat>, most: int, peer: nat) {
    peer in now && now[peer] - Count(before, peer) > most
  }

  predicate ManyArcReads(a: Sample, s: Sample, peer: nat) {
    Rose(a.arcReads, s.arcReads, ARC_READS_MAX, peer)
  }

  predicate ManyFlowRequests(a: Sample, s: Sample, peer: nat) {
    Rose(a.flowRequests, s.flowRequests, FLOW_REQUESTS_MAX, peer)
  }

  /** The newest sample asked too often, seen from some sample of the history. */
  ghost predicate Bursting(run: seq<Sample>)
    requires run != []
  {
    var s := run[|run| - 1];
    exists i, peer :: 0 <= i < |run| - 1 && Near(run[i], s)
      && (ManyArcReads(run[i], s, peer) || ManyFlowRequests(run[i], s, peer))
  }

  /** Someone asked too often between the two samples. */
  predicate Asked(a: Sample, s: Sample) {
    || (exists peer :: peer in s.arcReads && ManyArcReads(a, s, peer))
    || (exists peer :: peer in s.flowRequests && ManyFlowRequests(a, s, peer))
  }

  /** What comparing the two samples names: the first peer with too many directory reads and
      how many there were, or, when there is none, the first with too many flow requests. */
  ghost predicate Names(trip: Trip, a: Sample, s: Sample) {
    match trip
    case ArcReads(peer, more) =>
      && ManyArcReads(a, s, peer) && more == s.arcReads[peer] - Count(a.arcReads, peer)
      && forall p :: 0 <= p < peer ==> !ManyArcReads(a, s, p)
    case FlowRequests(peer, more) =>
      && ManyFlowRequests(a, s, peer) && more == s.flowRequests[peer] - Count(a.flowRequests, peer)
      && (forall p :: !ManyArcReads(a, s, p))
      && forall p :: 0 <= p < peer ==> !ManyFlowRequests(a, s, p)
    case _ => false
  }

  /** The trip the whole history calls for: what the earliest sample within 5 s from which
      someone asked too often names. */
  ghost predicate FirstBurst(run: seq<Sample>, trip: Trip)
    requires run != []
  {
    var s := run[|run| - 1];
    exists i :: 0 <= i < |run| - 1 && Near(run[i], s) && Names(trip, run[i], s)
                && forall j :: 0 <= j < i && Near(run[j], s) ==> !Asked(run[j], s)
  }

  /** Frames per packet of the more lenient reading of a slot that changed. */
  function LeastFpp(a: Flow, b: Flow): (n: nat)
    ensures n >= 1
  {
    if b.fpp == 0 then (if a.fpp == 0 then 1 else a.fpp)
    else if a.fpp == 0 || b.fpp <= a.fpp then b.fpp else a.fpp
  }

  function PerSecond(rate: nat, before: Flow, now: Flow): real {
    rate as real / LeastFpp(before, now) as real
  }

  predicate TooManyPackets(rate: nat, before: Flow, now: Flow, width: real) {
    (now.packets - before.packets) as real > PACKET_MARGIN * PerSecond(rate, before, now) * width
  }

  predicate FlowTrips(rate: nat, a: map<nat, Flow>, s: map<nat, Flow>, f: nat, width: real) {
    f in s && TooManyPackets(rate, FlowOf(a, f), s[f], width)
  }

  /** The history with one more sample: dropped when no time lies between, begun again when
      a count went back. */
  ghost function Extended(run: seq<Sample>, s: Sample): seq<Sample> {
    if run == [] then [s]
    else
      var a := run[|run| - 1];
      if Width(a, s) <= 0.0 then run else if WentBack(a, s) then [s] else run + [s]
  }

  /** The sample was compared with the one before it. */
  ghost predicate Compared(run: seq<Sample>, s: Sample) {
    run != [] && Width(run[|run| - 1], s) > 0.0 && !WentBack(run[|run| - 1], s)
  }

  // ----- the pruned window and the start instants

  function Kept(recent: seq<Sample>, s: Sample): seq<Sample> {
    if recent == [] then []
    else (if Near(recent[0], s) then [recent[0]] else []) + Kept(recent[1..], s)
  }

  /** The newest sample, after every other of the history its window can still reach. */
  ghost function Window(run: seq<Sample>): seq<Sample>
    requires run != []
  {
    Kept(run[..|run| - 1], run[|run| - 1]) + [run[|run| - 1]]
  }

  lemma {:induction false} KeptSplits(x: seq<Sample>, y: seq<Sample>, s: Sample)
    ensures Kept(x + y, s) == Kept(x, s) + Kept(y, s)
  {
    hide *;
    KeptNone(s);
    if x == [] {
      assert x + y == y && [] + Kept(y, s) == Kept(y, s);
    } else {
      var rest, first := x[1..], if Near(x[0], s) then [x[0]] else [];
      KeptSplits(rest, y, s);
      KeptFirst(x, s);
      KeptFirst(x + y, s);
      assert (x + y)[1..] == rest + y && (x + y)[0] == x[0];
      assert first + Kept(rest, s) + Kept(y, s) == first + (Kept(rest, s) + Kept(y, s));
    }
  }

  lemma KeptNone(s: Sample)
    ensures Kept([], s) == []
  {
  }

  lemma KeptFirst(x: seq<Sample>, s: Sample)
    requires x != []
    ensures Kept(x, s) == (if Near(x[0], s) then [x[0]] else []) + Kept(x[1..], s)
  {
    hide Near;
  }

  /** Pruning twice with a later read end is pruning once. */
  lemma {:induction false} KeptAgain(x: seq<Sample>, a: Sample, s: Sample)
    requires a.t + a.u <= s.t + s.u
    ensures Kept(Kept(x, a), s) == Kept(x, s)
  {
    if x != [] {
      KeptAgain(x[1..], a, s);
      if Near(x[0], a) {
        KeptSplits([x[0]], Kept(x[1..], a), s);
        assert Kept([x[0]], s) == if Near(x[0], s) then [x[0]] else [];
      } else {
        assert Kept(x, a) == Kept(x[1..], a);
      }
    }
  }

  lemma WindowGrows(run: seq<Sample>, s: Sample)
    requires run != [] && run[|run| - 1].t + run[|run| - 1].u <= s.t + s.u
    ensures Kept(Window(run), s) + [s] == Window(run + [s])
  {
    var n := |run| - 1;
    var a := run[n];
    KeptSplits(Kept(run[..n], a), [a], s);
    KeptAgain(run[..n], a, s);
    KeptSplits(run[..n], [a], s);
    assert run[..n] + [a] == run;
    assert (run + [s])[..n + 1] == run;
  }

  /** A sample is in the window exactly when it is near and in the history. */
  lemma {:induction false} KeptMembers(x: seq<Sample>, s: Sample, a: Sample)
    ensures a in Kept(x, s) <==> a in x && Near(a, s)
  {
    if x != [] {
      KeptMembers(x[1..], s, a);
      assert a in x <==> a == x[0] || a in x[1..];
    }
  }

  /** Where a kept sample was: every near sample before it was kept before it. */
  lemma {:induction false} KeptFrom(x: seq<Sample>, s: Sample, j: nat) returns (i: nat)
    requires j < |Kept(x, s)|
    ensures i < |x| && x[i] == Kept(x, s)[j] && Near(x[i], s)
    ensures forall k :: 0 <= k < i && Near(x[k], s) ==> x[k] in Kept(x, s)[..j]
  {
    var rest := Kept(x[1..], s);
    KeptFirst(x, s);
    hide Kept, Near;
    if Near(x[0], s) && j == 0 {
      return 0;
    }
    var l := if Near(x[0], s) then j - 1 else j;
    i := KeptFrom(x[1..], s, l);
    forall k | 0 <= k < i + 1 && Near(x[k], s) ensures x[k] in Kept(x, s)[..j] {
      if k > 0 {
        assert x[k] == x[1..][k - 1];
        var n :| 0 <= n < l && rest[..l][n] == x[k];
        assert Kept(x, s)[..j][if Near(x[0], s) then n + 1 else n] == x[k];
      } else {
        assert Kept(x, s)[..j][0] == x[0];
      }
    }
    i := i + 1;
  }

  lemma StartGrows(run: seq<Sample>, s: Sample, key: Key)
    requires run != []
    ensures Start(run + [s], key) == if Above(run[|run| - 1], s, key) then Start(run, key) else |run|
  {
    assert (run + [s])[..|run|] == run;
  }

  /** `Start` is the first sample of the longest unbroken above-rate stretch. */
  lemma {:induction false} StartIsUnbroken(run: seq<Sample>, key: Key)
    requires run != []
    ensures forall j :: Start(run, key) <= j < |run| - 1 ==> Above(run[j], run[j + 1], key)
    ensures Start(run, key) > 0 ==> !Above(run[Start(run, key) - 1], run[Start(run, key)], key)
  {
    var n := |run| - 1;
    if n > 0 && Above(run[n - 1], run[n], key) {
      StartIsUnbroken(run[..n], key);
      var i := Start(run, key);
      forall j | i <= j < n ensures Above(run[j], run[j + 1], key) {
        if j < n - 1 {
          assert Above(run[..n][j], run[..n][j + 1], key);
        }
      }
    }
  }

  ghost predicate OverIs(over: map<Key, real>, run: seq<Sample>, key: Key)
    requires run != []
  {
    && (key in over <==> Start(run, key) < |run| - 1)
    && (key in over ==> over[key] == run[Start(run, key)].t)
  }

  lemma BusyIsCounted(run: seq<Sample>, key: Key)
    requires run != [] && Timed(run) && Start(run, key) < |run| - 1
    ensures key in run[|run| - 1].requests
  {
    var n := |run| - 1;
    assert Above(run[n - 1], run[n], key);
    assert Width(run[n - 1], run[n]) > 0.0;
  }

  /** Time passes between any two samples of a history, and no count goes back. */
  ghost predicate Timed(run: seq<Sample>) {
    && (forall i :: 0 <= i < |run| ==> run[i].u >= 0.0)
    && (forall i :: 0 < i < |run| ==> Width(run[i - 1], run[i]) > 0.0 && !WentBack(run[i - 1], run[i]))
  }

  lemma ExtendedIsTimed(run: seq<Sample>, s: Sample)
    requires Timed(run) && s.u >= 0.0
    ensures Timed(Extended(run, s))
  {
    hide WentBack;
  }

  /** Counts never fall along a history, so a rise between any two of its samples is what
      the device sent in between. */
  lemma {:induction false} CountsNeverFall(run: seq<Sample>, i: nat, j: nat, key: Key, peer: nat)
    requires Timed(run) && i <= j < |run|
    ensures Rise(run[i], run[j], key) >= 0
    ensures Count(run[i].arcReads, peer) <= Count(run[j].arcReads, peer)
    ensures Count(run[i].flowRequests, peer) <= Count(run[j].flowRequests, peer)
    decreases j - i
  {
    if i < j {
      CountsNeverFall(run, i, j - 1, key, peer);
      assert !WentBack(run[j - 1], run[j]);
    }
  }

  // ----- a trip is never an artefact of the reads' timing

  /** The reads' true instants: each anywhere within its `t - u .. t + u`. */
  ghost predicate Instants(run: seq<Sample>, at: seq<real>) {
    |at| == |run| && forall i :: 0 <= i < |run| ==> run[i].t - run[i].u <= at[i] <= run[i].t + run[i].u
  }

  /** Over an unbroken stretch the count rose by more than 20 for each second between the
      reads' middles, and between their true instants. */
  lemma {:induction false} StretchRises(run: seq<Sample>, at: seq<real>, key: Key, i: nat, n: nat)
    requires Timed(run) && Instants(run, at) && i < n < |run|
    requires forall j :: i <= j < n ==> Above(run[j], run[j + 1], key)
    ensures Rise(run[i], run[n], key) as real > REQUEST_RATE * (run[n].t - run[i].t)
    ensures Rise(run[i], run[n], key) as real > REQUEST_RATE * (at[n] - at[i])
    decreases n - i
  {
    assert Above(run[n - 1], run[n], key);
    if i < n - 1 {
      StretchRises(run, at, key, i, n - 1);
    }
  }

  /** A requests trip: over every interval of the stretch the count rose by more than 20
      per true second, over the whole of it too, and by more than 60. */
  lemma RequestsTripIsReal(run: seq<Sample>, at: seq<real>, key: Key)
    requires run != [] && Timed(run) && Instants(run, at) && Sustained(run, key)
    ensures var i, n := Start(run, key), |run| - 1;
            && i < n && Rise(run[i], run[n], key) > 60
            && Rise(run[i], run[n], key) as real > REQUEST_RATE * (at[n] - at[i])
            && forall j :: i <= j < n ==> Rise(run[j], run[j + 1], key) as real > REQUEST_RATE * (at[j + 1] - at[j])
  {
    var i, n := Start(run, key), |run| - 1;
    StartIsUnbroken(run, key);
    StretchRises(run, at, key, i, n);
    hide Start, Timed, Rise;
    forall j | i <= j < n ensures Rise(run[j], run[j + 1], key) as real > REQUEST_RATE * (at[j + 1] - at[j]) {
      assert Above(run[j], run[j + 1], key);
    }
  }

  /** A directory read trip: the peer it names read two or more times, exactly as often as it
      says, within a true span of 5 s. A flow request trip: the same of flow requests. */
  lemma BurstIsReal(run: seq<Sample>, at: seq<real>, trip: Trip)
    requires run != [] && Instants(run, at) && FirstBurst(run, trip)
    ensures trip.ArcReads? || trip.FlowRequests?
    ensures var n := |run| - 1;
            exists i ::
              && 0 <= i < n && at[n] - at[i] <= 5.0 && trip.more >= 2
              && (trip.ArcReads? ==> Count(run[n].arcReads, trip.peer) - Count(run[i].arcReads, trip.peer) == trip.more)
              && (trip.FlowRequests? ==>
                    Count(run[n].flowRequests, trip.peer) - Count(run[i].flowRequests, trip.peer) == trip.more)
  {
    var n := |run| - 1;
    var i :| 0 <= i < n && Near(run[i], run[n]) && Names(trip, run[i], run[n]);
    assert at[n] - at[i] <= 5.0;
  }

  lemma Shorter(c: real, x: real, y: real)
    requires c >= 0.0 && x <= y
    ensures c * x <= c * y
  {
    assert c * (y - x) >= 0.0;
  }

  lemma PerSecondPositive(rate: nat, before: Flow, now: Flow)
    ensures PerSecond(rate, before, now) >= 0.0
  {
  }

  /** A packets trip: more than 1.25 times the flow's packets per true second. */
  lemma PacketsTripIsReal(rate: nat, run: seq<Sample>, at: seq<real>, before: Flow, now: Flow)
    requires |run| >= 2 && Instants(run, at)
    requires TooManyPackets(rate, before, now, Width(run[|run| - 2], run[|run| - 1]))
    ensures (now.packets - before.packets) as real >
            PACKET_MARGIN * PerSecond(rate, before, now) * (at[|run| - 1] - at[|run| - 2])
  {
    var n := |run| - 1;
    PerSecondPositive(rate, before, now);
    hide PerSecond;
    Shorter(PACKET_MARGIN * PerSecond(rate, before, now), at[n] - at[n - 1], Width(run[n - 1], run[n]));
  }

  lemma QuotientAbove(x: real, w: real, limit: real)
    requires w > 0.0
    ensures x / w > limit <==> x > limit * w
  {
    assert x == (x / w) * w;
    Scale(x / w, limit, w);
  }

  lemma Scale(p: real, q: real, w: real)
    requires w > 0.0
    ensures p > q <==> p * w > q * w
  {
    if p > q {
      assert (p - q) * w > 0.0;
    } else {
      assert (q - p) * w >= 0.0;
    }
  }

  // ----- the watch

  /** A listing of a set, each member once. */
  ghost predicate Lists(keys: seq<Key>, all: set<Key>) {
    && (forall key :: key in keys <==> key in all)
    && (forall i, j :: 0 <= i < j < |keys| ==> keys[i] != keys[j])
  }

  /** The source's sorting by text, of which only that it lists is used. */
  ghost predicate Sorts(order: set<Key> -> seq<Key>) {
    forall all :: Lists(order(all), all)
  }

  /** The first key in that order whose rate is sustained. */
  ghost predicate FirstSustained(run: seq<Sample>, keys: seq<Key>, key: Key)
    requires run != []
  {
    exists i :: 0 <= i < |keys| && keys[i] == key && Sustained(run, key)
                && forall j :: 0 <= j < i ==> !Sustained(run, keys[j])
  }

  /** A requests trip names that key, and when its stretch began. */
  ghost predicate NamesKey(run: seq<Sample>, keys: seq<Key>, trip: Trip)
    requires run != [] && trip.Requests?
  {
    FirstSustained(run, keys, trip.key) && trip.since == run[Start(run, trip.key)].t
  }

  /** The lowest flow over its limit in one direction. */
  ghost predicate FirstFlow(rate: nat, a: map<nat, Flow>, s: map<nat, Flow>, f: nat, width: real) {
    FlowTrips(rate, a, s, f, width) && forall g :: 0 <= g < f ==> !FlowTrips(rate, a, s, g, width)
  }

  /** A packets trip names the lowest flow over its limit, those sent before those received. */
  ghost predicate NamesFlow(rate: nat, a: Sample, s: Sample, trip: Trip, width: real)
    requires trip.Packets?
  {
    if trip.sent then FirstFlow(rate, a.tx, s.tx, trip.flow, width)
    else (forall f :: !FlowTrips(rate, a.tx, s.tx, f, width)) && FirstFlow(rate, a.rx, s.rx, trip.flow, width)
  }

  ghost predicate NoFlow(rate: nat, a: Sample, s: Sample, width: real) {
    forall f :: !FlowTrips(rate, a.tx, s.tx, f, width) && !FlowTrips(rate, a.rx, s.rx, f, width)
  }

  class Watch {
    const rate: nat
    /** How keys are ordered when several are visited. */
    const order: set<Key> -> seq<Key>
    var last: Option<Sample>
    var over: map<Key, real>
    var recent: seq<Sample>
    var restarts: nat
    /** Every sample compared since the device last started. */
    ghost var run: seq<Sample>

    ghost predicate Valid()
      reads this
    {
      && Sorts(order)
      && Timed(run)
      && last == (if run == [] then None else Some(run[|run| - 1]))
      && (run != [] ==> recent == Window(run) && forall key :: OverIs(over, run, key))
      && (run == [] ==> over == map[])
    }

    constructor (rate: nat, order: set<Key> -> seq<Key>)
      requires Sorts(order)
      ensures Valid() && run == [] && this.rate == rate && this.order == order && restarts == 0
    {
      this.rate, this.order := rate, order;
      last, over, recent, restarts := None, map[], [], 0;
      run := [];
    }

    /** One sample after another, each read ended no earlier than the last. Without a trip
        the window and the instants are again those of the whole history; a trip comes
        exactly when the whole history calls for one. */
    method Feed(s: Sample) returns (trip: Option<Trip>)
      requires Valid() && s.u >= 0.0
      requires last.Some? ==> last.value.t + last.value.u <= s.t + s.u
      modifies this
      ensures run == Extended(old(run), s)
      ensures last == Some(run[|run| - 1])
      ensures restarts == old(restarts) + if old(run) != [] && Width(old(run)[|old(run)| - 1], s) > 0.0
                                            && WentBack(old(run)[|old(run)| - 1], s) then 1 else 0
      ensures old(run) != [] ==>
                var a := old(run)[|old(run)| - 1];
                && (s.t + s.u <= a.t - a.u ==> run == old(run) && restarts == old(restarts) && trip.None?)
                && (s.t + s.u > a.t - a.u && NoneLower(a, s) ==> run == old(run) + [s] && restarts == old(restarts))
                && (s.t + s.u > a.t - a.u && !NoneLower(a, s) ==>
                      run == [s] && restarts == old(restarts) + 1 && trip.None?)
      ensures !(trip.Some? && trip.value.Requests?) ==> Valid()
      ensures trip.Some? ==> Compared(old(run), s)
      ensures Compared(old(run), s) ==>
                Answers(rate, order, old(run), run, s, trip)
    {
      hide WentBack, Window, Start, FlowTrips, ManyArcReads, ManyFlowRequests, NoneLower, FirstBurst, NamesKey,
        NamesFlow, NoFlow, Sustained, Bursting, Timed, OverIs;
      ExtendedIsTimed(run, s);
      if last.Some? {
        WentBackIs(last.value, s);
      }
      if last.Some? && s.t + s.u <= last.value.t - last.value.u {
        return None;
      }
      var before := last;
      last := Some(s);
      if before.None? || WentBack(before.value, s) {
        if before.Some? {
          restarts := restarts + 1;
        }
        over, recent := map[], [s];
        run := [s];
        Alone(s);
        return None;
      }
      var a := before.value;
      var width := (s.t + s.u) - (a.t - a.u);
      trip := CheckRequests(a, s, width);
      run := run + [s];
      if trip.Some? {
        return;
      }
      trip := CheckFlows(s);
      if trip.Some? {
        return;
      }
      trip := CheckPackets(a, s, width);
    }

    /** The next read of a sequence of them. */
    method FeedNext(samples: seq<Sample>, n: nat) returns (trip: Option<Trip>)
      requires Valid() && n < |samples| && samples[n].u >= 0.0 && EndsBy(last, samples, n)
      requires forall i :: 0 < i < |samples| ==>
                 samples[i - 1].t + samples[i - 1].u <= samples[i].t + samples[i].u && samples[i - 1].t <= samples[i].t
      modifies this
      ensures trip.None? ==> Valid() && EndsBy(last, samples, n + 1)
      ensures Running(samples) && old(run) == samples[..n] ==>
                && run == samples[..n + 1]
                && if n == 0 then trip.None? else trip.Some? <==> Alarming(rate, samples, n)
    {
      hide *;
      ghost var was, s := run, samples[n];
      ValidLast(this);
      EndsOn(was, last, samples, n);
      trip := Feed(samples[n]);
      if Running(samples) && was == samples[..n] {
        KeepsRunning(samples, n, was, run);
        if n > 0 {
          TripIsCalled(rate, order, was, run, samples[n], trip);
          if Alarming(rate, samples, n) {
            AlarmIsSeen(rate, samples, n);
          }
          if trip.Some? {
            SeenIsAlarm(rate, samples, n);
          }
        } else {
          NotCompared(samples[n]);
        }
      }
    }

    /** The requests' rates: every key's start instant is brought up to date, until one has
        been above the rate for 3 s. */
    method CheckRequests(a: Sample, s: Sample, width: real) returns (trip: Option<Trip>)
      requires run != [] && Timed(run + [s]) && a == run[|run| - 1] && width == Width(a, s) && Sorts(order)
      requires forall key :: OverIs(over, run, key)
      modifies this`over
      ensures trip.Some? ==>
                trip.value.Requests? && NamesKey(run + [s], order(a.requests.Keys + s.requests.Keys), trip.value)
      ensures trip.None? ==> forall key :: OverIs(over, run + [s], key) && !Sustained(run + [s], key)
    {
      hide Timed, OverIs, Sustained, Width, Followed, SameBut, Sorts;
      var keys := order(a.requests.Keys + s.requests.Keys);
      OrderLists(order, a.requests.Keys + s.requests.Keys);
      NoneFollowed(over, run, s);
      ghost var pending := a.requests.Keys + s.requests.Keys;
      for i := 0 to |keys|
        invariant Followed(over, run, s, pending)
        invariant forall key :: key in pending <==> exists j :: i <= j < |keys| && keys[j] == key
        invariant forall j :: 0 <= j < i ==> !Sustained(run + [s], keys[j])
      {
        ghost var was := over;
        StillUnfollowed(over, run, s, pending, keys[i]);
        var since := Follow(a, s, width, keys[i]);
        if since.Some? {
          return Some(Requests(keys[i], since.value));
        }
        OneMoreFollowed(was, over, run, s, pending, keys[i]);
        OneLess(keys, i, pending);
        pending := pending - {keys[i]};
      }
      assert pending == {};
      AllFollowed(over, run, s);
      return None;
    }

    /** One key's instant brought up to date; since when, once that is 3 s ago. */
    method Follow(a: Sample, s: Sample, width: real, key: Key) returns (sustained: Option<real>)
      requires run != [] && Timed(run + [s]) && a == run[|run| - 1] && width == Width(a, s)
      requires OverIs(over, run, key)
      modifies this`over
      ensures OverIs(over, run + [s], key)
      ensures SameBut(old(over), over, key)
      ensures sustained.Some? <==> Sustained(run + [s], key)
      ensures sustained.Some? ==> sustained.value == (run + [s])[Start(run + [s], key)].t
    {
      hide Timed, Start, OverIs, Sustained, Speed, Rise, Width;
      AboveIs(run, s, key);
      if Speed(Rise(a, s, key), width) <= REQUEST_RATE {
        KeyBelow(over, run, s, key);
        over := over - {key};
        return None;
      }
      var since := if key in over then over[key] else a.t;
      KeyAbove(over, run, s, key, since);
      over := over[key := since];
      return if s.t - since >= SUSTAIN_S then Some(since) else None;
    }

    /** Flow requests and directory reads within 5 s, against every sample kept. */
    method CheckFlows(s: Sample) returns (trip: Option<Trip>)
      requires |run| >= 2 && s == run[|run| - 1] && recent == Window(run[..|run| - 1])
      requires run[|run| - 2].t + run[|run| - 2].u <= s.t + s.u
      modifies this`recent
      ensures recent == Window(run)
      ensures trip.Some? <==> Bursting(run)
      ensures trip.Some? ==> (trip.value.ArcReads? || trip.value.FlowRequests?) && FirstBurst(run, trip.value)
    {
      hide ManyArcReads, ManyFlowRequests, Near, Names, FirstBurst;
      ghost var n := |run| - 1;
      WindowGrows(run[..n], s);
      assert run[..n] + [s] == run;
      recent := Kept(recent, s) + [s];
      WindowSpeaks(run);
      hide Window, Bursting;
      var i := 0;
      while i < |recent| - 1
        invariant 0 <= i <= |recent| - 1
        invariant recent == Window(run)
        invariant forall j :: 0 <= j < i ==> !Asked(recent[j], s)
      {
        var a := recent[i];
        trip := Compare(a, s);
        if trip.Some? {
          WindowNames(run, i, trip.value);
          return;
        }
        i := i + 1;
      }
      return None;
    }

    /** Packets per second of each flow: those sent first, then those received, in the order of
        the flows. */
    method CheckPackets(a: Sample, s: Sample, width: real) returns (trip: Option<Trip>)
      requires width > 0.0
      ensures trip.Some? ==> trip.value.Packets?
      ensures trip.Some? ==> NamesFlow(rate, a, s, trip.value, width)
      ensures trip.None? ==> NoFlow(rate, a, s, width)
    {
      hide FlowTrips;
      var tx := FirstOver(rate, a.tx, s.tx, width);
      if tx.Some? {
        return Some(Packets(true, tx.value));
      }
      var rx := FirstOver(rate, a.rx, s.rx, width);
      return if rx.Some? then Some(Packets(false, rx.value)) else None;
    }
  }

  lemma Alone(s: Sample)
    ensures Window([s]) == [s] && forall key :: OverIs(map[], [s], key)
  {
  }

  lemma KeyBelow(over: map<Key, real>, run: seq<Sample>, s: Sample, key: Key)
    requires run != [] && Start(run + [s], key) == |run|
    ensures OverIs(over - {key}, run + [s], key) && !Sustained(run + [s], key)
  {
    hide Start;
  }

  lemma KeyAbove(over: map<Key, real>, run: seq<Sample>, s: Sample, key: Key, since: real)
    requires run != [] && OverIs(over, run, key) && Start(run + [s], key) == Start(run, key)
    requires since == if key in over then over[key] else run[|run| - 1].t
    ensures OverIs(over[key := since], run + [s], key) && since == (run + [s])[Start(run + [s], key)].t
    ensures Sustained(run + [s], key) <==> s.t - since >= SUSTAIN_S
  {
    hide Start;
    assert (run + [s])[Start(run, key)] == run[Start(run, key)];
  }

  /** The maps agree on every other key. */
  ghost predicate SameBut(over: map<Key, real>, later: map<Key, real>, key: Key) {
    forall k :: k != key ==> (k in over <==> k in later) && (k in over ==> over[k] == later[k])
  }

  lemma OthersKept(over: map<Key, real>, later: map<Key, real>, run: seq<Sample>, key: Key)
    requires run != []
    requires SameBut(over, later, key)
    ensures forall k :: k != key ==> (OverIs(over, run, k) <==> OverIs(later, run, k))
  {
    hide Start;
  }

  function Speed(rise: int, width: real): real
    requires width > 0.0
  {
    rise as real / width
  }

  lemma SpeedIsAbove(a: Sample, s: Sample, key: Key)
    requires Width(a, s) > 0.0
    ensures Speed(Rise(a, s, key), Width(a, s)) > REQUEST_RATE <==> Above(a, s, key)
  {
    QuotientAbove(Rise(a, s, key) as real, Width(a, s), REQUEST_RATE);
  }

  lemma AboveIs(run: seq<Sample>, s: Sample, key: Key)
    requires run != [] && Timed(run + [s])
    ensures var a := run[|run| - 1];
            && Width(a, s) > 0.0
            && Start(run + [s], key) ==
               if Speed(Rise(a, s, key), Width(a, s)) > REQUEST_RATE then Start(run, key) else |run|
  {
    hide Timed, Start, Speed, Width, Above, Rise;
    LastInterval(run, s);
    StartGrows(run, s, key);
    SpeedIsAbove(run[|run| - 1], s, key);
  }

  lemma LastInterval(run: seq<Sample>, s: Sample)
    requires run != [] && Timed(run + [s])
    ensures Width(run[|run| - 1], s) > 0.0 && Timed(run)
  {
    hide WentBack, Width;
    var grown := run + [s];
    assert grown[|run| - 1] == run[|run| - 1] && grown[|run|] == s;
    assert forall i :: 0 <= i < |run| ==> grown[i] == run[i];
  }

  /** A key that neither read counts is not above the rate. */
  lemma Uncounting(over: map<Key, real>, run: seq<Sample>, s: Sample, key: Key)
    requires run != [] && Timed(run + [s]) && key !in run[|run| - 1].requests && key !in s.requests
    requires OverIs(over, run, key)
    ensures OverIs(over, run + [s], key) && !Sustained(run + [s], key)
  {
    hide Timed, Start;
    LastInterval(run, s);
    if Start(run, key) < |run| - 1 {
      BusyIsCounted(run, key);
    }
    if Start(run + [s], key) < |run| {
      BusyIsCounted(run + [s], key);
    }
  }

  /** Every counted key outside `pending` is brought up to date and not sustained. */
  ghost predicate Followed(over: map<Key, real>, run: seq<Sample>, s: Sample, pending: set<Key>)
    requires run != []
  {
    var all := run[|run| - 1].requests.Keys + s.requests.Keys;
    && pending <= all
    && (forall key :: key in all - pending ==> OverIs(over, run + [s], key) && !Sustained(run + [s], key))
    && (forall key :: key !in all - pending ==> OverIs(over, run, key))
  }

  lemma OrderLists(order: set<Key> -> seq<Key>, all: set<Key>)
    requires Sorts(order)
    ensures Lists(order(all), all)
  {
  }

  lemma OneLess(keys: seq<Key>, i: nat, pending: set<Key>)
    requires i < |keys| && forall j, k :: 0 <= j < k < |keys| ==> keys[j] != keys[k]
    requires forall key :: key in pending <==> exists j :: i <= j < |keys| && keys[j] == key
    ensures forall key :: key in pending - {keys[i]} <==> exists j :: i + 1 <= j < |keys| && keys[j] == key
  {
    forall key ensures key in pending - {keys[i]} <==> exists j :: i + 1 <= j < |keys| && keys[j] == key {
      if key in pending && key != keys[i] {
        var j :| i <= j < |keys| && keys[j] == key;
      }
    }
  }

  lemma NoneFollowed(over: map<Key, real>, run: seq<Sample>, s: Sample)
    requires run != [] && forall key :: OverIs(over, run, key)
    ensures Followed(over, run, s, run[|run| - 1].requests.Keys + s.requests.Keys)
  {
    hide OverIs, Sustained;
  }

  lemma StillUnfollowed(over: map<Key, real>, run: seq<Sample>, s: Sample, pending: set<Key>, key: Key)
    requires run != [] && Followed(over, run, s, pending) && key in pending
    ensures OverIs(over, run, key)
  {
    hide OverIs, Sustained;
  }

  lemma OneMoreFollowed(was: map<Key, real>, over: map<Key, real>, run: seq<Sample>, s: Sample, pending: set<Key>,
                        key: Key)
    requires run != [] && Followed(was, run, s, pending) && key in pending
    requires OverIs(over, run + [s], key) && !Sustained(run + [s], key)
    requires SameBut(was, over, key)
    ensures Followed(over, run, s, pending - {key})
  {
    OthersKept(was, over, run, key);
    OthersKept(was, over, run + [s], key);
    hide OverIs, Sustained;
  }

  lemma AllFollowed(over: map<Key, real>, run: seq<Sample>, s: Sample)
    requires run != [] && Timed(run + [s]) && Followed(over, run, s, {})
    ensures forall key :: OverIs(over, run + [s], key) && !Sustained(run + [s], key)
  {
    hide OverIs, Sustained, Timed;
    forall key ensures OverIs(over, run + [s], key) && !Sustained(run + [s], key) {
      if key !in run[|run| - 1].requests.Keys + s.requests.Keys {
        Uncounting(over, run, s, key);
      }
    }
  }

  /** Looking through the window is looking through the whole history. */
  lemma WindowSpeaks(run: seq<Sample>)
    requires run != []
    ensures var w := Window(run);
            Bursting(run) <==> exists j :: 0 <= j < |w| - 1 && Asked(w[j], run[|run| - 1])
  {
    var n := |run| - 1;
    var s := run[n];
    var kept := Kept(run[..n], s);
    var w := Window(run);
    assert w == kept + [s];
    if Bursting(run) {
      var i, peer :| 0 <= i < n && Near(run[i], s)
        && (ManyArcReads(run[i], s, peer) || ManyFlowRequests(run[i], s, peer));
      assert run[i] == run[..n][i];
      KeptMembers(run[..n], s, run[i]);
      var j :| 0 <= j < |kept| && kept[j] == run[i];
      assert Asked(w[j], s);
    }
    if j :| 0 <= j < |w| - 1 && Asked(w[j], s) {
      assert w[j] == kept[j];
      KeptMembers(run[..n], s, kept[j]);
      var i :| 0 <= i < n && run[..n][i] == kept[j];
      var peer :| ManyArcReads(run[i], s, peer) || ManyFlowRequests(run[i], s, peer);
      assert Near(run[i], s);
    }
  }

  /** The first of the window that names a trip is the first of the whole history. */
  lemma WindowNames(run: seq<Sample>, j: nat, trip: Trip)
    requires run != [] && j < |Window(run)| - 1 && Names(trip, Window(run)[j], run[|run| - 1])
    requires forall k :: 0 <= k < j ==> !Asked(Window(run)[k], run[|run| - 1])
    ensures FirstBurst(run, trip)
  {
    var n := |run| - 1;
    var s := run[n];
    var kept := Kept(run[..n], s);
    assert Window(run) == kept + [s];
    hide Window, Names, Asked, Near;
    var i := KeptFrom(run[..n], s, j);
    assert run[..n][i] == run[i];
    forall k | 0 <= k < i && Near(run[k], s) ensures !Asked(run[k], s) {
      assert run[..n][k] == run[k];
      var l :| 0 <= l < j && kept[..j][l] == run[k];
      assert Window(run)[l] == run[k];
    }
  }

  /** One kept sample against the newest: its directory reads, then its flow requests, the
      peers in order. */
  method Compare(a: Sample, s: Sample) returns (trip: Option<Trip>)
    ensures trip.Some? <==> Asked(a, s)
    ensures trip.Some? ==> (trip.value.ArcReads? || trip.value.FlowRequests?) && Names(trip.value, a, s)
  {
    assert forall p :: Rose(a.arcReads, s.arcReads, ARC_READS_MAX, p) <==> ManyArcReads(a, s, p);
    assert forall p :: Rose(a.flowRequests, s.flowRequests, FLOW_REQUESTS_MAX, p) <==> ManyFlowRequests(a, s, p);
    var reader := FirstToRise(a.arcReads, s.arcReads, ARC_READS_MAX);
    if reader.Some? {
      var p := reader.value;
      return Some(ArcReads(p, s.arcReads[p] - Count(a.arcReads, p)));
    }
    var asker := FirstToRise(a.flowRequests, s.flowRequests, FLOW_REQUESTS_MAX);
    if asker.Some? {
      var p := asker.value;
      return Some(FlowRequests(p, s.flowRequests[p] - Count(a.flowRequests, p)));
    }
    return None;
  }

  /** The lowest peer whose count rose by more than `most`, if there is one. */
  method FirstToRise(before: map<nat, nat>, now: map<nat, nat>, most: int) returns (r: Option<nat>)
    ensures r.Some? ==> Rose(before, now, most, r.value) && forall p :: 0 <= p < r.value ==> !Rose(before, now, most, p)
    ensures r.None? ==> forall p :: !Rose(before, now, most, p)
  {
    var peers := now.Keys;
    while peers != {}
      invariant peers <= now.Keys
      invariant forall p :: p in now && p !in peers ==> !Rose(before, now, most, p)
      invariant forall p, q :: p in now && p !in peers && q in peers ==> p < q
      decreases |peers|
    {
      var p := Least(peers);
      peers := peers - {p};
      if Rose(before, now, most, p) {
        return Some(p);
      }
    }
    return None;
  }

  /** The lowest flow over its limit, if there is one. */
  method FirstOver(rate: nat, before: map<nat, Flow>, now: map<nat, Flow>, width: real) returns (r: Option<nat>)
    requires width > 0.0
    ensures r.Some? ==> FirstFlow(rate, before, now, r.value, width)
    ensures r.None? ==> forall f :: !FlowTrips(rate, before, now, f, width)
  {
    hide PerSecond;
    var flows := now.Keys;
    while flows != {}
      invariant flows <= now.Keys
      invariant forall f :: f in now && f !in flows ==> !FlowTrips(rate, before, now, f, width)
      invariant forall f, g :: f in now && f !in flows && g in flows ==> f < g
      decreases |flows|
    {
      var f := Least(flows);
      flows := flows - {f};
      var was := FlowOf(before, f);
      var limit := PACKET_MARGIN * PerSecond(rate, was, now[f]);
      QuotientAbove((now[f].packets - was.packets) as real, width, limit);
      if (now[f].packets - was.packets) as real / width > limit {
        return Some(f);
      }
    }
    return None;
  }

  method Least(all: set<nat>) returns (m: nat)
    requires all != {}
    ensures m in all && forall x :: x in all ==> m <= x
  {
    m :| m in all;
    var left := all - {m};
    while left != {}
      invariant left <= all && m in all && forall x :: x in all && x !in left ==> m <= x
      decreases |left|
    {
      var x :| x in left;
      left := left - {x};
      if x < m {
        m := x;
      }
    }
  }

  // ----- nothing is missed

  /** Reads of a device that keeps running: time passes and no count falls. */
  ghost predicate Running(samples: seq<Sample>) {
    forall i :: 0 < i < |samples| ==> Follows(samples[i - 1], samples[i])
  }

  ghost predicate Follows(a: Sample, s: Sample) {
    s.t + s.u > a.t - a.u && NoneLower(a, s)
  }

  /** How often the key was counted. */
  function Requested(s: Sample, key: Key): nat {
    if key in s.requests then s.requests[key] else 0
  }

  /** More than 20 a second between two reads, even if they were as far apart as they can be. */
  predicate Busy(a: Sample, s: Sample, key: Key) {
    (Requested(s, key) - Requested(a, key)) as real > 20.0 * ((s.t + s.u) - (a.t - a.u))
  }

  /** Busy over every interval of 3 s or more. */
  ghost predicate Hot(samples: seq<Sample>, key: Key, i: nat, n: nat) {
    && i < n < |samples| && samples[n].t - samples[i].t >= 3.0
    && forall j :: i <= j < n ==> Busy(samples[j], samples[j + 1], key)
  }

  /** Two or more directory reads, or flow requests, of one peer within 5 s at most. */
  ghost predicate Rushed(samples: seq<Sample>, i: nat, n: nat, peer: nat) {
    && i < n < |samples| && (samples[n].t + samples[n].u) - (samples[i].t - samples[i].u) <= 5.0
    && (Rises(samples[i].arcReads, samples[n].arcReads, peer)
        || Rises(samples[i].flowRequests, samples[n].flowRequests, peer))
  }

  predicate Rises(a: map<nat, nat>, b: map<nat, nat>, peer: nat) {
    peer in b && b[peer] >= 2 + if peer in a then a[peer] else 0
  }

  /** The packets a flow may send in that time, and a quarter more. */
  function Allowed(rate: nat, fpp: nat, width: real): real
    requires fpp > 0
  {
    1.25 * (rate as real / fpp as real) * width
  }

  /** The packet sizes a flow may have had between two reads; 1 when none is known. */
  predicate MayBe(fpp: nat, was: Flow, now: Flow) {
    fpp > 0 && (fpp == now.fpp || fpp == was.fpp || (now.fpp == 0 && was.fpp == 0 && fpp == 1))
  }

  /** More packets than that, whichever of its sizes they had. */
  ghost predicate Flooded(rate: nat, a: map<nat, Flow>, b: map<nat, Flow>, f: nat, width: real) {
    f in b &&
    var was := if f in a then a[f] else Flow(0, 0);
    forall fpp :: MayBe(fpp, was, b[f]) ==> (b[f].packets - was.packets) as real > Allowed(rate, fpp, width)
  }

  /** What the guard must not let pass. */
  ghost predicate Alarming(rate: nat, samples: seq<Sample>, n: nat)
    requires 0 < n < |samples|
  {
    var a, s := samples[n - 1], samples[n];
    var width := (s.t + s.u) - (a.t - a.u);
    || (exists key, i: nat :: Hot(samples, key, i, n))
    || (exists i: nat, peer: nat :: Rushed(samples, i, n, peer))
    || (exists f: nat :: Flooded(rate, a.tx, s.tx, f, width) || Flooded(rate, a.rx, s.rx, f, width))
  }

  /** A longer unbroken stretch starts no later. */
  lemma {:induction false} StartNoLater(run: seq<Sample>, key: Key, i: nat)
    requires i < |run| && forall j :: i <= j < |run| - 1 ==> Above(run[j], run[j + 1], key)
    ensures Start(run, key) <= i
  {
    StartIsUnbroken(run, key);
  }

  lemma {:induction false} TimesPass(run: seq<Sample>, i: nat, n: nat)
    requires i <= n < |run| && forall k :: 0 < k < |run| ==> run[k - 1].t <= run[k].t
    ensures run[i].t <= run[n].t
    decreases n
  {
    if i < n {
      TimesPass(run, i, n - 1);
    }
  }

  lemma BusyIsAbove(a: Sample, s: Sample, key: Key)
    ensures Busy(a, s, key) <==> Above(a, s, key)
  {
  }

  lemma HotIsSustained(samples: seq<Sample>, key: Key, i: nat, n: nat)
    requires Hot(samples, key, i, n) && forall k :: 0 < k < |samples| ==> samples[k - 1].t <= samples[k].t
    ensures Sustained(samples[..n + 1], key)
  {
    var run := samples[..n + 1];
    forall j | i <= j < n ensures Above(run[j], run[j + 1], key) {
      assert Busy(samples[j], samples[j + 1], key);
      BusyIsAbove(run[j], run[j + 1], key);
    }
    hide Above, Busy, Start;
    StartNoLater(run, key, i);
    TimesPass(samples, Start(run, key), i);
  }

  lemma BurstAt(run: seq<Sample>, i: nat, peer: nat)
    requires i < |run| - 1 && Near(run[i], run[|run| - 1])
    requires ManyArcReads(run[i], run[|run| - 1], peer) || ManyFlowRequests(run[i], run[|run| - 1], peer)
    ensures Bursting(run)
  {
    hide Near, ManyArcReads, ManyFlowRequests;
  }

  lemma RushedIsBursting(samples: seq<Sample>, i: nat, n: nat, peer: nat)
    requires Rushed(samples, i, n, peer)
    ensures Bursting(samples[..n + 1])
  {
    var run := samples[..n + 1];
    var s := run[|run| - 1];
    assert run[i] == samples[i] && s == samples[n];
    BurstAt(run, i, peer);
  }

  lemma FloodedTrips(rate: nat, a: map<nat, Flow>, b: map<nat, Flow>, f: nat, width: real)
    requires Flooded(rate, a, b, f, width)
    ensures FlowTrips(rate, a, b, f, width)
  {
    var was := if f in a then a[f] else Flow(0, 0);
    var fpp := LeastFpp(was, b[f]);
    assert MayBe(fpp, was, b[f]);
    assert Allowed(rate, fpp, width) == PACKET_MARGIN * PerSecond(rate, was, b[f]) * width;
  }

  lemma SustainedIsHot(samples: seq<Sample>, key: Key, n: nat)
    requires n < |samples| && Sustained(samples[..n + 1], key)
    ensures Hot(samples, key, Start(samples[..n + 1], key), n)
  {
    var run := samples[..n + 1];
    var i := Start(run, key);
    StartIsUnbroken(run, key);
    hide Start;
    forall j | i <= j < n ensures Busy(samples[j], samples[j + 1], key) {
      assert Above(run[j], run[j + 1], key);
      BusyIsAbove(run[j], run[j + 1], key);
    }
  }

  lemma BurstingIsRushed(samples: seq<Sample>, n: nat) returns (i: nat, peer: nat)
    requires n < |samples| && Bursting(samples[..n + 1])
    ensures Rushed(samples, i, n, peer)
  {
    var run := samples[..n + 1];
    i, peer :| i < |run| - 1 && Near(run[i], run[|run| - 1])
               && (ManyArcReads(run[i], run[|run| - 1], peer) || ManyFlowRequests(run[i], run[|run| - 1], peer));
  }

  lemma TripIsFlooded(rate: nat, a: map<nat, Flow>, b: map<nat, Flow>, f: nat, width: real)
    requires FlowTrips(rate, a, b, f, width) && width > 0.0
    ensures Flooded(rate, a, b, f, width)
  {
    var was := if f in a then a[f] else Flow(0, 0);
    var least := LeastFpp(was, b[f]);
    assert Allowed(rate, least, width) == PACKET_MARGIN * PerSecond(rate, was, b[f]) * width;
    forall fpp | MayBe(fpp, was, b[f]) ensures (b[f].packets - was.packets) as real > Allowed(rate, fpp, width) {
      assert least <= fpp;
      LargerAllowsLess(rate, least, fpp, width);
    }
  }

  lemma LargerAllowsLess(rate: nat, small: nat, large: nat, width: real)
    requires 0 < small <= large && width > 0.0
    ensures Allowed(rate, large, width) <= Allowed(rate, small, width)
  {
    var x, y := rate as real / large as real, rate as real / small as real;
    DividedByMore(rate as real, small as real, large as real);
    Shorter(1.25, x, y);
    Shorter(width, 1.25 * x, 1.25 * y);
  }

  lemma DividedByMore(r: real, s: real, l: real)
    requires r >= 0.0 && 0.0 < s <= l
    ensures r / l <= r / s
  {
    var x, y := r / l, r / s;
    assert x * l == r && y * s == r && x >= 0.0;
    Shorter(x, s, l);
    if y < x {
      Scale(x, y, s);
    }
  }

  /** What makes the guard trip on a device that keeps running. */
  ghost predicate Called(rate: nat, run: seq<Sample>, a: Sample, s: Sample)
    requires run != []
  {
    (exists key :: Sustained(run, key)) || Bursting(run) || !NoFlow(rate, a, s, Width(a, s))
  }

  lemma SeenIsAlarm(rate: nat, samples: seq<Sample>, n: nat)
    requires 0 < n < |samples| && Width(samples[n - 1], samples[n]) > 0.0
    requires Called(rate, samples[..n + 1], samples[n - 1], samples[n])
    ensures Alarming(rate, samples, n)
  {
    var run, a, s := samples[..n + 1], samples[n - 1], samples[n];
    hide Hot, Rushed, Flooded, Sustained, Bursting, FlowTrips;
    if key :| Sustained(run, key) {
      SustainedIsHot(samples, key, n);
    } else if Bursting(run) {
      var i, peer := BurstingIsRushed(samples, n);
    } else {
      var f: nat :| FlowTrips(rate, a.tx, s.tx, f, Width(a, s)) || FlowTrips(rate, a.rx, s.rx, f, Width(a, s));
      if FlowTrips(rate, a.tx, s.tx, f, Width(a, s)) {
        TripIsFlooded(rate, a.tx, s.tx, f, Width(a, s));
      } else {
        TripIsFlooded(rate, a.rx, s.rx, f, Width(a, s));
      }
    }
  }

  /** What is alarming to a device that keeps running, `Feed` trips on. */
  lemma AlarmIsSeen(rate: nat, samples: seq<Sample>, n: nat)
    requires 0 < n < |samples| && Alarming(rate, samples, n)
    requires forall k :: 0 < k < |samples| ==> samples[k - 1].t <= samples[k].t
    ensures Called(rate, samples[..n + 1], samples[n - 1], samples[n])
  {
    var a, s := samples[n - 1], samples[n];
    hide Hot, Rushed, Flooded, Sustained, Bursting, FlowTrips;
    if key, i: nat :| Hot(samples, key, i, n) {
      HotIsSustained(samples, key, i, n);
    } else if i: nat, peer: nat :| Rushed(samples, i, n, peer) {
      RushedIsBursting(samples, i, n, peer);
    } else {
      var f: nat :| Flooded(rate, a.tx, s.tx, f, Width(a, s)) || Flooded(rate, a.rx, s.rx, f, Width(a, s));
      if Flooded(rate, a.tx, s.tx, f, Width(a, s)) {
        FloodedTrips(rate, a.tx, s.tx, f, Width(a, s));
      } else {
        FloodedTrips(rate, a.rx, s.rx, f, Width(a, s));
      }
    }
  }

  /** The guard's loop: one read after another until the first trip. Of a device that keeps
      running it trips exactly at the first read that shows something alarming. */
  method Guard(rate: nat, order: set<Key> -> seq<Key>, samples: seq<Sample>) returns (trip: Option<Trip>, fed: nat)
    requires Sorts(order) && forall i :: 0 <= i < |samples| ==> samples[i].u >= 0.0
    requires forall i :: 0 < i < |samples| ==>
               samples[i - 1].t + samples[i - 1].u <= samples[i].t + samples[i].u && samples[i - 1].t <= samples[i].t
    ensures fed <= |samples| && (trip.None? ==> fed == |samples|) && (trip.Some? ==> fed > 0)
    ensures Running(samples) ==>
              && (forall n :: 0 < n < (if trip.Some? then fed - 1 else fed) ==> !Alarming(rate, samples, n))
              && (trip.Some? ==> fed > 1 && Alarming(rate, samples, fed - 1))
  {
    hide *;
    var watch := new Watch(rate, order);
    fed := 0;
    trip := None;
    NoReads(samples);
    while fed < |samples| && trip.None?
      invariant fed <= |samples| && watch.rate == rate && watch.order == order
      invariant trip.Some? ==> fed > 0
      invariant trip.None? ==> watch.Valid() && EndsBy(watch.last, samples, fed)
      invariant Running(samples) && trip.None? ==> watch.run == samples[..fed]
      invariant Running(samples) ==>
                  && (forall n :: 0 < n < (if trip.Some? then fed - 1 else fed) ==> !Alarming(rate, samples, n))
                  && (trip.Some? ==> fed > 1 && Alarming(rate, samples, fed - 1))
    {
      trip := watch.FeedNext(samples, fed);
      fed := fed + 1;
    }
  }

  lemma NoReads(samples: seq<Sample>)
    ensures EndsBy(None, samples, 0)
  {
  }

  lemma ValidLast(w: Watch)
    requires w.Valid()
    ensures w.last == if w.run == [] then None else Some(w.run[|w.run| - 1])
  {
  }

  lemma EndsOn(run: seq<Sample>, last: Option<Sample>, samples: seq<Sample>, n: nat)
    requires n < |samples| && EndsBy(last, samples, n) && last == if run == [] then None else Some(run[|run| - 1])
    requires forall i :: 0 < i < |samples| ==> samples[i - 1].t + samples[i - 1].u <= samples[i].t + samples[i].u
    ensures last.Some? ==> last.value.t + last.value.u <= samples[n].t + samples[n].u
    ensures var later := Extended(run, samples[n]); later != [] && EndsBy(Some(later[|later| - 1]), samples, n + 1)
  {
    hide WentBack;
  }

  /** What `Feed` promises of a sample that was compared. */
  ghost predicate Answers(rate: nat, order: set<Key> -> seq<Key>, was: seq<Sample>, run: seq<Sample>, s: Sample,
                          trip: Option<Trip>)
    requires was != [] && run != []
  {
    var a := was[|was| - 1];
    && (trip.Some? && trip.value.Requests? ==>
          NamesKey(run, order(a.requests.Keys + s.requests.Keys), trip.value))
    && ((exists key :: Sustained(run, key)) ==> trip.Some? && trip.value.Requests?)
    && (trip.Some? && (trip.value.ArcReads? || trip.value.FlowRequests?) ==>
          Bursting(run) && FirstBurst(run, trip.value))
    && (Bursting(run) ==> trip.Some? && !trip.value.Packets?)
    && (trip.Some? && trip.value.Packets? ==> NamesFlow(rate, a, s, trip.value, Width(a, s)))
    && (trip.None? ==> NoFlow(rate, a, s, Width(a, s)))
  }

  lemma TripIsCalled(rate: nat, order: set<Key> -> seq<Key>, was: seq<Sample>, run: seq<Sample>, s: Sample,
                     trip: Option<Trip>)
    requires was != [] && run != [] && Answers(rate, order, was, run, s, trip)
    ensures trip.Some? <==> Called(rate, run, was[|was| - 1], s)
  {
  }

  lemma NotCompared(s: Sample)
    ensures !Compared([], s)
  {
  }

  lemma KeepsRunning(samples: seq<Sample>, n: nat, run: seq<Sample>, later: seq<Sample>)
    requires Running(samples) && n < |samples| && run == samples[..n]
    requires later == Extended(run, samples[n])
    ensures later == samples[..n + 1] && (n > 0 ==> Compared(run, samples[n]))
    ensures n > 0 ==> Width(samples[n - 1], samples[n]) > 0.0
  {
    if n > 0 {
      assert run[n - 1] == samples[n - 1] && Follows(samples[n - 1], samples[n]);
      WentBackIs(samples[n - 1], samples[n]);
    }
    hide WentBack, NoneLower;
  }

  /** The last sample kept ended no later than the last one read. */
  ghost predicate EndsBy(last: Option<Sample>, samples: seq<Sample>, fed: nat)
    requires fed <= |samples|
  {
    last.Some? ==> fed > 0 && last.value.t + last.value.u <= samples[fed - 1].t + samples[fed - 1].u
  }
}
