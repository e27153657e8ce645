/**
The engine's restart budget: a ledger of start times cut to its last 64 entries, a check
before each run, and starts asked for in between. Over any number of runs no window of the
unit's interval holds more asked starts than its burst.
*/
module RestartBudget {

  const LEDGER_KEEP: nat := 64

  // ----- counting starts

  /** How many times lie in (lo, hi]. */
  function CountIn(times: seq<real>, lo: real, hi: real): nat {
    if times == [] then 0 else (if lo < times[0] <= hi then 1 else 0) + CountIn(times[1..], lo, hi)
  }

  lemma {:induction false} CountJoins(a: seq<real>, b: seq<real>, lo: real, hi: real)
    ensures CountIn(a + b, lo, hi) == CountIn(a, lo, hi) + CountIn(b, lo, hi)
  {
    if a == [] {
      assert a + b == b;
    } else {
      CountJoins(a[1..], b, lo, hi);
      assert (a + b)[1..] == a[1..] + b;
    }
  }

  lemma CountOne(t: real, lo: real, hi: real)
    ensures CountIn([t], lo, hi) == if lo < t <= hi then 1 else 0
  {
    assert [t][1..] == [];
  }

  lemma {:induction false} CountGrows(times: seq<real>, lo: real, hi: real, lower: real, higher: real)
    requires lower <= lo && hi <= higher
    ensures CountIn(times, lo, hi) <= CountIn(times, lower, higher) <= |times|
  {
    if times != [] {
      CountGrows(times[1..], lo, hi, lower, higher);
    }
  }

  lemma {:induction false} CountNone(times: seq<real>, lo: real, hi: real)
    requires forall i :: 0 <= i < |times| ==> times[i] <= lo || times[i] > hi
    ensures CountIn(times, lo, hi) == 0
  {
    if times != [] {
      CountNone(times[1..], lo, hi);
    }
  }

  lemma {:induction false} CountAll(times: seq<real>, lo: real, hi: real)
    requires forall i :: 0 <= i < |times| ==> lo < times[i] <= hi
    ensures CountIn(times, lo, hi) == |times|
  {
    if times != [] {
      CountAll(times[1..], lo, hi);
    }
  }

  predicate Sorted(s: seq<real>) {
    forall i, j :: 0 <= i < j < |s| ==> s[i] <= s[j]
  }

  // ----- the refusal

  datatype Verdict = Fine | NeverFits | Wait(seconds: int)

  function Insert(t: real, s: seq<real>): (r: seq<real>)
    requires Sorted(s)
    ensures Sorted(r) && |r| == |s| + 1 && forall i :: 0 <= i < |r| ==> r[i] == t || r[i] in s
  {
    if s == [] || t <= s[0] then [t] + s
    else
      var rest := Insert(t, s[1..]);
      assert forall i :: 0 <= i < |rest| ==> s[0] <= rest[i] && (rest[i] == t || rest[i] in s);
      [s[0]] + rest
  }

  /** The times of the last interval, in order. */
  function Recent(times: seq<real>, now: real, interval: nat): (r: seq<real>)
    ensures Sorted(r) && forall i :: 0 <= i < |r| ==> now - interval as real < r[i] <= now
    ensures |r| == CountIn(times, now - interval as real, now)
  {
    if times == [] then []
    else
      var rest := Recent(times[1..], now, interval);
      if now - interval as real < times[0] <= now then
        assert forall x :: x in rest ==> now - interval as real < x <= now;
        Insert(times[0], rest)
      else rest
  }

  function Ceil(x: real): (n: int)
    ensures (n - 1) as real < x <= n as real
  {
    -((-x).Floor)
  }

  function Refusal(times: seq<real>, now: real, interval: nat, burst: nat, planned: nat): Verdict {
    var recent := Recent(times, now, interval);
    var over := |recent| + planned - burst;
    if over <= 0 then Fine
    else if planned > burst then NeverFits
    else Wait(Ceil(recent[over - 1] + interval as real - now))
  }

  lemma FineMeans(times: seq<real>, now: real, interval: nat, burst: nat, planned: nat)
    ensures Refusal(times, now, interval, burst, planned).Fine? <==>
            CountIn(times, now - interval as real, now) + planned <= burst
  {
  }

  /** Refused for good exactly when more is planned than the burst allows at all, and then no
      ledger and no time would do. */
  lemma NeverFitsMeans(times: seq<real>, now: real, interval: nat, burst: nat, planned: nat)
    ensures Refusal(times, now, interval, burst, planned).NeverFits? <==> planned > burst
    ensures planned > burst ==> forall later, t: real :: !Refusal(later, t, interval, burst, planned).Fine?
  {
    hide Recent, Ceil;
  }

  lemma {:induction false} InsertCounts(t: real, s: seq<real>, lo: real, hi: real)
    requires Sorted(s)
    ensures CountIn(Insert(t, s), lo, hi) == CountIn(s, lo, hi) + if lo < t <= hi then 1 else 0
  {
    if s == [] || t <= s[0] {
      assert ([t] + s)[1..] == s;
    } else {
      InsertCounts(t, s[1..], lo, hi);
      assert ([s[0]] + Insert(t, s[1..]))[1..] == Insert(t, s[1..]);
    }
  }

  lemma {:induction false} RecentCounts(times: seq<real>, now: real, interval: nat, lo: real, hi: real)
    requires now - interval as real <= lo && now <= hi && forall i :: 0 <= i < |times| ==> times[i] <= now
    ensures CountIn(Recent(times, now, interval), lo, hi) == CountIn(times, lo, hi)
  {
    if times != [] {
      RecentCounts(times[1..], now, interval, lo, hi);
      if now - interval as real < times[0] <= now {
        InsertCounts(times[0], Recent(times[1..], now, interval), lo, hi);
      }
    }
  }

  /** In order, the times after `lo` are those from the first such one on. */
  lemma SortedCounts(r: seq<real>, k: nat, lo: real, hi: real)
    requires Sorted(r) && k < |r| && forall i :: 0 <= i < |r| ==> r[i] <= hi
    ensures if r[k] <= lo then CountIn(r, lo, hi) <= |r| - k - 1 else CountIn(r, lo, hi) >= |r| - k
  {
    hide CountIn;
    if r[k] <= lo {
      CountSplit(r, k + 1, lo, hi);
      CountNone(r[..k + 1], lo, hi);
      CountGrows(r[k + 1..], lo, hi, lo, hi);
    } else {
      CountSplit(r, k, lo, hi);
      CountAll(r[k..], lo, hi);
    }
  }

  lemma CountSplit(r: seq<real>, k: nat, lo: real, hi: real)
    requires k <= |r|
    ensures CountIn(r, lo, hi) == CountIn(r[..k], lo, hi) + CountIn(r[k..], lo, hi)
  {
    hide CountIn;
    CountJoins(r[..k], r[k..], lo, hi);
    assert r[..k] + r[k..] == r;
  }

  /** The wait a refusal names is right to the second: with no other start, a later check
      accepts exactly when at least that many whole seconds passed. */
  lemma WaitIsExact(times: seq<real>, now: real, interval: nat, burst: nat, planned: nat, after: nat)
    requires forall i :: 0 <= i < |times| ==> times[i] <= now
    requires Refusal(times, now, interval, burst, planned).Wait?
    ensures Refusal(times, now + after as real, interval, burst, planned).Fine? <==>
            after >= Refusal(times, now, interval, burst, planned).seconds
  {
    var r := Recent(times, now, interval);
    var over := |r| + planned - burst;
    var later := now + after as real;
    hide Recent, CountIn, Refusal, Ceil;
    WaitIs(times, now, interval, burst, planned);
    RecentBounded(times, now, interval, later);
    hide Sorted;
    FineMeans(times, later, interval, burst, planned);
    RecentCounts(times, now, interval, later - interval as real, later);
    SortedCounts(r, over - 1, later - interval as real, later);
    CeilIs(r[over - 1] + interval as real - now, after);
  }

  lemma RecentBounded(times: seq<real>, now: real, interval: nat, hi: real)
    requires now <= hi
    ensures var r := Recent(times, now, interval);
            Sorted(r) && forall i :: 0 <= i < |r| ==> r[i] <= hi
  {
    hide Recent;
  }

  lemma WaitIs(times: seq<real>, now: real, interval: nat, burst: nat, planned: nat)
    requires Refusal(times, now, interval, burst, planned).Wait?
    ensures var r := Recent(times, now, interval);
            var over := |r| + planned - burst;
            0 < over <= |r| && Refusal(times, now, interval, burst, planned).seconds ==
                Ceil(r[over - 1] + interval as real - now)
  {
    hide Recent, Ceil;
  }

  lemma CeilIs(x: real, n: nat)
    ensures n >= Ceil(x) <==> x <= n as real
  {
  }

  // ----- every run

  /** A check that accepted so many starts, a start asked for and noted, one asked for whose
      note could not be kept, and automatic restarts noted. */
  datatype Event = Accept(at: real, planned: nat) | Ask(at: real) | Lose(at: real) | Auto(at: real, n: nat)

  /** The ledger as it is kept; every note ever made; every start asked for, those of them
      that were noted and those whose note was lost; the last check and how many of its
      starts are left. */
  datatype State = State(
    ledger: seq<real>, notes: seq<real>, asked: seq<real>, noted: seq<real>, lost: seq<real>,
    now: real, checked: real, left: nat)

  function Kept(times: seq<real>): (r: seq<real>)
    ensures |r| <= LEDGER_KEEP && |r| <= |times|
  {
    if |times| <= LEDGER_KEEP then times else times[|times| - LEDGER_KEEP..]
  }

  function Times(at: real, n: nat): (r: seq<real>)
    ensures |r| == n && forall i :: 0 <= i < n ==> r[i] == at
  {
    seq(n, i => at)
  }

  /** What the gate allows: a check must accept, a start must be one of its planned ones,
      and the clock does not run back. */
  predicate Possible(s: State, e: Event, interval: nat, burst: nat) {
    && e.at >= s.now
    && (e.Accept? ==> Refusal(s.ledger, e.at, interval, burst, e.planned).Fine?)
    && (e.Ask? || e.Lose? ==> s.left > 0)
  }

  function Next(s: State, e: Event): State
    requires e.Ask? || e.Lose? ==> s.left > 0
  {
    match e
    case Accept(at, planned) => s.(now := at, checked := at, left := planned)
    case Ask(at) => s.(ledger := Kept(s.ledger + [at]), notes := s.notes + [at], asked := s.asked + [at],
                        noted := s.noted + [at], now := at, left := s.left - 1)
    case Lose(at) => s.(asked := s.asked + [at], lost := s.lost + [at], now := at, left := s.left - 1)
    case Auto(at, n) => s.(ledger := Kept(s.ledger + Times(at, n)), notes := s.notes + Times(at, n), now := at)
  }

  /** No window of the interval holds more of these starts than the burst. */
  ghost predicate WithinBurst(times: seq<real>, interval: nat, burst: nat) {
    forall x: real :: InWindow(times, x, interval) <= burst
  }

  /** The times of the interval that ends at `x`. */
  function InWindow(times: seq<real>, x: real, interval: nat): nat {
    CountIn(times, x - interval as real, x)
  }

  /** Every noted start is among the notes, whatever the window. */
  ghost predicate Noted(noted: seq<real>, notes: seq<real>) {
    forall lo: real, hi: real :: CountIn(noted, lo, hi) <= CountIn(notes, lo, hi)
  }

  /** Every asked start was noted or lost its note, whatever the window. */
  ghost predicate Parted(asked: seq<real>, noted: seq<real>, lost: seq<real>) {
    forall lo: real, hi: real :: CountIn(asked, lo, hi) == CountIn(noted, lo, hi) + CountIn(lost, lo, hi)
  }

  ghost predicate Sound(s: State, interval: nat, burst: nat) {
    && Sorted(s.notes) && (forall i :: 0 <= i < |s.notes| ==> s.notes[i] <= s.now)
    && s.ledger == Kept(s.notes) && Noted(s.noted, s.notes) && Parted(s.asked, s.noted, s.lost)
    && s.checked <= s.now && CountIn(s.noted, s.checked - interval as real, s.now) + s.left <= burst
    && WithinBurst(s.noted, interval, burst)
    && (forall i :: 0 <= i < |s.noted| ==> s.noted[i] <= s.now)
  }

  lemma KeptAppends(notes: seq<real>, more: seq<real>)
    ensures Kept(Kept(notes) + more) == Kept(notes + more)
  {
    var a, b := Kept(notes) + more, notes + more;
    assert Kept(a) == Kept(b);
  }

  /** While fewer than 64 starts are recent, the cut ledger counts them all. */
  lemma LedgerCountsAll(notes: seq<real>, lo: real, hi: real)
    requires Sorted(notes) && (forall i :: 0 <= i < |notes| ==> notes[i] <= hi)
             && CountIn(Kept(notes), lo, hi) < LEDGER_KEEP
    ensures CountIn(Kept(notes), lo, hi) == CountIn(notes, lo, hi)
  {
    if |notes| > LEDGER_KEEP {
      var cut := |notes| - LEDGER_KEEP;
      var head, tail := notes[..cut], notes[cut..];
      assert head + tail == notes;
      CountJoins(head, tail, lo, hi);
      if tail[0] > lo {
        CountAll(tail, lo, hi);
      } else {
        CountNone(head, lo, hi);
      }
    }
  }

  lemma AcceptIsSound(s: State, e: Event, interval: nat, burst: nat)
    requires Sound(s, interval, burst) && burst <= LEDGER_KEEP && interval > 0 && e.Accept?
             && Possible(s, e, interval, burst)
    ensures Sound(Next(s, e), interval, burst)
  {
    var lo := e.at - interval as real;
    FineMeans(s.ledger, e.at, interval, burst, e.planned);
    if e.planned > 0 {
      LedgerCountsAll(s.notes, lo, e.at);
    }
    assert CountIn(s.noted, lo, e.at) <= CountIn(s.notes, lo, e.at);
    assert InWindow(s.noted, e.at, interval) <= burst;
    hide CountIn, Sorted, Refusal;
  }

  /** One more asked start, noted or not, and notes of other starts. */
  lemma NotedOn(noted: seq<real>, notes: seq<real>, at: real)
    requires Noted(noted, notes)
    ensures Noted(noted + [at], notes + [at])
  {
    forall lo: real, hi: real ensures CountIn(noted + [at], lo, hi) <= CountIn(notes + [at], lo, hi) {
      hide CountIn;
      CountJoins(noted, [at], lo, hi);
      CountJoins(notes, [at], lo, hi);
    }
  }

  lemma NotedMore(noted: seq<real>, notes: seq<real>, more: seq<real>)
    requires Noted(noted, notes)
    ensures Noted(noted, notes + more)
  {
    forall lo: real, hi: real ensures CountIn(noted, lo, hi) <= CountIn(notes + more, lo, hi) {
      hide CountIn;
      CountJoins(notes, more, lo, hi);
    }
  }

  lemma PartedOn(asked: seq<real>, noted: seq<real>, lost: seq<real>, at: real)
    requires Parted(asked, noted, lost)
    ensures Parted(asked + [at], noted + [at], lost) && Parted(asked + [at], noted, lost + [at])
  {
    hide CountIn;
    forall lo: real, hi: real
      ensures CountIn(asked + [at], lo, hi) == CountIn(noted + [at], lo, hi) + CountIn(lost, lo, hi)
      ensures CountIn(asked + [at], lo, hi) == CountIn(noted, lo, hi) + CountIn(lost + [at], lo, hi)
    {
      CountJoins(asked, [at], lo, hi);
      CountJoins(noted, [at], lo, hi);
      CountJoins(lost, [at], lo, hi);
      assert CountIn(asked, lo, hi) == CountIn(noted, lo, hi) + CountIn(lost, lo, hi);
    }
  }

  lemma AskIsSound(s: State, e: Event, interval: nat, burst: nat)
    requires Sound(s, interval, burst) && interval > 0 && e.Ask? && Possible(s, e, interval, burst)
    ensures Sound(Next(s, e), interval, burst)
  {
    var t := Next(s, e);
    hide CountIn, Kept, Noted, Parted, WithinBurst;
    KeptAppends(s.notes, [e.at]);
    NotedOn(s.noted, s.notes, e.at);
    PartedOn(s.asked, s.noted, s.lost, e.at);
    CountJoins(s.noted, [e.at], s.checked - interval as real, e.at);
    CountOne(e.at, s.checked - interval as real, e.at);
    CountCapped(s.noted, s.checked - interval as real, e.at, s.now);
    AskedWindows(s, e.at, interval, burst);
  }

  lemma AskedWindows(s: State, at: real, interval: nat, burst: nat)
    requires Sound(s, interval, burst) && s.left > 0 && at >= s.now
    ensures WithinBurst(s.noted + [at], interval, burst)
  {
    hide Sound, InWindow;
    forall x: real ensures InWindow(s.noted + [at], x, interval) <= burst {
      AskedWindow(s, at, x, interval, burst);
    }
  }

  /** A window that holds the new start holds no more than the last check left room for. */
  lemma AskedWindow(s: State, at: real, x: real, interval: nat, burst: nat)
    requires Sound(s, interval, burst) && s.left > 0 && at >= s.now
    ensures InWindow(s.noted + [at], x, interval) <= burst
  {
    var lo := x - interval as real;
    hide CountIn;
    CountJoins(s.noted, [at], lo, x);
    CountOne(at, lo, x);
    assert InWindow(s.noted, x, interval) <= burst;
    if lo < at <= x {
      CountCapped(s.noted, lo, x, s.now);
      CountGrows(s.noted, lo, s.now, s.checked - interval as real, s.now);
    }
  }

  lemma {:induction false} CountCapped(times: seq<real>, lo: real, hi: real, last: real)
    requires last <= hi && forall i :: 0 <= i < |times| ==> times[i] <= last
    ensures CountIn(times, lo, hi) == CountIn(times, lo, last)
  {
    if times != [] {
      CountCapped(times[1..], lo, hi, last);
    }
  }

  /** A lost note leaves the ledger as it was; the start is one of those asked. */
  lemma LoseIsSound(s: State, e: Event, interval: nat, burst: nat)
    requires Sound(s, interval, burst) && interval > 0 && e.Lose? && Possible(s, e, interval, burst)
    ensures Sound(Next(s, e), interval, burst)
  {
    hide CountIn, Kept, Sorted, Noted, Parted, WithinBurst;
    PartedOn(s.asked, s.noted, s.lost, e.at);
    CountCapped(s.noted, s.checked - interval as real, e.at, s.now);
  }

  lemma AutoIsSound(s: State, e: Event, interval: nat, burst: nat)
    requires Sound(s, interval, burst) && interval > 0 && e.Auto? && Possible(s, e, interval, burst)
    ensures Sound(Next(s, e), interval, burst)
  {
    var more := Times(e.at, e.n);
    hide CountIn, Kept, Noted, Parted, WithinBurst;
    KeptAppends(s.notes, more);
    NotedMore(s.noted, s.notes, more);
    CountCapped(s.noted, s.checked - interval as real, e.at, s.now);
  }

  lemma NextIsSound(s: State, e: Event, interval: nat, burst: nat)
    requires Sound(s, interval, burst) && burst <= LEDGER_KEEP && interval > 0 && Possible(s, e, interval, burst)
    ensures Sound(Next(s, e), interval, burst)
  {
    hide Sound;
    match e {
      case Accept(_, _) => AcceptIsSound(s, e, interval, burst);
      case Ask(_) => AskIsSound(s, e, interval, burst);
      case Lose(_) => LoseIsSound(s, e, interval, burst);
      case Auto(_, _) => AutoIsSound(s, e, interval, burst);
    }
  }

  ghost predicate Runs(s: State, events: seq<Event>, interval: nat, burst: nat)
    decreases |events|
  {
    events == [] || (Possible(s, events[0], interval, burst) && Runs(Next(s, events[0]), events[1..], interval, burst))
  }

  ghost function After(s: State, events: seq<Event>, interval: nat, burst: nat): State
    requires Runs(s, events, interval, burst)
    decreases |events|
  {
    if events == [] then s else After(Next(s, events[0]), events[1..], interval, burst)
  }

  lemma RunsOn(s: State, e: Event, events: seq<Event>, interval: nat, burst: nat)
    requires Possible(s, e, interval, burst) && Runs(Next(s, e), events, interval, burst)
    ensures Runs(s, [e] + events, interval, burst)
    ensures After(s, [e] + events, interval, burst) == After(Next(s, e), events, interval, burst)
  {
    assert ([e] + events)[1..] == events;
    hide Possible, Next;
  }

  /** Nothing noted, nothing asked, no check yet. */
  function Empty(now: real): State {
    State([], [], [], [], [], now, now, 0)
  }

  lemma EmptyIsSound(now: real, interval: nat, burst: nat)
    ensures Sound(Empty(now), interval, burst)
  {
  }

  lemma {:induction false} AfterIsSound(s: State, events: seq<Event>, interval: nat, burst: nat)
    requires Sound(s, interval, burst) && burst <= LEDGER_KEEP && interval > 0 && Runs(s, events, interval, burst)
    ensures Sound(After(s, events, interval, burst), interval, burst)
    decreases |events|
  {
    hide Sound, Possible;
    if events != [] {
      NextIsSound(s, events[0], interval, burst);
      AfterIsSound(Next(s, events[0]), events[1..], interval, burst);
    }
  }

  /** Over every sequence of checks, asked starts and automatic restarts, on a clock that
      does not run back, no window of the interval ever holds more asked starts than the
      burst and the starts whose notes were lost, although only the last 64 notes are kept. */
  lemma NeverOverBurst(start: real, events: seq<Event>, interval: nat, burst: nat, x: real)
    requires burst <= LEDGER_KEEP && interval > 0 && Runs(Empty(start), events, interval, burst)
    ensures var s := After(Empty(start), events, interval, burst);
            InWindow(s.asked, x, interval) <= burst + InWindow(s.lost, x, interval)
  {
    EmptyIsSound(start, interval, burst);
    AfterIsSound(Empty(start), events, interval, burst);
    hide After, Runs, Sound, InWindow;
    SoundMeans(After(Empty(start), events, interval, burst), interval, burst);
  }

  // ----- that bound is reached, and the burst must be at most what the ledger keeps

  /** So many runs one after another, each checked and accepted for one start at 0, its note
      kept or lost. */
  function Single(lost: bool): seq<Event> {
    [Accept(0.0, 1), if lost then Lose(0.0) else Ask(0.0)]
  }

  function Singles(n: nat, lost: bool): seq<Event> {
    if n == 0 then [] else Single(lost) + Singles(n - 1, lost)
  }

  /** All of it at 0: what is kept, what was asked and what was lost. */
  ghost predicate AtZero(s: State) {
    s.now == 0.0 && AllZero(s.ledger) && AllZero(s.asked) && AllZero(s.lost)
  }

  ghost predicate AllZero(times: seq<real>) {
    forall i :: 0 <= i < |times| ==> times[i] == 0.0
  }

  lemma ZeroCounts(times: seq<real>, interval: nat)
    requires interval > 0 && AllZero(times)
    ensures InWindow(times, 0.0, interval) == |times|
  {
    CountAll(times, 0.0 - interval as real, 0.0);
  }

  /** One such run, from any state at 0 whose ledger leaves room for it. */
  lemma SingleRuns(s: State, lost: bool, rest: seq<Event>, interval: nat, burst: nat)
    requires AtZero(s) && interval > 0 && |s.ledger| < burst
    requires Runs(Next(Next(s, Accept(0.0, 1)), Single(lost)[1]), rest, interval, burst)
    ensures Runs(s, Single(lost) + rest, interval, burst)
    ensures After(s, Single(lost) + rest, interval, burst) ==
              After(Next(Next(s, Accept(0.0, 1)), Single(lost)[1]), rest, interval, burst)
  {
    var events := Single(lost) + rest;
    var t := Next(s, Accept(0.0, 1));
    ZeroCounts(s.ledger, interval);
    FineMeans(s.ledger, 0.0, interval, burst, 1);
    hide Refusal, CountIn, Kept;
    assert events[0] == Accept(0.0, 1) && events[1..] == [Single(lost)[1]] + rest;
    assert ([Single(lost)[1]] + rest)[1..] == rest;
    assert Runs(t, [Single(lost)[1]] + rest, interval, burst);
  }

  lemma {:induction false} SinglesRun(s: State, n: nat, lost: bool, rest: seq<Event>, interval: nat, burst: nat)
      returns (t: State)
    requires AtZero(s) && interval > 0
    requires if lost then |s.ledger| < burst else |s.ledger| + n <= burst || burst > LEDGER_KEEP >= |s.ledger|
    ensures AtZero(t) && |t.asked| == |s.asked| + n && |t.lost| == |s.lost| + if lost then n else 0
    ensures |t.ledger| <= |s.ledger| + (if lost then 0 else n) && |t.ledger| <= Larger(LEDGER_KEEP, |s.ledger|)
    ensures Runs(t, rest, interval, burst) ==>
              Runs(s, Singles(n, lost) + rest, interval, burst)
              && After(s, Singles(n, lost) + rest, interval, burst) == After(t, rest, interval, burst)
    decreases n
  {
    if n == 0 {
      assert Singles(0, lost) + rest == rest;
      return s;
    }
    var u := Next(Next(s, Accept(0.0, 1)), Single(lost)[1]);
    SingleGrows(s, lost);
    hide Kept, Runs, After;
    t := SinglesRun(u, n - 1, lost, rest, interval, burst);
    assert Singles(n, lost) + rest == Single(lost) + (Singles(n - 1, lost) + rest);
    if Runs(t, rest, interval, burst) {
      SingleRuns(s, lost, Singles(n - 1, lost) + rest, interval, burst);
    }
  }

  function Larger(a: nat, b: nat): nat {
    if a >= b then a else b
  }

  lemma SingleGrows(s: State, lost: bool)
    requires AtZero(s)
    ensures var u := Next(Next(s, Accept(0.0, 1)), Single(lost)[1]);
            && AtZero(u) && |u.asked| == |s.asked| + 1 && |u.lost| == |s.lost| + (if lost then 1 else 0)
            && (if lost then u.ledger == s.ledger else |u.ledger| <= |s.ledger| + 1 && |u.ledger| <= LEDGER_KEEP)
  {
  }

  /** The bound of `NeverOverBurst` is exact: for every burst and every number of lost notes
      some run fills one window with the burst and all of them. */
  lemma LostNotesOverrun(burst: nat, lost: nat, interval: nat) returns (events: seq<Event>)
    requires burst > 0 && interval > 0
    ensures Runs(Empty(0.0), events, interval, burst)
    ensures var s := After(Empty(0.0), events, interval, burst);
            InWindow(s.lost, 0.0, interval) == lost && InWindow(s.asked, 0.0, interval) == burst + lost
  {
    var more := Singles(burst, false);
    events := Singles(lost, true) + more;
    hide Runs, After, CountIn, Kept, InWindow;
    var t := SinglesRun(Empty(0.0), lost, true, more, interval, burst);
    var u := SinglesRun(t, burst, false, [], interval, burst);
    assert Singles(burst, false) + [] == more;
    NothingLeft(u, interval, burst);
    ZeroCounts(u.asked, interval);
    ZeroCounts(u.lost, interval);
  }

  lemma NothingLeft(s: State, interval: nat, burst: nat)
    ensures Runs(s, [], interval, burst) && After(s, [], interval, burst) == s
  {
  }

  /** A burst above what the ledger keeps is not guarded: without a single lost note some run
      fills a window with any number of starts. */
  lemma LongBurstOverruns(burst: nat, n: nat, interval: nat) returns (events: seq<Event>)
    requires burst > LEDGER_KEEP && interval > 0
    ensures Runs(Empty(0.0), events, interval, burst)
    ensures var s := After(Empty(0.0), events, interval, burst);
            s.lost == [] && InWindow(s.asked, 0.0, interval) == n
  {
    events := Singles(n, false);
    hide Runs, After, CountIn, Kept, InWindow;
    var t := SinglesRun(Empty(0.0), n, false, [], interval, burst);
    assert events + [] == events;
    NothingLeft(t, interval, burst);
    ZeroCounts(t.asked, interval);
  }

  /** Some run whose notes were all kept puts more asked starts than the burst in a window. */
  ghost predicate CanOverrun(interval: nat, burst: nat) {
    exists start: real, events: seq<Event>, x: real :: Overruns(start, events, x, interval, burst)
  }

  ghost predicate Overruns(start: real, events: seq<Event>, x: real, interval: nat, burst: nat) {
    && Runs(Empty(start), events, interval, burst) && After(Empty(start), events, interval, burst).lost == []
    && InWindow(After(Empty(start), events, interval, burst).asked, x, interval) > burst
  }

  /** With every note kept the budget holds over all runs if and only if the burst is at most
      the 64 entries the ledger keeps. */
  lemma BudgetHoldsExactly(interval: nat, burst: nat)
    requires interval > 0
    ensures !CanOverrun(interval, burst) <==> burst <= LEDGER_KEEP
  {
    hide Runs, After;
    if burst <= LEDGER_KEEP {
      forall start: real, events: seq<Event>, x: real ensures !Overruns(start, events, x, interval, burst) {
        if Runs(Empty(start), events, interval, burst) {
          NeverOverBurst(start, events, interval, burst, x);
        }
      }
    } else {
      var events := LongBurstOverruns(burst, burst + 1, interval);
      assert Overruns(0.0, events, 0.0, interval, burst);
    }
  }

  // ----- the ledger as the gate keeps it

  function NoteEvent(now: real, n: nat, writable: bool, asked: bool): Event {
    if asked then (if writable then Ask(now) else Lose(now)) else Auto(now, if writable then n else 0)
  }

  lemma NothingKept(times: seq<real>)
    ensures times + Times(0.0, 0) == times
  {
  }

  lemma SoundMeans(s: State, interval: nat, burst: nat)
    requires Sound(s, interval, burst)
    ensures forall x: real :: InWindow(s.asked, x, interval) <= burst + InWindow(s.lost, x, interval)
  {
    hide CountIn, Kept, Sorted, Noted;
    forall x: real ensures InWindow(s.asked, x, interval) <= burst + InWindow(s.lost, x, interval) {
      assert InWindow(s.noted, x, interval) <= burst;
      assert CountIn(s.asked, x - interval as real, x) ==
               CountIn(s.noted, x - interval as real, x) + CountIn(s.lost, x - interval as real, x);
    }
  }

  class Ledger {
    const interval: nat
    const burst: nat
    var times: seq<real>
    /** Everything noted and asked so far. */
    ghost var past: State

    ghost predicate Valid()
      reads this
    {
      interval > 0 && burst <= LEDGER_KEEP && times == past.ledger && Sound(past, interval, burst)
    }

    constructor (interval: nat, burst: nat, now: real)
      requires interval > 0 && burst <= LEDGER_KEEP
      ensures Valid() && times == [] && past == Empty(now)
      ensures this.interval == interval && this.burst == burst
    {
      this.interval, this.burst := interval, burst;
      times := [];
      past := Empty(now);
    }

    /** The check before a run: accepted, or why not; the plan of an accepted one begins. */
    method RefuseOverBudget(now: real, planned: nat) returns (v: Verdict)
      requires Valid() && now >= past.now
      modifies this`past
      ensures Valid() && v == Refusal(old(times), now, interval, burst, planned)
      ensures past == if v.Fine? then Next(old(past), Accept(now, planned)) else old(past)
    {
      hide Sound, Refusal;
      v := Refusal(times, now, interval, burst, planned);
      if v.Fine? {
        NextIsSound(past, Accept(now, planned), interval, burst);
        past := Next(past, Accept(now, planned));
      }
    }

    /** `n` starts kept at now: the last 64 of them all. A record that cannot be kept is only a
        warning, and the ledger stays as it was. `asked`: one start of the plan. */
    method NoteStarts(now: real, n: nat, writable: bool, ghost asked: bool) returns (warned: bool)
      requires Valid() && now >= past.now && (asked ==> n == 1 && past.left > 0)
      modifies this`times, this`past
      ensures Valid() && warned == !writable
      ensures past == Next(old(past), NoteEvent(now, n, writable, asked))
      ensures forall x: real :: InWindow(past.asked, x, interval) <= burst + InWindow(past.lost, x, interval)
    {
      ghost var e := NoteEvent(now, n, writable, asked);
      NextIsSound(past, e, interval, burst);
      hide Sound;
      warned := !writable;
      if writable {
        assert asked ==> Times(now, n) == [now];
        times := Kept(times + Times(now, n));
      } else {
        NothingKept(times);
      }
      past := Next(past, e);
      SoundMeans(past, interval, burst);
    }
  }
}
