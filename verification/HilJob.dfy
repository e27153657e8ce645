/**
The HIL gate's job on the box: a drop-in installed, the engine restarted with it, checks, a
test burst, a loop, an injected fault, and the end that undoes it all. Any call may fail or
be cut by the event flag or an interrupt. The box's `log` is everything that happened, in
order, each with how it ended; what a run must and must not do is said of that log.
*/
module HilJob {
  import opened HilLog
  import opened HilProcedure

  datatype Mode = Finish | Ignore

  // ----- what the log holds

  ghost predicate Sends(log: seq<Entry>, c: Command) {
    exists i :: 0 <= i < |log| && Is(log[i], c)
  }

  /** Every `a` sent is followed by a `b`. */
  ghost predicate Followed(log: seq<Entry>, a: Command, b: Command) {
    forall i :: 0 <= i < |log| && Is(log[i], a) ==> exists j :: i < j < |log| && Is(log[j], b)
  }

  lemma FollowedAll(log: seq<Entry>, more: seq<Entry>, a: Command, b: Command)
    requires (Followed(log, a, b) || Sends(more, b)) && !Sends(more, a)
    ensures Followed(log + more, a, b)
  {
    var all := log + more;
    assert forall i :: |log| <= i < |all| ==> all[i] == more[i - |log|] && !Is(all[i], a);
    forall i | 0 <= i < |all| && Is(all[i], a) ensures exists j :: i < j < |all| && Is(all[j], b) {
      if Sends(more, b) {
        var k :| 0 <= k < |more| && Is(more[k], b);
        assert Is(all[|log| + k], b);
      } else {
        assert Is(log[i], a);
        var j :| i < j < |log| && Is(log[j], b);
        assert Is(all[j], b);
      }
    }
  }

  /** A deliberate engine start; a start noted in the ledger; a start counted in the checks. */
  datatype Kind = Start | Noted | Counted

  predicate Of(x: Entry, k: Kind) {
    x.Did? && match k
              case Start => x.c.Restart? || x.c.Fault?
              case Noted => x.c.Note?
              case Counted => x.c.Count?
  }

  function Tally(log: seq<Entry>, k: Kind): nat {
    if log == [] then 0 else Tally(log[..|log| - 1], k) + if Of(log[|log| - 1], k) then 1 else 0
  }

  /** Each start came after a note (or count) of its own: at every moment there were as many. */
  ghost predicate Ahead(log: seq<Entry>, k: Kind) {
    forall n :: 0 <= n <= |log| ==> Tally(log[..n], Start) <= Tally(log[..n], k)
  }

  lemma TallyOn(log: seq<Entry>, x: Entry, k: Kind)
    ensures Tally(log + [x], k) == Tally(log, k) + if Of(x, k) then 1 else 0
  {
    assert (log + [x])[..|log|] == log;
  }

  /** A tally is the number of places: of restarts and faults, of notes, of counts. */
  lemma TallyCounts(log: seq<Entry>)
    ensures Tally(log, Start) == |set i | 0 <= i < |log| && log[i].Did? && (log[i].c.Restart? || log[i].c == Fault)|
    ensures Tally(log, Noted) == |set i | 0 <= i < |log| && log[i].Did? && log[i].c == Note|
    ensures Tally(log, Counted) == |set i | 0 <= i < |log| && log[i].Did? && log[i].c == Count|
  {
    TallyIs(log, Start);
    TallyIs(log, Noted);
    TallyIs(log, Counted);
    hide Tally;
    assert Places(log, Start) == set i | 0 <= i < |log| && log[i].Did? && (log[i].c.Restart? || log[i].c == Fault);
    assert Places(log, Noted) == set i | 0 <= i < |log| && log[i].Did? && log[i].c == Note;
    assert Places(log, Counted) == set i | 0 <= i < |log| && log[i].Did? && log[i].c == Count;
  }

  ghost function Places(log: seq<Entry>, k: Kind): set<int> {
    set i | 0 <= i < |log| && Of(log[i], k)
  }

  lemma {:induction false} TallyIs(log: seq<Entry>, k: Kind)
    ensures Tally(log, k) == |Places(log, k)|
  {
    if log != [] {
      var n := |log| - 1;
      TallyIs(log[..n], k);
      hide Of;
      assert Places(log, k) == if Of(log[n], k) then Places(log[..n], k) + {n} else Places(log[..n], k);
    }
  }

  lemma AheadOn(log: seq<Entry>, x: Entry, k: Kind)
    requires Ahead(log, k) && Tally(log + [x], Start) <= Tally(log + [x], k)
    ensures Ahead(log + [x], k)
  {
    var all := log + [x];
    forall n | 0 <= n <= |all| ensures Tally(all[..n], Start) <= Tally(all[..n], k) {
      assert n <= |log| ==> all[..n] == log[..n];
      assert n == |all| ==> all[..n] == all;
    }
  }

  lemma AheadNow(log: seq<Entry>, k: Kind)
    requires Ahead(log, k)
    ensures Tally(log, Start) <= Tally(log, k)
  {
    assert log[..|log|] == log;
  }

  // ----- when a fault may be injected

  /** Asked, and the answer was good. */
  ghost predicate Good(log: seq<Entry>, q: Question) {
    exists i :: 0 <= i < |log| && log[i].Saw? && log[i].q == q && log[i].good
  }

  /** Asked, read, and the number was 0. */
  ghost predicate Zero(log: seq<Entry>, q: Question) {
    exists i :: 0 <= i < |log| && log[i].Saw? && log[i].q == q && log[i].good && log[i].n == 0
  }

  /** The engine is as the job left it: healthy, its flows back, its spare outputs open, and
      its restarts read as none. */
  ghost predicate Fit(log: seq<Entry>) {
    Good(log, Health) && Good(log, RxFlows) && Good(log, HilOutputs) && Zero(log, Restarts)
  }

  /** Right before a fault: the engine's unit read once more as never restarted, the alarm
      unit read, the flag looked at, the start noted and counted. */
  ghost predicate FaultFits(log: seq<Entry>) {
    var n := |log|;
    && n >= 5 && Fit(log)
    && log[n - 5] == Saw(EngineUnit, Went, true, 0)
    && log[n - 4].Saw? && log[n - 4].q == AlarmUnit && log[n - 4].good
    && log[n - 3] == Looked(Went) && log[n - 2] == Did(Note, Went) && log[n - 1] == Did(Count, Went)
  }

  ghost predicate FaultsFit(log: seq<Entry>) {
    forall i :: 0 <= i < |log| && Is(log[i], Fault) ==> FaultFits(log[..i])
  }

  lemma FaultsFitOn(log: seq<Entry>, x: Entry)
    requires FaultsFit(log) && (Is(x, Fault) ==> FaultFits(log))
    ensures FaultsFit(log + [x])
  {
    var all := log + [x];
    forall i | 0 <= i < |all| && Is(all[i], Fault) ensures FaultFits(all[..i]) {
      assert all[..i] == log[..i];
      assert i < |log| ==> all[i] == log[i];
      assert i == |log| ==> log[..i] == log;
    }
  }

  lemma GoodStays(log: seq<Entry>, later: seq<Entry>, q: Question)
    requires log <= later
    ensures Good(log, q) ==> Good(later, q)
    ensures Zero(log, q) ==> Zero(later, q)
  {
    if Good(log, q) {
      var i :| 0 <= i < |log| && log[i].Saw? && log[i].q == q && log[i].good;
      assert later[i] == log[i];
    }
    if Zero(log, q) {
      var i :| 0 <= i < |log| && log[i].Saw? && log[i].q == q && log[i].good && log[i].n == 0;
      assert later[i] == log[i];
    }
  }

  lemma FitStays(log: seq<Entry>, later: seq<Entry>)
    requires log <= later && Fit(log)
    ensures Fit(later)
  {
    hide Good, Zero;
    GoodStays(log, later, Health);
    GoodStays(log, later, RxFlows);
    GoodStays(log, later, HilOutputs);
    GoodStays(log, later, Restarts);
  }

  // ----- the box

  class Box {
    var log: seq<Entry>

    constructor ()
      ensures log == []
    {
      log := [];
    }

    /** A change: sent, then answered, failed, or cut. An end's changes ignore the flag. */
    method Call(c: Command, mode: Mode) returns (e: Ending)
      modifies this
      ensures log == old(log) + [Did(c, e)]
      ensures mode == Ignore ==> e != EventNow
    {
      e := *;
      if mode == Ignore && e == EventNow {
        e := Went;
      }
      log := log + [Did(c, e)];
    }

    /** Reads and waits: an answer, or cut; their failures are part of the answer. */
    method Look(q: Question) returns (e: Ending, good: bool, n: nat)
      modifies this
      ensures log == old(log) + [Saw(q, e, good, n)]
      ensures e != StepError && (good ==> e == Went)
    {
      e, good, n := *, *, *;
      if e == StepError {
        e := Went;
      }
      good := good && e == Went;
      log := log + [Saw(q, e, good, n)];
    }

    /** Whether the word the device answered the put-back with says it is done. */
    method Word() returns (done: bool)
      modifies this
      ensures log == old(log) + [Saw(LoopWord, Went, done, 0)]
    {
      done := *;
      log := log + [Saw(LoopWord, Went, done, 0)];
    }

    /** The return's subscription read over ARC, which never looks at the flag. */
    method LookAtLoop() returns (e: Ending, same: bool, n: nat)
      modifies this
      ensures log == old(log) + [Saw(LoopBack, e, same, n)]
      ensures (e == Went || e == Interrupt) && (same ==> e == Went)
    {
      e, same, n := *, *, *;
      if e != Interrupt {
        e := Went;
      }
      same := same && e == Went;
      log := log + [Saw(LoopBack, e, same, n)];
    }

    /** The flag looked at. */
    method Pause() returns (e: Ending)
      modifies this
      ensures log == old(log) + [Looked(e)]
      ensures e != StepError
    {
      e := *;
      if e == StepError {
        e := Went;
      }
      log := log + [Looked(e)];
    }

    /** An exception leaves the job for its clean-up. */
    method Raise(e: Ending)
      modifies this
      ensures log == old(log) + [Raised(e)]
    {
      log := log + [Raised(e)];
    }

    /** The ledger's note of starts; a note that cannot be kept only warns. */
    method NoteStarts(c: Command) returns (e: Ending)
      modifies this
      ensures log == old(log) + [Did(c, e)]
      ensures e == Went || e == Interrupt
    {
      var interrupted: bool := *;
      e := if interrupted then Interrupt else Went;
      log := log + [Did(c, e)];
    }
  }

  datatype Flags = Flags(installed: bool, restarted: bool, loopSet: bool, raised: bool)

  class Job {
    var installed: bool
    var restarted: bool
    var burstSent: bool
    var loopSet: bool
    /** Whether the job was left by an exception. */
    ghost var raised: bool

    ghost function State(): Flags
      reads this
    {
      Flags(installed, restarted, loopSet, raised)
    }

    constructor (installed: bool, restarted: bool)
      ensures this.installed == installed && this.restarted == restarted && !burstSent && !loopSet && !raised
    {
      this.installed, this.restarted := installed, restarted;
      burstSent, loopSet := false, false;
      raised := false;
    }
  }

  class Checks {
    var health: bool
    var rxBack: bool
    var hilOn: bool
    var unitRestarts: nat
    var restartsUnread: bool
    var panicSkipped: bool
    var starts: nat

    constructor ()
      ensures starts == 0 && unitRestarts == 0 && !restartsUnread
    {
      health, rxBack, hilOn, restartsUnread, panicSkipped := false, false, false, false, false;
      unitRestarts, starts := 0, 0;
    }

    /** One more deliberate start. */
    method CountStart(box: Box)
      modifies this`starts, box
      ensures starts == old(starts) + 1 && box.log == old(box.log) + [Did(Count, Went)]
    {
      starts := starts + 1;
      box.log := box.log + [Did(Count, Went)];
    }
  }

  // ----- what an ending comes from

  /** The log's last entry explains the ending: it ended so itself, or the drop-in was read
      back as another than the one sent. */
  ghost predicate Caused(log: seq<Entry>, e: Ending) {
    && log != []
    && var last := log[|log| - 1];
       last.e == e || (e == StepError && last.Saw? && last.q == Dropin && last.e == Went && !last.good)
  }

  lemma CausedBy(log: seq<Entry>, x: Entry)
    ensures Caused(log + [x], x.e)
  {
  }

  predicate IsWait(x: Entry) {
    Reads(x, Health) || Reads(x, RxFlows) || Reads(x, HilOutputs)
  }

  /** The log ends with the end's three waits. */
  ghost predicate Waited(log: seq<Entry>) {
    var n := |log|;
    n >= 3 && Reads(log[n - 3], Health) && Reads(log[n - 2], RxFlows) && Reads(log[n - 1], HilOutputs)
  }

  /** How a whole run ended: as the clean-up or the end was cut at its last entry, or by what
      the job raised, right after the entry that explains it. */
  ghost predicate Explained(log: seq<Entry>, e: Ending) {
    || (Caused(log, e) && e != StepError)
    || exists i :: 0 <= i < |log| && log[i] == Raised(e) && Caused(log[..i], e)
  }

  // ----- attempts

  /** The commands sent in order, each only once the one before it was answered: all of them,
      or those up to the first that was not. */
  ghost predicate Attempted(all: seq<Command>, tried: seq<Entry>) {
    && |tried| <= |all|
    && (forall i :: 0 <= i < |tried| ==> Is(tried[i], all[i]))
    && (forall i :: 0 <= i < |tried| - 1 ==> tried[i].e == Went)
    && (|tried| < |all| ==> |tried| > 0 && tried[|tried| - 1].e != Went)
  }

  /** All sent, all answered. */
  ghost predicate Answered(all: seq<Command>, tried: seq<Entry>) {
    |tried| == |all| && forall i :: 0 <= i < |tried| ==> tried[i] == Did(all[i], Went)
  }

  /** The next command of an attempt that got answers so far. */
  lemma AttemptOn(all: seq<Command>, tried: seq<Entry>, e: Ending)
    requires |tried| < |all| && Answered(all[..|tried|], tried)
    ensures var now := tried + [Did(all[|tried|], e)];
            && (e != Went || |now| == |all| ==> Attempted(all, now))
            && (e == Went ==> Answered(all[..|now|], now))
            && (e != Went ==> !Answered(all, now))
  {
    var now := tried + [Did(all[|tried|], e)];
    assert now[|tried|] == Did(all[|tried|], e);
    forall i | 0 <= i < |tried| ensures now[i] == Did(all[i], Went) {
      assert tried[i] == Did(all[..|tried|][i], Went);
    }
  }

  lemma AttemptedThen(first: seq<Command>, second: seq<Command>, done: seq<Entry>, more: seq<Entry>)
    requires Answered(first, done) && Attempted(second, more) && |second| > 0
    ensures Attempted(first + second, done + more)
    ensures Answered(first + second, done + more) <==> Answered(second, more)
  {
    var all, tried := first + second, done + more;
    forall i | 0 <= i < |tried| ensures Is(tried[i], all[i]) && (i < |tried| - 1 ==> tried[i].e == Went) {
      assert i >= |done| ==> tried[i] == more[i - |done|] && all[i] == second[i - |done|];
    }
    if Answered(all, tried) {
      assert forall i :: 0 <= i < |more| ==> more[i] == tried[|done| + i] && second[i] == all[|first| + i];
    }
  }

  function RestartCommands(phase: Phase): seq<Command> {
    [Note, Reset, Restart(phase)]
  }

  /** The start is noted, then the failure counter reset, then the engine restarted. */
  method RestartEngine(box: Box, phase: Phase, mode: Mode) returns (e: Ending, ghost tried: seq<Entry>)
    modifies box
    ensures box.log == old(box.log) + tried && Attempted(RestartCommands(phase), tried)
    ensures e == Went <==> Answered(RestartCommands(phase), tried)
    ensures e == tried[|tried| - 1].e && Caused(box.log, e)
    ensures mode == Ignore ==> e != EventNow
  {
    hide Attempted, Answered;
    ghost var all := RestartCommands(phase);
    NothingTried(all);
    e := box.NoteStarts(Note);
    AttemptOn(all, [], e);
    tried := [] + [Did(Note, e)];
    if e != Went {
      return;
    }
    e := box.Call(Reset, mode);
    AttemptOn(all, tried, e);
    tried := tried + [Did(Reset, e)];
    assert box.log == old(box.log) + tried;
    if e != Went {
      return;
    }
    e := box.Call(Restart(phase), mode);
    AttemptOn(all, tried, e);
    tried := tried + [Did(Restart(phase), e)];
    assert box.log == old(box.log) + tried;
    assert all[..3] == all;
  }

  lemma NothingTried(all: seq<Command>)
    ensures Answered(all[..0], [])
  {
  }

  // ----- the end

  /** The commands an end sends: the drop-in away and, once the engine was restarted with
      it, the engine restarted without; counted first when there are checks to count in. */
  function EndCommands(installed: bool, restarted: bool, counted: bool): seq<Command> {
    if !installed && !restarted then []
    else if restarted then [Remove, Reload] + LastCommands(counted)
    else [Remove, Reload]
  }

  function LastCommands(counted: bool): seq<Command> {
    (if counted then [Count] else []) + RestartCommands(End)
  }

  /** Only the end's own reads and waits. */
  ghost predicate Waits(more: seq<Entry>) {
    forall i :: 0 <= i < |more| ==>
      more[i].Saw? && (more[i].q == Health || more[i].q == RxFlows || more[i].q == HilOutputs)
  }

  /** The end: nothing for a job that never reached the box or has ended; else its commands
      in order, all of them unless one of these very calls is not answered. Exactly when all
      were answered the job is over. It raises what an interrupt of its own calls, or an
      interrupt or the flag in its waits, raises. */
  method EndJob(job: Job, box: Box, c: Checks, counted: bool, wait: bool)
    returns (e: Ending, ok: bool, ghost tried: seq<Entry>, ghost waits: seq<Entry>)
    modifies job`installed, job`restarted, box, c`starts
    ensures box.log == old(box.log) + tried + waits && Waits(waits)
    ensures Attempted(EndCommands(old(job.installed), old(job.restarted), counted), tried)
    ensures !job.installed && !job.restarted <==>
              Answered(EndCommands(old(job.installed), old(job.restarted), counted), tried)
    ensures job.installed || job.restarted ==>
              job.installed == old(job.installed) && job.restarted == old(job.restarted)
    ensures job.burstSent == old(job.burstSent) && job.loopSet == old(job.loopSet)
    ensures waits != [] ==> wait && !job.installed && !job.restarted
    ensures e != StepError && (e == Went && ok ==> !job.installed && !job.restarted)
    ensures waits == [] && tried != [] ==> e == if tried[|tried| - 1].e == StepError then Went else tried[|tried| - 1].e
    ensures waits == [] ==> (ok <==> !job.installed && !job.restarted)
    ensures waits != [] ==> (ok <==> e == Went && Good(waits, Health) && Good(waits, RxFlows))
    ensures tried == [] ==> e == Went && waits == []
    ensures wait && tried != [] && !job.installed && !job.restarted ==> waits != []
    ensures waits != [] && e == Went ==>
              && |waits| == (if old(job.restarted) then 3 else 2) && waits[0].q == Health && waits[1].q == RxFlows
              && (old(job.restarted) ==> waits[2].q == HilOutputs)
    ensures e != Went ==> Caused(box.log, e)
    ensures c.starts == old(c.starts) + Tally(tried, Counted)
  {
    hide Attempted, Answered, Tally, Good, Waits;
    waits := [];
    ghost var all := EndCommands(job.installed, job.restarted, counted);
    NothingToEnd();
    if !job.installed && !job.restarted {
      return Went, true, [], [];
    }
    var restarted := job.restarted;
    e, tried := EndDropin(box, all);
    assert tried[|tried| - 1].e == e;
    if e != Went {
      return if e == StepError then Went else e, false, tried, [];
    }
    if restarted {
      ghost var more;
      e, more := EndRestart(box, c, counted);
      AttemptedThen([Remove, Reload], all[2..], tried, more);
      TallyJoins(tried, more, Counted);
      assert old(box.log) + tried + more == old(box.log) + (tried + more);
      assert [Remove, Reload] + all[2..] == all;
      tried := tried + more;
      if e != Went {
        return if e == StepError then Went else e, false, tried, [];
      }
    }
    job.installed, job.restarted := false, false;
    if !wait {
      return Went, true, tried, [];
    }
    e, ok, waits := EndWaits(box, restarted);
  }

  lemma NothingToEnd()
    ensures Attempted([], []) && Answered([], []) && Tally([], Counted) == 0 && Waits([])
  {
  }

  /** The drop-in removed and the unit read again. */
  method EndDropin(box: Box, ghost all: seq<Command>) returns (e: Ending, ghost tried: seq<Entry>)
    requires |all| >= 2 && all[0] == Remove && all[1] == Reload
    modifies box
    ensures box.log == old(box.log) + tried && Tally(tried, Counted) == 0 && 0 < |tried| <= 2
    ensures e != EventNow && e == tried[|tried| - 1].e
    ensures if e == Went then Answered([Remove, Reload], tried) else Attempted(all, tried) && !Answered(all, tried)
    ensures |all| == 2 ==> Attempted(all, tried) && (e == Went ==> Answered(all, tried))
  {
    hide Attempted, Answered, Tally;
    NothingTried(all);
    NothingToEnd();
    e := box.Call(Remove, Ignore);
    AttemptOn(all, [], e);
    TallyOn([], Did(Remove, e), Counted);
    tried := [] + [Did(Remove, e)];
    if e != Went {
      return;
    }
    e := box.Call(Reload, Ignore);
    AttemptOn(all, tried, e);
    TallyOn(tried, Did(Reload, e), Counted);
    tried := tried + [Did(Reload, e)];
    assert box.log == old(box.log) + tried;
    assert all[..2] == [Remove, Reload] && (|all| == 2 ==> all[..2] == all);
  }

  /** The restart without it, counted first when there are checks. */
  method EndRestart(box: Box, c: Checks, counted: bool) returns (e: Ending, ghost tried: seq<Entry>)
    modifies box, c`starts
    ensures Attempted(LastCommands(counted), tried) && (e == Went <==> Answered(LastCommands(counted), tried))
    ensures box.log == old(box.log) + tried && 0 < |tried| && e == tried[|tried| - 1].e && e != EventNow
    ensures c.starts == old(c.starts) + Tally(tried, Counted)
  {
    hide Attempted, Answered, Tally;
    ghost var first: seq<Entry> := [];
    CountDone();
    if counted {
      c.CountStart(box);
      first := [Did(Count, Went)];
    }
    ghost var more;
    e, more := RestartEngine(box, End, Ignore);
    EndTallies(first, more, if counted then [Count] else []);
    tried := first + more;
    assert box.log == old(box.log) + tried;
  }

  lemma CountDone()
    ensures Answered([], []) && Answered([Count], [Did(Count, Went)])
    ensures Tally([], Counted) == 0 && Tally([Did(Count, Went)], Counted) == 1
  {
    TallyOn([], Did(Count, Went), Counted);
    assert [] + [Did(Count, Went)] == [Did(Count, Went)];
  }

  lemma EndTallies(done: seq<Entry>, more: seq<Entry>, first: seq<Command>)
    requires Answered(first, done) && Attempted(RestartCommands(End), more)
    ensures Attempted(first + RestartCommands(End), done + more)
    ensures Answered(first + RestartCommands(End), done + more) <==> Answered(RestartCommands(End), more)
    ensures Tally(done + more, Counted) == Tally(done, Counted)
  {
    AttemptedThen(first, RestartCommands(End), done, more);
    TallyJoins(done, more, Counted);
    TallyNone(more, Counted);
  }

  lemma {:induction false} TallyJoins(a: seq<Entry>, b: seq<Entry>, k: Kind)
    ensures Tally(a + b, k) == Tally(a, k) + Tally(b, k)
  {
    if b == [] {
      assert a + b == a;
    } else {
      var less := b[..|b| - 1];
      assert a + b == (a + less) + [b[|b| - 1]] && b == less + [b[|b| - 1]];
      TallyOn(a + less, b[|b| - 1], k);
      TallyJoins(a, less, k);
    }
  }

  lemma {:induction false} TallyNone(log: seq<Entry>, k: Kind)
    requires forall i :: 0 <= i < |log| ==> !Of(log[i], k)
    ensures Tally(log, k) == 0
  {
    if log != [] {
      TallyNone(log[..|log| - 1], k);
    }
  }

  /** Healthy, the flows back and, if it was restarted, the spare outputs gone. */
  method EndWaits(box: Box, restarted: bool) returns (e: Ending, ok: bool, ghost waits: seq<Entry>)
    modifies box
    ensures box.log == old(box.log) + waits && Waits(waits) && waits != [] && e != StepError
    ensures e == Went ==> |waits| == (if restarted then 3 else 2) && waits[0].q == Health && waits[1].q == RxFlows
                          && (restarted ==> waits[2].q == HilOutputs)
    ensures waits[|waits| - 1].e == e && (ok <==> e == Went && Good(waits, Health) && Good(waits, RxFlows))
  {
    var healthy, back, off, n;
    ok := false;
    e, healthy, n := box.Look(Health);
    waits := [Saw(Health, e, healthy, n)];
    if e != Went {
      return;
    }
    e, back, n := box.Look(RxFlows);
    waits := waits + [Saw(RxFlows, e, back, n)];
    if e != Went {
      return;
    }
    if restarted {
      e, off, n := box.Look(HilOutputs);
      waits := waits + [Saw(HilOutputs, e, off, n)];
    }
    assert waits[0].q == Health && waits[0].good == healthy && waits[1].q == RxFlows && waits[1].good == back;
    ok := e == Went && healthy && back;
  }

  // ----- what holds between any two steps of a job

  /** What of a job the box may still hold: while it does, the job remembers. */
  ghost predicate Remembers(f: Flags, log: seq<Entry>) {
    && (f.installed || Followed(log, Install, Remove))
    && (f.loopSet || Followed(log, SetLoop, RestoreLoop))
    && (f.restarted || Followed(log, Restart(Begin), Restart(End)))
  }

  ghost predicate Raises(log: seq<Entry>) {
    exists i :: 0 <= i < |log| && log[i].Raised?
  }

  /** The end has sent nothing, and nothing was raised unless the job was left. */
  ghost predicate Unended(f: Flags, log: seq<Entry>) {
    !Sends(log, Remove) && !Sends(log, Restart(End)) && (f.raised || !Raises(log))
  }

  /** A job before its end, of at most so many starts: it remembers what the box holds, each
      start was noted and counted before it, and a fault met only an engine fit for it. */
  ghost predicate Steady(f: Flags, log: seq<Entry>, most: nat) {
    && Remembers(f, log) && Ahead(log, Noted) && Ahead(log, Counted) && FaultsFit(log) && Unended(f, log)
    && Tally(log, Noted) <= most && Tally(log, Counted) <= most
  }

  /** What a step may add to a steady log. */
  ghost predicate Allowed(f: Flags, log: seq<Entry>, most: nat, x: Entry) {
    && (Is(x, Install) ==> f.installed) && (Is(x, SetLoop) ==> f.loopSet) && (Is(x, Restart(Begin)) ==> f.restarted)
    && !Is(x, Remove) && !Is(x, Restart(End)) && (x.Raised? ==> f.raised) && (Is(x, Fault) ==> FaultFits(log))
    && (Of(x, Start) ==> Tally(log, Start) < Tally(log, Noted) && Tally(log, Start) < Tally(log, Counted))
    && (Of(x, Noted) ==> Tally(log, Noted) < most) && (Of(x, Counted) ==> Tally(log, Counted) < most)
  }

  lemma RemembersOn(f: Flags, log: seq<Entry>, x: Entry)
    requires Remembers(f, log)
    requires (Is(x, Install) ==> f.installed) && (Is(x, SetLoop) ==> f.loopSet)
             && (Is(x, Restart(Begin)) ==> f.restarted)
    ensures Remembers(f, log + [x])
  {
    hide Followed;
    if !f.installed { FollowedAll(log, [x], Install, Remove); }
    if !f.loopSet { FollowedAll(log, [x], SetLoop, RestoreLoop); }
    if !f.restarted { FollowedAll(log, [x], Restart(Begin), Restart(End)); }
  }

  lemma SteadyOn(f: Flags, log: seq<Entry>, most: nat, x: Entry)
    requires Steady(f, log, most) && Allowed(f, log, most, x)
    ensures Steady(f, log + [x], most)
  {
    UnendedOn(f, log, x);
    hide Unended, Remembers, Ahead, FaultsFit, FaultFits, Tally, Sends;
    RemembersOn(f, log, x);
    TallyOn(log, x, Start);
    TallyOn(log, x, Noted);
    TallyOn(log, x, Counted);
    AheadNow(log, Noted);
    AheadNow(log, Counted);
    AheadOn(log, x, Noted);
    AheadOn(log, x, Counted);
    FaultsFitOn(log, x);
  }

  lemma UnendedOn(f: Flags, log: seq<Entry>, x: Entry)
    requires Unended(f, log) && !Is(x, Remove) && !Is(x, Restart(End)) && (x.Raised? ==> f.raised)
    ensures Unended(f, log + [x])
  {
    SendsOn(log, x, Remove);
    SendsOn(log, x, Restart(End));
  }

  lemma SendsOn(log: seq<Entry>, x: Entry, c: Command)
    ensures Sends(log + [x], c) <==> Sends(log, c) || Is(x, c)
  {
    var all := log + [x];
    assert all[|log|] == x;
    if Sends(log, c) {
      var i :| 0 <= i < |log| && Is(log[i], c);
      assert Is(all[i], c);
    }
  }

  /** Nothing but reads, pauses and harmless commands. */
  predicate Plain(x: Entry) {
    x.Saw? || x.Looked? || (x.Did? && PlainCommand(x.c))
  }

  predicate PlainCommand(c: Command) {
    c.Stage? || c.Reload? || c.Reset? || c.NoteAutomatic? || c.TestSignal? || c.StopSignal? || c.RestoreLoop?
  }

  lemma SteadyPlain(f: Flags, log: seq<Entry>, most: nat, x: Entry)
    requires Steady(f, log, most) && Plain(x)
    ensures Steady(f, log + [x], most) && Tally(log + [x], Counted) == Tally(log, Counted)
  {
    hide Steady, FaultFits, Tally;
    TallyOn(log, x, Counted);
    SteadyOn(f, log, most, x);
  }

  /** An exception leaves the job. */
  lemma SteadyRaised(f: Flags, log: seq<Entry>, most: nat, e: Ending)
    requires Steady(f, log, most)
    ensures Steady(f.(raised := true), log + [Raised(e)], most)
            && Tally(log + [Raised(e)], Counted) == Tally(log, Counted)
  {
    hide Steady, FaultFits, Tally;
    TallyOn(log, Raised(e), Counted);
    SteadyMore(f, log, most, f.(raised := true), most);
    SteadyOn(f.(raised := true), log, most, Raised(e));
  }

  lemma SteadySent(f: Flags, log: seq<Entry>, most: nat, x: Entry)
    requires Steady(f, log, most)
    requires (Is(x, Install) && f.installed) || (Is(x, SetLoop) && f.loopSet)
             || (Is(x, Note) && Tally(log, Noted) < most)
             || (Is(x, Restart(Begin)) && f.restarted && Tally(log, Start) < Tally(log, Noted)
                && Tally(log, Start) < Tally(log, Counted))
    ensures Steady(f, log + [x], most) && Tally(log + [x], Counted) == Tally(log, Counted)
  {
    hide Steady, FaultFits, Tally;
    TallyOn(log, x, Counted);
    SteadyOn(f, log, most, x);
  }

  /** Remembering more, or allowing more starts. */
  lemma SteadyMore(f: Flags, log: seq<Entry>, most: nat, g: Flags, more: nat)
    requires Steady(f, log, most) && most <= more
    requires (f.installed ==> g.installed) && (f.restarted ==> g.restarted) && (f.loopSet ==> g.loopSet)
             && (f.raised ==> g.raised)
    ensures Steady(g, log, more)
  {
    hide Ahead, FaultsFit, Tally, Sends, Followed;
  }

  /** The start's note and count, in either order: now a start may be sent. */
  lemma SteadyNoted(f: Flags, log: seq<Entry>, most: nat, e: Ending)
    requires Steady(f, log, most)
    ensures Steady(f, log + [Did(Note, e)], most + 1) && Steady(f, log + [Did(Count, Went)], most + 1)
    ensures Tally(log + [Did(Note, e)], Noted) > Tally(log, Start)
            && Tally(log + [Did(Count, Went)], Counted) > Tally(log, Start)
  {
    hide Steady, FaultFits, Tally, Ahead;
    SteadyNumbers(f, log, most);
    SteadyMore(f, log, most, f, most + 1);
    TallyOn(log, Did(Note, e), Noted);
    TallyOn(log, Did(Count, Went), Counted);
    SteadySent(f, log, most + 1, Did(Note, e));
    SteadyOn(f, log, most + 1, Did(Count, Went));
  }

  lemma SteadyNumbers(f: Flags, log: seq<Entry>, most: nat)
    requires Steady(f, log, most)
    ensures Tally(log, Start) <= Tally(log, Noted) <= most && Tally(log, Start) <= Tally(log, Counted) <= most
  {
    hide Tally, FaultsFit, Followed, Sends;
    AheadNow(log, Noted);
    AheadNow(log, Counted);
  }

  /** Counted, then noted, the counter reset and the engine restarted, however far that got. */
  lemma SteadyRestart(f: Flags, log: seq<Entry>, most: nat, tried: seq<Entry>)
    requires Steady(f, log, most) && f.restarted && Attempted(RestartCommands(Begin), tried)
    ensures Steady(f, log + [Did(Count, Went)] + tried, most + 1)
    ensures Tally(log + [Did(Count, Went)] + tried, Counted) == Tally(log, Counted) + 1
  {
    hide *;
    var counted := log + [Did(Count, Went)];
    RestartTallies(f, log, most, tried);
    SteadyNoted(f, log, most, Went);
    var one := counted + [tried[0]];
    SteadySent(f, counted, most + 1, tried[0]);
    if |tried| == 1 {
      assert counted + tried == one;
    } else {
      var two := one + [tried[1]];
      IsPlain(tried[1]);
      SteadyPlain(f, one, most + 1, tried[1]);
      if |tried| == 2 {
        assert counted + tried == two;
      } else {
        SteadySent(f, two, most + 1, tried[2]);
        assert counted + tried == two + [tried[2]];
      }
    }
  }

  lemma IsPlain(x: Entry)
    requires Is(x, Reset)
    ensures Plain(x)
  {
  }

  /** The numbers behind it. */
  lemma RestartTallies(f: Flags, log: seq<Entry>, most: nat, tried: seq<Entry>)
    requires Steady(f, log, most) && Attempted(RestartCommands(Begin), tried)
    ensures 1 <= |tried| <= 3 && Is(tried[0], Note)
    ensures |tried| > 1 ==> Is(tried[1], Reset)
    ensures |tried| > 2 ==> Is(tried[2], Restart(Begin))
    ensures var counted := log + [Did(Count, Went)];
            && Tally(counted, Noted) < most + 1
            && Tally(counted + tried, Counted) == Tally(log, Counted) + 1
            && (|tried| > 2 ==>
                  var two := counted + [tried[0]] + [tried[1]];
                  Tally(two, Start) < Tally(two, Noted) && Tally(two, Start) < Tally(two, Counted))
  {
    hide Steady, Tally;
    var counted := log + [Did(Count, Went)];
    SteadyNumbers(f, log, most);
    RestartShape(tried);
    hide Attempted;
    TallyOn(log, Did(Count, Went), Start);
    TallyOn(log, Did(Count, Went), Noted);
    TallyOn(log, Did(Count, Went), Counted);
    TallyJoins(counted, tried, Counted);
    TallyNone(tried, Counted);
    if |tried| > 2 {
      var one := counted + [tried[0]];
      TallyOn(counted, tried[0], Start);
      TallyOn(counted, tried[0], Noted);
      TallyOn(counted, tried[0], Counted);
      TallyOn(one, tried[1], Start);
      TallyOn(one, tried[1], Noted);
      TallyOn(one, tried[1], Counted);
    }
  }

  lemma RestartShape(tried: seq<Entry>)
    requires Attempted(RestartCommands(Begin), tried)
    ensures 1 <= |tried| <= 3 && Is(tried[0], Note)
    ensures |tried| > 1 ==> Is(tried[1], Reset)
    ensures |tried| > 2 ==> Is(tried[2], Restart(Begin))
    ensures (|tried| > 1 ==> tried[0].e == Went) && (|tried| > 2 ==> tried[1].e == Went)
    ensures |tried| < 3 ==> tried[|tried| - 1].e != Went
    ensures tried[0] == Did(Note, tried[0].e) && (|tried| > 1 ==> tried[1] == Did(Reset, tried[1].e))
    ensures |tried| > 2 ==> tried[2] == Did(Restart(Begin), tried[2].e)
  {
  }

  /** Every loop set was put back, or at least its put-back was sent. */
  ghost predicate Unlooped(log: seq<Entry>) {
    Followed(log, SetLoop, RestoreLoop)
  }

  lemma UnloopedOn(log: seq<Entry>, more: seq<Entry>)
    requires !Sends(more, SetLoop)
    ensures Unlooped(log) ==> Unlooped(log + more)
  {
    hide Followed;
    if Unlooped(log) {
      FollowedAll(log, more, SetLoop, RestoreLoop);
    }
  }

  lemma SteadyIsUnlooped(f: Flags, log: seq<Entry>, most: nat)
    requires Steady(f, log, most)
    ensures !f.loopSet ==> Unlooped(log)
  {
  }

  // ----- the job, step by step

  /** The flag looked at and the drop-in staged. */
  method StageDropin(job: Job, box: Box, ghost al: bool) returns (e: Ending)
    requires Steady(job.State(), box.log, 0)
    requires PlaceOf(al, box.log) == AtFlag
    modifies box
    ensures PlaceOf(al, box.log) == Then(e, AtInstall)
    ensures e != Went ==> Caused(box.log, e)
    ensures Steady(job.State(), box.log, 0) && Tally(box.log, Counted) == old(Tally(box.log, Counted))
  {
    hide Steady, Tally, PlaceOf;
    e := box.Pause();
    SteadyPlain(job.State(), old(box.log), 0, Looked(e));
    OnFlag(al, old(box.log), e);
    if e != Went {
      return;
    }
    ghost var log := box.log;
    e := box.Call(Stage, Finish);
    SteadyPlain(job.State(), log, 0, Did(Stage, e));
    OnStage(al, log, e);
  }

  /** The drop-in staged, installed, read back and loaded. */
  method InstallDropin(job: Job, box: Box, ghost al: bool) returns (e: Ending)
    requires Steady(job.State(), box.log, 0)
    requires PlaceOf(al, box.log) == AtFlag
    modifies job`installed, box
    ensures PlaceOf(al, box.log) == Then(e, AtCount)
    ensures e != Went ==> Caused(box.log, e)
    ensures Steady(job.State(), box.log, 0) && Tally(box.log, Counted) == old(Tally(box.log, Counted))
    ensures e == Went ==> job.installed && Did(Install, Went) in box.log
  {
    hide Steady, Tally, PlaceOf;
    e := StageDropin(job, box, al);
    if e != Went {
      return;
    }
    SteadyMore(job.State(), box.log, 0, job.State().(installed := true), 0);
    job.installed := true;
    ghost var log := box.log;
    e := box.Call(Install, Finish);
    SteadySent(job.State(), log, 0, Did(Install, e));
    OnInstall(al, log, e);
    if e != Went {
      return;
    }
    log := box.log;
    var same, n;
    e, same, n := box.Look(Dropin);
    SteadyPlain(job.State(), log, 0, Saw(Dropin, e, same, n));
    OnVerify(al, log, e, same, n);
    if e != Went || !same {
      return if e == Went then StepError else e;
    }
    log := box.log;
    e := box.Call(Reload, Finish);
    SteadyPlain(job.State(), log, 0, Did(Reload, e));
    OnLoad(al, log, e);
  }

  /** A read that leaves the job as it is. */
  method Ask(job: Job, box: Box, q: Question, ghost most: nat) returns (e: Ending, good: bool, n: nat)
    requires Steady(job.State(), box.log, most)
    modifies box
    ensures Steady(job.State(), box.log, most) && Tally(box.log, Counted) == old(Tally(box.log, Counted))
    ensures box.log == old(box.log) + [Saw(q, e, good, n)] && e != StepError && (good ==> e == Went)
    ensures e != Went ==> Caused(box.log, e)
  {
    hide Steady, Tally;
    e, good, n := box.Look(q);
    SteadyPlain(job.State(), old(box.log), most, Saw(q, e, good, n));
  }

  /** The drop-in was installed and the engine restarted with it, both answered. */
  ghost predicate Begun(log: seq<Entry>) {
    Did(Install, Went) in log && Did(Restart(Begin), Went) in log
  }

  lemma BegunBy(log: seq<Entry>, tried: seq<Entry>)
    requires Did(Install, Went) in log && Answered(RestartCommands(Begin), tried)
    ensures Begun(log + tried)
  {
    assert tried[2] == Did(Restart(Begin), Went);
  }

  lemma BegunStays(log: seq<Entry>, later: seq<Entry>)
    requires log <= later
    ensures Begun(log) ==> Begun(later)
  {
    assert later == log + later[|log|..];
  }

  /** The drop-in in place and the engine started with it: at most one start, counted and
      noted before it. A check that holds was read. */
  method BeginJob(job: Job, box: Box, c: Checks, ghost al: bool) returns (e: Ending)
    requires Steady(job.State(), box.log, 0) && c.starts == Tally(box.log, Counted)
    requires PlaceOf(al, box.log) == AtFlag
    modifies job`installed, job`restarted, box, c`health, c`rxBack, c`hilOn, c`starts
    ensures PlaceOf(al, box.log) == Then(e, AtVersions(c.health && c.rxBack, c.hilOn))
    ensures e != Went ==> Caused(box.log, e)
    ensures Steady(job.State(), box.log, 1) && c.starts == Tally(box.log, Counted)
    ensures job.loopSet == old(job.loopSet) && job.burstSent == old(job.burstSent)
    ensures e == Went ==> job.installed && job.restarted && Begun(box.log)
    ensures e == Went && c.health ==> Good(box.log, Health)
    ensures e == Went && c.rxBack ==> Good(box.log, RxFlows)
    ensures e == Went && c.hilOn ==> Good(box.log, HilOutputs)
  {
    hide Steady, Tally, Attempted, Good, PlaceOf;
    e := InstallDropin(job, box, al);
    SteadyMore(job.State(), box.log, 0, job.State(), 1);
    if e != Went {
      return;
    }
    SteadyMore(job.State(), box.log, 0, job.State().(restarted := true), 0);
    job.restarted := true;
    ghost var log := box.log;
    c.CountStart(box);
    ghost var tried;
    e, tried := RestartEngine(box, Begin, Finish);
    SteadyRestart(job.State(), log, 0, tried);
    OnCount(al, log);
    RestartLeads(al, log + [Did(Count, Went)], tried);
    if e != Went {
      return;
    }
    BegunBy(log + [Did(Count, Went)], tried);
    ghost var begun := box.log;
    e := BeginReads(job, box, c, al);
    BegunStays(begun, box.log);
  }

  method BeginReads(job: Job, box: Box, c: Checks, ghost al: bool) returns (e: Ending)
    requires Steady(job.State(), box.log, 1)
    requires PlaceOf(al, box.log) == AtHealth
    modifies box, c`health, c`rxBack, c`hilOn
    ensures PlaceOf(al, box.log) == Then(e, AtVersions(c.health && c.rxBack, c.hilOn))
    ensures Steady(job.State(), box.log, 1) && Tally(box.log, Counted) == old(Tally(box.log, Counted))
    ensures e == Went && c.health ==> Good(box.log, Health)
    ensures e == Went && c.rxBack ==> Good(box.log, RxFlows)
    ensures e == Went && c.hilOn ==> Good(box.log, HilOutputs)
    ensures old(box.log) <= box.log
    ensures e != Went ==> Caused(box.log, e)
  {
    hide Steady, Tally, Good, Zero, Caused, PlaceOf;
    var n;
    e, c.health, n := Ask(job, box, Health, 1);
    ghost var health := box.log;
    OnHealth(al, old(box.log), e, c.health, n);
    Shown(health);
    if e != Went {
      return;
    }
    e, c.rxBack, n := Ask(job, box, RxFlows, 1);
    ghost var flows := box.log;
    OnFlows(al, health, c.health, e, c.rxBack, n);
    Shown(flows);
    if e != Went {
      return;
    }
    e, c.hilOn, n := Ask(job, box, HilOutputs, 1);
    OnOutputs(al, flows, c.health && c.rxBack, e, c.hilOn, n);
    Shown(box.log);
    GoodStays(health, box.log, Health);
    GoodStays(flows, box.log, RxFlows);
  }

  lemma Shown(log: seq<Entry>)
    requires log != [] && log[|log| - 1].Saw?
    ensures log[|log| - 1].good ==> Good(log, log[|log| - 1].q)
    ensures log[|log| - 1].good && log[|log| - 1].n == 0 ==> Zero(log, log[|log| - 1].q)
  {
  }

  /** The spare return subscribed to our own output, unless it already is. */
  method SetOwnLoop(job: Job, box: Box, already: bool, ghost al: bool, ghost fit: bool) returns (e: Ending)
    requires Steady(job.State(), box.log, 1)
    requires !job.loopSet && PlaceOf(al, box.log) == if already then AtBurstFlag(fit, false) else AtLoopFlag(fit)
    modifies job`loopSet, box
    ensures PlaceOf(al, box.log) == Then(e, AtBurstFlag(fit, job.loopSet))
    ensures Steady(job.State(), box.log, 1) && Tally(box.log, Counted) == old(Tally(box.log, Counted))
    ensures old(box.log) <= box.log
    ensures e != Went ==> Caused(box.log, e)
  {
    hide Steady, Tally, PlaceOf;
    if already {
      return Went;
    }
    e := box.Pause();
    SteadyPlain(job.State(), old(box.log), 1, Looked(e));
    OnLoopFlag(al, old(box.log), fit, e);
    if e != Went {
      return;
    }
    SteadyMore(job.State(), box.log, 1, job.State().(loopSet := true), 1);
    job.loopSet := true;
    ghost var log := box.log;
    e := box.Call(SetLoop, Ignore);
    SteadySent(job.State(), log, 1, Did(SetLoop, e));
    OnLoopSet(al, log, fit, e);
    if e == Interrupt {
      return;
    }
    if e == StepError {
      return Went;
    }
    var receiving, n;
    log := box.log;
    e, receiving, n := Ask(job, box, LoopFlow, 1);
    OnLoopFlow(al, log, fit, e, receiving, n);
  }

  /** The return put back and read back; it raises nothing but an interrupt of its own two
      calls. The loop is forgotten exactly when the put-back was answered as done and the
      return read back as before. */
  method RestoreOwnLoop(job: Job, box: Box, ghost most: nat) returns (e: Ending, ghost tried: seq<Entry>)
    requires Steady(job.State(), box.log, most)
    modifies job`loopSet, box
    ensures Steady(job.State(), box.log, most) && Tally(box.log, Counted) == old(Tally(box.log, Counted))
    ensures box.log == old(box.log) + tried && PutBack(tried)
    ensures !old(job.loopSet) ==> tried == [] && !job.loopSet
    ensures old(job.loopSet) ==> tried != [] && (!job.loopSet <==> |tried| == 3 && tried[1].good && tried[2].good)
    ensures e == if Interrupted(tried) then Interrupt else Went
    ensures e != Went ==> Caused(box.log, e)
    ensures Unlooped(box.log)
  {
    hide Tally, FaultsFit, Ahead, Sends, Followed, Steady;
    tried := [];
    if !job.loopSet {
      SteadyIsUnlooped(job.State(), box.log, most);
      return Went, [];
    }
    e := box.Call(RestoreLoop, Ignore);
    tried := [Did(RestoreLoop, e)];
    assert tried[0].e == e;
    SteadyPlain(job.State(), old(box.log), most, tried[0]);
    LoopRestored(old(box.log), tried[0]);
    if e != Went {
      return if e == StepError then Went else e, tried;
    }
    ghost var log := box.log;
    var done := box.Word();
    SteadyPlain(job.State(), log, most, Saw(LoopWord, Went, done, 0));
    UnloopedPlain(log, Saw(LoopWord, Went, done, 0));
    log := box.log;
    var same, n;
    e, same, n := box.LookAtLoop();
    SteadyPlain(job.State(), log, most, Saw(LoopBack, e, same, n));
    UnloopedPlain(log, Saw(LoopBack, e, same, n));
    tried := tried + [Saw(LoopWord, Went, done, 0), Saw(LoopBack, e, same, n)];
    assert tried[0].e == Went && tried[1].e == Went && tried[2].e == e;
    assert box.log == old(box.log) + tried;
    if done && same {
      SteadyForgets(job.State(), box.log, most);
      job.loopSet := false;
    }
  }

  /** A put-back's own calls: nothing, the put-back, or the put-back answered and then read. */
  ghost predicate PutBack(tried: seq<Entry>) {
    || tried == []
    || (|tried| == 1 && Is(tried[0], RestoreLoop) && tried[0].e != Went && tried[0].e != EventNow)
    || (|tried| == 3 && tried[0] == Did(RestoreLoop, Went)
        && tried[1].Saw? && tried[1].q == LoopWord && tried[1].e == Went
        && tried[2].Saw? && tried[2].q == LoopBack && tried[2].e != StepError && tried[2].e != EventNow)
  }

  /** An interrupt landed in these steps. */
  ghost predicate Interrupted(tried: seq<Entry>) {
    exists i :: 0 <= i < |tried| && tried[i].e == Interrupt
  }

  lemma LoopRestored(log: seq<Entry>, x: Entry)
    requires Is(x, RestoreLoop)
    ensures Unlooped(log + [x])
  {
    hide Followed;
    assert Is([x][0], RestoreLoop);
    FollowedAll(log, [x], SetLoop, RestoreLoop);
  }

  lemma UnloopedPlain(log: seq<Entry>, x: Entry)
    requires Plain(x)
    ensures Unlooped(log) ==> Unlooped(log + [x])
  {
    hide Unlooped;
    UnloopedOn(log, [x]);
  }

  /** A loop whose put-back was sent may be forgotten. */
  lemma SteadyForgets(f: Flags, log: seq<Entry>, most: nat)
    requires Steady(f, log, most) && Unlooped(log)
    ensures Steady(f.(loopSet := false), log, most)
  {
    hide Tally, Ahead, FaultsFit, Sends, Followed;
  }

  /** One burst, sent once the flag is checked, then heard until it is silent again. */
  method Burst(job: Job, box: Box, ghost al: bool, ghost fit: bool, ghost looped: bool) returns (e: Ending)
    requires Steady(job.State(), box.log, 1)
    requires !job.burstSent && PlaceOf(al, box.log) == AtBurstFlag(fit, looped)
    modifies job`burstSent, box
    ensures PlaceOf(al, box.log) == Then(e, Quieter(fit, looped, job.burstSent))
    ensures Steady(job.State(), box.log, 1) && Tally(box.log, Counted) == old(Tally(box.log, Counted))
    ensures old(box.log) <= box.log
    ensures e != Went ==> Caused(box.log, e)
  {
    hide Steady, Tally, PlaceOf;
    e := box.Pause();
    SteadyPlain(job.State(), old(box.log), 1, Looked(e));
    OnBurstFlag(al, old(box.log), fit, looped, e);
    if e != Went {
      return;
    }
    job.burstSent := true;
    ghost var log := box.log;
    e := box.Call(TestSignal, Finish);
    SteadyPlain(job.State(), log, 1, Did(TestSignal, e));
    OnBurst(al, log, fit, looped, e);
    if e == StepError {
      job.burstSent := false;
      return Went;
    }
    if e != Went {
      return;
    }
    var silent, n;
    log := box.log;
    e, silent, n := Ask(job, box, Sound, 1);
    OnHear(al, log, fit, looped, e, silent, n);
    if silent {
      job.burstSent := false;
    }
  }

  /** A burst that may still sound is stopped, and forgotten exactly when that was answered;
      it raises nothing but an interrupt of its own call. */
  method StopBurst(job: Job, box: Box, ghost most: nat) returns (e: Ending, ghost tried: seq<Entry>)
    requires Steady(job.State(), box.log, most)
    modifies job`burstSent, box
    ensures Steady(job.State(), box.log, most) && Tally(box.log, Counted) == old(Tally(box.log, Counted))
    ensures job.State() == old(job.State())
    ensures box.log == old(box.log) + tried
    ensures if old(job.burstSent) then |tried| == 1 && Is(tried[0], StopSignal) && tried[0].e != EventNow
            else tried == []
    ensures job.burstSent <==> old(job.burstSent) && tried[0].e != Went
    ensures e == if Interrupted(tried) then Interrupt else Went
    ensures e != Went ==> Caused(box.log, e) && tried == [Did(StopSignal, Interrupt)]
  {
    hide Steady, Tally;
    tried := [];
    if !job.burstSent {
      return Went, [];
    }
    e := box.Call(StopSignal, Ignore);
    tried := [Did(StopSignal, e)];
    assert tried[0].e == e;
    SteadyPlain(job.State(), old(box.log), most, tried[0]);
    if e == Went {
      job.burstSent := false;
    }
    if e == StepError {
      e := Went;
    }
  }

  /** Automatic restarts since the begin are read, and noted. */
  method ReadRestarts(job: Job, box: Box, c: Checks, ghost al: bool, ghost fit: bool) returns (e: Ending)
    requires Steady(job.State(), box.log, 1)
    requires PlaceOf(al, box.log) == AtRestarts(fit)
    requires !c.restartsUnread
    modifies box, c`unitRestarts, c`restartsUnread
    ensures PlaceOf(al, box.log) ==
            Then(e, if !c.restartsUnread && c.unitRestarts == 0 && fit then AtUnit else Finished)
    ensures Steady(job.State(), box.log, 1) && Tally(box.log, Counted) == old(Tally(box.log, Counted))
    ensures old(box.log) <= box.log && (Unlooped(old(box.log)) ==> Unlooped(box.log))
    ensures e == Went && !c.restartsUnread && c.unitRestarts == 0 ==> Zero(box.log, Restarts)
    ensures e != Went ==> Caused(box.log, e)
  {
    hide Steady, Unlooped, Tally, Zero, PlaceOf;
    var read, n;
    e, read, n := Ask(job, box, Restarts, 1);
    UnloopedPlain(old(box.log), Saw(Restarts, e, read, n));
    OnRestarts(al, old(box.log), fit, e, read, n);
    Shown(box.log);
    if e != Went {
      return;
    }
    if !read {
      c.restartsUnread := true;
      return;
    }
    c.unitRestarts := n;
    if n > 0 {
      ghost var log := box.log;
      e := NoteThem(job, box, n, 1);
      OnAutomatic(al, log, n, e);
    }
  }

  /** Automatic restarts noted. */
  method NoteThem(job: Job, box: Box, n: nat, ghost most: nat) returns (e: Ending)
    requires Steady(job.State(), box.log, most)
    modifies box
    ensures Steady(job.State(), box.log, most) && Tally(box.log, Counted) == old(Tally(box.log, Counted))
    ensures box.log == old(box.log) + [Did(NoteAutomatic(n), e)] && (Unlooped(old(box.log)) ==> Unlooped(box.log))
    ensures e == Went || e == Interrupt
    ensures e != Went ==> Caused(box.log, e)
  {
    hide Steady, Unlooped, Tally;
    e := box.NoteStarts(NoteAutomatic(n));
    SteadyPlain(job.State(), old(box.log), most, Did(NoteAutomatic(n), e));
    UnloopedPlain(old(box.log), Did(NoteAutomatic(n), e));
  }

  /** The injected fault, its restart noted and counted before it is sent: a fault may come
      into the log only as `FaultsFit` (a part of `Steady`) allows, so none is sent into an
      engine that restarted by itself. */
  method Panic(job: Job, box: Box, c: Checks, ghost al: bool) returns (e: Ending)
    requires Steady(job.State(), box.log, 1) && c.starts == Tally(box.log, Counted) && Fit(box.log)
    requires PlaceOf(al, box.log) == AtUnit
    requires c.unitRestarts == 0
    modifies box, c
    ensures PlaceOf(al, box.log) == Then(e, Finished)
    ensures Steady(job.State(), box.log, 2) && c.starts == Tally(box.log, Counted)
    ensures old(box.log) <= box.log
    ensures Unlooped(old(box.log)) ==> Unlooped(box.log)
    ensures e != Went ==> Caused(box.log, e)
  {
    hide Steady, Tally, Good, Zero, Fit, Unlooped, Caused, FaultFits, PlaceOf;
    ghost var start := box.log;
    var readable, alarm, restartedBefore, n;
    e, readable, restartedBefore := Ask(job, box, EngineUnit, 1);
    SteadyMore(job.State(), box.log, 1, job.State(), 2);
    SawUnlooped(start, EngineUnit, e, readable, restartedBefore);
    OnUnit(al, start, e, readable, restartedBefore);
    if e != Went {
      return;
    }
    ghost var log := box.log;
    e, alarm, n := Ask(job, box, AlarmUnit, 1);
    SteadyMore(job.State(), box.log, 1, job.State(), 2);
    SawUnlooped(log, AlarmUnit, e, alarm, n);
    OnAlarmUnit(al, log, readable, restartedBefore, e, alarm, n);
    if e != Went || !readable || !alarm {
      return;
    }
    if restartedBefore > 0 {
      if restartedBefore > c.unitRestarts {
        log := box.log;
        e := NoteThem(job, box, restartedBefore - c.unitRestarts, 2);
        OnEarlier(al, log, restartedBefore, e);
        if e != Went {
          return;
        }
      }
      c.unitRestarts, c.panicSkipped := restartedBefore, true;
      return;
    }
    assert box.log == start + [Saw(EngineUnit, Went, true, 0), Saw(AlarmUnit, Went, true, n)];
    e := InjectFault(job, box, c, start, n, al);
  }

  /** The flag looked at, the start noted and counted, the fault sent. */
  method InjectFault(job: Job, box: Box, c: Checks, ghost start: seq<Entry>, ghost n: nat, ghost al: bool)
      returns (e: Ending)
    requires Steady(job.State(), box.log, 1) && c.starts == Tally(box.log, Counted) && Fit(start)
    requires box.log == start + [Saw(EngineUnit, Went, true, 0), Saw(AlarmUnit, Went, true, n)]
    requires PlaceOf(al, box.log) == AtFaultFlag
    modifies box, c
    ensures PlaceOf(al, box.log) == Then(e, Finished)
    ensures Steady(job.State(), box.log, 2) && c.starts == Tally(box.log, Counted)
    ensures old(box.log) <= box.log
    ensures Unlooped(old(box.log)) ==> Unlooped(box.log)
    ensures e != Went ==> Caused(box.log, e)
  {
    hide Steady, Tally, Good, Zero, Fit, Unlooped, Caused, FaultFits, PlaceOf;
    ghost var f := job.State();
    e := box.Pause();
    FaultLooked(f, old(box.log), e);
    OnFaultFlag(al, old(box.log), e);
    CausedBy(old(box.log), Looked(e));
    if e != Went {
      return;
    }
    e := box.NoteStarts(Note);
    FaultNoted(f, old(box.log) + [Looked(Went)], e);
    OnFaultNote(al, old(box.log) + [Looked(Went)], e);
    CausedBy(old(box.log) + [Looked(Went)], Did(Note, e));
    if e != Went {
      return;
    }
    c.CountStart(box);
    ghost var counted := box.log;
    OnFaultCount(al, old(box.log) + [Looked(Went)] + [Did(Note, Went)]);
    e := box.Call(Fault, Finish);
    CausedBy(counted, Did(Fault, e));
    OnFault(al, counted, e);
    FaultSent(f, start, old(box.log), n, e);
    if e == StepError {
      return Went;
    }
    if e != Went {
      return;
    }
    e := AfterPanic(job, box, al);
  }

  lemma FaultLooked(f: Flags, log: seq<Entry>, e: Ending)
    requires Steady(f, log, 1)
    ensures Steady(f, log + [Looked(e)], 1) && Steady(f, log + [Looked(e)], 2)
    ensures Tally(log + [Looked(e)], Counted) == Tally(log, Counted)
    ensures Unlooped(log) ==> Unlooped(log + [Looked(e)])
  {
    hide Steady, Tally, Unlooped;
    SteadyPlain(f, log, 1, Looked(e));
    SteadyMore(f, log + [Looked(e)], 1, f, 2);
    UnloopedPlain(log, Looked(e));
  }

  lemma FaultNoted(f: Flags, log: seq<Entry>, e: Ending)
    requires Steady(f, log, 1)
    ensures Steady(f, log + [Did(Note, e)], 2) && Tally(log + [Did(Note, e)], Counted) == Tally(log, Counted)
    ensures Unlooped(log) ==> Unlooped(log + [Did(Note, e)])
  {
    hide Steady, Tally, Unlooped;
    SteadyNoted(f, log, 1, e);
    TallyOn(log, Did(Note, e), Counted);
    UnloopedOn(log, [Did(Note, e)]);
  }

  /** The log right before a fault, and with it. */
  lemma FaultSent(f: Flags, start: seq<Entry>, read: seq<Entry>, n: nat, e: Ending)
    requires read == start + [Saw(EngineUnit, Went, true, 0), Saw(AlarmUnit, Went, true, n)]
    requires Steady(f, read, 1) && Fit(start)
    ensures var log := read + [Looked(Went)] + [Did(Note, Went)] + [Did(Count, Went)];
            && Steady(f, log + [Did(Fault, e)], 2) && Tally(log + [Did(Fault, e)], Counted) == Tally(read, Counted) + 1
            && (Unlooped(read) ==> Unlooped(log + [Did(Fault, e)]))
  {
    hide Steady, Tally, Unlooped, Fit, FaultFits;
    var looked := read + [Looked(Went)];
    var noted := looked + [Did(Note, Went)];
    var log := noted + [Did(Count, Went)];
    FaultLooked(f, read, Went);
    FaultNoted(f, looked, Went);
    FaultCounted(f, looked);
    FaultReady(start, log, n);
    SteadyOn(f, log, 2, Did(Fault, e));
    TallyOn(log, Did(Fault, e), Counted);
    UnloopedOn(noted, [Did(Count, Went)]);
    UnloopedOn(log, [Did(Fault, e)]);
  }

  lemma FaultCounted(f: Flags, looked: seq<Entry>)
    requires Steady(f, looked, 1)
    ensures var log := looked + [Did(Note, Went)] + [Did(Count, Went)];
            && Steady(f, log, 2) && Tally(log, Counted) == Tally(looked, Counted) + 1
            && Tally(log, Start) < Tally(log, Noted) && Tally(log, Start) < Tally(log, Counted)
  {
    hide Steady, Tally, FaultFits;
    var noted := looked + [Did(Note, Went)];
    var log := noted + [Did(Count, Went)];
    SteadyNumbers(f, looked, 1);
    SteadyNoted(f, looked, 1, Went);
    forall k ensures Tally(log, k) == Tally(looked, k) + if k == Start then 0 else 1 {
      TallyOn(looked, Did(Note, Went), k);
      TallyOn(noted, Did(Count, Went), k);
    }
    TallyOn(looked, Did(Note, Went), Counted);
    SteadyOn(f, noted, 2, Did(Count, Went));
  }

  lemma FaultReady(start: seq<Entry>, log: seq<Entry>, n: nat)
    requires Fit(start)
    requires log == start + [Saw(EngineUnit, Went, true, 0), Saw(AlarmUnit, Went, true, n)] + [Looked(Went)]
               + [Did(Note, Went)] + [Did(Count, Went)]
    ensures FaultFits(log)
  {
    hide Fit;
    FitStays(start, log);
  }

  /** The waits after the fault; restarts beyond the one expected are noted too. */
  method AfterPanic(job: Job, box: Box, ghost al: bool) returns (e: Ending)
    requires Steady(job.State(), box.log, 2)
    requires PlaceOf(al, box.log) == AtRunning
    modifies box
    ensures PlaceOf(al, box.log) == Then(e, Finished)
    ensures Steady(job.State(), box.log, 2) && Tally(box.log, Counted) == old(Tally(box.log, Counted))
    ensures old(box.log) <= box.log
    ensures Unlooped(old(box.log)) ==> Unlooped(box.log)
    ensures e != Went ==> Caused(box.log, e)
  {
    hide Steady, Tally, Good, Zero, Fit, Unlooped, Caused, FaultFits, PlaceOf;
    var running, read, logged, more, n;
    e, running, n := Ask(job, box, PanicBack, 2);
    SawUnlooped(old(box.log), PanicBack, e, running, n);
    OnRunning(al, old(box.log), e, running, n);
    if e != Went {
      return;
    }
    ghost var log := box.log;
    e, read, more := Ask(job, box, PanicRestarts, 2);
    SawUnlooped(log, PanicRestarts, e, read, more);
    OnRereads(al, log, e, read, more);
    if e != Went {
      return;
    }
    if read && more > 1 {
      log := box.log;
      e := NoteThem(job, box, more - 1, 2);
      OnMore(al, log, more - 1, e);
      if e != Went {
        return;
      }
    }
    log := box.log;
    e, logged, n := Ask(job, box, Journal, 2);
    SawUnlooped(log, Journal, e, logged, n);
    OnJournal(al, log, e, logged, n);
  }

  /** The loop, the burst, its stop and the loop's end. */
  method Signals(job: Job, box: Box, alreadyLooped: bool, ghost al: bool, ghost fit: bool) returns (e: Ending)
    requires Steady(job.State(), box.log, 1) && !job.loopSet && !job.burstSent
    requires PlaceOf(al, box.log) == if alreadyLooped then AtBurstFlag(fit, false) else AtLoopFlag(fit)
    modifies job`loopSet, job`burstSent, box
    ensures PlaceOf(al, box.log) == Then(e, AtAlarm(fit))
    ensures Steady(job.State(), box.log, 1) && Tally(box.log, Counted) == old(Tally(box.log, Counted))
    ensures old(box.log) <= box.log && (e == Went ==> Unlooped(box.log))
    ensures e != Went ==> Caused(box.log, e)
  {
    hide Steady, Tally, Unlooped, Caused, PlaceOf;
    e := SetOwnLoop(job, box, alreadyLooped, al, fit);
    if e != Went {
      return;
    }
    e := Burst(job, box, al, fit, job.loopSet);
    if e != Went {
      return;
    }
    e := Quiet(job, box, al, fit);
  }

  method Quiet(job: Job, box: Box, ghost al: bool, ghost fit: bool) returns (e: Ending)
    requires Steady(job.State(), box.log, 1) && PlaceOf(al, box.log) == Quieter(fit, job.loopSet, job.burstSent)
    modifies job`loopSet, job`burstSent, box
    ensures PlaceOf(al, box.log) == Then(e, AtAlarm(fit))
    ensures Steady(job.State(), box.log, 1) && Tally(box.log, Counted) == old(Tally(box.log, Counted))
    ensures old(box.log) <= box.log && (e == Went ==> Unlooped(box.log))
    ensures e != Went ==> Caused(box.log, e)
  {
    hide Steady, Tally, Unlooped, Caused, PlaceOf, Interrupted, PutBack, Quieter;
    ghost var tried;
    ghost var log, looped, sent := box.log, job.loopSet, job.burstSent;
    e, tried := StopBurst(job, box, 1);
    StopLeads(al, log, fit, looped, sent, tried, e);
    if e != Went {
      return;
    }
    log := box.log;
    e, tried := RestoreOwnLoop(job, box, 1);
    BackLeads(al, log, fit, looped, tried, e);
  }

  lemma RestartLeads(al: bool, log: seq<Entry>, tried: seq<Entry>)
    requires PlaceOf(al, log) == AtNote && Attempted(RestartCommands(Begin), tried)
    ensures PlaceOf(al, log + tried) == Then(tried[|tried| - 1].e, AtHealth)
  {
    hide *;
    RestartShape(tried);
    NextIs(AtReset, AtHealth);
    NextIs(AtRestart, AtHealth);
    OnNote(al, log, tried[0].e);
    if |tried| == 1 {
      assert tried == [tried[0]];
    } else {
      OnReset(al, log + [tried[0]], tried[1].e);
      if |tried| == 2 {
        assert log + tried == log + [tried[0]] + [tried[1]];
      } else {
        OnRestart(al, log + [tried[0]] + [tried[1]], tried[2].e);
        assert log + tried == log + [tried[0]] + [tried[1]] + [tried[2]];
      }
    }
  }

  lemma NextIs(p: Place, q: Place)
    ensures Then(Went, p) == p && forall e :: e != Went ==> Then(e, p) == Then(e, q)
  {
  }

  lemma StopLeads(al: bool, log: seq<Entry>, fit: bool, looped: bool, sent: bool, tried: seq<Entry>, e: Ending)
    requires PlaceOf(al, log) == Quieter(fit, looped, sent)
    requires if sent then |tried| == 1 && Is(tried[0], StopSignal) && tried[0].e != EventNow else tried == []
    requires e == if Interrupted(tried) then Interrupt else Went
    ensures PlaceOf(al, log + tried) == Then(e, Quieter(fit, looped, false))
  {
    hide PlaceOf;
    if sent {
      assert tried == [tried[0]] && (Interrupted(tried) <==> tried[0].e == Interrupt);
      OnStop(al, log, fit, looped, tried[0].e);
    } else {
      assert log + tried == log;
    }
  }

  lemma BackLeads(al: bool, log: seq<Entry>, fit: bool, looped: bool, tried: seq<Entry>, e: Ending)
    requires PlaceOf(al, log) == Quieter(fit, looped, false) && (looped <==> tried != [])
    requires PutBack(tried) && e == if Interrupted(tried) then Interrupt else Went
    ensures PlaceOf(al, log + tried) == Then(e, AtAlarm(fit))
  {
    hide PlaceOf;
    if tried == [] {
      assert log + tried == log;
    } else {
      var one := log + [tried[0]];
      OnBack(al, log, fit, tried[0].e);
      if |tried| == 1 {
        assert tried == [tried[0]] && (Interrupted(tried) <==> tried[0].e == Interrupt);
      } else {
        var two := one + [tried[1]];
        assert Interrupted(tried) <==> tried[2].e == Interrupt;
        OnBackWord(al, one, fit, tried[1].e, tried[1].good, tried[1].n);
        OnBackRead(al, two, fit, tried[2].e, tried[2].good, tried[2].n);
        assert log + tried == two + [tried[2]];
      }
    }
  }

  /** Everything between the begin and the end: at most two starts, each noted and counted
      before it, a fault only into a fit engine, and a loop it set put back when it returns. */
  method InJob(job: Job, box: Box, c: Checks, alreadyLooped: bool, ghost al: bool) returns (e: Ending)
    requires Steady(job.State(), box.log, 0) && c.starts == Tally(box.log, Counted) && !job.loopSet
    requires PlaceOf(al, box.log) == AtFlag && al == alreadyLooped
    requires !job.burstSent && !c.restartsUnread && c.unitRestarts == 0
    modifies job`installed, job`restarted, job`loopSet, job`burstSent, box, c
    ensures PlaceOf(al, box.log) == Then(e, Finished)
    ensures e != Went ==> Caused(box.log, e)
    ensures Steady(job.State(), box.log, 2) && c.starts == Tally(box.log, Counted)
    ensures e == Went ==> Unlooped(box.log) && job.installed && job.restarted && Begun(box.log)
  {
    hide Steady, Tally, Good, Unlooped, Begun, PlaceOf, Caused;
    e := BeginJob(job, box, c, al);
    SteadyIsUnlooped(job.State(), box.log, 1);
    SteadyMore(job.State(), box.log, 1, job.State(), 2);
    if e != Went {
      return;
    }
    ghost var begun := box.log;
    e := Listen(job, box, c, alreadyLooped, al);
    SteadyMore(job.State(), box.log, 1, job.State(), 2);
    if e != Went {
      return;
    }
    e := Conclude(job, box, c, begun, al);
    BegunStays(begun, box.log);
  }

  /** The versions read and, with the spare outputs open, the signals. */
  method Listen(job: Job, box: Box, c: Checks, alreadyLooped: bool, ghost al: bool) returns (e: Ending)
    requires Steady(job.State(), box.log, 1) && !job.loopSet && !job.burstSent && Unlooped(box.log)
    requires PlaceOf(al, box.log) == AtVersions(c.health && c.rxBack, c.hilOn) && al == alreadyLooped
    modifies job`loopSet, job`burstSent, box
    ensures PlaceOf(al, box.log) == Then(e, AtAlarm(c.health && c.rxBack && c.hilOn))
    ensures Steady(job.State(), box.log, 1) && Tally(box.log, Counted) == old(Tally(box.log, Counted))
    ensures old(box.log) <= box.log && (e == Went ==> Unlooped(box.log))
    ensures e != Went ==> Caused(box.log, e)
  {
    hide Steady, Tally, Unlooped, PlaceOf, Caused;
    var answer, n;
    e, answer, n := Ask(job, box, Versions, 1);
    SawUnlooped(old(box.log), Versions, e, answer, n);
    OnVersions(al, old(box.log), c.health && c.rxBack, c.hilOn, e, answer, n);
    if e == Went && c.hilOn {
      e := Signals(job, box, alreadyLooped, al, c.health && c.rxBack);
    }
  }

  /** The alarm's path and the restarts read, and the fault if the engine is fit for it. */
  method Conclude(job: Job, box: Box, c: Checks, ghost begun: seq<Entry>, ghost al: bool) returns (e: Ending)
    requires Steady(job.State(), box.log, 1) && c.starts == Tally(box.log, Counted) && Unlooped(box.log)
    requires PlaceOf(al, box.log) == AtAlarm(c.health && c.rxBack && c.hilOn) && !c.restartsUnread && begun <= box.log
    requires c.health ==> Good(begun, Health)
    requires c.rxBack ==> Good(begun, RxFlows)
    requires c.hilOn ==> Good(begun, HilOutputs)
    modifies box, c
    ensures PlaceOf(al, box.log) == Then(e, Finished)
    ensures Steady(job.State(), box.log, 2) && c.starts == Tally(box.log, Counted)
    ensures old(box.log) <= box.log && (e == Went ==> Unlooped(box.log))
    ensures e != Went ==> Caused(box.log, e)
  {
    hide Steady, Tally, Good, Zero, Fit, Unlooped, PlaceOf, Caused;
    ghost var fit := c.health && c.rxBack && c.hilOn;
    var answer, n;
    e, answer, n := Ask(job, box, AlarmPath, 1);
    SawUnlooped(old(box.log), AlarmPath, e, answer, n);
    OnAlarm(al, old(box.log), fit, e, answer, n);
    SteadyMore(job.State(), box.log, 1, job.State(), 2);
    if e != Went {
      return;
    }
    e := ReadRestarts(job, box, c, al, fit);
    SteadyMore(job.State(), box.log, 1, job.State(), 2);
    if e != Went {
      return;
    }
    if c.hilOn && c.health && c.rxBack && c.unitRestarts == 0 && !c.restartsUnread {
      StillFit(begun, box.log);
      e := Panic(job, box, c, al);
    } else {
      c.panicSkipped := true;
    }
  }

  lemma StillFit(begun: seq<Entry>, log: seq<Entry>)
    requires begun <= log && Good(begun, Health) && Good(begun, RxFlows) && Good(begun, HilOutputs)
             && Zero(log, Restarts)
    ensures Fit(log)
  {
    hide Good, Zero;
    GoodStays(begun, log, Health);
    GoodStays(begun, log, RxFlows);
    GoodStays(begun, log, HilOutputs);
  }

  lemma SawUnlooped(log: seq<Entry>, q: Question, e: Ending, good: bool, n: nat)
    ensures Unlooped(log) ==> Unlooped(log + [Saw(q, e, good, n)])
  {
    UnloopedPlain(log, Saw(q, e, good, n));
  }

  // ----- joining logs

  lemma {:induction false} TallyOnce(log: seq<Entry>, k: Kind, at: nat)
    requires forall i :: 0 <= i < |log| && i != at ==> !Of(log[i], k)
    ensures Tally(log, k) == if at < |log| && Of(log[at], k) then 1 else 0
  {
    if at >= |log| {
      TallyNone(log, k);
    } else if |log| - 1 == at {
      TallyNone(log[..at], k);
    } else {
      TallyOnce(log[..|log| - 1], k, at);
    }
  }

  lemma AheadJoins(a: seq<Entry>, b: seq<Entry>, k: Kind)
    requires Ahead(a, k) && Ahead(b, k)
    ensures Ahead(a + b, k)
  {
    hide Tally;
    var all := a + b;
    AheadNow(a, k);
    forall n | 0 <= n <= |all| ensures Tally(all[..n], Start) <= Tally(all[..n], k) {
      if n <= |a| {
        assert all[..n] == a[..n];
      } else {
        var m := n - |a|;
        assert all[..n] == a + b[..m];
        TallyJoins(a, b[..m], Start);
        TallyJoins(a, b[..m], k);
      }
    }
  }

  lemma FaultsFitJoins(a: seq<Entry>, b: seq<Entry>)
    requires FaultsFit(a) && !Sends(b, Fault)
    ensures FaultsFit(a + b)
  {
    hide FaultFits;
    var all := a + b;
    assert forall i :: |a| <= i < |all| ==> all[i] == b[i - |a|] && !Is(all[i], Fault);
    forall i | 0 <= i < |all| && Is(all[i], Fault) ensures FaultFits(all[..i]) {
      assert all[..i] == a[..i];
    }
  }

  lemma WaitsAreQuiet(waits: seq<Entry>, k: Kind)
    requires Waits(waits)
    ensures Ahead(waits, k) && Tally(waits, k) == 0 && forall c :: !Sends(waits, c)
  {
    TallyNone(waits, k);
    forall n | 0 <= n <= |waits| ensures Tally(waits[..n], Start) <= Tally(waits[..n], k) {
      TallyNone(waits[..n], Start);
    }
  }

  // ----- the end, whatever part of it was sent

  /** Its one start comes last, noted before it and, if there are checks, counted before it. */
  lemma EndIsAhead(installed: bool, restarted: bool, counted: bool, tried: seq<Entry>)
    requires Attempted(EndCommands(installed, restarted, counted), tried)
    ensures Ahead(tried, Noted) && (counted ==> Ahead(tried, Counted))
    ensures Tally(tried, Noted) <= 1 && Tally(tried, Counted) <= 1
  {
    var all := EndCommands(installed, restarted, counted);
    var note := if counted then 3 else 2;
    forall i | 0 <= i < |tried|
      ensures (i != note ==> !Of(tried[i], Noted)) && (i != 2 ==> !Of(tried[i], Counted))
              && (i < note + 2 ==> !Of(tried[i], Start))
    {
      assert Is(tried[i], all[i]);
    }
    TallyOnce(tried, Noted, note);
    TallyOnce(tried, Counted, 2);
    forall n | 0 <= n <= |tried|
      ensures Tally(tried[..n], Start) <= Tally(tried[..n], Noted)
              && (counted ==> Tally(tried[..n], Start) <= Tally(tried[..n], Counted))
    {
      var part := tried[..n];
      TallyOnce(part, Start, note + 2);
      TallyOnce(part, Noted, note);
      TallyOnce(part, Counted, 2);
      if n > note + 2 {
        assert Is(tried[note], all[note]) && (counted ==> Is(tried[2], all[2]));
      }
    }
  }

  /** Some command before the end's restart was not answered. */
  ghost predicate Fails(tried: seq<Entry>) {
    exists i :: 0 <= i < |tried| && FailsAt(tried[i])
  }

  predicate FailsAt(x: Entry) {
    x.Did? && x.e != Went && x.c != Restart(End)
  }

  predicate CleansUp(x: Entry) {
    Is(x, StopSignal) || Is(x, RestoreLoop) || (x.Saw? && (x.q == LoopWord || x.q == LoopBack))
  }

  /** What an end sends, and what it does not. */
  lemma EndSends(installed: bool, restarted: bool, counted: bool, tried: seq<Entry>)
    requires Attempted(EndCommands(installed, restarted, counted), tried)
    ensures !Sends(tried, Install) && !Sends(tried, SetLoop) && !Sends(tried, Restart(Begin)) && !Sends(tried, Fault)
    ensures installed || restarted ==> tried != [] && Is(tried[0], Remove)
    ensures !installed && !restarted ==> tried == []
    ensures !restarted ==> !Sends(tried, Restart(End))
    ensures restarted ==> (Sends(tried, Restart(End)) <==> !Fails(tried))
    ensures forall i :: 0 <= i < |tried| ==> !CleansUp(tried[i]) && !tried[i].Raised?
  {
    var all := EndCommands(installed, restarted, counted);
    forall i | 0 <= i < |tried|
      ensures !Is(tried[i], Install) && !Is(tried[i], SetLoop) && !Is(tried[i], Restart(Begin)) && !Is(tried[i], Fault)
    {
      assert Is(tried[i], all[i]);
    }
    if installed || restarted {
      assert Is(tried[0], all[0]);
    }
    if restarted {
      var n := |all|;
      assert forall i :: 0 <= i < n ==> (all[i] == Restart(End) <==> i == n - 1);
      if |tried| == n {
        assert Is(tried[n - 1], Restart(End));
      } else {
        assert !tried[|tried| - 1].Raised? && Is(tried[|tried| - 1], all[|tried| - 1]);
      }
    }
  }

  /** A call of the end before its restart was not answered: from the removal on every command
      is the end's. */
  ghost predicate EndFailed(log: seq<Entry>) {
    exists i, j :: 0 <= i <= j < |log| && Is(log[i], Remove) && FailsAt(log[j])
  }

  /** The clean-up itself was interrupted: a burst's stop or a loop's put-back, after the job
      had raised. */
  ghost predicate CleanUpInterrupted(log: seq<Entry>) {
    exists i, j :: 0 <= i < j < |log| && log[i].Raised? && CleansUp(log[j]) && log[j].e == Interrupt
  }

  /** Each start was counted before it was sent: up to the end on every path, and in the end
      too when the job did not raise. */
  ghost predicate CountedFirst(log: seq<Entry>) {
    forall n :: 0 <= n <= |log| && (!Sends(log[..n], Remove) || !Raises(log)) ==>
        Tally(log[..n], Start) <= Tally(log[..n], Counted)
  }

  /** The clean-up's very first call was: the loop's put-back comes after it. */
  ghost predicate StopInterrupted(log: seq<Entry>) {
    exists i, j :: 0 <= i < j < |log| && log[i].Raised? && log[j] == Did(StopSignal, Interrupt)
  }

  /** What is promised of a whole run. An installed drop-in's removal is sent after it exactly
      when the clean-up was not interrupted. The begin's restart is followed by the end's
      exactly when, besides, every call of the end before that was answered. A set loop's
      put-back is sent after it unless the burst's stop was interrupted in the clean-up. */
  ghost predicate Undone(log: seq<Entry>) {
    && (Sends(log, Install) ==> (Followed(log, Install, Remove) <==> !CleanUpInterrupted(log)))
    && (Sends(log, Restart(Begin)) ==>
          (Followed(log, Restart(Begin), Restart(End)) <==> !CleanUpInterrupted(log) && !EndFailed(log)))
    && (StopInterrupted(log) || Followed(log, SetLoop, RestoreLoop))
  }

  /** Every start noted before it, at most three noted, counted and sent; faults only into
      an engine fit for one. */
  ghost predicate Measured(log: seq<Entry>) {
    && Ahead(log, Noted) && Tally(log, Noted) <= 3 && Tally(log, Counted) <= 3 && Tally(log, Start) <= 3
    && FaultsFit(log) && CountedFirst(log)
  }

  lemma EndIsMeasured(f: Flags, log: seq<Entry>, counted: bool, tried: seq<Entry>, waits: seq<Entry>)
    requires Steady(f, log, 2) && Attempted(EndCommands(f.installed, f.restarted, counted), tried) && Waits(waits)
    requires counted || Raises(log)
    requires waits != [] ==> tried != []
    ensures Measured(log + tried + waits)
    ensures Tally(log + tried + waits, Counted) == Tally(log, Counted) + Tally(tried, Counted)
  {
    EndIsAhead(f.installed, f.restarted, counted, tried);
    EndSends(f.installed, f.restarted, counted, tried);
    WaitsAreQuiet(waits, Noted);
    WaitsAreQuiet(waits, Counted);
    SteadyNumbers(f, log, 2);
    assert Ahead(log, Noted) && Ahead(log, Counted) && FaultsFit(log) && !Sends(log, Remove);
    var all := log + tried + waits;
    hide Tally, FaultFits, Steady, Attempted, EndCommands, Ahead, FaultsFit, Waits;
    EndJoins(log, tried, waits, Noted);
    EndJoins(log, tried, waits, Counted);
    AheadNow(all, Noted);
    FaultsFitJoins(log, tried);
    FaultsFitJoins(log + tried, waits);
    if counted {
      CountedThroughout(all);
    } else {
      CountedUpToEnd(log, tried, waits);
    }
  }

  lemma EndJoins(log: seq<Entry>, tried: seq<Entry>, waits: seq<Entry>, k: Kind)
    requires Tally(waits, k) == 0
    ensures Ahead(log, k) && Ahead(tried, k) && Ahead(waits, k) ==> Ahead(log + tried + waits, k)
    ensures Tally(log + tried + waits, k) == Tally(log, k) + Tally(tried, k)
  {
    hide Tally, Ahead;
    if Ahead(log, k) && Ahead(tried, k) && Ahead(waits, k) {
      AheadJoins(log, tried, k);
      AheadJoins(log + tried, waits, k);
    }
    TallyJoins(log, tried, k);
    TallyJoins(log + tried, waits, k);
  }

  lemma CountedThroughout(log: seq<Entry>)
    requires Ahead(log, Counted)
    ensures CountedFirst(log)
  {
    hide Tally;
  }

  lemma CountedUpToEnd(log: seq<Entry>, tried: seq<Entry>, waits: seq<Entry>)
    requires Ahead(log, Counted) && Raises(log) && (tried == [] ==> waits == [])
             && (tried != [] ==> Is(tried[0], Remove))
    ensures CountedFirst(log + tried + waits)
  {
    hide Tally;
    var all := log + tried + waits;
    assert Raises(all) by {
      var i :| 0 <= i < |log| && log[i].Raised?;
      assert all[i].Raised?;
    }
    forall n | |log| < n <= |all| ensures Sends(all[..n], Remove) {
      assert Is(all[..n][|log|], Remove);
    }
    forall n | 0 <= n <= |all| && !Sends(all[..n], Remove) ensures Tally(all[..n], Start) <= Tally(all[..n], Counted) {
      assert all[..n] == log[..n];
    }
  }

  lemma EndIsUndone(f: Flags, log: seq<Entry>, counted: bool, tried: seq<Entry>, waits: seq<Entry>)
    requires Steady(f, log, 2) && Unlooped(log) && Attempted(EndCommands(f.installed, f.restarted, counted), tried)
             && Waits(waits)
    requires !CleanUpInterrupted(log)
    ensures Undone(log + tried + waits)
  {
    EndSends(f.installed, f.restarted, counted, tried);
    WaitsAreQuiet(waits, Noted);
    NotInterrupted(log, tried, waits);
    SteadyRemembers(f, log, 2);
    hide Steady, Tally, Attempted, EndCommands, Waits, CleanUpInterrupted, Followed, EndFailed;
    var later := log + tried;
    FollowedAll(log, tried, Install, Remove);
    FollowedAll(later, waits, Install, Remove);
    FollowedAll(log, tried, SetLoop, RestoreLoop);
    FollowedAll(later, waits, SetLoop, RestoreLoop);
    EndFailsBy(log, tried, waits);
    if Sends(later + waits, Restart(Begin)) {
      SentEarlier(log, tried, waits, Restart(Begin));
      if Sends(tried, Restart(End)) {
        FollowedAll(log, tried, Restart(Begin), Restart(End));
        FollowedAll(later, waits, Restart(Begin), Restart(End));
      } else {
        SentEarlier(log, tried, waits, Restart(End));
        NeverFollowed(later + waits, Restart(Begin), Restart(End));
      }
    }
  }

  lemma SteadyRemembers(f: Flags, log: seq<Entry>, most: nat)
    requires Steady(f, log, most)
    ensures f.installed || Followed(log, Install, Remove)
    ensures !Sends(log, Remove) && !Sends(log, Restart(End))
    ensures !f.installed ==> !Sends(log, Install)
    ensures !f.restarted ==> !Sends(log, Restart(Begin))
  {
    hide Ahead, FaultsFit, Tally;
  }

  lemma NeverFollowed(log: seq<Entry>, a: Command, b: Command)
    requires Sends(log, a) && !Sends(log, b)
    ensures !Followed(log, a, b)
  {
  }

  lemma Joined(log: seq<Entry>, tried: seq<Entry>, waits: seq<Entry>, i: nat)
    requires i < |log| + |tried| + |waits|
    ensures (log + tried + waits)[i] ==
            if i < |log| then log[i] else if i - |log| < |tried| then tried[i - |log|] else waits[i - |log| - |tried|]
  {
  }

  /** What the end and its waits do not send was sent before them. */
  lemma SentEarlier(log: seq<Entry>, tried: seq<Entry>, waits: seq<Entry>, c: Command)
    requires !Sends(tried, c) && !Sends(waits, c)
    ensures Sends(log + tried + waits, c) ==> Sends(log, c)
  {
    var all := log + tried + waits;
    if Sends(all, c) {
      var i :| 0 <= i < |all| && Is(all[i], c);
      Joined(log, tried, waits, i);
    }
  }

  lemma EndFailsBy(log: seq<Entry>, tried: seq<Entry>, waits: seq<Entry>)
    requires !Sends(log, Remove) && Waits(waits) && (tried != [] ==> Is(tried[0], Remove))
    ensures EndFailed(log + tried + waits) <==> Fails(tried)
  {
    var all := log + tried + waits;
    if Fails(tried) {
      var i :| 0 <= i < |tried| && FailsAt(tried[i]);
      assert Is(all[|log|], Remove) && all[|log| + i] == tried[i];
    }
    if EndFailed(all) {
      var i, j :| 0 <= i <= j < |all| && Is(all[i], Remove) && FailsAt(all[j]);
      Joined(log, tried, waits, i);
      Joined(log, tried, waits, j);
    }
  }

  /** Neither the end nor its waits clean up. */
  lemma NotInterrupted(log: seq<Entry>, tried: seq<Entry>, waits: seq<Entry>)
    requires !CleanUpInterrupted(log) && Waits(waits)
    requires forall i :: 0 <= i < |tried| ==> !CleansUp(tried[i])
    ensures !CleanUpInterrupted(log + tried + waits)
  {
    var all := log + tried + waits;
    forall i, j | 0 <= i < j < |all| && all[i].Raised? && CleansUp(all[j]) ensures all[j].e != Interrupt {
      Joined(log, tried, waits, i);
      Joined(log, tried, waits, j);
    }
  }

  // ----- the whole run

  /** The burst stopped and the loop put back, before the end of a run that raised. It is over
      unless one of these very calls was interrupted. */
  method CleanUp(job: Job, box: Box) returns (e: Ending, ghost tried: seq<Entry>)
    requires Steady(job.State(), box.log, 2)
    modifies job`burstSent, job`loopSet, box
    ensures Steady(job.State(), box.log, 2) && Tally(box.log, Counted) == old(Tally(box.log, Counted))
    ensures box.log == old(box.log) + tried && forall i :: 0 <= i < |tried| ==> CleansUp(tried[i])
    ensures e == if Interrupted(tried) then Interrupt else Went
    ensures e != Went ==> Caused(box.log, e)
    ensures Unlooped(box.log) || (e == Interrupt && Did(StopSignal, Interrupt) in tried)
  {
    hide Steady, Tally, Unlooped, Caused, Interrupted, PutBack;
    ghost var stop, back;
    e, stop := StopBurst(job, box, 2);
    tried := stop;
    if e != Went {
      return;
    }
    e, back := RestoreOwnLoop(job, box, 2);
    tried := stop + back;
    CleanUpJoins(stop, back);
  }

  lemma CleanUpJoins(stop: seq<Entry>, back: seq<Entry>)
    requires PutBack(back) && forall i :: 0 <= i < |stop| ==> Is(stop[i], StopSignal)
    ensures forall i :: 0 <= i < |stop + back| ==> CleansUp((stop + back)[i])
    ensures Interrupted(stop + back) <==> Interrupted(stop) || Interrupted(back)
  {
    var all := stop + back;
    assert forall i :: 0 <= i < |stop| ==> all[i] == stop[i];
    assert forall i :: 0 <= i < |back| ==> all[|stop| + i] == back[i] && CleansUp(back[i]);
    assert forall i :: |stop| <= i < |all| ==> all[i] == back[i - |stop|];
  }

  /** Out of the job by what it raised, through its clean-up; an interrupt of that leaves the run. */
  method Leave(job: Job, box: Box, al: bool, e: Ending) returns (clean: Ending, ghost tried: seq<Entry>)
    requires Steady(job.State(), box.log, 2) && !job.raised && Over(PlaceOf(al, box.log))
    modifies job`burstSent, job`loopSet, job`raised, box
    ensures Steady(job.State(), box.log, 2) && Tally(box.log, Counted) == old(Tally(box.log, Counted))
    ensures box.log == old(box.log) + [Raised(e)] + tried && forall i :: 0 <= i < |tried| ==> CleansUp(tried[i])
    ensures PlaceOf(al, box.log) == old(PlaceOf(al, box.log)) && Raises(box.log)
    ensures clean == Went ==> Unlooped(box.log) && !CleanUpInterrupted(box.log)
    ensures clean != Went ==> Undone(box.log) && Measured(box.log) && Explained(box.log, Interrupt)
    ensures clean != Went && Raised(EventNow) in box.log ==> !IsWait(box.log[|box.log| - 1])
  {
    hide Steady, Tally, Undone, Measured, Attempted, Unlooped, Caused, Explained, Raises, CleanUpInterrupted,
      Interrupted, CleansUp, PlaceOf, IsWait, Waits;
    ghost var left := box.log;
    SteadyNeverRaised(job.State(), left, 2);
    box.Raise(e);
    OverStays(al, left, [Raised(e)]);
    SteadyRaised(job.State(), left, 2, e);
    JustRaised(left, e);
    job.raised := true;
    clean, tried := CleanUp(job, box);
    OverStays(al, left + [Raised(e)], tried);
    RaisesStays(left + [Raised(e)], tried);
    if clean != Went {
      NothingAttempted();
      FlagNeverWaits(left, e, tried, [], [], []);
      assert box.log == left + [Raised(e)] + tried + [] + [];
      CutIsMeasured(job.State(), box.log);
      CutIsUndone(job.State(), left, e, tried);
      CutExplains(box.log, Interrupt);
    } else {
      CleanedUp(left, e, tried);
    }
  }

  /** One HIL run from the accepted budget on: the job, on an exception its clean-up, and the
      end. Whatever fails or is interrupted anywhere, its log is `Undone` and `Measured`, and
      an ending by an error or a cut is `Explained` by it. */
  method Run(box: Box, alreadyLooped: bool) returns (e: Ending, starts: nat)
    requires box.log == []
    modifies box
    ensures Undone(box.log) && Measured(box.log)
    ensures e == Went ==> Begun(box.log) && !Raises(box.log)
    ensures PlaceOf(alreadyLooped, box.log) == if Raises(box.log) then Left else Finished
    ensures e != Went ==> Explained(box.log, e)
    ensures e == Went ==> Waited(box.log) || (box.log != [] && box.log[|box.log| - 1].e == StepError)
    ensures Raised(EventNow) in box.log ==> !IsWait(box.log[|box.log| - 1])
    ensures starts == Tally(box.log, Counted)
  {
    hide Steady, Tally, Undone, Measured, Attempted, Waits, Answered, Unlooped, Followed, Begun, Caused, Explained,
      Raises, CleanUpInterrupted, Interrupted, CleansUp, EndCommands, Good, Sends, PlaceOf,
      Waited, IsWait;
    var job := new Job(false, false);
    var c := new Checks();
    NothingSent();
    AtFirst(alreadyLooped);
    e := InJob(job, box, c, alreadyLooped, alreadyLooped);
    var went := e == Went;
    ghost var left, cleaned: seq<Entry> := box.log, [];
    SteadyNeverRaised(job.State(), left, 2);
    if !went {
      var clean;
      clean, cleaned := Leave(job, box, alreadyLooped, e);
      if clean != Went {
        return Interrupt, c.starts;
      }
    }
    ghost var f, log := job.State(), box.log;
    var end, ok;
    ghost var tried, waits;
    end, ok, tried, waits := EndJob(job, box, c, went, e != EventNow);
    EndKeeps(alreadyLooped, f, log, went, tried, waits);
    starts := c.starts;
    if went {
      NotRaised(box.log, EventNow);
    } else {
      FlagNeverWaits(left, e, cleaned, EndCommands(f.installed, f.restarted, went), tried, waits);
    }
    if end != Went {
      CutExplains(box.log, end);
      return end, starts;
    }
    if went {
      BegunStays(log, box.log);
      EndSends(true, true, true, tried);
      EndWaited(log, tried, waits, !job.installed && !job.restarted);
    } else {
      RaisedExplains(left, e, box.log);
    }
  }

  /** What the end leaves: measured, undone, at the same place of the procedure, raised or not as before. */
  lemma EndKeeps(al: bool, f: Flags, log: seq<Entry>, went: bool, tried: seq<Entry>, waits: seq<Entry>)
    requires Steady(f, log, 2) && Unlooped(log) && Attempted(EndCommands(f.installed, f.restarted, went), tried)
    requires Waits(waits) && (waits != [] ==> tried != [])
    requires !CleanUpInterrupted(log) && (went <==> !Raises(log)) && Over(PlaceOf(al, log))
    ensures var all := log + tried + waits;
            && Measured(all) && Undone(all) && PlaceOf(al, all) == PlaceOf(al, log) && (went <==> !Raises(all))
            && Tally(all, Counted) == Tally(log, Counted) + Tally(tried, Counted)
  {
    hide *;
    EndIsMeasured(f, log, went, tried, waits);
    EndIsUndone(f, log, went, tried, waits);
    OverStays(al, log, tried);
    OverStays(al, log + tried, waits);
    if went {
      EndNeverRaises(f, log, went, tried, waits);
    } else {
      RaisesStays(log, tried);
      RaisesStays(log + tried, waits);
    }
  }

  /** After a job that went through: the end's commands were not all answered, or its waits came. */
  lemma EndWaited(log: seq<Entry>, tried: seq<Entry>, waits: seq<Entry>, over: bool)
    requires Attempted(EndCommands(true, true, true), tried) && Waits(waits)
    requires over <==> Answered(EndCommands(true, true, true), tried)
    requires waits != [] <==> over
    requires over ==> |waits| == 3 && waits[0].q == Health && waits[1].q == RxFlows && waits[2].q == HilOutputs
    ensures tried != [] && (!over ==> tried[|tried| - 1].e != Went)
    ensures over ==> Waited(log + tried + waits)
    ensures !over ==> (log + tried + waits)[|log + tried + waits| - 1] == tried[|tried| - 1]
  {
    var all := log + tried + waits;
    if over {
      var n := |all|;
      assert all[n - 3] == waits[0] && all[n - 2] == waits[1] && all[n - 1] == waits[2];
    } else {
      UnansweredEnds(EndCommands(true, true, true), tried);
    }
  }

  lemma UnansweredEnds(all: seq<Command>, tried: seq<Entry>)
    requires all != [] && Attempted(all, tried) && !Answered(all, tried)
    ensures tried != [] && tried[|tried| - 1].e != Went
  {
    if |tried| == |all| && tried[|tried| - 1].e == Went {
      forall i | 0 <= i < |tried| ensures tried[i] == Did(all[i], Went) {
        assert Is(tried[i], all[i]);
      }
    }
  }

  /** Only what the job raised is in the log as raised. */
  lemma RaisedOnce(left: seq<Entry>, e: Ending, clean: seq<Entry>, tried: seq<Entry>, waits: seq<Entry>, x: Ending)
    requires !Raises(left) && Raised(x) in left + [Raised(e)] + clean + tried + waits
    requires forall i :: 0 <= i < |clean| ==> CleansUp(clean[i])
    requires forall i :: 0 <= i < |tried| ==> !tried[i].Raised?
    requires Waits(waits)
    ensures x == e
  {
    NotRaised(left, x);
  }

  /** A job left for the flag is ended without waiting. */
  lemma FlagNeverWaits(left: seq<Entry>, e: Ending, clean: seq<Entry>, all: seq<Command>, tried: seq<Entry>,
                       waits: seq<Entry>)
    requires !Raises(left) && (e == EventNow ==> waits == []) && Attempted(all, tried) && Waits(waits)
    requires forall i :: 0 <= i < |clean| ==> CleansUp(clean[i])
    ensures var log := left + [Raised(e)] + clean + tried + waits;
            Raised(EventNow) in log ==> !IsWait(log[|log| - 1])
  {
    var log := left + [Raised(e)] + clean + tried + waits;
    assert forall i :: 0 <= i < |tried| ==> Is(tried[i], all[i]);
    if Raised(EventNow) in log {
      RaisedOnce(left, e, clean, tried, waits, EventNow);
      hide Attempted, Raises;
      if tried != [] {
        assert log[|log| - 1] == tried[|tried| - 1];
      } else if clean != [] {
        assert log[|log| - 1] == clean[|clean| - 1];
      } else {
        assert log[|log| - 1] == Raised(e);
      }
    }
  }

  lemma NothingAttempted()
    ensures Attempted([], []) && Waits([])
  {
  }

  lemma NotRaised(log: seq<Entry>, e: Ending)
    requires !Raises(log)
    ensures Raised(e) !in log
  {
  }

  lemma JustRaised(log: seq<Entry>, e: Ending)
    ensures Raises(log + [Raised(e)])
  {
    assert (log + [Raised(e)])[|log|] == Raised(e);
  }

  lemma RaisesStays(log: seq<Entry>, more: seq<Entry>)
    requires Raises(log)
    ensures Raises(log + more)
  {
    var i :| 0 <= i < |log| && log[i].Raised?;
    assert (log + more)[i] == log[i];
  }

  lemma NothingSent()
    ensures Steady(Flags(false, false, false, false), [], 0) && Tally([], Counted) == 0
  {
  }

  /** A run whose clean-up was interrupted before the end. */
  lemma CutIsMeasured(f: Flags, log: seq<Entry>)
    requires Steady(f, log, 2)
    ensures Measured(log)
  {
    hide Tally, FaultFits, Followed;
    SteadyNumbers(f, log, 2);
    CountedThroughout(log);
  }

  lemma CutInterrupts(log: seq<Entry>, e: Ending, tried: seq<Entry>)
    requires Interrupted(tried) && forall i :: 0 <= i < |tried| ==> CleansUp(tried[i])
    ensures CleanUpInterrupted(log + [Raised(e)] + tried)
    ensures Did(StopSignal, Interrupt) in tried ==> StopInterrupted(log + [Raised(e)] + tried)
  {
    var all := log + [Raised(e)] + tried;
    var i :| 0 <= i < |tried| && tried[i].e == Interrupt;
    assert all[|log|] == Raised(e) && all[|log| + 1 + i] == tried[i];
    if Did(StopSignal, Interrupt) in tried {
      var j :| 0 <= j < |tried| && tried[j] == Did(StopSignal, Interrupt);
      assert all[|log| + 1 + j] == tried[j];
    }
  }

  lemma CutIsUndone(f: Flags, log: seq<Entry>, e: Ending, tried: seq<Entry>)
    requires Interrupted(tried) && forall i :: 0 <= i < |tried| ==> CleansUp(tried[i])
    requires Steady(f, log + [Raised(e)] + tried, 2)
    requires Unlooped(log + [Raised(e)] + tried) || Did(StopSignal, Interrupt) in tried
    ensures Undone(log + [Raised(e)] + tried)
  {
    var all := log + [Raised(e)] + tried;
    CutInterrupts(log, e, tried);
    hide Steady, Sends, Followed, CleanUpInterrupted, StopInterrupted, EndFailed, Interrupted, CleansUp;
    SteadyRemembers(f, all, 2);
    if Sends(all, Install) {
      NeverFollowed(all, Install, Remove);
    }
    if Sends(all, Restart(Begin)) {
      NeverFollowed(all, Restart(Begin), Restart(End));
    }
  }

  /** A clean-up that got through. */
  lemma CleanedUp(log: seq<Entry>, e: Ending, tried: seq<Entry>)
    requires !Raises(log) && !Interrupted(tried)
    ensures Raises(log + [Raised(e)] + tried) && !CleanUpInterrupted(log + [Raised(e)] + tried)
  {
    var all := log + [Raised(e)] + tried;
    assert all[|log|] == Raised(e);
    forall i, j | 0 <= i < j < |all| && all[i].Raised? ensures all[j].e != Interrupt {
      Joined(log, [Raised(e)], tried, i);
      Joined(log, [Raised(e)], tried, j);
    }
  }

  lemma SteadyNeverRaised(f: Flags, log: seq<Entry>, most: nat)
    requires Steady(f, log, most) && !f.raised
    ensures !Raises(log) && !CleanUpInterrupted(log)
  {
    hide Ahead, FaultsFit, Tally, Sends, Followed;
  }

  /** The end itself raises nothing for a clean-up. */
  lemma EndNeverRaises(f: Flags, log: seq<Entry>, counted: bool, tried: seq<Entry>, waits: seq<Entry>)
    requires !Raises(log) && Attempted(EndCommands(f.installed, f.restarted, counted), tried) && Waits(waits)
    ensures !Raises(log + tried + waits)
  {
    EndSends(f.installed, f.restarted, counted, tried);
    hide Attempted, EndCommands, Sends, Fails, CleansUp;
    var all := log + tried + waits;
    forall i | 0 <= i < |all| ensures !all[i].Raised? {
      Joined(log, tried, waits, i);
    }
  }

  lemma CutExplains(log: seq<Entry>, e: Ending)
    requires Caused(log, e) && e != StepError
    ensures Explained(log, e)
  {
  }

  lemma RaisedExplains(log: seq<Entry>, e: Ending, all: seq<Entry>)
    requires log + [Raised(e)] <= all && Caused(log, e)
    ensures Explained(all, e)
  {
    assert all[|log|] == (log + [Raised(e)])[|log|] && all[..|log|] == log;
  }

  /** A second end after one that got through sends nothing. */
  method EndTwice(job: Job, box: Box, c: Checks) returns (first: bool)
    modifies job, box, c
    ensures first <==> !job.installed && !job.restarted
    ensures first ==> exists tried :: Answered(EndCommands(old(job.installed), old(job.restarted), true), tried)
                                      && box.log == old(box.log) + tried
  {
    hide Tally, Attempted, Answered, Waits;
    var e, ok;
    ghost var tried, waits, none;
    e, ok, tried, waits := EndJob(job, box, c, true, false);
    first := !job.installed && !job.restarted;
    if first {
      assert box.log == old(box.log) + tried;
      e, ok, none, waits := EndJob(job, box, c, true, true);
      NothingAgain(none);
    }
  }

  lemma NothingAgain(tried: seq<Entry>)
    requires Attempted(EndCommands(false, false, true), tried)
    ensures tried == []
  {
  }

  /** A job a dead run left: nothing is sent while it is not known whether the engine still
      runs with the flag, or when the restart would pass the budget; else the end's commands,
      with a restart exactly when it does, all of them unless one is not answered. */
  method EndLeft(box: Box, readable: bool, inHil: bool, withinBudget: bool)
    returns (e: Ending, ghost tried: seq<Entry>, ghost waits: seq<Entry>)
    modifies box
    ensures box.log == old(box.log) + tried + waits && Waits(waits)
    ensures !readable || (inHil && !withinBudget) ==> e == StepError && tried == [] && waits == []
    ensures readable && (inHil ==> withinBudget) ==> Attempted(EndCommands(true, inHil, false), tried)
    ensures e == Went ==> Answered(EndCommands(true, inHil, false), tried)
    ensures readable && (inHil ==> withinBudget) && e == StepError ==>
              !Answered(EndCommands(true, inHil, false), tried) || !Good(waits, Health) || !Good(waits, RxFlows)
    ensures Tally(tried, Noted) <= 1
  {
    hide Attempted, Answered, Tally;
    tried, waits := [], [];
    NothingToEnd();
    if !readable || (inHil && !withinBudget) {
      NothingSent();
      TallyNone([], Noted);
      return StepError, [], [];
    }
    var job := new Job(true, inHil);
    var c := new Checks();
    var ok;
    e, ok, tried, waits := EndJob(job, box, c, false, true);
    EndIsAhead(true, inHil, false, tried);
    if e == Went && !ok {
      e := StepError;
    }
  }
}
