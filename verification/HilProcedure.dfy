/**
The procedure of a HIL job, step by step and answer by answer: an automaton over the log of a
run. `PlaceOf` reads where a log has led; a log that leaves the procedure is astray.
*/
module HilProcedure {
  import opened HilLog

  /** Where a run is: the step that comes next with what is remembered for it (whether the
      engine was healthy with its flows back and its outputs open, and so is fit for a fault;
      whether a loop was set), or that the job is finished, or left by an exception; or that a
      step came which was not due. */
  datatype Place =
    | AtFlag | AtStage | AtInstall | AtVerify | AtLoad | AtCount | AtNote | AtReset | AtRestart
    | AtHealth | AtFlows(ok: bool) | AtOutputs(ok: bool) | AtVersions(ok: bool, open: bool)
    | AtLoopFlag(fit: bool) | AtLoopSet(fit: bool) | AtLoopFlow(fit: bool)
    | AtBurstFlag(fit: bool, looped: bool) | AtBurst(fit: bool, looped: bool) | AtHear(fit: bool, looped: bool)
    | AtStop(fit: bool, looped: bool) | AtBack(fit: bool) | AtBackWord(fit: bool) | AtBackRead(fit: bool)
    | AtAlarm(fit: bool) | AtRestarts(fit: bool) | AtAutomatic(n: nat)
    | AtUnit | AtAlarmUnit(read: bool, k: nat) | AtEarlier(n: nat)
    | AtFaultFlag | AtFaultNote | AtFaultCount | AtFault | AtRunning | AtRereads | AtMore(n: nat) | AtJournal
    | Finished | Left | Astray

  predicate Over(p: Place) {
    p.Finished? || p.Left?
  }

  /** On to the next step, unless this one failed or was cut. */
  function Then(e: Ending, next: Place): Place {
    if e == Went then next else Left
  }

  /** Without spare outputs there is nothing to play; a loop that is there is not set. */
  function AfterVersions(already: bool, ok: bool, open: bool): Place {
    if !open then AtAlarm(false) else if already then AtBurstFlag(ok, false) else AtLoopFlag(ok)
  }

  /** After the burst: it is stopped if it may still sound, and a loop that was set put back. */
  function Quieter(fit: bool, looped: bool, sounding: bool): Place {
    if sounding then AtStop(fit, looped) else if looped then AtBack(fit) else AtAlarm(fit)
  }

  /** Restarts are noted; a fault comes only into a fit engine that was read as never restarted. */
  function AfterRestarts(fit: bool, read: bool, n: nat): Place {
    if !read then Finished else if n > 0 then AtAutomatic(n) else if fit then AtUnit else Finished
  }

  function AfterUnits(read: bool, n: nat): Place {
    if !read then Finished else if n > 0 then AtEarlier(n) else AtFaultFlag
  }

  predicate Reads(x: Entry, q: Question) {
    x.Saw? && x.q == q
  }

  /** The step a place is at. */
  predicate Due(p: Place, x: Entry) {
    match p
    case AtFlag => x.Looked?
    case AtStage => Is(x, Stage)
    case AtInstall => Is(x, Install)
    case AtVerify => Reads(x, Dropin)
    case AtLoad => Is(x, Reload)
    case AtCount => Is(x, Count)
    case AtNote => Is(x, Note)
    case AtReset => Is(x, Reset)
    case AtRestart => Is(x, Restart(Begin))
    case AtHealth => Reads(x, Health)
    case AtFlows(_) => Reads(x, RxFlows)
    case AtOutputs(_) => Reads(x, HilOutputs)
    case AtVersions(_, _) => Reads(x, Versions)
    case AtLoopFlag(_) => x.Looked?
    case AtLoopSet(_) => Is(x, SetLoop)
    case AtLoopFlow(_) => Reads(x, LoopFlow)
    case AtBurstFlag(_, _) => x.Looked?
    case AtBurst(_, _) => Is(x, TestSignal)
    case AtHear(_, _) => Reads(x, Sound)
    case AtStop(_, _) => Is(x, StopSignal)
    case AtBack(_) => Is(x, RestoreLoop)
    case AtBackWord(_) => Reads(x, LoopWord)
    case AtBackRead(_) => Reads(x, LoopBack)
    case AtAlarm(_) => Reads(x, AlarmPath)
    case AtRestarts(_) => Reads(x, Restarts)
    case AtAutomatic(n) => Is(x, NoteAutomatic(n))
    case AtUnit => Reads(x, EngineUnit)
    case AtAlarmUnit(_, _) => Reads(x, AlarmUnit)
    case AtEarlier(n) => Is(x, NoteAutomatic(n))
    case AtFaultFlag => x.Looked?
    case AtFaultNote => Is(x, Note)
    case AtFaultCount => Is(x, Count)
    case AtFault => Is(x, Fault)
    case AtRunning => Reads(x, PanicBack)
    case AtRereads => Reads(x, PanicRestarts)
    case AtMore(n) => Is(x, NoteAutomatic(n))
    case AtJournal => Reads(x, Journal)
    case Finished => true
    case Left => true
    case Astray => false
  }

  /** Where it leads. A loop that cannot be set, a burst that cannot be sent or stopped and a
      put-back that fails are passed over; a fault that is refused ends the job. */
  function Led(al: bool, p: Place, x: Entry): Place
    requires Due(p, x)
  {
    match p
    case AtFlag => Then(x.e, AtStage)
    case AtStage => Then(x.e, AtInstall)
    case AtInstall => Then(x.e, AtVerify)
    case AtVerify => if x.good then Then(x.e, AtLoad) else Left
    case AtLoad => Then(x.e, AtCount)
    case AtCount => AtNote
    case AtNote => Then(x.e, AtReset)
    case AtReset => Then(x.e, AtRestart)
    case AtRestart => Then(x.e, AtHealth)
    case AtHealth => Then(x.e, AtFlows(x.good))
    case AtFlows(ok) => Then(x.e, AtOutputs(ok && x.good))
    case AtOutputs(ok) => Then(x.e, AtVersions(ok, x.good))
    case AtVersions(ok, open) => Then(x.e, AfterVersions(al, ok, open))
    case AtLoopFlag(fit) => Then(x.e, AtLoopSet(fit))
    case AtLoopSet(fit) => if x.e == StepError then AtBurstFlag(fit, true) else Then(x.e, AtLoopFlow(fit))
    case AtLoopFlow(fit) => Then(x.e, AtBurstFlag(fit, true))
    case AtBurstFlag(fit, looped) => Then(x.e, AtBurst(fit, looped))
    case AtBurst(fit, looped) =>
      if x.e == StepError then Quieter(fit, looped, false) else Then(x.e, AtHear(fit, looped))
    case AtHear(fit, looped) => Then(x.e, Quieter(fit, looped, !x.good))
    case AtStop(fit, looped) => if x.e == Interrupt then Left else Quieter(fit, looped, false)
    case AtBack(fit) => if x.e == StepError then AtAlarm(fit) else Then(x.e, AtBackWord(fit))
    case AtBackWord(fit) => AtBackRead(fit)
    case AtBackRead(fit) => Then(x.e, AtAlarm(fit))
    case AtAlarm(fit) => Then(x.e, AtRestarts(fit))
    case AtRestarts(fit) => Then(x.e, AfterRestarts(fit, x.good, x.n))
    case AtAutomatic(_) => Then(x.e, Finished)
    case AtUnit => Then(x.e, AtAlarmUnit(x.good, x.n))
    case AtAlarmUnit(read, k) => Then(x.e, AfterUnits(read && x.good, k))
    case AtEarlier(_) => Then(x.e, Finished)
    case AtFaultFlag => Then(x.e, AtFaultNote)
    case AtFaultNote => Then(x.e, AtFaultCount)
    case AtFaultCount => AtFault
    case AtFault => if x.e == StepError then Finished else Then(x.e, AtRunning)
    case AtRunning => Then(x.e, AtRereads)
    case AtRereads => Then(x.e, if x.good && x.n > 1 then AtMore(x.n - 1) else AtJournal)
    case AtMore(_) => Then(x.e, AtJournal)
    case AtJournal => Then(x.e, Finished)
    case Finished => p
    case Left => p
    case Astray => p
  }

  function Onward(al: bool, p: Place, x: Entry): Place {
    if Due(p, x) then Led(al, p, x) else Astray
  }

  /** Where a log has led, from the flag on; `al`: a loop was there before. */
  function PlaceOf(al: bool, log: seq<Entry>): Place {
    if log == [] then AtFlag else Onward(al, PlaceOf(al, log[..|log| - 1]), log[|log| - 1])
  }

  lemma AtFirst(al: bool)
    ensures PlaceOf(al, []) == AtFlag
  {
  }

  lemma Stepped(al: bool, log: seq<Entry>, x: Entry)
    ensures PlaceOf(al, log + [x]) == Onward(al, PlaceOf(al, log), x)
  {
    assert (log + [x])[..|log|] == log;
  }

  /** A job that is finished or left stays so, whatever follows. */
  lemma {:induction false} OverStays(al: bool, log: seq<Entry>, more: seq<Entry>)
    requires Over(PlaceOf(al, log))
    ensures PlaceOf(al, log + more) == PlaceOf(al, log)
  {
    hide PlaceOf;
    if more == [] {
      assert log + more == log;
    } else {
      var n := |more| - 1;
      OverStays(al, log, more[..n]);
      assert log + more == log + more[..n] + [more[n]];
      Stepped(al, log + more[..n], more[n]);
    }
  }

  // ----- its steps one by one

  lemma OnFlag(al: bool, log: seq<Entry>, e: Ending)
    requires PlaceOf(al, log) == AtFlag
    ensures PlaceOf(al, log + [Looked(e)]) == Then(e, AtStage)
  {
    hide PlaceOf;
    Stepped(al, log, Looked(e));
  }

  lemma OnStage(al: bool, log: seq<Entry>, e: Ending)
    requires PlaceOf(al, log) == AtStage
    ensures PlaceOf(al, log + [Did(Stage, e)]) == Then(e, AtInstall)
  {
    hide PlaceOf;
    Stepped(al, log, Did(Stage, e));
  }

  lemma OnInstall(al: bool, log: seq<Entry>, e: Ending)
    requires PlaceOf(al, log) == AtInstall
    ensures PlaceOf(al, log + [Did(Install, e)]) == Then(e, AtVerify)
  {
    hide PlaceOf;
    Stepped(al, log, Did(Install, e));
  }

  lemma OnVerify(al: bool, log: seq<Entry>, e: Ending, good: bool, n: nat)
    requires PlaceOf(al, log) == AtVerify
    ensures PlaceOf(al, log + [Saw(Dropin, e, good, n)]) == (if good then Then(e, AtLoad) else Left)
  {
    hide PlaceOf;
    Stepped(al, log, Saw(Dropin, e, good, n));
  }

  lemma OnLoad(al: bool, log: seq<Entry>, e: Ending)
    requires PlaceOf(al, log) == AtLoad
    ensures PlaceOf(al, log + [Did(Reload, e)]) == Then(e, AtCount)
  {
    hide PlaceOf;
    Stepped(al, log, Did(Reload, e));
  }

  lemma OnCount(al: bool, log: seq<Entry>)
    requires PlaceOf(al, log) == AtCount
    ensures PlaceOf(al, log + [Did(Count, Went)]) == AtNote
  {
    hide PlaceOf;
    Stepped(al, log, Did(Count, Went));
  }

  lemma OnNote(al: bool, log: seq<Entry>, e: Ending)
    requires PlaceOf(al, log) == AtNote
    ensures PlaceOf(al, log + [Did(Note, e)]) == Then(e, AtReset)
  {
    hide PlaceOf;
    Stepped(al, log, Did(Note, e));
  }

  lemma OnReset(al: bool, log: seq<Entry>, e: Ending)
    requires PlaceOf(al, log) == AtReset
    ensures PlaceOf(al, log + [Did(Reset, e)]) == Then(e, AtRestart)
  {
    hide PlaceOf;
    Stepped(al, log, Did(Reset, e));
  }

  lemma OnRestart(al: bool, log: seq<Entry>, e: Ending)
    requires PlaceOf(al, log) == AtRestart
    ensures PlaceOf(al, log + [Did(Restart(Begin), e)]) == Then(e, AtHealth)
  {
    hide PlaceOf;
    Stepped(al, log, Did(Restart(Begin), e));
  }

  lemma OnHealth(al: bool, log: seq<Entry>, e: Ending, good: bool, n: nat)
    requires PlaceOf(al, log) == AtHealth
    ensures PlaceOf(al, log + [Saw(Health, e, good, n)]) == Then(e, AtFlows(good))
  {
    hide PlaceOf;
    Stepped(al, log, Saw(Health, e, good, n));
  }

  lemma OnFlows(al: bool, log: seq<Entry>, ok: bool, e: Ending, good: bool, n: nat)
    requires PlaceOf(al, log) == AtFlows(ok)
    ensures PlaceOf(al, log + [Saw(RxFlows, e, good, n)]) == Then(e, AtOutputs(ok && good))
  {
    hide PlaceOf;
    Stepped(al, log, Saw(RxFlows, e, good, n));
  }

  lemma OnOutputs(al: bool, log: seq<Entry>, ok: bool, e: Ending, good: bool, n: nat)
    requires PlaceOf(al, log) == AtOutputs(ok)
    ensures PlaceOf(al, log + [Saw(HilOutputs, e, good, n)]) == Then(e, AtVersions(ok, good))
  {
    hide PlaceOf;
    Stepped(al, log, Saw(HilOutputs, e, good, n));
  }

  lemma OnVersions(al: bool, log: seq<Entry>, ok: bool, open: bool, e: Ending, good: bool, n: nat)
    requires PlaceOf(al, log) == AtVersions(ok, open)
    ensures PlaceOf(al, log + [Saw(Versions, e, good, n)]) == Then(e, AfterVersions(al, ok, open))
  {
    hide PlaceOf;
    Stepped(al, log, Saw(Versions, e, good, n));
  }

  lemma OnLoopFlag(al: bool, log: seq<Entry>, fit: bool, e: Ending)
    requires PlaceOf(al, log) == AtLoopFlag(fit)
    ensures PlaceOf(al, log + [Looked(e)]) == Then(e, AtLoopSet(fit))
  {
    hide PlaceOf;
    Stepped(al, log, Looked(e));
  }

  lemma OnLoopSet(al: bool, log: seq<Entry>, fit: bool, e: Ending)
    requires PlaceOf(al, log) == AtLoopSet(fit)
    ensures PlaceOf(al, log + [Did(SetLoop, e)]) ==
            (if e == StepError then AtBurstFlag(fit, true) else Then(e, AtLoopFlow(fit)))
  {
    hide PlaceOf;
    Stepped(al, log, Did(SetLoop, e));
  }

  lemma OnLoopFlow(al: bool, log: seq<Entry>, fit: bool, e: Ending, good: bool, n: nat)
    requires PlaceOf(al, log) == AtLoopFlow(fit)
    ensures PlaceOf(al, log + [Saw(LoopFlow, e, good, n)]) == Then(e, AtBurstFlag(fit, true))
  {
    hide PlaceOf;
    Stepped(al, log, Saw(LoopFlow, e, good, n));
  }

  lemma OnBurstFlag(al: bool, log: seq<Entry>, fit: bool, looped: bool, e: Ending)
    requires PlaceOf(al, log) == AtBurstFlag(fit, looped)
    ensures PlaceOf(al, log + [Looked(e)]) == Then(e, AtBurst(fit, looped))
  {
    hide PlaceOf;
    Stepped(al, log, Looked(e));
  }

  lemma OnBurst(al: bool, log: seq<Entry>, fit: bool, looped: bool, e: Ending)
    requires PlaceOf(al, log) == AtBurst(fit, looped)
    ensures PlaceOf(al, log + [Did(TestSignal, e)]) ==
            (if e == StepError then Quieter(fit, looped, false) else Then(e, AtHear(fit, looped)))
  {
    hide PlaceOf;
    Stepped(al, log, Did(TestSignal, e));
  }

  lemma OnHear(al: bool, log: seq<Entry>, fit: bool, looped: bool, e: Ending, good: bool, n: nat)
    requires PlaceOf(al, log) == AtHear(fit, looped)
    ensures PlaceOf(al, log + [Saw(Sound, e, good, n)]) == Then(e, Quieter(fit, looped, !good))
  {
    hide PlaceOf;
    Stepped(al, log, Saw(Sound, e, good, n));
  }

  lemma OnStop(al: bool, log: seq<Entry>, fit: bool, looped: bool, e: Ending)
    requires PlaceOf(al, log) == AtStop(fit, looped)
    ensures PlaceOf(al, log + [Did(StopSignal, e)]) == (if e == Interrupt then Left else Quieter(fit, looped, false))
  {
    hide PlaceOf;
    Stepped(al, log, Did(StopSignal, e));
  }

  lemma OnBack(al: bool, log: seq<Entry>, fit: bool, e: Ending)
    requires PlaceOf(al, log) == AtBack(fit)
    ensures PlaceOf(al, log + [Did(RestoreLoop, e)]) ==
            (if e == StepError then AtAlarm(fit) else Then(e, AtBackWord(fit)))
  {
    hide PlaceOf;
    Stepped(al, log, Did(RestoreLoop, e));
  }

  lemma OnBackWord(al: bool, log: seq<Entry>, fit: bool, e: Ending, good: bool, n: nat)
    requires PlaceOf(al, log) == AtBackWord(fit)
    ensures PlaceOf(al, log + [Saw(LoopWord, e, good, n)]) == AtBackRead(fit)
  {
    hide PlaceOf;
    Stepped(al, log, Saw(LoopWord, e, good, n));
  }

  lemma OnBackRead(al: bool, log: seq<Entry>, fit: bool, e: Ending, good: bool, n: nat)
    requires PlaceOf(al, log) == AtBackRead(fit)
    ensures PlaceOf(al, log + [Saw(LoopBack, e, good, n)]) == Then(e, AtAlarm(fit))
  {
    hide PlaceOf;
    Stepped(al, log, Saw(LoopBack, e, good, n));
  }

  lemma OnAlarm(al: bool, log: seq<Entry>, fit: bool, e: Ending, good: bool, n: nat)
    requires PlaceOf(al, log) == AtAlarm(fit)
    ensures PlaceOf(al, log + [Saw(AlarmPath, e, good, n)]) == Then(e, AtRestarts(fit))
  {
    hide PlaceOf;
    Stepped(al, log, Saw(AlarmPath, e, good, n));
  }

  lemma OnRestarts(al: bool, log: seq<Entry>, fit: bool, e: Ending, good: bool, n: nat)
    requires PlaceOf(al, log) == AtRestarts(fit)
    ensures PlaceOf(al, log + [Saw(Restarts, e, good, n)]) == Then(e, AfterRestarts(fit, good, n))
  {
    hide PlaceOf;
    Stepped(al, log, Saw(Restarts, e, good, n));
  }

  lemma OnAutomatic(al: bool, log: seq<Entry>, n: nat, e: Ending)
    requires PlaceOf(al, log) == AtAutomatic(n)
    ensures PlaceOf(al, log + [Did(NoteAutomatic(n), e)]) == Then(e, Finished)
  {
    hide PlaceOf;
    Stepped(al, log, Did(NoteAutomatic(n), e));
  }

  lemma OnUnit(al: bool, log: seq<Entry>, e: Ending, good: bool, n: nat)
    requires PlaceOf(al, log) == AtUnit
    ensures PlaceOf(al, log + [Saw(EngineUnit, e, good, n)]) == Then(e, AtAlarmUnit(good, n))
  {
    hide PlaceOf;
    Stepped(al, log, Saw(EngineUnit, e, good, n));
  }

  lemma OnAlarmUnit(al: bool, log: seq<Entry>, read: bool, k: nat, e: Ending, good: bool, n: nat)
    requires PlaceOf(al, log) == AtAlarmUnit(read, k)
    ensures PlaceOf(al, log + [Saw(AlarmUnit, e, good, n)]) == Then(e, AfterUnits(read && good, k))
  {
    hide PlaceOf;
    Stepped(al, log, Saw(AlarmUnit, e, good, n));
  }

  lemma OnEarlier(al: bool, log: seq<Entry>, n: nat, e: Ending)
    requires PlaceOf(al, log) == AtEarlier(n)
    ensures PlaceOf(al, log + [Did(NoteAutomatic(n), e)]) == Then(e, Finished)
  {
    hide PlaceOf;
    Stepped(al, log, Did(NoteAutomatic(n), e));
  }

  lemma OnFaultFlag(al: bool, log: seq<Entry>, e: Ending)
    requires PlaceOf(al, log) == AtFaultFlag
    ensures PlaceOf(al, log + [Looked(e)]) == Then(e, AtFaultNote)
  {
    hide PlaceOf;
    Stepped(al, log, Looked(e));
  }

  lemma OnFaultNote(al: bool, log: seq<Entry>, e: Ending)
    requires PlaceOf(al, log) == AtFaultNote
    ensures PlaceOf(al, log + [Did(Note, e)]) == Then(e, AtFaultCount)
  {
    hide PlaceOf;
    Stepped(al, log, Did(Note, e));
  }

  lemma OnFaultCount(al: bool, log: seq<Entry>)
    requires PlaceOf(al, log) == AtFaultCount
    ensures PlaceOf(al, log + [Did(Count, Went)]) == AtFault
  {
    hide PlaceOf;
    Stepped(al, log, Did(Count, Went));
  }

  lemma OnFault(al: bool, log: seq<Entry>, e: Ending)
    requires PlaceOf(al, log) == AtFault
    ensures PlaceOf(al, log + [Did(Fault, e)]) == (if e == StepError then Finished else Then(e, AtRunning))
  {
    hide PlaceOf;
    Stepped(al, log, Did(Fault, e));
  }

  lemma OnRunning(al: bool, log: seq<Entry>, e: Ending, good: bool, n: nat)
    requires PlaceOf(al, log) == AtRunning
    ensures PlaceOf(al, log + [Saw(PanicBack, e, good, n)]) == Then(e, AtRereads)
  {
    hide PlaceOf;
    Stepped(al, log, Saw(PanicBack, e, good, n));
  }

  lemma OnRereads(al: bool, log: seq<Entry>, e: Ending, good: bool, n: nat)
    requires PlaceOf(al, log) == AtRereads
    ensures PlaceOf(al, log + [Saw(PanicRestarts, e, good, n)]) ==
            Then(e, if good && n > 1 then AtMore(n - 1) else AtJournal)
  {
    hide PlaceOf;
    Stepped(al, log, Saw(PanicRestarts, e, good, n));
  }

  lemma OnMore(al: bool, log: seq<Entry>, n: nat, e: Ending)
    requires PlaceOf(al, log) == AtMore(n)
    ensures PlaceOf(al, log + [Did(NoteAutomatic(n), e)]) == Then(e, AtJournal)
  {
    hide PlaceOf;
    Stepped(al, log, Did(NoteAutomatic(n), e));
  }

  lemma OnJournal(al: bool, log: seq<Entry>, e: Ending, good: bool, n: nat)
    requires PlaceOf(al, log) == AtJournal
    ensures PlaceOf(al, log + [Saw(Journal, e, good, n)]) == Then(e, Finished)
  {
    hide PlaceOf;
    Stepped(al, log, Saw(Journal, e, good, n));
  }
}
