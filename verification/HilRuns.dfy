/**
Commands over one ledger: each is checked and accepted for the starts it plans, then does
what its log shows. A HIL run plans three starts and `HilJob.Run` notes no more; the end of
a left job plans one and `HilJob.EndLeft` notes no more.
*/
module HilRuns {
  import B = RestartBudget
  import L = HilLog
  import J = HilJob

  /** One entry of a command's log: when it was, and, for a note, whether it could be kept. */
  datatype Moment = Moment(x: L.Entry, at: real, kept: bool)

  /** A command whose check was accepted at `at`. */
  datatype Visit = Visit(at: real, planned: nat, log: seq<Moment>)

  function Entries(log: seq<Moment>): (entries: seq<L.Entry>)
    ensures |entries| == |log|
  {
    seq(|log|, i requires 0 <= i < |log| => log[i].x)
  }

  /** The clock does not run back. */
  ghost predicate Ordered(log: seq<Moment>, start: real) {
    && (forall i :: 0 <= i < |log| ==> start <= log[i].at)
    && (forall i, j :: 0 <= i < j < |log| ==> log[i].at <= log[j].at)
  }

  /** What a moment is to the budget. */
  function EventOf(m: Moment): seq<B.Event> {
    if L.Is(m.x, L.Note) then [if m.kept then B.Ask(m.at) else B.Lose(m.at)]
    else if m.x.Did? && m.x.c.NoteAutomatic? && m.kept then [B.Auto(m.at, m.x.c.n)]
    else []
  }

  function EventsOf(log: seq<Moment>): seq<B.Event> {
    if log == [] then [] else EventOf(log[0]) + EventsOf(log[1..])
  }

  /** When starts were noted, and when such a note was lost. */
  function NoteTimes(log: seq<Moment>): seq<real> {
    if log == [] then [] else (if L.Is(log[0].x, L.Note) then [log[0].at] else []) + NoteTimes(log[1..])
  }

  function LostTimes(log: seq<Moment>): seq<real> {
    if log == [] then [] else (if L.Is(log[0].x, L.Note) && !log[0].kept then [log[0].at] else []) + LostTimes(log[1..])
  }

  lemma FirstTally(log: seq<Moment>)
    requires log != []
    ensures J.Tally(Entries(log), J.Noted) ==
              (if L.Is(log[0].x, L.Note) then 1 else 0) + J.Tally(Entries(log[1..]), J.Noted)
  {
    var x := log[0].x;
    assert Entries(log) == [x] + Entries(log[1..]);
    J.TallyJoins([x], Entries(log[1..]), J.Noted);
    J.TallyOn([], x, J.Noted);
    assert [] + [x] == [x];
  }

  /** A log of no more notes than are left of the plan is a run of the budget's machine, and
      what it asked for are its notes. */
  lemma {:induction false} LogRuns(s: B.State, log: seq<Moment>, interval: nat, burst: nat)
    requires Ordered(log, s.now) && J.Tally(Entries(log), J.Noted) <= s.left
    ensures B.Runs(s, EventsOf(log), interval, burst)
    ensures var t := B.After(s, EventsOf(log), interval, burst);
            t.asked == s.asked + NoteTimes(log) && t.lost == s.lost + LostTimes(log)
    decreases |log|
  {
    if log == [] {
      B.NothingLeft(s, interval, burst);
      assert s.asked + [] == s.asked && s.lost + [] == s.lost;
    } else {
      var m, rest := log[0], log[1..];
      FirstTally(log);
      hide B.Runs, B.After, J.Tally, Entries, B.Refusal, B.Kept, B.Times, Ordered;
      OrderedRest(log, s.now);
      if EventOf(m) == [] {
        LogRuns(s, rest, interval, burst);
        assert [] + EventsOf(rest) == EventsOf(rest);
        assert [] + NoteTimes(rest) == NoteTimes(rest) && [] + LostTimes(rest) == LostTimes(rest);
      } else {
        var e := EventOf(m)[0];
        LogRuns(B.Next(s, e), rest, interval, burst);
        B.RunsOn(s, e, EventsOf(rest), interval, burst);
        NotesOn(s, m, e, NoteTimes(rest), LostTimes(rest));
      }
    }
  }

  lemma OrderedRest(log: seq<Moment>, start: real)
    requires log != [] && Ordered(log, start)
    ensures start <= log[0].at && Ordered(log[1..], log[0].at) && Ordered(log[1..], start)
  {
  }

  lemma NotesOn(s: B.State, m: Moment, e: B.Event, notes: seq<real>, lost: seq<real>)
    requires EventOf(m) == [e] && (L.Is(m.x, L.Note) ==> s.left > 0)
    ensures B.Next(s, e).asked + notes == s.asked + ((if L.Is(m.x, L.Note) then [m.at] else []) + notes)
    ensures B.Next(s, e).lost + lost == s.lost + ((if L.Is(m.x, L.Note) && !m.kept then [m.at] else []) + lost)
  {
    hide B.Kept, B.Times;
  }

  function VisitEvents(v: Visit): seq<B.Event> {
    [B.Accept(v.at, v.planned)] + EventsOf(v.log)
  }

  /** The check accepts, and the command notes no more starts than it planned. */
  ghost predicate Accepted(s: B.State, v: Visit, interval: nat, burst: nat) {
    && v.at >= s.now && B.Refusal(s.ledger, v.at, interval, burst, v.planned).Fine?
    && Ordered(v.log, v.at) && J.Tally(Entries(v.log), J.Noted) <= v.planned
  }

  lemma VisitRuns(s: B.State, v: Visit, interval: nat, burst: nat)
    requires Accepted(s, v, interval, burst)
    ensures B.Runs(s, VisitEvents(v), interval, burst)
    ensures var t := B.After(s, VisitEvents(v), interval, burst);
            t.asked == s.asked + NoteTimes(v.log) && t.lost == s.lost + LostTimes(v.log)
  {
    var e := B.Accept(v.at, v.planned);
    hide J.Tally, Entries, B.Refusal, B.Runs, B.After, Ordered;
    LogRuns(B.Next(s, e), v.log, interval, burst);
    B.RunsOn(s, e, EventsOf(v.log), interval, burst);
  }

  /** Commands one after another, each accepted by the ledger the ones before it left. */
  ghost predicate AllAccepted(s: B.State, visits: seq<Visit>, interval: nat, burst: nat)
    decreases |visits|
  {
    visits == [] || (
      && Accepted(s, visits[0], interval, burst)
      && (VisitRuns(s, visits[0], interval, burst);
          AllAccepted(B.After(s, VisitEvents(visits[0]), interval, burst), visits[1..], interval, burst)))
  }

  function AllNotes(visits: seq<Visit>): seq<real> {
    if visits == [] then [] else NoteTimes(visits[0].log) + AllNotes(visits[1..])
  }

  function AllLost(visits: seq<Visit>): seq<real> {
    if visits == [] then [] else LostTimes(visits[0].log) + AllLost(visits[1..])
  }

  lemma FirstAccepted(s: B.State, visits: seq<Visit>, interval: nat, burst: nat)
    requires visits != [] && AllAccepted(s, visits, interval, burst)
    ensures var v := visits[0];
            && B.Runs(s, VisitEvents(v), interval, burst)
            && AllAccepted(B.After(s, VisitEvents(v), interval, burst), visits[1..], interval, burst)
            && B.After(s, VisitEvents(v), interval, burst).asked == s.asked + NoteTimes(v.log)
            && B.After(s, VisitEvents(v), interval, burst).lost == s.lost + LostTimes(v.log)
  {
    hide Accepted, B.After, B.Runs, VisitEvents, NoteTimes, LostTimes;
    VisitRuns(s, visits[0], interval, burst);
  }

  lemma NoneLeft(s: B.State, visits: seq<Visit>)
    ensures visits == [] ==> s.asked + AllNotes(visits) == s.asked && s.lost + AllLost(visits) == s.lost
    ensures visits != [] ==> AllNotes(visits) == NoteTimes(visits[0].log) + AllNotes(visits[1..])
    ensures visits != [] ==> AllLost(visits) == LostTimes(visits[0].log) + AllLost(visits[1..])
  {
  }

  /** Any sequence of accepted commands leaves the ledger sound, and what it asked for are
      their notes. */
  lemma {:induction false} CommandsRun(s: B.State, visits: seq<Visit>, interval: nat, burst: nat) returns (t: B.State)
    requires B.Sound(s, interval, burst) && interval > 0 && burst <= B.LEDGER_KEEP
             && AllAccepted(s, visits, interval, burst)
    ensures B.Sound(t, interval, burst) && t.asked == s.asked + AllNotes(visits) && t.lost == s.lost + AllLost(visits)
    decreases |visits|
  {
    hide *;
    NoneLeft(s, visits);
    if visits == [] {
      t := s;
    } else {
      var v, rest := visits[0], visits[1..];
      FirstAccepted(s, visits, interval, burst);
      B.AfterIsSound(s, VisitEvents(v), interval, burst);
      t := CommandsRun(B.After(s, VisitEvents(v), interval, burst), rest, interval, burst);
      assert s.asked + NoteTimes(v.log) + AllNotes(rest) == s.asked + (NoteTimes(v.log) + AllNotes(rest));
      assert s.lost + LostTimes(v.log) + AllLost(rest) == s.lost + (LostTimes(v.log) + AllLost(rest));
    }
  }

  /** HIL runs and ends of left jobs over one ledger: whatever such runs did, their logs being
      those `HilJob.Run` and `HilJob.EndLeft` promise, the starts they noted stay within the
      burst in every window, but for lost notes. */
  lemma GatesKeepBudget(start: real, visits: seq<Visit>, interval: nat, burst: nat, x: real)
    requires interval > 0 && burst <= B.LEDGER_KEEP && Gates(B.Empty(start), visits, interval, burst)
    ensures B.InWindow(AllNotes(visits), x, interval) <= burst + B.InWindow(AllLost(visits), x, interval)
  {
    B.EmptyIsSound(start, interval, burst);
    GatesAccepted(B.Empty(start), visits, interval, burst);
    hide B.Sound, AllAccepted, Gates, B.InWindow;
    var t := CommandsRun(B.Empty(start), visits, interval, burst);
    assert [] + AllNotes(visits) == AllNotes(visits) && [] + AllLost(visits) == AllLost(visits);
    B.SoundMeans(t, interval, burst);
  }

  /** A run's check plans three starts and its log is measured; a left job's end plans one. */
  ghost predicate Gate(s: B.State, v: Visit, interval: nat, burst: nat) {
    && v.at >= s.now && B.Refusal(s.ledger, v.at, interval, burst, v.planned).Fine? && Ordered(v.log, v.at)
    && ((v.planned == 3 && J.Measured(Entries(v.log)))
        || (v.planned == 1 && exists tried, waits :: EndOf(v, tried, waits)))
  }

  ghost predicate EndOf(v: Visit, tried: seq<L.Entry>, waits: seq<L.Entry>) {
    Entries(v.log) == tried + waits && J.Attempted(J.EndCommands(true, true, false), tried) && J.Waits(waits)
  }

  lemma GateIsAccepted(s: B.State, v: Visit, interval: nat, burst: nat)
    requires Gate(s, v, interval, burst)
    ensures Accepted(s, v, interval, burst)
  {
    hide J.Tally, J.Ahead, J.FaultsFit, J.CountedFirst, J.Attempted, J.Waits, Entries, Ordered;
    if v.planned == 1 && exists tried, waits :: EndOf(v, tried, waits) {
      var tried, waits :| EndOf(v, tried, waits);
      J.EndIsAhead(true, true, false, tried);
      J.WaitsAreQuiet(waits, J.Noted);
      J.TallyJoins(tried, waits, J.Noted);
    }
  }

  ghost predicate Gates(s: B.State, visits: seq<Visit>, interval: nat, burst: nat)
    decreases |visits|
  {
    visits == [] || (
      && Gate(s, visits[0], interval, burst)
      && (GateIsAccepted(s, visits[0], interval, burst); VisitRuns(s, visits[0], interval, burst);
          Gates(B.After(s, VisitEvents(visits[0]), interval, burst), visits[1..], interval, burst)))
  }

  lemma {:induction false} GatesAccepted(s: B.State, visits: seq<Visit>, interval: nat, burst: nat)
    requires Gates(s, visits, interval, burst)
    ensures AllAccepted(s, visits, interval, burst)
    decreases |visits|
  {
    hide Gate, Accepted, B.Runs;
    if visits != [] {
      GateIsAccepted(s, visits[0], interval, burst);
      VisitRuns(s, visits[0], interval, burst);
      GatesAccepted(B.After(s, VisitEvents(visits[0]), interval, burst), visits[1..], interval, burst);
    }
  }
}
