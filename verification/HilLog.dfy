/** What happens in a HIL run: everything sent, read and raised, each with how it ended. */
module HilLog {

  /** How a step ends: it returns, or it raises. */
  datatype Ending = Went | StepError | EventNow | Interrupt

  datatype Phase = Begin | End

  /** A change sent to the box, a note in the ledger, or a start counted in the checks. */
  datatype Command =
    | Stage | Install | Reload | Reset | Restart(phase: Phase) | Remove
    | Note | NoteAutomatic(n: nat) | Count
    | TestSignal | StopSignal | SetLoop | RestoreLoop | Fault

  /** What a read or a wait is about. */
  datatype Question =
    | Dropin | Health | RxFlows | HilOutputs | Versions | LoopFlow | LoopWord | LoopBack | Sound
    | AlarmPath | Restarts | EngineUnit | AlarmUnit | PanicBack | PanicRestarts | Journal

  /** A command and how it was answered; a read, whether it was good and the number read; the
      flag looked at; an exception that left the job for its clean-up. */
  datatype Entry =
    | Did(c: Command, e: Ending)
    | Saw(q: Question, e: Ending, good: bool, n: nat)
    | Looked(e: Ending)
    | Raised(e: Ending)

  predicate Is(x: Entry, c: Command) {
    x.Did? && x.c == c
  }
}
