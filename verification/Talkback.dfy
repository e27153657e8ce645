/**
Push-to-talk sessions. A start waits for the microphone, for its worklet module and for
its socket; stops, encoder errors, socket events and other starts run in between. Each
stretch that runs to completion between two awaits is one step, and any step that is
enabled may come next.

A session's own references (what the code can still reach) are kept apart from the
browser's resources (what is still live), so that a forgotten resource shows.
*/
module Talkback {
  import opened Options

  /** A resource the browser holds for a session. */
  datatype Part = Absent | Live | Gone

  datatype Socket = NoSocket | Connecting(closeOnOpen: bool) | Open | Closing | Closed

  /** The promise of `connected`. */
  datatype Promise = Pending | Resolved | Failed

  /** Where a start is: waiting for the microphone, for the worklet, to handle a rejection,
      for the socket; or over. */
  datatype Stage = ForMic | ForWorklet | Rejected | ForSocket | Over

  datatype Phase = Idle | Starting | Active

  datatype Refs = Refs(node: bool, source: bool, encoder: bool, stream: bool, ctx: bool, ws: bool)

  datatype Session = Session(
    phase: Phase, stopped: bool, stage: Stage, refs: Refs,
    node: Part, source: Part, encoder: Part, mic: Part, ctx: Part,
    socket: Socket, promise: Promise)
  {
    /** Nothing of the session is live. */
    predicate Silent() {
      && !node.Live? && !source.Live? && !encoder.Live? && !mic.Live? && !ctx.Live?
    }

    /** The socket is closed, closing, or closes as soon as it opens. */
    predicate SocketEnds() {
      !socket.Open? && (socket.Connecting? ==> socket.closeOnOpen)
    }

    /** Everything live can still be reached, so a later free finds it. */
    predicate Reachable() {
      && (node.Live? ==> refs.node)
      && (source.Live? ==> refs.source)
      && (encoder.Live? ==> refs.encoder)
      && (mic.Live? ==> refs.stream)
      && (ctx.Live? ==> refs.ctx)
      && (!SocketEnds() ==> refs.ws)
    }

    predicate NoRefs() {
      refs == Refs(false, false, false, false, false, false)
    }

    /** What every step keeps of every session. */
    predicate Sound() {
      && Reachable()
      && (stopped ==> NoRefs() && phase.Idle?)
      && (phase.Active? ==> stage.Over? && promise.Resolved?)
      && (stage.Over? && !stopped ==> phase.Active?)
    }
  }

  /** A new session with its socket asked for. */
  const FRESH: Session := Session(
    Starting, false, ForMic, Refs(false, false, false, false, false, true),
    Absent, Absent, Absent, Absent, Absent, Connecting(false), Pending)

  datatype World = World(current: Option<nat>, sessions: seq<Session>) {
    predicate Sound() {
      && (current.Some? ==> current.value < |sessions|)
      && (forall i :: 0 <= i < |sessions| ==> sessions[i].Sound())
      && (forall i :: 0 <= i < |sessions| && !sessions[i].stopped ==> current == Some(i))
    }
  }

  // ----- the steps

  function Release(reached: bool, p: Part): Part {
    if reached && p.Live? then Gone else p
  }

  function EndSocket(s: Socket): Socket {
    match s
    case Open => Closing
    case Connecting(_) => Connecting(true)
    case _ => s
  }

  /** The session's parts freed once. */
  function Free(s: Session): Session {
    Session(Idle, true, s.stage, Refs(false, false, false, false, false, false),
            Release(s.refs.node, s.node), Release(s.refs.source, s.source), Release(s.refs.encoder, s.encoder),
            Release(s.refs.stream, s.mic), Release(s.refs.ctx, s.ctx),
            if s.refs.ws then EndSocket(s.socket) else s.socket, s.promise)
  }

  function Disconnected(s: Session): Session {
    s.(stopped := true, phase := Idle, node := Release(s.refs.node, s.node), source := Release(s.refs.source, s.source),
       encoder := Release(s.refs.encoder, s.encoder), refs := s.refs.(node := false, source := false, encoder := false))
  }

  /** How far a granted microphone gets before something throws. */
  datatype Capture = NoContext | NoEncoder | NotConfigured | ModuleAsked

  /** The capture side after the microphone was granted. */
  function MicGranted(s: Session, how: Capture): Session {
    var t := s.(mic := Live, refs := s.refs.(stream := true));
    if t.stopped then Free(t).(stage := ForSocket)
    else if how.NoContext? then t.(stage := Rejected)
    else
      var u := t.(ctx := Live, refs := t.refs.(ctx := true));
      if how.NoEncoder? then u.(stage := Rejected)
      else
        var v := u.(encoder := Live, refs := u.refs.(encoder := true));
        v.(stage := if how.NotConfigured? then Rejected else ForWorklet)
  }

  /** How far the graph gets once the module is loaded. */
  datatype Graph = NoSource | NoNode | NotWired | Wired

  function ModuleLoaded(s: Session, how: Graph): Session {
    if s.stopped then Free(s).(stage := ForSocket)
    else if how.NoSource? then s.(stage := Rejected)
    else
      var t := s.(source := Live, refs := s.refs.(source := true));
      if how.NoNode? then t.(stage := Rejected)
      else
        var u := t.(node := Live, refs := t.refs.(node := true));
        u.(stage := if how.NotWired? then Rejected else ForSocket)
  }

  function ModuleFailed(s: Session): Session {
    if s.stopped then Free(s).(stage := ForSocket) else s.(stage := Rejected)
  }

  /** The start's own end: its catch, or the socket awaited. */
  function Caught(s: Session): Session {
    Free(s).(stage := Over)
  }

  function SocketAwaited(s: Session): Session {
    if s.stopped || s.promise.Failed? then Free(s).(stage := Over)
    else s.(phase := Active, stage := Over)
  }

  function Settle(p: Promise, to: Promise): Promise {
    if p.Pending? then to else p
  }

  function SocketOpened(s: Session): Session {
    if s.socket == Connecting(true) then s.(socket := Closing)
    else s.(socket := Open, promise := Settle(s.promise, Resolved))
  }

  function SocketClosed(s: Session): Session {
    s.(socket := Closed, promise := Settle(s.promise, if s.stopped then Resolved else Failed))
  }

  datatype Event =
    | Start(socketRefused: bool, micThrows: bool)
    | Stop
    | MicAnswer(id: nat, granted: bool, how: Capture)
    | ModuleAnswer(id: nat, loaded: bool, graph: Graph)
    | Catch(id: nat)
    | AwaitSocket(id: nat)
    | EncoderError(id: nat)
    | SocketEvent(id: nat, kind: SocketKind)

  datatype SocketKind = Opens | Errors | Closes | TimesOut

  /** Whether the event loop may run the step now. */
  predicate Enabled(w: World, e: Event) {
    match e
    case Start(_, _) => true
    case Stop => true
    case MicAnswer(id, _, _) => id < |w.sessions| && w.sessions[id].stage.ForMic?
    case ModuleAnswer(id, _, _) => id < |w.sessions| && w.sessions[id].stage.ForWorklet?
    case Catch(id) => id < |w.sessions| && w.sessions[id].stage.Rejected?
    case AwaitSocket(id) => id < |w.sessions| && w.sessions[id].stage.ForSocket? && !w.sessions[id].promise.Pending?
    case EncoderError(id) => id < |w.sessions| && !w.sessions[id].encoder.Absent?
    case SocketEvent(id, kind) =>
      && id < |w.sessions|
      && match kind
         case Opens => w.sessions[id].socket.Connecting?
         case Errors => w.sessions[id].socket.Connecting?
         case Closes => !w.sessions[id].socket.NoSocket? && !w.sessions[id].socket.Closed?
         case TimesOut => w.sessions[id].promise.Pending?
  }

  function Put(w: World, id: nat, s: Session): World
    requires id < |w.sessions|
  {
    w.(sessions := w.sessions[id := s])
  }

  predicate Busy(w: World)
    requires w.current.Some? ==> w.current.value < |w.sessions|
  {
    w.current.Some? && !w.sessions[w.current.value].stopped
  }

  function StartStep(w: World, socketRefused: bool, micThrows: bool): World
    requires w.current.Some? ==> w.current.value < |w.sessions|
  {
    if Busy(w) then w
    else
      var s := if socketRefused then Caught(FRESH.(refs := FRESH.refs.(ws := false), socket := NoSocket))
               else if micThrows then FRESH.(stage := Rejected) else FRESH;
      World(Some(|w.sessions|), w.sessions + [s])
  }

  function StopStep(w: World): World
    requires w.current.Some? ==> w.current.value < |w.sessions|
  {
    if w.current.None? then w
    else World(None, w.sessions[w.current.value := Free(w.sessions[w.current.value])])
  }

  function OnSocket(s: Session, kind: SocketKind): Session {
    match kind
    case Opens => SocketOpened(s)
    case Errors => s.(socket := Closed, promise := Settle(s.promise, Failed))
    case Closes => SocketClosed(s)
    case TimesOut => s.(promise := Settle(s.promise, Failed))
  }

  function Step(w: World, e: Event): World
    requires w.Sound() && Enabled(w, e)
  {
    match e
    case Start(refused, throws) => StartStep(w, refused, throws)
    case Stop => StopStep(w)
    case MicAnswer(id, granted, how) =>
      Put(w, id, if granted then MicGranted(w.sessions[id], how) else w.sessions[id].(stage := Rejected))
    case ModuleAnswer(id, loaded, graph) =>
      Put(w, id, if loaded then ModuleLoaded(w.sessions[id], graph) else ModuleFailed(w.sessions[id]))
    case Catch(id) => Put(w, id, Caught(w.sessions[id]))
    case AwaitSocket(id) => Put(w, id, SocketAwaited(w.sessions[id]))
    case EncoderError(id) =>
      // the browser closes an encoder that failed
      var failed := Put(w, id, w.sessions[id].(encoder := Gone));
      if w.sessions[id].stopped then failed else StopStep(failed)
    case SocketEvent(id, kind) => Put(w, id, OnSocket(w.sessions[id], kind))
  }

  // ----- what every step keeps

  lemma FreeIsSound(s: Session)
    requires s.Reachable()
    ensures Free(s).Silent() && Free(s).SocketEnds() && Free(s).NoRefs() && Free(s).Reachable() && Free(s).stopped
  {
  }

  lemma FreeKeepsSound(s: Session, to: Stage)
    requires s.Reachable()
    ensures Free(s).(stage := to).Sound()
  {
    FreeIsSound(s);
  }

  lemma MicGrantedIsSound(s: Session, how: Capture)
    requires s.Sound() && s.stage.ForMic?
    ensures MicGranted(s, how).Sound()
  {
    if s.stopped {
      var t := s.(mic := Live, refs := s.refs.(stream := true));
      FreeKeepsSound(t, ForSocket);
      hide Free, Session.Sound;
      assert MicGranted(s, how) == Free(t).(stage := ForSocket);
    }
  }

  lemma ModuleLoadedIsSound(s: Session, graph: Graph)
    requires s.Sound() && s.stage.ForWorklet?
    ensures ModuleLoaded(s, graph).Sound() && ModuleFailed(s).Sound()
  {
    if s.stopped {
      FreeKeepsSound(s, ForSocket);
      hide Free, Session.Sound;
      assert ModuleLoaded(s, graph) == Free(s).(stage := ForSocket);
    }
  }

  lemma SocketAwaitedIsSound(s: Session)
    requires s.Sound() && s.stage.ForSocket? && !s.promise.Pending?
    ensures SocketAwaited(s).Sound()
  {
    if s.stopped || s.promise.Failed? {
      FreeKeepsSound(s, Over);
      hide Free, Session.Sound;
      assert SocketAwaited(s) == Free(s).(stage := Over);
    }
  }

  lemma OnSocketIsSound(s: Session, kind: SocketKind)
    requires s.Sound() && (kind.Opens? ==> s.socket.Connecting?)
    ensures OnSocket(s, kind).Sound()
  {
  }

  /** Every change a step makes to one session, while it is enabled. */
  lemma SessionChangesAreSound(s: Session, how: Capture, graph: Graph, kind: SocketKind)
    requires s.Sound()
    ensures Free(s).Sound()
    ensures s.stage.ForMic? ==> MicGranted(s, how).Sound() && s.(stage := Rejected).Sound()
    ensures s.stage.ForWorklet? ==> ModuleLoaded(s, graph).Sound() && ModuleFailed(s).Sound()
    ensures s.stage.Rejected? ==> Caught(s).Sound()
    ensures s.stage.ForSocket? && !s.promise.Pending? ==> SocketAwaited(s).Sound()
    ensures s.(encoder := Gone).Sound()
    ensures (kind.Opens? ==> s.socket.Connecting?) ==> OnSocket(s, kind).Sound()
  {
    FreeKeepsSound(s, s.stage);
    assert Free(s).(stage := s.stage) == Free(s);
    FreeKeepsSound(s, Over);
    assert s.(encoder := Gone).Sound();
    assert s.stage.ForMic? ==> s.(stage := Rejected).Sound();
    hide Free, Session.Sound, MicGranted, ModuleLoaded, ModuleFailed, SocketAwaited, OnSocket;
    if s.stage.ForMic? { MicGrantedIsSound(s, how); }
    if s.stage.ForWorklet? { ModuleLoadedIsSound(s, graph); }
    if s.stage.ForSocket? && !s.promise.Pending? { SocketAwaitedIsSound(s); }
    if kind.Opens? ==> s.socket.Connecting? { OnSocketIsSound(s, kind); }
  }

  lemma SessionChangesKeepStopped(s: Session, how: Capture, graph: Graph, kind: SocketKind)
    requires s.Sound() && s.stopped
    ensures Free(s).stopped && MicGranted(s, how).stopped && ModuleLoaded(s, graph).stopped && ModuleFailed(s).stopped
    ensures Caught(s).stopped && SocketAwaited(s).stopped && OnSocket(s, kind).stopped
  {
  }

  lemma StartIsSound(w: World, refused: bool, throws: bool)
    requires w.Sound()
    ensures StartStep(w, refused, throws).Sound()
  {
    if !Busy(w) {
      var s := StartStep(w, refused, throws).sessions[|w.sessions|];
      assert s.Sound();
      hide Session.Sound;
      forall i | 0 <= i < |w.sessions| ensures w.sessions[i].stopped {
        assert !w.sessions[i].stopped ==> w.current == Some(i);
      }
    }
  }

  lemma StopIsSound(w: World)
    requires w.Sound()
    ensures StopStep(w).Sound()
  {
    if w.current.Some? {
      SessionChangesAreSound(w.sessions[w.current.value], NoContext, NoSource, Opens);
      hide Session.Sound;
    }
  }

  lemma PutIsSound(w: World, id: nat, s: Session)
    requires w.Sound() && id < |w.sessions| && s.Sound()
    requires w.sessions[id].stopped ==> s.stopped
    ensures Put(w, id, s).Sound()
  {
    hide Session.Sound;
  }

  /** Every step keeps every session sound, and at most one unstopped: the current one. */
  lemma StepIsSound(w: World, e: Event)
    requires w.Sound() && Enabled(w, e)
    ensures Step(w, e).Sound()
  {
    match e {
      case Start(refused, throws) => StartIsSound(w, refused, throws);
      case Stop => StopIsSound(w);
      case MicAnswer(id, granted, how) =>
        var s := w.sessions[id];
        SessionChangesAreSound(s, how, NoSource, Opens);
        if s.stopped { SessionChangesKeepStopped(s, how, NoSource, Opens); }
        hide Session.Sound, MicGranted;
        PutIsSound(w, id, if granted then MicGranted(s, how) else s.(stage := Rejected));
      case ModuleAnswer(id, loaded, graph) =>
        var s := w.sessions[id];
        SessionChangesAreSound(s, NoContext, graph, Opens);
        if s.stopped { SessionChangesKeepStopped(s, NoContext, graph, Opens); }
        hide Session.Sound, ModuleLoaded, ModuleFailed;
        PutIsSound(w, id, if loaded then ModuleLoaded(s, graph) else ModuleFailed(s));
      case Catch(id) =>
        var s := w.sessions[id];
        SessionChangesAreSound(s, NoContext, NoSource, Opens);
        hide Session.Sound;
        PutIsSound(w, id, Caught(s));
      case AwaitSocket(id) =>
        var s := w.sessions[id];
        SessionChangesAreSound(s, NoContext, NoSource, Opens);
        if s.stopped { SessionChangesKeepStopped(s, NoContext, NoSource, Opens); }
        hide Session.Sound, SocketAwaited;
        PutIsSound(w, id, SocketAwaited(s));
      case EncoderError(id) =>
        var s := w.sessions[id];
        SessionChangesAreSound(s, NoContext, NoSource, Opens);
        hide Session.Sound;
        PutIsSound(w, id, s.(encoder := Gone));
        StopIsSound(Put(w, id, s.(encoder := Gone)));
      case SocketEvent(id, kind) =>
        var s := w.sessions[id];
        SessionChangesAreSound(s, NoContext, NoSource, kind);
        if s.stopped { SessionChangesKeepStopped(s, NoContext, NoSource, kind); }
        hide Session.Sound, OnSocket;
        PutIsSound(w, id, OnSocket(s, kind));
    }
  }

  // ----- every run of the page

  ghost predicate Possible(w: World, events: seq<Event>)
    requires w.Sound()
    decreases |events|
  {
    events == [] || (Enabled(w, events[0]) && (StepIsSound(w, events[0]); Possible(Step(w, events[0]), events[1..])))
  }

  ghost function After(w: World, events: seq<Event>): World
    requires w.Sound() && Possible(w, events)
    decreases |events|
  {
    if events == [] then w else
      StepIsSound(w, events[0]);
      After(Step(w, events[0]), events[1..])
  }

  const EMPTY: World := World(None, [])

  lemma {:induction false} AfterIsSound(w: World, events: seq<Event>)
    requires w.Sound() && Possible(w, events)
    ensures After(w, events).Sound()
    decreases |events|
  {
    hide World.Sound, Enabled, Step;
    if events != [] {
      StepIsSound(w, events[0]);
      AfterIsSound(Step(w, events[0]), events[1..]);
    }
  }

  /** In every reachable state: a stopped session holds no live microphone, context, encoder
      or worklet node and its socket is closed or will close as soon as it opens; every
      session that is not stopped is the page's current one, so there is at most one; and
      an active session is not stopped and its socket opened (whether it is still open is
      `ActiveSocketOpenExactly`). */
  lemma MicrophoneNeverOutlivesSession(events: seq<Event>)
    requires Possible(EMPTY, events)
    ensures var w := After(EMPTY, events);
            && (forall i :: 0 <= i < |w.sessions| && w.sessions[i].stopped ==>
                  w.sessions[i].Silent() && w.sessions[i].SocketEnds() && w.sessions[i].phase.Idle?)
            && (forall i :: 0 <= i < |w.sessions| && !w.sessions[i].stopped ==> w.current == Some(i))
            && (forall i :: 0 <= i < |w.sessions| && w.sessions[i].phase.Active? ==>
                  !w.sessions[i].stopped && w.sessions[i].promise.Resolved?)
  {
    AfterIsSound(EMPTY, events);
    hide After, Possible;
  }

  // ----- whether an active session still has its socket

  /** What an unstopped session's socket is, given whether a close came for it: connecting
      while its promise waits, and once that resolved open until the close. */
  predicate SocketKnown(s: Session, closed: bool) {
    !s.stopped ==>
      && (s.promise.Pending? ==> s.socket == Connecting(false) && !closed)
      && (s.promise.Resolved? ==> s.socket == if closed then Closed else Open)
  }

  predicate IsClose(e: Event, id: nat) {
    e == SocketEvent(id, Closes)
  }

  lemma SocketKnownOn(w: World, e: Event, id: nat, closed: bool)
    requires w.Sound() && Enabled(w, e)
    requires if id < |w.sessions| then SocketKnown(w.sessions[id], closed) else !closed
    ensures var t := Step(w, e);
            if id < |t.sessions| then SocketKnown(t.sessions[id], closed || IsClose(e, id))
            else !closed && !IsClose(e, id)
  {
    hide Session.Sound, Release, Session.SocketEnds, Session.Reachable;
  }

  ghost predicate CloseCame(events: seq<Event>, id: nat) {
    exists k :: 0 <= k < |events| && IsClose(events[k], id)
  }

  lemma {:induction false} SocketKnownAfter(w: World, events: seq<Event>, id: nat, closed: bool)
    requires w.Sound() && Possible(w, events)
    requires if id < |w.sessions| then SocketKnown(w.sessions[id], closed) else !closed
    ensures var t := After(w, events);
            id < |t.sessions| ==> SocketKnown(t.sessions[id], closed || CloseCame(events, id))
    decreases |events|
  {
    hide World.Sound, Enabled, Step, SocketKnown;
    if events != [] {
      var e, rest := events[0], events[1..];
      StepIsSound(w, e);
      SocketKnownOn(w, e, id, closed);
      SocketKnownAfter(Step(w, e), rest, id, closed || IsClose(e, id));
      assert CloseCame(events, id) <==> IsClose(e, id) || CloseCame(rest, id) by {
        CloseFirst(events, id);
      }
    }
  }

  lemma CloseFirst(events: seq<Event>, id: nat)
    requires events != []
    ensures CloseCame(events, id) <==> IsClose(events[0], id) || CloseCame(events[1..], id)
  {
    if CloseCame(events[1..], id) {
      var k :| 0 <= k < |events[1..]| && IsClose(events[1..][k], id);
      assert IsClose(events[k + 1], id);
    }
    if CloseCame(events, id) {
      var k :| 0 <= k < |events| && IsClose(events[k], id);
      assert k > 0 ==> IsClose(events[1..][k - 1], id);
    }
  }

  /** After any run an active session's socket is open if and only if no close came for it:
      a socket that closes after it opened is not noticed, and the session stays active. */
  lemma ActiveSocketOpenExactly(events: seq<Event>, id: nat)
    requires Possible(EMPTY, events) && id < |After(EMPTY, events).sessions|
    requires After(EMPTY, events).sessions[id].phase.Active?
    ensures var s := After(EMPTY, events).sessions[id];
            (s.socket.Open? <==> !CloseCame(events, id)) && (s.socket.Closed? <==> CloseCame(events, id))
  {
    AfterIsSound(EMPTY, events);
    SocketKnownAfter(EMPTY, events, id, false);
    hide After, Possible, CloseCame;
  }

  /** Such a run: the socket opens and closes again while the start waits for its microphone,
      and the session ends up active with no socket. */
  lemma ActiveWithoutSocket() returns (events: seq<Event>)
    ensures Possible(EMPTY, events)
    ensures var w := After(EMPTY, events);
            |w.sessions| == 1 && w.sessions[0].phase.Active? && !w.sessions[0].stopped && w.sessions[0].socket.Closed?
              && w.sessions[0].mic.Live?
  {
    hide *;
    IdlePage();
    var s2, s3, s4, s5, s6 := FiveSteps();
    NoEvents(Added(EMPTY, s6));
    events := [];
    LeadsOn(EMPTY, s5, AwaitSocket(0), s6, events);
    events := [AwaitSocket(0)] + events;
    LeadsOn(EMPTY, s4, ModuleAnswer(0, true, Wired), s5, events);
    events := [ModuleAnswer(0, true, Wired)] + events;
    LeadsOn(EMPTY, s3, MicAnswer(0, true, ModuleAsked), s4, events);
    events := [MicAnswer(0, true, ModuleAsked)] + events;
    LeadsOn(EMPTY, s2, SocketEvent(0, Closes), s3, events);
    events := [SocketEvent(0, Closes)] + events;
    LeadsOn(EMPTY, FRESH, SocketEvent(0, Opens), s2, events);
    events := [SocketEvent(0, Opens)] + events;
    Pressed(EMPTY, events);
    events := [Event.Start(false, false)] + events;
    LastAdded(EMPTY, s6);
  }

  lemma IdlePage()
    ensures Ready(EMPTY) && |EMPTY.sessions| == 0
  {
  }

  /** A page ready for a press, and that page with one more session, the current one. */
  ghost predicate Ready(w: World) {
    w.Sound() && !Busy(w)
  }

  function Added(w: World, s: Session): World {
    World(Some(|w.sessions|), w.sessions + [s])
  }

  lemma LastAdded(w: World, s: Session)
    ensures |Added(w, s).sessions| == |w.sessions| + 1 && Added(w, s).sessions[|w.sessions|] == s
  {
  }

  /** One step of the session a press added. */
  ghost predicate Leads(w: World, s: Session, e: Event, t: Session) {
    && Added(w, s).Sound() && Added(w, t).Sound() && Enabled(Added(w, s), e)
    && Step(Added(w, s), e) == Added(w, t)
  }

  lemma FiveSteps() returns (s2: Session, s3: Session, s4: Session, s5: Session, s6: Session)
    ensures Leads(EMPTY, FRESH, SocketEvent(0, Opens), s2) && Leads(EMPTY, s2, SocketEvent(0, Closes), s3)
    ensures Leads(EMPTY, s3, MicAnswer(0, true, ModuleAsked), s4) && Leads(EMPTY, s4, ModuleAnswer(0, true, Wired), s5)
    ensures Leads(EMPTY, s5, AwaitSocket(0), s6) && Added(EMPTY, s6).Sound()
    ensures s6.phase.Active? && !s6.stopped && s6.socket.Closed? && s6.mic.Live?
  {
    s2 := SocketOpened(FRESH);
    s3 := SocketClosed(s2);
    s4 := MicGranted(s3, ModuleAsked);
    s5 := ModuleLoaded(s4, Wired);
    s6 := SocketAwaited(s5);
    SmallStep(EMPTY, FRESH, SocketEvent(0, Opens), s2);
    SmallStep(EMPTY, s2, SocketEvent(0, Closes), s3);
    SmallStep(EMPTY, s3, MicAnswer(0, true, ModuleAsked), s4);
    SmallStep(EMPTY, s4, ModuleAnswer(0, true, Wired), s5);
    SmallStep(EMPTY, s5, AwaitSocket(0), s6);
  }

  lemma LeadsOn(w: World, s: Session, e: Event, t: Session, events: seq<Event>)
    requires Leads(w, s, e, t) && Possible(Added(w, t), events)
    ensures Added(w, s).Sound() && Possible(Added(w, s), [e] + events)
    ensures After(Added(w, s), [e] + events) == After(Added(w, t), events)
  {
    hide World.Sound, Step, Enabled, Added;
    OneMore(Added(w, s), e, events);
  }

  lemma Pressed(w: World, events: seq<Event>)
    requires Ready(w) && Added(w, FRESH).Sound() && Possible(Added(w, FRESH), events)
    ensures w.Sound() && Possible(w, [Event.Start(false, false)] + events)
    ensures After(w, [Event.Start(false, false)] + events) == After(Added(w, FRESH), events)
  {
    assert Step(w, Event.Start(false, false)) == Added(w, FRESH);
    hide World.Sound, Step, Added;
    OneMore(w, Event.Start(false, false), events);
  }

  lemma AddedIsSound(w: World, s: Session)
    requires Ready(w) && s.Sound()
    ensures Added(w, s).Sound()
  {
    hide Session.Sound;
  }

  lemma SmallStep(w: World, s: Session, e: Event, t: Session)
    requires Ready(w) && s.Sound() && t.Sound() && (e.MicAnswer? || e.ModuleAnswer? || e.AwaitSocket? || e.SocketEvent?)
    requires e.id == |w.sessions| && Enabled(Added(w, s), e)
    requires match e
             case MicAnswer(_, granted, how) => granted && t == MicGranted(s, how)
             case ModuleAnswer(_, loaded, graph) => loaded && t == ModuleLoaded(s, graph)
             case AwaitSocket(_) => t == SocketAwaited(s)
             case SocketEvent(_, kind) => t == OnSocket(s, kind)
             case _ => false
    ensures Leads(w, s, e, t)
  {
    AddedIsSound(w, s);
    AddedIsSound(w, t);
    hide Session.Sound, World.Sound, MicGranted, ModuleLoaded, SocketAwaited, OnSocket;
    assert (w.sessions + [s])[|w.sessions| := t] == w.sessions + [t];
  }

  lemma NoEvents(w: World)
    requires w.Sound()
    ensures Possible(w, []) && After(w, []) == w
  {
  }

  lemma OneMore(w: World, e: Event, events: seq<Event>)
    requires w.Sound() && Enabled(w, e) && Step(w, e).Sound() && Possible(Step(w, e), events)
    ensures Possible(w, [e] + events) && After(w, [e] + events) == After(Step(w, e), events)
  {
    hide World.Sound, Step, Enabled;
    assert ([e] + events)[1..] == events;
  }

  /** Talking: everything live, the socket open, and all of it within reach. */
  const TALKING: Session := Session(
    Active, false, Over, Refs(true, true, true, true, true, true),
    Live, Live, Live, Live, Live, Open, Resolved)

  /** What a press gets when nothing fails, its socket opening before the microphone is granted
      (`opens` is 0), before the module is loaded (1) or after both. */
  function Granted(id: nat, opens: nat): seq<Event> {
    var o, m, g := SocketEvent(id, Opens), MicAnswer(id, true, ModuleAsked), ModuleAnswer(id, true, Wired);
    [Event.Start(false, false)]
    + (if opens == 0 then [o, m, g] else if opens == 1 then [m, o, g] else [m, g, o]) + [AwaitSocket(id)]
  }

  /** The ordinary press: on any idle page, whatever was pressed before, and whenever the socket
      opens, the new session talks and every other one is as it was. */
  lemma PressTalks(w: World, opens: nat)
    requires Ready(w)
    ensures Possible(w, Granted(|w.sessions|, opens))
    ensures After(w, Granted(|w.sessions|, opens)) == Added(w, TALKING)
  {
    var id := |w.sessions|;
    var o, m, g := SocketEvent(id, Opens), MicAnswer(id, true, ModuleAsked), ModuleAnswer(id, true, Wired);
    var e1, e2, e3 :=
      if opens == 0 then o else m, if opens == 0 then m else if opens == 1 then o else g, if opens <= 1 then g else o;
    var s1, s2, s3 := TalkSteps(w, opens, e1, e2, e3);
    hide *;
    AddedTalks(w);
    NoEvents(Added(w, TALKING));
    LeadsOn(w, s3, AwaitSocket(id), TALKING, []);
    LeadsOn(w, s2, e3, s3, [AwaitSocket(id)] + []);
    LeadsOn(w, s1, e2, s2, [e3] + ([AwaitSocket(id)] + []));
    LeadsOn(w, FRESH, e1, s1, [e2] + ([e3] + ([AwaitSocket(id)] + [])));
    Pressed(w, [e1] + ([e2] + ([e3] + ([AwaitSocket(id)] + []))));
    GrantedIs(id, opens, e1, e2, e3);
  }

  lemma AddedTalks(w: World)
    requires Ready(w)
    ensures Added(w, TALKING).Sound()
  {
    AddedIsSound(w, TALKING);
  }

  lemma GrantedIs(id: nat, opens: nat, e1: Event, e2: Event, e3: Event)
    requires var o, m, g := SocketEvent(id, Opens), MicAnswer(id, true, ModuleAsked), ModuleAnswer(id, true, Wired);
             [e1, e2, e3] == if opens == 0 then [o, m, g] else if opens == 1 then [m, o, g] else [m, g, o]
    ensures Granted(id, opens) == [Event.Start(false, false)] + ([e1] + ([e2] + ([e3] + ([AwaitSocket(id)] + []))))
  {
  }

  lemma TalkSteps(w: World, opens: nat, e1: Event, e2: Event, e3: Event) returns (s1: Session, s2: Session, s3: Session)
    requires Ready(w)
    requires var id := |w.sessions|;
             var o, m, g := SocketEvent(id, Opens), MicAnswer(id, true, ModuleAsked), ModuleAnswer(id, true, Wired);
             [e1, e2, e3] == if opens == 0 then [o, m, g] else if opens == 1 then [m, o, g] else [m, g, o]
    ensures Leads(w, FRESH, e1, s1) && Leads(w, s1, e2, s2) && Leads(w, s2, e3, s3)
    ensures Leads(w, s3, AwaitSocket(|w.sessions|), TALKING)
  {
    assert e1 == [e1, e2, e3][0] && e2 == [e1, e2, e3][1] && e3 == [e1, e2, e3][2];
    if opens == 0 {
      s1 := SocketOpened(FRESH);
      s2 := MicGranted(s1, ModuleAsked);
      s3 := ModuleLoaded(s2, Wired);
    } else if opens == 1 {
      s1 := MicGranted(FRESH, ModuleAsked);
      s2 := SocketOpened(s1);
      s3 := ModuleLoaded(s2, Wired);
    } else {
      s1 := MicGranted(FRESH, ModuleAsked);
      s2 := ModuleLoaded(s1, Wired);
      s3 := SocketOpened(s2);
    }
    hide Ready;
    SmallStep(w, FRESH, e1, s1);
    SmallStep(w, s1, e2, s2);
    SmallStep(w, s2, e3, s3);
    SmallStep(w, s3, AwaitSocket(|w.sessions|), TALKING);
  }

  /** A step that is about session `id` changes no other session, and a start that resumes
      after its stop leaves the current session alone. An encoder error stops exactly the
      session it came from. */
  lemma StepsTouchTheirOwnSession(w: World, e: Event, other: nat)
    requires w.Sound() && Enabled(w, e) && other < |w.sessions|
    requires e.MicAnswer? || e.ModuleAnswer? || e.Catch? || e.AwaitSocket? || e.EncoderError? || e.SocketEvent?
    ensures other < |Step(w, e).sessions|
    ensures other != e.id ==> Step(w, e).sessions[other] == w.sessions[other]
    ensures w.sessions[e.id].stopped || !e.EncoderError? ==> Step(w, e).current == w.current
    ensures e.EncoderError? ==> Step(w, e).sessions[e.id].stopped
  {
    hide Session.Sound, MicGranted, ModuleLoaded, ModuleFailed, OnSocket, SocketAwaited;
  }

  /** Once stopped, always stopped: a late step never revives a session. */
  lemma StoppedStays(w: World, e: Event, id: nat)
    requires w.Sound() && Enabled(w, e) && id < |w.sessions| && w.sessions[id].stopped
    ensures id < |Step(w, e).sessions| && Step(w, e).sessions[id].stopped
  {
    var s := w.sessions[id];
    match e {
      case MicAnswer(_, _, how) => SessionChangesKeepStopped(s, how, NoSource, Opens);
      case ModuleAnswer(_, _, graph) => SessionChangesKeepStopped(s, NoContext, graph, Opens);
      case SocketEvent(_, kind) => SessionChangesKeepStopped(s, NoContext, NoSource, kind);
      case _ => SessionChangesKeepStopped(s, NoContext, NoSource, Opens);
    }
    hide Session.Sound, MicGranted, ModuleLoaded, ModuleFailed, OnSocket;
  }

  /** A press after a stop, or after a start that failed, always begins a new session. */
  lemma StopFreesThePage(w: World, refused: bool, throws: bool)
    requires w.Sound()
    ensures !Busy(StopStep(w))
    ensures !Busy(w) ==> |StartStep(w, refused, throws).sessions| == |w.sessions| + 1
    ensures StopStep(w).current.None? && forall i :: 0 <= i < |w.sessions| ==> StopStep(w).sessions[i].stopped
  {
    StopIsSound(w);
    hide Session.Sound;
    assert |StopStep(w).sessions| == |w.sessions|;
  }

  // ----- the module as the page runs it

  /** The module variable `_session` and the sessions the page has made; a session's
      closures hold on to it by its number. */
  class Page {
    var current: Option<nat>
    var sessions: seq<Session>

    ghost function State(): World
      reads this
    {
      World(current, sessions)
    }

    ghost predicate Valid()
      reads this
    {
      State().Sound()
    }

    constructor ()
      ensures Valid() && State() == EMPTY
    {
      current := None;
      sessions := [];
    }

    /** The first half of a free: the nodes disconnected, the encoder closed. */
    method DisconnectGraph(id: nat)
      requires id < |sessions|
      modifies this`sessions
      ensures sessions == old(sessions)[id := Disconnected(old(sessions)[id])]
    {
      var s := sessions[id];
      s := s.(stopped := true, phase := Idle);
      if s.refs.node {
        s := s.(node := Release(true, s.node), refs := s.refs.(node := false));
      }
      if s.refs.source {
        s := s.(source := Release(true, s.source), refs := s.refs.(source := false));
      }
      if s.refs.encoder && s.encoder.Live? {
        s := s.(encoder := Gone);
      }
      s := s.(refs := s.refs.(encoder := false));
      sessions := sessions[id := s];
    }

    /** A session's parts, freed once. */
    method FreeSession(id: nat)
      requires id < |sessions|
      modifies this`sessions
      ensures sessions == old(sessions)[id := Free(old(sessions)[id])]
    {
      DisconnectGraph(id);
      var s := sessions[id];
      if s.refs.stream {
        s := s.(mic := Release(true, s.mic), refs := s.refs.(stream := false));
      }
      if s.refs.ctx {
        s := s.(ctx := Release(true, s.ctx), refs := s.refs.(ctx := false));
      }
      if s.refs.ws {
        if s.socket.Open? {
          s := s.(socket := Closing);
        } else if s.socket.Connecting? {
          s := s.(socket := Connecting(true));
        }
        s := s.(refs := s.refs.(ws := false));
      }
      sessions := sessions[id := s];
    }

    method Start(socketRefused: bool, micThrows: bool)
      requires Valid()
      modifies this
      ensures Valid() && State() == Step(old(State()), Event.Start(socketRefused, micThrows))
    {
      StepIsSound(State(), Event.Start(socketRefused, micThrows));
      hide World.Sound;
      if current.Some? && !sessions[current.value].stopped {
        return;
      }
      var id := |sessions|;
      sessions := sessions + [FRESH.(refs := FRESH.refs.(ws := false), socket := NoSocket)];
      current := Some(id);
      if socketRefused {
        FreeSession(id);
        sessions := sessions[id := sessions[id].(stage := Over)];
        return;
      }
      sessions := sessions[id := FRESH];
      if micThrows {
        sessions := sessions[id := sessions[id].(stage := Rejected)];
      }
    }

    method Stop()
      requires Valid()
      modifies this
      ensures Valid() && State() == Step(old(State()), Event.Stop)
    {
      StepIsSound(State(), Event.Stop);
      if current.Some? {
        FreeSession(current.value);
        current := None;
      }
    }

    /** The microphone's answer to a waiting start. */
    method OnMicGranted(id: nat, how: Capture)
      requires Valid() && Enabled(State(), MicAnswer(id, true, how))
      modifies this
      ensures Valid() && State() == Step(old(State()), MicAnswer(id, true, how))
    {
      StepIsSound(State(), MicAnswer(id, true, how));
      hide World.Sound;
      var s := sessions[id];
      s := s.(mic := Live, refs := s.refs.(stream := true));
      sessions := sessions[id := s];
      if s.stopped {
        FreeSession(id);
        sessions := sessions[id := sessions[id].(stage := ForSocket)];
        return;
      }
      if how.NoContext? {
        sessions := sessions[id := s.(stage := Rejected)];
        return;
      }
      s := s.(ctx := Live, refs := s.refs.(ctx := true));
      if how.NoEncoder? {
        sessions := sessions[id := s.(stage := Rejected)];
        return;
      }
      s := s.(encoder := Live, refs := s.refs.(encoder := true));
      sessions := sessions[id := s.(stage := if how.NotConfigured? then Rejected else ForWorklet)];
    }

    /** The worklet module's answer. */
    method OnModule(id: nat, loaded: bool, graph: Graph)
      requires Valid() && Enabled(State(), ModuleAnswer(id, loaded, graph))
      modifies this
      ensures Valid() && State() == Step(old(State()), ModuleAnswer(id, loaded, graph))
    {
      StepIsSound(State(), ModuleAnswer(id, loaded, graph));
      hide World.Sound;
      var s := sessions[id];
      if s.stopped {
        FreeSession(id);
        sessions := sessions[id := sessions[id].(stage := ForSocket)];
        return;
      }
      if !loaded || graph.NoSource? {
        sessions := sessions[id := s.(stage := Rejected)];
        return;
      }
      s := s.(source := Live, refs := s.refs.(source := true));
      if graph.NoNode? {
        sessions := sessions[id := s.(stage := Rejected)];
        return;
      }
      s := s.(node := Live, refs := s.refs.(node := true));
      sessions := sessions[id := s.(stage := if graph.NotWired? then Rejected else ForSocket)];
    }

    /** The end of a start whose capture is over and whose socket promise is settled. */
    method OnSocketAwaited(id: nat)
      requires Valid() && Enabled(State(), AwaitSocket(id))
      modifies this
      ensures Valid() && State() == Step(old(State()), AwaitSocket(id))
    {
      StepIsSound(State(), AwaitSocket(id));
      hide World.Sound;
      if sessions[id].stopped || sessions[id].promise.Failed? {
        FreeSession(id);
      } else {
        sessions := sessions[id := sessions[id].(phase := Active)];
      }
      sessions := sessions[id := sessions[id].(stage := Over)];
    }

    /** The catch of a start whose capture rejected. */
    method OnRejected(id: nat)
      requires Valid() && Enabled(State(), Catch(id))
      modifies this
      ensures Valid() && State() == Step(old(State()), Catch(id))
    {
      StepIsSound(State(), Catch(id));
      hide World.Sound;
      FreeSession(id);
      sessions := sessions[id := sessions[id].(stage := Over)];
    }

    method OnEncoderError(id: nat)
      requires Valid() && Enabled(State(), EncoderError(id))
      modifies this
      ensures Valid() && State() == Step(old(State()), EncoderError(id))
    {
      StepIsSound(State(), EncoderError(id));
      sessions := sessions[id := sessions[id].(encoder := Gone)];
      if sessions[id].stopped {
        return;
      }
      if current.Some? {
        FreeSession(current.value);
        current := None;
      }
    }
  }
}
