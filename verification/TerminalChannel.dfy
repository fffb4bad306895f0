/**
 * The life of one node terminal channel: opened pending, attached by a single
 * WebSocket, bridged to its process, closed from many sides.
 */
module TerminalChannel {

  datatype Phase = Pending | Attached | Closed

  /** What the panel's frame turns out to be when it is opened. */
  datatype Frame = Text | Bad | Data | Resize | Pause | Resume | Close | Unexpected

  datatype Event =
    | Connect                        // a WebSocket offers this channel's id
    | BridgeReady                    // the bridge has its key and registers its handlers
    | BridgeFails                    // ... or could not be set up
    | Message(frame: Frame)          // a frame of the panel
    | Output(overHigh: bool)         // process output; is the socket's buffer over the mark after it?
    | ProcessEnds                    // the process ends: the watcher set when the channel opened
    | EndReported                    // ... and the bridge's own watcher
    | ChannelTtl | HardCap | AuthTimeout
    | DrainTick(drained: bool)       // the back-pressure interval
    | SocketCloses                   // its ready state leaves OPEN, before its end is reported
    | SocketClosed | SocketFailed
    | Shutdown                       // the agent closes every channel

  /** What the outside sees. */
  datatype Act = Attach | Authenticate | SendOutput | SendExit | Input | Kill | PauseProcess | ResumeProcess

  /** What happened, the latest act outermost. */
  datatype Log = Nothing | Then(before: Log, act: Act)

  /** The bridge's own variables. */
  datatype Bridge = Bridge(ready: bool, authed: bool, panelPaused: bool, pressurePaused: bool, draining: bool)

  /** The deadlines that are still running. */
  datatype Timers = Timers(ttl: bool, cap: bool, auth: bool)

  datatype State = State(
    phase: Phase, attached: bool, socketOpen: bool, processPaused: bool, bridge: Bridge, timers: Timers, log: Log)

  const OPENED := State(Pending, false, false, false,
                        Bridge(false, false, false, false, false), Timers(true, true, false), Nothing)

  // ---------------------------------------------------------------------
  // The handlers
  // ---------------------------------------------------------------------

  function Did(s: State, act: Act): State {
    s.(log := Then(s.log, act))
  }

  /** closeTerminalChannel: idempotent; the timers stop and the process is killed. */
  function ClosedChannel(s: State): State {
    if s.phase == Closed then s
    else Did(s.(phase := Closed, timers := Timers(false, false, false)), Kill)
  }

  /** The bridge's `shut`. */
  function ShutChannel(s: State): State {
    ClosedChannel(s.(bridge := s.bridge.(draining := false), socketOpen := false))
  }

  function PauseApplied(s: State): State {
    if s.bridge.panelPaused || s.bridge.pressurePaused then Did(s.(processPaused := true), PauseProcess)
    else Did(s.(processPaused := false), ResumeProcess)
  }

  function OnConnect(s: State): State {
    if s.phase != Pending then s else Did(s.(phase := Attached, attached := true, socketOpen := true), Attach)
  }

  function Authenticated(s: State): State {
    if s.bridge.authed then s
    else Did(s.(bridge := s.bridge.(authed := true), timers := s.timers.(auth := false)), Authenticate)
  }

  function FrameObeyed(s: State, frame: Frame): State {
    match frame
    case Data => Did(s, Input)
    case Resize => s
    case Pause => PauseApplied(s.(bridge := s.bridge.(panelPaused := true)))
    case Resume => PauseApplied(s.(bridge := s.bridge.(panelPaused := false)))
    case _ => ShutChannel(s)
  }

  function MessageHandled(s: State, frame: Frame): State {
    if s.phase == Closed then s
    else if frame.Text? || frame.Bad? then ShutChannel(s)
    else FrameObeyed(Authenticated(s), frame)
  }

  function OutputHandled(s: State, overHigh: bool): State {
    if s.phase == Closed then s
    else
      var t := if s.socketOpen then Did(s, SendOutput) else s;
      if !t.bridge.pressurePaused && overHigh
      then Drains(PauseApplied(t.(bridge := t.bridge.(pressurePaused := true))))
      else t
  }

  function Drains(s: State): State {
    s.(bridge := s.bridge.(draining := true))
  }

  function DrainTicked(s: State, drained: bool): State {
    if !s.socketOpen || drained
    then PauseApplied(s.(bridge := s.bridge.(draining := false, pressurePaused := false)))
    else s
  }

  function OnProcessEnd(s: State): State {
    ShutChannel(if s.socketOpen then Did(s, SendExit) else s)
  }

  /** One event; an event that cannot happen in a state changes nothing. */
  function Step(s: State, e: Event): State {
    match e
    case Connect => OnConnect(s)
    case BridgeReady =>
      if s.attached && !s.bridge.ready
      then s.(bridge := s.bridge.(ready := true), timers := s.timers.(auth := true))
      else s
    case BridgeFails => if s.attached && !s.bridge.ready then ClosedChannel(s.(socketOpen := false)) else s
    case Message(frame) => if s.bridge.ready then MessageHandled(s, frame) else s
    case Output(overHigh) => if s.bridge.authed then OutputHandled(s, overHigh) else s
    case ProcessEnds => if s.phase == Pending then ClosedChannel(s) else s
    case EndReported => if s.bridge.authed then OnProcessEnd(s) else s
    case ChannelTtl =>
      if !s.timers.ttl then s
      else if s.phase == Pending then ClosedChannel(s)
      else s.(timers := s.timers.(ttl := false))
    case HardCap => if s.timers.cap then ClosedChannel(s) else s
    case AuthTimeout =>
      if !s.timers.auth then s
      else if !s.bridge.authed then ShutChannel(s.(timers := s.timers.(auth := false)))
      else s.(timers := s.timers.(auth := false))
    case DrainTick(drained) => if s.bridge.draining then DrainTicked(s, drained) else s
    case SocketCloses => s.(socketOpen := false)
    case SocketClosed => if s.bridge.ready then ShutChannel(s) else s.(socketOpen := false)
    case SocketFailed => if s.bridge.ready then ShutChannel(s) else s.(socketOpen := false)
    case Shutdown => ClosedChannel(s)
  }

  function Run(events: seq<Event>): State {
    if events == [] then OPENED else Step(Run(events[..|events| - 1]), events[|events| - 1])
  }

  // ---------------------------------------------------------------------
  // What every event keeps
  // ---------------------------------------------------------------------

  function Count(log: Log, act: Act): nat {
    match log
    case Nothing => 0
    case Then(before, a) => Count(before, act) + if a == act then 1 else 0
  }

  /**
   * Nothing passes before the channel attached and a frame authenticated;
   * nothing but an exit notice after the kill.
   */
  predicate Proper(log: Log) {
    match log
    case Nothing => true
    case Then(before, act) =>
      && Proper(before)
      && (act in {SendOutput, SendExit, Input} ==> Count(before, Attach) == 1 && Count(before, Authenticate) == 1)
      && (act == Authenticate ==> Count(before, Attach) == 1)
      && (act in {Attach, Authenticate, SendOutput, Input} ==> Count(before, Kill) == 0)
  }

  /** The process as the last pause or resume left it. */
  predicate LeftPaused(log: Log) {
    match log
    case Nothing => false
    case Then(before, act) => act == PauseProcess || (act != ResumeProcess && LeftPaused(before))
  }

  ghost predicate LogMatches(s: State) {
    && Proper(s.log)
    && Count(s.log, Attach) == (if s.attached then 1 else 0)
    && Count(s.log, Authenticate) == (if s.bridge.authed then 1 else 0)
    && Count(s.log, Kill) == (if s.phase == Closed then 1 else 0)
    && LeftPaused(s.log) == s.processPaused
    && (s.bridge.authed ==> s.attached)
  }

  ghost predicate FlagsMatch(s: State) {
    && (s.phase == Pending ==> !s.attached && !s.socketOpen) && (s.phase == Attached ==> s.attached)
    && (s.bridge.ready ==> s.attached) && (s.bridge.authed ==> s.bridge.ready)
    // paused exactly when the panel or the back-pressure asks for it, and the latter always has its interval
    && (s.phase != Closed ==>
          && s.processPaused == (s.bridge.panelPaused || s.bridge.pressurePaused)
          && s.bridge.draining == s.bridge.pressurePaused)
    && ((s.bridge.panelPaused || s.bridge.pressurePaused || s.bridge.draining) ==> s.bridge.authed)
    // no channel stays open without a timer that ends it
    && (s.phase == Pending ==> s.timers.ttl)
    && (s.phase != Closed ==> s.timers.cap)
    && (s.phase == Attached && s.bridge.ready && !s.bridge.authed ==> s.timers.auth)
    && (s.timers.auth ==> s.bridge.ready)
  }

  ghost predicate Inv(s: State) {
    LogMatches(s) && FlagsMatch(s)
  }

  /** Closing from anywhere is fine, whatever the timers and the interval were at. */
  lemma {:induction false} CloseKeeps(s: State)
    requires LogMatches(s) && (s.phase == Closed ==> FlagsMatch(s))
    requires (s.bridge.ready ==> s.attached) && (s.bridge.authed ==> s.bridge.ready)
    requires (s.bridge.panelPaused || s.bridge.pressurePaused || s.bridge.draining) ==> s.bridge.authed
    ensures Inv(ClosedChannel(s)) && ClosedChannel(s).phase == Closed
  {
  }

  lemma {:induction false} PauseKeeps(s: State)
    requires LogMatches(s) && s.bridge.authed
    ensures var t := PauseApplied(s);
      LogMatches(t) && t == s.(processPaused := s.bridge.panelPaused || s.bridge.pressurePaused, log := t.log)
  {
  }

  lemma {:induction false} MessageKeeps(s: State, frame: Frame)
    requires Inv(s) && s.bridge.ready && s.phase == Attached
    ensures Inv(MessageHandled(s, frame))
  {
    if frame.Text? || frame.Bad? {
      CloseKeeps(s.(bridge := s.bridge.(draining := false), socketOpen := false));
    } else {
      var t := Authenticated(s);
      assert Inv(t) && t.bridge.authed;
      match frame {
        case Data =>
        case Resize =>
        case Pause => PauseKeeps(t.(bridge := t.bridge.(panelPaused := true)));
        case Resume => PauseKeeps(t.(bridge := t.bridge.(panelPaused := false)));
        case _ => CloseKeeps(t.(bridge := t.bridge.(draining := false), socketOpen := false));
      }
    }
  }

  lemma {:induction false} OutputKeeps(s: State, overHigh: bool)
    requires Inv(s) && s.bridge.authed && s.phase != Closed
    ensures Inv(OutputHandled(s, overHigh))
  {
    var t := if s.socketOpen then Did(s, SendOutput) else s;
    assert Inv(t);
    PauseKeeps(t.(bridge := t.bridge.(pressurePaused := true)));
  }

  lemma {:induction false} DrainKeeps(s: State, drained: bool)
    requires Inv(s) && s.bridge.draining && s.bridge.authed
    ensures Inv(DrainTicked(s, drained))
  {
    PauseKeeps(s.(bridge := s.bridge.(draining := false, pressurePaused := false)));
  }

  lemma {:induction false} EndKeeps(s: State)
    requires Inv(s) && s.bridge.authed
    ensures Inv(Step(s, EndReported))
  {
    var t := if s.socketOpen then Did(s, SendExit) else s;
    assert LogMatches(t);
    CloseKeeps(t.(bridge := t.bridge.(draining := false), socketOpen := false));
  }

  lemma {:induction false} StepKeeps(s: State, e: Event)
    requires Inv(s)
    ensures Inv(Step(s, e))
  {
    match e {
      case Connect =>
      case BridgeReady =>
      case BridgeFails => CloseKeeps(s.(socketOpen := false));
      case Message(frame) => if s.bridge.ready && s.phase != Closed { MessageKeeps(s, frame); }
      case Output(overHigh) => if s.bridge.authed && s.phase != Closed { OutputKeeps(s, overHigh); }
      case ProcessEnds => CloseKeeps(s);
      case EndReported => if s.bridge.authed { EndKeeps(s); }
      case ChannelTtl => CloseKeeps(s);
      case HardCap => CloseKeeps(s);
      case AuthTimeout =>
        CloseKeeps(s.(timers := s.timers.(auth := false), bridge := s.bridge.(draining := false), socketOpen := false));
      case DrainTick(drained) => if s.bridge.draining { DrainKeeps(s, drained); }
      case SocketCloses =>
      case SocketClosed => CloseKeeps(s.(bridge := s.bridge.(draining := false), socketOpen := false));
      case SocketFailed => CloseKeeps(s.(bridge := s.bridge.(draining := false), socketOpen := false));
      case Shutdown => CloseKeeps(s);
    }
  }

  lemma {:induction false} RunKeeps(events: seq<Event>)
    ensures Inv(Run(events))
  {
    if events != [] {
      RunKeeps(events[..|events| - 1]);
      StepKeeps(Run(events[..|events| - 1]), events[|events| - 1]);
    }
  }

  // ---------------------------------------------------------------------
  // Every run
  // ---------------------------------------------------------------------

  /** Attached at most once; killed exactly once when closed and never before; everything in its order. */
  lemma {:induction false} EveryRunIsProper(events: seq<Event>)
    ensures var s := Run(events);
      && Count(s.log, Attach) <= 1
      && Count(s.log, Kill) == (if s.phase == Closed then 1 else 0)
      && Proper(s.log)
  {
    RunKeeps(events);
  }

  lemma {:induction false} StepLeavesClosed(s: State, e: Event)
    requires s.phase == Closed
    ensures Step(s, e).phase == Closed
  {
  }

  /** A closed channel stays closed. */
  lemma {:induction false} ClosedForGood(events: seq<Event>, i: nat)
    requires i <= |events| && Run(events[..i]).phase == Closed
    ensures Run(events).phase == Closed
    decreases |events|
  {
    if i < |events| {
      var front := events[..|events| - 1];
      assert front[..i] == events[..i];
      ClosedForGood(front, i);
      StepLeavesClosed(Run(front), events[|events| - 1]);
    } else {
      assert events[..i] == events;
    }
  }

  // ---------------------------------------------------------------------
  // The channel's state, read off the events alone
  // ---------------------------------------------------------------------

  /** Of the first n events, one was the socket's connection ... */
  ghost predicate Connected(events: seq<Event>, n: nat)
    requires n <= |events|
  {
    exists i :: 0 <= i < n && events[i] == Connect
  }

  /** ... and a later one set up the bridge ... */
  ghost predicate Bridged(events: seq<Event>, n: nat)
    requires n <= |events|
  {
    exists i :: 0 <= i < n && events[i] == BridgeReady && Connected(events, i)
  }

  /** ... and a frame came through it. */
  ghost predicate Authed(events: seq<Event>, n: nat)
    requires n <= |events|
  {
    exists i :: 0 <= i < n && events[i].Message? && Bridged(events, i)
  }

  predicate IsSocketEnd(e: Event) {
    e.SocketCloses? || e.SocketClosed? || e.SocketFailed?
  }

  ghost predicate SocketGone(events: seq<Event>, n: nat)
    requires n <= |events|
  {
    exists i :: 0 <= i < n && IsSocketEnd(events[i]) && Connected(events, i)
  }

  /** The last `Pause` or `Resume` frame that came through the bridge was `Pause`. */
  ghost predicate PauseAsked(events: seq<Event>, n: nat)
    requires n <= |events|
  {
    exists i :: 0 <= i < n && events[i] == Message(Pause) && Bridged(events, i)
      && forall j :: i < j < n ==> events[j] != Message(Resume)
  }

  /** A drain tick that ends back-pressure. */
  ghost predicate EndsPressure(events: seq<Event>, j: nat)
    requires j < |events|
  {
    events[j].DrainTick? && (events[j].drained || SocketGone(events, j))
  }

  /** Output went over the mark, and no drain tick ended that. */
  ghost predicate Pressed(events: seq<Event>, n: nat)
    requires n <= |events|
  {
    exists i :: 0 <= i < n && events[i] == Output(true) && Authed(events, i)
      && forall j :: i < j < n ==> !EndsPressure(events, j)
  }

  /** Does event k end a channel that is open? */
  ghost predicate Closes(events: seq<Event>, k: nat)
    requires k < |events|
  {
    match events[k]
    case Shutdown => true
    case HardCap => true
    case ChannelTtl => !Connected(events, k)
    case ProcessEnds => !Connected(events, k)
    case BridgeFails => Connected(events, k) && !Bridged(events, k)
    case AuthTimeout => Bridged(events, k) && !Authed(events, k)
    case Message(frame) => Bridged(events, k) && frame in {Text, Bad, Close, Unexpected}
    case EndReported => Authed(events, k)
    case SocketClosed => Bridged(events, k)
    case SocketFailed => Bridged(events, k)
    case _ => false
  }

  lemma {:induction false} OneMoreConnected(events: seq<Event>, n: nat)
    requires n < |events|
    ensures Connected(events, n + 1) <==> Connected(events, n) || events[n] == Connect
  {
  }

  lemma {:induction false} OneMoreBridged(events: seq<Event>, n: nat)
    requires n < |events|
    ensures Bridged(events, n + 1) <==> Bridged(events, n) || (events[n] == BridgeReady && Connected(events, n))
  {
  }

  lemma {:induction false} OneMoreAuthed(events: seq<Event>, n: nat)
    requires n < |events|
    ensures Authed(events, n + 1) <==> Authed(events, n) || (events[n].Message? && Bridged(events, n))
  {
  }

  lemma {:induction false} OneMoreSocketGone(events: seq<Event>, n: nat)
    requires n < |events|
    ensures SocketGone(events, n + 1) <==> SocketGone(events, n) || (IsSocketEnd(events[n]) && Connected(events, n))
  {
  }

  lemma {:induction false} OneMorePauseAsked(events: seq<Event>, n: nat)
    requires n < |events|
    ensures PauseAsked(events, n + 1) <==>
      if events[n] == Message(Pause) && Bridged(events, n) then true
      else PauseAsked(events, n) && events[n] != Message(Resume)
  {
    if PauseAsked(events, n + 1) {
      var i :| 0 <= i < n + 1 && events[i] == Message(Pause) && Bridged(events, i)
        && forall j :: i < j < n + 1 ==> events[j] != Message(Resume);
      assert i < n ==> PauseAsked(events, n);
    }
  }

  lemma {:induction false} OneMorePressed(events: seq<Event>, n: nat)
    requires n < |events|
    ensures Pressed(events, n + 1) <==>
      if events[n] == Output(true) && Authed(events, n) then true
      else Pressed(events, n) && !EndsPressure(events, n)
  {
    if Pressed(events, n + 1) {
      var i :| 0 <= i < n + 1 && events[i] == Output(true) && Authed(events, i)
        && forall j :: i < j < n + 1 ==> !EndsPressure(events, j);
      assert i < n ==> Pressed(events, n);
    }
  }

  /** The flags of an open channel are what the events say. */
  ghost predicate SaysEvents(s: State, events: seq<Event>, n: nat)
    requires n <= |events|
  {
    && (s.attached <==> Connected(events, n)) && (s.phase == Attached <==> Connected(events, n))
    && (s.bridge.ready <==> Bridged(events, n))
    && (s.bridge.authed <==> Authed(events, n))
    && (s.socketOpen <==> Connected(events, n) && !SocketGone(events, n))
    && (s.bridge.panelPaused <==> PauseAsked(events, n))
    && (s.bridge.pressurePaused <==> Pressed(events, n))
  }

  lemma {:induction false} LaterImpliesEarlier(events: seq<Event>, n: nat)
    requires n <= |events|
    ensures Bridged(events, n) ==> Connected(events, n)
    ensures Authed(events, n) ==> Bridged(events, n)
    ensures SocketGone(events, n) ==> Connected(events, n)
  {
    if Authed(events, n) {
      var i :| 0 <= i < n && events[i].Message? && Bridged(events, i);
    }
  }

  lemma {:induction false} ClosesNow(s: State, events: seq<Event>, n: nat)
    requires n < |events| && Inv(s) && s.phase != Closed && SaysEvents(s, events, n)
    ensures Step(s, events[n]).phase == Closed <==> Closes(events, n)
  {
    LaterImpliesEarlier(events, n);
  }

  lemma {:induction false} StepConnects(s: State, e: Event)
    requires Inv(s) && s.phase != Closed && Step(s, e).phase != Closed
    ensures Step(s, e).attached <==> s.attached || e == Connect
    ensures Step(s, e).phase == Attached <==> Step(s, e).attached
    ensures Step(s, e).bridge.ready <==> s.bridge.ready || (e == BridgeReady && s.attached)
    ensures Step(s, e).bridge.authed <==> s.bridge.authed || (e.Message? && s.bridge.ready)
  {
  }

  lemma {:induction false} StepPauses(s: State, e: Event)
    requires Inv(s) && s.phase != Closed && Step(s, e).phase != Closed
    ensures Step(s, e).bridge.panelPaused <==>
      if e == Message(Pause) && s.bridge.ready then true
      else s.bridge.panelPaused && e != Message(Resume)
    ensures Step(s, e).bridge.pressurePaused <==>
      if e == Output(true) && s.bridge.authed then true
      else s.bridge.pressurePaused && !(e.DrainTick? && (e.drained || !s.socketOpen))
  {
  }

  lemma {:induction false} StepKeepsSocket(s: State, e: Event)
    requires Inv(s) && s.phase != Closed && Step(s, e).phase != Closed
    ensures Step(s, e).socketOpen <==>
      (s.socketOpen && !IsSocketEnd(e)) || (e == Connect && !s.attached)
  {
  }

  lemma {:induction false} EventIsSaid(s: State, events: seq<Event>, n: nat)
    requires n < |events| && Inv(s) && s.phase != Closed && SaysEvents(s, events, n)
    requires Step(s, events[n]).phase != Closed
    ensures SaysEvents(Step(s, events[n]), events, n + 1)
  {
    LaterImpliesEarlier(events, n);
    StepConnects(s, events[n]);
    StepPauses(s, events[n]);
    StepKeepsSocket(s, events[n]);
    OneMoreConnected(events, n);
    OneMoreBridged(events, n);
    OneMoreAuthed(events, n);
    OneMoreSocketGone(events, n);
    OneMorePauseAsked(events, n);
    OneMorePressed(events, n);
  }

  /** One of the first n events ended the channel. */
  ghost predicate Ended(events: seq<Event>, n: nat)
    requires n <= |events|
  {
    exists k :: 0 <= k < n && Closes(events, k)
  }

  lemma {:induction false} NextIsSaid(s: State, events: seq<Event>, n: nat)
    requires n < |events| && Inv(s)
    requires (s.phase == Closed <==> Ended(events, n)) && (s.phase != Closed ==> SaysEvents(s, events, n))
    ensures Step(s, events[n]).phase == Closed <==> Ended(events, n + 1)
    ensures Step(s, events[n]).phase != Closed ==> SaysEvents(Step(s, events[n]), events, n + 1)
  {
    if s.phase == Closed {
      StepLeavesClosed(s, events[n]);
    } else {
      ClosesNow(s, events, n);
      if Step(s, events[n]).phase != Closed {
        EventIsSaid(s, events, n);
      }
    }
  }

  lemma {:induction false} OpenSaysEvents(events: seq<Event>, n: nat)
    requires n <= |events|
    ensures Run(events[..n]).phase == Closed <==> Ended(events, n)
    ensures Run(events[..n]).phase != Closed ==> SaysEvents(Run(events[..n]), events, n)
  {
    if n > 0 {
      OpenSaysEvents(events, n - 1);
      assert events[..n][..n - 1] == events[..n - 1];
      RunKeeps(events[..n - 1]);
      NextIsSaid(Run(events[..n - 1]), events, n - 1);
    }
  }

  /** A channel is closed exactly when one of the events that end it came. */
  lemma {:induction false} ClosedIff(events: seq<Event>)
    ensures Run(events).phase == Closed <==> Ended(events, |events|)
  {
    assert events[..|events|] == events;
    OpenSaysEvents(events, |events|);
  }

  /**
   * While a channel is open, its process is left paused exactly when the last
   * pause or resume frame of the panel was a pause, or output went over the
   * mark and has not drained since.
   */
  lemma {:induction false} PausedExactlyOnDemand(events: seq<Event>)
    ensures Run(events).phase != Closed ==>
      (LeftPaused(Run(events).log) <==> PauseAsked(events, |events|) || Pressed(events, |events|))
    ensures Run(events).phase != Closed ==> (Run(events).bridge.draining <==> Pressed(events, |events|))
  {
    assert events[..|events|] == events;
    OpenSaysEvents(events, |events|);
    RunKeeps(events);
  }

  /** The outputs that came through: those of an authenticated channel, as long as its socket is there. */
  ghost function OutputsDue(events: seq<Event>, n: nat): nat
    requires n <= |events|
  {
    if n == 0 then 0
    else
      var due := OutputsDue(events, n - 1);
      if events[n - 1].Output? && Authed(events, n - 1) && !SocketGone(events, n - 1) then due + 1 else due
  }

  /** The panel's data frames that came through the bridge. */
  ghost function InputsDue(events: seq<Event>, n: nat): nat
    requires n <= |events|
  {
    if n == 0 then 0
    else
      var due := InputsDue(events, n - 1);
      if events[n - 1] == Message(Data) && Bridged(events, n - 1) then due + 1 else due
  }

  lemma {:induction false} StepSends(s: State, e: Event)
    requires Inv(s) && s.phase != Closed && Step(s, e).phase != Closed
    ensures Count(Step(s, e).log, SendOutput) ==
      Count(s.log, SendOutput) + (if e.Output? && s.bridge.authed && s.socketOpen then 1 else 0)
    ensures Count(Step(s, e).log, Input) ==
      Count(s.log, Input) + (if e == Message(Data) && s.bridge.ready then 1 else 0)
  {
  }

  /** An open channel has passed on every output after authentication and every data frame, each once. */
  lemma {:induction false} NothingIsWithheld(events: seq<Event>, n: nat)
    requires n <= |events| && Run(events[..n]).phase != Closed
    ensures Count(Run(events[..n]).log, SendOutput) == OutputsDue(events, n)
    ensures Count(Run(events[..n]).log, Input) == InputsDue(events, n)
  {
    if n > 0 {
      var s := Run(events[..n - 1]);
      assert events[..n][..n - 1] == events[..n - 1];
      if s.phase == Closed {
        StepLeavesClosed(s, events[n - 1]);
      } else {
        NothingIsWithheld(events, n - 1);
        OpenSaysEvents(events, n - 1);
        LaterImpliesEarlier(events, n - 1);
        RunKeeps(events[..n - 1]);
        StepSends(s, events[n - 1]);
      }
    }
  }

  /** The end of the process is reported to the panel, if an authenticated channel still has its socket. */
  lemma {:induction false} ExitIsReported(events: seq<Event>)
    requires Run(events).phase != Closed
    ensures Count(Run(events + [EndReported]).log, SendExit) == Count(Run(events).log, SendExit)
      + (if Authed(events, |events|) && !SocketGone(events, |events|) then 1 else 0)
  {
    assert events[..|events|] == events && (events + [EndReported])[..|events|] == events;
    OpenSaysEvents(events, |events|);
    LaterImpliesEarlier(events, |events|);
  }

  /** Whatever happened, a timer runs that ends it: pending, unauthenticated, or merely old. */
  lemma {:induction false} TimersEndIt(events: seq<Event>)
    ensures var s := Run(events);
      && (s.phase == Pending ==> Step(s, ChannelTtl).phase == Closed)
      && (s.bridge.ready && !s.bridge.authed && s.phase != Closed ==> Step(s, AuthTimeout).phase == Closed)
      && Step(s, HardCap).phase == Closed
  {
    RunKeeps(events);
  }

  // ---------------------------------------------------------------------
  // The channel in place
  // ---------------------------------------------------------------------

  class Channel {
    var phase: Phase
    var attached: bool
    var socketOpen: bool
    var processPaused: bool
    var bridge: Bridge
    var timers: Timers
    ghost var log: Log

    ghost function Abstract(): State
      reads this
    {
      State(phase, attached, socketOpen, processPaused, bridge, timers, log)
    }

    constructor ()
      ensures Abstract() == OPENED
    {
      phase, attached, socketOpen, processPaused := Pending, false, false, false;
      bridge, timers := Bridge(false, false, false, false, false), Timers(true, true, false);
      log := Nothing;
    }

    method CloseTerminalChannel()
      modifies this
      ensures Abstract() == ClosedChannel(old(Abstract()))
    {
      if phase == Closed {
        return;
      }
      phase, timers, log := Closed, Timers(false, false, false), Then(log, Kill);
    }

    method Shut()
      modifies this
      ensures Abstract() == ShutChannel(old(Abstract()))
    {
      bridge, socketOpen := bridge.(draining := false), false;
      CloseTerminalChannel();
    }

    method ApplyPause()
      modifies this
      ensures Abstract() == PauseApplied(old(Abstract()))
    {
      if bridge.panelPaused || bridge.pressurePaused {
        processPaused, log := true, Then(log, PauseProcess);
      } else {
        processPaused, log := false, Then(log, ResumeProcess);
      }
    }

    method Connect() returns (accepted: bool)
      modifies this
      ensures Abstract() == OnConnect(old(Abstract())) && (accepted <==> old(phase) == Pending)
    {
      if phase != Pending {
        return false;
      }
      phase, attached, socketOpen, log := Attached, true, true, Then(log, Attach);
      return true;
    }

    method OnMessage(frame: Frame)
      modifies this
      ensures Abstract() == MessageHandled(old(Abstract()), frame)
    {
      if phase == Closed {
        return;
      }
      if frame.Text? || frame.Bad? {
        Shut();
        return;
      }
      if !bridge.authed {
        bridge, timers, log := bridge.(authed := true), timers.(auth := false), Then(log, Authenticate);
      }
      Obey(frame);
    }

    method Obey(frame: Frame)
      modifies this
      ensures Abstract() == FrameObeyed(old(Abstract()), frame)
    {
      match frame {
        case Data =>
          log := Then(log, Input);
        case Resize =>
        case Pause =>
          bridge := bridge.(panelPaused := true);
          ApplyPause();
        case Resume =>
          bridge := bridge.(panelPaused := false);
          ApplyPause();
        case _ =>
          Shut();
      }
    }

    method OnOutput(overHigh: bool)
      modifies this
      ensures Abstract() == OutputHandled(old(Abstract()), overHigh)
    {
      if phase == Closed {
        return;
      }
      if socketOpen {
        log := Then(log, SendOutput);
      }
      if !bridge.pressurePaused && overHigh {
        bridge := bridge.(pressurePaused := true);
        ApplyPause();
        bridge := bridge.(draining := true);
      }
    }

    method OnDrainTick(drained: bool)
      modifies this
      ensures Abstract() == DrainTicked(old(Abstract()), drained)
    {
      if !socketOpen || drained {
        bridge := bridge.(draining := false, pressurePaused := false);
        ApplyPause();
      }
    }

    method OnEnd()
      modifies this
      ensures Abstract() == OnProcessEnd(old(Abstract()))
    {
      if socketOpen {
        log := Then(log, SendExit);
      }
      Shut();
    }

    /** The bridge has its key: handlers are registered and the authentication deadline starts. */
    method BridgeTerminalChannel()
      requires attached && !bridge.ready
      modifies this
      ensures Abstract() == Step(old(Abstract()), BridgeReady)
    {
      bridge, timers := bridge.(ready := true), timers.(auth := true);
    }

    method OnAuthTimeout()
      requires timers.auth
      modifies this
      ensures Abstract() == Step(old(Abstract()), AuthTimeout)
    {
      timers := timers.(auth := false);
      if !bridge.authed {
        Shut();
      }
    }
  }
}
