/** What a run of the WebSocket system amounts to, told by its steps alone: the frames that arrived,
    the sends that were accepted, the outcomes that were queued, and what listeners were shown. */
module WebSocketHistory {
  import opened Basics
  import opened WebSocketModel
  import opened WebSocketSafety

  lemma RunSplits(y: System, t: Step, later: seq<Step>)
    requires Enabled(y, t) && ValidRun(Apply(y, t), later)
    ensures ValidRun(y, [t] + later) && Run(y, [t] + later) == Run(Apply(y, t), later)
  {
    assert ([t] + later)[1..] == later;
  }

  lemma {:induction false} RunsJoin(y: System, first: seq<Step>, later: seq<Step>)
    requires ValidRun(y, first) && ValidRun(Run(y, first), later)
    ensures ValidRun(y, first + later) && Run(y, first + later) == Run(Run(y, first), later)
    decreases |first|
  {
    if first == [] {
      assert first + later == later;
    } else {
      RunsJoin(Apply(y, first[0]), first[1..], later);
      RunSplits(y, first[0], first[1..] + later);
      assert [first[0]] + (first[1..] + later) == first + later;
    }
  }

  // ----- incoming frames -----

  function ArrivedBy(t: Step): seq<Message> {
    if t.Task? && t.task.DoTaskReceive? && t.task.incoming.Data? then [t.task.incoming.message] else []
  }

  /** The data frames of the peer, in the order in which they reached the connection task. */
  function Arrivals(steps: seq<Step>): seq<Message> {
    if steps == [] then [] else ArrivedBy(steps[0]) + Arrivals(steps[1..])
  }

  function ReceivedOf(y: System): seq<Message> { if y.conn.Some? then y.conn.value.received else [] }

  lemma StepReceives(y: System, t: Step)
    requires Safe(y) && Enabled(y, t)
    ensures ReceivedOf(Apply(y, t)) == ReceivedOf(y) + ArrivedBy(t)
  {}

  lemma {:induction false} ReceivedAreArrivals(y: System, steps: seq<Step>)
    requires Safe(y) && ValidRun(y, steps)
    ensures ReceivedOf(Run(y, steps)) == ReceivedOf(y) + Arrivals(steps)
    decreases |steps|
  {
    if steps == [] {
    } else {
      var z := Apply(y, steps[0]);
      StepReceives(y, steps[0]);
      StepKeepsSafe(y, steps[0]);
      ReceivedAreArrivals(z, steps[1..]);
      Chained(ReceivedOf(y), ArrivedBy(steps[0]), ReceivedOf(z), Arrivals(steps[1..]), ReceivedOf(Run(z, steps[1..])));
    }
  }

  // ----- outcomes in the event channel -----

  /** What a step tells the reader of the event channel. A frame nobody can read any more is dropped. */
  function OutcomeBy(y: System, t: Step): seq<ReadResult>
    requires Enabled(y, t)
  {
    match t
    case Task(TaskFail) => [PeerClosed(1006, "", false)]
    case Task(DoTaskReceive(Data(m))) => if Alive(y) then [Received(m)] else []
    case Task(DoTaskReceive(PeerClose(Some((code, reason))))) => [PeerClosed(code, reason, true)]
    case Task(DoTaskReceive(PeerClose(None))) => [PeerClosed(1005, "", true)]
    case Task(DoTaskReceive(Broken)) => [PeerClosed(1006, "", false)]
    case _ => []
  }

  function Outcomes(y: System, steps: seq<Step>): seq<ReadResult>
    requires ValidRun(y, steps)
    decreases |steps|
  {
    if steps == [] then [] else OutcomeBy(y, steps[0]) + Outcomes(Apply(y, steps[0]), steps[1..])
  }

  function QueuedOf(y: System): seq<ReadResult> { if y.conn.Some? then y.conn.value.queued else [] }

  lemma StepQueues(y: System, t: Step)
    requires Safe(y) && Enabled(y, t)
    ensures QueuedOf(Apply(y, t)) == QueuedOf(y) + OutcomeBy(y, t)
  {}

  lemma {:induction false} QueuedAreOutcomes(y: System, steps: seq<Step>)
    requires Safe(y) && ValidRun(y, steps)
    ensures QueuedOf(Run(y, steps)) == QueuedOf(y) + Outcomes(y, steps)
    decreases |steps|
  {
    if steps == [] {
    } else {
      var z := Apply(y, steps[0]);
      StepQueues(y, steps[0]);
      StepKeepsSafe(y, steps[0]);
      QueuedAreOutcomes(z, steps[1..]);
      Chained(QueuedOf(y), OutcomeBy(y, steps[0]), QueuedOf(z), Outcomes(z, steps[1..]), QueuedOf(Run(z, steps[1..])));
    }
  }

  /** The task ends, or is about to: a write failed, the connection closed or broke, a frame found nobody
      to read it, or nobody holds the connection any more. */
  predicate Stops(y: System, t: Step)
    requires Enabled(y, t)
  {
    match t
    case Task(TaskWrite(ok)) => !ok
    case Task(DoTaskReceive(Data(_))) => !Alive(y)
    case Task(DoTaskReceive(Control)) => false
    case Task(_) => true
    case _ => false
  }

  predicate NoneStops(y: System, steps: seq<Step>)
    requires ValidRun(y, steps)
    decreases |steps|
  {
    steps == [] || (!Stops(y, steps[0]) && NoneStops(Apply(y, steps[0]), steps[1..]))
  }

  predicate Stopped(y: System) { y.conn.Some? && !y.conn.value.task.Running? }

  lemma StepStops(y: System, t: Step)
    requires Safe(y) && Enabled(y, t)
    ensures Stopped(Apply(y, t)) <==> Stopped(y) || Stops(y, t)
  {}

  lemma {:induction false} TaskStopsExactly(y: System, steps: seq<Step>)
    requires Safe(y) && ValidRun(y, steps)
    ensures Stopped(Run(y, steps)) <==> Stopped(y) || !NoneStops(y, steps)
    decreases |steps|
  {
    if steps == [] {
    } else {
      StepStops(y, steps[0]);
      StepKeepsSafe(y, steps[0]);
      TaskStopsExactly(Apply(y, steps[0]), steps[1..]);
    }
  }

  // ----- sends -----

  function SentBy(y: System, t: Step): seq<Payload> {
    if t.Script? && t.script.CallSend? && y.js.readyState == OPEN then [t.script.payload] else []
  }

  /** The payloads of the calls of `send` on an open socket. */
  function Sends(y: System, steps: seq<Step>): seq<Payload>
    requires ValidRun(y, steps)
    decreases |steps|
  {
    if steps == [] then [] else SentBy(y, steps[0]) + Sends(Apply(y, steps[0]), steps[1..])
  }

  function LateBy(y: System, t: Step): seq<Payload> {
    if t.Script? && t.script.CallSend? && y.js.readyState > OPEN then [t.script.payload] else []
  }

  /** The payloads of the calls of `send` on a closing or closed socket. */
  function LateSends(y: System, steps: seq<Step>): seq<Payload>
    requires ValidRun(y, steps)
    decreases |steps|
  {
    if steps == [] then [] else LateBy(y, steps[0]) + LateSends(Apply(y, steps[0]), steps[1..])
  }

  function TotalBytes(ps: seq<Payload>): nat {
    if ps == [] then 0 else ByteLength(ps[0]) + TotalBytes(ps[1..])
  }

  lemma {:induction false} TotalOfBoth(a: seq<Payload>, b: seq<Payload>)
    ensures TotalBytes(a + b) == TotalBytes(a) + TotalBytes(b)
  {
    if a == [] {
      assert a + b == b;
    } else {
      TotalOfBoth(a[1..], b);
      assert (a + b)[1..] == a[1..] + b;
    }
  }

  predicate SameSends(s: Socket, z: Socket) { z.accepted == s.accepted && z.discarded == s.discarded }

  lemma CallSendsNothing(s: Socket, t: ScriptStep)
    requires SocketOk(s) && ScriptEnabled(s, t) && t.CallClose?
    ensures SameSends(s, ScriptEffect(s, t).0)
  {}

  lemma ConnectSendsNothing(s: Socket, t: ScriptStep)
    requires SocketOk(s) && ScriptEnabled(s, t) && IsConnect(t)
    ensures SameSends(s, ScriptEffect(s, t).0)
  {}

  lemma QueueSendsNothing(s: Socket, t: ScriptStep)
    requires SocketOk(s) && ScriptEnabled(s, t) && (IsQueue(t) || IsPump(t))
    ensures SameSends(s, ScriptEffect(s, t).0)
  {}

  lemma ResumeSendsNothing(s: Socket, t: ScriptStep)
    requires SocketOk(s) && ScriptEnabled(s, t) && IsResume(t)
    ensures SameSends(s, ScriptEffect(s, t).0)
  {}

  /** Only a call of `send` adds to what is accepted or discarded. */
  lemma ScriptSends(s: Socket, t: ScriptStep)
    requires SocketOk(s) && ScriptEnabled(s, t) && !t.CallSend?
    ensures SameSends(s, ScriptEffect(s, t).0)
  {
    if t.CallClose? { CallSendsNothing(s, t); }
    else if IsConnect(t) { ConnectSendsNothing(s, t); }
    else if IsResume(t) { ResumeSendsNothing(s, t); }
    else { QueueSendsNothing(s, t); }
  }

  lemma CallSends(s: Socket, p: Payload)
    requires SocketOk(s)
    ensures Send(s, p).accepted == s.accepted + (if s.readyState == OPEN then [p] else [])
    ensures Send(s, p).discarded == s.discarded + (if s.readyState > OPEN then ByteLength(p) else 0)
  {}

  lemma StepSends(y: System, t: Step)
    requires Safe(y) && Enabled(y, t)
    ensures Apply(y, t).js.accepted == y.js.accepted + SentBy(y, t)
    ensures Apply(y, t).js.discarded == y.js.discarded + TotalBytes(LateBy(y, t))
  {
    if t.Script? {
      if t.script.CallSend? { CallSends(y.js, t.script.payload); } else { ScriptSends(y.js, t.script); }
    }
  }

  lemma {:induction false} AcceptedAreSends(y: System, steps: seq<Step>)
    requires Safe(y) && ValidRun(y, steps)
    ensures Run(y, steps).js.accepted == y.js.accepted + Sends(y, steps)
    ensures Run(y, steps).js.discarded == y.js.discarded + TotalBytes(LateSends(y, steps))
    decreases |steps|
  {
    if steps == [] {
    } else {
      var z := Apply(y, steps[0]);
      StepSends(y, steps[0]);
      StepKeepsSafe(y, steps[0]);
      AcceptedAreSends(z, steps[1..]);
      TotalOfBoth(LateBy(y, steps[0]), LateSends(z, steps[1..]));
      Chained(y.js.accepted, SentBy(y, steps[0]), z.js.accepted, Sends(z, steps[1..]), Run(z, steps[1..]).js.accepted);
    }
  }

  /** A call counts its bytes at once, unless it throws, and queues its payload on an open socket. */
  lemma SendCounts(s: Socket, p: Payload)
    ensures Send(s, p).bufferedAmount == s.bufferedAmount + (if s.readyState == CONNECTING then 0 else ByteLength(p))
    ensures Send(s, p).jobs ==
            s.jobs + if s.readyState == OPEN && s.handle.Some? then [SendJob(s.handle.value, p, ByteLength(p))] else []
  {}

  // ----- what listeners were shown -----

  /** The codes and reasons a script may close with. */
  predicate LegalClose(code: Option<nat>, reason: Option<string>) {
    && (code.Some? ==> code.value == 1000 || 3000 <= code.value <= 4999)
    && (reason.Some? ==> Utf8Length(reason.value) <= 123)
  }

  /** The entry a script step adds to the log, for the state it is taken in. */
  function ShownBy(s: Socket, t: ScriptStep): seq<Entry>
    requires ScriptEnabled(s, t)
  {
    match t
    case CallClose(code, reason) => if LegalClose(code, reason) then [CloseCall] else []
    case DoCookiesLoaded(ready, _) => if s.readyState == CONNECTING && !ready then [ErrorEvent] else []
    case DoCookiesFailed => if s.readyState == CLOSED then [] else [ErrorEvent]
    case DoConnectResolved(expected) =>
      if s.readyState != CONNECTING then [] else if expected then [OpenEvent] else [ErrorEvent]
    case DoConnectRejected => if s.readyState == CLOSED then [] else [ErrorEvent]
    case DoCloseMicrotask => if s.readyState == CLOSED then [] else [ErrorEvent]
    case DoJobCatch => if s.phase.ok then [] else [ErrorEvent]
    case DoReadSettled =>
      (match s.read.result
       case Received(m) => if s.readyState == OPEN then [MessageEvent(m)] else []
       case PeerClosed(code, reason, wasClean) =>
         if s.readyState == CLOSED then [] else [CloseEvent(code, reason, wasClean)]
       case ReadFailed => [ErrorEvent])
    case DoResume =>
      if s.turn.ErrorDispatched? && !s.turn.origin.FromSend? && s.readyState != CLOSED
      then [CloseEvent(1006, "", false)] else []
    case _ => []
  }

  function Shown(y: System, steps: seq<Step>): seq<Entry>
    requires ValidRun(y, steps)
    decreases |steps|
  {
    if steps == [] then []
    else
      (if steps[0].Script? then ShownBy(y.js, steps[0].script) else []) + Shown(Apply(y, steps[0]), steps[1..])
  }

  lemma CallShows(s: Socket, t: ScriptStep)
    requires SocketOk(s) && ScriptEnabled(s, t) && IsCall(t)
    ensures ScriptEffect(s, t).0.log == s.log + ShownBy(s, t)
  {}

  lemma ConnectShows(s: Socket, t: ScriptStep)
    requires SocketOk(s) && ScriptEnabled(s, t) && IsConnect(t)
    ensures ScriptEffect(s, t).0.log == s.log + ShownBy(s, t)
  {}

  lemma QueueShows(s: Socket, t: ScriptStep)
    requires SocketOk(s) && ScriptEnabled(s, t) && IsQueue(t)
    ensures ScriptEffect(s, t).0.log == s.log + ShownBy(s, t)
  {}

  lemma PumpShows(s: Socket, t: ScriptStep)
    requires SocketOk(s) && ScriptEnabled(s, t) && IsPump(t)
    ensures ScriptEffect(s, t).0.log == s.log + ShownBy(s, t)
  {}

  lemma ResumeShows(s: Socket, t: ScriptStep)
    requires SocketOk(s) && ScriptEnabled(s, t) && IsResume(t)
    ensures ScriptEffect(s, t).0.log == s.log + ShownBy(s, t)
  {}

  lemma ScriptShows(s: Socket, t: ScriptStep)
    requires SocketOk(s) && ScriptEnabled(s, t)
    ensures ScriptEffect(s, t).0.log == s.log + ShownBy(s, t)
  {
    if IsCall(t) { CallShows(s, t); }
    else if IsConnect(t) { ConnectShows(s, t); }
    else if IsQueue(t) { QueueShows(s, t); }
    else if IsPump(t) { PumpShows(s, t); }
    else { ResumeShows(s, t); }
  }

  lemma StepShows(y: System, t: Step)
    requires Safe(y) && Enabled(y, t)
    ensures Apply(y, t).js.log == y.js.log + (if t.Script? then ShownBy(y.js, t.script) else [])
  {
    if t.Script? { ScriptShows(y.js, t.script); }
  }

  lemma {:induction false} LogIsShown(y: System, steps: seq<Step>)
    requires Safe(y) && ValidRun(y, steps)
    ensures Run(y, steps).js.log == y.js.log + Shown(y, steps)
    decreases |steps|
  {
    if steps == [] {
    } else {
      var z := Apply(y, steps[0]);
      var shown := if steps[0].Script? then ShownBy(y.js, steps[0].script) else [];
      StepShows(y, steps[0]);
      StepKeepsSafe(y, steps[0]);
      LogIsShown(z, steps[1..]);
      Chained(y.js.log, shown, z.js.log, Shown(z, steps[1..]), Run(z, steps[1..]).js.log);
    }
  }

  // ----- the ready state -----

  /** The ready state a log stands for: the last of open, `close()` and the close event decides. */
  function ReadyStateOf(log: seq<Entry>): nat {
    if log == [] then CONNECTING
    else
      var before := ReadyStateOf(log[..|log| - 1]);
      match log[|log| - 1]
      case OpenEvent => OPEN
      case CloseCall => if before == CLOSED then CLOSED else CLOSING
      case CloseEvent(_, _, _) => CLOSED
      case _ => before
  }

  lemma ReadyStateAppend(log: seq<Entry>, e: Entry)
    ensures ReadyStateOf(log + [e]) ==
            match e
            case OpenEvent => OPEN
            case CloseCall => if ReadyStateOf(log) == CLOSED then CLOSED else CLOSING
            case CloseEvent(_, _, _) => CLOSED
            case _ => ReadyStateOf(log)
  {
    assert (log + [e])[..|log|] == log;
  }

  function ReadyStateAfter(before: nat, shown: seq<Entry>): nat
    requires |shown| <= 1
  {
    if shown == [] then before
    else
      match shown[0]
      case OpenEvent => OPEN
      case CloseCall => if before == CLOSED then CLOSED else CLOSING
      case CloseEvent(_, _, _) => CLOSED
      case _ => before
  }

  lemma ConnectMoves(s: Socket, t: ScriptStep)
    requires SocketOk(s) && ScriptEnabled(s, t) && (IsCall(t) || IsConnect(t))
    ensures |ShownBy(s, t)| <= 1 && ScriptEffect(s, t).0.readyState == ReadyStateAfter(s.readyState, ShownBy(s, t))
  {}

  lemma LaterMoves(s: Socket, t: ScriptStep)
    requires SocketOk(s) && ScriptEnabled(s, t) && (IsQueue(t) || IsPump(t))
    ensures |ShownBy(s, t)| <= 1 && ScriptEffect(s, t).0.readyState == ReadyStateAfter(s.readyState, ShownBy(s, t))
  {}

  lemma ResumeMoves(s: Socket, t: ScriptStep)
    requires SocketOk(s) && ScriptEnabled(s, t) && IsResume(t)
    ensures |ShownBy(s, t)| <= 1 && ScriptEffect(s, t).0.readyState == ReadyStateAfter(s.readyState, ShownBy(s, t))
  {}

  lemma ScriptMoves(s: Socket, t: ScriptStep)
    requires SocketOk(s) && ScriptEnabled(s, t)
    ensures |ShownBy(s, t)| <= 1 && ScriptEffect(s, t).0.readyState == ReadyStateAfter(s.readyState, ShownBy(s, t))
  {
    if IsCall(t) || IsConnect(t) { ConnectMoves(s, t); } else if IsResume(t) { ResumeMoves(s, t); } else { LaterMoves(s, t); }
  }

  predicate ReadyOk(s: Socket) { s.readyState == ReadyStateOf(s.log) }

  lemma ShownKeepsReady(s: Socket, z: Socket, shown: seq<Entry>)
    requires ReadyOk(s) && z.log == s.log + shown && |shown| <= 1
    requires z.readyState == ReadyStateAfter(s.readyState, shown)
    ensures ReadyOk(z)
  {
    if shown == [] {
      assert z.log == s.log;
    } else {
      ReadyStateAppend(s.log, shown[0]);
      assert shown == [shown[0]];
    }
  }

  lemma StepKeepsReady(y: System, t: Step)
    requires Safe(y) && Enabled(y, t) && ReadyOk(y.js)
    ensures ReadyOk(Apply(y, t).js)
  {
    if t.Script? {
      ScriptShows(y.js, t.script);
      ScriptMoves(y.js, t.script);
      ShownKeepsReady(y.js, Apply(y, t).js, ShownBy(y.js, t.script));
    }
  }

  lemma {:induction false} RunKeepsReady(y: System, steps: seq<Step>)
    requires Safe(y) && ValidRun(y, steps) && ReadyOk(y.js)
    ensures ReadyOk(Run(y, steps).js)
    decreases |steps|
  {
    if steps == [] {
    } else {
      StepKeepsReady(y, steps[0]);
      StepKeepsSafe(y, steps[0]);
      RunKeepsReady(Apply(y, steps[0]), steps[1..]);
    }
  }

  /** In every run the log is what its steps show, and `readyState` is what the log says: nothing that
      a script can observe depends on anything else. */
  lemma ObservedIsShown(y: System, steps: seq<Step>)
    requires Initial(y) && ValidRun(y, steps)
    ensures Run(y, steps).js.log == Shown(y, steps)
    ensures Run(y, steps).js.readyState == ReadyStateOf(Shown(y, steps))
  {
    SafeInitially(y);
    LogIsShown(y, steps);
    RunKeepsReady(y, steps);
  }
}
