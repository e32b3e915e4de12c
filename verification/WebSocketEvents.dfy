/** The language of event traces, and the order of incoming messages. */
module WebSocketEvents {
  import opened Basics
  import opened WebSocketModel
  import opened WebSocketSafety
  import opened WebSocketHistory

  /** States of an automaton over observed entries. `Bad` is the only rejecting state. */
  datatype Trace = Start | Cancelled | Failing | Never | Live | Leaving | Over | Bad

  /** `error? close?` before an open; `open (message|error)* (close error*)?` after one;
      no message after a `close()` call. */
  function Observe(t: Trace, e: Entry): Trace {
    match (t, e)
    case (Start, OpenEvent) => Live
    case (Start, ErrorEvent) => Failing
    case (Failing, CloseEvent(_, _, _)) => Never
    case (Live, MessageEvent(_)) => Live
    case (Live, CloseCall) => Leaving
    case (Live, CloseEvent(_, _, _)) => Over
    case (Leaving, CloseEvent(_, _, _)) => Over
    case (Start, CloseCall) => Cancelled
    case (Cancelled, ErrorEvent) => Failing
    case (_, CloseCall) => t
    case (Live, ErrorEvent) => Live
    case (Leaving, ErrorEvent) => Leaving
    case (Over, ErrorEvent) => Over
    case _ => Bad
  }

  function Classify(log: seq<Entry>): Trace {
    if log == [] then Start else Observe(Classify(log[..|log| - 1]), log[|log| - 1])
  }

  lemma ClassifyAppend(log: seq<Entry>, e: Entry)
    ensures Classify(log + [e]) == Observe(Classify(log), e)
  {
    assert (log + [e])[..|log|] == log;
  }

  /** The automaton state that the fields of a socket stand for. */
  function Expected(s: Socket): Trace {
    if !Opened(s) then
      if s.settled then Never else if BeforeOpen(s.turn) then Failing
      else if s.readyState == CONNECTING then Start else Cancelled
    else if s.settled then Over
    else if s.readyState == OPEN then Live else Leaving
  }

  ghost predicate TraceOk(s: Socket) { Classify(s.log) == Expected(s) }

  /** A step that adds no entry, or one entry that the automaton expects. */
  ghost predicate Extends(s: Socket, s': Socket) {
    || (s'.log == s.log && Expected(s') == Expected(s))
    || (s'.log != [] && s'.log == s.log + [s'.log[|s'.log| - 1]] &&
        Expected(s') == Observe(Expected(s), s'.log[|s'.log| - 1]))
  }

  lemma ExtendsKeepsTrace(s: Socket, s': Socket)
    requires TraceOk(s) && Extends(s, s')
    ensures TraceOk(s')
  {
    if s'.log != s.log { ClassifyAppend(s.log, s'.log[|s'.log| - 1]); }
  }

  lemma CallExtends(s: Socket, t: ScriptStep)
    requires SocketOk(s) && ScriptEnabled(s, t) && IsCall(t)
    ensures Extends(s, ScriptEffect(s, t).0)
  {}

  lemma ConnectResultExtends(s: Socket, t: ScriptStep)
    requires SocketOk(s) && ScriptEnabled(s, t) && (t.DoConnectResolved? || t.DoConnectRejected?)
    ensures Extends(s, ScriptEffect(s, t).0)
  {}

  lemma CookiesExtend(s: Socket, t: ScriptStep)
    requires SocketOk(s) && ScriptEnabled(s, t) && (t.DoCookiesLoaded? || t.DoCookiesFailed? || t.DoCloseMicrotask?)
    ensures Extends(s, ScriptEffect(s, t).0)
  {}

  lemma ConnectExtends(s: Socket, t: ScriptStep)
    requires SocketOk(s) && ScriptEnabled(s, t) && IsConnect(t)
    ensures Extends(s, ScriptEffect(s, t).0)
  {
    if t.DoConnectResolved? || t.DoConnectRejected? { ConnectResultExtends(s, t); } else { CookiesExtend(s, t); }
  }

  lemma QueueExtends(s: Socket, t: ScriptStep)
    requires SocketOk(s) && ScriptEnabled(s, t) && IsQueue(t)
    ensures Extends(s, ScriptEffect(s, t).0)
  {}

  lemma PumpExtends(s: Socket, t: ScriptStep)
    requires SocketOk(s) && ScriptEnabled(s, t) && IsPump(t)
    ensures Extends(s, ScriptEffect(s, t).0)
  {}

  lemma FailureExtends(s: Socket, handle: Option<nat>)
    requires SocketOk(s) && s.turn.ErrorDispatched? && !s.turn.origin.FromSend?
    ensures Extends(s, FinalizeClose(s.(handle := handle), 1006, "", false))
  {}

  lemma DispatchExtends(s: Socket)
    requires SocketOk(s) && !s.turn.Idle? && (s.turn.ErrorDispatched? ==> s.turn.origin.FromSend?)
    ensures Extends(s, Resume(s).0)
  {}

  lemma ResumeExtends(s: Socket, t: ScriptStep)
    requires SocketOk(s) && ScriptEnabled(s, t) && IsResume(t)
    ensures Extends(s, ScriptEffect(s, t).0)
  {
    hide SocketOk, Extends, FinalizeClose;
    if s.turn.ErrorDispatched? && !s.turn.origin.FromSend? {
      FailureExtends(s, None);
      FailureExtends(s, s.handle);
    } else {
      DispatchExtends(s);
    }
  }

  lemma ScriptExtends(s: Socket, t: ScriptStep)
    requires SocketOk(s) && ScriptEnabled(s, t)
    ensures Extends(s, ScriptEffect(s, t).0)
  {
    if IsCall(t) { CallExtends(s, t); }
    else if IsConnect(t) { ConnectExtends(s, t); }
    else if IsQueue(t) { QueueExtends(s, t); }
    else if IsPump(t) { PumpExtends(s, t); }
    else { ResumeExtends(s, t); }
  }

  /** What native threads and the task change of a socket does not show. */
  predicate Unseen(s: Socket, z: Socket) {
    && z.log == s.log && z.settled == s.settled && z.turn == s.turn
    && z.readyState == s.readyState && z.openOutcomes == s.openOutcomes
  }

  lemma ThreadUnseen(y: System, t: ThreadStep)
    requires ThreadEnabled(y, t)
    ensures Unseen(y.js, ThreadApply(y, t).js)
  {}

  lemma TaskUnseen(y: System, t: TaskStep)
    requires TaskEnabled(y, t)
    ensures Unseen(y.js, TaskApply(y, t).js)
  {}

  lemma UnseenExtends(s: Socket, z: Socket)
    requires Unseen(s, z)
    ensures Extends(s, z)
  {}

  lemma StepExtends(y: System, t: Step)
    requires Safe(y) && Enabled(y, t)
    ensures Extends(y.js, Apply(y, t).js)
  {
    match t
    case Script(t) => ScriptExtends(y.js, t);
    case Thread(t) => ThreadUnseen(y, t); UnseenExtends(y.js, ThreadApply(y, t).js);
    case Task(t) => TaskUnseen(y, t); UnseenExtends(y.js, TaskApply(y, t).js);
  }

  lemma {:induction false} RunKeepsTrace(y: System, steps: seq<Step>)
    requires Safe(y) && TraceOk(y.js) && ValidRun(y, steps)
    ensures TraceOk(Run(y, steps).js)
    decreases |steps|
  {
    if steps == [] {
    } else {
      StepExtends(y, steps[0]);
      ExtendsKeepsTrace(y.js, Apply(y, steps[0]).js);
      StepKeepsSafe(y, steps[0]);
      RunKeepsTrace(Apply(y, steps[0]), steps[1..]);
    }
  }

  lemma ReachableTrace(z: System)
    requires Reachable(z)
    ensures Safe(z) && TraceOk(z.js)
  {
    var y: System, steps: seq<Step> :| Initial(y) && ValidRun(y, steps) && Run(y, steps) == z;
    SafeInitially(y);
    RunKeepsTrace(y, steps);
    ReachableIsSafe(z);
  }

  // ----- the same language, without an automaton -----

  /** The dispatched events, without the `close()` calls. */
  function Events(log: seq<Entry>): seq<Entry> {
    if log == [] then []
    else if log[|log| - 1].CloseCall? then Events(log[..|log| - 1])
    else Events(log[..|log| - 1]) + [log[|log| - 1]]
  }

  predicate MessageOrError(e: Entry) { e.MessageEvent? || e.ErrorEvent? }

  /** A prefix of `error close`. */
  ghost predicate NeverOpened(v: seq<Entry>) {
    v == [] || (v[0].ErrorEvent? && (|v| == 1 || (|v| == 2 && v[1].CloseEvent?)))
  }

  /** `open (message|error)*`, then `close error*` from position k on. */
  ghost predicate OpenedTrace(v: seq<Entry>, k: nat) {
    && 1 <= k <= |v| && v[0].OpenEvent?
    && (forall i :: 0 < i < k ==> MessageOrError(v[i]))
    && (k < |v| ==> v[k].CloseEvent?)
    && (forall i :: k < i < |v| ==> v[i].ErrorEvent?)
  }

  ghost predicate Shape(t: Trace, v: seq<Entry>) {
    match t
    case Start => v == []
    case Cancelled => v == []
    case Failing => |v| == 1 && v[0].ErrorEvent?
    case Never => |v| == 2 && v[0].ErrorEvent? && v[1].CloseEvent?
    case Live => OpenedTrace(v, |v|)
    case Leaving => OpenedTrace(v, |v|)
    case Over => exists k: nat :: k < |v| && OpenedTrace(v, k)
    case Bad => true
  }

  lemma {:induction false} ClassifiedShape(log: seq<Entry>)
    ensures Shape(Classify(log), Events(log))
    decreases |log|
  {
    if log == [] {
    } else {
      var init, e := log[..|log| - 1], log[|log| - 1];
      ClassifiedShape(init);
      var v := Events(init);
      if Classify(init).Over? && e.ErrorEvent? {
        var k: nat :| k < |v| && OpenedTrace(v, k);
        assert OpenedTrace(v + [e], k);
      }
      if (Classify(init).Live? || Classify(init).Leaving?) && e.CloseEvent? {
        assert OpenedTrace(v + [e], |v|);
      }
    }
  }

  lemma {:induction false} ClassifiedCloseCalls(log: seq<Entry>)
    requires !Classify(log).Bad?
    ensures forall i, j :: 0 <= i < j < |log| && log[i].CloseCall? ==> !log[j].MessageEvent? && !log[j].OpenEvent?
    ensures Classify(log).Start? || Classify(log).Live? ==> forall i :: 0 <= i < |log| ==> !log[i].CloseCall?
    decreases |log|
  {
    if log == [] {
    } else {
      var init, last := log[..|log| - 1], log[|log| - 1];
      ClassifiedCloseCalls(init);
      assert log == init + [last];
      forall i, j | 0 <= i < j < |log| && log[i].CloseCall? ensures !log[j].MessageEvent? && !log[j].OpenEvent? {
        assert log[i] == init[i];
        if j < |init| { assert log[j] == init[j]; }
      }
      assert forall i :: 0 <= i < |init| ==> log[i] == init[i];
    }
  }

  /** Every reachable trace: a socket that never opened dispatched a prefix of `error close`;
      one that opened dispatched `open (message|error)*` and then, once closed, `close error*`. */
  lemma EventTraceLanguage(z: System)
    requires Reachable(z)
    ensures !Opened(z.js) ==> NeverOpened(Events(z.js.log)) && (z.js.settled <==> |Events(z.js.log)| == 2)
    ensures Opened(z.js) && !z.js.settled ==> OpenedTrace(Events(z.js.log), |Events(z.js.log)|)
    ensures Opened(z.js) && z.js.settled ==>
              exists k: nat :: k < |Events(z.js.log)| && OpenedTrace(Events(z.js.log), k)
  {
    ReachableTrace(z);
    ClassifiedShape(z.js.log);
  }

  /** Nothing is delivered, and the socket does not open, after a valid `close()` call. */
  lemma NothingDeliveredAfterCloseCall(z: System, i: nat, j: nat)
    requires Reachable(z) && i < j < |z.js.log| && z.js.log[i].CloseCall?
    ensures !z.js.log[j].MessageEvent? && !z.js.log[j].OpenEvent?
  {
    ReachableTrace(z);
    ClassifiedCloseCalls(z.js.log);
  }

  /** `opened` settles at most once, exactly once by the time the socket is closed, and
      resolves exactly for the sockets that dispatched `open`. */
  lemma OpenedSettlesOnce(z: System)
    requires Reachable(z)
    ensures |z.js.openOutcomes| <= 1
    ensures z.js.readyState >= CLOSING ==> |z.js.openOutcomes| == 1
    ensures z.js.openOutcomes == [true] <==> Events(z.js.log) != [] && Events(z.js.log)[0].OpenEvent?
    ensures z.js.readyState == OPEN ==> z.js.openOutcomes == [true]
  {
    ReachableTrace(z);
    ClassifiedShape(z.js.log);
  }

  // ----- incoming messages -----

  function Payloads(rs: seq<ReadResult>): seq<Message> {
    if rs == [] then []
    else if rs[|rs| - 1].Received? then Payloads(rs[..|rs| - 1]) + [rs[|rs| - 1].message]
    else Payloads(rs[..|rs| - 1])
  }

  function Dispatched(log: seq<Entry>): seq<Message> {
    if log == [] then []
    else if log[|log| - 1].MessageEvent? then Dispatched(log[..|log| - 1]) + [log[|log| - 1].message]
    else Dispatched(log[..|log| - 1])
  }

  lemma PayloadsAppend(rs: seq<ReadResult>, r: ReadResult)
    ensures Payloads(rs + [r]) == if r.Received? then Payloads(rs) + [r.message] else Payloads(rs)
  {
    assert (rs + [r])[..|rs|] == rs;
  }

  lemma DispatchedAppend(log: seq<Entry>, e: Entry)
    ensures Dispatched(log + [e]) == if e.MessageEvent? then Dispatched(log) + [e.message] else Dispatched(log)
  {
    assert (log + [e])[..|log|] == log;
  }

  /** The outcomes the pump has taken from the event channel. */
  function Taken(c: Connection): seq<ReadResult>
    requires |c.events| <= |c.queued|
  {
    c.queued[..|c.queued| - |c.events|]
  }

  function InFlight(read: Read): seq<Message> {
    if read.ReadDone? && read.result.Received? then [read.result.message] else []
  }

  /** The event channel: what is queued, what is still waiting, what has arrived. */
  ghost predicate ChannelOk(c: Connection) {
    && |c.events| <= |c.queued| && c.queued == Taken(c) + c.events
    && Payloads(c.queued) <= c.received
    && (c.task.Running? ==> Payloads(c.queued) == c.received)
    && (forall i :: 0 <= i < |c.queued| - 1 ==> c.queued[i].Received?)
    && (!c.task.Exited? ==> forall i :: 0 <= i < |c.queued| ==> c.queued[i].Received?)
  }

  ghost predicate IncomingOk(y: System) {
    if y.conn.None? then Dispatched(y.js.log) == []
    else
      var c := y.conn.value;
      && ChannelOk(c)
      && Dispatched(y.js.log) <= Payloads(Taken(c))
      && (!Opened(y.js) ==> Dispatched(y.js.log) == [] && Taken(c) == [])
      && (y.js.readyState == OPEN ==> Payloads(Taken(c)) == Dispatched(y.js.log) + InFlight(y.js.read))
  }

  /** No message event, and the message in flight stays; or it becomes the newest event. */
  ghost predicate Delivers(s: Socket, s': Socket) {
    && (Opened(s) ==> Opened(s'))
    && (s'.readyState == OPEN ==> s.readyState == OPEN || (!Opened(s) && InFlight(s'.read) == []))
    && (if s'.log != [] && s'.log != s.log && s'.log[|s'.log| - 1].MessageEvent?
        then Extends(s, s') && s.readyState == OPEN && InFlight(s'.read) == [] &&
             InFlight(s.read) == [s'.log[|s'.log| - 1].message]
        else s'.readyState == OPEN && s.readyState == OPEN ==> InFlight(s'.read) == InFlight(s.read))
  }

  lemma CallDelivers(s: Socket, t: ScriptStep)
    requires SocketOk(s) && ScriptEnabled(s, t) && IsCall(t)
    ensures Delivers(s, ScriptEffect(s, t).0)
  {}

  lemma ConnectDelivers(s: Socket, t: ScriptStep)
    requires SocketOk(s) && ScriptEnabled(s, t) && IsConnect(t)
    ensures Delivers(s, ScriptEffect(s, t).0)
  {}

  lemma QueueDelivers(s: Socket, t: ScriptStep)
    requires SocketOk(s) && ScriptEnabled(s, t) && IsQueue(t)
    ensures Delivers(s, ScriptEffect(s, t).0)
  {}

  lemma PumpDelivers(s: Socket, t: ScriptStep)
    requires SocketOk(s) && ScriptEnabled(s, t) && IsPump(t)
    ensures Delivers(s, ScriptEffect(s, t).0)
  {
    PumpExtends(s, t);
  }

  lemma ResumeDelivers(s: Socket, t: ScriptStep)
    requires SocketOk(s) && ScriptEnabled(s, t) && IsResume(t)
    ensures Delivers(s, ScriptEffect(s, t).0)
  {}

  lemma ScriptDelivers(s: Socket, t: ScriptStep)
    requires SocketOk(s) && ScriptEnabled(s, t)
    ensures Delivers(s, ScriptEffect(s, t).0)
  {
    if IsCall(t) { CallDelivers(s, t); }
    else if IsConnect(t) { ConnectDelivers(s, t); }
    else if IsQueue(t) { QueueDelivers(s, t); }
    else if IsPump(t) { PumpDelivers(s, t); }
    else { ResumeDelivers(s, t); }
  }

  /** `IncomingOk` looks at four things only. */
  lemma DeliveryKeepsIncoming(y: System, z: System)
    requires IncomingOk(y) && y.conn == z.conn && Delivers(y.js, z.js) && Extends(y.js, z.js)
    requires y.conn.None? ==> InFlight(y.js.read) == []
    requires y.js.readyState == OPEN ==> y.conn.Some?
    ensures IncomingOk(z)
  {
    var s, s' := y.js, z.js;
    if s'.log != s.log {
      DispatchedAppend(s.log, s'.log[|s'.log| - 1]);
    }
    assert Dispatched(s.log) + [] == Dispatched(s.log);
  }

  lemma ScriptKeepsIncoming(y: System, t: ScriptStep)
    requires Safe(y) && ScriptEnabled(y.js, t) && IncomingOk(y)
    ensures IncomingOk(ScriptApply(y, t))
  {
    ScriptExtends(y.js, t);
    ScriptDelivers(y.js, t);
    DeliveryKeepsIncoming(y, ScriptApply(y, t));
  }

  lemma QueueKeepsChannel(c: Connection, r: ReadResult, task: TaskState, m: seq<Message>)
    requires ChannelOk(c)
    requires if r.Received? then c.task.Running? && task.Running? && m == c.received + [r.message]
             else !c.task.Exited? && task.Exited? && m == c.received
    ensures ChannelOk(Queue(c, r).(task := task, received := m))
    ensures Taken(Queue(c, r).(task := task, received := m)) == Taken(c)
  {
    hide Payloads;
    PayloadsAppend(c.queued, r);
    assert (c.queued + [r])[|c.queued| - |c.events|..] == c.events + [r];
  }

  lemma ReceiveKeepsChannel(c: Connection, incoming: Incoming, alive: bool)
    requires ChannelOk(c) && c.task.Running?
    ensures ChannelOk(TaskReceive(c, incoming, alive)) && Taken(TaskReceive(c, incoming, alive)) == Taken(c)
  {
    match incoming
    case Data(m) => if alive { QueueKeepsChannel(c, Received(m), Running, c.received + [m]); }
    case PeerClose(status) =>
      var r := if status.Some? then PeerClosed(status.value.0, status.value.1, true) else PeerClosed(1005, "", true);
      QueueKeepsChannel(c, r, Exited, c.received);
    case Broken => QueueKeepsChannel(c, LOST, Exited, c.received);
    case Control =>
  }

  lemma WriteKeepsChannel(c: Connection, c': Connection)
    requires ChannelOk(c) && c.task.Running?
    requires c'.events == c.events && c'.queued == c.queued && c'.received == c.received
    ensures ChannelOk(c') && Taken(c') == Taken(c)
  {}

  /** A task step leaves what the reader has taken, and the socket up to the phase of its queue. */
  lemma TaskKeepsChannel(y: System, t: TaskStep)
    requires TaskEnabled(y, t) && ChannelOk(y.conn.value)
    ensures var z := TaskApply(y, t);
      z.conn.Some? && ChannelOk(z.conn.value) && Taken(z.conn.value) == Taken(y.conn.value) &&
      z.js == y.js.(phase := z.js.phase)
  {
    hide ChannelOk, Taken, Payloads;
    var c := y.conn.value;
    match t
    case TaskFail => QueueKeepsChannel(c, LOST, Exited, c.received);
    case DoTaskReceive(incoming) => ReceiveKeepsChannel(c, incoming, Alive(y));
    case TaskWrite(ok) => WriteKeepsChannel(c, TaskApply(y, t).conn.value);
    case TaskDrained => WriteKeepsChannel(c, TaskApply(y, t).conn.value);
  }

  lemma TaskKeepsIncoming(y: System, t: TaskStep)
    requires TaskEnabled(y, t) && IncomingOk(y)
    ensures IncomingOk(TaskApply(y, t))
  {
    TaskKeepsChannel(y, t);
  }

  lemma TakeKeepsChannel(c: Connection)
    requires ChannelOk(c) && c.events != []
    ensures var c' := c.(events := c.events[1..]);
      ChannelOk(c') && Payloads(Taken(c')) == Payloads(Taken(c)) + InFlight(ReadDone(c.events[0]))
  {
    hide Payloads;
    var c' := c.(events := c.events[1..]);
    assert Taken(c') == Taken(c) + [c.events[0]];
    PayloadsAppend(Taken(c), c.events[0]);
  }

  lemma PrefixGrows<T>(a: seq<T>, b: seq<T>, x: seq<T>)
    requires a <= b
    ensures a <= b + x && (b == a + [] ==> b + x == a + x)
  {}

  lemma TakeKeepsIncoming(y: System)
    requires Safe(y) && ThreadEnabled(y, ReadTake) && IncomingOk(y)
    ensures IncomingOk(ThreadApply(y, ReadTake))
  {
    var c, z := y.conn.value, ThreadApply(y, ReadTake);
    if c.events != [] {
      TakeKeepsChannel(c);
      PrefixGrows(Dispatched(y.js.log), Payloads(Taken(c)), InFlight(ReadDone(c.events[0])));
      assert InFlight(z.js.read) == InFlight(ReadDone(c.events[0]));
    }
  }

  lemma ThreadKeepsIncoming(y: System, t: ThreadStep)
    requires Safe(y) && ThreadEnabled(y, t) && IncomingOk(y)
    ensures IncomingOk(ThreadApply(y, t))
  {
    if t.ReadTake? { TakeKeepsIncoming(y); }
  }

  lemma StepKeepsIncoming(y: System, t: Step)
    requires Safe(y) && Enabled(y, t) && IncomingOk(y)
    ensures IncomingOk(Apply(y, t))
  {
    match t
    case Script(t) => ScriptKeepsIncoming(y, t);
    case Thread(t) => ThreadKeepsIncoming(y, t);
    case Task(t) => TaskKeepsIncoming(y, t);
  }

  lemma {:induction false} RunKeepsIncoming(y: System, steps: seq<Step>)
    requires Safe(y) && IncomingOk(y) && ValidRun(y, steps)
    ensures IncomingOk(Run(y, steps))
    decreases |steps|
  {
    if steps == [] {
    } else {
      StepKeepsIncoming(y, steps[0]);
      StepKeepsSafe(y, steps[0]);
      RunKeepsIncoming(Apply(y, steps[0]), steps[1..]);
    }
  }

  lemma {:induction false} PayloadsOfPrefix(rs: seq<ReadResult>, n: nat)
    requires n <= |rs|
    ensures Payloads(rs[..n]) <= Payloads(rs)
    decreases |rs|
  {
    if n == |rs| {
      assert rs[..n] == rs;
    } else {
      PayloadsOfPrefix(rs[..|rs| - 1], n);
      assert rs[..|rs| - 1][..n] == rs[..n];
    }
  }

  lemma RunIncoming(y: System, steps: seq<Step>)
    requires Initial(y) && ValidRun(y, steps)
    ensures Safe(Run(y, steps)) && IncomingOk(Run(y, steps))
    ensures ReceivedOf(Run(y, steps)) == Arrivals(steps) && QueuedOf(Run(y, steps)) == Outcomes(y, steps)
  {
    SafeInitially(y);
    RunIsSafe(y, steps);
    RunKeepsIncoming(y, steps);
    ReceivedAreArrivals(y, steps);
    QueuedAreOutcomes(y, steps);
  }

  /** The message events are a prefix, in order, of the frames that arrived; the reader is told at most
      one close, and nothing after it. */
  lemma IncomingOrder(y: System, steps: seq<Step>)
    requires Initial(y) && ValidRun(y, steps)
    ensures Dispatched(Shown(y, steps)) <= Arrivals(steps)
    ensures forall i :: 0 <= i < |Outcomes(y, steps)| - 1 ==> Outcomes(y, steps)[i].Received?
  {
    var z := Run(y, steps);
    RunIncoming(y, steps);
    ObservedIsShown(y, steps);
    if z.conn.Some? { PayloadsOfPrefix(z.conn.value.queued, |z.conn.value.queued| - |z.conn.value.events|); }
  }

  /** While the socket is open nothing is lost on the way from the wire to the listeners: what was
      dispatched, what is in flight and what waits are together the frames that arrived. */
  lemma OpenSocketLosesNothing(y: System, steps: seq<Step>)
    requires Initial(y) && ValidRun(y, steps) && ReadyStateOf(Shown(y, steps)) == OPEN
    requires Run(y, steps).conn.Some? && Run(y, steps).conn.value.task.Running?
    ensures var z := Run(y, steps);
            Dispatched(Shown(y, steps)) + InFlight(z.js.read) + Payloads(z.conn.value.events) == Arrivals(steps)
  {
    var z := Run(y, steps);
    RunIncoming(y, steps);
    ObservedIsShown(y, steps);
    PayloadsConcat(Taken(z.conn.value), z.conn.value.events);
  }

  lemma {:induction false} PayloadsConcat(a: seq<ReadResult>, b: seq<ReadResult>)
    ensures Payloads(a + b) == Payloads(a) + Payloads(b)
    decreases |b|
  {
    if b == [] {
      assert a + b == a;
    } else {
      var b0, r := b[..|b| - 1], b[|b| - 1];
      PayloadsConcat(a, b0);
      PayloadsAppend(a + b0, r);
      PayloadsAppend(b0, r);
      Chained(a, b0, a + b0, [r], a + b0 + [r]);
      assert b0 + [r] == b;
      if r.Received? { Chained(Payloads(a), Payloads(b0), Payloads(a + b0), [r.message], Payloads(a + b0) + [r.message]); }
    }
  }

  // ----- why a socket closed -----

  /** The close event of a failure, or one that repeats an outcome of the reader. */
  predicate Told(e: Entry, outcomes: seq<ReadResult>)
    requires e.CloseEvent?
  {
    e == CloseEvent(1006, "", false) || PeerClosed(e.code, e.reason, e.wasClean) in outcomes
  }

  ghost predicate AllTold(log: seq<Entry>, outcomes: seq<ReadResult>) {
    forall i :: 0 <= i < |log| && log[i].CloseEvent? ==> Told(log[i], outcomes)
  }

  /** What the outstanding read holds came from the event channel. */
  predicate HoldsOutcome(read: Read, outcomes: seq<ReadResult>) {
    (read.ReadTaken? || read.ReadDone?) && read.result.PeerClosed? ==> read.result in outcomes
  }

  ghost predicate ClosesOk(y: System) { AllTold(y.js.log, QueuedOf(y)) && HoldsOutcome(y.js.read, QueuedOf(y)) }

  predicate OnlyIssues(s: Socket, z: Socket) { z.read == s.read || z.read.NoRead? || z.read.ReadIssued? }

  lemma CallIssuesNothing(s: Socket, t: ScriptStep)
    requires ScriptEnabled(s, t) && IsCall(t)
    ensures ScriptEffect(s, t).0.read == s.read
  {}

  lemma QueueIssuesNothing(s: Socket, t: ScriptStep)
    requires ScriptEnabled(s, t) && IsQueue(t)
    ensures ScriptEffect(s, t).0.read == s.read
  {}

  lemma ConnectIssuesNothing(s: Socket, t: ScriptStep)
    requires ScriptEnabled(s, t) && IsConnect(t)
    ensures ScriptEffect(s, t).0.read == s.read
  {}

  lemma CloseIssuesNothing(s: Socket, code: nat, reason: string, wasClean: bool)
    ensures FinalizeClose(s, code, reason, wasClean).read == s.read
  {}

  lemma ResumeOnlyIssues(s: Socket)
    ensures OnlyIssues(s, Resume(s).0)
  {
    hide FinalizeClose;
    CloseIssuesNothing(s, 1006, "", false);
    CloseIssuesNothing(s.(handle := None), 1006, "", false);
  }

  lemma PumpOnlyIssues(s: Socket, t: ScriptStep)
    requires ScriptEnabled(s, t) && IsPump(t)
    ensures OnlyIssues(s, ScriptEffect(s, t).0)
  {}

  lemma ScriptOnlyIssues(s: Socket, t: ScriptStep)
    requires ScriptEnabled(s, t)
    ensures OnlyIssues(s, ScriptEffect(s, t).0)
  {
    if IsPump(t) { PumpOnlyIssues(s, t); }
    else if IsResume(t) { ResumeOnlyIssues(s); }
    else if IsCall(t) { CallIssuesNothing(s, t); }
    else if IsQueue(t) { QueueIssuesNothing(s, t); }
    else { ConnectIssuesNothing(s, t); }
  }

  lemma ShownIsTold(s: Socket, t: ScriptStep, outcomes: seq<ReadResult>)
    requires SocketOk(s) && ScriptEnabled(s, t) && HoldsOutcome(s.read, outcomes)
    ensures AllTold(ShownBy(s, t), outcomes)
  {}

  lemma ToldGrows(log: seq<Entry>, shown: seq<Entry>, outcomes: seq<ReadResult>, more: seq<ReadResult>)
    requires AllTold(log, outcomes) && AllTold(shown, outcomes)
    ensures AllTold(log + shown, outcomes + more)
  {}

  lemma ScriptKeepsCloses(y: System, t: ScriptStep)
    requires Safe(y) && ScriptEnabled(y.js, t) && ClosesOk(y)
    ensures ClosesOk(ScriptApply(y, t))
  {
    ScriptShows(y.js, t);
    ShownIsTold(y.js, t, QueuedOf(y));
    ToldGrows(y.js.log, ShownBy(y.js, t), QueuedOf(y), []);
    assert QueuedOf(y) + [] == QueuedOf(y);
    ScriptOnlyIssues(y.js, t);
    assert QueuedOf(ScriptApply(y, t)) == QueuedOf(y);
  }

  lemma FirstWaitingWasQueued(c: Connection)
    requires ChannelOk(c) && c.events != []
    ensures c.events[0] in c.queued
  {
    assert c.queued[|Taken(c)|] == c.events[0];
  }

  lemma TakeKeepsHeld(y: System)
    requires Safe(y) && ThreadEnabled(y, ReadTake) && IncomingOk(y)
    ensures HoldsOutcome(ThreadApply(y, ReadTake).js.read, QueuedOf(y))
  {
    if y.conn.value.events != [] { FirstWaitingWasQueued(y.conn.value); }
  }

  lemma OtherThreadKeepsHeld(y: System, t: ThreadStep)
    requires ThreadEnabled(y, t) && !t.ReadTake? && HoldsOutcome(y.js.read, QueuedOf(y))
    ensures HoldsOutcome(ThreadApply(y, t).js.read, QueuedOf(y))
  {}

  lemma ThreadKeepsHeld(y: System, t: ThreadStep)
    requires Safe(y) && ThreadEnabled(y, t) && IncomingOk(y) && HoldsOutcome(y.js.read, QueuedOf(y))
    ensures HoldsOutcome(ThreadApply(y, t).js.read, QueuedOf(y))
  {
    if t.ReadTake? { TakeKeepsHeld(y); } else { OtherThreadKeepsHeld(y, t); }
  }

  lemma NativeKeepsCloses(y: System, t: Step)
    requires Safe(y) && Enabled(y, t) && !t.Script? && IncomingOk(y) && ClosesOk(y)
    ensures ClosesOk(Apply(y, t))
  {
    StepShows(y, t);
    StepQueues(y, t);
    ToldGrows(y.js.log, [], QueuedOf(y), OutcomeBy(y, t));
    assert y.js.log + [] == y.js.log;
    if t.Thread? { ThreadKeepsHeld(y, t.thread); }
  }

  lemma {:induction false} RunKeepsCloses(y: System, steps: seq<Step>)
    requires Safe(y) && IncomingOk(y) && ClosesOk(y) && ValidRun(y, steps)
    ensures ClosesOk(Run(y, steps))
    decreases |steps|
  {
    if steps == [] {
    } else {
      if steps[0].Script? { ScriptKeepsCloses(y, steps[0].script); } else { NativeKeepsCloses(y, steps[0]); }
      StepKeepsIncoming(y, steps[0]);
      StepKeepsSafe(y, steps[0]);
      RunKeepsCloses(Apply(y, steps[0]), steps[1..]);
    }
  }

  /** A close event reports a failure, as code 1006 and not clean, or just what the task told the
      reader; so a clean one has the code and the reason of a close frame of the peer. */
  lemma CloseEventTellsWhy(y: System, steps: seq<Step>, i: nat)
    requires Initial(y) && ValidRun(y, steps) && i < |Shown(y, steps)| && Shown(y, steps)[i].CloseEvent?
    ensures var e := Shown(y, steps)[i];
            || e == CloseEvent(1006, "", false)
            || (e.wasClean && Task(DoTaskReceive(PeerClose(Some((e.code, e.reason))))) in steps)
            || (e == CloseEvent(1005, "", true) && Task(DoTaskReceive(PeerClose(None))) in steps)
  {
    SafeInitially(y);
    RunKeepsCloses(y, steps);
    RunIncoming(y, steps);
    ObservedIsShown(y, steps);
    var e := Shown(y, steps)[i];
    assert Told(e, Outcomes(y, steps));
    if e != CloseEvent(1006, "", false) { OutcomeHasStep(y, steps, PeerClosed(e.code, e.reason, e.wasClean)); }
  }

  lemma {:induction false} OutcomeHasStep(y: System, steps: seq<Step>, r: ReadResult)
    requires ValidRun(y, steps) && r.PeerClosed? && r in Outcomes(y, steps)
    ensures r == PeerClosed(1006, "", false) || r.wasClean
    ensures r.wasClean ==>
              || Task(DoTaskReceive(PeerClose(Some((r.code, r.reason))))) in steps
              || (r.code == 1005 && r.reason == "" && Task(DoTaskReceive(PeerClose(None))) in steps)
    decreases |steps|
  {
    if steps == [] {
    } else if r in OutcomeBy(y, steps[0]) {
      assert steps[0] in steps;
    } else {
      OutcomeHasStep(Apply(y, steps[0]), steps[1..], r);
    }
  }

  // ----- the pump goes on -----

  /** An open or closing socket always has a read outstanding, or a method that will issue the next. */
  predicate Pumping(s: Socket) {
    Opened(s) && !s.settled && s.read.NoRead? ==>
      s.turn.OpenDispatched? || s.turn.MessageDispatched? || s.turn == ErrorDispatched(FromPump)
  }

  lemma CallKeepsPumping(s: Socket, t: ScriptStep)
    requires SocketOk(s) && ScriptEnabled(s, t) && (IsCall(t) || IsQueue(t)) && Pumping(s)
    ensures Pumping(ScriptEffect(s, t).0)
  {}

  lemma ConnectKeepsPumping(s: Socket, t: ScriptStep)
    requires SocketOk(s) && ScriptEnabled(s, t) && IsConnect(t) && Pumping(s)
    ensures Pumping(ScriptEffect(s, t).0)
  {}

  lemma PumpKeepsPumping(s: Socket, t: ScriptStep)
    requires SocketOk(s) && ScriptEnabled(s, t) && (IsPump(t) || IsResume(t)) && Pumping(s)
    ensures Pumping(ScriptEffect(s, t).0)
  {}

  lemma StepKeepsPumping(y: System, t: Step)
    requires Safe(y) && Enabled(y, t) && Pumping(y.js)
    ensures Pumping(Apply(y, t).js)
  {
    if t.Script? {
      if IsCall(t.script) || IsQueue(t.script) { CallKeepsPumping(y.js, t.script); }
      else if IsConnect(t.script) { ConnectKeepsPumping(y.js, t.script); }
      else { PumpKeepsPumping(y.js, t.script); }
    }
  }

  lemma {:induction false} RunKeepsPumping(y: System, steps: seq<Step>)
    requires Safe(y) && ValidRun(y, steps) && Pumping(y.js)
    ensures Pumping(Run(y, steps).js)
    decreases |steps|
  {
    if steps == [] {
    } else {
      StepKeepsPumping(y, steps[0]);
      StepKeepsSafe(y, steps[0]);
      RunKeepsPumping(Apply(y, steps[0]), steps[1..]);
    }
  }

  /** The reader can get at the first waiting outcome: no method is suspended, nothing was taken yet,
      and the native read has the connection or can find it. */
  ghost predicate CanTake(z: System) {
    && Opened(z.js) && !z.js.settled && z.js.turn.Idle? && z.conn.Some? && z.conn.value.events != []
    && (z.js.read.ReadHolding? || (z.js.read.ReadIssued? && z.conn.value.handle in z.store))
  }

  /** What listeners are shown for the outcome. */
  function EntryFor(r: ReadResult, readyState: nat): seq<Entry> {
    match r
    case Received(m) => if readyState == OPEN then [MessageEvent(m)] else []
    case PeerClosed(code, reason, wasClean) => [CloseEvent(code, reason, wasClean)]
    case ReadFailed => [ErrorEvent]
  }

  lemma LookupHolds(z: System) returns (held: System, steps: seq<Step>)
    requires Safe(z) && CanTake(z)
    ensures ValidRun(z, steps) && Run(z, steps) == held && |steps| <= 1
    ensures held == z.(js := z.js.(read := ReadHolding(z.conn.value.handle)))
  {
    if z.js.read.ReadHolding? {
      held, steps := z, [];
    } else {
      held := Apply(z, Thread(ReadLookup));
      assert ValidRun(held, []);
      RunSplits(z, Thread(ReadLookup), []);
      steps := [Thread(ReadLookup)] + [];
    }
  }

  lemma TakeDelivers(z: System, held: System, h: nat) returns (steps: seq<Step>)
    requires held == z.(js := z.js.(read := ReadHolding(h))) && z.conn.Some? && z.conn.value.events != []
    ensures |steps| <= 2 && ValidRun(held, steps)
    ensures var w := Run(held, steps);
            w.js == z.js.(read := ReadDone(z.conn.value.events[0])) && w.conn == Some(z.conn.value.(events := z.conn.value.events[1..]))
  {
    var taken := Apply(held, Thread(ReadTake));
    if z.conn.value.events[0].Received? {
      assert ValidRun(taken, []);
      RunSplits(held, Thread(ReadTake), []);
      steps := [Thread(ReadTake)] + [];
    } else {
      var done := Apply(taken, Thread(ReadRemove));
      assert ValidRun(done, []);
      RunSplits(taken, Thread(ReadRemove), []);
      RunSplits(held, Thread(ReadTake), [Thread(ReadRemove)] + []);
      steps := [Thread(ReadTake)] + ([Thread(ReadRemove)] + []);
    }
  }

  lemma SettledShows(w: System, r: ReadResult)
    requires SocketOk(w.js) && w.js.turn.Idle? && w.js.read == ReadDone(r) && !w.js.settled
    ensures Enabled(w, Script(DoReadSettled)) && Apply(w, Script(DoReadSettled)).js.log == w.js.log + EntryFor(r, w.js.readyState)
  {
    ScriptShows(w.js, DoReadSettled);
  }

  /** What waits in the event channel can reach the listeners: some continuation dispatches the first
      waiting outcome, as a message while the socket is open, or as the close event. */
  lemma NextOutcomeGetsThrough(z: System) returns (steps: seq<Step>)
    requires Reachable(z) && CanTake(z)
    ensures ValidRun(z, steps) && |steps| <= 4
    ensures Run(z, steps).js.log == z.js.log + EntryFor(z.conn.value.events[0], z.js.readyState)
  {
    ReachableIsSafe(z);
    var held, lookup := LookupHolds(z);
    var take := TakeDelivers(z, held, z.conn.value.handle);
    RunsJoin(z, lookup, take);
    var w := Run(held, take);
    RunIsSafe(z, lookup + take);
    SettledShows(w, z.conn.value.events[0]);
    var last := Apply(w, Script(DoReadSettled));
    assert ValidRun(last, []);
    RunSplits(w, Script(DoReadSettled), []);
    RunsJoin(z, lookup + take, [Script(DoReadSettled)] + []);
    steps := lookup + take + ([Script(DoReadSettled)] + []);
  }

  /** On an open or closing socket on which no method is suspended a read is always outstanding. */
  lemma PumpNeverStops(y: System, steps: seq<Step>)
    requires Initial(y) && ValidRun(y, steps)
    requires var s := Run(y, steps).js; Opened(s) && s.readyState != CLOSED && s.turn.Idle?
    ensures !Run(y, steps).js.read.NoRead?
  {
    SafeInitially(y);
    RunIsSafe(y, steps);
    RunKeepsPumping(y, steps);
  }
}
