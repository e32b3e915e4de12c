/** The WebSocket protocol as one transition system: the script-side socket of
    src/websocket/index.ts, the handle store of rust/src/store/websocket_store.rs
    and the connection task of rust/src/transport/websocket.rs.

    Script code is single threaded, but `dispatchEvent` runs user handlers in the
    middle of a method.  `Turn` records what a method still has to do after the
    handlers return; while it is not `Idle` only handler calls (`send`, `close`)
    and native steps can happen before `Resume`. Native threads may step at any time. */
module WebSocketModel {
  import opened Basics

  const CONNECTING: nat := 0
  const OPEN: nat := 1
  const CLOSING: nat := 2
  const CLOSED: nat := 3

  datatype Payload = Text(text: string) | Binary(bytes: Bytes) | BlobData(bytes: Bytes)

  datatype Frame =
    | TextFrame(text: string)
    | BinaryFrame(bytes: Bytes)
    | CloseFrame(status: Option<(nat, string)>)

  datatype Message = TextMessage(text: string) | BinaryMessage(bytes: Bytes)

  datatype ReadResult =
    | Received(message: Message)
    | PeerClosed(code: nat, reason: string, wasClean: bool)
    | ReadFailed

  /** One link of the `#sendQueue` promise chain. */
  datatype Job =
    | SendJob(handle: nat, payload: Payload, size: nat)
    | CloseJob(handle: nat, code: Option<nat>, reason: Option<string>)

  /** How far the first job of the chain has come. `Holding` and the two phases
      after it keep the stored connection alive from a native thread. */
  datatype Phase = Waiting | Issued | Holding | InChannel | Acked(ok: bool) | Finished(ok: bool) | Caught

  /** How far the outstanding `nativeWebSocketRead` of the message pump has come. */
  datatype Read =
    | NoRead
    | ReadIssued(handle: nat)
    | ReadHolding(handle: nat)
    | ReadTaken(handle: nat, result: ReadResult)
    | ReadDone(result: ReadResult)

  datatype Connect = LoadingCookies | Dialing | Yielded(handle: nat) | Refused | ConnectDone

  datatype Origin = FromConnect | FromMicrotask | FromPump | FromSend | FromClose

  datatype Turn = Idle | OpenDispatched | MessageDispatched | ErrorDispatched(origin: Origin) | CloseDispatched

  /** What a listener can observe, plus the `close()` calls, in order. */
  datatype Entry =
    | OpenEvent
    | MessageEvent(message: Message)
    | ErrorEvent
    | CloseEvent(code: nat, reason: string, wasClean: bool)
    | CloseCall

  datatype CloseRequest = CloseRequest(code: Option<nat>, reason: Option<string>)

  /** The private fields of a socket, then the histories the properties speak of. */
  datatype Socket = Socket(
    readyState: nat,
    handle: Option<nat>,
    connectHandle: Option<nat>,
    connect: Connect,
    openSettled: bool,
    bufferedAmount: int,
    jobs: seq<Job>,
    phase: Phase,
    settled: bool,
    closeEnqueued: bool,
    closeRequest: Option<CloseRequest>,
    closeMicrotask: bool,
    read: Read,
    turn: Turn,
    log: seq<Entry>,
    openOutcomes: seq<bool>,
    accepted: seq<Payload>,
    discarded: nat
  )

  const FRESH_SOCKET := Socket(
    CONNECTING, None, None, LoadingCookies, false, 0, [], Waiting, false, false, None, false,
    NoRead, Idle, [], [], [], 0)

  // ----- script side -----

  function ByteLength(p: Payload): nat {
    match p
    case Text(text) => Utf8Length(text)
    case Binary(bytes) => |bytes|
    case BlobData(bytes) => |bytes|
  }

  /** `send`; the exception of a socket that is still connecting changes nothing. */
  function Send(s: Socket, p: Payload): Socket {
    if s.readyState == CONNECTING then s
    else if s.readyState != OPEN || s.handle.None? then
      s.(bufferedAmount := s.bufferedAmount + ByteLength(p), discarded := s.discarded + ByteLength(p))
    else
      s.(bufferedAmount := s.bufferedAmount + ByteLength(p),
         jobs := s.jobs + [SendJob(s.handle.value, p, ByteLength(p))],
         accepted := s.accepted + [p])
  }

  predicate ValidCloseCode(code: Option<nat>) {
    code.Some? ==> code.value == 1000 || 3000 <= code.value <= 4999
  }

  predicate ValidCloseReason(reason: Option<string>) {
    reason.Some? ==> Utf8Length(reason.value) <= 123
  }

  function SettleOpened(s: Socket, ok: bool): Socket {
    if s.openSettled then s else s.(openSettled := true, openOutcomes := s.openOutcomes + [ok])
  }

  function EnqueueClose(s: Socket, handle: nat): Socket {
    if s.closeEnqueued then s
    else
      var request := if s.closeRequest.Some? then s.closeRequest.value else CloseRequest(None, None);
      s.(closeEnqueued := true, jobs := s.jobs + [CloseJob(handle, request.code, request.reason)])
  }

  /** `close`; invalid arguments throw before anything changes. */
  function Close(s: Socket, code: Option<nat>, reason: Option<string>): Socket {
    if !ValidCloseCode(code) || !ValidCloseReason(reason) then s
    else if s.readyState == CLOSING || s.readyState == CLOSED then s.(log := s.log + [CloseCall])
    else
      var normalized := if reason.Some? then reason.value else "";
      var s1 := s.(
        readyState := CLOSING,
        closeRequest := Some(CloseRequest(code, if code.None? && normalized == "" then None else Some(normalized))),
        log := s.log + [CloseCall]);
      if s.readyState == CONNECTING then
        SettleOpened(s1, false).(connectHandle := None, closeMicrotask := true)
      else if s.handle.None? then s1
      else EnqueueClose(s1, s.handle.value)
  }

  /** `#handleError`, up to the handlers of the error event. */
  function HandleError(s: Socket, origin: Origin): Socket {
    var s1 := SettleOpened(s, false);
    s1.(log := s1.log + [ErrorEvent], turn := ErrorDispatched(origin))
  }

  /** `#finalizeClose`, up to the handlers of the close event. */
  function FinalizeClose(s: Socket, code: nat, reason: string, wasClean: bool): Socket {
    if s.settled then s.(turn := Idle)
    else
      var s1 := SettleOpened(s.(settled := true, readyState := CLOSED, handle := None), false);
      s1.(log := s1.log + [CloseEvent(code, reason, wasClean)], turn := CloseDispatched)
  }

  /** The head of the pump loop: issue the next read or stop. */
  function PumpNext(s: Socket): Socket {
    s.(turn := Idle, read := if !s.settled && s.handle.Some? then ReadIssued(s.handle.value) else NoRead)
  }

  /** `#connect` after the cookies are loaded; `ready` tells whether the options were valid. */
  function CookiesLoaded(s: Socket, ready: bool, connectHandle: nat): Socket {
    if s.settled || s.readyState != CONNECTING then s.(connect := ConnectDone)
    else if ready then s.(connect := Dialing, connectHandle := Some(connectHandle))
    else HandleError(s.(connect := ConnectDone), FromConnect)
  }

  /** A cookie jar that throws is caught even after `close()`. */
  function CookiesFailed(s: Socket): Socket {
    if s.settled then s.(connect := ConnectDone)
    else HandleError(s.(connect := ConnectDone), FromConnect)
  }

  /** `#connect` after the native promise resolved. Returns the handles it terminates. */
  function ConnectResolved(s: Socket, protocolExpected: bool): (Socket, set<nat>)
    requires s.connect.Yielded?
  {
    var h := s.connect.handle;
    var s1 := s.(connect := ConnectDone, connectHandle := None);
    if s.settled || s.readyState != CONNECTING then (s1, {h})
    else if !protocolExpected then (HandleError(s1.(handle := Some(h)), FromConnect), {})
    else
      var s2 := SettleOpened(s1.(handle := Some(h), readyState := OPEN), true);
      (s2.(log := s2.log + [OpenEvent], turn := OpenDispatched), {})
  }

  function ConnectRejected(s: Socket): Socket {
    var s1 := s.(connect := ConnectDone, connectHandle := None);
    if s.settled then s1 else HandleError(s1, FromConnect)
  }

  /** The microtask that `close()` queues for a socket that never opened. */
  function RunCloseMicrotask(s: Socket): Socket {
    var s1 := s.(closeMicrotask := false);
    if s.settled then s1 else HandleError(s1, FromMicrotask)
  }

  /** `#pumpMessages` after its read settled. */
  function ReadSettled(s: Socket): Socket
    requires s.read.ReadDone?
  {
    var s1 := s.(read := NoRead);
    match s.read.result
    case PeerClosed(code, reason, wasClean) => FinalizeClose(s1.(handle := None), code, reason, wasClean)
    case Received(m) =>
      if s.readyState == OPEN then s1.(log := s.log + [MessageEvent(m)], turn := MessageDispatched)
      else PumpNext(s1)
    case ReadFailed => HandleError(s1, FromPump)
  }

  /** The `catch` link of the first job; a close job has no `finally` link. */
  function JobCatch(s: Socket): Socket
    requires s.jobs != [] && s.phase.Finished?
  {
    match s.jobs[0]
    case SendJob(_, _, _) => if s.phase.ok then s.(phase := Caught) else HandleError(s.(phase := Caught), FromSend)
    case CloseJob(_, _, _) =>
      var s1 := s.(jobs := s.jobs[1..], phase := Waiting);
      if s.phase.ok then s1 else HandleError(s1, FromClose)
  }

  /** The `finally` link of a send job. */
  function JobFinally(s: Socket): Socket
    requires s.jobs != [] && s.jobs[0].SendJob?
  {
    var left := s.bufferedAmount - s.jobs[0].size;
    s.(jobs := s.jobs[1..], phase := Waiting, bufferedAmount := if left < 0 then 0 else left)
  }

  /** What a method does after the handlers of its event returned. Returns terminated handles. */
  function Resume(s: Socket): (Socket, set<nat>) {
    match s.turn
    case Idle => (s, {})
    case CloseDispatched => (s.(turn := Idle), {})
    case OpenDispatched => (PumpNext(s), {})
    case MessageDispatched => (PumpNext(s), {})
    case ErrorDispatched(FromSend) => (s.(turn := Idle), {})
    case ErrorDispatched(FromConnect) =>
      (FinalizeClose(s.(handle := None), 1006, "", false), if s.handle.Some? then {s.handle.value} else {})
    case ErrorDispatched(FromMicrotask) => (FinalizeClose(s, 1006, "", false), {})
    case ErrorDispatched(_) => (FinalizeClose(s.(handle := None), 1006, "", false), {})
  }

  // ----- native side -----

  /** `Failed` is the moment between a failed write and the queued close outcome. */
  datatype TaskState = Running | Failed | Exited

  /** The connection of this socket: its task, the event channel, and what went over the wire. */
  datatype Connection = Connection(
    handle: nat,
    task: TaskState,
    events: seq<ReadResult>,
    wire: seq<Frame>,
    received: seq<Message>,
    queued: seq<ReadResult>
  )

  datatype Incoming =
    | Data(message: Message)
    | PeerClose(status: Option<(nat, string)>)
    | Control
    | Broken

  /** The socket, the shared handle store and the connection. `written` counts the
      accepted sends that went through before the first failure; `unreadable` holds
      the positions of sends whose blob could not be read. */
  datatype System = System(
    js: Socket,
    store: set<nat>,
    next: nat,
    conn: Option<Connection>,
    written: nat,
    unreadable: set<int>
  )

  function PayloadFrame(p: Payload): Frame {
    match p
    case Text(text) => TextFrame(text)
    case Binary(bytes) => BinaryFrame(bytes)
    case BlobData(bytes) => BinaryFrame(bytes)
  }

  function CommandFrame(job: Job): Frame {
    match job
    case SendJob(_, payload, _) => PayloadFrame(payload)
    case CloseJob(_, code, reason) =>
      var text := if reason.Some? then reason.value else "";
      if code.None? && text == "" then CloseFrame(None)
      else CloseFrame(Some((if code.Some? then code.value else 1000, text)))
  }

  const LOST := PeerClosed(1006, "", false)

  function Queue(c: Connection, r: ReadResult): Connection {
    c.(events := c.events + [r], queued := c.queued + [r])
  }

  /** Some native thread, or the store, still holds the stored connection. */
  predicate Alive(y: System)
    requires y.conn.Some?
  {
    y.conn.value.handle in y.store || HeldByRead(y.js.read) || HeldBySend(y.js)
  }

  predicate HeldByRead(read: Read) { read.ReadHolding? || read.ReadTaken? }

  predicate HeldBySend(s: Socket) { s.jobs != [] && (s.phase.Holding? || s.phase.InChannel? || s.phase.Acked?) }

  /** The receive branch of the task loop. */
  function TaskReceive(c: Connection, incoming: Incoming, alive: bool): Connection {
    match incoming
    case Data(m) =>
      if alive then Queue(c, Received(m)).(received := c.received + [m])
      else c.(task := Exited, received := c.received + [m])
    case PeerClose(status) =>
      var r := if status.Some? then PeerClosed(status.value.0, status.value.1, true) else PeerClosed(1005, "", true);
      Queue(c, r).(task := Exited)
    case Control => c
    case Broken => Queue(c, LOST).(task := Exited)
  }

  /** Sends finished so far; the position of the first send job among the accepted sends. */
  function SendJobs(jobs: seq<Job>): nat {
    if jobs == [] then 0 else (if jobs[0].SendJob? then 1 else 0) + SendJobs(jobs[1..])
  }

  function Position(s: Socket): int { |s.accepted| - SendJobs(s.jobs) }

  // ----- steps -----

  /** What script code can do: calls at any time, continuations when no method is suspended. */
  datatype ScriptStep =
    | CallSend(payload: Payload)
    | CallClose(code: Option<nat>, reason: Option<string>)
    | DoCookiesLoaded(ready: bool, connectHandle: nat)
    | DoCookiesFailed
    | DoConnectResolved(protocolExpected: bool)
    | DoConnectRejected
    | DoCloseMicrotask
    | DoJobStart(readable: bool)
    | DoJobCatch
    | DoJobFinally
    | DoReadSettled
    | DoResume

  predicate ScriptEnabled(s: Socket, t: ScriptStep) {
    match t
    case CallSend(_) => true
    case CallClose(_, _) => true
    case DoResume => !s.turn.Idle?
    case DoCookiesLoaded(_, _) => s.turn.Idle? && s.connect.LoadingCookies?
    case DoCookiesFailed => s.turn.Idle? && s.connect.LoadingCookies?
    case DoConnectResolved(_) => s.turn.Idle? && s.connect.Yielded?
    case DoConnectRejected => s.turn.Idle? && s.connect.Refused?
    case DoCloseMicrotask => s.turn.Idle? && s.closeMicrotask
    case DoJobStart(readable) =>
      s.turn.Idle? && s.jobs != [] && s.phase.Waiting? &&
      (readable || (s.jobs[0].SendJob? && s.jobs[0].payload.BlobData?))
    case DoJobCatch => s.turn.Idle? && s.jobs != [] && s.phase.Finished?
    case DoJobFinally => s.turn.Idle? && s.jobs != [] && s.phase.Caught? && s.jobs[0].SendJob?
    case DoReadSettled => s.turn.Idle? && s.read.ReadDone?
  }

  /** The socket after a script step, and the handles the step terminates. */
  function ScriptEffect(s: Socket, t: ScriptStep): (Socket, set<nat>)
    requires ScriptEnabled(s, t)
  {
    match t
    case CallSend(p) => (Send(s, p), {})
    case CallClose(code, reason) => (Close(s, code, reason), {})
    case DoCookiesLoaded(ready, h) => (CookiesLoaded(s, ready, h), {})
    case DoCookiesFailed => (CookiesFailed(s), {})
    case DoConnectResolved(expected) => ConnectResolved(s, expected)
    case DoConnectRejected => (ConnectRejected(s), {})
    case DoCloseMicrotask => (RunCloseMicrotask(s), {})
    case DoJobStart(readable) => (s.(phase := if readable then Issued else Finished(false)), {})
    case DoJobCatch => (JobCatch(s), {})
    case DoJobFinally => (JobFinally(s), {})
    case DoReadSettled => (ReadSettled(s), {})
    case DoResume => Resume(s)
  }

  function ScriptApply(y: System, t: ScriptStep): System
    requires ScriptEnabled(y.js, t)
  {
    var (s, gone) := ScriptEffect(y.js, t);
    var y1 := y.(js := s, store := y.store - gone);
    if t == DoJobStart(false) then
      var p := Position(y.js);
      y1.(unreadable := y.unreadable + {p}, written := if y.written == p then y.written + 1 else y.written)
    else y1
  }

  /** The native threads that serve one call each, and other users of the store. */
  datatype ThreadStep =
    | DialDone(ok: bool)
    | ReadLookup
    | ReadTake
    | ReadRemove
    | JobLookup
    | JobPush
    | JobDropped
    | JobSettle
    | OtherInsert
    | OtherRemove(handle: nat)

  predicate ThreadEnabled(y: System, t: ThreadStep) {
    var s := y.js;
    match t
    case DialDone(_) => s.connect.Dialing?
    case ReadLookup => s.read.ReadIssued?
    case ReadTake =>
      s.read.ReadHolding? && y.conn.Some? && (y.conn.value.events != [] || y.conn.value.task.Exited?)
    case ReadRemove => s.read.ReadTaken?
    case JobLookup => s.jobs != [] && s.phase.Issued?
    case JobPush => s.jobs != [] && s.phase.Holding? && y.conn.Some?
    case JobDropped => s.jobs != [] && s.phase.InChannel? && y.conn.Some? && y.conn.value.task.Exited?
    case JobSettle => s.jobs != [] && s.phase.Acked?
    case OtherInsert => true
    case OtherRemove(h) => y.conn.None? || h != y.conn.value.handle
  }

  function ThreadApply(y: System, t: ThreadStep): System
    requires ThreadEnabled(y, t)
  {
    var s := y.js;
    match t
    case DialDone(ok) =>
      if ok then
        y.(js := s.(connect := Yielded(y.next)), store := y.store + {y.next}, next := y.next + 1,
           conn := Some(Connection(y.next, Running, [], [], [], [])))
      else y.(js := s.(connect := Refused))
    case ReadLookup =>
      y.(js := s.(read := if s.read.handle in y.store then ReadHolding(s.read.handle) else ReadDone(ReadFailed)))
    case ReadTake =>
      var c := y.conn.value;
      if c.events == [] then y.(js := s.(read := ReadTaken(s.read.handle, ReadFailed)))
      else
        var r := c.events[0];
        y.(conn := Some(c.(events := c.events[1..])),
           js := s.(read := if r.Received? then ReadDone(r) else ReadTaken(s.read.handle, r)))
    case ReadRemove =>
      y.(store := y.store - {s.read.handle}, js := s.(read := ReadDone(s.read.result)))
    case JobLookup =>
      y.(js := s.(phase := if s.jobs[0].handle in y.store then Holding else Finished(false)))
    case JobPush =>
      y.(js := s.(phase := if y.conn.value.task.Exited? then Acked(false) else InChannel))
    case JobDropped => y.(js := s.(phase := Acked(false)))
    case JobSettle =>
      y.(js := s.(phase := Finished(s.phase.ok)),
         store := if s.phase.ok then y.store else y.store - {s.jobs[0].handle})
    case OtherInsert => y.(store := y.store + {y.next}, next := y.next + 1)
    case OtherRemove(h) => y.(store := y.store - {h})
  }

  /** One choice of the select loop of the connection task. */
  datatype TaskStep = TaskWrite(ok: bool) | TaskFail | DoTaskReceive(incoming: Incoming) | TaskDrained

  predicate TaskEnabled(y: System, t: TaskStep) {
    y.conn.Some? &&
    match t
    case TaskWrite(_) => y.conn.value.task.Running? && y.js.jobs != [] && y.js.phase.InChannel?
    case TaskFail => y.conn.value.task.Failed?
    case DoTaskReceive(_) => y.conn.value.task.Running?
    case TaskDrained => y.conn.value.task.Running? && !Alive(y)
  }

  function TaskApply(y: System, t: TaskStep): System
    requires TaskEnabled(y, t)
  {
    var c := y.conn.value;
    match t
    case TaskWrite(ok) =>
      var job := y.js.jobs[0];
      if ok then
        y.(conn := Some(c.(wire := c.wire + [CommandFrame(job)])), js := y.js.(phase := Acked(true)),
           written := if job.SendJob? then y.written + 1 else y.written)
      else y.(conn := Some(c.(task := Failed)), js := y.js.(phase := Acked(false)))
    case TaskFail => y.(conn := Some(Queue(c, LOST).(task := Exited)))
    case DoTaskReceive(incoming) => y.(conn := Some(TaskReceive(c, incoming, Alive(y))))
    case TaskDrained => y.(conn := Some(c.(task := Exited)))
  }

  datatype Step = Script(script: ScriptStep) | Thread(thread: ThreadStep) | Task(task: TaskStep)

  predicate Enabled(y: System, t: Step) {
    match t
    case Script(t) => ScriptEnabled(y.js, t)
    case Thread(t) => ThreadEnabled(y, t)
    case Task(t) => TaskEnabled(y, t)
  }

  function Apply(y: System, t: Step): System
    requires Enabled(y, t)
  {
    match t
    case Script(t) => ScriptApply(y, t)
    case Thread(t) => ThreadApply(y, t)
    case Task(t) => TaskApply(y, t)
  }

  /** Other sockets may already be in the store when this one is created. */
  ghost predicate Initial(y: System) {
    && y.js == FRESH_SOCKET && y.conn == None && y.written == 0 && y.unreadable == {}
    && forall h :: h in y.store ==> h < y.next
  }

  ghost predicate ValidRun(y: System, steps: seq<Step>)
    decreases |steps|
  {
    steps == [] || (Enabled(y, steps[0]) && ValidRun(Apply(y, steps[0]), steps[1..]))
  }

  function Run(y: System, steps: seq<Step>): System
    requires ValidRun(y, steps)
    decreases |steps|
  {
    if steps == [] then y else Run(Apply(y, steps[0]), steps[1..])
  }

  ghost predicate Reachable(z: System) {
    exists y: System, steps: seq<Step> :: Initial(y) && ValidRun(y, steps) && Run(y, steps) == z
  }
}
