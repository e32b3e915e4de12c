/** The same protocol in the form of the sources: the socket class, the native handle store
    and the task loop, each proved against the functions of `WebSocketModel`. */
module WebSocketObjects {
  import opened Basics
  import opened M = WebSocketModel
  import opened WebSocketSafety

  /** The arguments `send` accepts. Buffers are mutable; strings and blobs are not. */
  datatype SendData =
    | StringData(text: string)
    | Blob(bytes: Bytes)
    | ArrayBuffer(buffer: array<byte>)
    | View(buffer: array<byte>, offset: nat, length: nat)

  predicate InBounds(d: SendData) { d.View? ==> d.offset + d.length <= d.buffer.Length }

  function Footprint(d: SendData): set<object> {
    if d.ArrayBuffer? || d.View? then {d.buffer} else {}
  }

  /** The bytes of an argument at this moment. */
  function Snapshot(d: SendData): Payload
    requires InBounds(d)
    reads Footprint(d)
  {
    match d
    case StringData(text) => Text(text)
    case Blob(bytes) => BlobData(bytes)
    case ArrayBuffer(buffer) => Binary(buffer[..])
    case View(buffer, offset, length) => Binary(buffer[offset..offset + length])
  }

  /** The copy of a view holds just the bytes of its window, and no argument changes its kind. */
  lemma SnapshotCopies(d: SendData)
    requires InBounds(d)
    ensures d.StringData? ==> Snapshot(d) == Text(d.text)
    ensures d.Blob? ==> Snapshot(d) == BlobData(d.bytes)
    ensures d.View? || d.ArrayBuffer? ==> Snapshot(d).Binary?
    ensures d.ArrayBuffer? ==> |Snapshot(d).bytes| == d.buffer.Length &&
                               forall i :: 0 <= i < d.buffer.Length ==> Snapshot(d).bytes[i] == d.buffer[i]
    ensures d.View? ==> |Snapshot(d).bytes| == d.length &&
                        forall i :: 0 <= i < d.length ==> Snapshot(d).bytes[i] == d.buffer[d.offset + i]
  {}

  /** The byte count taken before the copy is the byte count of the copy. */
  method GetSendByteLength(d: SendData) returns (n: nat)
    requires InBounds(d)
    ensures n == ByteLength(Snapshot(d))
  {
    match d
    case StringData(text) => n := Utf8Length(text);
    case Blob(bytes) => n := |bytes|;
    case ArrayBuffer(buffer) => n := buffer.Length;
    case View(_, _, length) => n := length;
  }

  /** The process-wide handle store: a counter and the handles it holds. */
  class HandleStore {
    var entries: set<nat>
    var next: nat

    ghost predicate Valid()
      reads this
    {
      forall h :: h in entries ==> h < next
    }

    constructor ()
      ensures Valid() && entries == {} && next == 1
    {
      entries, next := {}, 1;
    }

    /** Handles are never used twice. */
    method Insert() returns (handle: nat)
      requires Valid()
      modifies this
      ensures Valid() && handle == old(next) && handle !in old(entries)
      ensures entries == old(entries) + {handle} && next == old(next) + 1
    {
      handle := next;
      next := next + 1;
      entries := entries + {handle};
    }

    method Remove(handle: nat) returns (present: bool)
      modifies this`entries
      ensures present == (handle in old(entries))
      ensures entries == old(entries) - {handle}
    {
      present := handle in entries;
      entries := entries - {handle};
    }

    /** `read_websocket_message`; `event` is what the blocked receive yields, `None` when the
        task is gone. */
    method ReadMessage(handle: nat, event: Option<ReadResult>) returns (result: ReadResult)
      modifies this`entries
      ensures (result, entries) == ReadOutcome(old(entries), handle, event)
    {
      if handle !in entries { return ReadFailed; }
      result := if event.Some? then event.value else ReadFailed;
      if !result.Received? {
        var _ := Remove(handle);
      }
    }

    /** `send_websocket_command`; `ack` is the acknowledgement, `None` when the command could
        not be delivered or its acknowledgement was dropped. */
    method SendCommand(handle: nat, ack: Option<bool>) returns (ok: bool)
      modifies this`entries
      ensures (ok, entries) == SendOutcome(old(entries), handle, ack)
    {
      if handle !in entries { return false; }
      ok := ack == Some(true);
      if !ok {
        var _ := Remove(handle);
      }
    }
  }

  function ReadOutcome(entries: set<nat>, handle: nat, event: Option<ReadResult>): (ReadResult, set<nat>) {
    if handle !in entries then (ReadFailed, entries)
    else if event.Some? && event.value.Received? then (event.value, entries)
    else (if event.Some? then event.value else ReadFailed, entries - {handle})
  }

  function SendOutcome(entries: set<nat>, handle: nat, ack: Option<bool>): (bool, set<nat>) {
    if handle !in entries then (false, entries)
    else if ack == Some(true) then (true, entries)
    else (false, entries - {handle})
  }

  /** A read that is not interrupted is the three steps of the interleaved thread. */
  lemma ReadThreadRefines(y: System)
    requires Safe(y) && y.js.read.ReadIssued? && y.conn.Some?
    requires y.conn.value.events != [] || y.conn.value.task.Exited?
    ensures
      var events := y.conn.value.events;
      var (result, entries) :=
        ReadOutcome(y.store, y.js.read.handle, if events == [] then None else Some(events[0]));
      var y1 := ThreadApply(y, ReadLookup);
      if y.js.read.handle !in y.store then y1.js.read == ReadDone(result) && y1.store == entries
      else
        ThreadEnabled(y1, ReadTake) &&
        var y2 := ThreadApply(y1, ReadTake);
        if result.Received? then y2.js.read == ReadDone(result) && y2.store == entries
        else
          ThreadEnabled(y2, ReadRemove) &&
          var y3 := ThreadApply(y2, ReadRemove);
          y3.js.read == ReadDone(result) && y3.store == entries
  {}

  /** The steps of the send thread, and of the task it waits for, when nothing else happens. */
  function SendThread(y: System, written: bool): seq<Step>
    requires y.conn.Some? && y.js.jobs != []
  {
    if y.js.jobs[0].handle !in y.store then [Thread(JobLookup)]
    else
      match y.conn.value.task
      case Running => [Thread(JobLookup), Thread(JobPush), Task(TaskWrite(written)), Thread(JobSettle)]
      case Failed => [Thread(JobLookup), Thread(JobPush), Task(TaskFail), Thread(JobDropped), Thread(JobSettle)]
      case Exited => [Thread(JobLookup), Thread(JobPush), Thread(JobSettle)]
  }

  /** The steps can be taken one after the other and lead to z. */
  ghost predicate Leads(y: System, steps: seq<Step>, z: System) { ValidRun(y, steps) && M.Run(y, steps) == z }

  lemma LeadsNowhere(y: System)
    ensures Leads(y, [], y)
  {}

  lemma LeadsOn(y: System, t: Step, steps: seq<Step>, z: System)
    requires Enabled(y, t) && Leads(Apply(y, t), steps, z)
    ensures Leads(y, [t] + steps, z)
  {
    assert ([t] + steps)[1..] == steps;
  }

  /** A command on its way in: looked up, then pushed if the channel is still open. */
  lemma CommandLookup(y: System)
    requires Safe(y) && y.conn.Some? && y.js.jobs != [] && y.js.phase.Issued? && y.js.jobs[0].handle in y.store
    ensures Enabled(y, Thread(JobLookup)) && Apply(y, Thread(JobLookup)) == y.(js := y.js.(phase := Holding))
  {}

  lemma CommandPush(y: System)
    requires y.conn.Some? && y.js.jobs != [] && y.js.phase.Holding?
    ensures Enabled(y, Thread(JobPush))
    ensures Apply(y, Thread(JobPush)) ==
            y.(js := y.js.(phase := if y.conn.value.task.Exited? then Acked(false) else InChannel))
  {}

  lemma CommandSettle(y: System)
    requires y.js.jobs != [] && y.js.phase.Acked?
    ensures Enabled(y, Thread(JobSettle))
    ensures var z := Apply(y, Thread(JobSettle));
            z.js.phase == Finished(y.js.phase.ok) &&
            z.store == if y.js.phase.ok then y.store else y.store - {y.js.jobs[0].handle}
  {}

  lemma CommandWritten(y: System, written: bool)
    requires y.conn.Some? && y.conn.value.task.Running? && y.js.jobs != [] && y.js.phase.InChannel?
    ensures Enabled(y, Task(TaskWrite(written)))
    ensures var z := Apply(y, Task(TaskWrite(written)));
            z.js == y.js.(phase := Acked(written)) && z.store == y.store
  {}

  lemma CommandDropped(y: System)
    requires y.conn.Some? && y.conn.value.task.Failed? && y.js.jobs != [] && y.js.phase.InChannel?
    ensures Enabled(y, Task(TaskFail)) && Enabled(Apply(y, Task(TaskFail)), Thread(JobDropped))
    ensures var z := Apply(Apply(y, Task(TaskFail)), Thread(JobDropped));
            z.js == y.js.(phase := Acked(false)) && z.store == y.store
  {}

  /** From a settled acknowledgement on, the end of the thread. */
  lemma SettleLeads(y: System) returns (z: System)
    requires y.js.jobs != [] && y.js.phase.Acked?
    ensures Leads(y, [Thread(JobSettle)], z) && z.js.phase == Finished(y.js.phase.ok)
    ensures z.store == if y.js.phase.ok then y.store else y.store - {y.js.jobs[0].handle}
  {
    CommandSettle(y);
    z := Apply(y, Thread(JobSettle));
    LeadsNowhere(z);
    LeadsOn(y, Thread(JobSettle), [], z);
    assert [Thread(JobSettle)] + [] == [Thread(JobSettle)];
  }

  /** The atomic command is that run: written and acknowledged by a running task, dropped by one
      that has failed or is over, and refused without a stored handle. */
  lemma SendThreadRefines(y: System, written: bool) returns (z: System)
    requires Safe(y) && y.conn.Some? && y.js.jobs != [] && y.js.phase.Issued?
    ensures Leads(y, SendThread(y, written), z)
    ensures (z.js.phase, z.store) ==
            var (ok, entries) := SendOutcome(y.store, y.js.jobs[0].handle,
                                             if y.conn.value.task.Running? then Some(written) else None);
            (Finished(ok), entries)
  {
    if y.js.jobs[0].handle !in y.store {
      z := Apply(y, Thread(JobLookup));
      LeadsNowhere(z);
      LeadsOn(y, Thread(JobLookup), [], z);
      assert [Thread(JobLookup)] + [] == SendThread(y, written);
    } else {
      CommandLookup(y);
      var held := Apply(y, Thread(JobLookup));
      CommandPush(held);
      var rest: seq<Step>;
      z, rest := PushedLeads(Apply(held, Thread(JobPush)), written);
      LeadsOn(held, Thread(JobPush), rest, z);
      LeadsOn(y, Thread(JobLookup), [Thread(JobPush)] + rest, z);
      assert [Thread(JobLookup)] + ([Thread(JobPush)] + rest) == SendThread(y, written);
    }
  }

  /** What happens to a pushed command. */
  lemma PushedLeads(y: System, written: bool) returns (z: System, steps: seq<Step>)
    requires y.conn.Some? && y.js.jobs != []
    requires y.js.phase == if y.conn.value.task.Exited? then Acked(false) else InChannel
    ensures Leads(y, steps, z)
    ensures steps == match y.conn.value.task
                     case Running => [Task(TaskWrite(written)), Thread(JobSettle)]
                     case Failed => [Task(TaskFail), Thread(JobDropped), Thread(JobSettle)]
                     case Exited => [Thread(JobSettle)]
    ensures var ok := y.conn.value.task.Running? && written;
            z.js.phase == Finished(ok) && z.store == if ok then y.store else y.store - {y.js.jobs[0].handle}
  {
    steps := [Thread(JobSettle)];
    match y.conn.value.task
    case Exited => z := SettleLeads(y);
    case Running =>
      CommandWritten(y, written);
      z := SettleLeads(Apply(y, Task(TaskWrite(written))));
      LeadsOn(y, Task(TaskWrite(written)), steps, z);
      steps := [Task(TaskWrite(written))] + steps;
    case Failed =>
      CommandDropped(y);
      var failed := Apply(y, Task(TaskFail));
      z := SettleLeads(Apply(failed, Thread(JobDropped)));
      LeadsOn(failed, Thread(JobDropped), steps, z);
      LeadsOn(y, Task(TaskFail), [Thread(JobDropped)] + steps, z);
      steps := [Task(TaskFail)] + ([Thread(JobDropped)] + steps);
  }

  /** The socket. `turn` is what remains to do once the handlers of an event return. */
  class WebSocket {
    const store: HandleStore
    var readyState: nat
    var handle: Option<nat>
    var connectHandle: Option<nat>
    var connect: Connect
    var openSettled: bool
    var bufferedAmount: int
    var jobs: seq<Job>
    var phase: Phase
    var settled: bool
    var closeEnqueued: bool
    var closeRequest: Option<CloseRequest>
    var closeMicrotask: bool
    var read: Read
    var turn: Turn
    ghost var log: seq<Entry>
    ghost var openOutcomes: seq<bool>
    ghost var accepted: seq<Payload>
    ghost var discarded: nat

    ghost function State(): Socket
      reads this
    {
      Socket(readyState, handle, connectHandle, connect, openSettled, bufferedAmount, jobs, phase, settled,
             closeEnqueued, closeRequest, closeMicrotask, read, turn, log, openOutcomes, accepted, discarded)
    }

    constructor (store: HandleStore)
      ensures this.store == store && State() == FRESH_SOCKET
    {
      this.store := store;
      readyState, handle, connectHandle, connect := CONNECTING, None, None, LoadingCookies;
      openSettled, bufferedAmount, jobs, phase := false, 0, [], Waiting;
      settled, closeEnqueued, closeRequest, closeMicrotask := false, false, None, false;
      read, turn, log, openOutcomes, accepted, discarded := NoRead, Idle, [], [], [], 0;
    }

    /** The bytes queued are the bytes at the time of the call. */
    method Send(data: SendData) returns (threw: bool)
      requires InBounds(data)
      modifies this
      ensures State() == M.Send(old(State()), old(Snapshot(data)))
      ensures threw == (old(readyState) == CONNECTING)
    {
      hide M.ByteLength;
      var queuedBytes := GetSendByteLength(data);
      if readyState == CONNECTING { return true; }
      bufferedAmount := bufferedAmount + queuedBytes;
      if readyState != OPEN || handle.None? {
        discarded := discarded + queuedBytes;
        return false;
      }
      EnqueueSend(Snapshot(data), queuedBytes);
      return false;
    }

    method EnqueueSend(queuedData: Payload, queuedBytes: nat)
      requires handle.Some?
      modifies this`jobs, this`accepted
      ensures State() == old(State()).(jobs := old(jobs) + [SendJob(handle.value, queuedData, queuedBytes)],
                                       accepted := old(accepted) + [queuedData])
    {
      jobs := jobs + [SendJob(handle.value, queuedData, queuedBytes)];
      accepted := accepted + [queuedData];
    }

    method Close(code: Option<nat>, reason: Option<string>) returns (threw: bool)
      modifies this
      ensures State() == M.Close(old(State()), code, reason)
      ensures threw == !(ValidCloseCode(code) && ValidCloseReason(reason))
    {
      var normalized := if reason.Some? then reason.value else "";
      if !ValidCloseCode(code) || !ValidCloseReason(reason) { return true; }
      log := log + [CloseCall];
      if readyState == CLOSING || readyState == CLOSED { return false; }
      var wasConnecting := readyState == CONNECTING;
      readyState := CLOSING;
      closeRequest := Some(CloseRequest(code, if code.None? && normalized == "" then None else Some(normalized)));
      if wasConnecting {
        AbandonConnect();
        return false;
      }
      if handle.Some? {
        EnqueueClose(handle.value);
      }
      return false;
    }

    method AbandonConnect()
      modifies this`openSettled, this`openOutcomes, this`connectHandle, this`closeMicrotask
      ensures State() == SettleOpened(old(State()), false).(connectHandle := None, closeMicrotask := true)
    {
      SettleOpen(false);
      connectHandle := None;
      closeMicrotask := true;
    }

    method SettleOpen(ok: bool)
      modifies this`openSettled, this`openOutcomes
      ensures State() == SettleOpened(old(State()), ok)
    {
      if openSettled { return; }
      openSettled := true;
      openOutcomes := openOutcomes + [ok];
    }

    method EnqueueClose(h: nat)
      modifies this`closeEnqueued, this`jobs
      ensures State() == M.EnqueueClose(old(State()), h)
    {
      if closeEnqueued { return; }
      closeEnqueued := true;
      var request := if closeRequest.Some? then closeRequest.value else CloseRequest(None, None);
      jobs := jobs + [CloseJob(h, request.code, request.reason)];
    }

    method Dispatch(e: Entry, rest: Turn)
      modifies this`log, this`turn
      ensures State() == old(State()).(log := old(log) + [e], turn := rest)
    {
      log := log + [e];
      turn := rest;
    }

    method HandleError(origin: Origin)
      modifies this
      ensures State() == M.HandleError(old(State()), origin)
    {
      SettleOpen(false);
      Dispatch(ErrorEvent, ErrorDispatched(origin));
    }

    method FinalizeClose(code: nat, reason: string, wasClean: bool)
      modifies this
      ensures State() == M.FinalizeClose(old(State()), code, reason, wasClean)
    {
      if settled {
        turn := Idle;
        return;
      }
      BecomeClosed();
      SettleOpen(false);
      Dispatch(CloseEvent(code, reason, wasClean), CloseDispatched);
    }

    method BecomeClosed()
      modifies this`settled, this`readyState, this`handle
      ensures State() == old(State()).(settled := true, readyState := CLOSED, handle := None)
    {
      settled := true;
      readyState := CLOSED;
      if handle.Some? {
        handle := None;
      }
    }

    method PumpNext()
      modifies this`turn, this`read
      ensures State() == M.PumpNext(old(State()))
    {
      turn := Idle;
      if !settled && handle.Some? {
        read := ReadIssued(handle.value);
      } else {
        read := NoRead;
      }
    }

    /** The three continuations of `#connect` up to the native call. */
    method CookiesSettled(loaded: bool, ready: bool, newHandle: nat)
      requires connect.LoadingCookies?
      modifies this
      ensures State() == if loaded then CookiesLoaded(old(State()), ready, newHandle) else CookiesFailed(old(State()))
    {
      if loaded && !settled && readyState == CONNECTING && ready {
        connect := Dialing;
        connectHandle := Some(newHandle);
        return;
      }
      connect := ConnectDone;
      if settled || (loaded && readyState != CONNECTING) { return; }
      HandleError(FromConnect);
    }

    method AnnounceOpen()
      modifies this
      ensures State() ==
              SettleOpened(old(State()).(readyState := OPEN), true).(log := old(log) + [OpenEvent], turn := OpenDispatched)
    {
      readyState := OPEN;
      SettleOpen(true);
      Dispatch(OpenEvent, OpenDispatched);
    }

    /** `#connect` after its native promise was rejected. */
    method ConnectFailed()
      requires connect.Refused?
      modifies this
      ensures State() == ConnectRejected(old(State()))
    {
      connect := ConnectDone;
      connectHandle := None;
      if settled { return; }
      HandleError(FromConnect);
    }

    /** `#connect` after it resolved; terminates a connection nobody waits for. */
    method ConnectSucceeded(protocolExpected: bool)
      requires connect.Yielded?
      modifies this, store`entries
      ensures State() == ConnectResolved(old(State()), protocolExpected).0
      ensures store.entries == old(store.entries) - ConnectResolved(old(State()), protocolExpected).1
    {
      var h := connect.handle;
      connect := ConnectDone;
      connectHandle := None;
      if settled || readyState != CONNECTING {
        var _ := store.Remove(h);
        return;
      }
      handle := Some(h);
      if protocolExpected {
        AnnounceOpen();
      } else {
        HandleError(FromConnect);
      }
    }

    method RunMicrotask()
      requires closeMicrotask
      modifies this
      ensures State() == RunCloseMicrotask(old(State()))
    {
      closeMicrotask := false;
      if settled { return; }
      HandleError(FromMicrotask);
    }

    method ReadSettled()
      requires read.ReadDone?
      modifies this
      ensures State() == M.ReadSettled(old(State()))
    {
      var result := read.result;
      read := NoRead;
      match result
      case PeerClosed(code, reason, wasClean) =>
        handle := None;
        FinalizeClose(code, reason, wasClean);
      case Received(m) =>
        if readyState == OPEN {
          Dispatch(MessageEvent(m), MessageDispatched);
        } else {
          PumpNext();
        }
      case ReadFailed =>
        HandleError(FromPump);
    }

    /** The `then` link of the first job; `readable` tells whether its payload could be read. */
    method JobStart(readable: bool)
      requires ScriptEnabled(State(), DoJobStart(readable))
      modifies this`phase
      ensures State() == ScriptEffect(old(State()), DoJobStart(readable)).0
    {
      phase := if readable then Issued else Finished(false);
    }

    method JobCatch()
      requires jobs != [] && phase.Finished?
      modifies this
      ensures State() == M.JobCatch(old(State()))
    {
      var failed := !phase.ok;
      var closing := jobs[0].CloseJob?;
      if closing {
        jobs := jobs[1..];
        phase := Waiting;
      } else {
        phase := Caught;
      }
      if failed {
        HandleError(if closing then FromClose else FromSend);
      }
    }

    method JobFinally()
      requires jobs != [] && jobs[0].SendJob?
      modifies this
      ensures State() == M.JobFinally(old(State()))
    {
      var left := bufferedAmount - jobs[0].size;
      bufferedAmount := if 0 > left then 0 else left;
      jobs := jobs[1..];
      phase := Waiting;
    }

    /** What follows `dispatchEvent` in the method that dispatched. */
    method ResumeMethod()
      modifies this, store`entries
      ensures State() == Resume(old(State())).0
      ensures store.entries == old(store.entries) - Resume(old(State())).1
    {
      match turn
      case Idle =>
      case CloseDispatched => turn := Idle;
      case OpenDispatched => PumpNext();
      case MessageDispatched => PumpNext();
      case ErrorDispatched(_) => ResumeFailure();
    }

    method ResumeFailure()
      requires turn.ErrorDispatched?
      modifies this, store`entries
      ensures State() == Resume(old(State())).0
      ensures store.entries == old(store.entries) - Resume(old(State())).1
    {
      match turn.origin {
        case FromSend =>
          turn := Idle;
          return;
        case FromMicrotask =>
        case FromConnect =>
          if handle.Some? {
            var _ := store.Remove(handle.value);
            handle := None;
          }
        case _ => handle := None;
      }
      FinalizeClose(1006, "", false);
    }
  }

  // ----- the task loop -----

  /** What one turn of the select loop sees. `listening` is whether the events can still be
      received. */
  datatype Choice =
    | Command(job: Job, written: bool)
    | CommandsClosed
    | Arrived(incoming: Incoming, listening: bool)

  function Choose(c: Connection, choice: Choice): Connection {
    match choice
    case Command(job, true) => c.(wire := c.wire + [CommandFrame(job)])
    case Command(_, false) => Queue(c, LOST).(task := Exited)
    case CommandsClosed => c.(task := Exited)
    case Arrived(incoming, listening) => TaskReceive(c, incoming, listening)
  }

  function TaskLoop(c: Connection, choices: seq<Choice>): Connection
    decreases |choices|
  {
    if choices == [] || !c.task.Running? then c else TaskLoop(Choose(c, choices[0]), choices[1..])
  }

  lemma {:induction false} TaskLoopSteps(c: Connection, choices: seq<Choice>, n: nat)
    requires n < |choices|
    ensures TaskLoop(c, choices[..n + 1]) ==
            if TaskLoop(c, choices[..n]).task.Running? then Choose(TaskLoop(c, choices[..n]), choices[n])
            else TaskLoop(c, choices[..n])
    decreases n
  {
    if n > 0 && c.task.Running? {
      TaskLoopSteps(Choose(c, choices[0]), choices[1..], n - 1);
      assert choices[..n + 1][1..] == choices[1..][..n];
      assert choices[..n][1..] == choices[1..][..n - 1];
    } else {
      assert choices[..1] == [choices[0]] && choices[..1][1..] == [];
    }
  }

  /** The choices after which the loop breaks. */
  predicate Ends(choice: Choice) {
    match choice
    case Command(_, written) => !written
    case CommandsClosed => true
    case Arrived(Control, _) => false
    case Arrived(Data(_), listening) => !listening
    case Arrived(_, _) => true
  }

  /** How many choices the loop takes: up to the first that ends it. */
  function Carried(choices: seq<Choice>): (k: nat)
    ensures k <= |choices|
  {
    if choices == [] then 0 else if Ends(choices[0]) then 1 else 1 + Carried(choices[1..])
  }

  function HeardIn(choice: Choice): seq<Message> {
    if choice.Arrived? && choice.incoming.Data? then [choice.incoming.message] else []
  }

  /** The data frames among some choices. */
  function Heard(choices: seq<Choice>): seq<Message> {
    if choices == [] then [] else HeardIn(choices[0]) + Heard(choices[1..])
  }

  function WrittenIn(choice: Choice): seq<Frame> {
    if choice.Command? && choice.written then [CommandFrame(choice.job)] else []
  }

  /** The frames of the commands among them that could be written. */
  function Written(choices: seq<Choice>): seq<Frame> {
    if choices == [] then [] else WrittenIn(choices[0]) + Written(choices[1..])
  }

  function ToldIn(choice: Choice): seq<ReadResult> {
    match choice
    case Command(_, written) => if written then [] else [PeerClosed(1006, "", false)]
    case CommandsClosed => []
    case Arrived(Data(m), listening) => if listening then [Received(m)] else []
    case Arrived(PeerClose(Some((code, reason))), _) => [PeerClosed(code, reason, true)]
    case Arrived(PeerClose(None), _) => [PeerClosed(1005, "", true)]
    case Arrived(Control, _) => []
    case Arrived(Broken, _) => [PeerClosed(1006, "", false)]
  }

  /** What the reader is told of them. */
  function ToldOf(choices: seq<Choice>): seq<ReadResult> {
    if choices == [] then [] else ToldIn(choices[0]) + ToldOf(choices[1..])
  }

  lemma ChoiceLaw(c: Connection, choice: Choice)
    requires c.task.Running?
    ensures var z := Choose(c, choice);
            && z.wire == c.wire + WrittenIn(choice) && z.received == c.received + HeardIn(choice)
            && z.events == c.events + ToldIn(choice) && (z.task.Running? <==> !Ends(choice))
  {}

  lemma {:induction false} LoopTakes(c: Connection, choices: seq<Choice>)
    requires c.task.Running?
    ensures var z, taken := TaskLoop(c, choices), choices[..Carried(choices)];
            && z.wire == c.wire + Written(taken) && z.received == c.received + Heard(taken)
            && z.events == c.events + ToldOf(taken)
            && (z.task.Running? <==> forall i :: 0 <= i < |choices| ==> !Ends(choices[i]))
    decreases |choices|
  {
    if choices == [] {
    } else {
      var taken := choices[..Carried(choices)];
      var next := Choose(c, choices[0]);
      ChoiceLaw(c, choices[0]);
      if Ends(choices[0]) {
        assert taken[1..] == [];
      } else {
        var rest, end := choices[1..][..Carried(choices[1..])], TaskLoop(next, choices[1..]);
        LoopTakes(next, choices[1..]);
        assert taken[1..] == rest;
        Chained(c.wire, WrittenIn(choices[0]), next.wire, Written(rest), end.wire);
        Chained(c.received, HeardIn(choices[0]), next.received, Heard(rest), end.received);
        Chained(c.events, ToldIn(choices[0]), next.events, ToldOf(rest), end.events);
        assert forall i :: 0 < i < |choices| ==> choices[i] == choices[1..][i - 1];
      }
    }
  }

  /** The stored connection, changed in place by its task. */
  class ConnectionTask {
    const handle: nat
    var task: TaskState
    var events: seq<ReadResult>
    var wire: seq<Frame>
    ghost var received: seq<Message>
    ghost var queued: seq<ReadResult>

    ghost function State(): Connection
      reads this
    {
      Connection(handle, task, events, wire, received, queued)
    }

    constructor (handle: nat)
      ensures State() == Connection(handle, Running, [], [], [], [])
    {
      this.handle := handle;
      task, events, wire, received, queued := Running, [], [], [], [];
    }

    method Emit(r: ReadResult)
      modifies this`events, this`queued
      ensures State() == Queue(old(State()), r)
    {
      events := events + [r];
      queued := queued + [r];
    }

    method Receive(incoming: Incoming, listening: bool)
      modifies this
      ensures State() == TaskReceive(old(State()), incoming, listening)
    {
      match incoming
      case Data(m) =>
        received := received + [m];
        if listening { Emit(Received(m)); } else { task := Exited; }
      case PeerClose(status) =>
        var (code, reason) := if status.Some? then status.value else (1005, "");
        Emit(PeerClosed(code, reason, true));
        task := Exited;
      case Control =>
      case Broken =>
        Emit(LOST);
        task := Exited;
    }

    /** `run_websocket_task`, driven by what each select yields: every command up to the first choice that
        ends the loop is written, every data frame received and passed on, and the reader told how it ended. */
    method Run(choices: seq<Choice>)
      modifies this
      ensures State() == TaskLoop(old(State()), choices)
      ensures old(task).Running? ==>
                var taken := choices[..Carried(choices)];
                && wire == old(wire) + Written(taken) && received == old(received) + Heard(taken)
                && events == old(events) + ToldOf(taken)
                && (task.Running? <==> forall i :: 0 <= i < |choices| ==> !Ends(choices[i]))
    {
      var n := 0;
      while n < |choices| && task.Running?
        invariant n <= |choices|
        invariant State() == TaskLoop(old(State()), choices[..n])
      {
        TaskLoopSteps(old(State()), choices, n);
        match choices[n] {
          case Command(job, written) =>
            if written {
              wire := wire + [CommandFrame(job)];
            } else {
              Emit(LOST);
              task := Exited;
            }
          case CommandsClosed => task := Exited;
          case Arrived(incoming, listening) => Receive(incoming, listening);
        }
        n := n + 1;
      }
      StoppedLoop(old(State()), choices, n);
      if old(task).Running? { LoopTakes(old(State()), choices); }
    }
  }

  lemma {:induction false} StoppedLoop(c: Connection, choices: seq<Choice>, n: nat)
    requires n <= |choices| && (n == |choices| || !TaskLoop(c, choices[..n]).task.Running?)
    ensures TaskLoop(c, choices[..n]) == TaskLoop(c, choices)
    decreases |choices| - n
  {
    if n == |choices| {
      assert choices[..n] == choices;
    } else {
      TaskLoopSteps(c, choices, n);
      StoppedLoop(c, choices, n + 1);
    }
  }

  /** A choice of the loop is one step of the interleaved task, or two when a write fails. */
  lemma ChoiceRefinesTask(y: System, t: TaskStep)
    requires Safe(y) && TaskEnabled(y, t) && !t.TaskFail?
    ensures
      var choice := match t
        case TaskWrite(ok) => Command(y.js.jobs[0], ok)
        case DoTaskReceive(incoming) => Arrived(incoming, Alive(y))
        case _ => CommandsClosed;
      var z := TaskApply(y, t);
      z.conn.Some? && (if t == TaskWrite(false) then TaskEnabled(z, TaskFail) && TaskApply(z, TaskFail).conn == Some(Choose(y.conn.value, choice))
                       else z.conn == Some(Choose(y.conn.value, choice)))
  {}
}
