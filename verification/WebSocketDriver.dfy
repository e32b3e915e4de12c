/** The socket class, the handle store and the connection task put together: driven by any sequence
    of steps, their method calls are a run of the transition system, so its theorems hold of them. */
module WebSocketDriver {
  import opened Basics
  import opened M = WebSocketModel
  import opened WebSocketSafety
  import opened WebSocketObjects

  /** An argument for `send` with a given payload; binary data lives in a buffer of its own. */
  method Argument(p: Payload) returns (data: SendData)
    ensures InBounds(data) && Snapshot(data) == p && forall b :: b in Footprint(data) ==> fresh(b)
  {
    match p
    case Text(text) => return StringData(text);
    case BlobData(bytes) => return Blob(bytes);
    case Binary(bytes) =>
      var buffer := new byte[|bytes|](i requires 0 <= i < |bytes| => bytes[i]);
      assert buffer[..] == bytes;
      return ArrayBuffer(buffer);
  }

  /** One script step on the objects. */
  method Perform(socket: WebSocket, t: ScriptStep)
    requires ScriptEnabled(socket.State(), t)
    modifies socket, socket.store`entries
    ensures socket.State() == ScriptEffect(old(socket.State()), t).0
    ensures socket.store.entries == old(socket.store.entries) - ScriptEffect(old(socket.State()), t).1
  {
    match t
    case CallSend(p) =>
      var data := Argument(p);
      var _ := socket.Send(data);
    case CallClose(code, reason) => var _ := socket.Close(code, reason);
    case DoCookiesLoaded(ready, h) => socket.CookiesSettled(true, ready, h);
    case DoCookiesFailed => socket.CookiesSettled(false, false, 0);
    case DoConnectResolved(expected) => socket.ConnectSucceeded(expected);
    case DoConnectRejected => socket.ConnectFailed();
    case DoCloseMicrotask => socket.RunMicrotask();
    case DoJobStart(readable) => socket.JobStart(readable);
    case DoJobCatch => socket.JobCatch();
    case DoJobFinally => socket.JobFinally();
    case DoReadSettled => socket.ReadSettled();
    case DoResume => socket.ResumeMethod();
  }

  class Runtime {
    const socket: WebSocket
    var task: ConnectionTask?
    ghost var written: nat
    ghost var unreadable: set<int>

    ghost function View(): System
      reads this, socket, socket.store, task
    {
      System(socket.State(), socket.store.entries, socket.store.next, if task == null then None else Some(task.State()),
             written, unreadable)
    }

    constructor (socket: WebSocket)
      requires socket.State() == FRESH_SOCKET
      ensures this.socket == socket && task == null
      ensures View() == System(FRESH_SOCKET, socket.store.entries, socket.store.next, None, 0, {})
    {
      this.socket, task, written, unreadable := socket, null, 0, {};
    }

    method Script(t: ScriptStep)
      requires ScriptEnabled(socket.State(), t)
      modifies this`written, this`unreadable, socket, socket.store`entries
      ensures View() == ScriptApply(old(View()), t)
    {
      ghost var p := Position(socket.State());
      Perform(socket, t);
      if t == DoJobStart(false) {
        unreadable := unreadable + {p};
        if written == p { written := written + 1; }
      }
    }

    /** The dial of the connect, and the thread of one read. */
    method ReadThread(t: ThreadStep)
      requires ThreadEnabled(View(), t) && (t.DialDone? || t.ReadLookup? || t.ReadTake? || t.ReadRemove?)
      requires socket.store.Valid()
      modifies this`task, socket`connect, socket`read, socket.store, task
      ensures View() == ThreadApply(old(View()), t)
      ensures task == old(task) || fresh(task)
    {
      match t
      case DialDone(ok) =>
        if ok {
          var h := socket.store.Insert();
          task := new ConnectionTask(h);
          socket.connect := Yielded(h);
        } else {
          socket.connect := Refused;
        }
      case ReadLookup =>
        var h := socket.read.handle;
        socket.read := if h in socket.store.entries then ReadHolding(h) else ReadDone(ReadFailed);
      case ReadTake =>
        var h := socket.read.handle;
        if task.events == [] {
          socket.read := ReadTaken(h, ReadFailed);
        } else {
          var r := task.events[0];
          task.events := task.events[1..];
          socket.read := if r.Received? then ReadDone(r) else ReadTaken(h, r);
        }
      case ReadRemove =>
        var _ := socket.store.Remove(socket.read.handle);
        socket.read := ReadDone(socket.read.result);
    }

    /** The thread of one command, and other users of the store. */
    method SendThread(t: ThreadStep)
      requires ThreadEnabled(View(), t) && !(t.DialDone? || t.ReadLookup? || t.ReadTake? || t.ReadRemove?)
      requires socket.store.Valid()
      modifies socket`phase, socket.store
      ensures View() == ThreadApply(old(View()), t)
    {
      match t
      case JobLookup =>
        socket.phase := if socket.jobs[0].handle in socket.store.entries then Holding else Finished(false);
      case JobPush => socket.phase := if task.task.Exited? then Acked(false) else InChannel;
      case JobDropped => socket.phase := Acked(false);
      case JobSettle =>
        if !socket.phase.ok { var _ := socket.store.Remove(socket.jobs[0].handle); }
        socket.phase := Finished(socket.phase.ok);
      case OtherInsert => var _ := socket.store.Insert();
      case OtherRemove(h) => var _ := socket.store.Remove(h);
    }

    method Write(ok: bool)
      requires TaskEnabled(View(), TaskWrite(ok))
      modifies this`written, socket`phase, task
      ensures View() == TaskApply(old(View()), TaskWrite(ok)) && task == old(task)
    {
      socket.phase := Acked(ok);
      if ok {
        task.wire := task.wire + [CommandFrame(socket.jobs[0])];
        if socket.jobs[0].SendJob? { written := written + 1; }
      } else {
        task.task := Failed;
      }
    }

    method TaskTurn(t: TaskStep)
      requires TaskEnabled(View(), t) && !t.TaskWrite?
      modifies task
      ensures View() == TaskApply(old(View()), t)
    {
      match t
      case TaskFail =>
        task.Emit(LOST);
        task.task := Exited;
      case DoTaskReceive(incoming) =>
        var sending := socket.jobs != [] && (socket.phase.Holding? || socket.phase.InChannel? || socket.phase.Acked?);
        task.Receive(incoming, task.handle in socket.store.entries || HeldByRead(socket.read) || sending);
      case TaskDrained => task.task := Exited;
    }

    method Take(t: Step)
      requires Enabled(View(), t) && socket.store.Valid()
      modifies this, socket, socket.store, task
      ensures View() == Apply(old(View()), t) && (task == old(task) || fresh(task))
    {
      match t
      case Script(s) => Script(s);
      case Thread(s) =>
        if s.DialDone? || s.ReadLookup? || s.ReadTake? || s.ReadRemove? { ReadThread(s); } else { SendThread(s); }
      case Task(s) => if s.TaskWrite? { Write(s.ok); } else { TaskTurn(s); }
    }

    /** Any sequence of steps that can be taken, as method calls. */
    method Play(steps: seq<Step>)
      requires Safe(View()) && ValidRun(View(), steps)
      modifies this, socket, socket.store, task
      ensures View() == M.Run(old(View()), steps)
    {
      var n := 0;
      while n < |steps|
        invariant n <= |steps| && (task == old(task) || fresh(task))
        invariant Safe(View()) && ValidRun(View(), steps[n..])
        invariant M.Run(View(), steps[n..]) == M.Run(old(View()), steps)
      {
        assert steps[n..][0] == steps[n] && steps[n..][1..] == steps[n + 1..];
        StepKeepsSafe(View(), steps[n]);
        StoreIsValid(View());
        Take(steps[n]);
        n := n + 1;
      }
    }
  }

  lemma StoreIsValid(y: System)
    requires Safe(y)
    ensures forall h :: h in y.store ==> h < y.next
  {}

  /** A fresh socket in a store others may use, driven to any reachable state. What the theorems say
      of the transition system they say of the objects: here, that a closed socket has let go. */
  method Drive(store: HandleStore, steps: seq<Step>) returns (runtime: Runtime)
    requires store.Valid() && ValidRun(System(FRESH_SOCKET, store.entries, store.next, None, 0, {}), steps)
    modifies store
    ensures runtime.socket.store == store && Reachable(runtime.View())
    ensures runtime.socket.readyState == CLOSED && !runtime.socket.connect.Yielded? ==>
              runtime.socket.handle == None && (runtime.task != null ==> runtime.task.handle !in store.entries)
  {
    var socket := new WebSocket(store);
    runtime := new Runtime(socket);
    ghost var start := runtime.View();
    SafeInitially(start);
    runtime.Play(steps);
    assert Initial(start) && M.Run(start, steps) == runtime.View();
    if runtime.socket.readyState == CLOSED { ClosedMeansReleased(runtime.View()); }
  }
}
