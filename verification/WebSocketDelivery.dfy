/** Outgoing frames through the send queue, the store and the task; byte accounting. */
module WebSocketDelivery {
  import opened Basics
  import opened WebSocketModel
  import opened WebSocketSafety
  import opened WebSocketHistory

  /** The frames of the first n accepted sends, without the unreadable ones. */
  function Frames(accepted: seq<Payload>, unreadable: set<int>, n: nat): seq<Frame>
    requires n <= |accepted|
  {
    if n == 0 then []
    else if n - 1 in unreadable then Frames(accepted, unreadable, n - 1)
    else Frames(accepted, unreadable, n - 1) + [PayloadFrame(accepted[n - 1])]
  }

  lemma {:induction false} FramesIgnoreLater(a: seq<Payload>, p: Payload, unreadable: set<int>, i: int, n: nat)
    requires n <= |a| && n <= i
    ensures Frames(a + [p], unreadable, n) == Frames(a, unreadable, n) == Frames(a, unreadable + {i}, n)
  {
    if n == 0 {
    } else {
      FramesIgnoreLater(a, p, unreadable, i, n - 1);
    }
  }

  lemma {:induction false} FramesWhenReadable(a: seq<Payload>, n: nat)
    requires n <= |a|
    ensures |Frames(a, {}, n)| == n
    ensures forall i :: 0 <= i < n ==> Frames(a, {}, n)[i] == PayloadFrame(a[i])
  {
    if n == 0 {
    } else {
      FramesWhenReadable(a, n - 1);
    }
  }

  /** Bytes of the queued sends that have not settled. */
  function Pending(jobs: seq<Job>): nat {
    if jobs == [] then 0 else (if jobs[0].SendJob? then jobs[0].size else 0) + Pending(jobs[1..])
  }

  lemma {:induction false} AppendJob(jobs: seq<Job>, job: Job)
    ensures Pending(jobs + [job]) == Pending(jobs) + (if job.SendJob? then job.size else 0)
    ensures SendJobs(jobs + [job]) == SendJobs(jobs) + (if job.SendJob? then 1 else 0)
  {
    if jobs == [] {
    } else {
      AppendJob(jobs[1..], job);
      assert (jobs + [job])[1..] == jobs[1..] + [job];
    }
  }

  // ----- the queue -----

  /** The jobs are the newest accepted sends in call order, then at most one close job. */
  ghost predicate Lined(jobs: seq<Job>, accepted: seq<Payload>) {
    && SendJobs(jobs) <= |accepted|
    && SendJobs(jobs) == (if EndsWithClose(jobs) then |jobs| - 1 else |jobs|)
    && (forall i :: 0 <= i < SendJobs(jobs) ==>
          jobs[i].SendJob? && jobs[i].payload == accepted[|accepted| - SendJobs(jobs) + i])
  }

  predicate EndsWithClose(jobs: seq<Job>) { jobs != [] && jobs[|jobs| - 1].CloseJob? }

  lemma AppendKeepsLine(jobs: seq<Job>, accepted: seq<Payload>, job: Job)
    requires Lined(jobs, accepted) && !EndsWithClose(jobs)
    ensures Lined(jobs + [job], if job.SendJob? then accepted + [job.payload] else accepted)
  {
    AppendJob(jobs, job);
  }

  lemma PopKeepsLine(jobs: seq<Job>, accepted: seq<Payload>)
    requires Lined(jobs, accepted) && jobs != []
    ensures Lined(jobs[1..], accepted)
    ensures EndsWithClose(jobs[1..]) ==> EndsWithClose(jobs)
  {}

  ghost predicate QueueOk(s: Socket) {
    && Lined(s.jobs, s.accepted)
    && (EndsWithClose(s.jobs) ==> s.closeEnqueued)
    && s.bufferedAmount == Pending(s.jobs) + s.discarded
    && (!Opened(s) ==> s.accepted == [])
  }

  lemma SendKeepsQueue(s: Socket, p: Payload)
    requires SocketOk(s) && QueueOk(s)
    ensures QueueOk(Send(s, p)) && Position(Send(s, p)) == Position(s)
  {
    if s.readyState == OPEN && s.handle.Some? {
      var job := SendJob(s.handle.value, p, ByteLength(p));
      AppendKeepsLine(s.jobs, s.accepted, job);
      AppendJob(s.jobs, job);
    }
  }

  lemma CloseKeepsQueue(s: Socket, code: Option<nat>, reason: Option<string>)
    requires SocketOk(s) && QueueOk(s)
    ensures QueueOk(Close(s, code, reason)) && Position(Close(s, code, reason)) == Position(s)
  {
    var s' := Close(s, code, reason);
    if s'.jobs != s.jobs {
      AppendKeepsLine(s.jobs, s.accepted, s'.jobs[|s.jobs|]);
      AppendJob(s.jobs, s'.jobs[|s.jobs|]);
    }
  }

  /** Reporting an error leaves the queue alone. */
  lemma ErrorLeavesQueue(s: Socket, origin: Origin)
    requires s.openSettled <==> s.openOutcomes != []
    ensures SameQueue(s, HandleError(s, origin))
    ensures Opened(HandleError(s, origin)) ==> Opened(s)
  {}

  lemma SettledJobKeepsQueue(s: Socket)
    requires QueueOk(s) && s.jobs != [] && s.jobs[0].CloseJob?
    ensures QueueOk(s.(jobs := s.jobs[1..], phase := Waiting))
    ensures Position(s.(jobs := s.jobs[1..], phase := Waiting)) == Position(s)
  {
    PopKeepsLine(s.jobs, s.accepted);
  }

  lemma CatchKeepsQueue(s: Socket)
    requires SocketOk(s) && QueueOk(s) && s.jobs != [] && s.phase.Finished?
    ensures QueueOk(JobCatch(s)) && Position(JobCatch(s)) == Position(s)
  {
    if s.jobs[0].SendJob? {
      var caught := s.(phase := Caught);
      ErrorLeavesQueue(caught, FromSend);
      SameQueueOk(s, JobCatch(s));
    } else {
      SettledJobKeepsQueue(s);
      var rest := s.(jobs := s.jobs[1..], phase := Waiting);
      ErrorLeavesQueue(rest, FromClose);
      SameQueueOk(rest, JobCatch(s));
    }
  }

  lemma FinallyKeepsQueue(s: Socket)
    requires QueueOk(s) && s.jobs != [] && s.jobs[0].SendJob?
    ensures QueueOk(JobFinally(s)) && Position(JobFinally(s)) == Position(s) + 1
  {
    PopKeepsLine(s.jobs, s.accepted);
  }

  /** The fields that only `send`, `close` and the queue itself touch. */
  ghost predicate SameQueue(s: Socket, s': Socket) {
    && s'.jobs == s.jobs && s'.accepted == s.accepted && s'.closeEnqueued == s.closeEnqueued
    && s'.bufferedAmount == s.bufferedAmount && s'.discarded == s.discarded
    && (Opened(s) ==> Opened(s'))
  }

  predicate TouchesQueue(t: ScriptStep) { IsCall(t) || t.DoJobCatch? || t.DoJobFinally? }

  predicate IsContinuation(t: ScriptStep) { t.DoResume? || t.DoReadSettled? }

  lemma ResumeLeavesQueue(s: Socket)
    requires SocketOk(s) && ScriptEnabled(s, DoResume)
    ensures SameQueue(s, Resume(s).0)
  {}

  lemma PumpLeavesQueue(s: Socket)
    requires SocketOk(s) && ScriptEnabled(s, DoReadSettled)
    ensures SameQueue(s, ReadSettled(s))
  {}

  lemma ContinuationLeavesQueue(s: Socket, t: ScriptStep)
    requires SocketOk(s) && ScriptEnabled(s, t) && IsContinuation(t)
    ensures SameQueue(s, ScriptEffect(s, t).0)
  {
    if t.DoResume? { ResumeLeavesQueue(s); } else { PumpLeavesQueue(s); }
  }

  lemma ConnectLeavesQueue(s: Socket, t: ScriptStep)
    requires SocketOk(s) && ScriptEnabled(s, t) && !TouchesQueue(t) && !IsContinuation(t)
    ensures SameQueue(s, ScriptEffect(s, t).0)
  {
    ScriptAdvances(s, t);
  }

  lemma ScriptLeavesQueue(s: Socket, t: ScriptStep)
    requires SocketOk(s) && ScriptEnabled(s, t) && !TouchesQueue(t)
    ensures SameQueue(s, ScriptEffect(s, t).0)
  {
    if IsContinuation(t) { ContinuationLeavesQueue(s, t); } else { ConnectLeavesQueue(s, t); }
  }

  lemma SameQueueOk(s: Socket, s': Socket)
    requires QueueOk(s) && SameQueue(s, s')
    ensures QueueOk(s') && Position(s') == Position(s)
  {}

  lemma ScriptKeepsQueue(s: Socket, t: ScriptStep)
    requires SocketOk(s) && ScriptEnabled(s, t) && QueueOk(s)
    ensures QueueOk(ScriptEffect(s, t).0)
    ensures Position(ScriptEffect(s, t).0) == Position(s) + (if t.DoJobFinally? then 1 else 0)
  {
    if !TouchesQueue(t) {
      ScriptLeavesQueue(s, t);
      SameQueueOk(s, ScriptEffect(s, t).0);
    } else {
      match t
      case CallSend(p) => SendKeepsQueue(s, p);
      case CallClose(code, reason) => CloseKeepsQueue(s, code, reason);
      case DoJobCatch => CatchKeepsQueue(s);
      case DoJobFinally => FinallyKeepsQueue(s);
    }
  }

  // ----- the wire -----

  predicate Early(phase: Phase) { phase.Waiting? || phase.Issued? || phase.Holding? || phase.InChannel? }

  /** A command can still reach a task that writes. */
  predicate CanWrite(y: System) {
    && y.conn.Some? && y.conn.value.task.Running?
    && (y.conn.value.handle in y.store || y.js.phase.Holding? || y.js.phase.InChannel?)
  }

  /** The wire before the close frame, if there is one. */
  ghost predicate WireOk(y: System) {
    && y.written <= |y.js.accepted|
    && (y.conn.None? ==> y.written == 0)
    && (y.conn.Some? ==>
          var wire, body := y.conn.value.wire, Frames(y.js.accepted, y.unreadable, y.written);
          wire == body || (CloseSent(y) && |wire| == |body| + 1 && wire[..|body|] == body && wire[|body|].CloseFrame?))
  }

  /** What is true once the close frame may have been written. */
  predicate CloseSent(y: System) {
    && y.written == |y.js.accepted| && y.js.closeEnqueued
    && (y.js.jobs == [] || (y.js.jobs[0].CloseJob? && !Early(y.js.phase)))
  }

  /** Where the head of the queue stands relative to the written frames. */
  ghost predicate ProgressOk(y: System) {
    var p := Position(y.js);
    && y.written <= (if Early(y.js.phase) then p else p + 1)
    && (forall i :: i in y.unreadable ==>
          i < p || (i == p && y.js.jobs != [] && y.js.jobs[0].SendJob? && !Early(y.js.phase)))
    && (y.js.phase == Acked(false) ==> !CanWrite(y))
    && (CanWrite(y) ==>
          y.written == if y.js.jobs == [] || y.js.jobs[0].CloseJob? || Early(y.js.phase) then p else p + 1)
  }

  ghost predicate DeliveryOk(y: System) { QueueOk(y.js) && WireOk(y) && ProgressOk(y) }

  lemma CallSendKeepsDelivery(y: System, p: Payload)
    requires Safe(y) && DeliveryOk(y)
    ensures DeliveryOk(ScriptApply(y, CallSend(p)))
  {
    ScriptKeepsQueue(y.js, CallSend(p));
    FramesIgnoreLater(y.js.accepted, p, y.unreadable, |y.js.accepted|, y.written);
  }

  /** `close` leaves the queue alone or puts the one close job at its end. */
  predicate ExtendedByClose(s: Socket, z: Socket) {
    && z.accepted == s.accepted && z.phase == s.phase
    && (|| (z.jobs == s.jobs && z.closeEnqueued == s.closeEnqueued)
        || (|z.jobs| == |s.jobs| + 1 && z.jobs[..|s.jobs|] == s.jobs && z.jobs[|s.jobs|].CloseJob? && !s.closeEnqueued))
  }

  lemma CloseExtends(s: Socket, code: Option<nat>, reason: Option<string>)
    ensures ExtendedByClose(s, Close(s, code, reason))
  {}

  lemma ExtendedKeepsWire(y: System, z: Socket)
    requires DeliveryOk(y) && ExtendedByClose(y.js, z) && QueueOk(z) && Position(z) == Position(y.js)
    requires y.js.jobs == [] ==> y.js.phase.Waiting?
    ensures DeliveryOk(y.(js := z))
  {}

  lemma CallCloseKeepsDelivery(y: System, code: Option<nat>, reason: Option<string>)
    requires Safe(y) && DeliveryOk(y)
    ensures DeliveryOk(ScriptApply(y, CallClose(code, reason)))
  {
    var z := Close(y.js, code, reason);
    CloseKeepsQueue(y.js, code, reason);
    CloseExtends(y.js, code, reason);
    ExtendedKeepsWire(y, z);
    assert ScriptApply(y, CallClose(code, reason)) == y.(js := z);
  }

  lemma CallKeepsDelivery(y: System, t: ScriptStep)
    requires Safe(y) && ScriptEnabled(y.js, t) && IsCall(t) && DeliveryOk(y)
    ensures DeliveryOk(ScriptApply(y, t))
  {
    if t.CallSend? { CallSendKeepsDelivery(y, t.payload); } else { CallCloseKeepsDelivery(y, t.code, t.reason); }
  }

  lemma StartKeepsDelivery(y: System, t: ScriptStep)
    requires Safe(y) && ScriptEnabled(y.js, t) && t.DoJobStart? && DeliveryOk(y)
    ensures DeliveryOk(ScriptApply(y, t))
  {
    ScriptKeepsQueue(y.js, t);
    FramesIgnoreLater(y.js.accepted, Text(""), y.unreadable, Position(y.js), y.written);
  }

  /** Only the phase moves, from finished to caught. */
  lemma CaughtKeepsDelivery(y: System, z: Socket)
    requires DeliveryOk(y) && y.js.jobs != [] && y.js.phase.Finished? && QueueOk(z)
    requires z.jobs == y.js.jobs && z.accepted == y.js.accepted && z.closeEnqueued == y.js.closeEnqueued && z.phase.Caught?
    ensures DeliveryOk(y.(js := z))
  {}

  lemma CatchSendKeepsDelivery(y: System)
    requires Safe(y) && ScriptEnabled(y.js, DoJobCatch) && DeliveryOk(y) && y.js.jobs[0].SendJob?
    ensures DeliveryOk(ScriptApply(y, DoJobCatch))
  {
    hide HandlesOk;
    CatchKeepsQueue(y.js);
    CaughtKeepsDelivery(y, JobCatch(y.js));
    assert ScriptApply(y, DoJobCatch) == y.(js := JobCatch(y.js));
  }

  lemma CatchCloseKeepsDelivery(y: System)
    requires Safe(y) && ScriptEnabled(y.js, DoJobCatch) && DeliveryOk(y) && y.js.jobs[0].CloseJob?
    ensures DeliveryOk(ScriptApply(y, DoJobCatch))
  {
    CatchKeepsQueue(y.js);
  }

  lemma CatchKeepsDelivery(y: System)
    requires Safe(y) && ScriptEnabled(y.js, DoJobCatch) && DeliveryOk(y)
    ensures DeliveryOk(ScriptApply(y, DoJobCatch))
  {
    if y.js.jobs[0].SendJob? { CatchSendKeepsDelivery(y); } else { CatchCloseKeepsDelivery(y); }
  }

  lemma FinallyKeepsDelivery(y: System)
    requires Safe(y) && ScriptEnabled(y.js, DoJobFinally) && DeliveryOk(y)
    ensures DeliveryOk(ScriptApply(y, DoJobFinally))
  {
    FinallyKeepsQueue(y.js);
  }

  /** Steps that touch neither the queue nor the wire, and do not revive a connection. */
  ghost predicate Quiet(y: System, z: System) {
    && SameQueue(y.js, z.js) && z.js.phase == y.js.phase
    && z.written == y.written && z.unreadable == y.unreadable
    && (CanWrite(z) ==> CanWrite(y))
    && (z.conn.None? <==> y.conn.None?) && (y.conn.Some? ==> z.conn.value.wire == y.conn.value.wire)
  }

  lemma QuietKeepsDelivery(y: System, z: System)
    requires DeliveryOk(y) && Quiet(y, z)
    ensures DeliveryOk(z)
  {
    SameQueueOk(y.js, z.js);
  }

  lemma ScriptIsQuiet(y: System, t: ScriptStep)
    requires Safe(y) && ScriptEnabled(y.js, t) && !IsCall(t) && !IsQueue(t)
    ensures Quiet(y, ScriptApply(y, t))
  {
    ScriptLeavesQueue(y.js, t);
  }

  lemma ScriptKeepsDelivery(y: System, t: ScriptStep)
    requires Safe(y) && ScriptEnabled(y.js, t) && DeliveryOk(y)
    ensures DeliveryOk(ScriptApply(y, t))
  {
    if IsCall(t) { CallKeepsDelivery(y, t); }
    else if t.DoJobStart? { StartKeepsDelivery(y, t); }
    else if t.DoJobCatch? { CatchKeepsDelivery(y); }
    else if t.DoJobFinally? { FinallyKeepsDelivery(y); }
    else {
      ScriptIsQuiet(y, t);
      QuietKeepsDelivery(y, ScriptApply(y, t));
    }
  }

  lemma ThreadIsQuiet(y: System, t: ThreadStep)
    requires Safe(y) && ThreadEnabled(y, t) && !IsJobThread(t) && !t.DialDone?
    ensures Quiet(y, ThreadApply(y, t))
  {}

  lemma JobThreadKeepsDelivery(y: System, t: ThreadStep)
    requires Safe(y) && ThreadEnabled(y, t) && IsJobThread(t) && DeliveryOk(y)
    ensures DeliveryOk(ThreadApply(y, t))
  {
    SameQueueOk(y.js, ThreadApply(y, t).js);
  }

  lemma DialKeepsDelivery(y: System, t: ThreadStep)
    requires Safe(y) && ThreadEnabled(y, t) && t.DialDone? && DeliveryOk(y)
    ensures DeliveryOk(ThreadApply(y, t))
  {}

  lemma ThreadKeepsDelivery(y: System, t: ThreadStep)
    requires Safe(y) && ThreadEnabled(y, t) && DeliveryOk(y)
    ensures DeliveryOk(ThreadApply(y, t))
  {
    if IsJobThread(t) { JobThreadKeepsDelivery(y, t); }
    else if t.DialDone? { DialKeepsDelivery(y, t); }
    else {
      ThreadIsQuiet(y, t);
      QuietKeepsDelivery(y, ThreadApply(y, t));
    }
  }

  lemma WriteKeepsDelivery(y: System, ok: bool)
    requires Safe(y) && TaskEnabled(y, TaskWrite(ok)) && DeliveryOk(y)
    ensures DeliveryOk(TaskApply(y, TaskWrite(ok)))
  {
    SameQueueOk(y.js, TaskApply(y, TaskWrite(ok)).js);
  }

  lemma TaskKeepsDelivery(y: System, t: TaskStep)
    requires Safe(y) && TaskEnabled(y, t) && DeliveryOk(y)
    ensures DeliveryOk(TaskApply(y, t))
  {
    if t.TaskWrite? { WriteKeepsDelivery(y, t.ok); }
    else { QuietKeepsDelivery(y, TaskApply(y, t)); }
  }

  lemma StepKeepsDelivery(y: System, t: Step)
    requires Safe(y) && Enabled(y, t) && DeliveryOk(y)
    ensures DeliveryOk(Apply(y, t))
  {
    match t
    case Script(t) => ScriptKeepsDelivery(y, t);
    case Thread(t) => ThreadKeepsDelivery(y, t);
    case Task(t) => TaskKeepsDelivery(y, t);
  }

  lemma {:induction false} RunKeepsDelivery(y: System, steps: seq<Step>)
    requires Safe(y) && DeliveryOk(y) && ValidRun(y, steps)
    ensures DeliveryOk(Run(y, steps))
    decreases |steps|
  {
    if steps == [] {
    } else {
      StepKeepsDelivery(y, steps[0]);
      StepKeepsSafe(y, steps[0]);
      RunKeepsDelivery(Apply(y, steps[0]), steps[1..]);
    }
  }

  lemma DeliveryInitially(y: System)
    requires Initial(y)
    ensures DeliveryOk(y)
  {
    EmptyQueueOk(y.js);
    EmptyWireOk(y);
  }

  lemma EmptyWireOk(y: System)
    requires Initial(y)
    ensures WireOk(y) && ProgressOk(y)
  {}

  lemma EmptyQueueOk(s: Socket)
    requires s == FRESH_SOCKET
    ensures QueueOk(s)
  {}

  lemma ReachableDelivery(z: System)
    requires Reachable(z)
    ensures Safe(z) && DeliveryOk(z)
  {
    var y: System, steps: seq<Step> :| Initial(y) && ValidRun(y, steps) && Run(y, steps) == z;
    SafeInitially(y);
    DeliveryInitially(y);
    RunKeepsDelivery(y, steps);
    ReachableIsSafe(z);
  }

  // ----- sizes, and sends that cannot be read -----

  predicate Sized(jobs: seq<Job>) { forall i :: 0 <= i < |jobs| && jobs[i].SendJob? ==> jobs[i].size == ByteLength(jobs[i].payload) }

  lemma CallKeepsSizes(s: Socket, t: ScriptStep)
    requires ScriptEnabled(s, t) && IsCall(t) && Sized(s.jobs)
    ensures Sized(ScriptEffect(s, t).0.jobs)
  {}

  lemma PopKeepsSizes(s: Socket, t: ScriptStep)
    requires ScriptEnabled(s, t) && (t.DoJobCatch? || t.DoJobFinally?) && Sized(s.jobs)
    ensures Sized(ScriptEffect(s, t).0.jobs)
  {}

  lemma StepKeepsSizes(y: System, t: Step)
    requires Safe(y) && Enabled(y, t) && Sized(y.js.jobs)
    ensures Sized(Apply(y, t).js.jobs)
  {
    if t.Script? {
      if !TouchesQueue(t.script) { ScriptLeavesQueue(y.js, t.script); }
      else if IsCall(t.script) { CallKeepsSizes(y.js, t.script); }
      else { PopKeepsSizes(y.js, t.script); }
    }
  }

  /** Pending bytes are the bytes of the newest accepted sends. */
  lemma {:induction false} PendingIsTail(jobs: seq<Job>, accepted: seq<Payload>)
    requires Lined(jobs, accepted) && Sized(jobs)
    ensures Pending(jobs) == TotalBytes(accepted[|accepted| - SendJobs(jobs)..])
    decreases |jobs|
  {
    if jobs == [] {
    } else {
      var tail := accepted[|accepted| - SendJobs(jobs)..];
      PopKeepsLine(jobs, accepted);
      PendingIsTail(jobs[1..], accepted);
      if jobs[0].SendJob? { assert tail[1..] == accepted[|accepted| - SendJobs(jobs[1..])..]; }
    }
  }

  predicate IsFinally(t: Step) { t == Script(DoJobFinally) }

  /** How many sends have settled. */
  function SettledSends(steps: seq<Step>): nat {
    if steps == [] then 0 else (if IsFinally(steps[0]) then 1 else 0) + SettledSends(steps[1..])
  }

  /** The positions of the sends whose blob could not be read, when `before` have settled already. */
  function Unread(steps: seq<Step>, before: int): set<int> {
    if steps == [] then {}
    else
      (if steps[0] == Script(DoJobStart(false)) then {before} else {}) +
      Unread(steps[1..], if IsFinally(steps[0]) then before + 1 else before)
  }

  /** Native steps leave what the script did alone. */
  predicate SameScript(s: Socket, z: Socket) {
    && z.jobs == s.jobs && z.accepted == s.accepted && z.closeRequest == s.closeRequest
    && z.closeEnqueued == s.closeEnqueued && z.readyState == s.readyState && z.openOutcomes == s.openOutcomes
  }

  lemma ThreadKeepsScript(y: System, t: ThreadStep)
    requires ThreadEnabled(y, t)
    ensures SameScript(y.js, ThreadApply(y, t).js)
  {}

  lemma NativeKeepsScript(y: System, t: Step)
    requires Enabled(y, t) && !t.Script?
    ensures SameScript(y.js, Apply(y, t).js)
  {
    if t.Thread? { ThreadKeepsScript(y, t.thread); }
  }

  lemma StepMovesPosition(y: System, t: Step)
    requires Safe(y) && Enabled(y, t) && QueueOk(y.js)
    ensures Position(Apply(y, t).js) == Position(y.js) + (if IsFinally(t) then 1 else 0)
  {
    if t.Script? { ScriptKeepsQueue(y.js, t.script); } else { NativeKeepsScript(y, t); }
  }

  lemma StepSkips(y: System, t: Step)
    requires Enabled(y, t)
    ensures Apply(y, t).unreadable == y.unreadable + (if t == Script(DoJobStart(false)) then {Position(y.js)} else {})
  {}

  /** Only blobs are skipped. */
  ghost predicate BlobsOnly(unreadable: set<int>, accepted: seq<Payload>) {
    forall i :: i in unreadable ==> 0 <= i < |accepted| && accepted[i].BlobData?
  }

  lemma StepKeepsBlobs(y: System, t: Step)
    requires Safe(y) && Enabled(y, t) && QueueOk(y.js) && BlobsOnly(y.unreadable, y.js.accepted)
    ensures BlobsOnly(Apply(y, t).unreadable, Apply(y, t).js.accepted)
  {
    StepSends(y, t);
    StepSkips(y, t);
    if t == Script(DoJobStart(false)) { assert y.js.jobs[0].payload == y.js.accepted[Position(y.js)]; }
  }

  ghost predicate QueueRun(y: System) { DeliveryOk(y) && Sized(y.js.jobs) && BlobsOnly(y.unreadable, y.js.accepted) }

  lemma StepKeepsQueueRun(y: System, t: Step)
    requires Safe(y) && Enabled(y, t) && QueueRun(y)
    ensures QueueRun(Apply(y, t))
  {
    StepKeepsDelivery(y, t);
    StepKeepsSizes(y, t);
    StepKeepsBlobs(y, t);
  }

  lemma {:induction false} RunKeepsQueueRun(y: System, steps: seq<Step>)
    requires Safe(y) && QueueRun(y) && ValidRun(y, steps)
    ensures QueueRun(Run(y, steps))
    decreases |steps|
  {
    if steps == [] {
    } else {
      StepKeepsQueueRun(y, steps[0]);
      StepKeepsSafe(y, steps[0]);
      RunKeepsQueueRun(Apply(y, steps[0]), steps[1..]);
    }
  }

  lemma {:induction false} RunMovesPosition(y: System, steps: seq<Step>)
    requires Safe(y) && QueueRun(y) && ValidRun(y, steps)
    ensures Position(Run(y, steps).js) == Position(y.js) + SettledSends(steps)
    decreases |steps|
  {
    if steps == [] {
    } else {
      StepKeepsQueueRun(y, steps[0]);
      StepMovesPosition(y, steps[0]);
      StepKeepsSafe(y, steps[0]);
      RunMovesPosition(Apply(y, steps[0]), steps[1..]);
    }
  }

  /** What a step skips, and then what the rest of the run skips. */
  lemma SkipsChain(before: set<int>, t: Step, later: seq<Step>, at: int, next: int, between: set<int>, end: set<int>)
    requires next == (if IsFinally(t) then at + 1 else at)
    requires between == before + (if t == Script(DoJobStart(false)) then {at} else {})
    requires end == between + Unread(later, next)
    ensures end == before + Unread([t] + later, at)
  {
    assert ([t] + later)[1..] == later;
  }

  lemma {:induction false} RunSkips(y: System, steps: seq<Step>)
    requires Safe(y) && QueueRun(y) && ValidRun(y, steps)
    ensures Run(y, steps).unreadable == y.unreadable + Unread(steps, Position(y.js))
    decreases |steps|
  {
    if steps == [] {
    } else {
      var z := Apply(y, steps[0]);
      StepKeepsQueueRun(y, steps[0]);
      StepMovesPosition(y, steps[0]);
      StepSkips(y, steps[0]);
      StepKeepsSafe(y, steps[0]);
      RunSkips(z, steps[1..]);
      SkipsChain(y.unreadable, steps[0], steps[1..], Position(y.js), Position(z.js), z.unreadable, Run(z, steps[1..]).unreadable);
      assert [steps[0]] + steps[1..] == steps;
    }
  }

  // ----- the closing handshake -----

  /** The first call of `close` with legal arguments. */
  function FirstClose(before: Option<CloseRequest>, steps: seq<Step>): Option<CloseRequest>
    decreases |steps|
  {
    if steps == [] then before else FirstClose(CloseAsked(before, steps[0]), steps[1..])
  }

  function CloseAsked(before: Option<CloseRequest>, t: Step): Option<CloseRequest> {
    if before.None? && t.Script? && t.script.CallClose? && LegalClose(t.script.code, t.script.reason)
    then Some(CloseRequest(t.script.code, t.script.reason)) else before
  }

  function ReasonText(r: CloseRequest): string { if r.reason.Some? then r.reason.value else "" }

  /** What the close frame says for a call of `close`: nothing when the call gave neither code nor
      reason, and code 1000 when it gave a reason only. */
  function StatusFor(r: CloseRequest): Option<(nat, string)> {
    if r.code.None? && ReasonText(r) == "" then None
    else Some((if r.code.Some? then r.code.value else 1000, ReasonText(r)))
  }

  predicate Repeats(r: CloseRequest, first: CloseRequest) { r.code == first.code && ReasonText(r) == ReasonText(first) }

  /** The script side of the handshake, for the first legal call so far. */
  ghost predicate Asked(s: Socket, first: Option<CloseRequest>) {
    && (first.Some? ==> s.readyState >= CLOSING)
    && (s.closeRequest.Some? ==> first.Some? && Repeats(s.closeRequest.value, first.value))
    && (forall i :: 0 <= i < |s.jobs| && s.jobs[i].CloseJob? ==>
          s.closeRequest == Some(CloseRequest(s.jobs[i].code, s.jobs[i].reason)))
    && (Opened(s) && s.readyState == CLOSING ==> s.closeEnqueued)
    && CloseIsLast(s)
  }

  lemma CallCloseAsks(s: Socket, code: Option<nat>, reason: Option<string>, first: Option<CloseRequest>)
    requires SocketOk(s) && Asked(s, first)
    ensures Asked(Close(s, code, reason), CloseAsked(first, Script(CallClose(code, reason))))
  {}

  lemma CallSendAsks(s: Socket, p: Payload, first: Option<CloseRequest>)
    requires SocketOk(s) && Asked(s, first)
    ensures Asked(Send(s, p), first)
  {}

  lemma QueueAsks(s: Socket, t: ScriptStep, first: Option<CloseRequest>)
    requires SocketOk(s) && ScriptEnabled(s, t) && IsQueue(t) && Asked(s, first)
    ensures Asked(ScriptEffect(s, t).0, first)
  {}

  lemma ConnectAsks(s: Socket, t: ScriptStep, first: Option<CloseRequest>)
    requires SocketOk(s) && ScriptEnabled(s, t) && IsConnect(t) && Asked(s, first)
    ensures Asked(ScriptEffect(s, t).0, first)
  {}

  lemma PumpAsks(s: Socket, t: ScriptStep, first: Option<CloseRequest>)
    requires SocketOk(s) && ScriptEnabled(s, t) && IsPump(t) && Asked(s, first)
    ensures Asked(ScriptEffect(s, t).0, first)
  {}

  lemma ResumeAsks(s: Socket, t: ScriptStep, first: Option<CloseRequest>)
    requires SocketOk(s) && ScriptEnabled(s, t) && IsResume(t) && Asked(s, first)
    ensures Asked(ScriptEffect(s, t).0, first)
  {}

  lemma ScriptAsks(s: Socket, t: ScriptStep, first: Option<CloseRequest>)
    requires SocketOk(s) && ScriptEnabled(s, t) && !t.CallClose? && Asked(s, first)
    ensures Asked(ScriptEffect(s, t).0, first)
  {
    if t.CallSend? { CallSendAsks(s, t.payload, first); }
    else if IsQueue(t) { QueueAsks(s, t, first); }
    else if IsConnect(t) { ConnectAsks(s, t, first); }
    else if IsPump(t) { PumpAsks(s, t, first); }
    else { ResumeAsks(s, t, first); }
  }

  lemma SameScriptAsks(s: Socket, z: Socket, first: Option<CloseRequest>)
    requires SameScript(s, z) && Asked(s, first)
    ensures Asked(z, first)
  {}

  lemma StepAsks(y: System, t: Step, first: Option<CloseRequest>)
    requires Safe(y) && Enabled(y, t) && Asked(y.js, first)
    ensures Asked(Apply(y, t).js, CloseAsked(first, t))
  {
    if !t.Script? {
      NativeKeepsScript(y, t);
      SameScriptAsks(y.js, Apply(y, t).js, first);
    }
    else if t.script.CallClose? { CallCloseAsks(y.js, t.script.code, t.script.reason, first); }
    else { ScriptAsks(y.js, t.script, first); }
  }

  /** Every close frame says what the first legal call asked for. */
  ghost predicate FramesAsAsked(wire: seq<Frame>, first: Option<CloseRequest>) {
    forall i :: 0 <= i < |wire| && wire[i].CloseFrame? ==> first.Some? && wire[i].status == StatusFor(first.value)
  }

  function WireOf(y: System): seq<Frame> { if y.conn.Some? then y.conn.value.wire else [] }

  /** The close job waits, or has not reached the wire yet. */
  predicate ClosePending(y: System) { EndsWithClose(y.js.jobs) && (|y.js.jobs| > 1 || Early(y.js.phase)) }

  /** A close job that left the queue of a working connection is on the wire. */
  predicate CloseArrives(y: System) {
    y.js.closeEnqueued && CanWrite(y) && !ClosePending(y) ==> WireOf(y) != [] && WireOf(y)[|WireOf(y)| - 1].CloseFrame?
  }

  lemma CommandSaysAsked(s: Socket, first: Option<CloseRequest>)
    requires Asked(s, first) && s.jobs != []
    ensures CommandFrame(s.jobs[0]).CloseFrame? ==> first.Some? && CommandFrame(s.jobs[0]).status == StatusFor(first.value)
  {
    if s.jobs[0].CloseJob? { assert s.closeRequest == Some(CloseRequest(s.jobs[0].code, s.jobs[0].reason)); }
  }

  /** The wire grows only by the frame of the job at the head of the queue. */
  lemma StepWrites(y: System, t: Step)
    requires Safe(y) && Enabled(y, t)
    ensures WireOf(Apply(y, t)) == WireOf(y) + if t == Task(TaskWrite(true)) then [CommandFrame(y.js.jobs[0])] else []
  {}

  lemma StepKeepsFrames(y: System, t: Step, first: Option<CloseRequest>)
    requires Safe(y) && Enabled(y, t) && Asked(y.js, first) && FramesAsAsked(WireOf(y), first)
    ensures FramesAsAsked(WireOf(Apply(y, t)), CloseAsked(first, t))
  {
    StepWrites(y, t);
    if t == Task(TaskWrite(true)) { CommandSaysAsked(y.js, first); }
  }

  predicate CloseIsLast(s: Socket) { s.closeEnqueued ==> Opened(s) && (s.jobs != [] ==> EndsWithClose(s.jobs)) }

  lemma CallKeepsArrival(y: System, t: ScriptStep)
    requires Safe(y) && ScriptEnabled(y.js, t) && IsCall(t) && QueueOk(y.js) && CloseIsLast(y.js) && CloseArrives(y)
    ensures CloseArrives(ScriptApply(y, t))
  {}

  lemma QueueKeepsArrival(y: System, t: ScriptStep)
    requires Safe(y) && ScriptEnabled(y.js, t) && IsQueue(t) && QueueOk(y.js) && CloseIsLast(y.js) && CloseArrives(y)
    ensures CloseArrives(ScriptApply(y, t))
  {}

  lemma QuietKeepsArrival(y: System, z: System)
    requires Quiet(y, z) && CloseArrives(y)
    ensures CloseArrives(z)
  {}

  lemma ScriptKeepsArrival(y: System, t: ScriptStep)
    requires Safe(y) && ScriptEnabled(y.js, t) && QueueOk(y.js) && CloseIsLast(y.js) && CloseArrives(y)
    ensures CloseArrives(ScriptApply(y, t))
  {
    if IsCall(t) { CallKeepsArrival(y, t); }
    else if IsQueue(t) { QueueKeepsArrival(y, t); }
    else {
      ScriptIsQuiet(y, t);
      QuietKeepsArrival(y, ScriptApply(y, t));
    }
  }

  lemma JobThreadKeepsArrival(y: System, t: ThreadStep)
    requires Safe(y) && ThreadEnabled(y, t) && IsJobThread(t) && DeliveryOk(y) && CloseIsLast(y.js) && CloseArrives(y)
    ensures CloseArrives(ThreadApply(y, t))
  {
    assert y.conn.Some? ==> y.js.jobs[0].handle == y.conn.value.handle;
  }

  lemma DialKeepsArrival(y: System, t: ThreadStep)
    requires Safe(y) && ThreadEnabled(y, t) && t.DialDone? && CloseIsLast(y.js) && CloseArrives(y)
    ensures CloseArrives(ThreadApply(y, t))
  {}

  lemma WriteKeepsArrival(y: System, ok: bool)
    requires Safe(y) && TaskEnabled(y, TaskWrite(ok)) && DeliveryOk(y) && CloseIsLast(y.js) && CloseArrives(y)
    ensures CloseArrives(TaskApply(y, TaskWrite(ok)))
  {}

  lemma TaskIsQuiet(y: System, t: TaskStep)
    requires Safe(y) && TaskEnabled(y, t) && !t.TaskWrite?
    ensures Quiet(y, TaskApply(y, t))
  {}

  lemma StepKeepsArrival(y: System, t: Step)
    requires Safe(y) && Enabled(y, t) && DeliveryOk(y) && CloseIsLast(y.js) && CloseArrives(y)
    ensures CloseArrives(Apply(y, t))
  {
    match t
    case Script(t) => ScriptKeepsArrival(y, t);
    case Thread(t) =>
      if IsJobThread(t) { JobThreadKeepsArrival(y, t); }
      else if t.DialDone? { DialKeepsArrival(y, t); }
      else {
        ThreadIsQuiet(y, t);
        QuietKeepsArrival(y, ThreadApply(y, t));
      }
    case Task(t) =>
      if t.TaskWrite? { WriteKeepsArrival(y, t.ok); }
      else {
        TaskIsQuiet(y, t);
        QuietKeepsArrival(y, TaskApply(y, t));
      }
  }

  ghost predicate Handshake(y: System, first: Option<CloseRequest>) {
    DeliveryOk(y) && Asked(y.js, first) && FramesAsAsked(WireOf(y), first) && CloseArrives(y)
  }

  lemma {:induction false} RunKeepsHandshake(y: System, steps: seq<Step>, first: Option<CloseRequest>)
    requires Safe(y) && ValidRun(y, steps) && Handshake(y, first)
    ensures Handshake(Run(y, steps), FirstClose(first, steps))
    decreases |steps|
  {
    if steps == [] {
    } else {
      StepKeepsDelivery(y, steps[0]);
      StepAsks(y, steps[0], first);
      StepKeepsFrames(y, steps[0], first);
      StepKeepsArrival(y, steps[0]);
      StepKeepsSafe(y, steps[0]);
      RunKeepsHandshake(Apply(y, steps[0]), steps[1..], CloseAsked(first, steps[0]));
    }
  }

  // ----- what a reader may rely on -----

  lemma AskedInitially(y: System)
    requires y.js == FRESH_SOCKET && y.conn == None
    ensures Asked(y.js, None) && FramesAsAsked(WireOf(y), None) && CloseArrives(y)
  {}

  lemma SizesInitially(y: System)
    requires y.js == FRESH_SOCKET && y.unreadable == {}
    ensures Sized(y.js.jobs) && BlobsOnly(y.unreadable, y.js.accepted) && Position(y.js) == 0
  {}

  lemma QueueRunOf(y: System)
    requires DeliveryOk(y) && Sized(y.js.jobs) && BlobsOnly(y.unreadable, y.js.accepted)
    ensures QueueRun(y)
  {}

  lemma QueueInitially(y: System)
    requires Initial(y)
    ensures Safe(y) && QueueRun(y) && Position(y.js) == 0
  {
    SafeInitially(y);
    DeliveryInitially(y);
    SizesInitially(y);
    QueueRunOf(y);
  }

  lemma FromPositionZero(y: System, steps: seq<Step>)
    requires Safe(y) && QueueRun(y) && Position(y.js) == 0 && ValidRun(y, steps)
    ensures Position(Run(y, steps).js) == SettledSends(steps)
  {
    RunMovesPosition(y, steps);
  }

  lemma FromNothingSkipped(y: System, steps: seq<Step>)
    requires Safe(y) && QueueRun(y) && Position(y.js) == 0 && y.unreadable == {} && ValidRun(y, steps)
    ensures Run(y, steps).unreadable == Unread(steps, 0)
  {
    RunSkips(y, steps);
  }

  lemma RunTellsPosition(y: System, steps: seq<Step>)
    requires Initial(y) && ValidRun(y, steps)
    ensures Position(Run(y, steps).js) == SettledSends(steps)
  {
    QueueInitially(y);
    FromPositionZero(y, steps);
  }

  lemma RunTellsSkipped(y: System, steps: seq<Step>)
    requires Initial(y) && ValidRun(y, steps)
    ensures Run(y, steps).unreadable == Unread(steps, 0)
  {
    QueueInitially(y);
    FromNothingSkipped(y, steps);
  }

  lemma RunTellsSends(y: System, steps: seq<Step>)
    requires Initial(y) && ValidRun(y, steps)
    ensures Run(y, steps).js.accepted == Sends(y, steps)
    ensures Run(y, steps).js.discarded == TotalBytes(LateSends(y, steps))
  {
    SafeInitially(y);
    AcceptedAreSends(y, steps);
  }

  lemma RunDelivers(y: System, steps: seq<Step>)
    requires Initial(y) && ValidRun(y, steps)
    ensures QueueRun(Run(y, steps))
  {
    SafeInitially(y);
    QueueInitially(y);
    RunKeepsQueueRun(y, steps);
  }

  lemma RunHandshakes(y: System, steps: seq<Step>)
    requires Initial(y) && ValidRun(y, steps)
    ensures Handshake(Run(y, steps), FirstClose(None, steps))
  {
    SafeInitially(y);
    QueueInitially(y);
    AskedInitially(y);
    RunKeepsHandshake(y, steps, None);
  }

  /** The wire holds, in call order, the first `sent` of the payloads given to `send` while the socket
      was open, without the blobs that could not be read; at most one close frame follows, and only
      after all of them. */
  lemma OrderedDelivery(y: System, steps: seq<Step>) returns (sent: nat)
    requires Initial(y) && ValidRun(y, steps) && Run(y, steps).conn.Some?
    ensures sent <= |Sends(y, steps)| && BlobsOnly(Unread(steps, 0), Sends(y, steps))
    ensures var wire, body := Run(y, steps).conn.value.wire, Frames(Sends(y, steps), Unread(steps, 0), sent);
      || wire == body
      || (|wire| == |body| + 1 && wire[..|body|] == body && wire[|body|].CloseFrame? &&
          sent == |Sends(y, steps)| && FirstClose(None, steps).Some?)
  {
    RunDelivers(y, steps);
    RunHandshakes(y, steps);
    RunTellsSends(y, steps);
    RunTellsSkipped(y, steps);
    sent := Run(y, steps).written;
  }

  /** The frame that carries a payload. */
  predicate Carries(f: Frame, p: Payload) {
    match p
    case Text(text) => f == TextFrame(text)
    case Binary(bytes) => f == BinaryFrame(bytes)
    case BlobData(bytes) => f == BinaryFrame(bytes)
  }

  /** When every payload could be read, data frame i carries the payload of send i. */
  lemma WireIsPrefixOfSends(y: System, steps: seq<Step>, i: nat)
    requires Initial(y) && ValidRun(y, steps) && Run(y, steps).conn.Some? && Unread(steps, 0) == {}
    requires i < |Run(y, steps).conn.value.wire| && !Run(y, steps).conn.value.wire[i].CloseFrame?
    ensures i < |Sends(y, steps)| && Carries(Run(y, steps).conn.value.wire[i], Sends(y, steps)[i])
  {
    var wire := Run(y, steps).conn.value.wire;
    var sent := OrderedDelivery(y, steps);
    FramesWhenReadable(Sends(y, steps), sent);
    var body := Frames(Sends(y, steps), Unread(steps, 0), sent);
    assert i < |body| ==> wire[..|body|][i] == wire[i];
  }

  /** A close frame is on the wire only after all sends, nothing follows it, and it says what the first
      legal call of `close` asked for. */
  lemma CloseFrameIsLast(y: System, steps: seq<Step>, i: nat)
    requires Initial(y) && ValidRun(y, steps) && Run(y, steps).conn.Some?
    requires i < |Run(y, steps).conn.value.wire| && Run(y, steps).conn.value.wire[i].CloseFrame?
    ensures var z, first := Run(y, steps), FirstClose(None, steps);
      && i == |z.conn.value.wire| - 1 && first.Some? && z.conn.value.wire[i].status == StatusFor(first.value)
      && |Frames(Sends(y, steps), Unread(steps, 0), |Sends(y, steps)|)| == i
  {
    RunHandshakes(y, steps);
    var sent := OrderedDelivery(y, steps);
    FramesHoldNoClose(Sends(y, steps), Unread(steps, 0), sent);
  }

  lemma EmptyQueueWire(z: System, first: Option<CloseRequest>)
    requires Handshake(z, first) && z.js.jobs == [] && z.js.phase.Waiting? && CanWrite(z) && z.conn.value.handle in z.store
    ensures var body := Frames(z.js.accepted, z.unreadable, |z.js.accepted|);
            if Opened(z.js) && z.js.readyState == CLOSING
            then first.Some? && z.conn.value.wire == body + [CloseFrame(StatusFor(first.value))]
            else Opened(z.js) && z.js.readyState == OPEN ==> z.conn.value.wire == body
  {
    FramesHoldNoClose(z.js.accepted, z.unreadable, |z.js.accepted|);
  }

  /** An empty queue on a working connection means that everything is on the wire: every readable
      payload, and the close frame if the open socket was asked to close. */
  lemma EmptyQueueIsSent(y: System, steps: seq<Step>)
    requires Initial(y) && ValidRun(y, steps)
    requires var z := Run(y, steps);
             z.js.jobs == [] && z.conn.Some? && z.conn.value.task.Running? && z.conn.value.handle in z.store
    ensures var z, body := Run(y, steps), Frames(Sends(y, steps), Unread(steps, 0), |Sends(y, steps)|);
            if Opened(z.js) && z.js.readyState == CLOSING
            then FirstClose(None, steps).Some? && z.conn.value.wire == body + [CloseFrame(StatusFor(FirstClose(None, steps).value))]
            else z.js.readyState == OPEN ==> z.conn.value.wire == body
  {
    SafeInitially(y);
    RunIsSafe(y, steps);
    RunHandshakes(y, steps);
    RunTellsSends(y, steps);
    RunTellsSkipped(y, steps);
    EmptyQueueWire(Run(y, steps), FirstClose(None, steps));
  }

  lemma {:induction false} FramesHoldNoClose(a: seq<Payload>, unreadable: set<int>, n: nat)
    requires n <= |a|
    ensures forall i :: 0 <= i < |Frames(a, unreadable, n)| ==> !Frames(a, unreadable, n)[i].CloseFrame?
  {
    if n == 0 {
    } else {
      FramesHoldNoClose(a, unreadable, n - 1);
    }
  }

  lemma {:induction false} StoppedRun(y: System, later: seq<Step>)
    requires Safe(y) && ValidRun(y, later) && y.conn.Some? && !y.conn.value.task.Running?
    ensures Run(y, later).conn.Some? && Run(y, later).conn.value.wire == y.conn.value.wire
    decreases |later|
  {
    if later == [] {
    } else {
      StepKeepsSafe(y, later[0]);
      StoppedStaysStopped(y, later[0]);
      StoppedRun(Apply(y, later[0]), later[1..]);
    }
  }

  lemma StoppedStaysStopped(y: System, t: Step)
    requires Safe(y) && Enabled(y, t) && y.conn.Some? && !y.conn.value.task.Running?
    ensures var z := Apply(y, t);
      z.conn.Some? && !z.conn.value.task.Running? && z.conn.value.wire == y.conn.value.wire
  {}

  /** After a failed write, or once the task has ended, the wire never changes again. */
  lemma NothingFollowsFailure(z: System, later: seq<Step>)
    requires Reachable(z) && ValidRun(z, later) && z.conn.Some? && !z.conn.value.task.Running?
    ensures Run(z, later).conn.Some? && Run(z, later).conn.value.wire == z.conn.value.wire
  {
    ReachableIsSafe(z);
    StoppedRun(z, later);
  }

  predicate BytesCounted(s: Socket) {
    0 <= Position(s) <= |s.accepted| && s.bufferedAmount == TotalBytes(s.accepted[Position(s)..]) + s.discarded
  }

  lemma BytesAreCounted(s: Socket)
    requires QueueOk(s) && Sized(s.jobs)
    ensures BytesCounted(s)
  {
    PendingIsTail(s.jobs, s.accepted);
  }

  /** The count in terms of what was sent, sent late and settled. */
  lemma CountedInCalls(s: Socket, sends: seq<Payload>, late: seq<Payload>, settled: nat)
    requires QueueOk(s) && Sized(s.jobs)
    requires s.accepted == sends && s.discarded == TotalBytes(late) && Position(s) == settled
    ensures settled <= |sends| && s.bufferedAmount == TotalBytes(sends[settled..]) + TotalBytes(late)
  {
    BytesAreCounted(s);
  }

  /** What is counted, with the queue settled up to here. */
  ghost predicate CountsFor(s: Socket, sends: seq<Payload>, late: seq<Payload>, settled: nat) {
    settled <= |sends| && s.bufferedAmount == TotalBytes(sends[settled..]) + TotalBytes(late)
  }

  lemma QueueRunCounts(z: System, sends: seq<Payload>, late: seq<Payload>, settled: nat)
    requires QueueRun(z) && z.js.accepted == sends && z.js.discarded == TotalBytes(late) && Position(z.js) == settled
    ensures CountsFor(z.js, sends, late, settled)
  {
    CountedInCalls(z.js, sends, late, settled);
  }

  lemma RunCountsCalls(y: System, steps: seq<Step>, sends: seq<Payload>, late: seq<Payload>, settled: nat)
    requires Safe(y) && QueueRun(y) && ValidRun(y, steps)
    requires var s := Run(y, steps).js; s.accepted == sends && s.discarded == TotalBytes(late) && Position(s) == settled
    ensures settled <= |sends| && Run(y, steps).js.bufferedAmount == TotalBytes(sends[settled..]) + TotalBytes(late)
  {
    RunKeepsQueueRun(y, steps);
    QueueRunCounts(Run(y, steps), sends, late, settled);
  }

  lemma RunCountsFromStart(y: System, steps: seq<Step>, sends: seq<Payload>, late: seq<Payload>, settled: nat)
    requires Initial(y) && ValidRun(y, steps)
    requires var s := Run(y, steps).js; s.accepted == sends && s.discarded == TotalBytes(late) && Position(s) == settled
    ensures settled <= |sends| && Run(y, steps).js.bufferedAmount == TotalBytes(sends[settled..]) + TotalBytes(late)
  {
    QueueInitially(y);
    RunCountsCalls(y, steps, sends, late, settled);
  }

  /** `bufferedAmount` is the bytes of the payloads given to `send` while the socket was open, from the
      first one that has not settled on, plus the bytes of those given to it later. */
  lemma ByteAccounting(y: System, steps: seq<Step>)
    requires Initial(y) && ValidRun(y, steps)
    ensures SettledSends(steps) <= |Sends(y, steps)|
    ensures Run(y, steps).js.bufferedAmount ==
            TotalBytes(Sends(y, steps)[SettledSends(steps)..]) + TotalBytes(LateSends(y, steps))
  {
    RunTellsSends(y, steps);
    RunTellsPosition(y, steps);
    RunCountsFromStart(y, steps, Sends(y, steps), LateSends(y, steps), SettledSends(steps));
  }

  /** So the clamp at zero in the `finally` link never changes the value. */
  lemma ClampIsIdle(z: System)
    requires Reachable(z) && ScriptEnabled(z.js, DoJobFinally)
    ensures ScriptApply(z, DoJobFinally).js.bufferedAmount == z.js.bufferedAmount - z.js.jobs[0].size
  {
    ReachableDelivery(z);
  }
}
