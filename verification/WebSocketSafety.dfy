/** Handle safety across the script and native layers, for every interleaving. */
module WebSocketSafety {
  import opened Basics
  import opened WebSocketModel

  predicate Opened(s: Socket) { s.openOutcomes != [] && s.openOutcomes[0] }

  predicate AfterOpen(t: Turn) {
    t.OpenDispatched? || t.MessageDispatched? ||
    (t.ErrorDispatched? && (t.origin.FromPump? || t.origin.FromSend? || t.origin.FromClose?))
  }

  predicate BeforeOpen(t: Turn) {
    t.ErrorDispatched? && (t.origin.FromConnect? || t.origin.FromMicrotask?)
  }

  /** What holds of the script-side fields alone. */
  ghost predicate SocketOk(s: Socket) {
    && s.readyState <= CLOSED
    && (s.settled <==> s.readyState == CLOSED)
    && (s.settled ==> s.handle.None? && s.openSettled)
    && (s.openSettled <==> s.openOutcomes != []) && |s.openOutcomes| <= 1
    && (s.closeEnqueued ==> s.readyState >= CLOSING)
    && (s.jobs == [] ==> s.phase.Waiting?)
    && (s.read.ReadTaken? ==> !s.read.result.Received?)
    && (if Opened(s) then OpenedOk(s) else UnopenedOk(s))
  }

  ghost predicate OpenedOk(s: Socket) {
    && s.readyState >= OPEN
    && (s.settled || s.handle.Some?)
    && !s.closeMicrotask
    && s.connect.ConnectDone?
    && !BeforeOpen(s.turn)
    && (s.turn.OpenDispatched? || s.turn.MessageDispatched? ==> s.read.NoRead? && !s.settled)
    && (s.turn == ErrorDispatched(FromPump) ==> s.read.NoRead?)
  }

  ghost predicate UnopenedOk(s: Socket) {
    && s.readyState != OPEN
    && s.jobs == [] && s.read.NoRead? && !AfterOpen(s.turn)
    && (s.handle.Some? ==> s.turn == ErrorDispatched(FromConnect))
    && (BeforeOpen(s.turn) ==> !s.settled && s.openSettled)
    && (s.closeMicrotask ==> s.readyState >= CLOSING)
    && (s.turn == ErrorDispatched(FromMicrotask) ==> s.readyState >= CLOSING)
    && (s.readyState >= CLOSING ==> s.openSettled)
    && (s.turn == ErrorDispatched(FromConnect) ==> s.connect.ConnectDone?)
    && (s.readyState == CONNECTING && s.openSettled ==> s.turn == ErrorDispatched(FromConnect))
    && (s.readyState == CLOSING ==> s.closeMicrotask || BeforeOpen(s.turn))
  }

  /** Which handle each part of the system speaks of. */
  ghost predicate HandlesOk(y: System) {
    var s := y.js;
    && (forall h :: h in y.store ==> h < y.next)
    && (s.connect.LoadingCookies? || s.connect.Dialing? || s.connect.Refused? ==> y.conn.None?)
    && (s.connect.Yielded? ==> y.conn.Some?)
    && (if y.conn.None? then s.handle.None? && s.jobs == [] && s.read.NoRead?
        else
          var h := y.conn.value.handle;
          && h < y.next
          && (s.handle.Some? ==> s.handle.value == h)
          && (s.connect.Yielded? ==> s.connect.handle == h)
          && (forall i :: 0 <= i < |s.jobs| ==> s.jobs[i].handle == h)
          && (s.read.ReadIssued? || s.read.ReadHolding? || s.read.ReadTaken? ==> s.read.handle == h)
          && (h in y.store ==> StoredOk(s, h)))
  }

  /** Who is responsible for a handle that is still in the store. */
  ghost predicate StoredOk(s: Socket, h: nat) {
    && (s.connect == Yielded(h) || s.handle == Some(h))
    && !(s.read.ReadDone? && !s.read.result.Received?)
    && s.turn != ErrorDispatched(FromPump) && s.turn != ErrorDispatched(FromClose)
    && !(s.jobs != [] && s.jobs[0].CloseJob? && s.phase == Finished(false))
  }

  ghost predicate Safe(y: System) { SocketOk(y.js) && HandlesOk(y) }

  lemma SafeInitially(y: System)
    requires Initial(y)
    ensures Safe(y)
  {}

  // Script steps by the part of the class they belong to.
  predicate IsCall(t: ScriptStep) { t.CallSend? || t.CallClose? }

  predicate IsConnect(t: ScriptStep) {
    t.DoCookiesLoaded? || t.DoCookiesFailed? || t.DoConnectResolved? || t.DoConnectRejected? || t.DoCloseMicrotask?
  }

  predicate IsQueue(t: ScriptStep) { t.DoJobStart? || t.DoJobCatch? || t.DoJobFinally? }

  predicate IsPump(t: ScriptStep) { t.DoReadSettled? }

  predicate IsResume(t: ScriptStep) { t.DoResume? }

  /** Kept by every script step: the fields agree, and the ready state does not fall. */
  ghost predicate Advances(s: Socket, s': Socket) {
    SocketOk(s') && s.readyState <= s'.readyState && (Opened(s) ==> Opened(s'))
  }

  lemma CallAdvances(s: Socket, t: ScriptStep)
    requires SocketOk(s) && ScriptEnabled(s, t) && IsCall(t)
    ensures Advances(s, ScriptEffect(s, t).0)
  {}

  lemma ConnectAdvances(s: Socket, t: ScriptStep)
    requires SocketOk(s) && ScriptEnabled(s, t) && IsConnect(t)
    ensures Advances(s, ScriptEffect(s, t).0)
  {}

  lemma QueueAdvances(s: Socket, t: ScriptStep)
    requires SocketOk(s) && ScriptEnabled(s, t) && IsQueue(t)
    ensures Advances(s, ScriptEffect(s, t).0)
  {}

  lemma PumpAdvances(s: Socket, t: ScriptStep)
    requires SocketOk(s) && ScriptEnabled(s, t) && IsPump(t)
    ensures Advances(s, ScriptEffect(s, t).0)
  {}

  lemma FailureAdvances(s: Socket)
    requires SocketOk(s) && s.turn.ErrorDispatched?
    ensures Advances(s, Resume(s).0)
  {}

  lemma DispatchAdvances(s: Socket)
    requires SocketOk(s) && !s.turn.ErrorDispatched?
    ensures Advances(s, Resume(s).0)
  {}

  lemma ResumeAdvances(s: Socket, t: ScriptStep)
    requires SocketOk(s) && ScriptEnabled(s, t) && IsResume(t)
    ensures Advances(s, ScriptEffect(s, t).0)
  {
    if s.turn.ErrorDispatched? { FailureAdvances(s); } else { DispatchAdvances(s); }
  }

  lemma ScriptAdvances(s: Socket, t: ScriptStep)
    requires SocketOk(s) && ScriptEnabled(s, t)
    ensures Advances(s, ScriptEffect(s, t).0)
  {
    if IsCall(t) { CallAdvances(s, t); }
    else if IsConnect(t) { ConnectAdvances(s, t); }
    else if IsQueue(t) { QueueAdvances(s, t); }
    else if IsPump(t) { PumpAdvances(s, t); }
    else { ResumeAdvances(s, t); }
  }

  lemma SendKeepsHandles(y: System, p: Payload)
    requires Safe(y)
    ensures HandlesOk(ScriptApply(y, CallSend(p)))
  {}

  lemma CloseKeepsHandles(y: System, code: Option<nat>, reason: Option<string>)
    requires Safe(y)
    ensures HandlesOk(ScriptApply(y, CallClose(code, reason)))
  {}

  lemma CallKeepsHandles(y: System, t: ScriptStep)
    requires Safe(y) && ScriptEnabled(y.js, t) && IsCall(t)
    ensures HandlesOk(ScriptApply(y, t))
  {
    if t.CallSend? { SendKeepsHandles(y, t.payload); } else { CloseKeepsHandles(y, t.code, t.reason); }
  }

  lemma ConnectKeepsHandles(y: System, t: ScriptStep)
    requires Safe(y) && ScriptEnabled(y.js, t) && IsConnect(t)
    ensures HandlesOk(ScriptApply(y, t))
  {}

  lemma QueueKeepsHandles(y: System, t: ScriptStep)
    requires Safe(y) && ScriptEnabled(y.js, t) && IsQueue(t)
    ensures HandlesOk(ScriptApply(y, t))
  {}

  lemma PumpKeepsHandles(y: System, t: ScriptStep)
    requires Safe(y) && ScriptEnabled(y.js, t) && IsPump(t)
    ensures HandlesOk(ScriptApply(y, t))
  {}

  lemma FailureKeepsHandles(y: System)
    requires Safe(y) && y.js.turn.ErrorDispatched?
    ensures HandlesOk(ScriptApply(y, DoResume))
  {
    if y.js.turn.origin.FromSend? {
    } else if y.js.turn.origin.FromMicrotask? {
    } else if y.js.turn.origin.FromConnect? {
    } else {
    }
  }

  lemma DispatchKeepsHandles(y: System)
    requires Safe(y) && !y.js.turn.ErrorDispatched? && ScriptEnabled(y.js, DoResume)
    ensures HandlesOk(ScriptApply(y, DoResume))
  {}

  lemma ResumeKeepsHandles(y: System, t: ScriptStep)
    requires Safe(y) && ScriptEnabled(y.js, t) && IsResume(t)
    ensures HandlesOk(ScriptApply(y, t))
  {
    if y.js.turn.ErrorDispatched? { FailureKeepsHandles(y); } else { DispatchKeepsHandles(y); }
  }

  lemma ScriptKeepsHandles(y: System, t: ScriptStep)
    requires Safe(y) && ScriptEnabled(y.js, t)
    ensures HandlesOk(ScriptApply(y, t))
  {
    if IsCall(t) { CallKeepsHandles(y, t); }
    else if IsConnect(t) { ConnectKeepsHandles(y, t); }
    else if IsQueue(t) { QueueKeepsHandles(y, t); }
    else if IsPump(t) { PumpKeepsHandles(y, t); }
    else { ResumeKeepsHandles(y, t); }
  }

  // Thread steps by the thread that makes them.
  predicate IsReadThread(t: ThreadStep) { t.ReadLookup? || t.ReadTake? || t.ReadRemove? }

  predicate IsJobThread(t: ThreadStep) { t.JobLookup? || t.JobPush? || t.JobDropped? || t.JobSettle? }

  lemma DialKeepsSafe(y: System, ok: bool)
    requires Safe(y) && ThreadEnabled(y, DialDone(ok))
    ensures Safe(ThreadApply(y, DialDone(ok)))
  {}

  lemma ReadKeepsSafe(y: System, t: ThreadStep)
    requires Safe(y) && ThreadEnabled(y, t) && IsReadThread(t)
    ensures Safe(ThreadApply(y, t))
  {}

  lemma JobKeepsSafe(y: System, t: ThreadStep)
    requires Safe(y) && ThreadEnabled(y, t) && IsJobThread(t)
    ensures Safe(ThreadApply(y, t))
  {}

  lemma OthersKeepSafe(y: System, t: ThreadStep)
    requires Safe(y) && ThreadEnabled(y, t) && (t.OtherInsert? || t.OtherRemove?)
    ensures Safe(ThreadApply(y, t))
  {}

  lemma ThreadKeepsSafe(y: System, t: ThreadStep)
    requires Safe(y) && ThreadEnabled(y, t)
    ensures Safe(ThreadApply(y, t))
  {
    if IsReadThread(t) { ReadKeepsSafe(y, t); }
    else if IsJobThread(t) { JobKeepsSafe(y, t); }
    else if t.DialDone? { DialKeepsSafe(y, t.ok); }
    else { OthersKeepSafe(y, t); }
  }

  lemma WriteKeepsSafe(y: System, ok: bool)
    requires Safe(y) && TaskEnabled(y, TaskWrite(ok))
    ensures Safe(TaskApply(y, TaskWrite(ok)))
  {}

  lemma TaskTurnKeepsSafe(y: System, t: TaskStep)
    requires Safe(y) && TaskEnabled(y, t) && !t.TaskWrite?
    ensures Safe(TaskApply(y, t))
  {}

  lemma TaskKeepsSafe(y: System, t: TaskStep)
    requires Safe(y) && TaskEnabled(y, t)
    ensures Safe(TaskApply(y, t))
  {
    if t.TaskWrite? { WriteKeepsSafe(y, t.ok); } else { TaskTurnKeepsSafe(y, t); }
  }

  lemma StepKeepsSafe(y: System, t: Step)
    requires Safe(y) && Enabled(y, t)
    ensures Safe(Apply(y, t))
  {
    match t
    case Script(t) => ScriptAdvances(y.js, t); ScriptKeepsHandles(y, t);
    case Thread(t) => ThreadKeepsSafe(y, t);
    case Task(t) => TaskKeepsSafe(y, t);
  }

  lemma {:induction false} RunIsSafe(y: System, steps: seq<Step>)
    requires Safe(y) && ValidRun(y, steps)
    ensures Safe(Run(y, steps))
    decreases |steps|
  {
    if steps == [] {
    } else {
      StepKeepsSafe(y, steps[0]);
      RunIsSafe(Apply(y, steps[0]), steps[1..]);
    }
  }

  lemma ReachableIsSafe(z: System)
    requires Reachable(z)
    ensures Safe(z)
  {
    var y: System, steps: seq<Step> :| Initial(y) && ValidRun(y, steps) && Run(y, steps) == z;
    SafeInitially(y);
    RunIsSafe(y, steps);
  }

  // ----- what a reader may rely on -----

  /** In every interleaving: once the connect continuation has run, a yielded handle is
      owned by an open or closing socket, or is about to be terminated because the server
      chose an unexpected subprotocol, or is out of the store. */
  lemma EveryHandleIsOwnedOrGone(z: System)
    requires Reachable(z) && z.conn.Some? && !z.js.connect.Yielded? && z.conn.value.handle in z.store
    ensures z.js.handle == Some(z.conn.value.handle)
    ensures z.js.readyState == OPEN || z.js.readyState == CLOSING || z.js.turn == ErrorDispatched(FromConnect)
  {
    ReachableIsSafe(z);
  }

  /** A closed socket forgets its handle, and the handle is out of the store; only a
      connection whose continuation has not run yet can still be there. */
  lemma ClosedMeansReleased(z: System)
    requires Reachable(z) && z.js.readyState == CLOSED
    ensures z.js.handle.None?
    ensures z.conn.Some? && z.conn.value.handle in z.store ==> z.js.connect == Yielded(z.conn.value.handle)
  {
    ReachableIsSafe(z);
  }

  /** That continuation terminates it. */
  lemma LateConnectionIsTerminated(z: System, protocolExpected: bool)
    requires Reachable(z) && z.js.readyState >= CLOSING && ScriptEnabled(z.js, DoConnectResolved(protocolExpected))
    ensures var z' := ScriptApply(z, DoConnectResolved(protocolExpected));
      z.conn.Some? && z.conn.value.handle !in z'.store && z'.js.handle == z.js.handle == None &&
      z'.js.log == z.js.log
  {
    ReachableIsSafe(z);
  }

  lemma {:induction false} GoneStaysGone(y: System, h: nat, steps: seq<Step>)
    requires Safe(y) && ValidRun(y, steps) && h < y.next && h !in y.store
    ensures h !in Run(y, steps).store
    decreases |steps|
  {
    if steps == [] {
    } else {
      StepKeepsSafe(y, steps[0]);
      GoneStaysGone(Apply(y, steps[0]), h, steps[1..]);
    }
  }

  /** A read that reported a close or an error leaves the handle unreachable for good. */
  lemma FailedReadIsFinal(z: System, later: seq<Step>)
    requires Reachable(z) && ValidRun(z, later)
    requires z.js.read.ReadDone? && !z.js.read.result.Received?
    ensures z.conn.Some? && z.conn.value.handle !in Run(z, later).store
  {
    ReachableIsSafe(z);
    GoneStaysGone(z, z.conn.value.handle, later);
  }

  lemma StepRaisesReadyState(y: System, t: Step)
    requires Safe(y) && Enabled(y, t)
    ensures y.js.readyState <= Apply(y, t).js.readyState
  {
    if t.Script? { ScriptAdvances(y.js, t.script); }
  }

  lemma {:induction false} RunRaisesReadyState(y: System, steps: seq<Step>)
    requires Safe(y) && ValidRun(y, steps)
    ensures y.js.readyState <= Run(y, steps).js.readyState
    decreases |steps|
  {
    if steps == [] {
    } else {
      StepRaisesReadyState(y, steps[0]);
      StepKeepsSafe(y, steps[0]);
      RunRaisesReadyState(Apply(y, steps[0]), steps[1..]);
    }
  }

  /** `readyState` never decreases along any run. */
  lemma ReadyStateIsMonotone(z: System, later: seq<Step>)
    requires Reachable(z) && ValidRun(z, later)
    ensures z.js.readyState <= Run(z, later).js.readyState <= CLOSED
  {
    ReachableIsSafe(z);
    RunRaisesReadyState(z, later);
    RunIsSafe(z, later);
  }
}
