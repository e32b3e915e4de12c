/** Streaming uploads: the pumps of src/http/body/bytes.ts, the writer tasks of
    rust/src/napi/upload.rs, the bounded channels of rust/src/store/upload_store.rs, and the
    settling of src/native/request.ts, as one transition system.

    A raw body has one source; a multipart body has one for each file part, pumped in order. */
module Upload {
  import opened Basics

  const UPLOAD_BUFFERED_CHUNKS: nat := 2

  datatype Item = Chunk(bytes: Bytes) | UploadError

  /** Where the receiving half is: still in the store, with the request, given up by the
      request, or past the end of the stream. */
  datatype Receiver = InStore | Attached | Gone | Ended

  /** One channel. `open` is whether its handle is in the store; `pushed` is the history of
      what senders put in. */
  datatype Channel = Channel(
    source: seq<Bytes>,
    open: bool,
    receiver: Receiver,
    buffer: seq<Item>,
    received: seq<Item>,
    pushed: seq<Item>
  )

  /** What the pump waits for. `read` chunks of source i have been read so far. */
  datatype Pump =
    | Idle
    | AtHead(i: nat, read: nat)
    | Reading(i: nat, read: nat)
    | Writing(i: nat, read: nat)
    | Written(i: nat, read: nat, ok: bool)
    | Failing(i: nat)
    | FailSent(i: nat)
    | Done

  datatype State = State(
    multipart: bool,
    channels: seq<Channel>,
    pump: Pump,
    cancelled: bool,
    requested: bool,
    settled: bool
  )

  function NewChannel(source: seq<Bytes>): Channel { Channel(source, true, InStore, [], [], []) }

  /** After `prepareNativeUpload`: one handle a source, nothing read. */
  function Prepared(multipart: bool, sources: seq<seq<Bytes>>): State {
    State(multipart, seq(|sources|, i requires 0 <= i < |sources| => NewChannel(sources[i])), Idle, false, false, false)
  }

  /** Removing the handle drops the stored sender, and the receiver if nobody took it. */
  function Finish(c: Channel): Channel {
    c.(open := false, receiver := if c.receiver.InStore? then Gone else c.receiver)
  }

  function Drop(c: Channel): Channel { c.(receiver := Gone, buffer := []) }

  function Push(c: Channel, item: Item): Channel { c.(buffer := c.buffer + [item], pushed := c.pushed + [item]) }

  predicate Closed(c: Channel) { c.receiver.Gone? || c.receiver.Ended? }

  /** A spawned task holds a clone of the sender of channel i. */
  predicate HoldsSender(p: Pump, i: nat) { (p.Writing? || p.Failing?) && p.i == i }

  datatype ReadOutcome = Next | End | Broken | Cancelled

  datatype Step =
    | Request(ok: bool)
    | CheckHead
    | ReadDone(outcome: ReadOutcome)
    | WriterStep
    | WriteSettled
    | FailStep
    | FailSettled
    | Take(i: nat)
    | TakeEnd(i: nat)
    | GiveUp(i: nat)
    | Settle

  predicate Valid(s: State) {
    && (s.pump.AtHead? || s.pump.Reading? || s.pump.Writing? || s.pump.Written? ==>
          s.pump.i < |s.channels| && s.pump.read <= |s.channels[s.pump.i].source|)
    && (s.pump.Writing? ==> s.pump.read < |s.channels[s.pump.i].source|)
    && (s.pump.Failing? || s.pump.FailSent? ==> s.pump.i < |s.channels|)
  }

  predicate Enabled(s: State, t: Step) {
    && Valid(s)
    && match t
       case Request(_) => !s.requested
       case CheckHead => s.pump.AtHead?
       case ReadDone(outcome) =>
         s.pump.Reading? &&
         (match outcome
          case Next => s.pump.read < |s.channels[s.pump.i].source|
          case End => s.pump.read == |s.channels[s.pump.i].source|
          case Broken => true
          case Cancelled => s.cancelled)
       case WriterStep =>
         s.pump.Writing? &&
         (Closed(s.channels[s.pump.i]) || |s.channels[s.pump.i].buffer| < UPLOAD_BUFFERED_CHUNKS)
       case WriteSettled => s.pump.Written?
       case FailStep =>
         s.pump.Failing? &&
         (Closed(s.channels[s.pump.i]) || |s.channels[s.pump.i].buffer| < UPLOAD_BUFFERED_CHUNKS)
       case FailSettled => s.pump.FailSent?
       case Take(i) => i < |s.channels| && s.channels[i].receiver.Attached? && s.channels[i].buffer != []
       case TakeEnd(i) =>
         i < |s.channels| && s.channels[i].receiver.Attached? && s.channels[i].buffer == [] &&
         !s.channels[i].open && !HoldsSender(s.pump, i)
       case GiveUp(i) => i < |s.channels| && s.channels[i].receiver.Attached?
       case Settle => s.requested && !s.settled
  }

  /** The pump goes to its `catch` block: the source broke, the handle is gone, or the write
      was refused. */
  predicate PumpFails(s: State, t: Step)
    requires Enabled(s, t)
  {
    || t == ReadDone(Broken)
    || (t == ReadDone(Next) && !s.channels[s.pump.i].open)
    || (t.WriteSettled? && !s.pump.ok)
  }

  /** The failure cannot be reported, because the handle is gone, or it has been: the pump ends. */
  predicate FailureOver(s: State, t: Step)
    requires Enabled(s, t)
  {
    t.FailSettled? || (PumpFails(s, t) && !s.cancelled && !s.channels[s.pump.i].open)
  }

  /** The `cancel` callback runs: the request settles, the native call throws, or a multipart
      upload gives up its other parts after a failure. */
  predicate Cancels(s: State, t: Step)
    requires Enabled(s, t)
  {
    t.Settle? || t == Request(false) || (s.multipart && FailureOver(s, t))
  }

  /** The channels before `cancel` finishes all of them. */
  function ChannelMoves(s: State, t: Step, i: nat): Channel
    requires Enabled(s, t) && i < |s.channels|
  {
    var c := s.channels[i];
    match t
    case Request(ok) =>
      if !ok then Drop(c) else c.(receiver := if c.receiver.InStore? then Attached else c.receiver)
    case ReadDone(outcome) => if i == s.pump.i && (outcome.End? || outcome.Cancelled?) then Finish(c) else c
    case WriterStep =>
      if i != s.pump.i then c
      else if Closed(c) then Finish(c)
      else Push(c, Chunk(c.source[s.pump.read]))
    case FailStep =>
      if i != s.pump.i then c else Finish(if Closed(c) then c else Push(c, UploadError))
    case Take(j) => if i != j then c else c.(buffer := c.buffer[1..], received := c.received + [c.buffer[0]])
    case TakeEnd(j) => if i != j then c else c.(receiver := Ended)
    case GiveUp(j) => if i != j then c else Drop(c)
    case _ => c
  }

  function ChannelAfter(s: State, t: Step, i: nat): Channel
    requires Enabled(s, t) && i < |s.channels|
  {
    if Cancels(s, t) && !s.cancelled then Finish(ChannelMoves(s, t, i)) else ChannelMoves(s, t, i)
  }

  /** Start on source i, or end when there is none or the upload is cancelled. */
  function StartSource(s: State, i: nat): Pump {
    if s.cancelled || i >= |s.channels| then Done else AtHead(i, 0)
  }

  function PumpAfter(s: State, t: Step): Pump
    requires Enabled(s, t)
  {
    if PumpFails(s, t) then
      if s.cancelled || !s.channels[s.pump.i].open then Done else Failing(s.pump.i)
    else
      match t
      case Request(ok) => if ok then StartSource(s, 0) else s.pump
      case CheckHead => if s.cancelled then Done else Reading(s.pump.i, s.pump.read)
      case ReadDone(Next) => Writing(s.pump.i, s.pump.read)
      case ReadDone(_) => if s.multipart then StartSource(s, s.pump.i + 1) else Done
      case WriterStep =>
        if Closed(s.channels[s.pump.i]) then Written(s.pump.i, s.pump.read, false)
        else Written(s.pump.i, s.pump.read + 1, true)
      case WriteSettled => AtHead(s.pump.i, s.pump.read)
      case FailStep => FailSent(s.pump.i)
      case FailSettled => Done
      case _ => s.pump
  }

  function Apply(s: State, t: Step): State
    requires Enabled(s, t)
  {
    State(
      s.multipart,
      seq(|s.channels|, i requires 0 <= i < |s.channels| => ChannelAfter(s, t, i)),
      PumpAfter(s, t),
      s.cancelled || Cancels(s, t),
      s.requested || t.Request?,
      s.settled || t.Settle? || t == Request(false))
  }

  // ----- the invariant of one channel -----

  function Chunks(source: seq<Bytes>): seq<Item> {
    if source == [] then [] else Chunks(source[..|source| - 1]) + [Chunk(source[|source| - 1])]
  }

  lemma ChunksAppend(source: seq<Bytes>, n: nat)
    requires n < |source|
    ensures Chunks(source[..n + 1]) == Chunks(source[..n]) + [Chunk(source[n])]
  {
    assert source[..n + 1][..n] == source[..n];
  }

  lemma {:induction false} ChunksLength(source: seq<Bytes>)
    ensures |Chunks(source)| == |source|
    ensures forall i :: 0 <= i < |source| ==> Chunks(source)[i] == Chunk(source[i])
    decreases |source|
  {
    if source == [] {
    } else {
      ChunksLength(source[..|source| - 1]);
    }
  }

  /** The number of chunks put into a channel; only a failure can follow them. */
  function Sent(c: Channel): nat {
    if c.pushed != [] && c.pushed[|c.pushed| - 1].UploadError? then |c.pushed| - 1 else |c.pushed|
  }

  predicate HasFailed(c: Channel) { c.pushed != [] && c.pushed[|c.pushed| - 1].UploadError? }

  predicate AtSource(p: Pump, i: nat) { (p.AtHead? || p.Reading? || p.Writing? || p.Written?) && p.i == i }

  /** The pump has not reached source i. */
  predicate Later(p: Pump, i: nat) {
    p.Idle? || ((p.AtHead? || p.Reading? || p.Writing? || p.Written? || p.Failing? || p.FailSent?) && p.i < i)
  }

  /** What went in is a prefix of the source, possibly followed by one failure. */
  ghost predicate Orderly(c: Channel) {
    && Sent(c) <= |c.source| && c.pushed[..Sent(c)] == Chunks(c.source[..Sent(c)])
    && (if c.receiver.Gone? then c.received <= c.pushed && c.buffer == [] else c.pushed == c.received + c.buffer)
    && |c.buffer| <= UPLOAD_BUFFERED_CHUNKS
  }

  /** How a channel stands relative to the pump. */
  ghost predicate Placed(c: Channel, i: nat, p: Pump, cancelled: bool) {
    && (AtSource(p, i) ==> Sent(c) == p.read && !HasFailed(c))
    && (p.Failing? && p.i == i ==> !HasFailed(c))
    && (Later(p, i) ==> c.pushed == [] && c.buffer == [])
    && (cancelled ==> !c.open)
    && (!c.open && !cancelled && !c.receiver.Gone? ==> !Later(p, i) && (Sent(c) == |c.source| || HasFailed(c)))
    && (HasFailed(c) ==> !c.open)
    && (c.receiver.Ended? ==> !c.open && c.buffer == [] && !HoldsSender(p, i))
    && (c.receiver.InStore? ==> c.open && p.Idle?)
  }

  ghost predicate Ok(s: State) {
    && Valid(s)
    && (forall i :: 0 <= i < |s.channels| ==>
          Orderly(s.channels[i]) && Placed(s.channels[i], i, s.pump, s.cancelled))
    && (s.settled ==> s.cancelled)
    && (!s.requested ==> s.pump.Idle? && !s.cancelled)
  }

  lemma PreparedOk(multipart: bool, sources: seq<seq<Bytes>>)
    ensures Ok(Prepared(multipart, sources))
  {}

  // ----- one channel through one step -----

  lemma WriteKeepsOrder(c: Channel, n: nat)
    requires Orderly(c) && !HasFailed(c) && Sent(c) == n < |c.source|
    requires !Closed(c) && |c.buffer| < UPLOAD_BUFFERED_CHUNKS
    ensures Orderly(Push(c, Chunk(c.source[n])))
  {
    ChunksAppend(c.source, n);
    assert c.pushed[..n] == c.pushed;
  }

  lemma FailKeepsOrder(c: Channel)
    requires Orderly(c) && !HasFailed(c) && !Closed(c) && |c.buffer| < UPLOAD_BUFFERED_CHUNKS
    ensures Orderly(Push(c, UploadError))
  {
    assert c.pushed[..|c.pushed|] == c.pushed;
  }

  lemma TakeKeepsOrder(c: Channel)
    requires Orderly(c) && c.receiver.Attached? && c.buffer != []
    ensures Orderly(c.(buffer := c.buffer[1..], received := c.received + [c.buffer[0]]))
  {
    assert c.received + c.buffer == c.received + [c.buffer[0]] + c.buffer[1..];
  }

  lemma DropKeepsOrder(c: Channel)
    requires Orderly(c)
    ensures Orderly(Drop(c))
  {}

  lemma FinishKeepsOrder(c: Channel)
    requires Orderly(c) && (c.receiver.InStore? ==> c.buffer == [])
    ensures Orderly(Finish(c))
  {}

  lemma MoveKeepsOrder(s: State, t: Step, i: nat)
    requires Enabled(s, t) && i < |s.channels|
    requires Orderly(s.channels[i]) && Placed(s.channels[i], i, s.pump, s.cancelled)
    ensures Orderly(ChannelMoves(s, t, i))
  {
    var c := s.channels[i];
    match t
    case Request(_) => DropKeepsOrder(c);
    case GiveUp(_) => DropKeepsOrder(c);
    case ReadDone(_) => FinishKeepsOrder(c);
    case Take(j) => if i == j { TakeKeepsOrder(c); }
    case WriterStep =>
      FinishKeepsOrder(c);
      if i == s.pump.i && !Closed(c) { WriteKeepsOrder(c, s.pump.read); }
    case FailStep =>
      FinishKeepsOrder(c);
      if i == s.pump.i && !Closed(c) {
        FailKeepsOrder(c);
        FinishKeepsOrder(Push(c, UploadError));
      }
    case _ =>
  }

  lemma StepKeepsOrder(s: State, t: Step, i: nat)
    requires Enabled(s, t) && i < |s.channels|
    requires Orderly(s.channels[i]) && Placed(s.channels[i], i, s.pump, s.cancelled)
    ensures Orderly(ChannelAfter(s, t, i))
  {
    MoveKeepsOrder(s, t, i);
    MoveEmptiesStored(s, t, i);
    FinishKeepsOrder(ChannelMoves(s, t, i));
  }

  /** A receiver still in the store has nothing buffered. */
  lemma MoveEmptiesStored(s: State, t: Step, i: nat)
    requires Enabled(s, t) && i < |s.channels| && Placed(s.channels[i], i, s.pump, s.cancelled)
    ensures ChannelMoves(s, t, i).receiver.InStore? ==> ChannelMoves(s, t, i).buffer == []
  {}

  // Steps by who makes them: the pump, the writer tasks, the receiving request, the request as a whole.
  predicate IsPumpTurn(t: Step) { t.CheckHead? || t.ReadDone? || t.WriteSettled? || t.FailSettled? }

  predicate IsReceiverStep(t: Step) { t.Take? || t.TakeEnd? || t.GiveUp? }

  /** Channel i stands as it should after the step. */
  ghost predicate PlacedAfter(s: State, t: Step, i: nat)
    requires Enabled(s, t) && i < |s.channels|
  {
    Placed(ChannelAfter(s, t, i), i, PumpAfter(s, t), s.cancelled || Cancels(s, t))
  }

  lemma PumpTurnKeepsPlace(s: State, t: Step, i: nat)
    requires Enabled(s, t) && i < |s.channels| && Placed(s.channels[i], i, s.pump, s.cancelled) && IsPumpTurn(t)
    ensures PlacedAfter(s, t, i)
  {}

  lemma ReceiverKeepsPlace(s: State, t: Step, i: nat)
    requires Enabled(s, t) && i < |s.channels| && Placed(s.channels[i], i, s.pump, s.cancelled) && IsReceiverStep(t)
    ensures PlacedAfter(s, t, i)
  {}

  lemma WriterKeepsPlace(s: State, t: Step, i: nat)
    requires Enabled(s, t) && i < |s.channels| && Placed(s.channels[i], i, s.pump, s.cancelled)
    requires t.WriterStep? || t.FailStep?
    ensures PlacedAfter(s, t, i)
  {}

  lemma RequestKeepsPlace(s: State, t: Step, i: nat)
    requires Enabled(s, t) && i < |s.channels| && Placed(s.channels[i], i, s.pump, s.cancelled)
    requires t.Settle? || (t.Request? && s.pump.Idle? && !s.cancelled)
    ensures PlacedAfter(s, t, i)
  {}

  lemma StepKeepsPlace(s: State, t: Step, i: nat)
    requires Enabled(s, t) && i < |s.channels| && Placed(s.channels[i], i, s.pump, s.cancelled)
    requires t.Request? ==> s.pump.Idle? && !s.cancelled
    ensures PlacedAfter(s, t, i)
  {
    if IsPumpTurn(t) { PumpTurnKeepsPlace(s, t, i); }
    else if IsReceiverStep(t) { ReceiverKeepsPlace(s, t, i); }
    else if t.WriterStep? || t.FailStep? { WriterKeepsPlace(s, t, i); }
    else { RequestKeepsPlace(s, t, i); }
  }

  lemma StepKeepsOk(s: State, t: Step)
    requires Ok(s) && Enabled(s, t)
    ensures Ok(Apply(s, t))
  {
    forall i: nat | i < |s.channels|
      ensures Orderly(ChannelAfter(s, t, i))
      ensures Placed(ChannelAfter(s, t, i), i, PumpAfter(s, t), s.cancelled || Cancels(s, t))
    {
      StepKeepsOrder(s, t, i);
      StepKeepsPlace(s, t, i);
    }
    StepKeepsValid(s, t);
  }

  lemma StepKeepsValid(s: State, t: Step)
    requires Enabled(s, t)
    ensures Valid(Apply(s, t))
  {}

  // ----- runs -----

  ghost predicate ValidRun(s: State, steps: seq<Step>)
    decreases |steps|
  {
    steps == [] || (Enabled(s, steps[0]) && ValidRun(Apply(s, steps[0]), steps[1..]))
  }

  function Run(s: State, steps: seq<Step>): State
    requires ValidRun(s, steps)
    decreases |steps|
  {
    if steps == [] then s else Run(Apply(s, steps[0]), steps[1..])
  }

  ghost predicate Reachable(z: State) {
    exists multipart: bool, sources: seq<seq<Bytes>>, steps: seq<Step> ::
      ValidRun(Prepared(multipart, sources), steps) && Run(Prepared(multipart, sources), steps) == z
  }

  lemma {:induction false} RunKeepsOk(s: State, steps: seq<Step>)
    requires Ok(s) && ValidRun(s, steps)
    ensures Ok(Run(s, steps)) && (s.cancelled ==> Run(s, steps).cancelled) && (s.settled ==> Run(s, steps).settled)
    decreases |steps|
  {
    if steps == [] {
    } else {
      StepKeepsOk(s, steps[0]);
      RunKeepsOk(Apply(s, steps[0]), steps[1..]);
    }
  }

  lemma ReachableOk(z: State)
    requires Reachable(z)
    ensures Ok(z)
  {
    var multipart: bool, sources: seq<seq<Bytes>>, steps: seq<Step> :|
      ValidRun(Prepared(multipart, sources), steps) && Run(Prepared(multipart, sources), steps) == z;
    PreparedOk(multipart, sources);
    RunKeepsOk(Prepared(multipart, sources), steps);
  }

  // ----- what a reader may rely on -----

  lemma {:induction false} ChunksOfPrefix(source: seq<Bytes>, n: nat, k: nat)
    requires k < n <= |source|
    ensures |Chunks(source[..n])| == n && Chunks(source[..n])[k] == Chunk(source[k])
  {
    ChunksLength(source[..n]);
  }

  /** In every interleaving the request receives the source chunks in order; the only other
      thing it can receive is one failure, after which nothing comes. */
  lemma ReceivedInOrder(z: State, i: nat, k: nat)
    requires Reachable(z) && i < |z.channels| && k < |z.channels[i].received|
    ensures z.channels[i].received[k].UploadError? ==> k == |z.channels[i].received| - 1
    ensures z.channels[i].received[k].Chunk? ==>
              k < |z.channels[i].source| && z.channels[i].received[k].bytes == z.channels[i].source[k]
  {
    ReachableOk(z);
    var c := z.channels[i];
    assert c.received <= c.pushed;
    if k < Sent(c) {
      ChunksOfPrefix(c.source, Sent(c), k);
      assert c.pushed[k] == c.pushed[..Sent(c)][k];
    }
  }

  /** Memory is bounded: at most two chunks wait in a channel. */
  lemma AtMostTwoBuffered(z: State, i: nat)
    requires Reachable(z) && i < |z.channels|
    ensures |z.channels[i].buffer| <= 2
  {
    ReachableOk(z);
  }

  /** An end of stream without a failure means that every chunk arrived, unless the upload was
      cancelled: a broken source never looks like a complete one. */
  lemma CleanEndIsComplete(z: State, i: nat)
    requires Reachable(z) && i < |z.channels| && z.channels[i].receiver.Ended? && !z.cancelled
    requires UploadError !in z.channels[i].received
    ensures z.channels[i].received == Chunks(z.channels[i].source)
  {
    ReachableOk(z);
    var c := z.channels[i];
    assert c.pushed == c.received + [] == c.received;
    assert !HasFailed(c);
    assert c.source[..|c.source|] == c.source && c.pushed[..|c.pushed|] == c.pushed;
  }

  /** Once the request has settled no upload handle of it is in the store, then or later. */
  lemma SettledLeavesNoHandle(z: State, later: seq<Step>, i: nat)
    requires Reachable(z) && z.settled && ValidRun(z, later) && i < |Run(z, later).channels|
    ensures Run(z, later).settled && !Run(z, later).channels[i].open
  {
    ReachableOk(z);
    RunKeepsOk(z, later);
  }

  // ----- an upload can be completed -----

  lemma StepThenRun(s: State, t: Step, later: seq<Step>)
    requires Enabled(s, t) && ValidRun(Apply(s, t), later)
    ensures ValidRun(s, [t] + later) && Run(s, [t] + later) == Run(Apply(s, t), later)
  {
    assert ([t] + later)[1..] == later;
  }

  /** An upload under way: nothing was cancelled or failed, and the request reads its channels or has
      come to the end of them. A raw upload has one. */
  ghost predicate UnderWay(s: State) {
    && Ok(s) && !s.cancelled && (s.multipart || |s.channels| == 1)
    && forall j :: 0 <= j < |s.channels| ==> Healthy(s.channels[j])
  }

  predicate Healthy(c: Channel) { (c.receiver.Attached? || c.receiver.Ended?) && !HasFailed(c) }

  /** The pump is at a source: the channels before it are closed, it and the later ones are open. */
  predicate Pumping(s: State) {
    && (s.pump.AtHead? || s.pump.Reading? || s.pump.Writing? || (s.pump.Written? && s.pump.ok))
    && s.pump.i < |s.channels| && forall j :: 0 <= j < |s.channels| ==> (s.channels[j].open <==> s.pump.i <= j)
  }

  predicate AllClosed(s: State) { s.pump.Done? && forall j :: 0 <= j < |s.channels| ==> !s.channels[j].open }

  predicate SameSources(s: State, z: State) {
    |z.channels| == |s.channels| && forall j :: 0 <= j < |s.channels| ==> z.channels[j].source == s.channels[j].source
  }

  predicate Delivered(c: Channel, source: seq<Bytes>) { c.receiver.Ended? && c.received == Chunks(source) }

  /** Every channel has been read to its end and brought its whole source. */
  predicate Complete(s: State, of: State) {
    |s.channels| == |of.channels| && forall j :: 0 <= j < |s.channels| ==> Delivered(s.channels[j], of.channels[j].source)
  }

  lemma EndIsComplete(s: State, j: nat)
    requires UnderWay(s) && j < |s.channels| && s.channels[j].receiver.Ended?
    ensures Delivered(s.channels[j], s.channels[j].source)
  {
    var c := s.channels[j];
    assert Orderly(c) && Placed(c, j, s.pump, s.cancelled) && Healthy(c);
    assert c.pushed == c.received + [] == c.received;
    assert c.source[..|c.source|] == c.source && c.pushed[..|c.pushed|] == c.pushed;
  }

  function DrainOf(s: State, k: nat): Step
    requires k < |s.channels|
  {
    if s.channels[k].buffer == [] then TakeEnd(k) else Take(k)
  }

  lemma DrainEnabled(s: State, k: nat)
    requires UnderWay(s) && AllClosed(s) && k < |s.channels| && s.channels[k].receiver.Attached?
    ensures Enabled(s, DrainOf(s, k)) && !Cancels(s, DrainOf(s, k)) && PumpAfter(s, DrainOf(s, k)).Done?
  {}

  /** What the request does on channel k takes nothing from the others. */
  lemma DrainTakes(s: State, k: nat, j: nat)
    requires k < |s.channels| && j < |s.channels| && Enabled(s, DrainOf(s, k)) && !Cancels(s, DrainOf(s, k))
    requires Healthy(s.channels[j])
    ensures var c, d := s.channels[j], ChannelAfter(s, DrainOf(s, k), j);
            && Healthy(d) && d.open == c.open && d.source == c.source && (j != k ==> d == c)
            && (j == k ==> if c.buffer == [] then d.receiver.Ended? else d.receiver == c.receiver && |d.buffer| < |c.buffer|)
  {}

  lemma DrainStep(s: State, k: nat)
    requires UnderWay(s) && AllClosed(s) && k < |s.channels| && s.channels[k].receiver.Attached?
    ensures var t, z := DrainOf(s, k), Apply(s, DrainOf(s, k));
            && Enabled(s, t) && UnderWay(z) && AllClosed(z) && SameSources(s, z)
            && (forall j :: 0 <= j < |s.channels| && j != k ==> z.channels[j] == s.channels[j])
            && (if t.TakeEnd? then z.channels[k].receiver.Ended?
                else z.channels[k].receiver.Attached? && |z.channels[k].buffer| < |s.channels[k].buffer|)
  {
    DrainEnabled(s, k);
    StepKeepsOk(s, DrainOf(s, k));
    forall j: nat | j < |s.channels|
      ensures var c, d := s.channels[j], Apply(s, DrainOf(s, k)).channels[j];
              && Healthy(d) && d.open == c.open && d.source == c.source && (j != k ==> d == c)
              && (j == k ==> if c.buffer == [] then d.receiver.Ended? else d.receiver == c.receiver && |d.buffer| < |c.buffer|)
    {
      assert Healthy(s.channels[j]);
      DrainTakes(s, k, j);
    }
  }

  ghost predicate EndedUpTo(s: State, k: nat) { forall j :: 0 <= j < k && j < |s.channels| ==> s.channels[j].receiver.Ended? }

  lemma WaitsOrEnded(s: State, k: nat)
    requires UnderWay(s) && k < |s.channels|
    ensures s.channels[k].receiver.Attached? || s.channels[k].receiver.Ended?
  {
    assert Healthy(s.channels[k]);
  }

  /** The request takes what is left in the channels, and then their ends. */
  lemma {:induction false} DrainCompletes(s: State, k: nat) returns (steps: seq<Step>)
    requires UnderWay(s) && AllClosed(s) && k <= |s.channels| && EndedUpTo(s, k)
    ensures ValidRun(s, steps) && Complete(Run(s, steps), s)
    decreases |s.channels| - k, if k < |s.channels| then |s.channels[k].buffer| else 0
  {
    hide UnderWay, Delivered, Apply, AllClosed, DrainOf;
    if k == |s.channels| {
      forall j | 0 <= j < |s.channels| ensures Delivered(s.channels[j], s.channels[j].source) { EndIsComplete(s, j); }
      steps := [];
    } else if s.channels[k].receiver.Ended? {
      steps := DrainCompletes(s, k + 1);
    } else {
      WaitsOrEnded(s, k);
      var t := DrainOf(s, k);
      DrainStep(s, k);
      var z := Apply(s, t);
      steps := DrainCompletes(z, if t.TakeEnd? then k + 1 else k);
      StepThenRun(s, t, steps);
      steps := [t] + steps;
    }
  }

  /** What the pump, its writer task or the request does next. */
  function NextStep(s: State): Step
    requires Pumping(s)
  {
    match s.pump
    case AtHead(_, _) => CheckHead
    case Reading(i, read) => if read < |s.channels[i].source| then ReadDone(Next) else ReadDone(End)
    case Writing(i, _) => if |s.channels[i].buffer| < UPLOAD_BUFFERED_CHUNKS then WriterStep else Take(i)
    case Written(_, _, _) => WriteSettled
    case _ => Settle
  }

  function Phase(p: Pump): nat {
    match p
    case Written(_, _, _) => 3
    case AtHead(_, _) => 2
    case Reading(_, _) => 1
    case _ => 0
  }

  predicate Nearer(s: State, z: State)
    requires Pumping(s) && Pumping(z)
  {
    || z.pump.i > s.pump.i
    || (z.pump.i == s.pump.i && z.pump.read > s.pump.read)
    || (z.pump.i == s.pump.i && z.pump.read == s.pump.read && Phase(z.pump) < Phase(s.pump))
    || (z.pump == s.pump && |z.channels[s.pump.i].buffer| < |s.channels[s.pump.i].buffer|)
  }

  /** The channel of the pump is open, so it has not come to its end. */
  lemma PumpedIsAttached(s: State)
    requires UnderWay(s) && Pumping(s)
    ensures s.channels[s.pump.i].receiver.Attached? && s.channels[s.pump.i].open && s.pump.read <= |s.channels[s.pump.i].source|
    ensures !s.channels[s.pump.i].receiver.Gone?
  {
    assert Placed(s.channels[s.pump.i], s.pump.i, s.pump, s.cancelled) && Healthy(s.channels[s.pump.i]);
  }

  lemma NextIsEnabled(s: State)
    requires UnderWay(s) && Pumping(s)
    ensures Enabled(s, NextStep(s)) && !Cancels(s, NextStep(s)) && !PumpFails(s, NextStep(s))
  {
    PumpedIsAttached(s);
  }

  lemma NextKeepsChannel(s: State, j: nat)
    requires Pumping(s) && Enabled(s, NextStep(s)) && !Cancels(s, NextStep(s)) && j < |s.channels| && Healthy(s.channels[j])
    requires s.channels[s.pump.i].receiver.Attached?
    ensures var c, d := s.channels[j], ChannelAfter(s, NextStep(s), j);
            && Healthy(d) && d.source == c.source
            && d.open == (c.open && !(NextStep(s) == ReadDone(End) && j == s.pump.i))
  {}

  lemma NextIsHealthy(s: State)
    requires UnderWay(s) && Pumping(s)
    ensures Enabled(s, NextStep(s)) && !Cancels(s, NextStep(s)) && !PumpFails(s, NextStep(s))
    ensures forall j :: 0 <= j < |s.channels| ==> Healthy(ChannelAfter(s, NextStep(s), j))
    ensures forall j :: 0 <= j < |s.channels| ==> ChannelAfter(s, NextStep(s), j).source == s.channels[j].source
    ensures forall j :: 0 <= j < |s.channels| ==>
              ChannelAfter(s, NextStep(s), j).open == (s.channels[j].open && !(NextStep(s) == ReadDone(End) && j == s.pump.i))
  {
    PumpedIsAttached(s);
    NextIsEnabled(s);
    forall j: nat | j < |s.channels|
      ensures var c, d := s.channels[j], ChannelAfter(s, NextStep(s), j);
              && Healthy(d) && d.source == c.source
              && d.open == (c.open && !(NextStep(s) == ReadDone(End) && j == s.pump.i))
    {
      assert Healthy(s.channels[j]);
      NextKeepsChannel(s, j);
    }
  }

  lemma NextStaysUnderWay(s: State)
    requires UnderWay(s) && Pumping(s)
    ensures Enabled(s, NextStep(s)) && UnderWay(Apply(s, NextStep(s))) && SameSources(s, Apply(s, NextStep(s)))
  {
    NextIsHealthy(s);
    StepKeepsOk(s, NextStep(s));
  }

  lemma NextComesNearer(s: State)
    requires UnderWay(s) && Pumping(s) && Enabled(s, NextStep(s))
    ensures AllClosed(Apply(s, NextStep(s))) || (Pumping(Apply(s, NextStep(s))) && Nearer(s, Apply(s, NextStep(s))))
  {
    NextIsHealthy(s);
    PumpedIsAttached(s);
  }

  lemma NextGoesOn(s: State)
    requires UnderWay(s) && Pumping(s)
    ensures Enabled(s, NextStep(s)) && UnderWay(Apply(s, NextStep(s))) && SameSources(s, Apply(s, NextStep(s)))
    ensures AllClosed(Apply(s, NextStep(s))) || (Pumping(Apply(s, NextStep(s))) && Nearer(s, Apply(s, NextStep(s))))
  {
    NextStaysUnderWay(s);
    NextComesNearer(s);
  }

  /** Nothing but a cancellation or a failure stands between an upload and its end: from every state in
      between, some continuation brings every chunk of every source to the request, and then the ends. */
  lemma {:induction false} UploadCanComplete(s: State) returns (steps: seq<Step>)
    requires UnderWay(s) && Pumping(s)
    ensures ValidRun(s, steps) && Complete(Run(s, steps), s)
    decreases |s.channels| - s.pump.i, |s.channels[s.pump.i].source| - s.pump.read, Phase(s.pump), |s.channels[s.pump.i].buffer|
  {
    hide UnderWay, NextStep, Apply, Delivered;
    var t := NextStep(s);
    NextGoesOn(s);
    var z := Apply(s, t);
    PumpedIsAttached(s);
    if AllClosed(z) {
      steps := DrainCompletes(z, 0);
    } else {
      PumpedIsAttached(z);
      steps := UploadCanComplete(z);
    }
    StepThenRun(s, t, steps);
    steps := [t] + steps;
  }

  /** In particular once the request has begun, for one source or, in a multipart body, for any number. */
  lemma BegunUploadCanComplete(multipart: bool, sources: seq<seq<Bytes>>) returns (steps: seq<Step>)
    requires sources != [] && (multipart || |sources| == 1)
    ensures ValidRun(Prepared(multipart, sources), steps)
    ensures var z := Run(Prepared(multipart, sources), steps);
            |z.channels| == |sources| && forall j :: 0 <= j < |sources| ==> Delivered(z.channels[j], sources[j])
  {
    var s := Prepared(multipart, sources);
    PreparedOk(multipart, sources);
    StepKeepsOk(s, Request(true));
    var z := Apply(s, Request(true));
    forall j | 0 <= j < |z.channels| ensures Healthy(z.channels[j]) && z.channels[j].open && z.channels[j].source == sources[j] {
      assert z.channels[j] == ChannelAfter(s, Request(true), j);
    }
    steps := UploadCanComplete(z);
    StepThenRun(s, Request(true), steps);
    steps := [Request(true)] + steps;
  }

  // ----- a broken source is reported -----

  /** Nobody reads a channel that was given up, or whose request could not be started. */
  lemma GivenUpIsGone(s: State, t: Step, i: nat)
    requires Ok(s) && Enabled(s, t) && i < |s.channels| && (t == GiveUp(i) || t == Request(false))
    ensures Apply(s, t).channels[i].receiver.Gone? && Apply(s, t).channels[i].buffer == []
    ensures t == Request(false) ==> !Apply(s, t).channels[i].open && Apply(s, t).settled && Apply(s, t).cancelled
  {}

  /** A cancelled pump starts no new read. */
  lemma CancelledPumpReadsNoMore(s: State, t: Step)
    requires Enabled(s, t) && s.cancelled && PumpAfter(s, t).Reading?
    ensures PumpAfter(s, t) == s.pump
  {}

  /** The pump is about to report a failure on channel i, and the request still reads it. */
  ghost predicate Reporting(s: State, i: nat) {
    && Ok(s) && !s.cancelled && s.pump == Failing(i) && i < |s.channels|
    && s.channels[i].receiver.Attached? && s.channels[i].open && !HasFailed(s.channels[i])
  }

  lemma BrokenSourceFails(s: State)
    requires Ok(s) && Enabled(s, ReadDone(Broken)) && !s.cancelled
    requires s.channels[s.pump.i].open && s.channels[s.pump.i].receiver.Attached?
    ensures Reporting(Apply(s, ReadDone(Broken)), s.pump.i)
    ensures Apply(s, ReadDone(Broken)).channels[s.pump.i] == s.channels[s.pump.i]
  {
    var i := s.pump.i;
    StepKeepsOk(s, ReadDone(Broken));
    assert Placed(s.channels[i], i, s.pump, s.cancelled);
    assert Apply(s, ReadDone(Broken)).channels[i] == ChannelAfter(s, ReadDone(Broken), i);
  }

  /** The request has received what was in the channel and then the failure, which is the last item. */
  predicate Reported(z: State, i: nat, before: Channel) {
    && i < |z.channels| && z.channels[i].received == before.received + before.buffer + [UploadError]
    && !z.channels[i].open && z.channels[i].buffer == []
  }

  /** Taking the rest of a closed channel. */
  lemma {:induction false} TakeRest(s: State, i: nat) returns (steps: seq<Step>)
    requires Ok(s) && i < |s.channels| && s.channels[i].receiver.Attached? && !s.channels[i].open
    ensures ValidRun(s, steps) && i < |Run(s, steps).channels|
    ensures var z := Run(s, steps).channels[i];
            z.received == s.channels[i].received + s.channels[i].buffer && z.buffer == [] && !z.open
    decreases |s.channels[i].buffer|
  {
    if s.channels[i].buffer == [] {
      steps := [];
    } else {
      var z := Apply(s, Take(i));
      StepKeepsOk(s, Take(i));
      assert z.channels[i] == ChannelAfter(s, Take(i), i);
      steps := TakeRest(z, i);
      StepThenRun(s, Take(i), steps);
      steps := [Take(i)] + steps;
    }
  }

  lemma ReportStep(s: State, i: nat)
    requires Reporting(s, i) && |s.channels[i].buffer| < UPLOAD_BUFFERED_CHUNKS
    ensures Enabled(s, FailStep) && Ok(Apply(s, FailStep))
    ensures var c, z := s.channels[i], Apply(s, FailStep);
            |z.channels| == |s.channels| && z.channels[i] == Finish(Push(c, UploadError))
  {
    StepKeepsOk(s, FailStep);
    assert Apply(s, FailStep).channels[i] == ChannelAfter(s, FailStep, i);
  }

  lemma TakeOneReports(s: State, i: nat)
    requires Reporting(s, i) && s.channels[i].buffer != []
    ensures Enabled(s, Take(i)) && Reporting(Apply(s, Take(i)), i)
    ensures var c, d := s.channels[i], Apply(s, Take(i)).channels[i];
            d.received + d.buffer == c.received + c.buffer && |d.buffer| < |c.buffer|
  {
    StepKeepsOk(s, Take(i));
    assert Apply(s, Take(i)).channels[i] == ChannelAfter(s, Take(i), i);
    TakeKeepsOrder(s.channels[i]);
  }

  lemma {:induction false} FailureIsReported(s: State, i: nat) returns (steps: seq<Step>)
    requires Reporting(s, i)
    ensures ValidRun(s, steps) && Reported(Run(s, steps), i, s.channels[i])
    decreases |s.channels[i].buffer|
  {
    if |s.channels[i].buffer| < UPLOAD_BUFFERED_CHUNKS {
      ReportStep(s, i);
      steps := TakeRest(Apply(s, FailStep), i);
      StepThenRun(s, FailStep, steps);
      steps := [FailStep] + steps;
      assert s.channels[i].received + (s.channels[i].buffer + [UploadError]) == s.channels[i].received + s.channels[i].buffer + [UploadError];
    } else {
      TakeOneReports(s, i);
      steps := FailureIsReported(Apply(s, Take(i)), i);
      StepThenRun(s, Take(i), steps);
      steps := [Take(i)] + steps;
    }
  }

  /** A source that breaks while the request reads its channel is reported: some continuation brings the
      chunks that were on the way and then the failure. */
  lemma BrokenSourceIsReported(s: State) returns (steps: seq<Step>)
    requires Ok(s) && Enabled(s, ReadDone(Broken)) && !s.cancelled
    requires s.channels[s.pump.i].open && s.channels[s.pump.i].receiver.Attached?
    ensures ValidRun(s, [ReadDone(Broken)] + steps)
    ensures Reported(Run(s, [ReadDone(Broken)] + steps), s.pump.i, s.channels[s.pump.i])
  {
    BrokenSourceFails(s);
    steps := FailureIsReported(Apply(s, ReadDone(Broken)), s.pump.i);
    StepThenRun(s, ReadDone(Broken), steps);
  }

  // ----- uploads that are cancelled -----

  /** The chunks put into channel i, counting the one a writer task already holds. */
  function Committed(c: Channel, i: nat, p: Pump): nat { Sent(c) + if p.Writing? && p.i == i then 1 else 0 }

  /** The channel cannot end cleanly any more: the request gave it up, or a failure is in it or
      about to be. */
  predicate Spoiled(c: Channel, i: nat, p: Pump) { c.receiver.Gone? || HasFailed(c) || (p.Failing? && p.i == i) }

  predicate SameCommitment(s: State, z: State, i: nat)
    requires i < |s.channels| && |z.channels| == |s.channels|
  {
    && z.channels[i].source == s.channels[i].source
    && (Spoiled(z.channels[i], i, z.pump) ||
        (!Spoiled(s.channels[i], i, s.pump) && Committed(z.channels[i], i, z.pump) == Committed(s.channels[i], i, s.pump)))
  }

  lemma WriterCommits(s: State, i: nat)
    requires Ok(s) && Enabled(s, WriterStep) && i < |s.channels|
    ensures SameCommitment(s, Apply(s, WriterStep), i)
  {
    assert Orderly(s.channels[i]) && Placed(s.channels[i], i, s.pump, s.cancelled);
    assert Apply(s, WriterStep).channels[i] == ChannelAfter(s, WriterStep, i);
    WriterChannelCommits(s, i);
  }

  lemma WriterChannelCommits(s: State, i: nat)
    requires Enabled(s, WriterStep) && i < |s.channels| && Placed(s.channels[i], i, s.pump, s.cancelled)
    ensures var c, d, p := s.channels[i], ChannelAfter(s, WriterStep, i), PumpAfter(s, WriterStep);
            && d.source == c.source
            && (Spoiled(d, i, p) || (!Spoiled(c, i, s.pump) && Committed(d, i, p) == Committed(c, i, s.pump)))
  {}

  lemma FailureCommits(s: State, i: nat)
    requires Enabled(s, FailStep) && i < |s.channels| && Placed(s.channels[i], i, s.pump, s.cancelled)
    ensures SameCommitment(s, Apply(s, FailStep), i)
  {
    assert Apply(s, FailStep).channels[i] == ChannelAfter(s, FailStep, i);
    if i == s.pump.i && !Closed(s.channels[i]) { assert HasFailed(Push(s.channels[i], UploadError)); }
  }

  /** A turn of the pump puts nothing into a channel. */
  lemma PumpTurnOnlyFinishes(s: State, t: Step, i: nat)
    requires Enabled(s, t) && i < |s.channels| && IsPumpTurn(t)
    ensures var c, d := s.channels[i], ChannelAfter(s, t, i);
            d.source == c.source && d.pushed == c.pushed && (c.receiver.Gone? ==> d.receiver.Gone?)
  {}

  /** Nor does a cancelled pump begin to write or to report a failure. */
  lemma CancelledPumpStops(s: State, t: Step)
    requires Enabled(s, t) && IsPumpTurn(t) && (s.cancelled || Cancels(s, t))
    requires s.cancelled && s.pump.Reading? ==> !s.channels[s.pump.i].open
    ensures var p := PumpAfter(s, t); !p.Writing? && !p.Failing? && !s.pump.Writing? && !s.pump.Failing?
  {}

  lemma PumpTurnCommits(s: State, t: Step, i: nat)
    requires Ok(s) && Enabled(s, t) && i < |s.channels| && (s.cancelled || Cancels(s, t)) && IsPumpTurn(t)
    ensures SameCommitment(s, Apply(s, t), i)
  {
    PumpTurnOnlyFinishes(s, t, i);
    if s.pump.Reading? { assert Placed(s.channels[s.pump.i], s.pump.i, s.pump, s.cancelled); }
    CancelledPumpStops(s, t);
    assert Apply(s, t).channels[i] == ChannelAfter(s, t, i);
  }

  lemma RequestCommits(s: State, t: Step, i: nat)
    requires Ok(s) && Enabled(s, t) && i < |s.channels| && (s.cancelled || Cancels(s, t)) && (t.Request? || t.Settle?)
    ensures SameCommitment(s, Apply(s, t), i)
  {
    assert Orderly(s.channels[i]) && Placed(s.channels[i], i, s.pump, s.cancelled);
  }

  /** What the receiving request does leaves the pump and what was put in alone. */
  lemma ReceiverOnlyTakes(s: State, t: Step, i: nat)
    requires Enabled(s, t) && i < |s.channels| && IsReceiverStep(t)
    ensures PumpAfter(s, t) == s.pump
    ensures var c, d := s.channels[i], ChannelAfter(s, t, i);
            d.source == c.source && d.pushed == c.pushed && (c.receiver.Gone? ==> d.receiver.Gone?)
  {}

  lemma ReceiverCommits(s: State, t: Step, i: nat)
    requires Enabled(s, t) && i < |s.channels| && IsReceiverStep(t)
    ensures SameCommitment(s, Apply(s, t), i)
  {
    ReceiverOnlyTakes(s, t, i);
    assert Apply(s, t).channels[i] == ChannelAfter(s, t, i);
  }

  /** Once an upload is cancelled, or by the step that cancels it, nothing more is read from a
      source: what is committed to a channel stays as it is. */
  lemma CancelledCommits(s: State, t: Step, i: nat)
    requires Ok(s) && Enabled(s, t) && i < |s.channels| && (s.cancelled || Cancels(s, t))
    ensures SameCommitment(s, Apply(s, t), i)
  {
    if IsPumpTurn(t) { PumpTurnCommits(s, t, i); }
    else if IsReceiverStep(t) { ReceiverCommits(s, t, i); }
    else if t.WriterStep? { WriterCommits(s, i); }
    else if t.FailStep? {
      assert Placed(s.channels[i], i, s.pump, s.cancelled);
      FailureCommits(s, i);
    }
    else { RequestCommits(s, t, i); }
  }

  lemma {:induction false} CancelledRunCommits(s: State, steps: seq<Step>, i: nat)
    requires Ok(s) && s.cancelled && ValidRun(s, steps) && i < |s.channels|
    ensures |Run(s, steps).channels| == |s.channels| && SameCommitment(s, Run(s, steps), i)
    decreases |steps|
  {
    if steps == [] {
    } else {
      StepKeepsOk(s, steps[0]);
      CancelledCommits(s, steps[0], i);
      CancelledRunCommits(Apply(s, steps[0]), steps[1..], i);
    }
  }

  /** A channel that ended without a failure has received exactly what was committed to it. */
  lemma EndReceivesCommitted(z: State, i: nat)
    requires Ok(z) && i < |z.channels| && z.channels[i].receiver.Ended? && UploadError !in z.channels[i].received
    ensures !Spoiled(z.channels[i], i, z.pump)
    ensures var c := z.channels[i];
            Committed(c, i, z.pump) <= |c.source| && c.received == Chunks(c.source[..Committed(c, i, z.pump)])
  {
    var c := z.channels[i];
    assert Orderly(c) && Placed(c, i, z.pump, z.cancelled);
    assert c.pushed == c.received + [] == c.received;
    assert c.pushed[..|c.pushed|] == c.pushed;
  }

  lemma ChunksOfAll(source: seq<Bytes>, n: nat)
    requires n <= |source|
    ensures Chunks(source[..n]) == Chunks(source) <==> n == |source|
  {
    ChunksLength(source[..n]);
    ChunksLength(source);
    assert source[..|source|] == source;
  }

  /** A cancelled upload that ends without a failure arrived whole exactly when, at the moment of
      the cancellation, every chunk was in the channel or held by the writer task. For an abort or
      an early answer `t` is Settle; a multipart upload is also cancelled by a failure of one part. */
  lemma CancelledEndIsComplete(s: State, t: Step, later: seq<Step>, i: nat)
    requires Reachable(s) && Enabled(s, t) && Cancels(s, t) && i < |s.channels|
    requires ValidRun(Apply(s, t), later) && i < |Run(Apply(s, t), later).channels|
    requires var c := Run(Apply(s, t), later).channels[i]; c.receiver.Ended? && UploadError !in c.received
    ensures Run(Apply(s, t), later).channels[i].received == Chunks(s.channels[i].source) <==>
            Committed(s.channels[i], i, s.pump) == |s.channels[i].source|
  {
    ReachableOk(s);
    var y := Apply(s, t);
    StepKeepsOk(s, t);
    CancelledCommits(s, t, i);
    CancelledRunCommits(y, later, i);
    RunKeepsOk(y, later);
    EndReceivesCommitted(Run(y, later), i);
    ChunksOfAll(s.channels[i].source, Committed(s.channels[i], i, s.pump));
  }

  /** The exception is real: a request that settles early, as on abort, ends its upload with a
      stream that looks complete and is not. */
  lemma CancelTruncates(chunk: Bytes)
    ensures
      var steps := [Request(true), Settle, TakeEnd(0)];
      var s := Prepared(false, [[chunk]]);
      ValidRun(s, steps) && Run(s, steps).channels[0].receiver.Ended? &&
      Run(s, steps).channels[0].received == [] != Chunks([chunk])
  {
    var s := Prepared(false, [[chunk]]);
    var s1 := Apply(s, Request(true));
    var s2 := Apply(s1, Settle);
    var s3 := Apply(s2, TakeEnd(0));
    assert ValidRun(s3, []);
    assert [TakeEnd(0)][1..] == [] && ValidRun(s2, [TakeEnd(0)]);
    assert [Settle, TakeEnd(0)][1..] == [TakeEnd(0)] && ValidRun(s1, [Settle, TakeEnd(0)]);
    assert [Request(true), Settle, TakeEnd(0)][1..] == [Settle, TakeEnd(0)];
  }

  // ----- the store and the settling, in the form of the sources -----

  datatype Taken = TakenOk | Unknown | AlreadyAttached

  function Elements(handles: seq<nat>): set<nat> { set h | h in handles }

  /** The process-wide store: for each handle, whether the receiver is still there. */
  class UploadStore {
    var entries: map<nat, bool>
    var next: nat

    ghost predicate Valid()
      reads this
    {
      forall h :: h in entries ==> h < next
    }

    constructor ()
      ensures Valid() && entries == map[] && next == 1
    {
      entries, next := map[], 1;
    }

    method CreateUpload() returns (handle: nat)
      requires Valid()
      modifies this
      ensures Valid() && handle !in old(entries) && handle == old(next) < next
      ensures entries == old(entries)[handle := true]
    {
      handle := next;
      next := next + 1;
      entries := entries[handle := true];
    }

    /** A receiver is taken at most once. */
    method TakeReceiver(handle: nat) returns (r: Taken)
      requires Valid()
      modifies this`entries
      ensures Valid()
      ensures r.TakenOk? <==> handle in old(entries) && old(entries)[handle]
      ensures r.Unknown? <==> handle !in old(entries)
      ensures entries == if r.TakenOk? then old(entries)[handle := false] else old(entries)
    {
      if handle !in entries { return Unknown; }
      if !entries[handle] { return AlreadyAttached; }
      entries := entries[handle := false];
      return TakenOk;
    }

    method FinishUpload(handle: nat) returns (present: bool)
      requires Valid()
      modifies this`entries
      ensures Valid() && present == (handle in old(entries)) && entries == old(entries) - {handle}
    {
      present := handle in entries;
      entries := entries - {handle};
    }

    method CreateUploads(count: nat) returns (handles: seq<nat>)
      requires Valid()
      modifies this
      ensures Valid() && |handles| == count && NoDuplicates(handles)
      ensures forall h :: h in handles ==> h !in old(entries)
      ensures entries.Keys == old(entries.Keys) + Elements(handles)
      ensures forall h :: h in old(entries) ==> h in entries && entries[h] == old(entries)[h]
    {
      handles := [];
      while |handles| < count
        invariant Valid() && |handles| <= count && NoDuplicates(handles)
        invariant forall h :: h in handles ==> h !in old(entries)
        invariant entries.Keys == old(entries.Keys) + Elements(handles)
        invariant forall h :: h in old(entries) ==> h in entries && entries[h] == old(entries)[h]
      {
        var h := CreateUpload();
        handles := handles + [h];
      }
    }

    method FinishUploads(handles: seq<nat>)
      requires Valid()
      modifies this`entries
      ensures Valid() && entries == old(entries) - Elements(handles)
    {
      var n := 0;
      while n < |handles|
        invariant n <= |handles| && Valid()
        invariant entries == old(entries) - Elements(handles[..n])
      {
        var _ := FinishUpload(handles[n]);
        assert handles[..n + 1] == handles[..n] + [handles[n]];
        n := n + 1;
      }
      assert handles[..n] == handles;
    }

    /** The handles `prepareNativeUpload` creates; `failAt` is where building the parts throws.
        Then the store is as it was before: no new handle is left behind. */
    method PrepareHandles(count: nat, failAt: Option<nat>) returns (handles: seq<nat>, ok: bool)
      requires Valid()
      modifies this
      ensures Valid() && ok == (failAt.None? || failAt.value >= count)
      ensures ok ==> |handles| == count && NoDuplicates(handles)
      ensures ok ==> forall h :: h in handles ==> h !in old(entries)
      ensures entries.Keys == old(entries.Keys) + if ok then Elements(handles) else {}
      ensures forall h :: h in old(entries) ==> h in entries && entries[h] == old(entries)[h]
    {
      ok := failAt.None? || failAt.value >= count;
      handles := CreateUploads(if ok then count else failAt.value);
      if !ok { FinishUploads(handles); }
    }
  }

  datatype Callback = Aborted | Resolved | Rejected

  /** The promise of `nativeRequest` with a signal. */
  class NativeRequest {
    var settled: bool
    var outcome: Option<Callback>
    var uploadCancels: nat
    var nativeCancels: nat

    constructor ()
      ensures !settled && outcome == None && uploadCancels == nativeCancels == 0
    {
      settled, outcome, uploadCancels, nativeCancels := false, None, 0, 0;
    }

    method On(event: Callback)
      modifies this
      ensures settled
      ensures old(settled) ==> outcome == old(outcome) && uploadCancels == old(uploadCancels) &&
                               nativeCancels == old(nativeCancels)
      ensures !old(settled) ==> outcome == Some(event) && uploadCancels == old(uploadCancels) + 1 &&
                                nativeCancels == old(nativeCancels) + if event.Aborted? then 1 else 0
    {
      if settled { return; }
      settled := true;
      uploadCancels := uploadCancels + 1;
      if event.Aborted? { nativeCancels := nativeCancels + 1; }
      outcome := Some(event);
    }

    /** However the callbacks race, the first one decides, the upload is cancelled exactly once,
        and the native request is cancelled only when the abort came first. */
    method Race(events: seq<Callback>)
      requires !settled && outcome == None && uploadCancels == nativeCancels == 0
      modifies this
      ensures settled == (events != [])
      ensures outcome == if events == [] then None else Some(events[0])
      ensures uploadCancels == if events == [] then 0 else 1
      ensures nativeCancels == if events != [] && events[0].Aborted? then 1 else 0
    {
      var n := 0;
      while n < |events|
        invariant n <= |events| && settled == (n > 0)
        invariant outcome == if n == 0 then None else Some(events[0])
        invariant uploadCancels == if n == 0 then 0 else 1
        invariant nativeCancels == if n > 0 && events[0].Aborted? then 1 else 0
      {
        On(events[n]);
        n := n + 1;
      }
    }
  }
}
