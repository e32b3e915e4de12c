/** src/http/response.ts: who may read the body of a response, over every interleaving of body
    access, readers, clones, cancellation and whole-body reads on a response and its clones.

    All clones share one native body. What has been pulled from it is kept in `history`; each
    response has its own position there, because `tee` gives every branch every chunk. */
module ResponseBody {
  import opened Basics
  import opened NativeBody

  /** `#streamSource`: none yet, a branch at some position, cancelled, or the closed stream left by
      the whole-body fast path. */
  datatype Source = NoSource | Branch(position: nat) | Cancelled | Drained

  /** `#stream`: the wrapper, and who holds its lock: nobody, a reader of the caller, or the
      reader of a whole-body read. */
  datatype Stream = NoStream | Open | CallerLocked | OwnLocked

  datatype Response = Response(
    handle: bool,                     // #bodyHandle is set
    used: bool,
    source: Source,
    stream: Stream,
    gathering: bool,                  // a whole-body read is looping over the chunks
    wholeReads: nat,                  // whole-body reads that were not refused
    result: Option<Bytes>,            // what a whole-body read returned
    given: seq<Bytes>,                // the chunks the readers of the caller were given
    ended: bool                       // a read found the end of the body, or its error
  )

  datatype End = Flowing | Finished | Failed | Dropped

  /** Whether a read waits when the source begins its next pull. The first pull runs ahead of all
      reads; after a pull that brought nothing there is a next one only for a read that waits. */
  datatype Demand = NotYet | Perhaps | Waiting

  datatype World = World(
    native: bool,                     // there is a native handle, or only a payload in memory
    frames: seq<Frame>,               // what the body still has to deliver
    history: seq<Bytes>,              // the chunks pulled so far
    end: End,
    demand: Demand,
    stalled: bool,                    // a read waits, and nobody will pull for it
    inStore: bool,                    // the native handle is in the body store
    piped: bool,                      // the native stream source exists and owns the handle
    responses: seq<Response>
  )

  function Fresh(handle: bool, source: Source): Response {
    Response(handle, false, source, NoStream, false, 0, None, [], false)
  }

  function Start(native: bool, frames: seq<Frame>): World {
    World(native, frames, [], Flowing, NotYet, false, native, false, [Fresh(native, NoSource)])
  }

  datatype Step =
    | GetBody(i: nat)
    | GetReader(i: nat)
    | ReleaseLock(i: nat)
    | ReaderIssue(i: nat)
    | ReaderRead(i: nat, early: bool)
    | ReaderCancel(i: nat)
    | CancelBody(i: nat)
    | Clone(i: nat)
    | Consume(i: nat)
    | GatherChunk(i: nat, early: bool)
    | Pull(asked: bool)

  predicate Locked(r: Response) { r.stream.CallerLocked? || r.stream.OwnLocked? }

  predicate Unusable(r: Response) { r.used || Locked(r) }

  /** A read at the position of the branch can settle: there is a chunk, or the body has ended. */
  predicate Ready(w: World, r: Response) { r.source.Branch? && (r.source.position < |w.history| || !w.end.Flowing?) }

  predicate Enabled(w: World, t: Step) {
    match t
    case Pull(asked) =>
      && w.end.Flowing? && w.piped && !w.stalled
      && (w.demand.NotYet? ==> !asked) && (w.demand.Waiting? ==> asked)
    case GetReader(i) => i < |w.responses| && w.responses[i].stream.Open?
    case ReleaseLock(i) => i < |w.responses| && w.responses[i].stream.CallerLocked?
    case ReaderIssue(i) => i < |w.responses| && w.responses[i].stream.CallerLocked?
    case ReaderRead(i, _) =>
      i < |w.responses| && w.responses[i].stream.CallerLocked? && w.responses[i].used && Ready(w, w.responses[i])
    case ReaderCancel(i) => i < |w.responses| && w.responses[i].stream.CallerLocked?
    case GatherChunk(i, _) => i < |w.responses| && w.responses[i].gathering && Ready(w, w.responses[i])
    case _ => t.i < |w.responses|
  }

  // ----- one response -----

  /** `#ensureStreamSource`: the handle moves from the response to the stream source. */
  function EnsureSource(r: Response): Response {
    if r.source.NoSource? then r.(source := Branch(0), handle := false) else r
  }

  function EnsureStream(r: Response): Response {
    if r.stream.NoStream? then EnsureSource(r).(stream := Open) else r
  }

  function CancelSource(r: Response): Response {
    r.(used := true, source := if r.source.Branch? then Cancelled else r.source)
  }

  /** A branch serves the chunk at its position. An error of the body discards the chunks a slow
      branch has queued; `early` is a read before the error gets there. */
  predicate Serves(w: World, r: Response, early: bool)
    requires r.source.Branch?
  {
    r.source.position < |w.history| && (early || !w.end.Failed?)
  }

  /** One read of a whole-body loop: another chunk, the end, or the error. The chunks read so far
      are those before the position. */
  function Gather(w: World, r: Response, early: bool): Response
    requires Ready(w, r)
  {
    if Serves(w, r, early) then r.(source := Branch(r.source.position + 1))
    else if w.end.Finished? && r.source.position <= |w.history| then
      r.(gathering := false, ended := true, result := Some(Concat(w.history[..r.source.position])))
    else r.(gathering := false, ended := true)
  }

  /** `#consumeBytes` up to its first wait. */
  function BeginConsume(w: World, r: Response): Response {
    if Unusable(r) then r
    else if r.handle then
      r.(handle := false, used := true, source := Drained, stream := OwnLocked, wholeReads := r.wholeReads + 1,
         result := WholeBody(w.frames), ended := true)
    else EnsureStream(r).(used := true, stream := OwnLocked, gathering := true, wholeReads := r.wholeReads + 1)
  }

  function Act(w: World, t: Step, r: Response): Response
    requires Enabled(w, t) && !t.Pull? && w.responses[t.i] == r
  {
    match t
    case GetBody(_) => EnsureStream(r)
    case GetReader(_) => r.(stream := CallerLocked)
    case ReleaseLock(_) => r.(stream := Open)
    case ReaderIssue(_) => r.(used := true)
    case ReaderRead(_, early) =>
      if Serves(w, r, early) then
        r.(source := Branch(r.source.position + 1), given := r.given + [w.history[r.source.position]])
      else r.(ended := true)
    case ReaderCancel(_) => CancelSource(r)
    case CancelBody(_) => if Locked(r) then r else CancelSource(EnsureStream(r))
    case Clone(_) => if Unusable(r) then r else EnsureSource(r).(stream := NoStream)
    case Consume(_) => BeginConsume(w, r)
    case GatherChunk(_, early) => Gather(w, r, early)
  }

  // ----- the world -----

  /** The step takes the native handle into the stream source. */
  predicate Pipes(w: World, t: Step)
    requires Enabled(w, t)
  {
    && (t.GetBody? || t.CancelBody? || t.Clone? || t.Consume?)
    && w.responses[t.i].source.NoSource? && !(t.Consume? && w.responses[t.i].handle)
  }

  /** The whole-body fast path takes the handle and all frames. */
  predicate TakesAll(w: World, t: Step)
    requires Enabled(w, t)
  {
    t.Consume? && w.responses[t.i].handle && !Unusable(w.responses[t.i])
  }

  function ResponsesAfter(w: World, t: Step): seq<Response>
    requires Enabled(w, t)
  {
    if t.Pull? then w.responses
    else
      var r := w.responses[t.i];
      var next := w.responses[t.i := Act(w, t, r)];
      if t.Clone? && !Unusable(r) then next + [Fresh(false, EnsureSource(r).source)] else next
  }

  predicate Gone(r: Response) { r.source.Cancelled? || r.source.Drained? }

  predicate NoBranch(rs: seq<Response>) { forall i :: 0 <= i < |rs| ==> Gone(rs[i]) }

  /** The last branch was cancelled, so the native body is. */
  predicate DropsNative(w: World, t: Step)
    requires Enabled(w, t)
  {
    (t.ReaderCancel? || t.CancelBody?) && w.end.Flowing? && NoBranch(ResponsesAfter(w, t))
  }

  function EndAfter(w: World, t: Step): End
    requires Enabled(w, t)
  {
    if t.Pull? then
      match NextChunk(w.frames).0
      case Bytes(_) => Flowing
      case End => Finished
      case Failure => Failed
    else if TakesAll(w, t) then if WholeBody(w.frames).Some? then Finished else Failed
    else if DropsNative(w, t) then Dropped
    else w.end
  }

  /** An empty data frame is not enqueued. */
  predicate PullsChunk(w: World, t: Step) { t.Pull? && NextChunk(w.frames).0.Bytes? && NextChunk(w.frames).0.bytes != [] }

  predicate PullsNothing(w: World, t: Step) { t.Pull? && NextChunk(w.frames).0 == Bytes([]) }

  function Apply(w: World, t: Step): World
    requires Enabled(w, t)
  {
    World(
      w.native,
      if t.Pull? then NextChunk(w.frames).1 else w.frames,
      if PullsChunk(w, t) then w.history + [NextChunk(w.frames).0.bytes] else w.history,
      EndAfter(w, t),
      if !t.Pull? then w.demand else if PullsNothing(w, t) then Waiting else Perhaps,
      w.stalled || (PullsNothing(w, t) && t.asked),
      w.inStore && EndAfter(w, t).Flowing?,
      w.piped || Pipes(w, t),
      ResponsesAfter(w, t))
  }

  // ----- invariants -----

  /** What one response may be, given the whole body. */
  ghost predicate ResponseOk(w: World, r: Response, whole: Option<Bytes>) {
    && (r.handle ==> r.source.NoSource?)
    && (r.source.NoSource? ==> !r.used && r.stream.NoStream?)
    && (r.source.Branch? ==> w.piped && r.source.position <= |w.history| && (!r.used ==> r.source.position == 0))
    && (r.source.Cancelled? || r.source.Drained? ==> r.used)
    && (r.gathering ==> r.source.Branch? && r.used && r.stream.OwnLocked?)
    && r.wholeReads <= 1 && (r.wholeReads == 1 ==> r.used)
    && (r.gathering || r.result.Some? ==> r.wholeReads == 1)
    && (r.stream.OwnLocked? ==> r.used && r.wholeReads == 1)
    && (r.result.Some? ==> r.result == whole && r.ended)
    && (r.ended ==> !w.end.Flowing?)
  }

  /** What was pulled, and what is still to come, make up the whole body. */
  ghost predicate FlowOk(w: World, whole: Option<Bytes>) {
    match w.end
    case Flowing => whole == After(Concat(w.history), WholeBody(w.frames))
    case Finished => w.piped ==> whole == Some(Concat(w.history))
    case Failed => whole == None
    case Dropped => NoBranch(w.responses)
  }

  ghost predicate Each(w: World, whole: Option<Bytes>) {
    forall i :: 0 <= i < |w.responses| ==> ResponseOk(w, w.responses[i], whole)
  }

  predicate Settled(w: World) { w.piped || !w.end.Flowing? }

  /** Either the first response is alone and untouched, or no response has the handle. */
  ghost predicate OwnerOk(w: World) {
    && w.responses != [] && (w.inStore <==> w.native && w.end.Flowing?)
    && (!Settled(w) ==>
          |w.responses| == 1 && w.responses[0].source.NoSource? && w.history == [] && (w.responses[0].handle <==> w.native))
    && (Settled(w) ==> forall i :: 0 <= i < |w.responses| ==> Parted(w.responses[i]))
  }

  /** Only a stream source that flows stalls, and one that ended has delivered all frames. */
  ghost predicate StallOk(w: World) {
    && (w.stalled ==> w.piped && (w.end.Flowing? || w.end.Dropped?))
    && (w.piped && w.end.Finished? ==> w.frames == [])
  }

  /** A body nobody can read any more is not left flowing. */
  ghost predicate SomeoneReads(w: World) { w.end.Flowing? ==> !NoBranch(w.responses) }

  predicate Parted(r: Response) { !r.handle && !r.source.NoSource? }

  ghost predicate Ok(w: World, whole: Option<Bytes>) {
    Each(w, whole) && FlowOk(w, whole) && OwnerOk(w) && SomeoneReads(w) && StallOk(w)
  }

  lemma StartOk(native: bool, frames: seq<Frame>)
    ensures Ok(Start(native, frames), WholeBody(frames))
  {
    AfterNothing(WholeBody(frames));
    assert !Gone(Start(native, frames).responses[0]);
  }

  lemma {:induction false} LastChunk(frames: seq<Frame>)
    ensures NextChunk(frames).0.End? ==> NextChunk(frames).1 == []
  {
    if frames == [] {
    } else if frames[0].Trailers? {
      LastChunk(frames[1..]);
    }
  }

  lemma PullKeepsFlow(w: World, asked: bool, whole: Option<Bytes>)
    requires FlowOk(w, whole) && Enabled(w, Pull(asked))
    ensures FlowOk(Apply(w, Pull(asked)), whole)
  {
    WholeByChunks(w.frames);
    var (chunk, rest) := NextChunk(w.frames);
    match chunk
    case Bytes(b) =>
      ConcatAppend(w.history, b);
      AfterAppend(Concat(w.history), b, WholeBody(rest));
      assert b == [] ==> Concat(w.history) + b == Concat(w.history);
    case End =>
      assert Concat(w.history) + [] == Concat(w.history);
    case Failure =>
  }

  lemma StepKeepsFlow(w: World, t: Step, whole: Option<Bytes>)
    requires Ok(w, whole) && Enabled(w, t)
    ensures FlowOk(Apply(w, t), whole)
  {
    if t.Pull? { PullKeepsFlow(w, t.asked, whole); }
  }

  // Steps by what they do: read a chunk, read the whole body, and the rest.
  predicate IsRead(t: Step) { t.ReaderIssue? || t.ReaderRead? || t.GatherChunk? }

  lemma ReadKeepsResponse(w: World, t: Step, whole: Option<Bytes>)
    requires Enabled(w, t) && IsRead(t) && FlowOk(w, whole) && ResponseOk(w, w.responses[t.i], whole)
    ensures ResponseOk(Apply(w, t), Act(w, t, w.responses[t.i]), whole)
  {
    var r := w.responses[t.i];
    if r.source.Branch? && r.source.position == |w.history| { assert w.history[..r.source.position] == w.history; }
  }

  lemma ConsumeKeepsResponse(w: World, i: nat, whole: Option<Bytes>)
    requires Enabled(w, Consume(i)) && FlowOk(w, whole) && ResponseOk(w, w.responses[i], whole)
    requires w.responses[i].handle ==> w.end.Flowing? && w.history == []
    ensures ResponseOk(Apply(w, Consume(i)), BeginConsume(w, w.responses[i]), whole)
  {
    AfterNothing(WholeBody(w.frames));
  }

  lemma OtherKeepsResponse(w: World, t: Step, whole: Option<Bytes>)
    requires Enabled(w, t) && !t.Pull? && !IsRead(t) && !t.Consume? && ResponseOk(w, w.responses[t.i], whole)
    ensures ResponseOk(Apply(w, t), Act(w, t, w.responses[t.i]), whole)
  {}

  lemma ActKeepsResponse(w: World, t: Step, whole: Option<Bytes>)
    requires Ok(w, whole) && Enabled(w, t) && !t.Pull?
    ensures ResponseOk(Apply(w, t), Act(w, t, w.responses[t.i]), whole)
  {
    assert ResponseOk(w, w.responses[t.i], whole);
    if IsRead(t) { ReadKeepsResponse(w, t, whole); }
    else if t.Consume? {
      HolderIsUntouched(w, t.i);
      ConsumeKeepsResponse(w, t.i, whole);
    }
    else { OtherKeepsResponse(w, t, whole); }
  }

  /** While a response has the handle nothing was pulled. */
  lemma HolderIsUntouched(w: World, i: nat)
    requires OwnerOk(w) && i < |w.responses|
    ensures w.responses[i].handle ==> w.end.Flowing? && w.history == [] && |w.responses| == 1
  {
    if Settled(w) { assert Parted(w.responses[i]); }
  }

  lemma StepKeepsEach(w: World, t: Step, whole: Option<Bytes>)
    requires Ok(w, whole) && Enabled(w, t)
    ensures Each(Apply(w, t), whole)
  {
    var z := Apply(w, t);
    forall i | 0 <= i < |z.responses| ensures ResponseOk(z, z.responses[i], whole) {
      if !t.Pull? && (i == t.i || i == |w.responses|) {
        ActKeepsResponse(w, t, whole);
      } else {
        assert ResponseOk(w, w.responses[i], whole);
      }
    }
  }

  lemma PullKeepsOwner(w: World, asked: bool)
    requires OwnerOk(w) && Enabled(w, Pull(asked))
    ensures OwnerOk(Apply(w, Pull(asked)))
  {}

  lemma ActKeepsOwner(w: World, t: Step, whole: Option<Bytes>)
    requires OwnerOk(w) && Enabled(w, t) && !t.Pull? && ResponseOk(w, w.responses[t.i], whole)
    ensures OwnerOk(Apply(w, t))
  {}

  lemma StepKeepsOwner(w: World, t: Step, whole: Option<Bytes>)
    requires OwnerOk(w) && Each(w, whole) && Enabled(w, t)
    ensures OwnerOk(Apply(w, t))
  {
    if t.Pull? { PullKeepsOwner(w, t.asked); } else { ActKeepsOwner(w, t, whole); }
  }

  lemma StepKeepsReader(w: World, t: Step, whole: Option<Bytes>)
    requires Ok(w, whole) && Enabled(w, t)
    ensures SomeoneReads(Apply(w, t))
  {
    var z := Apply(w, t);
    if z.end.Flowing? {
      assert w.end.Flowing?;
      var k :| 0 <= k < |w.responses| && !Gone(w.responses[k]);
      if !(t.ReaderCancel? || t.CancelBody?) { assert !Gone(z.responses[k]); }
    }
  }

  lemma StepKeepsStall(w: World, t: Step, whole: Option<Bytes>)
    requires Ok(w, whole) && Enabled(w, t)
    ensures StallOk(Apply(w, t))
  {
    if t.Pull? { LastChunk(w.frames); } else { HolderIsUntouched(w, t.i); }
  }

  lemma StepKeepsOk(w: World, t: Step, whole: Option<Bytes>)
    requires Ok(w, whole) && Enabled(w, t)
    ensures Ok(Apply(w, t), whole)
  {
    StepKeepsFlow(w, t, whole);
    StepKeepsEach(w, t, whole);
    StepKeepsOwner(w, t, whole);
    StepKeepsReader(w, t, whole);
    StepKeepsStall(w, t, whole);
  }

  // ----- runs -----

  ghost predicate ValidRun(w: World, steps: seq<Step>)
    decreases |steps|
  {
    steps == [] || (Enabled(w, steps[0]) && ValidRun(Apply(w, steps[0]), steps[1..]))
  }

  function Run(w: World, steps: seq<Step>): World
    requires ValidRun(w, steps)
    decreases |steps|
  {
    if steps == [] then w else Run(Apply(w, steps[0]), steps[1..])
  }

  lemma {:induction false} RunKeepsOk(w: World, steps: seq<Step>, whole: Option<Bytes>)
    requires Ok(w, whole) && ValidRun(w, steps)
    ensures Ok(Run(w, steps), whole)
    decreases |steps|
  {
    if steps == [] {
    } else {
      StepKeepsOk(w, steps[0], whole);
      RunKeepsOk(Apply(w, steps[0]), steps[1..], whole);
    }
  }

  ghost predicate Reachable(w: World, native: bool, frames: seq<Frame>) {
    exists steps :: ValidRun(Start(native, frames), steps) && Run(Start(native, frames), steps) == w
  }

  lemma ReachableOk(w: World, native: bool, frames: seq<Frame>)
    requires Reachable(w, native, frames)
    ensures Ok(w, WholeBody(frames))
  {
    var steps :| ValidRun(Start(native, frames), steps) && Run(Start(native, frames), steps) == w;
    StartOk(native, frames);
    RunKeepsOk(Start(native, frames), steps, WholeBody(frames));
  }

  // ----- what a caller may rely on -----

  /** Whatever was done to a response and its clones, a whole-body read that succeeds on any of
      them returns all data frames of the body, whichever of the two paths it took. */
  lemma WholeReadIsComplete(w: World, native: bool, frames: seq<Frame>, i: nat)
    requires Reachable(w, native, frames) && i < |w.responses| && w.responses[i].result.Some?
    ensures w.responses[i].result == WholeBody(frames)
  {
    ReachableOk(w, native, frames);
    assert ResponseOk(w, w.responses[i], WholeBody(frames));
  }

  /** A response is read whole at most once: the first such read makes the body unusable, and then
      reading it whole again or cloning it is refused and changes nothing. */
  lemma ReadWholeAtMostOnce(w: World, native: bool, frames: seq<Frame>, i: nat)
    requires Reachable(w, native, frames) && i < |w.responses|
    ensures w.responses[i].wholeReads <= 1
    ensures w.responses[i].wholeReads == 1 ==> Unusable(w.responses[i])
    ensures Unusable(w.responses[i]) ==> Apply(w, Consume(i)) == w && Apply(w, Clone(i)) == w
  {
    ReachableOk(w, native, frames);
    var r := w.responses[i];
    assert ResponseOk(w, r, WholeBody(frames));
    if Unusable(r) {
      assert w.responses[i := r] == w.responses;
    }
  }

  /** While the native handle is in the store it has exactly one owner: the one response there is,
      or the stream source that all branches share. Afterwards nobody has it. */
  lemma HandleHasOneOwner(w: World, native: bool, frames: seq<Frame>)
    requires Reachable(w, native, frames)
    ensures w.inStore && !w.piped ==> |w.responses| == 1 && w.responses[0].handle
    ensures w.inStore && w.piped ==> forall i :: 0 <= i < |w.responses| ==> !w.responses[i].handle
    ensures !w.inStore ==> forall i :: 0 <= i < |w.responses| ==> !w.responses[i].handle
  {
    ReachableOk(w, native, frames);
    if Settled(w) {
      forall i | 0 <= i < |w.responses| ensures !w.responses[i].handle { assert Parted(w.responses[i]); }
    }
  }

  lemma PrependStep(w: World, t: Step, steps: seq<Step>)
    requires Enabled(w, t) && ValidRun(Apply(w, t), steps)
    ensures ValidRun(w, [t] + steps) && Run(w, [t] + steps) == Run(Apply(w, t), steps)
  {
    assert ([t] + steps)[1..] == steps;
  }

  /** No two empty data frames follow each other, nor one at once when a read already waits. */
  predicate Steady(waiting: bool, frames: seq<Frame>)
    decreases |frames|
  {
    if frames == [] then true
    else
      match frames[0]
      case Trailers => Steady(waiting, frames[1..])
      case Broken => true
      case Data(bytes) => if bytes != [] then Steady(false, frames[1..]) else !waiting && Steady(true, frames[1..])
  }

  lemma {:induction false} SteadyByChunks(waiting: bool, frames: seq<Frame>)
    ensures var (chunk, rest) := NextChunk(frames);
            Steady(waiting, frames) <==>
            (chunk.Bytes? ==> if chunk.bytes != [] then Steady(false, rest) else !waiting && Steady(true, rest))
  {
    if frames == [] {
    } else if frames[0].Trailers? {
      SteadyByChunks(waiting, frames[1..]);
    }
  }

  /** What is left of the body can be pulled to its end. */
  predicate Pullable(w: World) { !w.stalled && Steady(w.demand.Waiting?, w.frames) }

  lemma StepKeepsPullable(w: World, t: Step)
    requires Enabled(w, t) && Pullable(w)
    requires t.Pull? ==> t.asked == w.demand.Waiting? && NextChunk(w.frames).0 != Failure
    ensures Pullable(Apply(w, t))
  {
    SteadyByChunks(w.demand.Waiting?, w.frames);
    LastChunk(w.frames);
  }

  /** A whole-body read that is looping can be brought to its end. */
  lemma {:induction false} FinishRead(w: World, i: nat, whole: Option<Bytes>) returns (steps: seq<Step>)
    requires Ok(w, whole) && Pullable(w) && whole.Some? && i < |w.responses| && w.responses[i].gathering
    ensures ValidRun(w, steps) && i < |Run(w, steps).responses| && Run(w, steps).responses[i].result == whole
    decreases if w.end.Flowing? then 1 else 0, |w.frames|, |w.history| - w.responses[i].source.position
  {
    var r := w.responses[i];
    assert ResponseOk(w, r, whole);
    var t := if w.end.Flowing? then Pull(w.demand.Waiting?) else GatherChunk(i, false);
    assert !Gone(r);
    StepKeepsOk(w, t, whole);
    WholeByChunks(w.frames);
    StepKeepsPullable(w, t);
    var z := Apply(w, t);
    if w.end.Flowing? { NextChunkShrinks(w.frames); }
    if !w.end.Flowing? && r.source.position == |w.history| {
      assert w.history[..r.source.position] == w.history;
      assert ValidRun(z, []);
      steps := [];
    } else {
      steps := FinishRead(z, i, whole);
    }
    PrependStep(w, t, steps);
    steps := [t] + steps;
  }

  /** Some continuation of the run reads response i whole. */
  ghost predicate CanBeRead(w: World, i: nat, whole: Option<Bytes>) {
    exists steps :: ValidRun(w, steps) && i < |Run(w, steps).responses| && Run(w, steps).responses[i].result == whole
  }

  lemma FinishConsume(w: World, i: nat, whole: Option<Bytes>)
    requires Ok(w, whole) && whole.Some? && i < |w.responses| && !Unusable(w.responses[i])
    requires w.responses[i].handle || Pullable(w)
    ensures CanBeRead(w, i, whole)
  {
    var z := Apply(w, Consume(i));
    StepKeepsOk(w, Consume(i), whole);
    assert ResponseOk(w, w.responses[i], whole) && ResponseOk(z, z.responses[i], whole);
    var steps: seq<Step> := [];
    if w.responses[i].handle {
      HolderIsUntouched(w, i);
      AfterNothing(WholeBody(w.frames));
      assert ValidRun(z, []);
    } else {
      StepKeepsPullable(w, Consume(i));
      steps := FinishRead(z, i, whole);
    }
    PrependStep(w, Consume(i), steps);
  }

  // The other half: a body that stalls is never read whole.

  /** Response i has given up the handle, if it had one, and the body does not reach its end. */
  ghost predicate Doomed(w: World, i: nat) {
    && i < |w.responses| && !w.responses[i].handle && w.responses[i].result.None?
    && (w.end.Dropped? || (w.end.Flowing? && !Pullable(w)))
  }

  lemma PullKeepsDoomed(w: World, asked: bool, i: nat)
    requires Doomed(w, i) && Enabled(w, Pull(asked)) && NextChunk(w.frames).0 != Failure
    ensures Doomed(Apply(w, Pull(asked)), i)
  {
    SteadyByChunks(w.demand.Waiting?, w.frames);
  }

  lemma ActKeepsDoomed(w: World, t: Step, i: nat, whole: Option<Bytes>)
    requires Ok(w, whole) && Doomed(w, i) && Enabled(w, t) && !t.Pull?
    ensures Doomed(Apply(w, t), i)
  {
    HolderIsUntouched(w, t.i);
  }

  lemma {:induction false} RunKeepsDoomed(w: World, steps: seq<Step>, i: nat, whole: Option<Bytes>)
    requires Ok(w, whole) && whole.Some? && Doomed(w, i) && ValidRun(w, steps)
    ensures Doomed(Run(w, steps), i)
    decreases |steps|
  {
    if steps == [] {
    } else {
      StepKeepsOk(w, steps[0], whole);
      if steps[0].Pull? {
        WholeByChunks(w.frames);
        PullKeepsDoomed(w, steps[0].asked, i);
      } else {
        ActKeepsDoomed(w, steps[0], i, whole);
      }
      RunKeepsDoomed(Apply(w, steps[0]), steps[1..], i, whole);
    }
  }

  lemma UnreadIsDoomed(w: World, i: nat, whole: Option<Bytes>)
    requires Ok(w, whole) && whole.Some? && i < |w.responses| && !Unusable(w.responses[i])
    requires !w.responses[i].handle && !Pullable(w)
    ensures Doomed(w, i)
  {
    assert ResponseOk(w, w.responses[i], whole);
    if Settled(w) { assert Parted(w.responses[i]); }
  }

  lemma UnusedCanBeRead(w: World, i: nat, whole: Option<Bytes>)
    requires Ok(w, whole) && whole.Some? && i < |w.responses| && !Unusable(w.responses[i])
    ensures CanBeRead(w, i, whole) <==> w.responses[i].handle || Pullable(w)
  {
    if w.responses[i].handle || Pullable(w) {
      FinishConsume(w, i, whole);
    } else {
      UnreadIsDoomed(w, i, whole);
      forall steps | ValidRun(w, steps) ensures Doomed(Run(w, steps), i) { RunKeepsDoomed(w, steps, i, whole); }
    }
  }

  /** Nothing done to its clones spoils a body. As long as a response is not used or locked and the
      body as such is not broken, it can be read whole exactly when it still has the native handle, or
      what is left of the body can be pulled: no read waits in vain, and no two empty data frames
      follow each other. */
  lemma UnusedBodyCanBeRead(w: World, native: bool, frames: seq<Frame>, i: nat)
    requires Reachable(w, native, frames) && i < |w.responses| && !Unusable(w.responses[i]) && WholeBody(frames).Some?
    ensures CanBeRead(w, i, WholeBody(frames)) <==> w.responses[i].handle || Pullable(w)
  {
    ReachableOk(w, native, frames);
    UnusedCanBeRead(w, i, WholeBody(frames));
  }

  /** A clone is one response more; it and the original can each be read whole as long as the rest of
      the body can be pulled. */
  lemma CloneCanBeRead(w: World, native: bool, frames: seq<Frame>, i: nat)
    requires Reachable(w, native, frames) && i < |w.responses| && !Unusable(w.responses[i]) && WholeBody(frames).Some?
    ensures var z, n := Apply(w, Clone(i)), |w.responses|;
            && |z.responses| == n + 1 && !Unusable(z.responses[i]) && !Unusable(z.responses[n])
            && (CanBeRead(z, i, WholeBody(frames)) <==> Pullable(w))
            && (CanBeRead(z, n, WholeBody(frames)) <==> Pullable(w))
  {
    var z := Apply(w, Clone(i));
    ReachableOk(w, native, frames);
    StepKeepsOk(w, Clone(i), WholeBody(frames));
    UnusedCanBeRead(z, i, WholeBody(frames));
    UnusedCanBeRead(z, |w.responses|, WholeBody(frames));
    assert ResponseOk(w, w.responses[i], WholeBody(frames));
  }

  // ----- bodies without empty frames -----

  /** No empty data frame is to come, and none has just been pulled. */
  ghost predicate Lively(w: World) {
    !w.stalled && !w.demand.Waiting? && forall f :: f in w.frames && f.Data? ==> f.bytes != []
  }

  lemma {:induction false} NextChunkOfFrames(frames: seq<Frame>)
    ensures NextChunk(frames).0.Bytes? ==> Data(NextChunk(frames).0.bytes) in frames
    ensures forall f :: f in NextChunk(frames).1 ==> f in frames
  {
    if frames == [] {
    } else if frames[0].Trailers? {
      NextChunkOfFrames(frames[1..]);
    }
  }

  lemma {:induction false} FullFramesAreSteady(frames: seq<Frame>)
    requires forall f :: f in frames && f.Data? ==> f.bytes != []
    ensures Steady(false, frames)
  {
    if frames == [] {
    } else {
      assert frames[0] in frames;
      FullFramesAreSteady(frames[1..]);
    }
  }

  lemma StepKeepsLively(w: World, t: Step)
    requires Enabled(w, t) && Lively(w)
    ensures Lively(Apply(w, t))
  {
    if t.Pull? { NextChunkOfFrames(w.frames); }
  }

  lemma {:induction false} RunKeepsLively(w: World, steps: seq<Step>)
    requires ValidRun(w, steps) && Lively(w)
    ensures Lively(Run(w, steps))
    decreases |steps|
  {
    if steps == [] {
    } else {
      StepKeepsLively(w, steps[0]);
      RunKeepsLively(Apply(w, steps[0]), steps[1..]);
    }
  }

  /** A body without empty frames never stalls, however it is read; so an unused response of it can
      always be read whole. */
  lemma FullFramesNeverStall(w: World, native: bool, frames: seq<Frame>)
    requires Reachable(w, native, frames) && forall f :: f in frames && f.Data? ==> f.bytes != []
    ensures Pullable(w)
  {
    var before :| ValidRun(Start(native, frames), before) && Run(Start(native, frames), before) == w;
    RunKeepsLively(Start(native, frames), before);
    FullFramesAreSteady(w.frames);
  }

  /** Two empty frames in a row: a chunk-by-chunk read waits for good. The first pull runs ahead; the
      second answers the read, brings nothing, and nobody pulls again. */
  lemma EmptyFramesStall()
    ensures var frames := [Data([]), Data([]), Data([0])];
            var steps := [GetBody(0), Pull(false), Consume(0), Pull(true)];
            && ValidRun(Start(true, frames), steps)
            && var w := Run(Start(true, frames), steps);
               w.responses[0].gathering && !Enabled(w, Pull(true)) && !Enabled(w, Pull(false)) &&
               !Enabled(w, GatherChunk(0, true)) && !Enabled(w, GatherChunk(0, false))
  {
    var frames := [Data([]), Data([]), Data([0])];
    var w0 := Start(true, frames);
    var w1 := Apply(w0, GetBody(0));
    var w2 := Apply(w1, Pull(false));
    var w3 := Apply(w2, Consume(0));
    var w4 := Apply(w3, Pull(true));
    assert ValidRun(w4, []);
    PrependStep(w3, Pull(true), []);
    PrependStep(w2, Consume(0), [Pull(true)]);
    PrependStep(w1, Pull(false), [Consume(0), Pull(true)]);
    PrependStep(w0, GetBody(0), [Pull(false), Consume(0), Pull(true)]);
    assert [GetBody(0)] + [Pull(false), Consume(0), Pull(true)] == [GetBody(0), Pull(false), Consume(0), Pull(true)];
    assert [Pull(false)] + [Consume(0), Pull(true)] == [Pull(false), Consume(0), Pull(true)];
    assert [Consume(0)] + [Pull(true)] == [Consume(0), Pull(true)];
    assert [Pull(true)] + [] == [Pull(true)];
  }

  /** When every branch is cancelled, or some branch has been read to the end of the body, the
      handle is not in the store. */
  lemma NothingLeftInStore(w: World, native: bool, frames: seq<Frame>)
    requires Reachable(w, native, frames)
    requires NoBranch(w.responses) || exists i :: 0 <= i < |w.responses| && w.responses[i].ended
    ensures !w.inStore
  {
    ReachableOk(w, native, frames);
    if !NoBranch(w.responses) {
      var i :| 0 <= i < |w.responses| && w.responses[i].ended;
      assert ResponseOk(w, w.responses[i], WholeBody(frames));
    }
  }

  // ----- used and locked -----

  /** A body is used by reading or cancelling it, and stays used. */
  lemma StepUses(w: World, t: Step)
    requires Enabled(w, t) && !t.Pull?
    ensures var r, z := w.responses[t.i], Apply(w, t).responses[t.i];
            z.used <==> || r.used || t.ReaderIssue? || t.ReaderCancel? || (t.CancelBody? && !Locked(r))
                        || (t.Consume? && !Unusable(r))
  {}

  /** It is locked by a reader, until the lock is released, and by a whole-body read for good. */
  lemma StepLocks(w: World, t: Step)
    requires Enabled(w, t) && !t.Pull?
    ensures var r, z := w.responses[t.i], Apply(w, t).responses[t.i];
            Locked(z) <==> t.GetReader? || (t.Consume? && !Unusable(r)) || (Locked(r) && !t.ReleaseLock?)
  {}

  // ----- what the readers of the caller get -----

  /** The readers of a response were given the chunks up to its position, in order. */
  ghost predicate GivenOk(w: World, r: Response) {
    && r.given <= w.history && (r.source.NoSource? || r.wholeReads == 1 ==> r.given == [])
    && (r.wholeReads == 1 ==> r.stream.OwnLocked?)
    && (r.wholeReads == 0 && r.source.Branch? ==> r.source.position <= |w.history| && r.given == w.history[..r.source.position])
    && (r.wholeReads == 0 && r.ended ==> w.piped && (w.end.Finished? ==> r.given == w.history))
  }

  ghost predicate EachGiven(w: World) { forall i :: 0 <= i < |w.responses| ==> GivenOk(w, w.responses[i]) }

  lemma ReadKeepsGiven(w: World, t: Step, whole: Option<Bytes>)
    requires Enabled(w, t) && IsRead(t) && ResponseOk(w, w.responses[t.i], whole) && GivenOk(w, w.responses[t.i])
    ensures GivenOk(Apply(w, t), Act(w, t, w.responses[t.i]))
  {
    var r := w.responses[t.i];
    if r.source.Branch? && r.source.position == |w.history| { assert w.history[..r.source.position] == w.history; }
  }

  lemma OtherKeepsGiven(w: World, t: Step, whole: Option<Bytes>)
    requires Enabled(w, t) && !t.Pull? && !IsRead(t) && OwnerOk(w)
    requires ResponseOk(w, w.responses[t.i], whole) && GivenOk(w, w.responses[t.i])
    ensures GivenOk(Apply(w, t), Act(w, t, w.responses[t.i]))
  {
    HolderIsUntouched(w, t.i);
  }

  lemma BystanderKeepsGiven(w: World, t: Step, r: Response, whole: Option<Bytes>)
    requires Enabled(w, t) && ResponseOk(w, r, whole) && GivenOk(w, r) && OwnerOk(w) && r in w.responses
    requires t.Pull? || r != w.responses[t.i] || |w.responses| > 1
    ensures GivenOk(Apply(w, t), r)
  {
    if !t.Pull? { HolderIsUntouched(w, t.i); }
  }

  lemma CloneIsGivenNothing(w: World, i: nat)
    requires Enabled(w, Clone(i)) && !Unusable(w.responses[i]) && GivenOk(w, w.responses[i])
    requires w.responses[i].source.Branch? ==> w.responses[i].source.position == 0
    requires !Gone(w.responses[i])
    ensures GivenOk(Apply(w, Clone(i)), Fresh(false, EnsureSource(w.responses[i]).source))
  {}

  lemma StepKeepsGiven(w: World, t: Step, whole: Option<Bytes>)
    requires Ok(w, whole) && EachGiven(w) && Enabled(w, t)
    ensures EachGiven(Apply(w, t))
  {
    var z := Apply(w, t);
    forall i | 0 <= i < |z.responses| ensures GivenOk(z, z.responses[i]) {
      if !t.Pull? && i == t.i {
        assert ResponseOk(w, w.responses[i], whole) && GivenOk(w, w.responses[i]);
        if IsRead(t) { ReadKeepsGiven(w, t, whole); } else { OtherKeepsGiven(w, t, whole); }
      } else if i < |w.responses| {
        assert ResponseOk(w, w.responses[i], whole) && GivenOk(w, w.responses[i]);
        BystanderKeepsGiven(w, t, w.responses[i], whole);
      } else {
        assert ResponseOk(w, w.responses[t.i], whole) && GivenOk(w, w.responses[t.i]);
        CloneIsGivenNothing(w, t.i);
      }
    }
  }

  lemma {:induction false} RunKeepsGiven(w: World, steps: seq<Step>, whole: Option<Bytes>)
    requires Ok(w, whole) && EachGiven(w) && ValidRun(w, steps)
    ensures EachGiven(Run(w, steps))
    decreases |steps|
  {
    if steps == [] {
    } else {
      StepKeepsGiven(w, steps[0], whole);
      StepKeepsOk(w, steps[0], whole);
      RunKeepsGiven(Apply(w, steps[0]), steps[1..], whole);
    }
  }

  lemma ReachableGiven(w: World, native: bool, frames: seq<Frame>)
    requires Reachable(w, native, frames)
    ensures Ok(w, WholeBody(frames)) && EachGiven(w)
  {
    var steps :| ValidRun(Start(native, frames), steps) && Run(Start(native, frames), steps) == w;
    StartOk(native, frames);
    RunKeepsGiven(Start(native, frames), steps, WholeBody(frames));
    RunKeepsOk(Start(native, frames), steps, WholeBody(frames));
  }

  /** The readers of a response are given the chunks of the body in order; when they have come to the end
      of a body that was not broken, that was all of it. */
  lemma ReadersGetTheBody(w: World, native: bool, frames: seq<Frame>, i: nat)
    requires Reachable(w, native, frames) && i < |w.responses|
    ensures w.responses[i].given <= w.history
    ensures w.responses[i].ended && w.responses[i].wholeReads == 0 && w.end.Finished? ==>
              WholeBody(frames) == Some(Concat(w.responses[i].given))
  {
    ReachableGiven(w, native, frames);
    assert ResponseOk(w, w.responses[i], WholeBody(frames)) && GivenOk(w, w.responses[i]);
  }

  /** A read by a reader of the caller goes on by one chunk. */
  lemma ReaderGoesOn(w: World, native: bool, frames: seq<Frame>, i: nat, early: bool)
    requires Reachable(w, native, frames) && Enabled(w, ReaderRead(i, early)) && Serves(w, w.responses[i], early)
    ensures var r, z := w.responses[i], Apply(w, ReaderRead(i, early)).responses[i];
            |r.given| < |w.history| && z.given == r.given + [w.history[|r.given|]]
  {
    ReachableGiven(w, native, frames);
    assert ResponseOk(w, w.responses[i], WholeBody(frames)) && GivenOk(w, w.responses[i]);
  }

  /** A whole-body read that returned has read to the end. */
  lemma ReturnedReadEnded(w: World, native: bool, frames: seq<Frame>, i: nat)
    requires Reachable(w, native, frames) && i < |w.responses| && w.responses[i].result.Some?
    ensures w.responses[i].ended && !w.inStore
  {
    ReachableOk(w, native, frames);
    assert ResponseOk(w, w.responses[i], WholeBody(frames));
  }
}
