/** The Response class of src/http/response.ts over the body store, in its own form. A Pipe is the
    native stream source together with its tee: every branch keeps its own position in it. */
module ResponseObjects {
  import opened Basics
  import opened NativeBody
  import opened ResponseBody

  class Pipe {
    const store: BodyStore
    const handle: nat
    var history: seq<Bytes>
    var end: End
    var branches: set<nat>            // the branches of the tee that were not cancelled
    var nextBranch: nat
    ghost const whole: Option<Bytes>

    ghost predicate Valid()
      reads this, store
    {
      && store.Valid()
      && (forall b :: b in branches ==> b < nextBranch)
      && (branches == {} ==> !end.Flowing?) && (end.Dropped? ==> branches == {})
      && (end.Flowing? ==>
            handle in store.bodies && whole == After(Concat(history), WholeBody(store.bodies[handle])))
      && (end.Finished? ==> whole == Some(Concat(history)))
      && (end.Failed? ==> whole == None)
    }

    constructor (store: BodyStore, handle: nat)
      requires store.Valid() && handle in store.bodies
      ensures Valid() && this.store == store && end.Flowing? && history == [] && this.handle == handle
      ensures branches == {0} && whole == WholeBody(store.bodies[handle])
    {
      this.store, this.handle, history, end := store, handle, [], Flowing;
      branches, nextBranch := {0}, 1;
      whole := WholeBody(store.bodies[handle]);
      AfterNothing(WholeBody(store.bodies[handle]));
    }

    /** The `pull` of the native stream source. */
    method Pull()
      requires Valid() && end.Flowing?
      modifies this`history, this`end, store`bodies
      ensures Valid() && old(history) <= history
      ensures store.bodies - {handle} == old(store.bodies) - {handle}
      ensures end.Flowing? ==> |store.bodies[handle]| < |old(store.bodies)[handle]|
      ensures !end.Flowing? ==> handle !in store.bodies && !end.Dropped?
    {
      ghost var frames := store.bodies[handle];
      NextChunkShrinks(frames);
      WholeByChunks(frames);
      var result := store.ReadBodyChunk(handle);
      if result.ReadError? {
        end := Failed;
      } else if result.done {
        assert Concat(history) + [] == Concat(history);
        end := Finished;
      } else {
        ConcatAppend(history, result.bytes);
        AfterAppend(Concat(history), result.bytes, WholeBody(NextChunk(frames).1));
        if result.bytes != [] {
          history := history + [result.bytes];
        } else {
          assert Concat(history) + result.bytes == Concat(history);
        }
      }
    }

    /** `tee`: one branch more. */
    method Tee() returns (branch: nat)
      requires Valid() && branches != {}
      modifies this`branches, this`nextBranch
      ensures Valid() && branch !in old(branches) && branches == old(branches) + {branch}
    {
      branch := nextBranch;
      branches, nextBranch := branches + {branch}, nextBranch + 1;
    }

    /** A branch is cancelled. With the last one the `cancel` of the native stream source runs. */
    method CancelBranch(branch: nat)
      requires Valid() && branch in branches
      modifies this`branches, this`end, store`bodies
      ensures Valid() && branches == old(branches) - {branch}
      ensures end == if old(end).Flowing? && branches == {} then Dropped else old(end)
      ensures store.bodies == if end == old(end) then old(store.bodies) else old(store.bodies) - {handle}
    {
      branches := branches - {branch};
      if branches == {} && end.Flowing? {
        var _ := store.CancelBody(handle);
        end := Dropped;
      }
    }
  }

  datatype ReadResult = Loaded(bytes: Bytes) | AlreadyRead | Unreadable

  class ResponseObject {
    const store: BodyStore
    var bodyHandle: Option<nat>
    var bodyUsed: bool
    var streamSource: Pipe?
    var branch: Option<nat>           // which branch of the pipe, until it is cancelled
    var position: nat
    var stream: Stream

    ghost predicate Valid()
      reads this, store, streamSource
    {
      && store.Valid()
      && (bodyHandle.Some? ==> bodyHandle.value in store.bodies && streamSource == null && !bodyUsed && stream.NoStream?)
      && (streamSource != null ==> streamSource.store == store && streamSource.Valid())
      && (streamSource != null ==> position <= |streamSource.history|)
      && (branch.Some? ==> streamSource != null && branch.value in streamSource.branches)
      && (streamSource != null && !bodyUsed ==> position == 0 && branch.Some?)
      && (bodyHandle.None? && streamSource == null ==> bodyUsed)
    }

    predicate IsBodyUnusable()
      reads this
    {
      bodyUsed || Locked()
    }

    predicate Locked()
      reads this
    {
      stream.CallerLocked? || stream.OwnLocked?
    }

    /** What reading the body to the end gives, before anything of it has been read here. */
    ghost function Whole(): Option<Bytes>
      requires Valid() && !bodyUsed
      reads this, store, streamSource
    {
      if bodyHandle.Some? then WholeBody(store.bodies[bodyHandle.value]) else streamSource.whole
    }

    constructor FromHandle(store: BodyStore, handle: nat)
      requires store.Valid() && handle in store.bodies
      ensures Valid() && !IsBodyUnusable() && this.store == store && Whole() == WholeBody(store.bodies[handle])
      ensures bodyHandle == Some(handle)
    {
      this.store, bodyHandle, bodyUsed, stream := store, Some(handle), false, NoStream;
      streamSource, branch, position := null, None, 0;
    }

    constructor FromBranch(pipe: Pipe, branch: nat)
      requires pipe.Valid() && branch in pipe.branches
      ensures Valid() && !IsBodyUnusable() && store == pipe.store && Whole() == pipe.whole && streamSource == pipe
      ensures bodyHandle == None && this.branch == Some(branch)
    {
      store, bodyHandle, bodyUsed, stream := pipe.store, None, false, NoStream;
      streamSource, this.branch, position := pipe, Some(branch), 0;
    }

    /** The handle moves to the stream source; the response gives it up. */
    method EnsureStreamSource()
      requires Valid() && !bodyUsed
      modifies this
      ensures Valid() && bodyHandle == None && streamSource != null && !bodyUsed && stream == old(stream)
      ensures Whole() == old(Whole()) && position == 0 && branch.Some?
      ensures old(streamSource) != null ==> streamSource == old(streamSource) && branch == old(branch)
      ensures old(streamSource) == null ==>
                && fresh(streamSource) && streamSource.end.Flowing? && Some(streamSource.handle) == old(bodyHandle)
                && streamSource.branches == {branch.value}
    {
      if streamSource == null {
        streamSource := new Pipe(store, bodyHandle.value);
        bodyHandle, position, branch := None, 0, Some(0);
      }
    }

    /** A clone shares the body and starts at its beginning, like this response. It is a branch of its own. */
    method Clone() returns (cloned: ResponseObject?)
      requires Valid()
      modifies this, streamSource
      ensures Valid() && (cloned == null <==> old(IsBodyUnusable()))
      ensures cloned == null ==> unchanged(this) && (streamSource != null ==> unchanged(streamSource))
      ensures cloned != null ==>
                && fresh(cloned) && cloned.Valid() && !cloned.bodyUsed && !bodyUsed
                && Whole() == cloned.Whole() == old(Whole())
                && !IsBodyUnusable() && !cloned.IsBodyUnusable() && cloned.streamSource == streamSource != null
                && cloned.store == store && branch.Some? && cloned.branch.Some? && cloned.branch != branch
      ensures cloned != null && old(streamSource) != null ==>
                && streamSource == old(streamSource) && branch == old(branch)
                && streamSource.end == old(streamSource.end) && streamSource.history == old(streamSource.history)
                && cloned.branch.value !in old(streamSource.branches)
                && streamSource.branches == old(streamSource.branches) + {cloned.branch.value}
      ensures cloned != null && old(streamSource) == null ==>
                && fresh(streamSource) && Some(streamSource.handle) == old(bodyHandle) && streamSource.end.Flowing?
                && streamSource.branches == {branch.value, cloned.branch.value}
    {
      if IsBodyUnusable() { return null; }
      EnsureStreamSource();
      stream := NoStream;
      var right := streamSource.Tee();
      cloned := new ResponseObject.FromBranch(streamSource, right);
    }

    /** `cancelResponseBody`: nothing while a reader holds the lock. Otherwise the branch of this
        response is cancelled, and with the last one the native body is dropped. */
    method CancelResponseBody()
      requires Valid()
      modifies this, store`bodies, streamSource
      ensures Valid()
      ensures old(Locked()) ==> unchanged(this) && store.bodies == old(store.bodies)
      ensures old(Locked()) && streamSource != null ==> unchanged(streamSource)
      ensures !old(Locked()) ==> bodyUsed && bodyHandle == None && branch == None
      ensures !old(Locked()) && old(bodyHandle).Some? ==> store.bodies == old(store.bodies) - {old(bodyHandle).value}
      ensures !old(Locked()) && old(bodyHandle).None? ==> streamSource == old(streamSource)
      ensures !old(Locked()) && old(branch).Some? ==>
                && streamSource.history == old(streamSource.history)
                && streamSource.branches == old(streamSource.branches) - {old(branch).value}
                && (streamSource.end == if old(streamSource.end).Flowing? && streamSource.branches == {} then Dropped
                                        else old(streamSource.end))
                && (store.bodies == if streamSource.end == old(streamSource.end) then old(store.bodies)
                                    else old(store.bodies) - {streamSource.handle})
    {
      if Locked() { return; }
      if !bodyUsed { EnsureStreamSource(); }
      bodyUsed, stream := true, Open;
      if branch.Some? {
        var own := branch.value;
        branch := None;
        streamSource.CancelBranch(own);
      }
    }

    /** `#consumeBytes`: by handle in one native call, otherwise chunk by chunk. A read that is not
        refused returns the whole body, or fails because the body is broken. A shared pipe stays
        good for the clones: it only grows. */
    method ConsumeBytes() returns (r: ReadResult)
      requires Valid()
      modifies this, store`bodies, streamSource
      ensures Valid() && streamSource == old(streamSource) && branch == old(branch)
      ensures old(IsBodyUnusable()) ==> r.AlreadyRead? && unchanged(this) && store.bodies == old(store.bodies)
      ensures !old(IsBodyUnusable()) ==> IsBodyUnusable() && bodyUsed && bodyHandle == None
      ensures !old(IsBodyUnusable()) ==> r == if old(Whole()).Some? then Loaded(old(Whole()).value) else Unreadable
      ensures streamSource != null ==>
                old(streamSource.history) <= streamSource.history && streamSource.branches == old(streamSource.branches)
      ensures streamSource != null && !old(streamSource.end).Dropped? ==> !streamSource.end.Dropped?
      ensures old(bodyHandle).Some? ==> store.bodies == old(store.bodies) - {old(bodyHandle).value}
      ensures streamSource != null ==>
                store.bodies - {streamSource.handle} == old(store.bodies) - {streamSource.handle}
    {
      if IsBodyUnusable() { return AlreadyRead; }
      if bodyHandle.Some? {
        var handle := bodyHandle.value;
        bodyHandle, bodyUsed, stream := None, true, OwnLocked;
        var bytes := store.ReadBodyAll(handle);
        if bytes.Some? { return Loaded(bytes.value); }
        var _ := store.CancelBody(handle);
        return Unreadable;
      }
      bodyUsed, stream := true, OwnLocked;
      r := ReadBranch(streamSource);
    }

    /** The loop over the chunks of a branch. */
    method ReadBranch(pipe: Pipe) returns (r: ReadResult)
      requires pipe.Valid() && pipe.branches != {} && pipe == streamSource && position == 0 && bodyUsed && stream.OwnLocked?
      modifies this`position, pipe`history, pipe`end, pipe.store`bodies
      ensures pipe.Valid() && old(pipe.history) <= pipe.history && !pipe.end.Dropped? && position <= |pipe.history|
      ensures pipe.store.bodies - {pipe.handle} == old(pipe.store.bodies) - {pipe.handle}
      ensures r == if pipe.whole.Some? then Loaded(pipe.whole.value) else Unreadable
    {
      var chunks: seq<Bytes> := [];
      while true
        invariant pipe.Valid() && !pipe.end.Dropped? && old(pipe.history) <= pipe.history
        invariant pipe.store.bodies - {pipe.handle} == old(pipe.store.bodies) - {pipe.handle}
        invariant position <= |pipe.history| && chunks == pipe.history[..position]
        invariant bodyUsed && stream.OwnLocked?
        decreases if pipe.end.Flowing? then 1 else 0,
                  if pipe.end.Flowing? then |pipe.store.bodies[pipe.handle]| else 0,
                  |pipe.history| - position
      {
        if position < |pipe.history| && !pipe.end.Failed? {
          chunks := chunks + [pipe.history[position]];
          position := position + 1;
        } else if pipe.end.Flowing? {
          pipe.Pull();
        } else if pipe.end.Finished? {
          assert pipe.history[..position] == pipe.history;
          return Loaded(Concat(chunks));
        } else {
          return Unreadable;
        }
      }
    }
  }

  /** A response and its clone are read independently, and both reads give the whole body. */
  method CloneAndReadBoth(response: ResponseObject) returns (first: ReadResult, second: ReadResult)
    requires response.Valid() && !response.IsBodyUnusable()
    modifies response, response.store`bodies, response.streamSource
    ensures response.Valid() && response.IsBodyUnusable()
    ensures var whole := old(response.Whole());
            first == second == if whole.Some? then Loaded(whole.value) else Unreadable
  {
    var cloned := response.Clone();
    first := response.ConsumeBytes();
    second := cloned.ConsumeBytes();
  }

  /** Cancelling a response does not spoil its clone: it is still read whole. */
  method CancelThenReadClone(response: ResponseObject) returns (r: ReadResult)
    requires response.Valid() && !response.IsBodyUnusable()
    modifies response, response.store`bodies, response.streamSource
    ensures response.Valid() && response.branch == None
    ensures r == if old(response.Whole()).Some? then Loaded(old(response.Whole()).value) else Unreadable
  {
    var cloned := response.Clone();
    response.CancelResponseBody();
    r := cloned.ConsumeBytes();
  }

  /** The native body is dropped with the second of two branches, in whichever order they are cancelled. */
  method CancelInTurn(response: ResponseObject, cloneFirst: bool) returns (kept: bool, left: bool)
    requires response.Valid() && !response.IsBodyUnusable() && response.bodyHandle.Some?
    modifies response, response.store`bodies
    ensures kept && !left
    ensures response.store.bodies == old(response.store.bodies) - {old(response.bodyHandle).value}
  {
    var handle := response.bodyHandle.value;
    var cloned := response.Clone();
    if cloneFirst { cloned.CancelResponseBody(); } else { response.CancelResponseBody(); }
    kept := handle in response.store.bodies;
    if cloneFirst { response.CancelResponseBody(); } else { cloned.CancelResponseBody(); }
    left := handle in response.store.bodies;
  }

  /** A second whole-body read, and a clone after the first, are refused. */
  method ReadTwice(response: ResponseObject) returns (first: ReadResult, second: ReadResult, late: ResponseObject?)
    requires response.Valid() && !response.IsBodyUnusable()
    modifies response, response.store`bodies, response.streamSource
    ensures response.Valid() && second.AlreadyRead? && late == null
    ensures first == if old(response.Whole()).Some? then Loaded(old(response.Whole()).value) else Unreadable
  {
    first := response.ConsumeBytes();
    second := response.ConsumeBytes();
    late := response.Clone();
  }

  /** The two paths agree: reading by handle, and reading a clone of the same body chunk by chunk. */
  method ReadBothWays(store: BodyStore, frames: seq<Frame>) returns (direct: ReadResult, shared: ReadResult)
    requires store.Valid()
    modifies store
    ensures store.Valid()
    ensures direct == shared == if WholeBody(frames).Some? then Loaded(WholeBody(frames).value) else Unreadable
  {
    var one := store.StoreBody(frames);
    var two := store.StoreBody(frames);
    var whole := new ResponseObject.FromHandle(store, one);
    direct := whole.ConsumeBytes();
    var original := new ResponseObject.FromHandle(store, two);
    var cloned := original.Clone();
    shared := cloned.ConsumeBytes();
  }
}
