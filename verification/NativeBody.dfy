/** rust/src/store/body_store.rs: bodies of responses behind handles, read chunk by chunk or whole. */
module NativeBody {
  import opened Basics

  /** What the connection still has to deliver; the end of the sequence is the end of the body. */
  datatype Frame = Data(bytes: Bytes) | Trailers | Broken

  datatype Chunk = Bytes(bytes: Bytes) | End | Failure

  /** The next data frame; other frames are skipped. */
  function NextChunk(frames: seq<Frame>): (Chunk, seq<Frame>) {
    if frames == [] then (End, [])
    else
      match frames[0]
      case Data(bytes) => (Bytes(bytes), frames[1..])
      case Broken => (Failure, frames[1..])
      case Trailers => NextChunk(frames[1..])
  }

  /** The whole body: the data frames in order, or None when the connection breaks. */
  function WholeBody(frames: seq<Frame>): Option<Bytes> {
    if frames == [] then Some([])
    else
      match frames[0]
      case Data(bytes) =>
        var rest := WholeBody(frames[1..]);
        if rest.Some? then Some(bytes + rest.value) else None
      case Broken => None
      case Trailers => WholeBody(frames[1..])
  }

  lemma {:induction false} NextChunkShrinks(frames: seq<Frame>)
    ensures NextChunk(frames).0.End? || |NextChunk(frames).1| < |frames|
  {
    if frames == [] {
    } else if frames[0].Trailers? {
      NextChunkShrinks(frames[1..]);
    }
  }

  /** The whole body is the next chunk and the whole of what follows it. */
  lemma {:induction false} WholeByChunks(frames: seq<Frame>)
    ensures match NextChunk(frames).0
            case End => WholeBody(frames) == Some([])
            case Failure => WholeBody(frames) == None
            case Bytes(b) =>
              WholeBody(frames) ==
              var rest := WholeBody(NextChunk(frames).1); if rest.Some? then Some(b + rest.value) else None
  {
    if frames == [] {
    } else if frames[0].Trailers? {
      WholeByChunks(frames[1..]);
    }
  }

  /** What has been read, put before what is still to come. */
  function After(read: seq<byte>, rest: Option<Bytes>): Option<Bytes> {
    if rest.Some? then Some(read + rest.value) else None
  }

  lemma AfterNothing(rest: Option<Bytes>)
    ensures After([], rest) == rest
  {
    if rest.Some? { assert [] + rest.value == rest.value; }
  }

  lemma AfterAppend(read: seq<byte>, b: seq<byte>, rest: Option<Bytes>)
    ensures After(read, After(b, rest)) == After(read + b, rest)
  {
    if rest.Some? { assert read + (b + rest.value) == (read + b) + rest.value; }
  }

  datatype ChunkResult = Read(bytes: Bytes, done: bool) | ReadError

  class BodyStore {
    var bodies: map<nat, seq<Frame>>
    var next: nat

    ghost predicate Valid()
      reads this
    {
      forall h :: h in bodies ==> h < next
    }

    constructor ()
      ensures Valid() && bodies == map[]
    {
      bodies, next := map[], 1;
    }

    method StoreBody(frames: seq<Frame>) returns (handle: nat)
      requires Valid()
      modifies this
      ensures Valid() && handle !in old(bodies) && bodies == old(bodies)[handle := frames]
    {
      handle := next;
      next := next + 1;
      bodies := bodies[handle := frames];
    }

    method CancelBody(handle: nat) returns (present: bool)
      requires Valid()
      modifies this`bodies
      ensures Valid() && present == (handle in old(bodies)) && bodies == old(bodies) - {handle}
    {
      present := handle in bodies;
      bodies := bodies - {handle};
    }

    /** One data frame. The handle goes away at the end of the body and on an error. */
    method ReadBodyChunk(handle: nat) returns (r: ChunkResult)
      requires Valid()
      modifies this`bodies
      ensures Valid()
      ensures handle !in old(bodies) ==> r == ReadError && bodies == old(bodies)
      ensures handle in old(bodies) ==>
                var (chunk, rest) := NextChunk(old(bodies)[handle]);
                match chunk
                case Bytes(b) => r == Read(b, false) && bodies == old(bodies)[handle := rest]
                case End => r == Read([], true) && bodies == old(bodies) - {handle}
                case Failure => r == ReadError && bodies == old(bodies) - {handle}
    {
      if handle !in bodies { return ReadError; }
      var frames := bodies[handle];
      while frames != []
        invariant NextChunk(frames) == NextChunk(bodies[handle])
        invariant bodies == old(bodies)
        decreases |frames|
      {
        var frame := frames[0];
        frames := frames[1..];
        match frame {
          case Data(b) =>
            bodies := bodies[handle := frames];
            return Read(b, false);
          case Broken =>
            bodies := bodies - {handle};
            return ReadError;
          case Trailers =>
        }
      }
      bodies := bodies - {handle};
      return Read([], true);
    }

    /** The whole body. The handle is removed before the first frame is read. */
    method ReadBodyAll(handle: nat) returns (r: Option<Bytes>)
      requires Valid()
      modifies this`bodies
      ensures Valid() && bodies == old(bodies) - {handle}
      ensures r == if handle in old(bodies) then WholeBody(old(bodies)[handle]) else None
    {
      if handle !in bodies { return None; }
      var frames := bodies[handle];
      bodies := bodies - {handle};
      var bytes: seq<byte> := [];
      AfterNothing(WholeBody(frames));
      while frames != []
        invariant Valid() && bodies == old(bodies) - {handle}
        invariant After(bytes, WholeBody(frames)) == WholeBody(old(bodies)[handle])
        decreases |frames|
      {
        match frames[0] {
          case Data(b) =>
            AfterAppend(bytes, b, WholeBody(frames[1..]));
            bytes := bytes + b;
          case Broken => return None;
          case Trailers =>
        }
        frames := frames[1..];
      }
      assert bytes + [] == bytes;
      return Some(bytes);
    }

    /** Looping `read_body_chunk` until it is done gives the same bytes, the same errors and the
        same store as `read_body_all`. */
    method ReadByChunks(handle: nat) returns (r: Option<Bytes>)
      requires Valid()
      modifies this`bodies
      ensures Valid() && bodies == old(bodies) - {handle}
      ensures r == if handle in old(bodies) then WholeBody(old(bodies)[handle]) else None
    {
      if handle !in bodies {
        var _ := ReadBodyChunk(handle);
        return None;
      }
      var bytes: seq<byte> := [];
      AfterNothing(WholeBody(bodies[handle]));
      while true
        invariant Valid() && handle in bodies && bodies - {handle} == old(bodies) - {handle}
        invariant After(bytes, WholeBody(bodies[handle])) == WholeBody(old(bodies)[handle])
        decreases |bodies[handle]|
      {
        ghost var frames := bodies[handle];
        NextChunkShrinks(frames);
        WholeByChunks(frames);
        var result := ReadBodyChunk(handle);
        if result.ReadError? { return None; }
        if result.done {
          assert bytes + [] == bytes;
          return Some(bytes);
        }
        AfterAppend(bytes, result.bytes, WholeBody(NextChunk(frames).1));
        bytes := bytes + result.bytes;
      }
    }
  }
}
