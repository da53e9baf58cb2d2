/** `internal.RequestBodyReader`: the request body as the handler sees it. Every
    read is passed through unchanged, counted without a cap, and mirrored into a
    capped buffer. */
module RequestBodyReaders {
  import opened Common
  import opened Net
  import opened LimitedBuffers

  class RequestBodyReader {
    const body: ChunkStream      // the original request body
    const buf: LimitedBuffer     // the captured prefix
    var read: bool               // set by the first Read or Body call
    var consumed: int            // bytes handed to the handler

    /** Every byte the handler received went into the buffer, and the counter is
        their number; before any read nothing was captured. */
    ghost predicate Valid()
      reads this, buf
    {
      buf.Valid() && consumed == |buf.input| && (!read ==> buf.input == [])
    }

    /** `NewRequestBodyReader(body, maxSize)`. */
    constructor (body: ChunkStream, maxSize: int)
      ensures Valid() && fresh(buf)
      ensures this.body == body && buf.maxSize == maxSize
      ensures !read && consumed == 0
    {
      this.body := body;
      buf := new LimitedBuffer(maxSize);
      read := false;
      consumed := 0;
    }

    /** `Read(p)` with `len(p) == room`: returns exactly what the body returns;
        capturing never changes the result. */
    method Read(room: nat) returns (data: seq<byte>, err: Option<Error>)
      requires Valid()
      modifies this, buf, body
      ensures Valid() && read && buf.maxSize == old(buf.maxSize)
      ensures ReadOutcome(data, err, body.state) == StreamRead(old(body.state), room)
      ensures buf.input == old(buf.input) + data
      ensures consumed == old(consumed) + |data|
    {
      read := true;
      var readData, readErr := body.Read(room);
      if |readData| > 0 {
        consumed := consumed + |readData|;
        var writeN, writeErr := buf.Write(readData);
        // LimitedBuffer.Write always reports (len(p), nil): the Go code's two
        // failure returns here cannot be reached
        if writeErr.Some? {
          assert false;
        }
        if writeN != |readData| {
          assert false;
        }
      }
      return readData, readErr;
    }

    /** `Close()`: the body's own result. */
    method Close() returns (err: Option<Error>)
      modifies body
      ensures err == old(body.state).closeResult
      ensures body.state == old(body.state).(closed := true)
    {
      err := body.Close();
    }

    /** `Body()`: after a read, the captured prefix; if nothing ever read, one
        read of up to MaxSize bytes from the body (none when MaxSize <= 0). */
    method Body() returns (bytes: seq<byte>, err: Option<Error>)
      requires Valid()
      modifies this, body
      ensures Valid() && read && consumed == old(consumed)
      ensures old(read) ==>
        bytes == Capture(buf.maxSize, buf.input) && err == None && body.state == old(body.state)
      ensures !old(read) && buf.maxSize > 0 ==>
        ReadOutcome(bytes, err, body.state) == StreamRead(old(body.state), buf.maxSize)
      ensures !old(read) && buf.maxSize <= 0 ==>
        bytes == [] && err == None && body.state == old(body.state)
    {
      if !read {
        read := true;
        if buf.maxSize > 0 {
          // make([]byte, MaxSize) is never nil, so the slice is always returned
          bytes, err := body.Read(buf.maxSize);
          return;
        }
        return [], None;
      }
      return buf.Bytes(), None;
    }

    /** `ConsumedBodyBytes()`: how many bytes the handler has read, uncapped. */
    function ConsumedBodyBytes(): (n: int)
      reads this, buf
      requires Valid()
      ensures n == |buf.input| && n >= |buf.Bytes()|
    {
      consumed
    }
  }
}
