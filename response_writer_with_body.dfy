/** `internal.responseWriterWithBody`: a `responseWriterWithoutBody` that also
    mirrors every written byte into a capped buffer before forwarding it. */
module BodyWriters {
  import opened Common
  import opened Net
  import opened LimitedBuffers
  import opened PlainWriters

  class ResponseWriterWithBody {
    const base: ResponseWriterWithoutBody   // the embedded writer: status, counter, store
    const body: LimitedBuffer

    /** The buffer has been fed exactly the bytes passed to Write. */
    ghost predicate Valid()
      reads this, base, body
    {
      base.Valid() && body.Valid() && body.input == base.offered
    }

    /** `NewResponseWriterWithBody(w, maxSize)`. */
    constructor (w: ClientWriter, maxSize: int)
      ensures Valid() && fresh(base) && fresh(body)
      ensures base.w == w && body.maxSize == maxSize
      ensures base.statusCalls == [] && base.accepted == [] && base.offered == [] && base.custom == map[]
    {
      base := new ResponseWriterWithoutBody(w);
      body := new LimitedBuffer(maxSize);
    }

    /** `Write(b)`: captures `b` first, then forwards it and returns the client's result. */
    method Write(b: seq<byte>) returns (n: int, err: Option<Error>)
      requires Valid()
      modifies base, body, base.w
      ensures Valid() && body.maxSize == old(body.maxSize)
      ensures n >= 0 && WriteOutcome(n, err, base.w.state) == ClientWrite(old(base.w.state), b)
      ensures base.accepted == old(base.accepted) + [n] && base.offered == old(base.offered) + b
      ensures base.written == old(base.written) + Max(0, n)
      ensures base.statusCode == old(base.statusCode) && base.statusCalls == old(base.statusCalls)
      ensures base.custom == old(base.custom)
    {
      var s := |b|;
      var bodyN, bodyErr := body.Write(b);
      // LimitedBuffer.Write always reports (len(b), nil): the Go code's error and
      // short-write returns here cannot be reached
      if bodyErr.Some? {
        assert false;
      }
      if bodyN != s {
        assert false;
      }
      n, err := base.Write(b);
    }

    /** `Body()`: the first min(max(0, maxSize), total) bytes passed to Write,
        including bytes the client's writer did not accept. */
    function Body(): (captured: seq<byte>)
      reads this, base, body
      requires Valid()
      ensures captured == Capture(body.maxSize, base.offered)
      ensures |captured| <= Max(0, body.maxSize)
    {
      body.Bytes()
    }
  }
}
