/** The two transport collaborators the capture layer decorates: the request
    body stream (`io.ReadCloser`) and the client's `http.ResponseWriter`. Their
    behaviour is not part of the library; they are given a small deterministic
    model so that the decorators can be specified against it. */
module Net {
  import opened Common

  /** An `http.Header`: canonical key to values. */
  type Header = map<string, seq<string>>

  /** The concatenation of a sequence of chunks. */
  function Flatten(chunks: seq<seq<byte>>): seq<byte>
  {
    if chunks == [] then [] else chunks[0] + Flatten(chunks[1..])
  }

  // ---------------------------------------------------------------- request body

  /** A request body: the chunks the client has still to deliver, the error a read
      returns once they are exhausted (io.EOF, or a transport failure), and the
      close state. */
  datatype StreamState = StreamState(
    pending: seq<seq<byte>>,
    end: Error,
    closed: bool,
    closeResult: Option<Error>)

  datatype ReadOutcome = ReadOutcome(data: seq<byte>, err: Option<Error>, next: StreamState)

  /** One `Read(p)` with `len(p) == room`: the next chunk clipped to `room` bytes;
      what does not fit stays at the front of the stream. `data` is `p[:n]`. */
  function StreamRead(s: StreamState, room: nat): (r: ReadOutcome)
    ensures |r.data| <= room
    ensures r.data + Flatten(r.next.pending) == Flatten(s.pending)
    ensures r.next.closed == s.closed && r.next.end == s.end && r.next.closeResult == s.closeResult
    ensures r.err.None? <==> !s.closed && s.pending != []
  {
    if s.closed then ReadOutcome([], Some(ErrBodyClosed), s)
    else if s.pending == [] then ReadOutcome([], Some(s.end), s)
    else
      var chunk := s.pending[0];
      var k := Min(room, |chunk|);
      var rest := if k == |chunk| then s.pending[1..] else [chunk[k..]] + s.pending[1..];
      assert Flatten([chunk[k..]] + s.pending[1..]) == chunk[k..] + Flatten(s.pending[1..]) by {
        assert ([chunk[k..]] + s.pending[1..])[1..] == s.pending[1..];
      }
      assert chunk[..k] + chunk[k..] == chunk;
      ReadOutcome(chunk[..k], None, s.(pending := rest))
  }

  /** The transport's request body. */
  class ChunkStream {
    var state: StreamState

    constructor (s: StreamState)
      ensures state == s
    {
      state := s;
    }

    method Read(room: nat) returns (data: seq<byte>, err: Option<Error>)
      modifies this
      ensures ReadOutcome(data, err, state) == StreamRead(old(state), room)
    {
      var r := StreamRead(state, room);
      data, err, state := r.data, r.err, r.next;
    }

    method Close() returns (err: Option<Error>)
      modifies this
      ensures err == old(state).closeResult
      ensures state == old(state).(closed := true)
    {
      err := state.closeResult;
      state := state.(closed := true);
    }
  }

  // -------------------------------------------------------------- client writer

  /** What the client has received: body bytes, the status line (0 until it is
      sent), the response header, and how many more bytes the connection takes. */
  datatype ClientState = ClientState(sent: seq<byte>, status: int, header: Header, room: nat)

  datatype WriteOutcome = WriteOutcome(n: nat, err: Option<Error>, next: ClientState)

  /** `w.Write(b)` on the real writer: sends as much of `b` as the connection
      accepts; a first write without a status sends 200, as net/http does. */
  function ClientWrite(c: ClientState, b: seq<byte>): (r: WriteOutcome)
    ensures r.n <= |b| && r.next.sent == c.sent + b[..r.n]
    ensures r.err.None? <==> r.n == |b|
    ensures r.next.header == c.header
    ensures r.next.status == if c.status == 0 then 200 else c.status
  {
    var k := Min(|b|, c.room);
    WriteOutcome(k, if k < |b| then Some(ErrConnection) else None,
                 c.(sent := c.sent + b[..k], room := c.room - k, status := if c.status == 0 then 200 else c.status))
  }

  /** `w.WriteHeader(code)` on the real writer: only the first status is sent; later
      calls are superfluous and ignored, as net/http does. */
  function ClientWriteHeader(c: ClientState, code: int): (r: ClientState)
    ensures r.sent == c.sent && r.header == c.header && r.room == c.room
    ensures r.status == if c.status == 0 then code else c.status
  {
    if c.status == 0 then c.(status := code) else c
  }

  /** The transport's `http.ResponseWriter`. */
  class ClientWriter {
    var state: ClientState

    constructor (c: ClientState)
      ensures state == c
    {
      state := c;
    }

    method Write(b: seq<byte>) returns (n: int, err: Option<Error>)
      modifies this
      ensures n >= 0 && WriteOutcome(n, err, state) == ClientWrite(old(state), b)
    {
      var r := ClientWrite(state, b);
      n, err, state := r.n, r.err, r.next;
    }

    method WriteHeader(code: int)
      modifies this
      ensures state == ClientWriteHeader(old(state), code)
    {
      state := ClientWriteHeader(state, code);
    }

    /** `w.Header().Set(key, value)`. */
    method SetHeader(key: string, value: string)
      modifies this
      ensures state == old(state).(header := old(state).header[key := [value]])
    {
      state := state.(header := state.header[key := [value]]);
    }
  }
}
