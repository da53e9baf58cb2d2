/** The inner handler's run, call by call: on the capturing writer and body
    reader the middleware created (`ServeWrapped`), or directly on the
    transport (`ServeOriginal`). The calls themselves come from a script; the
    objects they reach are the model's own. */
module Handlers {
  import opened Common
  import opened Net
  import opened RequestBodyReaders
  import opened ResponseWriters
  import opened HttpMetrics
  import opened Exchanges

  /** The state of the wrappers and the transport under them. */
  ghost function Snapshot(rw: CapturingWriter, reader: RequestBodyReader): View
    reads rw.Objects(), rw.Client(), reader, reader.buf, reader.body
  {
    View(Wire(rw.Client().state, reader.body.state), rw.Base().statusCode, rw.Base().written,
         rw.Base().offered, reader.buf.input, reader.read, rw.Base().custom)
  }

  /** One call through a capturing writer and body reader. */
  method StepWrapped(a: Action, rw: CapturingWriter, reader: RequestBodyReader)
    requires rw.Valid() && reader.Valid() && reader.buf !in rw.Objects()
    modifies rw.Objects(), rw.Client(), reader, reader.buf, reader.body
    ensures rw.Valid() && reader.Valid()
    ensures rw.Limit() == old(rw.Limit()) && reader.buf.maxSize == old(reader.buf.maxSize)
    ensures Snapshot(rw, reader) == Step(old(Snapshot(rw, reader)), a)
  {
    match a
    case Read(room) =>
      var _, _ := reader.Read(room);
    case Close =>
      var _ := reader.Close();
    case Write(data) =>
      var _, _ := rw.Write(data);
    case WriteHeader(code) =>
      rw.WriteHeader(code);
    case SetHeader(name, text) =>
      rw.Client().SetHeader(name, text);
    case SetMetric(key, value) =>
      SetCustomMetric(CapturingValue(rw), key, value);
  }

  /** Runs the handler's calls through a capturing writer and body reader. */
  method ServeWrapped(script: seq<Action>, rw: CapturingWriter, reader: RequestBodyReader)
    requires rw.Valid() && reader.Valid() && reader.buf !in rw.Objects()
    modifies rw.Objects(), rw.Client(), reader, reader.buf, reader.body
    ensures rw.Valid() && reader.Valid()
    ensures rw.Limit() == old(rw.Limit()) && reader.buf.maxSize == old(reader.buf.maxSize)
    ensures Snapshot(rw, reader) == Run(old(Snapshot(rw, reader)), script)
  {
    ghost var v0 := Snapshot(rw, reader);
    for i := 0 to |script|
      invariant rw.Valid() && reader.Valid()
      invariant rw.Limit() == old(rw.Limit()) && reader.buf.maxSize == old(reader.buf.maxSize)
      invariant Snapshot(rw, reader) == Run(v0, script[..i])
    {
      assert script[..i + 1][..i] == script[..i];
      StepWrapped(script[i], rw, reader);
    }
    assert script[..|script|] == script;
  }

  /** Runs the handler's calls on the transport's own writer and body. */
  method ServeOriginal(script: seq<Action>, w: ClientWriter, stream: ChunkStream)
    modifies w, stream
    ensures Wire(w.state, stream.state) == WireRun(old(Wire(w.state, stream.state)), script)
  {
    ghost var t0 := Wire(w.state, stream.state);
    for i := 0 to |script|
      invariant Wire(w.state, stream.state) == WireRun(t0, script[..i])
    {
      assert script[..i + 1][..i] == script[..i];
      match script[i]
      case Read(room) =>
        var _, _ := stream.Read(room);
      case Close =>
        var _ := stream.Close();
      case Write(data) =>
        var _, _ := w.Write(data);
      case WriteHeader(code) =>
        w.WriteHeader(code);
      case SetHeader(name, text) =>
        w.SetHeader(name, text);
      case SetMetric(key, value) =>
        SetCustomMetric(ClientValue(w), key, value);
    }
    assert script[..|script|] == script;
  }
}
