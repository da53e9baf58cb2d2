/** What a handler does during one request, as a script of calls on the
    `http.ResponseWriter` and the request body it was given, and the state those
    calls leave behind: on the bare transport (`WireRun`), and on the capturing
    writer and body reader together with the transport (`Run`). */
module Exchanges {
  import opened Common
  import opened Net
  import opened LimitedBuffers
  import opened PlainWriters

  /** One call a handler makes. */
  datatype Action =
    | Read(room: nat)                        // r.Body.Read(p) with len(p) == room
    | Close                                  // r.Body.Close()
    | Write(data: seq<byte>)                 // w.Write(data)
    | WriteHeader(code: int)                 // w.WriteHeader(code)
    | SetHeader(name: string, text: string)   // w.Header().Set(name, text)
    | SetMetric(key: Dynamic, value: Dynamic)  // httpmetrics.SetCustomMetric(w, key, value)

  /** The transport: what the client has received and what is left of the body. */
  datatype Wire = Wire(client: ClientState, stream: StreamState)

  /** One call made directly on the transport's writer and body. Setting a custom
      metric on the transport's writer does nothing. */
  function WireStep(t: Wire, a: Action): Wire
  {
    match a
    case Read(room) => t.(stream := StreamRead(t.stream, room).next)
    case Close => t.(stream := t.stream.(closed := true))
    case Write(data) => t.(client := ClientWrite(t.client, data).next)
    case WriteHeader(code) => t.(client := ClientWriteHeader(t.client, code))
    case SetHeader(name, text) => t.(client := t.client.(header := t.client.header[name := [text]]))
    case SetMetric(_, _) => t
  }

  function WireRun(t: Wire, script: seq<Action>): Wire
    decreases |script|
  {
    if script == [] then t
    else WireStep(WireRun(t, script[..|script| - 1]), script[|script| - 1])
  }

  /** The transport together with the state of the two capturing wrappers: the
      recorded status, the written-byte counter, every byte offered to Write,
      every byte the handler read, the reader's `read` flag and the custom-metric
      store. */
  datatype View = View(
    wire: Wire,
    status: int,
    written: int,
    offered: seq<byte>,
    consumed: seq<byte>,
    read: bool,
    custom: map<Dynamic, Dynamic>)

  /** The state right after the wrappers are created around a transport. */
  function Start(client: ClientState, stream: StreamState): (v: View)
    ensures v.wire == Wire(client, stream) && v.status == 0 && v.written == 0
    ensures v.offered == [] && v.consumed == [] && !v.read && v.custom == map[]
  {
    View(Wire(client, stream), 0, 0, [], [], false, map[])
  }

  /** One call made through the wrappers. */
  function Step(v: View, a: Action): View
  {
    match a
    case Read(room) =>
      var o := StreamRead(v.wire.stream, room);
      v.(wire := v.wire.(stream := o.next), consumed := v.consumed + o.data, read := true)
    case Close =>
      v.(wire := v.wire.(stream := v.wire.stream.(closed := true)))
    case Write(data) =>
      var o := ClientWrite(v.wire.client, data);
      v.(wire := v.wire.(client := o.next), written := v.written + Max(0, o.n), offered := v.offered + data)
    case WriteHeader(code) =>
      v.(wire := v.wire.(client := ClientWriteHeader(v.wire.client, code)), status := code)
    case SetHeader(name, text) =>
      var c := v.wire.client;
      v.(wire := v.wire.(client := c.(header := c.header[name := [text]])))
    case SetMetric(key, value) =>
      v.(custom := v.custom[key := value])
  }

  function Run(v: View, script: seq<Action>): View
    decreases |script|
  {
    if script == [] then v
    else Step(Run(v, script[..|script| - 1]), script[|script| - 1])
  }

  /** The bytes passed to Write, in order. */
  function Payload(script: seq<Action>): seq<byte>
    decreases |script|
  {
    if script == [] then []
    else
      var a := script[|script| - 1];
      Payload(script[..|script| - 1]) + (if a.Write? then a.data else [])
  }

  /** The codes passed to WriteHeader, in order. */
  function Codes(script: seq<Action>): seq<int>
    decreases |script|
  {
    if script == [] then []
    else
      var a := script[|script| - 1];
      Codes(script[..|script| - 1]) + (if a.WriteHeader? then [a.code] else [])
  }

  /** Whether the script reads the body at all. */
  predicate Reads(script: seq<Action>)
  {
    exists i :: 0 <= i < |script| && script[i].Read?
  }

  /** Whether the script closes the body. */
  predicate Closes(script: seq<Action>)
  {
    exists i :: 0 <= i < |script| && script[i].Close?
  }

  /** The value last stored under `key`, if the script stores one. */
  function LastMetric(script: seq<Action>, key: Dynamic): Option<Dynamic>
    decreases |script|
  {
    if script == [] then None
    else
      var a := script[|script| - 1];
      if a.SetMetric? && a.key == key then Some(a.value) else LastMetric(script[..|script| - 1], key)
  }

  // ------------------------------------------------------------------- lemmas

  /** Capturing is transparent: through the wrappers, the client receives exactly
      what it would have received without them, and the body is drained exactly
      as it would have been. */
  lemma {:induction false} RunIsTransparent(v: View, script: seq<Action>)
    ensures Run(v, script).wire == WireRun(v.wire, script)
    decreases |script|
  {
    if script != [] {
      RunIsTransparent(v, script[..|script| - 1]);
    }
  }

  /** The recorded status is the last code passed to WriteHeader; without any,
      it is what it was before. */
  lemma {:induction false} RunStatus(v: View, script: seq<Action>)
    ensures Run(v, script).status == LastOr(Codes(script), v.status)
    decreases |script|
  {
    if script != [] {
      RunStatus(v, script[..|script| - 1]);
    }
  }

  /** Everything offered to Write is recorded, in order, whatever the client accepted. */
  lemma {:induction false} RunOffered(v: View, script: seq<Action>)
    ensures Run(v, script).offered == v.offered + Payload(script)
    decreases |script|
  {
    if script != [] {
      RunOffered(v, script[..|script| - 1]);
    }
  }

  /** The written-byte counter grows by exactly the number of bytes the client
      received. */
  lemma {:induction false} RunWrittenIsSent(v: View, script: seq<Action>)
    ensures Run(v, script).written - v.written == |Run(v, script).wire.client.sent| - |v.wire.client.sent|
    decreases |script|
  {
    if script != [] {
      RunWrittenIsSent(v, script[..|script| - 1]);
    }
  }

  /** The client receives a prefix of the bytes offered to Write: all of them, or,
      once a write came up short, what it got before the connection stopped
      accepting bytes. */
  lemma {:induction false} RunSentIsPrefix(v: View, script: seq<Action>)
    ensures var before := v.wire.client.sent;
      var after := Run(v, script).wire.client;
      |before| <= |after.sent| && after.sent[..|before|] == before &&
      (after.sent[|before|..] == Payload(script) ||
       (after.room == 0 && after.sent[|before|..] <= Payload(script)))
    decreases |script|
  {
    if script != [] {
      var init := script[..|script| - 1];
      var a := script[|script| - 1];
      RunSentIsPrefix(v, init);
      var before := v.wire.client.sent;
      var u := Run(v, init).wire.client;
      var w := Run(v, script).wire.client;
      if a.Write? {
        var o := ClientWrite(u, a.data);
        assert w == o.next;
        assert w.sent == u.sent + a.data[..o.n];
        assert w.sent[..|before|] == u.sent[..|before|];
        assert w.sent[|before|..] == u.sent[|before|..] + a.data[..o.n];
        assert Payload(script) == Payload(init) + a.data;
      } else {
        assert w.sent == u.sent && w.room == u.room;
        assert Payload(script) == Payload(init);
      }
    }
  }

  /** The bytes the handler read are, in order, the front of the body: together
      with what is left in the stream they make up the body as it was. */
  lemma {:induction false} RunConsumed(v: View, script: seq<Action>)
    ensures Run(v, script).consumed + Flatten(Run(v, script).wire.stream.pending)
         == v.consumed + Flatten(v.wire.stream.pending)
    decreases |script|
  {
    if script != [] {
      var init := script[..|script| - 1];
      RunConsumed(v, init);
      var a := script[|script| - 1];
      var u := Run(v, init);
      if a.Read? {
        var o := StreamRead(u.wire.stream, a.room);
        assert u.consumed + o.data + Flatten(o.next.pending) == u.consumed + Flatten(u.wire.stream.pending);
      }
    }
  }

  /** The reader's `read` flag is set exactly when the script reads the body, and
      until then nothing is consumed. */
  lemma {:induction false} RunReadFlag(v: View, script: seq<Action>)
    ensures Run(v, script).read <==> v.read || Reads(script)
    ensures !Run(v, script).read ==> Run(v, script).consumed == v.consumed
    decreases |script|
  {
    if script != [] {
      var init := script[..|script| - 1];
      RunReadFlag(v, init);
      if Reads(script) {
        var i :| 0 <= i < |script| && script[i].Read?;
        if i < |script| - 1 {
          assert init[i].Read?;
        }
      }
      if Reads(init) {
        var i :| 0 <= i < |init| && init[i].Read?;
        assert script[i] == init[i];
      }
    }
  }

  /** A Close through the reader reaches the body: the stream ends up closed
      exactly when it started closed or the script closes it; closing neither
      sets the `read` flag nor consumes anything. */
  lemma {:induction false} RunClosed(v: View, script: seq<Action>)
    ensures Run(v, script).wire.stream.closed <==> v.wire.stream.closed || Closes(script)
    decreases |script|
  {
    if script != [] {
      var init := script[..|script| - 1];
      RunClosed(v, init);
      if Closes(script) {
        var i :| 0 <= i < |script| && script[i].Close?;
        if i < |script| - 1 {
          assert init[i].Close?;
        }
      }
      if Closes(init) {
        var i :| 0 <= i < |init| && init[i].Close?;
        assert script[i] == init[i];
      }
    }
  }

  /** A handler that closes the body without reading it leaves `Body()` nothing
      to fall back on: the closed stream yields no bytes. */
  lemma CloseBeforeRead(v: View, script: seq<Action>, room: nat)
    requires Closes(script) && !Reads(script) && !v.read
    ensures var u := Run(v, script); !u.read && u.consumed == v.consumed && StreamRead(u.wire.stream, room).data == []
  {
    RunClosed(v, script);
    RunReadFlag(v, script);
  }

  /** The custom-metric store holds, for each key, the value last stored under
      it, or the value it had before. */
  lemma {:induction false} RunCustom(v: View, script: seq<Action>, key: Dynamic)
    ensures LastMetric(script, key).Some? ==>
      key in Run(v, script).custom && Run(v, script).custom[key] == LastMetric(script, key).value
    ensures LastMetric(script, key).None? ==>
      (key in Run(v, script).custom <==> key in v.custom) &&
      (key in v.custom ==> Run(v, script).custom[key] == v.custom[key])
    decreases |script|
  {
    if script != [] {
      RunCustom(v, script[..|script| - 1], key);
    }
  }

  /** The recorded status and the status the client received can differ: a
      second WriteHeader overwrites the recorded code but does not reach the
      client, and a Write without WriteHeader sends 200 while 0 is recorded. */
  lemma StatusDivergence(client: ClientState, stream: StreamState)
    requires client.status == 0
    ensures var v := Run(Start(client, stream), [WriteHeader(201), WriteHeader(500)]);
      v.status == 500 && v.wire.client.status == 201
    ensures var v := Run(Start(client, stream), [Write([])]);
      v.status == 0 && v.wire.client.status == 200
  {
    var s := [WriteHeader(201), WriteHeader(500)];
    assert s[..1] == [WriteHeader(201)] && s[..1][..0] == [];
    var t := [Write([])];
    assert t[..0] == [];
  }
}
