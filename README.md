# httpmetrics in Dafny

A model of the core of `httpmetrics`, a Go HTTP middleware. For each request it
decides whether to collect metrics. When it does, it wraps the request body and
the response writer in capturing decorators, runs the real handler through them,
and delivers one `Metrics` record (status, headers, bounded copies of both
bodies, byte counts, custom annotations) to exactly one consumer.

The model has two layers.

- **Byte-capture decorators** (`internal/`). Each is a class whose fields the
  methods update in place:
  - `LimitedBuffer`: a capped, append-only buffer that reports every write as fully accepted.
  - `RequestBodyReader`: counts and mirrors every byte the handler reads, with a one-shot fallback read.
  - `responseWriterWithoutBody` and `responseWriterWithBody`: record the status and the written-byte counter; the second also mirrors the body.

  Each class keeps a ghost history of its inputs. Its `Valid()` ties the real
  fields to a function of that history. For example, the buffer's contents are
  `Capture(MaxSize, everything written)`, and the counter is the sum of the
  positive counts the client's writer returned.
- **Dispatch** (`collector.go`, `metrics.go`).
  - `Collect` registers consumers in a route map, with a loop proved against the fold `Register`.
  - `shouldCollect` is the first-match-wins chain `Choose`.
  - `ServeHTTP` either collects or passes the request through.

  Three things come from outside the library and are parameters of the model:
  - the inner handler, a script of calls (`Exchanges.Action`);
  - the custom router's opt-in decision, a function;
  - the consumers.

  Calls into outside code are recorded in an event log. That log is how the
  model states "the router was not consulted" and "exactly one consumer was
  called".

The transport is given a small deterministic model in `Net`:
- a request body that delivers chunks, clipped to the reader's buffer;
- a client writer that may accept fewer bytes than offered, and sends only the first status.

Everything about the decorators is proved against this transport model. The
central results are these:
- capturing is transparent while the handler runs (for handlers that do not type-assert the writer), including a `Close` of the body, which reaches the stream (`Exchanges.RunClosed`): when it returns, the client and the body stream are in the same state as without the wrappers (`Exchanges.RunIsTransparent`). Afterwards, if the handler never read the body and `CollectRequestBody > 0`, `RequestBodyReader.Body()` makes one more read of up to `CollectRequestBody` bytes from the stream (`Collectors.StreamAfter`);
- the recorded status is the last one set (`Exchanges.RunStatus`);
- the counter equals the bytes the client received (`Exchanges.RunWrittenIsSent`);
- the captured bodies are capped prefixes of the true bodies (`Collectors.ReportedValues`);
- a registered path reaches its consumer (`Collectors.RegisteredPathIsCollected`).

Points where the code's behaviour is easy to misread, each stated as the code has it:
- **Status.** `WriteHeader` overwrites the recorded status (last call wins), while `net/http` sends the client only the first status. So the reported code and the code the client received can differ (`Exchanges.StatusDivergence`).
- **Lookup.** A request path is only lower-cased, never cleaned. So "/TEST/" does not reach a consumer registered for "/test", while "/TEST" does (`Paths.LookupDoesNotClean`).
- **Default handler options.** The default handler is chosen with the collector's shared options, while a route hit or the custom router gets a private copy (`Collectors.Collector.ShouldCollect`).
- **`fakeRequest`.** It returns the request itself, capturing body included; nothing is cloned or detached (`Collectors.FakeRequest`).
- **Fallback read.** The fallback read in `RequestBodyReader.Body` is keyed on the `read` flag (a handler that called `Read` and got nothing still counts as having read). It does not change the count. A second `Body()` returns the empty capture.
- **Byte counter.** The written-byte counter adds the counts the client's writer reported, not the lengths passed to `Write`. The two differ when a write comes up short.

## Model

| member | source | states |
|---|---|---|
| LimitedBuffers.Capture | internal/limited_buffer.go:16-39 | what a buffer capped at MaxSize holds after any writes: a prefix of all input, at most max(0, MaxSize) long, and exactly that long whenever input was cut off |
| LimitedBuffers.CaptureExtend | internal/limited_buffer.go:20-30 | capturing s+p equals capturing s and then appending p[:min(remaining, len(p))], or nothing when remaining <= 0: one Write's step |
| LimitedBuffers.CaptureSaturated | internal/limited_buffer.go:22-24 | once the stored length reaches MaxSize, further input leaves the contents unchanged |
| LimitedBuffers.CaptureMonotone | internal/limited_buffer.go:26-30 | bytes already stored never change as more is written |
| LimitedBuffers.LimitedBuffer.constructor | internal/limited_buffer.go:10-13 | an empty buffer with the given MaxSize |
| LimitedBuffers.LimitedBuffer.Bytes | internal/limited_buffer.go:10-13 | the stored bytes are a prefix of all input, of length min(max(0, MaxSize), total) |
| LimitedBuffers.LimitedBuffer.Len | internal/limited_buffer.go:18 | the stored length, exactly min(max(0, MaxSize), total input) |
| LimitedBuffers.LimitedBuffer.Write | internal/limited_buffer.go:16-39 | always returns (len(p), nil); afterwards the contents are the capture of all input including p |
| LimitedBuffers.LimitedBuffer.WriteString | internal/limited_buffer.go:42-44 | behaves exactly as Write of the string's bytes |
| LimitedBuffers.LimitedBuffer.WriteByte | internal/limited_buffer.go:47-56 | appends the byte to the input and never returns an error |
| LimitedBuffers.LimitedBuffer.WriteRune | internal/limited_buffer.go:59-66 | as written: returns 1 below 0x80 and 4 otherwise, and feeds byte(r) or the whole zero-padded 4-byte array |
| LimitedBuffers.LimitedBuffer.WriteRuneUnpadded | internal/limited_buffer.go:59-66 | corrected: feeds byte(r) below 0x80 and otherwise exactly the UTF-8 encoding of r, with no zero padding, and reports the same count as written (1 or 4) |
| LimitedBuffers.RuneBytes | internal/limited_buffer.go:59-66 | the bytes WriteRune feeds: 1 below RuneSelf, UTFMax otherwise |
| LimitedBuffers.WriteRunePadsShortEncodings | internal/limited_buffer.go:63-65 | U+00E9 is fed as C3 A9 00 00, while its encoding is C3 A9 |
| LimitedBuffers.WriteRunePadsWithZeros | internal/limited_buffer.go:63-65 | for every rune in 0x80..0xFFFF, WriteRune feeds more bytes than the encoding, ending in a zero byte |
| LimitedBuffers.UnpaddedRuneBytes | internal/limited_buffer.go:59-65 | the bytes the corrected WriteRune feeds: for a non-negative rune, exactly its UTF-8 encoding |
| LimitedBuffers.PaddingIsTheOnlyDifference | internal/limited_buffer.go:63-65 | what WriteRune feeds is the corrected bytes followed only by zero bytes |
| LimitedBuffers.ReplacementCharCount | internal/limited_buffer_test.go:48-50 | U+FFFD encodes in 3 bytes while WriteRune reports 4, the count the test expects; the fourth byte fed is a zero |
| Utf8.EncodeRune | internal/limited_buffer.go:64 | utf8.EncodeRune: 1 to 4 bytes, length determined by the rune's range, lead byte announcing the length, continuation bytes after it |
| Utf8.Encode3 | internal/limited_buffer.go:64 | the three-byte form has an 0xE0 lead byte and two continuation bytes |
| Utf8.EncodedArray | internal/limited_buffer.go:63-64 | the [UTFMax]byte array after EncodeRune: the encoding followed by zero bytes |
| Net.StreamRead | internal/request_body_reader.go:26 | the transport's body read: returns at most len(p) bytes, loses and duplicates nothing, and fails exactly when the stream is closed or drained |
| Net.ClientWrite | internal/response_writer_without_body.go:12 | the transport's write: sends a prefix of b, reports its length, fails exactly on a short write, and a first write sends status 200 |
| Net.ClientWriteHeader | internal/response_writer_without_body.go:21 | the transport sends only the first status |
| RequestBodyReaders.RequestBodyReader.constructor | internal/request_body_reader.go:15-22 | a reader over the body with a buffer capped at maxSize, nothing read or consumed |
| RequestBodyReaders.RequestBodyReader.Read | internal/request_body_reader.go:24-39 | returns exactly the stream's (n, err); the consumed count grows by n; the read bytes are appended to the capture input; sets read |
| RequestBodyReaders.RequestBodyReader.Close | internal/request_body_reader.go:41-44 | returns the stream's own Close result and closes it |
| RequestBodyReaders.RequestBodyReader.Body | internal/request_body_reader.go:46-62 | after a read: the capped prefix of the consumed bytes, nil error, stream untouched; never read and MaxSize > 0: exactly one stream read of up to MaxSize bytes; otherwise (nil, nil); consumed never changes |
| RequestBodyReaders.RequestBodyReader.ConsumedBodyBytes | internal/request_body_reader.go:64-67 | the uncapped number of bytes the handler read, never less than the captured length |
| PlainWriters.SumPositive | internal/response_writer_without_body.go:13-15 | the sum of the positive counts is never negative |
| PlainWriters.ResponseWriterWithoutBody.constructor | internal/response_writer_without_body.go:36-41 | a fresh writer has status 0, counter 0 and an empty store |
| PlainWriters.ResponseWriterWithoutBody.Write | internal/response_writer_without_body.go:11-17 | forwards b, returns the client's (n, err), and adds n to the counter only when n > 0; the status is untouched |
| PlainWriters.ResponseWriterWithoutBody.WriteHeader | internal/response_writer_without_body.go:19-22 | the recorded status becomes code (last call wins), and the code is forwarded |
| PlainWriters.ResponseWriterWithoutBody.StatusCode | internal/response_writer_without_body.go:24-26 | the last code passed to WriteHeader, 0 if there was none |
| PlainWriters.ResponseWriterWithoutBody.WrittenBodyBytes | internal/response_writer_without_body.go:32-34 | the sum of the positive counts the client's writer reported |
| PlainWriters.ResponseWriterWithoutBody.Body | internal/response_writer_without_body.go:28-30 | this writer never keeps a body: the result is always empty |
| PlainWriters.ResponseWriterWithoutBody.Header | internal/response_writer_without_body.go:5-9 | promoted from the embedded writer: the handler's header edits land in the client writer's own header map |
| PlainWriters.ResponseWriterWithoutBody.SetCustomMetric | metrics.go:74-79 | the store maps key to value afterwards; status, counter and histories unchanged |
| PlainWriters.ResponseWriterWithoutBody.GetCustomMetric | metrics.go:81-87 | found exactly when the key is stored, with the stored value |
| BodyWriters.ResponseWriterWithBody.constructor | internal/response_writer_with_body.go:29-38 | an embedded writer over w and a buffer capped at maxSize, both empty |
| BodyWriters.ResponseWriterWithBody.Write | internal/response_writer_with_body.go:13-23 | captures b, then forwards it with the client's (n, err) returned; the unreachable error returns are proved dead |
| BodyWriters.ResponseWriterWithBody.Body | internal/response_writer_with_body.go:25-27 | the capped prefix of all bytes passed to Write, including bytes the client did not accept |
| ResponseWriters.CapturingWriter.Write | internal/response_writer.go:12 | either implementation: the client's (n, err) is returned, the counter grows by max(0, n), and every offered byte is recorded |
| ResponseWriters.CapturingWriter.WriteHeader | internal/response_writer.go:13 | either implementation: the status is recorded as code and forwarded |
| ResponseWriters.CapturingWriter.SetCustomMetric | metrics.go:76-78 | either implementation: stores the value, and nothing else changes |
| ResponseWriters.CapturingWriter.Body | internal/response_writer.go:8 | nil without a body; otherwise the capped prefix of everything written |
| ResponseWriters.CapturingWriter.GetCustomMetric | metrics.go:81-87 | either implementation: found exactly when the key is in the plain writer's store, with the stored value |
| ResponseWriters.CapturingWriter.StatusCode | internal/response_writer.go:7 | either implementation: the last code passed to WriteHeader, 0 if there was none |
| ResponseWriters.CapturingWriter.WrittenBodyBytes | internal/response_writer.go:9 | either implementation: the non-negative sum of the positive counts the client's writer reported |
| ResponseWriters.CapturingWriter.Header | internal/response_writer.go:11 | either implementation exposes the client writer's own header map |
| ResponseWriters.NewResponseWriterWithoutBody | internal/response_writer_without_body.go:36-41 | a fresh plain writer over w: status 0, counter 0, no body |
| ResponseWriters.NewResponseWriterWithBody | internal/response_writer_with_body.go:29-38 | a fresh mirroring writer over w with limit maxSize: status 0, counter 0, empty body |
| Requests.Request.constructor | collector.go:47 | a request whose body is the transport's stream |
| Options.WithDefaultHandler | collector.go:36-39 | a nil Handler becomes http.DefaultServeMux; every other field is kept |
| Options.CollectOptions.constructor | collector.go:83 | a heap copy holding exactly the given options |
| Options.CollectOptions.Value | collector.go:83 | dereferencing gives the four fields |
| Options.CollectOptions.Assign | collector.go:99 | a router writing through the pointer replaces the whole struct |
| HttpMetrics.Metrics.Header | metrics.go:19-22 | a new, empty header on every call |
| HttpMetrics.Metrics.Write | metrics.go:24-27 | reports (len(b), nil); a value with no state, so nothing is sent |
| HttpMetrics.Metrics.GetCustomMetric | metrics.go:32-35 | reads the store of the wrapped writer the handler wrote to |
| HttpMetrics.MetricsRequest.constructor | metrics.go:55-59 | Collect starts false, over the given options copy |
| HttpMetrics.MetricsRequest.Header | metrics.go:61-64 | a new, empty header on every call |
| HttpMetrics.MetricsRequest.Write | metrics.go:66-69 | reports (len(b), nil) and modifies nothing |
| HttpMetrics.SetCustomMetric | metrics.go:74-79 | on a capturing writer the value is stored and can be read back; any other writer is left alone |
| HttpMetrics.GetCustomMetric | metrics.go:81-87 | (nil, false) for any writer that is not a capturing one; otherwise the stored value, if any |
| Exchanges.Start | collector.go:52-58 | the wrappers start with status 0, counter 0, nothing offered, nothing consumed, read unset and an empty store |
| Exchanges.RunIsTransparent | collector.go:52-62 | through the wrappers the client and the body stream end exactly as they would without them |
| Exchanges.RunStatus | internal/response_writer_without_body.go:19-26 | after any handler run the recorded status is the last code passed to WriteHeader |
| Exchanges.RunOffered | internal/response_writer_with_body.go:13-15 | every byte passed to Write is recorded, in order |
| Exchanges.RunWrittenIsSent | internal/response_writer_without_body.go:11-17 | the counter grows by exactly the number of bytes the client received |
| Exchanges.RunSentIsPrefix | internal/response_writer_without_body.go:11-17 | the client receives a prefix of the bytes written: all of them, unless a write came up short |
| Exchanges.RunConsumed | internal/request_body_reader.go:24-39 | the bytes read plus what is left in the stream are the body as sent |
| Exchanges.RunReadFlag | internal/request_body_reader.go:25 | read is set exactly when the handler read, and nothing is consumed before |
| Exchanges.RunClosed | internal/request_body_reader.go:41-44 | a Close through the reader reaches the body: the stream ends closed exactly when it started closed or the handler closed it |
| Exchanges.CloseBeforeRead | internal/request_body_reader.go:41-58 | a handler that closes the body without reading leaves read unset, nothing consumed, and a closed stream that yields no bytes to the fallback read |
| Exchanges.RunCustom | metrics.go:74-79 | each custom metric holds the value last stored under its key |
| Exchanges.StatusDivergence | internal/response_writer_without_body.go:19-22 | WriteHeader(201) then WriteHeader(500) records 500 while the client got 201; a bare Write records 0 while the client got 200 |
| Handlers.StepWrapped | collector.go:62 | one handler call through the wrappers, Close of the body included, changes their state as Step says |
| Handlers.ServeWrapped | collector.go:62 | running a script through the real wrapper objects ends in Run of the script |
| Handlers.ServeOriginal | collector.go:76 | running a script on the transport's own writer and body ends in WireRun; a custom metric set there is lost |
| Paths.ToLower | collector.go:90 | lower-cases letter by letter, keeping the length |
| Paths.SplitElement | collector.go:126 | path.Clean splits a path at its slashes: a slash-free element followed by "/" becomes one piece, and the rest is split on |
| Paths.SplitWord | collector.go:126 | a slash-free string is one piece |
| Paths.Clean | collector.go:126 | path.Clean never returns the empty string |
| Paths.TrimLeft | collector.go:131 | the result has no leading slash |
| Paths.TrimRight | collector.go:131 | the result has no trailing slash and keeps the first character |
| Paths.Trim | collector.go:131 | no slash at either end |
| Paths.RouteKey | collector.go:126-131 | every route key starts with "/", ends with "/" only when it is "/", and has no "//" at the front |
| Paths.Rooted | collector.go:131 | "/" followed by the trimmed pattern |
| Paths.LookupKey | collector.go:90 | the lookup key is the lower-cased request path, same length |
| Paths.ToLowerKeepsLower | collector.go:90 | lower-casing a lower-case path changes nothing |
| Paths.ToLowerIsLower | collector.go:126 | the registration pattern is lower-case |
| Paths.TrimLeftKeepsLower | collector.go:131 | dropping leading slashes keeps a path lower-case |
| Paths.TrimRightKeepsLower | collector.go:131 | dropping trailing slashes keeps a path lower-case |
| Paths.TrimKeepsLower | collector.go:131 | trimming keeps a path lower-case |
| Paths.RootedKeepsLower | collector.go:131 | prefixing "/" keeps a key lower-case |
| Paths.RouteKeyIsFound | collector.go:90-94 | every route key is lower-case, so a request for exactly that path finds it |
| Paths.EquivalentRegistrations | collector.go:126-132 | "/a/b", "/A/B/" and "a/b" register the same key, which a request for "/a/b" finds |
| Paths.CleanTest | collector.go:126 | "/test" is already clean |
| Paths.RouteKeyTest | collector.go:126-131 | "/test" registers under "/test" |
| Paths.LookupDoesNotClean | collector.go:90 | "/TEST" finds the key of "/test"; "/TEST/" and "//test" do not |
| Collectors.RouterHandlerEvents | collector.go:138-144 | the routerHandler func calls its consumer exactly when served a Metrics value, and does nothing otherwise |
| Collectors.FakeRequest | collector.go:146-152 | the router receives the very request, capturing body still attached |
| Collectors.DeliveryEvents | collector.go:72 | delivery calls exactly one consumer: the registered func, or the custom router |
| Collectors.KeyOf | collector.go:126-132 | a path registers the default exactly when its pattern is "*", and otherwise a key of the route-key shape |
| Collectors.Entries | collector.go:125-134 | one entry per path, each either the default or a key of the route-key shape |
| Collectors.RegisterEntries | collector.go:127-132 | registering never removes a route or the default, and every new route key comes from an entry |
| Collectors.Register | collector.go:125-134 | registering paths never removes a route or the default, and every new key has the route-key shape |
| Collectors.EntriesSnoc | collector.go:125-134 | one more path in the loop adds one more entry, the key of that path |
| Collectors.EntriesIndex | collector.go:126-132 | the i-th entry is what the i-th path registers |
| Collectors.KeysOfIndex | collector.go:131-132 | a key is registered exactly when some entry holds it |
| Collectors.RegisterEntriesRoutes | collector.go:131-132 | registering entries adds exactly their keys, each pointing at the new func, and leaves every other route alone |
| Collectors.RegisterEntriesDefault | collector.go:127-128 | registering entries sets the default exactly when one of them is "*" |
| Collectors.RegisterSnoc | collector.go:126-132 | one loop iteration: "*" sets the default, any other path overwrites the route under its key |
| Collectors.RouteKeyShape | collector.go:131 | every route key has the registered-key shape |
| Collectors.RegisterRoutes | collector.go:125-134 | registration adds exactly the keys of the paths, all pointing at the new func (overwriting), and leaves every other entry alone |
| Collectors.RegisterDefault | collector.go:125-129 | the default becomes the new func exactly when some path normalises to "*" |
| Collectors.RegisteredKeysShape | collector.go:126-132 | every registered key has the route-key shape, and every path other than "*" registers its own route key |
| Collectors.Choose | collector.go:79-112 | the router is only chosen when it was consulted |
| Collectors.ChooseChain | collector.go:79-112 | each rule of the chain: no request or URL skips without consulting; a route hit returns that route without consulting the router; a router that sets Collect wins with its rewritten copy; otherwise the default if set, else nothing |
| Collectors.RegisteredPathIsCollected | collector.go:90-94 | a request for a path registered with Collect(fn, ...) goes to fn, whatever the router or the default would say |
| Collectors.DefaultCollectsTheRest | collector.go:98-109 | a request no route or router takes goes to the default, and the router is consulted iff one is configured |
| Collectors.NoUrlIsSkipped | collector.go:80-82 | a nil request or nil URL is never collected and never consults the router |
| Collectors.RequestBodyOf | internal/request_body_reader.go:46-62 | what Body() returns after the handler: at most the limit, a prefix of what was read if the handler read, otherwise a prefix of what is left in the stream, and nothing when the handler closed the body unread |
| Collectors.StreamAfter | internal/request_body_reader.go:46-62 | the stream once Body() has run: untouched if the handler read or the limit is not positive; otherwise the fallback read's bytes followed by what is left make up what was there; the close state is kept |
| Collectors.ReportedValues | collector.go:65-70 | for any handler run: until the handler returns, the client and the body stream are as without the middleware; the reported code is the last WriteHeader code; the counter is the bytes the client received; the response body input is all written bytes; the request body is a capped prefix of the body as sent; each custom metric is the value the handler last set under its key, and no other key is present |
| Collectors.Collector.New | collector.go:36-45 | New fills in the default handler, with no routes and no default consumer |
| Collectors.Collector.Collect | collector.go:116-136 | no paths sets the default; otherwise the routing becomes Register of the paths, and every key keeps the route-key shape |
| Collectors.Collector.ShouldCollect | collector.go:79-112 | returns what Choose decides: a fresh private copy for a route hit or the router, the collector's own options for the default, nothing otherwise; the router is consulted exactly when Consults holds |
| Collectors.Collector.ServeHTTP | collector.go:47-77 | passthrough: body untouched, the handler runs once on the original writer and body; collecting: body replaced, handler run once on the wrappers, then exactly one delivery of the metrics read off them |
| Collectors.ConsultRouter | collector.go:98-100 | the router sets Collect and rewrites the copy as its decision says, and is logged once |
| Collectors.NewCapturingWriter | collector.go:52-56 | the body-keeping writer exactly when CollectResponseBody > 0 |
| Collectors.ReadMetrics | collector.go:65-70 | the record holds the wrappers' final status, counter, header, captured bodies and consumed count |
| Collectors.RunWrapped | collector.go:52-62 | wraps the writer and the body, replaces r.Body, and runs the handler once through the wrappers, ending in Run of its script |
| Collectors.ServeCollected | collector.go:48-74 | the collecting branch: wrappers over w and r.Body, the handler once, one delivery with Reports holding |

## Left out

- Time: `Duration` is a parameter (`elapsed`), not measured from a clock.
- Locking: the mutex in `Collect` and `shouldCollect` is a no-op in a sequential model. The custom router runs while the lock is held, which matters only under concurrency.
- The inner handler is a script of calls fixed per request (`Exchanges.Action`: body Read and Close, Write, WriteHeader, header Set, SetCustomMetric). It may depend on the handler, the request line and the body the client sent. A handler that reacts to what its writes return is not modelled.
- `Exchanges.Action` has no type assertion on the writer. Both capturing writers embed only `http.ResponseWriter`, so they hide `http.Flusher`, `http.Hijacker` and `http.Pusher` from the handler; a handler that type-asserts `w` to one of them behaves differently through the middleware. `Exchanges.RunIsTransparent` and the transparency results built on it hold only for handlers that do not type-assert the writer. The router's decision depends only on the router, the request line and the options copy, not on the request body.
- `Paths.ToLower`: ASCII letters only. Go's `strings.ToLower` also maps other Unicode letters.
- Go's `int` counters (`consumed`, `written`, and `MaxSize - currentSize` in `LimitedBuffer.Write`) are unbounded integers in the model; 64-bit overflow is not modelled.
- `filepath.ToSlash` is the identity, as on systems whose separator is '/'.
- `http.Header` is a value map. The middleware's `Header()` returns the client's header map by reference; the model reads its value when the metrics are assembled.
- `Collectors.Collector.ServeHTTP` requires a non-nil request whose body has not been wrapped yet. A nil request (passed through by Go), and a collector nested inside another, are not modelled.
- A nil `Options.Handler` after `New` cannot occur in the model. In Go, a user or a custom router could set it to nil, which would panic.
- The custom-metric store is a plain key/value map on the plain writer. Its implementation is not part of the Go code's `internal` package, and the interface there does not declare the store's methods.
- The transport (`Net`) is a deterministic stand-in for `net/http`: chunked body reads, a writer with limited room, and first-status-wins.
- `Metrics.WriteHeader` and `MetricsRequest.WriteHeader` are modelled as methods that do nothing, with no contract to state.
- capture.go (an older copy of collector.go), sample.go and the test files are not part of this model; internal/limited_buffer_test.go is cited only for the count `WriteRune` must report.
- A handler that panics: `ServeHTTP` has no `recover`, so a panicking handler gets no delivery at all. The "exactly one delivery" results (`Collectors.DeliveryEvents`, `Collectors.Collector.ServeHTTP`) hold only for handlers that return.
- A custom router that reads the request body: the router receives the request itself with its capturing body attached, so in Go it could consume body bytes before the handler runs. In the model the router only decides; it never reads the body.
- The methods `LimitedBuffer` inherits from its embedded `bytes.Buffer` (`ReadFrom`, which `io.Copy` picks up and which stores uncapped data, and `Read`, `Truncate`, `Reset`, which remove stored bytes) are not modelled. The middleware never calls them, and each would break the capture invariant `Valid()`.

## Findings

| source | as written | input that shows it | evidently intended | confidence | as-written member | corrected member |
|---|---|---|---|---|---|---|
| internal/limited_buffer.go:63-65 | for every rune from 0x80, `WriteRune` feeds the whole `[utf8.UTFMax]byte` array to the buffer, zero padding included | rune U+00E9 written to a buffer with room: it stores C3 A9 00 00 | store only the `n` bytes `utf8.EncodeRune` filled (C3 A9). The reported count of 4 is kept: internal/limited_buffer_test.go:48-50 expects 4 for U+FFFD, a 3-byte rune. That test writes to a full buffer, so it cannot see the padding | medium; not executed | LimitedBuffers.WriteRunePadsShortEncodings | LimitedBuffers.LimitedBuffer.WriteRuneUnpadded |
