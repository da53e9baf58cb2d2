/** The record a consumer receives (`Metrics`, `Request`, `Response`), the value a
    custom router is consulted with (`MetricsRequest`), and the two helpers a
    handler uses to reach the custom-metric store through an `http.ResponseWriter`. */
module HttpMetrics {
  import opened Common
  import opened Net
  import opened ResponseWriters
  import Requests
  import opened Options

  /** A `time.Duration`; its value comes from the clock and is not interpreted. */
  type Duration = int

  /** `Request`: the request itself, the captured body prefix and the number of
      bytes the handler read. */
  datatype Request = Request(request: Requests.Request, body: seq<byte>, consumedBodyBytes: int)

  /** `Response`: what was sent to the client, as the capturing writer saw it. */
  datatype Response = Response(code: int, body: seq<byte>, writtenBodyBytes: int, header: Header)

  /** `Metrics`: the record delivered after the handler returned. It can stand
      where an `http.ResponseWriter` is expected, but writing to it goes nowhere. */
  datatype Metrics = Metrics(
    duration: Duration,
    request: Request,
    response: Response,
    responseWriter: CapturingWriter)
  {
    /** `Header()`: a new, empty header on every call. */
    function Header(): (h: Header)
      ensures h == map[]
    {
      map[]
    }

    /** `Write(b)`: reports every byte written and sends none. */
    function Write(b: seq<byte>): (result: (int, Option<Error>))
      ensures result.0 == |b| && result.1 == None
    {
      (|b|, None)
    }

    /** `WriteHeader(code)`: does nothing. */
    method WriteHeader(code: int)
    {
    }

    /** `GetCustomMetric(key)`: the value the handler stored in the wrapped writer. */
    function GetCustomMetric(key: Dynamic): (r: Option<Dynamic>)
      reads responseWriter.Base()
      ensures r.Some? <==> key in responseWriter.Base().custom
      ensures r.Some? ==> r.value == responseWriter.Base().custom[key]
    {
      responseWriter.GetCustomMetric(key)
    }
  }

  /** `MetricsRequest`: handed to a custom router, which opts a request in by
      setting `collect` and may change the options copy it points to. */
  class MetricsRequest {
    const options: CollectOptions   // the embedded *CollectOptions
    var collect: bool

    constructor (options: CollectOptions)
      ensures this.options == options && !collect
    {
      this.options := options;
      collect := false;
    }

    /** `Header()`: a new, empty header on every call. */
    function Header(): (h: Header)
      ensures h == map[]
    {
      map[]
    }

    /** `Write(b)`: reports every byte written and changes nothing. */
    method Write(b: seq<byte>) returns (n: int, err: Option<Error>)
      ensures n == |b| && err == None
    {
      n, err := |b|, None;
    }

    /** `WriteHeader(code)`: changes nothing. */
    method WriteHeader(code: int)
    {
    }
  }

  /** An `http.ResponseWriter` together with its dynamic type: the transport's
      writer, a capturing writer, a `Metrics` or a `*MetricsRequest`. */
  datatype ResponseWriterValue =
    | ClientValue(client: ClientWriter)
    | CapturingValue(capturing: CapturingWriter)
    | MetricsValue(metrics: Metrics)
    | MetricsRequestValue(metricsRequest: MetricsRequest)

  /** `SetCustomMetric(w, key, value)`: stores the value when `w` is a capturing
      writer and does nothing otherwise. */
  method SetCustomMetric(w: ResponseWriterValue, key: Dynamic, value: Dynamic)
    requires w.CapturingValue? ==> w.capturing.Valid()
    modifies if w.CapturingValue? then w.capturing.Objects() else {}
    ensures w.CapturingValue? ==> w.capturing.Valid() && w.capturing.Limit() == old(w.capturing.Limit())
    ensures w.CapturingValue? ==> GetCustomMetric(w, key) == Some(value)
    ensures w.CapturingValue? ==> w.capturing.Base().custom == old(w.capturing.Base().custom)[key := value]
    ensures w.CapturingValue? ==>
      var base := w.capturing.Base();
      base.statusCode == old(base.statusCode) && base.written == old(base.written) &&
      base.statusCalls == old(base.statusCalls) && base.accepted == old(base.accepted) &&
      base.offered == old(base.offered)
  {
    if w.CapturingValue? {
      w.capturing.SetCustomMetric(key, value);
    }
  }

  /** `GetCustomMetric(w, key)`: the stored value when `w` is a capturing writer
      that has one, `(nil, false)` otherwise. */
  function GetCustomMetric(w: ResponseWriterValue, key: Dynamic): (r: Option<Dynamic>)
    reads if w.CapturingValue? then {w.capturing.Base()} else {}
    ensures !w.CapturingValue? ==> r == None
    ensures w.CapturingValue? ==> (r.Some? <==> key in w.capturing.Base().custom)
    ensures r.Some? ==> w.CapturingValue? && r.value == w.capturing.Base().custom[key]
  {
    if w.CapturingValue? then w.capturing.GetCustomMetric(key) else None
  }
}
