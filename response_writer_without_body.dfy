/** `internal.responseWriterWithoutBody`: forwards everything to the client's
    writer and records the status code and the number of bytes written. */
module PlainWriters {
  import opened Common
  import opened Net

  /** The last element of `s`, or `default` when `s` is empty. */
  function LastOr(s: seq<int>, default: int): int
  {
    if s == [] then default else s[|s| - 1]
  }

  /** The sum of the positive elements of `s`. */
  function SumPositive(s: seq<int>): (total: int)
    ensures total >= 0
  {
    if s == [] then 0 else SumPositive(s[..|s| - 1]) + Max(0, s[|s| - 1])
  }

  class ResponseWriterWithoutBody {
    var statusCode: int
    var written: int
    const w: ClientWriter                 // the embedded http.ResponseWriter
    var custom: map<Dynamic, Dynamic>     // the per-request custom-metric store
    ghost var statusCalls: seq<int>       // every code passed to WriteHeader
    ghost var accepted: seq<int>          // every count the client's writer reported
    ghost var offered: seq<byte>          // every byte passed to Write

    /** The status is the last code passed to WriteHeader (0 before any), and the
        counter is the sum of the positive counts the client's writer reported. */
    ghost predicate Valid()
      reads this
    {
      statusCode == LastOr(statusCalls, 0) && written == SumPositive(accepted)
    }

    /** `NewResponseWriterWithoutBody(w)`. */
    constructor (w: ClientWriter)
      ensures Valid() && this.w == w
      ensures statusCalls == [] && accepted == [] && offered == [] && custom == map[]
    {
      statusCode := 0;
      written := 0;
      this.w := w;
      custom := map[];
      statusCalls := [];
      accepted := [];
      offered := [];
    }

    /** `Write(b)`: forwards `b` unchanged and returns the client's result. */
    method Write(b: seq<byte>) returns (n: int, err: Option<Error>)
      requires Valid()
      modifies this, w
      ensures Valid()
      ensures n >= 0 && WriteOutcome(n, err, w.state) == ClientWrite(old(w.state), b)
      ensures accepted == old(accepted) + [n] && offered == old(offered) + b
      ensures written == old(written) + Max(0, n)
      ensures statusCode == old(statusCode) && statusCalls == old(statusCalls) && custom == old(custom)
    {
      n, err := w.Write(b);
      if n > 0 {
        written := written + n;
      }
      assert (accepted + [n])[..|accepted|] == accepted;
      accepted := accepted + [n];
      offered := offered + b;
    }

    /** `WriteHeader(code)`: records the code, overwriting any earlier one, and forwards it. */
    method WriteHeader(code: int)
      requires Valid()
      modifies this, w
      ensures Valid() && statusCode == code
      ensures statusCalls == old(statusCalls) + [code]
      ensures w.state == ClientWriteHeader(old(w.state), code)
      ensures written == old(written) && accepted == old(accepted)
      ensures offered == old(offered) && custom == old(custom)
    {
      statusCode := code;
      statusCalls := statusCalls + [code];
      w.WriteHeader(code);
    }

    /** `StatusCode()`: the last code passed to WriteHeader, 0 if there was none. */
    function StatusCode(): (code: int)
      reads this
      requires Valid()
      ensures statusCalls == [] ==> code == 0
      ensures statusCalls != [] ==> code == statusCalls[|statusCalls| - 1]
    {
      statusCode
    }

    /** `WrittenBodyBytes()`: the sum of the positive counts the client's writer reported. */
    function WrittenBodyBytes(): (n: int)
      reads this
      requires Valid()
      ensures n == SumPositive(accepted)
    {
      written
    }

    /** `Body()`: this writer keeps no body. */
    function Body(): (captured: seq<byte>)
      ensures captured == []
    {
      []
    }

    /** `Header()`, promoted from the embedded writer: the handler edits the
        client's own header map. */
    function Header(): (h: Header)
      reads w
      ensures h == w.state.header
    {
      w.state.header
    }

    /** Stores a custom metric (the store is a plain key/value map). */
    method SetCustomMetric(key: Dynamic, value: Dynamic)
      requires Valid()
      modifies this
      ensures Valid() && custom == old(custom)[key := value]
      ensures statusCode == old(statusCode) && written == old(written)
      ensures statusCalls == old(statusCalls) && accepted == old(accepted) && offered == old(offered)
    {
      custom := custom[key := value];
    }

    /** Looks a custom metric up. */
    function GetCustomMetric(key: Dynamic): (r: Option<Dynamic>)
      reads this
      ensures r.Some? <==> key in custom
      ensures r.Some? ==> r.value == custom[key]
    {
      if key in custom then Some(custom[key]) else None
    }
  }
}
