/** `internal.ResponseWriter`: the interface both capturing writers satisfy. Its
    two implementations are the two cases of `CapturingWriter`; the with-body
    writer's status, counter and store are those of its embedded writer. */
module ResponseWriters {
  import opened Common
  import opened Net
  import opened LimitedBuffers
  import opened PlainWriters
  import opened BodyWriters

  datatype CapturingWriter =
    | Plain(plain: ResponseWriterWithoutBody)
    | Mirrored(mirrored: ResponseWriterWithBody)
  {
    /** The writer that holds status, counter and custom-metric store. */
    function Base(): ResponseWriterWithoutBody
    {
      if Plain? then plain else mirrored.base
    }

    /** The client's writer underneath. */
    function Client(): ClientWriter
    {
      Base().w
    }

    ghost function Objects(): set<object>
    {
      if Plain? then {plain} else {mirrored, mirrored.base, mirrored.body}
    }

    ghost predicate Valid()
      reads Objects()
    {
      if Plain? then plain.Valid() else mirrored.Valid()
    }

    /** The capture limit: the buffer's MaxSize, or none at all without a body. */
    function Limit(): int
      reads Objects()
    {
      if Plain? then 0 else mirrored.body.maxSize
    }

    method Write(b: seq<byte>) returns (n: int, err: Option<Error>)
      requires Valid()
      modifies Objects(), Client()
      ensures Valid() && Limit() == old(Limit())
      ensures n >= 0 && WriteOutcome(n, err, Client().state) == ClientWrite(old(Client().state), b)
      ensures Base().accepted == old(Base().accepted) + [n]
      ensures Base().offered == old(Base().offered) + b
      ensures Base().written == old(Base().written) + Max(0, n)
      ensures Base().statusCode == old(Base().statusCode) && Base().statusCalls == old(Base().statusCalls)
      ensures Base().custom == old(Base().custom)
    {
      if Plain? {
        n, err := plain.Write(b);
      } else {
        n, err := mirrored.Write(b);
      }
    }

    method WriteHeader(code: int)
      requires Valid()
      modifies Objects(), Client()
      ensures Valid() && Limit() == old(Limit())
      ensures Client().state == ClientWriteHeader(old(Client().state), code)
      ensures Base().statusCode == code && Base().statusCalls == old(Base().statusCalls) + [code]
      ensures Base().written == old(Base().written) && Base().accepted == old(Base().accepted)
      ensures Base().offered == old(Base().offered) && Base().custom == old(Base().custom)
    {
      Base().WriteHeader(code);
    }

    method SetCustomMetric(key: Dynamic, value: Dynamic)
      requires Valid()
      modifies Objects()
      ensures Valid() && Limit() == old(Limit())
      ensures Base().custom == old(Base().custom)[key := value]
      ensures Base().statusCode == old(Base().statusCode) && Base().written == old(Base().written)
      ensures Base().statusCalls == old(Base().statusCalls) && Base().accepted == old(Base().accepted)
      ensures Base().offered == old(Base().offered)
    {
      Base().SetCustomMetric(key, value);
    }

    /** The value stored under `key` by either variant, if any. */
    function GetCustomMetric(key: Dynamic): (r: Option<Dynamic>)
      reads Base()
      ensures r.Some? <==> key in Base().custom
      ensures r.Some? ==> r.value == Base().custom[key]
    {
      Base().GetCustomMetric(key)
    }

    /** The last code passed to WriteHeader through either variant, 0 before any. */
    function StatusCode(): (code: int)
      reads Objects()
      requires Valid()
      ensures code == LastOr(Base().statusCalls, 0)
    {
      Base().StatusCode()
    }

    /** The sum of the positive counts the client's writer reported. */
    function WrittenBodyBytes(): (n: int)
      reads Objects()
      requires Valid()
      ensures n >= 0 && n == SumPositive(Base().accepted)
    {
      Base().WrittenBodyBytes()
    }

    /** The captured response body: a prefix of everything written when the writer
        mirrors the body, nothing otherwise. */
    function Body(): (captured: seq<byte>)
      reads Objects()
      requires Valid()
      ensures captured == if Plain? then [] else Capture(Limit(), Base().offered)
    {
      if Plain? then plain.Body() else mirrored.Body()
    }

    /** The client's header map, which both variants expose unchanged. */
    function Header(): (h: Header)
      reads Client()
      ensures h == Client().state.header
    {
      Client().state.header
    }
  }

  /** `NewResponseWriterWithoutBody(w)`. */
  method NewResponseWriterWithoutBody(w: ClientWriter) returns (rw: CapturingWriter)
    ensures rw.Plain? && rw.Valid() && fresh(rw.Objects()) && rw.Client() == w
    ensures rw.StatusCode() == 0 && rw.WrittenBodyBytes() == 0 && rw.Body() == []
    ensures rw.Base().statusCalls == [] && rw.Base().accepted == []
    ensures rw.Base().offered == [] && rw.Base().custom == map[]
  {
    var plain := new ResponseWriterWithoutBody(w);
    rw := Plain(plain);
  }

  /** `NewResponseWriterWithBody(w, maxSize)`. */
  method NewResponseWriterWithBody(w: ClientWriter, maxSize: int) returns (rw: CapturingWriter)
    ensures rw.Mirrored? && rw.Valid() && fresh(rw.Objects()) && rw.Client() == w
    ensures rw.Limit() == maxSize
    ensures rw.StatusCode() == 0 && rw.WrittenBodyBytes() == 0 && rw.Body() == []
    ensures rw.Base().statusCalls == [] && rw.Base().accepted == []
    ensures rw.Base().offered == [] && rw.Base().custom == map[]
  {
    var mirrored := new ResponseWriterWithBody(w, maxSize);
    rw := Mirrored(mirrored);
  }
}
