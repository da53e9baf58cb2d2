/** `CollectOptions` and the handler values it refers to. */
module Options {
  import opened Common

  /** A non-nil `http.Handler` the library only calls: `http.DefaultServeMux`, or
      some other handler told apart by an identity. */
  datatype Handler = DefaultServeMux | HandlerValue(id: nat)

  /** The `CollectOptions` struct a caller passes to `New`, where `Handler` and
      `CustomRouter` may be nil. */
  datatype Literal = Literal(
    handler: Option<Handler>,
    collectResponseBody: int,
    collectRequestBody: int,
    customRouter: Option<Handler>)

  /** The value of a `CollectOptions` once `New` has filled in the handler. */
  datatype Settings = Settings(
    handler: Handler,
    collectResponseBody: int,
    collectRequestBody: int,
    customRouter: Option<Handler>)

  /** `New`'s first step: a nil `Handler` becomes `http.DefaultServeMux`; every
      other field is kept. */
  function WithDefaultHandler(options: Literal): (s: Settings)
    ensures options.handler.Some? ==> s.handler == options.handler.value
    ensures options.handler.None? ==> s.handler == DefaultServeMux
    ensures s.collectResponseBody == options.collectResponseBody
    ensures s.collectRequestBody == options.collectRequestBody
    ensures s.customRouter == options.customRouter
  {
    Settings(
      if options.handler.Some? then options.handler.value else DefaultServeMux,
      options.collectResponseBody, options.collectRequestBody, options.customRouter)
  }

  /** A `*CollectOptions`: a struct on the heap that a custom router may change. */
  class CollectOptions {
    var handler: Handler
    var collectResponseBody: int
    var collectRequestBody: int
    var customRouter: Option<Handler>

    /** `&options` for a struct value `options`. */
    constructor (s: Settings)
      ensures Value() == s
    {
      handler := s.handler;
      collectResponseBody := s.collectResponseBody;
      collectRequestBody := s.collectRequestBody;
      customRouter := s.customRouter;
    }

    /** `*o`: the struct the pointer refers to. */
    function Value(): (s: Settings)
      reads this
      ensures s.handler == handler && s.customRouter == customRouter
      ensures s.collectResponseBody == collectResponseBody && s.collectRequestBody == collectRequestBody
    {
      Settings(handler, collectResponseBody, collectRequestBody, customRouter)
    }

    /** `*o = s`: how a router that was handed the pointer rewrites the struct. */
    method Assign(s: Settings)
      modifies this
      ensures Value() == s
    {
      handler := s.handler;
      collectResponseBody := s.collectResponseBody;
      collectRequestBody := s.collectRequestBody;
      customRouter := s.customRouter;
    }
  }
}
