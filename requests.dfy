/** The parts of a `*http.Request` the middleware touches: the method and URL the
    routers look at, and the body it replaces with a capturing reader. */
module Requests {
  import opened Common
  import opened Net
  import opened RequestBodyReaders

  datatype Url = Url(path: string)

  /** The dynamic value of `r.Body`: the transport's stream, or the capturing
      reader the middleware put in its place. */
  datatype Body =
    | Original(stream: ChunkStream)
    | Captured(reader: RequestBodyReader)

  /** What a handler can learn about a request without reading its body. A nil
      `r.URL` is `None`. */
  datatype RequestLine = RequestLine(verb: string, url: Option<Url>)

  class Request {
    const verb: string   // r.Method
    const url: Option<Url>
    var body: Body

    constructor (verb: string, url: Option<Url>, stream: ChunkStream)
      ensures this.verb == verb && this.url == url && body == Original(stream)
    {
      this.verb := verb;
      this.url := url;
      body := Original(stream);
    }

    function Line(): (line: RequestLine)
      ensures line.verb == verb && line.url == url
    {
      RequestLine(verb, url)
    }
  }
}
