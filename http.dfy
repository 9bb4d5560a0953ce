/** The slice of Go's net/http that the broker's handlers use: a response
    writer whose header map is updated in place and whose status line is
    committed by the first WriteHeader or Write, and the `http.Error` helper.
    Status codes are those of RFC 9110, section 15. */
module Http {

  /** The header fields the broker's handlers touch. */
  datatype HeaderName =
    | ContentType | ContentLength | ContentTypeOptions
    | AllowOrigin | AllowMethods | AllowHeaders

  /** The canonical spelling of each field on the wire. */
  function Name(h: HeaderName): string {
    match h
    case ContentType => "Content-Type"
    case ContentLength => "Content-Length"
    case ContentTypeOptions => "X-Content-Type-Options"
    case AllowOrigin => "Access-Control-Allow-Origin"
    case AllowMethods => "Access-Control-Allow-Methods"
    case AllowHeaders => "Access-Control-Allow-Headers"
  }

  type Header = map<HeaderName, string>

  /** 204 No Content, RFC 9110 section 15.3.5. */
  const StatusNoContent := 204
  /** 200 OK, RFC 9110 section 15.3.1. */
  const StatusOK := 200
  /** 400 Bad Request, RFC 9110 section 15.5.1. */
  const StatusBadRequest := 400
  /** 404 Not Found, RFC 9110 section 15.5.5. */
  const StatusNotFound := 404
  /** 502 Bad Gateway, RFC 9110 section 15.6.3. */
  const StatusBadGateway := 502

  /** What the handler has committed once it returns: status, header map
      and the body bytes it wrote. */
  datatype Reply = Reply(status: int, header: Header, body: string)

  /** The header map after `http.Error` has prepared it: Content-Length
      dropped, a plain-text Content-Type and the nosniff option set. */
  function ErrorHeader(h: Header): (r: Header)
    ensures ContentLength !in r
    ensures ContentType in r && r[ContentType] == "text/plain; charset=utf-8"
    ensures ContentTypeOptions in r && r[ContentTypeOptions] == "nosniff"
  {
    (h - {ContentLength})[ContentType := "text/plain; charset=utf-8"][ContentTypeOptions := "nosniff"]
  }

  /** The reply `http.Error(w, message, code)` produces on a writer that has
      not yet sent anything and whose header map is h. */
  function ErrorReply(h: Header, message: string, code: int): Reply {
    Reply(code, ErrorHeader(h), message + "\n")
  }

  class ResponseWriter {
    /** The map returned by `w.Header()`. */
    var header: Header
    /** 0 until WriteHeader or the first Write commits a status. */
    var status: int
    /** The header map as it stood when the status was committed. */
    var committed: Header
    /** The bytes written so far. */
    var body: string

    /** A writer as the server hands it to a handler. */
    predicate IsNew()
      reads this
    {
      header == map[] && status == 0 && body == ""
    }

    /** What the handler has committed when it returns: a writer that was
        never committed is flushed with status 200 and its current header.
        The body is what the handler wrote (a HEAD client receives none). */
    function Sent(): Reply
      reads this
    {
      if status == 0 then Reply(StatusOK, header, body)
      else Reply(status, committed, body)
    }

    constructor ()
      ensures IsNew() && committed == map[]
    {
      header, status, committed, body := map[], 0, map[], "";
    }

    /** `w.Header().Set(name, value)` */
    method SetHeader(name: HeaderName, value: string)
      modifies this
      ensures header == old(header)[name := value]
      ensures status == old(status) && committed == old(committed) && body == old(body)
    {
      header := header[name := value];
    }

    /** `w.Header().Del(name)` */
    method DelHeader(name: HeaderName)
      modifies this
      ensures header == old(header) - {name}
      ensures status == old(status) && committed == old(committed) && body == old(body)
    {
      header := header - {name};
    }

    /** `w.WriteHeader(code)`: only the first commit takes effect. */
    method WriteHeader(code: int)
      requires 100 <= code <= 999
      modifies this
      ensures old(status) == 0 ==> status == code && committed == header
      ensures old(status) != 0 ==> status == old(status) && committed == old(committed)
      ensures header == old(header) && body == old(body)
    {
      if status == 0 {
        status, committed := code, header;
      }
    }

    /** `w.Write(data)`: commits status 200 if nothing was committed yet. */
    method Write(data: string)
      modifies this
      ensures old(status) == 0 ==> status == StatusOK && committed == header
      ensures old(status) != 0 ==> status == old(status) && committed == old(committed)
      ensures header == old(header) && body == old(body) + data
    {
      if status == 0 {
        status, committed := StatusOK, header;
      }
      body := body + data;
    }
  }

  /** `http.Error(w, message, code)` */
  method Error(w: ResponseWriter, message: string, code: int)
    requires 100 <= code <= 999
    modifies w
    ensures w.header == ErrorHeader(old(w.header))
    ensures old(w.status) == 0 ==> w.status == code && w.committed == w.header
    ensures old(w.status) != 0 ==> w.status == old(w.status) && w.committed == old(w.committed)
    ensures w.body == old(w.body) + message + "\n"
  {
    w.DelHeader(ContentLength);
    w.SetHeader(ContentType, "text/plain; charset=utf-8");
    w.SetHeader(ContentTypeOptions, "nosniff");
    w.WriteHeader(code);
    w.Write(message + "\n");
  }
}
