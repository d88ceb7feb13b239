/**
 * The response side of one request: the server's http.ResponseWriter as the
 * client sees it, and the status-recording wrapper `responseWriter` of
 * main.go that withLogging hands to the handler, with the two net/http
 * helpers the handler calls through it (http.Error and http.Redirect).
 */
module Http {

  const StatusOK: int := 200
  const StatusPermanentRedirect: int := 308
  const StatusInternalServerError: int := 500

  const HtmlType: string := "text/html; charset=utf-8"
  const TextType: string := "text/plain; charset=utf-8"

  /** What the client receives: a status line, the header sent with it, and the body. */
  datatype Reply = Reply(status: int, header: map<string, string>, body: string)

  /**
   * The server's writer for one request. The handler edits `header`; the
   * first WriteHeader, or else the first Write (which implies
   * WriteHeader(200)), sends the status and a copy of the header. After that
   * the status can no longer change: a later WriteHeader is ignored, and
   * header edits no longer reach the client.
   */
  class ResponseWriter {
    var header: map<string, string>
    var wroteHeader: bool
    var status: int
    var sentHeader: map<string, string>
    var body: string

    /** A writer the server has just made for a request. */
    predicate Unused()
      reads this
    {
      header == map[] && !wroteHeader && body == ""
    }

    /** The client has received `reply`. */
    predicate Sent(reply: Reply)
      reads this
    {
      wroteHeader && status == reply.status && sentHeader == reply.header && body == reply.body
    }

    constructor ()
      ensures Unused() && status == 0 && sentHeader == map[]
    {
      header, wroteHeader, status, sentHeader, body := map[], false, 0, map[], "";
    }

    /** The status line: `code` and the current header if nothing was sent yet, else what was sent before. */
    twostate predicate Committed(code: int)
      reads this
    {
      && wroteHeader
      && (old(wroteHeader) ==> status == old(status) && sentHeader == old(sentHeader))
      && (!old(wroteHeader) ==> status == code && sentHeader == old(header))
    }

    method SetHeader(key: string, value: string)
      modifies this
      ensures header == old(header)[key := value]
      ensures wroteHeader == old(wroteHeader) && status == old(status)
      ensures sentHeader == old(sentHeader) && body == old(body)
    {
      header := header[key := value];
    }

    method DelHeader(key: string)
      modifies this
      ensures header == old(header) - {key}
      ensures wroteHeader == old(wroteHeader) && status == old(status)
      ensures sentHeader == old(sentHeader) && body == old(body)
    {
      header := header - {key};
    }

    method WriteHeader(code: int)
      modifies this
      ensures Committed(code)
      ensures header == old(header) && body == old(body)
    {
      if !wroteHeader {
        wroteHeader, status, sentHeader := true, code, header;
      }
    }

    method Write(text: string)
      modifies this
      ensures Committed(StatusOK)
      ensures header == old(header) && body == old(body) + text
    {
      if !wroteHeader {
        wroteHeader, status, sentHeader := true, StatusOK, header;
      }
      body := body + text;
    }
  }

  /** The last code passed to WriteHeader, or 200 when there was none. */
  function RecordedStatus(codes: seq<int>): int {
    if codes == [] then StatusOK else codes[|codes| - 1]
  }

  /**
   * responseWriter: forwards everything to the server's writer and records
   * each WriteHeader code. `codes` is the history of those calls.
   */
  class StatusRecorder {
    const inner: ResponseWriter
    var statusCode: int
    ghost var codes: seq<int>

    ghost predicate Valid()
      reads this
    {
      statusCode == RecordedStatus(codes)
    }

    /** The composite literal in withLogging: StatusCode starts as http.StatusOK. */
    constructor (w: ResponseWriter)
      ensures inner == w && codes == [] && statusCode == StatusOK && Valid()
    {
      inner := w;
      statusCode := StatusOK;
      codes := [];
    }

    /** Forwards the code to the server's writer, then records it. */
    method WriteHeader(code: int)
      requires Valid()
      modifies this, inner
      ensures Valid() && codes == old(codes) + [code] && statusCode == code
      ensures inner.Committed(code)
      ensures inner.header == old(inner.header) && inner.body == old(inner.body)
    {
      inner.WriteHeader(code);
      statusCode := code;
      codes := codes + [code];
    }

    /** Write and Header come from the embedded writer: nothing is recorded. */
    method Write(text: string)
      modifies inner
      ensures inner.Committed(StatusOK)
      ensures inner.header == old(inner.header) && inner.body == old(inner.body) + text
    {
      inner.Write(text);
    }

    method SetHeader(key: string, value: string)
      modifies inner
      ensures inner.header == old(inner.header)[key := value]
      ensures inner.wroteHeader == old(inner.wroteHeader) && inner.status == old(inner.status)
      ensures inner.sentHeader == old(inner.sentHeader) && inner.body == old(inner.body)
    {
      inner.SetHeader(key, value);
    }

    method DelHeader(key: string)
      modifies inner
      ensures inner.header == old(inner.header) - {key}
      ensures inner.wroteHeader == old(inner.wroteHeader) && inner.status == old(inner.status)
      ensures inner.sentHeader == old(inner.sentHeader) && inner.body == old(inner.body)
    {
      inner.DelHeader(key);
    }
  }

  /** The header http.Error sends on a writer whose header was `h`. */
  function ErrorHeader(h: map<string, string>): map<string, string> {
    (h - {"Content-Length"})["Content-Type" := TextType]["X-Content-Type-Options" := "nosniff"]
  }

  /**
   * http.Error: plain-text header, WriteHeader(code), then the message and a
   * newline. The code is recorded; on a writer that already sent its status
   * only the text reaches the client.
   */
  method Error(w: StatusRecorder, message: string, code: int)
    requires w.Valid()
    modifies w, w.inner
    ensures w.Valid() && w.codes == old(w.codes) + [code]
    ensures w.inner.wroteHeader
    ensures old(w.inner.wroteHeader) ==>
      w.inner.status == old(w.inner.status) && w.inner.sentHeader == old(w.inner.sentHeader)
    ensures !old(w.inner.wroteHeader) ==>
      w.inner.status == code && w.inner.sentHeader == ErrorHeader(old(w.inner.header))
    ensures w.inner.header == ErrorHeader(old(w.inner.header))
    ensures w.inner.body == old(w.inner.body) + message + "\n"
  {
    w.DelHeader("Content-Length");
    w.SetHeader("Content-Type", TextType);
    w.SetHeader("X-Content-Type-Options", "nosniff");
    w.WriteHeader(code);
    w.Write(message + "\n");
  }

  /**
   * http.Redirect to an absolute URL: the Location header, then
   * WriteHeader(code). The code is recorded.
   */
  method Redirect(w: StatusRecorder, url: string, code: int)
    requires w.Valid()
    modifies w, w.inner
    ensures w.Valid() && w.codes == old(w.codes) + [code]
    ensures w.inner.wroteHeader
    ensures old(w.inner.wroteHeader) ==>
      w.inner.status == old(w.inner.status) && w.inner.sentHeader == old(w.inner.sentHeader)
    ensures !old(w.inner.wroteHeader) ==>
      w.inner.status == code && w.inner.sentHeader == old(w.inner.header)["Location" := url]
    ensures w.inner.header == old(w.inner.header)["Location" := url]
    ensures w.inner.body == old(w.inner.body)
  {
    w.SetHeader("Location", url);
    w.WriteHeader(code);
  }
}
