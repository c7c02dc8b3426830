/** The part of Go's net/http that the handlers drive: a response writer whose
    status is set once (the first write wins), whose headers are a map and whose
    body only grows, and the helpers `http.Error`, `http.NotFound` and
    `http.Redirect` built on it.

    `Response` is the value of a writer; `ResponseWriter` is the object the
    handlers update in place. */
module Http {
  import opened Wrappers

  /** `http.StatusText` for the codes this service produces. */
  function StatusText(code: int): string {
    match code
    case 200 => "OK"
    case 301 => "Moved Permanently"
    case 303 => "See Other"
    case 400 => "Bad Request"
    case 403 => "Forbidden"
    case 404 => "Not Found"
    case 500 => "Internal Server Error"
    case _ => ""
  }

  /** The state of a response writer: the status written (none yet), the header map, the body. */
  datatype Response = Response(status: Option<int>, header: map<string, string>, body: string) {

    /** The status the client sees: 200 when the handler wrote none. */
    function Code(): int {
      status.GetOr(200)
    }

    /** `WriteHeader`: only the first call has an effect. */
    function WriteHeader(code: int): (r: Response)
      ensures r.header == header && r.body == body
      ensures status.Some? ==> r.status == status
      ensures status.None? ==> r.status == Some(code)
    {
      if status.Some? then this else this.(status := Some(code))
    }

    /** `Write`: appends to the body, implicitly writing status 200 first. */
    function Write(data: string): (r: Response)
      ensures r.header == header
      ensures r.body == body + data
      ensures r.status == WriteHeader(200).status
    {
      var w := WriteHeader(200);
      w.(body := w.body + data)
    }

    /** `Header().Set(key, value)`. */
    function SetHeader(key: string, value: string): (r: Response)
      ensures r.status == status && r.body == body
      ensures key in r.header && r.header[key] == value
      ensures forall k :: k != key ==> (k in r.header <==> k in header)
      ensures forall k :: k != key && k in header ==> r.header[k] == header[k]
    {
      this.(header := header[key := value])
    }

    /** `http.Error(w, msg, code)`: plain-text headers, the status, then the message and a newline. */
    function Error(msg: string, code: int): (r: Response)
      ensures r.status == WriteHeader(code).status
      ensures r.body == body + msg + "\n"
      ensures "Content-Type" in r.header && r.header["Content-Type"] == "text/plain; charset=utf-8"
      ensures "X-Content-Type-Options" in r.header && r.header["X-Content-Type-Options"] == "nosniff"
      ensures forall k :: k != "Content-Type" && k != "X-Content-Type-Options" ==>
        (k in r.header <==> k in header) && (k in header ==> r.header[k] == header[k])
    {
      SetHeader("Content-Type", "text/plain; charset=utf-8")
      .SetHeader("X-Content-Type-Options", "nosniff")
      .WriteHeader(code)
      .Write(msg + "\n")
    }

    /** `http.NotFound`. */
    function NotFound(): (r: Response)
      ensures r.status == WriteHeader(404).status
      ensures r.body == body + "404 page not found\n"
      ensures "Content-Type" in r.header && r.header["Content-Type"] == "text/plain; charset=utf-8"
      ensures "X-Content-Type-Options" in r.header && r.header["X-Content-Type-Options"] == "nosniff"
      ensures forall k :: k != "Content-Type" && k != "X-Content-Type-Options" ==>
        (k in r.header <==> k in header) && (k in header ==> r.header[k] == header[k])
    {
      Error("404 page not found", 404)
    }

    /** `http.Redirect(w, r, url, code)` for an absolute or rooted `url`. A short HTML
        body is written only for GET when no Content-Type was set beforehand. */
    function Redirect(url: string, code: int, verb: string, htmlEscape: string -> string): (r: Response)
      ensures "Location" in r.header && r.header["Location"] == url
      ensures r.status == WriteHeader(code).status
      ensures "Content-Type" in header || verb != "GET" ==> r.body == body
      ensures "Content-Type" !in header && verb == "GET" ==>
        r.body == body + "<a href=\"" + htmlEscape(url) + "\">" + StatusText(code) + "</a>.\n\n"
      ensures "Content-Type" !in header && (verb == "GET" || verb == "HEAD") ==>
        "Content-Type" in r.header && r.header["Content-Type"] == "text/html; charset=utf-8"
      ensures "Content-Type" in header ==> "Content-Type" in r.header && r.header["Content-Type"] == header["Content-Type"]
    {
      var hadContentType := "Content-Type" in header;
      var located := SetHeader("Location", url);
      var typed :=
        if !hadContentType && (verb == "GET" || verb == "HEAD")
        then located.SetHeader("Content-Type", "text/html; charset=utf-8")
        else located;
      var written := typed.WriteHeader(code);
      if !hadContentType && verb == "GET"
      then written.Write("<a href=\"" + htmlEscape(url) + "\">" + StatusText(code) + "</a>.\n" + "\n")
      else written
    }
  }

  /** A fresh writer, as the server (or a test recorder) hands it to the outermost handler. */
  const Fresh: Response := Response(None, map[], "")

  /** The three primitive writer operations. */
  datatype WriterOp = WriteHeaderOp(code: int) | WriteOp(data: string) | SetHeaderOp(key: string, value: string)

  function Apply(resp: Response, op: WriterOp): Response {
    match op
    case WriteHeaderOp(code) => resp.WriteHeader(code)
    case WriteOp(data) => resp.Write(data)
    case SetHeaderOp(key, value) => resp.SetHeader(key, value)
  }

  function ApplyAll(resp: Response, ops: seq<WriterOp>): Response
    decreases |ops|
  {
    if ops == [] then resp else ApplyAll(Apply(resp, ops[0]), ops[1..])
  }

  /** Whatever a handler does to a writer, a status once written is never replaced
      and the body written so far is never taken back. */
  lemma {:induction false} StatusStickyBodyGrows(resp: Response, ops: seq<WriterOp>)
    ensures resp.status.Some? ==> ApplyAll(resp, ops).status == resp.status
    ensures ApplyAll(resp, ops).status.None? ==> resp.status.None?
    ensures resp.body <= ApplyAll(resp, ops).body
    decreases |ops|
  {
    if ops != [] {
      var next := Apply(resp, ops[0]);
      StatusStickyBodyGrows(next, ops[1..]);
    }
  }

  /** The response writer object handed to every handler. */
  class ResponseWriter {
    var status: Option<int>
    var header: map<string, string>
    var body: string

    function Value(): Response
      reads this
    {
      Response(status, header, body)
    }

    constructor ()
      ensures Value() == Fresh
    {
      status, header, body := None, map[], "";
    }

    method WriteHeader(code: int)
      modifies this
      ensures Value() == old(Value()).WriteHeader(code)
    {
      if status.None? {
        status := Some(code);
      }
    }

    method Write(data: string)
      modifies this
      ensures Value() == old(Value()).Write(data)
    {
      WriteHeader(200);
      body := body + data;
    }

    method SetHeader(key: string, value: string)
      modifies this
      ensures Value() == old(Value()).SetHeader(key, value)
    {
      header := header[key := value];
    }
  }

  /** `http.Error` on a writer. */
  method Error(w: ResponseWriter, msg: string, code: int)
    modifies w
    ensures w.Value() == old(w.Value()).Error(msg, code)
  {
    w.SetHeader("Content-Type", "text/plain; charset=utf-8");
    w.SetHeader("X-Content-Type-Options", "nosniff");
    w.WriteHeader(code);
    w.Write(msg + "\n");
  }

  /** `http.NotFound` on a writer. */
  method NotFound(w: ResponseWriter)
    modifies w
    ensures w.Value() == old(w.Value()).NotFound()
  {
    Error(w, "404 page not found", 404);
  }

  /** `http.Redirect` on a writer. */
  method Redirect(w: ResponseWriter, url: string, code: int, verb: string, htmlEscape: string -> string)
    modifies w
    ensures w.Value() == old(w.Value()).Redirect(url, code, verb, htmlEscape)
  {
    var hadContentType := "Content-Type" in w.header;
    w.SetHeader("Location", url);
    if !hadContentType && (verb == "GET" || verb == "HEAD") {
      w.SetHeader("Content-Type", "text/html; charset=utf-8");
    }
    w.WriteHeader(code);
    if !hadContentType && verb == "GET" {
      w.Write("<a href=\"" + htmlEscape(url) + "\">" + StatusText(code) + "</a>.\n" + "\n");
    }
  }
}
