/**
 * The request-logging middleware of the vendored simple-fileserver
 * (pkg/middleware/logging.go): the client address it reports and the
 * response wrapper that remembers the status code. The wrapped handler is a
 * sequence of `WriteHeader` calls passed in; the elapsed time is left out.
 */
module MiddlewareLogging {
  const StatusOK: int := 200

  /** Header values by canonical key (`X-Real-Ip`), as `http.Header` stores them. */
  type Header = map<string, seq<string>>

  datatype Request = Request(header: Header, remoteAddr: string, httpMethod: string, path: string)

  /** `Header.Get` with a canonical key: the first value, or "" when there is none. */
  function HeaderGet(h: Header, key: string): (v: string)
    ensures v != "" ==> key in h && |h[key]| > 0 && v == h[key][0]
    ensures key in h && |h[key]| > 0 ==> v == h[key][0]
    ensures !(key in h && |h[key]| > 0) ==> v == ""
  {
    if key in h && |h[key]| > 0 then h[key][0] else ""
  }

  /** `ReadUserIP`: the `x-real-ip` header, else `x-forwarded-for`, else the peer address. */
  function ReadUserIP(req: Request): (ip: string)
    ensures HeaderGet(req.header, "X-Real-Ip") != "" ==> ip == HeaderGet(req.header, "X-Real-Ip")
    ensures HeaderGet(req.header, "X-Real-Ip") == "" && HeaderGet(req.header, "X-Forwarded-For") != "" ==>
      ip == HeaderGet(req.header, "X-Forwarded-For")
    ensures HeaderGet(req.header, "X-Real-Ip") == "" && HeaderGet(req.header, "X-Forwarded-For") == "" ==>
      ip == req.remoteAddr
  {
    var fromRealIP := HeaderGet(req.header, "X-Real-Ip");
    var fromForwarded := if fromRealIP == "" then HeaderGet(req.header, "X-Forwarded-For") else fromRealIP;
    if fromForwarded == "" then req.remoteAddr else fromForwarded
  }

  /** The reported address is empty only when all three sources are. */
  lemma ReadUserIPEmptyIff(req: Request)
    ensures ReadUserIP(req) == "" <==>
      HeaderGet(req.header, "X-Real-Ip") == "" && HeaderGet(req.header, "X-Forwarded-For") == "" && req.remoteAddr == ""
  {
  }

  /** With `x-real-ip` set, the other two sources do not matter. */
  lemma RealIPOverrides(req: Request, forwarded: seq<string>, remoteAddr: string)
    requires HeaderGet(req.header, "X-Real-Ip") != ""
    ensures ReadUserIP(req.(header := req.header["X-Forwarded-For" := forwarded], remoteAddr := remoteAddr)) == ReadUserIP(req)
  {
    var other := req.(header := req.header["X-Forwarded-For" := forwarded], remoteAddr := remoteAddr);
    assert "X-Forwarded-For" != "X-Real-Ip";
    assert HeaderGet(other.header, "X-Real-Ip") == HeaderGet(req.header, "X-Real-Ip");
  }

  /** The underlying `http.ResponseWriter`, as far as status codes go: every `WriteHeader` it receives. */
  class ResponseWriter {
    var statusWrites: seq<int>

    constructor ()
      ensures statusWrites == []
    {
      statusWrites := [];
    }
  }

  /** `responseWrapper`: forwards to the real writer and keeps the last status code. */
  class ResponseWrapper {
    const inner: ResponseWriter
    var statusCode: int

    /** The wrapper as `Logging` creates it: no status written yet, so it reports 200. */
    constructor (inner: ResponseWriter)
      ensures this.inner == inner && statusCode == StatusOK
    {
      this.inner := inner;
      statusCode := StatusOK;
    }

    /** `WriteHeader`: the code reaches the real writer, then is remembered. */
    method WriteHeader(statusCode: int)
      modifies this`statusCode, inner`statusWrites
      ensures inner.statusWrites == old(inner.statusWrites) + [statusCode]
      ensures this.statusCode == statusCode
    {
      inner.statusWrites := inner.statusWrites + [statusCode];
      this.statusCode := statusCode;
    }
  }

  /** The fields of the debug line written after the request has been answered. */
  datatype LogEntry = LogEntry(source: string, status: int, httpMethod: string, path: string)

  /**
   * `Logging(next)` serving one request, where `next` calls `WriteHeader`
   * with each of `writes` in turn. The logged status is the last code the
   * handler wrote, or 200 if it wrote none.
   */
  method Serve(res: ResponseWriter, req: Request, writes: seq<int>) returns (entry: LogEntry)
    modifies res
    ensures res.statusWrites == old(res.statusWrites) + writes
    ensures entry.status == if writes == [] then StatusOK else writes[|writes| - 1]
    ensures entry.source == ReadUserIP(req) && entry.httpMethod == req.httpMethod && entry.path == req.path
  {
    var wrapped := new ResponseWrapper(res);
    var i := 0;
    while i < |writes|
      invariant 0 <= i <= |writes|
      invariant res.statusWrites == old(res.statusWrites) + writes[..i]
      invariant wrapped.statusCode == if i == 0 then StatusOK else writes[i - 1]
    {
      wrapped.WriteHeader(writes[i]);
      assert writes[..i + 1] == writes[..i] + [writes[i]];
      i := i + 1;
    }
    assert writes[..|writes|] == writes;
    entry := LogEntry(ReadUserIP(req), wrapped.statusCode, req.httpMethod, req.path);
  }
}
