/**
 * The request middlewares and their helpers: request-ID assignment,
 * access logging (client address, body read-and-restore, level by status)
 * and the context logger, with the two context lookups.
 */
module Middlewares {
  import opened Wrappers
  import opened GoStrings
  import Logs
  import Http

  const RequestIDHeader: string := "x-request-id"
  const RefererHeader: string := "referer"
  const UserAgentHeader: string := "user-agent"
  const XRealIPHeader: string := "x-real-ip"
  const XForwardedForHeader: string := "x-forwarded-for"

  newtype byte = x: int | 0 <= x < 256

  // ---------------------------------------------------------------- request context

  /** The values a request context holds under `ctxRequestID` and `ctxLogger`. */
  datatype Context = Context(requestId: Option<string>, logger: Option<Logs.Logger>)

  /** `GetRequestID`: the stored request ID, or "" when there is none. */
  function GetRequestID(ctx: Context): (id: string)
    ensures ctx.requestId.Some? ==> id == ctx.requestId.value
    ensures ctx.requestId.None? ==> id == ""
  {
    match ctx.requestId
    case Some(id) => id
    case None => ""
  }

  /** `GetContextLogger`: the stored logger, or an error exactly when none is stored. */
  function GetContextLogger(ctx: Context): (r: Result<Logs.Logger, Error>)
    ensures r.Failure? <==> ctx.logger.None?
    ensures r.Success? ==> r.value == ctx.logger.value
    ensures r.Failure? ==> r.error == Error("no logger in request context")
  {
    match ctx.logger
    case Some(log) => Success(log)
    case None => Failure(Error("no logger in request context"))
  }

  /** `context.WithValue(ctx, ctxRequestID, id)`. */
  function WithRequestID(ctx: Context, id: string): Context
  {
    ctx.(requestId := Some(id))
  }

  /** The logger SetContextLogger derives from `base`: one field with the context's request ID. */
  function ContextLogger(base: Logs.Logger, ctx: Context): Logs.Logger
  {
    base.With(Logs.Field(RequestIDHeader, GetRequestID(ctx)))
  }

  /** `context.WithValue(ctx, ctxLogger, logger)`, as SetContextLogger builds it. */
  function WithContextLogger(base: Logs.Logger, ctx: Context): Context
  {
    ctx.(logger := Some(ContextLogger(base, ctx)))
  }

  /** A request ID stored in the context is what GetRequestID reads back. */
  lemma RequestIDRoundTrip(ctx: Context, id: string)
    ensures GetRequestID(WithRequestID(ctx, id)) == id
    ensures WithRequestID(ctx, id).logger == ctx.logger
  {
  }

  /**
   * After SetContextLogger, GetContextLogger succeeds, with the base logger's
   * fields plus the request ID; the stored request ID is left as it was.
   */
  lemma ContextLoggerRoundTrip(base: Logs.Logger, ctx: Context)
    ensures var r := GetContextLogger(WithContextLogger(base, ctx));
      && r.Success?
      && r.value.fields == base.fields + [Logs.Field(RequestIDHeader, GetRequestID(ctx))]
      && GetRequestID(WithContextLogger(base, ctx)) == GetRequestID(ctx)
  {
  }

  // ---------------------------------------------------------------- requests

  /** A request body: none (`nil`), or a reader and the bytes `ioutil.ReadAll` gets from it. */
  datatype Body = NoBody | Reader(data: seq<byte>)

  /** The bytes the access logger reads: nothing for a nil body. */
  function ReadAll(b: Body): seq<byte>
  {
    match b
    case NoBody => []
    case Reader(data) => data
  }

  /** An `*http.Request`; only its body and its context are replaced while it is served. */
  class Request {
    const requestMethod: string
    const path: string
    const header: map<string, string>
    const remoteAddr: string
    const query: map<string, seq<string>>
    var body: Body
    var ctx: Context

    constructor (requestMethod: string, path: string, header: map<string, string>, remoteAddr: string,
                 query: map<string, seq<string>>, body: Body, ctx: Context)
      ensures this.requestMethod == requestMethod && this.path == path && this.header == header
      ensures this.remoteAddr == remoteAddr && this.query == query
      ensures this.body == body && this.ctx == ctx
    {
      this.requestMethod := requestMethod;
      this.path := path;
      this.header := header;
      this.remoteAddr := remoteAddr;
      this.query := query;
      this.body := body;
      this.ctx := ctx;
    }

    /** `r.WithContext(ctx)`, passed on in place of the request. */
    method WithContext(c: Context)
      modifies this
      ensures ctx == c && body == old(body)
    {
      ctx := c;
    }
  }

  /** `r.Header.Get(key)`: the value, or "" when the header is absent. */
  function HeaderGet(h: map<string, string>, key: string): string
  {
    if key in h then h[key] else ""
  }

  // ---------------------------------------------------------------- client address

  /**
   * `ipAddrFromRemoteAddr`: the address without the text from its last `:`
   * on, or the whole address when it has no `:`.
   */
  function IpAddrFromRemoteAddr(s: string): (r: string)
    ensures ':' !in s ==> r == s
    ensures ':' in s ==> |r| < |s| && r == s[..|r|] && s[|r|] == ':' && ':' !in s[|r| + 1..]
  {
    var idx := LastIndex(s, ':');
    if idx == -1 then s else s[..idx]
  }

  /** The port after the last colon is dropped, whatever the host part contains. */
  lemma RemoteAddrWithPort(host: string, port: string)
    requires ':' !in port
    ensures IpAddrFromRemoteAddr(host + ":" + port) == host
  {
    var s := host + ":" + port;
    assert s[|host|] == ':';
    assert s[..|host|] == host;
  }

  /**
   * The client address rule: X-Forwarded-For's first hop, trimmed, whenever
   * that header is set; else X-Real-IP when set; else the peer address
   * without its port.
   */
  ghost predicate ClientIPRule(header: map<string, string>, remoteAddr: string, ip: string)
  {
    var realIP := HeaderGet(header, XRealIPHeader);
    var forwardedFor := HeaderGet(header, XForwardedForHeader);
    && (realIP == "" && forwardedFor == "" ==> ip == IpAddrFromRemoteAddr(remoteAddr))
    && (forwardedFor != "" ==> ip == TrimSpace(Split(forwardedFor, ',')[0]))
    && (forwardedFor == "" && realIP != "" ==> ip == realIP)
  }

  /** Trims every element of `parts` in place. */
  method TrimEach(parts: array<string>)
    modifies parts
    ensures forall k :: 0 <= k < parts.Length ==> parts[k] == TrimSpace(old(parts[k]))
  {
    for i := 0 to parts.Length
      invariant forall k :: 0 <= k < i ==> parts[k] == TrimSpace(old(parts[k]))
      invariant forall k :: i <= k < parts.Length ==> parts[k] == old(parts[k])
    {
      parts[i] := TrimSpace(parts[i]);
    }
  }

  /** `requestGetRemoteAddress`: trims every X-Forwarded-For hop in place, then takes the first. */
  method RequestGetRemoteAddress(r: Request) returns (ip: string)
    ensures ClientIPRule(r.header, r.remoteAddr, ip)
  {
    var headerRealIP := HeaderGet(r.header, XRealIPHeader);
    var headerForwardedFor := HeaderGet(r.header, XForwardedForHeader);
    if headerRealIP == "" && headerForwardedFor == "" {
      return IpAddrFromRemoteAddr(r.remoteAddr);
    }
    if headerForwardedFor != "" {
      var split := Split(headerForwardedFor, ',');
      var parts := new string[|split|](k requires 0 <= k < |split| => split[k]);
      TrimEach(parts);
      ip := parts[0];
      assert ip == TrimSpace(split[0]);
      return;
    }
    return headerRealIP;
  }

  /** The first hop is the text before the first comma, with its white-space margin removed. */
  lemma ForwardedForFirstHop(pre: string, hop: string, post: string, rest: string)
    requires AllSpace(pre) && AllSpace(post) && Trimmed(hop)
    requires ',' !in pre + hop + post
    ensures TrimSpace(Split(pre + hop + post + "," + rest, ',')[0]) == hop
  {
    var first := pre + hop + post;
    var s := first + "," + rest;
    var i := Index(s, ',');
    assert s[|first|] == ',';
    assert s[..|first|] == first;
    assert i == |first|;
    SplitFirst(s, ',');
    TrimSpacePadded(pre, hop, post);
  }

  lemma ClientIPExample(header: map<string, string>, remoteAddr: string)
    requires HeaderGet(header, XForwardedForHeader) == " 10.0.0.1 ,10.0.0.2"
    requires HeaderGet(header, XRealIPHeader) == "192.168.0.7"
    ensures forall ip :: ClientIPRule(header, remoteAddr, ip) ==> ip == "10.0.0.1"
  {
    assert " 10.0.0.1 ,10.0.0.2" == " " + "10.0.0.1" + " " + "," + "10.0.0.2";
    ForwardedForFirstHop(" ", "10.0.0.1", " ", "10.0.0.2");
  }

  // ---------------------------------------------------------------- logging level

  datatype Level = InfoLevel | WarnLevel | ErrorLevel

  /** The level RequestLogger logs a completed request at, by its status. */
  function LevelForStatus(status: int): (l: Level)
    ensures l == ErrorLevel <==> status >= 500
    ensures l == WarnLevel <==> 400 <= status < 500
    ensures l == InfoLevel <==> status < 400
  {
    if status > 499 then ErrorLevel
    else if status > 399 then WarnLevel
    else InfoLevel
  }

  function Severity(l: Level): nat
  {
    match l
    case InfoLevel => 0
    case WarnLevel => 1
    case ErrorLevel => 2
  }

  /** A higher status is never logged at a lower level. */
  lemma LevelIsMonotone(a: int, b: int)
    requires a <= b
    ensures Severity(LevelForStatus(a)) <= Severity(LevelForStatus(b))
  {
  }

  // ---------------------------------------------------------------- the middlewares

  /**
   * SetRequestID with the outcome of `uuid.NewV4()`: on failure a 500 and the
   * chain stops (`next` is false); otherwise the ID is both the
   * `x-request-id` header and the context's request ID.
   */
  method SetRequestID(uuid: Result<string, Error>, w: Http.ResponseWriter, r: Request)
    returns (next: bool)
    modifies w, r
    ensures next <==> uuid.Success?
    ensures !next ==> && r.ctx == old(r.ctx)
                      && w.header == Http.ErrorHeaders(old(w.header))
                      && w.events == old(w.events)
                           + [Http.WroteHeader(Http.StatusInternalServerError), Http.Wrote(Http.Text("\n"))]
    ensures next ==> && w.header == old(w.header)[RequestIDHeader := uuid.value]
                     && w.events == old(w.events)
                     && r.ctx == WithRequestID(old(r.ctx), uuid.value)
                     && GetRequestID(r.ctx) == w.header[RequestIDHeader]
    ensures r.body == old(r.body)
  {
    if uuid.Failure? {
      Http.HttpError(w, "", Http.StatusInternalServerError);
      assert "" + "\n" == "\n";
      return false;
    }
    var u := uuid.value;
    w.SetHeader(RequestIDHeader, u);
    r.WithContext(WithRequestID(r.ctx, u));
    return true;
  }

  /** What RequestLogger collects before passing the request on. */
  datatype RequestInfo = RequestInfo(requestMethod: string, path: string, requestId: string, ip: string,
                                     userAgent: string, referer: string, body: seq<byte>)

  /** The "Request completed" entry: the collected fields and the response status. */
  datatype AccessLog = AccessLog(level: Level, status: int, info: RequestInfo)

  /**
   * The first half of RequestLogger: collect the request's details and read
   * the whole body, then give the request a new body holding exactly the
   * bytes read (a nil body becomes an empty one).
   */
  method ReadRequestInfo(r: Request) returns (info: RequestInfo)
    modifies r
    ensures r.body == Reader(ReadAll(old(r.body)))
    ensures info.body == ReadAll(old(r.body))
    ensures info.requestId == GetRequestID(r.ctx) && r.ctx == old(r.ctx)
    ensures info.requestMethod == r.requestMethod && info.path == r.path
    ensures info.userAgent == HeaderGet(r.header, UserAgentHeader)
    ensures info.referer == HeaderGet(r.header, RefererHeader)
    ensures ClientIPRule(r.header, r.remoteAddr, info.ip)
  {
    var requestID := GetRequestID(r.ctx);
    var ipAddr := RequestGetRemoteAddress(r);
    var userAgent := HeaderGet(r.header, UserAgentHeader);
    var referer := HeaderGet(r.header, RefererHeader);
    var bodyBytes: seq<byte> := [];
    if r.body != NoBody {
      bodyBytes := ReadAll(r.body);
    }
    r.body := Reader(bodyBytes);
    info := RequestInfo(r.requestMethod, r.path, requestID, ipAddr, userAgent, referer, bodyBytes);
  }

  /** The deferred half of RequestLogger: the entry for the status the wrapped writer saw. */
  function CompletedEntry(info: RequestInfo, status: int): (entry: AccessLog)
    ensures entry.info == info && entry.status == status
    ensures entry.level == LevelForStatus(status)
  {
    AccessLog(LevelForStatus(status), status, info)
  }

  /** SetContextLogger: stores a logger that carries the request ID as a field. */
  method SetContextLogger(base: Logs.Logger, r: Request)
    modifies r
    ensures r.ctx == WithContextLogger(base, old(r.ctx))
    ensures r.body == old(r.body)
  {
    r.WithContext(WithContextLogger(base, r.ctx));
  }
}
