/**
 * The slice of `net/http` the handlers write through: a response writer
 * that records its header map and, in order, every status line and body it
 * is given. JSON encoding is not modelled: a JSON body is recorded as the
 * value it encodes.
 */
module Http {
  import Queries

  const StatusOK: int := 200
  const StatusBadRequest: int := 400
  const StatusInternalServerError: int := 500

  /** A body written to the client. */
  datatype Payload =
    | Text(text: string)                                                 // plain text, as `http.Error` writes it
    | SummaryBody(domain: string, positionsCount: int)                   // {"domain", "positions_count"}
    | PositionsBody(domain: string, positions: seq<Queries.Position>)    // {"domain", "positions"}
    | ErrorBody(error: string)                                           // {"error"}

  datatype Event = WroteHeader(code: int) | Wrote(body: Payload)

  /**
   * The status the client sees, as a wrapped writer's `Status()` reports it:
   * the first status written, 200 when a body was written first, 0 when
   * nothing was written.
   */
  function StatusOf(events: seq<Event>): int
  {
    if |events| == 0 then 0
    else match events[0]
      case WroteHeader(code) => code
      case Wrote(_) => StatusOK
  }

  class ResponseWriter {
    var header: map<string, string>
    var events: seq<Event>

    constructor ()
      ensures header == map[] && events == []
    {
      header := map[];
      events := [];
    }

    /** `w.Header().Set(key, value)`. */
    method SetHeader(key: string, value: string)
      modifies this
      ensures header == old(header)[key := value] && events == old(events)
    {
      header := header[key := value];
    }

    /** `w.WriteHeader(code)`. */
    method WriteHeader(code: int)
      modifies this
      ensures events == old(events) + [WroteHeader(code)] && header == old(header)
    {
      events := events + [WroteHeader(code)];
    }

    /** `w.Write(...)` of one encoded body. */
    method Write(body: Payload)
      modifies this
      ensures events == old(events) + [Wrote(body)] && header == old(header)
    {
      events := events + [Wrote(body)];
    }
  }

  /** The headers `http.Error` sets before writing its status. */
  function ErrorHeaders(h: map<string, string>): map<string, string>
  {
    h["Content-Type" := "text/plain; charset=utf-8"]["X-Content-Type-Options" := "nosniff"]
  }

  /** `http.Error(w, msg, code)`: plain-text headers, the status, then `msg` and a newline. */
  method HttpError(w: ResponseWriter, msg: string, code: int)
    modifies w
    ensures w.header == ErrorHeaders(old(w.header))
    ensures w.events == old(w.events) + [WroteHeader(code), Wrote(Text(msg + "\n"))]
  {
    w.SetHeader("Content-Type", "text/plain; charset=utf-8");
    w.SetHeader("X-Content-Type-Options", "nosniff");
    w.WriteHeader(code);
    w.Write(Text(msg + "\n"));
  }
}
