/**
 * The v1 routes: the middleware chain, the summary and positions handlers,
 * and the whole pipeline a request goes through.
 */
module Routes {
  import opened Wrappers
  import opened GoStrings
  import Logs
  import Http
  import Queries
  import Validation
  import Middlewares

  const DefaultLimitPositionsPerPage: nat := 10

  datatype Middleware = Recoverer | SetRequestID | RequestLogger | SetContextLogger | RequireDomainName

  /** The middlewares `Routes` installs, outermost first. */
  const Chain: seq<Middleware> := [Recoverer, SetRequestID, RequestLogger, SetContextLogger, RequireDomainName]

  // ---------------------------------------------------------------- query parameters

  /** `req.URL.Query().Get(key)`: the first value given for `key`, or "". */
  function QueryGet(query: map<string, seq<string>>, key: string): (v: string)
    ensures key !in query || |query[key]| == 0 ==> v == ""
    ensures key in query && |query[key]| > 0 ==> v == query[key][0]
  {
    if key in query && |query[key]| > 0 then query[key][0] else ""
  }

  /** The page number: the `page` value as strconv.Atoi reads it, or 1 when Atoi fails. */
  function PageNumber(raw: string): int
  {
    match Atoi(raw)
    case Some(n) => n
    case None => 1
  }

  /** Any decimal in range is used as given, including 0 and negative pages. */
  lemma PageNumberParsed(n: int)
    requires IsInt64(n)
    ensures PageNumber(Itoa(n)) == n
  {
    AtoiOfItoa(n);
  }

  /** A missing or malformed page, or one that overflows, is page 1. */
  lemma PageNumberFallback(n: int)
    ensures PageNumber("") == 1 && PageNumber("abc") == 1 && PageNumber("1.5") == 1
    ensures !IsInt64(n) ==> PageNumber(Itoa(n)) == 1
  {
    AtoiRejectsNonDecimals();
    if !IsInt64(n) {
      AtoiOfItoa(n);
    }
  }

  /** `defaultLimitPositionsPerPage*(pageNum-1)`, in 64-bit arithmetic. */
  function PageOffset(pageNum: int): int
    requires IsInt64(pageNum)
  {
    WrapInt64(DefaultLimitPositionsPerPage * WrapInt64(pageNum - 1))
  }

  /** Without overflow the offset skips the previous pages' rows exactly. */
  lemma PageOffsetExact(p: int)
    requires IsInt64(p) && IsInt64(DefaultLimitPositionsPerPage * (p - 1))
    ensures PageOffset(p) == DefaultLimitPositionsPerPage * (p - 1)
  {
  }

  /** A large enough page number makes the offset wrap around to a negative value. */
  lemma PageOffsetWraps()
    ensures PageOffset(922337203685477582) == -9223372036854775806
  {
  }

  /** Page 0 and moderately negative pages give a negative offset, which reads as no offset. */
  lemma NonPositivePageIsFirstPage(p: int, s: seq<Queries.Row>)
    requires 1 - MaxInt64 / 10 <= p <= 1
    ensures PageOffset(p) <= 0
    ensures Queries.Window(s, DefaultLimitPositionsPerPage, PageOffset(p))
            == Queries.Window(s, DefaultLimitPositionsPerPage, 0)
  {
    PageOffsetExact(p);
  }

  /** Far enough below zero, the offset wraps around to a huge positive value and the page is empty. */
  lemma VeryNegativePageIsEmpty(s: seq<Queries.Row>)
    requires |s| < MaxInt64
    ensures PageOffset(-922337203685477580) == 9223372036854775806
    ensures Queries.Window(s, DefaultLimitPositionsPerPage, PageOffset(-922337203685477580)) == []
  {
  }

  // ---------------------------------------------------------------- replies

  /** `newSummaryResponse`. */
  function NewSummaryResponse(ds: Queries.DomainSummary): (p: Http.Payload)
    ensures p.SummaryBody? && p.domain == ds.domain && p.positionsCount == ds.positionsCount
  {
    Http.SummaryBody(ds.domain, ds.positionsCount)
  }

  /** `newPositionsResponse`. */
  function NewPositionsResponse(domain: string, positions: seq<Queries.Position>): (p: Http.Payload)
    ensures p.PositionsBody? && p.domain == domain && p.positions == positions
  {
    Http.PositionsBody(domain, positions)
  }

  /** What a handler writes: `http.Error(w, "", code)`, or a status and a JSON body. */
  datatype Reply = PlainError(code: int) | JsonReply(code: int, payload: Http.Payload)

  function ReplyEvents(reply: Reply): seq<Http.Event>
  {
    match reply
    case PlainError(code) => [Http.WroteHeader(code), Http.Wrote(Http.Text("\n"))]
    case JsonReply(code, payload) => [Http.WroteHeader(code), Http.Wrote(payload)]
  }

  function ReplyHeader(h: map<string, string>, reply: Reply): map<string, string>
  {
    if reply.PlainError? then Http.ErrorHeaders(h) else h
  }

  /** The status a reply carries is the status the client sees. */
  lemma ReplyStatus(reply: Reply)
    ensures Http.StatusOf(ReplyEvents(reply)) == reply.code
  {
  }

  /** The arguments the positions handler passes to GetPositions. */
  datatype Call = Call(domain: string, orderBy: string, limit: nat, offset: int)

  function PositionsCall(ctx: Middlewares.Context, domain: string, query: map<string, seq<string>>)
    : Option<Call>
  {
    if ctx.logger.None? then None
    else
      var orderBy := QueryGet(query, "orderBy");
      if Validation.ValidateOrderByField(orderBy).Some? then None
      else Some(Call(domain, orderBy, DefaultLimitPositionsPerPage,
                     PageOffset(PageNumber(QueryGet(query, "page")))))
  }

  function PositionsReply(ctx: Middlewares.Context, domain: string, query: map<string, seq<string>>,
                          conn: Queries.Connection): Reply
  {
    if ctx.logger.None? then PlainError(Http.StatusInternalServerError)
    else
      var orderBy := QueryGet(query, "orderBy");
      match Validation.ValidateOrderByField(orderBy)
      case Some(err) => JsonReply(Http.StatusBadRequest, Http.ErrorBody(err.msg))
      case None =>
        var offset := PageOffset(PageNumber(QueryGet(query, "page")));
        match Queries.PositionsResult(conn, domain, orderBy, DefaultLimitPositionsPerPage, offset)
        case Failure(_) => PlainError(Http.StatusInternalServerError)
        case Success(ps) => JsonReply(Http.StatusOK, NewPositionsResponse(domain, ps))
  }

  function SummaryReply(ctx: Middlewares.Context, domain: string, conn: Queries.Connection): Reply
  {
    if ctx.logger.None? then PlainError(Http.StatusInternalServerError)
    else
      var (count, err) := Queries.PositionRepo(ctx.logger.value, conn).GetSummary(domain);
      if err.Some? then PlainError(Http.StatusInternalServerError)
      else JsonReply(Http.StatusOK, NewSummaryResponse(Queries.DomainSummary(domain, count)))
  }

  // ---------------------------------------------------------------- handlers

  /**
   * `positionsHandler`: 500 without a context logger, 400 with a JSON error
   * for an `orderBy` off the whitelist, 500 when the repository fails, and
   * otherwise 200 with the page. `call` is what was passed to GetPositions.
   */
  method PositionsHandler(conn: Queries.Connection, w: Http.ResponseWriter, r: Middlewares.Request,
                          domain: string)
    returns (ghost call: Option<Call>)
    modifies w
    ensures call == PositionsCall(r.ctx, domain, r.query)
    ensures w.events == old(w.events) + ReplyEvents(PositionsReply(r.ctx, domain, r.query, conn))
    ensures w.header == ReplyHeader(old(w.header), PositionsReply(r.ctx, domain, r.query, conn))
  {
    call := None;
    var log := Middlewares.GetContextLogger(r.ctx);
    if log.Failure? {
      Http.HttpError(w, "", Http.StatusInternalServerError);
      assert "" + "\n" == "\n";
      return;
    }
    var pageNum: int;
    var parsed := Atoi(QueryGet(r.query, "page"));
    if parsed.None? {
      pageNum := 1;
    } else {
      pageNum := parsed.value;
    }
    var orderBy := QueryGet(r.query, "orderBy");
    var err := Validation.ValidateOrderByField(orderBy);
    if err.Some? {
      w.WriteHeader(Http.StatusBadRequest);
      w.Write(Http.ErrorBody(err.value.msg));
      return;
    }
    var repo := Queries.PositionRepo(log.value, conn);
    var offset := WrapInt64(DefaultLimitPositionsPerPage * WrapInt64(pageNum - 1));
    assert pageNum == PageNumber(QueryGet(r.query, "page"));
    assert offset == PageOffset(pageNum);
    call := Some(Call(domain, orderBy, DefaultLimitPositionsPerPage, offset));
    var positions := repo.GetPositions(domain, orderBy, DefaultLimitPositionsPerPage, offset);
    assert positions == Queries.PositionsResult(conn, domain, orderBy, DefaultLimitPositionsPerPage, offset);
    if positions.Failure? {
      Http.HttpError(w, "", Http.StatusInternalServerError);
      assert "" + "\n" == "\n";
      return;
    }
    w.WriteHeader(Http.StatusOK);
    w.Write(NewPositionsResponse(domain, positions.value));
  }

  /** `summaryHandler`: 500 without a context logger or when the count fails, else 200 with the count. */
  method SummaryHandler(conn: Queries.Connection, w: Http.ResponseWriter, r: Middlewares.Request,
                        domain: string)
    modifies w
    ensures w.events == old(w.events) + ReplyEvents(SummaryReply(r.ctx, domain, conn))
    ensures w.header == ReplyHeader(old(w.header), SummaryReply(r.ctx, domain, conn))
  {
    var log := Middlewares.GetContextLogger(r.ctx);
    if log.Failure? {
      Http.HttpError(w, "", Http.StatusInternalServerError);
      assert "" + "\n" == "\n";
      return;
    }
    var repo := Queries.PositionRepo(log.value, conn);
    var (count, err) := repo.GetSummary(domain);
    if err.Some? {
      Http.HttpError(w, "", Http.StatusInternalServerError);
      assert "" + "\n" == "\n";
      return;
    }
    w.WriteHeader(Http.StatusOK);
    w.Write(NewSummaryResponse(Queries.DomainSummary(domain, count)));
  }

  // ---------------------------------------------------------------- what the handlers guarantee

  /**
   * The positions handler's outcomes: 500 without a logger; 400 exactly for
   * an `orderBy` off the whitelist, quoting it; 200 exactly when the
   * repository succeeds, carrying its rows; and 500 otherwise.
   */
  lemma PositionsReplyCases(ctx: Middlewares.Context, domain: string, query: map<string, seq<string>>,
                            conn: Queries.Connection)
    ensures var reply := PositionsReply(ctx, domain, query, conn);
      var orderBy := QueryGet(query, "orderBy");
      var result := Queries.PositionsResult(conn, domain, orderBy, DefaultLimitPositionsPerPage,
                                            PageOffset(PageNumber(QueryGet(query, "page"))));
      && (reply.code == 200 || reply.code == 400 || reply.code == 500)
      && (ctx.logger.None? ==> reply == PlainError(500))
      && (reply.code == 400 <==> ctx.logger.Some? && orderBy !in Validation.ValidFieldsToOrderBy)
      && (reply.code == 400 ==> reply == JsonReply(400, Http.ErrorBody(
            Validation.RejectionPrefix + orderBy + Validation.RejectionSuffix)))
      && (reply.code == 200 <==> ctx.logger.Some? && orderBy in Validation.ValidFieldsToOrderBy && result.Success?)
      && (reply.code == 200 ==> reply == JsonReply(200, Http.PositionsBody(domain, result.value)))
  {
  }

  /**
   * Whatever the client sends, GetPositions is called only with a
   * whitelisted `orderBy`, so the ORDER BY clause is one of seven fixed
   * column names; the limit is always 10 and the offset follows the page.
   */
  lemma PositionsCallIsSafe(ctx: Middlewares.Context, domain: string, query: map<string, seq<string>>)
    ensures var call := PositionsCall(ctx, domain, query);
      var orderBy := QueryGet(query, "orderBy");
      && (call.Some? <==> ctx.logger.Some? && orderBy in Validation.ValidFieldsToOrderBy)
      && (call.Some? ==>
            && call.value.domain == domain
            && call.value.orderBy == orderBy
            && call.value.limit == DefaultLimitPositionsPerPage
            && call.value.offset == PageOffset(PageNumber(QueryGet(query, "page")))
            && Queries.EffectiveOrderBy(orderBy) in Validation.ValidFieldsToOrderBy - {""})
  {
  }

  /** A call is made exactly when the reply is not a 400 and a logger is present. */
  lemma CallMadeUnlessRejected(ctx: Middlewares.Context, domain: string, query: map<string, seq<string>>,
                               conn: Queries.Connection)
    ensures var call := PositionsCall(ctx, domain, query);
      var reply := PositionsReply(ctx, domain, query, conn);
      call.Some? <==> ctx.logger.Some? && reply.code != 400
  {
    PositionsReplyCases(ctx, domain, query, conn);
    PositionsCallIsSafe(ctx, domain, query);
  }

  /**
   * Over a table, page `p` of a domain is its rows in ascending order of
   * the sort column, starting after the first 10*(p-1).
   */
  lemma PageOverTable(ctx: Middlewares.Context, domain: string, query: map<string, seq<string>>,
                      conn: Queries.Connection, table: seq<Queries.Row>, key: Queries.Row -> int,
                      ordered: seq<Queries.Row>, p: int)
    requires ctx.logger.Some?
    requires QueryGet(query, "orderBy") in Validation.ValidFieldsToOrderBy
    requires PageNumber(QueryGet(query, "page")) == p
    requires 1 <= p && IsInt64(DefaultLimitPositionsPerPage * (p - 1))
    requires Queries.IsArrangement(ordered, table, domain, key)
    requires Queries.Serves(conn, domain, Queries.EffectiveOrderBy(QueryGet(query, "orderBy")),
                            DefaultLimitPositionsPerPage, DefaultLimitPositionsPerPage * (p - 1), ordered)
    ensures var reply := PositionsReply(ctx, domain, query, conn);
      var w := Queries.Window(ordered, DefaultLimitPositionsPerPage, DefaultLimitPositionsPerPage * (p - 1));
      && reply.JsonReply? && reply.code == 200
      && reply.payload.PositionsBody? && reply.payload.domain == domain
      && |reply.payload.positions| == |w| <= DefaultLimitPositionsPerPage
      && (forall k :: 0 <= k < |w| ==> reply.payload.positions[k] == Queries.Project(w[k]))
      && Queries.SortedBy(w, key)
  {
    assert IsInt64(p);
    PageOffsetExact(p);
    Queries.PositionsOverTable(conn, table, domain, QueryGet(query, "orderBy"), key,
                               DefaultLimitPositionsPerPage, DefaultLimitPositionsPerPage * (p - 1), ordered);
  }

  /** The summary handler: 200 with the repository's count, or 500 when there is no logger or the count fails. */
  lemma SummaryReplyCases(ctx: Middlewares.Context, domain: string, conn: Queries.Connection)
    ensures var reply := SummaryReply(ctx, domain, conn);
      && (reply.code == 200 || reply.code == 500)
      && (reply.code == 500 <==> ctx.logger.None? || Queries.PositionRepo(ctx.logger.value, conn).GetSummary(domain).1.Some?)
      && (reply.code == 200 ==> reply == JsonReply(200, Http.SummaryBody(domain,
            Queries.PositionRepo(ctx.logger.value, conn).GetSummary(domain).0)))
  {
  }

  // ---------------------------------------------------------------- the test table

  function TestRow(keyword: string, position: int, domain: string, url: string, volume: int, cpc: int)
    : Queries.Row
  {
    Queries.Row(keyword, position, domain, url, volume, 40000, Queries.Cpc(cpc), "2017-05-20")
  }

  /**
   * The five rows the repository and API tests load. The two test fixtures
   * differ only in the CPC values, and `cpc` keeps only a distinguishing tag.
   */
  const TestTable: seq<Queries.Row> := [
    TestRow("test1", 1, "ulmart.ru", "http://ulmart.ru/test1", 43, 1),
    TestRow("test2", 2, "ulmart.ru", "http://ulmart.ru/test2", 55, 2),
    TestRow("test3", 3, "ulmart.ru", "http://ulmart.ru/test3", 76, 3),
    TestRow("test4", 7, "non-ulmart.ru", "http://nonulmart.ru/tests/2", 32, 5),
    TestRow("test4", 11, "non-ulmart.ru", "http://nonulmart.ru/tests", 65, 5)]

  function VolumeKey(r: Queries.Row): int
  {
    r.volume
  }

  /** With no parameters, the positions handler answers 200 with the first page of the domain's arrangement. */
  lemma FirstPageWithoutParameters(ctx: Middlewares.Context, domain: string, conn: Queries.Connection,
                                   table: seq<Queries.Row>, key: Queries.Row -> int, ordered: seq<Queries.Row>)
    requires ctx.logger.Some?
    requires Queries.IsArrangement(ordered, table, domain, key)
    requires |ordered| <= DefaultLimitPositionsPerPage
    requires Queries.Serves(conn, domain, "volume", DefaultLimitPositionsPerPage, 0, ordered)
    ensures var reply := PositionsReply(ctx, domain, map[], conn);
      && reply.JsonReply? && reply.code == 200 && reply.payload.PositionsBody?
      && |reply.payload.positions| == |ordered|
      && forall k :: 0 <= k < |ordered| ==> reply.payload.positions[k] == Queries.Project(ordered[k])
  {
    var query: map<string, seq<string>> := map[];
    assert QueryGet(query, "page") == "" && QueryGet(query, "orderBy") == "";
    PageNumberFallback(0);
    PageOffsetExact(1);
    PageOverTable(ctx, domain, query, conn, table, key, ordered, 1);
    assert Queries.Window(ordered, DefaultLimitPositionsPerPage, 0) == ordered;
  }

  /**
   * The first page of `ulmart.ru` with no parameters, for whatever ascending
   * arrangement by volume the engine returns: that arrangement can only be the
   * table's first three rows, so the page holds volumes 43, 55 and 76.
   */
  lemma UlmartFirstPage(ctx: Middlewares.Context, conn: Queries.Connection, table: seq<Queries.Row>,
                        ordered: seq<Queries.Row>)
    requires table == TestTable
    requires ctx.logger.Some?
    requires Queries.IsArrangement(ordered, table, "ulmart.ru", VolumeKey)
    requires Queries.Serves(conn, "ulmart.ru", "volume", DefaultLimitPositionsPerPage, 0, ordered)
    ensures ordered == table[..3]
    ensures var reply := PositionsReply(ctx, "ulmart.ru", map[], conn);
      && reply.JsonReply? && reply.code == 200 && reply.payload.PositionsBody?
      && |reply.payload.positions| == 3
      && reply.payload.positions[0].volume == 43
      && reply.payload.positions[1].volume == 55
      && reply.payload.positions[2].volume == 76
  {
    var first := table[..3];
    UlmartArrangement(table);
    TestTableVolumes(table);
    assert Queries.DistinctKeys(first, VolumeKey) by {
      assert first[0].volume == 43 && first[1].volume == 55 && first[2].volume == 76;
    }
    Queries.SortedUnique(first, ordered, VolumeKey);
    FirstPageWithoutParameters(ctx, "ulmart.ru", conn, table, VolumeKey, ordered);
    var ps := PositionsReply(ctx, "ulmart.ru", map[], conn).payload.positions;
    assert ps[0] == Queries.Project(ordered[0]) && ordered[0] == table[0];
    assert ps[1] == Queries.Project(ordered[1]) && ordered[1] == table[1];
    assert ps[2] == Queries.Project(ordered[2]) && ordered[2] == table[2];
  }

  /** The volumes of the test table's first three rows. */
  lemma TestTableVolumes(t: seq<Queries.Row>)
    requires t == TestTable
    ensures |t| == 5 && t[0].volume == 43 && t[1].volume == 55 && t[2].volume == 76
  {
  }

  /** The domains of the test table's rows. */
  lemma TestTableDomains(t: seq<Queries.Row>)
    requires t == TestTable
    ensures |t| == 5
    ensures t[0].domain == t[1].domain == t[2].domain == "ulmart.ru"
    ensures t[3].domain == t[4].domain == "non-ulmart.ru"
  {
  }

  /** The test table's `ulmart.ru` rows are its first three, already in ascending volume. */
  lemma UlmartArrangement(t: seq<Queries.Row>)
    requires t == TestTable
    ensures Queries.FilterDomain(t, "ulmart.ru") == t[..3]
    ensures Queries.IsArrangement(t[..3], t, "ulmart.ru", VolumeKey)
  {
    TestTableDomains(t);
    TestTableVolumes(t);
    assert |"non-ulmart.ru"| != |"ulmart.ru"|;
    Queries.PrefixArrangement(t, "ulmart.ru", 3, VolumeKey);
  }

  /** An `orderBy` off the whitelist is refused before any query, naming the field. */
  lemma BadOrderByIsRefused(ctx: Middlewares.Context, query: map<string, seq<string>>, conn: Queries.Connection)
    requires ctx.logger.Some?
    requires QueryGet(query, "orderBy") == "wwwwat"
    ensures PositionsCall(ctx, "ulmart.ru", query).None?
    ensures PositionsReply(ctx, "ulmart.ru", query, conn)
            == JsonReply(400, Http.ErrorBody("positions can't be ordered by 'wwwwat' field"))
  {
    Validation.RejectionExamples();
  }

  /** An unknown domain is counted as zero positions, answered with 200. */
  lemma UnknownDomainSummary(ctx: Middlewares.Context, conn: Queries.Connection)
    requires ctx.logger.Some?
    requires conn.queryRow(Queries.SummaryStatement("non-existent-domain"))
             == Queries.CountRow(None, Success(|Queries.FilterDomain(TestTable, "non-existent-domain")|))
    ensures SummaryReply(ctx, "non-existent-domain", conn) == JsonReply(200, Http.SummaryBody("non-existent-domain", 0))
  {
    Queries.SummaryOverTable(Queries.PositionRepo(ctx.logger.value, conn), TestTable, "non-existent-domain");
  }

  // ---------------------------------------------------------------- the pipeline

  datatype Route = SummaryRoute | PositionsRoute

  function RouteReply(route: Route, ctx: Middlewares.Context, domain: string,
                      query: map<string, seq<string>>, conn: Queries.Connection): Reply
  {
    match route
    case SummaryRoute => SummaryReply(ctx, domain, conn)
    case PositionsRoute => PositionsReply(ctx, domain, query, conn)
  }

  /** The context a handler sees: the request ID, then the logger carrying it. */
  function HandlerContext(base: Logs.Logger, ctx: Middlewares.Context, id: string): Middlewares.Context
  {
    Middlewares.WithContextLogger(base, Middlewares.WithRequestID(ctx, id))
  }

  /**
   * A request through SetRequestID, RequestLogger and SetContextLogger to its
   * handler (the domain already taken from the path); these are `Chain[1..4]`,
   * run in that order, between the unmodelled Recoverer and RequireDomainName
   * at the two ends of the chain. Without a request ID
   * the chain stops with a 500; otherwise the handler's reply follows the
   * `x-request-id` header, and the access-log entry records its status at
   * the level LevelForStatus gives.
   */
  method Serve(route: Route, base: Logs.Logger, conn: Queries.Connection, uuid: Result<string, Error>,
               domain: string, w: Http.ResponseWriter, r: Middlewares.Request)
    returns (entry: Option<Middlewares.AccessLog>)
    modifies w, r
    ensures uuid.Failure? ==>
      && entry.None?
      && r.ctx == old(r.ctx) && r.body == old(r.body)
      && w.events == old(w.events) + ReplyEvents(PlainError(500))
      && w.header == ReplyHeader(old(w.header), PlainError(500))
    ensures uuid.Success? ==>
      var id := uuid.value;
      var reply := RouteReply(route, HandlerContext(base, old(r.ctx), id), domain, r.query, conn);
      && r.ctx == HandlerContext(base, old(r.ctx), id)
      && r.body == Middlewares.Reader(Middlewares.ReadAll(old(r.body)))
      && w.events == old(w.events) + ReplyEvents(reply)
      && w.header == ReplyHeader(old(w.header)[Middlewares.RequestIDHeader := id], reply)
      && entry.Some?
      && entry.value.status == reply.code
      && entry.value.level == Middlewares.LevelForStatus(reply.code)
      && entry.value.info.requestId == id
      && entry.value.info.body == Middlewares.ReadAll(old(r.body))
      && Middlewares.ClientIPRule(r.header, r.remoteAddr, entry.value.info.ip)
  {
    var next := Middlewares.SetRequestID(uuid, w, r);
    if !next {
      return None;
    }
    var info := Middlewares.ReadRequestInfo(r);
    var before := w.events;
    Middlewares.SetContextLogger(base, r);
    match route {
      case SummaryRoute =>
        SummaryHandler(conn, w, r, domain);
      case PositionsRoute =>
        ghost var call := PositionsHandler(conn, w, r, domain);
    }
    var status := Http.StatusOf(w.events[|before|..]);
    assert w.events[|before|..] == ReplyEvents(RouteReply(route, r.ctx, domain, r.query, conn));
    ReplyStatus(RouteReply(route, r.ctx, domain, r.query, conn));
    entry := Some(Middlewares.CompletedEntry(info, status));
  }

  /**
   * Inside the pipeline the handlers always find their logger, so a 500
   * means the repository failed; a 400 only ever comes from the
   * whitelist; and every reply is logged at the level of its status.
   */
  lemma PipelineOutcomes(route: Route, base: Logs.Logger, ctx: Middlewares.Context, id: string,
                         domain: string, query: map<string, seq<string>>, conn: Queries.Connection)
    ensures var hctx := HandlerContext(base, ctx, id);
      var reply := RouteReply(route, hctx, domain, query, conn);
      var orderBy := QueryGet(query, "orderBy");
      var log := Middlewares.ContextLogger(base, Middlewares.WithRequestID(ctx, id));
      && Middlewares.GetContextLogger(hctx) == Success(log)
      && log.fields == base.fields + [Logs.Field(Middlewares.RequestIDHeader, id)]
      && (route.SummaryRoute? ==>
            (reply.code == 500 <==> Queries.PositionRepo(log, conn).GetSummary(domain).1.Some?))
      && (route.PositionsRoute? ==>
            && (reply.code == 400 <==> orderBy !in Validation.ValidFieldsToOrderBy)
            && (reply.code == 500 <==>
                  && orderBy in Validation.ValidFieldsToOrderBy
                  && Queries.PositionsResult(conn, domain, orderBy, DefaultLimitPositionsPerPage,
                                             PageOffset(PageNumber(QueryGet(query, "page")))).Failure?))
      && (Middlewares.LevelForStatus(reply.code) == Middlewares.ErrorLevel <==> reply.code == 500)
      && (Middlewares.LevelForStatus(reply.code) == Middlewares.WarnLevel <==> reply.code == 400)
  {
    var hctx := HandlerContext(base, ctx, id);
    Middlewares.ContextLoggerRoundTrip(base, Middlewares.WithRequestID(ctx, id));
    PositionsReplyCases(hctx, domain, query, conn);
    SummaryReplyCases(hctx, domain, conn);
  }

  /** Every reply after a successful SetRequestID still carries the `x-request-id` header. */
  lemma RequestIDHeaderSurvives(h: map<string, string>, id: string, reply: Reply)
    ensures Middlewares.RequestIDHeader in ReplyHeader(h[Middlewares.RequestIDHeader := id], reply)
    ensures ReplyHeader(h[Middlewares.RequestIDHeader := id], reply)[Middlewares.RequestIDHeader] == id
  {
  }
}
