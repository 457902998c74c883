# solid-broccoli positions API, modelled in Dafny

solid-broccoli serves the search positions of web domains over HTTP:

- `GET /v1/summary/<domain>` answers the number of rows a domain has in the `positions` table.
- `GET /v1/positions/<domain>?orderBy=<field>&page=<n>` answers one page of ten rows, sorted by a whitelisted column.

This project models the request path from the middlewares to the SQL statement. It covers the following parts:

- **Sort-field whitelist** (`Validation`). This is the only check between the client's `orderBy` text and the `ORDER BY` clause.
- **Handlers and routes** (`Routes`). This covers page-number parsing, the 64-bit offset arithmetic, and the choice between 400, 500 and 200 with the body each carries. It also covers the middleware order and the whole pipeline.
  - `Routes.Serve` runs a request through request-ID assignment, access logging and the context logger, then into the handler.
- **Middlewares** (`Middlewares`). This covers:
  - the request-ID and logger context lookups;
  - client-address derivation from `X-Forwarded-For`, `X-Real-IP` and the peer address;
  - the read-and-restore of the request body;
  - the log level for a status.
- **Query layer** (`Queries`). This covers the ORDER BY template, the bound parameters, the row loop with its all-or-nothing failure, and the summary count.
  - The query's meaning is stated over an abstract table: filter by domain, sort ascending by a key, skip `offset`, take `limit`.
- **Configuration** (`Config`). This covers the global `Config`, `CheckConfig`, and the defaulting `initFromString` applies through pointers.
- **Log output paths** (`LogConfig`). This is the `outputConfig` choice of output and error-output path lists.

Supporting modules:

- `Wrappers`: Option, Result, and errors wrapped as `fmt.Errorf("ctx: %w")` does.
- `Logs`: a logger as its list of fields.
- `Http`: a response writer that records its headers and, in order, each status and body.
- `GoStrings`: the `strings` and `strconv` functions the code calls, each with its documented contract.

The database, the UUID generator, YAML decoding and `os.Stat` are collaborators. The model receives their outcomes as parameters:

- A `Queries.Connection` maps a statement to a cursor or a count row.
- `uuid` is a `Result`.
- `decoded` is a `Result`.
- `fileExists` and `dirStat` carry the two `os.Stat` outcomes.

`Routes.Serve` takes the route and the domain as already chosen by the router.

Where the code and its tests disagree, the model follows the code:

- The code's default DSN is `positions.db` (internal/pkg/config/config.go:25). The defaults test expects `data/positions.db`. `Config.EmptyDocumentDefaults` states `positions.db`.
- `summaryHandler` treats `GetSummary`'s result as a `*db.DomainSummary` (internal/pkg/http/v1/routes.go:51,61). `GetSummary` returns an `int` count (internal/pkg/db/queries.go:48). The model builds the response from the domain and that count.

## Model

| member | source | states |
|---|---|---|
| Validation.ValidateOrderByField | internal/pkg/http/v1/validation.go:5-21 | no error exactly for the eight keys "", volume, results, updated, cpc, url, position, keyword (set membership); otherwise the message `positions can't be ordered by '<input>' field` |
| Validation.RejectionQuotesInput | internal/pkg/http/v1/validation.go:17-19 | the rejected input can be read back verbatim from between the fixed prefix and suffix of the message |
| Validation.RejectionIsInjective | internal/pkg/http/v1/validation.go:17-19 | two different rejected inputs never give the same error |
| Validation.ExactMatching | internal/pkg/http/v1/validation.go:6-17 | "" and `volume` pass; `Volume`, ` volume`, `volume ` and `domain` are rejected (no case folding, no trimming) |
| Validation.RejectionExamples | internal/pkg/http/api_test.go:143-153 | the messages for `bogus` and `wwwwat` are exactly the documented texts |
| Validation.WhitelistSize | internal/pkg/http/v1/validation.go:5-14 | the whitelist holds exactly eight keys |
| GoStrings.LastIndex | internal/pkg/http/v1/middlewares.go:173 | -1 exactly when the character is absent; otherwise an index holding it with no occurrence after it |
| GoStrings.Index | internal/pkg/http/v1/middlewares.go:160 | -1 exactly when the character is absent; otherwise an index holding it with no occurrence before it |
| GoStrings.Split | internal/pkg/http/v1/middlewares.go:160 | at least one piece, and no piece contains the separator |
| GoStrings.JoinSplit | internal/pkg/http/v1/middlewares.go:160 | joining the pieces with the separator gives back the input |
| GoStrings.TrimSpace | internal/pkg/http/v1/middlewares.go:162 | the result has no white space at either end and is the input with only white space cut from both ends |
| GoStrings.TrimSpacePadded | internal/pkg/http/v1/middlewares.go:162 | trimming a trimmed text with white-space margins gives exactly that text |
| GoStrings.WrapInt64 | internal/pkg/http/v1/routes.go:108 | the result is a 64-bit int congruent to the input modulo 2^64, and equal to it when it already fits |
| GoStrings.Atoi | internal/pkg/http/v1/routes.go:87 | a parsed value fits 64 bits, and the text it came from starts with a digit or a sign |
| GoStrings.AtoiAccepts | internal/pkg/http/v1/routes.go:87 | every accepted text is an optional sign, then leading zeros, then the decimal digits of the value's magnitude; a negative value comes only with `-`, and `-` never gives a positive value |
| GoStrings.AtoiOfPadded | internal/pkg/http/v1/routes.go:87 | conversely, every optional sign, run of leading zeros and digits of a magnitude parses to the signed value when it fits 64 bits, and fails when it does not |
| GoStrings.LeadingZerosValue | internal/pkg/http/v1/routes.go:87 | leading zeros do not change the value of a decimal |
| GoStrings.CanonicalDigits | internal/pkg/http/v1/routes.go:87 | a decimal without leading zeros is the reference formatting of its value |
| GoStrings.AtoiOfItoa | internal/pkg/http/v1/routes.go:87 | the reference formatting of any integer, negatives included, parses back to it exactly when it fits 64 bits, and is a range error otherwise |
| GoStrings.AtoiRejectsNonDecimals | internal/pkg/http/v1/routes.go:86-89 | empty text, a word, a leading space, a fraction, a bare sign and an underscore all fail to parse |
| Routes.QueryGet | internal/pkg/http/v1/routes.go:86-91 | the first value of the key, or "" when it is absent or has no values |
| Routes.PageNumberParsed | internal/pkg/http/v1/routes.go:85-89 | a page that parses is used unchanged, including 0 and negatives |
| Routes.PageNumberFallback | internal/pkg/http/v1/routes.go:85-89 | a missing, empty, non-numeric or out-of-range page is page 1 |
| Routes.PageOffsetExact | internal/pkg/http/v1/routes.go:103-108 | without overflow the offset is exactly 10*(page-1) |
| Routes.PageOffsetWraps | internal/pkg/http/v1/routes.go:108 | page 922337203685477582 wraps the offset around to -9223372036854775806 |
| Routes.NonPositivePageIsFirstPage | internal/pkg/http/v1/routes.go:87-108 | page 0, and negative pages down to 1 - MaxInt64/10 (-922337203685477579), give a non-positive offset, which selects the same rows as the first page |
| Routes.VeryNegativePageIsEmpty | internal/pkg/http/v1/routes.go:103-108 | page -922337203685477580 wraps the offset to 9223372036854775806, so its page is empty for any table |
| Routes.NewSummaryResponse | internal/pkg/http/v1/routes.go:65-70 | a `{domain, positions_count}` body with the summary's two values |
| Routes.NewPositionsResponse | internal/pkg/http/v1/routes.go:122-127 | a `{domain, positions}` body with the given domain and rows |
| Routes.ReplyStatus | internal/pkg/http/v1/middlewares.go:97 | the status the wrapped writer reports is the status the handler wrote first |
| Routes.PositionsHandler | internal/pkg/http/v1/routes.go:72-120 | writes exactly the events and headers of PositionsReply, and the GetPositions call it makes is PositionsCall |
| Routes.SummaryHandler | internal/pkg/http/v1/routes.go:40-63 | writes exactly the events and headers of SummaryReply |
| Routes.PositionsReplyCases | internal/pkg/http/v1/routes.go:72-120 | 500 without a logger; 400 exactly for an `orderBy` off the whitelist, with the validator's message; 200 exactly when the repository succeeds, with its rows; 500 otherwise; no other status |
| Routes.PositionsCallIsSafe | internal/pkg/http/v1/routes.go:91-108 | GetPositions is called exactly when a logger is present and `orderBy` is whitelisted, with that `orderBy`, limit 10 and the page's offset; the ORDER BY column is one of the seven named columns |
| Routes.CallMadeUnlessRejected | internal/pkg/http/v1/routes.go:91-97 | with a logger, the repository is called exactly when the reply is not a 400 |
| Routes.PageOverTable | internal/pkg/http/v1/routes.go:103-118 | over a table, page p answers 200 with at most 10 rows of the domain, ascending by the sort key, starting after the first 10*(p-1) |
| Routes.FirstPageWithoutParameters | internal/pkg/http/v1/routes.go:85-118 | with no query parameters and a domain of at most ten rows, the reply is 200 with all of its rows in the order of the arrangement |
| Routes.SummaryReplyCases | internal/pkg/http/v1/routes.go:40-63 | 500 exactly when there is no logger or the count fails; otherwise 200 with the domain and the count |
| Routes.UlmartArrangement | internal/pkg/db/repository_test.go:20-27 | the fixture's `ulmart.ru` rows (also those of internal/pkg/testutils/db.go, CPC aside) are its first three, in ascending volume |
| Routes.UlmartFirstPage | internal/pkg/http/api_test.go:94-110 | over the fixture rows, `ulmart.ru` with no parameters answers 200 for whatever volume-sorted arrangement the engine returns; that arrangement is forced to be the first three rows, so the volumes are 43, 55, 76 |
| Routes.BadOrderByIsRefused | internal/pkg/http/api_test.go:141-153 | `orderBy=wwwwat` makes no repository call and answers 400 with the documented error text |
| Routes.UnknownDomainSummary | internal/pkg/db/queries.go:48-67 | a domain with no rows answers 200 with a count of 0, not an error |
| Routes.Serve | internal/pkg/http/v1/routes.go:23-38 | without a request ID: a 500 and nothing else runs; otherwise the handler runs with the request ID and the logger in context, the reply follows the request-ID header, and the access entry carries the reply's status, its level, the request ID, the body and the client address |
| Routes.PipelineOutcomes | internal/pkg/http/v1/routes.go:24-29 | inside the chain the logger is always found and carries the request ID; a 500 means the repository failed and a 400 means the whitelist refused; 500 logs at error and 400 logs at warn |
| Routes.RequestIDHeaderSurvives | internal/pkg/http/v1/middlewares.go:45 | every reply after a successful SetRequestID keeps the `x-request-id` header with the generated ID |
| Middlewares.GetRequestID | internal/pkg/http/v1/middlewares.go:53-59 | the stored request ID, or "" when none is stored |
| Middlewares.GetContextLogger | internal/pkg/http/v1/middlewares.go:141-147 | an error (`no logger in request context`) exactly when no logger is stored; otherwise the stored logger |
| Middlewares.RequestIDRoundTrip | internal/pkg/http/v1/middlewares_test.go:10-25 | a request ID stored in the context is read back unchanged, and the logger is untouched |
| Middlewares.ContextLoggerRoundTrip | internal/pkg/http/v1/middlewares.go:127-147 | after SetContextLogger the logger is found and has one more field, the request ID |
| Middlewares.IpAddrFromRemoteAddr | internal/pkg/http/v1/middlewares.go:171-179 | the input unchanged when it has no `:`; otherwise its prefix before the last `:` |
| Middlewares.RemoteAddrWithPort | internal/pkg/http/v1/middlewares.go:171-179 | `host:port` with a colon-free port gives `host`, whatever colons the host holds |
| Middlewares.TrimEach | internal/pkg/http/v1/middlewares.go:161-163 | every element of the array is replaced by its trimmed text, in place |
| Middlewares.RequestGetRemoteAddress | internal/pkg/http/v1/middlewares.go:150-169 | with both headers empty, the peer address without its port; with X-Forwarded-For set, its first hop trimmed, whatever X-Real-IP holds; otherwise X-Real-IP |
| Middlewares.ForwardedForFirstHop | internal/pkg/http/v1/middlewares.go:158-166 | the first hop is the text before the first comma, with its white-space margin removed |
| Middlewares.ClientIPExample | internal/pkg/http/v1/middlewares.go:158-166 | ` 10.0.0.1 ,10.0.0.2` with an X-Real-IP set gives `10.0.0.1` |
| Middlewares.LevelForStatus | internal/pkg/http/v1/middlewares.go:113-120 | error exactly for status >= 500, warn exactly for 400-499, info exactly below 400 |
| Middlewares.LevelIsMonotone | internal/pkg/http/v1/middlewares.go:113-120 | a higher status is never logged at a lower level |
| Middlewares.SetRequestID | internal/pkg/http/v1/middlewares.go:33-50 | without a UUID: a 500 with an empty plain-text body and next is not called; otherwise the `x-request-id` header and the context hold the same ID, and nothing is written |
| Middlewares.ReadRequestInfo | internal/pkg/http/v1/middlewares.go:62-85 | the downstream body yields exactly the bytes read (a nil body becomes empty); the entry holds those bytes, the request ID, method, path, user agent, referer and the client address |
| Middlewares.CompletedEntry | internal/pkg/http/v1/middlewares.go:95-121 | the access entry records the status and the level LevelForStatus gives |
| Middlewares.SetContextLogger | internal/pkg/http/v1/middlewares.go:127-138 | the context gets the base logger with one added field, the request ID; the body is untouched |
| Http.HttpError | internal/pkg/http/v1/routes.go:44 | plain-text and nosniff headers, then the status, then the message and a newline |
| Queries.PositionsQueryTextInjective | internal/pkg/db/queries.go:15-27 | different columns give different query texts |
| Queries.EffectiveOrderBy | internal/pkg/db/queries.go:72-75 | an empty `orderBy` becomes a non-empty default; any other is kept |
| Queries.PositionsStatementShape | internal/pkg/db/queries.go:77-82 | the text is the template with `volume` or the given `orderBy` in the one ORDER BY slot; domain, limit and offset are bound arguments, in that order |
| Queries.ScanFailureSticks | internal/pkg/db/queries.go:92-104 | once a scan has failed, later rows do not change the outcome |
| Queries.ScanAllOutcome | internal/pkg/db/queries.go:90-106 | scanning succeeds exactly when every row scans, and then yields one Position per row in cursor order |
| Queries.ScanAllFirstError | internal/pkg/db/queries.go:94-104 | the first row that fails to scan decides the error, wrapped as `failed to scan position` |
| Queries.PositionRepo.GetPositions | internal/pkg/db/queries.go:71-115 | the result is PositionsResult: the wrapped query error, the first scan error, the wrapped cursor error, or every scanned row |
| Queries.PositionRepo.GetSummary | internal/pkg/db/queries.go:48-68 | an error exactly when the row or its scan fails, with -1; a row error is returned as is and a scan error wrapped; otherwise the count |
| Queries.NoRowsIsNotAnError | internal/pkg/db/queries.go:90-114 | a result set with no rows and no error gives an empty result, not an error |
| Queries.CursorErrorDiscardsRows | internal/pkg/db/queries.go:108-112 | a cursor error after rows that scanned still fails as a whole |
| Queries.FilterDomain | internal/pkg/db/queries.go:24 | no more rows than the table, each of them of the domain |
| Queries.FilterDomainMember | internal/pkg/db/queries.go:24 | a row is kept exactly when it is in the table and has the domain |
| Queries.FilterDomainOfPrefix | internal/pkg/db/queries.go:24 | when the domain's rows are exactly the table's first k, the filter yields those k rows in order |
| Queries.PrefixArrangement | internal/pkg/db/queries.go:23-24 | such a prefix whose neighbours ascend by the key is the domain's sorted arrangement |
| Queries.SortedUnique | internal/pkg/db/queries.go:23-24 | two ascending orderings of the same rows by a key with distinct values are the same sequence |
| Queries.Window | internal/pkg/db/queries.go:26 | at most `limit` rows, consecutive from position `offset` (a negative offset counts as 0); empty when the offset is past the end |
| Queries.WindowOfArrangement | internal/pkg/db/queries.go:23-26 | a window of a sorted arrangement is sorted and holds only rows of the domain |
| Queries.PositionsOverTable | internal/pkg/db/queries.go:15-27 | over a table, a healthy connection gives the domain's rows ascending by the key, `offset` skipped and at most `limit` taken; an offset at or past the row count gives an empty page, not an error |
| Queries.SummaryOverTable | internal/pkg/db/queries.go:48-67 | the summary is the domain's row count; a domain with no rows gives 0 and no error |
| Config.DefaultString | internal/pkg/config/config.go:112-116 | every string default is non-empty |
| Config.DefaultInt | internal/pkg/config/config.go:122-133 | every int default is positive |
| Config.DefaultedString | internal/pkg/config/config.go:147-151 | "" becomes the default; any other string is kept |
| Config.DefaultedInt | internal/pkg/config/config.go:141-145 | zero or a negative becomes the default; a positive value is kept |
| Config.AppConfig.SetDefaultStringValue | internal/pkg/config/config.go:147-151 | only the designated field changes, and it changes only when it was "" |
| Config.AppConfig.SetDefaultIntValue | internal/pkg/config/config.go:141-145 | only the designated field changes, and it changes only when it was not positive |
| Config.CheckConfig | internal/pkg/config/config.go:78-84 | an error (`global configuration is not initialized`) exactly when no configuration is installed |
| Config.ApplyDefaults | internal/pkg/config/config.go:111-136 | in any visiting order of the two default maps, the record becomes Defaulted of its old value |
| Config.InitFromString | internal/pkg/config/config.go:103-139 | a decoding error is returned and the global is left alone; otherwise a new record is installed and defaulted |
| Config.DefaultedIsComplete | internal/pkg/config/config.go:112-136 | after defaulting, all eight ports and timeouts are positive, and both addresses and the DSN are non-empty |
| Config.DefaultedChangesOnlyUnset | internal/pkg/config/config.go:112-151 | a string field changes exactly when it was "", an int field only when it was not positive, each to its default; Log and Sentry are untouched |
| Config.DefaultedIdempotent | internal/pkg/config/config.go:141-151 | defaulting twice is defaulting once |
| Config.EmptyDocumentDefaults | internal/pkg/config/config.go:15-25 | an empty document gives 127.0.0.1, ports 63100 and 63101, timeouts 60/120/240 and DSN `positions.db` |
| Config.ExplicitValuesKept | internal/pkg/config/config_test.go:9-68 | a document that sets every field keeps every value it sets |
| LogConfig.OutputConfig | internal/pkg/log/config.go:56-77 | fails with nil lists exactly when the file is set, missing, and its directory is missing; otherwise the error list starts with stderr, then the file if set; the output list is stdout if asked, then the file if set; `stdout` among the outputs exactly when asked for, or when the file is literally named so |

## Left out

- Panic recovery (chi's `Recoverer`) is not modelled. It is the outermost entry of `Routes.Chain` only.
- The `RequireDomainName` middleware and `GetDomainName` are not part of this model. Their code is not available. The handlers take the domain as a parameter, so an empty-domain rejection is not modelled.
- `JSON` is not part of this model. A JSON body is recorded as the value it would encode (`Http.Payload`), not as bytes.
- UUID generation is a parameter, as is its string form. The request ID's format is not constrained.
- Time is not modelled, so the access log's latency field is left out. Its `response_bytes_written` field is also left out, because JSON bytes are not modelled.
- The `Debug` log of the page number is not modelled, and neither are the `Error` logs inside the repository and the handlers. Only the access entry of RequestLogger is modelled, and only through its level and fields.
- Go strings are byte sequences; here they are sequences of characters. A header value, a query value or a rejected `orderBy` that is not valid UTF-8 cannot be represented. The modelled code only splits on ASCII characters and trims Unicode white space, so its behaviour on valid text is unaffected.
- Header-name canonicalisation by `Header().Set` and `Header.Get` is not modelled. Headers are an exact-key map.
- SQLite's sorting, CPC float ordering and the `date(updated, 'unixepoch')` conversion are not modelled:
  - the ordering is an abstract integer key with any order among ties;
  - CPC is an uninterpreted value;
  - the date is a column of the row.
- The count query's result, and whether the cursor's rows are the window of an arrangement, are hypotheses of the table lemmas (`Queries.Serves`). They are not derived from an SQL engine.
- YAML decoding is given as its outcome. The reading of the file in `InitFromFile` is left out as I/O.
- `filepath.Dir` is given as the parameter `logDir`, and the text of the `os.Stat` error as `dirStat`.
- Zap logger construction (`InitLogger`, `zapConfig`) is not modelled. A logger is its list of fields.
- Server start-up, shutdown, the Prometheus exporter and the CLI are left out as I/O and concurrency.
- A negative `limit` makes `make` panic. The repository model therefore requires `limit >= 0`, and the handler's constant 10 always meets it.
