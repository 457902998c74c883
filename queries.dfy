/**
 * The position repository: the two read queries against the `positions`
 * table. The database connection is abstract: it maps a statement (query
 * text plus bound arguments) to a result set, which the repository then
 * scans row by row.
 */
module Queries {
  import opened Wrappers
  import Logs

  // ---------------------------------------------------------------- data

  /** A float64 cost-per-click, kept uninterpreted (its bit pattern); no arithmetic is modelled. */
  datatype Cpc = Cpc(bits: int)

  /**
   * One row of the `positions` table. `updatedDate` is what the SQL
   * expression `date(updated, 'unixepoch')` yields for the row.
   */
  datatype Row = Row(keyword: string, position: int, domain: string, url: string,
                     volume: int, results: int, cpc: Cpc, updatedDate: string)

  /** `Position`: one scanned row of the positions query. */
  datatype Position = Position(url: string, position: int, keyword: string,
                               volume: int, results: int, cpc: Cpc, updated: string)

  /** `DomainSummary`: a domain and its number of positions. */
  datatype DomainSummary = DomainSummary(domain: string, positionsCount: int)

  /** The columns the positions query selects, scanned into a Position. */
  function Project(r: Row): Position
  {
    Position(r.url, r.position, r.keyword, r.volume, r.results, r.cpc, r.updatedDate)
  }

  // ---------------------------------------------------------------- statements

  /** A value bound to a `$n` placeholder; it is never part of the query text. */
  datatype Arg = TextArg(text: string) | IntArg(n: int)

  datatype Statement = Statement(query: string, args: seq<Arg>)

  const GetSummaryQuery: string := "SELECT COUNT(1) FROM positions WHERE domain = $1"

  /** `getPositionsQuery` up to its single `%s` verb ... */
  const PositionsQueryHead: string :=
    "SELECT\n\t\t\t\tkeyword,\n\t\t\t\tposition,\n\t\t\t\turl,\n\t\t\t\tvolume,\n\t\t\t\tresults,\n\t\t\t\tcpc,\n"
    + "\t\t\t\tdate(updated, 'unixepoch')\n\t\tFROM positions\n\t\tWHERE domain = $1\n\t\tORDER BY "

  /** ... and after it. */
  const PositionsQueryTail: string := " ASC\n\t\tLIMIT $2 OFFSET $3\n"

  /** The column used when the caller passes an empty `orderBy`. */
  const DefaultOrderBy: string := "volume"

  /** `fmt.Sprintf(getPositionsQuery, orderBy)`. */
  function PositionsQueryText(orderBy: string): string
  {
    PositionsQueryHead + orderBy + PositionsQueryTail
  }

  /** Different sort columns give different query texts: the column is the only variable part. */
  lemma PositionsQueryTextInjective(a: string, b: string)
    requires PositionsQueryText(a) == PositionsQueryText(b)
    ensures a == b
  {
    var ta, tb := PositionsQueryText(a), PositionsQueryText(b);
    assert ta[..|ta| - |PositionsQueryTail|] == PositionsQueryHead + a;
    assert tb[..|tb| - |PositionsQueryTail|] == PositionsQueryHead + b;
    assert a == (PositionsQueryHead + a)[|PositionsQueryHead|..];
    assert b == (PositionsQueryHead + b)[|PositionsQueryHead|..];
  }

  function SummaryStatement(domain: string): Statement
  {
    Statement(GetSummaryQuery, [TextArg(domain)])
  }

  /** The positions statement for an already defaulted sort column. */
  function PositionsStatement(domain: string, column: string, limit: int, offset: int): Statement
  {
    Statement(PositionsQueryText(column), [TextArg(domain), IntArg(limit), IntArg(offset)])
  }

  /** `orderBy` after GetPositions has defaulted it. */
  function EffectiveOrderBy(orderBy: string): (column: string)
    ensures column != ""
    ensures orderBy != "" ==> column == orderBy
  {
    if orderBy == "" then DefaultOrderBy else orderBy
  }

  // ---------------------------------------------------------------- the connection

  /** One row a result set yields: the table row and whether `rows.Scan` of it fails. */
  datatype Fetch = Fetch(row: Row, scanErr: Option<Error>)

  /** A result set: the rows `rows.Next()` yields in order, then what `rows.Err()` reports. */
  datatype Cursor = Cursor(fetches: seq<Fetch>, err: Option<Error>)

  /** The single row of a `QueryRowx`: its deferred query error, and what scanning the count gives. */
  datatype CountRow = CountRow(err: Option<Error>, scan: Result<int, Error>)

  /** An abstract `*sqlx.DB`: what each statement yields. */
  datatype Connection = Connection(query: Statement -> Result<Cursor, Error>,
                                   queryRow: Statement -> CountRow)

  // ---------------------------------------------------------------- the row loop

  /**
   * What the `for rows.Next()` loop makes of the rows: one Position per row,
   * in order, or the first scan error (wrapped) and no positions at all.
   */
  function ScanAll(fs: seq<Fetch>): Result<seq<Position>, Error>
    decreases |fs|
  {
    if |fs| == 0 then Success([])
    else
      match ScanAll(fs[..|fs| - 1])
      case Failure(e) => Failure(e)
      case Success(ps) =>
        var f := fs[|fs| - 1];
        if f.scanErr.Some? then Failure(Wrap("failed to scan position", f.scanErr.value))
        else Success(ps + [Project(f.row)])
  }

  /** Once a prefix of the rows fails to scan, the whole loop fails with that error. */
  lemma {:induction false} ScanFailureSticks(fs: seq<Fetch>, j: nat)
    requires j <= |fs| && ScanAll(fs[..j]).Failure?
    ensures ScanAll(fs) == ScanAll(fs[..j])
    decreases |fs|
  {
    if j == |fs| {
      assert fs[..j] == fs;
    } else {
      var init := fs[..|fs| - 1];
      assert init[..j] == fs[..j];
      ScanFailureSticks(init, j);
    }
  }

  /** All or nothing: the loop succeeds iff every row scans, and then yields exactly the rows' positions. */
  lemma {:induction false} ScanAllOutcome(fs: seq<Fetch>)
    ensures ScanAll(fs).Success? <==> forall k :: 0 <= k < |fs| ==> fs[k].scanErr.None?
    ensures ScanAll(fs).Success? ==>
      |ScanAll(fs).value| == |fs| && forall k :: 0 <= k < |fs| ==> ScanAll(fs).value[k] == Project(fs[k].row)
    decreases |fs|
  {
    if |fs| > 0 {
      var init := fs[..|fs| - 1];
      ScanAllOutcome(init);
      assert forall k :: 0 <= k < |init| ==> init[k] == fs[k];
    }
  }

  /** The error reported is that of the first row that fails to scan. */
  lemma {:induction false} ScanAllFirstError(fs: seq<Fetch>, k: nat)
    requires k < |fs| && fs[k].scanErr.Some?
    requires forall j :: 0 <= j < k ==> fs[j].scanErr.None?
    ensures ScanAll(fs) == Failure(Wrap("failed to scan position", fs[k].scanErr.value))
  {
    var pre := fs[..k];
    ScanAllOutcome(pre);
    assert fs[..k + 1][..k] == pre;
    ScanFailureSticks(fs, k + 1);
  }

  /**
   * What GetPositions returns for an `orderBy`: a query error, a scan error
   * or a cursor error, each wrapped, or every scanned row.
   */
  function PositionsResult(conn: Connection, domain: string, orderBy: string, limit: int, offset: int)
    : Result<seq<Position>, Error>
  {
    match conn.query(PositionsStatement(domain, EffectiveOrderBy(orderBy), limit, offset))
    case Failure(e) => Failure(Wrap("failed to execute query", e))
    case Success(c) =>
      match ScanAll(c.fetches)
      case Failure(e) => Failure(e)
      case Success(ps) =>
        if c.err.Some? then Failure(Wrap("failed to execute query", c.err.value)) else Success(ps)
  }

  // ---------------------------------------------------------------- the repository

  /** `PositionRepo`, as built by `NewPositionRepo(log, conn)`. */
  datatype PositionRepo = PositionRepo(log: Logs.Logger, conn: Connection) {

    /**
     * `GetPositions`: defaults an empty `orderBy` to `volume`, runs the
     * positions statement and collects every row, failing as a whole on the
     * first query, scan or cursor error. `make([]*Position, 0, limit)` panics
     * for a negative limit, hence the precondition.
     */
    method GetPositions(domain: string, orderBy: string, limit: int, offset: int)
      returns (r: Result<seq<Position>, Error>)
      requires limit >= 0
      ensures r == PositionsResult(conn, domain, orderBy, limit, offset)
    {
      var column := orderBy;
      if column == "" {
        column := DefaultOrderBy;
      }
      var q := conn.query(PositionsStatement(domain, column, limit, offset));
      if q.Failure? {
        return Failure(Wrap("failed to execute query", q.error));
      }
      var rows := q.value;
      var positions: seq<Position> := [];
      var i := 0;
      while i < |rows.fetches|
        invariant 0 <= i <= |rows.fetches|
        invariant ScanAll(rows.fetches[..i]) == Success(positions)
      {
        var f := rows.fetches[i];
        assert rows.fetches[..i + 1][..i] == rows.fetches[..i];
        if f.scanErr.Some? {
          ScanFailureSticks(rows.fetches, i + 1);
          return Failure(Wrap("failed to scan position", f.scanErr.value));
        }
        positions := positions + [Project(f.row)];
        i := i + 1;
      }
      assert rows.fetches[..i] == rows.fetches;
      if rows.err.Some? {
        return Failure(Wrap("failed to execute query", rows.err.value));
      }
      return Success(positions);
    }

    /**
     * `GetSummary`: the scanned count and no error, or -1 with the row's
     * error (unwrapped) or the wrapped scan error.
     */
    function GetSummary(domain: string): (r: (int, Option<Error>))
      ensures var row := conn.queryRow(SummaryStatement(domain));
        && (r.1.Some? <==> row.err.Some? || row.scan.Failure?)
        && (r.1.Some? ==> r.0 == -1)
        && (row.err.Some? ==> r.1 == row.err)
        && (row.err.None? && row.scan.Failure? ==>
              r.1 == Some(Wrap("failed to scan positions count", row.scan.error)))
        && (r.1.None? ==> r.0 == row.scan.value)
    {
      var row := conn.queryRow(SummaryStatement(domain));
      if row.err.Some? then (-1, row.err)
      else match row.scan
        case Failure(e) => (-1, Some(Wrap("failed to scan positions count", e)))
        case Success(n) => (n, None)
    }
  }

  /** A result set with no rows and no error gives an empty (not failed) result. */
  lemma NoRowsIsNotAnError(conn: Connection, domain: string, orderBy: string, limit: int, offset: int)
    requires conn.query(PositionsStatement(domain, EffectiveOrderBy(orderBy), limit, offset))
             == Success(Cursor([], None))
    ensures PositionsResult(conn, domain, orderBy, limit, offset) == Success([])
  {
  }

  /** Any failure yields no positions, and a cursor error after good rows still discards them. */
  lemma CursorErrorDiscardsRows(conn: Connection, domain: string, orderBy: string, limit: int,
                                offset: int, fs: seq<Fetch>, e: Error)
    requires forall k :: 0 <= k < |fs| ==> fs[k].scanErr.None?
    requires conn.query(PositionsStatement(domain, EffectiveOrderBy(orderBy), limit, offset))
             == Success(Cursor(fs, Some(e)))
    ensures PositionsResult(conn, domain, orderBy, limit, offset) == Failure(Wrap("failed to execute query", e))
  {
    ScanAllOutcome(fs);
  }

  /** The empty `orderBy` is replaced by `volume`; any other is used unchanged, in the one `%s` slot. */
  lemma PositionsStatementShape(domain: string, orderBy: string, limit: int, offset: int)
    ensures var st := PositionsStatement(domain, EffectiveOrderBy(orderBy), limit, offset);
      && st.query == PositionsQueryHead + (if orderBy == "" then "volume" else orderBy) + PositionsQueryTail
      && st.args == [TextArg(domain), IntArg(limit), IntArg(offset)]
  {
  }

  // ---------------------------------------------------------------- meaning over a table

  /** The rows of `table` whose domain is `domain`, in table order. */
  function FilterDomain(table: seq<Row>, domain: string): (r: seq<Row>)
    ensures |r| <= |table|
    ensures forall k :: 0 <= k < |r| ==> r[k].domain == domain
  {
    if |table| == 0 then []
    else
      var last := table[|table| - 1];
      var init := table[..|table| - 1];
      FilterDomain(init, domain) + (if last.domain == domain then [last] else [])
  }

  /** Filtering keeps exactly the table's rows of the domain. */
  lemma {:induction false} FilterDomainMember(table: seq<Row>, domain: string, x: Row)
    ensures x in FilterDomain(table, domain) <==> x in table && x.domain == domain
    decreases |table|
  {
    if |table| > 0 {
      var last := table[|table| - 1];
      var init := table[..|table| - 1];
      FilterDomainMember(init, domain, x);
      assert table == init + [last];
      assert x in table <==> x in init || x == last;
    }
  }

  /** When the domain's rows are exactly the first `k`, filtering keeps just those. */
  lemma {:induction false} FilterDomainOfPrefix(table: seq<Row>, domain: string, k: nat)
    requires k <= |table|
    requires forall i :: 0 <= i < k ==> table[i].domain == domain
    requires forall i :: k <= i < |table| ==> table[i].domain != domain
    ensures FilterDomain(table, domain) == table[..k]
  {
    if |table| > 0 {
      var last := table[|table| - 1];
      var init := table[..|table| - 1];
      assert forall i :: 0 <= i < |init| ==> init[i] == table[i];
      var rest := FilterDomain(init, domain);
      assert FilterDomain(table, domain) == rest + (if last.domain == domain then [last] else []);
      if k == |table| {
        FilterDomainOfPrefix(init, domain, k - 1);
        assert rest == table[..k - 1];
        assert table[..k] == table[..k - 1] + [last];
      } else {
        FilterDomainOfPrefix(init, domain, k);
        assert rest == table[..k];
      }
    }
  }

  /** A prefix holding exactly the domain's rows, in ascending key order, is their arrangement. */
  lemma PrefixArrangement(table: seq<Row>, domain: string, k: nat, key: Row -> int)
    requires k <= |table|
    requires forall i :: 0 <= i < k ==> table[i].domain == domain
    requires forall i :: k <= i < |table| ==> table[i].domain != domain
    requires forall i :: 0 < i < k ==> key(table[i - 1]) <= key(table[i])
    ensures FilterDomain(table, domain) == table[..k]
    ensures IsArrangement(table[..k], table, domain, key)
  {
    FilterDomainOfPrefix(table, domain, k);
    SortedByAdjacent(table[..k], key);
  }

  /** Ascending order of an abstract sort key. */
  ghost predicate SortedBy(s: seq<Row>, key: Row -> int)
  {
    forall i, j :: 0 <= i < j < |s| ==> key(s[i]) <= key(s[j])
  }

  /** Ascending neighbours make an ascending sequence. */
  lemma {:induction false} SortedByAdjacent(s: seq<Row>, key: Row -> int)
    requires forall i :: 0 < i < |s| ==> key(s[i - 1]) <= key(s[i])
    ensures SortedBy(s, key)
    decreases |s|
  {
    if |s| > 1 {
      var init := s[..|s| - 1];
      assert forall i :: 0 <= i < |init| ==> init[i] == s[i];
      SortedByAdjacent(init, key);
      forall i | 0 <= i < |s| - 1 ensures key(s[i]) <= key(s[|s| - 1]) {
        assert key(init[i]) <= key(init[|init| - 1]) || i == |init| - 1;
      }
    }
  }

  /** No two rows of `s` share a key value. */
  ghost predicate DistinctKeys(s: seq<Row>, key: Row -> int)
  {
    forall i, j :: 0 <= i < j < |s| ==> key(s[i]) != key(s[j])
  }

  /** Dropping the first row keeps a sequence ascending and its keys distinct. */
  lemma SortedTail(s: seq<Row>, key: Row -> int)
    requires |s| > 0 && SortedBy(s, key) && DistinctKeys(s, key)
    ensures SortedBy(s[1..], key) && DistinctKeys(s[1..], key)
  {
    var t := s[1..];
    forall p, q | 0 <= p < q < |t| ensures key(t[p]) <= key(t[q]) && key(t[p]) != key(t[q]) {
      assert t[p] == s[p + 1] && t[q] == s[q + 1];
    }
  }

  /** Dropping the first row of an ascending sequence keeps it ascending. */
  lemma SortedTailOnly(s: seq<Row>, key: Row -> int)
    requires |s| > 0 && SortedBy(s, key)
    ensures SortedBy(s[1..], key)
  {
    var t := s[1..];
    forall p, q | 0 <= p < q < |t| ensures key(t[p]) <= key(t[q]) {
      assert t[p] == s[p + 1] && t[q] == s[q + 1];
    }
  }

  /** Ascending with distinct keys is strictly ascending. */
  lemma StrictlyAscending(s: seq<Row>, key: Row -> int)
    requires SortedBy(s, key) && DistinctKeys(s, key)
    ensures forall p, q :: 0 <= p < q < |s| ==> key(s[p]) < key(s[q])
  {
  }

  /** In an ascending sequence with distinct keys, the first row is the only one with the least key. */
  lemma FirstIsLeast(a: seq<Row>, b: seq<Row>, key: Row -> int)
    requires |a| > 0 && |b| > 0 && multiset(a) == multiset(b)
    requires SortedBy(a, key) && SortedBy(b, key) && DistinctKeys(a, key)
    ensures a[0] == b[0]
  {
    assert a[0] in multiset(b);
    var j :| 0 <= j < |b| && b[j] == a[0];
    assert key(b[0]) <= key(a[0]) by {
      if j > 0 {
        assert key(b[0]) <= key(b[j]);
      }
    }
    assert b[0] in multiset(a);
    var i :| 0 <= i < |a| && a[i] == b[0];
    StrictlyAscending(a, key);
  }

  /**
   * Sorting by a key whose values are distinct is deterministic: two ascending
   * orderings of the same rows are the same sequence.
   */
  lemma {:induction false} SortedUnique(a: seq<Row>, b: seq<Row>, key: Row -> int)
    requires multiset(a) == multiset(b)
    requires SortedBy(a, key) && SortedBy(b, key) && DistinctKeys(a, key)
    ensures a == b
    decreases |a|
  {
    assert |a| == |multiset(a)| == |multiset(b)| == |b|;
    if |a| > 0 {
      FirstIsLeast(a, b, key);
      assert a == [a[0]] + a[1..];
      assert b == [a[0]] + b[1..];
      assert multiset(a[1..]) == multiset(a) - multiset{a[0]};
      assert multiset(b[1..]) == multiset(b) - multiset{a[0]};
      SortedTail(a, key);
      SortedTailOnly(b, key);
      SortedUnique(a[1..], b[1..], key);
    }
  }

  /** `ordered` holds exactly the domain's rows, in ascending order of `key` (ties in any order). */
  ghost predicate IsArrangement(ordered: seq<Row>, table: seq<Row>, domain: string, key: Row -> int)
  {
    multiset(ordered) == multiset(FilterDomain(table, domain)) && SortedBy(ordered, key)
  }

  /**
   * `LIMIT limit OFFSET offset` applied to `s`, with SQLite's reading of a
   * negative offset as zero.
   */
  function Window(s: seq<Row>, limit: nat, offset: int): (w: seq<Row>)
    ensures |w| <= limit
    ensures var skip := if offset < 0 then 0 else offset;
      (skip >= |s| ==> w == [])
      && (skip < |s| ==> |w| == if |s| - skip < limit then |s| - skip else limit)
      && forall k :: 0 <= k < |w| ==> skip + k < |s| && w[k] == s[skip + k]
  {
    var skip := if offset < 0 then 0 else offset;
    if skip >= |s| then []
    else if |s| - skip <= limit then s[skip..]
    else s[skip..skip + limit]
  }

  function RowsOf(fs: seq<Fetch>): (rows: seq<Row>)
    ensures |rows| == |fs| && forall k :: 0 <= k < |fs| ==> rows[k] == fs[k].row
  {
    seq(|fs|, k requires 0 <= k < |fs| => fs[k].row)
  }

  /** The engine answers the positions statement with the window of `ordered`, and nothing fails. */
  ghost predicate Serves(conn: Connection, domain: string, column: string, limit: nat, offset: int,
                         ordered: seq<Row>)
  {
    var q := conn.query(PositionsStatement(domain, column, limit, offset));
    && q.Success?
    && q.value.err.None?
    && (forall k :: 0 <= k < |q.value.fetches| ==> q.value.fetches[k].scanErr.None?)
    && RowsOf(q.value.fetches) == Window(ordered, limit, offset)
  }

  /** A window of an ascending arrangement is ascending, and holds only rows of the domain. */
  lemma WindowOfArrangement(ordered: seq<Row>, table: seq<Row>, domain: string, key: Row -> int,
                            limit: nat, offset: int)
    requires IsArrangement(ordered, table, domain, key)
    ensures var w := Window(ordered, limit, offset);
      && SortedBy(w, key)
      && (forall k :: 0 <= k < |w| ==> w[k] in table && w[k].domain == domain)
      && |ordered| == |FilterDomain(table, domain)|
  {
    var w := Window(ordered, limit, offset);
    var skip := if offset < 0 then 0 else offset;
    forall k | 0 <= k < |w| ensures w[k] in table && w[k].domain == domain {
      var x := w[k];
      assert x == ordered[skip + k];
      assert x in multiset(FilterDomain(table, domain));
      FilterDomainMember(table, domain, x);
    }
    assert |multiset(ordered)| == |multiset(FilterDomain(table, domain))|;
  }

  /**
   * Over a table, a healthy connection makes GetPositions return the domain's
   * rows in ascending key order, `offset` skipped and at most `limit` taken;
   * an offset at or past the domain's row count gives an empty page, not an error.
   */
  lemma PositionsOverTable(conn: Connection, table: seq<Row>, domain: string, orderBy: string,
                           key: Row -> int, limit: nat, offset: int, ordered: seq<Row>)
    requires IsArrangement(ordered, table, domain, key)
    requires Serves(conn, domain, EffectiveOrderBy(orderBy), limit, offset, ordered)
    ensures var r := PositionsResult(conn, domain, orderBy, limit, offset);
      var w := Window(ordered, limit, offset);
      && r.Success?
      && |r.value| == |w| <= limit
      && (forall k :: 0 <= k < |w| ==> r.value[k] == Project(w[k]) && w[k] in table && w[k].domain == domain)
      && SortedBy(w, key)
      && (offset >= |FilterDomain(table, domain)| ==> r.value == [])
  {
    var c := conn.query(PositionsStatement(domain, EffectiveOrderBy(orderBy), limit, offset)).value;
    ScanAllOutcome(c.fetches);
    WindowOfArrangement(ordered, table, domain, key, limit, offset);
  }

  /** With a count row that scans to the domain's row count, GetSummary reports it; no rows is 0, not an error. */
  lemma SummaryOverTable(repo: PositionRepo, table: seq<Row>, domain: string)
    requires repo.conn.queryRow(SummaryStatement(domain)) == CountRow(None, Success(|FilterDomain(table, domain)|))
    ensures repo.GetSummary(domain) == (|FilterDomain(table, domain)|, None)
    ensures (forall x :: x in table ==> x.domain != domain) ==> repo.GetSummary(domain) == (0, None)
  {
    if forall x :: x in table ==> x.domain != domain {
      var f := FilterDomain(table, domain);
      if |f| > 0 {
        FilterDomainMember(table, domain, f[0]);
      }
    }
  }
}
