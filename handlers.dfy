/** The query half of `queryLogs` (handlers.go:176-222): the statement is
    built by seeding a buffer with the default query, running the options in
    argument order and terminating it with `;`; the rows the database hands
    back are turned into records, all or nothing. The connection, the query
    itself and the tag lookup are database I/O and enter as their outcomes. */
module Handlers {
  import opened Wrappers
  import opened Strings
  import opened Engine
  import opened Composition
  import opened Log

  // ---------------------------------------------------------------------
  // The statement (handlers.go:181-187)

  lemma {:induction false} ApplyAllSnoc(cs: seq<Config>, c: Config, s: string)
    ensures ApplyAll(cs + [c], s) == Eval(c, ApplyAll(cs, s))
    decreases |cs|
  {
    if |cs| > 0 {
      assert (cs + [c])[1..] == cs[1..] + [c];
      ApplyAllSnoc(cs[1..], c, Eval(cs[0], s));
    }
  }

  /** The statement `queryLogs` sends: every option applied once, in order,
      to the default query, and one `;` after them. When every option is a
      filter, sort or limit with a marker-free operand, that is the
      SELECT … WHERE … ORDER BY … LIMIT … statement of their predicates,
      their sort keys and the last limit, in call order. */
  method QueryStatement(configs: seq<Config>) returns (query: string)
    ensures query == ApplyAll(configs, DefaultQuery) + ";"
    ensures |configs| == 0 ==> query == DefaultQuery + ";"
    ensures AllSimple(configs) ==>
      query == Render(Spec(Predicates(configs), SortKeys(configs), LastLimit(configs, ""))) + ";"
  {
    var sb := new Builder();
    sb.WriteString(DefaultQuery);
    for i := 0 to |configs|
      invariant sb.buf == ApplyAll(configs[..i], DefaultQuery)
    {
      ApplyAllSnoc(configs[..i], configs[i], DefaultQuery);
      assert configs[..i + 1] == configs[..i] + [configs[i]];
      Run(configs[i], sb);
    }
    sb.WriteString(";");
    assert configs[..|configs|] == configs;
    query := sb.String();
    if AllSimple(configs) {
      StatementByClause(configs);
    }
  }

  // ---------------------------------------------------------------------
  // The rows (handlers.go:189-221)

  /** One scanned row: the seven selected columns. */
  datatype Row = Row(
    id: int,
    level: int,
    callerFile: string,
    callerLine: int,
    callerFunction: string,
    message: string,
    time: string)

  /** What reading one row gives: the scan of its columns, then, when that
      succeeded, the lookup of its tags (each an error text on failure). */
  datatype RowRead = RowRead(scan: Result<Row, string>, tags: Result<seq<string>, string>)

  const QueryFailed := "[logger-pkg] failed to query the logs: "
  const ScanFailed := "[logger-pkg] failed to scan the logs: "
  const TagsFailed := "[logger-pkg] failed to get the tags for the logs: "

  /** The error reading a row ends the whole call with, if any: the scan is
      checked before the tags are looked up. */
  function ReadFailure(rr: RowRead): Option<string>
  {
    if rr.scan.Failure? then Some(ScanFailed + rr.scan.error)
    else if rr.tags.Failure? then Some(TagsFailed + rr.tags.error)
    else None
  }

  /** The record built from a row read without error: the scanned columns
      unchanged, the level as a `LogLevel`, and the looked-up tags. */
  function RecordOf(rr: RowRead): LogRecord
    requires ReadFailure(rr).None?
  {
    var row := rr.scan.value;
    LogRecord(row.level, rr.tags.value, row.callerFile, row.callerLine, row.callerFunction, row.message, row.time)
  }

  /** The outcome of reading `rows` in order: the first error, or every
      record. */
  function Collected(rows: seq<RowRead>): Result<seq<LogRecord>, string>
    decreases |rows|
  {
    if |rows| == 0 then Success([])
    else if ReadFailure(rows[0]).Some? then Failure(ReadFailure(rows[0]).value)
    else Prefixed([RecordOf(rows[0])], Collected(rows[1..]))
  }

  function Prefixed(logs: seq<LogRecord>, r: Result<seq<LogRecord>, string>): Result<seq<LogRecord>, string>
  {
    match r
    case Success(rest) => Success(logs + rest)
    case Failure(e) => Failure(e)
  }

  lemma PrefixedEmpty(r: Result<seq<LogRecord>, string>)
    ensures Prefixed([], r) == r
  {
    if r.Success? {
      assert [] + r.value == r.value;
    }
  }

  lemma PrefixedTwice(a: seq<LogRecord>, b: seq<LogRecord>, r: Result<seq<LogRecord>, string>)
    ensures Prefixed(a, Prefixed(b, r)) == Prefixed(a + b, r)
  {
    if r.Success? {
      assert a + (b + r.value) == a + b + r.value;
    }
  }

  /** All or nothing: the call succeeds exactly when every row reads without
      error, and then returns one record per row, in row order, carrying
      that row's columns and tags; otherwise it fails with the error of the
      first row that could not be read. */
  lemma {:induction false} CollectedAllOrError(rows: seq<RowRead>)
    ensures Collected(rows).Success? <==> forall i :: 0 <= i < |rows| ==> ReadFailure(rows[i]).None?
    ensures Collected(rows).Success? ==>
      |Collected(rows).value| == |rows| &&
      forall i :: 0 <= i < |rows| ==> Collected(rows).value[i] == RecordOf(rows[i])
    ensures Collected(rows).Failure? ==>
      exists k :: 0 <= k < |rows| && ReadFailure(rows[k]) == Some(Collected(rows).error) &&
        forall j :: 0 <= j < k ==> ReadFailure(rows[j]).None?
    decreases |rows|
  {
    if |rows| > 0 {
      CollectedAllOrError(rows[1..]);
      if ReadFailure(rows[0]).None? {
        var tail := Collected(rows[1..]);
        if tail.Success? {
          forall i | 0 <= i < |rows|
            ensures ReadFailure(rows[i]).None?
            ensures Collected(rows).value[i] == RecordOf(rows[i])
          {
            if i > 0 {
              assert rows[i] == rows[1..][i - 1];
            }
          }
        } else {
          var k :| 0 <= k < |rows[1..]| && ReadFailure(rows[1..][k]) == Some(tail.error) &&
            forall j :: 0 <= j < k ==> ReadFailure(rows[1..][j]).None?;
          assert ReadFailure(rows[k + 1]) == Some(Collected(rows).error);
          forall j | 0 <= j < k + 1 ensures ReadFailure(rows[j]).None? {
            if j > 0 {
              assert rows[j] == rows[1..][j - 1];
            }
          }
          assert !ReadFailure(rows[k + 1]).None?;
        }
      } else {
        assert ReadFailure(rows[0]) == Some(Collected(rows).error);
      }
    }
  }

  /** The result loop of `queryLogs`: a failed query, or the rows read one
      at a time, returning at the first error and appending a record
      otherwise. */
  method CollectLogs(queried: Option<string>, rows: seq<RowRead>) returns (r: Result<seq<LogRecord>, string>)
    ensures queried.Some? ==> r == Failure(QueryFailed + queried.value)
    ensures queried.None? ==> r == Collected(rows)
  {
    if queried.Some? {
      return Failure(QueryFailed + queried.value);
    }
    var logs: seq<LogRecord> := [];
    var i := 0;
    assert rows[0..] == rows;
    PrefixedEmpty(Collected(rows));
    while i < |rows|
      invariant 0 <= i <= |rows|
      invariant Collected(rows) == Prefixed(logs, Collected(rows[i..]))
    {
      var rr := rows[i];
      if rr.scan.Failure? {
        return Failure(ScanFailed + rr.scan.error);
      }
      if rr.tags.Failure? {
        return Failure(TagsFailed + rr.tags.error);
      }
      var row := rr.scan.value;
      assert rows[i..][0] == rr && rows[i..][1..] == rows[i + 1..];
      PrefixedTwice(logs, [RecordOf(rr)], Collected(rows[i + 1..]));
      logs := logs + [LogRecord(row.level, rr.tags.value, row.callerFile, row.callerLine, row.callerFunction, row.message, row.time)];
      i := i + 1;
    }
    assert rows[i..] == [];
    assert logs + [] == logs;
    return Success(logs);
  }
}
