/** The `Logger` configuration object (logger.go): its fields, the defaults
    `New` gives them, `Copy` and the setters; the early exit of `Fatal` and
    `PrintFatal` on a nil error; and the text the JSON, CSV and log-file
    exports write. Files, the database, alerts and process exit are effects
    this model reports rather than performs. */
module Logging {
  import opened Wrappers
  import opened Strings
  import Log

  // ---------------------------------------------------------------------
  // Display levels (caller.go:10-17, timestamp.go:17-24)

  type ShowCallerLevel = int

  const HideCaller: ShowCallerLevel := 0
  const ShowCallerFile: ShowCallerLevel := 1
  const ShowCallerLine: ShowCallerLevel := 2
  const ShowCallerFunction: ShowCallerLevel := 3

  type ShowTimestampLevel = int

  const HideTimestamp: ShowTimestampLevel := 0
  const ShowDate: ShowTimestampLevel := 1
  const ShowDateTime: ShowTimestampLevel := 2
  const ShowFullTimestamp: ShowTimestampLevel := 3

  const DefaultFatalTitle := "Fatal"
  const DefaultFatalMessage := "An error occurred, please check the logs for more information"

  /** The eight fields of a `Logger`, as one value. */
  datatype Settings = Settings(
    folderPath: string,
    showTags: bool,
    inline: bool,
    showCaller: ShowCallerLevel,
    showTimestamp: ShowTimestampLevel,
    tags: seq<string>,
    fatalTitle: string,
    fatalMessage: string)

  /** What a logging call hands to `newLog`: the level, the logger's tags and
      the message. */
  datatype Entry = Entry(level: Log.LogLevel, tags: seq<string>, message: string)

  class Logger {
    var folderPath: string
    var showTags: bool
    var inline: bool
    var showCaller: ShowCallerLevel
    var showTimestamp: ShowTimestampLevel
    var tags: seq<string>
    var fatalTitle: string
    var fatalMessage: string

    function Current(): Settings
      reads this
    {
      Settings(folderPath, showTags, inline, showCaller, showTimestamp, tags, fatalTitle, fatalMessage)
    }

    /** `New`: the folder (the executable's folder or the working directory,
        which the caller resolves) and the given tags, with every other field
        at its default. */
    constructor New(folder: string, tags: seq<string>)
      ensures Current() == Settings(folder, false, false, ShowCallerFile, ShowDateTime, tags, DefaultFatalTitle, DefaultFatalMessage)
    {
      folderPath := folder;
      showCaller := ShowCallerFile;
      showTimestamp := ShowDateTime;
      showTags := false;
      inline := false;
      fatalTitle := DefaultFatalTitle;
      fatalMessage := DefaultFatalMessage;
      this.tags := [];
      if |tags| > 0 {
        this.tags := tags;
      }
    }

    /** A new logger with every field equal to this one's. */
    method Copy() returns (l: Logger)
      ensures fresh(l) && l.Current() == Current()
    {
      l := new Logger.New(folderPath, []);
      l.showTags := showTags;
      l.inline := inline;
      l.showCaller := showCaller;
      l.showTimestamp := showTimestamp;
      l.tags := [] + tags;
      l.fatalTitle := fatalTitle;
      l.fatalMessage := fatalMessage;
    }

    method Folder(path: string)
      modifies this
      ensures Current() == old(Current()).(folderPath := path)
    {
      folderPath := path;
    }

    method Inline(inline: bool)
      modifies this
      ensures Current() == old(Current()).(inline := inline)
    {
      this.inline := inline;
    }

    method Caller(level: ShowCallerLevel)
      modifies this
      ensures Current() == old(Current()).(showCaller := level)
    {
      showCaller := level;
    }

    method Timestamp(level: ShowTimestampLevel)
      modifies this
      ensures Current() == old(Current()).(showTimestamp := level)
    {
      showTimestamp := level;
    }

    method ShowTags(show: bool)
      modifies this
      ensures Current() == old(Current()).(showTags := show)
    {
      showTags := show;
    }

    /** `Tags`: the new tags after the existing ones, in order. */
    method Tags(more: seq<string>)
      modifies this
      ensures Current() == old(Current()).(tags := old(tags) + more)
    {
      tags := tags + more;
    }

    /** `SetTags`: exactly the given tags. */
    method SetTags(tags: seq<string>)
      modifies this
      ensures Current() == old(Current()).(tags := tags)
    {
      this.tags := [] + tags;
    }

    method SetFatal(title: string, message: string)
      modifies this
      ensures Current() == old(Current()).(fatalTitle := title, fatalMessage := message)
    {
      fatalTitle := title;
      fatalMessage := message;
    }

    /** `Fatal`: nothing at all for a nil error. Otherwise the error text is
        logged at the fatal level with this logger's tags; `failure` is the
        error building or storing that log returns, which is handed back, and
        only when there is none is the alert shown (and the process ended). */
    method Fatal(e: Option<string>, failure: Option<string>) returns (err: Option<string>, entry: Option<Entry>, alert: Option<(string, string)>)
      ensures e.None? ==> err.None? && entry.None? && alert.None?
      ensures e.Some? ==> entry == Some(Entry(Log.Fatal, tags, e.value)) && err == failure
      ensures alert.Some? <==> e.Some? && failure.None?
      ensures alert.Some? ==> alert.value == (fatalTitle, fatalMessage)
    {
      if e.None? {
        return None, None, None;
      }
      entry := Some(Entry(Log.Fatal, tags, e.value));
      if failure.Some? {
        return failure, entry, None;
      }
      err, alert := None, Some((fatalTitle, fatalMessage));
    }

    /** `PrintFatal`: nothing for a nil error; otherwise the fatal entry is
        printed (and the process ended) unless building it fails. */
    method PrintFatal(e: Option<string>, failure: Option<string>) returns (err: Option<string>, printed: Option<Entry>)
      ensures e.None? ==> err.None? && printed.None?
      ensures e.Some? ==> err == failure
      ensures printed.Some? <==> e.Some? && failure.None?
      ensures printed.Some? ==> printed.value == Entry(Log.Fatal, tags, e.value)
    {
      if e.None? {
        return None, None;
      }
      if failure.Some? {
        return failure, None;
      }
      err, printed := None, Some(Entry(Log.Fatal, tags, e.value));
    }
  }

  // ---------------------------------------------------------------------
  // Splitting text joined on a one-character separator

  predicate Lacks(s: string, c: char)
  {
    forall k :: 0 <= k < |s| ==> s[k] != c
  }

  predicate AllLack(parts: seq<string>, c: char)
  {
    forall i :: 0 <= i < |parts| ==> Lacks(parts[i], c)
  }

  lemma IndexAfter(p: string, c: char, rest: string)
    requires Lacks(p, c)
    ensures Index(p + [c] + rest, [c]) == Some(|p|)
  {
    var s := p + [c] + rest;
    forall j | 0 <= j < |p| ensures !At(s, [c], j) {
      assert s[j] == p[j];
      assert s[j..j + 1] == [s[j]];
    }
    assert s[|p|..|p| + 1] == [c];
    IndexFromAt(s, [c], 0, |p|);
  }

  lemma SplitLacking(s: string, c: char)
    requires Lacks(s, c)
    ensures Split(s, [c]) == [s]
  {
    forall i ensures !At(s, [c], i) {
      if 0 <= i < |s| {
        assert s[i..i + 1] == [s[i]];
      }
    }
    ContainsIff(s, [c]);
  }

  /** Splitting a join on `c` gives back the parts, when no part holds `c`. */
  lemma {:induction false} SplitJoin(parts: seq<string>, c: char)
    requires |parts| > 0 && AllLack(parts, c)
    ensures Split(Join(parts, [c]), [c]) == parts
    decreases |parts|
  {
    if |parts| == 1 {
      SplitLacking(parts[0], c);
    } else {
      var rest := parts[1..];
      assert parts == [parts[0]] + rest;
      JoinCons(parts[0], rest, [c]);
      var s := Join(parts, [c]);
      IndexAfter(parts[0], c, Join(rest, [c]));
      SplitStep(s, [c], |parts[0]|);
      assert s[..|parts[0]|] == parts[0];
      assert s[|parts[0]| + 1..] == Join(rest, [c]);
      SplitJoin(rest, c);
    }
  }

  // ---------------------------------------------------------------------
  // The export writers (logger.go:359-496)

  /** `exportLogFile`'s text: the entries one after another, a newline
      between two of them and none at the end. */
  function LogFileBody(entries: seq<string>): string
  {
    Join(entries, "\n")
  }

  /** `exportJson`'s text: `[]` for no logs, otherwise an opening bracket
      line, the entries separated by a comma and a newline, and a closing
      bracket line. */
  function JsonBody(entries: seq<string>): string
  {
    if |entries| == 0 then "[]" else "[\n" + Join(entries, ",\n") + "\n]"
  }

  /** The entries of a JSON array as its lines show them: a comma after
      every entry but the last. */
  function Commas(entries: seq<string>): (r: seq<string>)
    ensures |r| == |entries|
  {
    seq(|entries|, i requires 0 <= i < |entries| => if i < |entries| - 1 then entries[i] + "," else entries[i])
  }

  /** One log record per line: reading the log file back line by line gives
      the entries, when each entry is one line. */
  lemma LogFileLines(entries: seq<string>)
    requires |entries| > 0 && AllLack(entries, '\n')
    ensures Split(LogFileBody(entries), "\n") == entries
  {
    SplitJoin(entries, '\n');
  }

  lemma {:induction false} CommaJoin(entries: seq<string>)
    requires |entries| > 0
    ensures Join(entries, ",\n") == Join(Commas(entries), "\n")
    decreases |entries|
  {
    if |entries| > 1 {
      var init := entries[..|entries| - 1];
      CommaJoin(init);
      var c := Commas(entries);
      assert c[..|c| - 1] == Commas(init)[..|init| - 1] + [init[|init| - 1] + ","];
      if |init| > 1 {
        assert Commas(init) == Commas(init)[..|init| - 1] + [init[|init| - 1]];
        assert Join(Commas(init), "\n") == Join(Commas(init)[..|init| - 1], "\n") + "\n" + init[|init| - 1];
      } else {
        assert Commas(init) == [init[0]];
        assert c[..|c| - 1] == [init[0] + ","];
      }
    }
  }

  lemma Bracketed(j: string)
    ensures "[\n" + j + "\n]" == "[" + "\n" + j + "\n" + "]"
  {
    assert "[\n" == "[" + "\n" && "\n]" == "\n" + "]";
  }

  /** The JSON text is its lines joined by newlines. */
  lemma JsonJoin(entries: seq<string>)
    requires |entries| > 0
    ensures JsonBody(entries) == Join(["["] + Commas(entries) + ["]"], "\n")
  {
    var c := Commas(entries);
    var j := Join(c, "\n");
    CommaJoin(entries);
    assert JsonBody(entries) == "[\n" + j + "\n]";
    var lines := ["["] + c + ["]"];
    assert lines[..|lines| - 1] == ["["] + c && lines[|lines| - 1] == "]";
    JoinCons("[", c, "\n");
    assert Join(["["] + c, "\n") == "[" + "\n" + j;
    assert Join(lines, "\n") == "[" + "\n" + j + "\n" + "]";
    Bracketed(j);
  }

  lemma JsonLinesLack(entries: seq<string>)
    requires AllLack(entries, '\n')
    ensures AllLack(["["] + Commas(entries) + ["]"], '\n')
  {
    var c := Commas(entries);
    var lines := ["["] + c + ["]"];
    forall i | 0 <= i < |lines| ensures Lacks(lines[i], '\n') {
      if 0 < i < |lines| - 1 {
        assert lines[i] == c[i - 1];
        assert Lacks(entries[i - 1], '\n');
      }
    }
  }

  /** The JSON file read line by line: `[`, the entries each followed by a
      comma except the last, then `]`, when each entry is one line. */
  lemma JsonLines(entries: seq<string>)
    requires |entries| > 0 && AllLack(entries, '\n')
    ensures Split(JsonBody(entries), "\n") == ["["] + Commas(entries) + ["]"]
  {
    JsonJoin(entries);
    JsonLinesLack(entries);
    SplitJoin(["["] + Commas(entries) + ["]"], '\n');
  }

  /** The loop of `exportLogFile`: a newline before every entry but the
      first. */
  method ExportLogFile(entries: seq<string>) returns (body: string)
    ensures body == LogFileBody(entries)
  {
    var file := new Builder();
    for i := 0 to |entries|
      invariant file.buf == Join(entries[..i], "\n")
    {
      if i > 0 {
        file.WriteString("\n");
      }
      file.WriteString(entries[i]);
      assert entries[..i + 1][..i] == entries[..i];
    }
    assert entries[..|entries|] == entries;
    body := file.String();
  }

  /** The writes of `exportJson`. */
  method ExportJson(entries: seq<string>) returns (body: string)
    ensures body == JsonBody(entries)
  {
    var file := new Builder();
    if |entries| == 0 {
      file.WriteString("[]");
      return file.String();
    }
    file.WriteString("[\n");
    for i := 0 to |entries|
      invariant file.buf == "[\n" + Join(entries[..i], ",\n")
    {
      if i > 0 {
        file.WriteString(",\n");
      }
      file.WriteString(entries[i]);
      assert entries[..i + 1][..i] == entries[..i];
    }
    file.WriteString("\n]");
    assert entries[..|entries|] == entries;
    body := file.String();
  }

  /** The tags cell reads back as the tags. */
  lemma TagsCell(tags: seq<string>)
    ensures |tags| > 0 && AllLack(tags, '|') ==> Split(Join(tags, "|"), "|") == tags
  {
    if |tags| > 0 && AllLack(tags, '|') {
      SplitJoin(tags, '|');
    }
  }

  /** The header row of the CSV export. */
  const CsvHeader: seq<string> := ["level", "tags", "timestamp", "caller_file", "caller_line", "caller_function", "message"]

  /** The CSV row of one record, column for column under the header. The
      level, the line and (when there are tags and none holds a `|`) the
      tags read back from their cells. */
  function CsvRow(l: Log.LogRecord): (row: seq<string>)
    ensures |row| == |CsvHeader|
    ensures Log.IsLevel(l.level) ==> Log.LevelOf(row[0]) == Some(l.level)
    ensures |l.tags| > 0 && AllLack(l.tags, '|') ==> Split(row[1], "|") == l.tags
    ensures row[2] == l.timestamp && row[3] == l.callerFile && row[5] == l.callerFunction && row[6] == l.message
    ensures ParseDecimal(row[4]) == Some(l.callerLine)
  {
    TagsCell(l.tags);
    [Log.LevelLabel(l.level), Join(l.tags, "|"), l.timestamp, l.callerFile, Decimal(l.callerLine), l.callerFunction, l.message]
  }

  /** The rows `exportCSV` hands to the CSV writer: the header, then one row
      per record in order. */
  function CsvRows(logs: seq<Log.LogRecord>): (rows: seq<seq<string>>)
    ensures |rows| == |logs| + 1 && rows[0] == CsvHeader
    ensures forall i :: 0 <= i < |logs| ==> rows[i + 1] == CsvRow(logs[i])
  {
    [CsvHeader] + seq(|logs|, i requires 0 <= i < |logs| => CsvRow(logs[i]))
  }

  /** The export formats; any value other than JSON and CSV writes a log
      file. */
  datatype ExportType = JSON | CSV | LOG

  /** What an export writes. */
  datatype ExportFile = JsonFile(body: string) | CsvFile(rows: seq<seq<string>>) | LogFile(body: string)

  /** `Export`: the query's error unchanged, or the file of the requested
      kind over the queried records. How one record is rendered as a JSON
      object or a text line is not part of this model and is given as
      `toJson` and `toText`. */
  method Export(exportType: ExportType, queried: Result<seq<Log.LogRecord>, string>,
                toJson: Log.LogRecord -> string, toText: Log.LogRecord -> string)
    returns (r: Result<ExportFile, string>)
    ensures queried.Failure? ==> r == Failure(queried.error)
    ensures queried.Success? ==> r.Success?
    ensures queried.Success? && exportType == JSON ==>
      r.value == JsonFile(JsonBody(seq(|queried.value|, i requires 0 <= i < |queried.value| => toJson(queried.value[i]))))
    ensures queried.Success? && exportType == CSV ==> r.value == CsvFile(CsvRows(queried.value))
    ensures queried.Success? && exportType == LOG ==>
      r.value == LogFile(LogFileBody(seq(|queried.value|, i requires 0 <= i < |queried.value| => toText(queried.value[i]))))
  {
    if queried.Failure? {
      return Failure(queried.error);
    }
    var logs := queried.value;
    match exportType
    case JSON =>
      var body := ExportJson(seq(|logs|, i requires 0 <= i < |logs| => toJson(logs[i])));
      r := Success(JsonFile(body));
    case CSV =>
      r := Success(CsvFile(CsvRows(logs)));
    case LOG =>
      var body := ExportLogFile(seq(|logs|, i requires 0 <= i < |logs| => toText(logs[i])));
      r := Success(LogFile(body));
  }
}
