# Query composition in Tagliapietra96/logger, modelled in Dafny

The logger stores log records in SQLite and reads them back through *query
options*. A query option is a closure over one `strings.Builder` that holds the
SQL text. `queryLogs` seeds the builder with the fixed
`SELECT DISTINCT … FROM logs INNER JOIN …` text (`defaultQuery`), calls every
option in argument order and appends `;`. The options never see a structured
query. Each one re-reads the text it is given, splits it on the literal markers
`" WHERE "`, `" ORDER BY "` and `" LIMIT "`, rebuilds it and writes its own
fragment in the right place:

- `prepareFilter` adds a predicate, after `WHERE` or after `AND`;
- `prepareSort` adds a sort key, after `ORDER BY` or after `, `;
- `AddLimit` replaces the LIMIT clause.

The result is meant to be a statement in clause order, whatever the call order.

This project models that engine as it is written. It uses the current copy in
`queries/queries.go` and the older, textually identical copy in `types.go`. It
also models the option builders of both files, the operator and field
enumerations, the query half of `queryLogs`, and the `Logger` configuration
object with its export writers.

It proves three groups of properties.

**Clause order, as long as no operand contains a marker.** This holds when the
text an option writes contains none of `" WHERE "`, `" ORDER BY "` or
`" LIMIT "`.

- Running the options gives the statement of their predicates joined by
  `AND`, in call order.
- The sort keys are joined by `, `, in call order.
- The last limit wins.
- However filters, sorts and limits are interleaved, the statement is the same
  (`Composition.StatementByClause`, `Composition.InterleavingIrrelevant`).

**What happens otherwise.** The lemmas in `Hazards` show the cases the clause
order breaks:

- a message that contains a marker;
- a `CustomQuery` fragment followed by two filters.

**The rest of the core.**

- The operator, level and field labels read back to their values.
- Each option builder writes the predicate or sort key its name says.
- `queryLogs` returns every row the iteration delivers, or the first scan or tag-lookup error.
- The `Logger` setters change exactly their own fields.
- The JSON, CSV and log-file exports lay out their records as stated.

Modules:

- `Wrappers` — `Option`, `Result`.
- `Strings` — `strings.Contains`, `Split` and `Join`, `%d` formatting, and `strings.Builder` as a class.
- `Markers` — the theory of marker-free text.
- `Engine` — the `Config` datatype of option values, `Eval` as the specification of each closure, and the imperative closures `Run`, `RunFilter`, `RunSort` and `RunLimit`, proved against `Eval`.
- `Composition` — the clause model (`Spec`, `Render`) and the theorems that relate the engine to it.
- `Fragments` — the predicate and sort-key shapes, and timestamp/date text.
- `Queries` — queries/queries.go.
- `Types` — types.go.
- `Log` — log.go.
- `Handlers` — handlers.go.
- `Logging` — logger.go.
- `Hazards` — what the engine does with text it was not built for.

The doc comments of `AddFilters` and `AddSorts` (queries/queries.go:164-167 and
182-185) say that every option of the package adds its clause without
conflicting with the other options. The code re-parses the text it has built,
so this holds only for operands without a marker. A `CustomQuery` fragment,
documented as appended to the base query (queries/queries.go:26-38), survives
only until the second filter. The model follows the code, and both behaviours
are stated as lemmas in `Hazards`.

## Model

| member | source | states |
|---|---|---|
| Engine.DefaultQueryFree | queries/queries.go:11-16 | the default query contains none of the three markers and ends with a line break |
| Engine.FilterPrologue | queries/queries.go:49-98 | prepareFilter's split-and-rebuild leaves the head up to `WHERE`/`AND` in the buffer and returns the ORDER BY and LIMIT bodies it saved, as `FilterParts` of the old text |
| Engine.FilterEpilogue | queries/queries.go:102-110 | the saved ORDER BY body and then the LIMIT body are re-appended behind their markers, each only when it is non-empty |
| Engine.SortPrologue | queries/queries.go:115-147 | prepareSort keeps the text before ORDER BY, the old sort list and `, `, or adds `ORDER BY`, and returns the saved LIMIT body, as `SortParts` of the old text |
| Engine.RunFilter | queries/queries.go:48-112 | the prepareFilter closure leaves exactly `Eval(Filter(inner), old text)` in the buffer |
| Engine.RunSort | queries/queries.go:114-156 | the prepareSort closure leaves exactly `Eval(Sort(inner), old text)` in the buffer |
| Engine.RunLimit | queries/queries.go:208-235 | AddLimit does nothing for no arguments; otherwise it cuts at the first LIMIT, writes `LIMIT n`, and writes `OFFSET m` only for a second argument |
| Engine.RunAnyTag | queries/queries.go:247-254 | the HasTags loop writes one `tags.name LIKE '%t%'` per element of `tags + [tag]` and writes `OR` after element i only while `i < len(tags)-1` |
| Engine.Run | handlers.go:184-186 | calling one option on the builder leaves `Eval(option, old text)`; this dispatches every kind of option |
| Engine.LimitBodyReadsBack | queries/queries.go:227-233 | the LIMIT body reads back: a lone limit parses to its value, and with an offset the body splits on `OFFSET` into exactly the limit and the offset, each parsing to its value |
| Composition.FilterAppends | queries/queries.go:56-110 | a filter on a well-formed statement adds its predicate after WHERE or after AND; the earlier predicates, the ORDER BY clause and the LIMIT clause stay, in that order |
| Composition.SortAppends | queries/queries.go:122-155 | a sort adds its key after ORDER BY or after `, `; the LIMIT clause stays behind the sort list |
| Composition.LimitReplaces | queries/queries.go:208-235 | AddLimit with no arguments leaves the statement unchanged; otherwise the new limit replaces any old one (last write wins) |
| Composition.FilterText | queries/queries.go:56-110 | a filter on `default + WHERE p + ORDER BY o + LIMIT c` with marker-free bodies puts its predicate at the end of the WHERE body and keeps `o` and `c` |
| Composition.SortText | queries/queries.go:122-155 | a sort on such a statement puts its key at the end of the ORDER BY body and keeps the WHERE and LIMIT clauses |
| Composition.StepRenders | queries/queries.go:48-235 | one option applied to a rendered clause list renders the clause list with that option's predicate, sort key or limit added |
| Composition.ApplyAllRenders | handlers.go:184-186 | a sequence of options applied to a rendered clause list renders the folded clause list, and the list stays well formed |
| Composition.FoldProjects | handlers.go:184-186 | the folded clause list is the old predicates plus each option's predicate in order, the old sort keys plus each option's key in order, and the last limit given |
| Composition.StatementByClause | handlers.go:182-186 | options applied to the default query give the statement of all their predicates joined by AND, all their sort keys joined by `, ` and their last limit |
| Composition.InterleavingIrrelevant | handlers.go:182-186 | two option lists with the same predicates, the same sort keys and the same last limit give the same statement, however filters, sorts and limits are interleaved |
| Composition.EmptyActsAsDefault | queries/queries.go:52-54 | a filter, a sort or a non-empty limit on an empty buffer acts as on the default query |
| Composition.RenderEmpty | handlers.go:182-183 | the empty clause list renders as the default query |
| Composition.RenderLimitBase | queries/queries.go:220-225 | cutting a rendered statement at its LIMIT gives the statement without its LIMIT clause |
| Composition.Bodies | queries/queries.go:102-110 | clause bodies are marker-free, and a clause body is empty exactly when the clause has no entries |
| Queries.GetOrder | queries/queries.go:18-24 | the result is always ASC or DESC, and it is DESC exactly when the upper-cased argument is DESC |
| Queries.GetOrderNormal | queries/queries.go:18-24 | GetOrder ignores case and is idempotent |
| Queries.CustomQuery | queries/queries.go:41-46 | the option appends a blank and the text to whatever the buffer holds; it is not a clause the model can place |
| Queries.AddLimit | queries/queries.go:208-235 | the option adds no predicate or sort; with no argument it keeps the limit, otherwise it sets the limit to `n [OFFSET m]` |
| Queries.NumberFilter | queries/queries.go:263-267 | a numeric filter is `column op n`; the number after the operator reads back as n |
| Queries.LikeFilter | queries/queries.go:324-328 | a substring filter is `column LIKE '%v%'` with v pasted verbatim (v reads back at its offset); it is a well-placed predicate when v holds no marker |
| Queries.QuotedFilter | queries/queries.go:462-466 | a timestamp or date comparison is `column op 'text'`, with the text at its offset |
| Queries.KeySort | queries/queries.go:592-596 | a sort option is `column DIR` with DIR = getOrder(order) |
| Queries.LevelEqual | queries/queries.go:263-267 | `logs.level = n` |
| Queries.LevelNotEqual | queries/queries.go:275-279 | `logs.level != n` |
| Queries.LevelGreaterThan | queries/queries.go:287-291 | `logs.level > n` |
| Queries.LevelLessThan | queries/queries.go:299-303 | `logs.level < n` |
| Queries.LevelBetween | queries/queries.go:311-315 | `logs.level BETWEEN a AND b` |
| Queries.CallerFileLike | queries/queries.go:324-328 | `logs.caller_file LIKE '%file%'`; well placed when file is marker-free |
| Queries.CallerFileNotLike | queries/queries.go:337-341 | `logs.caller_file NOT LIKE '%file%'` |
| Queries.CallerLineEqual | queries/queries.go:349-353 | `logs.caller_line = n` |
| Queries.CallerLineNotEqual | queries/queries.go:361-365 | `logs.caller_line != n` |
| Queries.CallerLineGreaterThan | queries/queries.go:373-377 | `logs.caller_line > n` |
| Queries.CallerLineLessThan | queries/queries.go:385-389 | `logs.caller_line < n` |
| Queries.CallerLineBetween | queries/queries.go:397-401 | `logs.caller_line BETWEEN a AND b` |
| Queries.CallerFunctionLike | queries/queries.go:410-414 | `logs.caller_function LIKE '%f%'` |
| Queries.CallerFunctionNotLike | queries/queries.go:423-427 | `logs.caller_function NOT LIKE '%f%'` |
| Queries.MessageLike | queries/queries.go:436-440 | `logs.message LIKE '%m%'`; well placed when m is marker-free |
| Queries.MessageNotLike | queries/queries.go:449-453 | `logs.message NOT LIKE '%m%'` |
| Queries.TimestampEqual | queries/queries.go:462-466 | `logs.time = 'YYYY-MM-DD hh:mm:ss'` |
| Queries.TimestampNotEqual | queries/queries.go:475-479 | `logs.time != '…'` |
| Queries.TimestampGreaterThan | queries/queries.go:488-492 | `logs.time > '…'` |
| Queries.TimestampLessThan | queries/queries.go:501-505 | `logs.time < '…'` |
| Queries.TimestampBetween | queries/queries.go:514-518 | `logs.time BETWEEN '…' AND '…'` |
| Queries.DateEqual | queries/queries.go:527-531 | `DATE(logs.time) = 'YYYY-MM-DD'` |
| Queries.DateNotEqual | queries/queries.go:540-544 | `DATE(logs.time) != '…'` |
| Queries.DateGreaterThan | queries/queries.go:553-557 | `DATE(logs.time) > '…'` |
| Queries.DateLessThan | queries/queries.go:566-570 | `DATE(logs.time) < '…'` |
| Queries.DateBetween | queries/queries.go:579-583 | `DATE(logs.time) BETWEEN '…' AND '…'` |
| Queries.TimestampReadsBack | queries/queries.go:464 | the formatted timestamp in the predicate parses back to the instant (four-digit years) |
| Queries.DateReadsBack | queries/queries.go:529 | the formatted date in the predicate parses back to year, month and day (four-digit years) |
| Queries.SortLevel | queries/queries.go:592-596 | sort key `logs.level DIR` |
| Queries.SortCallerFile | queries/queries.go:605-609 | sort key `logs.caller_file DIR` |
| Queries.SortCallerLine | queries/queries.go:618-622 | sort key `logs.caller_line DIR` |
| Queries.SortCallerFunction | queries/queries.go:631-635 | sort key `logs.caller_function DIR` |
| Queries.SortMessage | queries/queries.go:644-648 | sort key `logs.message DIR` |
| Queries.SortTimestamp | queries/queries.go:657-661 | sort key `logs.time DIR` |
| Queries.TagsWrittenJoin | queries/queries.go:248-253 | after i rounds the HasTags loop has written the first i alternatives joined by OR, plus one more OR while rounds remain below len(tags) |
| Queries.TagsAsWritten | queries/queries.go:246-255 | HasTags as written gives the alternatives of `tags` joined by OR, with the `tag` alternative glued on after them with no OR |
| Queries.HasTagsAsWritten | queries/queries.go:246-255 | the predicate HasTags writes as the code stands |
| Queries.HasTags | queries/queries.go:246-255 | the predicate the doc comment describes: every alternative of `tags + [tag]`, joined by OR |
| Queries.HasTagsMissingOr | queries/queries.go:250-252 | for one or more extra tags the written predicate lacks the ` OR ` before the last alternative (4 characters short); with none the two agree |
| Queries.OrJoinFree | queries/queries.go:248-253 | OR-joined tag alternatives over marker-free tags are marker-free and start and end with a non-blank |
| Queries.AddFiltersAsWritten | queries/queries.go:168-174 | the AddFilters closure leaves every buffer unchanged |
| Queries.AddSortsAsWritten | queries/queries.go:186-192 | the AddSorts closure leaves every buffer unchanged |
| Queries.AddFilters | queries/queries.go:158-174 | the intended AddFilters is each option wrapped by prepareFilter, in order |
| Queries.AddSorts | queries/queries.go:176-192 | the intended AddSorts is each option wrapped by prepareSort, in order |
| Queries.AddFiltersApplies | queries/queries.go:158-174 | the intended AddFilters adds its options' predicates in order and leaves the sort and limit clauses alone |
| Queries.AddSortsApplies | queries/queries.go:176-192 | the intended AddSorts adds its options' sort keys in order and leaves the WHERE and limit clauses alone |
| Queries.AddFiltersDropsFilters | queries/queries.go:168-174 | AddFilters of one option gives the bare default query as written and a WHERE clause as intended |
| Queries.FiltersProject | queries/queries.go:168-174 | the intended AddFilters contributes exactly its options' texts as predicates, no sort keys and no limit |
| Queries.SortsProject | queries/queries.go:186-192 | the intended AddSorts contributes exactly its options' texts as sort keys, no predicates and no limit |
| Types.NumericOp | types.go:23-44 | `=`, `!=`, `>`, `>=`, `<`, `<=` for the six operators, read back by NumericOperatorOf; `""` exactly for any other value |
| Types.StringOp | types.go:54-68 | `LIKE`, `NOT LIKE`, `=` for CONTAINS, NOT_CONTAINS, SAME, read back by StringOperatorOf; `""` exactly for any other value |
| Types.SortOp | types.go:77-89 | `ASC`, `DESC`, read back by SortOperatorOf; `""` exactly for any other value |
| Types.Op | types.go:8-10 | the op() of an operator of any of the three kinds is empty exactly when the value is unnamed |
| Types.Wrapped | types.go:263-265 | the operand gets `%` on both sides exactly for CONTAINS and NOT_CONTAINS, and is unchanged otherwise |
| Types.TextFilter | types.go:261-268 | a text filter is `label op 'operand'` with the operand wrapped per its operator and readable at its offset |
| Types.FilterByLevel | types.go:255-259 | `level = n`, with n reading back |
| Types.FilterByContext | types.go:261-268 | `tags op 'v'`, wrapped for CONTAINS/NOT_CONTAINS |
| Types.FilterByCallerFile | types.go:270-277 | `caller_file op 'v'`, wrapped for CONTAINS/NOT_CONTAINS |
| Types.FilterByCallerLine | types.go:279-283 | `caller_line op n`, with n reading back |
| Types.FilterByCallerFunction | types.go:285-292 | `caller_function op 'v'`, wrapped for CONTAINS/NOT_CONTAINS |
| Types.FilterByMessage | types.go:294-301 | `message op 'v'`, wrapped for CONTAINS/NOT_CONTAINS |
| Types.FilterByTimestamp | types.go:303-310 | `time op 'v'`; a numeric operator never wraps, not even EQUAL, which shares the value 0 with CONTAINS |
| Types.FieldSort | types.go:312-352 | a SortBy option is `label dir`; both the field and the direction read back from the key |
| Types.SortByLevel | types.go:312-316 | sort key `level dir` |
| Types.SortByContext | types.go:318-322 | sort key `tags dir` |
| Types.SortByCallerFile | types.go:324-328 | sort key `caller_file dir` |
| Types.SortByCallerLine | types.go:330-334 | sort key `caller_line dir` |
| Types.SortByCallerFunction | types.go:336-340 | sort key `caller_function dir` |
| Types.SortByMessage | types.go:342-346 | sort key `message dir` |
| Types.SortByTimestamp | types.go:348-352 | sort key `time dir` |
| Types.TextFilterReapplies | types.go:261-301 | the corrected option value applied twice adds the same predicate twice |
| Types.CapturedFilter.WriteFragment | types.go:295-299 | the inner closure as written reassigns its captured operand to its wrapped form and writes the comparison with it |
| Types.CapturedFilter.Apply | types.go:294-301 | one call of the option as written writes the predicate of the current operand and leaves the operand wrapped once more |
| Types.ReappliedOption | types.go:294-301 | applying the same FilterByMessage(v, CONTAINS) value on two fresh queries gives `'%v%'` the first time and `'%%v%%'` the second |
| Log.LevelLabel | log.go:33-51 | DEBUG, INFO, WARNING, ERROR, FATAL for the five levels (read back by LevelOf); `""` exactly for any other value |
| Log.LevelLabelInjective | log.go:33-51 | distinct valid levels have distinct labels |
| Log.FieldLabel | log.go:69-92 | level, tags, caller_file, caller_line, caller_function, message, time for the seven fields (read back by FieldOf); `""` exactly for any other value |
| Log.FieldLabelInjective | log.go:69-92 | distinct valid fields have distinct labels |
| Handlers.QueryStatement | handlers.go:182-187 | the statement is the default query with every option applied once, in argument order, and one `;`; with no options it is the default query and `;`; with well-placed options it is their clause statement |
| Handlers.ApplyAllSnoc | handlers.go:184-186 | applying one more option after a list is one more step of the loop |
| Handlers.CollectLogs | handlers.go:189-221 | a failed query gives its prefixed error; otherwise the rows are read as `Collected` describes |
| Handlers.CollectedAllOrError | handlers.go:195-221 | of the rows the iteration delivers, the call succeeds exactly when every row scans and finds its tags, and then gives one record per row, in order, carrying that row's columns and tags; otherwise it gives the error of the first failing row and no records |
| Logging.Logger.New | logger.go:70-98 | the defaults: no inline output, tags hidden, caller file shown, date and time shown, title `Fatal` and the default message, with the given tags |
| Logging.Logger.Copy | logger.go:101-112 | a fresh logger with the same eight settings |
| Logging.Logger.Folder | logger.go:116-118 | only the folder changes |
| Logging.Logger.Inline | logger.go:123-125 | only the inline flag changes |
| Logging.Logger.Caller | logger.go:134-136 | only the caller level changes |
| Logging.Logger.Timestamp | logger.go:145-147 | only the timestamp level changes |
| Logging.Logger.ShowTags | logger.go:151-153 | only the show-tags flag changes |
| Logging.Logger.Tags | logger.go:157-159 | the new tags are appended after the old ones, in order; nothing else changes |
| Logging.Logger.SetTags | logger.go:163-165 | the tags become exactly the given ones; nothing else changes |
| Logging.Logger.SetFatal | logger.go:169-172 | only the fatal title and message change |
| Logging.Logger.Fatal | logger.go:236-254 | a nil error does nothing and returns nil; otherwise the FATAL record with the logger's tags and the error text is handed to `newLog`; a failure to build or store it is returned, and only without one the alert with the configured title and message is raised |
| Logging.Logger.PrintFatal | logger.go:321-334 | a nil error does nothing and returns nil; otherwise a FATAL record is printed unless building it failed |
| Logging.ExportLogFile | logger.go:481-493 | the log-file body is the entries joined by line breaks, with no trailing line break |
| Logging.ExportJson | logger.go:403-435 | the JSON body is `[]` with no records, otherwise `[`, the entries separated by `,` and line breaks, and `]` |
| Logging.LogFileLines | logger.go:481-493 | splitting the log-file body on line breaks gives back the entries, when they hold none |
| Logging.JsonLines | logger.go:411-433 | the JSON body splits into the line `[`, one line per entry (all but the last ending in a comma) and the line `]` |
| Logging.SplitJoin | logger.go:458 | joining parts on a separator character they lack and splitting again gives the parts back |
| Logging.CsvRow | logger.go:456-464 | a CSV record has seven cells: the level label (reads back to the level), the tags joined by `|` (read back), the time, file, line (reads back), function and message |
| Logging.CsvRows | logger.go:450-468 | the CSV file is the header row and then one row per record, in order |
| Logging.Export | logger.go:359-372 | a query error is returned unchanged; otherwise JSON goes to the JSON writer, CSV to the CSV rows and LOG to the log-file writer |
| Hazards.FirstFilter | queries/queries.go:94-95 | a filter on the bare default query writes WHERE and its predicate |
| Hazards.LimitInsideOperand | queries/queries.go:220-225 | a LIKE filter whose text holds ` LIMIT `, followed by AddLimit: the statement is cut inside the quoted text and differs from the one the two options describe |
| Hazards.LimitStatement | queries/queries.go:220-228 | a filter whose predicate holds ` LIMIT `, followed by AddLimit(n), ends at that marker plus n, not at the end of the predicate |
| Hazards.WhereInsideOperand | queries/queries.go:56-58 | a LIKE filter whose text holds ` WHERE `, followed by a filter: only the piece before the second WHERE survives, and the statement differs from the intended one |
| Hazards.WhereStatement | queries/queries.go:57-58 | a filter whose predicate holds ` WHERE `, followed by a second filter, loses everything after that inner WHERE |
| Hazards.SecondWhere | queries/queries.go:57-76 | prepareFilter keeps only the text between the first and the second WHERE |
| Hazards.CustomTextDropped | queries/queries.go:73-74 | a CustomQuery fragment survives the first filter and is dropped by the second, which rebuilds from the default query: the statement equals the one without the CustomQuery |
| Hazards.FilterAfterWhere | queries/queries.go:73-76 | a filter after one WHERE predicate rebuilds from the default query, whatever came before the WHERE |
| Strings.Split | queries/queries.go:57 | `strings.Split`: at least one piece; two or more exactly when the separator occurs; the whole text when it does not |
| Strings.SplitThenJoin | queries/queries.go:57 | joining the pieces of a split on the separator gives the text back |
| Strings.Decimal | queries/queries.go:228 | `%d` formatting of an integer: digits with an optional sign, parsing back to the integer |
| Strings.Builder.WriteString | queries/queries.go:43-44 | `strings.Builder.WriteString` appends to the buffer |
| Fragments.DateRoundTrip | queries/queries.go:529 | `2006-01-02` formatting of a date with a four-digit year is ten characters and parses back |
| Fragments.StampRoundTrip | queries/queries.go:464 | `2006-01-02 15:04:05` formatting is nineteen characters and parses back |

## Left out

- Handlers.CollectLogs: `rows` stands for the rows the iteration delivered. The loop in `queryLogs` never calls `rows.Err()` (handlers.go:195-221), so an error during iteration ends the loop early and the records read so far come back with a nil error. The model does not represent that outcome.
- Queries.AddFilters: the correction wraps every argument in `prepareFilter`, which suits custom options that only write their predicate. An option of this package is already wrapped, and wrapping it again writes `WHERE  AND …`, so the corrected behaviour is proved for custom options only.
- Queries.AddSorts: the same holds for `prepareSort`; the corrected behaviour is proved for custom options that only write their sort key.
- Database I/O: connecting to and creating the SQLite file, the schema, inserting records (`createNewLog`) and the tag lookup (`getTagsForLog`). The query's outcome and each row's scan and tag lookup enter `Handlers.CollectLogs` as values.
- An error from `getDBConnection` in `queryLogs` is returned unchanged. It enters `Logging.Export` as part of the query's `Failure`, and is not a separate case.
- SQL semantics (LIKE matching, DISTINCT, the joins): the model covers the statement text, not the rows it selects.
- `strings.ToUpper` in `getOrder` is modelled for ASCII letters only. Unicode case mapping is outside the model.
- `time.Time` formatting: instants are fields plus their `Format` layouts. Time zones, and years outside 0-9999 in the read-back lemmas, are not modelled. timestamp.go (parsing with ignored errors) is not part of this model; `LogRecord.timestamp` is the text the row held.
- caller.go (stack introspection), utils.go (terminal rendering), `printLogs`, `beeep.Alert` and `os.Exit`. `Logging.Logger.Fatal` returns the alert it would raise instead of raising it, and the process exit is not modelled.
- `New`'s folder resolution (`os.Executable`, `os.Getwd`, the temp-directory check): the folder is a parameter of `Logging.Logger.New`.
- `newLog` (and through it `getCaller`): its failure is a parameter of `Fatal`/`PrintFatal`.
- The rendering of one record as JSON (`toJSON`) or as text (`String`) is passed to `Logging.Export` as a function.
- The export file's name (the current time), its creation and removal (`createExportFile`), and write errors.
- The CSV writer library's quoting and escaping: `Logging.CsvRows` gives the cells, not the encoded bytes.
- The `time` cell of a CSV row is the stored timestamp text rather than `timestamp.String()`.
- `ExportType`'s definition is not part of this model. It is modelled as the three named values. Go's `default` branch also catches any other integer; that branch writes the log file, as LOG does.
- Go slice aliasing: `New` stores the caller's `tags` slice itself, and `Tags` may write into an array it shares with that slice. Tags are values here.
- A nil `QueryOperator` passed to `FilterByTimestamp` panics in Go; the model has no nil operator.
- `Debug`, `Info`, `Warn`, `Error`, their `Print*` versions and `PrintLogs` format a message and store or print it. That is I/O around `newLog`, which is not part of this model.
- Numbers are unbounded: Go's `int` is 64 bits, and `%d` of a value outside that range cannot occur there.
- `LogLevel(level)` in `queryLogs` keeps whatever integer the row held, and so does the model.
- Strings are sequences of characters. Go strings are bytes, which makes no difference to the ASCII markers the engine searches for.

## Findings

| source | as written | input that shows it | evidently intended | confidence | as-written member | corrected member |
|---|---|---|---|---|---|---|
| queries/queries.go:248-252 | `HasTags` writes ` OR ` only while `i < len(tags)-1`, over `len(tags)+1` alternatives, so the last two alternatives are glued together | `HasTags("a", "b")` gives `tags.name LIKE '%b%'tags.name LIKE '%a%'` | every two alternatives separated by ` OR ` (the chain stays unparenthesised, so after another filter SQL still groups it as `(… AND a) OR b`) | not executed | Queries.HasTagsMissingOr | Queries.HasTags |
| queries/queries.go:168-192 | `AddFilters` and `AddSorts` build the wrapped option for each argument and never call it, so they leave the statement unchanged | `AddFilters(opt)`, where `opt` is a custom option that writes `logs.level = 1`, leaves the default query unchanged | each argument applied as a filter or sort, in order; the correction covers custom options only | not executed | Queries.AddFiltersDropsFilters | Queries.AddFiltersApplies |
| types.go:294-301 | the `FilterBy*` closures reassign their captured operand, so the same option value applied again wraps it in `%` once more | `FilterByMessage("x", CONTAINS)` used for two queries gives `'%x%'`, then `'%%x%%'` | the operand wrapped once on every application | not executed | Types.ReappliedOption | Types.TextFilterReapplies |
