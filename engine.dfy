/** The query composition engine shared by queries/queries.go:41-235 and its
    older copy in types.go:93-253: options that rewrite one SQL text buffer so
    that filters, sorts and a limit end up in clause order. */
module Engine {
  import opened Wrappers
  import opened Strings
  import opened Markers

  /** `defaultQuery` (queries/queries.go:11-16, handlers.go:52-57) as its
      words, each with the blank or line break that follows it. */
  const QueryWords: seq<string> := [
    "\nSELECT ", "DISTINCT ", "logs.id, ", "logs.level, ", "logs.caller_file, ",
    "logs.caller_line, ", "logs.caller_function, ", "logs.message, ", "logs.time\nFROM ",
    "logs\nINNER ", "JOIN ", "log_tags ", "ON ", "logs.id ", "= ", "log_tags.log_id\nINNER ",
    "JOIN ", "tags ", "ON ", "log_tags.tag_id ", "= ", "tags.id\n"]

  const DefaultQuery: string := Concat(QueryWords)

  /** The default query holds no marker and ends with a line break. */
  lemma DefaultQueryFree()
    ensures Free(DefaultQuery)
    ensures |DefaultQuery| > 0 && DefaultQuery[|DefaultQuery| - 1] == '\n'
  {
    QueryWordsAreWords();
    ConcatFree(QueryWords);
  }

  /** Every word of the default query is a marker-free word, and every word
      but the last ends in a blank. */
  lemma QueryWordsAreWords()
    ensures forall i :: 0 <= i < |QueryWords| ==>
      Word(QueryWords[i]) && (i < |QueryWords| - 1 ==> QueryWords[i][|QueryWords[i]| - 1] == ' ')
  {
    SelectIdLevelWords();
    CallerMessageTimeWords();
    FirstJoinWords();
    SecondJoinWords();
  }

  /** The words from SELECT to the level column. */
  lemma SelectIdLevelWords()
    ensures forall i :: 0 <= i < 4 ==> Word(QueryWords[i]) && (i < |QueryWords| - 1 ==> QueryWords[i][|QueryWords[i]| - 1] == ' ')
  {
    assert Word(QueryWords[0]);
    assert Word(QueryWords[1]);
    assert Word(QueryWords[2]);
    assert Word(QueryWords[3]);
  }

  /** The caller, message and time columns, up to FROM. */
  lemma CallerMessageTimeWords()
    ensures forall i :: 4 <= i < 9 ==> Word(QueryWords[i]) && (i < |QueryWords| - 1 ==> QueryWords[i][|QueryWords[i]| - 1] == ' ')
  {
    assert Word(QueryWords[4]);
    assert Word(QueryWords[5]);
    assert Word(QueryWords[6]);
    assert Word(QueryWords[7]);
    assert Word(QueryWords[8]);
  }

  /** The words of the join with `log_tags`. */
  lemma FirstJoinWords()
    ensures forall i :: 9 <= i < 16 ==> Word(QueryWords[i]) && (i < |QueryWords| - 1 ==> QueryWords[i][|QueryWords[i]| - 1] == ' ')
  {
    assert Word(QueryWords[9]);
    assert Word(QueryWords[10]);
    assert Word(QueryWords[11]);
    assert Word(QueryWords[12]);
    assert Word(QueryWords[13]);
    assert Word(QueryWords[14]);
    assert Word(QueryWords[15]);
  }

  /** The words of the join with `tags`. */
  lemma SecondJoinWords()
    ensures forall i :: 16 <= i < 22 ==> Word(QueryWords[i]) && (i < |QueryWords| - 1 ==> QueryWords[i][|QueryWords[i]| - 1] == ' ')
  {
    assert Word(QueryWords[16]);
    assert Word(QueryWords[17]);
    assert Word(QueryWords[18]);
    assert Word(QueryWords[19]);
    assert Word(QueryWords[20]);
    assert Word(QueryWords[21]);
  }

  /** A query option. Go represents one as a closure over the builder; here it
      is the data the closure captured. */
  datatype Config =
    | Write(text: string)                  // a wrapper's inner closure: appends its fragment
    | Custom(query: string)                // CustomQuery
    | Filter(inner: Config)                // prepareFilter(inner)
    | Sort(inner: Config)                  // prepareSort(inner)
    | Filters(configs: seq<Config>)        // AddFilters
    | Sorts(configs: seq<Config>)          // AddSorts
    | Limit(limitAndOffset: seq<int>)      // AddLimit
    | AnyTag(tag: string, tags: seq<string>) // the inner closure of HasTags

  /** One `tags.name LIKE` alternative of HasTags. */
  function TagLike(tag: string): string
  {
    "tags.name LIKE '%" + tag + "%'"
  }

  /** The text the HasTags loop has written after `i` rounds over `all`,
      writing `" OR "` after element `j` only when `j < n - 1`. */
  function TagsWritten(all: seq<string>, n: int, i: nat): string
    requires i <= |all|
  {
    if i == 0 then ""
    else TagsWritten(all, n, i - 1) + TagLike(all[i - 1]) + (if i - 1 < n - 1 then " OR " else "")
  }

  /** What prepareFilter keeps of the text before running its option: the new
      head (ending in the WHERE or AND separator), the ORDER BY body and the
      LIMIT body it re-appends afterwards. */
  datatype Parts = Parts(head: string, order: string, limit: string)

  /** The text before the first `m` and the text between the first and the
      second, as `strings.Split(s, m)[0]` and `[1]`. */
  function Before(s: string, m: string): string
    requires |m| > 0 && Contains(s, m)
  {
    Split(s, m)[0]
  }

  function After(s: string, m: string): string
    requires |m| > 0 && Contains(s, m)
  {
    Split(s, m)[1]
  }

  /** The ORDER BY body and LIMIT body of an ORDER BY tail. */
  function OrderTail(order: string): (string, string)
  {
    if Contains(order, LimitMarker) then (Before(order, LimitMarker), After(order, LimitMarker))
    else (order, "")
  }

  /** The predicate text, ORDER BY body and LIMIT body of a WHERE tail. */
  function WhereTail(filter: string): (string, string, string)
  {
    if Contains(filter, OrderBy) then
      var tail := OrderTail(After(filter, OrderBy));
      (Before(filter, OrderBy), tail.0, tail.1)
    else if Contains(filter, LimitMarker) then
      (Before(filter, LimitMarker), "", After(filter, LimitMarker))
    else
      (filter, "", "")
  }

  function FilterParts(s: string): Parts
  {
    if Contains(s, Where) then
      var tail := WhereTail(After(s, Where));
      Parts(DefaultQuery + Where + tail.0 + " AND ", tail.1, tail.2)
    else if Contains(s, OrderBy) then
      var tail := OrderTail(After(s, OrderBy));
      Parts(DefaultQuery + Where, tail.0, tail.1)
    else if Contains(s, LimitMarker) then
      Parts(DefaultQuery + Where, "", After(s, LimitMarker))
    else
      Parts((if s == "" then DefaultQuery else s) + Where, "", "")
  }

  /** What prepareSort keeps: the head (ending in the ORDER BY or comma
      separator) and the LIMIT body it re-appends afterwards. */
  function SortParts(s: string): (string, string)
  {
    if Contains(s, OrderBy) then
      var tail := OrderTail(After(s, OrderBy));
      (Before(s, OrderBy) + OrderBy + tail.0 + ", ", tail.1)
    else if Contains(s, LimitMarker) then
      (Before(s, LimitMarker) + OrderBy, After(s, LimitMarker))
    else
      ((if s == "" then DefaultQuery else s) + OrderBy, "")
  }

  /** The text AddLimit keeps before writing its LIMIT clause. */
  function LimitBase(s: string): string
  {
    if Contains(s, LimitMarker) then Before(s, LimitMarker)
    else if s == "" then DefaultQuery
    else s
  }

  /** The LIMIT body AddLimit writes for a non-empty argument list. */
  function LimitBody(limitAndOffset: seq<int>): string
    requires |limitAndOffset| > 0
  {
    if |limitAndOffset| > 1 then Decimal(limitAndOffset[0]) + " OFFSET " + Decimal(limitAndOffset[1])
    else Decimal(limitAndOffset[0])
  }

  /** The LIMIT body reads back: a lone limit parses to its value, and with an
      offset the body splits on `OFFSET` into the two numbers, which parse
      back, since `%d` writes no blank. */
  lemma LimitBodyReadsBack(limitAndOffset: seq<int>)
    requires |limitAndOffset| > 0
    ensures |limitAndOffset| == 1 ==> ParseDecimal(LimitBody(limitAndOffset)) == Some(limitAndOffset[0])
    ensures |limitAndOffset| > 1 ==>
              var parts := Split(LimitBody(limitAndOffset), " OFFSET ");
              parts == [Decimal(limitAndOffset[0]), Decimal(limitAndOffset[1])] &&
              ParseDecimal(parts[0]) == Some(limitAndOffset[0]) &&
              ParseDecimal(parts[1]) == Some(limitAndOffset[1])
  {
    if |limitAndOffset| > 1 {
      var d, e := Decimal(limitAndOffset[0]), Decimal(limitAndOffset[1]);
      assert Without(d, ' ') && Without(e, ' ');
      SplitPair(d, " OFFSET ", e);
    }
  }

  function Clause(marker: string, body: string): string
  {
    if body != "" then marker + body else ""
  }

  /** The text an option leaves in a buffer that held `s`. */
  function Eval(c: Config, s: string): string
  {
    match c
    case Write(text) => s + text
    case Custom(query) => s + " " + query
    case AnyTag(tag, tags) => s + TagsWritten(tags + [tag], |tags|, |tags| + 1)
    case Filter(inner) =>
      var p := FilterParts(s);
      Eval(inner, p.head) + Clause(OrderBy, p.order) + Clause(LimitMarker, p.limit)
    case Sort(inner) =>
      var p := SortParts(s);
      Eval(inner, p.0) + Clause(LimitMarker, p.1)
    case Filters(_) => s
    case Sorts(_) => s
    case Limit(args) =>
      if |args| == 0 then s else LimitBase(s) + LimitMarker + LimitBody(args)
  }

  /** The first half of prepareFilter: rebuild the buffer up to the new
      predicate and return the ORDER BY and LIMIT bodies to re-append. */
  method FilterPrologue(sb: Builder) returns (order: string, limit: string)
    modifies sb
    ensures sb.buf == FilterParts(old(sb.buf)).head
    ensures order == FilterParts(old(sb.buf)).order && limit == FilterParts(old(sb.buf)).limit
  {
    var filter: string;
    order, limit := "", "";
    var s := sb.String();
    if s == "" {
      sb.WriteString(DefaultQuery);
    }
    if Contains(s, Where) {
      var pieces := Split(s, Where);
      filter := pieces[1];
      if Contains(filter, OrderBy) {
        pieces := Split(filter, OrderBy);
        filter := pieces[0];
        order := pieces[1];
        if Contains(order, LimitMarker) {
          pieces := Split(order, LimitMarker);
          order := pieces[0];
          limit := pieces[1];
        }
      } else if Contains(filter, LimitMarker) {
        pieces := Split(filter, LimitMarker);
        filter := pieces[0];
        limit := pieces[1];
      }
      assert (filter, order, limit) == WhereTail(After(s, Where));
      sb.Reset();
      sb.WriteString(DefaultQuery);
      sb.WriteString(Where);
      sb.WriteString(filter);
      assert sb.buf == DefaultQuery + Where + WhereTail(After(s, Where)).0;
    } else if Contains(s, OrderBy) {
      var pieces := Split(s, OrderBy);
      order := pieces[1];
      if Contains(order, LimitMarker) {
        pieces := Split(order, LimitMarker);
        order := pieces[0];
        limit := pieces[1];
      }
      assert (order, limit) == OrderTail(After(s, OrderBy));
      sb.Reset();
      sb.WriteString(DefaultQuery);
    } else if Contains(s, LimitMarker) {
      var pieces := Split(s, LimitMarker);
      limit := pieces[1];
      sb.Reset();
      sb.WriteString(DefaultQuery);
    } else {
      assert sb.buf == if s == "" then DefaultQuery else s;
    }
    if !Contains(s, Where) {
      sb.WriteString(Where);
    } else {
      sb.WriteString(" AND ");
    }
  }

  /** The second half of prepareFilter: re-append the saved clauses. */
  method FilterEpilogue(sb: Builder, order: string, limit: string)
    modifies sb
    ensures sb.buf == old(sb.buf) + Clause(OrderBy, order) + Clause(LimitMarker, limit)
  {
    WriteClause(sb, OrderBy, order);
    WriteClause(sb, LimitMarker, limit);
  }

  /** Re-appends a saved clause body behind its marker, when there is one. */
  method WriteClause(sb: Builder, marker: string, body: string)
    modifies sb
    ensures sb.buf == old(sb.buf) + Clause(marker, body)
  {
    ghost var start := sb.buf;
    if body != "" {
      sb.WriteString(marker);
      sb.WriteString(body);
      Assoc(start, marker, body);
    } else {
      Assoc(start, "", "");
    }
  }

  /** The first half of prepareSort. */
  method SortPrologue(sb: Builder) returns (limit: string)
    modifies sb
    ensures sb.buf == SortParts(old(sb.buf)).0 && limit == SortParts(old(sb.buf)).1
  {
    var base, order: string;
    limit := "";
    var s := sb.String();
    if s == "" {
      sb.WriteString(DefaultQuery);
    }
    if Contains(s, OrderBy) {
      var pieces := Split(s, OrderBy);
      base := pieces[0];
      order := pieces[1];
      if Contains(order, LimitMarker) {
        pieces := Split(order, LimitMarker);
        order := pieces[0];
        limit := pieces[1];
      }
      sb.Reset();
      sb.WriteString(base);
      sb.WriteString(OrderBy);
      sb.WriteString(order);
    } else if Contains(s, LimitMarker) {
      var pieces := Split(s, LimitMarker);
      base := pieces[0];
      limit := pieces[1];
      sb.Reset();
      sb.WriteString(base);
    }
    if !Contains(s, OrderBy) {
      sb.WriteString(OrderBy);
    } else {
      sb.WriteString(", ");
    }
  }

  /** Applies an option to the buffer, as calling the Go closure does. */
  method Run(c: Config, sb: Builder)
    modifies sb
    ensures sb.buf == Eval(c, old(sb.buf))
    decreases c, 1
  {
    match c
    case Write(text) =>
      sb.WriteString(text);
    case Custom(query) =>
      sb.WriteString(" ");
      sb.WriteString(query);
    case AnyTag(tag, tags) =>
      RunAnyTag(tag, tags, sb);
    case Filter(inner) =>
      RunFilter(inner, sb);
    case Sort(inner) =>
      RunSort(inner, sb);
    case Filters(configs) =>
      DiscardAll(configs, true);
    case Sorts(configs) =>
      DiscardAll(configs, false);
    case Limit(limitAndOffset) =>
      RunLimit(limitAndOffset, sb);
  }

  /** The closure prepareFilter returns. */
  method RunFilter(inner: Config, sb: Builder)
    modifies sb
    ensures sb.buf == Eval(Filter(inner), old(sb.buf))
    decreases Filter(inner), 0
  {
    ghost var p := FilterParts(sb.buf);
    var order, limit := FilterPrologue(sb);
    Run(inner, sb);
    FilterEpilogue(sb, order, limit);
    assert sb.buf == Eval(inner, p.head) + Clause(OrderBy, p.order) + Clause(LimitMarker, p.limit);
  }

  /** The closure prepareSort returns. */
  method RunSort(inner: Config, sb: Builder)
    modifies sb
    ensures sb.buf == Eval(Sort(inner), old(sb.buf))
    decreases Sort(inner), 0
  {
    ghost var p := SortParts(sb.buf);
    var limit := SortPrologue(sb);
    Run(inner, sb);
    WriteClause(sb, LimitMarker, limit);
    assert sb.buf == Eval(inner, p.0) + Clause(LimitMarker, p.1);
  }

  /** The inner closure of HasTags: one LIKE alternative per tag of
      `tags + [tag]`, with `" OR "` written after element `i` only while
      `i < |tags| - 1`. */
  method RunAnyTag(tag: string, tags: seq<string>, sb: Builder)
    modifies sb
    ensures sb.buf == old(sb.buf) + TagsWritten(tags + [tag], |tags|, |tags| + 1)
  {
    var all := tags + [tag];
    for i := 0 to |all|
      invariant sb.buf == old(sb.buf) + TagsWritten(all, |tags|, i)
    {
      sb.WriteString(TagLike(all[i]));
      if i < |tags| - 1 {
        sb.WriteString(" OR ");
      }
    }
  }

  /** The closures of AddFilters (`asFilters`) and AddSorts: each given option
      is wrapped and the wrapped option is dropped without being called, so
      the buffer is not touched. */
  method DiscardAll(configs: seq<Config>, asFilters: bool)
  {
    for i := 0 to |configs| {
      var discarded := if asFilters then Filter(configs[i]) else Sort(configs[i]);
    }
  }

  /** AddLimit's closure. */
  method RunLimit(limitAndOffset: seq<int>, sb: Builder)
    modifies sb
    ensures sb.buf == Eval(Limit(limitAndOffset), old(sb.buf))
  {
    if |limitAndOffset| == 0 {
      return;
    }
    var s := sb.String();
    if s == "" {
      sb.WriteString(DefaultQuery);
    }
    if Contains(s, LimitMarker) {
      var pieces := Split(s, LimitMarker);
      var base := pieces[0];
      sb.Reset();
      sb.WriteString(base);
    }
    ghost var base := sb.buf;
    assert base == LimitBase(s);
    sb.WriteString(LimitMarker);
    sb.WriteString(Decimal(limitAndOffset[0]));
    if |limitAndOffset| > 1 {
      sb.WriteString(" OFFSET ");
      sb.WriteString(Decimal(limitAndOffset[1]));
    }
    LimitWritten(base, limitAndOffset);
  }

  lemma LimitWritten(base: string, limitAndOffset: seq<int>)
    requires |limitAndOffset| > 0
    ensures |limitAndOffset| > 1 ==>
              base + LimitMarker + LimitBody(limitAndOffset) ==
              base + LimitMarker + Decimal(limitAndOffset[0]) + " OFFSET " + Decimal(limitAndOffset[1])
    ensures |limitAndOffset| == 1 ==>
              base + LimitMarker + LimitBody(limitAndOffset) == base + LimitMarker + Decimal(limitAndOffset[0])
  {
    if |limitAndOffset| > 1 {
      var d, e := Decimal(limitAndOffset[0]), Decimal(limitAndOffset[1]);
      assert LimitBody(limitAndOffset) == d + " OFFSET " + e;
      assert base + LimitMarker + (d + " OFFSET " + e) == base + LimitMarker + d + " OFFSET " + e;
    }
  }
}
