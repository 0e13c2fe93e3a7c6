/** The query options of queries/queries.go: one function per exported
    option, each returning the option as data (`Engine.Config`), with the
    predicate or sort key it contributes and the condition under which the
    clause model of `Composition` describes it. */
module Queries {
  import opened Wrappers
  import opened Strings
  import opened Markers
  import opened Engine
  import opened Composition
  import opened Fragments

  const LevelColumn: string := "logs.level"
  const CallerFileColumn: string := "logs.caller_file"
  const CallerLineColumn: string := "logs.caller_line"
  const CallerFunctionColumn: string := "logs.caller_function"
  const MessageColumn: string := "logs.message"
  const TimeColumn: string := "logs.time"
  const DateColumn: string := "DATE(logs.time)"

  /** None of the fixed words the options write can take part in a
      marker. */
  lemma Vocabulary()
    ensures Unmarked(LevelColumn) && Unmarked(CallerFileColumn) && Unmarked(CallerLineColumn)
    ensures Unmarked(CallerFunctionColumn) && Unmarked(MessageColumn) && Unmarked(TimeColumn) && Unmarked(DateColumn)
    ensures Unmarked("=") && Unmarked("!=") && Unmarked(">") && Unmarked("<")
    ensures Unmarked("LIKE") && Unmarked("NOT LIKE") && Unmarked("BETWEEN") && Unmarked("ASC") && Unmarked("DESC")
  {
  }

  // ---------------------------------------------------------------------
  // getOrder (queries/queries.go:18-24)

  /** ASCII upper case of one character. */
  function UpperChar(c: char): char
  {
    if 'a' <= c <= 'z' then (c as int - 32) as char else c
  }

  /** `strings.ToUpper` on ASCII text. */
  function Upper(s: string): (r: string)
    ensures |r| == |s| && forall k :: 0 <= k < |s| ==> r[k] == UpperChar(s[k])
  {
    seq(|s|, k requires 0 <= k < |s| => UpperChar(s[k]))
  }

  /** The sort direction for a user-supplied order: DESC in any letter case
      selects DESC, anything else ASC. */
  function GetOrder(order: string): (r: string)
    ensures r == "ASC" || r == "DESC"
    ensures r == "DESC" <==> Upper(order) == "DESC"
  {
    var upper := Upper(order);
    if upper != "ASC" && upper != "DESC" then "ASC" else upper
  }

  /** Only the letter case-insensitive spelling of the order matters, and a
      direction already chosen is kept. */
  lemma GetOrderNormal(order: string)
    ensures GetOrder(Upper(order)) == GetOrder(order)
    ensures GetOrder(GetOrder(order)) == GetOrder(order)
  {
    assert Upper(Upper(order)) == Upper(order);
    assert Upper("ASC") == "ASC";
    assert Upper("DESC") == "DESC";
  }

  // ---------------------------------------------------------------------
  // The shapes the filter and sort options share.

  /** A filter `column op %d`. */
  function NumberFilter(column: string, op: string, n: int): (r: Config)
    requires Unmarked(column) && Unmarked(op)
    ensures Simple(r) && PredicateOf(r) == [Compare(column, op, Decimal(n))]
    ensures ParseDecimal(PredicateOf(r)[0][|column| + |op| + 2..]) == Some(n)
  {
    CompareUnmarked(column, op, Decimal(n));
    CompareOperand(column, op, Decimal(n));
    Filter(Write(Compare(column, op, Decimal(n))))
  }

  /** A filter `column BETWEEN %d AND %d`. */
  function NumberRangeFilter(column: string, start: int, end: int): (r: Config)
    requires Unmarked(column)
    ensures Simple(r) && PredicateOf(r) == [Compare(column, "BETWEEN", Range(Decimal(start), Decimal(end)))]
  {
    Vocabulary();
    RangeUnmarked(Decimal(start), Decimal(end));
    CompareUnmarked(column, "BETWEEN", Range(Decimal(start), Decimal(end)));
    Filter(Write(Compare(column, "BETWEEN", Range(Decimal(start), Decimal(end)))))
  }

  lemma LikeIsoWhen(column: string, op: string, v: string)
    requires Unmarked(column) && Unmarked(op)
    ensures Free(v) ==> Iso(Compare(column, op, Quote(Pattern(v)))) && Compare(column, op, Quote(Pattern(v))) != ""
  {
    if Free(v) {
      LikeIso(column, op, v);
    }
  }

  /** A filter `column op '%…%'`: the user's text is pasted verbatim between
      the wildcards, and the clause model covers it when that text holds no
      marker. */
  function LikeFilter(column: string, op: string, v: string): (r: Config)
    requires Unmarked(column) && Unmarked(op)
    ensures PredicateOf(r) == [Compare(column, op, Quote(Pattern(v)))]
    ensures Free(v) ==> Simple(r)
    ensures PredicateOf(r)[0][|column| + |op| + 4..|column| + |op| + 4 + |v|] == v
  {
    LikeIsoWhen(column, op, v);
    CompareOperand(column, op, Quote(Pattern(v)));
    PatternOperand(v);
    Filter(Write(Compare(column, op, Quote(Pattern(v)))))
  }

  /** A filter `column op '…'` on formatted time text. */
  function QuotedFilter(column: string, op: string, text: string): (r: Config)
    requires Unmarked(column) && Unmarked(op) && Unmarked(text)
    ensures Simple(r) && PredicateOf(r) == [Compare(column, op, Quote(text))]
    ensures PredicateOf(r)[0][|column| + |op| + 3..|column| + |op| + 3 + |text|] == text
  {
    QuoteUnmarked(text);
    CompareUnmarked(column, op, Quote(text));
    CompareOperand(column, op, Quote(text));
    assert Quote(text)[1..|text| + 1] == text;
    Filter(Write(Compare(column, op, Quote(text))))
  }

  /** A filter `column BETWEEN '…' AND '…'` on formatted time text. */
  function QuotedRangeFilter(column: string, start: string, end: string): (r: Config)
    requires Unmarked(column) && Unmarked(start) && Unmarked(end)
    ensures Simple(r) && PredicateOf(r) == [Compare(column, "BETWEEN", Range(Quote(start), Quote(end)))]
  {
    Vocabulary();
    QuoteUnmarked(start);
    QuoteUnmarked(end);
    RangeUnmarked(Quote(start), Quote(end));
    CompareUnmarked(column, "BETWEEN", Range(Quote(start), Quote(end)));
    Filter(Write(Compare(column, "BETWEEN", Range(Quote(start), Quote(end)))))
  }

  /** A sort `column ASC|DESC`. */
  function KeySort(column: string, order: string): (r: Config)
    requires Unmarked(column)
    ensures Simple(r) && SortKeyOf(r) == [Ordered(column, GetOrder(order))]
  {
    Vocabulary();
    OrderedIso(column, GetOrder(order));
    Sort(Write(Ordered(column, GetOrder(order))))
  }

  // ---------------------------------------------------------------------
  // CustomQuery and AddLimit (queries/queries.go:41-46, 208-235)

  /** Appends a blank and the caller's text verbatim, wherever the buffer
      stands; the text is not a clause the model can place. */
  function CustomQuery(query: string): (r: Config)
    ensures forall s :: Eval(r, s) == s + " " + query
    ensures !Simple(r)
  {
    Custom(query)
  }

  /** Sets the LIMIT clause (and OFFSET with a second argument), replacing any
      earlier one; with no argument it changes nothing. */
  function AddLimit(limitAndOffset: seq<int>): (r: Config)
    ensures Simple(r)
    ensures |limitAndOffset| == 0 ==> forall l :: LimitAfter(r, l) == l
    ensures |limitAndOffset| > 0 ==> forall l :: LimitAfter(r, l) == LimitBody(limitAndOffset)
    ensures PredicateOf(r) == [] && SortKeyOf(r) == []
  {
    Limit(limitAndOffset)
  }

  // ---------------------------------------------------------------------
  // Level filters (queries/queries.go:263-315)

  function LevelEqual(level: int): (r: Config)
    ensures Simple(r) && PredicateOf(r) == [Compare(LevelColumn, "=", Decimal(level))]
  {
    Vocabulary();
    NumberFilter(LevelColumn, "=", level)
  }

  function LevelNotEqual(level: int): (r: Config)
    ensures Simple(r) && PredicateOf(r) == [Compare(LevelColumn, "!=", Decimal(level))]
  {
    Vocabulary();
    NumberFilter(LevelColumn, "!=", level)
  }

  function LevelGreaterThan(level: int): (r: Config)
    ensures Simple(r) && PredicateOf(r) == [Compare(LevelColumn, ">", Decimal(level))]
  {
    Vocabulary();
    NumberFilter(LevelColumn, ">", level)
  }

  function LevelLessThan(level: int): (r: Config)
    ensures Simple(r) && PredicateOf(r) == [Compare(LevelColumn, "<", Decimal(level))]
  {
    Vocabulary();
    NumberFilter(LevelColumn, "<", level)
  }

  function LevelBetween(start: int, end: int): (r: Config)
    ensures Simple(r) && PredicateOf(r) == [Compare(LevelColumn, "BETWEEN", Range(Decimal(start), Decimal(end)))]
  {
    Vocabulary();
    NumberRangeFilter(LevelColumn, start, end)
  }

  // ---------------------------------------------------------------------
  // Caller file filters (queries/queries.go:324-341)

  function CallerFileLike(file: string): (r: Config)
    ensures PredicateOf(r) == [Compare(CallerFileColumn, "LIKE", Quote(Pattern(file)))]
    ensures Free(file) ==> Simple(r)
  {
    Vocabulary();
    LikeFilter(CallerFileColumn, "LIKE", file)
  }

  function CallerFileNotLike(file: string): (r: Config)
    ensures PredicateOf(r) == [Compare(CallerFileColumn, "NOT LIKE", Quote(Pattern(file)))]
    ensures Free(file) ==> Simple(r)
  {
    Vocabulary();
    LikeFilter(CallerFileColumn, "NOT LIKE", file)
  }

  // ---------------------------------------------------------------------
  // Caller line filters (queries/queries.go:349-401)

  function CallerLineEqual(line: int): (r: Config)
    ensures Simple(r) && PredicateOf(r) == [Compare(CallerLineColumn, "=", Decimal(line))]
  {
    Vocabulary();
    NumberFilter(CallerLineColumn, "=", line)
  }

  function CallerLineNotEqual(line: int): (r: Config)
    ensures Simple(r) && PredicateOf(r) == [Compare(CallerLineColumn, "!=", Decimal(line))]
  {
    Vocabulary();
    NumberFilter(CallerLineColumn, "!=", line)
  }

  function CallerLineGreaterThan(line: int): (r: Config)
    ensures Simple(r) && PredicateOf(r) == [Compare(CallerLineColumn, ">", Decimal(line))]
  {
    Vocabulary();
    NumberFilter(CallerLineColumn, ">", line)
  }

  function CallerLineLessThan(line: int): (r: Config)
    ensures Simple(r) && PredicateOf(r) == [Compare(CallerLineColumn, "<", Decimal(line))]
  {
    Vocabulary();
    NumberFilter(CallerLineColumn, "<", line)
  }

  function CallerLineBetween(start: int, end: int): (r: Config)
    ensures Simple(r) && PredicateOf(r) == [Compare(CallerLineColumn, "BETWEEN", Range(Decimal(start), Decimal(end)))]
  {
    Vocabulary();
    NumberRangeFilter(CallerLineColumn, start, end)
  }

  // ---------------------------------------------------------------------
  // Caller function and message filters (queries/queries.go:410-453)

  function CallerFunctionLike(function_: string): (r: Config)
    ensures PredicateOf(r) == [Compare(CallerFunctionColumn, "LIKE", Quote(Pattern(function_)))]
    ensures Free(function_) ==> Simple(r)
  {
    Vocabulary();
    LikeFilter(CallerFunctionColumn, "LIKE", function_)
  }

  function CallerFunctionNotLike(function_: string): (r: Config)
    ensures PredicateOf(r) == [Compare(CallerFunctionColumn, "NOT LIKE", Quote(Pattern(function_)))]
    ensures Free(function_) ==> Simple(r)
  {
    Vocabulary();
    LikeFilter(CallerFunctionColumn, "NOT LIKE", function_)
  }

  function MessageLike(message: string): (r: Config)
    ensures PredicateOf(r) == [Compare(MessageColumn, "LIKE", Quote(Pattern(message)))]
    ensures Free(message) ==> Simple(r)
  {
    Vocabulary();
    LikeFilter(MessageColumn, "LIKE", message)
  }

  function MessageNotLike(message: string): (r: Config)
    ensures PredicateOf(r) == [Compare(MessageColumn, "NOT LIKE", Quote(Pattern(message)))]
    ensures Free(message) ==> Simple(r)
  {
    Vocabulary();
    LikeFilter(MessageColumn, "NOT LIKE", message)
  }

  // ---------------------------------------------------------------------
  // Timestamp and date filters (queries/queries.go:462-583)

  function TimestampEqual(timestamp: Instant): (r: Config)
    ensures Simple(r) && PredicateOf(r) == [Compare(TimeColumn, "=", Quote(StampText(timestamp)))]
  {
    Vocabulary();
    StampUnmarked(timestamp);
    QuotedFilter(TimeColumn, "=", StampText(timestamp))
  }

  function TimestampNotEqual(timestamp: Instant): (r: Config)
    ensures Simple(r) && PredicateOf(r) == [Compare(TimeColumn, "!=", Quote(StampText(timestamp)))]
  {
    Vocabulary();
    StampUnmarked(timestamp);
    QuotedFilter(TimeColumn, "!=", StampText(timestamp))
  }

  function TimestampGreaterThan(timestamp: Instant): (r: Config)
    ensures Simple(r) && PredicateOf(r) == [Compare(TimeColumn, ">", Quote(StampText(timestamp)))]
  {
    Vocabulary();
    StampUnmarked(timestamp);
    QuotedFilter(TimeColumn, ">", StampText(timestamp))
  }

  function TimestampLessThan(timestamp: Instant): (r: Config)
    ensures Simple(r) && PredicateOf(r) == [Compare(TimeColumn, "<", Quote(StampText(timestamp)))]
  {
    Vocabulary();
    StampUnmarked(timestamp);
    QuotedFilter(TimeColumn, "<", StampText(timestamp))
  }

  function TimestampBetween(start: Instant, end: Instant): (r: Config)
    ensures Simple(r)
    ensures PredicateOf(r) == [Compare(TimeColumn, "BETWEEN", Range(Quote(StampText(start)), Quote(StampText(end))))]
  {
    Vocabulary();
    StampUnmarked(start);
    StampUnmarked(end);
    QuotedRangeFilter(TimeColumn, StampText(start), StampText(end))
  }

  function DateEqual(date: Instant): (r: Config)
    ensures Simple(r) && PredicateOf(r) == [Compare(DateColumn, "=", Quote(DateText(date)))]
  {
    Vocabulary();
    StampUnmarked(date);
    QuotedFilter(DateColumn, "=", DateText(date))
  }

  function DateNotEqual(date: Instant): (r: Config)
    ensures Simple(r) && PredicateOf(r) == [Compare(DateColumn, "!=", Quote(DateText(date)))]
  {
    Vocabulary();
    StampUnmarked(date);
    QuotedFilter(DateColumn, "!=", DateText(date))
  }

  function DateGreaterThan(date: Instant): (r: Config)
    ensures Simple(r) && PredicateOf(r) == [Compare(DateColumn, ">", Quote(DateText(date)))]
  {
    Vocabulary();
    StampUnmarked(date);
    QuotedFilter(DateColumn, ">", DateText(date))
  }

  function DateLessThan(date: Instant): (r: Config)
    ensures Simple(r) && PredicateOf(r) == [Compare(DateColumn, "<", Quote(DateText(date)))]
  {
    Vocabulary();
    StampUnmarked(date);
    QuotedFilter(DateColumn, "<", DateText(date))
  }

  function DateBetween(start: Instant, end: Instant): (r: Config)
    ensures Simple(r)
    ensures PredicateOf(r) == [Compare(DateColumn, "BETWEEN", Range(Quote(DateText(start)), Quote(DateText(end))))]
  {
    Vocabulary();
    StampUnmarked(start);
    StampUnmarked(end);
    QuotedRangeFilter(DateColumn, DateText(start), DateText(end))
  }

  /** The instant a timestamp filter compares against reads back from its
      predicate, for four-digit years. */
  lemma TimestampReadsBack(op: string, timestamp: Instant)
    requires FixedWidth(timestamp)
    ensures var p, k := Compare(TimeColumn, op, Quote(StampText(timestamp))), |TimeColumn| + |op| + 3;
      ParseStamp(p[k..k + |StampText(timestamp)|]) == Some(timestamp)
  {
    var text := StampText(timestamp);
    var p, k := Compare(TimeColumn, op, Quote(text)), |TimeColumn| + |op| + 3;
    CompareOperand(TimeColumn, op, Quote(text));
    var q := p[k - 1..];
    assert q == Quote(text);
    assert p[k..k + |text|] == q[1..|text| + 1] == text;
    StampRoundTrip(timestamp);
  }

  /** The day a date filter compares against reads back from its predicate,
      for four-digit years. */
  lemma DateReadsBack(op: string, date: Instant)
    requires FixedWidth(date)
    ensures var p, k := Compare(DateColumn, op, Quote(DateText(date))), |DateColumn| + |op| + 3;
      ParseDate(p[k..k + |DateText(date)|]) == Some((date.year as nat, date.month, date.day))
  {
    var text := DateText(date);
    var p, k := Compare(DateColumn, op, Quote(text)), |DateColumn| + |op| + 3;
    CompareOperand(DateColumn, op, Quote(text));
    var q := p[k - 1..];
    assert q == Quote(text);
    assert p[k..k + |text|] == q[1..|text| + 1] == text;
    DateRoundTrip(date);
  }

  // ---------------------------------------------------------------------
  // Sorts (queries/queries.go:592-661)

  function SortLevel(order: string): (r: Config)
    ensures Simple(r) && SortKeyOf(r) == [Ordered(LevelColumn, GetOrder(order))]
  {
    Vocabulary();
    KeySort(LevelColumn, order)
  }

  function SortCallerFile(order: string): (r: Config)
    ensures Simple(r) && SortKeyOf(r) == [Ordered(CallerFileColumn, GetOrder(order))]
  {
    Vocabulary();
    KeySort(CallerFileColumn, order)
  }

  function SortCallerLine(order: string): (r: Config)
    ensures Simple(r) && SortKeyOf(r) == [Ordered(CallerLineColumn, GetOrder(order))]
  {
    Vocabulary();
    KeySort(CallerLineColumn, order)
  }

  function SortCallerFunction(order: string): (r: Config)
    ensures Simple(r) && SortKeyOf(r) == [Ordered(CallerFunctionColumn, GetOrder(order))]
  {
    Vocabulary();
    KeySort(CallerFunctionColumn, order)
  }

  function SortMessage(order: string): (r: Config)
    ensures Simple(r) && SortKeyOf(r) == [Ordered(MessageColumn, GetOrder(order))]
  {
    Vocabulary();
    KeySort(MessageColumn, order)
  }

  function SortTimestamp(order: string): (r: Config)
    ensures Simple(r) && SortKeyOf(r) == [Ordered(TimeColumn, GetOrder(order))]
  {
    Vocabulary();
    KeySort(TimeColumn, order)
  }

  // ---------------------------------------------------------------------
  // HasTags (queries/queries.go:246-255)

  /** Every text in `tags` is marker-free. */
  ghost predicate AllFree(tags: seq<string>)
  {
    forall i :: 0 <= i < |tags| ==> Free(tags[i])
  }

  /** One `tags.name LIKE '%tag%'` alternative per tag, in order. */
  function TagLikes(all: seq<string>): (r: seq<string>)
    ensures |r| == |all| && forall i :: 0 <= i < |all| ==> r[i] == TagLike(all[i])
  {
    seq(|all|, i requires 0 <= i < |all| => TagLike(all[i]))
  }

  /** An alternative on a marker-free tag is marker-free, opens with the `t`
      of `tags.name` and closes with a quote. */
  lemma TagLikeFree(tag: string)
    requires Free(tag)
    ensures Free(TagLike(tag)) && |TagLike(tag)| > 0
    ensures TagLike(tag)[0] == 't' && TagLike(tag)[|TagLike(tag)| - 1] == '\''
  {
    var x := TagLike(tag);
    assert x == Compare("tags.name", "LIKE", Quote(Pattern(tag)));
    Vocabulary();
    assert Unmarked("tags.name");
    LikeIso("tags.name", "LIKE", tag);
    FreeParts(" " + x, " ");
    FreeParts(" ", x);
  }

  /** Alternatives on marker-free tags joined by OR are marker-free and keep
      the first alternative's opening and the last one's closing. */
  lemma {:induction false} OrJoinFree(all: seq<string>)
    requires AllFree(all) && |all| > 0
    ensures var j := Join(TagLikes(all), " OR ");
      Free(j) && |j| > 0 && j[0] == 't' && j[|j| - 1] == '\''
    decreases |all|
  {
    var n := |all|;
    if n == 1 {
      TagLikeFree(all[0]);
    } else {
      var init := all[..n - 1];
      assert TagLikes(all)[..n - 1] == TagLikes(init);
      OrJoinFree(init);
      var a := Join(TagLikes(init), " OR ");
      TagLikeFree(all[n - 1]);
      ShortFree(" OR ");
      Junction(a, " OR ");
      Junction(a + " OR ", TagLike(all[n - 1]));
      assert Join(TagLikes(all), " OR ") == a + " OR " + TagLike(all[n - 1]);
    }
  }

  /** After `i` rounds of the HasTags loop with the `" OR "` bound `n`, the
      text is the first `i` alternatives joined by OR, followed by one more
      OR while rounds remain below `n`. */
  lemma {:induction false} TagsWrittenJoin(all: seq<string>, n: int, i: nat)
    requires 1 <= i <= n <= |all|
    ensures TagsWritten(all, n, i) == Join(TagLikes(all[..i]), " OR ") + (if i < n then " OR " else "")
    decreases i
  {
    assert TagLikes(all[..i])[..i - 1] == TagLikes(all[..i - 1]);
    if i > 1 {
      TagsWrittenJoin(all, n, i - 1);
    } else {
      assert TagLikes(all[..1]) == [TagLike(all[0])];
    }
  }

  /** The text the HasTags loop writes as the source has it: the `tags`
      alternatives joined by OR, then the `tag` alternative glued on with no
      OR before it. */
  lemma TagsAsWritten(tag: string, tags: seq<string>)
    ensures TagsWritten(tags + [tag], |tags|, |tags| + 1) ==
      if |tags| == 0 then TagLike(tag) else Join(TagLikes(tags), " OR ") + TagLike(tag)
  {
    var all, n := tags + [tag], |tags|;
    LastRound(all, n);
    assert all[n] == tag;
    if n > 0 {
      TagsWrittenJoin(all, n, n);
      assert all[..n] == tags;
      var j := Join(TagLikes(tags), " OR ");
      assert TagsWritten(all, n, n) == j + "";
      assert TagsWritten(all, n, n) == j;
    }
  }

  /** The last round writes no OR when the bound is the number of rounds
      before it. */
  lemma LastRound(all: seq<string>, n: nat)
    requires n + 1 == |all|
    ensures TagsWritten(all, n, n + 1) == TagsWritten(all, n, n) + TagLike(all[n])
    ensures n == 0 ==> TagsWritten(all, n, n + 1) == TagLike(all[n])
  {
    var w := TagsWritten(all, n, n);
    assert TagsWritten(all, n, n + 1) == w + TagLike(all[n]) + "";
    assert w + TagLike(all[n]) + "" == w + TagLike(all[n]);
    if n == 0 {
      assert w == "";
    }
  }

  /** HasTags as the source writes it (the first argument is the last
      alternative, and no OR precedes it). */
  function HasTagsAsWritten(tag: string, tags: seq<string>): (r: Config)
    ensures PredicateOf(r) == [if |tags| == 0 then TagLike(tag) else Join(TagLikes(tags), " OR ") + TagLike(tag)]
    ensures AllFree(tags + [tag]) ==> Simple(r)
  {
    TagsAsWritten(tag, tags);
    AsWrittenIsoWhen(tag, tags);
    Filter(AnyTag(tag, tags))
  }

  lemma AsWrittenIsoWhen(tag: string, tags: seq<string>)
    ensures AllFree(tags + [tag]) ==> Operand(if |tags| == 0 then TagLike(tag) else Join(TagLikes(tags), " OR ") + TagLike(tag))
  {
    if AllFree(tags + [tag]) {
      assert Free((tags + [tag])[|tags|]);
      TagLikeFree(tag);
      var x := TagLike(tag);
      if |tags| > 0 {
        assert AllFree(tags) by {
          forall i | 0 <= i < |tags| ensures Free(tags[i]) {
            assert tags[i] == (tags + [tag])[i];
          }
        }
        OrJoinFree(tags);
        var j := Join(TagLikes(tags), " OR ");
        Junction(j, x);
        FreeIso(j + x);
      } else {
        FreeIso(x);
      }
    }
  }

  /** HasTags as intended: one alternative per tag, `tags` first and `tag`
      last, every two separated by OR. The alternatives are not parenthesised,
      so after an earlier filter the statement reads `… AND a OR b`, which SQL
      groups as `(… AND a) OR b`; this model covers the text, not that
      grouping. */
  function HasTags(tag: string, tags: seq<string>): (r: Config)
    ensures PredicateOf(r) == [Join(TagLikes(tags + [tag]), " OR ")]
    ensures AllFree(tags + [tag]) ==> Simple(r)
  {
    HasTagsIsoWhen(tag, tags);
    Filter(Write(Join(TagLikes(tags + [tag]), " OR ")))
  }

  lemma HasTagsIsoWhen(tag: string, tags: seq<string>)
    ensures AllFree(tags + [tag]) ==> Operand(Join(TagLikes(tags + [tag]), " OR "))
  {
    if AllFree(tags + [tag]) {
      OrJoinFree(tags + [tag]);
      FreeIso(Join(TagLikes(tags + [tag]), " OR "));
    }
  }

  /** With at least one extra tag, the source's predicate lacks exactly the
      OR before the last alternative; with none, the two agree. */
  lemma HasTagsMissingOr(tag: string, tags: seq<string>)
    ensures |tags| == 0 ==> PredicateOf(HasTagsAsWritten(tag, tags)) == PredicateOf(HasTags(tag, tags))
    ensures |tags| > 0 ==>
      PredicateOf(HasTags(tag, tags))[0] == Join(TagLikes(tags), " OR ") + " OR " + TagLike(tag) &&
      PredicateOf(HasTagsAsWritten(tag, tags))[0] == Join(TagLikes(tags), " OR ") + TagLike(tag)
    ensures |tags| > 0 ==> |PredicateOf(HasTags(tag, tags))[0]| == |PredicateOf(HasTagsAsWritten(tag, tags))[0]| + 4
  {
    if |tags| > 0 {
      assert TagLikes(tags + [tag]) == TagLikes(tags) + [TagLike(tag)];
      JoinSnoc(TagLikes(tags), TagLike(tag), " OR ");
    } else {
      assert TagLikes([tag]) == [TagLike(tag)];
      assert tags + [tag] == [tag];
    }
  }

  // ---------------------------------------------------------------------
  // AddFilters and AddSorts (queries/queries.go:158-192)

  /** AddFilters as written: each option is wrapped with prepareFilter and the
      wrapped option is dropped uncalled, so the statement never changes. */
  function AddFiltersAsWritten(configs: seq<Config>): (r: Config)
    ensures forall s :: Eval(r, s) == s
  {
    Filters(configs)
  }

  /** AddSorts as written: likewise for prepareSort. */
  function AddSortsAsWritten(configs: seq<Config>): (r: Config)
    ensures forall s :: Eval(r, s) == s
  {
    Sorts(configs)
  }

  /** Options that only append a non-empty isolated text. */
  ghost predicate AllAppend(configs: seq<Config>)
  {
    forall i :: 0 <= i < |configs| ==> Appended(configs[i]).Some? && Operand(Appended(configs[i]).value)
  }

  /** The texts those options append, in order. */
  function Texts(configs: seq<Config>): seq<string>
    requires forall i :: 0 <= i < |configs| ==> Appended(configs[i]).Some?
    decreases |configs|
  {
    if |configs| == 0 then [] else [Appended(configs[0]).value] + Texts(configs[1..])
  }

  /** AddFilters as intended: every option runs as a filter, in order. */
  function AddFilters(configs: seq<Config>): (r: seq<Config>)
    ensures |r| == |configs| && forall i :: 0 <= i < |configs| ==> r[i] == Filter(configs[i])
    ensures AllAppend(configs) ==> AllSimple(r)
  {
    seq(|configs|, i requires 0 <= i < |configs| => Filter(configs[i]))
  }

  /** AddSorts as intended: every option runs as a sort, in order. */
  function AddSorts(configs: seq<Config>): (r: seq<Config>)
    ensures |r| == |configs| && forall i :: 0 <= i < |configs| ==> r[i] == Sort(configs[i])
    ensures AllAppend(configs) ==> AllSimple(r)
  {
    seq(|configs|, i requires 0 <= i < |configs| => Sort(configs[i]))
  }

  lemma {:induction false} FiltersProject(configs: seq<Config>)
    requires forall i :: 0 <= i < |configs| ==> Appended(configs[i]).Some?
    ensures Predicates(AddFilters(configs)) == Texts(configs)
    ensures SortKeys(AddFilters(configs)) == []
    ensures forall l :: LastLimit(AddFilters(configs), l) == l
    decreases |configs|
  {
    if |configs| > 0 {
      assert AddFilters(configs)[1..] == AddFilters(configs[1..]);
      FiltersProject(configs[1..]);
    }
  }

  lemma {:induction false} SortsProject(configs: seq<Config>)
    requires forall i :: 0 <= i < |configs| ==> Appended(configs[i]).Some?
    ensures SortKeys(AddSorts(configs)) == Texts(configs)
    ensures Predicates(AddSorts(configs)) == []
    ensures forall l :: LastLimit(AddSorts(configs), l) == l
    decreases |configs|
  {
    if |configs| > 0 {
      assert AddSorts(configs)[1..] == AddSorts(configs[1..]);
      SortsProject(configs[1..]);
    }
  }

  /** The intended AddFilters adds each option's text to the WHERE clause, in
      order, and leaves the other clauses alone. */
  lemma AddFiltersApplies(spec: Spec, configs: seq<Config>)
    requires Valid(spec) && AllAppend(configs)
    ensures ApplyAll(AddFilters(configs), Render(spec)) ==
      Render(Spec(spec.preds + Texts(configs), spec.sorts, spec.limit))
  {
    ApplyAllRenders(spec, AddFilters(configs));
    FoldProjects(spec, AddFilters(configs));
    FiltersProject(configs);
    assert spec.sorts + [] == spec.sorts;
  }

  /** The intended AddSorts adds each option's text to the ORDER BY clause,
      in order, and leaves the other clauses alone. */
  lemma AddSortsApplies(spec: Spec, configs: seq<Config>)
    requires Valid(spec) && AllAppend(configs)
    ensures ApplyAll(AddSorts(configs), Render(spec)) ==
      Render(Spec(spec.preds, spec.sorts + Texts(configs), spec.limit))
  {
    ApplyAllRenders(spec, AddSorts(configs));
    FoldProjects(spec, AddSorts(configs));
    SortsProject(configs);
    assert spec.preds + [] == spec.preds;
  }

  /** Where the source's AddFilters leaves the default query unchanged, the
      intended one adds a WHERE clause: `AddFilters` of one option writing
      `x` gives the default query as written and `… WHERE x` as intended. */
  lemma AddFiltersDropsFilters(x: string)
    requires Operand(x)
    ensures Eval(AddFiltersAsWritten([Write(x)]), DefaultQuery) == DefaultQuery
    ensures ApplyAll(AddFilters([Write(x)]), DefaultQuery) == Render(Spec([x], [], ""))
    ensures Render(Spec([x], [], "")) != DefaultQuery
  {
    RenderEmpty();
    ValidEmpty();
    AddFiltersApplies(Spec([], [], ""), [Write(x)]);
    assert Texts([Write(x)]) == [x];
    assert Join([x], " AND ") == x;
    assert |Render(Spec([x], [], ""))| > |DefaultQuery|;
  }
}
