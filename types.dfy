/** The older option set of types.go: the operator enumerations, the
    `FilterBy*` and `SortBy*` options that name columns through
    `LogField.String`, and the closures that capture and reassign their
    operand. The engine of types.go (prepareFilter, prepareSort, AddLimit,
    AddFilters, AddSorts, CustomQuery) is textually the engine of
    queries/queries.go and is the `Engine` module here. */
module Types {
  import opened Wrappers
  import opened Strings
  import opened Markers
  import opened Engine
  import opened Composition
  import opened Fragments
  import opened Log
  import Queries

  // ---------------------------------------------------------------------
  // The operator enumerations (types.go:8-89)

  /** A Go `NumericOperator`: any `int`, of which the first six are named. */
  type NumericOperator = int

  const EQUAL: NumericOperator := 0
  const NOT_EQUAL: NumericOperator := 1
  const GREATER_THAN: NumericOperator := 2
  const GREATER_THAN_OR_EQUAL: NumericOperator := 3
  const LESS_THAN: NumericOperator := 4
  const LESS_THAN_OR_EQUAL: NumericOperator := 5

  predicate IsNumeric(no: NumericOperator)
  {
    EQUAL <= no <= LESS_THAN_OR_EQUAL
  }

  /** `NumericOperator.op`: the SQL comparison of a named operator, and the
      empty string for every other value. */
  function NumericOp(no: NumericOperator): (s: string)
    ensures s != "" <==> IsNumeric(no)
    ensures IsNumeric(no) ==> NumericOperatorOf(s) == Some(no)
    ensures Unmarked(s)
  {
    match no
    case 0 => "="
    case 1 => "!="
    case 2 => ">"
    case 3 => ">="
    case 4 => "<"
    case 5 => "<="
    case _ => ""
  }

  /** The numeric operator an SQL comparison names. */
  function NumericOperatorOf(s: string): Option<NumericOperator>
  {
    if s == "=" then Some(EQUAL)
    else if s == "!=" then Some(NOT_EQUAL)
    else if s == ">" then Some(GREATER_THAN)
    else if s == ">=" then Some(GREATER_THAN_OR_EQUAL)
    else if s == "<" then Some(LESS_THAN)
    else if s == "<=" then Some(LESS_THAN_OR_EQUAL)
    else None
  }

  /** A Go `StringOperator`: any `int`, of which the first three are named. */
  type StringOperator = int

  const CONTAINS: StringOperator := 0
  const NOT_CONTAINS: StringOperator := 1
  const SAME: StringOperator := 2

  predicate IsString(so: StringOperator)
  {
    CONTAINS <= so <= SAME
  }

  /** `StringOperator.op`. */
  function StringOp(so: StringOperator): (s: string)
    ensures s != "" <==> IsString(so)
    ensures IsString(so) ==> StringOperatorOf(s) == Some(so)
    ensures Unmarked(s)
  {
    match so
    case 0 => "LIKE"
    case 1 => "NOT LIKE"
    case 2 => "="
    case _ => ""
  }

  function StringOperatorOf(s: string): Option<StringOperator>
  {
    if s == "LIKE" then Some(CONTAINS)
    else if s == "NOT LIKE" then Some(NOT_CONTAINS)
    else if s == "=" then Some(SAME)
    else None
  }

  /** A Go `SortOperator`: any `int`, of which the first two are named. */
  type SortOperator = int

  const ASC: SortOperator := 0
  const DESC: SortOperator := 1

  predicate IsSort(so: SortOperator)
  {
    ASC <= so <= DESC
  }

  /** `SortOperator.op`. */
  function SortOp(so: SortOperator): (s: string)
    ensures s != "" <==> IsSort(so)
    ensures IsSort(so) ==> SortOperatorOf(s) == Some(so)
    ensures Unmarked(s)
  {
    match so
    case 0 => "ASC"
    case 1 => "DESC"
    case _ => ""
  }

  function SortOperatorOf(s: string): Option<SortOperator>
  {
    if s == "ASC" then Some(ASC)
    else if s == "DESC" then Some(DESC)
    else None
  }

  /** A value of the Go interface `QueryOperator`: its dynamic type and its
      integer. Two such values are equal only when both agree, so the
      numeric EQUAL is not the textual CONTAINS although both hold 0. */
  datatype QueryOperator =
    | Numeric(no: NumericOperator)
    | Textual(so: StringOperator)
    | Order(dir: SortOperator)

  predicate Named(q: QueryOperator)
  {
    match q
    case Numeric(no) => IsNumeric(no)
    case Textual(so) => IsString(so)
    case Order(dir) => IsSort(dir)
  }

  /** `op()` dispatched on the dynamic type. */
  function Op(q: QueryOperator): (s: string)
    ensures s != "" <==> Named(q)
    ensures Unmarked(s)
  {
    match q
    case Numeric(no) => NumericOp(no)
    case Textual(so) => StringOp(so)
    case Order(dir) => SortOp(dir)
  }

  /** `operator == CONTAINS || operator == NOT_CONTAINS`: true only for a
      string operator holding one of the two substring values. */
  predicate Wraps(q: QueryOperator)
  {
    q == Textual(CONTAINS) || q == Textual(NOT_CONTAINS)
  }

  /** The operand a FilterBy* closure writes: inside `%…%` when the
      operator matches by substring, as given otherwise. */
  function Wrapped(v: string, q: QueryOperator): (r: string)
    ensures Wraps(q) ==> |r| == |v| + 2 && r[0] == '%' && r[|r| - 1] == '%' && r[1..|v| + 1] == v
    ensures !Wraps(q) ==> r == v
    ensures Free(v) ==> Free(r)
  {
    PatternFreeWhen(v);
    if Wraps(q) then Pattern(v) else v
  }

  lemma PatternFreeWhen(v: string)
    ensures Free(v) ==> Free(Pattern(v))
  {
    if Free(v) {
      PatternFree(v);
    }
  }

  /** Every field label is unmarked text. */
  lemma FieldLabelUnmarked(f: LogField)
    ensures Unmarked(FieldLabel(f))
  {
  }

  lemma QuotedIsoWhen(column: string, op: string, w: string)
    requires Unmarked(column) && Unmarked(op)
    ensures Free(w) ==> Iso(Compare(column, op, Quote(w))) && Compare(column, op, Quote(w)) != ""
  {
    if Free(w) {
      QuotedIso(column, op, w);
    }
  }

  // ---------------------------------------------------------------------
  // FilterBy* and SortBy*, as one option value means them
  // (types.go:255-352)

  /** A filter `label op 'operand'` on a text field, with the operand
      wrapped once when the operator matches by substring. Marker-free
      operands give an option the clause model places. */
  function TextFilter(field: LogField, v: string, operator: QueryOperator): (r: Config)
    ensures PredicateOf(r) == [Compare(FieldLabel(field), Op(operator), Quote(Wrapped(v, operator)))]
    ensures Free(v) ==> Simple(r)
    ensures (var k := |FieldLabel(field)| + |Op(operator)| + 3;
      PredicateOf(r)[0][k..k + |Wrapped(v, operator)|] == Wrapped(v, operator))
  {
    var name := FieldLabel(field);
    var w := Wrapped(v, operator);
    FieldLabelUnmarked(field);
    QuotedIsoWhen(name, Op(operator), w);
    CompareOperand(name, Op(operator), Quote(w));
    assert Quote(w)[1..|w| + 1] == w;
    Filter(Write(Compare(name, Op(operator), Quote(w))))
  }

  /** `FilterByLevel`: `level = n`. */
  function FilterByLevel(level: LogLevel): (r: Config)
    ensures Simple(r) && PredicateOf(r) == [Compare(FieldLabel(Level), "=", Decimal(level))]
    ensures ParseDecimal(PredicateOf(r)[0][8..]) == Some(level)
  {
    FieldLabelUnmarked(Level);
    Queries.NumberFilter(FieldLabel(Level), "=", level)
  }

  /** `FilterByContext`: a condition on the `tags` label. */
  function FilterByContext(context: string, operator: StringOperator): (r: Config)
    ensures PredicateOf(r) == [Compare(FieldLabel(Tags), StringOp(operator), Quote(Wrapped(context, Textual(operator))))]
    ensures Free(context) ==> Simple(r)
  {
    TextFilter(Tags, context, Textual(operator))
  }

  /** `FilterByCallerFile`. */
  function FilterByCallerFile(file: string, operator: StringOperator): (r: Config)
    ensures PredicateOf(r) == [Compare(FieldLabel(CallerFile), StringOp(operator), Quote(Wrapped(file, Textual(operator))))]
    ensures Free(file) ==> Simple(r)
  {
    TextFilter(CallerFile, file, Textual(operator))
  }

  /** `FilterByCallerLine`: `caller_line op n`. */
  function FilterByCallerLine(line: int, operator: NumericOperator): (r: Config)
    ensures Simple(r) && PredicateOf(r) == [Compare(FieldLabel(CallerLine), NumericOp(operator), Decimal(line))]
    ensures ParseDecimal(PredicateOf(r)[0][|FieldLabel(CallerLine)| + |NumericOp(operator)| + 2..]) == Some(line)
  {
    FieldLabelUnmarked(CallerLine);
    Queries.NumberFilter(FieldLabel(CallerLine), NumericOp(operator), line)
  }

  /** `FilterByCallerFunction`. */
  function FilterByCallerFunction(function_: string, operator: StringOperator): (r: Config)
    ensures PredicateOf(r) == [Compare(FieldLabel(CallerFunction), StringOp(operator), Quote(Wrapped(function_, Textual(operator))))]
    ensures Free(function_) ==> Simple(r)
  {
    TextFilter(CallerFunction, function_, Textual(operator))
  }

  /** `FilterByMessage`. */
  function FilterByMessage(message: string, operator: StringOperator): (r: Config)
    ensures PredicateOf(r) == [Compare(FieldLabel(Message), StringOp(operator), Quote(Wrapped(message, Textual(operator))))]
    ensures Free(message) ==> Simple(r)
  {
    TextFilter(Message, message, Textual(operator))
  }

  /** `FilterByTimestamp`: the operator is any `QueryOperator`, and only the
      two substring string operators wrap the text; a numeric operator,
      EQUAL included, never does. */
  function FilterByTimestamp(timestamp: string, operator: QueryOperator): (r: Config)
    ensures PredicateOf(r) == [Compare(FieldLabel(Timestamp), Op(operator), Quote(Wrapped(timestamp, operator)))]
    ensures Free(timestamp) ==> Simple(r)
    ensures operator.Numeric? ==> PredicateOf(r) == [Compare(FieldLabel(Timestamp), NumericOp(operator.no), Quote(timestamp))]
  {
    TextFilter(Timestamp, timestamp, operator)
  }

  /** A sort `label dir`: the key names its field and reads back as the
      direction asked for. */
  function FieldSort(field: LogField, order: SortOperator): (r: Config)
    ensures Simple(r) && SortKeyOf(r) == [Ordered(FieldLabel(field), SortOp(order))]
    ensures IsSort(order) ==> SortOperatorOf(SortKeyOf(r)[0][|FieldLabel(field)| + 1..]) == Some(order)
    ensures IsField(field) ==> FieldOf(SortKeyOf(r)[0][..|FieldLabel(field)|]) == Some(field)
  {
    var name := FieldLabel(field);
    FieldLabelUnmarked(field);
    OrderedIso(name, SortOp(order));
    assert Ordered(name, SortOp(order)) == name + " " + SortOp(order);
    assert Ordered(name, SortOp(order))[..|name|] == name;
    assert Ordered(name, SortOp(order))[|name| + 1..] == SortOp(order);
    Sort(Write(Ordered(name, SortOp(order))))
  }

  function SortByLevel(order: SortOperator): (r: Config)
    ensures Simple(r) && SortKeyOf(r) == [Ordered(FieldLabel(Level), SortOp(order))]
  {
    FieldSort(Level, order)
  }

  function SortByContext(order: SortOperator): (r: Config)
    ensures Simple(r) && SortKeyOf(r) == [Ordered(FieldLabel(Tags), SortOp(order))]
  {
    FieldSort(Tags, order)
  }

  function SortByCallerFile(order: SortOperator): (r: Config)
    ensures Simple(r) && SortKeyOf(r) == [Ordered(FieldLabel(CallerFile), SortOp(order))]
  {
    FieldSort(CallerFile, order)
  }

  function SortByCallerLine(order: SortOperator): (r: Config)
    ensures Simple(r) && SortKeyOf(r) == [Ordered(FieldLabel(CallerLine), SortOp(order))]
  {
    FieldSort(CallerLine, order)
  }

  function SortByCallerFunction(order: SortOperator): (r: Config)
    ensures Simple(r) && SortKeyOf(r) == [Ordered(FieldLabel(CallerFunction), SortOp(order))]
  {
    FieldSort(CallerFunction, order)
  }

  function SortByMessage(order: SortOperator): (r: Config)
    ensures Simple(r) && SortKeyOf(r) == [Ordered(FieldLabel(Message), SortOp(order))]
  {
    FieldSort(Message, order)
  }

  function SortByTimestamp(order: SortOperator): (r: Config)
    ensures Simple(r) && SortKeyOf(r) == [Ordered(FieldLabel(Timestamp), SortOp(order))]
  {
    FieldSort(Timestamp, order)
  }

  /** One option value of the corrected kind, applied twice to the seeded
      statement, adds the same predicate twice. */
  lemma TextFilterReapplies(field: LogField, v: string, operator: QueryOperator)
    requires Free(v)
    ensures (var p := Compare(FieldLabel(field), Op(operator), Quote(Wrapped(v, operator)));
      ApplyAll([TextFilter(field, v, operator), TextFilter(field, v, operator)], DefaultQuery) ==
      Render(Spec([p, p], [], "")))
  {
    var c := TextFilter(field, v, operator);
    var p := Appended(c.inner).value;
    var e := Spec([], [], "");
    RenderEmpty();
    ValidEmpty();
    StepRenders(e, c);
    StepRenders(Step(e, c), c);
    assert Step(Step(e, c), c) == Spec([p, p], [], "");
    assert ApplyAll([c, c], DefaultQuery) == ApplyAll([c], Eval(c, DefaultQuery));
    assert ApplyAll([c], Eval(c, DefaultQuery)) == ApplyAll([], Eval(c, Eval(c, DefaultQuery)));
  }

  // ---------------------------------------------------------------------
  // The closures as written: a captured, reassigned operand
  // (types.go:261-310)

  /** A FilterBy* option value on a text field as the Go closure is: the
      field and the operator are fixed when the option is built, the
      operand is a captured variable the closure reassigns. */
  class CapturedFilter {
    const field: LogField
    const operator: QueryOperator
    var operand: string

    constructor (field: LogField, operand: string, operator: QueryOperator)
      ensures this.field == field && this.operand == operand && this.operator == operator
    {
      this.field := field;
      this.operand := operand;
      this.operator := operator;
    }

    /** The inner closure: re-wrap the captured operand when the operator
      matches by substring, keep the result, and write the predicate. */
    method WriteFragment(sb: Builder)
      modifies this, sb
      ensures operand == Wrapped(old(operand), operator)
      ensures sb.buf == old(sb.buf) + Compare(FieldLabel(field), Op(operator), Quote(operand))
    {
      if operator == Textual(CONTAINS) || operator == Textual(NOT_CONTAINS) {
        operand := "%" + operand + "%";
      }
      sb.WriteString(Compare(FieldLabel(field), Op(operator), Quote(operand)));
    }

    /** One call of the option: prepareFilter around the inner closure. It
      writes what the corrected option for the CURRENT operand writes, and
      leaves the operand wrapped once more. */
    method Apply(sb: Builder)
      modifies this, sb
      ensures operand == Wrapped(old(operand), operator)
      ensures sb.buf == Eval(TextFilter(field, old(operand), operator), old(sb.buf))
    {
      var order, limit := FilterPrologue(sb);
      WriteFragment(sb);
      FilterEpilogue(sb, order, limit);
    }
  }

  /** The same substring option value used for two statements: the first
      filters on `'%v%'`, the second on `'%%v%%'`. */
  method ReappliedOption(v: string) returns (first: string, second: string)
    requires Free(v)
    ensures first == Render(Spec([Compare(FieldLabel(Message), "LIKE", Quote(Pattern(v)))], [], ""))
    ensures second == Render(Spec([Compare(FieldLabel(Message), "LIKE", Quote(Pattern(Pattern(v))))], [], ""))
    ensures first != second
  {
    var option := new CapturedFilter(Message, v, Textual(CONTAINS));
    var sb := new Builder();
    sb.WriteString(DefaultQuery);
    option.Apply(sb);
    first := sb.buf;
    sb.Reset();
    sb.WriteString(DefaultQuery);
    option.Apply(sb);
    second := sb.buf;
    PatternFree(v);
    RenderEmpty();
    ValidEmpty();
    FilterAppends(Spec([], [], ""), TextFilter(Message, v, Textual(CONTAINS)).inner);
    FilterAppends(Spec([], [], ""), TextFilter(Message, Pattern(v), Textual(CONTAINS)).inner);
    assert |Quote(Pattern(Pattern(v)))| == |Quote(Pattern(v))| + 2;
    assert |second| == |first| + 2;
  }
}
