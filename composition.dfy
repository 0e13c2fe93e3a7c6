/** What the engine's options do to a statement they composed themselves: a
    statement is the default query followed by an optional WHERE clause (the
    predicates joined by `" AND "`), an optional ORDER BY clause (the sort keys
    joined by `", "`) and an optional LIMIT clause, and every option turns one
    such statement into another. */
module Composition {
  import opened Wrappers
  import opened Strings
  import opened Markers
  import opened Engine

  /** The clauses of a composed statement. An empty `limit` means no LIMIT
      clause. */
  datatype Spec = Spec(preds: seq<string>, sorts: seq<string>, limit: string)

  /** The statement text of a clause list: SELECT … WHERE … ORDER BY … LIMIT …,
      each clause present only when it has content. */
  function Render(spec: Spec): string
  {
    DefaultQuery + Clause(Where, Join(spec.preds, " AND ")) +
    Clause(OrderBy, Join(spec.sorts, ", ")) + Clause(LimitMarker, spec.limit)
  }

  /** A predicate, sort key or limit body that is non-empty and that no
      separator around it can turn into a marker. */
  ghost predicate Operand(x: string)
  {
    x != "" && Iso(x)
  }

  ghost predicate Valid(spec: Spec)
  {
    (forall i :: 0 <= i < |spec.preds| ==> Operand(spec.preds[i])) &&
    (forall i :: 0 <= i < |spec.sorts| ==> Operand(spec.sorts[i])) &&
    Iso(spec.limit)
  }

  /** The text an option only appends, for the options that only append. */
  function Appended(c: Config): Option<string>
  {
    match c
    case Write(text) => Some(text)
    case Custom(query) => Some(" " + query)
    case AnyTag(tag, tags) => Some(TagsWritten(tags + [tag], |tags|, |tags| + 1))
    case _ => None
  }

  lemma AppendedEval(c: Config, s: string)
    requires Appended(c).Some?
    ensures Eval(c, s) == s + Appended(c).value
  {
  }

  /** The options whose effect the clause model describes: a filter or a sort
      whose inner option appends an operand, and any limit. */
  ghost predicate Simple(c: Config)
  {
    match c
    case Filter(inner) => Appended(inner).Some? && Operand(Appended(inner).value)
    case Sort(inner) => Appended(inner).Some? && Operand(Appended(inner).value)
    case Limit(_) => true
    case _ => false
  }

  ghost predicate AllSimple(cs: seq<Config>)
  {
    forall i :: 0 <= i < |cs| ==> Simple(cs[i])
  }

  /** The clause list after one simple option. */
  function Step(spec: Spec, c: Config): Spec
  {
    match c
    case Filter(inner) =>
      if Appended(inner).Some? then Spec(spec.preds + [Appended(inner).value], spec.sorts, spec.limit) else spec
    case Sort(inner) =>
      if Appended(inner).Some? then Spec(spec.preds, spec.sorts + [Appended(inner).value], spec.limit) else spec
    case Limit(args) =>
      if |args| == 0 then spec else Spec(spec.preds, spec.sorts, LimitBody(args))
    case _ => spec
  }

  /** Applying options one after another, in order, as the driver's loop
      does. */
  function ApplyAll(cs: seq<Config>, s: string): string
    decreases |cs|
  {
    if |cs| == 0 then s else ApplyAll(cs[1..], Eval(cs[0], s))
  }

  function Fold(spec: Spec, cs: seq<Config>): Spec
    decreases |cs|
  {
    if |cs| == 0 then spec else Fold(Step(spec, cs[0]), cs[1..])
  }

  // ---------------------------------------------------------------------
  // Joins of isolated operands are isolated.

  lemma JoinSnoc(xs: seq<string>, x: string, sep: string)
    requires |xs| > 0
    ensures Join(xs + [x], sep) == Join(xs, sep) + sep + x
  {
    assert (xs + [x])[..|xs|] == xs;
  }

  lemma JoinNonEmpty(xs: seq<string>, sep: string)
    requires forall i :: 0 <= i < |xs| ==> xs[i] != ""
    ensures Join(xs, sep) == "" <==> |xs| == 0
  {
  }

  lemma IsoAnd(a: string, b: string)
    requires Iso(a) && Iso(b)
    ensures Iso(a + " AND " + b)
  {
    assert " " + (b + " ") == " " + b + " ";
    forall m | IsMarker(m) ensures Absent(" " + a + " AND " + b + " ", m) {
      AndSepOk(m);
      SepGlue(" " + a, " AND ", b + " ", m);
      assert " " + a + " AND " + (b + " ") == " " + a + " AND " + b + " ";
    }
    assert " " + (a + " AND " + b) + " " == " " + a + " AND " + b + " ";
  }

  lemma IsoComma(a: string, b: string)
    requires Iso(a) && Iso(b)
    ensures Iso(a + ", " + b)
  {
    FreeParts(" " + a, " ");
    ShortFree(",");
    Junction(" " + a, ",");
    Junction(" " + a + ",", " " + b + " ");
    assert " " + a + "," + (" " + b + " ") == " " + (a + ", " + b) + " ";
  }

  lemma {:induction false} IsoJoin(xs: seq<string>, sep: string)
    requires sep == " AND " || sep == ", "
    requires forall i :: 0 <= i < |xs| ==> Iso(xs[i])
    ensures Iso(Join(xs, sep))
    decreases |xs|
  {
    if |xs| == 0 {
      ShortFree("  ");
    } else if |xs| > 1 {
      var init := xs[..|xs| - 1];
      IsoJoin(init, sep);
      if sep == " AND " {
        IsoAnd(Join(init, sep), xs[|xs| - 1]);
      } else {
        IsoComma(Join(init, sep), xs[|xs| - 1]);
      }
    }
  }

  /** Every LIMIT body the engine writes is isolated: it holds digits, minus
      signs and at most the word OFFSET. */
  lemma LimitBodyIso(args: seq<int>)
    requires |args| > 0
    ensures Operand(LimitBody(args))
  {
    var d := Decimal(args[0]);
    DecimalPlain(d);
    if |args| > 1 {
      var e := Decimal(args[1]);
      DecimalPlain(e);
      OffsetIso(d, e);
    }
  }

  lemma OffsetIso(d: string, e: string)
    requires Free(" " + d) && |d| > 0 && !MarkerChar(d[|d| - 1])
    requires Free(e) && |e| > 0 && !MarkerChar(e[0]) && !MarkerChar(e[|e| - 1])
    ensures Iso(d + " OFFSET " + e)
  {
    ShortFree(" ");
    WordAfter(" ", "OFFSET ");
    assert " " + "OFFSET " == " OFFSET ";
    ShortFree(" ");
    Junction(e, " ");
    assert (e + " ")[0] == e[0];
    Junction(" OFFSET ", e + " ");
    Junction(" " + d, " OFFSET " + (e + " "));
    assert " " + d + (" OFFSET " + (e + " ")) == " " + (d + " OFFSET " + e) + " ";
  }

  lemma DecimalPlain(d: string)
    requires |d| >= 1 && forall k :: 0 <= k < |d| ==> d[k] == '-' || '0' <= d[k] <= '9'
    ensures Iso(d) && Free(d) && Free(" " + d) && !MarkerChar(d[0]) && !MarkerChar(d[|d| - 1])
  {
    PlainIso(d);
    FreeParts(" " + d, " ");
  }

  // ---------------------------------------------------------------------
  // Where the markers of a rendered statement are.

  lemma DefaultSealed(m: string)
    requires IsMarker(m)
    ensures Sealed(DefaultQuery, m)
  {
    DefaultQueryFree();
    ShortFree(" ");
    Junction(DefaultQuery, " ");
  }

  /** A clause with a different marker keeps `m` out. */
  lemma SealedClause(x: string, n: string, y: string, m: string)
    requires IsMarker(n) && IsMarker(m) && n != m && Sealed(x, m) && Iso(y)
    ensures Sealed(x + Clause(n, y), m)
  {
    if y != "" {
      MarkerSepOk(n, m);
      SealedGlue(x, n, y, m);
      assert x + (n + y) == x + n + y;
    } else {
      assert x + "" == x;
    }
  }

  /** `strings.Split` on the single `m` written between `x` and `y`. */
  lemma Cut(x: string, m: string, y: string)
    requires IsMarker(m) && Sealed(x, m) && Absent(y, m)
    ensures Contains(x + m + y, m)
    ensures Before(x + m + y, m) == x && After(x + m + y, m) == y
  {
    SplitOnce(x, m, y);
  }

  lemma LayoutLimit(h: string, c: string)
    requires Sealed(h, LimitMarker) && Iso(c)
    ensures c != "" ==> Contains(h + Clause(LimitMarker, c), LimitMarker)
    ensures c != "" ==>
      Before(h + Clause(LimitMarker, c), LimitMarker) == h && After(h + Clause(LimitMarker, c), LimitMarker) == c
    ensures c == "" ==> !Contains(h + Clause(LimitMarker, c), LimitMarker)
  {
    if c != "" {
      IsoSealed(c, LimitMarker);
      Cut(h, LimitMarker, c);
      assert h + Clause(LimitMarker, c) == h + LimitMarker + c;
    } else {
      SealedAbsent(h, LimitMarker);
      assert h + "" == h;
    }
  }

  lemma TailOrder(o: string, c: string)
    requires Iso(o) && Iso(c) && o != ""
    ensures OrderTail(o + Clause(LimitMarker, c)) == (o, c)
  {
    IsoSealed(o, LimitMarker);
    if c != "" {
      LayoutLimit(o, c);
    } else {
      assert o + Clause(LimitMarker, c) == o;
      SealedAbsent(o, LimitMarker);
    }
  }

  lemma TailWhere(p: string, o: string, c: string)
    requires Iso(p) && Iso(o) && Iso(c) && p != ""
    ensures WhereTail(p + Clause(OrderBy, o) + Clause(LimitMarker, c)) == (p, o, c)
  {
    var t := p + Clause(OrderBy, o) + Clause(LimitMarker, c);
    IsoSealed(p, OrderBy);
    if o != "" {
      IsoSealed(o, OrderBy);
      SealedClause(o, LimitMarker, c, OrderBy);
      SealedAbsent(o + Clause(LimitMarker, c), OrderBy);
      Cut(p, OrderBy, o + Clause(LimitMarker, c));
      assert t == p + OrderBy + (o + Clause(LimitMarker, c));
      TailOrder(o, c);
    } else {
      assert t == p + Clause(LimitMarker, c);
      SealedClause(p, LimitMarker, c, OrderBy);
      SealedAbsent(t, OrderBy);
      IsoSealed(p, LimitMarker);
      if c != "" {
        LayoutLimit(p, c);
      } else {
        assert t == p;
        SealedAbsent(p, LimitMarker);
      }
    }
  }

  /** The three clause bodies of a valid clause list are isolated, and each
      is empty exactly when its clause is absent. */
  lemma Bodies(spec: Spec)
    requires Valid(spec)
    ensures Iso(Join(spec.preds, " AND ")) && Iso(Join(spec.sorts, ", ")) && Iso(spec.limit)
    ensures Join(spec.preds, " AND ") == "" <==> |spec.preds| == 0
    ensures Join(spec.sorts, ", ") == "" <==> |spec.sorts| == 0
  {
    IsoJoin(spec.preds, " AND ");
    IsoJoin(spec.sorts, ", ");
    JoinNonEmpty(spec.preds, " AND ");
    JoinNonEmpty(spec.sorts, ", ");
  }

  /** prepareFilter on a statement with a WHERE clause. */
  lemma FilterPartsWhere(p: string, o: string, c: string)
    requires Iso(p) && Iso(o) && Iso(c) && p != ""
    ensures FilterParts(DefaultQuery + Clause(Where, p) + Clause(OrderBy, o) + Clause(LimitMarker, c)) ==
      Parts(DefaultQuery + Where + p + " AND ", o, c)
  {
    var t := p + Clause(OrderBy, o) + Clause(LimitMarker, c);
    assert DefaultQuery + Clause(Where, p) + Clause(OrderBy, o) + Clause(LimitMarker, c) == DefaultQuery + Where + t;
    IsoSealed(p, Where);
    SealedClause(p, OrderBy, o, Where);
    SealedClause(p + Clause(OrderBy, o), LimitMarker, c, Where);
    SealedAbsent(t, Where);
    DefaultSealed(Where);
    Cut(DefaultQuery, Where, t);
    TailWhere(p, o, c);
  }

  /** prepareFilter on a statement without WHERE but with ORDER BY. */
  lemma FilterPartsOrder(o: string, c: string)
    requires Iso(o) && Iso(c) && o != ""
    ensures FilterParts(DefaultQuery + OrderBy + o + Clause(LimitMarker, c)) == Parts(DefaultQuery + Where, o, c)
  {
    var t := o + Clause(LimitMarker, c);
    var s := DefaultQuery + OrderBy + o + Clause(LimitMarker, c);
    assert s == DefaultQuery + OrderBy + t;
    assert s == DefaultQuery + Clause(OrderBy, o) + Clause(LimitMarker, c);
    DefaultSealed(Where);
    SealedClause(DefaultQuery, OrderBy, o, Where);
    SealedClause(DefaultQuery + Clause(OrderBy, o), LimitMarker, c, Where);
    SealedAbsent(s, Where);
    DefaultSealed(OrderBy);
    IsoSealed(o, OrderBy);
    SealedClause(o, LimitMarker, c, OrderBy);
    SealedAbsent(t, OrderBy);
    Cut(DefaultQuery, OrderBy, t);
    TailOrder(o, c);
  }

  /** prepareFilter on a statement with neither WHERE nor ORDER BY. */
  lemma FilterPartsLimit(c: string)
    requires Iso(c)
    ensures FilterParts(DefaultQuery + Clause(LimitMarker, c)) == Parts(DefaultQuery + Where, "", c)
  {
    var s := DefaultQuery + Clause(LimitMarker, c);
    DefaultSealed(Where);
    SealedClause(DefaultQuery, LimitMarker, c, Where);
    SealedAbsent(s, Where);
    DefaultSealed(OrderBy);
    SealedClause(DefaultQuery, LimitMarker, c, OrderBy);
    SealedAbsent(s, OrderBy);
    DefaultSealed(LimitMarker);
    LayoutLimit(DefaultQuery, c);
    if c == "" {
      assert s == DefaultQuery;
    }
  }

  /** prepareSort on a statement with an ORDER BY clause. */
  lemma SortPartsOrder(h: string, o: string, c: string)
    requires Sealed(h, OrderBy) && Iso(o) && Iso(c) && o != ""
    ensures SortParts(h + OrderBy + o + Clause(LimitMarker, c)) == (h + OrderBy + o + ", ", c)
  {
    var t := o + Clause(LimitMarker, c);
    assert h + OrderBy + o + Clause(LimitMarker, c) == h + OrderBy + t;
    IsoSealed(o, OrderBy);
    SealedClause(o, LimitMarker, c, OrderBy);
    SealedAbsent(t, OrderBy);
    Cut(h, OrderBy, t);
    TailOrder(o, c);
  }

  /** prepareSort on a statement without ORDER BY. */
  lemma SortPartsNoOrder(h: string, c: string)
    requires Sealed(h, OrderBy) && Sealed(h, LimitMarker) && Iso(c) && h != ""
    ensures SortParts(h + Clause(LimitMarker, c)) == (h + OrderBy, c)
  {
    var s := h + Clause(LimitMarker, c);
    SealedClause(h, LimitMarker, c, OrderBy);
    SealedAbsent(s, OrderBy);
    LayoutLimit(h, c);
    if c == "" {
      assert s == h;
    }
  }

  /** What AddLimit keeps of a rendered statement: everything before its
      LIMIT clause. */
  lemma RenderLimitBase(spec: Spec)
    requires Valid(spec)
    ensures LimitBase(Render(spec)) ==
      DefaultQuery + Clause(Where, Join(spec.preds, " AND ")) + Clause(OrderBy, Join(spec.sorts, ", "))
  {
    var p, o, c := Join(spec.preds, " AND "), Join(spec.sorts, ", "), spec.limit;
    Bodies(spec);
    var h := DefaultQuery + Clause(Where, p) + Clause(OrderBy, o);
    DefaultSealed(LimitMarker);
    SealedClause(DefaultQuery, Where, p, LimitMarker);
    SealedClause(DefaultQuery + Clause(Where, p), OrderBy, o, LimitMarker);
    LayoutLimit(h, c);
  }

  // ---------------------------------------------------------------------
  // The ordering theorems.

  lemma Regroup(a: string, b: string, c: string, d: string, e: string)
    ensures a + b + c + d + e == a + (b + (c + d + e))
  {
  }

  /** `x` added to a clause body with `sep`. */
  function Joined(body: string, sep: string, x: string): string
  {
    if body == "" then x else body + sep + x
  }

  lemma JoinedJoin(xs: seq<string>, sep: string, x: string)
    requires forall i :: 0 <= i < |xs| ==> xs[i] != ""
    ensures Join(xs + [x], sep) == Joined(Join(xs, sep), sep, x)
  {
    JoinNonEmpty(xs, sep);
    if |xs| > 0 {
      JoinSnoc(xs, x, sep);
    } else {
      assert xs + [x] == [x];
    }
  }

  /** A filter whose inner option appends `x`, on the clause bodies `p`,
      `o`, `c`: `x` joins the WHERE body, the other clauses stay behind it. */
  lemma FilterText(inner: Config, p: string, o: string, c: string)
    requires Appended(inner).Some? && Appended(inner).value != "" && Iso(p) && Iso(o) && Iso(c)
    ensures
      var x := Appended(inner).value;
      Eval(Filter(inner), DefaultQuery + Clause(Where, p) + Clause(OrderBy, o) + Clause(LimitMarker, c)) ==
        DefaultQuery + Clause(Where, Joined(p, " AND ", x)) + Clause(OrderBy, o) + Clause(LimitMarker, c)
  {
    if p != "" {
      FilterTextAnd(inner, p, o, c);
    } else {
      FilterTextWhere(inner, o, c);
    }
  }

  lemma FilterTextAnd(inner: Config, p: string, o: string, c: string)
    requires Appended(inner).Some? && Iso(p) && Iso(o) && Iso(c) && p != ""
    ensures
      var x := Appended(inner).value;
      Eval(Filter(inner), DefaultQuery + Clause(Where, p) + Clause(OrderBy, o) + Clause(LimitMarker, c)) ==
        DefaultQuery + Clause(Where, Joined(p, " AND ", x)) + Clause(OrderBy, o) + Clause(LimitMarker, c)
  {
    var x := Appended(inner).value;
    var head := DefaultQuery + Where + p + " AND ";
    FilterPartsWhere(p, o, c);
    AppendedEval(inner, head);
    Regroup(DefaultQuery, Where, p, " AND ", x);
    assert Clause(Where, Joined(p, " AND ", x)) == Where + (p + " AND " + x);
  }

  lemma FilterTextWhere(inner: Config, o: string, c: string)
    requires Appended(inner).Some? && Appended(inner).value != "" && Iso(o) && Iso(c)
    ensures
      var x := Appended(inner).value;
      Eval(Filter(inner), DefaultQuery + Clause(Where, "") + Clause(OrderBy, o) + Clause(LimitMarker, c)) ==
        DefaultQuery + Clause(Where, Joined("", " AND ", x)) + Clause(OrderBy, o) + Clause(LimitMarker, c)
  {
    var x := Appended(inner).value;
    var s := DefaultQuery + Clause(OrderBy, o) + Clause(LimitMarker, c);
    assert DefaultQuery + Clause(Where, "") == DefaultQuery + "" == DefaultQuery;
    assert DefaultQuery + Clause(Where, Joined("", " AND ", x)) == DefaultQuery + Where + x;
    if o != "" {
      assert s == DefaultQuery + OrderBy + o + Clause(LimitMarker, c);
      FilterPartsOrder(o, c);
    } else {
      assert s == DefaultQuery + Clause(LimitMarker, c);
      FilterPartsLimit(c);
    }
    AppendedEval(inner, DefaultQuery + Where);
  }

  /** A sort whose inner option appends `x`: `x` joins the end of the ORDER BY
      body, the LIMIT clause stays behind it. */
  lemma SortText(inner: Config, p: string, o: string, c: string)
    requires Appended(inner).Some? && Appended(inner).value != "" && Iso(p) && Iso(o) && Iso(c)
    ensures
      var x := Appended(inner).value;
      Eval(Sort(inner), DefaultQuery + Clause(Where, p) + Clause(OrderBy, o) + Clause(LimitMarker, c)) ==
        DefaultQuery + Clause(Where, p) + Clause(OrderBy, Joined(o, ", ", x)) + Clause(LimitMarker, c)
  {
    var x := Appended(inner).value;
    var h := DefaultQuery + Clause(Where, p);
    var s := h + Clause(OrderBy, o) + Clause(LimitMarker, c);
    DefaultSealed(OrderBy);
    DefaultSealed(LimitMarker);
    SealedClause(DefaultQuery, Where, p, OrderBy);
    SealedClause(DefaultQuery, Where, p, LimitMarker);
    var head: string;
    if o != "" {
      assert s == h + OrderBy + o + Clause(LimitMarker, c);
      SortPartsOrder(h, o, c);
      head := h + OrderBy + o + ", ";
      Regroup(h, OrderBy, o, ", ", x);
      assert Clause(OrderBy, Joined(o, ", ", x)) == OrderBy + (o + ", " + x);
      assert head + x == h + Clause(OrderBy, Joined(o, ", ", x));
    } else {
      assert s == h + Clause(LimitMarker, c);
      SortPartsNoOrder(h, c);
      head := h + OrderBy;
      assert Clause(OrderBy, Joined(o, ", ", x)) == OrderBy + x;
      assert head + x == h + Clause(OrderBy, Joined(o, ", ", x));
    }
    assert SortParts(s) == (head, c);
    AppendedEval(inner, head);
  }

  /** A filter adds its predicate to the WHERE clause: after WHERE when there
      was none, after AND otherwise, with the ORDER BY and LIMIT clauses
      still behind it. */
  lemma FilterAppends(spec: Spec, inner: Config)
    requires Valid(spec) && Simple(Filter(inner))
    ensures Eval(Filter(inner), Render(spec)) ==
      Render(Spec(spec.preds + [Appended(inner).value], spec.sorts, spec.limit))
  {
    Bodies(spec);
    FilterText(inner, Join(spec.preds, " AND "), Join(spec.sorts, ", "), spec.limit);
    JoinedJoin(spec.preds, " AND ", Appended(inner).value);
  }

  /** A sort adds its key to the end of the ORDER BY list, before any LIMIT
      clause. */
  lemma SortAppends(spec: Spec, inner: Config)
    requires Valid(spec) && Simple(Sort(inner))
    ensures Eval(Sort(inner), Render(spec)) ==
      Render(Spec(spec.preds, spec.sorts + [Appended(inner).value], spec.limit))
  {
    Bodies(spec);
    SortText(inner, Join(spec.preds, " AND "), Join(spec.sorts, ", "), spec.limit);
    JoinedJoin(spec.sorts, ", ", Appended(inner).value);
  }

  /** AddLimit with arguments replaces any LIMIT clause (the last limit
      wins); with none it changes nothing. */
  lemma LimitReplaces(spec: Spec, args: seq<int>)
    requires Valid(spec)
    ensures |args| == 0 ==> Eval(Limit(args), Render(spec)) == Render(spec)
    ensures |args| > 0 ==> Eval(Limit(args), Render(spec)) == Render(Spec(spec.preds, spec.sorts, LimitBody(args)))
  {
    if |args| > 0 {
      RenderLimitBase(spec);
      LimitBodyIso(args);
    }
  }

  /** Every simple option keeps the clause list valid. */
  lemma StepValid(spec: Spec, c: Config)
    requires Valid(spec) && Simple(c)
    ensures Valid(Step(spec, c))
  {
    if c.Limit? && |c.limitAndOffset| > 0 {
      LimitBodyIso(c.limitAndOffset);
    }
  }

  lemma StepRenders(spec: Spec, c: Config)
    requires Valid(spec) && Simple(c)
    ensures Eval(c, Render(spec)) == Render(Step(spec, c)) && Valid(Step(spec, c))
  {
    StepValid(spec, c);
    match c
    case Filter(inner) => FilterAppends(spec, inner);
    case Sort(inner) => SortAppends(spec, inner);
    case Limit(args) => LimitReplaces(spec, args);
  }

  /** Applying simple options one after another to a rendered statement
      renders the clause list they build. */
  lemma {:induction false} ApplyAllRenders(spec: Spec, cs: seq<Config>)
    requires Valid(spec) && AllSimple(cs)
    ensures ApplyAll(cs, Render(spec)) == Render(Fold(spec, cs))
    ensures Valid(Fold(spec, cs))
    decreases |cs|
  {
    if |cs| > 0 {
      StepRenders(spec, cs[0]);
      ApplyAllRenders(Step(spec, cs[0]), cs[1..]);
    }
  }

  // ---------------------------------------------------------------------
  // Per-kind projections: only the order among options of one kind matters.

  /** The predicate a filter option adds, if any. */
  function PredicateOf(c: Config): seq<string>
  {
    if c.Filter? && Appended(c.inner).Some? then [Appended(c.inner).value] else []
  }

  /** The sort key a sort option adds, if any. */
  function SortKeyOf(c: Config): seq<string>
  {
    if c.Sort? && Appended(c.inner).Some? then [Appended(c.inner).value] else []
  }

  /** The LIMIT body after `c`, given the one before. */
  function LimitAfter(c: Config, limit: string): string
  {
    if c.Limit? && |c.limitAndOffset| > 0 then LimitBody(c.limitAndOffset) else limit
  }

  /** The predicates of the filters among `cs`, in call order. */
  function Predicates(cs: seq<Config>): seq<string>
    decreases |cs|
  {
    if |cs| == 0 then [] else PredicateOf(cs[0]) + Predicates(cs[1..])
  }

  /** The keys of the sorts among `cs`, in call order. */
  function SortKeys(cs: seq<Config>): seq<string>
    decreases |cs|
  {
    if |cs| == 0 then [] else SortKeyOf(cs[0]) + SortKeys(cs[1..])
  }

  /** The body of the last AddLimit with arguments among `cs`, or `limit`
      when there is none. */
  function LastLimit(cs: seq<Config>, limit: string): string
    decreases |cs|
  {
    if |cs| == 0 then limit else LastLimit(cs[1..], LimitAfter(cs[0], limit))
  }

  lemma SeqAssoc<T>(a: seq<T>, b: seq<T>, c: seq<T>)
    ensures a + b + c == a + (b + c)
  {
  }

  /** One option adds its own predicate, its own sort key and its own
      limit, and nothing else. */
  lemma StepProjects(spec: Spec, c: Config)
    ensures Step(spec, c) == Spec(spec.preds + PredicateOf(c), spec.sorts + SortKeyOf(c), LimitAfter(c, spec.limit))
  {
    assert spec.preds + [] == spec.preds && spec.sorts + [] == spec.sorts;
  }

  /** Filters accumulate in call order, sorts accumulate in call order, and
      the last limit wins. */
  lemma {:induction false} FoldProjects(spec: Spec, cs: seq<Config>)
    ensures Fold(spec, cs) ==
      Spec(spec.preds + Predicates(cs), spec.sorts + SortKeys(cs), LastLimit(cs, spec.limit))
    decreases |cs|
  {
    if |cs| == 0 {
      assert spec.preds + [] == spec.preds && spec.sorts + [] == spec.sorts;
    } else {
      var c, rest := cs[0], cs[1..];
      var next := Spec(spec.preds + PredicateOf(c), spec.sorts + SortKeyOf(c), LimitAfter(c, spec.limit));
      StepProjects(spec, c);
      assert Fold(spec, cs) == Fold(next, rest);
      FoldProjects(next, rest);
      SeqAssoc(spec.preds, PredicateOf(c), Predicates(rest));
      SeqAssoc(spec.sorts, SortKeyOf(c), SortKeys(rest));
    }
  }

  /** No clauses render as the default query. */
  lemma RenderEmpty()
    ensures Render(Spec([], [], "")) == DefaultQuery
  {
    var q := DefaultQuery;
    assert Join([], " AND ") == "" && Join([], ", ") == "";
    assert Clause(Where, "") == "" && Clause(OrderBy, "") == "" && Clause(LimitMarker, "") == "";
    assert q + "" == q;
    assert q + "" + "" + "" == q;
  }

  /** The statement the driver builds from simple options, by clause. */
  lemma StatementByClause(cs: seq<Config>)
    requires AllSimple(cs)
    ensures ApplyAll(cs, DefaultQuery) == Render(Spec(Predicates(cs), SortKeys(cs), LastLimit(cs, "")))
  {
    ApplyAllDefault(cs);
    FoldEmpty(cs);
  }

  lemma ApplyAllDefault(cs: seq<Config>)
    requires AllSimple(cs)
    ensures ApplyAll(cs, DefaultQuery) == Render(Fold(Spec([], [], ""), cs))
  {
    RenderEmpty();
    ValidEmpty();
    ApplyAllRenders(Spec([], [], ""), cs);
  }

  lemma ValidEmpty()
    ensures Valid(Spec([], [], ""))
  {
    ShortFree("  ");
    assert " " + "" + " " == "  ";
  }

  lemma FoldEmpty(cs: seq<Config>)
    ensures Fold(Spec([], [], ""), cs) == Spec(Predicates(cs), SortKeys(cs), LastLimit(cs, ""))
  {
    FoldProjects(Spec([], [], ""), cs);
    assert [] + Predicates(cs) == Predicates(cs) && [] + SortKeys(cs) == SortKeys(cs);
  }

  /** Option lists that agree on the filters in order, the sorts in order and
      the last limit give the same statement, however the kinds are
      interleaved. */
  lemma InterleavingIrrelevant(cs: seq<Config>, ds: seq<Config>)
    requires AllSimple(cs)
    requires AllSimple(ds)
    requires Predicates(cs) == Predicates(ds) && SortKeys(cs) == SortKeys(ds)
    requires LastLimit(cs, "") == LastLimit(ds, "")
    ensures ApplyAll(cs, DefaultQuery) == ApplyAll(ds, DefaultQuery)
  {
    StatementByClause(cs);
    StatementByClause(ds);
  }

  /** Filters, sorts and a limit with arguments seed an empty buffer with the
      default query, so they act on it as on the default query itself. */
  lemma EmptyActsAsDefault(c: Config)
    requires c.Filter? || c.Sort? || (c.Limit? && |c.limitAndOffset| > 0)
    ensures Eval(c, "") == Eval(c, DefaultQuery)
  {
    DefaultQueryFree();
    ContainsIff(DefaultQuery, Where);
    ContainsIff(DefaultQuery, OrderBy);
    ContainsIff(DefaultQuery, LimitMarker);
  }
}
