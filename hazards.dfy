/** What the splitting engine does with text it was not built for: operand
    text that holds a marker, and text before the WHERE clause that is not
    the default query. The clause model of `Composition` excludes both; these
    lemmas say what happens instead. */
module Hazards {
  import opened Strings
  import opened Markers
  import opened Engine
  import opened Composition
  import opened Fragments
  import Queries

  /** A filter on the default query, when its predicate holds no marker at
      all, lands straight after WHERE. */
  lemma FirstFilter(p: string)
    ensures Eval(Filter(Write(p)), DefaultQuery) == DefaultQuery + Where + p
  {
    DefaultQueryFree();
    ContainsIff(DefaultQuery, Where);
    ContainsIff(DefaultQuery, OrderBy);
    ContainsIff(DefaultQuery, LimitMarker);
    assert FilterParts(DefaultQuery) == Parts(DefaultQuery + Where, "", "");
  }

  /** The LIKE predicate on a message `a + m + b` is its head up to the
      marker, the marker, and its tail. */
  lemma MessageAround(a: string, m: string, b: string)
    requires Unmarked(a) && Unmarked(b)
    ensures (var p := PredicateOf(Queries.MessageLike(a + m + b))[0];
      var head := Queries.MessageColumn + " LIKE '%" + a;
      var tail := b + "%'";
      Queries.MessageLike(a + m + b) == Filter(Write(p)) &&
      p == head + m + tail && Iso(head) && head != "" && Free(tail) && Iso(tail) && tail != "")
  {
    var head := Queries.MessageColumn + " LIKE '%" + a;
    var tail := b + "%'";
    Queries.Vocabulary();
    UnmarkedConcat(Queries.MessageColumn + " LIKE '%", a);
    UnmarkedIso(head);
    UnmarkedConcat(b, "%'");
    UnmarkedIso(tail);
    assert Compare(Queries.MessageColumn, "LIKE", Quote(Pattern(a + m + b))) == head + m + tail;
  }

  lemma ApplyTwo(c: Config, d: Config, s: string)
    ensures ApplyAll([c, d], s) == Eval(d, Eval(c, s))
  {
    assert [c, d][1..] == [d] && [d][1..] == [];
    assert ApplyAll([c, d], s) == ApplyAll([d], Eval(c, s));
    assert ApplyAll([d], Eval(c, s)) == ApplyAll([], Eval(d, Eval(c, s)));
  }

  lemma ApplyThree(c: Config, d: Config, e: Config, s: string)
    ensures ApplyAll([c, d, e], s) == Eval(e, Eval(d, Eval(c, s)))
  {
    assert [c, d, e][1..] == [d, e];
    ApplyTwo(d, e, Eval(c, s));
  }

  /** The statement of one predicate, or two, and a limit. */
  lemma RenderSmall(p: string, q: string, l: string)
    requires p != "" && l != ""
    ensures Render(Spec([p], [], l)) == DefaultQuery + Where + p + LimitMarker + l
    ensures Render(Spec([p, q], [], "")) == DefaultQuery + Where + p + " AND " + q
  {
    assert Join([p], " AND ") == p;
    assert [p, q][..1] == [p];
    assert Join([p, q], " AND ") == p + " AND " + q;
    assert Render(Spec([p, q], [], "")) == DefaultQuery + Where + (p + " AND " + q) + "" + "";
  }

  /** AddLimit cuts at the first LIMIT marker after an isolated head. */
  lemma LimitCut(head: string, tail: string, n: int)
    requires Iso(head) && head != "" && Free(tail)
    ensures Eval(Limit([n]), DefaultQuery + Where + head + LimitMarker + tail) ==
      DefaultQuery + Where + head + LimitMarker + Decimal(n)
  {
    var x := DefaultQuery + Where + head;
    DefaultSealed(LimitMarker);
    SealedClause(DefaultQuery, Where, head, LimitMarker);
    assert DefaultQuery + Clause(Where, head) == x;
    Cut(x, LimitMarker, tail);
    assert LimitBase(x + LimitMarker + tail) == x;
  }

  lemma LimitStatement(c: Config, head: string, tail: string, n: int)
    requires c == Filter(Write(head + LimitMarker + tail))
    requires Iso(head) && head != "" && Free(tail) && tail != ""
    ensures ApplyAll([c, Limit([n])], DefaultQuery) == DefaultQuery + Where + head + LimitMarker + Decimal(n)
    ensures ApplyAll([c, Limit([n])], DefaultQuery) != Render(Spec([head + LimitMarker + tail], [], Decimal(n)))
  {
    var p := head + LimitMarker + tail;
    FirstFilter(p);
    assert Eval(c, DefaultQuery) == DefaultQuery + Where + head + LimitMarker + tail;
    LimitCut(head, tail, n);
    ApplyTwo(c, Limit([n]), DefaultQuery);
    RenderSmall(p, "", Decimal(n));
    assert |DefaultQuery + Where + p + LimitMarker + Decimal(n)| ==
      |DefaultQuery + Where + head + LimitMarker + Decimal(n)| + |LimitMarker| + |tail|;
  }

  /** A message filter whose text holds `" LIMIT "`, followed by AddLimit:
      AddLimit cuts the statement at the marker inside the quoted text, so
      the predicate loses its end (and its closing quote) and the statement
      is not the one the two options describe. */
  lemma LimitInsideOperand(a: string, b: string, n: int)
    requires Unmarked(a) && Unmarked(b)
    ensures ApplyAll([Queries.MessageLike(a + LimitMarker + b), Queries.AddLimit([n])], DefaultQuery) ==
      DefaultQuery + Where + (Queries.MessageColumn + " LIKE '%" + a) + LimitMarker + Decimal(n)
    ensures ApplyAll([Queries.MessageLike(a + LimitMarker + b), Queries.AddLimit([n])], DefaultQuery) !=
      Render(Spec(PredicateOf(Queries.MessageLike(a + LimitMarker + b)), [], Decimal(n)))
  {
    var c := Queries.MessageLike(a + LimitMarker + b);
    var head := Queries.MessageColumn + " LIKE '%" + a;
    MessageAround(a, LimitMarker, b);
    assert PredicateOf(c) == [head + LimitMarker + (b + "%'")];
    LimitStatement(c, head, b + "%'", n);
  }

  /** prepareFilter keeps only the text between the first and the second
      WHERE. */
  lemma SecondWhere(head: string, tail: string, q: string)
    requires Iso(head) && head != ""
    ensures Eval(Filter(Write(q)), DefaultQuery + Where + head + Where + tail) ==
      DefaultQuery + Where + head + " AND " + q
  {
    var s1 := DefaultQuery + Where + head + Where + tail;
    assert s1 == DefaultQuery + Where + (head + Where + tail);
    DefaultSealed(Where);
    SplitAfter(DefaultQuery, Where, head + Where + tail);
    IsoSealed(head, Where);
    SplitAfter(head, Where, tail);
    assert After(s1, Where) == head;
    TailWhere(head, "", "");
    assert head + Clause(OrderBy, "") + Clause(LimitMarker, "") == head;
    assert FilterParts(s1) == Parts(DefaultQuery + Where + head + " AND ", "", "");
  }

  lemma WhereStatement(c: Config, head: string, tail: string, q: string)
    requires c == Filter(Write(head + Where + tail))
    requires Iso(head) && head != "" && tail != ""
    ensures ApplyAll([c, Filter(Write(q))], DefaultQuery) == DefaultQuery + Where + head + " AND " + q
    ensures ApplyAll([c, Filter(Write(q))], DefaultQuery) != Render(Spec([head + Where + tail, q], [], ""))
  {
    var p := head + Where + tail;
    FirstFilter(p);
    assert Eval(c, DefaultQuery) == DefaultQuery + Where + head + Where + tail;
    SecondWhere(head, tail, q);
    ApplyTwo(c, Filter(Write(q)), DefaultQuery);
    RenderSmall(p, q, "1");
    assert |DefaultQuery + Where + p + " AND " + q| == |DefaultQuery + Where + head + " AND " + q| + |Where| + |tail|;
  }

  /** A message filter whose text holds `" WHERE "`, followed by a second
      filter: prepareFilter keeps only the piece between the first and the
      second WHERE, so the first predicate loses its end. */
  lemma WhereInsideOperand(a: string, b: string, q: string)
    requires Unmarked(a) && Unmarked(b)
    ensures ApplyAll([Queries.MessageLike(a + Where + b), Filter(Write(q))], DefaultQuery) ==
      DefaultQuery + Where + (Queries.MessageColumn + " LIKE '%" + a) + " AND " + q
    ensures ApplyAll([Queries.MessageLike(a + Where + b), Filter(Write(q))], DefaultQuery) !=
      Render(Spec([PredicateOf(Queries.MessageLike(a + Where + b))[0], q], [], ""))
  {
    var c := Queries.MessageLike(a + Where + b);
    var head := Queries.MessageColumn + " LIKE '%" + a;
    MessageAround(a, Where, b);
    assert PredicateOf(c)[0] == head + Where + (b + "%'");
    WhereStatement(c, head, b + "%'", q);
  }

  /** Text a CustomQuery leaves between the default query and the WHERE
      clause survives the first filter and is dropped by the second, which
      rebuilds the statement from the default query: the statement is then
      the one without the CustomQuery. */
  lemma CustomTextDropped(x: string, f: Config, g: Config)
    requires Iso(x) && x != ""
    requires Simple(f) && f.Filter? && Simple(g) && g.Filter?
    ensures Eval(f, Eval(Queries.CustomQuery(x), DefaultQuery)) == DefaultQuery + " " + x + Where + PredicateOf(f)[0]
    ensures ApplyAll([Queries.CustomQuery(x), f, g], DefaultQuery) == ApplyAll([f, g], DefaultQuery)
  {
    var p := PredicateOf(f)[0];
    var base := DefaultQuery + " " + x;
    CustomBase(x);
    FilterOnUnmarked(base, f);
    DefaultQueryFree();
    DefaultSealed(Where);
    FilterOnUnmarked(DefaultQuery, f);
    FilterAfterWhere(base, p, g);
    FilterAfterWhere(DefaultQuery, p, g);
    ApplyThree(Queries.CustomQuery(x), f, g, DefaultQuery);
    ApplyTwo(f, g, DefaultQuery);
  }

  /** The default query followed by an isolated text holds no marker. */
  lemma CustomBase(x: string)
    requires Iso(x)
    ensures Free(DefaultQuery + " " + x) && Sealed(DefaultQuery + " " + x, Where)
    ensures DefaultQuery + " " + x != ""
  {
    var base := DefaultQuery + " " + x;
    DefaultQueryFree();
    Junction(DefaultQuery, " " + x + " ");
    assert DefaultQuery + (" " + x + " ") == base + " ";
    FreeParts(base, " ");
  }

  /** A filter on marker-free, non-empty text appends WHERE and its
      predicate. */
  lemma FilterOnUnmarked(base: string, f: Config)
    requires Free(base) && base != ""
    requires Simple(f) && f.Filter?
    ensures Eval(f, base) == base + Where + PredicateOf(f)[0]
  {
    ContainsIff(base, Where);
    ContainsIff(base, OrderBy);
    ContainsIff(base, LimitMarker);
    assert FilterParts(base) == Parts(base + Where, "", "");
    AppendedEval(f.inner, base + Where);
    assert Eval(f, base) == base + Where + PredicateOf(f)[0] + "" + "";
  }

  /** A filter after one WHERE predicate rebuilds from the default query,
      whatever came before the WHERE. */
  lemma FilterAfterWhere(base: string, p: string, g: Config)
    requires Sealed(base, Where) && Iso(p) && p != ""
    requires Simple(g) && g.Filter?
    ensures Eval(g, base + Where + p) == DefaultQuery + Where + p + " AND " + PredicateOf(g)[0]
  {
    var s2 := base + Where + p;
    IsoSealed(p, Where);
    SplitOnce(base, Where, p);
    assert After(s2, Where) == p;
    TailWhere(p, "", "");
    assert p + Clause(OrderBy, "") + Clause(LimitMarker, "") == p;
    assert FilterParts(s2) == Parts(DefaultQuery + Where + p + " AND ", "", "");
    AppendedEval(g.inner, DefaultQuery + Where + p + " AND ");
    assert Eval(g, s2) == DefaultQuery + Where + p + " AND " + PredicateOf(g)[0] + "" + "";
  }
}
