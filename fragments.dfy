/** The SQL fragments the filter and sort wrappers write (queries/queries.go
    and types.go): `column op operand`, `column dir`, quoted and `%`-wrapped
    operands, and the `2006-01-02 15:04:05` timestamp layout. Every fragment
    whose user-supplied text is marker-free is isolated, so the composition
    theorems apply to it. */
module Fragments {
  import opened Wrappers
  import opened Strings
  import opened Markers

  /** `column op operand`: every comparison and range predicate. */
  function Compare(column: string, op: string, operand: string): string
  {
    column + " " + op + " " + operand
  }

  /** `column dir`: every sort key. */
  function Ordered(column: string, dir: string): string
  {
    column + " " + dir
  }

  /** A `'…'` SQL string literal around `v`, as `'%s'` writes it. */
  function Quote(v: string): string
  {
    "'" + v + "'"
  }

  /** A LIKE pattern matching any text containing `v`, as `%%%s%%` writes
      it. */
  function Pattern(v: string): string
  {
    "%" + v + "%"
  }

  /** `a AND b`: the operand of BETWEEN. */
  function Range(a: string, b: string): string
  {
    a + " AND " + b
  }

  // ---------------------------------------------------------------------
  // Isolation of fragments.

  /** Text without the `H`, `Y` and `M` that `" WHERE "`, `" ORDER BY "` and
      `" LIMIT "` each need: every fixed word the wrappers write is such
      text. */
  predicate Unmarked(s: string)
  {
    forall k :: 0 <= k < |s| ==> s[k] != 'H' && s[k] != 'Y' && s[k] != 'M'
  }

  lemma UnmarkedFree(s: string)
    requires Unmarked(s)
    ensures Free(s)
  {
    forall m, i | IsMarker(m) ensures !At(s, m, i) {
      var k := if m == Where then 2 else if m == OrderBy then 8 else 3;
      if 0 <= i && i + |m| <= |s| {
        assert m[k] == 'H' || m[k] == 'Y' || m[k] == 'M';
        Differs(s, m, i, k);
      }
    }
  }

  lemma UnmarkedConcat(a: string, b: string)
    requires Unmarked(a) && Unmarked(b)
    ensures Unmarked(a + b)
  {
    forall k | 0 <= k < |a + b| ensures (a + b)[k] != 'H' && (a + b)[k] != 'Y' && (a + b)[k] != 'M' {
      if k >= |a| {
        assert (a + b)[k] == b[k - |a|];
      }
    }
  }

  /** Text without those letters is isolated. */
  lemma UnmarkedIso(x: string)
    requires Unmarked(x)
    ensures Iso(x) && Free(x)
  {
    UnmarkedConcat(" ", x);
    UnmarkedConcat(" " + x, " ");
    UnmarkedFree(" " + x + " ");
    UnmarkedFree(x);
  }

  /** Marker-free text that neither starts nor ends with a character of a
      marker is isolated. */
  lemma FreeIso(x: string)
    requires Free(x) && |x| > 0 && !MarkerChar(x[0]) && !MarkerChar(x[|x| - 1])
    ensures Iso(x)
  {
    ShortFree(" ");
    Junction(" ", x);
    Junction(" " + x, " ");
  }

  /** A fixed comparison (column, operator and operand all unmarked) is an
      operand of the clause model. */
  lemma CompareUnmarked(column: string, op: string, operand: string)
    requires Unmarked(column) && Unmarked(op) && Unmarked(operand)
    ensures Unmarked(Compare(column, op, operand))
    ensures Iso(Compare(column, op, operand)) && Compare(column, op, operand) != ""
  {
    UnmarkedConcat(column, " ");
    UnmarkedConcat(column + " ", op);
    UnmarkedConcat(column + " " + op, " ");
    UnmarkedConcat(column + " " + op + " ", operand);
    UnmarkedIso(Compare(column, op, operand));
  }

  lemma RangeUnmarked(a: string, b: string)
    requires Unmarked(a) && Unmarked(b)
    ensures Unmarked(Range(a, b))
  {
    UnmarkedConcat(a, " AND ");
    UnmarkedConcat(a + " AND ", b);
  }

  lemma QuoteUnmarked(v: string)
    requires Unmarked(v)
    ensures Unmarked(Quote(v))
  {
    UnmarkedConcat("'", v);
    UnmarkedConcat("'" + v, "'");
  }

  /** A comparison against a quoted literal is isolated whenever the quoted
      text is marker-free, whatever letters it holds: the quote on each side
      of it cannot be part of a marker. */
  lemma QuotedIso(column: string, op: string, w: string)
    requires Unmarked(column) && Unmarked(op) && Free(w)
    ensures Iso(Compare(column, op, Quote(w))) && Compare(column, op, Quote(w)) != ""
  {
    var a := " " + column + " " + op + " '";
    var b := "' ";
    UnmarkedConcat(" ", column);
    UnmarkedConcat(" " + column, " ");
    UnmarkedConcat(" " + column + " ", op);
    UnmarkedConcat(" " + column + " " + op, " '");
    UnmarkedFree(a);
    UnmarkedFree(b);
    Junction(a, w);
    Junction(a + w, b);
    assert a + w + b == " " + Compare(column, op, Quote(w)) + " ";
  }

  /** Wrapping marker-free text in `%` signs keeps it marker-free. */
  lemma PatternFree(v: string)
    requires Free(v)
    ensures Free(Pattern(v))
  {
    ShortFree("%");
    Junction("%", v);
    Junction("%" + v, "%");
  }

  /** Likewise for a LIKE pattern around marker-free text. */
  lemma LikeIso(column: string, op: string, v: string)
    requires Unmarked(column) && Unmarked(op) && Free(v)
    ensures Iso(Compare(column, op, Quote(Pattern(v)))) && Compare(column, op, Quote(Pattern(v))) != ""
  {
    PatternFree(v);
    QuotedIso(column, op, Pattern(v));
  }

  /** A sort key on an unmarked column in an unmarked direction is
      isolated. */
  lemma OrderedIso(column: string, dir: string)
    requires Unmarked(column) && Unmarked(dir)
    ensures Iso(Ordered(column, dir)) && Ordered(column, dir) != ""
  {
    UnmarkedConcat(column, " ");
    UnmarkedConcat(column + " ", dir);
    UnmarkedIso(Ordered(column, dir));
  }

  /** `%d` text is unmarked. */
  lemma DecimalUnmarked(n: int)
    ensures Unmarked(Decimal(n))
  {
  }

  // ---------------------------------------------------------------------
  // Reading operands back.

  /** The operand text reads back from a comparison: everything after the
      column, the operator and their two blanks, verbatim. */
  lemma CompareOperand(column: string, op: string, operand: string)
    ensures Compare(column, op, operand)[|column| + |op| + 2..] == operand
    ensures Compare(column, op, operand)[..|column| + |op| + 2] == column + " " + op + " "
  {
    assert Compare(column, op, operand) == (column + " " + op + " ") + operand;
  }

  /** A LIKE operand reads back verbatim from between its `'%` and `%'`. */
  lemma PatternOperand(v: string)
    ensures Quote(Pattern(v))[2..|v| + 2] == v
    ensures |Quote(Pattern(v))| == |v| + 4
  {
    assert Quote(Pattern(v)) == "'%" + v + "%'";
  }

  // ---------------------------------------------------------------------
  // The timestamp layouts `2006-01-02 15:04:05` and `2006-01-02`.

  /** A wall-clock instant in its own location, as `time.Time` reports its
      fields. */
  datatype Instant = Instant(year: int, month: nat, day: nat, hour: nat, minute: nat, second: nat)

  function Zeros(k: nat): (r: string)
    ensures |r| == k && forall i :: 0 <= i < k ==> r[i] == '0'
  {
    seq(k, _ => '0')
  }

  /** The digits of `n`, left-padded with zeros to at least `width`, as Go's
      time formatting writes a numeric field. */
  function Padded(n: nat, width: nat): (r: string)
  {
    var d := Digits(n);
    if |d| >= width then d else Zeros(width - |d|) + d
  }

  /** The year field: a minus sign for years before 1 BC, then at least four
      digits. */
  function Year(y: int): string
  {
    if y < 0 then "-" + Padded(-y, 4) else Padded(y, 4)
  }

  /** `t.Format("2006-01-02")`. */
  function DateText(t: Instant): string
  {
    Year(t.year) + "-" + Padded(t.month, 2) + "-" + Padded(t.day, 2)
  }

  /** `t.Format("2006-01-02 15:04:05")`. */
  function StampText(t: Instant): string
  {
    DateText(t) + " " + Padded(t.hour, 2) + ":" + Padded(t.minute, 2) + ":" + Padded(t.second, 2)
  }

  predicate AllDigits(s: string)
  {
    forall k :: 0 <= k < |s| ==> '0' <= s[k] <= '9'
  }

  /** The instants whose layout has fixed width: four-digit years and
      two-digit other fields. */
  predicate FixedWidth(t: Instant)
  {
    0 <= t.year < 10000 && t.month < 100 && t.day < 100 && t.hour < 100 && t.minute < 100 && t.second < 100
  }

  /** Reads a fixed-width `2006-01-02` date back. */
  function ParseDate(s: string): Option<(nat, nat, nat)>
  {
    if |s| == 10 && s[4] == '-' && s[7] == '-' && AllDigits(s[0..4]) && AllDigits(s[5..7]) && AllDigits(s[8..10]) then
      Some((DigitsValue(s[0..4]), DigitsValue(s[5..7]), DigitsValue(s[8..10])))
    else None
  }

  /** Reads a fixed-width `2006-01-02 15:04:05` timestamp back. */
  function ParseStamp(s: string): Option<Instant>
  {
    if |s| == 19 && s[10] == ' ' && s[13] == ':' && s[16] == ':' && ParseDate(s[..10]).Some? &&
       AllDigits(s[11..13]) && AllDigits(s[14..16]) && AllDigits(s[17..19]) then
      var d := ParseDate(s[..10]).value;
      Some(Instant(d.0, d.1, d.2, DigitsValue(s[11..13]), DigitsValue(s[14..16]), DigitsValue(s[17..19])))
    else None
  }

  function Pow10(w: nat): nat
  {
    if w == 0 then 1 else 10 * Pow10(w - 1)
  }

  lemma {:induction false} DigitsWidth(n: nat, w: nat)
    requires w >= 1 && n < Pow10(w)
    ensures |Digits(n)| <= w
    decreases n
  {
    if n >= 10 {
      DigitsWidth(n / 10, w - 1);
    }
  }

  lemma {:induction false} ZerosValue(k: nat)
    ensures DigitsValue(Zeros(k)) == 0
    decreases k
  {
    if k > 0 {
      assert Zeros(k)[..k - 1] == Zeros(k - 1);
      ZerosValue(k - 1);
    }
  }

  /** Leading zeros do not change a digit string's value. */
  lemma {:induction false} LeadingZeros(k: nat, d: string)
    requires AllDigits(d)
    ensures AllDigits(Zeros(k) + d)
    ensures DigitsValue(Zeros(k) + d) == DigitsValue(d)
    decreases |d|
  {
    if |d| == 0 {
      assert Zeros(k) + d == Zeros(k);
      ZerosValue(k);
    } else {
      var init := d[..|d| - 1];
      assert (Zeros(k) + d)[..|Zeros(k) + d| - 1] == Zeros(k) + init;
      LeadingZeros(k, init);
    }
  }

  /** A padded field holds exactly `width` digits worth `n`, when `n` fits. */
  lemma PaddedValue(n: nat, width: nat)
    requires width >= 1 && n < Pow10(width)
    ensures |Padded(n, width)| == width && AllDigits(Padded(n, width))
    ensures DigitsValue(Padded(n, width)) == n
  {
    DigitsWidth(n, width);
    var d := Digits(n);
    if |d| < width {
      LeadingZeros(width - |d|, d);
    }
  }

  /** The positions of the fields in `a-b-c`. */
  lemma DateFields(a: string, b: string, c: string)
    requires |a| == 4 && |b| == 2 && |c| == 2
    ensures var s := a + "-" + b + "-" + c;
      |s| == 10 && s[4] == '-' && s[7] == '-' && s[0..4] == a && s[5..7] == b && s[8..10] == c
  {
  }

  /** The positions of the fields in `d h:m:s`. */
  lemma ClockFields(d: string, h: string, m: string, s: string)
    requires |d| == 10 && |h| == 2 && |m| == 2 && |s| == 2
    ensures var t := d + " " + h + ":" + m + ":" + s;
      |t| == 19 && t[10] == ' ' && t[13] == ':' && t[16] == ':' &&
      t[..10] == d && t[11..13] == h && t[14..16] == m && t[17..19] == s
  {
  }

  /** The date layout reads back to the fields it was written from. */
  lemma DateRoundTrip(t: Instant)
    requires FixedWidth(t)
    ensures |DateText(t)| == 10
    ensures ParseDate(DateText(t)) == Some((t.year as nat, t.month, t.day))
  {
    assert Pow10(2) == 100 && Pow10(4) == 10000;
    PaddedValue(t.year, 4);
    PaddedValue(t.month, 2);
    PaddedValue(t.day, 2);
    DateFields(Padded(t.year, 4), Padded(t.month, 2), Padded(t.day, 2));
  }

  /** The timestamp layout reads back to the instant it was written from. */
  lemma StampRoundTrip(t: Instant)
    requires FixedWidth(t)
    ensures |StampText(t)| == 19
    ensures ParseStamp(StampText(t)) == Some(t)
  {
    DateRoundTrip(t);
    assert Pow10(2) == 100;
    PaddedValue(t.hour, 2);
    PaddedValue(t.minute, 2);
    PaddedValue(t.second, 2);
    ClockFields(DateText(t), Padded(t.hour, 2), Padded(t.minute, 2), Padded(t.second, 2));
  }

  lemma PaddedUnmarked(n: nat, width: nat)
    ensures Unmarked(Padded(n, width)) && AllDigits(Padded(n, width))
  {
    var d := Digits(n);
    if |d| < width {
      LeadingZeros(width - |d|, d);
      UnmarkedConcat(Zeros(width - |d|), d);
    }
  }

  /** Both layouts hold only digits, `-`, `:` and a blank. */
  lemma DateUnmarked(t: Instant)
    ensures Unmarked(DateText(t))
  {
    if t.year < 0 {
      PaddedUnmarked(-t.year, 4);
      UnmarkedConcat("-", Padded(-t.year, 4));
    } else {
      PaddedUnmarked(t.year, 4);
    }
    PaddedUnmarked(t.month, 2);
    PaddedUnmarked(t.day, 2);
    var y, mo := Year(t.year), Padded(t.month, 2);
    UnmarkedConcat(y, "-");
    UnmarkedConcat(y + "-", mo);
    UnmarkedConcat(y + "-" + mo, "-");
    UnmarkedConcat(y + "-" + mo + "-", Padded(t.day, 2));
  }

  lemma StampUnmarked(t: Instant)
    ensures Unmarked(DateText(t)) && Unmarked(StampText(t))
  {
    DateUnmarked(t);
    PaddedUnmarked(t.hour, 2);
    PaddedUnmarked(t.minute, 2);
    PaddedUnmarked(t.second, 2);
    var a, h, mi := DateText(t) + " ", Padded(t.hour, 2), Padded(t.minute, 2);
    UnmarkedConcat(DateText(t), " ");
    UnmarkedConcat(a, h);
    UnmarkedConcat(a + h, ":");
    UnmarkedConcat(a + h + ":", mi);
    UnmarkedConcat(a + h + ":" + mi, ":");
    UnmarkedConcat(a + h + ":" + mi + ":", Padded(t.second, 2));
  }
}
