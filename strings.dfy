/** The parts of Go's `strings` and `fmt` packages the query engine relies on:
    `strings.Builder`, `strings.Index`/`Contains`/`Split`/`Join`/`ToUpper`
    (ASCII only) and `fmt.Sprintf("%d", n)`. */
module Strings {
  import opened Wrappers

  /** `m` occurs in `s` starting at position `i`. */
  predicate At(s: string, m: string, i: int)
  {
    0 <= i && i + |m| <= |s| && s[i..i + |m|] == m
  }

  /** `m` occurs nowhere in `s`. */
  ghost predicate Absent(s: string, m: string)
  {
    forall i :: !At(s, m, i)
  }

  /** The first occurrence of `m` in `s` at or after `k` (Go's `strings.Index`
      when `k` is 0). */
  function IndexFrom(s: string, m: string, k: nat): (r: Option<nat>)
    decreases |s| - k
    ensures r.Some? ==> k <= r.value && At(s, m, r.value)
  {
    if k + |m| > |s| then None
    else if s[k..k + |m|] == m then Some(k)
    else IndexFrom(s, m, k + 1)
  }

  /** The occurrence `IndexFrom` finds is the first one at or after `k`, and
      when it finds none there is none. */
  lemma {:induction false} IndexFromFirst(s: string, m: string, k: nat)
    ensures IndexFrom(s, m, k).Some? ==> forall j :: k <= j < IndexFrom(s, m, k).value ==> !At(s, m, j)
    ensures IndexFrom(s, m, k).None? ==> forall j :: k <= j ==> !At(s, m, j)
    decreases |s| - k
  {
    if k + |m| <= |s| && s[k..k + |m|] != m {
      IndexFromFirst(s, m, k + 1);
    }
  }

  /** Conversely, an occurrence with none before it is the one found. */
  lemma {:induction false} IndexFromAt(s: string, m: string, k: nat, p: nat)
    requires k <= p && At(s, m, p)
    requires forall j :: k <= j < p ==> !At(s, m, j)
    ensures IndexFrom(s, m, k) == Some(p)
    decreases p - k
  {
    if k < p {
      assert !At(s, m, k);
      IndexFromAt(s, m, k + 1, p);
    }
  }

  function Index(s: string, m: string): Option<nat>
  {
    IndexFrom(s, m, 0)
  }

  /** Go's `strings.Contains`. */
  predicate Contains(s: string, m: string)
  {
    Index(s, m).Some?
  }

  lemma ContainsIff(s: string, m: string)
    ensures Contains(s, m) <==> !Absent(s, m)
  {
    IndexFromFirst(s, m, 0);
    if !Contains(s, m) {
      forall i ensures !At(s, m, i) {
        if i >= 0 { assert !At(s, m, i); }
      }
    }
  }

  /** Go's `strings.Split` for a non-empty separator: the pieces between
      successive non-overlapping occurrences, scanning left to right. */
  function Split(s: string, sep: string): (r: seq<string>)
    requires |sep| > 0
    decreases |s|
    ensures |r| >= 1
    ensures |r| >= 2 <==> Contains(s, sep)
    ensures !Contains(s, sep) ==> r == [s]
  {
    match Index(s, sep)
    case None => [s]
    case Some(i) => [s[..i]] + Split(s[i + |sep|..], sep)
  }

  /** Go's `strings.Join`. */
  function Join(parts: seq<string>, sep: string): string
  {
    if |parts| == 0 then ""
    else if |parts| == 1 then parts[0]
    else Join(parts[..|parts| - 1], sep) + sep + parts[|parts| - 1]
  }

  lemma {:induction false} JoinCons(x: string, rest: seq<string>, sep: string)
    requires |rest| > 0
    ensures Join([x] + rest, sep) == x + sep + Join(rest, sep)
    decreases |rest|
  {
    if |rest| == 1 {
      assert [x] + rest == [x, rest[0]];
    } else {
      var last := rest[|rest| - 1];
      assert ([x] + rest)[..|rest|] == [x] + rest[..|rest| - 1];
      JoinCons(x, rest[..|rest| - 1], sep);
    }
  }

  /** One step of `Split`: the text before the first separator, then the
      split of what follows it. */
  lemma SplitStep(s: string, sep: string, i: nat)
    requires |sep| > 0
    requires Index(s, sep) == Some(i)
    ensures i + |sep| <= |s|
    ensures s == s[..i] + sep + s[i + |sep|..]
    ensures Split(s, sep) == [s[..i]] + Split(s[i + |sep|..], sep)
  {
    assert s[i..i + |sep|] == sep;
  }

  /** Joining the pieces of a split with the same separator gives back the
      original text. */
  lemma {:induction false} SplitThenJoin(s: string, sep: string)
    requires |sep| > 0
    ensures Join(Split(s, sep), sep) == s
    decreases |s|
  {
    var idx := Index(s, sep);
    if idx.Some? {
      var i := idx.value;
      SplitStep(s, sep, i);
      var rest := s[i + |sep|..];
      SplitThenJoin(rest, sep);
      JoinCons(s[..i], Split(rest, sep), sep);
    }
  }

  /** No character of `s` is `c`. */
  predicate Without(s: string, c: char)
  {
    forall k :: 0 <= k < |s| ==> s[k] != c
  }

  /** A separator cannot occur where its first character does not. */
  lemma NotAtWithout(s: string, sep: string, i: int)
    requires |sep| > 0 && Without(s, sep[0])
    requires i < |s|
    ensures !At(s, sep, i)
  {
  }

  /** Two texts without the separator's first character, joined by it, split
      back into those two texts. */
  lemma {:induction false} SplitPair(a: string, sep: string, b: string)
    requires |sep| > 0 && Without(a, sep[0]) && Without(b, sep[0])
    ensures Split(a + sep + b, sep) == [a, b]
  {
    var s := a + sep + b;
    assert s[|a|..|a| + |sep|] == sep;
    forall j | 0 <= j < |a|
      ensures !At(s, sep, j)
    {
      assert s[j] == a[j];
    }
    IndexFromAt(s, sep, 0, |a|);
    SplitStep(s, sep, |a|);
    assert s[|a| + |sep|..] == b;
    assert s[..|a|] == a;
    forall i ensures !At(b, sep, i) {
      if 0 <= i < |b| { NotAtWithout(b, sep, i); }
    }
    ContainsIff(b, sep);
  }

  /** The decimal digit for `d`. */
  function Digit(d: int): char
    requires 0 <= d < 10
  {
    "0123456789"[d]
  }

  /** The decimal digits of a natural number, most significant first. */
  function Digits(n: nat): (r: string)
    ensures |r| >= 1
    ensures forall k :: 0 <= k < |r| ==> '0' <= r[k] <= '9'
    ensures DigitsValue(r) == n
  {
    if n < 10 then
      [Digit(n)]
    else
      var high := Digits(n / 10);
      assert (high + [Digit(n % 10)])[..|high|] == high;
      high + [Digit(n % 10)]
  }

  /** `fmt.Sprintf("%d", n)` for any integer. */
  function Decimal(n: int): (r: string)
    ensures |r| >= 1
    ensures forall k :: 0 <= k < |r| ==> r[k] == '-' || '0' <= r[k] <= '9'
    ensures ParseDecimal(r) == Some(n)
  {
    if n < 0 then
      var digits := Digits(-n);
      assert ("-" + digits)[1..] == digits;
      "-" + digits
    else
      Digits(n)
  }

  /** The value of a digit string. */
  function DigitsValue(r: string): nat
    requires forall k :: 0 <= k < |r| ==> '0' <= r[k] <= '9'
  {
    if |r| == 0 then 0 else 10 * DigitsValue(r[..|r| - 1]) + (r[|r| - 1] - '0') as int
  }

  /** Reads back a `%d` rendering: an optional minus sign and at least one
      digit. */
  function ParseDecimal(r: string): Option<int>
  {
    if |r| > 0 && r[0] == '-' && |r| > 1 && forall k :: 1 <= k < |r| ==> '0' <= r[k] <= '9' then
      var v: int := 0 - DigitsValue(r[1..]) as int;
      Some(v)
    else if |r| > 0 && forall k :: 0 <= k < |r| ==> '0' <= r[k] <= '9' then
      Some(DigitsValue(r))
    else None
  }

  /** Words written one after another. */
  function Concat(ws: seq<string>): string
    decreases |ws|
  {
    if |ws| == 0 then "" else Concat(ws[..|ws| - 1]) + ws[|ws| - 1]
  }

  /** Concatenation regroups and absorbs the empty string. */
  lemma Assoc(a: string, b: string, c: string)
    ensures a + (b + c) == a + b + c
    ensures a + "" == a && "" + a == a
  {
  }

  /** A sequence of strings is rebuilt by Builder writes one after another. */
  class Builder {
    var buf: string

    constructor ()
      ensures buf == ""
    {
      buf := "";
    }

    function String(): string
      reads this
    {
      buf
    }

    method WriteString(t: string)
      modifies this
      ensures buf == old(buf) + t
      ensures old(buf) == "" ==> buf == t
    {
      buf := buf + t;
    }

    method Reset()
      modifies this
      ensures buf == ""
    {
      buf := "";
    }
  }
}
