/** The three literal clause markers the query engine splits its text on, and
    the facts about where they can and cannot occur in composed text. */
module Markers {
  import opened Wrappers
  import opened Strings

  const Where: string := " WHERE "
  const OrderBy: string := " ORDER BY "
  const LimitMarker: string := " LIMIT "

  predicate IsMarker(m: string)
  {
    m == Where || m == OrderBy || m == LimitMarker
  }

  /** The characters that appear in some marker. */
  predicate MarkerChar(c: char)
  {
    c in " WHEROD BYLIMT"
  }

  /** No marker occurs anywhere in `s`. */
  ghost predicate Free(s: string)
  {
    Absent(s, Where) && Absent(s, OrderBy) && Absent(s, LimitMarker)
  }

  /** `x` cannot form or complete a marker with the spaces around it: the
      condition under which an operand may be pasted between clause
      separators without being mistaken for one. */
  ghost predicate Iso(x: string)
  {
    Free(" " + x + " ")
  }

  /** Text that cannot continue a marker whose leading space came just before
      it: it does not open with the `WHE`, `ORD` or `LIM` of a marker word, nor
      with the `BY` that follows the inner space of `" ORDER BY "`. */
  predicate Opening(b: string)
  {
    (|b| >= 2 ==> !(b[0] == 'B' && b[1] == 'Y')) &&
    (|b| >= 3 ==>
      !(b[0] == 'W' && b[1] == 'H' && b[2] == 'E') &&
      !(b[0] == 'O' && b[1] == 'R' && b[2] == 'D') &&
      !(b[0] == 'L' && b[1] == 'I' && b[2] == 'M'))
  }

  /** A word of a literal: no space except possibly a final one, and an
      opening that cannot continue a marker. */
  predicate Word(w: string)
  {
    |w| >= 1 && (forall k :: 0 <= k < |w| - 1 ==> w[k] != ' ') && Opening(w)
  }

  /** The shape every marker shares. */
  lemma MarkerShape(m: string)
    requires IsMarker(m)
    ensures |m| >= 7 && m[0] == ' ' && m[|m| - 1] == ' '
    ensures m[1] != 'B'
    ensures m[1] == 'W' || m[1..3] == "LI" || m[1..3] == "OR"
    ensures forall k :: 0 <= k < |m| ==> MarkerChar(m[k])
    ensures forall k :: 1 <= k < |m| - 1 && m[k] == ' ' ==> m == OrderBy && k == 6 && m[k + 1] == 'B'
  {
  }

  /** The first word of every marker opens with `WHE`, `ORD` or `LIM`; the
      second word of `" ORDER BY "` is `BY`. */
  lemma MarkerOpening(m: string)
    requires IsMarker(m)
    ensures |m| >= 7 && m[0] == ' '
    ensures (m[1] == 'W' && m[2] == 'H' && m[3] == 'E') || (m[1] == 'O' && m[2] == 'R' && m[3] == 'D') ||
            (m[1] == 'L' && m[2] == 'I' && m[3] == 'M')
    ensures forall k :: 1 <= k < |m| - 1 && m[k] == ' ' ==> k == 6 && |m| == 10 && m[7] == 'B' && m[8] == 'Y'
  {
  }

  /** `m` does not occur at `i` when one of its characters differs there. */
  lemma Differs(s: string, m: string, i: int, k: int)
    requires 0 <= k < |m| && 0 <= i && i + |m| <= |s| && s[i + k] != m[k]
    ensures !At(s, m, i)
  {
    assert s[i..i + |m|][k] == s[i + k];
  }

  /** An occurrence inside a window of `s` is one of the window. */
  lemma Window(s: string, w: string, lo: int, m: string, i: int)
    requires 0 <= lo && lo + |w| <= |s| && s[lo..lo + |w|] == w
    requires lo <= i && i + |m| <= lo + |w|
    ensures At(s, m, i) <==> At(w, m, i - lo)
  {
    var inner, outer := w[i - lo..i - lo + |m|], s[i..i + |m|];
    forall k | 0 <= k < |m| ensures inner[k] == outer[k] {
      assert s[lo..lo + |w|][i - lo + k] == s[i + k];
    }
    assert inner == outer;
  }

  /** Every marker starts with a space and is longer than a single space, so
      a word holds none. */
  lemma WordFree(w: string)
    requires Word(w)
    ensures Free(w)
  {
    forall m, i | IsMarker(m) ensures !At(w, m, i) {
      MarkerShape(m);
      if 0 <= i && i + |m| <= |w| {
        Differs(w, m, i, 0);
      }
    }
  }

  /** Text shorter than every marker holds none. */
  lemma ShortFree(s: string)
    requires |s| < 7
    ensures Free(s)
  {
    forall m, i | IsMarker(m) ensures !At(s, m, i) {
      MarkerShape(m);
    }
  }

  /** Text ending in a space, followed by text with a harmless opening, forms
      no marker across the seam. */
  lemma SpaceJoin(a: string, b: string)
    requires Free(a) && Free(b) && |a| > 0 && a[|a| - 1] == ' ' && Opening(b)
    ensures Free(a + b)
  {
    var s := a + b;
    assert s[0..|a|] == a;
    assert s[|a|..|a| + |b|] == b;
    forall m, i | IsMarker(m) && 0 <= i && i + |m| <= |s| ensures !At(s, m, i) {
      MarkerOpening(m);
      if i + |m| <= |a| {
        Window(s, a, 0, m, i);
      } else if i >= |a| {
        Window(s, b, |a|, m, i);
      } else if i == |a| - 1 {
        if b[0] != m[1] {
          Differs(s, m, i, 1);
        } else if b[1] != m[2] {
          Differs(s, m, i, 2);
        } else {
          Differs(s, m, i, 3);
        }
      } else if s[i] != ' ' {
        Differs(s, m, i, 0);
      } else {
        var k := |a| - 1 - i;
        if m[k] != ' ' {
          Differs(s, m, i, k);
        } else if b[0] != 'B' {
          Differs(s, m, i, k + 1);
        } else {
          Differs(s, m, i, k + 2);
        }
      }
    }
  }

  /** Appending a word to text ending in a space keeps it marker-free. */
  lemma WordAfter(a: string, w: string)
    requires Free(a) && |a| > 0 && a[|a| - 1] == ' ' && Word(w)
    ensures Free(a + w)
  {
    WordFree(w);
    SpaceJoin(a, w);
  }

  /** Text made only of characters foreign to the markers is isolated. */
  lemma PlainIso(x: string)
    requires forall k :: 0 <= k < |x| ==> !MarkerChar(x[k])
    ensures Iso(x) && Free(x)
  {
    var s := " " + x + " ";
    forall m, i | IsMarker(m) ensures !At(s, m, i) && !At(x, m, i) {
      MarkerShape(m);
      if 0 <= i && i + |m| <= |s| {
        assert s[i + 1] == x[i];
        Differs(s, m, i, 1);
      }
      if 0 <= i && i + |m| <= |x| {
        Differs(x, m, i, 0);
      }
    }
  }

  lemma AbsentParts(a: string, b: string, m: string)
    requires Absent(a + b, m)
    ensures Absent(a, m) && Absent(b, m)
  {
    var s := a + b;
    assert s[0..|a|] == a;
    assert s[|a|..|a| + |b|] == b;
    forall i ensures !At(a, m, i) && !At(b, m, i) {
      if 0 <= i && i + |m| <= |a| {
        Window(s, a, 0, m, i);
      }
      if 0 <= i && i + |m| <= |b| {
        Window(s, b, |a|, m, |a| + i);
      }
    }
  }

  lemma FreeParts(a: string, b: string)
    requires Free(a + b)
    ensures Free(a) && Free(b)
  {
    AbsentParts(a, b, Where);
    AbsentParts(a, b, OrderBy);
    AbsentParts(a, b, LimitMarker);
  }

  /** Two marker-free texts stay marker-free when joined at a character that
      cannot be part of a marker. */
  lemma JunctionAt(a: string, b: string, m: string)
    requires IsMarker(m)
    requires Absent(a, m) && Absent(b, m)
    requires (|a| > 0 && !MarkerChar(a[|a| - 1])) || (|b| > 0 && !MarkerChar(b[0]))
    ensures Absent(a + b, m)
  {
    var s := a + b;
    MarkerShape(m);
    forall i | 0 <= i && i + |m| <= |s| ensures !At(s, m, i) {
      if i + |m| <= |a| {
        Window(s, a, 0, m, i);
      } else if i >= |a| {
        assert s[|a|..|a| + |b|] == b;
        Window(s, b, |a|, m, i);
      } else if |a| > 0 && !MarkerChar(a[|a| - 1]) {
        Differs(s, m, i, |a| - 1 - i);
      } else {
        Differs(s, m, i, |a| - i);
      }
    }
  }

  lemma Junction(a: string, b: string)
    requires Free(a) && Free(b)
    requires (|a| > 0 && !MarkerChar(a[|a| - 1])) || (|b| > 0 && !MarkerChar(b[0]))
    ensures Free(a + b)
  {
    JunctionAt(a, b, Where);
    JunctionAt(a, b, OrderBy);
    JunctionAt(a, b, LimitMarker);
  }

  /** A separator that starts and ends with a space, never starts a second
      marker word after one of its spaces, and does not begin with the `B` of
      `BY`. */
  predicate SepOk(sep: string, m: string)
    requires |m| >= 2
  {
    |sep| >= 2 && sep[0] == ' ' && sep[|sep| - 1] == ' ' && sep[1] != 'B' &&
    forall j :: 0 <= j < |sep| - 1 && sep[j] == ' ' ==> sep[j + 1] != m[1]
  }

  /** Gluing two texts with such a separator creates no occurrence of `m`,
      provided neither text makes one with the separator's outer space. */
  lemma SepGlue(a: string, sep: string, b: string, m: string)
    requires IsMarker(m) && SepOk(sep, m)
    requires Absent(a + " ", m) && Absent(" " + b, m)
    ensures Absent(a + sep + b, m)
  {
    var s := a + sep + b;
    forall i | 0 <= i && i + |m| <= |s| ensures !At(s, m, i) {
      if i + |m| <= |a| + 1 || i >= |a| + |sep| - 1 {
        SepGlueOuter(a, sep, b, m, i);
      } else {
        SepGlueInner(a, sep, b, m, i);
      }
    }
  }

  /** An occurrence inside `a` and the separator's first space, or inside the
      separator's last space and `b`, would be one in `a + " "` or `" " + b`. */
  lemma SepGlueOuter(a: string, sep: string, b: string, m: string, i: int)
    requires IsMarker(m) && SepOk(sep, m)
    requires Absent(a + " ", m) && Absent(" " + b, m)
    requires 0 <= i && i + |m| <= |a + sep + b|
    requires i + |m| <= |a| + 1 || i >= |a| + |sep| - 1
    ensures !At(a + sep + b, m, i)
  {
    var s := a + sep + b;
    if i + |m| <= |a| + 1 {
      assert s[0..|a| + 1] == a + " ";
      Window(s, a + " ", 0, m, i);
    } else {
      var lo := |a| + |sep| - 1;
      assert s[lo..lo + |b| + 1] == " " + b;
      Window(s, " " + b, lo, m, i);
    }
  }

  /** An occurrence overlapping the inside of the separator would need a
      marker letter where the separator has a space or a space where it has
      none. */
  lemma SepGlueInner(a: string, sep: string, b: string, m: string, i: int)
    requires IsMarker(m) && SepOk(sep, m)
    requires 0 <= i && i + |m| <= |a + sep + b|
    requires |a| + 1 < i + |m| && i < |a| + |sep| - 1
    ensures !At(a + sep + b, m, i)
  {
    var s := a + sep + b;
    MarkerShape(m);
    if i < |a| {
      var k := |a| - i;
      if m[k] != ' ' {
        Differs(s, m, i, k);
      } else {
        Differs(s, m, i, k + 1);
      }
    } else if sep[i - |a|] != ' ' {
      Differs(s, m, i, 0);
    } else {
      Differs(s, m, i, 1);
    }
  }

  /** No occurrence of `m` in `x + t` starts inside `x` when `t` opens with a
      space not followed by `B`. */
  lemma NoEarlyAt(x: string, t: string, m: string, i: int)
    requires IsMarker(m) && Absent(x + " ", m)
    requires |t| >= 2 && t[0] == ' ' && t[1] != 'B'
    requires 0 <= i < |x|
    ensures !At(x + t, m, i)
  {
    var s := x + t;
    MarkerShape(m);
    if i + |m| <= |s| {
      if i + |m| <= |x| + 1 {
        assert s[0..|x| + 1] == x + " ";
        Window(s, x + " ", 0, m, i);
      } else {
        var k := |x| - i;
        if m[k] != ' ' {
          Differs(s, m, i, k);
        } else {
          Differs(s, m, i, k + 1);
        }
      }
    }
  }

  /** Splitting `x + m + y` on the marker `m` cuts at the `m` written after
      `x`. */
  lemma SplitAfter(x: string, m: string, y: string)
    requires IsMarker(m) && Absent(x + " ", m)
    ensures Index(x + m + y, m) == Some(|x|)
    ensures Split(x + m + y, m) == [x] + Split(y, m)
  {
    var s := x + m + y;
    MarkerShape(m);
    assert At(s, m, |x|) by {
      assert s[|x|..|x| + |m|] == m;
    }
    forall i | 0 <= i < |x| ensures !At(s, m, i) {
      NoEarlyAt(x, m + y, m, i);
    }
    IndexFirst(s, m, |x|);
    SplitStep(s, m, |x|);
    assert s[..|x|] == x;
    assert s[|x| + |m|..] == y;
  }

  /** The first occurrence is the one with nothing before it. */
  lemma IndexFirst(s: string, m: string, p: nat)
    requires At(s, m, p)
    requires forall i :: 0 <= i < p ==> !At(s, m, i)
    ensures Index(s, m) == Some(p)
  {
    IndexFromAt(s, m, 0, p);
  }

  lemma SplitOnce(x: string, m: string, y: string)
    requires IsMarker(m) && Absent(x + " ", m) && Absent(y, m)
    ensures Split(x + m + y, m) == [x, y]
  {
    SplitAfter(x, m, y);
    ContainsIff(y, m);
  }

  /** `x` holds no `m`, not even with the space that every separator after it
      starts with. */
  ghost predicate Sealed(x: string, m: string)
  {
    Absent(x + " ", m)
  }

  lemma SealedAbsent(x: string, m: string)
    requires Sealed(x, m)
    ensures Absent(x, m) && !Contains(x, m)
  {
    AbsentParts(x, " ", m);
    ContainsIff(x, m);
  }

  /** An isolated operand is sealed on both sides. */
  lemma IsoSealed(y: string, m: string)
    requires IsMarker(m) && Iso(y)
    ensures Sealed(y, m) && Absent(y, m)
  {
    assert " " + y + " " == " " + (y + " ");
    AbsentParts(" ", y + " ", m);
    SealedAbsent(y, m);
  }

  /** A marker used as a separator never reads as a different marker. */
  lemma MarkerSepOk(n: string, m: string)
    requires IsMarker(n) && IsMarker(m) && n != m
    ensures SepOk(n, m)
  {
  }

  lemma AndSepOk(m: string)
    requires IsMarker(m)
    ensures SepOk(" AND ", m)
  {
  }

  /** Gluing an isolated operand behind a separator keeps `m` out. */
  lemma SealedGlue(x: string, sep: string, y: string, m: string)
    requires IsMarker(m) && SepOk(sep, m) && Sealed(x, m) && Iso(y)
    ensures Sealed(x + sep + y, m)
  {
    assert " " + (y + " ") == " " + y + " ";
    SepGlue(x, sep, y + " ", m);
    assert x + sep + (y + " ") == x + sep + y + " ";
  }

  /** Gluing an isolated operand behind `", "` keeps `m` out. */
  lemma SealedComma(x: string, y: string, m: string)
    requires IsMarker(m) && Sealed(x, m) && Iso(y)
    ensures Sealed(x + ", " + y, m)
  {
    SealedAbsent(x, m);
    ShortFree(",");
    JunctionAt(x, ",", m);
    JunctionAt(x + ",", " " + y + " ", m);
    assert x + "," + (" " + y + " ") == x + ", " + y + " ";
  }

  /** Words that each end in a blank, except perhaps the last, never run
      together into a marker. */
  lemma {:induction false} ConcatFree(ws: seq<string>)
    requires |ws| > 0
    requires forall i :: 0 <= i < |ws| ==> Word(ws[i]) && (i < |ws| - 1 ==> ws[i][|ws[i]| - 1] == ' ')
    ensures Free(Concat(ws)) && |Concat(ws)| > 0
    ensures |ws[|ws| - 1]| > 0 && Concat(ws)[|Concat(ws)| - 1] == ws[|ws| - 1][|ws[|ws| - 1]| - 1]
    decreases |ws|
  {
    var init, w := ws[..|ws| - 1], ws[|ws| - 1];
    if |ws| == 1 {
      WordFree(w);
      assert Concat(ws) == Concat([]) + w == w;
    } else {
      ConcatFree(init);
      WordAfter(Concat(init), w);
    }
  }
}
