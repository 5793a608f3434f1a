/** Option, as used for the optional (`?:`) fields of the generator's inputs. */
module Wrappers {
  datatype Option<+T> = None | Some(value: T)
}

/** String helpers shared by the renderers: global single-character
    replacement, line joining, substring occurrence and JavaScript's
    printing of an integer. */
module Text {

  /** `needle` occurs in `hay` as a contiguous run of characters. */
  ghost predicate Occurs(needle: string, hay: string) {
    exists i :: 0 <= i <= |hay| && needle <= hay[i..]
  }

  /** `x` occurs in `hay`, and `y` occurs later, not overlapping it. */
  ghost predicate OccursBefore(x: string, y: string, hay: string) {
    exists p, q :: 0 <= p && p + |x| <= q <= |hay| && x <= hay[p..] && y <= hay[q..]
  }

  lemma OccursBetween(pre: string, needle: string, post: string)
    ensures Occurs(needle, pre + needle + post)
  {
    var hay := pre + needle + post;
    assert hay[|pre|..] == needle + post;
  }

  /** An occurrence survives being embedded in a larger string. */
  lemma OccursWithin(needle: string, mid: string, pre: string, post: string)
    requires Occurs(needle, mid)
    ensures Occurs(needle, pre + mid + post)
  {
    var i :| 0 <= i <= |mid| && needle <= mid[i..];
    var hay := pre + mid + post;
    assert hay[|pre| + i..] == mid[i..] + post;
  }

  lemma OccursBeforeWithin(x: string, y: string, mid: string, pre: string, post: string)
    requires OccursBefore(x, y, mid)
    ensures OccursBefore(x, y, pre + mid + post)
  {
    var p, q :| 0 <= p && p + |x| <= q <= |mid| && x <= mid[p..] && y <= mid[q..];
    var hay := pre + mid + post;
    assert hay[|pre| + p..] == mid[p..] + post;
    assert hay[|pre| + q..] == mid[q..] + post;
    PrefixOfAppend(x, mid[p..], post);
    PrefixOfAppend(y, mid[q..], post);
  }

  lemma PrefixOfAppend(x: string, s: string, t: string)
    requires x <= s
    ensures x <= s + t
  {
    assert (s + t)[..|x|] == s[..|x|];
  }

  /** `s.replace(/t/g, replacement)` for a one-character pattern `t` and a
      replacement holding no `$` pattern: every occurrence of `t` is
      replaced, left to right, and the replacement text is never rescanned. */
  function ReplaceAll(s: string, target: char, replacement: string): (r: string)
    ensures target !in s ==> r == s
    ensures target !in replacement ==> target !in r
  {
    if s == [] then []
    else (if s[0] == target then replacement else [s[0]]) + ReplaceAll(s[1..], target, replacement)
  }

  /** A character in neither the input nor the replacement is not in the result. */
  lemma {:induction false} ReplaceAllExcludes(s: string, target: char, replacement: string, c: char)
    requires c !in s && c !in replacement
    ensures c !in ReplaceAll(s, target, replacement)
  {
    if s != [] {
      assert c !in s[1..] by { assert forall x :: x in s[1..] ==> x in s; }
      ReplaceAllExcludes(s[1..], target, replacement, c);
    }
  }

  /** Replacement works piecewise: it distributes over concatenation. */
  lemma {:induction false} ReplaceAllAppend(a: string, b: string, target: char, replacement: string)
    ensures ReplaceAll(a + b, target, replacement) == ReplaceAll(a, target, replacement) + ReplaceAll(b, target, replacement)
  {
    if a == [] {
      assert a + b == b;
    } else {
      assert (a + b)[0] == a[0];
      assert (a + b)[1..] == a[1..] + b;
      ReplaceAllAppend(a[1..], b, target, replacement);
    }
  }

  /** `parts.join('')`. */
  function Concat(parts: seq<string>): string {
    if parts == [] then "" else parts[0] + Concat(parts[1..])
  }

  lemma {:induction false} ConcatAppend(a: seq<string>, b: seq<string>)
    ensures Concat(a + b) == Concat(a) + Concat(b)
  {
    if a == [] {
      assert a + b == b;
    } else {
      assert (a + b)[1..] == a[1..] + b;
      ConcatAppend(a[1..], b);
    }
  }

  /** A joined text splits around any one of its parts. */
  lemma ConcatAt(parts: seq<string>, i: nat)
    requires i < |parts|
    ensures Concat(parts) == Concat(parts[..i]) + parts[i] + Concat(parts[i + 1..])
  {
    var pre, post := parts[..i], parts[i..];
    assert parts == pre + post;
    ConcatAppend(pre, post);
    assert post[0] == parts[i] && post[1..] == parts[i + 1..];
  }

  /** Every part of a joined text occurs in it. */
  lemma ConcatHasPart(parts: seq<string>, i: nat)
    requires i < |parts|
    ensures Occurs(parts[i], Concat(parts))
  {
    ConcatAt(parts, i);
    OccursBetween(Concat(parts[..i]), parts[i], Concat(parts[i + 1..]));
  }

  lemma OccursAtStart(needle: string, rest: string)
    ensures Occurs(needle, needle + rest)
  {
    assert (needle + rest)[0..] == needle + rest;
  }

  lemma OccursInSuffix(needle: string, a: string, b: string)
    requires Occurs(needle, b)
    ensures Occurs(needle, a + b)
  {
    var i :| 0 <= i <= |b| && needle <= b[i..];
    assert (a + b)[|a| + i..] == b[i..];
  }

  /** Occurrences in the second and fourth of five right-nested parts come in order. */
  lemma OccursBeforeNested(a: string, u: string, b: string, v: string, c: string, x: string, y: string)
    requires Occurs(x, u) && Occurs(y, v)
    ensures OccursBefore(x, y, a + (u + (b + (v + c))))
  {
    OccursBeforeSplit(a, u, b, v, c, x, y);
    assert a + u + (b + v + c) == a + (u + (b + (v + c)));
  }

  lemma OccursInPrefix(needle: string, a: string, b: string)
    requires Occurs(needle, a)
    ensures Occurs(needle, a + b)
  {
    var i :| 0 <= i <= |a| && needle <= a[i..];
    assert (a + b)[i..] == a[i..] + b;
  }

  lemma OccursBeforeInPrefix(x: string, y: string, a: string, b: string)
    requires OccursBefore(x, y, a)
    ensures OccursBefore(x, y, a + b)
  {
    var p, q :| 0 <= p && p + |x| <= q <= |a| && x <= a[p..] && y <= a[q..];
    assert (a + b)[p..] == a[p..] + b;
    assert (a + b)[q..] == a[q..] + b;
  }

  lemma OccursBeforeAfterPrefix(x: string, y: string, pre: string, s: string)
    requires OccursBefore(x, y, s)
    ensures OccursBefore(x, y, pre + s)
  {
    var p, q :| 0 <= p && p + |x| <= q <= |s| && x <= s[p..] && y <= s[q..];
    assert (pre + s)[|pre| + p..] == s[p..];
    assert (pre + s)[|pre| + q..] == s[q..];
  }

  /** A common prefix can be cancelled. */
  lemma CancelPrefix(pre: string, x: string, y: string)
    requires pre + x == pre + y
    ensures x == y
  {
    assert x == (pre + x)[|pre|..];
    assert y == (pre + y)[|pre|..];
  }

  /** A common suffix can be cancelled. */
  lemma CancelSuffix(x: string, y: string, post: string)
    requires x + post == y + post
    ensures x == y
  {
    assert x == (x + post)[..|x|];
    assert y == (y + post)[..|y|];
  }

  lemma OccursBeforeSplit(a: string, u: string, b: string, v: string, c: string, x: string, y: string)
    requires Occurs(x, u) && Occurs(y, v)
    ensures OccursBefore(x, y, a + u + (b + v + c))
  {
    var hay := a + u + (b + v + c);
    var pu :| 0 <= pu <= |u| && x <= u[pu..];
    var qv :| 0 <= qv <= |v| && y <= v[qv..];
    assert hay[|a| + pu..] == u[pu..] + (b + v + c);
    assert hay[|a| + |u| + |b| + qv..] == v[qv..] + c;
  }

  /** Something found in an earlier part comes before something found in a later part. */
  lemma ConcatOccursBefore(parts: seq<string>, i: nat, j: nat, x: string, y: string)
    requires i < j < |parts|
    requires Occurs(x, parts[i]) && Occurs(y, parts[j])
    ensures OccursBefore(x, y, Concat(parts))
  {
    var rest := parts[i + 1..];
    ConcatAt(parts, i);
    assert rest[j - i - 1] == parts[j];
    ConcatHasPart(rest, j - i - 1);
    OccursTransitive(y, parts[j], Concat(rest));
    OccursBeforeAdjacent(Concat(parts[..i]), parts[i], Concat(rest), x, y);
  }

  /** An occurrence in one string comes before an occurrence in the string that follows it. */
  lemma OccursBeforeAdjacent(a: string, u: string, w: string, x: string, y: string)
    requires Occurs(x, u) && Occurs(y, w)
    ensures OccursBefore(x, y, a + u + w)
  {
    OccursBeforeSplit(a, u, "", w, "", x, y);
    assert a + u + ("" + w + "") == a + u + w;
  }

  /** Lines joined by "\n", as a multi-line template literal lays them out. */
  function JoinLines(lines: seq<string>): string {
    if |lines| == 0 then ""
    else if |lines| == 1 then lines[0]
    else lines[0] + "\n" + JoinLines(lines[1..])
  }

  lemma {:induction false} JoinLinesAppend(a: seq<string>, b: seq<string>)
    requires a != [] && b != []
    ensures JoinLines(a + b) == JoinLines(a) + "\n" + JoinLines(b)
  {
    if |a| == 1 {
      assert (a + b)[1..] == b;
    } else {
      assert (a + b)[1..] == a[1..] + b;
      JoinLinesAppend(a[1..], b);
    }
  }

  /** Regrouping lines around the second line of a middle block. */
  lemma RegroupAround(a: seq<string>, b: seq<string>, c: seq<string>)
    requires |b| >= 2
    ensures a + b + c == (a + [b[0]]) + [b[1]] + (b[2..] + c)
  {
    assert b == [b[0]] + [b[1]] + b[2..];
  }

  /** Lines that differ in one place join to different texts. */
  lemma JoinLinesCancel(pre: seq<string>, x: string, y: string, post: seq<string>)
    requires pre != [] && post != []
    requires JoinLines(pre + [x] + post) == JoinLines(pre + [y] + post)
    ensures x == y
  {
    assert pre + [x] + post == pre + ([x] + post);
    assert pre + [y] + post == pre + ([y] + post);
    JoinLinesAppend(pre, [x] + post);
    JoinLinesAppend(pre, [y] + post);
    JoinLinesAppend([x], post);
    JoinLinesAppend([y], post);
    var p, q := JoinLines(pre) + "\n", "\n" + JoinLines(post);
    assert JoinLines(pre) + "\n" + (x + "\n" + JoinLines(post)) == p + (x + q);
    assert JoinLines(pre) + "\n" + (y + "\n" + JoinLines(post)) == p + (y + q);
    CancelPrefix(p, x + q, y + q);
    CancelSuffix(x, y, q);
  }

  /** Every line of a joined text occurs in it. */
  lemma {:induction false} JoinLinesHasLine(lines: seq<string>, k: nat)
    requires k < |lines|
    ensures exists pre, post :: JoinLines(lines) == pre + lines[k] + post
  {
    if |lines| == 1 {
      assert JoinLines(lines) == "" + lines[0] + "";
    } else if k == 0 {
      assert JoinLines(lines) == "" + lines[0] + ("\n" + JoinLines(lines[1..]));
    } else {
      JoinLinesHasLine(lines[1..], k - 1);
      var pre, post :| JoinLines(lines[1..]) == pre + lines[1..][k - 1] + post;
      assert JoinLines(lines) == (lines[0] + "\n" + pre) + lines[k] + post;
    }
  }

  /** Occurrence is transitive. */
  lemma OccursTransitive(x: string, y: string, z: string)
    requires Occurs(x, y) && Occurs(y, z)
    ensures Occurs(x, z)
  {
    var i :| 0 <= i <= |y| && x <= y[i..];
    var j :| 0 <= j <= |z| && y <= z[j..];
    assert y[i..] <= z[j + i..] by {
      assert forall k :: 0 <= k < |y| - i ==> y[i..][k] == y[i + k] == z[j..][i + k] == z[j + i..][k];
    }
  }

  /** Something found in one line is found in the joined text. */
  lemma JoinLinesOccurs(lines: seq<string>, k: nat, x: string)
    requires k < |lines| && Occurs(x, lines[k])
    ensures Occurs(x, JoinLines(lines))
  {
    JoinLinesHasLine(lines, k);
    var pre, post :| JoinLines(lines) == pre + lines[k] + post;
    OccursWithin(x, lines[k], pre, post);
  }

  lemma JoinLinesOccursBeforeInLine(lines: seq<string>, k: nat, x: string, y: string)
    requires k < |lines| && OccursBefore(x, y, lines[k])
    ensures OccursBefore(x, y, JoinLines(lines))
  {
    JoinLinesHasLine(lines, k);
    var pre, post :| JoinLines(lines) == pre + lines[k] + post;
    OccursBeforeWithin(x, y, lines[k], pre, post);
  }

  /** Something found in an earlier line comes before something found in a later one. */
  lemma {:induction false} JoinLinesOccursBefore(lines: seq<string>, i: nat, j: nat, x: string, y: string)
    requires i < j < |lines|
    requires Occurs(x, lines[i]) && Occurs(y, lines[j])
    ensures OccursBefore(x, y, JoinLines(lines))
  {
    var rest := lines[1..];
    assert rest[j - 1] == lines[j];
    if i == 0 {
      JoinLinesOccurs(rest, j - 1, y);
      OccursBeforeSplit("", lines[0], "\n", JoinLines(rest), "", x, y);
      assert "" + lines[0] + ("\n" + JoinLines(rest) + "") == JoinLines(lines);
    } else {
      assert rest[i - 1] == lines[i];
      JoinLinesOccursBefore(rest, i - 1, j - 1, x, y);
      OccursBeforeWithin(x, y, JoinLines(rest), lines[0] + "\n", "");
      assert lines[0] + "\n" + JoinLines(rest) + "" == JoinLines(lines);
    }
  }

  function DigitChar(d: nat): (c: char)
    requires d < 10
    ensures '0' <= c <= '9'
  {
    (48 + d) as char
  }

  function DigitValue(c: char): (d: nat)
    requires '0' <= c <= '9'
    ensures d < 10
  {
    c as int - 48
  }

  ghost predicate AllDigits(s: string) {
    forall i :: 0 <= i < |s| ==> '0' <= s[i] <= '9'
  }

  /** The decimal digits of `n`, most significant first, without leading zeros. */
  function NatToDecimal(n: nat): (r: string)
    ensures |r| >= 1 && AllDigits(r)
    ensures r[0] == '0' ==> n == 0
    decreases n
  {
    if n < 10 then [DigitChar(n)] else NatToDecimal(n / 10) + [DigitChar(n % 10)]
  }

  /** The value of a string of decimal digits. */
  function DecimalValue(s: string): nat
    requires AllDigits(s)
  {
    if s == [] then 0 else 10 * DecimalValue(s[..|s| - 1]) + DigitValue(s[|s| - 1])
  }

  lemma {:induction false} DecimalRoundTrip(n: nat)
    ensures DecimalValue(NatToDecimal(n)) == n
    decreases n
  {
    var r := NatToDecimal(n);
    if n >= 10 {
      assert r[..|r| - 1] == NatToDecimal(n / 10);
      DecimalRoundTrip(n / 10);
    }
  }

  /** `${n}` for an integer-valued JavaScript number (well below 10^21, so
      never printed with an exponent). */
  function IntToDecimal(i: int): (r: string)
    ensures |r| >= 1
    ensures r[0] == '-' <==> i < 0
  {
    if i < 0 then "-" + NatToDecimal(-i) else NatToDecimal(i)
  }

  lemma NatToDecimalInjective(m: nat, n: nat)
    requires NatToDecimal(m) == NatToDecimal(n)
    ensures m == n
  {
    DecimalRoundTrip(m);
    DecimalRoundTrip(n);
  }

  /** Printing an integer loses nothing: distinct integers print differently. */
  lemma IntToDecimalInjective(a: int, b: int)
    ensures IntToDecimal(a) == IntToDecimal(b) <==> a == b
  {
    var ra, rb := IntToDecimal(a), IntToDecimal(b);
    if ra == rb {
      if a < 0 {
        assert ra[0] == '-';
        assert b < 0;
        assert ra == "-" + NatToDecimal(-a) && rb == "-" + NatToDecimal(-b);
        CancelPrefix("-", NatToDecimal(-a), NatToDecimal(-b));
        NatToDecimalInjective(-a, -b);
      } else {
        assert ra[0] != '-';
        assert b >= 0;
        NatToDecimalInjective(a, b);
      }
    }
  }
}
