/** Text helpers used by the adapters: ASCII lower-casing (for the
    case-insensitive encoding parsers), decimal rendering of integers (the
    `{}` formatting of integers), joining with a separator, prefixes, and the
    lexicographic order of `String` together with the sort-and-dedup that
    the Deepgram adapter applies to speaker ids. */
module Strings {

  // ---------------------------------------------------------------------
  // Lower-casing

  /** Lower-cases one ASCII letter; every other character is kept. */
  function LowerChar(c: char): (d: char)
    ensures !('A' <= d <= 'Z')
    ensures !('A' <= c <= 'Z') ==> d == c
  {
    if 'A' <= c <= 'Z' then (c as int + 32) as char else c
  }

  /** A string that contains no upper-case ASCII letter. */
  predicate IsLower(s: string) {
    forall i :: 0 <= i < |s| ==> !('A' <= s[i] <= 'Z')
  }

  /** Character-wise lower-casing. */
  function ToLower(s: string): (r: string)
    ensures |r| == |s|
    ensures forall i :: 0 <= i < |s| ==> r[i] == LowerChar(s[i])
    ensures IsLower(r)
  {
    if s == [] then [] else [LowerChar(s[0])] + ToLower(s[1..])
  }

  /** Lower-casing leaves an already lower-case string alone. */
  lemma LowerOfLower(s: string)
    requires IsLower(s)
    ensures ToLower(s) == s
  {
  }

  /** Lower-casing is idempotent, so a parser that lower-cases its input
      first gives the same answer on `s` and on `ToLower(s)`. */
  lemma ToLowerIdempotent(s: string)
    ensures ToLower(ToLower(s)) == ToLower(s)
  {
    LowerOfLower(ToLower(s));
  }

  // ---------------------------------------------------------------------
  // Decimal rendering

  predicate IsDigit(c: char) { '0' <= c <= '9' }

  function DigitChar(d: nat): (c: char)
    requires d < 10
    ensures IsDigit(c)
  {
    ('0' as int + d) as char
  }

  /** The decimal rendering of a natural number (Rust's `{}` on unsigned
      integers): no sign, no leading zeros. */
  function NatToString(n: nat): (s: string)
    ensures 1 <= |s|
    ensures forall i :: 0 <= i < |s| ==> IsDigit(s[i])
    ensures (|s| == 1) == (n < 10)
    decreases n
  {
    if n < 10 then [DigitChar(n)] else NatToString(n / 10) + [DigitChar(n % 10)]
  }

  /** The decimal rendering of an integer (Rust's `{}` / `to_string` on
      signed integers): a leading `-` for negative values. */
  function IntToString(i: int): (s: string)
    ensures 1 <= |s|
    ensures (s[0] == '-') == (i < 0)
  {
    if i < 0 then "-" + NatToString(-i) else NatToString(i)
  }

  lemma {:induction false} NatToStringInjective(a: nat, b: nat)
    requires NatToString(a) == NatToString(b)
    ensures a == b
    decreases a
  {
    if a >= 10 && b >= 10 {
      var sa, sb := NatToString(a), NatToString(b);
      assert sa == NatToString(a / 10) + [DigitChar(a % 10)];
      assert sb == NatToString(b / 10) + [DigitChar(b % 10)];
      assert sa[..|sa| - 1] == NatToString(a / 10);
      assert sb[..|sb| - 1] == NatToString(b / 10);
      NatToStringInjective(a / 10, b / 10);
      assert DigitChar(a % 10) == sa[|sa| - 1] == sb[|sb| - 1] == DigitChar(b % 10);
    }
  }

  /** Distinct integers have distinct renderings, so de-duplicating ids
      before or after rendering them gives the same set. */
  lemma IntToStringInjective(a: int, b: int)
    requires IntToString(a) == IntToString(b)
    ensures a == b
  {
    if a < 0 && b < 0 {
      assert NatToString(-a) == IntToString(a)[1..];
      assert NatToString(-b) == IntToString(b)[1..];
      NatToStringInjective(-a, -b);
    } else if a >= 0 && b >= 0 {
      NatToStringInjective(a, b);
    }
  }

  // ---------------------------------------------------------------------
  // Joining and prefixes

  /** `parts.join(sep)`. */
  function Join(parts: seq<string>, sep: string): string
  {
    if |parts| == 0 then ""
    else if |parts| == 1 then parts[0]
    else parts[0] + sep + Join(parts[1..], sep)
  }

  lemma JoinCons(x: string, rest: seq<string>, sep: string)
    requires rest != []
    ensures Join([x] + rest, sep) == x + sep + Join(rest, sep)
  {
    assert ([x] + rest)[1..] == rest;
  }

  /** `s.starts_with(prefix)`. */
  predicate StartsWith(s: string, prefix: string) {
    |prefix| <= |s| && s[..|prefix|] == prefix
  }

  /** Rust's `{}` on a `bool`. */
  function BoolToString(b: bool): string {
    if b then "true" else "false"
  }

  // ---------------------------------------------------------------------
  // Lexicographic order and sort + dedup

  /** The order of Rust's `String`: lexicographic by character (for UTF-8
      byte strings this is the same as code-point order). */
  predicate LexLess(a: string, b: string)
    decreases |a|
  {
    if |a| == 0 then |b| > 0
    else if |b| == 0 then false
    else a[0] < b[0] || (a[0] == b[0] && LexLess(a[1..], b[1..]))
  }

  lemma {:induction false} LexLessIrreflexive(a: string)
    ensures !LexLess(a, a)
    decreases |a|
  {
    if |a| > 0 { LexLessIrreflexive(a[1..]); }
  }

  lemma {:induction false} LexLessTransitive(a: string, b: string, c: string)
    requires LexLess(a, b) && LexLess(b, c)
    ensures LexLess(a, c)
    decreases |a|
  {
    if |a| > 0 && |b| > 0 && |c| > 0 && a[0] == b[0] == c[0] {
      LexLessTransitive(a[1..], b[1..], c[1..]);
    }
  }

  lemma {:induction false} LexLessTotal(a: string, b: string)
    requires a != b
    ensures LexLess(a, b) || LexLess(b, a)
    decreases |a|
  {
    if |a| > 0 && |b| > 0 && a[0] == b[0] {
      assert a == [a[0]] + a[1..] && b == [b[0]] + b[1..];
      LexLessTotal(a[1..], b[1..]);
    }
  }

  /** Every element is strictly smaller than the next one: sorted and
      without duplicates. */
  predicate StrictlySorted(s: seq<string>) {
    forall i, j :: 0 <= i < j < |s| ==> LexLess(s[i], s[j])
  }

  /** Inserts `x` at its place in a strictly sorted sequence, unless it is
      already there. */
  function Insert(sorted: seq<string>, x: string): seq<string>
  {
    if sorted == [] then [x]
    else if x == sorted[0] then sorted
    else if LexLess(x, sorted[0]) then [x] + sorted
    else [sorted[0]] + Insert(sorted[1..], x)
  }

  lemma {:induction false} InsertCorrect(sorted: seq<string>, x: string)
    requires StrictlySorted(sorted)
    ensures StrictlySorted(Insert(sorted, x))
    ensures forall y :: y in Insert(sorted, x) <==> y in sorted || y == x
  {
    if sorted == [] {
    } else if x == sorted[0] {
    } else if LexLess(x, sorted[0]) {
      var r := [x] + sorted;
      forall i, j | 0 <= i < j < |r| ensures LexLess(r[i], r[j]) {
        if i == 0 && j > 1 { LexLessTransitive(x, sorted[0], sorted[j - 1]); }
      }
    } else {
      LexLessTotal(x, sorted[0]);
      InsertCorrect(sorted[1..], x);
      var tail := Insert(sorted[1..], x);
      var r := [sorted[0]] + tail;
      forall i, j | 0 <= i < j < |r| ensures LexLess(r[i], r[j]) {
        if i == 0 {
          var y := tail[j - 1];
          assert y in tail;
          if y != x {
            assert y in sorted[1..];
            var k :| 0 <= k < |sorted[1..]| && sorted[1..][k] == y;
            assert sorted[k + 1] == y;
          }
        }
      }
    }
  }

  /** `ids.sort(); ids.dedup();` on a vector of strings, as a value: the
      elements inserted one by one, in input order, into a sorted result. */
  function SortedDedup(s: seq<string>): seq<string>
  {
    if s == [] then [] else Insert(SortedDedup(s[..|s| - 1]), s[|s| - 1])
  }

  /** Sort + dedup yields a strictly sorted sequence of exactly the input's
      elements. */
  lemma {:induction false} SortedDedupCorrect(s: seq<string>)
    ensures StrictlySorted(SortedDedup(s))
    ensures forall y :: y in SortedDedup(s) <==> y in s
  {
    if s != [] {
      var init := s[..|s| - 1];
      SortedDedupCorrect(init);
      InsertCorrect(SortedDedup(init), s[|s| - 1]);
      assert s == init + [s[|s| - 1]];
      forall y ensures y in s <==> y in init || y == s[|s| - 1] {
        if y in s {
          var k :| 0 <= k < |s| && s[k] == y;
          if k < |s| - 1 { assert init[k] == y; }
        }
      }
    }
  }

  lemma HeadInSeq(s: seq<string>)
    requires s != []
    ensures s[0] in s
  {
  }

  /** There is only one strictly sorted enumeration of a set of strings, so
      sort + dedup is determined by the set of its inputs alone. */
  lemma {:induction false} StrictlySortedUnique(a: seq<string>, b: seq<string>)
    requires StrictlySorted(a) && StrictlySorted(b)
    requires forall y :: y in a <==> y in b
    ensures a == b
    decreases |a|
  {
    if a != [] && b != [] {
      assert a[0] in b;
      assert b[0] in a;
      if a[0] != b[0] {
        var i :| 0 <= i < |b| && b[i] == a[0];
        var j :| 0 <= j < |a| && a[j] == b[0];
        assert LexLess(b[0], a[0]) by { assert i > 0; }
        assert LexLess(a[0], b[0]) by { assert j > 0; }
        LexLessTransitive(a[0], b[0], a[0]);
        LexLessIrreflexive(a[0]);
      }
      forall y ensures y in a[1..] <==> y in b[1..] {
        if y in a[1..] {
          var k :| 0 <= k < |a[1..]| && a[1..][k] == y;
          assert LexLess(a[0], y) by { assert a[k + 1] == y; }
          LexLessIrreflexive(y);
          assert y in b && y != b[0];
          var m :| 0 <= m < |b| && b[m] == y;
          assert b[1..][m - 1] == y;
        }
        if y in b[1..] {
          var k :| 0 <= k < |b[1..]| && b[1..][k] == y;
          assert LexLess(b[0], y) by { assert b[k + 1] == y; }
          LexLessIrreflexive(y);
          assert y in a && y != a[0];
          var m :| 0 <= m < |a| && a[m] == y;
          assert a[1..][m - 1] == y;
        }
      }
      StrictlySortedUnique(a[1..], b[1..]);
      assert a == [a[0]] + a[1..] && b == [b[0]] + b[1..];
    } else if a != [] {
      HeadInSeq(a);
    } else if b != [] {
      HeadInSeq(b);
    }
  }
}
