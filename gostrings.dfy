/**
 * The parts of Go's `strings` package and `%q` formatting that the provider
 * uses, on Dafny strings (sequences of Unicode scalar values, i.e. Go runes).
 */
module GoStrings {

  /** Number of occurrences of c in s. */
  function Count(s: string, c: char): nat {
    if s == [] then 0 else (if s[0] == c then 1 else 0) + Count(s[1..], c)
  }

  /** The inverse of Split: the parts with one separator between neighbours. */
  function Join(parts: seq<string>, sep: char): string
    requires |parts| >= 1
  {
    if |parts| == 1 then parts[0] else parts[0] + [sep] + Join(parts[1..], sep)
  }

  /**
   * `strings.Split(s, string(sep))`: the substrings between separators. The
   * empty string gives one empty part, and a leading or trailing separator
   * gives an empty first or last part.
   */
  function Split(s: string, sep: char): (parts: seq<string>)
    ensures |parts| == Count(s, sep) + 1
    ensures forall i :: 0 <= i < |parts| ==> sep !in parts[i]
    ensures Join(parts, sep) == s
    ensures parts[0] == [] <==> s == [] || s[0] == sep
    decreases |s|
  {
    if s == [] then [[]]
    else
      var rest := Split(s[1..], sep);
      if s[0] == sep then
        [[]] + rest
      else
        var parts := [[s[0]] + rest[0]] + rest[1..];
        assert parts[1..] == rest[1..];
        assert Join(parts, sep) == [s[0]] + Join(rest, sep);
        parts
  }

  /** The last part is empty exactly when s is empty or ends with the separator. */
  lemma {:induction false} SplitLast(s: string, sep: char)
    ensures var parts := Split(s, sep); parts[|parts| - 1] == [] <==> s == [] || s[|s| - 1] == sep
    decreases |s|
  {
    if s != [] {
      var t := s[1..];
      SplitLast(t, sep);
      var rest := Split(t, sep);
      var parts := Split(s, sep);
      var last := parts[|parts| - 1];
      if s[0] == sep {
        assert parts == [[]] + rest;
        if t != [] {
          assert last == rest[|rest| - 1];
          assert s[|s| - 1] == t[|t| - 1];
        }
      } else if |rest| == 1 {
        assert last == [s[0]] + rest[0];
        if t != [] {
          assert s[|s| - 1] == t[|t| - 1];
        }
      } else {
        assert last == rest[|rest| - 1];
        assert s[|s| - 1] == t[|t| - 1];
      }
    }
  }

  /** Splitting a string without the separator gives that string alone. */
  lemma {:induction false} SplitNoSeparator(a: string, sep: char)
    requires sep !in a
    ensures Split(a, sep) == [a]
    decreases |a|
  {
    if a != [] {
      SplitNoSeparator(a[1..], sep);
    }
  }

  /** A separator after a separator-free prefix ends the first part there. */
  lemma {:induction false} SplitAfterPrefix(a: string, rest: string, sep: char)
    requires sep !in a
    ensures Split(a + [sep] + rest, sep) == [a] + Split(rest, sep)
    decreases |a|
  {
    if a == [] {
      assert a + [sep] + rest == [sep] + rest;
      assert ([sep] + rest)[1..] == rest;
    } else {
      SplitAfterPrefix(a[1..], rest, sep);
      var s := a + [sep] + rest;
      assert s[0] == a[0] && s[1..] == a[1..] + [sep] + rest;
      var rs := Split(s[1..], sep);
      assert rs == [a[1..]] + Split(rest, sep);
      assert rs[0] == a[1..] && rs[1..] == Split(rest, sep);
      assert [s[0]] + rs[0] == a;
    }
  }

  /** Two separator-free strings joined by one separator split back into the two. */
  lemma SplitTwo(a: string, b: string, sep: char)
    requires sep !in a && sep !in b
    ensures Split(a + [sep] + b, sep) == [a, b]
  {
    SplitAfterPrefix(a, b, sep);
    SplitNoSeparator(b, sep);
  }

  /** The first part of a split: the prefix before the first separator. */
  lemma {:induction false} SplitFirstIsPrefix(s: string, sep: char)
    ensures var p := Split(s, sep)[0];
      |p| <= |s| && p == s[..|p|] && (|p| == |s| || s[|p|] == sep)
    decreases |s|
  {
    if s != [] && s[0] != sep {
      SplitFirstIsPrefix(s[1..], sep);
    }
  }

  // ---------------------------------------------------------------------------
  // strings.EqualFold against an ASCII target

  /**
   * Whether the rune c is in the Unicode simple case-folding orbit of the
   * ASCII character t, which is what `strings.EqualFold` compares rune by
   * rune. For an ASCII letter the orbit is its two cases, plus KELVIN SIGN
   * (U+212A) for k and LATIN SMALL LETTER LONG S (U+017F) for s; any other
   * ASCII character folds only to itself.
   */
  predicate FoldsTo(c: char, t: char)
    requires t <= '\U{7F}'
  {
    c == t
    || ('a' <= t <= 'z' && c as int == t as int - 32)
    || ('A' <= t <= 'Z' && c as int == t as int + 32)
    || ((t == 'k' || t == 'K') && c == '\U{212A}')
    || ((t == 's' || t == 'S') && c == '\U{017F}')
  }

  predicate IsAscii(t: string) {
    forall i :: 0 <= i < |t| ==> t[i] <= '\U{7F}'
  }

  /** `strings.EqualFold(s, t)` for an ASCII string t: same number of runes, each in t's fold orbit. */
  predicate EqualFold(s: string, t: string)
    requires IsAscii(t)
  {
    |s| == |t| && forall i :: 0 <= i < |s| ==> FoldsTo(s[i], t[i])
  }

  /** ASCII upper-casing, for stating that case variants fold together. */
  function AsciiUpper(t: string): (u: string)
    ensures |u| == |t|
  {
    seq(|t|, i requires 0 <= i < |t| => if 'a' <= t[i] <= 'z' then (t[i] as int - 32) as char else t[i])
  }

  lemma AsciiUpperFolds(t: string)
    requires IsAscii(t)
    ensures EqualFold(AsciiUpper(t), t)
  {
  }

  // ---------------------------------------------------------------------------
  // %q

  /**
   * `fmt.Sprintf("%q", s)`: s between double quotes. Go also escapes quotes,
   * backslashes and non-printable runes inside; that escaping is not modelled.
   */
  function Quote(s: string): string {
    "\"" + s + "\""
  }

  // ---------------------------------------------------------------------------
  // A total order on strings, used to list a set's elements deterministically

  /** Lexicographic order on runes. */
  predicate LexLe(a: string, b: string)
    decreases |a|
  {
    a == [] || (b != [] && (a[0] < b[0] || (a[0] == b[0] && LexLe(a[1..], b[1..]))))
  }

  lemma {:induction false} LexLeTotal(a: string, b: string)
    ensures LexLe(a, b) || LexLe(b, a)
    decreases |a|
  {
    if a != [] && b != [] && a[0] == b[0] {
      LexLeTotal(a[1..], b[1..]);
    }
  }

  lemma {:induction false} LexLeAntisymmetric(a: string, b: string)
    requires LexLe(a, b) && LexLe(b, a)
    ensures a == b
    decreases |a|
  {
    if a != [] {
      LexLeAntisymmetric(a[1..], b[1..]);
      assert a == [a[0]] + a[1..] && b == [b[0]] + b[1..];
    }
  }

  lemma {:induction false} LexLeTransitive(a: string, b: string, c: string)
    requires LexLe(a, b) && LexLe(b, c)
    ensures LexLe(a, c)
    decreases |a|
  {
    if a != [] && a[0] == b[0] && b[0] == c[0] {
      LexLeTransitive(a[1..], b[1..], c[1..]);
    }
  }

  /** Every non-empty finite set of strings has a least element. */
  lemma {:induction false} LeastExists(s: set<string>)
    requires s != {}
    ensures exists m :: m in s && forall y :: y in s ==> LexLe(m, y)
    decreases |s|
  {
    var x :| x in s;
    if s == {x} {
      LexLeTotal(x, x);
    } else {
      LeastExists(s - {x});
      var m :| m in s - {x} && forall y :: y in s - {x} ==> LexLe(m, y);
      LexLeTotal(m, x);
      if LexLe(m, x) {
        assert forall y :: y in s ==> LexLe(m, y);
      } else {
        forall y | y in s ensures LexLe(x, y) {
          if y != x {
            LexLeTransitive(x, m, y);
          } else {
            LexLeTotal(x, x);
          }
        }
      }
    }
  }

  /** The least element of a non-empty set of strings. */
  function Least(s: set<string>): (m: string)
    requires s != {}
    ensures m in s && forall y :: y in s ==> LexLe(m, y)
  {
    LeastExists(s);
    forall a, b | LexLe(a, b) && LexLe(b, a) ensures a == b {
      LexLeAntisymmetric(a, b);
    }
    var m :| m in s && forall y :: y in s ==> LexLe(m, y);
    m
  }

  /** The elements of s, each once, in ascending order. */
  function Elements(s: set<string>): (r: seq<string>)
    ensures forall x :: x in r <==> x in s
    ensures |r| == |s|
    ensures forall i, j :: 0 <= i < j < |r| ==> r[i] != r[j]
    decreases |s|
  {
    if s == {} then []
    else
      var m := Least(s);
      var rest := Elements(s - {m});
      var r := [m] + rest;
      assert forall i :: 1 <= i < |r| ==> r[i] == rest[i - 1];
      r
  }
}
