/** String helpers shared by the client and server models: prefix and substring
    tests, splitting on one separator (JavaScript `String.prototype.split` with a
    one-character separator) and its inverse, concatenation of chunks, ASCII case
    folding and decimal rendering of status codes. */
module TextUtil {

  predicate StartsWith(s: string, prefix: string) {
    |prefix| <= |s| && s[..|prefix|] == prefix
  }

  /** `needle in haystack` (Python) / `haystack.includes(needle)` (JavaScript). */
  predicate Contains(haystack: string, needle: string)
    decreases |haystack|
  {
    StartsWith(haystack, needle) || (|haystack| > 0 && Contains(haystack[1..], needle))
  }

  lemma {:induction false} ContainsAt(haystack: string, needle: string, i: nat)
    requires i + |needle| <= |haystack| && haystack[i..i + |needle|] == needle
    ensures Contains(haystack, needle)
    decreases i
  {
    if i > 0 {
      assert haystack[1..][i - 1..i - 1 + |needle|] == haystack[i..i + |needle|];
      ContainsAt(haystack[1..], needle, i - 1);
    }
  }

  /** A literal or an appended piece shows up in a concatenation. */
  lemma ContainsInfix(prefix: string, needle: string, suffix: string)
    ensures Contains(prefix + needle + suffix, needle)
  {
    var s := prefix + needle + suffix;
    assert s[|prefix|..|prefix| + |needle|] == needle;
    ContainsAt(s, needle, |prefix|);
  }

  /** The inverse of Split: glue the parts back together with the separator. */
  function Join(parts: seq<string>, sep: char): string
    requires |parts| >= 1
  {
    if |parts| == 1 then parts[0] else parts[0] + [sep] + Join(parts[1..], sep)
  }

  /** JavaScript `s.split(sep)` for a one-character separator: the pieces
      between separators, in order; there is always at least one. */
  function Split(s: string, sep: char): (parts: seq<string>)
    ensures |parts| >= 1
    decreases |s|
  {
    if s == [] then [[]]
    else
      var rest := Split(s[1..], sep);
      if s[0] == sep then [[]] + rest
      else [[s[0]] + rest[0]] + rest[1..]
  }

  /** No part contains the separator, and joining the parts with it gives the
      text back. */
  lemma {:induction false} SplitJoin(s: string, sep: char)
    ensures forall i :: 0 <= i < |Split(s, sep)| ==> sep !in Split(s, sep)[i]
    ensures Join(Split(s, sep), sep) == s
    decreases |s|
  {
    if s != [] {
      SplitJoin(s[1..], sep);
      var rest := Split(s[1..], sep);
      var parts := Split(s, sep);
      if s[0] == sep {
        assert parts[1..] == rest;
      } else {
        assert parts[1..] == rest[1..];
        if |rest| > 1 {
          calc {
            Join(parts, sep);
            parts[0] + [sep] + Join(rest[1..], sep);
            [s[0]] + (rest[0] + [sep] + Join(rest[1..], sep));
            [s[0]] + Join(rest, sep);
          }
        }
        assert s == [s[0]] + s[1..];
      }
    }
  }

  /** A text without the separator is its own only part. */
  lemma {:induction false} SplitNoSeparator(s: string, sep: char)
    requires sep !in s
    ensures Split(s, sep) == [s]
    decreases |s|
  {
    if s != [] {
      assert s[0] in s;
      assert forall c :: c in s[1..] ==> c in s;
      SplitNoSeparator(s[1..], sep);
      assert [s[0]] + s[1..] == s;
    }
  }

  /** A text that ends on the separator splits into at least two parts, the
      last of them empty. */
  lemma {:induction false} SplitEndsWithSeparator(s: string, sep: char)
    ensures var p := Split(s + [sep], sep); |p| >= 2 && p[|p| - 1] == []
    decreases |s|
  {
    if s == [] {
      assert Split([sep], sep) == [[]] + Split([], sep);
    } else {
      assert (s + [sep])[1..] == s[1..] + [sep];
      SplitEndsWithSeparator(s[1..], sep);
    }
  }

  /** A separator appended to a text adds exactly one empty part at the end. */
  lemma {:induction false} SplitSeparatorAppended(s: string, sep: char)
    ensures Split(s + [sep], sep) == Split(s, sep) + [[]]
    decreases |s|
  {
    if s == [] {
      assert Split([sep], sep) == [[]] + Split([], sep);
    } else {
      assert (s + [sep])[1..] == s[1..] + [sep];
      SplitSeparatorAppended(s[1..], sep);
      var rest := Split(s[1..], sep);
      assert (rest + [[]])[1..] == rest[1..] + [[]];
    }
  }

  /** Splitting a text that starts with `c`. */
  lemma SplitCons(c: char, s: string, sep: char)
    ensures Split([c] + s, sep) ==
            if c == sep then [[]] + Split(s, sep)
            else [[c] + Split(s, sep)[0]] + Split(s, sep)[1..]
  {
    assert ([c] + s)[1..] == s;
  }

  /** Sequence bookkeeping for `SplitAppend` when `a` starts with the
      separator: an empty part is put in front of both sides. */
  lemma PrependEmptyPart(pr: seq<string>, tail: seq<string>)
    requires |pr| >= 1
    ensures var pa := [[]] + pr;
            [[]] + (pr[..|pr| - 1] + tail) == pa[..|pa| - 1] + tail
  {
    var pa := [[]] + pr;
    assert pa[..|pa| - 1] == [[]] + pr[..|pr| - 1];
  }

  /** Sequence bookkeeping for `SplitAppend` when `a` starts with a character
      `c` other than the separator and has a separator after it: `c` joins
      the first part on both sides. */
  lemma ExtendFirstPart(c: char, pr: seq<string>, tail: seq<string>)
    requires |pr| >= 2
    ensures var pa := [[c] + pr[0]] + pr[1..];
            var r := pr[..|pr| - 1] + tail;
            [[c] + r[0]] + r[1..] == pa[..|pa| - 1] + tail
  {
    var pa := [[c] + pr[0]] + pr[1..];
    var r := pr[..|pr| - 1] + tail;
    assert r[0] == pr[0];
    assert r[1..] == pr[1..|pr| - 1] + tail;
    assert pa[..|pa| - 1] == [[c] + pr[0]] + pr[1..|pr| - 1];
  }

  /** Splitting `a + b` splits `a` as far as its last separator and then splits
      the rest of `a` together with `b`: the key fact behind chunk-invariance. */
  lemma {:induction false} SplitAppend(a: string, b: string, sep: char)
    ensures var pa := Split(a, sep);
            Split(a + b, sep) == pa[..|pa| - 1] + Split(pa[|pa| - 1] + b, sep)
    decreases |a|
  {
    if a == [] {
      assert a + b == b;
    } else {
      var c, a' := a[0], a[1..];
      assert a == [c] + a';
      assert a + b == [c] + (a' + b);
      SplitCons(c, a', sep);
      SplitCons(c, a' + b, sep);
      SplitAppend(a', b, sep);
      var pr := Split(a', sep);
      var tail := Split(pr[|pr| - 1] + b, sep);
      if c == sep {
        PrependEmptyPart(pr, tail);
      } else if |pr| == 1 {
        SplitJoin(a', sep);
        assert [c] + pr[0] + b == a + b;
      } else {
        ExtendFirstPart(c, pr, tail);
      }
    }
  }

  /** The text of a sequence of chunks, as if it had arrived in one piece. */
  function Concat(chunks: seq<string>): string {
    if chunks == [] then [] else Concat(chunks[..|chunks| - 1]) + chunks[|chunks| - 1]
  }

  function AsciiLowerChar(c: char): char {
    if 'A' <= c <= 'Z' then (c as int + 32) as char else c
  }

  /** Lower-casing, restricted to ASCII letters. */
  function AsciiLower(s: string): (r: string)
    ensures |r| == |s|
    ensures forall i :: 0 <= i < |s| ==> r[i] == AsciiLowerChar(s[i])
  {
    if s == [] then [] else [AsciiLowerChar(s[0])] + AsciiLower(s[1..])
  }

  function DigitChar(d: nat): char
    requires d < 10
  {
    ('0' as int + d) as char
  }

  /** Decimal rendering of a natural number, as JavaScript template literals and
      Python f-strings print integers. */
  function DecimalString(n: nat): (r: string)
    ensures |r| >= 1
    ensures forall i :: 0 <= i < |r| ==> '0' <= r[i] <= '9'
  {
    if n < 10 then [DigitChar(n)] else DecimalString(n / 10) + [DigitChar(n % 10)]
  }

  /** The number a string of decimal digits spells, most significant first. */
  function DecimalValue(s: string): nat
    requires forall i :: 0 <= i < |s| ==> '0' <= s[i] <= '9'
  {
    if s == [] then 0 else 10 * DecimalValue(s[..|s| - 1]) + (s[|s| - 1] as int - '0' as int)
  }

  /** The digits spell `n` back, and there is no leading zero except for 0
      itself. */
  lemma {:induction false} DecimalRoundTrip(n: nat)
    ensures DecimalValue(DecimalString(n)) == n
    ensures DecimalString(n)[0] == '0' ==> n == 0
    decreases n
  {
    if n >= 10 {
      DecimalRoundTrip(n / 10);
      var r := DecimalString(n);
      var q := DecimalString(n / 10);
      assert r[..|r| - 1] == q;
      assert r[0] == q[0];
    }
  }
}
