/**
 * The few Python string operations the bootstrap script relies on: `str()` of an
 * integer, `str.startswith`, `sep.join(parts)` and `s.replace(old, new)`. `Split`, which
 * the script never calls, is the reader's view of a joined file: it states what reading
 * the ZooKeeper properties back line by line gives. Strings are sequences of characters.
 */
module Text {

  predicate IsDigit(c: char) { '0' <= c <= '9' }

  predicate AllDigits(s: string) { forall i :: 0 <= i < |s| ==> IsDigit(s[i]) }

  /** The decimal digit that stands for `d`. */
  function DigitChar(d: nat): (c: char)
    requires d < 10
    ensures IsDigit(c)
  {
    (d + '0' as int) as char
  }

  function DigitValue(c: char): nat
    requires IsDigit(c)
  {
    c as int - '0' as int
  }

  /** `str(n)` for a non-negative Python int: decimal digits, no leading zero. */
  function NatToString(n: nat): (s: string)
    ensures |s| >= 1 && AllDigits(s)
    ensures s[0] == '0' ==> n == 0
  {
    if n < 10 then [DigitChar(n)] else NatToString(n / 10) + [DigitChar(n % 10)]
  }

  /** `str(x)` for any Python int. */
  function IntToString(x: int): string
  {
    if x < 0 then "-" + NatToString(-x) else NatToString(x)
  }

  /** The number a string of decimal digits denotes (what `int(s)` reads back). */
  function DigitsValue(s: string): nat
    requires AllDigits(s)
  {
    if s == [] then 0 else DigitsValue(s[..|s| - 1]) * 10 + DigitValue(s[|s| - 1])
  }

  /** Reading back what `str(n)` wrote gives `n`. */
  lemma {:induction false} DigitsValueOfNatToString(n: nat)
    ensures DigitsValue(NatToString(n)) == n
  {
    if n >= 10 {
      var s := NatToString(n);
      assert s[..|s| - 1] == NatToString(n / 10);
      DigitsValueOfNatToString(n / 10);
    }
  }

  /** Distinct numbers have distinct decimal forms. */
  lemma NatToStringInjective(a: nat, b: nat)
    requires NatToString(a) == NatToString(b)
    ensures a == b
  {
    DigitsValueOfNatToString(a);
    DigitsValueOfNatToString(b);
  }

  /** Python's `s.startswith(prefix)`. */
  predicate StartsWith(s: string, prefix: string)
  {
    |prefix| <= |s| && s[..|prefix|] == prefix
  }

  /** `pattern in s`, for a non-empty pattern. */
  predicate Occurs(pattern: string, s: string)
  {
    exists i :: 0 <= i <= |s| && StartsWith(s[i..], pattern)
  }

  /** Python's `sep.join(parts)`. */
  function Join(parts: seq<string>, sep: string): string
  {
    if |parts| == 0 then ""
    else if |parts| == 1 then parts[0]
    else parts[0] + sep + Join(parts[1..], sep)
  }

  /** Python's `s.split(sep)` for a one-character separator. */
  function Split(s: string, sep: char): (parts: seq<string>)
    ensures |parts| >= 1
  {
    if |s| == 0 then [""]
    else
      var rest := Split(s[1..], sep);
      if s[0] == sep then [""] + rest else [[s[0]] + rest[0]] + rest[1..]
  }

  lemma {:induction false} SplitWithoutSeparator(s: string, sep: char)
    requires sep !in s
    ensures Split(s, sep) == [s]
  {
    if |s| > 0 {
      assert s[0] in s;
      assert forall c :: c in s[1..] ==> c in s;
      SplitWithoutSeparator(s[1..], sep);
      assert [s[0]] + s[1..] == s;
    }
  }

  lemma {:induction false} SplitAfterPart(part: string, sep: char, tail: string)
    requires sep !in part
    ensures Split(part + [sep] + tail, sep) == [part] + Split(tail, sep)
  {
    if |part| == 0 {
      assert part + [sep] + tail == [sep] + tail;
      assert ([sep] + tail)[1..] == tail;
    } else {
      assert part[0] in part;
      assert forall c :: c in part[1..] ==> c in part;
      SplitAfterPart(part[1..], sep, tail);
      assert (part + [sep] + tail)[1..] == part[1..] + [sep] + tail;
      assert [part[0]] + part[1..] == part;
    }
  }

  /** Splitting a join on its one-character separator gives the parts back, provided no
      part contains the separator (`'\n'.join(lines).split('\n') == lines`). */
  lemma {:induction false} SplitJoin(parts: seq<string>, sep: char)
    requires |parts| >= 1
    requires forall k :: 0 <= k < |parts| ==> sep !in parts[k]
    ensures Split(Join(parts, [sep]), sep) == parts
  {
    if |parts| == 1 {
      SplitWithoutSeparator(parts[0], sep);
    } else {
      SplitJoin(parts[1..], sep);
      SplitAfterPart(parts[0], sep, Join(parts[1..], [sep]));
      assert [parts[0]] + parts[1..] == parts;
    }
  }

  /**
   * Python's `s.replace(pattern, replacement)` for a non-empty pattern: scans from the
   * left and replaces every non-overlapping occurrence.
   */
  function Replace(s: string, pattern: string, replacement: string): string
    requires |pattern| > 0
    decreases |s|
  {
    if |s| < |pattern| then s
    else if StartsWith(s, pattern) then replacement + Replace(s[|pattern|..], pattern, replacement)
    else [s[0]] + Replace(s[1..], pattern, replacement)
  }

  /** Replacing a pattern that does not occur changes nothing. */
  lemma {:induction false} ReplaceAbsent(s: string, pattern: string, replacement: string)
    requires |pattern| > 0 && !Occurs(pattern, s)
    ensures Replace(s, pattern, replacement) == s
    decreases |s|
  {
    if |s| >= |pattern| {
      assert !StartsWith(s[0..], pattern);
      assert s[0..] == s;
      forall i | 0 <= i <= |s[1..]|
        ensures !StartsWith(s[1..][i..], pattern)
      {
        assert s[1..][i..] == s[i + 1..];
      }
      ReplaceAbsent(s[1..], pattern, replacement);
      assert [s[0]] + s[1..] == s;
    }
  }

  /** Replacing a pattern by itself changes nothing. */
  lemma {:induction false} ReplaceIdentity(s: string, pattern: string)
    requires |pattern| > 0
    ensures Replace(s, pattern, pattern) == s
    decreases |s|
  {
    if |s| >= |pattern| {
      if StartsWith(s, pattern) {
        ReplaceIdentity(s[|pattern|..], pattern);
        assert pattern + s[|pattern|..] == s;
      } else {
        ReplaceIdentity(s[1..], pattern);
        assert [s[0]] + s[1..] == s;
      }
    }
  }

  /** If the pattern occurs, the replacement occurs in the result. */
  lemma {:induction false} ReplaceIntroduces(s: string, pattern: string, replacement: string)
    requires |pattern| > 0 && Occurs(pattern, s)
    ensures Occurs(replacement, Replace(s, pattern, replacement))
    decreases |s|
  {
    var t := Replace(s, pattern, replacement);
    var i :| 0 <= i <= |s| && StartsWith(s[i..], pattern);
    if StartsWith(s, pattern) {
      assert t[0..] == t;
      assert t[..|replacement|] == replacement;
      assert StartsWith(t[0..], replacement);
    } else {
      assert i != 0;
      assert |s| >= |pattern|;
      assert s[1..][i - 1..] == s[i..];
      ReplaceIntroduces(s[1..], pattern, replacement);
      var u := Replace(s[1..], pattern, replacement);
      var j :| 0 <= j <= |u| && StartsWith(u[j..], replacement);
      assert t == [s[0]] + u;
      assert t[j + 1..] == u[j..];
    }
  }

  /**
   * When no new occurrence of the pattern can be formed: the pattern's first character
   * appears nowhere else in the pattern nor after the replacement's first character, the
   * replacement's first character appears nowhere after the pattern's first character, and
   * the replacement is at least as long as the pattern but does not start with it.
   */
  predicate Unambiguous(pattern: string, replacement: string)
  {
    && |pattern| > 0
    && |replacement| >= |pattern|
    && pattern[0] !in pattern[1..]
    && pattern[0] !in replacement[1..]
    && replacement[0] !in pattern[1..]
    && replacement[..|pattern|] != pattern
  }

  /** A prefix free of both leading characters survives a replacement unchanged. */
  lemma {:induction false} PrefixSurvivesReplace(x: string, w: string, pattern: string, replacement: string)
    requires Unambiguous(pattern, replacement)
    requires pattern[0] !in w && replacement[0] !in w
    requires StartsWith(Replace(x, pattern, replacement), w)
    ensures StartsWith(x, w)
    decreases |x|
  {
    // a replaced occurrence at the front would put the replacement's first character,
    // which w lacks, at the front of the result
    assert |x| >= |pattern| && StartsWith(x, pattern) ==>
      Replace(x, pattern, replacement)[0] == replacement[0];
    assert |w| > 0 ==> w[0] in w;
    if |w| == 0 || |x| < |pattern| {
    } else if StartsWith(x, pattern) {
      assert false;
    } else {
      var y := Replace(x[1..], pattern, replacement);
      assert Replace(x, pattern, replacement) == [x[0]] + y;
      assert y[..|w| - 1] == w[1..];
      assert forall c :: c in w[1..] ==> c in w;
      PrefixSurvivesReplace(x[1..], w[1..], pattern, replacement);
      assert x[..|w|] == [x[0]] + x[1..][..|w| - 1];
    }
  }

  /** After an unambiguous replacement the pattern no longer occurs. */
  lemma {:induction false} ReplaceRemovesAll(s: string, pattern: string, replacement: string)
    requires Unambiguous(pattern, replacement)
    ensures !Occurs(pattern, Replace(s, pattern, replacement))
    decreases |s|
  {
    var t := Replace(s, pattern, replacement);
    if |s| < |pattern| {
      forall i | 0 <= i <= |t| ensures !StartsWith(t[i..], pattern) { }
    } else if StartsWith(s, pattern) {
      var u := Replace(s[|pattern|..], pattern, replacement);
      ReplaceRemovesAll(s[|pattern|..], pattern, replacement);
      assert t == replacement + u;
      forall i | 0 <= i <= |t| ensures !StartsWith(t[i..], pattern) {
        if i >= |replacement| {
          assert t[i..] == u[i - |replacement|..];
        } else if i == 0 {
          assert t[..|pattern|] == replacement[..|pattern|];
        } else {
          assert t[i] == replacement[i] == replacement[1..][i - 1];
        }
      }
    } else {
      var u := Replace(s[1..], pattern, replacement);
      ReplaceRemovesAll(s[1..], pattern, replacement);
      assert t == [s[0]] + u;
      forall i | 0 <= i <= |t| ensures !StartsWith(t[i..], pattern) {
        if i == 0 {
          if StartsWith(t, pattern) {
            assert u[..|pattern| - 1] == pattern[1..];
            assert forall c :: c in pattern[1..][1..] ==> c in pattern[1..];
            PrefixSurvivesReplace(s[1..], pattern[1..], pattern, replacement);
            assert false;
          }
        } else {
          assert t[i..] == u[i - 1..];
        }
      }
    }
  }

  /** An unambiguous replacement is idempotent. */
  lemma ReplaceIdempotent(s: string, pattern: string, replacement: string)
    requires Unambiguous(pattern, replacement)
    ensures Replace(Replace(s, pattern, replacement), pattern, replacement) == Replace(s, pattern, replacement)
  {
    ReplaceRemovesAll(s, pattern, replacement);
    ReplaceAbsent(Replace(s, pattern, replacement), pattern, replacement);
  }
}
