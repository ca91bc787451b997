/**
 * The part of Python's `json.loads` that the broker readiness check depends on: decoding a
 * JSON array (section 5 of RFC 8259) whose elements are integer numbers (section 6), with
 * the insignificant whitespace of section 2 allowed around every token. `None` stands for
 * the `JSONDecodeError` that `json.loads` raises on a malformed document, and also for
 * every well-formed document outside this subset (an array of strings, of objects, of
 * fractions), which `json.loads` would accept.
 */
module JsonArray {
  import opened Wrappers
  import opened Text

  /** The four whitespace characters of section 2 of RFC 8259. */
  predicate IsWhitespace(c: char) { c == ' ' || c == '\t' || c == '\n' || c == '\r' }

  function SkipWhitespace(s: string): (r: string)
    ensures |r| <= |s|
    ensures |r| > 0 ==> !IsWhitespace(r[0])
  {
    if |s| > 0 && IsWhitespace(s[0]) then SkipWhitespace(s[1..]) else s
  }

  /** The length of the run of decimal digits at the front of `s`. */
  function DigitRun(s: string): (k: nat)
    ensures k <= |s| && AllDigits(s[..k])
    ensures k < |s| ==> !IsDigit(s[k])
  {
    if |s| > 0 && IsDigit(s[0]) then
      var k := 1 + DigitRun(s[1..]);
      assert s[..k] == [s[0]] + s[1..][..k - 1];
      k
    else 0
  }

  /**
   * An integer number at the front of `s` — an optional minus sign, then `0` or a
   * non-zero digit followed by digits — with the text after it.
   */
  function ParseInt(s: string): (r: Option<(int, string)>)
    ensures r.Some? ==> |r.value.1| < |s|
  {
    var negative := |s| > 0 && s[0] == '-';
    var t := if negative then s[1..] else s;
    if |t| == 0 || !IsDigit(t[0]) then None
    else
      var k := if t[0] == '0' then 1 else DigitRun(t);
      var magnitude: int := DigitsValue(t[..k]);
      Some((if negative then -magnitude else magnitude, t[k..]))
  }

  /** The elements of a non-empty array and the text after its closing bracket, given
      the text after its opening bracket. */
  function ParseElements(s: string): (r: Option<(seq<int>, string)>)
    ensures r.Some? ==> |r.value.0| >= 1 && |r.value.1| < |s|
    decreases |s|
  {
    match ParseInt(SkipWhitespace(s))
    case None => None
    case Some((x, rest)) =>
      var t := SkipWhitespace(rest);
      if |t| > 0 && t[0] == ']' then Some(([x], t[1..]))
      else if |t| > 0 && t[0] == ',' then
        match ParseElements(t[1..])
        case None => None
        case Some((xs, u)) => Some(([x] + xs, u))
      else None
  }

  /** `json.loads(s)` for a document that is an array of integers; `None` where it raises. */
  function ParseArray(s: string): Option<seq<int>>
  {
    if |s| == 0 || s[0] != '[' then None
    else
      var t := SkipWhitespace(s[1..]);
      if |t| > 0 && t[0] == ']' then
        if SkipWhitespace(t[1..]) == [] then Some([]) else None
      else
        match ParseElements(t)
        case None => None
        case Some((xs, u)) => if SkipWhitespace(u) == [] then Some(xs) else None
  }

  /** The elements written as `str(x)` and separated by `", "`. */
  function JoinInts(xs: seq<int>): string
  {
    if |xs| == 0 then ""
    else if |xs| == 1 then IntToString(xs[0])
    else IntToString(xs[0]) + ", " + JoinInts(xs[1..])
  }

  /** An array as the ZooKeeper shell prints a list of children: `[0, 1, 2]`. */
  function Render(xs: seq<int>): string
  {
    "[" + JoinInts(xs) + "]"
  }

  lemma {:induction false} DigitRunOfDigits(d: string, rest: string)
    requires AllDigits(d)
    requires rest == [] || !IsDigit(rest[0])
    ensures DigitRun(d + rest) == |d|
  {
    if |d| > 0 {
      assert (d + rest)[1..] == d[1..] + rest;
      DigitRunOfDigits(d[1..], rest);
    }
  }

  /** A number written by `str` is read back, and parsing stops right after it. */
  lemma ParseIntOfIntToString(x: int, rest: string)
    requires rest == [] || !IsDigit(rest[0])
    ensures ParseInt(IntToString(x) + rest) == Some((x, rest))
  {
    var d := NatToString(if x < 0 then -x else x);
    DigitRunOfDigits(d, rest);
    DigitsValueOfNatToString(if x < 0 then -x else x);
    var t := d + rest;
    assert t[..|d|] == d && t[|d|..] == rest;
    if x < 0 {
      assert ("-" + d + rest)[1..] == t;
    } else if x == 0 {
      assert d == "0";
    }
  }

  /** Every number rendered by `str` starts with a digit or a minus sign. */
  lemma JoinIntsStart(xs: seq<int>)
    requires |xs| >= 1
    ensures |JoinInts(xs)| >= 1
    ensures IsDigit(JoinInts(xs)[0]) || JoinInts(xs)[0] == '-'
  {
    var x := xs[0];
    var d := NatToString(if x < 0 then -x else x);
    if |xs| > 1 {
      assert JoinInts(xs) == IntToString(x) + (", " + JoinInts(xs[1..]));
    }
  }

  lemma ParseElementsLast(s: string, x: int, rest: string)
    requires ParseInt(SkipWhitespace(s)) == Some((x, rest))
    requires |rest| > 0 && rest[0] == ']'
    ensures ParseElements(s) == Some(([x], rest[1..]))
  {
  }

  lemma ParseElementsNext(s: string, x: int, rest: string, xs: seq<int>, tail: string)
    requires ParseInt(SkipWhitespace(s)) == Some((x, rest))
    requires |rest| > 0 && rest[0] == ','
    requires ParseElements(rest[1..]) == Some((xs, tail))
    ensures ParseElements(s) == Some(([x] + xs, tail))
  {
  }

  lemma ParseElementsAfterSpace(s: string)
    ensures ParseElements(" " + s) == ParseElements(s)
  {
    assert (" " + s)[1..] == s;
    assert SkipWhitespace(" " + s) == SkipWhitespace(s);
  }

  lemma ParseIntAtFront(x: int, rest: string)
    requires rest == [] || !IsDigit(rest[0])
    ensures ParseInt(SkipWhitespace(IntToString(x) + rest)) == Some((x, rest))
  {
    ParseIntOfIntToString(x, rest);
  }

  lemma ParseElementsOne(x: int, tail: string)
    ensures ParseElements(IntToString(x) + ("]" + tail)) == Some(([x], tail))
  {
    var rest := "]" + tail;
    ParseIntAtFront(x, rest);
    assert rest[1..] == tail;
    ParseElementsLast(IntToString(x) + rest, x, rest);
  }

  lemma ParseElementsCons(x: int, u: string, xs: seq<int>, tail: string)
    requires ParseElements(u) == Some((xs, tail))
    ensures ParseElements(IntToString(x) + (", " + u)) == Some(([x] + xs, tail))
  {
    var rest := ", " + u;
    ParseIntAtFront(x, rest);
    assert rest[1..] == " " + u;
    ParseElementsAfterSpace(u);
    ParseElementsNext(IntToString(x) + rest, x, rest, xs, tail);
  }

  lemma JoinIntsCons(xs: seq<int>, tail: string)
    requires |xs| >= 2
    ensures JoinInts(xs) + ("]" + tail) == IntToString(xs[0]) + (", " + (JoinInts(xs[1..]) + ("]" + tail)))
  {
    JoinIntsUnfold(xs);
    SeqAssoc(IntToString(xs[0]), ", ", JoinInts(xs[1..]), "]" + tail);
  }

  lemma JoinIntsUnfold(xs: seq<int>)
    requires |xs| >= 2
    ensures JoinInts(xs) == IntToString(xs[0]) + ", " + JoinInts(xs[1..])
  {
  }

  lemma SeqAssoc(a: string, b: string, c: string, d: string)
    ensures a + b + c + d == a + (b + (c + d))
  {
  }

  /** The elements of `JoinInts(xs)` are parsed back, up to the closing bracket. */
  lemma {:induction false} ParseElementsOfJoinInts(xs: seq<int>, tail: string)
    requires |xs| >= 1
    ensures ParseElements(JoinInts(xs) + ("]" + tail)) == Some((xs, tail))
  {
    if |xs| == 1 {
      ParseElementsOne(xs[0], tail);
      assert [xs[0]] == xs;
    } else {
      ParseElementsOfJoinInts(xs[1..], tail);
      JoinIntsCons(xs, tail);
      ParseElementsCons(xs[0], JoinInts(xs[1..]) + ("]" + tail), xs[1..], tail);
      assert [xs[0]] + xs[1..] == xs;
    }
  }

  /** Parsing what the shell prints gives back the listed elements. */
  lemma ParseArrayOfRender(xs: seq<int>)
    ensures ParseArray(Render(xs)) == Some(xs)
  {
    var s := Render(xs);
    if |xs| == 0 {
      assert s == "[]";
      assert s[1..] == "]";
    } else {
      JoinIntsStart(xs);
      assert s[1..] == JoinInts(xs) + ("]" + "");
      ParseElementsOfJoinInts(xs, "");
    }
  }
}
