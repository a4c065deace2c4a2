/** String helpers: JavaScript's `trim`, `split(/[\s,;]+/)`, `join(',')`, `toLowerCase`
    and `includes`, over ASCII (non-ASCII whitespace and Unicode case mapping are not
    modelled). */
module Text {

  /** ASCII whitespace: space, tab, line feed, vertical tab, form feed, carriage return. */
  predicate IsSpace(c: char)
  {
    c == ' ' || c == '\t' || c == '\n' || c == '\U{000B}' || c == '\U{000C}' || c == '\r'
  }

  predicate NoSpace(s: string)
  {
    forall i | 0 <= i < |s| :: !IsSpace(s[i])
  }

  /** `s` without its leading whitespace. */
  function TrimStart(s: string): (r: string)
    ensures |r| <= |s| && r == s[|s| - |r|..]
    ensures forall i | 0 <= i < |s| - |r| :: IsSpace(s[i])
    ensures r == [] || !IsSpace(r[0])
  {
    if s != [] && IsSpace(s[0]) then TrimStart(s[1..]) else s
  }

  /** `s` without its trailing whitespace. */
  function TrimEnd(s: string): (r: string)
    ensures |r| <= |s| && r == s[..|r|]
    ensures forall i | |r| <= i < |s| :: IsSpace(s[i])
    ensures r == [] || !IsSpace(r[|r| - 1])
  {
    if s != [] && IsSpace(s[|s| - 1]) then TrimEnd(s[..|s| - 1]) else s
  }

  /** JavaScript's `s.trim()`. */
  function Trim(s: string): string
  {
    TrimEnd(TrimStart(s))
  }

  /** Trimming removes exactly the whitespace at both ends: what is left neither starts
      nor ends with whitespace, and a string without whitespace is left alone. */
  lemma TrimmedEnds(s: string)
    ensures var r := Trim(s); r == [] || (!IsSpace(r[0]) && !IsSpace(r[|r| - 1]))
    ensures NoSpace(s) ==> Trim(s) == s
  {
    var t := TrimStart(s);
    var r := TrimEnd(t);
    if r != [] {
      assert r[0] == t[0];
    }
  }

  /** The separators of the paste split: whitespace, ',' and ';'. */
  predicate IsSeparator(c: char)
  {
    IsSpace(c) || c == ',' || c == ';'
  }

  predicate NoSeparator(s: string)
  {
    forall i | 0 <= i < |s| :: !IsSeparator(s[i])
  }

  predicate AllSeparators(s: string)
  {
    forall i | 0 <= i < |s| :: IsSeparator(s[i])
  }

  /** Index of the first separator in `s`, or `|s|` when there is none. */
  function FirstSeparator(s: string): (i: nat)
    ensures i <= |s| && NoSeparator(s[..i])
    ensures i < |s| ==> IsSeparator(s[i])
  {
    if s == [] || IsSeparator(s[0]) then 0
    else
      var j := FirstSeparator(s[1..]);
      assert s[..j + 1] == [s[0]] + s[1..][..j];
      1 + j
  }

  /** `s` without its leading run of separators. */
  function DropSeparators(s: string): (r: string)
    ensures |r| <= |s| && r == s[|s| - |r|..]
    ensures AllSeparators(s[..|s| - |r|])
    ensures r == [] || !IsSeparator(r[0])
  {
    if s != [] && IsSeparator(s[0]) then DropSeparators(s[1..]) else s
  }

  /** JavaScript's `s.split(/[\s,;]+/)`: the pieces between maximal runs of separators.
      A leading (trailing) run yields an empty first (last) piece, and `""` yields `[""]`. */
  function SplitRuns(s: string): (r: seq<string>)
    ensures |r| >= 1
    ensures forall k | 0 <= k < |r| :: NoSeparator(r[k])
    decreases |s|
  {
    var i := FirstSeparator(s);
    if i == |s| then [s]
    else
      var rest := DropSeparators(s[i..]);
      [s[..i]] + SplitRuns(rest)
  }

  lemma FirstSeparatorOfConcat(t: string, u: string)
    requires NoSeparator(t) && u != [] && IsSeparator(u[0])
    ensures FirstSeparator(t + u) == |t|
    decreases |t|
  {
    if t != [] {
      assert (t + u)[1..] == t[1..] + u;
      FirstSeparatorOfConcat(t[1..], u);
    }
  }

  lemma DropSeparatorsOfConcat(sep: string, rest: string)
    requires AllSeparators(sep)
    requires rest == [] || !IsSeparator(rest[0])
    ensures DropSeparators(sep + rest) == rest
    decreases |sep|
  {
    if sep != [] {
      assert (sep + rest)[1..] == sep[1..] + rest;
      DropSeparatorsOfConcat(sep[1..], rest);
    }
  }

  /** A separator-free piece followed by a non-empty separator run splits off as one token. */
  lemma {:induction false} SplitStep(t: string, sep: string, rest: string)
    requires NoSeparator(t) && sep != [] && AllSeparators(sep)
    requires rest == [] || !IsSeparator(rest[0])
    ensures SplitRuns(t + sep + rest) == [t] + SplitRuns(rest)
  {
    var s := t + sep + rest;
    assert s == t + (sep + rest);
    FirstSeparatorOfConcat(t, sep + rest);
    assert s[..|t|] == t;
    assert s[|t|..] == sep + rest;
    DropSeparatorsOfConcat(sep, rest);
  }

  lemma SplitNoSeparator(t: string)
    requires NoSeparator(t)
    ensures SplitRuns(t) == [t]
  {
    assert t[..|t|] == t;
  }

  /** JavaScript's `xs.join(sep)`. */
  function Join(xs: seq<string>, sep: string): string
    decreases |xs|
  {
    if |xs| == 0 then ""
    else if |xs| == 1 then xs[0]
    else xs[0] + sep + Join(xs[1..], sep)
  }

  /** Splitting inverts joining with ',' for non-empty separator-free pieces. */
  lemma {:induction false} SplitJoin(xs: seq<string>)
    requires |xs| >= 1
    requires forall k | 0 <= k < |xs| :: xs[k] != [] && NoSeparator(xs[k])
    ensures SplitRuns(Join(xs, ",")) == xs
    decreases |xs|
  {
    if |xs| == 1 {
      SplitNoSeparator(xs[0]);
    } else {
      var rest := Join(xs[1..], ",");
      JoinStartsWith(xs[1..]);
      SplitStep(xs[0], ",", rest);
      SplitJoin(xs[1..]);
      assert xs == [xs[0]] + xs[1..];
    }
  }

  lemma {:induction false} JoinStartsWith(xs: seq<string>)
    requires |xs| >= 1 && xs[0] != []
    ensures Join(xs, ",") != [] && Join(xs, ",")[0] == xs[0][0]
  {
  }

  /** ASCII `toLowerCase` of one character. */
  function LowerChar(c: char): char
  {
    if 'A' <= c <= 'Z' then (c as int + 32) as char else c
  }

  /** ASCII `s.toLowerCase()`. */
  function ToLower(s: string): (r: string)
    ensures |r| == |s|
  {
    seq(|s|, i requires 0 <= i < |s| => LowerChar(s[i]))
  }

  /** `part` occurs in `s` starting at index `i`. */
  predicate OccursAt(s: string, part: string, i: int)
  {
    0 <= i <= |s| - |part| && s[i..i + |part|] == part
  }

  /** JavaScript's `s.includes(part)`. */
  predicate Contains(s: string, part: string)
  {
    exists i | 0 <= i <= |s| - |part| :: OccursAt(s, part, i)
  }
}
