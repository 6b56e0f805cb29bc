/** The handful of Python string operations the chat app relies on:
    str.strip(), str.lower(), str.startswith(), str.join() and
    concatenation of a list of pieces. Strings are sequences of Unicode
    scalar values, as Python's str is. */
module Text {

  /** Python's str.isspace() for one character. */
  predicate IsSpace(c: char) {
    || c == ' '
    || ('\t' <= c <= '\r')
    || ('\U{1c}' <= c <= '\U{1f}')
    || c == '\U{85}'
    || c == '\U{a0}'
    || c == '\U{1680}'
    || ('\U{2000}' <= c <= '\U{200a}')
    || c == '\U{2028}'
    || c == '\U{2029}'
    || c == '\U{202f}'
    || c == '\U{205f}'
    || c == '\U{3000}'
  }

  /** Drops leading whitespace, keeping a suffix of s. */
  function TrimStart(s: string): (r: string)
    ensures |r| <= |s| && r == s[|s| - |r|..]
  {
    if s != [] && IsSpace(s[0]) then TrimStart(s[1..]) else s
  }

  /** What TrimStart drops is whitespace, and what it keeps starts at the
      first non-space character. */
  lemma {:induction false} TrimStartSpec(s: string)
    ensures forall i :: 0 <= i < |s| - |TrimStart(s)| ==> IsSpace(s[i])
    ensures TrimStart(s) != [] ==> !IsSpace(TrimStart(s)[0])
  {
    if s != [] && IsSpace(s[0]) {
      var t := s[1..];
      TrimStartSpec(t);
      var r := TrimStart(t);
      assert TrimStart(s) == r;
      forall i | 0 <= i < |s| - |r|
        ensures IsSpace(s[i])
      {
        if i > 0 {
          assert s[i] == t[i - 1];
        }
      }
    }
  }

  /** Drops trailing whitespace, keeping a prefix of s. */
  function TrimEnd(s: string): (r: string)
    ensures |r| <= |s| && r == s[..|r|]
  {
    if s != [] && IsSpace(s[|s| - 1]) then TrimEnd(s[..|s| - 1]) else s
  }

  /** What TrimEnd drops is whitespace, and what it keeps ends at the last
      non-space character. */
  lemma {:induction false} TrimEndSpec(s: string)
    ensures forall i :: |TrimEnd(s)| <= i < |s| ==> IsSpace(s[i])
    ensures TrimEnd(s) != [] ==> !IsSpace(TrimEnd(s)[|TrimEnd(s)| - 1])
  {
    if s != [] && IsSpace(s[|s| - 1]) {
      TrimEndSpec(s[..|s| - 1]);
      var r := TrimEnd(s);
      forall i | |r| <= i < |s|
        ensures IsSpace(s[i])
      {
        if i < |s| - 1 {
          assert s[i] == s[..|s| - 1][i];
        }
      }
    }
  }

  /** Python's s.strip() with no argument. */
  function Strip(s: string): string {
    TrimEnd(TrimStart(s))
  }

  /** Lower-casing of one character, for the ASCII letters only. */
  function LowerChar(c: char): char {
    if 'A' <= c <= 'Z' then (c as int - 'A' as int + 'a' as int) as char else c
  }

  /** Python's s.lower(), restricted to ASCII case mapping. */
  function Lower(s: string): string {
    seq(|s|, i requires 0 <= i < |s| => LowerChar(s[i]))
  }

  /** Python's s.startswith(p). */
  predicate StartsWith(s: string, p: string) {
    |p| <= |s| && s[..|p|] == p
  }

  lemma EmptyAppend(s: string)
    ensures "" + s == s
  {
  }

  /** a + b opens with a. */
  lemma StartsWithAppend(a: string, b: string)
    ensures StartsWith(a + b, a)
  {
    assert (a + b)[..|a|] == a;
  }

  /** A text that opens with a + b opens with a. */
  lemma StartsWithPrefix(s: string, a: string, b: string)
    requires StartsWith(s, a + b)
    ensures StartsWith(s, a)
  {
    assert s[..|a|] == s[..|a + b|][..|a|];
  }

  /** Where the parts of a text of four parts sit. */
  lemma Parts4(a: string, b: string, c: string, d: string)
    ensures var s := a + b + c + d;
      && s[..|a|] == a
      && s[|a|..] == b + c + d
      && s[|a|..|a| + |b|] == b
      && s[|a| + |b|..|a| + |b| + |c|] == c
      && s[|a| + |b| + |c|..] == d
  {
    var s := a + b + c + d;
    assert s == a + (b + c + d);
    assert b + c + d == b + (c + d);
    assert s[|a| + |b|..] == c + d;
  }

  /** Where the parts of a text of five parts sit. */
  lemma Parts5(a: string, b: string, c: string, d: string, e: string)
    ensures var s := a + b + c + d + e;
      && s[..|a|] == a
      && s[|a|..] == b + c + d + e
      && s[|a| + |b|..] == c + d + e
      && s[|s| - |e|..] == e
  {
    var s := a + b + c + d + e;
    assert s == a + (b + c + d + e);
    assert b + c + d + e == b + (c + d + e);
  }

  /** Python's s.endswith(p). */
  predicate EndsWith(s: string, p: string) {
    |p| <= |s| && s[|s| - |p|..] == p
  }

  /** Python's sep.join(xs). */
  function Join(xs: seq<string>, sep: string): string {
    if xs == [] then ""
    else if |xs| == 1 then xs[0]
    else xs[0] + sep + Join(xs[1..], sep)
  }

  /** Joining one more item adds exactly one separator and that item at the
      end: the items appear in their input order. */
  lemma {:induction false} JoinSnoc(xs: seq<string>, x: string, sep: string)
    requires xs != []
    ensures Join(xs + [x], sep) == Join(xs, sep) + sep + x
  {
    if |xs| == 1 {
      assert (xs + [x])[1..] == [x];
    } else {
      assert (xs + [x])[1..] == xs[1..] + [x];
      JoinSnoc(xs[1..], x, sep);
    }
  }
}
