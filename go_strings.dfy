/** The parts of Go's `strings` and `unicode` packages that the command
    parser relies on. A Go string is modelled as its sequence of code
    points (valid UTF-8 is assumed). */
module GoStrings {

  /** `unicode.IsSpace`: the Latin-1 spaces plus the other code points with
      the Unicode White_Space property. */
  predicate IsSpace(c: char) {
    || c == '\t' || c == '\n' || c == '\U{000B}' || c == '\U{000C}' || c == '\r' || c == ' '
    || c == '\U{0085}' || c == '\U{00A0}' || c == '\U{1680}'
    || ('\U{2000}' <= c <= '\U{200A}')
    || c == '\U{2028}' || c == '\U{2029}' || c == '\U{202F}' || c == '\U{205F}' || c == '\U{3000}'
  }

  predicate AllSpace(s: string) {
    forall i :: 0 <= i < |s| ==> IsSpace(s[i])
  }

  /** Every character of `s` at a position in [lo, hi) is white space. */
  predicate SpaceBetween(s: string, lo: int, hi: int)
    requires 0 <= lo && hi <= |s|
  {
    forall k :: lo <= k < hi ==> IsSpace(s[k])
  }

  /** Neither end of `s` is white space. */
  predicate Trimmed(s: string) {
    s == [] || (!IsSpace(s[0]) && !IsSpace(s[|s| - 1]))
  }

  /** The length of the longest all-space prefix of `s`. */
  function LeadingSpace(s: string): (n: nat)
    ensures n <= |s|
    ensures SpaceBetween(s, 0, n)
    ensures n < |s| ==> !IsSpace(s[n])
  {
    if s == [] || !IsSpace(s[0]) then 0
    else 1 + LeadingSpace(s[1..])
  }

  /** The length of the longest all-space suffix of `s`. */
  function TrailingSpace(s: string): (n: nat)
    ensures n <= |s|
    ensures SpaceBetween(s, |s| - n, |s|)
    ensures n < |s| ==> !IsSpace(s[|s| - 1 - n])
  {
    if s == [] || !IsSpace(s[|s| - 1]) then 0
    else 1 + TrailingSpace(s[..|s| - 1])
  }

  /** `strings.TrimSpace`: `s` with its leading and trailing white space
      removed. */
  function TrimSpace(s: string): (r: string)
    ensures Trimmed(r)
    ensures |r| <= |s|
  {
    var i := LeadingSpace(s);
    s[i..|s| - TrailingSpace(s[i..])]
  }

  /** The prefix count is determined by its two defining facts. */
  lemma LeadingSpaceUnique(s: string, n: nat)
    requires n <= |s| && SpaceBetween(s, 0, n)
    requires n < |s| ==> !IsSpace(s[n])
    ensures LeadingSpace(s) == n
  {
  }

  /** The suffix count is determined by its two defining facts. */
  lemma TrailingSpaceUnique(s: string, n: nat)
    requires n <= |s| && SpaceBetween(s, |s| - n, |s|)
    requires n < |s| ==> !IsSpace(s[|s| - 1 - n])
    ensures TrailingSpace(s) == n
  {
  }

  /** Trimming removes exactly white-space padding: whatever all-space text
      surrounds a trimmed string, `TrimSpace` gives that string back. */
  lemma TrimSpaceOfPadded(pre: string, m: string, post: string)
    requires AllSpace(pre) && AllSpace(post) && Trimmed(m)
    ensures TrimSpace(pre + m + post) == m
  {
    var s := pre + m + post;
    if m == [] {
      assert s == pre + post;
      LeadingSpaceUnique(s, |s|);
    } else {
      LeadingSpaceUnique(s, |pre|);
      var t := s[|pre|..];
      assert t == m + post;
      TrailingSpaceUnique(t, |post|);
      assert s[|pre|..|s| - |post|] == m;
    }
  }

  lemma AllSpaceConcat(a: string, b: string)
    requires AllSpace(a) && AllSpace(b)
    ensures AllSpace(a + b)
  {
    forall k | 0 <= k < |a + b| ensures IsSpace((a + b)[k]) {
      if k >= |a| { assert (a + b)[k] == b[k - |a|]; }
    }
  }

  /** A text without white space at either end is its own trimmed form. */
  lemma TrimSpaceOfTrimmed(s: string)
    requires Trimmed(s)
    ensures TrimSpace(s) == s
  {
    TrimSpaceOfPadded([], s, []);
    assert [] + s + [] == s;
  }

  /** Trimming twice is trimming once. */
  lemma TrimSpaceIdempotent(s: string)
    ensures TrimSpace(TrimSpace(s)) == TrimSpace(s)
  {
    TrimSpaceOfTrimmed(TrimSpace(s));
  }

  /** Every text is its trimmed form with white space around it. */
  lemma TrimSpaceSplits(s: string) returns (front: string, back: string)
    ensures AllSpace(front) && AllSpace(back)
    ensures s == front + TrimSpace(s) + back
  {
    var i := LeadingSpace(s);
    var t := s[i..];
    var j := TrailingSpace(t);
    var k := |s| - j;
    front, back := s[..i], s[k..];
    forall x | 0 <= x < |back| ensures IsSpace(back[x]) {
      assert back[x] == t[|t| - j + x];
    }
    SliceInThree(s, i, k);
  }

  lemma SliceInThree(s: string, i: nat, k: nat)
    requires i <= k <= |s|
    ensures s == s[..i] + s[i..k] + s[k..]
  {
  }

  lemma Regroup(a: string, b: string, c: string, d: string, e: string)
    ensures a + (b + c + d) + e == (a + b) + c + (d + e)
  {
  }

  /** Extra white space around a text does not change its trimmed form. */
  lemma TrimSpaceIgnoresPadding(pre: string, s: string, post: string)
    requires AllSpace(pre) && AllSpace(post)
    ensures TrimSpace(pre + s + post) == TrimSpace(s)
  {
    var front, back := TrimSpaceSplits(s);
    var r := TrimSpace(s);
    AllSpaceConcat(pre, front);
    AllSpaceConcat(back, post);
    Regroup(pre, front, r, back, post);
    TrimSpaceOfPadded(pre + front, r, back + post);
  }

  /** `strings.Index` for a one-character separator: the position of the
      first `c` in `s`, or -1 when there is none. */
  function Index(s: string, c: char): (r: int)
    ensures -1 <= r < |s|
    ensures r < 0 <==> c !in s
    ensures 0 <= r ==> s[r] == c && forall k :: 0 <= k < r ==> s[k] != c
  {
    if s == [] then -1
    else if s[0] == c then 0
    else
      var k := Index(s[1..], c);
      if k < 0 then -1 else k + 1
  }

  /** The index of a separator that follows a separator-free prefix is the
      length of that prefix. */
  lemma IndexAfterPrefix(a: string, c: char, b: string)
    requires c !in a
    ensures Index(a + [c] + b, c) == |a|
  {
    var s := a + [c] + b;
    assert s[|a|] == c;
    assert forall k :: 0 <= k < |a| ==> s[k] == a[k];
  }

  /** `strings.SplitN(s, string(sep), 2)`: the text before the first `sep`
      and the text after it, or `s` alone when `sep` does not occur. */
  function SplitFirst(s: string, sep: char): (parts: seq<string>)
    ensures |parts| == 1 || |parts| == 2
    ensures sep !in parts[0]
    ensures |parts| == 2 <==> sep in s
    ensures |parts| == 1 ==> parts[0] == s
    ensures |parts| == 2 ==> parts[0] + [sep] + parts[1] == s
  {
    var m := Index(s, sep);
    if m < 0 then [s]
    else
      assert s == s[..m] + [sep] + s[m + 1..];
      [s[..m], s[m + 1..]]
  }

  /** Splitting after a separator-free prefix gives that prefix and the
      rest. */
  lemma SplitFirstAfterPrefix(a: string, sep: char, b: string)
    requires sep !in a
    ensures SplitFirst(a + [sep] + b, sep) == [a, b]
  {
    var s := a + [sep] + b;
    IndexAfterPrefix(a, sep, b);
    assert s[..|a|] == a;
    assert s[|a| + 1..] == b;
  }

  /** `strings.Join`. */
  function Join(parts: seq<string>, sep: string): string
    decreases |parts|
  {
    if parts == [] then ""
    else if |parts| == 1 then parts[0]
    else parts[0] + sep + Join(parts[1..], sep)
  }

  /** Joining the pieces of a split with the separator restores the text. */
  lemma JoinSplitFirst(s: string, sep: char)
    ensures Join(SplitFirst(s, sep), [sep]) == s
  {
    var parts := SplitFirst(s, sep);
    if |parts| == 2 {
      assert parts[1..] == [parts[1]];
    }
  }
}
