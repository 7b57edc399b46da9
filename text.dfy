/** Text primitives the TypeScript code relies on: the whitespace set of JavaScript's
    String.prototype.trim, trimming itself, and substring occurrence. */
module Text {

  /** ECMAScript WhiteSpace and LineTerminator code points: the characters
      String.prototype.trim removes from both ends of a string. */
  predicate IsWhitespace(c: char)
  {
    var n := c as int;
    n == 0x09 || n == 0x0A || n == 0x0B || n == 0x0C || n == 0x0D || n == 0x20
    || n == 0xA0 || n == 0x1680 || (0x2000 <= n <= 0x200A) || n == 0x2028
    || n == 0x2029 || n == 0x202F || n == 0x205F || n == 0x3000 || n == 0xFEFF
  }

  predicate AllWhitespace(s: string)
  {
    forall i :: 0 <= i < |s| ==> IsWhitespace(s[i])
  }

  /** No whitespace at either end: what a trimmed string looks like. */
  predicate IsTrimmed(s: string)
  {
    |s| == 0 || (!IsWhitespace(s[0]) && !IsWhitespace(s[|s| - 1]))
  }

  /** The length of the longest all-whitespace prefix of `s`. */
  function LeadingSpace(s: string): (n: nat)
    ensures n <= |s| && AllWhitespace(s[..n])
    ensures n < |s| ==> !IsWhitespace(s[n])
    decreases |s|
  {
    if |s| > 0 && IsWhitespace(s[0]) then
      var m := LeadingSpace(s[1..]);
      WhitespaceCons(s, m);
      1 + m
    else 0
  }

  /** Helper: a whitespace character before an all-whitespace run. */
  lemma WhitespaceCons(s: string, m: nat)
    requires 0 < |s| && IsWhitespace(s[0]) && m < |s| && AllWhitespace(s[1..][..m])
    ensures AllWhitespace(s[..m + 1])
  {
    assert s[..m + 1] == [s[0]] + s[1..][..m];
  }

  /** The length of the longest all-whitespace suffix of `s`. */
  function TrailingSpace(s: string): (n: nat)
    ensures n <= |s| && AllWhitespace(s[|s| - n..])
    ensures n < |s| ==> !IsWhitespace(s[|s| - n - 1])
    decreases |s|
  {
    if |s| > 0 && IsWhitespace(s[|s| - 1]) then
      var m := TrailingSpace(s[..|s| - 1]);
      WhitespaceSnoc(s, m);
      1 + m
    else 0
  }

  /** Helper: an all-whitespace run before a final whitespace character. */
  lemma WhitespaceSnoc(s: string, m: nat)
    requires 0 < |s| && IsWhitespace(s[|s| - 1]) && m < |s|
    requires AllWhitespace(s[..|s| - 1][|s| - 1 - m..])
    ensures AllWhitespace(s[|s| - m - 1..])
  {
    assert s[|s| - m - 1..] == s[..|s| - 1][|s| - 1 - m..] + [s[|s| - 1]];
  }

  /** Drops the longest all-whitespace prefix. */
  function TrimStart(s: string): (r: string)
    ensures |r| <= |s| && r == s[|s| - |r|..]
    ensures AllWhitespace(s[..|s| - |r|])
    ensures |r| > 0 ==> !IsWhitespace(r[0])
  {
    s[LeadingSpace(s)..]
  }

  /** Drops the longest all-whitespace suffix. */
  function TrimEnd(s: string): (r: string)
    ensures |r| <= |s| && r == s[..|r|]
    ensures AllWhitespace(s[|r|..])
    ensures |r| > 0 ==> !IsWhitespace(r[|r| - 1])
  {
    s[..|s| - TrailingSpace(s)]
  }

  /** String.prototype.trim: the result is a slice of `s`, everything cut away
      on either side is whitespace, and the result has no whitespace at its ends. */
  function Trim(s: string): (r: string)
    ensures IsTrimmed(r)
  {
    TrimEnd(TrimStart(s))
  }

  /** What trimming cuts away: the result is the slice of `s` that starts
      where the leading whitespace ends, and everything on either side of it
      is whitespace. */
  lemma TrimSlice(s: string)
    ensures var k, r := |s| - |TrimStart(s)|, Trim(s);
            && k + |r| <= |s| && r == s[k..k + |r|]
            && AllWhitespace(s[..k]) && AllWhitespace(s[k + |r|..])
  {
    var t := TrimStart(s);
    var k := |s| - |t|;
    var r := TrimEnd(t);
    DropThenSlice(s, k, |r|);
  }

  /** Helper: slicing a suffix is slicing the whole. */
  lemma DropThenSlice(s: string, k: nat, n: nat)
    requires k + n <= |s|
    ensures s[k..][..n] == s[k..k + n] && s[k..][n..] == s[k + n..]
  {
  }

  /** Trimming changes nothing exactly when there is no whitespace at either end. */
  lemma {:induction false} TrimFixedIff(s: string)
    ensures Trim(s) == s <==> IsTrimmed(s)
  {
    if IsTrimmed(s) {
      assert LeadingSpace(s) == 0;
      assert TrailingSpace(s) == 0;
    }
  }

  /** Trimming is idempotent. */
  lemma TrimIdempotent(s: string)
    ensures Trim(Trim(s)) == Trim(s)
  {
    TrimFixedIff(Trim(s));
  }

  predicate StartsWith(s: string, prefix: string)
  {
    |prefix| <= |s| && s[..|prefix|] == prefix
  }

  /** `pat` occurs somewhere in `s` as a contiguous substring. */
  predicate Contains(s: string, pat: string)
    decreases |s|
  {
    StartsWith(s, pat) || (|s| > 0 && Contains(s[1..], pat))
  }

  /** An occurrence is never longer than the text it occurs in. */
  lemma {:induction false} ContainsLength(s: string, pat: string)
    requires Contains(s, pat)
    ensures |pat| <= |s|
    decreases |s|
  {
    if !StartsWith(s, pat) {
      ContainsLength(s[1..], pat);
    }
  }

  /** An occurrence of a pattern is an occurrence of each of its prefixes. */
  lemma {:induction false} ContainsPrefixOf(s: string, pat: string, prefix: string)
    requires Contains(s, pat) && StartsWith(pat, prefix)
    ensures Contains(s, prefix)
    decreases |s|
  {
    if StartsWith(s, pat) {
      assert s[..|prefix|] == pat[..|prefix|];
    } else {
      ContainsPrefixOf(s[1..], pat, prefix);
    }
  }

  /** The text spliced between `pre` and `post` occurs in the result verbatim. */
  lemma {:induction false} ContainsSpliced(pre: string, x: string, post: string)
    ensures Contains(pre + x + post, x)
    decreases |pre|
  {
    if pre == [] {
      assert (pre + x + post)[..|x|] == x;
    } else {
      assert (pre + x + post)[1..] == pre[1..] + x + post;
      ContainsSpliced(pre[1..], x, post);
    }
  }

  /** An occurrence survives appending text. */
  lemma {:induction false} ContainsExtend(s: string, tail: string, pat: string)
    requires Contains(s, pat)
    ensures Contains(s + tail, pat)
    decreases |s|
  {
    if StartsWith(s, pat) {
      assert (s + tail)[..|pat|] == s[..|pat|];
    } else {
      assert (s + tail)[1..] == s[1..] + tail;
      ContainsExtend(s[1..], tail, pat);
    }
  }

  /** Both halves of a concatenation occur in it. */
  lemma {:induction false} ContainsParts(x: string, y: string)
    ensures Contains(x + y, x) && Contains(x + y, y)
    decreases |x|
  {
    assert (x + y)[..|x|] == x;
    if x == [] {
      assert x + y == y;
      assert y[..|y|] == y;
    } else {
      assert (x + y)[1..] == x[1..] + y;
      ContainsParts(x[1..], y);
    }
  }

  /** An occurrence within an occurrence is an occurrence. */
  lemma {:induction false} ContainsTransitive(s: string, mid: string, pat: string)
    requires Contains(s, mid) && Contains(mid, pat)
    ensures Contains(s, pat)
    decreases |s|
  {
    if StartsWith(s, mid) {
      assert s == mid + s[|mid|..];
      ContainsExtend(mid, s[|mid|..], pat);
    } else {
      ContainsTransitive(s[1..], mid, pat);
      if !StartsWith(s, pat) {
        assert Contains(s, pat);
      }
    }
  }

  /** Equal texts built around the same frame have equal middles. */
  lemma SplicedInjective(pre: string, x: string, y: string, post: string)
    requires pre + x + post == pre + y + post
    ensures x == y
  {
    var s := pre + x + post;
    assert |x| == |y|;
    assert x == s[|pre|..|pre| + |x|];
  }
}
