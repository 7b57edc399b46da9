/** Cleaning of a model reply before it is decoded: trim, then remove every
    "```json" fence, then every bare "```" fence, each optionally followed by
    one line feed. Both `lib/ai.ts` modules, in dealpulse and in proposalai, do exactly this. */
module Fences {
  import opened Text

  const JsonFence: string := "```json"
  const BareFence: string := "```"

  /** One global, left-to-right, non-overlapping replacement of the regular
      expression `fence\n?` by the empty string. At each position a fence is
      matched if it starts there (taking one following line feed if present);
      otherwise that character is kept and the scan moves on by one. */
  function StripFence(s: string, fence: string): (r: string)
    requires fence != []
    ensures |r| <= |s|
    decreases |s|
  {
    if s == [] then []
    else if StartsWith(s, fence) then
      var rest := s[|fence|..];
      assert s == s[..|fence|] + rest;
      if rest != [] && rest[0] == '\n' then
        assert rest == rest[..1] + rest[1..];
        StripFence(rest[1..], fence)
      else StripFence(rest, fence)
    else
      assert s == [s[0]] + s[1..];
      [s[0]] + StripFence(s[1..], fence)
  }

  /** The replacement only deletes: every character of the result comes from `s`. */
  lemma {:induction false} StripFenceOnlyDeletes(s: string, fence: string)
    requires fence != []
    ensures multiset(StripFence(s, fence)) <= multiset(s)
    decreases |s|
  {
    if s == [] {
    } else if StartsWith(s, fence) {
      var rest := s[|fence|..];
      assert s == s[..|fence|] + rest;
      if rest != [] && rest[0] == '\n' {
        assert rest == rest[..1] + rest[1..];
        StripFenceOnlyDeletes(rest[1..], fence);
      } else {
        StripFenceOnlyDeletes(rest, fence);
      }
    } else {
      assert s == [s[0]] + s[1..];
      StripFenceOnlyDeletes(s[1..], fence);
    }
  }

  /** The two chained replacements, in the order of `dealpulse/lib/ai.ts`. */
  function StripFences(s: string): string
  {
    StripFence(StripFence(s, JsonFence), BareFence)
  }

  /** The whole cleaning step: trim, then both replacements. */
  function Clean(reply: string): string
  {
    StripFences(Trim(reply))
  }

  /** Text without an occurrence of the fence goes through unchanged. */
  lemma {:induction false} StripFenceAbsent(s: string, fence: string)
    requires fence != [] && !Contains(s, fence)
    ensures StripFence(s, fence) == s
    decreases |s|
  {
    if s != [] {
      assert !StartsWith(s, fence);
      StripFenceAbsent(s[1..], fence);
    }
  }

  /** Helper: a result that begins with a backtick comes from a text that does. */
  lemma BareStripFirstBacktick(t: string)
    requires |StripFence(t, BareFence)| > 0 && StripFence(t, BareFence)[0] == '`'
    ensures |t| > 0 && t[0] == '`'
  {
    if StartsWith(t, BareFence) {
      assert t[0] == t[..3][0];
    }
  }

  /** Helper: a result that begins with two backticks comes from a text that does. */
  lemma BareStripTwoBackticks(t: string)
    requires |StripFence(t, BareFence)| >= 2
    requires StripFence(t, BareFence)[0] == '`' && StripFence(t, BareFence)[1] == '`'
    ensures |t| >= 2 && t[0] == '`' && t[1] == '`'
  {
    if StartsWith(t, BareFence) {
      assert t[..3] == "```";
    } else {
      var tail := StripFence(t[1..], BareFence);
      assert StripFence(t, BareFence) == [t[0]] + tail;
      BareStripFirstBacktick(t[1..]);
    }
  }

  /** After the bare-fence replacement no triple backtick is left anywhere,
      not even one formed by characters that a removed fence used to separate. */
  lemma {:induction false} StripBareLeavesNoFence(s: string)
    ensures !Contains(StripFence(s, BareFence), BareFence)
    decreases |s|
  {
    if s == [] {
    } else if StartsWith(s, BareFence) {
      var rest := s[3..];
      if rest != [] && rest[0] == '\n' {
        StripBareLeavesNoFence(rest[1..]);
      } else {
        StripBareLeavesNoFence(rest);
      }
    } else {
      var tail := StripFence(s[1..], BareFence);
      var r := [s[0]] + tail;
      assert StripFence(s, BareFence) == r;
      StripBareLeavesNoFence(s[1..]);
      assert r[1..] == tail;
      if StartsWith(r, BareFence) {
        assert s[0] == '`' && tail[0] == '`' && tail[1] == '`';
        BareStripTwoBackticks(s[1..]);
        assert false;
      }
    }
  }

  /** The cleaned reply contains no "```" at all. */
  lemma CleanLeavesNoFence(reply: string)
    ensures !Contains(Clean(reply), BareFence)
  {
    StripBareLeavesNoFence(StripFence(Trim(reply), JsonFence));
  }

  /** Text free of "```" is also free of "```json". */
  lemma NoBareMeansNoJson(s: string)
    requires !Contains(s, BareFence)
    ensures !Contains(s, JsonFence)
  {
    if Contains(s, JsonFence) {
      ContainsPrefixOf(s, JsonFence, BareFence);
    }
  }

  /** Text with no "```" passes both replacements unchanged. */
  lemma StripFencesFenceFree(s: string)
    requires !Contains(s, BareFence)
    ensures StripFences(s) == s
  {
    NoBareMeansNoJson(s);
    StripFenceAbsent(s, JsonFence);
    StripFenceAbsent(s, BareFence);
  }

  /** Applying both replacements again to their own output changes nothing. */
  lemma StripFencesIdempotent(s: string)
    ensures StripFences(StripFences(s)) == StripFences(s)
  {
    StripBareLeavesNoFence(StripFence(s, JsonFence));
    StripFencesFenceFree(StripFences(s));
  }

  /** A reply whose trimmed text holds no "```" is cleaned to exactly that trimmed text. */
  lemma CleanFenceFree(reply: string)
    requires !Contains(Trim(reply), BareFence)
    ensures Clean(reply) == Trim(reply)
  {
    StripFencesFenceFree(Trim(reply));
  }

  /** A leading "```json" goes as one token, with its line feed if any: nothing
      of it (in particular no "json") reaches the output. */
  lemma LeadingJsonFenceRemovedWhole(body: string)
    ensures StripFences(JsonFence + body)
            == StripFences(if body != [] && body[0] == '\n' then body[1..] else body)
  {
    var s := JsonFence + body;
    assert StartsWith(s, JsonFence);
    assert s[|JsonFence|..] == body;
  }

  /** Helper: text without a backtick passes either replacement unchanged. */
  lemma BacktickFreeUnchanged(s: string)
    requires '`' !in s
    ensures StripFence(s, JsonFence) == s && StripFence(s, BareFence) == s
  {
    NoBacktickNoFence(s);
    NoBareMeansNoJson(s);
    StripFenceAbsent(s, JsonFence);
    StripFenceAbsent(s, BareFence);
  }

  /** Helper: the bare replacement alone turns an opening "```json" fence into "json". */
  lemma BareStripKeepsTag()
    ensures StripFence("```json\n{}", BareFence) == "json\n{}"
  {
    var s, rest := "```json\n{}", "json\n{}";
    assert s == BareFence + rest;
    assert StartsWith(s, BareFence) && s[|BareFence|..] == rest && rest[0] != '\n';
    BacktickFreeUnchanged(rest);
  }

  /** Helper: the TypeScript code's order removes the opening fence whole. */
  lemma JsonStripRemovesTag()
    ensures StripFence("```json\n{}", JsonFence) == "{}"
  {
    BacktickFreeUnchanged("{}");
  }

  /** Only a line feed right after a fence goes with it: from a CRLF line
      end after "```json" the carriage return and the line feed both stay. */
  lemma CarriageReturnStays(body: string)
    requires '`' !in body
    ensures StripFences(JsonFence + "\r\n" + body) == "\r\n" + body
  {
    var s := JsonFence + "\r\n" + body;
    assert StartsWith(s, JsonFence);
    assert s[|JsonFence|..] == "\r\n" + body;
    BacktickFreeUnchanged("\r\n" + body);
  }

  /** Had the bare fence been removed first, the tag of an opening "```json"
      fence would have stayed behind; the TypeScript code's order avoids this. */
  lemma ReversedOrderLeavesTag()
    ensures StripFence(StripFence("```json\n{}", BareFence), JsonFence) == "json\n{}"
    ensures StripFences("```json\n{}") == "{}"
  {
    BareStripKeepsTag();
    BacktickFreeUnchanged("json\n{}");
    JsonStripRemovesTag();
    BacktickFreeUnchanged("{}");
  }

  /** Text without a backtick cannot contain a fence. */
  lemma {:induction false} NoBacktickNoFence(s: string)
    requires '`' !in s
    ensures !Contains(s, BareFence)
    decreases |s|
  {
    if s != [] {
      assert !StartsWith(s, BareFence) by { assert s[0] != BareFence[0]; }
      assert s == [s[0]] + s[1..];
      NoBacktickNoFence(s[1..]);
    }
  }

  /** Helper: a text that does not start with "```" does not start with
      "```json" once a closing fence is appended to it. */
  lemma NoJsonAtStart(body: string)
    requires !StartsWith(body, BareFence)
    ensures !StartsWith(body + BareFence, JsonFence)
  {
    if |body| >= 4 {
      assert (body + BareFence)[..3] == body[..3];
      assert JsonFence[..3] == BareFence;
    }
  }

  /** Helper: a closing fence after fence-free text does not complete a "```json". */
  lemma {:induction false} NoJsonBeforeClosingFence(body: string)
    requires !Contains(body, BareFence)
    ensures !Contains(body + BareFence, JsonFence)
    decreases |body|
  {
    var s := body + BareFence;
    if body != [] {
      NoJsonAtStart(body);
    }
    if body != [] {
      assert s[1..] == body[1..] + BareFence;
      assert !StartsWith(body, BareFence);
      NoJsonBeforeClosingFence(body[1..]);
    } else {
      assert !Contains(s[1..], JsonFence) by {
        if Contains(s[1..], JsonFence) { ContainsLength(s[1..], JsonFence); }
      }
    }
  }

  /** Helper: the bare replacement removes a closing fence and keeps the fence-free
      text before it, even when that text ends in one or two backticks. */
  lemma {:induction false} StripClosingFence(body: string)
    requires !Contains(body, BareFence)
    ensures StripFence(body + BareFence, BareFence) == body
    decreases |body|
  {
    var s := body + BareFence;
    if body == [] {
      assert s[3..] == [];
    } else if StartsWith(s, BareFence) {
      // only a body of one or two backticks makes the text start with a fence
      assert |body| < 3;
      var rest := s[3..];
      assert rest == body by {
        assert forall i :: 0 <= i < |body| ==> body[i] == s[i] == '`';
      }
      StripFenceAbsent(rest, BareFence) by {
        if Contains(rest, BareFence) { ContainsLength(rest, BareFence); }
      }
    } else {
      assert s[1..] == body[1..] + BareFence;
      assert !StartsWith(body, BareFence);
      StripClosingFence(body[1..]);
    }
  }

  /** Helper: the two replacements applied to a fenced body. */
  lemma StripFencesFencedBody(body: string)
    requires !Contains(body, BareFence)
    ensures StripFences(JsonFence + "\n" + body + BareFence) == body
  {
    var s := JsonFence + "\n" + body + BareFence;
    assert StripFence(s, JsonFence) == StripFence(body + BareFence, JsonFence) by {
      assert StartsWith(s, JsonFence);
      assert s[|JsonFence|..] == "\n" + body + BareFence;
      assert ("\n" + body + BareFence)[1..] == body + BareFence;
    }
    NoJsonBeforeClosingFence(body);
    StripFenceAbsent(body + BareFence, JsonFence);
    StripClosingFence(body);
  }

  /** A fenced JSON reply "```json\n" + body + "```" cleans to exactly `body`,
      for any body without a triple backtick: both fences and the opening line
      feed go, every character between them stays. */
  lemma CleanFencedBody(body: string)
    requires !Contains(body, BareFence)
    ensures Clean(JsonFence + "\n" + body + BareFence) == body
  {
    var s := JsonFence + "\n" + body + BareFence;
    assert IsTrimmed(s) by { assert s[0] == '`' && s[|s| - 1] == '`'; }
    TrimFixedIff(s);
    StripFencesFencedBody(body);
  }

  /** Helper: the body of the example below holds no fence. */
  lemma RiskScoreBodyFenceFree()
    ensures !Contains("{\"riskScore\":80}\n", BareFence)
  {
    NoBacktickNoFence("{\"riskScore\":80}\n");
  }

  /** Helper: the example reply below is a fenced body. */
  lemma RiskScoreReplyShape()
    ensures JsonFence + "\n" + "{\"riskScore\":80}\n" + BareFence == "```json\n{\"riskScore\":80}\n```"
  {
  }

  /** A typical fenced reply, cleaned: the opening fence and its line feed go,
      the closing fence goes, the line feed before it stays. */
  lemma CleanRiskScoreExample()
    ensures Clean("```json\n{\"riskScore\":80}\n```") == "{\"riskScore\":80}\n"
  {
    RiskScoreBodyFenceFree();
    RiskScoreReplyShape();
    CleanFencedBody("{\"riskScore\":80}\n");
  }

  /** Helper: the two replacements remove an opening fence before fence-free text. */
  lemma StripFencesOpeningFence(body: string)
    requires !Contains(body, BareFence)
    ensures StripFences(JsonFence + "\n" + body) == body
  {
    var s := JsonFence + "\n" + body;
    assert StripFence(s, JsonFence) == StripFence(body, JsonFence) by {
      assert StartsWith(s, JsonFence);
      assert s[|JsonFence|..] == "\n" + body;
      assert ("\n" + body)[1..] == body;
    }
    StripFencesFenceFree(body);
  }

  /** Helper: an opening fence before fence-free text that ends in a
      non-whitespace character is all that cleaning removes. */
  lemma CleanOpeningFenceOnly(body: string)
    requires !Contains(body, BareFence)
    requires |body| > 0 && !IsWhitespace(body[|body| - 1])
    ensures Clean(JsonFence + "\n" + body) == body
  {
    var s := JsonFence + "\n" + body;
    assert IsTrimmed(s) by { assert s[0] == '`' && s[|s| - 1] == body[|body| - 1]; }
    TrimFixedIff(s);
    StripFencesOpeningFence(body);
  }

  /** Because trimming happens before the fences go, whitespace that a removed
      opening fence uncovers stays in the output, and cleaning that output
      again removes it: the whole cleaning step is not idempotent (for example
      "```json\n x" cleans to " x", which cleans to "x"). */
  lemma CleanNotIdempotent(body: string)
    requires !Contains(body, BareFence)
    requires |body| > 0 && IsWhitespace(body[0]) && !IsWhitespace(body[|body| - 1])
    ensures Clean(JsonFence + "\n" + body) == body
    ensures Clean(body) != body
  {
    CleanOpeningFenceOnly(body);
    assert LeadingSpace(body) > 0;
  }
}
