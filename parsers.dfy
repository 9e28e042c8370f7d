/** Reading the model's reply: code-fence stripping, the JSON parse, and the token estimate. */
module Parsers {
  import opened Wrappers
  import opened Strings
  import opened Http

  const JsonFence := "```json"
  const Fence := "```"

  /**
   * `replace(/<fence>\n?/, '')` on a text that starts with the fence: the
   * first match is at the start, so exactly the fence goes, and with it the
   * newline right after it when there is one.
   */
  function DropLeading(s: string, fence: string): (r: string)
    requires StartsWith(s, fence)
    ensures |s| - |fence| - 1 <= |r| <= |s| - |fence| && r == s[|s| - |r|..]
    ensures |r| == |s| - |fence| - 1 <==> |s| > |fence| && s[|fence|] == '\n'
  {
    var rest := s[|fence|..];
    if |rest| > 0 && rest[0] == '\n' then rest[1..] else rest
  }

  /**
   * `replace(/\n?```$/, '')`: a trailing "```" goes, and with it the newline
   * right before it when there is one; a text without the trailing fence is
   * unchanged.
   */
  function DropTrailing(s: string): (r: string)
    ensures |r| <= |s| && r == s[..|r|]
    ensures EndsWith(s, Fence) ==> |s| - 4 <= |r| <= |s| - 3
    ensures EndsWith(s, Fence) ==> (|r| == |s| - 4 <==> |s| >= 4 && s[|s| - 4] == '\n')
    ensures !EndsWith(s, Fence) ==> r == s
  {
    if EndsWith(s, Fence) then
      var head := s[..|s| - 3];
      if |head| > 0 && head[|head| - 1] == '\n' then head[..|head| - 1] else head
    else s
  }

  lemma JsonFenceIsFence(t: string)
    requires StartsWith(t, JsonFence)
    ensures StartsWith(t, Fence)
  {
    assert t[..|Fence|] == t[..|JsonFence|][..|Fence|];
  }

  /**
   * The text handed to the JSON parser: the trimmed reply, with an opening
   * "```json" (or else "```") fence and a closing fence removed as above.
   */
  function Clean(text: string): (r: string)
    ensures var t := Trim(text); !StartsWith(t, Fence) ==> r == t
    ensures var t := Trim(text);
            StartsWith(t, Fence) ==>
              var fence := if StartsWith(t, JsonFence) then JsonFence else Fence;
              StartsWith(t, fence) && r == DropTrailing(DropLeading(t, fence))
  {
    var t := Trim(text);
    if StartsWith(t, JsonFence) then
      JsonFenceIsFence(t);
      DropTrailing(DropLeading(t, JsonFence))
    else if StartsWith(t, Fence) then DropTrailing(DropLeading(t, Fence))
    else t
  }

  /**
   * A fenced reply loses both fence lines and keeps what lies between them:
   * what is parsed is a prefix of the text after the opening fence (and its
   * newline), shorter by 3, or by 4 with the newline before the closing
   * fence, when the reply also ends with a fence.
   */
  lemma {:induction false} CleanFenced(text: string)
    requires StartsWith(Trim(text), Fence)
    ensures var t := Trim(text);
            var fence := if StartsWith(t, JsonFence) then JsonFence else Fence;
            var d := DropLeading(t, fence);
            && StartsWith(d, Clean(text))
            && (EndsWith(d, Fence) ==> |d| - 4 <= |Clean(text)| <= |d| - 3)
            && (!EndsWith(d, Fence) ==> Clean(text) == d)
  {
  }

  /** A reply that is a fenced block, with or without the `json` tag, is parsed as the block's body. */
  lemma {:induction false} CleanRoundTrip(x: string)
    ensures Clean(JsonFence + "\n" + x + "\n" + Fence) == x
    ensures Clean(Fence + "\n" + x + "\n" + Fence) == x
  {
    CleanTaggedBlock(x);
    CleanBareBlock(x);
  }

  lemma CleanTaggedBlock(x: string)
    ensures Clean(JsonFence + "\n" + x + "\n" + Fence) == x
  {
    var a := JsonFence + "\n" + x + "\n" + Fence;
    FencedIsTrimmed(a);
    StripBlock(JsonFence, x);
    JsonFenceIsFence(a);
  }

  lemma CleanBareBlock(x: string)
    ensures Clean(Fence + "\n" + x + "\n" + Fence) == x
  {
    var b := Fence + "\n" + x + "\n" + Fence;
    FencedIsTrimmed(b);
    StripBlock(Fence, x);
    UntaggedBlock(x);
  }

  /** The newline after a bare fence is where `json` would be. */
  lemma UntaggedBlock(x: string)
    ensures !StartsWith(Fence + "\n" + x + "\n" + Fence, JsonFence)
  {
    var b := Fence + "\n" + x + "\n" + Fence;
    assert b[3] == '\n';
    assert JsonFence[3] == 'j';
  }

  /** Both drops on `fence`, a newline, the body, a newline and the closing fence leave the body. */
  lemma StripBlock(fence: string, x: string)
    ensures StartsWith(fence + "\n" + x + "\n" + Fence, fence)
    ensures DropTrailing(DropLeading(fence + "\n" + x + "\n" + Fence, fence)) == x
  {
    var s := fence + "\n" + x + "\n" + Fence;
    assert s[..|fence|] == fence;
    assert s[|fence|] == '\n';
    assert s[|fence| + 1..] == x + "\n" + Fence;
    var d := x + "\n" + Fence;
    assert d[..|d| - 3] == x + "\n";
    assert (x + "\n")[..|x|] == x;
  }

  /** A text that starts and ends with a backtick has no outer whitespace to trim. */
  lemma FencedIsTrimmed(s: string)
    requires |s| >= 2 && s[0] == '`' && s[|s| - 1] == '`'
    ensures Trim(s) == s
  {
  }

  datatype ParseError = InvalidAnalysisResponse

  /** `parseJson` is the JSON parser: None when the text is not JSON. */
  function ParseAnalysisResponse(text: string, parseJson: string -> Option<Json>): (r: Result<Json, ParseError>)
    ensures r.Success? <==> parseJson(Clean(text)).Some?
    ensures r.Success? ==> r.value == parseJson(Clean(text)).value
  {
    match parseJson(Clean(text))
    case Some(j) => Success(j)
    case None => Failure(InvalidAnalysisResponse)
  }

  /** The message the parse failure carries. */
  function ParseErrorMessage(e: ParseError): string
  {
    "Invalid analysis response format"
  }

  /** `Math.ceil(length / 4)`. */
  function EstimateTokens(s: string): (t: nat)
    ensures 4 * t - 3 <= |s| <= 4 * t
  {
    (|s| + 3) / 4
  }

  lemma EstimateTokensMonotone(a: string, b: string)
    requires |a| <= |b|
    ensures EstimateTokens(a) <= EstimateTokens(b)
  {
  }
}
