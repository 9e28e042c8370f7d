/** The user prompt sent to the analysis model. */
module Prompts {
  import opened Wrappers
  import opened Strings

  /** The prompt options; an absent flag is `undefined`, which counts as "on". */
  datatype AnalysisOptions = AnalysisOptions(
    includeKeywords: Option<bool>,
    includeReadability: Option<bool>,
    includeSeo: Option<bool>,
    keywordFocus: Option<string>)

  /** The default `{}`. */
  const NoOptions := AnalysisOptions(None, None, None, None)

  const Opening := "Analyze the following content:\n\n"
  const ContentLabel := "Content:\n"
  const TitleLabel := "Title: "
  const FocusLabel := "Focus Keyword: "
  const AnalysisHeader := "Provide analysis for:\n"
  const ReadabilityLine := "- Readability (Flesch score, grade level, sentence structure)\n"
  const SeoLine := "- SEO optimization (title, keywords, headers, meta description)\n"
  const KeywordLine := "- Keyword density and distribution\n"
  const Closing := "\nRespond with ONLY the JSON object, no additional text."

  /** A JavaScript string is truthy when present and non-empty. */
  predicate TruthyString(s: Option<string>)
  {
    s.Some? && s.value != ""
  }

  /** A flag is on unless it is explicitly false. */
  predicate On(flag: Option<bool>)
  {
    flag != Some(false)
  }

  function TitleSection(title: Option<string>): string
  {
    if TruthyString(title) then TitleLabel + title.value + "\n\n" else ""
  }

  function FocusSection(focus: Option<string>): string
  {
    if TruthyString(focus) then FocusLabel + focus.value + "\n\n" else ""
  }

  function AnalysisLines(o: AnalysisOptions): string
  {
    (if On(o.includeReadability) then ReadabilityLine else "") +
    (if On(o.includeSeo) then SeoLine else "") +
    (if On(o.includeKeywords) then KeywordLine else "")
  }

  /** From the analysis header to the end. */
  function AnalysisTail(options: AnalysisOptions): string
  {
    AnalysisHeader + AnalysisLines(options) + Closing
  }

  /** From the focus keyword line, if any, to the end. */
  function RequestTail(options: AnalysisOptions): string
  {
    FocusSection(options.keywordFocus) + AnalysisTail(options)
  }

  /** From the content label to the end. */
  function ContentTail(content: string, options: AnalysisOptions): string
  {
    (ContentLabel + content) + ("\n\n" + RequestTail(options))
  }

  function BuildAnalysisPrompt(content: string, title: Option<string>, options: AnalysisOptions): (p: string)
    ensures StartsWith(p, Opening) && EndsWith(p, Closing)
  {
    var head := Opening + TitleSection(title);
    var tail := ContentTail(content, options);
    StartsWithAppend(Opening, TitleSection(title), Opening);
    StartsWithAppend(head, tail, Opening);
    var analysis := AnalysisTail(options);
    EndsWithPrepend(AnalysisHeader + AnalysisLines(options), Closing, Closing);
    EndsWithPrepend(FocusSection(options.keywordFocus), analysis, Closing);
    EndsWithPrepend("\n\n", RequestTail(options), Closing);
    EndsWithPrepend(ContentLabel + content, "\n\n" + RequestTail(options), Closing);
    EndsWithPrepend(head, tail, Closing);
    head + tail
  }

  /** Where the content section begins. */
  function ContentAt(title: Option<string>): nat
  {
    |Opening| + |TitleSection(title)|
  }

  lemma Split<T>(a: seq<T>, b: seq<T>)
    ensures (a + b)[..|a|] == a && (a + b)[|a|..] == b
  {
  }

  /**
   * A section that is either `lead + v` and a blank line or nothing, followed by
   * text that does not begin like `lead`, begins with `lead` exactly when
   * it is present.
   */
  lemma {:induction false} SectionIff(lead: string, v: string, present: bool, section: string, tail: string)
    requires |lead| > 0 && |tail| > 0 && tail[0] != lead[0]
    requires section == if present then lead + v + "\n\n" else ""
    ensures StartsWith(section + tail, lead) <==> present
  {
    if present {
      assert (section + tail)[..|lead|] == lead;
    } else {
      assert section + tail == tail;
    }
  }

  /** The title section follows the opening exactly when the title is non-empty. */
  lemma {:induction false} TitleSectionIff(content: string, title: Option<string>, options: AnalysisOptions)
    ensures StartsWith(BuildAnalysisPrompt(content, title, options)[|Opening|..], TitleLabel) <==> TruthyString(title)
  {
    var tail := ContentTail(content, options);
    var body := TitleSection(title) + tail;
    Split(Opening, body);
    assert tail[0] == 'C';
    SectionIff(TitleLabel, if TruthyString(title) then title.value else "", TruthyString(title), TitleSection(title), tail);
  }

  /** The content always follows "Content:\n" right after the title section. */
  lemma {:induction false} ContentPlaced(content: string, title: Option<string>, options: AnalysisOptions)
    ensures var p := BuildAnalysisPrompt(content, title, options);
            var i := ContentAt(title);
            i + |ContentLabel| + |content| <= |p| && p[i..i + |ContentLabel| + |content|] == ContentLabel + content
  {
    var p := BuildAnalysisPrompt(content, title, options);
    var head := Opening + TitleSection(title);
    var tail := ContentTail(content, options);
    var y := ContentLabel + content;
    Split(head, tail);
    Split(y, "\n\n" + RequestTail(options));
    var i := ContentAt(title);
    assert p[i..][..|y|] == p[i..i + |y|];
  }

  /** After the content and its blank line, the focus line appears exactly when a focus keyword is given. */
  lemma {:induction false} FocusSectionIff(content: string, title: Option<string>, options: AnalysisOptions)
    ensures var p := BuildAnalysisPrompt(content, title, options);
            var j := ContentAt(title) + |ContentLabel| + |content| + 2;
            j <= |p| && (StartsWith(p[j..], FocusLabel) <==> TruthyString(options.keywordFocus))
  {
    var head := Opening + TitleSection(title);
    var tail := ContentTail(content, options);
    var y := ContentLabel + content;
    var rest := RequestTail(options);
    Split(head, tail);
    Split(y, "\n\n" + rest);
    Split("\n\n", rest);
    var focus := options.keywordFocus;
    var after := AnalysisTail(options);
    assert after[0] == 'P';
    SectionIff(FocusLabel, if TruthyString(focus) then focus.value else "", TruthyString(focus), FocusSection(focus), after);
  }

  /** Each analysis line appears unless its flag is explicitly false, in the order readability, SEO, keywords. */
  lemma AnalysisLinesOrder(o: AnalysisOptions)
    ensures On(o.includeReadability) ==> StartsWith(AnalysisLines(o), ReadabilityLine)
    ensures On(o.includeKeywords) ==> EndsWith(AnalysisLines(o), KeywordLine)
    ensures var a := if On(o.includeReadability) then |ReadabilityLine| else 0;
            On(o.includeSeo) ==> a + |SeoLine| <= |AnalysisLines(o)| && AnalysisLines(o)[a..a + |SeoLine|] == SeoLine
    ensures |AnalysisLines(o)| ==
            (if On(o.includeReadability) then |ReadabilityLine| else 0) +
            (if On(o.includeSeo) then |SeoLine| else 0) +
            (if On(o.includeKeywords) then |KeywordLine| else 0)
    ensures o == NoOptions ==> AnalysisLines(o) == ReadabilityLine + SeoLine + KeywordLine
  {
  }
}
