/** The generative-model client without its network layer: prompt
    rendering, tolerant recovery of a JSON value from the model's reply, and
    the shaping of that value into the partial AI content of a study pack. */
module AIService {
  import opened Wrappers
  import opened Strings
  import opened Json
  import opened Validate

  // ---------------------------------------------------------------- prompt

  /** How much of the encyclopedia extract goes into the prompt. */
  const ContextLimit: nat := 1200

  const Ellipsis := "..."

  /** `truncate(text, max)`: empty text stays empty, text of at most `max`
      characters is unchanged, longer text keeps its first `max` characters
      and gains an ellipsis. */
  function Truncate(text: string, max: nat): (r: string)
    ensures text == "" ==> r == ""
    ensures |text| <= max ==> r == text
    ensures |text| > max ==> |r| == max + |Ellipsis| && r == text[..max] + Ellipsis
    ensures |r| <= max + |Ellipsis|
  {
    if text == "" then ""
    else if |text| > max then text[..max] + Ellipsis
    else text
  }

  /** The alternatives of the math-topic pattern, in lower case. */
  const MathTerms: seq<string> := [
    "math", "calculus", "algebra", "geometry", "trigonometry", "statistics",
    "probability", "equation", "theorem", "formula", "arithmetic"]

  /** Whether some term occurs in `s`, scanning the terms in order. */
  function ContainsAny(s: string, terms: seq<string>): (r: bool)
    ensures r <==> exists k :: 0 <= k < |terms| && Contains(s, terms[k])
  {
    if terms == [] then false
    else Contains(s, terms[0]) || ContainsAny(s, terms[1..])
  }

  /** The case-insensitive test of the topic against the math-topic
      pattern: some listed term occurs in the topic. */
  function IsMathTopic(topic: string): (r: bool)
    ensures r <==> exists k :: 0 <= k < |MathTerms| && Contains(Lower(topic), MathTerms[k])
  {
    ContainsAny(Lower(topic), MathTerms)
  }

  // Long template texts are written as concatenations of short literals;
  // each concatenation spells the text of the template line it stands for.

  const MathTask := "Task: Create a comprehensive " + "study pack with quiz AND " + "math problem."
  const NormalTask := "Task: Create a comprehensive " + "study pack."
  const FormulaProblem := "- Math: ONE pure mathematical " + "problem using formulas/equations " + "from this topic with RANDOM " + "UNIQUE numbers"
  const WordProblem := "- Math: ONE quantitative " + "word problem with RANDOM " + "UNIQUE numbers"
  const FormulaHint := "  * Use actual formulas/theorems " + "from the topic (e.g., for " + "Pythagorean: \"Find c if " + "a=7, b=24\")"
  const WordHint := "  * Create a practical word " + "problem with calculations"
  const NoFences := "- No markdown or code fences."

  /** A line of a prompt template: fixed text, or text around the topic. */
  datatype Line = Fixed(text: string) | AroundTopic(before: string, after: string)

  function RenderLine(line: Line, topic: string): string
  {
    match line
    case Fixed(t) => t
    case AroundTopic(b, a) => b + topic + a
  }

  /** The template's lines with the topic filled in. */
  function Render(lines: seq<Line>, topic: string): (r: seq<string>)
    ensures |r| == |lines|
    ensures forall k :: 0 <= k < |lines| ==> r[k] == RenderLine(lines[k], topic)
  {
    seq(|lines|, k requires 0 <= k < |lines| => RenderLine(lines[k], topic))
  }

  const MathRequirements: seq<Line> := [
    Fixed(MathTask),
    Fixed("Requirements:"),
    Fixed("- Summary: 3 DETAILED bullets " + "explaining key concepts (not " + "just definitions)"),
    AroundTopic("- Quiz: Generate EXACTLY " + "3 competitive questions DIRECTLY " + "ABOUT ", " using the context provided"),
    AroundTopic("  * Make them RELATABLE and " + "SPECIFIC to ", " - use real examples, applications, " + "or scenarios from the topic"),
    AroundTopic("  * Q1 (Medium): Test a key " + "concept or mechanism specific " + "to ", ""),
    AroundTopic("  * Q2 (Hard): Test how ", " works in a specific real-world " + "scenario or application"),
    AroundTopic("  * Q3 (Very Hard): Test " + "edge cases, limitations, " + "or advanced concepts about ", ""),
    AroundTopic("  * Use actual terminology, " + "processes, and examples FROM ", ""),
    AroundTopic("  * Make options specific " + "to ", " - not generic statements"),
    AroundTopic("  * Questions must be directly " + "answerable using knowledge " + "of ", "")]

  const MathSolutionSteps: seq<Line> := [
    Fixed("  * MUST use DIFFERENT random " + "numbers each time (vary the " + "values significantly)")]

  const MathClosing: seq<Line> := [
    Fixed("  * Show complete step-by-step " + "solution"),
    AroundTopic("- StudyTip: Specific technique " + "for mastering ", ""),
    AroundTopic("- FunFact: ONE surprising, " + "interesting, or counterintuitive " + "fact about ", " (make it genuinely fascinating)"),
    Fixed("Return JSON exactly in this " + "shape:"),
    Fixed("{ \"summary\": [\"detailed " + "bullet 1\", \"detailed bullet " + "2\", \"detailed bullet 3\"], " + "\"quiz\": [{\"q\":\"Why would " + "[scenario X] lead to [outcome " + "Y] rather than [outcome Z]?\", " + "\"options\":[\"Plausible " + "A\",\"Plausible B\",\"Plausible " + "C\",\"Plausible D\"], \"answer\":\"Plausible " + "A\"}, {\"q\":\"If [condition] " + "changed, what would be the " + "FIRST consequence?\", \"options\":[\"Detailed " + "option 1\",\"Detailed option " + "2\",\"Detailed option 3\",\"Detailed " + "option 4\"], \"answer\":\"Detailed " + "option 2\"}, {\"q\":\"Which " + "factor has the MOST impact " + "on [complex situation]?\", " + "\"options\":[\"Option A with " + "reasoning\",\"Option B with " + "reasoning\",\"Option C with " + "reasoning\",\"Option D with " + "reasoning\"], \"answer\":\"Option " + "A with reasoning\"}], \"math\": " + "{\"question\":\"...\", \"answer\":\"...\", " + "\"explanation\":\"...\"}, " + "\"studyTip\":\"...\", \"funFact\":\"...\" " + "}"),
    Fixed(NoFences)]

  const NormalBody: seq<Line> := [
    Fixed(NormalTask),
    Fixed("Requirements:"),
    Fixed("- Summary: EXACTLY 3 DETAILED " + "explanatory bullets (not " + "basic definitions, explain " + "HOW/WHY things work)"),
    AroundTopic("- Quiz: Generate EXACTLY " + "3 competitive questions DIRECTLY " + "ABOUT ", " using the context provided"),
    AroundTopic("  * Make them RELATABLE and " + "SPECIFIC to ", " - use real-world examples " + "and applications"),
    AroundTopic("  * Q1 (Medium): Test a core " + "concept or process specific " + "to ", ""),
    AroundTopic("  * Q2 (Hard): Test application " + "of ", " in a real-world scenario"),
    AroundTopic("  * Q3 (Very Hard): Test " + "edge cases, advanced concepts, " + "or implications of ", ""),
    AroundTopic("  * Use actual facts, terminology, " + "and details FROM ", ""),
    AroundTopic("  * Options must be specific " + "to ", " - not generic or vague"),
    AroundTopic("  * Questions should be directly " + "relatable to someone learning ", ""),
    AroundTopic("  * Make all 4 options plausible " + "using actual concepts from ", ""),
    Fixed("  * \"answer\" must match " + "one option exactly"),
    AroundTopic("- StudyTip: ONE specific, " + "actionable technique for " + "learning ", ""),
    AroundTopic("- FunFact: ONE genuinely " + "surprising or counterintuitive " + "fact about ", " that makes people say \"wow!\""),
    Fixed("Return JSON exactly in this " + "shape:"),
    Fixed("{ \"summary\": [\"detailed " + "bullet 1\", \"detailed bullet " + "2\", \"detailed bullet 3\"], " + "\"quiz\": [{\"q\":\"Why does " + "[mechanism A] result in [effect " + "B] instead of [alternative " + "C]?\", \"options\":[\"Detailed " + "reasoning 1\",\"Detailed " + "reasoning 2\",\"Detailed " + "reasoning 3\",\"Detailed " + "reasoning 4\"], \"answer\":\"Detailed " + "reasoning 1\"}, {\"q\":\"If " + "[specific condition] occurred, " + "which outcome would happen " + "FIRST?\", \"options\":[\"Plausible " + "consequence A\",\"Plausible " + "consequence B\",\"Plausible " + "consequence C\",\"Plausible " + "consequence D\"], \"answer\":\"Plausible " + "consequence B\"}, {\"q\":\"In " + "[complex scenario], which " + "factor would have the GREATEST " + "impact?\", \"options\":[\"Factor " + "A with explanation\",\"Factor " + "B with explanation\",\"Factor " + "C with explanation\",\"Factor " + "D with explanation\"], \"answer\":\"Factor " + "A with explanation\"}], \"studyTip\":\"...\", " + "\"funFact\":\"...\" }"),
    Fixed(NoFences)]

  /** The lines of the math-mode prompt; `formula` chooses the wording of
      the requested math problem. */
  function MathPromptLines(topic: string, extract: string, formula: bool): (r: seq<string>)
    ensures |r| == 22
    ensures r[0] == "Topic: " + topic
    ensures r[1] == "Context: " + Truncate(extract, ContextLimit)
    ensures r[2] == MathTask
    ensures r[13] == (if formula then FormulaProblem else WordProblem)
    ensures r[15] == (if formula then FormulaHint else WordHint)
    ensures r[21] == NoFences
  {
    ["Topic: " + topic, "Context: " + Truncate(extract, ContextLimit)]
    + Render(MathRequirements, topic)
    + [if formula then FormulaProblem else WordProblem]
    + Render(MathSolutionSteps, topic)
    + [if formula then FormulaHint else WordHint]
    + Render(MathClosing, topic)
  }

  /** The lines of the normal-mode prompt. */
  function NormalPromptLines(topic: string, extract: string): (r: seq<string>)
    ensures |r| == 20
    ensures r[0] == "Topic: " + topic
    ensures r[1] == "Context: " + Truncate(extract, ContextLimit)
    ensures r[2] == NormalTask
    ensures r[19] == NoFences
  {
    ["Topic: " + topic, "Context: " + Truncate(extract, ContextLimit)] + Render(NormalBody, topic)
  }

  /** The alternative wordings are different texts. */
  lemma TemplatesDiffer()
    ensures MathTask != NormalTask && FormulaProblem != WordProblem && FormulaHint != WordHint
  {
    assert MathTask[39] == ' ' && NormalTask[39] == '.';
    assert |FormulaProblem| == 105 && |WordProblem| == 64;
    assert FormulaHint[93] == ')' && WordHint[52] == 's';
  }

  /** The prompt's lines: the math template exactly in math mode, and there
      the formula wording exactly for a math topic; both templates open with
      the topic and the truncated extract and close by forbidding fences. */
  function PromptLines(topic: string, extract: string, mode: Mode): (r: seq<string>)
    ensures |r| == (if mode == Math then 22 else 20)
    ensures r[0] == "Topic: " + topic
    ensures r[1] == "Context: " + Truncate(extract, ContextLimit)
    ensures r[2] == MathTask <==> mode == Math
    ensures r[2] == NormalTask <==> mode == Normal
    ensures mode == Math ==> (r[13] == FormulaProblem <==> IsMathTopic(topic))
    ensures mode == Math ==> (r[15] == FormulaHint <==> IsMathTopic(topic))
    ensures r[|r| - 1] == NoFences
  {
    TemplatesDiffer();
    if mode == Math then MathPromptLines(topic, extract, IsMathTopic(topic))
    else
      var lines := NormalPromptLines(topic, extract);
      assert lines[2] == NormalTask && mode == Normal;
      lines
  }

  /** `buildPrompt({topic, extract, mode})`: the lines joined by newlines. */
  function BuildPrompt(topic: string, extract: string, mode: Mode): (r: string)
    ensures var opening := "Topic: " + topic + "\n" + "Context: " + Truncate(extract, ContextLimit) + "\n";
      |opening| <= |r| && r[..|opening|] == opening
    ensures var closing := "\n" + NoFences;
      |closing| <= |r| && r[|r| - |closing|..] == closing
  {
    var lines := PromptLines(topic, extract, mode);
    JoinOpening(lines, "\n");
    JoinClosing(lines, "\n");
    Join(lines, "\n")
  }

  /** The system instruction sent before the prompt. */
  function SystemPrompt(mode: Mode): string
  {
    if mode == Math
    then "You are a helpful math tutor. " + "Always respond with valid " + "JSON only, no markdown or " + "code blocks."
    else "You are a helpful study assistant. " + "Always respond with valid " + "JSON only, no markdown or " + "code blocks."
  }

  /** The process-wide settings the generator reads; `None` is an unset
      variable. */
  datatype Config = Config(apiKey: Option<string>, model: Option<string>, apiVersion: Option<string>)

  const PlaceholderKey := "your_gemini_api_key_here"
  const DefaultModel := "gemini-2.0-flash"
  const DefaultApiVersion := "v1"

  /** A missing, blank or placeholder key: no request is made. */
  predicate NoUsableKey(key: Option<string>) {
    key.None? || key.value == "" || Trim(key.value) == "" || key.value == PlaceholderKey
  }

  /** What is sent to the model: the API version and model of the URL, the
      single text part, and the sampling temperature. */
  datatype AIRequest = AIRequest(apiVersion: string, model: string, text: string, temperature: real)

  /** The request for a prompt text: the configured model and API version
      (the defaults when unset or empty), the system instruction and the
      prompt in one text part, and the mode's temperature. */
  function RequestFor(config: Config, prompt: string, mode: Mode): (r: AIRequest)
    ensures r.text == SystemPrompt(mode) + "\n\n" + prompt
    ensures r.temperature == (if mode == Math then 0.3 else 0.4)
    ensures r.model == (if config.model.Some? && config.model.value != "" then config.model.value else DefaultModel)
    ensures r.apiVersion == (if config.apiVersion.Some? && config.apiVersion.value != "" then config.apiVersion.value else DefaultApiVersion)
    ensures r.model != "" && r.apiVersion != ""
  {
    AIRequest(
      if config.apiVersion.Some? && config.apiVersion.value != "" then config.apiVersion.value else DefaultApiVersion,
      if config.model.Some? && config.model.value != "" then config.model.value else DefaultModel,
      SystemPrompt(mode) + "\n\n" + prompt,
      if mode == Math then 0.3 else 0.4)
  }

  /** The request `generateAIContent` sends for a topic when it has a
      usable key. */
  function OutgoingRequest(config: Config, topic: string, extract: string, mode: Mode): AIRequest
  {
    RequestFor(config, BuildPrompt(topic, extract, mode), mode)
  }

  // ---------------------------------------------------------- code fences

  const Fence := "```"

  /** The whole text is one fence: it starts and ends with three backticks
      that do not overlap. */
  predicate IsFenced(text: string) {
    |text| >= 6 && text[..3] == Fence && text[|text| - 3..] == Fence
  }

  /** Where the fenced text starts: after the optional `json` tag (matched
      case-insensitively). */
  function FenceBodyStart(text: string): (k: nat)
    requires IsFenced(text)
    ensures k == 3 || k == 7
    ensures k == 7 <==> |text| >= 10 && Lower(text[3..7]) == "json"
    ensures k <= |text| - 3
  {
    if |text| >= 10 && Lower(text[3..7]) == "json" then 7 else 3
  }

  /** `stripCodeFences(text)`: a text that is one fence gives the trimmed text
      between the fence (and its tag); any other text is returned as is. */
  function StripCodeFences(text: string): (r: string)
    ensures IsFenced(text) ==> r == Trim(text[FenceBodyStart(text)..|text| - 3])
    ensures !IsFenced(text) ==> r == text
  {
    if IsFenced(text) then Trim(text[FenceBodyStart(text)..|text| - 3]) else text
  }

  /** A body fenced with the `json` tag and newlines comes back trimmed. */
  lemma StripTaggedFence(body: string)
    ensures StripCodeFences("```json\n" + body + "\n```") == Trim(body)
  {
    var text := "```json\n" + body + "\n```";
    assert text[..3] == Fence && text[|text| - 3..] == Fence;
    assert text[3..7] == "json";
    assert Lower("json") == "json";
    assert text[7..|text| - 3] == "\n" + body + "\n";
    TrimPadded("\n", body, "\n");
  }

  /** The tag is matched in any letter case: a `JSON` tag is skipped too. */
  lemma StripUpperTaggedFence(body: string)
    ensures StripCodeFences("```JSON\n" + body + "\n```") == Trim(body)
  {
    var text := "```JSON\n" + body + "\n```";
    assert text[..3] == Fence && text[|text| - 3..] == Fence;
    assert text[3..7] == "JSON";
    assert Lower("JSON") == "json" by {
      assert Lower("JSON")[0] == 'j' && Lower("JSON")[1] == 's' && Lower("JSON")[2] == 'o' && Lower("JSON")[3] == 'n';
    }
    assert text[7..|text| - 3] == "\n" + body + "\n";
    TrimPadded("\n", body, "\n");
  }

  /** An untagged fence around a body that does not start with `json`
      comes back trimmed. */
  lemma StripPlainFence(body: string)
    requires |body| < 4 || Lower(body[..4]) != "json"
    ensures StripCodeFences("```" + body + "```") == Trim(body)
  {
    var text := "```" + body + "```";
    assert text[..3] == Fence && text[|text| - 3..] == Fence;
    if |text| >= 10 { assert text[3..7] == body[..4]; }
    assert text[3..|text| - 3] == body;
  }

  // ------------------------------------------------- balanced-bracket scan

  /** The change of nesting depth one character causes. */
  function Step(c: char, open: char, close: char): int {
    if c == open then 1 else if c == close then -1 else 0
  }

  /** Openings minus closings in `t`, counted as the scan counts them
      (brackets inside string literals included). */
  function Depth(t: string, open: char, close: char): int
  {
    if t == [] then 0 else Depth(t[..|t| - 1], open, close) + Step(t[|t| - 1], open, close)
  }

  lemma DepthSnoc(text: string, s: nat, i: nat, open: char, close: char)
    requires s <= i < |text|
    ensures Depth(text[s..i + 1], open, close) == Depth(text[s..i], open, close) + Step(text[i], open, close)
  {
    assert text[s..i + 1][..i - s] == text[s..i];
  }

  /** The scan from index `i` with the depth reached so far: the index at
      which the depth first returns to zero. */
  function FirstReturn(text: string, open: char, close: char, i: nat, depth: int): Option<nat>
    requires i <= |text|
    decreases |text| - i
  {
    if i == |text| then None
    else
      var d := depth + Step(text[i], open, close);
      if d == 0 then Some(i) else FirstReturn(text, open, close, i + 1, d)
  }

  /** A span the scan accepts: it opens with the bracket, closes with the
      matching one, ends at depth zero and is deeper than zero at every
      proper non-empty prefix. */
  predicate BalancedSpan(c: string, open: char, close: char) {
    && |c| >= 2
    && c[0] == open
    && c[|c| - 1] == close
    && Depth(c, open, close) == 0
    && forall k :: 0 < k < |c| ==> Depth(c[..k], open, close) > 0
  }

  lemma {:induction false} FirstReturnFrom(text: string, open: char, close: char, s: nat, i: nat, depth: int)
    requires open != close
    requires s < |text| && text[s] == open
    requires s <= i <= |text|
    requires depth == Depth(text[s..i], open, close)
    requires forall k :: s < k <= i ==> Depth(text[s..k], open, close) > 0
    ensures match FirstReturn(text, open, close, i, depth)
      case Some(e) =>
        && i <= e < |text|
        && Depth(text[s..e + 1], open, close) == 0
        && forall k :: s < k <= e ==> Depth(text[s..k], open, close) > 0
      case None =>
        forall k :: s < k <= |text| ==> Depth(text[s..k], open, close) > 0
    decreases |text| - i
  {
    if i < |text| {
      DepthSnoc(text, s, i, open, close);
      var d := depth + Step(text[i], open, close);
      if d != 0 {
        assert d > 0 by {
          if i == s { assert text[s..i] == []; } else { assert Depth(text[s..i], open, close) > 0; }
        }
        FirstReturnFrom(text, open, close, s, i + 1, d);
      }
    }
  }

  /** The one span the scan examines for a bracket type: from the first
      occurrence of the opening bracket to where the depth first returns to
      zero; none if the bracket is absent or the depth never returns. */
  function Candidate(text: string, open: char, close: char): (r: Option<string>)
    requires open != close
    ensures r.Some? ==>
      var s := IndexOf(text, open);
      && 0 <= s && s + |r.value| <= |text|
      && r.value == text[s..s + |r.value|]
      && BalancedSpan(r.value, open, close)
    ensures r.None? <==>
      || IndexOf(text, open) < 0
      || forall k :: IndexOf(text, open) < k <= |text| ==> Depth(text[IndexOf(text, open)..k], open, close) > 0
  {
    var s := IndexOf(text, open);
    if s < 0 then None
    else
      assert text[s..s] == [];
      FirstReturnFrom(text, open, close, s, s, 0);
      match FirstReturn(text, open, close, s, 0)
      case None => None
      case Some(e) =>
        ReturnSpan(text, open, close, s, e);
        Some(text[s..e + 1])
  }

  /** The span from an opening bracket to the first return of the depth to
      zero is balanced, and the depth does not stay positive throughout. */
  lemma ReturnSpan(text: string, open: char, close: char, s: nat, e: nat)
    requires open != close
    requires s <= e < |text| && text[s] == open
    requires Depth(text[s..e + 1], open, close) == 0
    requires forall k :: s < k <= e ==> Depth(text[s..k], open, close) > 0
    ensures BalancedSpan(text[s..e + 1], open, close)
    ensures !(forall k :: s < k <= |text| ==> Depth(text[s..k], open, close) > 0)
  {
    var c := text[s..e + 1];
    assert text[s..s] == [];
    DepthSnoc(text, s, s, open, close);
    assert e != s;
    DepthSnoc(text, s, e, open, close);
    assert Depth(text[s..e], open, close) > 0;
    assert c[|c| - 1] == close;
    forall k | 0 < k < |c| ensures Depth(c[..k], open, close) > 0 {
      assert c[..k] == text[s..s + k];
    }
  }

  /** The closing bracket of an opening one. */
  function Closing(open: char): char {
    if open == '{' then '}' else ']'
  }

  /** One bracket type's outcome: the parse of its one candidate span, if
      that parse is truthy. */
  function TryBracket(text: string, open: char, parse: string -> Option<Json>): (r: Option<Json>)
    requires open == '{' || open == '['
    ensures r.Some? ==> Truthy(r.value)
    ensures r.Some? ==> Candidate(text, open, Closing(open)).Some? && r == parse(Candidate(text, open, Closing(open)).value)
    ensures Candidate(text, open, Closing(open)).Some? && parse(Candidate(text, open, Closing(open)).value).Some?
            && Truthy(parse(Candidate(text, open, Closing(open)).value).value)
            ==> r == parse(Candidate(text, open, Closing(open)).value)
  {
    match Candidate(text, open, Closing(open))
    case None => None
    case Some(c) =>
      var p := parse(c);
      if p.Some? && Truthy(p.value) then p else None
  }

  /** `extractBalancedJson(text)` as a value: objects are tried before
      arrays, each through its one candidate span only. */
  function BalancedJson(text: string, parse: string -> Option<Json>): (r: Option<Json>)
    ensures r.Some? ==> Truthy(r.value)
    ensures r.Some? ==>
      || (Candidate(text, '{', '}').Some? && r == parse(Candidate(text, '{', '}').value))
      || (Candidate(text, '[', ']').Some? && r == parse(Candidate(text, '[', ']').value))
    ensures Candidate(text, '{', '}').Some? && parse(Candidate(text, '{', '}').value).Some?
            && Truthy(parse(Candidate(text, '{', '}').value).value)
            ==> r == parse(Candidate(text, '{', '}').value)
    ensures Candidate(text, '{', '}').None? && Candidate(text, '[', ']').None? ==> r.None?
    ensures TryBracket(text, '{', parse).Some? ==> r == TryBracket(text, '{', parse)
    ensures TryBracket(text, '{', parse).None? ==> r == TryBracket(text, '[', parse)
  {
    var obj := TryBracket(text, '{', parse);
    if obj.Some? then obj else TryBracket(text, '[', parse)
  }

  /** One pass of the `for (const start of ['{', '['])` loop: find the
      first occurrence, count depth until it returns to zero, and parse that
      one span. */
  method ScanBracket(text: string, start: char, parse: string -> Option<Json>) returns (r: Option<Json>)
    requires start == '{' || start == '['
    ensures r == TryBracket(text, start, parse)
  {
    var end := Closing(start);
    var startIdx := IndexOf(text, start);
    if startIdx == -1 {
      return None;
    }
    var depth := 0;
    var i := startIdx;
    assert text[startIdx..startIdx] == [];
    while i < |text|
      invariant startIdx <= i <= |text|
      invariant FirstReturn(text, start, end, i, depth) == FirstReturn(text, start, end, startIdx, 0)
    {
      var ch := text[i];
      if ch == start {
        depth := depth + 1;
      } else if ch == end {
        depth := depth - 1;
      }
      if depth == 0 {
        var candidate := text[startIdx..i + 1];
        var parsed := parse(candidate);
        if parsed.Some? && Truthy(parsed.value) {
          return parsed;
        }
        return None;
      }
      i := i + 1;
    }
    return None;
  }

  /** `extractBalancedJson(text)`: objects are tried before arrays; a span
      that does not parse to a truthy value abandons the bracket type. */
  method ExtractBalancedJson(text: string, parse: string -> Option<Json>) returns (r: Option<Json>)
    ensures r == BalancedJson(text, parse)
  {
    var starts := ['{', '['];
    for k := 0 to |starts|
      invariant k >= 1 ==> TryBracket(text, '{', parse).None?
      invariant k >= 2 ==> TryBracket(text, '[', parse).None?
    {
      var found := ScanBracket(text, starts[k], parse);
      if found.Some? {
        return found;
      }
    }
    return None;
  }

  /** A reply made of text without braces, then one brace-delimited span
      without braces inside, then anything: the span is what the scan
      recovers when it parses. */
  lemma SpanAfterProse(pre: string, inner: string, rest: string, parse: string -> Option<Json>)
    requires '{' !in pre && '{' !in inner && '}' !in inner
    requires parse("{" + inner + "}").Some? && Truthy(parse("{" + inner + "}").value)
    ensures BalancedJson(pre + "{" + inner + "}" + rest, parse) == parse("{" + inner + "}")
  {
    var text := pre + "{" + inner + "}" + rest;
    var s := |pre|;
    IndexOfAt(text, '{', s);
    var e := s + |inner| + 1;
    assert text[s..e + 1] == "{" + inner + "}";
    assert FirstReturn(text, '{', '}', s, 0) == Some(e) by {
      FlatScan(text, s + 1, e, 1);
    }
  }

  /** The index of a character that first occurs at `k`. */
  lemma IndexOfAt(text: string, c: char, k: nat)
    requires k < |text| && text[k] == c && c !in text[..k]
    ensures IndexOf(text, c) == k
  {
  }

  /** Across characters that are no brackets the depth does not change. */
  lemma {:induction false} FlatScan(text: string, i: nat, e: nat, depth: int)
    requires i <= e < |text| && depth == 1
    requires text[e] == '}'
    requires forall k :: i <= k < e ==> text[k] != '{' && text[k] != '}'
    ensures FirstReturn(text, '{', '}', i, depth) == Some(e)
    decreases e - i
  {
    if i < e {
      FlatScan(text, i + 1, e, depth);
    }
  }

  // ------------------------------------------------------ reply recovery

  /** `robustParseJson(str)` as a value: the fence-stripped, trimmed reply
      parsed directly if that gives a truthy value, else the balanced-span
      value, else an empty object; the result is never falsy. */
  function ParseReply(str: string, parse: string -> Option<Json>): (r: Json)
    ensures Truthy(r)
    ensures var cleaned := StripCodeFences(Trim(str));
      && (parse(cleaned).Some? && Truthy(parse(cleaned).value) ==> r == parse(cleaned).value)
      && (!(parse(cleaned).Some? && Truthy(parse(cleaned).value)) ==>
            r == BalancedJson(cleaned, parse).GetOr(JObject(map[])))
  {
    var cleaned := StripCodeFences(Trim(str));
    var direct := parse(cleaned);
    if direct.Some? && Truthy(direct.value) then direct.value
    else BalancedJson(cleaned, parse).GetOr(JObject(map[]))
  }

  /** `robustParseJson(str)`: strip a whole-text fence from the trimmed
      reply, parse directly, else scan for a balanced span, else `{}`. */
  method RobustParseJson(str: string, parse: string -> Option<Json>) returns (r: Json)
    ensures r == ParseReply(str, parse)
    ensures Truthy(r)
  {
    var cleaned := StripCodeFences(Trim(str));
    var direct := parse(cleaned);
    if direct.Some? && Truthy(direct.value) {
      return direct.value;
    }
    var extracted := ExtractBalancedJson(cleaned, parse);
    if extracted.Some? {
      return extracted.value;
    }
    return JObject(map[]);
  }

  /** A clean JSON reply (truthy, not fenced) is returned as parsed. */
  lemma CleanReply(str: string, parse: string -> Option<Json>)
    requires Trim(str) == [] || Trim(str)[0] != '`'
    requires parse(Trim(str)).Some? && Truthy(parse(Trim(str)).value)
    ensures ParseReply(str, parse) == parse(Trim(str)).value
  {
  }

  /** A fenced reply is recovered from the fence's body. */
  lemma FencedReply(body: string, parse: string -> Option<Json>)
    requires parse(Trim(body)).Some? && Truthy(parse(Trim(body)).value)
    ensures ParseReply("```json\n" + body + "\n```", parse) == parse(Trim(body)).value
  {
    var text := "```json\n" + body + "\n```";
    assert NoEdgeSpace(text);
    TrimIdentity(text);
    StripTaggedFence(body);
  }

  /** A reply with prose after a brace-delimited value is recovered from the
      value when the whole reply does not parse. */
  lemma TrailingProseReply(inner: string, rest: string, parse: string -> Option<Json>)
    requires '{' !in inner && '}' !in inner
    requires var text := "{" + inner + "}" + rest; Trim(text) == text
    requires parse("{" + inner + "}" + rest).None?
    requires parse("{" + inner + "}").Some? && Truthy(parse("{" + inner + "}").value)
    ensures ParseReply("{" + inner + "}" + rest, parse) == parse("{" + inner + "}").value
  {
    var text := "{" + inner + "}" + rest;
    assert !IsFenced(text) by { assert text[0] == '{'; }
    assert StripCodeFences(Trim(text)) == text;
    assert "" + "{" + inner + "}" + rest == text;
    SpanAfterProse("", inner, rest, parse);
  }

  // --------------------------------------------------- content shaping

  /** The partial content the generator hands to the controller. */
  datatype AIContent = AIContent(
    summary: seq<Json>,
    quiz: seq<Json>,
    math: Json,
    studyTip: Json,
    funFact: Json)

  /** The all-empty content returned on every failure. */
  const Sentinel := AIContent([], [], JNull, JString(""), JString(""))

  /** What shaping guarantees: at most three summary and quiz entries, and
      each other field truthy or its default. */
  predicate Shaped(c: AIContent) {
    && |c.summary| <= 3
    && |c.quiz| <= 3
    && (c.math == JNull || Truthy(c.math))
    && (c.studyTip == JString("") || Truthy(c.studyTip))
    && (c.funFact == JString("") || Truthy(c.funFact))
  }

  /** `Array.isArray(v) ? v.slice(0, 3) : []` */
  function FirstThree(v: Json): (r: seq<Json>)
    ensures |r| <= 3
    ensures v.JArray? ==> |r| == (if |v.items| <= 3 then |v.items| else 3) && r == v.items[..|r|]
    ensures !v.JArray? ==> r == []
  {
    if v.JArray? then (if |v.items| <= 3 then v.items else v.items[..3]) else []
  }

  /** `v || d` */
  function OrDefault(v: Json, d: Json): (r: Json)
    ensures Truthy(v) ==> r == v
    ensures !Truthy(v) ==> r == d
  {
    if Truthy(v) then v else d
  }

  /** The result object built from the recovered value: arrays capped to
      their first three entries in order, other fields defaulted. */
  function Shape(parsed: Json): (r: AIContent)
    ensures Shaped(r)
    ensures r.summary == FirstThree(Field(parsed, "summary"))
    ensures r.quiz == FirstThree(Field(parsed, "quiz"))
    ensures r.math == OrDefault(Field(parsed, "math"), JNull)
    ensures r.studyTip == OrDefault(Field(parsed, "studyTip"), JString(""))
    ensures r.funFact == OrDefault(Field(parsed, "funFact"), JString(""))
  {
    AIContent(
      FirstThree(Field(parsed, "summary")),
      FirstThree(Field(parsed, "quiz")),
      OrDefault(Field(parsed, "math"), JNull),
      OrDefault(Field(parsed, "studyTip"), JString("")),
      OrDefault(Field(parsed, "funFact"), JString("")))
  }

  /** A reply with four summary entries keeps the first three. */
  lemma ShapeCapsSummary(a: Json, b: Json, c: Json, d: Json, fields: map<string, Json>)
    ensures Shape(JObject(fields["summary" := JArray([a, b, c, d])])).summary == [a, b, c]
  {
  }

  // ------------------------------------------------------ the reply

  /** What the request produced: a rejected `fetch` (including the 20-second
      abort), or a response with its status and its body as `resp.json()`
      decoded it (`None` when that throws). */
  datatype AIReply = Transport(error: string) | Reply(status: nat, body: Option<Json>)

  /** `p?.text || ''`, with `join`'s conversion of a non-string to text. */
  function PartText(p: Json, rt: Runtime): string
  {
    var t := Field(p, "text");
    if !Truthy(t) then "" else if t.JString? then t.s else rt.toText(t)
  }

  function PartTexts(parts: seq<Json>, rt: Runtime): (r: seq<string>)
    ensures |r| == |parts|
    ensures forall k :: 0 <= k < |parts| ==> r[k] == PartText(parts[k], rt)
  {
    if parts == [] then [] else [PartText(parts[0], rt)] + PartTexts(parts[1..], rt)
  }

  /** `data.candidates[0]?.content?.parts`, `null` without a first
      candidate. */
  function FirstParts(data: Json): Json
  {
    var cands := Field(data, "candidates");
    if cands.JArray? && |cands.items| > 0 then Field(Field(cands.items[0], "content"), "parts") else JNull
  }

  /** The text of the first candidate, the `parts` texts joined by
      newlines; `None` where the code returns the sentinel for a bad
      structure or throws (a truthy `parts` that is not an array). */
  function CandidateText(data: Json, rt: Runtime): (r: Option<string>)
    ensures r.Some? <==>
      && Truthy(data) && Field(data, "candidates").JArray? && |Field(data, "candidates").items| > 0
      && (!Truthy(FirstParts(data)) || FirstParts(data).JArray?)
    ensures r.Some? && !Truthy(FirstParts(data)) ==> r.value == ""
    ensures r.Some? && Truthy(FirstParts(data)) ==> r.value == Join(PartTexts(FirstParts(data).items, rt), "\n")
  {
    var cands := Field(data, "candidates");
    if !Truthy(data) || !cands.JArray? || |cands.items| == 0 then None
    else
      var parts := FirstParts(data);
      if !Truthy(parts) then Some("")
      else if !parts.JArray? then None
      else Some(Join(PartTexts(parts.items, rt), "\n"))
  }

  /** A value that is not an object shapes to the all-empty content: it has
      none of the fields. */
  lemma ShapeOfNonObject(v: Json)
    requires !v.JObject?
    ensures Shape(v) == Sentinel
  {
  }

  /** A request outcome: whether the request was sent and the content. */
  datatype AIOutcome = AIOutcome(requested: bool, content: AIContent)

  /** `generateAIContent` as a value of the configuration and the reply to
      `OutgoingRequest` (the reply is ignored when nothing is sent). */
  function AIContentFor(config: Config, reply: AIReply, rt: Runtime): (r: AIOutcome)
    ensures Shaped(r.content)
    ensures r.requested <==> !NoUsableKey(config.apiKey)
    ensures NoUsableKey(config.apiKey) ==> r.content == Sentinel
    ensures reply.Transport? || (reply.Reply? && (!(200 <= reply.status <= 299) || reply.body.None?))
            ==> r.content == Sentinel
    ensures r.content != Sentinel ==>
              reply.Reply? && reply.body.Some? && CandidateText(reply.body.value, rt).Some?
              && r.content == Shape(ParseReply(CandidateText(reply.body.value, rt).value, rt.parse))
    ensures reply.Reply? && reply.body.Some? && CandidateText(reply.body.value, rt).None? ==> r.content == Sentinel
    ensures !NoUsableKey(config.apiKey) && reply.Reply? && 200 <= reply.status <= 299 && reply.body.Some?
            && CandidateText(reply.body.value, rt).Some?
            ==> r.content == Shape(ParseReply(CandidateText(reply.body.value, rt).value, rt.parse))
  {
    if NoUsableKey(config.apiKey) then AIOutcome(false, Sentinel)
    else
      match reply
      case Transport(_) => AIOutcome(true, Sentinel)
      case Reply(status, body) =>
        if !(200 <= status <= 299) || body.None? then AIOutcome(true, Sentinel)
        else match CandidateText(body.value, rt)
          case None => AIOutcome(true, Sentinel)
          case Some(content) =>
            var parsed := ParseReply(content, rt.parse);
            if !IsObjectType(parsed) then
              ShapeOfNonObject(parsed);
              AIOutcome(true, Sentinel)
            else AIOutcome(true, Shape(parsed))
  }

  /** `generateAIContent({topic, extract, mode})` after the prompt is built:
      the network exchange for `OutgoingRequest(config, topic, extract,
      mode)` is given as `reply`; every failure is the sentinel, a usable
      reply is recovered and shaped. */
  method GenerateAIContent(config: Config, reply: AIReply, rt: Runtime) returns (r: AIOutcome)
    ensures r == AIContentFor(config, reply, rt)
  {
    if NoUsableKey(config.apiKey) {
      return AIOutcome(false, Sentinel);
    }
    if reply.Transport? || !(200 <= reply.status <= 299) || reply.body.None? {
      return AIOutcome(true, Sentinel);
    }
    var content := CandidateText(reply.body.value, rt);
    if content.None? {
      return AIOutcome(true, Sentinel);
    }
    var parsed := RobustParseJson(content.value, rt.parse);
    if !IsObjectType(parsed) {
      return AIOutcome(true, Sentinel);
    }
    return AIOutcome(true, Shape(parsed));
  }

  /** A recovered value that is not an object or array gives the sentinel,
      even though the request succeeded. */
  lemma NonObjectIsSentinel(config: Config, data: Json, content: string, rt: Runtime)
    requires !NoUsableKey(config.apiKey)
    requires CandidateText(data, rt) == Some(content)
    requires !IsObjectType(ParseReply(content, rt.parse))
    ensures AIContentFor(config, Reply(200, Some(data)), rt).content == Sentinel
  {
  }
}
