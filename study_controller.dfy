/** The study-pack controller: the fallback content built from the
    encyclopedia extract when the model gives nothing usable, and
    `createStudyPack`, which validates the request and merges the model's
    content with the fallbacks field by field. */
module StudyController {
  import opened Wrappers
  import opened Strings
  import opened Json
  import opened Errors
  import opened Validate
  import opened WikiService
  import opened AIService

  // ------------------------------------------------------- fallback summary

  predicate IsMark(c: char) {
    c == '.' || c == '!' || c == '?'
  }

  /** Position `p` starts a separator of `split(/(?<=[.!?])\s+/)`: white
      space right after a sentence mark. */
  predicate BreakAt(s: string, p: nat) {
    1 <= p < |s| && IsMark(s[p - 1]) && IsSpace(s[p])
  }

  predicate NoBreak(s: string) {
    forall p :: 0 <= p < |s| ==> !BreakAt(s, p)
  }

  /** The first separator start at or after `from`. */
  function FirstBreak(s: string, from: nat): (r: Option<nat>)
    ensures r.Some? ==> from <= r.value < |s| && BreakAt(s, r.value)
    ensures r.Some? ==> forall p :: from <= p < r.value ==> !BreakAt(s, p)
    ensures r.None? ==> forall p :: from <= p < |s| ==> !BreakAt(s, p)
    decreases |s| - from
  {
    if from >= |s| then None
    else if BreakAt(s, from) then Some(from)
    else FirstBreak(s, from + 1)
  }

  /** The end of the white-space run starting at `p` (the greedy `\s+`). */
  function RunEnd(s: string, p: nat): (q: nat)
    requires p <= |s|
    ensures p <= q <= |s|
    ensures AllSpace(s[p..q])
    ensures q == |s| || !IsSpace(s[q])
    decreases |s| - p
  {
    if p < |s| && IsSpace(s[p]) then
      var q := RunEnd(s, p + 1);
      assert s[p..q] == [s[p]] + s[p + 1..q];
      q
    else p
  }

  /** The white-space runs `split(/(?<=[.!?])\s+/)` removes, in order. */
  function Separators(s: string): seq<string>
    decreases |s|
  {
    match FirstBreak(s, 0)
    case None => []
    case Some(p) => [s[p..RunEnd(s, p)]] + Separators(s[RunEnd(s, p)..])
  }

  /** The pieces with the separators between them, in order. */
  function Weave(pieces: seq<string>, seps: seq<string>): string
    requires |pieces| == |seps| + 1
    decreases |seps|
  {
    if seps == [] then pieces[0] else pieces[0] + seps[0] + Weave(pieces[1..], seps[1..])
  }

  /** What `split` promises of pieces `r` and separators `seps` for `s`:
      woven together they give `s`; every piece but the last ends with a
      sentence mark; every separator is a non-empty white-space run, and
      the piece after it does not start with white space, so the run is
      maximal; no piece contains a separator. */
  predicate SplitShape(s: string, r: seq<string>, seps: seq<string>) {
    && |r| >= 1 && |seps| == |r| - 1
    && Weave(r, seps) == s
    && |r[0]| <= |s| && r[0] == s[..|r[0]|]
    && (forall k :: 0 <= k < |r| - 1 ==> r[k] != "" && IsMark(r[k][|r[k]| - 1]))
    && (forall k :: 0 <= k < |seps| ==> seps[k] != "" && AllSpace(seps[k]))
    && (forall k :: 1 <= k < |r| ==> r[k] == "" || !IsSpace(r[k][0]))
    && (forall k :: 0 <= k < |r| ==> NoBreak(r[k]))
  }

  /** `s.split(/(?<=[.!?])\s+/)`: the pieces between the maximal white-space
      runs that follow a sentence mark, which reassemble the text with those
      runs. The first piece is never empty for a non-empty text. */
  function Split(s: string): (r: seq<string>)
    ensures |r| >= 1 && |Separators(s)| == |r| - 1
    ensures s != "" ==> r[0] != ""
    ensures SplitShape(s, r, Separators(s))
    decreases |s|
  {
    match FirstBreak(s, 0)
    case None =>
      assert NoBreak(s);
      [s]
    case Some(p) =>
      var head := s[..p];
      var q := RunEnd(s, p);
      var rest := Split(s[q..]);
      assert NoBreak(head) by {
        forall j | 0 <= j < |head| ensures !BreakAt(head, j) {
          assert !BreakAt(s, j);
        }
      }
      SliceSplit(s, p, q);
      assert head[|head| - 1] == s[p - 1];
      SplitStep(s, head, s[p..q], s[q..], rest, Separators(s[q..]));
      [head] + rest
  }

  /** One more piece and separator in front of a split. */
  lemma SplitStep(s: string, head: string, sep: string, tail: string, rest: seq<string>, seps: seq<string>)
    requires SplitShape(tail, rest, seps)
    requires head != "" && IsMark(head[|head| - 1]) && NoBreak(head)
    requires sep != "" && AllSpace(sep)
    requires tail == [] || !IsSpace(tail[0])
    requires s == head + sep + tail
    ensures SplitShape(s, [head] + rest, [sep] + seps)
  {
    var r, ss := [head] + rest, [sep] + seps;
    assert r[1..] == rest && ss[1..] == seps;
    assert Weave(r, ss) == s;
    assert rest[0] == "" || rest[0][0] == tail[0];
    assert forall k :: 1 <= k < |r| ==> r[k] == rest[k - 1];
    assert forall k :: 1 <= k < |ss| ==> ss[k] == seps[k - 1];
  }

  /** `.filter(Boolean)` on strings: the non-empty pieces, each as often as
      it occurs and in their order. */
  function NonEmptyPieces(xs: seq<string>): (r: seq<string>)
    ensures forall k :: 0 <= k < |r| ==> r[k] != ""
    ensures Subsequence(r, xs)
    ensures forall x :: multiset(r)[x] == (if x != "" then multiset(xs)[x] else 0)
    ensures xs != [] && xs[0] != "" ==> r != [] && r[0] == xs[0]
  {
    if xs == [] then []
    else
      var rest := NonEmptyPieces(xs[1..]);
      assert xs == [xs[0]] + xs[1..];
      if xs[0] == "" then
        assert rest == [] || rest[0] != xs[0];
        rest
      else
        assert ([xs[0]] + rest)[1..] == rest;
        [xs[0]] + rest
  }

  /** `.map((s) => s.trim())` */
  function TrimEach(xs: seq<string>): (r: seq<string>)
    ensures |r| == |xs|
    ensures forall k :: 0 <= k < |xs| ==> r[k] == Trim(xs[k])
  {
    seq(|xs|, k requires 0 <= k < |xs| => Trim(xs[k]))
  }

  /** Extending a prefix of `s` by one element. */
  lemma PrefixSnoc<T>(s: seq<T>, i: nat, j: nat)
    requires i <= j < |s|
    ensures s[i..j + 1] == s[i..j] + [s[j]]
  {
  }

  /** Filling the positions after `a` from `b`, index by index. */
  lemma PadIndex<T>(a: seq<T>, b: seq<T>)
    requires |a| <= |b|
    ensures |a + b[|a|..]| == |b|
    ensures forall k :: 0 <= k < |a| ==> (a + b[|a|..])[k] == a[k]
    ensures forall k :: |a| <= k < |b| ==> (a + b[|a|..])[k] == b[k]
  {
  }

  /** `buildFallbackSummary(extract)`: nothing for an empty extract;
      otherwise the first three non-empty pieces of the split, trimmed. */
  function BuildFallbackSummary(extract: string): (r: seq<string>)
    ensures extract == "" <==> r == []
    ensures |r| <= 3
    ensures forall k :: 0 <= k < |r| ==> NoEdgeSpace(r[k])
    ensures extract != "" ==>
      var kept := NonEmptyPieces(Split(extract));
      && |r| == (if |kept| <= 3 then |kept| else 3)
      && forall k :: 0 <= k < |r| ==> r[k] == Trim(kept[k])
  {
    if extract == "" then []
    else
      var pieces := Split(extract);
      assert pieces[0] != "";
      Take(TrimEach(NonEmptyPieces(pieces)), 3)
  }

  /** A sentence as the split sees one: non-empty, without white space at
      its ends, closed by a sentence mark and without a separator inside. */
  predicate Sentence(x: string) {
    x != "" && NoEdgeSpace(x) && IsMark(x[|x| - 1]) && NoBreak(x)
  }

  lemma JoinFirst(ss: seq<string>, sep: string)
    requires |ss| >= 1 && ss[0] != ""
    ensures Join(ss, sep) != "" && Join(ss, sep)[0] == ss[0][0]
  {
    if |ss| >= 2 {
      JoinHead(ss, sep);
    }
  }

  /** Sentences joined by single spaces split back into the same sentences. */
  lemma {:induction false} SplitJoin(ss: seq<string>)
    requires |ss| >= 1
    requires forall k :: 0 <= k < |ss| ==> Sentence(ss[k])
    ensures Split(Join(ss, " ")) == ss
  {
    var s := Join(ss, " ");
    var x := ss[0];
    if |ss| == 1 {
      assert s == x;
    } else {
      JoinHead(ss, " ");
      var rest := Join(ss[1..], " ");
      assert s == x + " " + rest;
      JoinFirst(ss[1..], " ");
      assert ss[1..][0] == ss[1];
      assert Sentence(ss[1]);
      assert rest[0] == ss[1][0] && !IsSpace(rest[0]);
      var p := |x|;
      assert BreakAt(s, p) by {
        assert s[p - 1] == x[|x| - 1];
        assert s[p] == ' ';
      }
      forall j | 0 <= j < p ensures !BreakAt(s, j) {
        if 1 <= j {
          assert s[j - 1] == x[j - 1] && s[j] == x[j];
          assert !BreakAt(x, j);
        }
      }
      assert FirstBreak(s, 0) == Some(p) by {
        NoEarlierBreak(s, 0, p);
      }
      assert s[p + 1] == rest[0];
      assert RunEnd(s, p + 1) == p + 1;
      assert RunEnd(s, p) == p + 1;
      assert s[..p] == x;
      assert s[p + 1..] == rest;
      SplitJoin(ss[1..]);
      assert ss == [x] + ss[1..];
    }
  }

  /** The scan for the first separator stops at the first one. */
  lemma {:induction false} NoEarlierBreak(s: string, from: nat, p: nat)
    requires from <= p < |s| && BreakAt(s, p)
    requires forall j :: from <= j < p ==> !BreakAt(s, j)
    ensures FirstBreak(s, from) == Some(p)
    decreases p - from
  {
    if from < p {
      NoEarlierBreak(s, from + 1, p);
    }
  }

  /** An extract made of sentences separated by single spaces summarises to
      its first three sentences, unchanged and in order. */
  lemma SummaryOfSentences(ss: seq<string>)
    requires |ss| >= 1
    requires forall k :: 0 <= k < |ss| ==> Sentence(ss[k])
    ensures BuildFallbackSummary(Join(ss, " ")) == Take(ss, 3)
  {
    SplitJoin(ss);
    JoinFirst(ss, " ");
    NonEmptyPiecesOfNonEmpty(ss);
    assert TrimEach(ss) == ss by {
      forall k | 0 <= k < |ss| ensures Trim(ss[k]) == ss[k] {
        TrimIdentity(ss[k]);
      }
    }
  }

  lemma {:induction false} NonEmptyPiecesOfNonEmpty(xs: seq<string>)
    requires forall k :: 0 <= k < |xs| ==> xs[k] != ""
    ensures NonEmptyPieces(xs) == xs
  {
    if xs != [] {
      NonEmptyPiecesOfNonEmpty(xs[1..]);
      assert xs == [xs[0]] + xs[1..];
    }
  }

  // ------------------------------------------------------ fallback study tip

  /** The eight tips, each as the text before and after the subject. */
  const TipParts: seq<(string, string)> := [
    ("Try the Feynman Technique: " + "Explain ", " to someone as if they are " + "10 years old. Gaps in your " + "explanation reveal what you " + "need to review."),
    ("Create a mind map: Put ", " in the center and branch " + "out with key concepts, examples, " + "and connections you discovered."),
    ("Use active recall: Close " + "this summary and write down " + "everything you remember about ", ". Check what you missed, " + "then repeat."),
    ("Make flashcards for the 3-5 " + "most important terms in ", ". Review them using spaced " + "repetition (today, tomorrow, " + "in 3 days, in a week)."),
    ("Teach it back: Record a 2-minute " + "voice memo explaining ", " in your own words. Listen " + "back to identify unclear " + "areas."),
    ("Find real-world connections: " + "Spend 5 minutes thinking " + "about how ", " applies to your life or " + "current events."),
    ("Draw it out: Create a visual " + "diagram or timeline for ", ". Visual representations " + "often reveal patterns text " + "alone cannot."),
    ("Practice retrieval: Cover " + "the summary and quiz yourself " + "on ", " without looking. Struggling " + "to remember actually strengthens " + "memory.")]

  /** `title || 'this topic'` */
  function TipSubject(title: string): (t: string)
    ensures t != ""
    ensures title != "" ==> t == title
  {
    if title != "" then title else "this topic"
  }

  /** The pool of tips for a title. */
  function Tips(title: string): (r: seq<string>)
    ensures |r| == |TipParts| == 8
    ensures forall k :: 0 <= k < 8 ==> r[k] == TipParts[k].0 + TipSubject(title) + TipParts[k].1
  {
    var t := TipSubject(title);
    seq(|TipParts|, k requires 0 <= k < |TipParts| => TipParts[k].0 + t + TipParts[k].1)
  }

  /** `buildFallbackStudyTip(title)` with `Date.now()` as `seed`: the pool
      entry the seed selects, which names the subject. */
  function BuildFallbackStudyTip(title: string, seed: nat): (r: string)
    ensures r in Tips(title)
    ensures r == Tips(title)[seed % 8]
  {
    Tips(title)[seed % 8]
  }

  /** Every tip names the subject: the title, or `this topic` without one. */
  lemma StudyTipNamesSubject(title: string, seed: nat)
    ensures Contains(BuildFallbackStudyTip(title, seed), TipSubject(title))
    ensures title == "" ==> Contains(BuildFallbackStudyTip(title, seed), "this topic")
  {
    var k := seed % 8;
    ContainsInfix(TipParts[k].0, TipSubject(title), TipParts[k].1);
  }

  /** Every tip of the pool is chosen by some seed, and seeds eight apart
      choose the same tip. */
  lemma StudyTipCycle(title: string, seed: nat)
    ensures BuildFallbackStudyTip(title, seed + 8) == BuildFallbackStudyTip(title, seed)
    ensures forall k :: 0 <= k < 8 ==> BuildFallbackStudyTip(title, k) == Tips(title)[k]
  {
    assert (seed + 8) % 8 == seed % 8;
    forall k | 0 <= k < 8
      ensures BuildFallbackStudyTip(title, k) == Tips(title)[k]
    {
      assert k % 8 == k;
    }
  }

  // ---------------------------------------------------------- fallback quiz

  /** A multiple-choice question. */
  datatype QuizItem = QuizItem(q: string, options: seq<string>, answer: string)

  /** No option occurs twice. */
  predicate DistinctOptions(options: seq<string>) {
    forall i, j :: 0 <= i < j < |options| ==> options[i] != options[j]
  }

  /** Four different options, the first of which is the answer, so the
      answer equals exactly one option. */
  predicate WellFormedItem(item: QuizItem) {
    |item.options| == 4 && item.answer == item.options[0] && DistinctOptions(item.options)
  }

  /** Options that begin with four different characters are different. */
  lemma DistinctByFirst(a: string, b: string, c: string, d: string)
    requires a != "" && b != "" && c != "" && d != ""
    requires a[0] != b[0] && a[0] != c[0] && a[0] != d[0] && b[0] != c[0] && b[0] != d[0] && c[0] != d[0]
    ensures DistinctOptions([a, b, c, d])
  {
  }

  /** `s.slice(0, 100)` */
  function Excerpt(s: string): string {
    Take(s, 100)
  }

  /** A question whose first option is its answer. */
  function Item(q: string, options: seq<string>): (r: QuizItem)
    requires |options| == 4 && DistinctOptions(options)
    ensures WellFormedItem(r)
    ensures r.q == q && r.answer == options[0] && r.options == options
  {
    QuizItem(q, options, options[0])
  }

  /** The options of the three summary templates, answer first. */
  function WhyOptions(topic: string): (o: seq<string>)
    ensures |o| == 4 && DistinctOptions(o)
  {
    var a := "It reveals the fundamental " + "mechanism behind how " + topic + " functions";
    var b := "It is just a basic fact without " + "deeper implications";
    var c := "It only matters for memorization " + "purposes";
    var d := "It is purely historical context";
    assert a[3] == 'r' && b[3] == 'i' && c[3] == 'o' && d[3] == 'i' && b[6] == 'j' && d[6] == 'p';
    [a, b, c, d]
  }

  function DisruptionOptions(topic: string): (o: seq<string>)
    ensures |o| == 4 && DistinctOptions(o)
  {
    var a := "The core functionality of " + topic + " would be compromised";
    var b := "Nothing significant would " + "change";
    var c := "Only aesthetic differences " + "would occur";
    var d := "It would work identically";
    DistinctByFirst(a, b, c, d);
    [a, b, c, d]
  }

  function ApplicationOptions(short: string): (o: seq<string>)
    ensures |o| == 4 && DistinctOptions(o)
  {
    var a := "Apply these concepts: " + Take(short, 50) + "... to solve new problems";
    var b := "Only recite the definition " + "verbatim";
    var c := "Know the year it was discovered";
    var d := "List facts without understanding " + "connections";
    DistinctByFirst(a, b, c, d);
    [a, b, c, d]
  }

  /** The question built from the summary sentence at position `i`. */
  function SummaryQuestion(topic: string, s: string, i: nat): (r: QuizItem)
    ensures WellFormedItem(r)
  {
    var short := Excerpt(s);
    if i == 0 then
      Item("Based on this key concept " + "about " + topic + ": " + short
           + "... - Which statement best " + "explains WHY this is significant?", WhyOptions(topic))
    else if i == 1 then
      Item("Regarding " + topic + ": " + short
           + "... - What would happen if " + "this principle were disrupted?", DisruptionOptions(topic))
    else
      Item("To demonstrate true understanding " + "of " + topic + " beyond memorization, you " + "should be able to:",
        ApplicationOptions(short))
  }

  /** The first two templates quote the excerpt in the question, the third
      quotes its first 50 characters in the answer. */
  lemma SummaryQuestionQuotes(topic: string, s: string, i: nat)
    ensures i <= 1 ==> Contains(SummaryQuestion(topic, s, i).q, Excerpt(s))
    ensures i >= 2 ==> Contains(SummaryQuestion(topic, s, i).answer, Take(Excerpt(s), 50))
  {
    var short := Excerpt(s);
    if i == 0 {
      var p := "Based on this key concept " + "about " + topic + ": ";
      var c := "... - Which statement best ";
      var d := "explains WHY this is significant?";
      ContainsInfix(p, short, c + d);
      assert p + short + c + d == p + short + (c + d);
    } else if i == 1 {
      var p := "Regarding " + topic + ": ";
      var c := "... - What would happen if ";
      var d := "this principle were disrupted?";
      ContainsInfix(p, short, c + d);
      assert p + short + c + d == p + short + (c + d);
    } else {
      ContainsInfix("Apply these concepts: ", Take(short, 50), "... to solve new problems");
    }
  }

  /** The options of the three generic questions, answer first. */
  function DepthOptions(topic: string): (o: seq<string>)
    ensures |o| == 4 && DistinctOptions(o)
  {
    var a := "Being able to explain " + topic + " concepts and apply them " + "to solve new problems";
    var b := "Memorizing definitions and " + "terms related to " + topic;
    var c := "Knowing historical dates " + "about " + topic;
    var d := "Reading about " + topic + " once without practice";
    DistinctByFirst(a, b, c, d);
    [a, b, c, d]
  }

  function VerifyOptions(topic: string): (o: seq<string>)
    ensures |o| == 4 && DistinctOptions(o)
  {
    var a := "Ask them to solve a problem " + "involving " + topic + " they have not seen before";
    var b := "Have them recite the definition " + "of " + topic;
    var c := "Check if they can spell terms " + "from " + topic;
    var d := "See if they remember who " + "discovered " + topic;
    DistinctByFirst(a, b, c, d);
    [a, b, c, d]
  }

  function SkillOptions(topic: string): (o: seq<string>)
    ensures |o| == 4 && DistinctOptions(o)
  {
    var a := "The ability to apply " + topic + " principles to analyze and " + "solve the problem";
    var b := "Knowing the textbook definition " + "of " + topic;
    var c := "Remembering facts about " + topic + " without context";
    var d := "Having memorized examples " + "from " + topic + " lessons";
    DistinctByFirst(a, b, c, d);
    [a, b, c, d]
  }

  /** The entry at index `k` of `lastResortQuestions`: three generic
      questions about the topic (the last one stands for every `k >= 2`). */
  function LastResortItem(topic: string, k: nat): (r: QuizItem)
    ensures WellFormedItem(r)
  {
    if k == 0 then
      Item("When studying " + topic + ", which approach demonstrates " + "the deepest level of understanding?",
        DepthOptions(topic))
    else if k == 1 then
      Item("What would be the most effective " + "way to verify someone truly " + "understands " + topic + "?",
        VerifyOptions(topic))
    else
      Item("In a real-world scenario " + "requiring knowledge of " + topic + ", what skill would be most " + "valuable?",
        SkillOptions(topic))
  }

  /** `lastResortQuestions`: the three generic questions in order. */
  function LastResort(topic: string): (r: seq<QuizItem>)
    ensures |r| == 3
    ensures forall k :: 0 <= k < 3 ==> r[k] == LastResortItem(topic, k)
  {
    seq(3, k requires 0 <= k < 3 => LastResortItem(topic, k))
  }

  /** The questions from at most three summary sentences, by position. */
  function SummaryQuestions(topic: string, summary: seq<string>): (r: seq<QuizItem>)
    ensures |r| == (if |summary| <= 3 then |summary| else 3)
    ensures forall i :: 0 <= i < |r| ==> r[i] == SummaryQuestion(topic, summary[i], i)
  {
    var n := if |summary| <= 3 then |summary| else 3;
    seq(n, i requires 0 <= i < n => SummaryQuestion(topic, summary[i], i))
  }

  /** What `buildFallbackQuiz` returns: the summary questions, then the
      last-resort questions at the positions still free. */
  function FallbackQuizSpec(topic: string, summary: seq<string>): (r: seq<QuizItem>)
    ensures |r| == 3
    ensures forall k :: 0 <= k < 3 ==> WellFormedItem(r[k])
    ensures forall k :: 0 <= k < |summary| && k < 3 ==> r[k] == SummaryQuestion(topic, summary[k], k)
    ensures forall k :: |summary| <= k < 3 ==> r[k] == LastResortItem(topic, k)
  {
    var sq := SummaryQuestions(topic, summary);
    var lr := LastResort(topic);
    PadIndex(sq, lr);
    sq + lr[|sq|..]
  }

  /** The padding loop of `buildFallbackQuiz`: while fewer than three
      questions are collected, the last-resort question whose index is the
      current length is appended. */
  method PadWithLastResort(topic: string, collected: seq<QuizItem>) returns (questions: seq<QuizItem>)
    requires |collected| <= 3
    ensures questions == collected + LastResort(topic)[|collected|..]
  {
    questions := collected;
    var lastResort := LastResort(topic);
    while |questions| < 3
      invariant |collected| <= |questions| <= 3
      invariant questions == collected + lastResort[|collected|..|questions|]
      decreases 3 - |questions|
    {
      var item := lastResort[|questions|];
      ghost var pad := lastResort[|collected|..|questions|];
      PrefixSnoc(lastResort, |collected|, |questions|);
      assert collected + pad + [item] == collected + (pad + [item]);
      questions := questions + [item];
    }
  }

  /** `buildFallbackQuiz(topic, summary)`: one question per summary sentence
      (at most three), then padding with the last-resort question whose
      index is the current length. */
  method BuildFallbackQuiz(topic: string, summary: seq<string>) returns (questions: seq<QuizItem>)
    ensures questions == FallbackQuizSpec(topic, summary)
  {
    questions := [];
    var first := Take(summary, 3);
    ghost var sq := SummaryQuestions(topic, summary);
    var i := 0;
    while i < |first|
      invariant 0 <= i <= |first|
      invariant questions == sq[..i]
    {
      var item := SummaryQuestion(topic, first[i], i);
      assert item == sq[i];
      PrefixSnoc(sq, 0, i);
      assert sq[..i + 1] == sq[0..i + 1];
      questions := questions + [item];
      i := i + 1;
    }
    assert questions == sq;
    questions := PadWithLastResort(topic, questions);
    questions := Take(questions, 3);
  }

  /** With one summary sentence the padding adds the second and third
      last-resort questions, not the first two. */
  lemma PaddingIsPositional(topic: string, s: string)
    ensures FallbackQuizSpec(topic, [s]) == [SummaryQuestion(topic, s, 0), LastResortItem(topic, 1), LastResortItem(topic, 2)]
  {
  }

  // ------------------------------------------------------ fallback math

  /** The three numeric templates; the two whose answers are computed in
      floating point keep only their question and parameters. */
  datatype MathProblem =
    | GrowthProblem(question: string, minutes: nat, percentage: nat)
    | WrongAnswersProblem(question: string, asked: nat, percentage: nat)
    | PagesProblem(question: string, pages: nat, perDay: nat, answer: string, days: nat)

  /** `Math.ceil(a / b)` for a positive divisor. */
  function CeilDiv(a: nat, b: nat): (r: nat)
    requires b > 0
    ensures r * b >= a
    ensures r == 0 || (r - 1) * b < a
  {
    (a + b - 1) / b
  }

  function Num1(seed: nat): (n: nat)
    ensures 30 <= n <= 99
  {
    30 + seed % 70
  }

  function Percentage(seed: nat): (p: nat)
    ensures 10 <= p <= 49
  {
    10 + seed % 40
  }

  /** `num1 * 3`, the page count of the reading template. */
  function Pages(seed: nat): (p: nat)
    ensures 90 <= p <= 297 && p % 3 == 0
  {
    var n := Num1(seed);
    assert (n * 3) % 3 == 0;
    n * 3
  }

  /** The question text of the growth template. */
  function GrowthQuestion(topic: string, minutes: nat, percentage: nat): string {
    "If a student studies " + topic + " for " + NatToString(minutes)
    + " minutes on day 1, then increases " + "their study time by " + NatToString(percentage)
    + "% each day, how many minutes " + "will they study on day 3?"
  }

  /** The question text of the wrong-answers template. */
  function WrongAnswersQuestion(topic: string, asked: nat, percentage: nat): string {
    "In a " + topic + " test, " + NatToString(asked) + " questions were asked. If " + "a student answered "
    + NatToString(percentage) + "% correctly, how many did " + "they get wrong?"
  }

  /** The question text of the reading template. */
  function PagesQuestion(topic: string, pages: nat, perDay: nat): string {
    "A " + topic + " textbook has " + NatToString(pages) + " pages. If you read "
    + NatToString(perDay) + " pages per day, how many " + "complete days to finish?"
  }

  /** The parameters every template draws from the seed, and the rounded-up
      day count of the reading template with its answer text. */
  predicate WellFormedMath(r: MathProblem) {
    match r
    case GrowthProblem(_, minutes, percentage) =>
      30 <= minutes <= 99 && 10 <= percentage <= 49
    case WrongAnswersProblem(_, asked, percentage) =>
      30 <= asked <= 99 && 10 <= percentage <= 49
    case PagesProblem(_, pages, perDay, answer, days) =>
      && 90 <= pages <= 297 && pages % 3 == 0 && 10 <= perDay <= 49
      && days * perDay >= pages && (days == 0 || (days - 1) * perDay < pages)
      && answer == NatToString(days) + " days"
  }

  /** `buildFallbackMathQuestion(topic)` with `Date.now()` as `seed`. */
  function BuildFallbackMathQuestion(topic: string, seed: nat): (r: MathProblem)
    ensures seed % 3 == 0 <==> r.GrowthProblem?
    ensures seed % 3 == 1 <==> r.WrongAnswersProblem?
    ensures seed % 3 == 2 <==> r.PagesProblem?
    ensures WellFormedMath(r)
  {
    var num1 := Num1(seed);
    var num2 := Percentage(seed);
    var percentage := Percentage(seed);
    var k := seed % 3;
    if k == 0 then
      GrowthProblem(GrowthQuestion(topic, num1, percentage), num1, percentage)
    else if k == 1 then
      WrongAnswersProblem(WrongAnswersQuestion(topic, num1, percentage), num1, percentage)
    else
      var pages := Pages(seed);
      var days := CeilDiv(pages, num2);
      PagesProblem(PagesQuestion(topic, pages, num2), pages, num2, NatToString(days) + " days", days)
  }

  // ------------------------------------------------------------ the composer

  const InvalidTopicMessage := "Invalid or missing topic"
  const NotFoundMessage := "Topic not found on Wikipedia"

  /** The topic of a request that passes the check on `req.body.topic`
      (present, a string, not blank), sanitised. */
  function RequestTopic(raw: Option<Json>): (r: Option<string>)
    ensures r.Some? <==> raw.Some? && raw.value.JString? && Trim(raw.value.s) != ""
    ensures r.Some? ==> r.value == SanitizeInput(raw.value.s) && r.value != ""
  {
    if raw.Some? && raw.value.JString? && Trim(raw.value.s) != "" then
      SanitizeKeepsText(raw.value.s);
      Some(SanitizeInput(raw.value.s))
    else None
  }

  /** The checks before any content is built: the 400 for a bad topic, the
      lookup's own failure, and the 404 for a page without an extract. On
      success, the sanitised topic and the page record. */
  function CheckedRequest(rawTopic: Option<Json>, wikiResp: WikiResponse): (r: Result<(string, WikiResult), HttpError>)
    ensures RequestTopic(rawTopic).None? ==> r == Err(HttpError(400, InvalidTopicMessage))
    ensures RequestTopic(rawTopic).Some? ==>
      var fetched := FetchTopicData(RequestTopic(rawTopic).value, wikiResp);
      && (fetched.Err? ==> r == Err(fetched.error))
      && (fetched.Ok? && fetched.value.extract == "" ==> r == Err(HttpError(404, NotFoundMessage)))
      && (fetched.Ok? && fetched.value.extract != "" ==> r == Ok((RequestTopic(rawTopic).value, fetched.value)))
    ensures r.Err? ==> r.error.status == 400 || r.error.status == 404 || r.error.status == InternalStatus
    ensures r.Ok? ==> r.value.0 != "" && r.value.1.title != "" && r.value.1.extract != ""
  {
    match RequestTopic(rawTopic)
    case None => Err(HttpError(400, InvalidTopicMessage))
    case Some(topic) =>
      match FetchTopicData(topic, wikiResp)
      case Err(e) => Err(e)
      case Ok(wiki) =>
        if wiki.extract == "" then Err(HttpError(404, NotFoundMessage))
        else Ok((topic, wiki))
  }

  /** Strings as JSON strings. */
  function Texts(xs: seq<string>): (r: seq<Json>)
    ensures |r| == |xs|
    ensures forall k :: 0 <= k < |xs| ==> r[k] == JString(xs[k])
  {
    seq(|xs|, k requires 0 <= k < |xs| => JString(xs[k]))
  }

  /** The texts of summary entries that are all strings, or the first entry
      that is not (on which `s.slice(0, 100)` throws). */
  function EntryTexts(entries: seq<Json>): (r: Result<seq<string>, Json>)
    ensures r.Ok? ==> |r.value| == |entries| && forall k :: 0 <= k < |entries| ==> entries[k] == JString(r.value[k])
    ensures r.Err? ==> r.error in entries && !r.error.JString?
  {
    if entries == [] then Ok([])
    else if !entries[0].JString? then Err(entries[0])
    else match EntryTexts(entries[1..])
      case Err(e) => Err(e)
      case Ok(rest) => Ok([entries[0].s] + rest)
  }

  /** Texts turned into JSON strings read back as the same texts. */
  lemma {:induction false} EntryTextsOfTexts(xs: seq<string>)
    ensures EntryTexts(Texts(xs)) == Ok(xs)
  {
    if xs != [] {
      EntryTextsOfTexts(xs[1..]);
      assert Texts(xs)[1..] == Texts(xs[1..]);
      assert [xs[0]] + xs[1..] == xs;
    }
  }

  /** The quiz field: the model's entries, or the fallback questions. */
  datatype QuizField = AIQuiz(entries: seq<Json>) | FallbackQuiz(items: seq<QuizItem>)

  /** The math field: absent outside math mode, the model's problem, or the
      fallback problem. */
  datatype MathField = NoMath | AIMath(value: Json) | FallbackMath(problem: MathProblem)

  /** The payload of a successful request; `wikipedia` is `source.wikipedia`. */
  datatype StudyPack = StudyPack(
    topic: string,
    summary: seq<Json>,
    quiz: QuizField,
    math: MathField,
    studyTip: Json,
    funFact: Json,
    mode: Mode,
    timestamp: string,
    wikipedia: Option<string>)

  /** The summary field: the model's entries when there are any (already
      capped at three), else the fallback pieces of the extract. */
  function ComposedSummary(ai: AIContent, extract: string): (r: seq<Json>)
    requires |ai.summary| <= 3
    ensures extract != "" ==> 1 <= |r| <= 3
    ensures ai.summary != [] ==> r == ai.summary
    ensures ai.summary == [] ==> r == Texts(BuildFallbackSummary(extract))
  {
    if ai.summary != [] then ai.summary else Texts(BuildFallbackSummary(extract))
  }

  /** `ai.funFact || wiki.funFact || null` */
  function ComposedFunFact(ai: Json, wiki: Option<string>): (r: Json)
    ensures Truthy(ai) ==> r == ai
    ensures !Truthy(ai) && wiki.Some? && wiki.value != "" ==> r == JString(wiki.value)
    ensures !Truthy(ai) && (wiki.None? || wiki.value == "") ==> r == JNull
    ensures r == JNull || Truthy(r)
  {
    if Truthy(ai) then ai
    else if wiki.Some? && wiki.value != "" then JString(wiki.value)
    else JNull
  }

  /** `ai.studyTip || buildFallbackStudyTip(title)` */
  function ComposedTip(ai: Json, title: string, seed: nat): (r: Json)
    ensures Truthy(r)
    ensures Truthy(ai) ==> r == ai
    ensures !Truthy(ai) ==> r == JString(BuildFallbackStudyTip(title, seed))
  {
    if Truthy(ai) then ai
    else
      var tip := BuildFallbackStudyTip(title, seed);
      assert tip == TipParts[seed % 8].0 + TipSubject(title) + TipParts[seed % 8].1;
      JString(tip)
  }

  /** The quiz field: the model's entries when there are any (already capped
      at three), else the fallback questions for the composed summary; the
      fallback throws on a summary entry that is not a string. */
  function ComposedQuiz(ai: seq<Json>, summary: seq<Json>, title: string, rt: Runtime): (r: Result<QuizField, HttpError>)
    ensures ai != [] ==> r == Ok(AIQuiz(ai))
    ensures ai == [] && EntryTexts(summary).Ok? ==>
      r == Ok(FallbackQuiz(FallbackQuizSpec(title, EntryTexts(summary).value)))
    ensures ai == [] && EntryTexts(summary).Err? ==>
      r == Err(HttpError(InternalStatus, rt.sliceError(EntryTexts(summary).error)))
    ensures r.Ok? && r.value.FallbackQuiz? ==>
      |r.value.items| == 3 && forall k :: 0 <= k < 3 ==> WellFormedItem(r.value.items[k])
  {
    if ai != [] then Ok(AIQuiz(ai))
    else match EntryTexts(summary)
      case Err(v) => Err(HttpError(InternalStatus, rt.sliceError(v)))
      case Ok(texts) => Ok(FallbackQuiz(FallbackQuizSpec(title, texts)))
  }

  /** `mathQuestion`: `null` outside math mode, else `ai.math` when truthy,
      else the fallback problem. */
  function ComposedMath(mode: Mode, ai: Json, title: string, seed: nat): (r: MathField)
    ensures r.NoMath? <==> mode == Normal
    ensures mode == Math && Truthy(ai) ==> r == AIMath(ai)
    ensures mode == Math && !Truthy(ai) ==> r == FallbackMath(BuildFallbackMathQuestion(title, seed))
  {
    if mode == Normal then NoMath
    else if Truthy(ai) then AIMath(ai)
    else FallbackMath(BuildFallbackMathQuestion(title, seed))
  }

  /** The payload once the request has passed its checks: the fields filled
      from the model's content `ai` or their fallbacks, for the subject
      `title` and the page record `wiki`. */
  function PackFrom(title: string, wiki: WikiResult, mode: Mode, ai: AIContent, rt: Runtime,
                    tipSeed: nat, mathSeed: nat, timestamp: string): (r: Result<StudyPack, HttpError>)
    requires |ai.summary| <= 3
    ensures r.Ok? ==>
      var pack := r.value;
      && pack.topic == title
      && pack.summary == ComposedSummary(ai, wiki.extract)
      && pack.studyTip == ComposedTip(ai.studyTip, title, tipSeed)
      && Ok(pack.quiz) == ComposedQuiz(ai.quiz, pack.summary, title, rt)
      && pack.mode == mode
      && pack.math == ComposedMath(mode, ai.math, title, mathSeed)
      && pack.funFact == ComposedFunFact(ai.funFact, wiki.funFact)
      && pack.timestamp == timestamp
      && pack.wikipedia == wiki.desktopPage
    ensures r.Err? <==> ComposedQuiz(ai.quiz, ComposedSummary(ai, wiki.extract), title, rt).Err?
    ensures r.Err? ==> r.error == ComposedQuiz(ai.quiz, ComposedSummary(ai, wiki.extract), title, rt).error
  {
    var summary := ComposedSummary(ai, wiki.extract);
    match ComposedQuiz(ai.quiz, summary, title, rt)
    case Err(e) => Err(e)
    case Ok(quiz) =>
      Ok(StudyPack(title, summary, quiz, ComposedMath(mode, ai.math, title, mathSeed),
        ComposedTip(ai.studyTip, title, tipSeed),
        ComposedFunFact(ai.funFact, wiki.funFact), mode, timestamp, wiki.desktopPage))
  }

  /** `createStudyPack` as a value: the request's topic and mode, the
      lookup's response, the model's reply, the two `Date.now()` seeds and
      the time stamp. An error is what `next(err)` receives. */
  function StudyPackFor(rawTopic: Option<Json>, rawMode: Option<Json>, wikiResp: WikiResponse,
                        config: Config, aiReply: AIReply, rt: Runtime,
                        tipSeed: nat, mathSeed: nat, timestamp: string): (r: Result<StudyPack, HttpError>)
    ensures CheckedRequest(rawTopic, wikiResp).Err? ==> r == Err(CheckedRequest(rawTopic, wikiResp).error)
    ensures CheckedRequest(rawTopic, wikiResp).Ok? ==>
      var (topic, wiki) := CheckedRequest(rawTopic, wikiResp).value;
      r == PackFrom(wiki.title, wiki, NormalizeMode(rawMode), AIContentFor(config, aiReply, rt).content,
                    rt, tipSeed, mathSeed, timestamp)
    ensures r.Ok? ==> r.value.topic != "" && 1 <= |r.value.summary| <= 3
  {
    match CheckedRequest(rawTopic, wikiResp)
    case Err(e) => Err(e)
    case Ok((topic, wiki)) =>
      PackFrom(OrElse(wiki.title, topic), wiki, NormalizeMode(rawMode),
               AIContentFor(config, aiReply, rt).content, rt, tipSeed, mathSeed, timestamp)
  }

  /** The fields once the checks have passed, as `createStudyPack` fills them
      in turn (the model's `ai` content already fetched). */
  method ComposePack(title: string, wiki: WikiResult, mode: Mode, ai: AIContent, rt: Runtime,
                     tipSeed: nat, mathSeed: nat, timestamp: string)
    returns (r: Result<StudyPack, HttpError>)
    requires |ai.summary| <= 3
    ensures r == PackFrom(title, wiki, mode, ai, rt, tipSeed, mathSeed, timestamp)
  {
    var summary := if ai.summary != [] then ai.summary else Texts(BuildFallbackSummary(wiki.extract));
    var studyTip := if Truthy(ai.studyTip) then ai.studyTip else JString(BuildFallbackStudyTip(title, tipSeed));
    var quiz := AIQuiz(ai.quiz);
    if ai.quiz == [] {
      var texts := EntryTexts(summary);
      if texts.Err? {
        return Err(HttpError(InternalStatus, rt.sliceError(texts.error)));
      }
      var items := BuildFallbackQuiz(title, texts.value);
      quiz := FallbackQuiz(items);
    }
    var math := NoMath;
    if mode == Math {
      if Truthy(ai.math) {
        math := AIMath(ai.math);
      } else {
        math := FallbackMath(BuildFallbackMathQuestion(title, mathSeed));
      }
    }
    var funFact := ComposedFunFact(ai.funFact, wiki.funFact);
    return Ok(StudyPack(title, summary, quiz, math, studyTip, funFact, mode, timestamp, wiki.desktopPage));
  }

  /** `createStudyPack(req, res, next)`: validate, look the topic up, ask the
      model (whose reply to `OutgoingRequest(config, title, extract, mode)`
      is `aiReply`), then fill each field from the model or its fallback. */
  method CreateStudyPack(rawTopic: Option<Json>, rawMode: Option<Json>, wikiResp: WikiResponse,
                         config: Config, aiReply: AIReply, rt: Runtime,
                         tipSeed: nat, mathSeed: nat, timestamp: string)
    returns (r: Result<StudyPack, HttpError>)
    ensures r == StudyPackFor(rawTopic, rawMode, wikiResp, config, aiReply, rt, tipSeed, mathSeed, timestamp)
  {
    var topic := RequestTopic(rawTopic);
    if topic.None? {
      return Err(HttpError(400, InvalidTopicMessage));
    }
    var mode := NormalizeMode(rawMode);
    var fetched := FetchTopicData(topic.value, wikiResp);
    if fetched.Err? {
      return Err(fetched.error);
    }
    var wiki := fetched.value;
    if wiki.extract == "" {
      return Err(HttpError(404, NotFoundMessage));
    }
    var title := OrElse(wiki.title, topic.value);
    var outcome := GenerateAIContent(config, aiReply, rt);
    r := ComposePack(title, wiki, mode, outcome.content, rt, tipSeed, mathSeed, timestamp);
  }

  /** Every successful payload has one to three summary entries and one to
      three quiz questions (exactly three well-formed ones from the
      fallback), and a math problem exactly in math mode. */
  lemma StudyPackShape(rawTopic: Option<Json>, rawMode: Option<Json>, wikiResp: WikiResponse,
                       config: Config, aiReply: AIReply, rt: Runtime,
                       tipSeed: nat, mathSeed: nat, timestamp: string)
    requires StudyPackFor(rawTopic, rawMode, wikiResp, config, aiReply, rt, tipSeed, mathSeed, timestamp).Ok?
    ensures var pack := StudyPackFor(rawTopic, rawMode, wikiResp, config, aiReply, rt, tipSeed, mathSeed, timestamp).value;
      && 1 <= |pack.summary| <= 3
      && (pack.quiz.AIQuiz? ==> 1 <= |pack.quiz.entries| <= 3)
      && (pack.quiz.FallbackQuiz? ==> |pack.quiz.items| == 3)
      && (pack.math.NoMath? <==> rawMode != Some(JString("math")))
      && Truthy(pack.studyTip)
  {
    var (topic, wiki) := CheckedRequest(rawTopic, wikiResp).value;
    var ai := AIContentFor(config, aiReply, rt).content;
    assert Shaped(ai);
    PackFromShape(wiki.title, wiki, NormalizeMode(rawMode), ai, rt, tipSeed, mathSeed, timestamp);
  }

  /** The shape of a composed pack from shaped content: at most three quiz
      entries from the model, three built ones otherwise, a tip always, and
      a math field exactly in math mode. */
  lemma PackFromShape(title: string, wiki: WikiResult, mode: Mode, ai: AIContent, rt: Runtime,
                      tipSeed: nat, mathSeed: nat, timestamp: string)
    requires Shaped(ai)
    requires PackFrom(title, wiki, mode, ai, rt, tipSeed, mathSeed, timestamp).Ok?
    ensures var pack := PackFrom(title, wiki, mode, ai, rt, tipSeed, mathSeed, timestamp).value;
      && (pack.quiz.AIQuiz? ==> 1 <= |pack.quiz.entries| <= 3)
      && (pack.quiz.FallbackQuiz? ==> |pack.quiz.items| == 3)
      && (pack.math.NoMath? <==> mode == Normal)
      && Truthy(pack.studyTip)
  {
    var pack := PackFrom(title, wiki, mode, ai, rt, tipSeed, mathSeed, timestamp).value;
    assert pack.quiz.AIQuiz? ==> pack.quiz.entries == ai.quiz;
  }

  /** With the all-empty content every field comes from the fallbacks: the
      summary pieces of the extract, the quiz built on them, the seeded tip
      and problem, and the page's fun fact. */
  lemma SentinelAllFallback(title: string, wiki: WikiResult, mode: Mode, rt: Runtime,
                            tipSeed: nat, mathSeed: nat, timestamp: string)
    ensures var r := PackFrom(title, wiki, mode, Sentinel, rt, tipSeed, mathSeed, timestamp);
      var pieces := BuildFallbackSummary(wiki.extract);
      && r.Ok?
      && r.value.summary == Texts(pieces)
      && r.value.quiz == FallbackQuiz(FallbackQuizSpec(title, pieces))
      && r.value.studyTip == JString(BuildFallbackStudyTip(title, tipSeed))
      && (mode == Math ==> r.value.math == FallbackMath(BuildFallbackMathQuestion(title, mathSeed)))
      && r.value.funFact == (if wiki.funFact.Some? && wiki.funFact.value != "" then JString(wiki.funFact.value) else JNull)
  {
    EntryTextsOfTexts(BuildFallbackSummary(wiki.extract));
  }

  /** Without a usable key nothing is asked of the model, and the payload is
      the one built from the all-empty content. */
  lemma WithoutKeyAllFallback(rawTopic: Option<Json>, rawMode: Option<Json>, wikiResp: WikiResponse,
                              config: Config, aiReply: AIReply, rt: Runtime,
                              tipSeed: nat, mathSeed: nat, timestamp: string)
    requires NoUsableKey(config.apiKey)
    requires CheckedRequest(rawTopic, wikiResp).Ok?
    ensures !AIContentFor(config, aiReply, rt).requested
    ensures var wiki := CheckedRequest(rawTopic, wikiResp).value.1;
      StudyPackFor(rawTopic, rawMode, wikiResp, config, aiReply, rt, tipSeed, mathSeed, timestamp)
        == PackFrom(wiki.title, wiki, NormalizeMode(rawMode), Sentinel, rt, tipSeed, mathSeed, timestamp)
  {
  }
}
