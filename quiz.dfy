/** The quiz card: answers are chosen per question until the quiz is
    revealed and are locked afterwards; revealing counts the correct
    answers, fires the celebration at half or more, and marks each option
    and question. */
module Quiz {
  import opened Wrappers

  /** One question as the component receives it. */
  datatype Question = Question(q: string, options: seq<string>, answer: string)

  // ------------------------------------------------------------ scoring

  /** Question `idx` has the chosen answer that equals its answer. */
  predicate AnsweredCorrectly(items: seq<Question>, answers: map<nat, string>, idx: nat)
    requires idx < |items|
  {
    idx in answers && answers[idx] == items[idx].answer
  }

  /** The number of correctly answered questions among the first `n`. */
  function CorrectAmong(items: seq<Question>, answers: map<nat, string>, n: nat): (c: nat)
    requires n <= |items|
    ensures c <= n
  {
    if n == 0 then 0
    else CorrectAmong(items, answers, n - 1) + (if AnsweredCorrectly(items, answers, n - 1) then 1 else 0)
  }

  /** `items.filter((q, idx) => answers[idx] === q.answer).length` */
  function CorrectCount(items: seq<Question>, answers: map<nat, string>): (c: nat)
    ensures c <= |items|
  {
    CorrectAmong(items, answers, |items|)
  }

  /** The indexes below `n` of the correctly answered questions. */
  function CorrectIndexes(items: seq<Question>, answers: map<nat, string>, n: nat): set<nat>
    requires n <= |items|
  {
    set idx: nat | idx < n && AnsweredCorrectly(items, answers, idx)
  }

  /** The count is the number of correctly answered questions. */
  lemma {:induction false} CorrectAmongIsSize(items: seq<Question>, answers: map<nat, string>, n: nat)
    requires n <= |items|
    ensures CorrectAmong(items, answers, n) == |CorrectIndexes(items, answers, n)|
  {
    if n > 0 {
      CorrectAmongIsSize(items, answers, n - 1);
      var before := CorrectIndexes(items, answers, n - 1);
      if AnsweredCorrectly(items, answers, n - 1) {
        assert CorrectIndexes(items, answers, n) == before + {n - 1};
        assert n - 1 !in before;
      } else {
        assert CorrectIndexes(items, answers, n) == before;
      }
    }
  }

  /** `correctCount >= items.length / 2`, in integers. */
  predicate Celebrates(count: nat, length: nat) {
    2 * count >= length
  }

  /** With every question answered correctly the quiz celebrates. */
  lemma {:induction false} AllCorrectCelebrates(items: seq<Question>, answers: map<nat, string>, n: nat)
    requires n <= |items|
    requires forall idx :: 0 <= idx < n ==> AnsweredCorrectly(items, answers, idx)
    ensures CorrectAmong(items, answers, n) == n
  {
    if n > 0 {
      AllCorrectCelebrates(items, answers, n - 1);
    }
  }

  /** With nothing answered the count is zero, so only an empty quiz would
      celebrate. */
  lemma {:induction false} NothingAnsweredCountsZero(items: seq<Question>, n: nat)
    requires n <= |items|
    ensures CorrectAmong(items, map[], n) == 0
  {
    if n > 0 {
      NothingAnsweredCountsZero(items, n - 1);
    }
  }

  // ------------------------------------------------------------ marking

  /** How an option button is drawn. */
  datatype OptionMark = MarkCorrect | MarkWrong | MarkSelected | MarkDefault

  /** The class of option `opt` of a question with `answer`, when `selected`
      was chosen (`None` when nothing was). */
  function MarkOption(opt: string, selected: Option<string>, answer: string, revealed: bool): (m: OptionMark)
    ensures m == MarkCorrect <==> revealed && opt == answer
    ensures m == MarkWrong <==> revealed && selected == Some(opt) && opt != answer
    ensures m == MarkSelected <==> !revealed && selected == Some(opt)
    ensures m == MarkDefault <==> selected != Some(opt) && !(revealed && opt == answer)
  {
    var chosen := selected == Some(opt);
    var correct := revealed && opt == answer;
    var wrong := revealed && chosen && !correct;
    if correct then MarkCorrect
    else if wrong then MarkWrong
    else if chosen then MarkSelected
    else MarkDefault
  }

  /** The line under a question after revealed. */
  datatype Feedback = SaysCorrect | ShowsAnswer | NoFeedback

  /** `isCorrect` and `isWrong`: an unanswered (or empty) choice is neither. */
  function QuestionFeedback(selected: Option<string>, answer: string, revealed: bool): (f: Feedback)
    ensures f == SaysCorrect <==> revealed && selected == Some(answer)
    ensures f == ShowsAnswer <==> revealed && selected.Some? && selected.value != "" && selected.value != answer
    ensures !revealed || selected.None? ==> f == NoFeedback
  {
    if revealed && selected == Some(answer) then SaysCorrect
    else if revealed && selected.Some? && selected.value != "" && selected.value != answer then ShowsAnswer
    else NoFeedback
  }

  /** One rendered question: its feedback and its options' marks. */
  datatype Card = Card(feedback: Feedback, marks: seq<OptionMark>)

  /** What the component renders. */
  datatype View = NoQuiz | Cards(cards: seq<Card>)

  function Chosen(answers: map<nat, string>, idx: nat): (r: Option<string>)
    ensures r.Some? <==> idx in answers
    ensures r.Some? ==> r.value == answers[idx]
  {
    if idx in answers then Some(answers[idx]) else None
  }

  function CardFor(item: Question, selected: Option<string>, revealed: bool): (c: Card)
    ensures c.feedback == QuestionFeedback(selected, item.answer, revealed)
    ensures |c.marks| == |item.options|
    ensures forall i :: 0 <= i < |item.options| ==>
      c.marks[i] == MarkOption(item.options[i], selected, item.answer, revealed)
  {
    Card(QuestionFeedback(selected, item.answer, revealed),
      seq(|item.options|, i requires 0 <= i < |item.options| =>
        MarkOption(item.options[i], selected, item.answer, revealed)))
  }

  /** After revealed, a question's answer option is marked correct, and no
      option of an unanswered question is marked wrong. */
  lemma RevealedMarks(item: Question, selected: Option<string>, i: nat)
    requires i < |item.options|
    ensures item.options[i] == item.answer ==> CardFor(item, selected, true).marks[i] == MarkCorrect
    ensures selected.None? ==> CardFor(item, selected, true).marks[i] != MarkWrong
    ensures selected.None? ==> CardFor(item, selected, true).feedback == NoFeedback
  {
  }

  // ------------------------------------------------------------ the card

  /** The component's state over its `items` prop. */
  class QuizState {
    const items: seq<Question>
    var answers: map<nat, string>
    var revealed: bool
    var showConfetti: bool

    constructor (items: seq<Question>)
      ensures this.items == items && answers == map[] && !revealed && !showConfetti
    {
      this.items := items;
      answers := map[];
      revealed := false;
      showConfetti := false;
    }

    /** What is rendered: nothing but a notice for an empty list, else one
      card per question. */
    function Render(): (v: View)
      reads this
      ensures v.NoQuiz? <==> items == []
      ensures v.Cards? ==> |v.cards| == |items| && forall idx :: 0 <= idx < |items| ==>
        v.cards[idx] == CardFor(items[idx], Chosen(answers, idx), revealed)
    {
      var qs, chosen, shown := items, answers, revealed;
      if qs == [] then NoQuiz
      else Cards(seq(|qs|, idx requires 0 <= idx < |qs| => CardFor(qs[idx], Chosen(chosen, idx), shown)))
    }

    /** A click on option `opt` of question `idx`: recorded before revealed,
      ignored after. */
    method Choose(idx: nat, opt: string)
      modifies this
      ensures !old(revealed) ==> answers == old(answers)[idx := opt]
      ensures old(revealed) ==> answers == old(answers)
      ensures forall k :: k in old(answers) && k != idx ==> k in answers && answers[k] == old(answers)[k]
      ensures revealed == old(revealed) && showConfetti == old(showConfetti)
    {
      if !revealed {
        answers := answers[idx := opt];
      }
    }

    /** `handleReveal`: revealed, and celebrate when half or more of the
      answers are correct. */
    method Reveal()
      modifies this
      ensures revealed && answers == old(answers)
      ensures Celebrates(CorrectCount(items, answers), |items|) ==> showConfetti
      ensures !Celebrates(CorrectCount(items, answers), |items|) ==> showConfetti == old(showConfetti)
    {
      revealed := true;
      var correctCount := CorrectCount(items, answers);
      if Celebrates(correctCount, |items|) {
        showConfetti := true;
      }
    }
  }
}
