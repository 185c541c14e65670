/** The quiz session: one multiple-choice question at a time; the user picks
    an option, submits it, sees whether it was right, and two seconds later
    moves on to the next question or, after the last one, finishes with the
    running score saved.

    As in the flashcard session, the advance that submitting schedules is
    kept as a pending record of the render that scheduled it: its question
    index, its score and the verdict it computed. */
module QuizSession {
  import opened Content

  /** `content.questions.filter(q => q.options)`. */
  function QuizItems(qs: seq<Question>): (r: seq<Question>)
    ensures |r| <= |qs|
    ensures forall q :: q in r <==> q in qs && !IsFlashcard(q)
  {
    if qs == [] then []
    else if !IsFlashcard(qs[0]) then [qs[0]] + QuizItems(qs[1..])
    else QuizItems(qs[1..])
  }

  /** The filter keeps the original order: it distributes over concatenation. */
  lemma {:induction false} QuizItemsAppend(a: seq<Question>, b: seq<Question>)
    ensures QuizItems(a + b) == QuizItems(a) + QuizItems(b)
  {
    if a == [] {
      assert a + b == b;
    } else {
      assert (a + b)[1..] == a[1..] + b;
      QuizItemsAppend(a[1..], b);
    }
  }

  /** A list of quiz items only is kept whole. */
  lemma {:induction false} QuizItemsKeepsQuizItems(qs: seq<Question>)
    requires forall i :: 0 <= i < |qs| ==> !IsFlashcard(qs[i])
    ensures QuizItems(qs) == qs
  {
    if qs != [] {
      QuizItemsKeepsQuizItems(qs[1..]);
    }
  }

  /** A list of flashcards only yields no quiz items. */
  lemma {:induction false} QuizItemsDropsFlashcards(qs: seq<Question>)
    requires forall i :: 0 <= i < |qs| ==> IsFlashcard(qs[i])
    ensures QuizItems(qs) == []
  {
    if qs != [] {
      QuizItemsDropsFlashcards(qs[1..]);
    }
  }

  /** `totalQuestions`. */
  function Total(c: StudyContent): nat {
    |QuizItems(c.questions)|
  }

  /** The number of `true` verdicts in the answer log. */
  function CountTrue(bs: seq<bool>): (n: nat)
    ensures n <= |bs|
  {
    if bs == [] then 0 else CountTrue(bs[..|bs| - 1]) + (if bs[|bs| - 1] then 1 else 0)
  }

  lemma CountTrueAppend(bs: seq<bool>, b: bool)
    ensures CountTrue(bs + [b]) == CountTrue(bs) + (if b then 1 else 0)
  {
    assert (bs + [b])[..|bs|] == bs;
  }

  /** The callback `handleSubmitAnswer` schedules: it runs 2000 ms later with
      the question index and score of the render that scheduled it, and the
      verdict it computed. */
  datatype PendingAdvance = PendingAdvance(question: nat, score: nat, isCorrect: bool)

  /** The state hooks `currentQuestion`, `selectedAnswer`, `showResult`,
      `score` and `answers`, and the scheduled advance, if any. */
  datatype QuizState = QuizState(
    currentQuestion: nat,
    selectedAnswer: Option<string>,
    showResult: bool,
    score: nat,
    answers: seq<bool>,
    pending: Option<PendingAdvance>)

  const Start: QuizState := QuizState(0, None, false, 0, [], None)

  /** `handleAnswerSelect`: ignored once the result is shown. */
  function Select(q: QuizState, answer: string): QuizState {
    if q.showResult then q else q.(selectedAnswer := Some(answer))
  }

  /** The Submit button is on screen: the question view is up, an answer is
      chosen (`selectedAnswer` is truthy, so not the empty string) and the
      result is not shown yet. */
  predicate CanSubmit(q: QuizState, total: nat) {
    q.currentQuestion < total && q.selectedAnswer.Some? && q.selectedAnswer.value != "" && !q.showResult
  }

  /** `handleSubmitAnswer` up to the timer: log the verdict, count it if
      right, show the result, and schedule the advance. */
  function Submit(q: QuizState, items: seq<Question>): QuizState
    requires q.currentQuestion < |items|
  {
    var isCorrect := q.selectedAnswer == Some(items[q.currentQuestion].answer);
    q.(answers := q.answers + [isCorrect],
       score := if isCorrect then q.score + 1 else q.score,
       showResult := true,
       pending := Some(PendingAdvance(q.currentQuestion, q.score, isCorrect)))
  }

  /** The scheduled advance runs: the next question with nothing selected, or
      after the last question the session result and then `onComplete`. */
  function FireTimer(q: QuizState, c: StudyContent): (QuizState, Signal)
    requires q.pending.Some?
  {
    var p := q.pending.value;
    var fired := q.(pending := None);
    if p.question < Total(c) - 1 then
      (fired.(currentQuestion := p.question + 1, selectedAnswer := None, showResult := false), Continue)
    else
      (fired, Complete(Report(c, Quiz, p.score + (if p.isCorrect then 1 else 0), Total(c))))
  }

  /** The completion screen: only drawn when the index is past the questions. */
  predicate ShowsCompletion(q: QuizState, total: nat) {
    q.currentQuestion >= total
  }

  datatype Event = Selected(answer: string) | SubmitPressed | TimerFired | ViewResultsPressed

  /** One user action or timer; an action whose control is not on screen does
      nothing. */
  function Step(q: QuizState, e: Event, c: StudyContent): (QuizState, Signal) {
    match e
    case Selected(a) => (Select(q, a), Continue)
    case SubmitPressed =>
      if CanSubmit(q, Total(c)) then (Submit(q, QuizItems(c.questions)), Continue) else (q, Continue)
    case TimerFired => if q.pending.Some? then FireTimer(q, c) else (q, Continue)
    case ViewResultsPressed => if ShowsCompletion(q, Total(c)) then (q, Complete(None)) else (q, Continue)
  }

  function Run(q: QuizState, es: seq<Event>, c: StudyContent): (QuizState, seq<SessionResult>)
    decreases |es|
  {
    if es == [] then (q, [])
    else
      var step := Step(q, es[0], c);
      var rest := Run(step.0, es[1..], c);
      (rest.0, Saved(step.1) + rest.1)
  }

  /** One verdict per question answered so far (plus the one on screen), the
      score counts the right ones, and a scheduled advance belongs to the
      question on screen and carries the score from before its verdict. */
  ghost predicate Inv(q: QuizState, total: nat) {
    && (q.currentQuestion < total || q.currentQuestion == 0)
    && (q.showResult ==> q.currentQuestion < total)
    && |q.answers| == q.currentQuestion + (if q.showResult then 1 else 0)
    && q.score == CountTrue(q.answers)
    && (q.pending.Some? ==>
          && q.showResult
          && q.pending.value.question == q.currentQuestion
          && q.pending.value.score + (if q.pending.value.isCorrect then 1 else 0) == q.score
          && q.answers[|q.answers| - 1] == q.pending.value.isCorrect)
  }

  /** The score never exceeds the number of submissions, nor that the number
      of questions. */
  lemma ScoreBounds(q: QuizState, total: nat)
    requires Inv(q, total)
    ensures q.score <= |q.answers| <= total
  {
  }

  /** The completion screen shows only for a quiz without questions. */
  lemma CompletionOnlyWhenEmpty(q: QuizState, total: nat)
    requires Inv(q, total)
    ensures ShowsCompletion(q, total) <==> total == 0
  {
  }

  /** Submitting logs its verdict as the entry of the question on screen,
      scores exactly the right answers, and cannot be repeated until the
      advance has moved to the next question. */
  lemma SubmitOncePerQuestion(q: QuizState, c: StudyContent)
    requires Inv(q, Total(c)) && CanSubmit(q, Total(c))
    ensures var s := Submit(q, QuizItems(c.questions));
            && |q.answers| == q.currentQuestion
            && s.answers == q.answers + [q.selectedAnswer == Some(QuizItems(c.questions)[q.currentQuestion].answer)]
            && (s.score == q.score + 1 <==> s.answers[q.currentQuestion])
            && s.score >= q.score
            && !CanSubmit(s, Total(c))
            && Inv(s, Total(c))
  {
    CountTrueAppend(q.answers, q.selectedAnswer == Some(QuizItems(c.questions)[q.currentQuestion].answer));
  }

  /** After the last question, the saved score `score + (isCorrect ? 1 : 0)`
      is exactly the number of right answers over the whole quiz. */
  lemma FinalScoreCountsRightAnswers(q: QuizState, c: StudyContent)
    requires Inv(q, Total(c)) && q.pending.Some? && q.currentQuestion == Total(c) - 1 && HasTopicId(c)
    ensures FireTimer(q, c).1
            == Complete(Some(SessionResult(c.topicId.value, Quiz, CountTrue(q.answers), Total(c))))
    ensures |q.answers| == Total(c)
    ensures FireTimer(q, c).0.currentQuestion == q.currentQuestion
  {
  }

  /** Every event keeps the invariant, never lowers the score, only appends
      to the answer log, and any result it saves counts the right answers. */
  lemma StepKeepsInv(q: QuizState, e: Event, c: StudyContent)
    requires Inv(q, Total(c))
    ensures Inv(Step(q, e, c).0, Total(c))
    ensures Step(q, e, c).0.score >= q.score
    ensures |Step(q, e, c).0.answers| >= |q.answers| && Step(q, e, c).0.answers[..|q.answers|] == q.answers
    ensures forall r :: r in Saved(Step(q, e, c).1) ==>
              r.sessionType == Quiz && r.totalQuestions == Total(c) && r.score == CountTrue(q.answers) <= Total(c)
  {
    if e == SubmitPressed && CanSubmit(q, Total(c)) {
      SubmitOncePerQuestion(q, c);
      var s := Submit(q, QuizItems(c.questions));
      assert s.answers[..|q.answers|] == q.answers;
    }
  }

  /** Along any sequence of events from a valid state: the invariant holds at
      the end, the score never went down, the answer log only grew, and every
      saved result has `score <= totalQuestions`. */
  lemma {:induction false} RunKeepsInv(q: QuizState, es: seq<Event>, c: StudyContent)
    requires Inv(q, Total(c))
    ensures Inv(Run(q, es, c).0, Total(c))
    ensures Run(q, es, c).0.score >= q.score
    ensures |Run(q, es, c).0.answers| >= |q.answers| && Run(q, es, c).0.answers[..|q.answers|] == q.answers
    ensures forall r :: r in Run(q, es, c).1 ==>
              r.sessionType == Quiz && r.totalQuestions == Total(c) && 0 <= r.score <= r.totalQuestions
    decreases |es|
  {
    if es != [] {
      var next := Step(q, es[0], c).0;
      StepKeepsInv(q, es[0], c);
      RunKeepsInv(next, es[1..], c);
      var last := Run(next, es[1..], c).0;
      assert last.answers[..|q.answers|] == last.answers[..|next.answers|][..|q.answers|];
    }
  }

  /** The component instance: its state hooks, the scheduled advance and the
      content it was mounted with. */
  class Session {
    const content: StudyContent
    const quizQuestions: seq<Question>
    var currentQuestion: nat
    var selectedAnswer: Option<string>
    var showResult: bool
    var score: nat
    var answers: seq<bool>
    var pending: Option<PendingAdvance>

    function State(): QuizState
      reads this
    {
      QuizState(currentQuestion, selectedAnswer, showResult, score, answers, pending)
    }

    ghost predicate Valid()
      reads this
    {
      quizQuestions == QuizItems(content.questions) && Inv(State(), |quizQuestions|)
    }

    /** Mounting: the first question, nothing selected, score 0. */
    constructor (content: StudyContent)
      ensures Valid() && this.content == content && State() == Start
    {
      this.content := content;
      quizQuestions := QuizItems(content.questions);
      currentQuestion, selectedAnswer, showResult, score, answers, pending := 0, None, false, 0, [], None;
    }

    /** `handleAnswerSelect`: choose `answer` unless the result is shown. */
    method HandleAnswerSelect(answer: string)
      requires Valid()
      modifies this
      ensures Valid()
      ensures State() == Select(old(State()), answer)
      ensures old(showResult) ==> State() == old(State())
      ensures !old(showResult) ==> selectedAnswer == Some(answer) && State() == old(State()).(selectedAnswer := Some(answer))
    {
      StepKeepsInv(State(), Selected(answer), content);
      if showResult {
        return;
      }
      selectedAnswer := Some(answer);
    }

    /** `handleSubmitAnswer`, offered only by the Submit button. */
    method HandleSubmitAnswer() returns (isCorrect: bool)
      requires Valid() && CanSubmit(State(), |quizQuestions|)
      modifies this
      ensures Valid()
      ensures State() == Submit(old(State()), quizQuestions)
      ensures isCorrect <==> old(selectedAnswer) == Some(quizQuestions[old(currentQuestion)].answer)
      ensures answers == old(answers) + [isCorrect] && showResult
      ensures score == old(score) + (if isCorrect then 1 else 0)
      ensures pending == Some(PendingAdvance(old(currentQuestion), old(score), isCorrect))
    {
      StepKeepsInv(State(), SubmitPressed, content);
      isCorrect := selectedAnswer == Some(quizQuestions[currentQuestion].answer);
      var newAnswers := answers + [isCorrect];
      answers := newAnswers;
      pending := Some(PendingAdvance(currentQuestion, score, isCorrect));
      if isCorrect {
        score := score + 1;
      }
      showResult := true;
    }

    /** The scheduled advance runs with the state it captured. */
    method TimerFires() returns (signal: Signal)
      requires Valid() && pending.Some?
      modifies this
      ensures Valid()
      ensures (State(), signal) == FireTimer(old(State()), content)
      ensures old(currentQuestion) < |quizQuestions| - 1 ==>
                currentQuestion == old(currentQuestion) + 1 && selectedAnswer.None? && !showResult && signal == Continue
      ensures old(currentQuestion) >= |quizQuestions| - 1 ==>
                currentQuestion == old(currentQuestion)
                && signal == Complete(Report(content, Quiz, score, |quizQuestions|))
      ensures score == old(score) && answers == old(answers) && pending.None?
    {
      StepKeepsInv(State(), TimerFired, content);
      var run := pending.value;
      pending := None;
      if run.question < |quizQuestions| - 1 {
        currentQuestion := run.question + 1;
        selectedAnswer := None;
        showResult := false;
        signal := Continue;
      } else {
        signal := Complete(Report(content, Quiz, run.score + (if run.isCorrect then 1 else 0), |quizQuestions|));
      }
    }
  }
}
