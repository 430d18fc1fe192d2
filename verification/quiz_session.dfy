/**
 * `QuizViewModel`: walks through a quiz one question at a time, records the
 * chosen option per question and counts the correct ones at the end.
 */
module QuizSession {
  import opened Wrappers
  import Learning

  const FinishTitle := "Завершить тест"
  const NextTitle := "Следующий вопрос"

  /**
   * `index` only ever starts at 0 and grows, so it is a `nat`; `answers[i]`
   * is the option chosen for question `i`.
   */
  datatype QuizState = QuizState(quiz: Learning.Quiz, index: nat, answers: seq<int>, score: int, completed: bool)

  /**
   * Delegate calls. The progress bar value `Float(index) / Float(count)` is
   * carried as a real; it is only sent while a question is on screen, so the
   * count is never zero there.
   */
  datatype QuizEvent =
    | QuestionShown(question: Learning.QuizQuestion, index: nat, total: nat)
    | ProgressUpdated(progress: real)
    | NextButtonUpdated(isEnabled: bool, title: string)
    | QuizCompleted(score: int, total: nat)

  datatype Step = Step(state: QuizState, events: seq<QuizEvent>)

  function Count(s: QuizState): nat {
    |s.quiz.questions|
  }

  /** `init(quiz:)`: nothing shown yet. */
  function Initial(quiz: Learning.Quiz): (r: QuizState)
    ensures r.quiz == quiz && r.index == 0 && r.answers == [] && r.score == 0 && !r.completed
  {
    QuizState(quiz, 0, [], 0, false)
  }

  /** `currentQuestion`: the question at the index, if there is one. */
  function CurrentQuestion(s: QuizState): (r: Option<Learning.QuizQuestion>)
    ensures r.Some? <==> s.index < Count(s)
    ensures r.Some? ==> r.value == s.quiz.questions[s.index]
  {
    if s.index < Count(s) then Some(s.quiz.questions[s.index]) else None
  }

  /** `progress`: the share of questions already passed; an empty quiz divides 0 by 0, which has no real value. */
  function Progress(s: QuizState): (r: Option<real>)
    ensures r.None? <==> Count(s) == 0
    ensures r.Some? ==> r.value * Count(s) as real == s.index as real
    ensures r.Some? && s.index < Count(s) ==> 0.0 <= r.value < 1.0
  {
    if Count(s) == 0 then None else Some(s.index as real / Count(s) as real)
  }

  /** `isLastQuestion`: never true for an empty quiz, whose last index would be -1. */
  predicate IsLastQuestion(s: QuizState) {
    s.index == Count(s) - 1
  }

  function NextButtonTitle(s: QuizState): (r: string)
    ensures r == FinishTitle <==> IsLastQuestion(s)
    ensures r == NextTitle <==> !IsLastQuestion(s)
  {
    if IsLastQuestion(s) then FinishTitle else NextTitle
  }

  /** `showCurrentQuestion`: the question, the progress and a disabled "next" button; nothing past the end. */
  function ShowCurrentQuestion(s: QuizState): (r: seq<QuizEvent>)
    ensures s.index >= Count(s) ==> r == []
    ensures s.index < Count(s) ==>
      && |r| == 3
      && r[0] == QuestionShown(s.quiz.questions[s.index], s.index, Count(s))
      && r[1].ProgressUpdated? && r[1].progress * Count(s) as real == s.index as real
      && r[2] == NextButtonUpdated(false, NextButtonTitle(s))
  {
    match CurrentQuestion(s)
    case None => []
    case Some(q) => [QuestionShown(q, s.index, Count(s)), ProgressUpdated(Progress(s).value), NextButtonUpdated(false, NextButtonTitle(s))]
  }

  /** `startQuiz` (and `retryQuiz`, which only calls it): everything reset, first question shown. */
  function StartQuiz(s: QuizState): (r: Step)
    ensures r.state == Initial(s.quiz)
    ensures r.events == ShowCurrentQuestion(r.state)
    ensures Count(s) > 0 ==>
      && |r.events| == 3
      && r.events[0] == QuestionShown(s.quiz.questions[0], 0, Count(s))
      && r.events[1] == ProgressUpdated(0.0)
      && r.events[2] == NextButtonUpdated(false, NextButtonTitle(r.state))
    ensures Count(s) == 0 ==> r.events == []
  {
    var reset := Initial(s.quiz);
    Step(reset, ShowCurrentQuestion(reset))
  }

  function RetryQuiz(s: QuizState): (r: Step)
    ensures r == StartQuiz(s)
    ensures r.state.answers == [] && r.state.score == 0 && !r.state.completed
    ensures Count(s) > 0 ==> r.events[1] == ProgressUpdated(0.0) && !r.events[2].isEnabled
  {
    StartQuiz(s)
  }

  /**
   * `selectAnswer(at:)`: the answer goes to the current question's slot when
   * that slot exists, and is appended otherwise; the "next" button lights up.
   */
  function SelectAnswer(s: QuizState, option: int): (r: Step)
    ensures r.state.quiz == s.quiz && r.state.index == s.index
    ensures r.state.score == s.score && r.state.completed == s.completed
    ensures |s.answers| <= s.index ==> r.state.answers == s.answers + [option]
    ensures |s.answers| > s.index ==>
      && |r.state.answers| == |s.answers|
      && r.state.answers[s.index] == option
      && forall i :: 0 <= i < |s.answers| && i != s.index ==> r.state.answers[i] == s.answers[i]
    ensures r.events == [NextButtonUpdated(true, NextButtonTitle(s))]
  {
    var answers := if |s.answers| <= s.index then s.answers + [option] else s.answers[s.index := option];
    Step(s.(answers := answers), [NextButtonUpdated(true, NextButtonTitle(s))])
  }

  /** The number of the first `n` questions answered with their correct option. */
  function CountCorrect(questions: seq<Learning.QuizQuestion>, answers: seq<int>, n: nat): (r: nat)
    requires n <= |questions|
    ensures r <= n
  {
    if n == 0 then 0
    else CountCorrect(questions, answers, n - 1)
         + (if n - 1 < |answers| && answers[n - 1] == questions[n - 1].correctAnswerIndex then 1 else 0)
  }

  function Score(questions: seq<Learning.QuizQuestion>, answers: seq<int>): (r: nat)
    ensures r <= |questions|
  {
    CountCorrect(questions, answers, |questions|)
  }

  predicate IsCorrect(questions: seq<Learning.QuizQuestion>, answers: seq<int>, i: nat) {
    i < |questions| && i < |answers| && answers[i] == questions[i].correctAnswerIndex
  }

  /** The correctly answered question positions below `n`. */
  function CorrectSet(questions: seq<Learning.QuizQuestion>, answers: seq<int>, n: nat): set<nat>
    requires n <= |questions|
  {
    set i: nat | i < n && IsCorrect(questions, answers, i)
  }

  /** The score is the number of correctly answered questions. */
  lemma {:induction false} CountCorrectIsCardinality(questions: seq<Learning.QuizQuestion>, answers: seq<int>, n: nat)
    requires n <= |questions|
    ensures CountCorrect(questions, answers, n) == |CorrectSet(questions, answers, n)|
  {
    if n > 0 {
      CountCorrectIsCardinality(questions, answers, n - 1);
      var prev := CorrectSet(questions, answers, n - 1);
      if IsCorrect(questions, answers, n - 1) {
        assert CorrectSet(questions, answers, n) == prev + {n - 1};
      } else {
        assert CorrectSet(questions, answers, n) == prev;
      }
    }
  }

  /** Full marks exactly when every question was answered correctly. */
  lemma {:induction false} FullScoreIffAllCorrect(questions: seq<Learning.QuizQuestion>, answers: seq<int>, n: nat)
    requires n <= |questions|
    ensures CountCorrect(questions, answers, n) == n <==> forall i: nat :: i < n ==> IsCorrect(questions, answers, i)
  {
    if n > 0 {
      FullScoreIffAllCorrect(questions, answers, n - 1);
      var last := IsCorrect(questions, answers, n - 1);
      assert CountCorrect(questions, answers, n) == CountCorrect(questions, answers, n - 1) + (if last then 1 else 0);
      if forall i: nat :: i < n ==> IsCorrect(questions, answers, i) {
        assert last;
      }
    }
  }

  /** Answers past the last question never count. */
  lemma {:induction false} ExtraAnswersIgnored(questions: seq<Learning.QuizQuestion>, answers: seq<int>, extra: seq<int>, n: nat)
    requires n <= |questions| <= |answers|
    ensures CountCorrect(questions, answers + extra, n) == CountCorrect(questions, answers, n)
  {
    if n > 0 {
      ExtraAnswersIgnored(questions, answers, extra, n - 1);
      assert (answers + extra)[n - 1] == answers[n - 1];
    }
  }

  /** `completeQuiz`: recount the score from scratch, mark the quiz completed, report it. */
  function CompleteQuiz(s: QuizState): (r: Step)
    ensures r.state == s.(score := Score(s.quiz.questions, s.answers), completed := true)
    ensures 0 <= r.state.score <= Count(s)
    ensures r.events == [QuizCompleted(r.state.score, Count(s))]
  {
    var score := Score(s.quiz.questions, s.answers);
    Step(s.(score := score, completed := true), [QuizCompleted(score, Count(s))])
  }

  /** The counting loop of `completeQuiz`, over the questions in order. */
  method CountScore(questions: seq<Learning.QuizQuestion>, answers: seq<int>) returns (score: nat)
    ensures score == Score(questions, answers)
    ensures score == |CorrectSet(questions, answers, |questions|)|
  {
    score := 0;
    var index := 0;
    while index < |questions|
      invariant 0 <= index <= |questions|
      invariant score == CountCorrect(questions, answers, index)
    {
      if index < |answers| && answers[index] == questions[index].correctAnswerIndex {
        score := score + 1;
      }
      index := index + 1;
    }
    CountCorrectIsCardinality(questions, answers, |questions|);
  }

  /** `nextQuestion`: finish on the last question, otherwise move on and show the next one. */
  function NextQuestion(s: QuizState): (r: Step)
    ensures IsLastQuestion(s) ==> r == CompleteQuiz(s)
    ensures !IsLastQuestion(s) ==>
      && r.state == s.(index := s.index + 1)
      && r.events == ShowCurrentQuestion(r.state)
  {
    if IsLastQuestion(s) then CompleteQuiz(s)
    else
      var moved := s.(index := s.index + 1);
      Step(moved, ShowCurrentQuestion(moved))
  }

  /** A session reached from the start never runs past the last question of a non-empty quiz. */
  predicate Valid(s: QuizState) {
    && (Count(s) > 0 ==> s.index < Count(s))
    && |s.answers| <= s.index + 1
  }

  lemma StepsPreserveValid(s: QuizState, option: int)
    requires Valid(s)
    ensures Valid(StartQuiz(s).state)
    ensures Valid(SelectAnswer(s, option).state)
    ensures Valid(NextQuestion(s).state)
  {
  }

  /** An empty quiz never completes: "next" only moves the index past the end and shows nothing. */
  lemma EmptyQuizNeverCompletes(s: QuizState)
    requires Count(s) == 0
    ensures NextQuestion(s).state.index == s.index + 1
    ensures NextQuestion(s).events == []
    ensures !NextQuestion(s).state.completed <==> !s.completed
  {
  }

  /** Pressing "finish" again recounts the same score. */
  lemma CompletionIsStable(s: QuizState)
    requires IsLastQuestion(s)
    ensures NextQuestion(NextQuestion(s).state) == NextQuestion(s)
  {
  }

  /** Choosing an option, then pressing "next". */
  function Answer(s: QuizState, option: int): QuizState {
    NextQuestion(SelectAnswer(s, option).state).state
  }

  function Play(s: QuizState, options: seq<int>): QuizState
    decreases |options|
  {
    if |options| == 0 then s else Play(Answer(s, options[0]), options[1..])
  }

  lemma {:induction false} PlayFrom(quiz: Learning.Quiz, options: seq<int>, k: nat)
    requires k < |quiz.questions| == |options|
    ensures Play(QuizState(quiz, k, options[..k], 0, false), options[k..])
         == QuizState(quiz, |options| - 1, options, Score(quiz.questions, options), true)
    decreases |options| - k
  {
    var s := QuizState(quiz, k, options[..k], 0, false);
    var selected := SelectAnswer(s, options[k]).state;
    assert selected.answers == options[..k + 1];
    if k == |options| - 1 {
      assert options[..k + 1] == options;
      assert options[k..][1..] == [];
    } else {
      assert Answer(s, options[k]) == QuizState(quiz, k + 1, options[..k + 1], 0, false);
      assert options[k..][1..] == options[k + 1..];
      PlayFrom(quiz, options, k + 1);
    }
  }

  /**
   * Answering every question of a non-empty quiz in turn, from a fresh start,
   * ends completed with exactly those answers and their score.
   */
  lemma PlayWholeQuiz(quiz: Learning.Quiz, options: seq<int>)
    requires 0 < |quiz.questions| == |options|
    ensures Play(Initial(quiz), options).completed
    ensures Play(Initial(quiz), options).answers == options
    ensures Play(Initial(quiz), options).score == |CorrectSet(quiz.questions, options, |options|)|
  {
    assert options[..0] == [] && options[0..] == options;
    PlayFrom(quiz, options, 0);
    CountCorrectIsCardinality(quiz.questions, options, |options|);
  }

  /**
   * Pressing "next" without choosing leaves a gap that the next choice does
   * not fill: it is appended, so it lands in the skipped question's slot.
   */
  lemma SkippedAnswerShifts(quiz: Learning.Quiz, option: int)
    requires |quiz.questions| >= 3
    ensures SelectAnswer(QuizState(quiz, 1, [], 0, false), option).state.answers == [option]
  {
  }
}
