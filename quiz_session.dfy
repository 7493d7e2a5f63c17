/**
 * The quiz session kept in a chat's `user_data`: the four keys
 * `current_quiz_id`, `current_question_index`, `current_quiz_score` and
 * `current_quiz_max_score`, the start and answer callbacks that update
 * them, the callback encodings, and the grade buckets of the final message.
 */
module QuizSession {
  import opened Wrappers
  import opened PyText
  import opened QuizzesData

  /** The four session keys; a key that is absent from `user_data` is None. */
  datatype SessionState = SessionState(
    quizId: Option<string>,
    questionIndex: Option<int>,
    score: Option<int>,
    maxScore: Option<int>)

  /** No quiz in progress: none of the four keys is present. */
  const Idle: SessionState := SessionState(None, None, None, None)

  /** The arguments of `save_quiz_result`. */
  datatype QuizResult = QuizResult(userId: int, quizName: string, achievedScore: int, maxPossibleScore: int)

  /** The five closing messages, best first. */
  datatype Grade = Perfect | Excellent | Good | Fair | TryAgain

  /**
   * What an answer callback does. `Malformed` (too few fields or a
   * non-integer index), `NoSuchQuestion` and `NoSuchOption` are the
   * exceptions the handler raises before it changes anything.
   */
  datatype AnswerOutcome =
    | Malformed
    | Stale
    | NoSuchQuestion
    | NoSuchOption
    | NextQuestion(index: int)
    | Finished(result: QuizResult, grade: Grade)

  // ---------------------------------------------------------------------
  // Callback data
  // ---------------------------------------------------------------------

  /** The callback data of a quiz button in the selection menu. */
  function StartCallback(quizId: string): string
  {
    "start_quiz_" + quizId
  }

  /** The callback data of answer button `option` of question `question`. */
  function AnswerCallback(quizId: string, question: int, option: int): string
  {
    "ans_" + quizId + "_" + IntToString(question) + "_" + IntToString(option)
  }

  /** `query.data.split('_')[-1]`. */
  function StartedQuizId(data: string): string
  {
    var parts := Split(data, '_');
    parts[|parts| - 1]
  }

  /** Fields 1, 2 and 3 of `query.data.split('_')`, the last two through `int()`. */
  function ParseAnswer(data: string): (r: Option<(string, int, int)>)
    ensures r.Some? ==> |Split(data, '_')| >= 4 && r.value.0 == Split(data, '_')[1]
  {
    var parts := Split(data, '_');
    if |parts| < 4 then None
    else
      match (ParseInt(parts[2]), ParseInt(parts[3]))
      case (Some(q), Some(a)) => Some((parts[1], q, a))
      case _ => None
  }

  /** A start button for an id without '_' starts that very quiz. */
  lemma StartCallbackRoundTrip(quizId: string)
    requires '_' !in quizId
    ensures StartedQuizId(StartCallback(quizId)) == quizId
  {
    assert StartCallback(quizId) == "start" + ['_'] + ("quiz" + ['_'] + quizId);
    SplitField("start", '_', "quiz" + ['_'] + quizId);
    SplitField("quiz", '_', quizId);
    SplitNoSep(quizId, '_');
  }

  /** An answer button for an id without '_' parses back to its quiz, question and option. */
  lemma AnswerCallbackRoundTrip(quizId: string, question: int, option: int)
    requires '_' !in quizId
    ensures ParseAnswer(AnswerCallback(quizId, question, option)) == Some((quizId, question, option))
  {
    var qs, os := IntToString(question), IntToString(option);
    IntToStringNoUnderscore(question);
    IntToStringNoUnderscore(option);
    AnswerFields(quizId, qs, os);
    ParseIntToString(question);
    ParseIntToString(option);
  }

  /** The four `_`-separated fields of an answer button's data. */
  lemma AnswerFields(quizId: string, qs: string, os: string)
    requires '_' !in quizId && '_' !in qs && '_' !in os
    ensures Split("ans_" + quizId + "_" + qs + "_" + os, '_') == ["ans", quizId, qs, os]
  {
    assert "ans_" + quizId + "_" + qs + "_" + os == "ans" + ['_'] + (quizId + ['_'] + (qs + ['_'] + os));
    SplitField("ans", '_', quizId + ['_'] + (qs + ['_'] + os));
    SplitField(quizId, '_', qs + ['_'] + os);
    SplitField(qs, '_', os);
    SplitNoSep(os, '_');
  }

  // ---------------------------------------------------------------------
  // Grades
  // ---------------------------------------------------------------------

  /** The percentage of the closing message; 0 when the maximum is not positive. */
  function Percentage(achieved: int, maxScore: int): real
  {
    if maxScore > 0 then (achieved as real) / (maxScore as real) * 100.0 else 0.0
  }

  /** The first matching threshold: exactly 100, at least 75, 50, 25, otherwise. */
  function GradeOf(percentage: real): Grade
  {
    if percentage == 100.0 then Perfect
    else if percentage >= 75.0 then Excellent
    else if percentage >= 50.0 then Good
    else if percentage >= 25.0 then Fair
    else TryAgain
  }

  /** Rank of a grade, 4 for the best. */
  function Rank(g: Grade): int
  {
    match g
    case Perfect => 4
    case Excellent => 3
    case Good => 2
    case Fair => 1
    case TryAgain => 0
  }

  lemma PercentageScaled(achieved: int, maxScore: int)
    requires maxScore > 0
    ensures Percentage(achieved, maxScore) * (maxScore as real) == 100.0 * (achieved as real)
  {
    var m := maxScore as real;
    var q := (achieved as real) / m;
    assert q * m == achieved as real;
    assert q * 100.0 * m == 100.0 * (q * m);
  }

  lemma ScaleCompare(x: real, y: real, m: real)
    requires m > 0.0
    ensures x >= y <==> x * m >= y * m
  {
    if x >= y {
      assert (x - y) * m >= 0.0;
    } else {
      assert (y - x) * m > 0.0;
    }
  }

  /**
   * The grade in whole numbers: perfect exactly at the maximum, then the
   * quarter thresholds 4a >= 3m, 2a >= m and 4a >= m.
   */
  lemma GradeByCounts(achieved: int, maxScore: int)
    requires maxScore > 0
    ensures GradeOf(Percentage(achieved, maxScore)) ==
      if achieved == maxScore then Perfect
      else if 4 * achieved >= 3 * maxScore then Excellent
      else if 2 * achieved >= maxScore then Good
      else if 4 * achieved >= maxScore then Fair
      else TryAgain
  {
    PercentageScaled(achieved, maxScore);
    GradeOfScaled(Percentage(achieved, maxScore), achieved, maxScore);
  }

  lemma GradeOfScaled(p: real, achieved: int, maxScore: int)
    requires maxScore > 0
    requires p * (maxScore as real) == 100.0 * (achieved as real)
    ensures GradeOf(p) ==
      if achieved == maxScore then Perfect
      else if 4 * achieved >= 3 * maxScore then Excellent
      else if 2 * achieved >= maxScore then Good
      else if 4 * achieved >= maxScore then Fair
      else TryAgain
  {
    var m, a := maxScore as real, achieved as real;
    Threshold(p, 100.0, a, m);
    ThresholdBelow(p, 100.0, a, m);
    Threshold(p, 75.0, a, m);
    Threshold(p, 50.0, a, m);
    Threshold(p, 25.0, a, m);
  }

  lemma Threshold(p: real, t: real, a: real, m: real)
    requires m > 0.0 && p * m == 100.0 * a
    ensures (p >= t) == (100.0 * a >= t * m)
  {
    ScaleCompare(p, t, m);
  }

  lemma ThresholdBelow(p: real, t: real, a: real, m: real)
    requires m > 0.0 && p * m == 100.0 * a
    ensures (t >= p) == (t * m >= 100.0 * a)
  {
    ScaleCompare(t, p, m);
  }

  /** Without a positive maximum every result gets the last message. */
  lemma NoMaximumGivesTryAgain(achieved: int, maxScore: int)
    requires maxScore <= 0
    ensures GradeOf(Percentage(achieved, maxScore)) == TryAgain
  {
  }

  /** Up to the maximum, a higher score never gets a worse grade. */
  lemma GradeMonotone(a: int, b: int, maxScore: int)
    requires a <= b <= maxScore
    ensures Rank(GradeOf(Percentage(a, maxScore))) <= Rank(GradeOf(Percentage(b, maxScore)))
  {
    if maxScore > 0 {
      GradeByCounts(a, maxScore);
      GradeByCounts(b, maxScore);
    }
  }

  // ---------------------------------------------------------------------
  // Transitions on the session keys
  // ---------------------------------------------------------------------

  lemma KnownQuizHasName(quizId: string)
    requires Lookup(quizId).Some?
    ensures Lookup(quizId).value.name.Some?
  {
    LookupFindsEachEntry();
  }

  /** The questions of a known quiz. */
  function QuestionsOf(quizId: string): seq<Question>
    requires Lookup(quizId).Some?
  {
    Lookup(quizId).value.questions
  }

  /**
   * The progress keys against a quiz's questions: the index within
   * [0, question count], the score at most the best total of the questions
   * answered so far, and the stored maximum that of the whole quiz.
   */
  predicate Progress(s: SessionState, questions: seq<Question>)
  {
    && s.questionIndex.Some? && s.score.Some? && s.maxScore.Some?
    && 0 <= s.questionIndex.value <= |questions|
    && s.score.value <= MaxScore(questions[..s.questionIndex.value])
    && s.maxScore.value == MaxScore(questions)
  }

  /**
   * What the handlers keep true of the session: either no key is present,
   * or all four are, for a quiz of the catalog, with consistent progress.
   */
  predicate Inv(s: SessionState)
  {
    || s == Idle
    || (s.quizId.Some? && Lookup(s.quizId.value).Some? && Progress(s, QuestionsOf(s.quizId.value)))
  }

  /** `start_quiz_callback` on the session keys; the flag says whether the quiz was found. */
  function Start(s: SessionState, data: string): (SessionState, bool)
  {
    var quizId := StartedQuizId(data);
    match Lookup(quizId)
    case None => (s, false)
    case Some(quiz) => (SessionState(Some(quizId), Some(0), Some(0), Some(MaxScore(quiz.questions))), true)
  }

  /** `list[i]` on a list of length n, negative i counting from the end; None is an IndexError. */
  function PyIndex(n: nat, i: int): (r: Option<nat>)
    ensures r.Some? <==> -(n as int) <= i < n
    ensures r.Some? ==> r.value < n && r.value as int == (if i < 0 then n + i else i)
  {
    if 0 <= i < n then Some(i) else if -(n as int) <= i < 0 then Some(n + i) else None
  }

  /** The name of a known quiz (every catalog quiz has one). */
  function NameOf(quizId: string): string
    requires Lookup(quizId).Some?
  {
    KnownQuizHasName(quizId);
    Lookup(quizId).value.name.value
  }

  /**
   * An answer for the current question of a quiz with the given questions
   * and name: pick the option, add its score, advance, and finish at the end.
   */
  function Accept(s: SessionState, questions: seq<Question>, name: string, optionIndex: int, userId: int): (SessionState, AnswerOutcome)
    requires s.questionIndex.Some? && s.score.Some? && s.maxScore.Some?
    requires 0 <= s.questionIndex.value
  {
    var questionIndex := s.questionIndex.value;
    if questionIndex >= |questions| then (s, NoSuchQuestion)
    else
      var options := questions[questionIndex].options;
      match PyIndex(|options|, optionIndex)
      case None => (s, NoSuchOption)
      case Some(k) =>
        var score := s.score.value + OptionScore(options[k]);
        var next := questionIndex + 1;
        if next < |questions| then
          (s.(questionIndex := Some(next), score := Some(score)), NextQuestion(next))
        else
          var maxScore := s.maxScore.value;
          (Idle, Finished(QuizResult(userId, name, score, maxScore), GradeOf(Percentage(score, maxScore))))
  }

  /** `quiz_answer_callback` on the session keys. */
  function Answer(s: SessionState, data: string, userId: int): (SessionState, AnswerOutcome)
    requires Inv(s)
  {
    match ParseAnswer(data)
    case None => (s, Malformed)
    case Some((quizId, questionIndex, optionIndex)) =>
      if s.quizId != Some(quizId) || s.questionIndex != Some(questionIndex) then (s, Stale)
      else Accept(s, QuestionsOf(quizId), NameOf(quizId), optionIndex, userId)
  }

  /** Starting a known quiz stores its id, index 0, score 0 and its maximum; an unknown id changes nothing. */
  lemma StartProperties(s: SessionState, data: string)
    ensures var (t, found) := Start(s, data);
      && (found <==> Lookup(StartedQuizId(data)).Some?)
      && (!found ==> t == s)
      && (found ==> t.quizId == Some(StartedQuizId(data)) && t.questionIndex == Some(0) && t.score == Some(0)
                    && t.maxScore == Some(MaxScore(QuestionsOf(StartedQuizId(data)))))
      && (found ==> Inv(t))
  {
    var quizId := StartedQuizId(data);
    if Lookup(quizId).Some? {
      assert QuestionsOf(quizId)[..0] == [];
    }
  }

  /**
   * An accepted answer adds the chosen option's score (Python indexing, a
   * missing score counting 0) and advances the index by exactly one; after
   * the last question it reports that score with the stored maximum and
   * the grade, and clears every key. A missing question or option changes
   * nothing.
   */
  lemma AcceptAdvances(s: SessionState, questions: seq<Question>, name: string, optionIndex: int, userId: int)
    requires s.questionIndex.Some? && s.score.Some? && s.maxScore.Some?
    requires 0 <= s.questionIndex.value
    ensures var (t, outcome) := Accept(s, questions, name, optionIndex, userId);
      var i := s.questionIndex.value;
      && ((outcome.NoSuchQuestion? || outcome.NoSuchOption?) ==> t == s)
      && (outcome.NoSuchQuestion? <==> i >= |questions|)
      && (i < |questions| ==> (outcome.NoSuchOption? <==> PyIndex(|questions[i].options|, optionIndex).None?))
      && (outcome.NextQuestion? || outcome.Finished? ==>
            && i < |questions| && PyIndex(|questions[i].options|, optionIndex).Some?
            && var gained := OptionScore(questions[i].options[PyIndex(|questions[i].options|, optionIndex).value]);
               && (outcome.NextQuestion? <==> i + 1 < |questions|)
               && (outcome.NextQuestion? ==>
                     outcome.index == i + 1 && t == s.(questionIndex := Some(i + 1), score := Some(s.score.value + gained)))
               && (outcome.Finished? ==>
                     && t == Idle
                     && outcome.result == QuizResult(userId, name, s.score.value + gained, s.maxScore.value)
                     && outcome.grade == GradeOf(Percentage(s.score.value + gained, s.maxScore.value))))
  {
  }

  lemma {:induction false} ChosenWithinQuestionMax(options: seq<QuizOption>, k: nat)
    requires k < |options|
    ensures OptionScore(options[k]) <= QuestionMax(options)
  {
  }

  /**
   * An accepted answer keeps the progress consistent, and a finished quiz
   * never reports more than the maximum.
   */
  lemma AcceptKeepsProgress(s: SessionState, questions: seq<Question>, name: string, optionIndex: int, userId: int)
    requires Progress(s, questions)
    ensures var (t, outcome) := Accept(s, questions, name, optionIndex, userId);
      && (t == Idle || (t.quizId == s.quizId && Progress(t, questions)))
      && (outcome.Finished? ==> outcome.result.achievedScore <= outcome.result.maxPossibleScore)
  {
    var i := s.questionIndex.value;
    if i < |questions| && PyIndex(|questions[i].options|, optionIndex).Some? {
      var k := PyIndex(|questions[i].options|, optionIndex).value;
      ChosenWithinQuestionMax(questions[i].options, k);
      MaxScoreAppend(questions[..i], questions[i]);
      assert questions[..i] + [questions[i]] == questions[..i + 1];
      if i + 1 == |questions| {
        assert questions[..i + 1] == questions;
      }
    }
  }

  /** A malformed or stale answer changes nothing, and stale means a different quiz or question. */
  lemma RejectedAnswerChangesNothing(s: SessionState, data: string, userId: int)
    requires Inv(s)
    ensures Answer(s, data, userId).1.Malformed? <==> ParseAnswer(data).None?
    ensures Answer(s, data, userId).1.Malformed? || Answer(s, data, userId).1.Stale? ==> Answer(s, data, userId).0 == s
    ensures ParseAnswer(data).Some? ==>
      (Answer(s, data, userId).1.Stale? <==>
        s.quizId != Some(ParseAnswer(data).value.0) || s.questionIndex != Some(ParseAnswer(data).value.1))
  {
    if ParseAnswer(data).Some? {
      var (quizId, i, a) := ParseAnswer(data).value;
      if s.quizId == Some(quizId) && s.questionIndex == Some(i) {
        AcceptAdvances(s, QuestionsOf(quizId), NameOf(quizId), a, userId);
      }
    }
  }

  /** Every answer keeps the session invariant. */
  lemma AnswerKeepsInv(s: SessionState, data: string, userId: int)
    requires Inv(s)
    ensures Inv(Answer(s, data, userId).0)
  {
    if ParseAnswer(data).Some? {
      var (quizId, i, a) := ParseAnswer(data).value;
      if s.quizId == Some(quizId) && s.questionIndex == Some(i) {
        AcceptKeepsProgress(s, QuestionsOf(quizId), NameOf(quizId), a, userId);
      }
    }
  }

  /** The running score never exceeds the stored maximum. */
  lemma ScoreWithinMax(s: SessionState)
    requires Inv(s) && s != Idle
    ensures s.score.value <= s.maxScore.value
  {
    MaxScorePrefix(QuestionsOf(s.quizId.value), s.questionIndex.value);
  }

  // ---------------------------------------------------------------------
  // The session as `user_data`
  // ---------------------------------------------------------------------

  /** The quiz keys of one chat's `user_data`. */
  class Session {
    var currentQuizId: Option<string>
    var currentQuestionIndex: Option<int>
    var currentQuizScore: Option<int>
    var currentQuizMaxScore: Option<int>

    function State(): SessionState
      reads this
    {
      SessionState(currentQuizId, currentQuestionIndex, currentQuizScore, currentQuizMaxScore)
    }

    predicate Valid()
      reads this
    {
      Inv(State())
    }

    constructor ()
      ensures Valid() && State() == Idle
    {
      currentQuizId, currentQuestionIndex, currentQuizScore, currentQuizMaxScore := None, None, None, None;
    }

    /** `start_quiz_callback`. */
    method StartQuiz(data: string) returns (found: bool)
      requires Valid()
      modifies this
      ensures Valid()
      ensures (State(), found) == Start(old(State()), data)
    {
      var quizId := StartedQuizId(data);
      var quizData := GetQuizById(quizId);
      if quizData.None? {
        return false;
      }
      currentQuizId := Some(quizId);
      currentQuestionIndex := Some(0);
      currentQuizScore := Some(0);
      currentQuizMaxScore := Some(quizData.value.maxPossibleScore);
      StartProperties(old(State()), data);
      found := true;
    }

    /** `quiz_answer_callback`; `userId` is the sender, passed on to the saved result. */
    method AnswerQuiz(data: string, userId: int) returns (outcome: AnswerOutcome)
      requires Valid()
      modifies this
      ensures Valid()
      ensures (State(), outcome) == Answer(old(State()), data, userId)
    {
      AnswerKeepsInv(State(), data, userId);
      var parsed := ParseAnswer(data);
      if parsed.None? {
        return Malformed;
      }
      var (quizIdFromCallback, questionIndexFromCallback, selectedOptionIndex) := parsed.value;
      if Some(quizIdFromCallback) != currentQuizId || Some(questionIndexFromCallback) != currentQuestionIndex {
        return Stale;
      }
      var quizData := GetQuizById(quizIdFromCallback);
      KnownQuizHasName(quizIdFromCallback);
      outcome := AcceptAnswer(quizData.value.quiz.questions, quizData.value.quiz.name.value, selectedOptionIndex, userId);
    }

    /** The part of `quiz_answer_callback` after the stale check, for a quiz with these questions and this name. */
    method AcceptAnswer(questions: seq<Question>, quizName: string, selectedOptionIndex: int, userId: int) returns (outcome: AnswerOutcome)
      requires currentQuestionIndex.Some? && currentQuizScore.Some? && currentQuizMaxScore.Some?
      requires 0 <= currentQuestionIndex.value
      modifies this
      ensures (State(), outcome) == Accept(old(State()), questions, quizName, selectedOptionIndex, userId)
    {
      if currentQuestionIndex.value >= |questions| {
        return NoSuchQuestion;
      }
      var question := questions[currentQuestionIndex.value];
      var k := PyIndex(|question.options|, selectedOptionIndex);
      if k.None? {
        return NoSuchOption;
      }
      var scoreForAnswer := OptionScore(question.options[k.value]);
      currentQuizScore := Some(currentQuizScore.value + scoreForAnswer);
      currentQuestionIndex := Some(currentQuestionIndex.value + 1);
      if currentQuestionIndex.value < |questions| {
        return NextQuestion(currentQuestionIndex.value);
      }
      var achievedScore := currentQuizScore.value;
      var maxPossibleScoreForQuiz := currentQuizMaxScore.value;
      outcome := Finished(QuizResult(userId, quizName, achievedScore, maxPossibleScoreForQuiz), GradeOf(Percentage(achievedScore, maxPossibleScoreForQuiz)));
      currentQuizId, currentQuestionIndex, currentQuizScore, currentQuizMaxScore := None, None, None, None;
    }
  }
}
