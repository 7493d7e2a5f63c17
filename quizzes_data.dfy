/**
 * The quiz catalog: the `QUIZZES` table, the maximum-score fold over its
 * questions and options, and the two lookups built on it.
 */
module QuizzesData {
  import opened Wrappers

  /** An answer option; `score` may be absent, and then counts as 0. */
  datatype QuizOption = QuizOption(text: string, score: Option<int>)

  datatype Question = Question(text: string, options: seq<QuizOption>)

  /** A quiz entry; `name` may be absent (the info listing then uses a default). */
  datatype Quiz = Quiz(name: Option<string>, description: string, questions: seq<Question>)

  /** What `get_quiz_by_id` hands out: a copy of the entry plus its maximum score. */
  datatype QuizView = QuizView(quiz: Quiz, maxPossibleScore: int)

  /** One entry of `get_all_quizzes_info`. */
  datatype QuizInfo = QuizInfo(id: string, name: string, maxScore: int)

  /** The default name of a quiz that has none. */
  const UnknownQuizName: string := "Неизвестный тест"

  function Opt(text: string, score: int): QuizOption
  {
    QuizOption(text, Some(score))
  }

  const Python1: Quiz := Quiz(
    Some("Основы Python (с баллами)"),
    "Тест на знание базовых концепций Python. За каждый ответ начисляются баллы.",
    [ Question("Какой тип данных используется для хранения целых чисел в Python?",
        [Opt("float", 0), Opt("str", 0), Opt("int", 10), Opt("bool", 0)]),
      Question("Как создать пустой список в Python?",
        [Opt("list()", 5), Opt("[]", 5), Opt("Оба варианта верны", 10), Opt("Ни один из вариантов", 0)]),
      Question("Какой оператор используется для возведения в степень?",
        [Opt("^", 0), Opt("**", 10), Opt("%", 0), Opt("//", 0)]) ])

  const Telegram1: Quiz := Quiz(
    Some("Telegram Боты (с баллами)"),
    "Тест по основам разработки Telegram ботов. За каждый ответ начисляются баллы.",
    [ Question("Какой метод используется для отправки текстового сообщения через Telegram Bot API?",
        [Opt("sendText", 0), Opt("sendMessage", 10), Opt("postMessage", 0), Opt("writeMessage", 0)]),
      Question("Что такое 'webhook' в контексте Telegram ботов?",
        [Opt("Способ получить обновления от Telegram через HTTP POST запросы", 10),
         Opt("Инструмент для отладки бота", 2),
         Opt("Формат файла конфигурации бота", 0),
         Opt("Тип клавиатуры в сообщении", 0)]) ])

  /** `QUIZZES`, in its insertion order. */
  const Quizzes: seq<(string, Quiz)> := [("python1", Python1), ("telegram1", Telegram1)]

  /** `option.get("score", 0)`. */
  function OptionScore(o: QuizOption): int
  {
    o.score.GetOr(0)
  }

  function Max(a: int, b: int): int
  {
    if a >= b then a else b
  }

  /** What one question contributes: the best option score, and never less than 0. */
  function QuestionMax(options: seq<QuizOption>): (r: int)
    ensures r >= 0
    ensures forall i :: 0 <= i < |options| ==> OptionScore(options[i]) <= r
    ensures r == 0 || exists i :: 0 <= i < |options| && OptionScore(options[i]) == r
  {
    if |options| == 0 then 0
    else Max(QuestionMax(options[..|options| - 1]), OptionScore(options[|options| - 1]))
  }

  /** The total maximum score: the sum of the questions' contributions. */
  function MaxScore(questions: seq<Question>): (r: int)
    ensures r >= 0
  {
    if |questions| == 0 then 0
    else MaxScore(questions[..|questions| - 1]) + QuestionMax(questions[|questions| - 1].options)
  }

  /** `_calculate_max_score`, with its two nested loops. */
  method CalculateMaxScore(questions: seq<Question>) returns (totalMaxScore: int)
    ensures totalMaxScore == MaxScore(questions)
  {
    totalMaxScore := 0;
    var i := 0;
    while i < |questions|
      invariant 0 <= i <= |questions|
      invariant totalMaxScore == MaxScore(questions[..i])
    {
      var question := questions[i];
      if |question.options| > 0 {
        var maxScoreForQuestion := 0;
        var j := 0;
        while j < |question.options|
          invariant 0 <= j <= |question.options|
          invariant maxScoreForQuestion == QuestionMax(question.options[..j])
        {
          var option := question.options[j];
          if OptionScore(option) > maxScoreForQuestion {
            maxScoreForQuestion := option.score.value;
          }
          QuestionMaxTake(question.options, j);
          j := j + 1;
        }
        assert question.options[..j] == question.options;
        totalMaxScore := totalMaxScore + maxScoreForQuestion;
      }
      MaxScoreTake(questions, i);
      i := i + 1;
    }
    assert questions[..i] == questions;
  }

  /** The best score over one more option of a prefix. */
  lemma QuestionMaxTake(options: seq<QuizOption>, j: nat)
    requires j < |options|
    ensures QuestionMax(options[..j + 1]) == Max(QuestionMax(options[..j]), OptionScore(options[j]))
  {
    assert options[..j + 1][..j] == options[..j];
  }

  /** The maximum over one more question of a prefix. */
  lemma MaxScoreTake(questions: seq<Question>, i: nat)
    requires i < |questions|
    ensures MaxScore(questions[..i + 1]) == MaxScore(questions[..i]) + QuestionMax(questions[i].options)
  {
    assert questions[..i + 1][..i] == questions[..i];
  }

  lemma {:induction false} MaxScoreAppend(questions: seq<Question>, q: Question)
    ensures MaxScore(questions + [q]) == MaxScore(questions) + QuestionMax(q.options)
  {
    assert (questions + [q])[..|questions|] == questions;
  }

  /** The maximum over a prefix of the questions never exceeds the maximum over all of them. */
  lemma {:induction false} MaxScorePrefix(questions: seq<Question>, k: nat)
    requires k <= |questions|
    ensures MaxScore(questions[..k]) <= MaxScore(questions)
    decreases |questions|
  {
    if k < |questions| {
      var init := questions[..|questions| - 1];
      assert questions[..k] == init[..k];
      MaxScorePrefix(init, k);
    } else {
      assert questions[..k] == questions;
    }
  }

  /** A choice of one option per question: a valid option index for each. */
  predicate IsSelection(questions: seq<Question>, picks: seq<int>)
  {
    && |picks| == |questions|
    && forall i :: 0 <= i < |picks| ==> 0 <= picks[i] < |questions[i].options|
  }

  /** The score a selection earns. */
  function SelectionScore(questions: seq<Question>, picks: seq<int>): int
    requires IsSelection(questions, picks)
  {
    if |questions| == 0 then 0
    else
      SelectionScore(questions[..|questions| - 1], picks[..|picks| - 1])
      + OptionScore(questions[|questions| - 1].options[picks[|picks| - 1]])
  }

  /** No selection earns more than the maximum score. */
  lemma {:induction false} SelectionWithinMax(questions: seq<Question>, picks: seq<int>)
    requires IsSelection(questions, picks)
    ensures SelectionScore(questions, picks) <= MaxScore(questions)
    decreases |questions|
  {
    if |questions| > 0 {
      SelectionWithinMax(questions[..|questions| - 1], picks[..|picks| - 1]);
    }
  }

  /** Every option of every question scores at least 0. */
  predicate NonNegativeScores(questions: seq<Question>)
  {
    forall i, j :: 0 <= i < |questions| && 0 <= j < |questions[i].options| ==> OptionScore(questions[i].options[j]) >= 0
  }

  /** Extending a selection of all but the last question by one pick adds that option's score. */
  lemma SelectionExtend(questions: seq<Question>, picks: seq<int>, best: int)
    requires |questions| > 0
    requires IsSelection(questions[..|questions| - 1], picks)
    requires 0 <= best < |questions[|questions| - 1].options|
    ensures IsSelection(questions, picks + [best])
    ensures SelectionScore(questions, picks + [best])
         == SelectionScore(questions[..|questions| - 1], picks) + OptionScore(questions[|questions| - 1].options[best])
  {
    assert (picks + [best])[..|picks|] == picks;
  }

  /** A question with options and no negative score has an option worth its maximum. */
  lemma BestOption(options: seq<QuizOption>)
    requires |options| > 0
    requires forall j :: 0 <= j < |options| ==> OptionScore(options[j]) >= 0
    ensures exists b :: 0 <= b < |options| && OptionScore(options[b]) == QuestionMax(options)
  {
    if QuestionMax(options) == 0 {
      assert OptionScore(options[0]) == 0;
    }
  }

  /** Dropping the last question keeps every score non-negative. */
  lemma NonNegativePrefix(questions: seq<Question>)
    requires |questions| > 0
    requires NonNegativeScores(questions)
    ensures NonNegativeScores(questions[..|questions| - 1])
  {
    var init := questions[..|questions| - 1];
    forall i, j | 0 <= i < |init| && 0 <= j < |init[i].options|
      ensures OptionScore(init[i].options[j]) >= 0
    {
      assert init[i] == questions[i];
    }
  }

  /**
   * When every question has an option and no score is negative, some
   * selection earns exactly the maximum: the bound is tight.
   */
  lemma {:induction false} MaxScoreAttained(questions: seq<Question>)
    requires forall i :: 0 <= i < |questions| ==> |questions[i].options| > 0
    requires NonNegativeScores(questions)
    ensures exists picks :: IsSelection(questions, picks) && SelectionScore(questions, picks) == MaxScore(questions)
    decreases |questions|
  {
    if |questions| == 0 {
      assert IsSelection(questions, []) && SelectionScore(questions, []) == 0;
    } else {
      var init := questions[..|questions| - 1];
      var last := questions[|questions| - 1];
      NonNegativePrefix(questions);
      MaxScoreAttained(init);
      var picks :| IsSelection(init, picks) && SelectionScore(init, picks) == MaxScore(init);
      assert forall j :: 0 <= j < |last.options| ==> OptionScore(last.options[j]) >= 0;
      BestOption(last.options);
      var best :| 0 <= best < |last.options| && OptionScore(last.options[best]) == QuestionMax(last.options);
      SelectionExtend(questions, picks, best);
      assert IsSelection(questions, picks + [best]);
    }
  }

  /** The first entry of `entries` under `id`, as a dictionary lookup. */
  function LookupIn(entries: seq<(string, Quiz)>, id: string): (r: Option<Quiz>)
    ensures r.None? <==> forall i :: 0 <= i < |entries| ==> entries[i].0 != id
    ensures r.Some? ==> exists i :: 0 <= i < |entries| && entries[i] == (id, r.value)
  {
    if |entries| == 0 then None
    else if entries[0].0 == id then Some(entries[0].1)
    else
      var r := LookupIn(entries[1..], id);
      assert forall i :: 1 <= i < |entries| ==> entries[i] == entries[1..][i - 1];
      r
  }

  /** `QUIZZES.get(quiz_id)`. */
  function Lookup(id: string): Option<Quiz>
  {
    LookupIn(Quizzes, id)
  }

  /**
   * `get_quiz_by_id`: None for an unknown id; otherwise the entry with the
   * same questions, in order, and its maximum score.
   */
  method GetQuizById(quizId: string) returns (r: Option<QuizView>)
    ensures r.None? <==> forall i :: 0 <= i < |Quizzes| ==> Quizzes[i].0 != quizId
    ensures r.Some? ==> Lookup(quizId) == Some(r.value.quiz)
    ensures r.Some? ==> r.value.maxPossibleScore == MaxScore(r.value.quiz.questions)
  {
    var quizData := Lookup(quizId);
    if quizData.Some? {
      var quizDataCopy := quizData.value.(questions := quizData.value.questions);
      var maxPossibleScore := CalculateMaxScore(quizDataCopy.questions);
      return Some(QuizView(quizDataCopy, maxPossibleScore));
    }
    return None;
  }

  /** The info entry of one catalog entry. */
  function InfoOf(entry: (string, Quiz)): QuizInfo
  {
    QuizInfo(entry.0, entry.1.name.GetOr(UnknownQuizName), MaxScore(entry.1.questions))
  }

  /**
   * `get_all_quizzes_info`: one entry per quiz in catalog order, whose
   * maximum score agrees with `get_quiz_by_id`.
   */
  method GetAllQuizzesInfo() returns (quizzesInfo: seq<QuizInfo>)
    ensures |quizzesInfo| == |Quizzes|
    ensures forall i :: 0 <= i < |Quizzes| ==> quizzesInfo[i] == InfoOf(Quizzes[i])
  {
    quizzesInfo := [];
    var i := 0;
    while i < |Quizzes|
      invariant 0 <= i <= |Quizzes|
      invariant |quizzesInfo| == i
      invariant forall j :: 0 <= j < i ==> quizzesInfo[j] == InfoOf(Quizzes[j])
    {
      var (qId, qData) := Quizzes[i];
      var maxScore := CalculateMaxScore(qData.questions);
      quizzesInfo := quizzesInfo + [QuizInfo(qId, qData.name.GetOr(UnknownQuizName), maxScore)];
      i := i + 1;
    }
  }

  /** The ids are distinct (they are dictionary keys), so each lookup finds its own entry. */
  lemma LookupFindsEachEntry()
    ensures forall i, j :: 0 <= i < j < |Quizzes| ==> Quizzes[i].0 != Quizzes[j].0
    ensures forall i :: 0 <= i < |Quizzes| ==> Lookup(Quizzes[i].0) == Some(Quizzes[i].1)
    ensures forall i :: 0 <= i < |Quizzes| ==> '_' !in Quizzes[i].0 && Quizzes[i].1.name.Some?
  {
    assert "python1"[0] != "telegram1"[0];
    assert Quizzes[0].0 != "telegram1";
    assert Quizzes[1..] == [("telegram1", Telegram1)];
    assert LookupIn(Quizzes[1..], "telegram1") == Some(Telegram1);
    assert Lookup("python1") == Some(Python1);
    assert Lookup("telegram1") == Some(Telegram1);
  }

  lemma QuestionMaxOfFour(a: QuizOption, b: QuizOption, c: QuizOption, d: QuizOption)
    ensures QuestionMax([a, b, c, d]) == Max(Max(Max(Max(0, OptionScore(a)), OptionScore(b)), OptionScore(c)), OptionScore(d))
  {
    assert [a][..0] == [];
    assert QuestionMax([a]) == Max(0, OptionScore(a));
    assert [a, b][..1] == [a];
    assert QuestionMax([a, b]) == Max(QuestionMax([a]), OptionScore(b));
    assert [a, b, c][..2] == [a, b];
    assert QuestionMax([a, b, c]) == Max(QuestionMax([a, b]), OptionScore(c));
    assert [a, b, c, d][..3] == [a, b, c];
  }

  lemma MaxScoreOfThree(p: Question, q: Question, r: Question)
    ensures MaxScore([p, q, r]) == QuestionMax(p.options) + QuestionMax(q.options) + QuestionMax(r.options)
  {
    MaxScoreOfTwo(p, q);
    assert [p, q, r][..2] == [p, q];
  }

  lemma MaxScoreOfTwo(p: Question, q: Question)
    ensures MaxScore([p, q]) == QuestionMax(p.options) + QuestionMax(q.options)
  {
    assert [p][..0] == [];
    assert MaxScore([p]) == QuestionMax(p.options);
    assert [p, q][..1] == [p];
  }

  /** The Python quiz's three questions are worth 10 points each. */
  lemma Python1MaxScore()
    ensures MaxScore(Python1.questions) == 30
  {
    var p := Python1.questions;
    QuestionMaxOfFour(p[0].options[0], p[0].options[1], p[0].options[2], p[0].options[3]);
    QuestionMaxOfFour(p[1].options[0], p[1].options[1], p[1].options[2], p[1].options[3]);
    QuestionMaxOfFour(p[2].options[0], p[2].options[1], p[2].options[2], p[2].options[3]);
    MaxScoreOfThree(p[0], p[1], p[2]);
  }

  /** The Telegram quiz's two questions are worth 10 points each. */
  lemma Telegram1MaxScore()
    ensures MaxScore(Telegram1.questions) == 20
  {
    var t := Telegram1.questions;
    QuestionMaxOfFour(t[0].options[0], t[0].options[1], t[0].options[2], t[0].options[3]);
    QuestionMaxOfFour(t[1].options[0], t[1].options[1], t[1].options[2], t[1].options[3]);
    MaxScoreOfTwo(t[0], t[1]);
  }

  /** The catalog as the selection menu sees it: 30 points for "python1", 20 for "telegram1". */
  lemma CatalogMaxScores()
    ensures InfoOf(Quizzes[0]) == QuizInfo("python1", "Основы Python (с баллами)", 30)
    ensures InfoOf(Quizzes[1]) == QuizInfo("telegram1", "Telegram Боты (с баллами)", 20)
  {
    Python1MaxScore();
    Telegram1MaxScore();
  }

  /** No option in the catalog has a negative score, so each quiz's maximum can be reached. */
  lemma CatalogScoresNonNegative()
    ensures forall i :: 0 <= i < |Quizzes| ==> NonNegativeScores(Quizzes[i].1.questions)
    ensures forall i, k :: 0 <= i < |Quizzes| && 0 <= k < |Quizzes[i].1.questions| ==> |Quizzes[i].1.questions[k].options| > 0
  {
  }

  /** Some choice of one answer per question earns the full maximum score. */
  ghost predicate MaxReachable(questions: seq<Question>)
  {
    exists picks :: IsSelection(questions, picks) && SelectionScore(questions, picks) == MaxScore(questions)
  }

  /** Every quiz of the catalog has a choice of answers that earns its full maximum score. */
  lemma CatalogMaxReachable()
    ensures forall i :: 0 <= i < |Quizzes| ==> MaxReachable(Quizzes[i].1.questions)
  {
    CatalogScoresNonNegative();
    forall i | 0 <= i < |Quizzes|
      ensures MaxReachable(Quizzes[i].1.questions)
    {
      MaxScoreAttained(Quizzes[i].1.questions);
    }
  }
}
