/**
 * The debt self-assessment quiz: seven questions with four scored options each, a
 * total-to-severity rule, and the page state (`currentQuestion`, `answers`,
 * `isCompleted`) that the answer, back, next and reset buttons update.
 */
module DebtQuiz {
  import opened Wrappers

  /** The points of each question's four options, in table order (question texts left out). */
  const QuestionPoints: seq<seq<int>> := [
    [0, 2, 4, 6],
    [0, 2, 4, 6],
    [0, 1, 3, 5],
    [0, 1, 3, 5],
    [0, 2, 4, 6],
    [0, 1, 3, 5],
    [0, 1, 3, 6]
  ]

  /** `questions.length`. */
  const QuestionCount: nat := 7

  datatype Severity = Low | Medium | High

  /** `answers.reduce((sum, points) => sum + points, 0)`. */
  function Total(answers: seq<int>): int {
    if answers == [] then 0 else Total(answers[..|answers| - 1]) + answers[|answers| - 1]
  }

  /** `calculateResult`: at most 8 points is low, at most 20 medium, anything above high. */
  function SeverityOf(total: int): (s: Severity)
    ensures s == Low <==> total <= 8
    ensures s == Medium <==> 9 <= total <= 20
    ensures s == High <==> total > 20
  {
    if total <= 8 then Low else if total <= 20 then Medium else High
  }

  function Rank(s: Severity): nat {
    match s
    case Low => 0
    case Medium => 1
    case High => 2
  }

  /** More points never give a milder result. */
  lemma SeverityMonotone(a: int, b: int)
    requires a <= b
    ensures Rank(SeverityOf(a)) <= Rank(SeverityOf(b))
  {
  }

  /** The options of question `q` that a click can submit. */
  predicate IsOption(q: nat, points: int) {
    q < |QuestionPoints| && points in QuestionPoints[q]
  }

  /** The table has seven questions; every option scores at least 0 and every question has a 0-point option. */
  lemma TableShape()
    ensures |QuestionPoints| == QuestionCount
    ensures forall q :: 0 <= q < |QuestionPoints| ==> 0 in QuestionPoints[q]
    ensures forall q, p :: IsOption(q, p) ==> 0 <= p
  {
  }

  /** The largest option of each question: 6, 6, 5, 5, 6, 5, 6. */
  function MaxPoints(q: nat): int
    requires q < |QuestionPoints|
  {
    if q in {2, 3, 5} then 5 else 6
  }

  /** An answer sequence in which entry `i` is one of question `i`'s options. */
  predicate Answered(answers: seq<int>) {
    |answers| <= QuestionCount && forall i :: 0 <= i < |answers| ==> IsOption(i, answers[i])
  }

  function MaxTotal(n: nat): int
    requires n <= QuestionCount
  {
    if n == 0 then 0 else MaxTotal(n - 1) + MaxPoints(n - 1)
  }

  /** The total of answered questions lies between 0 and the sum of their largest options. */
  lemma {:induction false} TotalBounds(answers: seq<int>)
    requires Answered(answers)
    ensures 0 <= Total(answers) <= MaxTotal(|answers|)
  {
    if answers != [] {
      var init := answers[..|answers| - 1];
      assert Answered(init) by {
        forall i | 0 <= i < |init| ensures IsOption(i, init[i]) {
          assert init[i] == answers[i];
        }
      }
      TotalBounds(init);
      assert IsOption(|answers| - 1, answers[|answers| - 1]);
    }
  }

  /** A complete quiz totals 0 to 39 points. */
  lemma CompleteTotalRange(answers: seq<int>)
    requires Answered(answers) && |answers| == QuestionCount
    ensures 0 <= Total(answers) <= 39
  {
    TotalBounds(answers);
  }

  /** What `saveQuizResults` sends: the answers, their total, and a severity. */
  datatype SavedQuiz = SavedQuiz(answers: seq<int>, totalPoints: int, severity: Severity, questionsCount: nat)

  /** The sum over a sequence with one entry replaced changes by the difference. */
  lemma {:induction false} TotalUpdate(s: seq<int>, i: nat, v: int)
    requires i < |s|
    ensures Total(s[i := v]) == Total(s) - s[i] + v
  {
    var n := |s| - 1;
    if i < n {
      assert s[i := v][..n] == s[..n][i := v];
      TotalUpdate(s[..n], i, v);
    } else {
      assert s[i := v][..n] == s[..n];
    }
  }

  lemma TotalAppend(s: seq<int>, v: int)
    ensures Total(s + [v]) == Total(s) + v
  {
    assert (s + [v])[..|s|] == s;
  }

  class Quiz {
    var currentQuestion: nat
    var answers: seq<int>
    var isCompleted: bool

    /**
     * The page can only be in these states: the current question is one of the seven, every
     * question before it has an answer, and every answer is one of its question's options;
     * once completed, all seven are answered.
     */
    ghost predicate Valid()
      reads this
    {
      && currentQuestion < QuestionCount
      && currentQuestion <= |answers|
      && Answered(answers)
      && (isCompleted ==> |answers| == QuestionCount && currentQuestion == QuestionCount - 1)
    }

    constructor ()
      ensures Valid() && currentQuestion == 0 && answers == [] && !isCompleted
    {
      currentQuestion, answers, isCompleted := 0, [], false;
    }

    /**
     * `handleAnswer(points)`, offered by the option buttons while the quiz is open. The
     * points go to index `currentQuestion`; before the last question the quiz advances,
     * on the last it completes and returns the data it saves. The saved total is that of
     * the updated answers, but the saved severity is `calculateResult()`, which reads the
     * answers as they were BEFORE this click.
     */
    method HandleAnswer(points: int) returns (saved: Option<SavedQuiz>)
      requires Valid() && !isCompleted && IsOption(currentQuestion, points)
      modifies this
      ensures Valid()
      ensures |answers| == if old(currentQuestion) < |old(answers)| then |old(answers)| else |old(answers)| + 1
      ensures answers[old(currentQuestion)] == points
      ensures forall i :: 0 <= i < |old(answers)| && i != old(currentQuestion) ==> answers[i] == old(answers)[i]
      ensures old(currentQuestion) < QuestionCount - 1 ==>
                currentQuestion == old(currentQuestion) + 1 && !isCompleted && saved == None
      ensures old(currentQuestion) == QuestionCount - 1 ==>
                currentQuestion == old(currentQuestion) && isCompleted
                && saved == Some(SavedQuiz(answers, Total(answers), SeverityOf(Total(old(answers))), QuestionCount))
    {
      var newAnswers := if currentQuestion < |answers| then answers[currentQuestion := points] else answers + [points];
      var previous := answers;
      answers := newAnswers;
      if currentQuestion < QuestionCount - 1 {
        currentQuestion := currentQuestion + 1;
        saved := None;
      } else {
        isCompleted := true;
        saved := Some(SaveQuizResults(newAnswers, previous));
      }
    }

    /** `goToPrevious`, the Back button of the open quiz: back one question, except on the first. */
    method GoToPrevious()
      requires Valid() && !isCompleted
      modifies this`currentQuestion
      ensures Valid()
      ensures currentQuestion == if old(currentQuestion) > 0 then old(currentQuestion) - 1 else old(currentQuestion)
    {
      if currentQuestion > 0 {
        currentQuestion := currentQuestion - 1;
      }
    }

    /**
     * The Next button: shown only when the current question has an answer, it moves to
     * `Math.min(currentQuestion + 1, questions.length - 1)`.
     */
    method Next()
      requires Valid() && !isCompleted
      modifies this`currentQuestion
      ensures Valid()
      ensures currentQuestion == if old(currentQuestion) < |answers| then NextIndex(old(currentQuestion)) else old(currentQuestion)
    {
      if currentQuestion < |answers| {
        currentQuestion := NextIndex(currentQuestion);
      }
    }

    /** `resetQuiz`: back to the first question with no answers. */
    method ResetQuiz()
      modifies this
      ensures Valid() && currentQuestion == 0 && answers == [] && !isCompleted
    {
      currentQuestion, answers, isCompleted := 0, [], false;
    }
  }

  /** `Math.min(q + 1, questions.length - 1)`. */
  function NextIndex(q: nat): (r: nat)
    requires q < QuestionCount
    ensures r < QuestionCount
    ensures q < QuestionCount - 1 ==> r == q + 1
    ensures q == QuestionCount - 1 ==> r == q
  {
    if q + 1 < QuestionCount - 1 then q + 1 else QuestionCount - 1
  }

  /**
   * `saveQuizResults(answersData)` as written: the total is taken over `answersData`, the
   * severity over `stale`, the render's `answers` from before the click.
   */
  function SaveQuizResults(answersData: seq<int>, stale: seq<int>): (r: SavedQuiz)
    ensures r.answers == answersData && r.totalPoints == Total(answersData)
    ensures r.severity == SeverityOf(Total(stale)) && r.questionsCount == QuestionCount
  {
    SavedQuiz(answersData, Total(answersData), SeverityOf(Total(stale)), QuestionCount)
  }

  /**
   * The stale severity is observable: six answers worth 8 points (low) followed by a
   * 6-point last answer total 14 (medium), yet the saved severity is low.
   */
  lemma StaleSeverityDiffers()
    ensures var before := [2, 2, 1, 1, 2, 0];
            var after := before + [6];
            Answered(after) && Total(after) == 14 && SeverityOf(Total(after)) == Medium
            && SaveQuizResults(after, before).severity == Low
  {
    var before := [2, 2, 1, 1, 2, 0];
    SampleTotal();
    TotalAppend(before, 6);
    SampleAnswered();
  }

  lemma SampleTotal()
    ensures Total([2, 2, 1, 1, 2, 0]) == 8
  {
    TotalAppend([], 2);
    assert [] + [2] == [2];
    TotalAppend([2], 2);
    assert [2] + [2] == [2, 2];
    TotalAppend([2, 2], 1);
    assert [2, 2] + [1] == [2, 2, 1];
    TotalAppend([2, 2, 1], 1);
    assert [2, 2, 1] + [1] == [2, 2, 1, 1];
    TotalAppend([2, 2, 1, 1], 2);
    assert [2, 2, 1, 1] + [2] == [2, 2, 1, 1, 2];
    TotalAppend([2, 2, 1, 1, 2], 0);
    assert [2, 2, 1, 1, 2] + [0] == [2, 2, 1, 1, 2, 0];
  }

  lemma SampleAnswered()
    ensures Answered([2, 2, 1, 1, 2, 0] + [6])
  {
    var after := [2, 2, 1, 1, 2, 0] + [6];
    assert after == [2, 2, 1, 1, 2, 0, 6];
    assert IsOption(0, 2) && IsOption(1, 2) && IsOption(2, 1) && IsOption(3, 1);
    assert IsOption(4, 2) && IsOption(5, 0) && IsOption(6, 6);
  }
}
