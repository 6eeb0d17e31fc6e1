/**
 * The quiz component's state: the three state variables become fields that
 * the handlers update in place, synchronously.
 */
module MindsetApp {
  import opened QuestionBank
  import Scoring
  import opened QuizFlow

  class MindsetQuiz {
    var currentQuestion: int
    var answers: map<int, int>
    var quizState: QuizState

    /** The fields as one session value. */
    function Snapshot(): Session
      reads this
    {
      Session(quizState, currentQuestion, answers)
    }

    ghost predicate Valid()
      reads this
    {
      Inv(Snapshot())
    }

    /** Initial state: intro screen, first question, no answers. */
    constructor ()
      ensures Valid()
      ensures Snapshot() == InitialSession()
    {
      currentQuestion := 0;
      answers := map[];
      quizState := Intro;
    }

    /** The total score shown on the summary screen. */
    function CalculateScore(): (total: int)
      reads this
      requires Valid()
      ensures total == Scoring.Total(answers)
      ensures 0 <= total <= MAX_POINTS * |QUESTIONS|
    {
      SessionTotalBounds(Snapshot());
      Scoring.Total(answers)
    }

    /** The band shown on the summary screen, from the total score. */
    function Profile(): (c: Scoring.Category)
      reads this
      requires Valid()
      ensures c == Scoring.CATEGORIES[Scoring.ThresholdsMet(CalculateScore(), Scoring.THRESHOLDS)]
    {
      Scoring.CategoryByThresholds(CalculateScore());
      Scoring.GetScoreCategory(CalculateScore())
    }

    /** Start (or restart) the quiz, discarding any previous answers. */
    method StartQuiz()
      modifies this
      ensures Valid()
      ensures Snapshot() == QuizFlow.StartQuiz(old(Snapshot()))
      ensures quizState == Quiz && currentQuestion == 0 && answers == map[]
    {
      quizState := Quiz;
      currentQuestion := 0;
      answers := map[];
    }

    /**
     * Record the raw score of the current question's chosen option, then
     * advance to the next question or to the summary screen.
     */
    method HandleAnswer(score: int)
      requires Valid() && quizState == Quiz
      requires 0 <= score <= MAX_POINTS
      modifies this
      ensures Valid()
      ensures Snapshot() == QuizFlow.HandleAnswer(old(Snapshot()), score)
      ensures answers == old(answers)[QUESTIONS[old(currentQuestion)].id :=
                ActualScore(QUESTIONS[old(currentQuestion)], score)]
      ensures Scoring.Total(answers) == old(Scoring.Total(answers)) + ActualScore(QUESTIONS[old(currentQuestion)], score)
      ensures old(currentQuestion) < |QUESTIONS| - 1 ==> quizState == Quiz && currentQuestion == old(currentQuestion) + 1
      ensures old(currentQuestion) == |QUESTIONS| - 1 ==> quizState == Summary && currentQuestion == old(currentQuestion)
    {
      ghost var before := Snapshot();
      HandleAnswerStep(before, score);
      var question := QUESTIONS[currentQuestion];
      var actualScore := ActualScore(question, score);
      answers := answers[question.id := actualScore];
      if currentQuestion < |QUESTIONS| - 1 {
        currentQuestion := currentQuestion + 1;
      } else {
        quizState := Summary;
      }
      assert Snapshot() == QuizFlow.HandleAnswer(before, score);
    }

    /** A click on the option button at index `i` answers with raw score 3 - i. */
    method SelectOption(i: int)
      requires Valid() && quizState == Quiz
      requires 0 <= i < |OPTIONS|
      modifies this
      ensures Valid()
      ensures Snapshot() == QuizFlow.HandleAnswer(old(Snapshot()), OptionScore(i))
    {
      HandleAnswer(OptionScore(i));
    }
  }
}
