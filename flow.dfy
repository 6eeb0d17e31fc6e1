/**
 * The quiz session as a value: the three screens, the position in the
 * question bank and the answers recorded so far, with the two transitions
 * the respondent can trigger.
 */
module QuizFlow {
  import opened QuestionBank
  import Scoring

  datatype QuizState = Intro | Quiz | Summary

  datatype Session = Session(quizState: QuizState, currentQuestion: int, answers: map<int, int>)

  /** The session before the respondent begins: intro screen, nothing answered. */
  function InitialSession(): (s: Session)
    ensures Inv(s) && s.quizState == Intro && s.answers == map[]
  {
    Session(Intro, 0, map[])
  }

  /** Ids of the first `n` questions: 1..n. */
  ghost function IdsUpTo(n: int): (ids: set<int>)
    ensures forall id :: id in ids <==> 1 <= id <= n
  {
    if n <= 0 then {} else IdsUpTo(n - 1) + {n}
  }

  lemma {:induction false} IdsUpToSize(n: nat)
    ensures |IdsUpTo(n)| == n
  {
    if n > 0 {
      IdsUpToSize(n - 1);
    }
  }

  /**
   * What holds of every session the quiz can reach: the index stays on a
   * question, every stored score is 0..3, the questions before the current
   * one (all of them on the summary screen) are answered and no others.
   */
  ghost predicate Inv(s: Session)
  {
    && 0 <= s.currentQuestion < |QUESTIONS|
    && (forall id :: id in s.answers ==> 0 <= s.answers[id] <= MAX_POINTS)
    && match s.quizState
       case Intro => s.currentQuestion == 0 && s.answers == map[]
       case Quiz => s.answers.Keys == IdsUpTo(s.currentQuestion)
       case Summary => s.currentQuestion == |QUESTIONS| - 1 && s.answers.Keys == IdsUpTo(|QUESTIONS|)
  }

  /** Begin (or begin again): the prior session, whatever it was, is discarded. */
  function StartQuiz(s: Session): (t: Session)
    ensures Inv(t)
  {
    Session(Quiz, 0, map[])
  }

  /**
   * Record the answer to the current question under its id, then move on to
   * the next question or, after the last one, to the summary screen.
   */
  function HandleAnswer(s: Session, score: int): (t: Session)
    requires s.quizState == Quiz && 0 <= s.currentQuestion < |QUESTIONS|
    ensures t.answers.Keys == s.answers.Keys + {QUESTIONS[s.currentQuestion].id}
    ensures t.answers[QUESTIONS[s.currentQuestion].id] == ActualScore(QUESTIONS[s.currentQuestion], score)
    ensures forall id :: id in s.answers && id != QUESTIONS[s.currentQuestion].id ==> t.answers[id] == s.answers[id]
    ensures s.currentQuestion < |QUESTIONS| - 1 ==> t.quizState == Quiz && t.currentQuestion == s.currentQuestion + 1
    ensures s.currentQuestion == |QUESTIONS| - 1 ==> t.quizState == Summary && t.currentQuestion == s.currentQuestion
  {
    var question := QUESTIONS[s.currentQuestion];
    var answers := s.answers[question.id := ActualScore(question, score)];
    if s.currentQuestion < |QUESTIONS| - 1 then
      Session(Quiz, s.currentQuestion + 1, answers)
    else
      Session(Summary, s.currentQuestion, answers)
  }

  /** Starting ignores the prior session, so starting twice is starting once. */
  lemma StartQuizIdempotent(s: Session, other: Session)
    ensures StartQuiz(StartQuiz(s)) == StartQuiz(s)
    ensures StartQuiz(s) == StartQuiz(other)
    ensures StartQuiz(s).quizState == Quiz && StartQuiz(s).answers == map[] && StartQuiz(s).currentQuestion == 0
  {
  }

  /**
   * An answer of 0..3 keeps the invariant, adds exactly one new entry and
   * adds exactly the stored score to the running total.
   */
  lemma HandleAnswerStep(s: Session, score: int)
    requires Inv(s) && s.quizState == Quiz
    requires 0 <= score <= MAX_POINTS
    ensures Inv(HandleAnswer(s, score))
    ensures QUESTIONS[s.currentQuestion].id !in s.answers
    ensures |HandleAnswer(s, score).answers| == |s.answers| + 1
    ensures Scoring.Total(HandleAnswer(s, score).answers)
         == Scoring.Total(s.answers) + ActualScore(QUESTIONS[s.currentQuestion], score)
  {
    BankShape();
    var q := QUESTIONS[s.currentQuestion];
    var t := HandleAnswer(s, score);
    assert q.id == s.currentQuestion + 1;
    assert t.answers == s.answers[q.id := ActualScore(q, score)];
    assert t.answers.Keys == IdsUpTo(s.currentQuestion + 1);
    Scoring.TotalInsert(s.answers, q.id, ActualScore(q, score));
  }

  /** While the quiz is in progress, one answer is stored per question already passed. */
  lemma QuizAnswerCount(s: Session)
    requires Inv(s) && s.quizState == Quiz
    ensures |s.answers| == s.currentQuestion
  {
    IdsUpToSize(s.currentQuestion);
  }

  /** In every reachable session the total is between 0 and 30. */
  lemma SessionTotalBounds(s: Session)
    requires Inv(s)
    ensures |s.answers| <= |QUESTIONS|
    ensures 0 <= Scoring.Total(s.answers) <= MAX_POINTS * |QUESTIONS|
  {
    BankShape();
    var answered := if s.quizState == Summary then |QUESTIONS| else s.currentQuestion;
    IdsUpToSize(answered);
    assert s.answers.Keys == IdsUpTo(answered);
    Scoring.TotalBounds(s.answers);
  }

  /** The session after starting and then answering `scores` in order. */
  function Play(scores: seq<int>): (s: Session)
    requires |scores| <= |QUESTIONS|
    ensures |scores| < |QUESTIONS| ==> s.quizState == Quiz && s.currentQuestion == |scores|
    ensures |scores| == |QUESTIONS| ==> s.quizState == Summary && s.currentQuestion == |QUESTIONS| - 1
  {
    if scores == [] then StartQuiz(InitialSession())
    else HandleAnswer(Play(scores[..|scores| - 1]), scores[|scores| - 1])
  }

  /**
   * Reference for the answers after a run: id i + 1 holds the reverse-coded
   * score of the i-th raw score, for each question answered.
   */
  function Recorded(scores: seq<int>): (answers: map<int, int>)
    requires |scores| <= |QUESTIONS|
    ensures forall id :: id in answers <==> 1 <= id <= |scores|
  {
    if scores == [] then map[]
    else
      var k := |scores| - 1;
      Recorded(scores[..k])[k + 1 := ActualScore(QUESTIONS[k], scores[k])]
  }

  /** Sum of the stored scores for the raw scores given to the first questions. */
  function StoredTotal(scores: seq<int>): int
    requires |scores| <= |QUESTIONS|
  {
    if scores == [] then 0
    else StoredTotal(scores[..|scores| - 1]) + ActualScore(QUESTIONS[|scores| - 1], scores[|scores| - 1])
  }

  /** Each answered question's entry is its reverse-coded raw score. */
  lemma {:induction false} RecordedEntries(scores: seq<int>)
    requires |scores| <= |QUESTIONS|
    ensures forall i :: 0 <= i < |scores| ==> Recorded(scores)[i + 1] == ActualScore(QUESTIONS[i], scores[i])
  {
    if scores != [] {
      var k := |scores| - 1;
      var prefix := scores[..k];
      RecordedEntries(prefix);
      forall i | 0 <= i < k
        ensures Recorded(scores)[i + 1] == ActualScore(QUESTIONS[i], scores[i])
      {
        assert prefix[i] == scores[i];
      }
    }
  }

  /** The total of the recorded answers is the sum of the stored scores. */
  lemma {:induction false} RecordedTotal(scores: seq<int>)
    requires |scores| <= |QUESTIONS|
    ensures Scoring.Total(Recorded(scores)) == StoredTotal(scores)
  {
    if scores != [] {
      var k := |scores| - 1;
      RecordedTotal(scores[..k]);
      Scoring.TotalInsert(Recorded(scores[..k]), k + 1, ActualScore(QUESTIONS[k], scores[k]));
    }
  }

  /** After k answers from a fresh start the answers are exactly the recorded ones. */
  lemma {:induction false} PlayRecords(scores: seq<int>)
    requires |scores| <= |QUESTIONS|
    requires forall i :: 0 <= i < |scores| ==> 0 <= scores[i] <= MAX_POINTS
    ensures Inv(Play(scores))
    ensures Play(scores).answers == Recorded(scores)
  {
    if scores != [] {
      var k := |scores| - 1;
      var prefix := scores[..k];
      assert forall i :: 0 <= i < k ==> prefix[i] == scores[i];
      PlayRecords(prefix);
      var before := Play(prefix);
      assert Play(scores) == HandleAnswer(before, scores[k]);
      HandleAnswerStep(before, scores[k]);
      assert QUESTIONS[k].id == k + 1 by { BankShape(); }
    }
  }

  /**
   * After k answers from a fresh start, exactly the ids 1..k are answered,
   * each with its reverse-coded score; the total is the sum of those scores
   * and lies in 0..3k; the summary screen is reached exactly at k = 10.
   */
  lemma PlayFromStart(scores: seq<int>)
    requires |scores| <= |QUESTIONS|
    requires forall i :: 0 <= i < |scores| ==> 0 <= scores[i] <= MAX_POINTS
    ensures Inv(Play(scores))
    ensures Play(scores).answers.Keys == IdsUpTo(|scores|) && |Play(scores).answers| == |scores|
    ensures forall i :: 0 <= i < |scores| ==> Play(scores).answers[i + 1] == ActualScore(QUESTIONS[i], scores[i])
    ensures Scoring.Total(Play(scores).answers) == StoredTotal(scores)
    ensures Play(scores).quizState == Summary <==> |scores| == |QUESTIONS|
    ensures 0 <= Scoring.Total(Play(scores).answers) <= MAX_POINTS * |scores|
  {
    PlayRecords(scores);
    RecordedEntries(scores);
    RecordedTotal(scores);
    IdsUpToSize(|scores|);
    assert Play(scores).answers.Keys == IdsUpTo(|scores|);
    Scoring.TotalBounds(Play(scores).answers);
  }
}
