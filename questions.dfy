/**
 * The fixed question bank of the mindset quiz and the rule that turns the
 * option a respondent picks into the score stored for that question.
 */
module QuestionBank {

  /** One Likert-style statement; `reverse` marks a fixed-mindset phrasing. */
  datatype Question = Question(text: string, id: int, reverse: bool)

  /** The ten statements, in presentation order. */
  const QUESTIONS: seq<Question> := [
    Question("Your intelligence is something very basic about you that you can't change very much", 1, true),
    Question("No matter how much intelligence you have, you can always change it quite a bit", 2, false),
    Question("Only a few people will be truly good at sports, you have to be born with the ability", 3, true),
    Question("The harder you work at something, the better you will be", 4, false),
    Question("I often get angry when I get feedback about my performance", 5, true),
    Question("I appreciate when people, parents, coaches or teachers give me feedback about my performance", 6, false),
    Question("Truly smart people do not need to try hard", 7, true),
    Question("You can always change how intelligent you are", 8, false),
    Question("You are a certain kind of person and there is not much that can be done to really change that", 9, true),
    Question("An important reason why I do my school work is that I enjoy learning new things", 10, false)
  ]

  /** The answer buttons, in the order they are shown. */
  const OPTIONS: seq<string> := ["Strongly Agree", "Agree", "Disagree", "Strongly Disagree"]

  /** Highest raw score any option yields; also the pivot of reverse coding. */
  const MAX_POINTS: int := 3

  /**
   * The bank has ten questions, numbered 1 to 10 in order, and the odd
   * numbered ones are the reverse-coded statements.
   */
  lemma BankShape()
    ensures |QUESTIONS| == 10
    ensures forall j :: 0 <= j < |QUESTIONS| ==> QUESTIONS[j].id == j + 1
    ensures forall j :: 0 <= j < |QUESTIONS| ==> (QUESTIONS[j].reverse <==> j % 2 == 0)
  {
  }

  /** Raw score of the option at index `i`: the first option is worth the most. */
  function OptionScore(i: int): (raw: int)
    requires 0 <= i < |OPTIONS|
    ensures 0 <= raw <= MAX_POINTS
  {
    MAX_POINTS - i
  }

  /**
   * The options map one-to-one onto the raw scores 0..3, in strictly
   * decreasing order: "Strongly Agree" is 3 and "Strongly Disagree" is 0.
   */
  lemma OptionScoreOrder(i: int, j: int)
    requires 0 <= i < j < |OPTIONS|
    ensures OptionScore(i) > OptionScore(j)
    ensures OptionScore(0) == 3 && OptionScore(|OPTIONS| - 1) == 0
  {
  }

  lemma OptionScoreOnto(raw: int)
    requires 0 <= raw <= MAX_POINTS
    ensures exists i :: 0 <= i < |OPTIONS| && OptionScore(i) == raw
  {
    assert OptionScore(MAX_POINTS - raw) == raw;
  }

  /** The score stored for question `q` when the respondent's raw score is `raw`. */
  function ActualScore(q: Question, raw: int): (stored: int)
    ensures 0 <= raw <= MAX_POINTS ==> 0 <= stored <= MAX_POINTS
    ensures q.reverse ==> stored + raw == MAX_POINTS
    ensures !q.reverse ==> stored == raw
  {
    if q.reverse then MAX_POINTS - raw else raw
  }

  /** Reverse coding undoes itself: applying it twice gives back the raw score. */
  lemma ActualScoreInvolution(q: Question, raw: int)
    ensures ActualScore(q, ActualScore(q, raw)) == raw
  {
  }

  /**
   * What picking option `i` stores: agreement earns points on a forward item,
   * disagreement on a reverse one (a reverse item stores the option index itself).
   */
  lemma StoredScoreOfOption(q: Question, i: int)
    requires 0 <= i < |OPTIONS|
    ensures ActualScore(q, OptionScore(i)) == if q.reverse then i else MAX_POINTS - i
  {
  }
}
