/**
 * The total of a set of answers and its classification into one of four
 * mindset bands.
 */
module Scoring {

  /** A non-empty set of ids has a member. */
  lemma HasMember(keys: set<int>)
    requires keys != {}
    ensures exists x :: x in keys
  {
    if forall x :: x !in keys {
      assert false;
    }
  }

  lemma {:induction false} MinKeyExists(keys: set<int>)
    requires keys != {}
    ensures exists k :: k in keys && forall j :: j in keys ==> k <= j
    decreases keys
  {
    HasMember(keys);
    var x :| x in keys;
    if keys != {x} {
      var rest := keys - {x};
      MinKeyExists(rest);
      var m :| m in rest && forall j :: j in rest ==> m <= j;
      var least := if x < m then x else m;
      forall j | j in keys
        ensures least <= j
      {
        if j != x {
          assert j in rest;
        }
      }
    }
  }

  /** The smallest answered id; integer keys are listed in ascending order. */
  function MinKey(answers: map<int, int>): (k: int)
    requires answers.Keys != {}
    ensures k in answers && forall j :: j in answers ==> k <= j
  {
    MinKeyExists(answers.Keys);
    var k :| k in answers && forall j :: j in answers ==> k <= j;
    k
  }

  /** Sum of every stored answer, accumulated key by key in ascending id order. */
  function Total(answers: map<int, int>): (total: int)
    ensures answers == map[] ==> total == 0
    decreases answers.Keys
  {
    if answers.Keys == {} then 0
    else
      var k := MinKey(answers);
      answers[k] + Total(answers - {k})
  }

  /**
   * The order of accumulation does not matter: any answered id can be taken
   * out first.
   */
  lemma {:induction false} TotalRemove(answers: map<int, int>, k: int)
    requires k in answers
    ensures Total(answers) == answers[k] + Total(answers - {k})
    decreases answers.Keys
  {
    var first := MinKey(answers);
    if first != k {
      var rest := answers - {first};
      TotalRemove(rest, k);
      TotalRemove(answers - {k}, first);
      assert rest - {k} == (answers - {k}) - {first};
    }
  }

  /** Recording an answer for a fresh id adds exactly that answer to the total. */
  lemma TotalInsert(answers: map<int, int>, k: int, v: int)
    requires k !in answers
    ensures Total(answers[k := v]) == Total(answers) + v
  {
    TotalRemove(answers[k := v], k);
    assert answers[k := v] - {k} == answers;
  }

  /** Answers that are each worth 0..3 points total between 0 and 3 points per answer. */
  lemma {:induction false} TotalBounds(answers: map<int, int>)
    requires forall k :: k in answers ==> 0 <= answers[k] <= 3
    ensures 0 <= Total(answers) <= 3 * |answers|
    decreases answers.Keys
  {
    if answers.Keys != {} {
      var k := MinKey(answers);
      var rest := answers - {k};
      TotalBounds(rest);
      assert rest.Keys == answers.Keys - {k};
      assert |rest| == |answers| - 1;
    }
  }

  /** The label and the one-sentence description shown on the summary screen. */
  datatype Category = Category(text: string, description: string)

  const STRONG_FIXED: Category :=
    Category("Strong fixed mindset", "You tend to see abilities as fixed rather than growable.")
  const FIXED_SOME_GROWTH: Category :=
    Category("Fixed with some growth ideas", "You have some growth mindset ideas, but tend towards fixed thinking.")
  const GROWTH_SOME_FIXED: Category :=
    Category("Growth with some Fixed ideas", "You generally believe in growth, but have some fixed mindset tendencies.")
  const STRONG_GROWTH: Category :=
    Category("Strong Growth Mindset", "You strongly believe in the power of effort and growth!")

  /** The four bands from most fixed to most growth-oriented. */
  const CATEGORIES: seq<Category> := [STRONG_FIXED, FIXED_SOME_GROWTH, GROWTH_SOME_FIXED, STRONG_GROWTH]

  /** Lowest score of each band above the first, ascending. */
  const THRESHOLDS: seq<int> := [11, 17, 22]

  /** The band of a total score; defined for every integer. */
  function GetScoreCategory(score: int): (c: Category)
    ensures c in CATEGORIES
  {
    if score >= 22 then STRONG_GROWTH
    else if score >= 17 then GROWTH_SOME_FIXED
    else if score >= 11 then FIXED_SOME_GROWTH
    else STRONG_FIXED
  }

  /** How many of the thresholds `ts` the score reaches. */
  function ThresholdsMet(score: int, ts: seq<int>): (n: nat)
    ensures n <= |ts|
  {
    if ts == [] then 0
    else (if ts[0] <= score then 1 else 0) + ThresholdsMet(score, ts[1..])
  }

  /** A higher score never reaches fewer thresholds. */
  lemma {:induction false} ThresholdsMetMonotone(s: int, t: int, ts: seq<int>)
    requires s <= t
    ensures ThresholdsMet(s, ts) <= ThresholdsMet(t, ts)
  {
    if ts != [] {
      ThresholdsMetMonotone(s, t, ts[1..]);
    }
  }

  /**
   * Reference definition of the ladder: the band of a score is the one whose
   * position is the number of thresholds the score reaches.
   */
  lemma CategoryByThresholds(score: int)
    ensures GetScoreCategory(score) == CATEGORIES[ThresholdsMet(score, THRESHOLDS)]
  {
    var last := THRESHOLDS[1..][1..];
    assert last == [22] && last[1..] == [];
    assert ThresholdsMet(score, last) == if score >= 22 then 1 else 0;
  }

  /** The four bands are distinct, so a category identifies its band. */
  lemma CategoriesDistinct()
    ensures forall i, j :: 0 <= i < j < |CATEGORIES| ==> CATEGORIES[i].text != CATEGORIES[j].text
  {
  }

  /** Each band holds exactly the scores of its interval, both ways. */
  lemma CategoryBands(score: int)
    ensures GetScoreCategory(score) == STRONG_GROWTH <==> score >= 22
    ensures GetScoreCategory(score) == GROWTH_SOME_FIXED <==> 17 <= score < 22
    ensures GetScoreCategory(score) == FIXED_SOME_GROWTH <==> 11 <= score < 17
    ensures GetScoreCategory(score) == STRONG_FIXED <==> score < 11
  {
    CategoriesDistinct();
  }

  /** A higher score never lands in a more fixed band. */
  lemma CategoryMonotone(s: int, t: int)
    requires s <= t
    ensures exists i, j ::
      (0 <= i <= j < |CATEGORIES| && GetScoreCategory(s) == CATEGORIES[i] && GetScoreCategory(t) == CATEGORIES[j])
  {
    CategoryByThresholds(s);
    CategoryByThresholds(t);
    ThresholdsMetMonotone(s, t, THRESHOLDS);
    var i, j := ThresholdsMet(s, THRESHOLDS), ThresholdsMet(t, THRESHOLDS);
    assert GetScoreCategory(s) == CATEGORIES[i] && GetScoreCategory(t) == CATEGORIES[j];
  }
}
