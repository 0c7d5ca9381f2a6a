/** Level 5, the final quiz: five questions of three options each, one answer per
    question, and a score of 20 points per correct answer. */
module Level5 {
  import opened Common

  /** The index of the correct option of each question, in order. */
  const AnswerKey: seq<nat> := [0, 1, 1, 2, 0]
  const QuestionCount := 5
  const OptionCount := 3

  /** How many of the chosen options, one per question in order, are correct. */
  function CountCorrect(picks: seq<nat>): (n: nat)
    requires |picks| <= QuestionCount
    ensures n <= |picks|
  {
    if picks == [] then 0
    else CountCorrect(picks[..|picks| - 1]) + (if picks[|picks| - 1] == AnswerKey[|picks| - 1] then 1 else 0)
  }

  /** The final score: the share of correct answers as a rounded percentage. */
  function FinalScore(correct: int): (r: int)
    ensures r == 20 * correct
  {
    Percent(correct, QuestionCount)
  }

  /** Every answer counts once: the count reaches the number of answers exactly
      when each chosen option is the key of its question. */
  lemma {:induction false} AllCorrectIffPerfect(picks: seq<nat>)
    requires |picks| <= QuestionCount
    ensures CountCorrect(picks) == |picks| <==> forall i :: 0 <= i < |picks| ==> picks[i] == AnswerKey[i]
  {
    if picks != [] {
      var front := picks[..|picks| - 1];
      AllCorrectIffPerfect(front);
      assert forall i :: 0 <= i < |front| ==> front[i] == picks[i];
    }
  }

  /** The final score of a quiz lies between 0 and 100, and is 100 exactly for a
      perfect quiz. */
  lemma FinalScoreBounds(picks: seq<nat>)
    requires |picks| == QuestionCount
    ensures 0 <= FinalScore(CountCorrect(picks)) <= 100
    ensures FinalScore(CountCorrect(picks)) == 100 <==> picks == AnswerKey
  {
    AllCorrectIffPerfect(picks);
    if FinalScore(CountCorrect(picks)) == 100 {
      assert forall i :: 0 <= i < |picks| ==> picks[i] == AnswerKey[i];
    }
  }

  /** Answering every question correctly scores 100; answering three of five
      correctly scores 60. */
  lemma QuizScores()
    ensures CountCorrect(AnswerKey) == 5 && FinalScore(CountCorrect(AnswerKey)) == 100
    ensures CountCorrect([0, 1, 1, 0, 1]) == 3 && FinalScore(CountCorrect([0, 1, 1, 0, 1])) == 60
  {
    assert [0, 1][..1] == [0];
    assert [0, 1, 1][..2] == [0, 1];
    assert [0, 1, 1, 2][..3] == [0, 1, 1];
    assert [0, 1, 1, 2, 0][..4] == [0, 1, 1, 2];
    assert [0, 1, 1, 0][..3] == [0, 1, 1];
    assert [0, 1, 1, 0, 1][..4] == [0, 1, 1, 0];
  }

  class Level5 {
    var currentQuestion: nat
    var score: nat
    var answered: bool
    var gameCompleted: bool
    /** The options chosen so far, one per answered question. */
    ghost var picks: seq<nat>

    ghost predicate Valid()
      reads this
    {
      && currentQuestion < QuestionCount
      && |picks| == currentQuestion + (if answered then 1 else 0)
      && score == CountCorrect(picks)
      && (gameCompleted ==> answered && currentQuestion == QuestionCount - 1)
    }

    constructor ()
      ensures Valid()
      ensures currentQuestion == 0 && score == 0 && !answered && !gameCompleted
    {
      currentQuestion, score, answered, gameCompleted := 0, 0, false, false;
      picks := [];
    }

    /** Choosing option `selected`: ignored once the question is answered; otherwise
        it locks the question and scores one point exactly when it is the key. */
    method SelectOption(selected: nat)
      requires Valid() && selected < OptionCount
      modifies this
      ensures Valid()
      ensures old(answered) ==> (score == old(score) && answered && picks == old(picks)
        && currentQuestion == old(currentQuestion) && gameCompleted == old(gameCompleted))
      ensures !old(answered) ==> (answered && picks == old(picks) + [selected]
        && currentQuestion == old(currentQuestion) && gameCompleted == old(gameCompleted)
        && score == old(score) + (if selected == AnswerKey[currentQuestion] then 1 else 0))
      ensures score <= currentQuestion + 1
    {
      if answered {
        return;
      }
      if selected == AnswerKey[currentQuestion] {
        score := score + 1;
      }
      answered := true;
      picks := picks + [selected];
      assert picks[..|picks| - 1] == old(picks);
    }

    /** "Next question" (offered only once the question is answered): moves on, or
        after the last question ends the quiz and emits the completion. */
    method NextQuestion() returns (event: Option<Completion>)
      requires Valid() && answered && !gameCompleted
      modifies this
      ensures Valid() && score == old(score) && picks == old(picks)
      ensures old(currentQuestion) + 1 < QuestionCount ==> (currentQuestion == old(currentQuestion) + 1
        && !answered && !gameCompleted && event == None)
      ensures old(currentQuestion) + 1 >= QuestionCount ==> (currentQuestion == old(currentQuestion)
        && gameCompleted && event == Some(Completion(5, FinalScore(CountCorrect(picks)))))
    {
      if currentQuestion + 1 < QuestionCount {
        currentQuestion := currentQuestion + 1;
        answered := false;
        event := None;
      } else {
        gameCompleted := true;
        event := Some(Completion(5, FinalScore(score)));
      }
    }

    method RestartGame()
      modifies this
      ensures Valid()
      ensures currentQuestion == 0 && score == 0 && !answered && !gameCompleted
    {
      currentQuestion, score, answered, gameCompleted := 0, 0, false, false;
      picks := [];
    }
  }
}
