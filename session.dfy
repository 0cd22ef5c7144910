/** The quiz's session state: the four session fields, the per-question
    "submitted" flags, and the four buttons that change them. Each method is
    guarded by the condition under which the page shows its button. */
module Session {
  import opened Catalog
  import opened Sampling
  import opened Quiz

  /** `generate_quiz(6)`: the size of every quiz. */
  const QuizLength: nat := 6

  class QuizSession {
    var active: bool              // quiz_active
    var questions: seq<Question>  // quiz_questions
    var index: nat                // current_question_index
    var score: nat                // quiz_score
    var submitted: set<nat>       // the indices idx with a submitted_{idx} key

    /** The states the buttons can reach: an inactive session is empty, an
        active one holds a full quiz of well-formed questions, the index never
        passes the end, and only the current question can be flagged. */
    ghost predicate Valid()
      reads this
    {
      && index <= |questions|
      && submitted <= {index}
      && (forall i :: 0 <= i < |questions| ==> WellFormed(questions[i]))
      && (active ==> |questions| == QuizLength)
      && (!active ==> questions == [] && index == 0 && score == 0 && submitted == {})
    }

    /** All questions have been answered: the "Quiz Completed!" view. */
    predicate Completed()
      reads this
    {
      active && index >= |questions|
    }

    /** "Your final score is: score out of total". The completed view is only
        reached with the index exactly at the end of a full quiz. */
    function Summary(): (r: (nat, nat))
      reads this
      requires Valid() && Completed()
      ensures r.0 == score && r.1 == |questions|
      ensures r.1 == index == QuizLength
    {
      var total: nat := |questions|;
      (score, total)
    }

    /** The defaults a new session starts from. */
    constructor ()
      ensures Valid()
      ensures !active && questions == [] && index == 0 && score == 0 && submitted == {}
    {
      active := false;
      questions := [];
      index := 0;
      score := 0;
      submitted := {};
    }

    /** "Start Quiz", offered while no quiz is active. */
    method Start(rounds: seq<Round>)
      requires Valid() && !active
      requires |rounds| == QuizLength && ValidRounds(Solids, rounds)
      modifies this
      ensures Valid()
      ensures active && index == 0 && score == 0 && submitted == {}
      ensures questions == Questions(Solids, rounds)
      ensures forall i :: 0 <= i < |questions| ==> |questions[i].options| == SampleSize + 1
    {
      questions := GenerateQuiz(Solids, QuizLength, rounds);
      forall i | 0 <= i < |questions| ensures |questions[i].options| == SampleSize + 1 {
        CatalogFourOptions(rounds[i]);
      }
      active := true;
      index := 0;
      score := 0;
    }

    /** "Submit Answer" on the current question with the option `selected`;
        `correct` says whether "Correct!" is shown. Nothing stops a second
        submission of the same question. */
    method Submit(selected: string) returns (correct: bool)
      requires Valid() && active && index < |questions|
      modifies this
      ensures Valid()
      ensures active && questions == old(questions) && index == old(index)
      ensures correct <==> selected == Show(questions[index].answer)
      ensures score == old(score) + (if correct then 1 else 0)
      ensures submitted == old(submitted) + {index}
    {
      correct := selected == Show(questions[index].answer);
      if correct {
        score := score + 1;
      }
      submitted := submitted + {index};
    }

    /** "Next Question", offered once the current question was submitted. */
    method Next()
      requires Valid() && active && index < |questions| && index in submitted
      modifies this
      ensures Valid()
      ensures index == old(index) + 1
      ensures submitted == old(submitted) - {old(index)} && submitted == {}
      ensures active && questions == old(questions) && score == old(score)
    {
      submitted := submitted - {index};
      index := index + 1;
    }

    /** "Restart Quiz", offered in the completed view. */
    method Restart()
      requires Valid() && Completed()
      modifies this
      ensures Valid()
      ensures !active && questions == [] && index == 0 && score == 0 && submitted == {}
    {
      active := false;
      questions := [];
      index := 0;
      score := 0;
      // Remove every submitted_ flag, from a snapshot of the keys.
      var keys := submitted;
      while keys != {}
        invariant submitted == keys
        invariant !active && questions == [] && index == 0 && score == 0
        decreases keys
      {
        var key :| key in keys;
        submitted := submitted - {key};
        keys := keys - {key};
      }
    }
  }

  /** How many of the `answers` are right for `qs`, question by question. */
  function CorrectCount(qs: seq<Question>, answers: seq<string>): (n: nat)
    requires |answers| == |qs|
    ensures n <= |qs|
  {
    if qs == [] then 0
    else CorrectCount(qs[..|qs| - 1], answers[..|qs| - 1]) +
         (if answers[|qs| - 1] == Show(qs[|qs| - 1].answer) then 1 else 0)
  }

  /** A player who submits each question once and then presses "Next"
      reaches the completed view exactly at the end of the quiz, with one
      point per right answer. */
  method PlayThrough(s: QuizSession, answers: seq<string>)
    requires s.Valid() && s.active && s.index == 0 && s.score == 0 && s.submitted == {}
    requires |answers| == |s.questions|
    modifies s
    ensures s.Valid() && s.Completed() && s.index == |s.questions|
    ensures s.questions == old(s.questions)
    ensures s.score == CorrectCount(s.questions, answers) <= |s.questions|
  {
    while s.index < |s.questions|
      invariant s.Valid() && s.active && s.questions == old(s.questions)
      invariant s.submitted == {}
      invariant s.score == CorrectCount(s.questions[..s.index], answers[..s.index])
      decreases |s.questions| - s.index
    {
      var i := s.index;
      var _ := s.Submit(answers[i]);
      s.Next();
      assert s.questions[..i + 1][..i] == s.questions[..i];
      assert answers[..i + 1][..i] == answers[..i];
    }
    assert s.questions[..s.index] == s.questions;
    assert answers[..s.index] == answers;
  }

  /** Six rounds that each ask for the chemical symbol of one of the first six
      solids, drawing the first three distractors; each shuffle draw picks its
      own position, so the options keep their order. */
  function SymbolRounds(): seq<Round> {
    seq(QuizLength, k requires 0 <= k < QuizLength => Round(k, Chemical, [0, 1, 2], [3, 2, 1]))
  }

  lemma SymbolRoundsValid()
    ensures |SymbolRounds()| == QuizLength && ValidRounds(Solids, SymbolRounds())
  {
    forall k | 0 <= k < QuizLength ensures ValidRound(Solids, SymbolRounds()[k]) {
      var r := SymbolRounds()[k];
      assert r.picks == [0, 1, 2] && r.draws == [3, 2, 1];
      assert IsSample(r.picks, SampleSize, |Solids| - 1);
      assert IsShuffleDraws(r.draws, SampleSize + 1);
      CatalogRoundValid(r);
    }
  }

  /** Submitting one question again and again before "Next" scores every
      time: after seven right submissions of the first question the score is
      above the number of questions. */
  method RepeatedSubmit() returns (score: nat, total: nat)
    ensures score == 7 && total == QuizLength && score > total
  {
    SymbolRoundsValid();
    var s := new QuizSession();
    s.Start(SymbolRounds());
    var right := Show(s.questions[0].answer);
    for n := 0 to 7
      invariant s.Valid() && s.active && s.index == 0 && |s.questions| == QuizLength
      invariant right == Show(s.questions[0].answer)
      invariant s.score == n
    {
      var _ := s.Submit(right);
    }
    score, total := s.score, |s.questions|;
  }
}
