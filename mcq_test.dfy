/**
 * The timed multiple-choice test (`src/components/MCQTest.tsx`): a question cursor, one
 * answer slot per question (`null` until chosen), a ten-minute countdown and scoring.
 */
module MCQTest {
  import opened Common
  import opened Text

  datatype Question = Question(id: nat, question: string, options: seq<string>, correctAnswer: nat, explanation: string)

  function SampleQuestions(): seq<Question>
  {
    [ Question(1, "What is the square root of 144?", ["10", "11", "12", "13"], 2,
               "The square root of 144 is 12 because 12 × 12 = 144"),
      Question(2, "What is the capital of France?", ["London", "Berlin", "Paris", "Madrid"], 2,
               "Paris is the capital and most populous city of France"),
      Question(3, "Which planet is known as the Red Planet?", ["Venus", "Mars", "Jupiter", "Saturn"], 1,
               "Mars appears red because of iron oxide (rust) on its surface"),
      Question(4, "What is 15% of 200?", ["25", "30", "35", "40"], 1,
               "15% of 200 = (15/100) × 200 = 30"),
      Question(5, "Who wrote 'Romeo and Juliet'?",
               ["Charles Dickens", "William Shakespeare", "Jane Austen", "Mark Twain"], 1,
               "William Shakespeare wrote Romeo and Juliet in the 1590s") ]
  }

  /** The countdown starts at ten minutes. */
  const TestSeconds: nat := 600

  /** `formatTime`: whole minutes, a colon, and the remaining seconds padded to two digits. */
  function FormatTime(seconds: nat): string
  {
    NatToString(seconds / 60) + ":" + Pad2(seconds % 60)
  }

  /** Reads `m:ss` back into seconds; anything else is rejected. */
  function ParseTime(t: string): Option<nat>
  {
    if |t| >= 4 && t[|t| - 3] == ':' && AllDigits(t[..|t| - 3]) && AllDigits(t[|t| - 2..]) then
      var secs := ParseDigits(t[|t| - 2..]);
      if secs < 60 then Some(ParseDigits(t[..|t| - 3]) * 60 + secs) else None
    else None
  }

  /** The clock text is `m:ss` with two-digit seconds and loses nothing: it reads back as the same number of seconds. */
  lemma {:induction false} FormatTimeRoundTrip(seconds: nat)
    ensures |FormatTime(seconds)| >= 4 && FormatTime(seconds)[|FormatTime(seconds)| - 3] == ':'
    ensures ParseTime(FormatTime(seconds)) == Some(seconds)
  {
    var m := NatToString(seconds / 60);
    var p := Pad2(seconds % 60);
    var t := FormatTime(seconds);
    assert t == m + ":" + p;
    assert t[..|t| - 3] == m;
    assert t[|t| - 2..] == p;
    ParseNatToString(seconds / 60);
    ParsePad2(seconds % 60);
  }

  /** The initial answer array: `new Array(n).fill(null)`. */
  function Unanswered(n: nat): (r: seq<Option<nat>>)
    ensures |r| == n && forall i :: 0 <= i < n ==> r[i] == None
  {
    seq(n, i => None)
  }

  /** The number of indices whose answer equals that question's `correctAnswer`. */
  function Score(answers: seq<Option<nat>>, questions: seq<Question>): (n: nat)
    requires |answers| == |questions|
    decreases |answers|
  {
    if answers == [] then 0
    else
      var k := |answers| - 1;
      Score(answers[..k], questions[..k]) + (if answers[k] == Some(questions[k].correctAnswer) then 1 else 0)
  }

  /** The indices whose answer is that question's correct option; an unanswered slot is never one. */
  function CorrectIndices(answers: seq<Option<nat>>, questions: seq<Question>): set<nat>
    requires |answers| == |questions|
  {
    set i: nat | i < |answers| && answers[i] == Some(questions[i].correctAnswer)
  }

  /**
   * The score is the number of correctly answered questions, so it lies between 0 and the
   * number of questions.
   */
  lemma {:induction false} ScoreCountsCorrect(answers: seq<Option<nat>>, questions: seq<Question>)
    requires |answers| == |questions|
    ensures Score(answers, questions) == |CorrectIndices(answers, questions)|
    ensures Score(answers, questions) <= |answers|
    decreases |answers|
  {
    if answers != [] {
      var k := |answers| - 1;
      ScoreCountsCorrect(answers[..k], questions[..k]);
      var before := CorrectIndices(answers[..k], questions[..k]);
      var all := CorrectIndices(answers, questions);
      if answers[k] == Some(questions[k].correctAnswer) {
        assert all == before + {k};
        assert k !in before;
      } else {
        assert all == before;
      }
    }
  }

  /** A test left entirely unanswered scores 0. */
  lemma {:induction false} UnansweredScoresZero(questions: seq<Question>)
    ensures Score(Unanswered(|questions|), questions) == 0
    decreases |questions|
  {
    if questions != [] {
      var k := |questions| - 1;
      assert Unanswered(|questions|)[..k] == Unanswered(k);
      UnansweredScoresZero(questions[..k]);
    }
  }

  /** Answering every question correctly scores full marks. */
  lemma {:induction false} AllCorrectScoresAll(answers: seq<Option<nat>>, questions: seq<Question>)
    requires |answers| == |questions|
    requires forall i :: 0 <= i < |answers| ==> answers[i] == Some(questions[i].correctAnswer)
    ensures Score(answers, questions) == |questions|
    decreases |answers|
  {
    if answers != [] {
      var k := |answers| - 1;
      AllCorrectScoresAll(answers[..k], questions[..k]);
    }
  }

  /** `handleFinishTest`'s `answers.forEach` loop accumulating `finalScore`. */
  method CountCorrect(answers: seq<Option<nat>>, questions: seq<Question>) returns (finalScore: nat)
    requires |answers| == |questions|
    ensures finalScore == Score(answers, questions)
  {
    finalScore := 0;
    var idx := 0;
    while idx < |answers|
      invariant 0 <= idx <= |answers|
      invariant finalScore == Score(answers[..idx], questions[..idx])
    {
      assert answers[..idx + 1][..idx] == answers[..idx];
      assert questions[..idx + 1][..idx] == questions[..idx];
      if answers[idx] == Some(questions[idx].correctAnswer) {
        finalScore := finalScore + 1;
      }
      idx := idx + 1;
    }
    assert answers[..idx] == answers && questions[..idx] == questions;
  }

  class Test {
    const questions: seq<Question>
    var currentQuestion: nat
    var selectedAnswer: Option<nat>
    var showResult: bool
    var score: nat
    var answers: seq<Option<nat>>
    var timeLeft: nat
    var testCompleted: bool
    /** The `answers` array that the countdown's closure captured when it was set up on mount. */
    const answersAtMount: seq<Option<nat>>

    ghost predicate Valid()
      reads this
    {
      |questions| > 0 && |answers| == |questions| && currentQuestion < |questions| &&
      timeLeft <= TestSeconds && score <= |questions| && answersAtMount == Unanswered(|questions|)
    }

    constructor ()
      ensures Valid() && questions == SampleQuestions()
      ensures currentQuestion == 0 && selectedAnswer == None && !showResult && score == 0
      ensures answers == Unanswered(5) && timeLeft == TestSeconds && !testCompleted
    {
      questions := SampleQuestions();
      currentQuestion := 0;
      selectedAnswer := None;
      showResult := false;
      score := 0;
      answers := Unanswered(5);
      timeLeft := TestSeconds;
      testCompleted := false;
      answersAtMount := Unanswered(5);
    }

    /** Records option `k` for the current question; every other slot keeps its answer. */
    method HandleAnswerSelect(k: nat)
      requires Valid()
      modifies this`selectedAnswer, this`answers
      ensures Valid()
      ensures selectedAnswer == Some(k) && answers == old(answers)[currentQuestion := Some(k)]
    {
      selectedAnswer := Some(k);
      answers := answers[currentQuestion := Some(k)];
    }

    method HandleNext()
      requires Valid()
      modifies this`currentQuestion, this`selectedAnswer, this`showResult
      ensures Valid()
      ensures old(currentQuestion) < |questions| - 1 ==>
        currentQuestion == old(currentQuestion) + 1 && selectedAnswer == answers[currentQuestion] && !showResult
      ensures old(currentQuestion) == |questions| - 1 ==>
        currentQuestion == old(currentQuestion) && selectedAnswer == old(selectedAnswer) && showResult == old(showResult)
    {
      if currentQuestion < |questions| - 1 {
        currentQuestion := currentQuestion + 1;
        selectedAnswer := answers[currentQuestion];
        showResult := false;
      }
    }

    method HandlePrevious()
      requires Valid()
      modifies this`currentQuestion, this`selectedAnswer, this`showResult
      ensures Valid()
      ensures old(currentQuestion) > 0 ==>
        currentQuestion == old(currentQuestion) - 1 && selectedAnswer == answers[currentQuestion] && !showResult
      ensures old(currentQuestion) == 0 ==>
        currentQuestion == 0 && selectedAnswer == old(selectedAnswer) && showResult == old(showResult)
    {
      if currentQuestion > 0 {
        currentQuestion := currentQuestion - 1;
        selectedAnswer := answers[currentQuestion];
        showResult := false;
      }
    }

    /** "Check Answer" reveals whether the selected option is correct. */
    method CheckAnswer()
      modifies this`showResult
      ensures showResult
    {
      showResult := true;
    }

    method HandleFinishTest()
      requires Valid()
      modifies this`score, this`testCompleted
      ensures Valid() && testCompleted && score == Score(answers, questions)
    {
      score := CountCorrect(answers, questions);
      ScoreCountsCorrect(answers, questions);
      testCompleted := true;
    }

    /**
     * One countdown tick as written: the interval callback calls the `handleFinishTest`
     * of the mount-time render, whose `answers` is the initial all-`null` array.
     */
    method TimerTickAsWritten()
      requires Valid()
      modifies this`timeLeft, this`score, this`testCompleted
      ensures Valid()
      ensures old(testCompleted) ==> timeLeft == old(timeLeft) && score == old(score) && testCompleted
      ensures !old(testCompleted) && old(timeLeft) <= 1 ==> timeLeft == 0 && testCompleted && score == 0
      ensures !old(testCompleted) && old(timeLeft) > 1 ==>
        timeLeft == old(timeLeft) - 1 && score == old(score) && !testCompleted
    {
      if !testCompleted {
        if timeLeft <= 1 {
          score := CountCorrect(answersAtMount, questions);
          UnansweredScoresZero(questions);
          testCompleted := true;
          timeLeft := 0;
        } else {
          timeLeft := timeLeft - 1;
        }
      }
    }

    /** One countdown tick as evidently intended: a timeout scores the answers given so far. */
    method TimerTick()
      requires Valid()
      modifies this`timeLeft, this`score, this`testCompleted
      ensures Valid()
      ensures old(testCompleted) ==> timeLeft == old(timeLeft) && score == old(score) && testCompleted
      ensures !old(testCompleted) && old(timeLeft) <= 1 ==>
        timeLeft == 0 && testCompleted && score == Score(answers, questions)
      ensures !old(testCompleted) && old(timeLeft) > 1 ==>
        timeLeft == old(timeLeft) - 1 && score == old(score) && !testCompleted
    {
      if !testCompleted {
        if timeLeft <= 1 {
          HandleFinishTest();
          timeLeft := 0;
        } else {
          timeLeft := timeLeft - 1;
        }
      }
    }

    /** The result screen's "Wrong Answers". */
    function WrongAnswers(): (n: nat)
      reads this
      requires Valid()
      ensures n + score == |questions|
    {
      |questions| - score
    }

    /** The result screen's "Time Taken". */
    function TimeTaken(): (t: string)
      reads this
      requires Valid()
      ensures ParseTime(t) == Some(TestSeconds - timeLeft)
    {
      FormatTimeRoundTrip(TestSeconds - timeLeft);
      FormatTime(TestSeconds - timeLeft)
    }
  }

  /**
   * The discrepancy of the as-written countdown: with every question answered correctly,
   * finishing by the button scores 5 while running out of time scores 0.
   */
  lemma TimeoutIgnoresAnswers()
    ensures var qs := SampleQuestions();
      var allRight := seq(5, i requires 0 <= i < 5 => Some(qs[i].correctAnswer));
      Score(allRight, qs) == 5 && Score(Unanswered(5), qs) == 0
  {
    var qs := SampleQuestions();
    var allRight := seq(5, i requires 0 <= i < 5 => Some(qs[i].correctAnswer));
    AllCorrectScoresAll(allRight, qs);
    UnansweredScoresZero(qs);
  }
}
