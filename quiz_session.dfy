/**
 * The timed multiple-choice quiz screen: which question is shown, the answer map,
 * the countdown, scoring on submission, and the `MM:SS` timer label.
 */
module QuizSession {
  import opened Wrappers
  import opened JsText

  datatype Question = Question(id: int, text: string, options: seq<string>, correctAnswer: int)

  datatype Quiz = Quiz(title: string, questions: seq<Question>)

  /** The countdown starts at ten minutes. */
  const Duration: nat := 600

  /** The quiz the screen ships with. */
  const ReactFundamentals: Quiz := Quiz("React Fundamentals Quiz", [
    Question(1, "What is JSX?",
      ["A JavaScript library", "A syntax extension for JavaScript", "A CSS framework", "A database"], 1),
    Question(2, "Which hook is used for side effects?",
      ["useState", "useEffect", "useContext", "useReducer"], 1),
    Question(3, "What does props stand for?",
      ["Properties", "Protocols", "Propositions", "Programs"], 0),
    Question(4, "What is the virtual DOM?",
      ["A copy of the real DOM", "A JavaScript library", "A CSS framework", "A database"], 0),
    Question(5, "Which company created React?",
      ["Google", "Facebook", "Microsoft", "Apple"], 1)
  ])

  /** The shipped quiz has five questions with distinct ids. */
  lemma ShippedQuizWellFormed()
    ensures |ReactFundamentals.questions| == 5 && DistinctIds(ReactFundamentals.questions)
  {
  }

  // ---------------------------------------------------------------------------
  // Scoring
  // ---------------------------------------------------------------------------

  /** `answers[q.id] === q.correctAnswer`: an unanswered question is never correct. */
  predicate IsCorrect(q: Question, answers: map<int, int>)
  {
    q.id in answers && answers[q.id] == q.correctAnswer
  }

  /** The number of questions answered correctly, counted front to back. */
  function CorrectCount(qs: seq<Question>, answers: map<int, int>): (n: nat)
    ensures n <= |qs|
  {
    if qs == [] then 0
    else CorrectCount(qs[..|qs| - 1], answers) + (if IsCorrect(qs[|qs| - 1], answers) then 1 else 0)
  }

  /** Positions of the correctly answered questions. */
  function CorrectPositions(qs: seq<Question>, answers: map<int, int>): set<nat>
  {
    set i: nat | i < |qs| && IsCorrect(qs[i], answers)
  }

  /** Positions of the questions that have any answer. */
  function AnsweredPositions(qs: seq<Question>, answers: map<int, int>): set<nat>
  {
    set i: nat | i < |qs| && qs[i].id in answers
  }

  /** The score is the number of questions whose answer equals the correct one. */
  lemma {:induction false} CorrectCountIsCardinality(qs: seq<Question>, answers: map<int, int>)
    ensures CorrectCount(qs, answers) == |CorrectPositions(qs, answers)|
  {
    if qs != [] {
      var n := |qs| - 1;
      var init := qs[..n];
      CorrectCountIsCardinality(init, answers);
      var before := CorrectPositions(init, answers);
      if IsCorrect(qs[n], answers) {
        assert CorrectPositions(qs, answers) == before + {n};
      } else {
        assert CorrectPositions(qs, answers) == before;
      }
    }
  }

  lemma SubsetCardinality<T>(a: set<T>, b: set<T>)
    requires a <= b
    ensures |a| <= |b|
  {
    assert b == a + (b - a);
  }

  /** Unanswered questions never count: the score is at most the number answered. */
  lemma ScoreAtMostAnswered(qs: seq<Question>, answers: map<int, int>)
    ensures CorrectCount(qs, answers) <= |AnsweredPositions(qs, answers)|
  {
    CorrectCountIsCardinality(qs, answers);
    SubsetCardinality(CorrectPositions(qs, answers), AnsweredPositions(qs, answers));
  }

  /** Full marks exactly when every question is answered correctly. */
  lemma {:induction false} PerfectScoreIff(qs: seq<Question>, answers: map<int, int>)
    ensures CorrectCount(qs, answers) == |qs| <==> forall i :: 0 <= i < |qs| ==> IsCorrect(qs[i], answers)
  {
    if qs != [] {
      var n := |qs| - 1;
      PerfectScoreIff(qs[..n], answers);
      assert forall i :: 0 <= i < n ==> qs[..n][i] == qs[i];
    }
  }

  /** A score of zero exactly when no question is answered correctly. */
  lemma {:induction false} ZeroScoreIff(qs: seq<Question>, answers: map<int, int>)
    ensures CorrectCount(qs, answers) == 0 <==> forall i :: 0 <= i < |qs| ==> !IsCorrect(qs[i], answers)
  {
    if qs != [] {
      var n := |qs| - 1;
      ZeroScoreIff(qs[..n], answers);
      assert forall i :: 0 <= i < n ==> qs[..n][i] == qs[i];
    }
  }

  /**
   * `Math.round(score / total * 100)` on exact rationals (round half up);
   * `None` stands for the `NaN` an empty quiz would give.
   */
  function Percentage(score: nat, total: nat): (p: Option<nat>)
    ensures p.None? <==> total == 0
    ensures p.Some? ==> 2 * total * p.value <= 200 * score + total < 2 * total * (p.value + 1)
    ensures p.Some? && score <= total ==> p.value <= 100
    ensures p.Some? && score == total ==> p.value == 100
    ensures p.Some? && score == 0 ==> p.value == 0
  {
    if total == 0 then None
    else
      var x, d := 200 * score + total, 2 * total;
      DivBounds(x, d);
      var q := x / d;
      assert score <= total ==> q <= 100 by {
        if score <= total && q > 100 { MulMono(d, 101, q); }
      }
      assert score == total ==> q == 100 by {
        if score == total { DivUnique(x, d, 100); }
      }
      assert score == 0 ==> q == 0 by {
        if score == 0 { DivUnique(x, d, 0); }
      }
      Some(q)
  }

  lemma MulMono(d: nat, a: nat, b: nat)
    requires a <= b
    ensures d * a <= d * b
  {
    assert d * b == d * a + d * (b - a);
  }

  lemma DivBounds(x: nat, d: nat)
    requires d > 0
    ensures d * (x / d) <= x < d * (x / d + 1)
  {
    assert x == d * (x / d) + x % d;
  }

  lemma DivUnique(x: nat, d: nat, q: nat)
    requires d > 0 && d * q <= x < d * (q + 1)
    ensures x / d == q
  {
    DivBounds(x, d);
    if x / d > q { MulMono(d, q + 1, x / d); }
    if x / d < q { MulMono(d, x / d + 1, q); }
  }

  /** What the "Quiz Submitted!" dialog reports. */
  datatype Report = Report(score: nat, total: nat, incorrect: int, percentage: Option<nat>)

  // ---------------------------------------------------------------------------
  // The timer label
  // ---------------------------------------------------------------------------

  /** `formatTime`: zero-padded minutes, a colon, zero-padded seconds. */
  function FormatTime(seconds: nat): (r: string)
    ensures |r| >= 5 && r[|r| - 3] == ':'
  {
    PaddedDecimal(seconds / 60);
    PaddedDecimal(seconds % 60);
    PadStart2(Decimal(seconds / 60)) + ":" + PadStart2(Decimal(seconds % 60))
  }

  /** Reads a `M:SS` label back into seconds. */
  function ClockValue(clock: string): Option<nat>
  {
    match IndexOf(clock, ":")
    case None => None
    case Some(k) =>
      var mins := clock[..k];
      var secs := clock[k + 1..];
      if AllDigits(mins) && AllDigits(secs) then Some(DigitsValue(mins) * 60 + DigitsValue(secs))
      else None
  }

  lemma PaddedDecimal(n: nat)
    ensures AllDigits(PadStart2(Decimal(n))) && DigitsValue(PadStart2(Decimal(n))) == n
    ensures |PadStart2(Decimal(n))| >= 2
    ensures n < 100 ==> |PadStart2(Decimal(n))| == 2
  {
    DecimalRoundTrip(n);
    PadStart2Value(Decimal(n));
  }

  lemma TwoDigitValue(s: string)
    requires |s| == 2 && AllDigits(s)
    ensures DigitsValue(s) == 10 * DigitValue(s[0]) + DigitValue(s[1])
  {
    assert s[..|s| - 1] == s[..1];
    assert s[..1][..0] == [];
    assert DigitsValue(s[..1]) == DigitValue(s[0]);
  }

  /** A clock made of two digit strings reads back as minutes * 60 + seconds. */
  lemma ClockOfParts(m: string, s: string)
    requires AllDigits(m) && AllDigits(s)
    ensures var v := ClockValue(m + ":" + s); v.Some? && v.value == DigitsValue(m) * 60 + DigitsValue(s)
  {
    var clock := m + ":" + s;
    assert clock[|m|..|m| + 1] == ":";
    forall j | 0 <= j < |m| ensures !OccursAt(clock, ":", j) {
      assert clock[j..j + 1][0] == m[j];
    }
    IndexOfFirst(clock, ":", |m|);
    assert clock[..|m|] == m && clock[|m| + 1..] == s;
  }

  /** Reading the label back gives the seconds it was made from, for every input. */
  lemma FormatTimeRoundTrip(seconds: nat)
    ensures var v := ClockValue(FormatTime(seconds)); v.Some? && v.value == seconds
  {
    PaddedDecimal(seconds / 60);
    PaddedDecimal(seconds % 60);
    ClockOfParts(PadStart2(Decimal(seconds / 60)), PadStart2(Decimal(seconds % 60)));
  }

  /** Below 100 minutes the label is exactly `DD:DD`, minutes then seconds under 60. */
  lemma FormatTimeShape(seconds: nat)
    requires seconds < 6000
    ensures var r := FormatTime(seconds);
      && |r| == 5 && r[2] == ':'
      && IsDigit(r[0]) && IsDigit(r[1]) && IsDigit(r[3]) && IsDigit(r[4])
      && (10 * DigitValue(r[0]) + DigitValue(r[1])) * 60 + 10 * DigitValue(r[3]) + DigitValue(r[4]) == seconds
      && 10 * DigitValue(r[3]) + DigitValue(r[4]) < 60
  {
    var m := PadStart2(Decimal(seconds / 60));
    var s := PadStart2(Decimal(seconds % 60));
    PaddedDecimal(seconds / 60);
    PaddedDecimal(seconds % 60);
    TwoDigitValue(m);
    TwoDigitValue(s);
    var r := FormatTime(seconds);
    assert r == m + ":" + s;
    assert r[0] == m[0] && r[1] == m[1] && r[3] == s[0] && r[4] == s[1];
  }

  lemma FormatTimeTenMinutes()
    ensures FormatTime(600) == "10:00"
  {
    assert Decimal(10) == "10";
    assert Decimal(0) == "0";
  }

  // ---------------------------------------------------------------------------
  // Answered count
  // ---------------------------------------------------------------------------

  function QuestionIds(qs: seq<Question>): set<int>
  {
    set q | q in qs :: q.id
  }

  lemma {:induction false} QuestionIdsBound(qs: seq<Question>)
    ensures |QuestionIds(qs)| <= |qs|
  {
    if qs != [] {
      var n := |qs| - 1;
      QuestionIdsBound(qs[..n]);
      assert QuestionIds(qs) == QuestionIds(qs[..n]) + {qs[n].id} by {
        assert forall q :: q in qs <==> q in qs[..n] || q == qs[n] by {
          assert qs == qs[..n] + [qs[n]];
        }
      }
    }
  }

  /** No two questions share an id. */
  predicate DistinctIds(qs: seq<Question>)
  {
    forall i, j :: 0 <= i < j < |qs| ==> qs[i].id != qs[j].id
  }

  lemma QuestionIdsSnoc(qs: seq<Question>)
    requires qs != []
    ensures QuestionIds(qs) == QuestionIds(qs[..|qs| - 1]) + {qs[|qs| - 1].id}
  {
    var n := |qs| - 1;
    assert forall q :: q in qs <==> q in qs[..n] || q == qs[n] by {
      assert qs == qs[..n] + [qs[n]];
    }
  }

  lemma DistinctInit(qs: seq<Question>)
    requires qs != [] && DistinctIds(qs)
    ensures DistinctIds(qs[..|qs| - 1])
    ensures qs[|qs| - 1].id !in QuestionIds(qs[..|qs| - 1])
  {
    var n := |qs| - 1;
    var init := qs[..n];
    forall q | q in init ensures q.id != qs[n].id {
      var i :| 0 <= i < n && init[i] == q;
      assert q == qs[i];
    }
  }

  lemma AnsweredPositionsSnoc(qs: seq<Question>, answers: map<int, int>)
    requires qs != []
    ensures var n := |qs| - 1;
            var before := AnsweredPositions(qs[..n], answers);
            && n !in before
            && AnsweredPositions(qs, answers) == if qs[n].id in answers then before + {n} else before
  {
  }

  /**
   * With distinct ids, the answer keys that are question ids are as many as the
   * positions whose question has an answer.
   */
  lemma {:induction false} AnsweredIdsMatchPositions(qs: seq<Question>, answers: map<int, int>)
    requires DistinctIds(qs)
    ensures |answers.Keys * QuestionIds(qs)| == |AnsweredPositions(qs, answers)|
  {
    if qs == [] {
      assert AnsweredPositions(qs, answers) == {};
      assert answers.Keys * QuestionIds(qs) == {};
    } else {
      var n := |qs| - 1;
      var init := qs[..n];
      var id := qs[n].id;
      DistinctInit(qs);
      AnsweredIdsMatchPositions(init, answers);
      QuestionIdsSnoc(qs);
      AnsweredPositionsSnoc(qs, answers);
      IntersectWithNewId(answers.Keys, QuestionIds(init), id);
    }
  }

  /** Adding an id that is not yet present to one side of an intersection. */
  lemma IntersectWithNewId(keys: set<int>, ids: set<int>, id: int)
    requires id !in ids
    ensures |keys * (ids + {id})| == |keys * ids| + (if id in keys then 1 else 0)
  {
    if id in keys {
      assert keys * (ids + {id}) == keys * ids + {id};
    } else {
      assert keys * (ids + {id}) == keys * ids;
    }
  }

  /** With answer keys taken from the quiz's ids, at most `len` questions count as answered. */
  lemma AnsweredCountBound(qs: seq<Question>, answers: map<int, int>)
    requires answers.Keys <= QuestionIds(qs)
    ensures |answers| <= |qs|
  {
    QuestionIdsBound(qs);
    SubsetCardinality(answers.Keys, QuestionIds(qs));
  }

  /**
   * `Object.keys(answers).length` when the keys are question ids: at most the number
   * of questions, and with distinct ids the number of questions that have an answer.
   */
  lemma AnsweredCountMeaning(qs: seq<Question>, answers: map<int, int>)
    ensures answers.Keys <= QuestionIds(qs) ==> |answers| <= |qs|
    ensures answers.Keys <= QuestionIds(qs) && DistinctIds(qs) ==> |answers| == |AnsweredPositions(qs, answers)|
  {
    if answers.Keys <= QuestionIds(qs) {
      AnsweredCountBound(qs, answers);
      if DistinctIds(qs) {
        AnsweredIdsMatchPositions(qs, answers);
        assert answers.Keys * QuestionIds(qs) == answers.Keys;
      }
    }
  }

  // ---------------------------------------------------------------------------
  // The screen's state
  // ---------------------------------------------------------------------------

  class Session {
    const quiz: Quiz
    /** `currentQuestion`, an index into `quiz.questions` */
    var current: nat
    /** `answers`, question id to chosen option index */
    var answers: map<int, int>
    /** `timeRemaining`, in seconds */
    var timeRemaining: int
    /** whether the one-second interval is still scheduled */
    var timerRunning: bool

    ghost predicate Valid()
      reads this
    {
      current < |quiz.questions| && timeRemaining >= 0
    }

    /** Mounting the screen: first question, no answers, ten minutes, interval started. */
    constructor (quiz: Quiz)
      requires |quiz.questions| > 0
      ensures Valid() && this.quiz == quiz
      ensures current == 0 && answers == map[] && timeRemaining == Duration && timerRunning
    {
      this.quiz := quiz;
      current := 0;
      answers := map[];
      timeRemaining := Duration;
      timerRunning := true;
    }

    function CurrentQuestion(): Question
      reads this
      requires Valid()
    {
      quiz.questions[current]
    }

    /** `Object.keys(answers).length` */
    function AnsweredCount(): (n: nat)
      reads this
      ensures answers.Keys <= QuestionIds(quiz.questions) ==> n <= |quiz.questions|
      ensures answers.Keys <= QuestionIds(quiz.questions) && DistinctIds(quiz.questions) ==>
                n == |AnsweredPositions(quiz.questions, answers)|
    {
      AnsweredCountMeaning(quiz.questions, answers);
      |answers|
    }

    /** The navigator's "answered" badge: `answers[q.id] !== undefined`. */
    predicate IsAnswered(q: Question)
      reads this
      ensures IsAnswered(q) ==> AnsweredCount() > 0
    {
      q.id in answers
    }

    /** Every answer key is one of the quiz's question ids. */
    ghost predicate AnswersWithinQuiz()
      reads this
    {
      answers.Keys <= QuestionIds(quiz.questions)
    }

    /** `handleAnswerSelect`: records or overwrites one entry; nothing else moves. */
    method SelectAnswer(questionId: int, optionIndex: int)
      requires Valid()
      modifies this
      ensures Valid()
      ensures answers == old(answers)[questionId := optionIndex]
      ensures current == old(current) && timeRemaining == old(timeRemaining)
      ensures timerRunning == old(timerRunning)
      ensures old(AnswersWithinQuiz()) && questionId in QuestionIds(quiz.questions) ==> AnswersWithinQuiz()
    {
      answers := answers[questionId := optionIndex];
    }

    /** Tapping option `optionIndex` of the question on screen. */
    method SelectOption(optionIndex: int)
      requires Valid()
      modifies this
      ensures Valid()
      ensures answers == old(answers)[old(CurrentQuestion()).id := optionIndex]
      ensures current == old(current) && timeRemaining == old(timeRemaining)
      ensures timerRunning == old(timerRunning)
      ensures old(AnswersWithinQuiz()) ==> AnswersWithinQuiz()
    {
      var q := quiz.questions[current];
      SelectAnswer(q.id, optionIndex);
    }

    /** `handleNext`: one step forward, no-op on the last question. */
    method Next()
      requires Valid()
      modifies this
      ensures Valid()
      ensures current == if old(current) < |quiz.questions| - 1 then old(current) + 1 else old(current)
      ensures answers == old(answers) && timeRemaining == old(timeRemaining)
      ensures timerRunning == old(timerRunning)
    {
      if current < |quiz.questions| - 1 {
        current := current + 1;
      }
    }

    /** `handlePrevious`: one step back, no-op on the first question. */
    method Previous()
      requires Valid()
      modifies this
      ensures Valid()
      ensures current == if old(current) > 0 then old(current) - 1 else old(current)
      ensures answers == old(answers) && timeRemaining == old(timeRemaining)
      ensures timerRunning == old(timerRunning)
    {
      if current > 0 {
        current := current - 1;
      }
    }

    /** The navigator button for question `index` (it offers only existing ones). */
    method JumpTo(index: nat)
      requires Valid() && index < |quiz.questions|
      modifies this
      ensures Valid() && current == index
      ensures answers == old(answers) && timeRemaining == old(timeRemaining)
      ensures timerRunning == old(timerRunning)
    {
      current := index;
    }

    /**
     * One firing of the interval. While time is left it takes one second off;
     * on seeing zero it clears the interval, asks for submission and keeps zero.
     * Once cleared, the interval never fires again.
     */
    method Tick() returns (submitRequested: bool)
      requires Valid()
      modifies this
      ensures Valid()
      ensures current == old(current) && answers == old(answers)
      ensures !old(timerRunning) ==> !submitRequested && timeRemaining == old(timeRemaining) && !timerRunning
      ensures old(timerRunning) && old(timeRemaining) > 0 ==>
                !submitRequested && timeRemaining == old(timeRemaining) - 1 && timerRunning
      ensures old(timerRunning) && old(timeRemaining) <= 0 ==>
                submitRequested && timeRemaining == 0 && !timerRunning
    {
      submitRequested := false;
      if timerRunning {
        if timeRemaining <= 0 {
          timerRunning := false;
          submitRequested := true;
          timeRemaining := 0;
        } else {
          timeRemaining := timeRemaining - 1;
        }
      }
    }

    /** The effect's cleanup on unmount: `clearInterval(timer)`. */
    method Teardown()
      modifies this
      ensures !timerRunning
      ensures current == old(current) && answers == old(answers) && timeRemaining == old(timeRemaining)
    {
      timerRunning := false;
    }

    /**
     * The interval firing `ticks` times in a row: submission is requested at most
     * once, and exactly when the countdown had run out strictly before the last firing.
     */
    method RunInterval(ticks: nat) returns (submissions: nat)
      requires Valid()
      modifies this
      ensures Valid()
      ensures current == old(current) && answers == old(answers)
      ensures submissions <= 1
      ensures submissions == 1 <==> old(timerRunning) && ticks > old(timeRemaining)
      ensures old(timerRunning) && ticks <= old(timeRemaining) ==>
                timeRemaining == old(timeRemaining) - ticks && timerRunning
      ensures old(timerRunning) && ticks > old(timeRemaining) ==> timeRemaining == 0 && !timerRunning
      ensures !old(timerRunning) ==> timeRemaining == old(timeRemaining) && !timerRunning
    {
      submissions := 0;
      var k := 0;
      while k < ticks
        invariant 0 <= k <= ticks
        invariant Valid() && current == old(current) && answers == old(answers)
        invariant old(timerRunning) && k <= old(timeRemaining) ==>
                    timeRemaining == old(timeRemaining) - k && timerRunning && submissions == 0
        invariant old(timerRunning) && k > old(timeRemaining) ==>
                    timeRemaining == 0 && !timerRunning && submissions == 1
        invariant !old(timerRunning) ==>
                    timeRemaining == old(timeRemaining) && !timerRunning && submissions == 0
      {
        var fired := Tick();
        if fired {
          submissions := submissions + 1;
        }
        k := k + 1;
      }
    }

    /** The `forEach` loop of the confirmed submission; reads the state, changes nothing. */
    method Score() returns (score: nat)
      ensures score == CorrectCount(quiz.questions, answers)
      ensures score <= |quiz.questions|
    {
      var qs := quiz.questions;
      score := 0;
      var i := 0;
      while i < |qs|
        invariant 0 <= i <= |qs|
        invariant score == CorrectCount(qs[..i], answers)
      {
        assert qs[..i + 1][..i] == qs[..i];
        if qs[i].id in answers && answers[qs[i].id] == qs[i].correctAnswer {
          score := score + 1;
        }
        i := i + 1;
      }
      assert qs[..i] == qs;
    }

    /**
     * `handleSubmitQuiz`: nothing happens unless the dialog is confirmed; then the
     * score, the totals and the percentage are reported.
     */
    method Submit(confirmed: bool) returns (report: Option<Report>)
      ensures report.Some? <==> confirmed
      ensures report.Some? ==>
        && report.value.score == CorrectCount(quiz.questions, answers)
        && report.value.total == |quiz.questions|
        && report.value.incorrect == |quiz.questions| - report.value.score
        && report.value.percentage == Percentage(report.value.score, |quiz.questions|)
    {
      if !confirmed {
        return None;
      }
      var score := Score();
      var total := |quiz.questions|;
      report := Some(Report(score, total, total - score, Percentage(score, total)));
    }
  }
}
