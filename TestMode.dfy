/** The graded test view (src/components/TestMode.tsx): one submission per
    question, a running score, and a completion report `(score, total)`. */
module TestMode {
  import opened Types

  /** The arguments of `onComplete(score, totalQuestions)`. */
  datatype Completion = Completion(score: nat, total: nat)

  /** What the user can do in the view: pick an option, press the submit or the
      next button, press a key, or press the back button of the empty deck. */
  datatype TestInput = Choose(option: string) | SubmitButton | NextButton | Key(key: string) | BackButton

  /** How an option is drawn. After the result is shown: the correct answer, the
      user's wrong pick, or neither; before: selected or not. */
  datatype OptionLook = CorrectOption | WrongPick | Neutral | Selected | Unselected

  /** The option styling chosen in the render map of the options list. */
  function Classify(showResult: bool, selected: string, option: string, answer: string): (k: OptionLook)
    ensures showResult <==> k in {CorrectOption, WrongPick, Neutral}
    ensures showResult ==> (k == CorrectOption <==> option == answer)
    ensures showResult ==> (k == WrongPick <==> option == selected && option != answer)
    ensures !showResult ==> (k == Selected <==> option == selected)
  {
    if showResult then
      if option == answer then CorrectOption
      else if option == selected then WrongPick
      else Neutral
    else
      if option == selected then Selected else Unselected
  }

  /** The number of submitted answers that match their question's answer. */
  function CorrectCount(questions: seq<Question>, answers: seq<string>): (c: nat)
    requires |answers| <= |questions|
    ensures c <= |answers|
    decreases |answers|
  {
    if answers == [] then 0
    else
      var k := |answers| - 1;
      CorrectCount(questions, answers[..k]) + (if answers[k] == questions[k].answer then 1 else 0)
  }

  /** One more submission adds one exactly when it matches its question's answer. */
  lemma CorrectCountSnoc(questions: seq<Question>, answers: seq<string>, x: string)
    requires |answers| < |questions|
    ensures CorrectCount(questions, answers + [x])
      == CorrectCount(questions, answers) + (if x == questions[|answers|].answer then 1 else 0)
  {
    assert (answers + [x])[..|answers|] == answers;
  }

  /** A full marks count means every submission was right, and conversely. */
  lemma {:induction false} CorrectCountFull(questions: seq<Question>, answers: seq<string>)
    requires |answers| <= |questions|
    ensures CorrectCount(questions, answers) == |answers|
      <==> forall i :: 0 <= i < |answers| ==> answers[i] == questions[i].answer
    decreases |answers|
  {
    if answers != [] {
      var k := |answers| - 1;
      CorrectCountFull(questions, answers[..k]);
      assert forall i :: 0 <= i < k ==> answers[..k][i] == answers[i];
    }
  }

  /** A snapshot of the view's five state hooks. */
  datatype TestState = TestState(
    currentIndex: nat, selectedAnswer: string, showResult: bool, score: nat, answers: seq<string>)

  /** The session invariant: one answer per question up to the current one (the
      current one only once its result is shown), and the running score equals the
      number of right answers among them. */
  predicate ValidState(questions: seq<Question>, s: TestState) {
    && (|questions| > 0 ==> s.currentIndex < |questions|)
    && (|questions| == 0 ==> s.currentIndex == 0 && !s.showResult)
    && |s.answers| == s.currentIndex + (if s.showResult then 1 else 0)
    && (s.showResult ==> s.selectedAnswer != "" && s.answers[s.currentIndex] == s.selectedAnswer)
    && s.score == CorrectCount(questions, s.answers)
  }

  /** The state after picking `option`: the radios only respond while the result is hidden. */
  function Chosen(s: TestState, option: string): TestState {
    if s.showResult then s else s.(selectedAnswer := option)
  }

  /** The state `submitAnswer` leaves. */
  function Submitted(questions: seq<Question>, s: TestState): TestState
    requires s.currentIndex < |questions|
  {
    if s.selectedAnswer == "" then s
    else s.(showResult := true, answers := s.answers + [s.selectedAnswer],
            score := s.score + (if s.selectedAnswer == questions[s.currentIndex].answer then 1 else 0))
  }

  /** The state and the report of `nextQuestion` as written. */
  function AfterNext(questions: seq<Question>, s: TestState): (TestState, Option<Completion>)
    requires s.currentIndex < |questions|
  {
    if s.currentIndex == |questions| - 1 then
      (s, Some(Completion(s.score + (if s.selectedAnswer == questions[s.currentIndex].answer then 1 else 0), |questions|)))
    else (s.(currentIndex := s.currentIndex + 1, selectedAnswer := "", showResult := false), None)
  }

  /** The state and the report of `nextQuestion` as evidently intended: the last
      answer is already in `score`, so the report is `score` itself. */
  function AfterNextIntended(questions: seq<Question>, s: TestState): (TestState, Option<Completion>)
    requires s.currentIndex < |questions|
  {
    if s.currentIndex == |questions| - 1 then (s, Some(Completion(s.score, |questions|)))
    else (s.(currentIndex := s.currentIndex + 1, selectedAnswer := "", showResult := false), None)
  }

  /** `handleKeyPress` on a state of a non-empty deck. */
  function KeyStep(questions: seq<Question>, s: TestState, key: string): (TestState, Option<Completion>)
    requires s.currentIndex < |questions|
  {
    if key == "Enter" && !s.showResult && s.selectedAnswer != "" then (Submitted(questions, s), None)
    else if key == "Enter" && s.showResult then AfterNext(questions, s)
    else (s, None)
  }

  /** Every input of the view: the empty deck's back button reports `(0, 0)`; the
      submit button is shown only while the result is hidden, the next button only
      once it is shown, and the back button only on an empty deck. */
  function Step(questions: seq<Question>, s: TestState, input: TestInput): (TestState, Option<Completion>)
    requires |questions| > 0 ==> s.currentIndex < |questions|
  {
    if |questions| == 0 then (s, if input == BackButton then Some(Completion(0, 0)) else None)
    else
      match input
      case Choose(option) => (Chosen(s, option), None)
      case SubmitButton => (if s.showResult then s else Submitted(questions, s), None)
      case NextButton => if s.showResult then AfterNext(questions, s) else (s, None)
      case Key(key) => KeyStep(questions, s, key)
      case BackButton => (s, None)
  }

  /** Every input keeps the session invariant; a report comes only from the shown
      last question of a non-empty deck, or from the empty deck's back button. */
  lemma StepKeepsValid(questions: seq<Question>, s: TestState, input: TestInput)
    requires ValidState(questions, s)
    ensures ValidState(questions, Step(questions, s, input).0)
    ensures Step(questions, s, input).1.Some? ==>
      if |questions| == 0 then input == BackButton && Step(questions, s, input).1.value == Completion(0, 0)
      else s.showResult && s.currentIndex == |questions| - 1 && Step(questions, s, input).1.value.total == |questions|
  {
    if |questions| > 0 && !s.showResult && s.selectedAnswer != "" {
      CorrectCountSnoc(questions, s.answers, s.selectedAnswer);
    }
  }

  /** As written, the report on the shown last question is the number of right
      answers plus one more when the last answer is right; a deck answered
      entirely right reports one more than its size. */
  lemma AsWrittenReport(questions: seq<Question>, s: TestState)
    requires ValidState(questions, s) && |questions| > 0 && s.showResult && s.currentIndex == |questions| - 1
    ensures |s.answers| == |questions|
    ensures AfterNext(questions, s) == (s, Some(Completion(CorrectCount(questions, s.answers)
      + (if s.answers[|questions| - 1] == questions[|questions| - 1].answer then 1 else 0), |questions|)))
    ensures CorrectCount(questions, s.answers) == |questions| ==> AfterNext(questions, s).1.value.score == |questions| + 1
  {
    CorrectCountFull(questions, s.answers);
  }

  /** As evidently intended, the report on the shown last question is the number
      of right answers over the whole deck, never more than its size. */
  lemma IntendedReport(questions: seq<Question>, s: TestState)
    requires ValidState(questions, s) && |questions| > 0 && s.showResult && s.currentIndex == |questions| - 1
    ensures |s.answers| == |questions|
    ensures AfterNextIntended(questions, s) == (s, Some(Completion(CorrectCount(questions, s.answers), |questions|)))
    ensures AfterNextIntended(questions, s).1.value.score <= |questions|
  {
  }

  class TestSession {
    const questions: seq<Question>
    var currentIndex: nat
    var selectedAnswer: string
    var showResult: bool
    var score: nat
    var answers: seq<string>

    /** The session invariant: one answer per question up to the current one
        (the current one only once its result is shown), and the running score
        equals the number of right answers among them. */
    ghost predicate Valid()
      reads this
    {
      ValidState(questions, State())
    }

    /** The five state hooks as one value. */
    ghost function State(): TestState
      reads this
    {
      TestState(currentIndex, selectedAnswer, showResult, score, answers)
    }

    constructor (questions: seq<Question>)
      ensures Valid()
      ensures this.questions == questions
      ensures currentIndex == 0 && selectedAnswer == "" && !showResult && score == 0 && answers == []
    {
      this.questions := questions;
      currentIndex := 0;
      selectedAnswer := "";
      showResult := false;
      score := 0;
      answers := [];
    }

    /** `isCorrect`: the current selection is the current question's answer. */
    predicate IsCorrect()
      reads this
      requires currentIndex < |questions|
    {
      selectedAnswer == questions[currentIndex].answer
    }

    /** Picking an option; the radio inputs are disabled once the result is shown. */
    method Choose(option: string)
      requires Valid()
      modifies this
      ensures Valid()
      ensures selectedAnswer == (if old(showResult) then old(selectedAnswer) else option)
      ensures currentIndex == old(currentIndex) && showResult == old(showResult)
      ensures score == old(score) && answers == old(answers)
      ensures State() == Chosen(old(State()), option)
    {
      if !showResult {
        selectedAnswer := option;
      }
    }

    /** `submitAnswer`: with an empty selection nothing happens; otherwise the
        selection is appended to the answers, the score rises by one exactly when
        it is right, and the result is shown. */
    method Submit()
      requires Valid() && |questions| > 0 && !showResult
      modifies this
      ensures Valid()
      ensures old(selectedAnswer) == "" ==>
        && !showResult && score == old(score) && answers == old(answers)
        && selectedAnswer == old(selectedAnswer) && currentIndex == old(currentIndex)
      ensures old(selectedAnswer) != "" ==>
        && showResult
        && answers == old(answers) + [old(selectedAnswer)]
        && score == old(score) + (if old(IsCorrect()) then 1 else 0)
        && selectedAnswer == old(selectedAnswer) && currentIndex == old(currentIndex)
      ensures State() == Submitted(questions, old(State()))
    {
      if selectedAnswer == "" {
        return;
      }
      CorrectCountSnoc(questions, answers, selectedAnswer);
      answers := answers + [selectedAnswer];
      if selectedAnswer == questions[currentIndex].answer {
        score := score + 1;
      }
      showResult := true;
    }

    /** The move to the next question shared by both completion variants. */
    method Advance()
      requires Valid() && showResult && currentIndex < |questions| - 1
      modifies this
      ensures Valid()
      ensures currentIndex == old(currentIndex) + 1 && selectedAnswer == "" && !showResult
      ensures score == old(score) && answers == old(answers)
    {
      currentIndex := currentIndex + 1;
      selectedAnswer := "";
      showResult := false;
    }

    /** `nextQuestion` as written: before the last question it moves on with the
        selection cleared and the result hidden; on the last question it reports
        `score + (isCorrect ? 1 : 0)` out of the deck size although `score`
        already counts that answer. */
    method Next() returns (done: Option<Completion>)
      requires Valid() && |questions| > 0 && showResult
      modifies this
      ensures Valid()
      ensures old(currentIndex) < |questions| - 1 ==>
        && done == None
        && currentIndex == old(currentIndex) + 1 && selectedAnswer == "" && !showResult
        && score == old(score) && answers == old(answers)
      ensures old(currentIndex) == |questions| - 1 ==>
        && done == Some(Completion(old(score) + (if old(IsCorrect()) then 1 else 0), |questions|))
        && currentIndex == old(currentIndex) && selectedAnswer == old(selectedAnswer) && showResult
        && score == old(score) && answers == old(answers)
      ensures done.Some? ==>
        && |answers| == |questions|
        && done.value.score == CorrectCount(questions, answers)
           + (if answers[|questions| - 1] == questions[|questions| - 1].answer then 1 else 0)
      ensures (State(), done) == AfterNext(questions, old(State()))
    {
      if currentIndex == |questions| - 1 {
        done := Some(Completion(score + (if selectedAnswer == questions[currentIndex].answer then 1 else 0), |questions|));
      } else {
        Advance();
        done := None;
      }
    }

    /** `nextQuestion` as evidently intended: the last answer is counted once, so
        the report is the number of right answers over the whole deck. */
    method NextIntended() returns (done: Option<Completion>)
      requires Valid() && |questions| > 0 && showResult
      modifies this
      ensures Valid()
      ensures old(currentIndex) < |questions| - 1 ==>
        && done == None
        && currentIndex == old(currentIndex) + 1 && selectedAnswer == "" && !showResult
        && score == old(score) && answers == old(answers)
      ensures old(currentIndex) == |questions| - 1 ==>
        && done == Some(Completion(old(score), |questions|))
        && currentIndex == old(currentIndex) && selectedAnswer == old(selectedAnswer) && showResult
        && score == old(score) && answers == old(answers)
      ensures done.Some? ==>
        && |answers| == |questions|
        && done.value.score == CorrectCount(questions, answers) <= done.value.total
      ensures (State(), done) == AfterNextIntended(questions, old(State()))
    {
      if currentIndex == |questions| - 1 {
        done := Some(Completion(score, |questions|));
      } else {
        Advance();
        done := None;
      }
    }

    /** `handleKeyPress`: Enter submits while the result is hidden and something
        is selected, advances while the result is shown, and otherwise does
        nothing; other keys do nothing. */
    method HandleKey(key: string) returns (done: Option<Completion>)
      requires Valid() && |questions| > 0
      modifies this
      ensures Valid()
      ensures key != "Enter" || (!old(showResult) && old(selectedAnswer) == "") ==>
        && done == None
        && currentIndex == old(currentIndex) && selectedAnswer == old(selectedAnswer)
        && showResult == old(showResult) && score == old(score) && answers == old(answers)
      ensures key == "Enter" && !old(showResult) && old(selectedAnswer) != "" ==>
        && done == None && showResult && currentIndex == old(currentIndex)
        && selectedAnswer == old(selectedAnswer)
        && answers == old(answers) + [old(selectedAnswer)]
        && score == old(score) + (if old(IsCorrect()) then 1 else 0)
      ensures key == "Enter" && old(showResult) ==>
        && (done.Some? <==> old(currentIndex) == |questions| - 1)
        && score == old(score) && answers == old(answers)
        && (done.None? ==> currentIndex == old(currentIndex) + 1 && !showResult && selectedAnswer == "")
        && (done.Some? ==> done == Some(Completion(old(score) + (if old(IsCorrect()) then 1 else 0), |questions|)))
        && (done.Some? ==> State() == old(State()))
      ensures (State(), done) == KeyStep(questions, old(State()), key)
    {
      done := None;
      if key == "Enter" {
        if !showResult && selectedAnswer != "" {
          Submit();
        } else if showResult {
          done := Next();
        }
      }
    }

    /** Every input of the view. An empty deck shows only the back button, which
        reports `(0, 0)`; a non-empty deck shows the submit button while the result
        is hidden and the next button once it is shown. */
    method Handle(input: TestInput) returns (done: Option<Completion>)
      requires Valid()
      modifies this
      ensures Valid()
      ensures |questions| == 0 ==>
        && (done.Some? <==> input == BackButton)
        && (done.Some? ==> done.value == Completion(0, 0))
        && currentIndex == old(currentIndex) && selectedAnswer == old(selectedAnswer)
        && showResult == old(showResult) && score == old(score) && answers == old(answers)
      ensures |questions| > 0 && done.Some? ==>
        && old(showResult) && old(currentIndex) == |questions| - 1
        && done.value.total == |questions|
      ensures (State(), done) == Step(questions, old(State()), input)
    {
      done := None;
      if |questions| == 0 {
        if input == BackButton {
          done := Some(Completion(0, 0));
        }
        return;
      }
      match input
      case Choose(option) => Choose(option);
      case SubmitButton => if !showResult { Submit(); }
      case NextButton => if showResult { done := Next(); }
      case Key(key) => done := HandleKey(key);
      case BackButton =>
    }
  }

  function Item(id: string, answer: string): Question {
    Question(id, "Question " + id + "?", answer, Some([answer, "other"]), None)
  }

  /** A three-question deck whose answers are "a", "b" and "c". */
  function Deck(): seq<Question> {
    [Item("1", "a"), Item("2", "b"), Item("3", "c")]
  }

  /** The initial state of the view. */
  const Fresh := TestState(0, "", false, 0, [])

  /** Pick `option`, submit it, then press next, with `nextQuestion` as written. */
  function Answer(questions: seq<Question>, s: TestState, option: string): (TestState, Option<Completion>)
    requires s.currentIndex < |questions|
  {
    AfterNext(questions, Submitted(questions, Chosen(s, option)))
  }

  /** The same with the corrected `nextQuestion`. */
  function AnswerIntended(questions: seq<Question>, s: TestState, option: string): (TestState, Option<Completion>)
    requires s.currentIndex < |questions|
  {
    AfterNextIntended(questions, Submitted(questions, Chosen(s, option)))
  }

  /** Three questions answered right, wrong, right: as written, the completion
      reports a score of 3 out of 3, with the three answers kept in order. */
  lemma RightWrongRightAsWritten()
    ensures var s1 := Answer(Deck(), Fresh, "a").0;
      s1 == TestState(1, "", false, 1, ["a"]) &&
      var s2 := Answer(Deck(), s1, "x").0;
      s2 == TestState(2, "", false, 1, ["a", "x"]) &&
      Answer(Deck(), s2, "c") == (TestState(2, "c", true, 2, ["a", "x", "c"]), Some(Completion(3, 3)))
  {
    var q := Deck();
    assert q[0].answer == "a" && q[1].answer == "b" && q[2].answer == "c";
    assert Submitted(q, Chosen(Fresh, "a")) == TestState(0, "a", true, 1, ["a"]);
    assert AfterNext(q, TestState(0, "a", true, 1, ["a"])).0 == TestState(1, "", false, 1, ["a"]);
    assert "x" != "b";
    assert Submitted(q, Chosen(TestState(1, "", false, 1, ["a"]), "x")) == TestState(1, "x", true, 1, ["a", "x"]);
    assert AfterNext(q, TestState(1, "x", true, 1, ["a", "x"])).0 == TestState(2, "", false, 1, ["a", "x"]);
    assert Submitted(q, Chosen(TestState(2, "", false, 1, ["a", "x"]), "c")) == TestState(2, "c", true, 2, ["a", "x", "c"]);
  }

  /** The same run with the last answer counted once reports 2 out of 3, which is
      the number of right answers. */
  lemma RightWrongRightIntended()
    ensures var s1 := AnswerIntended(Deck(), Fresh, "a").0;
      s1 == TestState(1, "", false, 1, ["a"]) &&
      var s2 := AnswerIntended(Deck(), s1, "x").0;
      s2 == TestState(2, "", false, 1, ["a", "x"]) &&
      AnswerIntended(Deck(), s2, "c") == (TestState(2, "c", true, 2, ["a", "x", "c"]), Some(Completion(2, 3)))
    ensures CorrectCount(Deck(), ["a", "x", "c"]) == 2
  {
    var q := Deck();
    assert q[0].answer == "a" && q[1].answer == "b" && q[2].answer == "c";
    assert Submitted(q, Chosen(Fresh, "a")) == TestState(0, "a", true, 1, ["a"]);
    assert AfterNextIntended(q, TestState(0, "a", true, 1, ["a"])).0 == TestState(1, "", false, 1, ["a"]);
    assert "x" != "b";
    assert Submitted(q, Chosen(TestState(1, "", false, 1, ["a"]), "x")) == TestState(1, "x", true, 1, ["a", "x"]);
    assert AfterNextIntended(q, TestState(1, "x", true, 1, ["a", "x"])).0 == TestState(2, "", false, 1, ["a", "x"]);
    assert Submitted(q, Chosen(TestState(2, "", false, 1, ["a", "x"]), "c")) == TestState(2, "c", true, 2, ["a", "x", "c"]);
    assert ["a", "x", "c"][..2] == ["a", "x"] && ["a", "x"][..1] == ["a"] && ["a"][..0] == [];
  }
}
