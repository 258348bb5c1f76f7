/** The top-level view-state machine of src/App.tsx. Each asynchronous handler
    is split at its single `await`: the part before it (the view becomes
    'processing') and the part after it, which takes the outcome of the work as
    an input and is applied atomically. */
module App {
  import opened Types
  import opened Text

  /** `currentView`. */
  datatype View = Home | Processing | StudySelect | Study

  /** The orchestrator's state: `currentView`, `studyMode`, `questions`,
      `pastedText`, `currentFile`, `language` and `questionCount`. */
  datatype AppState = AppState(
    view: View,
    studyMode: Option<StudyMode>,
    questions: seq<Question>,
    pastedText: string,
    currentFile: string,
    language: Language,
    questionCount: nat)

  /** The initial values of the `useState` hooks. */
  const Initial := AppState(Home, None, [], "", "", Kz, 5)

  const EmptyTextAlert := "Please enter some text to generate questions from"
  const PastedTextLabel := "Pasted Text"

  /** The events that change the orchestrator's state. */
  datatype Event =
    | FileChosen(fileName: string)                        // handleFileUpload, before the await
    | FileProcessed(outcome: Result<seq<Question>>)       // handleFileUpload, after the await
    | TextSubmitted                                       // handleTextProcess, before the await
    | TextProcessed(outcome: Result<seq<Question>>)       // handleTextProcess, after the await
    | ModeChosen(mode: StudyMode)                         // startStudy from the mode selection
    | UploadOpened(uploadName: string, mode: StudyMode)   // a study button of the uploads list
    | StudyCompleted(score: Option<int>, total: Option<int>) // handleStudyComplete
    | LogoClicked
    | TextEdited(text: string)
    | LanguageChosen(language: Language)
    | CountChosen(count: nat)

  /** A new state and the message shown with `alert`, if any. */
  datatype Transition = Transition(state: AppState, alert: Option<string>)

  /** The three demo questions the uploads list studies, in the current language. */
  function MockQuestions(language: Language): (qs: seq<Question>)
    ensures |qs| == 3
    ensures forall i :: 0 <= i < |qs| ==> AnswerAmongOptions(qs[i]) && qs[i].id == NatToString(i + 1)
  {
    match language
    case Kz => [
      Question("1", "Математикада 2+2 неге тең?", "4", Some(["3", "4", "5", "6"]), None),
      Question("2", "Жер планетасының табиғи серіктеші қандай?", "Ай", Some(["Күн", "Ай", "Марс", "Венера"]), None),
      Question("3", "H2O формуласы нені білдіреді?", "Су", Some(["Су", "Оттегі", "Сутегі", "Озон"]), None)]
    case En => [
      Question("1", "What is 2+2 in mathematics?", "4", Some(["3", "4", "5", "6"]), None),
      Question("2", "What is the natural satellite of Earth?", "Moon", Some(["Sun", "Moon", "Mars", "Venus"]), None),
      Question("3", "What does the formula H2O represent?", "Water", Some(["Water", "Oxygen", "Hydrogen", "Ozone"]), None)]
  }

  /** The study view is only ever shown with a chosen mode. */
  predicate Inv(s: AppState) {
    s.view == Study ==> s.studyMode.Some?
  }

  /** `startStudy(mode)`. */
  function StartStudy(s: AppState, mode: StudyMode): AppState {
    s.(studyMode := Some(mode), view := Study)
  }

  /** The effect of one event. */
  function Step(s: AppState, e: Event): (t: Transition)
    ensures Inv(s) ==> Inv(t.state)
    ensures s.view != Study && t.state.view == Study ==> e.ModeChosen? || e.UploadOpened?
    ensures t.state.questions != s.questions ==>
      || ((e.FileProcessed? || e.TextProcessed?) && e.outcome.Success? && t.state.questions == e.outcome.value)
      || (e.UploadOpened? && t.state.questions == MockQuestions(s.language))
  {
    match e
    case FileChosen(name) =>
      Transition(s.(currentFile := name, view := Processing), None)
    case FileProcessed(outcome) =>
      (match outcome
       case Success(qs) => Transition(s.(questions := qs, view := StudySelect), None)
       case Failure(msg) => Transition(s.(view := Home), Some("Error: " + msg)))
    case TextSubmitted =>
      if Trim(s.pastedText) == "" then Transition(s, Some(EmptyTextAlert))
      else Transition(s.(currentFile := PastedTextLabel, view := Processing), None)
    case TextProcessed(outcome) =>
      (match outcome
       case Success(qs) => Transition(s.(questions := qs, view := StudySelect, pastedText := ""), None)
       case Failure(msg) => Transition(s.(view := Home), Some("Error: " + msg)))
    case ModeChosen(mode) =>
      Transition(StartStudy(s, mode), None)
    case UploadOpened(name, mode) =>
      Transition(StartStudy(s.(currentFile := name, questions := MockQuestions(s.language)), mode), None)
    case StudyCompleted(_, _) =>
      Transition(s.(view := Home, studyMode := None), None)
    case LogoClicked =>
      Transition(s.(view := Home), None)
    case TextEdited(text) =>
      Transition(s.(pastedText := text), None)
    case LanguageChosen(language) =>
      Transition(s.(language := language), None)
    case CountChosen(count) =>
      Transition(s.(questionCount := count), None)
  }

  /** Submitting empty or whitespace-only text only raises the alert. */
  lemma BlankTextIgnored(s: AppState)
    requires AllWhitespace(s.pastedText)
    ensures Step(s, TextSubmitted) == Transition(s, Some(EmptyTextAlert))
  {
    TrimEmptyIff(s.pastedText);
  }

  /** Text with a non-whitespace character starts processing. */
  lemma TextStartsProcessing(s: AppState)
    requires !AllWhitespace(s.pastedText)
    ensures Step(s, TextSubmitted).state == s.(currentFile := PastedTextLabel, view := Processing)
  {
    TrimEmptyIff(s.pastedText);
  }

  /** Both handlers show 'processing' before their work runs, whatever the view was. */
  lemma HandlersShowProcessing(s: AppState, fileName: string)
    ensures Step(s, FileChosen(fileName)).state.view == Processing
    ensures Step(s, FileChosen(fileName)).state.currentFile == fileName
    ensures Trim(s.pastedText) != "" ==> Step(s, TextSubmitted).state.view == Processing
  {
  }

  /** On success the questions are replaced and the mode selection is shown; the
      text path also clears the pasted text. */
  lemma SuccessShowsModeSelection(s: AppState, qs: seq<Question>)
    ensures Step(s, FileProcessed(Success(qs))).state == s.(questions := qs, view := StudySelect)
    ensures Step(s, TextProcessed(Success(qs))).state == s.(questions := qs, view := StudySelect, pastedText := "")
  {
  }

  /** On failure the view returns home with the questions kept, and the message is shown. */
  lemma FailureReturnsHome(s: AppState, msg: string)
    ensures Step(s, FileProcessed(Failure(msg))) == Transition(s.(view := Home), Some("Error: " + msg))
    ensures Step(s, TextProcessed(Failure(msg))) == Transition(s.(view := Home), Some("Error: " + msg))
  {
  }

  /** The uploads list goes straight to the study view with the demo questions. */
  lemma UploadSkipsModeSelection(s: AppState, name: string, mode: StudyMode)
    ensures Step(s, UploadOpened(name, mode)).state.view == Study
    ensures Step(s, UploadOpened(name, mode)).state.questions == MockQuestions(s.language)
    ensures Step(s, UploadOpened(name, mode)).state.studyMode == Some(mode)
  {
  }

  /** Completion always returns home and clears the mode, whatever the score arguments. */
  lemma CompletionReturnsHome(s: AppState, score: Option<int>, total: Option<int>)
    ensures Step(s, StudyCompleted(score, total)).state == s.(view := Home, studyMode := None)
  {
  }

  /** The logo returns home from any view and keeps the questions and the mode. */
  lemma LogoReturnsHome(s: AppState)
    ensures Step(s, LogoClicked).state == s.(view := Home)
  {
  }

  /** Whether the page offers the control that raises `e` in state `s`. The text
      area, the count selector, the Generate button, the drop zone and the
      uploads list are rendered in the home view only; the mode buttons in the
      mode selection only; the study components report completion from the study
      view; the logo and the language toggle sit in the header of every view.
      The Generate button is disabled while the text is blank, and the selector
      offers 10, 20, 40 and 50. A processing outcome arrives whatever the view is
      by then. */
  predicate Enabled(s: AppState, e: Event) {
    match e
    case FileChosen(_) => s.view == Home
    case TextSubmitted => s.view == Home && Trim(s.pastedText) != ""
    case TextEdited(_) => s.view == Home
    case CountChosen(count) => s.view == Home && (count == 10 || count == 20 || count == 40 || count == 50)
    case UploadOpened(_, _) => s.view == Home
    case ModeChosen(_) => s.view == StudySelect
    case StudyCompleted(_, _) => s.view == Study
    case FileProcessed(_) => true
    case TextProcessed(_) => true
    case LogoClicked => true
    case LanguageChosen(_) => true
  }

  /** One of the two ways into the study view, fired where the page offers it:
      a mode button of the mode selection, or a study button of the uploads list
      on the home view. */
  predicate EntersStudy(s: AppState, e: Event) {
    (s.view == StudySelect && e.ModeChosen?) || (s.view == Home && e.UploadOpened?)
  }

  /** An event as the page delivers it: one whose control is not on the page
      changes nothing. The only alert the page can show is a processing
      failure; the blank-text alert of `handleTextProcess` needs the disabled
      Generate button. */
  function Dispatch(s: AppState, e: Event): (t: Transition)
    ensures Enabled(s, e) ==> t == Step(s, e)
    ensures !Enabled(s, e) ==> t == Transition(s, None)
    ensures Inv(s) ==> Inv(t.state)
    ensures s.view != Study && t.state.view == Study ==> EntersStudy(s, e)
    ensures s.view != StudySelect && t.state.view == StudySelect ==>
      (e.FileProcessed? || e.TextProcessed?) && e.outcome.Success?
    ensures t.alert.Some? ==>
      (e.FileProcessed? || e.TextProcessed?) && e.outcome.Failure? && t.alert == Some("Error: " + e.outcome.error)
  {
    if Enabled(s, e) then Step(s, e) else Transition(s, None)
  }

  /** The state after a sequence of events delivered by the page, in order. */
  function Run(s: AppState, es: seq<Event>): AppState
    decreases |es|
  {
    if es == [] then s else Dispatch(Run(s, es[..|es| - 1]), es[|es| - 1]).state
  }

  /** The question counts the state can hold: the initial 5 and the selector's options. */
  predicate CountOffered(count: nat) {
    count == 5 || count == 10 || count == 20 || count == 40 || count == 50
  }

  /** What every run from the initial state keeps. */
  predicate PageInv(s: AppState) {
    Inv(s) && CountOffered(s.questionCount)
  }

  lemma {:induction false} RunKeepsPageInv(s: AppState, es: seq<Event>)
    requires PageInv(s)
    ensures PageInv(Run(s, es))
    decreases |es|
  {
    if es != [] {
      RunKeepsPageInv(s, es[..|es| - 1]);
      DispatchKeepsPageInv(Run(s, es[..|es| - 1]), es[|es| - 1]);
    }
  }

  /** One page event keeps the page invariant: the selector offers only the
      listed counts. */
  lemma DispatchKeepsPageInv(s: AppState, e: Event)
    requires PageInv(s)
    ensures PageInv(Dispatch(s, e).state)
  {
    if e.CountChosen? && Enabled(s, e) {
      assert Dispatch(s, e).state.questionCount == e.count;
    }
  }

  /** A run that starts outside the study view and ends in it passed through
      a mode button on the mode selection or a study button of the uploads list. */
  lemma {:induction false} StudyOnlyThroughGate(s: AppState, es: seq<Event>)
    requires s.view != Study && Run(s, es).view == Study
    ensures exists k :: 0 <= k < |es| && EntersStudy(Run(s, es[..k]), es[k])
    decreases |es|
  {
    assert es != [];
    var n := |es| - 1;
    var p := es[..n];
    if Run(s, p).view == Study {
      StudyOnlyThroughGate(s, p);
      var k :| 0 <= k < |p| && EntersStudy(Run(s, p[..k]), p[k]);
      assert p[..k] == es[..k];
    } else {
      assert EntersStudy(Run(s, es[..n]), es[n]);
    }
  }

  /** The whole flow for a file, with every event offered by the page where it
      is raised: home, processing, mode selection, study, home, with the
      generated questions held throughout. */
  lemma FileStudyRoundTrip(name: string, qs: seq<Question>, mode: StudyMode, score: Option<int>, total: Option<int>)
    ensures
      var s1 := Dispatch(Initial, FileChosen(name)).state;
      var s2 := Dispatch(s1, FileProcessed(Success(qs))).state;
      var s3 := Dispatch(s2, ModeChosen(mode)).state;
      var s4 := Dispatch(s3, StudyCompleted(score, total)).state;
      && Enabled(Initial, FileChosen(name)) && Enabled(s2, ModeChosen(mode)) && Enabled(s3, StudyCompleted(score, total))
      && s1.view == Processing && s2.view == StudySelect && s3.view == Study && s4.view == Home
      && s3.studyMode == Some(mode) && s4.studyMode == None
      && s2.questions == s3.questions == s4.questions == qs
  {
  }

  /** The same flow for pasted text: typed on the home view, submitted, processed,
      studied; the text area is cleared once the questions arrive. */
  lemma TextStudyRoundTrip(text: string, qs: seq<Question>, mode: StudyMode, score: Option<int>, total: Option<int>)
    requires !AllWhitespace(text)
    ensures
      var s0 := Dispatch(Initial, TextEdited(text)).state;
      var s1 := Dispatch(s0, TextSubmitted).state;
      var s2 := Dispatch(s1, TextProcessed(Success(qs))).state;
      var s3 := Dispatch(s2, ModeChosen(mode)).state;
      var s4 := Dispatch(s3, StudyCompleted(score, total)).state;
      && Enabled(s0, TextSubmitted) && Enabled(s2, ModeChosen(mode)) && Enabled(s3, StudyCompleted(score, total))
      && s0.pastedText == text && s1.view == Processing && s1.currentFile == PastedTextLabel
      && s2.view == StudySelect && s2.pastedText == "" && s3.view == Study && s4.view == Home
      && s2.questions == s3.questions == s4.questions == qs
  {
    TrimEmptyIff(text);
  }

  class AppController {
    var view: View
    var studyMode: Option<StudyMode>
    var questions: seq<Question>
    var pastedText: string
    var currentFile: string
    var language: Language
    var questionCount: nat

    function State(): AppState
      reads this
    {
      AppState(view, studyMode, questions, pastedText, currentFile, language, questionCount)
    }

    ghost predicate Valid()
      reads this
    {
      Inv(State())
    }

    constructor ()
      ensures Valid() && State() == Initial
    {
      view, studyMode, questions := Home, None, [];
      pastedText, currentFile := "", "";
      language, questionCount := Kz, 5;
    }

    /** `handleFileUpload` up to its await. */
    method BeginFileUpload(fileName: string)
      requires Valid()
      modifies this
      ensures Valid() && State() == Step(old(State()), FileChosen(fileName)).state
    {
      currentFile := fileName;
      view := Processing;
    }

    /** `handleFileUpload` after its await, given the outcome of the processing. */
    method FinishFileUpload(outcome: Result<seq<Question>>) returns (alert: Option<string>)
      requires Valid()
      modifies this
      ensures Valid()
      ensures Transition(State(), alert) == Step(old(State()), FileProcessed(outcome))
    {
      alert := None;
      match outcome
      case Success(qs) =>
        questions := qs;
        view := StudySelect;
      case Failure(msg) =>
        alert := Some("Error: " + msg);
        view := Home;
    }

    /** `handleTextProcess` up to its await; `started` is false when the text is blank. */
    method BeginTextProcess() returns (started: bool, alert: Option<string>)
      requires Valid()
      modifies this
      ensures Valid()
      ensures Transition(State(), alert) == Step(old(State()), TextSubmitted)
      ensures started <==> Trim(old(pastedText)) != ""
    {
      if Trim(pastedText) == "" {
        alert := Some(EmptyTextAlert);
        started := false;
        return;
      }
      started, alert := true, None;
      currentFile := PastedTextLabel;
      view := Processing;
    }

    /** `handleTextProcess` after its await, given the outcome of the processing. */
    method FinishTextProcess(outcome: Result<seq<Question>>) returns (alert: Option<string>)
      requires Valid()
      modifies this
      ensures Valid()
      ensures Transition(State(), alert) == Step(old(State()), TextProcessed(outcome))
    {
      alert := None;
      match outcome
      case Success(qs) =>
        questions := qs;
        view := StudySelect;
        pastedText := "";
      case Failure(msg) =>
        alert := Some("Error: " + msg);
        view := Home;
    }

    /** `startStudy`. */
    method ChooseMode(mode: StudyMode)
      requires Valid()
      modifies this
      ensures Valid() && State() == Step(old(State()), ModeChosen(mode)).state
    {
      studyMode := Some(mode);
      view := Study;
    }

    /** A study button of the uploads list. */
    method OpenUpload(uploadName: string, mode: StudyMode)
      requires Valid()
      modifies this
      ensures Valid() && State() == Step(old(State()), UploadOpened(uploadName, mode)).state
    {
      currentFile := uploadName;
      questions := MockQuestions(language);
      ChooseMode(mode);
    }

    /** `handleStudyComplete`. */
    method CompleteStudy(score: Option<int>, total: Option<int>)
      requires Valid()
      modifies this
      ensures Valid() && State() == Step(old(State()), StudyCompleted(score, total)).state
    {
      view := Home;
      studyMode := None;
    }

    /** The logo button. */
    method ClickLogo()
      requires Valid()
      modifies this
      ensures Valid() && State() == Step(old(State()), LogoClicked).state
    {
      view := Home;
    }

    /** The text area, the language toggle and the question-count selector. */
    method EditText(text: string)
      requires Valid()
      modifies this
      ensures Valid() && State() == Step(old(State()), TextEdited(text)).state
    {
      pastedText := text;
    }

    method ChooseLanguage(lang: Language)
      requires Valid()
      modifies this
      ensures Valid() && State() == Step(old(State()), LanguageChosen(lang)).state
    {
      language := lang;
    }

    method ChooseCount(count: nat)
      requires Valid()
      modifies this
      ensures Valid() && State() == Step(old(State()), CountChosen(count)).state
    {
      questionCount := count;
    }
  }
}
