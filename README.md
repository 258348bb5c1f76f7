# Study app: a verified model of its interaction and pipeline logic

This project models a study-aid web application. A user supplies text, either
pasted or extracted from an uploaded file. An AI service turns the text into
multiple-choice questions. The user then reviews the questions with flashcards
or with a graded test.

The model covers five parts of the application:

- **Test mode** (`TestMode.dfy`). A class `TestSession` holds the fields the
  component updates: `currentIndex`, `selectedAnswer`, `showResult`, `score` and
  `answers`. Its invariant says that `answers` holds one entry per question
  answered so far, and that `score` is the number of right entries in it.
  Each handler (`submitAnswer`, `nextQuestion`, `handleKeyPress`, the buttons and
  the empty deck) is a method that states its whole new state. It is also tied to
  a pure transition over a `TestState` snapshot (`Submitted`, `AfterNext`,
  `KeyStep`, `Step`), which the run lemmas use. The option styling is the pure
  function `Classify`.
- **Flashcards** (`Flashcards.dfy`). A class `FlashcardSession` holds
  `(currentIndex, showAnswer)`. Each method is tied to a pure reference
  transition `Step`. Lemmas about runs of primary actions are proved on `Step`.
- **Real pipeline** (`RealFileProcessor.dfy`). This part is pure: extension
  dispatch, the PDF placeholder, the API-key and 100-character guards, the
  3000-character truncation, the mapping of the AI reply into questions, and
  `processFile` with its 50-character gate.
- **Earlier pipeline** (`FileProcessor.dfy`). Its own dispatch and error
  wrapping, and the page-by-page PDF text assembly. The assembly is a method with
  the source's loop, proved against `PdfText`. Also here: the mock generator with
  its clamped count, `processFile`, and the `AIQuestionGenerator` mapping.
- **Orchestrator** (`App.dfy`). A class `AppController` whose methods call the
  same setters as the handlers. Each method is tied to the pure transition
  `App.Step` over `AppState`. Each asynchronous handler is split at its one
  `await`. The first half shows 'processing'. The second half takes the outcome
  of the work (questions or an error message) as an input. `App.Dispatch` adds
  what the page renders: an event whose control is not on the current view
  changes nothing. Runs of such events are `App.Run`.

`Types.dfy` holds the shared records (`Question`, `Language`, `StudyMode`, the
foreign readers' outcomes). `Text.dfy` holds the JavaScript string built-ins the
code relies on: `toLowerCase`, `endsWith`, `trim`, `join`, and number-to-text
rendering.

The foreign calls are inputs of the model. These are the file readers, the PDF
and DOCX libraries, the OpenAI request, `JSON.parse` and `Date.now()`. A
`Readers` value gives what each reader returns for a file. An `AiReply` or
`ArrayReply` gives the outcome of the request and the parse. The clock is a function
`clock` from an entry's index to the value `Date.now()` returns for it.

In a few places the code's behaviour is narrower or different from what its
surrounding messages and names suggest. The model follows the code in each case:

- The test's completion adds the last answer's point a second time (see Findings).
- A generator reply without a `questions` field is not an error inside
  `generateQuestionsWithAI`: it becomes an empty list, and `processFile` refuses
  that list.
- A reply that does not parse is not reported apart: every failure inside the
  request block gets the one prefix "Failed to generate questions: ".
- `generateQuestionsWithAI` takes no question count, although `App.tsx` keeps one.

## Model

| member | source | states |
|---|---|---|
| TestMode.Classify | src/components/TestMode.tsx:101-121 | once the result is shown, each option is exactly one of correct answer, wrong pick (selected and not the answer) or neither; before that, it is selected exactly when it equals the selection |
| TestMode.CorrectCount | src/components/TestMode.tsx:54-59 | the number of right submissions never exceeds the number of submissions |
| TestMode.CorrectCountSnoc | src/components/TestMode.tsx:54-59 | one more submission raises the right-answer count by exactly one when it matches its question's answer, and leaves it unchanged otherwise |
| TestMode.CorrectCountFull | src/components/TestMode.tsx:57-59 | the count equals the number of submissions exactly when every submission was right |
| TestMode.TestSession.constructor | src/components/TestMode.tsx:27-31 | index 0, empty selection, result hidden, score 0, no answers; the session invariant holds |
| TestMode.TestSession.Choose | src/components/TestMode.tsx:125-133 | picking an option overwrites the selection only while the result is hidden; nothing else changes |
| TestMode.TestSession.Submit | src/components/TestMode.tsx:51-62 | an empty selection changes nothing; otherwise the selection is appended to the answers, the score rises by 1 exactly when the selection is the current answer, and the result is shown; the invariant (score = right answers) is kept |
| TestMode.TestSession.Advance | src/components/TestMode.tsx:67-71 | before the last question: index + 1, selection cleared, result hidden, score and answers kept |
| TestMode.StepKeepsValid | src/components/TestMode.tsx:33-133 | every input keeps the session invariant (one answer per question up to the current one, and the score is the number of right answers among them); a report comes only from the shown last question of a non-empty deck and gives the deck size as total, or from the empty deck's back button, which reports `(0, 0)` |
| TestMode.AsWrittenReport | src/components/TestMode.tsx:64-66 | as written, the report on the shown last question is the number of right answers plus one more when the last answer is right; an all-right deck of `n` reports `n + 1` |
| TestMode.IntendedReport | src/components/TestMode.tsx:64-66 | corrected: the report is the number of right answers over the whole deck, never more than its size |
| TestMode.TestSession.Next | src/components/TestMode.tsx:64-72 | as written: before the last question it advances with the selection cleared and the result hidden; on the last it reports `(score + (isCorrect ? 1 : 0), n)` with the state unchanged; this is `AfterNext` |
| TestMode.TestSession.NextIntended | src/components/TestMode.tsx:64-72 | corrected: on the last question it reports the number of right answers over the whole deck, counted once each, out of `n`; this is `AfterNextIntended` |
| TestMode.TestSession.HandleKey | src/components/TestMode.tsx:74-82 | Enter submits when the result is hidden and something is selected, keeping the selection; it advances or completes when the result is shown, keeping score and answers; otherwise, and for any other key, nothing changes; the whole new state is `KeyStep` |
| TestMode.TestSession.Handle | src/components/TestMode.tsx:33-45 | an empty deck offers only the back button, which reports `(0, 0)`; on a non-empty deck a completion happens only from the shown last question and reports the deck size; the whole new state is `Step` |
| TestMode.RightWrongRightAsWritten | src/components/TestMode.tsx:51-72 | three questions answered right, wrong, right: the intermediate states, and the code as written reporting 3 out of 3 with the answers kept in order |
| TestMode.RightWrongRightIntended | src/components/TestMode.tsx:51-72 | the same run with the corrected completion reports 2 out of 3, the number of right answers |
| Flashcards.Step | src/components/Flashcards.tsx:59-72 | every input keeps the index on a card; any index change moves by one and hides the answer; completion leaves the state unchanged and happens only on the last card; an empty deck responds only to its back button |
| Flashcards.RunPrefix | src/components/Flashcards.tsx:43-66 | before the last of `2n` primary actions, after `k` of them the deck shows card `k / 2`, revealed exactly when `k` is odd, with no completion |
| Flashcards.TwoPrimaryActions | src/components/Flashcards.tsx:60-66 | two primary actions from the start of a deck with two or more cards end on card 1 with its answer hidden |
| Flashcards.FullPassCompletesOnce | src/components/Flashcards.tsx:43-66 | `2n` primary actions on an `n`-card deck complete exactly once, on the last action |
| Flashcards.ArrowRightSkipsReveal | src/components/Flashcards.tsx:67-70 | ArrowRight on a hidden last card completes, while a click there only reveals |
| Flashcards.FlashcardSession.constructor | src/components/Flashcards.tsx:23-24 | starts on card 0 with the answer hidden |
| Flashcards.FlashcardSession.NextCard | src/components/Flashcards.tsx:43-50 | before the last card: index + 1 with the answer hidden and no completion; on the last card: completion with the state unchanged |
| Flashcards.FlashcardSession.PrevCard | src/components/Flashcards.tsx:52-57 | after the first card: index - 1 with the answer hidden; on the first card nothing changes |
| Flashcards.FlashcardSession.PrimaryAction | src/components/Flashcards.tsx:91 | a hidden answer is only revealed; a shown answer leads to `nextCard` |
| Flashcards.FlashcardSession.HandleKey | src/components/Flashcards.tsx:59-72 | Space and Enter are the primary action, ArrowLeft is `prevCard`, ArrowRight is `nextCard`, and other keys do nothing; this is the reference transition `Step` |
| Flashcards.FlashcardSession.Handle | src/components/Flashcards.tsx:26-38 | every input, the empty deck's back button included, has the effect `Step` gives it |
| Text.ToLower | src/services/realFileProcessor.ts:8 | lower-casing keeps the length and maps each character |
| Text.ToLowerIdempotent | src/services/fileProcessor.ts:14 | lower-casing twice is lower-casing once |
| Text.LeadingWhitespace | src/App.tsx:96 | the count of whitespace characters at the front: all of them are whitespace, and the character after them, if any, is not |
| Text.TrailingWhitespace | src/App.tsx:96 | the count of whitespace characters at the end: all of them are whitespace, and the character before them, if any, is not |
| Text.TrimIsSlice | src/services/fileProcessor.ts:47 | `trim` returns a contiguous slice of its input, and only whitespace is cut off |
| Text.TrimEdges | src/services/fileProcessor.ts:47 | a non-empty trimmed text starts and ends with a non-whitespace character |
| Text.TrimEmptyIff | src/App.tsx:96 | the trimmed text is empty exactly when the input is all whitespace |
| Text.NatToString | src/services/realFileProcessor.ts:144 | decimal text: at least one digit, at least two from 10 up, digits only |
| Text.NatToStringInjective | src/services/realFileProcessor.ts:144 | different numbers print differently |
| Text.SeparatedNamesDistinct | src/services/fileProcessor.ts:73 | `<p>_<i>` and `<q>_<j>` differ whenever `i != j`, whatever the prefixes `p` and `q` |
| RealFileProcessor.RouteOf | src/services/realFileProcessor.ts:7-23 | dispatch on the lower-cased name, in order: `.txt` or `text/plain` first, then `.pdf`, then `.docx`, otherwise unsupported |
| RealFileProcessor.RouteIgnoresCase | src/services/realFileProcessor.ts:8 | the dispatch depends only on the lower-cased name |
| RealFileProcessor.PdfPlaceholderText | src/services/realFileProcessor.ts:27-30 | the PDF placeholder starts with its fixed text, then names the file, and ends with its size in bytes |
| RealFileProcessor.ExtractText | src/services/realFileProcessor.ts:6-43 | unsupported types fail with the message listing .txt, .pdf and .docx; PDFs give the placeholder whatever the readers do; plain text is the reader's outcome as is; a DOCX reader success is returned as is and its failure becomes one fixed message |
| RealFileProcessor.Truncate | src/services/realFileProcessor.ts:57-61 | texts of up to 3000 characters are unchanged; longer ones become their first 3000 characters plus "..."; the result never exceeds 3003 characters and begins with the input's first characters |
| RealFileProcessor.RequestText | src/services/realFileProcessor.ts:47-61 | a missing key fails first; otherwise a text under 100 characters fails with "Text too short..."; the request goes ahead exactly when neither holds, carrying the truncated text |
| RealFileProcessor.MapAiQuestions | src/services/realFileProcessor.ts:141-149 | length and order kept; each question gets id `ai_<clock(i)>_<i>` and the multiple-choice tag; without options it gets `[answer, 'Option A', 'Option B', 'Option C']`, so its answer is among them |
| RealFileProcessor.AiIdsDistinct | src/services/realFileProcessor.ts:144 | ids within one batch are distinct, whatever the clock reads for each entry |
| RealFileProcessor.GenerateQuestionsWithAI | src/services/realFileProcessor.ts:46-155 | guard failures come back unchanged; after the guards an HTTP error gives "Failed to generate questions: OpenAI API error: <message or 'Unknown error'>", a failed request or parse gives the prefix followed by its own message; success happens exactly when the reply parsed, and gives the mapped questions (none when the field is missing) |
| RealFileProcessor.GuardsPrecedeRequest | src/services/realFileProcessor.ts:49-55 | with a missing key or a short text the outcome is a failure that does not depend on the reply |
| RealFileProcessor.ProcessFile | src/services/realFileProcessor.ts:158-184 | extraction failures pass on unchanged; extracted text under 50 characters is refused; otherwise a generator failure passes on unchanged, an empty list is refused with "No questions could be generated from this content", and a non-empty list is the result; success holds exactly when extraction succeeds, the text has 50 characters or more, and the generator gives a non-empty list |
| RealFileProcessor.ShortTextStoppedByGenerator | src/services/realFileProcessor.ts:166-171 | a text of 50 to 99 characters passes the file gate but is refused by the generator's own check |
| RealFileProcessor.MissingQuestionsRefused | src/services/realFileProcessor.ts:141-175 | a reply without `questions` becomes an empty list, which `processFile` refuses |
| FileProcessor.RouteOf | src/services/fileProcessor.ts:12-25 | dispatch in order on the MIME type or the lower-cased name: PDF first, then DOCX, then plain text |
| FileProcessor.PagesTextAppend | src/services/fileProcessor.ts:38-45 | the page text of two runs of pages is the first's followed by the second's |
| FileProcessor.FirstPageFirst | src/services/fileProcessor.ts:38-45 | the first page's space-joined line and its line break come before the rest |
| FileProcessor.ExtractFromPdf | src/services/fileProcessor.ts:33-48 | the loop over pages 1..numPages yields the trimmed concatenation of the pages' lines, in page order |
| FileProcessor.ExtractText | src/services/fileProcessor.ts:12-30 | every failure, unsupported types included, is "Failed to extract text from file"; for PDF, DOCX and plain text the extraction succeeds exactly when the matching reader does, and then gives that reader's text (the PDF's assembled from its pages) |
| FileProcessor.MockCount | src/services/fileProcessor.ts:70 | the count always lies in [3, 20]; it is 3 below 1500 characters, `floor(len / 500)` from 1500 to 10499, and 20 from there on |
| FileProcessor.MockQuestion | src/services/fileProcessor.ts:72-82 | id `q_<now>_<i>` for the clock reading `now` of entry `i`, the multiple-choice tag, four options with the answer first |
| FileProcessor.GenerateQuestions | src/services/fileProcessor.ts:63-83 | exactly `MockCount(len)` questions, between 3 and 20, each with its answer as its first option |
| FileProcessor.MockIdsDistinct | src/services/fileProcessor.ts:73 | mock ids are distinct by index, whatever the clock reads for each entry |
| FileProcessor.ProcessFile | src/services/fileProcessor.ts:86-103 | extraction failures pass on; empty text or text under 50 characters is refused before generation; otherwise the mock questions for that text |
| FileProcessor.MapArrayQuestions | src/services/fileProcessor.ts:141-147 | length and order kept; options passed through as given, with no default |
| FileProcessor.AiBatchIdsDistinct | src/services/fileProcessor.ts:142 | ids within one batch are distinct, whatever the clock reads for each entry |
| FileProcessor.GenerateWithOpenAI | src/services/fileProcessor.ts:109-153 | a missing key fails with "OpenAI API key not configured"; after it, success happens exactly when the reply parsed as an array, and every failure is "Failed to generate questions with AI" |
| App.MockQuestions | src/App.tsx:34-53 | three demo questions with ids "1" to "3", each answer among its options |
| App.Step | src/App.tsx:55-141 | the transitions keep "the study view has a mode"; the study view is entered only by choosing a mode or opening an upload; the questions change only on a successful outcome (to its list) or an opened upload (to the demo list) |
| App.BlankTextIgnored | src/App.tsx:96-99 | submitting empty or whitespace-only text changes nothing and raises the alert |
| App.TextStartsProcessing | src/App.tsx:101-102 | other text sets the current file to "Pasted Text" and the view to 'processing' |
| App.HandlersShowProcessing | src/App.tsx:55-57 | both handlers show 'processing' before their work runs |
| App.SuccessShowsModeSelection | src/App.tsx:66-113 | on success the questions are replaced and the mode selection is shown; the text path also clears the pasted text |
| App.FailureReturnsHome | src/App.tsx:69-119 | on failure the view is 'home', the questions are kept, and "Error: <message>" is shown |
| App.UploadSkipsModeSelection | src/App.tsx:240-259 | the uploads list goes straight to 'study' with the demo questions and the chosen mode |
| App.CompletionReturnsHome | src/App.tsx:134-141 | completion always gives 'home' and no mode, whatever the score arguments |
| App.LogoReturnsHome | src/App.tsx:346-348 | the logo gives 'home' from any view and keeps the questions and the mode |
| App.Dispatch | src/App.tsx:143-389 | an event whose control the current view renders has its handler's effect, any other changes nothing; "the study view has a mode" is kept; the study view is entered only by a mode button on the mode selection or a study button on the home view; the mode selection is entered only by a successful outcome; the only alert is "Error: <message>" of a failed outcome |
| App.RunKeepsPageInv | src/App.tsx:13-19 | every run of page events keeps "the study view has a mode" and a question count among the initial 5 and the selector's 10, 20, 40, 50 |
| App.StudyOnlyThroughGate | src/App.tsx:240-298 | a run that starts outside the study view and ends in it contains a mode button pressed on the mode selection or a study button pressed on the home view |
| App.FileStudyRoundTrip | src/App.tsx:55-141 | home, processing, mode selection, study, home, each event offered by the page where it is raised, with the generated questions held from the success on |
| App.TextStudyRoundTrip | src/App.tsx:95-141 | the same for pasted text: typed, submitted, processed, studied, with the text area cleared once the questions arrive |
| App.AppController.constructor | src/App.tsx:10-19 | the initial hook values |
| App.AppController.BeginFileUpload | src/App.tsx:55-57 | sets the current file and the 'processing' view, as `Step` says |
| App.AppController.FinishFileUpload | src/App.tsx:59-73 | success stores the questions and shows the mode selection; failure alerts and returns home |
| App.AppController.BeginTextProcess | src/App.tsx:95-102 | starts exactly when the trimmed text is non-empty |
| App.AppController.FinishTextProcess | src/App.tsx:104-119 | as for files, and a success also clears the pasted text |
| App.AppController.ChooseMode | src/App.tsx:90-93 | sets the mode and the 'study' view |
| App.AppController.OpenUpload | src/App.tsx:240-259 | sets the file name and the demo questions, then starts the study |
| App.AppController.CompleteStudy | src/App.tsx:134-141 | 'home' and no mode |
| App.AppController.ClickLogo | src/App.tsx:346-348 | 'home', nothing else changed |
| App.AppController.EditText | src/App.tsx:151 | stores the typed text |
| App.AppController.ChooseLanguage | src/App.tsx:357-369 | stores the language |
| App.AppController.ChooseCount | src/App.tsx:163-172 | stores the question count |

## Findings

| source | as written | input that shows it | evidently intended | confidence | as-written member | corrected member |
|---|---|---|---|---|---|---|
| src/components/TestMode.tsx:66 | on the last question the report is `score + (isCorrect ? 1 : 0)`, but `submitAnswer` (:57-58) already added the last answer's point to `score`, so a right last answer counts twice | three questions answered right, wrong, right: reported 3 out of 3; a deck of `n` answered entirely right: reported `n + 1` out of `n` | report `score`, the number of right answers counted once each: 2 out of 3 | high (not executed) | TestMode.AsWrittenReport | TestMode.IntendedReport |

`TestMode.AfterNext` and the method `TestMode.TestSession.Next` are the code as
written; `TestMode.AsWrittenReport` states the extra point for every deck, and
`TestMode.RightWrongRightAsWritten` shows it on three questions. The corrected
`AfterNextIntended` and `TestSession.NextIntended` report the right answers
counted once (`TestMode.IntendedReport`), 2 out of 3 on the same run
(`TestMode.RightWrongRightIntended`). The orchestrator ignores
the reported score (`handleStudyComplete` only logs it), so nothing else in the
model depends on which variant is used.

## Left out

- `Date.now()`: its readings are the parameter `clock`, one value per entry, so any clock behaviour is covered; ids of different batches are not compared.
- Text.ToLower: only ASCII letters are lower-cased. Full Unicode case mapping, which can change a string's length, is not modelled.
- JavaScript string lengths count UTF-16 code units. The model counts characters, so the two differ for characters outside the Basic Multilingual Plane.
- The prompt texts, the system message and the request body (model name, temperature, token budget) are natural-language and network parameters. For the same reason `generateQuestionsWithAI` has no language parameter here: the language only selects the prompt.
- `RealFileProcessor.saveFileAndProcess` and `RealFileProcessor.processText`, which `App.tsx` calls, are not in the repository's processor file. The App handlers take their outcome as an input. The selected question count is therefore stored but not passed on.
- App.Step and the App.AppController methods are the handlers themselves and apply in any view; which view offers which control is `App.Dispatch`. App.AppController.FinishFileUpload and App.AppController.FinishTextProcess apply in any view in both. A late resolution after the logo was clicked is modelled this way. Interleavings of several requests in flight are not modelled further.
- React rendering: CSS, markup, re-render timing, the result banner and the icons. Only the option classification is modelled.
- The mock uploads `useEffect`, sign-in (`handleAuth`, `AuthModal.tsx`), the persistence calls in `src/services/supabase.ts` and the translation table in `src/utils/translations.ts`. They are UI, external services or static data. The uploads list is not gated on sign-in in the model: `App.Dispatch` offers its buttons on every home view.
- `handleDrop` and `handleFileSelect`: they only pass the first chosen file to `handleFileUpload`, which is modelled.
- Errors thrown as something other than an `Error` (reported as 'Unknown error'). Also left out: reply entries whose fields are absent or not strings, and a `questions` field that exists but is not an array. Reply entries are modelled as records of strings.
- `console` logging.
