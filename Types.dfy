/** Shared record shapes of the study application (src/types/index.ts). */
module Types {

  datatype Option<T> = None | Some(value: T) {
    function GetOr(default: T): T {
      match this
      case Some(v) => v
      case None => default
    }
  }

  /** An operation that either produces a value or fails with an error message
      (a thrown `Error` in the source). */
  datatype Result<T> = Success(value: T) | Failure(error: string)

  /** The optional `type` tag of a question. */
  datatype QuestionKind = MultipleChoice | TrueFalse | ShortAnswer

  /** One generated study item. `options` is absent (`None`) or an ordered list. */
  datatype Question = Question(
    id: string,
    question: string,
    answer: string,
    options: Option<seq<string>>,
    kind: Option<QuestionKind>)

  /** The two interface languages, 'kz' and 'en'. */
  datatype Language = Kz | En

  /** The two study modes; the source's `StudyMode` adds `null`, written `Option<StudyMode>` here. */
  datatype StudyMode = Flashcards | Test

  /** An entry of an AI reply before it is turned into a `Question`. */
  datatype RawQuestion = RawQuestion(question: string, answer: string, options: Option<seq<string>>)

  /** A selected file: its name, its MIME type (`file.type`) and its size in bytes. */
  datatype FileInfo = FileInfo(name: string, mimeType: string, size: nat)

  /** What the foreign readers produce for a given file, each of which may fail:
      `file.text()`, the DOCX reader's raw text, and the PDF reader's pages, each
      page the list of its text items in order. */
  datatype Readers = Readers(
    text: Result<string>,
    docx: Result<string>,
    pdf: Result<seq<seq<string>>>)

  /** True when `answer` is one of the question's options. */
  predicate AnswerAmongOptions(q: Question) {
    q.options.Some? && q.answer in q.options.value
  }
}
