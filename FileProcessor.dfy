/** The earlier pipeline of src/services/fileProcessor.ts: `FileProcessor` with
    its own dispatch, page-by-page PDF text, a mock question generator and
    `processFile`; and `AIQuestionGenerator`, which maps an AI reply without
    defaults. The readers, the clock and the AI service are inputs here. */
module FileProcessor {
  import opened Types
  import opened Text

  /** Which reader `extractText` hands the file to. */
  datatype Route = Pdf | Docx | PlainText | Unsupported

  const PdfMime := "application/pdf"
  const DocxMime := "application/vnd.openxmlformats-officedocument.wordprocessingml.document"
  const TextMime := "text/plain"
  const ExtractFailureMessage := "Failed to extract text from file"
  const NotEnoughContentMessage := "Not enough content to generate questions"
  const KeyNotConfiguredMessage := "OpenAI API key not configured"
  const AiFailureMessage := "Failed to generate questions with AI"

  /** The dispatch of `extractText`, tried in order on the MIME type and the
      lower-cased name: PDF, then DOCX, then plain text. */
  function RouteOf(file: FileInfo): (r: Route)
    ensures r == Pdf <==> file.mimeType == PdfMime || EndsWith(ToLower(file.name), ".pdf")
    ensures r == Docx <==> r != Pdf && (file.mimeType == DocxMime || EndsWith(ToLower(file.name), ".docx"))
    ensures r == PlainText <==> r !in {Pdf, Docx} && (file.mimeType == TextMime || EndsWith(ToLower(file.name), ".txt"))
  {
    var name := ToLower(file.name);
    if file.mimeType == PdfMime || EndsWith(name, ".pdf") then Pdf
    else if file.mimeType == DocxMime || EndsWith(name, ".docx") then Docx
    else if file.mimeType == TextMime || EndsWith(name, ".txt") then PlainText
    else Unsupported
  }

  /** One page: its text items joined by single spaces, then a line break. */
  function PageLine(items: seq<string>): string {
    Join(items, " ") + "\n"
  }

  /** The pages' lines, first page first, before trimming. */
  function PagesText(pages: seq<seq<string>>): string
    decreases |pages|
  {
    if pages == [] then "" else PagesText(pages[..|pages| - 1]) + PageLine(pages[|pages| - 1])
  }

  /** Page text assembles piecewise: the text of two runs of pages is the text of
      the first followed by that of the second. */
  lemma {:induction false} PagesTextAppend(a: seq<seq<string>>, b: seq<seq<string>>)
    ensures PagesText(a + b) == PagesText(a) + PagesText(b)
    decreases |b|
  {
    if b != [] {
      var k := |b| - 1;
      assert (a + b)[..|a + b| - 1] == a + b[..k];
      PagesTextAppend(a, b[..k]);
    } else {
      assert a + b == a;
    }
  }

  /** In particular the first page's line comes first. */
  lemma FirstPageFirst(pages: seq<seq<string>>)
    requires pages != []
    ensures PagesText(pages) == PageLine(pages[0]) + PagesText(pages[1..])
  {
    PagesTextAppend([pages[0]], pages[1..]);
    assert [pages[0]] + pages[1..] == pages;
    assert PagesText([pages[0]]) == PagesText([]) + PageLine(pages[0]);
  }

  /** The text `extractFromPDF` returns for the given pages. */
  function PdfText(pages: seq<seq<string>>): string {
    Trim(PagesText(pages))
  }

  /** `extractFromPDF`: the loop over pages 1..numPages that appends each page's
      line to `fullText`, which is trimmed at the end. */
  method ExtractFromPdf(pages: seq<seq<string>>) returns (text: string)
    ensures text == PdfText(pages)
  {
    var fullText := "";
    var i := 1;
    while i <= |pages|
      invariant 1 <= i <= |pages| + 1
      invariant fullText == PagesText(pages[..i - 1])
    {
      var pageText := Join(pages[i - 1], " ");
      assert pages[..i] == pages[..i - 1] + [pages[i - 1]];
      PagesTextAppend(pages[..i - 1], [pages[i - 1]]);
      assert PagesText([pages[i - 1]]) == PagesText([]) + PageLine(pages[i - 1]);
      fullText := fullText + pageText + "\n";
      i := i + 1;
    }
    assert pages[..|pages|] == pages;
    text := Trim(fullText);
  }

  /** `extractText`: every failure, an unsupported type included, surfaces as the
      one message "Failed to extract text from file". */
  function ExtractText(file: FileInfo, readers: Readers): (r: Result<string>)
    ensures r.Failure? ==> r.error == ExtractFailureMessage
    ensures RouteOf(file) == Unsupported ==> r.Failure?
    ensures RouteOf(file) == Pdf ==> (r.Success? <==> readers.pdf.Success?)
    ensures RouteOf(file) == Pdf && r.Success? ==> r.value == PdfText(readers.pdf.value)
    ensures RouteOf(file) == Docx ==> (r.Success? <==> readers.docx.Success?)
    ensures RouteOf(file) == Docx && r.Success? ==> readers.docx == r
    ensures RouteOf(file) == PlainText ==> (r.Success? <==> readers.text.Success?)
    ensures RouteOf(file) == PlainText && r.Success? ==> readers.text == r
  {
    match RouteOf(file)
    case Pdf =>
      if readers.pdf.Success? then Success(PdfText(readers.pdf.value)) else Failure(ExtractFailureMessage)
    case Docx =>
      if readers.docx.Success? then readers.docx else Failure(ExtractFailureMessage)
    case PlainText =>
      if readers.text.Success? then readers.text else Failure(ExtractFailureMessage)
    case Unsupported => Failure(ExtractFailureMessage)
  }

  /** `Math.min(Math.max(Math.floor(length / 500), 3), 20)`. */
  function MockCount(length: nat): (c: nat)
    ensures 3 <= c <= 20
    ensures length < 1500 ==> c == 3
    ensures 1500 <= length < 10500 ==> c == length / 500
    ensures length >= 10500 ==> c == 20
  {
    var perBlock := length / 500;
    var atLeast := if perBlock > 3 then perBlock else 3;
    if atLeast < 20 then atLeast else 20
  }

  /** The id of the `index`-th mock question, given the clock reading `now` taken for it. */
  function MockId(now: nat, index: nat): string {
    "q_" + NatToString(now) + "_" + NatToString(index)
  }

  /** The `index`-th mock question, numbered from 1 in its texts. */
  function MockQuestion(language: Language, now: nat, index: nat): (q: Question)
    ensures q.id == MockId(now, index) && q.kind == Some(MultipleChoice)
    ensures q.options.Some? && |q.options.value| == 4 && q.options.value[0] == q.answer
  {
    var number := NatToString(index + 1);
    match language
    case Kz =>
      Question(MockId(now, index), "Мәтіннен алынған сұрақ " + number + "?", "Жауап " + number,
        Some(["Жауап " + number, "Басқа нұсқа A", "Басқа нұсқа B", "Басқа нұсқа C"]), Some(MultipleChoice))
    case En =>
      Question(MockId(now, index), "Question " + number + " from the text?", "Answer " + number,
        Some(["Answer " + number, "Option A", "Option B", "Option C"]), Some(MultipleChoice))
  }

  /** `generateQuestions`: as many mock questions as `MockCount` of the text's
      length, each with its answer as the first of four options. `clock(i)` is the
      clock reading taken for the `i`-th id. */
  function GenerateQuestions(text: string, language: Language, clock: nat -> nat): (qs: seq<Question>)
    ensures |qs| == MockCount(|text|) && 3 <= |qs| <= 20
    ensures forall i :: 0 <= i < |qs| ==> qs[i] == MockQuestion(language, clock(i), i)
    ensures forall i :: 0 <= i < |qs| ==> AnswerAmongOptions(qs[i]) && qs[i].options.value[0] == qs[i].answer
  {
    seq(MockCount(|text|), i requires 0 <= i => MockQuestion(language, clock(i), i))
  }

  /** Mock ids are distinct by index, whatever the clock reads for each entry. */
  lemma MockIdsDistinct(text: string, language: Language, clock: nat -> nat, i: nat, j: nat)
    requires i < MockCount(|text|) && j < MockCount(|text|) && i != j
    ensures GenerateQuestions(text, language, clock)[i].id != GenerateQuestions(text, language, clock)[j].id
  {
    SeparatedNamesDistinct("q_" + NatToString(clock(i)), "q_" + NatToString(clock(j)), i, j);
  }

  /** `processFile`: extraction failures pass on unchanged; an empty text or one
      under 50 characters is refused before generation. */
  function ProcessFile(file: FileInfo, readers: Readers, language: Language, clock: nat -> nat): (r: Result<seq<Question>>)
    ensures ExtractText(file, readers).Failure? ==> r == Failure(ExtractFailureMessage)
    ensures ExtractText(file, readers).Success? && |ExtractText(file, readers).value| < 50 ==>
      r == Failure(NotEnoughContentMessage)
    ensures r.Success? <==> ExtractText(file, readers).Success? && |ExtractText(file, readers).value| >= 50
    ensures r.Success? ==> r.value == GenerateQuestions(ExtractText(file, readers).value, language, clock)
  {
    match ExtractText(file, readers)
    case Failure(e) => Failure(e)
    case Success(text) =>
      if text == "" || |text| < 50 then Failure(NotEnoughContentMessage)
      else Success(GenerateQuestions(text, language, clock))
  }

  /** The outcome of `AIQuestionGenerator`'s request and parse: a failure of any
      kind, or the parsed JSON array of questions. */
  datatype ArrayReply = ArrayFailed | ParsedArray(items: seq<RawQuestion>)

  /** The id of the `index`-th question of an `AIQuestionGenerator` batch, given
      the clock reading `now` taken for it. */
  function AiBatchId(now: nat, index: nat): string {
    "ai_q_" + NatToString(now) + "_" + NatToString(index)
  }

  /** The `.map` of `generateWithOpenAI`: order and length kept, options passed
      through as given (possibly absent). */
  function MapArrayQuestions(raws: seq<RawQuestion>, clock: nat -> nat): (qs: seq<Question>)
    ensures |qs| == |raws|
    ensures forall i :: 0 <= i < |raws| ==>
      && qs[i].id == AiBatchId(clock(i), i)
      && qs[i].question == raws[i].question && qs[i].answer == raws[i].answer
      && qs[i].options == raws[i].options && qs[i].kind == Some(MultipleChoice)
  {
    seq(|raws|, i requires 0 <= i < |raws| =>
      Question(AiBatchId(clock(i), i), raws[i].question, raws[i].answer, raws[i].options, Some(MultipleChoice)))
  }

  /** Ids within one `AIQuestionGenerator` batch are distinct, whatever the clock
      reads for each entry. */
  lemma AiBatchIdsDistinct(raws: seq<RawQuestion>, clock: nat -> nat, i: nat, j: nat)
    requires i < |raws| && j < |raws| && i != j
    ensures MapArrayQuestions(raws, clock)[i].id != MapArrayQuestions(raws, clock)[j].id
  {
    SeparatedNamesDistinct("ai_q_" + NatToString(clock(i)), "ai_q_" + NatToString(clock(j)), i, j);
  }

  /** `AIQuestionGenerator.generateWithOpenAI`: a missing key fails with its own
      message; every failure after it becomes one message. */
  function GenerateWithOpenAI(apiKey: Option<string>, clock: nat -> nat, reply: ArrayReply): (r: Result<seq<Question>>)
    ensures (apiKey.None? || apiKey.value == "") ==> r == Failure(KeyNotConfiguredMessage)
    ensures apiKey.Some? && apiKey.value != "" ==>
      (r.Success? <==> reply.ParsedArray?) && (r.Failure? ==> r.error == AiFailureMessage)
    ensures r.Success? ==> r.value == MapArrayQuestions(reply.items, clock)
  {
    if apiKey.None? || apiKey.value == "" then Failure(KeyNotConfiguredMessage)
    else
      match reply
      case ArrayFailed => Failure(AiFailureMessage)
      case ParsedArray(items) => Success(MapArrayQuestions(items, clock))
  }
}
