/** The text-to-questions pipeline of src/services/realFileProcessor.ts: file
    dispatch, the generator's guards and truncation, the mapping of the AI reply
    into questions, and `processFile`. The reading of files, the network request
    and the JSON parsing are foreign; their outcomes are inputs here. */
module RealFileProcessor {
  import opened Types
  import opened Text

  /** Which reader `extractText` hands the file to. */
  datatype Route = PlainText | PdfPlaceholder | Docx | Unsupported

  const UnsupportedMessage := "Unsupported file type. Please use .txt, .pdf, or .docx files."
  const DocxFailureMessage := "Failed to extract text from DOCX file"
  const MissingKeyMessage := "OpenAI API key not found. Please add REACT_APP_OPENAI_API_KEY to your .env file"
  const TooShortMessage := "Text too short to generate meaningful questions"
  const GenerateFailurePrefix := "Failed to generate questions: "
  const TooLittleTextMessage := "File contains too little text to generate questions"
  const NoQuestionsMessage := "No questions could be generated from this content"
  const PdfPlaceholderPrefix := "PDF content extraction will be implemented. File: "

  /** The generator refuses texts shorter than this. */
  const MinGeneratorLength := 100
  /** `processFile` refuses extracted texts shorter than this. */
  const MinFileTextLength := 50
  /** `maxTextLength`: longer texts are cut to this many characters. */
  const MaxTextLength := 3000

  /** The dispatch of `extractText`, tried in order on the lower-cased name:
      `.txt` or MIME `text/plain` first, then `.pdf`, then `.docx`. */
  function RouteOf(file: FileInfo): (r: Route)
    ensures r == PlainText <==> EndsWith(ToLower(file.name), ".txt") || file.mimeType == "text/plain"
    ensures r == PdfPlaceholder <==> r != PlainText && EndsWith(ToLower(file.name), ".pdf")
    ensures r == Docx <==> r !in {PlainText, PdfPlaceholder} && EndsWith(ToLower(file.name), ".docx")
  {
    var name := ToLower(file.name);
    if EndsWith(name, ".txt") || file.mimeType == "text/plain" then PlainText
    else if EndsWith(name, ".pdf") then PdfPlaceholder
    else if EndsWith(name, ".docx") then Docx
    else Unsupported
  }

  /** The name's letter case never changes the dispatch. */
  lemma RouteIgnoresCase(file: FileInfo)
    ensures RouteOf(file) == RouteOf(file.(name := ToLower(file.name)))
  {
    ToLowerIdempotent(file.name);
  }

  /** `extractFromPDFSimple`: a placeholder that names the file and its size. */
  function PdfPlaceholderText(file: FileInfo): (r: string)
    ensures |r| > |PdfPlaceholderPrefix| + |file.name|
    ensures r[..|PdfPlaceholderPrefix|] == PdfPlaceholderPrefix
    ensures r[|PdfPlaceholderPrefix|..|PdfPlaceholderPrefix| + |file.name|] == file.name
    ensures EndsWith(r, NatToString(file.size) + " bytes")
  {
    PdfPlaceholderPrefix + file.name + ", Size: " + NatToString(file.size) + " bytes"
  }

  /** `extractText`. A plain-text reader failure is passed on as it is; a DOCX
      reader failure becomes one fixed message. */
  function ExtractText(file: FileInfo, readers: Readers): (r: Result<string>)
    ensures RouteOf(file) == Unsupported ==> r == Failure(UnsupportedMessage)
    ensures RouteOf(file) == PdfPlaceholder ==> r == Success(PdfPlaceholderText(file))
    ensures RouteOf(file) == PlainText ==> r == readers.text
    ensures RouteOf(file) == Docx ==> r == (if readers.docx.Success? then readers.docx else Failure(DocxFailureMessage))
  {
    match RouteOf(file)
    case PlainText => readers.text
    case PdfPlaceholder => Success(PdfPlaceholderText(file))
    case Docx => if readers.docx.Success? then readers.docx else Failure(DocxFailureMessage)
    case Unsupported => Failure(UnsupportedMessage)
  }

  /** The cost-saving cut: at most 3000 characters of the input, then `"..."`. */
  function Truncate(text: string): (r: string)
    ensures |text| <= MaxTextLength ==> r == text
    ensures |text| > MaxTextLength ==> |r| == MaxTextLength + 3 && r[MaxTextLength..] == "..."
    ensures |r| <= MaxTextLength + 3
    ensures var k := if |text| < MaxTextLength then |text| else MaxTextLength; r[..k] == text[..k]
  {
    if |text| > MaxTextLength then text[..MaxTextLength] + "..." else text
  }

  /** `!apiKey`: an absent or empty key. */
  predicate KeyMissing(apiKey: Option<string>) {
    apiKey.None? || apiKey.value == ""
  }

  /** The checks of `generateQuestionsWithAI` made before any request, and the
      text the request carries when they pass. */
  function RequestText(text: string, apiKey: Option<string>): (r: Result<string>)
    ensures KeyMissing(apiKey) ==> r == Failure(MissingKeyMessage)
    ensures !KeyMissing(apiKey) && |text| < MinGeneratorLength ==> r == Failure(TooShortMessage)
    ensures r.Success? <==> !KeyMissing(apiKey) && |text| >= MinGeneratorLength
    ensures r.Success? ==> r.value == Truncate(text)
  {
    if KeyMissing(apiKey) then Failure(MissingKeyMessage)
    else if |text| < MinGeneratorLength then Failure(TooShortMessage)
    else Success(Truncate(text))
  }

  /** The outcome of the request and of parsing its reply: a non-ok HTTP status
      with the upstream error message if there is one; any other failure (network,
      malformed JSON, a reply without choices) with its message; or the parsed
      reply, whose `questions` field may be absent. */
  datatype AiReply =
    | HttpError(apiMessage: Option<string>)
    | RequestFailed(message: string)
    | Parsed(questions: Option<seq<RawQuestion>>)

  const DefaultOptionLabels := ["Option A", "Option B", "Option C"]

  /** The id of the `index`-th question of a batch, given the clock reading `now`
      taken for it. */
  function AiId(now: nat, index: nat): string {
    "ai_" + NatToString(now) + "_" + NatToString(index)
  }

  /** The `.map` over the parsed questions: order and length are kept, each entry
      gets an id from its own clock reading `clock(i)` and its index, and the
      multiple-choice tag, and entries without options get the answer followed by
      three placeholder labels. */
  function MapAiQuestions(raws: seq<RawQuestion>, clock: nat -> nat): (qs: seq<Question>)
    ensures |qs| == |raws|
    ensures forall i :: 0 <= i < |raws| ==>
      && qs[i].id == AiId(clock(i), i)
      && qs[i].question == raws[i].question && qs[i].answer == raws[i].answer
      && qs[i].kind == Some(MultipleChoice)
      && qs[i].options == Some(raws[i].options.GetOr([raws[i].answer] + DefaultOptionLabels))
    ensures forall i :: 0 <= i < |raws| && raws[i].options.None? ==> AnswerAmongOptions(qs[i])
  {
    seq(|raws|, i requires 0 <= i < |raws| =>
      Question(AiId(clock(i), i), raws[i].question, raws[i].answer,
        Some(raws[i].options.GetOr([raws[i].answer] + DefaultOptionLabels)), Some(MultipleChoice)))
  }

  /** Ids within one batch are distinct, whatever the clock reads for each entry. */
  lemma AiIdsDistinct(raws: seq<RawQuestion>, clock: nat -> nat, i: nat, j: nat)
    requires i < |raws| && j < |raws| && i != j
    ensures MapAiQuestions(raws, clock)[i].id != MapAiQuestions(raws, clock)[j].id
  {
    SeparatedNamesDistinct("ai_" + NatToString(clock(i)), "ai_" + NatToString(clock(j)), i, j);
  }

  /** The upstream message of a failed request, or "Unknown error". */
  function ApiErrorText(apiMessage: Option<string>): string {
    if apiMessage.Some? && apiMessage.value != "" then apiMessage.value else "Unknown error"
  }

  /** `generateQuestionsWithAI`. `clock(i)` is the clock reading taken for the
      `i`-th id; `reply` is what the request would get. */
  function GenerateQuestionsWithAI(text: string, apiKey: Option<string>, clock: nat -> nat, reply: AiReply): (r: Result<seq<Question>>)
    ensures RequestText(text, apiKey).Failure? ==> r == Failure(RequestText(text, apiKey).error)
    ensures RequestText(text, apiKey).Success? && r.Failure? ==>
      |r.error| >= |GenerateFailurePrefix| && r.error[..|GenerateFailurePrefix|] == GenerateFailurePrefix
    ensures RequestText(text, apiKey).Success? && reply.HttpError? ==>
      r == Failure(GenerateFailurePrefix + "OpenAI API error: " + ApiErrorText(reply.apiMessage))
    ensures RequestText(text, apiKey).Success? && reply.RequestFailed? ==>
      r == Failure(GenerateFailurePrefix + reply.message)
    ensures RequestText(text, apiKey).Success? ==> (r.Success? <==> reply.Parsed?)
    ensures RequestText(text, apiKey).Success? && reply.Parsed? ==>
      r.value == MapAiQuestions(reply.questions.GetOr([]), clock)
  {
    match RequestText(text, apiKey)
    case Failure(e) => Failure(e)
    case Success(_) =>
      match reply
      case HttpError(m) => Failure(GenerateFailurePrefix + "OpenAI API error: " + ApiErrorText(m))
      case RequestFailed(m) => Failure(GenerateFailurePrefix + m)
      case Parsed(questions) => Success(MapAiQuestions(questions.GetOr([]), clock))
  }

  /** A missing key or a short text fails the same way whatever the reply would
      have been: both checks come before the request. */
  lemma GuardsPrecedeRequest(text: string, apiKey: Option<string>, clock: nat -> nat, reply1: AiReply, reply2: AiReply)
    requires KeyMissing(apiKey) || |text| < MinGeneratorLength
    ensures GenerateQuestionsWithAI(text, apiKey, clock, reply1) == GenerateQuestionsWithAI(text, apiKey, clock, reply2)
    ensures GenerateQuestionsWithAI(text, apiKey, clock, reply1).Failure?
  {
  }

  /** `processFile`: extraction, the 50-character gate, generation, and the
      refusal of an empty question list. Failures are passed on unchanged. */
  function ProcessFile(file: FileInfo, readers: Readers, apiKey: Option<string>, clock: nat -> nat, reply: AiReply): (r: Result<seq<Question>>)
    ensures ExtractText(file, readers).Failure? ==> r == Failure(ExtractText(file, readers).error)
    ensures ExtractText(file, readers).Success? && |ExtractText(file, readers).value| < MinFileTextLength ==>
      r == Failure(TooLittleTextMessage)
    ensures ExtractText(file, readers).Success? && |ExtractText(file, readers).value| >= MinFileTextLength ==>
      var g := GenerateQuestionsWithAI(ExtractText(file, readers).value, apiKey, clock, reply);
      && (g.Failure? ==> r == g)
      && (g == Success([]) ==> r == Failure(NoQuestionsMessage))
      && (g.Success? && g.value != [] ==> r == g)
    ensures r.Success? <==>
      && ExtractText(file, readers).Success?
      && |ExtractText(file, readers).value| >= MinFileTextLength
      && GenerateQuestionsWithAI(ExtractText(file, readers).value, apiKey, clock, reply).Success?
      && GenerateQuestionsWithAI(ExtractText(file, readers).value, apiKey, clock, reply).value != []
  {
    match ExtractText(file, readers)
    case Failure(e) => Failure(e)
    case Success(text) =>
      if |text| < MinFileTextLength then Failure(TooLittleTextMessage)
      else
        match GenerateQuestionsWithAI(text, apiKey, clock, reply)
        case Failure(e) => Failure(e)
        case Success(questions) =>
          if |questions| == 0 then Failure(NoQuestionsMessage) else Success(questions)
  }

  /** A text that passes the file gate but is under 100 characters is still
      refused, by the generator's own stricter check. */
  lemma ShortTextStoppedByGenerator(file: FileInfo, readers: Readers, apiKey: Option<string>, clock: nat -> nat, reply: AiReply)
    requires ExtractText(file, readers).Success?
    requires MinFileTextLength <= |ExtractText(file, readers).value| < MinGeneratorLength
    requires !KeyMissing(apiKey)
    ensures ProcessFile(file, readers, apiKey, clock, reply) == Failure(TooShortMessage)
  {
  }

  /** A reply without a `questions` field yields no questions, which `processFile` refuses. */
  lemma MissingQuestionsRefused(file: FileInfo, readers: Readers, apiKey: Option<string>, clock: nat -> nat)
    requires ExtractText(file, readers).Success?
    requires |ExtractText(file, readers).value| >= MinGeneratorLength && !KeyMissing(apiKey)
    ensures GenerateQuestionsWithAI(ExtractText(file, readers).value, apiKey, clock, Parsed(None)) == Success([])
    ensures ProcessFile(file, readers, apiKey, clock, Parsed(None)) == Failure(NoQuestionsMessage)
  {
  }
}
