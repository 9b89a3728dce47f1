/** The video-prompt helper (src/utils/gemini.ts): reads the image as a
    data URL and keeps its base64 payload, asks the text model for a video
    prompt and cuts it to 600 characters, and asks for a JSON scene analysis
    with a fixed fallback record. Fetching, the file reader, the HTTP call
    and `JSON.parse` are parameters. */
module GeminiVideo {
  import opened Wrappers
  import opened JsString
  import opened DataUrl
  import FalVideo

  /** The four-field analysis `analyzeImageContext` returns. */
  datatype ImageAnalysis = ImageAnalysis(description: string, setting: string, character: string, mood: string)

  /** How reading the image went: `fetch` or `blob()` failed (caught and
      wrapped), the file reader failed (the promise rejects as is), or the
      reader produced a data URL. */
  datatype ImageRead = FetchFailed(error: string) | ReaderFailed(error: string) | ReadAsDataUrl(dataUrl: string)

  /** What `candidate.content.parts[0].text` finds in one candidate: no
      first part (no `content`, no `parts`, or an empty `parts`), a first
      part without `text`, or the text. */
  datatype FirstPart = NoPart | NoText | Text(text: string)

  /** The parsed JSON body of a model reply: `error.message`, and for each
      candidate what its first part holds. */
  datatype GeminiBody = GeminiBody(errorMessage: Option<string>, candidates: Option<seq<FirstPart>>)

  /** What `fetch` produced: a network failure, or a response whose body
      either parses (`Success`) or makes `response.json()` reject. */
  datatype HttpOutcome =
    | NetworkError(message: string)
    | HttpResponse(ok: bool, status: nat, body: Result<GeminiBody, string>)

  /** The request: endpoint URL, instruction text, base64 image (possibly
      `undefined`) and the output-token budget. */
  datatype GeminiRequest = GeminiRequest(url: string, instruction: string, imageData: Option<string>, maxOutputTokens: nat)

  /** Why a call failed: an `Error` with a message, or the `TypeError` of
      reading a property of `undefined`. */
  datatype ServiceError = Thrown(message: string) | TypeError

  const MaxVideoPromptLength := 600
  const Ellipsis := "..."
  const NoResponseError := "No response generated from Gemini"
  const ApiErrorPrefix := "Gemini API error: "
  const UnknownError := "Unknown error"
  const ConversionErrorPrefix := "Failed to convert image to base64: "
  const DefaultBaseUrl := "https://generativelanguage.googleapis.com/v1beta/models"
  const VideoPromptTokens := 200
  const AnalysisTokens := 300

  const FallbackAnalysis := ImageAnalysis("Generated image analysis", "Dynamic environment", "Main subject", "Engaging and cinematic")

  /** The two instruction texts sent with the image. */
  const VideoPromptInstruction :=
    "Analyze this generated image and create a cinematic video prompt that will make the person or character come alive in a 6-second video. The prompt should:\n"
    + "\n"
    + "1. Describe natural movements that would make the character appear to be \"going live\"\n"
    + "2. Include environmental interactions (walking, gesturing, interacting with surroundings)\n"
    + "3. Add cinematic elements like camera movements or lighting changes\n"
    + "4. Keep the character's appearance and style consistent\n"
    + "5. Make it feel dynamic and engaging\n"
    + "6. Limit to 600 characters maximum\n"
    + "\n"
    + "Focus on creating a prompt that would work well for image-to-video generation, making the scene feel alive and cinematic while maintaining the original character's essence.\n"
    + "\n"
    + "Return only the video prompt, nothing else."
  const AnalysisInstruction :=
    "Analyze this image and provide a structured analysis for video generation:\n"
    + "\n"
    + "1. Description: Brief description of what's happening in the image\n"
    + "2. Setting: The environment/background/location\n"
    + "3. Character: Description of the main person/character\n"
    + "4. Mood: The overall mood/atmosphere\n"
    + "\n"
    + "Format your response as JSON with these exact keys: description, setting, character, mood"

  /** Keeps a generated prompt within 600 characters: longer text keeps its
      first 597 characters followed by "...". */
  function TruncateVideoPrompt(text: string): (r: string)
    ensures |r| <= MaxVideoPromptLength
    ensures |text| <= MaxVideoPromptLength ==> r == text
    ensures |text| > MaxVideoPromptLength ==>
              |r| == MaxVideoPromptLength && r[..597] == text[..597] && r[597..] == Ellipsis
  {
    if |text| > 600 then text[..597] + "..." else text
  }

  /** Cutting twice is cutting once. */
  lemma TruncateIdempotent(text: string)
    ensures TruncateVideoPrompt(TruncateVideoPrompt(text)) == TruncateVideoPrompt(text)
  {
  }

  /** A cut prompt never trips the video validator's length check. */
  lemma TruncatedPromptFitsValidator(text: string, imageUrl: string, duration: real, resolution: string)
    ensures FalVideo.PromptLengthError !in FalVideo.ValidationErrors(imageUrl, TruncateVideoPrompt(text), duration, resolution)
  {
    FalVideo.ErrorsIff(imageUrl, TruncateVideoPrompt(text), duration, resolution);
  }

  /** `imageToBase64`: the segment after the first comma of the data URL,
      `None` when there is no comma (`split(',')[1]` is `undefined`). */
  function ImageToBase64(read: ImageRead): (r: Result<Option<string>, string>)
    ensures read.FetchFailed? ==> r == Failure(ConversionErrorPrefix + read.error)
    ensures read.ReaderFailed? ==> r == Failure(read.error)
    ensures read.ReadAsDataUrl? ==> r.Success? && (r.value.None? <==> ',' !in read.dataUrl)
  {
    match read
    case FetchFailed(error) => Failure(ConversionErrorPrefix + error)
    case ReaderFailed(error) => Failure(error)
    case ReadAsDataUrl(dataUrl) => Success(Payload(dataUrl))
  }

  /** A data URL as the file reader writes it yields exactly its payload. */
  lemma ImageToBase64OfDataUrl(header: string, data: string)
    requires ',' !in header && ',' !in data
    ensures ImageToBase64(ReadAsDataUrl(header + "," + data)) == Success(Some(data))
  {
    SplitAtFirst(header, ',', data);
    SplitWithoutSeparator(data, ',');
  }

  /** `Gemini API error: ${status} - ${message || 'Unknown error'}` */
  function VideoPromptApiError(status: nat, errorMessage: Option<string>): string
  {
    ApiErrorPrefix + NatToString(status) + " - "
    + (if errorMessage.Some? && errorMessage.value != "" then errorMessage.value else UnknownError)
  }

  /** The error names the HTTP status: its digits follow the prefix and
      read back as the status. */
  lemma ApiErrorNamesStatus(status: nat, errorMessage: Option<string>)
    ensures var m, d := VideoPromptApiError(status, errorMessage), NatToString(status);
            StartsWith(m, ApiErrorPrefix)
            && m[|ApiErrorPrefix|..|ApiErrorPrefix| + |d|] == d && DigitsValue(d) == status
  {
    var d := NatToString(status);
    var rest := " - " + (if errorMessage.Some? && errorMessage.value != "" then errorMessage.value else UnknownError);
    var m := VideoPromptApiError(status, errorMessage);
    assert m == ApiErrorPrefix + d + rest;
    Framed(ApiErrorPrefix, d, rest);
    assert m[..|ApiErrorPrefix|] == ApiErrorPrefix;
    NatToStringRoundTrip(status);
  }

  /** `data.candidates[0]`, `None` when `candidates` is missing or empty. */
  function FirstCandidate(body: GeminiBody): (c: Option<FirstPart>)
    ensures c.None? <==> body.candidates.None? || |body.candidates.value| == 0
    ensures c.Some? ==> c.value == body.candidates.value[0]
  {
    if body.candidates.None? || |body.candidates.value| == 0 then None else Some(body.candidates.value[0])
  }

  /** `errorData.error?.message`, where `errorData` is `{}` when the body
      does not parse. */
  function ErrorMessageOf(body: Result<GeminiBody, string>): (m: Option<string>)
    ensures body.Failure? ==> m.None?
    ensures body.Success? ==> m == body.value.errorMessage
  {
    if body.Success? then body.value.errorMessage else None
  }

  /** How `generateVideoPrompt` reads the HTTP outcome: the first
      candidate's text cut to 600 characters, or the error it raises. */
  function VideoPromptReply(outcome: HttpOutcome): (r: Result<string, ServiceError>)
    ensures r.Success? ==> |r.value| <= MaxVideoPromptLength
    ensures outcome.NetworkError? ==> r == Failure(Thrown(outcome.message))
    ensures outcome.HttpResponse? && !outcome.ok
            ==> r == Failure(Thrown(VideoPromptApiError(outcome.status, ErrorMessageOf(outcome.body))))
    ensures outcome.HttpResponse? && outcome.ok && outcome.body.Failure? ==> r == Failure(Thrown(outcome.body.error))
    ensures outcome.HttpResponse? && outcome.ok && outcome.body.Success? ==>
              var first := FirstCandidate(outcome.body.value);
              && (first.None? ==> r == Failure(Thrown(NoResponseError)))
              && (first.Some? && !first.value.Text? ==> r == Failure(TypeError))
              && (first.Some? && first.value.Text? ==> r == Success(TruncateVideoPrompt(first.value.text)))
  {
    match outcome
    case NetworkError(message) => Failure(Thrown(message))
    case HttpResponse(ok, status, body) =>
      if !ok then
        var errorMessage := if body.Success? then body.value.errorMessage else None;
        Failure(Thrown(VideoPromptApiError(status, errorMessage)))
      else if body.Failure? then Failure(Thrown(body.error))
      else if body.value.candidates.None? || |body.value.candidates.value| == 0 then
        Failure(Thrown(NoResponseError))
      else
        match body.value.candidates.value[0]
        case Text(generatedText) => Success(TruncateVideoPrompt(generatedText))
        case _ => Failure(TypeError)
  }

  /** `Gemini API error: ${response.status}` */
  function AnalysisApiError(status: nat): string
  {
    ApiErrorPrefix + NatToString(status)
  }

  /** This error too names the status: the digits after the prefix read
      back as the status. */
  lemma AnalysisErrorNamesStatus(status: nat)
    ensures var m := AnalysisApiError(status);
            StartsWith(m, ApiErrorPrefix) && DigitsValue(m[|ApiErrorPrefix|..]) == status
  {
    ConcatStartsWith(ApiErrorPrefix, NatToString(status));
    NatToStringRoundTrip(status);
  }

  /** How `analyzeImageContext` reads the HTTP outcome. Unlike
      `generateVideoPrompt` it does not check for candidates: reading a
      missing first candidate or first part fails with a `TypeError`. A
      first part without text makes `JSON.parse(undefined)` throw inside
      the inner `try`, so it falls back, as does text that does not parse. */
  function AnalysisReply(outcome: HttpOutcome, parse: string -> Option<ImageAnalysis>): (r: Result<ImageAnalysis, ServiceError>)
    ensures outcome.NetworkError? ==> r == Failure(Thrown(outcome.message))
    ensures outcome.HttpResponse? && !outcome.ok ==> r == Failure(Thrown(AnalysisApiError(outcome.status)))
    ensures outcome.HttpResponse? && outcome.ok && outcome.body.Failure? ==> r == Failure(Thrown(outcome.body.error))
    ensures outcome.HttpResponse? && outcome.ok && outcome.body.Success? ==>
              var first := FirstCandidate(outcome.body.value);
              && (first.None? || first.value.NoPart? ==> r == Failure(TypeError))
              && (first == Some(NoText) ==> r == Success(FallbackAnalysis))
              && (first.Some? && first.value.Text? ==> r == Success(parse(first.value.text).GetOr(FallbackAnalysis)))
  {
    match outcome
    case NetworkError(message) => Failure(Thrown(message))
    case HttpResponse(ok, status, body) =>
      if !ok then Failure(Thrown(AnalysisApiError(status)))
      else if body.Failure? then Failure(Thrown(body.error))
      else if body.value.candidates.None? || |body.value.candidates.value| == 0 then Failure(TypeError)
      else
        match body.value.candidates.value[0]
        case NoPart => Failure(TypeError)
        case NoText => Success(FallbackAnalysis)
        case Text(responseText) =>
          var parsed := parse(responseText);
          if parsed.Some? then Success(parsed.value) else Success(FallbackAnalysis)
  }

  class GeminiService {
    const apiKey: string
    const baseUrl: string

    constructor(apiKey: string)
      ensures this.apiKey == apiKey && baseUrl == DefaultBaseUrl
    {
      this.apiKey := apiKey;
      baseUrl := DefaultBaseUrl;
    }

    /** `${baseUrl}/gemini-2.0-flash:generateContent?key=${apiKey}` */
    function Endpoint(): (url: string)
      ensures StartsWith(url, baseUrl) && EndsWith(url, apiKey)
    {
      Framed(baseUrl, "/gemini-2.0-flash:generateContent?key=", apiKey);
      baseUrl + "/gemini-2.0-flash:generateContent?key=" + apiKey
    }

    /** The request both methods send for an image read as `dataUrl`. */
    function RequestFor(dataUrl: string, instruction: string, tokens: nat): (q: GeminiRequest)
      ensures q.url == Endpoint() && q.instruction == instruction && q.maxOutputTokens == tokens
      ensures q.imageData == Payload(dataUrl)
    {
      GeminiRequest(Endpoint(), instruction, Payload(dataUrl), tokens)
    }

    /** `generateVideoPrompt`: the first candidate's text, cut to 600
        characters, or the error the call raises. A failed read is the
        error `imageToBase64` raises; otherwise the reply is read as
        `VideoPromptReply` says. */
    function GenerateVideoPrompt(read: ImageRead, http: GeminiRequest -> HttpOutcome): (r: Result<string, ServiceError>)
      ensures r.Success? ==> |r.value| <= MaxVideoPromptLength
      ensures !read.ReadAsDataUrl? ==> r == Failure(Thrown(ImageToBase64(read).error))
      ensures read.ReadAsDataUrl? ==> r == VideoPromptReply(http(RequestFor(read.dataUrl, VideoPromptInstruction, VideoPromptTokens)))
    {
      match ImageToBase64(read)
      case Failure(error) => Failure(Thrown(error))
      case Success(base64Image) =>
        VideoPromptReply(http(GeminiRequest(Endpoint(), VideoPromptInstruction, base64Image, VideoPromptTokens)))
    }

    /** `analyzeImageContext`: the parsed analysis, the fallback record when
        the text does not parse, or the error the call raises. */
    function AnalyzeImageContext(read: ImageRead, http: GeminiRequest -> HttpOutcome, parse: string -> Option<ImageAnalysis>)
      : (r: Result<ImageAnalysis, ServiceError>)
      ensures !read.ReadAsDataUrl? ==> r == Failure(Thrown(ImageToBase64(read).error))
      ensures read.ReadAsDataUrl? ==> r == AnalysisReply(http(RequestFor(read.dataUrl, AnalysisInstruction, AnalysisTokens)), parse)
    {
      match ImageToBase64(read)
      case Failure(error) => Failure(Thrown(error))
      case Success(base64Image) =>
        AnalysisReply(http(GeminiRequest(Endpoint(), AnalysisInstruction, base64Image, AnalysisTokens)), parse)
    }

    /** For every OK reply whose first part has text: the parsed record
        when the text parses, the fallback record when it does not. */
    lemma AnalysisOfText(dataUrl: string, http: GeminiRequest -> HttpOutcome, parse: string -> Option<ImageAnalysis>)
      requires var o := http(RequestFor(dataUrl, AnalysisInstruction, AnalysisTokens));
               o.HttpResponse? && o.ok && o.body.Success? && FirstCandidate(o.body.value).Some?
               && FirstCandidate(o.body.value).value.Text?
      ensures var text := FirstCandidate(http(RequestFor(dataUrl, AnalysisInstruction, AnalysisTokens)).body.value).value.text;
              && (parse(text).Some? ==> AnalyzeImageContext(ReadAsDataUrl(dataUrl), http, parse) == Success(parse(text).value))
              && (parse(text).None? ==> AnalyzeImageContext(ReadAsDataUrl(dataUrl), http, parse) == Success(FallbackAnalysis))
    {
      var o := http(RequestFor(dataUrl, AnalysisInstruction, AnalysisTokens));
      assert AnalyzeImageContext(ReadAsDataUrl(dataUrl), http, parse) == AnalysisReply(o, parse);
    }

    /** Text that does not parse gives the fallback record, whatever the
        reply's status, error message and further candidates. */
    lemma UnparsableTextFallsBack(dataUrl: string, http: GeminiRequest -> HttpOutcome, parse: string -> Option<ImageAnalysis>,
                                  status: nat, errorMessage: Option<string>, text: string, others: seq<FirstPart>)
      requires http(RequestFor(dataUrl, AnalysisInstruction, AnalysisTokens))
               == HttpResponse(true, status, Success(GeminiBody(errorMessage, Some([Text(text)] + others))))
      requires parse(text).None?
      ensures AnalyzeImageContext(ReadAsDataUrl(dataUrl), http, parse) == Success(FallbackAnalysis)
    {
      AnalysisOfText(dataUrl, http, parse);
    }
  }
}
