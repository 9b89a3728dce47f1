/** The conversational edit endpoint (src/app/api/chat-edit/route.ts):
    validates the request, takes the base64 payload out of the current
    image's data URL, sends the earlier conversation, an instruction quoting
    the new message and the image to the model, and reads the answer with
    "last image wins, last text wins". */
module ChatEditRoute {
  import opened Wrappers
  import opened JsString
  import opened Types
  import opened DataUrl
  import opened ResponseParts

  /** One entry of `conversationHistory`: `{role, content}`. */
  datatype HistoryEntry = HistoryEntry(role: string, content: string)

  /** The JSON body; an absent field is `None`. */
  datatype ChatEditBody = ChatEditBody(
    message: Option<string>,
    currentImageUrl: Option<string>,
    conversationHistory: Option<seq<HistoryEntry>>)

  /** The JSON the endpoint answers with. A success always has
      `success: true`; `newImageUrl` is `null` when no image came back. */
  datatype EditReply =
    | Edited(response: string, newImageUrl: Option<string>)
    | BadRequest(error: string)
    | ServerError(error: string, details: string)

  const MissingFieldsError := "Message and current image URL are required"
  const InvalidImageData := "Invalid image data"
  const EditFailed := "Failed to process edit request"
  const NoCandidatesText := "I understand your request, but I wasn't able to generate a modified image. Could you please try rephrasing your request or be more specific about the changes you'd like to make?"
  const DefaultText := "I've processed your request."
  const ImageMimeType := "image/png"

  const InstructionHead := "I have an AI-generated image that was created by replacing a person from a REFERENCE IMAGE with a person from a SUBJECT IMAGE. The person was relit to blend with the ambience and their attire, accessories and pose were adjusted. Please help me modify this CURRENT IMAGE based on my request: \""
  const InstructionTail := "\". Apply the requested changes while maintaining overall quality and coherence. Make modifications natural and well-integrated. If unclear or impossible, provide a helpful explanation instead."

  /** The instruction text, with the user's message between quotes. */
  function Instruction(message: string): string
  {
    InstructionHead + message + InstructionTail
  }

  /** The message can be read back from the instruction: it sits between
      the fixed head and the fixed tail. */
  lemma InstructionQuotesMessage(message: string)
    ensures var t := Instruction(message);
            StartsWith(t, InstructionHead) && EndsWith(t, InstructionTail)
            && t[|InstructionHead|..|t| - |InstructionTail|] == message
  {
    Framed(InstructionHead, message, InstructionTail);
  }

  /** Different messages give different instructions. */
  lemma InstructionInjective(m1: string, m2: string)
    requires Instruction(m1) == Instruction(m2)
    ensures m1 == m2
  {
    InstructionQuotesMessage(m1);
    InstructionQuotesMessage(m2);
  }

  /** `${msg.role}: ${msg.content}` */
  function HistoryText(entry: HistoryEntry): string
  {
    entry.role + ": " + entry.content
  }

  /** The parts list sent to the model: one text part per history entry in
      order, then the instruction, then the image as PNG. */
  function ConversationParts(history: seq<HistoryEntry>, message: string, payload: string): (parts: seq<ContentPart>)
    ensures |parts| == |history| + 2
    ensures forall i :: 0 <= i < |history| ==> parts[i] == TextPart(HistoryText(history[i]))
    ensures parts[|history|] == TextPart(Instruction(message))
    ensures parts[|history| + 1] == InlinePart(ImageMimeType, payload)
  {
    seq(|history|, i requires 0 <= i < |history| => TextPart(HistoryText(history[i])))
    + [TextPart(Instruction(message)), InlinePart(ImageMimeType, payload)]
  }

  /** The route's construction: `forEach` over the history pushing one text
      part each, then two more pushes. */
  method BuildConversationParts(history: Option<seq<HistoryEntry>>, message: string, payload: string)
    returns (parts: seq<ContentPart>)
    ensures parts == ConversationParts(history.GetOr([]), message, payload)
  {
    parts := [];
    if history.Some? && |history.value| > 0 {
      var entries := history.value;
      var i := 0;
      while i < |entries|
        invariant 0 <= i <= |entries|
        invariant |parts| == i
        invariant forall j :: 0 <= j < i ==> parts[j] == TextPart(HistoryText(entries[j]))
      {
        parts := parts + [TextPart(entries[i].role + ": " + entries[i].content)];
        i := i + 1;
      }
    }
    parts := parts + [TextPart(Instruction(message))];
    parts := parts + [InlinePart(ImageMimeType, payload)];
  }

  /** The request the route sends for a body, or `None` when it answers
      without calling the model. */
  function Request(body: ChatEditBody): (r: Option<seq<ContentPart>>)
    ensures r.Some? <==> body.message.Some? && body.message.value != ""
                         && body.currentImageUrl.Some? && body.currentImageUrl.value != ""
                         && Payload(body.currentImageUrl.value).Some?
                         && Payload(body.currentImageUrl.value).value != ""
  {
    if body.message.None? || body.message.value == "" || body.currentImageUrl.None? || body.currentImageUrl.value == "" then None
    else
      var payload := Payload(body.currentImageUrl.value);
      if payload.None? || payload.value == "" then None
      else Some(ConversationParts(body.conversationHistory.GetOr([]), body.message.value, payload.value))
  }

  /** How a model outcome becomes the reply. */
  function EditResult(call: ModelCall): (reply: EditReply)
    ensures reply.Edited? || reply.ServerError?
    ensures call.Threw? ==> reply == ServerError(EditFailed, call.message)
    ensures call.Responded? && NoCandidates(call.response) ==> reply == Edited(NoCandidatesText, None)
    ensures reply.Edited? && reply.newImageUrl.Some? <==>
              call.Responded? && !NoCandidates(call.response)
              && exists i :: 0 <= i < |FirstCandidateParts(call.response)| && ImageDataOf(FirstCandidateParts(call.response)[i]).Some?
    ensures call.Responded? && !NoCandidates(call.response) ==>
              var parts := FirstCandidateParts(call.response);
              && reply.Edited?
              && reply.response == LastText(parts, DefaultText)
              && (LastImageData(parts).Some? ==> reply.newImageUrl == Some(PngDataUrl(LastImageData(parts).value)))
  {
    match call
    case Threw(message) => ServerError(EditFailed, message)
    case Responded(response) =>
      if NoCandidates(response) then Edited(NoCandidatesText, None)
      else
        var parts := FirstCandidateParts(response);
        var imageData := LastImageData(parts);
        Edited(LastText(parts, DefaultText), if imageData.Some? then Some(PngDataUrl(imageData.value)) else None)
  }

  /** The reply for a request body; `Failure` is a body that is not JSON. */
  function Respond(body: Result<ChatEditBody, string>, model: seq<ContentPart> -> ModelCall): (reply: EditReply)
    ensures body.Success? && (body.value.message.None? || body.value.message.value == ""
                              || body.value.currentImageUrl.None? || body.value.currentImageUrl.value == "")
            ==> reply == BadRequest(MissingFieldsError)
    ensures body.Failure? ==> reply == ServerError(EditFailed, body.error)
    ensures body.Success? && body.value.message.Some? && body.value.message.value != ""
            && body.value.currentImageUrl.Some? && body.value.currentImageUrl.value != ""
            && Request(body.value).None?
            ==> reply == BadRequest(InvalidImageData)
    ensures reply.ServerError? ==> reply.error == EditFailed
    ensures body.Success? && Request(body.value).Some? ==> reply == EditResult(model(Request(body.value).value))
  {
    if body.Failure? then ServerError(EditFailed, body.error)
    else
      var b := body.value;
      if b.message.None? || b.message.value == "" || b.currentImageUrl.None? || b.currentImageUrl.value == "" then
        BadRequest(MissingFieldsError)
      else if Request(b).None? then BadRequest(InvalidImageData)
      else EditResult(model(Request(b).value))
  }

  /** The part loop: every part is visited; an image part overwrites the
      image data, any other part with text overwrites the text. */
  method ScanParts(parts: seq<ResponsePart>) returns (imageData: Option<string>, textResponse: string)
    ensures imageData == LastImageData(parts)
    ensures textResponse == LastText(parts, DefaultText)
  {
    imageData := None;
    textResponse := DefaultText;
    var i := 0;
    while i < |parts|
      invariant 0 <= i <= |parts|
      invariant imageData == LastImageData(parts[..i])
      invariant textResponse == LastText(parts[..i], DefaultText)
    {
      var part := parts[i];
      assert parts[..i + 1][..i] == parts[..i];
      if part.inlineData.Some? && part.inlineData.value.data.Some? && part.inlineData.value.data.value != "" {
        imageData := part.inlineData.value.data;
      } else if part.text.Some? && part.text.value != "" {
        textResponse := part.text.value;
      }
      i := i + 1;
    }
    assert parts[..i] == parts;
  }

  /** The POST handler. `sent` records the parts list passed to the model. */
  method Post(body: Result<ChatEditBody, string>, model: seq<ContentPart> -> ModelCall)
    returns (reply: EditReply, ghost sent: Option<seq<ContentPart>>)
    ensures reply == Respond(body, model)
    ensures sent == if body.Success? then Request(body.value) else None
  {
    sent := None;
    if body.Failure? {
      return ServerError(EditFailed, body.error), sent;
    }
    var b := body.value;
    if b.message.None? || b.message.value == "" || b.currentImageUrl.None? || b.currentImageUrl.value == "" {
      return BadRequest(MissingFieldsError), sent;
    }
    var base64Data := Payload(b.currentImageUrl.value);
    if base64Data.None? || base64Data.value == "" {
      return BadRequest(InvalidImageData), sent;
    }
    var conversationParts := BuildConversationParts(b.conversationHistory, b.message.value, base64Data.value);
    sent := Some(conversationParts);
    var call := model(conversationParts);
    if call.Threw? {
      return ServerError(EditFailed, call.message), sent;
    }
    var response := call.response;
    if response.candidates.None? || |response.candidates.value| == 0 {
      return Edited(NoCandidatesText, None), sent;
    }
    var candidate := response.candidates.value[0];
    var imageData: Option<string> := None;
    var textResponse := DefaultText;
    if candidate.parts.Some? {
      imageData, textResponse := ScanParts(candidate.parts.value);
    }
    var newImageUrl: Option<string> := None;
    if imageData.Some? {
      newImageUrl := Some(PngDataUrl(imageData.value));
    }
    reply := Edited(textResponse, newImageUrl);
  }

  /** A current image URL without a comma has no payload: 400, and the
      model is not called. */
  lemma NoCommaIsInvalidImage(body: ChatEditBody, model: seq<ContentPart> -> ModelCall)
    requires body.message.Some? && body.message.value != ""
    requires body.currentImageUrl.Some? && body.currentImageUrl.value != ""
    requires ',' !in body.currentImageUrl.value
    ensures Respond(Success(body), model) == BadRequest(InvalidImageData)
    ensures Request(body).None?
  {
  }

  /** A data URL whose payload is empty, such as the PNG header followed
      by a bare comma, is answered like one without a comma. */
  lemma EmptyPayloadIsInvalidImage(body: ChatEditBody, model: seq<ContentPart> -> ModelCall)
    requires body.message.Some? && body.message.value != ""
    requires body.currentImageUrl == Some(PngDataUrl(""))
    ensures Respond(Success(body), model) == BadRequest(InvalidImageData)
    ensures Request(body).None?
  {
    PayloadOfPngDataUrl("");
  }

  /** A PNG data URL the endpoint itself produced is accepted as the current
      image, and its payload is what is sent back to the model. */
  lemma OwnImageAccepted(body: ChatEditBody, data: string)
    requires body.message.Some? && body.message.value != ""
    requires data != "" && ',' !in data
    requires body.currentImageUrl == Some(PngDataUrl(data))
    ensures Request(body).Some?
    ensures var parts := Request(body).value;
            parts[|parts| - 1] == InlinePart(ImageMimeType, data)
  {
    PayloadOfPngDataUrl(data);
  }

  /** The image an edit returns can be sent back as the next edit's
      current image, and the model then receives exactly the last image
      data of the previous answer (base64 data never holds a comma). */
  lemma ReturnedImageRoundTrips(response: ModelResponse, message: string, history: Option<seq<HistoryEntry>>)
    requires !NoCandidates(response) && message != ""
    requires LastImageData(FirstCandidateParts(response)).Some?
    requires ',' !in LastImageData(FirstCandidateParts(response)).value
    ensures var reply := EditResult(Responded(response));
            && reply.Edited? && reply.newImageUrl.Some?
            && var next := ChatEditBody(Some(message), reply.newImageUrl, history);
               && Request(next).Some?
               && Request(next).value[|Request(next).value| - 1]
                  == InlinePart(ImageMimeType, LastImageData(FirstCandidateParts(response)).value)
  {
    var data := LastImageData(FirstCandidateParts(response)).value;
    PayloadOfPngDataUrl(data);
  }

  /** With zero candidates the reply is still a success, with the apology
      text and no image. */
  lemma ZeroCandidatesIsSuccess(response: ModelResponse)
    requires NoCandidates(response)
    ensures EditResult(Responded(response)) == Edited(NoCandidatesText, None)
  {
  }

  /** When the model returns two different images, the edit route keeps
      the second. */
  lemma LastImageWins(a: string, b: string)
    requires a != "" && b != "" && a != b
    ensures var parts := [ResponsePart(Some(InlineData(None, Some(a))), None),
                          ResponsePart(Some(InlineData(None, Some(b))), None)];
            EditResult(Responded(ModelResponse(Some([Candidate(Some(parts))]))))
              == Edited(DefaultText, Some(PngDataUrl(b)))
  {
    FirstAndLastImageDiffer(a, b);
  }
}
