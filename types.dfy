/** The records shared by the web app's pages, components and API routes
    (src/types/index.ts), and the request/response shapes of the hosted
    image model as the routes read them. Message ids and timestamps are
    left out (see README). */
module Types {
  import opened Wrappers

  /** What the user asks the compositor to keep, copy or add. */
  datatype GenerationParams = GenerationParams(
    preserveClothing: bool,
    preserveAccessories: bool,
    preserveExpression: bool,
    copyPose: bool,
    customInstructions: string)

  /** Every flag off and no custom text: the page's initial parameters, and
      also what the generate route reads from `JSON.parse('{}')`, where each
      missing field is falsy. */
  const EmptyParams := GenerationParams(false, false, false, false, "")

  datatype Role = User | Assistant

  /** The `role` string a message carries on the wire. */
  function RoleName(r: Role): string
  {
    match r
    case User => "user"
    case Assistant => "assistant"
  }

  /** One chat bubble. `hasAddToCanvas` absent is modelled as `false`. */
  datatype ChatMessage = ChatMessage(
    content: string,
    role: Role,
    imageUrl: Option<string>,
    hasAddToCanvas: bool)

  /** A subject photo remembered for reuse; `uploadedAt` stands for the
      upload time. */
  datatype RecentFace = RecentFace(id: string, imageUrl: string, thumbnail: string, uploadedAt: int)

  /** One element of the parts list sent to the image model. */
  datatype ContentPart = TextPart(text: string) | InlinePart(mimeType: string, data: string)

  /** `part.inlineData` of a response part; either field may be absent. */
  datatype InlineData = InlineData(mimeType: Option<string>, data: Option<string>)

  /** One response part: possibly inline data, possibly text. */
  datatype ResponsePart = ResponsePart(inlineData: Option<InlineData>, text: Option<string>)

  /** A candidate; `parts` is `None` when `candidate.content` or
      `candidate.content.parts` is missing. */
  datatype Candidate = Candidate(parts: Option<seq<ResponsePart>>)

  /** `result.response`; `candidates` is `None` when the field is missing. */
  datatype ModelResponse = ModelResponse(candidates: Option<seq<Candidate>>)

  /** What one call to the hosted image model produced: an exception with
      its message, or a response. */
  datatype ModelCall = Threw(message: string) | Responded(response: ModelResponse)
}
