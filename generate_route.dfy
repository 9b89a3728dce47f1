/** The image-generation endpoint (src/app/api/generate/route.ts): checks
    that both photos were uploaded, builds the composite prompt, asks the
    image model twice (one variation suffix each) and answers with both
    images as PNG data URLs, or with an error.

    The hosted model is the parameter `model`: what one call with a given
    parts list produced. Reading the form, parsing the params JSON and
    base64-encoding the uploads are represented by their results. */
module GenerateRoute {
  import opened Wrappers
  import opened JsString
  import opened Types
  import opened DataUrl
  import opened ResponseParts
  import opened PromptBuilder

  /** An uploaded photo: its MIME type and its base64 encoding. */
  datatype ImageFile = ImageFile(mimeType: string, base64: string)

  /** The `params` form field: absent (read as `'{}'`), not valid JSON
      (`JSON.parse` throws), or parsed. */
  datatype ParamsField = Missing | Malformed(parseError: string) | Parsed(params: GenerationParams)

  datatype GenerateForm = GenerateForm(
    referenceImage: Option<ImageFile>,
    subjectImage: Option<ImageFile>,
    params: ParamsField)

  /** The JSON the endpoint answers with: 200 with both images and the
      unvaried prompt, 400 with an error, or 500 with an error and details. */
  datatype GenerateReply =
    | Generated(images: seq<string>, prompt: string)
    | BadRequest(error: string)
    | ServerError(error: string, details: string)

  const MissingImagesError := "Both reference and subject images are required"
  const GenerationFailed := "Failed to generate image"
  const NoImageGenerated := "No image generated"
  const NoImageData := "No image data in response"
  const ReferenceLabel := "REFERENCE IMAGE (the scene/environment to copy):"
  const SubjectLabel := "SUBJECT IMAGE (the person to place in the scene):"

  /** The two suffixes, one per generated image, in this order. */
  const Variations := [
    "Keep the pose natural and relaxed with a slight smile.",
    "Use a more confident pose with a different facial expression or head tilt."]

  /** The parameters the route acts on: an absent field reads as `{}`,
      whose every field is falsy. */
  function ParamsOf(field: ParamsField): GenerationParams
    requires !field.Malformed?
  {
    if field.Parsed? then field.params else EmptyParams
  }

  /** The text sent with one variation: the prompt, a space, the suffix. */
  function VariedPrompt(prompt: string, variation: string): (r: string)
    ensures |r| == |prompt| + 1 + |variation|
    ensures StartsWith(r, prompt) && r[|prompt|] == ' ' && r[|prompt| + 1..] == variation
  {
    assert (prompt + " " + variation)[..|prompt|] == prompt;
    prompt + " " + variation
  }

  /** The parts list of one call: reference label and photo, subject label
      and photo (each with its own MIME type), then the varied prompt. */
  function RequestParts(reference: ImageFile, subject: ImageFile, text: string): (parts: seq<ContentPart>)
    ensures |parts| == 5 && parts[|parts| - 1] == TextPart(text)
    ensures parts[1] == InlinePart(reference.mimeType, reference.base64)
    ensures parts[3] == InlinePart(subject.mimeType, subject.base64)
  {
    [TextPart(ReferenceLabel), InlinePart(reference.mimeType, reference.base64),
     TextPart(SubjectLabel), InlinePart(subject.mimeType, subject.base64),
     TextPart(text)]
  }

  /** What one `generateImage` call yields for a model outcome: the first
      part carrying image data, as a PNG data URL whatever its MIME type,
      or the error it throws. */
  function ImageResult(call: ModelCall): (r: Result<string, string>)
    ensures r.Success? <==> call.Responded? && !NoCandidates(call.response)
                            && FirstImageData(FirstCandidateParts(call.response)).Some?
    ensures r.Success? ==> r.value == PngDataUrl(FirstImageData(FirstCandidateParts(call.response)).value)
    ensures call.Threw? ==> r == Failure(call.message)
    ensures call.Responded? && NoCandidates(call.response) ==> r == Failure(NoImageGenerated)
    ensures (call.Responded? && !NoCandidates(call.response) && FirstImageData(FirstCandidateParts(call.response)).None?)
              ==> r == Failure(NoImageData)
  {
    match call
    case Threw(message) => Failure(message)
    case Responded(response) =>
      if NoCandidates(response) then Failure(NoImageGenerated)
      else
        var data := FirstImageData(FirstCandidateParts(response));
        if data.None? then Failure(NoImageData) else Success(PngDataUrl(data.value))
  }

  /** The two requests for a built prompt, one per variation, in order. */
  function VariationRequests(reference: ImageFile, subject: ImageFile, prompt: string): (r: seq<seq<ContentPart>>)
    ensures |r| == |Variations|
    ensures forall i :: 0 <= i < |r| ==> r[i] == RequestParts(reference, subject, VariedPrompt(prompt, Variations[i]))
  {
    seq(|Variations|, i requires 0 <= i < |Variations| => RequestParts(reference, subject, VariedPrompt(prompt, Variations[i])))
  }

  /** `Promise.all` over the two generations, then the success body: the
      first failure in variation order is the one reported. */
  function Combine(results: seq<Result<string, string>>, prompt: string): (reply: GenerateReply)
    requires |results| == 2
    ensures reply.Generated? <==> forall i :: 0 <= i < |results| ==> results[i].Success?
    ensures reply.Generated? ==> reply.prompt == prompt && |reply.images| == |results|
                                 && forall i :: 0 <= i < |results| ==> results[i] == Success(reply.images[i])
    ensures reply.ServerError? ==> reply.error == GenerationFailed && exists i :: 0 <= i < |results| && results[i] == Failure(reply.details)
    ensures !reply.BadRequest?
  {
    if results[0].Failure? then ServerError(GenerationFailed, results[0].error)
    else if results[1].Failure? then ServerError(GenerationFailed, results[1].error)
    else Generated([results[0].value, results[1].value], prompt)
  }

  /** What the model makes of the requests, one result per request. */
  function Results(requests: seq<seq<ContentPart>>, model: seq<ContentPart> -> ModelCall): (r: seq<Result<string, string>>)
    ensures |r| == |requests| && forall i :: 0 <= i < |r| ==> r[i] == ImageResult(model(requests[i]))
  {
    seq(|requests|, i requires 0 <= i < |requests| => ImageResult(model(requests[i])))
  }

  /** The requests the route sends for a form: none when it answers before
      calling the model, otherwise one per variation, in order. */
  function Requests(form: GenerateForm): (r: seq<seq<ContentPart>>)
    ensures r == [] <==> form.referenceImage.None? || form.subjectImage.None? || form.params.Malformed?
    ensures r != [] ==> |r| == |Variations|
  {
    if form.referenceImage.None? || form.subjectImage.None? || form.params.Malformed? then []
    else VariationRequests(form.referenceImage.value, form.subjectImage.value, ComposePrompt(ParamsOf(form.params)))
  }

  /** What each request carries: both photos as uploaded, and as its text
      the prompt built from the form's parameters with that request's
      variation. */
  lemma RequestContents(form: GenerateForm)
    requires Requests(form) != []
    ensures var r, prompt := Requests(form), ComposePrompt(ParamsOf(form.params));
            forall i :: 0 <= i < |r| ==>
              && |r[i]| == 5 && r[i][4] == TextPart(VariedPrompt(prompt, Variations[i]))
              && r[i][1] == InlinePart(form.referenceImage.value.mimeType, form.referenceImage.value.base64)
              && r[i][3] == InlinePart(form.subjectImage.value.mimeType, form.subjectImage.value.base64)
  {
    var reference, subject, prompt := form.referenceImage.value, form.subjectImage.value, ComposePrompt(ParamsOf(form.params));
    var r := VariationRequests(reference, subject, prompt);
    assert Requests(form) == r;
    forall i | 0 <= i < |r|
      ensures |r[i]| == 5 && r[i][4] == TextPart(VariedPrompt(prompt, Variations[i]))
    {
      assert r[i] == RequestParts(reference, subject, VariedPrompt(prompt, Variations[i]));
    }
  }

  /** The reply for a form. Both generations must succeed; when one fails
      the reply is a 500 carrying a failure's message. */
  function Respond(form: GenerateForm, model: seq<ContentPart> -> ModelCall): (reply: GenerateReply)
    ensures form.referenceImage.None? || form.subjectImage.None? ==> reply == BadRequest(MissingImagesError)
    ensures reply.BadRequest? <==> form.referenceImage.None? || form.subjectImage.None?
    ensures form.referenceImage.Some? && form.subjectImage.Some? && form.params.Malformed? ==>
              reply == ServerError(GenerationFailed, form.params.parseError)
    ensures reply.ServerError? ==> reply.error == GenerationFailed
    ensures reply.ServerError? && Requests(form) != [] ==>
              exists i :: 0 <= i < |Requests(form)| && ImageResult(model(Requests(form)[i])) == Failure(reply.details)
  {
    if form.referenceImage.None? || form.subjectImage.None? then BadRequest(MissingImagesError)
    else if form.params.Malformed? then ServerError(GenerationFailed, form.params.parseError)
    else Combine(Results(Requests(form), model), ComposePrompt(ParamsOf(form.params)))
  }

  /** The extraction loop: stops at the first part with image data. */
  method ExtractImage(parts: seq<ResponsePart>) returns (imageData: Option<string>)
    ensures imageData == FirstImageData(parts)
  {
    imageData := None;
    var i := 0;
    while i < |parts|
      invariant 0 <= i <= |parts|
      invariant imageData.None?
      invariant forall j :: 0 <= j < i ==> ImageDataOf(parts[j]).None?
    {
      var part := parts[i];
      if part.inlineData.Some? && part.inlineData.value.data.Some? && part.inlineData.value.data.value != "" {
        imageData := part.inlineData.value.data;
        FirstImageDataAt(parts, i);
        break;
      }
      i := i + 1;
    }
  }

  lemma FirstImageDataAt(parts: seq<ResponsePart>, i: nat)
    requires i < |parts| && ImageDataOf(parts[i]).Some?
    requires forall j :: 0 <= j < i ==> ImageDataOf(parts[j]).None?
    ensures FirstImageData(parts) == ImageDataOf(parts[i])
  {
    var r := FirstImageData(parts);
    var k :| 0 <= k < |parts| && ImageDataOf(parts[k]) == r
             && forall j :: 0 <= j < k ==> ImageDataOf(parts[j]).None?;
    assert !(k < i) && !(i < k);
  }

  /** `generateImage(variation)`: one model call and its extraction.
      `sent` records the parts list passed to the model. */
  method GenerateImage(prompt: string, variation: string, reference: ImageFile, subject: ImageFile,
                       model: seq<ContentPart> -> ModelCall)
    returns (r: Result<string, string>, ghost sent: seq<ContentPart>)
    ensures sent == RequestParts(reference, subject, VariedPrompt(prompt, variation))
    ensures r == ImageResult(model(RequestParts(reference, subject, VariedPrompt(prompt, variation))))
  {
    var variedPrompt := prompt + " " + variation;
    var parts := [TextPart(ReferenceLabel), InlinePart(reference.mimeType, reference.base64),
                  TextPart(SubjectLabel), InlinePart(subject.mimeType, subject.base64),
                  TextPart(variedPrompt)];
    sent := parts;
    var call := model(parts);
    if call.Threw? {
      return Failure(call.message), sent;
    }
    var response := call.response;
    if response.candidates.None? || |response.candidates.value| == 0 {
      return Failure(NoImageGenerated), sent;
    }
    var candidate := response.candidates.value[0];
    var imageData: Option<string> := None;
    if candidate.parts.Some? {
      imageData := ExtractImage(candidate.parts.value);
    }
    if imageData.None? {
      return Failure(NoImageData), sent;
    }
    r := Success(PngDataUrl(imageData.value));
  }

  /** The POST handler. `sent` records the parts lists passed to the model,
      in variation order. */
  method Post(form: GenerateForm, model: seq<ContentPart> -> ModelCall)
    returns (reply: GenerateReply, ghost sent: seq<seq<ContentPart>>)
    ensures reply == Respond(form, model)
    ensures sent == Requests(form)
  {
    sent := [];
    if form.referenceImage.None? || form.subjectImage.None? {
      return BadRequest(MissingImagesError), sent;
    }
    if form.params.Malformed? {
      return ServerError(GenerationFailed, form.params.parseError), sent;
    }
    var params := ParamsOf(form.params);
    var prompt := BuildPrompt(params);
    var reference, subject := form.referenceImage.value, form.subjectImage.value;
    ghost var sentFirst, sentSecond;
    var first, second;
    first, sentFirst := GenerateImage(prompt, Variations[0], reference, subject, model);
    second, sentSecond := GenerateImage(prompt, Variations[1], reference, subject, model);
    sent := [sentFirst, sentSecond];
    assert sent == VariationRequests(reference, subject, prompt);
    if first.Failure? {
      return ServerError(GenerationFailed, first.error), sent;
    }
    if second.Failure? {
      return ServerError(GenerationFailed, second.error), sent;
    }
    reply := Generated([first.value, second.value], prompt);
  }

  /** The combined reply for any two requests and any prompt: a success
      exactly when both calls produce an image, then holding the prompt and
      each call's image as a PNG data URL. */
  lemma CombinedResults(requests: seq<seq<ContentPart>>, model: seq<ContentPart> -> ModelCall, prompt: string)
    requires |requests| == 2
    ensures var reply := Combine(Results(requests, model), prompt);
            reply.Generated? <==> forall i :: 0 <= i < |requests| ==> ImageResult(model(requests[i])).Success?
    ensures var reply := Combine(Results(requests, model), prompt);
            reply.Generated? ==>
              reply.prompt == prompt && |reply.images| == |requests|
              && (forall i :: 0 <= i < |requests| ==> ImageResult(model(requests[i])) == Success(reply.images[i]))
              && forall i :: 0 <= i < |requests| ==> exists data :: data != "" && reply.images[i] == PngDataUrl(data)
  {
    var results := Results(requests, model);
    var reply := Combine(results, prompt);
    if reply.Generated? {
      forall i | 0 <= i < |requests|
        ensures exists data :: data != "" && reply.images[i] == PngDataUrl(data)
      {
        var call := model(requests[i]);
        assert results[i] == ImageResult(call) == Success(reply.images[i]);
        var data := FirstImageData(FirstCandidateParts(call.response)).value;
        assert data != "" && reply.images[i] == PngDataUrl(data);
      }
    }
  }

  /** Every image the endpoint returns is a PNG data URL with a non-empty
      payload. */
  lemma GeneratedImagesAreDataUrls(form: GenerateForm, model: seq<ContentPart> -> ModelCall)
    ensures var reply := Respond(form, model);
            reply.Generated? ==> forall i :: 0 <= i < |reply.images| ==>
              exists data :: data != "" && reply.images[i] == PngDataUrl(data)
  {
    var requests := Requests(form);
    if requests != [] {
      CombinedResults(requests, model, ComposePrompt(ParamsOf(form.params)));
    }
  }

  /** The reply is a success exactly when the route called the model and
      every call produced an image; it then holds the unvaried prompt and
      one image per variation, in variation order. */
  lemma GeneratedIffAllSucceed(form: GenerateForm, model: seq<ContentPart> -> ModelCall)
    ensures var reply, requests := Respond(form, model), Requests(form);
            reply.Generated? <==>
              (requests != [] && forall i :: 0 <= i < |requests| ==> ImageResult(model(requests[i])).Success?)
    ensures var reply, requests := Respond(form, model), Requests(form);
            reply.Generated? ==>
              reply.prompt == ComposePrompt(ParamsOf(form.params)) && |reply.images| == |requests|
              && forall i :: 0 <= i < |requests| ==> ImageResult(model(requests[i])) == Success(reply.images[i])
  {
    var requests := Requests(form);
    if requests != [] {
      CombinedResults(requests, model, ComposePrompt(ParamsOf(form.params)));
    }
  }

  /** A missing photo is answered with 400 before any model call. */
  lemma MissingImageSendsNothing(form: GenerateForm, model: seq<ContentPart> -> ModelCall)
    requires form.referenceImage.None? || form.subjectImage.None?
    ensures Respond(form, model) == BadRequest(MissingImagesError) && Requests(form) == []
  {
  }

  /** One failed generation is enough to lose both images. */
  lemma EitherFailureFails(form: GenerateForm, model: seq<ContentPart> -> ModelCall, i: nat)
    requires Requests(form) != [] && i < |Requests(form)|
    requires ImageResult(model(Requests(form)[i])).Failure?
    ensures Respond(form, model).ServerError?
  {
    assert Results(Requests(form), model)[i].Failure?;
  }
}
