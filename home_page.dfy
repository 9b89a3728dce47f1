/** The main page (src/app/page.tsx): holds the two uploaded photos, the
    generation parameters and the generated images; the generate handler
    posts them to the generate endpoint, and an edit from a preview's chat
    panel replaces one generated image in place.

    The async handler is split at its `await` into `BeginGenerate` and
    `FinishGenerate`; `alert` calls are recorded in `alerts`. */
module HomePage {
  import opened Wrappers
  import opened Types
  import GenerateRoute
  import PromptBuilder

  /** What the page posts: the form the endpoint reads, and the
      `isRegeneration` flag it adds to the params (which the endpoint
      ignores). */
  datatype GenerateRequest = GenerateRequest(form: GenerateRoute.GenerateForm, isRegeneration: bool)

  /** How the request settled: failed (network error, non-OK status or
      unreadable body), or the body's `images` and `prompt` fields. */
  datatype GenerateOutcome = Failed | Answered(images: Option<seq<string>>, prompt: Option<string>)

  const MissingImagesAlert := "Please upload both reference and subject images"
  const FailureAlert := "Failed to generate image. Please try again."

  /** How an endpoint reply reaches the page: only a 200 is read. */
  function OutcomeOf(reply: GenerateRoute.GenerateReply): (outcome: GenerateOutcome)
    ensures outcome.Answered? <==> reply.Generated?
    ensures reply.Generated? ==> outcome == Answered(Some(reply.images), Some(reply.prompt))
  {
    if reply.Generated? then Answered(Some(reply.images), Some(reply.prompt)) else Failed
  }

  class Home {
    var referenceImage: Option<GenerateRoute.ImageFile>
    var subjectImage: Option<GenerateRoute.ImageFile>
    var generatedImages: seq<string>
    var generatedPrompt: string
    var isGenerating: bool
    var generationParams: GenerationParams
    var alerts: seq<string>

    constructor()
      ensures referenceImage.None? && subjectImage.None?
      ensures generatedImages == [] && generatedPrompt == "" && !isGenerating
      ensures generationParams == EmptyParams && alerts == []
    {
      referenceImage := None;
      subjectImage := None;
      generatedImages := [];
      generatedPrompt := "";
      isGenerating := false;
      generationParams := EmptyParams;
      alerts := [];
    }

    method SetReferenceImage(file: Option<GenerateRoute.ImageFile>)
      modifies this
      ensures referenceImage == file
      ensures subjectImage == old(subjectImage) && generatedImages == old(generatedImages)
      ensures generatedPrompt == old(generatedPrompt) && isGenerating == old(isGenerating)
      ensures generationParams == old(generationParams) && alerts == old(alerts)
    {
      referenceImage := file;
    }

    method SetSubjectImage(file: Option<GenerateRoute.ImageFile>)
      modifies this
      ensures subjectImage == file
      ensures referenceImage == old(referenceImage) && generatedImages == old(generatedImages)
      ensures generatedPrompt == old(generatedPrompt) && isGenerating == old(isGenerating)
      ensures generationParams == old(generationParams) && alerts == old(alerts)
    {
      subjectImage := file;
    }

    /** The parameters panel's `onChange`. */
    method SetGenerationParams(params: GenerationParams)
      modifies this
      ensures generationParams == params
      ensures referenceImage == old(referenceImage) && subjectImage == old(subjectImage)
      ensures generatedImages == old(generatedImages) && generatedPrompt == old(generatedPrompt)
      ensures isGenerating == old(isGenerating) && alerts == old(alerts)
    {
      generationParams := params;
    }

    /** The part of `handleGenerate` before the `await`. With a photo
        missing it only alerts; otherwise it marks the page busy and returns
        the request. The handler itself does not test `isGenerating` (the
        button is disabled instead). */
    method BeginGenerate(isRegeneration: bool) returns (request: Option<GenerateRequest>)
      modifies this
      ensures request.Some? <==> old(referenceImage).Some? && old(subjectImage).Some?
      ensures request.None? ==> alerts == old(alerts) + [MissingImagesAlert] && isGenerating == old(isGenerating)
      ensures request.Some? ==>
                && request.value == GenerateRequest(
                     GenerateRoute.GenerateForm(old(referenceImage), old(subjectImage),
                                                GenerateRoute.Parsed(old(generationParams))),
                     isRegeneration)
                && isGenerating && alerts == old(alerts)
      ensures referenceImage == old(referenceImage) && subjectImage == old(subjectImage)
      ensures generatedImages == old(generatedImages) && generatedPrompt == old(generatedPrompt)
      ensures generationParams == old(generationParams)
    {
      if referenceImage.None? || subjectImage.None? {
        alerts := alerts + [MissingImagesAlert];
        return None;
      }
      isGenerating := true;
      var form := GenerateRoute.GenerateForm(referenceImage, subjectImage, GenerateRoute.Parsed(generationParams));
      request := Some(GenerateRequest(form, isRegeneration));
    }

    /** The part after the `await`: a body replaces images and prompt (with
        `[]` and `""` for absent fields), a failure alerts and keeps them;
        either way the page is no longer busy. */
    method FinishGenerate(outcome: GenerateOutcome)
      modifies this
      ensures outcome.Answered? ==> generatedImages == outcome.images.GetOr([])
                                    && generatedPrompt == outcome.prompt.GetOr("") && alerts == old(alerts)
      ensures outcome.Failed? ==> generatedImages == old(generatedImages) && generatedPrompt == old(generatedPrompt)
                                  && alerts == old(alerts) + [FailureAlert]
      ensures !isGenerating
      ensures referenceImage == old(referenceImage) && subjectImage == old(subjectImage)
      ensures generationParams == old(generationParams)
    {
      if outcome.Failed? {
        alerts := alerts + [FailureAlert];
      } else {
        generatedImages := if outcome.images.Some? then outcome.images.value else [];
        generatedPrompt := if outcome.prompt.Some? then outcome.prompt.value else "";
      }
      isGenerating := false;
    }

    /** `handleImageUpdate`: copies the list, assigns one slot, stores the
        copy. */
    method ImageUpdate(index: nat, newImageUrl: string)
      requires index < |generatedImages|
      modifies this
      ensures |generatedImages| == old(|generatedImages|)
      ensures generatedImages[index] == newImageUrl
      ensures forall i :: 0 <= i < |generatedImages| && i != index ==> generatedImages[i] == old(generatedImages[i])
      ensures referenceImage == old(referenceImage) && subjectImage == old(subjectImage)
      ensures generatedPrompt == old(generatedPrompt) && isGenerating == old(isGenerating)
      ensures generationParams == old(generationParams) && alerts == old(alerts)
    {
      var updated := new string[|generatedImages|](i requires 0 <= i < |generatedImages| reads this => generatedImages[i]);
      updated[index] := newImageUrl;
      generatedImages := updated[..];
    }
  }

  /** One generation from the page through the endpoint and back: when
      the endpoint succeeds, the page shows its two images and the prompt
      built from the page's own parameters. */
  method GenerateThroughEndpoint(home: Home, model: seq<ContentPart> -> ModelCall)
    returns (reply: GenerateRoute.GenerateReply)
    requires home.referenceImage.Some? && home.subjectImage.Some?
    modifies home
    ensures reply.Generated? ==>
              home.generatedPrompt == PromptBuilder.ComposePrompt(old(home.generationParams))
              && |home.generatedImages| == 2
    ensures !reply.Generated? ==> home.generatedImages == old(home.generatedImages)
    ensures !home.isGenerating
  {
    var request := home.BeginGenerate(false);
    ghost var sent;
    reply, sent := GenerateRoute.Post(request.value.form, model);
    GenerateRoute.GeneratedIffAllSucceed(request.value.form, model);
    home.FinishGenerate(OutcomeOf(reply));
  }
}
