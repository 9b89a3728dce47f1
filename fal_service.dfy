/** The image-to-video service wrapper (src/utils/fal.ts): the supported
    resolutions and durations, the parameter validator that collects every
    error in a fixed order, the API-key check, and the defaults and
    missing-URL check of `generateVideo`. The hosted video model is the
    parameter `subscribe`. */
module FalVideo {
  import opened Wrappers
  import opened JsString
  import opened Sequences

  /** `getSupportedDurations()`: seconds. */
  datatype DurationRange = DurationRange(min: nat, max: nat, default: nat)

  /** The input sent to the video model. `duration` is a JS number. */
  datatype VideoRequest = VideoRequest(imageUrl: string, prompt: string, duration: real, resolution: string)

  /** What `fal.subscribe` produced: an exception, or `result.data` with
      `data.video.url` if present (`None` covers a missing `data`, `video`
      or `url`). */
  datatype FalCall = FalThrew(message: string) | FalReturned(videoUrl: Option<string>)

  /** The validator's answer. */
  datatype Validation = Validation(valid: bool, errors: seq<string>)

  const Resolutions := ["720p", "1080p", "480p"]
  const Durations := DurationRange(1, 10, 6)
  const MaxPromptLength := 600
  const DefaultResolution := "720p"

  const ImageUrlError := "Valid image URL is required"
  const PromptRequiredError := "Video prompt is required"
  const PromptLengthError := "Prompt must be 600 characters or less"
  const NoVideoUrlError := "No video URL returned from Fal.ai API"

  /** `Duration must be between ${min} and ${max} seconds` */
  function DurationError(range: DurationRange): string
  {
    "Duration must be between " + NatToString(range.min) + " and " + NatToString(range.max) + " seconds"
  }

  /** `Resolution must be one of: ${supportedResolutions.join(', ')}` */
  function ResolutionError(supported: seq<string>): string
  {
    "Resolution must be one of: " + Join(supported, ", ")
  }

  /** The image URL check is a prefix test only. */
  predicate BadImageUrl(imageUrl: string)
  {
    imageUrl == "" || (!StartsWith(imageUrl, "http") && !StartsWith(imageUrl, "data:"))
  }

  predicate DurationOutOfRange(duration: real)
  {
    duration < Durations.min as real || duration > Durations.max as real
  }

  /** A single check: its message if it failed, nothing otherwise. */
  function Check(failed: bool, message: string): seq<string>
  {
    if failed then [message] else []
  }

  /** The messages of the failed checks, in check order. */
  function Collect(failed: seq<bool>, messages: seq<string>): (errors: seq<string>)
    requires |failed| == |messages|
    ensures |errors| <= |messages|
    ensures errors == [] <==> forall i :: 0 <= i < |failed| ==> !failed[i]
  {
    if |failed| == 0 then []
    else
      var rest := Collect(failed[1..], messages[1..]);
      assert forall i :: 1 <= i < |failed| ==> failed[i] == failed[1..][i - 1];
      Check(failed[0], messages[0]) + rest
  }

  /** The five messages, in the order `validateParameters` checks. */
  function Messages(): seq<string>
  {
    [ImageUrlError, PromptRequiredError, PromptLengthError, DurationError(Durations), ResolutionError(Resolutions)]
  }

  /** Which of the five checks fail. */
  function Failures(imageUrl: string, prompt: string, duration: real, resolution: string): seq<bool>
  {
    [BadImageUrl(imageUrl),
     prompt == "" || Trim(prompt) == "",
     prompt != "" && |prompt| > MaxPromptLength,
     DurationOutOfRange(duration),
     resolution !in Resolutions]
  }

  /** The errors `validateParameters` reports. */
  function ValidationErrors(imageUrl: string, prompt: string, duration: real, resolution: string): (errors: seq<string>)
    ensures |errors| <= 5
  {
    Collect(Failures(imageUrl, prompt, duration, resolution), Messages())
  }

  class FalService {
    const apiKey: string

    constructor(apiKey: string)
      ensures this.apiKey == apiKey
    {
      this.apiKey := apiKey;
    }

    /** True exactly when the key has a character that is not white space. */
    function ValidateApiKey(): (ok: bool)
      ensures ok <==> exists i :: 0 <= i < |apiKey| && !IsWhitespace(apiKey[i])
    {
      !(apiKey == "" || |Trim(apiKey)| == 0)
    }

    function SupportedResolutions(): (r: seq<string>)
      ensures |r| == 3 && DefaultResolution in r
    {
      Resolutions
    }

    function SupportedDurations(): (r: DurationRange)
      ensures r.min <= r.default <= r.max
    {
      Durations
    }

    /** Collects the errors into a list, one check after another. */
    method ValidateParameters(imageUrl: string, prompt: string, duration: real, resolution: string)
      returns (result: Validation)
      ensures result.errors == ValidationErrors(imageUrl, prompt, duration, resolution)
      ensures result.valid <==> result.errors == []
    {
      var errors: seq<string> := [];
      if imageUrl == "" || (!StartsWith(imageUrl, "http") && !StartsWith(imageUrl, "data:")) {
        errors := errors + [ImageUrlError];
      }
      ghost var e0 := errors;
      if prompt == "" || Trim(prompt) == "" {
        errors := errors + [PromptRequiredError];
      }
      ghost var e1 := errors;
      if prompt != "" && |prompt| > 600 {
        errors := errors + [PromptLengthError];
      }
      ghost var e2 := errors;
      var supportedDurations := SupportedDurations();
      if duration < supportedDurations.min as real || duration > supportedDurations.max as real {
        errors := errors + [DurationError(supportedDurations)];
      }
      ghost var e3 := errors;
      var supportedResolutions := SupportedResolutions();
      if resolution !in supportedResolutions {
        errors := errors + [ResolutionError(supportedResolutions)];
      }
      ValidationSteps(imageUrl, prompt, duration, resolution, e0, e1, e2, e3, errors);
      result := Validation(|errors| == 0, errors);
    }

    /** `generateVideo`: fills in the defaults and sends the request as it
        is, without validating it; a result without a video URL is an
        error. `sent` records the request passed to the model. */
    method GenerateVideo(imageUrl: string, prompt: string, duration: Option<real>, resolution: Option<string>,
                         subscribe: VideoRequest -> FalCall)
      returns (r: Result<string, string>, ghost sent: VideoRequest)
      ensures sent == VideoRequest(imageUrl, prompt, duration.GetOr(Durations.default as real), resolution.GetOr(DefaultResolution))
      ensures r == VideoOutcome(subscribe(VideoRequest(imageUrl, prompt, duration.GetOr(Durations.default as real),
                                                       resolution.GetOr(DefaultResolution))))
    {
      var d := if duration.Some? then duration.value else 6.0;
      var res := if resolution.Some? then resolution.value else "720p";
      sent := VideoRequest(imageUrl, prompt, d, res);
      var result := subscribe(VideoRequest(imageUrl, prompt, d, res));
      if result.FalThrew? {
        return Failure(result.message), sent;
      }
      if result.videoUrl.None? || result.videoUrl.value == "" {
        return Failure(NoVideoUrlError), sent;
      }
      r := Success(result.videoUrl.value);
    }
  }

  /** What `generateVideo` returns for a model outcome: the video URL, or
      the error it throws. */
  function VideoOutcome(call: FalCall): (r: Result<string, string>)
    ensures r.Success? <==> call.FalReturned? && call.videoUrl.Some? && call.videoUrl.value != ""
    ensures r.Success? ==> r.value == call.videoUrl.value
    ensures call.FalReturned? && !r.Success? ==> r == Failure(NoVideoUrlError)
  {
    match call
    case FalThrew(message) => Failure(message)
    case FalReturned(url) => if url.Some? && url.value != "" then Success(url.value) else Failure(NoVideoUrlError)
  }

  // ---------------------------------------------------------------------
  // Properties of the validator

  /** One step of `Collect` from position `i`. */
  lemma CollectStep(failed: seq<bool>, messages: seq<string>, i: nat)
    requires |failed| == |messages| && i < |failed|
    ensures Collect(failed[i..], messages[i..]) == Check(failed[i], messages[i]) + Collect(failed[i + 1..], messages[i + 1..])
  {
    assert failed[i..][1..] == failed[i + 1..];
    assert messages[i..][1..] == messages[i + 1..];
  }

  /** `Collect` over five checks, unfolded. */
  lemma CollectFiveNested(f: seq<bool>, m: seq<string>)
    requires |f| == |m| == 5
    ensures Collect(f, m) == Check(f[0], m[0]) + (Check(f[1], m[1]) + (Check(f[2], m[2]) + (Check(f[3], m[3]) + Check(f[4], m[4]))))
  {
    CollectStep(f, m, 4);
    assert Collect(f[5..], m[5..]) == [];
    CollectStep(f, m, 3);
    CollectStep(f, m, 2);
    CollectStep(f, m, 1);
    CollectStep(f, m, 0);
    assert f[0..] == f && m[0..] == m;
  }

  lemma CollectFive(failed: seq<bool>, messages: seq<string>)
    requires |failed| == |messages| == 5
    ensures Collect(failed, messages)
         == Check(failed[0], messages[0]) + Check(failed[1], messages[1]) + Check(failed[2], messages[2])
            + Check(failed[3], messages[3]) + Check(failed[4], messages[4])
  {
    CollectFiveNested(failed, messages);
    Regroup(Check(failed[0], messages[0]), Check(failed[1], messages[1]), Check(failed[2], messages[2]),
            Check(failed[3], messages[3]), Check(failed[4], messages[4]));
  }

  lemma Regroup(c0: seq<string>, c1: seq<string>, c2: seq<string>, c3: seq<string>, c4: seq<string>)
    ensures c0 + (c1 + (c2 + (c3 + c4))) == c0 + c1 + c2 + c3 + c4
  {
    assert c2 + (c3 + c4) == c2 + c3 + c4;
    assert c1 + (c2 + c3 + c4) == c1 + c2 + c3 + c4;
  }

  /** The five pushes of `validateParameters`, one after another, give the
      collected errors. */
  lemma ValidationSteps(imageUrl: string, prompt: string, duration: real, resolution: string,
                        e0: seq<string>, e1: seq<string>, e2: seq<string>, e3: seq<string>, e4: seq<string>)
    requires e0 == Check(BadImageUrl(imageUrl), ImageUrlError)
    requires e1 == e0 + Check(prompt == "" || Trim(prompt) == "", PromptRequiredError)
    requires e2 == e1 + Check(prompt != "" && |prompt| > MaxPromptLength, PromptLengthError)
    requires e3 == e2 + Check(DurationOutOfRange(duration), DurationError(Durations))
    requires e4 == e3 + Check(resolution !in Resolutions, ResolutionError(Resolutions))
    ensures e4 == ValidationErrors(imageUrl, prompt, duration, resolution)
  {
    CollectFive(Failures(imageUrl, prompt, duration, resolution), Messages());
  }

  /** With distinct messages, a message is reported exactly when its check
      failed. */
  lemma {:induction false} CollectMembership(failed: seq<bool>, messages: seq<string>, k: nat)
    requires |failed| == |messages| && k < |messages| && Distinct(messages)
    ensures messages[k] in Collect(failed, messages) <==> failed[k]
  {
    var rest := Collect(failed[1..], messages[1..]);
    if k == 0 {
      if !failed[0] {
        CollectSubsequence(failed[1..], messages[1..]);
        SubsequenceElements(rest, messages[1..]);
      }
    } else {
      assert Distinct(messages[1..]) by {
        forall i, j | 0 <= i < j < |messages[1..]| ensures messages[1..][i] != messages[1..][j] {
          assert messages[1..][i] == messages[i + 1] && messages[1..][j] == messages[j + 1];
        }
      }
      CollectMembership(failed[1..], messages[1..], k - 1);
      assert messages[k] == messages[1..][k - 1];
    }
  }

  /** The reported messages keep the check order. */
  lemma {:induction false} CollectSubsequence(failed: seq<bool>, messages: seq<string>)
    requires |failed| == |messages|
    ensures IsSubsequence(Collect(failed, messages), messages)
    decreases |messages|
  {
    if |failed| > 0 {
      var rest := Collect(failed[1..], messages[1..]);
      CollectSubsequence(failed[1..], messages[1..]);
      var errors := Collect(failed, messages);
      if failed[0] {
        assert errors[0] == messages[0] && errors[1..] == rest;
      } else {
        assert errors == rest;
      }
    }
  }

  lemma DurationErrorText()
    ensures DurationError(Durations) == "Duration must be between 1 and 10 seconds"
  {
    assert NatToString(1) == "1";
    assert NatToString(10) == "10";
  }

  lemma ResolutionErrorText()
    ensures ResolutionError(Resolutions) == "Resolution must be one of: 720p, 1080p, 480p"
  {
    assert Resolutions[1..] == ["1080p", "480p"];
    assert ["1080p", "480p"][1..] == ["480p"];
  }

  lemma MessagesDistinct()
    ensures ImageUrlError != PromptRequiredError && ImageUrlError != PromptLengthError
    ensures ImageUrlError != DurationError(Durations) && ImageUrlError != ResolutionError(Resolutions)
    ensures PromptRequiredError != PromptLengthError && PromptRequiredError != DurationError(Durations)
    ensures PromptRequiredError != ResolutionError(Resolutions)
    ensures PromptLengthError != DurationError(Durations) && PromptLengthError != ResolutionError(Resolutions)
    ensures DurationError(Durations) != ResolutionError(Resolutions)
  {
    DurationErrorText();
    ResolutionErrorText();
    assert ImageUrlError[1] != PromptRequiredError[1];
    assert ImageUrlError[0] != PromptLengthError[0];
    assert ImageUrlError[0] != DurationError(Durations)[0];
    assert ImageUrlError[0] != ResolutionError(Resolutions)[0];
    assert PromptRequiredError[0] != PromptLengthError[0];
    assert PromptRequiredError[0] != DurationError(Durations)[0];
    assert PromptRequiredError[0] != ResolutionError(Resolutions)[0];
    assert PromptLengthError[0] != DurationError(Durations)[0];
    assert PromptLengthError[0] != ResolutionError(Resolutions)[0];
    assert DurationError(Durations)[0] != ResolutionError(Resolutions)[0];
  }

  /** A message is reported exactly when its check fails. */
  lemma Reported(imageUrl: string, prompt: string, duration: real, resolution: string, k: nat)
    requires k < 5
    ensures Messages()[k] in ValidationErrors(imageUrl, prompt, duration, resolution)
            <==> Failures(imageUrl, prompt, duration, resolution)[k]
  {
    MessagesDistinct();
    var messages := Messages();
    assert Distinct(messages);
    CollectMembership(Failures(imageUrl, prompt, duration, resolution), messages, k);
  }

  /** Each message is reported exactly when its condition holds. */
  lemma ErrorsIff(imageUrl: string, prompt: string, duration: real, resolution: string)
    ensures var errors := ValidationErrors(imageUrl, prompt, duration, resolution);
            && (ImageUrlError in errors <==> BadImageUrl(imageUrl))
            && (PromptRequiredError in errors <==> IsBlank(prompt))
            && (PromptLengthError in errors <==> |prompt| > MaxPromptLength)
            && (DurationError(Durations) in errors <==> DurationOutOfRange(duration))
            && (ResolutionError(Resolutions) in errors <==> resolution !in Resolutions)
  {
    Reported(imageUrl, prompt, duration, resolution, 0);
    Reported(imageUrl, prompt, duration, resolution, 1);
    Reported(imageUrl, prompt, duration, resolution, 2);
    Reported(imageUrl, prompt, duration, resolution, 3);
    Reported(imageUrl, prompt, duration, resolution, 4);
  }

  /** The messages appear in the fixed order image, prompt required,
      prompt length, duration, resolution, each at most once; the result
      is valid exactly when no check failed. */
  lemma ErrorsInFixedOrder(imageUrl: string, prompt: string, duration: real, resolution: string)
    ensures var errors := ValidationErrors(imageUrl, prompt, duration, resolution);
            IsSubsequence(errors, Messages()) && Distinct(errors)
  {
    MessagesDistinct();
    var failed, messages := Failures(imageUrl, prompt, duration, resolution), Messages();
    CollectSubsequence(failed, messages);
    SubsequenceDistinct(Collect(failed, messages), messages);
  }

  /** The length limit is inclusive: 600 characters pass, 601 do not. */
  lemma PromptLengthBoundary(prompt: string)
    requires |prompt| == MaxPromptLength || |prompt| == MaxPromptLength + 1
    ensures PromptLengthError in ValidationErrors("https://example.com/a.png", prompt, 6.0, "720p")
            <==> |prompt| == MaxPromptLength + 1
  {
    ErrorsIff("https://example.com/a.png", prompt, 6.0, "720p");
  }

  /** Defaults and a usable URL and prompt validate cleanly. */
  lemma DefaultsAreValid(imageUrl: string, prompt: string)
    requires StartsWith(imageUrl, "http") || StartsWith(imageUrl, "data:")
    requires !IsBlank(prompt) && |prompt| <= MaxPromptLength
    ensures ValidationErrors(imageUrl, prompt, Durations.default as real, DefaultResolution) == []
  {
    CollectFive(Failures(imageUrl, prompt, Durations.default as real, DefaultResolution), Messages());
  }

  /** Every check fails at once for an empty URL and prompt, a zero
      duration and an unsupported resolution: four errors, since an empty
      prompt is not also too long. */
  lemma EverythingWrong()
    ensures ValidationErrors("", "", 0.0, "4k") == [ImageUrlError, PromptRequiredError, DurationError(Durations), ResolutionError(Resolutions)]
  {
    CollectFive(Failures("", "", 0.0, "4k"), Messages());
  }
}
