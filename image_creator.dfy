/** The image-creation panel: a prompt, the generated image, a loading flag and an error,
    changed by submitting. */
module ImageCreator {
  import opened Platform
  import opened GenAI
  import GeminiService

  const MissingPrompt := "Please provide a prompt to generate an image."

  class CreatorPanel {
    var prompt: string
    var generatedImage: Option<string>
    var isLoading: bool
    var error: Option<string>

    ghost predicate Valid()
      reads this
    {
      isLoading ==> prompt != [] && error.None? && generatedImage.None?
    }

    constructor ()
      ensures Valid()
      ensures prompt == [] && generatedImage.None? && !isLoading && error.None?
    {
      prompt := [];
      generatedImage := None;
      isLoading := false;
      error := None;
    }

    /** The Generate Image button is enabled: nothing is loading and the prompt is not empty. */
    predicate GenerateEnabled()
      reads this
    {
      !isLoading && prompt != []
    }

    /** Typing in the prompt (disabled while loading). */
    method SetPrompt(text: string)
      requires Valid() && !isLoading
      modifies this
      ensures Valid()
      ensures prompt == text && generatedImage == old(generatedImage) && !isLoading && error == old(error)
    {
      prompt := text;
    }

    /** The synchronous start of `handleSubmit` (the button is disabled while loading). With
        an empty prompt only the error changes, to the validation message, and no call is made;
        otherwise loading starts and the error and the generated image are cleared. Whether
        the call is made is returned. */
    method BeginSubmit() returns (started: bool)
      requires Valid() && !isLoading
      modifies this
      ensures Valid()
      ensures prompt == old(prompt)
      ensures started <==> old(GenerateEnabled())
      ensures !started ==> error == Some(MissingPrompt) && !isLoading && generatedImage == old(generatedImage)
      ensures started ==> isLoading && error.None? && generatedImage.None?
    {
      if prompt == [] {
        error := Some(MissingPrompt);
        return false;
      }
      isLoading := true;
      error := None;
      generatedImage := None;
      started := true;
    }

    /** The end of `handleSubmit`: the returned data becomes a PNG data URL, or the error shows
        the exception's message and no image is set; either way loading ends. */
    method Complete(outcome: Outcome<string>)
      requires Valid() && isLoading
      modifies this
      ensures Valid()
      ensures !isLoading && prompt == old(prompt)
      ensures outcome.Resolved? ==>
        generatedImage == Some(GeminiService.PngDataUrl(outcome.value)) && error.None?
      ensures outcome.Rejected? ==> generatedImage.None? && error == Some(ErrorText(outcome.error))
    {
      match outcome {
        case Resolved(generatedBase64) =>
          generatedImage := Some(GeminiService.PngDataUrl(generatedBase64));
        case Rejected(e) =>
          error := Some(ErrorText(e));
      }
      // finally
      isLoading := false;
    }

    /** `handleSubmit` run to completion: the first inline image of the reply is shown as PNG,
        and any failure, a reply without an image included, shows the create failure message. */
    method HandleSubmit(generateContent: Request -> Outcome<Response>)
      requires Valid() && !isLoading
      modifies this
      ensures Valid() && !isLoading && prompt == old(prompt)
      ensures !old(GenerateEnabled()) ==> error == Some(MissingPrompt) && generatedImage == old(generatedImage)
      ensures old(GenerateEnabled()) ==>
        var result := GeminiService.ImageResult(
          generateContent(GeminiService.CreateImageRequest(old(prompt))), GeminiService.CreateImageFailed);
        && (result.Resolved? ==> generatedImage == Some(GeminiService.PngDataUrl(result.value)) && error.None?)
        && (result.Rejected? ==> generatedImage.None? && error == Some(GeminiService.CreateImageFailed))
    {
      var started := BeginSubmit();
      if started {
        var outcome := GeminiService.CreateImage(prompt, generateContent);
        Complete(outcome);
      }
    }
  }
}
