/** The image-editing panel: a picked image, an editing prompt, the edited result,
    a loading flag and an error, changed by picking a file, submitting and starting over. */
module ImageEditor {
  import opened Platform
  import opened GenAI
  import GeminiService

  const MissingInput := "Please upload an image and provide an editing prompt."

  /** The arguments `handleSubmit` passes on: the prompt and the picked file. */
  datatype EditCall = EditCall(prompt: string, file: File)

  /** `s` is a PNG data URL. */
  predicate IsPngDataUrl(s: string)
  {
    var header := GeminiService.PngDataUrl("");
    |header| <= |s| && s[..|header|] == header
  }

  class EditorPanel {
    var originalImage: Option<SelectedImage>
    var editedImage: Option<string>
    var prompt: string
    var isLoading: bool
    var error: Option<string>

    ghost predicate Valid()
      reads this
    {
      && (isLoading ==> originalImage.Some? && prompt != [] && error.None? && editedImage.None?)
      && (editedImage.Some? ==> originalImage.Some? && IsPngDataUrl(editedImage.value))
    }

    constructor ()
      ensures Valid()
      ensures originalImage.None? && editedImage.None? && prompt == [] && !isLoading && error.None?
    {
      originalImage := None;
      editedImage := None;
      prompt := [];
      isLoading := false;
      error := None;
    }

    /** The Generate button is enabled: nothing is loading and the prompt is not empty. */
    predicate GenerateEnabled()
      reads this
    {
      !isLoading && prompt != []
    }

    /** `handleFileSelect`: the picked file becomes the original image; any edited image
        and any error are cleared. */
    method SelectFile(file: File, url: string)
      requires Valid()
      modifies this
      ensures Valid()
      ensures originalImage == Some(SelectedImage(file, url)) && editedImage.None? && error.None?
      ensures prompt == old(prompt) && isLoading == old(isLoading)
    {
      originalImage := Some(SelectedImage(file, url));
      editedImage := None;
      error := None;
    }

    /** Typing in the prompt (disabled while loading). */
    method SetPrompt(text: string)
      requires Valid() && !isLoading
      modifies this
      ensures Valid()
      ensures prompt == text
      ensures originalImage == old(originalImage) && editedImage == old(editedImage)
      ensures !isLoading && error == old(error)
    {
      prompt := text;
    }

    /** The synchronous start of `handleSubmit` (the button is disabled while loading).
        With no image or an empty prompt only the error changes, to the validation message,
        and no call is made; otherwise loading starts, the error and the edited image are
        cleared, and the call to make is returned. When the Generate button is enabled and
        the image is shown, the call is always made. */
    method BeginSubmit() returns (call: Option<EditCall>)
      requires Valid() && !isLoading
      modifies this
      ensures Valid()
      ensures originalImage == old(originalImage) && prompt == old(prompt)
      ensures call.Some? <==> old(GenerateEnabled()) && old(originalImage).Some?
      ensures call.None? ==> error == Some(MissingInput) && !isLoading && editedImage == old(editedImage)
      ensures call.Some? ==>
        && call.value == EditCall(prompt, originalImage.value.file)
        && isLoading && error.None? && editedImage.None?
    {
      if originalImage.None? || prompt == [] {
        error := Some(MissingInput);
        return None;
      }
      isLoading := true;
      error := None;
      editedImage := None;
      call := Some(EditCall(prompt, originalImage.value.file));
    }

    /** The end of `handleSubmit`, once the awaited calls have settled: the returned data
        becomes a PNG data URL, or the error shows the exception's message and no edited image
        is set; either way loading ends. */
    method Complete(outcome: Outcome<string>)
      requires Valid() && isLoading
      modifies this
      ensures Valid()
      ensures !isLoading && originalImage == old(originalImage) && prompt == old(prompt)
      ensures outcome.Resolved? ==>
        editedImage == Some(GeminiService.PngDataUrl(outcome.value)) && error.None?
      ensures outcome.Rejected? ==> editedImage.None? && error == Some(ErrorText(outcome.error))
    {
      match outcome {
        case Resolved(editedBase64) =>
          editedImage := Some(GeminiService.PngDataUrl(editedBase64));
        case Rejected(e) =>
          error := Some(ErrorText(e));
      }
      // finally
      isLoading := false;
    }

    /** `handleSubmit` run to completion: the file's data URL (`None` when reading failed) is
        stripped to base64, sent with the prompt and the file's own MIME type, and the first
        inline image of the reply is shown as PNG; a read failure shows the unknown-error text
        and any failure of the edit call shows the edit failure message. */
    method HandleSubmit(dataUrl: Option<string>, generateContent: Request -> Outcome<Response>)
      requires Valid() && !isLoading
      requires dataUrl.Some? ==> ',' in dataUrl.value
      modifies this
      ensures Valid() && !isLoading
      ensures originalImage == old(originalImage) && prompt == old(prompt)
      ensures !old(GenerateEnabled()) || old(originalImage).None? ==>
        error == Some(MissingInput) && editedImage == old(editedImage)
      ensures old(GenerateEnabled()) && old(originalImage).Some? && dataUrl.None? ==>
        editedImage.None? && error == Some(UnknownErrorMessage)
      ensures old(GenerateEnabled()) && old(originalImage).Some? && dataUrl.Some? ==>
        var request := GeminiService.EditImageRequest(
          old(prompt), GeminiService.FileToBase64(dataUrl).value, old(originalImage).value.file.mimeType);
        var result := GeminiService.ImageResult(generateContent(request), GeminiService.EditImageFailed);
        && (result.Resolved? ==> editedImage == Some(GeminiService.PngDataUrl(result.value)) && error.None?)
        && (result.Rejected? ==> editedImage.None? && error == Some(GeminiService.EditImageFailed))
    {
      var call := BeginSubmit();
      if call.Some? {
        var outcome: Outcome<string>;
        var base64 := GeminiService.FileToBase64(dataUrl);
        if base64.Rejected? {
          outcome := Rejected(base64.error);
        } else {
          outcome := GeminiService.EditImage(call.value.prompt, base64.value, call.value.file.mimeType, generateContent);
        }
        Complete(outcome);
      }
    }

    /** The Start Over button (disabled while loading): the image, the edited image and the
        prompt are cleared; the error stays. */
    method StartOver()
      requires Valid() && !isLoading
      modifies this
      ensures Valid()
      ensures originalImage.None? && editedImage.None? && prompt == []
      ensures error == old(error) && !isLoading
    {
      originalImage := None;
      editedImage := None;
      prompt := [];
    }
  }

  /** Whatever data an edit returns, the URL shown is a PNG data URL. */
  lemma EditedImageIsPng(editedBase64: string)
    ensures IsPngDataUrl(GeminiService.PngDataUrl(editedBase64))
  {
  }

  /** Stripping the header of the URL shown gives the returned data back, for data without a
      comma, as base64 always is. */
  lemma EditedImageRoundTrip(editedBase64: string)
    requires ',' !in editedBase64
    ensures GeminiService.StripDataUrlPrefix(GeminiService.PngDataUrl(editedBase64)) == Some(editedBase64)
  {
    GeminiService.DataUrlRoundTrip(GeminiService.PngMimeType, editedBase64);
  }
}
