/** The image-analysis panel: a picked image, a question about it (with a default), the
    analysis text, a loading flag and an error; and the rendering of the analysis, whose
    newlines become HTML line breaks. */
module ImageAnalyzer {
  import opened Platform
  import opened GenAI
  import GeminiService

  const DefaultPrompt := "Describe this image in detail."
  const MissingInput := "Please upload an image and provide a prompt."

  /** What replaces each newline when the analysis is rendered. */
  const LineBreak := "<br />"

  // ---------------------------------------------------------------------------
  // Rendering
  // ---------------------------------------------------------------------------

  /** `analysis.replace(/\n/g, '<br />')`: the rendering holds no newline, every other
      character survives (a text without newlines renders as itself), and only the empty
      text renders as nothing. */
  function NewlinesToBreaks(s: string): (html: string)
    ensures '\n' !in html
    ensures '\n' !in s ==> html == s
    ensures html == [] <==> s == []
  {
    if s == [] then []
    else
      assert s == [s[0]] + s[1..];
      (if s[0] == '\n' then LineBreak else [s[0]]) + NewlinesToBreaks(s[1..])
  }

  /** Reading the rendered text back: each `<br />` becomes a newline again. */
  function BreaksToNewlines(html: string): string
    decreases |html|
  {
    if html == [] then []
    else if |LineBreak| <= |html| && html[..|LineBreak|] == LineBreak then
      "\n" + BreaksToNewlines(html[|LineBreak|..])
    else [html[0]] + BreaksToNewlines(html[1..])
  }

  /** Rendering loses nothing: for an analysis that holds no `<` of its own (so no `<br />`
      that could be confused with a rendered newline), reading the rendering back gives the
      analysis. */
  lemma {:induction false} RenderingRoundTrip(s: string)
    requires '<' !in s
    ensures BreaksToNewlines(NewlinesToBreaks(s)) == s
  {
    if s != [] {
      RenderingRoundTrip(s[1..]);
      var rest := NewlinesToBreaks(s[1..]);
      if s[0] == '\n' {
        var html := LineBreak + rest;
        assert html[..|LineBreak|] == LineBreak;
        assert html[|LineBreak|..] == rest;
      } else {
        var html := [s[0]] + rest;
        assert html[0] == s[0] && html[0] != '<';
        assert html[1..] == rest;
      }
      assert s == [s[0]] + s[1..];
    }
  }

  /** The analysis block: nothing while the analysis is empty (it is falsy), else its rendering. */
  function AnalysisBlock(analysis: string): (block: Option<string>)
    ensures block.None? <==> analysis == []
    ensures block.Some? ==> '\n' !in block.value
  {
    if analysis == [] then None else Some(NewlinesToBreaks(analysis))
  }

  // ---------------------------------------------------------------------------
  // The panel
  // ---------------------------------------------------------------------------

  /** The arguments `handleSubmit` passes on: the prompt and the picked file. */
  datatype AnalyzeCall = AnalyzeCall(prompt: string, file: File)

  class AnalyzerPanel {
    var image: Option<SelectedImage>
    var prompt: string
    var analysis: string
    var isLoading: bool
    var error: Option<string>

    ghost predicate Valid()
      reads this
    {
      isLoading ==> image.Some? && prompt != [] && error.None? && analysis == []
    }

    constructor ()
      ensures Valid()
      ensures image.None? && prompt == DefaultPrompt && analysis == [] && !isLoading && error.None?
    {
      image := None;
      prompt := DefaultPrompt;
      analysis := [];
      isLoading := false;
      error := None;
    }

    /** The Analyze button is enabled: nothing is loading and the prompt is not empty. */
    predicate AnalyzeEnabled()
      reads this
    {
      !isLoading && prompt != []
    }

    /** `handleFileSelect`: the picked file becomes the image; the analysis and any error are cleared. */
    method SelectFile(file: File, url: string)
      requires Valid()
      modifies this
      ensures Valid()
      ensures image == Some(SelectedImage(file, url)) && analysis == [] && error.None?
      ensures prompt == old(prompt) && isLoading == old(isLoading)
    {
      image := Some(SelectedImage(file, url));
      analysis := [];
      error := None;
    }

    /** Typing in the prompt (disabled while loading). */
    method SetPrompt(text: string)
      requires Valid() && !isLoading
      modifies this
      ensures Valid()
      ensures prompt == text
      ensures image == old(image) && analysis == old(analysis) && !isLoading && error == old(error)
    {
      prompt := text;
    }

    /** The synchronous start of `handleSubmit` (the button is disabled while loading).
        With no image or an empty prompt only the error changes, to the validation message,
        and no call is made; otherwise loading starts, the error and the analysis are cleared,
        and the call to make is returned. */
    method BeginSubmit() returns (call: Option<AnalyzeCall>)
      requires Valid() && !isLoading
      modifies this
      ensures Valid()
      ensures image == old(image) && prompt == old(prompt)
      ensures call.Some? <==> old(AnalyzeEnabled()) && old(image).Some?
      ensures call.None? ==> error == Some(MissingInput) && !isLoading && analysis == old(analysis)
      ensures call.Some? ==>
        && call.value == AnalyzeCall(prompt, image.value.file)
        && isLoading && error.None? && analysis == []
    {
      if image.None? || prompt == [] {
        error := Some(MissingInput);
        return None;
      }
      isLoading := true;
      error := None;
      analysis := [];
      call := Some(AnalyzeCall(prompt, image.value.file));
    }

    /** The end of `handleSubmit`: the returned text becomes the analysis verbatim, or the
        error shows the exception's message; either way loading ends. */
    method Complete(outcome: Outcome<string>)
      requires Valid() && isLoading
      modifies this
      ensures Valid()
      ensures !isLoading && image == old(image) && prompt == old(prompt)
      ensures outcome.Resolved? ==> analysis == outcome.value && error.None?
      ensures outcome.Rejected? ==> analysis == [] && error == Some(ErrorText(outcome.error))
    {
      match outcome {
        case Resolved(result) =>
          analysis := result;
        case Rejected(e) =>
          error := Some(ErrorText(e));
      }
      // finally
      isLoading := false;
    }

    /** `handleSubmit` run to completion: the file's data URL (`None` when reading failed) is
        stripped to base64 and sent with the prompt and the file's MIME type; the reply's text
        becomes the analysis, a read failure shows the unknown-error text and a failed call the
        analyze failure message. */
    method HandleSubmit(dataUrl: Option<string>, generateContent: Request -> Outcome<Response>)
      requires Valid() && !isLoading
      requires dataUrl.Some? ==> ',' in dataUrl.value
      modifies this
      ensures Valid() && !isLoading
      ensures image == old(image) && prompt == old(prompt)
      ensures !old(AnalyzeEnabled()) || old(image).None? ==>
        error == Some(MissingInput) && analysis == old(analysis)
      ensures old(AnalyzeEnabled()) && old(image).Some? && dataUrl.None? ==>
        analysis == [] && error == Some(UnknownErrorMessage)
      ensures old(AnalyzeEnabled()) && old(image).Some? && dataUrl.Some? ==>
        var request := GeminiService.AnalyzeImageRequest(
          old(prompt), GeminiService.FileToBase64(dataUrl).value, old(image).value.file.mimeType);
        var reply := generateContent(request);
        && (reply.Resolved? ==> analysis == reply.value.text && error.None?)
        && (reply.Rejected? ==> analysis == [] && error == Some(GeminiService.AnalyzeImageFailed))
    {
      var call := BeginSubmit();
      if call.Some? {
        var outcome: Outcome<string>;
        var base64 := GeminiService.FileToBase64(dataUrl);
        if base64.Rejected? {
          outcome := Rejected(base64.error);
        } else {
          outcome := GeminiService.AnalyzeImage(call.value.prompt, base64.value, call.value.file.mimeType, generateContent);
        }
        Complete(outcome);
      }
    }

    /** The Change Image button (disabled while loading): the image is dropped, the analysis
        cleared and the prompt reset to its default; the error stays. */
    method ChangeImage()
      requires Valid() && !isLoading
      modifies this
      ensures Valid()
      ensures image.None? && analysis == [] && prompt == DefaultPrompt
      ensures error == old(error) && !isLoading
    {
      image := None;
      analysis := [];
      prompt := DefaultPrompt;
    }
  }
}
