/** The service layer between the panels and the SDK: it reads a picked file's data URL,
    builds the request for each task (chat, create, edit, analyze), makes the one SDK call
    (`generateContent`, a parameter here), extracts the useful payload from the reply and
    replaces every failure by one fixed message per task. */
module GeminiService {
  import opened Platform
  import opened Text
  import opened GenAI

  const ImageModel := "gemini-2.5-flash-image"
  const TextModel := "gemini-2.5-flash"

  const CreateImageFailed := "Failed to create image. Please check the console for details."
  const EditImageFailed := "Failed to edit image. Please check the console for details."
  const AnalyzeImageFailed := "Failed to analyze image. Please check the console for details."
  const ChatFailed := "Failed to get response from chatbot. Please check the console for details."

  /** Prompt fragments that make a chat request location-aware. */
  const LocationKeywords: seq<string> := ["nearby", "restaurants", "directions", "map", "located", "where is"]

  // ---------------------------------------------------------------------------
  // fileToBase64: the data URL a FileReader produces, stripped of its header
  // ---------------------------------------------------------------------------

  /** The data URL `readAsDataURL` produces for a file of the given MIME type. */
  function DataUrl(mimeType: string, payload: string): string
  {
    "data:" + mimeType + ";base64," + payload
  }

  /** The image panels show every generated or edited image as PNG, whatever the type of
      the picked file. */
  const PngMimeType := "image/png"

  /** `data:image/png;base64,${data}`, the URL an image panel shows returned data under. */
  function PngDataUrl(data: string): string
  {
    DataUrl(PngMimeType, data)
  }

  /** `result.split(',')[1]`: the piece after the first comma, up to any second one;
      `None` stands for the `undefined` a comma-free string gives. */
  function StripDataUrlPrefix(dataUrl: string): (payload: Option<string>)
    ensures payload.None? <==> ',' !in dataUrl
    ensures payload.Some? ==> ',' !in payload.value
  {
    var pieces := Split(dataUrl, ',');
    SplitManyIffSeparator(dataUrl, ',');
    SplitJoin(dataUrl, ',');
    if |pieces| > 1 then Some(pieces[1]) else None
  }

  /** The stripped result is exactly the text between the first comma and the next comma
      (or the end); there is a result exactly when the string holds a comma. */
  lemma StripDataUrlPrefixSpec(dataUrl: string)
    ensures StripDataUrlPrefix(dataUrl).None? <==> ',' !in dataUrl
    ensures StripDataUrlPrefix(dataUrl).Some? ==>
      var payload := StripDataUrlPrefix(dataUrl).value;
      && ',' !in payload
      && exists i ::
           && 0 <= i < |dataUrl| && dataUrl[i] == ',' && ',' !in dataUrl[..i]
           && OccursAt(dataUrl, payload, i + 1)
           && (i + 1 + |payload| == |dataUrl| || dataUrl[i + 1 + |payload|] == ',')
  {
    var pieces := Split(dataUrl, ',');
    SplitManyIffSeparator(dataUrl, ',');
    SplitJoin(dataUrl, ',');
    if |pieces| > 1 {
      var i := |pieces[0]|;
      var tail := Join(pieces[1..], ',');
      assert dataUrl == pieces[0] + [','] + tail;
      assert pieces[1..][0] == pieces[1];
      if |pieces| > 2 {
        assert tail == pieces[1] + [','] + Join(pieces[2..], ',') by {
          assert pieces[1..][1..] == pieces[2..];
        }
        assert dataUrl == pieces[0] + [','] + pieces[1] + [','] + Join(pieces[2..], ',');
        assert dataUrl[i + 1 + |pieces[1]|] == ',';
      } else {
        assert dataUrl == pieces[0] + [','] + pieces[1];
      }
      assert dataUrl[..i] == pieces[0];
      assert dataUrl[i + 1..i + 1 + |pieces[1]|] == pieces[1];
      assert OccursAt(dataUrl, pieces[1], i + 1);
    }
  }

  /** Stripping the data URL of base64 content gives the content back: the header
      (`data:<mime>;base64,`) is never part of the result. */
  lemma DataUrlRoundTrip(mimeType: string, payload: string)
    requires ',' !in mimeType && ',' !in payload
    ensures StripDataUrlPrefix(DataUrl(mimeType, payload)) == Some(payload)
  {
    var header := "data:" + mimeType + ";base64";
    assert DataUrl(mimeType, payload) == header + [','] + payload;
    assert ',' !in header;
    SplitAfterHead(header, ',', payload);
    SplitWithoutSeparator(payload, ',');
  }

  /** `fileToBase64(file)`, given what the FileReader produced: its data URL, or `None` when
      reading failed, in which case the promise rejects with the reader's error event, which is
      not an `Error`. The data URL of a non-empty file holds the comma that ends its
      `data:<mime>;base64,` header; a comma-free reader result is not modelled here. */
  function FileToBase64(dataUrl: Option<string>): (base64: Outcome<string>)
    requires dataUrl.Some? ==> ',' in dataUrl.value
    ensures dataUrl.None? ==> base64 == Rejected(NonError)
    ensures dataUrl.Some? ==> base64.Resolved? && ',' !in base64.value
                              && StripDataUrlPrefix(dataUrl.value) == Some(base64.value)
  {
    match dataUrl
    case None => Rejected(NonError)
    case Some(url) =>
      StripDataUrlPrefixSpec(url);
      Resolved(StripDataUrlPrefix(url).value)
  }

  // ---------------------------------------------------------------------------
  // Request shapes
  // ---------------------------------------------------------------------------

  function TextPart(text: string): Part
  {
    Part(Some(text), None)
  }

  function ImagePart(data: string, mimeType: string): Part
  {
    Part(None, Some(InlineData(data, mimeType)))
  }

  /** What `createImage` sends: the prompt alone, asking for an image back. */
  function CreateImageRequest(prompt: string): Request
  {
    Request(ImageModel, Parts([TextPart(prompt)]), Some(ImageOutput([IMAGE])))
  }

  /** What `editImage` sends: the image, then the prompt, asking for an image back. */
  function EditImageRequest(prompt: string, imageBase64: string, mimeType: string): Request
  {
    Request(ImageModel, Parts([ImagePart(imageBase64, mimeType), TextPart(prompt)]), Some(ImageOutput([IMAGE])))
  }

  /** What `analyzeImage` sends: the image, then the prompt, with no config. */
  function AnalyzeImageRequest(prompt: string, imageBase64: string, mimeType: string): Request
  {
    Request(TextModel, Parts([ImagePart(imageBase64, mimeType), TextPart(prompt)]), None)
  }

  /** Edit and analyze send the same parts (image first, prompt second); create sends only
      the prompt part; create and edit ask for the image modality; analyze sends no config. */
  lemma RequestShapes(prompt: string, imageBase64: string, mimeType: string)
    ensures EditImageRequest(prompt, imageBase64, mimeType).contents
         == AnalyzeImageRequest(prompt, imageBase64, mimeType).contents
         == Parts([Part(None, Some(InlineData(imageBase64, mimeType))), Part(Some(prompt), None)])
    ensures CreateImageRequest(prompt).contents == Parts([Part(Some(prompt), None)])
    ensures CreateImageRequest(prompt).config == EditImageRequest(prompt, imageBase64, mimeType).config
         == Some(ImageOutput([IMAGE]))
    ensures AnalyzeImageRequest(prompt, imageBase64, mimeType).config == None
  {
  }

  // ---------------------------------------------------------------------------
  // Reading a response
  // ---------------------------------------------------------------------------

  /** `response.candidates?.[0]`. */
  function FirstCandidate(response: Response): Option<Candidate>
  {
    match response.candidates
    case Some(cs) => if |cs| > 0 then Some(cs[0]) else None
    case None => None
  }

  /** `response.candidates[0].content.parts`; `None` wherever that read throws a TypeError
      (no candidate, no content, or no parts to iterate over). */
  function FirstCandidateParts(response: Response): (parts: Option<seq<Part>>)
    ensures parts.Some? ==>
      && FirstCandidate(response).Some?
      && FirstCandidate(response).value.content == Some(Content(parts))
    ensures FirstCandidate(response).Some? && FirstCandidate(response).value.content.Some? ==>
      parts == FirstCandidate(response).value.content.value.parts
  {
    match FirstCandidate(response)
    case Some(Candidate(Some(content), _)) => content.parts
    case _ => None
  }

  /** `response.candidates?.[0]?.groundingMetadata?.groundingChunks || []`. */
  function GroundingSources(response: Response): (sources: seq<GroundingChunk>)
    ensures FirstCandidate(response).None? ==> sources == []
    ensures sources != [] ==>
      && FirstCandidate(response).Some?
      && FirstCandidate(response).value.groundingMetadata == Some(GroundingMetadata(Some(sources)))
    ensures && FirstCandidate(response).Some?
            && FirstCandidate(response).value.groundingMetadata.Some?
            && FirstCandidate(response).value.groundingMetadata.value.groundingChunks.Some?
            ==> sources == FirstCandidate(response).value.groundingMetadata.value.groundingChunks.value
  {
    match FirstCandidate(response)
    case Some(Candidate(_, Some(GroundingMetadata(Some(chunks))))) => chunks
    case _ => []
  }

  /** Part `i` is the first part that carries inline data. */
  predicate IsFirstWithInlineData(parts: seq<Part>, i: int)
  {
    && 0 <= i < |parts|
    && parts[i].inlineData.Some?
    && forall j :: 0 <= j < i ==> parts[j].inlineData.None?
  }

  /** The data of the first part, in order, that carries inline data. */
  function FirstInlineData(parts: seq<Part>): Option<string>
  {
    if parts == [] then None
    else if parts[0].inlineData.Some? then Some(parts[0].inlineData.value.data)
    else FirstInlineData(parts[1..])
  }

  /** There is no inline data exactly when no part carries it; otherwise it is the data
      of the first part that does, wherever that part stands. */
  lemma {:induction false} FirstInlineDataIsFirst(parts: seq<Part>)
    ensures FirstInlineData(parts).None? <==> forall i :: 0 <= i < |parts| ==> parts[i].inlineData.None?
    ensures forall i :: IsFirstWithInlineData(parts, i) ==>
              FirstInlineData(parts) == Some(parts[i].inlineData.value.data)
  {
    if parts != [] && parts[0].inlineData.None? {
      FirstInlineDataIsFirst(parts[1..]);
      forall i | IsFirstWithInlineData(parts, i)
        ensures FirstInlineData(parts) == Some(parts[i].inlineData.value.data)
      {
        assert i > 0;
        assert IsFirstWithInlineData(parts[1..], i - 1);
      }
      if FirstInlineData(parts).Some? {
        var i :| 0 <= i < |parts[1..]| && parts[1..][i].inlineData.Some?;
        assert parts[i + 1].inlineData.Some?;
      }
    }
  }

  /** The `for (const part of ...parts)` loop of `createImage`/`editImage`, with its early return. */
  method ScanForInlineData(parts: seq<Part>) returns (data: Option<string>)
    ensures data == FirstInlineData(parts)
  {
    for k := 0 to |parts|
      invariant FirstInlineData(parts[k..]) == FirstInlineData(parts)
    {
      if parts[k].inlineData.Some? {
        return Some(parts[k].inlineData.value.data);
      }
      assert parts[k..][1..] == parts[k + 1..];
    }
    return None;
  }

  /** What an image task yields for a reply: the first inline data of the first candidate,
      and otherwise the task's fixed failure message. */
  function ImageResult(reply: Outcome<Response>, failure: string): Outcome<string>
  {
    match reply
    case Rejected(_) => Rejected(ErrorInstance(failure))
    case Resolved(response) =>
      match FirstCandidateParts(response)
      case None => Rejected(ErrorInstance(failure))
      case Some(parts) =>
        match FirstInlineData(parts)
        case Some(data) => Resolved(data)
        case None => Rejected(ErrorInstance(failure))
  }

  /** The parts of the first candidate of a reply that resolved. */
  function ReplyParts(reply: Outcome<Response>): Option<seq<Part>>
  {
    if reply.Resolved? then FirstCandidateParts(reply.value) else None
  }

  /** An image task succeeds exactly when the reply has a first candidate with some inline
      part, and then yields the data of the first such part; every failure, the missing image
      included, carries the task's own message and nothing else. */
  lemma ImageResultSpec(reply: Outcome<Response>, failure: string)
    ensures var result := ImageResult(reply, failure);
      && (result.Rejected? ==> result.error == ErrorInstance(failure))
      && (result.Resolved? <==>
           && ReplyParts(reply).Some?
           && exists i :: 0 <= i < |ReplyParts(reply).value| && ReplyParts(reply).value[i].inlineData.Some?)
      && (forall i :: ReplyParts(reply).Some? && IsFirstWithInlineData(ReplyParts(reply).value, i) ==>
            result == Resolved(ReplyParts(reply).value[i].inlineData.value.data))
  {
    if ReplyParts(reply).Some? {
      FirstInlineDataIsFirst(ReplyParts(reply).value);
    }
  }

  /** The shared body of `createImage` and `editImage`: one call, a scan of the first
      candidate's parts, and a catch that replaces whatever was thrown (the SDK's error, a
      TypeError on a missing candidate, or "No image was generated.") by `failure`. */
  method GenerateImage(request: Request, failure: string, generateContent: Request -> Outcome<Response>)
    returns (result: Outcome<string>)
    ensures result == ImageResult(generateContent(request), failure)
  {
    var reply := generateContent(request);
    if reply.Resolved? {
      var parts := FirstCandidateParts(reply.value);
      if parts.Some? {
        var data := ScanForInlineData(parts.value);
        if data.Some? {
          return Resolved(data.value);
        }
        // "No image was generated." is thrown here, inside the try, and caught below.
      }
    }
    // catch (error): logged, then re-thrown as the task's fixed message
    result := Rejected(ErrorInstance(failure));
  }

  /** `createImage(prompt)`. */
  method CreateImage(prompt: string, generateContent: Request -> Outcome<Response>)
    returns (result: Outcome<string>)
    ensures result == ImageResult(generateContent(CreateImageRequest(prompt)), CreateImageFailed)
  {
    result := GenerateImage(CreateImageRequest(prompt), CreateImageFailed, generateContent);
  }

  /** `editImage(prompt, imageBase64, mimeType)`. */
  method EditImage(prompt: string, imageBase64: string, mimeType: string,
                   generateContent: Request -> Outcome<Response>)
    returns (result: Outcome<string>)
    ensures result == ImageResult(generateContent(EditImageRequest(prompt, imageBase64, mimeType)), EditImageFailed)
  {
    result := GenerateImage(EditImageRequest(prompt, imageBase64, mimeType), EditImageFailed, generateContent);
  }

  /** `analyzeImage(prompt, imageBase64, mimeType)`: the reply's text verbatim, or the fixed
      failure message whatever went wrong. */
  function AnalyzeImage(prompt: string, imageBase64: string, mimeType: string,
                        generateContent: Request -> Outcome<Response>): (result: Outcome<string>)
    ensures var reply := generateContent(AnalyzeImageRequest(prompt, imageBase64, mimeType));
      && (result.Resolved? <==> reply.Resolved?)
      && (result.Resolved? ==> result.value == reply.value.text)
      && (result.Rejected? ==> result.error == ErrorInstance(AnalyzeImageFailed))
  {
    match generateContent(AnalyzeImageRequest(prompt, imageBase64, mimeType))
    case Resolved(response) => Resolved(response.text)
    case Rejected(_) => Rejected(ErrorInstance(AnalyzeImageFailed))
  }

  // ---------------------------------------------------------------------------
  // Chat: tool selection and the call
  // ---------------------------------------------------------------------------

  /** `locationKeywords.some(keyword => prompt.toLowerCase().includes(keyword))`. */
  function IsLocationQuery(prompt: string): bool
  {
    exists k | k in LocationKeywords :: Includes(LowerCase(prompt), k)
  }

  /** The chat `config` for a prompt and the location known when it is sent. */
  function ChatConfigFor(prompt: string, location: Option<Coordinates>): Config
  {
    if IsLocationQuery(prompt) && location.Some? then
      ChatConfig([GoogleSearch, GoogleMaps],
                 Some(ToolConfig(RetrievalConfig(LatLng(location.value.latitude, location.value.longitude)))))
    else
      ChatConfig([GoogleSearch], None)
  }

  /** Google Search is always the first tool. Google Maps is added, together with a
      retrieval config, exactly when the lower-cased prompt contains a location keyword
      and a location is known, and the config then carries that location's coordinates
      unchanged; otherwise Google Search is the only tool and there is no tool config. */
  lemma ChatToolSelection(prompt: string, location: Option<Coordinates>)
    ensures var config := ChatConfigFor(prompt, location);
      && config.ChatConfig? && |config.tools| >= 1 && config.tools[0] == GoogleSearch
      && (GoogleMaps in config.tools <==>
            && location.Some?
            && exists k, i :: k in LocationKeywords && OccursAt(LowerCase(prompt), k, i))
      && (config.toolConfig.Some? <==> GoogleMaps in config.tools)
      && (GoogleMaps in config.tools ==> config.tools == [GoogleSearch, GoogleMaps])
      && (GoogleMaps !in config.tools ==> config.tools == [GoogleSearch])
      && (config.toolConfig.Some? ==>
            config.toolConfig.value.retrievalConfig.latLng
              == LatLng(location.value.latitude, location.value.longitude))
  {
    forall k | k in LocationKeywords {
      IncludesIffOccurs(LowerCase(prompt), k);
    }
  }

  /** The config-building statements of `generateChatResponse`: start with Google Search,
      then push Google Maps and set the tool config when the prompt asks about a place
      and a location is known. */
  method BuildChatConfig(prompt: string, location: Option<Coordinates>) returns (config: Config)
    ensures config == ChatConfigFor(prompt, location)
  {
    var isLocationQuery := IsLocationQuery(prompt);
    var tools := [GoogleSearch];
    var toolConfig: Option<ToolConfig> := None;
    if isLocationQuery && location.Some? {
      tools := tools + [GoogleMaps];
      toolConfig := Some(ToolConfig(RetrievalConfig(LatLng(location.value.latitude, location.value.longitude))));
    }
    config := ChatConfig(tools, toolConfig);
  }

  /** The request `generateChatResponse` sends. */
  function ChatRequest(prompt: string, location: Option<Coordinates>): Request
  {
    Request(TextModel, PromptText(prompt), Some(ChatConfigFor(prompt, location)))
  }

  /** What `generateChatResponse` resolves to. */
  datatype ChatReply = ChatReply(text: string, sources: seq<GroundingChunk>)

  /** `generateChatResponse(prompt, location)`: the reply's text with its first candidate's
      grounding chunks (an empty list when there are none), or the fixed failure message. */
  method GenerateChatResponse(prompt: string, location: Option<Coordinates>,
                              generateContent: Request -> Outcome<Response>)
    returns (result: Outcome<ChatReply>)
    ensures var reply := generateContent(ChatRequest(prompt, location));
      && (result.Resolved? <==> reply.Resolved?)
      && (result.Resolved? ==> result.value == ChatReply(reply.value.text, GroundingSources(reply.value)))
      && (result.Rejected? ==> result.error == ErrorInstance(ChatFailed))
  {
    var config := BuildChatConfig(prompt, location);
    var reply := generateContent(Request(TextModel, PromptText(prompt), Some(config)));
    match reply
    case Resolved(response) =>
      result := Resolved(ChatReply(response.text, GroundingSources(response)));
    case Rejected(_) =>
      result := Rejected(ErrorInstance(ChatFailed));
  }

  // ---------------------------------------------------------------------------
  // Worked cases
  // ---------------------------------------------------------------------------

  /** A question with no location gets web search only; "find restaurants nearby" with a
      known location gets maps too, with exactly that location's coordinates. */
  lemma ChatScenarios()
    ensures ChatConfigFor("What's the weather today?", None) == ChatConfig([GoogleSearch], None)
    ensures ChatConfigFor("find restaurants nearby", Some(Coordinates(40.0, -74.0)))
         == ChatConfig([GoogleSearch, GoogleMaps], Some(ToolConfig(RetrievalConfig(LatLng(40.0, -74.0)))))
  {
    var lower := LowerCase("find restaurants nearby");
    assert lower == "find restaurants nearby";
    assert OccursAt(lower, "nearby", 17);
    IncludesIffOccurs(lower, "nearby");
    assert "nearby" in LocationKeywords;
  }

  /** A create reply whose first part is text and whose second part is an image yields the
      second part's data; an edit reply with no inline part fails with the edit message. */
  lemma ImageScenarios(data: string, mimeType: string, caption: string)
    ensures ImageResult(Resolved(Response(Some([Candidate(Some(Content(Some(
              [Part(Some(caption), None), Part(None, Some(InlineData(data, mimeType)))]))), None)]), caption)),
            CreateImageFailed) == Resolved(data)
    ensures ImageResult(Resolved(Response(Some([Candidate(Some(Content(Some(
              [Part(Some(caption), None)]))), None)]), caption)),
            EditImageFailed) == Rejected(ErrorInstance(EditImageFailed))
  {
    var parts := [Part(Some(caption), None), Part(None, Some(InlineData(data, mimeType)))];
    assert FirstInlineData(parts) == FirstInlineData(parts[1..]);
    var textOnly := [Part(Some(caption), None)];
    assert FirstInlineData(textOnly) == FirstInlineData(textOnly[1..]);
  }
}
