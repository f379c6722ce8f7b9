/** The shapes of requests and responses exchanged with the generative-AI SDK's
    `generateContent` call, limited to the fields the application builds or reads. */
module GenAI {
  import opened Platform

  datatype Modality = TEXT | IMAGE

  /** Base64 bytes with their MIME type. */
  datatype InlineData = InlineData(data: string, mimeType: string)

  /** A content part: text, inline binary data, or (in a response) either or none. */
  datatype Part = Part(text: Option<string>, inlineData: Option<InlineData>)

  datatype Content = Content(parts: Option<seq<Part>>)

  /** A web page or a maps place that a chat answer cites. */
  datatype Reference = Reference(uri: string, title: string)

  datatype GroundingChunk = GroundingChunk(web: Option<Reference>, maps: Option<Reference>)

  datatype GroundingMetadata = GroundingMetadata(groundingChunks: Option<seq<GroundingChunk>>)

  datatype Candidate = Candidate(content: Option<Content>, groundingMetadata: Option<GroundingMetadata>)

  /** A reply: its candidates, when present, and the text the SDK assembles from them. */
  datatype Response = Response(candidates: Option<seq<Candidate>>, text: string)

  /** Retrieval tools a chat request may attach. */
  datatype Tool = GoogleSearch | GoogleMaps

  datatype LatLng = LatLng(latitude: real, longitude: real)

  datatype RetrievalConfig = RetrievalConfig(latLng: LatLng)

  datatype ToolConfig = ToolConfig(retrievalConfig: RetrievalConfig)

  /** The `config` of a request: an image request declares its output modalities,
      a chat request lists its tools and, optionally, a tool configuration. */
  datatype Config =
    | ImageOutput(responseModalities: seq<Modality>)
    | ChatConfig(tools: seq<Tool>, toolConfig: Option<ToolConfig>)

  /** The `contents` of a request: a bare prompt string, or a list of parts. */
  datatype Contents = PromptText(text: string) | Parts(parts: seq<Part>)

  datatype Request = Request(model: string, contents: Contents, config: Option<Config>)
}
