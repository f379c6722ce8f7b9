/** The chat panel: a conversation log, an input line, a loading flag and an error,
    changed by `handleSend`; plus the two display choices the panel makes
    (how a cited source renders, and the location status line). */
module Chatbot {
  import opened Platform
  import opened Text
  import opened GenAI
  import opened Types
  import UseGeolocation
  import GeminiService

  // ---------------------------------------------------------------------------
  // Display choices
  // ---------------------------------------------------------------------------

  datatype LinkKind = WebLink | MapsLink

  /** The link a cited source renders as. */
  datatype SourceLink = SourceLink(kind: LinkKind, uri: string, title: string)

  /** `renderSource`: a web link when the chunk has a web reference, else a maps link
      when it has a maps reference, else nothing. */
  function RenderSource(source: GroundingChunk): (link: Option<SourceLink>)
    ensures link.Some? <==> source.web.Some? || source.maps.Some?
    ensures source.web.Some? ==> link.Some? && link.value.kind == WebLink
    ensures link.Some? ==>
      var shown := Reference(link.value.uri, link.value.title);
      if link.value.kind == WebLink then source.web == Some(shown) else source.maps == Some(shown)
  {
    if source.web.Some? then Some(SourceLink(WebLink, source.web.value.uri, source.web.value.title))
    else if source.maps.Some? then Some(SourceLink(MapsLink, source.maps.value.uri, source.maps.value.title))
    else None
  }

  const LocationEnabled := "Location services enabled."
  const LocationErrorPrefix := "Location Error: "
  const LocationLoading := "Loading location..."

  /** The status line under the input: a known location wins, then a non-empty error
      (an empty string is falsy), and otherwise the location is still loading. */
  function StatusLine(location: Option<Coordinates>, locationError: Option<string>): (line: string)
    ensures line == LocationEnabled <==> location.Some?
    ensures line == LocationLoading <==> location.None? && (locationError.None? || locationError.value == "")
    ensures line != LocationEnabled && line != LocationLoading ==> line == LocationErrorPrefix + locationError.value
  {
    if location.Some? then LocationEnabled
    else if locationError.Some? && locationError.value != "" then
      var line := LocationErrorPrefix + locationError.value;
      assert line[2] != LocationLoading[2] && line[9] != LocationEnabled[9];
      line
    else LocationLoading
  }

  /** Over the states the geolocation hook can be in, the status line tells the three apart:
      it reads "Loading location..." exactly while loading, "Location services enabled."
      exactly when a location is known, and shows the error after its prefix otherwise. */
  lemma StatusLineFollowsGeolocation(s: UseGeolocation.GeolocationState)
    requires UseGeolocation.Consistent(s)
    ensures StatusLine(s.location, s.error) == LocationLoading <==> s.loading
    ensures StatusLine(s.location, s.error) == LocationEnabled <==> s.location.Some?
    ensures s.error.Some? ==> StatusLine(s.location, s.error) == LocationErrorPrefix + s.error.value
  {
  }

  // ---------------------------------------------------------------------------
  // The panel
  // ---------------------------------------------------------------------------

  /** The arguments `handleSend` passes to `generateChatResponse`. */
  datatype ChatCall = ChatCall(prompt: string, location: Option<Coordinates>)

  /** The shape of every conversation the panel builds: user turns carry a non-blank text and
      no sources; model turns carry sources and directly follow a user turn. */
  predicate Conversation(messages: seq<ChatMessage>)
  {
    && (forall i :: 0 <= i < |messages| && messages[i].role == User ==>
          messages[i].sources.None? && !Blank(messages[i].text))
    && (forall i :: 0 <= i < |messages| && messages[i].role == Model ==>
          messages[i].sources.Some? && 0 < i && messages[i - 1].role == User)
  }

  class ChatPanel {
    const geolocation: UseGeolocation.GeolocationHook
    var messages: seq<ChatMessage>
    var input: string
    var isLoading: bool
    var error: Option<string>

    ghost predicate Valid()
      reads this, geolocation
    {
      && geolocation.Valid()
      && Conversation(messages)
      && (isLoading ==> input == [] && error.None? && messages != [] && messages[|messages| - 1].role == User)
    }

    constructor ()
      ensures Valid() && fresh(geolocation)
      ensures messages == [] && input == [] && !isLoading && error.None?
      ensures geolocation.state == UseGeolocation.Initial && !geolocation.mounted
    {
      geolocation := new UseGeolocation.GeolocationHook();
      messages := [];
      input := [];
      isLoading := false;
      error := None;
    }

    /** Typing in the input (disabled while a reply is awaited). */
    method SetInput(text: string)
      requires Valid() && !isLoading
      modifies this
      ensures Valid()
      ensures input == text && messages == old(messages) && !isLoading && error == old(error)
    {
      input := text;
    }

    /** The synchronous start of `handleSend`, which Enter and the send button trigger only
      while no reply is awaited. Blank input (nothing left after `trim`) changes nothing; other
      input is appended, untrimmed, as a user turn, the input is cleared, loading starts and the
      error is cleared. The call to make is returned. */
    method BeginSend() returns (call: Option<ChatCall>)
      requires Valid() && !isLoading
      modifies this
      ensures Valid()
      ensures Blank(old(input)) ==> call.None? && unchanged(this)
      ensures !Blank(old(input)) ==>
        && call == Some(ChatCall(old(input), geolocation.state.location))
        && messages == old(messages) + [ChatMessage(User, old(input), None)]
        && input == [] && isLoading && error.None?
    {
      TrimEmptyIffBlank(input);
      if Trim(input) == [] {
        return None;
      }
      var prompt := input;
      messages := messages + [ChatMessage(User, prompt, None)];
      input := [];
      isLoading := true;
      error := None;
      call := Some(ChatCall(prompt, geolocation.state.location));
    }

    /** The end of `handleSend`, once the reply has settled: a model turn with the reply's
      text and sources is appended, or, on failure, no turn is added and the error shows the
      exception's message; either way loading ends. */
    method CompleteSend(outcome: Outcome<GeminiService.ChatReply>)
      requires Valid() && isLoading
      modifies this
      ensures Valid()
      ensures !isLoading && input == old(input)
      ensures outcome.Resolved? ==>
        && messages == old(messages) + [ChatMessage(Model, outcome.value.text, Some(outcome.value.sources))]
        && error.None?
      ensures outcome.Rejected? ==> messages == old(messages) && error == Some(ErrorText(outcome.error))
    {
      match outcome {
        case Resolved(reply) =>
          messages := messages + [ChatMessage(Model, reply.text, Some(reply.sources))];
        case Rejected(e) =>
          error := Some(ErrorText(e));
      }
      // finally
      isLoading := false;
    }

    /** `handleSend` run to completion against the SDK: messages are only ever appended, a
      successful send adds the user turn and then the model turn, and a failed one adds the
      user turn and shows the chat failure message. */
    method HandleSend(generateContent: Request -> Outcome<Response>)
      requires Valid() && !isLoading
      modifies this
      ensures Valid() && !isLoading
      ensures Blank(old(input)) ==> unchanged(this)
      ensures !Blank(old(input)) ==>
        var reply := generateContent(GeminiService.ChatRequest(old(input), geolocation.state.location));
        var question := ChatMessage(User, old(input), None);
        && input == []
        && (reply.Resolved? ==>
              && messages == old(messages)
                 + [question, ChatMessage(Model, reply.value.text, Some(GeminiService.GroundingSources(reply.value)))]
              && error.None?)
        && (reply.Rejected? ==> messages == old(messages) + [question] && error == Some(GeminiService.ChatFailed))
    {
      var call := BeginSend();
      if call.Some? {
        var outcome := GeminiService.GenerateChatResponse(call.value.prompt, call.value.location, generateContent);
        CompleteSend(outcome);
      }
    }
  }
}
