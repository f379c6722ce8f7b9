/** The one record the panels share: a turn of the chat conversation. */
module Types {
  import opened Platform
  import opened GenAI

  datatype Role = User | Model

  /** A chat turn; only model turns carry the sources their answer cites. */
  datatype ChatMessage = ChatMessage(role: Role, text: string, sources: Option<seq<GroundingChunk>>)
}
