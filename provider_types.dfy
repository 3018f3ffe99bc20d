/**
 * The shapes shared by the provider adapters, the registry and the newer
 * chat route: messages, chat requests and replies, provider metadata.
 */
module ProviderTypes {
  import opened Wrappers

  /** A chat message; `role` is `user`, `assistant` or `system`. */
  datatype Message = Message(role: string, content: string)

  /** What an adapter's `chat` and `stream` receive. */
  datatype ChatRequest = ChatRequest(messages: seq<Message>, model: string, stream: Option<bool>)

  /** What an adapter's `chat` resolves to. */
  datatype ChatResponse = ChatResponse(content: string, model: string, tokens: Option<nat>)

  datatype Features = Features(streaming: bool, vision: bool, tools: bool)

  datatype ProviderMetadata = ProviderMetadata(
    name: string,
    description: Option<string>,
    baseUrl: string,
    models: seq<string>,
    features: Option<Features>)

  /**
   * An adapter as the registry and the route see it: its name and base URL.
   * What its `chat` and `stream` produce is supplied separately.
   */
  datatype Adapter = Adapter(name: string, baseUrl: string)
}
