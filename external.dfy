/** What the responders see of the world outside this model: the installed
    client libraries, the key sources, and the answers of the completion
    services. Each service call is a function of what is sent, so a run of the
    model is determined by one `World` value and the random draws passed in. */
module External {
  import ApiConfig
  import opened Common

  /** One `{"role": ..., "content": ...}` message sent to a chat service. */
  datatype ChatMsg = ChatMsg(role: string, content: string)

  /** One entry of `context['conversation_history']`: its `role` (absent or
      not) and its `content`. */
  datatype ContextEntry = ContextEntry(role: Option<string>, content: string)

  /** The `context` dictionary a caller may pass to `generate_response`. */
  datatype Context = Context(characterContext: string, conversationHistory: seq<ContextEntry>)

  /** The outcome of one completion call: the text of the first choice and the
      token count the service reports, or the text of the exception raised. */
  datatype Reply = Answer(text: string, tokens: int) | Failure(error: string)

  /** A streamed completion: the content fragments yielded, in order (chunks
      without content are not listed), and whether the stream raised after them. */
  datatype StreamReply = StreamReply(parts: seq<string>, raised: bool)

  datatype World = World(
    /** `import openai` succeeds. */
    openaiInstalled: bool,
    /** The environment and Streamlit secrets as `APIConfig` reads them. */
    keys: ApiConfig.Sources,
    /** `client.chat.completions.create(messages=...)`. */
    openaiChat: seq<ChatMsg> -> Reply,
    /** `import ollama` succeeds. */
    ollamaInstalled: bool,
    /** `Client(host=url).list()`: the installed model names, `None` when it raises. */
    ollamaList: string -> Option<seq<string>>,
    /** `client.chat(model=..., messages=...)`. */
    ollamaChat: (string, seq<ChatMsg>) -> Reply,
    /** `client.chat(model=..., messages=..., stream=True)`. */
    ollamaStream: (string, seq<ChatMsg>) -> StreamReply)
}
