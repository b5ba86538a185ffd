/** The completion backend seen by the services (skill_manager/core/interfaces/llm_backend.py):
    one operation, `complete(messages, system_prompt, tools)`, that returns text. */
module LlmBackend {
  import opened Wrappers
  import opened Errors
  import opened Values
  import opened Messages

  /** The arguments of one `complete` call. */
  datatype Request = Request(messages: seq<WireMessage>, systemPrompt: Option<string>, tools: Option<seq<Value>>)

  /** A backend: the text `complete` returns for a request, or what it raises. */
  type Backend = Request -> Result<string, Error>

  /** The outcome of a service operation together with the backend calls it made, in order. */
  datatype Run<T> = Run(result: Result<T, Error>, calls: seq<Request>)
}
