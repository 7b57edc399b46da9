/** The boundary to the hosted language model: the request each ai module
    sends, the reply it gets back, and a client object that records every
    request sent through it. The network call itself is a function the
    client is built with. */
module Inference {
  import opened Wrappers

  /** The model every request names. */
  const Model: string := "claude-sonnet-4-20250514"

  /** One messages call: the model, the output bound, and the single user
      message whose content is the prompt. */
  datatype Request = Request(model: string, maxTokens: nat, prompt: string)

  /** One block of a reply's content; only text blocks carry text the TypeScript code reads. */
  datatype ContentBlock = Text(text: string) | NonText(kind: string)

  /** What the call yields: the reply's content blocks, or the error it threw
      (transport, authentication, rate limit, ...). */
  datatype Completion = Reply(content: seq<ContentBlock>) | CallFailed(message: string)

  /** The text of the first content block when that block is a text block.
      A failed call, a reply with no content (reading `content[0].type` then
      throws) and a first block of another kind all give None. */
  function FirstText(c: Completion): (r: Option<string>)
    ensures r.Some? <==> c.Reply? && |c.content| > 0 && c.content[0].Text?
    ensures r.Some? ==> c.content[0] == Text(r.value)
  {
    match c
    case CallFailed(_) => None
    case Reply(content) =>
      if |content| > 0 && content[0].Text? then Some(content[0].text) else None
  }

  /** The language-model client, passed to the request handler instead of
      living in a module-level singleton. `sent` is the log of every request
      made through it, so |sent| counts the inference calls. */
  class InferenceClient {
    /** The backend's answer to the n-th request (counting from 0). */
    const respond: (nat, Request) -> Completion
    var sent: seq<Request>

    constructor (respond: (nat, Request) -> Completion)
      ensures this.respond == respond && sent == []
    {
      this.respond := respond;
      sent := [];
    }

    /** One call to the backend: logged, then answered. */
    method CreateMessage(request: Request) returns (c: Completion)
      modifies this
      ensures sent == old(sent) + [request]
      ensures c == respond(|old(sent)|, request)
    {
      c := respond(|sent|, request);
      sent := sent + [request];
    }
  }
}
