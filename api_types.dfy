/**
 * The records exchanged with the chat service: messages, token usage and the
 * transmissions (requests and responses) that make up a conversation log.
 */
module ApiTypes {
  import opened Wrappers
  import opened Errors

  /** A chat message. `role` and `content` are required; `name` defaults to `None`. */
  datatype Message = Message(role: string, content: string, name: Option<string>)

  /** `Message(role=..., content=...)` with the default `name`. */
  function NewMessage(role: string, content: string): (m: Message)
    ensures m.role == role && m.content == content && m.name == None
  {
    Message(role, content, None)
  }

  /**
   * Token usage. `totalTokens` is the cumulative count of the conversation up to
   * and including the owning transmission. `Usage` is the base record the client
   * builds; `PromptUsage` and `CompletionUsage` are the two refinements.
   */
  datatype Usage =
    | Usage(totalTokens: nat)
    | PromptUsage(totalTokens: nat)
    | CompletionUsage(totalTokens: nat, promptTokens: nat, completionTokens: nat)

  datatype Choice = Choice(message: Message)

  /** `Request` is a user or system turn, `Response` an assistant turn. */
  datatype Kind = Request | Response

  datatype Transmission = Transmission(kind: Kind, choices: seq<Choice>, usage: Usage)

  /** Whether reading the first choice succeeds. */
  predicate HasChoice(t: Transmission) {
    |t.choices| > 0
  }

  /** The `message` property: the first choice's message, `IndexError` without choices. */
  function MessageOf(t: Transmission): Result<Message, Error> {
    if |t.choices| == 0 then Err(IndexError) else Ok(t.choices[0].message)
  }

  /** The `role` property, read through `message`. */
  function RoleOf(t: Transmission): Result<string, Error> {
    match MessageOf(t)
    case Ok(m) => Ok(m.role)
    case Err(e) => Err(e)
  }

  /** The `content` property, read from the first choice directly. */
  function ContentOf(t: Transmission): Result<string, Error> {
    if |t.choices| == 0 then Err(IndexError) else Ok(t.choices[0].message.content)
  }

  /** The `total_tokens` property. */
  function TotalTokensOf(t: Transmission): nat {
    t.usage.totalTokens
  }

  /** `Request(message=m, usage=Usage(total_tokens=total))`: a one-choice request. */
  function MakeRequest(m: Message, total: nat): (t: Transmission)
    ensures MessageOf(t) == Ok(m) && TotalTokensOf(t) == total && t.kind == Request
  {
    Transmission(Request, [Choice(m)], Usage(total))
  }

  /** `Response(message=m, usage=Usage(total_tokens=total))`: a one-choice response. */
  function MakeResponse(m: Message, total: nat): (t: Transmission)
    ensures MessageOf(t) == Ok(m) && TotalTokensOf(t) == total && t.kind == Response
  {
    Transmission(Response, [Choice(m)], Usage(total))
  }

  /**
   * The accessors all read the first choice: with one they return its message,
   * role and content; without one, each raises `IndexError`, whatever the kind.
   * `total_tokens` is the usage's total in every case.
   */
  lemma AccessorsReadFirstChoice(t: Transmission)
    ensures TotalTokensOf(t) == t.usage.totalTokens
    ensures |t.choices| > 0 ==>
      && MessageOf(t) == Ok(t.choices[0].message)
      && RoleOf(t) == Ok(t.choices[0].message.role)
      && ContentOf(t) == Ok(t.choices[0].message.content)
    ensures |t.choices| == 0 ==>
      MessageOf(t) == Err(IndexError) && RoleOf(t) == Err(IndexError) && ContentOf(t) == Err(IndexError)
  {
  }

  /** `content` read from the first choice agrees with `content` read through `message`. */
  lemma ContentAgreesWithMessage(t: Transmission)
    ensures ContentOf(t).Ok? <==> MessageOf(t).Ok?
    ensures MessageOf(t).Ok? ==> ContentOf(t).value == MessageOf(t).value.content
  {
  }
}
