/** The values that cross the gateway's components. */
module Types {
  import Json

  datatype Option<+T> = None | Some(value: T)

  // The text of an error is not modelled, only that there is one.
  datatype Result<+T> = Ok(value: T) | Err

  datatype Role = System | Developer | User | Assistant | Tool

  // A call's arguments stand for their canonical JSON text.
  datatype ToolCall = ToolCall(id: string, name: string, arguments: Json.Tree)

  datatype Message = Message(role: Role, content: string, toolCalls: seq<ToolCall>, toolCallID: string)

  // tool_choice: auto, none, required, or one named function.
  datatype Policy = Auto | Never | Required | Named(name: string)

  datatype FunctionTool = FunctionTool(name: string, description: string, parameters: Json.Tree, strict: Option<bool>)

  // SHA-256 digests as free terms: injective, and never the empty string.
  datatype Digest = NoDigest | DigestOf(messages: seq<Message>)

  datatype ToolHash = NoTools | HashOf(tools: seq<FunctionTool>)

  function ToolHashOf(tools: seq<FunctionTool>): ToolHash {
    if tools == [] then NoTools else HashOf(tools)
  }

  predicate Allows(policy: Policy, name: string) {
    !policy.Never? && (policy.Named? ==> policy.name == name)
  }

  function Last<T>(s: seq<T>): T
    requires s != []
  {
    s[|s| - 1]
  }

  function AssistantMessage(content: string, calls: seq<ToolCall>): Message {
    Message(Assistant, content, calls, "")
  }

  function IdsOf(batch: seq<Message>): set<string> {
    set m | m in batch :: m.toolCallID
  }
}
