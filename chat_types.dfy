/** The snapshot that the chat library hands to the component on every change:
    an ordered list of messages, each an ordered list of typed parts, plus the
    session status. The component only reads these values. */
module ChatTypes {

  datatype Option<+T> = None | Some(value: T)

  /** A JSON value, carried through unchanged (tool inputs and outputs). */
  datatype Json =
    | JNull
    | JBool(b: bool)
    | JNumber(n: int)
    | JString(s: string)
    | JArray(items: seq<Json>)
    | JObject(members: seq<(string, Json)>)

  datatype Role = User | Assistant | System

  /** The chat session's status; `Ready` is the idle state. */
  datatype Status = Ready | Submitted | Streaming | Error

  /** The execution state of a tool invocation. */
  datatype ToolState = InputStreaming | InputAvailable | OutputAvailable | OutputError

  /** One part of a message. `tag` is the part's `type` string ("text",
      "reasoning", "source-url", "tool-<name>", or anything else); the other
      fields hold what a part of that type carries, and the fields a tag does
      not use are simply ignored by the renderer. */
  datatype Part = Part(
    tag: string,
    text: string,
    url: string,
    state: ToolState,
    input: Json,
    output: Option<Json>,
    errorText: Option<string>)

  datatype Message = Message(id: string, role: Role, parts: seq<Part>)

  const TextTag: string := "text"
  const ReasoningTag: string := "reasoning"
  const SourceUrlTag: string := "source-url"
  const ToolPrefix: string := "tool-"

  /** Convenience constructors for parts whose other fields are irrelevant. */
  function TextPart(text: string): Part
  {
    Part(TextTag, text, "", InputStreaming, JNull, None, None)
  }

  function ReasoningPart(text: string): Part
  {
    Part(ReasoningTag, text, "", InputStreaming, JNull, None, None)
  }

  function SourceUrlPart(url: string): Part
  {
    Part(SourceUrlTag, "", url, InputStreaming, JNull, None, None)
  }

  /** Message ids are pairwise distinct. */
  predicate UniqueIds(messages: seq<Message>)
  {
    forall a, b :: 0 <= a < b < |messages| ==> messages[a].id != messages[b].id
  }
}
