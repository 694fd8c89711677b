/**
 * The provider-neutral prompt both adapters receive: an ordered list of
 * messages with a role and either a list of typed parts or, for a system
 * message, a plain string.
 */
module Prompt {
  import opened Js

  datatype Part =
    | TextPart(text: string)
    | ToolCallPart(toolCallId: string, toolName: string, args: Value)
    | ToolResultPart(toolCallId: string, toolName: string, result: Value)
      /** A part of any other type (image, file, ...); `kind` names it. */
    | OtherPart(kind: OtherKind)

  /** The type names of parts other than text, tool calls and tool results. */
  type OtherKind = k: string | k != "text" && k != "tool-call" && k != "tool-result" witness "file"

  datatype Content =
    | Parts(parts: seq<Part>)
      /** A system message carries its content as a string, not as parts. */
    | PlainText(text: string)

  datatype Message = Message(role: string, content: Content)
}
