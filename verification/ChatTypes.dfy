/** The messages a conversation is made of. */
module ChatTypes {
  datatype Role = System | User | Assistant | Tool

  datatype Status = Queued | Active | Complete | Error | Cancelled

  datatype ToolCall = ToolCall(id: string, name: string, arguments: string)

  /** Who appended a message. The program does not store this; it is what the
      statements about histories are phrased in. */
  datatype Origin =
    | FromRun(run: nat)          // the prompt run with this number
    | FromSubAgent               // a sub-agent continuation
    | FromCompaction             // a note left behind by compaction

  datatype Message = Message(
    id: nat,
    role: Role,
    status: Status,
    content: string,
    calls: seq<ToolCall>,        // assistant messages: the tools requested
    answers: string,             // tool messages: the call answered
    toolName: string,
    origin: Origin)

  function Note(content: string): Message {
    Message(0, System, Complete, content, [], "", "", FromCompaction)
  }

  function ActiveUserMessage(id: nat, content: string, run: nat): Message {
    Message(id, User, Active, content, [], "", "", FromRun(run))
  }

  function AssistantToolRound(id: nat, content: string, calls: seq<ToolCall>, run: nat): Message {
    Message(id, Assistant, Complete, content, calls, "", "", FromRun(run))
  }

  function ToolResultMessage(id: nat, call: ToolCall, content: string, isError: bool, run: nat): Message {
    Message(id, Tool, if isError then Error else Complete, content, [], call.id, call.name, FromRun(run))
  }

  function FinalAssistantMessage(id: nat, content: string, run: nat): Message {
    Message(id, Assistant, Complete, content, [], "", "", FromRun(run))
  }

  function Continuation(id: nat, content: string): Message {
    Message(id, User, Complete, content, [], "", "", FromSubAgent)
  }
}
