/** The records and enumerations of the application (types.ts). */
module Types {
  import opened Wrappers

  /** The structured synthesis Blendy produces and refinement may replace. */
  datatype BrainDumpResult = BrainDumpResult(
    interpretation: string,
    keyPoints: seq<string>,
    clarityScore: int,
    badges: seq<string>)

  /** The five agent personas. */
  datatype AgentId = Listie | Linky | Wordy | Sparky | Blendy

  /** The static description of one agent persona. */
  datatype AgentConfig = AgentConfig(
    id: AgentId,
    name: string,
    role: string,
    color: string,
    highlight: string,
    catchphrase: string,
    description: string,
    introduction: string)

  /** The screen the application shows. `Input` is declared but never entered. */
  datatype AppState = Idle | Input | AmbiguityCheck | Processing | Result | Error

  /** Status of one step of a processing run ('waiting' | 'active' | 'complete'). */
  datatype StepStatus = Waiting | Active | Complete

  datatype ProcessingStep = ProcessingStep(
    agentId: AgentId,
    status: StepStatus,
    message: Option<string>)

  /** Who wrote a conversation message. */
  datatype Role = User | Agent | System

  /** The kind of a conversation message ('message' | 'update'). */
  datatype MessageType = Chat | Update

  /** One entry of the refinement conversation; `timestamp` stands for `Date.now()`. */
  datatype ConversationMessage = ConversationMessage(
    role: Role,
    kind: Option<MessageType>,
    agentId: Option<AgentId>,
    text: string,
    timestamp: nat)
}
