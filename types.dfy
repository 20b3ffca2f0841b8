/** The records of the application's type module, as values. */
module Types {
  import opened Base

  /** A chat role; its wire spelling is the enum's string value. */
  datatype Role = User | Model {
    function Name(): string {
      match this
      case User => "user"
      case Model => "model"
    }
  }

  /** Timestamps come from the clock and are opaque to the logic (milliseconds). */
  type Timestamp = int

  /** One entry of the visible chat log. An absent `isStreaming` reads as false. */
  datatype Message = Message(id: string, role: Role, text: string, timestamp: Timestamp, isStreaming: bool)

  /** One seed turn handed to the chat collaborator: a role and a single text part. */
  datatype Content = Content(role: Role, text: string)

  /** The persisted project summary; the four phase fields may be null. */
  datatype ProjectSummary = ProjectSummary(
    projectTitle: string,
    phase1Structure: Option<string>,
    phase2Variables: Option<string>,
    phase3Resources: Option<string>,
    phase4Execution: Option<string>,
    lastActivePhase: string,
    timestamp: string)

  datatype WizardData = WizardData(field: string, phenomenon: string, hypothesis: string)

  /** `label` is a reserved word in Dafny, hence `displayLabel`. */
  datatype SimulationVariable = SimulationVariable(
    name: string, displayLabel: string, min: real, max: real, defaultValue: real, description: string)

  datatype SimulationConfig = SimulationConfig(
    independentVariables: seq<SimulationVariable>,
    dependentVariableLabel: string,
    h0Formula: string,
    h1Formula: string,
    explanation: string)

  datatype NodeStatus = Pending | Active | Completed

  datatype DiagramNode = DiagramNode(id: string, displayLabel: string, status: NodeStatus, details: string, connections: seq<string>)

  datatype DiagramData = DiagramData(nodes: seq<DiagramNode>)

  /** The user-interface language. */
  datatype Language = Es | En
}
