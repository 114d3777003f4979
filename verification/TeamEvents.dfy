/** The records a Team journal holds (src/coordination/contracts.ts, CarrierEvent in src/carrier-observation.ts). */
module TeamEvents {
  import opened Wrappers
  import opened JournalText

  datatype EventType = TaskType | WorkerType | AlertType

  datatype TaskChange = CreatedChange | AssignedChange | GoalChange | NoteChange | StatusChange | RelationChange

  datatype EvidenceKind =
    CreatedEvidence | GoalEvidence | AssignmentEvidence | ProgressEvidence | StatusEvidence
    | RelationEvidence | DecisionEvidence | BlockerEvidence | ResultEvidence | NoteEvidence

  datatype Evidence = Evidence(kind: EvidenceKind, text: string)

  datatype Generation = Generation(membershipId: string, pid: int, startedAt: int, birthToken: string, bootId: string)

  datatype TerminalTarget = TerminalTarget(backend: string, kind: string, targetId: string)

  datatype Field = BindingField | LaunchField | ProcessField | TerminalField | ActivityField | BlockedField

  datatype Cause = Cause(source: string, fact: string)

  datatype Hint = EnsureWorker | AskHuman | Wait

  datatype Attention = Attention(reason: string, message: string)

  datatype CarrierEvent = CarrierEvent(
    membership: string, launchId: Option<string>, generation: Option<Generation>, field: Field,
    from: string, to: string, cause: Cause, observedAt: int, terminalTarget: Option<TerminalTarget>,
    suspectedHumanStop: bool, hint: Hint, attention: Option<Attention>)

  datatype AlertTaskRef = AlertTaskRef(taskId: string, version: Option<string>)

  datatype Body =
    | TaskBody(at: string, taskId: string, version: string, change: TaskChange, actor: string, evidence: Option<Evidence>)
    | WorkerBody(at: string, worker: string, membershipId: string, phase: string, carrier: Option<CarrierEvent>)
    | AlertBody(at: string, alertId: string, sender: string, recipient: string, taskRef: Option<AlertTaskRef>, kind: string, text: string)

  type TeamEvent = Event<Body>

  function TypeOf(e: TeamEvent): EventType {
    match e.body
    case TaskBody(_, _, _, _, _, _) => TaskType
    case WorkerBody(_, _, _, _, _) => WorkerType
    case AlertBody(_, _, _, _, _, _, _) => AlertType
  }
}
