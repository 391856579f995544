/** The workflow stages, the legal moves between them, and the orchestrator that makes them. */
module Stages {

  datatype Stage =
    | Receive | IntentUnderstanding | LightDiscovery | Grill | WaitUser | UserConfirmed
    | DeepRetrieval | KnowledgeUnderstanding | ContextBuild | AdrBuild
    | ToSpec | ToTicket | Planning | ImplementGate | Tdd | FanOutExecution
    | Validation | Review | Judge | Complete | RootCause | RepairOrchestrator

  function LegalTransitions(from: Stage): set<Stage> {
    match from
    case Receive => {IntentUnderstanding}
    case IntentUnderstanding => {LightDiscovery}
    case LightDiscovery => {Grill}
    case Grill => {WaitUser, DeepRetrieval}
    case WaitUser => {UserConfirmed}
    case UserConfirmed => {Grill, LightDiscovery, DeepRetrieval, KnowledgeUnderstanding, ContextBuild, AdrBuild}
    case DeepRetrieval => {KnowledgeUnderstanding, LightDiscovery, WaitUser}
    case KnowledgeUnderstanding => {ContextBuild, LightDiscovery, WaitUser}
    case ContextBuild => {AdrBuild, WaitUser}
    case AdrBuild => {ToSpec, WaitUser}
    case ToSpec => {ToTicket}
    case ToTicket => {Planning}
    case Planning => {ImplementGate}
    case ImplementGate => {Tdd, Judge}
    case Tdd => {FanOutExecution}
    case FanOutExecution => {Validation}
    case Validation => {Review, RootCause}
    case Review => {Judge, RootCause}
    case Judge => {Complete, RootCause}
    case Complete => {}
    case RootCause => {RepairOrchestrator}
    case RepairOrchestrator => {Grill, DeepRetrieval, ContextBuild, AdrBuild, ToSpec, ToTicket, ImplementGate, Tdd}
  }

  predicate Legal(from: Stage, to: Stage) { to in LegalTransitions(from) }

  /** One run of the workflow. An illegal move fails and leaves the stage alone. */
  class Orchestrator {
    var stage: Stage

    constructor (initialStage: Stage)
      ensures stage == initialStage
    {
      stage := initialStage;
    }

    method TransitionTo(next: Stage) returns (ok: bool)
      modifies this
      ensures ok == Legal(old(stage), next)
      ensures stage == if ok then next else old(stage)
    {
      ok := next in LegalTransitions(stage);
      if ok {
        stage := next;
      }
    }
  }
}
