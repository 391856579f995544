# Proofs about Forge and pi

A Dafny model of five stateful components of this repository, and proofs of what they keep over whole runs.

- **The Forge session** (`Forge*.dfy`, `Evidence.dfy`, `Candidates.dfy`, `Stages.dfy`, `DeepEvidence.dfy`). `ForgeState` says on
  values what each method of the session does; `ForgeSession` is the object with its fields and methods, each proved to do
  that. The other files prove what every run keeps: waiting and questions (`ForgeSafety`), the chain of artefacts up to
  TO_SPEC (`ForgeSafety`, `ForgeStale`), identities (`ForgeIdentity`), the search budget (`ForgeBudget`); and what it leads
  to: where answers lead (`ForgeAnswers`) and how a request gets to TO_SPEC (`ForgeWay`).
- **The documents writer** (`ManagedBlock.dfy`, `DocumentsBase.dfy`, `DocumentsCommit.dfy`): the laws of the managed block, the
  decodability of the base stream, and the all-or-nothing commit over a disk any of whose operations may fail.
- **The agent loop** (`Agent*.dfy`, `Agents.dfy`): a run is a list of turns. The methods that loop, stream, run tools and
  drain queues are proved to leave the trace, the new messages, the context and the agent's own transcript of that list;
  the grammar and the transcript are then facts about lists of turns.
- **The models refresh** (`ModelsProtocol.dfy`, `ModelsPublished.dfy`, `ModelsRefresh.dfy`): each stretch between two awaits is
  one step; the results hold over every interleaving of steps.
- **The client protocol and the proxy reader** (`Connection*.dfy`, `RequestProtocol.dfy`, `ClientKnowledge.dfy`, `Lease*.dfy`,
  `Client.dfy`, `Proxy*.dfy`): connections with listeners that call back, requests, leases, and the streaming line
  reader.

`dafny verify dfyconfig.toml` checks everything.

An exception of the original is a result here (`Threw`, `None`, `false`). What is foreign (a provider, a tool, a hook, the
store, the server, the disk) is given or arbitrary. What others do meanwhile is an input, and arbitrary: the calls made in each
pause of an agent (`Agenda`), the calls a listener makes when it is notified (`Reaction`), the files others write during a
commit; and so are the operations of the disk that fail (`Failing`). In the loop methods a run is followed for a given number
of turns, since it may go on for ever; one that is not finished by then has taken all of them.

Some claims one might make of this code are false. For each the proofs give an input and the condition that decides it:

- An evidence package may cite evidence that does not exist, behind an unknown empty id: `Evidence.EmptyIdHidesUnknown`,
  and `Evidence.AcceptedCitations` for exactly when.
- A question of kind `adr_ambiguity` raised by a caller can bring a stale candidate to TO_SPEC:
  `ForgeStale.StaleCandidateReachesSpec`, and `ForgeStale.ProperIffAlwaysSafe` for exactly which questions.
- The search limit is not looked at while the identity's own reservation is open: `ForgeBudget.NineSearches`, and
  `ForgeBudget.CarefulIffWithinLimit` for exactly which calls exceed it.
- The first turn after `continue()` may bring in two queued messages in one-at-a-time mode: `AgentRuns.TwoInFirstTurn`, and
  `AgentRuns.Continue` for exactly when.
- A stream that opens twice leaves a stale message in the context and breaks the trace grammar:
  `AgentTrace.TwoOpensBreakTrace`, and `AgentTrace.ReplyIsOneMessage` and `AgentTrace.ReplyAccepted` for exactly when.
- A listener that connects again from inside a batch of messages lets the rest of the batch end the new connection:
  `ConnectionProtocol.LateMessageEndsNewConnection`, and `ConnectionProtocol.StraysIffReconnects` for exactly which calls.
- An acquisition or a detach in flight across an invalidation can spoil the lease count: `LeaseProtocol.TwoExclusiveTokens`,
  `LeaseProtocol.LateDetachMiscounts`, and `LeaseProtocol.StepCountedIff` for exactly which steps.

## Model

| member | source | states |
|---|---|---|
| `ForgeSafety.AnswersNeverThrow` | forge-runtime/src/runtime/session-state.ts:872-1008 | In every run of calls the workflow waits for the user exactly when a question is stored, so an answer reaches neither internal check and attempts no illegal move |
| `ForgeSafety.ToSpecOnlyThroughFinalize` | forge-runtime/src/runtime/session-state.ts:735-756 | In every run, TO_SPEC is entered only by an accepted `finalizeAdrBuild` of a committed bundle with a prepared candidate; in a proper run the package has then passed validation, the records validate against it, and every citation names evidence in it |
| `ForgeSafety.ShownAtSpec` | forge-runtime/src/runtime/session-state.ts:735-756 | In every run the user is shown TO_SPEC only while the workflow is there |
| `ForgeStale.ProperIffAlwaysSafe` | forge-runtime/src/runtime/session-state.ts:1059-1091 | A run is proper (no caller puts an ADR question over a candidate that does not validate against the package at hand) if and only if at no moment of it an answer and one further call can take it to TO_SPEC without an accepted package that the records validate against |
| `ForgeSafety.CallersAskProperly` | forge-runtime/extensions/forge-runtime.ts:3211-3277 | Runs whose callers ask only the two kinds of question they do ask are proper |
| `ForgeSafety.RunChainSound` | forge-runtime/src/runtime/session-state.ts:588-756 | In every proper run the package is an accepted one, and whenever records are being built or an ADR question is open the candidate at hand validates against it, across cancels, retries and new snapshots |
| `ForgeStale.StaleCandidateReachesSpec` | forge-runtime/src/runtime/session-state.ts:369-379 | From any run with a candidate at hand: a cancel, an ADR question, an answer and a finalization take it to TO_SPEC with no evidence package at all |
| `ForgeStale.SpecIsReached` | forge-runtime/src/runtime/session-state.ts:679-756 | From any accepted package and sound candidate a proper run reaches TO_SPEC |
| `ForgeStale.CandidateComes` | forge-runtime/src/runtime/session-state.ts:679-700 | There is a run in which a candidate is at hand |
| `ForgeWay.AllTheWay` | forge-runtime/src/runtime/session-state.ts:296-756 | From the request to TO_SPEC: whatever is confirmed, whatever acceptable package is found and whatever sound glossary and records are written, there is a run that brings exactly them there |
| `ForgeAnswers.AnswerLeadsTo` | forge-runtime/src/runtime/session-state.ts:872-1008 | An answer that is heard removes the question and leads where its kind says: to CONTEXT_BUILD, ADR_BUILD, USER_CONFIRMED or GRILL, or to the checkpoint |
| `ForgeAnswers.UnheardChangesNothing` | forge-runtime/src/runtime/session-state.ts:881-911 | A blank answer, one that is none of the words a question asks for, one to another round, or one to a question that was answered before, changes nothing |
| `ForgeAnswers.AnswerIsRemembered` | forge-runtime/src/runtime/session-state.ts:909-924 | What was answered is remembered under its decision, once, and its question does not listen again |
| `ForgeAnswers.ContextIsCompleted` | forge-runtime/src/runtime/session-state.ts:617-678 | After an ambiguous context build and an answer that is heard, the new attempt with a sound glossary is accepted and opens the decision records |
| `ForgeAnswers.RecordsAreCompleted` | forge-runtime/src/runtime/session-state.ts:679-756 | After an ambiguity in the records and an answer that is heard, the new attempt with sound records is accepted and finalized at TO_SPEC |
| `ForgeAnswers.DeepWorkGoesOn` | forge-runtime/src/runtime/session-state.ts:380-395 | After a decision that deep work asked for is made, a retry goes on in the same phase with a new attempt |
| `ForgeAnswers.FallbackGoesOn` | forge-runtime/src/runtime/session-state.ts:1001-1007 | The user may agree to go on with the evidence at hand, and understanding may begin |
| `ForgeAnswers.ClarificationGoesOn` | forge-runtime/src/runtime/session-state.ts:1001-1007 | The user names the sources, and discovery may begin |
| `ForgeAnswers.CheckpointAtTheEighth` | forge-runtime/src/runtime/session-state.ts:949-972 | In every run a confirmation leads to the checkpoint exactly if it is the eighth since the last start, or the first after a checkpoint answered with one more; any other leads back to GRILL |
| `ForgeAnswers.SecondReportAsks` | forge-runtime/src/runtime/session-state.ts:530-568 | In every run the first report of missing evidence since the last cancel leads back to discovery, and each later one asks the user |
| `ForgeAnswers.CancelThenRetry` | forge-runtime/src/runtime/session-state.ts:369-395 | Deep work that is cancelled is taken up again in its phase, under a new identity |
| `ForgeAnswers.OmissionThenRetry` | forge-runtime/src/runtime/session-state.ts:458-470 | A recorded omission lets the round be retried once, and the next omission is noticed again |
| `ForgeAnswers.ConfirmOrReject` | forge-runtime/src/runtime/session-state.ts:423-438 | A pending question may be confirmed as it stands, and deep work may begin in either phase, or turned down, and the round goes on; neither counts as an answer |
| `ForgeAnswers.FinalizeAgain` | forge-runtime/src/runtime/session-state.ts:735-756 | A finalization is accepted exactly for a committed bundle with a well-formed hash; one that is refused changes nothing, and the same attempt may be finalized later |
| `ForgeAnswers.SameSnapshotKeeps` | forge-runtime/src/runtime/session-state.ts:1092-1120 | In every run a round on the snapshot of the last one keeps what was built and decided, and a round on another starts from nothing |
| `ForgeIdentity.AttemptIdsNeverReissued` | forge-runtime/src/runtime/session-state.ts:344-352 | The id of a new deep attempt differs from that of every attempt live at any earlier moment of the run, even across a reset |
| `ForgeIdentity.LiveAttemptBelongsToRound` | forge-runtime/src/runtime/session-state.ts:1092-1120 | In every run a live deep attempt belongs to the current Grill round |
| `ForgeIdentity.ResultAcceptedOnce` | forge-runtime/src/runtime/session-state.ts:498-616 | Once a result was accepted for an identity, every later result for it, at any later moment of any run, is refused and changes nothing |
| `ForgeIdentity.OthersChangeNothing` | forge-runtime/src/runtime/session-state.ts:498-616 | A result for any identity but the live one changes no field |
| `ForgeIdentity.CountersNeverFall` | forge-runtime/src/runtime/session-state.ts:1009-1036 | None of the four counters that issue identities falls in a run, not even by a reset |
| `ForgeBudget.EightSearchesPerRound` | forge-runtime/src/runtime/session-state.ts:805-849 | For each Grill round at most eight searches are committed in a whole run, and committed plus open searches never exceed eight, if the limit is never skipped |
| `ForgeBudget.CarefulIffWithinLimit` | forge-runtime/src/runtime/session-state.ts:805-865 | Committed plus open searches stay within eight throughout a run if and only if no call reserves over its identity's own open reservation with the budget full (a reservation that is given back within the call does not matter) |
| `ForgeBudget.ReserveWithinLimit` | forge-runtime/src/runtime/session-state.ts:821-829 | One reservation keeps the total within eight if and only if it is not made over the identity's own open reservation with the budget full |
| `ForgeBudget.BracketsAreCareful` | forge-runtime/extensions/forge-runtime.ts:1183-1332 | Runs in which every search is bracketed as the tool brackets it leave no reservation open and never skip the limit |
| `ForgeBudget.CarelessCallerUnbounded` | forge-runtime/src/runtime/session-state.ts:821-829 | Without the proviso one identity gets any number of searches committed for one round |
| `ForgeBudget.NineSearches` | forge-runtime/src/runtime/session-state.ts:75-79 | A run that commits nine searches for one round |
| `ForgeBudget.SearchIsGranted` | forge-runtime/extensions/forge-runtime.ts:1183-1332 | In every run of bracketed searches, a search of the live attempt is granted exactly if fewer than eight were committed for its round, and one that is given back costs nothing |
| `ForgeSession.Session.constructor` | forge-runtime/src/runtime/session-state.ts:265-293 | A new session is in the initial state |
| `ForgeSession.Session.BeginGrill` | forge-runtime/src/runtime/session-state.ts:296-304 | Reaches GRILL, or throws and leaves everything but the created orchestrator alone |
| `ForgeSession.Session.BeginIntent` | forge-runtime/src/runtime/session-state.ts:305-316 | Reaches INTENT_UNDERSTANDING, or throws and leaves everything but the created orchestrator alone |
| `ForgeSession.Session.BeginLightDiscovery` | forge-runtime/src/runtime/session-state.ts:317-328 | Reaches LIGHT_DISCOVERY, or throws and leaves everything but the created orchestrator alone |
| `ForgeSession.Session.BeginDeepKnowledge` | forge-runtime/src/runtime/session-state.ts:329-353 | Issues the next attempt of the current round, or throws without issuing one |
| `ForgeSession.Session.CancelDeepKnowledge` | forge-runtime/src/runtime/session-state.ts:369-379 | Jumps back to the phase at work, drops attempt and package, and remembers the phase |
| `ForgeSession.Session.RetryDeepKnowledge` | forge-runtime/src/runtime/session-state.ts:380-395 | Issues the next attempt in the remembered phase, or does nothing without one |
| `ForgeSession.Session.CompleteDeepKnowledge` | forge-runtime/src/runtime/session-state.ts:396-422 | Moves the live attempt to understanding; any other identity is stale |
| `ForgeSession.Session.NeedDecision` | forge-runtime/src/runtime/session-state.ts:499-528 | Puts the decision to the user and remembers the phase; a stale identity or an illegal move changes no more than the code does |
| `ForgeSession.Session.NeedDiscovery` | forge-runtime/src/runtime/session-state.ts:530-568 | Goes back to discovery the first time and asks the user the second; the request is counted even when the move fails |
| `ForgeSession.Session.CompleteUnderstanding` | forge-runtime/src/runtime/session-state.ts:577-616 | Only a validated package is taken in, and a failed move restores the previous one |
| `ForgeSession.Session.HandleDeepResult` | forge-runtime/src/runtime/session-state.ts:498-616 | The result goes to the handler of its kind, with the phase deciding between the two completions |
| `ForgeSession.Session.CompleteContextBuild` | forge-runtime/src/runtime/session-state.ts:617-678 | Accepts only a glossary or a question whose citations are known, and then opens the next attempt or asks |
| `ForgeSession.Session.PrepareAdrBuild` | forge-runtime/src/runtime/session-state.ts:679-700 | Stores exactly the candidates that pass validation against the current package |
| `ForgeSession.Session.RequireAdrDecision` | forge-runtime/src/runtime/session-state.ts:701-734 | Asks only a sound question, and drops attempt and candidate |
| `ForgeSession.Session.FinalizeAdrBuild` | forge-runtime/src/runtime/session-state.ts:735-756 | Moves to TO_SPEC exactly for the live attempt with a candidate and a committed bundle with a well-formed hash |
| `ForgeSession.Session.RequireWaitUser` | forge-runtime/src/runtime/session-state.ts:1059-1091 | Puts a well-formed question of the current round once; one already answered is passed over |
| `ForgeSession.Session.RecordAnswer` | forge-runtime/src/runtime/session-state.ts:872-1008 | Looks only at an expected answer to the pending question, remembers it, and continues where its kind says |
| `ForgeSession.Session.Confirm` | forge-runtime/src/runtime/session-state.ts:423-438 | Confirms exactly while a question is pending |
| `ForgeSession.Session.Reject` | forge-runtime/src/runtime/session-state.ts:1040-1058 | Always ends at GRILL with the question gone |
| `ForgeSession.Session.StartGrillRound` | forge-runtime/src/runtime/session-state.ts:1092-1120 | Issues the next round; a new snapshot drops all artefacts, the same one keeps them; open reservations are kept |
| `ForgeSession.Session.RetryGrillRound` | forge-runtime/src/runtime/session-state.ts:458-470 | Gives the round back exactly after a recorded omission |
| `ForgeSession.Session.RecordCompletionOmission` | forge-runtime/src/runtime/session-state.ts:760-774 | True exactly the first time in a round |
| `ForgeSession.Session.Reset` | forge-runtime/src/runtime/session-state.ts:1009-1036 | The initial state again, but for the counters that issue identities |
| `ForgeSession.Session.ReserveDeepSearchBudget` | forge-runtime/src/runtime/session-state.ts:805-830 | Reserves for the live identity of the current round, or reports a stale identity or the limit |
| `ForgeSession.Session.CommitDeepSearchBudget` | forge-runtime/src/runtime/session-state.ts:831-849 | Turns one open reservation of the identity into a committed search |
| `ForgeSession.Session.ReleaseDeepSearchBudget` | forge-runtime/src/runtime/session-state.ts:850-865 | Gives one open reservation of the identity back |
| `ForgeSession.Session.ConsumeDeepSearchBudget` | forge-runtime/src/runtime/session-state.ts:799-804 | A reservation and its commit |
| `ForgeSession.Session.DeepSearch` | forge-runtime/extensions/forge-runtime.ts:1183-1332 | On every path a reservation of the search tool is committed or released before it returns |
| `ForgeSession.Serve` | forge-runtime/src/runtime/session-state.ts:264-1122 | A session object after any sequence of calls is in the state of the specification run, so the results about runs are results about the object |
| `Stages.Orchestrator.TransitionTo` | forge-runtime/src/workflow/state-machine.ts:81-100 | An illegal move fails and leaves the stage alone |
| `DeepEvidence.ContentBytes` | forge-runtime/src/runtime/session-state.ts:81-93 | The sum of the sizes of the items that come first under their key |
| `DeepEvidence.HeldAddsNothing` | forge-runtime/src/runtime/session-state.ts:81-93 | Evidence that is held already adds nothing to the sum |
| `DeepEvidence.KeyTellsApart` | forge-runtime/src/runtime/session-state.ts:87-88 | The key of id and source tells items apart if ids hold no NUL |
| `Evidence.ValidateEvidencePackage` | forge-runtime/src/evidence/evidence-engine.ts:141-297 | Accepts exactly the packages that meet every rule |
| `Evidence.AcceptedCitations` | forge-runtime/src/evidence/evidence-engine.ts:141-297 | An accepted package cites only its own evidence if and only if it does not cite an unknown empty id |
| `Evidence.EmptyIdHidesUnknown` | forge-runtime/src/evidence/evidence-engine.ts:141-297 | An accepted package with a citation of evidence that does not exist: an unknown id hidden behind an empty one |
| `Evidence.CreatedPackage` | forge-runtime/src/evidence/evidence-engine.ts:94-139 | A created package lists the given ids in order; accepted, its sources share no id, and a finding without the inference prefix cites more than human premises |
| `Candidates.ValidateAdrBuildCandidate` | forge-runtime/src/decision/adr-builder.ts:65-136 | No complaint exactly for a candidate whose records all cite known evidence and whose hand-off is complete |
| `Candidates.ValidateContextCandidate` | forge-runtime/src/knowledge/context-builder.ts:64-93 | No complaint exactly for a glossary whose entries all cite known evidence |
| `Candidates.ValidateContextAmbiguity` | forge-runtime/src/knowledge/context-builder.ts:95-133 | No complaint exactly for a question with two options, a recommendation among them and known evidence |
| `ManagedBlock.RenderSucceeds` | forge-runtime/src/artifacts/documents-writer.ts:186-213 | Rendering succeeds if and only if the body is accepted and the document holds no mark or one well-formed block |
| `ManagedBlock.RenderKeepsOutside` | forge-runtime/src/artifacts/documents-writer.ts:186-213 | All text outside the block is unchanged, character for character |
| `ManagedBlock.ReadAfterWrite` | forge-runtime/src/artifacts/documents-writer.ts:186-213 | The block reads back as the trimmed body |
| `ManagedBlock.WriteAfterWrite` | forge-runtime/src/artifacts/documents-writer.ts:186-213 | A second body replaces the first as if it had been written directly, also where it is refused |
| `ManagedBlock.WriteTwice` | forge-runtime/src/artifacts/documents-writer.ts:186-213 | Rendering the same body again changes nothing |
| `ManagedBlock.WriteBackWhatWasRead` | forge-runtime/src/artifacts/documents-writer.ts:186-213 | Writing back what was read changes nothing if and only if the block has the layout the renderer gives it |
| `DocumentsBase.BaseStreamDecodes` | forge-runtime/src/artifacts/documents-writer.ts:166-184 | Two states of the files give the same stream if and only if every file agrees in presence and content |
| `DocumentsCommit.CaptureDocumentsBase` | forge-runtime/src/artifacts/documents-writer.ts:166-184 | The stream of all files in order; it fails exactly if one of the reads does; nothing is written |
| `DocumentsCommit.StageDocuments` | forge-runtime/src/artifacts/documents-writer.ts:246-264 | Every document has its rendered text staged, or staging stopped with nothing but staged files added |
| `DocumentsCommit.InstallDocuments` | forge-runtime/src/artifacts/documents-writer.ts:268-276 | Installed documents hold their new text and the old one is at the backup, at whatever step it stops |
| `DocumentsCommit.RollBack` | forge-runtime/src/artifacts/documents-writer.ts:277-290 | Each document is put back unless undoing it failed, which counts one error; its old text is on the disk in any case |
| `DocumentsCommit.CommitDocumentsBundle` | forge-runtime/src/artifacts/documents-writer.ts:215-300 | All or nothing at every failure point, whatever others write meanwhile; and the result follows from the files, what others write, the expected base and the operations that fail: invalid exactly if a first read fails, in conflict before staging exactly if the base differs, and if nothing fails committed exactly if the base is as expected, everything renders and no document was changed meanwhile |
| `DocumentsCommit.CommitForgeDocuments` | forge-runtime/src/artifacts/documents-writer.ts:44-48 | For the three documents: once committed, each file shows its trimmed body in its block |
| `AgentTurns.RunAccepted` | pi-main/packages/agent/src/agent-loop.ts:96-273 | A list of one or more turns of plain prompts and queued messages obeys the trace grammar: agent_start, turns each with exactly one reply and a turn_end that carries exactly the results announced in it, agent_end |
| `AgentRuns.FinishedObeysGrammar` | pi-main/packages/agent/src/agent.ts:486-535 | The trace of an agent whose run has finished obeys the grammar, if nothing but plain messages was prompted and ever put into its queues |
| `AgentTurns.TranscriptAtTurnEnd` | pi-main/packages/agent/src/agent.ts:544-591 | At every turn_end the transcript rebuilt from the events is the messages of the turns so far, and no tool call is pending, however a batch was scheduled |
| `AgentTrace.ReplyIsOneMessage` | pi-main/packages/agent/src/agent-loop.ts:312-369 | A reply leaves exactly one message in the context if and only if its stream opens at most once |
| `AgentTrace.ReplyAccepted` | pi-main/packages/agent/src/agent-loop.ts:312-369 | A reply fits the grammar if and only if its stream opens at most once |
| `AgentTrace.TwoOpensBreakTrace` | pi-main/packages/agent/src/agent-loop.ts:312-369 | After a stream that opens twice the trace is broken whatever follows |
| `AgentTools.EachCallOnce` | pi-main/packages/agent/src/agent-loop.ts:668-709 | In a finished batch each started call begins, then reports progress, then ends once, and only then its result comes out; other calls do nothing |
| `AgentTools.BatchReduces` | pi-main/packages/agent/src/agent.ts:559-571 | At every moment of a batch the calls the agent takes for pending are among those that run, even when ids repeat |
| `AgentTools.RunningIsPending` | pi-main/packages/agent/src/agent.ts:559-571 | If the ids of the calls differ, every call that runs is pending at every moment of the batch |
| `AgentTrace.LastPartialIsShown` | pi-main/packages/agent/src/agent.ts:544-558 | While a reply is streamed the agent shows the last partial message, which is the last one in the context |
| `AgentTurns.ErrorIsTheLast` | pi-main/packages/agent/src/agent.ts:573-577 | After any turns the error of the agent is that of the last reply that had one, or the one it had before |
| `AgentStream.StreamAssistantResponse` | pi-main/packages/agent/src/agent-loop.ts:279-370 | The events emitted and the context left are those of the streamed events up to the first close, with the final message in place of the partial one |
| `AgentBatch.FailTruncated` | pi-main/packages/agent/src/agent-loop.ts:379-404 | Every call of a truncated reply gets an error result, in order, and none is run |
| `AgentBatch.PrepareCall` | pi-main/packages/agent/src/agent-loop.ts:598-666 | A missing tool, refused arguments, a blocking hook, or an abort that came meanwhile settle the call with their error; otherwise it is left to run |
| `AgentBatch.ExecuteSequential` | pi-main/packages/agent/src/agent-loop.ts:431-485 | One result for each started call, in order, and each is what its tool and hooks make of it, but for the last one if an abort stopped it; without an abort every call is started and the results are a function of the tools alone |
| `AgentBatch.ExecuteParallel` | pi-main/packages/agent/src/agent-loop.ts:487-552 | Whatever order the calls end in, the results come in the order of the calls and are what the tools and hooks make of them; without an abort they are those of sequential execution |
| `AgentBatch.RunTogether` | pi-main/packages/agent/src/agent-loop.ts:538-540 | Running calls go on in any order until all have ended, each with the outcome its tool gives it |
| `AgentBatch.RunCalls` | pi-main/packages/agent/src/agent-loop.ts:226-235 | A batch that is neither truncated nor aborted ends the run if and only if the tool or hook of every call asks for it, and its results are a function of the tools alone, in either mode; a truncated one never ends it |
| `AgentBatch.EndsIfAsked` | pi-main/packages/agent/src/agent-loop.ts:598-757 | A call asks for the end exactly if its blocking hook does, or its tool does and the after-hook does not overrule it; no failure and no aborted call does |
| `AgentBatch.ResultIsTheTools` | pi-main/packages/agent/src/agent-loop.ts:598-757 | A tool that is run has its own result, but for what the after-hook replaces; a call that is not run, or whose hook throws, has an error for its result |
| `AgentLoop.WhyItGoesOn` | pi-main/packages/agent/src/agent-loop.ts:173-256 | In every run a turn is followed by another only if it did not fail, the hook let it pass, and a message was waiting, or calls were cut off, or the result of some call did not ask for the end |
| `AgentLoop.WhyItEnds` | pi-main/packages/agent/src/agent-loop.ts:204-256 | In every finished run the last turn failed, was stopped by the hook, had no calls, or the results of all of them asked for the end; so a result that did not ask for it is seen by the model |
| `AgentLoop.NextTurn` | pi-main/packages/agent/src/agent-loop.ts:176-250 | After each turn trace, new messages, context and drained messages agree on the list of turns |
| `AgentLoop.InnerLoop` | pi-main/packages/agent/src/agent-loop.ts:175-258 | A turn is followed by another only if it neither failed nor was stopped by the hook, and left results to be seen or there were messages to be injected; the loop rests only when neither is so, and whatever was drained has been injected or is at hand |
| `AgentLoop.RunLoop` | pi-main/packages/agent/src/agent-loop.ts:156-273 | A finished loop has injected every message it drained, in order, and in one-at-a-time mode at most one in each turn; its last turn failed, was stopped by the hook, or left nothing to be seen; one that is not finished has taken all the turns it was given fuel for |
| `AgentRuns.Prompt` | pi-main/packages/agent/src/agent.ts:347-358 | Busy exactly during a run, and then nothing changes; a finished run leaves its turns in trace, result and transcript alike and obeys the grammar; one that still goes on has taken as many whole turns as it was given |
| `AgentRuns.NextPrompts` | pi-main/packages/agent/src/agent.ts:366-387 | After a reply, steering is preferred to follow-ups, each queue gives out what its mode says, and there is nothing to continue from exactly if both are empty or nothing was said |
| `AgentRuns.Continue` | pi-main/packages/agent/src/agent.ts:361-388 | What the first turn brings in, in terms of the state at the call and of what others call meanwhile; in one-at-a-time mode it is at most one queued message, unless the transcript ends with a reply, only follow-ups are queued, and `steer` is called in one of the four pauses before the first look at the steering queue |
| `AgentRuns.TwoInFirstTurn` | pi-main/packages/agent/src/agent.ts:378-382 | In one-at-a-time mode a continued run whose first reply answers two queued messages, a follow-up and a steering message |
| `AgentRuns.Run` | pi-main/packages/agent/src/agent.ts:486-535 | The transcript after a finished run is the one before it and the messages of its turns; a run that still goes on has as many whole turns as it was given in its trace and its transcript |
| `Agents.PendingMessageQueue.Enqueue` | pi-main/packages/agent/src/agent.ts:133-135 | What was put in is what was taken out and what is left, in order |
| `Agents.PendingMessageQueue.Drain` | pi-main/packages/agent/src/agent.ts:141-154 | The oldest message, or all of them, leave; nothing is lost or reordered |
| `Agents.Agent.ProcessEvents` | pi-main/packages/agent/src/agent.ts:544-591 | The state stays what the events so far make of the state before the run, whatever is queued or aborted meanwhile, and the queues grow by exactly that |
| `Agents.Agent.StartRun` | pi-main/packages/agent/src/agent.ts:486-500 | A run starts with nothing streamed and no call pending |
| `Agents.Agent.FinishRun` | pi-main/packages/agent/src/agent.ts:529-535 | The transcript is kept and nothing is left pending |
| `ModelsProtocol.OneAtATime` | pi-main/packages/ai/src/models.ts:338-365 | At most one publication of a provider is at work in storage at any time |
| `ModelsProtocol.RunInOrder` | pi-main/packages/ai/src/models.ts:338-365 | In every interleaving publications start in call order, each after all before it have finished |
| `ModelsProtocol.OlderNeverOverwritesNewer` | pi-main/packages/ai/src/models.ts:338-365 | In every interleaving the effects on storage and memory come in call order with non-decreasing generations |
| `ModelsProtocol.UpdatesAreCurrent` | pi-main/packages/ai/src/models.ts:355-357 | An update runs only for the current generation, not aborted |
| `ModelsProtocol.SupersededNeverUpdates` | pi-main/packages/ai/src/models.ts:320-336 | Once a generation is superseded none of its updates runs, whatever is in flight |
| `ModelsProtocol.PublishedIsStored` | pi-main/packages/ai/src/models.ts:818-825 | When a fetched list is published, storage and memory hold it; when publishing fails, memory is as it was |
| `ModelsPublished.PublishedIsDone` | pi-main/packages/ai/src/models.ts:338-365 | In every run a publication that has succeeded has had exactly its effects, once each and in order: what it persists is stored, then its update is run; one that failed has updated nothing |
| `ModelsPublished.CurrentIsPublished` | pi-main/packages/ai/src/models.ts:338-371 | A publication that is next and belongs to the current refresh succeeds if the store does, and what it persists and updates is then in storage and memory, also if it persists nothing |
| `ModelsPublished.CurrencyDecides` | pi-main/packages/ai/src/models.ts:347-358 | A publication finishes only in its own start or resumption, and succeeds if and only if its refresh is current then and the store did not fail |
| `ModelsPublished.SupersededForGood` | pi-main/packages/ai/src/models.ts:320-336 | Once another refresh has begun or the provider was replaced, the refreshes before are never current again and update nothing more |
| `ModelsPublished.AbortedForGood` | pi-main/packages/ai/src/models.ts:347-358 | An aborted refresh updates nothing, at any later moment |
| `ModelsPublished.BegunIsCurrent` | pi-main/packages/ai/src/models.ts:331-336 | A refresh that begins is the current one, with a new generation, and the one it takes over from is aborted |
| `ModelsRefresh.ModelsImpl.SupersedeProviderRefresh` | pi-main/packages/ai/src/models.ts:320-329 | The generation rises by one and the controller in place is aborted; other providers are untouched |
| `ModelsRefresh.ModelsImpl.BeginProviderRefresh` | pi-main/packages/ai/src/models.ts:331-336 | A new generation with a controller of its own |
| `ModelsRefresh.ModelsImpl.SetProvider` | pi-main/packages/ai/src/models.ts:269-272 | Refreshes in flight for the id are superseded, and the new provider's own list is the one at hand |
| `ModelsRefresh.ModelsImpl.DeleteProvider` | pi-main/packages/ai/src/models.ts:274-277 | Refreshes in flight for the id are superseded |
| `ModelsRefresh.ModelsImpl.ClearProviders` | pi-main/packages/ai/src/models.ts:279-284 | Exactly the known providers and those with a controller are superseded, each once |
| `ModelsRefresh.ModelsImpl.EndRefresh` | pi-main/packages/ai/src/models.ts:431-435 | A refresh takes away its own controller and no other |
| `ModelsRefresh.ModelsImpl.PublishProviderModels` | pi-main/packages/ai/src/models.ts:338-345 | The publication is queued behind the tail of the chain |
| `ModelsRefresh.ModelsImpl.StartPublication` | pi-main/packages/ai/src/models.ts:346-353 | After the tail before it: given up if no longer current, else completed or handed to the store |
| `ModelsRefresh.ModelsImpl.ResumePublication` | pi-main/packages/ai/src/models.ts:355-358 | After the store: the update runs only if the refresh is still current |
| `ModelsRefresh.ModelsImpl.SettleTail` | pi-main/packages/ai/src/models.ts:359-363 | The chain is forgotten only if nothing was queued meanwhile |
| `ModelsRefresh.Serve` | pi-main/packages/ai/src/models.ts:254-365 | After any interleaving of steps of any providers each is where its own steps alone put it |
| `ModelsRefresh.CurrentModels` | pi-main/packages/ai/src/models.ts:766-774 | Under an id the last fetched model is found, or else the static one; static positions keep their ids |
| `ConnectionProtocol.OneLifeEach` | pi-main/packages/client/src/connection.ts:66-235 | For each connect, in every run and whatever listeners do: connecting, then at most one connected, then its promise resolved only after that, or rejected, and only then disconnected, once; settled unless it is current and its handshake is not done, over unless it is current |
| `ConnectionProtocol.StaleCallback` | pi-main/packages/client/src/connection.ts:119-147 | A transport callback of a connection that is not current changes nothing |
| `ConnectionProtocol.StraysIffReconnects` | pi-main/packages/client/src/connection.ts:156-159 | The messages of a chunk stray to another connection if and only if some message other than the last is the first whose handling loses the connection, and the calls its listeners make end with a new one; this is read off the calls alone |
| `ConnectionProtocol.BatchStays` | pi-main/packages/client/src/connection.ts:156-159 | If no listener connects from inside a chunk its messages stay with its connection |
| `ConnectionProtocol.LateMessageEndsNewConnection` | pi-main/packages/client/src/connection.ts:156-175 | Otherwise a message of the old connection ends the new one |
| `ConnectionEnds.MustEndEnds` | pi-main/packages/client/src/connection.ts:92-160 | In every run a disconnect, a failing transport, data before the hello was sent and data that cannot be decoded end the current connection for good, whatever listeners do; another is up only if a listener made it |
| `ConnectionEnds.HelloConnects` | pi-main/packages/client/src/connection.ts:164-197 | A hello that is taken as it comes resolves the promise, and the connection is up |
| `ConnectionEnds.PlainMessages` | pi-main/packages/client/src/connection.ts:198-204 | Messages that listeners only take leave a connection as it is, and the first out of place ends it |
| `ConnectionObject.Connection.Connect` | pi-main/packages/client/src/connection.ts:66-90 | Accepted exactly while disconnected |
| `ConnectionObject.Connection.Fail` | pi-main/packages/client/src/connection.ts:218-231 | The promise, if not settled, is rejected before disconnected is announced |
| `ConnectionObject.Connection.TransportReady` | pi-main/packages/client/src/connection.ts:119-132 | A transport that comes too late is refused |
| `ConnectionObject.Connection.TransportFails` | pi-main/packages/client/src/connection.ts:81-86 | Only the current connection is failed |
| `ConnectionObject.Connection.Greet` | pi-main/packages/client/src/connection.ts:164-197 | The promise is resolved only if the connection survives handshake and announcement |
| `ConnectionObject.Connection.HandleMessage` | pi-main/packages/client/src/connection.ts:162-204 | A message out of place ends the connection |
| `ConnectionObject.Connection.HandleData` | pi-main/packages/client/src/connection.ts:142-160 | Messages are delivered in order until the connection is lost |
| `ConnectionObject.Serve` | pi-main/packages/client/src/connection.ts:40-236 | A connection object after any calls and callbacks is in the state of the specification run |
| `RequestProtocol.EachSettledOnce` | pi-main/packages/client/src/client.ts:189-207 | In every run a request that no longer waits was settled exactly once; while not connected none waits and no session is attached |
| `RequestProtocol.SettledByItsOwn` | pi-main/packages/client/src/client.ts:294-319 | A request is answered only by a response of its own id and command, and otherwise settled only by an error of its id or the loss of the connection |
| `RequestProtocol.SettledForGood` | pi-main/packages/client/src/client.ts:330-340 | A settled request is never touched again |
| `ClientKnowledge.ToldIsKnown` | pi-main/packages/client/src/state.ts:77-113 | In every run a snapshot, told in an event or in the awaited result, is what is known afterwards, and its session is attached exactly if it says so, unless a newer one was known, and then nothing changes; other sessions are not touched |
| `ClientKnowledge.RevisionNeverFalls` | pi-main/packages/client/src/state.ts:106-113 | Until a session is removed or forgotten, or the client is connected anew or disposed of, the revision known of it never falls, in any run |
| `ClientKnowledge.NewestIsKnown` | pi-main/packages/client/src/state.ts:106-113 | Nothing that was told since then is newer than what is known |
| `ClientKnowledge.KnownWasTold` | pi-main/packages/client/src/state.ts:77-113 | What is known of a session was told or put back; only a detach may have changed it since, from attached to not attached |
| `ClientKnowledge.ServerIsKnown` | pi-main/packages/client/src/state.ts:100-104 | The revision of the server that is told is known afterwards, unless a newer one was |
| `ClientKnowledge.ServerNeverFalls` | pi-main/packages/client/src/state.ts:100-104 | Until the client is connected anew or disposed of the revision known of the server never falls, in any run |
| `ClientKnowledge.DetachIsKnown` | pi-main/packages/client/src/state.ts:79-84 | A detach that succeeds ends the attachment and leaves the revision as it was |
| `ClientKnowledge.ResponseSettles` | pi-main/packages/client/src/client.ts:294-319 | A response settles the request it names and no other if it is an error or a result of its command, and on every other response the connection ends and everything that waits is rejected |
| `ClientKnowledge.RemovedOrLost` | pi-main/packages/client/src/state.ts:26-31 | A removed session is neither known nor attached; a lost connection ends all attachments and keeps what is known |
| `ClientKnowledge.StartsFromNothing` | pi-main/packages/client/src/state.ts:26-31 | A new connection starts from nothing known |
| `ClientKnowledge.DisposedForGood` | pi-main/packages/client/src/client.ts:342-353 | After its disposal a client is never connected, issues no request, and nothing waits, in any run |
| `LeaseProtocol.LeasesCounted` | pi-main/packages/client/src/client.ts:381-412 | In every interleaving with nothing in flight across an invalidation, the lease count is the number of outstanding tokens and an exclusive token excludes all others |
| `LeaseProtocol.StepCountedIff` | pi-main/packages/client/src/client.ts:395-400 | A step keeps the count right if and only if it is not the late end of an acquire or detach from before an invalidation, whatever has become of the lease meanwhile |
| `LeaseProtocol.TwoExclusiveTokens` | pi-main/packages/client/src/client.ts:173-176 | An acquisition that fails late lets a second exclusive token out |
| `LeaseProtocol.LateDetachMiscounts` | pi-main/packages/client/src/client.ts:237-252 | A detach that succeeds late takes the exclusive lease of another off the count, though its own lease was marked invalidated before |
| `LeaseProtocol.DetachForTheLast` | pi-main/packages/client/src/client.ts:237-252 | The release of an active lease sends a detach if and only if its token is the only one outstanding |
| `LeaseProtocol.OnlyReleasesDetach` | pi-main/packages/client/src/client.ts:231-252 | No other step sends a detach for a lease |
| `LeaseProtocol.NeverActiveAgain` | pi-main/packages/client/src/client.ts:214-225 | A lease that is stale or released is never active again, whatever happens |
| `LeaseOutcomes.GrantedIff` | pi-main/packages/client/src/client.ts:381-393 | While the count is right, an exclusive lease is granted exactly if no token is outstanding, and a shared one exactly if no exclusive token is |
| `LeaseOutcomes.FailedDetachLeaves` | pi-main/packages/client/src/client.ts:254-266 | When the detach of the last lease fails, a lease to be given up in any case is released and a clean-up demanded, and any other is active again |
| `LeaseOutcomes.DetachReleases` | pi-main/packages/client/src/client.ts:237-253 | When it succeeds the lease is released and nothing is counted any more |
| `LeaseOutcomes.CleanupIffDue` | pi-main/packages/client/src/client.ts:254-266 | In every run a clean-up is demanded exactly if the detach of a lease to be given up has failed and neither a clean-up nor an invalidation came after it |
| `LeaseOutcomes.ActiveUntilReleased` | pi-main/packages/client/src/client.ts:214-225 | A lease stays active until it is itself given up or its session is invalidated, whatever becomes of others |
| `ClientObject.PiClient.Request` | pi-main/packages/client/src/client.ts:189-207 | An id is issued exactly while connected and not disposed |
| `ClientObject.PiClient.HandleDisconnected` | pi-main/packages/client/src/client.ts:321-328 | Attachments are cleared, every session with leases invalidated, every request rejected |
| `ClientObject.PiClient.HandleResponse` | pi-main/packages/client/src/client.ts:294-319 | The request of the id is settled; an unknown id or the wrong command ends the connection, and with it every counted lease |
| `ClientObject.PiClient.HandleEvent` | pi-main/packages/client/src/client.ts:294-299 | A removed session loses its leases and its snapshot, others keep theirs |
| `ClientObject.PiClient.Dispose` | pi-main/packages/client/src/client.ts:342-353 | Nothing waits and nothing is known any more, and every counted lease is invalidated |
| `ClientObject.PiClient.ReserveSessionLease` | pi-main/packages/client/src/client.ts:381-393 | A token exactly where the mode allows it |
| `ClientObject.PiClient.ReleaseSessionLease` | pi-main/packages/client/src/client.ts:395-400 | The count falls by one, not below zero, and the token's own exclusive claim ends |
| `ClientObject.PiClient.CreateSessionLease` | pi-main/packages/client/src/client.ts:209-212 | The lease belongs to the generation at its making |
| `ClientObject.PiClient.AcquireFails` | pi-main/packages/client/src/client.ts:173-176 | The reserved token is given back |
| `ClientObject.PiClient.ReleaseLease` | pi-main/packages/client/src/client.ts:231-253 | A stale lease is invalidated, a shared one released at once, the last one detached first |
| `ClientObject.PiClient.RefreshState` | pi-main/packages/client/src/client.ts:214-221 | A lease from before an invalidation is marked invalidated, a detach in flight notwithstanding |
| `ClientObject.PiClient.CleanupReconciled` | pi-main/packages/client/src/client.ts:368-371 | The clean-up is no longer required |
| `ClientObject.PiClient.DetachSucceeds` | pi-main/packages/client/src/client.ts:242-244 | The token is given back, even if the lease was marked invalidated meanwhile |
| `ClientObject.PiClient.DetachFails` | pi-main/packages/client/src/client.ts:254-266 | The lease is active again, or given up with a clean-up to be made, or invalidated if it is from before an invalidation |
| `ClientObject.PiClient.InvalidateSessionLeases` | pi-main/packages/client/src/client.ts:402-407 | A new generation with no tokens; other sessions are untouched |
| `ClientObject.PiClient.InvalidateAllSessionLeases` | pi-main/packages/client/src/client.ts:409-412 | Exactly the sessions with a count are invalidated |
| `ClientObject.PiClient.ApplyResult` | pi-main/packages/client/src/state.ts:77-86 | A detach clears the attachment whatever the revision; other results count only if not older |
| `ClientObject.PiClient.ApplySessionSnapshot` | pi-main/packages/client/src/state.ts:106-113 | An older revision changes nothing unless forced |
| `ClientObject.PiClient.ForgetSessionSnapshot` | pi-main/packages/client/src/state.ts:49-53 | The snapshot goes and is handed back |
| `ClientObject.PiClient.RestoreSessionSnapshot` | pi-main/packages/client/src/state.ts:55-57 | A snapshot is put back only where there is none |
| `ClientObject.Serve` | pi-main/packages/client/src/client.ts:51-432 | After any calls and messages the requests of a client, and the leases of each session, are where the runs of their own steps put them, so the results about runs hold of the object |
| `ProxyReader.ReadAll` | pi-main/packages/agent/src/proxy.ts:183-209 | What is emitted and the message rebuilt depend on the whole text alone, not on how it is cut into chunks; an incomplete last line is dropped |
| `ProxyLines.SplitOn` | pi-main/packages/agent/src/proxy.ts:193-195 | Splitting what was left over together with the next chunk gives the lines of the whole text |
| `ProxyLines.LinesMakeUpText` | pi-main/packages/agent/src/proxy.ts:194-195 | The complete lines and the remainder make up the text, and none holds a newline |
| `ProxyReader.ReadBlocks` | pi-main/packages/agent/src/proxy.ts:193-209 | The blocks read from any text are those of the events of its complete lines up to the first that fails, if one does; a text or thinking block is the concatenation of its deltas since its last start |
| `ProxyReader.AcceptedIsLongest` | pi-main/packages/agent/src/proxy.ts:193-209 | The first event that is not taken is one that does not parse or is refused |
| `ProxyReader.BlockIsItsDeltas` | pi-main/packages/agent/src/proxy.ts:240-310 | After any accepted events a block is of the kind of its last start, and a text or thinking block is the concatenation of its deltas since |
| `ProxyReader.OthersDoNotMatter` | pi-main/packages/agent/src/proxy.ts:240-370 | A block is what the events for it alone would have made it |
| `ProxyBlocks.CallIsItsPieces` | pi-main/packages/agent/src/proxy.ts:312-350 | After any accepted events a tool call has the identity it was started or ended with, its JSON text is all its pieces since, in order, and its arguments are what the parser makes of that text, or those of its end; pieces after the end are put after the word undefined |
| `ProxyBlocks.ReadCalls` | pi-main/packages/agent/src/proxy.ts:193-209 | So are the tool calls read from any text, in whatever chunks |
| `ProxyBlocks.ListenersAgree` | pi-main/packages/agent/src/proxy.ts:240-350 | Whoever only hears what is passed on has the same text of every block as the message, at the end and at every announced end of a block, wherever the stream fails |
| `ProxyBlocks.HowItEnded` | pi-main/packages/agent/src/proxy.ts:183-232 | A reading that fails ends with an error, in the message and in what is passed on; any other has the reason of its last finishing event |
| `ProxyReader.Reader.ProcessProxyEvent` | pi-main/packages/agent/src/proxy.ts:240-370 | The partial message is updated in place, or the event is refused and nothing changes |
| `ProxyReader.Reader.ReadLine` | pi-main/packages/agent/src/proxy.ts:197-208 | Only a non-empty payload of a data line counts; a bad one ends the reading |
| `ProxyReader.Reader.ReadChunk` | pi-main/packages/agent/src/proxy.ts:193-208 | The complete lines are processed in order and the rest is kept |

## Left out

- ForgeSession.Session.RecordAnswer: does not model human premises, whose ids are hashes of texts, nor the order of the human decisions; no other state depends on them.
- ForgeSession.Session.NeedDiscovery: takes the ids of the evidence fetched so far from its caller, because fetched and supplemental evidence, locked evidence and the texts shown to the user are not part of the session state here; question texts are stand-ins.
- ForgeSession.Session.ReserveDeepSearchBudget: keeps the map from reservation keys to positive counts as a multiset of identities.
- ForgeSession.Session.constructor: the closure's variables are grouped into records (`next`, `deep`, `build`, `budget`, `answers`); frozen copies are values.
- ForgeSafety.ToSpecOnlyThroughFinalize: what the package and the records are is claimed for proper runs, which is what it takes (`ForgeStale.ProperIffAlwaysSafe`) and what callers make (`ForgeSafety.CallersAskProperly`).
- ForgeSession.Session.DeepSearch: whether the search fits is one flag; all ways in which the tool gives a reservation back, exceptions included, are its other value.
- ForgeSession.Serve: the methods that record and lock evidence are not among the calls, since they touch no other state.
- Evidence.ValidateEvidencePackage: measures statements in characters, not code points, and gives a verdict instead of its list of messages.
- Candidates.ValidateAdrBuildCandidate: the secret patterns are a verdict that comes with the hand-off.
- ManagedBlock.RenderSucceeds: marker names are those without angle brackets or line breaks, as the three fixed names are.
- DocumentsBase.BaseStreamDecodes: the hash is left out, so the stream itself stands for it; content is text, whose UTF-8 coding is not modelled.
- DocumentsCommit.CommitDocumentsBundle: a failing disk operation has no effect (no partial writes); symbolic links and the directory checks are failures of the operation they belong to; staged files are installed by linking; others write only between staging and the second capture, and not to files that bear a commit's token; a clean-up that itself fails is the result `Threw`, for which only the presence of every old or every new text is claimed.
- AgentLoop.RunLoop: no hook replaces the context, the hook that stops a run decides by the number of turns, hooks and callbacks do not throw, and the provider's streams open at most once.
- AgentRuns.FinishedObeysGrammar: speaks of prompts and queued messages that are neither replies nor tool results.
- AgentBatch.PrepareCall: looking a call up, preparing its arguments and asking the hook are one step with one pause; what comes of them is given for each call.
- AgentBatch.ExecuteParallel: progress that a call reports after it has ended, which the code drops, is not represented.
- Agents.Agent.ProcessEvents: listeners are heard as anything that may queue messages or abort; clearing the queues and changing their modes during a run are left out, and so is a run that fails by an exception.
- ModelsRefresh.ModelsImpl.PublishProviderModels: the race of its result with the abort signal is left out, since nothing depends on it; the store changes, if at all, before its promise settles, and only by publications.
- RequestProtocol.EachSettledOnce: listeners act after the message that notifies them, as steps of their own; frames and their sending are not modelled, a failed sending is the loss of the connection.
- LeaseProtocol.LeasesCounted: whether the session is attached, and the shared promises for attaching and reconciling, are left to the caller of each step.
- ClientObject.Serve: the requests that acquiring and releasing a lease send are calls of their own, in any order.
- ProxyReader.ReadAll: the HTTP request, the abort signal and the texts of errors are left out; the chunks are those of the text decoder, and the JSON parsers are given.
- Credential resolution, auth, the refresh phases' orchestration and provider streaming in `models.ts`.
- Everything else of the two packages: user interface, skills, discovery scoring, redaction, file walking, configuration, sockets, framing and encoding.
