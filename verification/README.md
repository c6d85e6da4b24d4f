# Verified model of IntelliGuard's runtime and control plane

IntelliGuard keeps a durable store of workflow runs, definitions, certifications,
deployments, reviews and tool calls, and drives it with several protocols. This project
models five of them in Dafny and proves what they guarantee over all inputs, runs and
request sequences. `dafny verify dfyconfig.toml` checks all of it.

Code that updates rows or lists in place is modelled by classes and loops
(`RuntimeStore`, `RuntimeWorkers`, `WorkflowGraph`, `WorkflowRouting`, `WorkflowSessions`,
`ControlStore`, `ScenarioSuites`, `ToolLedger`, `KnowledgeIngestion`, `EventStream`), each
method proved against a function of its inputs or of the old state; the laws are lemmas
about those functions.

## The parts

**Durable runs** (`RuntimeHooks`, `RunLog`, `RunTables`, `RunProtocol`, `RunConditions`,
`RunInvariant`, `RunPreserved*`, `RunTheorems`, `RunGate`, `RunOrdered`, `RunBounds`, `RunKeys`,
`RunExactness`, `RunCare`, `RunRaces`, `RuntimeStore`, `RuntimeWorkers`). Submitters, workers
and reviewers interleave freely, one step for each store transaction; a claim is atomic
because it locks its row. The hook gate needs no condition (`GateOverAllRuns`); what it decides
is said on the fields of deployment and run (`GateMeans`). Three things
depend on a condition the code does not check, and each is proved both ways:

- A review is resolved without looking at its status. Exclusion of workers and the language
  of the logs hold over all executions with careful reviewers: those who resolve a review
  only while it is pending and its pause has been announced. Any other resolution, in any
  state such executions reach and whoever else is at work on the run, has a careful
  continuation that ends in an unsafe state (`CarefulIsExact`, `LegalIffNeverDoomed`); if no
  other reviewer is on the run, the decision itself ends there
  (`DecisionSafeIffResolvable`). The worker creates the review item before it writes the
  pause, so checking that a review is pending is not enough: `EarlyApprovalBreaksExclusion`,
  for every deployment whose gate pauses.
- The approval is announced after the run has been queued again, so a worker may start the
  run first. The order of the log holds if workers wait until the log has the approvals that
  the review queue has (`OrderOverRuns`), and exactly then (`AlwaysOrderedIffPatient`,
  `OvertakenApprovalBreaksOrder`); under both conditions a paused run can still be approved
  and executed (`ApprovedRunExecutes`). Setting the approvals aside, the log is in its language
  without that condition (`LogsOverRuns`).
- Idempotent submission needs the unique index on deployment and key, which a migration
  creates and the plain schema setup does not: `UniqueIffIndexed`.

**Workflow graphs** (`Json`, `WorkflowGraph`, `WorkflowGraphLaws`, `GraphReference`,
`WorkflowEvaluators`, `ManifestCompiler`, `WorkflowRouting`, `RoutingReference`, `DeployedGraph`,
`GraphExamples`, `WorkflowSessions`). A payload is normalised, evaluated, compiled to a manifest,
rebuilt to a definition and read by the engine. Normalisation and routing are tied, both ways, to a
reference form that reads the payload or definition field by field (`NormalizationMeans`,
`ConnectionsMean`, `StepsMean`); spaces are stripped as `StripMeans` says. Findings: normalisation is idempotent except when a non-empty edge list holds no
dict at all (`NormalizeTwice`, `HiddenFallback`) - the API takes lists of dicts, so only
callers inside the program can pass such a list, and what the API takes is idempotent
(`DictsNormalizeOnce`); connections are deduplicated by the text `from->to`, which
collides for ids that contain the arrow, so the edges survive deployment exactly when
names tell endpoints apart (`DeploymentKeepsGraph`, `ArrowEdgeLost`), which they do when no
node id contains the arrow (`ArrowFreeGraphSurvives`); a lead node whose id is not `lead`
loses its edges (`DeployedConnections`, `BossEdgeLost`); manifest nodes carry no activation
settings, so a deployed workflow selects every node but the lead.

**Control plane** (`ControlTables`, `ControlPlane`, `ControlTheorems`, `ControlLaws`,
`ControlPosts`, `ControlSplit`, `ControlSplitDeploy`, `ControlSplitExample`, `ScenarioSuites`,
`ControlStore`). First API requests are taken as a whole. Then evaluations are split as the
endpoint makes them, a read and two writes with other requests in between: all laws still
hold if an evaluation certifies only the configuration it read (`StartedRunsGood`), and
exactly then (`GuardIsExact`), which is the case when no post in between left another one
(`SplitEvaluationFreshIff`). Deployments are split too, into two reads and an insert: the laws
hold if the certificate found is of the configuration read (`StartedDeploysGood`), which again
depends on the posts in between (`SplitDeploymentCertifiedIff`). The endpoints check neither,
so that a configuration can be deployed that nothing ever evaluated (`UnevaluatedDeployment`,
`OldConfigurationDeployed`). The pass threshold of a scenario suite is dropped when the suite
is stored, so that a suite passes only if every case does (`VerdictIsAll`, `RunSuite`). Activation
leaves the revisions of other workflows and environments alone (`ActivationMeans`).

**Tool ledger** (`RiskAssessment`, `ToolLedger`, `ToolLedgerExamples`). A result that is held
for review is answered as allowed and replayed as REVIEW, and a withheld result is handed
over on replay (`ReplayAgreesIff`, `ReplayOfReview`, `ReplayOfBlock`). An empty key is stored
but not looked up (`EmptyKeyRunsAgain`, `EmptyKeyTwice`). A search whose filter is a non-empty
value other than a dict makes the detector raise, whatever else it would find (`AssessToolCall`,
`CallMeans`).

**Knowledge and events** (`KnowledgeIngestion`, `EventStream`, `EventStreamRace`). The
counters speak of the documents of one pass only (`EarlierDocumentsDropOut`); failed documents
break a base without chunks and degrade one that has some (`HealthMeans`). The event query
applies its limit before it looks for the cursor, so events beyond the limit are never
emitted and a cursor beyond it starts over. The status of a run is written before its last
event, so a stream may end without it (`StreamCompleteIff`, and `StreamMissesLastEvent` for
every deployment whose gate is open at once, as one without hooks is: `NoHooksOpenAtOnce`).

## Model

| member | source | states |
|---|---|---|
| RuntimeHooks.ConditionsMatch | intelliguard/runtime/hooks.py:362-375 | the loop stops at the first entry that does not hold and gives its verdict; what an entry asks for is the subject of RunConditions |
| RuntimeHooks.FirstMatchingHook | intelliguard/runtime/hooks.py:72-86 | the scan finds the first hook that is of this point, not approved and matching |
| RuntimeHooks.GateOpensIffCleared | intelliguard/runtime/hooks.py:51-86 | the gate opens iff, up to the first unapproved matching continue hook or the end, every matching hook of the point is approved |
| RuntimeHooks.GateStopsAtUnapproved | intelliguard/runtime/hooks.py:51-86 | a hook that pauses or blocks is one of the deployment's, unapproved and matching; block hooks block, pause and escalate hooks pause |
| RunConditions.CheckMeans | intelliguard/runtime/hooks.py:362-383 | what an entry asks of a run, key by key: the wanted value is the run's, or is a list with it in it; a key the context does not have only goes with a wanted null; min_risk_score with a number up to 0, and what is no number raises |
| RunConditions.CheckAllMeans | intelliguard/runtime/hooks.py:362-375 | several entries hold iff all are met; they fail iff one is not met and those before it are |
| RunConditions.GateMeans | intelliguard/runtime/hooks.py:51-86 | on the fields of deployment and run: the first hook of the point before the workflow that is not approved and has no unmet entry decides by its action, or raises; without one the gate is open |
| RunConditions.OneCondition | intelliguard/runtime/hooks.py:362-383 | a deployment whose only hook has one entry stops a run iff the run has what the entry wants under its key, for each of the eight keys and any other |
| RunLog.OrderedAppend | intelliguard/workers/runtime.py:37-122 | which event may come next in a log that is a prefix of (started paused approved)* started (end or paused denied) |
| RunLog.StageIsLooseLog | intelliguard/workers/runtime.py:37-122 | setting approvals aside, a log is in (started paused)* started (end or paused denied), or a prefix, iff reading it from its end never breaks; and what the reading then says |
| RunLog.OrderedLogStatus | intelliguard/runtime/hooks.py:135-153 | in an ordered log the last event alone tells the status of the run |
| RunPreservedApproval.StepKeepsInv | intelliguard/persistence/store.py:1022-1068 | every store transaction keeps the invariant and touches one run, a resolution if the review is pending and its pause announced |
| RunPreservedApproval.ExecutionKeepsInv | intelliguard/persistence/store.py:1022-1068 | so does every interleaving of such transactions |
| RunCare.CarefulIsExact | intelliguard/persistence/store.py:2700-2708 | whoever is at work on the run, a step leaves every continuation with careful reviewers safe iff it does not resolve a review that is not pending or whose pause is not announced; two racing decisions on one review included |
| RunCare.LegalIffNeverDoomed | intelliguard/persistence/store.py:2700-2708 | the executions with careful reviewers are exactly those that never reach a state from which a careful continuation loses exclusion or the language of the logs |
| RunTheorems.ExclusionOverRuns | intelliguard/persistence/store.py:1022-1036 | in every state that careful reviewers let the protocol reach, no two workers hold one run, and no held run can be claimed |
| RunTheorems.LogsOverRuns | intelliguard/workers/runtime.py:37-122 | in every such state each log without its approvals is in its language, approvals follow their pauses once each, no review is both approved and denied, and a run at rest has the status its log tells |
| RunGate.GateOverAllRuns | intelliguard/workers/runtime.py:64-92 | in every execution at all, however reviews are resolved: a runner executes a run only if resolutions of reviews of that run approved every hook of the point, up to where the gate opened, all of whose conditions the run meets |
| RunTheorems.OpenReviews | intelliguard/runtime/hooks.py:106-143 | which reviews of a run are open, whoever has the run in hand |
| RunTheorems.ReviewsOverRuns | intelliguard/runtime/hooks.py:106-143 | in every state that careful reviewers let the protocol reach, a run at rest has exactly one open review if it is in REVIEW and none otherwise; the approved ids a worker claimed are those in the store |
| RunOrdered.OrderOverRuns | intelliguard/workers/runtime.py:37-122 | if workers also announce a start only after the approvals of the run, each log is ordered and its last event tells the status of a run at rest |
| RunOrdered.OrderNeedsPatience | intelliguard/workers/runtime.py:56-61 | announcing a start keeps the log ordered iff no review of the run is approved in the queue while its log does not say so |
| RunOrdered.AlwaysOrderedIffPatient | intelliguard/workers/runtime.py:56-61 | of the executions with careful reviewers, those in which every log is ordered all the time are exactly those in which each start is announced under that condition |
| RunBounds.ClaimsOverRuns | intelliguard/persistence/store.py:1022-1036 | claims = 1 + approvals - [queued]; approved ids are distinct hooks of the deployment; a run is claimed at most once more than it has hook ids |
| RunBounds.RequeueShrinks | intelliguard/runtime/hooks.py:263-286 | an approval strictly shrinks the set of unapproved hook ids |
| RunBounds.StepShrinks | intelliguard/persistence/store.py:1022-1068 | every step on a run shrinks its measure |
| RunBounds.FreshMeasure | intelliguard/persistence/store.py:964-983 | the measure of a new run with n hook ids is 10 n + 9 |
| RunBounds.Progress | intelliguard/workers/runtime.py:37-170 | a run that has not ended and is not stuck at its gate has a next step |
| RunBounds.ApprovedRunsEndWell | intelliguard/runtime/hooks.py:324-342 | a run that has ended without a refused review was executed, handed over, or stopped by a block hook |
| RunBounds.MaximalRunsEndWell | intelliguard/workers/runtime.py:37-170 | an execution takes at most 10 n + 9 steps on a run with n hook ids; once none is left the run is stuck at its gate or has ended, and without a refused review it was executed, handed over or stopped by a block hook |
| RunKeys.KeysOverRuns | intelliguard/runtime/dispatcher.py:113-141 | with the unique index, however submits interleave, a deployment and key have one run and every submit that returns a run of the key returns that one |
| RunKeys.RaceWithoutIndex | intelliguard/persistence/store.py:954-983 | without the index, an interleaving of two submits of one key creates two runs |
| RunKeys.UniqueIffIndexed | intelliguard/persistence/store.py:954-983 | one run for each key over all executions iff the index exists |
| RunExactness.PendingIsResolvable | intelliguard/persistence/store.py:2700-2708 | while no worker is on the run, a review is resolvable iff it is pending |
| RunRaces.EarlyApprovalBreaksExclusion | intelliguard/runtime/hooks.py:106-143 | resolving reviews only while they are pending is not enough: approving one before the worker has written its pause leads to two workers on one run |
| RunRaces.OvertakenApprovalBreaksOrder | intelliguard/runtime/hooks.py:276-296 | a worker that claims a run before its approval is announced leads to a log out of order |
| RunRaces.ApprovedRunExecutes | intelliguard/runtime/hooks.py:106-143 | under both disciplines a run of any deployment whose gate pauses once is paused, approved and executed in some execution |
| RunRaces.OneHookPauses | intelliguard/runtime/hooks.py:51-86 | a deployment with one unconditional pause hook is such a deployment |
| RuntimeStore.GovernanceStore.FirstQueued | intelliguard/persistence/store.py:1024-1031 | the select of a claim gives the oldest queued run, or none iff no run is queued |
| RuntimeStore.GovernanceStore.ClaimNextQueued | intelliguard/persistence/store.py:1022-1036 | a claim sets the oldest queued run to RUNNING and nothing else |
| RuntimeStore.GovernanceStore.UpdateStatus | intelliguard/persistence/store.py:1038-1068 | the new row for each status, or nothing for an unknown run |
| RuntimeStore.GovernanceStore.Requeue | intelliguard/runtime/hooks.py:276-286 | the row after an approval: queued, with the new approved ids and no completion time |
| RuntimeStore.GovernanceStore.AddOutboxEvent | intelliguard/persistence/store.py:1070-1087 | the event is appended to the log of its run |
| RuntimeStore.GovernanceStore.AddReviewItem | intelliguard/persistence/store.py:2527-2556 | a new pending review item |
| RuntimeStore.GovernanceStore.ResolveReviewItem | intelliguard/persistence/store.py:2700-2708 | the status is written whatever it was |
| RuntimeStore.GovernanceStore.FindByKey | intelliguard/persistence/store.py:1008-1020 | the newest run of a deployment and key, or none iff there is none |
| RuntimeStore.GovernanceStore.CreateRuntimeRun | intelliguard/persistence/store.py:948-983 | an existing run of the key, an index error, or a new queued row |
| RuntimeWorkers.RuntimeHookManager.Evaluate | intelliguard/runtime/hooks.py:51-211 | the gate, and the review item, status and event it leaves in the tables |
| RuntimeWorkers.RuntimeWorker.RunOnce | intelliguard/workers/runtime.py:37-122 | an undisturbed pass takes the oldest queued run and leaves the tables that the steps of the protocol leave, or an exception where the source lets one through |
| RuntimeWorkers.RuntimeWorker.Process | intelliguard/workers/runtime.py:56-170 | the tables after start, gate, execution or Temporal start |
| RuntimeWorkers.PassSafe | intelliguard/workers/runtime.py:37-122 | a pass over any queued run in a state of the invariant keeps it, and the state after it is safe |
| RuntimeWorkers.RuntimeReviewResumeService.Approve | intelliguard/runtime/hooks.py:251-302 | the hook is added once, the run queued again and the approval announced |
| RuntimeWorkers.RuntimeReviewResumeService.Deny | intelliguard/runtime/hooks.py:304-348 | the run is blocked and the denial announced |
| RuntimeWorkers.RuntimeReviewResumeService.ResolveReview | intelliguard/api/main.py:1394-1429 | an undisturbed resolution leaves the tables that its protocol steps leave |
| RuntimeWorkers.RuntimeRunDispatcher.Submit | intelliguard/runtime/dispatcher.py:95-141 | an undisturbed submit fails for an unknown deployment or an active run, returns a finished run, or takes its protocol steps |
| WorkflowGraph.VocabularySound | intelliguard/workflows/graph.py:8-29 | node types are words that are no legacy names, and the defaults are among the allowed words |
| WorkflowGraph.NormalizeNodes | intelliguard/workflows/graph.py:87-153 | the node loop gives the nodes of the specification or its first error, and fails without a lead node |
| WorkflowGraph.NormalizeEdges | intelliguard/workflows/graph.py:156-223 | the edge loop gives the edges of the specification or its first error |
| WorkflowGraph.NormalizeWorkflowGraph | intelliguard/workflows/graph.py:59-84 | nodes and edges of the payload, its steps or its visual connections |
| GraphReference.NormalizationMeans | intelliguard/workflows/graph.py:59-284 | a payload normalises to a graph iff the graph is that of its raw nodes and edges, or of those made up for its steps or connections, each written out word by word; every refusal included |
| GraphReference.NodesMean | intelliguard/workflows/graph.py:87-153 | the node loop gives a list iff each node is its raw node with nine fields written (canonical type, defaults, texts), every raw node is admitted and the ids differ |
| GraphReference.EdgesReference | intelliguard/workflows/graph.py:188-223 | the edge loop gives a list iff every raw edge leads from a node to another that is not the lead, and the list has the first of each name, in order |
| GraphReference.NodeInputsMean | intelliguard/workflows/graph.py:87-97 | without nodes in the payload there is a node for the lead agent and one for each step, field by field |
| GraphReference.EdgeInputsMean | intelliguard/workflows/graph.py:156-187 | without edges there is one for each connection of the editor, from its from to its to, or else one from the lead to each step |
| WorkflowGraphLaws.NodesFixedIffNormal | intelliguard/workflows/graph.py:87-153 | node lists that normalisation leaves alone are exactly those of normal nodes with unique ids |
| WorkflowGraphLaws.EdgesFixedIffNormal | intelliguard/workflows/graph.py:156-223 | edge lists that normalisation leaves alone are exactly those of valid edges with unique ids |
| WorkflowGraphLaws.NormalizedIsNormal | intelliguard/workflows/graph.py:59-223 | every normalised graph is normal: unique ids, registered types, known distinct endpoints, no edge into the lead |
| WorkflowGraphLaws.NormalizeTwice | intelliguard/workflows/graph.py:59-223 | normalising again gives the same graph iff a non-empty edge list without any dict did not hide the edges the payload would otherwise get |
| GraphExamples.HiddenFallback | intelliguard/workflows/graph.py:156-176 | a payload whose edge list is one null: no edges after the first pass, another graph after the second |
| GraphExamples.DictsNormalizeOnce | intelliguard/workflows/graph.py:59-223 | for lists of dicts, which is what the API takes, normalising twice is normalising once |
| WorkflowGraphLaws.NodesKeep | intelliguard/workflows/graph.py:133-148 | each node is its raw node with nine fields written and every other field kept |
| WorkflowGraphLaws.EdgesKeep | intelliguard/workflows/graph.py:206-221 | every raw edge is represented by the first one with its id, and there is nothing else |
| WorkflowEvaluators.CheckGraphDefined | intelliguard/evaluation/workflow_evaluators.py:48-67 | fails iff there is no lead node |
| WorkflowEvaluators.CheckNodeTypes | intelliguard/evaluation/workflow_evaluators.py:70-113 | the three lists hold exactly the offending nodes, and the check passes iff all are empty |
| WorkflowEvaluators.CheckEdges | intelliguard/evaluation/workflow_evaluators.py:116-155 | the list holds exactly the invalid edges; the check fails iff there is one, or several nodes and no edge from the lead |
| WorkflowEvaluators.Evaluate | intelliguard/evaluation/workflow_evaluators.py:11-20 | the certification decision over the five checks is CERTIFIED iff the graph is certifiable |
| WorkflowEvaluators.CertifiableMeans | intelliguard/evaluation/workflow_evaluators.py:48-189 | read off the fields: a lead node, every node of a known type under which its agent is registered and certified, every edge between two nodes and not into the lead, and an edge from the lead if there are several nodes |
| WorkflowEvaluators.Decide | intelliguard/evaluation/certification.py:28-33 | FAILED iff some result is FAIL |
| WorkflowEvaluators.NormalGraphPasses | intelliguard/evaluation/workflow_evaluators.py:70-155 | a normal graph has a lead node and no invalid edge; its node types pass iff its agents are registered under canonical types |
| WorkflowEvaluators.NormalGraphCertifiable | intelliguard/evaluation/workflow_evaluators.py:11-20 | when a normal graph is certifiable |
| ManifestCompiler.Rebuild | intelliguard/runtime/native_runner.py:59-109 | the loop gives a step for every node but the lead |
| ManifestCompiler.LeadMeans | intelliguard/runtime/native_runner.py:65-68 | the lead of a manifest is its first lead_agent node, or its first node if it has none |
| WorkflowRouting.WorkflowConnections | intelliguard/workflows/customer_support.py:29-95 | valid edges, or visual connections, the first of each joined name; otherwise a fan-out |
| WorkflowRouting.IncomingConnections | intelliguard/workflows/customer_support.py:98-108 | the sources of each target, in order |
| WorkflowRouting.LeadRouting | intelliguard/workflows/customer_support.py:646-702 | selected, skipped and required steps, and the used connections |
| RoutingReference.StepsMean | intelliguard/workflows/customer_support.py:610-643 | each step of any definition has its own fields, those of the last node of its id, and the defaults for type, policy and stage |
| RoutingReference.ConnectionsMean | intelliguard/workflows/customer_support.py:29-95 | the connections of any definition, from its edges, its editor or its steps: ends, ids and conditions field by field, and which are dropped |
| RoutingReference.SelectedAct | intelliguard/workflows/customer_support.py:646-712 | the selected steps are those whose policy is not conditional, that have no keywords, or one of whose keywords occurs in the query, in order |
| RoutingReference.HandoffsMean | intelliguard/workflows/customer_support.py:677-687 | a connection is reported as used iff its target is selected and its source is the lead or selected |
| DeployedGraph.NormalGraphCompiles | intelliguard/runtime/manifest_compiler.py:110-162 | a normal graph compiles iff it is certified, holds no secret and no node has a runtime or metadata entry that is no dict |
| DeployedGraph.DeployedSteps | intelliguard/runtime/native_runner.py:59-81 | the steps of the deployed workflow are the nodes of the graph other than the lead, in order, each with the agent, type, tools, runtime and metadata of its node and the tool and arguments of its runtime; activation settings are lost; the lead agent is that of the lead node |
| DeployedGraph.ByNameIsByEnds | intelliguard/workflows/customer_support.py:75-87 | keeping the first connection of each joined name is keeping the first of each pair of endpoints iff no two different pairs have the same joined name |
| DeployedGraph.DeployedConnections | intelliguard/workflows/customer_support.py:29-95 | the connections of a deployed workflow are the edges that do not touch a lead node of another id than lead, the first of each name |
| DeployedGraph.DeployedHandoffs | intelliguard/workflows/customer_support.py:677-687 | every connection of a deployed workflow is reported as used |
| DeployedGraph.PackagedKeepsGraph | intelliguard/runtime/native_runner.py:59-109 | what the engine reads of any manifest compiled from a normal graph with edges: lead agent, steps, connections and handoffs in terms of the graph |
| DeployedGraph.DeploymentKeepsGraph | intelliguard/runtime/native_runner.py:59-109 | from payload to engine: the same lead agent, all other nodes selected in order with their fields, all connections used, and the connections are the edges deduplicated by endpoints iff joined names tell them apart |
| DeployedGraph.ArrowFreeGraphSurvives | intelliguard/workflows/customer_support.py:75-87 | if no node id contains the arrow, the connections are the edges deduplicated by endpoints |
| GraphExamples.ArrowEdgeLost | intelliguard/workflows/customer_support.py:75-87 | a certifiable graph with nodes a, a->b, b->c and c: its three edges survive normalisation and one of them is lost in deployment |
| GraphExamples.BossEdgeLost | intelliguard/runtime/native_runner.py:59-81 | a certifiable graph whose lead agent has the node boss: the edge of that node is lost in deployment |
| WorkflowSessions.SessionLinks.LinkSession | intelliguard/persistence/store.py:2319-2361 | an existing link is kept; a new one gets the next sequence number |
| WorkflowSessions.RunSteps | intelliguard/workflows/customer_support.py:361-517 | the step loop leaves the links and results of the specification; a step whose tool raises is linked and has no result; the links form a tree either way |
| WorkflowSessions.RunIsTree | intelliguard/workflows/customer_support.py:361-419 | the links of a run form a tree rooted at the lead session, numbered 1..n; the parent of a link is the last earlier link of the step that the first connection into it from a step that ran earlier comes from, and the lead session iff there is no such connection |
| WorkflowSessions.RunFollowsSteps | intelliguard/workflows/customer_support.py:361-517 | each step with an agent gets one link and one result, in order; its decision is that of its tool, or the highest so far |
| WorkflowSessions.TreeReachesLead | intelliguard/workflows/customer_support.py:368-373 | following parents from any session goes down to the lead session |
| WorkflowSessions.FinalIsToolJoin | intelliguard/workflows/customer_support.py:478-522 | the final decision is BLOCK iff a tool step was blocked, REVIEW iff none was and one is to be reviewed |
| WorkflowSessions.NonToolDecision | intelliguard/workflows/customer_support.py:478-497 | a step without a tool decides the highest decision of the tool steps before it |
| WorkflowSessions.NonToolStepsDoNotMatter | intelliguard/workflows/customer_support.py:478-522 | inserting or removing a step without a tool does not change the final decision |
| ControlTheorems.ServeGood | intelliguard/persistence/store.py:580-863 | every API request keeps lineage, fresh certifications, provenance and activation |
| ControlTheorems.ServeAllGood | intelliguard/persistence/store.py:580-863 | so does every sequence of requests from the empty tables |
| ControlLaws.LineageOverRuns | intelliguard/persistence/store.py:678-740 | the definitions of a root carry exactly the numbers 1..n, predecessors are of the root and smaller, and the version table says what the definitions say |
| ControlLaws.LockedForGood | intelliguard/persistence/store.py:742-762 | a locked definition keeps configuration, graph and graph hash in any continuation, stays locked, and changes status at most five times |
| ControlLaws.TransitionIff | intelliguard/persistence/store.py:742-762 | a move is accepted iff it is one of thirteen pairs of statuses; it leads where it says and locks what leaves review |
| ControlLaws.StatusMoves | intelliguard/persistence/store.py:82-98 | no other request changes a status, and a new definition is a draft |
| ControlPosts.PostAccepted | intelliguard/persistence/store.py:580-606 | a post is accepted iff every agent it names is registered, its metadata is a dict or empty, its graph normalises, and the definition is unlocked and in DRAFT or IN_REVIEW |
| ControlPosts.PostStores | intelliguard/persistence/store.py:600-676 | an accepted post is stored field by field: environment, lead agent, steps, domain, bindings, rules, metadata, graph and graph hash; the line stays, a certification becomes stale, no other definition changes |
| ControlPosts.LastPostStored | intelliguard/persistence/store.py:580-740 | over every request sequence a definition has the fields of the post last accepted on it, or on the definition it was made a version of |
| ControlLaws.CertifiedIsFresh | intelliguard/api/main.py:983-1058 | a certified record has the hash of the current configuration, and that configuration passed the evaluators |
| ControlSplit.SplitEvaluationFreshIff | intelliguard/api/main.py:983-1058 | whatever happens between the read and the last write of an evaluation, the record it certifies is fresh iff no post on the definition was accepted in between or the last one left what was read |
| ControlSplit.StartedRunsGood | intelliguard/api/main.py:983-1058 | from the empty tables, over every interleaving of requests and evaluations that certify only what they read, lineage, freshness, provenance and activation hold |
| ControlSplit.GuardIsExact | intelliguard/api/main.py:1047-1058 | a write or request keeps those laws iff it is no certification of a configuration that was replaced meanwhile |
| ControlSplit.UndisturbedIsAtomic | intelliguard/api/main.py:983-1058 | an evaluation with nothing in between leaves what the atomic one leaves |
| ControlSplitExample.UnevaluatedDeployment | intelliguard/api/main.py:784-850 | from the empty tables, post, read, begin, edit, finish and deploy leave a revision compiled from a configuration that no evaluation certifies |
| ControlSplitDeploy.SplitDeploymentCertifiedIff | intelliguard/api/main.py:797-804 | whatever happens between the two reads of a deployment, the certificate it finds is of the configuration it deploys iff no post on the definition was accepted in between or the last one left what was read |
| ControlSplitDeploy.StartedDeploysGood | intelliguard/api/main.py:784-850 | from the empty tables, over every interleaving of requests, evaluations and deployments that certify and deploy only what they read, all those laws hold |
| ControlSplitDeploy.UndisturbedDeployIsAtomic | intelliguard/api/main.py:784-850 | a deployment with nothing in between leaves what the atomic one leaves |
| ControlSplitExample.OldConfigurationDeployed | intelliguard/runtime/manifest_compiler.py:120-121 | from the empty tables, a definition edited and certified between the two reads is deployed in its old configuration, which no evaluation certifies, and provenance is broken |
| ControlLaws.RevisionsRunCertifiedGraphs | intelliguard/api/main.py:784-850 | every revision was compiled from a configuration that passed the evaluators, and its engine runs that configuration's lead agent, nodes (agents, tools, arguments) and edges |
| ControlLaws.ActivationOverRuns | intelliguard/persistence/store.py:830-853 | at most one active revision of a workflow and environment; an active production revision has a run with at least one case and all passed |
| ControlPosts.RevisionsRunWherePosted | intelliguard/runtime/scenario_evaluator.py:123-129 | every revision runs in the environment its definition was last posted with when it was deployed; posted to production, it is active only after a reported scenario run on it with a case and every case passed |
| ControlLaws.RetiredForGood | intelliguard/persistence/store.py:830-853 | no request brings a retired revision back or changes a manifest |
| ControlTheorems.VerdictIsAll | intelliguard/runtime/scenario_evaluator.py:68-70 | a suite passes iff it has a case and every case passed |
| ControlTheorems.NextNumber | intelliguard/persistence/store.py:2884-2890 | the next number of a root exceeds every number under it by one |
| ControlStore.DefinitionStore.SyncVersion | intelliguard/persistence/store.py:2892-2933 | the version row of a definition after synchronisation |
| ControlStore.DefinitionStore.EnsureWorkflowLineage | intelliguard/persistence/store.py:2870-2882 | missing root, label and number are filled in |
| ControlStore.DefinitionStore.InvalidateCertification | intelliguard/persistence/store.py:2194-2205 | any other certification than a draft or stale one becomes stale |
| ControlStore.DefinitionStore.UpsertWorkflowDefinition | intelliguard/persistence/store.py:580-676 | the store after a post: a new or edited definition, synchronised, or nothing; ControlPosts says when and with what fields |
| ControlStore.DefinitionStore.MaxVersionNumber | intelliguard/persistence/store.py:2884-2890 | the largest number under a root |
| ControlStore.DefinitionStore.CreateWorkflowDefinitionVersion | intelliguard/persistence/store.py:678-740 | the new draft, with its source in the metadata, and both version rows |
| ControlStore.DefinitionStore.TransitionWorkflowLifecycle | intelliguard/persistence/store.py:742-762 | the new status and lock, or nothing for a transition that is not allowed |
| ControlStore.DefinitionStore.EvaluateWorkflowDefinition | intelliguard/api/main.py:983-1058 | an undisturbed evaluation certifies iff the configuration is certifiable; its status check never fails |
| ControlStore.DefinitionStore.CreateWorkflowDeployment | intelliguard/api/main.py:784-850 | a packaged revision, or nothing without certification |
| ControlStore.DefinitionStore.ActivateWorkflowDeployment | intelliguard/persistence/store.py:830-853 | the revision becomes active and every other active one of its workflow and environment retired |
| ScenarioSuites.EvaluateCase | intelliguard/runtime/scenario_evaluator.py:84-120 | a finding is listed iff it is due, with what it names, each once and in the order of the checks |
| ScenarioSuites.NoFindingsIff | intelliguard/runtime/scenario_evaluator.py:84-120 | no finding is due iff the case meets all it expects |
| ScenarioSuites.RunSuite | intelliguard/runtime/scenario_evaluator.py:40-82 | counts, and a pass iff there is a case and every case meets what it expects |
| ControlStore.DefinitionStore.RunScenarioSuite | intelliguard/api/main.py:494-526 | a scenario run with these counts and this verdict, or nothing for an unknown deployment |
| RiskAssessment.AssessToolCall | intelliguard/governance/detectors.py:70-258 | a finding is listed iff it is due by the table of risks, conditions and scores; the score is the highest, the decision that of the thresholds; a search whose filter is a non-empty value other than a dict raises |
| RiskAssessment.FoundIffDue | intelliguard/governance/detectors.py:84-248 | each risk with its condition on call, policy and failed calls, and its score |
| RiskAssessment.DecisionMeans | intelliguard/governance/policy.py:105-110 | a call is blocked iff a finding that is due reaches the block threshold, reviewed iff one reaches the other |
| RiskAssessment.CallsBlocked | intelliguard/governance/detectors.py:84-248 | blocked, ungranted and unlisted tools, blocked patterns and searches without a filter are blocked under thresholds not above their scores |
| RiskAssessment.MaxScoreIsMax | intelliguard/governance/detectors.py:250 | the score is that of a finding and no finding has a higher one |
| RiskAssessment.AllowedIff | intelliguard/governance/policy.py:105-110 | a call is allowed iff every score is below both thresholds |
| RiskAssessment.RepeatedIff | intelliguard/governance/detectors.py:239-248 | the finding of repeated failures is made from three failed calls on, and changes nothing below |
| ToolLedger.ToolCallStore.CountFailedToolCalls | intelliguard/persistence/store.py:2558-2570 | the number of BLOCK and REVIEW rows of the session |
| ToolLedger.ToolCallStore.GetByIdempotencyKey | intelliguard/persistence/store.py:2443-2456 | the newest row of a key |
| ToolLedger.ToolCallStore.AddToolCall | intelliguard/persistence/store.py:2416-2441 | the row is appended unless its key is taken |
| ToolLedger.GovernedToolRunner.EvaluateToolCall | intelliguard/governance/runner.py:89-142 | the pre-tool decision under the mode, and the row of a refusal |
| ToolLedger.GovernedToolRunner.CallTool | intelliguard/governance/runner.py:144-269 | rows and outcome of a call in every branch |
| ToolLedger.CallMeans | intelliguard/governance/runner.py:144-208 | a keyed write call with a stored row is replayed; any other call is refused iff its findings reach a threshold and guardrails are not disabled, as REVIEW in review mode; the tool runs otherwise |
| ToolLedger.CompletionMeans | intelliguard/governance/runner.py:209-269 | the row a completed call leaves, under its key only if the tool writes, with the decision on its result; the index error iff the key is taken |
| ToolLedger.RatchetStep | intelliguard/governance/runner.py:463-523 | after three failed calls a guarded call that is no replay is refused and adds exactly one failed row, unless its assessment raises |
| ToolLedger.RatchetIff | intelliguard/governance/detectors.py:239-251 | a call that is otherwise allowed is refused after three failures iff a threshold is at most 55 and its assessment does not raise |
| ToolLedger.RatchetForGood | intelliguard/governance/runner.py:126-175 | over any sequence of calls: every guarded call of the session is refused or replayed, or its assessment raises, so that no tool runs any more, and each refusal adds one failed row |
| ToolLedger.LaterCallsReplay | intelliguard/governance/runner.py:153-163 | once a keyed write call has completed, every later write call of its key replays the row it stored |
| ToolLedger.CompletesAtMostOnce | intelliguard/governance/runner.py:153-227 | a write tool completes at most once for a key that is not empty |
| ToolLedger.ReplayAgreesIff | intelliguard/governance/runner.py:245-312 | a replay tells what the first call told iff the result check was ALLOW, or a BLOCK of a result that is None |
| ToolLedgerExamples.ReplayOfReview | intelliguard/governance/runner.py:245-312 | a call whose result was held for review is answered ALLOW, its repetition REVIEW |
| ToolLedgerExamples.ReplayOfBlock | intelliguard/governance/runner.py:209-312 | a call whose result was withheld hands it over when it is repeated |
| ToolLedger.EmptyKeyRunsAgain | intelliguard/governance/runner.py:217-227 | with an empty key a second call that is let through runs the tool again and then fails on the index |
| ToolLedgerExamples.EmptyKeyTwice | intelliguard/governance/runner.py:217-227 | two equal calls with the empty key that do so |
| KnowledgeIngestion.KnowledgeStore.ProcessPending | intelliguard/knowledge/indexing.py:234-293 | which documents are processed, how each ends, the new chunks, and the rows of the base and the new index version with counters equal to the sums over the indexed documents; with nothing due at most an empty index version |
| KnowledgeIngestion.KnowledgeStore.ReplaceChunks | intelliguard/persistence/store.py:3685-3713 | the chunks a document has in a version are replaced |
| KnowledgeIngestion.KnowledgeStore.RefreshIndexState | intelliguard/persistence/store.py:3751-3866 | counters, health, error and times of the base, and of the index version if one is given; nothing for an unknown one |
| KnowledgeIngestion.BaseCountAddsUp | intelliguard/persistence/store.py:3796-3819 | without an index version the chunk count is the sum over all index versions |
| KnowledgeIngestion.CountsAreSums | intelliguard/persistence/store.py:3763-3795 | the chunk count of the new version is the sum over its indexed documents, its document count the number of those with a chunk |
| KnowledgeIngestion.EarlierDocumentsDropOut | intelliguard/persistence/store.py:3763-3836 | documents indexed by earlier passes are not in the counters of a later one |
| EventStream.ListRuntimeOutboxEvents | intelliguard/persistence/store.py:1089-1109 | the first rows up to the limit, those after the cursor if it is among them |
| EventStream.Stream | intelliguard/api/main.py:1336-1346 | the polling loop emits what the polls list, up to the first that sees a final status |
| EventStream.StreamEmitsPrefix | intelliguard/api/main.py:1336-1346 | started without a cursor the stream emits exactly the first events, up to the limit, of the log its last poll listed, once each and in order |
| EventStream.StreamCompleteIff | intelliguard/api/main.py:1336-1346 | it emits all the events the run ends up with iff they fit into the limit and its last poll listed all of them |
| EventStreamRace.StreamMissesLastEvent | intelliguard/workers/runtime.py:104-121 | an execution of the protocol, for every deployment whose gate is open at once, in which a poll ends the stream before run.completed is written |
| EventStream.ResumeWithinLimit | intelliguard/api/main.py:1336-1346 | resumed at an event within the limit it emits what follows |
| EventStream.ResumeBeyondLimit | intelliguard/runtime/event_bus.py:32-39 | resumed elsewhere it starts over |
| EventStream.ResumeIffWithinLimit | intelliguard/persistence/store.py:1097-1108 | a poll repeats nothing before its cursor iff the cursor lies within the limit |
| EventStream.BeyondLimitNeverEmitted | intelliguard/persistence/store.py:1097-1108 | events beyond the limit are never emitted |

## Left out

- RunPreservedApproval.StepKeepsInv: asks that reviews are resolved only while they are pending and their pause is announced; the code does not ask it, and RunCare.CarefulIsExact proves that nothing less will do
- RunPreservedApproval.ExecutionKeepsInv: asks the same of every step; RunCare.LegalIffNeverDoomed says what other executions come to
- RunTheorems.ExclusionOverRuns: asks the same; without it exclusion fails (RunRaces.EarlyApprovalBreaksExclusion)
- RunTheorems.LogsOverRuns: asks the same, because a second decision on a review breaks the language of the log
- RunTheorems.ReviewsOverRuns: asks the same
- RunBounds.ClaimsOverRuns: asks the same, because a review approved twice queues its run twice
- RunBounds.StepShrinks: asks the same, because such an approval starts another round
- RunBounds.MaximalRunsEndWell: asks the same of its execution; a run stuck at its gate is one whose hook conditions raise or whose runtime no runner supports
- RunOrdered.OrderOverRuns: asks in addition that workers announce a start only after the approvals of the run; the code does not wait, and RunOrdered.AlwaysOrderedIffPatient proves that nothing less will do
- RunKeys.KeysOverRuns: asks for the unique index of migration 0003
- RunBounds.Progress: a run whose hook conditions raise, or whose runtime no runner supports, stays with its worker; the source lets the exception through
- RuntimeWorkers.RuntimeWorker.RunOnce: speaks of a pass no other request disturbs; interleavings are the subject of RunTheorems
- RuntimeStore.GovernanceStore.ClaimNextQueued: claims the oldest queued run; in RunProtocol a worker may claim any queued run, since locked rows are skipped
- WorkflowSessions.RunSteps: sessions are numbered in the order in which they are made instead of getting random ids
- ControlStore.DefinitionStore.UpsertWorkflowDefinition: the copy of the graph hash in the metadata is not repeated beside the column that holds it; names, descriptions, owners and triggers are not modelled
- ControlLaws.LineageOverRuns: requests on one definition carry a non-empty id, because no route takes an empty one
- ScenarioSuites.EvaluateCase: what the audit of a production run found is given; the code audits only results that carry a `runtime_run_id`, which the native runner's do not
- ControlSplitDeploy.SplitDeploymentCertifiedIff: asks that the laws hold when the certification is read, as they do over guarded events
- KnowledgeIngestion.KnowledgeStore.ProcessPending: the rows of sources, the error texts and the embedding model of an index version are not modelled
- columns of runs that no step of the protocol reads: decision, error, output payload, workflow id, timestamps beyond being set
- deployments are constant while runs are processed; a run of a deleted deployment appears only in RuntimeWorkers.RuntimeWorker.RunOnce
- evaluation runs and their criterion results, which no law reads
- requests that are cut off in the middle: in the protocol such a request never takes its next step
- hook conditions on attributes of the context object other than its fields, wanted values and items that are dicts or fractions (the empty dict equals the context's metadata), and number texts with spaces or underscores
- runs that Temporal has taken over, the LangGraph and Strands runners, and the model gateway's own outbox events
- the text of errors, reasons and evidence, and the labels and payloads of workflow and audit events
- the snapshots, limits, hooks and provenance metadata of a manifest, its worker pool, and which values look like secrets (given)
- host functions: case folding, regular expressions, integer parsing and hashing are given or injective functions; str() of a list or dict is a text it carries
- certification of agents before they may be used in a definition, permissions and environments
- embeddings, parsers and file access
- requests, responses, the dashboard, monitoring, budgets, seed data and migrations
