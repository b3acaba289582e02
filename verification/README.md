# DeterminFlow: verified models

DeterminFlow runs language-model agents and workflows. This project models the four parts of
it whose logic is hardest to trust by reading, and proves what they promise:

* **Message history.** Two passes that repair a chat history so that a model API accepts it, a
  trimmer that cuts it to a token budget, and the loop between the model and the tools, which
  spends a budget of rounds. (`MessageHistory`, `StrictSanitizer`, `PairSanitizer`,
  `HistoryTrimmer`, `TrimLegality`, `AgentLoop`)
* **Extensions.** The depth-first dependency walk over an arbitrary graph, the load pass, the
  start and stop passes of the executor plane, the two further closure algorithms of plugin
  management, and the index of resource ids. (`DependencyGraph`, `ExtensionWalk`,
  `LoadOrder`, `ExtensionLoading`, `ExtensionManagement`, `ExecutorPlane`, `ExecutorRuns`,
  `PluginManagement`, `PluginAgreement`, `PythonStrings`, `ResourceIds`)
* **Plugin settings.** Checking against a schema, filling defaults, blanking passwords and
  putting them back. (`SettingsSchema`, `SettingsSecrets`, `PluginConfig`)
* **Session runtime.** Invocation, checkpoint, seal and write-back of a session; the token that
  allows a failed turn to be retried; the table of reference-counted locks; the cache of cold
  sessions; trees of sessions and their deletion; the token ledger; the matching of tool
  callbacks. (`SessionPersistence`, `RetryTurn`, `InvocationLocks`, `ColdSessions`,
  `SessionTree`, `TokenUsage`, `TokenLedger`, `ToolCallbacks`, `ToolMatching`)

`Sequences` and `Outcomes` are shared by the others.

## How it is built

Code that works by changing things step by step is a method or a class here: loops keep their
index sets, work lists and dictionaries, objects keep their fields. Each such method is proved
against a function or a predicate of values, and the theorems are lemmas about these. Protocols
of several tasks (`SessionPersistence`, `RetryTurn`, `InvocationLocks`) are state machines
whose steps interleave freely; their theorems hold for all runs.

Where a property fails, the model keeps the code as it is, states exactly when the property
holds, and has a lemma at an input on which it fails (named last in each entry):

* Trimming keeps a legal history legal exactly when what the cut leaves of a block is harmless
  (`TrimLegalIff`), which unique call ids ensure; the input is a history with a repeated id
  (`TrimNeedsUniqueIds`).
* A history is legal before a visit to the model, and after the run, exactly when it was legal
  at the start and every call made so far has a non-empty id (`LegalBeforeModel`,
  `FinishedRunIsLegal`); the input is a run with one call without an id
  (`CallWithoutIdStays`).
* Stopping after starting, also after a strict start that was broken off, gives all statuses
  back exactly when no hook raises and nothing that is registered was BLOCKED before
  (`StartStopRestores`); the input is a boot that blocks an entry point after registering it
  (`BlockedEntryPointIsNotRestored`).
* The load order is the desired closure, over whatever graph the closure is taken, exactly when
  everything desired is installed, or is configured and needed by something usable, and each
  side reaches in another way what only the other one sees a plugin depend on
  (`BootLoadsDesiredIff`). Directly after a boot, with packages that are readable having the
  manifests the boot went by, the two sides can differ at two kinds of plugins
  (`AgreeAfterBootIff`): those the boot cannot use, whose dependencies only the closure
  follows, and those that cannot be looked up, because their name is none a package may have
  or their package is being removed or unreadable, whose dependencies only the boot follows.
  The inputs are a configured plugin that is missing and not needed
  (`MissingPluginKeepsThemApart`), an installed plugin for another API version whose dependency
  is installed (`UnsoundPluginKeepsThemApart`), and an entry point with a name such as `My_Ext`
  that depends on an installed plugin (`UnlistedPluginKeepsThemApart`).
* Saving a displayed configuration keeps it exactly when it fits the current schema, a process
  can run with it, and only current passwords or empty values were blanked
  (`SavingTheDisplayIff`); the inputs are a plain string stored before paths were recorded
  (`LegacyStringIsLost`) and a key the schema no longer declares (`StaleKeyIsLost`).
* Dropping a session can lose its last state exactly when the file does not hold it or the
  write under way carries another one (`DroppingLosesIff`; `EvictionLosesIff` for sessions whose
  dirty bit is clear, as eviction asks). The inputs are a write that fails after the session is
  dropped (`EvictionCanLose`) and a change that was never marked (`UnmarkedCanLose`).
* A retry whose forced save fails can repeat a turn that has started a tool exactly when the
  disk still offers the turn (`FailedConfirmationIsHarmfulIff`, `HarmIsReachable`).
* A session just loaded keeps its place exactly when the dirty ones leave room
  (`NewcomerStaysIff`, `NewcomerCanBeDropped`).
* Deleting a tree never orphans anyone exactly when the root's parent is not one of its
  descendants (`NeverOrphansIff`); the input is a pair of sessions that are each other's parent
  (`ParentCycleOrphans`).
* Callbacks with call ids find their slots and runs in every interleaving exactly when no two
  slots share an index (`CallbacksMatchIff`, `AllEndedIff`); the input is a response whose calls
  have index 1 and no index (`PositionsCollide`).

Conventions: dictionaries are maps, or sequences where their order is used; the model, the
tools, hooks, imports and disk writes are parameters that say what they return or whether they
fail; ghost variables only record history for the proofs.

## Model

| member | source | states |
|---|---|---|
| MessageHistory.BlockWFIsLegal | src/core/utils.py:112-127 | a history is legal for the API (every message with calls is followed at once by a tool block answering exactly its ids, and tool messages stand nowhere else) if and only if the block-by-block recursion accepts it |
| MessageHistory.LegalSuffix | src/core/utils.py:268-284 | a legal history cut anywhere, even inside a tool block, is a run of tool messages followed by a legal history |
| MessageHistory.LegalIdsMatch | src/core/utils.py:64-109 | in a legal history the called and the answered ids are the same set |
| StrictSanitizer.ScanBlock | src/core/utils.py:141-157 | the inner scan finds exactly the tool block behind a caller, the needed ids it answers and their indices |
| StrictSanitizer.MarkIndices | src/core/utils.py:131-169 | the index sets the first loop collects make the rebuilding loop produce the block-by-block repair |
| StrictSanitizer.SanitizeStrict | src/core/utils.py:112-185 | the two index-set loops together compute the recursive repair |
| StrictSanitizer.RepairIsLegal | src/core/utils.py:112-185 | the strict repair gives a block-well-formed history for every input |
| StrictSanitizer.RepairFixedPoints | src/core/utils.py:112-185 | legal histories are exactly the fixed points of the strict repair, which is idempotent |
| StrictSanitizer.RepairKeepsSpeech | src/core/utils.py:171-185 | the non-tool messages with text keep their text, roles and order |
| StrictSanitizer.RepairKeepsAnsweredCallers | src/core/utils.py:137-185 | the repair is minimal: calls survive on exactly those messages whose own block answers all of them |
| StrictSanitizer.RepairKeepsAnswers | src/core/utils.py:137-185 | of the tool messages exactly those stay, in their order, that answer a call of such a message in its own block |
| PairSanitizer.SanitizePairs | src/core/utils.py:64-109 | the three passes over id sets compute the global repair |
| PairSanitizer.MendFixedPoints | src/core/utils.py:64-109 | the fixed points of the global repair are exactly the histories whose called and answered ids match wherever they stand; it is idempotent |
| PairSanitizer.LegalIsMended | src/core/utils.py:64-109 | every legal history, hence every result of the strict repair, is a fixed point of the global one |
| PairSanitizer.PairClosedIsNotLegal | src/core/utils.py:64-109 | the global repair alone does not make a history legal: a witness whose answer is not next to its call |
| PairSanitizer.MendKeepsSpeech | src/core/utils.py:85-109 | the global repair keeps all text said by anyone but a tool, in order |
| PairSanitizer.MendKeepsPairs | src/core/utils.py:64-109 | every caller whose calls are all answered somewhere stays, every tool message that answers such a caller, and every message of others, each as often as it was; all other callers and tool messages go |
| HistoryTrimmer.FindCandidateStart | src/core/utils.py:256-267 | the backward search finds the position behind the last assistant message that holds a summary |
| HistoryTrimmer.KeepTail | src/core/utils.py:274-284 | the backward loop keeps the run of messages from the end that the remaining budget allows |
| HistoryTrimmer.TrimMessages | src/core/utils.py:233-291 | within the budget all that is said stays, and the history itself when called and answered ids match; over it the same holds of system messages, checkpoint and kept tail together; the result always has matching ids |
| HistoryTrimmer.CheckpointIsLast | src/core/utils.py:256-272 | the checkpoint is the last message with a summary, the candidates are what stands behind it |
| HistoryTrimmer.SummaryIff | src/core/utils.py:261-265 | a summary is an opening tag with a closing one somewhere behind it |
| HistoryTrimmer.SystemsAreAll | src/core/utils.py:252 | the system messages are all kept, in their order, and nothing else with them |
| HistoryTrimmer.OthersAreAll | src/core/utils.py:268-272 | all other messages of the rest are candidates, in their order |
| HistoryTrimmer.EstimateRounds | src/core/utils.py:49-61 | the estimate rounds two thirds of a token for each Chinese character and a quarter for each other one down and adds one; the empty text costs nothing |
| HistoryTrimmer.KeptIsLongestFit | src/core/utils.py:274-284 | before repair the kept tail is the longest suffix behind the checkpoint that fits the budget left |
| HistoryTrimmer.TrimBudget | src/core/utils.py:233-291 | the content returned costs at most the budget, or what the system messages and the checkpoint cost alone |
| HistoryTrimmer.TrimProvenance | src/core/utils.py:233-291 | the result is the system messages, the checkpoint with its text, and messages from behind it, none of which has gained calls |
| TrimLegality.TrimLegalIff | src/core/utils.py:233-291 | trimming keeps a legal history legal exactly when the tool messages the cut leaves in front answer no call that survives elsewhere |
| TrimLegality.TrimPreservesLegality | src/core/utils.py:233-291 | with no call id used by two messages, trimming keeps a legal history legal wherever the cut falls |
| TrimLegality.TrimNeedsUniqueIds | src/core/utils.py:233-291 | a legal history with a repeated call id is trimmed to an illegal one |
| AgentLoop.CallModel | src/core/graph_builder.py:143-207 | the first request is the repaired history, or its micro compaction when it does not fit; after a malformed answer the oldest round goes, after an overflow tool results are cut or else the oldest round goes; it gives up only when no retry is left or nothing changes, and a compressor never retries |
| AgentLoop.LlmNode | src/core/graph_builder.py:85-243 | the model sees the repaired history; the history is extended by the text and calls of its last answer: without calls nothing is spent, with calls one round, and in the last round the calls are dropped and the text stays or the note stands in |
| AgentLoop.RoundsSpent | src/core/graph_builder.py:209-243 | after k passes through the tools exactly k rounds are spent, and at least one is left |
| AgentLoop.RunIsBounded | src/core/graph_builder.py:209-243 | every run is finite: with R rounds at most max(0, R - 1) visits to the tools |
| AgentLoop.GuardNeverRejects | src/core/tool_guard.py:46-71 | the rounds guard never rejects a call of a run |
| AgentLoop.AnswerOfCall | src/core/tool_guard.py:46-71 | a call is answered by its tool while rounds are left and refused otherwise |
| AgentLoop.NoCallLeftPending | src/core/graph_builder.py:31-66 | the edge that ends a run with calls pending is never taken; the last message of a finished run has no calls |
| AgentLoop.LegalBeforeModel | src/core/graph_builder.py:289-306 | the history is legal before a visit to the model exactly when it was legal at the start and every call the model has made so far has a non-empty id |
| AgentLoop.FinishedRunIsLegal | src/core/graph_builder.py:289-306 | a finished run leaves a legal history exactly when it began with one and every call made in it has a non-empty id |
| AgentLoop.FinishedRunIsClean | src/agent/session.py:2118-2126 | after a finished run that began with matching called and answered ids, empty ones included, the final clean-up is the identity |
| AgentLoop.TrimmedTurnIsClean | src/agent/session.py:1569-1582 | a turn that begins with trimming, from any history and budget, ends with nothing to clean up, and legal exactly when it was trimmed to a legal history and every call has a non-empty id |
| AgentLoop.CallWithoutIdStays | src/agent/session.py:2118-2126 | a finished run with a call without an id leaves an illegal history that the clean-up does not change |
| AgentLoop.RunGraph | src/core/graph_builder.py:289-311 | executing the graph gives a run, finished or broken off by a model that gave up, in which every model visit appends the answer to its last request and every tools visit the answer of each call by its tool, in order |
| DependencyGraph.ReachedIsClosure | src/extension_host/manager.py:382-455 | a closed set of reached nodes that holds the roots is the set of reached nodes |
| DependencyGraph.AcyclicIffRanked | src/extension_host/manager.py:382-455 | having no cycle and having an order in which dependencies come first are the same |
| ExtensionWalk.AddStub | src/extension_host/manager.py:397-410 | a missing dependency gets a stub record and no place in the order |
| ExtensionLoading.LoadDecision | src/extension_host/manager.py:465-551 | the pass over the load order decides LOADED for a node exactly when nothing is wrong with it or below it and none of it is on a cycle |
| ExtensionLoading.ConfiguredStubIsSound | src/extension_host/manager.py:364-380 | a configured plugin that is not installed counts as sound and without dependencies, so that it is ordered and loaded when another depends on it |
| ExtensionLoading.LoadedClosedAndOrdered | src/extension_host/manager.py:465-551 | the dependencies of a LOADED extension are LOADED and earlier in the load order, and it lies on no cycle |
| ExtensionLoading.AllLoadedIff | src/extension_host/manager.py:465-551 | everything requested and reachable is LOADED exactly when all of it is healthy and none of it lies on a cycle |
| ExtensionManagement.ExtensionManager.ImportEntryPoint | src/extension_host/manager.py:326-339 | importing succeeds exactly without an entry point or with one that brings the own id, and then replaces the manifest and registers the extension |
| ExtensionManagement.ExtensionManager.Visit | src/extension_host/manager.py:387-450 | one visit keeps the records right and finishes, depth first and in the order dependencies are listed, what it reaches; it is refused, in strict mode only, when something below is missing, unsound or on a cycle |
| ExtensionManagement.ExtensionManager.ResolveDependencies | src/extension_host/manager.py:382-455 | the walk finishes exactly the reachable nodes on any graph, cyclic ones included, and the load order is that of the depth-first walk from the configured ids in their order |
| LoadOrder.EarlierRootsFirst | src/extension_host/manager.py:452-455 | what earlier configured ids reach comes first: later ones only add to the end of the order |
| LoadOrder.VisitedAllConcat | src/extension_host/manager.py:445-455 | a walk through a list of ids is the walk through its front, and then through its rest with what has been met |
| LoadOrder.VisitedLast | src/extension_host/manager.py:445-449 | a node is finished right behind all that its dependencies, visited as listed, have finished |
| ExtensionManagement.ExtensionManager.DependencyError | src/extension_host/manager.py:556-574 | a dependency without the required status, if there is one |
| ExtensionManagement.ExtensionManager.LoadAndRegister | src/extension_host/manager.py:465-551 | after the load pass an id of the order keeps DEGRADED, is BLOCKED when a dependency is not LOADED in the end, and otherwise is LOADED or DEGRADED as it registers or not; the LOADED ones are exactly the ordered ones that are well-founded, and nothing outside the order changes |
| ExtensionManagement.ExtensionManager.LoadOne | src/extension_host/manager.py:466-551 | one step of the pass, with what it registers and what it takes back |
| ExtensionLoading.ReadyIsFinal | src/extension_host/manager.py:465-478 | a dependency that is not LOADED when it is asked for is not LOADED in the end either, cycles included |
| ExtensionManagement.ExtensionManager.ResolveEnabled | src/extension_host/manager.py:341-380 | the configured ids that are installed, repeated entries dropped before the space around them is; refused when an entry is blank, and in strict mode when one is unknown; unknown ones get stubs otherwise |
| ExtensionLoading.ConfiguredMayRepeat | src/extension_host/manager.py:358-361 | a configuration whose entries differ only in space asks for one id twice, whichever id it is |
| Sequences.DeduplicatedKeepsOrder | src/extension_host/manager.py:358 | of equal entries the first one stays, and the order of the others |
| ExtensionManagement.ExtensionManager.Boot | src/extension_host/manager.py:191-233 | after start-up an extension is LOADED exactly when it is reachable and everything below it is healthy and off cycles; every other status, the manifests and the load order are given as well; a lenient start-up fails exactly on a blank configured id; a strict one succeeds exactly when no id is blank or unknown and all that is reachable is healthy and off cycles |
| ExecutorPlane.Executor.constructor | src/extension_host/executor_plane.py:36-39 | a plane over a status map in which nothing runs |
| ExecutorPlane.Executor.DependenciesRun | src/extension_host/manager.py:556-574 | whether all dependencies are RUNNING |
| ExecutorPlane.Executor.Deactivate | src/extension_host/executor_plane.py:70-97 | an owner leaves all four owner sets; a stop hook that raises is reported |
| ExecutorPlane.Executor.StartOne | src/extension_host/executor_plane.py:51-68 | an extension runs exactly when its hook and its tool registration return, and owns a runtime exactly when it has a hook |
| ExecutorPlane.Executor.Start | src/extension_host/executor_plane.py:36-68 | each LOADED id it comes to runs, is degraded or is blocked as its hooks and dependencies say; a strict start stops behind the first one degraded and leaves the others LOADED; in every status map on the way the RUNNING set is closed under dependencies, and runtime owners are active |
| ExecutorPlane.Executor.Stop | src/extension_host/executor_plane.py:105-145 | what was active is LOADED again, or DEGRADED when its hook had been started and stopping raises; registered BLOCKED ids become LOADED, all others keep their status; owner sets are empty, and RUNNING is closed under dependencies at every moment |
| ExecutorRuns.BootedIsReady | src/extension_host/executor_plane.py:36-50 | what a boot leaves is what the start theorems ask for |
| ExecutorRuns.RunsIff | src/extension_host/executor_plane.py:36-68 | of what a start has come to, completed or broken off, a LOADED extension runs exactly when nothing in its dependency closure raises on starting, is DEGRADED exactly when only it raises itself, and BLOCKED exactly when something below does |
| ExecutorRuns.StrictStartIff | src/extension_host/executor_plane.py:36-68 | a strict start succeeds exactly when no LOADED extension raises on starting |
| ExecutorRuns.OthersRestored | src/extension_host/executor_plane.py:114-120 | an extension that was not LOADED keeps its status through start and stop, except that a registered BLOCKED one becomes LOADED |
| ExecutorRuns.StartStopRestores | src/extension_host/executor_plane.py:36-145 | start, completed or broken off, and then stop give the status map back exactly when no hook of a LOADED extension raises and no registered one was BLOCKED |
| ExecutorRuns.BlockedEntryPointIsNotRestored | src/extension_host/executor_plane.py:114-120 | a boot that leaves a registered entry point BLOCKED, which start and stop turn into LOADED |
| PluginManagement.Visit | src/extension_host/plugin_management.py:529-541 | one visit adds the plugin and what it reaches, and leaves nothing half explored |
| PluginManagement.DesiredEnabled | src/extension_host/plugin_management.py:525-545 | the desired set is exactly what the enabled list reaches |
| PluginManagement.DesiredGraphIff | src/extension_host/plugin_management.py:474-495 | whose dependencies the closure follows: those of the package of that very name, unless it is being removed or unreadable, else those of the running plugin; none under a name no package may have |
| PluginManagement.Requires | src/extension_host/plugin_management.py:552-569 | the work list finds the plugin exactly when a path of dependencies leads to it |
| PluginManagement.RequiredBy | src/extension_host/plugin_management.py:547-573 | the enabled plugins, other than itself, that need the plugin |
| PluginManagement.NormalIsReadBack | src/extension_host/plugin_management.py:497-518 | a list of distinct trimmed ids is read back as it was written |
| PluginManagement.ReadIsNormal | src/extension_host/plugin_management.py:497-518 | whatever is read is such a list |
| PluginManagement.ReadIs | src/extension_host/plugin_management.py:497-518 | no file is an empty list, a blank entry makes the file unreadable, and otherwise the ids are the entries without outer space |
| PluginManagement.EditedIsReread | src/extension_host/plugin_management.py:497-523 | what is read back after an edit, for any id: one with outer space comes back trimmed, or not at all when it is in the list already, and a blank one makes the file unreadable |
| PluginManagement.DesiredState.IsRequired | src/extension_host/plugin_management.py:547-573 | disabling is refused exactly when the closure of the list without the plugin still holds it |
| PluginManagement.DesiredState.SetEnabled | src/extension_host/plugin_management.py:272-284 | when it succeeds, what it stores, a new id at the end, and what is read back of it; for a trimmed id the plugin is afterwards in the desired closure just when it was switched on |
| PluginManagement.DesiredState.Uninstall | src/extension_host/plugin_management.py:237-270 | when it succeeds, with the record under the stripped name and the list under the name as given; a failure leaves the list readable as before unless restoring it fails too |
| PluginManagement.DesiredState.RestartRequired | src/extension_host/plugin_management.py:306-312 | a restart is called for exactly when the started set is not the desired closure, or something else has changed |
| PluginAgreement.OrderedIff | src/extension_host/manager.py:341-455 | the boot orders exactly what is reached from the configured and installed ids over usable plugins and is installed or configured |
| PluginAgreement.BootLoadsDesiredIff | src/extension_host/plugin_management.py:306-309 | in every valid world and for any graph of the closure the boot order, without duplicates, is the desired closure exactly when everything desired is installed or is configured and reached by the walk, and each side reaches in another way what only the other sees a plugin depend on |
| PluginAgreement.OrderedIsDesiredIff | src/extension_host/manager.py:411-455 | all that is ordered is desired exactly when what only the boot sees a plugin depend on is desired too, or not ordered |
| PluginAgreement.DesiredIsOrderedIff | src/extension_host/plugin_management.py:525-545 | all that is desired is ordered exactly when it is installed or is configured and reached by the walk, and the walk reaches what only the closure sees a plugin depend on |
| PluginAgreement.SoundPluginsAgreeIff | src/extension_host/plugin_management.py:306-309 | under the same assumption, when all ordered plugins that are installed are usable and can be looked up, the two sides agree exactly when everything desired is there |
| PluginAgreement.DesiredGraphIsSame | src/extension_host/plugin_management.py:525-545 | directly after a boot, if packages still readable have the manifests it went by, the closure follows at an ordered plugin the dependencies the boot read, or none when the plugin cannot be looked up |
| PluginAgreement.AgreeAfterBootIff | src/extension_host/plugin_management.py:306-309 | under the same assumption both sides agree exactly when everything desired is there, the dependencies followed of unusable plugins are reached over usable ones, and those ordered behind plugins that cannot be looked up are desired otherwise |
| PluginAgreement.MissingPluginKeepsThemApart | src/extension_host/plugin_management.py:306-309 | for any graph, a configured plugin that is not installed is desired, and is ordered exactly when the walk leads to it from a configured one that is installed |
| PluginAgreement.UnsoundPluginKeepsThemApart | src/extension_host/manager.py:411-443 | an installed plugin for another API version is ordered and its installed dependency, though desired, is not |
| PluginAgreement.UnlistedPluginKeepsThemApart | src/extension_host/plugin_management.py:474-492 | an entry point whose name no package may have has its dependency ordered and loaded, and never desired, though everything desired is there and usable |
| PluginAgreement.UpperCaseIsNoName | src/plugin_system/models.py:11 | My_Ext is such a name |
| PythonStrings.StripIsTrimmed | src/extension_host/resource_ids.py:205-216 | stripping removes all space at both ends, and its fixed points are the trimmed strings |
| PythonStrings.SlugIff | src/plugin_system/models.py:11 | a name is lower-case words of letters and digits joined by single dashes |
| PythonStrings.SpaceIff | src/extension_host/resource_ids.py:205-216 | what counts as space, by code point |
| ResourceIds.PrefixingIsIdempotent | src/extension_host/resource_ids.py:69-79 | prefixing an effective id changes nothing |
| ResourceIds.PrefixedIff | src/extension_host/resource_ids.py:69-79 | an id stays as it is exactly without a prefix, or when it is the prefix or starts with it and a dash; otherwise prefix and dash go in front |
| ResourceIds.PrefixingMeetsIff | src/extension_host/resource_ids.py:69-79 | two ids become one exactly when one is the other with the prefix written out |
| ResourceIds.PrefixingIsNotInjective | src/extension_host/resource_ids.py:69-79 | a pair of ids that become one |
| ResourceIds.AddSection | src/extension_host/resource_ids.py:97-127 | the inner loop appends the rows of one resource type, or names a fault that is really there |
| ResourceIds.BuildPlan | src/extension_host/resource_ids.py:82-132 | a plan is built exactly when names and ids are valid and no two ids of a type meet; it has one mapping for each declared id, in order, with its owner, normal type, trimmed id and prefixed id; a refusal names a fault that is really there |
| ResourceIds.AliasIff | src/extension_host/resource_ids.py:11-30 | which names a resource type goes by |
| ResourceIds.BuiltPlanIsOK | src/extension_host/resource_ids.py:82-132 | a built plan maps trimmed ids of normal types to distinct effective ids |
| ResourceIds.LocalKeysAreDistinct | src/extension_host/resource_ids.py:103-109 | distinct effective ids imply distinct local ids |
| ResourceIds.IndexIsUnique | src/extension_host/resource_ids.py:135-177 | the registered plans determine the index |
| ResourceIds.PlansAreDisjoint | src/extension_host/resource_ids.py:147-163 | no key belongs to two registered plans |
| ResourceIds.Resolver.Register | src/extension_host/resource_ids.py:142-166 | for any plan, registering succeeds exactly when the plugin is new and no key is taken; it adds the plan's mappings, or nothing; a built plan keeps the index exact |
| ResourceIds.Resolver.Unregister | src/extension_host/resource_ids.py:168-177 | unregistering takes a plan away, and from the index the entries that are mappings of it, no others; an exact index stays exact |
| ResourceIds.UnregisterUndoesRegister | src/extension_host/resource_ids.py:142-177 | registering and unregistering gives plans and index back, for any plan |
| ResourceIds.ResolvedIsTraceable | src/extension_host/resource_ids.py:179-202 | looking up a resolved id gives back its plugin and local id |
| ResourceIds.TracedResolves | src/extension_host/resource_ids.py:179-202 | what the index knows resolves to where it was found |
| ResourceIds.ResolveFails | src/extension_host/resource_ids.py:179-190 | why a reference does not resolve, and that one that does resolves to a mapping of its plugin, type and id |
| SettingsSchema.ChoicesAreWhatIsAccepted | src/extension_host/plugin_config.py:111-123 | a valid schema with choices accepts each of them and its default, with defaults filled in; what it accepts equals one of the choices, except that the choices of an object schema decide nothing |
| SettingsSchema.PlainAcceptedIff | src/extension_host/plugin_config.py:198-234 | a plain value is accepted, as it is, exactly when it is of the kind, equals a choice if there are any, and lies within the bounds |
| SettingsSchema.SchemeIff | src/extension_host/plugin_config.py:201-204 | a URI has a scheme: a letter, then letters, digits, plus, dash and dot, up to a colon |
| SettingsSchema.EqualPlain | src/extension_host/plugin_config.py:228-229 | choices are compared by value: numbers across kinds, flags as 1 and 0 |
| SettingsSchema.ValidSchemaRules | src/extension_host/plugin_config.py:54-109 | what a valid schema keeps to |
| SettingsSchema.NormalizeIsIdempotent | src/extension_host/plugin_config.py:169-234 | normalising a normalised value gives the same value |
| SettingsSchema.SparseIsIdentity | src/extension_host/plugin_config.py:247-267 | sparse checking returns what it accepts unchanged |
| SettingsSchema.NormalizeFactors | src/extension_host/plugin_config.py:169-234 | under a valid schema full checking succeeds exactly when sparse checking does and nothing required is missing, and gives the value with defaults filled in |
| SettingsSecrets.RoundTripIff | src/extension_host/plugin_config.py:289-322 | putting passwords back into a blanked value, of any shape, restores it exactly when it has the shape of the schema and nothing else of substance was blanked |
| SettingsSecrets.CurrentPasswordsAreRestored | src/extension_host/plugin_config.py:141-166 | with only current password paths blanked the stored value is restored exactly when it has the shape of the schema, and always when the schema accepts it |
| SettingsSecrets.DisplayedAt | src/extension_host/plugin_config.py:289-322 | every sensitive or password path is displayed blank, every other plain value as it is stored |
| SettingsSecrets.PreservedAt | src/extension_host/plugin_config.py:141-166 | filling blanks from what is stored gives at every path what was given there, except that a password left blank stays what is stored at that path, if anything is |
| SettingsSecrets.PasswordPathsIff | src/extension_host/plugin_config.py:325-341 | the password paths are those that lead to a password of the schema |
| PluginConfig.RuntimeAcceptsMore | src/extension_host/plugin_config.py:270-286 | what a schema accepts is accepted whatever the environment provides |
| PluginConfig.RuntimeIsValid | src/extension_host/plugin_config.py:270-286 | leaving out what the environment provides keeps a schema valid |
| PluginConfig.AppliedIff | src/extension_host/plugin_config.py:270-286 | a process can run with settings exactly when they are well-formed and each required property is set, defaulted or in the environment |
| PluginConfig.AppliedHolds | src/extension_host/plugin_config.py:270-286 | a process runs with what is set and otherwise with the default, unless the environment provides the property |
| PluginConfig.SavingTheDisplayIff | src/extension_host/plugin_config.py:429-443 | for any schema and stored value: saving what is displayed keeps it exactly when the schema is valid and accepts it, a process can run with it, and only current passwords or empty values were blanked |
| PluginConfig.LegacyStringIsLost | src/extension_host/plugin_config.py:445-457 | a plain string stored without recorded paths is displayed blank and lost by saving the display |
| PluginConfig.StaleKeyIsLost | src/extension_host/plugin_config.py:289-322 | a stored key the schema no longer declares is not displayed, nothing is blanked, and saving the display empties the file |
| PluginConfig.AcceptedIsRunnable | src/extension_host/plugin_config.py:429-443 | a value is accepted exactly when the schema is valid and, blanks filled in, accepts it, and a process can run with it; this is then what is stored |
| PluginConfig.StoredAsGiven | src/extension_host/plugin_config.py:429-443 | at every path what is stored is what was given, but for passwords left blank |
| PluginConfig.SensitivePathsIff | src/extension_host/plugin_config.py:445-457 | what is blanked: passwords of the schema, recorded paths and, for settings stored without a record, every string |
| PluginConfig.PastPasswordsStayHidden | src/extension_host/plugin_config.py:439-457 | once a save has gone through, each password path of its schema is blank in what is displayed after any later saves of any plugins under any schemas |
| PluginConfig.PathsOnlyGrow | src/extension_host/plugin_config.py:439-443 | no sequence of saves, failed ones included, forgets a recorded path |
| PluginConfig.SavedAllSnoc | src/extension_host/plugin_config.py:429-443 | saves take effect one after the other |
| PluginConfig.PastPathsAreSensitive | src/extension_host/plugin_config.py:445-457 | after a successful save and any later ones the paths blanked for display contain the password paths of its schema |
| PluginConfig.PluginConfigStore.Save | src/extension_host/plugin_config.py:429-443 | when saving succeeds and what both files then hold, at every path what was given but for passwords left blank; otherwise the settings are untouched, and recorded paths only grow |
| PluginConfig.PluginConfigStore.Delete | src/extension_host/plugin_config.py:481-483 | both files of a plugin go, and it loads as empty |
| SessionPersistence.NothingIsLost | src/agent/session.py:3109-3145 | in every run of mutations, marks and writes: marked, not dirty and no write under way means the file equals memory |
| SessionPersistence.DetachedIsSaved | src/agent/session_lifecycle.py:876-918 | a release detaches only when the file holds the last state, and later writes keep it |
| SessionPersistence.SealIsSticky | src/agent/session.py:864-890 | the seal stays; once the invocation it met has ended nobody enters again and the history is final |
| SessionPersistence.CancelRestoresHistory | src/agent/session.py:884-914 | cancelling puts the history back to where the invocation entered, keeps the rest, and no second invocation came in between |
| SessionPersistence.EntryAndFlush | src/agent/session.py:864-890 | a free session is entered exactly when it is not sealed, and a flush writes exactly when it is dirty |
| SessionPersistence.ReleaseEnds | src/agent/session_lifecycle.py:876-918 | once the final state is in memory, a strict write that succeeds detaches the session with it on disk, one that fails retains it dirty |
| SessionPersistence.DroppingLosesIff | src/agent/session_lifecycle.py:142-164 | dropping any session, in any state, can lose its last state exactly when the file does not hold it or the write under way carries another one |
| SessionPersistence.EvictionLosesIff | src/agent/session_lifecycle.py:142-164 | for a session that is not dirty: dropping it can lose its last state exactly when the file does not hold it, or a change not yet marked is missing from the write under way |
| SessionPersistence.EvictionCanLose | src/agent/session.py:3126-3145 | a run to a session that is clean and marked and whose write may still fail |
| SessionPersistence.UnmarkedCanLose | src/agent/session_lifecycle.py:142-164 | a run to a session that is clean only because its change was never marked |
| RetryTurn.RetryIsSafe | src/agent/session.py:1108-1163 | in every run with crashes, failed background saves and forced saves that fail only where the disk does not offer the turn, a turn offered for retry has had no tool started in any attempt |
| RetryTurn.FailedConfirmationIsHarmfulIff | src/agent/session.py:1147-1153 | when the save forced before a retry fails, after any such run, a turn with a started tool may be offered again exactly when the disk still offers it |
| RetryTurn.HarmIsReachable | src/agent/session.py:1369-1445 | a run that comes to that |
| InvocationLocks.OneAtATime | src/agent/extension_sessions.py:241-265 | no two tasks work on one session, and all registered for a session share one lock |
| InvocationLocks.StepsAreOnTheWay | src/agent/extension_sessions.py:241-331 | the way of each kind of task; an invocation comes to its body only with a permit |
| InvocationLocks.BodiesAreBounded | src/agent/extension_sessions.py:267-283 | running bodies and free permits add up to the size of the semaphore |
| InvocationLocks.TableCountsUsers | src/agent/extension_sessions.py:241-265 | the table counts exactly the tasks between entry and exit, and lists no other id |
| InvocationLocks.EmptyWhenIdle | src/agent/extension_sessions.py:257-265 | with nobody inside both maps are empty, no lock is held and all permits are back |
| InvocationLocks.SomeoneCanGoOn | src/agent/extension_sessions.py:267-331 | while a task is not done some task can go on: waiting for a permit with the lock held, or for the lock with the ensure lock held, cannot deadlock |
| InvocationLocks.RunsAreFinite | src/agent/extension_sessions.py:241-331 | every run is finite, at most six steps a task |
| InvocationLocks.StuckMeansDone | src/agent/extension_sessions.py:241-331 | a run that can only be interrupted has all tasks done and the table empty |
| ColdSessions.SessionManager.Evict | src/agent/session_lifecycle.py:142-164 | eviction terminates and drops exactly the droppable ones of those it looked at, oldest first; what it did not look at stays in front and in order, the dirty ones follow in order; it ends within the capacity or with only dirty sessions left |
| ColdSessions.EvictionIsSafe | src/agent/session_lifecycle.py:142-164 | only sessions without a graph, not active and not dirty are dropped, and never a hot one |
| ColdSessions.SessionManager.GetSession | src/agent/session_lifecycle.py:76-97 | what is handed out; a cached session becomes the most recent, a loaded one is appended and evicted for in least-recently-used order; hot sessions stay |
| Sequences.RemovedKeepsOthers | src/agent/session_lifecycle.py:76-97 | what is taken out of the cache, or of a list of ids, leaves the others as often and in the order they were |
| ColdSessions.SessionManager.Register | src/agent/session_lifecycle.py:117-122 | a registered session is hot, whether it was cached or not |
| ColdSessions.NewcomerStaysIff | src/agent/session_lifecycle.py:76-97 | a session just loaded stays exactly when fewer dirty ones are cached than the capacity |
| ColdSessions.NewcomerCanBeDropped | src/agent/session_lifecycle.py:142-164 | in a cache of capacity 1 that holds a dirty session the one just loaded is dropped, however eviction goes |
| SessionTree.ChildrenByParent | src/agent/session_lifecycle.py:476-482 | the loop lists the children of each parent in the order they are stored |
| SessionTree.ChildrenAreLinks | src/agent/session_lifecycle.py:476-482 | the edges of the children map are exactly the stored parent links |
| SessionTree.ChildrenInOrder | src/agent/session_lifecycle.py:476-482 | the children of each parent are listed as they are stored |
| SessionTree.TreeIds | src/agent/session_lifecycle.py:474-494 | on arbitrary links the list holds exactly the sessions reachable from the root, each once, the root first and every other after a parent of its own |
| SessionTree.SurvivorsKeepParents | src/agent/session_lifecycle.py:611-626 | deleting from the end and stopping anywhere leaves every survivor but the root its parent |
| SessionTree.NeverOrphansIff | src/agent/session_lifecycle.py:611-626 | no stop orphans anyone exactly when the root's parent is not one of its descendants |
| SessionTree.ParentCycleOrphans | src/agent/session_lifecycle.py:611-626 | two sessions that are each other's parent: a stop orphans the root |
| SessionTree.SessionStore.DeleteTree | src/agent/session_lifecycle.py:613-626 | what is deleted is the end of the list, in reverse, up to the first session that cannot be stopped |
| TokenUsage.FieldIsFirstGiven | src/agent/session.py:2272-2355 | each figure is what token_usage says, else what usage_metadata says, else 0 or, for the total, the sum; an object says what stands in the first of its places that is there |
| TokenUsage.UsageIntIff | src/agent/session.py:256-266 | a figure is valid exactly when it reads as a natural number, and then is that number |
| TokenUsage.InvalidHidesTheOtherPlaces | src/agent/session.py:2287-2298 | an invalid prompt_cache_hit_tokens hides the other two places of token_usage, and usage_metadata decides |
| TokenUsage.CompleteIff | src/agent/session.py:2335-2381 | a call is complete exactly when one of the two objects says each side and the total said, the cached and the reasoning tokens fit; then total = prompt + completion, cached <= prompt and reasoning <= completion |
| TokenLedger.TokenAccount.Record | src/agent/session.py:2249-2478 | one response lists one call and raises each total of its model by the figure of that field, and no other total; a replayed one changes nothing, one whose estimates fail only moves the counter |
| TokenLedger.TokenAccount.FromFile | src/agent/session.py:3360-3385 | loading restores calls and totals and sets the counter to the least one that no index and no shown count exceeds |
| TokenLedger.ReloadKeepsLedger | src/agent/session.py:3229-3233 | saving and loading keeps calls, totals and the distance between them |
| TokenLedger.RunsConserve | src/agent/session.py:2449-2478 | through any run of calls, replays, failures, rollbacks and reloads the distance between totals and listed calls never changes, per model and field; indexes stay distinct and within the counter |
| TokenLedger.RunSnoc | src/agent/session.py:2449-2478 | a run of events handles them one after the other |
| TokenLedger.ReplayIsIgnored | src/agent/session.py:2265-2268 | a run accounted for once is never accounted for again |
| ToolCallbacks.BuildSlots | src/agent/session.py:133-173 | one slot for each call of the response, gaps filled from the stream by index, then all that was only streamed, in order |
| ToolCallbacks.SlotsAreDistinctIff | src/agent/session.py:133-173 | slots have distinct indices exactly when the calls of the response have, positions standing in for missing ones |
| ToolCallbacks.ChosenById | src/agent/session.py:192-213 | an explicit call id decides, whatever else the callback carries |
| ToolCallbacks.ChosenByIndexOrName | src/agent/session.py:208-244 | when no free slot has the id, an explicit index decides, and without one a slot of the same name goes before the others |
| ToolCallbacks.ChosenIsFree | src/agent/session.py:176-253 | a slot is given out only while its index is free; one is made up only when none is |
| ToolCallbacks.ChosenFitsBest | src/agent/session.py:176-253 | the chosen slot is the first of the free ones that fit best, by id, then index, then name and arguments, then name; without a free one it is made up of what the callback says |
| ToolCallbacks.ExplicitIdIs | src/agent/session.py:189-202 | the first non-empty call id counts, and else that of the input |
| ToolCallbacks.FirstIndexIs | src/agent/session.py:214-226 | the first index the callback carries counts |
| ToolCallbacks.ChosenByCall | src/agent/session.py:234-253 | without id and index, a name with arguments that only one slot has decides |
| ToolMatching.ClaimedOnce | src/agent/session.py:176-253 | no two starts of a response get the same slot, unless all are given out and the later one is made up |
| ToolCallbacks.RunKeepsAliases | src/agent/session.py:91-117 | in every run, with any events, both alias maps only point at runs still pending |
| ToolMatching.CallbacksMatch | src/agent/session.py:1781-1925 | with distinct slot indices and ids, in every interleaving of starts and ends with call ids a start gets the slot of its id and an end the run started for the same id |
| ToolMatching.CallbacksMatchIff | src/agent/session.py:1781-1925 | for slots with distinct ids: all interleavings are matched that way exactly when no two slots share an index |
| ToolMatching.AllEnded | src/agent/session.py:1781-1925 | with distinct slot indices and ids, when everything started has ended nothing is pending and no alias remains |
| ToolMatching.AllEndedIff | src/agent/session.py:1781-1925 | for slots with distinct ids: all interleavings in which everything ends leave nothing behind exactly when no two slots share an index |
| ToolMatching.PositionsCollide | src/agent/session.py:133-173 | a response of two calls whose slots share an index, and an interleaving that is not matched |
| ToolCallbacks.ToolCallTracker.OnResponse | src/agent/session.py:1772-1779 | a response replaces the slots, arranged as above, and frees all claims; pending runs stay |
| ToolCallbacks.ToolCallTracker.OnToolStart | src/agent/session.py:1781-1811 | a start claims its slot; its run has the call id, or one of its own, is found by call and graph run, and is the last pending one |
| ToolCallbacks.ToolCallTracker.OnToolEnd | src/agent/session.py:1841-1900 | the call id decides which run has ended, then the graph run, then the first pending one of that name; the run and all aliases of it go, and nothing else |
| ToolCallbacks.FindRunIs | src/agent/session.py:1841-1900 | the run reported is the pending one of that id, if there is one |

## Left out

- `src/cron` is not modelled.
- The load of the old `messages` format (`src/agent/session.py:3396-3430`): a system message in the middle of the list re-appends the entry before it.
- The inbox of a session: only the priority is compared, so that equal priorities have no defined order.
- Message attributes other than role, text, calls and call ids; a list-valued content stands for its text.
- Token estimates are exact fractions of the character counts; floating-point rounding is not modelled.
- The compaction strategies, the model client and the tools: arbitrary functions, so that the loop is proved for every behaviour of theirs.
- The discovery of manifests, entry-point packages, settings preparation and requirement installation: which of them fail is a parameter of the boot.
- Resource merging between extensions during the load pass: whether registration raises is a parameter; the conflicts themselves are modelled by the resource-id index alone.
- `ExtensionManager.start` and `stop` with processes and health checks: the executor plane is modelled instead.
- ExecutorPlane.Executor.Stop: revoking tools cannot fail in the model; the branch that degrades an extension because `unregister_owner` itself raises is left out.
- ExecutorPlane.Executor.Start: a hook behaves the same each time it is asked about, and awaiting it lets nobody else change the plane.
- ResourceIds.Resolver.Register: that the index stays exact is promised for built plans; one put together by hand could name other owners in its mappings.
- The text of error messages, log lines and events; the sorted list of dependents in the refusal of a disable.
- SettingsSchema.NormalizeFactors: which error is reported first is not modelled, nor the difference between `ValueError` and `TypeError`; a null bound refuses every value, as the comparison in the source raises.
- URIs: a scheme is what stands before the first colon; the stripping of control characters and the check of bracketed hosts in `urlparse` are not modelled. JSON infinities and NaN are not modelled.
- Schema keywords that are unknown, or of the wrong JSON type: a schema here has its fields by type.
- SessionPersistence.NothingIsLost: the session is serialised in one step, and cancelling a write that has begun is left out, since a worker thread may still finish it.
- SessionPersistence.SealIsSticky: changes made outside an invocation, such as switching the model, are not steps of the machine.
- RetryTurn.RetryIsSafe: assumes that the save forced by a retry does not fail while the disk offers the turn; what happens otherwise is stated exactly beside it.
- InvocationLocks.TableCountsUsers: a second cancellation while a task waits for the guard of the table on its way out is left out.
- ColdSessions.SessionManager.Evict: a cached id always has its session in memory; the branch that tolerates a missing one is left out.
- SessionTree.SessionStore.DeleteTree: one tree; the trees of workflow tasks that a main session appends to its list are left out, because children-first does not hold across them.
- TokenLedger.TokenAccount.Record: the estimates and the context size shown with a call are left out; that computing them fails is a parameter.
- ToolMatching.CallbacksMatch: arguments are compared in their canonical form; turning values into it is left out.
