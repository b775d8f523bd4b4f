# AI Agent Command Center — a verified model of its core

This project models, in Dafny, the logic of the AI Agent Command Center
dashboard. It covers:

- The data-access layer (`src/lib/database.ts`):
  - the request gate (`RateLimiter`): a FIFO queue that keeps one second
    between calls and retries a rate-limited call once;
  - the five-minute result cache and its key scheme;
  - cache invalidation on create, update and delete;
  - the read-through paths;
  - the JSON encoding of list-valued columns;
  - first-login seeding (`initializeDefaultData`).
- The provider router (`src/lib/ai-services.ts`): the request each
  provider sends, how a provider's HTTP answer becomes an `AIResponse`, and
  case-insensitive routing of agent names.
- Five interactive components:
  - the deployment pipeline simulator;
  - the prompt tester (placeholder substitution, cost, test results);
  - the workflow canvas (nodes, connections, selection);
  - the MCP server dialog (capabilities, servers, connection toggles);
  - the chat panel (sending a message, clearing the transcript).

State that the source changes in place is modelled as classes:

| class | source state |
|---|---|
| `RequestGate.RateLimiter` | the limiter's fields |
| `ResultCache.ResultCache` | the cache map |
| `DeploymentPipeline.StageList` | the stage array that every snapshot of a run shares |
| `DeploymentPipeline.Run` | a pipeline record |
| `DeploymentPipeline.Deployments` | the active run and the history |
| `PromptTester.Tester` | the prompt tester's result list |
| `ChatInterface.ChatSession` | the chat panel's state |

Pure transformations are functions, each paired with lemmas. Examples:
round trips of the column encoding and of the duration display, FIFO
delivery and call spacing of the gate, the scope of a delete sweep,
chronological order of chat history, and connection integrity of the
canvas.

The clock, random draws and the backend's and providers' answers are
inputs:

- each storage call is given as the outcome the gate settles it to;
- each provider call is given as a `FetchOutcome`;
- each `Date.now()` is given as an integer.

JSON text is an abstract codec. What the layer relies on, that parsing
undoes printing, is stated as a precondition (`Lossless`).

Four behaviours of the code, modelled as written:

- A retry after a 429 does not update `lastRequest`, so the next queued
  call can go out at the same instant as the retry
  (`RequestGate.RetryDoesNotSpaceTheNextCall`).
- Creating a chat message evicts `chatMessages:<user>:`, but histories are
  cached under `chatMessages:<user>:{"limit":N}`. A cached history
  survives the create (`DatabaseService.ChatCreateKeepsCachedHistory`).
- An update without a `userId` evicts nothing.
- Cancelling a run does not halt it. The cancelled snapshot goes into the
  history, and the loop goes on to finish its stages. Each stage start
  brings the Cancel button back, so every stage can be cancelled once. The
  run then prepends its own record, which shares the stages with every
  snapshot (`DeploymentPipeline.Deployments.StartPipeline`).

## Model

| member | source | states |
|---|---|---|
| RequestGate.Settled | src/lib/database.ts:26-46 | the caller gets the first call's value; after a 429 it gets the retry's value or error instead; any other error is the first call's own |
| RequestGate.RetryAfter | src/lib/database.ts:31-33 | with a non-zero reset instant, the wait ends exactly at that instant; with none, or a reset of 0, it is 60000 ms |
| RequestGate.Wait | src/lib/database.ts:22 | a timer waits exactly its delay when that is not negative, and fires at once (0 ms) when it is |
| RequestGate.DispatchTime | src/lib/database.ts:18-23 | the first call goes out at the later of now and `lastRequest` + 1000: at now when a second has passed, else exactly one second after `lastRequest` |
| RequestGate.Serve | src/lib/database.ts:16-48 | one task: the caller receives the settled outcome; one call, or two after a 429; the first call goes out at `DispatchTime` and marks `lastRequest`. Without a retry the clock ends when the first call answers. With one, the retry goes out when the first call ends, plus the time left to a non-zero reset (0 if it has passed) or 60000 ms, and the clock ends when the retry answers |
| RequestGate.Drain | src/lib/database.ts:54-65 | every queued task is answered, and the clock never runs backwards |
| RequestGate.DrainDeliversInOrder | src/lib/database.ts:54-65 | FIFO: the i-th value or error handed back is the i-th queued task's outcome |
| RequestGate.DrainCallCount | src/lib/database.ts:26-42 | each task is called once, plus once more exactly when its first call answered 429 |
| RequestGate.DrainSpacesFirstCalls | src/lib/database.ts:18-25 | consecutive first calls are at least 1000 ms apart; afterwards `lastRequest` is the time of the last first call |
| RequestGate.DrainIsChronological | src/lib/database.ts:54-65 | all calls, retries included, happen in clock order inside the drain's time span |
| RequestGate.RetryDoesNotSpaceTheNextCall | src/lib/database.ts:25-40 | a retry at 6500 ms is followed by the next task's first call at the same instant |
| RequestGate.RateLimiter.constructor | src/lib/database.ts:9-12 | an idle limiter with `lastRequest` 0 and an empty queue |
| RequestGate.RateLimiter.RunTask | src/lib/database.ts:16-48 | the queued closure moves the limiter's state exactly as `Serve` describes |
| RequestGate.RateLimiter.ProcessQueue | src/lib/database.ts:54-65 | returns at once while processing or when the queue is empty; otherwise it empties the queue as `Drain` describes |
| RequestGate.RateLimiter.Execute | src/lib/database.ts:14-51 | enqueue and drain; from an idle limiter the caller receives exactly the task's settled outcome; while a drain is running the task is only queued and nothing else changes |
| RequestGate.RateLimiter.ExecuteBatch | src/lib/database.ts:14-65 | calls made in one turn are all served by the first call's drain, in order; while a drain is running they are only queued and nothing else changes |
| ResultCache.WithoutPrefix | src/lib/database.ts:172-176 | keeps exactly the entries whose key lacks the prefix, unchanged |
| ResultCache.Fresh | src/lib/database.ts:76 | only a key that is present can be fresh |
| ResultCache.SetThenGet | src/lib/database.ts:74-85 | a stored value is read back until five minutes have passed, and not after |
| ResultCache.ResultCache.Get | src/lib/database.ts:74-81 | a value is returned iff the entry is younger than 300000 ms; otherwise the key is removed |
| ResultCache.ResultCache.Set | src/lib/database.ts:83-85 | stores the data with the current time |
| ResultCache.ResultCache.Delete | src/lib/database.ts:120 | removes one key |
| ResultCache.ResultCache.DeleteWithPrefix | src/lib/database.ts:172-176 | the sweep loop removes every key with the prefix and keeps all others |
| DatabaseService.FirstColonSplit | src/lib/database.ts:70-72 | a colon-free name before the first colon is recovered uniquely |
| DatabaseService.PrefixSeparatesNames | src/lib/database.ts:172-176 | a key of one operation never starts with another operation's `name:` |
| DatabaseService.CacheKey | src/lib/database.ts:70-72 | every key starts with `<operation>:` |
| DatabaseService.CacheKeySeparatesUsers | src/lib/database.ts:70-72 | equal keys mean the same operation and the same user, for colon-free names |
| DatabaseService.EncodeList | src/lib/database.ts:110 | a list is always written as a text column |
| DatabaseService.DecodeList | src/lib/database.ts:137-140 | a missing or empty column is parsed as `[]`; a non-empty one as its text |
| DatabaseService.AbsentColumnDecodesEmpty | src/lib/database.ts:137-140 | a missing, null or empty column reads as the empty list |
| DatabaseService.ListRoundTrip | src/lib/database.ts:110 | a list column written is read back unchanged |
| DatabaseService.EncodeListUpdate | src/lib/database.ts:154-156 | an update encodes the list iff the list is supplied |
| DatabaseService.ListUpdateRoundTrip | src/lib/database.ts:154-156 | an updated list reads back unchanged |
| DatabaseService.AgentRoundTrip | src/lib/database.ts:100-115 | an agent written as a row is read back equal |
| DatabaseService.WorkflowRoundTrip | src/lib/database.ts:190-227 | a workflow's agents and steps survive the row encoding |
| DatabaseService.SystemPromptRoundTrip | src/lib/database.ts:278-314 | a system prompt's tags survive the row encoding |
| DatabaseService.ProjectRoundTrip | src/lib/database.ts:362-400 | a project's agent and workflow lists survive the row encoding |
| DatabaseService.Create | src/lib/database.ts:118-120 | after a stored create, exactly the user's parameterless key is evicted; a failed create evicts nothing |
| DatabaseService.Update | src/lib/database.ts:160-164 | only a stored update carrying a non-empty `userId` evicts that user's key |
| DatabaseService.Delete | src/lib/database.ts:168-178 | a stored delete sweeps every key of the operation for all users |
| DatabaseService.DeleteSweepScope | src/lib/database.ts:168-178 | the sweep removes the operation's keys for every user and parameter set, and keeps other operations' keys and the init markers |
| DatabaseService.ChatCreateKeepsCachedHistory | src/lib/database.ts:460-469 | a cached `{"limit":N}` history is still served, unchanged, after a message is created |
| DatabaseService.ReadThrough | src/lib/database.ts:126-145 | a fresh hit skips storage; on a miss the stale key goes, the read's result is returned and a success is cached |
| DatabaseService.DecodeAll | src/lib/database.ts:137-140 | every row is decoded, in storage order |
| DatabaseService.GetAgents | src/lib/database.ts:126-145 | reads through `agents:<user>:` and decodes the capabilities |
| DatabaseService.GetWorkflows | src/lib/database.ts:212-232 | reads through `workflows:<user>:` and decodes agents and steps |
| DatabaseService.GetSystemPrompts | src/lib/database.ts:300-319 | reads through `systemPrompts:<user>:` and decodes the tags |
| DatabaseService.GetProjects | src/lib/database.ts:385-405 | reads through `projects:<user>:` and decodes agents and workflows |
| DatabaseService.StoredAgentId | src/lib/database.ts:455 | an empty agent id is stored as null, any other one as given |
| DatabaseService.Reverse | src/lib/database.ts:479 | element i of the result is element n-1-i of the input |
| DatabaseService.ReversedHistoryIsChronological | src/lib/database.ts:473-479 | a newest-first page, reversed, is oldest-first with the same messages |
| DatabaseService.ReverseKeepsElements | src/lib/database.ts:479 | reversal is a permutation |
| DatabaseService.GetChatMessages | src/lib/database.ts:467-483 | reads through the `{limit}` key; a fetched page is returned oldest first. The limit is a parameter; the source's default of 50 is the caller's to pass |
| DatabaseService.Completed | src/lib/database.ts:572-608 | the creates before the first failure all succeeded |
| DatabaseService.GiveUpOrThrow | src/lib/database.ts:614-623 | a 429 ends initialisation quietly; any other error propagates unchanged |
| DatabaseService.KeysAreNotMarkers | src/lib/database.ts:497-507 | agent and prompt keys never collide with an init marker |
| DatabaseService.SeedEvicted | src/lib/database.ts:572-608 | the creates so far evict the agent list key iff an agent was created, and the prompt list key iff a prompt was |
| DatabaseService.SeedEvictedAreCreatedKeys | src/lib/database.ts:572-608 | that set is exactly the list keys of the seeds created so far |
| DatabaseService.SeedDefaults | src/lib/database.ts:572-611 | the creates run in order and stop at the first failure; the cache loses exactly the evicted keys, and gains the marker only when all seven succeeded |
| DatabaseService.InitializeDefaultData | src/lib/database.ts:497-625 | four cases, each with the whole new cache. A fresh marker: no-op, cache unchanged. Otherwise a stale marker is dropped and the agent list is read through its key. A read error: that error via the 429 rule. Existing agents: the marker is set at the read's end. Otherwise the seven defaults are created in order up to the first failure, each create evicting its list key, and the marker is set only if all succeeded |
| DeploymentPipeline.StageList.constructor | src/components/ui/deployment-pipeline.tsx:88-123 | four fresh pending copies of build, test, security and deploy |
| DeploymentPipeline.Begun | src/components/ui/deployment-pipeline.tsx:135-136 | the stages after stage `i` starts: as many as before, each keeping its template id and name |
| DeploymentPipeline.Ended | src/components/ui/deployment-pipeline.tsx:144-153 | the stages after stage `i` completes: as many as before, each keeping its template id and name |
| DeploymentPipeline.StageList.Begin | src/components/ui/deployment-pipeline.tsx:135-136 | the stage becomes running with its start time (`Begun`) |
| DeploymentPipeline.StageList.End | src/components/ui/deployment-pipeline.tsx:144-153 | the stage gets its outcome, end time and duration; a failure marks every later stage skipped and leaves earlier stages alone (`Ended`) |
| DeploymentPipeline.Run.constructor | src/components/ui/deployment-pipeline.tsx:117-126 | a run named "Production Deploy" on main, with id `pipeline-<start>`, running, with no end time |
| DeploymentPipeline.Run.Finish | src/components/ui/deployment-pipeline.tsx:161-165 | a run that did not fail succeeds; either way it ends at `now` |
| DeploymentPipeline.Run.Snapshot | src/components/ui/deployment-pipeline.tsx:137-158 | a shallow copy with equal fields that shares the stages |
| DeploymentPipeline.FirstFailure | src/components/ui/deployment-pipeline.tsx:144-156 | every stage before the index succeeds; the stage at the index fails |
| DeploymentPipeline.Started | src/components/ui/deployment-pipeline.tsx:131-159 | the stages that start run up to and including the first failure, or all of them when none fails |
| DeploymentPipeline.StagesStartInOrder | src/components/ui/deployment-pipeline.tsx:140-141 | between two stage starts lie at least 10 s and under 40 s per stage |
| DeploymentPipeline.CancelTimes | src/components/ui/deployment-pipeline.tsx:131-141 | at most one cancel click per started stage |
| DeploymentPipeline.CancelTimesAreClicks | src/components/ui/deployment-pipeline.tsx:139-141 | a time is collected iff it is the click of one of the first `n` stages |
| DeploymentPipeline.CancelTimesInClickOrder | src/components/ui/deployment-pipeline.tsx:131-141 | when each click falls within its own stage, the collected times strictly increase and all lie between the run's start and the start of stage `n` |
| DeploymentPipeline.AdvanceOnSuccess | src/components/ui/deployment-pipeline.tsx:134-158 | starting and then succeeding stage `i` leaves stages up to `i` finished back to back and the later ones untouched |
| DeploymentPipeline.StopOnFailure | src/components/ui/deployment-pipeline.tsx:134-156 | starting and then failing stage `i` yields succeeded, failed, then skipped stages |
| DeploymentPipeline.PushSnapshot | src/components/ui/deployment-pipeline.tsx:172-179 | prepending the snapshot of a click keeps the history's cancelled prefix newest first |
| DeploymentPipeline.NotASnapshot | src/components/ui/deployment-pipeline.tsx:137 | a run that is not cancelled is none of the cancelled snapshots, so finishing it leaves them as they are |
| DeploymentPipeline.Deployments.constructor | src/components/ui/deployment-pipeline.tsx:52 | no active run |
| DeploymentPipeline.Deployments.Cancel | src/components/ui/deployment-pipeline.tsx:172-179 | the active snapshot is marked cancelled at `now` and prepended to the history; without one nothing changes |
| DeploymentPipeline.Deployments.StartPipeline | src/components/ui/deployment-pipeline.tsx:116-170 | the finished run heads the history. Stages before the first failure succeed back to back, the failing stage fails, later stages are skipped and never start. The status is failed iff a stage failed. The run ends when the last started stage ends. Below it lie one cancelled snapshot per cancel during a started stage, newest first, each sharing the stages, then the old history |
| DeploymentPipeline.Deployments.RunStages | src/components/ui/deployment-pipeline.tsx:131-159 | the stage loop ends at the first failure with the stage outcomes above; the history gains exactly the cancelled snapshots, one per cancel click in a started stage |
| DeploymentPipeline.Deployments.Record | src/components/ui/deployment-pipeline.tsx:161-168 | the run is completed, heads the history above the old entries, and is no longer active; the cancelled snapshots are unchanged |
| DeploymentPipeline.Deployments.CancelDuringStage | src/components/ui/deployment-pipeline.tsx:139-141 | a click during the wait prepends one cancelled snapshot at its time; without one the history is unchanged |
| DeploymentPipeline.Deployments.RunStage | src/components/ui/deployment-pipeline.tsx:132-158 | the stages become `Ended(Begun(…))` of stage `i`, started at the stage's start time, which keeps the loop's account of the stages; a failure fails the run, a success leaves it running; the end time is untouched; a cancel during the stage adds one snapshot and one collected click |
| DeploymentPipeline.Deployments.CompleteStage | src/components/ui/deployment-pipeline.tsx:144-158 | stage `i` ends with its outcome; a failure fails the run, a success leaves it running; the history and its cancelled snapshots are unchanged |
| DeploymentPipeline.ProgressStep | src/components/ui/deployment-pipeline.tsx:131-159 | one pass of the loop keeps its invariant: a success advances past `i` with the stages finished back to back, a failure at the first failing stage stops the loop with the final stage outcome |
| DeploymentPipeline.ProgressEnd | src/components/ui/deployment-pipeline.tsx:131-159 | when the loop stops, the started stages are exactly those up to the first failure and the stages show the final outcome |
| DeploymentPipeline.FormatDuration | src/components/ui/deployment-pipeline.tsx:181-188 | the display is never shorter than two characters and ends in `s` |
| DeploymentPipeline.DigitSpan | src/components/ui/deployment-pipeline.tsx:181-188 | the leading run of digits |
| DeploymentPipeline.FormatDurationRoundTrip | src/components/ui/deployment-pipeline.tsx:181-188 | the display of any duration reads back as its whole number of seconds |
| DeploymentPipeline.MinutesRoundTrip | src/components/ui/deployment-pipeline.tsx:181-188 | `<m>m <s>s` reads back as `60 * m + s` seconds |
| DeploymentPipeline.MinutesAmount | src/components/ui/deployment-pipeline.tsx:181-188 | any two digit strings written `<m>m <s>` read back as `60 * m + s` |
| DeploymentPipeline.ParseSeconds | src/components/ui/deployment-pipeline.tsx:181-188 | any digit string followed by "s" reads back as its value |
| DeploymentPipeline.FormatDurationShape | src/components/ui/deployment-pipeline.tsx:181-188 | `<s>s` below one minute; `<m>m <s>s` with seconds under 60 from one minute on |
| AIServices.ModelFor | src/lib/ai-services.ts:16-247 | KIMI and DeepSeek always use their fixed model; the others use the one requested or their default |
| AIServices.RequestFor | src/lib/ai-services.ts:221-241 | max tokens 1000; temperature 0.1 for DeepSeek and 0.7 otherwise; a system turn only for DeepSeek |
| AIServices.CallProvider | src/lib/ai-services.ts:37-53 | no error iff status 200 with a choice, giving the first choice and the usage; otherwise empty content and `<Label> API error: <status>`, the thrown message, or 'Unknown error' |
| AIServices.ReportsRequestedModel | src/lib/ai-services.ts:37-53 | the model a call reports is the model of the request it sent |
| AIServices.Route | src/lib/ai-services.ts:264-285 | a name is routed only to a provider whose aliases hold its lower-case form |
| AIServices.RouteMatchesAliases | src/lib/ai-services.ts:264-284 | a lower-case name routes to a provider iff it is one of that provider's two names |
| AIServices.ToLowerIdempotent | src/lib/ai-services.ts:264 | lower-casing twice is lower-casing once |
| AIServices.RouteIgnoresCase | src/lib/ai-services.ts:264 | names differing only in ASCII case route alike |
| AIServices.CallAgent | src/lib/ai-services.ts:263-286 | an unknown name fails with `Unknown agent: <name>`; a known one gets the provider's response with its default model |
| AIServices.AgentRequest | src/lib/ai-services.ts:263-286 | the request sent for a routed name, or none for an unknown one |
| PromptTester.Placeholder | src/components/ui/prompt-tester.tsx:64 | `{key}` |
| PromptTester.ProcessPrompt | src/components/ui/prompt-tester.tsx:61-67 | the loop's result equals substituting every variable in entry order |
| PromptTester.Substitute | src/components/ui/prompt-tester.tsx:61-67 | a prompt with no `{` comes back unchanged |
| PromptTester.BraceFreeIsUnchanged | src/components/ui/prompt-tester.tsx:64 | one replacement leaves a prompt with no `{` unchanged |
| PromptTester.SubstituteInOrder | src/components/ui/prompt-tester.tsx:63-65 | substituting a list of variables is substituting its first part, then the rest |
| PromptTester.SubstituteOneKey | src/components/ui/prompt-tester.tsx:64 | one variable joins the placeholder-free pieces with the value; an absent placeholder changes nothing |
| PromptTester.PlaceholderCanReappear | src/components/ui/prompt-tester.tsx:64 | `{{k}}` with k → `k` becomes `{k}`, so a placeholder can remain |
| PromptTester.TableRate | src/components/ui/prompt-tester.tsx:109-116 | never negative; positive exactly for the four listed models with a non-zero rate |
| PromptTester.Rate | src/components/ui/prompt-tester.tsx:110-117 | the table rate, or 0.001 when the rate is missing or zero; always positive |
| PromptTester.CalculateCost | src/components/ui/prompt-tester.tsx:109-118 | cost is zero iff there are no tokens, and never negative |
| PromptTester.KimiPaysFallbackRate | src/components/ui/prompt-tester.tsx:115-117 | `kimi-k2`'s listed 0 rate is replaced by the fallback, as for an unlisted model |
| PromptTester.CostIsLinear | src/components/ui/prompt-tester.tsx:117 | cost is additive in the token count |
| PromptTester.ResponseText | src/components/ui/prompt-tester.tsx:81 | the content, else the error, else 'No response' (all three cases stated); never empty |
| PromptTester.TokenCount | src/components/ui/prompt-tester.tsx:84 | a response without usage counts zero tokens |
| PromptTester.RunSingleTest | src/components/ui/prompt-tester.tsx:69-107 | an unknown model gives `Error: Unknown agent: <model>` with zero metrics; otherwise the cost is the cost of the reported tokens |
| PromptTester.TestOutcome | src/components/ui/prompt-tester.tsx:69-107 | a thrown `callAgent` becomes `Error: <message>` with zero metrics and quality 0; a response is charged for its reported tokens and scored with the trial's quality; the text is never empty |
| PromptTester.SingleTestOutcomes | src/components/ui/prompt-tester.tsx:73-85 | a 200 answer shows its first choice and counts its tokens; an error status shows the provider's error text |
| PromptTester.ListedModelsAreRouted | src/components/ui/prompt-tester.tsx:53-59 | every offered model is routed, so a batch never reports an unknown agent |
| PromptTester.Rated | src/components/ui/prompt-tester.tsx:182-186 | exactly the results with the id get the rating |
| PromptTester.RatingKeepsResults | src/components/ui/prompt-tester.tsx:182-186 | rating changes nothing but ratings, and is idempotent |
| PromptTester.AverageMetrics | src/components/ui/prompt-tester.tsx:208-224 | none iff there are no results; otherwise the means of time and cost |
| PromptTester.Tester.constructor | src/components/ui/prompt-tester.tsx:44-51 | no results, batch size 1, Claude 3.5 Sonnet selected |
| PromptTester.Tester.RunTest | src/components/ui/prompt-tester.tsx:120-150 | a blank prompt does nothing; otherwise `batchSize` results for the substituted prompt are appended in order |
| PromptTester.Batch | src/components/ui/prompt-tester.tsx:127-139 | `count` results, none for a count below one, each the test of its own trial |
| PromptTester.Tester.RunBatch | src/components/ui/prompt-tester.tsx:127-139 | exactly `count` results (none for a count below one), the j-th being the test of the j-th trial |
| PromptTester.Tester.RunBatchTest | src/components/ui/prompt-tester.tsx:152-180 | one result per offered model, in list order, appended |
| PromptTester.Tester.RateResult | src/components/ui/prompt-tester.tsx:182-186 | the result list becomes `Rated`; the selected model, batch size and running flag are unchanged |
| PromptTester.Tester.ClearResults | src/components/ui/prompt-tester.tsx:192-195 | no results, so no averages; the selected model, batch size and running flag are unchanged |
| WorkflowCanvas.Filter | src/components/ui/workflow-canvas.tsx:113-114 | keeps exactly the elements that pass |
| WorkflowCanvas.FilterKeepsOrder | src/components/ui/workflow-canvas.tsx:113-114 | filtering distributes over concatenation |
| WorkflowCanvas.FilterKeepsAll | src/components/ui/workflow-canvas.tsx:113-114 | a test every element passes changes nothing |
| WorkflowCanvas.DeleteNode | src/components/ui/workflow-canvas.tsx:112-118 | the node, every connection touching it and a selection of it are removed; nothing else is |
| WorkflowCanvas.DeleteKeepsConnectionsAttached | src/components/ui/workflow-canvas.tsx:112-118 | after a delete, every connection still joins two existing nodes |
| WorkflowCanvas.DeleteKeepsOrder | src/components/ui/workflow-canvas.tsx:113-114 | deleting from two joined canvases joins the two results, so the nodes and connections that remain keep their order |
| WorkflowCanvas.DeleteAbsentNode | src/components/ui/workflow-canvas.tsx:112-118 | deleting an unknown id changes neither list |
| WorkflowCanvas.MoveNode | src/components/ui/workflow-canvas.tsx:92-96 | only the matching node's position changes |
| WorkflowCanvas.MergeConfig | src/components/ui/workflow-canvas.tsx:123 | update keys win, the other old keys stay, and a missing config adds nothing |
| WorkflowCanvas.UpdateNodeConfig | src/components/ui/workflow-canvas.tsx:120-126 | the matching nodes get the merged config; the others are untouched |
| WorkflowCanvas.MergeConfigIdempotent | src/components/ui/workflow-canvas.tsx:120-126 | applying the same update twice is applying it once |
| WorkflowCanvas.SelectionMissesConfigChange | src/components/ui/workflow-canvas.tsx:98-126 | the selected copy keeps its old config after the node's config changes |
| WorkflowCanvas.AddNode | src/components/ui/workflow-canvas.tsx:102-110 | one node is appended, with id `<type>-<now>`, the palette label and no config |
| WorkflowCanvas.EditsKeepConnectionsAttached | src/components/ui/workflow-canvas.tsx:92-110 | adding or moving a node keeps every connection attached |
| WorkflowCanvas.EditLabel | src/components/ui/workflow-canvas.tsx:293-300 | the matching nodes and the selected copy get the new label |
| WorkflowCanvas.LabelEditAgrees | src/components/ui/workflow-canvas.tsx:293-300 | after a label edit the selection and the list show the same label |
| WorkflowCanvas.FindNode | src/components/ui/workflow-canvas.tsx:166-167 | the first node with the id, as `find` returns it, or none iff no node has it |
| WorkflowCanvas.ConnectionPath | src/components/ui/workflow-canvas.tsx:165-177 | nothing iff an endpoint is missing; otherwise from 40 px right of the source to 40 px left of the target |
| WorkflowCanvas.WellConnectedDrawsAll | src/components/ui/workflow-canvas.tsx:165-170 | on a well-connected canvas every connection is drawn |
| McpConfig.AddCapability | src/components/ui/mcp-config-dialog.tsx:90-97 | a non-empty new capability is appended; anything else changes nothing |
| McpConfig.AddCapabilityKeepsListClean | src/components/ui/mcp-config-dialog.tsx:90-97 | the list stays free of duplicates and empty entries |
| McpConfig.RemoveCapability | src/components/ui/mcp-config-dialog.tsx:99-104 | every equal entry is gone and all others stay |
| McpConfig.RemoveUndoesAdd | src/components/ui/mcp-config-dialog.tsx:90-104 | removing a capability just added restores the list |
| McpConfig.RemoveAbsentKeepsOrder | src/components/ui/mcp-config-dialog.tsx:99-104 | removing an absent capability changes nothing |
| McpConfig.RemoveDistributes | src/components/ui/mcp-config-dialog.tsx:102 | the filter distributes over concatenation |
| McpConfig.AddServer | src/components/ui/mcp-config-dialog.tsx:106-121 | with a name and a url, a disconnected server with id `<now>` is appended and the form reset; otherwise nothing changes |
| McpConfig.RemoveServer | src/components/ui/mcp-config-dialog.tsx:123-125 | every server with the id is dropped and the others stay |
| McpConfig.RemoveUndoesAddServer | src/components/ui/mcp-config-dialog.tsx:106-125 | removing a server just added under a new id restores the list |
| McpConfig.ToggleServerStatus | src/components/ui/mcp-config-dialog.tsx:127-133 | only the matching servers change, and only in status |
| McpConfig.ToggleTwice | src/components/ui/mcp-config-dialog.tsx:127-133 | toggling twice restores connected and disconnected servers; a connecting one ends disconnected |
| McpConfig.ActiveCount | src/components/ui/mcp-config-dialog.tsx:160 | the badge never exceeds the number of servers |
| McpConfig.ToggleChangesActiveCount | src/components/ui/mcp-config-dialog.tsx:127-160 | the badge gains the matching unconnected servers and loses the matching connected ones |
| McpConfig.ToggleOneServer | src/components/ui/mcp-config-dialog.tsx:127-160 | with unique ids, toggling a server moves the badge by exactly one |
| McpConfig.InitialActiveCount | src/components/ui/mcp-config-dialog.tsx:34-62 | the dialog opens with one active server |
| ChatInterface.OfferedAgentsAreRouted | src/components/ui/chat-interface.tsx:18-25 | every agent in the picker is routed |
| ChatInterface.AssistantText | src/components/ui/chat-interface.tsx:88 | the content, else the error, else 'No response received'; never empty |
| ChatInterface.Followers | src/components/ui/chat-interface.tsx:77-111 | a send appends one or two assistant messages, all tagged with the selected agent |
| ChatInterface.Stored | src/components/ui/chat-interface.tsx:77-97 | nothing is stored iff the user message's persist fails; then the user message comes first, and the reply second when it was stored |
| ChatInterface.SendOutcomes | src/components/ui/chat-interface.tsx:77-111 | a failed first persist or an unknown agent shows only the apology; otherwise the reply is shown, and stored iff the apology does not follow it |
| ChatInterface.ProviderErrorIsShownAsReply | src/components/ui/chat-interface.tsx:82-94 | a provider's 500 is shown as the reply `Claude API error: 500`, not as the apology |
| ChatInterface.ChatSession.constructor | src/components/ui/chat-interface.tsx:28-31 | an empty transcript and input, gpt-4 selected, not loading |
| ChatInterface.ChatSession.Persist | src/components/ui/chat-interface.tsx:77-97 | a persist is called only while loading, with the input cleared and the message on screen |
| ChatInterface.ChatSession.AskAgent | src/components/ui/chat-interface.tsx:82 | the agent is asked only while loading, and answers as `callAgent` does |
| ChatInterface.ChatSession.SendMessage | src/components/ui/chat-interface.tsx:61-115 | a blank input or a send in flight changes nothing. Otherwise the trimmed input is appended, then the followers; the input ends cleared and loading ends false |
| ChatInterface.ChatSession.Respond | src/components/ui/chat-interface.tsx:77-111 | the awaited part of a send appends the followers and stores what `Stored` names |
| ChatInterface.ChatSession.ClearChat | src/components/ui/chat-interface.tsx:124-128 | the visible transcript empties; nothing stored is touched |
| Text.ToLower | src/lib/ai-services.ts:264 | same length, each character lower-cased, no upper-case ASCII letter left |
| Text.ReplaceAllIsJoinOfSplit | src/components/ui/prompt-tester.tsx:64 | global replacement is a split at the matches, joined with the value |
| Text.SplitJoinRoundTrip | src/components/ui/prompt-tester.tsx:64 | joining the pieces with the pattern restores the text |
| Text.SplitPiecesArePatternFree | src/components/ui/prompt-tester.tsx:64 | no piece between matches contains the pattern |
| Text.ReplaceAllWithItself | src/components/ui/prompt-tester.tsx:64 | replacing a pattern by itself changes nothing |
| Text.ReplaceAllAbsent | src/components/ui/prompt-tester.tsx:64 | an absent pattern changes nothing |
| Text.TrimEmptyIffAllSpace | src/components/ui/chat-interface.tsx:62 | a text trims to nothing iff it is all whitespace |
| Text.ParseNatToString | src/components/ui/deployment-pipeline.tsx:185-187 | the decimal rendering of a number reads back as that number |

## Left out

- I/O as inputs. The network, the Blink storage SDK, `Date.now()`,
  `Math.random()` and `setTimeout` are not called; their results are
  parameters. These include the random ids and commit hashes, the stage
  durations and success draws, and the quality scores. Timers are taken to
  fire exactly on time.
- Interleaving. Promise interleavings other than the ones stated are not
  modelled. `ExecuteBatch` covers calls made within one turn; React's
  batching of state updates is taken as immediate.
- RequestGate.RateLimiter.RunTask: every rejection is taken to be an
  object with a `status`. A task that rejects with `null` or `undefined`
  would make `error.status` throw inside the drain, leaving the caller
  unsettled and `processing` stuck; that is not modelled.
- Fixed delays. The 500 ms pauses between seeded creates and between
  tests, and the 1000 ms pause between batch tests, are not modelled. The
  model's clock parameters absorb them.
- `console.log`/`warn`/`error` output is not modelled, and neither is the
  `Math.ceil` in the retry warning.
- JSON. `JSON.stringify`/`JSON.parse` are an abstract codec, and its round
  trip is assumed via `Lossless`. Malformed JSON in a stored column, which
  would throw, is not modelled.
- Record fields. The seeded records' fields other than their operation and
  name are not modelled. Neither are the row fields that storage adds, or
  the `description || ''` style defaults of the page components.
- DeploymentPipeline.Deployments.constructor: starts with an empty history
  instead of the two hard-coded example runs.
- DeploymentPipeline.Deployments.StartPipeline: stage durations are whole milliseconds
  (the source draws a real number), and `onDeploy` is not modelled. A
  cancel also re-enables Deploy; a second run started while the first
  loop still goes on, and the two loops' interleaving, is not modelled.
  The clicks are inputs, one optional click per stage, each required to
  fall inside the wait of its own stage (`ClicksDuringStages`), as a user
  can only click while that stage runs.
- DeploymentPipeline: `getStatusIcon`/`getStatusColor` are not modelled.
  They are display lookups.
- PromptTester.AverageMetrics: gives exact means. It does not model
  `Math.round` or `toFixed(4)`, and states no property of the token and
  quality averages beyond their definition.
- PromptTester.Substitute: models `replace(/\{key\}/g, value)` for keys
  without regular-expression metacharacters and values without `$`
  patterns. Variables are taken in the order `Object.entries` yields them,
  which puts integer-like keys first.
- PromptTester.Tester.RunTest and RunBatchTest: the result list is
  appended to the state as of the end of the run. The source appends to
  the list captured when the run started. A rating or clear made during a
  run, which the stale closure would undo, is not modelled.
- PromptTester: `exportResults`, `copyResult` and `currentTest` are not
  modelled. They are clipboard, file and progress text.
- Text.ToLower: lower-cases ASCII letters only. `toLowerCase` also maps
  other scripts, which cannot affect routing except through characters
  such as the Kelvin sign.
- Text.Trim: knows the common whitespace characters, not every Unicode
  space separator.
- AIServices.CallProvider: the content of a first choice is a string. A
  `null` content, or a choice without a message, is not modelled beyond
  the empty choice list. The request headers and URL are not modelled.
  The provider's raw `usage` object is passed through as it arrives; the
  model takes it to have the `{ totalTokens }` shape that the
  `AIResponse` interface declares, and the token counts and costs of the
  prompt tester rest on that shape.
- ChatInterface: the `db` the chat panel imports is not exported by
  src/lib/database.ts. Each persist is therefore an input outcome. A
  failing persist gives the path the source takes when that call throws.
  `loadChatHistory`, `handleKeyPress` and the agent picker are not
  modelled.
- ChatInterface.ChatSession.SendMessage: the user message's `timestamp`
  is the clock value, not its ISO text.
- WorkflowCanvas: rendering of node cards and the palette drag-and-drop
  are not modelled, and neither is `handleNodeClick`. The click only sets
  the selection to the clicked node, which the `Canvas` datatype takes as
  given.
- McpConfig: the form fields' own setters, the status icons and colours,
  and the activity and settings tabs are not modelled.
- Page components: the pages under src/components/pages are not part of
  this model.
