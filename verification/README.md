# AI-Testing core, modelled in Dafny

This project models the two Python packages that make up the AI-driven test agent.

**`cua` — the computer-use assistant.**
- A `LocalComputer` drives the mouse, keyboard and screen of the machine it runs on.
- A `Scaler` wraps that computer. It tells the model a logical screen size. It resizes screenshots to that size and translates the model's coordinates back to physical pixels.
- The `Agent` keeps the last model response. On `continue_task` it:
  - performs every computer call in that response;
  - runs the registered function tools;
  - answers each call with its `call_id`;
  - sends the answers back with a bounded retry policy for rate limits and server errors.
- `CUAConfig` reads credentials from the environment and validates them.
- `ComputerUseAssistant` ties these together. It runs turns until the model stops asking for actions or the action budget is spent.

**`src/core` — the controller-swap test agent.**
- `Config` is a dataclass with its defaults and validation.
- `ContextManager` keeps a bounded action history and derives the current goal.
- `ActionExecutor` turns AI-proposed actions into key presses and text.
- `AzureAIClient` posts prompts (with screenshots) to a vision model and reads its JSON or free-text answer.
- `TestReporter` keeps the per-iteration records, the errors and the statistics.
- `AgentOrchestrator` runs the swap scenario: check the application, then per iteration navigate, select, initiate, wait, verify and recover.

How the model is built:
- Objects whose fields the source updates become Dafny classes. Their methods state the new state exactly, with `old(...)`.
- Pure decisions become functions with lemmas about them: parsing, translation, goal selection, statistics, the retry policy and the coordinate arithmetic.
- Operating-system input primitives are recorded as an event trace on the computer or executor object.
- The OpenAI and Azure services are scripted outcome sequences, indexed by how many requests were made so far.
- Screen capture plus AI analysis in the orchestrator is a scripted sequence of answers, indexed by how many prompts were asked so far.
- Clocks, sleeps and file-system answers are parameters.

Behaviour of the code worth knowing before reading the model:
- `Scaler.dimensions` only scales *down*: a screen whose longest edge is at most 2048, such as 1920×1080 with no configured size, is reported as it is (`Scaling.LogicalSize`), and the translation is then the identity (`Scaling.UnscaledIsIdentity`). Coordinates are truncated by `int()`, not rounded (`Scaling.Trunc`).
- A turn performs the *first* action of the response (`self.actions[0]`) once for every `computer_call` item in it, and answers each call with a screenshot.
- When a module fails to start before the reporter is initialised, `generate_report` raises inside `run`'s exception handler, so `run` raises instead of returning an error result. `Orchestrator.AgentOrchestrator.Run` returns `Err(NotInitialized)` in that case.
- `should_abort` is never set to true anywhere. The orchestrator never calls the reporter's `log_iteration_*` methods, so its statistics stay empty during a run.
- `get_recent_history(0)` returns the whole history, because `history[-0:]` is the full list.

## Model

| member | source | states |
|---|---|---|
| Scaling.Trunc | cua/scaler.py:132-135 | Python `int()` on a float truncates toward zero: the result lies within one of its argument, on the zero side |
| Scaling.LogicalSize | cua/scaler.py:34-47 | a screen whose longest edge fits in 2048 is reported unchanged; otherwise both logical edges lie in [0, 2048] and never exceed the physical edges |
| Scaling.ScaledEdge | cua/scaler.py:44-46 | `int(edge * 2048 / longest)` for an edge of an oversized screen lies in [0, 2048] and is no larger than the edge |
| Scaling.ScaledEdgeBounds | cua/scaler.py:44-46 | scaling an edge by 2048/longest keeps it between 0 and 2048 and no larger than it was |
| Scaling.LongestEdgeBecomesMax | cua/scaler.py:40-46 | when scaling happens, the longest logical edge is exactly 2048 |
| Scaling.Ratio | cua/scaler.py:61 | the shared ratio is the smaller of the two edge ratios: at most each of them and equal to one |
| Scaling.Rescale | cua/scaler.py:59-71 | the screenshot canvas is the logical size; the resize fails exactly when a scaled edge truncates to zero |
| Scaling.ImageFitsCanvas | cua/scaler.py:61-71 | the resized image is at least 1×1, fits in the canvas, and fills it along at least one edge |
| Scaling.PointToScreenAsWritten | cua/scaler.py:124-135 | the translation as written fails only on a zero ratio, and with a positive ratio maps a non-negative x to a non-negative physical x whose image does not exceed x |
| Scaling.ToScreen | cua/scaler.py:124-135 | corrected translation: it refuses before any screenshot has fixed the physical size, and otherwise agrees with the as-written translation |
| Scaling.UncalibratedCollapsesToOrigin | cua/scaler.py:124-135 | with the initial screen size of -1, every logical point inside the canvas is sent to physical (0, 0) |
| Scaling.UncalibratedClickExample | cua/scaler.py:124-135 | click (100, 50) on a 1024×768 canvas lands at (187, 93) on a 1920×1080 screen once calibrated, but at (0, 0) before |
| Scaling.UnscaledIsIdentity | cua/scaler.py:124-135 | when the logical size equals the screen size, translation leaves every point unchanged |
| Scaling.ImagePointsLandOnScreen | cua/scaler.py:129-135 | every pixel of the resized image translates to a point on the physical screen |
| Scaling.EdgeBack | cua/scaler.py:132-135 | a coordinate inside the scaled edge maps back inside the physical edge |
| Scaling.PathToScreen | cua/scaler.py:119-122 | a drag path is translated point by point, with the same length; the first untranslatable point decides the error |
| Scaling.Effect | cua/scaler.py:87-122 | what each forwarded action does to the event trace: type, wait, keypress and screenshot pass through; pointer actions need a calibrated frame; scroll sends a vertical and a horizontal scroll |
| Scaling.ImageClickIsPerformed | cua/scaler.py:87-90 | a click on any pixel of the last screenshot succeeds and emits a move and a click |
| Scaling.ShotOf | cua/scaler.py:49-85 | a screenshot fails when capture fails and is otherwise the rescale of the display to the logical size |
| Scaling.Scaler.Frame | cua/scaler.py:22-26 | the translation frame holds the logical size and the physical display once calibrated |
| Scaling.Scaler.constructor | cua/scaler.py:22-26 | a new scaler keeps the configured size (or the computed logical size) and is not yet calibrated |
| Scaling.Scaler.Environment | cua/scaler.py:28-31 | the environment is the wrapped computer's |
| Scaling.Scaler.Dimensions | cua/scaler.py:33-47 | returns the configured size when there is one, otherwise computes and caches the logical size of the display |
| Scaling.Scaler.Screenshot | cua/scaler.py:49-85 | returns the rescaled shot, records a capture and calibrates the frame to the display |
| Scaling.Scaler.Click | cua/scaler.py:87-90 | the click is translated and forwarded: the trace grows by exactly the action's effect |
| Scaling.Scaler.DoubleClick | cua/scaler.py:92-95 | the double click is translated and forwarded |
| Scaling.Scaler.Scroll | cua/scaler.py:97-100 | the scroll position is translated; the amounts are forwarded unchanged |
| Scaling.Scaler.Type | cua/scaler.py:102-104 | text is forwarded unchanged |
| Scaling.Scaler.Wait | cua/scaler.py:106-108 | the wait is forwarded unchanged |
| Scaling.Scaler.Move | cua/scaler.py:110-113 | the pointer move is translated and forwarded |
| Scaling.Scaler.Keypress | cua/scaler.py:115-117 | keys are forwarded unchanged |
| Scaling.Scaler.Drag | cua/scaler.py:119-122 | every path point is translated before the drag is forwarded |
| Computer.EnvironmentOf | cua/local_computer.py:30-41 | Windows, Darwin and Linux map to windows, mac and linux; any other system is an unsupported-platform error |
| Computer.ClickEvents | cua/local_computer.py:66-75 | a click inside the screen moves then clicks with the mapped button; outside the screen nothing happens |
| Computer.ButtonName | cua/local_computer.py:70 | the wheel button is sent as middle; other buttons pass through |
| Computer.DoubleClickEvents | cua/local_computer.py:77-85 | a double click happens exactly when the point is on screen |
| Computer.NormalizeKey | cua/local_computer.py:111-118 | keys are lower-cased, and only the four arrow names are renamed, to the bare directions |
| Computer.ChordIsPressesThenReleases | cua/local_computer.py:120-126 | a chord presses all keys in order, then releases them in reverse order |
| Computer.DragShape | cua/local_computer.py:130-147 | a path of fewer than two points does nothing; two points are a move to the first and one held-button drag to the second; a longer path moves to the first point, presses the button, drags through every later point in order and releases |
| Computer.LocalComputer.constructor | cua/local_computer.py:23-27 | a new computer has no cached size and an empty trace |
| Computer.LocalComputer.Environment | cua/local_computer.py:30-41 | reports the environment of its operating system |
| Computer.LocalComputer.Dimensions | cua/local_computer.py:43-48 | the size is the display's, cached; it fails only if no size is cached and capture fails |
| Computer.LocalComputer.Screenshot | cua/local_computer.py:50-64 | a successful capture returns a full-size shot, caches the size and records one capture |
| Computer.LocalComputer.Click | cua/local_computer.py:66-75 | after a successful size query, appends exactly the click events for the point |
| Computer.LocalComputer.DoubleClick | cua/local_computer.py:77-85 | after a successful size query, appends exactly the double-click events |
| Computer.LocalComputer.Scroll | cua/local_computer.py:87-92 | moves to the point, then scrolls vertically and horizontally |
| Computer.LocalComputer.Type | cua/local_computer.py:94-97 | writes the text |
| Computer.LocalComputer.Wait | cua/local_computer.py:99-102 | pauses for the given milliseconds |
| Computer.LocalComputer.Move | cua/local_computer.py:104-107 | moves the pointer |
| Computer.LocalComputer.Keypress | cua/local_computer.py:109-128 | presses the normalised chord |
| Computer.LocalComputer.Drag | cua/local_computer.py:130-147 | performs the drag events of the path |
| CuaConfig.GetEnv | cua/config.py:55-74 | an environment lookup finds a value exactly when the name is set |
| CuaConfig.Config.constructor | cua/config.py:18-48 | the defaults: Azure endpoint, 50 actions, 2 s delay, INFO logging, consent and safety checks on, 1024×768 scaling |
| CuaConfig.Config.LoadEnvironmentVariables | cua/config.py:55-74 | credentials already set are kept, otherwise read from the environment; autoplay accepts true/1/yes; the log level is upper-cased when given |
| CuaConfig.Config.ValidateConfiguration | cua/config.py:76-106 | reports the first missing credential for the chosen endpoint, or an unknown endpoint, or a bad log level, and succeeds exactly when credentials and level are valid |
| CuaConfig.Config.PostInit | cua/config.py:50-53 | loading then validating: success implies exactly one endpoint kind is selected |
| CuaConfig.LevelCheckIgnoresCase | cua/config.py:101-104 | the log-level check does not depend on the case of the level |
| CuaAgent.ProjectionsOfConcat | cua/agent.py:55-96 | actions, safety checks, reasoning summary and messages are read item by item, in order |
| CuaAgent.ActionsAreTheComputerCalls | cua/agent.py:83-96 | each computer call contributes exactly its action, in position |
| CuaAgent.NoCallsNoActions | cua/agent.py:55-96 | a response without computer calls has no actions and no pending safety checks |
| CuaAgent.ConsentIffActions | cua/agent.py:48-53 | consent is required exactly when the response asks for actions |
| CuaAgent.ChecksNeedConsent | cua/agent.py:48-61 | pending safety checks imply consent is required |
| CuaAgent.Lookup | cua/agent.py:144-147 | a handler is found exactly when a tool of that name is registered |
| CuaAgent.AssignIsDictionaryUpdate | cua/agent.py:34-37 | registering a tool behaves as a dictionary assignment: it replaces the old handler of that name and otherwise adds the name last |
| CuaAgent.ToolsFor | cua/agent.py:220-235 | the tool list is the computer tool with the logical size and environment, followed by each registered function tool; device errors propagate |
| CuaAgent.Step | cua/agent.py:112-164 | handling one output item only extends the trace and the answers, and a failure stops further handling |
| CuaAgent.Conduct | cua/agent.py:110-164 | handling all output items only extends the trace and the answers |
| CuaAgent.StepAnswers | cua/agent.py:112-158 | each computer or function call gets one answer with its own call id, in order |
| CuaAgent.EveryCallAnswered | cua/agent.py:110-164 | when nothing fails, the answers carry exactly the call ids of the response, in order |
| CuaAgent.ChecksAcknowledged | cua/agent.py:127-136 | every computer-call answer acknowledges the response's pending safety checks |
| CuaAgent.FailureIsFinal | cua/agent.py:144-164 | once an item fails, the remaining items change nothing |
| CuaAgent.RetryWait | cua/agent.py:200-202 | the retry delay is the number of seconds the rate-limit message suggests, else 10 |
| CuaAgent.SuggestedWaitReadsNumber | cua/agent.py:200-202 | a message with "Please try again in Ns" yields N |
| CuaAgent.RetryWaitExamples | cua/agent.py:200-202 | "try again in 7s" waits 7 seconds; a message without a suggestion waits 10 |
| CuaAgent.SuggestedWaitSkipsPrefix | cua/agent.py:200-202 | text before the suggestion that cannot start it does not change the suggested wait |
| CuaAgent.Exchanged | cua/agent.py:172-218 | at most the retry budget of attempts is made, the first without delay; success keeps a completed response; an incomplete response is reported by its status |
| CuaAgent.ExchangedUnfold | cua/agent.py:176-218 | each outcome's handling: completed keeps, incomplete fails, other errors fail at once, rate limits and server errors retry while budget remains |
| CuaAgent.Judge | cua/agent.py:192-218 | only rate limits and server errors with budget left are retried; any answer is kept |
| CuaAgent.RetriesFollowPolicy | cua/agent.py:200-218 | every retry follows a rate limit (waiting the suggested time) or a server error (waiting the same time again) |
| CuaAgent.LastAttemptDecides | cua/agent.py:208-218 | the last attempt decides the result, and retryable failures end only when the budget is used up |
| CuaAgent.DeliveredWhole | cua/agent.py:171-218 | sending with the full budget from no delay meets the delivery relation between requests, kept response and result |
| CuaAgent.Previous | cua/agent.py:110-112 | the previous response's output is the stored response's output, or empty |
| CuaAgent.Client.constructor | cua/agent.py:192-195 | the scripted client starts with no requests |
| CuaAgent.Client.Create | cua/agent.py:192-195 | each request is recorded and answered by the next scripted outcome |
| CuaAgent.Agent.constructor | cua/agent.py:23-32 | a new agent has no tools and no response |
| CuaAgent.Agent.AddTool | cua/agent.py:34-37 | registers the tool as a dictionary update by name |
| CuaAgent.Agent.StartTask | cua/agent.py:98-100 | forgets the previous response |
| CuaAgent.Agent.ComputerTool | cua/agent.py:225-235 | the computer tool carries the logical size and environment, and performs no input |
| CuaAgent.Agent.GetTools | cua/agent.py:220-223 | returns the tool list of the current device and registrations, and performs no input |
| CuaAgent.Agent.Perform | cua/agent.py:115-122 | an action is dispatched to the scaled computer by its type |
| CuaAgent.Agent.HandleItem | cua/agent.py:112-164 | handling one item has exactly the effect of the step function on frame, trace, answers and failure |
| CuaAgent.Agent.BuildInputs | cua/agent.py:110-164 | handling the whole previous output has exactly the effect of conducting it item by item |
| CuaAgent.Agent.Attempt | cua/agent.py:176-198 | one attempt sends exactly one request with the current tools and judges the scripted reply |
| CuaAgent.Agent.Round | cua/agent.py:176-218 | the retry loop agrees with the exchange function: requests, waits, result and kept response |
| CuaAgent.Agent.Send | cua/agent.py:171-218 | sending delivers the answers with the previous id and temperature, under the retry policy |
| CuaAgent.Agent.ContinueTask | cua/agent.py:102-218 | a turn performs the previous response's actions, and either stops at the first failure with nothing sent, or sends the answers (plus the user message if any) and keeps the new response; every response it ends with is appended to the ghost log of responses |
| Assistant.MessagesSent | cua/computer_use_assistant.py:110-123 | the instructions go with the first turn only; later turns send an empty message |
| Assistant.ContinuedStays | cua/computer_use_assistant.py:114-172 | whether the loop went on past its first turns depends only on those turns' responses, not on later ones |
| Assistant.GoesOn | cua/computer_use_assistant.py:114-172 | a turn that left actions in its response, needed no input and stayed under the budget lets the loop go on |
| Assistant.OneMore | cua/computer_use_assistant.py:147-156 | one more turn keeps the earlier turns' verdicts and adds that response's actions to the count |
| Assistant.WentOnCounts | cua/computer_use_assistant.py:147-172 | each turn the loop went on after took at least one action, and the count was below the budget after it |
| Assistant.TurnsWithinBudget | cua/computer_use_assistant.py:114-172 | the loop runs at most max(max_actions, 0) turns, and at most one more turn than the actions it took |
| Assistant.GetUserConsent | cua/computer_use_assistant.py:202-210 | consent is always granted |
| Assistant.HandleSafetyChecks | cua/computer_use_assistant.py:212-220 | safety checks are always acknowledged |
| Assistant.ComputerUseAssistant.constructor | cua/computer_use_assistant.py:41-46 | a new assistant has no agent and no computer |
| Assistant.ComputerUseAssistant.Initialize | cua/computer_use_assistant.py:48-88 | creates a scaler with the configured size over the local computer and a fresh agent for the configured model |
| Assistant.ComputerUseAssistant.CaptureFinal | cua/computer_use_assistant.py:173-178 | at most one final screenshot is kept |
| Assistant.ComputerUseAssistant.TakeTurn | cua/computer_use_assistant.py:122-156 | one turn continues the task and logs its response; when it succeeds it counts exactly that response's actions, and says to stop exactly when the response needs no input and has no actions |
| Assistant.ComputerUseAssistant.TaskLoop | cua/computer_use_assistant.py:114-172 | the loop sends the instructions then empty messages; the actions taken are the sum of the actions of the responses; it goes on after a turn only while that turn had actions, needed no input and stayed under the budget; it stops on the budget, on a response with no actions and no need for input, or on one needing input when none is left; a failing turn ends it after being logged |
| Assistant.ComputerUseAssistant.ExecuteInstructions | cua/computer_use_assistant.py:90-200 | fails only when not initialised; the actions taken are the sum of the actions of the responses of the turns; the loop goes on after a turn only while the budget allows and the response asked for actions without input; success stops on the budget, on user input or on no actions, at most max(max_actions, 0) turns; a failing turn gives the failure summary with its count and no screenshot |
| Context.Views | src/core/context_manager.py:97-105 | each history entry is shown by its own view, in order |
| Context.Goal | src/core/context_manager.py:107-129 | non-swap scenarios "Execute" their name; a swap with no history starts by navigating; otherwise the last action decides the goal |
| Context.ContextManager.constructor | src/core/context_manager.py:33-38 | a new manager has no history, no scenario and iteration 0 |
| Context.ContextManager.AddEntry | src/core/context_manager.py:40-56 | the entry is appended and only the newest entries, up to the cap, are kept |
| Context.ContextManager.SetScenario | src/core/context_manager.py:131-135 | records the scenario and iteration |
| Context.ContextManager.ClearHistory | src/core/context_manager.py:137-140 | empties the history |
| Context.ContextManager.GetRecentHistory | src/core/context_manager.py:93-105 | returns the last count entries, the whole history for 0 or too large a count, and Python's negative-slice result otherwise |
| Context.ContextManager.BuildContext | src/core/context_manager.py:58-91 | the state's values override the manager's; the last five entries and the goal are included; swap details appear exactly for the swap scenario |
| Context.ContextManager.GetContextSummary | src/core/context_manager.py:142-150 | reports scenario, iteration, length and the last action and result, present exactly when the history is non-empty |
| Context.NewestAfterAdd | src/core/context_manager.py:50-54 | trimming after an append keeps the new entry last and grows the history up to the cap |
| Context.GoalAfterNavigate | src/core/context_manager.py:118-119 | after navigating, the goal is selecting the target network |
| Context.GoalAfterSelect | src/core/context_manager.py:120-121 | after selecting, the goal is initiating the swap |
| Context.GoalAfterInitiate | src/core/context_manager.py:122-123 | after initiating, the goal is waiting for completion |
| Context.GoalAfterWait | src/core/context_manager.py:124-125 | after waiting, the goal is verifying the swap |
| Context.GoalIgnoresCase | src/core/context_manager.py:116-127 | the goal depends only on the lower-cased last action |
| CoreSettings.NewConfig | src/core/config_manager.py:60-65 | construction succeeds exactly when endpoint and key are both given, checking the endpoint first |
| CoreSettings.Checked | src/core/config_manager.py:168-182 | the configuration-only checks report their issues in check order |
| CoreSettings.CheckedReports | src/core/config_manager.py:168-182 | each of those checks reports its issue exactly when it fails |
| CoreSettings.ValidateConfig | src/core/config_manager.py:158-188 | the issues are reported in the order the checks are made |
| CoreSettings.ValidateConfigReports | src/core/config_manager.py:168-188 | every issue, the missing executable included, is reported exactly when its check fails |
| CoreSettings.ValidateConfigEmpty | src/core/config_manager.py:168-188 | validation reports nothing exactly when every check passes |
| CoreSettings.DefaultsValidate | src/core/config_manager.py:17-58 | the defaults with real credentials pass validation |
| CoreSettings.LoadConfigAsWritten | src/core/config_manager.py:60-110 | as written, loading fails on the credential checks first, then whenever the file sets `output_dir` (or `screenshot_dir` with screenshots on), because `mkdir` is called on a string; otherwise it gives the file's values |
| CoreSettings.LoadConfig | src/core/config_manager.py:80-110 | as intended, a file loads exactly when endpoint and key are set, whatever directories it names |
| CoreSettings.DefaultFileFailsToLoad | src/core/config_manager.py:112-147 | as written, the generated default file fails to load, on its `output_dir` |
| CoreSettings.DefaultFileNeedsKey | src/core/config_manager.py:112-147 | loaded as intended, the generated default file gives its own values, and validation reports its placeholder key and nothing else |
| CoreSettings.ZeroPollIntervalPasses | src/core/config_manager.py:168-188 | as written, validation accepts poll intervals of zero |
| CoreSettings.ValidateConfigIntended | src/core/config_manager.py:168-188 | as intended, validation adds a last check that reports a non-positive poll interval exactly when there is one, and passes only what the written checks pass |
| CoreSettings.IntendedRejectsStalledPolls | src/core/config_manager.py:168-188 | a configuration the intended validation passes has positive poll intervals |
| Executor.ComboKeys | src/core/action_executor.py:243-248 | each combination key is mapped by name, in order |
| Executor.SequenceRunCons | src/core/action_executor.py:171-182 | a key sequence stops at the first failing key and otherwise concatenates the keys' events |
| Executor.ActionExecutor.constructor | src/core/action_executor.py:42-59 | a new executor is not ready and has sent nothing |
| Executor.ActionExecutor.Initialize | src/core/action_executor.py:61-75 | the input controllers become ready |
| Executor.ActionExecutor.ExecuteKeyPress | src/core/action_executor.py:131-169 | a key press sends exactly the tap of the mapped key or fails with nothing sent |
| Executor.ActionExecutor.ExecuteKeySequence | src/core/action_executor.py:171-182 | the sequence sends the keys' taps in order up to the first failure, which is the result |
| Executor.ActionExecutor.PressSequenceKey | src/core/action_executor.py:180-181 | one sequence key is tapped or fails with nothing sent |
| Executor.ActionExecutor.PressKeys | src/core/action_executor.py:180-182 | the loop over the keys agrees with the sequence function |
| Executor.ActionExecutor.ExecuteClick | src/core/action_executor.py:184-200 | a click sends the events of the click function and reports its failure |
| Executor.ActionExecutor.ExecuteAction | src/core/action_executor.py:94-129 | an action is dispatched by type; its events and failure are those of the execution function |
| Executor.ActionExecutor.SendText | src/core/action_executor.py:215-229 | text is typed when the controllers are ready, and fails otherwise with nothing sent |
| Executor.ActionExecutor.PressKeyCombination | src/core/action_executor.py:231-258 | all keys are pressed in order and released in reverse; it fails with nothing sent when not ready |
| Executor.Repeat | src/core/action_executor.py:296-300 | list repetition gives count copies, or none for a non-positive count |
| Executor.TranslateIdempotent | src/core/action_executor.py:260-303 | translating a translated action changes nothing |
| Executor.SequenceRunStep | src/core/action_executor.py:171-182 | a successful sequence taps its first key, then the rest |
| Executor.SequencePressesInOrder | src/core/action_executor.py:171-182 | a successful sequence presses and releases each key in order, two events per key |
| Executor.NavigationPressesDirection | src/core/action_executor.py:291-300 | a navigation of count ≥ 1 presses the direction key count times; a smaller count fails for want of keys |
| Executor.TranslatedNavigation | src/core/action_executor.py:291-300 | a navigation translates to a key sequence repeating the direction |
| Executor.DirectionKey | src/core/action_executor.py:49-59 | direction names are already lower case and map to themselves |
| Executor.SequenceNeverFailsWhenReady | src/core/action_executor.py:171-182 | a ready executor never fails on a sequence of non-empty key names |
| Executor.ClickPressesNumpadAdd | src/core/action_executor.py:272-277 | an AI click becomes a numpad-plus tap |
| AiClient.ApiUrlIgnoresTrailingSlashes | src/core/azure_ai_client.py:37 | trailing slashes on the endpoint do not change the API URL |
| AiClient.MessageContent | src/core/azure_ai_client.py:113-127 | the message is the prompt text, plus the image as a PNG data URL when one is given |
| AiClient.ReplyContent | src/core/azure_ai_client.py:150-161 | connection errors, non-200 statuses and missing or empty choices are errors; content is read only from a 200 reply with choices |
| AiClient.BraceSpan | src/core/azure_ai_client.py:174-178 | the JSON candidate runs from the first `{` to the last `}`, and there is none exactly when no `{` precedes a `}` |
| AiClient.TextReadingKeys | src/core/azure_ai_client.py:190-220 | the free-text reading sets exactly the keys whose cue words occur |
| AiClient.TextReadingValues | src/core/azure_ai_client.py:190-220 | the values of those keys: content, confidence 0.5, the yes/no answer, the error text, completion and element type |
| AiClient.AffirmativeWins | src/core/azure_ai_client.py:200-203 | text saying both "yes" and "no" reads as action needed |
| AiClient.TextReadingIgnoresCase | src/core/azure_ai_client.py:192 | the reading depends only on the lower-cased text, apart from the echoed content |
| AiClient.ParseAiResponse | src/core/azure_ai_client.py:163-188 | a decodable brace span is the answer; otherwise the free-text reading is |
| AiClient.NoBracesMeansText | src/core/azure_ai_client.py:174-188 | text without `{` is always read as free text |
| AiClient.Analysis | src/core/azure_ai_client.py:94-106 | request errors become analysis failures, and string content is parsed |
| AiClient.AzureAIClient.constructor | src/core/azure_ai_client.py:29-43 | a new client has its API URL, no session and no requests |
| AiClient.AzureAIClient.MakeRequest | src/core/azure_ai_client.py:108-161 | counts and timestamps every call; fails without an open session; otherwise posts the message and reads the reply |
| AiClient.AzureAIClient.Initialize | src/core/azure_ai_client.py:45-79 | opens the session and sends the test message; a failing reply is a connection failure |
| AiClient.AzureAIClient.Cleanup | src/core/azure_ai_client.py:59-64 | closes an existing session |
| AiClient.AzureAIClient.AnalyzeScreen | src/core/azure_ai_client.py:81-106 | posts the prompt with the image and returns the analysis of the reply |
| AiClient.AzureAIClient.GetRecoverySuggestion | src/core/azure_ai_client.py:222-251 | asks with the recovery prompt and returns its analysis |
| AiClient.AzureAIClient.VerifyExpectedState | src/core/azure_ai_client.py:253-276 | asks with the verification prompt and returns its analysis |
| AiClient.AzureAIClient.GetApiStats | src/core/azure_ai_client.py:278-284 | reports the request count, last request time and endpoint |
| Reporter.FirstMatch | src/core/test_reporter.py:87-90 | finds the first record of an iteration, or none exactly when there is none |
| Reporter.Finished | src/core/test_reporter.py:99-111 | completing an iteration sets status, success, end time and duration, keeps an empty error message out, and keeps the record consistent |
| Reporter.Count | src/core/test_reporter.py:301-309 | a count never exceeds the number of records |
| Reporter.CurrentStats | src/core/test_reporter.py:299-317 | totals, error count, and success rate as a percentage of completed iterations |
| Reporter.SuccessfulAreCompleted | src/core/test_reporter.py:301-309 | for consistent records, successful iterations are exactly the completed ones |
| Reporter.SuccessRateAllOrNothing | src/core/test_reporter.py:316 | so the success rate is 100 when anything completed and 0 otherwise |
| Reporter.CsvRow | src/core/test_reporter.py:280-290 | one CSV row per iteration with each column's value |
| Reporter.CsvRows | src/core/test_reporter.py:271-290 | the header, then one row per iteration, all of the header's width |
| Reporter.TestReporter.constructor | src/core/test_reporter.py:31-36 | a new reporter has no test info, records or summary |
| Reporter.TestReporter.Initialize | src/core/test_reporter.py:38-58 | records the test info from the configuration and clears the records |
| Reporter.TestReporter.Cleanup | src/core/test_reporter.py:60-63 | records the end time |
| Reporter.TestReporter.LogIterationStart | src/core/test_reporter.py:65-75 | appends a started record, or fails before initialisation |
| Reporter.TestReporter.FindIteration | src/core/test_reporter.py:87-90 | the search loop finds the first matching record |
| Reporter.TestReporter.LogAction | src/core/test_reporter.py:77-92 | appends the action to the first record of the iteration and changes nothing else |
| Reporter.TestReporter.LogIterationComplete | src/core/test_reporter.py:94-114 | finishes the first record of the iteration and changes nothing else |
| Reporter.TestReporter.LogError | src/core/test_reporter.py:116-126 | appends the error with its context, or fails before initialisation |
| Reporter.TestReporter.GetCurrentStats | src/core/test_reporter.py:299-317 | the statistics of the current records, or an error before initialisation |
| Reporter.TestReporter.GenerateReport | src/core/test_reporter.py:128-158 | records the summary and end time, and returns the text report's path in the output directory (joined as pathlib joins) unless uninitialised |
| Reporter.JoinPath | src/core/test_reporter.py:156 | `output_dir / name`: the path ends in the name; the current directory adds no prefix; any other directory is kept whole and followed by exactly one separator |
| Reporter.JoinPathExamples | src/core/test_reporter.py:156 | "logs" gives "logs/name", "." gives "name", "/" gives "/name", and a trailing separator is not doubled |
| Reporter.TestReporter.GetCsvRows | src/core/test_reporter.py:267-290 | one row per record plus the header |
| Reporter.FirstMatchIsFirst | src/core/test_reporter.py:87-90 | the first record with the iteration number is the one found |
| Reporter.ReporterStatsAgree | src/core/test_reporter.py:102-103 | in a reporter, successful and completed counts agree |
| Orchestrator.SwapResult | src/core/agent_orchestrator.py:185-199 | the swap test succeeds exactly when every iteration did, and has an error message exactly when it failed |
| Orchestrator.PollBound | src/core/agent_orchestrator.py:271-291 | with a positive interval, a poll is only taken while the elapsed time is below the limit, so a wait polls at most ceil(limit / interval) times |
| Orchestrator.StalledPollNeverTimesOut | src/core/agent_orchestrator.py:319-337 | with a non-positive interval and a positive limit, a wait never times out: it ends only on a deciding or failing analysis |
| Orchestrator.IntendedValidationBoundsPolls | src/core/agent_orchestrator.py:263-337 | under the intended validation both waits poll at most ceil(limit / interval) times, whatever the screens show |
| Orchestrator.PollsWithin | src/core/agent_orchestrator.py:263-337 | with positive intervals both waits poll at most ceil(limit / interval) times |
| Orchestrator.PollTimeout | src/core/agent_orchestrator.py:325-337 | a timeout means time ran out and no poll was decisive |
| Orchestrator.PollDecided | src/core/agent_orchestrator.py:277-282 | otherwise the last poll decided the outcome and none before it did |
| Orchestrator.Answer | src/core/agent_orchestrator.py:222-225 | an analysis succeeds only while the script of analyses lasts |
| Orchestrator.Then | src/core/agent_orchestrator.py:201-216 | a part that fails ends the sequence with its own course; after one that succeeds, the next part's outcome is the outcome |
| Orchestrator.PerformedAppend | src/core/agent_orchestrator.py:307-317 | the input events for two runs of actions are those of the first, then those of the second |
| Orchestrator.AfterThen | src/core/agent_orchestrator.py:201-216 | running one part and then another leaves the record of the two in sequence |
| Orchestrator.ActionCourse | src/core/agent_orchestrator.py:307-317 | a dry run asks and hands over nothing; otherwise the action is handed over, and it succeeds exactly when the executor reports no failure |
| Orchestrator.WaitCourse | src/core/agent_orchestrator.py:319-337 | a wait hands over nothing, asks its own prompt once per poll, and ends as the poll function says |
| Orchestrator.StepCourse | src/core/agent_orchestrator.py:218-261 | a step asks its prompt first and then only screen checks; a failed analysis is its error, no action needed is success, and a needed action is handed over unless it is a dry run |
| Orchestrator.RecoveryCourse | src/core/agent_orchestrator.py:339-354 | a recovery attempt asks the recovery question once and nothing else |
| Orchestrator.SwapUnfolds | src/core/agent_orchestrator.py:201-216 | a swap is the navigation, then the rest from the network selection on |
| Orchestrator.SelectionUnfolds | src/core/agent_orchestrator.py:201-216 | the rest from the selection is the selection, then the rest from the swap start on |
| Orchestrator.StartUnfolds | src/core/agent_orchestrator.py:201-216 | the rest from the start is the start step, then the rest from the completion wait on |
| Orchestrator.CompletionUnfolds | src/core/agent_orchestrator.py:201-216 | the rest from the completion wait is the wait, then the verification |
| Orchestrator.NothingDone | src/core/agent_orchestrator.py:148-199 | a part that does nothing leaves the record unchanged and adds nothing before or after another part |
| Orchestrator.StepAsksNoRecovery | src/core/agent_orchestrator.py:218-261 | a navigation, selection or start step never asks the recovery question |
| Orchestrator.SwapAsksNoRecovery | src/core/agent_orchestrator.py:201-216 | no part of a swap asks the recovery question |
| Orchestrator.RunIteration | src/core/agent_orchestrator.py:162-181 | an iteration goes on only after a part that succeeded |
| Orchestrator.IterationParts | src/core/agent_orchestrator.py:162-181 | an iteration is the swap when it succeeds, the swap alone when errors stop the test, and otherwise the swap followed by a recovery attempt; it goes on exactly when that succeeded and errors do not stop the test after a failure |
| Orchestrator.AfterDone | src/core/agent_orchestrator.py:173-181 | the record after a part does not depend on whether it failed |
| Orchestrator.RestStep | src/core/agent_orchestrator.py:154-181 | the loop from an iteration is that iteration, then, when it goes on, the loop from the next one: results, record, successes and iterations begun add up |
| Orchestrator.RestEnds | src/core/agent_orchestrator.py:154-160 | past the iteration count, or once abort is requested, the loop does nothing more and succeeds |
| Orchestrator.SameSwap | src/core/agent_orchestrator.py:201-216 | two loops modelling the same test swap alike |
| Orchestrator.SameRecovery | src/core/agent_orchestrator.py:339-354 | two loops modelling the same test attempt recovery alike |
| Orchestrator.SameIteration | src/core/agent_orchestrator.py:162-181 | two loops modelling the same test run an iteration alike |
| Orchestrator.ModelsAgree | src/core/agent_orchestrator.py:148-199 | two loops modelling the same test run alike from any iteration |
| Orchestrator.ModelIsTest | src/core/agent_orchestrator.py:148-199 | any loop modelling the test runs exactly as the test itself |
| Orchestrator.SwapLoopBegins | src/core/agent_orchestrator.py:154-160 | the test begins at most one iteration per number left, at least one when any is left, and each begun iteration yields one outcome unless abort stopped it |
| Orchestrator.IterationRecovers | src/core/agent_orchestrator.py:173-181 | an iteration asks the recovery question once when its swap failed and errors do not stop the test, and never otherwise |
| Orchestrator.GluedCounts | src/core/agent_orchestrator.py:154-181 | recovery questions and failed outcomes of an iteration followed by the rest add up |
| Orchestrator.StopOnErrorNeverFails | src/core/agent_orchestrator.py:173-178 | when errors stop the test, the test itself never fails |
| Orchestrator.StopOnErrorAsksNoRecovery | src/core/agent_orchestrator.py:176-181 | when errors stop the test, no recovery is attempted |
| Orchestrator.StopOnErrorStopsAtFailure | src/core/agent_orchestrator.py:176-178 | when errors stop the test, only the last swap it ran can have failed |
| Orchestrator.RecoveryContinues | src/core/agent_orchestrator.py:154-181 | when errors do not stop the test, a test that ends normally without abort ran every iteration |
| Orchestrator.RecoveryFollowsFailures | src/core/agent_orchestrator.py:173-181 | when errors do not stop the test, it asks the recovery question exactly once per failed swap |
| Orchestrator.SwapLoopCountsSuccesses | src/core/agent_orchestrator.py:162-165 | the successes counted are exactly the swaps that succeeded |
| Orchestrator.TestLoopAsksRecoveryOnlyToRecover | src/core/agent_orchestrator.py:201-216 | in the orchestrator's test, swaps never ask the recovery question and a recovery attempt asks only it |
| Orchestrator.SwapTestSucceedsIffAllSwapsDid | src/core/agent_orchestrator.py:154-199 | the successes are the swaps that succeeded, and the test succeeds exactly when it ran every iteration and every swap succeeded |
| Orchestrator.SwapTestRecovers | src/core/agent_orchestrator.py:154-199 | without stop-on-error, a test that ends normally ran every iteration, and each failed swap was followed by exactly one recovery question |
| Orchestrator.SwapTestStopsAtFailure | src/core/agent_orchestrator.py:154-199 | with stop-on-error, the test never fails itself, asks no recovery question and stops at its first failed swap |
| Orchestrator.AgentOrchestrator.constructor | src/core/agent_orchestrator.py:43-58 | a new orchestrator has an idle executor, an uninitialised reporter and no prompts |
| Orchestrator.AgentOrchestrator.Ask | src/core/agent_orchestrator.py:222-225 | each prompt is recorded and answered by the next scripted analysis |
| Orchestrator.AgentOrchestrator.ExecuteAiAction | src/core/agent_orchestrator.py:307-317 | a dry run does nothing; otherwise the action is executed and its failure reported |
| Orchestrator.AgentOrchestrator.Wait | src/core/agent_orchestrator.py:319-337 | the polling loop agrees with the poll function and asks the same prompt each time |
| Orchestrator.AgentOrchestrator.WaitRecord | src/core/agent_orchestrator.py:319-337 | the prompts after a wait are those before it followed by the wait's own |
| Orchestrator.AgentOrchestrator.ActionStep | src/core/agent_orchestrator.py:218-261 | the record and the result are exactly the step's course: a failed analysis is the error; a needed action is handed over unless it is a dry run, its failure is the result, and a step that expects a screen then waits for it, whose verdict is the result |
| Orchestrator.AgentOrchestrator.VerifySwapSuccess | src/core/agent_orchestrator.py:293-305 | succeeds exactly when the analysis says the swap succeeded, else reports the reason |
| Orchestrator.AgentOrchestrator.ExecuteSingleSwap | src/core/agent_orchestrator.py:201-216 | the record and the result are exactly the swap's course: navigate, select, start, wait for completion and verify, the first failure ending the swap |
| Orchestrator.AgentOrchestrator.AttemptRecovery | src/core/agent_orchestrator.py:339-354 | asks once and performs the recovery action only when recovery is possible |
| Orchestrator.AgentOrchestrator.SwapIteration | src/core/agent_orchestrator.py:162-181 | one iteration leaves exactly the record of its course; whether the swap succeeded and the result are the iteration's, and the test goes on exactly when that succeeded and errors do not stop it after a failure |
| Orchestrator.AgentOrchestrator.ExecuteSwapTest | src/core/agent_orchestrator.py:148-199 | the record, the count of successful swaps, the result and the current iteration are exactly those of the test's loop; with the lemmas above, the count is the number of swaps that succeeded and the test succeeds exactly when all of them did |
| Orchestrator.AgentOrchestrator.VerifyApplicationReady | src/core/agent_orchestrator.py:132-146 | succeeds exactly when the application is reported ready, else reports the reason |
| Orchestrator.AgentOrchestrator.RunScenario | src/core/agent_orchestrator.py:73-84 | checks readiness first: a failed or negative check is raised with its reason and nothing else is done; swap_test returns the swap test's own result and records exactly its analyses and actions; the other scenarios raise |
| Orchestrator.AgentOrchestrator.InitializeModules | src/core/agent_orchestrator.py:109-118 | a start-up failure is raised before the executor and the reporter are touched; otherwise the executor is ready and the reporter initialised |
| Orchestrator.AgentOrchestrator.Attempt | src/core/agent_orchestrator.py:69-84 | after a clean start, the outcome and the record are those of the readiness check and the scenario run against the ready executor; a start-up failure changes nothing |
| Orchestrator.AgentOrchestrator.GenerateFinalReport | src/core/agent_orchestrator.py:488-490 | the reporter records the result's summary; the result comes back with the report path, or the reporter's error when it was never initialised |
| Orchestrator.AgentOrchestrator.Run | src/core/agent_orchestrator.py:60-107 | after a clean start, `run` raises exactly when the readiness check or the scenario fails, and otherwise returns the swap test's result with the report path; raised errors become the error result; every result is the recorded summary; the modules are cleaned up |
| Orchestrator.ScenarioSucceedsIffAllSwapsDid | src/core/agent_orchestrator.py:73-84 | the scenario's outcome is a success exactly when the application is ready, the scenario is swap_test and every iteration ran and swapped; a successful outcome counts the successful swaps |
| Orchestrator.StopOnErrorRunReturnsResult | src/core/agent_orchestrator.py:73-84 | with stop-on-error and a ready application, swap_test returns a result rather than raising, and asks no recovery question |
| Orchestrator.TestLoopModels | src/core/agent_orchestrator.py:148-199 | the loop built from a test's setup models that test |

## Left out

- Image decoding, resizing, pasting, PNG encoding and base64: screenshots are modelled by their sizes only.
- Operating-system input (pyautogui, pynput, win32): recorded as event traces; their own failures and timings are not modelled.
- The OpenAI, Azure OpenAI and aiohttp clients are scripted outcome sequences. Request fields other than the input, the previous id, the tools, the temperature and the wait are not recorded.
- `json.loads` of model text and of function-call arguments is a `decode` parameter. JSON encoding of results and messages is not modelled.
- The regular expression for the suggested wait is matched directly on characters, not through a regex engine.
- `Scaling.Effect`: a pointer action (click, double click, scroll, move, drag) on a scaler that has not taken a screenshot yet fails with `NotCalibrated`. The source translates it with the -1 sentinel sizes and performs it at physical (0, 0) (cua/scaler.py:124-135, see Findings); that as-written translation is `Scaling.PointToScreenAsWritten`, and the scaler and the agent run the corrected `Scaling.ToScreen`.
- `Scaling.PathToScreen`: a drag path on an uncalibrated scaler is refused; the source maps every point to (0, 0).
- `Scaling.Scaler.Click`: before the first screenshot the click is refused with `NotCalibrated`; the source clicks at physical (0, 0).
- `Scaling.Scaler.DoubleClick`: before the first screenshot the double click is refused; the source double-clicks at (0, 0).
- `Scaling.Scaler.Scroll`: before the first screenshot the scroll is refused; the source scrolls at (0, 0).
- `Scaling.Scaler.Move`: before the first screenshot the move is refused; the source moves to (0, 0).
- `Scaling.Scaler.Drag`: before the first screenshot the drag is refused; the source drags through (0, 0) points.
- `CuaAgent.Step`: a pointer action before the scaler's first screenshot (the first action of a run) raises `Device(NotCalibrated)`; the source performs it at (0, 0), answers it and goes on.
- `CuaAgent.Agent.Perform`: dispatches to the scaler's pointer methods, which refuse before the first screenshot where the source acts at (0, 0).
- `CuaAgent.Agent.HandleItem`: the first pointer action of a run fails the item with `Device(NotCalibrated)`, where the source clicks (0, 0), takes the screenshot and answers.
- `CuaAgent.Agent.ContinueTask`: a turn whose first action is a pointer action before any screenshot stops with nothing sent, where the source performs it at (0, 0) and sends the answers.
- `Reporter.JoinPath`: joins as POSIX `pathlib` does for ".", "" and a trailing separator; other normalisation of the directory (repeated separators, "./" segments, a trailing "/.") is not modelled.
- `CuaAgent.RetryWait`: the suggested wait is read from ASCII digits only (`Text.IsDigit`, `Text.ParseNat`, `CuaAgent.SuggestedWait`). Python's `\d` and `int()` also accept other Unicode decimal digits, so "Please try again in ٧s" waits 7 seconds in the source and 10 in the model.
- Floating point is modelled as exact reals: a truncated coordinate can differ by one pixel from the float computation.
- Sleeps, timestamps and elapsed time are parameters; `asyncio` scheduling and logging are not modelled.
- YAML loading and saving, directory creation, and the JSON, text and CSV report files are not modelled. `Path.exists` is a boolean parameter.
- The prompt texts (src/core/agent_orchestrator.py:366-486) and `build_ai_prompt_context` (src/core/context_manager.py:152-183) only produce prompt strings, so they are not modelled.
- The orchestrator's use of the context manager only feeds prompts, so it is not modelled; its screen capture and AI analysis are merged into the scripted analyses.
- The orchestrator's module initialisation outcome is a single optional start-up error. Cleanup of the AI client and the executor is not modelled.
- `Executor.ActionExecutor.Initialize`: the Windows and Linux controller set-up is merged into one ready flag. `test_input` and `cleanup` are not modelled.
- `Orchestrator.Describe`: error texts approximate Python's `str()` of the exceptions; float formatting in timeout messages is not reproduced.
- Reply content that is not a string is reported as an analysis failure, and in `initialize` as a connection failure; the exceptions Python would raise on it are not distinguished.
- `ComputerUseAssistant.cleanup`, `is_paused` and resolution changes during a run are not modelled.
- `Assistant.ComputerUseAssistant.Initialize`: always wraps the computer in a scaler. With no configured size the source uses the local computer directly, and the unscaled local computer is not modelled as a tool target.
- `Assistant.ComputerUseAssistant.CaptureFinal`: states only that at most one screenshot is kept, not which one.
- `Orchestrator.PollBound`: bounds the number of polls by the time limit rather than giving the exact count.
- `Executor.ActionExecutor.ExecuteKeySequence`: a JSON object given as `keys` is reported as not iterable. Python iterates a dict's keys in insertion order, but decoded objects are modelled as maps, which keep no order, so that case is not modelled.
- Text case mapping (`str.lower`, `str.upper`) covers ASCII letters only; Python also maps other Unicode letters. This affects the log-level and autoplay checks, key names, goal selection and the free-text reading of AI answers.
- The orchestrator's analyses are a finite script: once it runs out, every further analysis fails with "no answer", which the source never reports. It is also what ends a wait whose poll interval is not positive; the source would poll for ever there (see Findings).
- `Assistant.ComputerUseAssistant.TakeTurn` and `Assistant.ComputerUseAssistant.TaskLoop` are the body and the loop of `execute_instructions`, split out as methods. Consent and safety prompts always accept, so the branches that break on a refusal cannot be taken.
- `Orchestrator.AgentOrchestrator.SwapIteration` is the body of the loop of `_execute_swap_test`, split out as a method. `Orchestrator.AgentOrchestrator.ExecuteSwapTest` is stated against any loop description that models the test; `Orchestrator.ModelIsTest` shows every such description runs as the test does.

## Findings

| source | as written | input that shows it | evidently intended | confidence | as-written member | corrected member |
|---|---|---|---|---|---|---|
| src/core/config_manager.py:168-188 | `validate_config` checks neither `screen_poll_interval` nor `status_poll_interval`; the waits add the interval to the elapsed time after each inconclusive poll | both intervals 0.0 with every other setting valid: validation reports nothing, and a wait whose screens never decide polls for ever instead of timing out | reject a non-positive poll interval, so that every wait polls at most ceil(limit / interval) times | not executed | CoreSettings.ZeroPollIntervalPasses, Orchestrator.StalledPollNeverTimesOut | CoreSettings.ValidateConfigIntended, Orchestrator.IntendedValidationBoundsPolls |
| src/core/config_manager.py:112-147 | `_create_default_config` writes `output_dir: 'logs'`; loaded back it stays a `str`, and `__post_init__` calls `self.output_dir.mkdir`, which raises, and `load_config` turns that into `ValueError` | `load_config` of a missing file: the default file is written, then loading it fails on `output_dir` | convert the directory settings to `Path` on load, so the default file loads and only its placeholder key is reported by validation | not executed | CoreSettings.LoadConfigAsWritten, CoreSettings.DefaultFileFailsToLoad | CoreSettings.LoadConfig, CoreSettings.DefaultFileNeedsKey |
| cua/scaler.py:124-135 | the point translation divides by a ratio built from `screen_width`/`screen_height`, which stay -1 until the first screenshot; the agent performs a response's actions before it takes any screenshot | logical size 1024×768, no screenshot yet, click at (100, 50): the ratio is -1024 and the click goes to physical (0, 0); after one 1920×1080 screenshot the same click goes to (187, 93) | translate only once the physical size is known (take a screenshot, or read the computer's dimensions, first) | not executed | Scaling.PointToScreenAsWritten, Scaling.UncalibratedClickExample | Scaling.ToScreen, Scaling.ImagePointsLandOnScreen |
