# OM1 runtime core, modelled in Dafny

This project models three parts of the OM1 agent runtime and proves what they promise.

- **The multi-mode supervisor (`ModeCortexRuntime`).**
  - It holds the current runtime config, five orchestrators, four asyncio task handles, a one-slot backup (mode name and config) and a transition-in-progress flag.
  - On a mode transition it takes a backup, announces the exit message, stops the running tasks, initialises the target mode, starts it, announces the entry message and clears the backup.
  - When any of that raises, it recovers in three stages: roll back to the backed-up mode, else recover into the default mode, else announce a critical error and raise.
  - It also runs one tick of the cortex loop and answers the available-modes query.
- **The configuration validator (`ConfigValidator`).** It turns a parsed agent configuration into an ordered list of errors and maps error texts to suggestions.
- **The connection manager (`ConnectionManager`, `APIConnectionManager`, `retry_on_failure`).**
  - It retries a connection function up to `max_retries` times.
  - The timeout grows by two seconds per attempt, and there is a back-off sleep between attempts.
  - It counts attempts, successes and failures.
  - It tracks the time of the last successful API call and the current run of consecutive failures.

## Layout

- `wrappers.dfy`, module `Wrappers`: `Option` and `Result`.
- `py_strings.dfy`, module `PyStrings`: Python's substring `in`, `startswith`/`endswith`, ASCII `lower()`, `str(int)` and `join`, over `string`.
- `mode_cortex.dfy`, module `ModeCortex`: the supervisor's state as a `Snapshot` value, and one spec function per method. The methods' properties are proved as lemmas here.
- `mode_cortex_runtime.dfy`, module `CortexRuntime`:
  - the class `ModeCortexRuntime`, which has the source's fields and updates them in place;
  - each method ensures that the new fields are the matching `ModeCortex` function of the old ones.
- `config_validator.dfy`, module `ConfigValidator`:
  - a `Json` datatype for what `json.load` returns;
  - Python's `in`, `[]`, iteration and `len` on it, including the `TypeError`s they raise;
  - one spec function per check, and a loop method per check that loops in the source.
- `connection_manager.dfy`, module `Connectors`:
  - the spec function `Loop`/`RobustRun` of the retry loop;
  - the classes `ConnectionManager` and `APIConnectionManager`, whose methods are proved against it.

## How the model stands in for what it cannot see

Collaborators are oracle arguments.

- **Supervisor:**
  - `InitOracle`, `Fault`, `RecoveryOracle`, `TransitionOracle` and `TickOracle` say which collaborator call raises and what the fuser, mode manager and LLM return. `TickOracle.raises` names the one call of a tick that raises, if any.
  - `trace` records, in order, every collaborator call, every task cancel and every combined wait. It also records a marker for each internal step the source logs: `BackupCreated`, `BackupCleared`, `Stopping`, `CleaningUp`, `Initializing`, `Starting`, `RollbackAttempted` and `RecoveryAttempted`.
  - Speech is the append-only log `spoken`.
  - A method that raises returns `ok == false`, or the outcome `Unrecoverable(message)`.
- **Validator:**
  - The environment is a `map<string, string>`.
  - Whether the file exists is a boolean.
  - What `_load_config` returned or raised is a `Result`.
- **Connection manager:**
  - The connection function is `call: nat -> Outcome`, where `call(i)` is what invocation `i` does within its timeout: return, raise, or time out.
  - The clock is the integer `now`.

## Model

| member | source | states |
|---|---|---|
| ModeCortex.Announce | src/runtime/multi_mode/cortex.py:115-117 | an announcement appends the message to the speech queue and to the trace, nothing else |
| ModeCortex.CreateBackupState | src/runtime/multi_mode/cortex.py:211-223 | the backup holds the given mode name and the config current at that moment; config, orchestrators, tasks, mode and flag are untouched |
| ModeCortex.ClearBackupState | src/runtime/multi_mode/cortex.py:225-229 | the backup slot is empty afterwards and nothing else changes |
| ModeCortex.PendingSlots | src/runtime/multi_mode/cortex.py:297-313 | the slots collected for cancelling (`Pending`) are exactly those whose task is present and not done, each once, in slot order |
| ModeCortex.SweepEvents | src/runtime/multi_mode/cortex.py:315-327 | a sweep cancels each collected task in slot order, then makes one combined wait on exactly the collected slots; nothing at all when nothing was collected |
| ModeCortex.SweepSettlesPending | src/runtime/multi_mode/cortex.py:315-327 | after a sweep (`Sweep`) every task that was pending is cancelled and done, every other handle is as it was, and nothing is pending |
| ModeCortex.StopCurrentOrchestrators | src/runtime/multi_mode/cortex.py:291-335 | the stop sweep cancels exactly the pending tasks, waits once only if there were any, and always leaves all four task slots empty; config, orchestrators, mode, backup and speech are untouched |
| ModeCortex.CleanupTasks | src/runtime/multi_mode/cortex.py:358-387 | the shutdown sweep cancels and waits the same way, keeps the handles, and leaves none of them pending |
| ModeCortex.BuildOrchestrators | src/runtime/multi_mode/cortex.py:79-82 | the four constructors run in order; a raise at step 0, 1, 2 or 3 leaves exactly the fuser, action and simulator orchestrators before it rebuilt for the config and the rest as they were; success exactly when none raises, and then all four are bound to the config |
| ModeCortex.InitializeMode | src/runtime/multi_mode/cortex.py:62-84 | succeeds exactly when the mode is registered, loading succeeds and no constructor raises; an unknown mode changes nothing; on success the mode's config is current and fresh orchestrators are bound to it; tasks, mode and backup are untouched |
| ModeCortex.StartOthers | src/runtime/multi_mode/cortex.py:348-354 | a simulator, action or background task is started exactly when its orchestrator exists; a start that raises keeps exactly the tasks started before it and leaves the later ones as they were; the input task and every other field are untouched |
| ModeCortex.StartOrchestrators | src/runtime/multi_mode/cortex.py:337-356 | raises, changing nothing, without a current config; otherwise it sets the input orchestrator and listener task, then the other three tasks only where the orchestrator exists; it succeeds exactly when no reached step raises |
| ModeCortex.StartAfterBuild | src/runtime/multi_mode/cortex.py:337-356 | after a full build every start step runs, success means no step raised, and all four slots hold new tasks |
| ModeCortex.RollbackToBackup | src/runtime/multi_mode/cortex.py:231-264 | raises and changes nothing without a backup name; it succeeds exactly when there is a backup name and a backup config and neither rebuild nor restart raises (a `None` config fails at start); success restores the backed-up config and makes the backed-up name the current mode |
| ModeCortex.EmergencyModeRecovery | src/runtime/multi_mode/cortex.py:266-289 | succeeds exactly when initialising and starting the safe mode succeed, leaving it current with no previous mode, its config current and all tasks new; the backup is untouched |
| ModeCortex.TerminalFailure | src/runtime/multi_mode/cortex.py:200-209 | stage 3 announces the critical-error message once and raises a RuntimeError naming the target mode, changing nothing else |
| ModeCortex.DefaultModeStageOutcome | src/runtime/multi_mode/cortex.py:184-209 | stage 2 recovers exactly when the default mode is neither endpoint and it initialises and starts; otherwise the terminal error follows |
| ModeCortex.DefaultModeStageEffects | src/runtime/multi_mode/cortex.py:184-209 | stage 2 and what follows announce exactly one message, the one matching the outcome, and leave backup and flag alone |
| ModeCortex.DefaultModeStagePostState | src/runtime/multi_mode/cortex.py:286-288 | a default-mode recovery leaves the default mode current with no previous mode |
| ModeCortex.RecoveryOutcome | src/runtime/multi_mode/cortex.py:167-209 | the recovery ends in rollback when the backup name is non-empty, differs from the target and the rollback succeeds (`RollbackEligible`); else in the default mode when it is tried and succeeds (`DefaultEligible`); else in the terminal error naming the target |
| ModeCortex.RecoveryAnnouncesOnce | src/runtime/multi_mode/cortex.py:175-206 | whatever the stage, exactly one message is announced and it names the outcome; backup and flag are left alone |
| ModeCortex.RecoveryPostState | src/runtime/multi_mode/cortex.py:249-288 | after a rollback the backed-up config and mode are current; after a default-mode recovery the default mode is current with no previous mode |
| ModeCortex.NoStageEligible | src/runtime/multi_mode/cortex.py:168-209 | with neither stage eligible, the handler goes straight to the terminal error without touching orchestrators or tasks |
| ModeCortex.SwitchOrchestrators | src/runtime/multi_mode/cortex.py:120-127 | stop, initialise and start succeed together exactly when initialisation and start do; then the target's config and orchestrators are current, all tasks are new, and the trace shows stop, sweep, initialise and start once each |
| ModeCortex.AnnounceExit | src/runtime/multi_mode/cortex.py:111-118 | the exit message is announced exactly when announcements are on and the mode has a non-empty one |
| ModeCortex.AnnounceEntry | src/runtime/multi_mode/cortex.py:129-134 | the entry message is announced exactly when announcements are on and the mode has a non-empty one |
| ModeCortex.TryTransition | src/runtime/multi_mode/cortex.py:107-138 | the try block fails exactly when the exit-message lookup, initialisation or start raises, and then the backup still holds the departed mode and its config; speech gains the exit message, and the entry message only on success; the mode and flag are untouched |
| ModeCortex.SuccessfulTransition | src/runtime/multi_mode/cortex.py:109-138 | a transition without failures runs backup, exit message, stop, initialise, start, entry message and clear once each in that order, and ends with the target's config, fresh tasks and an empty backup |
| ModeCortex.OnModeTransition | src/runtime/multi_mode/cortex.py:101-146 | with the flag already set nothing at all happens; otherwise the handler is not skipped and the flag is clear afterwards on every way out, the terminal error included |
| ModeCortex.TransitionOutcome | src/runtime/multi_mode/cortex.py:107-146 | the outcome is the transition, else a rollback to the departed mode, else the default mode, else the terminal error, each under the conditions that make it succeed |
| ModeCortex.TransitionAnnouncements | src/runtime/multi_mode/cortex.py:111-134 | speech gains the exit message if any, then the entry message on success or exactly one recovery message otherwise |
| ModeCortex.QuietTransition | src/runtime/multi_mode/cortex.py:112-134 | with announcements off a successful transition enqueues no message |
| ModeCortex.TransitionPostState | src/runtime/multi_mode/cortex.py:107-146 | after a transition the target's config is current with an empty backup and the mode unchanged; after a rollback the starting config and mode are back; after a default-mode recovery the default mode is current with no previous mode |
| ModeCortex.FlagHeldThroughout | src/runtime/multi_mode/cortex.py:105-146 | the flag stays set through the try block and through every recovery stage |
| ModeCortex.TickEvents | src/runtime/multi_mode/cortex.py:477-479 | a tick does nothing unless config, fuser and action orchestrator all exist |
| ModeCortex.TickDecisions | src/runtime/multi_mode/cortex.py:477-503 | the LLM is asked exactly when the tick is ready, a prompt was fused, no mode switch happened and no earlier call raised; the action orchestrator is promised the actions exactly when the LLM also answered and neither the ask nor the simulator's promise raised; the simulator is promised them exactly when there is one and the ask returned actions |
| ModeCortex.TickOrder | src/runtime/multi_mode/cortex.py:488-503 | the mode manager's tick precedes the LLM call, the simulator promise precedes the action promise, and both carry the LLM's actions |
| ModeCortex.TickStopsAtRaise | src/runtime/multi_mode/cortex.py:481-503 | a tick reports an exception exactly when its last call is the raising one: nothing is called after a call that raises, and a tick that ends normally made no raising call |
| ModeCortex.AvailableModes | src/runtime/multi_mode/cortex.py:527-543 | one entry per registered mode, with its display name and description, marked current exactly when it is the manager's mode |
| ModeCortex.CurrentModeIsUnique | src/runtime/multi_mode/cortex.py:536-543 | exactly one mode is reported current when the manager's mode is registered, none otherwise |
| CortexRuntime.CancelEach | src/runtime/multi_mode/cortex.py:315-317 | the loop calls cancel on each collected task in order: handles and events are those of cancelling that list |
| CortexRuntime.ModeCortexRuntime.constructor | src/runtime/multi_mode/cortex.py:23-60 | a new supervisor has no config, orchestrators or tasks, an empty backup, the flag clear and the manager in its initial mode |
| CortexRuntime.ModeCortexRuntime.CreateBackupState | src/runtime/multi_mode/cortex.py:211-223 | the fields afterwards are `ModeCortex.CreateBackupState` of the fields before |
| CortexRuntime.ModeCortexRuntime.ClearBackupState | src/runtime/multi_mode/cortex.py:225-229 | the fields afterwards are `ModeCortex.ClearBackupState` of the fields before |
| CortexRuntime.ModeCortexRuntime.CollectPending | src/runtime/multi_mode/cortex.py:297-313 | the appended list is exactly the pending slots in order, with no field changed |
| CortexRuntime.ModeCortexRuntime.CancelPending | src/runtime/multi_mode/cortex.py:315-327 | the fields afterwards are those after the cancel-and-wait sweep |
| CortexRuntime.ModeCortexRuntime.StopCurrentOrchestrators | src/runtime/multi_mode/cortex.py:291-335 | the fields afterwards are `ModeCortex.StopCurrentOrchestrators` of the fields before |
| CortexRuntime.ModeCortexRuntime.CleanupTasks | src/runtime/multi_mode/cortex.py:358-387 | the fields afterwards are `ModeCortex.CleanupTasks` of the fields before |
| CortexRuntime.ModeCortexRuntime.BuildOrchestrators | src/runtime/multi_mode/cortex.py:79-82 | orchestrators and success are `ModeCortex.BuildOrchestrators` of the old orchestrators; no other field changes |
| CortexRuntime.ModeCortexRuntime.InitializeMode | src/runtime/multi_mode/cortex.py:62-84 | fields and success are `ModeCortex.InitializeMode` of the fields before |
| CortexRuntime.ModeCortexRuntime.StartOrchestrators | src/runtime/multi_mode/cortex.py:337-356 | fields and success are `ModeCortex.StartOrchestrators` of the fields before |
| CortexRuntime.ModeCortexRuntime.StartOthers | src/runtime/multi_mode/cortex.py:348-354 | fields and success are `ModeCortex.StartOthers` of the fields before |
| CortexRuntime.ModeCortexRuntime.RollbackToBackup | src/runtime/multi_mode/cortex.py:231-264 | fields, manager mode and success are `ModeCortex.RollbackToBackup` of them before |
| CortexRuntime.ModeCortexRuntime.EmergencyModeRecovery | src/runtime/multi_mode/cortex.py:266-289 | fields, manager mode and success are `ModeCortex.EmergencyModeRecovery` of them before |
| CortexRuntime.ModeCortexRuntime.Announce | src/runtime/multi_mode/cortex.py:115-117 | the fields afterwards are `ModeCortex.Announce` of the fields before |
| CortexRuntime.ModeCortexRuntime.HandleTransitionFailure | src/runtime/multi_mode/cortex.py:148-209 | fields, manager mode and outcome are `ModeCortex.HandleTransitionFailure` of them before, so the recovery lemmas apply |
| CortexRuntime.ModeCortexRuntime.DefaultModeStage | src/runtime/multi_mode/cortex.py:184-209 | fields, manager mode and outcome are `ModeCortex.DefaultModeStage` of them before |
| CortexRuntime.ModeCortexRuntime.OnModeTransition | src/runtime/multi_mode/cortex.py:86-146 | fields, manager mode and outcome are `ModeCortex.OnModeTransition` of them before, so the transition lemmas apply |
| CortexRuntime.ModeCortexRuntime.TryTransition | src/runtime/multi_mode/cortex.py:107-138 | fields, manager mode and success are `ModeCortex.TryTransition` of them before |
| CortexRuntime.ModeCortexRuntime.Tick | src/runtime/multi_mode/cortex.py:473-503 | a tick changes no field; the trace gains exactly `ModeCortex.TickEvents`; it reports an exception exactly when `ModeCortex.TickRaises` |
| ConfigValidator.Then | src/utils/config_validator.py:60-78 | extending with a check keeps the first exception, and otherwise concatenates the errors in order |
| ConfigValidator.Texts | src/utils/config_validator.py:48-84 | the error texts, one per error in order |
| ConfigValidator.Keys | src/utils/config_validator.py:127 | iterating a dict visits its keys as strings, in order |
| ConfigValidator.Chars | src/utils/config_validator.py:127 | iterating a string visits its one-character strings, in order |
| ConfigValidator.QuotedAll | src/utils/config_validator.py:131 | each type name of the list is shown in single quotes, in order |
| ConfigValidator.ValidateRequiredFields | src/utils/config_validator.py:98-106 | the loop's list is the reference `RequiredErrors` over the three names, raising where `in` raises |
| ConfigValidator.RequiredErrSticks | src/utils/config_validator.py:102-104 | once a field's `in` raises, the whole check raises the same |
| ConfigValidator.AbsentAppend | src/utils/config_validator.py:102-104 | the absent names of a concatenation are those of each part, in order |
| ConfigValidator.RequiredOnDict | src/utils/config_validator.py:102-104 | on a dict the check never raises and reports exactly the absent names, in order |
| ConfigValidator.RequiredFieldsExactly | src/utils/config_validator.py:102-104 | exactly one missing-field error per absent key among `inputs`, `actions`, `llm_config`, and at most three |
| ConfigValidator.FieldKindsOnDict | src/utils/config_validator.py:108-121 | `FieldKindErrors`, built from `KindError`: a kind error exactly for a present field of the wrong kind (list for `inputs`/`actions`, dict for `llm_config`); none for an absent field |
| ConfigValidator.EntriesSnoc | src/utils/config_validator.py:127-134 | the errors of one more entry follow those of the entries before it |
| ConfigValidator.ValidateEntries | src/utils/config_validator.py:123-151 | the check is the enumeration of the value (list items, dict keys, string characters) checked entry by entry, raising where iteration raises |
| ConfigValidator.ValidateEach | src/utils/config_validator.py:127-149 | the loop's list is the reference `EntriesErrors`, stopping at the first exception |
| ConfigValidator.EntriesErrSticks | src/utils/config_validator.py:127-149 | once an entry raises, the whole enumeration raises the same |
| ConfigValidator.EntryOnDict | src/utils/config_validator.py:128-134 | for a dict entry: at most one of missing-type and invalid-type, invalid exactly when the type is present and not in the fixed list, missing-config exactly when `config` is absent |
| ConfigValidator.PartsOnDict | src/utils/config_validator.py:128-134 | the same facts on the type part and the config part |
| ConfigValidator.EntryShape | src/utils/config_validator.py:128-134 | a dict entry's errors are its type error, if any, then its config error, if any |
| ConfigValidator.EntriesPrefix | src/utils/config_validator.py:127-134 | index order: the errors of the first n entries are a prefix of the errors of all of them |
| ConfigValidator.EntriesOnDicts | src/utils/config_validator.py:127-149 | on a list of dicts the check never raises and gives at most two errors per entry |
| ConfigValidator.LlmOnDict | src/utils/config_validator.py:153-165 | `LlmErrors` on a dict: one error per missing `model` and per missing `api_key`; a placeholder error exactly when the key equals one of the three placeholders; never both key errors |
| ConfigValidator.EnvReferenceChecked | src/utils/config_validator.py:179-184 | `EnvError` on any dict config whose `llm_config` holds a `${NAME}` key: one error naming NAME exactly when NAME is unset or empty in the environment |
| ConfigValidator.EmptyChecked | src/utils/config_validator.py:171-176 | `EmptyError` on a dict config: nothing for an absent field, the error exactly when a present list is empty, and an exception for a value without a length |
| ConfigValidator.CommonIssuesOnDict | src/utils/config_validator.py:167-185 | `CommonIssues` on a dict config with list-valued `inputs`/`actions`: the no-inputs error, then the no-actions error, each exactly when its list is present and empty, then what the environment check finds |
| ConfigValidator.EnvCheckSkipped | src/utils/config_validator.py:178-184 | no `llm_config`, no `api_key`, or a string key not of the form `${NAME}`: no environment error |
| ConfigValidator.Extend | src/utils/config_validator.py:60-84 | before any exception a check's errors are appended; a state that already raised is never extended |
| ConfigValidator.ValidateAgentConfig | src/utils/config_validator.py:38-84 | the result is the reference `AgentConfigReport` over existence, load result and environment |
| ConfigValidator.ValidatePresent | src/utils/config_validator.py:66-71 | a present `inputs`/`actions` field is checked entry by entry; an absent one gives nothing |
| ConfigValidator.ValidIffNoErrors | src/utils/config_validator.py:80 | the file is valid exactly when the error list is empty |
| ConfigValidator.MissingFile | src/utils/config_validator.py:52-54 | a missing file gives invalid with exactly the one not-found error |
| ConfigValidator.ExceptionReported | src/utils/config_validator.py:82-84 | an exception while checking gives invalid, with the errors collected before it and then one error carrying its text |
| ConfigValidator.GetSuggestions | src/utils/config_validator.py:211-233 | the loop's list is the reference `Suggestions`: per error in order, the hint `SuggestionFor` gives by the first matching rule |
| ConfigValidator.SuggestionsAppend | src/utils/config_validator.py:223-231 | suggestions of a concatenation are the concatenation of suggestions |
| ConfigValidator.SuggestionsBound | src/utils/config_validator.py:223-231 | at most one suggestion per error |
| ConfigValidator.SuggestionsAreHints | src/utils/config_validator.py:224-231 | every suggestion is one of the four fixed hints |
| ConfigValidator.EnvHintMissed | src/utils/config_validator.py:230-231 | as written, the unset-variable error for `OM_API_KEY` gets no suggestion at all |
| ConfigValidator.NoRuleMatches | src/utils/config_validator.py:223-231 | an error lacking certain letters, and the `e`-then-`v` pattern start, matches none of the four rules |
| ConfigValidator.EnvHintGiven | src/utils/config_validator.py:230-231 | under the intended rule every unset-variable error gets a suggestion |
| ConfigValidator.EnvHintRestored | src/utils/config_validator.py:230-231 | under the intended rule the `OM_API_KEY` error gets the environment hint |
| ConfigValidator.IntendedWhereMissed | src/utils/config_validator.py:223-231 | the intended rule differs from the written one only where the written one gives nothing, and then it gives the hint exactly when the lower-cased error has the pattern |
| ConfigValidator.EnvErrorLowered | src/utils/config_validator.py:184 | every lower-cased unset-variable error contains "environment variable" |
| ConfigValidator.InvalidSampleSuggestions | src/utils/config_validator.py:223-231 | the invalid sample's errors get the inputs and the actions hints, in that order, and the missing key none |
| ConfigValidator.SuggestionsOfThree | src/utils/config_validator.py:223-231 | for three errors of which only the last two match, the suggestions are those two hints in order |
| ConfigValidator.MissingKeyNoHint | src/utils/config_validator.py:161 | the missing-key error says `api_key`, not "API key", and gets no suggestion |
| ConfigValidator.NoHintWithout | src/utils/config_validator.py:223-231 | an error lacking `A`, `u`, `t` in either case and `v` matches no rule |
| ConfigValidator.NoInputsHint | src/utils/config_validator.py:172-173 | the empty-inputs error gets the inputs hint |
| ConfigValidator.InputsRule | src/utils/config_validator.py:224-227 | an error without `A` that contains "inputs" gets the inputs hint |
| ConfigValidator.NoActionsHint | src/utils/config_validator.py:175-176 | the empty-actions error gets the actions hint |
| ConfigValidator.ActionsRule | src/utils/config_validator.py:224-229 | an error without `A` or `p` in either case that contains "actions" gets the actions hint |
| ConfigValidator.ValidSampleAccepted | test_improvements.py:62-79 | the complete sample validates as valid with no errors, in any environment |
| ConfigValidator.ValidSampleEntries | test_improvements.py:63-74 | its voice input and speak action give no entry errors |
| ConfigValidator.ValidSampleLlm | test_improvements.py:75-78 | its LLM section and its common-issue checks give no errors |
| ConfigValidator.ValidSampleKey | test_improvements.py:77 | its key is not a `${...}` reference, so no environment error |
| ConfigValidator.InvalidSampleRejected | test_improvements.py:82-89 | the sample with empty lists and no key is invalid, with the missing-key, no-inputs and no-actions errors in that order |
| ConfigValidator.InvalidSampleLlm | test_improvements.py:82-89 | its LLM section reports the missing key, and its common issues both empty lists |
| Connectors.Recorded | src/connectors/connection_manager.py:57-61 | a failed attempt always records a real exception: its timeout or its own exception |
| Connectors.LoopOutcome | src/connectors/connection_manager.py:44-71 | from any iteration the run (`Loop`) stops at the first invocation that returns, with its value, after failures only; otherwise it makes every remaining attempt and raises what the last one recorded |
| Connectors.AttemptLimit | src/connectors/connection_manager.py:44-55 | a run invokes the function at most `max_retries` times, at least once when that is positive, and exactly `max_retries` times when it fails |
| Connectors.SuccessAtFirstReturn | src/connectors/connection_manager.py:51-55 | the run returns the value of the first invocation that returns, after exactly that many invocations |
| Connectors.TotalFailure | src/connectors/connection_manager.py:42-71 | when no invocation returns, the run raises the last attempt's exception, or `None` when no attempt ran |
| Connectors.InvokedInOrder | src/connectors/connection_manager.py:44-51 | the invocations of a run are attempts i, i+1, ... in order, one per invocation |
| Connectors.TimeoutSchedule | src/connectors/connection_manager.py:50 | every invocation of attempt i has timeout `base_timeout + 2*i` |
| Connectors.SleepCount | src/connectors/connection_manager.py:64-67 | a run sleeps after every attempt but the last it makes |
| Connectors.RunSchedule | src/connectors/connection_manager.py:44-67 | a whole run invokes attempts 0, 1, ... in order with the growing timeouts, and sleeps one time fewer than it invokes: `max_retries - 1` times on total failure, k-1 times on success at call k |
| Connectors.CountKeepsConsistent | src/connectors/connection_manager.py:44-71 | a run's counter update (`Count`) keeps the counters consistent: between one and `max_retries` attempts per success, exactly `max_retries` per failure |
| Connectors.SuccessesWithinAttempts | src/connectors/connection_manager.py:73-80 | with consistent counters successes never exceed attempts, so the reported rate is at most 100; with no retries attempts and successes stay zero, while each failed run still counts one failed connection |
| Connectors.ConnectionManager.constructor | src/connectors/connection_manager.py:19-25 | a new manager has the given settings and zero counters, which are consistent |
| Connectors.ConnectionManager.GetStats | src/connectors/connection_manager.py:73-80 | the statistics read the three counters |
| Connectors.ConnectionManager.RobustConnect | src/connectors/connection_manager.py:27-71 | the loop's result and events are those of `RobustRun`; attempts grow by the invocations, successes by one on success, failures by one on total failure; settings are unchanged and consistency is kept |
| Connectors.RetryOnFailure | src/connectors/connection_manager.py:82-98 | every decorated call uses a fresh manager, so its result is the run for the decorator's arguments alone |
| Connectors.FlakySucceedsOnThirdCall | test_improvements.py:153-166 | the function that fails twice returns its value on the third call under three retries, after two sleeps, with timeouts 5, 7 and 9 |
| Connectors.APIConnectionManager.constructor | src/connectors/connection_manager.py:105-108 | five retries, base timeout 15, zero counters, no success, no failures, and unhealthy at every time |
| Connectors.APIConnectionManager.MakeApiCall | src/connectors/connection_manager.py:110-122 | the run is that of the inner manager; success records `now` and clears the failure run, making the manager healthy for exactly the next 300 seconds; failure lengthens the run by one and keeps the last success time; the failure run never exceeds the failed connections |
| Connectors.APIConnectionManager.IsHealthy | src/connectors/connection_manager.py:124-132 | false until some call has succeeded; then true exactly when less than 300 seconds have passed since the last success |
| PyStrings.SubstringAt | src/utils/config_validator.py:224 | a string standing at some offset is a substring |
| PyStrings.NotSubstring | src/utils/config_validator.py:224-230 | a needle two of whose characters never appear at its distance apart is not a substring |
| PyStrings.MissingChar | src/utils/config_validator.py:224-230 | a needle with a character the haystack lacks is not a substring |
| PyStrings.Lower | src/utils/config_validator.py:226 | `lower()` keeps the length and lowers each ASCII letter |
| PyStrings.NotInLower | src/utils/config_validator.py:226-228 | a letter absent in both cases is absent after `lower()` |
| PyStrings.LowerAt | src/utils/config_validator.py:226-228 | a piece that lowers to q makes q a substring of the lowered string |
| PyStrings.NatToString | src/utils/config_validator.py:129 | `str(n)` of a natural number is a non-empty string of decimal digits, with no leading zero unless it is `"0"`, and read back as a decimal numeral (`DecimalValue`) it is n |
| PyStrings.NatToStringUnique | src/utils/config_validator.py:129 | any numeral of digits without a leading zero that reads back as n is `NatToString(n)`: the spelling is the only one Python prints |
| PyStrings.IntToString | src/utils/config_validator.py:129 | `str(n)` of an integer starts with `-` exactly when n is negative; the rest is digits with no leading zero unless n is 0; read back (`DecimalValue`) it is n, or -n after the sign |

## Left out

- The supervisor's `run` method: it gathers tasks, handles `CancelledError` and cleans up at the end. This is asyncio scheduling; only `_cleanup_tasks` is modelled.
- `_run_cortex_loop`: the `1/hertz` float sleep, the skip-sleep flag and the 1-second back-off are timing, not logic.
- `_mode_initialized`: this flag is only read by `run`.
- `get_mode_info` and `request_mode_change`: they delegate to the mode manager.
- The mode manager, and the orchestrator, fuser, LLM, IO-provider and text-to-speech internals: these are external.
  - The mode manager is reduced to its `current_mode`/`previous_mode`.
  - The others become oracle arguments.
  - Text-to-speech never fails in the model.
  - `load_components` and `to_runtime_config` are one pass/raise answer.
- The input-orchestrator construction and `create_task` never raise on their own in the model. Their failure is folded into start step 0.
- The stop test that expects the stop error itself to escape the transition handler is not encoded. In the code that error goes through recovery, and at worst it ends in the terminal RuntimeError.
- Logging is not represented.
- ModeCortex.StopCurrentOrchestrators: the exception handler around the combined wait is not modelled. `return_exceptions=True` makes the wait itself not raise.
- File opening and JSON parsing are not modelled. They are represented by the `fileExists` flag and the `load` result.
- `validate_all_configs`, `main`, the command-line validator and the keyboard remote-control script are I/O only.
- ConfigValidator.Text renders the exception texts in CPython's usual wording. Exact agreement with every CPython version is not claimed.
- `Repr` does not escape quotes inside strings, and JSON floats are not modelled (numbers are integers).
- A dict is an association list. The model assumes distinct keys and looks up the first match, as `json.load` gives for documents without duplicate keys.
- PyStrings.Lower lowers ASCII letters only. Unicode case mapping is not modelled.
- `os.getenv` on a name containing a NUL byte raises in Python. The model treats every name as a map lookup.
- `asyncio.wait_for` and real time are not modelled. The oracle `call` decides whether each invocation returns, raises or times out.
- The `backoff_factor ** attempt` sleep length is a float. Only the position of each sleep is modelled, so the `backoff_factor` parameter is dropped.
- Connectors.ConnectionManager.GetStats: the float `success_rate` is not computed. `SuccessesWithinAttempts` bounds it instead.
- `get_health_status` is a dict of existing values, and the aiohttp demo is I/O only.
- Only exceptions that derive from `Exception` are modelled. Others (such as `KeyboardInterrupt`) would escape `robust_connect` uncounted.
- `time.time()` is replaced by the integer parameter `now`, read when the connection returns.
- Connectors.ConnectionManager.constructor and Connectors.RetryOnFailure: Python's default arguments (`max_retries=3`, `base_timeout`/`timeout=10`) are not modelled; every caller passes the settings explicitly. `backoff_factor` (default 2.0) is dropped as above.
- ModeCortex.TickEvents: the IO provider's `get_mode_transition_input` never raises in the model; its answer is the oracle's `transitionInput`.

## Findings

| source | as written | input that shows it | evidently intended | confidence | as-written member | corrected member |
|---|---|---|---|---|---|---|
| src/utils/config_validator.py:230-231 | the environment rule tests `"environment variable" in error` on the error as it is, but the validator's own error begins with a capital "Environment" | the error `Environment variable 'OM_API_KEY' is not set` gets no suggestion | every unset-variable error gets the environment hint, by testing the lower-cased error like the two rules before it | not executed | ConfigValidator.EnvHintMissed | ConfigValidator.EnvHintRestored |

`ConfigValidator.IntendedSuggestionFor` is the corrected rule. `ConfigValidator.EnvHintGiven` proves that it gives a hint for every unset-variable error. `ConfigValidator.GetSuggestions` models the code as written.
