/** The mode-transition supervisor of a multi-mode agent runtime, as pure
    functions over a `Snapshot` of the supervisor's fields.

    Each function here is the specification of one method of the class in
    mode_cortex_runtime.dfy: it maps the state before the call (and the
    answers of the collaborators, given as oracle arguments) to the state
    after it. Collaborators (fuser, orchestrators, LLM, text-to-speech, mode
    manager internals) are not modelled; what the supervisor asks of them and
    announces is recorded, in order, in `trace`. */
module ModeCortex {
  import opened Wrappers

  // ---------------------------------------------------------------- data

  /** The resolved wiring of one mode: its input sources and the LLM that
      turns a fused prompt into actions. */
  datatype RuntimeConfig = RuntimeConfig(agentInputs: seq<string>, cortexLlm: string)

  /** One registered mode. `runtime` is what `to_runtime_config` resolves it
      to; `None` and `Some("")` messages are both falsy. */
  datatype ModeDefinition = ModeDefinition(
    displayName: string,
    description: string,
    entryMessage: Option<string>,
    exitMessage: Option<string>,
    runtime: RuntimeConfig)

  datatype ModeSystemConfig = ModeSystemConfig(
    modes: map<string, ModeDefinition>,
    defaultMode: string,
    transitionAnnouncement: bool)

  /** Orchestrator instances; each is bound to the config it was built from. */
  datatype Orchestrator =
    | Fuser(config: RuntimeConfig)
    | ActionOrchestrator(config: RuntimeConfig)
    | SimulatorOrchestrator(config: RuntimeConfig)
    | BackgroundOrchestrator(config: RuntimeConfig)
    | InputOrchestrator(inputs: seq<string>)

  /** An asyncio task or future, seen only through `done()` and `cancel()`. */
  datatype TaskHandle = TaskHandle(done: bool, cancelled: bool)

  const NewTask := TaskHandle(false, false)

  /** The four task slots, in the order the sweeps visit them. */
  datatype Slot = InputListener | Simulator | Action | Background

  /** What the supervisor asks of its collaborators and announces, in order. */
  datatype Event =
    | BackupCreated(mode: string)
    | BackupCleared
    | Stopping
    | CleaningUp
    | Cancel(slot: Slot)
    | Gather(slots: seq<Slot>)
    | Initializing(mode: string)
    | Starting
    | RollbackAttempted(mode: string)
    | RecoveryAttempted(mode: string)
    | Say(message: string)
    | FlushPromises
    | Fuse(inputs: seq<string>, finished: seq<string>)
    | ProcessTick(transitionInput: Option<string>)
    | Ask(prompt: string)
    | SimulatorPromise(actions: seq<string>)
    | ActionPromise(actions: seq<string>)

  /** The five orchestrator fields. */
  datatype Orchestrators = Orchestrators(
    fuser: Option<Orchestrator>,
    action: Option<Orchestrator>,
    simulator: Option<Orchestrator>,
    background: Option<Orchestrator>,
    input: Option<Orchestrator>)

  /** The four task fields. */
  datatype Tasks = Tasks(
    inputListener: Option<TaskHandle>,
    simulator: Option<TaskHandle>,
    action: Option<TaskHandle>,
    background: Option<TaskHandle>)

  const NoTasks := Tasks(None, None, None, None)
  const AllNew := Tasks(Some(NewTask), Some(NewTask), Some(NewTask), Some(NewTask))

  /** The supervisor's fields together with the two mode-manager fields it
      writes (`state.current_mode`, `state.previous_mode`) and the
      text-to-speech queue it appends to. */
  datatype Snapshot = Snapshot(
    currentConfig: Option<RuntimeConfig>,
    orch: Orchestrators,
    tasks: Tasks,
    backupConfig: Option<RuntimeConfig>,
    backupModeName: Option<string>,
    transitionInProgress: bool,
    currentMode: string,
    previousMode: Option<string>,
    spoken: seq<string>,
    trace: seq<Event>)

  /** A collaborator call that may raise: `FailAt(k)` makes step k raise. */
  datatype Fault = NoFault | FailAt(step: nat)

  predicate Hits(f: Fault, step: nat) {
    f.FailAt? && f.step == step
  }

  /** A fault among the four steps 0..3. */
  predicate Fails(f: Fault) {
    f.FailAt? && f.step < 4
  }

  /** `loads`: `load_components` and `to_runtime_config` return normally;
      `build`: which of the four orchestrator constructors raises
      (0 Fuser, 1 Action, 2 Simulator, 3 Background). */
  datatype InitOracle = InitOracle(loads: bool, build: Fault)

  predicate InitSucceeds(cfg: ModeSystemConfig, name: string, o: InitOracle) {
    name in cfg.modes && o.loads && !Fails(o.build)
  }

  /** A state change that may end in an exception (`ok == false`). */
  datatype Step = Step(s: Snapshot, ok: bool)

  // ------------------------------------------------------------- messages

  predicate Truthy(m: Option<string>) {
    m.Some? && m.value != ""
  }

  const ReturningMessage := "Mode transition failed. Returning to previous mode."
  const SafeModeMessage := "Mode transition failed. Switching to safe mode."
  const CriticalMessage := "Critical error: unable to recover mode. Please restart the system."

  function FailureMessage(to: string): string {
    "Failed to transition to " + to + " and all recovery attempts failed"
  }

  /** Record one collaborator call. */
  function Log(s: Snapshot, e: Event): (r: Snapshot)
    requires !e.Say?
    ensures r.trace == s.trace + [e] && r.(trace := s.trace) == s
  {
    s.(trace := s.trace + [e])
  }

  /** Hand one message to text-to-speech. */
  function Announce(s: Snapshot, m: string): (r: Snapshot)
    ensures r.trace == s.trace + [Say(m)] && r.spoken == s.spoken + [m]
    ensures r.(trace := s.trace, spoken := s.spoken) == s
  {
    s.(trace := s.trace + [Say(m)], spoken := s.spoken + [m])
  }

  function ModeOf(s: Snapshot): (string, Option<string>) {
    (s.currentMode, s.previousMode)
  }

  function BackupOf(s: Snapshot): (Option<string>, Option<RuntimeConfig>, bool) {
    (s.backupModeName, s.backupConfig, s.transitionInProgress)
  }

  // ------------------------------------------------------------- backup

  /** `_create_backup_state`: remember the mode being left and its config. */
  function CreateBackupState(s: Snapshot, mode: string): (r: Snapshot)
    ensures r.backupModeName == Some(mode) && r.backupConfig == s.currentConfig
    ensures r.currentConfig == s.currentConfig && r.orch == s.orch && r.tasks == s.tasks
    ensures ModeOf(r) == ModeOf(s) && r.transitionInProgress == s.transitionInProgress
    ensures r.trace == s.trace + [BackupCreated(mode)] && r.spoken == s.spoken
  {
    Log(s, BackupCreated(mode)).(backupModeName := Some(mode), backupConfig := s.currentConfig)
  }

  /** `_clear_backup_state`: the slot is empty afterwards. */
  function ClearBackupState(s: Snapshot): (r: Snapshot)
    ensures r.backupModeName == None && r.backupConfig == None
    ensures r.currentConfig == s.currentConfig && r.orch == s.orch && r.tasks == s.tasks
    ensures ModeOf(r) == ModeOf(s) && r.transitionInProgress == s.transitionInProgress
    ensures r.trace == s.trace + [BackupCleared] && r.spoken == s.spoken
  {
    Log(s, BackupCleared).(backupModeName := None, backupConfig := None)
  }

  // ---------------------------------------------------------- task sweeps

  function TaskAt(ts: Tasks, slot: Slot): Option<TaskHandle> {
    match slot
    case InputListener => ts.inputListener
    case Simulator => ts.simulator
    case Action => ts.action
    case Background => ts.background
  }

  function SlotIndex(slot: Slot): nat {
    match slot
    case InputListener => 0
    case Simulator => 1
    case Action => 2
    case Background => 3
  }

  predicate Live(t: Option<TaskHandle>) {
    t.Some? && !t.value.done
  }

  /** `tasks_to_cancel`: the slots holding a task that is not done, in sweep order. */
  function Pending(ts: Tasks): seq<Slot> {
    (if Live(ts.inputListener) then [InputListener] else [])
    + (if Live(ts.simulator) then [Simulator] else [])
    + (if Live(ts.action) then [Action] else [])
    + (if Live(ts.background) then [Background] else [])
  }

  /** Exactly the live slots are collected, each once, in slot order. */
  lemma PendingSlots(ts: Tasks)
    ensures forall slot :: slot in Pending(ts) <==> Live(TaskAt(ts, slot))
    ensures forall a, b :: 0 <= a < b < |Pending(ts)| ==> SlotIndex(Pending(ts)[a]) < SlotIndex(Pending(ts)[b])
  {
  }

  function CancelEvents(slots: seq<Slot>): (r: seq<Event>)
    ensures |r| == |slots| && forall k :: 0 <= k < |r| ==> r[k] == Cancel(slots[k])
  {
    if slots == [] then [] else [Cancel(slots[0])] + CancelEvents(slots[1..])
  }

  /** The events of one cancel-and-wait sweep: one cancel per pending task,
      then one combined wait, only if something was cancelled. */
  function SweepEvents(slots: seq<Slot>): (r: seq<Event>)
    ensures slots == [] ==> r == []
    ensures |r| == |slots| + (if slots == [] then 0 else 1)
    ensures forall k :: 0 <= k < |slots| ==> r[k] == Cancel(slots[k])
    ensures slots != [] ==> r[|slots|] == Gather(slots)
  {
    CancelEvents(slots) + (if slots == [] then [] else [Gather(slots)])
  }

  /** A handle after `cancel()` was called on it (when `marked`). */
  function CancelHandle(t: Option<TaskHandle>, marked: bool): Option<TaskHandle> {
    if t.Some? && marked then Some(t.value.(cancelled := true)) else t
  }

  /** A handle after the combined wait on it returned (when `marked`). */
  function FinishHandle(t: Option<TaskHandle>, marked: bool): Option<TaskHandle> {
    if t.Some? && marked then Some(t.value.(done := true)) else t
  }

  /** The handles once `cancel()` has been called on those in `slots`. */
  function MarkCancelled(ts: Tasks, slots: seq<Slot>): Tasks {
    Tasks(CancelHandle(ts.inputListener, InputListener in slots),
          CancelHandle(ts.simulator, Simulator in slots),
          CancelHandle(ts.action, Action in slots),
          CancelHandle(ts.background, Background in slots))
  }

  /** Cancelling one more task extends both the handles and the events. */
  lemma CancelStep(ts: Tasks, done: seq<Slot>, next: Slot)
    ensures MarkCancelled(MarkCancelled(ts, done), [next]) == MarkCancelled(ts, done + [next])
    ensures CancelEvents(done + [next]) == CancelEvents(done) + [Cancel(next)]
  {
  }

  /** The handles once the combined wait on `slots` has returned. */
  function MarkFinished(ts: Tasks, slots: seq<Slot>): Tasks {
    Tasks(FinishHandle(ts.inputListener, InputListener in slots),
          FinishHandle(ts.simulator, Simulator in slots),
          FinishHandle(ts.action, Action in slots),
          FinishHandle(ts.background, Background in slots))
  }

  /** Cancel every pending task, then wait for all of them once. */
  function Sweep(ts: Tasks): Tasks {
    var p := Pending(ts);
    if p == [] then ts else MarkFinished(MarkCancelled(ts, p), p)
  }

  /** A sweep finishes exactly the pending tasks, marking each cancelled,
      and leaves every other handle as it was. */
  lemma SweepSettlesPending(ts: Tasks, slot: Slot)
    ensures Live(TaskAt(ts, slot)) ==>
      TaskAt(Sweep(ts), slot) == Some(TaskAt(ts, slot).value.(cancelled := true, done := true))
    ensures !Live(TaskAt(ts, slot)) ==> TaskAt(Sweep(ts), slot) == TaskAt(ts, slot)
    ensures Pending(Sweep(ts)) == []
  {
    PendingSlots(ts);
    PendingSlots(Sweep(ts));
  }

  /** The state after the cancel-and-wait sweep over its tasks. */
  function SweepState(s: Snapshot): Snapshot {
    s.(tasks := Sweep(s.tasks), trace := s.trace + SweepEvents(Pending(s.tasks)))
  }

  /** `_stop_current_orchestrators`: cancels exactly the pending tasks, waits
      once if there were any, and always leaves every task slot empty. */
  function StopCurrentOrchestrators(s: Snapshot): (r: Snapshot)
    ensures r.tasks == NoTasks
    ensures r.trace == s.trace + [Stopping] + SweepEvents(Pending(s.tasks))
    ensures r.spoken == s.spoken
    ensures r.currentConfig == s.currentConfig && r.orch == s.orch
    ensures ModeOf(r) == ModeOf(s) && BackupOf(r) == BackupOf(s)
  {
    SweepState(Log(s, Stopping)).(tasks := NoTasks)
  }

  /** `_cleanup_tasks`: the same sweep at shutdown; the handles stay, and
      none of them is pending afterwards. */
  function CleanupTasks(s: Snapshot): (r: Snapshot)
    ensures r.trace == s.trace + [CleaningUp] + SweepEvents(Pending(s.tasks))
    ensures r.spoken == s.spoken
    ensures r.tasks == Sweep(s.tasks) && Pending(r.tasks) == []
    ensures r.currentConfig == s.currentConfig && r.orch == s.orch
    ensures ModeOf(r) == ModeOf(s) && BackupOf(r) == BackupOf(s)
  {
    SweepSettlesPending(s.tasks, InputListener);
    SweepState(Log(s, CleaningUp))
  }

  // ------------------------------------------------------- initialisation

  /** All four orchestrators bound to `rc`; the input orchestrator is kept. */
  function Built(o: Orchestrators, rc: RuntimeConfig): Orchestrators {
    o.(fuser := Some(Fuser(rc)), action := Some(ActionOrchestrator(rc)),
       simulator := Some(SimulatorOrchestrator(rc)), background := Some(BackgroundOrchestrator(rc)))
  }

  /** The four orchestrator constructors, in order, each of which may raise;
      those before the failing one have already replaced their field. */
  function BuildOrchestrators(o: Orchestrators, rc: RuntimeConfig, f: Fault): (r: (Orchestrators, bool))
    ensures r.1 <==> !Fails(f)
    ensures r.1 ==> r.0 == Built(o, rc)
    ensures Hits(f, 0) ==> r.0 == o
    ensures Hits(f, 1) ==> r.0 == o.(fuser := Some(Fuser(rc)))
    ensures Hits(f, 2) ==> r.0 == o.(fuser := Some(Fuser(rc)), action := Some(ActionOrchestrator(rc)))
    ensures Hits(f, 3) ==> r.0 == o.(fuser := Some(Fuser(rc)), action := Some(ActionOrchestrator(rc)),
                                     simulator := Some(SimulatorOrchestrator(rc)))
    ensures r.0.input == o.input
  {
    if Hits(f, 0) then (o, false)
    else
      var o1 := o.(fuser := Some(Fuser(rc)));
      if Hits(f, 1) then (o1, false)
      else
        var o2 := o1.(action := Some(ActionOrchestrator(rc)));
        if Hits(f, 2) then (o2, false)
        else
          var o3 := o2.(simulator := Some(SimulatorOrchestrator(rc)));
          if Hits(f, 3) then (o3, false)
          else (o3.(background := Some(BackgroundOrchestrator(rc))), true)
  }

  /** `_initialize_mode`: an unknown mode fails at the dictionary lookup and
      changes nothing; otherwise the mode's config replaces `current_config`
      and fresh orchestrators bound to it replace the old ones. */
  function InitializeMode(cfg: ModeSystemConfig, s: Snapshot, name: string, o: InitOracle): (r: Step)
    ensures r.ok <==> InitSucceeds(cfg, name, o)
    ensures name !in cfg.modes || !o.loads ==> r.s == Log(s, Initializing(name))
    ensures r.ok ==> r.s.currentConfig == Some(cfg.modes[name].runtime)
    ensures r.ok ==> r.s.orch == Built(s.orch, cfg.modes[name].runtime)
    ensures r.s.trace == s.trace + [Initializing(name)] && r.s.spoken == s.spoken
    ensures r.s.tasks == s.tasks && r.s.orch.input == s.orch.input
    ensures ModeOf(r.s) == ModeOf(s) && BackupOf(r.s) == BackupOf(s)
  {
    var s0 := Log(s, Initializing(name));
    if name !in cfg.modes || !o.loads then Step(s0, false)
    else
      var rc := cfg.modes[name].runtime;
      var b := BuildOrchestrators(s.orch, rc, o.build);
      Step(s0.(currentConfig := Some(rc), orch := b.0), b.1)
  }

  // ------------------------------------------------------------- starting

  /** Which start steps are reached and raise: step 0 (input orchestrator and
      its listener task) always runs, steps 1-3 (simulator, action and
      background `start()`) only when that orchestrator exists. */
  predicate StartFaultReached(o: Orchestrators, f: Fault) {
    Hits(f, 0)
    || (Hits(f, 1) && o.simulator.Some?)
    || (Hits(f, 2) && o.action.Some?)
    || (Hits(f, 3) && o.background.Some?)
  }

  /** A new task in the slot exactly when the orchestrator exists. */
  function StartedTask(present: bool, t: Option<TaskHandle>): Option<TaskHandle> {
    if present then Some(NewTask) else t
  }

  /** The simulator, action and background `start()` calls, each made only
      when that orchestrator exists; a raising call keeps the tasks already
      started. */
  function StartOthers(s: Snapshot, f: Fault): (r: Step)
    ensures r.ok <==> !(Hits(f, 1) && s.orch.simulator.Some?) && !(Hits(f, 2) && s.orch.action.Some?)
                      && !(Hits(f, 3) && s.orch.background.Some?)
    ensures r.ok ==> r.s.tasks == s.tasks.(simulator := StartedTask(s.orch.simulator.Some?, s.tasks.simulator),
                                           action := StartedTask(s.orch.action.Some?, s.tasks.action),
                                           background := StartedTask(s.orch.background.Some?, s.tasks.background))
    ensures Hits(f, 1) && s.orch.simulator.Some? ==> r.s == s
    ensures Hits(f, 2) && s.orch.action.Some? ==>
      r.s.tasks == s.tasks.(simulator := StartedTask(s.orch.simulator.Some?, s.tasks.simulator))
    ensures Hits(f, 3) && s.orch.background.Some? ==>
      r.s.tasks == s.tasks.(simulator := StartedTask(s.orch.simulator.Some?, s.tasks.simulator),
                            action := StartedTask(s.orch.action.Some?, s.tasks.action))
    ensures r.s.tasks.inputListener == s.tasks.inputListener
    ensures r.s.(tasks := s.tasks) == s
  {
    var o := s.orch;
    if Hits(f, 1) && o.simulator.Some? then Step(s, false)
    else
      var s2 := s.(tasks := s.tasks.(simulator := StartedTask(o.simulator.Some?, s.tasks.simulator)));
      if Hits(f, 2) && o.action.Some? then Step(s2, false)
      else
        var s3 := s2.(tasks := s2.tasks.(action := StartedTask(o.action.Some?, s.tasks.action)));
        if Hits(f, 3) && o.background.Some? then Step(s3, false)
        else Step(s3.(tasks := s3.tasks.(background := StartedTask(o.background.Some?, s.tasks.background))), true)
  }

  /** `_start_orchestrators`: raises without a current config; otherwise
      creates the input orchestrator and its listener task, then starts the
      simulator, action and background orchestrators that exist, in that
      order. A failing step keeps the tasks already started. */
  function StartOrchestrators(s: Snapshot, f: Fault): (r: Step)
    ensures s.currentConfig.None? ==> r == Step(Log(s, Starting), false)
    ensures r.ok <==> s.currentConfig.Some? && !StartFaultReached(s.orch, f)
    ensures r.ok ==> r.s.orch == s.orch.(input := Some(InputOrchestrator(s.currentConfig.value.agentInputs)))
    ensures r.ok ==> r.s.tasks == Tasks(Some(NewTask), StartedTask(s.orch.simulator.Some?, s.tasks.simulator),
                                       StartedTask(s.orch.action.Some?, s.tasks.action),
                                       StartedTask(s.orch.background.Some?, s.tasks.background))
    ensures r.s.trace == s.trace + [Starting] && r.s.spoken == s.spoken
    ensures r.s.currentConfig == s.currentConfig
    ensures r.s.orch.(input := s.orch.input) == s.orch
    ensures ModeOf(r.s) == ModeOf(s) && BackupOf(r.s) == BackupOf(s)
  {
    var s0 := Log(s, Starting);
    if s.currentConfig.None? || Hits(f, 0) then Step(s0, false)
    else
      StartOthers(s0.(orch := s.orch.(input := Some(InputOrchestrator(s.currentConfig.value.agentInputs))),
                      tasks := s.tasks.(inputListener := Some(NewTask))), f)
  }

  /** After a full build every orchestrator exists, so each start step runs
      and every task slot gets a new task. */
  lemma StartAfterBuild(s: Snapshot, rc: RuntimeConfig, f: Fault)
    requires s.currentConfig.Some? && s.orch == Built(s.orch, rc)
    ensures StartOrchestrators(s, f).ok <==> !Fails(f)
    ensures StartOrchestrators(s, f).ok ==> StartOrchestrators(s, f).s.tasks == AllNew
  {
  }

  // ------------------------------------------------------------- recovery

  predicate RollbackSucceeds(s: Snapshot, build: Fault, start: Fault) {
    Truthy(s.backupModeName) && s.backupConfig.Some? && !Fails(build) && !Fails(start)
  }

  /** `_rollback_to_backup`: without a backup name it raises and changes
      nothing; otherwise it stops the tasks, restores the backed-up config
      (re-building orchestrators only when there is one), restarts, and
      points the mode manager back at the backed-up mode. A `None` config
      makes the restart raise. */
  function RollbackToBackup(s: Snapshot, build: Fault, start: Fault): (r: Step)
    ensures !Truthy(s.backupModeName) ==> r == Step(s, false)
    ensures r.ok <==> RollbackSucceeds(s, build, start)
    ensures r.ok ==> r.s.currentConfig == s.backupConfig
    ensures r.ok ==> r.s.currentMode == s.backupModeName.value && r.s.previousMode == s.previousMode
    ensures r.ok ==> r.s.orch.fuser == Some(Fuser(s.backupConfig.value)) && r.s.tasks == AllNew
    ensures r.s.spoken == s.spoken
    ensures BackupOf(r.s) == BackupOf(s)
  {
    if !Truthy(s.backupModeName) then Step(s, false)
    else
      var name := s.backupModeName.value;
      var s1 := StopCurrentOrchestrators(s);
      var s2 := s1.(currentConfig := s1.backupConfig);
      var b := if s2.currentConfig.Some? then BuildOrchestrators(s2.orch, s2.currentConfig.value, build) else (s2.orch, true);
      if !b.1 then Step(s2.(orch := b.0), false)
      else
        var s3 := s2.(orch := b.0);
        var r4 := StartOrchestrators(s3, start);
        if s3.currentConfig.Some? then
          StartAfterBuild(s3, s3.currentConfig.value, start);
          if !r4.ok then r4 else Step(r4.s.(currentMode := name), true)
        else r4
  }

  /** `_emergency_mode_recovery`: stop, initialise the safe mode from
      scratch, start, then record it as current with no previous mode. */
  function EmergencyModeRecovery(cfg: ModeSystemConfig, s: Snapshot, safe: string, init: InitOracle, start: Fault): (r: Step)
    ensures r.ok <==> InitSucceeds(cfg, safe, init) && !Fails(start)
    ensures r.ok ==> r.s.currentMode == safe && r.s.previousMode == None
    ensures r.ok ==> r.s.currentConfig == Some(cfg.modes[safe].runtime)
    ensures r.ok ==> r.s.orch.fuser == Some(Fuser(cfg.modes[safe].runtime)) && r.s.tasks == AllNew
    ensures r.s.spoken == s.spoken
    ensures BackupOf(r.s) == BackupOf(s)
  {
    var s1 := StopCurrentOrchestrators(s);
    var r2 := InitializeMode(cfg, s1, safe, init);
    if !r2.ok then r2
    else
      var r3 := StartOrchestrators(r2.s, start);
      StartAfterBuild(r2.s, cfg.modes[safe].runtime, start);
      if !r3.ok then r3
      else Step(r3.s.(currentMode := safe, previousMode := None), true)
  }

  /** How a transition callback ended. `Unrecoverable` is the RuntimeError
      raised out of the handler. */
  datatype Outcome = Skipped | Transitioned | RolledBack | SafeModeRecovered | Unrecoverable(message: string)

  datatype Handled = Handled(s: Snapshot, outcome: Outcome)

  /** The collaborators' behaviour during the recovery stages. */
  datatype RecoveryOracle = RecoveryOracle(rebuild: Fault, restart: Fault, safeInit: InitOracle, safeStart: Fault)

  /** The one message each recovery outcome announces. */
  function RecoveryMessage(o: Outcome): string {
    match o
    case RolledBack => ReturningMessage
    case SafeModeRecovered => SafeModeMessage
    case _ => CriticalMessage
  }

  /** Stage 1 is tried: a non-empty backup name other than the target. */
  predicate RollbackEligible(s: Snapshot, to: string) {
    Truthy(s.backupModeName) && s.backupModeName.value != to
  }

  /** Stage 2 is tried: the default mode is neither endpoint. */
  predicate DefaultEligible(cfg: ModeSystemConfig, from: string, to: string) {
    cfg.defaultMode != to && cfg.defaultMode != from
  }

  predicate SafeModeSucceeds(cfg: ModeSystemConfig, from: string, to: string, o: RecoveryOracle) {
    DefaultEligible(cfg, from, to) && InitSucceeds(cfg, cfg.defaultMode, o.safeInit) && !Fails(o.safeStart)
  }

  /** Stage 3: announce the critical error and raise. */
  function TerminalFailure(s: Snapshot, to: string): (h: Handled)
    ensures h.outcome == Unrecoverable(FailureMessage(to))
    ensures h.s.trace == s.trace + [Say(CriticalMessage)]
    ensures h.s.spoken == s.spoken + [CriticalMessage]
    ensures h.s.(trace := s.trace, spoken := s.spoken) == s
  {
    Handled(Announce(s, CriticalMessage), Unrecoverable(FailureMessage(to)))
  }

  /** Stage 2 and, failing that, stage 3. */
  function DefaultModeStage(cfg: ModeSystemConfig, s: Snapshot, from: string, to: string, o: RecoveryOracle): Handled {
    var d := cfg.defaultMode;
    if DefaultEligible(cfg, from, to) then
      var r := EmergencyModeRecovery(cfg, Log(s, RecoveryAttempted(d)), d, o.safeInit, o.safeStart);
      if r.ok then Handled(Announce(r.s, SafeModeMessage), SafeModeRecovered)
      else TerminalFailure(r.s, to)
    else TerminalFailure(s, to)
  }

  /** Stage 2 recovers exactly when the default mode is neither endpoint and
      initialising and starting it succeed. */
  lemma DefaultModeStageOutcome(cfg: ModeSystemConfig, s: Snapshot, from: string, to: string, o: RecoveryOracle)
    ensures DefaultModeStage(cfg, s, from, to, o).outcome ==
      if SafeModeSucceeds(cfg, from, to, o) then SafeModeRecovered else Unrecoverable(FailureMessage(to))
  {
    var d := cfg.defaultMode;
    if DefaultEligible(cfg, from, to) {
      var r := EmergencyModeRecovery(cfg, Log(s, RecoveryAttempted(d)), d, o.safeInit, o.safeStart);
      assert r.ok <==> SafeModeSucceeds(cfg, from, to, o);
    }
  }

  /** Either way stage 2 announces one message, the one its outcome calls
      for, and leaves the backup slot and the flag alone. */
  lemma DefaultModeStageEffects(cfg: ModeSystemConfig, s: Snapshot, from: string, to: string, o: RecoveryOracle)
    ensures DefaultModeStage(cfg, s, from, to, o).s.spoken ==
      s.spoken + [RecoveryMessage(DefaultModeStage(cfg, s, from, to, o).outcome)]
    ensures BackupOf(DefaultModeStage(cfg, s, from, to, o).s) == BackupOf(s)
  {
    var d := cfg.defaultMode;
    if DefaultEligible(cfg, from, to) {
      var r := EmergencyModeRecovery(cfg, Log(s, RecoveryAttempted(d)), d, o.safeInit, o.safeStart);
      var h := if r.ok then Handled(Announce(r.s, SafeModeMessage), SafeModeRecovered) else TerminalFailure(r.s, to);
      assert DefaultModeStage(cfg, s, from, to, o) == h;
      assert h.s.spoken == r.s.spoken + [RecoveryMessage(h.outcome)];
    }
  }

  /** A default-mode recovery leaves that mode current with no previous mode. */
  lemma DefaultModeStagePostState(cfg: ModeSystemConfig, s: Snapshot, from: string, to: string, o: RecoveryOracle)
    ensures var h := DefaultModeStage(cfg, s, from, to, o);
      h.outcome == SafeModeRecovered ==> h.s.currentMode == cfg.defaultMode && h.s.previousMode == None
  {
    var d := cfg.defaultMode;
    if DefaultEligible(cfg, from, to) {
      var r := EmergencyModeRecovery(cfg, Log(s, RecoveryAttempted(d)), d, o.safeInit, o.safeStart);
      assert r.ok ==> r.s.currentMode == d && r.s.previousMode == None;
    }
  }

  /** `_handle_transition_failure`: rollback, then default-mode recovery,
      then the terminal error; the first stage that succeeds ends it. */
  function HandleTransitionFailure(cfg: ModeSystemConfig, s: Snapshot, from: string, to: string, o: RecoveryOracle): Handled {
    if RollbackEligible(s, to) then
      var r := RollbackToBackup(Log(s, RollbackAttempted(s.backupModeName.value)), o.rebuild, o.restart);
      if r.ok then Handled(Announce(r.s, ReturningMessage), RolledBack)
      else DefaultModeStage(cfg, r.s, from, to, o)
    else DefaultModeStage(cfg, s, from, to, o)
  }

  /** The stage that ends the recovery: rollback when it is tried and
      succeeds, else the default mode when it is tried and succeeds, else the
      terminal error naming the target mode. */
  lemma RecoveryOutcome(cfg: ModeSystemConfig, s: Snapshot, from: string, to: string, o: RecoveryOracle)
    ensures HandleTransitionFailure(cfg, s, from, to, o).outcome ==
      if RollbackEligible(s, to) && RollbackSucceeds(s, o.rebuild, o.restart) then RolledBack
      else if SafeModeSucceeds(cfg, from, to, o) then SafeModeRecovered
      else Unrecoverable(FailureMessage(to))
  {
    if RollbackEligible(s, to) {
      var r := RollbackToBackup(Log(s, RollbackAttempted(s.backupModeName.value)), o.rebuild, o.restart);
      if !r.ok {
        DefaultModeStageOutcome(cfg, r.s, from, to, o);
      }
    } else {
      DefaultModeStageOutcome(cfg, s, from, to, o);
    }
  }

  /** Whatever the stage, exactly one message is announced, and it names the
      outcome; the backup slot and the flag are left as they were. */
  lemma RecoveryAnnouncesOnce(cfg: ModeSystemConfig, s: Snapshot, from: string, to: string, o: RecoveryOracle)
    ensures HandleTransitionFailure(cfg, s, from, to, o).s.spoken ==
      s.spoken + [RecoveryMessage(HandleTransitionFailure(cfg, s, from, to, o).outcome)]
    ensures BackupOf(HandleTransitionFailure(cfg, s, from, to, o).s) == BackupOf(s)
  {
    if RollbackEligible(s, to) {
      var r := RollbackToBackup(Log(s, RollbackAttempted(s.backupModeName.value)), o.rebuild, o.restart);
      if !r.ok {
        DefaultModeStageEffects(cfg, r.s, from, to, o);
      }
    } else {
      DefaultModeStageEffects(cfg, s, from, to, o);
    }
  }

  /** A rollback restores the backed-up config and mode; a default-mode
      recovery leaves the default mode current with no previous mode. */
  lemma RecoveryPostState(cfg: ModeSystemConfig, s: Snapshot, from: string, to: string, o: RecoveryOracle)
    ensures var h := HandleTransitionFailure(cfg, s, from, to, o);
      h.outcome == RolledBack ==> h.s.currentConfig == s.backupConfig && h.s.currentMode == s.backupModeName.value
    ensures var h := HandleTransitionFailure(cfg, s, from, to, o);
      h.outcome == SafeModeRecovered ==> h.s.currentMode == cfg.defaultMode && h.s.previousMode == None
  {
    if RollbackEligible(s, to) {
      var r := RollbackToBackup(Log(s, RollbackAttempted(s.backupModeName.value)), o.rebuild, o.restart);
      if !r.ok {
        DefaultModeStagePostState(cfg, r.s, from, to, o);
      }
    } else {
      DefaultModeStagePostState(cfg, s, from, to, o);
    }
  }

  /** With neither stage eligible, the handler goes straight to the terminal
      error without touching the orchestrators. */
  lemma NoStageEligible(cfg: ModeSystemConfig, s: Snapshot, from: string, to: string, o: RecoveryOracle)
    requires !RollbackEligible(s, to) && !DefaultEligible(cfg, from, to)
    ensures HandleTransitionFailure(cfg, s, from, to, o) == TerminalFailure(s, to)
  {
  }

  // ----------------------------------------------------------- transition

  datatype TransitionOracle = TransitionOracle(init: InitOracle, start: Fault, recovery: RecoveryOracle)

  /** The exit message announced when leaving `from`, if any. */
  function ExitAnnouncement(cfg: ModeSystemConfig, from: string): seq<string> {
    if cfg.transitionAnnouncement && from in cfg.modes && Truthy(cfg.modes[from].exitMessage)
    then [cfg.modes[from].exitMessage.value] else []
  }

  /** The entry message announced when arriving in `to`, if any. */
  function EntryAnnouncement(cfg: ModeSystemConfig, to: string): seq<string> {
    if cfg.transitionAnnouncement && to in cfg.modes && Truthy(cfg.modes[to].entryMessage)
    then [cfg.modes[to].entryMessage.value] else []
  }

  function Says(ms: seq<string>): (r: seq<Event>)
    ensures |r| == |ms| && forall k :: 0 <= k < |r| ==> r[k] == Say(ms[k])
  {
    if ms == [] then [] else [Say(ms[0])] + Says(ms[1..])
  }

  /** `modes[from]` raises when announcements are on and `from` is not a
      registered mode. */
  predicate ExitLookupFails(cfg: ModeSystemConfig, from: string) {
    cfg.transitionAnnouncement && from !in cfg.modes
  }

  predicate TransitionSucceeds(cfg: ModeSystemConfig, from: string, to: string, o: TransitionOracle) {
    !ExitLookupFails(cfg, from) && InitSucceeds(cfg, to, o.init) && !Fails(o.start)
  }

  /** Stop, initialise `to` and start: the middle of the `try` block. */
  function SwitchOrchestrators(cfg: ModeSystemConfig, s: Snapshot, to: string, o: TransitionOracle): (r: Step)
    ensures r.ok <==> InitSucceeds(cfg, to, o.init) && !Fails(o.start)
    ensures r.ok ==> r.s.currentConfig == Some(cfg.modes[to].runtime)
    ensures r.ok ==> r.s.orch.fuser == Some(Fuser(cfg.modes[to].runtime)) && r.s.tasks == AllNew
    ensures r.ok ==> r.s.trace == s.trace + [Stopping] + SweepEvents(Pending(s.tasks)) + [Initializing(to), Starting]
    ensures r.s.spoken == s.spoken
    ensures ModeOf(r.s) == ModeOf(s) && BackupOf(r.s) == BackupOf(s)
  {
    var s1 := StopCurrentOrchestrators(s);
    var r2 := InitializeMode(cfg, s1, to, o.init);
    if !r2.ok then r2
    else
      StartAfterBuild(r2.s, cfg.modes[to].runtime, o.start);
      StartOrchestrators(r2.s, o.start)
  }

  /** The exit announcement, if announcements are on and `from` has one. */
  function AnnounceExit(cfg: ModeSystemConfig, s: Snapshot, from: string): (r: Snapshot)
    requires !ExitLookupFails(cfg, from)
    ensures r.trace == s.trace + Says(ExitAnnouncement(cfg, from))
    ensures r.spoken == s.spoken + ExitAnnouncement(cfg, from)
    ensures r.(trace := s.trace, spoken := s.spoken) == s
  {
    if cfg.transitionAnnouncement && Truthy(cfg.modes[from].exitMessage)
    then Announce(s, cfg.modes[from].exitMessage.value) else s
  }

  /** The entry announcement, if announcements are on and `to` has one. */
  function AnnounceEntry(cfg: ModeSystemConfig, s: Snapshot, to: string): (r: Snapshot)
    requires to in cfg.modes
    ensures r.trace == s.trace + Says(EntryAnnouncement(cfg, to))
    ensures r.spoken == s.spoken + EntryAnnouncement(cfg, to)
    ensures r.(trace := s.trace, spoken := s.spoken) == s
  {
    if cfg.transitionAnnouncement && Truthy(cfg.modes[to].entryMessage)
    then Announce(s, cfg.modes[to].entryMessage.value) else s
  }

  /** The `try` block of `_on_mode_transition`; `ok == false` is the point
      where an exception left it. It fails exactly when the exit-message
      lookup, the initialisation or the start raises, and then the backup
      still holds the mode being left and its config. */
  function TryTransition(cfg: ModeSystemConfig, s: Snapshot, from: string, to: string, o: TransitionOracle): (r: Step)
    ensures r.ok <==> TransitionSucceeds(cfg, from, to, o)
    ensures !r.ok ==> r.s.backupModeName == Some(from) && r.s.backupConfig == s.currentConfig
    ensures r.s.spoken == s.spoken + ExitAnnouncement(cfg, from)
                                 + (if r.ok then EntryAnnouncement(cfg, to) else [])
    ensures ModeOf(r.s) == ModeOf(s) && r.s.transitionInProgress == s.transitionInProgress
  {
    var s1 := CreateBackupState(s, from);
    if ExitLookupFails(cfg, from) then Step(s1, false)
    else
      var s2 := AnnounceExit(cfg, s1, from);
      var r3 := SwitchOrchestrators(cfg, s2, to, o);
      if !r3.ok then r3
      else Step(ClearBackupState(AnnounceEntry(cfg, r3.s, to)), true)
  }

  /** A transition without failures runs backup, exit message, stop,
      initialise, start, entry message and clear, in that order, each once,
      and ends with the target's config and orchestrators, fresh tasks and
      an empty backup slot. */
  lemma SuccessfulTransition(cfg: ModeSystemConfig, s: Snapshot, from: string, to: string, o: TransitionOracle)
    requires TransitionSucceeds(cfg, from, to, o)
    ensures var r := TryTransition(cfg, s, from, to, o);
      && r.s.backupModeName == None && r.s.backupConfig == None
      && r.s.currentConfig == Some(cfg.modes[to].runtime)
      && r.s.orch.fuser == Some(Fuser(cfg.modes[to].runtime)) && r.s.tasks == AllNew
      && r.s.trace == s.trace + [BackupCreated(from)] + Says(ExitAnnouncement(cfg, from))
                      + [Stopping] + SweepEvents(Pending(s.tasks)) + [Initializing(to), Starting]
                      + Says(EntryAnnouncement(cfg, to)) + [BackupCleared]
  {
    var s1 := CreateBackupState(s, from);
    var s2 := AnnounceExit(cfg, s1, from);
    var r3 := SwitchOrchestrators(cfg, s2, to, o);
    var s4 := AnnounceEntry(cfg, r3.s, to);
    calc {
      ClearBackupState(s4).trace;
      s4.trace + [BackupCleared];
      r3.s.trace + Says(EntryAnnouncement(cfg, to)) + [BackupCleared];
      s2.trace + [Stopping] + SweepEvents(Pending(s2.tasks)) + [Initializing(to), Starting]
        + Says(EntryAnnouncement(cfg, to)) + [BackupCleared];
    }
    assert s2.tasks == s.tasks;
  }

  /** `_on_mode_transition`: a no-op while another transition is in
      progress; otherwise the flag is set for the whole handler and cleared
      on every way out, including the terminal error. */
  function OnModeTransition(cfg: ModeSystemConfig, s: Snapshot, from: string, to: string, o: TransitionOracle): (h: Handled)
    ensures s.transitionInProgress ==> h == Handled(s, Skipped)
    ensures !s.transitionInProgress ==> !h.s.transitionInProgress && h.outcome != Skipped
  {
    if s.transitionInProgress then Handled(s, Skipped)
    else
      var r := TryTransition(cfg, s.(transitionInProgress := true), from, to, o);
      var h := if r.ok then Handled(r.s, Transitioned)
               else HandleTransitionFailure(cfg, r.s, from, to, o.recovery);
      RecoveryOutcome(cfg, r.s, from, to, o.recovery);
      Handled(h.s.(transitionInProgress := false), h.outcome)
  }

  /** The outcome of a transition that is not skipped: the transition itself,
      else a rollback to `from` (possible only with a non-empty `from` other
      than `to` and a current config to restore), else the default mode,
      else the terminal error. */
  function ExpectedOutcome(cfg: ModeSystemConfig, s: Snapshot, from: string, to: string, o: TransitionOracle): Outcome {
    if TransitionSucceeds(cfg, from, to, o) then Transitioned
    else if from != "" && from != to && s.currentConfig.Some? && !Fails(o.recovery.rebuild) && !Fails(o.recovery.restart)
    then RolledBack
    else if SafeModeSucceeds(cfg, from, to, o.recovery) then SafeModeRecovered
    else Unrecoverable(FailureMessage(to))
  }

  lemma TransitionOutcome(cfg: ModeSystemConfig, s: Snapshot, from: string, to: string, o: TransitionOracle)
    requires !s.transitionInProgress
    ensures OnModeTransition(cfg, s, from, to, o).outcome == ExpectedOutcome(cfg, s, from, to, o)
  {
    var r := TryTransition(cfg, s.(transitionInProgress := true), from, to, o);
    if !r.ok {
      RecoveryOutcome(cfg, r.s, from, to, o.recovery);
    }
  }

  /** The spoken log gains the exit message (if any), then the entry message
      (if any) on success or exactly one recovery message otherwise. */
  lemma TransitionAnnouncements(cfg: ModeSystemConfig, s: Snapshot, from: string, to: string, o: TransitionOracle)
    requires !s.transitionInProgress
    ensures var h := OnModeTransition(cfg, s, from, to, o);
      h.s.spoken == s.spoken + ExitAnnouncement(cfg, from)
        + (if h.outcome == Transitioned then EntryAnnouncement(cfg, to) else [RecoveryMessage(h.outcome)])
  {
    var s0 := s.(transitionInProgress := true);
    var r := TryTransition(cfg, s0, from, to, o);
    if r.ok {
      assert OnModeTransition(cfg, s, from, to, o) == Handled(r.s.(transitionInProgress := false), Transitioned);
    } else {
      var h := HandleTransitionFailure(cfg, r.s, from, to, o.recovery);
      RecoveryAnnouncesOnce(cfg, r.s, from, to, o.recovery);
      RecoveryOutcome(cfg, r.s, from, to, o.recovery);
      assert OnModeTransition(cfg, s, from, to, o) == Handled(h.s.(transitionInProgress := false), h.outcome);
    }
  }

  /** With announcements off, a successful transition announces nothing. */
  lemma QuietTransition(cfg: ModeSystemConfig, s: Snapshot, from: string, to: string, o: TransitionOracle)
    requires !s.transitionInProgress && !cfg.transitionAnnouncement
    requires OnModeTransition(cfg, s, from, to, o).outcome == Transitioned
    ensures OnModeTransition(cfg, s, from, to, o).s.spoken == s.spoken
  {
    TransitionAnnouncements(cfg, s, from, to, o);
  }

  /** The state each outcome leaves: the target's config and an empty backup
      after a transition, the original config and mode after a rollback, the
      default mode with no previous mode after a default-mode recovery. */
  lemma TransitionPostState(cfg: ModeSystemConfig, s: Snapshot, from: string, to: string, o: TransitionOracle)
    requires !s.transitionInProgress
    ensures var h := OnModeTransition(cfg, s, from, to, o);
      h.outcome == Transitioned ==>
        && to in cfg.modes
        && h.s.backupModeName == None && h.s.backupConfig == None
        && h.s.currentConfig == Some(cfg.modes[to].runtime) && ModeOf(h.s) == ModeOf(s)
    ensures var h := OnModeTransition(cfg, s, from, to, o);
      h.outcome == RolledBack ==> h.s.currentConfig == s.currentConfig && h.s.currentMode == from
    ensures var h := OnModeTransition(cfg, s, from, to, o);
      h.outcome == SafeModeRecovered ==> h.s.currentMode == cfg.defaultMode && h.s.previousMode == None
  {
    var s0 := s.(transitionInProgress := true);
    var r := TryTransition(cfg, s0, from, to, o);
    if r.ok {
      SuccessfulTransition(cfg, s0, from, to, o);
      assert OnModeTransition(cfg, s, from, to, o) == Handled(r.s.(transitionInProgress := false), Transitioned);
    } else {
      var h := HandleTransitionFailure(cfg, r.s, from, to, o.recovery);
      RecoveryPostState(cfg, r.s, from, to, o.recovery);
      RecoveryOutcome(cfg, r.s, from, to, o.recovery);
      assert OnModeTransition(cfg, s, from, to, o) == Handled(h.s.(transitionInProgress := false), h.outcome);
    }
  }

  /** While the handler runs, the flag stays set: neither the `try` block nor
      any recovery stage clears it. */
  lemma FlagHeldThroughout(cfg: ModeSystemConfig, s: Snapshot, from: string, to: string, o: TransitionOracle)
    requires s.transitionInProgress
    ensures TryTransition(cfg, s, from, to, o).s.transitionInProgress
    ensures HandleTransitionFailure(cfg, TryTransition(cfg, s, from, to, o).s, from, to, o.recovery).s.transitionInProgress
  {
    RecoveryAnnouncesOnce(cfg, TryTransition(cfg, s, from, to, o).s, from, to, o.recovery);
  }

  // ----------------------------------------------------------------- tick

  /** What the collaborators answer during one tick. `raises` says which
      call raises: 0 `flush_promises`, 1 `fuse`, 2 `process_tick`, 3 `ask`,
      4 the simulator's `promise`, 5 the action orchestrator's `promise`. */
  datatype TickOracle = TickOracle(
    finished: seq<string>,           // promises `flush_promises` reports finished
    prompt: Option<string>,          // `fuser.fuse(...)`
    transitionInput: Option<string>, // the last mode-transition input
    newMode: Option<string>,         // `mode_manager.process_tick(...)`
    output: Option<seq<string>>,     // the actions `cortex_llm.ask` proposes, if any
    raises: Fault)

  predicate TickReady(s: Snapshot) {
    s.currentConfig.Some? && s.orch.fuser.Some? && s.orch.action.Some?
  }

  /** The LLM is asked: a prompt was fused and no mode switch happened, and
      none of the calls before it raised. */
  predicate TickAsks(s: Snapshot, o: TickOracle) {
    TickReady(s) && !Hits(o.raises, 0) && !Hits(o.raises, 1) && o.prompt.Some?
    && !Hits(o.raises, 2) && !Truthy(o.newMode)
  }

  /** The LLM proposed actions and its call returned normally. */
  predicate TickPromises(s: Snapshot, o: TickOracle) {
    TickAsks(s, o) && !Hits(o.raises, 3) && o.output.Some?
  }

  /** An exception leaves `_tick`: a call it reaches raises. */
  predicate TickRaises(s: Snapshot, o: TickOracle) {
    TickReady(s)
    && (Hits(o.raises, 0) || Hits(o.raises, 1)
        || (o.prompt.Some? && Hits(o.raises, 2))
        || (TickAsks(s, o) && Hits(o.raises, 3))
        || (TickPromises(s, o) && ((Hits(o.raises, 4) && s.orch.simulator.Some?) || Hits(o.raises, 5))))
  }

  /** `_tick`: the calls one tick makes, in order, up to and including one
      that raises; the rest of the tick is skipped. */
  function TickEvents(s: Snapshot, o: TickOracle): (r: seq<Event>)
    ensures !TickReady(s) ==> r == []
  {
    if !TickReady(s) then []
    else if Hits(o.raises, 0) then [FlushPromises]
    else
      var fused := [FlushPromises, Fuse(s.currentConfig.value.agentInputs, o.finished)];
      if Hits(o.raises, 1) || o.prompt.None? then fused
      else
        var ticked := fused + [ProcessTick(o.transitionInput)];
        if Hits(o.raises, 2) || Truthy(o.newMode) then ticked
        else
          var asked := ticked + [Ask(o.prompt.value)];
          if Hits(o.raises, 3) || o.output.None? then asked
          else if s.orch.simulator.Some? then
            var simulated := asked + [SimulatorPromise(o.output.value)];
            if Hits(o.raises, 4) then simulated else simulated + [ActionPromise(o.output.value)]
          else asked + [ActionPromise(o.output.value)]
  }

  /** The position of a tick's call in the order the tick makes them. */
  function TickStep(e: Event): nat {
    match e
    case FlushPromises => 0
    case Fuse(_, _) => 1
    case ProcessTick(_) => 2
    case Ask(_) => 3
    case SimulatorPromise(_) => 4
    case ActionPromise(_) => 5
    case _ => 6
  }

  predicate AsksLlm(r: seq<Event>) {
    exists k :: 0 <= k < |r| && r[k].Ask?
  }

  predicate PromisesActions(r: seq<Event>) {
    exists k :: 0 <= k < |r| && r[k].ActionPromise?
  }

  predicate PromisesSimulator(r: seq<Event>) {
    exists k :: 0 <= k < |r| && r[k].SimulatorPromise?
  }

  /** The LLM is asked exactly when the tick is ready, a prompt was fused,
      the mode manager did not switch modes and no earlier call raised; the
      action orchestrator is promised the actions exactly when the LLM also
      answered and neither the ask nor the simulator's promise raised; the
      simulator is promised them only if there is one. */
  lemma TickDecisions(s: Snapshot, o: TickOracle)
    ensures AsksLlm(TickEvents(s, o)) <==> TickAsks(s, o)
    ensures PromisesActions(TickEvents(s, o)) <==>
      TickPromises(s, o) && !(Hits(o.raises, 4) && s.orch.simulator.Some?)
    ensures PromisesSimulator(TickEvents(s, o)) <==> TickPromises(s, o) && s.orch.simulator.Some?
  {
    var r := TickEvents(s, o);
    if TickAsks(s, o) {
      assert r[3].Ask?;
      if TickPromises(s, o) {
        if s.orch.simulator.Some? {
          assert r[4].SimulatorPromise?;
        }
        if !(Hits(o.raises, 4) && s.orch.simulator.Some?) {
          assert r[|r| - 1].ActionPromise?;
        }
      }
    }
  }

  /** A tick raises exactly when its last call is the one that raises: no
      call is made after a raising one, and a tick that ends normally made
      no raising call. */
  lemma TickStopsAtRaise(s: Snapshot, o: TickOracle)
    ensures var r := TickEvents(s, o);
      TickRaises(s, o) <==> |r| > 0 && Hits(o.raises, TickStep(r[|r| - 1]))
  {
  }

  /** The mode manager's tick comes before the LLM call, and the simulator
      is promised the proposed actions before the action orchestrator. */
  lemma TickOrder(s: Snapshot, o: TickOracle)
    ensures var r := TickEvents(s, o);
      forall a, b :: 0 <= a < |r| && 0 <= b < |r| && r[a].ProcessTick? && r[b].Ask? ==> a < b
    ensures var r := TickEvents(s, o);
      forall a, b :: 0 <= a < |r| && 0 <= b < |r| && r[a].SimulatorPromise? && r[b].ActionPromise? ==> a < b
    ensures var r := TickEvents(s, o);
      forall k :: 0 <= k < |r| && (r[k].ActionPromise? || r[k].SimulatorPromise?) ==> r[k].actions == o.output.value
  {
  }

  // ---------------------------------------------------------- mode query

  datatype ModeInfo = ModeInfo(displayName: string, description: string, isCurrent: bool)

  /** `get_available_modes`: one entry per registered mode. */
  function AvailableModes(cfg: ModeSystemConfig, current: string): (r: map<string, ModeInfo>)
    ensures r.Keys == cfg.modes.Keys
    ensures forall n :: n in r ==> r[n] == ModeInfo(cfg.modes[n].displayName, cfg.modes[n].description, n == current)
  {
    map n | n in cfg.modes :: ModeInfo(cfg.modes[n].displayName, cfg.modes[n].description, n == current)
  }

  /** Exactly one mode is reported current when the manager's mode is
      registered, and none otherwise. */
  lemma CurrentModeIsUnique(cfg: ModeSystemConfig, current: string)
    ensures var r := AvailableModes(cfg, current);
      (set n | n in r && r[n].isCurrent) == (if current in cfg.modes then {current} else {})
  {
    var r := AvailableModes(cfg, current);
    if current in cfg.modes {
      assert current in r && r[current].isCurrent;
    }
  }
}
