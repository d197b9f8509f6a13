/** The supervisor as an object: `ModeCortexRuntime` holds the same fields as
    the source class and updates them in place. Every method's contract says
    that the fields afterwards are what the matching function of the
    ModeCortex module computes from the fields before; the properties of
    those functions are proved there. An exception leaving a method is the
    out-parameter `ok == false` (or an `Unrecoverable` outcome). */
module CortexRuntime {
  import opened Wrappers
  import opened ModeCortex

  /** The two fields of the mode manager's state that the supervisor writes. */
  class ModeManager {
    var currentMode: string
    var previousMode: Option<string>

    constructor (initialMode: string)
      ensures currentMode == initialMode && previousMode == None
    {
      currentMode := initialMode;
      previousMode := None;
    }
  }

  /** `task.cancel()` on each collected task, in order. */
  method CancelEach(ts: Tasks, slots: seq<Slot>) returns (handles: Tasks, events: seq<Event>)
    ensures handles == MarkCancelled(ts, slots)
    ensures events == CancelEvents(slots)
  {
    handles, events := ts, [];
    var i := 0;
    while i < |slots|
      invariant 0 <= i <= |slots|
      invariant handles == MarkCancelled(ts, slots[..i])
      invariant events == CancelEvents(slots[..i])
    {
      CancelStep(ts, slots[..i], slots[i]);
      assert slots[..i + 1] == slots[..i] + [slots[i]];
      handles := MarkCancelled(handles, [slots[i]]);
      events := events + [Cancel(slots[i])];
      i := i + 1;
    }
    assert slots[..i] == slots;
  }

  class ModeCortexRuntime {
    const modeConfig: ModeSystemConfig
    const modeManager: ModeManager

    var currentConfig: Option<RuntimeConfig>
    var fuser: Option<Orchestrator>
    var actionOrchestrator: Option<Orchestrator>
    var simulatorOrchestrator: Option<Orchestrator>
    var backgroundOrchestrator: Option<Orchestrator>
    var inputOrchestrator: Option<Orchestrator>

    var inputListenerTask: Option<TaskHandle>
    var simulatorTask: Option<TaskHandle>
    var actionTask: Option<TaskHandle>
    var backgroundTask: Option<TaskHandle>

    var backupConfig: Option<RuntimeConfig>
    var backupModeName: Option<string>
    var transitionInProgress: bool

    /** The text-to-speech provider's pending messages, oldest first. */
    var spoken: seq<string>
    /** Collaborator calls and text-to-speech messages, in order. */
    var trace: seq<Event>

    /** The fields as one value. */
    function Snap(): Snapshot
      reads this, modeManager
    {
      Snapshot(currentConfig,
               Orchestrators(fuser, actionOrchestrator, simulatorOrchestrator, backgroundOrchestrator, inputOrchestrator),
               Tasks(inputListenerTask, simulatorTask, actionTask, backgroundTask), backupConfig, backupModeName, transitionInProgress,
               modeManager.currentMode, modeManager.previousMode, spoken, trace)
    }

    /** `__init__`: nothing initialised, no tasks, empty backup, flag clear. */
    constructor (cfg: ModeSystemConfig, initialMode: string)
      ensures modeConfig == cfg && fresh(modeManager)
      ensures Snap() == Snapshot(None, Orchestrators(None, None, None, None, None), NoTasks,
                                 None, None, false, initialMode, None, [], [])
    {
      modeConfig := cfg;
      modeManager := new ModeManager(initialMode);
      currentConfig := None;
      fuser, actionOrchestrator, simulatorOrchestrator, backgroundOrchestrator, inputOrchestrator := None, None, None, None, None;
      inputListenerTask, simulatorTask, actionTask, backgroundTask := None, None, None, None;
      backupConfig, backupModeName := None, None;
      transitionInProgress := false;
      spoken, trace := [], [];
    }

    method CreateBackupState(modeName: string)
      modifies this
      ensures Snap() == ModeCortex.CreateBackupState(old(Snap()), modeName)
    {
      trace := trace + [BackupCreated(modeName)];
      backupModeName := Some(modeName);
      backupConfig := currentConfig;
    }

    method ClearBackupState()
      modifies this
      ensures Snap() == ModeCortex.ClearBackupState(old(Snap()))
    {
      trace := trace + [BackupCleared];
      backupModeName := None;
      backupConfig := None;
    }

    /** `tasks_to_cancel`: the slots holding a task that is not done, in order. */
    method CollectPending() returns (toCancel: seq<Slot>)
      ensures toCancel == Pending(Snap().tasks)
    {
      toCancel := [];
      if inputListenerTask.Some? && !inputListenerTask.value.done {
        toCancel := toCancel + [InputListener];
      }
      assert toCancel == (if Live(inputListenerTask) then [InputListener] else []);
      if simulatorTask.Some? && !simulatorTask.value.done {
        toCancel := toCancel + [Simulator];
      }
      assert toCancel == (if Live(inputListenerTask) then [InputListener] else [])
                         + (if Live(simulatorTask) then [Simulator] else []);
      if actionTask.Some? && !actionTask.value.done {
        toCancel := toCancel + [Action];
      }
      assert toCancel == (if Live(inputListenerTask) then [InputListener] else [])
                         + (if Live(simulatorTask) then [Simulator] else [])
                         + (if Live(actionTask) then [Action] else []);
      if backgroundTask.Some? && !backgroundTask.value.done {
        toCancel := toCancel + [Background];
      }
    }

    /** The sweep shared by the stop and cleanup paths: collect the pending
        tasks, cancel each, then wait for them together once. */
    method CancelPending()
      modifies this
      ensures Snap() == SweepState(old(Snap()))
    {
      var toCancel := CollectPending();
      var handles, events := CancelEach(Snap().tasks, toCancel);
      // One combined wait, and only if something was cancelled.
      if toCancel != [] {
        events := events + [Gather(toCancel)];
        handles := MarkFinished(handles, toCancel);
      }
      Settle(handles, events);
    }

    /** Stores the swept handles and logs the sweep's events. */
    method Settle(handles: Tasks, events: seq<Event>)
      modifies this
      ensures Snap() == old(Snap()).(tasks := handles, trace := old(trace) + events)
    {
      inputListenerTask, simulatorTask, actionTask, backgroundTask :=
        handles.inputListener, handles.simulator, handles.action, handles.background;
      trace := trace + events;
    }

    /** `_stop_current_orchestrators`. */
    method StopCurrentOrchestrators()
      modifies this
      ensures Snap() == ModeCortex.StopCurrentOrchestrators(old(Snap()))
    {
      trace := trace + [Stopping];
      CancelPending();
      ClearTasks();
    }

    /** Drops the four task references. */
    method ClearTasks()
      modifies this
      ensures Snap() == old(Snap()).(tasks := NoTasks)
    {
      inputListenerTask, simulatorTask, actionTask, backgroundTask := None, None, None, None;
    }

    /** `_cleanup_tasks`. */
    method CleanupTasks()
      modifies this
      ensures Snap() == ModeCortex.CleanupTasks(old(Snap()))
    {
      trace := trace + [CleaningUp];
      CancelPending();
    }

    /** The four orchestrator constructors, in order; `f` says which raises. */
    method BuildOrchestrators(rc: RuntimeConfig, f: Fault) returns (ok: bool)
      modifies this
      ensures (Snap().orch, ok) == ModeCortex.BuildOrchestrators(old(Snap()).orch, rc, f)
      ensures Snap() == old(Snap()).(orch := Snap().orch)
    {
      if Hits(f, 0) { return false; }
      fuser := Some(Fuser(rc));
      if Hits(f, 1) { return false; }
      actionOrchestrator := Some(ActionOrchestrator(rc));
      if Hits(f, 2) { return false; }
      simulatorOrchestrator := Some(SimulatorOrchestrator(rc));
      if Hits(f, 3) { return false; }
      backgroundOrchestrator := Some(BackgroundOrchestrator(rc));
      ok := true;
    }

    /** `_initialize_mode`; `o` says which collaborator call raises. */
    method InitializeMode(modeName: string, o: InitOracle) returns (ok: bool)
      modifies this
      ensures Step(Snap(), ok) == ModeCortex.InitializeMode(modeConfig, old(Snap()), modeName, o)
    {
      trace := trace + [Initializing(modeName)];
      if modeName !in modeConfig.modes || !o.loads {
        return false;
      }
      var rc := modeConfig.modes[modeName].runtime;
      currentConfig := Some(rc);
      ok := BuildOrchestrators(rc, o.build);
    }

    /** `_start_orchestrators`; `f` says which start step raises. */
    method StartOrchestrators(f: Fault) returns (ok: bool)
      modifies this
      ensures Step(Snap(), ok) == ModeCortex.StartOrchestrators(old(Snap()), f)
    {
      trace := trace + [Starting];
      if currentConfig.None? || Hits(f, 0) {
        return false;
      }
      inputOrchestrator := Some(InputOrchestrator(currentConfig.value.agentInputs));
      inputListenerTask := Some(NewTask);
      ok := StartOthers(f);
    }

    /** The `start()` calls of the orchestrators that exist, in order. */
    method StartOthers(f: Fault) returns (ok: bool)
      modifies this
      ensures Step(Snap(), ok) == ModeCortex.StartOthers(old(Snap()), f)
    {
      if simulatorOrchestrator.Some? {
        if Hits(f, 1) { return false; }
        simulatorTask := Some(NewTask);
      }
      if actionOrchestrator.Some? {
        if Hits(f, 2) { return false; }
        actionTask := Some(NewTask);
      }
      if backgroundOrchestrator.Some? {
        if Hits(f, 3) { return false; }
        backgroundTask := Some(NewTask);
      }
      ok := true;
    }

    /** `_rollback_to_backup`; `build` and `start` say which orchestrator
        constructor and which start step raise. */
    method RollbackToBackup(build: Fault, start: Fault) returns (ok: bool)
      modifies this, modeManager
      ensures Step(Snap(), ok) == ModeCortex.RollbackToBackup(old(Snap()), build, start)
    {
      if !Truthy(backupModeName) {
        return false;
      }
      StopCurrentOrchestrators();
      currentConfig := backupConfig;
      var modeName := backupModeName.value;
      if currentConfig.Some? {
        ok := BuildOrchestrators(currentConfig.value, build);
        if !ok {
          return;
        }
      }
      ok := StartOrchestrators(start);
      if !ok {
        return;
      }
      modeManager.currentMode := modeName;
    }

    /** `_emergency_mode_recovery`. */
    method EmergencyModeRecovery(safeMode: string, init: InitOracle, start: Fault) returns (ok: bool)
      modifies this, modeManager
      ensures Step(Snap(), ok) == ModeCortex.EmergencyModeRecovery(modeConfig, old(Snap()), safeMode, init, start)
    {
      StopCurrentOrchestrators();
      ok := InitializeMode(safeMode, init);
      if !ok {
        return;
      }
      ok := StartOrchestrators(start);
      if !ok {
        return;
      }
      modeManager.currentMode := safeMode;
      modeManager.previousMode := None;
    }

    method Announce(message: string)
      modifies this
      ensures Snap() == ModeCortex.Announce(old(Snap()), message)
    {
      trace := trace + [Say(message)];
      spoken := spoken + [message];
    }

    /** `_handle_transition_failure`: rollback, default-mode recovery, or the
        terminal error (`Unrecoverable`). */
    method HandleTransitionFailure(fromMode: string, toMode: string, o: RecoveryOracle) returns (outcome: Outcome)
      modifies this, modeManager
      ensures Handled(Snap(), outcome) == ModeCortex.HandleTransitionFailure(modeConfig, old(Snap()), fromMode, toMode, o)
    {
      if Truthy(backupModeName) && backupModeName.value != toMode {
        trace := trace + [RollbackAttempted(backupModeName.value)];
        var ok := RollbackToBackup(o.rebuild, o.restart);
        if ok {
          Announce(ReturningMessage);
          return RolledBack;
        }
      }
      outcome := DefaultModeStage(fromMode, toMode, o);
    }

    /** Stage 2 (the default mode) and, failing that, stage 3. */
    method DefaultModeStage(fromMode: string, toMode: string, o: RecoveryOracle) returns (outcome: Outcome)
      modifies this, modeManager
      ensures Handled(Snap(), outcome) == ModeCortex.DefaultModeStage(modeConfig, old(Snap()), fromMode, toMode, o)
    {
      var defaultMode := modeConfig.defaultMode;
      if defaultMode != toMode && defaultMode != fromMode {
        trace := trace + [RecoveryAttempted(defaultMode)];
        var ok := EmergencyModeRecovery(defaultMode, o.safeInit, o.safeStart);
        if ok {
          Announce(SafeModeMessage);
          return SafeModeRecovered;
        }
      }
      Announce(CriticalMessage);
      outcome := Unrecoverable(FailureMessage(toMode));
    }

    /** `_on_mode_transition`. */
    method OnModeTransition(fromMode: string, toMode: string, o: TransitionOracle) returns (outcome: Outcome)
      modifies this, modeManager
      ensures Handled(Snap(), outcome) == ModeCortex.OnModeTransition(modeConfig, old(Snap()), fromMode, toMode, o)
    {
      if transitionInProgress {
        return Skipped;
      }
      transitionInProgress := true;
      var ok := TryTransition(fromMode, toMode, o);
      if ok {
        outcome := Transitioned;
      } else {
        outcome := HandleTransitionFailure(fromMode, toMode, o.recovery);
      }
      transitionInProgress := false;
    }

    /** The `try` block of `_on_mode_transition`. */
    method TryTransition(fromMode: string, toMode: string, o: TransitionOracle) returns (ok: bool)
      modifies this, modeManager
      ensures Step(Snap(), ok) == ModeCortex.TryTransition(modeConfig, old(Snap()), fromMode, toMode, o)
    {
      CreateBackupState(fromMode);
      if modeConfig.transitionAnnouncement {
        if fromMode !in modeConfig.modes {
          return false;
        }
        var exit := modeConfig.modes[fromMode].exitMessage;
        if Truthy(exit) {
          Announce(exit.value);
        }
      }
      StopCurrentOrchestrators();
      ok := InitializeMode(toMode, o.init);
      if !ok {
        return;
      }
      ok := StartOrchestrators(o.start);
      if !ok {
        return;
      }
      if modeConfig.transitionAnnouncement {
        var entry := modeConfig.modes[toMode].entryMessage;
        if Truthy(entry) {
          Announce(entry.value);
        }
      }
      ClearBackupState();
    }

    /** `_tick`: only the calls it makes are recorded; no field changes.
        `ok == false` is an exception leaving the tick. */
    method Tick(o: TickOracle) returns (ok: bool)
      modifies this
      ensures Snap() == old(Snap()).(trace := old(trace) + TickEvents(old(Snap()), o))
      ensures ok <==> !TickRaises(old(Snap()), o)
    {
      if currentConfig.None? || fuser.None? || actionOrchestrator.None? {
        return true;
      }
      trace := trace + [FlushPromises];
      if Hits(o.raises, 0) {
        return false;
      }
      trace := trace + [Fuse(currentConfig.value.agentInputs, o.finished)];
      if Hits(o.raises, 1) {
        return false;
      }
      if o.prompt.None? {
        return true;
      }
      trace := trace + [ProcessTick(o.transitionInput)];
      if Hits(o.raises, 2) {
        return false;
      }
      if Truthy(o.newMode) {
        return true;
      }
      trace := trace + [Ask(o.prompt.value)];
      if Hits(o.raises, 3) {
        return false;
      }
      if o.output.None? {
        return true;
      }
      if simulatorOrchestrator.Some? {
        trace := trace + [SimulatorPromise(o.output.value)];
        if Hits(o.raises, 4) {
          return false;
        }
      }
      trace := trace + [ActionPromise(o.output.value)];
      ok := !Hits(o.raises, 5);
    }
  }
}
