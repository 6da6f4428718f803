/**
 * The executor that plays gestures on the dock one at a time. A request runs
 * at once when the executor is idle, preempts the running gesture (and
 * clears the queue) when its priority is high or urgent, and is queued
 * otherwise. A run switches the dock to manual control, plays the steps,
 * restores the mode it found, fires the completion callback, and then drains
 * the queue from the front.
 *
 * Every actuator call and every completion callback is appended to the ghost
 * `trace`. What the dock answers during a run (its current mode, whether it
 * accepts manual control, whether the run was cancelled by the time it
 * checks) is passed in, one `RunInputs` per run.
 */
module MotorExecutor {
  import opened DataTypes
  import opened MotorActions
  import opened ActionQueue

  /** `priority.rawValue >= ActionPriority.high.rawValue` */
  predicate Preempts(p: ActionPriority) {
    Rank(p) >= Rank(High)
  }

  /** The gestures of a queue, front first. */
  function ActionsOf(q: seq<PendingMotorAction>): (r: seq<FastMotorAction>)
    ensures |r| == |q|
    ensures forall i :: 0 <= i < |q| ==> r[i] == q[i].action
  {
    if q == [] then [] else [q[0].action] + ActionsOf(q[1..])
  }

  /** The events of running `actions` one after another, the k-th run seeing `inputs[k]`. */
  function DrainEvents(actions: seq<FastMotorAction>, inputs: seq<RunInputs>): (t: seq<Event>)
    requires |actions| <= |inputs|
    ensures |t| >= 2 * |actions|
  {
    if actions == [] then [] else
      var n := |actions| - 1;
      DrainEvents(actions[..n], inputs) + RunEvents(GestureSteps(actions[n]), inputs[n])
  }

  /** Running one more action of a list appends that action's run. */
  lemma DrainOneMore(all: seq<FastMotorAction>, k: nat, inputs: seq<RunInputs>)
    requires k < |all| <= |inputs|
    ensures DrainEvents(all[..k + 1], inputs) ==
      DrainEvents(all[..k], inputs) + RunEvents(GestureSteps(all[k]), inputs[k])
  {
    var a := all[..k + 1];
    assert a != [] && |a| - 1 == k && a[k] == all[k];
    assert a[..k] == all[..k];
  }

  /** Draining a single action is that action's run. */
  lemma DrainSingle(action: FastMotorAction, inputs: seq<RunInputs>)
    requires 1 <= |inputs|
    ensures DrainEvents([action], inputs) == RunEvents(GestureSteps(action), inputs[0])
  {
    assert [action][..0] == [];
  }

  /** The completion callback fires exactly once per run, failed mode switches included. */
  lemma {:induction false} DrainCompletions(actions: seq<FastMotorAction>, inputs: seq<RunInputs>)
    requires |actions| <= |inputs|
    ensures CountCompleted(DrainEvents(actions, inputs)) == |actions|
    decreases |actions|
  {
    if actions != [] {
      var n := |actions| - 1;
      DrainCompletions(actions[..n], inputs);
      RunShape(GestureSteps(actions[n]), inputs[n]);
      CountCompletedAppend(DrainEvents(actions[..n], inputs), RunEvents(GestureSteps(actions[n]), inputs[n]));
    }
  }

  /**
   * Mode changes come in pairs: each run whose manual switch is accepted
   * sends exactly one restore, and a refused switch sends none.
   */
  function AcceptedSwitches(inputs: seq<RunInputs>): nat {
    if inputs == [] then 0
    else AcceptedSwitches(inputs[..|inputs| - 1]) + (if inputs[|inputs| - 1].manualSwitchOk then 1 else 0)
  }

  lemma {:induction false} DrainModeChanges(actions: seq<FastMotorAction>, inputs: seq<RunInputs>)
    requires |actions| <= |inputs|
    ensures CountModeChanges(DrainEvents(actions, inputs)) == |actions| + AcceptedSwitches(inputs[..|actions|])
    decreases |actions|
  {
    if actions != [] {
      var n := |actions| - 1;
      DrainModeChanges(actions[..n], inputs);
      RunShape(GestureSteps(actions[n]), inputs[n]);
      CountModeChangesAppend(DrainEvents(actions[..n], inputs), RunEvents(GestureSteps(actions[n]), inputs[n]));
      assert inputs[..|actions|][..n] == inputs[..n];
      if !inputs[n].manualSwitchOk {
        CountModeChangesAppend([SetMode(Manual)], [Completed]);
      }
    }
  }

  /** The executor only ever queues low and normal requests. */
  ghost predicate OnlyQueueable(q: seq<PendingMotorAction>) {
    forall i :: 0 <= i < |q| ==> !Preempts(q[i].priority)
  }

  lemma AppendAssoc(a: seq<Event>, b: seq<Event>, c: seq<Event>)
    ensures a + b + c == a + (b + c)
  {
  }

  /** Queueing a low or normal request keeps high and urgent ones out of the queue. */
  lemma EnqueueKeepsQueueable(q: seq<PendingMotorAction>, e: PendingMotorAction, now: real)
    requires Sorted(q) && OnlyQueueable(q) && !Preempts(e.priority)
    ensures OnlyQueueable(Enqueued(q, e, now))
  {
    EnqueueInvariants(q, e, now);
    var r := Enqueued(q, e, now);
    forall i | 0 <= i < |r| ensures !Preempts(r[i].priority) {
      assert r[i] in r;
      if r[i] != e {
        var j :| 0 <= j < |q| && q[j] == r[i];
      }
    }
  }

  class FastMotorActionExecutor {
    var isPerformingMotorAction: bool
    var previousTrackingMode: TrackingMode
    const queueManager: MotorActionQueueManager
    ghost var trace: seq<Event>

    ghost predicate Valid()
      reads queueManager
    {
      queueManager.Valid() && OnlyQueueable(queueManager.pendingActions)
    }

    constructor ()
      ensures Valid() && fresh(queueManager)
      ensures !isPerformingMotorAction && previousTrackingMode == System
      ensures queueManager.pendingActions == [] && trace == []
    {
      isPerformingMotorAction := false;
      previousTrackingMode := System;
      queueManager := new MotorActionQueueManager();
      trace := [];
    }

    /** The gesture for a mood; never absent. */
    method GetMotorActionForMood(mood: RobotMood) returns (a: Option<FastMotorAction>)
      ensures a == MotorActionForMood(mood) && a.Some?
    {
      a := MotorActionForMood(mood);
    }

    /**
     * Handles one request. Without a controller nothing happens. A busy
     * executor queues low and normal requests; a high or urgent one clears
     * the queue and runs at once, as does any request to an idle executor,
     * which then drains whatever is queued.
     */
    method ExecuteMotorAction(action: FastMotorAction, mood: RobotMood, hasController: bool,
                              priority: ActionPriority, now: real, inputs: seq<RunInputs>)
      requires Valid()
      requires |inputs| > |queueManager.pendingActions|
      modifies this, queueManager
      ensures Valid()
      ensures !hasController ==>
        trace == old(trace) && queueManager.pendingActions == old(queueManager.pendingActions) &&
        isPerformingMotorAction == old(isPerformingMotorAction) &&
        previousTrackingMode == old(previousTrackingMode)
      ensures hasController && old(isPerformingMotorAction) && !Preempts(priority) ==>
        trace == old(trace) && isPerformingMotorAction && previousTrackingMode == old(previousTrackingMode) &&
        queueManager.pendingActions ==
          Enqueued(old(queueManager.pendingActions), PendingMotorAction(action, mood, now, priority), now)
      ensures hasController && old(isPerformingMotorAction) && Preempts(priority) ==>
        !isPerformingMotorAction && queueManager.pendingActions == [] &&
        previousTrackingMode == inputs[0].currentMode &&
        trace == old(trace) + DrainEvents([action], inputs)
      ensures hasController && !old(isPerformingMotorAction) ==>
        !isPerformingMotorAction && queueManager.pendingActions == [] &&
        previousTrackingMode == inputs[|old(queueManager.pendingActions)|].currentMode &&
        trace == old(trace) + DrainEvents([action] + ActionsOf(old(queueManager.pendingActions)), inputs)
    {
      if !hasController {
        return;
      }
      if isPerformingMotorAction {
        if Preempts(priority) {
          queueManager.RemoveAll();
          PerformMotorActionInternal(action, inputs);
          assert [action] + ActionsOf([]) == [action];
        } else {
          var pending := PendingMotorAction(action, mood, now, priority);
          EnqueueKeepsQueueable(queueManager.pendingActions, pending, now);
          queueManager.AddToPendingQueue(pending, now);
        }
      } else {
        PerformMotorActionInternal(action, inputs);
      }
    }

    /**
     * Runs `action`, then takes queued actions from the front and runs each,
     * until the queue is empty; the k-th run sees `inputs[k]`.
     */
    method PerformMotorActionInternal(action: FastMotorAction, inputs: seq<RunInputs>)
      requires Valid()
      requires |inputs| > |queueManager.pendingActions|
      modifies this, queueManager
      ensures Valid() && !isPerformingMotorAction && queueManager.pendingActions == []
      ensures previousTrackingMode == inputs[|old(queueManager.pendingActions)|].currentMode
      ensures trace == old(trace) + DrainEvents([action] + ActionsOf(old(queueManager.pendingActions)), inputs)
    {
      ghost var q0 := queueManager.pendingActions;
      ghost var all := [action] + ActionsOf(q0);
      assert all[..1] == [action] && all[1..] == ActionsOf(q0);
      DrainSingle(action, inputs);
      PerformRun(action, inputs[0]);
      DrainQueue(old(trace), all, inputs);
    }

    /**
     * The drain loop: while the queue is not empty, takes its front entry and
     * runs it. `all` lists every run of this drain, the first of which is done
     * and the rest of which are the queue's entries.
     */
    method DrainQueue(ghost t0: seq<Event>, ghost all: seq<FastMotorAction>, inputs: seq<RunInputs>)
      requires queueManager.Valid() && !isPerformingMotorAction
      requires 1 <= |all| <= |inputs|
      requires ActionsOf(queueManager.pendingActions) == all[1..]
      requires trace == t0 + DrainEvents(all[..1], inputs)
      requires previousTrackingMode == inputs[0].currentMode
      modifies this, queueManager
      ensures queueManager.Valid() && !isPerformingMotorAction && queueManager.pendingActions == []
      ensures previousTrackingMode == inputs[|all| - 1].currentMode
      ensures trace == t0 + DrainEvents(all, inputs)
    {
      var k := 1;
      while true
        invariant queueManager.Valid() && !isPerformingMotorAction
        invariant 1 <= k <= |all|
        invariant ActionsOf(queueManager.pendingActions) == all[k..]
        invariant trace == t0 + DrainEvents(all[..k], inputs)
        invariant previousTrackingMode == inputs[k - 1].currentMode
        decreases |queueManager.pendingActions|
      {
        ghost var q := queueManager.pendingActions;
        var next := queueManager.RemoveFirst();
        if next.None? {
          assert all[..k] == all;
          break;
        }
        assert all[k] == next.value.action && ActionsOf(q[1..]) == all[k + 1..];
        ghost var done := DrainEvents(all[..k], inputs);
        PerformRun(next.value.action, inputs[k]);
        DrainOneMore(all, k, inputs);
        AppendAssoc(t0, done, RunEvents(GestureSteps(all[k]), inputs[k]));
        k := k + 1;
      }
    }

    /** One run: busy flag up, the core of the run, busy flag down, completion callback. */
    method PerformRun(action: FastMotorAction, inp: RunInputs)
      modifies this`isPerformingMotorAction, this`previousTrackingMode, this`trace
      ensures !isPerformingMotorAction && previousTrackingMode == inp.currentMode
      ensures trace == old(trace) + RunEvents(GestureSteps(action), inp)
    {
      isPerformingMotorAction := true;
      ExecuteMotorActionCore(action, inp);
      isPerformingMotorAction := false;
      trace := trace + [Completed];
    }

    /**
     * Snapshots the dock's mode, asks for manual control and gives up if it
     * is refused; otherwise plays the steps unless cancelled at the check,
     * and restores the snapshot.
     */
    method ExecuteMotorActionCore(action: FastMotorAction, inp: RunInputs)
      requires isPerformingMotorAction
      modifies this`previousTrackingMode, this`trace
      ensures previousTrackingMode == inp.currentMode
      ensures trace == old(trace) + CoreEvents(GestureSteps(action), inp)
    {
      var steps := GestureSteps(action);
      previousTrackingMode := inp.currentMode;
      trace := trace + [SetMode(Manual)];
      if !inp.manualSwitchOk {
        return;
      }
      if inp.cancelledAtCheck {
        RestoreTrackingMode();
        assert CoreEvents(steps, inp) == [SetMode(Manual)] + [SetMode(inp.currentMode)];
        return;
      }
      ghost var t1 := trace;
      ExecuteSteps(steps, false);
      RestoreTrackingMode();
      assert CoreEvents(steps, inp) == [SetMode(Manual)] + (StepEvents(steps, false) + [SetMode(inp.currentMode)]);
      assert trace == t1 + StepEvents(steps, false) + [SetMode(inp.currentMode)];
    }

    method RestoreTrackingMode()
      modifies this`trace
      ensures trace == old(trace) + [SetMode(previousTrackingMode)]
    {
      trace := trace + [SetMode(previousTrackingMode)];
    }

    /** Sends each step's nudge in order, then the extra recentring nudges when asked. */
    method ExecuteSteps(steps: seq<FastMotionStep>, needsReturnToCenter: bool)
      modifies this`trace
      ensures trace == old(trace) + StepEvents(steps, needsReturnToCenter)
    {
      for i := 0 to |steps|
        invariant trace == old(trace) + Rotations(steps[..i])
      {
        assert steps[..i + 1][..i] == steps[..i];
        trace := trace + [Rotate(steps[i].direction, steps[i].speed)];
      }
      assert steps[..|steps|] == steps;
      if needsReturnToCenter {
        trace := trace + [Rotate(TiltUp, 0.5), Rotate(PanLeft, 0.3)];
      }
    }

    /**
     * Drops every queued request. The source also cancels the running
     * gesture's task; here that cancellation reaches the run only as its
     * `cancelledAtCheck` input.
     */
    method CancelAllPendingActions()
      requires Valid()
      modifies queueManager
      ensures Valid() && queueManager.pendingActions == []
    {
      queueManager.RemoveAll();
    }

    method PendingActionsCount() returns (n: nat)
      ensures n == |queueManager.pendingActions|
    {
      n := queueManager.Count();
    }
  }

  /** Example: an idle executor, a quick nod for a happy face, dock in system tracking. */
  method QuickNodScenario() returns (e: FastMotorActionExecutor)
    ensures e.trace == [SetMode(Manual),
      Rotate(TiltDown, 2.0), Rotate(TiltUp, 1.8), Rotate(TiltDown, 1.5), Rotate(TiltUp, 1.5),
      SetMode(System), Completed]
  {
    e := new FastMotorActionExecutor();
    e.ExecuteMotorAction(QuickNod, Happy, true, ActionPriority.Normal, 0.0, [RunInputs(System, true, false)]);
    RunShape(GestureSteps(QuickNod), RunInputs(System, true, false));
    assert [QuickNod] + ActionsOf([]) == [QuickNod];
    assert [QuickNod][..0] == [];
  }
}
