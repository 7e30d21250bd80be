/** The step-by-step debugger engine of
  * libomniq-core/src/debugger/ExecutionEngine.cpp: a cursor over the gates of
  * a circuit, a history of states and a list of breakpoints. The simulated
  * state is carried along as a term recording the gates applied to it. */
module ExecutionEngines {
  import opened Wrappers
  import opened Text

  /** The gate types of the engine's circuit. */
  datatype GateType = H | X | Y | Z | CNOT | SWAP | PHASE | RX | RY | RZ | MEASURE

  datatype Gate = Gate(kind: GateType, controlQubits: seq<int>, targetQubits: seq<int>, parameters: seq<real>)

  /** A state vector as the gates applied to a fresh register of n qubits. */
  datatype QState = Fresh(numQubits: int) | Applied(before: QState, gate: Gate)

  /** The gate types stepForward applies; any other type leaves the state
    * as it is. */
  predicate Handled(g: Gate)
  {
    g.kind in {H, X, Y, Z, CNOT, PHASE, RX, RY, RZ}
  }

  /** The number of gates a state has had applied. */
  function AppliedCount(s: QState): nat
  {
    match s
    case Fresh(_) => 0
    case Applied(before, _) => AppliedCount(before) + 1
  }

  function ApplyGate(s: QState, g: Gate): (s': QState)
    ensures AppliedCount(s') == AppliedCount(s) + (if Handled(g) then 1 else 0)
    ensures !Handled(g) ==> s' == s
  {
    if Handled(g) then Applied(s, g) else s
  }

  /** The state after the first k gates. */
  function StateAfter(init: QState, gates: seq<Gate>, k: nat): QState
    requires k <= |gates|
  {
    if k == 0 then init else ApplyGate(StateAfter(init, gates, k - 1), gates[k - 1])
  }

  /** The states stepForward appends to the history while running the
    * first m gates: the state after each of them, in order. */
  function Trail(init: QState, gates: seq<Gate>, m: nat): (t: seq<QState>)
    requires m <= |gates|
    ensures |t| == m
    ensures forall k :: 0 <= k < m ==> t[k] == StateAfter(init, gates, k + 1)
  {
    if m == 0 then [] else Trail(init, gates, m - 1) + [StateAfter(init, gates, m)]
  }

  datatype ExecutionMode = Run | Step | Pause

  /** A breakpoint; a condition is a predicate on the current state. */
  datatype Breakpoint = Breakpoint(
    gateIndex: int,
    condition: Option<QState -> bool>,
    description: string,
    enabled: bool)

  /** checkBreakpoint: the first enabled breakpoint at `step` decides, by
    * its condition if it has one; with none the answer is false. */
  function BreakpointHit(bps: seq<Breakpoint>, step: int, state: QState): bool
  {
    if bps == [] then false
    else if bps[0].enabled && bps[0].gateIndex == step then
      (if bps[0].condition.Some? then bps[0].condition.value(state) else true)
    else BreakpointHit(bps[1..], step, state)
  }

  /** The breakpoint at index k is the first enabled one at `step`. */
  ghost predicate FirstAt(bps: seq<Breakpoint>, step: int, k: nat)
  {
    k < |bps| && bps[k].enabled && bps[k].gateIndex == step &&
    forall j :: 0 <= j < k ==> !(bps[j].enabled && bps[j].gateIndex == step)
  }

  /** The answer is that of the first enabled breakpoint at the step; later
    * ones are ignored, and with none the answer is false. */
  lemma {:induction false} BreakpointHitFirst(bps: seq<Breakpoint>, step: int, state: QState)
    ensures forall k: nat :: FirstAt(bps, step, k) ==>
      BreakpointHit(bps, step, state) == (bps[k].condition.None? || bps[k].condition.value(state))
    ensures (forall k :: 0 <= k < |bps| ==> !(bps[k].enabled && bps[k].gateIndex == step)) ==>
      !BreakpointHit(bps, step, state)
  {
    if bps != [] {
      BreakpointHitFirst(bps[1..], step, state);
      forall k: nat | FirstAt(bps, step, k)
        ensures BreakpointHit(bps, step, state) == (bps[k].condition.None? || bps[k].condition.value(state))
      {
        if k > 0 {
          assert FirstAt(bps[1..], step, k - 1);
        }
      }
      if forall k :: 0 <= k < |bps| ==> !(bps[k].enabled && bps[k].gateIndex == step) {
        assert forall k :: 0 <= k < |bps[1..]| ==> bps[1..][k] == bps[k + 1];
      }
    }
  }

  /** The cursor part of the engine: step, current state, history. */
  datatype Cursor = Cursor(step: int, current: QState, history: seq<QState>)

  /** The cursor of a new or reset engine. */
  function Start(numQubits: int): Cursor
  {
    Cursor(0, Fresh(numQubits), [Fresh(numQubits)])
  }

  /** stepForward once not finished: apply the gate, advance, and append the
    * new state to the history, whatever lies past the step. */
  function Forward(gates: seq<Gate>, c: Cursor): Cursor
    requires 0 <= c.step < |gates|
  {
    var next := ApplyGate(c.current, gates[c.step]);
    Cursor(c.step + 1, next, c.history + [next])
  }

  /** stepBackward once past step 0: go back one step and take the state
    * stored at that index of the history. */
  function Backward(c: Cursor): Cursor
    requires 0 < c.step <= |c.history|
  {
    Cursor(c.step - 1, c.history[c.step - 1], c.history)
  }

  /** The current state is the state after the gates executed so far. */
  ghost predicate CurrentIsExact(init: QState, gates: seq<Gate>, c: Cursor)
  {
    0 <= c.step <= |gates| && c.current == StateAfter(init, gates, c.step)
  }

  /** Stepping forward after stepping back appends instead of overwriting,
    * so on three handled gates the trace forward, back, forward, forward,
    * forward, back stops at step 2 holding the state after one gate. */
  lemma StaleHistoryAfterStepBack(g: Gate, n: int)
    requires Handled(g)
    ensures var gates := [g, g, g];
      var c1 := Forward(gates, Start(n));
      var c2 := Backward(c1);
      var c3 := Forward(gates, c2);
      var c4 := Forward(gates, c3);
      var c5 := Forward(gates, c4);
      var c6 := Backward(c5);
      CurrentIsExact(Fresh(n), gates, c5) && c6.step == 2 &&
      c6.current == StateAfter(Fresh(n), gates, 1) && !CurrentIsExact(Fresh(n), gates, c6)
  {
    var gates := [g, g, g];
    var s0 := Fresh(n);
    var s1 := Applied(s0, g);
    var s2 := Applied(s1, g);
    assert StateAfter(s0, gates, 1) == s1;
    assert StateAfter(s0, gates, 2) == s2;
    assert StateAfter(s0, gates, 3) == Applied(s2, g);
    var c5 := Forward(gates, Forward(gates, Forward(gates, Backward(Forward(gates, Start(n))))));
    assert c5.history == [s0, s1, s1, s2, Applied(s2, g)];
    assert AppliedCount(s1) != AppliedCount(s2);
  }

  /** stepForward as evidently intended: drop the history past the current
    * step before appending. */
  function ForwardTruncating(gates: seq<Gate>, c: Cursor): Cursor
    requires 0 <= c.step < |gates| && c.step < |c.history|
  {
    var next := ApplyGate(c.current, gates[c.step]);
    Cursor(c.step + 1, next, c.history[..c.step + 1] + [next])
  }

  /** The history holds, at every index, the state after that many gates. */
  ghost predicate Tracks(init: QState, gates: seq<Gate>, c: Cursor)
  {
    CurrentIsExact(init, gates, c) && c.step < |c.history| <= |gates| + 1 &&
    forall k :: 0 <= k < |c.history| ==> c.history[k] == StateAfter(init, gates, k)
  }

  /** With the truncating step, any sequence of steps keeps the history
    * exact, so stepping back always restores the right state. */
  lemma TracksPreserved(n: int, gates: seq<Gate>, c: Cursor)
    ensures Tracks(Fresh(n), gates, Start(n))
    ensures Tracks(Fresh(n), gates, c) && c.step < |gates| ==>
      Tracks(Fresh(n), gates, ForwardTruncating(gates, c))
    ensures Tracks(Fresh(n), gates, c) && c.step > 0 ==> Tracks(Fresh(n), gates, Backward(c))
  {
    if Tracks(Fresh(n), gates, c) && c.step < |gates| {
      var c' := ForwardTruncating(gates, c);
      forall k | 0 <= k < |c'.history|
        ensures c'.history[k] == StateAfter(Fresh(n), gates, k)
      {
        if k <= c.step {
          assert c'.history[k] == c.history[k];
        }
      }
    }
  }

  class ExecutionEngine {
    /** The circuit's gates and width (a copy the engine never changes). */
    const gates: seq<Gate>
    const numQubits: int
    var currentState: QState
    var stateHistory: seq<QState>
    var currentStep: int
    var mode: ExecutionMode
    var breakpoints: seq<Breakpoint>

    /** 0 <= currentStep <= totalSteps, and the history reaches the step. */
    ghost predicate Valid()
      reads this
    {
      0 <= currentStep <= |gates| && currentStep < |stateHistory|
    }

    function Snapshot(): Cursor
      reads this
    {
      Cursor(currentStep, currentState, stateHistory)
    }

    function TotalSteps(): int
      reads this
    {
      |gates|
    }

    predicate IsFinished()
      reads this
    {
      currentStep >= TotalSteps()
    }

    /** ExecutionEngine(circuit): step 0 on a fresh state, which is also the
      * whole history, in step mode. */
    constructor (circuitGates: seq<Gate>, circuitQubits: int)
      ensures Valid()
      ensures gates == circuitGates && numQubits == circuitQubits
      ensures Snapshot() == Start(circuitQubits)
      ensures mode == Step && breakpoints == []
    {
      gates := circuitGates;
      numQubits := circuitQubits;
      currentState := Fresh(circuitQubits);
      stateHistory := [Fresh(circuitQubits)];
      currentStep := 0;
      mode := Step;
      breakpoints := [];
    }

    /** stepForward: runtime_error once finished; otherwise one Forward. */
    method StepForward() returns (s: Status)
      requires Valid()
      modifies this`currentState, this`stateHistory, this`currentStep
      ensures Valid()
      ensures old(IsFinished()) ==> s == Failed(RuntimeError) && Snapshot() == old(Snapshot())
      ensures !old(IsFinished()) ==> s == Done && Snapshot() == Forward(gates, old(Snapshot()))
    {
      if IsFinished() {
        return Failed(RuntimeError);
      }
      var next := ApplyGate(currentState, gates[currentStep]);
      currentState := next;
      currentStep := currentStep + 1;
      stateHistory := stateHistory + [next];
      return Done;
    }

    /** stepBackward: runtime_error at step 0; otherwise one Backward. */
    method StepBackward() returns (s: Status)
      requires Valid()
      modifies this`currentState, this`currentStep
      ensures Valid()
      ensures old(currentStep) <= 0 ==> s == Failed(RuntimeError) && Snapshot() == old(Snapshot())
      ensures old(currentStep) > 0 ==> s == Done && Snapshot() == Backward(old(Snapshot()))
    {
      if currentStep <= 0 {
        return Failed(RuntimeError);
      }
      currentStep := currentStep - 1;
      currentState := stateHistory[currentStep];
      return Done;
    }

    /** runToEnd: step until finished, appending each new state to the
      * history. */
    method RunToEnd()
      requires Valid()
      modifies this`currentState, this`stateHistory, this`currentStep
      ensures Valid() && IsFinished() && currentStep == |gates|
      ensures currentState == StateAfter(old(currentState), gates[old(currentStep)..], |gates| - old(currentStep))
      ensures stateHistory == old(stateHistory) + Trail(old(currentState), gates[old(currentStep)..], |gates| - old(currentStep))
    {
      ghost var start := currentStep;
      ghost var init := currentState;
      ghost var history := stateHistory;
      while !IsFinished()
        invariant Valid() && start <= currentStep
        invariant currentState == StateAfter(init, gates[start..], currentStep - start)
        invariant stateHistory == history + Trail(init, gates[start..], currentStep - start)
        decreases |gates| - currentStep
      {
        var s := StepForward();
      }
    }

    /** isAtBreakpoint: checkBreakpoint at the current step. */
    method IsAtBreakpoint() returns (b: bool)
      ensures b == BreakpointHit(breakpoints, currentStep, currentState)
    {
      b := CheckBreakpoint(currentStep);
    }

    /** runToBreakpoint: step until finished or at a breakpoint. The run
      * stops at the first step, from the starting one on, where a
      * breakpoint fires; the states passed on the way are appended to the
      * history. */
    method RunToBreakpoint()
      requires Valid()
      modifies this`currentState, this`stateHistory, this`currentStep
      ensures Valid() && old(currentStep) <= currentStep
      ensures IsFinished() || BreakpointHit(breakpoints, currentStep, currentState)
      ensures currentState == StateAfter(old(currentState), gates[old(currentStep)..], currentStep - old(currentStep))
      ensures stateHistory == old(stateHistory) + Trail(old(currentState), gates[old(currentStep)..], currentStep - old(currentStep))
      ensures forall k :: 0 <= k < currentStep - old(currentStep) ==>
        !BreakpointHit(breakpoints, old(currentStep) + k, StateAfter(old(currentState), gates[old(currentStep)..], k))
    {
      ghost var start := currentStep;
      ghost var init := currentState;
      ghost var history := stateHistory;
      while true
        invariant Valid() && start <= currentStep
        invariant currentState == StateAfter(init, gates[start..], currentStep - start)
        invariant stateHistory == history + Trail(init, gates[start..], currentStep - start)
        invariant forall k :: 0 <= k < currentStep - start ==>
          !BreakpointHit(breakpoints, start + k, StateAfter(init, gates[start..], k))
        decreases |gates| - currentStep
      {
        if IsFinished() {
          return;
        }
        var hit := IsAtBreakpoint();
        if hit {
          return;
        }
        var s := StepForward();
      }
    }

    /** reset: back to step 0 on a fresh state with a one-state history;
      * breakpoints and mode stay. */
    method Reset()
      modifies this`currentState, this`stateHistory, this`currentStep
      ensures Valid() && Snapshot() == Start(numQubits)
    {
      currentStep := 0;
      currentState := Fresh(numQubits);
      stateHistory := [currentState];
    }

    /** addBreakpoint: an enabled breakpoint without condition, described
      * as "Gate <index>". */
    method AddBreakpoint(gateIndex: int)
      modifies this`breakpoints
      ensures breakpoints == old(breakpoints) + [Breakpoint(gateIndex, None, "Gate " + IntToString(gateIndex), true)]
    {
      breakpoints := breakpoints + [Breakpoint(gateIndex, None, "Gate " + IntToString(gateIndex), true)];
    }

    method AddConditionalBreakpoint(gateIndex: int, condition: QState -> bool, description: string)
      modifies this`breakpoints
      ensures breakpoints == old(breakpoints) + [Breakpoint(gateIndex, Some(condition), description, true)]
    {
      breakpoints := breakpoints + [Breakpoint(gateIndex, Some(condition), description, true)];
    }

    /** removeBreakpoint: an index outside the list is ignored. */
    method RemoveBreakpoint(index: int)
      modifies this`breakpoints
      ensures 0 <= index < |old(breakpoints)| ==>
        breakpoints == old(breakpoints[..index] + breakpoints[index + 1..])
      ensures !(0 <= index < |old(breakpoints)|) ==> breakpoints == old(breakpoints)
    {
      if 0 <= index < |breakpoints| {
        breakpoints := breakpoints[..index] + breakpoints[index + 1..];
      }
    }

    /** toggleBreakpoint: flip one enabled flag; an index outside the list
      * is ignored. */
    method ToggleBreakpoint(index: int)
      modifies this`breakpoints
      ensures breakpoints == Toggled(old(breakpoints), index)
    {
      if 0 <= index < |breakpoints| {
        breakpoints := breakpoints[index := breakpoints[index].(enabled := !breakpoints[index].enabled)];
      }
    }

    method ClearBreakpoints()
      modifies this`breakpoints
      ensures breakpoints == []
    {
      breakpoints := [];
    }

    method SetMode(m: ExecutionMode)
      modifies this`mode
      ensures mode == m
    {
      mode := m;
    }

    /** checkBreakpoint(step): the loop over the breakpoints. */
    method CheckBreakpoint(step: int) returns (b: bool)
      ensures b == BreakpointHit(breakpoints, step, currentState)
    {
      var k := 0;
      while k < |breakpoints|
        invariant 0 <= k <= |breakpoints|
        invariant BreakpointHit(breakpoints[k..], step, currentState) == BreakpointHit(breakpoints, step, currentState)
      {
        var bp := breakpoints[k];
        assert breakpoints[k..][1..] == breakpoints[k + 1..];
        if bp.enabled && bp.gateIndex == step {
          if bp.condition.Some? {
            return bp.condition.value(currentState);
          } else {
            return true;
          }
        }
        k := k + 1;
      }
      return false;
    }
  }

  /** The list after toggleBreakpoint(index). */
  function Toggled(bps: seq<Breakpoint>, index: int): (r: seq<Breakpoint>)
    ensures |r| == |bps|
  {
    if 0 <= index < |bps| then bps[index := bps[index].(enabled := !bps[index].enabled)] else bps
  }

  /** Toggling twice restores the list, and toggling changes nothing but one
    * flag. */
  lemma ToggleTwice(bps: seq<Breakpoint>, index: int)
    ensures Toggled(Toggled(bps, index), index) == bps
    ensures forall k :: 0 <= k < |bps| && k != index ==> Toggled(bps, index)[k] == bps[k]
    ensures 0 <= index < |bps| ==> Toggled(bps, index)[index].enabled != bps[index].enabled
  {
    if 0 <= index < |bps| {
      var once := Toggled(bps, index);
      assert once[index].(enabled := !once[index].enabled) == bps[index];
    }
  }
}
