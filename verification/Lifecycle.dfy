/** The life of an agent's runs: one at a time, and no provider observer of a
    run executes once the run is idle. Observers run on
    foreign tasks and read-lock what a finishing run write-locks. */
module Lifecycle {
  import opened Wrappers

  type RunId = nat
  type ObserverId = nat

  /** How far the end of a run has come. */
  datatype Phase = Running | Closing | Closed | Cleared | Idle

  datatype Run = Run(phase: Phase, live: bool)

  /** An observer that holds the run's lock for reading; `executing` once it
      has seen the run live. */
  datatype Inside = Inside(run: RunId, checked: bool, executing: bool)

  datatype State = State(
    closed: bool,
    active: Option<RunId>,
    runs: map<RunId, Run>,
    inside: map<ObserverId, Inside>
  )

  const INITIAL := State(false, None, map[], map[])

  datatype Step =
    | Begin(r: RunId)
    | DropAgent
    | Enter(o: ObserverId, r: RunId)
    | Check(o: ObserverId)
    | Leave(o: ObserverId)
    | EndRun(r: RunId)
    | TakeLock(r: RunId)
    | Clear(r: RunId)
    | SignalIdle(r: RunId)

  predicate At(s: State, r: RunId, phase: Phase) { r in s.runs && s.runs[r].phase == phase }

  predicate Enabled(s: State, step: Step) {
    match step
    case Begin(r) => !s.closed && s.active.None? && r !in s.runs
    case DropAgent => true
    case Enter(o, r) => o !in s.inside && r in s.runs
    case Check(o) => o in s.inside && !s.inside[o].checked && s.inside[o].run in s.runs
    case Leave(o) => o in s.inside && s.inside[o].checked
    case EndRun(r) => At(s, r, Running)
    case TakeLock(r) => At(s, r, Closing) && forall o | o in s.inside :: s.inside[o].run != r
    case Clear(r) => At(s, r, Closed)
    case SignalIdle(r) => At(s, r, Cleared)
  }

  function WithPhase(s: State, r: RunId, phase: Phase): State
    requires r in s.runs
  {
    s.(runs := s.runs[r := s.runs[r].(phase := phase)])
  }

  function Apply(s: State, step: Step): State
    requires Enabled(s, step)
  {
    match step
    case Begin(r) => s.(active := Some(r), runs := s.runs[r := Run(Running, true)])
    case DropAgent =>
      // Refuses later observers at once; one that runs may still finish.
      var closing := if s.active.Some? && s.active.value in s.runs
        then s.runs[s.active.value := s.runs[s.active.value].(live := false)] else s.runs;
      s.(closed := true, runs := closing)
    case Enter(o, r) => s.(inside := s.inside[o := Inside(r, false, false)])
    case Check(o) => s.(inside := s.inside[o := s.inside[o].(checked := true, executing := s.runs[s.inside[o].run].live)])
    case Leave(o) => s.(inside := s.inside - {o})
    case EndRun(r) => s.(runs := s.runs[r := Run(Closing, false)])
    case TakeLock(r) => WithPhase(s, r, Closed)
    case Clear(r) => WithPhase(s, r, Cleared).(active := None)
    case SignalIdle(r) => WithPhase(s, r, Idle)
  }

  predicate IsOpen(phase: Phase) { phase.Running? || phase.Closing? || phase.Closed? }

  /** The active run is the one whose end has not been published; observers
      of a run past its lock do not execute. */
  ghost predicate Inv(s: State) {
    && (forall r | r in s.runs :: IsOpen(s.runs[r].phase) <==> s.active == Some(r))
    && (s.active.Some? ==> s.active.value in s.runs)
    && (forall r | r in s.runs && s.runs[r].live :: s.runs[r].phase.Running?)
    && (forall o | o in s.inside :: s.inside[o].run in s.runs)
    && (forall o | o in s.inside && s.inside[o].executing ::
          s.runs[s.inside[o].run].phase.Running? || s.runs[s.inside[o].run].phase.Closing?)
  }

  lemma StepKeepsInv(s: State, step: Step)
    requires Inv(s) && Enabled(s, step)
    ensures Inv(Apply(s, step))
  {
  }

  ghost predicate CanRun(s: State, steps: seq<Step>)
    decreases |steps|
  {
    steps == [] || (Enabled(s, steps[0]) && CanRun(Apply(s, steps[0]), steps[1..]))
  }

  ghost function After(s: State, steps: seq<Step>): State
    requires CanRun(s, steps)
    decreases |steps|
  {
    if steps == [] then s else After(Apply(s, steps[0]), steps[1..])
  }

  lemma {:induction false} RunsKeepInv(s: State, steps: seq<Step>)
    requires Inv(s) && CanRun(s, steps)
    ensures Inv(After(s, steps))
    decreases |steps|
  {
    if steps != [] {
      StepKeepsInv(s, steps[0]);
      RunsKeepInv(Apply(s, steps[0]), steps[1..]);
    }
  }

  /** In every reachable state at most one run is open. */
  lemma OneRunAtATime(steps: seq<Step>, a: RunId, b: RunId)
    requires CanRun(INITIAL, steps)
    requires a in After(INITIAL, steps).runs && b in After(INITIAL, steps).runs
    requires IsOpen(After(INITIAL, steps).runs[a].phase) && IsOpen(After(INITIAL, steps).runs[b].phase)
    ensures a == b
  {
    RunsKeepInv(INITIAL, steps);
  }

  lemma {:induction false} IdleForGood(s: State, steps: seq<Step>, r: RunId)
    requires CanRun(s, steps) && At(s, r, Idle)
    ensures At(After(s, steps), r, Idle)
    decreases |steps|
  {
    if steps != [] {
      IdleForGood(Apply(s, steps[0]), steps[1..], r);
    }
  }

  /** Once idle is signalled, no observer of the run executes, now or after
      any further steps, whoever holds its callbacks. */
  lemma NoObserverAfterIdle(steps: seq<Step>, r: RunId, later: seq<Step>, o: ObserverId)
    requires CanRun(INITIAL, steps) && At(After(INITIAL, steps), r, Idle) && CanRun(After(INITIAL, steps), later)
    requires o in After(After(INITIAL, steps), later).inside
    requires After(After(INITIAL, steps), later).inside[o].run == r
    ensures !After(After(INITIAL, steps), later).inside[o].executing
  {
    RunsKeepInv(INITIAL, steps);
    RunsKeepInv(After(INITIAL, steps), later);
    IdleForGood(After(INITIAL, steps), later, r);
  }
}
