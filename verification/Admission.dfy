/** The model-call admission protocol: callers, drainers and cancellers
    interleave over one slot for a durable write, a debit counter and a stop
    cause. Each critical section of a mutex is one step. */
module Admission {
  import opened Wrappers

  type Task = nat
  type Handle = nat

  const U64_MAX: nat := 0xffff_ffff_ffff_ffff

  datatype BudgetLimit = Deadline | ModelCalls

  /** Why the interval ended. */
  datatype Outcome = FinishedTurn | Cancelled | BudgetExhausted(limit: BudgetLimit) | Failed

  /** How a task came to watch a write: it reserved the debit, it waits for its
      turn to reserve, or it drains. */
  datatype Role = Owner | Caller | Drainer

  /** A write from its installation to its last waker. `Polled` and `Recorded`
      hold the observation lock; `worker` completes it. */
  datatype Phase =
    | Running
    | Polled(worker: Task)
    | Recorded(worker: Task, ok: bool)
    | Released(worker: Task, ok: bool)
    | HandlesAborted(worker: Task, ok: bool)
    | Notified(ok: bool)

  datatype Write = Write(phase: Phase, wakers: set<Task>, aborts: seq<Handle>)

  datatype Pc =
    | AtGate(role: Role)
    | Installing(ordinal: nat)
    | Watching(ordinal: nat, role: Role)
    | Completing(ordinal: nat, role: Role)
    | Passed(ordinal: nat)
    | Admitted(ordinal: nat)
    | Refused
    | Drained

  /** What was reserved, and what the observer made of it; a write goes by the
      ordinal of its debit. */
  datatype Ledger = Ledger(
    limit: Option<nat>,
    observed: bool,
    restored: nat,
    calls: nat,
    reservations: seq<nat>,
    completions: seq<nat>,
    journal: set<nat>
  )

  datatype State = State(
    ledger: Ledger,
    stopped: Option<Outcome>,
    slot: Option<nat>,
    gate: Option<Task>,
    writes: map<nat, Write>,
    tasks: map<Task, Pc>,
    parked: set<Task>,
    handles: map<Handle, Option<nat>>,
    aborted: seq<Handle>
  )

  function Initial(limit: Option<nat>, restored: nat, observed: bool): State {
    State(Ledger(limit, observed, restored, restored, [], [], {}), None, None, None, map[], map[], {}, map[], [])
  }

  datatype Step =
    | Spawn(t: Task, role: Role)
    | Wait(t: Task)
    | Reserve(t: Task, reserve: Option<nat>)
    | Decline(t: Task, reserve: Option<nat>)
    | Install(t: Task)
    | PollPending(t: Task)
    | PollReady(t: Task, ok: bool)
    | RecordFailure(t: Task)
    | Release(t: Task)
    | AbortHandles(t: Task)
    | Notify(t: Task)
    | PollDone(t: Task)
    | Conclude(t: Task)
    | EndDrain(t: Task)
    | Stop(outcome: Outcome, required: bool)
    | Drop(t: Task)
    | Wake(t: Task)
    | IoWake(ordinal: nat)
    | AbortAfter(h: Handle)

  // ------------------------------------------------------------- functions

  /** Whether the debit and the reserve still fit, in 64-bit arithmetic. */
  predicate Fits(limit: Option<nat>, calls: nat, reserve: Option<nat>) {
    var extra := if reserve.Some? then reserve.value + 1 else 1;
    extra <= U64_MAX && calls + extra <= U64_MAX && (limit.Some? ==> calls + extra <= limit.value)
  }

  /** The first cause stays, except that a required failure replaces any cause
      that is not itself a failure. */
  function Stopping(stopped: Option<Outcome>, outcome: Outcome, required: bool): Option<Outcome> {
    if stopped.None? || (required && stopped != Some(Failed)) then Some(outcome) else stopped
  }

  predicate At(s: State, t: Task, pc: Pc) { t in s.tasks && s.tasks[t] == pc }

  predicate IsCompleting(s: State, t: Task) {
    t in s.tasks && s.tasks[t].Completing? && s.tasks[t].ordinal in s.writes
  }

  predicate IsWatching(s: State, t: Task) {
    t in s.tasks && s.tasks[t].Watching? && s.tasks[t].ordinal in s.writes && t !in s.parked
  }

  function PhaseOf(s: State, t: Task): Phase
    requires t in s.tasks && (s.tasks[t].Watching? || s.tasks[t].Completing?) && s.tasks[t].ordinal in s.writes
  {
    s.writes[s.tasks[t].ordinal].phase
  }

  predicate HasResult(phase: Phase) { phase.Released? || phase.HandlesAborted? || phase.Notified? }

  predicate Enabled(s: State, step: Step) {
    match step
    case Spawn(t, role) => t !in s.tasks && t !in s.parked && !role.Owner?
    case Wait(t) => t in s.tasks && s.tasks[t].AtGate? && s.gate.None? && s.slot.Some?
    case Reserve(t, reserve) =>
      At(s, t, AtGate(Caller)) && s.gate.None? && s.slot.None? && s.stopped.None? && Fits(s.ledger.limit, s.ledger.calls, reserve)
    case Decline(t, reserve) =>
      At(s, t, AtGate(Caller)) && s.gate.None? && s.slot.None? && (s.stopped.Some? || !Fits(s.ledger.limit, s.ledger.calls, reserve))
    case Install(t) => t in s.tasks && s.tasks[t].Installing? && s.gate == Some(t)
    case PollPending(t) => IsWatching(s, t) && PhaseOf(s, t).Running?
    case PollReady(t, _) => IsWatching(s, t) && PhaseOf(s, t).Running?
    case RecordFailure(t) => IsCompleting(s, t) && PhaseOf(s, t) == Polled(t)
    case Release(t) => IsCompleting(s, t) && PhaseOf(s, t).Recorded? && PhaseOf(s, t).worker == t && s.gate.None?
    case AbortHandles(t) => IsCompleting(s, t) && PhaseOf(s, t).Released? && PhaseOf(s, t).worker == t
    case Notify(t) => IsCompleting(s, t) && PhaseOf(s, t).HandlesAborted? && PhaseOf(s, t).worker == t
    case PollDone(t) => IsWatching(s, t) && HasResult(PhaseOf(s, t))
    case Conclude(t) => t in s.tasks && s.tasks[t].Passed?
    case EndDrain(t) => At(s, t, AtGate(Drainer)) && s.gate.None? && s.slot.None?
    case Stop(outcome, required) => required ==> outcome.Failed?
    case Drop(t) => t in s.tasks && (s.tasks[t].AtGate? || s.tasks[t].Watching?)
    case Wake(t) => t in s.parked
    case IoWake(ordinal) => ordinal in s.writes
    case AbortAfter(h) => h !in s.handles && s.gate.None?
  }

  function WithPhase(s: State, ordinal: nat, phase: Phase): State
    requires ordinal in s.writes
  {
    s.(writes := s.writes[ordinal := s.writes[ordinal].(phase := phase)])
  }

  function Goto(s: State, t: Task, pc: Pc): State {
    s.(tasks := s.tasks[t := pc])
  }

  /** Where a task goes once it has seen the result of the write it watched. */
  function Onward(pc: Pc, ok: bool): Pc
    requires pc.Watching? || pc.Completing?
  {
    if pc.role.Drainer? then AtGate(Drainer)
    else if !ok then Refused
    else if pc.role.Caller? then AtGate(Caller)
    else Passed(pc.ordinal)
  }

  function Debited(l: Ledger): Ledger {
    l.(calls := l.calls + 1, reservations := l.reservations + [l.calls + 1])
  }

  function Written(l: Ledger, ordinal: nat, ok: bool): Ledger {
    l.(completions := l.completions + [ordinal], journal := if ok then l.journal + {ordinal} else l.journal)
  }

  function Apply(s: State, step: Step): State
    requires Enabled(s, step)
  {
    match step
    case Spawn(t, role) => Goto(s, t, AtGate(role))
    case Wait(t) => Goto(s, t, Watching(s.slot.value, s.tasks[t].role))
    case Reserve(t, _) =>
      Goto(s.(ledger := Debited(s.ledger), gate := Some(t)), t, Installing(s.ledger.calls + 1))
    case Decline(t, reserve) =>
      var limited := if s.stopped.None? && reserve.None? then Some(BudgetExhausted(ModelCalls)) else s.stopped;
      Goto(s.(stopped := limited), t, Refused)
    case Install(t) =>
      var ordinal := s.tasks[t].ordinal;
      if s.ledger.observed then
        Goto(s.(gate := None, slot := Some(ordinal), writes := s.writes[ordinal := Write(Running, {}, [])]), t, Watching(ordinal, Owner))
      else Goto(s.(gate := None), t, Passed(ordinal))
    case PollPending(t) =>
      var ordinal := s.tasks[t].ordinal;
      s.(writes := s.writes[ordinal := s.writes[ordinal].(wakers := s.writes[ordinal].wakers + {t})], parked := s.parked + {t})
    case PollReady(t, ok) =>
      var ordinal := s.tasks[t].ordinal;
      var phase := if ok then Recorded(t, true) else Polled(t);
      Goto(s.(writes := s.writes[ordinal := s.writes[ordinal].(phase := phase, wakers := s.writes[ordinal].wakers + {t})],
              ledger := Written(s.ledger, ordinal, ok)),
           t, Completing(ordinal, s.tasks[t].role))
    case RecordFailure(t) =>
      WithPhase(s, s.tasks[t].ordinal, Recorded(t, false)).(stopped := Stopping(s.stopped, Failed, true))
    case Release(t) =>
      var ordinal := s.tasks[t].ordinal;
      WithPhase(s, ordinal, Released(t, PhaseOf(s, t).ok)).(slot := if s.slot == Some(ordinal) then None else s.slot)
    case AbortHandles(t) =>
      var ordinal := s.tasks[t].ordinal;
      var taken := s.writes[ordinal].aborts;
      s.(writes := s.writes[ordinal := Write(HandlesAborted(t, PhaseOf(s, t).ok), s.writes[ordinal].wakers, [])],
        aborted := s.aborted + taken)
    case Notify(t) =>
      var ordinal, ok := s.tasks[t].ordinal, PhaseOf(s, t).ok;
      Goto(s.(writes := s.writes[ordinal := Write(Notified(ok), {}, s.writes[ordinal].aborts)],
              parked := s.parked - s.writes[ordinal].wakers),
           t, Onward(s.tasks[t], ok))
    case PollDone(t) => Goto(s, t, Onward(s.tasks[t], PhaseOf(s, t).ok))
    case Conclude(t) => Goto(s, t, if s.stopped.None? then Admitted(s.tasks[t].ordinal) else Refused)
    case EndDrain(t) => Goto(s, t, Drained)
    case Stop(outcome, required) => s.(stopped := Stopping(s.stopped, outcome, required))
    case Drop(t) =>
      // Dropping the task that reserved the debit cancels the interval.
      var cancelled := if s.tasks[t].Watching? && s.tasks[t].role.Owner? then Stopping(s.stopped, Cancelled, false) else s.stopped;
      s.(tasks := s.tasks - {t}, parked := s.parked - {t}, stopped := cancelled)
    case Wake(t) => s.(parked := s.parked - {t})
    case IoWake(ordinal) =>
      s.(writes := s.writes[ordinal := s.writes[ordinal].(wakers := {})], parked := s.parked - s.writes[ordinal].wakers)
    case AbortAfter(h) =>
      if s.slot.Some? && s.slot.value in s.writes then
        var write := s.writes[s.slot.value];
        s.(writes := s.writes[s.slot.value := write.(aborts := write.aborts + [h])], handles := s.handles[h := Some(s.slot.value)])
      else s.(handles := s.handles[h := None], aborted := s.aborted + [h])
  }

  // ------------------------------------------------------------- invariant

  /** Debits are gap-free, never reused, and bounded by the limit. */
  ghost predicate DebitsInOrder(s: State) {
    && s.ledger.calls == s.ledger.restored + |s.ledger.reservations|
    && (forall i | 0 <= i < |s.ledger.reservations| :: s.ledger.reservations[i] == s.ledger.restored + 1 + i)
    && (s.ledger.limit.Some? ==> s.ledger.calls <= s.ledger.limit.value || s.ledger.calls == s.ledger.restored)
  }

  predicate InFlight(phase: Phase) { phase.Running? || phase.Polled? || phase.Recorded? }

  /** One write at a time: the slot names the write of the last debit, every
      other one has been released; the gate is held while a debit has no write. */
  ghost predicate OneWrite(s: State) {
    && (s.slot.Some? ==> s.slot.value == s.ledger.calls && s.ledger.calls in s.writes && s.gate.None? && s.ledger.observed)
    && (s.gate.Some? ==> s.ledger.calls > s.ledger.restored && At(s, s.gate.value, Installing(s.ledger.calls)) && s.ledger.calls !in s.writes)
    && (forall t | t in s.tasks && s.tasks[t].Installing? :: s.gate == Some(t))
    && (forall w | w in s.writes :: s.ledger.restored < w <= s.ledger.calls && s.ledger.observed)
    && (forall w | w in s.writes :: InFlight(s.writes[w].phase) <==> s.slot == Some(w))
    && (s.ledger.observed ==> forall w | s.ledger.restored < w <= s.ledger.calls :: w in s.writes || (s.gate.Some? && w == s.ledger.calls))
  }

  /** How many writes the observer has finished. */
  function Completed(s: State): int {
    s.ledger.calls - s.ledger.restored - (if s.gate.Some? then 1 else 0)
    - (if s.slot.Some? && s.slot.value in s.writes && s.writes[s.slot.value].phase.Running? then 1 else 0)
  }

  /** Writes complete in ordinal order, none skipped. */
  ghost predicate CompletionsInOrder(s: State) {
    && (s.ledger.observed ==> |s.ledger.completions| == Completed(s))
    && (!s.ledger.observed ==> s.ledger.completions == [])
    && (forall i | 0 <= i < |s.ledger.completions| :: s.ledger.completions[i] == s.ledger.restored + 1 + i)
  }

  predicate Finished(phase: Phase, ok: bool) {
    (phase.Recorded? || phase.Released? || phase.HandlesAborted? || phase.Notified?) && phase.ok == ok
  }

  /** A success is journalled; a recorded failure has stopped the interval and
      was the last debit. */
  ghost predicate ResultsRecorded(s: State) {
    && (forall w | w in s.writes && Finished(s.writes[w].phase, true) :: w in s.ledger.journal)
    && (forall w | w in s.writes && Finished(s.writes[w].phase, false) :: s.stopped == Some(Failed) && w == s.ledger.calls)
    && (forall w | w in s.ledger.journal :: w in s.writes && Finished(s.writes[w].phase, true))
  }

  /** A call past its write has that write in the journal. */
  ghost predicate CallsJournalled(s: State) {
    s.ledger.observed ==> forall t | t in s.tasks && (s.tasks[t].Passed? || s.tasks[t].Admitted?) :: s.tasks[t].ordinal in s.ledger.journal
  }

  predicate Owns(pc: Pc) {
    pc.Installing? || pc.Passed? || pc.Admitted? || ((pc.Watching? || pc.Completing?) && pc.role.Owner?)
  }

  /** No two tasks own the same debit. */
  ghost predicate OwnedOnce(s: State) {
    && (forall t | t in s.tasks && Owns(s.tasks[t]) :: s.ledger.restored < s.tasks[t].ordinal <= s.ledger.calls)
    && (forall t, u | t in s.tasks && u in s.tasks && t != u && Owns(s.tasks[t]) && Owns(s.tasks[u]) ::
          s.tasks[t].ordinal != s.tasks[u].ordinal)
    && (forall t | t in s.tasks && s.tasks[t].AtGate? :: !s.tasks[t].role.Owner?)
  }

  function Worker(phase: Phase): Option<Task> {
    match phase
    case Polled(worker) => Some(worker)
    case Recorded(worker, _) => Some(worker)
    case Released(worker, _) => Some(worker)
    case HandlesAborted(worker, _) => Some(worker)
    case _ => None
  }

  /** A write past polling has exactly the task that completes it. */
  ghost predicate Completers(s: State) {
    && (forall w | w in s.writes && Worker(s.writes[w].phase).Some? ::
          var t := Worker(s.writes[w].phase).value; t in s.tasks && s.tasks[t].Completing? && s.tasks[t].ordinal == w)
    && (forall t | t in s.tasks && s.tasks[t].Completing? ::
          s.tasks[t].ordinal in s.writes && Worker(s.writes[s.tasks[t].ordinal].phase) == Some(t))
  }

  ghost predicate WatchersHaveWrites(s: State) {
    forall t | t in s.tasks && s.tasks[t].Watching? :: s.tasks[t].ordinal in s.writes
  }

  /** Nobody sleeps through a completion: a parked task watches a write whose
      wakers still name it. */
  ghost predicate NoneStranded(s: State) {
    forall t | t in s.parked ::
      && t in s.tasks && s.tasks[t].Watching? && s.tasks[t].ordinal in s.writes
      && t in s.writes[s.tasks[t].ordinal].wakers && !s.writes[s.tasks[t].ordinal].phase.Notified?
  }

  ghost predicate Distinct(list: seq<Handle>) {
    forall i, j | 0 <= i < j < |list| :: list[i] != list[j]
  }

  predicate IsDone(phase: Phase) { phase.HandlesAborted? || phase.Notified? }

  /** A handle registered behind a write waits there until that write is done;
      every other one was aborted on the spot. */
  ghost predicate HandlesKept(s: State) {
    && (forall w, h | w in s.writes && h in s.writes[w].aborts :: h in s.handles && s.handles[h] == Some(w))
    && (forall h | h in s.handles && s.handles[h].Some? :: s.handles[h].value in s.writes
          && (h in s.writes[s.handles[h].value].aborts <==> !IsDone(s.writes[s.handles[h].value].phase)))
    && (forall h | h in s.handles :: h in s.aborted <==> s.handles[h].None? || IsDone(s.writes[s.handles[h].value].phase))
    && (forall h | h in s.aborted :: h in s.handles)
  }

  /** No handle is aborted twice. */
  ghost predicate AbortedOnce(s: State) {
    && Distinct(s.aborted)
    && (forall w | w in s.writes :: Distinct(s.writes[w].aborts))
  }

  ghost predicate Inv(s: State) {
    && DebitsInOrder(s) && OneWrite(s) && CompletionsInOrder(s) && ResultsRecorded(s)
    && CallsJournalled(s) && OwnedOnce(s)
    && Completers(s) && WatchersHaveWrites(s) && NoneStranded(s) && HandlesKept(s) && AbortedOnce(s)
  }

  lemma InitialInv(limit: Option<nat>, restored: nat, observed: bool)
    ensures Inv(Initial(limit, restored, observed))
  {
  }

  /** The steps that carry a write from its result to its last waker. */
  predicate InCompletion(step: Step) {
    step.PollReady? || step.RecordFailure? || step.Release? || step.AbortHandles? || step.Notify?
  }

  /** The steps that touch no write. */
  predicate IsQuiet(step: Step) {
    || step.Spawn? || step.Wait? || step.Decline? || step.PollDone? || step.Conclude? || step.EndDrain?
    || step.Stop? || step.Drop? || step.Wake?
  }

  lemma StepKeepsDebitsInOrder(s: State, step: Step)
    requires DebitsInOrder(s) && Enabled(s, step)
    ensures DebitsInOrder(Apply(s, step))
  {
  }

  lemma CompletionsKeepOneWrite(s: State, step: Step)
    requires DebitsInOrder(s) && OneWrite(s) && Enabled(s, step) && InCompletion(step)
    ensures OneWrite(Apply(s, step))
  {
  }

  lemma QuietStepsKeepOneWrite(s: State, step: Step)
    requires DebitsInOrder(s) && OneWrite(s) && Enabled(s, step) && IsQuiet(step)
    ensures OneWrite(Apply(s, step))
  {
  }

  lemma OthersKeepOneWrite(s: State, step: Step)
    requires DebitsInOrder(s) && OneWrite(s) && Enabled(s, step) && !InCompletion(step) && !IsQuiet(step)
    ensures OneWrite(Apply(s, step))
  {
  }

  lemma StepKeepsOneWrite(s: State, step: Step)
    requires DebitsInOrder(s) && OneWrite(s) && Enabled(s, step)
    ensures OneWrite(Apply(s, step))
  {
    if InCompletion(step) {
      CompletionsKeepOneWrite(s, step);
    } else if IsQuiet(step) {
      QuietStepsKeepOneWrite(s, step);
    } else {
      OthersKeepOneWrite(s, step);
    }
  }

  lemma CompletionsKeepCompletionsInOrder(s: State, step: Step)
    requires OneWrite(s) && CompletionsInOrder(s) && Enabled(s, step) && InCompletion(step)
    ensures CompletionsInOrder(Apply(s, step))
  {
  }

  lemma QuietStepsKeepCompletionsInOrder(s: State, step: Step)
    requires OneWrite(s) && CompletionsInOrder(s) && Enabled(s, step) && IsQuiet(step)
    ensures CompletionsInOrder(Apply(s, step))
  {
  }

  lemma OthersKeepCompletionsInOrder(s: State, step: Step)
    requires OneWrite(s) && CompletionsInOrder(s) && Enabled(s, step) && !InCompletion(step) && !IsQuiet(step)
    ensures CompletionsInOrder(Apply(s, step))
  {
  }

  lemma StepKeepsCompletionsInOrder(s: State, step: Step)
    requires OneWrite(s) && CompletionsInOrder(s) && Enabled(s, step)
    ensures CompletionsInOrder(Apply(s, step))
  {
    if InCompletion(step) {
      CompletionsKeepCompletionsInOrder(s, step);
    } else if IsQuiet(step) {
      QuietStepsKeepCompletionsInOrder(s, step);
    } else {
      OthersKeepCompletionsInOrder(s, step);
    }
  }
  lemma CompletionsKeepResultsRecorded(s: State, step: Step)
    requires OneWrite(s) && ResultsRecorded(s) && Enabled(s, step) && InCompletion(step)
    ensures ResultsRecorded(Apply(s, step))
  {
  }

  lemma QuietStepsKeepResultsRecorded(s: State, step: Step)
    requires OneWrite(s) && ResultsRecorded(s) && Enabled(s, step) && IsQuiet(step)
    ensures ResultsRecorded(Apply(s, step))
  {
  }

  lemma OthersKeepResultsRecorded(s: State, step: Step)
    requires OneWrite(s) && ResultsRecorded(s) && Enabled(s, step) && !InCompletion(step) && !IsQuiet(step)
    ensures ResultsRecorded(Apply(s, step))
  {
  }

  lemma StepKeepsResultsRecorded(s: State, step: Step)
    requires OneWrite(s) && ResultsRecorded(s) && Enabled(s, step)
    ensures ResultsRecorded(Apply(s, step))
  {
    if InCompletion(step) {
      CompletionsKeepResultsRecorded(s, step);
    } else if IsQuiet(step) {
      QuietStepsKeepResultsRecorded(s, step);
    } else {
      OthersKeepResultsRecorded(s, step);
    }
  }

  lemma CompletionsKeepCallsJournalled(s: State, step: Step)
    requires OneWrite(s) && Completers(s) && CallsJournalled(s) && ResultsRecorded(s) && Enabled(s, step) && InCompletion(step)
    ensures CallsJournalled(Apply(s, step))
  {
  }

  lemma QuietStepsKeepCallsJournalled(s: State, step: Step)
    requires OneWrite(s) && Completers(s) && CallsJournalled(s) && ResultsRecorded(s) && Enabled(s, step) && IsQuiet(step)
    ensures CallsJournalled(Apply(s, step))
  {
  }

  lemma OthersKeepCallsJournalled(s: State, step: Step)
    requires OneWrite(s) && Completers(s) && CallsJournalled(s) && ResultsRecorded(s) && Enabled(s, step) && !InCompletion(step) && !IsQuiet(step)
    ensures CallsJournalled(Apply(s, step))
  {
  }

  lemma StepKeepsCallsJournalled(s: State, step: Step)
    requires OneWrite(s) && Completers(s) && CallsJournalled(s) && ResultsRecorded(s) && Enabled(s, step)
    ensures CallsJournalled(Apply(s, step))
  {
    if InCompletion(step) {
      CompletionsKeepCallsJournalled(s, step);
    } else if IsQuiet(step) {
      QuietStepsKeepCallsJournalled(s, step);
    } else {
      OthersKeepCallsJournalled(s, step);
    }
  }
  lemma CompletionsKeepCompleters(s: State, step: Step)
    requires OneWrite(s) && Completers(s) && Enabled(s, step) && InCompletion(step)
    ensures Completers(Apply(s, step))
  {
  }

  lemma QuietStepsKeepCompleters(s: State, step: Step)
    requires OneWrite(s) && Completers(s) && Enabled(s, step) && IsQuiet(step)
    ensures Completers(Apply(s, step))
  {
  }

  lemma OthersKeepCompleters(s: State, step: Step)
    requires OneWrite(s) && Completers(s) && Enabled(s, step) && !InCompletion(step) && !IsQuiet(step)
    ensures Completers(Apply(s, step))
  {
  }

  lemma StepKeepsCompleters(s: State, step: Step)
    requires OneWrite(s) && Completers(s) && Enabled(s, step)
    ensures Completers(Apply(s, step))
  {
    if InCompletion(step) {
      CompletionsKeepCompleters(s, step);
    } else if IsQuiet(step) {
      QuietStepsKeepCompleters(s, step);
    } else {
      OthersKeepCompleters(s, step);
    }
  }

  lemma CompletionsKeepWatchersHaveWrites(s: State, step: Step)
    requires OneWrite(s) && WatchersHaveWrites(s) && Enabled(s, step) && InCompletion(step)
    ensures WatchersHaveWrites(Apply(s, step))
  {
  }

  lemma QuietStepsKeepWatchersHaveWrites(s: State, step: Step)
    requires OneWrite(s) && WatchersHaveWrites(s) && Enabled(s, step) && IsQuiet(step)
    ensures WatchersHaveWrites(Apply(s, step))
  {
  }

  lemma OthersKeepWatchersHaveWrites(s: State, step: Step)
    requires OneWrite(s) && WatchersHaveWrites(s) && Enabled(s, step) && !InCompletion(step) && !IsQuiet(step)
    ensures WatchersHaveWrites(Apply(s, step))
  {
  }

  lemma StepKeepsWatchersHaveWrites(s: State, step: Step)
    requires OneWrite(s) && WatchersHaveWrites(s) && Enabled(s, step)
    ensures WatchersHaveWrites(Apply(s, step))
  {
    if InCompletion(step) {
      CompletionsKeepWatchersHaveWrites(s, step);
    } else if IsQuiet(step) {
      QuietStepsKeepWatchersHaveWrites(s, step);
    } else {
      OthersKeepWatchersHaveWrites(s, step);
    }
  }
  lemma CompletionsKeepNoneStranded(s: State, step: Step)
    requires OneWrite(s) && NoneStranded(s) && Enabled(s, step) && InCompletion(step)
    ensures NoneStranded(Apply(s, step))
  {
  }

  lemma QuietStepsKeepNoneStranded(s: State, step: Step)
    requires OneWrite(s) && NoneStranded(s) && Enabled(s, step) && IsQuiet(step)
    ensures NoneStranded(Apply(s, step))
  {
  }

  lemma OthersKeepNoneStranded(s: State, step: Step)
    requires OneWrite(s) && NoneStranded(s) && Enabled(s, step) && !InCompletion(step) && !IsQuiet(step)
    ensures NoneStranded(Apply(s, step))
  {
  }

  lemma StepKeepsNoneStranded(s: State, step: Step)
    requires OneWrite(s) && NoneStranded(s) && Enabled(s, step)
    ensures NoneStranded(Apply(s, step))
  {
    if InCompletion(step) {
      CompletionsKeepNoneStranded(s, step);
    } else if IsQuiet(step) {
      QuietStepsKeepNoneStranded(s, step);
    } else {
      OthersKeepNoneStranded(s, step);
    }
  }

  /** Only a reservation makes an owner, and of a new debit. */
  ghost predicate OwnersFrom(s: State, step: Step, after: State) {
    && after.ledger.calls == s.ledger.calls + (if step.Reserve? then 1 else 0) && after.ledger.restored == s.ledger.restored
    && (forall t | t in after.tasks && after.tasks[t].AtGate? :: !after.tasks[t].role.Owner?)
    && (forall t | t in after.tasks && Owns(after.tasks[t]) ::
          if step.Reserve? && step.t == t then after.tasks[t].ordinal == s.ledger.calls + 1
          else t in s.tasks && Owns(s.tasks[t]) && s.tasks[t].ordinal == after.tasks[t].ordinal)
  }

  lemma CompletionsMakeNoOwner(s: State, step: Step)
    requires OwnedOnce(s) && Enabled(s, step) && InCompletion(step)
    ensures OwnersFrom(s, step, Apply(s, step))
  {
  }

  lemma AnswersMakeNoOwner(s: State, step: Step)
    requires OwnedOnce(s) && Enabled(s, step) && (step.Decline? || step.PollDone? || step.Conclude?)
    ensures OwnersFrom(s, step, Apply(s, step))
  {
  }

  lemma QuietStepsMakeNoOwner(s: State, step: Step)
    requires OwnedOnce(s) && Enabled(s, step) && IsQuiet(step) && !(step.Decline? || step.PollDone? || step.Conclude?)
    ensures OwnersFrom(s, step, Apply(s, step))
  {
  }

  lemma OnlyReserveMakesAnOwner(s: State, step: Step)
    requires OwnedOnce(s) && Enabled(s, step) && !InCompletion(step) && !IsQuiet(step)
    ensures OwnersFrom(s, step, Apply(s, step))
  {
  }

  lemma StepKeepsOwnedOnce(s: State, step: Step)
    requires DebitsInOrder(s) && OwnedOnce(s) && Enabled(s, step)
    ensures OwnedOnce(Apply(s, step))
  {
    if InCompletion(step) {
      CompletionsMakeNoOwner(s, step);
    } else if step.Decline? || step.PollDone? || step.Conclude? {
      AnswersMakeNoOwner(s, step);
    } else if IsQuiet(step) {
      QuietStepsMakeNoOwner(s, step);
    } else {
      OnlyReserveMakesAnOwner(s, step);
    }
    var before, after := s.tasks, Apply(s, step).tasks;
    forall t, u | t in after && u in after && t != u && Owns(after[t]) && Owns(after[u])
      ensures after[t].ordinal != after[u].ordinal
    {
    }
  }

  ghost predicate SameHandles(s: State, after: State) {
    && after.handles == s.handles && after.aborted == s.aborted
    && (forall w | w in s.writes ::
          w in after.writes && after.writes[w].aborts == s.writes[w].aborts && IsDone(after.writes[w].phase) == IsDone(s.writes[w].phase))
    && (forall w | w in after.writes && w !in s.writes :: after.writes[w].aborts == [])
  }

  lemma CompletionsLeaveHandles(s: State, step: Step)
    requires OneWrite(s) && HandlesKept(s) && Enabled(s, step) && InCompletion(step) && !step.AbortHandles? && !step.AbortAfter?
    ensures SameHandles(s, Apply(s, step))
  {
  }

  lemma QuietStepsLeaveHandles(s: State, step: Step)
    requires OneWrite(s) && HandlesKept(s) && Enabled(s, step) && IsQuiet(step) && !step.AbortHandles? && !step.AbortAfter?
    ensures SameHandles(s, Apply(s, step))
  {
  }

  lemma OthersLeaveHandles(s: State, step: Step)
    requires OneWrite(s) && HandlesKept(s) && Enabled(s, step) && !InCompletion(step) && !IsQuiet(step) && !step.AbortHandles? && !step.AbortAfter?
    ensures SameHandles(s, Apply(s, step))
  {
  }

  lemma MostStepsLeaveHandles(s: State, step: Step)
    requires OneWrite(s) && HandlesKept(s) && Enabled(s, step) && !step.AbortHandles? && !step.AbortAfter?
    ensures SameHandles(s, Apply(s, step))
  {
    if InCompletion(step) {
      CompletionsLeaveHandles(s, step);
    } else if IsQuiet(step) {
      QuietStepsLeaveHandles(s, step);
    } else {
      OthersLeaveHandles(s, step);
    }
  }

  lemma SameHandlesKept(s: State, after: State)
    requires HandlesKept(s) && AbortedOnce(s) && SameHandles(s, after)
    ensures HandlesKept(after) && AbortedOnce(after)
  {
  }

  lemma AbortAfterKeepsHandles(s: State, h: Handle)
    requires OneWrite(s) && HandlesKept(s) && Enabled(s, AbortAfter(h))
    ensures HandlesKept(Apply(s, AbortAfter(h)))
  {
    var after := Apply(s, AbortAfter(h));
    if s.slot.Some? {
      var w := s.slot.value;
      assert forall x :: x in after.writes[w].aborts <==> x in s.writes[w].aborts || x == h;
    } else {
      assert forall x :: x in after.aborted <==> x in s.aborted || x == h;
    }
  }

  lemma AbortAfterAbortsOnce(s: State, h: Handle)
    requires HandlesKept(s) && AbortedOnce(s) && Enabled(s, AbortAfter(h))
    ensures AbortedOnce(Apply(s, AbortAfter(h)))
  {
    JoinedDistinct(s.aborted, [h]);
    if s.slot.Some? && s.slot.value in s.writes {
      JoinedDistinct(s.writes[s.slot.value].aborts, [h]);
    }
  }

  lemma AbortHandlesKeepsPlaces(s: State, t: Task)
    requires HandlesKept(s) && Enabled(s, AbortHandles(t))
    ensures HandlesKept(Apply(s, AbortHandles(t)))
  {
    var after := Apply(s, AbortHandles(t));
    var taken := s.writes[s.tasks[t].ordinal].aborts;
    assert forall h :: h in after.aborted <==> h in s.aborted || h in taken;
  }

  lemma AbortHandlesAbortsOnce(s: State, t: Task)
    requires HandlesKept(s) && AbortedOnce(s) && Enabled(s, AbortHandles(t))
    ensures AbortedOnce(Apply(s, AbortHandles(t)))
  {
    var taken := s.writes[s.tasks[t].ordinal].aborts;
    assert forall h | h in taken :: h !in s.aborted;
    JoinedDistinct(s.aborted, taken);
  }

  lemma JoinedDistinct(xs: seq<Handle>, ys: seq<Handle>)
    requires Distinct(xs) && Distinct(ys) && forall y | y in ys :: y !in xs
    ensures Distinct(xs + ys)
  {
    forall i, j | 0 <= i < j < |xs + ys| ensures (xs + ys)[i] != (xs + ys)[j] {
      if i < |xs| <= j { assert (xs + ys)[j] in ys; }
    }
  }

  lemma AbortStepsKeepHandles(s: State, step: Step)
    requires OneWrite(s) && HandlesKept(s) && AbortedOnce(s) && Enabled(s, step) && (step.AbortHandles? || step.AbortAfter?)
    ensures HandlesKept(Apply(s, step)) && AbortedOnce(Apply(s, step))
  {
    if step.AbortHandles? {
      AbortHandlesKeepsPlaces(s, step.t);
      AbortHandlesAbortsOnce(s, step.t);
    } else {
      AbortAfterKeepsHandles(s, step.h);
      AbortAfterAbortsOnce(s, step.h);
    }
  }

  lemma StepKeepsHandles(s: State, step: Step)
    requires OneWrite(s) && HandlesKept(s) && AbortedOnce(s) && Enabled(s, step)
    ensures HandlesKept(Apply(s, step)) && AbortedOnce(Apply(s, step))
  {
    var after := Apply(s, step);
    if step.AbortHandles? || step.AbortAfter? {
      AbortStepsKeepHandles(s, step);
    } else {
      MostStepsLeaveHandles(s, step);
      SameHandlesKept(s, after);
    }
  }

  lemma StepKeepsInv(s: State, step: Step)
    requires Inv(s) && Enabled(s, step)
    ensures Inv(Apply(s, step))
  {
    StepKeepsDebitsInOrder(s, step);
    StepKeepsOneWrite(s, step);
    StepKeepsCompletionsInOrder(s, step);
    StepKeepsResultsRecorded(s, step);
    StepKeepsCallsJournalled(s, step);
    StepKeepsOwnedOnce(s, step);
    StepKeepsCompleters(s, step);
    StepKeepsWatchersHaveWrites(s, step);
    StepKeepsNoneStranded(s, step);
    StepKeepsHandles(s, step);
  }
}
