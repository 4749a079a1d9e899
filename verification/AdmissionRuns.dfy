/** The admission protocol over whole runs: any interleaving of steps from a
    fresh or restored interval. */
module AdmissionRuns {
  import opened Wrappers
  import opened Admission

  ghost predicate CanRun(s: State, steps: seq<Step>)
    decreases |steps|
  {
    steps == [] || (Enabled(s, steps[0]) && CanRun(Apply(s, steps[0]), steps[1..]))
  }

  ghost function Run(s: State, steps: seq<Step>): State
    requires CanRun(s, steps)
    decreases |steps|
  {
    if steps == [] then s else Run(Apply(s, steps[0]), steps[1..])
  }

  lemma {:induction false} RunKeepsInv(s: State, steps: seq<Step>)
    requires Inv(s) && CanRun(s, steps)
    ensures Inv(Run(s, steps))
    decreases |steps|
  {
    if steps != [] {
      StepKeepsInv(s, steps[0]);
      RunKeepsInv(Apply(s, steps[0]), steps[1..]);
    }
  }

  lemma Prepend(s: State, step: Step, rest: seq<Step>)
    requires Enabled(s, step) && CanRun(Apply(s, step), rest)
    ensures CanRun(s, [step] + rest) && Run(s, [step] + rest) == Run(Apply(s, step), rest)
  {
    assert ([step] + rest)[1..] == rest;
  }

  // ------------------------------------------------------------- safety

  /** What no run undoes. */
  ghost predicate Later(s: State, after: State) {
    && after.ledger.limit == s.ledger.limit && after.ledger.restored == s.ledger.restored && after.ledger.observed == s.ledger.observed
    && s.ledger.reservations <= after.ledger.reservations
    && s.ledger.completions <= after.ledger.completions
    && s.aborted <= after.aborted
    && s.ledger.journal <= after.ledger.journal
    && (s.stopped.Some? ==> after.stopped.Some? && after.ledger.calls == s.ledger.calls)
    && (s.stopped == Some(Failed) ==> after.stopped == s.stopped)
  }

  lemma StepIsLater(s: State, step: Step)
    requires Enabled(s, step)
    ensures Later(s, Apply(s, step))
  {
  }

  lemma LaterTransitive(a: State, b: State, c: State)
    requires Later(a, b) && Later(b, c)
    ensures Later(a, c)
  {
  }

  lemma {:induction false} RunIsLater(s: State, steps: seq<Step>)
    requires CanRun(s, steps)
    ensures Later(s, Run(s, steps))
    decreases |steps|
  {
    if steps != [] {
      StepIsLater(s, steps[0]);
      RunIsLater(Apply(s, steps[0]), steps[1..]);
      LaterTransitive(s, Apply(s, steps[0]), Run(s, steps));
    }
  }

  function Max(a: nat, b: nat): nat { if a < b then b else a }

  /** Debits are the numbers after `restored`, within the limit, and the
      observer finishes them in that order; at most one write is in flight; a
      call that got through owns its debit alone and its write succeeded first. */
  ghost predicate WriteAhead(s: State) {
    && (forall i | 0 <= i < |s.ledger.reservations| :: s.ledger.reservations[i] == s.ledger.restored + 1 + i)
    && s.ledger.calls == s.ledger.restored + |s.ledger.reservations|
    && (s.ledger.limit.Some? ==> s.ledger.calls <= Max(s.ledger.restored, s.ledger.limit.value))
    && s.ledger.completions <= s.ledger.reservations
    && (forall w, v | w in s.writes && v in s.writes && InFlight(s.writes[w].phase) && InFlight(s.writes[v].phase) :: w == v)
    && (forall t | t in s.tasks && s.tasks[t].Admitted? ::
          s.tasks[t].ordinal in s.ledger.reservations && (s.ledger.observed ==> s.tasks[t].ordinal in s.ledger.journal && s.tasks[t].ordinal in s.ledger.completions))
    && (forall t, u | t in s.tasks && u in s.tasks && t != u && s.tasks[t].Admitted? && s.tasks[u].Admitted? ::
          s.tasks[t].ordinal != s.tasks[u].ordinal)
  }

  lemma AdmittedIsCompleted(s: State, w: nat)
    requires DebitsInOrder(s) && OneWrite(s) && CompletionsInOrder(s) && ResultsRecorded(s) && s.ledger.observed
    requires w in s.ledger.journal
    ensures w in s.ledger.completions
  {
    assert w in s.writes && !s.writes[w].phase.Running?;
    assert s.ledger.restored < w <= s.ledger.calls;
    assert w - s.ledger.restored <= |s.ledger.completions|;
    assert s.ledger.completions[w - s.ledger.restored - 1] == w;
  }

  lemma InvGivesWriteAhead(s: State)
    requires Inv(s)
    ensures WriteAhead(s)
  {
    forall t | t in s.tasks && s.tasks[t].Admitted?
      ensures s.tasks[t].ordinal in s.ledger.reservations
      ensures s.ledger.observed ==> s.tasks[t].ordinal in s.ledger.journal && s.tasks[t].ordinal in s.ledger.completions
    {
      var w := s.tasks[t].ordinal;
      assert Owns(s.tasks[t]);
      assert s.ledger.reservations[w - s.ledger.restored - 1] == w;
      if s.ledger.observed { AdmittedIsCompleted(s, w); }
    }
    assert s.ledger.completions <= s.ledger.reservations;
  }

  /** Write-ahead admission, over every interleaving. */
  lemma EveryRunWritesAhead(limit: Option<nat>, restored: nat, observed: bool, steps: seq<Step>)
    requires CanRun(Initial(limit, restored, observed), steps)
    ensures WriteAhead(Run(Initial(limit, restored, observed), steps))
  {
    var start := Initial(limit, restored, observed);
    InitialInv(limit, restored, observed);
    RunKeepsInv(start, steps);
    InvGivesWriteAhead(Run(start, steps));
  }

  /** A failed write stops the interval for good before it gives up the slot,
      and its debit is the last one any run ever reserves. */
  lemma AFailedWriteIsTheLastDebit(s: State, w: nat, steps: seq<Step>)
    requires Inv(s) && CanRun(s, steps)
    requires w in s.writes && Finished(s.writes[w].phase, false)
    ensures Run(s, steps).stopped == Some(Failed) && Run(s, steps).ledger.calls == w
  {
    RunIsLater(s, steps);
  }

  // ------------------------------------------------------------- quiescence

  ghost predicate Closed(s: State) { s.stopped.Some? && s.gate.None? && s.slot.None? }

  ghost predicate SameWrites(s: State, after: State) {
    && after.ledger.calls == s.ledger.calls && after.ledger.completions == s.ledger.completions && after.ledger.journal == s.ledger.journal
    && after.writes.Keys == s.writes.Keys
  }

  lemma StepKeepsClosed(s: State, step: Step)
    requires OneWrite(s) && Closed(s) && Enabled(s, step)
    ensures Closed(Apply(s, step)) && SameWrites(s, Apply(s, step))
  {
  }

  /** Once a drain ends in a stopped interval, no write is in flight and none
      is ever started or finished again, in any run that follows. */
  lemma {:induction false} DrainedStaysQuiet(s: State, steps: seq<Step>)
    requires Inv(s) && Closed(s) && CanRun(s, steps)
    ensures Closed(Run(s, steps)) && SameWrites(s, Run(s, steps))
    ensures forall w | w in Run(s, steps).writes :: !InFlight(Run(s, steps).writes[w].phase)
    decreases |steps|
  {
    if steps != [] {
      StepKeepsClosed(s, steps[0]);
      StepKeepsInv(s, steps[0]);
      DrainedStaysQuiet(Apply(s, steps[0]), steps[1..]);
    }
  }

  lemma DrainEndsClosed(s: State, t: Task, steps: seq<Step>)
    requires Inv(s) && s.stopped.Some? && Enabled(s, EndDrain(t)) && CanRun(Apply(s, EndDrain(t)), steps)
    ensures Closed(Run(Apply(s, EndDrain(t)), steps)) && SameWrites(s, Run(Apply(s, EndDrain(t)), steps))
  {
    StepKeepsInv(s, EndDrain(t));
    DrainedStaysQuiet(Apply(s, EndDrain(t)), steps);
  }

  // ------------------------------------------------------------- handles

  /** Every handle is aborted at most once, never while the write it stands
      behind is in flight, and always once that write is done. */
  ghost predicate AbortedInTime(s: State) {
    && Distinct(s.aborted)
    && (forall h | h in s.handles && s.handles[h].None? :: h in s.aborted)
    && (forall h | h in s.handles && s.handles[h].Some? ::
          var w := s.handles[h].value;
          w in s.writes && (InFlight(s.writes[w].phase) ==> h !in s.aborted) && (s.writes[w].phase.Notified? ==> h in s.aborted))
  }

  lemma HandlesAreAbortedInTime(s: State)
    requires HandlesKept(s) && AbortedOnce(s)
    ensures AbortedInTime(s)
  {
  }

  lemma EveryRunAbortsInTime(limit: Option<nat>, restored: nat, observed: bool, steps: seq<Step>)
    requires CanRun(Initial(limit, restored, observed), steps)
    ensures AbortedInTime(Run(Initial(limit, restored, observed), steps))
  {
    InitialInv(limit, restored, observed);
    RunKeepsInv(Initial(limit, restored, observed), steps);
    HandlesAreAbortedInTime(Run(Initial(limit, restored, observed), steps));
  }

  // ------------------------------------------------------------- progress

  function Rank(phase: Phase): nat {
    match phase
    case Running => 5
    case Polled(_) => 4
    case Recorded(_, _) => 3
    case Released(_, _) => 2
    case HandlesAborted(_, _) => 1
    case Notified(_) => 0
  }

  function NextOf(phase: Phase): Step
    requires Worker(phase).Some?
  {
    match phase
    case Polled(t) => RecordFailure(t)
    case Recorded(t, _) => Release(t)
    case Released(t, _) => AbortHandles(t)
    case HandlesAborted(t, _) => Notify(t)
  }

  lemma NextIsEnabled(s: State, w: nat)
    requires Inv(s) && w in s.writes && Worker(s.writes[w].phase).Some?
    ensures Enabled(s, NextOf(s.writes[w].phase))
  {
    var t := Worker(s.writes[w].phase).value;
    assert t in s.tasks && s.tasks[t].Completing? && s.tasks[t].ordinal == w;
    assert InFlight(s.writes[w].phase) ==> s.slot == Some(w);
  }

  /** The result a write past its poll will publish. */
  function Verdict(phase: Phase): bool
    requires !phase.Running?
  {
    if phase.Polled? then false else phase.ok
  }

  /** What the completing task's next step does to its write and the rest. */
  ghost predicate Advanced(s: State, w: nat, after: State) {
    && w in s.writes && w in after.writes && Worker(s.writes[w].phase).Some?
    && Rank(after.writes[w].phase) + 1 == Rank(s.writes[w].phase)
    && (s.writes[w].phase.HandlesAborted? ==> after.parked == s.parked - s.writes[w].wakers)
    && (!s.writes[w].phase.HandlesAborted? ==> after.writes[w].wakers == s.writes[w].wakers && Worker(after.writes[w].phase) == Worker(s.writes[w].phase))
    && Verdict(after.writes[w].phase) == Verdict(s.writes[w].phase)
    && after.gate == s.gate
    && (after.slot == s.slot || after.slot.None?)
    && (after.slot == Some(w) ==> InFlight(after.writes[w].phase))
  }

  lemma NextAdvances(s: State, w: nat)
    requires Completers(s) && OneWrite(s) && w in s.writes && Worker(s.writes[w].phase).Some? && Enabled(s, NextOf(s.writes[w].phase))
    ensures Advanced(s, w, Apply(s, NextOf(s.writes[w].phase)))
  {
    var t := Worker(s.writes[w].phase).value;
    assert s.tasks[t].ordinal == w;
    assert InFlight(s.writes[w].phase) <==> s.slot == Some(w);
  }

  /** A step of `t` that completes a write. */
  predicate Completes(step: Step, t: Task) {
    (step.RecordFailure? || step.Release? || step.AbortHandles? || step.Notify?) && step.t == t
  }

  /** By steps of its worker alone the write publishes its verdict and wakes
      every registered waiter; the slot and the gate end up free unless another
      write has them. */
  ghost predicate Settles(s: State, w: nat, steps: seq<Step>) {
    && CanRun(s, steps) && w in s.writes && Worker(s.writes[w].phase).Some?
    && w in Run(s, steps).writes && Run(s, steps).writes[w].phase == Notified(Verdict(s.writes[w].phase))
    && (forall t | t in s.writes[w].wakers :: t !in Run(s, steps).parked)
    && (forall i | 0 <= i < |steps| :: Completes(steps[i], Worker(s.writes[w].phase).value))
    && (s.gate.None? && (s.slot.None? || s.slot == Some(w)) ==> Run(s, steps).gate.None? && Run(s, steps).slot.None?)
  }

  lemma SettlesLast(s: State, w: nat, step: Step)
    requires Enabled(s, step) && Advanced(s, w, Apply(s, step)) && s.writes[w].phase.HandlesAborted?
    requires Completes(step, s.writes[w].phase.worker)
    ensures Settles(s, w, [step])
  {
    Prepend(s, step, []);
  }

  lemma SettlesNext(s: State, w: nat, step: Step, rest: seq<Step>)
    requires Enabled(s, step) && Advanced(s, w, Apply(s, step)) && !s.writes[w].phase.HandlesAborted?
    requires Completes(step, Worker(s.writes[w].phase).value) && Settles(Apply(s, step), w, rest)
    ensures Settles(s, w, [step] + rest)
  {
    Prepend(s, step, rest);
  }

  /** A write past its poll is finished by the task that polled it, whatever
      the other tasks have done: that run wakes every registered waiter. */
  lemma {:induction false} AWriteIsFinished(s: State, w: nat) returns (steps: seq<Step>)
    requires Inv(s) && w in s.writes && Worker(s.writes[w].phase).Some?
    ensures Settles(s, w, steps)
    decreases Rank(s.writes[w].phase)
  {
    var step := NextOf(s.writes[w].phase);
    NextIsEnabled(s, w);
    NextAdvances(s, w);
    if s.writes[w].phase.HandlesAborted? {
      SettlesLast(s, w, step);
      steps := [step];
    } else {
      StepKeepsInv(s, step);
      var rest := AWriteIsFinished(Apply(s, step), w);
      SettlesNext(s, w, step, rest);
      steps := [step] + rest;
    }
  }

  lemma AnIoWakeWakes(s: State, t: Task)
    requires NoneStranded(s) && t in s.parked && s.writes[s.tasks[t].ordinal].phase.Running?
    ensures CanRun(s, [IoWake(s.tasks[t].ordinal)]) && t !in Run(s, [IoWake(s.tasks[t].ordinal)]).parked
  {
    Prepend(s, IoWake(s.tasks[t].ordinal), []);
  }

  /** No waiter is stranded: a parked task watches an unfinished write that
      names it. While the write runs, the wake-up from its own I/O brings the
      task back; once it has been polled to its end, the steps of the task that
      polled it do. */
  lemma NoWaiterIsStranded(s: State, t: Task) returns (steps: seq<Step>)
    requires Inv(s) && t in s.parked
    ensures CanRun(s, steps) && t !in Run(s, steps).parked
    ensures IsWatched(s, t) && t in s.writes[s.tasks[t].ordinal].wakers
    ensures PhaseOf(s, t).Running? ==> steps == [IoWake(s.tasks[t].ordinal)]
    ensures !PhaseOf(s, t).Running? ==>
      Worker(PhaseOf(s, t)).Some? && forall i | 0 <= i < |steps| :: Completes(steps[i], Worker(PhaseOf(s, t)).value)
  {
    var w := s.tasks[t].ordinal;
    if s.writes[w].phase.Running? {
      AnIoWakeWakes(s, t);
      steps := [IoWake(w)];
    } else {
      steps := AWriteIsFinished(s, w);
    }
  }

  predicate IsWatched(s: State, t: Task) {
    t in s.tasks && s.tasks[t].Watching? && s.tasks[t].ordinal in s.writes
  }

  // ------------------------------------------------------------- taking over

  lemma {:induction false} Bound(tasks: set<Task>) returns (bound: nat)
    ensures forall t | t in tasks :: t < bound
  {
    if tasks == {} {
      bound := 0;
    } else {
      var t :| t in tasks;
      var rest := Bound(tasks - {t});
      bound := if rest <= t then t + 1 else rest;
      assert forall u | u in tasks :: u == t || u in tasks - {t};
    }
  }

  lemma PollIsReady(s: State, d: Task, ok: bool)
    requires OneWrite(s) && IsWatching(s, d) && PhaseOf(s, d).Running?
    ensures var polled := Apply(s, PollReady(d, ok)); var w := s.tasks[d].ordinal;
      && w in polled.writes && Worker(polled.writes[w].phase) == Some(d) && Verdict(polled.writes[w].phase) == ok
      && polled.slot == Some(w) && polled.gate.None?
  {
    assert InFlight(s.writes[s.tasks[d].ordinal].phase);
  }

  /** What task `d` does to finish the write it watches. */
  predicate Drives(step: Step, d: Task, ok: bool) { step == PollReady(d, ok) || Completes(step, d) }

  /** The write has published its result, and the slot is free. */
  ghost predicate Published(s: State, w: nat, ok: bool) {
    s.gate.None? && s.slot.None? && w in s.writes && s.writes[w].phase == Notified(ok)
  }

  lemma FinishPolled(polled: State, w: nat, d: Task, ok: bool) returns (steps: seq<Step>)
    requires Inv(polled) && w in polled.writes && Worker(polled.writes[w].phase) == Some(d) && Verdict(polled.writes[w].phase) == ok
    requires polled.slot == Some(w) && polled.gate.None?
    ensures CanRun(polled, steps) && Published(Run(polled, steps), w, ok) && forall i | 0 <= i < |steps| :: Completes(steps[i], d)
  {
    steps := AWriteIsFinished(polled, w);
  }

  lemma PolledKeepsInv(s: State, d: Task, ok: bool)
    requires Inv(s) && IsWatching(s, d) && PhaseOf(s, d).Running?
    ensures Inv(Apply(s, PollReady(d, ok)))
  {
    StepKeepsInv(s, PollReady(d, ok));
  }

  lemma PollThenFinish(s: State, polled: State, d: Task, ok: bool, rest: seq<Step>)
    requires Enabled(s, PollReady(d, ok)) && polled == Apply(s, PollReady(d, ok)) && CanRun(polled, rest)
    requires forall i | 0 <= i < |rest| :: Completes(rest[i], d)
    ensures var steps := [PollReady(d, ok)] + rest;
      && CanRun(s, steps) && Run(s, steps) == Run(polled, rest) && forall i | 0 <= i < |steps| :: Drives(steps[i], d, ok)
  {
    Prepend(s, PollReady(d, ok), rest);
  }

  lemma PollFinishes(s: State, d: Task, ok: bool) returns (steps: seq<Step>)
    requires Inv(s) && IsWatching(s, d) && PhaseOf(s, d).Running?
    ensures CanRun(s, steps) && Published(Run(s, steps), s.tasks[d].ordinal, ok)
    ensures forall i | 0 <= i < |steps| :: Drives(steps[i], d, ok)
  {
    PollIsReady(s, d, ok);
    PolledKeepsInv(s, d, ok);
    var polled := Apply(s, PollReady(d, ok));
    var rest := FinishPolled(polled, s.tasks[d].ordinal, d, ok);
    PollThenFinish(s, polled, d, ok, rest);
    steps := [PollReady(d, ok)] + rest;
  }

  lemma DrainerWatches(s: State, d: Task)
    requires Inv(s) && d !in s.tasks && s.slot.Some? && s.writes[s.slot.value].phase.Running?
    ensures CanRun(s, [Spawn(d, Drainer), Wait(d)])
    ensures var after := Run(s, [Spawn(d, Drainer), Wait(d)]);
      IsWatching(after, d) && PhaseOf(after, d).Running? && after.tasks[d].ordinal == s.slot.value
  {
    var spawned := Apply(s, Spawn(d, Drainer));
    Prepend(spawned, Wait(d), []);
    Prepend(s, Spawn(d, Drainer), [Wait(d)]);
    assert [Spawn(d, Drainer)] + [Wait(d)] == [Spawn(d, Drainer), Wait(d)];
  }

  lemma {:induction false} Append(s: State, first: seq<Step>, second: seq<Step>)
    requires CanRun(s, first) && CanRun(Run(s, first), second)
    ensures CanRun(s, first + second) && Run(s, first + second) == Run(Run(s, first), second)
    decreases |first|
  {
    if first == [] {
      assert first + second == second;
    } else {
      Append(Apply(s, first[0]), first[1..], second);
      assert (first + second)[1..] == first[1..] + second;
    }
  }

  /** A drainer that starts now takes the running write of the slot to its end,
      with either result, by steps of its own alone: so even when every task that
      waited for it has been dropped. A success is then in the journal; a failure
      has stopped the interval. */
  lemma ADrainerTakesOver(s: State, d: Task, ok: bool) returns (steps: seq<Step>)
    requires Inv(s) && s.slot.Some? && s.writes[s.slot.value].phase.Running? && d !in s.tasks
    ensures |steps| > 2 && steps[..2] == [Spawn(d, Drainer), Wait(d)] && forall i | 2 <= i < |steps| :: Drives(steps[i], d, ok)
    ensures CanRun(s, steps) && Published(Run(s, steps), s.slot.value, ok)
    ensures if ok then s.slot.value in Run(s, steps).ledger.journal else Run(s, steps).stopped == Some(Failed)
  {
    DrainerWatches(s, d);
    var taken := [Spawn(d, Drainer), Wait(d)];
    RunKeepsInv(s, taken);
    var rest := PollFinishes(Run(s, taken), d, ok);
    Append(s, taken, rest);
    steps := taken + rest;
    RunKeepsInv(s, steps);
    assert Finished(Run(s, steps).writes[s.slot.value].phase, ok);
  }

  /** A step of `t` as a drainer or as the task that polled a write. */
  predicate IsOf(step: Step, t: Task) {
    step in {Spawn(t, Drainer), Wait(t), PollReady(t, true), PollReady(t, false)} || Completes(step, t)
  }

  /** Whatever has become of the other tasks, one task alone can free the slot:
      the one that polled the write to its end, or else a new drainer. */
  lemma OneTaskFreesTheSlot(s: State, ok: bool) returns (t: Task, steps: seq<Step>)
    requires Inv(s) && s.slot.Some?
    ensures CanRun(s, steps) && Run(s, steps).gate.None? && Run(s, steps).slot.None?
    ensures forall i | 0 <= i < |steps| :: IsOf(steps[i], t)
  {
    var w := s.slot.value;
    if s.writes[w].phase.Running? {
      t := Bound(s.tasks.Keys);
      steps := ADrainerTakesOver(s, t, ok);
      forall i | 0 <= i < |steps| ensures IsOf(steps[i], t) {
        if i < 2 { assert steps[i] == steps[..2][i]; }
      }
    } else {
      t := Worker(s.writes[w].phase).value;
      steps := AWriteIsFinished(s, w);
    }
  }
}
