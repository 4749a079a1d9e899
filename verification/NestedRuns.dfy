/** The tree of nested calls over whole runs: what a closed caller guarantees
    about everything below it, and why the exclusive queue cannot deadlock. */
module NestedRuns {
  import opened Wrappers
  import opened NestedCalls

  ghost predicate CanRun(s: State, steps: seq<Step>)
    decreases |steps|
  {
    steps == [] || (Enabled(s, steps[0]) && CanRun(Apply(s, steps[0]), steps[1..]))
  }

  ghost function Run(s: State, steps: seq<Step>): State
    requires CanRun(s, steps)
    decreases |steps|
  {
    if steps == [] then s else Run(Apply(s, steps[0]), steps[1..])
  }

  lemma {:induction false} RunKeepsInv(s: State, steps: seq<Step>)
    requires TreeOk(s) && RecordsOk(s) && CanRun(s, steps)
    ensures TreeOk(Run(s, steps)) && RecordsOk(Run(s, steps))
    decreases |steps|
  {
    if steps != [] {
      StepKeepsTree(s, steps[0]);
      StepKeepsRecords(s, steps[0]);
      RunKeepsInv(Apply(s, steps[0]), steps[1..]);
    }
  }

  // ------------------------------------------------------------- quiescence

  /** Whether `q` is a nested call of `p`, at any depth. */
  predicate Below(p: Path, q: Path)
    decreases q
  {
    q.Nested? && (q.caller == p || Below(p, q.caller))
  }

  /** The gate of `p` is closed and nobody is inside. */
  predicate IsQuiet(s: State, p: Path) {
    HasScope(s, p) && ScopeOf(s, p).closed && ScopeOf(s, p).running == 0
  }

  lemma NoLiveChild(s: State, p: Path, n: nat)
    requires TreeOk(s) && IsQuiet(s, p) && Nested(p, n) in s.calls
    ensures s.calls[Nested(p, n)].phase.Done?
  {
    assert CallOk(s, p);
    assert CallOk(s, Nested(p, n));
    assert |ScopeOf(s, p).live| == 0;
  }

  lemma DoneIsQuiet(s: State, p: Path)
    requires TreeOk(s) && HasScope(s, p) && s.calls[p].phase.Done?
    ensures IsQuiet(s, p)
  {
    assert CallOk(s, p);
  }

  lemma CallerHasScope(s: State, q: Path)
    requires TreeOk(s) && q in s.calls && q.Nested?
    ensures HasScope(s, q.caller)
  {
    assert CallOk(s, q);
  }

  /** Below a caller whose gate is closed and empty, every call at every depth
      has ended, and its own gate is closed and empty too. */
  lemma {:induction false} NothingRunsBelow(s: State, p: Path, q: Path)
    requires TreeOk(s) && IsQuiet(s, p) && q in s.calls && Below(p, q)
    ensures s.calls[q].phase.Done? && (HasScope(s, q) ==> IsQuiet(s, q))
    decreases q
  {
    CallerHasScope(s, q);
    if q.caller != p {
      NothingRunsBelow(s, p, q.caller);
    }
    NoLiveChild(s, q.caller, q.n);
    if HasScope(s, q) { DoneIsQuiet(s, q); }
  }

  lemma QuietStays(s: State, p: Path, step: Step)
    requires TreeOk(s) && IsQuiet(s, p) && Enabled(s, step)
    ensures IsQuiet(Apply(s, step), p)
  {
    assert CallOk(s, p);
  }

  lemma NothingStartsBelow(s: State, p: Path, step: Step, q: Path)
    requires TreeOk(s) && IsQuiet(s, p) && Enabled(s, step) && q in Apply(s, step).calls && Below(p, q)
    ensures q in s.calls
  {
    if step.Number? {
      assert CallOk(s, step.p);
      if Below(p, step.p) { NothingRunsBelow(s, p, step.p); }
    }
  }

  /** Hierarchical quiescence: after the gate of `p` has closed and emptied, no
      call below it ever runs or starts again, whatever step comes next. */
  lemma {:induction false} QuietForGood(s: State, p: Path, steps: seq<Step>, q: Path)
    requires TreeOk(s) && IsQuiet(s, p) && CanRun(s, steps) && Below(p, q) && q in Run(s, steps).calls
    ensures IsQuiet(Run(s, steps), p) && q in s.calls && Run(s, steps).calls[q].phase.Done?
    decreases |steps|
  {
    if steps == [] {
      NothingRunsBelow(s, p, q);
    } else {
      StepKeepsTree(s, steps[0]);
      QuietStays(s, p, steps[0]);
      QuietForGood(Apply(s, steps[0]), p, steps[1..], q);
      NothingStartsBelow(s, p, steps[0], q);
    }
  }

  /** Once the wait in `close` has ended for `p`, in any run, the calls below
      it are all over, and no step of any later run adds one. */
  lemma CloseEndsEverythingBelow(steps: seq<Step>, p: Path, later: seq<Step>, q: Path)
    requires CanRun(INITIAL, steps) && Enabled(Run(INITIAL, steps), Settle(p))
    requires CanRun(Apply(Run(INITIAL, steps), Settle(p)), later)
    requires Below(p, q) && q in Run(Apply(Run(INITIAL, steps), Settle(p)), later).calls
    ensures q in Run(INITIAL, steps).calls && Run(INITIAL, steps).calls[q].phase.Done?
    ensures Run(Apply(Run(INITIAL, steps), Settle(p)), later).calls[q].phase.Done?
  {
    var s := Run(INITIAL, steps);
    RunKeepsInv(INITIAL, steps);
    StepKeepsTree(s, Settle(p));
    assert CallOk(s, p);
    QuietForGood(Apply(s, Settle(p)), p, later, q);
    NothingRunsBelow(s, p, q);
  }

  // ------------------------------------------------------------- summaries

  lemma {:induction false} RootIsAbove(q: Path)
    requires q.Nested?
    ensures Below(Model(Root(q)), q)
    decreases q
  {
    if q.caller.Nested? { RootIsAbove(q.caller); }
  }

  /** What the summary of a model-issued call tells: it lists calls of that
      call, all finished, within the limits, and says `complete` exactly when
      every nested call of any depth is listed with its arguments. */
  ghost predicate Faithful(s: State, c: nat, summary: Option<Summary>) {
    match summary
    case None => forall q | q in s.calls && Root(q) == c :: q.Model?
    case Some(sum) =>
      && |sum.entries| <= MAX_CALLS && KeptBytes(sum.entries) <= MAX_BYTES && AllFinished(sum.entries)
      && (forall i | 0 <= i < |sum.entries| :: sum.entries[i].path in s.calls && Root(sum.entries[i].path) == c)
      && (forall i, j | 0 <= i < j < |sum.entries| :: sum.entries[i].path != sum.entries[j].path)
      && (sum.complete <==> forall q | q in s.calls && q.Nested? && Root(q) == c :: Listed(sum.entries, q))
  }

  /** The entries have the call with its arguments. */
  predicate Listed(entries: seq<Entry>, q: Path) {
    exists i :: 0 <= i < |entries| && entries[i].path == q && entries[i].kept.Some?
  }

  lemma RootIsQuiet(s: State, c: nat)
    requires TreeOk(s) && (Is(s, Model(c), Settled) || Is(s, Model(c), Done))
    ensures IsQuiet(s, Model(c))
  {
    assert CallOk(s, Model(c));
  }

  lemma EntriesFinished(s: State, c: nat)
    requires TreeOk(s) && RecordsOk(s) && c !in s.summaries && c in s.records && IsQuiet(s, Model(c))
    ensures AllFinished(s.records[c].entries)
  {
    forall i | 0 <= i < |s.records[c].entries| ensures s.records[c].entries[i].finished {
      var q := s.records[c].entries[i].path;
      assert EntryOk(s, c, i);
      RootIsAbove(q);
      NothingRunsBelow(s, Model(c), q);
      assert InRecord(s, q);
    }
  }

  lemma CompleteMeansListed(s: State, c: nat)
    requires TreeOk(s) && RecordsOk(s) && c !in s.summaries && c in s.records && IsQuiet(s, Model(c))
    ensures s.records[c].complete <==> forall q | q in s.calls && q.Nested? && Root(q) == c :: Listed(s.records[c].entries, q)
  {
    var r := s.records[c];
    forall q | q in s.calls && q.Nested? && Root(q) == c
      ensures r.complete ==> Listed(r.entries, q)
      ensures Listed(r.entries, q) ==> q !in r.dropped
    {
      RootIsAbove(q);
      NothingRunsBelow(s, Model(c), q);
      assert InRecord(s, q);
      if Listed(r.entries, q) {
        var i :| 0 <= i < |r.entries| && r.entries[i].path == q && r.entries[i].kept.Some?;
        assert EntryOk(s, c, i);
      }
    }
    if forall q | q in s.calls && q.Nested? && Root(q) == c :: Listed(r.entries, q) {
      assert forall q :: q !in r.dropped;
      forall i | 0 <= i < |r.entries| ensures r.entries[i].kept.Some? {
        assert EntryOk(s, c, i);
        var q := r.entries[i].path;
        var j :| 0 <= j < |r.entries| && r.entries[j].path == q && r.entries[j].kept.Some?;
        assert EntryOk(s, c, j);
      }
    }
  }

  lemma SummaryIsFaithful(s: State, c: nat)
    requires TreeOk(s) && RecordsOk(s) && Enabled(s, TakeSummary(c))
    ensures Faithful(s, c, Snapshot(s.records[c]))
  {
    var r := s.records[c];
    RootIsQuiet(s, c);
    EntriesFinished(s, c);
    CompleteMeansListed(s, c);
    forall i | 0 <= i < |r.entries|
      ensures r.entries[i].path in s.calls && Root(r.entries[i].path) == c && s.calls[r.entries[i].path].record == Some(i)
    {
      assert EntryOk(s, c, i);
    }
    if r.entries == [] && r.complete {
      assert forall q | q in s.calls && q.Nested? && Root(q) == c :: Listed(r.entries, q);
    }
  }

  ghost predicate SummariesOk(s: State) {
    forall c | c in s.summaries :: Is(s, Model(c), Done) && Faithful(s, c, s.summaries[c])
  }

  lemma SummaryStaysFaithful(s: State, step: Step, c: nat, summary: Option<Summary>)
    requires TreeOk(s) && IsQuiet(s, Model(c)) && Enabled(s, step) && Faithful(s, c, summary)
    ensures Faithful(Apply(s, step), c, summary)
  {
    var after := Apply(s, step);
    forall q | q in after.calls && q.Nested? && Root(q) == c ensures q in s.calls {
      RootIsAbove(q);
      NothingStartsBelow(s, Model(c), step, q);
    }
    assert forall q | q in s.calls :: q in after.calls;
  }

  lemma StepKeepsSummaries(s: State, step: Step)
    requires TreeOk(s) && RecordsOk(s) && SummariesOk(s) && Enabled(s, step)
    ensures SummariesOk(Apply(s, step))
  {
    var after := Apply(s, step);
    forall c | c in after.summaries
      ensures Is(after, Model(c), Done) && Faithful(after, c, after.summaries[c])
    {
      if step == TakeSummary(c) {
        SummaryIsFaithful(s, c);
        RootIsQuiet(s, c);
        SummaryStaysFaithful(s, step, c, Snapshot(s.records[c]));
      } else {
        RootIsQuiet(s, c);
        SummaryStaysFaithful(s, step, c, s.summaries[c]);
      }
    }
  }

  lemma {:induction false} RunKeepsSummaries(s: State, steps: seq<Step>)
    requires TreeOk(s) && RecordsOk(s) && SummariesOk(s) && CanRun(s, steps)
    ensures SummariesOk(Run(s, steps))
    decreases |steps|
  {
    if steps != [] {
      StepKeepsTree(s, steps[0]);
      StepKeepsRecords(s, steps[0]);
      StepKeepsSummaries(s, steps[0]);
      RunKeepsSummaries(Apply(s, steps[0]), steps[1..]);
    }
  }

  /** In every run, the summary of a model-issued call is still the whole
      truth about its nested calls at the end: none came later. */
  lemma EverySummaryIsFaithful(steps: seq<Step>, c: nat)
    requires CanRun(INITIAL, steps) && c in Run(INITIAL, steps).summaries
    ensures Faithful(Run(INITIAL, steps), c, Run(INITIAL, steps).summaries[c])
  {
    RunKeepsSummaries(INITIAL, steps);
  }

  // ------------------------------------------------------------- the queue

  /** The holder of the queue lends it to every scope below. */
  lemma {:induction false} HeldBelow(s: State, h: Path, p: Path)
    requires TreeOk(s) && h in s.calls && s.calls[h].took && HasScope(s, p) && (p == h || Below(h, p))
    ensures ScopeOf(s, p).holdsQueue
    decreases p
  {
    assert CallOk(s, p);
    if p != h {
      CallerHasScope(s, p);
      HeldBelow(s, h, p.caller);
    }
  }

  /** At most one call holds the permit, and none below it waits for it. */
  lemma NobodyQueuesBelowTheHolder(s: State, h: Path, q: Path)
    requires TreeOk(s) && h in s.calls && s.calls[h].took && MayHold(s.calls[h].phase)
    requires q in s.calls && (q == h || Below(h, q))
    ensures s.permit == Some(h) && !s.calls[q].phase.Queued?
  {
    assert CallOk(s, h);
    assert CallOk(s, q);
    if q != h {
      CallerHasScope(s, q);
      HeldBelow(s, h, q.caller);
    }
  }

  /** A caller waits for its live nested calls, a queued call for the holder. */
  ghost predicate WaitsFor(s: State, a: Path, b: Path) {
    && a in s.calls && b in s.calls && Live(s.calls[b].phase)
    && ((b.Nested? && b.caller == a) || (s.calls[a].phase.Queued? && s.permit == Some(b)))
  }

  /** Smaller below the holder, and smaller the deeper. */
  function Rank(s: State, q: Path): int {
    var level := MAX_DEPTH - Depth(q);
    if s.permit.Some? && (q == s.permit.value || Below(s.permit.value, q)) then level else level + MAX_DEPTH + 1
  }

  lemma WaitingGoesDown(s: State, a: Path, b: Path)
    requires TreeOk(s) && WaitsFor(s, a, b)
    ensures 0 <= Rank(s, b) < Rank(s, a)
  {
    assert CallOk(s, a);
    assert CallOk(s, b);
    if s.permit.Some? {
      var h := s.permit.value;
      assert CallOk(s, h);
      if s.calls[a].phase.Queued? && (a == h || Below(h, a)) {
        NobodyQueuesBelowTheHolder(s, h, a);
      }
    }
  }

  ghost predicate IsChain(s: State, chain: seq<Path>) {
    |chain| > 0 && forall i | 0 < i < |chain| :: WaitsFor(s, chain[i - 1], chain[i])
  }

  lemma {:induction false} ChainGoesDown(s: State, chain: seq<Path>)
    requires TreeOk(s) && IsChain(s, chain) && |chain| > 1
    ensures Rank(s, chain[|chain| - 1]) < Rank(s, chain[0])
    decreases |chain|
  {
    WaitingGoesDown(s, chain[|chain| - 2], chain[|chain| - 1]);
    if |chain| > 2 { ChainGoesDown(s, chain[..|chain| - 1]); }
  }

  /** No cycle of waiting, of any length, in any reachable state. */
  lemma NoDeadlock(steps: seq<Step>, chain: seq<Path>)
    requires CanRun(INITIAL, steps) && IsChain(Run(INITIAL, steps), chain) && |chain| > 1
    ensures chain[0] != chain[|chain| - 1]
  {
    RunKeepsInv(INITIAL, steps);
    ChainGoesDown(Run(INITIAL, steps), chain);
  }

  /** A step of `q` itself, or of a call that is on its way through its gate. */
  ghost predicate IsOwnStep(q: Path, step: Step) {
    || (step.Start? && step.q == q)
    || step in {Acquire(q), Begin(q), Close(q), Settle(q), Finish(q), Leave(q), Number(q)}
  }

  lemma Prepends(s: State, q: Path, rest: seq<Path>)
    requires IsChain(s, rest) && WaitsFor(s, q, rest[0])
    ensures IsChain(s, [q] + rest)
  {
    forall i | 0 < i < |[q] + rest| ensures WaitsFor(s, ([q] + rest)[i - 1], ([q] + rest)[i]) {
      if i > 1 { assert WaitsFor(s, rest[i - 2], rest[i - 1]); }
    }
  }

  /** From every live call a chain of waits leads to one, perhaps itself, that
      has a step to take, and a step that lets nobody new in. */
  lemma {:induction false} SomebodyCanMove(s: State, q: Path) returns (chain: seq<Path>, step: Step)
    requires TreeOk(s) && RecordsOk(s) && q in s.calls && q.Nested? && Live(s.calls[q].phase)
    ensures IsChain(s, chain) && chain[0] == q && IsOwnStep(chain[|chain| - 1], step) && Enabled(s, step)
    decreases Rank(s, q)
  {
    assert CallOk(s, q);
    assert InRecord(s, q);
    chain := [q];
    match s.calls[q].phase
    case Numbered => step := Start(q, 0, true);
    case Started => step := Begin(q);
    case Acquired => step := Begin(q);
    case Executing => step := Close(q);
    case Settled => step := Finish(q);
    case Recorded =>
      assert CallOk(s, q.caller);
      step := Leave(q);
    case Queued =>
      if s.permit.None? {
        step := Acquire(q);
      } else {
        assert CallOk(s, s.permit.value);
        WaitingGoesDown(s, q, s.permit.value);
        chain, step := SomebodyCanMove(s, s.permit.value);
        Prepends(s, q, chain);
        chain := [q] + chain;
      }
    case Closing =>
      if ScopeOf(s, q).running == 0 {
        step := Settle(q);
      } else if ScopeOf(s, q).entering > 0 {
        step := Number(q);
      } else {
        var b :| b in ScopeOf(s, q).live;
        assert CallOk(s, b);
        WaitingGoesDown(s, q, b);
        chain, step := SomebodyCanMove(s, b);
        Prepends(s, q, chain);
        chain := [q] + chain;
      }
  }

  /** So no reachable state leaves a live call stuck. */
  lemma NobodyIsStuck(steps: seq<Step>, q: Path) returns (chain: seq<Path>, step: Step)
    requires CanRun(INITIAL, steps) && q in Run(INITIAL, steps).calls && q.Nested? && Live(Run(INITIAL, steps).calls[q].phase)
    ensures IsChain(Run(INITIAL, steps), chain) && chain[0] == q
    ensures IsOwnStep(chain[|chain| - 1], step) && Enabled(Run(INITIAL, steps), step)
  {
    RunKeepsInv(INITIAL, steps);
    chain, step := SomebodyCanMove(Run(INITIAL, steps), q);
  }
}
