/** Tool calls made by tool calls: a tree of call scopes whose gates close
    bottom-up, one queue for calls that must run alone, and one record per
    model-issued call. A call is named by its caller and the number the caller's
    scope gave it. */
module NestedCalls {
  import opened Wrappers

  datatype Path = Model(c: nat) | Nested(caller: Path, n: nat)

  const MAX_DEPTH: nat := 8
  const MAX_CALLS: nat := 256
  const MAX_BYTES_PER_CALL: nat := 8 * 1024
  const MAX_BYTES: nat := 32 * 1024

  /** From the number it is given to the end of its task. A call has `Settled`
      when its outcome is known, `Recorded` when the record has it. */
  datatype Phase = Numbered | Started | Queued | Acquired | Executing | Closing | Settled | Recorded | Done

  /** The gate of a caller's nested calls; `running` counts the calls let in,
      of which `entering` have no number yet and `live` have one. */
  datatype Scope = Scope(closed: bool, running: nat, entering: nat, live: set<Path>, next: nat, holdsQueue: bool)

  /** `took` is set for good once a call acquired the exclusive queue; a call
      has a scope once its tool runs. */
  datatype Call = Call(phase: Phase, took: bool, record: Option<nat>, scope: Option<Scope>)

  /** `kept` is the size of the arguments when the record retains them. */
  datatype Entry = Entry(path: Path, kept: Option<nat>, finished: bool)

  /** `dropped` are the calls that started when the record was full. */
  datatype Record = Record(entries: seq<Entry>, complete: bool, bytes: nat, dropped: set<Path>)

  datatype Summary = Summary(entries: seq<Entry>, complete: bool)

  datatype State = State(
    calls: map<Path, Call>,
    permit: Option<Path>,
    records: map<nat, Record>,
    summaries: map<nat, Option<Summary>>
  )

  const INITIAL := State(map[], None, map[], map[])
  const NEW_RECORD := Record([], true, 0, {})

  datatype Step =
    | ModelCall(c: nat)
    | Enter(p: Path)
    | Number(p: Path)
    | Start(q: Path, bytes: nat, isObject: bool)
    | Queue(q: Path)
    | Acquire(q: Path)
    | Begin(q: Path)
    | Refuse(q: Path)
    | Close(p: Path)
    | Settle(p: Path)
    | Finish(q: Path)
    | Leave(q: Path)
    | TakeSummary(c: nat)

  /** How many nested calls lead down to a call. */
  function Depth(p: Path): nat {
    match p
    case Model(_) => 0
    case Nested(caller, _) => 1 + Depth(caller)
  }

  /** The model-issued call a call belongs to. */
  function Root(p: Path): nat {
    match p
    case Model(c) => c
    case Nested(caller, _) => Root(caller)
  }

  predicate Live(phase: Phase) { !phase.Done? }

  predicate Is(s: State, q: Path, phase: Phase) { q in s.calls && s.calls[q].phase == phase }

  predicate HasScope(s: State, p: Path) { p in s.calls && s.calls[p].scope.Some? }

  predicate IsNested(s: State, q: Path) { q in s.calls && q.Nested? && HasScope(s, q.caller) }

  function ScopeOf(s: State, p: Path): Scope
    requires HasScope(s, p)
  {
    s.calls[p].scope.value
  }

  predicate Enabled(s: State, step: Step) {
    match step
    case ModelCall(c) => Model(c) !in s.calls && c !in s.records && c !in s.summaries
    case Enter(p) => HasScope(s, p) && !ScopeOf(s, p).closed && Depth(p) < MAX_DEPTH
    case Number(p) => HasScope(s, p) && ScopeOf(s, p).entering > 0
    case Start(q, _, _) => Is(s, q, Numbered) && q.Nested? && Root(q) in s.records
    case Queue(q) => Is(s, q, Started) && IsNested(s, q) && !ScopeOf(s, q.caller).holdsQueue
    case Acquire(q) => Is(s, q, Queued) && s.permit.None?
    case Begin(q) => (Is(s, q, Started) || Is(s, q, Acquired)) && IsNested(s, q)
    case Refuse(q) => Is(s, q, Started) || Is(s, q, Queued) || Is(s, q, Acquired)
    case Close(p) => Is(s, p, Executing) && HasScope(s, p)
    case Settle(p) => Is(s, p, Closing) && HasScope(s, p) && ScopeOf(s, p).running == 0
    case Finish(q) => Is(s, q, Settled) && q.Nested? && Root(q) in s.records
    case Leave(q) => Is(s, q, Recorded) && IsNested(s, q) && ScopeOf(s, q.caller).running > 0
    case TakeSummary(c) => Is(s, Model(c), Settled) && c in s.records && c !in s.summaries
  }

  function Put(s: State, q: Path, call: Call): State {
    s.(calls := s.calls[q := call])
  }

  function Goto(s: State, q: Path, phase: Phase): State
    requires q in s.calls
  {
    Put(s, q, s.calls[q].(phase := phase))
  }

  function WithScope(s: State, p: Path, scope: Scope): State
    requires p in s.calls
  {
    Put(s, p, s.calls[p].(scope := Some(scope)))
  }

  function Released(permit: Option<Path>, q: Path): Option<Path> {
    if permit == Some(q) then None else permit
  }

  /** A call's place in the record; none once the record is full. */
  function Recording(r: Record, path: Path, bytes: nat, isObject: bool): (Record, Option<nat>) {
    if |r.entries| >= MAX_CALLS then (r.(complete := false, dropped := r.dropped + {path}), None)
    else
      var kept := isObject && bytes <= MAX_BYTES_PER_CALL && r.bytes + bytes <= MAX_BYTES;
      var entry := Entry(path, if kept then Some(bytes) else None, false);
      (Record(r.entries + [entry], r.complete && kept, if kept then r.bytes + bytes else r.bytes, r.dropped), Some(|r.entries|))
  }

  function Finishing(r: Record, index: Option<nat>): Record {
    if index.None? || index.value >= |r.entries| then r
    else r.(entries := r.entries[index.value := r.entries[index.value].(finished := true)])
  }

  predicate AllFinished(entries: seq<Entry>) { forall i | 0 <= i < |entries| :: entries[i].finished }

  /** Absent for a call that has not nested any. */
  function Snapshot(r: Record): Option<Summary> {
    if r.entries == [] && r.complete then None
    else Some(Summary(r.entries, r.complete && AllFinished(r.entries)))
  }

  function NewScope(holdsQueue: bool): Scope { Scope(false, 0, 0, {}, 1, holdsQueue) }

  function Apply(s: State, step: Step): State
    requires Enabled(s, step)
  {
    match step
    case ModelCall(c) =>
      Put(s, Model(c), Call(Executing, false, None, Some(NewScope(false)))).(records := s.records[c := NEW_RECORD])
    case Enter(p) =>
      var g := ScopeOf(s, p);
      WithScope(s, p, g.(running := g.running + 1, entering := g.entering + 1))
    case Number(p) =>
      var g := ScopeOf(s, p);
      var q := Nested(p, g.next);
      Put(WithScope(s, p, g.(entering := g.entering - 1, live := g.live + {q}, next := g.next + 1)), q, Call(Numbered, false, None, None))
    case Start(q, bytes, isObject) =>
      var (record, index) := Recording(s.records[Root(q)], q, bytes, isObject);
      Put(s, q, s.calls[q].(phase := Started, record := index)).(records := s.records[Root(q) := record])
    case Queue(q) => Goto(s, q, Queued)
    case Acquire(q) => Put(s, q, s.calls[q].(phase := Acquired, took := true)).(permit := Some(q))
    case Begin(q) =>
      // A call below the holder of the queue inherits it.
      var holds := ScopeOf(s, q.caller).holdsQueue || s.calls[q].took;
      Put(s, q, s.calls[q].(phase := Executing, scope := Some(NewScope(holds))))
    case Refuse(q) => Goto(s, q, Settled).(permit := Released(s.permit, q))
    case Close(p) => Put(s, p, s.calls[p].(phase := Closing, scope := Some(ScopeOf(s, p).(closed := true))))
    case Settle(p) => Goto(s, p, Settled).(permit := Released(s.permit, p))
    case Finish(q) => Goto(s, q, Recorded).(records := s.records[Root(q) := Finishing(s.records[Root(q)], s.calls[q].record)])
    case Leave(q) =>
      var g := ScopeOf(s, q.caller);
      WithScope(Goto(s, q, Done), q.caller, g.(running := g.running - 1, live := g.live - {q}))
    case TakeSummary(c) =>
      Goto(s, Model(c), Done).(records := s.records[c := NEW_RECORD], summaries := s.summaries[c := Snapshot(s.records[c])])
  }

  // ------------------------------------------------------------- invariant

  predicate Began(phase: Phase) {
    phase.Executing? || phase.Closing? || phase.Settled? || phase.Recorded? || phase.Done?
  }

  predicate MayHold(phase: Phase) { phase.Acquired? || phase.Executing? || phase.Closing? }

  /** A gate counts exactly the calls it let in; a caller past its close has
      none left, and one that took the queue lends it to all calls below. */
  ghost predicate GateOk(p: Path, c: Call) {
    && (p.Model? || c.phase.Executing? || c.phase.Closing? ==> c.scope.Some?)
    && (c.scope.Some? ==>
          var g := c.scope.value;
          && Began(c.phase) && g.next >= 1 && g.running == g.entering + |g.live|
          && (g.closed <==> !c.phase.Executing?)
          && (g.running == 0 || c.phase.Executing? || c.phase.Closing?)
          && (g.entering > 0 ==> Depth(p) < MAX_DEPTH)
          && (c.took ==> g.holdsQueue)
          && forall q | q in g.live :: q.Nested? && q.caller == p)
  }

  /** What a nested call and its caller agree on. */
  ghost predicate CallerOk(q: Path, c: Call, caller: Call) {
    && q.Nested? && caller.scope.Some?
    && var g := caller.scope.value;
       && 1 <= q.n < g.next
       && (q in g.live <==> Live(c.phase))
       && (c.phase.Queued? ==> !g.holdsQueue)
       && (c.scope.Some? && g.holdsQueue ==> c.scope.value.holdsQueue)
  }

  /** The permit is with the one call that took it and has not settled. */
  ghost predicate PermitOk(permit: Option<Path>, q: Path, c: Call) {
    && (permit == Some(q) <==> c.took && MayHold(c.phase))
    && (c.took ==> c.phase.Acquired? || Began(c.phase))
    && (c.phase.Acquired? ==> c.took)
    && (q.Model? ==> !c.took)
  }

  ghost predicate CallOk(s: State, q: Path)
    requires q in s.calls
  {
    && Depth(q) <= MAX_DEPTH
    && GateOk(q, s.calls[q])
    && PermitOk(s.permit, q, s.calls[q])
    && (q.Nested? ==> q.caller in s.calls && CallerOk(q, s.calls[q], s.calls[q.caller]))
  }

  ghost predicate LiveOk(s: State) {
    && (s.permit.Some? ==> s.permit.value in s.calls)
    && (forall p, q | p in s.calls && s.calls[p].scope.Some? && q in s.calls[p].scope.value.live :: q in s.calls)
  }

  ghost predicate TreeOk(s: State) {
    && LiveOk(s)
    && (forall q {:trigger CallOk(s, q)} | q in s.calls :: CallOk(s, q))
  }

  /** The number a scope gives out next is not in use. */
  lemma NextIsFresh(s: State, p: Path)
    requires TreeOk(s) && HasScope(s, p)
    ensures Nested(p, ScopeOf(s, p).next) !in s.calls && Nested(p, ScopeOf(s, p).next) !in ScopeOf(s, p).live
  {
    var q := Nested(p, ScopeOf(s, p).next);
    assert q in s.calls ==> CallOk(s, q);
  }

  /** The steps of a call that leave its caller's scope alone. */
  predicate IsInside(step: Step) { !step.Enter? && !step.Number? && !step.Leave? && !step.Begin? }

  lemma InsideKeepsGate(s: State, step: Step, q: Path)
    requires TreeOk(s) && Enabled(s, step) && q in Apply(s, step).calls && IsInside(step)
    ensures GateOk(q, Apply(s, step).calls[q]) && Depth(q) <= MAX_DEPTH
  {
    assert q in s.calls ==> CallOk(s, q);
  }

  lemma CallerStepKeepsGate(s: State, step: Step, q: Path)
    requires TreeOk(s) && Enabled(s, step) && q in Apply(s, step).calls && !IsInside(step)
    ensures GateOk(q, Apply(s, step).calls[q]) && Depth(q) <= MAX_DEPTH
  {
    assert q in s.calls ==> CallOk(s, q);
    if step.Number? {
      NextIsFresh(s, step.p);
      assert CallOk(s, step.p);
    } else if step.Leave? {
      assert CallOk(s, step.q);
    }
  }

  lemma StepKeepsPermit(s: State, step: Step, q: Path)
    requires TreeOk(s) && Enabled(s, step) && q in Apply(s, step).calls
    ensures PermitOk(Apply(s, step).permit, q, Apply(s, step).calls[q])
  {
    assert q in s.calls ==> CallOk(s, q) && GateOk(q, s.calls[q]);
    if step.Number? {
      NextIsFresh(s, step.p);
    }
  }

  lemma InsideKeepsCaller(s: State, step: Step, q: Path)
    requires TreeOk(s) && Enabled(s, step) && q in Apply(s, step).calls && q.Nested? && IsInside(step)
    ensures q.caller in Apply(s, step).calls && CallerOk(q, Apply(s, step).calls[q], Apply(s, step).calls[q.caller])
  {
    assert q in s.calls ==> CallOk(s, q);
    assert q in s.calls ==> CallOk(s, q.caller);
  }

  lemma CallerStepKeepsCaller(s: State, step: Step, q: Path)
    requires TreeOk(s) && Enabled(s, step) && q in Apply(s, step).calls && q.Nested? && !IsInside(step)
    ensures q.caller in Apply(s, step).calls && CallerOk(q, Apply(s, step).calls[q], Apply(s, step).calls[q.caller])
  {
    assert q in s.calls ==> CallOk(s, q);
    if step.Number? {
      NextIsFresh(s, step.p);
      assert CallOk(s, step.p);
    } else if step.Begin? {
      assert CallOk(s, step.q);
      assert q in s.calls ==> CallOk(s, q.caller);
    }
  }

  lemma StepKeepsCall(s: State, step: Step, q: Path)
    requires TreeOk(s) && Enabled(s, step) && q in Apply(s, step).calls
    ensures CallOk(Apply(s, step), q)
  {
    StepKeepsPermit(s, step, q);
    if IsInside(step) {
      InsideKeepsGate(s, step, q);
      if q.Nested? { InsideKeepsCaller(s, step, q); }
    } else {
      CallerStepKeepsGate(s, step, q);
      if q.Nested? { CallerStepKeepsCaller(s, step, q); }
    }
  }

  lemma StepKeepsLive(s: State, step: Step)
    requires TreeOk(s) && Enabled(s, step)
    ensures LiveOk(Apply(s, step))
  {
  }

  lemma StepKeepsTree(s: State, step: Step)
    requires TreeOk(s) && Enabled(s, step)
    ensures TreeOk(Apply(s, step))
  {
    StepKeepsLive(s, step);
    forall q | q in Apply(s, step).calls ensures CallOk(Apply(s, step), q) {
      StepKeepsCall(s, step, q);
    }
  }

  // ------------------------------------------------------------- the record

  /** The bytes of the arguments the entries keep. */
  function KeptBytes(entries: seq<Entry>): nat {
    if entries == [] then 0
    else KeptBytes(entries[..|entries| - 1]) + (match entries[|entries| - 1].kept case None => 0 case Some(n) => n)
  }

  /** Within the limits, and complete exactly when nothing was dropped and no
      arguments were left out. */
  ghost predicate RecordOk(r: Record) {
    && |r.entries| <= MAX_CALLS
    && r.bytes == KeptBytes(r.entries) <= MAX_BYTES
    && (forall i | 0 <= i < |r.entries| && r.entries[i].kept.Some? :: r.entries[i].kept.value <= MAX_BYTES_PER_CALL)
    && (r.complete <==> r.dropped == {} && forall i | 0 <= i < |r.entries| :: r.entries[i].kept.Some?)
  }

  predicate IsFinished(phase: Phase) { phase.Recorded? || phase.Done? }

  /** A nested call and the record it is in, until the summary is taken. */
  ghost predicate PlaceOk(q: Path, c: Call, r: Record) {
    if c.phase.Numbered? then q !in r.dropped
    else match c.record
      case None => q in r.dropped
      case Some(i) => i < |r.entries| && r.entries[i].path == q && (r.entries[i].finished <==> IsFinished(c.phase)) && q !in r.dropped
  }

  ghost predicate InRecord(s: State, q: Path)
    requires q in s.calls
  {
    && Root(q) in s.records
    && (s.calls[q].phase.Numbered? ==> s.calls[q].record.None?)
    && (q.Nested? && Root(q) !in s.summaries ==> PlaceOk(q, s.calls[q], s.records[Root(q)]))
  }

  ghost predicate EntryOk(s: State, c: nat, i: nat)
    requires c in s.records && i < |s.records[c].entries|
  {
    var q := s.records[c].entries[i].path;
    q in s.calls && q.Nested? && Root(q) == c && s.calls[q].record == Some(i)
  }

  ghost predicate DropsOk(s: State) {
    && (forall c | c in s.summaries :: c in s.records)
    && (forall c, q | c in s.records && q in s.records[c].dropped :: q in s.calls && q.Nested? && Root(q) == c)
  }

  ghost predicate RecordsOk(s: State) {
    && (forall c | c in s.records :: RecordOk(s.records[c]))
    && DropsOk(s)
    && (forall q {:trigger InRecord(s, q)} | q in s.calls :: InRecord(s, q))
    && (forall c, i {:trigger EntryOk(s, c, i)} | c in s.records && 0 <= i < |s.records[c].entries| :: EntryOk(s, c, i))
  }

  lemma RecordingOk(r: Record, q: Path, bytes: nat, isObject: bool)
    requires RecordOk(r)
    ensures RecordOk(Recording(r, q, bytes, isObject).0)
  {
    var after := Recording(r, q, bytes, isObject).0;
    if |r.entries| < MAX_CALLS {
      assert after.entries[..|after.entries| - 1] == r.entries;
    }
  }

  lemma FinishingOk(r: Record, index: Option<nat>)
    requires RecordOk(r)
    ensures RecordOk(Finishing(r, index))
  {
    if index.Some? && index.value < |r.entries| {
      SameKept(r.entries, Finishing(r, index).entries);
    }
  }

  lemma {:induction false} SameKept(a: seq<Entry>, b: seq<Entry>)
    requires |a| == |b| && forall i | 0 <= i < |a| :: a[i].kept == b[i].kept
    ensures KeptBytes(a) == KeptBytes(b)
  {
    if a != [] { SameKept(a[..|a| - 1], b[..|b| - 1]); }
  }

  lemma StepKeepsLimits(s: State, step: Step)
    requires RecordsOk(s) && Enabled(s, step)
    ensures forall c | c in Apply(s, step).records :: RecordOk(Apply(s, step).records[c])
  {
    if step.Start? {
      RecordingOk(s.records[Root(step.q)], step.q, step.bytes, step.isObject);
    } else if step.Finish? {
      FinishingOk(s.records[Root(step.q)], s.calls[step.q].record);
    }
  }

  lemma StepKeepsDrops(s: State, step: Step)
    requires DropsOk(s) && Enabled(s, step)
    ensures DropsOk(Apply(s, step))
  {
  }

  /** The steps that write to a record. */
  predicate Writes(step: Step) { step.Start? || step.Finish? }

  lemma WritesKeepPlace(s: State, step: Step, q: Path)
    requires TreeOk(s) && RecordsOk(s) && Enabled(s, step) && Writes(step) && q in Apply(s, step).calls
    ensures InRecord(Apply(s, step), q)
  {
    assert InRecord(s, q);
    assert InRecord(s, step.q);
  }

  /** The steps that add a call or start a new record. */
  predicate Opens(step: Step) { step.Number? || step.ModelCall? || step.TakeSummary? }

  lemma OpensKeepPlace(s: State, step: Step, q: Path)
    requires TreeOk(s) && RecordsOk(s) && Enabled(s, step) && Opens(step) && q in Apply(s, step).calls
    ensures InRecord(Apply(s, step), q)
  {
    assert q in s.calls ==> InRecord(s, q);
    if step.Number? {
      NextIsFresh(s, step.p);
      assert InRecord(s, step.p);
    }
  }

  lemma OthersKeepPlace(s: State, step: Step, q: Path)
    requires RecordsOk(s) && Enabled(s, step) && !Writes(step) && !Opens(step) && q in Apply(s, step).calls
    ensures InRecord(Apply(s, step), q)
  {
    assert InRecord(s, q);
  }

  lemma WritesKeepEntry(s: State, step: Step, c: nat, i: nat)
    requires TreeOk(s) && RecordsOk(s) && Enabled(s, step) && Writes(step)
    requires c in Apply(s, step).records && i < |Apply(s, step).records[c].entries|
    ensures EntryOk(Apply(s, step), c, i)
  {
    assert c in s.records && i < |s.records[c].entries| ==> EntryOk(s, c, i);
    assert InRecord(s, step.q);
  }

  lemma OthersKeepEntry(s: State, step: Step, c: nat, i: nat)
    requires TreeOk(s) && RecordsOk(s) && Enabled(s, step) && !Writes(step)
    requires c in Apply(s, step).records && i < |Apply(s, step).records[c].entries|
    ensures EntryOk(Apply(s, step), c, i)
  {
    assert c in s.records && i < |s.records[c].entries| ==> EntryOk(s, c, i);
    if step.Number? {
      NextIsFresh(s, step.p);
    }
  }

  lemma StepKeepsRecords(s: State, step: Step)
    requires TreeOk(s) && RecordsOk(s) && Enabled(s, step)
    ensures RecordsOk(Apply(s, step))
  {
    var after := Apply(s, step);
    StepKeepsLimits(s, step);
    StepKeepsDrops(s, step);
    forall q | q in after.calls ensures InRecord(after, q) {
      if Writes(step) {
        WritesKeepPlace(s, step, q);
      } else if Opens(step) {
        OpensKeepPlace(s, step, q);
      } else {
        OthersKeepPlace(s, step, q);
      }
    }
    forall c, i | c in after.records && 0 <= i < |after.records[c].entries| ensures EntryOk(after, c, i) {
      if Writes(step) { WritesKeepEntry(s, step, c, i); } else { OthersKeepEntry(s, step, c, i); }
    }
  }
}
