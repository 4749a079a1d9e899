/** The critical sections of the admission protocol as sequences of mutex
    operations, and why tasks that run any of them, in any interleaving, never
    wait for each other in a circle. */
module AdmissionLocks {
  import opened Wrappers

  type Task = nat

  /** A write has a lock on its result, one on its wakers and one on its
      handles; the slot and the counters have one each. */
  datatype Lock = Result(write: nat) | Slot | Counters | Handles(write: nat) | Wakers(write: nat)

  datatype Op = Acquire(lock: Lock) | Free(lock: Lock)

  // ------------------------------------------------------ critical sections

  /** What holds a lock: its guard lives while `inner` runs. */
  function Under(lock: Lock, inner: seq<Op>): seq<Op> { [Acquire(lock)] + inner + [Free(lock)] }

  function Brief(lock: Lock): seq<Op> { Under(lock, []) }

  function Repeat(ops: seq<Op>, times: nat): seq<Op> {
    if times == 0 then [] else ops + Repeat(ops, times - 1)
  }

  /** How far a poll of a write comes: it takes the published result, leaves the
      observer pending, or finds it finished. */
  datatype Progress = Settled | Waiting | Finished(ok: bool)

  /** What a reservation comes to: it finds the interval stopped before or under
      the counters' lock, finds no room, with the interval stopped for it or
      not, or reserves. */
  datatype Booking = StoppedBefore | StoppedInside | NoRoom(stops: bool) | Booked

  /** The sections a task can be in. `late` marks a look at the stopping cause
      that finds the deadline passed; `wakes` counts how often the observer wakes
      its write while it is polled. */
  datatype Section =
    | Count
    | Stop
    | Cause(late: bool)
    | Allowance(late: bool, open: bool)
    | Poll(write: nat, progress: Progress, wakes: nat)
    | WaitForSlot
    | Book(late: bool, booking: Booking)
    | AbortLater(pending: Option<nat>)
    | PeekSlot
    | Wake(write: nat)

  function CauseOps(late: bool): seq<Op> {
    (if late then Brief(Counters) else []) + Brief(Counters)
  }

  function BookingOps(late: bool, booking: Booking): seq<Op> {
    CauseOps(late)
    + (if booking.StoppedBefore? then [] else Brief(Counters))
    + (if booking.NoRoom? && booking.stops then Brief(Counters) else [])
  }

  /** A poll registers its waker, polls the observer and, when that is done,
      stops the interval after a failure and frees the slot, all under the
      result's lock; it hands out handles and wakers only after it. */
  function PollOps(w: nat, progress: Progress, wakes: nat): seq<Op> {
    var polled := Brief(Wakers(w)) + Repeat(Brief(Wakers(w)), wakes);
    match progress
    case Settled => Brief(Result(w))
    case Waiting => Under(Result(w), polled)
    case Finished(ok) =>
      Under(Result(w), polled + (if ok then [] else Brief(Counters)) + Brief(Slot)) + Brief(Handles(w)) + Brief(Wakers(w))
  }

  function Program(section: Section): seq<Op> {
    match section
    case Count => Brief(Counters)
    case Stop => Brief(Counters)
    case Cause(late) => CauseOps(late)
    case Allowance(late, open) => CauseOps(late) + (if open then Brief(Counters) else [])
    case Poll(w, progress, wakes) => PollOps(w, progress, wakes)
    case WaitForSlot => Brief(Slot)
    case Book(late, booking) => Under(Slot, BookingOps(late, booking))
    case AbortLater(pending) => Under(Slot, if pending.Some? then Brief(Handles(pending.value)) else [])
    case PeekSlot => Brief(Slot)
    case Wake(w) => Brief(Wakers(w))
  }

  // -------------------------------------------------------------- lock order

  /** A task that holds a lock asks only for ones of smaller rank. */
  function Rank(lock: Lock): nat {
    match lock
    case Result(_) => 2
    case Slot => 1
    case _ => 0
  }

  function Effect(held: set<Lock>, op: Op): set<Lock> {
    if op.Acquire? then held + {op.lock} else held - {op.lock}
  }

  /** The locks held after `ops` by a task that began them with `held`. */
  function After(held: set<Lock>, ops: seq<Op>): set<Lock> {
    if ops == [] then held else Effect(After(held, ops[..|ops| - 1]), ops[|ops| - 1])
  }

  predicate Below(lock: Lock, held: set<Lock>) {
    forall l | l in held :: Rank(lock) < Rank(l)
  }

  /** A lock is taken below all that are held, so never twice, and only a lock
      that is held is freed. */
  predicate OpOk(held: set<Lock>, op: Op) {
    if op.Acquire? then Below(op.lock, held) else op.lock in held
  }

  /** Every operation of `ops` is in order, and what is taken is freed. */
  ghost predicate Balanced(held: set<Lock>, ops: seq<Op>) {
    (forall k | 0 <= k < |ops| :: OpOk(After(held, ops[..k]), ops[k])) && After(held, ops) == held
  }

  lemma {:induction false} AfterBoth(held: set<Lock>, a: seq<Op>, b: seq<Op>)
    ensures After(held, a + b) == After(After(held, a), b)
  {
    if b == [] {
      assert a + b == a;
    } else {
      assert (a + b)[..|a + b| - 1] == a + b[..|b| - 1];
      AfterBoth(held, a, b[..|b| - 1]);
    }
  }

  lemma BothBalanced(held: set<Lock>, a: seq<Op>, b: seq<Op>)
    requires Balanced(held, a) && Balanced(held, b)
    ensures Balanced(held, a + b)
  {
    AfterBoth(held, a, b);
    forall k | 0 <= k < |a + b| ensures OpOk(After(held, (a + b)[..k]), (a + b)[k]) {
      if k < |a| {
        assert (a + b)[..k] == a[..k];
      } else {
        assert (a + b)[..k] == a + b[..k - |a|];
        AfterBoth(held, a, b[..k - |a|]);
      }
    }
  }

  lemma UnderBalanced(held: set<Lock>, lock: Lock, inner: seq<Op>)
    requires Below(lock, held) && Balanced(held + {lock}, inner)
    ensures Balanced(held, Under(lock, inner))
  {
    var ops, first := Under(lock, inner), [Acquire(lock)];
    assert lock !in held;
    assert After(held, first) == held + {lock} by { assert first[..0] == []; }
    forall k | 0 <= k <= |inner| ensures After(held, ops[..k + 1]) == After(held + {lock}, inner[..k]) {
      assert ops[..k + 1] == first + inner[..k];
      AfterBoth(held, first, inner[..k]);
    }
    assert inner[..|inner|] == inner;
    assert ops[..|ops| - 1] == ops[..|inner| + 1];
    forall k | 0 <= k < |ops| ensures OpOk(After(held, ops[..k]), ops[k]) {
      if 0 < k <= |inner| { assert OpOk(After(held + {lock}, inner[..k - 1]), inner[k - 1]); }
    }
  }

  lemma BriefBalanced(held: set<Lock>, lock: Lock)
    requires Below(lock, held)
    ensures Balanced(held, Brief(lock))
  {
    UnderBalanced(held, lock, []);
  }

  lemma {:induction false} RepeatBalanced(held: set<Lock>, ops: seq<Op>, times: nat)
    requires Balanced(held, ops)
    ensures Balanced(held, Repeat(ops, times))
  {
    if times > 0 {
      RepeatBalanced(held, ops, times - 1);
      BothBalanced(held, ops, Repeat(ops, times - 1));
    }
  }

  lemma CauseBalanced(held: set<Lock>, late: bool)
    requires Below(Counters, held)
    ensures Balanced(held, CauseOps(late))
  {
    BriefBalanced(held, Counters);
    BothBalanced(held, if late then Brief(Counters) else [], Brief(Counters));
  }

  lemma BookingBalanced(held: set<Lock>, late: bool, booking: Booking)
    requires Below(Counters, held)
    ensures Balanced(held, BookingOps(late, booking))
  {
    CauseBalanced(held, late);
    BriefBalanced(held, Counters);
    var second := if booking.StoppedBefore? then [] else Brief(Counters);
    BothBalanced(held, CauseOps(late), second);
    BothBalanced(held, CauseOps(late) + second, if booking.NoRoom? && booking.stops then Brief(Counters) else []);
  }

  lemma PollBalanced(w: nat, progress: Progress, wakes: nat)
    ensures Balanced({}, PollOps(w, progress, wakes))
  {
    var held := {} + {Result(w)};
    BriefBalanced(held, Wakers(w));
    RepeatBalanced(held, Brief(Wakers(w)), wakes);
    var polled := Brief(Wakers(w)) + Repeat(Brief(Wakers(w)), wakes);
    BothBalanced(held, Brief(Wakers(w)), Repeat(Brief(Wakers(w)), wakes));
    match progress
    case Settled => BriefBalanced({}, Result(w));
    case Waiting => UnderBalanced({}, Result(w), polled);
    case Finished(ok) =>
      BriefBalanced(held, Counters);
      BriefBalanced(held, Slot);
      var failure := if ok then [] else Brief(Counters);
      BothBalanced(held, polled, failure);
      BothBalanced(held, polled + failure, Brief(Slot));
      UnderBalanced({}, Result(w), polled + failure + Brief(Slot));
      BriefBalanced({}, Handles(w));
      BriefBalanced({}, Wakers(w));
      BothBalanced({}, Under(Result(w), polled + failure + Brief(Slot)), Brief(Handles(w)));
      BothBalanced({}, Under(Result(w), polled + failure + Brief(Slot)) + Brief(Handles(w)), Brief(Wakers(w)));
  }

  lemma AllowanceBalanced(late: bool, open: bool)
    ensures Balanced({}, CauseOps(late) + (if open then Brief(Counters) else []))
  {
    CauseBalanced({}, late);
    BriefBalanced({}, Counters);
    BothBalanced({}, CauseOps(late), if open then Brief(Counters) else []);
  }

  lemma UnderSlotBalanced(late: bool, booking: Booking, pending: Option<nat>)
    ensures Balanced({}, Under(Slot, BookingOps(late, booking)))
    ensures Balanced({}, Under(Slot, if pending.Some? then Brief(Handles(pending.value)) else []))
  {
    var held := {} + {Slot};
    BookingBalanced(held, late, booking);
    UnderBalanced({}, Slot, BookingOps(late, booking));
    if pending.Some? { BriefBalanced(held, Handles(pending.value)); }
    UnderBalanced({}, Slot, if pending.Some? then Brief(Handles(pending.value)) else []);
  }

  /** No section takes a lock out of order or twice, and none keeps one. */
  lemma SectionBalanced(section: Section)
    ensures Balanced({}, Program(section))
  {
    match section
    case Poll(w, progress, wakes) => PollBalanced(w, progress, wakes);
    case Cause(late) => CauseBalanced({}, late);
    case Allowance(late, open) => AllowanceBalanced(late, open);
    case Book(late, booking) => UnderSlotBalanced(late, booking, None);
    case AbortLater(pending) => UnderSlotBalanced(false, Booked, pending);
    case Count => BriefBalanced({}, Counters);
    case Stop => BriefBalanced({}, Counters);
    case WaitForSlot => BriefBalanced({}, Slot);
    case PeekSlot => BriefBalanced({}, Slot);
    case Wake(w) => BriefBalanced({}, Wakers(w));
  }

  // ------------------------------------------------------------------- runs

  /** A task inside a section, and how much of it is done. */
  datatype Frame = Frame(section: Section, done: nat)

  type State = map<Task, Frame>

  const INITIAL: State := map[]

  datatype Step = Begin(t: Task, section: Section) | Advance(t: Task) | End(t: Task)

  ghost function Held(s: State, t: Task): set<Lock> {
    if t in s && s[t].done <= |Program(s[t].section)| then After({}, Program(s[t].section)[..s[t].done]) else {}
  }

  /** The lock a task asks for next. */
  function Wanted(s: State, t: Task): Option<Lock> {
    if t in s && s[t].done < |Program(s[t].section)| && Program(s[t].section)[s[t].done].Acquire?
    then Some(Program(s[t].section)[s[t].done].lock) else None
  }

  ghost predicate IsFree(s: State, lock: Lock) {
    forall t | t in s :: lock !in Held(s, t)
  }

  ghost predicate Enabled(s: State, step: Step) {
    match step
    case Begin(t, _) => t !in s
    case Advance(t) =>
      t in s && s[t].done < |Program(s[t].section)| && (Wanted(s, t).Some? ==> IsFree(s, Wanted(s, t).value))
    case End(t) => t in s && s[t].done == |Program(s[t].section)|
  }

  ghost function Apply(s: State, step: Step): State
    requires Enabled(s, step)
  {
    match step
    case Begin(t, section) => s[t := Frame(section, 0)]
    case Advance(t) => s[t := Frame(s[t].section, s[t].done + 1)]
    case End(t) => s - {t}
  }

  /** Each lock has one holder. */
  ghost predicate Inv(s: State) {
    && (forall t | t in s :: s[t].done <= |Program(s[t].section)|)
    && forall t, u | t in s && u in s && t != u :: Held(s, t) !! Held(s, u)
  }

  lemma AfterNext(held: set<Lock>, ops: seq<Op>, k: nat)
    requires k < |ops|
    ensures After(held, ops[..k + 1]) == Effect(After(held, ops[..k]), ops[k])
  {
    assert ops[..k + 1][..k] == ops[..k];
  }

  lemma AdvanceHolds(s: State, t: Task)
    requires Enabled(s, Advance(t))
    ensures Held(Apply(s, Advance(t)), t) == Effect(Held(s, t), Program(s[t].section)[s[t].done])
  {
    AfterNext({}, Program(s[t].section), s[t].done);
  }

  lemma OthersHold(s: State, step: Step, u: Task)
    requires Enabled(s, step) && u != step.t
    ensures Held(Apply(s, step), u) == Held(s, u)
  {
  }

  lemma ActorHolds(s: State, step: Step)
    requires Inv(s) && Enabled(s, step)
    ensures forall l | l in Held(Apply(s, step), step.t) :: l in Held(s, step.t) || IsFree(s, l)
  {
    if step.Advance? { AdvanceHolds(s, step.t); }
  }

  lemma StepKeepsInv(s: State, step: Step)
    requires Inv(s) && Enabled(s, step)
    ensures Inv(Apply(s, step))
  {
    var after := Apply(s, step);
    ActorHolds(s, step);
    forall t, u | t in after && u in after && t != u ensures Held(after, t) !! Held(after, u) {
      if t != step.t { OthersHold(s, step, t); }
      if u != step.t { OthersHold(s, step, u); }
    }
  }

  ghost predicate CanRun(s: State, steps: seq<Step>)
    decreases |steps|
  {
    steps == [] || (Enabled(s, steps[0]) && CanRun(Apply(s, steps[0]), steps[1..]))
  }

  ghost function Run(s: State, steps: seq<Step>): State
    requires CanRun(s, steps)
    decreases |steps|
  {
    if steps == [] then s else Run(Apply(s, steps[0]), steps[1..])
  }

  lemma {:induction false} RunKeepsInv(s: State, steps: seq<Step>)
    requires Inv(s) && CanRun(s, steps)
    ensures Inv(Run(s, steps))
    decreases |steps|
  {
    if |steps| > 0 {
      var after := Apply(s, steps[0]);
      StepKeepsInv(s, steps[0]);
      RunKeepsInv(after, steps[1..]);
    }
  }

  /** In every reachable state each lock has one holder at most. */
  lemma OneHolder(steps: seq<Step>, lock: Lock, t: Task, u: Task)
    requires CanRun(INITIAL, steps) && lock in Held(Run(INITIAL, steps), t) && lock in Held(Run(INITIAL, steps), u)
    ensures t == u
  {
    RunKeepsInv(INITIAL, steps);
    assert t in Run(INITIAL, steps) && u in Run(INITIAL, steps);
  }

  /** Task `a` asks for a lock that `b` holds; `b` may be `a` itself. */
  ghost predicate WaitsFor(s: State, a: Task, b: Task) {
    Wanted(s, a).Some? && b in s && Wanted(s, a).value in Held(s, b)
  }

  ghost predicate IsChain(s: State, chain: seq<Task>) {
    |chain| > 0 && forall i | 0 < i < |chain| :: WaitsFor(s, chain[i - 1], chain[i])
  }

  /** What a task wants ranks below what it holds: its section is balanced. */
  lemma WantsBelow(s: State, t: Task)
    requires t in s && Wanted(s, t).Some?
    ensures Below(Wanted(s, t).value, Held(s, t))
  {
    SectionBalanced(s[t].section);
    assert OpOk(After({}, Program(s[t].section)[..s[t].done]), Program(s[t].section)[s[t].done]);
  }

  /** Along a chain the wanted locks go down in rank. */
  lemma {:induction false} ChainGoesDown(s: State, chain: seq<Task>)
    requires IsChain(s, chain) && |chain| > 1 && Wanted(s, chain[|chain| - 1]).Some?
    ensures Wanted(s, chain[0]).Some? && Rank(Wanted(s, chain[|chain| - 1]).value) < Rank(Wanted(s, chain[0]).value)
    decreases |chain|
  {
    var b, a := chain[|chain| - 1], chain[|chain| - 2];
    assert WaitsFor(s, a, b);
    WantsBelow(s, b);
    if |chain| > 2 {
      var front := chain[..|chain| - 1];
      forall i | 0 < i < |front| ensures WaitsFor(s, front[i - 1], front[i]) {
        assert WaitsFor(s, chain[i - 1], chain[i]);
      }
      ChainGoesDown(s, front);
    }
  }

  /** In no state do tasks wait for each other in a circle, nor one for itself. */
  lemma NoCircularWait(steps: seq<Step>, chain: seq<Task>)
    requires CanRun(INITIAL, steps) && IsChain(Run(INITIAL, steps), chain) && |chain| > 1
    ensures chain[0] != chain[|chain| - 1]
  {
    var s := Run(INITIAL, steps);
    assert WaitsFor(s, chain[0], chain[1]);
    if Wanted(s, chain[|chain| - 1]).Some? {
      ChainGoesDown(s, chain);
    }
  }

  /** Whoever is inside a section waits, if at all, for one who can go on. */
  lemma {:induction false} SomebodyGoesOn(s: State, t: Task) returns (chain: seq<Task>)
    requires t in s && s[t].done <= |Program(s[t].section)|
    requires Inv(s)
    ensures IsChain(s, chain) && chain[0] == t && chain[|chain| - 1] in s
    ensures Enabled(s, Advance(chain[|chain| - 1])) || Enabled(s, End(chain[|chain| - 1]))
    decreases if Wanted(s, t).Some? then Rank(Wanted(s, t).value) + 1 else 0
  {
    chain := [t];
    if Wanted(s, t).Some? && !IsFree(s, Wanted(s, t).value) {
      var u :| u in s && Wanted(s, t).value in Held(s, u);
      if Wanted(s, u).Some? { WantsBelow(s, u); }
      var rest := SomebodyGoesOn(s, u);
      chain := [t] + rest;
      forall i | 0 < i < |chain| ensures WaitsFor(s, chain[i - 1], chain[i]) {
        if i > 1 { assert WaitsFor(s, rest[i - 2], rest[i - 1]); }
      }
    }
  }

  /** So in every reachable state the tasks inside sections can all be waited
      out: from each, a chain of waits leads to one that can go on. */
  lemma NobodyIsStuck(steps: seq<Step>, t: Task) returns (chain: seq<Task>)
    requires CanRun(INITIAL, steps) && t in Run(INITIAL, steps)
    ensures var s := Run(INITIAL, steps);
      && IsChain(s, chain) && chain[0] == t
      && (Enabled(s, Advance(chain[|chain| - 1])) || Enabled(s, End(chain[|chain| - 1])))
  {
    RunKeepsInv(INITIAL, steps);
    chain := SomebodyGoesOn(Run(INITIAL, steps), t);
  }
}
