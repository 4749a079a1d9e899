/** The shared control of one interval as its fields are updated, and its
    critical sections as steps of the admission protocol. One call here is one
    poll, run to its end; what may come between the parts of a poll is in the
    protocol itself. */
module RunControls {
  import opened Wrappers
  import opened Admission
  import opened AdmissionRuns

  datatype Poll = Pending | Ready(ok: bool)

  datatype Reservation = Reserved(ordinal: nat) | NoRoom | Stopped(cause: Outcome)

  class PendingWrite {
    const ordinal: nat
    var result: Option<bool>
    var wakers: set<Task>
    var abortAfter: seq<Handle>

    constructor (ordinal: nat)
      ensures this.ordinal == ordinal && result == None && wakers == {} && abortAfter == []
    {
      this.ordinal := ordinal;
      result, wakers, abortAfter := None, {}, [];
    }

    ghost predicate Shows(write: Write)
      reads this
    {
      && write.phase == (match result case None => Running case Some(ok) => Notified(ok))
      && wakers == write.wakers
      && abortAfter == write.aborts
    }

    /** Publish the result and hand out what waited for it. */
    method Settle(ok: bool) returns (handles: seq<Handle>, woken: set<Task>)
      modifies this
      ensures result == Some(ok) && wakers == {} && abortAfter == []
      ensures handles == old(abortAfter) && woken == old(wakers)
    {
      result := Some(ok);
      handles, abortAfter := abortAfter, [];
      woken, wakers := wakers, {};
    }
  }

  /** The steps of a poll that finds the observer finished. */
  function FinishingSteps(t: Task, ok: bool): seq<Step> {
    if ok then [PollReady(t, true), Release(t), AbortHandles(t), Notify(t)]
    else [PollReady(t, false), RecordFailure(t), Release(t), AbortHandles(t), Notify(t)]
  }

  /** What such a poll leaves behind. */
  ghost predicate Finishes(s: State, w: nat, ok: bool, after: State) {
    && w in s.writes
    && after.ledger.calls == s.ledger.calls && after.ledger.limit == s.ledger.limit && after.ledger.observed == s.ledger.observed
    && after.slot.None? && after.gate.None?
    && after.stopped == (if ok then s.stopped else Stopping(s.stopped, Failed, true))
    && after.writes == s.writes[w := Write(Notified(ok), {}, [])]
    && after.aborted == s.aborted + s.writes[w].aborts
  }

  lemma RecordedFinishes(s: State, t: Task, ok: bool)
    requires IsCompleting(s, t) && PhaseOf(s, t) == Recorded(t, ok) && s.slot == Some(s.tasks[t].ordinal) && s.gate.None?
    ensures CanRun(s, [Release(t), AbortHandles(t), Notify(t)])
    ensures var after := Run(s, [Release(t), AbortHandles(t), Notify(t)]);
      && after.ledger.calls == s.ledger.calls && after.ledger.limit == s.ledger.limit && after.ledger.observed == s.ledger.observed && after.slot.None? && after.gate.None?
      && after.stopped == s.stopped && after.writes == s.writes[s.tasks[t].ordinal := Write(Notified(ok), {}, [])]
      && after.aborted == s.aborted + s.writes[s.tasks[t].ordinal].aborts
  {
    var released := Apply(s, Release(t));
    var taken := Apply(released, AbortHandles(t));
    Prepend(taken, Notify(t), []);
    Prepend(released, AbortHandles(t), [Notify(t)]);
    Prepend(s, Release(t), [AbortHandles(t), Notify(t)]);
    assert [AbortHandles(t)] + [Notify(t)] == [AbortHandles(t), Notify(t)];
    assert [Release(t)] + [AbortHandles(t), Notify(t)] == [Release(t), AbortHandles(t), Notify(t)];
  }

  lemma PollFinishesWrite(s: State, t: Task, ok: bool)
    requires IsWatching(s, t) && PhaseOf(s, t).Running? && s.slot == Some(s.tasks[t].ordinal) && s.gate.None?
    ensures CanRun(s, FinishingSteps(t, ok)) && Finishes(s, s.tasks[t].ordinal, ok, Run(s, FinishingSteps(t, ok)))
  {
    var rest := [Release(t), AbortHandles(t), Notify(t)];
    var polled := Apply(s, PollReady(t, ok));
    if ok {
      RecordedFinishes(polled, t, true);
      Prepend(s, PollReady(t, ok), rest);
      assert [PollReady(t, true)] + rest == FinishingSteps(t, true);
    } else {
      var recorded := Apply(polled, RecordFailure(t));
      RecordedFinishes(recorded, t, false);
      Prepend(polled, RecordFailure(t), rest);
      Prepend(s, PollReady(t, false), [RecordFailure(t)] + rest);
      assert [PollReady(t, false)] + ([RecordFailure(t)] + rest) == FinishingSteps(t, false);
    }
  }

  /** What a reservation and its write leave behind. */
  ghost predicate Installs(s: State, after: State) {
    && after.ledger.calls == s.ledger.calls + 1 && after.stopped == s.stopped && after.gate.None?
    && after.ledger.limit == s.ledger.limit && after.ledger.observed == s.ledger.observed && after.aborted == s.aborted
    && after.slot == (if s.ledger.observed then Some(after.ledger.calls) else None)
    && after.writes == (if s.ledger.observed then s.writes[after.ledger.calls := Write(Running, {}, [])] else s.writes)
  }

  lemma ReserveInstalls(s: State, t: Task, reserve: Option<nat>)
    requires Enabled(s, Reserve(t, reserve))
    ensures CanRun(s, [Reserve(t, reserve), Install(t)]) && Installs(s, Run(s, [Reserve(t, reserve), Install(t)]))
  {
    var reserved := Apply(s, Reserve(t, reserve));
    Prepend(reserved, Install(t), []);
    Prepend(s, Reserve(t, reserve), [Install(t)]);
    assert [Reserve(t, reserve)] + [Install(t)] == [Reserve(t, reserve), Install(t)];
  }

  class RunControl {
    const limit: Option<nat>
    const observed: bool
    var calls: nat
    var stopped: Option<Outcome>
    var admission: PendingWrite?
    var aborted: seq<Handle>
    ghost var protocol: State

    ghost predicate Valid()
      reads this, admission
    {
      && protocol.ledger.limit == limit && protocol.ledger.observed == observed && protocol.ledger.calls == calls
      && protocol.stopped == stopped && protocol.aborted == aborted && protocol.gate.None?
      && (admission == null <==> protocol.slot.None?)
      && (admission != null ==>
            && protocol.slot == Some(admission.ordinal) && admission.ordinal in protocol.writes
            && admission.Shows(protocol.writes[admission.ordinal]) && admission.result.None?)
    }

    constructor Restore(limit: Option<nat>, restored: nat, observed: bool)
      ensures Valid() && protocol == Initial(limit, restored, observed)
    {
      this.limit, this.observed, this.calls := limit, observed, restored;
      stopped, admission, aborted := None, null, [];
      protocol := Initial(limit, restored, observed);
    }

    /** The first cause stays, unless a required failure outranks it. */
    method SetCause(outcome: Outcome, required: bool) returns (cause: Outcome)
      modifies `stopped
      ensures stopped == Stopping(old(stopped), outcome, required) && stopped == Some(cause)
    {
      if stopped.None? || (required && stopped != Some(Failed)) {
        stopped := Some(outcome);
      }
      cause := stopped.value;
    }

    method Stop(outcome: Outcome, required: bool) returns (cause: Outcome)
      requires Valid() && (required ==> outcome.Failed?)
      modifies `stopped, `protocol
      ensures Valid()
      ensures protocol == Apply(old(protocol), Admission.Stop(outcome, required)) && stopped == Some(cause)
    {
      cause := SetCause(outcome, required);
      protocol := Apply(protocol, Admission.Stop(outcome, required));
    }

    method CallsFit(used: nat, additional: nat) returns (fit: bool)
      ensures fit <==> used + additional <= U64_MAX && (limit.Some? ==> used + additional <= limit.value)
    {
      if used + additional > U64_MAX {
        return false;
      }
      return limit.None? || used + additional <= limit.value;
    }

    method Spend(reserve: Option<nat>) returns (r: Reservation)
      modifies `calls, `stopped
      ensures r.Reserved? <==> old(stopped).None? && Fits(limit, old(calls), reserve)
      ensures r.Reserved? ==> calls == old(calls) + 1 == r.ordinal && stopped == old(stopped)
      ensures !r.Reserved? ==> calls == old(calls)
      ensures !r.Reserved? ==> stopped == if old(stopped).None? && reserve.None? then Some(BudgetExhausted(ModelCalls)) else old(stopped)
      ensures r.Stopped? ==> stopped == Some(r.cause)
      ensures r.NoRoom? ==> reserve.Some?
    {
      if stopped.Some? {
        return Stopped(stopped.value);
      }
      var extra := if reserve.Some? then reserve.value else 0;
      var fits := false;
      if extra + 1 <= U64_MAX {
        fits := CallsFit(calls, extra + 1);
      }
      if !fits {
        if reserve.Some? {
          return NoRoom;
        }
        var cause := SetCause(BudgetExhausted(ModelCalls), false);
        return Stopped(cause);
      }
      calls := calls + 1;
      return Reserved(calls);
    }

    /** One turn of the admission loop, under the admission lock: wait behind
        the write in flight, or reserve and install a write for the debit. */
    method TryAdmit(t: Task, reserve: Option<nat>) returns (r: Reservation, pending: PendingWrite?)
      requires Valid() && At(protocol, t, AtGate(Caller))
      modifies this
      ensures Valid()
      ensures old(admission) != null ==> pending == old(admission) && protocol == Apply(old(protocol), Wait(t))
      ensures old(admission) == null && r.Reserved? ==>
        && CanRun(old(protocol), [Reserve(t, reserve), Install(t)]) && protocol == Run(old(protocol), [Reserve(t, reserve), Install(t)])
        && pending == admission && (pending != null <==> observed) && r.ordinal == calls
      ensures old(admission) == null && !r.Reserved? ==>
        && Enabled(old(protocol), Decline(t, reserve)) && protocol == Apply(old(protocol), Decline(t, reserve)) && pending == null
    {
      if admission != null {
        protocol := Apply(protocol, Wait(t));
        return NoRoom, admission;
      }
      r, pending := Begin(t, reserve);
    }

    method Begin(t: Task, reserve: Option<nat>) returns (r: Reservation, pending: PendingWrite?)
      requires Valid() && At(protocol, t, AtGate(Caller)) && admission == null
      modifies this
      ensures Valid()
      ensures r.Reserved? ==>
        && CanRun(old(protocol), [Reserve(t, reserve), Install(t)]) && protocol == Run(old(protocol), [Reserve(t, reserve), Install(t)])
        && pending == admission && (pending != null <==> observed) && r.ordinal == calls
      ensures !r.Reserved? ==>
        && Enabled(old(protocol), Decline(t, reserve)) && protocol == Apply(old(protocol), Decline(t, reserve)) && pending == null
    {
      ghost var before := protocol;
      r := Spend(reserve);
      pending := null;
      if !r.Reserved? {
        protocol := Apply(before, Decline(t, reserve));
        return;
      }
      ReserveInstalls(before, t, reserve);
      protocol := Run(before, [Reserve(t, reserve), Install(t)]);
      if observed {
        pending := new PendingWrite(calls);
        admission := pending;
      }
    }

    method AbortAfterAdmissions(h: Handle)
      requires Valid() && h !in protocol.handles
      modifies `aborted, `protocol, admission
      ensures Valid()
      ensures protocol == Apply(old(protocol), AbortAfter(h))
    {
      if admission != null {
        admission.abortAfter := admission.abortAfter + [h];
      } else {
        aborted := aborted + [h];
      }
      protocol := Apply(protocol, AbortAfter(h));
    }

    /** One poll of the write a task watches. The caller's poll of the observer
        gave `polled`. */
    method Observe(pending: PendingWrite, t: Task, polled: Poll) returns (result: Option<bool>)
      requires Valid() && IsWatching(protocol, t) && pending.ordinal == protocol.tasks[t].ordinal
      requires if pending.result.None? then pending == admission else pending.Shows(protocol.writes[pending.ordinal])
      modifies `stopped, `admission, `aborted, `protocol, pending
      ensures Valid() && pending.ordinal in protocol.writes && pending.Shows(protocol.writes[pending.ordinal])
      ensures old(pending.result).Some? ==> result == old(pending.result) && protocol == Apply(old(protocol), PollDone(t))
      ensures old(pending.result).None? && polled.Pending? ==> result == None && protocol == Apply(old(protocol), PollPending(t))
      ensures old(pending.result).None? && polled.Ready? ==>
        && result == Some(polled.ok) && CanRun(old(protocol), FinishingSteps(t, polled.ok))
        && protocol == Run(old(protocol), FinishingSteps(t, polled.ok))
    {
      ghost var before := protocol;
      if pending.result.Some? {
        protocol := Apply(before, PollDone(t));
        return pending.result;
      }
      if polled.Pending? {
        pending.wakers := pending.wakers + {t};
        protocol := Apply(before, PollPending(t));
        return None;
      }
      PollFinishesWrite(before, t, polled.ok);
      Finish(pending, polled.ok, Run(before, FinishingSteps(t, polled.ok)));
      return Some(polled.ok);
    }

    /** Record the result, release the slot, abort the handles that waited and
        wake everyone, in that order. */
    method Finish(pending: PendingWrite, ok: bool, ghost after: State)
      requires Valid() && pending == admission
      requires Finishes(protocol, pending.ordinal, ok, after)
      modifies `stopped, `admission, `aborted, `protocol, pending
      ensures Valid() && protocol == after && pending.Shows(after.writes[pending.ordinal])
    {
      if !ok {
        var _ := SetCause(Failed, true);
      }
      var handles, _ := pending.Settle(ok);
      if admission == pending {
        admission := null;
      }
      aborted := aborted + handles;
      protocol := after;
    }
  }
}
