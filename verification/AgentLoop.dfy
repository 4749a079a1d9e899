/** The agent's turn loop. Hooks, the provider, the tools and the control are
    the environment: they may answer anything. */
module AgentLoop {
  import opened Wrappers
  import opened Folding
  import opened AgentTrace
  import opened PendingQueue
  import opened ToolChanges
  import opened RunLog
  import opened JoinAll

  datatype Response = Stopped | StreamError | Replied(reply: Reply)

  /** `Running` when the run goes on past the turns looked at. */
  datatype Ending = Running | Error | ControlStopped | Cancelled | Failed | FinishedTurn

  /** The outcome of the call it names. */
  datatype Finalized = Finalized(call: CallId, isError: bool, terminate: bool)

  function ResultOf(outcome: Finalized): Message { ToolResult(outcome.call, outcome.isError) }

  /** Each outcome is that of the future's own call. */
  ghost predicate OwnCalls(calls: seq<CallId>, outputs: seq<Option<Finalized>>) {
    |outputs| == |calls| && forall i | 0 <= i < |outputs| && outputs[i].Some? :: outputs[i].value.call == calls[i]
  }

  /** The calls that have not ended. */
  function Unended(calls: seq<CallId>, ended: seq<bool>): (running: seq<CallId>)
    requires |calls| == |ended|
  {
    if calls == [] then []
    else Unended(calls[..|calls| - 1], ended[..|calls| - 1]) + (if ended[|calls| - 1] then [] else [calls[|calls| - 1]])
  }

  /** `running` are the calls that have not ended. */
  ghost predicate StillRun(calls: seq<CallId>, ended: seq<bool>, running: seq<CallId>) {
    |calls| == |ended| && forall u | Unfold(u) && u == Part :: running == Unended(calls, ended)
  }

  lemma {:induction false} EndsOne(calls: seq<CallId>, ended: seq<bool>, k: nat)
    requires |calls| == |ended| && k < |calls| && !ended[k]
    ensures calls[k] in multiset(Unended(calls, ended))
    ensures multiset(Unended(calls, ended[k := true])) == multiset(Unended(calls, ended)) - multiset{calls[k]}
  {
    var last := |calls| - 1;
    var front, rest := Unended(calls[..last], ended[..last]), if ended[last] then [] else [calls[last]];
    assert Unended(calls, ended) == front + rest;
    if k < last {
      assert ended[k := true][..last] == ended[..last][k := true];
      EndsOne(calls[..last], ended[..last], k);
      TakeOut(front, rest, Unended(calls[..last], ended[..last][k := true]), calls[k]);
    } else {
      assert ended[k := true][..last] == ended[..last];
      assert multiset(front + [calls[k]]) == multiset(front) + multiset{calls[k]};
    }
  }

  lemma TakeOut(front: seq<CallId>, rest: seq<CallId>, fewer: seq<CallId>, call: CallId)
    requires call in multiset(front) && multiset(fewer) == multiset(front) - multiset{call}
    ensures call in multiset(front + rest) && multiset(fewer + rest) == multiset(front + rest) - multiset{call}
  {
    assert multiset(front + rest) == multiset(front) + multiset(rest);
    assert multiset(fewer + rest) == multiset(fewer) + multiset(rest);
  }

  /** What is left once one more has ended. */
  method EndOne(calls: seq<CallId>, ended: seq<bool>, running: seq<CallId>, k: nat) returns (left: seq<CallId>)
    requires StillRun(calls, ended, running) && k < |calls| && !ended[k]
    ensures StillRun(calls, ended[k := true], left)
    ensures calls[k] in multiset(running) && multiset(left) == multiset(running) - multiset{calls[k]}
  {
    assert Unfold(Part);
    EndsOne(calls, ended, k);
    left := Unended(calls, ended[k := true]);
  }

  lemma {:induction false} AllEnded(calls: seq<CallId>, ended: seq<bool>)
    requires |calls| == |ended| && forall k | 0 <= k < |ended| :: ended[k]
    ensures Unended(calls, ended) == []
  {
    if calls != [] { AllEnded(calls[..|calls| - 1], ended[..|calls| - 1]); }
  }

  lemma NoneRuns(calls: seq<CallId>, ended: seq<bool>, running: seq<CallId>)
    requires StillRun(calls, ended, running) && forall k | 0 <= k < |ended| :: ended[k]
    ensures running == []
  {
    assert Unfold(Part);
    AllEnded(calls, ended);
  }

  lemma OneMore(calls: seq<CallId>, ended: seq<bool>, running: seq<CallId>, i: nat, immediate: bool)
    requires i < |calls| && StillRun(calls[..i], ended, running)
    ensures StillRun(calls[..i + 1], ended + [immediate], if immediate then running else running + [calls[i]])
  {
    assert Unfold(Part);
    assert calls[..i + 1][..i] == calls[..i] && (ended + [immediate])[..i] == ended;
  }

  class Run {
    const steering: PendingMessageQueue
    const followUp: PendingMessageQueue
    ghost const start: Agent
    // The units drained from the queues before this run.
    ghost const steeredBefore: seq<Unit>
    ghost const followedBefore: seq<Unit>
    // The agent's state, as its reducer keeps it.
    var messages: seq<Message>
    var pendingCalls: set<CallId>
    var streaming: Option<Message>
    // The loop's own context and the messages new in this run.
    var current: seq<Message>
    var tools: Tools
    var added: seq<Message>
    var skipPoll: bool
    ghost var events: seq<Event>
    ghost var stand: Stand
    ghost var ends: seq<Message>
    ghost var log: seq<Entry>
    ghost var books: Books

    constructor (steering: PendingMessageQueue, followUp: PendingMessageQueue, messages: seq<Message>, tools: Tools, skipPoll: bool,
                 ghost steeredBefore: seq<Unit>, ghost followedBefore: seq<Unit>)
      ensures Traced() && Logged() && events == [] && stand == START && ends == [] && added == [] && log == [] && books == EMPTY
      ensures this.steering == steering && this.followUp == followUp && this.skipPoll == skipPoll
      ensures this.start == Agent(messages, {}, None) && current == messages && this.tools == tools
      ensures this.steeredBefore == steeredBefore && this.followedBefore == followedBefore
    {
      this.steering, this.followUp, this.skipPoll := steering, followUp, skipPoll;
      this.start := Agent(messages, {}, None);
      this.messages, pendingCalls, streaming, current, added := messages, {}, None, messages, [];
      this.tools := tools;
      events, stand, ends, log, books := [], START, [], [], EMPTY;
      this.steeredBefore, this.followedBefore := steeredBefore, followedBefore;
      TellsNothing(Agent(messages, {}, None));
      KeepsNothing();
    }

    /** What is kept beside the events is what they say. */
    ghost predicate Traced()
      reads this
    {
      stand.ok && Tells(start, events, Reading(stand, ends, Agent(messages, pendingCalls, streaming), true))
    }

    /** The books are in order, and the messages they list are the ones that
        ended; in one-at-a-time mode no request has had two steering units. */
    ghost predicate Logged()
      reads this
    {
      Keeps(log, books) && books.ok && books.written == ends && (steering.mode.OneAtATime? ==> books.oneEach)
    }

    /** Enters what has been written since. */
    ghost method Record(entry: Entry)
      requires Keeps(log, books) && books.ok && (steering.mode.OneAtATime? ==> books.oneEach)
      requires EntryOk(books.last, entry) && books.written + Writes(entry) == ends
      requires steering.mode.OneAtATime? && entry.Asked? ==> books.inRequest <= 1
      modifies `log, `books
      ensures Logged() && log == old(log) + [entry] && books == Enter(old(books), entry)
    {
      KeepsNext(log, books, entry);
      log, books := log + [entry], Enter(books, entry);
    }

    /** The reducer takes one event. */
    method ProcessEvent(event: Event)
      modifies `messages, `pendingCalls, `streaming
      ensures Agent(messages, pendingCalls, streaming) == Reduce(old(Agent(messages, pendingCalls, streaming)), event)
    {
      match event {
        case MessageStart(m) => streaming := Some(m);
        case MessageUpdate(m) => streaming := Some(m);
        case MessageEnd(m) => streaming, messages := None, messages + [m];
        case ToolStart(call, nested) => if !nested { pendingCalls := pendingCalls + {call}; }
        case ToolEnd(call, nested) => if !nested { pendingCalls := pendingCalls - {call}; }
        case AgentEnd(_) => streaming := None;
        case _ =>
      }
    }

    method Emit(event: Event)
      requires Traced() && Next(stand, event).ok && PayloadOk(event, ends)
      modifies `messages, `pendingCalls, `streaming, `events, `stand, `ends
      ensures Traced() && events == old(events) + [event]
      ensures stand == Next(old(stand), event)
      ensures ends == old(ends) + (if event.MessageEnd? then [event.message] else [])
    {
      TellsNext(start, events, Reading(stand, ends, Agent(messages, pendingCalls, streaming), true), event);
      ProcessEvent(event);
      ends := ends + (if event.MessageEnd? then [event.message] else []);
      events, stand := events + [event], Next(stand, event);
    }

    /** Emits the start and the end of one message. */
    method EmitMessage(m: Message)
      requires Traced() && stand.place.Between?
      modifies `messages, `pendingCalls, `streaming, `events, `stand, `ends
      ensures Traced() && stand == old(stand) && ends == old(ends) + [m]
    {
      Emit(MessageStart(m));
      Emit(MessageEnd(m));
    }

    method EmitMessages(ms: seq<Message>)
      requires Traced() && stand.place.Between?
      modifies `messages, `pendingCalls, `streaming, `events, `stand, `ends
      ensures Traced() && stand == old(stand) && ends == old(ends) + ms
    {
      var i := 0;
      while i < |ms|
        invariant 0 <= i <= |ms| && ends == old(ends) + ms[..i]
        invariant Traced() && stand == old(stand)
      {
        EmitMessage(ms[i]);
        i := i + 1;
      }
      assert ms[..i] == ms;
    }

    /** The pending messages with the tool changes that are due. */
    method Declare(pending: seq<Message>) returns (declared: seq<Message>)
      ensures Carries(declared, pending) && Declares(current + declared, tools)
    {
      DeclaresTools(Context(current, tools), pending);
      DeclaredCarries(Context(current, tools), pending);
      declared := Declared(Context(current, tools), pending);
    }

    /** Declares tool changes and appends the messages to every record. */
    method AppendMessages(pending: seq<Message>) returns (declared: seq<Message>)
      requires Traced() && stand.place.Between? && added == ends
      modifies `messages, `pendingCalls, `streaming, `events, `stand, `ends, `current, `added
      ensures Traced() && stand == old(stand) && added == ends
      ensures Carries(declared, pending) && Declares(current, tools)
      ensures ends == old(ends) + declared && current == old(current) + declared
    {
      declared := Declare(pending);
      var i := 0;
      while i < |declared|
        invariant 0 <= i <= |declared|
        invariant Traced() && stand == old(stand) && added == ends
        invariant ends == old(ends) + declared[..i] && current == old(current) + declared[..i]
      {
        EmitMessage(declared[i]);
        current, added := current + [declared[i]], added + [declared[i]];
        i := i + 1;
      }
      assert declared[..i] == declared;
    }

    /** One request: the control admits it, the provider streams it. */
    method StreamResponse() returns (r: Response)
      requires Traced() && stand.place.Between?
      modifies `messages, `pendingCalls, `streaming, `events, `stand, `ends, `current
      ensures Traced() && stand == old(stand)
      ensures ends == old(ends) + (if r.Replied? then [FromModel(r.reply)] else [])
      ensures current == old(current) + (if r.Replied? then [FromModel(r.reply)] else [])
    {
      var refused: bool, failed: bool, started: bool, reply: Reply := *, *, *, *;
      if refused { return Stopped; }
      if failed { return StreamError; }
      if started {
        var partial: Message := *;
        Emit(MessageStart(partial));
        var updates: nat := *;
        while updates > 0
          invariant Traced() && stand == old(stand).(place := Speaking) && ends == old(ends) && current == old(current)
        {
          Emit(MessageUpdate(partial));
          updates := updates - 1;
        }
      }
      current := current + [FromModel(reply)];
      if !started {
        Emit(MessageStart(FromModel(reply)));
      }
      Emit(MessageEnd(FromModel(reply)));
      return Replied(reply);
    }

    /** While calls run, their updates and the events of nested calls pass
        through. */
    method ToolEvents(running: seq<CallId>)
      requires Traced() && stand.place.Between? && stand.running == multiset(running)
      modifies `messages, `pendingCalls, `streaming, `events, `stand, `ends
      ensures Traced() && stand == old(stand) && ends == old(ends)
    {
      var n: nat := *;
      while n > 0
        invariant Traced() && stand == old(stand) && ends == old(ends)
      {
        var call: CallId, kind: nat, k: nat := *, *, *;
        match kind {
          case 0 => Emit(ToolStart(call, true));
          case 1 => Emit(ToolUpdate(call, true));
          case 2 => Emit(ToolEnd(call, true));
          case _ =>
            if k < |running| {
              assert running[k] in multiset(running);
              Emit(ToolUpdate(running[k], false));
            }
        }
        n := n - 1;
      }
    }

    /** A call starts and ends, with its updates and nested events in between. */
    method RunCall(call: CallId)
      requires Traced() && stand.place.Between? && stand.open && stand.running == multiset{}
      modifies `messages, `pendingCalls, `streaming, `events, `stand, `ends
      ensures Traced() && stand == old(stand) && ends == old(ends)
    {
      Emit(ToolStart(call, false));
      assert stand.running == multiset([call]);
      ToolEvents([call]);
      Emit(ToolEnd(call, false));
      assert stand.running == old(stand).running;
    }

    /** One call after the other; an abort ends the batch after the call. */
    method ExecuteSequential(calls: seq<CallId>) returns (results: seq<Message>, terminate: bool, aborted: bool)
      requires Traced() && stand.place.Between? && stand.open && stand.running == multiset{}
      modifies `messages, `pendingCalls, `streaming, `events, `stand, `ends
      ensures Traced() && stand == old(stand) && ends == old(ends) + results
      ensures Answers(calls, results, aborted) && (calls != [] ==> results != []) && (results == [] ==> !terminate)
    {
      results, terminate, aborted := [], true, false;
      var i := 0;
      while i < |calls| && !aborted
        invariant 0 <= i <= |calls| && (aborted ==> i > 0)
        invariant Traced() && stand == old(stand) && ends == old(ends) + results
        invariant |results| == i && forall k | 0 <= k < i :: results[k].ToolResult? && results[k].call == calls[k]
      {
        RunCall(calls[i]);
        var isError: bool, asksEnd: bool := *, *;
        var outcome := Finalized(calls[i], isError, asksEnd);
        EmitMessage(ResultOf(outcome));
        results, terminate := results + [ResultOf(outcome)], terminate && outcome.terminate;
        i := i + 1;
        aborted := *;
      }
      terminate := terminate && results != [];
    }

    /** All calls of a truncated message fail without running. */
    method FailTruncated(calls: seq<CallId>) returns (results: seq<Message>)
      requires Traced() && stand.place.Between? && stand.open && stand.running == multiset{}
      modifies `messages, `pendingCalls, `streaming, `events, `stand, `ends
      ensures Traced() && stand == old(stand) && ends == old(ends) + results
      ensures Answers(calls, results, false) && forall i | 0 <= i < |results| :: results[i].isError
    {
      results := [];
      var i := 0;
      while i < |calls|
        invariant 0 <= i <= |calls|
        invariant Traced() && stand == old(stand) && ends == old(ends) + results
        invariant |results| == i && forall k | 0 <= k < i :: results[k] == ToolResult(calls[k], true)
      {
        RunCall(calls[i]);
        EmitMessage(ToolResult(calls[i], true));
        results := results + [ToolResult(calls[i], true)];
        i := i + 1;
      }
    }

    /** Every call starts, in order, until an abort; those that need no tool end
        at once, the others as the join lets them; then come the results, in the
        order of the join's outputs. */
    method ExecuteParallel(calls: seq<CallId>) returns (results: seq<Message>, terminate: bool, aborted: bool)
      requires Traced() && stand.place.Between? && stand.open && stand.running == multiset{}
      modifies `messages, `pendingCalls, `streaming, `events, `stand, `ends
      ensures Traced() && stand == old(stand) && ends == old(ends) + results
      ensures Answers(calls, results, aborted) && (calls != [] ==> results != []) && (results == [] ==> !terminate)
    {
      var immediate, waiting;
      immediate, waiting, aborted := StartAll(calls);
      var limit: Option<nat> :| limit.Some? ==> limit.value >= 1;
      var outcomes := AwaitCalls(calls[..|immediate|], immediate, waiting, limit);
      results, terminate := EmitResults(outcomes);
    }

    /** Starts the calls in order; says which of them ended at once. */
    method StartAll(calls: seq<CallId>) returns (immediate: seq<bool>, waiting: seq<CallId>, aborted: bool)
      requires Traced() && stand.place.Between? && stand.open && stand.running == multiset{}
      modifies `messages, `pendingCalls, `streaming, `events, `stand, `ends
      ensures |immediate| <= |calls| && (!aborted ==> |immediate| == |calls|) && (aborted ==> immediate != [])
      ensures Traced() && ends == old(ends)
      ensures StillRun(calls[..|immediate|], immediate, waiting) && stand == old(stand).(running := multiset(waiting))
    {
      immediate, waiting, aborted := [], [], false;
      while |immediate| < |calls| && !aborted
        invariant |immediate| <= |calls| && (aborted ==> immediate != [])
        invariant Traced() && ends == old(ends)
        invariant StillRun(calls[..|immediate|], immediate, waiting) && stand == old(stand).(running := multiset(waiting))
        decreases |calls| - |immediate|, !aborted
      {
        var call := calls[|immediate|];
        var atOnce := StartCall(call, waiting);
        OneMore(calls, immediate, waiting, |immediate|, atOnce);
        immediate, waiting := immediate + [atOnce], if atOnce then waiting else waiting + [call];
        aborted := *;
      }
    }

    /** A call starts; one that needs no tool ends at once. */
    method StartCall(call: CallId, ghost waiting: seq<CallId>) returns (atOnce: bool)
      requires Traced() && stand.place.Between? && stand.open && stand.running == multiset(waiting)
      modifies `messages, `pendingCalls, `streaming, `events, `stand, `ends
      ensures Traced() && ends == old(ends)
      ensures stand == old(stand).(running := multiset(if atOnce then waiting else waiting + [call]))
    {
      Emit(ToolStart(call, false));
      atOnce := *;
      if atOnce {
        Emit(ToolEnd(call, false));
        assert stand.running == multiset(waiting);
      }
    }

    /** Polls the join until it is ready. Each future answers for its own call;
        `patience` more polls may find some of them pending. */
    method AwaitCalls(calls: seq<CallId>, immediate: seq<bool>, waiting: seq<CallId>, limit: Option<nat>) returns (outcomes: seq<Finalized>)
      requires Traced() && stand.place.Between? && StillRun(calls, immediate, waiting) && stand.running == multiset(waiting)
      requires limit.Some? ==> limit.value >= 1
      modifies `messages, `pendingCalls, `streaming, `events, `stand, `ends
      ensures Traced() && stand == old(stand).(running := multiset{}) && ends == old(ends)
      ensures |outcomes| == |calls| && forall i | 0 <= i < |calls| :: outcomes[i].call == calls[i]
    {
      var joining := new Joining<Finalized>(|calls|, limit);
      var ended, running := immediate, waiting;
      var patience: nat := *;
      var done := false;
      while !done
        invariant joining.Valid() && joining.limit == limit && |joining.outputs| == |ended| == |calls|
        invariant OwnCalls(calls, joining.outputs) && Traced() && ends == old(ends)
        invariant StillRun(calls, ended, running) && stand == old(stand).(running := multiset(running))
        invariant done ==> forall i | 0 <= i < |calls| :: joining.outputs[i].Some? && ended[i]
        decreases patience, !done
      {
        var ready := Answer(calls, patience == 0);
        ghost var before := joining.View();
        done := joining.Poll(ready);
        if patience == 0 {
          ReadyFinishes(before, ready, limit, joining.View());
        } else {
          patience := patience - 1;
        }
        ended, running := EndCalls(calls, ended, running, joining.outputs, joining.started);
      }
      NoneRuns(calls, ended, running);
      outcomes := seq(|calls|, i requires 0 <= i < |calls| == |joining.outputs| && joining.outputs[i].Some? reads joining =>
        joining.outputs[i].value);
    }

    /** What each future would answer if it were polled now. */
    method Answer(calls: seq<CallId>, all: bool) returns (ready: seq<Option<Finalized>>)
      ensures |ready| == |calls| && OwnCalls(calls, ready) && (all ==> AllReady(ready))
    {
      ready := [];
      while |ready| < |calls|
        invariant |ready| <= |calls| && OwnCalls(calls[..|ready|], ready) && (all ==> AllReady(ready))
        decreases |calls| - |ready|
      {
        var waits: bool, isError: bool, asksEnd: bool := *, *, *;
        ready := ready + [if waits && !all then None else Some(Finalized(calls[|ready|], isError, asksEnd))];
      }
    }

    /** Calls end before the join has their outcomes, and only once it has
        started them. */
    method EndCalls(calls: seq<CallId>, before: seq<bool>, waiting: seq<CallId>, outputs: seq<Option<Finalized>>, started: nat)
        returns (ended: seq<bool>, running: seq<CallId>)
      requires Traced() && stand.place.Between? && |before| == |outputs| == |calls|
      requires StillRun(calls, before, waiting) && stand.running == multiset(waiting)
      modifies `messages, `pendingCalls, `streaming, `events, `stand, `ends
      ensures Traced() && ends == old(ends)
      ensures StillRun(calls, ended, running) && stand == old(stand).(running := multiset(running))
      ensures forall i | 0 <= i < |calls| && (before[i] || outputs[i].Some?) :: ended[i]
    {
      ended, running := before, waiting;
      for i := 0 to |calls|
        invariant Traced() && ends == old(ends) && |ended| == |calls|
        invariant StillRun(calls, ended, running) && stand == old(stand).(running := multiset(running))
        invariant forall j | 0 <= j < |calls| && before[j] :: ended[j]
        invariant forall j | 0 <= j < i && outputs[j].Some? :: ended[j]
      {
        ToolEvents(running);
        var now: bool := *;
        if !ended[i] && (outputs[i].Some? || (now && i < started)) {
          running := EndOne(calls, ended, running, i);
          Emit(ToolEnd(calls[i], false));
          ended := ended[i := true];
        }
      }
    }

    method EmitResults(outcomes: seq<Finalized>) returns (results: seq<Message>, terminate: bool)
      requires Traced() && stand.place.Between?
      modifies `messages, `pendingCalls, `streaming, `events, `stand, `ends
      ensures Traced() && stand == old(stand) && ends == old(ends) + results
      ensures |results| == |outcomes| && forall i | 0 <= i < |outcomes| :: results[i] == ResultOf(outcomes[i])
      ensures terminate <==> outcomes != [] && forall i | 0 <= i < |outcomes| :: outcomes[i].terminate
    {
      results, terminate := [], true;
      var i := 0;
      while i < |outcomes|
        invariant 0 <= i <= |outcomes|
        invariant Traced() && stand == old(stand) && ends == old(ends) + results
        invariant |results| == i && forall k | 0 <= k < i :: results[k] == ResultOf(outcomes[k])
        invariant terminate <==> forall k | 0 <= k < i :: outcomes[k].terminate
      {
        EmitMessage(ResultOf(outcomes[i]));
        results, terminate := results + [ResultOf(outcomes[i])], terminate && outcomes[i].terminate;
        i := i + 1;
      }
      terminate := terminate && results != [];
    }

    ghost predicate QueuesOk()
      reads this, steering, followUp
    {
      steering != followUp && steering.Valid() && followUp.Valid()
    }

    /** Every drained unit is in the books or in hand. */
    ghost predicate Conserved(steeringHand: seq<Unit>, followUpHand: seq<Unit>)
      reads this, steering, followUp
    {
      && QueuesOk()
      && steering.drained == steeredBefore + books.steered + steeringHand
      && followUp.drained == followedBefore + books.followed + followUpHand
    }

    /** Whoever holds the agent may queue units at any time. */
    method Arrivals(queue: PendingMessageQueue)
      requires queue.Valid()
      modifies queue
      ensures queue.Valid() && queue.drained == old(queue.drained) && old(queue.pushed) <= queue.pushed
    {
      var n: nat := *;
      while n > 0
        invariant queue.Valid() && queue.drained == old(queue.drained) && old(queue.pushed) <= queue.pushed
      {
        var unit: Unit := *;
        queue.Push(unit);
        n := n - 1;
      }
    }

    /** The first poll of a run that was started from the queue is skipped. */
    method PollSteering() returns (pending: seq<Message>, ghost hand: seq<Unit>)
      requires QueuesOk()
      modifies `skipPoll, steering
      ensures QueuesOk() && steering.drained == old(steering.drained) + hand && pending == Flat(hand) && (pending == [] <==> hand == [])
      ensures !skipPoll && (old(skipPoll) ==> hand == []) && (steering.mode.OneAtATime? ==> |hand| <= 1)
    {
      Arrivals(steering);
      if skipPoll {
        skipPoll, pending, hand := false, [], [];
      } else {
        pending, hand := steering.Drain();
      }
    }

    method PollFollowUps() returns (pending: seq<Message>, ghost hand: seq<Unit>)
      requires QueuesOk()
      modifies followUp
      ensures QueuesOk() && followUp.drained == old(followUp.drained) + hand && pending == Flat(hand) && (pending == [] <==> hand == [])
      ensures pending == [] ==> followUp.units == []
    {
      Arrivals(followUp);
      pending, hand := followUp.Drain();
    }

    /** Hands the prepared messages and those in hand to the transcript. */
    method Deliver(prepared: seq<Message>, pending: seq<Message>, ghost steeringHand: seq<Unit>, ghost followUpHand: seq<Unit>)
      requires Traced() && Logged() && stand.place.Between? && added == ends
      requires Conserved(steeringHand, followUpHand) && pending == Flat(steeringHand) + Flat(followUpHand)
      modifies `messages, `pendingCalls, `streaming, `events, `stand, `ends, `current, `added, `log, `books
      ensures Traced() && Logged() && stand == old(stand) && added == ends
      ensures Conserved([], []) && Declares(current, tools)
      ensures old(ends) <= ends && log == old(log) + [Delivered(prepared, steeringHand, followUpHand, ends[|old(ends)|..])]
      ensures books.inRequest == old(books.inRequest) + |steeringHand|
    {
      var declared := AppendMessages(prepared + pending);
      assert ends[|old(ends)|..] == declared;
      RecordDelivery(prepared, prepared + pending, steeringHand, followUpHand, declared);
    }

    /** What has just been written carries what was in hand. */
    ghost method RecordDelivery(prepared: seq<Message>, messages: seq<Message>, steeringHand: seq<Unit>, followUpHand: seq<Unit>,
                                declared: seq<Message>)
      requires Keeps(log, books) && books.ok && (steering.mode.OneAtATime? ==> books.oneEach)
      requires books.written + declared == ends && Carries(declared, messages)
      requires messages == prepared + (Flat(steeringHand) + Flat(followUpHand)) && Conserved(steeringHand, followUpHand)
      modifies `log, `books
      ensures Logged() && log == old(log) + [Delivered(prepared, steeringHand, followUpHand, declared)]
      ensures Conserved([], []) && books.inRequest == old(books.inRequest) + |steeringHand|
    {
      Record(Delivered(prepared, steeringHand, followUpHand, declared));
    }

    /** A hook may replace the context; then its tools are declared. */
    method Reconcile() returns (ghost redeclared: seq<Entry>)
      requires Traced() && Logged() && stand.place.Between? && added == ends && Declares(current, tools)
      modifies `messages, `pendingCalls, `streaming, `events, `stand, `ends, `current, `tools, `added, `log, `books
      ensures Traced() && Logged() && stand == old(stand) && added == ends && Declares(current, tools)
      ensures log == old(log) + redeclared && |redeclared| <= 1 && forall i | 0 <= i < |redeclared| :: redeclared[i].Redeclared?
      ensures books.steered == old(books.steered) && books.followed == old(books.followed) && books.inRequest == old(books.inRequest)
    {
      redeclared := [];
      var replaced: bool := *;
      if replaced {
        current, tools := *, *;
        var declared := AppendMessages([]);
        redeclared := [Redeclared(declared)];
        Record(Redeclared(declared));
      }
    }

    /** The request the messages so far go into: it is entered whether or not
        it is admitted. */
    method Request() returns (r: Response, ghost redeclared: seq<Entry>, ghost context: Context)
      requires Traced() && Logged() && stand.place.Between? && added == ends && Declares(current, tools)
      requires steering.mode.OneAtATime? ==> books.inRequest <= 1
      modifies `messages, `pendingCalls, `streaming, `events, `stand, `ends, `current, `tools, `added, `log, `books
      ensures Traced() && Logged() && stand == old(stand) && added == ends
      ensures |redeclared| <= 1 && forall i | 0 <= i < |redeclared| :: redeclared[i].Redeclared?
      ensures log == old(log) + redeclared + [Asked(context)] + (if r.Replied? then [Answered(r.reply)] else [])
      ensures current == context.messages + (if r.Replied? then [FromModel(r.reply)] else []) && context.tools == tools
      ensures books.steered == old(books.steered) && books.followed == old(books.followed) && books.inRequest == 0
      ensures r.Replied? ==> books.last == Some(Answered(r.reply)) && ends != [] && ends[|ends| - 1] == FromModel(r.reply)
    {
      redeclared := Reconcile();
      context := Context(current, tools);
      Record(Asked(context));
      r := Ask();
    }

    method Ask() returns (r: Response)
      requires Traced() && Logged() && stand.place.Between? && added == ends && books.last.Some? && books.last.value.Asked?
      modifies `messages, `pendingCalls, `streaming, `events, `stand, `ends, `current, `added, `log, `books
      ensures Traced() && Logged() && stand == old(stand) && added == ends
      ensures log == old(log) + (if r.Replied? then [Answered(r.reply)] else [])
      ensures current == old(current) + (if r.Replied? then [FromModel(r.reply)] else [])
      ensures books.steered == old(books.steered) && books.followed == old(books.followed) && books.inRequest == old(books.inRequest)
      ensures r.Replied? ==> books.last == Some(Answered(r.reply)) && ends != [] && ends[|ends| - 1] == FromModel(r.reply)
    {
      r := StreamResponse();
      if r.Replied? {
        added := added + [FromModel(r.reply)];
        Record(Answered(r.reply));
      }
    }

    /** Runs the calls of a reply; true when the loop should go on for them. */
    method RunTools(reply: Reply) returns (results: seq<Message>, more: bool, aborted: bool)
      requires Traced() && Logged() && stand.place.Between? && stand.open && stand.running == multiset{} && added == ends
      requires books.last == Some(Answered(reply))
      modifies `messages, `pendingCalls, `streaming, `events, `stand, `ends, `current, `added, `log, `books
      ensures Traced() && Logged() && stand == old(stand) && added == ends && ends == old(ends) + results
      ensures current == old(current) + results
      ensures books.steered == old(books.steered) && books.followed == old(books.followed) && books.inRequest == old(books.inRequest)
      ensures reply.calls == [] ==> results == [] && !more && log == old(log)
      ensures reply.calls != [] ==> log == old(log) + [Resulted(results, aborted)]
      ensures reply.stop.Length? ==> Answers(reply.calls, results, false) && (reply.calls != [] ==> more)
    {
      results, more, aborted := [], false, false;
      if reply.calls != [] {
        var sequential: bool, terminate: bool := *, false;
        if reply.stop.Length? {
          results := FailTruncated(reply.calls);
        } else if sequential {
          results, terminate, aborted := ExecuteSequential(reply.calls);
        } else {
          results, terminate, aborted := ExecuteParallel(reply.calls);
        }
        more := !terminate;
        current, added := current + results, added + results;
        Record(Resulted(results, aborted));
      }
    }

    /** The run's last event. */
    method Finish()
      requires Traced() && stand.place.Between? && stand.running == multiset{} && added == ends
      modifies `messages, `pendingCalls, `streaming, `events, `stand, `ends
      ensures Traced() && stand == old(stand).(place := Over) && ends == old(ends)
      ensures events != [] && events[|events| - 1] == AgentEnd(ends)
    {
      Emit(AgentEnd(added));
    }

    /** Between turns: `last` when a turn was completed, `pending` drained and
        not yet delivered. */
    ghost predicate AtHead(last: bool, pending: seq<Message>, steeringHand: seq<Unit>, followUpHand: seq<Unit>)
      reads this, steering, followUp
    {
      && Traced() && Logged() && stand.place.Between? && stand.running == multiset{} && added == ends && stand.open == !last
      && Conserved(steeringHand, followUpHand)
      && (pending == [] ==> steeringHand == [] && followUpHand == []) && pending == Flat(steeringHand) + Flat(followUpHand)
      && (steering.mode.OneAtATime? ==> books.inRequest + |steeringHand| <= 1 && (last ==> books.inRequest == 0))
    }

    /** Before a request: everything in hand has been delivered. */
    ghost predicate AtRequest()
      reads this, steering, followUp
    {
      && Traced() && Logged() && stand.place.Between? && stand.open && stand.running == multiset{} && added == ends
      && Conserved([], []) && Declares(current, tools) && (steering.mode.OneAtATime? ==> books.inRequest <= 1)
    }

    /** The run is over: its last event carries all its messages, and only the
        control leaves a turn open. */
    ghost predicate IsOver(ending: Ending)
      reads this
    {
      && Traced() && Logged() && stand.place.Over? && events != [] && events[|events| - 1] == AgentEnd(ends)
      && (stand.open ==> ending.ControlStopped?)
    }

    /** After a completed turn a hook may replace the context, and the queue is
        looked at again if the first look found nothing. */
    method PrepareNext(given: seq<Message>, ghost steeringGiven: seq<Unit>, ghost followUpGiven: seq<Unit>)
      returns (pending: seq<Message>, ghost steeringHand: seq<Unit>)
      requires AtHead(true, given, steeringGiven, followUpGiven)
      modifies `current, `tools, `skipPoll, steering
      ensures AtHead(true, pending, steeringHand, followUpGiven)
      ensures given != [] ==> pending == given && steeringHand == steeringGiven
    {
      var replaced: bool := *;
      if replaced { current, tools := *, *; }
      pending, steeringHand := given, steeringGiven;
      if given == [] {
        pending, steeringHand := PollSteering();
      }
    }

    /** What comes before a request: the messages a hook has `prepared` after a
        completed turn, the start of the turn, the delivery. */
    method Prepare(last: bool, prepared: seq<Message>, given: seq<Message>, ghost steeringGiven: seq<Unit>, ghost followUpGiven: seq<Unit>)
      requires AtHead(last, given, steeringGiven, followUpGiven)
      modifies this, steering
      ensures AtRequest() && old(log) <= log
      ensures |log| == |old(log)| + 1 && log[|log| - 1].Delivered? && log[|log| - 1].prepared == if last then prepared else []
      ensures given != [] ==> log[|log| - 1].steering == steeringGiven && log[|log| - 1].followUp == followUpGiven
    {
      var pending := given;
      ghost var hand := steeringGiven;
      if last {
        pending, hand := PrepareNext(given, steeringGiven, followUpGiven);
        Emit(TurnStart);
      }
      Deliver(if last then prepared else [], pending, hand, followUpGiven);
    }

    /** The turn ends with its reply and results. */
    method CloseTurn(reply: Reply, results: seq<Message>, ghost before: seq<Message>)
      requires Traced() && stand.place.Between? && stand.open && stand.running == multiset{}
      requires ends == before + [FromModel(reply)] + results
      modifies `messages, `pendingCalls, `streaming, `events, `stand, `ends
      ensures Traced() && stand == old(stand).(open := false) && ends == old(ends)
    {
      assert ends[|ends| - |results|..] == results;
      Emit(TurnEnd(FromModel(reply), results));
    }

    /** One request and its tools. Running when the loop goes on. */
    method Turn() returns (ending: Ending, more: bool, explicitly: bool)
      requires AtRequest()
      modifies `messages, `pendingCalls, `streaming, `events, `stand, `ends, `current, `tools, `added, `log, `books
      ensures ending.Running? ==> AtHead(true, [], [], [])
      ensures !ending.Running? ==> Logged() && Conserved([], []) && (!ending.Error? ==> IsOver(ending))
      ensures old(log) <= log
    {
      more, explicitly := false, false;
      var response, redeclared, context := Request();
      if response.Stopped? {
        Finish();
        return ControlStopped, false, false;
      }
      if response.StreamError? {
        return Error, false, false;
      }
      var reply := response.reply;
      if reply.stop.Errored? || reply.stop.Aborted? {
        CloseTurn(reply, [], ends[..|ends| - 1]);
        Finish();
        return if reply.stop.Aborted? then Cancelled else Failed, false, false;
      }
      ending, more, explicitly := CompleteTurn(reply);
    }

    /** The tools of a reply and the end of its turn, after which a hook may end
        the run or ask for another turn. */
    method CompleteTurn(reply: Reply) returns (ending: Ending, more: bool, explicitly: bool)
      requires AfterReply(reply)
      modifies `messages, `pendingCalls, `streaming, `events, `stand, `ends, `current, `added, `log, `books
      ensures ending.Running? ==> AtHead(true, [], [], [])
      ensures !ending.Running? ==> ending.FinishedTurn? && Logged() && Conserved([], []) && IsOver(ending)
      ensures old(log) <= log
    {
      more := RunTurnTools(reply);
      var decision: Option<bool> := *;
      if decision == Some(false) {
        Finish();
        return FinishedTurn, false, false;
      }
      return Running, more, decision == Some(true);
    }

    /** A reply has just been written. */
    ghost predicate AfterReply(reply: Reply)
      reads this, steering, followUp
    {
      && Traced() && Logged() && stand.place.Between? && stand.open && stand.running == multiset{} && added == ends
      && Conserved([], []) && books.inRequest == 0
      && books.last == Some(Answered(reply)) && ends != [] && ends[|ends| - 1] == FromModel(reply)
    }

    method RunTurnTools(reply: Reply) returns (more: bool)
      requires AfterReply(reply)
      modifies `messages, `pendingCalls, `streaming, `events, `stand, `ends, `current, `added, `log, `books
      ensures AtHead(true, [], [], []) && old(log) <= log
    {
      ghost var before := ends[..|ends| - 1];
      var results, aborted;
      results, more, aborted := RunTools(reply);
      CloseTurn(reply, results, before);
    }

    /** One pass of the inner loop: the control, a turn, and the next poll. */
    method Advance(last: bool, given: seq<Message>, ghost steeringGiven: seq<Unit>, ghost followUpGiven: seq<Unit>)
      returns (ending: Ending, more: bool, explicitly: bool, pending: seq<Message>,
               ghost steeringHand: seq<Unit>, ghost followUpHand: seq<Unit>)
      requires AtHead(last, given, steeringGiven, followUpGiven)
      modifies this, steering
      ensures ending.Running? ==> AtHead(true, pending, steeringHand, followUpHand)
      ensures !ending.Running? ==> Logged() && Conserved(steeringHand, followUpHand) && (!ending.Error? ==> IsOver(ending))
      ensures old(log) <= log
      ensures !ending.ControlStopped? && !ending.Running? ==> steeringHand == [] && followUpHand == []
      ensures !ending.ControlStopped? && given != [] ==>
        |log| > |old(log)| && log[|old(log)|].Delivered? && log[|old(log)|].steering == steeringGiven && log[|old(log)|].followUp == followUpGiven
    {
      var stopped: bool := *;
      if stopped {
        Finish();
        return ControlStopped, false, false, given, steeringGiven, followUpGiven;
      }
      var prepared: seq<Message> := *;
      Prepare(last, prepared, given, steeringGiven, followUpGiven);
      followUpHand := [];
      ending, more, explicitly := Turn();
      if !ending.Running? {
        return ending, false, false, [], [], [];
      }
      pending, steeringHand := PollSteering();
      if more || pending != [] {
        explicitly := false;
      }
    }

    /** Where the agent would stop: follow-ups keep it going, and so does an
        explicit wish for one more turn; nothing else does. */
    method Continue(explicitly: bool) returns (ending: Ending, pending: seq<Message>, ghost followUpHand: seq<Unit>)
      requires AtHead(true, [], [], [])
      modifies `messages, `pendingCalls, `streaming, `events, `stand, `ends, followUp
      ensures ending.Running? ==> AtHead(true, pending, [], followUpHand)
      ensures !ending.Running? ==> ending.FinishedTurn? && IsOver(ending) && Conserved([], []) && followUpHand == []
      ensures ending.Running? <==> pending != [] || explicitly
      ensures pending == [] ==> followUp.units == []
      ensures ends == old(ends) && log == old(log)
    {
      pending, followUpHand := PollFollowUps();
      if pending == [] && !explicitly {
        Finish();
        return FinishedTurn, [], [];
      }
      return Running, pending, followUpHand;
    }

    /** The loop, for up to `turns` turns. What was drained and is not in the
        books comes back in hand. */
    method RunLoop(turns: nat) returns (ending: Ending, ghost steeringHand: seq<Unit>, ghost followUpHand: seq<Unit>)
      requires Traced() && Logged() && stand.place.Between? && stand.open && stand.running == multiset{} && added == ends
      requires Conserved([], [])
      requires steering.mode.OneAtATime? ==> books.inRequest <= 1 && (books.inRequest == 1 ==> skipPoll)
      modifies this, steering, followUp
      ensures Logged() && Conserved(steeringHand, followUpHand) && old(log) <= log
      ensures !ending.Running? && !ending.Error? ==> IsOver(ending)
      ensures !ending.ControlStopped? && !ending.Running? ==> steeringHand == [] && followUpHand == []
    {
      var fuel, last, explicitly := turns, false, false;
      var pending;
      followUpHand := [];
      pending, steeringHand := PollSteering();
      while fuel > 0
        invariant AtHead(last, pending, steeringHand, followUpHand) && old(log) <= log
        decreases fuel
      {
        var more, before := true, fuel;
        while (more || pending != []) && fuel > 0
          invariant AtHead(last, pending, steeringHand, followUpHand)
          invariant (more || (last && fuel < before)) && old(log) <= log
          decreases fuel
        {
          fuel := fuel - 1;
          ending, more, explicitly, pending, steeringHand, followUpHand := Advance(last, pending, steeringHand, followUpHand);
          if !ending.Running? {
            return;
          }
          last := true;
        }
        if more || pending != [] {
          return Running, steeringHand, followUpHand;
        }
        ending, pending, followUpHand := Continue(explicitly);
        if !ending.Running? {
          return;
        }
        explicitly := false;
      }
      return Running, steeringHand, followUpHand;
    }

    /** What a finished run promises about its events. */
    ghost predicate Sourced()
      reads this
    {
      SourcedBy(start, events, messages) && ends == Ends(events, |events|)
    }

    /** The books are in order, and the units they list stand in the transcript. */
    ghost predicate Accounted()
      reads this
    {
      Logged() && Reached(ends, books.steered) && Reached(ends, books.followed)
    }

    lemma LoggedIsAccounted()
      requires Logged()
      ensures Accounted() && books == BooksOf(log)
    {
      KeepsAll(log, books);
    }

    lemma OverIsSourced(ending: Ending)
      requires IsOver(ending) && start.pendingCalls == {}
      ensures Sourced() && (!ending.ControlStopped? ==> !StandOf(events).open)
    {
      TellsAll(start, events, Reading(stand, ends, Agent(messages, pendingCalls, streaming), true));
      OverIsSourcedBy(start, events);
    }

    method EmitStart()
      requires Traced() && stand == START
      modifies `messages, `pendingCalls, `streaming, `events, `stand, `ends
      ensures Traced() && stand == START.(open := true, place := Between) && ends == old(ends)
    {
      Emit(AgentStart);
      Emit(TurnStart);
    }

    /** A run that has not begun. */
    ghost predicate Unbegun(steeringUnits: seq<Unit>, followUpUnits: seq<Unit>)
      reads this, steering, followUp
    {
      && Traced() && Logged() && stand == START && start.pendingCalls == {} && ends == [] && added == [] && log == [] && books == EMPTY
      && Conserved(steeringUnits, followUpUnits)
    }

    /** The run's first events: it starts, a turn starts, the prompts come. */
    method Open(prompts: seq<Message>, prepared: seq<Message>, ghost steeringUnits: seq<Unit>, ghost followUpUnits: seq<Unit>)
      requires Unbegun(steeringUnits, followUpUnits) && prompts == prepared + Flat(steeringUnits) + Flat(followUpUnits)
      modifies `messages, `pendingCalls, `streaming, `events, `stand, `ends, `current, `added, `log, `books
      ensures Traced() && Logged() && stand == START.(open := true, place := Between) && added == ends
      ensures Conserved([], []) && books.inRequest == |steeringUnits|
      ensures Carries(ends, prompts)
      ensures log == [Delivered(prepared, steeringUnits, followUpUnits, ends)]
    {
      ghost var initial := OpenEvents(prompts);
      assert prompts == prepared + (Flat(steeringUnits) + Flat(followUpUnits));
      RecordDelivery(prepared, prompts, steeringUnits, followUpUnits, initial);
    }

    method OpenEvents(prompts: seq<Message>) returns (initial: seq<Message>)
      requires Traced() && stand == START && ends == []
      modifies `messages, `pendingCalls, `streaming, `events, `stand, `ends, `current, `added
      ensures Traced() && stand == START.(open := true, place := Between) && added == ends == initial
      ensures Carries(initial, prompts) && current == old(current) + initial
    {
      initial := Declare(prompts);
      current, added := current + initial, initial;
      EmitStart();
      EmitMessages(initial);
    }

    /** A whole run, from its prompt, which may have been drained from a queue:
        then `prepared` is empty and the units are the prompt's. */
    method RunPrompt(prompts: seq<Message>, prepared: seq<Message>, turns: nat, ghost steeringUnits: seq<Unit>, ghost followUpUnits: seq<Unit>)
      returns (ending: Ending, ghost steeringHand: seq<Unit>, ghost followUpHand: seq<Unit>)
      requires Unbegun(steeringUnits, followUpUnits) && prompts == prepared + Flat(steeringUnits) + Flat(followUpUnits)
      requires steering.mode.OneAtATime? ==> |steeringUnits| <= 1 && (|steeringUnits| == 1 ==> skipPoll)
      modifies this, steering, followUp
      ensures Accounted() && Conserved(steeringHand, followUpHand)
      ensures !ending.Running? && !ending.Error? ==> Sourced() && (!ending.ControlStopped? ==> !StandOf(events).open)
      ensures log != [] && log[0].Delivered? && log[0].prepared == prepared && log[0].steering == steeringUnits && log[0].followUp == followUpUnits
      ensures !ending.Running? && !ending.ControlStopped? ==> steeringHand == [] && followUpHand == []
    {
      Open(prompts, prepared, steeringUnits, followUpUnits);
      ending, steeringHand, followUpHand := RunLoop(turns);
      LoggedIsAccounted();
      if !ending.Running? && !ending.Error? {
        OverIsSourced(ending);
      }
    }

    /** A whole run from a transcript that ends in a user message or a tool's
        result: no prompt, the same promises. */
    method RunContinue(turns: nat) returns (ending: Ending, ghost steeringHand: seq<Unit>, ghost followUpHand: seq<Unit>)
      requires Unbegun([], [])
      modifies this, steering, followUp
      ensures Accounted() && Conserved(steeringHand, followUpHand)
      ensures !ending.Running? && !ending.Error? ==> Sourced() && (!ending.ControlStopped? ==> !StandOf(events).open)
      ensures !ending.Running? && !ending.ControlStopped? ==> steeringHand == [] && followUpHand == []
    {
      EmitStart();
      ending, steeringHand, followUpHand := RunLoop(turns);
      LoggedIsAccounted();
      if !ending.Running? && !ending.Error? {
        OverIsSourced(ending);
      }
    }
  }

  datatype Selection = NoMessages | FromAssistant | Resume | Prompt(messages: seq<Message>, skipPoll: bool)

  /** What a continue starts: the transcript as it is, or after an assistant
      message the queued steering, else the queued follow-ups. */
  method SelectContinue(messages: seq<Message>, steering: PendingMessageQueue, followUp: PendingMessageQueue)
    returns (r: Selection, ghost steeringUnits: seq<Unit>, ghost followUpUnits: seq<Unit>)
    requires steering != followUp && steering.Valid() && followUp.Valid()
    modifies steering, followUp
    ensures steering.Valid() && steering.pushed == old(steering.pushed) && steering.drained == old(steering.drained) + steeringUnits
    ensures followUp.Valid() && followUp.pushed == old(followUp.pushed) && followUp.drained == old(followUp.drained) + followUpUnits
    ensures r.NoMessages? <==> forall i | 0 <= i < |messages| :: messages[i].System?
    ensures r.Resume? ==> !messages[|messages| - 1].FromModel?
    ensures r.FromAssistant? ==> messages[|messages| - 1].FromModel? && steering.units == [] && followUp.units == []
    ensures !r.Prompt? ==> steeringUnits == [] && followUpUnits == []
    ensures r.Prompt? ==> r.messages == Flat(steeringUnits) + Flat(followUpUnits) && r.skipPoll == (steeringUnits != [])
    ensures r.Prompt? ==> (steeringUnits == [] <==> followUpUnits != []) && (steering.mode.OneAtATime? ==> |steeringUnits| <= 1)
  {
    steeringUnits, followUpUnits := [], [];
    if forall i | 0 <= i < |messages| :: messages[i].System? {
      return NoMessages, [], [];
    }
    if !messages[|messages| - 1].FromModel? {
      return Resume, [], [];
    }
    var prompts;
    prompts, steeringUnits := steering.Drain();
    if prompts != [] {
      assert prompts + [] == prompts;
      return Prompt(prompts, true), steeringUnits, [];
    }
    prompts, followUpUnits := followUp.Drain();
    if prompts != [] {
      assert [] + prompts == prompts;
      return Prompt(prompts, false), [], followUpUnits;
    }
    return FromAssistant, [], [];
  }

  /** A run continued from a transcript keeps every queued unit: what the books
      list as delivered, and so what stands in the transcript, and what still
      waits is what was pushed. There is a run unless there is nothing to
      continue from. */
  method ContinueRun(messages: seq<Message>, tools: Tools, turns: nat, steering: PendingMessageQueue, followUp: PendingMessageQueue)
    returns (ending: Ending, run: Run?)
    requires steering != followUp && steering.Valid() && followUp.Valid()
    modifies steering, followUp
    ensures run != null ==> run.steering == steering && run.followUp == followUp && run.start == Agent(messages, {}, None)
    ensures run != null ==> run.Accounted() && run.steeredBefore == old(steering.drained) && run.followedBefore == old(followUp.drained)
    ensures run != null && !ending.Running? && !ending.ControlStopped? ==>
      && steering.pushed == run.steeredBefore + run.books.steered + steering.units
      && followUp.pushed == run.followedBefore + run.books.followed + followUp.units
    ensures run != null && !ending.Running? && !ending.Error? ==> run.Sourced()
    ensures run == null ==> ending.Error? && steering.drained == old(steering.drained) && followUp.drained == old(followUp.drained)
    ensures run == null && (exists i :: 0 <= i < |messages| && !messages[i].System?) ==>
      messages[|messages| - 1].FromModel? && steering.units == [] && followUp.units == []
  {
    ghost var steered, followed := steering.drained, followUp.drained;
    var selection, steeringUnits, followUpUnits := SelectContinue(messages, steering, followUp);
    ghost var steeringHand, followUpHand;
    match selection {
      case Prompt(prompts, skipPoll) =>
        run := new Run(steering, followUp, messages, tools, skipPoll, steered, followed);
        ending, steeringHand, followUpHand := run.RunPrompt(prompts, [], turns, steeringUnits, followUpUnits);
      case Resume =>
        run := new Run(steering, followUp, messages, tools, false, steered, followed);
        ending, steeringHand, followUpHand := run.RunContinue(turns);
      case _ =>
        ending, run := Error, null;
    }
  }
}
