/** The events of one agent run, the reducer that rebuilds the agent's state
    from them, and what a well-formed trace means. */
module AgentTrace {
  import opened Wrappers
  import opened Folding

  type CallId = nat

  datatype StopReason = Ended | Length | Errored | Aborted

  datatype Reply = Reply(id: nat, stop: StopReason, calls: seq<CallId>)

  /** Tool declarations by name. */
  type Tools = map<string, string>

  /** A system message declares the tools it adds and the names it removes. */
  datatype Message =
    | System(id: nat, added: Tools, removed: set<string>)
    | Plain(id: nat)
    | FromModel(reply: Reply)
    | ToolResult(call: CallId, isError: bool)

  datatype Event =
    | AgentStart
    | TurnStart
    | MessageStart(message: Message)
    | MessageUpdate(message: Message)
    | MessageEnd(message: Message)
    | ToolStart(call: CallId, nested: bool)
    | ToolUpdate(call: CallId, nested: bool)
    | ToolEnd(call: CallId, nested: bool)
    | TurnEnd(message: Message, results: seq<Message>)
    | AgentEnd(messages: seq<Message>)

  /** What the agent rebuilds from the events. */
  datatype Agent = Agent(messages: seq<Message>, pendingCalls: set<CallId>, streaming: Option<Message>)

  function Reduce(agent: Agent, event: Event): Agent {
    match event
    case MessageStart(m) => agent.(streaming := Some(m))
    case MessageUpdate(m) => agent.(streaming := Some(m))
    case MessageEnd(m) => agent.(streaming := None, messages := agent.messages + [m])
    case ToolStart(call, nested) => if nested then agent else agent.(pendingCalls := agent.pendingCalls + {call})
    case ToolEnd(call, nested) => if nested then agent else agent.(pendingCalls := agent.pendingCalls - {call})
    case AgentEnd(_) => agent.(streaming := None)
    case _ => agent
  }

  /** The agent after the first `k` events. */
  function Reduced(start: Agent, trace: seq<Event>, k: nat): Agent
    requires k <= |trace|
  {
    if k == 0 then start else Reduce(Reduced(start, trace, k - 1), trace[k - 1])
  }

  /** Where a trace stands: whether a turn is open, the model's calls that have
      started and not ended, and its place between the events of messages. */
  datatype Place = Unstarted | Between | Speaking | Over

  datatype Stand = Stand(ok: bool, open: bool, running: multiset<CallId>, place: Place)

  const START := Stand(true, false, multiset{}, Unstarted)

  /** The run starts first and ends last; turns alternate and end with no call
      running; calls run inside turns, and are updated and end while they run; a message starts,
      is updated and ends with nothing in between. */
  function Next(s: Stand, event: Event): Stand {
    match event
    case AgentStart => s.(ok := s.ok && s.place.Unstarted?, place := Between)
    case TurnStart => s.(ok := s.ok && s.place.Between? && !s.open, open := true)
    case TurnEnd(_, _) => s.(ok := s.ok && s.place.Between? && s.open && s.running == multiset{}, open := false)
    case MessageStart(_) => s.(ok := s.ok && s.place.Between?, place := Speaking)
    case MessageUpdate(_) => s.(ok := s.ok && s.place.Speaking?)
    case MessageEnd(_) => s.(ok := s.ok && s.place.Speaking?, place := Between)
    case ToolStart(call, nested) =>
      if nested then s.(ok := s.ok && s.place.Between?)
      else s.(ok := s.ok && s.place.Between? && s.open, running := s.running + multiset{call})
    case ToolUpdate(call, nested) => s.(ok := s.ok && s.place.Between? && (nested || call in s.running))
    case ToolEnd(call, nested) =>
      if nested then s.(ok := s.ok && s.place.Between?)
      else s.(ok := s.ok && s.place.Between? && call in s.running, running := s.running - multiset{call})
    case AgentEnd(_) => s.(ok := s.ok && s.place.Between? && s.running == multiset{}, place := Over)
  }

  function StandAt(trace: seq<Event>, k: nat): Stand
    requires k <= |trace|
  {
    if k == 0 then START else Next(StandAt(trace, k - 1), trace[k - 1])
  }

  function StandOf(trace: seq<Event>): Stand { StandAt(trace, |trace|) }

  lemma NextFields(s: Stand, event: Event)
    ensures s.open && !Next(s, event).open ==> event.TurnEnd?
    ensures Next(s, event).ok ==> s.ok && !s.place.Over? && !Next(s, event).place.Unstarted?
    ensures Next(s, event).ok && Next(s, event).place.Over? ==> event.AgentEnd?
    ensures Next(s, event).ok && Next(s, event).place.Speaking? ==>
      event.MessageStart? || (s.place.Speaking? && event.MessageUpdate?)
  {
  }

  lemma NextCounts(s: Stand, event: Event, call: CallId)
    requires Next(s, event).ok
    ensures Next(s, event).running[call] ==
      s.running[call] + (if event == ToolStart(call, false) then 1 else 0) - (if event == ToolEnd(call, false) then 1 else 0)
  {
  }

  /** An event appended later changes nothing about the ones before. */
  lemma {:induction false} AppendKeeps(start: Agent, trace: seq<Event>, event: Event, k: nat)
    requires k <= |trace|
    ensures StandAt(trace + [event], k) == StandAt(trace, k)
    ensures Reduced(start, trace + [event], k) == Reduced(start, trace, k)
    ensures Ends(trace + [event], k) == Ends(trace, k)
  {
    if k > 0 { AppendKeeps(start, trace, event, k - 1); }
  }

  /** What one more event does. */
  lemma AppendSteps(start: Agent, trace: seq<Event>, event: Event)
    ensures StandAt(trace + [event], |trace| + 1) == Next(StandAt(trace, |trace|), event)
    ensures Reduced(start, trace + [event], |trace| + 1) == Reduce(Reduced(start, trace, |trace|), event)
    ensures Ends(trace + [event], |trace| + 1) ==
      Ends(trace, |trace|) + (if event.MessageEnd? then [event.message] else [])
  {
    AppendKeeps(start, trace, event, |trace|);
    assert (trace + [event])[|trace|] == event;
  }

  // ------------------------------------------------------------- meaning

  lemma {:induction false} StaysOk(trace: seq<Event>, i: nat, k: nat)
    requires i <= k <= |trace| && StandAt(trace, k).ok
    ensures StandAt(trace, i).ok
    ensures StandAt(trace, i).place.Over? ==> i == k
    ensures StandAt(trace, i).place.Unstarted? <==> i == 0
    decreases k - i
  {
    if i < k {
      var before := StandAt(trace, k - 1);
      assert StandAt(trace, k) == Next(before, trace[k - 1]);
      NextFields(before, trace[k - 1]);
      StaysOk(trace, i, k - 1);
    }
  }

  /** The payloads of the MessageEnd events, in order. */
  function Ends(trace: seq<Event>, k: nat): seq<Message>
    requires k <= |trace|
  {
    if k == 0 then []
    else if trace[k - 1].MessageEnd? then Ends(trace, k - 1) + [trace[k - 1].message]
    else Ends(trace, k - 1)
  }

  /** The start of a run is its first event, and no other. */
  lemma OneAgentStart(trace: seq<Event>, i: nat)
    requires StandOf(trace).ok && i < |trace|
    ensures trace[i].AgentStart? <==> i == 0
  {
    StaysOk(trace, i + 1, |trace|);
    StaysOk(trace, i, |trace|);
  }

  lemma SpeakingStep(trace: seq<Event>, i: nat)
    requires 0 < i <= |trace| && StandAt(trace, i).ok && StandAt(trace, i).place.Speaking?
    ensures trace[i - 1].MessageStart? || (trace[i - 1].MessageUpdate? && StandAt(trace, i - 1).ok && StandAt(trace, i - 1).place.Speaking?)
  {
    NextFields(StandAt(trace, i - 1), trace[i - 1]);
  }

  lemma {:induction false} SpeakingSince(trace: seq<Event>, i: nat) returns (j: nat)
    requires i <= |trace| && StandAt(trace, i).ok && StandAt(trace, i).place.Speaking?
    ensures j < i && trace[j].MessageStart? && forall k | j < k < i :: trace[k].MessageUpdate?
    decreases i
  {
    SpeakingStep(trace, i);
    j := i - 1;
    if !trace[i - 1].MessageStart? {
      j := SpeakingSince(trace, i - 1);
    }
  }

  /** The end of a message has its start before it, and only updates between. */
  lemma MessageHasStart(trace: seq<Event>, i: nat)
    requires StandOf(trace).ok && i < |trace| && trace[i].MessageEnd?
    ensures exists j :: 0 <= j < i && trace[j].MessageStart? && forall k | j < k < i :: trace[k].MessageUpdate?
  {
    StaysOk(trace, i + 1, |trace|);
    StaysOk(trace, i, |trace|);
    var j := SpeakingSince(trace, i);
  }

  /** The end of a run is its last event. */
  lemma OneAgentEnd(trace: seq<Event>, i: nat)
    requires StandOf(trace).ok && i < |trace| && trace[i].AgentEnd?
    ensures i == |trace| - 1
  {
    StaysOk(trace, i + 1, |trace|);
  }

  /** The reducer's transcript is what it started with and those payloads. */
  lemma {:induction false} TranscriptIsEnds(start: Agent, trace: seq<Event>, k: nat)
    requires k <= |trace|
    ensures Reduced(start, trace, k).messages == start.messages + Ends(trace, k)
  {
    if k > 0 { TranscriptIsEnds(start, trace, k - 1); }
  }

  ghost predicate PendingRun(agent: Agent, s: Stand) {
    forall call | call in agent.pendingCalls :: call in s.running
  }

  lemma NextPending(agent: Agent, s: Stand, event: Event)
    requires PendingRun(agent, s)
    ensures PendingRun(Reduce(agent, event), Next(s, event))
  {
  }

  /** The reducer's pending calls are among those that run. */
  lemma {:induction false} PendingRuns(start: Agent, trace: seq<Event>, k: nat)
    requires start.pendingCalls == {} && k <= |trace|
    ensures PendingRun(Reduced(start, trace, k), StandAt(trace, k))
  {
    if k == 0 {
      assert Reduced(start, trace, k) == start;
    } else {
      PendingRuns(start, trace, k - 1);
      NextPending(Reduced(start, trace, k - 1), StandAt(trace, k - 1), trace[k - 1]);
    }
  }

  lemma TurnEndsAt(trace: seq<Event>, i: nat)
    requires StandOf(trace).ok && i < |trace| && trace[i].TurnEnd?
    ensures StandAt(trace, i).running == multiset{}
  {
    StaysOk(trace, i + 1, |trace|);
  }

  lemma NoneRunNonePend(agent: Agent, s: Stand)
    requires PendingRun(agent, s) && s.running == multiset{}
    ensures agent.pendingCalls == {}
  {
  }

  /** At the end of every turn the reducer has no pending call. */
  lemma NothingPendingAtTurnEnd(start: Agent, trace: seq<Event>, i: nat)
    requires start.pendingCalls == {} && StandOf(trace).ok && i < |trace| && trace[i].TurnEnd?
    ensures Reduced(start, trace, i).pendingCalls == {}
  {
    TurnEndsAt(trace, i);
    PendingRuns(start, trace, i);
    NoneRunNonePend(Reduced(start, trace, i), StandAt(trace, i));
  }

  lemma {:induction false} OpenUntilTurnEnd(trace: seq<Event>, i: nat, j: nat)
    requires i <= j <= |trace| && StandAt(trace, i).open && !StandAt(trace, j).open
    ensures exists k :: i <= k < j && trace[k].TurnEnd?
    decreases j - i
  {
    NextFields(StandAt(trace, j - 1), trace[j - 1]);
    if StandAt(trace, j - 1).open {
      assert trace[j - 1].TurnEnd?;
    } else {
      OpenUntilTurnEnd(trace, i, j - 1);
    }
  }

  lemma TurnStartsAt(trace: seq<Event>, j: nat)
    requires StandOf(trace).ok && j < |trace| && trace[j].TurnStart?
    ensures !StandAt(trace, j).open && StandAt(trace, j + 1).open
  {
    StaysOk(trace, j + 1, |trace|);
  }

  /** Between two starts of turns lies the end of one. */
  lemma TurnsAlternate(trace: seq<Event>, i: nat, j: nat)
    requires StandOf(trace).ok && i < j < |trace| && trace[i].TurnStart? && trace[j].TurnStart?
    ensures exists k :: i < k < j && trace[k].TurnEnd?
  {
    TurnStartsAt(trace, i);
    TurnStartsAt(trace, j);
    OpenUntilTurnEnd(trace, i + 1, j);
  }

  /** How often an event occurs among the first `k`. */
  function Count(trace: seq<Event>, event: Event, k: nat): nat
    requires k <= |trace|
  {
    if k == 0 then 0 else Count(trace, event, k - 1) + (if trace[k - 1] == event then 1 else 0)
  }

  lemma CountsStep(trace: seq<Event>, call: CallId, k: nat)
    requires 0 < k <= |trace| && StandAt(trace, k).ok
    ensures StandAt(trace, k - 1).ok
    ensures StandAt(trace, k).running[call] == StandAt(trace, k - 1).running[call]
      + (if trace[k - 1] == ToolStart(call, false) then 1 else 0) - (if trace[k - 1] == ToolEnd(call, false) then 1 else 0)
  {
    NextFields(StandAt(trace, k - 1), trace[k - 1]);
    NextCounts(StandAt(trace, k - 1), trace[k - 1], call);
  }

  lemma CountSteps(trace: seq<Event>, event: Event, k: nat)
    requires 0 < k <= |trace|
    ensures Count(trace, event, k) == Count(trace, event, k - 1) + (if trace[k - 1] == event then 1 else 0)
  {
  }

  lemma {:induction false} RunningCounts(trace: seq<Event>, call: CallId, k: nat)
    requires k <= |trace| && StandAt(trace, k).ok
    ensures StandAt(trace, k).running[call] == Count(trace, ToolStart(call, false), k) - Count(trace, ToolEnd(call, false), k)
  {
    var started, ended := ToolStart(call, false), ToolEnd(call, false);
    if k == 0 {
      assert StandAt(trace, 0).running == multiset{};
    } else {
      CountsStep(trace, call, k);
      CountSteps(trace, started, k);
      CountSteps(trace, ended, k);
      RunningCounts(trace, call, k - 1);
    }
  }

  /** Each start has its own end after it: never more ends than starts, and as
      many when the run is over. */
  lemma StartsAreEnded(trace: seq<Event>, call: CallId, k: nat)
    requires StandOf(trace).ok && k <= |trace|
    ensures Count(trace, ToolEnd(call, false), k) <= Count(trace, ToolStart(call, false), k)
    ensures StandOf(trace).place.Over? ==>
      Count(trace, ToolEnd(call, false), |trace|) == Count(trace, ToolStart(call, false), |trace|)
  {
    StaysOk(trace, k, |trace|);
    RunningCounts(trace, call, k);
    RunningCounts(trace, call, |trace|);
    if StandOf(trace).place.Over? {
      StaysOk(trace, |trace| - 1, |trace|);
    }
  }

  // -------------------------------------------------------------- payloads

  /** A turn's end carries its reply and the results that came after it, the
      run's end all messages. */
  ghost predicate PayloadOk(event: Event, ends: seq<Message>) {
    match event
    case TurnEnd(m, results) =>
      |ends| > |results| && ends[|ends| - |results|..] == results && ends[|ends| - |results| - 1] == m
    case AgentEnd(ms) => ms == ends
    case _ => true
  }

  ghost predicate PayloadsOk(trace: seq<Event>) {
    forall i | 0 <= i < |trace| :: PayloadOk(trace[i], Ends(trace, i))
  }

  lemma PayloadsNext(trace: seq<Event>, event: Event)
    requires PayloadsOk(trace) && PayloadOk(event, Ends(trace, |trace|))
    ensures PayloadsOk(trace + [event])
  {
    forall i | 0 <= i < |trace + [event]| ensures PayloadOk((trace + [event])[i], Ends(trace + [event], i)) {
      AppendKeeps(Agent([], {}, None), trace, event, i);
      assert (trace + [event])[i] == if i < |trace| then trace[i] else event;
    }
  }

  /** Everything above in one pass over the trace. */
  datatype Reading = Reading(stand: Stand, ends: seq<Message>, agent: Agent, payloadsOk: bool)

  ghost function Read(r: Reading, event: Event): Reading {
    Reading(Next(r.stand, event), r.ends + (if event.MessageEnd? then [event.message] else []), Reduce(r.agent, event),
            r.payloadsOk && PayloadOk(event, r.ends))
  }

  ghost function ReadingOf(start: Agent, trace: seq<Event>): Reading {
    if trace == [] then Reading(START, [], start, true)
    else Read(ReadingOf(start, trace[..|trace| - 1]), trace[|trace| - 1])
  }

  /** `r` is what the whole trace says. */
  ghost predicate Tells(start: Agent, trace: seq<Event>, r: Reading) {
    forall u | Unfold(u) && u == Part :: r == ReadingOf(start, trace)
  }

  lemma TellsNothing(start: Agent)
    ensures Tells(start, [], Reading(START, [], start, true))
  {
  }

  lemma TellsNext(start: Agent, trace: seq<Event>, r: Reading, event: Event)
    requires Tells(start, trace, r)
    ensures Tells(start, trace + [event], Read(r, event))
  {
    assert Unfold(Part);
    assert (trace + [event])[..|trace|] == trace;
  }

  /** One pass finds what the definitions say. */
  lemma {:induction false} ReadingIs(start: Agent, trace: seq<Event>)
    ensures var r := ReadingOf(start, trace);
      && r.stand == StandOf(trace) && r.ends == Ends(trace, |trace|) && r.agent == Reduced(start, trace, |trace|)
      && (r.payloadsOk ==> PayloadsOk(trace))
  {
    if trace != [] {
      var front, event := trace[..|trace| - 1], trace[|trace| - 1];
      ReadingIs(start, front);
      assert trace == front + [event];
      AppendSteps(start, front, event);
      if ReadingOf(start, trace).payloadsOk { PayloadsNext(front, event); }
    }
  }

  lemma TellsAll(start: Agent, trace: seq<Event>, r: Reading)
    requires Tells(start, trace, r)
    ensures r.stand == StandOf(trace) && r.ends == Ends(trace, |trace|) && r.agent == Reduced(start, trace, |trace|)
    ensures r.payloadsOk ==> PayloadsOk(trace)
  {
    assert Unfold(Part);
    ReadingIs(start, trace);
  }

  /** What the events of a finished run promise: it ends once, with all its
      messages, as it starts once; every message's end has its start before it;
      the reducer's messages are those that ended; a turn's end leaves nothing
      pending and separates it from the next; every call that starts ends. */
  ghost predicate SourcedBy(start: Agent, events: seq<Event>, messages: seq<Message>) {
    && events != [] && events[|events| - 1] == AgentEnd(Ends(events, |events|))
    && (forall i | 0 <= i < |events| - 1 :: !events[i].AgentEnd?)
    && (forall i | 0 <= i < |events| :: events[i].AgentStart? <==> i == 0)
    && (forall i | 0 <= i < |events| && events[i].MessageEnd? ::
          exists j :: 0 <= j < i && events[j].MessageStart? && forall k | j < k < i :: events[k].MessageUpdate?)
    && messages == start.messages + Ends(events, |events|)
    && PayloadsOk(events)
    && (forall i | 0 <= i < |events| && events[i].TurnEnd? :: Reduced(start, events, i).pendingCalls == {})
    && (forall i, j | 0 <= i < j < |events| && events[i].TurnStart? && events[j].TurnStart? ::
          exists k :: i < k < j && events[k].TurnEnd?)
    && (forall call :: Count(events, ToolEnd(call, false), |events|) == Count(events, ToolStart(call, false), |events|))
    && (forall call, k | 0 <= k <= |events| :: Count(events, ToolEnd(call, false), k) <= Count(events, ToolStart(call, false), k))
  }

  lemma OverIsSourcedBy(start: Agent, events: seq<Event>)
    requires StandOf(events).ok && StandOf(events).place.Over? && start.pendingCalls == {} && PayloadsOk(events)
    requires events != [] && events[|events| - 1] == AgentEnd(Ends(events, |events|))
    ensures SourcedBy(start, events, Reduced(start, events, |events|).messages)
  {
    TranscriptIsEnds(start, events, |events|);
    forall i | 0 <= i < |events| - 1 ensures !events[i].AgentEnd? {
      if events[i].AgentEnd? { OneAgentEnd(events, i); }
    }
    forall i | 0 <= i < |events| ensures events[i].AgentStart? <==> i == 0 {
      OneAgentStart(events, i);
    }
    forall i | 0 <= i < |events| && events[i].MessageEnd?
      ensures exists j :: 0 <= j < i && events[j].MessageStart? && forall k | j < k < i :: events[k].MessageUpdate?
    {
      MessageHasStart(events, i);
    }
    forall i | 0 <= i < |events| && events[i].TurnEnd? ensures Reduced(start, events, i).pendingCalls == {} {
      NothingPendingAtTurnEnd(start, events, i);
    }
    forall i, j | 0 <= i < j < |events| && events[i].TurnStart? && events[j].TurnStart?
      ensures exists k :: i < k < j && events[k].TurnEnd?
    {
      TurnsAlternate(events, i, j);
    }
    forall call ensures Count(events, ToolEnd(call, false), |events|) == Count(events, ToolStart(call, false), |events|) {
      StartsAreEnded(events, call, |events|);
    }
    forall call, k | 0 <= k <= |events| ensures Count(events, ToolEnd(call, false), k) <= Count(events, ToolStart(call, false), k) {
      StartsAreEnded(events, call, k);
    }
  }
}
