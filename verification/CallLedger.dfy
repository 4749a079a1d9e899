/** A script's calls, as the guest's prelude, the host's ledger, the call book
    and the queues of answers keep them: four places that must agree, or a
    script would be told that it waits on nothing while an answer is due. */
module CallLedger {
  import opened Wrappers
  import opened Folding

  const U32_MAX: nat := 0xffff_ffff
  const MAX_PENDING_CALLS: nat := 1024
  const MAX_PENDING_ARGUMENT_BYTES: nat := 64 * 1024 * 1024

  type CallId = nat

  datatype Delivery = Delivery(id: CallId, number: Option<nat>)

  datatype Verdict = Completed | Exception | Protocol | NeverSettles

  datatype AnswerError = WrongMode | NotWaiting | ClockNotFinite | SequenceUsed

  /** The bytes of the arguments of the calls below `n` that wait. */
  function Total(waiting: map<CallId, nat>, n: nat): nat {
    if n == 0 then 0 else Total(waiting, n - 1) + (if n - 1 in waiting then waiting[n - 1] else 0)
  }

  lemma {:induction false} TotalAdds(waiting: map<CallId, nat>, id: CallId, bytes: nat, n: nat)
    requires id !in waiting
    ensures Total(waiting[id := bytes], n) == Total(waiting, n) + (if id < n then bytes else 0)
  {
    if n > 0 { TotalAdds(waiting, id, bytes, n - 1); }
  }

  lemma {:induction false} TotalDrops(waiting: map<CallId, nat>, id: CallId, n: nat)
    requires id in waiting
    ensures Total(waiting - {id}, n) == Total(waiting, n) - (if id < n then waiting[id] else 0)
  {
    if n > 0 { TotalDrops(waiting, id, n - 1); }
  }

  function Ids(channel: seq<Delivery>): (ids: seq<CallId>)
    ensures |ids| == |channel| && forall i | 0 <= i < |ids| :: ids[i] == channel[i].id
  {
    seq(|channel|, i requires 0 <= i < |channel| => channel[i].id)
  }

  /** The host's side: what it counted, and what it keeps per waiting call. */
  datatype Host = Host(issued: nat, settled: nat, waiting: map<CallId, nat>, total: nat)

  /** The host counts the waiting calls and their bytes within the limits. */
  ghost predicate HostOk(h: Host, nextId: nat) {
    forall u | Unfold(u) && u == Part ::
    && h.issued - h.settled == |h.waiting.Keys| <= MAX_PENDING_CALLS
    && h.total == Total(h.waiting, nextId) <= MAX_PENDING_ARGUMENT_BYTES
    && h.issued == nextId - 1 <= U32_MAX
    && forall id | id in h.waiting :: 1 <= id < nextId
  }

  function IssuedHost(h: Host, id: CallId, bytes: nat): Host {
    Host(h.issued + 1, h.settled, h.waiting[id := bytes], h.total + bytes)
  }

  lemma IssueKeepsHost(h: Host, nextId: nat, bytes: nat)
    requires HostOk(h, nextId) && nextId <= U32_MAX
    requires |h.waiting.Keys| < MAX_PENDING_CALLS && bytes <= MAX_PENDING_ARGUMENT_BYTES - h.total
    ensures h.waiting[nextId := bytes].Keys == h.waiting.Keys + {nextId}
    ensures HostOk(IssuedHost(h, nextId, bytes), nextId + 1)
  {
    assert Unfold(Part);
    TotalAdds(h.waiting, nextId, bytes, nextId);
    assert h.waiting[nextId := bytes].Keys == h.waiting.Keys + {nextId};
  }

  function SettledHost(h: Host, id: CallId): Host
    requires id in h.waiting && h.waiting[id] <= h.total
  {
    Host(h.issued, h.settled + 1, h.waiting - {id}, h.total - h.waiting[id])
  }

  lemma SettleKeepsHost(h: Host, nextId: nat, id: CallId)
    requires HostOk(h, nextId) && id in h.waiting
    ensures h.waiting[id] <= h.total && (h.waiting - {id}).Keys == h.waiting.Keys - {id}
    ensures HostOk(SettledHost(h, id), nextId)
  {
    assert Unfold(Part);
    TotalDrops(h.waiting, id, nextId);
    assert (h.waiting - {id}).Keys == h.waiting.Keys - {id};
  }

  /** Where the answers are: not given yet, sent and not received, or received
      before their turn. `held` are the ids of the last. */
  ghost predicate PlacesOk(pending: set<CallId>, unanswered: set<CallId>, channel: seq<Delivery>,
                           early: map<nat, CallId>, held: multiset<CallId>) {
    forall u | Unfold(u) && u == Part ::
    && multiset(pending) == multiset(unanswered) + multiset(Ids(channel)) + held
    && HeldBack(early, held)
  }

  /** Exactly the early answers are held, one for each call. */
  ghost predicate HeldBack(early: map<nat, CallId>, held: multiset<CallId>) {
    && |held| == |early|
    && (forall n | n in early :: early[n] in held)
    && (forall n, m | n in early && m in early && n != m :: early[n] != early[m])
  }

  /** No result number is used twice. */
  ghost predicate NumbersOk(deterministic: bool, delivered: set<nat>, channel: seq<Delivery>, early: map<nat, CallId>) {
    forall u | Unfold(u) && u == Part ::
    && (forall i | 0 <= i < |channel| :: channel[i].number.Some? == deterministic)
    && (forall i | 0 <= i < |channel| && channel[i].number.Some? ::
          channel[i].number.value in delivered && channel[i].number.value !in early)
    && (forall i, j | 0 <= i < j < |channel| && channel[i].number.Some? :: channel[i].number != channel[j].number)
    && (forall n | n in early :: n in delivered)
    && (!deterministic ==> early == map[])
  }

  lemma AnswerKeepsPlaces(pending: set<CallId>, unanswered: set<CallId>, channel: seq<Delivery>, early: map<nat, CallId>,
                          held: multiset<CallId>, d: Delivery)
    requires PlacesOk(pending, unanswered, channel, early, held) && d.id in unanswered
    ensures PlacesOk(pending, unanswered - {d.id}, channel + [d], early, held)
  {
    assert Unfold(Part);
    assert Ids(channel + [d]) == Ids(channel) + [d.id];
    assert multiset(unanswered - {d.id}) == multiset(unanswered) - multiset{d.id};
  }

  /** An answer on its way is not among those held back. */
  lemma SentIsNotHeld(pending: set<CallId>, unanswered: set<CallId>, channel: seq<Delivery>, early: map<nat, CallId>,
                      held: multiset<CallId>)
    requires PlacesOk(pending, unanswered, channel, early, held) && channel != []
    ensures channel[0].id !in held
  {
    assert Unfold(Part);
    assert channel[0].id == Ids(channel)[0];
    assert channel[0].id in multiset(Ids(channel));
    assert multiset(pending)[channel[0].id] <= 1;
  }

  lemma HoldKeepsPlaces(pending: set<CallId>, unanswered: set<CallId>, channel: seq<Delivery>, early: map<nat, CallId>,
                        held: multiset<CallId>, n: nat)
    requires PlacesOk(pending, unanswered, channel, early, held) && channel != [] && n !in early
    ensures PlacesOk(pending, unanswered, channel[1..], early[n := channel[0].id], held + multiset{channel[0].id})
  {
    assert Unfold(Part);
    var id := channel[0].id;
    SentIsNotHeld(pending, unanswered, channel, early, held);
    EarlyGrows(early, held, n, id, early[n := id]);
    FirstMoves(multiset(pending), multiset(unanswered), Ids(channel), Ids(channel[1..]), held);
  }

  lemma EarlyGrows(early: map<nat, CallId>, held: multiset<CallId>, n: nat, id: CallId, later: map<nat, CallId>)
    requires HeldBack(early, held) && n !in early && id !in held && later == early[n := id]
    ensures HeldBack(later, held + multiset{id})
  {
    assert later.Keys == early.Keys + {n};
  }

  lemma FirstMoves(pending: multiset<CallId>, unanswered: multiset<CallId>, sent: seq<CallId>, rest: seq<CallId>, held: multiset<CallId>)
    requires pending == unanswered + multiset(sent) + held && sent != [] && sent[1..] == rest
    ensures pending == unanswered + multiset(rest) + (held + multiset{sent[0]})
  {
    assert sent == [sent[0]] + rest;
  }

  lemma ApplyKeepsPlaces(pending: set<CallId>, unanswered: set<CallId>, channel: seq<Delivery>, early: map<nat, CallId>,
                         held: multiset<CallId>, n: nat)
    requires PlacesOk(pending, unanswered, channel, early, held) && n in early
    ensures early[n] in pending && |early - {n}| == |early| - 1
    ensures PlacesOk(pending - {early[n]}, unanswered, channel, early - {n}, held - multiset{early[n]})
  {
    assert Unfold(Part);
    var id := early[n];
    assert id in multiset(pending);
    assert multiset(pending - {id}) == multiset(pending) - multiset{id};
    assert (early - {n}).Keys == early.Keys - {n};
  }

  lemma TakeKeepsPlaces(pending: set<CallId>, unanswered: set<CallId>, channel: seq<Delivery>, early: map<nat, CallId>, held: multiset<CallId>)
    requires PlacesOk(pending, unanswered, channel, early, held) && channel != []
    ensures channel[0].id in pending
    ensures PlacesOk(pending - {channel[0].id}, unanswered, channel[1..], early, held)
  {
    assert Unfold(Part);
    var id := channel[0].id;
    assert Ids(channel) == [id] + Ids(channel[1..]);
    assert id in multiset(pending);
    assert multiset(pending - {id}) == multiset(pending) - multiset{id};
  }

  lemma CallKeepsPlaces(pending: set<CallId>, unanswered: set<CallId>, channel: seq<Delivery>, early: map<nat, CallId>,
                        held: multiset<CallId>, id: CallId)
    requires PlacesOk(pending, unanswered, channel, early, held) && id !in pending
    ensures id !in unanswered
    ensures PlacesOk(pending + {id}, unanswered + {id}, channel, early, held)
  {
    assert Unfold(Part);
    assert id !in multiset(pending);
    assert multiset(pending + {id}) == multiset(pending) + multiset{id};
    assert multiset(unanswered + {id}) == multiset(unanswered) + multiset{id};
  }

  /** Nothing pending means no answer anywhere: none to give, none sent, none
      held back. */
  lemma NothingPending(unanswered: set<CallId>, channel: seq<Delivery>, early: map<nat, CallId>, held: multiset<CallId>, pending: set<CallId>)
    requires PlacesOk(pending, unanswered, channel, early, held)
    ensures pending == {} <==> unanswered == {} && channel == [] && early == map[]
  {
    assert Unfold(Part);
    assert |multiset(pending)| == |pending|;
    assert |multiset(unanswered)| == |unanswered|;
    assert |multiset(Ids(channel))| == |channel|;
    assert |multiset(pending)| == |unanswered| + |channel| + |early|;
    assert |early| == 0 ==> early == map[];
  }

  lemma {:induction false} TotalEmpty(n: nat)
    ensures Total(map[], n) == 0
  {
    if n > 0 { TotalEmpty(n - 1); }
  }

  lemma AnswerKeepsNumbers(deterministic: bool, delivered: set<nat>, channel: seq<Delivery>, early: map<nat, CallId>, d: Delivery)
    requires NumbersOk(deterministic, delivered, channel, early) && d.number.Some? == deterministic
    requires d.number.Some? ==> d.number.value !in delivered
    ensures NumbersOk(deterministic, if d.number.Some? then delivered + {d.number.value} else delivered, channel + [d], early)
  {
  }

  lemma TakeKeepsNumbers(deterministic: bool, delivered: set<nat>, channel: seq<Delivery>, early: map<nat, CallId>)
    requires NumbersOk(deterministic, delivered, channel, early) && channel != []
    ensures channel[0].number.Some? == deterministic
    ensures deterministic ==> channel[0].number.value !in early
    ensures NumbersOk(deterministic, delivered, channel[1..],
      if deterministic then early[channel[0].number.value := channel[0].id] else early)
  {
    assert Unfold(Part);
  }

  lemma DropKeepsNumbers(deterministic: bool, delivered: set<nat>, channel: seq<Delivery>, early: map<nat, CallId>, n: nat)
    requires NumbersOk(deterministic, delivered, channel, early)
    ensures NumbersOk(deterministic, delivered, channel, early - {n})
  {
  }

  /** All the places at one moment. */
  datatype Ledger = Ledger(
    deterministic: bool,
    pending: set<CallId>,
    nextId: nat,
    host: Host,
    unanswered: set<CallId>,
    delivered: set<nat>,
    channel: seq<Delivery>,
    early: map<nat, CallId>,
    held: multiset<CallId>
  )

  /** The prelude, the host, the book and the answers on their way agree. */
  ghost predicate LedgerOk(l: Ledger) {
    forall u | Unfold(u) && u == Together ::
      && l.nextId >= 1 && l.pending == l.host.waiting.Keys
      && HostOk(l.host, l.nextId)
      && PlacesOk(l.pending, l.unanswered, l.channel, l.early, l.held)
      && NumbersOk(l.deterministic, l.delivered, l.channel, l.early)
  }

  lemma Apart(l: Ledger)
    requires LedgerOk(l)
    ensures l.nextId >= 1 && l.pending == l.host.waiting.Keys && HostOk(l.host, l.nextId)
    ensures PlacesOk(l.pending, l.unanswered, l.channel, l.early, l.held) && NumbersOk(l.deterministic, l.delivered, l.channel, l.early)
  {
    assert Unfold(Together);
  }

  lemma Combine(l: Ledger)
    requires l.nextId >= 1 && l.pending == l.host.waiting.Keys && HostOk(l.host, l.nextId)
    requires PlacesOk(l.pending, l.unanswered, l.channel, l.early, l.held) && NumbersOk(l.deterministic, l.delivered, l.channel, l.early)
    ensures LedgerOk(l)
  {
  }

  lemma StartOk(deterministic: bool)
    ensures LedgerOk(Ledger(deterministic, {}, 1, Host(0, 0, map[], 0), {}, {}, [], map[], multiset{}))
  {
    assert Ids([]) == [];
    TotalEmpty(1);
  }

  function Issued(l: Ledger, bytes: nat): Ledger {
    l.(pending := l.pending + {l.nextId}, nextId := l.nextId + 1, unanswered := l.unanswered + {l.nextId},
       host := IssuedHost(l.host, l.nextId, bytes))
  }

  /** The next id is new in every place, and the host's counters tell how
      many calls wait. */
  lemma NextIsNew(l: Ledger)
    requires LedgerOk(l)
    ensures l.host.issued - l.host.settled == |l.pending| && l.host.total <= MAX_PENDING_ARGUMENT_BYTES
    ensures l.nextId !in l.pending && l.nextId !in l.unanswered
  {
    assert Unfold(Together) && Unfold(Part);
    CallKeepsPlaces(l.pending, l.unanswered, l.channel, l.early, l.held, l.nextId);
  }

  lemma IssuedHostOk(l: Ledger, bytes: nat)
    requires HostOk(l.host, l.nextId) && l.pending == l.host.waiting.Keys
    requires l.nextId <= U32_MAX && |l.pending| < MAX_PENDING_CALLS && bytes <= MAX_PENDING_ARGUMENT_BYTES - l.host.total
    ensures HostOk(Issued(l, bytes).host, Issued(l, bytes).nextId) && Issued(l, bytes).pending == Issued(l, bytes).host.waiting.Keys
  {
    IssueKeepsHost(l.host, l.nextId, bytes);
  }

  lemma IssuedPlacesOk(l: Ledger, bytes: nat)
    requires PlacesOk(l.pending, l.unanswered, l.channel, l.early, l.held) && l.nextId !in l.pending
    ensures var after := Issued(l, bytes); PlacesOk(after.pending, after.unanswered, after.channel, after.early, after.held)
  {
    CallKeepsPlaces(l.pending, l.unanswered, l.channel, l.early, l.held, l.nextId);
  }

  /** A call within the limits enters every place. */
  lemma IssueKeepsLedger(l: Ledger, bytes: nat)
    requires LedgerOk(l) && l.nextId !in l.pending
    requires l.nextId <= U32_MAX && |l.pending| < MAX_PENDING_CALLS && bytes <= MAX_PENDING_ARGUMENT_BYTES - l.host.total
    ensures LedgerOk(Issued(l, bytes))
  {
    Apart(l);
    IssuedHostOk(l, bytes);
    IssuedPlacesOk(l, bytes);
    Combine(Issued(l, bytes));
  }

  function Sent(l: Ledger, d: Delivery): Ledger {
    l.(unanswered := l.unanswered - {d.id}, channel := l.channel + [d],
       delivered := if d.number.Some? then l.delivered + {d.number.value} else l.delivered)
  }

  lemma SendKeepsLedger(l: Ledger, d: Delivery)
    requires LedgerOk(l) && d.id in l.unanswered && d.number.Some? == l.deterministic
    requires d.number.Some? ==> d.number.value !in l.delivered
    ensures LedgerOk(Sent(l, d))
  {
    assert Unfold(Together);
    AnswerKeepsPlaces(l.pending, l.unanswered, l.channel, l.early, l.held, d);
    AnswerKeepsNumbers(l.deterministic, l.delivered, l.channel, l.early, d);
  }

  /** An answer that is applied as it comes settles its call everywhere. */
  lemma TakeKeepsLedger(l: Ledger)
    requires LedgerOk(l) && l.channel != []
    ensures l.channel[0].number.Some? == l.deterministic
    ensures var id := l.channel[0].id; id in l.pending && id in l.host.waiting && l.host.waiting[id] <= l.host.total
    ensures !l.deterministic ==>
      LedgerOk(l.(channel := l.channel[1..], pending := l.pending - {l.channel[0].id}, host := SettledHost(l.host, l.channel[0].id)))
  {
    assert Unfold(Together);
    TakeKeepsPlaces(l.pending, l.unanswered, l.channel, l.early, l.held);
    TakeKeepsNumbers(l.deterministic, l.delivered, l.channel, l.early);
    SettleKeepsHost(l.host, l.nextId, l.channel[0].id);
  }

  function Held(l: Ledger): Ledger
    requires l.channel != [] && l.channel[0].number.Some?
  {
    l.(channel := l.channel[1..], early := l.early[l.channel[0].number.value := l.channel[0].id],
       held := l.held + multiset{l.channel[0].id})
  }

  lemma HoldKeepsLedger(l: Ledger)
    requires LedgerOk(l) && l.channel != [] && l.channel[0].number.Some?
    ensures LedgerOk(Held(l)) && |Held(l).early| == |l.early| + 1
  {
    assert Unfold(Together);
    TakeKeepsNumbers(l.deterministic, l.delivered, l.channel, l.early);
    HoldKeepsPlaces(l.pending, l.unanswered, l.channel, l.early, l.held, l.channel[0].number.value);
  }

  function Applied(l: Ledger, n: nat): Ledger
    requires n in l.early && l.early[n] in l.host.waiting && l.host.waiting[l.early[n]] <= l.host.total
  {
    l.(early := l.early - {n}, held := l.held - multiset{l.early[n]}, pending := l.pending - {l.early[n]},
       host := SettledHost(l.host, l.early[n]))
  }

  lemma ApplyKeepsLedger(l: Ledger, n: nat)
    requires LedgerOk(l) && n in l.early
    ensures var id := l.early[n]; id in l.pending && id in l.host.waiting && l.host.waiting[id] <= l.host.total
    ensures |l.early - {n}| == |l.early| - 1
    ensures LedgerOk(Applied(l, n))
  {
    assert Unfold(Together);
    ApplyKeepsPlaces(l.pending, l.unanswered, l.channel, l.early, l.held, n);
    DropKeepsNumbers(l.deterministic, l.delivered, l.channel, l.early, n);
    SettleKeepsHost(l.host, l.nextId, l.early[n]);
  }

  /** Nothing pending in the prelude means no answer anywhere: none to give,
      none sent, none held back. */
  lemma NothingAnywhere(l: Ledger)
    requires LedgerOk(l)
    ensures l.pending == {} <==> l.unanswered == {} && l.channel == [] && l.early == map[]
  {
    assert Unfold(Together);
    NothingPending(l.unanswered, l.channel, l.early, l.held, l.pending);
  }

  class Session {
    const deterministic: bool
    // The prelude.
    var pending: set<CallId>
    var nextId: nat
    var finished: bool
    // The host's ledger.
    var host: Host
    // The call book.
    var unanswered: set<CallId>
    var delivered: set<nat>
    var bookFinished: bool
    // The answers on their way.
    var channel: seq<Delivery>
    var early: map<nat, CallId>
    var nextSeq: nat
    ghost var held: multiset<CallId>
    var verdict: Option<Verdict>

    ghost function View(): Ledger
      reads this
    {
      Ledger(deterministic, pending, nextId, host, unanswered, delivered, channel, early, held)
    }

    ghost predicate NoAnswerLeft()
      reads this
    {
      unanswered == {} && channel == [] && early == map[]
    }

    /** The places agree until the run has its verdict, and a run is told that
        it never settles only when no answer is left anywhere. */
    ghost predicate Valid()
      reads this
    {
      && (verdict.None? ==> LedgerOk(View()) && !bookFinished)
      && (verdict == Some(NeverSettles) ==> NoAnswerLeft())
    }

    constructor (deterministic: bool)
      ensures Valid() && verdict.None? && this.deterministic == deterministic
    {
      this.deterministic := deterministic;
      pending, nextId, finished := {}, 1, false;
      host := Host(0, 0, map[], 0);
      unanswered, delivered, bookFinished := {}, {}, false;
      channel, early, nextSeq, held, verdict := [], map[], 1, multiset{}, None;
      new;
      StartOk(deterministic);
    }

    /** The guest calls a tool: the prelude numbers the call, the host checks
        the limits and enters it. A refusal fails the run. */
    method Call(bytes: nat)
      requires Valid() && verdict.None?
      modifies `pending, `nextId, `host, `unanswered, `verdict
      ensures Valid() && (verdict.None? || verdict == Some(Protocol))
      ensures verdict.None? <==>
        old(nextId) <= U32_MAX && |old(pending)| < MAX_PENDING_CALLS && bytes <= MAX_PENDING_ARGUMENT_BYTES - old(host.total)
      ensures verdict.None? ==> View() == Issued(old(View()), bytes)
      ensures host.settled == old(host.settled)
    {
      NextIsNew(View());
      ghost var before := View();
      var id := nextId;
      nextId, pending := nextId + 1, pending + {id};
      if id > U32_MAX || host.issued - host.settled >= MAX_PENDING_CALLS || bytes > MAX_PENDING_ARGUMENT_BYTES - host.total || id in unanswered {
        verdict := Some(Protocol);
        return;
      }
      IssueKeepsLedger(before, bytes);
      unanswered := unanswered + {id};
      host := Host(host.issued + 1, host.settled, host.waiting[id := bytes], host.total + bytes);
      assert View() == Issued(before, bytes);
    }

    /** The owner answers a call of a run that takes answers as they come. */
    method Answer(id: CallId) returns (error: Option<AnswerError>)
      requires Valid()
      modifies `unanswered, `channel
      ensures Valid()
      ensures !bookFinished ==>
        error == (if deterministic then Some(WrongMode) else if id !in old(unanswered) then Some(NotWaiting) else None)
      ensures View() == (if bookFinished || error.Some? then old(View()) else Sent(old(View()), Delivery(id, None)))
    {
      if bookFinished {
        return None;
      }
      if deterministic {
        return Some(WrongMode);
      }
      if id !in unanswered {
        return Some(NotWaiting);
      }
      if verdict.None? {
        SendKeepsLedger(View(), Delivery(id, None));
      }
      unanswered, channel := unanswered - {id}, channel + [Delivery(id, None)];
      return None;
    }

    /** The owner answers a call as result `number`. */
    method AnswerInOrder(number: nat, finite: bool, id: CallId) returns (error: Option<AnswerError>)
      requires Valid()
      modifies `unanswered, `channel, `delivered
      ensures Valid()
      ensures !bookFinished ==>
        error == (if !deterministic then Some(WrongMode)
                  else if !finite then Some(ClockNotFinite)
                  else if number == 0 || number in old(delivered) then Some(SequenceUsed)
                  else if id !in old(unanswered) then Some(NotWaiting)
                  else None)
      ensures View() == (if bookFinished || error.Some? then old(View()) else Sent(old(View()), Delivery(id, Some(number))))
    {
      if bookFinished {
        return None;
      }
      if !deterministic {
        return Some(WrongMode);
      }
      if !finite {
        return Some(ClockNotFinite);
      }
      if number == 0 || number in delivered {
        return Some(SequenceUsed);
      }
      if id !in unanswered {
        return Some(NotWaiting);
      }
      if verdict.None? {
        SendKeepsLedger(View(), Delivery(id, Some(number)));
      }
      delivered := delivered + {number};
      unanswered, channel := unanswered - {id}, channel + [Delivery(id, Some(number))];
      return None;
    }

    /** The script runs until it waits: it may make calls and may end. */
    method RunScript()
      requires Valid() && verdict.None?
      modifies `pending, `nextId, `host, `unanswered, `verdict, `finished
      ensures Valid() && verdict != Some(NeverSettles)
      ensures verdict.None? ==> finished == old(finished)
      ensures host.settled == old(host.settled)
    {
      var calls: nat := *;
      while calls > 0 && verdict.None?
        invariant Valid() && (verdict.None? || verdict == Some(Protocol)) && finished == old(finished)
        invariant host.settled == old(host.settled)
      {
        var bytes: nat := *;
        Call(bytes);
        calls := calls - 1;
      }
      var ends: bool, ok: bool := *, *;
      if ends && verdict.None? && !finished {
        finished := true;
        verdict := Some(if ok then Completed else Exception);
      }
    }

    /** The queued jobs, then the check for a script that waits on nothing. The
        verdict is never wrong, and never missed. */
    method Drain()
      requires Valid() && verdict.None?
      modifies `pending, `nextId, `host, `unanswered, `verdict, `finished
      ensures Valid()
      ensures verdict == Some(NeverSettles) ==> NoAnswerLeft()
      ensures verdict.None? && !finished ==> !NoAnswerLeft()
      ensures host.settled == old(host.settled)
    {
      RunScript();
      if verdict.None? {
        NothingAnywhere(View());
        if !finished && pending == {} {
          finished := true;
          verdict := Some(NeverSettles);
        }
      }
    }

    /** The host settles a call; the prelude resolves its promise. */
    method Settle(id: CallId)
      requires id in host.waiting && host.waiting[id] <= host.total
      modifies `host, `pending
      ensures host == SettledHost(old(host), id) && pending == old(pending) - {id}
    {
      host := Host(host.issued, host.settled + 1, host.waiting - {id}, host.total - host.waiting[id]);
      pending := pending - {id};
    }

    /** An answer that has a number waits for its turn. */
    method Keep()
      requires Valid() && verdict.None? && channel != [] && channel[0].number.Some?
      modifies `channel, `early, `held
      ensures Valid() && channel == old(channel)[1..] && |early| == |old(early)| + 1
      ensures early == old(early)[old(channel)[0].number.value := old(channel)[0].id]
    {
      HoldKeepsLedger(View());
      var delivery := channel[0];
      held := held + multiset{delivery.id};
      early, channel := early[delivery.number.value := delivery.id], channel[1..];
    }

    /** An answer without one is applied as it comes. */
    method Take()
      requires Valid() && verdict.None? && channel != [] && channel[0].number.None?
      modifies `channel, `host, `pending
      ensures Valid() && channel == old(channel)[1..] && host.settled == old(host.settled) + 1
      ensures pending == old(pending) - {old(channel)[0].id}
    {
      TakeKeepsLedger(View());
      Settle(channel[0].id);
      channel := channel[1..];
    }

    method ApplyNext()
      requires Valid() && verdict.None? && nextSeq in early
      modifies `host, `pending, `held, `early, `nextSeq
      ensures Valid() && |early| == |old(early)| - 1
      ensures early == old(early) - {old(nextSeq)} && host.settled == old(host.settled) + 1
      ensures pending == old(pending) - {old(early)[old(nextSeq)]}
      ensures nextSeq == if old(nextSeq) < U32_MAX then old(nextSeq) + 1 else U32_MAX
    {
      var id := early[nextSeq];
      ghost var before := View();
      ApplyKeepsLedger(before, nextSeq);
      Settle(id);
      held, early := held - multiset{id}, early - {nextSeq};
      assert View() == Applied(before, nextSeq);
      nextSeq := if nextSeq < U32_MAX then nextSeq + 1 else U32_MAX;
    }

    /** The VM takes one answer. Out of turn it is kept; else it is applied,
        with those it was keeping back, and the script runs after each. */
    method Receive()
      requires Valid() && verdict.None? && channel != []
      modifies this
      ensures Valid() && channel == old(channel)[1..]
      ensures old(channel)[0].number.None? ==> host.settled == old(host.settled) + 1
      ensures old(channel)[0].number.Some? ==>
        host.settled == old(host.settled) + 1 + |old(early)| - |early| && (verdict.None? ==> nextSeq !in early)
    {
      if channel[0].number.None? {
        Take();
        Drain();
        return;
      }
      Keep();
      while verdict.None? && nextSeq in early
        invariant Valid() && channel == old(channel)[1..]
        invariant host.settled == old(host.settled) + 1 + |old(early)| - |early|
        decreases |early|
      {
        ApplyNext();
        Drain();
      }
    }

    /** The thread has decided; later answers are ignored. */
    method CloseBook()
      requires Valid() && verdict.Some?
      modifies `bookFinished
      ensures Valid() && bookFinished
    {
      bookFinished := true;
    }
  }

  /** Any run: the script, the owner and the VM in any order. A script that is
      told it can never go on has no answer left anywhere. */
  method Interleave(deterministic: bool, steps: nat) returns (s: Session)
    ensures s.Valid() && (s.verdict == Some(NeverSettles) ==> s.NoAnswerLeft())
  {
    s := new Session(deterministic);
    s.Drain();
    var i := 0;
    while i < steps
      invariant s.Valid()
    {
      var choice: nat, id: nat, number: nat, finite: bool := *, *, *, *;
      match choice {
        case 0 => var _ := s.Answer(id);
        case 1 => var _ := s.AnswerInOrder(number, finite, id);
        case 2 => if s.verdict.None? && s.channel != [] { s.Receive(); }
        case _ => if s.verdict.Some? { s.CloseBook(); }
      }
      i := i + 1;
    }
  }
}
