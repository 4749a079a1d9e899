/** What a run puts into its transcript, entry by entry, and what that says
    about the queued units and the requests. */
module RunLog {
  import opened Wrappers
  import opened Folding
  import opened AgentTrace
  import opened PendingQueue
  import opened ToolChanges

  /** The results answer the first calls of the message, in order and by id;
      all of them unless the run was aborted. */
  ghost predicate Answers(calls: seq<CallId>, results: seq<Message>, aborted: bool) {
    && |results| <= |calls| && (!aborted ==> |results| == |calls|)
    && forall i | 0 <= i < |results| :: results[i].ToolResult? && results[i].call == calls[i]
  }

  /** `Delivered` hands over what a hook prepared and the units drained from
      the queues, `Redeclared` only what the tools of a new context need.
      `Asked` is a request, made of a transcript and the executable tools. */
  datatype Entry =
    | Delivered(prepared: seq<Message>, steering: seq<Unit>, followUp: seq<Unit>, declared: seq<Message>)
    | Redeclared(declared: seq<Message>)
    | Asked(context: Context)
    | Answered(reply: Reply)
    | Resulted(results: seq<Message>, aborted: bool)

  function Payload(entry: Entry): seq<Message>
    requires entry.Delivered?
  {
    Flat(entry.steering) + Flat(entry.followUp)
  }

  /** The books of a run: the messages written, the units that reached them, the
      steering units since the last request, and whether everything was in
      order. */
  datatype Books = Books(ok: bool, oneEach: bool, written: seq<Message>, steered: seq<Unit>, followed: seq<Unit>,
                         inRequest: nat, last: Option<Entry>)

  const EMPTY := Books(true, true, [], [], [], 0, None)

  /** A delivery carries its messages; a request declares the tools the run can
      execute; a reply follows a request, and results answer their reply. */
  ghost predicate EntryOk(last: Option<Entry>, entry: Entry) {
    match entry
    case Delivered(prepared, _, _, declared) => Carries(declared, prepared + Payload(entry))
    case Redeclared(declared) => Carries(declared, [])
    case Asked(context) => Declares(context.messages, context.tools)
    case Answered(_) => last.Some? && last.value.Asked?
    case Resulted(results, aborted) => last.Some? && last.value.Answered? && Answers(last.value.reply.calls, results, aborted)
  }

  function Writes(entry: Entry): seq<Message> {
    match entry
    case Delivered(_, _, _, declared) => declared
    case Redeclared(declared) => declared
    case Asked(_) => []
    case Answered(reply) => [FromModel(reply)]
    case Resulted(results, _) => results
  }

  ghost function Enter(books: Books, entry: Entry): Books {
    Books(books.ok && EntryOk(books.last, entry),
          books.oneEach && (entry.Asked? ==> books.inRequest <= 1),
          books.written + Writes(entry),
          books.steered + (if entry.Delivered? then entry.steering else []),
          books.followed + (if entry.Delivered? then entry.followUp else []),
          if entry.Asked? then 0 else books.inRequest + (if entry.Delivered? then |entry.steering| else 0),
          Some(entry))
  }

  ghost function BooksOf(log: seq<Entry>): Books {
    if log == [] then EMPTY else Enter(BooksOf(log[..|log| - 1]), log[|log| - 1])
  }

  /** `books` are the books of the whole log. */
  ghost predicate Keeps(log: seq<Entry>, books: Books) {
    forall u | Unfold(u) && u == Part :: books == BooksOf(log)
  }

  lemma KeepsNothing()
    ensures Keeps([], EMPTY)
  {
  }

  lemma KeepsNext(log: seq<Entry>, books: Books, entry: Entry)
    requires Keeps(log, books)
    ensures Keeps(log + [entry], Enter(books, entry))
  {
    assert Unfold(Part);
    assert (log + [entry])[..|log|] == log;
  }

  // ------------------------------------------------------------- meaning

  datatype Queue = Steering | FollowUp

  function UnitsIn(books: Books, queue: Queue): seq<Unit> {
    if queue.Steering? then books.steered else books.followed
  }

  function UnitsOf(entry: Entry, queue: Queue): seq<Unit> {
    if !entry.Delivered? then [] else if queue.Steering? then entry.steering else entry.followUp
  }

  lemma {:induction false} FlatSplit(units: seq<Unit>, i: nat)
    requires i < |units|
    ensures Flat(units) == Flat(units[..i]) + units[i] + Flat(units[i + 1..])
  {
    if i > 0 {
      FlatSplit(units[1..], i - 1);
      assert units[1..][..i - 1] == units[..i][1..] && units[1..][i - 1] == units[i] && units[1..][i..] == units[i + 1..];
    }
  }

  /** Where in a delivery's payload its `k`th unit of a queue begins. */
  function Offset(entry: Entry, queue: Queue, k: nat): nat
    requires k < |UnitsOf(entry, queue)|
  {
    if queue.Steering? then |Flat(entry.steering[..k])| else |Flat(entry.steering)| + |Flat(entry.followUp[..k])|
  }

  lemma UnitInPayload(entry: Entry, queue: Queue, k: nat)
    requires k < |UnitsOf(entry, queue)|
    ensures Offset(entry, queue, k) + |UnitsOf(entry, queue)[k]| <= |Payload(entry)|
    ensures Payload(entry)[Offset(entry, queue, k)..][..|UnitsOf(entry, queue)[k]|] == UnitsOf(entry, queue)[k]
    ensures queue.Steering? ==> Offset(entry, queue, k) + |UnitsOf(entry, queue)[k]| <= |Flat(entry.steering)|
    ensures queue.FollowUp? ==> Offset(entry, queue, k) >= |Flat(entry.steering)|
  {
    FlatSplit(UnitsOf(entry, queue), k);
  }

  lemma PayloadOrder(entry: Entry, queue: Queue, k: nat, l: nat)
    requires k < l < |UnitsOf(entry, queue)|
    ensures Offset(entry, queue, k) + |UnitsOf(entry, queue)[k]| <= Offset(entry, queue, l)
  {
    var front := UnitsOf(entry, queue)[..l];
    FlatSplit(front, k);
    assert front[..k] == UnitsOf(entry, queue)[..k];
  }

  /** Where among the written messages the `i`th unit of a queue begins. */
  ghost function PlaceOf(log: seq<Entry>, queue: Queue, i: nat): nat
    requires BooksOf(log).ok && i < |UnitsIn(BooksOf(log), queue)|
  {
    var before, entry := BooksOf(log[..|log| - 1]), log[|log| - 1];
    var earlier := |UnitsIn(before, queue)|;
    if i < earlier then PlaceOf(log[..|log| - 1], queue, i)
    else |before.written| + |entry.declared| - |Payload(entry)| + Offset(entry, queue, i - earlier)
  }

  /** The messages from `place` on are those of the unit, but for the tools they
      declare. */
  ghost predicate Stands(written: seq<Message>, place: nat, unit: Unit) {
    place + |unit| <= |written| && SameTexts(written[place..place + |unit|], unit)
  }

  /** Each unit a run has delivered stands in its transcript, whole and in one
      piece. */
  lemma {:induction false} UnitIsWritten(log: seq<Entry>, queue: Queue, i: nat)
    requires BooksOf(log).ok && i < |UnitsIn(BooksOf(log), queue)|
    ensures Stands(BooksOf(log).written, PlaceOf(log, queue, i), UnitsIn(BooksOf(log), queue)[i])
  {
    var front, entry := log[..|log| - 1], log[|log| - 1];
    var earlier := UnitsIn(BooksOf(front), queue);
    EntersUnits(BooksOf(front), entry, queue);
    if i < |earlier| {
      UnitIsWritten(front, queue, i);
      StillWritten(BooksOf(front), entry, PlaceOf(front, queue, i), earlier[i]);
    } else {
      var k := i - |earlier|;
      UnitInDelivery(entry, queue, k);
      NowWritten(BooksOf(front), entry, |entry.declared| - |Payload(entry)| + Offset(entry, queue, k), UnitsOf(entry, queue)[k]);
    }
  }

  lemma EntersUnits(books: Books, entry: Entry, queue: Queue)
    ensures UnitsIn(Enter(books, entry), queue) == UnitsIn(books, queue) + UnitsOf(entry, queue)
  {
  }

  lemma StillWritten(before: Books, entry: Entry, place: nat, unit: Unit)
    requires Stands(before.written, place, unit)
    ensures Stands(Enter(before, entry).written, place, unit)
  {
    assert Enter(before, entry).written[place..place + |unit|] == before.written[place..place + |unit|];
  }

  lemma NowWritten(before: Books, entry: Entry, at: nat, unit: Unit)
    requires Stands(Writes(entry), at, unit)
    ensures Stands(Enter(before, entry).written, |before.written| + at, unit)
  {
    assert Enter(before, entry).written[|before.written| + at..|before.written| + at + |unit|] == Writes(entry)[at..at + |unit|];
  }

  lemma UnitInDelivery(entry: Entry, queue: Queue, k: nat)
    requires k < |UnitsOf(entry, queue)| && Carries(entry.declared, entry.prepared + Payload(entry))
    ensures var at, unit := |entry.declared| - |Payload(entry)| + Offset(entry, queue, k), UnitsOf(entry, queue)[k];
      at >= 0 && Stands(entry.declared, at, unit)
  {
    UnitInPayload(entry, queue, k);
    var unit, offset := UnitsOf(entry, queue)[k], Offset(entry, queue, k);
    assert (entry.prepared + Payload(entry))[|entry.prepared| + offset..][..|unit|] == Payload(entry)[offset..][..|unit|];
    CarriedStands(entry.declared, entry.prepared + Payload(entry), |entry.prepared| + offset, unit);
  }

  lemma CarriedStands(declared: seq<Message>, pending: seq<Message>, at: nat, unit: Unit)
    requires Carries(declared, pending) && at + |unit| <= |pending| && pending[at..][..|unit|] == unit
    ensures Stands(declared, |declared| - |pending| + at, unit)
  {
    var shift := |declared| - |pending|;
    forall j | 0 <= j < |unit| ensures SameText(declared[shift + at..shift + at + |unit|][j], unit[j]) {
      assert pending[at..][..|unit|][j] == pending[at + j];
      assert declared[shift..][at + j] == declared[shift + at + j];
    }
  }

  /** They stand in the order they were drained, one after the other. */
  lemma {:induction false} UnitsKeepOrder(log: seq<Entry>, queue: Queue, i: nat, j: nat)
    requires BooksOf(log).ok && i < j < |UnitsIn(BooksOf(log), queue)|
    ensures PlaceOf(log, queue, i) + |UnitsIn(BooksOf(log), queue)[i]| <= PlaceOf(log, queue, j)
  {
    var before, entry := BooksOf(log[..|log| - 1]), log[|log| - 1];
    var earlier := |UnitsIn(before, queue)|;
    assert UnitsIn(BooksOf(log), queue) == UnitsIn(before, queue) + UnitsOf(entry, queue);
    if j < earlier {
      UnitsKeepOrder(log[..|log| - 1], queue, i, j);
    } else if i < earlier {
      UnitIsWritten(log[..|log| - 1], queue, i);
      UnitInDelivery(entry, queue, j - earlier);
    } else {
      PayloadOrder(entry, queue, i - earlier, j - earlier);
    }
  }

  /** Nor do a steering unit and a follow-up unit overlap. */
  lemma {:induction false} QueuesKeepApart(log: seq<Entry>, i: nat, j: nat)
    requires BooksOf(log).ok && i < |BooksOf(log).steered| && j < |BooksOf(log).followed|
    ensures PlaceOf(log, Steering, i) + |BooksOf(log).steered[i]| <= PlaceOf(log, FollowUp, j)
         || PlaceOf(log, FollowUp, j) + |BooksOf(log).followed[j]| <= PlaceOf(log, Steering, i)
  {
    var front, before, entry := log[..|log| - 1], BooksOf(log[..|log| - 1]), log[|log| - 1];
    assert BooksOf(log).steered == before.steered + UnitsOf(entry, Steering);
    assert BooksOf(log).followed == before.followed + UnitsOf(entry, FollowUp);
    if i < |before.steered| {
      UnitIsWritten(front, Steering, i);
      if j < |before.followed| {
        QueuesKeepApart(front, i, j);
      } else {
        UnitInDelivery(entry, FollowUp, j - |before.followed|);
      }
    } else {
      UnitInDelivery(entry, Steering, i - |before.steered|);
      if j < |before.followed| {
        UnitIsWritten(front, FollowUp, j);
      } else {
        UnitInPayload(entry, Steering, i - |before.steered|);
        UnitInPayload(entry, FollowUp, j - |before.followed|);
      }
    }
  }

  /** Units that stand at these places, one after the other. */
  ghost predicate InOrder(written: seq<Message>, units: seq<Unit>, places: seq<nat>) {
    && |places| == |units|
    && (forall i | 0 <= i < |units| :: Stands(written, places[i], units[i]))
    && forall i, j | 0 <= i < j < |units| :: places[i] + |units[i]| <= places[j]
  }

  /** All units stand among the messages: whole, in order, each in a place of
      its own. */
  ghost predicate Reached(written: seq<Message>, units: seq<Unit>) {
    exists places: seq<nat> :: InOrder(written, units, places)
  }

  lemma DeliveredReached(log: seq<Entry>, queue: Queue)
    requires BooksOf(log).ok
    ensures Reached(BooksOf(log).written, UnitsIn(BooksOf(log), queue))
  {
    var units := UnitsIn(BooksOf(log), queue);
    var places := seq(|units|, i requires 0 <= i < |units| => PlaceOf(log, queue, i));
    forall i | 0 <= i < |units| ensures Stands(BooksOf(log).written, places[i], units[i]) {
      UnitIsWritten(log, queue, i);
    }
    forall i, j | 0 <= i < j < |units| ensures places[i] + |units[i]| <= places[j] {
      UnitsKeepOrder(log, queue, i, j);
    }
    assert InOrder(BooksOf(log).written, units, places);
  }

  /** What the books say of the whole they say of every part. */
  lemma {:induction false} BooksBefore(log: seq<Entry>, k: nat)
    requires k <= |log|
    ensures BooksOf(log).ok ==> BooksOf(log[..k]).ok
    ensures BooksOf(log).oneEach ==> BooksOf(log[..k]).oneEach
    ensures BooksOf(log[..k]).steered <= BooksOf(log).steered
  {
    if k == |log| {
      assert log[..k] == log;
    } else {
      BooksBefore(log[..|log| - 1], k);
      assert log[..|log| - 1][..k] == log[..k];
    }
  }

  lemma EntryAt(log: seq<Entry>, k: nat)
    requires k < |log|
    ensures BooksOf(log[..k + 1]) == Enter(BooksOf(log[..k]), log[k])
  {
    assert log[..k + 1][..k] == log[..k];
  }

  /** Between one request and the next, at most one steering unit came in. */
  lemma OneUnitARequest(log: seq<Entry>, j: nat, k: nat)
    requires BooksOf(log).oneEach && j < k < |log| && log[j].Asked? && log[k].Asked?
    requires forall i | j < i < k :: !log[i].Asked?
    ensures |BooksOf(log[..k]).steered| <= |BooksOf(log[..j]).steered| + 1
  {
    AskedAfterOne(log, k);
    AskedStartsOver(log, j);
    CountedSince(log, j + 1, k);
  }

  lemma AskedAfterOne(log: seq<Entry>, k: nat)
    requires BooksOf(log).oneEach && k < |log| && log[k].Asked?
    ensures BooksOf(log[..k]).inRequest <= 1
  {
    BooksBefore(log, k + 1);
    EntryAt(log, k);
  }

  lemma AskedStartsOver(log: seq<Entry>, j: nat)
    requires j < |log| && log[j].Asked?
    ensures BooksOf(log[..j + 1]).inRequest == 0 && BooksOf(log[..j + 1]).steered == BooksOf(log[..j]).steered
  {
    EntryAt(log, j);
  }

  lemma {:induction false} CountedSince(log: seq<Entry>, j: nat, k: nat)
    requires j <= k <= |log| && forall i | j <= i < k :: !log[i].Asked?
    ensures |BooksOf(log[..k]).steered| - |BooksOf(log[..j]).steered| == BooksOf(log[..k]).inRequest - BooksOf(log[..j]).inRequest
  {
    if j < k {
      CountedSince(log, j, k - 1);
      EntryAt(log, k - 1);
    }
  }

  lemma EntryFollows(log: seq<Entry>, k: nat)
    requires BooksOf(log).ok && k < |log|
    ensures EntryOk(if k == 0 then None else Some(log[k - 1]), log[k])
  {
    BooksBefore(log, k + 1);
    EntryAt(log, k);
    LastIs(log, k);
  }

  lemma LastIs(log: seq<Entry>, k: nat)
    requires k <= |log|
    ensures BooksOf(log[..k]).last == if k == 0 then None else Some(log[k - 1])
  {
    if k > 0 { EntryAt(log, k - 1); }
  }

  /** A reply answers a request. */
  lemma ReplyWasAsked(log: seq<Entry>, k: nat)
    requires BooksOf(log).ok && k < |log| && log[k].Answered?
    ensures k > 0 && log[k - 1].Asked?
  {
    EntryFollows(log, k);
  }

  /** Every request is made with exactly the executable tools declared. */
  lemma RequestDeclaresTools(log: seq<Entry>, k: nat)
    requires BooksOf(log).ok && k < |log| && log[k].Asked?
    ensures Declares(log[k].context.messages, log[k].context.tools)
  {
    EntryFollows(log, k);
  }

  /** Results answer the reply right before them. */
  lemma ResultsAnswerReply(log: seq<Entry>, k: nat)
    requires BooksOf(log).ok && k < |log| && log[k].Resulted?
    ensures k > 0 && log[k - 1].Answered? && Answers(log[k - 1].reply.calls, log[k].results, log[k].aborted)
  {
    EntryFollows(log, k);
  }

  lemma KeepsAll(log: seq<Entry>, books: Books)
    requires Keeps(log, books)
    ensures books == BooksOf(log)
    ensures books.ok ==> Reached(books.written, books.steered) && Reached(books.written, books.followed)
  {
    assert Unfold(Part);
    if books.ok {
      DeliveredReached(log, Steering);
      DeliveredReached(log, FollowUp);
    }
  }
}
