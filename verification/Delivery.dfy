/** Deterministic delivery: answers are applied by number alone, so that their
    arrival order leaves no trace. The guest is any deterministic function. */
module Delivery {
  const U32_MAX: nat := 0xffff_ffff

  datatype Answer = Answer(id: nat, payload: nat, now: real)

  /** The guest's state after an answer, with the clock it then reads, and how
      many calls it has issued. */
  datatype Guest<!S> = Guest(step: (S, Answer, real) -> S, issued: S -> nat)

  /** The answers 1 to `k` have all been accepted. */
  ghost predicate HasRun(accepted: map<nat, Answer>, k: nat) {
    forall i | 1 <= i <= k :: i in accepted
  }

  /** `k` is the length of the longest run 1, 2, ... without a gap. */
  ghost predicate IsLongestRun(accepted: map<nat, Answer>, k: nat) {
    HasRun(accepted, k) && k + 1 !in accepted
  }

  lemma LongestIsUnique(accepted: map<nat, Answer>, j: nat, k: nat)
    requires IsLongestRun(accepted, j) && IsLongestRun(accepted, k)
    ensures j == k
  {
  }

  /** The clock at answer `k`: never backwards. */
  function ClockAt(startedAt: real, accepted: map<nat, Answer>, k: nat): real
    requires forall i | 1 <= i <= k :: i in accepted
  {
    if k == 0 then startedAt
    else
      var before := ClockAt(startedAt, accepted, k - 1);
      if before < accepted[k].now then accepted[k].now else before
  }

  function StateAt<S>(guest: Guest<S>, start: S, startedAt: real, accepted: map<nat, Answer>, k: nat): S
    requires forall i | 1 <= i <= k :: i in accepted
  {
    if k == 0 then start
    else guest.step(StateAt(guest, start, startedAt, accepted, k - 1), accepted[k], ClockAt(startedAt, accepted, k))
  }

  /** An Idle event after each answer: its number and the calls issued. */
  function IdlesAt<S>(guest: Guest<S>, start: S, startedAt: real, accepted: map<nat, Answer>, k: nat): seq<(nat, nat)>
    requires forall i | 1 <= i <= k :: i in accepted
  {
    if k == 0 then [(0, guest.issued(start))]
    else
      IdlesAt(guest, start, startedAt, accepted, k - 1) + [(k, guest.issued(StateAt(guest, start, startedAt, accepted, k)))]
  }

  lemma {:induction false} ClockIsLatest(startedAt: real, accepted: map<nat, Answer>, k: nat)
    requires HasRun(accepted, k)
    ensures ClockAt(startedAt, accepted, k) >= startedAt
    ensures forall i | 1 <= i <= k :: ClockAt(startedAt, accepted, k) >= accepted[i].now
    ensures ClockAt(startedAt, accepted, k) == startedAt || exists i :: 1 <= i <= k && ClockAt(startedAt, accepted, k) == accepted[i].now
  {
    if k > 0 { ClockIsLatest(startedAt, accepted, k - 1); }
  }

  /** The Idle events are numbered 0 to `k`. */
  lemma {:induction false} IdlesAreNumbered<S>(guest: Guest<S>, start: S, startedAt: real, accepted: map<nat, Answer>, k: nat)
    requires HasRun(accepted, k)
    ensures |IdlesAt(guest, start, startedAt, accepted, k)| == k + 1
    ensures forall i | 0 <= i <= k :: IdlesAt(guest, start, startedAt, accepted, k)[i].0 == i
  {
    if k > 0 { IdlesAreNumbered(guest, start, startedAt, accepted, k - 1); }
  }

  /** A later answer changes nothing that was already applied. */
  lemma {:induction false} LaterAnswerKeeps<S>(guest: Guest<S>, start: S, startedAt: real, accepted: map<nat, Answer>,
                                               number: nat, answer: Answer, k: nat)
    requires HasRun(accepted, k) && number !in accepted
    ensures HasRun(accepted[number := answer], k)
    ensures ClockAt(startedAt, accepted[number := answer], k) == ClockAt(startedAt, accepted, k)
    ensures StateAt(guest, start, startedAt, accepted[number := answer], k) == StateAt(guest, start, startedAt, accepted, k)
    ensures IdlesAt(guest, start, startedAt, accepted[number := answer], k) == IdlesAt(guest, start, startedAt, accepted, k)
  {
    if k > 0 { LaterAnswerKeeps(guest, start, startedAt, accepted, number, answer, k - 1); }
  }

  class Driver<!S> {
    const guest: Guest<S>
    const start: S
    const startedAt: real
    var state: S
    var clock: real
    var early: map<nat, Answer>
    var nextSeq: nat
    var currentSeq: nat
    ghost var accepted: map<nat, Answer>
    ghost var idles: seq<(nat, nat)>

    /** The first `currentSeq` answers are applied and the others kept. */
    ghost predicate Applied()
      reads this
    {
      && currentSeq <= U32_MAX && nextSeq == (if currentSeq < U32_MAX then currentSeq + 1 else U32_MAX)
      && (forall i | i in accepted :: 1 <= i <= U32_MAX)
      && (forall i | 1 <= i <= currentSeq :: i in accepted)
      && (forall i :: i in early <==> i in accepted && i > currentSeq)
      && (forall i | i in early :: early[i] == accepted[i])
      && clock == ClockAt(startedAt, accepted, currentSeq)
      && state == StateAt(guest, start, startedAt, accepted, currentSeq)
      && idles == IdlesAt(guest, start, startedAt, accepted, currentSeq)
    }

    /** Nothing that could be applied is waiting. */
    ghost predicate Valid()
      reads this
    {
      Applied() && IsLongestRun(accepted, currentSeq)
    }

    constructor (guest: Guest<S>, start: S, startedAt: real)
      ensures Valid() && accepted == map[]
      ensures this.guest == guest && this.start == start && this.startedAt == startedAt
    {
      this.guest, this.start, this.startedAt := guest, start, startedAt;
      state, clock, early, nextSeq, currentSeq := start, startedAt, map[], 1, 0;
      accepted, idles := map[], [(0, guest.issued(start))];
    }

    /** One command: keep the answer, then apply what is next, while there is. */
    method Receive(number: nat, answer: Answer)
      requires Valid() && 1 <= number <= U32_MAX && number !in accepted
      modifies this
      ensures Valid() && accepted == old(accepted)[number := answer]
    {
      LaterAnswerKeeps(guest, start, startedAt, accepted, number, answer, currentSeq);
      early, accepted := early[number := answer], accepted[number := answer];
      while nextSeq in early
        invariant Applied() && accepted == old(accepted)[number := answer]
        decreases U32_MAX - currentSeq
      {
        ApplyNext();
      }
    }

    method ApplyNext()
      requires Applied() && nextSeq in early
      modifies this
      ensures Applied() && accepted == old(accepted) && currentSeq == old(currentSeq) + 1
    {
      var answer := early[nextSeq];
      early := early - {nextSeq};
      if clock < answer.now {
        clock := answer.now;
      }
      currentSeq := nextSeq;
      state := guest.step(state, answer, clock);
      idles := idles + [(nextSeq, guest.issued(state))];
      nextSeq := if nextSeq < U32_MAX then nextSeq + 1 else U32_MAX;
    }
  }

  /** A run is the same whatever order its answers came in. */
  lemma OrderDoesNotMatter<S>(a: Driver<S>, b: Driver<S>)
    requires a.Valid() && b.Valid() && a.accepted == b.accepted
    requires a.guest == b.guest && a.start == b.start && a.startedAt == b.startedAt
    ensures a.currentSeq == b.currentSeq && a.state == b.state && a.clock == b.clock && a.idles == b.idles && a.early == b.early
  {
    LongestIsUnique(a.accepted, a.currentSeq, b.currentSeq);
    assert a.early == b.early;
  }

  /** The answers of an arrival order. */
  function Accepted(arrivals: seq<(nat, Answer)>): map<nat, Answer> {
    if arrivals == [] then map[]
    else Accepted(arrivals[..|arrivals| - 1])[arrivals[|arrivals| - 1].0 := arrivals[|arrivals| - 1].1]
  }

  ghost predicate DistinctNumbers(arrivals: seq<(nat, Answer)>) {
    forall i, j | 0 <= i < j < |arrivals| :: arrivals[i].0 != arrivals[j].0
  }

  lemma {:induction false} AcceptedMeans(arrivals: seq<(nat, Answer)>)
    requires DistinctNumbers(arrivals)
    ensures forall n, a :: n in Accepted(arrivals) && Accepted(arrivals)[n] == a <==> (n, a) in arrivals
  {
    if arrivals != [] {
      var front, last := arrivals[..|arrivals| - 1], arrivals[|arrivals| - 1];
      AcceptedMeans(front);
      assert arrivals == front + [last];
      forall n, a ensures n in Accepted(arrivals) && Accepted(arrivals)[n] == a <==> (n, a) in arrivals {
        assert (n, a) in arrivals <==> (n, a) in front || (n, a) == last;
      }
    }
  }

  lemma {:induction false} AcceptedKeys(arrivals: seq<(nat, Answer)>)
    ensures forall n | n in Accepted(arrivals) :: exists k :: 0 <= k < |arrivals| && arrivals[k].0 == n
  {
    if arrivals != [] {
      var front := arrivals[..|arrivals| - 1];
      AcceptedKeys(front);
      assert forall k | 0 <= k < |front| :: front[k] == arrivals[k];
      forall n | n in Accepted(arrivals) ensures exists k :: 0 <= k < |arrivals| && arrivals[k].0 == n {
        if n in Accepted(front) {
          var k :| 0 <= k < |front| && front[k].0 == n;
          assert arrivals[k].0 == n;
        } else {
          assert arrivals[|arrivals| - 1].0 == n;
        }
      }
    }
  }

  lemma SameAnswersSameMap(a: seq<(nat, Answer)>, b: seq<(nat, Answer)>)
    requires DistinctNumbers(a) && DistinctNumbers(b) && multiset(a) == multiset(b)
    ensures Accepted(a) == Accepted(b)
  {
    AcceptedMeans(a);
    AcceptedMeans(b);
    forall x ensures x in a <==> x in b {
      assert x in a <==> x in multiset(a);
    }
    forall n ensures n in Accepted(a) <==> n in Accepted(b) {
      if n in Accepted(a) { assert (n, Accepted(a)[n]) in b; }
      if n in Accepted(b) { assert (n, Accepted(b)[n]) in a; }
    }
    forall n | n in Accepted(a) ensures Accepted(a)[n] == Accepted(b)[n] {
      assert (n, Accepted(a)[n]) in b;
    }
  }

  /** All answers of an arrival order, one command at a time: what was applied
      is the longest run without a gap of the answers, once each. */
  method DeliverAll<S>(guest: Guest<S>, start: S, startedAt: real, arrivals: seq<(nat, Answer)>) returns (driver: Driver<S>)
    requires DistinctNumbers(arrivals) && forall i | 0 <= i < |arrivals| :: 1 <= arrivals[i].0 <= U32_MAX
    ensures driver.Valid() && driver.accepted == Accepted(arrivals)
    ensures driver.guest == guest && driver.start == start && driver.startedAt == startedAt
  {
    driver := new Driver<S>(guest, start, startedAt);
    var i := 0;
    assert arrivals[..0] == [];
    while i < |arrivals|
      invariant 0 <= i <= |arrivals| && driver.Valid() && driver.accepted == Accepted(arrivals[..i])
      invariant driver.guest == guest && driver.start == start && driver.startedAt == startedAt
    {
      NextAccepted(arrivals, i);
      driver.Receive(arrivals[i].0, arrivals[i].1);
      i := i + 1;
    }
    assert arrivals[..i] == arrivals;
  }

  lemma NextAccepted(arrivals: seq<(nat, Answer)>, i: nat)
    requires DistinctNumbers(arrivals) && i < |arrivals|
    ensures arrivals[i].0 !in Accepted(arrivals[..i])
    ensures Accepted(arrivals[..i + 1]) == Accepted(arrivals[..i])[arrivals[i].0 := arrivals[i].1]
  {
    assert arrivals[..i + 1][..i] == arrivals[..i];
    AcceptedKeys(arrivals[..i]);
  }
}
