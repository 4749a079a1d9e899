/** The ordered join of a batch's futures, with a bound on how many have
    started and not finished. */
module JoinAll {
  import opened Wrappers

  /** How many of the outputs are still missing. */
  function Missing<T>(outputs: seq<Option<T>>): nat {
    if outputs == [] then 0
    else Missing(outputs[..|outputs| - 1]) + (if outputs[|outputs| - 1].None? then 1 else 0)
  }

  lemma {:induction false} MissingSplit<T>(outputs: seq<Option<T>>, k: nat)
    requires k <= |outputs|
    ensures Missing(outputs[..k]) <= Missing(outputs) <= Missing(outputs[..k]) + |outputs| - k
    decreases |outputs|
  {
    if k < |outputs| {
      MissingSplit(outputs[..|outputs| - 1], k);
      assert outputs[..|outputs| - 1][..k] == outputs[..k];
    } else {
      assert outputs[..k] == outputs;
    }
  }

  lemma {:induction false} MissingZero<T>(outputs: seq<Option<T>>)
    ensures Missing(outputs) == 0 <==> forall i | 0 <= i < |outputs| :: outputs[i].Some?
    decreases |outputs|
  {
    if outputs != [] {
      var front := outputs[..|outputs| - 1];
      MissingZero(front);
      assert forall i | 0 <= i < |front| :: outputs[i] == front[i];
      assert Missing(outputs) == 0 ==> forall i | 0 <= i < |outputs| :: i == |outputs| - 1 || outputs[i] == front[i];
    }
  }

  lemma {:induction false} MissingUpdate<T>(outputs: seq<Option<T>>, i: nat, value: T)
    requires i < |outputs| && outputs[i].None?
    ensures Missing(outputs[i := Some(value)]) == Missing(outputs) - 1
    decreases |outputs|
  {
    var last := |outputs| - 1;
    var after := outputs[i := Some(value)];
    if i == last {
      assert after[..last] == outputs[..last];
    } else {
      MissingUpdate(outputs[..last], i, value);
      assert after[..last] == outputs[..last][i := Some(value)];
    }
  }

  lemma MissingNext<T>(outputs: seq<Option<T>>, k: nat)
    requires k < |outputs|
    ensures Missing(outputs[..k + 1]) == Missing(outputs[..k]) + (if outputs[k].None? then 1 else 0)
  {
    assert outputs[..k + 1][..k] == outputs[..k];
  }

  datatype Join<T> = Join(outputs: seq<Option<T>>, started: nat, active: nat)

  predicate WithinLimit(active: nat, limit: Option<nat>) { limit.Some? ==> active <= limit.value }

  /** Futures start in index order, and `active` counts those that have not
      finished, at most `limit`. */
  ghost predicate JoinOk<T>(j: Join<T>, limit: Option<nat>) {
    && j.started <= |j.outputs|
    && (forall i | j.started <= i < |j.outputs| :: j.outputs[i].None?)
    && j.active == Missing(j.outputs[..j.started])
    && WithinLimit(j.active, limit)
  }

  /** What one poll does, given what each future would answer. Every future
      that has started and not finished is asked once; more start, in order,
      exactly while fewer than `limit` are active. */
  ghost predicate Polls<T>(before: Join<T>, ready: seq<Option<T>>, limit: Option<nat>, after: Join<T>) {
    && |after.outputs| == |before.outputs| == |ready|
    && before.started <= after.started <= |after.outputs|
    && (forall i | 0 <= i < |ready| ::
          after.outputs[i] == if before.outputs[i].Some? then before.outputs[i] else if i < after.started then ready[i] else None)
    && after.active == Missing(after.outputs[..after.started])
    && (forall k | before.started <= k < after.started && limit.Some? :: Missing(after.outputs[..k]) < limit.value)
    && (after.started < |after.outputs| ==> limit == Some(after.active))
  }

  /** The poll is determined by those conditions. */
  lemma PollsUnique<T>(before: Join<T>, ready: seq<Option<T>>, limit: Option<nat>, a: Join<T>, b: Join<T>)
    requires JoinOk(before, limit) && Polls(before, ready, limit, a) && Polls(before, ready, limit, b)
    ensures a == b
  {
    assert forall k | 0 <= k <= a.started && k <= b.started :: a.outputs[..k] == b.outputs[..k];
    assert a.outputs == b.outputs;
  }

  /** A pending join is at its limit or waits for everything that is left, and
      it is ready exactly when every output is there. */
  lemma PollIsWorkConserving<T>(before: Join<T>, ready: seq<Option<T>>, limit: Option<nat>, after: Join<T>)
    requires JoinOk(before, limit) && Polls(before, ready, limit, after) && (limit.Some? ==> limit.value >= 1)
    ensures JoinOk(after, limit)
    ensures after.active == if limit.Some? && limit.value < Missing(after.outputs) then limit.value else Missing(after.outputs)
    ensures after.active == 0 <==> forall i | 0 <= i < |after.outputs| :: after.outputs[i].Some?
  {
    MissingSplit(after.outputs, after.started);
    MissingZero(after.outputs);
    assert after.started == |after.outputs| ==> after.outputs[..after.started] == after.outputs;
    if before.started < after.started {
      MissingNext(after.outputs, after.started - 1);
    } else {
      NoMoreMissing(before.outputs[..before.started], after.outputs[..before.started]);
    }
  }

  /** A poll that finds every unfinished future ready finishes the join: those
      the limit held back start as the ones before them finish. */
  lemma ReadyFinishes<T>(before: Join<T>, ready: seq<Option<T>>, limit: Option<nat>, after: Join<T>)
    requires JoinOk(before, limit) && Polls(before, ready, limit, after) && (limit.Some? ==> limit.value >= 1)
    requires forall i | 0 <= i < |ready| :: before.outputs[i].Some? || ready[i].Some?
    ensures forall i | 0 <= i < |after.outputs| :: after.outputs[i].Some?
  {
    MissingZero(after.outputs[..after.started]);
    PollIsWorkConserving(before, ready, limit, after);
  }

  lemma {:induction false} NoMoreMissing<T>(before: seq<Option<T>>, after: seq<Option<T>>)
    requires |before| == |after| && forall i | 0 <= i < |before| && before[i].Some? :: after[i].Some?
    ensures Missing(after) <= Missing(before)
    decreases |before|
  {
    if before != [] {
      NoMoreMissing(before[..|before| - 1], after[..|after| - 1]);
    }
  }

  lemma AnswerCounts<T>(outputs: seq<Option<T>>, started: nat, index: nat, value: T)
    requires index < started <= |outputs| && outputs[index].None?
    ensures Missing(outputs[index := Some(value)][..started]) == Missing(outputs[..started]) - 1
    ensures forall k | 0 <= k <= index :: outputs[index := Some(value)][..k] == outputs[..k]
  {
    MissingUpdate(outputs[..started], index, value);
    assert outputs[index := Some(value)][..started] == outputs[..started][index := Some(value)];
  }

  /** A poll that has come to `index`. */
  ghost predicate Swept<T>(before: Join<T>, ready: seq<Option<T>>, limit: Option<nat>, j: Join<T>, index: nat) {
    && |j.outputs| == |before.outputs| == |ready| && index <= |ready|
    && j.started == (if index <= before.started then before.started else index) <= |ready|
    && (forall i | 0 <= i < |ready| ::
          j.outputs[i] == if before.outputs[i].Some? then before.outputs[i] else if i < index then ready[i] else None)
    && j.active == Missing(j.outputs[..j.started]) && WithinLimit(j.active, limit)
    && (forall k | before.started <= k < j.started && limit.Some? :: Missing(j.outputs[..k]) < limit.value)
  }

  lemma SweepStarts<T>(before: Join<T>, ready: seq<Option<T>>, limit: Option<nat>, j: Join<T>, index: nat)
    requires JoinOk(before, limit) && Swept(before, ready, limit, j, index) && index == j.started < |ready| && limit != Some(j.active)
    ensures Missing(j.outputs[..index + 1]) == j.active + 1 && WithinLimit(j.active + 1, limit)
    ensures forall k | before.started <= k <= index && limit.Some? :: Missing(j.outputs[..k]) < limit.value
  {
    MissingNext(j.outputs, index);
  }

  lemma SweepAsks<T>(before: Join<T>, ready: seq<Option<T>>, limit: Option<nat>, j: Join<T>, index: nat)
    requires JoinOk(before, limit) && index < |ready| == |before.outputs| == |j.outputs| && index < j.started <= |ready|
    requires j.outputs[index].None? && before.outputs[index].None?
    requires j.started == if index < before.started then before.started else index + 1
    requires forall i | 0 <= i < |ready| ::
          j.outputs[i] == if before.outputs[i].Some? then before.outputs[i] else if i < index then ready[i] else None
    requires j.active == Missing(j.outputs[..j.started]) && WithinLimit(j.active, limit)
    requires forall k | before.started <= k < j.started && limit.Some? :: Missing(j.outputs[..k]) < limit.value
    ensures ready[index].None? ==> Swept(before, ready, limit, j, index + 1)
    ensures ready[index].Some? ==> j.active >= 1 && Swept(before, ready, limit, Join(j.outputs[index := ready[index]], j.started, j.active - 1), index + 1)
  {
    if ready[index].Some? {
      AnswerCounts(j.outputs, j.started, index, ready[index].value);
    }
  }

  lemma SweepEnds<T>(before: Join<T>, ready: seq<Option<T>>, limit: Option<nat>, j: Join<T>, index: nat)
    requires JoinOk(before, limit) && Swept(before, ready, limit, j, index) && (limit.Some? ==> limit.value >= 1)
    requires index == |ready| || (index == j.started && limit == Some(j.active))
    ensures Polls(before, ready, limit, j) && JoinOk(j, limit)
    ensures j.active == 0 <==> forall i | 0 <= i < |j.outputs| :: j.outputs[i].Some?
  {
    PollIsWorkConserving(before, ready, limit, j);
  }

  class Joining<T> {
    const limit: Option<nat>
    var outputs: seq<Option<T>>
    var started: nat
    var active: nat

    ghost function View(): Join<T>
      reads this
    {
      Join(outputs, started, active)
    }

    ghost predicate Valid()
      reads this
    {
      (limit.Some? ==> limit.value >= 1) && JoinOk(View(), limit)
    }

    constructor (n: nat, limit: Option<nat>)
      requires limit.Some? ==> limit.value >= 1
      ensures Valid() && this.limit == limit && started == 0 && |outputs| == n
    {
      this.limit := limit;
      outputs, started, active := seq(n, _ => None), 0, 0;
    }

    /** One poll; true when the join is ready. */
    method Poll(ready: seq<Option<T>>) returns (done: bool)
      requires Valid() && |ready| == |outputs|
      modifies this
      ensures Valid() && Polls(old(View()), ready, limit, View())
      ensures done <==> forall i | 0 <= i < |outputs| :: outputs[i].Some?
    {
      ghost var before := View();
      var index := 0;
      while index < |outputs|
        invariant |outputs| == |ready| && Swept(before, ready, limit, View(), index)
        decreases |outputs| - index
      {
        if outputs[index].Some? {
          index := index + 1;
          continue;
        }
        if index == started {
          if limit == Some(active) {
            break;
          }
          SweepStarts(before, ready, limit, View(), index);
          started, active := started + 1, active + 1;
        }
        SweepAsks(before, ready, limit, View(), index);
        if ready[index].Some? {
          outputs, active := outputs[index := ready[index]], active - 1;
        }
        index := index + 1;
      }
      SweepEnds(before, ready, limit, View(), index);
      return active == 0;
    }
  }

  /** The value came from one of the polls of that very future. */
  ghost predicate Answered<T>(rounds: seq<seq<Option<T>>>, i: nat, value: T) {
    exists k :: 0 <= k < |rounds| && i < |rounds[k]| && rounds[k][i] == Some(value)
  }

  /** A round in which no future would answer that it is pending. */
  predicate AllReady<T>(round: seq<Option<T>>) { forall i | 0 <= i < |round| :: round[i].Some? }

  /** A future that is ready stays ready, with the same answer. */
  ghost predicate Persistent<T>(rounds: seq<seq<Option<T>>>) {
    forall k, i | 0 <= k < |rounds| - 1 && 0 <= i < |rounds[k]| && rounds[k][i].Some? ::
      i < |rounds[k + 1]| && rounds[k + 1][i] == rounds[k][i]
  }

  lemma {:induction false} AnswerPersists<T>(rounds: seq<seq<Option<T>>>, i: nat, k: nat)
    requires Persistent(rounds) && k < |rounds| && i < |rounds[k]| && rounds[k][i].Some?
    ensures i < |rounds[|rounds| - 1]| && rounds[|rounds| - 1][i] == rounds[k][i]
    decreases |rounds| - k
  {
    if k < |rounds| - 1 { AnswerPersists(rounds, i, k + 1); }
  }

  /** What futures that stay ready make of the join: it returns exactly when all
      have become ready, each with its own answer. */
  lemma LastRoundDecides<T>(n: nat, rounds: seq<seq<Option<T>>>, r: Option<seq<T>>)
    requires rounds != [] && Persistent(rounds) && forall k | 0 <= k < |rounds| :: |rounds[k]| == n
    requires r.Some? ==> |r.value| == n && forall i | 0 <= i < n :: Answered(rounds, i, r.value[i])
    requires (exists k :: 0 <= k < |rounds| && AllReady(rounds[k])) ==> r.Some?
    ensures r.Some? <==> AllReady(rounds[|rounds| - 1])
    ensures r.Some? ==> forall i | 0 <= i < n :: rounds[|rounds| - 1][i] == Some(r.value[i])
  {
    var last := rounds[|rounds| - 1];
    if r.Some? {
      forall i | 0 <= i < n ensures last[i] == Some(r.value[i]) {
        var k :| 0 <= k < |rounds| && i < |rounds[k]| && rounds[k][i] == Some(r.value[i]);
        AnswerPersists(rounds, i, k);
      }
      assert forall i | 0 <= i < |last| :: last[i].Some?;
    } else {
      assert !AllReady(last);
    }
  }

  /** The join over any schedule: poll until ready, then the outputs in input
      order. A schedule with a round in which every future is ready is long
      enough; None when it ends before the futures do. */
  method Await<T>(n: nat, limit: Option<nat>, rounds: seq<seq<Option<T>>>) returns (r: Option<seq<T>>)
    requires limit.Some? ==> limit.value >= 1
    requires forall k | 0 <= k < |rounds| :: |rounds[k]| == n
    ensures r.Some? ==> |r.value| == n && forall i | 0 <= i < n :: Answered(rounds, i, r.value[i])
    ensures (exists k :: 0 <= k < |rounds| && AllReady(rounds[k])) ==> r.Some?
  {
    var joining := new Joining<T>(n, limit);
    var k := 0;
    while k < |rounds|
      invariant 0 <= k <= |rounds|
      invariant joining.Valid() && |joining.outputs| == n && joining.limit == limit
      invariant forall j | 0 <= j < k :: !AllReady(rounds[j])
      invariant forall i | 0 <= i < n && joining.outputs[i].Some? :: Answered(rounds, i, joining.outputs[i].value)
    {
      ghost var before, earlier := joining.outputs, joining.View();
      var done := joining.Poll(rounds[k]);
      if AllReady(rounds[k]) { ReadyFinishes(earlier, rounds[k], limit, joining.View()); }
      forall i | 0 <= i < n && joining.outputs[i].Some?
        ensures Answered(rounds, i, joining.outputs[i].value)
      {
        assert joining.outputs[i] == before[i] || rounds[k][i] == joining.outputs[i];
      }
      if done {
        var outputs := joining.outputs;
        return Some(seq(n, i requires 0 <= i < n && |outputs| == n && outputs[i].Some? => outputs[i].value));
      }
      k := k + 1;
    }
    return None;
  }
}
