/** The record of one model-issued call's nested calls, as the recorder
    updates it. */
module NestedRecorder {
  import opened Wrappers
  import opened NestedCalls

  class NestedCallRecorder {
    var entries: seq<Entry>
    var complete: bool
    var argumentBytes: nat
    ghost var dropped: set<Path>

    ghost function View(): Record
      reads this
    {
      Record(entries, complete, argumentBytes, dropped)
    }

    ghost predicate Valid()
      reads this
    {
      RecordOk(View())
    }

    constructor ()
      ensures Valid() && View() == NEW_RECORD
    {
      entries, complete, argumentBytes, dropped := [], true, 0, {};
    }

    /** Enters a starting call, unless nothing more fits; says where. */
    method Start(path: Path, bytes: nat, isObject: bool) returns (index: Option<nat>)
      requires Valid()
      modifies this
      ensures Valid() && (View(), index) == Recording(old(View()), path, bytes, isObject)
    {
      RecordingOk(View(), path, bytes, isObject);
      if |entries| >= MAX_CALLS {
        complete, dropped := false, dropped + {path};
        return None;
      }
      var kept := None;
      if isObject && bytes <= MAX_BYTES_PER_CALL && argumentBytes + bytes <= MAX_BYTES {
        kept, argumentBytes := Some(bytes), argumentBytes + bytes;
      } else {
        complete := false;
      }
      entries := entries + [Entry(path, kept, false)];
      return Some(|entries| - 1);
    }

    method Finish(index: Option<nat>)
      requires Valid()
      modifies this
      ensures Valid() && View() == Finishing(old(View()), index)
    {
      FinishingOk(View(), index);
      if index.None? || index.value >= |entries| {
        return;
      }
      entries := entries[index.value := entries[index.value].(finished := true)];
    }

    /** What has been entered by now; absent when nothing nested has run. */
    method TakeSnapshot() returns (summary: Option<Summary>)
      ensures summary == Snapshot(View())
    {
      if entries == [] && complete {
        return None;
      }
      var i, all := 0, true;
      while i < |entries|
        invariant 0 <= i <= |entries|
        invariant all <==> forall k | 0 <= k < i :: entries[k].finished
      {
        all := all && entries[i].finished;
        i := i + 1;
      }
      return Some(Summary(entries, complete && all));
    }
  }
}
