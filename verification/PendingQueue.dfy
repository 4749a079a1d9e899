/** The agent's queues of steering and follow-up messages. A unit of messages
    drains as a whole. */
module PendingQueue {
  import opened AgentTrace

  type Unit = seq<Message>

  datatype QueueMode = All | OneAtATime

  function Flat(units: seq<Unit>): seq<Message> {
    if units == [] then [] else units[0] + Flat(units[1..])
  }

  class PendingMessageQueue {
    const mode: QueueMode
    var units: seq<Unit>
    ghost var pushed: seq<Unit>
    ghost var drained: seq<Unit>

    /** What was drained and what still waits is what was pushed, in order. */
    ghost predicate Valid()
      reads this
    {
      pushed == drained + units && forall i | 0 <= i < |units| :: units[i] != []
    }

    constructor (mode: QueueMode)
      ensures Valid() && this.mode == mode && pushed == [] && drained == []
    {
      this.mode := mode;
      units, pushed, drained := [], [], [];
    }

    /** The units the next drain takes. */
    ghost function Front(): (front: seq<Unit>)
      reads this
      ensures front <= units && (mode.OneAtATime? ==> |front| <= 1) && (front == [] <==> units == [])
    {
      if mode.All? || |units| <= 1 then units else units[..1]
    }

    method Push(unit: Unit)
      requires Valid()
      modifies this
      ensures Valid() && drained == old(drained)
      ensures pushed == old(pushed) + (if unit == [] then [] else [unit])
    {
      if unit != [] {
        units, pushed := units + [unit], pushed + [unit];
      }
    }

    /** What the next drain returns. */
    method Peek() returns (messages: seq<Message>)
      requires Valid()
      ensures messages == Flat(Front())
    {
      match mode
      case All => messages := Flat(units);
      case OneAtATime =>
        messages := if units == [] then [] else units[0];
        assert units != [] ==> Front() == [units[0]] && Flat([units[0]]) == units[0] + Flat([]);
    }

    method Drain() returns (messages: seq<Message>, ghost taken: seq<Unit>)
      requires Valid()
      modifies this
      ensures Valid() && pushed == old(pushed) && drained == old(drained) + taken && units == old(units)[|taken|..]
      ensures taken == old(Front()) && messages == Flat(taken) && (messages == [] <==> taken == [])
    {
      taken := Front();
      messages := Peek();
      match mode {
        case All => units := [];
        case OneAtATime => units := if units == [] then [] else units[1..];
      }
      assert taken + units == old(units);
      drained := drained + taken;
      assert drained + units == old(drained) + (taken + units) == old(drained) + old(units);
    }
  }
}
