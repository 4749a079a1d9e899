/** How a transcript declares the tools the model may call, and the messages a
    run adds so that it declares what the run can execute. */
module ToolChanges {
  import opened Wrappers
  import opened AgentTrace

  /** What a run hands to the provider: its transcript and, by name, the
      serialised declarations of the tools it can execute. */
  datatype Context = Context(messages: seq<Message>, tools: Tools)

  /** The content of a message that only changes tools. */
  const NO_TEXT: nat := 0

  /** A message removes before it adds; an addition replaces its namesake. */
  function Applied(tools: Tools, message: Message): Tools {
    if message.System? then (tools - message.removed) + message.added else tools
  }

  /** The tools a transcript leaves available. */
  function CurrentTools(messages: seq<Message>): Tools {
    if messages == [] then map[]
    else Applied(CurrentTools(messages[..|messages| - 1]), messages[|messages| - 1])
  }

  ghost predicate Declares(messages: seq<Message>, tools: Tools) { CurrentTools(messages) == tools }

  /** Where the last system message is. */
  function LastSystem(messages: seq<Message>): (r: Option<nat>)
    ensures r.Some? ==> r.value < |messages| && messages[r.value].System?
    ensures forall i | 0 <= i < |messages| && (r.Some? ==> r.value < i) :: !messages[i].System?
  {
    if messages == [] then None
    else if messages[|messages| - 1].System? then Some(|messages| - 1)
    else LastSystem(messages[..|messages| - 1])
  }

  function FirstOther(messages: seq<Message>): (r: nat)
    ensures r <= |messages| && forall i | 0 <= i < r :: messages[i].System?
    ensures r < |messages| ==> !messages[r].System?
  {
    if messages == [] || !messages[0].System? then 0 else 1 + FirstOther(messages[1..])
  }

  function Added(before: Tools, after: Tools): Tools {
    map name | name in after && !(name in before && before[name] == after[name]) :: after[name]
  }

  function Removed(before: Tools, after: Tools): set<string> {
    set name | name in before && !(name in after && after[name] == before[name])
  }

  /** The pending messages with the changes that are due: in the last system
      message among them, or in a message of their own. */
  function Declared(context: Context, pending: seq<Message>): seq<Message> {
    var index := LastSystem(pending);
    var baseline := if index.Some? then pending[index.value := System(pending[index.value].id, map[], {})] else pending;
    var before := CurrentTools(context.messages + baseline);
    var added, removed := Added(before, context.tools), Removed(before, context.tools);
    var settled := added == map[] && removed == {};
    if index.Some? then
      var system := pending[index.value];
      if settled && system.added == map[] && system.removed == {} then pending
      else baseline[index.value := System(system.id, added, removed)]
    else if settled then pending
    else
      var at := FirstOther(pending);
      pending[..at] + [System(NO_TEXT, added, removed)] + pending[at..]
  }

  // ------------------------------------------------------- what is declared

  lemma ChangesLead(before: Tools, after: Tools)
    ensures (before - Removed(before, after)) + Added(before, after) == after
    ensures Added(before, after) == map[] && Removed(before, after) == {} <==> before == after
  {
    if Added(before, after) == map[] && Removed(before, after) == {} {
      forall name ensures name in before <==> name in after {
        if name in after { assert name !in Added(before, after); }
        if name in before { assert name !in Removed(before, after); }
      }
      forall name | name in before ensures before[name] == after[name] {
        assert name !in Removed(before, after);
      }
      assert before == after;
    }
  }

  lemma AppliedAppend(messages: seq<Message>, message: Message)
    ensures CurrentTools(messages + [message]) == Applied(CurrentTools(messages), message)
  {
    assert (messages + [message])[..|messages|] == messages;
  }

  lemma {:induction false} OthersDeclareNothing(messages: seq<Message>, others: seq<Message>)
    requires forall i | 0 <= i < |others| :: !others[i].System?
    ensures CurrentTools(messages + others) == CurrentTools(messages)
  {
    if others == [] {
      assert messages + others == messages;
    } else {
      var front := others[..|others| - 1];
      assert messages + others == (messages + front) + [others[|others| - 1]];
      AppliedAppend(messages + front, others[|others| - 1]);
      OthersDeclareNothing(messages, front);
    }
  }

  /** The transcript declares exactly the tools the run can execute. */
  lemma DeclaresTools(context: Context, pending: seq<Message>)
    ensures Declares(context.messages + Declared(context, pending), context.tools)
  {
    var index := LastSystem(pending);
    if index.Some? {
      AmendedDeclares(context, pending, index.value);
    } else {
      OthersDeclareNothing(context.messages, pending);
      ChangesLead(CurrentTools(context.messages), context.tools);
      var update := System(NO_TEXT, Added(CurrentTools(context.messages), context.tools), Removed(CurrentTools(context.messages), context.tools));
      AppliedAppend(context.messages, update);
      OthersDeclareNothing(context.messages + [update], pending);
      if Declared(context, pending) != pending {
        assert FirstOther(pending) == 0;
        assert context.messages + Declared(context, pending) == context.messages + [update] + pending;
      }
    }
  }

  lemma AmendedDeclares(context: Context, pending: seq<Message>, index: nat)
    requires LastSystem(pending) == Some(index)
    ensures CurrentTools(context.messages + Declared(context, pending)) == context.tools
  {
    var id := pending[index].id;
    var head := context.messages + pending[..index];
    var cleared := System(id, map[], {});
    WithSystem(context.messages, pending, index, cleared);
    assert CurrentTools(head) - {} + map[] == CurrentTools(head);
    ChangesLead(CurrentTools(head), context.tools);
    var amended := System(id, Added(CurrentTools(head), context.tools), Removed(CurrentTools(head), context.tools));
    WithSystem(context.messages, pending, index, amended);
    assert pending[index := cleared][index := amended] == pending[index := amended];
    if pending[index] == cleared {
      assert pending[index := cleared] == pending;
    }
  }

  /** Whatever the last system message declares is applied last. */
  lemma WithSystem(messages: seq<Message>, pending: seq<Message>, index: nat, system: Message)
    requires LastSystem(pending) == Some(index) && system.System?
    ensures CurrentTools(messages + pending[index := system]) == Applied(CurrentTools(messages + pending[..index]), system)
  {
    var head, rest := messages + pending[..index], pending[index + 1..];
    assert messages + pending[index := system] == (head + [system]) + rest;
    OthersDeclareNothing(head + [system], rest);
    AppliedAppend(head, system);
  }

  /** Where nothing is due and no system message comes, nothing is added. */
  lemma NothingDue(context: Context, pending: seq<Message>)
    requires CurrentTools(context.messages) == context.tools && LastSystem(pending).None?
    ensures Declared(context, pending) == pending
  {
    OthersDeclareNothing(context.messages, pending);
    ChangesLead(CurrentTools(context.messages), context.tools);
  }

  // ----------------------------------------------------------- what is kept

  /** The same message, but for the tools it declares. */
  predicate SameText(a: Message, b: Message) {
    a == b || (a.System? && b.System? && a.id == b.id)
  }

  predicate SameTexts(a: seq<Message>, b: seq<Message>) {
    |a| == |b| && forall i | 0 <= i < |a| :: SameText(a[i], b[i])
  }

  /** `declared` is `pending`, all of it and in order, with at most one message
      in front of it. */
  ghost predicate Carries(declared: seq<Message>, pending: seq<Message>) {
    && |pending| <= |declared| <= |pending| + 1
    && SameTexts(declared[|declared| - |pending|..], pending)
  }

  /** Declaring loses, repeats and reorders nothing. */
  lemma DeclaredCarries(context: Context, pending: seq<Message>)
    ensures Carries(Declared(context, pending), pending)
  {
    var declared := Declared(context, pending);
    if LastSystem(pending).None? && declared != pending {
      assert FirstOther(pending) == 0;
      assert declared[1..] == pending;
    }
  }
}
