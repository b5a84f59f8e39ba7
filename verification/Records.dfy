/**
 Execution records as the conductor keeps them in memory and as its journal
 describes them, and the replay of an earlier conversation into the prompt of
 a routed root execution.
 */
module Records {
  import opened PhenixCore

  datatype ExecutionPayload =
    | InvocationPayload(input: Prompt)
    | OrchestrationPayload(objective: string)

  datatype JournalPayload =
    | JournalInvocation(input: Prompt, authority: ExecutionAuthority)
    | JournalOrchestration(objective: string, authority: ExecutionAuthority)
  {
    function WithAuthority(a: ExecutionAuthority): JournalPayload {
      this.(authority := a)
    }

    function Plain(): ExecutionPayload {
      match this
      case JournalInvocation(input, _) => InvocationPayload(input)
      case JournalOrchestration(objective, _) => OrchestrationPayload(objective)
    }
  }

  datatype ExecutionRecord = ExecutionRecord(
    summary: ExecutionSummary,
    payload: ExecutionPayload,
    authority: ExecutionAuthority,
    configRevision: ConfigRevisionId)

  type Executions = map<ExecutionId, ExecutionRecord>

  // ---------------------------------------------------------------------------
  // Conversation replay
  // ---------------------------------------------------------------------------

  datatype AccumulatedMessage = AccumulatedMessage(execution: ExecutionId, role: Role, content: string)

  /** Whether `event` belongs to another root execution of the session of `x`. */
  predicate Contributes(executions: Executions, x: ExecutionSummary, event: ExecutionEvent) {
    && event.session == x.session
    && event.execution != x.id
    && event.execution in executions
    && executions[event.execution].summary.kind.Root?
    && executions[event.execution].summary.parent.None?
  }

  /** One step of the accumulation: how `event` extends the messages seen so far. */
  function Accumulate(executions: Executions, x: ExecutionSummary, messages: seq<AccumulatedMessage>, event: ExecutionEvent)
    : seq<AccumulatedMessage>
  {
    if !Contributes(executions, x, event) then messages
    else match event.kind
      case UserInput(text) => messages + [AccumulatedMessage(event.execution, User, text)]
      case AssistantContentDelta(delta) =>
        if messages != [] && Extends(messages[|messages| - 1], event) then
          messages[..|messages| - 1] + [messages[|messages| - 1].(content := messages[|messages| - 1].content + delta)]
        else
          messages + [AccumulatedMessage(event.execution, Assistant, delta)]
      case _ => messages
  }

  predicate Extends(last: AccumulatedMessage, event: ExecutionEvent) {
    last.execution == event.execution && last.role.Assistant?
  }

  function History(executions: Executions, x: ExecutionSummary, events: seq<ExecutionEvent>): seq<AccumulatedMessage> {
    if events == [] then []
    else Accumulate(executions, x, History(executions, x, events[..|events| - 1]), events[|events| - 1])
  }

  function Strip(messages: seq<AccumulatedMessage>): seq<Message> {
    seq(|messages|, i requires 0 <= i < |messages| => Message(messages[i].role, messages[i].content))
  }

  function RoutedInput(executions: Executions, x: ExecutionSummary, events: seq<ExecutionEvent>, input: Prompt): Prompt {
    var history := History(executions, x, events);
    if history == [] then input else Continuation(Strip(history), input)
  }

  function MaterializedPayload(executions: Executions, x: ExecutionSummary, events: seq<ExecutionEvent>, payload: JournalPayload)
    : ExecutionPayload
  {
    if payload.JournalInvocation? && x.kind.Root? && x.target.Routed? then
      InvocationPayload(RoutedInput(executions, x, events, payload.input))
    else
      payload.Plain()
  }

  method MaterializeRoutedInput(executions: Executions, x: ExecutionSummary, events: seq<ExecutionEvent>, input: Prompt)
    returns (prompt: Prompt)
    ensures prompt == RoutedInput(executions, x, events, input)
    ensures IsReplay(executions, x, events, input, prompt)
  {
    RoutedInputReplays(executions, x, events, input);
    var messages: seq<AccumulatedMessage> := [];
    for i := 0 to |events|
      invariant messages == History(executions, x, events[..i])
    {
      var event := events[i];
      assert events[..i + 1][..i] == events[..i];
      if event.session != x.session || event.execution == x.id {
        continue;
      }
      if event.execution !in executions {
        continue;
      }
      var previous := executions[event.execution];
      if !previous.summary.kind.Root? || previous.summary.parent.Some? {
        continue;
      }
      match event.kind {
        case UserInput(text) =>
          messages := messages + [AccumulatedMessage(event.execution, User, text)];
        case AssistantContentDelta(delta) =>
          var n := |messages|;
          if n > 0 && messages[n - 1].execution == event.execution && messages[n - 1].role.Assistant? {
            messages := messages[n - 1 := messages[n - 1].(content := messages[n - 1].content + delta)];
          } else {
            messages := messages + [AccumulatedMessage(event.execution, Assistant, delta)];
          }
        case _ =>
      }
    }
    assert events[..|events|] == events;
    prompt := if messages == [] then input else Continuation(Strip(messages), input);
  }

  // ---------------------------------------------------------------------------
  // What the prompt says about the events it was built from
  // ---------------------------------------------------------------------------

  /** The events the prompt has to tell: what the other roots of the session were asked and what they said. */
  ghost function Said(executions: Executions, x: ExecutionSummary, events: seq<ExecutionEvent>): seq<ExecutionEvent> {
    if events == [] then []
    else
      var last := events[|events| - 1];
      Said(executions, x, events[..|events| - 1]) +
      if Contributes(executions, x, last) && (last.kind.UserInput? || last.kind.AssistantContentDelta?) then [last] else []
  }

  ghost function Joined(deltas: seq<ExecutionEvent>): string
    requires forall i :: 0 <= i < |deltas| ==> deltas[i].kind.AssistantContentDelta?
  {
    if deltas == [] then "" else Joined(deltas[..|deltas| - 1]) + deltas[|deltas| - 1].kind.delta
  }

  ghost function Flatten(parts: seq<seq<ExecutionEvent>>): seq<ExecutionEvent> {
    if parts == [] then [] else Flatten(parts[..|parts| - 1]) + parts[|parts| - 1]
  }

  /** A user message is one input; an assistant message spells deltas of one execution. */
  ghost predicate Spells(role: Role, content: string, part: seq<ExecutionEvent>) {
    && part != []
    && match role
      case User => |part| == 1 && part[0].kind == UserInput(content)
      case Assistant =>
        && (forall i :: 0 <= i < |part| ==> part[i].kind.AssistantContentDelta? && part[i].execution == part[0].execution)
        && content == Joined(part)
  }

  /**
   The messages tell the events one after the other: each message a part of
   them, without leaving out, repeating or reordering any, and what an
   execution says without interruption in one message.
   */
  ghost predicate Replays(messages: seq<Message>, said: seq<ExecutionEvent>, parts: seq<seq<ExecutionEvent>>) {
    && |parts| == |messages| && Flatten(parts) == said
    && (forall k :: 0 <= k < |messages| ==> Spells(messages[k].role, messages[k].content, parts[k]))
    && (forall j, k :: 0 <= j < k < |messages| && k == j + 1 && messages[j].role.Assistant? && messages[k].role.Assistant? ==>
          parts[j][0].execution != parts[k][0].execution)
  }

  /** The prompt is the plain input if there is nothing to tell, and otherwise tells it before the input. */
  ghost predicate IsReplay(executions: Executions, x: ExecutionSummary, events: seq<ExecutionEvent>, input: Prompt, prompt: Prompt) {
    var said := Said(executions, x, events);
    if said == [] then prompt == input
    else
      && prompt.Continuation? && prompt.current == input
      && exists parts :: Replays(prompt.history, said, parts)
  }

  /** The accumulated messages tell the events, each of the execution that it names. */
  ghost predicate Accumulated(messages: seq<AccumulatedMessage>, said: seq<ExecutionEvent>, parts: seq<seq<ExecutionEvent>>) {
    && |parts| == |messages| && Flatten(parts) == said
    && (forall k :: 0 <= k < |messages| ==>
          Spells(messages[k].role, messages[k].content, parts[k]) && parts[k][0].execution == messages[k].execution)
    && (forall j, k :: 0 <= j < k < |messages| && k == j + 1 && messages[j].role.Assistant? && messages[k].role.Assistant? ==>
          messages[j].execution != messages[k].execution)
  }

  lemma FlattenMore(parts: seq<seq<ExecutionEvent>>, part: seq<ExecutionEvent>)
    ensures Flatten(parts + [part]) == Flatten(parts) + part
  {
    assert (parts + [part])[..|parts|] == parts;
  }

  lemma NewMessage(messages: seq<AccumulatedMessage>, said: seq<ExecutionEvent>, parts: seq<seq<ExecutionEvent>>,
                   message: AccumulatedMessage, event: ExecutionEvent)
    requires Accumulated(messages, said, parts)
    requires message.execution == event.execution && Spells(message.role, message.content, [event])
    requires messages != [] && message.role.Assistant? ==> !Extends(messages[|messages| - 1], event)
    ensures Accumulated(messages + [message], said + [event], parts + [[event]])
  {
    FlattenMore(parts, [event]);
    hide Spells, Flatten;
  }

  lemma LongerMessage(messages: seq<AccumulatedMessage>, said: seq<ExecutionEvent>, parts: seq<seq<ExecutionEvent>>, event: ExecutionEvent)
    returns (longer: seq<seq<ExecutionEvent>>)
    requires Accumulated(messages, said, parts) && event.kind.AssistantContentDelta?
    requires messages != [] && Extends(messages[|messages| - 1], event)
    ensures var last := messages[|messages| - 1];
      Accumulated(messages[..|messages| - 1] + [last.(content := last.content + event.kind.delta)], said + [event], longer)
  {
    var n := |messages| - 1;
    var part := parts[n] + [event];
    longer := parts[..n] + [part];
    assert parts == parts[..n] + [parts[n]];
    FlattenMore(parts[..n], parts[n]);
    FlattenMore(parts[..n], part);
    assert said + [event] == Flatten(parts[..n]) + part;
    assert Spells(Assistant, messages[n].content, parts[n]);
    assert part[..|part| - 1] == parts[n];
    assert Spells(Assistant, messages[n].content + event.kind.delta, part);
    hide Spells, Flatten;
  }

  lemma SpellsItself(event: ExecutionEvent)
    ensures event.kind.UserInput? ==> Spells(User, event.kind.text, [event])
    ensures event.kind.AssistantContentDelta? ==> Spells(Assistant, event.kind.delta, [event])
  {
    if event.kind.AssistantContentDelta? { assert Joined([event]) == event.kind.delta; }
  }

  lemma {:induction false} HistoryIsAccumulated(executions: Executions, x: ExecutionSummary, events: seq<ExecutionEvent>)
    returns (parts: seq<seq<ExecutionEvent>>)
    ensures Accumulated(History(executions, x, events), Said(executions, x, events), parts)
  {
    if events == [] {
      parts := [];
    } else {
      hide Contributes, Spells, Accumulated, Flatten;
      var before, event := events[..|events| - 1], events[|events| - 1];
      var messages, said := History(executions, x, before), Said(executions, x, before);
      parts := HistoryIsAccumulated(executions, x, before);
      SpellsItself(event);
      if Contributes(executions, x, event) && event.kind.UserInput? {
        NewMessage(messages, said, parts, AccumulatedMessage(event.execution, User, event.kind.text), event);
        parts := parts + [[event]];
      } else if Contributes(executions, x, event) && event.kind.AssistantContentDelta? {
        if messages != [] && Extends(messages[|messages| - 1], event) {
          parts := LongerMessage(messages, said, parts, event);
        } else {
          NewMessage(messages, said, parts, AccumulatedMessage(event.execution, Assistant, event.kind.delta), event);
          parts := parts + [[event]];
        }
      }
    }
  }

  /**
   A prompt replays what was said before exactly: nothing is lost, invented,
   reordered or told in the wrong role.
   */
  lemma RoutedInputReplays(executions: Executions, x: ExecutionSummary, events: seq<ExecutionEvent>, input: Prompt)
    ensures IsReplay(executions, x, events, input, RoutedInput(executions, x, events, input))
  {
    var history, said := History(executions, x, events), Said(executions, x, events);
    var parts := HistoryIsAccumulated(executions, x, events);
    NothingLeftOut(history, said, parts);
    assert Replays(Strip(history), said, parts) by { hide Spells, Flatten, History, Said; }
  }

  lemma NothingLeftOut(messages: seq<AccumulatedMessage>, said: seq<ExecutionEvent>, parts: seq<seq<ExecutionEvent>>)
    requires Accumulated(messages, said, parts)
    ensures messages == [] <==> said == []
  {
    if messages != [] {
      var n := |parts| - 1;
      assert Flatten(parts) == Flatten(parts[..n]) + parts[n];
      assert Spells(messages[n].role, messages[n].content, parts[n]);
    }
  }

  // What the accumulated history says of single executions.

  /** The inputs of the session's other roots, in event order. */
  function UserInputs(executions: Executions, x: ExecutionSummary, events: seq<ExecutionEvent>): seq<(ExecutionId, string)> {
    if events == [] then []
    else
      var last := events[|events| - 1];
      UserInputs(executions, x, events[..|events| - 1]) +
      if Contributes(executions, x, last) && last.kind.UserInput? then [(last.execution, last.kind.text)] else []
  }

  /** Everything the assistant of execution `e` said, in event order. */
  function Spoken(executions: Executions, x: ExecutionSummary, e: ExecutionId, events: seq<ExecutionEvent>): string {
    if events == [] then ""
    else
      var last := events[|events| - 1];
      Spoken(executions, x, e, events[..|events| - 1]) +
      if Contributes(executions, x, last) && last.execution == e && last.kind.AssistantContentDelta?
      then last.kind.delta else ""
  }

  function UserEntries(messages: seq<AccumulatedMessage>): seq<(ExecutionId, string)> {
    if messages == [] then []
    else
      var last := messages[|messages| - 1];
      UserEntries(messages[..|messages| - 1]) + if last.role.User? then [(last.execution, last.content)] else []
  }

  function AssistantEntries(e: ExecutionId, messages: seq<AccumulatedMessage>): string {
    if messages == [] then ""
    else
      var last := messages[|messages| - 1];
      AssistantEntries(e, messages[..|messages| - 1]) + if last.role.Assistant? && last.execution == e then last.content else ""
  }

  predicate NoSplitSpeech(messages: seq<AccumulatedMessage>) {
    forall i :: 0 <= i < |messages| - 1 && messages[i].role.Assistant? && messages[i + 1].role.Assistant? ==>
      messages[i].execution != messages[i + 1].execution
  }

  /**
   The replayed conversation loses, invents and reorders nothing: its user
   entries are the session's earlier inputs, the assistant entries of an
   execution spell exactly what it said, and consecutive deltas are merged.
   */
  lemma {:induction false} HistoryIsConservative(executions: Executions, x: ExecutionSummary, events: seq<ExecutionEvent>, e: ExecutionId)
    ensures UserEntries(History(executions, x, events)) == UserInputs(executions, x, events)
    ensures AssistantEntries(e, History(executions, x, events)) == Spoken(executions, x, e, events)
    ensures NoSplitSpeech(History(executions, x, events))
  {
    if events != [] {
      var before, event := events[..|events| - 1], events[|events| - 1];
      HistoryIsConservative(executions, x, before, e);
      var messages := History(executions, x, before);
      hide Contributes, NoSplitSpeech, UserEntries, AssistantEntries;
      if Contributes(executions, x, event) && event.kind.UserInput? {
        EntriesGrow(messages, AccumulatedMessage(event.execution, User, event.kind.text), e);
      } else if Contributes(executions, x, event) && event.kind.AssistantContentDelta? {
        if messages != [] && Extends(messages[|messages| - 1], event) {
          LastEntryGrows(messages, event.kind.delta, e);
        } else {
          EntriesGrow(messages, AccumulatedMessage(event.execution, Assistant, event.kind.delta), e);
        }
      }
    }
  }

  lemma EntriesGrow(messages: seq<AccumulatedMessage>, message: AccumulatedMessage, e: ExecutionId)
    ensures var after := messages + [message];
      && UserEntries(after) == UserEntries(messages) + (if message.role.User? then [(message.execution, message.content)] else [])
      && AssistantEntries(e, after) ==
          AssistantEntries(e, messages) + (if message.role.Assistant? && message.execution == e then message.content else "")
      && (NoSplitSpeech(messages) &&
          (messages != [] && message.role.Assistant? && messages[|messages| - 1].role.Assistant? ==>
            messages[|messages| - 1].execution != message.execution) ==>
          NoSplitSpeech(after))
  {
    assert (messages + [message])[..|messages|] == messages;
  }

  lemma LastEntryGrows(messages: seq<AccumulatedMessage>, delta: string, e: ExecutionId)
    requires messages != [] && messages[|messages| - 1].role.Assistant?
    ensures var last := messages[|messages| - 1];
      var after := messages[..|messages| - 1] + [last.(content := last.content + delta)];
      && UserEntries(after) == UserEntries(messages)
      && AssistantEntries(e, after) == AssistantEntries(e, messages) + (if last.execution == e then delta else "")
      && (NoSplitSpeech(messages) ==> NoSplitSpeech(after))
  {
    var n := |messages| - 1;
    assert messages == messages[..n] + [messages[n]];
    EntriesGrow(messages[..n], messages[n], e);
    EntriesGrow(messages[..n], messages[n].(content := messages[n].content + delta), e);
    hide UserEntries, AssistantEntries;
  }

  /** Of the new execution itself, and of executions under a parent, nothing is replayed. */
  lemma {:induction false} HistoryIsOfOtherRoots(executions: Executions, x: ExecutionSummary, events: seq<ExecutionEvent>)
    ensures forall i :: 0 <= i < |History(executions, x, events)| ==>
      var e := History(executions, x, events)[i].execution;
      e != x.id && e in executions && executions[e].summary.kind.Root? && executions[e].summary.parent.None?
  {
    if events != [] {
      HistoryIsOfOtherRoots(executions, x, events[..|events| - 1]);
    }
  }
}
