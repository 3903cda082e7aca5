/** `run_agent_loop`: the reason-and-act loop of the network agent. Each iteration checks the cancel flag,
    truncates the transcript, streams one completion, and runs the tool calls it asked for; the loop ends
    on a turn without tool calls, on a stop request, on an error, or after ten completions. */
module AgentLoop {
  import opened Wrappers
  import opened JsonValues
  import Text
  import opened StreamDecoder
  import opened ToolSchema
  import opened Transcript
  import opened RetryPolicy
  import opened ToolDispatch
  import opened Cancellation

  const MaxIterations := 10

  /** What one completion request comes to: the connection fails with a message, or a stream of items
      is delivered. */
  datatype Completion = ConnectFailed(reason: string) | Stream(items: seq<StreamItem>)

  /** The events the loop yields, by kind and payload (each is one `{"text": ...}` document). */
  datatype Event =
    | Said(emission: Emission)
    | StoppedByUser
    | ConnectionError(reason: string)
    | StreamingError(reason: string)
    | Progress(event: DispatchEvent)

  /** How a run ends. The last three end the generator by an early `return` or an exception. */
  datatype Outcome = Finished | IterationCap | StoppedEarly | ConnectionLost | StreamBroken | Crashed

  /** Everything outside the loop: the MCP tool catalog, the answers of the completion server (by request
      number), of the tools (by invocation number), the stop requests (`stops(n)`: a stop request arrives
      before the cancel check of iteration `n`), and the JSON parser. */
  datatype Environment = Environment(
    catalog: seq<McpTool>,
    completions: nat -> Completion,
    tools: nat -> ToolOutcome,
    stops: nat -> bool,
    parse: Parser)

  /** The observable result of a run. */
  datatype Run = Run(
    outcome: Outcome,
    events: seq<Event>,
    offered: seq<FunctionTool>,
    messages: seq<Message>,
    completionCalls: nat,
    invocations: seq<Invocation>)

  /** A stop request arrived at or before the cancel check of iteration `n`. */
  predicate StopRequested(stops: nat -> bool, n: int) {
    exists m: nat | m <= n :: stops(m)
  }

  /** Every invocation carried the run's topology id. */
  predicate AllCarry(invocations: seq<Invocation>, topologyId: string) {
    forall j | 0 <= j < |invocations| ::
      TopologyKey in invocations[j].args && invocations[j].args[TopologyKey] == JStr(topologyId)
  }

  /** The id recorded for a call: the streamed one, or `"call_default"`. */
  function IdOrDefault(id: string): string {
    if id != "" then id else DefaultCallId
  }

  /** The calls the assistant message records for a stream, index by index: the last non-empty id (or the
      default), the last non-empty name, and the concatenated argument fragments of that index. */
  function CallsFor(items: seq<StreamItem>): seq<CallRef> {
    CallsBelow(Fragments(items), SlotCount(Fragments(items)))
  }

  /** The calls recorded for indices `0` to `k - 1`. */
  function CallsBelow(fs: seq<ToolCallDelta>, k: nat): (r: seq<CallRef>)
    ensures |r| == k
  {
    if k == 0 then [] else CallsBelow(fs, k - 1) + [CallAt(fs, k - 1)]
  }

  /** The call recorded for index `k`. */
  function CallAt(fs: seq<ToolCallDelta>, k: nat): CallRef {
    CallRef(IdOrDefault(LastId(fs, k)), LastName(fs, k), ArgumentsAt(fs, k))
  }

  /** Index `j` of the calls below `k` is the call recorded for index `j`. */
  lemma {:induction false} CallsBelowAt(fs: seq<ToolCallDelta>, k: nat, j: nat)
    requires j < k
    ensures CallsBelow(fs, k)[j] == CallAt(fs, j)
  {
    if j < k - 1 {
      CallsBelowAt(fs, k - 1, j);
    }
  }

  /** What the calls of one assistant turn leave: their answers, the events yielded, the retry counters,
      the invocation log, and whether a call raised (and ended the run). */
  datatype Batch = Batch(answers: seq<Message>, events: seq<DispatchEvent>, counts: Counts,
                         invocations: seq<Invocation>, crashed: bool)

  /** The calls of one assistant turn dispatched in order (source lines 312-398), each with the counters
      the previous ones left and the tool's answer to the next invocation, up to the first that raises. */
  function DispatchSeq(calls: seq<CallRef>, topologyId: string, model: string, counts: Counts,
                       invocations: seq<Invocation>, parse: Parser, tools: nat -> ToolOutcome): (b: Batch)
    ensures Settles(calls, topologyId, counts, invocations, b)
    decreases |calls|, 1
  {
    if calls == [] then Batch([], [], counts, invocations, false)
    else DispatchLast(calls, topologyId, model, counts, invocations, parse, tools)
  }

  /** A non-empty batch: the calls before the last, then the last one unless an earlier call raised. */
  function DispatchLast(calls: seq<CallRef>, topologyId: string, model: string, counts: Counts,
                        invocations: seq<Invocation>, parse: Parser, tools: nat -> ToolOutcome): (b: Batch)
    requires calls != []
    ensures Settles(calls, topologyId, counts, invocations, b)
    decreases |calls|, 0
  {
    var b := DispatchSeq(calls[..|calls| - 1], topologyId, model, counts, invocations, parse, tools);
    if b.crashed then
      CrashSettles(calls, topologyId, counts, invocations, b);
      b
    else
      var d := Dispatch(calls[|calls| - 1], topologyId, model, b.counts, parse, OutcomeOf(tools, |b.invocations|));
      ExtendSettles(calls, topologyId, counts, invocations, b, d);
      Extend(b, d)
  }

  /** What a batch promises about the calls it was given: unless a call raised, each is answered by exactly
      one tool message, in the order of the calls; the invocation log only grows, by at most one entry per
      call, each carrying the topology; and only a push moves the retry counters. */
  predicate Settles(calls: seq<CallRef>, topologyId: string, counts: Counts, invocations: seq<Invocation>, b: Batch) {
    && (!b.crashed ==> |b.answers| == |calls| && Answers(calls, b.answers))
    && (b.crashed ==> |b.answers| < |calls|)
    && |invocations| <= |b.invocations| <= |invocations| + |calls|
    && b.invocations[..|invocations|] == invocations
    && (AllCarry(invocations, topologyId) ==> AllCarry(b.invocations, topologyId))
    && ((forall j | 0 <= j < |calls| :: calls[j].name != PushTool) ==> b.counts == counts)
  }

  /** A batch whose earlier calls raised settles the longer batch too. */
  lemma CrashSettles(calls: seq<CallRef>, topologyId: string, counts: Counts, invocations: seq<Invocation>, b: Batch)
    requires calls != [] && b.crashed
    requires Settles(calls[..|calls| - 1], topologyId, counts, invocations, b)
    ensures Settles(calls, topologyId, counts, invocations, b)
  {
    var init := calls[..|calls| - 1];
    assert forall j | 0 <= j < |init| :: init[j] == calls[j];
  }

  /** The batch of the earlier calls, extended by the last call's dispatch, settles the whole batch. */
  lemma ExtendSettles(calls: seq<CallRef>, topologyId: string, counts: Counts, invocations: seq<Invocation>, b: Batch,
                      d: Dispatched)
    requires calls != [] && !b.crashed
    requires Settles(calls[..|calls| - 1], topologyId, counts, invocations, b)
    requires var call := calls[|calls| - 1];
             && (d.Answered? ==> d.answer == ToolResult(call.id, call.name, d.answer.content))
             && (d.Answered? && d.invoked.Some? ==>
                   TopologyKey in d.invoked.value.args && d.invoked.value.args[TopologyKey] == JStr(topologyId))
             && (d.Answered? && call.name != PushTool ==> d.counts == b.counts)
    ensures Settles(calls, topologyId, counts, invocations, Extend(b, d))
  {
    var init := calls[..|calls| - 1];
    assert forall j | 0 <= j < |init| :: init[j] == calls[j];
    if d.Answered? {
      AnswersStep(calls, |calls| - 1, b.answers, d.answer);
      if d.invoked.Some? {
        CarryStep(b.invocations, d.invoked.value, topologyId);
        assert (b.invocations + [d.invoked.value])[..|invocations|] == b.invocations[..|invocations|];
      }
    }
  }

  /** What the tool answers to invocation number `n` of the run. */
  function OutcomeOf(tools: nat -> ToolOutcome, n: nat): ToolOutcome {
    tools(n)
  }

  /** A batch after one more call: a call that raises ends it; an answered call adds its answer, and its
      invocation to the log when the tool was invoked. */
  function Extend(b: Batch, d: Dispatched): Batch {
    match d
    case DispatchCrashed(es) => Batch(b.answers, b.events + es, b.counts, b.invocations, true)
    case Answered(es, answer, counts', invoked) =>
      Batch(b.answers + [answer], b.events + es, counts',
            if invoked.Some? then b.invocations + [invoked.value] else b.invocations, false)
  }

  /** The first `j + 1` calls are the first `j` and then call `j`, dispatched with what those left. */
  lemma DispatchPrefix(calls: seq<CallRef>, j: nat, topologyId: string, model: string, counts: Counts,
                       invocations: seq<Invocation>, parse: Parser, tools: nat -> ToolOutcome)
    requires j < |calls|
    ensures var b := DispatchSeq(calls[..j], topologyId, model, counts, invocations, parse, tools);
            DispatchSeq(calls[..j + 1], topologyId, model, counts, invocations, parse, tools)
            == if b.crashed then b
               else Extend(b, Dispatch(calls[j], topologyId, model, b.counts, parse, OutcomeOf(tools, |b.invocations|)))
  {
    var prefix := calls[..j + 1];
    assert prefix[..|prefix| - 1] == calls[..j];
    assert prefix[|prefix| - 1] == calls[j];
  }

  /** Once a call raises, the later calls are not dispatched. */
  lemma {:induction false} CrashSticks(calls: seq<CallRef>, k: nat, topologyId: string, model: string, counts: Counts,
                                       invocations: seq<Invocation>, parse: Parser, tools: nat -> ToolOutcome)
    requires k <= |calls| && DispatchSeq(calls[..k], topologyId, model, counts, invocations, parse, tools).crashed
    ensures DispatchSeq(calls, topologyId, model, counts, invocations, parse, tools)
         == DispatchSeq(calls[..k], topologyId, model, counts, invocations, parse, tools)
    decreases |calls| - k
  {
    if k < |calls| {
      var init := calls[..|calls| - 1];
      assert init[..k] == calls[..k];
      CrashSticks(init, k, topologyId, model, counts, invocations, parse, tools);
    } else {
      assert calls[..k] == calls;
    }
  }

  /** The `for tc in tool_calls` loop (source lines 312-398): the calls run one after the other, the
      counters and the invocation count threaded through, until one raises. */
  method DispatchAll(calls: seq<CallRef>, topologyId: string, model: string, counts: Counts,
                     invocations: seq<Invocation>, parse: Parser, tools: nat -> ToolOutcome)
    returns (answers: seq<Message>, events: seq<DispatchEvent>, counts': Counts, invocations': seq<Invocation>, crashed: bool)
    ensures Batch(answers, events, counts', invocations', crashed)
         == DispatchSeq(calls, topologyId, model, counts, invocations, parse, tools)
  {
    answers, events, counts', invocations', crashed := [], [], counts, invocations, false;
    assert calls[..0] == [];
    for j := 0 to |calls|
      invariant DispatchSeq(calls[..j], topologyId, model, counts, invocations, parse, tools)
             == Batch(answers, events, counts', invocations', false)
    {
      var r := DispatchCall(calls[j], topologyId, model, counts', parse, tools(|invocations'|));
      DispatchPrefix(calls, j, topologyId, model, counts, invocations, parse, tools);
      events := events + r.events;
      if r.DispatchCrashed? {
        crashed := true;
        CrashSticks(calls, j + 1, topologyId, model, counts, invocations, parse, tools);
        return;
      }
      answers := answers + [r.answer];
      counts' := r.counts;
      if r.invoked.Some? {
        invocations' := invocations' + [r.invoked.value];
      }
    }
    assert calls[..|calls|] == calls;
  }

  /** One more answer for the next call. */
  lemma AnswersStep(calls: seq<CallRef>, j: nat, answers: seq<Message>, a: Message)
    requires j < |calls| && |answers| == j && Answers(calls[..j], answers)
    requires a == ToolResult(calls[j].id, calls[j].name, a.content)
    ensures Answers(calls[..j + 1], answers + [a])
  {
    forall i | 0 <= i < j + 1
      ensures (answers + [a])[i] == ToolResult(calls[..j + 1][i].id, calls[..j + 1][i].name, (answers + [a])[i].content)
    {
      if i < j {
        assert calls[..j + 1][i] == calls[..j][i];
      }
    }
  }

  /** One more invocation carrying the topology. */
  lemma CarryStep(invocations: seq<Invocation>, v: Invocation, topologyId: string)
    requires TopologyKey in v.args && v.args[TopologyKey] == JStr(topologyId)
    ensures AllCarry(invocations, topologyId) ==> AllCarry(invocations + [v], topologyId)
  {
    if AllCarry(invocations, topologyId) {
      forall j | 0 <= j < |invocations + [v]|
        ensures TopologyKey in (invocations + [v])[j].args && (invocations + [v])[j].args[TopologyKey] == JStr(topologyId)
      {
        if j < |invocations| {
          assert (invocations + [v])[j] == invocations[j];
        }
      }
    }
  }

  /** What one iteration leaves: `verdict` is `None` when the loop goes on; `kept` is the transcript after
      truncation, which `messages` extends. */
  datatype Turn = Turn(
    verdict: Option<Outcome>,
    events: seq<Event>,
    kept: seq<Message>,
    messages: seq<Message>,
    counts: Counts,
    invocations: seq<Invocation>)

  /** The decoder's emissions as yielded events. */
  function SaidEvents(es: seq<Emission>): seq<Event> {
    seq(|es|, j requires 0 <= j < |es| => Said(es[j]))
  }

  /** The calls' progress events as yielded events. */
  function ProgressEvents(ps: seq<DispatchEvent>): seq<Event> {
    seq(|ps|, j requires 0 <= j < |ps| => Progress(ps[j]))
  }

  /** One iteration after the cancel check (source lines 214-398): truncation, one completion request, the
      decoded stream, and the tool calls. A failed connection yields one connection-error event and a broken
      stream the text it streamed and then one streaming-error event, both ending the run. A clean stream
      yields its text as it arrives, and ends the run unless it reported tool calls; those are dispatched
      with the counters and the invocation log of the earlier iterations, and their progress events follow.
      The loop goes on exactly when no call raised; then one round holding the streamed content and the
      calls is appended. */
  function Step(messages: seq<Message>, counts: Counts, invocations: seq<Invocation>, topologyId: string, model: string,
                completion: Completion, parse: Parser, tools: nat -> ToolOutcome): (t: Turn)
    requires WellFormed(messages)
    ensures t.kept == Kept(messages) && (t.kept == messages || t.kept == [messages[0]])
    ensures Judged(t, completion)
    ensures completion.Stream? && Healthy(completion.items) ==>
              |t.events| >= |EmittedFor(completion.items)|
              && t.events[..|EmittedFor(completion.items)|] == SaidEvents(EmittedFor(completion.items))
    ensures t.verdict in {Some(Finished), Some(ConnectionLost), Some(StreamBroken)} ==>
              t.counts == counts && t.invocations == invocations && t.messages == t.kept
    ensures t.verdict != Some(Crashed) ==> WellFormed(t.messages)
    ensures t.verdict.None? ==>
              && |t.messages| > |t.kept|
              && t.messages[..|t.kept|] == t.kept
              && t.messages[|t.kept|] == Assistant(Text.Concat(ContentFragments(completion.items)), CallsFor(completion.items))
              && IsRound(t.messages[|t.kept|..])
    ensures |t.invocations| >= |invocations| && t.invocations[..|invocations|] == invocations
    ensures AllCarry(invocations, topologyId) ==> AllCarry(t.invocations, topologyId)
    ensures StoppedByUser !in t.events
  {
    var kept := Kept(messages);
    TruncationKeepsShape(messages, kept);
    match completion
    case ConnectFailed(reason) => Turn(Some(ConnectionLost), [ConnectionError(reason)], kept, kept, counts, invocations)
    case Stream(items) => Streamed(kept, items, topologyId, model, counts, invocations, parse, tools)
  }

  /** The iteration after a stream was opened: a broken stream ends the run, a clean one is heard. */
  function Streamed(kept: seq<Message>, items: seq<StreamItem>, topologyId: string, model: string, counts: Counts,
                    invocations: seq<Invocation>, parse: Parser, tools: nat -> ToolOutcome): (t: Turn)
    requires WellFormed(kept)
    ensures t.kept == kept
    ensures Judged(t, Stream(items))
    ensures Healthy(items) ==>
              |t.events| >= |EmittedFor(items)| && t.events[..|EmittedFor(items)|] == SaidEvents(EmittedFor(items))
    ensures t.verdict in {Some(Finished), Some(StreamBroken)} ==>
              t.counts == counts && t.invocations == invocations && t.messages == kept
    ensures t.verdict != Some(Crashed) ==> WellFormed(t.messages)
    ensures t.verdict.None? ==>
              && |t.messages| > |kept|
              && t.messages[..|kept|] == kept
              && t.messages[|kept|] == Assistant(Text.Concat(ContentFragments(items)), CallsFor(items))
              && IsRound(t.messages[|kept|..])
    ensures |t.invocations| >= |invocations| && t.invocations[..|invocations|] == invocations
    ensures AllCarry(invocations, topologyId) ==> AllCarry(t.invocations, topologyId)
    ensures StoppedByUser !in t.events
  {
    if !Healthy(items) then
      Turn(Some(StreamBroken), SaidEvents(ShownBeforeFault(items)) + [StreamingError(FailureReason(items))],
           kept, kept, counts, invocations)
    else Heard(kept, items, topologyId, model, counts, invocations, parse, tools)
  }

  /** How an iteration's verdict follows from its completion: a failed connection ends the run with one
      connection-error event, a broken stream with the text shown before the fault and one streaming-error
      event, and a clean stream that reported no tool calls finishes it. No iteration ends the run at the
      cap or on a stop request. */
  predicate Judged(t: Turn, completion: Completion) {
    && (t.verdict == Some(ConnectionLost) <==> completion.ConnectFailed?)
    && (t.verdict == Some(StreamBroken) <==> completion.Stream? && !Healthy(completion.items))
    && (t.verdict == Some(Finished) <==>
          completion.Stream? && Healthy(completion.items) && SlotCount(Fragments(completion.items)) == 0)
    && t.verdict != Some(IterationCap) && t.verdict != Some(StoppedEarly)
    && (completion.ConnectFailed? ==> t.events == [ConnectionError(completion.reason)])
    && (completion.Stream? && !Healthy(completion.items) ==>
          t.events == SaidEvents(ShownBeforeFault(completion.items)) + [StreamingError(FailureReason(completion.items))])
  }

  /** The iteration after a clean stream: its text, then, unless it reported no tool calls (which ends the
      run), the round of calls and answers. */
  function Heard(kept: seq<Message>, items: seq<StreamItem>, topologyId: string, model: string, counts: Counts,
                 invocations: seq<Invocation>, parse: Parser, tools: nat -> ToolOutcome): (t: Turn)
    requires WellFormed(kept) && Healthy(items)
    ensures t.kept == kept && (t.verdict.None? || t.verdict == Some(Finished) || t.verdict == Some(Crashed))
    ensures t.verdict == Some(Finished) <==> SlotCount(Fragments(items)) == 0
    ensures |t.events| >= |EmittedFor(items)| && t.events[..|EmittedFor(items)|] == SaidEvents(EmittedFor(items))
    ensures StoppedByUser !in t.events
    ensures t.verdict == Some(Finished) ==> t.counts == counts && t.invocations == invocations && t.messages == kept
    ensures t.verdict != Some(Crashed) ==> WellFormed(t.messages)
    ensures t.verdict.None? ==>
              && |t.messages| > |kept|
              && t.messages[..|kept|] == kept
              && t.messages[|kept|] == Assistant(Text.Concat(ContentFragments(items)), CallsFor(items))
              && IsRound(t.messages[|kept|..])
    ensures |t.invocations| >= |invocations| && t.invocations[..|invocations|] == invocations
    ensures AllCarry(invocations, topologyId) ==> AllCarry(t.invocations, topologyId)
  {
    var said := SaidEvents(EmittedFor(items));
    assert StoppedByUser !in said;
    if SlotCount(Fragments(items)) == 0 then Turn(Some(Finished), said, kept, kept, counts, invocations)
    else Responded(kept, said, Text.Concat(ContentFragments(items)), CallsFor(items),
                   topologyId, model, counts, invocations, parse, tools)
  }

  /** The assistant message recording the calls, then their answers (source lines 298-398), after the
      events already yielded: the loop goes on unless a call raised, and then the transcript is extended
      by one well-formed round; the counters and the invocation log are those the calls left. */
  function Responded(kept: seq<Message>, said: seq<Event>, content: string, calls: seq<CallRef>, topologyId: string,
                     model: string, counts: Counts, invocations: seq<Invocation>, parse: Parser,
                     tools: nat -> ToolOutcome): (t: Turn)
    requires WellFormed(kept)
    ensures t.kept == kept && (t.verdict.None? || t.verdict == Some(Crashed))
    ensures |t.events| >= |said| && t.events[..|said|] == said
    ensures StoppedByUser !in said ==> StoppedByUser !in t.events
    ensures t.verdict.None? ==>
              && WellFormed(t.messages)
              && |t.messages| > |kept|
              && t.messages[..|kept|] == kept
              && t.messages[|kept|] == Assistant(content, calls)
              && IsRound(t.messages[|kept|..])
    ensures |t.invocations| >= |invocations| && t.invocations[..|invocations|] == invocations
    ensures AllCarry(invocations, topologyId) ==> AllCarry(t.invocations, topologyId)
  {
    var b := DispatchSeq(calls, topologyId, model, counts, invocations, parse, tools);
    var round := [Assistant(content, calls)] + b.answers;
    var events := said + ProgressEvents(b.events);
    assert (said + ProgressEvents(b.events))[..|said|] == said;
    assert StoppedByUser !in ProgressEvents(b.events);
    if b.crashed then Turn(Some(Crashed), events, kept, kept + round, b.counts, b.invocations)
    else
      assert round[1..] == b.answers;
      WellFormedAppendRound(kept, round);
      assert (kept + round)[..|kept|] == kept;
      assert (kept + round)[|kept|..] == round;
      Turn(None, events, kept, kept + round, b.counts, b.invocations)
  }

  /** The iteration as the loop runs it: truncate, request, decode, and dispatch. */
  method Iterate(messages: seq<Message>, counts: Counts, invocations: seq<Invocation>, topologyId: string, model: string,
                 completion: Completion, parse: Parser, tools: nat -> ToolOutcome)
    returns (t: Turn)
    requires WellFormed(messages)
    ensures t == Step(messages, counts, invocations, topologyId, model, completion, parse, tools)
  {
    var kept := Truncate(messages);
    TruncationKeepsShape(messages, kept);
    if completion.ConnectFailed? {
      return Turn(Some(ConnectionLost), [ConnectionError(completion.reason)], kept, kept, counts, invocations);
    }
    var d := Decode(completion.items);
    var said := SaidEvents(d.emitted);
    if d.failure.Some? {
      return Turn(Some(StreamBroken), said + [StreamingError(d.failure.value)], kept, kept, counts, invocations);
    }
    if d.toolCalls == [] {
      return Turn(Some(Finished), said, kept, kept, counts, invocations);
    }
    CallsForSlots(completion.items, d.toolCalls);
    ContentIsFragments(completion.items);
    t := Respond(kept, said, d.content, CallRefs(d.toolCalls), topologyId, model, counts, invocations, parse, tools);
  }

  /** The assistant message and the answers as the loop builds them. */
  method Respond(kept: seq<Message>, said: seq<Event>, content: string, calls: seq<CallRef>, topologyId: string,
                 model: string, counts: Counts, invocations: seq<Invocation>, parse: Parser, tools: nat -> ToolOutcome)
    returns (t: Turn)
    requires WellFormed(kept)
    ensures t == Responded(kept, said, content, calls, topologyId, model, counts, invocations, parse, tools)
  {
    var answers, progress, counts', invocations', crashed :=
      DispatchAll(calls, topologyId, model, counts, invocations, parse, tools);
    var round := [Assistant(content, calls)] + answers;
    var events := said + ProgressEvents(progress);
    if crashed {
      return Turn(Some(Crashed), events, kept, kept + round, counts', invocations');
    }
    t := Turn(None, events, kept, kept + round, counts', invocations');
  }

  /** The recorded calls of the accumulators, in slot order, each id defaulted. */
  function CallRefs(slots: seq<ToolCallSlot>): (r: seq<CallRef>)
    ensures |r| == |slots|
  {
    seq(|slots|, j requires 0 <= j < |slots| => CallRef(IdOrDefault(slots[j].id), slots[j].name, slots[j].arguments))
  }

  /** Accumulators that match the stream record exactly the calls the stream reported. */
  lemma CallsForSlots(items: seq<StreamItem>, slots: seq<ToolCallSlot>)
    requires SlotsMatch(slots, Fragments(items))
    ensures CallRefs(slots) == CallsFor(items)
  {
    var fs := Fragments(items);
    forall j | 0 <= j < |slots|
      ensures CallRefs(slots)[j] == CallsFor(items)[j]
    {
      CallsBelowAt(fs, SlotCount(fs), j);
    }
  }

  /** The transcript a run starts from: the system prompt and the user's request. */
  function Seed(systemPrompt: string, userQuery: string): (seed: seq<Message>)
    ensures WellFormed(seed) && |seed| == 2
  {
    var seed := [System(systemPrompt), User(userQuery)];
    assert seed[2..] == [];
    seed
  }

  /** What the loop carries from one iteration to the next. */
  datatype Carried = Carried(messages: seq<Message>, counts: Counts, invocations: seq<Invocation>, events: seq<Event>)

  /** How the loop ends: its outcome, every event yielded, the transcript, the number of completions
      requested, and the invocations made. */
  datatype Ended = Ended(outcome: Outcome, events: seq<Event>, messages: seq<Message>, iterations: nat,
                         invocations: seq<Invocation>)

  /** The `while iteration < max_iterations` loop (source lines 209-398) from iteration `n` on, given what the
      earlier iterations carried. A stop request arriving before the check of iteration `n` ends it with one
      stop event when the run is registered, that is, under a non-empty session id; otherwise one more
      completion is requested and the iteration runs, its transcript, counters and invocations carried to
      the next. After ten completions the loop ends by itself. */
  function Loop(n: nat, c: Carried, sessionId: string, topologyId: string, model: string, env: Environment): (e: Ended)
    requires n <= MaxIterations && WellFormed(c.messages)
    decreases MaxIterations - n, 2, c
  {
    if n == MaxIterations then Ended(IterationCap, c.events, c.messages, n, c.invocations)
    else Check(n, c, sessionId, topologyId, model, env)
  }

  /** The cancel check at the top of iteration `n`. */
  function Check(n: nat, c: Carried, sessionId: string, topologyId: string, model: string, env: Environment): (e: Ended)
    requires n < MaxIterations && WellFormed(c.messages)
    decreases MaxIterations - n, 1, c
  {
    if sessionId != "" && env.stops(n) then Ended(StoppedEarly, c.events + [StoppedByUser], c.messages, n, c.invocations)
    else Advance(n, c, sessionId, topologyId, model, env)
  }

  /** Iteration `n` itself, once the cancel check has let it run: the loop ends on its verdict, after
      `n + 1` completions, or goes on from `n + 1` with what it left. */
  function Advance(n: nat, c: Carried, sessionId: string, topologyId: string, model: string, env: Environment): (e: Ended)
    requires n < MaxIterations && WellFormed(c.messages)
    decreases MaxIterations - n, 0, c
  {
    var t := Step(c.messages, c.counts, c.invocations, topologyId, model, env.completions(n), env.parse, env.tools);
    if t.verdict.Some? then Ended(t.verdict.value, c.events + t.events, t.messages, n + 1, t.invocations)
    else Loop(n + 1, Carried(t.messages, t.counts, t.invocations, c.events + t.events), sessionId, topologyId, model, env)
  }

  /** However the loop ends from iteration `n`, it concludes as `Concludes` says. */
  lemma {:induction false} LoopConcludes(n: nat, c: Carried, sessionId: string, topologyId: string, model: string,
                                         env: Environment)
    requires n <= MaxIterations && WellFormed(c.messages)
    ensures Concludes(Loop(n, c, sessionId, topologyId, model, env), n, c, sessionId, topologyId, env)
    decreases MaxIterations - n, 2
  {
    if n == MaxIterations {
      CapConcludes(n, c, sessionId, topologyId, env);
    } else if sessionId != "" && env.stops(n) {
      StopConcludes(n, c, sessionId, topologyId, env);
    } else {
      AdvanceConcludes(n, c, sessionId, topologyId, model, env);
    }
  }

  /** The same for the loop from iteration `n` once the cancel check has let that iteration run. */
  lemma {:induction false} AdvanceConcludes(n: nat, c: Carried, sessionId: string, topologyId: string, model: string,
                                            env: Environment)
    requires n < MaxIterations && WellFormed(c.messages) && !(sessionId != "" && env.stops(n))
    ensures Concludes(Advance(n, c, sessionId, topologyId, model, env), n, c, sessionId, topologyId, env)
    decreases MaxIterations - n, 1
  {
    var t := Step(c.messages, c.counts, c.invocations, topologyId, model, env.completions(n), env.parse, env.tools);
    if t.verdict.Some? {
      VerdictAdvanceConcludes(n, c, t, sessionId, topologyId, model, env);
    } else {
      LaterAdvanceConcludes(n, c, t, sessionId, topologyId, model, env);
    }
  }

  /** An iteration with a verdict concludes. */
  lemma VerdictAdvanceConcludes(n: nat, c: Carried, t: Turn, sessionId: string, topologyId: string, model: string,
                                env: Environment)
    requires n < MaxIterations && WellFormed(c.messages) && !(sessionId != "" && env.stops(n))
    requires t == Step(c.messages, c.counts, c.invocations, topologyId, model, env.completions(n), env.parse, env.tools)
    requires t.verdict.Some?
    ensures Concludes(Advance(n, c, sessionId, topologyId, model, env), n, c, sessionId, topologyId, env)
  {
    VerdictConcludes(n, c, t, sessionId, topologyId, env);
  }

  /** An iteration without a verdict concludes, since the loop from the next iteration does. */
  lemma {:induction false} LaterAdvanceConcludes(n: nat, c: Carried, t: Turn, sessionId: string, topologyId: string,
                                                 model: string, env: Environment)
    requires n < MaxIterations && WellFormed(c.messages) && !(sessionId != "" && env.stops(n))
    requires t == Step(c.messages, c.counts, c.invocations, topologyId, model, env.completions(n), env.parse, env.tools)
    requires t.verdict.None?
    ensures Concludes(Advance(n, c, sessionId, topologyId, model, env), n, c, sessionId, topologyId, env)
    decreases MaxIterations - n, 0
  {
    var next := Carried(t.messages, t.counts, t.invocations, c.events + t.events);
    LoopConcludes(n + 1, next, sessionId, topologyId, model, env);
    LaterConcludes(n, c, t, Loop(n + 1, next, sessionId, topologyId, model, env), sessionId, topologyId, env);
  }

  /** What the loop promises about how it ended, started at iteration `n` with `c` carried: it requested
      at most ten completions in all and at least one more for each outcome an iteration decides; the
      events carried come first; a stop event appears exactly when it stopped early, which happens only
      for a registered run whose stop request arrived before the last check, and no earlier request
      arrived; the cap ends it only after ten completions; a finished run's last completion was a clean
      stream without tool calls; a lost connection and a broken stream end with their error event; the
      transcript stays well formed unless the run crashed; and every invocation carries the topology. */
  predicate Concludes(e: Ended, n: nat, c: Carried, sessionId: string, topologyId: string, env: Environment) {
    && n <= e.iterations <= MaxIterations
    && |e.events| >= |c.events| && e.events[..|c.events|] == c.events
    && (StoppedByUser !in c.events ==> (e.outcome == StoppedEarly <==> StoppedByUser in e.events))
    && (e.outcome == StoppedEarly ==> sessionId != "" && env.stops(e.iterations))
    && (sessionId != "" ==> Unstopped(env.stops, n, e.iterations))
    && (e.outcome == IterationCap ==> e.iterations == MaxIterations)
    && (e.outcome == Finished ==>
          && e.iterations > n
          && var last := LastRequest(env.completions, e.iterations);
             last.Stream? && Healthy(last.items) && SlotCount(Fragments(last.items)) == 0)
    && (e.outcome == ConnectionLost ==>
          && e.iterations > n && |e.events| > |c.events|
          && var last := LastRequest(env.completions, e.iterations);
             last.ConnectFailed? && LastEvent(e.events) == ConnectionError(last.reason))
    && (e.outcome == StreamBroken ==>
          && e.iterations > n && |e.events| > |c.events|
          && var last := LastRequest(env.completions, e.iterations);
             last.Stream? && !Healthy(last.items) && LastEvent(e.events) == StreamingError(FailureReason(last.items)))
    && (e.outcome != Crashed ==> WellFormed(e.messages))
    && (AllCarry(c.invocations, topologyId) ==> AllCarry(e.invocations, topologyId))
  }

  /** The loop ending at the cap concludes. */
  lemma CapConcludes(n: nat, c: Carried, sessionId: string, topologyId: string, env: Environment)
    requires n == MaxIterations && WellFormed(c.messages)
    ensures Concludes(Ended(IterationCap, c.events, c.messages, n, c.invocations), n, c, sessionId, topologyId, env)
  {
    assert c.events[..|c.events|] == c.events;
  }

  /** The loop ending on a stop request concludes. */
  lemma StopConcludes(n: nat, c: Carried, sessionId: string, topologyId: string, env: Environment)
    requires n <= MaxIterations && WellFormed(c.messages) && sessionId != "" && env.stops(n)
    ensures Concludes(Ended(StoppedEarly, c.events + [StoppedByUser], c.messages, n, c.invocations),
                      n, c, sessionId, topologyId, env)
  {
    assert (c.events + [StoppedByUser])[..|c.events|] == c.events;
  }

  /** The loop ending on the verdict of iteration `n` concludes. */
  lemma VerdictConcludes(n: nat, c: Carried, t: Turn, sessionId: string, topologyId: string, env: Environment)
    requires n < MaxIterations && !(sessionId != "" && env.stops(n))
    requires t.verdict.Some? && Judged(t, env.completions(n))
    requires t.verdict != Some(Crashed) ==> WellFormed(t.messages)
    requires AllCarry(c.invocations, topologyId) ==> AllCarry(t.invocations, topologyId)
    requires StoppedByUser !in t.events
    ensures Concludes(Ended(t.verdict.value, c.events + t.events, t.messages, n + 1, t.invocations),
                      n, c, sessionId, topologyId, env)
  {
    var e := Ended(t.verdict.value, c.events + t.events, t.messages, n + 1, t.invocations);
    assert e.events[..|c.events|] == c.events;
    assert LastRequest(env.completions, e.iterations) == env.completions(n);
    LastOfAppend(c.events, t.events);
    UnstoppedFrom(env.stops, n, e.iterations);
  }

  /** The loop going on past iteration `n` concludes from `n` when it concludes from `n + 1`. */
  lemma LaterConcludes(n: nat, c: Carried, t: Turn, e: Ended, sessionId: string, topologyId: string, env: Environment)
    requires n < MaxIterations && !(sessionId != "" && env.stops(n))
    requires StoppedByUser !in t.events
    requires AllCarry(c.invocations, topologyId) ==> AllCarry(t.invocations, topologyId)
    requires Concludes(e, n + 1, Carried(t.messages, t.counts, t.invocations, c.events + t.events),
                       sessionId, topologyId, env)
    ensures Concludes(e, n, c, sessionId, topologyId, env)
  {
    assert e.events[..|c.events|] == (c.events + t.events)[..|c.events|];
    UnstoppedFrom(env.stops, n, e.iterations);
  }

  /** The completion requested last, when `iterations` have been requested. */
  function LastRequest(completions: nat -> Completion, iterations: nat): Completion
    requires iterations > 0
  {
    completions(iterations - 1)
  }

  /** The event yielded last. */
  function LastEvent(events: seq<Event>): Event
    requires events != []
  {
    events[|events| - 1]
  }

  /** No stop request arrives before the checks of iterations `from` to `to - 1`. */
  predicate Unstopped(stops: nat -> bool, from: nat, to: nat) {
    forall m | from <= m < to :: !stops(m)
  }

  /** Iteration `n` was not stopped, nor were the ones after it up to `to`. */
  lemma UnstoppedFrom(stops: nat -> bool, n: nat, to: nat)
    ensures !stops(n) && Unstopped(stops, n + 1, to) ==> Unstopped(stops, n, to)
  {
    if !stops(n) && Unstopped(stops, n + 1, to) {
      forall m | n <= m < to
        ensures !stops(m)
      {
        if m != n {
          assert n + 1 <= m;
        }
      }
    }
  }

  /** With no stop request before the checks of iterations `0` to `to - 1`, none was requested by the last. */
  lemma NoEarlierRequest(stops: nat -> bool, to: nat)
    requires Unstopped(stops, 0, to) && to > 0
    ensures !StopRequested(stops, to - 1)
  {
  }

  /** The last event after a non-empty batch is the batch's last. */
  lemma LastOfAppend(before: seq<Event>, batch: seq<Event>)
    ensures batch != [] ==> LastEvent(before + batch) == LastEvent(batch)
  {
  }

  /** `run_agent_loop` (source lines 97-401). The run registers a fresh cancel flag under its session id
      (a non-empty one only), adapts the tool catalog, and runs the loop from the seeded transcript with
      fresh retry counters: the counters live for one run. A stop request is honoured only at the top of an
      iteration. The entry is removed after the loop, whoever registered it last, but not on the early
      returns for a failed connection or a broken stream, nor when an exception escapes. */
  method RunAgentLoop(registry: Registry, topologyId: string, userQuery: string, history: seq<Json>, model: string,
                      sessionId: string, systemPrompt: string, env: Environment)
    returns (run: Run)
    requires registry.Valid()
    modifies registry
    ensures registry.Valid()
    ensures sessionId == "" ==> registry.tasks == old(registry.tasks)
    ensures forall k | k != sessionId ::
              (k in registry.tasks <==> k in old(registry.tasks)) && (k in registry.tasks ==> registry.tasks[k] == old(registry.tasks)[k])
    ensures sessionId != "" ==>
              (sessionId in registry.tasks <==> run.outcome in {ConnectionLost, StreamBroken, Crashed})
    ensures (exists i | 0 <= i < |env.catalog| :: AdaptSchema(env.catalog[i].inputSchema).None?) ==>
              run == Run(Crashed, [], [], [], 0, [])
    ensures (forall i | 0 <= i < |env.catalog| :: AdaptSchema(env.catalog[i].inputSchema).Some?) ==>
              var e := Loop(0, Carried(Seed(systemPrompt, userQuery), map[], [], []), sessionId, topologyId, model, env);
              Run(e.outcome, e.events, run.offered, e.messages, e.iterations, e.invocations) == run
    ensures run.completionCalls <= MaxIterations
    ensures run.outcome == StoppedEarly <==> StoppedByUser in run.events
    ensures run.outcome == StoppedEarly ==> sessionId != "" && StopRequested(env.stops, run.completionCalls)
    ensures sessionId != "" && run.completionCalls > 0 ==> !StopRequested(env.stops, run.completionCalls - 1)
    ensures run.outcome == IterationCap ==> run.completionCalls == MaxIterations
    ensures run.outcome == Finished ==>
              && run.completionCalls >= 1
              && var c := env.completions(run.completionCalls - 1);
                 c.Stream? && Healthy(c.items) && SlotCount(Fragments(c.items)) == 0
    ensures run.outcome != Crashed ==> WellFormed(run.messages)
    ensures AllCarry(run.invocations, topologyId)
  {
    var flag := new CancelFlag();
    registry.Register(sessionId, flag);
    run := Converse(registry, flag, topologyId, userQuery, model, sessionId, systemPrompt, env);
    if run.outcome !in {ConnectionLost, StreamBroken, Crashed} {
      registry.Unregister(sessionId);
    }
  }

  /** The run between registering its flag and the clean-up (source lines 105-398): the tool catalog is
      adapted, which raises before the loop when some schema cannot be, and the loop runs from the seeded
      transcript. The registry's entries stay as they are; only the run's own flag may be raised. */
  method Converse(registry: Registry, flag: CancelFlag, topologyId: string, userQuery: string, model: string,
                  sessionId: string, systemPrompt: string, env: Environment)
    returns (run: Run)
    requires registry.Valid() && !flag.cancelled
    requires sessionId in registry.tasks ==> registry.tasks[sessionId] == flag
    requires sessionId != "" ==> sessionId in registry.tasks
    modifies flag
    ensures (exists i | 0 <= i < |env.catalog| :: AdaptSchema(env.catalog[i].inputSchema).None?) ==>
              run == Run(Crashed, [], [], [], 0, [])
    ensures (forall i | 0 <= i < |env.catalog| :: AdaptSchema(env.catalog[i].inputSchema).Some?) ==>
              var e := Loop(0, Carried(Seed(systemPrompt, userQuery), map[], [], []), sessionId, topologyId, model, env);
              Run(e.outcome, e.events, run.offered, e.messages, e.iterations, e.invocations) == run
    ensures run.completionCalls <= MaxIterations
    ensures run.outcome == StoppedEarly <==> StoppedByUser in run.events
    ensures run.outcome == StoppedEarly ==> sessionId != "" && StopRequested(env.stops, run.completionCalls)
    ensures sessionId != "" && run.completionCalls > 0 ==> !StopRequested(env.stops, run.completionCalls - 1)
    ensures run.outcome == IterationCap ==> run.completionCalls == MaxIterations
    ensures run.outcome == Finished ==>
              && run.completionCalls >= 1
              && var c := env.completions(run.completionCalls - 1);
                 c.Stream? && Healthy(c.items) && SlotCount(Fragments(c.items)) == 0
    ensures run.outcome != Crashed ==> WellFormed(run.messages)
    ensures AllCarry(run.invocations, topologyId)
  {
    var offered := AdaptCatalog(env.catalog);
    if offered.None? {
      return Run(Crashed, [], [], [], 0, []);
    }
    var e := Iterations(registry, flag, sessionId, Seed(systemPrompt, userQuery), topologyId, model, env);
    LoopConcludes(0, Carried(Seed(systemPrompt, userQuery), map[], [], []), sessionId, topologyId, model, env);
    run := Run(e.outcome, e.events, offered.value, e.messages, e.iterations, e.invocations);
    RunReports(e, run, Seed(systemPrompt, userQuery), sessionId, topologyId, env);
  }


  /** What a run reports about its loop, read off how the loop concluded from the seeded transcript. */
  lemma RunReports(e: Ended, run: Run, seed: seq<Message>, sessionId: string, topologyId: string, env: Environment)
    requires Concludes(e, 0, Carried(seed, map[], [], []), sessionId, topologyId, env)
    requires run.outcome == e.outcome && run.events == e.events && run.messages == e.messages
    requires run.completionCalls == e.iterations && run.invocations == e.invocations
    ensures run.completionCalls <= MaxIterations
    ensures run.outcome == StoppedEarly <==> StoppedByUser in run.events
    ensures run.outcome == StoppedEarly ==> sessionId != "" && StopRequested(env.stops, run.completionCalls)
    ensures sessionId != "" && run.completionCalls > 0 ==> !StopRequested(env.stops, run.completionCalls - 1)
    ensures run.outcome == IterationCap ==> run.completionCalls == MaxIterations
    ensures run.outcome == Finished ==>
              && run.completionCalls >= 1
              && var c := env.completions(run.completionCalls - 1);
                 c.Stream? && Healthy(c.items) && SlotCount(Fragments(c.items)) == 0
    ensures run.outcome != Crashed ==> WellFormed(run.messages)
    ensures AllCarry(run.invocations, topologyId)
  {
    if run.outcome == StoppedEarly {
      assert env.stops(run.completionCalls);
    }
    if sessionId != "" && run.completionCalls > 0 {
      NoEarlierRequest(env.stops, run.completionCalls);
    }
  }

  /** The `while iteration < max_iterations` loop of `run_agent_loop` (source lines 209-398) on the seeded
      transcript with fresh retry counters. Before each iteration the run's flag is checked; it is raised by
      the stop requests that arrive, and by nothing else. */
  method Iterations(registry: Registry, flag: CancelFlag, sessionId: string, seed: seq<Message>, topologyId: string,
                    model: string, env: Environment)
    returns (e: Ended)
    requires registry.Valid() && !flag.cancelled && WellFormed(seed)
    requires sessionId in registry.tasks ==> registry.tasks[sessionId] == flag
    requires sessionId != "" ==> sessionId in registry.tasks
    modifies flag
    ensures e == Loop(0, Carried(seed, map[], [], []), sessionId, topologyId, model, env)
  {
    var carried := Carried(seed, map[], [], []);
    var iteration := 0;
    while iteration < MaxIterations
      invariant 0 <= iteration <= MaxIterations
      invariant !flag.cancelled && WellFormed(carried.messages)
      invariant Loop(0, Carried(seed, map[], [], []), sessionId, topologyId, model, env)
             == Loop(iteration, carried, sessionId, topologyId, model, env)
    {
      var ended, next := Round(registry, flag, sessionId, topologyId, model, env, iteration, carried);
      if ended.Some? {
        return ended.value;
      }
      carried, iteration := next, iteration + 1;
    }
    LoopCaps(iteration, carried, sessionId, topologyId, model, env);
    e := Ended(IterationCap, carried.events, carried.messages, iteration, carried.invocations);
  }

  /** One pass through the body of the loop, at iteration `n` with `c` carried: the stop check, then the
      iteration itself. It either ends the loop as `Loop` says, or leaves what the next iteration carries. */
  method Round(registry: Registry, flag: CancelFlag, sessionId: string, topologyId: string, model: string,
               env: Environment, n: nat, c: Carried)
    returns (ended: Option<Ended>, next: Carried)
    requires registry.Valid() && !flag.cancelled && n < MaxIterations && WellFormed(c.messages)
    requires sessionId in registry.tasks ==> registry.tasks[sessionId] == flag
    requires sessionId != "" ==> sessionId in registry.tasks
    modifies flag
    ensures ended.Some? ==> ended.value == Loop(n, c, sessionId, topologyId, model, env)
    ensures ended.None? ==> !flag.cancelled && WellFormed(next.messages)
    ensures ended.None? ==> Loop(n, c, sessionId, topologyId, model, env)
                            == Loop(n + 1, next, sessionId, topologyId, model, env)
  {
    next := c;
    if env.stops(n) {
      var _ := registry.Stop(sessionId);
    }
    if flag.cancelled {
      LoopStops(n, c, sessionId, topologyId, model, env);
      return Some(Ended(StoppedEarly, c.events + [StoppedByUser], c.messages, n, c.invocations)), next;
    }
    var turn := Iterate(c.messages, c.counts, c.invocations, topologyId, model, env.completions(n), env.parse, env.tools);
    LoopSteps(n, c, sessionId, topologyId, model, env, turn);
    if turn.verdict.Some? {
      return Some(Ended(turn.verdict.value, c.events + turn.events, turn.messages, n + 1, turn.invocations)), next;
    }
    next := Carried(turn.messages, turn.counts, turn.invocations, c.events + turn.events);
    ended := None;
  }

  /** The loop at the cap ends there. */
  lemma LoopCaps(n: nat, c: Carried, sessionId: string, topologyId: string, model: string, env: Environment)
    requires n == MaxIterations && WellFormed(c.messages)
    ensures Loop(n, c, sessionId, topologyId, model, env) == Ended(IterationCap, c.events, c.messages, n, c.invocations)
  {
  }

  /** A registered run whose stop request arrived before the check of iteration `n` stops there. */
  lemma LoopStops(n: nat, c: Carried, sessionId: string, topologyId: string, model: string, env: Environment)
    requires n < MaxIterations && WellFormed(c.messages) && sessionId != "" && env.stops(n)
    ensures Loop(n, c, sessionId, topologyId, model, env)
         == Ended(StoppedEarly, c.events + [StoppedByUser], c.messages, n, c.invocations)
  {
  }

  /** Otherwise iteration `n` runs, and the loop ends on its verdict or goes on with what it left. */
  lemma LoopSteps(n: nat, c: Carried, sessionId: string, topologyId: string, model: string, env: Environment, t: Turn)
    requires n < MaxIterations && WellFormed(c.messages) && !(sessionId != "" && env.stops(n))
    requires t == Step(c.messages, c.counts, c.invocations, topologyId, model, env.completions(n), env.parse, env.tools)
    ensures t.verdict.Some? ==>
              Loop(n, c, sessionId, topologyId, model, env)
              == Ended(t.verdict.value, c.events + t.events, t.messages, n + 1, t.invocations)
    ensures t.verdict.None? ==>
              Loop(n, c, sessionId, topologyId, model, env)
              == Loop(n + 1, Carried(t.messages, t.counts, t.invocations, c.events + t.events), sessionId, topologyId, model, env)
  {
    assert Loop(n, c, sessionId, topologyId, model, env) == Advance(n, c, sessionId, topologyId, model, env);
  }

  // ---------------------------------------------------------------------------------------------
  // The retry limit within a run

  /** A failing push retried: the same push, naming each of its devices in one entry, is invoked and fails
      twice, and its third attempt in the same turn is refused without invoking the tool. */
  lemma RetriedPushRefused(p: CallRef, topologyId: string, model: string, counts: Counts, invocations: seq<Invocation>,
                           parse: Parser, tools: nat -> ToolOutcome, keys: seq<DeviceKey>)
    requires p.name == PushTool && PreparedArgs(parse, p, topologyId, model).Some?
    requires PushKeys(p.name, PreparedArgs(parse, p, topologyId, model).value) == Some(keys) && keys != []
    requires NamedOnce(keys) && forall j | 0 <= j < |keys| :: Count(counts, keys[j]) == 0
    requires PushFailed(tools(|invocations|)) && PushFailed(tools(|invocations| + 1))
    ensures var b := DispatchSeq([p, p, p], topologyId, model, counts, invocations, parse, tools);
            && !b.crashed
            && b.answers[0].content == ResultText(PushTool, tools(|invocations|))
            && b.answers[1].content == ResultText(PushTool, tools(|invocations| + 1))
            && b.answers[2].content == VetoText
            && |b.invocations| == |invocations| + 2
  {
    var calls := [p, p, p];
    assert calls[0] == p && calls[1] == p && calls[2] == p;
    OnceFailedAdmitted(counts, keys);
    TwoFailuresVeto(counts, keys, keys, keys, keys[0]);
    RetriedPushRefusedAt(calls, p, topologyId, model, counts, invocations, parse, tools, keys);
  }

  /** `RetriedPushRefused` for a batch of three calls, each the same push, the counter facts given. */
  lemma RetriedPushRefusedAt(calls: seq<CallRef>, p: CallRef, topologyId: string, model: string, counts: Counts, invocations: seq<Invocation>,
                           parse: Parser, tools: nat -> ToolOutcome, keys: seq<DeviceKey>)
    requires |calls| == 3 && calls[0] == p && calls[1] == p && calls[2] == p
    requires p.name == PushTool && PreparedArgs(parse, p, topologyId, model).Some?
    requires PushKeys(p.name, PreparedArgs(parse, p, topologyId, model).value) == Some(keys)
    requires !Vetoed(counts, keys)
    requires !Vetoed(AfterFailure(Registered(counts, keys), keys), keys)
    requires Vetoed(AfterFailure(Registered(AfterFailure(Registered(counts, keys), keys), keys), keys), keys)
    requires PushFailed(tools(|invocations|)) && PushFailed(tools(|invocations| + 1))
    ensures var b := DispatchSeq(calls, topologyId, model, counts, invocations, parse, tools);
            && !b.crashed
            && b.answers[0].content == ResultText(PushTool, tools(|invocations|))
            && b.answers[1].content == ResultText(PushTool, tools(|invocations| + 1))
            && b.answers[2].content == VetoText
            && |b.invocations| == |invocations| + 2
  {
    TwoFailedPushes(calls, topologyId, model, counts, invocations, parse, tools, keys);
    ThirdPushRefused(calls, topologyId, model, counts, invocations, parse, tools, keys);
  }

  /** A failing push through admission: invoked, answered with its result, and counted as a failure. */
  lemma FailedPushStep(calls: seq<CallRef>, j: nat, topologyId: string, model: string, counts: Counts,
                       invocations: seq<Invocation>, parse: Parser, tools: nat -> ToolOutcome, keys: seq<DeviceKey>)
    requires j < |calls| && calls[j].name == PushTool && PreparedArgs(parse, calls[j], topologyId, model).Some?
    requires PushKeys(PushTool, PreparedArgs(parse, calls[j], topologyId, model).value) == Some(keys)
    requires var b := DispatchSeq(calls[..j], topologyId, model, counts, invocations, parse, tools);
             !b.crashed && !Vetoed(b.counts, keys) && PushFailed(OutcomeOf(tools, |b.invocations|))
    ensures var b := DispatchSeq(calls[..j], topologyId, model, counts, invocations, parse, tools);
            var b' := DispatchSeq(calls[..j + 1], topologyId, model, counts, invocations, parse, tools);
            && !b'.crashed
            && b'.answers == b.answers + [ToolResult(calls[j].id, PushTool, ResultText(PushTool, OutcomeOf(tools, |b.invocations|)))]
            && |b'.invocations| == |b.invocations| + 1
            && b'.counts == AfterFailure(Registered(b.counts, keys), keys)
  {
    DispatchPrefix(calls, j, topologyId, model, counts, invocations, parse, tools);
  }

  /** A third call repeating the push after two failures is refused. */
  lemma ThirdPushRefused(calls: seq<CallRef>, topologyId: string, model: string, counts: Counts,
                         invocations: seq<Invocation>, parse: Parser, tools: nat -> ToolOutcome, keys: seq<DeviceKey>)
    requires |calls| == 3 && calls[2].name == PushTool && PreparedArgs(parse, calls[2], topologyId, model).Some?
    requires PushKeys(PushTool, PreparedArgs(parse, calls[2], topologyId, model).value) == Some(keys)
    requires var b := DispatchSeq(calls[..2], topologyId, model, counts, invocations, parse, tools);
             && !b.crashed && Vetoed(b.counts, keys) && |b.answers| == 2 && |b.invocations| == |invocations| + 2
             && b.answers[0].content == ResultText(PushTool, tools(|invocations|))
             && b.answers[1].content == ResultText(PushTool, tools(|invocations| + 1))
    ensures var b := DispatchSeq(calls, topologyId, model, counts, invocations, parse, tools);
            && !b.crashed
            && b.answers[0].content == ResultText(PushTool, tools(|invocations|))
            && b.answers[1].content == ResultText(PushTool, tools(|invocations| + 1))
            && b.answers[2].content == VetoText
            && |b.invocations| == |invocations| + 2
  {
    assert calls[..3] == calls;
    VetoedPushStep(calls, 2, topologyId, model, counts, invocations, parse, tools, keys);
  }

  /** The first two calls failing pushes through admission, both naming the same devices. */
  lemma TwoFailedPushes(calls: seq<CallRef>, topologyId: string, model: string, counts: Counts,
                        invocations: seq<Invocation>, parse: Parser, tools: nat -> ToolOutcome, keys: seq<DeviceKey>)
    requires |calls| >= 2 && calls[1] == calls[0] && calls[0].name == PushTool
    requires PreparedArgs(parse, calls[0], topologyId, model).Some?
    requires PushKeys(PushTool, PreparedArgs(parse, calls[0], topologyId, model).value) == Some(keys)
    requires !Vetoed(counts, keys) && !Vetoed(AfterFailure(Registered(counts, keys), keys), keys)
    requires PushFailed(tools(|invocations|)) && PushFailed(tools(|invocations| + 1))
    ensures var b' := DispatchSeq(calls[..2], topologyId, model, counts, invocations, parse, tools);
            && !b'.crashed
            && b'.answers == [ToolResult(calls[0].id, PushTool, ResultText(PushTool, tools(|invocations|))),
                              ToolResult(calls[0].id, PushTool, ResultText(PushTool, tools(|invocations| + 1)))]
            && |b'.invocations| == |invocations| + 2
            && b'.counts == AfterFailure(Registered(AfterFailure(Registered(counts, keys), keys), keys), keys)
  {
    FirstFailedPush(calls, topologyId, model, counts, invocations, parse, tools, keys);
    FailedPushStep(calls, 1, topologyId, model, counts, invocations, parse, tools, keys);
  }

  /** The first call a failing push through admission. */
  lemma FirstFailedPush(calls: seq<CallRef>, topologyId: string, model: string, counts: Counts,
                        invocations: seq<Invocation>, parse: Parser, tools: nat -> ToolOutcome, keys: seq<DeviceKey>)
    requires calls != [] && calls[0].name == PushTool && PreparedArgs(parse, calls[0], topologyId, model).Some?
    requires PushKeys(PushTool, PreparedArgs(parse, calls[0], topologyId, model).value) == Some(keys)
    requires !Vetoed(counts, keys) && PushFailed(tools(|invocations|))
    ensures var b' := DispatchSeq(calls[..1], topologyId, model, counts, invocations, parse, tools);
            && !b'.crashed
            && b'.answers == [ToolResult(calls[0].id, PushTool, ResultText(PushTool, tools(|invocations|)))]
            && |b'.invocations| == |invocations| + 1
            && b'.counts == AfterFailure(Registered(counts, keys), keys)
  {
    assert calls[..0] == [];
    FailedPushStep(calls, 0, topologyId, model, counts, invocations, parse, tools, keys);
  }

  /** A push naming a device at the limit: refused with the veto text, not invoked. */
  lemma VetoedPushStep(calls: seq<CallRef>, j: nat, topologyId: string, model: string, counts: Counts,
                       invocations: seq<Invocation>, parse: Parser, tools: nat -> ToolOutcome, keys: seq<DeviceKey>)
    requires j < |calls| && calls[j].name == PushTool && PreparedArgs(parse, calls[j], topologyId, model).Some?
    requires PushKeys(PushTool, PreparedArgs(parse, calls[j], topologyId, model).value) == Some(keys)
    requires var b := DispatchSeq(calls[..j], topologyId, model, counts, invocations, parse, tools);
             !b.crashed && Vetoed(b.counts, keys)
    ensures var b := DispatchSeq(calls[..j], topologyId, model, counts, invocations, parse, tools);
            var b' := DispatchSeq(calls[..j + 1], topologyId, model, counts, invocations, parse, tools);
            && !b'.crashed
            && b'.answers == b.answers + [ToolResult(calls[j].id, PushTool, VetoText)]
            && b'.invocations == b.invocations
  {
    DispatchPrefix(calls, j, topologyId, model, counts, invocations, parse, tools);
  }
}
