/** The stream-delta decoder of the agent loop (one completion call): it folds the streamed chunks into the
    content buffer, the reasoning buffer with its `<think>` markers and the tool-call accumulators, and
    re-emits every piece of text as it arrives. */
module StreamDecoder {
  import opened Wrappers
  import Text

  /** The `function` part of a tool-call fragment. */
  datatype FunctionDelta = FunctionDelta(name: string, arguments: string)

  /** One tool-call fragment of a chunk. `fn == None` is a fragment whose `function` attribute is null. */
  datatype ToolCallDelta = ToolCallDelta(index: nat, id: string, fn: Option<FunctionDelta>)

  /** The delta of a chunk's first choice. `reasoning == None` is a delta without a `reasoning_content`
      attribute; `Some("")` one whose attribute is present but empty. Null content and null tool calls are
      the empty string and the empty list, which the source treats alike. */
  datatype Delta = Delta(reasoning: Option<string>, content: string, toolCalls: seq<ToolCallDelta>)

  /** What the response iterator delivers: a chunk, or a failure (a transport error, or a chunk without
      choices, on which `chunk.choices[0]` raises). */
  datatype StreamItem = Chunk(delta: Delta, finishReason: Option<string>) | Broken(reason: string)

  /** A tool-call accumulator: `{"id": ..., "function": {"name": ..., "arguments": ...}}`. */
  datatype ToolCallSlot = ToolCallSlot(id: string, name: string, arguments: string)

  /** One text event the decoder yields to the client, by kind. */
  datatype Emission = ThinkOpen | Reasoning(text: string) | ThinkClose | Content(text: string)

  /** What one pass over the stream leaves behind. `failure` is the message of the exception that ended it. */
  datatype Decoded = Decoded(
    emitted: seq<Emission>,
    content: string,
    reasoning: string,
    toolCalls: seq<ToolCallSlot>,
    finishReason: Option<string>,
    failure: Option<string>)

  /** The text an emission carries on the wire. */
  function Wording(e: Emission): string {
    match e
    case ThinkOpen => "<think>"
    case Reasoning(t) => t
    case ThinkClose => "</think> "
    case Content(t) => t
  }

  const IndexErrorMessage := "list index out of range"
  const AttributeErrorMessage := "'NoneType' object has no attribute 'name'"

  // ---------------------------------------------------------------------------------------------
  // Tool-call fragments

  function NameOf(f: ToolCallDelta): string {
    if f.fn.Some? then f.fn.value.name else ""
  }

  function ArgumentsOf(f: ToolCallDelta): string {
    if f.fn.Some? then f.fn.value.arguments else ""
  }

  /** The fragment writes something into its slot. */
  predicate HasData(f: ToolCallDelta) {
    f.id != "" || NameOf(f) != "" || ArgumentsOf(f) != ""
  }

  /** Processing the fragment when `count` slots exist raises: a null `function` attribute, or an index beyond
      the slot that the fragment itself appended, used to write something. */
  predicate Faulty(f: ToolCallDelta, count: nat) {
    f.fn.None? || (f.index > count && HasData(f))
  }

  /** The number of slots after the fragments: a fragment whose index is at least the current count appends
      exactly one slot, wherever its index points. */
  function SlotCount(fs: seq<ToolCallDelta>): nat {
    if fs == [] then 0
    else
      var n := SlotCount(fs[..|fs| - 1]);
      if n <= fs[|fs| - 1].index then n + 1 else n
  }

  /** No fragment raises when processed in order. */
  predicate NoFault(fs: seq<ToolCallDelta>) {
    fs == [] || (NoFault(fs[..|fs| - 1]) && !Faulty(fs[|fs| - 1], SlotCount(fs[..|fs| - 1])))
  }

  /** The first fragment that raises, on fragments that do not all go through. */
  function FirstFaulty(fs: seq<ToolCallDelta>): (j: nat)
    requires !NoFault(fs)
    ensures j < |fs| && NoFault(fs[..j]) && Faulty(fs[j], SlotCount(fs[..j]))
  {
    assert fs != [];
    var init := fs[..|fs| - 1];
    if !NoFault(init) then
      var j := FirstFaulty(init);
      assert init[..j] == fs[..j];
      j
    else |fs| - 1
  }

  /** Only one fragment is the first to raise. */
  lemma FirstFaultyUnique(fs: seq<ToolCallDelta>, j: nat)
    requires j < |fs| && NoFault(fs[..j]) && Faulty(fs[j], SlotCount(fs[..j]))
    ensures !NoFault(fs) && FirstFaulty(fs) == j
  {
    NoFaultPrefix(fs, j + 1);
    assert fs[..j + 1][..j] == fs[..j];
    var k := FirstFaulty(fs);
    if k < j {
      PassedBefore(fs, j, k);
    } else if j < k {
      PassedBefore(fs, k, j);
    }
  }

  /** Every fragment before a point the fragments reach without raising went through. */
  lemma PassedBefore(fs: seq<ToolCallDelta>, j: nat, k: nat)
    requires k < j <= |fs| && NoFault(fs[..j])
    ensures !Faulty(fs[k], SlotCount(fs[..k]))
  {
    assert fs[..j][..k + 1] == fs[..k + 1];
    assert fs[..k + 1][..k] == fs[..k];
    NoFaultPrefix(fs[..j], k + 1);
  }

  /** The message of the exception a faulty fragment raises when `count` slots exist: writing the id through
      an index beyond the slots is an index error; otherwise reading the name of a null `function` attribute
      fails first; otherwise writing the name or the arguments is the index error. */
  function FaultMessage(tc: ToolCallDelta, count: nat): string {
    if tc.id != "" && tc.index > count then IndexErrorMessage
    else if tc.fn.None? then AttributeErrorMessage
    else IndexErrorMessage
  }

  /** The message of the first fragment that raises. */
  function FragmentFault(fs: seq<ToolCallDelta>): string
    requires !NoFault(fs)
  {
    var j := FirstFaulty(fs);
    FaultMessage(fs[j], SlotCount(fs[..j]))
  }

  /** The in-order concatenation of the argument fragments reported at index `k`. */
  function ArgumentsAt(fs: seq<ToolCallDelta>, k: nat): string {
    if fs == [] then ""
    else ArgumentsAt(fs[..|fs| - 1], k) + (if fs[|fs| - 1].index == k then ArgumentsOf(fs[|fs| - 1]) else "")
  }

  /** The last non-empty id reported at index `k`, or "". */
  function LastId(fs: seq<ToolCallDelta>, k: nat): string {
    if fs == [] then ""
    else if fs[|fs| - 1].index == k && fs[|fs| - 1].id != "" then fs[|fs| - 1].id
    else LastId(fs[..|fs| - 1], k)
  }

  /** The last non-empty function name reported at index `k`, or "". */
  function LastName(fs: seq<ToolCallDelta>, k: nat): string {
    if fs == [] then ""
    else if fs[|fs| - 1].index == k && NameOf(fs[|fs| - 1]) != "" then NameOf(fs[|fs| - 1])
    else LastName(fs[..|fs| - 1], k)
  }

  /** The accumulators hold, slot by slot, exactly what the fragments reported at that index. */
  predicate SlotsMatch(slots: seq<ToolCallSlot>, fs: seq<ToolCallDelta>) {
    && |slots| == SlotCount(fs)
    && forall k | 0 <= k < |slots| :: slots[k] == ToolCallSlot(LastId(fs, k), LastName(fs, k), ArgumentsAt(fs, k))
  }

  /** No fragment wrote anything at an index from `n` on. */
  ghost predicate NothingFrom(fs: seq<ToolCallDelta>, n: nat) {
    forall k: nat | n <= k :: LastId(fs, k) == "" && LastName(fs, k) == "" && ArgumentsAt(fs, k) == ""
  }

  // ---------------------------------------------------------------------------------------------
  // The stream

  /** All tool-call fragments of the chunks, in arrival order. */
  function Fragments(items: seq<StreamItem>): seq<ToolCallDelta> {
    if items == [] then []
    else
      Fragments(items[..|items| - 1])
      + (if items[|items| - 1].Chunk? then items[|items| - 1].delta.toolCalls else [])
  }

  /** The whole stream is read without an exception. */
  predicate Healthy(items: seq<StreamItem>) {
    (forall i | 0 <= i < |items| :: items[i].Chunk?) && NoFault(Fragments(items))
  }

  /** The item carries a non-empty reasoning fragment. */
  predicate HasReasoning(item: StreamItem) {
    item.Chunk? && item.delta.reasoning.Some? && item.delta.reasoning.value != ""
  }

  /** Some item so far carried reasoning, so `first_reason` has been cleared. */
  predicate Opened(items: seq<StreamItem>) {
    items != [] && (Opened(items[..|items| - 1]) || HasReasoning(items[|items| - 1]))
  }

  /** The text events one chunk yields, in the order the source yields them, given whether reasoning had
      already started: the opening marker and the reasoning fragment, then the closing marker (for a chunk
      without a reasoning attribute, content or tool calls once reasoning has started), then the content. */
  function ChunkEmissions(item: StreamItem, started: bool): seq<Emission> {
    if item.Broken? then []
    else ReasoningEvents(item.delta, started) + CloseEvents(item.delta, started) + ContentEvents(item.delta)
  }

  /** The opening marker when reasoning had not started, and the reasoning fragment, for a delta with one. */
  function ReasoningEvents(d: Delta, started: bool): seq<Emission> {
    if d.reasoning.Some? && d.reasoning.value != "" then (if started then [] else [ThinkOpen]) + [Reasoning(d.reasoning.value)]
    else []
  }

  /** The closing marker, for a delta without a reasoning attribute, content or tool calls once reasoning
      has started. */
  function CloseEvents(d: Delta, started: bool): seq<Emission> {
    if d.reasoning.None? && started && d.content == "" && d.toolCalls == [] then [ThinkClose] else []
  }

  /** The content fragment, when there is one. */
  function ContentEvents(d: Delta): seq<Emission> {
    if d.content != "" then [Content(d.content)] else []
  }

  /** All text events of the items, in order. */
  function EmittedFor(items: seq<StreamItem>): seq<Emission> {
    if items == [] then []
    else EmittedFor(items[..|items| - 1]) + ChunkEmissions(items[|items| - 1], Opened(items[..|items| - 1]))
  }

  /** The finish reason of the last chunk read, if any. */
  function LastFinish(items: seq<StreamItem>): Option<string> {
    if items == [] then None
    else if items[|items| - 1].Chunk? then items[|items| - 1].finishReason
    else LastFinish(items[..|items| - 1])
  }

  /** The non-empty content fragments of the chunks, in arrival order. */
  function ContentFragments(items: seq<StreamItem>): seq<string> {
    if items == [] then []
    else
      var last := items[|items| - 1];
      ContentFragments(items[..|items| - 1]) + (if last.Chunk? && last.delta.content != "" then [last.delta.content] else [])
  }

  /** The texts of the content events, in order. */
  function ContentsOf(es: seq<Emission>): seq<string> {
    if es == [] then []
    else ContentsOf(es[..|es| - 1]) + (if es[|es| - 1].Content? then [es[|es| - 1].text] else [])
  }

  /** The concatenated wording of every event that is not content: markers and reasoning. */
  function NonContentText(es: seq<Emission>): string {
    if es == [] then ""
    else NonContentText(es[..|es| - 1]) + (if es[|es| - 1].Content? then "" else Wording(es[|es| - 1]))
  }

  function CountThinkOpen(es: seq<Emission>): nat {
    if es == [] then 0 else CountThinkOpen(es[..|es| - 1]) + (if es[|es| - 1] == ThinkOpen then 1 else 0)
  }

  /** Item `n` is where reading stops: everything before it is read cleanly and item `n` raises. */
  ghost predicate FirstFault(items: seq<StreamItem>, n: nat)
    requires n < |items|
  {
    Healthy(items[..n]) && !Healthy(items[..n + 1])
  }

  /** Where reading stops on a stream that is not read cleanly to its end: the first item that raises. */
  function FaultIndex(items: seq<StreamItem>): (n: nat)
    requires !Healthy(items)
    ensures n < |items| && FirstFault(items, n)
    decreases |items|
  {
    assert Healthy([]);
    var init := items[..|items| - 1];
    if !Healthy(init) then
      var n := FaultIndex(init);
      assert init[..n] == items[..n] && init[..n + 1] == items[..n + 1];
      n
    else
      assert items[..|items|] == items;
      |items| - 1
  }

  /** Only one item is the first to raise. */
  lemma FirstFaultUnique(items: seq<StreamItem>, n: nat, m: nat)
    requires n < |items| && m < |items| && FirstFault(items, n) && FirstFault(items, m)
    ensures n == m
  {
    if n < m {
      assert items[..m][..n + 1] == items[..n + 1];
      HealthyPrefix(items[..m], n + 1);
    } else if m < n {
      assert items[..n][..m + 1] == items[..m + 1];
      HealthyPrefix(items[..n], m + 1);
    }
  }

  /** When the first item to raise is a chunk, one of the fragments read so far is faulty. */
  lemma FaultInFragments(items: seq<StreamItem>, n: nat)
    requires n < |items| && FirstFault(items, n) && items[n].Chunk?
    ensures !NoFault(Fragments(items[..n + 1]))
  {
    assert forall i | 0 <= i < n :: items[..n][i] == items[i];
    assert forall i | 0 <= i < n + 1 :: items[..n + 1][i] == items[i];
  }

  /** The events yielded before the exception that ends a stream: those of the items before the faulty one,
      and the text of the faulty chunk itself when the fault is in one of its tool-call fragments. */
  function ShownBeforeFault(items: seq<StreamItem>): seq<Emission>
    requires !Healthy(items)
  {
    var n := FaultIndex(items);
    if items[n].Broken? then EmittedFor(items[..n]) else EmittedFor(items[..n + 1])
  }

  /** The message of the exception that ends a stream: the broken item's own, or that of the first faulty
      tool-call fragment. */
  function FailureReason(items: seq<StreamItem>): string
    requires !Healthy(items)
  {
    var n := FaultIndex(items);
    if items[n].Broken? then items[n].reason
    else
      FaultInFragments(items, n);
      FragmentFault(Fragments(items[..n + 1]))
  }

  // ---------------------------------------------------------------------------------------------
  // The decoder

  /** One pass of `async for chunk in response` (source lines 251-290). On a clean end the accumulators
      hold exactly what the fragments reported, index by index, and the content buffer is what was streamed
      as content. On an exception the events already yielded are those of the items before the faulty one,
      and, when the fault is in a tool-call fragment, that chunk's text as well. */
  method Decode(items: seq<StreamItem>) returns (d: Decoded)
    ensures d.failure.None? <==> Healthy(items)
    ensures d.content == Text.Concat(ContentsOf(d.emitted))
    ensures d.reasoning == NonContentText(d.emitted)
    ensures d.failure.None? ==> d.emitted == EmittedFor(items) && d.finishReason == LastFinish(items)
    ensures d.failure.None? ==> SlotsMatch(d.toolCalls, Fragments(items))
    ensures d.failure.Some? ==>
              var n := FaultIndex(items);
              && (items[n].Broken? ==> d.emitted == EmittedFor(items[..n]) && d.failure.value == items[n].reason)
              && (items[n].Chunk? ==> d.emitted == EmittedFor(items[..n + 1]))
    ensures d.failure.Some? ==> d.emitted == ShownBeforeFault(items) && d.failure.value == FailureReason(items)
  {
    var slots: seq<ToolCallSlot> := [];
    var content, reasoning := "", "";
    var finish: Option<string> := None;
    var started := false;
    var emitted: seq<Emission> := [];
    for i := 0 to |items|
      invariant Healthy(items[..i])
      invariant started == Opened(items[..i])
      invariant emitted == EmittedFor(items[..i])
      invariant content == Text.Concat(ContentsOf(emitted))
      invariant reasoning == NonContentText(emitted)
      invariant finish == LastFinish(items[..i])
      invariant SlotsMatch(slots, Fragments(items[..i])) && NothingFrom(Fragments(items[..i]), |slots|)
    {
      ItemsUnfold(items, i);
      if items[i].Broken? {
        StopsAt(items, i);
        FaultShown(items);
        FaultRaised(items);
        return Decoded(emitted, content, reasoning, slots, finish, Some(items[i].reason));
      }
      finish := items[i].finishReason;
      var out, contentPart, reasoningPart;
      started, out, contentPart, reasoningPart := StreamText(items[i], started);
      EmitAppend(emitted, out);
      Text.ConcatAppend(ContentsOf(emitted), ContentsOf(out));
      content, reasoning, emitted := content + contentPart, reasoning + reasoningPart, emitted + out;
      ghost var fs := Fragments(items[..i]);
      var failure;
      slots, failure := AbsorbToolCalls(slots, fs, items[i].delta.toolCalls);
      if failure.Some? {
        StopsAt(items, i);
        FaultShown(items);
        FaultRaised(items);
        return Decoded(emitted, content, reasoning, slots, finish, failure);
      }
    }
    assert items[..|items|] == items;
    d := Decoded(emitted, content, reasoning, slots, finish, None);
  }

  /** A stream read cleanly up to item `i`, which raises, stops there. */
  lemma StopsAt(items: seq<StreamItem>, i: nat)
    requires i < |items| && Healthy(items[..i]) && !Healthy(items[..i + 1])
    ensures !Healthy(items) && FaultIndex(items) == i
  {
    HealthyPrefix(items, i + 1);
    FirstFaultUnique(items, i, FaultIndex(items));
  }

  /** What a stream that raises at its fault index yielded before raising. */
  lemma FaultShown(items: seq<StreamItem>)
    requires !Healthy(items)
    ensures var n := FaultIndex(items);
            ShownBeforeFault(items) == (if items[n].Broken? then EmittedFor(items[..n]) else EmittedFor(items[..n + 1]))
  {
  }

  /** The message a stream that raises at its fault index raised. */
  lemma {:induction false} FaultRaised(items: seq<StreamItem>)
    requires !Healthy(items)
    ensures var n := FaultIndex(items);
            && (items[n].Broken? ==> FailureReason(items) == items[n].reason)
            && (items[n].Chunk? ==> !NoFault(Fragments(items[..n + 1])) && FailureReason(items) == FragmentFault(Fragments(items[..n + 1])))
  {
    var n := FaultIndex(items);
    if items[n].Chunk? {
      FaultInFragments(items, n);
      assert FailureReason(items) == FragmentFault(Fragments(items[..n + 1]));
    }
  }

  /** The text half of one chunk (source lines 263-278): the events it yields, and what it adds to the
      content buffer and to the reasoning buffer, which is exactly the wording of those events. */
  method StreamText(item: StreamItem, started: bool)
    returns (started': bool, out: seq<Emission>, contentPart: string, reasoningPart: string)
    requires item.Chunk?
    ensures started' == (started || HasReasoning(item))
    ensures out == ChunkEmissions(item, started)
    ensures contentPart == Text.Concat(ContentsOf(out)) && reasoningPart == NonContentText(out)
  {
    var delta := item.delta;
    started', out, reasoningPart := StreamReasoning(delta, started);
    contentPart := "";
    if delta.content != "" {
      contentPart, out := contentPart + delta.content, out + [Content(delta.content)];
    }
    ChunkWording(item, started);
  }

  /** The reasoning half of one chunk (source lines 263-274): the opening marker before the first reasoning
      fragment, the fragment, and the closing marker on a chunk without reasoning, content or tool calls. */
  method StreamReasoning(delta: Delta, started: bool) returns (started': bool, out: seq<Emission>, reasoningPart: string)
    ensures started' == (started || (delta.reasoning.Some? && delta.reasoning.value != ""))
    ensures out == ReasoningEvents(delta, started) + CloseEvents(delta, started)
    ensures reasoningPart == ReasoningWording(delta, started) + CloseWording(delta, started)
  {
    started', out, reasoningPart := started, [], "";
    if delta.reasoning.Some? && delta.reasoning.value != "" {
      if !started' {
        reasoningPart, out := reasoningPart + "<think>", out + [ThinkOpen];
        started' := true;
      }
      reasoningPart, out := reasoningPart + delta.reasoning.value, out + [Reasoning(delta.reasoning.value)];
    }
    if delta.reasoning.None? && started' && delta.content == "" && delta.toolCalls == [] {
      reasoningPart, out := reasoningPart + "</think> ", out + [ThinkClose];
    }
  }

  /** The tool-call half of one chunk (source lines 280-286), fragment by fragment. It raises exactly when
      some fragment is faulty given the slots that exist when it is processed; otherwise the slots keep
      matching everything reported so far. */
  method AbsorbToolCalls(slots: seq<ToolCallSlot>, ghost fs: seq<ToolCallDelta>, tcs: seq<ToolCallDelta>)
    returns (slots': seq<ToolCallSlot>, failure: Option<string>)
    requires SlotsMatch(slots, fs) && NothingFrom(fs, |slots|) && NoFault(fs)
    ensures failure.None? <==> NoFault(fs + tcs)
    ensures failure.None? ==> SlotsMatch(slots', fs + tcs) && NothingFrom(fs + tcs, |slots'|)
    ensures failure.Some? ==> !NoFault(fs + tcs) && failure.value == FragmentFault(fs + tcs)
  {
    slots' := slots;
    assert fs + tcs[..0] == fs;
    for j := 0 to |tcs|
      invariant SlotsMatch(slots', fs + tcs[..j]) && NothingFrom(fs + tcs[..j], |slots'|)
      invariant NoFault(fs + tcs[..j])
    {
      AbsorbNext(slots', fs, tcs, j);
      var step := Absorb(slots', tcs[j]);
      if step.Raised? {
        return slots', Some(step.message);
      }
      slots' := step.slots;
    }
    assert tcs[..|tcs|] == tcs;
    failure := None;
  }

  /** One more fragment of the chunk: it raises exactly when the fragments so far become faulty, which
      makes the whole sequence faulty; otherwise the slots keep matching. */
  lemma AbsorbNext(slots: seq<ToolCallSlot>, fs: seq<ToolCallDelta>, tcs: seq<ToolCallDelta>, j: nat)
    requires j < |tcs|
    requires SlotsMatch(slots, fs + tcs[..j]) && NothingFrom(fs + tcs[..j], |slots|) && NoFault(fs + tcs[..j])
    ensures Absorb(slots, tcs[j]).Raised? ==> !NoFault(fs + tcs) && Absorb(slots, tcs[j]).message == FragmentFault(fs + tcs)
    ensures Absorb(slots, tcs[j]).Absorbed? ==>
              var next := Absorb(slots, tcs[j]).slots;
              SlotsMatch(next, fs + tcs[..j + 1]) && NothingFrom(fs + tcs[..j + 1], |next|) && NoFault(fs + tcs[..j + 1])
  {
    var done := fs + tcs[..j];
    assert fs + tcs[..j + 1] == done + [tcs[j]];
    FragmentUnfold(done, tcs[j], 0);
    if Absorb(slots, tcs[j]).Raised? {
      FaultSpreads(fs, tcs, j + 1);
      RaisedFirst(fs, tcs, j, |slots|);
    } else {
      AbsorbMatches(slots, done, tcs[j]);
    }
  }

  /** A fragment that raises after fault-free ones is the first faulty fragment of the whole sequence. */
  lemma RaisedFirst(fs: seq<ToolCallDelta>, tcs: seq<ToolCallDelta>, j: nat, count: nat)
    requires j < |tcs| && NoFault(fs + tcs[..j]) && count == SlotCount(fs + tcs[..j]) && Faulty(tcs[j], count)
    ensures !NoFault(fs + tcs) && FragmentFault(fs + tcs) == FaultMessage(tcs[j], count)
  {
    assert (fs + tcs)[..|fs| + j] == fs + tcs[..j] && (fs + tcs)[|fs| + j] == tcs[j];
    FirstFaultyUnique(fs + tcs, |fs| + j);
  }

  /** Once a prefix of the fragments is faulty, so are all of them. */
  lemma FaultSpreads(fs: seq<ToolCallDelta>, tcs: seq<ToolCallDelta>, j: nat)
    requires j <= |tcs| && !NoFault(fs + tcs[..j])
    ensures !NoFault(fs + tcs)
  {
    assert (fs + tcs)[..|fs| + j] == fs + tcs[..j];
    if NoFault(fs + tcs) {
      NoFaultPrefix(fs + tcs, |fs| + j);
    }
  }

  /** What processing one fragment does to the accumulators (source lines 282-286): the updated slots, or
      the exception it raises. */
  datatype Step = Absorbed(slots: seq<ToolCallSlot>) | Raised(message: string)

  /** One fragment: append a fresh slot when the index is not below the count, then overwrite the id and
      the name with non-empty values and append a non-empty argument fragment, each write indexing the
      slot list. It raises exactly when the fragment is faulty, and appends at most one slot. */
  function Absorb(slots: seq<ToolCallSlot>, tc: ToolCallDelta): (r: Step)
    ensures r.Raised? <==> Faulty(tc, |slots|)
    ensures r.Raised? ==> r.message == FaultMessage(tc, |slots|)
    ensures r.Absorbed? ==> |r.slots| == if |slots| <= tc.index then |slots| + 1 else |slots|
  {
    var grown := if |slots| <= tc.index then slots + [ToolCallSlot("", "", "")] else slots;
    if tc.id != "" && tc.index >= |grown| then Raised(IndexErrorMessage)
    else
      var withId := if tc.id != "" then grown[tc.index := grown[tc.index].(id := tc.id)] else grown;
      if tc.fn.None? then Raised(AttributeErrorMessage)
      else
        var fn := tc.fn.value;
        if fn.name != "" && tc.index >= |withId| then Raised(IndexErrorMessage)
        else
          var withName := if fn.name != "" then withId[tc.index := withId[tc.index].(name := fn.name)] else withId;
          if fn.arguments != "" && tc.index >= |withName| then Raised(IndexErrorMessage)
          else if fn.arguments != "" then
            Absorbed(withName[tc.index := withName[tc.index].(arguments := withName[tc.index].arguments + fn.arguments)])
          else Absorbed(withName)
  }

  /** How the fragment-derived views grow by one fragment. */
  lemma FragmentUnfold(fs: seq<ToolCallDelta>, tc: ToolCallDelta, k: nat)
    ensures SlotCount(fs + [tc]) == if SlotCount(fs) <= tc.index then SlotCount(fs) + 1 else SlotCount(fs)
    ensures NoFault(fs + [tc]) == (NoFault(fs) && !Faulty(tc, SlotCount(fs)))
    ensures LastId(fs + [tc], k) == if tc.index == k && tc.id != "" then tc.id else LastId(fs, k)
    ensures LastName(fs + [tc], k) == if tc.index == k && NameOf(tc) != "" then NameOf(tc) else LastName(fs, k)
    ensures ArgumentsAt(fs + [tc], k) == ArgumentsAt(fs, k) + (if tc.index == k then ArgumentsOf(tc) else "")
  {
    assert (fs + [tc])[..|fs|] == fs;
  }

  /** A fragment that does not raise keeps the slots matching what was reported, index by index. */
  lemma AbsorbMatches(slots: seq<ToolCallSlot>, fs: seq<ToolCallDelta>, tc: ToolCallDelta)
    requires SlotsMatch(slots, fs) && NothingFrom(fs, |slots|) && !Faulty(tc, |slots|)
    ensures SlotsMatch(Absorb(slots, tc).slots, fs + [tc])
    ensures NothingFrom(fs + [tc], |Absorb(slots, tc).slots|)
  {
    var r := Absorb(slots, tc).slots;
    FragmentUnfold(fs, tc, 0);
    forall k | 0 <= k < |r|
      ensures r[k] == ToolCallSlot(LastId(fs + [tc], k), LastName(fs + [tc], k), ArgumentsAt(fs + [tc], k))
    {
      FragmentUnfold(fs, tc, k);
      AbsorbSlot(slots, tc, k);
      assert SlotBefore(slots, k) == ToolCallSlot(LastId(fs, k), LastName(fs, k), ArgumentsAt(fs, k));
    }
    forall k: nat | |r| <= k
      ensures LastId(fs + [tc], k) == "" && LastName(fs + [tc], k) == "" && ArgumentsAt(fs + [tc], k) == ""
    {
      FragmentUnfold(fs, tc, k);
    }
  }

  /** The accumulator at index `k` before a fragment is processed: a fresh one past the end. */
  function SlotBefore(slots: seq<ToolCallSlot>, k: nat): ToolCallSlot {
    if k < |slots| then slots[k] else ToolCallSlot("", "", "")
  }

  /** What a fragment writes into the accumulator of its own index. */
  function Written(slot: ToolCallSlot, tc: ToolCallDelta): ToolCallSlot {
    ToolCallSlot(if tc.id != "" then tc.id else slot.id, if NameOf(tc) != "" then NameOf(tc) else slot.name,
                 slot.arguments + ArgumentsOf(tc))
  }

  /** A fragment that does not raise changes only the accumulator of its own index. */
  lemma AbsorbSlot(slots: seq<ToolCallSlot>, tc: ToolCallDelta, k: nat)
    requires !Faulty(tc, |slots|) && k < |Absorb(slots, tc).slots|
    ensures Absorb(slots, tc).slots[k] == if k == tc.index then Written(SlotBefore(slots, k), tc) else SlotBefore(slots, k)
  {
    if k == tc.index && tc.fn.value.arguments == "" {
      assert SlotBefore(slots, k).arguments + "" == SlotBefore(slots, k).arguments;
    }
  }

  /** How the item-derived views grow by one item. */
  lemma ItemsUnfold(items: seq<StreamItem>, i: nat)
    requires i < |items|
    ensures Fragments(items[..i + 1]) == Fragments(items[..i]) + (if items[i].Chunk? then items[i].delta.toolCalls else [])
    ensures Opened(items[..i + 1]) == (Opened(items[..i]) || HasReasoning(items[i]))
    ensures EmittedFor(items[..i + 1]) == EmittedFor(items[..i]) + ChunkEmissions(items[i], Opened(items[..i]))
    ensures LastFinish(items[..i + 1]) == if items[i].Chunk? then items[i].finishReason else LastFinish(items[..i])
    ensures Healthy(items[..i + 1]) == (Healthy(items[..i]) && items[i].Chunk? && NoFault(Fragments(items[..i + 1])))
  {
    var p := items[..i + 1];
    assert p[..i] == items[..i];
    HealthyUnfold(items, i);
  }

  lemma HealthyUnfold(items: seq<StreamItem>, i: nat)
    requires i < |items|
    ensures Healthy(items[..i + 1]) == (Healthy(items[..i]) && items[i].Chunk? && NoFault(Fragments(items[..i + 1])))
  {
    var p := items[..i + 1];
    assert (forall j | 0 <= j < |p| :: p[j].Chunk?) == ((forall j | 0 <= j < i :: items[..i][j].Chunk?) && items[i].Chunk?) by {
      assert forall j | 0 <= j < i :: p[j] == items[..i][j];
    }
    assert NoFault(Fragments(p)) ==> NoFault(Fragments(items[..i])) by {
      if NoFault(Fragments(p)) {
        assert p[..i] == items[..i];
        var fs := Fragments(items[..i]);
        assert Fragments(p)[..|fs|] == fs;
        NoFaultPrefix(Fragments(p), |fs|);
      }
    }
  }

  /** Each projection of the event list distributes over concatenation. */
  lemma EmitAppend(a: seq<Emission>, b: seq<Emission>)
    ensures ContentsOf(a + b) == ContentsOf(a) + ContentsOf(b)
    ensures NonContentText(a + b) == NonContentText(a) + NonContentText(b)
    ensures CountThinkOpen(a + b) == CountThinkOpen(a) + CountThinkOpen(b)
  {
    ContentsAppend(a, b);
    NonContentAppend(a, b);
    CountAppend(a, b);
  }

  lemma {:induction false} ContentsAppend(a: seq<Emission>, b: seq<Emission>)
    ensures ContentsOf(a + b) == ContentsOf(a) + ContentsOf(b)
    decreases |b|
  {
    if b == [] {
      assert a + b == a;
    } else {
      var b', e := b[..|b| - 1], b[|b| - 1];
      assert a + b == (a + b') + [e] && b == b' + [e];
      ContentsAppend(a, b');
      ContentsStep(a + b', e);
      ContentsStep(b', e);
      Text.Associative(ContentsOf(a), ContentsOf(b'), if e.Content? then [e.text] else []);
    }
  }

  lemma {:induction false} NonContentAppend(a: seq<Emission>, b: seq<Emission>)
    ensures NonContentText(a + b) == NonContentText(a) + NonContentText(b)
    decreases |b|
  {
    if b == [] {
      assert a + b == a;
    } else {
      var b', e := b[..|b| - 1], b[|b| - 1];
      assert a + b == (a + b') + [e] && b == b' + [e];
      NonContentAppend(a, b');
      NonContentStep(a + b', e);
      NonContentStep(b', e);
      Text.Associative(NonContentText(a), NonContentText(b'), if e.Content? then "" else Wording(e));
    }
  }

  lemma {:induction false} CountAppend(a: seq<Emission>, b: seq<Emission>)
    ensures CountThinkOpen(a + b) == CountThinkOpen(a) + CountThinkOpen(b)
    decreases |b|
  {
    if b == [] {
      assert a + b == a;
    } else {
      var b', e := b[..|b| - 1], b[|b| - 1];
      assert a + b == (a + b') + [e] && b == b' + [e];
      CountAppend(a, b');
      assert (a + b)[..|a + b| - 1] == a + b';
      assert b[..|b| - 1] == b';
    }
  }

  lemma ContentsStep(es: seq<Emission>, e: Emission)
    ensures ContentsOf(es + [e]) == ContentsOf(es) + (if e.Content? then [e.text] else [])
  {
    assert (es + [e])[..|es|] == es;
  }

  lemma NonContentStep(es: seq<Emission>, e: Emission)
    ensures NonContentText(es + [e]) == NonContentText(es) + (if e.Content? then "" else Wording(e))
  {
    assert (es + [e])[..|es|] == es;
  }

  /** How each projection of the event list grows by one event. */
  lemma EmitOne(es: seq<Emission>, e: Emission)
    ensures ContentsOf(es + [e]) == ContentsOf(es) + (if e.Content? then [e.text] else [])
    ensures Text.Concat(ContentsOf(es + [e])) == Text.Concat(ContentsOf(es)) + (if e.Content? then e.text else "")
    ensures NonContentText(es + [e]) == NonContentText(es) + (if e.Content? then "" else Wording(e))
  {
    ContentsStep(es, e);
    NonContentStep(es, e);
    var cs := ContentsOf(es);
    if e.Content? {
      assert ContentsOf(es + [e]) == cs + [e.text];
      assert (cs + [e.text])[..|cs|] == cs;
    } else {
      assert ContentsOf(es + [e]) == cs;
    }
  }

  /** A fault-free fragment sequence stays fault-free when cut short. */
  lemma {:induction false} NoFaultPrefix(fs: seq<ToolCallDelta>, n: nat)
    requires n <= |fs|
    ensures NoFault(fs) ==> NoFault(fs[..n])
    decreases |fs| - n
  {
    if n < |fs| && NoFault(fs) {
      var init := fs[..|fs| - 1];
      assert init[..n] == fs[..n];
      NoFaultPrefix(init, n);
    } else if n == |fs| {
      assert fs[..n] == fs;
    }
  }

  lemma {:induction false} FragmentsAppend(a: seq<StreamItem>, b: seq<StreamItem>)
    ensures Fragments(a + b) == Fragments(a) + Fragments(b)
    decreases |b|
  {
    if b == [] {
      assert a + b == a;
    } else {
      var b' := b[..|b| - 1];
      assert (a + b)[..|a + b| - 1] == a + b';
      FragmentsAppend(a, b');
    }
  }

  /** A stream read cleanly to its end is read cleanly up to any point. */
  lemma HealthyPrefix(items: seq<StreamItem>, n: nat)
    requires n <= |items|
    ensures Healthy(items) ==> Healthy(items[..n])
  {
    if Healthy(items) {
      assert items == items[..n] + items[n..];
      FragmentsAppend(items[..n], items[n..]);
      NoFaultPrefix(Fragments(items), |Fragments(items[..n])|);
      assert Fragments(items)[..|Fragments(items[..n])|] == Fragments(items[..n]);
    }
  }

  // ---------------------------------------------------------------------------------------------
  // Properties of the decoded stream

  /** The content buffer is the in-order concatenation of the non-empty content fragments, each of which
      was yielded verbatim. */
  lemma {:induction false} ContentIsFragments(items: seq<StreamItem>)
    ensures ContentsOf(EmittedFor(items)) == ContentFragments(items)
  {
    if items != [] {
      var n := |items| - 1;
      ContentIsFragments(items[..n]);
      assert items[..n + 1] == items;
      ItemsUnfold(items, n);
      EmitAppend(EmittedFor(items[..n]), ChunkEmissions(items[n], Opened(items[..n])));
      ChunkContents(items[n], Opened(items[..n]));
    }
  }

  /** One chunk yields its content, when non-empty, as its only content event. */
  lemma ChunkContents(item: StreamItem, started: bool)
    ensures ContentsOf(ChunkEmissions(item, started)) == if item.Chunk? && item.delta.content != "" then [item.delta.content] else []
  {
    if item.Chunk? {
      var d := item.delta;
      var r, c, t := ReasoningEvents(d, started), CloseEvents(d, started), ContentEvents(d);
      EmitAppend(r + c, t);
      EmitAppend(r, c);
      PartProjections(d, started);
    }
  }

  /** What reasoning and markers a delta adds to the reasoning buffer. */
  function ReasoningWording(d: Delta, started: bool): string {
    if d.reasoning.Some? && d.reasoning.value != "" then (if started then "" else "<think>") + d.reasoning.value else ""
  }

  function CloseWording(d: Delta, started: bool): string {
    if d.reasoning.None? && started && d.content == "" && d.toolCalls == [] then "</think> " else ""
  }

  /** A chunk adds its content to the content buffer and its markers and reasoning to the reasoning buffer. */
  lemma ChunkWording(item: StreamItem, started: bool)
    requires item.Chunk?
    ensures Text.Concat(ContentsOf(ChunkEmissions(item, started))) == item.delta.content
    ensures NonContentText(ChunkEmissions(item, started)) == ReasoningWording(item.delta, started) + CloseWording(item.delta, started)
  {
    var d := item.delta;
    var r, c, t := ReasoningEvents(d, started), CloseEvents(d, started), ContentEvents(d);
    EmitAppend(r + c, t);
    EmitAppend(r, c);
    PartProjections(d, started);
    ChunkContents(item, started);
    if d.content != "" {
      assert Text.Concat([d.content]) == "" + d.content;
    }
  }

  /** The projections of each part of a chunk's events. */
  lemma PartProjections(d: Delta, started: bool)
    ensures ContentsOf(ReasoningEvents(d, started)) == [] && NonContentText(ReasoningEvents(d, started)) == ReasoningWording(d, started)
    ensures ContentsOf(CloseEvents(d, started)) == [] && NonContentText(CloseEvents(d, started)) == CloseWording(d, started)
    ensures ContentsOf(ContentEvents(d)) == (if d.content != "" then [d.content] else []) && NonContentText(ContentEvents(d)) == ""
    ensures CountThinkOpen(ReasoningEvents(d, started)) == (if !started && d.reasoning.Some? && d.reasoning.value != "" then 1 else 0)
    ensures CountThinkOpen(CloseEvents(d, started)) == 0 && CountThinkOpen(ContentEvents(d)) == 0
  {
    var r := ReasoningEvents(d, started);
    if r != [] {
      var e := Reasoning(d.reasoning.value);
      if started {
        OneEvent(e);
      } else {
        OneEvent(ThinkOpen);
        EmitOne([ThinkOpen], e);
        assert r == [ThinkOpen] + [e];
        assert (r)[..1] == [ThinkOpen];
      }
    }
    if CloseEvents(d, started) != [] {
      OneEvent(ThinkClose);
    }
    if ContentEvents(d) != [] {
      OneEvent(Content(d.content));
    }
  }

  /** The projections of a single event. */
  lemma OneEvent(e: Emission)
    ensures ContentsOf([e]) == (if e.Content? then [e.text] else [])
    ensures NonContentText([e]) == (if e.Content? then "" else Wording(e))
    ensures CountThinkOpen([e]) == (if e == ThinkOpen then 1 else 0)
  {
    assert [e][..0] == [];
  }

  /** The opening marker is yielded by a chunk exactly when it is the first to carry reasoning. */
  lemma ChunkOpens(item: StreamItem, started: bool)
    ensures CountThinkOpen(ChunkEmissions(item, started)) == if !started && HasReasoning(item) then 1 else 0
  {
    if item.Chunk? {
      var d := item.delta;
      var r, c, t := ReasoningEvents(d, started), CloseEvents(d, started), ContentEvents(d);
      EmitAppend(r + c, t);
      EmitAppend(r, c);
      PartProjections(d, started);
    }
  }

  /** `"<think>"` is yielded once in a pass whose stream carried reasoning, and never otherwise. */
  lemma {:induction false} ThinkOpensOnce(items: seq<StreamItem>)
    ensures CountThinkOpen(EmittedFor(items)) == if Opened(items) then 1 else 0
  {
    if items != [] {
      var n := |items| - 1;
      ThinkOpensOnce(items[..n]);
      assert items[..n + 1] == items;
      ItemsUnfold(items, n);
      EmitAppend(EmittedFor(items[..n]), ChunkEmissions(items[n], Opened(items[..n])));
      ChunkOpens(items[n], Opened(items[..n]));
    }
  }

  /** The accumulator list grows by at most one slot per fragment. */
  lemma {:induction false} SlotCountBound(fs: seq<ToolCallDelta>)
    ensures SlotCount(fs) <= |fs|
  {
    if fs != [] {
      SlotCountBound(fs[..|fs| - 1]);
    }
  }

  /** Fragments that keep to the indices already open or the next one never raise, whatever they carry,
      as long as each has a `function` part. */
  lemma {:induction false} DenseIndicesNeverRaise(fs: seq<ToolCallDelta>)
    requires forall j | 0 <= j < |fs| :: fs[j].fn.Some? && fs[j].index <= SlotCount(fs[..j])
    ensures NoFault(fs)
  {
    if fs != [] {
      var n := |fs| - 1;
      assert forall j | 0 <= j < n :: fs[..n][j] == fs[j] && fs[..n][..j] == fs[..j];
      DenseIndicesNeverRaise(fs[..n]);
    }
  }

  /** A fragment whose index skips past the next free slot and carries data raises. */
  lemma SkippedIndexRaises(slots: seq<ToolCallSlot>, tc: ToolCallDelta)
    requires tc.index >= |slots| + 1 && tc.fn.Some? && tc.fn.value.arguments != ""
    ensures Absorb(slots, tc) == Raised(IndexErrorMessage)
  {
  }
}
