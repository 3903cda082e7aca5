/** Running one tool call of an assistant turn: its arguments are parsed and completed with the injected
    parameters, a `push_configuration` call passes the retry policy, the tool is invoked (or not), and
    the answer becomes one tool message. */
module ToolDispatch {
  import opened Wrappers
  import opened JsonValues
  import Text
  import opened ToolSchema
  import opened RetryPolicy
  import opened Transcript

  const PushTool := "push_configuration"
  const KnowledgeTool := "fetch_related_knowledge"

  /** What invoking a tool comes to: its text (the first content item's text, "" when it has none, or
      the result's `str` when there is no content), no answer within 120 seconds, or an exception with
      its message. */
  datatype ToolOutcome = Returned(text: string) | TimedOut | Threw(message: string)

  /** An invocation as the tool receives it. */
  datatype Invocation = Invocation(name: string, args: map<string, Json>)

  /** The progress events a call yields, by kind and payload. */
  datatype DispatchEvent =
    | CallingTool(name: string)
    | RetryLimit(device: DeviceKey)
    | ToolTimedOut(text: string)
    | ToolFailed(text: string)
    | PushReport(text: string)

  const TimeoutTail := "' timed out after 120 seconds. This may indicate the Ansible runner is stuck or the device is unreachable."
  const NoOutputText := "Tool executed successfully (no output)"
  const VetoText := "Execution cancelled due to max retry limit on one or more devices."

  /** The result text of an invocation (`result_str`). */
  function ResultText(name: string, outcome: ToolOutcome): (r: string)
    ensures r != ""
    ensures outcome.Returned? && outcome.text != "" ==> r == outcome.text
    ensures !outcome.Returned? ==> Text.StartsWith(r, "Error: ")
  {
    match outcome
    case Returned(t) => if t == "" then NoOutputText else t
    case TimedOut => Text.StartsWithConcat("Error: ", TimeoutDetail(name)); "Error: " + TimeoutDetail(name)
    case Threw(e) => Text.StartsWithConcat("Error: ", e); "Error: " + e
  }

  /** What the timeout message says after its "Error: " prefix. */
  function TimeoutDetail(name: string): string {
    "Tool '" + name + TimeoutTail
  }

  /** The content of the tool message: `str(result_str) if result_str else "Success"`. */
  function MessageText(result: string): string {
    if result != "" then result else "Success"
  }

  /** The retry accounting treats the push as failed: a timeout, an exception, or a result text that
      mentions "Error" or "Failed". */
  predicate PushFailed(outcome: ToolOutcome) {
    match outcome
    case Returned(t) => FailedResult(if t == "" then NoOutputText else t)
    case TimedOut => true
    case Threw(_) => true
  }

  /** `json.loads(arguments)` with its fallback: unparseable text gives `{}`; a document that is not an
      object leaves a value that the following item assignment fails on, which is `None` here. */
  function ParseArguments(parse: Parser, text: string): (r: Option<map<string, Json>>)
    ensures parse(text).None? ==> r == Some(map[])
    ensures r.Some? && parse(text).Some? ==> parse(text) == Some(JObj(r.value))
    ensures r.None? <==> parse(text).Some? && !parse(text).value.JObj?
  {
    match parse(text)
    case None => Some(map[])
    case Some(JObj(fields)) => Some(fields)
    case Some(_) => None
  }

  /** The injected parameters: the topology id always, the model name for the knowledge tool only; every
      other argument is passed through unchanged. */
  function Inject(args: map<string, Json>, name: string, topologyId: string, model: string): (r: map<string, Json>)
    ensures TopologyKey in r && r[TopologyKey] == JStr(topologyId)
    ensures name == KnowledgeTool ==> ModelKey in r && r[ModelKey] == JStr(model)
    ensures name != KnowledgeTool ==> (ModelKey in r <==> ModelKey in args)
    ensures forall k | k in args && k != TopologyKey && (k != ModelKey || name != KnowledgeTool) :: k in r && r[k] == args[k]
    ensures forall k | k in r :: k in args || k == TopologyKey || k == ModelKey
  {
    var withTopology := args[TopologyKey := JStr(topologyId)];
    if name == KnowledgeTool then withTopology[ModelKey := JStr(model)] else withTopology
  }

  /** The arguments the call is made with, or `None` when preparing them raises. */
  function PreparedArgs(parse: Parser, call: CallRef, topologyId: string, model: string): Option<map<string, Json>> {
    var parsed := ParseArguments(parse, call.arguments);
    if parsed.None? then None else Some(Inject(parsed.value, call.name, topologyId, model))
  }

  /** The device keys a call is accounted under: those of its configuration entries for a push, none for any
      other tool; `None` when reading the entries raises. */
  function PushKeys(name: string, args: map<string, Json>): Option<seq<DeviceKey>> {
    if name == PushTool then DeviceKeys(args) else Some([])
  }

  /** The outcome of dispatching one call: answered, or an exception escaped after the events listed. */
  datatype Dispatched =
    | Answered(events: seq<DispatchEvent>, answer: Message, counts: Counts, invoked: Option<Invocation>)
    | DispatchCrashed(events: seq<DispatchEvent>)

  /** The retry counters after a call. */
  function CountsAfter(name: string, counts: Counts, keys: seq<DeviceKey>, outcome: ToolOutcome): Counts {
    if name != PushTool then counts
    else if Vetoed(counts, keys) then Registered(counts, keys)
    else if PushFailed(outcome) then AfterFailure(Registered(counts, keys), keys)
    else AfterSuccess(Registered(counts, keys), keys)
  }

  /** One refusal event per entry at the limit, in order. */
  function LimitEvents(vetoes: seq<DeviceKey>): seq<DispatchEvent> {
    seq(|vetoes|, j requires 0 <= j < |vetoes| => RetryLimit(vetoes[j]))
  }

  /** The events that follow an invocation: a timeout or an exception is reported, and a push reports its
      result. */
  function ReportEvents(name: string, outcome: ToolOutcome): seq<DispatchEvent> {
    var result := ResultText(name, outcome);
    (match outcome
     case Returned(_) => []
     case TimedOut => [ToolTimedOut(result)]
     case Threw(_) => [ToolFailed(result)])
    + (if name == PushTool then [PushReport(result)] else [])
  }

  /** The device keys a call reads before it is invoked, refused or raises: the entries of a push up to the
      first one that raises, none for any other tool. */
  function KeysRead(name: string, args: map<string, Json>): seq<DeviceKey> {
    if name == PushTool then EntriesRead(args) else []
  }

  /** The body of `for tc in tool_calls` (source lines 312-398) for one call; `outcome` is what the tool
      answers if it is invoked. Preparing the arguments raises before anything is yielded; reading the
      entries of a push raises after the call was announced and every entry read so far at the limit was
      reported. Otherwise the call is answered by exactly one tool message carrying its id and name: the
      veto text when a push names a device at the limit, and then the tool is not invoked, the result text
      otherwise. */
  function Dispatch(call: CallRef, topologyId: string, model: string, counts: Counts, parse: Parser, outcome: ToolOutcome)
    : (r: Dispatched)
    ensures r.DispatchCrashed? <==>
              PreparedArgs(parse, call, topologyId, model).None?
              || PushKeys(call.name, PreparedArgs(parse, call, topologyId, model).value).None?
    ensures PreparedArgs(parse, call, topologyId, model).None? ==> r.events == []
    ensures PreparedArgs(parse, call, topologyId, model).Some? ==>
              var args := PreparedArgs(parse, call, topologyId, model).value;
              r.events == [CallingTool(call.name)] + LimitEvents(AtLimit(counts, KeysRead(call.name, args)))
                          + (if r.Answered? && r.invoked.Some? then ReportEvents(call.name, outcome) else [])
    ensures r.Answered? ==>
              var args := PreparedArgs(parse, call, topologyId, model).value;
              var keys := PushKeys(call.name, args).value;
              var vetoed := call.name == PushTool && Vetoed(counts, keys);
              && r.answer == ToolResult(call.id, call.name, if vetoed then VetoText else ResultText(call.name, outcome))
              && r.invoked == (if vetoed then None else Some(Invocation(call.name, args)))
              && r.counts == CountsAfter(call.name, counts, keys, outcome)
    ensures r.Answered? ==> r.answer == ToolResult(call.id, call.name, r.answer.content)
    ensures r.Answered? && r.invoked.Some? ==>
              TopologyKey in r.invoked.value.args && r.invoked.value.args[TopologyKey] == JStr(topologyId)
    ensures r.Answered? && call.name != PushTool ==> r.counts == counts
  {
    var prepared := PreparedArgs(parse, call, topologyId, model);
    if prepared.None? then DispatchCrashed([]) else Admit(call, prepared.value, counts, outcome)
  }

  /** The call once its arguments `args` are prepared: it is announced, the entries of a push are read (which
      may raise) and those at the limit reported; a push naming a device at the limit is answered by the
      veto text without an invocation, any other call is invoked and answered by its result text. */
  function Admit(call: CallRef, args: map<string, Json>, counts: Counts, outcome: ToolOutcome): (r: Dispatched)
    ensures r.DispatchCrashed? <==> PushKeys(call.name, args).None?
    ensures r.events == [CallingTool(call.name)] + LimitEvents(AtLimit(counts, KeysRead(call.name, args)))
                        + (if r.Answered? && r.invoked.Some? then ReportEvents(call.name, outcome) else [])
    ensures r.Answered? ==>
              var keys := PushKeys(call.name, args).value;
              var vetoed := call.name == PushTool && Vetoed(counts, keys);
              && r.answer == ToolResult(call.id, call.name, if vetoed then VetoText else ResultText(call.name, outcome))
              && r.invoked == (if vetoed then None else Some(Invocation(call.name, args)))
              && r.counts == CountsAfter(call.name, counts, keys, outcome)
    ensures r.Answered? && call.name != PushTool ==> r.counts == counts
  {
    var announced := [CallingTool(call.name)] + LimitEvents(AtLimit(counts, KeysRead(call.name, args)));
    var keys := PushKeys(call.name, args);
    if keys.None? then DispatchCrashed(announced)
    else if call.name == PushTool && Vetoed(counts, keys.value) then
      Answered(announced, ToolResult(call.id, call.name, VetoText), Registered(counts, keys.value), None)
    else
      Answered(announced + ReportEvents(call.name, outcome), ToolResult(call.id, call.name, MessageText(ResultText(call.name, outcome))),
               CountsAfter(call.name, counts, keys.value, outcome), Some(Invocation(call.name, args)))
  }

  /** The call as the loop runs it: parse and complete the arguments, then go on with them. */
  method DispatchCall(call: CallRef, topologyId: string, model: string, counts: Counts, parse: Parser, outcome: ToolOutcome)
    returns (r: Dispatched)
    ensures r == Dispatch(call, topologyId, model, counts, parse, outcome)
  {
    var parsed := ParseArguments(parse, call.arguments);
    if parsed.None? {
      return DispatchCrashed([]);
    }
    var args := Inject(parsed.value, call.name, topologyId, model);
    assert PreparedArgs(parse, call, topologyId, model) == Some(args);
    r := AdmitCall(call, args, counts, outcome);
  }

  /** The call with its arguments prepared, as the loop runs it: announce it, pass a push through the
      admission loop entry by entry (raising at the first entry without a key), then invoke the tool and
      report. */
  method AdmitCall(call: CallRef, args: map<string, Json>, counts: Counts, outcome: ToolOutcome) returns (r: Dispatched)
    ensures r == Admit(call, args, counts, outcome)
  {
    var keys := KeysRead(call.name, args);
    var counts', vetoes := counts, [];
    if call.name == PushTool {
      counts', vetoes := AdmitPush(counts, keys);
    }
    assert vetoes == AtLimit(counts, keys);
    var events := [CallingTool(call.name)] + LimitEvents(vetoes);
    if PushKeys(call.name, args).None? {
      return DispatchCrashed(events);
    }
    assert keys == PushKeys(call.name, args).value;
    if vetoes != [] {
      return Answered(events, ToolResult(call.id, call.name, VetoText), counts', None);
    }
    var reported;
    reported, counts' := ReportOutcome(call.name, keys, counts', outcome);
    r := Answered(events + reported, ToolResult(call.id, call.name, MessageText(ResultText(call.name, outcome))),
                  counts', Some(Invocation(call.name, args)));
  }

  /** What follows an invocation (source lines 348-386): a timeout or an exception is reported, and for a
      push the counters of its entries are updated and the result is reported. */
  method ReportOutcome(name: string, keys: seq<DeviceKey>, counts: Counts, outcome: ToolOutcome)
    returns (events: seq<DispatchEvent>, counts': Counts)
    requires name == PushTool ==> forall j | 0 <= j < |keys| :: keys[j] in counts
    ensures events == ReportEvents(name, outcome)
    ensures counts' == if name != PushTool then counts
                       else if PushFailed(outcome) then AfterFailure(counts, keys) else AfterSuccess(counts, keys)
  {
    var result := ResultText(name, outcome);
    events, counts' := [], counts;
    match outcome {
      case Returned(_) =>
      case TimedOut => events := events + [ToolTimedOut(result)];
      case Threw(_) => events := events + [ToolFailed(result)];
    }
    if name == PushTool {
      counts' := RecordPush(counts', keys, PushFailed(outcome));
      events := events + [PushReport(result)];
    }
  }

  // ---------------------------------------------------------------------------------------------
  // Properties

  /** The counter of a push rises exactly when the tool message it leaves reports an error: the message
      text mentions "Error" or "Failed". */
  lemma PushFailedIffReported(outcome: ToolOutcome)
    ensures PushFailed(outcome) <==> FailedResult(ResultText(PushTool, outcome))
  {
    match outcome {
      case Returned(t) =>
      case TimedOut =>
        Text.ContainsPrefix(ResultText(PushTool, outcome), "Error");
      case Threw(e) =>
        Text.ContainsPrefix(ResultText(PushTool, outcome), "Error");
    }
  }

  /** The placeholder for an empty result reports no error, so an empty push result resets the counters. */
  lemma NoOutputIsSuccess()
    ensures !FailedResult(NoOutputText)
  {
    assert forall i | 0 <= i < |NoOutputText| :: NoOutputText[i] != 'E' && NoOutputText[i] != 'F';
    Text.MissingFirst(NoOutputText, "Error");
    Text.MissingFirst(NoOutputText, "Failed");
  }
}
