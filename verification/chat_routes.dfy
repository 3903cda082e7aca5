/** The chat request handlers: the session-opening rules shared by the ask, agent and local endpoints
    (404 for an unknown topology, the session title, the user message), the history window, the agent
    endpoint's re-framing of the agent's output as server-sent events with its persistence, and the
    stop endpoint. */
module ChatRoutes {
  import opened Wrappers
  import opened JsonValues
  import Text
  import opened Cancellation

  // ---------------------------------------------------------------------------------------------
  // Pure rules

  /** The session title derived from the first message: short messages as they are, long ones cut to
      thirty characters and marked with an ellipsis. */
  function SessionTitle(content: string): (title: string)
    ensures |title| <= 33
    ensures |content| <= 30 ==> title == content
    ensures |content| > 30 ==> |title| == 33 && Text.StartsWith(title, content[..30]) && title[30..] == "..."
  {
    if |content| > 30 then content[..30] + "..." else content
  }

  /** The history forwarded to the knowledge service: the last four entries, or all when there are fewer. */
  function HistoryWindow<T>(history: seq<T>): (window: seq<T>)
    ensures |window| == if |history| > 4 then 4 else |history|
    ensures window == history[|history| - |window|..]
  {
    if |history| > 4 then history[|history| - 4..] else history
  }

  // ---------------------------------------------------------------------------------------------
  // The agent endpoint's stream

  /** The text a chunk contributes, or `None` when handling it raises and the chunk is dropped: it does not
      parse, is not an object (no `get`), or its "text" is not a string (the concatenation fails). A
      missing "text" contributes "". */
  function ChunkText(parse: Parser, chunk: string): Option<string> {
    match parse(chunk)
    case Some(JObj(fields)) =>
      if "text" !in fields then Some("")
      else if fields["text"].JStr? then Some(fields["text"].s)
      else None
    case _ => None
  }

  /** The chunks that survive, in order. */
  function Accepted(parse: Parser, chunks: seq<string>): (r: seq<string>)
    ensures |r| <= |chunks|
    ensures forall j | 0 <= j < |r| :: r[j] in chunks && ChunkText(parse, r[j]).Some?
  {
    if chunks == [] then []
    else
      var init := Accepted(parse, chunks[..|chunks| - 1]);
      var last := chunks[|chunks| - 1];
      assert forall c | c in chunks[..|chunks| - 1] :: c in chunks;
      init + (if ChunkText(parse, last).Some? then [last] else [])
  }

  /** No surviving chunk is dropped. */
  lemma {:induction false} AcceptedComplete(parse: Parser, chunks: seq<string>)
    ensures forall k | 0 <= k < |chunks| && ChunkText(parse, chunks[k]).Some? :: chunks[k] in Accepted(parse, chunks)
  {
    if chunks != [] {
      var init := chunks[..|chunks| - 1];
      AcceptedComplete(parse, init);
      forall k | 0 <= k < |chunks| && ChunkText(parse, chunks[k]).Some?
        ensures chunks[k] in Accepted(parse, chunks)
      {
        if k < |init| {
          assert chunks[k] == init[k];
        }
      }
    }
  }

  /** Filtering keeps the order: the survivors of a stream read in two parts are those of the first part
      followed by those of the second. */
  lemma {:induction false} AcceptedAppend(parse: Parser, a: seq<string>, b: seq<string>)
    ensures Accepted(parse, a + b) == Accepted(parse, a) + Accepted(parse, b)
  {
    if b == [] {
      assert a + b == a;
    } else {
      var init, last := b[..|b| - 1], b[|b| - 1];
      assert (a + b)[..|a + b| - 1] == a + init;
      AcceptedAppend(parse, a, init);
    }
  }

  /** The texts of the surviving chunks: one per surviving chunk, in the same order. */
  function Texts(parse: Parser, chunks: seq<string>): (texts: seq<string>)
    ensures |texts| == |Accepted(parse, chunks)|
    ensures forall j | 0 <= j < |texts| :: ChunkText(parse, Accepted(parse, chunks)[j]) == Some(texts[j])
  {
    if chunks == [] then []
    else
      var init, last := chunks[..|chunks| - 1], chunks[|chunks| - 1];
      var text := ChunkText(parse, last);
      Texts(parse, init) + (if text.Some? then [text.value] else [])
  }

  /** One server-sent event carrying a chunk. */
  function Frame(chunk: string): string {
    "data: " + chunk + "\n\n"
  }

  /** The events carrying the chunks, in order. */
  function Frames(sent: seq<string>): (frames: seq<string>)
    ensures |frames| == |sent|
  {
    seq(|sent|, j requires 0 <= j < |sent| => Frame(sent[j]))
  }

  /** `response_generator` of the agent endpoint (source lines 139-153): every chunk that survives is
      forwarded as one event, and the response text accumulates their texts, in order. */
  method ReframeAgentStream(parse: Parser, chunks: seq<string>) returns (frames: seq<string>, full: string)
    ensures frames == Frames(Accepted(parse, chunks))
    ensures full == Text.Concat(Texts(parse, chunks))
  {
    frames, full := [], "";
    for i := 0 to |chunks|
      invariant frames == Frames(Accepted(parse, chunks[..i]))
      invariant full == Text.Concat(Texts(parse, chunks[..i]))
    {
      assert chunks[..i + 1][..i] == chunks[..i];
      var text := ChunkText(parse, chunks[i]);
      if text.Some? {
        ghost var before := Texts(parse, chunks[..i]);
        assert Texts(parse, chunks[..i + 1]) == before + [text.value];
        assert (before + [text.value])[..|before|] == before;
        assert Frames(Accepted(parse, chunks[..i + 1])) == frames + [Frame(chunks[i])];
        full := full + text.value;
        frames := frames + [Frame(chunks[i])];
      } else {
        assert Texts(parse, chunks[..i + 1]) == Texts(parse, chunks[..i]);
        assert Accepted(parse, chunks[..i + 1]) == Accepted(parse, chunks[..i]);
      }
    }
    assert chunks[..|chunks|] == chunks;
  }

  // ---------------------------------------------------------------------------------------------
  // Persistence

  /** A stored chat session. */
  datatype Session = Session(id: string, topologyId: string, title: string, mode: string, model: string)

  /** A stored chat message. */
  datatype StoredMessage = StoredMessage(sessionId: string, role: string, content: string)

  /** The reply of the stop endpoint: `{"status": "stopped", "session_id": ...}`, or a 404. */
  datatype StopReply = Stopped(sessionId: string) | NoActiveTask

  /** The rows the handlers read and write. */
  class ChatDatabase {
    var topologies: set<string>
    var sessions: seq<Session>
    var messages: seq<StoredMessage>

    constructor(topologies: set<string>)
      ensures this.topologies == topologies && sessions == [] && messages == []
    {
      this.topologies := topologies;
      sessions, messages := [], [];
    }

    /** The opening shared by the three message endpoints (source lines 44-74, 106-129, 174-205): for the
        session id "new", an unknown topology is a 404 before anything is written, and otherwise a session
        is created under the id the database assigns (`newId`) with the derived title; then the user's
        message is saved under the session in use. */
    method OpenSession(topologyId: string, sessionId: string, content: string, mode: string, model: string, newId: string)
      returns (r: Option<string>)
      modifies this
      ensures topologies == old(topologies)
      ensures r.None? <==> sessionId == "new" && topologyId !in topologies
      ensures r.None? ==> sessions == old(sessions) && messages == old(messages)
      ensures r.Some? ==> messages == old(messages) + [StoredMessage(r.value, "user", content)]
      ensures r.Some? && sessionId == "new" ==>
                r.value == newId && sessions == old(sessions) + [Session(newId, topologyId, SessionTitle(content), mode, model)]
      ensures sessionId != "new" ==> r == Some(sessionId) && sessions == old(sessions)
    {
      var current := sessionId;
      if sessionId == "new" {
        if topologyId !in topologies {
          return None;
        }
        sessions := sessions + [Session(newId, topologyId, SessionTitle(content), mode, model)];
        current := newId;
      }
      messages := messages + [StoredMessage(current, "user", content)];
      r := Some(current);
    }

    /** The agent endpoint's stream (source lines 139-162): the re-framed events, then the assistant's
        response saved once, after the stream, and only when it is not empty. `chunks` are what the agent
        yielded; `raised` says that the agent itself then raised (a `Crashed` run), which leaves the
        `async for` outside the per-chunk `try`, so nothing is saved however much text was streamed. */
    method AgentResponse(sessionId: string, parse: Parser, chunks: seq<string>, raised: bool) returns (frames: seq<string>)
      modifies this
      ensures topologies == old(topologies) && sessions == old(sessions)
      ensures frames == Frames(Accepted(parse, chunks))
      ensures raised ==> messages == old(messages)
      ensures var full := Text.Concat(Texts(parse, chunks));
              !raised ==> messages == old(messages) + (if full != "" then [StoredMessage(sessionId, "assistant", full)] else [])
    {
      var full;
      frames, full := ReframeAgentStream(parse, chunks);
      if raised {
        return;
      }
      if full != "" {
        messages := messages + [StoredMessage(sessionId, "assistant", full)];
      }
    }
  }

  /** `stop_agent_chat` (source lines 233-239): stopped exactly when a run is registered for the session,
      whose flag is then raised; a 404 otherwise. */
  method StopAgentChat(registry: Registry, sessionId: string) returns (reply: StopReply)
    modifies if sessionId in registry.tasks then {registry.tasks[sessionId]} else {}
    ensures reply == Stopped(sessionId) <==> sessionId in registry.tasks
    ensures reply == NoActiveTask <==> sessionId !in registry.tasks
    ensures reply.Stopped? ==> registry.tasks[sessionId].cancelled
  {
    var success := registry.Stop(sessionId);
    if success {
      return Stopped(sessionId);
    }
    return NoActiveTask;
  }

  // ---------------------------------------------------------------------------------------------
  // Properties

  /** A chunk whose text is empty, or which has none, is still forwarded but adds nothing to the response. */
  lemma SilentChunkForwarded(parse: Parser, chunks: seq<string>, c: string)
    requires ChunkText(parse, c) == Some("")
    ensures Accepted(parse, chunks + [c]) == Accepted(parse, chunks) + [c]
    ensures Text.Concat(Texts(parse, chunks + [c])) == Text.Concat(Texts(parse, chunks))
  {
    assert (chunks + [c])[..|chunks|] == chunks;
    var before := Texts(parse, chunks);
    assert Texts(parse, chunks + [c]) == before + [""];
    assert (before + [""])[..|before|] == before;
  }
}
