/** The browser's chat store: the flags that gate model and mode changes, the session actions, and
    `sendMessage`, which reads the server-sent event stream chunk by chunk, splits it into lines with a
    carry-over buffer, and appends the text of every `data: ` payload to the assistant message. */
module ChatStore {
  import opened Wrappers
  import opened JsonValues
  import Text

  /** A message as the store keeps it (the timestamp is not part of this model). */
  datatype ChatMessage = ChatMessage(role: string, content: string)

  /** What the send request comes to: it fails with a message, or the response arrives with its
      `X-Session-ID` header and a body read as the given chunks (each already decoded), after which the
      reader reports the end or fails with a message. */
  datatype Reply =
    | Rejected(message: string)
    | Delivered(newSessionId: Option<string>, chunks: seq<string>, readFailure: Option<string>)

  /** How `sendMessage` ends: it returns a session id, or rethrows with a message. */
  datatype SendResult = ReturnedId(id: string) | Rethrown(message: string)

  /** JavaScript truthiness of an optional string: `null`, `undefined` and "" are falsy. */
  predicate Truthy(s: Option<string>) {
    s.Some? && s.value != ""
  }

  // ---------------------------------------------------------------------------------------------
  // Lines

  /** One read (source lines 136-140): the carried-over buffer plus the chunk, split at line feeds into the
      complete lines and the unfinished remainder, which is carried over. Nothing is lost or invented:
      the lines joined by line feeds, then a line feed and the remainder, give back the text. */
  function TakeLines(buffer: string, chunk: string): (r: (seq<string>, string))
    ensures Text.NoNewline(r.1)
    ensures forall k | 0 <= k < |r.0| :: Text.NoNewline(r.0[k])
    ensures r.0 == [] ==> buffer + chunk == r.1
    ensures r.0 != [] ==> buffer + chunk == Text.Join(r.0) + "\n" + r.1
    ensures r.0 + [r.1] == Text.Split(buffer + chunk)
  {
    var parts := Text.Split(buffer + chunk);
    var lines, last := parts[..|parts| - 1], parts[|parts| - 1];
    Text.SplitPieces(buffer + chunk);
    if lines != [] then
      assert parts == lines + [last];
      Text.JoinAppend(lines, [last]);
      (lines, last)
    else
      (lines, last)
  }

  /** The complete lines of a text: all but the unfinished last piece. */
  function CompleteLines(s: string): seq<string> {
    Text.Split(s)[..|Text.Split(s)| - 1]
  }

  // ---------------------------------------------------------------------------------------------
  // Payloads

  /** JavaScript's `value.key` on a parsed payload: only objects have members; `undefined` is `None`. */
  function MemberOf(payload: Json, key: string): Option<Json> {
    if payload.JObj? then Member(payload.fields, key) else None
  }

  /** The payload a line carries, if it is interpreted: a non-blank line starting with "data: " whose rest
      parses. A `null` payload is dropped too: reading its `error` throws, and the throw is caught and
      logged like a parse failure. */
  function Payload(parse: Parser, line: string): Option<Json> {
    if Text.IsBlank(line) || !Text.StartsWith(line, "data: ") then None
    else
      var parsed := parse(line[6..]);
      if parsed.Some? && !parsed.value.JNull? then parsed else None
  }

  /** The truthy `error` member of a payload. */
  function ErrorOf(payload: Json): Option<Json> {
    var e := MemberOf(payload, "error");
    if e.Some? && JsTruthy(e.value) then e else None
  }

  /** What `content += payload.text` appends: a truthy text, converted to a string by `jsString` when it is
      not one already (JavaScript's string conversion), and nothing otherwise. */
  function TextOf(payload: Json, jsString: Json -> string): string {
    var t := MemberOf(payload, "text");
    if t.Some? && JsTruthy(t.value) then (if t.value.JStr? then t.value.s else jsString(t.value)) else ""
  }

  /** The state of the scan: the assistant text so far, and the error payload that stopped it. */
  datatype Scan = Scan(text: string, error: Option<Json>)

  /** One line's effect on a scan that has not stopped. */
  function LineStep(s: Scan, line: string, parse: Parser, jsString: Json -> string): Scan {
    var p := Payload(parse, line);
    if p.None? then s
    else if ErrorOf(p.value).Some? then Scan(s.text, ErrorOf(p.value))
    else Scan(s.text + TextOf(p.value, jsString), None)
  }

  /** The scan over the lines in order; the first error payload stops it and later lines are ignored. */
  function ScanLines(parse: Parser, jsString: Json -> string, lines: seq<string>): Scan {
    if lines == [] then Scan("", None)
    else
      var s := ScanLines(parse, jsString, lines[..|lines| - 1]);
      if s.error.Some? then s else LineStep(s, lines[|lines| - 1], parse, jsString)
  }

  /** The scan of a whole stream: its complete lines, whatever the chunk boundaries. */
  function StreamScan(parse: Parser, jsString: Json -> string, chunks: seq<string>): Scan {
    ScanLines(parse, jsString, CompleteLines(Text.Concat(chunks)))
  }

  // ---------------------------------------------------------------------------------------------
  // The store

  class Store {
    var currentSession: Option<string>
    var messages: seq<ChatMessage>
    var error: Option<Json>
    var streaming: bool
    var selectedModel: string
    var selectedMode: string
    var sessionStarted: bool

    /** The initial state (source lines 5-15). */
    constructor()
      ensures currentSession == None && messages == [] && error == None && !streaming
      ensures selectedModel == "qwen" && selectedMode == "agent" && !sessionStarted
    {
      currentSession, messages, error, streaming := None, [], None, false;
      selectedModel, selectedMode, sessionStarted := "qwen", "agent", false;
    }

    /** `setCurrentSession` (source lines 178-181): the session counts as started unless it is null or "new". */
    method SetCurrentSession(session: Option<string>)
      modifies this
      ensures currentSession == session
      ensures sessionStarted <==> session.Some? && session.value != "new"
      ensures messages == old(messages) && error == old(error) && streaming == old(streaming)
      ensures selectedModel == old(selectedModel) && selectedMode == old(selectedMode)
    {
      currentSession := session;
      sessionStarted := session.Some? && session.value != "new";
    }

    /** `clearMessages` (source lines 183-186). */
    method ClearMessages()
      modifies this
      ensures messages == [] && !sessionStarted
      ensures currentSession == old(currentSession) && error == old(error) && streaming == old(streaming)
      ensures selectedModel == old(selectedModel) && selectedMode == old(selectedMode)
    {
      messages := [];
      sessionStarted := false;
    }

    /** `setModel` (source lines 188-192): the model can change only before the session has started. */
    method SetModel(model: string)
      modifies this
      ensures selectedModel == if old(sessionStarted) then old(selectedModel) else model
      ensures sessionStarted == old(sessionStarted) && selectedMode == old(selectedMode)
      ensures currentSession == old(currentSession) && messages == old(messages)
      ensures error == old(error) && streaming == old(streaming)
    {
      if !sessionStarted {
        selectedModel := model;
      }
    }

    /** `setMode` (source lines 194-198): the mode can change only before the session has started. */
    method SetMode(mode: string)
      modifies this
      ensures selectedMode == if old(sessionStarted) then old(selectedMode) else mode
      ensures sessionStarted == old(sessionStarted) && selectedModel == old(selectedModel)
      ensures currentSession == old(currentSession) && messages == old(messages)
      ensures error == old(error) && streaming == old(streaming)
    {
      if !sessionStarted {
        selectedMode := mode;
      }
    }

    /** `resetSession` (source lines 200-204). */
    method ResetSession()
      modifies this
      ensures currentSession == None && messages == [] && !sessionStarted
      ensures error == old(error) && streaming == old(streaming)
      ensures selectedModel == old(selectedModel) && selectedMode == old(selectedMode)
    {
      currentSession := None;
      messages := [];
      sessionStarted := false;
    }

    /** `stopAgent` (source lines 206-218): nothing happens unless a session is set and the mode is "agent";
        otherwise the stop request goes to the current session (`sent`), and `failure` is how that request
        fails, if it does; a failure is recorded and then thrown on to the caller (`rethrown`). */
    method StopAgent(failure: Option<string>) returns (sent: Option<string>, rethrown: Option<string>)
      modifies this
      ensures sent.None? <==> !Truthy(old(currentSession)) || old(selectedMode) != "agent"
      ensures sent.None? ==> streaming == old(streaming) && error == old(error)
      ensures sent.Some? ==> sent == old(currentSession)
      ensures sent.Some? && failure.None? ==> !streaming && error == old(error)
      ensures sent.Some? && failure.Some? ==> streaming == old(streaming) && error == Some(JStr(failure.value))
      ensures rethrown == (if sent.Some? then failure else None)
      ensures currentSession == old(currentSession) && messages == old(messages) && sessionStarted == old(sessionStarted)
      ensures selectedModel == old(selectedModel) && selectedMode == old(selectedMode)
    {
      if !Truthy(currentSession) || selectedMode != "agent" {
        return None, None;
      }
      sent := currentSession;
      if failure.Some? {
        error := Some(JStr(failure.value));
        rethrown := failure;
      } else {
        rethrown := None;
        streaming := false;
      }
    }

    /** `sendMessage` (source lines 92-176). The user's message is appended, then (once the response has
        arrived) the assistant placeholder, whose content ends up as the texts of the payloads on the
        complete lines of the stream, up to the first error payload; an unfinished last line is discarded.
        `streaming` is false on every exit. */
    method SendMessage(sessionId: string, content: string, reply: Reply, parse: Parser, jsString: Json -> string)
      returns (result: SendResult)
      modifies this
      ensures !streaming
      ensures selectedModel == old(selectedModel) && selectedMode == old(selectedMode)
      ensures reply.Rejected? ==>
                && messages == old(messages) + [ChatMessage("user", content)]
                && error == Some(JStr(reply.message)) && result == Rethrown(reply.message)
                && currentSession == old(currentSession) && sessionStarted == old(sessionStarted)
      ensures reply.Delivered? ==>
                var scan := StreamScan(parse, jsString, reply.chunks);
                && messages == old(messages) + [ChatMessage("user", content), ChatMessage("assistant", scan.text)]
                && error == (if scan.error.Some? then scan.error
                             else if reply.readFailure.Some? then Some(JStr(reply.readFailure.value)) else None)
                && result == (if scan.error.None? && reply.readFailure.Some? then Rethrown(reply.readFailure.value)
                              else ReturnedId(if Truthy(reply.newSessionId) then reply.newSessionId.value else sessionId))
                && currentSession == (if sessionId == "new" && Truthy(reply.newSessionId) then reply.newSessionId else old(currentSession))
                && sessionStarted == (old(sessionStarted) || sessionId != "new" || Truthy(reply.newSessionId))
    {
      streaming := true;
      error := None;
      messages := messages + [ChatMessage("user", content)];
      if reply.Rejected? {
        error := Some(JStr(reply.message));
        streaming := false;
        return Rethrown(reply.message);
      }
      var newSessionId := reply.newSessionId;
      if sessionId == "new" && Truthy(newSessionId) {
        currentSession := newSessionId;
        sessionStarted := true;
      } else if sessionId != "new" {
        sessionStarted := true;
      }
      var returned := if Truthy(newSessionId) then newSessionId.value else sessionId;
      var stopped := ReadStream(reply.chunks, parse, jsString);
      if stopped {
        streaming := false;
        return ReturnedId(returned);
      }
      if reply.readFailure.Some? {
        error := Some(JStr(reply.readFailure.value));
        streaming := false;
        return Rethrown(reply.readFailure.value);
      }
      streaming := false;
      result := ReturnedId(returned);
    }

    /** The read loop of `sendMessage` (source lines 131-167): the assistant placeholder is appended and
        every chunk's complete lines are scanned, the unfinished remainder carried over to the next read;
        an error payload ends the loop. */
    method ReadStream(chunks: seq<string>, parse: Parser, jsString: Json -> string) returns (stopped: bool)
      requires error == None
      modifies this
      ensures messages == old(messages) + [ChatMessage("assistant", StreamScan(parse, jsString, chunks).text)]
      ensures stopped <==> StreamScan(parse, jsString, chunks).error.Some?
      ensures error == StreamScan(parse, jsString, chunks).error
      ensures currentSession == old(currentSession) && sessionStarted == old(sessionStarted) && streaming == old(streaming)
      ensures selectedModel == old(selectedModel) && selectedMode == old(selectedMode)
    {
      var index := |messages|;
      messages := messages + [ChatMessage("assistant", "")];
      var buffer := "";
      ghost var processed: seq<string> := [];
      NothingRead(chunks);
      for i := 0 to |chunks|
        invariant processed + [buffer] == Text.Split(Text.Concat(chunks[..i]))
        invariant ScanLines(parse, jsString, processed).error.None?
        invariant messages == old(messages) + [ChatMessage("assistant", ScanLines(parse, jsString, processed).text)]
        invariant index == |old(messages)| && error == None
        invariant currentSession == old(currentSession) && sessionStarted == old(sessionStarted) && streaming == old(streaming)
        invariant selectedModel == old(selectedModel) && selectedMode == old(selectedMode)
      {
        var (lines, rest) := TakeLines(buffer, chunks[i]);
        ReadExtends(chunks, i, processed, buffer);
        ghost var before := messages;
        stopped := ScanChunkLines(index, lines, parse, jsString, processed);
        ReplaceLast(before, ChatMessage("assistant", ScanLines(parse, jsString, processed + lines).text));
        if stopped {
          ErrorSettles(parse, jsString, chunks, i, processed, lines, rest);
          return;
        }
        processed := processed + lines;
        buffer := rest;
      }
      AllRead(chunks, processed, buffer);
      stopped := false;
    }

    /** The `for (const line of lines)` loop of one read (source lines 142-166): blank lines and lines without
        the "data: " prefix are skipped, an error payload is recorded and stops everything, and a truthy
        text is appended to the assistant message at `index`. */
    method ScanChunkLines(index: nat, lines: seq<string>, parse: Parser, jsString: Json -> string, ghost processed: seq<string>)
      returns (stopped: bool)
      requires index < |messages| && messages[index] == ChatMessage("assistant", ScanLines(parse, jsString, processed).text)
      requires ScanLines(parse, jsString, processed).error.None?
      modifies this
      ensures messages == old(messages)[index := ChatMessage("assistant", ScanLines(parse, jsString, processed + lines).text)]
      ensures stopped <==> ScanLines(parse, jsString, processed + lines).error.Some?
      ensures error == if stopped then ScanLines(parse, jsString, processed + lines).error else old(error)
      ensures currentSession == old(currentSession) && sessionStarted == old(sessionStarted) && streaming == old(streaming)
      ensures selectedModel == old(selectedModel) && selectedMode == old(selectedMode)
    {
      assert processed + lines[..0] == processed;
      for j := 0 to |lines|
        invariant |messages| == |old(messages)|
        invariant messages == old(messages)[index := ChatMessage("assistant", ScanLines(parse, jsString, processed + lines[..j]).text)]
        invariant ScanLines(parse, jsString, processed + lines[..j]).error.None?
        invariant error == old(error)
        invariant currentSession == old(currentSession) && sessionStarted == old(sessionStarted) && streaming == old(streaming)
        invariant selectedModel == old(selectedModel) && selectedMode == old(selectedMode)
      {
        ghost var done := processed + lines[..j];
        ghost var before := ScanLines(parse, jsString, done);
        assert processed + lines[..j + 1] == done + [lines[j]];
        ScanStep(parse, jsString, done, lines[j]);
        stopped := ScanLine(index, lines[j], parse, jsString, before);
        UpdateTwice(old(messages), index, ChatMessage("assistant", before.text),
                    ChatMessage("assistant", LineStep(before, lines[j], parse, jsString).text));
        if stopped {
          StoppedEarly(parse, jsString, processed, lines, j);
          return;
        }
      }
      assert lines[..|lines|] == lines;
      stopped := false;
    }

    /** The body of the line loop (source lines 143-165) for one line, on a scan `before` that has not
        stopped and whose text the message at `index` holds. */
    method ScanLine(index: nat, line: string, parse: Parser, jsString: Json -> string, ghost before: Scan)
      returns (stopped: bool)
      requires index < |messages| && messages[index] == ChatMessage("assistant", before.text) && before.error.None?
      modifies this
      ensures messages == old(messages)[index := ChatMessage("assistant", LineStep(before, line, parse, jsString).text)]
      ensures stopped <==> LineStep(before, line, parse, jsString).error.Some?
      ensures error == if stopped then LineStep(before, line, parse, jsString).error else old(error)
      ensures currentSession == old(currentSession) && sessionStarted == old(sessionStarted) && streaming == old(streaming)
      ensures selectedModel == old(selectedModel) && selectedMode == old(selectedMode)
    {
      assert old(messages)[index := ChatMessage("assistant", before.text)] == messages;
      assert before.text + "" == before.text;
      stopped := false;
      if Text.IsBlank(line) {
        return;
      }
      if Text.StartsWith(line, "data: ") {
        var jsonStr := line[6..];
        var parsed := parse(jsonStr);
        if parsed.Some? && !parsed.value.JNull? {
          var payload := parsed.value;
          var err := ErrorOf(payload);
          if err.Some? {
            error := err;
            return true;
          }
          var text := MemberOf(payload, "text");
          if text.Some? && JsTruthy(text.value) {
            var addition := if text.value.JStr? then text.value.s else jsString(text.value);
            messages := messages[index := ChatMessage("assistant", messages[index].content + addition)];
          }
        }
      }
    }
  }

  // ---------------------------------------------------------------------------------------------
  // Lemmas

  /** The scan of one more line. */
  lemma ScanStep(parse: Parser, jsString: Json -> string, done: seq<string>, line: string)
    ensures ScanLines(parse, jsString, done + [line]) ==
              var s := ScanLines(parse, jsString, done);
              if s.error.Some? then s else LineStep(s, line, parse, jsString)
  {
    assert (done + [line])[..|done|] == done;
  }

  /** Once an error payload has stopped the scan, further lines change nothing. */
  lemma {:induction false} ScanStops(parse: Parser, jsString: Json -> string, a: seq<string>, b: seq<string>)
    requires ScanLines(parse, jsString, a).error.Some?
    ensures ScanLines(parse, jsString, a + b) == ScanLines(parse, jsString, a)
    decreases |b|
  {
    if b == [] {
      assert a + b == a;
    } else {
      var b' := b[..|b| - 1];
      assert (a + b)[..|a + b| - 1] == a + b';
      ScanStops(parse, jsString, a, b');
    }
  }

  /** An error payload at line `j` of a read fixes the scan of all the read's lines. */
  lemma StoppedEarly(parse: Parser, jsString: Json -> string, processed: seq<string>, lines: seq<string>, j: nat)
    requires j < |lines|
    requires ScanLines(parse, jsString, processed + lines[..j + 1]).error.Some?
    ensures ScanLines(parse, jsString, processed + lines) == ScanLines(parse, jsString, processed + lines[..j + 1])
  {
    Regroup(processed, lines, j + 1);
    ScanStops(parse, jsString, processed + lines[..j + 1], lines[j + 1..]);
  }

  /** Before the first read there are no complete lines and the buffer is empty. */
  lemma NothingRead(chunks: seq<string>)
    ensures [] + [""] == Text.Split(Text.Concat(chunks[..0]))
  {
    assert chunks[..0] == [];
  }

  /** After the last read, the lines taken are the complete lines of the whole stream. */
  lemma AllRead(chunks: seq<string>, processed: seq<string>, buffer: string)
    requires processed + [buffer] == Text.Split(Text.Concat(chunks[..|chunks|]))
    ensures CompleteLines(Text.Concat(chunks)) == processed
  {
    assert chunks[..|chunks|] == chunks;
    DropLast(Text.Split(Text.Concat(chunks)), processed, buffer);
  }

  /** A second write to the same position overrides the first. */
  lemma UpdateTwice<T>(s: seq<T>, i: nat, x: T, y: T)
    requires i < |s|
    ensures s[i := x][i := y] == s[i := y]
  {
  }

  /** Dropping the last element. */
  lemma DropLast<T>(s: seq<T>, p: seq<T>, x: T)
    requires s == p + [x]
    ensures s[..|s| - 1] == p
  {
  }

  /** A sequence that starts with `p` is `p` followed by the rest. */
  lemma StartsWithPrefix<T>(s: seq<T>, p: seq<T>)
    requires |p| <= |s| && s[..|p|] == p
    ensures s == p + s[|p|..]
  {
    assert s == s[..|p|] + s[|p|..];
  }

  /** When `whole` is `pieces` with its last element replaced by the non-empty `tail`, dropping the last
      element of each leaves the shorter one in front of the longer. */
  lemma InitKept<T>(pieces: seq<T>, whole: seq<T>, tail: seq<T>)
    requires |pieces| >= 1 && |tail| >= 1 && whole == pieces[..|pieces| - 1] + tail
    ensures |pieces| - 1 <= |whole| - 1 && whole[..|whole| - 1][..|pieces| - 1] == pieces[..|pieces| - 1]
  {
    assert whole[..|whole| - 1][..|pieces| - 1] == whole[..|pieces| - 1];
  }

  /** Replacing the last element of a sequence. */
  lemma ReplaceLast<T>(s: seq<T>, x: T)
    requires s != []
    ensures s[|s| - 1 := x] == s[..|s| - 1] + [x]
  {
  }

  /** Cutting a sequence and gluing it back. */
  lemma Regroup<T>(p: seq<T>, s: seq<T>, j: nat)
    requires j <= |s|
    ensures p + s[..j] + s[j..] == p + s
  {
    assert s == s[..j] + s[j..];
  }

  /** Reading one more chunk: the lines completed so far stay complete, the carried-over buffer continues
      with the chunk, and the buffer after the read is the unfinished piece of the whole text. */
  lemma ReadExtends(chunks: seq<string>, i: nat, processed: seq<string>, buffer: string)
    requires i < |chunks|
    requires processed + [buffer] == Text.Split(Text.Concat(chunks[..i]))
    ensures processed + TakeLines(buffer, chunks[i]).0 + [TakeLines(buffer, chunks[i]).1] == Text.Split(Text.Concat(chunks[..i + 1]))
  {
    Text.Associative(processed, TakeLines(buffer, chunks[i]).0, [TakeLines(buffer, chunks[i]).1]);
    ConcatStep(chunks, i);
    var split := Text.Split(Text.Concat(chunks[..i]));
    assert split[..|split| - 1] == processed && split[|split| - 1] == buffer by {
      assert split == processed + [buffer];
    }
    Text.SplitExtend(Text.Concat(chunks[..i]), chunks[i]);
  }

  /** Reading one more chunk appends it to the text read so far. */
  lemma ConcatStep(chunks: seq<string>, i: nat)
    requires i < |chunks|
    ensures Text.Concat(chunks[..i + 1]) == Text.Concat(chunks[..i]) + chunks[i]
  {
    assert chunks[..i + 1][..i] == chunks[..i];
  }

  /** The complete lines of a text stay complete, in the same places, however the text continues. */
  lemma CompleteLinesGrow(a: string, b: string)
    ensures |CompleteLines(a)| <= |CompleteLines(a + b)|
    ensures CompleteLines(a + b)[..|CompleteLines(a)|] == CompleteLines(a)
  {
    var pa, pab := Text.Split(a), Text.Split(a + b);
    var tail := Text.Split(pa[|pa| - 1] + b);
    assert pab == pa[..|pa| - 1] + tail by {
      Text.SplitExtend(a, b);
    }
    InitKept(pa, pab, tail);
    assert CompleteLines(a) == pa[..|pa| - 1];
    assert CompleteLines(a + b) == pab[..|pab| - 1];
  }

  /** When the lines read so far stop the scan, the scan of the whole stream's complete lines is the same:
      nothing after the error payload matters. */
  lemma ErrorSettles(parse: Parser, jsString: Json -> string, chunks: seq<string>, i: nat, processed: seq<string>, lines: seq<string>, rest: string)
    requires i < |chunks|
    requires processed + lines + [rest] == Text.Split(Text.Concat(chunks[..i + 1]))
    requires ScanLines(parse, jsString, processed + lines).error.Some?
    ensures StreamScan(parse, jsString, chunks) == ScanLines(parse, jsString, processed + lines)
  {
    var done := processed + lines;
    var all := CompleteLines(Text.Concat(chunks));
    assert all == done + all[|done|..] by {
      LinesSoFar(chunks, i + 1, done, rest);
    }
    ScanStops(parse, jsString, done, all[|done|..]);
  }

  /** The complete lines of the text read so far begin the complete lines of the whole stream. */
  lemma LinesSoFar(chunks: seq<string>, n: nat, done: seq<string>, rest: string)
    requires n <= |chunks|
    requires done + [rest] == Text.Split(Text.Concat(chunks[..n]))
    ensures var all := CompleteLines(Text.Concat(chunks)); |done| <= |all| && all == done + all[|done|..]
  {
    var a, b := Text.Concat(chunks[..n]), Text.Concat(chunks[n..]);
    assert Text.Concat(chunks) == a + b by {
      assert chunks == chunks[..n] + chunks[n..];
      Text.ConcatAppend(chunks[..n], chunks[n..]);
    }
    assert CompleteLines(a) == done by {
      DropLast(Text.Split(a), done, rest);
    }
    CompleteLinesGrow(a, b);
    StartsWithPrefix(CompleteLines(a + b), done);
  }
}
