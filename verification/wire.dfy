/** The agent endpoint and the browser store together: the events the endpoint writes, read back by the
    store's line scanner, give the assistant message the same text the endpoint saves. */
module Wire {
  import opened Wrappers
  import opened JsonValues
  import Text
  import opened ChatRoutes
  import opened ChatStore

  /** A chunk without an error payload: if it parses, it has no truthy "error" member. The agent's chunks
      are all `{"text": ...}` objects. */
  predicate Quiet(parse: Parser, chunk: string) {
    parse(chunk).Some? ==> ErrorOf(parse(chunk).value).None?
  }

  /** The lines of the events carrying `sent`: each event is its data line followed by an empty line. */
  function EventLines(sent: seq<string>): seq<string> {
    if sent == [] then []
    else EventLines(sent[..|sent| - 1]) + ["data: " + sent[|sent| - 1], ""]
  }

  /** Line-feed-free chunks framed as events split into their data lines and empty lines, with nothing
      left unfinished at the end. */
  lemma FramesSplit(sent: seq<string>)
    requires forall j | 0 <= j < |sent| :: Text.NoNewline(sent[j])
    ensures Text.Split(Text.Concat(Frames(sent))) == EventLines(sent) + [""]
  {
    FramesJoin(sent);
    Text.SplitJoin(EventLines(sent) + [""]);
  }

  /** The events of line-feed-free chunks are their data lines and empty lines joined with line feeds. */
  lemma {:induction false} FramesJoin(sent: seq<string>)
    requires forall j | 0 <= j < |sent| :: Text.NoNewline(sent[j])
    ensures Text.Join(EventLines(sent) + [""]) == Text.Concat(Frames(sent))
    ensures forall k | 0 <= k < |EventLines(sent) + [""]| :: Text.NoNewline((EventLines(sent) + [""])[k])
  {
    if sent == [] {
      assert EventLines(sent) + [""] == [""];
    } else {
      var init, c := sent[..|sent| - 1], sent[|sent| - 1];
      var lines := EventLines(init);
      FramesJoin(init);
      assert init + [c] == sent;
      FramesAppend(init, c);
      EventJoined(lines, c);
      assert EventLines(sent) + [""] == lines + ["data: " + c, "", ""];
      forall k | 0 <= k < |lines + ["data: " + c, "", ""]|
        ensures Text.NoNewline((lines + ["data: " + c, "", ""])[k])
      {
        if k < |lines| {
          assert (lines + ["data: " + c, "", ""])[k] == (lines + [""])[k];
        }
      }
    }
  }

  /** One more event appends its frame to the joined lines. */
  lemma EventJoined(lines: seq<string>, c: string)
    ensures Text.Join(lines + ["data: " + c, "", ""]) == Text.Join(lines + [""]) + Frame(c)
  {
    var event := ["data: " + c, "", ""];
    assert Text.Join(event) == Frame(c) by {
      assert event[1..] == ["", ""];
      assert ["", ""][1..] == [""];
    }
    if lines == [] {
      assert lines + event == event && lines + [""] == [""];
    } else {
      Text.JoinAppend(lines, event);
      Text.JoinAppend(lines, [""]);
      assert Text.Join([""]) == "";
    }
  }

  /** One more event appends its frame to the stream. */
  lemma FramesAppend(sent: seq<string>, c: string)
    ensures Text.Concat(Frames(sent + [c])) == Text.Concat(Frames(sent)) + Frame(c)
  {
    assert Frames(sent + [c]) == Frames(sent) + [Frame(c)];
    assert (Frames(sent) + [Frame(c)])[..|sent|] == Frames(sent);
  }

  /** The scan of the event lines of the surviving chunks collects exactly their texts, and stops at no
      error, when no chunk carries one. */
  lemma {:induction false} EventLinesScan(parse: Parser, jsString: Json -> string, chunks: seq<string>)
    requires forall j | 0 <= j < |chunks| :: Quiet(parse, chunks[j])
    ensures ScanLines(parse, jsString, EventLines(Accepted(parse, chunks))) == Scan(Text.Concat(Texts(parse, chunks)), None)
  {
    if chunks != [] {
      var init, c := chunks[..|chunks| - 1], chunks[|chunks| - 1];
      var text := ChunkText(parse, c);
      if text.Some? {
        var sent, texts := Accepted(parse, init), Texts(parse, init);
        var lines := EventLines(sent);
        assert EventLines(Accepted(parse, chunks)) == lines + ["data: " + c] + [""] by {
          assert Accepted(parse, chunks) == sent + [c];
          assert (sent + [c])[..|sent|] == sent;
        }
        assert Text.Concat(Texts(parse, chunks)) == Text.Concat(texts) + text.value by {
          assert Texts(parse, chunks) == texts + [text.value];
          assert (texts + [text.value])[..|texts|] == texts;
        }
        assert ScanLines(parse, jsString, lines) == Scan(Text.Concat(texts), None) by {
          EventLinesScan(parse, jsString, init);
        }
        assert ScanLines(parse, jsString, lines + ["data: " + c]) == Scan(Text.Concat(texts) + text.value, None) by {
          ScanStep(parse, jsString, lines, "data: " + c);
          DataLine(parse, jsString, c, ScanLines(parse, jsString, lines));
        }
        ScanStep(parse, jsString, lines + ["data: " + c], "");
      } else {
        assert Accepted(parse, chunks) == Accepted(parse, init);
        assert Texts(parse, chunks) == Texts(parse, init);
        EventLinesScan(parse, jsString, init);
      }
    }
  }

  /** A data line of a surviving quiet chunk appends the chunk's text. */
  lemma DataLine(parse: Parser, jsString: Json -> string, c: string, before: Scan)
    requires ChunkText(parse, c).Some? && Quiet(parse, c) && before.error.None?
    ensures LineStep(before, "data: " + c, parse, jsString) == Scan(before.text + ChunkText(parse, c).value, None)
  {
    var line := "data: " + c;
    assert !Text.IsBlank(line) by {
      assert line[0] == 'd';
    }
    assert Text.StartsWith(line, "data: ");
    assert line[6..] == c;
  }

  /** The end-to-end property of the agent endpoint: when the chunks contain no line feed (as `json.dumps`
      output does not) and carry no error, the store's assistant message is exactly the response text the
      endpoint saves, and no error is recorded. */
  lemma AgentStreamArrives(parse: Parser, jsString: Json -> string, chunks: seq<string>)
    requires forall j | 0 <= j < |chunks| :: Text.NoNewline(chunks[j]) && Quiet(parse, chunks[j])
    ensures StreamScan(parse, jsString, Frames(Accepted(parse, chunks))) == Scan(Text.Concat(Texts(parse, chunks)), None)
  {
    var sent := Accepted(parse, chunks);
    forall j | 0 <= j < |sent|
      ensures Text.NoNewline(sent[j])
    {
      var k :| 0 <= k < |chunks| && chunks[k] == sent[j];
    }
    FramesSplit(sent);
    var lines := EventLines(sent);
    assert CompleteLines(Text.Concat(Frames(sent))) == lines by {
      assert (lines + [""])[..|lines|] == lines;
    }
    EventLinesScan(parse, jsString, chunks);
  }
}
