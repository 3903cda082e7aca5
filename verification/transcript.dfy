/** The agent's conversation transcript: the messages sent with every completion request, the token
    estimate and the truncation applied before each request, and the shape every round leaves behind. */
module Transcript {

  /** A tool call as the assistant message records it: the id (or its default), the function name and the
      accumulated argument text. */
  datatype CallRef = CallRef(id: string, name: string, arguments: string)

  /** One message of the transcript, by role. */
  datatype Message =
    | System(content: string)
    | User(content: string)
    | Assistant(content: string, calls: seq<CallRef>)
    | ToolResult(callId: string, name: string, content: string)

  /** The request is cut down when the estimate exceeds this many tokens. */
  const TokenBudget := 45000

  /** The id recorded when a stream reported none. */
  const DefaultCallId := "call_default"

  /** The estimate for one message: a quarter of its content length, rounded down. */
  function Tokens(m: Message): nat {
    |m.content| / 4
  }

  /** The summed content length of the messages. */
  function TotalLength(ms: seq<Message>): nat {
    if ms == [] then 0 else |ms[0].content| + TotalLength(ms[1..])
  }

  /** The summed per-message estimates. */
  function TokenSum(ms: seq<Message>): nat {
    if ms == [] then 0 else Tokens(ms[0]) + TokenSum(ms[1..])
  }

  /** The estimate for the whole transcript: a quarter of the summed length, rounded down once. */
  function Estimate(ms: seq<Message>): nat {
    TotalLength(ms) / 4
  }

  /** What the truncation step keeps: the whole transcript, unless the estimate exceeds the budget and not
      even the newest message fits below it, in which case the first message alone. */
  function Kept(ms: seq<Message>): seq<Message> {
    if Estimate(ms) <= TokenBudget || |ms| <= 1 || Estimate(ms) - Tokens(ms[|ms| - 1]) < TokenBudget then ms else [ms[0]]
  }

  /** The truncation step of every iteration (source lines 216-226). When the estimate exceeds the budget
      the first message is kept and the others are taken back to front, each kept while the running
      estimate minus its own estimate is below the budget; the first one refused ends the scan. Since a
      kept message brings the running estimate below the budget, every older one is kept as well: the
      result is the whole transcript or its first message alone. */
  method Truncate(ms: seq<Message>) returns (kept: seq<Message>)
    ensures kept == ms || (ms != [] && kept == [ms[0]])
    ensures ms != [] ==> |kept| >= 1 && kept[0] == ms[0]
    ensures kept == ms <==>
              Estimate(ms) <= TokenBudget || |ms| <= 1 || Estimate(ms) - Tokens(ms[|ms| - 1]) < TokenBudget
    ensures kept == Kept(ms)
  {
    kept := ms;
    var total: int := Estimate(ms);
    if total > TokenBudget {
      kept := [ms[0]];
      var i := |ms|;
      while i > 1
        invariant 1 <= i <= |ms|
        invariant kept == [ms[0]] + ms[i..]
        invariant total == Estimate(ms) - TokenSum(ms[i..])
        invariant i < |ms| ==> total < TokenBudget
        invariant i < |ms| ==> Estimate(ms) - Tokens(ms[|ms| - 1]) < TokenBudget
      {
        var msgTokens := Tokens(ms[i - 1]);
        if total - msgTokens < TokenBudget {
          TakeStep(ms, i);
          kept := kept[..1] + [ms[i - 1]] + kept[1..];
          total := total - msgTokens;
          i := i - 1;
        } else {
          break;
        }
      }
      if i == 1 {
        assert kept == ms;
      } else {
        assert i == |ms| && ms[i..] == [];
        assert |kept| == 1 < |ms|;
        assert Estimate(ms) - Tokens(ms[|ms| - 1]) >= TokenBudget;
      }
    }
  }

  /** Taking message `i - 1` in front of those taken after the first. */
  lemma TakeStep(ms: seq<Message>, i: nat)
    requires 1 < i <= |ms|
    ensures [ms[0]] + ms[i - 1..] == ([ms[0]] + ms[i..])[..1] + [ms[i - 1]] + ([ms[0]] + ms[i..])[1..]
    ensures TokenSum(ms[i - 1..]) == Tokens(ms[i - 1]) + TokenSum(ms[i..])
    ensures i == |ms| ==> TokenSum(ms[i..]) == 0
  {
    assert ms[i - 1..] == [ms[i - 1]] + ms[i..];
    assert ms[i - 1..][1..] == ms[i..];
  }

  /** The messages are complete rounds: each assistant message is followed by one tool message per call it
      records, in order, answering that call by id and name. */
  predicate Rounds(ms: seq<Message>)
    decreases |ms|
  {
    ms == [] ||
    (ms[0].Assistant? && Answers(ms[0].calls, ms[1..]) && Rounds(ms[1 + |ms[0].calls|..]))
  }

  /** `rest` opens with one answer per call, in order. */
  predicate Answers(calls: seq<CallRef>, rest: seq<Message>) {
    |calls| <= |rest| &&
    forall j | 0 <= j < |calls| :: rest[j] == ToolResult(calls[j].id, calls[j].name, rest[j].content)
  }

  /** One round: the assistant message and its answers. */
  predicate IsRound(r: seq<Message>) {
    |r| >= 1 && r[0].Assistant? && |r| == 1 + |r[0].calls| && Answers(r[0].calls, r[1..])
  }

  /** The transcript the loop maintains: the system prompt, possibly the user's request (truncation may
      drop it), then complete rounds. */
  predicate WellFormed(ms: seq<Message>) {
    |ms| >= 1 && ms[0].System? &&
    (Rounds(ms[1..]) || (|ms| >= 2 && ms[1].User? && Rounds(ms[2..])))
  }

  lemma {:induction false} RoundsAppendRound(ms: seq<Message>, r: seq<Message>)
    requires Rounds(ms) && IsRound(r)
    ensures Rounds(ms + r)
    decreases |ms|
  {
    if ms == [] {
      assert ms + r == r;
      assert r[1 + |r[0].calls|..] == [];
      assert r[1..] == (ms + r)[1..];
    } else {
      var n := 1 + |ms[0].calls|;
      assert (ms + r)[0] == ms[0];
      assert (ms + r)[1..] == ms[1..] + r;
      assert (ms + r)[n..] == ms[n..] + r;
      RoundsAppendRound(ms[n..], r);
    }
  }

  /** Appending a complete round keeps the transcript well formed. */
  lemma WellFormedAppendRound(ms: seq<Message>, r: seq<Message>)
    requires WellFormed(ms) && IsRound(r)
    ensures WellFormed(ms + r)
  {
    assert (ms + r)[0] == ms[0];
    assert (ms + r)[1..] == ms[1..] + r;
    if Rounds(ms[1..]) {
      RoundsAppendRound(ms[1..], r);
    } else {
      assert (ms + r)[1] == ms[1];
      assert (ms + r)[2..] == ms[2..] + r;
      RoundsAppendRound(ms[2..], r);
    }
  }

  /** Truncation keeps the transcript well formed: both of its outcomes are. */
  lemma TruncationKeepsShape(ms: seq<Message>, kept: seq<Message>)
    requires WellFormed(ms)
    requires kept == ms || kept == [ms[0]]
    ensures WellFormed(kept)
  {
    if kept == [ms[0]] {
      assert kept[1..] == [];
    }
  }
}
