/** Strings as sequences of characters: substring search, prefixes, and splitting on line feeds. */
module Text {

  /** `sub` occurs somewhere in `s` (Python's `sub in s`). */
  predicate Contains(s: string, sub: string) {
    exists i | 0 <= i <= |s| - |sub| :: OccursAt(s, sub, i)
  }

  /** `sub` occurs in `s` starting at position `i`. */
  predicate OccursAt(s: string, sub: string, i: int)
    requires 0 <= i <= |s| - |sub|
  {
    s[i..i + |sub|] == sub
  }

  /** `s` begins with `prefix` (JavaScript's `s.startsWith(prefix)`). */
  predicate StartsWith(s: string, prefix: string) {
    |prefix| <= |s| && s[..|prefix|] == prefix
  }

  /** A text begins with whatever was put in front of it. */
  lemma StartsWithConcat(prefix: string, rest: string)
    ensures StartsWith(prefix + rest, prefix)
  {
    assert (prefix + rest)[..|prefix|] == prefix;
  }

  lemma ContainsPrefix(s: string, prefix: string)
    requires StartsWith(s, prefix)
    ensures Contains(s, prefix)
  {
    assert OccursAt(s, prefix, 0);
  }

  /** A text lacking the first character of `sub` does not contain `sub`. */
  lemma MissingFirst(s: string, sub: string)
    requires sub != [] && sub[0] !in s
    ensures !Contains(s, sub)
  {
    forall i | 0 <= i <= |s| - |sub|
      ensures !OccursAt(s, sub, i)
    {
      assert s[i..i + |sub|][0] == s[i];
    }
  }

  /** The characters JavaScript's `String.prototype.trim` removes: white space and line terminators. */
  predicate IsJsSpace(c: char) {
    c == ' ' || c == '\t' || c == '\n' || c == '\r' || c == '\U{000B}' || c == '\U{000C}'
    || c == '\U{00A0}' || c == '\U{1680}' || ('\U{2000}' <= c <= '\U{200A}')
    || c == '\U{2028}' || c == '\U{2029}' || c == '\U{202F}' || c == '\U{205F}'
    || c == '\U{3000}' || c == '\U{FEFF}'
  }

  /** `!s.trim()` in JavaScript: the string is empty once surrounding white space is removed. */
  predicate IsBlank(s: string) {
    forall i | 0 <= i < |s| :: IsJsSpace(s[i])
  }

  /** Concatenation of a sequence of strings, in order (Python's `"".join(parts)`). */
  function Concat(parts: seq<string>): string {
    if parts == [] then "" else Concat(parts[..|parts| - 1]) + parts[|parts| - 1]
  }

  lemma {:induction false} ConcatAppend(a: seq<string>, b: seq<string>)
    ensures Concat(a + b) == Concat(a) + Concat(b)
    decreases |b|
  {
    if b == [] {
      assert a + b == a;
    } else {
      var b' := b[..|b| - 1];
      assert (a + b)[..|a + b| - 1] == a + b';
      ConcatAppend(a, b');
    }
  }

  /** No line feed occurs in the string. */
  predicate NoNewline(s: string) {
    '\n' !in s
  }

  /** The parts joined with a line feed between neighbours (JavaScript's `parts.join("\n")`). */
  function Join(parts: seq<string>): string
    requires |parts| >= 1
  {
    if |parts| == 1 then parts[0] else parts[0] + "\n" + Join(parts[1..])
  }

  /** The position of the first line feed. */
  function FirstNewline(s: string): (i: nat)
    requires '\n' in s
    ensures i < |s| && s[i] == '\n' && '\n' !in s[..i]
  {
    if s[0] == '\n' then 0
    else
      assert '\n' in s[1..] by { var k :| 0 <= k < |s| && s[k] == '\n'; assert s[1..][k - 1] == '\n'; }
      var j := FirstNewline(s[1..]);
      assert s[..j + 1] == [s[0]] + s[1..][..j];
      j + 1
  }

  /** JavaScript's `s.split("\n")`: the maximal line-feed-free pieces of `s`, which joined with line feeds
      give `s` back. There is always at least one piece. */
  function Split(s: string): (parts: seq<string>)
    ensures |parts| >= 1
    decreases |s|
  {
    if '\n' !in s then [s]
    else
      var i := FirstNewline(s);
      [s[..i]] + Split(s[i + 1..])
  }

  /** The pieces of a split are line-feed-free and join back to the text. */
  lemma {:induction false} SplitPieces(s: string)
    ensures Join(Split(s)) == s
    ensures forall k | 0 <= k < |Split(s)| :: NoNewline(Split(s)[k])
    decreases |s|
  {
    if '\n' in s {
      var i := FirstNewline(s);
      var rest := Split(s[i + 1..]);
      SplitPieces(s[i + 1..]);
      assert Split(s) == [s[..i]] + rest;
      assert ([s[..i]] + rest)[1..] == rest;
      assert s == s[..i] + "\n" + s[i + 1..];
      forall k | 0 <= k < |Split(s)|
        ensures NoNewline(Split(s)[k])
      {
        if k > 0 {
          assert Split(s)[k] == rest[k - 1];
        }
      }
    }
  }

  /** Splitting undoes joining: line-feed-free pieces are recovered exactly. */
  lemma {:induction false} SplitJoin(parts: seq<string>)
    requires |parts| >= 1
    requires forall k | 0 <= k < |parts| :: NoNewline(parts[k])
    ensures Split(Join(parts)) == parts
  {
    if |parts| > 1 {
      var p, s := parts[0], Join(parts);
      var rest := Join(parts[1..]);
      assert s == p + "\n" + rest;
      assert s[|p|] == '\n';
      var i := FirstNewline(s);
      assert i == |p|;
      assert s[..i] == p;
      assert s[i + 1..] == rest;
      SplitJoin(parts[1..]);
    }
  }

  lemma {:induction false} JoinAppend(a: seq<string>, b: seq<string>)
    requires |a| >= 1 && |b| >= 1
    ensures Join(a + b) == Join(a) + "\n" + Join(b)
    decreases |a|
  {
    if |a| > 1 {
      assert (a + b)[1..] == a[1..] + b;
      JoinAppend(a[1..], b);
    } else {
      assert (a + b)[1..] == b;
    }
  }

  /** Splitting a longer text: the pieces of `a` except its last one are final, and the last piece of `a`
      continues with `b`. This is what lets a reader split a stream chunk by chunk. */
  lemma {:induction false} SplitExtend(a: string, b: string)
    ensures Split(a + b) == Split(a)[..|Split(a)| - 1] + Split(Split(a)[|Split(a)| - 1] + b)
  {
    var pa := Split(a);
    var init, last := pa[..|pa| - 1], pa[|pa| - 1];
    var tail := Split(last + b);
    SplitPieces(a);
    SplitPieces(last + b);
    if init == [] {
      assert a == last by {
        assert pa == [last];
        assert Join(pa) == a;
      }
      assert init + tail == tail;
    } else {
      assert pa == init + [last];
      Regrouped(a, b, init, last, tail);
      SplitJoin(init + tail);
    }
  }

  /** The pieces of `a` but the last, followed by the pieces of the last one continued with `b`, are
      line-feed-free pieces of `a + b`. */
  lemma Regrouped(a: string, b: string, init: seq<string>, last: string, tail: seq<string>)
    requires |init| >= 1 && Join(init + [last]) == a && forall k | 0 <= k < |init + [last]| :: NoNewline((init + [last])[k])
    requires |tail| >= 1 && Join(tail) == last + b && forall k | 0 <= k < |tail| :: NoNewline(tail[k])
    ensures Join(init + tail) == a + b
    ensures forall k | 0 <= k < |init + tail| :: NoNewline((init + tail)[k])
  {
    JoinContinued(init, last, tail, b);
    PiecesFree(init + [last], init, last, tail);
  }

  /** Joining the complete pieces of a text with the pieces of its continued last piece gives the continued text. */
  lemma JoinContinued(init: seq<string>, last: string, tail: seq<string>, b: string)
    requires |init| >= 1 && |tail| >= 1
    requires Join(tail) == last + b
    ensures Join(init + tail) == Join(init + [last]) + b
  {
    JoinAppend(init, [last]);
    JoinAppend(init, tail);
    assert Join([last]) == last;
    Associative(Join(init) + "\n", last, b);
  }

  /** Concatenation is associative. */
  lemma Associative<T>(x: seq<T>, y: seq<T>, z: seq<T>)
    ensures x + (y + z) == x + y + z
  {
  }

  /** Line-feed-free pieces stay line-feed-free when regrouped. */
  lemma PiecesFree(pa: seq<string>, init: seq<string>, last: string, tail: seq<string>)
    requires pa == init + [last]
    requires forall k | 0 <= k < |pa| :: NoNewline(pa[k])
    requires forall k | 0 <= k < |tail| :: NoNewline(tail[k])
    ensures forall k | 0 <= k < |init + tail| :: NoNewline((init + tail)[k])
  {
    forall k | 0 <= k < |init + tail| ensures NoNewline((init + tail)[k]) {
      if k < |init| { assert (init + tail)[k] == pa[k]; } else { assert (init + tail)[k] == tail[k - |init|]; }
    }
  }
}
