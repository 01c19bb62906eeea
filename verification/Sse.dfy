/** Server-sent event framing: what the service writes, and what a browser reads by
    section 9.2.6 of the WHATWG HTML Standard, one character at a time. */
module Sse {
  // ---------- writing ----------

  /** `writeSSEFrame`. */
  function Frame(payload: string): string {
    "data: " + (payload + "\n\n")
  }

  function Frames(payloads: seq<string>): string {
    if payloads == [] then "" else Frame(payloads[0]) + Frames(payloads[1..])
  }

  predicate IsBreak(c: char) { c == '\n' || c == '\r' }

  predicate OneLine(s: string) {
    forall i :: 0 <= i < |s| ==> !IsBreak(s[i])
  }

  // ---------- reading ----------

  datatype Message = Message(kind: string, data: string, lastId: string)

  /** `line` is the unfinished line; `afterCR` is set while a line feed would belong to the
      carriage return before it. */
  datatype Stream = Stream(
    messages: seq<Message>, data: string, kind: string, lastId: string, line: string, afterCR: bool)

  const INITIAL := Stream([], "", "", "", "", false)

  function ColonAt(s: string): (n: nat)
    ensures n <= |s| && (n < |s| ==> s[n] == ':')
    ensures forall i :: 0 <= i < n ==> s[i] != ':'
  {
    if s == "" || s[0] == ':' then 0 else 1 + ColonAt(s[1..])
  }

  function FieldValue(s: string): (v: string)
    ensures |v| <= |s|
  {
    if s != "" && s[0] == ' ' then s[1..] else s
  }

  /** A finished line: blank dispatches, a leading colon is a comment, the rest are fields. */
  function EndLine(st: Stream): Stream {
    if st.line == "" then Dispatch(st) else FieldLine(st.(line := ""), st.line)
  }

  function FieldLine(st: Stream, line: string): Stream {
    var n := ColonAt(line);
    if n == 0 then st
    else if n == |line| then Field(st, line, "")
    else Field(st, line[..n], FieldValue(line[n + 1..]))
  }

  function Field(st: Stream, name: string, value: string): Stream {
    if name == "data" then st.(data := st.data + value + "\n")
    else if name == "event" then st.(kind := value)
    else if name == "id" && '\0' !in value then st.(lastId := value)
    else st
  }

  function Dispatch(st: Stream): Stream {
    if st.data == "" then st.(kind := "")
    else
      var message := Message(if st.kind == "" then "message" else st.kind, st.data[..|st.data| - 1], st.lastId);
      st.(messages := st.messages + [message], data := "", kind := "")
  }

  function Feed1(st: Stream, c: char): Stream {
    if c == '\n' && st.afterCR then st.(afterCR := false)
    else if IsBreak(c) then EndLine(st).(afterCR := c == '\r')
    else st.(line := st.line + [c], afterCR := false)
  }

  function Feed(st: Stream, text: string): Stream
    decreases |text|
  {
    if text == "" then st else Feed(Feed1(st, text[0]), text[1..])
  }

  /** A byte order mark is dropped; what the stream left unfinished is discarded. */
  function Read(text: string): seq<Message> {
    if text != "" && text[0] == '\U{FEFF}' then Feed(INITIAL, text[1..]).messages
    else Feed(INITIAL, text).messages
  }

  /** One plain message for each payload. */
  function MessagesOf(payloads: seq<string>): seq<Message> {
    seq(|payloads|, i requires 0 <= i < |payloads| => Message("message", payloads[i], ""))
  }

  // ---------- proofs ----------

  lemma {:induction false} FeedAppend(st: Stream, a: string, b: string)
    ensures Feed(st, a + b) == Feed(Feed(st, a), b)
    decreases |a|
  {
    if a == "" {
      assert a + b == b;
    } else {
      assert (a + b)[1..] == a[1..] + b;
      FeedAppend(Feed1(st, a[0]), a[1..], b);
    }
  }

  lemma {:induction false} FeedOneLine(st: Stream, s: string)
    requires OneLine(s) && s != ""
    ensures Feed(st, s) == st.(line := st.line + s, afterCR := false)
    decreases |s|
  {
    var next := Feed1(st, s[0]);
    assert next == st.(line := st.line + [s[0]], afterCR := false);
    if |s| > 1 {
      FeedOneLine(next, s[1..]);
      assert st.line + [s[0]] + s[1..] == st.line + s;
    } else {
      assert s == [s[0]];
    }
  }

  /** Between frames nothing is pending. */
  predicate AtRest(st: Stream) {
    st.data == "" && st.kind == "" && st.line == ""
  }

  lemma DataLine(st: Stream, s: string)
    requires st.line == ""
    ensures EndLine(st.(line := "data: " + s)) == st.(data := st.data + s + "\n", line := "")
  {
    var line := "data: " + s;
    assert line[4] == ':' && line[0] == 'd' && line[1] == 'a' && line[2] == 't' && line[3] == 'a';
    assert ColonAt(line) == 4;
    assert line[..4] == "data";
    assert line[5..] == " " + s && (" " + s)[1..] == s;
  }

  lemma FeedOne(st: Stream, c: char)
    ensures Feed(st, [c]) == Feed1(st, c)
  {
    assert [c][1..] == "";
  }

  lemma FeedLabel(st: Stream, s: string)
    requires st.line == "" && OneLine(s)
    ensures Feed(st, "data: " + s) == st.(line := "data: " + s, afterCR := false)
  {
    assert OneLine("data: ");
    FeedOneLine(st, "data: " + s);
    assert "" + ("data: " + s) == "data: " + s;
  }

  /** "data: ", a first line, and the break that ends it. */
  lemma FeedDataLine(st: Stream, s: string, c: char)
    requires AtRest(st) && OneLine(s) && IsBreak(c)
    ensures Feed(st, "data: " + s + [c]) == st.(data := s + "\n", afterCR := c == '\r')
  {
    FeedAppend(st, "data: " + s, [c]);
    FeedLabel(st, s);
    FeedOne(Feed(st, "data: " + s), c);
    DataLine(st.(afterCR := false), s);
    assert "" + s + "\n" == s + "\n";
  }

  lemma FrameIsOneMessage(st: Stream, payload: string)
    requires AtRest(st) && OneLine(payload)
    ensures Feed(st, Frame(payload))
         == st.(messages := st.messages + [Message("message", payload, st.lastId)], afterCR := false)
  {
    var line := "data: " + payload + ['\n'];
    assert Frame(payload) == line + ['\n'];
    FeedAppend(st, line, ['\n']);
    FeedDataLine(st, payload, '\n');
    FeedOne(Feed(st, line), '\n');
    assert (payload + "\n")[..|payload|] == payload;
  }

  lemma {:induction false} FramesRoundTrip(st: Stream, payloads: seq<string>)
    requires AtRest(st) && st.lastId == ""
    requires forall i :: 0 <= i < |payloads| ==> OneLine(payloads[i])
    ensures Feed(st, Frames(payloads)).messages == st.messages + MessagesOf(payloads)
    decreases |payloads|
  {
    if payloads == [] {
      assert st.messages + MessagesOf(payloads) == st.messages;
    } else {
      FeedAppend(st, Frame(payloads[0]), Frames(payloads[1..]));
      FrameIsOneMessage(st, payloads[0]);
      FramesRoundTrip(Feed(st, Frame(payloads[0])), payloads[1..]);
      assert [Message("message", payloads[0], "")] + MessagesOf(payloads[1..]) == MessagesOf(payloads);
    }
  }

  // ---------- the condition is needed: a weight that a broken payload loses ----------

  function MessageWeight(messages: seq<Message>): nat {
    if messages == [] then 0
    else MessageWeight(messages[..|messages| - 1]) + |messages[|messages| - 1].data| + 1
  }

  function Weight(st: Stream): nat {
    MessageWeight(st.messages) + |st.data| + |st.line|
  }

  lemma {:induction false} WeightOfFirst(m: Message, ms: seq<Message>)
    ensures MessageWeight([m] + ms) == |m.data| + 1 + MessageWeight(ms)
    decreases |ms|
  {
    if ms == [] {
    } else {
      var last := |ms| - 1;
      WeightOfFirst(m, ms[..last]);
      assert ([m] + ms)[..last + 1] == [m] + ms[..last];
    }
  }

  lemma DispatchKeepsWeight(st: Stream)
    requires st.line == ""
    ensures AtRest(Dispatch(st)) && Weight(Dispatch(st)) == Weight(st)
  {
    if st.data != "" {
      var messages := Dispatch(st).messages;
      assert messages[..|st.messages|] == st.messages;
    }
  }

  lemma FieldLineAddsItsValue(st: Stream, line: string)
    requires line != ""
    ensures var after := FieldLine(st, line);
            after.messages == st.messages && after.line == st.line && |after.data| <= |st.data| + |line|
  {
  }

  lemma EndLineAddsNoWeight(st: Stream)
    ensures Weight(EndLine(st)) <= Weight(st) && EndLine(st).line == ""
    ensures st.line == "" ==> AtRest(EndLine(st))
  {
    if st.line == "" {
      DispatchKeepsWeight(st);
    } else {
      FieldLineAddsItsValue(st.(line := ""), st.line);
    }
  }

  lemma {:induction false} FeedWeight(st: Stream, text: string)
    requires st.afterCR ==> st.line == ""
    ensures Weight(Feed(st, text)) <= Weight(st) + |text|
    ensures Feed(st, text).afterCR ==> Feed(st, text).line == ""
    decreases |text|
  {
    if text == "" {
    } else {
      EndLineAddsNoWeight(st);
      FeedWeight(Feed1(st, text[0]), text[1..]);
    }
  }

  lemma FeedLineFeed(st: Stream)
    requires st.afterCR ==> st.line == ""
    ensures var after := Feed1(st, '\n');
            && !after.afterCR && after.line == "" && Weight(after) <= Weight(st)
            && (!st.afterCR && st.line == "" ==> AtRest(after))
  {
    EndLineAddsNoWeight(st);
  }

  /** However a payload ends, the two line feeds after it leave nothing pending and add
      no weight. */
  lemma FrameEnd(st: Stream)
    requires st.afterCR ==> st.line == ""
    ensures AtRest(Feed(st, ['\n', '\n'])) && Weight(Feed(st, ['\n', '\n'])) <= Weight(st)
  {
    var middle := Feed1(st, '\n');
    assert ['\n', '\n'][1..] == ['\n'];
    FeedOne(middle, '\n');
    FeedLineFeed(st);
    FeedLineFeed(middle);
  }

  lemma FrameInParts(head: string, c: char, tail: string)
    ensures Frame(head + [c] + tail) == ("data: " + head + [c]) + (tail + ['\n', '\n'])
  {
    assert head + [c] + tail + "\n\n" == head + [c] + (tail + ['\n', '\n']);
  }

  lemma FeedThree(st: Stream, a: string, b: string, c: string)
    ensures Feed(st, a + (b + c)) == Feed(Feed(Feed(st, a), b), c)
  {
    FeedAppend(st, a, b + c);
    FeedAppend(Feed(st, a), b, c);
  }

  lemma TailWeight(first: Stream, tail: string)
    requires first.line == ""
    ensures var after := Feed(Feed(first, tail), ['\n', '\n']);
            AtRest(after) && Weight(after) <= Weight(first) + |tail|
  {
    FeedWeight(first, tail);
    FrameEnd(Feed(first, tail));
  }

  /** A payload with a line break loses at least one character on the way. */
  lemma BrokenFrameWeight(st: Stream, head: string, c: char, tail: string)
    requires AtRest(st) && OneLine(head) && IsBreak(c)
    ensures var after := Feed(st, Frame(head + [c] + tail));
            AtRest(after) && Weight(after) <= Weight(st) + |head| + 1 + |tail|
  {
    var start := "data: " + head + [c];
    FrameInParts(head, c, tail);
    FeedThree(st, start, tail, ['\n', '\n']);
    FeedDataLine(st, head, c);
    TailWeight(Feed(st, start), tail);
  }

  function BreakAt(s: string): (n: nat)
    ensures n <= |s| && OneLine(s[..n]) && (n < |s| ==> IsBreak(s[n]))
    ensures n == |s| ==> OneLine(s)
  {
    if s == "" || IsBreak(s[0]) then 0
    else
      var n := BreakAt(s[1..]);
      assert s[..n + 1] == [s[0]] + s[1..][..n];
      n + 1
  }

  lemma FrameWeight(st: Stream, payload: string)
    requires AtRest(st)
    ensures var after := Feed(st, Frame(payload));
            && AtRest(after)
            && Weight(after) <= Weight(st) + |payload| + 1
            && (!OneLine(payload) ==> Weight(after) <= Weight(st) + |payload|)
  {
    if OneLine(payload) {
      FrameIsOneMessage(st, payload);
      var messages := Feed(st, Frame(payload)).messages;
      assert messages[..|st.messages|] == st.messages;
    } else {
      var n := BreakAt(payload);
      assert payload == payload[..n] + [payload[n]] + payload[n + 1..];
      BrokenFrameWeight(st, payload[..n], payload[n], payload[n + 1..]);
    }
  }

  predicate AllOneLine(payloads: seq<string>) {
    forall i :: 0 <= i < |payloads| ==> OneLine(payloads[i])
  }

  lemma {:induction false} FramesWeight(st: Stream, payloads: seq<string>)
    requires AtRest(st)
    ensures var after, needed := Weight(Feed(st, Frames(payloads))), MessageWeight(MessagesOf(payloads));
            && after <= Weight(st) + needed
            && (!AllOneLine(payloads) ==> after < Weight(st) + needed)
    decreases |payloads|
  {
    if payloads == [] {
    } else {
      var p, more := payloads[0], payloads[1..];
      FeedAppend(st, Frame(p), Frames(more));
      FrameWeight(st, p);
      FramesWeight(Feed(st, Frame(p)), more);
      assert MessagesOf(payloads) == [Message("message", p, "")] + MessagesOf(more);
      WeightOfFirst(Message("message", p, ""), MessagesOf(more));
      assert AllOneLine(payloads) <==> OneLine(p) && AllOneLine(more) by {
        assert forall i :: 0 <= i < |more| ==> more[i] == payloads[i + 1];
        assert forall i :: 0 < i < |payloads| ==> payloads[i] == more[i - 1];
      }
    }
  }

  lemma FramesStartWithD(payloads: seq<string>)
    ensures Frames(payloads) != "" ==> Frames(payloads)[0] == 'd'
  {
  }

  /** A browser recovers exactly the payloads just when none of them holds a raw line break. */
  lemma FramingRoundTrip(payloads: seq<string>)
    ensures Read(Frames(payloads)) == MessagesOf(payloads) <==> AllOneLine(payloads)
  {
    FramesStartWithD(payloads);
    FramesWeight(INITIAL, payloads);
    if AllOneLine(payloads) {
      FramesRoundTrip(INITIAL, payloads);
    }
  }
}
