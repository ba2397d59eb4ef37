/** Writing payloads as events and parsing them back (the wire form is the one
    of tools/mock_vllm/mock_vllm_server.py: "data: " lines and a blank line). */
module SseRoundTrip {
  import opened SseParsing
  import opened SseChunks

  // ----- writing -------------------------------------------------------------

  /** The LF-separated lines of a payload; there is always at least one. */
  function SplitLf(payload: string): (lines: seq<string>)
    ensures lines != []
    ensures forall k | 0 <= k < |lines| :: '\n' !in lines[k]
    decreases |payload|
  {
    var i := FindLf(payload);
    if i == |payload| then [payload] else [payload[..i]] + SplitLf(payload[i + 1..])
  }

  function JoinLf(lines: seq<string>): string
    requires lines != []
  {
    if |lines| == 1 then lines[0] else lines[0] + "\n" + JoinLf(lines[1..])
  }

  function EncodeLines(lines: seq<string>): string {
    if lines == [] then "" else DATA_PREFIX + " " + lines[0] + "\n" + EncodeLines(lines[1..])
  }

  function Encode(payloads: seq<string>): string {
    if payloads == [] then ""
    else EncodeLines(SplitLf(payloads[0])) + "\n" + Encode(payloads[1..])
  }

  // ----- what comes back -----------------------------------------------------

  function CleanLines(lines: seq<string>): (clean: seq<string>)
    ensures |clean| == |lines|
    ensures forall k | 0 <= k < |lines| :: clean[k] == DropTrailingCr(lines[k])
  {
    seq(|lines|, k requires 0 <= k < |lines| => DropTrailingCr(lines[k]))
  }

  /** The payload the parser sees: a CR before a line end counts as part of it. */
  function Clean(payload: string): string {
    JoinLf(CleanLines(SplitLf(payload)))
  }

  predicate EndsInCr(line: string) {
    line != "" && line[|line| - 1] == '\r'
  }

  predicate NoLineEndsInCr(payload: string) {
    forall line | line in SplitLf(payload) :: !EndsInCr(line)
  }

  lemma {:induction false} JoinSplit(payload: string)
    ensures JoinLf(SplitLf(payload)) == payload
    decreases |payload|
  {
    var i := FindLf(payload);
    if i < |payload| {
      JoinSplit(payload[i + 1..]);
      var rest := SplitLf(payload[i + 1..]);
      assert ([payload[..i]] + rest)[1..] == rest;
      assert payload == payload[..i] + "\n" + payload[i + 1..];
    }
  }

  lemma {:induction false} CleanShrinks(lines: seq<string>)
    requires lines != []
    ensures |JoinLf(CleanLines(lines))| <= |JoinLf(lines)|
    ensures (exists k | 0 <= k < |lines| :: EndsInCr(lines[k])) ==>
      |JoinLf(CleanLines(lines))| < |JoinLf(lines)|
    decreases |lines|
  {
    if |lines| > 1 {
      CleanShrinks(lines[1..]);
      assert CleanLines(lines)[1..] == CleanLines(lines[1..]);
      if k :| 0 <= k < |lines| && EndsInCr(lines[k]) && k > 0 {
        assert EndsInCr(lines[1..][k - 1]);
      }
    }
  }

  /** A payload comes back unchanged exactly when none of its lines ends in CR. */
  lemma CleanIsIdentity(payload: string)
    ensures Clean(payload) == payload <==> NoLineEndsInCr(payload)
  {
    var lines := SplitLf(payload);
    JoinSplit(payload);
    if NoLineEndsInCr(payload) {
      assert forall k | 0 <= k < |lines| :: lines[k] in lines && CleanLines(lines)[k] == lines[k];
      assert CleanLines(lines) == lines;
    } else {
      CleanShrinks(lines);
      var line :| line in lines && EndsInCr(line);
    }
  }

  // ----- reading it back -----------------------------------------------------

  /** The data of a pending event after more lines. */
  function JoinAll(p: Pending, lines: seq<string>): Pending
    decreases |lines|
  {
    if lines == [] then p else JoinAll(Join(p, lines[0]), lines[1..])
  }

  lemma {:induction false} JoinAllIsJoinLf(p: Pending, lines: seq<string>)
    requires lines != []
    ensures JoinAll(p, lines) == Join(p, JoinLf(lines))
    decreases |lines|
  {
    if |lines| == 1 {
      assert JoinAll(Join(p, lines[0]), []) == Join(p, lines[0]);
    } else {
      var rest := JoinLf(lines[1..]);
      JoinAllIsJoinLf(Join(p, lines[0]), lines[1..]);
      var head := if p.hasData then p.data + "\n" else p.data;
      assert (head + lines[0]) + "\n" + rest == head + (lines[0] + "\n" + rest);
    }
  }

  /** One encoded line is one data line with the payload line as its value. */
  lemma EncodedLine(p: Pending, line: string, tail: string, max: nat)
    requires '\n' !in line
    ensures var joined := Join(p, DropTrailingCr(line));
      Scan(p, DATA_PREFIX + " " + line + "\n" + tail, max) ==
        if |joined.data| > max then Overflow else Scan(joined, tail, max)
  {
    hide DropTrailingCr;
    var raw := DATA_PREFIX + " " + line;
    assert forall k | 0 <= k < |raw| :: raw[k] != '\n' by {
      assert forall k | 0 <= k < |line| :: line[k] in line;
    }
    UpToLf(raw, tail);
    DropCrBehindPrefix(line);
    var seen := DATA_PREFIX + " " + DropTrailingCr(line);
    assert seen[|DATA_PREFIX|..] == " " + DropTrailingCr(line);
    assert DataValue(seen) == DropTrailingCr(line);
    var joined := Join(p, DropTrailingCr(line));
    if |joined.data| <= max {
      NothingBefore(Scan(joined, tail, max));
    }
  }

  lemma UpToLf(raw: string, tail: string)
    requires forall k | 0 <= k < |raw| :: raw[k] != '\n'
    ensures var text := raw + "\n" + tail;
      FindLf(text) == |raw| < |text| && text[..|raw|] == raw && text[|raw| + 1..] == tail
  {
    var text := raw + "\n" + tail;
    assert text[|raw|] == '\n' && forall k | 0 <= k < |raw| :: text[k] == raw[k];
  }

  lemma DropCrBehindPrefix(line: string)
    ensures DropTrailingCr(DATA_PREFIX + " " + line) == DATA_PREFIX + " " + DropTrailingCr(line)
  {
    var raw := DATA_PREFIX + " " + line;
    if EndsInCr(line) {
      assert raw[..|raw| - 1] == DATA_PREFIX + " " + line[..|line| - 1];
    }
  }

  lemma {:induction false} EncodedLines(p: Pending, lines: seq<string>, tail: string, max: nat)
    requires forall k | 0 <= k < |lines| :: '\n' !in lines[k]
    requires |p.data| <= max
    ensures var joined := JoinAll(p, CleanLines(lines));
      Scan(p, EncodeLines(lines) + tail, max) ==
        if |joined.data| > max then Overflow else Scan(joined, tail, max)
    decreases |lines|
  {
    hide Scan;
    if lines == [] {
      assert EncodeLines(lines) + tail == tail;
    } else {
      var first, rest := lines[0], lines[1..];
      assert EncodeLines(lines) + tail == DATA_PREFIX + " " + first + "\n" + (EncodeLines(rest) + tail);
      EncodedLine(p, first, EncodeLines(rest) + tail, max);
      assert CleanLines(lines)[1..] == CleanLines(rest);
      var q := Join(p, DropTrailingCr(first));
      if |q.data| <= max {
        EncodedLines(q, rest, tail, max);
      } else {
        JoinAllGrows(q, CleanLines(rest));
      }
    }
  }

  lemma {:induction false} JoinAllGrows(p: Pending, lines: seq<string>)
    ensures |JoinAll(p, lines).data| >= |p.data|
    decreases |lines|
  {
    if lines != [] {
      JoinAllGrows(Join(p, lines[0]), lines[1..]);
    }
  }

  /** One encoded payload is one event, provided its data fits the limit. */
  lemma EncodedEvent(payload: string, tail: string, max: nat)
    ensures Scan(EMPTY_PENDING, EncodeLines(SplitLf(payload)) + "\n" + tail, max) ==
      if |Clean(payload)| > max then Overflow
      else Prepend([MakeEvent(Clean(payload))], Scan(EMPTY_PENDING, tail, max))
  {
    var lines := SplitLf(payload);
    EncodedLines(EMPTY_PENDING, lines, "\n" + tail, max);
    assert EncodeLines(lines) + "\n" + tail == EncodeLines(lines) + ("\n" + tail);
    JoinAllIsJoinLf(EMPTY_PENDING, CleanLines(lines));
    assert "" + Clean(payload) == Clean(payload);
    BlankLine(Pending(Clean(payload), true), tail, max);
  }

  lemma BlankLine(p: Pending, tail: string, max: nat)
    requires p.hasData
    ensures Scan(p, "\n" + tail, max) == Prepend([MakeEvent(p.data)], Scan(EMPTY_PENDING, tail, max))
  {
    var text := "\n" + tail;
    assert text[0] == '\n' && FindLf(text) == 0;
    assert text[..0] == "" && text[1..] == tail;
  }

  predicate AllFit(payloads: seq<string>, max: nat) {
    forall k | 0 <= k < |payloads| :: |Clean(payloads[k])| <= max
  }

  /** The events of a list of payloads as they come back. */
  function EventsOf(payloads: seq<string>): seq<Event> {
    seq(|payloads|, k requires 0 <= k < |payloads| => MakeEvent(Clean(payloads[k])))
  }

  lemma FirstOfEvents(first: string, rest: seq<string>, max: nat)
    ensures EventsOf([first] + rest) == [MakeEvent(Clean(first))] + EventsOf(rest)
    ensures AllFit([first] + rest, max) <==> |Clean(first)| <= max && AllFit(rest, max)
  {
    hide Clean, MakeEvent;
    var all := [first] + rest;
    assert all[0] == first && forall k | 0 <= k < |rest| :: all[k + 1] == rest[k];
  }

  /** The encoded stream, scanned in one go: it is accepted exactly when every
      payload fits, and leaves nothing behind. */
  lemma {:induction false} ScanEncoded(payloads: seq<string>, max: nat)
    ensures Scan(EMPTY_PENDING, Encode(payloads), max) ==
      if AllFit(payloads, max) then Parsed(EMPTY_PARSER, EventsOf(payloads)) else Overflow
    decreases |payloads|
  {
    hide Clean, AllFit, EventsOf, EncodeLines, ProcessLine, SplitLf, MakeEvent;
    if payloads == [] {
      EmptyStream(max);
    } else {
      var first, rest := payloads[0], payloads[1..];
      EncodedEvent(first, Encode(rest), max);
      ScanEncoded(rest, max);
      assert payloads == [first] + rest;
      FirstOfEvents(first, rest, max);
    }
  }

  lemma EmptyStream(max: nat)
    ensures AllFit([], max) && Scan(EMPTY_PENDING, "", max) == Parsed(EMPTY_PARSER, EventsOf([]))
  {
    assert FindLf("") == 0;
  }

  /** The round trip under every chunking that fits the limits: exactly the
      payloads come back, each as one event and marked done exactly when it is
      "[DONE]", if and only if no line of a payload ends in CR; and the parser is
      left as new. */
  lemma RoundTrip(payloads: seq<string>, chunks: seq<string>, max: nat)
    requires Flatten(chunks) == Encode(payloads)
    requires FeedAll(EMPTY_PARSER, chunks, max).Parsed?
    ensures var o := FeedAll(EMPTY_PARSER, chunks, max);
      && o.parser == EMPTY_PARSER
      && |o.events| == |payloads|
      && (forall k | 0 <= k < |payloads| :: o.events[k].isDone <==> o.events[k].data == "[DONE]")
      && (forall k | 0 <= k < |payloads| ::
            o.events[k].data == payloads[k] <==> NoLineEndsInCr(payloads[k]))
  {
    hide Scan, Clean, FeedAll, Encode;
    DoneMeansDone(EMPTY_PARSER, chunks, max);
    AnyChunking(EMPTY_PARSER, chunks, max);
    assert EMPTY_PARSER.buffer + Flatten(chunks) == Encode(payloads);
    ScanEncoded(payloads, max);
    forall k | 0 <= k < |payloads|
      ensures Clean(payloads[k]) == payloads[k] <==> NoLineEndsInCr(payloads[k])
    {
      CleanIsIdentity(payloads[k]);
    }
  }

  /** When does a chunking fit?  In particular, one chunk per payload always does
      if the limit covers the longest encoded payload. */
  lemma {:induction false} OneChunkPerPayloadFits(payloads: seq<string>, max: nat)
    requires forall k | 0 <= k < |payloads| :: |Encode([payloads[k]])| <= max
    ensures var chunks := seq(|payloads|, k requires 0 <= k < |payloads| => Encode([payloads[k]]));
      Flatten(chunks) == Encode(payloads) && FeedAll(EMPTY_PARSER, chunks, max).Parsed?
    decreases |payloads|
  {
    hide Scan, Clean;
    var chunks := seq(|payloads|, k requires 0 <= k < |payloads| => Encode([payloads[k]]));
    if payloads != [] {
      var first, rest := payloads[0], payloads[1..];
      OneChunkPerPayloadFits(rest, max);
      assert chunks[1..] == seq(|rest|, k requires 0 <= k < |rest| => Encode([rest[k]]));
      assert [first][1..] == [];
      assert Encode([first]) == EncodeLines(SplitLf(first)) + "\n" + "";
      assert EncodeLines(SplitLf(first)) + "\n" + "" == EncodeLines(SplitLf(first)) + "\n";
      ScanFits(EMPTY_PENDING, Encode([first]), max);
      ScanEncoded([first], max);
      assert EMPTY_PARSER.buffer + chunks[0] == chunks[0];
    }
  }
}
