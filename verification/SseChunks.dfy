/** How the result of feeding a stream depends on where the network cut it
    (controller/src/sse_parser.cpp, `feed`). */
module SseChunks {
  import opened SseParsing

  function Flatten(chunks: seq<string>): string {
    if chunks == [] then "" else chunks[0] + Flatten(chunks[1..])
  }

  /** Feeds the chunks one after another; a length error ends the stream. */
  function FeedAll(s: Parser, chunks: seq<string>, max: nat): Outcome
    decreases |chunks|
  {
    if chunks == [] then Parsed(s, []) else
      match FeedChunk(s, chunks[0], max)
      case Overflow => Overflow
      case Parsed(t, events) => Prepend(events, FeedAll(t, chunks[1..], max))
  }

  /** Sequential composition: the second text continues where the first stopped. */
  function Then(o: Outcome, text: string, max: nat): Outcome {
    match o
    case Overflow => Overflow
    case Parsed(s, events) => Prepend(events, Drain(s, text, max))
  }

  /** Scanning a+b is scanning a, then b from the state a left: the cut may fall
      anywhere, inside a CRLF or inside the word "data:". */
  lemma {:induction false} ScanCut(p: Pending, a: string, b: string, max: nat)
    ensures Scan(p, a + b, max) == Then(Scan(p, a, max), b, max)
    decreases |a|
  {
    hide ProcessLine, DropTrailingCr, FindLf;
    var i := FindLf(a);
    if i == |a| {
      assert Prepend([], Scan(p, a + b, max)) == Scan(p, a + b, max) by {
        NothingBefore(Scan(p, a + b, max));
      }
    } else {
      FirstLf(a, b);
      var rest := a[i + 1..];
      assert (a + b)[..i] == a[..i] && (a + b)[i + 1..] == rest + b;
      match ProcessLine(p, DropTrailingCr(a[..i]), max)
      case None =>
      case Some((q, events)) =>
        ScanCut(q, rest, b, max);
        ThenAfter(events, Scan(q, rest, max), b, max);
    }
  }

  lemma NothingBefore(o: Outcome)
    ensures Prepend([], o) == o
  {
    if o.Parsed? {
      assert [] + o.events == o.events;
    }
  }

  lemma FirstLf(a: string, b: string)
    requires FindLf(a) < |a|
    ensures FindLf(a + b) == FindLf(a)
  {
    var i, j := FindLf(a), FindLf(a + b);
    assert (a + b)[i] == '\n';
    assert forall k | 0 <= k < i :: (a + b)[k] == a[k];
  }

  lemma ThenAfter(events: seq<Event>, o: Outcome, text: string, max: nat)
    ensures Then(Prepend(events, o), text, max) == Prepend(events, Then(o, text, max))
  {
    if o.Parsed? {
      PrependTwice(events, o.events, Drain(o.parser, text, max));
    }
  }

  /** The exact effect of cutting one feed in two: a+b is accepted if and only if
      both halves are and the whole still fits beside what was buffered; then the
      events and the final state are the same. */
  lemma ChunkIndependence(s: Parser, a: string, b: string, max: nat)
    requires Live(s, max)
    ensures FeedChunk(s, a + b, max).Parsed? <==>
      FeedAll(s, [a, b], max).Parsed? && BufferFits(s, a + b, max)
    ensures FeedChunk(s, a + b, max).Parsed? ==>
      FeedChunk(s, a + b, max) == FeedAll(s, [a, b], max)
  {
    hide Scan, ProcessLine;
    TwoFeeds(s, a, b, max);
    ScanCut(s.pending, s.buffer + a, b, max);
    ScanLive(s.pending, s.buffer + a, max);
    assert s.buffer + (a + b) == (s.buffer + a) + b;
  }

  lemma TwoFeeds(s: Parser, a: string, b: string, max: nat)
    ensures FeedAll(s, [a, b], max) == match FeedChunk(s, a, max)
      case Overflow => Overflow
      case Parsed(t, events) => Prepend(events, FeedChunk(t, b, max))
  {
    assert [a, b][1..] == [b] && [b][1..] == [];
    if FeedChunk(s, a, max).Parsed? {
      OneFeed(FeedChunk(s, a, max).parser, b, max);
    }
  }

  lemma OneFeed(s: Parser, a: string, max: nat)
    ensures FeedAll(s, [a], max) == FeedChunk(s, a, max)
  {
    var o := FeedChunk(s, a, max);
    if o.Parsed? {
      assert [a][1..] == [];
      assert o.events + [] == o.events;
    }
  }

  /** Cutting does matter for the buffer limit: these two halves are accepted,
      the same bytes in one chunk are not. */
  lemma CuttingCanHelp()
    ensures FeedAll(EMPTY_PARSER, [":a\n", ":b\n"], 4).Parsed?
    ensures FeedChunk(EMPTY_PARSER, ":a\n" + ":b\n", 4).Overflow?
  {
    TwoFeeds(EMPTY_PARSER, ":a\n", ":b\n", 4);
    CommentLine(":a\n", 4);
    CommentLine(":b\n", 4);
  }

  lemma CommentLine(text: string, max: nat)
    requires |text| == 3 <= max && text[0] == ':' && text[1] != '\n' && text[1] != '\r' && text[2] == '\n'
    ensures FeedChunk(EMPTY_PARSER, text, max) == Parsed(EMPTY_PARSER, [])
  {
    assert EMPTY_PARSER.buffer + text == text;
    assert FindLf(text) == 2;
    assert DropTrailingCr(text[..2]) == text[..2];
    assert ProcessLine(EMPTY_PENDING, text[..2], max) == Some((EMPTY_PENDING, []));
    assert text[3..] == "";
    assert Scan(EMPTY_PENDING, text, max) == Prepend([], Scan(EMPTY_PENDING, "", max));
  }

  lemma DrainNothing(s: Parser, max: nat)
    requires '\n' !in s.buffer
    ensures Drain(s, "", max) == Parsed(s, [])
  {
    assert s.buffer + "" == s.buffer;
    assert FindLf(s.buffer) == |s.buffer|;
  }

  /** Any chunking that fits the limits computes the one-shot scan of the stream. */
  lemma {:induction false} AnyChunking(s: Parser, chunks: seq<string>, max: nat)
    requires FeedAll(s, chunks, max).Parsed?
    requires '\n' !in s.buffer
    ensures FeedAll(s, chunks, max) == Drain(s, Flatten(chunks), max)
    decreases |chunks|
  {
    hide Scan, ProcessLine;
    if chunks == [] {
      DrainNothing(s, max);
    } else {
      var a, b := chunks[0], Flatten(chunks[1..]);
      var o := FeedChunk(s, a, max);
      LeftoverHasNoLf(s.pending, s.buffer + a, max);
      AnyChunking(o.parser, chunks[1..], max);
      ScanCut(s.pending, s.buffer + a, b, max);
      assert s.buffer + (a + b) == (s.buffer + a) + b;
    }
  }

  lemma {:induction false} LeftoverHasNoLf(p: Pending, text: string, max: nat)
    ensures var o := Scan(p, text, max); o.Parsed? ==> '\n' !in o.parser.buffer
    decreases |text|
  {
    var i := FindLf(text);
    if i < |text| {
      match ProcessLine(p, DropTrailingCr(text[..i]), max)
      case None =>
      case Some((q, events)) => LeftoverHasNoLf(q, text[i + 1..], max);
    }
  }

  // ----- the end marker ------------------------------------------------------

  predicate MarkedDone(events: seq<Event>) {
    forall k | 0 <= k < |events| :: events[k].isDone <==> events[k].data == "[DONE]"
  }

  lemma {:induction false} ScanMarksDone(p: Pending, text: string, max: nat)
    ensures Scan(p, text, max).Parsed? ==> MarkedDone(Scan(p, text, max).events)
    decreases |text|
  {
    hide FindLf, DropTrailingCr, IsDataLine, Join;
    var i := FindLf(text);
    if i < |text| {
      var line := ProcessLine(p, DropTrailingCr(text[..i]), max);
      if line.Some? {
        ScanMarksDone(line.value.0, text[i + 1..], max);
      }
    }
  }

  /** From any parser state, over any chunks: the events marked done are exactly
      those whose data is "[DONE]". */
  lemma {:induction false} DoneMeansDone(s: Parser, chunks: seq<string>, max: nat)
    requires FeedAll(s, chunks, max).Parsed?
    ensures forall k | 0 <= k < |FeedAll(s, chunks, max).events| ::
      var event := FeedAll(s, chunks, max).events[k];
      event.isDone <==> event.data == "[DONE]"
    decreases |chunks|
  {
    if chunks != [] {
      ScanMarksDone(s.pending, s.buffer + chunks[0], max);
      DoneMeansDone(FeedChunk(s, chunks[0], max).parser, chunks[1..], max);
    }
  }

  /** Two chunkings of one stream that both fit agree on every event and on the
      state they leave, so later input is treated alike too. */
  lemma ChunkingsAgree(s: Parser, one: seq<string>, two: seq<string>, max: nat)
    requires '\n' !in s.buffer && Flatten(one) == Flatten(two)
    requires FeedAll(s, one, max).Parsed? && FeedAll(s, two, max).Parsed?
    ensures FeedAll(s, one, max) == FeedAll(s, two, max)
  {
    AnyChunking(s, one, max);
    AnyChunking(s, two, max);
  }

  /** If the stream is accepted in one feed then every chunking of it is. */
  lemma {:induction false} OneFeedImpliesAll(s: Parser, chunks: seq<string>, max: nat)
    requires Live(s, max) && FeedChunk(s, Flatten(chunks), max).Parsed?
    ensures FeedAll(s, chunks, max) == FeedChunk(s, Flatten(chunks), max)
    decreases |chunks|
  {
    hide Scan, ProcessLine;
    if chunks == [] {
      DrainNothing(s, max);
    } else {
      var a, b := chunks[0], Flatten(chunks[1..]);
      ChunkIndependence(s, a, b, max);
      TwoFeeds(s, a, b, max);
      FeedKeepsLive(s, a, max);
      OneFeedImpliesAll(FeedChunk(s, a, max).parser, chunks[1..], max);
    }
  }
}
