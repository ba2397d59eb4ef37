/** What a proxy session makes of the stream it forwards: when the stream is done
    and when its first token arrived (controller/src/proxy_session.cpp,
    `observe_sse_chunk`). */
module SseObserver {
  import opened SseParsing
  import opened SseChunks
  import opened SseRoundTrip

  /** The parser of a session.  A length error is reported once and the caller ends
      the stream, so the state it leaves is never looked at: Broken. */
  datatype Stream = Open(parser: Parser) | Broken

  /** `firstTokens` counts the calls to `record_ttft`. */
  datatype Observer = Observer(stream: Stream, firstDataSeen: bool, firstTokens: nat)

  const NEW_OBSERVER := Observer(Open(EMPTY_PARSER), false, 0)

  predicate HasData(events: seq<Event>) {
    exists k | 0 <= k < |events| :: events[k].data != ""
  }

  predicate HasDone(events: seq<Event>) {
    exists k | 0 <= k < |events| :: events[k].isDone
  }

  /** The observer after one chunk, and whether the chunk ends the stream. */
  function Observe(o: Observer, chunk: string, max: nat): (Observer, bool) {
    match o.stream
    case Broken => (o, true)
    case Open(parser) =>
      match FeedChunk(parser, chunk, max)
      case Overflow => (o.(stream := Broken), true)
      case Parsed(next, events) =>
        var first := HasData(events) && !o.firstDataSeen;
        (Observer(Open(next), o.firstDataSeen || first, o.firstTokens + if first then 1 else 0),
         HasDone(events))
  }

  /** The observer after a list of chunks, and the report made on each of them. */
  function ObserveAll(o: Observer, chunks: seq<string>, max: nat): (r: (Observer, seq<bool>))
    ensures |r.1| == |chunks|
    decreases |chunks|
  {
    if chunks == [] then (o, []) else
      var (next, done) := Observe(o, chunks[0], max);
      var (last, dones) := ObserveAll(next, chunks[1..], max);
      (last, [done] + dones)
  }

  predicate Counted(o: Observer) {
    o.firstTokens == if o.firstDataSeen then 1 else 0
  }

  lemma ObserveKeepsCounted(o: Observer, chunk: string, max: nat)
    requires Counted(o)
    ensures var (next, done) := Observe(o, chunk, max);
      && Counted(next)
      && next.firstTokens - o.firstTokens == (if next.firstDataSeen && !o.firstDataSeen then 1 else 0)
      && (next.stream.Broken? ==> done)
  {}

  lemma HasConcat(a: seq<Event>, b: seq<Event>)
    ensures HasData(a + b) <==> HasData(a) || HasData(b)
    ensures HasDone(a + b) <==> HasDone(a) || HasDone(b)
  {
    var c := a + b;
    assert forall k | 0 <= k < |b| :: c[|a| + k] == b[k];
    assert forall k | 0 <= k < |a| :: c[k] == a[k];
  }

  /** While nothing fails the observer follows the parser: it has reported done
      exactly if a "[DONE]" event was emitted, and has counted a first token
      exactly if some event carried data. */
  lemma {:induction false} ObserveMatches(s: Parser, seen: bool, tokens: nat, chunks: seq<string>, max: nat)
    requires FeedAll(s, chunks, max).Parsed?
    ensures var (o, dones) := ObserveAll(Observer(Open(s), seen, tokens), chunks, max);
      var fed := FeedAll(s, chunks, max);
      var first := HasData(fed.events) && !seen;
      && o == Observer(Open(fed.parser), seen || first, tokens + if first then 1 else 0)
      && |dones| == |chunks|
      && (true in dones <==> HasDone(fed.events))
    decreases |chunks|
  {
    hide FeedChunk, HasData, HasDone;
    if chunks == [] {
      NothingIn();
    } else {
      var fed := FeedChunk(s, chunks[0], max);
      var first := HasData(fed.events) && !seen;
      ObserveMatches(fed.parser, seen || first, tokens + if first then 1 else 0, chunks[1..], max);
      HasConcat(fed.events, FeedAll(fed.parser, chunks[1..], max).events);
    }
  }

  lemma NothingIn()
    ensures !HasData([]) && !HasDone([])
  {}

  lemma {:induction false} PrefixFits(s: Parser, chunks: seq<string>, k: nat, max: nat)
    requires k <= |chunks| && FeedAll(s, chunks, max).Parsed?
    ensures FeedAll(s, chunks[..k], max).Parsed?
    decreases k
  {
    if k > 0 {
      assert chunks[..k][0] == chunks[0] && chunks[..k][1..] == chunks[1..][..k - 1];
      PrefixFits(FeedChunk(s, chunks[0], max).parser, chunks[1..], k - 1, max);
    }
  }

  lemma {:induction false} PrefixReports(o: Observer, chunks: seq<string>, k: nat, max: nat)
    requires k <= |chunks|
    ensures var dones := ObserveAll(o, chunks, max).1;
      |dones| == |chunks| && ObserveAll(o, chunks[..k], max).1 == dones[..k]
    decreases |chunks|
  {
    hide Observe;
    if chunks != [] {
      var (next, done) := Observe(o, chunks[0], max);
      if k > 0 {
        assert chunks[..k][0] == chunks[0] && chunks[..k][1..] == chunks[1..][..k - 1];
        PrefixReports(next, chunks[1..], k - 1, max);
      } else {
        PrefixReports(next, chunks[1..], 0, max);
      }
    }
  }

  /** The events of the bytes of a stream, however they were cut. */
  function EventsOfBytes(bytes: string, max: nat): seq<Event> {
    var o := Scan(EMPTY_PENDING, bytes, max);
    if o.Parsed? then o.events else []
  }

  /** After k chunks that fit the limits: done has been reported if and only if the
      bytes so far contain a complete "[DONE]" event, and the first token has been
      counted, once, if and only if they contain an event with data. */
  lemma ReportedSoFar(chunks: seq<string>, k: nat, max: nat)
    requires k <= |chunks| && FeedAll(EMPTY_PARSER, chunks, max).Parsed?
    ensures true in ObserveAll(NEW_OBSERVER, chunks, max).1[..k]
      <==> HasDone(EventsOfBytes(Flatten(chunks[..k]), max))
    ensures ObserveAll(NEW_OBSERVER, chunks[..k], max).0.firstTokens
      == if HasData(EventsOfBytes(Flatten(chunks[..k]), max)) then 1 else 0
  {
    hide Scan, FeedAll, ObserveAll, HasData, HasDone;
    var prefix := chunks[..k];
    PrefixFits(EMPTY_PARSER, chunks, k, max);
    PrefixReports(NEW_OBSERVER, chunks, k, max);
    ObserveMatches(EMPTY_PARSER, false, 0, prefix, max);
    AnyChunking(EMPTY_PARSER, prefix, max);
    assert EMPTY_PARSER.buffer + Flatten(prefix) == Flatten(prefix);
  }

  /** Done is first reported on the very chunk that completes the first "[DONE]"
      event, and the first token is counted on the chunk that completes the first
      event with data. */
  lemma DetectedInCompletingChunk(chunks: seq<string>, k: nat, max: nat)
    requires k < |chunks| && FeedAll(EMPTY_PARSER, chunks, max).Parsed?
    ensures var dones := ObserveAll(NEW_OBSERVER, chunks, max).1;
      var before, after := Flatten(chunks[..k]), Flatten(chunks[..k + 1]);
      ((dones[k] && true !in dones[..k])
       <==> HasDone(EventsOfBytes(after, max)) && !HasDone(EventsOfBytes(before, max)))
    ensures var before, after := Flatten(chunks[..k]), Flatten(chunks[..k + 1]);
      ObserveAll(NEW_OBSERVER, chunks[..k + 1], max).0.firstTokens
        > ObserveAll(NEW_OBSERVER, chunks[..k], max).0.firstTokens
      <==> HasData(EventsOfBytes(after, max)) && !HasData(EventsOfBytes(before, max))
  {
    hide *;
    var dones := ObserveAll(NEW_OBSERVER, chunks, max).1;
    PrefixReports(NEW_OBSERVER, chunks, k, max);
    ReportedSoFar(chunks, k, max);
    ReportedSoFar(chunks, k + 1, max);
    FirstTokensGrow(chunks, k, max);
    assert dones[..k + 1] == dones[..k] + [dones[k]];
  }

  lemma {:induction false} ObserveAllSnoc(o: Observer, chunks: seq<string>, last: string, max: nat)
    ensures ObserveAll(o, chunks + [last], max).0 == Observe(ObserveAll(o, chunks, max).0, last, max).0
    decreases |chunks|
  {
    hide Observe;
    if chunks == [] {
      assert chunks + [last] == [last] && [last][1..] == [];
    } else {
      assert (chunks + [last])[1..] == chunks[1..] + [last];
      ObserveAllSnoc(Observe(o, chunks[0], max).0, chunks[1..], last, max);
    }
  }

  lemma FirstTokensGrow(chunks: seq<string>, k: nat, max: nat)
    requires k < |chunks|
    ensures ObserveAll(NEW_OBSERVER, chunks[..k + 1], max).0.firstTokens
      >= ObserveAll(NEW_OBSERVER, chunks[..k], max).0.firstTokens
  {
    assert chunks[..k + 1] == chunks[..k] + [chunks[k]];
    ObserveAllSnoc(NEW_OBSERVER, chunks[..k], chunks[k], max);
  }

  // ----- the end of a stream -------------------------------------------------

  /** A length error is reported like an end marker, on some chunk. */
  lemma {:induction false} FailureIsReported(s: Parser, seen: bool, tokens: nat, chunks: seq<string>, max: nat)
    ensures true in ObserveAll(Observer(Open(s), seen, tokens), chunks, max).1
      <==> FeedAll(s, chunks, max).Overflow? || HasDone(FeedAll(s, chunks, max).events)
    decreases |chunks|
  {
    hide HasData, HasDone;
    if chunks == [] {
      NothingIn();
    } else {
      match FeedChunk(s, chunks[0], max)
      case Overflow =>
      case Parsed(next, events) =>
        var first := HasData(events) && !seen;
        FailureIsReported(next, seen || first, tokens + if first then 1 else 0, chunks[1..], max);
        if FeedAll(next, chunks[1..], max).Parsed? {
          HasConcat(events, FeedAll(next, chunks[1..], max).events);
        }
    }
  }

  /** A stream of encoded payloads, under any chunking that fits, is reported done if
      "[DONE]" is one of them, and only then where no payload line ends in CR. */
  lemma EncodedDoneIsReported(payloads: seq<string>, chunks: seq<string>, max: nat)
    requires Flatten(chunks) == Encode(payloads)
    requires FeedAll(EMPTY_PARSER, chunks, max).Parsed?
    ensures var dones := ObserveAll(NEW_OBSERVER, chunks, max).1;
      && ("[DONE]" in payloads ==> true in dones)
      && ((forall k | 0 <= k < |payloads| :: NoLineEndsInCr(payloads[k])) ==>
            (true in dones <==> "[DONE]" in payloads))
  {
    DoneHasNoCr();
    hide NoLineEndsInCr, Encode, FeedAll, ObserveAll;
    ObserveMatches(EMPTY_PARSER, false, 0, chunks, max);
    RoundTrip(payloads, chunks, max);
    var events := FeedAll(EMPTY_PARSER, chunks, max).events;
    if k :| 0 <= k < |payloads| && payloads[k] == "[DONE]" {
      assert events[k].isDone;
    }
  }

  lemma DoneHasNoCr()
    ensures NoLineEndsInCr("[DONE]")
  {
    NoLfNoCr("[DONE]");
  }

  lemma OneLine(line: string)
    requires '\n' !in line
    ensures SplitLf(line) == [line]
  {
    var i := FindLf(line);
    assert i == |line|;
  }

  lemma NoLfNoCr(line: string)
    requires '\n' !in line && !EndsInCr(line)
    ensures NoLineEndsInCr(line)
  {
    OneLine(line);
  }

  /** On any input whatever, broken streams included: at most one first token per
      session. */
  lemma {:induction false} AtMostOneFirstToken(o: Observer, chunks: seq<string>, max: nat)
    requires Counted(o)
    ensures var last := ObserveAll(o, chunks, max).0; Counted(last) && last.firstTokens <= 1
    decreases |chunks|
  {
    hide FeedChunk;
    if chunks != [] {
      ObserveKeepsCounted(o, chunks[0], max);
      AtMostOneFirstToken(Observe(o, chunks[0], max).0, chunks[1..], max);
    }
  }

  // ----- the mutable observer ------------------------------------------------

  /** The part of a session that `observe_sse_chunk` works on. */
  class StreamObserver {
    const sseParser: SseParser
    var broken: bool
    var firstSseDataSeen: bool
    var firstTokens: nat

    constructor (maxBufferSize: nat)
      requires 0 < maxBufferSize < SIZE_BOUND
      ensures Valid() && fresh(sseParser) && View() == NEW_OBSERVER && sseParser.maxBufferSize == maxBufferSize
    {
      sseParser := new SseParser(maxBufferSize);
      broken, firstSseDataSeen, firstTokens := false, false, 0;
    }

    ghost predicate Valid()
      reads this, sseParser
    {
      !broken ==> sseParser.Valid()
    }

    function View(): Observer
      reads this, sseParser
    {
      Observer(if broken then Broken else Open(sseParser.View()), firstSseDataSeen, firstTokens)
    }

    /** Called only while the stream is open: the caller stops at the first done. */
    method ObserveSseChunk(data: string) returns (done: bool)
      requires Valid() && !broken && |data| < SIZE_BOUND
      modifies this, sseParser
      ensures Valid()
      ensures (View(), done) == Observe(old(View()), data, sseParser.maxBufferSize)
    {
      hide SseParsing.FeedChunk;
      done := false;
      var events := sseParser.Feed(data);
      if events == None {
        broken := true;
        return true;
      }
      for i := 0 to |events.value|
        modifies this
        invariant done == HasDone(events.value[..i])
        invariant firstSseDataSeen == (old(firstSseDataSeen) || HasData(events.value[..i]))
        invariant firstTokens == old(firstTokens) +
          if HasData(events.value[..i]) && !old(firstSseDataSeen) then 1 else 0
        invariant broken == old(broken)
      {
        var event := events.value[i];
        HasConcat(events.value[..i], [event]);
        assert events.value[..i + 1] == events.value[..i] + [event];
        assert [event][0] == event;
        if !firstSseDataSeen && event.data != "" {
          firstSseDataSeen := true;
          firstTokens := firstTokens + 1;
        }
        done := done || event.isDone;
      }
      assert events.value[..|events.value|] == events.value;
    }
  }
}
