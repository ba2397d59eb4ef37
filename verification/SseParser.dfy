/** The incremental Server-Sent-Events parser (controller/src/sse_parser.cpp).

    Text is a `string`; the parser only ever compares characters with LF, CR,
    ':' and ' ' and with the literals "data:" and "[DONE]".  The first half of
    the module says what feeding a chunk means as a function on parser states;
    the class `SseParser` is the mutable parser, proved to compute it. */
module SseParsing {

  const DATA_PREFIX := "data:"
  const DONE_MARKER := "[DONE]"
  const SIZE_BOUND: nat := 0x1_0000_0000_0000_0000

  datatype Option<+T> = None | Some(value: T)

  datatype Event = Event(data: string, isDone: bool)

  /** The event under construction: `current_data_` and `has_data_`. */
  datatype Pending = Pending(data: string, hasData: bool)

  datatype Parser = Parser(buffer: string, pending: Pending)

  /** What one `feed` does: a new state with the events it emitted, or the
      length error that the caller treats as the end of the stream. */
  datatype Outcome = Parsed(parser: Parser, events: seq<Event>) | Overflow

  const EMPTY_PENDING := Pending("", false)
  const EMPTY_PARSER := Parser("", EMPTY_PENDING)

  // ----- lines ---------------------------------------------------------------

  /** Index of the first LF, or the length when there is none. */
  function FindLf(s: string): (i: nat)
    ensures i <= |s|
    ensures i < |s| ==> s[i] == '\n'
    ensures forall k | 0 <= k < i :: s[k] != '\n'
  {
    if s == "" || s[0] == '\n' then 0 else 1 + FindLf(s[1..])
  }

  function DropTrailingCr(line: string): string {
    if line != "" && line[|line| - 1] == '\r' then line[..|line| - 1] else line
  }

  function StripLeadingSpace(value: string): string {
    if value != "" && value[0] == ' ' then value[1..] else value
  }

  predicate IsDataLine(line: string) {
    DATA_PREFIX <= line
  }

  function DataValue(line: string): string
    requires IsDataLine(line)
  {
    StripLeadingSpace(line[|DATA_PREFIX|..])
  }

  function MakeEvent(data: string): Event {
    Event(data, data == DONE_MARKER)
  }

  /** The pending event after one more data line; lines are joined by LF. */
  function Join(p: Pending, value: string): Pending {
    Pending(if p.hasData then p.data + "\n" + value else p.data + value, true)
  }

  /** One complete line, already without its line end. */
  function ProcessLine(p: Pending, line: string, max: nat): Option<(Pending, seq<Event>)> {
    if line == "" then
      if p.hasData then Some((EMPTY_PENDING, [MakeEvent(p.data)])) else Some((p, []))
    else if line[0] == ':' then Some((p, []))
    else if IsDataLine(line) then
      var joined := Join(p, DataValue(line));
      if |joined.data| > max then None else Some((joined, []))
    else Some((p, []))
  }

  // ----- chunks --------------------------------------------------------------

  function Prepend(events: seq<Event>, o: Outcome): Outcome {
    match o
    case Parsed(parser, later) => Parsed(parser, events + later)
    case Overflow => Overflow
  }

  /** All complete lines of `text`; the unfinished last line stays buffered. */
  function Scan(p: Pending, text: string, max: nat): Outcome
    decreases |text|, 1
  {
    var i := FindLf(text);
    if i == |text| then Parsed(Parser(text, p), [])
    else AfterLine(ProcessLine(p, DropTrailingCr(text[..i]), max), text[i + 1..], max)
  }

  function AfterLine(line: Option<(Pending, seq<Event>)>, rest: string, max: nat): Outcome
    decreases |rest|, 2
  {
    match line
    case None => Overflow
    case Some((p, events)) => Prepend(events, Scan(p, rest, max))
  }

  /** Feeding without the check on the buffer size. */
  function Drain(s: Parser, text: string, max: nat): Outcome {
    Scan(s.pending, s.buffer + text, max)
  }

  predicate BufferFits(s: Parser, chunk: string, max: nat) {
    |s.buffer| + |chunk| <= max
  }

  function FeedChunk(s: Parser, chunk: string, max: nat): Outcome {
    if BufferFits(s, chunk, max) then Drain(s, chunk, max) else Overflow
  }

  /** States a parser that never failed can be in. */
  predicate Live(s: Parser, max: nat) {
    && '\n' !in s.buffer
    && |s.buffer| <= max
    && |s.pending.data| <= max
    && (!s.pending.hasData ==> s.pending.data == "")
  }

  /** The buffer never holds a complete line, and the event data never exceeds
      the limit, however the text was cut. */
  lemma {:induction false} ScanLive(p: Pending, text: string, max: nat)
    requires |p.data| <= max && (!p.hasData ==> p.data == "")
    ensures var o := Scan(p, text, max);
      o.Parsed? ==>
        && '\n' !in o.parser.buffer && |o.parser.buffer| <= |text|
        && |o.parser.pending.data| <= max
        && (!o.parser.pending.hasData ==> o.parser.pending.data == "")
    decreases |text|
  {
    var i := FindLf(text);
    if i < |text| {
      match ProcessLine(p, DropTrailingCr(text[..i]), max)
      case None =>
      case Some((q, events)) => ScanLive(q, text[i + 1..], max);
    }
  }

  lemma FeedKeepsLive(s: Parser, chunk: string, max: nat)
    requires Live(s, max)
    ensures var o := FeedChunk(s, chunk, max); o.Parsed? ==> Live(o.parser, max)
  {
    ScanLive(s.pending, s.buffer + chunk, max);
  }

  // ----- the limits in 64-bit arithmetic -------------------------------------

  function WrapAdd(a: nat, b: nat): nat { (a + b) % SIZE_BOUND }

  function WrapSub(a: nat, b: nat): nat
    requires b <= SIZE_BOUND
  {
    (a + SIZE_BOUND - b) % SIZE_BOUND
  }

  /** The condition `enforce_limit` throws on, in `size_t` arithmetic. */
  predicate BufferRejected(max: nat, buffered: nat, extra: nat)
    requires extra <= SIZE_BOUND
  {
    extra > max || buffered > WrapSub(max, extra)
  }

  /** The condition `append_data_line` throws on, in `size_t` arithmetic. */
  predicate DataRejected(max: nat, held: nat, value: nat, separator: nat)
    requires value <= SIZE_BOUND && separator <= 1
  {
    || value > max
    || held > WrapSub(max, value)
    || WrapAdd(held, value) > WrapSub(max, separator)
  }

  /** Neither check wraps around: for every limit a parser can be constructed
      with, they accept exactly when the true sums fit. */
  lemma LimitsAreExact(max: nat, held: nat, extra: nat, separator: nat)
    requires 0 < max < SIZE_BOUND && held < SIZE_BOUND && extra < SIZE_BOUND && separator <= 1
    ensures BufferRejected(max, held, extra) <==> held + extra > max
    ensures DataRejected(max, held, extra, separator) <==> held + separator + extra > max
  {
    if extra <= max {
      assert WrapSub(max, extra) == max - extra;
      if held <= max - extra {
        assert WrapAdd(held, extra) == held + extra;
        assert WrapSub(max, separator) == max - separator;
      }
    }
  }

  /** The constructor refuses a zero limit for a reason: with it the subtraction
      of the separator wraps and a second empty data line would be accepted. */
  lemma ZeroLimitWouldWrap()
    ensures !DataRejected(0, 0, 0, 1)
  {
    assert WrapSub(0, 1) == SIZE_BOUND - 1;
  }

  /** How much data the pending event may gain from `text`: every data line
      spends five characters on its prefix, so an event that starts in the text
      cannot outgrow it. */
  lemma {:induction false} ScanFits(p: Pending, text: string, max: nat)
    requires |p.data| + (if p.hasData then 1 else 0) + |text| <= max
    ensures Scan(p, text, max).Parsed?
    decreases |text|
  {
    var i := FindLf(text);
    if i < |text| {
      var line := DropTrailingCr(text[..i]);
      var r := ProcessLine(p, line, max);
      assert |line| <= i;
      assert r.Some? && |r.value.0.data| + 1 <= |p.data| + (if p.hasData then 1 else 0) + i + 1;
      ScanFits(r.value.0, text[i + 1..], max);
    }
  }

  /** A feed that starts with no partial event fails only on the buffer check. */
  lemma FreshFeedFailsOnlyOnBuffer(s: Parser, chunk: string, max: nat)
    requires Live(s, max) && !s.pending.hasData
    ensures FeedChunk(s, chunk, max).Overflow? <==> !BufferFits(s, chunk, max)
  {
    if BufferFits(s, chunk, max) {
      ScanFits(s.pending, s.buffer + chunk, max);
    }
  }

  // ----- the mutable parser --------------------------------------------------

  class SseParser {
    const maxBufferSize: nat
    var buffer: string
    var currentData: string
    var hasData: bool

    function View(): Parser
      reads this
    {
      Parser(buffer, Pending(currentData, hasData))
    }

    ghost predicate Valid()
      reads this
    {
      0 < maxBufferSize < SIZE_BOUND && Live(View(), maxBufferSize)
    }

    /** Reads a state and the events of one line as the result of `ProcessLine`. */
    function LineEffect(events: Option<seq<Event>>): Option<(Pending, seq<Event>)>
      reads this
    {
      if events == None then None else Some((View().pending, events.value))
    }

    constructor (max: nat)
      requires 0 < max < SIZE_BOUND
      ensures Valid() && maxBufferSize == max && View() == EMPTY_PARSER
    {
      maxBufferSize := max;
      buffer, currentData, hasData := "", "", false;
    }

    /** Appends one data value, or reports the length error and changes nothing. */
    method AppendDataLine(value: string) returns (ok: bool)
      requires 0 < maxBufferSize < SIZE_BOUND && |value| < SIZE_BOUND && |currentData| < SIZE_BOUND
      modifies this`currentData, this`hasData
      ensures var joined := Join(Pending(old(currentData), old(hasData)), value);
        && (ok <==> |joined.data| <= maxBufferSize)
        && Pending(currentData, hasData) ==
             if ok then joined else Pending(old(currentData), old(hasData))
    {
      var separatorBytes := if hasData then 1 else 0;
      LimitsAreExact(maxBufferSize, |currentData|, |value|, separatorBytes);
      if DataRejected(maxBufferSize, |currentData|, |value|, separatorBytes) {
        return false;
      }
      if hasData {
        currentData := currentData + "\n";
      }
      currentData := currentData + value;
      hasData := true;
      ok := true;
    }

    method ClearCurrentEvent()
      modifies this`currentData, this`hasData
      ensures Pending(currentData, hasData) == EMPTY_PENDING
    {
      currentData := "";
      hasData := false;
    }

    /** The body of the loop in `feed`: one complete line, CR already dropped. */
    method ConsumeLine(line: string) returns (events: Option<seq<Event>>)
      requires 0 < maxBufferSize < SIZE_BOUND && |line| < SIZE_BOUND && |currentData| < SIZE_BOUND
      modifies this`currentData, this`hasData
      ensures ProcessLine(old(View()).pending, line, maxBufferSize) == LineEffect(events)
      ensures |old(currentData)| <= maxBufferSize ==> |currentData| <= maxBufferSize
    {
      events := Some([]);
      if line == "" {
        if hasData {
          events := Some([MakeEvent(currentData)]);
          ClearCurrentEvent();
        }
      } else if line[0] == ':' {
        // a comment, used as a keepalive
      } else if IsDataLine(line) {
        var ok := AppendDataLine(DataValue(line));
        if !ok {
          events := None;
        }
      }
    }

    /** The loop of `feed` over the complete lines of the buffer.  Returns the
        offset of the unfinished line and the events, None on a length error. */
    method ScanLines() returns (lineStart: nat, events: Option<seq<Event>>)
      requires 0 < maxBufferSize < SIZE_BOUND && |buffer| <= maxBufferSize && |currentData| <= maxBufferSize
      modifies this`currentData, this`hasData
      ensures lineStart <= |buffer|
      ensures Scan(old(View()).pending, buffer, maxBufferSize) ==
        if events == None then Overflow
        else Parsed(Parser(buffer[lineStart..], View().pending), events.value)
    {
      hide Scan, ProcessLine;
      ghost var whole := Scan(View().pending, buffer, maxBufferSize);
      var found: seq<Event> := [];
      lineStart := 0;
      while lineStart < |buffer|
        invariant 0 <= lineStart <= |buffer| && |currentData| <= maxBufferSize
        invariant whole == Prepend(found, Scan(View().pending, buffer[lineStart..], maxBufferSize))
      {
        var newline := lineStart + FindLf(buffer[lineStart..]);
        if newline == |buffer| {
          break;
        }
        ghost var before, text := View().pending, buffer[lineStart..];
        SliceOfRest(buffer, lineStart, newline);
        var emitted := ConsumeLine(DropTrailingCr(buffer[lineStart..newline]));
        ScanStep(whole, found, before, text, newline - lineStart, LineEffect(emitted), maxBufferSize);
        if emitted == None {
          return lineStart, None;
        }
        found := found + emitted.value;
        lineStart := newline + 1;
      }
      ScanEnd(found, View().pending, buffer[lineStart..], maxBufferSize);
      return lineStart, Some(found);
    }

    /** None stands for the thrown length error. */
    method Feed(chunk: string) returns (result: Option<seq<Event>>)
      requires Valid() && |chunk| < SIZE_BOUND
      modifies this
      ensures match FeedChunk(old(View()), chunk, maxBufferSize)
        case Overflow => result == None
        case Parsed(parser, events) => result == Some(events) && View() == parser && Valid()
    {
      LimitsAreExact(maxBufferSize, |buffer|, |chunk|, 0);
      if BufferRejected(maxBufferSize, |buffer|, |chunk|) {
        return None;
      }
      FeedKeepsLive(View(), chunk, maxBufferSize);
      buffer := buffer + chunk;
      var lineStart, events := ScanLines();
      if events.Some? && lineStart > 0 {
        buffer := buffer[lineStart..];
      }
      return events;
    }

    /** Forgets everything: the parser behaves as a new one with the same limit. */
    method Reset()
      requires 0 < maxBufferSize < SIZE_BOUND
      modifies this
      ensures Valid() && View() == EMPTY_PARSER
    {
      buffer := "";
      ClearCurrentEvent();
    }
  }

  /** Null stands for the argument error the constructor throws. */
  method MakeParser(max: nat) returns (parser: SseParser?)
    requires max < SIZE_BOUND
    ensures parser == null <==> max == 0
    ensures parser != null ==> fresh(parser) && parser.Valid() && parser.View() == EMPTY_PARSER
  {
    if max == 0 {
      return null;
    }
    parser := new SseParser(max);
  }

  /** One turn of the loop in `feed`: `text` is what remains, `line` its first line. */
  lemma ScanStep(whole: Outcome, events: seq<Event>, p: Pending, text: string, i: nat,
                 line: Option<(Pending, seq<Event>)>, max: nat)
    requires whole == Prepend(events, Scan(p, text, max))
    requires i == FindLf(text) < |text| && line == ProcessLine(p, DropTrailingCr(text[..i]), max)
    ensures line == None ==> whole == Overflow
    ensures line.Some? ==>
      whole == Prepend(events + line.value.1, Scan(line.value.0, text[i + 1..], max))
  {
    assert Scan(p, text, max) == AfterLine(line, text[i + 1..], max);
    if line.Some? {
      PrependTwice(events, line.value.1, Scan(line.value.0, text[i + 1..], max));
    }
  }

  lemma ScanEnd(events: seq<Event>, p: Pending, text: string, max: nat)
    requires FindLf(text) == |text|
    ensures Prepend(events, Scan(p, text, max)) == Parsed(Parser(text, p), events)
  {
    assert events + [] == events;
  }

  lemma SliceOfRest(s: string, start: nat, end: nat)
    requires start <= end < |s|
    ensures s[start..][..end - start] == s[start..end]
    ensures s[start..][end - start + 1..] == s[end + 1..]
  {}

  lemma PrependTwice(a: seq<Event>, b: seq<Event>, o: Outcome)
    ensures Prepend(a, Prepend(b, o)) == Prepend(a + b, o)
  {
    if o.Parsed? {
      assert a + (b + o.events) == (a + b) + o.events;
    }
  }
}
