/** The parser against the WHATWG HTML standard, sections 9.2.5 and 9.2.6: on
    which streams it emits exactly the payloads the standard dispatches. */
module SseStandard {
  import opened SseParsing
  import opened SseChunks

  // ----- section 9.2.5: a line ends with CRLF, with LF or with CR ------------

  function FindEol(s: string): (i: nat)
    ensures i <= |s|
    ensures forall k | 0 <= k < i :: s[k] != '\n' && s[k] != '\r'
    ensures i < |s| ==> s[i] == '\n' || s[i] == '\r'
  {
    if s == "" || s[0] == '\n' || s[0] == '\r' then 0 else 1 + FindEol(s[1..])
  }

  function EolWidth(s: string): nat
    requires s != ""
  {
    if s[0] == '\r' && 1 < |s| && s[1] == '\n' then 2 else 1
  }

  /** The complete lines of a stream; an unterminated last line is no line. */
  function Lines(s: string): seq<string>
    decreases |s|
  {
    var i := FindEol(s);
    if i == |s| then [] else [s[..i]] + Lines(s[i + EolWidth(s[i..])..])
  }

  // ----- section 9.2.6: interpreting the lines -------------------------------

  function FindColon(line: string): (i: nat)
    ensures i <= |line|
    ensures forall k | 0 <= k < i :: line[k] != ':'
    ensures i < |line| ==> line[i] == ':'
  {
    if line == "" || line[0] == ':' then 0 else 1 + FindColon(line[1..])
  }

  function ProcessField(name: string, value: string, dataBuffer: string): string {
    if name == "data" then dataBuffer + value + "\n" else dataBuffer
  }

  function FieldLine(line: string, dataBuffer: string): string {
    var c := FindColon(line);
    if c == |line| then ProcessField(line, "", dataBuffer)
    else
      var value := line[c + 1..];
      ProcessField(line[..c], if value != "" && value[0] == ' ' then value[1..] else value, dataBuffer)
  }

  /** Payloads of the dispatched messages.  Dispatching with an empty data buffer
      emits nothing; otherwise the final LF of the buffer is removed.  What is
      still pending at the end of the stream is discarded. */
  function Interpret(lines: seq<string>, dataBuffer: string): seq<string> {
    if lines == [] then []
    else if lines[0] == "" then
      (if dataBuffer == "" then [] else [dataBuffer[..|dataBuffer| - 1]]) + Interpret(lines[1..], "")
    else if lines[0][0] == ':' then Interpret(lines[1..], dataBuffer)
    else Interpret(lines[1..], FieldLine(lines[0], dataBuffer))
  }

  /** One leading byte order mark is ignored. */
  function DropBom(s: string): string {
    if s != "" && s[0] == '\U{FEFF}' then s[1..] else s
  }

  function StandardPayloads(stream: string): seq<string> {
    Interpret(Lines(DropBom(stream)), "")
  }

  // ----- the parser, line by line --------------------------------------------

  predicate CrOnlyBeforeLf(s: string) {
    forall i | 0 <= i < |s| && s[i] == '\r' :: i + 1 < |s| && s[i + 1] == '\n'
  }

  function Payloads(events: seq<Event>): seq<string> {
    if events == [] then [] else [events[0].data] + Payloads(events[1..])
  }

  lemma {:induction false} PayloadsConcat(a: seq<Event>, b: seq<Event>)
    ensures Payloads(a + b) == Payloads(a) + Payloads(b)
    decreases |a|
  {
    if a == [] {
      assert a + b == b;
    } else {
      assert (a + b)[1..] == a[1..] + b;
      PayloadsConcat(a[1..], b);
    }
  }

  /** What the parser makes of a list of lines, limits aside. */
  function Emitted(lines: seq<string>, p: Pending): seq<string> {
    if lines == [] then []
    else if lines[0] == "" then
      (if p.hasData then [p.data] else []) + Emitted(lines[1..], EMPTY_PENDING)
    else if IsDataLine(lines[0]) then Emitted(lines[1..], Join(p, DataValue(lines[0])))
    else Emitted(lines[1..], p)
  }

  lemma SuffixOfPaired(s: string, from: nat)
    requires CrOnlyBeforeLf(s) && from <= |s|
    ensures CrOnlyBeforeLf(s[from..])
  {
    var rest := s[from..];
    forall k | 0 <= k < |rest| && rest[k] == '\r'
      ensures k + 1 < |rest| && rest[k + 1] == '\n'
    {
      assert s[from + k] == '\r';
    }
  }

  /** Where every CR stands before an LF, splitting at LF and dropping one CR
      finds the line ends of the standard. */
  lemma SameLine(s: string)
    requires CrOnlyBeforeLf(s) && FindEol(s) < |s|
    ensures FindLf(s) + 1 == FindEol(s) + EolWidth(s[FindEol(s)..]) <= |s|
    ensures DropTrailingCr(s[..FindLf(s)]) == s[..FindEol(s)]
  {
    hide FindEol, FindLf, CrOnlyBeforeLf;
    var e := FindEol(s);
    if s[e] == '\r' {
      LfBehindCr(s, e);
      LfAt(s, e + 1);
      assert s[..e + 1] == s[..e] + "\r";
      assert s[e..][1] == s[e + 1];
    } else {
      LfAt(s, e);
      assert e > 0 ==> s[..e][e - 1] == s[e - 1];
    }
  }

  lemma LfBehindCr(s: string, i: nat)
    requires CrOnlyBeforeLf(s) && i < |s| && s[i] == '\r'
    ensures i + 1 < |s| && s[i + 1] == '\n'
  {}

  lemma LfAt(s: string, i: nat)
    requires i < |s| && s[i] == '\n' && forall k | 0 <= k < i :: s[k] != '\n'
    ensures FindLf(s) == i
  {
    hide FindLf;
  }

  lemma EmittedStep(p: Pending, line: string, rest: seq<string>, max: nat)
    requires !p.hasData ==> p.data == ""
    requires ProcessLine(p, line, max).Some?
    ensures var (q, events) := ProcessLine(p, line, max).value;
      && Emitted([line] + rest, p) == Payloads(events) + Emitted(rest, q)
      && (!q.hasData ==> q.data == "")
  {
    assert ([line] + rest)[1..] == rest;
    assert ":" <= line ==> !IsDataLine(line);
  }

  lemma {:induction false} ScanByLines(p: Pending, s: string, max: nat)
    requires !p.hasData ==> p.data == ""
    requires CrOnlyBeforeLf(s) && Scan(p, s, max).Parsed?
    ensures Payloads(Scan(p, s, max).events) == Emitted(Lines(s), p)
    decreases |s|
  {
    hide DropTrailingCr, EolWidth, ProcessLine, Emitted;
    var i := FindLf(s);
    if i < |s| {
      SameLine(s);
      var rest := s[i + 1..];
      var line := DropTrailingCr(s[..i]);
      var (q, events) := ProcessLine(p, line, max).value;
      SuffixOfPaired(s, i + 1);
      EmittedStep(p, line, Lines(rest), max);
      ScanByLines(q, rest, max);
      PayloadsConcat(events, Scan(q, rest, max).events);
      assert Lines(s) == [line] + Lines(rest);
    } else {
      NoLineAtAll(p, s);
    }
  }

  lemma NoLineAtAll(p: Pending, s: string)
    requires CrOnlyBeforeLf(s) && FindLf(s) == |s|
    ensures Lines(s) == [] && Emitted(Lines(s), p) == []
  {
    hide CrOnlyBeforeLf;
    if FindEol(s) < |s| {
      SameLine(s);
    }
  }

  // ----- where the two agree -------------------------------------------------

  /** The standard's data buffer: every data line leaves an LF behind it. */
  function DataBuffer(p: Pending): string {
    if p.hasData then p.data + "\n" else ""
  }

  /** The prefix test equals the standard's split at the first colon on every
      field line but the bare "data", which the standard reads as an empty data
      line and the parser skips. */
  lemma SameField(p: Pending, line: string)
    requires !p.hasData ==> p.data == ""
    requires line != "" && line[0] != ':'
    ensures line != "data" ==>
      FieldLine(line, DataBuffer(p)) ==
        if IsDataLine(line) then DataBuffer(Join(p, DataValue(line))) else DataBuffer(p)
    ensures line == "data" ==> FieldLine(line, DataBuffer(p)) == DataBuffer(p) + "\n" && !IsDataLine(line)
  {
    var c := FindColon(line);
    if IsDataLine(line) {
      assert line[..5] == "data:" && line[4] == ':';
      assert forall k | 0 <= k < 4 :: line[k] == "data:"[k];
      assert c == 4;
      assert line[..4] == "data";
      var value := DataValue(line);
      assert DataBuffer(p) + value + "\n" == DataBuffer(Join(p, value));
    } else if c < |line| {
      PrefixFromColon(line);
    } else if line == "data" {
      assert DataBuffer(p) + "" + "\n" == DataBuffer(p) + "\n";
    }
  }

  lemma PrefixFromColon(line: string)
    requires FindColon(line) < |line|
    ensures line[..FindColon(line)] == "data" ==> IsDataLine(line)
  {
    hide FindColon;
    if line[..FindColon(line)] == "data" {
      assert line[..5] == line[..4] + [line[4]];
    }
  }

  /** A bare "data" line that a blank line follows, so that it gets dispatched. */
  predicate DispatchesBareData(lines: seq<string>) {
    exists i, j | 0 <= i < j < |lines| :: lines[i] == "data" && lines[j] == ""
  }

  function TotalLength(payloads: seq<string>): nat {
    if payloads == [] then 0 else |payloads[0]| + 1 + TotalLength(payloads[1..])
  }

  lemma TotalLengthConcat(a: seq<string>, b: seq<string>)
    requires |a| <= 1
    ensures TotalLength(a + b) == TotalLength(a) + TotalLength(b)
  {
    if a == [] {
      assert a + b == b;
    } else {
      assert (a + b)[1..] == b;
    }
  }

  lemma BareDataTail(lines: seq<string>)
    requires lines != []
    ensures DispatchesBareData(lines) <==>
      (lines[0] == "data" && "" in lines[1..]) || DispatchesBareData(lines[1..])
  {
    var rest := lines[1..];
    if DispatchesBareData(rest) {
      var i, j :| 0 <= i < j < |rest| && rest[i] == "data" && rest[j] == "";
      assert lines[i + 1] == "data" && lines[j + 1] == "";
    }
    if lines[0] == "data" && "" in rest {
      var j :| 0 <= j < |rest| && rest[j] == "";
      assert lines[j + 1] == "";
    }
    if DispatchesBareData(lines) {
      var i, j :| 0 <= i < j < |lines| && lines[i] == "data" && lines[j] == "";
      assert rest[j - 1] == "";
      assert i > 0 ==> rest[i - 1] == "data";
    }
  }

  /** While the buffers correspond and no bare "data" gets dispatched, the two
      emit the same payloads. */
  lemma {:induction false} SameWithoutBareData(lines: seq<string>, p: Pending, buffer: string)
    requires !p.hasData ==> p.data == ""
    requires "" in lines ==> buffer == DataBuffer(p) && !DispatchesBareData(lines)
    ensures Emitted(lines, p) == Interpret(lines, buffer)
    decreases |lines|
  {
    hide DataValue, FieldLine;
    if lines != [] {
      var line, rest := lines[0], lines[1..];
      BareDataTail(lines);
      if line == "" {
        SameWithoutBareData(rest, EMPTY_PENDING, "");
        assert p.hasData ==> buffer[..|buffer| - 1] == p.data;
      } else if line[0] == ':' {
        SameWithoutBareData(rest, p, buffer);
      } else {
        SameField(p, line);
        var q := if IsDataLine(line) then Join(p, DataValue(line)) else p;
        SameWithoutBareData(rest, q, FieldLine(line, buffer));
      }
    }
  }

  /** A dispatched bare "data" makes the standard's payloads longer in total. */
  lemma {:induction false} LongerWithBareData(lines: seq<string>, p: Pending, extra: nat, buffer: string)
    requires !p.hasData ==> p.data == ""
    requires |buffer| == |DataBuffer(p)| + extra
    ensures var std, own := TotalLength(Interpret(lines, buffer)), TotalLength(Emitted(lines, p));
      && std >= own
      && (DispatchesBareData(lines) || (extra > 0 && "" in lines) ==> std > own)
    decreases |lines|
  {
    hide DataValue, FieldLine;
    if lines != [] {
      var line, rest := lines[0], lines[1..];
      BareDataTail(lines);
      if line == "" {
        LongerWithBareData(rest, EMPTY_PENDING, 0, "");
        TotalLengthConcat(if buffer == "" then [] else [buffer[..|buffer| - 1]], Interpret(rest, ""));
        TotalLengthConcat(if p.hasData then [p.data] else [], Emitted(rest, EMPTY_PENDING));
      } else if line[0] == ':' {
        LongerWithBareData(rest, p, extra, buffer);
      } else {
        SameField(p, line);
        FieldGrowth(line, buffer, DataBuffer(p));
        var q := if IsDataLine(line) then Join(p, DataValue(line)) else p;
        LongerWithBareData(rest, q, if line == "data" then extra + 1 else extra, FieldLine(line, buffer));
      }
    }
  }

  lemma FieldGrowth(line: string, a: string, b: string)
    requires |a| >= |b|
    ensures |FieldLine(line, a)| - |FieldLine(line, b)| == |a| - |b|
  {}

  // ----- the byte order mark -------------------------------------------------

  /** The standard skips the mark; the parser takes it for part of the first line. */
  lemma MarkedLines(s: string)
    requires DropBom(s) != s
    ensures var lines := Lines(DropBom(s));
      Lines(s) == if lines == [] then [] else [s[..1] + lines[0]] + lines[1..]
  {
    var t := s[1..];
    var i := FindEol(t);
    assert FindEol(s) == i + 1;
    hide FindEol, EolWidth;
    if i < |t| {
      assert s[i + 1..] == t[i..] && s[..i + 1] == s[..1] + t[..i];
      var next := i + EolWidth(t[i..]);
      assert next <= |t| && s[next + 1..] == t[next..];
      assert Lines(s) == [s[..i + 1]] + Lines(t[next..]);
      assert Lines(t) == [t[..i]] + Lines(t[next..]);
    }
  }

  lemma MarkedLineIsIgnored(s: string)
    requires DropBom(s) != s
    ensures var lines := Lines(DropBom(s));
      Emitted(Lines(s), EMPTY_PENDING) == if lines == [] then [] else Emitted(lines[1..], EMPTY_PENDING)
  {
    MarkedLines(s);
    var lines := Lines(DropBom(s));
    if lines != [] {
      var first := s[..1] + lines[0];
      assert first[0] == s[0] && ([first] + lines[1..])[1..] == lines[1..];
      assert !IsDataLine(first);
    }
  }

  /** What an ignored first line leaves in the standard's data buffer. */
  lemma InterpretFirst(lines: seq<string>) returns (buffer: string)
    requires lines != []
    ensures Interpret(lines, "") == Interpret(lines[1..], buffer)
    ensures buffer != "" <==> IsDataLine(lines[0]) || lines[0] == "data"
  {
    var line := lines[0];
    buffer := "";
    if line != "" && line[0] != ':' {
      SameField(EMPTY_PENDING, line);
      buffer := FieldLine(line, "");
    }
  }

  // ----- the refinement ------------------------------------------------------

  /** A data line hidden behind a byte order mark, that a blank line follows. */
  predicate DispatchesMarkedData(stream: string) {
    var lines := Lines(DropBom(stream));
    DropBom(stream) != stream && lines != [] && IsDataLine(lines[0]) && "" in lines[1..]
  }

  lemma SameOrLonger(lines: seq<string>, buffer: string)
    ensures Emitted(lines, EMPTY_PENDING) == Interpret(lines, buffer)
      <==> !DispatchesBareData(lines) && (buffer == "" || "" !in lines)
  {
    if DispatchesBareData(lines) || (buffer != "" && "" in lines) {
      LongerWithBareData(lines, EMPTY_PENDING, |buffer|, buffer);
    } else {
      SameWithoutBareData(lines, EMPTY_PENDING, buffer);
    }
  }

  /** The refinement, with its exact domain.  Fed in any chunks that fit the
      limits, a stream whose CRs all stand before an LF yields the payloads of the
      standard, in order, if and only if no bare "data" line, and no data line
      behind a byte order mark, is followed by a blank line. */
  lemma RefinesStandard(chunks: seq<string>, max: nat)
    requires FeedAll(EMPTY_PARSER, chunks, max).Parsed? && CrOnlyBeforeLf(Flatten(chunks))
    ensures var stream := Flatten(chunks);
      Payloads(FeedAll(EMPTY_PARSER, chunks, max).events) == StandardPayloads(stream)
      <==> !DispatchesBareData(Lines(DropBom(stream))) && !DispatchesMarkedData(stream)
  {
    var stream := Flatten(chunks);
    AnyChunking(EMPTY_PARSER, chunks, max);
    assert EMPTY_PARSER.buffer + stream == stream;
    ScanByLines(EMPTY_PENDING, stream, max);
    var lines := Lines(DropBom(stream));
    hide Interpret, Emitted, Lines, IsDataLine;
    if DropBom(stream) == stream {
      SameOrLonger(lines, "");
    } else {
      MarkedLineIsIgnored(stream);
      if lines == [] {
        SameOrLonger(lines, "");
        NothingEmitted();
      } else {
        var buffer := InterpretFirst(lines);
        BareDataTail(lines);
        SameOrLonger(lines[1..], buffer);
      }
    }
  }

  lemma NothingEmitted()
    ensures Emitted([], EMPTY_PENDING) == []
  {}

  /** The mark at work: the parser takes it for part of the first field name and
      loses the event. */
  lemma ByteOrderMarkLosesTheFirstEvent()
    ensures StandardPayloads("\U{FEFF}data:x" + "\n\n") == ["x"]
    ensures Emitted(Lines("\U{FEFF}data:x" + "\n\n"), EMPTY_PENDING) == []
  {
    hide FieldLine, Lines, Interpret, IsDataLine;
    var s := "\U{FEFF}data:x" + "\n\n";
    assert s[1..] == "data:x" + "\n\n";
    assert DropBom(s) == s[1..];
    OneEventLines("data:x");
    DataX();
    MarkedLineIsIgnored(s);
    assert ["data:x", ""][1..] == [""] && [""][1..] == [];
  }

  lemma OneEventLines(line: string)
    requires FindEol(line) == |line|
    ensures Lines(line + "\n\n") == [line, ""]
  {
    hide FindEol;
    var s, n := line + "\n\n", |line|;
    assert forall k | 0 <= k < n :: s[k] == line[k];
    assert s[n] == '\n' && FindEol(s) == n;
    assert s[..n] == line && EolWidth(s[n..]) == 1 && s[n + 1..] == ['\n'];
    OneBlankLine('\n');
    assert Lines(s) == [line] + Lines(['\n']);
  }

  lemma OneBlankLine(end: char)
    requires end == '\n' || end == '\r'
    ensures Lines([end]) == [""]
  {
    assert FindEol([end]) == 0 && [end][1..] == "" && [end][..0] == "";
    assert Lines("") == [];
  }

  lemma DataX()
    ensures Interpret(["data:x", ""], "") == ["x"]
  {
    var line := "data:x";
    assert FindColon(line) == 4;
    assert line[..4] == "data" && line[5..] == "x";
    assert FieldLine(line, "") == "x\n";
    assert ["data:x", ""][1..] == [""] && [""][1..] == [];
    assert "x\n"[..1] == "x";
  }

  /** Without the condition on CR: lone CRs end lines for the standard only. */
  lemma LoneCrIsNoLineEnd(max: nat)
    ensures StandardPayloads("data:x" + "\r\r") == ["x"]
    ensures Scan(EMPTY_PENDING, "data:x" + "\r\r", max).events == []
  {
    hide Interpret, FieldLine;
    var s := "data:x" + "\r\r";
    assert s[6] == '\r' && forall k | 0 <= k < 6 :: s[k] == "data:x"[k];
    assert FindEol(s) == 6;
    assert s[..6] == "data:x" && s[6..] == "\r\r" && s[7..] == "\r";
    OneBlankLine('\r');
    DataX();
    assert EolWidth(s[6..]) == 1;
    assert Lines(s) == ["data:x"] + [""] == ["data:x", ""];
    assert DropBom(s) == s;
    assert FindLf(s) == |s|;
  }
}
