/** Printing payloads as an event stream and reading them back. */
module EventStreamRoundTrip {
  import opened Text
  import opened EventStream
  import opened EventStreamTheorems
  import opened LineScanner
  import Sequences

  function Payloads(events: seq<Event>): seq<string> {
    if events == [] then [] else [events[0].payload] + Payloads(events[1..])
  }

  lemma {:induction false} PayloadsAppend(a: seq<Event>, b: seq<Event>)
    ensures Payloads(a + b) == Payloads(a) + Payloads(b)
  {
    if a == [] {
      Sequences.Unit(b);
    } else {
      Sequences.AppendTail(a, b);
      PayloadsAppend(a[1..], b);
      Sequences.Assoc([a[0].payload], Payloads(a[1..]), Payloads(b));
    }
  }

  lemma PayloadsSnoc(events: seq<Event>, event: Event)
    ensures Payloads(events + [event]) == Payloads(events) + [event.payload]
  {
    PayloadsAppend(events, [event]);
    Sequences.ConsTail(event, []);
    assert Payloads([event]) == [event.payload];
  }

  lemma {:induction false} PayloadsLength(events: seq<Event>)
    ensures |Payloads(events)| == |events|
  {
    if events != [] {
      PayloadsLength(events[1..]);
    }
  }

  // ----- printed blocks -----

  /** The lines of a block that carry data, as written. */
  function Marked(lines: seq<string>): seq<string> {
    if lines == [] then []
    else (if HasPrefix(lines[0], "data:") then [lines[0]] else []) + Marked(lines[1..])
  }

  /** The two ways to write data: the space behind the colon may be left out unless the data starts with
      one. */
  predicate Spells(line: string, part: string) {
    line == "data: " + part || (line == "data:" + part && (part == "" || part[0] != ' '))
  }

  predicate SpellsAll(lines: seq<string>, parts: seq<string>) {
    |lines| == |parts| && forall i :: 0 <= i < |parts| ==> Spells(lines[i], parts[i])
  }

  lemma DataOfSpellings(x: string)
    ensures DataOfLine("data: " + x) == [x]
    ensures x == "" || x[0] != ' ' ==> DataOfLine("data:" + x) == [x]
    ensures !("data:" <= x) ==> DataOfLine(x) == []
  {
    assert TrimPrefix("data: " + x, "data:") == " " + x;
    assert TrimPrefix("data:" + x, "data:") == x;
  }

  /** One event to print: its lines in front of the blank line, and the payload they carry.
      Comments and other fields stand anywhere between the data lines. */
  datatype Segment = Segment(lines: seq<string>, payload: Option<string>)

  function PartsOf(segment: Segment): seq<string> {
    if segment.payload.Some? then SplitLf(segment.payload.value) else []
  }

  function BlockOf(segment: Segment): seq<string> {
    segment.lines + [""]
  }

  predicate Printed(segment: Segment) {
    && "" !in segment.lines
    && !Oversize(BlockOf(segment))
    && SpellsAll(Marked(segment.lines), PartsOf(segment))
  }

  lemma {:induction false} PrintedData(lines: seq<string>, parts: seq<string>)
    requires SpellsAll(Marked(lines), parts)
    ensures DataLines(lines) == parts
  {
    hide DataOfLine, Spells;
    if lines != [] {
      if HasPrefix(lines[0], "data:") {
        Sequences.ConsTail(lines[0], Marked(lines[1..]));
        assert Spells(Marked(lines)[0], parts[0]);
        SpelledData(lines[0], parts[0]);
        PrintedData(lines[1..], parts[1..]);
        Sequences.HeadTail(parts);
      } else {
        DataOfSpellings(lines[0]);
        Sequences.Unit(Marked(lines[1..]));
        PrintedData(lines[1..], parts);
        Sequences.Unit(DataLines(lines[1..]));
      }
    }
  }

  lemma SpelledData(line: string, part: string)
    requires Spells(line, part)
    ensures DataOfLine(line) == [part]
  {
    hide DataOfLine;
    DataOfSpellings(part);
  }

  lemma PrintedBlock(segment: Segment)
    requires Printed(segment)
    ensures Closed(BlockOf(segment))
    ensures Payload(BlockOf(segment)) == if segment.payload.Some? then segment.payload.value else ""
  {
    PrintedData(segment.lines, PartsOf(segment));
    DataLinesAppend(segment.lines, [""]);
    assert [""][1..] == [];
    Sequences.Unit(PartsOf(segment));
    if segment.payload.Some? {
      JoinSplitLf(segment.payload.value);
    }
  }

  // ----- reading a printed stream -----

  /** A payload the reader passes on: a non-empty object without an `error` key. */
  predicate Acceptable(shape: string -> Option<set<string>>, payload: string) {
    && payload != ""
    && TrimSpace(payload) != "[DONE]"
    && shape(payload).Some?
    && "error" !in shape(payload).value
  }

  ghost predicate Hospitable(w: World) {
    forall history :: w.accept(history)
  }

  /** Blocks that say something ordinary or nothing. */
  ghost predicate Plain(shape: string -> Option<set<string>>, block: seq<string>) {
    && Closed(block)
    && !Oversize(block)
    && (JudgeBlock(shape, block).Silent? || (JudgeBlock(shape, block).Deliver? && !JudgeBlock(shape, block).last))
  }

  ghost predicate Marker(block: seq<string>) {
    Closed(block) && !Oversize(block) && TrimSpace(Payload(block)) == "[DONE]"
  }

  /** Plain blocks say what they say, and the reading goes on. */
  lemma {:induction false} PlainPrefix(w: World, blocks: seq<seq<string>>, rest: seq<seq<string>>, scanFailed: bool,
                                       calls: seq<Event>)
    requires Hospitable(w) && forall b <- blocks :: Plain(w.shape, b)
    ensures Interpret(w, blocks + rest, scanFailed, calls)
         == Interpret(w, rest, scanFailed, calls + Events(w.shape, blocks))
  {
    if blocks == [] {
      Sequences.Unit(rest);
      Sequences.Unit(calls);
    } else {
      var b, tail := blocks[0], blocks[1..];
      assert Plain(w.shape, b);
      Sequences.HeadTail(blocks);
      Sequences.Assoc([b], tail, rest);
      InterpretStep(w, b, tail + rest, scanFailed, calls);
      Sequences.Unit(calls);
      PlainPrefix(w, tail, rest, scanFailed, calls + Spoken(w.shape, b));
      Sequences.Assoc(calls, Spoken(w.shape, b), Events(w.shape, tail));
    }
  }

  lemma PlainRun(w: World, blocks: seq<seq<string>>, done: seq<string>, rest: seq<seq<string>>, scanFailed: bool)
    requires Hospitable(w) && Marker(done) && forall b <- blocks :: Plain(w.shape, b)
    ensures Interpret(w, blocks + ([done] + rest), scanFailed, [])
         == Reading(Events(w.shape, blocks) + [Event(Frame(done), Payload(done))], Finished)
  {
    hide Interpret, Plain;
    PlainPrefix(w, blocks, [done] + rest, scanFailed, []);
    Sequences.Unit(Events(w.shape, blocks));
    InterpretStep(w, done, rest, scanFailed, Events(w.shape, blocks));
    DoneIsDelivered(w.shape, done);
  }

  /** Plain blocks and then the end marker, as lines: everything plain is said, then the marker. */
  lemma PlainLines(w: World, blocks: seq<seq<string>>, done: seq<string>, rest: seq<string>, scanFailed: bool)
    requires Hospitable(w) && Marker(done) && forall b <- blocks :: Plain(w.shape, b)
    ensures var r := Interpret(w, Blocks(Flatten(blocks) + (done + rest)), scanFailed, []);
            r.outcome == Finished && Payloads(r.calls) == Payloads(Events(w.shape, blocks)) + [Payload(done)]
  {
    hide Oversize, JudgeBlock, TrimSpace;
    PlainIsClosed(w.shape, blocks);
    BlocksOfClosed(blocks, done + rest);
    BlocksOfOne(done, rest);
    PlainRun(w, blocks, done, Blocks(rest), scanFailed);
    var said, marker := Events(w.shape, blocks), Event(Frame(done), Payload(done));
    PayloadsAppend(said, [marker]);
    Sequences.ConsTail(marker, []);
  }

  /** The same over bytes. */
  lemma PlainBody(w: World, blocks: seq<seq<string>>, done: seq<string>, crlf: seq<bool>, tail: string, readFails: bool)
    requires Hospitable(w) && Marker(done) && forall b <- blocks :: Plain(w.shape, b)
    requires |crlf| == |Flatten(blocks) + done| && Fits(Flatten(blocks) + done, crlf)
    ensures var r := ReadBody(w, Encode(Flatten(blocks) + done, crlf) + tail, readFails);
            r.outcome == Finished && Payloads(r.calls) == Payloads(Events(w.shape, blocks)) + [Payload(done)]
  {
    var scan := ScanLines(tail);
    ScanEncoded(Flatten(blocks) + done, crlf, tail);
    Sequences.Assoc(Flatten(blocks), done, scan.lines);
    PlainLines(w, blocks, done, scan.lines, scan.tooLong || readFails);
  }

  function BlocksFor(segments: seq<Segment>): seq<seq<string>> {
    if segments == [] then [] else [BlockOf(segments[0])] + BlocksFor(segments[1..])
  }

  function PayloadsFor(segments: seq<Segment>): seq<string> {
    if segments == [] then []
    else (if segments[0].payload.Some? then [segments[0].payload.value] else []) + PayloadsFor(segments[1..])
  }

  ghost predicate PrintedFor(shape: string -> Option<set<string>>, segment: Segment) {
    && Printed(segment)
    && (segment.payload.Some? ==> Acceptable(shape, segment.payload.value))
  }

  lemma PrintedIsPlain(shape: string -> Option<set<string>>, segment: Segment)
    requires PrintedFor(shape, segment)
    ensures Plain(shape, BlockOf(segment))
    ensures Payloads(Spoken(shape, BlockOf(segment))) == if segment.payload.Some? then [segment.payload.value] else []
  {
    PrintedBlock(segment);
    DoneIsDelivered(shape, BlockOf(segment));
  }

  lemma {:induction false} PrintedBlocks(shape: string -> Option<set<string>>, segments: seq<Segment>)
    requires forall s <- segments :: PrintedFor(shape, s)
    ensures forall b <- BlocksFor(segments) :: Plain(shape, b)
    ensures Payloads(Events(shape, BlocksFor(segments))) == PayloadsFor(segments)
  {
    if segments != [] {
      var block, tail := BlockOf(segments[0]), BlocksFor(segments[1..]);
      PrintedIsPlain(shape, segments[0]);
      PrintedBlocks(shape, segments[1..]);
      Sequences.ConsTail(block, tail);
      PayloadsAppend(Spoken(shape, block), Events(shape, tail));
    }
  }

  /** The events of a printed stream: those of the segments, then the end marker. */
  function PrintedEvents(shape: string -> Option<set<string>>, segments: seq<Segment>, done: Segment): seq<Event> {
    Events(shape, BlocksFor(segments)) + [Event(Frame(BlockOf(done)), "[DONE]")]
  }

  /** The callback takes each of these events, in this order. */
  ghost predicate Takes(w: World, events: seq<Event>) {
    forall n | 0 < n <= |events| :: w.accept(events[..n])
  }

  lemma PrintedRun(w: World, blocks: seq<seq<string>>, done: seq<string>, rest: seq<seq<string>>, scanFailed: bool)
    requires Marker(done) && forall b <- blocks :: Plain(w.shape, b)
    requires Takes(w, Events(w.shape, blocks) + [Event(Frame(done), Payload(done))])
    ensures Interpret(w, blocks + ([done] + rest), scanFailed, [])
         == Reading(Events(w.shape, blocks) + [Event(Frame(done), Payload(done))], Finished)
  {
    hide Plain, Marker, Interpret;
    var v := World(w.shape, (history: seq<Event>) => true);
    PlainRun(v, blocks, done, rest, scanFailed);
    SameReading(v, w, blocks + ([done] + rest), scanFailed, []);
  }

  /** Round trip: printed payloads with anything harmless in between, LF or CRLF behind every line,
      then the end marker, come back as exactly those payloads and the marker, without error,
      whatever follows the marker and however the connection ends.  The callback need only take the
      events of this stream. */
  lemma RoundTrip(w: World, segments: seq<Segment>, done: Segment, crlf: seq<bool>, tail: string, readFails: bool)
    requires forall s <- segments :: PrintedFor(w.shape, s)
    requires Printed(done) && done.payload == Some("[DONE]")
    requires Takes(w, PrintedEvents(w.shape, segments, done))
    requires |crlf| == |Flatten(BlocksFor(segments)) + BlockOf(done)|
    requires Fits(Flatten(BlocksFor(segments)) + BlockOf(done), crlf)
    ensures var r := ReadBody(w, Encode(Flatten(BlocksFor(segments)) + BlockOf(done), crlf) + tail, readFails);
            && r == Reading(PrintedEvents(w.shape, segments, done), Finished)
            && Payloads(r.calls) == PayloadsFor(segments) + ["[DONE]"]
  {
    hide Plain, Marker, PrintedFor, Takes, Interpret;
    var blocks, last, scan := BlocksFor(segments), BlockOf(done), ScanLines(tail);
    PrintedBlocks(w.shape, segments);
    PrintedBlock(done);
    DoneIsMarker(done);
    ScanEncoded(Flatten(blocks) + last, crlf, tail);
    Sequences.Assoc(Flatten(blocks), last, scan.lines);
    PlainIsClosed(w.shape, blocks);
    BlocksOfClosed(blocks, last + scan.lines);
    BlocksOfOne(last, scan.lines);
    PrintedRun(w, blocks, last, Blocks(scan.lines), scan.tooLong || readFails);
    PayloadsAppend(Events(w.shape, blocks), [Event(Frame(last), "[DONE]")]);
    Sequences.ConsTail(Event(Frame(last), "[DONE]"), []);
    assert Payloads([Event(Frame(last), "[DONE]")]) == ["[DONE]"];
  }

  lemma PlainIsClosed(shape: string -> Option<set<string>>, blocks: seq<seq<string>>)
    requires forall b <- blocks :: Plain(shape, b)
    ensures forall b <- blocks :: Closed(b)
  {
    forall b | b in blocks
      ensures Closed(b)
    {
      assert Plain(shape, b);
    }
  }

  lemma DoneIsMarker(done: Segment)
    requires Printed(done) && done.payload == Some("[DONE]")
    ensures Marker(BlockOf(done))
  {
    hide TrimSpace;
    PrintedBlock(done);
    assert VisibleEnds("[DONE]");
    VisibleEndsAreTrimmed("[DONE]");
  }

  // ----- a stream cut off behind its marker -----

  /** The end marker without its blank line. */
  ghost predicate OpenMarker(block: seq<string>) {
    block != [] && "" !in block && !Oversize(block) && TrimSpace(Payload(block)) == "[DONE]"
  }

  /** What is read of plain blocks and an open marker: the marker counts unless the connection failed. */
  function OpenReading(shape: string -> Option<set<string>>, blocks: seq<seq<string>>, open: seq<string>,
                       readFails: bool): Reading {
    var said := Events(shape, blocks);
    if readFails then Reading(said, Failed(ScanFailed))
    else Reading(said + [Event(Frame(open + [""]), Payload(open))], Finished)
  }

  lemma OpenRun(w: World, blocks: seq<seq<string>>, open: seq<string>, readFails: bool)
    requires Hospitable(w) && OpenMarker(open) && forall b <- blocks :: Plain(w.shape, b)
    ensures Interpret(w, blocks + [open], readFails, []) == OpenReading(w.shape, blocks, open, readFails)
  {
    hide Interpret, Plain, Oversize;
    PlainPrefix(w, blocks, [open], readFails, []);
    Sequences.Unit(Events(w.shape, blocks));
    Sequences.Unit([open]);
    InterpretStep(w, open, [], readFails, Events(w.shape, blocks));
    DoneIsDelivered(w.shape, open);
    FrameAppend(open, [""]);
    assert Frame([""]) == "\n" by { Sequences.ConsTail("", []); }
    assert !Closed(open);
  }

  lemma OpenRunTaken(w: World, blocks: seq<seq<string>>, open: seq<string>, readFails: bool)
    requires OpenMarker(open) && forall b <- blocks :: Plain(w.shape, b)
    requires Takes(w, OpenReading(w.shape, blocks, open, readFails).calls)
    ensures Interpret(w, blocks + [open], readFails, []) == OpenReading(w.shape, blocks, open, readFails)
  {
    hide Plain, OpenMarker, Interpret, OpenReading;
    var v := World(w.shape, (history: seq<Event>) => true);
    OpenRun(v, blocks, open, readFails);
    SameReading(v, w, blocks + [open], readFails, []);
  }

  lemma DoneIsOpenMarker(done: Segment)
    requires Printed(done) && done.payload == Some("[DONE]")
    ensures OpenMarker(done.lines) && Payload(done.lines) == "[DONE]"
  {
    hide TrimSpace, Spells, Oversize;
    PrintedData(done.lines, PartsOf(done));
    JoinSplitLf("[DONE]");
    assert VisibleEnds("[DONE]");
    VisibleEndsAreTrimmed("[DONE]");
    PartFits(done.lines, [""]);
  }

  lemma PartFits(lines: seq<string>, rest: seq<string>)
    requires !Oversize(lines + rest)
    ensures !Oversize(lines)
  {
    hide Frame;
    forall j | 0 <= j < |lines|
      ensures |Frame(lines[..j])| + |lines[j]| <= LIMIT
    {
      assert (lines + rest)[..j] == lines[..j] && (lines + rest)[j] == lines[j];
    }
  }

  /** The bytes of lines, the last with its line ending or cut off in front of it. */
  function Written(lines: seq<string>, crlf: seq<bool>, cut: bool): string
    requires |crlf| == |lines| && lines != []
  {
    var n := |lines| - 1;
    if cut then Encode(lines[..n], crlf[..n]) + lines[n] else Encode(lines, crlf)
  }

  lemma InitFits(lines: seq<string>, crlf: seq<bool>, n: nat)
    requires |crlf| == |lines| && n < |lines| && Fits(lines, crlf)
    ensures Fits(lines[..n], crlf[..n]) && Scannable(lines[n])
  {
  }

  lemma ScanWritten(lines: seq<string>, crlf: seq<bool>, cut: bool)
    requires |crlf| == |lines| && lines != [] && Fits(lines, crlf) && lines[|lines| - 1] != ""
    ensures ScanLines(Written(lines, crlf, cut)) == Scan(lines, false)
  {
    hide ScanLines, Encode, Fits, Scannable;
    var n := |lines| - 1;
    if cut {
      InitFits(lines, crlf, n);
      ScanUnterminated(lines[..n], crlf[..n], lines[n]);
      Sequences.TakeSnoc(lines, n);
      Sequences.Ends(lines);
    } else {
      ScanEncoded(lines, crlf, "");
      Sequences.Unit(Encode(lines, crlf));
      Sequences.Unit(lines);
      NothingToScan();
    }
  }

  lemma NothingToScan()
    ensures ScanLines("") == Scan([], false)
  {
  }

  /** Round trip of a stream that ends behind its marker, without the blank line or even within the last
      line: read like any other when the connection ended well, and an error when it did not. */
  lemma UnterminatedRoundTrip(w: World, segments: seq<Segment>, done: Segment, crlf: seq<bool>, cut: bool,
                              readFails: bool)
    requires forall s <- segments :: PrintedFor(w.shape, s)
    requires Printed(done) && done.payload == Some("[DONE]")
    requires Takes(w, if readFails then Events(w.shape, BlocksFor(segments))
                      else PrintedEvents(w.shape, segments, done))
    requires |crlf| == |Flatten(BlocksFor(segments)) + done.lines|
    requires Fits(Flatten(BlocksFor(segments)) + done.lines, crlf)
    ensures done.lines != []
    ensures var r := ReadBody(w, Written(Flatten(BlocksFor(segments)) + done.lines, crlf, cut), readFails);
            && (!readFails ==> r == Reading(PrintedEvents(w.shape, segments, done), Finished))
            && (!readFails ==> Payloads(r.calls) == PayloadsFor(segments) + ["[DONE]"])
            && (readFails ==> r.outcome == Failed(ScanFailed) && Payloads(r.calls) == PayloadsFor(segments))
  {
    hide Plain, OpenMarker, PrintedFor, Takes, Interpret, Printed, ScanLines, Written, Oversize, TrimSpace;
    var blocks, open := BlocksFor(segments), done.lines;
    PrintedBlocks(w.shape, segments);
    DoneIsOpenMarker(done);
    OpenIsUnclosed(open);
    PlainIsClosed(w.shape, blocks);
    BlocksOfClosed(blocks, open);
    BlocksUnclosed(open);
    ScanWritten(Flatten(blocks) + open, crlf, cut);
    OpenRunTaken(w, blocks, open, readFails);
    PayloadsSnoc(Events(w.shape, blocks), Event(Frame(BlockOf(done)), "[DONE]"));
  }

  /** Behind a line that does not fit nothing is read, and unless the stream had ended before it, the read
      fails like one whose connection failed. */
  lemma TooLongLineFails(w: World, lines: seq<string>, crlf: seq<bool>, raw: string, readFails: bool)
    requires |crlf| == |lines| && Fits(lines, crlf)
    requires |raw| >= 8 * 1024 * 1024 && '\n' !in raw[..8 * 1024 * 1024]
    ensures ReadBody(w, Encode(lines, crlf) + raw, readFails) == ReadBody(w, Encode(lines, crlf), true)
  {
    hide ScanLines, Interpret, Blocks;
    ScanTooLong(lines, crlf, raw);
    ScanEncoded(lines, crlf, "");
    Sequences.Unit(Encode(lines, crlf));
    Sequences.Unit(lines);
    NothingToScan();
  }

  lemma OpenIsUnclosed(open: seq<string>)
    requires OpenMarker(open)
    ensures open != [] && forall j :: 0 <= j < |open| ==> open[j] != ""
  {
  }

  // ----- re-reading what a stream forwarded -----

  /** The blocks that emitted something. */
  function Speakers(shape: string -> Option<set<string>>, blocks: seq<seq<string>>): seq<seq<string>> {
    if blocks == [] then []
    else (if JudgeBlock(shape, blocks[0]).Deliver? then [blocks[0]] else []) + Speakers(shape, blocks[1..])
  }

  function Frames(events: seq<Event>): string {
    if events == [] then "" else events[0].frame + Frames(events[1..])
  }

  function AllLf(n: nat): seq<bool> {
    seq(n, _ => false)
  }

  lemma {:induction false} FrameIsEncoding(lines: seq<string>)
    ensures Frame(lines) == Encode(lines, AllLf(|lines|))
  {
    if lines != [] {
      FrameIsEncoding(lines[1..]);
      assert AllLf(|lines|)[1..] == AllLf(|lines[1..]|);
    }
  }

  lemma {:induction false} SpeakersSay(shape: string -> Option<set<string>>, blocks: seq<seq<string>>)
    requires forall b <- blocks :: Plain(shape, b)
    ensures forall b <- Speakers(shape, blocks) :: Plain(shape, b) && b in blocks
    ensures Events(shape, Speakers(shape, blocks)) == Events(shape, blocks)
    ensures Frames(Events(shape, blocks)) == Frame(Flatten(Speakers(shape, blocks)))
  {
    if blocks != [] {
      var b, tail := blocks[0], Speakers(shape, blocks[1..]);
      assert Plain(shape, b);
      SpeakersSay(shape, blocks[1..]);
      if JudgeBlock(shape, b).Deliver? {
        Sequences.ConsTail(b, tail);
        FrameAppend(b, Flatten(tail));
        DoneIsDelivered(shape, b);
        Sequences.ConsTail(JudgeBlock(shape, b).event, Events(shape, blocks[1..]));
      } else {
        Sequences.Unit(tail);
        Sequences.Unit(Events(shape, blocks[1..]));
      }
    }
  }

  const MARKER_BLOCK: seq<string> := ["data: [DONE]", ""]

  lemma MarkerFrame()
    ensures Frame(MARKER_BLOCK) == "data: [DONE]\n\n"
    ensures !Oversize(MARKER_BLOCK)
  {
    var line := MARKER_BLOCK[0];
    Sequences.ConsTail(line, [""]);
    Sequences.ConsTail("", []);
    assert Frame([""]) == "\n";
    Sequences.ConsTail(line, []);
    assert Frame([line]) == line + "\n";
    assert |line| == 12;
    assert MARKER_BLOCK[..0] == [] && MARKER_BLOCK[..1] == [line];
  }

  lemma MarkerData()
    ensures DataLines(MARKER_BLOCK) == ["[DONE]"]
  {
    var line := MARKER_BLOCK[0];
    Sequences.ConsTail(line, [""]);
    Sequences.ConsTail("", []);
    assert TrimPrefix(line, "data:") == " [DONE]";
    assert DataOfLine(line) == ["[DONE]"];
    assert DataLines([""]) == [];
  }

  lemma MarkerBlock()
    ensures Marker(MARKER_BLOCK) && Payload(MARKER_BLOCK) == "[DONE]"
    ensures forall l <- MARKER_BLOCK :: Scannable(l)
  {
    MarkerFrame();
    MarkerData();
    TrimSpaceFixes("[DONE]");
  }

  lemma {:induction false} FlattenMember(blocks: seq<seq<string>>, line: string)
    requires line in Flatten(blocks)
    ensures exists b <- blocks :: line in b
  {
    if line in blocks[0] {
      assert blocks[0] in blocks;
    } else {
      FlattenMember(blocks[1..], line);
      var b :| b in blocks[1..] && line in b;
      assert b in blocks;
    }
  }

  lemma {:induction false} MemberFlatten(blocks: seq<seq<string>>, b: seq<string>, line: string)
    requires b in blocks && line in b
    ensures line in Flatten(blocks)
  {
    if b != blocks[0] {
      assert b in blocks[1..];
      MemberFlatten(blocks[1..], b, line);
    }
  }

  /** The blocks in front of the one that ends a read well are plain. */
  lemma CleanIsPlain(w: World, lines: seq<string>, scanFailed: bool, n: nat)
    requires n < |Blocks(lines)| && Clean(w, Blocks(lines), scanFailed, n)
    ensures forall b <- Blocks(lines)[..n] :: Plain(w.shape, b)
  {
    forall i | 0 <= i < n
      ensures Plain(w.shape, Blocks(lines)[i])
    {
      assert Passes(w, Blocks(lines), scanFailed, i);
      BlocksClosed(lines, i);
    }
  }

  lemma SpeakersScannable(shape: string -> Option<set<string>>, lines: seq<string>, n: nat)
    requires n <= |Blocks(lines)| && forall l <- lines :: Scannable(l)
    requires forall b <- Blocks(lines)[..n] :: Plain(shape, b)
    ensures forall l <- Flatten(Speakers(shape, Blocks(lines)[..n])) :: Scannable(l)
  {
    var speakers := Speakers(shape, Blocks(lines)[..n]);
    SpeakersSay(shape, Blocks(lines)[..n]);
    forall l | l in Flatten(speakers)
      ensures Scannable(l)
    {
      FlattenMember(speakers, l);
      var b :| b in speakers && l in b;
      MemberFlatten(Blocks(lines), b, l);
      BlocksPartition(lines);
    }
  }

  /** Re-reading: after a read without error, the frames forwarded to a translated protocol (all but
      the end marker), put together and closed with an end marker, read again as the same payloads,
      provided no scanned line ends in a carriage return. */
  lemma Reread(w: World, w2: World, body: string, readFails: bool)
    requires ReadBody(w, body, readFails).outcome == Finished
    requires w2.shape == w.shape && Hospitable(w2)
    requires forall l <- ScanLines(body).lines :: l == "" || l[|l| - 1] != '\r'
    ensures var calls := ReadBody(w, body, readFails).calls;
            && calls != []
            && var forwarded := calls[..|calls| - 1];
               var again := ReadBody(w2, Frames(forwarded) + "data: [DONE]\n\n", false);
               again.outcome == Finished && Payloads(again.calls) == Payloads(forwarded) + ["[DONE]"]
  {
    hide Interpret, Blocks, ScanLines, Speakers, Events, Flatten, Plain, Hospitable, RawFrame, Payload, Payloads, Frame;
    var lines, scanFailed := ScanLines(body).lines, ScanLines(body).tooLong || readFails;
    ScannedLines(body);
    var blocks := Blocks(lines);
    var n := FinishedCalls(w, blocks, scanFailed);
    var passed := blocks[..n];
    CleanIsPlain(w, lines, scanFailed, n);
    SpeakersSay(w.shape, passed);
    SpeakersScannable(w.shape, lines, n);
    RereadSpeakers(w2, Speakers(w.shape, passed));
    Sequences.DropLast(Events(w.shape, passed), Event(RawFrame(blocks[n]), Payload(blocks[n])));
  }

  lemma AllLfFits(lines: seq<string>)
    requires forall l <- lines :: Scannable(l)
    ensures Fits(lines, AllLf(|lines|))
  {
  }

  lemma RereadSpeakers(w: World, speakers: seq<seq<string>>)
    requires Hospitable(w) && forall b <- speakers :: Plain(w.shape, b)
    requires forall l <- Flatten(speakers) :: Scannable(l)
    ensures var again := ReadBody(w, Frame(Flatten(speakers)) + "data: [DONE]\n\n", false);
            again.outcome == Finished && Payloads(again.calls) == Payloads(Events(w.shape, speakers)) + ["[DONE]"]
  {
    var all := Flatten(speakers) + MARKER_BLOCK;
    MarkerBlock();
    MarkerFrame();
    FrameAppend(Flatten(speakers), MARKER_BLOCK);
    FrameIsEncoding(all);
    AllLfFits(all);
    Sequences.Unit(Encode(all, AllLf(|all|)));
    PlainBody(w, speakers, MARKER_BLOCK, AllLf(|all|), "", false);
  }
}
