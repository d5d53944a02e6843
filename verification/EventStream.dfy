/** The reader of upstream server-sent events: `readNativeSSE`.  It follows sections 9.2.5 and 9.2.6 of
    the WHATWG HTML Living Standard except, among others, that only LF or CRLF ends a line, a leading
    byte order mark stays, a `data` line without a colon is no data, an event without any data bytes is
    not dispatched, an unterminated last event is, and `[DONE]` ends the stream. */
module EventStream {
  import opened Text
  import opened LineScanner
  import Sequences

  datatype Event = Event(frame: string, payload: string)

  datatype Reason =
    | EventTooLong
    | InvalidJson
    | UpstreamError
    | EmitFailed
    | ScanFailed
    | EndedEarly

  datatype Outcome = Finished | Failed(reason: Reason)

  /** The two things the reader calls and cannot see into.  `shape` gives the top-level keys of a
      payload that decodes into an object (`null` has none).  `accept` says whether the emit
      callback succeeds on the last event of a history, which covers every callback. */
  datatype World = World(shape: string -> Option<set<string>>, accept: seq<Event> -> bool)

  /** The calls made to emit, including one that failed, and the error returned. */
  datatype Reading = Reading(calls: seq<Event>, outcome: Outcome)

  // ----- blocks: the lines of one event -----

  function FirstBlank(lines: seq<string>): (n: nat)
    ensures n <= |lines|
    ensures forall j :: 0 <= j < n ==> lines[j] != ""
    ensures n < |lines| ==> lines[n] == ""
  {
    if lines == [] || lines[0] == "" then 0 else 1 + FirstBlank(lines[1..])
  }

  /** Cuts the lines behind every blank line. */
  function Blocks(lines: seq<string>): seq<seq<string>> {
    if lines == [] then []
    else
      var n := FirstBlank(lines);
      if n == |lines| then [lines] else [lines[..n + 1]] + Blocks(lines[n + 1..])
  }

  /** Non-blank lines and then one blank line. */
  predicate Closed(block: seq<string>) {
    && block != []
    && block[|block| - 1] == ""
    && forall j :: 0 <= j < |block| - 1 ==> block[j] != ""
  }

  function Flatten(blocks: seq<seq<string>>): seq<string> {
    if blocks == [] then [] else blocks[0] + Flatten(blocks[1..])
  }

  lemma BlocksAtBlank(lines: seq<string>, n: nat)
    requires n < |lines| && lines[n] == ""
    requires forall j :: 0 <= j < n ==> lines[j] != ""
    ensures Blocks(lines) == [lines[..n + 1]] + Blocks(lines[n + 1..])
  {
    assert FirstBlank(lines) == n;
  }

  lemma BlocksUnclosed(lines: seq<string>)
    requires lines != [] && forall j :: 0 <= j < |lines| ==> lines[j] != ""
    ensures Blocks(lines) == [lines]
  {
    assert FirstBlank(lines) == |lines|;
  }

  /** The blocks are the input itself, cut into consecutive pieces. */
  lemma {:induction false} BlocksPartition(lines: seq<string>)
    ensures Flatten(Blocks(lines)) == lines
  {
    var n := FirstBlank(lines);
    if n < |lines| {
      var block, rest := lines[..n + 1], lines[n + 1..];
      BlocksPartition(rest);
      FlattenCons(block, Blocks(rest));
      assert lines == block + rest;
    } else if lines != [] {
      FlattenCons(lines, []);
      assert lines + [] == lines;
    }
  }

  lemma FlattenCons(block: seq<string>, blocks: seq<seq<string>>)
    ensures Flatten([block] + blocks) == block + Flatten(blocks)
  {
    assert ([block] + blocks)[0] == block && ([block] + blocks)[1..] == blocks;
  }

  /** Every block but the last is closed, and blank lines occur only at the end of a block. */
  lemma {:induction false} BlocksClosed(lines: seq<string>, i: nat)
    requires i < |Blocks(lines)|
    ensures i < |Blocks(lines)| - 1 ==> Closed(Blocks(lines)[i])
    ensures Closed(Blocks(lines)[i]) || (Blocks(lines)[i] != [] && "" !in Blocks(lines)[i])
  {
    var n := FirstBlank(lines);
    if n < |lines| {
      var block, rest := lines[..n + 1], lines[n + 1..];
      assert Closed(block);
      BlocksAtBlank(lines, n);
      if i > 0 {
        BlocksClosed(rest, i - 1);
        assert Blocks(lines)[i] == Blocks(rest)[i - 1];
      }
    }
  }

  lemma {:induction false} BlocksOfClosed(blocks: seq<seq<string>>, rest: seq<string>)
    requires forall b <- blocks :: Closed(b)
    ensures Blocks(Flatten(blocks) + rest) == blocks + Blocks(rest)
  {
    if blocks == [] {
      assert Flatten(blocks) + rest == rest;
    } else {
      var b, tail := blocks[0], blocks[1..];
      assert Closed(b);
      calc {
        Blocks(Flatten(blocks) + rest);
        { assert Flatten(blocks) + rest == b + (Flatten(tail) + rest); }
        Blocks(b + (Flatten(tail) + rest));
        { BlocksOfOne(b, Flatten(tail) + rest); }
        [b] + Blocks(Flatten(tail) + rest);
        { BlocksOfClosed(tail, rest); }
        [b] + (tail + Blocks(rest));
        { assert [b] + (tail + Blocks(rest)) == ([b] + tail) + Blocks(rest); assert [b] + tail == blocks; }
        blocks + Blocks(rest);
      }
    }
  }

  lemma BlocksOfOne(block: seq<string>, rest: seq<string>)
    requires Closed(block)
    ensures Blocks(block + rest) == [block] + Blocks(rest)
  {
    BlocksAtBlank(block + rest, |block| - 1);
    assert (block + rest)[..|block|] == block && (block + rest)[|block|..] == rest;
  }

  // ----- frame and payload of a block -----

  /** Every line followed by a line feed: what the frame buffer holds after these lines. */
  function Frame(lines: seq<string>): string {
    if lines == [] then "" else lines[0] + "\n" + Frame(lines[1..])
  }

  /** The frame handed to emit: an unterminated last block gets its blank line. */
  function RawFrame(block: seq<string>): string {
    if Closed(block) then Frame(block) else Frame(block) + "\n"
  }

  /** The data carried by one line: without the field name and at most one space. */
  function DataOfLine(line: string): seq<string> {
    if HasPrefix(line, "data:") then [TrimPrefix(TrimPrefix(line, "data:"), " ")] else []
  }

  function DataLines(lines: seq<string>): seq<string> {
    if lines == [] then [] else DataOfLine(lines[0]) + DataLines(lines[1..])
  }

  function Payload(lines: seq<string>): string {
    Join(DataLines(lines), "\n")
  }

  lemma {:induction false} FrameAppend(a: seq<string>, b: seq<string>)
    ensures Frame(a + b) == Frame(a) + Frame(b)
  {
    if a == [] {
      Sequences.Unit(b);
    } else {
      Sequences.AppendTail(a, b);
      FrameAppend(a[1..], b);
      Sequences.Assoc(a[0] + "\n", Frame(a[1..]), Frame(b));
    }
  }

  lemma {:induction false} DataLinesAppend(a: seq<string>, b: seq<string>)
    ensures DataLines(a + b) == DataLines(a) + DataLines(b)
  {
    if a == [] {
      Sequences.Unit(b);
    } else {
      Sequences.AppendTail(a, b);
      DataLinesAppend(a[1..], b);
      Sequences.Assoc(DataOfLine(a[0]), DataLines(a[1..]), DataLines(b));
    }
  }

  /** Some line did not fit when it was about to be added to the frame. */
  predicate Oversize(block: seq<string>) {
    exists j :: 0 <= j < |block| && |Frame(block[..j])| + |block[j]| > LIMIT
  }

  datatype Verdict = Silent | Broken(reason: Reason) | Deliver(event: Event, last: bool)

  /** What a complete event is: nothing to say, an error, or something to emit. */
  function Judge(shape: string -> Option<set<string>>, frame: string, payload: string): Verdict {
    if payload == "" then Silent
    else if TrimSpace(payload) == "[DONE]" then Deliver(Event(frame, payload), true)
    else
      match shape(payload)
      case None => Broken(InvalidJson)
      case Some(keys) =>
        if "error" in keys then Broken(UpstreamError) else Deliver(Event(frame, payload), false)
  }

  function JudgeBlock(shape: string -> Option<set<string>>, block: seq<string>): Verdict {
    Judge(shape, RawFrame(block), Payload(block))
  }

  // ----- the reference reader: one block at a time -----

  /** The calls made so far, and the outcome if reading stops here. */
  datatype Step = Go(calls: seq<Event>) | Halt(calls: seq<Event>, outcome: Outcome)

  function Act(w: World, verdict: Verdict, calls: seq<Event>): Step {
    match verdict
    case Silent => Go(calls)
    case Broken(reason) => Halt(calls, Failed(reason))
    case Deliver(event, last) =>
      if !w.accept(calls + [event]) then Halt(calls + [event], Failed(EmitFailed))
      else if last then Halt(calls + [event], Finished)
      else Go(calls + [event])
  }

  function StepBlock(w: World, block: seq<string>, scanFailed: bool, calls: seq<Event>): Step {
    if Oversize(block) then Halt(calls, Failed(EventTooLong))
    else if !Closed(block) && scanFailed then Halt(calls, Failed(ScanFailed))
    else Act(w, JudgeBlock(w.shape, block), calls)
  }

  function Interpret(w: World, blocks: seq<seq<string>>, scanFailed: bool, calls: seq<Event>): Reading {
    if blocks == [] then
      Reading(calls, Failed(if scanFailed then ScanFailed else EndedEarly))
    else
      var step := StepBlock(w, blocks[0], scanFailed, calls);
      if step.Halt? then Reading(step.calls, step.outcome)
      else Interpret(w, blocks[1..], scanFailed, step.calls)
  }

  /** `readNativeSSE` over a body whose reader may fail behind its last byte. */
  function ReadBody(w: World, body: string, readFails: bool): Reading {
    var scan := ScanLines(body);
    Interpret(w, Blocks(scan.lines), scan.tooLong || readFails, [])
  }

  lemma InterpretStep(w: World, block: seq<string>, rest: seq<seq<string>>, scanFailed: bool, calls: seq<Event>)
    ensures var step := StepBlock(w, block, scanFailed, calls);
            Interpret(w, [block] + rest, scanFailed, calls)
            == if step.Halt? then Reading(step.calls, step.outcome)
               else Interpret(w, rest, scanFailed, step.calls)
  {
    var blocks := [block] + rest;
    assert blocks[0] == block && blocks[1..] == rest;
  }

  // ----- the reader itself: one line at a time -----

  /** The `flush` closure.  The caller resets the frame and the data lines. */
  method Flush(w: World, frame: string, data: seq<string>, before: seq<Event>)
    returns (calls: seq<Event>, done: bool, failure: Option<Reason>)
    requires frame != ""
    ensures var step := Act(w, Judge(w.shape, frame, Join(data, "\n")), before);
            && calls == step.calls
            && (failure.Some? <==> step.Halt? && step.outcome != Finished)
            && (failure.Some? ==> step.outcome == Failed(failure.value))
            && (failure.None? ==> (done <==> step.Halt?))
  {
    calls, done, failure := before, false, None;
    var payload := Join(data, "\n");
    if |payload| == 0 {
      return;
    }
    if TrimSpace(payload) == "[DONE]" {
      done := true;
    } else {
      match w.shape(payload) {
        case None =>
          failure := Some(InvalidJson);
          return;
        case Some(keys) =>
          if "error" in keys {
            failure := Some(UpstreamError);
            return;
          }
      }
    }
    calls := calls + [Event(frame, payload)];
    if !w.accept(calls) {
      failure := Some(EmitFailed);
    }
  }

  /** The loop state: the frame and the data lines are those of the open block. */
  ghost predicate Pending(open: seq<string>, frame: string, data: seq<string>) {
    && "" !in open
    && frame == Frame(open)
    && data == DataLines(open)
    && !Oversize(open)
  }

  /** `readNativeSSE`, over the lines that the scanner yields before it stops; `scanFailed` says
      that it stopped on an error.  The line machine does exactly what the block reader says. */
  method ReadNativeSse(w: World, lines: seq<string>, scanFailed: bool)
    returns (calls: seq<Event>, outcome: Outcome)
    ensures Reading(calls, outcome) == Interpret(w, Blocks(lines), scanFailed, [])
  {
    calls := [];
    var frame: string, data: seq<string>, done := "", [], false;
    ghost var open: seq<string> := [];
    ghost var target := Interpret(w, Blocks(lines), scanFailed, []);
    Sequences.Ends(lines);
    Sequences.Unit(lines);
    for i := 0 to |lines|
      invariant Pending(open, frame, data) && !done
      invariant Interpret(w, Blocks(open + lines[i..]), scanFailed, calls) == target
    {
      var line := lines[i];
      Sequences.SplitAt(lines, i);
      if |frame| + |line| > LIMIT {
        OverflowStops(w, open, line, lines[i + 1..], scanFailed, calls);
        return calls, Failed(EventTooLong);
      }
      AddLine(open, line, frame, data);
      frame := frame + line + "\n";
      if line == "" {
        CloseBlock(w, open, lines[i + 1..], scanFailed, calls);
        var failure;
        calls, done, failure := Flush(w, frame, data, calls);
        if failure.Some? {
          return calls, Failed(failure.value);
        }
        if done {
          return calls, Finished;
        }
        frame, data, open := "", [], [];
        Sequences.Unit(lines[i + 1..]);
      } else {
        if HasPrefix(line, "data:") {
          data := data + [TrimPrefix(TrimPrefix(line, "data:"), " ")];
        }
        Sequences.Assoc(open, [line], lines[i + 1..]);
        open := open + [line];
      }
    }
    Sequences.Unit(open);
    EndOfLines(w, open, scanFailed, calls);
    if scanFailed {
      return calls, Failed(ScanFailed);
    }
    if |frame| > 0 {
      frame := frame + "\n";
      var failure;
      calls, done, failure := Flush(w, frame, data, calls);
      if failure.Some? {
        return calls, Failed(failure.value);
      }
    }
    if !done {
      return calls, Failed(EndedEarly);
    }
    outcome := Finished;
  }

  lemma AddLine(open: seq<string>, line: string, frame: string, data: seq<string>)
    requires Pending(open, frame, data) && |frame| + |line| <= LIMIT
    ensures Frame(open + [line]) == frame + line + "\n"
    ensures DataLines(open + [line]) == if HasPrefix(line, "data:") then data + DataOfLine(line) else data
    ensures !Oversize(open + [line])
  {
    Sequences.Unit(data);
    assert [line][1..] == [];
    FrameAppend(open, [line]);
    DataLinesAppend(open, [line]);
    var longer := open + [line];
    forall j | 0 <= j < |longer|
      ensures |Frame(longer[..j])| + |longer[j]| <= LIMIT
    {
      assert longer[..j] == open[..j];
    }
    assert open[..|open|] == open;
  }

  /** A blank line ends the open block: its frame is complete and the rest follows. */
  lemma CloseBlock(w: World, open: seq<string>, rest: seq<string>, scanFailed: bool, calls: seq<Event>)
    requires "" !in open && !Oversize(open + [""])
    ensures var block := open + [""];
            var step := Act(w, Judge(w.shape, Frame(block), Payload(block)), calls);
            Interpret(w, Blocks(open + ([""] + rest)), scanFailed, calls)
            == if step.Halt? then Reading(step.calls, step.outcome)
               else Interpret(w, Blocks(rest), scanFailed, step.calls)
  {
    var block := open + [""];
    assert open + ([""] + rest) == block + rest;
    BlocksOfOne(block, rest);
    InterpretStep(w, block, Blocks(rest), scanFailed, calls);
  }

  /** The lines are over: an open block counts only when the scanner did not fail. */
  lemma EndOfLines(w: World, open: seq<string>, scanFailed: bool, calls: seq<Event>)
    requires "" !in open && !Oversize(open)
    ensures scanFailed ==> Interpret(w, Blocks(open), true, calls) == Reading(calls, Failed(ScanFailed))
    ensures !scanFailed && open == [] ==> Interpret(w, Blocks(open), false, calls) == Reading(calls, Failed(EndedEarly))
    ensures !scanFailed && open != [] ==>
              var step := Act(w, Judge(w.shape, Frame(open) + "\n", Payload(open)), calls);
              Interpret(w, Blocks(open), false, calls)
              == if step.Halt? then Reading(step.calls, step.outcome) else Reading(step.calls, Failed(EndedEarly))
  {
    if open != [] {
      BlocksUnclosed(open);
      InterpretStep(w, open, [], scanFailed, calls);
    }
  }

  lemma OverflowStops(w: World, open: seq<string>, line: string, rest: seq<string>, scanFailed: bool, calls: seq<Event>)
    requires "" !in open && |Frame(open)| + |line| > LIMIT
    ensures Interpret(w, Blocks(open + ([line] + rest)), scanFailed, calls) == Reading(calls, Failed(EventTooLong))
  {
    var lines := open + ([line] + rest);
    var block := Blocks(lines)[0];
    var n := FirstBlank(lines);
    assert n >= |open|;
    assert block == lines || block == lines[..n + 1];
    assert block[..|open|] == open && block[|open|] == line;
    assert Oversize(block);
  }
}
