/** What every read of an event stream keeps: soundness, the round trip of printed payloads,
    re-reading of emitted frames, and the size bounds. */
module EventStreamTheorems {
  import opened Text
  import opened EventStream
  import opened LineScanner
  import Sequences

  // ----- soundness -----

  /** What one block says when nothing is wrong with it. */
  function Spoken(shape: string -> Option<set<string>>, block: seq<string>): seq<Event> {
    var verdict := JudgeBlock(shape, block);
    if verdict.Deliver? then [verdict.event] else []
  }

  function Events(shape: string -> Option<set<string>>, blocks: seq<seq<string>>): seq<Event> {
    if blocks == [] then [] else Spoken(shape, blocks[0]) + Events(shape, blocks[1..])
  }

  lemma {:induction false} EventsAppend(shape: string -> Option<set<string>>, a: seq<seq<string>>, b: seq<seq<string>>)
    ensures Events(shape, a + b) == Events(shape, a) + Events(shape, b)
  {
    if a == [] {
      Sequences.Unit(b);
      Sequences.Unit(Events(shape, b));
    } else {
      Sequences.AppendTail(a, b);
      EventsAppend(shape, a[1..], b);
      Sequences.Assoc(Spoken(shape, a[0]), Events(shape, a[1..]), Events(shape, b));
    }
  }

  lemma EventsSnoc(shape: string -> Option<set<string>>, blocks: seq<seq<string>>, n: nat)
    requires n < |blocks|
    ensures Events(shape, blocks[..n + 1]) == Events(shape, blocks[..n]) + Spoken(shape, blocks[n])
  {
    Sequences.TakeSnoc(blocks, n);
    EventsAppend(shape, blocks[..n], [blocks[n]]);
    Sequences.ConsTail(blocks[n], []);
    Sequences.Unit(Spoken(shape, blocks[n]));
  }

  /** A whole event that is not too long, valid, and not the end marker; emit took it. */
  ghost predicate Passes(w: World, blocks: seq<seq<string>>, scanFailed: bool, i: nat)
    requires i < |blocks|
  {
    && !Oversize(blocks[i])
    && (Closed(blocks[i]) || !scanFailed)
    && match JudgeBlock(w.shape, blocks[i])
       case Silent => true
       case Broken(_) => false
       case Deliver(event, last) => !last && w.accept(Events(w.shape, blocks[..i]) + [event])
  }

  /** The first `n` blocks pass. */
  ghost predicate Clean(w: World, blocks: seq<seq<string>>, scanFailed: bool, n: nat)
    requires n <= |blocks|
  {
    forall i :: 0 <= i < n ==> Passes(w, blocks, scanFailed, i)
  }

  /** The reading stops at block `n`, or at the end of the input when `n` is the block count. */
  ghost predicate StopsAt(w: World, blocks: seq<seq<string>>, scanFailed: bool, n: nat, r: Reading)
    requires n <= |blocks|
  {
    var before := Events(w.shape, blocks[..n]);
    if n == |blocks| then
      r == Reading(before, Failed(if scanFailed then ScanFailed else EndedEarly))
    else
      var step := StepBlock(w, blocks[n], scanFailed, before);
      step.Halt? && r == Reading(step.calls, step.outcome)
  }

  lemma {:induction false} TraceFrom(w: World, blocks: seq<seq<string>>, scanFailed: bool, k: nat) returns (n: nat)
    requires k <= |blocks| && Clean(w, blocks, scanFailed, k)
    requires Interpret(w, blocks, scanFailed, [])
          == Interpret(w, blocks[k..], scanFailed, Events(w.shape, blocks[..k]))
    ensures n <= |blocks| && Clean(w, blocks, scanFailed, n)
    ensures StopsAt(w, blocks, scanFailed, n, Interpret(w, blocks, scanFailed, []))
    decreases |blocks| - k
  {
    if k == |blocks| {
      return k;
    }
    var before := Events(w.shape, blocks[..k]);
    Sequences.SplitAt(blocks, k);
    InterpretStep(w, blocks[k], blocks[k + 1..], scanFailed, before);
    if StepBlock(w, blocks[k], scanFailed, before).Halt? {
      return k;
    }
    EventsSnoc(w.shape, blocks, k);
    Sequences.Unit(before);
    assert Passes(w, blocks, scanFailed, k);
    n := TraceFrom(w, blocks, scanFailed, k + 1);
  }

  /** Soundness: reading runs through the blocks in order, each emitted event is the frame and the
      data of its own block, and nothing is emitted once a block stops the reading. */
  lemma Trace(w: World, blocks: seq<seq<string>>, scanFailed: bool) returns (n: nat)
    ensures n <= |blocks| && Clean(w, blocks, scanFailed, n)
    ensures StopsAt(w, blocks, scanFailed, n, Interpret(w, blocks, scanFailed, []))
  {
    Sequences.Ends(blocks);
    assert blocks[..0] == [];
    n := TraceFrom(w, blocks, scanFailed, 0);
  }

  /** The block that ends a stream well: the end marker, complete or unterminated at a clean end
      of input, that fits and that emit takes. */
  ghost predicate EndsWell(w: World, blocks: seq<seq<string>>, scanFailed: bool, n: nat)
    requires n < |blocks|
  {
    && !Oversize(blocks[n])
    && (Closed(blocks[n]) || !scanFailed)
    && TrimSpace(Payload(blocks[n])) == "[DONE]"
    && w.accept(Events(w.shape, blocks[..n]) + [Event(RawFrame(blocks[n]), Payload(blocks[n]))])
  }

  lemma DoneIsDelivered(shape: string -> Option<set<string>>, block: seq<string>)
    ensures TrimSpace(Payload(block)) == "[DONE]"
       <==> JudgeBlock(shape, block) == Deliver(Event(RawFrame(block), Payload(block)), true)
    ensures JudgeBlock(shape, block).Deliver? ==>
              && JudgeBlock(shape, block).event == Event(RawFrame(block), Payload(block))
              && Payload(block) != ""
              && (JudgeBlock(shape, block).last <==> TrimSpace(Payload(block)) == "[DONE]")
  {
    if Payload(block) == "" {
      TrimSpaceFixes("");
    }
  }

  lemma PassGoesOn(w: World, blocks: seq<seq<string>>, scanFailed: bool, i: nat)
    requires i < |blocks| && Passes(w, blocks, scanFailed, i)
    ensures Interpret(w, blocks[i..], scanFailed, Events(w.shape, blocks[..i]))
         == Interpret(w, blocks[i + 1..], scanFailed, Events(w.shape, blocks[..i + 1]))
  {
    var before := Events(w.shape, blocks[..i]);
    EventsSnoc(w.shape, blocks, i);
    Sequences.Unit(before);
    Sequences.SplitAt(blocks, i);
    InterpretStep(w, blocks[i], blocks[i + 1..], scanFailed, before);
  }

  lemma {:induction false} CleanGoesOn(w: World, blocks: seq<seq<string>>, scanFailed: bool, n: nat)
    requires n <= |blocks| && Clean(w, blocks, scanFailed, n)
    ensures Interpret(w, blocks, scanFailed, [])
         == Interpret(w, blocks[n..], scanFailed, Events(w.shape, blocks[..n]))
  {
    if n == 0 {
      Sequences.Ends(blocks);
    } else {
      CleanShorter(w, blocks, scanFailed, n - 1);
      CleanGoesOn(w, blocks, scanFailed, n - 1);
      PassGoesOn(w, blocks, scanFailed, n - 1);
    }
  }

  lemma CleanShorter(w: World, blocks: seq<seq<string>>, scanFailed: bool, n: nat)
    requires n < |blocks| && Clean(w, blocks, scanFailed, n + 1)
    ensures Clean(w, blocks, scanFailed, n) && Passes(w, blocks, scanFailed, n)
  {
  }

  lemma StopsThere(w: World, blocks: seq<seq<string>>, scanFailed: bool, n: nat)
    requires n < |blocks| && Clean(w, blocks, scanFailed, n) && EndsWell(w, blocks, scanFailed, n)
    ensures Interpret(w, blocks, scanFailed, [])
         == Reading(Events(w.shape, blocks[..n]) + [Event(RawFrame(blocks[n]), Payload(blocks[n]))], Finished)
  {
    CleanGoesOn(w, blocks, scanFailed, n);
    DoneIsDelivered(w.shape, blocks[n]);
    Sequences.SplitAt(blocks, n);
    InterpretStep(w, blocks[n], blocks[n + 1..], scanFailed, Events(w.shape, blocks[..n]));
  }

  /** No error is returned exactly when the end marker is dispatched behind clean blocks only. */
  lemma FinishedIff(w: World, blocks: seq<seq<string>>, scanFailed: bool)
    ensures Interpret(w, blocks, scanFailed, []).outcome == Finished
       <==> exists n :: 0 <= n < |blocks| && Clean(w, blocks, scanFailed, n) && EndsWell(w, blocks, scanFailed, n)
  {
    if Interpret(w, blocks, scanFailed, []).outcome == Finished {
      var n := Trace(w, blocks, scanFailed);
      DoneIsDelivered(w.shape, blocks[n]);
      assert EndsWell(w, blocks, scanFailed, n);
    }
    if n :| 0 <= n < |blocks| && Clean(w, blocks, scanFailed, n) && EndsWell(w, blocks, scanFailed, n) {
      StopsThere(w, blocks, scanFailed, n);
    }
  }

  ghost predicate Ordinary(event: Event) {
    event.payload != "" && TrimSpace(event.payload) != "[DONE]"
  }

  lemma PassedIsOrdinary(w: World, blocks: seq<seq<string>>, scanFailed: bool, i: nat)
    requires i < |blocks| && Passes(w, blocks, scanFailed, i)
    ensures forall e <- Spoken(w.shape, blocks[i]) :: Ordinary(e)
  {
    DoneIsDelivered(w.shape, blocks[i]);
  }

  /** Events of passing blocks are never the end marker. */
  lemma {:induction false} CleanEventsAreNotDone(w: World, blocks: seq<seq<string>>, scanFailed: bool, n: nat)
    requires n <= |blocks| && Clean(w, blocks, scanFailed, n)
    ensures forall e <- Events(w.shape, blocks[..n]) :: Ordinary(e)
  {
    if n > 0 {
      CleanEventsAreNotDone(w, blocks, scanFailed, n - 1);
      PassedIsOrdinary(w, blocks, scanFailed, n - 1);
      EventsSnoc(w.shape, blocks, n - 1);
    } else {
      assert blocks[..0] == [];
    }
  }

  /** A read without error: the calls before the last are the events of the blocks in front of the
      one that ended the stream. */
  lemma FinishedCalls(w: World, blocks: seq<seq<string>>, scanFailed: bool) returns (n: nat)
    requires Interpret(w, blocks, scanFailed, []).outcome == Finished
    ensures n < |blocks| && Clean(w, blocks, scanFailed, n) && EndsWell(w, blocks, scanFailed, n)
    ensures Interpret(w, blocks, scanFailed, []).calls
         == Events(w.shape, blocks[..n]) + [Event(RawFrame(blocks[n]), Payload(blocks[n]))]
  {
    FinishedIff(w, blocks, scanFailed);
    n :| 0 <= n < |blocks| && Clean(w, blocks, scanFailed, n) && EndsWell(w, blocks, scanFailed, n);
    StopsThere(w, blocks, scanFailed, n);
  }

  /** Only the very last call to emit can carry the end marker, and a read that returns no error
      made that call. */
  lemma DoneComesLast(w: World, blocks: seq<seq<string>>, scanFailed: bool)
    ensures var r := Interpret(w, blocks, scanFailed, []);
            && (forall i :: 0 <= i < |r.calls| - 1 ==> Ordinary(r.calls[i]))
            && (r.outcome == Finished ==> r.calls != [] && TrimSpace(r.calls[|r.calls| - 1].payload) == "[DONE]")
  {
    var r := Interpret(w, blocks, scanFailed, []);
    var n := Trace(w, blocks, scanFailed);
    CleanEventsAreNotDone(w, blocks, scanFailed, n);
    CallsAtStop(w, blocks, scanFailed, n, r);
    if r.outcome == Finished {
      var m := FinishedCalls(w, blocks, scanFailed);
    }
  }

  lemma SamePrefixIsClean(w: World, a: seq<seq<string>>, b: seq<seq<string>>, scanFailed: bool, n: nat)
    requires n <= |a| && n <= |b| && a[..n] == b[..n] && Clean(w, a, true, n)
    ensures Clean(w, b, scanFailed, n)
  {
    forall i | 0 <= i < n
      ensures Passes(w, b, scanFailed, i)
    {
      assert Passes(w, a, true, i);
      assert a[i] == a[..n][i] && b[i] == b[..n][i];
      assert a[..i] == a[..n][..i] && b[..i] == b[..n][..i];
    }
  }

  /** Whatever follows the terminated end marker is not looked at: neither other lines nor a failure
      of the scanner changes a finished reading. */
  lemma NothingReadAfterDone(w: World, blocks: seq<seq<string>>, n: nat, more: seq<seq<string>>, scanFailed: bool)
    requires n < |blocks| && Clean(w, blocks, true, n) && EndsWell(w, blocks, true, n)
    ensures Interpret(w, blocks[..n + 1] + more, scanFailed, []) == Interpret(w, blocks, true, [])
  {
    var other := blocks[..n + 1] + more;
    assert other[..n] == blocks[..n];
    SamePrefixIsClean(w, blocks, other, scanFailed, n);
    StopsThere(w, blocks, true, n);
    StopsThere(w, other, scanFailed, n);
  }

  // ----- what the callback decides -----

  /** Every history of calls that the callback was given before its last call was accepted, and all of
      them when the read did not fail. */
  lemma {:induction false} Accepted(w: World, blocks: seq<seq<string>>, scanFailed: bool, calls: seq<Event>, n: nat)
    requires |calls| < n <= |Interpret(w, blocks, scanFailed, calls).calls|
    ensures calls <= Interpret(w, blocks, scanFailed, calls).calls
    ensures var r := Interpret(w, blocks, scanFailed, calls);
            n < |r.calls| || r.outcome != Failed(EmitFailed) ==> w.accept(r.calls[..n])
    decreases |blocks|
  {
    hide Oversize, Closed, JudgeBlock;
    if blocks != [] {
      var step := StepBlock(w, blocks[0], scanFailed, calls);
      if step.Go? {
        OnlyGrows(w, blocks[1..], scanFailed, step.calls);
        if |step.calls| < n {
          Accepted(w, blocks[1..], scanFailed, step.calls, n);
        } else {
          assert Interpret(w, blocks, scanFailed, calls).calls[..n] == step.calls;
        }
      } else {
        Sequences.Ends(step.calls);
      }
    }
  }

  lemma {:induction false} OnlyGrows(w: World, blocks: seq<seq<string>>, scanFailed: bool, calls: seq<Event>)
    ensures calls <= Interpret(w, blocks, scanFailed, calls).calls
    decreases |blocks|
  {
    hide Oversize, Closed, JudgeBlock;
    if blocks != [] {
      var step := StepBlock(w, blocks[0], scanFailed, calls);
      if step.Go? {
        OnlyGrows(w, blocks[1..], scanFailed, step.calls);
      }
    }
  }

  /** When the read fails because of the callback, it was the last call that it refused. */
  lemma {:induction false} RefusedAtTheEnd(w: World, blocks: seq<seq<string>>, scanFailed: bool, calls: seq<Event>)
    ensures var r := Interpret(w, blocks, scanFailed, calls);
            r.outcome == Failed(EmitFailed) ==> |calls| < |r.calls| && !w.accept(r.calls)
    decreases |blocks|
  {
    hide Oversize, Closed, TrimSpace, RawFrame, Payload;
    if blocks != [] {
      var step := StepBlock(w, blocks[0], scanFailed, calls);
      if step.Go? {
        RefusedAtTheEnd(w, blocks[1..], scanFailed, step.calls);
      }
    }
  }

  /** Two callbacks decide the same on every history within these calls that is longer than `from`. */
  ghost predicate DecideAlike(v: World, w: World, calls: seq<Event>, from: nat) {
    forall n | from < n <= |calls| :: v.accept(calls[..n]) <==> w.accept(calls[..n])
  }

  /** Two callbacks that agree on the calls of a read make the same read. */
  lemma {:induction false} SameReading(v: World, w: World, blocks: seq<seq<string>>, scanFailed: bool,
                                        calls: seq<Event>)
    requires v.shape == w.shape
    requires DecideAlike(v, w, Interpret(v, blocks, scanFailed, calls).calls, |calls|)
    ensures Interpret(w, blocks, scanFailed, calls) == Interpret(v, blocks, scanFailed, calls)
    decreases |blocks|
  {
    hide Oversize, Closed, JudgeBlock;
    if blocks != [] {
      var step := StepBlock(v, blocks[0], scanFailed, calls);
      var r := Interpret(v, blocks, scanFailed, calls);
      if step.Go? {
        OnlyGrows(v, blocks[1..], scanFailed, step.calls);
      }
      assert r.calls[..|step.calls|] == step.calls;
      if step.Go? {
        assert r == Interpret(v, blocks[1..], scanFailed, step.calls) && |calls| <= |step.calls|;
        SameReading(v, w, blocks[1..], scanFailed, step.calls);
      }
    }
  }

  // ----- size bounds -----

  /** A frame takes at least the data with its field names and line ends. */
  lemma {:induction false} DataIsShorter(lines: seq<string>)
    ensures DataLines(lines) != [] ==>
              |Payload(lines)| + 5 * |DataLines(lines)| + 1 <= |Frame(lines)|
  {
    if lines != [] {
      var first, rest := DataOfLine(lines[0]), DataLines(lines[1..]);
      DataIsShorter(lines[1..]);
      if first != [] {
        Sequences.ConsTail(first[0], rest);
        assert |first[0]| + 5 <= |lines[0]|;
      } else {
        Sequences.Unit(rest);
      }
    }
  }

  /** The blank line adds one byte more. */
  lemma PayloadIsShorter(block: seq<string>)
    requires DataLines(block) != []
    ensures |Payload(block)| + 5 * |DataLines(block)| + 2 <= |RawFrame(block)|
  {
    if Closed(block) {
      var init := block[..|block| - 1];
      Sequences.TakeSnoc(block, |block| - 1);
      Sequences.Ends(block);
      DataLinesAppend(init, [""]);
      FrameAppend(init, [""]);
      Sequences.ConsTail("", []);
      Sequences.Unit(DataLines(init));
      DataIsShorter(init);
    } else {
      DataIsShorter(block);
    }
  }

  lemma FrameFits(block: seq<string>)
    requires block != [] && !Oversize(block)
    ensures |RawFrame(block)| <= LIMIT + 2
  {
    var n := |block| - 1;
    Sequences.TakeSnoc(block, n);
    Sequences.Ends(block);
    FrameAppend(block[..n], [block[n]]);
    Sequences.ConsTail(block[n], []);
    assert |Frame(block[..n])| + |block[n]| <= LIMIT;
  }

  /** An event of this block within the bounds: its frame is at most two bytes over 8 MiB, and the
      payload of `k` data lines is at least 5k + 2 bytes shorter than the frame. */
  ghost predicate BoundedFrom(event: Event, block: seq<string>) {
    && event == Event(RawFrame(block), Payload(block))
    && |event.frame| <= 8 * 1024 * 1024 + 2
    && DataLines(block) != []
    && |event.payload| + 5 * |DataLines(block)| + 2 <= |event.frame|
  }

  ghost predicate Bounded(blocks: seq<seq<string>>, event: Event) {
    exists b <- blocks :: BoundedFrom(event, b)
  }

  ghost predicate Sized(block: seq<string>) {
    block != [] && !Oversize(block)
  }

  lemma SpokenIsBounded(shape: string -> Option<set<string>>, block: seq<string>)
    requires Sized(block)
    ensures forall e <- Spoken(shape, block) :: BoundedFrom(e, block)
  {
    if JudgeBlock(shape, block).Deliver? {
      DoneIsDelivered(shape, block);
      assert DataLines(block) != [];
      PayloadIsShorter(block);
      FrameFits(block);
    }
  }

  lemma {:induction false} EventsAreBounded(shape: string -> Option<set<string>>, blocks: seq<seq<string>>)
    requires forall i :: 0 <= i < |blocks| ==> Sized(blocks[i])
    ensures forall e <- Events(shape, blocks) :: Bounded(blocks, e)
  {
    if blocks != [] {
      var tail := blocks[1..];
      SpokenIsBounded(shape, blocks[0]);
      EventsAreBounded(shape, tail);
      forall e | e in Events(shape, tail)
        ensures Bounded(blocks, e)
      {
        var b :| b in tail && BoundedFrom(e, b);
        assert b in blocks;
      }
    }
  }

  lemma PassedIsSized(w: World, lines: seq<string>, scanFailed: bool, i: nat)
    requires i < |Blocks(lines)| && Passes(w, Blocks(lines), scanFailed, i)
    ensures Sized(Blocks(lines)[i])
  {
    BlocksClosed(lines, i);
  }

  lemma PrefixIsBounded(w: World, lines: seq<string>, scanFailed: bool, n: nat)
    requires n <= |Blocks(lines)| && Clean(w, Blocks(lines), scanFailed, n)
    ensures forall e <- Events(w.shape, Blocks(lines)[..n]) :: Bounded(Blocks(lines), e)
  {
    var blocks, passed := Blocks(lines), Blocks(lines)[..n];
    forall i | 0 <= i < n
      ensures Sized(passed[i])
    {
      PassedIsSized(w, lines, scanFailed, i);
    }
    EventsAreBounded(w.shape, passed);
    forall e | e in Events(w.shape, passed)
      ensures Bounded(blocks, e)
    {
      var b :| b in passed && BoundedFrom(e, b);
      assert b in blocks;
    }
  }

  /** The block that stops the reading adds at most its own event. */
  lemma CallsAtStop(w: World, blocks: seq<seq<string>>, scanFailed: bool, n: nat, r: Reading)
    requires n <= |blocks| && StopsAt(w, blocks, scanFailed, n, r)
    ensures var before := Events(w.shape, blocks[..n]);
            || r.calls == before
            || (n < |blocks| && !Oversize(blocks[n]) && r.calls == before + Spoken(w.shape, blocks[n]))
  {
  }

  /** Every call to emit is within the bounds, whatever the input and however reading ends. */
  lemma EmittedIsBounded(w: World, lines: seq<string>, scanFailed: bool)
    ensures forall e <- Interpret(w, Blocks(lines), scanFailed, []).calls :: Bounded(Blocks(lines), e)
  {
    var blocks := Blocks(lines);
    var r := Interpret(w, blocks, scanFailed, []);
    var n := Trace(w, blocks, scanFailed);
    CallsAtStop(w, blocks, scanFailed, n, r);
    PrefixIsBounded(w, lines, scanFailed, n);
    var before := Events(w.shape, blocks[..n]);
    if r.calls != before {
      BlocksClosed(lines, n);
      SpokenIsBounded(w.shape, blocks[n]);
      forall e | e in r.calls
        ensures Bounded(blocks, e)
      {
        assert e in before || e in Spoken(w.shape, blocks[n]);
      }
    }
  }
}
