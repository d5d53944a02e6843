/** When the frames that were forwarded to a translated protocol read again as the same payloads: the
    exact condition on carriage returns, which the scanner drops a second time. */
module EventStreamReread {
  import opened Text
  import opened EventStream
  import opened EventStreamTheorems
  import opened EventStreamRoundTrip
  import opened LineScanner
  import Sequences

  // ----- scanning frames -----

  function DropCrs(lines: seq<string>): seq<string> {
    if lines == [] then [] else [DropCr(lines[0])] + DropCrs(lines[1..])
  }

  lemma {:induction false} DropCrsOfSum(a: seq<string>, b: seq<string>)
    ensures DropCrs(a + b) == DropCrs(a) + DropCrs(b)
  {
    hide DropCr;
    if a == [] {
      Sequences.Unit(b);
      Sequences.Unit(DropCrs(b));
    } else {
      Sequences.AppendTail(a, b);
      DropCrsOfSum(a[1..], b);
      Sequences.Assoc([DropCr(a[0])], DropCrs(a[1..]), DropCrs(b));
    }
  }

  /** The lines of a frame come back without the carriage return that each may still end in. */
  lemma {:induction false} ScanFrame(lines: seq<string>, tail: string)
    requires forall l <- lines :: '\n' !in l && |l| < LIMIT
    ensures ScanLines(Frame(lines) + tail) == Scan(DropCrs(lines) + ScanLines(tail).lines, ScanLines(tail).tooLong)
  {
    hide DropCr, ScanLines;
    if lines == [] {
      Sequences.Unit(tail);
      Sequences.Unit(ScanLines(tail).lines);
    } else {
      var rest := Frame(lines[1..]);
      ScanFrame(lines[1..], tail);
      Sequences.Assoc(lines[0] + "\n", rest, tail);
      ScanRaw(lines[0], rest + tail);
      Sequences.Assoc([DropCr(lines[0])], DropCrs(lines[1..]), ScanLines(tail).lines);
    }
  }

  // ----- the blocks of the second reading -----

  predicate Terminated(lines: seq<string>) {
    lines != [] && lines[|lines| - 1] == ""
  }

  lemma {:induction false} BlocksOfTerminated(lines: seq<string>, rest: seq<string>)
    requires Terminated(lines)
    ensures Blocks(lines + rest) == Blocks(lines) + Blocks(rest)
    ensures forall b <- Blocks(lines) :: Closed(b)
    decreases |lines|
  {
    var n := FirstBlank(lines);
    var block, tail := lines[..n + 1], lines[n + 1..];
    BlocksAtBlank(lines, n);
    assert Closed(block);
    assert lines == block + tail;
    Sequences.Assoc(block, tail, rest);
    BlocksOfOne(block, tail + rest);
    if tail == [] {
      Sequences.Unit(rest);
      Sequences.Unit([block]);
    } else {
      BlocksOfTerminated(tail, rest);
      Sequences.Assoc([block], Blocks(tail), Blocks(rest));
    }
  }

  lemma ClosedStaysTerminated(block: seq<string>)
    requires Closed(block)
    ensures Terminated(DropCrs(block))
  {
    hide DropCr;
    var init := block[..|block| - 1];
    assert block == init + [""];
    DropCrsOfSum(init, [""]);
    assert DropCrs([""]) == [""] by { Sequences.ConsTail("", []); EmptyLine(); }
  }

  lemma EmptyLine()
    ensures DropCr("") == "" && DropCrs([]) == []
  {
  }

  function RereadBlocks(blocks: seq<seq<string>>): seq<seq<string>> {
    if blocks == [] then [] else Blocks(DropCrs(blocks[0])) + RereadBlocks(blocks[1..])
  }

  /** Closed blocks are cut again each on its own: only a line of a lone carriage return cuts anew. */
  lemma {:induction false} CutAgain(blocks: seq<seq<string>>, rest: seq<string>)
    requires forall b <- blocks :: Closed(b)
    ensures Blocks(DropCrs(Flatten(blocks)) + rest) == RereadBlocks(blocks) + Blocks(rest)
    ensures forall b <- RereadBlocks(blocks) :: Closed(b)
  {
    hide Closed, DropCrs, Blocks;
    if blocks == [] {
      EmptyLine();
      Sequences.Unit(rest);
      Sequences.Unit(Blocks(rest));
    } else {
      var first, tail := DropCrs(blocks[0]), blocks[1..];
      CutAgain(tail, rest);
      DropCrsOfSum(blocks[0], Flatten(tail));
      ClosedStaysTerminated(blocks[0]);
      Sequences.Assoc(first, DropCrs(Flatten(tail)), rest);
      BlocksOfTerminated(first, DropCrs(Flatten(tail)) + rest);
      Sequences.Assoc(Blocks(first), RereadBlocks(tail), Blocks(rest));
    }
  }

  // ----- data and its weight -----

  lemma DataOfDropped(line: string)
    ensures DataOfLine(DropCr(line)) == DropCrs(DataOfLine(line))
  {
    if HasPrefix(line, "data:") {
      DataKeepsItsEnd(line);
      var data := TrimPrefix(TrimPrefix(line, "data:"), " ");
      Sequences.ConsTail(data, []);
      assert DropCrs([data]) == [DropCr(data)];
    } else if line != "" && line[|line| - 1] == '\r' {
      assert !HasPrefix(DropCr(line), "data:");
    }
  }

  lemma DataKeepsItsEnd(line: string)
    requires HasPrefix(line, "data:")
    ensures HasPrefix(DropCr(line), "data:")
    ensures TrimPrefix(TrimPrefix(DropCr(line), "data:"), " ") == DropCr(TrimPrefix(TrimPrefix(line, "data:"), " "))
  {
    var rest := line[5..];
    assert line == "data:" + rest && TrimPrefix(line, "data:") == rest;
    if rest != "" {
      assert line[|line| - 1] == rest[|rest| - 1];
    } else {
      assert line[|line| - 1] == ':';
    }
    assert DropCr(line) == "data:" + DropCr(rest);
    assert DropCr(line)[5..] == DropCr(rest);
    SpaceKeepsItsEnd(rest);
  }

  lemma SpaceKeepsItsEnd(rest: string)
    ensures TrimPrefix(DropCr(rest), " ") == DropCr(TrimPrefix(rest, " "))
  {
    if HasPrefix(rest, " ") && rest[|rest| - 1] == '\r' {
      var n := |rest| - 1;
      assert n > 0 && rest[1..][n - 1] == '\r';
      assert rest[..n][1..] == rest[1..][..n - 1];
    }
  }

  lemma {:induction false} DataOfDroppedLines(lines: seq<string>)
    ensures DataLines(DropCrs(lines)) == DropCrs(DataLines(lines))
  {
    hide DropCr, DataOfLine;
    if lines != [] {
      DataOfDroppedLines(lines[1..]);
      DataOfDropped(lines[0]);
      Sequences.ConsTail(DropCr(lines[0]), DropCrs(lines[1..]));
      DropCrsOfSum(DataOfLine(lines[0]), DataLines(lines[1..]));
    }
  }

  /** The bytes of some texts, with one more for each. */
  function Weight(texts: seq<string>): nat {
    if texts == [] then 0 else |texts[0]| + 1 + Weight(texts[1..])
  }

  lemma {:induction false} WeightOfSum(a: seq<string>, b: seq<string>)
    ensures Weight(a + b) == Weight(a) + Weight(b)
  {
    if a == [] {
      Sequences.Unit(b);
    } else {
      Sequences.AppendTail(a, b);
      WeightOfSum(a[1..], b);
    }
  }

  lemma {:induction false} JoinWeighs(texts: seq<string>)
    requires texts != []
    ensures |Join(texts, "\n")| + 1 == Weight(texts)
  {
    if |texts| > 1 {
      JoinWeighs(texts[1..]);
    }
  }

  lemma {:induction false} DroppingWeighs(texts: seq<string>)
    ensures Weight(DropCrs(texts)) <= Weight(texts)
    ensures Weight(DropCrs(texts)) == Weight(texts) ==> DropCrs(texts) == texts
  {
    if texts != [] {
      DroppingWeighs(texts[1..]);
      Sequences.ConsTail(DropCr(texts[0]), DropCrs(texts[1..]));
      Sequences.HeadTail(texts);
    }
  }

  predicate Carries(block: seq<string>) {
    DataLines(block) != []
  }

  /** How many blocks carry data. */
  function Carrying(blocks: seq<seq<string>>): nat {
    if blocks == [] then 0 else (if Carries(blocks[0]) then 1 else 0) + Carrying(blocks[1..])
  }

  lemma {:induction false} CarryingOfSum(a: seq<seq<string>>, b: seq<seq<string>>)
    ensures Carrying(a + b) == Carrying(a) + Carrying(b)
  {
    hide Carries;
    if a == [] {
      Sequences.Unit(b);
    } else {
      Sequences.AppendTail(a, b);
      CarryingOfSum(a[1..], b);
    }
  }

  lemma {:induction false} DataOfFlatten(blocks: seq<seq<string>>)
    ensures Carrying(blocks) == 0 <==> DataLines(Flatten(blocks)) == []
  {
    if blocks != [] {
      DataOfFlatten(blocks[1..]);
      DataLinesAppend(blocks[0], Flatten(blocks[1..]));
    }
  }

  /** Every data block that a reading does not deliver costs its weight: so payloads that weigh as much as
      the data are as many as the data blocks. */
  lemma {:induction false} CallsWeigh(w: World, blocks: seq<seq<string>>, scanFailed: bool, calls: seq<Event>)
    ensures var r := Interpret(w, blocks, scanFailed, calls);
            && |calls| <= |r.calls| <= |calls| + Carrying(blocks)
            && Weight(Payloads(r.calls)) + (Carrying(blocks) - (|r.calls| - |calls|))
               <= Weight(Payloads(calls)) + Weight(DataLines(Flatten(blocks)))
    decreases |blocks|
  {
    hide Oversize, Closed, JudgeBlock, Carries;
    if blocks != [] {
      var step := StepBlock(w, blocks[0], scanFailed, calls);
      StepWeighs(w, blocks[0], scanFailed, calls);
      DataLinesAppend(blocks[0], Flatten(blocks[1..]));
      WeightOfSum(DataLines(blocks[0]), DataLines(Flatten(blocks[1..])));
      if step.Go? {
        CallsWeigh(w, blocks[1..], scanFailed, step.calls);
      } else {
        CarryingWeighs(blocks[1..]);
      }
    }
  }

  lemma {:induction false} CarryingWeighs(blocks: seq<seq<string>>)
    ensures Carrying(blocks) <= Weight(DataLines(Flatten(blocks)))
  {
    if blocks != [] {
      CarryingWeighs(blocks[1..]);
      DataLinesAppend(blocks[0], Flatten(blocks[1..]));
      WeightOfSum(DataLines(blocks[0]), DataLines(Flatten(blocks[1..])));
    }
  }

  lemma StepWeighs(w: World, block: seq<string>, scanFailed: bool, calls: seq<Event>)
    ensures var step := StepBlock(w, block, scanFailed, calls);
            var carries := if Carries(block) then 1 else 0;
            && |calls| <= |step.calls| <= |calls| + carries
            && Weight(Payloads(step.calls)) + (carries - (|step.calls| - |calls|))
               <= Weight(Payloads(calls)) + Weight(DataLines(block))
  {
    hide Oversize, Closed, TrimSpace;
    var step := StepBlock(w, block, scanFailed, calls);
    if step.calls != calls {
      DoneIsDelivered(w.shape, block);
      var event := JudgeBlock(w.shape, block).event;
      assert Carries(block);
      JoinWeighs(DataLines(block));
      PayloadsAppend(calls, [event]);
      Sequences.ConsTail(event, []);
      assert Payloads([event]) == [event.payload];
      WeightOfSum(Payloads(calls), [event.payload]);
      assert Weight([event.payload]) == |event.payload| + 1 by { Sequences.ConsTail(event.payload, []); }
    }
  }

  // ----- sizes -----

  lemma OversizeIsLong(block: seq<string>)
    requires block != []
    ensures Oversize(block) <==> |Frame(block)| > LIMIT + 1
  {
    hide Frame;
    var n := |block| - 1;
    PrefixFrame(block, n);
    Sequences.Ends(block);
    if Oversize(block) {
      var j :| 0 <= j < |block| && |Frame(block[..j])| + |block[j]| > LIMIT;
      PrefixFrame(block, j);
      assert block == block[..j + 1] + block[j + 1..];
      FrameAppend(block[..j + 1], block[j + 1..]);
    }
  }

  lemma PrefixFrame(block: seq<string>, j: nat)
    requires j < |block|
    ensures |Frame(block[..j + 1])| == |Frame(block[..j])| + |block[j]| + 1
  {
    Sequences.TakeSnoc(block, j);
    FrameAppend(block[..j], [block[j]]);
    Sequences.ConsTail(block[j], []);
    assert Frame([block[j]]) == block[j] + "\n";
  }

  lemma {:induction false} DroppedIsShorter(lines: seq<string>)
    ensures |Frame(DropCrs(lines))| <= |Frame(lines)|
  {
    if lines != [] {
      DroppedIsShorter(lines[1..]);
      Sequences.ConsTail(DropCr(lines[0]), DropCrs(lines[1..]));
    }
  }

  lemma {:induction false} PieceIsShorter(blocks: seq<seq<string>>, piece: seq<string>)
    requires piece in blocks
    ensures |Frame(piece)| <= |Frame(Flatten(blocks))|
  {
    FrameAppend(blocks[0], Flatten(blocks[1..]));
    if piece != blocks[0] {
      assert piece in blocks[1..];
      PieceIsShorter(blocks[1..], piece);
    }
  }

  /** The pieces of a block that fits fit. */
  lemma PiecesFit(block: seq<string>, piece: seq<string>)
    requires Closed(block) && !Oversize(block) && piece in Blocks(DropCrs(block)) && piece != []
    ensures !Oversize(piece)
  {
    hide Oversize, Closed, Blocks, DropCrs;
    assert block != [] by { ClosedIsSome(block); }
    OversizeIsLong(block);
    OversizeIsLong(piece);
    DroppedIsShorter(block);
    BlocksPartition(DropCrs(block));
    PieceIsShorter(Blocks(DropCrs(block)), piece);
  }

  lemma ClosedIsSome(block: seq<string>)
    requires Closed(block)
    ensures block != []
  {
  }

  // ----- blocks that survive -----

  /** No data line ends in a carriage return, and no lone one stands between data lines. */
  predicate Survives(block: seq<string>) {
    DropCrs(DataLines(block)) == DataLines(block) && Carrying(Blocks(DropCrs(block))) == 1
  }

  ghost predicate Speaks(shape: string -> Option<set<string>>, block: seq<string>) {
    Closed(block) && !Oversize(block) && Acceptable(shape, Payload(block))
  }

  lemma AcceptableIsDelivered(shape: string -> Option<set<string>>, block: seq<string>)
    ensures Acceptable(shape, Payload(block)) <==> JudgeBlock(shape, block).Deliver? && !JudgeBlock(shape, block).last
    ensures Acceptable(shape, Payload(block)) ==> Spoken(shape, block) == [Event(RawFrame(block), Payload(block))]
    ensures Acceptable(shape, Payload(block)) ==> Carries(block)
    ensures !Carries(block) ==> JudgeBlock(shape, block).Silent? && Spoken(shape, block) == []
  {
    hide TrimSpace;
  }

  ghost predicate AllFit(pieces: seq<seq<string>>) {
    forall p <- pieces :: Closed(p) && !Oversize(p)
  }

  lemma {:induction false} NoneCarries(shape: string -> Option<set<string>>, pieces: seq<seq<string>>)
    requires AllFit(pieces) && Carrying(pieces) == 0
    ensures (forall p <- pieces :: Plain(shape, p)) && Events(shape, pieces) == []
  {
    hide Closed, Oversize, Carries, JudgeBlock, Spoken;
    if pieces != [] {
      NoneCarries(shape, pieces[1..]);
      AcceptableIsDelivered(shape, pieces[0]);
      Sequences.HeadTail(pieces);
    }
  }

  /** Of pieces of which one carries all the data, exactly that one speaks. */
  lemma {:induction false} OneCarries(shape: string -> Option<set<string>>, pieces: seq<seq<string>>)
    requires AllFit(pieces) && Carrying(pieces) == 1
    requires Acceptable(shape, Join(DataLines(Flatten(pieces)), "\n"))
    ensures forall p <- pieces :: Plain(shape, p)
    ensures Payloads(Events(shape, pieces)) == [Join(DataLines(Flatten(pieces)), "\n")]
  {
    hide Closed, Oversize, JudgeBlock, Spoken, Acceptable;
    var first, rest := pieces[0], pieces[1..];
    Sequences.HeadTail(pieces);
    DataLinesAppend(first, Flatten(rest));
    AcceptableIsDelivered(shape, first);
    if Carries(first) {
      DataOfFlatten(rest);
      Sequences.Unit(DataLines(first));
      NoneCarries(shape, rest);
      Sequences.Unit(Spoken(shape, first));
      assert Payloads([Event(RawFrame(first), Payload(first))]) == [Payload(first)] by {
        Sequences.ConsTail(Event(RawFrame(first), Payload(first)), []);
      }
    } else {
      Sequences.Unit(DataLines(Flatten(rest)));
      OneCarries(shape, rest);
      Sequences.Unit(Events(shape, rest));
    }
  }

  lemma PiecesAllFit(block: seq<string>)
    requires Closed(block) && !Oversize(block)
    ensures AllFit(Blocks(DropCrs(block)))
  {
    hide Oversize, Blocks, DropCrs;
    ClosedStaysTerminated(block);
    BlocksOfTerminated(DropCrs(block), []);
    forall p | p in Blocks(DropCrs(block))
      ensures Closed(p) && !Oversize(p)
    {
      PiecesFit(block, p);
    }
  }

  lemma SurvivorSays(shape: string -> Option<set<string>>, block: seq<string>)
    requires Speaks(shape, block) && Survives(block)
    ensures var pieces := Blocks(DropCrs(block));
            (forall p <- pieces :: Plain(shape, p)) && Payloads(Events(shape, pieces)) == [Payload(block)]
  {
    hide Closed, Oversize, Blocks, Plain, Acceptable;
    PiecesAllFit(block);
    BlocksPartition(DropCrs(block));
    DataOfDroppedLines(block);
    OneCarries(shape, Blocks(DropCrs(block)));
  }

  lemma {:induction false} SurvivorsSay(shape: string -> Option<set<string>>, blocks: seq<seq<string>>)
    requires forall b <- blocks :: Speaks(shape, b) && Survives(b)
    ensures forall p <- RereadBlocks(blocks) :: Plain(shape, p)
    ensures Payloads(Events(shape, RereadBlocks(blocks))) == Payloads(Events(shape, blocks))
  {
    hide Speaks, Survives, Plain, Spoken, Blocks, DropCrs;
    if blocks != [] {
      var b, tail := blocks[0], blocks[1..];
      Sequences.HeadTail(blocks);
      SurvivorSays(shape, b);
      SurvivorsSay(shape, tail);
      EventsAppend(shape, Blocks(DropCrs(b)), RereadBlocks(tail));
      PayloadsAppend(Events(shape, Blocks(DropCrs(b))), Events(shape, RereadBlocks(tail)));
      SpeakerSays(shape, b);
      PayloadsAppend(Spoken(shape, b), Events(shape, tail));
    }
  }

  lemma SpeakerSays(shape: string -> Option<set<string>>, block: seq<string>)
    requires Speaks(shape, block)
    ensures Payloads(Spoken(shape, block)) == [Payload(block)] && |Spoken(shape, block)| == 1
    ensures Weight([Payload(block)]) == Weight(DataLines(block)) && Carries(block)
  {
    hide Acceptable, Oversize, Closed, Payload, RawFrame;
    AcceptableIsDelivered(shape, block);
    var event := Event(RawFrame(block), Payload(block));
    Sequences.ConsTail(event, []);
    Sequences.ConsTail(event.payload, []);
    JoinWeighs(DataLines(block));
    PayloadIsJoined(block);
  }

  lemma PayloadIsJoined(block: seq<string>)
    ensures Payload(block) == Join(DataLines(block), "\n")
  {
  }

  // ----- blocks that do not -----

  lemma {:induction false} SpeakersWeigh(shape: string -> Option<set<string>>, blocks: seq<seq<string>>)
    requires forall b <- blocks :: Speaks(shape, b)
    ensures |Events(shape, blocks)| == |blocks|
    ensures Weight(Payloads(Events(shape, blocks))) == Weight(DataLines(Flatten(blocks)))
  {
    hide Speaks, Spoken, Carries;
    if blocks != [] {
      var b, tail := blocks[0], blocks[1..];
      SpeakersWeigh(shape, tail);
      SpeakerSays(shape, b);
      PayloadsAppend(Spoken(shape, b), Events(shape, tail));
      WeightOfSum([Payload(b)], Payloads(Events(shape, tail)));
      DataLinesAppend(b, Flatten(tail));
      WeightOfSum(DataLines(b), DataLines(Flatten(tail)));
    }
  }

  /** Every speaker has data left after the scan, and exactly one carrying piece when it survives. */
  lemma {:induction false} CarriersLeft(shape: string -> Option<set<string>>, blocks: seq<seq<string>>)
    requires forall b <- blocks :: Speaks(shape, b)
    ensures Carrying(RereadBlocks(blocks)) >= |blocks|
    ensures Carrying(RereadBlocks(blocks)) == |blocks| ==> forall b <- blocks :: Carrying(Blocks(DropCrs(b))) == 1
  {
    hide Speaks, Blocks, DropCrs, Carries;
    if blocks != [] {
      var b, tail := blocks[0], blocks[1..];
      Sequences.HeadTail(blocks);
      CarriersLeft(shape, tail);
      CarryingOfSum(Blocks(DropCrs(b)), RereadBlocks(tail));
      DataOfDroppedLines(b);
      BlocksPartition(DropCrs(b));
      DataOfFlatten(Blocks(DropCrs(b)));
      SpeakerSays(shape, b);
      DroppedStays(DataLines(b));
      CarriesIs(b);
    }
  }

  lemma DroppedStays(texts: seq<string>)
    ensures DropCrs(texts) == [] <==> texts == []
  {
  }

  lemma CarriesIs(block: seq<string>)
    ensures Carries(block) <==> DataLines(block) != []
  {
  }

  lemma {:induction false} DataSurvives(blocks: seq<seq<string>>)
    requires DropCrs(DataLines(Flatten(blocks))) == DataLines(Flatten(blocks))
    ensures forall b <- blocks :: DropCrs(DataLines(b)) == DataLines(b)
  {
    hide DropCr;
    if blocks != [] {
      var a, c := DataLines(blocks[0]), DataLines(Flatten(blocks[1..]));
      DataLinesAppend(blocks[0], Flatten(blocks[1..]));
      DropCrsOfSum(a, c);
      SameLength(a);
      SameLength(c);
      assert DropCrs(a) == (DropCrs(a) + DropCrs(c))[..|a|] && a == (a + c)[..|a|];
      assert DropCrs(c) == (DropCrs(a) + DropCrs(c))[|a|..] && c == (a + c)[|a|..];
      DataSurvives(blocks[1..]);
      Sequences.HeadTail(blocks);
    }
  }

  lemma {:induction false} SameLength(texts: seq<string>)
    ensures |DropCrs(texts)| == |texts|
  {
    if texts != [] {
      SameLength(texts[1..]);
    }
  }

  /** A second reading that gives as many payloads of the same weight has lost nothing. */
  lemma SameWeightSurvives(w: World, blocks: seq<seq<string>>)
    requires forall b <- blocks :: Speaks(w.shape, b)
    requires var r := Interpret(w, RereadBlocks(blocks) + [MARKER_BLOCK], false, []);
             Payloads(r.calls) == Payloads(Events(w.shape, blocks)) + ["[DONE]"]
    ensures forall b <- blocks :: Survives(b)
  {
    hide Speaks, Interpret, Blocks, Carries, DropCrs, Events;
    var again := RereadBlocks(blocks) + [MARKER_BLOCK];
    var r := Interpret(w, again, false, []);
    var data, dropped := DataLines(Flatten(blocks)), DataLines(Flatten(RereadBlocks(blocks)));
    CallsWeigh(w, again, false, []);
    CarryingOfSum(RereadBlocks(blocks), [MARKER_BLOCK]);
    FlattenOfSum(RereadBlocks(blocks), [MARKER_BLOCK]);
    DataLinesAppend(Flatten(RereadBlocks(blocks)), Flatten([MARKER_BLOCK]));
    WeightOfSum(dropped, DataLines(Flatten([MARKER_BLOCK])));
    WeightOfSum(Payloads(Events(w.shape, blocks)), ["[DONE]"]);
    MarkerWeighs();
    SpeakersWeigh(w.shape, blocks);
    PayloadsLength(r.calls);
    PayloadsLength(Events(w.shape, blocks));
    CarriersLeft(w.shape, blocks);
    RereadData(blocks);
    DroppingWeighs(data);
    DataSurvives(blocks);
  }

  lemma {:induction false} FlattenOfSum(a: seq<seq<string>>, b: seq<seq<string>>)
    ensures Flatten(a + b) == Flatten(a) + Flatten(b)
  {
    if a == [] {
      Sequences.Unit(b);
      Sequences.Unit(Flatten(b));
    } else {
      Sequences.AppendTail(a, b);
      FlattenOfSum(a[1..], b);
      Sequences.Assoc(a[0], Flatten(a[1..]), Flatten(b));
    }
  }

  lemma MarkerWeighs()
    ensures Weight(["[DONE]"]) == 7 && Carrying([MARKER_BLOCK]) == 1
    ensures Weight(DataLines(Flatten([MARKER_BLOCK]))) == 7
  {
    hide TrimSpace;
    MarkerData();
    Sequences.ConsTail(MARKER_BLOCK, []);
    Sequences.Unit(MARKER_BLOCK);
    Sequences.ConsTail("[DONE]", []);
    assert Flatten([MARKER_BLOCK]) == MARKER_BLOCK;
  }

  lemma {:induction false} RereadData(blocks: seq<seq<string>>)
    ensures DataLines(Flatten(RereadBlocks(blocks))) == DropCrs(DataLines(Flatten(blocks)))
  {
    hide Blocks, DropCr;
    if blocks != [] {
      var b, tail := blocks[0], blocks[1..];
      RereadData(tail);
      FlattenOfSum(Blocks(DropCrs(b)), RereadBlocks(tail));
      BlocksPartition(DropCrs(b));
      DataLinesAppend(DropCrs(b), Flatten(RereadBlocks(tail)));
      DataOfDroppedLines(b);
      DataLinesAppend(b, Flatten(tail));
      DropCrsOfSum(DataLines(b), DataLines(Flatten(tail)));
    }
  }

  // ----- the exact condition -----

  /** The second reading, at the level of blocks. */
  lemma RereadBytes(w: World, speakers: seq<seq<string>>)
    requires (forall b <- speakers :: Closed(b)) && forall l <- Flatten(speakers) :: '\n' !in l && |l| < LIMIT
    ensures ReadBody(w, Frame(Flatten(speakers)) + "data: [DONE]\n\n", false)
         == Interpret(w, RereadBlocks(speakers) + [MARKER_BLOCK], false, [])
  {
    hide Closed, Blocks, DropCrs, ScanLines, Interpret;
    ScanFrame(Flatten(speakers), "data: [DONE]\n\n");
    ScanMarker();
    CutAgain(speakers, MARKER_BLOCK);
    MarkerBlocks();
  }

  lemma ScanMarker()
    ensures ScanLines("data: [DONE]\n\n") == Scan(MARKER_BLOCK, false)
  {
    hide ScanLines, TrimSpace;
    MarkerFrame();
    ScanFrame(MARKER_BLOCK, "");
    Sequences.Unit("data: [DONE]\n\n");
    ScanNothing();
    MarkerLines();
    Sequences.Unit(MARKER_BLOCK);
  }

  lemma ScanNothing()
    ensures ScanLines("") == Scan([], false)
  {
  }

  lemma MarkerLines()
    ensures DropCrs(MARKER_BLOCK) == MARKER_BLOCK
    ensures forall l <- MARKER_BLOCK :: '\n' !in l && |l| < LIMIT
  {
    Sequences.ConsTail(MARKER_BLOCK[0], [""]);
    Sequences.ConsTail("", []);
  }

  lemma MarkerBlocks()
    ensures Blocks(MARKER_BLOCK) == [MARKER_BLOCK]
  {
    hide TrimSpace;
    MarkerBlock();
    BlocksOfOne(MARKER_BLOCK, []);
    Sequences.Unit(MARKER_BLOCK);
    Sequences.Unit([MARKER_BLOCK]);
  }

  lemma SurvivorsReread(w: World, speakers: seq<seq<string>>)
    requires Hospitable(w) && forall b <- speakers :: Speaks(w.shape, b) && Survives(b)
    ensures var r := Interpret(w, RereadBlocks(speakers) + [MARKER_BLOCK], false, []);
            r.outcome == Finished && Payloads(r.calls) == Payloads(Events(w.shape, speakers)) + ["[DONE]"]
  {
    hide Survives, Speaks, Hospitable, Plain, Interpret, RereadBlocks, Events, Marker;
    SurvivorsSay(w.shape, speakers);
    MarkerBlock();
    var said, marker := Events(w.shape, RereadBlocks(speakers)), Event(Frame(MARKER_BLOCK), Payload(MARKER_BLOCK));
    PlainRun(w, RereadBlocks(speakers), MARKER_BLOCK, [], false);
    Sequences.Unit([MARKER_BLOCK]);
    Sequences.Unit(said);
    PayloadsSnoc(said, marker);
  }

  /** Speaking blocks, forwarded frame by frame, closed with an end marker and read again, give the same
      payloads exactly when all of them survive. */
  lemma RereadExactly(w: World, speakers: seq<seq<string>>)
    requires Hospitable(w) && forall b <- speakers :: Speaks(w.shape, b)
    requires forall l <- Flatten(speakers) :: '\n' !in l && |l| < LIMIT
    ensures var again := ReadBody(w, Frame(Flatten(speakers)) + "data: [DONE]\n\n", false);
            (again.outcome == Finished && Payloads(again.calls) == Payloads(Events(w.shape, speakers)) + ["[DONE]"])
            <==> forall b <- speakers :: Survives(b)
  {
    hide Survives, Hospitable, Plain, Interpret, ReadBody, RereadBlocks, Events, Payloads;
    assert forall b <- speakers :: Closed(b);
    RereadBytes(w, speakers);
    if forall b <- speakers :: Survives(b) {
      SurvivorsReread(w, speakers);
    }
    var r := Interpret(w, RereadBlocks(speakers) + [MARKER_BLOCK], false, []);
    if Payloads(r.calls) == Payloads(Events(w.shape, speakers)) + ["[DONE]"] {
      SameWeightSurvives(w, speakers);
    }
  }

  // ----- over a whole body -----

  /** Index of the first block that is the end marker, the length when there is none. */
  function FirstMarker(blocks: seq<seq<string>>): (n: nat)
    ensures n <= |blocks|
  {
    if blocks == [] || TrimSpace(Payload(blocks[0])) == "[DONE]" then 0 else 1 + FirstMarker(blocks[1..])
  }

  lemma {:induction false} FirstMarkerIs(blocks: seq<seq<string>>, n: nat)
    requires n < |blocks| && TrimSpace(Payload(blocks[n])) == "[DONE]"
    requires forall i :: 0 <= i < n ==> TrimSpace(Payload(blocks[i])) != "[DONE]"
    ensures FirstMarker(blocks) == n
  {
    hide TrimSpace, Payload;
    if n > 0 {
      assert forall i :: 0 <= i < n - 1 ==> blocks[1..][i] == blocks[i + 1];
      FirstMarkerIs(blocks[1..], n - 1);
    }
  }

  /** The blocks of a body whose frames are forwarded. */
  function ForwardedBlocks(shape: string -> Option<set<string>>, body: string): seq<seq<string>> {
    var blocks := Blocks(ScanLines(body).lines);
    Speakers(shape, blocks[..FirstMarker(blocks)])
  }

  lemma PassedIsNoMarker(w: World, blocks: seq<seq<string>>, scanFailed: bool, n: nat)
    requires n < |blocks| && Clean(w, blocks, scanFailed, n) && EndsWell(w, blocks, scanFailed, n)
    ensures FirstMarker(blocks) == n
  {
    hide Oversize, Closed, TrimSpace;
    forall i | 0 <= i < n
      ensures TrimSpace(Payload(blocks[i])) != "[DONE]"
    {
      assert Passes(w, blocks, scanFailed, i);
      DoneIsDelivered(w.shape, blocks[i]);
    }
    FirstMarkerIs(blocks, n);
  }

  lemma {:induction false} SpeakersSpeak(shape: string -> Option<set<string>>, blocks: seq<seq<string>>)
    requires forall b <- blocks :: Plain(shape, b)
    ensures forall b <- Speakers(shape, blocks) :: Speaks(shape, b)
  {
    hide JudgeBlock, Acceptable, Closed, Oversize;
    if blocks != [] {
      SpeakersSpeak(shape, blocks[1..]);
      assert Plain(shape, blocks[0]);
      AcceptableIsDelivered(shape, blocks[0]);
    }
  }

  /** Of the frames forwarded from a body that was read without error: read again behind each other with
      an end marker they give the same payloads exactly when no data line of a forwarded block ends in a
      carriage return and no line of a lone one stands between its data lines. */
  lemma ForwardedRereadsExactly(v: World, w: World, body: string, readFails: bool)
    requires ReadBody(v, body, readFails).outcome == Finished
    requires w.shape == v.shape && Hospitable(w)
    ensures var calls := ReadBody(v, body, readFails).calls;
            && calls != []
            && var forwarded := calls[..|calls| - 1];
               var again := ReadBody(w, Frames(forwarded) + "data: [DONE]\n\n", false);
               (again.outcome == Finished && Payloads(again.calls) == Payloads(forwarded) + ["[DONE]"])
               <==> forall b <- ForwardedBlocks(v.shape, body) :: Survives(b)
  {
    hide Survives, Hospitable, Plain, Interpret, Speaks, Blocks, ScanLines, TrimSpace, Clean, EndsWell;
    var lines, scanFailed := ScanLines(body).lines, ScanLines(body).tooLong || readFails;
    var blocks := Blocks(lines);
    var n := FinishedCalls(v, blocks, scanFailed);
    PassedIsNoMarker(v, blocks, scanFailed, n);
    CleanIsPlain(v, lines, scanFailed, n);
    SpeakersSay(v.shape, blocks[..n]);
    SpeakersSpeak(v.shape, blocks[..n]);
    ForwardedLines(v.shape, body, n);
    RereadExactly(w, Speakers(v.shape, blocks[..n]));
    Sequences.DropLast(Events(v.shape, blocks[..n]), Event(RawFrame(blocks[n]), Payload(blocks[n])));
  }

  lemma ForwardedLines(shape: string -> Option<set<string>>, body: string, n: nat)
    requires n <= |Blocks(ScanLines(body).lines)|
    requires forall b <- Blocks(ScanLines(body).lines)[..n] :: Plain(shape, b)
    ensures forall l <- Flatten(Speakers(shape, Blocks(ScanLines(body).lines)[..n])) :: '\n' !in l && |l| < LIMIT
  {
    hide Plain, Blocks, ScanLines;
    var blocks := Blocks(ScanLines(body).lines);
    var speakers := Speakers(shape, blocks[..n]);
    SpeakersSay(shape, blocks[..n]);
    ScannedLines(body);
    BlocksPartition(ScanLines(body).lines);
    forall l | l in Flatten(speakers)
      ensures '\n' !in l && |l| < LIMIT
    {
      FlattenMember(speakers, l);
      var b :| b in speakers && l in b;
      MemberFlatten(blocks, b, l);
    }
  }

  /** A data line that still ends in a carriage return, as `data: x` with two of them before its line feed
      does, does not survive. */
  lemma CarriageReturnIsLost(block: seq<string>, data: string)
    requires data in DataLines(block) && data != "" && data[|data| - 1] == '\r'
    ensures !Survives(block)
  {
    hide Blocks;
    DroppedAt(DataLines(block), data);
  }

  lemma {:induction false} DroppedAt(texts: seq<string>, text: string)
    requires text in texts && DropCr(text) != text
    ensures DropCrs(texts) != texts
  {
    if texts[0] != text {
      DroppedAt(texts[1..], text);
      Sequences.ConsTail(DropCr(texts[0]), DropCrs(texts[1..]));
    }
  }
}
