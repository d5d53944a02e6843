/** The two ways `executeNative` uses the reader: forwarding events to the host, and assembling one
    completion.  What the host sees, and why both ways tell the same. */
module Agreement {
  import opened Text
  import opened Json
  import opened EventStream
  import opened EventStreamTheorems
  import opened EventStreamRoundTrip
  import opened LineScanner
  import opened Completion
  import opened CompletionPaths
  import Sequences

  // ----- forwarding -----

  /** The calls to the host that end up in the trace; a failed read closes with an error detail. */
  datatype HostCall = Emit(chunk: string) | Close(failed: bool)

  /** Client formats for which the host adds the framing itself. */
  predicate IsChat(source: string) {
    source == "" || source == "openai" || source == "chat-completions" || source == "openai-chat-completions"
    || source == "openai_chat_completions"
  }

  lemma ChatFormats(source: string)
    ensures IsChat(source) <==>
            source in {"", "openai", "chat-completions", "openai-chat-completions", "openai_chat_completions"}
  {
  }

  function ChunkOf(source: string, event: Event): string {
    if IsChat(source) then event.payload else event.frame
  }

  /** What is forwarded of the events of a read: all but the end marker. */
  function Forwarded(source: string, events: seq<Event>): seq<string> {
    if events == [] then []
    else
      var e := events[|events| - 1];
      Forwarded(source, events[..|events| - 1]) + if IsDone(e.payload) then [] else [ChunkOf(source, e)]
  }

  type Shape = string -> Option<set<string>>

  /** The callback of the streaming branch: `takes` says whether the host takes the last of these chunks. */
  function StreamWorld(shape: Shape, source: string, takes: seq<string> -> bool): World {
    World(shape, (history: seq<Event>) =>
      history == [] || IsDone(history[|history| - 1].payload) || takes(Forwarded(source, history)))
  }

  function Emits(chunks: seq<string>): seq<HostCall> {
    seq(|chunks|, i requires 0 <= i < |chunks| => Emit(chunks[i]))
  }

  /** What the host sees of a read. */
  function HostTrace(source: string, r: Reading): seq<HostCall> {
    Emits(Forwarded(source, r.calls)) + [Close(r.outcome != Finished)]
  }

  /** The goroutine of the streaming branch, up to its deferred `finish`. */
  method Stream(shape: Shape, source: string, takes: seq<string> -> bool, lines: seq<string>, scanFailed: bool)
    returns (trace: seq<HostCall>)
    ensures trace == HostTrace(source, Interpret(StreamWorld(shape, source, takes), Blocks(lines), scanFailed, []))
  {
    var events, outcome := ReadNativeSse(StreamWorld(shape, source, takes), lines, scanFailed);
    trace := [];
    Sequences.Ends(events);
    for i := 0 to |events|
      invariant trace == Emits(Forwarded(source, events[..i]))
    {
      Sequences.TakeSnoc(events, i);
      Sequences.DropLast(events[..i], events[i]);
      Sequences.Unit(Forwarded(source, events[..i]));
      if !IsDone(events[i].payload) {
        EmitsSnoc(Forwarded(source, events[..i]), ChunkOf(source, events[i]));
        trace := trace + [Emit(ChunkOf(source, events[i]))];
      }
    }
    trace := trace + [Close(outcome != Finished)];
  }

  lemma EmitsSnoc(chunks: seq<string>, chunk: string)
    ensures Emits(chunks + [chunk]) == Emits(chunks) + [Emit(chunk)]
  {
  }

  /** Every stream ends with exactly one close, behind all its emits, with an error detail exactly when
      the reader failed; no emit carries the end marker, and each is one event of the read: its payload for
      the five names of the chat format, else its frame. */
  lemma HostSeesOneClose(shape: Shape, source: string, takes: seq<string> -> bool, lines: seq<string>, scanFailed: bool)
    ensures var r := Interpret(StreamWorld(shape, source, takes), Blocks(lines), scanFailed, []);
            var trace, n := HostTrace(source, r), |r.calls| - (if EndsWithMarker(r.calls) then 1 else 0);
            && |trace| == n + 1
            && (forall i :: 0 <= i < n ==> !IsDone(r.calls[i].payload))
            && (var chat := {"", "openai", "chat-completions", "openai-chat-completions", "openai_chat_completions"};
                forall i :: 0 <= i < n ==>
                  trace[i] == Emit(if source in chat then r.calls[i].payload else r.calls[i].frame))
            && trace[n] == Close(r.outcome != Finished)
            && (r.outcome == Finished ==> EndsWithMarker(r.calls))
  {
    hide TrimSpace, Blocks, StreamWorld, IsChat, Interpret;
    ChatFormats(source);
    var r := Interpret(StreamWorld(shape, source, takes), Blocks(lines), scanFailed, []);
    DoneComesLast(StreamWorld(shape, source, takes), Blocks(lines), scanFailed);
    ForwardedOfCalls(source, r.calls);
  }

  predicate EndsWithMarker(events: seq<Event>) {
    events != [] && IsDone(events[|events| - 1].payload)
  }

  lemma ForwardedLast(source: string, events: seq<Event>)
    requires events != []
    ensures Forwarded(source, events) == Forwarded(source, events[..|events| - 1]) +
            if EndsWithMarker(events) then [] else [ChunkOf(source, events[|events| - 1])]
  {
    hide IsDone, ChunkOf;
  }

  lemma OrdinaryIsNotDone(event: Event)
    requires Ordinary(event)
    ensures !IsDone(event.payload)
  {
    hide TrimSpace;
  }

  lemma ForwardedOfCalls(source: string, events: seq<Event>)
    requires forall i :: 0 <= i < |events| - 1 ==> Ordinary(events[i])
    ensures var f := Forwarded(source, events);
            && |f| == |events| - (if EndsWithMarker(events) then 1 else 0)
            && forall i :: 0 <= i < |f| ==> f[i] == ChunkOf(source, events[i]) && !IsDone(events[i].payload)
  {
    hide IsDone, ChunkOf, Ordinary, Forwarded;
    if events == [] {
      NothingForwarded(source);
    } else {
      var init, last := events[..|events| - 1], events[|events| - 1];
      assert forall i :: 0 <= i < |init| ==> init[i] == events[i];
      OrdinaryAreForwarded(source, init);
      ForwardedLast(source, events);
      forall i | 0 <= i < |init|
        ensures !IsDone(events[i].payload)
      {
        OrdinaryIsNotDone(events[i]);
      }
    }
  }

  lemma NothingForwarded(source: string)
    ensures Forwarded(source, []) == []
  {
  }

  lemma {:induction false} OrdinaryAreForwarded(source: string, events: seq<Event>)
    requires forall i :: 0 <= i < |events| ==> Ordinary(events[i])
    ensures |Forwarded(source, events)| == |events|
    ensures forall i :: 0 <= i < |events| ==> Forwarded(source, events)[i] == ChunkOf(source, events[i])
  {
    hide TrimSpace, ChunkOf;
    if events != [] {
      OrdinaryAreForwarded(source, events[..|events| - 1]);
      assert Ordinary(events[|events| - 1]);
    }
  }

  lemma ForwardedSoFar(source: string, events: seq<Event>, n: nat)
    requires forall i :: 0 <= i < |events| - 1 ==> Ordinary(events[i])
    requires 0 < n <= |Forwarded(source, events)|
    ensures n <= |events| && !IsDone(events[n - 1].payload)
    ensures Forwarded(source, events[..n]) == Forwarded(source, events)[..n]
  {
    hide IsDone, ChunkOf, Ordinary, Forwarded;
    ForwardedOfCalls(source, events);
    if n == |events| {
      Sequences.Ends(events);
      Sequences.Ends(Forwarded(source, events));
    } else {
      assert forall i :: 0 <= i < n ==> events[..n][i] == events[i];
      OrdinaryAreForwarded(source, events[..n]);
    }
  }

  /** The host takes every chunk but perhaps the last; and the read fails for that exactly when it refuses
      one, whatever else is wrong behind it. */
  lemma RefusalEndsTheStream(shape: Shape, source: string, takes: seq<string> -> bool, lines: seq<string>,
                             scanFailed: bool)
    ensures var r := Interpret(StreamWorld(shape, source, takes), Blocks(lines), scanFailed, []);
            var chunks := Forwarded(source, r.calls);
            && (forall n :: 0 < n < |chunks| ==> takes(chunks[..n]))
            && (r.outcome == Failed(EmitFailed) <==> chunks != [] && !takes(chunks))
  {
    hide IsDone, Blocks, Interpret, Forwarded, Ordinary;
    var w := StreamWorld(shape, source, takes);
    var r := Interpret(w, Blocks(lines), scanFailed, []);
    var chunks := Forwarded(source, r.calls);
    DoneComesLast(w, Blocks(lines), scanFailed);
    assert forall i :: 0 <= i < |r.calls| - 1 ==> Ordinary(r.calls[i]);
    ForwardedOfCalls(source, r.calls);
    forall n | 0 < n <= |chunks|
      ensures w.accept(r.calls[..n]) <==> takes(chunks[..n])
      ensures n < |r.calls| || r.outcome != Failed(EmitFailed) ==> w.accept(r.calls[..n])
    {
      ForwardedSoFar(source, r.calls, n);
      Accepted(w, Blocks(lines), scanFailed, [], n);
    }
    RefusedAtTheEnd(w, Blocks(lines), scanFailed, []);
    Sequences.Ends(r.calls);
    Sequences.Ends(chunks);
  }

  // ----- assembling -----

  /** The callback of the other branch: `add` on every event so far. */
  function AggregateWorld(shape: Shape, decode: Decoder): World {
    World(shape, (history: seq<Event>) => AddAll(decode, Completion.EMPTY, Payloads(history)).1.None?)
  }

  /** `add` on one payload more. */
  lemma {:induction false} AddOneMore(decode: Decoder, st: State, payloads: seq<string>, payload: string)
    ensures var (mid, error) := AddAll(decode, st, payloads);
            AddAll(decode, st, payloads + [payload]) ==
            if error.Some? then (mid, error) else AddPayload(decode, mid, payload)
    decreases |payloads|
  {
    hide AddPayload;
    if payloads == [] {
      Sequences.Unit([payload]);
      Sequences.ConsTail(payload, []);
    } else {
      var (next, error) := AddPayload(decode, st, payloads[0]);
      Sequences.AppendTail(payloads, [payload]);
      if error.None? {
        AddOneMore(decode, next, payloads[1..], payload);
      }
    }
  }

  /** The non-streaming branch from the reader on: None stands for an error reply. */
  method Aggregate(shape: Shape, decode: Decoder, lines: seq<string>, scanFailed: bool)
    returns (completion: Option<Object>)
    ensures var r := Interpret(AggregateWorld(shape, decode), Blocks(lines), scanFailed, []);
            var (st, _) := AddAll(decode, Completion.EMPTY, Payloads(r.calls));
            completion == if r.outcome != Finished || st.choices == map[] then None else Some(Assembled(st))
  {
    hide AddPayload, Assembled;
    var assembler := new NativeCompletion();
    var w := AggregateWorld(shape, decode);
    var events, outcome := ReadNativeSse(w, lines, scanFailed);
    Sequences.Ends(events);
    var error: Option<AddError> := None;
    for i := 0 to |events|
      invariant assembler.Valid() && fresh(assembler)
      invariant (assembler.Model(), error) == AddAll(decode, Completion.EMPTY, Payloads(events[..i]))
      invariant error.None?
    {
      Sequences.TakeSnoc(events, i);
      PayloadsSnoc(events[..i], events[i]);
      AddOneMore(decode, Completion.EMPTY, Payloads(events[..i]), events[i].payload);
      error := assembler.Add(events[i].payload, decode);
      if error.Some? {
        // The callback's error is what ended the read.
        Accepted(w, Blocks(lines), scanFailed, [], i + 1);
        return None;
      }
    }
    if outcome != Finished {
      return None;
    }
    completion := assembler.Result();
  }

  // ----- both branches on one stream -----

  lemma {:induction false} AddedSoFar(decode: Decoder, st: State, payloads: seq<string>, n: nat)
    requires n <= |payloads| && AddAll(decode, st, payloads).1.None?
    ensures AddAll(decode, st, payloads[..n]).1.None?
    decreases |payloads|
  {
    hide AddPayload;
    if n > 0 {
      Sequences.HeadTail(payloads[..n]);
      assert payloads[..n][1..] == payloads[1..][..n - 1];
      AddedSoFar(decode, AddPayload(decode, st, payloads[0]).0, payloads[1..], n - 1);
    }
  }

  lemma {:induction false} PayloadsTake(events: seq<Event>, n: nat)
    requires n <= |events|
    ensures |Payloads(events)| == |events| && Payloads(events[..n]) == Payloads(events)[..n]
  {
    PayloadsLength(events);
    if n > 0 {
      PayloadsTake(events[1..], n - 1);
      assert events[..n][1..] == events[1..][..n - 1];
      Sequences.ConsTail(events[0].payload, Payloads(events[1..]));
      assert ([events[0].payload] + Payloads(events[1..]))[..n] == [events[0].payload] + Payloads(events[1..])[..n - 1];
    }
  }

  /** The read of the streaming branch when the host takes every chunk. */
  function Streamed(shape: Shape, source: string, lines: seq<string>, scanFailed: bool): Reading {
    Interpret(StreamWorld(shape, source, _ => true), Blocks(lines), scanFailed, [])
  }

  function Aggregated(shape: Shape, decode: Decoder, lines: seq<string>, scanFailed: bool): Reading {
    Interpret(AggregateWorld(shape, decode), Blocks(lines), scanFailed, [])
  }

  /** The read of the other branch ends well exactly when the streaming one does and everything it read
      can be added up; and then both made the same calls. */
  lemma SameStream(shape: Shape, decode: Decoder, source: string, lines: seq<string>, scanFailed: bool)
    ensures var s, a := Streamed(shape, source, lines, scanFailed), Aggregated(shape, decode, lines, scanFailed);
            && (a.outcome == Finished <==>
                s.outcome == Finished && AddAll(decode, Completion.EMPTY, Payloads(s.calls)).1.None?)
            && (a.outcome == Finished ==> a == s)
  {
    hide Blocks, Interpret, AddAll, Payloads, Forwarded;
    var v, w := StreamWorld(shape, source, _ => true), AggregateWorld(shape, decode);
    var s, a := Streamed(shape, source, lines, scanFailed), Aggregated(shape, decode, lines, scanFailed);
    if a.outcome == Finished {
      forall n | 0 < n <= |a.calls|
        ensures w.accept(a.calls[..n]) && v.accept(a.calls[..n])
      {
        Accepted(w, Blocks(lines), scanFailed, [], n);
      }
      SameReading(w, v, Blocks(lines), scanFailed, []);
      MarkerWasRead(w, lines, scanFailed);
      Sequences.Ends(a.calls);
    }
    if AddAll(decode, Completion.EMPTY, Payloads(s.calls)).1.None? {
      forall n | 0 < n <= |s.calls|
        ensures w.accept(s.calls[..n]) && v.accept(s.calls[..n])
      {
        PayloadsTake(s.calls, n);
        AddedSoFar(decode, Completion.EMPTY, Payloads(s.calls), n);
      }
      SameReading(v, w, Blocks(lines), scanFailed, []);
    }
  }

  lemma MarkerWasRead(w: World, lines: seq<string>, scanFailed: bool)
    ensures var r := Interpret(w, Blocks(lines), scanFailed, []);
            r.outcome == Finished ==> r.calls != [] && IsDone(r.calls[|r.calls| - 1].payload) && w.accept(r.calls)
  {
    hide Blocks, TrimSpace;
    var r := Interpret(w, Blocks(lines), scanFailed, []);
    DoneComesLast(w, Blocks(lines), scanFailed);
    if r.outcome == Finished {
      Accepted(w, Blocks(lines), scanFailed, [], |r.calls|);
      Sequences.Ends(r.calls);
    }
  }

  /** The end marker adds nothing, so what the host got folds to the same state. */
  lemma {:induction false} ForwardedAddsUp(decode: Decoder, source: string, events: seq<Event>)
    requires IsChat(source)
    ensures AddAll(decode, Completion.EMPTY, Forwarded(source, events)) ==
            AddAll(decode, Completion.EMPTY, Payloads(events))
  {
    hide IsChat, TrimSpace, AddAll;
    if events != [] {
      var init, last := events[..|events| - 1], events[|events| - 1];
      ForwardedAddsUp(decode, source, init);
      assert events == init + [last];
      PayloadsSnoc(init, last);
      AddOneMore(decode, Completion.EMPTY, Payloads(init), last.payload);
      AddOneMore(decode, Completion.EMPTY, Forwarded(source, init), last.payload);
      Sequences.Unit(Forwarded(source, init));
    }
  }

  /** Stream and aggregate agree: for a chat client, the non-streaming branch returns a completion exactly
      when the stream ends well and the chunks the host was given add up to one; it is that completion. */
  lemma BranchesAgree(shape: Shape, decode: Decoder, source: string, lines: seq<string>, scanFailed: bool)
    requires source in {"", "openai", "chat-completions", "openai-chat-completions", "openai_chat_completions"}
    ensures var s, a := Streamed(shape, source, lines, scanFailed), Aggregated(shape, decode, lines, scanFailed);
            var (state, error) := AddAll(decode, Completion.EMPTY, Forwarded(source, s.calls));
            && (a.outcome == Finished <==> s.outcome == Finished && error.None?)
            && (a.outcome == Finished ==> AddAll(decode, Completion.EMPTY, Payloads(a.calls)).0 == state)
  {
    hide Streamed, Aggregated, AddAll, Payloads, Forwarded, IsChat;
    ChatFormats(source);
    SameStream(shape, decode, source, lines, scanFailed);
    ForwardedAddsUp(decode, source, Streamed(shape, source, lines, scanFailed).calls);
  }

  // ----- translated protocols -----

  lemma {:induction false} ForwardedFrames(source: string, events: seq<Event>)
    requires !IsChat(source) && forall i :: 0 <= i < |events| ==> Ordinary(events[i])
    ensures Concat(Forwarded(source, events)) == Frames(events)
  {
    hide IsChat, TrimSpace;
    if events != [] {
      var init, last := events[..|events| - 1], events[|events| - 1];
      ForwardedFrames(source, init);
      assert Ordinary(last);
      ConcatAppend(Forwarded(source, init), [last.frame]);
      assert events == init + [last];
      FramesSnoc(init, last);
      Sequences.ConsTail(last.frame, []);
    }
  }

  lemma {:induction false} FramesSnoc(events: seq<Event>, event: Event)
    ensures Frames(events + [event]) == Frames(events) + event.frame
  {
    if events == [] {
      Sequences.ConsTail(event, []);
      Sequences.Unit([event]);
      assert Frames([]) == "";
      Sequences.Unit(event.frame);
    } else {
      Sequences.AppendTail(events, [event]);
      FramesSnoc(events[1..], event);
      Sequences.Assoc(events[0].frame, Frames(events[1..]), event.frame);
    }
  }

  /** A finished read, as its events and the end marker. */
  lemma FinishedRead(w: World, source: string, body: string, readFails: bool)
    requires !IsChat(source) && ReadBody(w, body, readFails).outcome == Finished
    ensures var calls := ReadBody(w, body, readFails).calls;
            && calls != [] && IsDone(calls[|calls| - 1].payload)
            && Concat(Forwarded(source, calls)) == Frames(calls[..|calls| - 1])
            && Payloads(calls) == Payloads(calls[..|calls| - 1]) + [calls[|calls| - 1].payload]
  {
    hide TrimSpace, Blocks, Interpret, IsChat, ScanLines, Concat, Frames;
    var calls := ReadBody(w, body, readFails).calls;
    DoneComesLast(w, Blocks(ScanLines(body).lines), ScanLines(body).tooLong || readFails);
    var init, last := calls[..|calls| - 1], calls[|calls| - 1];
    assert calls == init + [last];
    assert forall i :: 0 <= i < |init| ==> Ordinary(calls[i]);
    ForwardedFrames(source, init);
    Sequences.Unit(Forwarded(source, init));
    PayloadsSnoc(init, last);
  }

  /** For a translated protocol the host gets whole frames: put together, closed with an end marker and
      read again, they give the payloads back, and so the same completion, provided no scanned line ends
      in a carriage return. */
  lemma TranslatedAgrees(shape: Shape, decode: Decoder, source: string, body: string, readFails: bool)
    requires source !in {"", "openai", "chat-completions", "openai-chat-completions", "openai_chat_completions"}
    requires forall l <- ScanLines(body).lines :: l == "" || l[|l| - 1] != '\r'
    requires ReadBody(StreamWorld(shape, source, _ => true), body, readFails).outcome == Finished
    ensures var calls := ReadBody(StreamWorld(shape, source, _ => true), body, readFails).calls;
            var forwarded := Concat(Forwarded(source, calls));
            var again := ReadBody(World(shape, _ => true), forwarded + "data: [DONE]\n\n", false);
            && again.outcome == Finished
            && AddAll(decode, Completion.EMPTY, Payloads(again.calls)) ==
               AddAll(decode, Completion.EMPTY, Payloads(calls))
  {
    hide TrimSpace, ReadBody, IsChat, AddAll, ScanLines, Forwarded, Payloads, Frames, Concat;
    var v, w := StreamWorld(shape, source, _ => true), World(shape, _ => true);
    var calls := ReadBody(v, body, readFails).calls;
    ChatFormats(source);
    Reread(v, w, body, readFails);
    FinishedRead(v, source, body, readFails);
    MarkersAreAlike(decode, Payloads(calls[..|calls| - 1]), calls[|calls| - 1].payload, "[DONE]");
  }

  lemma MarkersAreAlike(decode: Decoder, payloads: seq<string>, a: string, b: string)
    requires IsDone(a) && b == "[DONE]"
    ensures AddAll(decode, Completion.EMPTY, payloads + [a]) == AddAll(decode, Completion.EMPTY, payloads + [b])
  {
    hide AddAll, TrimSpace;
    MarkerIsTrimmed(b);
    AddOneMore(decode, Completion.EMPTY, payloads, a);
    AddOneMore(decode, Completion.EMPTY, payloads, b);
  }

  lemma MarkerIsTrimmed(marker: string)
    requires marker == "[DONE]"
    ensures IsDone(marker)
  {
    hide TrimSpace;
    VisibleEndsAreTrimmed(marker);
  }
}
