/** From bytes to the completion: the scanner, the reader and the assembler together. */
module EndToEnd {
  import opened Text
  import opened EventStream
  import opened EventStreamTheorems
  import opened EventStreamRoundTrip
  import opened LineScanner
  import opened Completion
  import opened CompletionPaths
  import opened Reassembly
  import opened Agreement

  lemma PrintedPayloads(shape: Shape, segments: seq<Segment>, done: Segment)
    requires forall s <- segments :: PrintedFor(shape, s)
    ensures Payloads(PrintedEvents(shape, segments, done)) == PayloadsFor(segments) + ["[DONE]"]
  {
    hide PrintedFor;
    PrintedBlocks(shape, segments);
    PayloadsSnoc(Events(shape, BlocksFor(segments)), Event(Frame(BlockOf(done)), "[DONE]"));
  }

  /** What adds up payload by payload is taken event by event. */
  lemma AssemblerTakes(shape: Shape, decode: Decoder, events: seq<Event>)
    requires AddAll(decode, Completion.EMPTY, Payloads(events)).1.None?
    ensures Takes(AggregateWorld(shape, decode), events)
  {
    hide AddAll, Payloads;
    forall n | 0 < n <= |events|
      ensures AggregateWorld(shape, decode).accept(events[..n])
    {
      PayloadsTake(events, n);
      AddedSoFar(decode, Completion.EMPTY, Payloads(events), n);
    }
  }

  lemma MarkerAddsNothing(decode: Decoder, payloads: seq<string>)
    ensures AddAll(decode, Completion.EMPTY, payloads + ["[DONE]"]) == AddAll(decode, Completion.EMPTY, payloads)
  {
    hide AddAll, TrimSpace;
    MarkerIsTrimmed("[DONE]");
    AddOneMore(decode, Completion.EMPTY, payloads, "[DONE]");
  }

  /** Any completion, cut into chunks in any way, printed as an event stream with any line endings and
      anything harmless in between, is what the assembler holds after reading the bytes, whatever follows
      the end marker and however the connection ends. */
  lemma CompletionComesThrough(shape: Shape, decode: Decoder, segments: seq<Segment>, done: Segment, crlf: seq<bool>,
                               tail: string, readFails: bool, w: Whole)
    requires forall s <- segments :: PrintedFor(shape, s)
    requires Printed(done) && done.payload == Some("[DONE]")
    requires |crlf| == |Flatten(BlocksFor(segments)) + BlockOf(done)|
    requires Fits(Flatten(BlocksFor(segments)) + BlockOf(done), crlf)
    requires Proper(w) && Cuts(Chunks(decode, PayloadsFor(segments)), w)
    requires Bytes(PayloadsFor(segments)) <= CAP
    requires forall p <- PayloadsFor(segments) :: !IsDone(p) ==> decode(p).Some?
    ensures var bytes := Encode(Flatten(BlocksFor(segments)) + BlockOf(done), crlf) + tail;
            var r := ReadBody(AggregateWorld(shape, decode), bytes, readFails);
            var (state, error) := AddAll(decode, Completion.EMPTY, Payloads(r.calls));
            && r.outcome == Finished && error.None?
            && state.choices.Keys == w.choices.Keys && Assembled(state) == Render(w)
  {
    hide AddAll, Payloads, PrintedFor, Printed, Takes, Cuts, Proper, Assembled, Render, IsDone, Encode, Fits, ReadBody,
         Bytes, Chunks, PrintedEvents;
    Rebuilt(decode, PayloadsFor(segments), w);
    PrintedPayloads(shape, segments, done);
    MarkerAddsNothing(decode, PayloadsFor(segments));
    AssemblerTakes(shape, decode, PrintedEvents(shape, segments, done));
    RoundTrip(AggregateWorld(shape, decode), segments, done, crlf, tail, readFails);
  }
}
