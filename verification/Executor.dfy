/** `executeNative`: the request body that goes upstream, and the ways out once the execution is
    registered. */
module Executor {
  import opened Text
  import opened Json
  import opened Pointwise
  import EnvironmentBlock
  import Shaping
  import ShapingTheorems
  import ShapedBodies
  import SessionText
  import SessionShaping
  import opened EventStream
  import Completion
  import CompletionPaths
  import opened EventStreamRoundTrip
  import opened Agreement
  import opened Exits
  import Registry
  import Manager
  import Sequences

  // ----- the request body -----

  /** The client's body for the selected model: streaming, with usage in the stream. */
  function Addressed(root: Object, model: string): Object {
    var options := FieldsOr(Get(root, "stream_options"))["include_usage" := Bool(true)];
    root["model" := Str(model)]["stream" := Bool(true)]["stream_options" := Obj(options)]
  }

  function UpstreamBody(kit: Shaping.Kit, cfg: Shaping.Config, root: Object, model: string): Object {
    Shaping.Shape(kit, cfg, "openai", "openai", Addressed(root, model)).root
  }

  lemma AddressedKeeps(root: Object, model: string)
    ensures var a := Addressed(root, model);
            && Get(a, "model") == Str(model) && Get(a, "stream") == Bool(true)
            && Get(a, "stream_options").Obj?
            && Get(Get(a, "stream_options").fields, "include_usage") == Bool(true)
            && EnvironmentBlock.Differ(FieldsOr(Get(root, "stream_options")), Get(a, "stream_options").fields,
                                       {"include_usage"})
            && EnvironmentBlock.Differ(root, a, ADDRESS)
            && Lookup(a, "messages") == Lookup(root, "messages") && Lookup(a, "input") == Lookup(root, "input")
  {
  }

  const ADDRESS: set<string> := {"model", "stream", "stream_options"}

  lemma AddressIsUntouched()
    ensures "model" !in ShapingTheorems.TOUCHED && "stream_options" !in ShapingTheorems.TOUCHED
  {
  }

  lemma StaysStreaming(kit: Shaping.Kit, cfg: Shaping.Config, root: Object)
    requires Shaping.Names(cfg.tools) && Get(root, "stream") == Bool(true)
    ensures Get(Shaping.Shape(kit, cfg, "openai", "openai", root).root, "stream") == Bool(true)
  {
    hide Shaping.Shape, ShapingTheorems.ToolsShaped, ShapingTheorems.InputShaped;
    ShapingTheorems.Shaped(kit, cfg, "openai", "openai", root);
  }

  lemma SettableIsTouched(cfg: Shaping.Config, source: string, root: Object)
    ensures ShapedBodies.Settable(cfg, source, root) <= ShapingTheorems.TOUCHED
  {
    hide EnvironmentBlock.Present, EnvironmentBlock.Supported, EnvironmentBlock.ContextKey;
    ShapingTheorems.ContextKeyIsOne(root, source);
  }

  /** Whatever the client sent, the upstream body names the selected model, streams and asks for usage,
      whether or not streaming is forced; its other stream options and every key that neither the address
      nor the shaping sets are the client's; and the conversation reads the same. */
  lemma UpstreamBodyIsAddressed(kit: Shaping.Kit, cfg: Shaping.Config, root: Object, model: string)
    requires Shaping.Names(cfg.tools)
    ensures var a, body := Addressed(root, model), UpstreamBody(kit, cfg, root, model);
            && Get(body, "model") == Str(model) && Get(body, "stream") == Bool(true)
            && Get(FieldsOr(Get(body, "stream_options")), "include_usage") == Bool(true)
            && EnvironmentBlock.Differ(FieldsOr(Get(root, "stream_options")), FieldsOr(Get(body, "stream_options")),
                                       {"include_usage"})
            && EnvironmentBlock.Differ(root, body, ADDRESS + ShapedBodies.Settable(cfg, "openai", a))
            && SessionText.ConversationText("openai", body) == SessionText.ConversationText("openai", root)
  {
    hide Shaping.Shape, Addressed, SessionText.Run, SessionText.MessageReader, ShapedBodies.Settable;
    var a, body := Addressed(root, model), UpstreamBody(kit, cfg, root, model);
    AddressedKeeps(root, model);
    ShapedBodies.TheRestIsConserved(kit, cfg, "openai", "openai", a);
    AddressIsUntouched();
    SettableIsTouched(cfg, "openai", a);
    assert Lookup(body, "model") == Lookup(a, "model") && Lookup(body, "stream_options") == Lookup(a, "stream_options");
    StaysStreaming(kit, cfg, a);
    SessionShaping.MessagesReadTheSame(kit, cfg, "openai", "openai", a, false);
  }

  // ----- the ways out -----

  /** What the upstream gives, as far as it is reached. */
  datatype Upstream = Upstream(client: bool, request: bool, response: Option<Response>)

  datatype Response = Response(status: int, contentType: string, lines: seq<string>, scanFailed: bool)

  datatype Reply = Refused(code: string, status: int) | Started | Completed(completion: Object)

  predicate Responds(u: Upstream) {
    u.client && u.request && u.response.Some?
  }

  /** The callbacks and parsers that a run is given. */
  datatype Host = Host(
    lower: string -> string,
    shape: Shape,
    decode: Completion.Decoder,
    source: string,
    takes: seq<string> -> bool)

  function StreamReading(h: Host, r: Response): Reading {
    Interpret(StreamWorld(h.shape, h.source, h.takes), Blocks(r.lines), r.scanFailed, [])
  }

  function AggregateReading(h: Host, r: Response): Reading {
    Interpret(AggregateWorld(h.shape, h.decode), Blocks(r.lines), r.scanFailed, [])
  }

  /** The calls to the host in a trace. */
  function HostCalls(trace: seq<Action>): seq<HostCall> {
    if trace == [] then []
    else
      var last := trace[|trace| - 1];
      HostCalls(trace[..|trace| - 1]) + if last.ToHost? then [last.call] else []
  }

  function ToHosts(calls: seq<HostCall>): seq<Action> {
    seq(|calls|, i requires 0 <= i < |calls| => ToHost(calls[i]))
  }

  lemma {:induction false} HostCallsOfSum(a: seq<Action>, b: seq<Action>)
    ensures HostCalls(a + b) == HostCalls(a) + HostCalls(b)
  {
    if b == [] {
      Sequences.Unit(a);
      Sequences.Unit(HostCalls(a));
    } else {
      var init, last := b[..|b| - 1], b[|b| - 1];
      Sequences.AppendLast(a, b);
      HostCallsOfSum(a, init);
      Sequences.Assoc(HostCalls(a), HostCalls(init), if last.ToHost? then [last.call] else []);
    }
  }

  lemma {:induction false} HostCallsOfHosts(calls: seq<HostCall>)
    ensures HostCalls(ToHosts(calls)) == calls
  {
    if calls != [] {
      var init := calls[..|calls| - 1];
      HostCallsOfHosts(init);
      assert ToHosts(calls)[..|calls| - 1] == ToHosts(init);
    }
  }

  /** The pieces of a trace, as far as they are counted. */
  ghost predicate Adds(before: seq<Action>, after: seq<Action>, body: nat, connections: nat, calls: seq<HostCall>) {
    && Times(after, BodyClosed) == Times(before, BodyClosed) + body
    && Times(after, ConnectionsClosed) == Times(before, ConnectionsClosed) + connections
    && HostCalls(after) == HostCalls(before) + calls
  }

  lemma AddsOne(trace: seq<Action>, action: Action)
    ensures Adds(trace, trace + [action], if action == BodyClosed then 1 else 0,
                 if action == ConnectionsClosed then 1 else 0, if action.ToHost? then [action.call] else [])
  {
    OneMoreAction(trace, action);
    Sequences.DropLast(trace, action);
  }

  lemma {:induction false} HostsAreNoClosings(calls: seq<HostCall>, action: Action)
    requires !action.ToHost?
    ensures Times(ToHosts(calls), action) == 0
  {
    assert forall a <- ToHosts(calls) :: a.ToHost?;
  }

  lemma AddsHosts(trace: seq<Action>, calls: seq<HostCall>)
    ensures Adds(trace, trace + ToHosts(calls), 0, 0, calls)
  {
    HostsAreNoClosings(calls, BodyClosed);
    HostsAreNoClosings(calls, ConnectionsClosed);
    assert multiset(trace + ToHosts(calls)) == multiset(trace) + multiset(ToHosts(calls));
    HostCallsOfSum(trace, ToHosts(calls));
    HostCallsOfHosts(calls);
  }

  // ----- following the control flow -----

  /** One step of the code, taken. */
  lemma Go(moves: seq<Move>, pc: Pc, trace: seq<Action>, action: Option<Action>, next: Pc) returns (more: seq<Move>)
    requires At(moves, pc, trace) && Moves(pc, action, next)
    ensures At(more, next, trace + Just(action))
  {
    hide Moves, Path;
    more := moves + [Move(action, next)];
    PathSnoc(Entry, moves, pc, Move(action, next));
  }

  /** A step without anything to see. */
  lemma Pass(moves: seq<Move>, pc: Pc, trace: seq<Action>, next: Pc) returns (more: seq<Move>)
    requires At(moves, pc, trace) && Moves(pc, None, next)
    ensures At(more, next, trace)
  {
    hide Moves, Path;
    more := Go(moves, pc, trace, None, next);
    Sequences.Unit(trace);
  }

  /** The calls of a stream: emits, then one close. */
  lemma {:induction false} GoStream(moves: seq<Move>, trace: seq<Action>, chunks: seq<string>, failed: bool)
    returns (more: seq<Move>)
    requires At(moves, Streaming, trace)
    ensures At(more, FinishBody, trace + ToHosts(Emits(chunks) + [Close(failed)]))
    decreases |chunks|
  {
    hide Path;
    if chunks == [] {
      more := Go(moves, Streaming, trace, Some(ToHost(Close(failed))), FinishBody);
      assert ToHosts(Emits(chunks) + [Close(failed)]) == [ToHost(Close(failed))];
    } else {
      var first := ToHost(Emit(chunks[0]));
      more := Go(moves, Streaming, trace, Some(first), Streaming);
      more := GoStream(more, trace + [first], chunks[1..], failed);
      var rest := ToHosts(Emits(chunks[1..]) + [Close(failed)]);
      assert ToHosts(Emits(chunks) + [Close(failed)]) == [first] + rest;
      Sequences.Assoc(trace, [first], rest);
    }
  }

  /** Registration, cancelling and deleting of one execution, in this order and each once. */
  ghost predicate OneExecution(before: Registry.State, id: string, e: Registry.Execution, after: Registry.State) {
    Registry.Run(before, [Registry.Register(id, e), Registry.CleanupCancel(e), Registry.CleanupDelete(e)], after)
  }

  /** The registry between the registration of an execution and its cleanup, and after it. */
  ghost predicate Working(before: Registry.State, id: string, e: Registry.Execution, now: Registry.State) {
    && Registry.Enabled(before, Registry.Register(id, e))
    && now == Registry.Next(before, Registry.Register(id, e))
  }

  lemma RunStep(s: Registry.State, step: Registry.Step, rest: seq<Registry.Step>, end: Registry.State)
    requires Registry.Enabled(s, step) && Registry.Run(Registry.Next(s, step), rest, end)
    ensures Registry.Run(s, [step] + rest, end)
  {
    hide Registry.Enabled, Registry.Next;
    Sequences.ConsTail(step, rest);
  }

  lemma ThreeSteps(before: Registry.State, id: string, e: Registry.Execution)
    requires Registry.Enabled(before, Registry.Register(id, e))
    ensures var a := Registry.Next(before, Registry.Register(id, e));
            && e in a.issued && a.issued[e] == id
            && Registry.Enabled(a, Registry.CleanupCancel(e))
            && var b := Registry.Next(a, Registry.CleanupCancel(e));
               && Registry.Enabled(b, Registry.CleanupDelete(e)) && e in b.issued && b.issued[e] == id
               && OneExecution(before, id, e, Registry.Next(b, Registry.CleanupDelete(e)))
  {
    var x, y, z := Registry.Register(id, e), Registry.CleanupCancel(e), Registry.CleanupDelete(e);
    var a := Registry.Next(before, x);
    var b := Registry.Next(a, y);
    assert Registry.Enabled(a, y) && Registry.Enabled(b, z);
    assert Registry.Run(Registry.Next(b, z), [], Registry.Next(b, z));
    RunStep(b, z, [], Registry.Next(b, z));
    RunStep(a, y, [z], Registry.Next(b, z));
    RunStep(before, x, [y, z], Registry.Next(b, z));
    Sequences.Unit([z]);
    assert [x] + ([y] + [z]) == [x, y, z] && [y] + [z] == [y, z];
  }

  lemma GoCleanup(moves: seq<Move>, rest: Rest, trace: seq<Action>) returns (more: seq<Move>)
    requires At(moves, Pc.Cleanup(rest), trace)
    ensures At(more, if rest.Nothing? then Returned else Connections, trace + [Cancelled] + [Deleted])
    ensures Adds(trace, trace + [Cancelled] + [Deleted], 0, 0, [])
  {
    hide Path, HostCalls, Times;
    more := Go(moves, Pc.Cleanup(rest), trace, Some(Cancelled), Locked(rest));
    AddsOne(trace, Cancelled);
    more := Go(more, Locked(rest), trace + [Cancelled], Some(Deleted), if rest.Nothing? then Returned else Connections);
    AddsOne(trace + [Cancelled], Deleted);
    Sequences.Unit(HostCalls(trace));
  }

  /** The `cleanup` closure. */
  method RunCleanup<C>(m: Manager.Manager<C>, id: string, e: Registry.Execution, ghost before: Registry.State,
                       ghost moves: seq<Move>, rest: Rest, trace: seq<Action>)
    returns (after: seq<Action>, ghost more: seq<Move>)
    requires m.Valid() && Working(before, id, e, m.Requests()) && At(moves, Pc.Cleanup(rest), trace)
    modifies m
    ensures m.Valid() && OneExecution(before, id, e, m.Requests()) && m.sessionIds == old(m.sessionIds)
    ensures At(more, if rest.Nothing? then Returned else Connections, after)
    ensures Adds(trace, after, 0, 0, [])
  {
    hide Registry.Invariant, Registry.Next, Registry.Enabled, OneExecution, At, Adds;
    ThreeSteps(before, id, e);
    more := GoCleanup(moves, rest, trace);
    m.CleanupCancels(e);
    after := trace + [Cancelled];
    m.CleanupDeletes(id, e);
    after := after + [Deleted];
  }

  /** The `finish` closure, called or deferred. */
  method RunFinish<C>(m: Manager.Manager<C>, id: string, e: Registry.Execution, ghost before: Registry.State,
                      ghost moves: seq<Move>, trace: seq<Action>)
    returns (after: seq<Action>, ghost more: seq<Move>)
    requires m.Valid() && Working(before, id, e, m.Requests()) && At(moves, FinishBody, trace)
    modifies m
    ensures m.Valid() && OneExecution(before, id, e, m.Requests()) && m.sessionIds == old(m.sessionIds)
    ensures At(more, Returned, after)
    ensures Adds(trace, after, 1, 1, [])
  {
    hide Registry.Invariant, Working, OneExecution, At, HostCalls, Times;
    after := trace + [BodyClosed];
    more := Go(moves, FinishBody, trace, Some(BodyClosed), FinishConnections);
    AddsOne(trace, BodyClosed);
    more := Go(more, FinishConnections, after, Some(ConnectionsClosed), Pc.Cleanup(Nothing));
    AddsOne(after, ConnectionsClosed);
    after := after + [ConnectionsClosed];
    Sequences.Unit(HostCalls(trace));
    after, more := RunCleanup(m, id, e, before, more, Nothing, after);
  }

  /** The end of a path that failed before there was a response: an inline `cleanup()`, and then the
      connections. */
  method GiveUp<C>(m: Manager.Manager<C>, id: string, e: Registry.Execution, ghost before: Registry.State,
                   ghost moves: seq<Move>, trace: seq<Action>)
    returns (after: seq<Action>, ghost more: seq<Move>)
    requires m.Valid() && Working(before, id, e, m.Requests()) && At(moves, Pc.Cleanup(ThenConnections), trace)
    modifies m
    ensures m.Valid() && OneExecution(before, id, e, m.Requests()) && m.sessionIds == old(m.sessionIds)
    ensures At(more, Returned, after)
    ensures Adds(trace, after, 0, 1, [])
  {
    hide Registry.Invariant, Working, OneExecution, At, HostCalls, Times;
    after, more := RunCleanup(m, id, e, before, moves, ThenConnections, trace);
    more := Go(more, Connections, after, Some(ConnectionsClosed), Returned);
    AddsOne(after, ConnectionsClosed);
    after := after + [ConnectionsClosed];
    Sequences.Unit(HostCalls(trace));
  }

  /** What a readable or unreadable response is answered with. */
  ghost predicate Answers(h: Host, r: Response, stream: bool, reply: Reply) {
    var readable := 200 <= r.status < 300 && Contains(h.lower(r.contentType), "text/event-stream");
    && (reply == Started <==> stream && readable)
    && (reply.Completed? ==> !stream && readable)
    && (!stream && readable ==> Completes(h, r, reply))
    && (reply.Refused? ==> reply == Refused("upstream_error", if 200 <= r.status < 300 then 502 else r.status))
  }

  /** A completion comes out exactly when the read ends well and holds a choice, and it is the one that the
      payloads add up to. */
  ghost predicate Completes(h: Host, r: Response, reply: Reply) {
    var reading := AggregateReading(h, r);
    var (state, _) := CompletionPaths.AddAll(h.decode, Completion.EMPTY, Payloads(reading.calls));
    && (reply.Completed? <==> reading.outcome == Finished && state.choices != map[])
    && (reply.Completed? ==> reply.completion == Completion.Assembled(state))
  }

  function StreamCalls(h: Host, r: Response, stream: bool): seq<HostCall> {
    if stream && 200 <= r.status < 300 && Contains(h.lower(r.contentType), "text/event-stream") then
      HostTrace(h.source, StreamReading(h, r))
    else
      []
  }

  lemma AddsThen(a: seq<Action>, b: seq<Action>, c: seq<Action>, calls: seq<HostCall>)
    requires Adds(a, b, 0, 0, calls) && Adds(b, c, 1, 1, [])
    ensures Adds(a, c, 1, 1, calls)
  {
    Sequences.Unit(HostCalls(a) + calls);
  }

  lemma GoHostTrace(moves: seq<Move>, trace: seq<Action>, source: string, r: Reading) returns (more: seq<Move>)
    requires At(moves, Streaming, trace)
    ensures At(more, FinishBody, trace + ToHosts(HostTrace(source, r)))
    ensures Adds(trace, trace + ToHosts(HostTrace(source, r)), 0, 0, HostTrace(source, r))
  {
    hide At, ToHosts, Adds, Forwarded;
    more := GoStream(moves, trace, Forwarded(source, r.calls), r.outcome != Finished);
    AddsHosts(trace, HostTrace(source, r));
  }

  /** The goroutine of a stream, with its deferred `finish`. */
  method RunStream<C>(m: Manager.Manager<C>, id: string, h: Host, r: Response, e: Registry.Execution,
                      ghost before: Registry.State, ghost moves: seq<Move>, trace: seq<Action>)
    returns (after: seq<Action>, ghost more: seq<Move>)
    requires m.Valid() && Working(before, id, e, m.Requests()) && At(moves, Streaming, trace)
    modifies m
    ensures m.Valid() && OneExecution(before, id, e, m.Requests()) && m.sessionIds == old(m.sessionIds)
    ensures At(more, Returned, after)
    ensures Adds(trace, after, 1, 1, HostTrace(h.source, StreamReading(h, r)))
  {
    hide Registry.Invariant, OneExecution, Working, At, Interpret, Blocks, Adds, HostTrace, StreamWorld, ToHosts;
    var calls := Stream(h.shape, h.source, h.takes, r.lines, r.scanFailed);
    more := GoHostTrace(moves, trace, h.source, StreamReading(h, r));
    var called := trace + ToHosts(calls);
    after, more := RunFinish(m, id, e, before, more, called);
    AddsThen(trace, called, after, calls);
  }

  /** The part with a response, whose ways out all go through `finish`. */
  method Respond<C>(m: Manager.Manager<C>, id: string, h: Host, r: Response, stream: bool, e: Registry.Execution,
                    ghost before: Registry.State, ghost moves: seq<Move>, trace: seq<Action>)
    returns (reply: Reply, after: seq<Action>, ghost more: seq<Move>)
    requires m.Valid() && Working(before, id, e, m.Requests()) && At(moves, Status, trace)
    modifies m
    ensures m.Valid() && OneExecution(before, id, e, m.Requests()) && m.sessionIds == old(m.sessionIds)
    ensures At(more, Returned, after)
    ensures Adds(trace, after, 1, 1, StreamCalls(h, r, stream))
    ensures Answers(h, r, stream, reply)
  {
    hide Registry.Invariant, OneExecution, Working, At, HostCalls, Times, Interpret, Blocks, Contains, Adds, HostTrace,
         CompletionPaths.AddAll, Completion.Assembled, Payloads, StreamWorld, AggregateWorld;
    if r.status < 200 || r.status >= 300 {
      more := Pass(moves, Status, trace, Detail);
      more := Pass(more, Detail, trace, FinishBody);
      reply := Refused("upstream_error", r.status);
      after, more := RunFinish(m, id, e, before, more, trace);
      return;
    }
    more := Pass(moves, Status, trace, ContentType);
    if !Contains(h.lower(r.contentType), "text/event-stream") {
      more := Pass(more, ContentType, trace, FinishBody);
      after, more := RunFinish(m, id, e, before, more, trace);
      reply := Refused("upstream_error", 502);
      return;
    }
    more := Pass(more, ContentType, trace, Branch);
    if stream {
      more := Pass(more, Branch, trace, Streaming);
      after, more := RunStream(m, id, h, r, e, before, more, trace);
      reply := Started;
      return;
    }
    more := Pass(more, Branch, trace, Aggregating);
    var completion := Aggregate(h.shape, h.decode, r.lines, r.scanFailed);
    reply := if completion.None? then Refused("upstream_error", 502) else Completed(completion.value);
    more := Pass(more, Aggregating, trace, FinishBody);
    after, more := RunFinish(m, id, e, before, more, trace);
  }

  lemma NothingYet()
    ensures At([], Entry, []) && Times([Registered], BodyClosed) == 0 && Times([Registered], ConnectionsClosed) == 0
    ensures HostCalls([Registered]) == []
  {
    assert [Registered][..0] == [];
  }

  /** `executeNative` from the registration on, exit by exit as the source has them; the goroutine of a
      stream runs to its end.  The trace is what was done where the source does it, and `moves` is the way
      taken through the code. */
  method Execute<C>(m: Manager.Manager<C>, id: string, h: Host, u: Upstream, stream: bool)
    returns (reply: Reply, trace: seq<Action>, ghost moves: seq<Move>)
    requires m.Valid()
    modifies m
    ensures m.Valid() && m.sessionIds == old(m.sessionIds)
    ensures exists e :: OneExecution(old(m.Requests()), id, e, m.Requests())
    ensures At(moves, Returned, trace) && Disciplined(trace)
    // The body is closed when there is one, the connections when there is a client; and the host sees the
    // read of a stream, and nothing else.
    ensures Times(trace, BodyClosed) == if Responds(u) then 1 else 0
    ensures Times(trace, ConnectionsClosed) == if u.client then 1 else 0
    ensures HostCalls(trace) == if Responds(u) then StreamCalls(h, u.response.value, stream) else []
    ensures Responds(u) ==> Answers(h, u.response.value, stream, reply)
    // Without a response it is a refusal, by the client's fault before anything is sent.
    ensures !Responds(u) ==> reply.Refused? && reply.status == if u.client && u.request then 502 else 400
  {
    hide Registry.Invariant, Registry.Next, Registry.Enabled, OneExecution, At, HostCalls, Times, Disciplined, Answers,
         StreamCalls;
    ghost var before := m.Requests();
    var e := m.NativeContext(id);
    trace := [Registered];
    NothingYet();
    moves := Go([], Entry, [], Some(Registered), Client);
    Sequences.Unit([Registered]);
    ghost var start := trace;
    if !u.client {
      moves := Pass(moves, Client, trace, Pc.Cleanup(Nothing));
      trace, moves := RunCleanup(m, id, e, before, moves, Nothing, trace);
      reply := Refused("proxy_error", 400);
      EveryWayOutIsDisciplined(moves, trace);
      return;
    }
    moves := Pass(moves, Client, trace, Request);
    if !u.request {
      moves := Pass(moves, Request, trace, Pc.Cleanup(ThenConnections));
      trace, moves := GiveUp(m, id, e, before, moves, trace);
      reply := Refused("invalid_request", 400);
      EveryWayOutIsDisciplined(moves, trace);
      return;
    }
    moves := Pass(moves, Request, trace, Send);
    if u.response.None? {
      moves := Pass(moves, Send, trace, Pc.Cleanup(ThenConnections));
      trace, moves := GiveUp(m, id, e, before, moves, trace);
      reply := Refused("upstream_error", 502);
      EveryWayOutIsDisciplined(moves, trace);
      return;
    }
    moves := Pass(moves, Send, trace, Status);
    reply, trace, moves := Respond(m, id, h, u.response.value, stream, e, before, moves, trace);
    EveryWayOutIsDisciplined(moves, trace);
  }
}
