/** The control flow of `executeNative` from the registration on, as a program counter, and every
    interleaving of any number of such executions with the rest of the registry. */
module Exits {
  import opened Text
  import opened Agreement
  import opened Registry
  import Sequences

  /** What an execution does that others can see; `cleanup` is two of them. */
  datatype Action = Registered | ToHost(call: HostCall) | BodyClosed | ConnectionsClosed | Cancelled | Deleted

  /** What stands behind an inline `cleanup()`: a return, or closing the connections first. */
  datatype Rest = Nothing | ThenConnections

  /** The places of the code, in its order; a pending `defer finish()` is where its function returns to. */
  datatype Pc =
    | Entry
    | Client                  // the client is made
    | Request                 // the request is made
    | Send                    // the request is sent
    | Status                  // the status is looked at
    | Detail                  // a bad status: its detail is read, finish is deferred
    | ContentType             // the content type is looked at
    | Branch                  // stream or not
    | Streaming               // the goroutine: the host is called, finish is deferred
    | Aggregating             // the completion is assembled, finish is deferred
    | FinishBody              // finish: the body
    | FinishConnections       // finish: the connections
    | Cleanup(rest: Rest)     // cleanup: the cancel, outside the lock
    | Locked(rest: Rest)      // cleanup: the delete, under the lock
    | Connections             // the connections behind an inline cleanup
    | Returned

  /** One step from one place to the next; whatever decides is outside. */
  predicate Moves(pc: Pc, action: Option<Action>, next: Pc) {
    match pc
    case Entry => action == Some(Registered) && next == Client
    case Client => action == None && (next == Request || next == Cleanup(Nothing))
    case Request => action == None && (next == Send || next == Cleanup(ThenConnections))
    case Send => action == None && (next == Status || next == Cleanup(ThenConnections))
    case Status => action == None && (next == ContentType || next == Detail)
    case Detail => action == None && next == FinishBody
    case ContentType => action == None && (next == Branch || next == FinishBody)
    case Branch => action == None && (next == Streaming || next == Aggregating)
    case Streaming =>
      && action.Some? && action.value.ToHost?
      && next == if action.value.call.Emit? then Streaming else FinishBody
    case Aggregating => action == None && next == FinishBody
    case FinishBody => action == Some(BodyClosed) && next == FinishConnections
    case FinishConnections => action == Some(ConnectionsClosed) && next == Cleanup(Nothing)
    case Cleanup(rest) => action == Some(Cancelled) && next == Locked(rest)
    case Locked(rest) => action == Some(Deleted) && next == if rest.Nothing? then Returned else Connections
    case Connections => action == Some(ConnectionsClosed) && next == Returned
    case Returned => false
  }

  datatype Move = Move(action: Option<Action>, pc: Pc)

  ghost predicate Path(pc: Pc, moves: seq<Move>, end: Pc)
    decreases |moves|
  {
    if moves == [] then pc == end
    else Moves(pc, moves[0].action, moves[0].pc) && Path(moves[0].pc, moves[1..], end)
  }

  function Just(action: Option<Action>): seq<Action> {
    if action.Some? then [action.value] else []
  }

  function Actions(moves: seq<Move>): seq<Action> {
    if moves == [] then [] else Just(moves[0].action) + Actions(moves[1..])
  }

  /** From the entry these moves lead to this place, with this trace. */
  ghost predicate At(moves: seq<Move>, pc: Pc, trace: seq<Action>) {
    Path(Entry, moves, pc) && Actions(moves) == trace
  }

  lemma {:induction false} PathSnoc(pc: Pc, moves: seq<Move>, mid: Pc, move: Move)
    requires Path(pc, moves, mid) && Moves(mid, move.action, move.pc)
    ensures Path(pc, moves + [move], move.pc) && Actions(moves + [move]) == Actions(moves) + Just(move.action)
    decreases |moves|
  {
    hide Moves;
    if moves == [] {
      Sequences.Unit([move]);
      Sequences.ConsTail(move, []);
      Sequences.Unit(Just(move.action));
      assert Actions([]) == [] && Path(move.pc, [], move.pc);
    } else {
      Sequences.AppendTail(moves, [move]);
      PathSnoc(moves[0].pc, moves[1..], mid, move);
      Sequences.Assoc(Just(moves[0].action), Actions(moves[1..]), Just(move.action));
    }
  }

  // ----- what a trace keeps on every way -----

  function Times(trace: seq<Action>, action: Action): nat {
    multiset(trace)[action]
  }

  predicate IsClosing(action: Action) {
    action == BodyClosed || action == ConnectionsClosed || action == Cancelled || action == Deleted
  }

  predicate IsClose(action: Action) {
    action.ToHost? && action.call.Close?
  }

  /** No call to the host stands behind a close, nor behind anything that is given up. */
  predicate HostComesFirst(trace: seq<Action>) {
    forall i, j :: 0 <= i < j < |trace| && trace[j].ToHost? ==> !IsClosing(trace[i]) && !IsClose(trace[i])
  }

  predicate CancelsFirst(trace: seq<Action>) {
    forall i, j :: 0 <= i < j < |trace| && trace[j] == Cancelled ==> trace[i] != Deleted
  }

  predicate CallsHost(trace: seq<Action>) {
    exists a <- trace :: a.ToHost?
  }

  predicate ClosesStream(trace: seq<Action>) {
    exists a <- trace :: IsClose(a)
  }

  /** How often each thing has happened when an execution is at a place. */
  ghost predicate Counted(pc: Pc, trace: seq<Action>) {
    && Times(trace, Registered) == (if pc == Entry then 0 else 1)
    && Times(trace, Cancelled) == (if pc.Locked? || pc == Connections || pc == Returned then 1 else 0)
    && Times(trace, Deleted) == (if pc == Connections || pc == Returned then 1 else 0)
    && Times(trace, BodyClosed) <= (if Opened(pc) then 0 else 1)
    && Times(trace, ConnectionsClosed) <= (if Opened(pc) || BeforeConnections(pc) then 0 else 1)
  }

  predicate BeforeConnections(pc: Pc) {
    || pc == FinishConnections || pc == Connections
    || pc == Cleanup(ThenConnections) || pc == Locked(ThenConnections)
  }

  ghost predicate Hosted(pc: Pc, trace: seq<Action>) {
    && (CallsHost(trace) ==> pc == Streaming || ClosesStream(trace))
    && (pc == Streaming ==> !ClosesStream(trace))
    && (Opened(pc) && pc != Streaming && pc != FinishBody ==> !CallsHost(trace))
  }

  /** What has happened when an execution is at a place. */
  ghost predicate Fits(pc: Pc, trace: seq<Action>) {
    && Counted(pc, trace) && Hosted(pc, trace)
    && HostComesFirst(trace) && CancelsFirst(trace)
    && (if pc == Entry then trace == [] else trace != [] && trace[0] == Registered)
  }

  /** Nothing has been given up yet. */
  predicate Opened(pc: Pc) {
    !pc.FinishConnections? && !pc.Cleanup? && !pc.Locked? && !pc.Connections? && !pc.Returned?
  }

  lemma OneMoreAction(trace: seq<Action>, action: Action)
    ensures forall a :: Times(trace + [action], a) == Times(trace, a) + if a == action then 1 else 0
    ensures CallsHost(trace + [action]) <==> CallsHost(trace) || action.ToHost?
    ensures ClosesStream(trace + [action]) <==> ClosesStream(trace) || IsClose(action)
    ensures (forall a <- trace :: !IsClosing(a) && !IsClose(a)) || !action.ToHost? ==>
              (HostComesFirst(trace) ==> HostComesFirst(trace + [action]))
    ensures Times(trace, Deleted) == 0 || action != Cancelled ==>
              (CancelsFirst(trace) ==> CancelsFirst(trace + [action]))
  {
    var more := trace + [action];
    assert multiset(more) == multiset(trace) + multiset{action};
    assert forall a :: a in more <==> a in trace || a == action;
    assert forall a :: a in trace ==> Times(trace, a) > 0;
  }

  lemma NothingClosing(pc: Pc, trace: seq<Action>)
    requires Fits(pc, trace) && pc == Streaming
    ensures forall a <- trace :: !IsClosing(a) && !IsClose(a)
  {
    assert forall a :: a in trace <==> Times(trace, a) > 0;
  }

  lemma ClosingIsCalling(trace: seq<Action>)
    ensures ClosesStream(trace) ==> CallsHost(trace)
  {
  }

  lemma MoveCounts(pc: Pc, trace: seq<Action>, action: Option<Action>, next: Pc)
    requires Counted(pc, trace) && Moves(pc, action, next)
    ensures Counted(next, trace + Just(action))
  {
    hide Times, HostComesFirst, CancelsFirst, CallsHost, ClosesStream;
    Sequences.Unit(trace);
    if action.Some? {
      OneMoreAction(trace, action.value);
    }
  }

  lemma MoveHosts(pc: Pc, trace: seq<Action>, action: Option<Action>, next: Pc)
    requires Hosted(pc, trace) && Moves(pc, action, next)
    ensures Hosted(next, trace + Just(action))
  {
    hide Times, HostComesFirst, CancelsFirst, CallsHost, ClosesStream;
    Sequences.Unit(trace);
    ClosingIsCalling(trace);
    if action.Some? {
      OneMoreAction(trace, action.value);
    }
  }

  lemma MoveOrders(pc: Pc, trace: seq<Action>, action: Option<Action>, next: Pc)
    requires Fits(pc, trace) && Moves(pc, action, next)
    ensures HostComesFirst(trace + Just(action)) && CancelsFirst(trace + Just(action))
    ensures if next == Entry then trace + Just(action) == []
            else trace + Just(action) != [] && (trace + Just(action))[0] == Registered
  {
    hide Times, HostComesFirst, CancelsFirst, CallsHost, ClosesStream, Hosted;
    Sequences.Unit(trace);
    if action.Some? {
      OneMoreAction(trace, action.value);
      if pc == Streaming {
        NothingClosing(pc, trace);
      }
    }
  }

  lemma MoveFits(pc: Pc, trace: seq<Action>, action: Option<Action>, next: Pc)
    requires Fits(pc, trace) && Moves(pc, action, next)
    ensures Fits(next, trace + Just(action))
  {
    hide Moves, Counted, Hosted, HostComesFirst, CancelsFirst;
    MoveCounts(pc, trace, action, next);
    MoveHosts(pc, trace, action, next);
    MoveOrders(pc, trace, action, next);
  }

  lemma {:induction false} PathFits(pc: Pc, trace: seq<Action>, moves: seq<Move>, end: Pc)
    requires Fits(pc, trace) && Path(pc, moves, end)
    ensures Fits(end, trace + Actions(moves))
    decreases |moves|
  {
    hide Fits, Moves;
    if moves == [] {
      Sequences.Unit(trace);
    } else {
      MoveFits(pc, trace, moves[0].action, moves[0].pc);
      PathFits(moves[0].pc, trace + Just(moves[0].action), moves[1..], end);
      Sequences.Assoc(trace, Just(moves[0].action), Actions(moves[1..]));
    }
  }

  lemma EntryFits()
    ensures Fits(Entry, [])
  {
  }

  /** On every way out: registered first and once; cancelled once and then deleted from the table once;
      body and connections closed at most once; no call to the host behind any of that; and if the host was
      called at all, one close was the last call. */
  ghost predicate Disciplined(trace: seq<Action>) {
    && trace != [] && trace[0] == Registered && Times(trace, Registered) == 1
    && Times(trace, Cancelled) == 1 && Times(trace, Deleted) == 1 && CancelsFirst(trace)
    && Times(trace, BodyClosed) <= 1 && Times(trace, ConnectionsClosed) <= 1
    && HostComesFirst(trace)
    && (CallsHost(trace) ==> ClosesStream(trace))
  }

  lemma ReturnedIsDisciplined(trace: seq<Action>)
    requires Fits(Returned, trace)
    ensures Disciplined(trace)
  {
    hide Times, HostComesFirst, CancelsFirst, CallsHost, ClosesStream;
  }

  lemma EveryWayOutIsDisciplined(moves: seq<Move>, trace: seq<Action>)
    requires At(moves, Returned, trace)
    ensures Disciplined(trace)
  {
    hide Fits, Path, Disciplined;
    EntryFits();
    PathFits(Entry, [], moves, Returned);
    Sequences.Unit(trace);
    ReturnedIsDisciplined(trace);
  }

  function Rank(pc: Pc): nat {
    match pc
    case Entry => 13 case Client => 12 case Request => 11 case Send => 10 case Status => 9 case ContentType => 8
    case Branch => 7 case Streaming => 6 case Aggregating => 6 case Detail => 6 case FinishBody => 5
    case FinishConnections => 4 case Cleanup(_) => 3 case Locked(_) => 2 case Connections => 1 case Returned => 0
  }

  function Ahead(pc: Pc): Move
    requires pc != Returned
  {
    match pc
    case Entry => Move(Some(Registered), Client)
    case Client => Move(None, Request)
    case Request => Move(None, Send)
    case Send => Move(None, Status)
    case Status => Move(None, ContentType)
    case ContentType => Move(None, Branch)
    case Branch => Move(None, Streaming)
    case Streaming => Move(Some(ToHost(Close(false))), FinishBody)
    case Aggregating => Move(None, FinishBody)
    case Detail => Move(None, FinishBody)
    case FinishBody => Move(Some(BodyClosed), FinishConnections)
    case FinishConnections => Move(Some(ConnectionsClosed), Cleanup(Nothing))
    case Cleanup(rest) => Move(Some(Cancelled), Locked(rest))
    case Locked(rest) => Move(Some(Deleted), if rest.Nothing? then Returned else Connections)
    case Connections => Move(Some(ConnectionsClosed), Returned)
  }

  /** No place is a dead end. */
  lemma {:induction false} ThereIsAWayOut(pc: Pc)
    ensures exists moves :: Path(pc, moves, Returned)
    decreases Rank(pc)
  {
    hide Path;
    if pc == Returned {
      NoMoves(pc);
    } else {
      var move := Ahead(pc);
      assert Moves(pc, move.action, move.pc) && Rank(move.pc) < Rank(pc);
      ThereIsAWayOut(move.pc);
      var moves :| Path(move.pc, moves, Returned);
      PathCons(pc, move, moves, Returned);
    }
  }

  lemma NoMoves(pc: Pc)
    ensures Path(pc, [], pc)
  {
  }

  lemma PathCons(pc: Pc, move: Move, moves: seq<Move>, end: Pc)
    requires Moves(pc, move.action, move.pc) && Path(move.pc, moves, end)
    ensures Path(pc, [move] + moves, end)
  {
    hide Moves;
    Sequences.ConsTail(move, moves);
  }

  // ----- any number of executions, in any interleaving -----

  datatype Thread = Thread(id: string, pc: Pc, trace: seq<Action>)

  datatype System = System(registry: State, threads: map<Execution, Thread>)

  const START: System := System(Registry.EMPTY, map[])

  /** A request enters and registers; an execution moves on; or another critical section takes the lock:
      `request.complete`, or a lifecycle call that cancels everything. */
  datatype Event =
    | Enter(id: string, execution: Execution)
    | Advance(execution: Execution, move: Move)
    | Outside(step: Step)

  predicate Possible(s: System, event: Event) {
    match event
    case Enter(_, e) => e !in s.registry.issued
    case Advance(e, move) => e in s.threads && Moves(s.threads[e].pc, move.action, move.pc)
    case Outside(step) => step.Complete? || step.CancelAll?
  }

  /** What an event does to the registry. */
  function Effect(event: Event): Option<Step> {
    match event
    case Enter(id, e) => Some(Register(id, e))
    case Advance(e, move) =>
      if move.action == Some(Cancelled) then Some(CleanupCancel(e))
      else if move.action == Some(Deleted) then Some(CleanupDelete(e))
      else None
    case Outside(step) => Some(step)
  }

  function Apply(registry: State, effect: Option<Step>): State {
    if effect.Some? && Enabled(registry, effect.value) then Next(registry, effect.value) else registry
  }

  function AfterEvent(s: System, event: Event): System
    requires Possible(s, event)
  {
    System(
      Apply(s.registry, Effect(event)),
      match event
      case Enter(id, e) => s.threads[e := Thread(id, Client, [Registered])]
      case Advance(e, move) =>
        s.threads[e := Thread(s.threads[e].id, move.pc, s.threads[e].trace + Just(move.action))]
      case Outside(_) => s.threads)
  }

  /** How far the registry sees the cleanup of an execution. */
  function Stage(pc: Pc): Registry.Cleanup {
    if pc.Locked? then Cancelling else if pc == Connections || pc == Returned then Done else Pending
  }

  ghost predicate InStep(registry: State, threads: map<Execution, Thread>, e: Execution)
    requires e in threads
  {
    && e in registry.issued && registry.issued[e] == threads[e].id
    && e in registry.cleanup && registry.cleanup[e] == Stage(threads[e].pc)
    && threads[e].pc != Entry && Fits(threads[e].pc, threads[e].trace)
  }

  ghost predicate Sound(s: System) {
    && Invariant(s.registry)
    && s.threads.Keys == s.registry.issued.Keys
    && forall e <- s.threads :: InStep(s.registry, s.threads, e)
  }

  /** No execution ever finds its own cleanup done or begun by anyone but itself. */
  lemma EffectIsEnabled(s: System, event: Event)
    requires Sound(s) && Possible(s, event)
    ensures Effect(event).Some? ==> Enabled(s.registry, Effect(event).value)
  {
    hide Invariant, Fits;
    if event.Advance? {
      assert InStep(s.registry, s.threads, event.execution);
    }
  }

  /** Registry steps leave the cleanup of the other executions and the issued ids alone. */
  lemma OthersStay(registry: State, step: Step, e: Execution)
    requires Enabled(registry, step) && e in registry.issued && e in registry.cleanup
    requires step.Register? || step.CleanupCancel? || step.CleanupDelete? ==> e != step.execution
    ensures var after := Next(registry, step);
            && e in after.issued && after.issued[e] == registry.issued[e]
            && e in after.cleanup && after.cleanup[e] == registry.cleanup[e]
  {
  }

  lemma OwnStep(registry: State, pc: Pc, e: Execution, move: Move)
    requires e in registry.issued && e in registry.cleanup && registry.cleanup[e] == Stage(pc) && pc != Entry
    requires Moves(pc, move.action, move.pc)
    ensures var effect := Effect(Advance(e, move));
            && (effect.Some? ==> Enabled(registry, effect.value))
            && var after := Apply(registry, effect);
               && e in after.issued && after.issued[e] == registry.issued[e]
               && e in after.cleanup && after.cleanup[e] == Stage(move.pc)
  {
  }

  lemma RegistryStaysSound(s: System, event: Event)
    requires Sound(s) && Possible(s, event)
    ensures Invariant(AfterEvent(s, event).registry)
    ensures AfterEvent(s, event).threads.Keys == AfterEvent(s, event).registry.issued.Keys
  {
    hide Invariant, Fits, Moves;
    EffectIsEnabled(s, event);
    if Effect(event).Some? {
      InvariantKept(s.registry, Effect(event).value);
    }
    if event.Advance? {
      assert event.execution in s.threads;
    }
  }

  lemma ThreadStaysInStep(s: System, event: Event, e: Execution)
    requires Sound(s) && Possible(s, event) && e in AfterEvent(s, event).threads
    ensures InStep(AfterEvent(s, event).registry, AfterEvent(s, event).threads, e)
  {
    hide Invariant, Fits, Moves;
    EffectIsEnabled(s, event);
    if event.Enter? && e == event.execution {
      EntryFits();
      EntryMoves();
      MoveFits(Entry, [], Some(Registered), Client);
      Sequences.Unit([Registered]);
    } else {
      assert InStep(s.registry, s.threads, e);
      if event.Advance? && e == event.execution {
        OwnStep(s.registry, s.threads[e].pc, e, event.move);
        MoveFits(s.threads[e].pc, s.threads[e].trace, event.move.action, event.move.pc);
        NoReturnToEntry(s.threads[e].pc, event.move);
      } else if Effect(event).Some? {
        OthersStay(s.registry, Effect(event).value, e);
      }
    }
  }

  lemma EntryMoves()
    ensures Moves(Entry, Some(Registered), Client)
  {
  }

  lemma NoReturnToEntry(pc: Pc, move: Move)
    requires Moves(pc, move.action, move.pc)
    ensures move.pc != Entry
  {
  }

  lemma SoundKept(s: System, event: Event)
    requires Sound(s) && Possible(s, event)
    ensures Sound(AfterEvent(s, event))
  {
    hide Invariant, InStep, Possible, AfterEvent;
    RegistryStaysSound(s, event);
    forall e | e in AfterEvent(s, event).threads
      ensures InStep(AfterEvent(s, event).registry, AfterEvent(s, event).threads, e)
    {
      ThreadStaysInStep(s, event, e);
    }
  }

  ghost predicate SystemRun(s: System, events: seq<Event>, end: System)
    decreases |events|
  {
    if events == [] then s == end
    else Possible(s, events[0]) && SystemRun(AfterEvent(s, events[0]), events[1..], end)
  }

  /** In every state that any interleaving reaches, every execution is in step with the registry and its
      trace fits the place it is at. */
  lemma {:induction false} SoundRuns(s: System, events: seq<Event>, end: System)
    requires Sound(s) && SystemRun(s, events, end)
    ensures Sound(end)
    decreases |events|
  {
    hide Sound, Possible, AfterEvent;
    if events != [] {
      SoundKept(s, events[0]);
      SoundRuns(AfterEvent(s, events[0]), events[1..], end);
    }
  }

  lemma StartIsSound()
    ensures Sound(START)
  {
  }

  /** An execution that has not yet come to its cleanup is in the table, or someone has cancelled it. */
  lemma WorkingIsRegistered(events: seq<Event>, end: System, e: Execution)
    requires SystemRun(START, events, end) && e in end.threads
    ensures e in end.registry.cancelled || Holds(end.registry.requests, end.threads[e].id, e)
  {
    hide SystemRun, Fits;
    StartIsSound();
    SoundRuns(START, events, end);
    assert InStep(end.registry, end.threads, e);
  }

  function Effects(events: seq<Event>): seq<Step> {
    if events == [] then []
    else (if Effect(events[0]).Some? then [Effect(events[0]).value] else []) + Effects(events[1..])
  }

  /** What the registry sees of any interleaving is one of its runs, so that all its theorems hold here. */
  lemma {:induction false} RunsAreRegistryRuns(s: System, events: seq<Event>, end: System)
    requires Sound(s) && SystemRun(s, events, end)
    ensures Run(s.registry, Effects(events), end.registry)
    decreases |events|
  {
    hide Sound, Possible, Enabled, Next, Effect;
    if events != [] {
      EffectIsEnabled(s, events[0]);
      SoundKept(s, events[0]);
      RunsAreRegistryRuns(AfterEvent(s, events[0]), events[1..], end);
      var effect, rest := Effect(events[0]), Effects(events[1..]);
      Sequences.Unit(rest);
      if effect.Some? {
        Sequences.ConsTail(effect.value, rest);
      }
    }
  }

  /** When all executions have returned, in whatever way and interleaving, nothing is left in the table,
      everything is cancelled, and every trace is disciplined: none forgot its cleanup or ran it twice. */
  lemma ReturnedLeaveNothing(events: seq<Event>, end: System)
    requires SystemRun(START, events, end)
    requires forall e <- end.threads :: end.threads[e].pc == Returned
    ensures end.registry.requests == map[] && end.registry.cancelled == end.registry.issued.Keys
    ensures forall e <- end.threads :: Disciplined(end.threads[e].trace)
  {
    hide SystemRun, Invariant, Run, Fits, Disciplined;
    StartIsSound();
    SoundRuns(START, events, end);
    RunsAreRegistryRuns(START, events, end);
    forall e | e in end.threads
      ensures InStep(end.registry, end.threads, e) && Disciplined(end.threads[e].trace)
    {
      assert InStep(end.registry, end.threads, e);
      ReturnedIsDisciplined(end.threads[e].trace);
    }
    assert end.registry.cleanup.Keys == end.registry.issued.Keys by { InvariantKeys(end.registry); }
    AllCleanedUp(Effects(events), end.registry);
  }

  lemma InvariantKeys(registry: State)
    requires Invariant(registry)
    ensures registry.cleanup.Keys == registry.issued.Keys
  {
  }
}
