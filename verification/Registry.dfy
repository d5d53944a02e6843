/** The table of running executions as a state machine: `nativeContext` and its cleanup closure,
    `request.complete`, and `cancelNativeRequests`.  Every step is one critical section, except that
    cleanup cancels before it takes the lock, so it is two steps with anything in between. */
module Registry {

  /** The identity of one `*nativeExecution` and of the context it cancels. */
  datatype Execution = Execution(serial: nat)

  /** How far the cleanup closure of an execution has come. */
  datatype Cleanup = Pending | Cancelling | Done

  datatype State = State(
    requests: map<string, Execution>,
    cancelled: set<Execution>,
    issued: map<Execution, string>,
    cleanup: map<Execution, Cleanup>)

  const EMPTY: State := State(map[], {}, map[], map[])

  datatype Step =
    | Register(id: string, execution: Execution)
    | Complete(id: string)
    | CancelAll
    | CleanupCancel(execution: Execution)
    | CleanupDelete(execution: Execution)

  /** An execution is registered once, and its closure runs once. */
  predicate Enabled(s: State, step: Step) {
    match step
    case Register(_, e) => e !in s.issued
    case Complete(_) => true
    case CancelAll => true
    case CleanupCancel(e) => e in s.cleanup && s.cleanup[e] == Pending
    case CleanupDelete(e) => e in s.cleanup && s.cleanup[e] == Cancelling && e in s.issued
  }

  /** The execution that the table holds for an id, if any. */
  function Held(requests: map<string, Execution>, id: string): set<Execution> {
    if id in requests then {requests[id]} else {}
  }

  predicate Holds(requests: map<string, Execution>, id: string, e: Execution) {
    id in requests && requests[id] == e
  }

  function Next(s: State, step: Step): State
    requires Enabled(s, step)
  {
    match step
    case Register(id, e) =>
      State(s.requests[id := e], s.cancelled + Held(s.requests, id), s.issued[e := id], s.cleanup[e := Pending])
    case Complete(id) =>
      s.(cancelled := s.cancelled + Held(s.requests, id), requests := s.requests - {id})
    case CancelAll =>
      s.(cancelled := s.cancelled + s.requests.Values, requests := map[])
    case CleanupCancel(e) =>
      s.(cancelled := s.cancelled + {e}, cleanup := s.cleanup[e := Cancelling])
    case CleanupDelete(e) =>
      s.(requests := if Holds(s.requests, s.issued[e], e) then s.requests - {s.issued[e]} else s.requests,
         cleanup := s.cleanup[e := Done])
  }

  // ----- the invariant -----

  ghost predicate Invariant(s: State) {
    && s.cleanup.Keys == s.issued.Keys
    && s.cancelled <= s.issued.Keys
    // The table holds executions under the id they were registered for.
    && (forall id <- s.requests :: s.requests[id] in s.issued && s.issued[s.requests[id]] == id)
    // Whoever is no longer in the table has been cancelled.
    && (forall e <- s.issued :: e in s.cancelled || Holds(s.requests, s.issued[e], e))
    // Whoever is cancelled and still in the table is between the two steps of its own cleanup.
    && (forall id <- s.requests :: s.requests[id] in s.cancelled ==> s.cleanup[s.requests[id]] == Cancelling)
    && (forall e <- s.issued :: s.cleanup[e] != Pending ==> e in s.cancelled)
    && (forall e <- s.issued :: s.cleanup[e] == Done ==> !Holds(s.requests, s.issued[e], e))
  }

  lemma RegisterKeeps(s: State, id: string, e: Execution)
    requires Invariant(s) && Enabled(s, Register(id, e))
    ensures Invariant(Next(s, Register(id, e)))
  {
  }

  lemma CancellingKeeps(s: State, step: Step)
    requires Invariant(s) && Enabled(s, step) && (step.Complete? || step.CancelAll?)
    ensures Invariant(Next(s, step))
  {
  }

  lemma CleanupKeeps(s: State, step: Step)
    requires Invariant(s) && Enabled(s, step) && (step.CleanupCancel? || step.CleanupDelete?)
    ensures Invariant(Next(s, step))
  {
  }

  lemma InvariantKept(s: State, step: Step)
    requires Invariant(s) && Enabled(s, step)
    ensures Invariant(Next(s, step))
  {
    if step.Register? {
      RegisterKeeps(s, step.id, step.execution);
    } else if step.Complete? || step.CancelAll? {
      CancellingKeeps(s, step);
    } else {
      CleanupKeeps(s, step);
    }
  }

  // ----- runs: every interleaving -----

  ghost predicate Run(s: State, steps: seq<Step>, end: State)
    decreases |steps|
  {
    if steps == [] then s == end
    else Enabled(s, steps[0]) && Run(Next(s, steps[0]), steps[1..], end)
  }

  /** Every execution ever registered is still in the table or has been cancelled, and so on, in every
      state that any interleaving reaches. */
  lemma {:induction false} InvariantOfRuns(s: State, steps: seq<Step>, end: State)
    requires Invariant(s) && Run(s, steps, end)
    ensures Invariant(end)
    decreases |steps|
  {
    if steps != [] {
      InvariantKept(s, steps[0]);
      InvariantOfRuns(Next(s, steps[0]), steps[1..], end);
    }
  }

  /** At most one execution per id is live. */
  lemma OneLivePerId(steps: seq<Step>, end: State, a: Execution, b: Execution)
    requires Run(EMPTY, steps, end)
    requires a in end.issued && b in end.issued && end.issued[a] == end.issued[b]
    requires a !in end.cancelled && b !in end.cancelled
    ensures a == b
  {
    InvariantOfRuns(EMPTY, steps, end);
  }

  /** When every closure has run to its end, nothing is left in the table and nothing is live. */
  lemma AllCleanedUp(steps: seq<Step>, end: State)
    requires Run(EMPTY, steps, end)
    requires forall e <- end.cleanup :: end.cleanup[e] == Done
    ensures end.requests == map[] && end.cancelled == end.issued.Keys
  {
    InvariantOfRuns(EMPTY, steps, end);
    assert forall id :: id !in end.requests;
  }

  /** A closure that has run to its end stays so: no execution is registered twice. */
  lemma {:induction false} DoneStays(s: State, steps: seq<Step>, end: State, e: Execution)
    requires Run(s, steps, end) && s.cleanup.Keys == s.issued.Keys
    requires (e in s.cleanup && s.cleanup[e] == Done) || CleanupDelete(e) in steps
    ensures e in end.cleanup && end.cleanup[e] == Done
    decreases |steps|
  {
    if steps != [] {
      var next := Next(s, steps[0]);
      assert steps == [steps[0]] + steps[1..];
      DoneStays(next, steps[1..], end, e);
    }
  }

  /** When the closure of every registered execution has run, in any interleaving, the table is empty. */
  lemma FinishedExecutionsLeaveNothing(steps: seq<Step>, end: State)
    requires Run(EMPTY, steps, end)
    requires forall e <- end.issued :: CleanupDelete(e) in steps
    ensures end.requests == map[] && end.cancelled == end.issued.Keys
  {
    InvariantOfRuns(EMPTY, steps, end);
    forall e | e in end.cleanup
      ensures end.cleanup[e] == Done
    {
      DoneStays(EMPTY, steps, end, e);
    }
    AllCleanedUp(steps, end);
  }

  // ----- what a step may touch -----

  /** The executions a step is entitled to cancel: those of its own id, its own, or all. */
  predicate MayCancel(s: State, step: Step, e: Execution) {
    match step
    case Register(id, _) => Holds(s.requests, id, e)
    case Complete(id) => Holds(s.requests, id, e)
    case CancelAll => e in s.requests.Values
    case CleanupCancel(other) => e == other
    case CleanupDelete(_) => false
  }

  /** A step cancels exactly whom it may, never revives anyone, and a late cleanup leaves the
      replacement of its execution registered and live. */
  lemma StepFrame(s: State, step: Step)
    requires Invariant(s) && Enabled(s, step)
    ensures forall e :: e in Next(s, step).cancelled <==> e in s.cancelled || MayCancel(s, step, e)
    ensures forall id <- s.requests ::
              (step.CleanupCancel? || step.CleanupDelete?) && step.execution != s.requests[id] ==>
                && Holds(Next(s, step).requests, id, s.requests[id])
                && (s.requests[id] in Next(s, step).cancelled <==> s.requests[id] in s.cancelled)
  {
  }

  /** Whether a step can end the registration of one execution. */
  predicate Ends(step: Step, id: string, e: Execution) {
    match step
    case Register(other, _) => other == id
    case Complete(other) => other == id
    case CancelAll => true
    case CleanupCancel(other) => other == e
    case CleanupDelete(other) => other == e
  }

  /** A registered, live execution stays so through any run without a step of its own: no step of
      another id and no cleanup of a predecessor, however late, can touch it. */
  lemma {:induction false} LiveUntilEnded(s: State, steps: seq<Step>, end: State, id: string, e: Execution)
    requires Invariant(s) && Run(s, steps, end)
    requires Holds(s.requests, id, e) && e !in s.cancelled
    requires forall step <- steps :: !Ends(step, id, e)
    ensures Holds(end.requests, id, e) && e !in end.cancelled
    decreases |steps|
  {
    if steps != [] {
      InvariantKept(s, steps[0]);
      StepKeepsOthers(s, steps[0], id, e);
      LiveUntilEnded(Next(s, steps[0]), steps[1..], end, id, e);
    }
  }

  lemma StepKeepsOthers(s: State, step: Step, id: string, e: Execution)
    requires Invariant(s) && Enabled(s, step) && !Ends(step, id, e)
    requires Holds(s.requests, id, e) && e !in s.cancelled
    ensures Holds(Next(s, step).requests, id, e) && e !in Next(s, step).cancelled
  {
  }

  /** Once cancelled or cleaned up, always so. */
  lemma {:induction false} CancelledForGood(s: State, steps: seq<Step>, end: State)
    requires Run(s, steps, end)
    ensures s.cancelled <= end.cancelled && s.issued.Keys <= end.issued.Keys
    decreases |steps|
  {
    if steps != [] {
      CancelledForGood(Next(s, steps[0]), steps[1..], end);
    }
  }
}
