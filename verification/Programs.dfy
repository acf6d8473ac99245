/** Task programs: what one callback handed to the scheduler does, as a finite tree of actions.

    A program is the code a fiber still has to run.  Running it produces one `Step` for each action
    and one closing step, so `Behaviour(p)` is everything an uninterrupted run of `p` would do. */
module Programs {

  /** One action of user code that the runtime can see.  `Spawn` and `Wake` are calls of the
      scheduler's enqueue operation, for a new task and for one by name; `WakeSelf` enqueues the
      fiber that is running the code.  The last three give the CPU back to the worker loop. */
  datatype Act =
    | Work(tag: int)
    | Spawn(child: Prog, asFiber: bool, thread: int)
    | Wake(task: nat, thread: int)
    | WakeSelf(thread: int)
    | YieldReady
    | YieldHold
    | SwapOut

  /** `Return` is a normal end of the callback, `Throw` an exception that leaves it. */
  datatype Prog = Return | Throw | Then(act: Act, rest: Prog)

  datatype Step = Did(act: Act) | Returned | Threw

  /** A step of user code, stamped with the task whose code really ran. */
  datatype Event = Event(task: nat, step: Step)

  /** The states of a fiber. */
  datatype State = INIT | HOLD | EXEC | TERM | READY | EXCEPT

  function Behaviour(p: Prog): seq<Step> {
    match p
    case Return => [Returned]
    case Throw => [Threw]
    case Then(act, rest) => [Did(act)] + Behaviour(rest)
  }

  /** How the program ends: true for a return, false for a throw. */
  predicate Returns(p: Prog) {
    match p
    case Return => true
    case Throw => false
    case Then(_, rest) => Returns(rest)
  }

  /** Weight of a program: two units a step, spawned programs included.  Two, because one action
      may put one entry on a queue. */
  function Size(p: Prog): (n: nat)
    ensures n >= 2
  {
    match p
    case Return => 2
    case Throw => 2
    case Then(Spawn(child, _, _), rest) => 2 + Size(child) + Size(rest)
    case Then(_, rest) => 2 + Size(rest)
  }

  /** The steps of one task, in the order they happened. */
  function Projection(trace: seq<Event>, task: nat): seq<Step> {
    if trace == [] then []
    else
      var last := trace[|trace| - 1];
      Projection(trace[..|trace| - 1], task) + (if last.task == task then [last.step] else [])
  }

  lemma ProjectionSnoc(trace: seq<Event>, e: Event, task: nat)
    ensures Projection(trace + [e], task)
         == Projection(trace, task) + (if e.task == task then [e.step] else [])
  {
    assert (trace + [e])[..|trace|] == trace;
  }

  /** The closing step is the last one and only the last one, and tells how the program ended. */
  lemma {:induction false} BehaviourEnds(p: Prog)
    ensures |Behaviour(p)| > 0
    ensures Behaviour(p)[|Behaviour(p)| - 1] == if Returns(p) then Returned else Threw
    ensures forall i :: 0 <= i < |Behaviour(p)| - 1 ==> Behaviour(p)[i].Did?
  {
    match p
    case Return =>
    case Throw =>
    case Then(_, rest) => BehaviourEnds(rest);
  }

  /** A turn of the task ends with this step: it gives the CPU back. */
  predicate EndsTurn(step: Step) {
    step.Did? ==> step.act.YieldReady? || step.act.YieldHold? || step.act.SwapOut?
  }

  /** How many turns these steps of one task fill. */
  function Turns(steps: seq<Step>): nat {
    if steps == [] then 0 else Turns(steps[..|steps| - 1]) + if EndsTurn(steps[|steps| - 1]) then 1 else 0
  }

  /** After how many of them the task wanted another one. */
  function Readies(steps: seq<Step>): nat {
    if steps == [] then 0 else Readies(steps[..|steps| - 1]) + if steps[|steps| - 1] == Did(YieldReady) then 1 else 0
  }

  lemma TurnsSnoc(steps: seq<Step>, step: Step)
    ensures Turns(steps + [step]) == Turns(steps) + if EndsTurn(step) then 1 else 0
    ensures Readies(steps + [step]) == Readies(steps) + if step == Did(YieldReady) then 1 else 0
  {
    assert (steps + [step])[..|steps|] == steps;
  }

  /** Callbacks whose first slice did not end them; `firsts` tells of each first slice if it did. */
  function Escaped(firsts: seq<bool>): nat {
    if firsts == [] then 0
    else Escaped(firsts[..|firsts| - 1]) + if firsts[|firsts| - 1] then 0 else 1
  }

  lemma EscapedSnoc(firsts: seq<bool>, over: bool)
    ensures Escaped(firsts + [over]) == Escaped(firsts) + if over then 0 else 1
  {
    assert (firsts + [over])[..|firsts|] == firsts;
  }
}
