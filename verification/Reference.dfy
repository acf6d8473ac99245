/** The scheduler as a client sees it: a queue of tasks, each with a context of its own.

    There are no fibers here, no fiber states and no recycling: `RunAll` is the run in which every
    callback has a context of its own.  The worker loop of `Runtime.Scheduler` computes
    `Recycling.RunPooled`, made of the same turns; the two agree exactly as
    `Recycling.InvisibleExactly` says. */
module Reference {
  import opened Programs

  /** `Pending` is a callback still in the queue, `Fresh` a fiber that has never run. */
  datatype Status =
    | Pending(prog: Prog)
    | Fresh(prog: Prog)
    | Running
    | Ready(rest: Prog)
    | Held(rest: Prog)
    | Finished
    | Failed

  datatype Task = Task(prog: Prog, status: Status)

  /** One queue entry: a task, and the thread it is pinned to (-1 for none). */
  datatype Slot = Slot(task: nat, thread: int)

  /** `named` holds the tasks that own a fiber which other code may enqueue.
      `firsts` records, for every callback in the order of their first slices, whether that slice
      ended the callback.  `dropped` counts entries drawn whose task was already over, and `rude`
      counts wake calls for a task that was not parked. */
  datatype Sched = Sched(
    queue: seq<Slot>,
    table: seq<Task>,
    named: set<nat>,
    trace: seq<Event>,
    firsts: seq<bool>,
    dropped: nat,
    rude: nat)

  datatype Ending = ToReady(rest: Prog) | ToHold(rest: Prog) | ToRaw(rest: Prog) | Done | Thrown

  const NONE := -1

  const EMPTY := Sched([], [], {}, [], [], 0, 0)

  // ----- operations

  function Log(a: Sched, task: nat, step: Step): Sched {
    a.(trace := a.trace + [Event(task, step)])
  }

  function Enqueue(a: Sched, task: nat, thread: int): Sched {
    a.(queue := a.queue + [Slot(task, thread)])
  }

  function Submit(a: Sched, prog: Prog, asFiber: bool, thread: int): Sched {
    var t := |a.table|;
    a.(queue := a.queue + [Slot(t, thread)],
       table := a.table + [Task(prog, if asFiber then Fresh(prog) else Pending(prog))],
       named := if asFiber then a.named + {t} else a.named)
  }

  function SetStatus(a: Sched, task: nat, s: Status): Sched
    requires task < |a.table|
  {
    a.(table := a.table[task := a.table[task].(status := s)])
  }

  predicate HasSlot(q: seq<Slot>, t: nat) {
    exists i :: 0 <= i < |q| && q[i].task == t
  }

  /** Suspended, and waiting for somebody to enqueue it. */
  predicate Parked(a: Sched, t: nat) {
    t < |a.table| && a.table[t].status.Held? && !HasSlot(a.queue, t)
  }

  /** Enqueueing a task by name: possible as soon as the task owns a fiber. */
  function WakeUp(a: Sched, t: nat, thread: int): Sched {
    if t !in a.named then a
    else Enqueue(a, t, thread).(rude := if Parked(a, t) then a.rude else a.rude + 1)
  }

  predicate Yields(act: Act) {
    act.YieldReady? || act.YieldHold? || act.SwapOut?
  }

  /** One action of task `u`. */
  function Perform(a: Sched, u: nat, act: Act): Sched {
    var b := Log(a, u, Did(act));
    match act
    case Spawn(child, asFiber, thread) => Submit(b, child, asFiber, thread)
    case Wake(t, thread) => WakeUp(b, t, thread)
    case WakeSelf(thread) => Enqueue(b, u, thread).(rude := b.rude + 1)
    case _ => b
  }

  /** What task `u` does from `p` on until it gives the CPU back. */
  function Slice(a: Sched, u: nat, p: Prog): (Sched, Ending)
    decreases p
  {
    match p
    case Return => (Log(a, u, Returned), Done)
    case Throw => (Log(a, u, Threw), Thrown)
    case Then(act, rest) =>
      var b := Perform(a, u, act);
      match act
      case YieldReady => (b, ToReady(rest))
      case YieldHold => (b, ToHold(rest))
      case SwapOut => (b, ToRaw(rest))
      case _ => Slice(b, u, rest)
  }

  /** The worker's bookkeeping after the slice.  A ready task goes to the back without its pin. */
  function Settle(a: Sched, u: nat, e: Ending): Sched
    requires u < |a.table|
  {
    match e
    case ToReady(rest) => Enqueue(SetStatus(a, u, Ready(rest)), u, NONE).(named := a.named + {u})
    case ToHold(rest) => SetStatus(a, u, Held(rest)).(named := a.named + {u})
    case ToRaw(rest) => SetStatus(a, u, Held(rest)).(named := a.named + {u})
    case Done => SetStatus(a, u, Finished)
    case Thrown => SetStatus(a, u, Failed)
  }

  predicate Runnable(slot: Slot, me: int) {
    slot.thread == NONE || slot.thread == me
  }

  /** Index of the first entry thread `me` may take, or |q|. */
  function First(q: seq<Slot>, me: int): (i: nat)
    ensures i <= |q|
    ensures forall j :: 0 <= j < i ==> !Runnable(q[j], me)
    ensures i < |q| ==> Runnable(q[i], me)
  {
    if q == [] then 0
    else if Runnable(q[0], me) then 0
    else
      var i := First(q[1..], me);
      assert forall j :: 1 <= j < i + 1 ==> q[j] == q[1..][j - 1];
      i + 1
  }

  function Drop(a: Sched, i: nat): Sched
    requires i < |a.queue|
  {
    a.(queue := a.queue[..i] + a.queue[i + 1..])
  }

  predicate Live(s: Status) {
    s.Pending? || s.Fresh? || s.Ready? || s.Held?
  }

  function Rest(s: Status): Prog
    requires Live(s)
  {
    match s
    case Pending(p) => p
    case Fresh(p) => p
    case Ready(p) => p
    case Held(p) => p
  }

  function Begin(a: Sched, i: nat): Sched
    requires i < |a.queue| && a.queue[i].task < |a.table|
  {
    SetStatus(Drop(a, i), a.queue[i].task, Running)
  }

  function Ends(e: Ending): bool { e.Done? || e.Thrown? }

  function NoteFirst(a: Sched, pending: bool, e: Ending): Sched {
    if pending then a.(firsts := a.firsts + [Ends(e)]) else a
  }

  /** Task `u`, already marked running, gets a slice from `p` on and is put away. */
  function Serve(a: Sched, u: nat, p: Prog, pending: bool): Sched
    requires u < |a.table|
  {
    SliceGrows(a, u, p);
    var (b, e) := Slice(a, u, p);
    NoteFirst(Settle(b, u, e), pending, e)
  }

  /** One turn of the worker loop on the live entry at index `i`. */
  function Turn(a: Sched, i: nat): Sched
    requires i < |a.queue| && a.queue[i].task < |a.table|
    requires Live(a.table[a.queue[i].task].status)
  {
    var s := a.table[a.queue[i].task].status;
    Serve(Begin(a, i), a.queue[i].task, Rest(s), s.Pending?)
  }

  // ----- well-formed states

  /** Every entry names a task, and a callback that has not begun is queued once. */
  ghost predicate EntriesOk(q: seq<Slot>, table: seq<Task>) {
    && (forall i :: 0 <= i < |q| ==> q[i].task < |table|)
    && (forall i, j :: 0 <= i < j < |q| && q[i].task == q[j].task ==> !table[q[i].task].status.Pending?)
  }

  /** Only tasks that own a fiber are named, and a suspended or fresh fiber is. */
  ghost predicate NamesOk(table: seq<Task>, named: set<nat>) {
    && (forall t :: t in named ==> t < |table| && !table[t].status.Pending?)
    && (forall t :: 0 <= t < |table| && Live(table[t].status) && !table[t].status.Pending? ==> t in named)
  }

  /** Runs without anybody waking it. */
  predicate Eager(s: Status) { s.Pending? || s.Fresh? || s.Ready? }

  /** A task that nobody has to wake is in the queue. */
  ghost predicate EagerQueued(q: seq<Slot>, table: seq<Task>) {
    forall t :: 0 <= t < |table| && Eager(table[t].status) ==> HasSlot(q, t)
  }

  ghost predicate WF(a: Sched) {
    && EntriesOk(a.queue, a.table)
    && NamesOk(a.table, a.named)
    && EagerQueued(a.queue, a.table)
  }

  /** No task but `u` is in the middle of a slice. */
  ghost predicate QuietBut(table: seq<Task>, u: nat) {
    forall t :: 0 <= t < |table| && t != u ==> !table[t].status.Running?
  }

  ghost predicate Quiet(a: Sched) {
    forall t :: 0 <= t < |a.table| ==> !a.table[t].status.Running?
  }

  // ----- the measure

  function Weight(s: Status): nat {
    if Live(s) then Size(Rest(s)) else 0
  }

  function WorkLeft(table: seq<Task>): nat {
    if table == [] then 0
    else WorkLeft(table[..|table| - 1]) + Weight(table[|table| - 1].status)
  }

  function Measure(a: Sched): nat { WorkLeft(a.table) + |a.queue| }

  lemma {:induction false} WorkLeftUpdate(table: seq<Task>, t: nat, x: Task)
    requires t < |table|
    ensures WorkLeft(table[t := x]) == WorkLeft(table) - Weight(table[t].status) + Weight(x.status)
  {
    var n := |table| - 1;
    if t == n {
      assert table[t := x][..n] == table[..n];
    } else {
      WorkLeftUpdate(table[..n], t, x);
      assert table[t := x][..n] == table[..n][t := x];
    }
  }

  lemma WorkLeftAppend(table: seq<Task>, x: Task)
    ensures WorkLeft(table + [x]) == WorkLeft(table) + Weight(x.status)
  {
    assert (table + [x])[..|table|] == table;
  }

  function Pays(e: Ending): nat {
    match e
    case ToReady(rest) => Size(rest)
    case ToHold(rest) => Size(rest)
    case ToRaw(rest) => Size(rest)
    case Done => 0
    case Thrown => 0
  }

  /** What every step of a slice keeps: it leaves the tasks it found alone, and only adds. */
  ghost predicate Grows(a: Sched, b: Sched) {
    && |a.table| <= |b.table| && b.table[..|a.table|] == a.table
    && |a.queue| <= |b.queue| && b.queue[..|a.queue|] == a.queue
    && a.named <= b.named && (forall t :: t in b.named ==> t in a.named || t >= |a.table|)
    && b.firsts == a.firsts && b.dropped == a.dropped && a.rude <= b.rude
  }

  lemma GrowsTrans(a: Sched, b: Sched, c: Sched)
    requires Grows(a, b) && Grows(b, c)
    ensures Grows(a, c)
  {
    assert c.table[..|a.table|] == c.table[..|b.table|][..|a.table|];
    assert c.queue[..|a.queue|] == c.queue[..|b.queue|][..|a.queue|];
  }

  lemma PerformGrows(a: Sched, u: nat, act: Act)
    ensures var b := Perform(a, u, act); Grows(a, b)
    ensures Measure(Perform(a, u, act)) + 2 <= Measure(a) + 2 + if act.Spawn? then Size(act.child) + 1 else 1
    ensures Yields(act) ==> Measure(Perform(a, u, act)) == Measure(a)
  {
    if act.Spawn? {
      var t := Task(act.child, if act.asFiber then Fresh(act.child) else Pending(act.child));
      WorkLeftAppend(a.table, t);
    }
  }

  /** A slice pays two units a step. */
  lemma {:induction false} SliceGrows(a: Sched, u: nat, p: Prog)
    ensures Grows(a, Slice(a, u, p).0)
    ensures Measure(Slice(a, u, p).0) + Pays(Slice(a, u, p).1) + 2 <= Measure(a) + Size(p)
    decreases p
  {
    match p
    case Return =>
    case Throw =>
    case Then(act, rest) =>
      PerformGrows(a, u, act);
      if !Yields(act) {
        var b := Perform(a, u, act);
        SliceGrows(b, u, rest);
        GrowsTrans(a, b, Slice(b, u, rest).0);
      }
  }

  /** A slice leaves its own task marked running; what `Serve` then does. */
  lemma SliceOwn(a: Sched, u: nat, p: Prog, pending: bool) returns (e: Ending)
    requires u < |a.table|
    ensures e == Slice(a, u, p).1
    ensures var b := Slice(a, u, p).0;
      && u < |b.table| && b.table[u] == a.table[u] && a.named <= b.named && (u in b.named <==> u in a.named)
      && Serve(a, u, p, pending) == NoteFirst(Settle(b, u, e), pending, e)
      && (u in a.named ==> Serve(a, u, p, pending).named == b.named)
      && |Serve(a, u, p, pending).named| == |b.named| + if u in a.named || Ends(e) then 0 else 1
  {
    SliceGrows(a, u, p);
    var b := Slice(a, u, p).0;
    assert b.table[u] == b.table[..|a.table|][u];
    e := Slice(a, u, p).1;
    assert u in a.named ==> b.named + {u} == b.named;
  }

  lemma TurnPays(a: Sched, i: nat)
    requires i < |a.queue| && a.queue[i].task < |a.table|
    requires Live(a.table[a.queue[i].task].status)
    ensures Measure(Turn(a, i)) + 2 <= Measure(a)
  {
    var u := a.queue[i].task;
    var p := Rest(a.table[u].status);
    var b0 := Begin(a, i);
    WorkLeftUpdate(a.table, u, b0.table[u]);
    SliceGrows(b0, u, p);
    var (b, e) := Slice(b0, u, p);
    assert b.table[u] == b.table[..|b0.table|][u] == b0.table[u];
    var s := Settle(b, u, e);
    WorkLeftUpdate(b.table, u, s.table[u]);
  }

  // ----- well-formedness is kept

  lemma SlotsKept(q: seq<Slot>, r: seq<Slot>)
    requires |q| <= |r| && r[..|q|] == q
    ensures forall t :: HasSlot(q, t) ==> HasSlot(r, t)
  {
    forall t | HasSlot(q, t) ensures HasSlot(r, t) {
      var i :| 0 <= i < |q| && q[i].task == t;
      assert r[i] == r[..|q|][i];
    }
  }

  lemma SlotAdded(q: seq<Slot>, slot: Slot)
    ensures forall t :: HasSlot(q, t) ==> HasSlot(q + [slot], t)
    ensures HasSlot(q + [slot], slot.task)
  {
    SlotsKept(q, q + [slot]);
    assert (q + [slot])[|q|].task == slot.task;
  }

  lemma SlotRemoved(q: seq<Slot>, i: nat)
    requires i < |q|
    ensures forall t :: t != q[i].task && HasSlot(q, t) ==> HasSlot(q[..i] + q[i + 1..], t)
  {
    var r := q[..i] + q[i + 1..];
    forall t | t != q[i].task && HasSlot(q, t) ensures HasSlot(r, t) {
      var k :| 0 <= k < |q| && q[k].task == t;
      assert r[if k < i then k else k - 1] == q[k];
    }
  }

  lemma SubmitKeepsBut(a: Sched, u: nat, prog: Prog, asFiber: bool, thread: int)
    requires WF(a) && QuietBut(a.table, u)
    ensures WF(Submit(a, prog, asFiber, thread)) && (u <= |a.table| ==> QuietBut(Submit(a, prog, asFiber, thread).table, u))
  {
    SlotAdded(a.queue, Slot(|a.table|, thread));
  }

  lemma WakeKeeps(a: Sched, t: nat, thread: int)
    requires WF(a)
    ensures WF(WakeUp(a, t, thread)) && WakeUp(a, t, thread).table == a.table
  {
    SlotAdded(a.queue, Slot(t, thread));
  }

  lemma WakeSelfKeeps(a: Sched, u: nat, thread: int)
    requires WF(a) && u < |a.table| && a.table[u].status.Running?
    ensures WF(Enqueue(a, u, thread).(rude := a.rude + 1))
  {
    SlotAdded(a.queue, Slot(u, thread));
  }

  lemma PerformKeeps(a: Sched, u: nat, act: Act)
    requires WF(a) && QuietBut(a.table, u) && u < |a.table| && a.table[u].status.Running?
    ensures WF(Perform(a, u, act)) && QuietBut(Perform(a, u, act).table, u)
  {
    var b := Log(a, u, Did(act));
    assert WF(b);
    hide WF, QuietBut, Submit, WakeUp;
    match act
    case Spawn(child, asFiber, thread) => SubmitKeepsBut(b, u, child, asFiber, thread);
    case Wake(t, thread) => WakeKeeps(b, t, thread);
    case WakeSelf(thread) => WakeSelfKeeps(b, u, thread);
    case _ =>
  }

  lemma SubmitKeeps(a: Sched, prog: Prog, asFiber: bool, thread: int)
    requires WF(a) && Quiet(a)
    ensures WF(Submit(a, prog, asFiber, thread)) && Quiet(Submit(a, prog, asFiber, thread))
  {
    SubmitKeepsBut(a, |a.table|, prog, asFiber, thread);
  }

  lemma {:induction false} SliceKeeps(a: Sched, u: nat, p: Prog)
    requires WF(a) && QuietBut(a.table, u) && u < |a.table| && a.table[u].status.Running?
    ensures WF(Slice(a, u, p).0) && QuietBut(Slice(a, u, p).0.table, u)
    decreases p
  {
    match p
    case Return =>
    case Throw =>
    case Then(act, rest) =>
      PerformKeeps(a, u, act);
      PerformGrows(a, u, act);
      assert Perform(a, u, act).table[u] == Perform(a, u, act).table[..|a.table|][u];
      if !Yields(act) { SliceKeeps(Perform(a, u, act), u, rest); }
  }

  lemma BeginKeeps(a: Sched, i: nat)
    requires WF(a) && i < |a.queue|
    requires Live(a.table[a.queue[i].task].status)
    ensures WF(Begin(a, i))
  {
    SlotRemoved(a.queue, i);
  }

  lemma DropKeeps(a: Sched, i: nat)
    requires WF(a) && i < |a.queue|
    requires !Live(a.table[a.queue[i].task].status)
    ensures WF(Drop(a, i))
  {
    SlotRemoved(a.queue, i);
  }

  lemma SettleKeeps(a: Sched, u: nat, e: Ending)
    requires WF(a) && u < |a.table| && a.table[u].status.Running?
    ensures WF(Settle(a, u, e))
  {
    SlotAdded(a.queue, Slot(u, NONE));
    var b := Settle(a, u, e);
    assert NamesOk(b.table, b.named);
    assert EagerQueued(b.queue, b.table);
  }

  lemma TurnKeeps(a: Sched, i: nat)
    requires WF(a) && Quiet(a) && i < |a.queue|
    requires Live(a.table[a.queue[i].task].status)
    ensures WF(Turn(a, i)) && Quiet(Turn(a, i))
  {
    var u := a.queue[i].task;
    var p := Rest(a.table[u].status);
    var b := Begin(a, i);
    BeginKeeps(a, i);
    SliceGrows(b, u, p);
    SliceKeeps(b, u, p);
    var (c, e) := Slice(b, u, p);
    assert c.table[u] == c.table[..|b.table|][u];
    SettleKeeps(c, u, e);
  }

  // ----- the whole run

  /** The worker loop.  An entry whose task is over sends the loop into its idle branch, exactly as
      an empty scan does; the first idle turn uses the idle fiber up, the second ends the loop. */
  function RunAll(a: Sched, me: int, idleDone: bool): Sched
    requires WF(a) && Quiet(a)
    decreases Measure(a) + if idleDone then 0 else 1
  {
    var i := First(a.queue, me);
    if i < |a.queue| && Live(a.table[a.queue[i].task].status) then
      TurnPays(a, i); TurnKeeps(a, i);
      RunAll(Turn(a, i), me, idleDone)
    else
      var b := Discard(a, i);
      DiscardKeeps(a, i);
      if idleDone then b else RunAll(b, me, true)
  }

  /** Forget the entry at `i`, if there is one. */
  function Discard(a: Sched, i: nat): Sched
    requires i <= |a.queue|
  {
    if i < |a.queue| then Drop(a, i).(dropped := a.dropped + 1) else a
  }

  lemma DiscardKeeps(a: Sched, i: nat)
    requires WF(a) && Quiet(a) && i <= |a.queue|
    requires i < |a.queue| ==> !Live(a.table[a.queue[i].task].status)
    ensures WF(Discard(a, i)) && Quiet(Discard(a, i))
    ensures Measure(Discard(a, i)) <= Measure(a)
  {
    if i < |a.queue| {
      DropKeeps(a, i);
    }
  }

  /** What one round of the loop leaves, and whether it was the last. */
  datatype RoundEnd = RoundEnd(a: Sched, idleDone: bool, over: bool)

  predicate LiveAt(a: Sched, i: nat) {
    i < |a.queue| && a.queue[i].task < |a.table| && Live(a.table[a.queue[i].task].status)
  }

  function OneRound(a: Sched, me: int, idleDone: bool): RoundEnd {
    var i := First(a.queue, me);
    if LiveAt(a, i) then RoundEnd(Turn(a, i), idleDone, false)
    else RoundEnd(Discard(a, i), true, idleDone)
  }

  /** A run is one round, and then the run that is left. */
  lemma RunIsRounds(a: Sched, me: int, idleDone: bool)
    requires WF(a) && Quiet(a)
    ensures var r := OneRound(a, me, idleDone);
      && WF(r.a) && Quiet(r.a)
      && RunAll(a, me, idleDone) == (if r.over then r.a else RunAll(r.a, me, r.idleDone))
      && (!r.over ==>
            Measure(r.a) + (if r.idleDone then 0 else 1) < Measure(a) + if idleDone then 0 else 1)
  {
    var i := First(a.queue, me);
    if LiveAt(a, i) {
      TurnPays(a, i); TurnKeeps(a, i);
    } else {
      DiscardKeeps(a, i);
    }
  }
}
