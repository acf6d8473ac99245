/** What a whole run of the worker loop means, when it ends, and in which order it serves tasks. */
module RunLaws {
  import opened Wrappers
  import opened Programs
  import opened Reference
  import opened Recycling

  // ----- every task runs its own program, once and in order

  function Todo(s: Status): seq<Step> {
    if Live(s) then Behaviour(Rest(s)) else []
  }

  ghost predicate EndsAs(s: Status, prog: Prog) {
    && (Live(s) ==> Returns(Rest(s)) == Returns(prog))
    && (s.Finished? ==> Returns(prog))
    && (s.Failed? ==> !Returns(prog))
  }

  /** The steps task `t` has done, followed by those it still has to do, are its whole program. */
  ghost predicate MeansTask(trace: seq<Event>, t: nat, task: Task) {
    && Projection(trace, t) + Todo(task.status) == Behaviour(task.prog)
    && EndsAs(task.status, task.prog)
  }

  /** So it is for every task but `u`, and the trace names no other tasks. */
  ghost predicate MeaningBut(trace: seq<Event>, table: seq<Task>, u: nat) {
    && (forall t :: 0 <= t < |table| && t != u ==> MeansTask(trace, t, table[t]))
    && (forall t: nat :: t >= |table| ==> Projection(trace, t) == [])
  }

  ghost predicate Meaning(a: Sched) {
    MeaningBut(a.trace, a.table, |a.table|)
  }

  /** Status of a task whose slice ended with `e`. */
  function After(e: Ending): Status {
    match e
    case ToReady(rest) => Ready(rest)
    case ToHold(rest) => Held(rest)
    case ToRaw(rest) => Held(rest)
    case Done => Finished
    case Thrown => Failed
  }

  lemma LogMeaning(trace: seq<Event>, table: seq<Task>, u: nat, step: Step)
    requires MeaningBut(trace, table, u) && u < |table|
    ensures MeaningBut(trace + [Event(u, step)], table, u)
    ensures Projection(trace + [Event(u, step)], u) == Projection(trace, u) + [step]
  {
    forall t: nat ensures Projection(trace + [Event(u, step)], t)
        == Projection(trace, t) + (if u == t then [step] else [])
    {
      ProjectionSnoc(trace, Event(u, step), t);
    }
  }

  lemma NewTaskMeaning(trace: seq<Event>, table: seq<Task>, u: nat, s: Status)
    requires MeaningBut(trace, table, u)
    requires Live(s)
    ensures u <= |table| ==> MeaningBut(trace, table + [Task(Rest(s), s)], if u == |table| then u + 1 else u)
  {
    assert MeansTask(trace, |table|, Task(Rest(s), s));
  }

  lemma PerformMeaning(a: Sched, u: nat, act: Act)
    requires MeaningBut(a.trace, a.table, u) && u < |a.table|
    ensures var b := Perform(a, u, act);
      && b.trace == a.trace + [Event(u, Did(act))]
      && MeaningBut(b.trace, b.table, u) && u < |b.table| && b.table[u] == a.table[u]
      && Projection(b.trace, u) == Projection(a.trace, u) + [Did(act)]
  {
    LogMeaning(a.trace, a.table, u, Did(act));
    if act.Spawn? {
      NewTaskMeaning(a.trace + [Event(u, Did(act))], a.table, u,
        if act.asFiber then Fresh(act.child) else Pending(act.child));
    }
  }

  /** Running `p`, task `u` still has exactly the rest of its program to do. */
  ghost predicate Owes(trace: seq<Event>, u: nat, p: Prog, prog: Prog) {
    Projection(trace, u) + Behaviour(p) == Behaviour(prog) && Returns(p) == Returns(prog)
  }

  lemma OwesStep(trace: seq<Event>, u: nat, act: Act, rest: Prog, prog: Prog)
    requires Owes(trace, u, Then(act, rest), prog)
    requires Projection(trace + [Event(u, Did(act))], u) == Projection(trace, u) + [Did(act)]
    ensures Owes(trace + [Event(u, Did(act))], u, rest, prog)
  {
    assert Projection(trace + [Event(u, Did(act))], u) + Behaviour(rest)
        == Projection(trace, u) + Behaviour(Then(act, rest));
  }

  lemma OwesEnd(trace: seq<Event>, u: nat, p: Prog, prog: Prog)
    requires Owes(trace, u, p, prog) && !p.Then?
    requires var last := if p.Return? then Returned else Threw;
      Projection(trace + [Event(u, last)], u) == Projection(trace, u) + [last]
    ensures var last := if p.Return? then Returned else Threw;
      MeansTask(trace + [Event(u, last)], u, Task(prog, if p.Return? then Finished else Failed))
  {
    assert Behaviour(p) == [if p.Return? then Returned else Threw];
  }

  lemma OwesStop(trace: seq<Event>, u: nat, act: Act, rest: Prog, prog: Prog)
    requires Owes(trace, u, rest, prog)
    ensures MeansTask(trace, u, Task(prog, Ready(rest))) && MeansTask(trace, u, Task(prog, Held(rest)))
  {
  }

  lemma {:induction false} SliceMeaning(a: Sched, u: nat, p: Prog)
    requires MeaningBut(a.trace, a.table, u) && u < |a.table| && Owes(a.trace, u, p, a.table[u].prog)
    ensures var (b, e) := Slice(a, u, p);
      && MeaningBut(b.trace, b.table, u) && u < |b.table| && b.table[u] == a.table[u]
      && MeansTask(b.trace, u, Task(a.table[u].prog, After(e)))
    decreases p
  {
    hide MeaningBut, MeansTask, Owes, Perform;
    var prog := a.table[u].prog;
    if p.Then? {
      PerformMeaning(a, u, p.act);
      OwesStep(a.trace, u, p.act, p.rest, prog);
      var b := Perform(a, u, p.act);
      if Yields(p.act) {
        OwesStop(b.trace, u, p.act, p.rest, prog);
      } else {
        SliceMeaning(b, u, p.rest);
      }
    } else {
      LogMeaning(a.trace, a.table, u, if p.Return? then Returned else Threw);
      OwesEnd(a.trace, u, p, prog);
    }
  }

  lemma TurnMeaning(a: Sched, i: nat)
    requires WF(a) && Meaning(a) && i < |a.queue|
    requires Live(a.table[a.queue[i].task].status)
    ensures Meaning(Turn(a, i))
  {
    hide MeansTask, MeaningBut, Owes, Slice, Settle;
    var u := a.queue[i].task;
    var p := Rest(a.table[u].status);
    BeginMeaning(a, i);
    SliceMeaning(Begin(a, i), u, p);
    var (b, e) := Slice(Begin(a, i), u, p);
    SettleMeaning(b, u, e);
  }

  lemma BeginMeaning(a: Sched, i: nat)
    requires Meaning(a) && LiveAt(a, i)
    ensures var u, b := a.queue[i].task, Begin(a, i);
      MeaningBut(b.trace, b.table, u) && Owes(b.trace, u, Rest(a.table[u].status), b.table[u].prog)
  {
    assert MeansTask(a.trace, a.queue[i].task, a.table[a.queue[i].task]);
    hide Projection, Behaviour;
  }

  lemma SettleMeaning(b: Sched, u: nat, e: Ending)
    requires MeaningBut(b.trace, b.table, u) && u < |b.table|
    requires MeansTask(b.trace, u, Task(b.table[u].prog, After(e)))
    ensures Meaning(Settle(b, u, e))
  {
    hide MeansTask;
    assert Settle(b, u, e).table == b.table[u := b.table[u].(status := After(e))];
  }

  lemma PooledTurnMeaning(p: Pooled, i: nat)
    requires WF(p.a) && Meaning(p.a) && LiveAt(p.a, i)
    ensures Meaning(PooledTurn(p, i).a)
  {
    TurnMeaning(p.a, i);
  }

  /** Whatever the tasks do, and whoever runs in a recycled fiber. */
  lemma {:induction false} RunMeaning(p: Pooled, me: int, idleDone: bool)
    requires Ok(p) && Meaning(p.a)
    ensures Meaning(RunPooled(p, me, idleDone).a)
    decreases Fuel(p, idleDone)
  {
    var i, r := First(p.a.queue, me), PooledRound(p, me, idleDone);
    PooledRoundKeeps(p, me, idleDone);
    if LiveAt(p.a, i) { PooledTurnMeaning(p, i); }
    if !r.over { RunMeaning(r.p, me, r.idleDone); }
  }

  /** Read off a state: what a task has done is a prefix of its program; it is the whole program
      exactly when the task is over; and the task is TERM or EXCEPT as the program says. */
  lemma MeaningRead(a: Sched, t: nat)
    requires Meaning(a) && Quiet(a) && t < |a.table|
    ensures Projection(a.trace, t) <= Behaviour(a.table[t].prog)
    ensures Projection(a.trace, t) == Behaviour(a.table[t].prog) <==> !Live(a.table[t].status)
    ensures a.table[t].status.Finished?
        <==> (Projection(a.trace, t) == Behaviour(a.table[t].prog) && Returns(a.table[t].prog))
  {
    assert MeansTask(a.trace, t, a.table[t]);
    var s := a.table[t].status;
    if Live(s) { BehaviourEnds(Rest(s)); }
  }

  lemma SubmitMeaning(a: Sched, prog: Prog, asFiber: bool, thread: int)
    requires Meaning(a)
    ensures Meaning(Submit(a, prog, asFiber, thread))
  {
    NewTaskMeaning(a.trace, a.table, |a.table|, if asFiber then Fresh(prog) else Pending(prog));
  }

  // ----- runs only add

  ghost predicate Extends(a: Sched, b: Sched) {
    && |a.table| <= |b.table|
    && (forall t :: 0 <= t < |a.table| ==> b.table[t].prog == a.table[t].prog)
    && (forall t :: 0 <= t < |a.table| && !Live(a.table[t].status) ==> b.table[t] == a.table[t])
    && a.named <= b.named
    && a.rude <= b.rude
  }

  lemma TurnExtends(a: Sched, i: nat)
    requires WF(a) && i < |a.queue| && Live(a.table[a.queue[i].task].status)
    ensures Extends(a, Turn(a, i))
    ensures var u := a.queue[i].task; forall t :: 0 <= t < |a.table| && t != u ==> Turn(a, i).table[t] == a.table[t]
    ensures var rest := a.queue[..i] + a.queue[i + 1..];
      |rest| <= |Turn(a, i).queue| && Turn(a, i).queue[..|rest|] == rest
  {
    hide Slice, First, NamesOk, EagerQueued;
    var u := a.queue[i].task;
    var b0 := Begin(a, i);
    SliceGrows(b0, u, Rest(a.table[u].status));
    var (b, e) := Slice(b0, u, Rest(a.table[u].status));
    forall t | 0 <= t < |a.table|
      ensures Turn(a, i).table[t].prog == a.table[t].prog
      ensures t != u ==> Turn(a, i).table[t] == a.table[t]
    {
      assert b.table[t] == b.table[..|b0.table|][t];
    }
    assert Turn(a, i).queue[..|b0.queue|] == b.queue[..|b0.queue|];
  }

  lemma {:induction false} RunExtends(a: Sched, me: int, idleDone: bool)
    requires WF(a) && Quiet(a)
    ensures var r := RunAll(a, me, idleDone); WF(r) && Quiet(r) && Extends(a, r)
    decreases Measure(a) + if idleDone then 0 else 1
  {
    var i := First(a.queue, me);
    if i < |a.queue| && Live(a.table[a.queue[i].task].status) {
      TurnPays(a, i); TurnKeeps(a, i); TurnExtends(a, i);
      RunExtends(Turn(a, i), me, idleDone);
    } else {
      DiscardKeeps(a, i);
      if !idleDone { RunExtends(Discard(a, i), me, true); }
    }
  }

  lemma ExtendsTrans(a: Sched, b: Sched, c: Sched)
    requires Extends(a, b) && Extends(b, c)
    ensures Extends(a, c)
  {
  }

  /** The same of the loop that recycles. */
  lemma {:induction false} PooledExtends(p: Pooled, me: int, idleDone: bool)
    requires Ok(p)
    ensures var r := RunPooled(p, me, idleDone); Ok(r) && Extends(p.a, r.a)
    decreases Fuel(p, idleDone)
  {
    var i, r := First(p.a.queue, me), PooledRound(p, me, idleDone);
    PooledRoundKeeps(p, me, idleDone);
    if LiveAt(p.a, i) { TurnExtends(p.a, i); }
    assert Extends(p.a, r.p.a);
    if !r.over {
      PooledExtends(r.p, me, r.idleDone);
      ExtendsTrans(p.a, r.p.a, RunPooled(r.p, me, r.idleDone).a);
    }
  }

  // ----- the order of service

  /** `k` turns of the loop, each on the first entry. */
  function Rounds(p: Pooled, k: nat): (r: Option<Pooled>)
    requires Ok(p)
    ensures r.Some? ==> Ok(r.value)
  {
    if k == 0 then Some(p)
    else
      var b := Rounds(p, k - 1);
      if b.None? || !LiveAt(b.value.a, 0) then None
      else PooledTurnKeeps(b.value, 0); Some(PooledTurn(b.value, 0))
  }

  /** Every event of `extra` belongs to task `u`, and there is at least one. */
  ghost predicate OneSlice(extra: seq<Event>, u: nat) {
    |extra| > 0 && forall k :: 0 <= k < |extra| ==> extra[k].task == u
  }

  lemma {:induction false} SliceTrace(a: Sched, u: nat, p: Prog)
    ensures var b := Slice(a, u, p).0;
      |a.trace| < |b.trace| && b.trace[..|a.trace|] == a.trace && OneSlice(b.trace[|a.trace|..], u)
    decreases p
  {
    match p
    case Return =>
    case Throw =>
    case Then(act, rest) =>
      var b := Perform(a, u, act);
      assert b.trace == a.trace + [Event(u, Did(act))];
      if !Yields(act) {
        SliceTrace(b, u, rest);
        TraceTwice(a, b, Slice(b, u, rest).0, u);
      }
  }

  lemma TraceTwice(a: Sched, b: Sched, c: Sched, u: nat)
    requires |b.trace| == |a.trace| + 1 && b.trace[..|a.trace|] == a.trace && b.trace[|a.trace|].task == u
    requires |b.trace| <= |c.trace| && c.trace[..|b.trace|] == b.trace
    requires forall k :: 0 <= k < |c.trace| - |b.trace| ==> c.trace[|b.trace|..][k].task == u
    ensures c.trace[..|a.trace|] == a.trace && OneSlice(c.trace[|a.trace|..], u)
  {
    assert c.trace[..|a.trace|] == c.trace[..|b.trace|][..|a.trace|];
    assert c.trace[|a.trace|] == c.trace[..|b.trace|][|a.trace|];
    forall k | 0 <= k < |c.trace| - |a.trace| ensures c.trace[|a.trace|..][k].task == u {
      if k > 0 { assert c.trace[|a.trace|..][k] == c.trace[|b.trace|..][k - 1]; }
    }
  }

  /** Distinct live tasks, all of which this thread may run. */
  ghost predicate Fair(a: Sched, me: int) {
    && (forall k :: 0 <= k < |a.queue| ==>
          Runnable(a.queue[k], me) && a.queue[k].task < |a.table| && Live(a.table[a.queue[k].task].status))
    && (forall j, k :: 0 <= j < k < |a.queue| ==> a.queue[j].task != a.queue[k].task)
  }

  /** `b` still has the entries of `a` from `i` on at its front, untouched. */
  ghost predicate Untouched(a: Sched, b: Sched, i: nat)
    requires i <= |a.queue|
  {
    && |a.queue| - i <= |b.queue| && b.queue[..|a.queue| - i] == a.queue[i..]
    && |a.table| <= |b.table|
    && (forall k :: i <= k < |a.queue| && a.queue[k].task < |a.table|
          ==> b.table[a.queue[k].task] == a.table[a.queue[k].task])
  }

  lemma ServeOne(a: Sched, b: Pooled, me: int, i: nat)
    requires Fair(a, me) && i < |a.queue| && Untouched(a, b.a, i) && Ok(b)
    ensures b.a.queue[0] == a.queue[i] && LiveAt(b.a, 0)
    ensures First(b.a.queue, me) == 0
    ensures Untouched(a, PooledTurn(b, 0).a, i + 1)
  {
    assert b.a.queue[0] == b.a.queue[..|a.queue| - i][0];
    hide Turn, Adopt, EagerQueued, NamesOk, Quiet, NoStrays;
    TurnUntouched(a, b.a, me, i);
    AdoptUntouched(a, Turn(b.a, 0), me, b.a.queue[0].task, i + 1);
  }

  lemma TurnUntouched(a: Sched, b: Sched, me: int, i: nat)
    requires Fair(a, me) && i < |a.queue| && Untouched(a, b, i) && WF(b) && LiveAt(b, 0) && b.queue[0] == a.queue[i]
    ensures Untouched(a, Turn(b, 0), i + 1)
  {
    hide Turn, WF;
    TurnExtends(b, 0);
    TailAfter(a.queue, b.queue, Turn(b, 0).queue, i);
  }

  lemma AdoptUntouched(a: Sched, c: Sched, me: int, u: nat, i: nat)
    requires Fair(a, me) && i <= |a.queue| && Untouched(a, c, i)
    ensures Untouched(a, Adopt(c, u), i)
  {
    var n, d := |a.queue| - i, Adopt(c, u);
    forall k | 0 <= k < n ensures d.queue[k] == c.queue[k] {
      assert c.queue[k] == c.queue[..n][k] == a.queue[i + k];
    }
    assert d.queue[..n] == c.queue[..n];
  }

  lemma TailAfter(q: seq<Slot>, r: seq<Slot>, later: seq<Slot>, i: nat)
    requires i < |q| <= |r| + i && r[..|q| - i] == q[i..]
    requires var rest := r[..0] + r[1..]; |rest| <= |later| && later[..|rest|] == rest
    ensures |q| <= |later| + i + 1 && later[..|q| - i - 1] == q[i + 1..]
  {
    var n, rest := |q| - i, r[..0] + r[1..];
    assert later[..n - 1] == later[..|rest|][..n - 1] == r[..n][1..];
  }

  lemma RunStep(p: Pooled, me: int, idleDone: bool)
    requires Ok(p) && LiveAt(p.a, 0) && First(p.a.queue, me) == 0
    ensures Ok(PooledTurn(p, 0)) && RunPooled(p, me, idleDone) == RunPooled(PooledTurn(p, 0), me, idleDone)
  {
    PooledTurnKeeps(p, 0);
  }

  /** The events that a turn on the first entry adds. */
  ghost predicate Serves(b: Sched, c: Sched, u: nat) {
    |b.trace| < |c.trace| && c.trace[..|b.trace|] == b.trace && OneSlice(c.trace[|b.trace|..], u)
  }

  lemma TurnServes(p: Pooled)
    requires LiveAt(p.a, 0)
    ensures Serves(p.a, PooledTurn(p, 0).a, p.a.queue[0].task)
  {
    var u := p.a.queue[0].task;
    SliceTrace(Begin(p.a, 0), u, Rest(p.a.table[u].status));
  }

  /** Round robin: in such a queue the entry at position `i` gets its turn after exactly `i` slices
      of other entries, and the run from there on is the run of the whole queue. */
  lemma {:induction false} RoundRobin(p: Pooled, me: int, idleDone: bool, i: nat)
    requires Ok(p) && Fair(p.a, me) && i <= |p.a.queue|
    ensures Rounds(p, i).Some? && Untouched(p.a, Rounds(p, i).value.a, i)
    ensures RunPooled(p, me, idleDone) == RunPooled(Rounds(p, i).value, me, idleDone)
    ensures i > 0 ==> (Rounds(p, i - 1).Some?
      && Serves(Rounds(p, i - 1).value.a, Rounds(p, i).value.a, p.a.queue[i - 1].task))
  {
    if i > 0 {
      RoundRobin(p, me, idleDone, i - 1);
      var b := Rounds(p, i - 1).value;
      ServeOne(p.a, b, me, i - 1);
      RunStep(b, me, idleDone);
      TurnServes(b);
      assert Rounds(p, i) == Some(PooledTurn(b, 0));
    }
  }
}
