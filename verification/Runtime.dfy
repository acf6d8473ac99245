/** The runtime itself, for one operating-system thread: fibers and their saved contexts, the
    thread's own variables, and the scheduler with its worker loop.

    A `swapcontext` is modelled as a handover of the CPU: it stores where the saving fiber will go
    on, marks the loaded fiber's context as on the CPU, and the code that follows it is the loaded
    context's.  Storing over a continuation nobody has resumed, saving into a fiber that is not the
    executing one and loading a context behind a "never reach" line are all excluded by its
    precondition, so every method below proves that it does none of them. */
module Runtime {
  import opened Programs
  import opened Reference
  import opened Recycling

  /** What a `std::function` in this system can hold. */
  datatype Callback = Empty | TaskCb(id: nat, prog: Prog) | RunLoop | IdleLoop

  /** Where a suspended context goes on when it gets the CPU back. */
  datatype Point = AfterCall | AfterSwapIn | InTask(id: nat, rest: Prog) | NeverReach

  datatype Context = OnCpu | Entry(useCaller: bool) | Saved(point: Point)

  /** A queue element: a fiber or a callback, and the thread it is pinned to. */
  datatype FiberAndThread = FiberAndThread(fiber: Fiber?, cb: Callback, thread: int)

  const NO_ENTRY := FiberAndThread(null, Empty, NONE)

  /** What a fiber about to be swapped in will run: the idle code, no callback at all, or a task. */
  datatype Job = Idling | Hollow | Tasking(id: nat, prog: Prog)

  ghost function Just(f: Fiber?): set<Fiber> {
    if f == null then {} else {f}
  }

  /** One thread: its thread-local variables, and the fiber whose context is on the CPU. */
  class Cpu {
    const id: int
    var t_fiber: Fiber?
    var t_thread_fiber: Fiber?
    var t_main: Fiber?
    var t_scheduler: Scheduler?
    var s_fiber_id: nat
    var s_fiber_count: int
    ghost var executing: Fiber?

    constructor (id: int)
      ensures this.id == id
      ensures t_fiber == null && t_thread_fiber == null && t_main == null && t_scheduler == null
      ensures executing == null && s_fiber_id == s_fiber_count == 0
    {
      this.id := id;
      t_fiber, t_thread_fiber, t_main, t_scheduler := null, null, null, null;
      s_fiber_id, s_fiber_count := 0, 0;
      executing := null;
    }

    method Swapcontext(save: Fiber, point: Point, load: Fiber) returns (resumed: Context)
      requires executing == save && save != load && save.m_ctx == OnCpu
      requires load.m_ctx.Entry? || (load.m_ctx.Saved? && load.m_ctx.point != NeverReach)
      modifies `executing, save`m_ctx, load`m_ctx
      ensures save.m_ctx == Saved(point) && load.m_ctx == OnCpu && executing == load
      ensures resumed == old(load.m_ctx)
    {
      resumed := load.m_ctx;
      save.m_ctx := Saved(point);
      load.m_ctx := OnCpu;
      executing := load;
    }

    /** The running fiber; on a bare thread, a new fiber that stands for the thread's own context. */
    method GetThis() returns (f: Fiber)
      requires t_fiber == null ==> executing == null
      modifies if t_fiber == null then {this} else {}
      ensures old(t_fiber) != null ==> f == old(t_fiber) && unchanged(this)
      ensures old(t_fiber) == null ==>
        && fresh(f) && f == t_fiber == t_thread_fiber == executing
        && !f.m_stack && f.m_state == EXEC && f.m_cb == Empty && f.m_ctx == OnCpu
        && t_main == old(t_main) && t_scheduler == old(t_scheduler) && s_fiber_id == old(s_fiber_id)
        && s_fiber_count == old(s_fiber_count) + 1
    {
      if t_fiber != null { return t_fiber; }
      var main := new Fiber.Main(this);
      t_thread_fiber := main;
      f := main;
    }
  }

  class Fiber {
    const m_id: nat
    const m_stack: bool
    var m_state: State
    var m_cb: Callback
    var m_ctx: Context

    /** The fiber of a thread's own context. */
    constructor Main(cpu: Cpu)
      requires cpu.executing == null
      modifies cpu
      ensures !m_stack && m_state == EXEC && m_cb == Empty && m_ctx == OnCpu
      ensures cpu.t_fiber == this == cpu.executing
      ensures cpu.t_thread_fiber == old(cpu.t_thread_fiber) && cpu.t_main == old(cpu.t_main)
      ensures cpu.t_scheduler == old(cpu.t_scheduler) && cpu.s_fiber_id == old(cpu.s_fiber_id)
      ensures cpu.s_fiber_count == old(cpu.s_fiber_count) + 1
    {
      m_id, m_stack, m_state, m_cb, m_ctx := 0, false, EXEC, Empty, OnCpu;
      new;
      cpu.t_fiber := this;
      cpu.executing := this;
      cpu.s_fiber_count := cpu.s_fiber_count + 1;
    }

    constructor (cpu: Cpu, cb: Callback, useCaller: bool)
      modifies cpu`s_fiber_id, cpu`s_fiber_count
      ensures m_stack && m_state == INIT && m_cb == cb && m_ctx == Entry(useCaller)
      ensures cpu.s_fiber_id == old(cpu.s_fiber_id) + 1 == m_id
      ensures cpu.s_fiber_count == old(cpu.s_fiber_count) + 1
    {
      m_id := cpu.s_fiber_id + 1;
      m_stack, m_state, m_cb, m_ctx := true, INIT, cb, Entry(useCaller);
      new;
      cpu.s_fiber_id := cpu.s_fiber_id + 1;
      cpu.s_fiber_count := cpu.s_fiber_count + 1;
    }

    /** Nothing is left on this fiber's stack that still has to run. */
    predicate Idle()
      reads this
    {
      m_state in {TERM, EXCEPT, INIT} && (m_ctx.Entry? || m_ctx == Saved(NeverReach))
    }

    /** The fiber stands for a thread's own context. */
    predicate Bare()
      reads this
    {
      !m_stack && m_state == EXEC && m_cb == Empty
    }

    /** The destructor: nothing may be left on the fiber's stack, and a thread's own fiber must be its
        thread's running one. */
    method Destroy(cpu: Cpu)
      requires if m_stack then m_state in {TERM, EXCEPT, INIT} else Bare()
      modifies cpu`t_fiber, cpu`s_fiber_count
      ensures cpu.s_fiber_count == old(cpu.s_fiber_count) - 1
      ensures cpu.t_fiber == if !m_stack && old(cpu.t_fiber) == this then null else old(cpu.t_fiber)
    {
      cpu.s_fiber_count := cpu.s_fiber_count - 1;
      if !m_stack {
        var cur := cpu.t_fiber;
        if cur == this { cpu.t_fiber := null; }
      }
    }

    /** Give a finished fiber, or one that has not run, a new callback. */
    method Reset(cb: Callback)
      requires m_stack && Idle()
      modifies this
      ensures m_state == INIT && m_cb == cb && m_ctx == Entry(false)
    {
      m_cb := cb;
      m_ctx := Entry(false);
      m_state := INIT;
    }

    method Call(cpu: Cpu, sched: Scheduler)
      requires sched.RootReady(cpu) && sched.m_root_fiber == this
      requires sched.Linked() && WF(sched.a) && Quiet(sched.a) && NoStrays(sched.a)
      modifies sched, cpu, sched.handles.Values, this, cpu.t_thread_fiber`m_ctx
      ensures sched.Linked() && WF(sched.a) && Quiet(sched.a)
      ensures sched.a == RunPooled(Pooled(old(sched.a), NoPool), cpu.id, false).a
      ensures sched.Config() == old(sched.Config())
      ensures m_state == TERM && m_cb == Empty && m_ctx == Saved(NeverReach)
      ensures cpu.executing == cpu.t_fiber == cpu.t_thread_fiber == old(cpu.t_thread_fiber)
      ensures cpu.t_thread_fiber != null && cpu.t_thread_fiber.m_ctx == OnCpu
      ensures cpu.t_main == this && cpu.t_scheduler == sched
      ensures cpu.s_fiber_count - old(cpu.s_fiber_count)
           == |sched.a.named| - |old(sched.a.named)| + Scheduler.HostLeft(sched.a)
    {
      cpu.t_fiber := this;
      m_state := EXEC;
      var at := cpu.Swapcontext(cpu.t_thread_fiber, AfterCall, this);
      assert at == Entry(true);
      CallMainFunc(cpu, sched);
    }

    /** Entry point of the root fiber: run the worker loop, then go back to the thread for good. */
    method CallMainFunc(cpu: Cpu, sched: Scheduler)
      requires cpu.executing == cpu.t_fiber == cpu.t_main == this && m_ctx == OnCpu && m_cb == RunLoop
      requires cpu.t_thread_fiber != null && cpu.t_thread_fiber != this
      requires cpu.t_thread_fiber.m_ctx == Saved(AfterCall)
      requires cpu.id == sched.m_root_thread
      requires sched.Linked() && WF(sched.a) && Quiet(sched.a) && NoStrays(sched.a)
      requires this !in sched.handles.Values && cpu.t_thread_fiber !in sched.handles.Values
      modifies sched, cpu, sched.handles.Values, this, cpu.t_thread_fiber`m_ctx
      ensures sched.Linked() && WF(sched.a) && Quiet(sched.a)
      ensures sched.a == RunPooled(Pooled(old(sched.a), NoPool), cpu.id, false).a
      ensures sched.Config() == old(sched.Config())
      ensures m_state == TERM && m_cb == Empty && m_ctx == Saved(NeverReach)
      ensures cpu.executing == cpu.t_fiber == cpu.t_thread_fiber == old(cpu.t_thread_fiber)
      ensures cpu.t_thread_fiber.m_ctx == OnCpu
      ensures cpu.t_main == this && cpu.t_scheduler == sched
      ensures cpu.s_fiber_count - old(cpu.s_fiber_count)
           == |sched.a.named| - |old(sched.a.named)| + Scheduler.HostLeft(sched.a)
    {
      hide WF, Quiet, RunPooled, Scheduler.LinkedBut;
      var cur := cpu.GetThis();
      sched.Run(cpu);
      cur.m_cb := Empty;
      cur.m_state := TERM;
      cur.Back(cpu);
    }

    method Back(cpu: Cpu)
      requires cpu.executing == this && m_ctx == OnCpu
      requires cpu.t_thread_fiber != null && cpu.t_thread_fiber != this
      requires cpu.t_thread_fiber.m_ctx == Saved(AfterCall)
      modifies cpu`t_fiber, cpu`executing, this`m_ctx, cpu.t_thread_fiber`m_ctx
      ensures m_ctx == Saved(NeverReach) && cpu.t_thread_fiber.m_ctx == OnCpu
      ensures cpu.executing == cpu.t_fiber == cpu.t_thread_fiber
    {
      cpu.t_fiber := cpu.t_thread_fiber;
      var at := cpu.Swapcontext(this, NeverReach, cpu.t_thread_fiber);
      assert at == Saved(AfterCall);
    }

    /** This fiber's context is ready to be loaded and will run `job`. */
    ghost predicate Loaded(job: Job)
      reads this
    {
      match job
      case Idling => m_ctx == Entry(false) && m_cb == IdleLoop
      case Hollow => m_ctx == Entry(false) && m_cb == Empty
      case Tasking(id, p) => (m_ctx == Entry(false) && m_cb == TaskCb(id, p)) || m_ctx == Saved(InTask(id, p))
    }

    /** How a fiber looks when its slice has ended with `e`: a raw swap leaves the state EXEC. */
    ghost predicate Stopped(id: nat, e: Ending)
      reads this
    {
      match e
      case ToReady(rest) => m_state == READY && m_ctx == Saved(InTask(id, rest))
      case ToHold(rest) => m_state == HOLD && m_ctx == Saved(InTask(id, rest))
      case ToRaw(rest) => m_state == EXEC && m_ctx == Saved(InTask(id, rest))
      case Done => m_state == TERM && m_cb == Empty && m_ctx == Saved(NeverReach)
      case Thrown => m_state == EXCEPT && m_ctx == Saved(NeverReach)
    }

    /** What `job` leaves behind in the scheduler's reference state and in this fiber. */
    ghost predicate Ran(job: Job, before: Sched, after: Sched)
      reads this
    {
      match job
      case Idling => after == before && Stopped(0, Done)
      case Hollow => after == before && Stopped(0, Thrown) && m_cb == Empty
      case Tasking(id, p) => after == Slice(before, id, p).0 && Stopped(id, Slice(before, id, p).1)
    }

    method SwapIn(cpu: Cpu, sched: Scheduler, ghost job: Job)
      requires m_state != EXEC && Loaded(job)
      requires cpu.t_main != null && cpu.t_main != this && cpu.executing == cpu.t_main && cpu.t_main.m_ctx == OnCpu
      requires sched.LinkedBut(this) && cpu.t_main !in sched.handles.Values
      requires job.Tasking? ==> sched.Bound(this, job.id)
      requires if job.Idling? then sched.m_idle_thread_count > 0 else sched.m_active_thread_count > 0
      modifies sched`m_fibers, sched`handles, sched`next_task, sched`a
      modifies cpu`t_fiber, cpu`executing, cpu`s_fiber_id, cpu`s_fiber_count, this, cpu.t_main`m_ctx
      ensures Ran(job, old(sched.a), sched.a)
      ensures sched.LinkedBut(this) && Scheduler.Grew(old(sched.handles), sched.handles)
      ensures (forall t :: t in sched.handles && t !in old(sched.handles) ==> fresh(sched.handles[t]))
      ensures cpu.s_fiber_id - old(cpu.s_fiber_id) == |sched.a.named| - |old(sched.a.named)|
      ensures cpu.s_fiber_count - old(cpu.s_fiber_count) == cpu.s_fiber_id - old(cpu.s_fiber_id)
      ensures cpu.executing == cpu.t_fiber == cpu.t_main && cpu.t_main.m_ctx == OnCpu
    {
      cpu.t_fiber := this;
      m_state := EXEC;
      var at := cpu.Swapcontext(cpu.t_main, AfterSwapIn, this);
      if at.Entry? {
        MainFunc(cpu, sched, job);
      } else {
        Continue(cpu, sched, at.point.id, at.point.rest);
      }
    }

    /** Entry point of every other fiber. */
    method MainFunc(cpu: Cpu, sched: Scheduler, ghost job: Job)
      requires m_ctx == OnCpu && m_state == EXEC
      requires m_cb == match job case Idling => IdleLoop case Hollow => Empty case Tasking(id, p) => TaskCb(id, p)
      requires cpu.t_main != null && cpu.t_main != this && cpu.executing == cpu.t_fiber == this
      requires cpu.t_main.m_ctx == Saved(AfterSwapIn)
      requires sched.LinkedBut(this) && cpu.t_main !in sched.handles.Values
      requires job.Tasking? ==> sched.Bound(this, job.id)
      modifies sched`m_fibers, sched`handles, sched`next_task, sched`a
      modifies cpu`t_fiber, cpu`executing, cpu`s_fiber_id, cpu`s_fiber_count, this, cpu.t_main`m_ctx
      ensures Ran(job, old(sched.a), sched.a)
      ensures sched.LinkedBut(this) && Scheduler.Grew(old(sched.handles), sched.handles)
      ensures (forall t :: t in sched.handles && t !in old(sched.handles) ==> fresh(sched.handles[t]))
      ensures cpu.s_fiber_id - old(cpu.s_fiber_id) == |sched.a.named| - |old(sched.a.named)|
      ensures cpu.s_fiber_count - old(cpu.s_fiber_count) == cpu.s_fiber_id - old(cpu.s_fiber_id)
      ensures cpu.executing == cpu.t_fiber == cpu.t_main && cpu.t_main.m_ctx == OnCpu
    {
      var cur := this;
      match cur.m_cb
      case TaskCb(id, prog) => Continue(cpu, sched, id, prog);
      case IdleLoop =>
        sched.Idling();
        cur.m_cb := Empty;
        cur.m_state := TERM;
        cur.SwapOut(cpu, NeverReach);
      case Empty =>
        // Calling an empty function throws.
        cur.m_state := EXCEPT;
        cur.SwapOut(cpu, NeverReach);
    }

    /** The running task is on the CPU, in this fiber, and the worker loop waits in `t_main`. */
    ghost predicate Running(cpu: Cpu, sched: Scheduler, id: nat)
      reads this, cpu, cpu.t_main, sched, sched.handles.Values - {this}
    {
      && m_ctx == OnCpu && m_state == EXEC
      && cpu.executing == cpu.t_fiber == this
      && cpu.t_main != null && cpu.t_main != this && cpu.t_main.m_ctx == Saved(AfterSwapIn)
      && sched.LinkedBut(this) && sched.Bound(this, id) && cpu.t_main !in sched.handles.Values
    }

    /** The CPU is in the code of task `id`, inside `MainFunc`'s call of the callback, with `prog`
        still to do. */
    method Continue(cpu: Cpu, sched: Scheduler, id: nat, prog: Prog)
      requires Running(cpu, sched, id)
      modifies sched`m_fibers, sched`handles, sched`next_task, sched`a
      modifies cpu`t_fiber, cpu`executing, cpu`s_fiber_id, cpu`s_fiber_count, this, cpu.t_main`m_ctx
      ensures Ran(Tasking(id, prog), old(sched.a), sched.a)
      ensures sched.LinkedBut(this) && Scheduler.Grew(old(sched.handles), sched.handles)
      ensures (forall t :: t in sched.handles && t !in old(sched.handles) ==> fresh(sched.handles[t]))
      ensures cpu.s_fiber_id - old(cpu.s_fiber_id) == |sched.a.named| - |old(sched.a.named)|
      ensures cpu.s_fiber_count - old(cpu.s_fiber_count) == cpu.s_fiber_id - old(cpu.s_fiber_id)
      ensures cpu.executing == cpu.t_fiber == cpu.t_main && cpu.t_main.m_ctx == OnCpu
    {
      var p := RunActs(cpu, sched, id, prog);
      match p
      case Return => Finish(cpu, sched, id, false);
      case Throw => Finish(cpu, sched, id, true);
      case Then(YieldReady, rest) => YieldToReady(cpu, sched, id, rest);
      case Then(YieldHold, rest) => YieldToHold(cpu, sched, id, rest);
      case Then(SwapOut, rest) =>
        sched.Note(this, id, Did(Act.SwapOut));
        SwapOut(cpu, InTask(id, rest));
    }

    /** User code up to its next yield or its end. */
    method RunActs(cpu: Cpu, sched: Scheduler, id: nat, prog: Prog) returns (p: Prog)
      requires Running(cpu, sched, id)
      modifies sched`m_fibers, sched`handles, sched`next_task, sched`a, cpu`s_fiber_id, cpu`s_fiber_count
      ensures p.Then? ==> Yields(p.act)
      ensures Slice(sched.a, id, p) == Slice(old(sched.a), id, prog)
      ensures Running(cpu, sched, id) && Scheduler.Grew(old(sched.handles), sched.handles)
      ensures (forall t :: t in sched.handles && t !in old(sched.handles) ==> fresh(sched.handles[t]))
      ensures cpu.s_fiber_id - old(cpu.s_fiber_id) == |sched.a.named| - |old(sched.a.named)|
      ensures cpu.s_fiber_count - old(cpu.s_fiber_count) == cpu.s_fiber_id - old(cpu.s_fiber_id)
    {
      p := prog;
      while p.Then? && !Yields(p.act)
        invariant Slice(sched.a, id, p) == Slice(old(sched.a), id, prog)
        invariant Running(cpu, sched, id) && Scheduler.Grew(old(sched.handles), sched.handles)
        invariant (forall t :: t in sched.handles && t !in old(sched.handles) ==> fresh(sched.handles[t]))
        invariant cpu.s_fiber_id - old(cpu.s_fiber_id) == |sched.a.named| - |old(sched.a.named)|
        invariant cpu.s_fiber_count - old(cpu.s_fiber_count) == cpu.s_fiber_id - old(cpu.s_fiber_id)
        decreases p
      {
        sched.Act(cpu, this, id, p.act);
        p := p.rest;
      }
    }

    /** The last lines of `MainFunc`, after the callback returned or an exception left it. */
    method Finish(cpu: Cpu, sched: Scheduler, ghost id: nat, threw: bool)
      requires Running(cpu, sched, id)
      modifies sched`a, cpu`t_fiber, cpu`executing, this, cpu.t_main`m_ctx
      ensures sched.a == Log(old(sched.a), id, if threw then Threw else Returned)
      ensures Stopped(id, if threw then Thrown else Done) && sched.LinkedBut(this)
      ensures threw ==> m_cb == old(m_cb)
      ensures cpu.executing == cpu.t_fiber == cpu.t_main && cpu.t_main.m_ctx == OnCpu
    {
      sched.Note(this, id, if threw then Threw else Returned);
      if threw {
        m_state := EXCEPT;
      } else {
        m_cb := Empty;
        m_state := TERM;
      }
      SwapOut(cpu, NeverReach);
    }

    method YieldToReady(cpu: Cpu, sched: Scheduler, id: nat, rest: Prog)
      requires Running(cpu, sched, id)
      modifies sched`a, cpu`t_fiber, cpu`executing, this, cpu.t_main`m_ctx
      ensures sched.a == Log(old(sched.a), id, Did(YieldReady))
      ensures Stopped(id, ToReady(rest)) && sched.LinkedBut(this)
      ensures cpu.executing == cpu.t_fiber == cpu.t_main && cpu.t_main.m_ctx == OnCpu
    {
      sched.Note(this, id, Did(YieldReady));
      var cur := cpu.GetThis();
      cur.m_state := READY;
      cur.SwapOut(cpu, InTask(id, rest));
    }

    method YieldToHold(cpu: Cpu, sched: Scheduler, id: nat, rest: Prog)
      requires Running(cpu, sched, id)
      modifies sched`a, cpu`t_fiber, cpu`executing, this, cpu.t_main`m_ctx
      ensures sched.a == Log(old(sched.a), id, Did(YieldHold))
      ensures Stopped(id, ToHold(rest)) && sched.LinkedBut(this)
      ensures cpu.executing == cpu.t_fiber == cpu.t_main && cpu.t_main.m_ctx == OnCpu
    {
      sched.Note(this, id, Did(YieldHold));
      var cur := cpu.GetThis();
      cur.m_state := HOLD;
      cur.SwapOut(cpu, InTask(id, rest));
    }

    method SwapOut(cpu: Cpu, point: Point)
      requires cpu.executing == this && m_ctx == OnCpu
      requires cpu.t_main != null && cpu.t_main != this && cpu.t_main.m_ctx == Saved(AfterSwapIn)
      modifies cpu`t_fiber, cpu`executing, this`m_ctx, cpu.t_main`m_ctx
      ensures m_ctx == Saved(point) && cpu.t_main.m_ctx == OnCpu
      ensures cpu.executing == cpu.t_fiber == cpu.t_main
    {
      cpu.t_fiber := cpu.t_main;
      var at := cpu.Swapcontext(this, point, cpu.t_main);
      assert at == Saved(AfterSwapIn);
    }
  }

  /** The scheduler's constant and start/stop fields, as a value. */
  datatype Settings = Settings(threads: nat, root: Fiber?, rootThread: int, stoping: bool, autoStop: bool,
                               active: nat, idling: nat)

  /** The state in which a run began. */
  datatype Origin = Origin(a: Sched, handles: map<nat, Fiber>, made: nat, ids: nat, count: int, active: nat,
                           idling: nat)

  class Scheduler {
    var m_fibers: seq<FiberAndThread>
    var m_root_fiber: Fiber?
    var m_root_thread: int
    var m_thread_count: nat
    var m_active_thread_count: nat
    var m_idle_thread_count: nat
    var m_stoping: bool
    var m_auto_stop: bool
    // User code: the fiber pointers it keeps, by task, and the number of tasks so far.
    var handles: map<nat, Fiber>
    var next_task: nat
    // The state of the reference scheduler that this object is proved to follow.
    ghost var a: Sched
    // The loop's callback fiber, also while it is in use.
    ghost var host: Fiber?
    ghost var cb_allocated: nat

    ghost function Config(): Settings
      reads this
    {
      Settings(m_thread_count, m_root_fiber, m_root_thread, m_stoping, m_auto_stop,
               m_active_thread_count, m_idle_thread_count)
    }

    static ghost predicate Matches(f: Fiber, t: nat, s: Status)
      reads f
    {
      f.m_stack && match s
      case Pending(_) => false
      case Fresh(p) => f.m_state == INIT && f.m_cb == TaskCb(t, p) && f.m_ctx == Entry(false)
      case Running => true
      case Ready(rest) => f.m_state == READY && f.m_ctx == Saved(InTask(t, rest))
      case Held(rest) => f.m_state == HOLD && f.m_ctx == Saved(InTask(t, rest))
      case Finished => f.m_state == TERM && f.m_cb == Empty && f.m_ctx == Saved(NeverReach)
      case Failed => f.m_state == EXCEPT && f.m_ctx == Saved(NeverReach)
    }

    /** An entry leads to its task's fiber, carries its task's callback, or, if the task is a callback that
        has begun and whose fiber nobody was given, leads to the callback fiber. */
    static ghost predicate EntryMatches(e: FiberAndThread, slot: Slot, table: seq<Task>, handles: map<nat, Fiber>,
                                        host: Fiber?) {
      && e.thread == slot.thread
      && slot.task < |table|
      && if e.fiber != null then
           && e.cb == Empty
           && if slot.task in handles then handles[slot.task] == e.fiber
              else e.fiber == host && !Live(table[slot.task].status)
         else slot.task !in handles && table[slot.task].status.Pending?
              && e.cb == TaskCb(slot.task, table[slot.task].status.prog)
    }

    static ghost predicate QueueLinked(fs: seq<FiberAndThread>, q: seq<Slot>, table: seq<Task>, handles: map<nat, Fiber>,
                                       host: Fiber?) {
      && |fs| == |q|
      && forall i :: 0 <= i < |fs| ==> EntryMatches(fs[i], q[i], table, handles, host)
    }

    /** Every named task has a fiber, and no two tasks share one. */
    static ghost predicate NamesLinked(table: seq<Task>, named: set<nat>, handles: map<nat, Fiber>) {
      && handles.Keys == named
      && (forall t :: t in handles ==> t < |table|)
      && (forall t, u :: t in handles && u in handles && t != u ==> handles[t] != handles[u])
    }

    /** The fiber of every task but the one in `skip` looks as the table says. */
    static ghost predicate FibersMatch(table: seq<Task>, handles: map<nat, Fiber>, skip: Fiber?)
      reads handles.Values - Just(skip)
    {
      forall t :: t in handles && t < |table| && handles[t] != skip ==> Matches(handles[t], t, table[t].status)
    }

    /** The queue, the fibers and the reference state say the same, the running fiber set aside. */
    ghost predicate LinkedBut(skip: Fiber?)
      reads this, handles.Values - Just(skip)
    {
      && next_task == |a.table|
      && QueueLinked(m_fibers, a.queue, a.table, handles, host)
      && NamesLinked(a.table, a.named, handles)
      && FibersMatch(a.table, handles, skip)
    }

    ghost predicate Linked()
      reads this, handles.Values
    {
      LinkedBut(null)
    }

    static lemma ValuesAppend(handles: map<nat, Fiber>, t: nat, f: Fiber)
      requires t !in handles
      ensures handles[t := f].Values == handles.Values + {f}
    {
      var more := handles[t := f];
      forall g | g in handles.Values + {f} ensures g in more.Values {
        if g == f {
          assert more[t] == f;
        } else {
          var u :| u in handles && handles[u] == g;
          assert more[u] == g;
        }
      }
    }

    static lemma NamesAppend(table: seq<Task>, later: seq<Task>, named: set<nat>, handles: map<nat, Fiber>, t: nat, f: Fiber)
      requires NamesLinked(table, named, handles) && t !in handles && f !in handles.Values
      requires |table| <= |later| && t < |later|
      ensures NamesLinked(later, named + {t}, handles[t := f])
    {
      var more := handles[t := f];
      assert more.Keys == handles.Keys + {t};
      assert forall u :: u in handles ==> more[u] == handles[u] && handles[u] in handles.Values;
    }

    /** What may happen to the tasks without a change in the queue: callbacks that have not begun stay as
        they are, and nobody is given a fiber that entries lead to. */
    static ghost predicate TasksKept(table: seq<Task>, handles: map<nat, Fiber>, later: seq<Task>, more: map<nat, Fiber>) {
      && |table| <= |later|
      && (forall t :: t in handles ==> t in more && more[t] == handles[t])
      && (forall t :: 0 <= t < |table| && t !in handles ==>
            t !in more && (table[t].status.Pending? ==> later[t] == table[t])
            && (!Live(table[t].status) ==> !Live(later[t].status)))
    }

    /** A new last entry. */
    static lemma QueueAppend(fs: seq<FiberAndThread>, q: seq<Slot>, table: seq<Task>, handles: map<nat, Fiber>,
                             e: FiberAndThread, slot: Slot, later: seq<Task>, more: map<nat, Fiber>, host: Fiber?)
      requires QueueLinked(fs, q, table, handles, host) && TasksKept(table, handles, later, more)
      requires EntryMatches(e, slot, later, more, host)
      ensures QueueLinked(fs + [e], q + [slot], later, more, host)
    {
    }

    static lemma FibersAppend(table: seq<Task>, later: seq<Task>, handles: map<nat, Fiber>, t: nat, f: Fiber, skip: Fiber?)
      requires FibersMatch(table, handles, skip) && t !in handles
      requires t == |table| < |later| && later[..t] == table && Matches(f, t, later[t].status)
      requires forall u :: u in handles ==> u < t
      ensures FibersMatch(later, handles[t := f], skip)
    {
      forall u | u in handles[t := f] && handles[t := f][u] != skip
        ensures Matches(handles[t := f][u], u, later[u].status)
      {
        if u != t { assert later[u] == later[..t][u]; }
      }
    }

    static ghost predicate Grew(before: map<nat, Fiber>, after: map<nat, Fiber>) {
      forall t :: t in before ==> t in after && after[t] == before[t]
    }

    /** `f` is the fiber running task `id`: the task's own, or the callback fiber. */
    ghost predicate Bound(f: Fiber, id: nat)
      reads this
    {
      && id < |a.table| && a.table[id].status.Running?
      && if id in handles then handles[id] == f else host == f
    }

    method Idling()
    {
    }

    /** The scheduler was built on this thread and has not been started. */
    ghost predicate RootReady(cpu: Cpu)
      reads this, cpu, m_root_fiber, cpu.t_thread_fiber, handles.Values
    {
      && m_root_fiber != null && cpu.t_thread_fiber != null && m_root_fiber != cpu.t_thread_fiber
      && m_root_fiber.m_ctx == Entry(true) && m_root_fiber.m_cb == RunLoop && m_root_fiber.m_state == INIT
      && cpu.id == m_root_thread && cpu.t_main == m_root_fiber
      && cpu.executing == cpu.t_thread_fiber == cpu.t_fiber && cpu.t_thread_fiber.m_ctx == OnCpu
      && m_root_fiber !in handles.Values && cpu.t_thread_fiber !in handles.Values
    }

    /** One non-yielding action of user code, in the fiber `f`. */
    method Act(cpu: Cpu, ghost f: Fiber, id: nat, act: Act)
      requires LinkedBut(f) && Bound(f, id) && cpu.t_fiber == f && !Yields(act)
      modifies `m_fibers, `handles, `next_task, `a, cpu`s_fiber_id, cpu`s_fiber_count
      ensures a == Perform(old(a), id, act)
      ensures LinkedBut(f) && Bound(f, id)
      ensures Grew(old(handles), handles) && (forall t :: t in handles && t !in old(handles) ==> fresh(handles[t]))
      ensures cpu.s_fiber_id - old(cpu.s_fiber_id) == |a.named| - |old(a.named)|
      ensures cpu.s_fiber_count - old(cpu.s_fiber_count) == cpu.s_fiber_id - old(cpu.s_fiber_id)
    {
      PerformGrows(a, id, act);
      Note(f, id, Did(act));
      match act
      case Work(_) =>
      case Spawn(child, asFiber, thread) => Submit(cpu, f, child, asFiber, thread);
      case Wake(t, thread) => WakeTask(f, t, thread);
      case WakeSelf(thread) => WakeThis(cpu, f, id, thread);
    }

    /** User code enqueues the fiber it is running in. */
    method WakeThis(cpu: Cpu, ghost f: Fiber, ghost id: nat, thread: int)
      requires LinkedBut(f) && Bound(f, id) && cpu.t_fiber == f
      modifies `m_fibers, `a
      ensures a == Enqueue(old(a), id, thread).(rude := old(a).rude + 1)
      ensures LinkedBut(f)
    {
      var cur := cpu.GetThis();
      var _ := Schedule(FiberAndThread(cur, Empty, thread));
      a := Enqueue(a, id, thread).(rude := a.rude + 1);
    }

    ghost method Note(running: Fiber?, id: nat, step: Step)
      requires LinkedBut(running)
      modifies `a
      ensures a == Log(old(a), id, step) && LinkedBut(running)
    {
      a := Log(a, id, step);
    }

    /** User code hands in a new task, as a callback or as a fiber of its own. */
    method Submit(cpu: Cpu, ghost running: Fiber?, prog: Prog, asFiber: bool, thread: int)
      requires LinkedBut(running)
      modifies `m_fibers, `handles, `next_task, `a, cpu`s_fiber_id, cpu`s_fiber_count
      ensures a == Reference.Submit(old(a), prog, asFiber, thread)
      ensures LinkedBut(running) && Grew(old(handles), handles) && (forall t :: t in handles && t !in old(handles) ==> fresh(handles[t]))
      ensures cpu.s_fiber_id - old(cpu.s_fiber_id) == |a.named| - |old(a.named)|
      ensures cpu.s_fiber_count - old(cpu.s_fiber_count) == cpu.s_fiber_id - old(cpu.s_fiber_id)
    {
      if asFiber {
        SubmitFiber(cpu, running, prog, thread);
      } else {
        SubmitCallback(running, prog, thread);
      }
    }

    method SubmitCallback(ghost running: Fiber?, prog: Prog, thread: int)
      requires LinkedBut(running)
      modifies `m_fibers, `next_task, `a
      ensures a == Reference.Submit(old(a), prog, false, thread) && LinkedBut(running)
    {
      var t := next_task;
      next_task := next_task + 1;
      var e := FiberAndThread(null, TaskCb(t, prog), thread);
      var _ := Schedule(e);
      a := Reference.Submit(a, prog, false, thread);
      QueueAppend(old(m_fibers), old(a.queue), old(a.table), handles, e, Slot(t, thread), a.table, handles, host);
    }

    method SubmitFiber(cpu: Cpu, ghost running: Fiber?, prog: Prog, thread: int)
      requires LinkedBut(running)
      modifies `m_fibers, `handles, `next_task, `a, cpu`s_fiber_id, cpu`s_fiber_count
      ensures a == Reference.Submit(old(a), prog, true, thread)
      ensures LinkedBut(running) && Grew(old(handles), handles) && (forall t :: t in handles && t !in old(handles) ==> fresh(handles[t]))
      ensures cpu.s_fiber_id == old(cpu.s_fiber_id) + 1 && |a.named| == |old(a.named)| + 1
      ensures cpu.s_fiber_count == old(cpu.s_fiber_count) + 1
    {
      hide QueueLinked, NamesLinked, FibersMatch, EntryMatches, TasksKept;
      var t := next_task;
      next_task := next_task + 1;
      var f := new Fiber(cpu, TaskCb(t, prog), false);
      handles := handles[t := f];
      var e := FiberAndThread(f, Empty, thread);
      var _ := Schedule(e);
      a := Reference.Submit(a, prog, true, thread);
      NamesBound(old(a.table), old(a.named), old(handles));
      NewTaskKept(old(a.table), a.table, old(handles), t, f);
      NewEntry(e, Slot(t, thread), a.table, handles, host);
      QueueAppend(old(m_fibers), old(a.queue), old(a.table), old(handles), e, Slot(t, thread), a.table, handles, host);
      NamesAppend(old(a.table), a.table, old(a.named), old(handles), t, f);
      ValuesAppend(old(handles), t, f);
      FibersAppend(old(a.table), a.table, old(handles), t, f, running);
    }

    static lemma NamesBound(table: seq<Task>, named: set<nat>, handles: map<nat, Fiber>)
      requires NamesLinked(table, named, handles)
      ensures handles.Keys == named && forall t :: t in handles ==> t < |table|
    {
    }

    static lemma NewTaskKept(table: seq<Task>, later: seq<Task>, handles: map<nat, Fiber>, t: nat, f: Fiber)
      requires t == |table| < |later| && later[..t] == table && forall u :: u in handles ==> u < t
      ensures TasksKept(table, handles, later, handles[t := f])
    {
      assert forall u :: 0 <= u < t ==> later[u] == later[..t][u];
    }

    static lemma NewEntry(e: FiberAndThread, slot: Slot, table: seq<Task>, handles: map<nat, Fiber>, host: Fiber?)
      requires e.fiber != null && e.cb == Empty && e.thread == slot.thread
      requires slot.task < |table| && slot.task in handles && handles[slot.task] == e.fiber
      ensures EntryMatches(e, slot, table, handles, host)
    {
    }

    /** User code enqueues the fiber of task `t`, if it has a pointer to it. */
    method WakeTask(ghost running: Fiber?, t: nat, thread: int)
      requires LinkedBut(running)
      modifies `m_fibers, `a
      ensures a == WakeUp(old(a), t, thread) && LinkedBut(running)
    {
      if t in handles {
        var _ := Schedule(FiberAndThread(handles[t], Empty, thread));
      }
      a := WakeUp(a, t, thread);
    }

    /** Append an entry; report whether the queue was empty.  Empty entries are refused. */
    method Schedule(ft: FiberAndThread) returns (needTickle: bool)
      modifies `m_fibers
      ensures m_fibers == if ft.fiber != null || ft.cb != Empty then old(m_fibers) + [ft] else old(m_fibers)
      ensures needTickle <==> old(m_fibers) == []
    {
      needTickle := m_fibers == [];
      if ft.fiber != null || ft.cb != Empty {
        m_fibers := m_fibers + [ft];
      }
    }

    // ----- the worker loop

    static predicate PinnedElsewhere(e: FiberAndThread, me: int) {
      e.thread != NONE && e.thread != me
    }

    static predicate Eligible(e: FiberAndThread, me: int)
      reads e.fiber
    {
      !PinnedElsewhere(e, me) && (e.fiber != null ==> e.fiber.m_state != EXEC)
    }

    /** The scan under the lock: take out the first entry this thread may run. */
    method Scan(me: int) returns (ft: FiberAndThread, tickleMe: bool, ghost k: nat)
      requires forall e :: e in m_fibers ==> e.fiber != null || e.cb != Empty
      modifies `m_fibers
      ensures k <= |old(m_fibers)|
      ensures forall j :: 0 <= j < k ==> !Eligible(old(m_fibers)[j], me)
      ensures k < |old(m_fibers)| ==>
        && ft == old(m_fibers)[k] && Eligible(ft, me)
        && m_fibers == old(m_fibers)[..k] + old(m_fibers)[k + 1..]
      ensures k == |old(m_fibers)| ==> ft == NO_ENTRY && m_fibers == old(m_fibers)
      ensures tickleMe <==> exists j :: 0 <= j < k && PinnedElsewhere(old(m_fibers)[j], me)
    {
      ft, tickleMe := NO_ENTRY, false;
      var it := 0;
      k := |m_fibers|;
      while it < |m_fibers|
        invariant 0 <= it <= |m_fibers| == k && m_fibers == old(m_fibers) && ft == NO_ENTRY
        invariant forall j :: 0 <= j < it ==> !Eligible(m_fibers[j], me)
        invariant tickleMe <==> exists j :: 0 <= j < it && PinnedElsewhere(m_fibers[j], me)
      {
        var e := m_fibers[it];
        if PinnedElsewhere(e, me) {
          it := it + 1;
          tickleMe := true;
          continue;
        }
        assert e.fiber != null || e.cb != Empty;
        if e.fiber != null && e.fiber.m_state == EXEC {
          it := it + 1;
          continue;
        }
        ft := e;
        k := it;
        m_fibers := m_fibers[..it] + m_fibers[it + 1..];
        break;
      }
    }

    /** A callback fiber that is not in use: taken back after its callback ended, and perhaps entered
        since without a callback. */
    ghost predicate PoolOk(pool: Fiber?)
      reads this, pool
    {
      pool != null ==>
        && pool.m_stack && pool.m_cb == Empty && pool !in handles.Values
        && ((pool.m_state == INIT && pool.m_ctx == Entry(false))
            || (pool.m_state == EXCEPT && pool.m_ctx == Saved(NeverReach)))
    }

    static ghost function PoolOf(pool: Fiber?): Pool
      reads pool
    {
      if pool == null then NoPool else if pool.m_state == INIT then Blank else Broken
    }

    /** The thread is in its own context, which is the one the fibers return to. */
    ghost predicate AtHome(cpu: Cpu, main: Fiber)
      reads this, cpu, main
    {
      cpu.executing == cpu.t_fiber == cpu.t_main == main && main.m_ctx == OnCpu && main !in handles.Values
    }

    /** One slice of `f`, counted as active. */
    method RunFiber(cpu: Cpu, main: Fiber, f: Fiber, ghost job: Job)
      requires LinkedBut(f) && AtHome(cpu, main)
      requires f.Loaded(job) && f.m_state != EXEC && f != main && (job.Tasking? ==> Bound(f, job.id)) && !job.Idling?
      modifies `m_fibers, `handles, `next_task, `a, `m_active_thread_count
      modifies cpu`t_fiber, cpu`executing, cpu`s_fiber_id, cpu`s_fiber_count, f, main`m_ctx
      ensures f.Ran(job, old(a), a)
      ensures LinkedBut(f) && AtHome(cpu, main) && Grew(old(handles), handles)
      ensures (forall t :: t in handles && t !in old(handles) ==> fresh(handles[t]))
      ensures cpu.s_fiber_id - old(cpu.s_fiber_id) == |a.named| - |old(a.named)|
      ensures cpu.s_fiber_count - old(cpu.s_fiber_count) == cpu.s_fiber_id - old(cpu.s_fiber_id)
      ensures m_active_thread_count == old(m_active_thread_count)
    {
      m_active_thread_count := m_active_thread_count + 1;
      f.SwapIn(cpu, this, job);
      m_active_thread_count := m_active_thread_count - 1;
    }

    /** First branch of the loop: the entry drawn was a fiber, a task's own or the callback fiber with
        no callback in it. */
    method FiberTurn(cpu: Cpu, main: Fiber, f: Fiber, ghost job: Job)
      requires Linked() && AtHome(cpu, main) && !job.Idling? && f != main
      requires f.Loaded(job) && f.m_state != EXEC && f.m_stack
      requires job.Tasking? ==> Bound(f, job.id) && job.id in handles
      requires job.Hollow? ==> f !in handles.Values
      modifies `m_fibers, `handles, `next_task, `a, `m_active_thread_count
      modifies cpu`t_fiber, cpu`executing, cpu`s_fiber_id, cpu`s_fiber_count, f, main`m_ctx
      ensures job.Tasking? ==> job.id < |old(a).table| && a == Serve(old(a), job.id, job.prog, false)
      ensures job.Hollow? ==> a == old(a) && f.Stopped(0, Thrown) && f.m_cb == Empty && handles == old(handles)
      ensures Linked() && AtHome(cpu, main) && Grew(old(handles), handles)
      ensures (forall t :: t in handles && t !in old(handles) ==> fresh(handles[t]))
      ensures cpu.s_fiber_id - old(cpu.s_fiber_id) == |a.named| - |old(a.named)|
      ensures cpu.s_fiber_count - old(cpu.s_fiber_count) == cpu.s_fiber_id - old(cpu.s_fiber_id)
      ensures m_active_thread_count == old(m_active_thread_count)
    {
      ghost var e := Done;
      if job.Tasking? {
        e := SliceOwn(a, job.id, job.prog, false);
      }
      hide Settle, Slice, QueueLinked, NamesLinked, FibersMatch;
      RunFiber(cpu, main, f, job);
      if job.Hollow? { HandlesSame(old(a), old(handles)); }
      AfterSlice(f, job, e);
    }

    /** What the loop does with a fiber that has come back. */
    method AfterSlice(f: Fiber, ghost job: Job, ghost e: Ending)
      requires LinkedBut(f) && f.m_stack && !job.Idling?
      requires job.Tasking? ==>
        && job.id in handles && handles[job.id] == f && f.Stopped(job.id, e)
        && job.id < |a.table| && a.table[job.id].status.Running?
      requires job.Hollow? ==> f !in handles.Values && f.m_state == EXCEPT
      modifies `m_fibers, `a, f`m_state
      ensures job.Tasking? ==> a == Settle(old(a), job.id, e)
      ensures job.Hollow? ==> a == old(a) && f.m_state == EXCEPT
      ensures Linked()
    {
      if f.m_state == READY {
        var _ := Schedule(FiberAndThread(f, Empty, NONE));
      } else if f.m_state != TERM && f.m_state != EXCEPT {
        f.m_state := HOLD;
      }
      if job.Tasking? {
        hide QueueLinked, NamesLinked, FibersMatch;
        if e.ToReady? {
          PutBack(f, job.id, e.rest, old(m_fibers));
        } else {
          PutAway(f, job.id, e);
        }
      } else {
        FibersAll(a.table, handles, f);
      }
    }

    /** A fiber that is no task's need not be set aside. */
    static lemma FibersAll(table: seq<Task>, handles: map<nat, Fiber>, f: Fiber)
      requires FibersMatch(table, handles, f) && f !in handles.Values
      ensures FibersMatch(table, handles, null)
    {
    }

    static lemma QueueKept(fs: seq<FiberAndThread>, q: seq<Slot>, table: seq<Task>, handles: map<nat, Fiber>,
                           later: seq<Task>, host: Fiber?)
      requires QueueLinked(fs, q, table, handles, host) && TasksKept(table, handles, later, handles)
      ensures QueueLinked(fs, q, later, handles, host)
    {
    }

    /** The fiber set aside looks as the table now says. */
    static lemma FibersPut(table: seq<Task>, named: set<nat>, handles: map<nat, Fiber>, f: Fiber, id: nat, s: Status)
      requires NamesLinked(table, named, handles) && FibersMatch(table, handles, f)
      requires id in handles && handles[id] == f && id < |table| && Matches(f, id, s)
      ensures FibersMatch(table[id := table[id].(status := s)], handles, null)
    {
      forall t | t in handles && t < |table|
        ensures Matches(handles[t], t, table[id := table[id].(status := s)][t].status)
      {
      }
    }

    /** The reference scheduler's half of requeueing a ready task. */
    ghost method PutBack(f: Fiber, id: nat, rest: Prog, before: seq<FiberAndThread>)
      requires next_task == |a.table| && NamesLinked(a.table, a.named, handles) && FibersMatch(a.table, handles, f)
      requires id in handles && handles[id] == f && id < |a.table| && a.table[id].status.Running?
      requires m_fibers == before + [FiberAndThread(f, Empty, NONE)] && QueueLinked(before, a.queue, a.table, handles, host)
      requires f.Stopped(id, ToReady(rest)) && f.m_stack
      modifies `a
      ensures a == Settle(old(a), id, ToReady(rest)) && Linked()
    {
      FibersPut(a.table, a.named, handles, f, id, Ready(rest));
      a := Settle(a, id, ToReady(rest));
      QueueAppend(before, old(a.queue), old(a.table), handles, FiberAndThread(f, Empty, NONE), Slot(id, NONE),
        a.table, handles, host);
      hide QueueLinked, FibersMatch, Matches;
      assert a.named == old(a.named);
    }

    /** The reference scheduler's half of putting any other task away whose fiber may be named. */
    ghost method PutAway(f: Fiber, id: nat, e: Ending)
      requires next_task == |a.table| && NamesLinked(a.table, a.named, handles) && FibersMatch(a.table, handles, f)
      requires id in handles && handles[id] == f && id < |a.table| && a.table[id].status.Running?
      requires QueueLinked(m_fibers, a.queue, a.table, handles, host)
      requires !e.ToReady? && f.Stopped(id, if e.ToRaw? then ToHold(e.rest) else e) && f.m_stack
      modifies `a
      ensures a == Settle(old(a), id, e) && Linked()
    {
      a := Settle(a, id, e);
      FibersPut(old(a.table), old(a.named), handles, f, id, a.table[id].status);
      QueueKept(m_fibers, old(a.queue), old(a.table), handles, a.table, host);
      hide QueueLinked, FibersMatch, Matches;
      assert a.named == old(a.named);
    }

    static lemma QueueAdopt(fs: seq<FiberAndThread>, q: seq<Slot>, table: seq<Task>, handles: map<nat, Fiber>, id: nat, f: Fiber)
      requires QueueLinked(fs, q, table, handles, f)
      requires id < |table| && !table[id].status.Pending? && id !in handles
      ensures QueueLinked(fs, q, table, handles[id := f], f)
    {
    }

    /** Once the callback fiber is task `id`'s own, so are the entries that lead there. */
    static lemma StraysAdopted(fs: seq<FiberAndThread>, a: Sched, handles: map<nat, Fiber>, id: nat, f: Fiber)
      requires QueueLinked(fs, a.queue, a.table, handles, f) && handles.Keys == a.named
      requires Quiet(a) && id in handles && handles[id] == f && id < |a.table|
      ensures QueueLinked(fs, Recycling.Adopt(a, id).queue, a.table, handles, null)
    {
      var b := Recycling.Adopt(a, id);
      forall i | 0 <= i < |fs| ensures EntryMatches(fs[i], b.queue[i], a.table, handles, null) {
        assert EntryMatches(fs[i], a.queue[i], a.table, handles, f);
      }
    }

    /** While no entry leads to a callback fiber, any fiber can become it. */
    static lemma HostFree(fs: seq<FiberAndThread>, a: Sched, handles: map<nat, Fiber>, host: Fiber?, f: Fiber?)
      requires QueueLinked(fs, a.queue, a.table, handles, host) && handles.Keys == a.named
      requires host == null || (NoStrays(a) && Quiet(a))
      ensures QueueLinked(fs, a.queue, a.table, handles, f)
    {
      forall i | 0 <= i < |fs| ensures EntryMatches(fs[i], a.queue[i], a.table, handles, f) {
        assert EntryMatches(fs[i], a.queue[i], a.table, handles, host);
        assert host != null ==> !Stray(a, a.queue[i]);
      }
    }

    /** A callback has outlived its first slice: its fiber is its own now, and may be named. */
    method Adopt(f: Fiber, id: nat)
      requires LinkedBut(f) && f !in handles.Values && host == f
      requires id < |a.table| && a.table[id].status.Running? && id !in handles
      modifies `handles, `a
      ensures a == old(a).(named := old(a).named + {id})
      ensures LinkedBut(f) && id in handles && handles[id] == f && Grew(old(handles), handles)
      ensures forall t :: t in handles && t !in old(handles) ==> handles[t] == f
    {
      handles := handles[id := f];
      a := a.(named := a.named + {id});
      QueueAdopt(m_fibers, a.queue, a.table, old(handles), id, f);
      NamesAppend(a.table, a.table, old(a.named), old(handles), id, f);
      ValuesAppend(old(handles), id, f);
      forall u | u in handles && handles[u] != f ensures Matches(handles[u], u, a.table[u].status) {
        assert u in old(handles) && handles[u] in old(handles.Values);
      }
    }

    /** Second branch: the entry drawn was a callback, which runs in the pooled fiber, or in a new
        one if the pool is empty.  The fiber goes back to the pool only if the callback is over. */
    method CallbackTurn(cpu: Cpu, main: Fiber, pool: Fiber?, cb: Callback, ghost a0: Sched, ghost i: nat)
      returns (left: Fiber?)
      requires LiveAt(a0, i) && StatusAt(a0, i).Pending? && a == Begin(a0, i)
      requires Linked() && AtHome(cpu, main) && PoolOk(pool) && pool != main && host == pool && Quiet(a0)
      requires cb == TaskCb(a0.queue[i].task, StatusAt(a0, i).prog) && a0.queue[i].task !in handles
      modifies `m_fibers, `handles, `next_task, `a, `host, `m_active_thread_count, `cb_allocated
      modifies cpu`t_fiber, cpu`executing, cpu`s_fiber_id, cpu`s_fiber_count, Just(pool), main`m_ctx
      ensures Pooled(a, PoolOf(left)) == PooledTurn(Pooled(a0, old(PoolOf(pool))), i)
      ensures Linked() && AtHome(cpu, main) && Grew(old(handles), handles)
      ensures (forall t :: t in handles && t !in old(handles) && handles[t] != pool ==> fresh(handles[t]))
      ensures PoolOk(left) && host == left && (left != null && left != pool ==> fresh(left))
      ensures Booked(a0.firsts, pool, old(cb_allocated), a.firsts, left, cb_allocated)
      ensures cpu.s_fiber_id - old(cpu.s_fiber_id) == |a.named| - |old(a.named)| + Held(left) - Held(pool)
      ensures cpu.s_fiber_count - old(cpu.s_fiber_count) == cpu.s_fiber_id - old(cpu.s_fiber_id)
      ensures m_active_thread_count == old(m_active_thread_count)
    {
      TurnFirsts(a0, i);
      TurnQuiet(a0, i);
      if pool != null {
        pool.Reset(cb);
        left := CallbackOn(cpu, main, pool, cb, a0.queue[i].task, StatusAt(a0, i).prog);
      } else {
        var f := new Fiber(cpu, cb, false);
        HostFree(m_fibers, a, handles, host, f);
        host := f;
        cb_allocated := cb_allocated + 1;
        left := CallbackOn(cpu, main, f, cb, a0.queue[i].task, StatusAt(a0, i).prog);
      }
    }

    /** The first slice of a callback, in a fiber prepared for it. */
    method CallbackOn(cpu: Cpu, main: Fiber, f: Fiber, cb: Callback, ghost id: nat, ghost p: Prog)
      returns (left: Fiber?)
      requires Linked() && AtHome(cpu, main) && f != main && f !in handles.Values && host == f
      requires f.m_stack && f.m_state == INIT && f.m_cb == cb && f.m_ctx == Entry(false)
      requires id < |a.table| && a.table[id].status.Running? && id !in handles
      requires cb == TaskCb(id, p) && Quiet(Serve(a, id, p, true))
      modifies `m_fibers, `handles, `next_task, `a, `host, `m_active_thread_count
      modifies cpu`t_fiber, cpu`executing, cpu`s_fiber_id, cpu`s_fiber_count, f, main`m_ctx
      ensures Pooled(a, PoolOf(left)) == Recycling.PutAway(Serve(old(a), id, p, true), id, Ends(Slice(old(a), id, p).1))
      ensures Linked() && AtHome(cpu, main) && Grew(old(handles), handles)
      ensures (forall t :: t in handles && t !in old(handles) && handles[t] != f ==> fresh(handles[t]))
      ensures PoolOk(left) && host == left && left == if Ends(Slice(old(a), id, p).1) then f else null
      ensures cpu.s_fiber_id - old(cpu.s_fiber_id) == |a.named| - |old(a.named)| + Held(left) - 1
      ensures cpu.s_fiber_count - old(cpu.s_fiber_count) == cpu.s_fiber_id - old(cpu.s_fiber_id)
      ensures m_active_thread_count == old(m_active_thread_count)
    {
      ghost var e := SliceOwn(a, id, p, true);
      hide Quiet, Settle, QueueLinked, NamesLinked, FibersMatch, Slice;
      RunFiber(cpu, main, f, Tasking(id, p));
      left := CallbackAfter(f, cb, id, e);
    }

    static lemma TurnQuiet(a0: Sched, i: nat)
      requires LiveAt(a0, i) && Quiet(a0)
      ensures Quiet(Turn(a0, i))
    {
      var u := a0.queue[i].task;
      var b := Begin(a0, i);
      SliceFreshTasks(b, u, Rest(StatusAt(a0, i)));
      SliceGrows(b, u, Rest(StatusAt(a0, i)));
      var c := Slice(b, u, Rest(StatusAt(a0, i))).0;
      forall t | 0 <= t < |c.table| && t != u ensures !c.table[t].status.Running? {
        if t < |b.table| { assert c.table[t] == c.table[..|b.table|][t]; }
      }
    }

    static function Held(pool: Fiber?): nat {
      if pool == null then 0 else 1
    }

    method CallbackAfter(f: Fiber, cb: Callback, ghost id: nat, ghost e: Ending) returns (left: Fiber?)
      requires LinkedBut(f) && f !in handles.Values && cb.TaskCb? && cb.id == id && host == f
      requires id < |a.table| && a.table[id].status.Running? && id !in handles
      requires f.Stopped(id, e) && f.m_stack && Quiet(NoteFirst(Settle(a, id, e), true, e))
      modifies `m_fibers, `handles, `a, `host, f
      ensures Pooled(a, PoolOf(left)) == Recycling.PutAway(NoteFirst(Settle(old(a), id, e), true, e), id, Ends(e))
      ensures Linked() && Grew(old(handles), handles) && PoolOk(left) && host == left
      ensures left == if Ends(e) then f else null
      ensures forall t :: t in handles && t !in old(handles) ==> handles[t] == f
    {
      if f.m_state == TERM || f.m_state == EXCEPT {
        Recycle(f, id, e);
        NoteEnd(e);
        left := f;
      } else {
        Escape(f, cb.id, e);
        NoteEnd(e);
        LetGo(f, id);
        left := null;
      }
    }

    ghost method NoteEnd(e: Ending)
      requires Linked()
      modifies `a
      ensures a == NoteFirst(old(a), true, e) && Linked()
    {
      a := NoteFirst(a, true, e);
    }

    /** The callback fiber has become task `id`'s own. */
    ghost method LetGo(f: Fiber, id: nat)
      requires Linked() && host == f && Quiet(a) && id in handles && handles[id] == f && id < |a.table|
      modifies `a, `host
      ensures a == Recycling.Adopt(old(a), id) && host == null && Linked()
    {
      StraysAdopted(m_fibers, a, handles, id, f);
      a := Recycling.Adopt(a, id);
      host := null;
    }

    /** Let go of the fiber of a callback that is not over. */
    method Escape(f: Fiber, id: nat, ghost e: Ending)
      requires LinkedBut(f) && f !in handles.Values && f.m_stack && f.Stopped(id, e) && !Ends(e) && host == f
      requires id < |a.table| && a.table[id].status.Running? && id !in handles
      modifies `m_fibers, `handles, `a, f`m_state
      ensures a == Settle(old(a), id, e) && Linked() && id in handles && handles[id] == f
      ensures Grew(old(handles), handles)
      ensures forall t :: t in handles && t !in old(handles) ==> handles[t] == f
    {
      Adopt(f, id);
      SettleAdopted(old(a), id, e);
      AfterSlice(f, Tasking(id, Return), e);
    }

    lemma SettleAdopted(b: Sched, id: nat, e: Ending)
      requires id < |b.table| && !Ends(e)
      ensures Settle(b.(named := b.named + {id}), id, e) == Settle(b, id, e)
    {
      assert b.named + {id} + {id} == b.named + {id};
    }

    /** Take the fiber of a finished callback back into the pool. */
    method Recycle(f: Fiber, ghost id: nat, ghost e: Ending)
      requires LinkedBut(f) && f !in handles.Values && f.m_stack && f.Stopped(id, e) && Ends(e)
      requires id < |a.table| && a.table[id].status.Running? && id !in handles
      modifies `a, f
      ensures a == Settle(old(a), id, e) && Linked() && PoolOk(f) && f.m_state == INIT
    {
      f.Reset(Empty);
      a := Settle(a, id, e);
      QueueKept(m_fibers, a.queue, old(a.table), handles, a.table, host);
      FibersAll(old(a.table), handles, f);
    }

    static lemma QueueBegin(fs: seq<FiberAndThread>, q: seq<Slot>, table: seq<Task>, handles: map<nat, Fiber>,
                            host: Fiber?, i: nat)
      requires QueueLinked(fs, q, table, handles, host) && EntriesOk(q, table) && NamesOk(table, handles.Keys)
      requires i < |q| && q[i].task < |table|
      ensures Live(table[q[i].task].status) ==>
        QueueLinked(fs[..i] + fs[i + 1..], q[..i] + q[i + 1..],
                    table[q[i].task := table[q[i].task].(status := Status.Running)], handles, host)
      ensures QueueLinked(fs[..i] + fs[i + 1..], q[..i] + q[i + 1..], table, handles, host)
    {
      var gs, r := fs[..i] + fs[i + 1..], q[..i] + q[i + 1..];
      forall k | 0 <= k < |gs|
        ensures EntryMatches(gs[k], r[k], table, handles, host)
        ensures r[k].task == q[i].task && Live(table[q[i].task].status) ==> r[k].task in handles
      {
        var k' := if k < i then k else k + 1;
        assert gs[k] == fs[k'] && r[k] == q[k'];
        assert EntryMatches(fs[k'], q[k'], table, handles, host);
      }
    }

    /** What was drawn: a live fiber, a callback, the callback fiber, or nothing that can be run. */
    ghost predicate Drawn(ft: FiberAndThread, before: Sched, i: nat)
      reads this, ft.fiber
      requires i <= |before.queue| && (i < |before.queue| ==> before.queue[i].task < |before.table|)
    {
      if LiveAt(before, i) then
        var id := before.queue[i].task;
        var s := before.table[id].status;
        if s.Pending? then ft.fiber == null && ft.cb == TaskCb(id, s.prog) && id !in handles
        else ft.fiber != null && id in handles && handles[id] == ft.fiber && ft.fiber.Loaded(Tasking(id, Rest(s)))
             && ft.fiber.m_state !in {TERM, EXCEPT, EXEC} && ft.fiber.m_stack
      else if i < |before.queue| && Stray(before, before.queue[i]) then
        ft.cb == Empty && ft.fiber != null && ft.fiber == host
      else
        ft.cb == Empty && (ft.fiber != null ==> ft.fiber.m_state in {TERM, EXCEPT})
    }

    lemma EntryDrawn(ft: FiberAndThread, i: nat)
      requires EntriesOk(a.queue, a.table) && NamesOk(a.table, a.named) && Quiet(a)
      requires NamesLinked(a.table, a.named, handles) && FibersMatch(a.table, handles, null)
      requires i <= |a.queue|
      requires if i < |a.queue| then EntryMatches(ft, a.queue[i], a.table, handles, host) else ft == NO_ENTRY
      ensures Drawn(ft, a, i)
    {
      if i < |a.queue| && ft.fiber != null && a.queue[i].task in handles {
        assert Matches(ft.fiber, a.queue[i].task, a.table[a.queue[i].task].status);
      }
    }

    /** The state once entry `i` has been drawn. */
    static function Taken(a: Sched, i: nat): Sched
      requires i <= |a.queue|
    {
      if LiveAt(a, i) then Begin(a, i) else if i < |a.queue| then Drop(a, i) else a
    }

    /** Scan, and take the entry out of the reference queue too. */
    method Draw(me: int) returns (ft: FiberAndThread, ghost i: nat)
      requires Linked() && WF(a) && Quiet(a) && (host == null || host.m_state != EXEC)
      modifies `m_fibers, `a
      ensures i == First(old(a).queue, me)
      ensures i < |old(a).queue| ==> old(a).queue[i].task < |old(a).table|
      ensures a == Taken(old(a), i)
      ensures Linked() && Drawn(ft, old(a), i)
    {
      assert forall j :: 0 <= j < |m_fibers| ==> EntryMatches(m_fibers[j], a.queue[j], a.table, handles, host);
      var tickleMe;
      hide WF, Quiet, QueueLinked, NamesLinked, FibersMatch;
      ft, tickleMe, i := Scan(me);
      DrawnFirst(old(m_fibers), me, i);
      EntryDrawn(ft, i);
      if i < |a.queue| {
        TakeOut(i, old(m_fibers));
      }
    }

    /** The reference scheduler's half of drawing an entry. */
    ghost method TakeOut(i: nat, before: seq<FiberAndThread>)
      requires i < |a.queue| && i < |before| && m_fibers == before[..i] + before[i + 1..] && next_task == |a.table|
      requires QueueLinked(before, a.queue, a.table, handles, host) && EntriesOk(a.queue, a.table)
      requires NamesOk(a.table, a.named)
      requires NamesLinked(a.table, a.named, handles) && FibersMatch(a.table, handles, null)
      modifies `a
      ensures a == Taken(old(a), i)
      ensures Linked()
    {
      QueueBegin(before, a.queue, a.table, handles, host, i);
      hide QueueLinked, EntriesOk, NamesOk, Matches;
      if LiveAt(a, i) {
        FibersBegin(a.table, handles, a.queue[i].task);
        a := Begin(a, i);
      } else {
        a := Drop(a, i);
      }
    }

    static lemma FibersBegin(table: seq<Task>, handles: map<nat, Fiber>, id: nat)
      requires FibersMatch(table, handles, null) && id < |table|
      ensures FibersMatch(table[id := table[id].(status := Status.Running)], handles, null)
    {
      forall t | t in handles && t < |table|
        ensures Matches(handles[t], t, table[id := table[id].(status := Status.Running)][t].status)
      {
        assert Matches(handles[t], t, table[t].status);
      }
    }

    /** No fiber in the queue is executing, so the scan takes what the reference scheduler takes. */
    lemma DrawnFirst(fs: seq<FiberAndThread>, me: int, k: nat)
      requires QueueLinked(fs, a.queue, a.table, handles, host) && FibersMatch(a.table, handles, null)
      requires WF(a) && Quiet(a) && k <= |fs| && (host == null || host.m_state != EXEC)
      requires forall j :: 0 <= j < k ==> !Eligible(fs[j], me)
      requires k < |fs| ==> Eligible(fs[k], me)
      ensures k == First(a.queue, me)
    {
      forall j | 0 <= j < |fs| ensures Eligible(fs[j], me) <==> Runnable(a.queue[j], me) {
        assert EntryMatches(fs[j], a.queue[j], a.table, handles, host);
      }
    }

    /** Everything the worker loop relies on between two rounds. */
    ghost predicate Looping(cpu: Cpu, main: Fiber, idle: Fiber, pool: Fiber?)
      reads this, cpu, main, idle, pool, handles.Values
    {
      && Linked() && AtHome(cpu, main)
      && IdleOk(idle) && idle != main && idle != pool
      && PoolOk(pool) && pool != main && host == pool
    }

    ghost predicate IdleOk(idle: Fiber)
      reads this, idle
    {
      idle !in handles.Values && (idle.m_state == TERM || (idle.m_state == INIT && idle.Loaded(Job.Idling)))
    }

    /** The books on callback fibers: one round either leaves them, or enters one first slice. */
    static ghost predicate Booked(before: seq<bool>, pool: Fiber?, made: nat,
                                  after: seq<bool>, left: Fiber?, madeNow: nat) {
      if after == before then left == pool && madeNow == made
      else
        && |after| == |before| + 1 && after[..|before|] == before
        && (left != null <==> after[|before|])
        && madeNow + Held(pool) == made + Held(left) + if after[|before|] then 0 else 1
    }

    /** One round of the loop is one round of `RunPooled`. */
    method Round(cpu: Cpu, main: Fiber, idle: Fiber, pool: Fiber?) returns (left: Fiber?, over: bool)
      requires Looping(cpu, main, idle, pool) && WF(a) && Quiet(a)
      modifies `m_fibers, `handles, `next_task, `a, `host, `m_active_thread_count, `m_idle_thread_count, `cb_allocated
      modifies cpu`t_fiber, cpu`executing, cpu`s_fiber_id, cpu`s_fiber_count, main`m_ctx
      modifies handles.Values, idle, Just(pool)
      ensures Looping(cpu, main, idle, left)
      ensures End(Pooled(a, PoolOf(left)), idle.m_state == TERM, over)
           == PooledRound(Pooled(old(a), old(PoolOf(pool))), cpu.id, old(idle.m_state) == TERM)
      ensures Grew(old(handles), handles)
      ensures forall t :: t in handles && t !in old(handles) && handles[t] != pool ==> fresh(handles[t])
      ensures left != null && left != pool ==> fresh(left)
      ensures Booked(old(a).firsts, pool, old(cb_allocated), a.firsts, left, cb_allocated)
      ensures cpu.s_fiber_id - old(cpu.s_fiber_id) == |a.named| - |old(a.named)| + Held(left) - Held(pool)
      ensures cpu.s_fiber_count - old(cpu.s_fiber_count) == cpu.s_fiber_id - old(cpu.s_fiber_id)
      ensures m_active_thread_count == old(m_active_thread_count)
      ensures m_idle_thread_count == old(m_idle_thread_count)
    {
      var ft;
      ghost var i;
      ghost var a0 := a;
      ft, i := Draw(cpu.id);
      left, over := Branch(cpu, main, idle, pool, ft, a0, i);
    }

    /** The branches of the loop, on what was drawn from the state `a0` at entry `i`. */
    method Branch(cpu: Cpu, main: Fiber, idle: Fiber, pool: Fiber?, ft: FiberAndThread, ghost a0: Sched, ghost i: nat)
      returns (left: Fiber?, over: bool)
      requires i == First(a0.queue, cpu.id) && (i < |a0.queue| ==> a0.queue[i].task < |a0.table|)
      requires a == Taken(a0, i) && Drawn(ft, a0, i) && Quiet(a0)
      requires Looping(cpu, main, idle, pool)
      modifies `m_fibers, `handles, `next_task, `a, `host, `m_active_thread_count, `m_idle_thread_count, `cb_allocated
      modifies cpu`t_fiber, cpu`executing, cpu`s_fiber_id, cpu`s_fiber_count, main`m_ctx
      modifies handles.Values, idle, Just(pool)
      ensures Looping(cpu, main, idle, left)
      ensures End(Pooled(a, PoolOf(left)), idle.m_state == TERM, over)
           == PooledRound(Pooled(a0, old(PoolOf(pool))), cpu.id, old(idle.m_state) == TERM)
      ensures Grew(old(handles), handles)
      ensures forall t :: t in handles && t !in old(handles) && handles[t] != pool ==> fresh(handles[t])
      ensures left != null && left != pool ==> fresh(left)
      ensures Booked(a0.firsts, pool, old(cb_allocated), a.firsts, left, cb_allocated)
      ensures cpu.s_fiber_id - old(cpu.s_fiber_id) == |a.named| - |a0.named| + Held(left) - Held(pool)
      ensures cpu.s_fiber_count - old(cpu.s_fiber_count) == cpu.s_fiber_id - old(cpu.s_fiber_id)
      ensures m_active_thread_count == old(m_active_thread_count)
      ensures m_idle_thread_count == old(m_idle_thread_count)
    {
      hide LinkedBut, Turn, Begin, Quiet;
      if (ft.fiber != null && ft.fiber.m_state != TERM && ft.fiber.m_state != EXCEPT) || ft.cb != Empty {
        over := false;
        left := TaskTurn(cpu, main, idle, pool, ft, a0, i);
      } else {
        left := pool;
        over := IdleTurn(cpu, main, idle, pool, a0, i);
      }
    }

    /** Third branch: the idle fiber has its one turn, or the loop is over. */
    method IdleTurn(cpu: Cpu, main: Fiber, idle: Fiber, ghost pool: Fiber?, ghost a0: Sched, ghost i: nat)
      returns (over: bool)
      requires !LiveAt(a0, i) && i == First(a0.queue, cpu.id) && a == Taken(a0, i)
      requires Looping(cpu, main, idle, pool) && !HollowAt(Pooled(a0, PoolOf(pool)), i)
      modifies `m_fibers, `handles, `next_task, `a, `m_idle_thread_count
      modifies cpu`t_fiber, cpu`executing, cpu`s_fiber_id, cpu`s_fiber_count, idle, main`m_ctx
      ensures Looping(cpu, main, idle, pool) && handles == old(handles)
      ensures End(Pooled(a, PoolOf(pool)), idle.m_state == TERM, over)
           == PooledRound(Pooled(a0, old(PoolOf(pool))), cpu.id, old(idle.m_state) == TERM)
      ensures a.named == a0.named && a.firsts == a0.firsts
      ensures cpu.s_fiber_id == old(cpu.s_fiber_id) && cpu.s_fiber_count == old(cpu.s_fiber_count)
      ensures m_idle_thread_count == old(m_idle_thread_count)
    {
      hide LinkedBut, Discard, Taken;
      RoundIdle(Pooled(a0, PoolOf(pool)), cpu.id, idle.m_state == TERM, i);
      NoteDropped(a0, i);
      if idle.m_state == TERM { return true; }
      ghost var before := a;
      SetAside(idle);
      m_idle_thread_count := m_idle_thread_count + 1;
      idle.SwapIn(cpu, this, Job.Idling);
      m_idle_thread_count := m_idle_thread_count - 1;
      // The idle fiber's code does not yield, so there is nothing to put on hold.
      assert idle.m_state == TERM;
      NotAside(idle);
      HandlesSame(before, old(handles));
      over := false;
    }

    lemma SetAside(f: Fiber)
      requires Linked()
      ensures LinkedBut(f) && handles.Keys == a.named
    {
    }

    lemma NotAside(f: Fiber)
      requires LinkedBut(f)
      ensures handles.Keys == a.named && (f !in handles.Values ==> Linked())
    {
    }

    static lemma RoundIdle(p: Pooled, me: int, idleDone: bool, i: nat)
      requires i == First(p.a.queue, me) && !LiveAt(p.a, i) && !HollowAt(p, i)
      ensures PooledRound(p, me, idleDone) == End(p.(a := Discard(p.a, i)), true, idleDone)
      ensures Discard(p.a, i).named == p.a.named && Discard(p.a, i).firsts == p.a.firsts
      ensures Taken(p.a, i).named == p.a.named
    {
    }

    ghost method NoteDropped(a0: Sched, i: nat)
      requires Linked() && i <= |a0.queue| && !LiveAt(a0, i) && a == Taken(a0, i)
      modifies `a
      ensures a == Discard(a0, i) && Linked()
    {
      a := Discard(a0, i);
    }

    lemma HandlesSame(before: Sched, handlesBefore: map<nat, Fiber>)
      requires a == before && handlesBefore.Keys == before.named && handles.Keys == a.named
      requires Grew(handlesBefore, handles)
      ensures handles == handlesBefore
    {
    }

    /** The two branches that run something, drawn from the state `a0` at entry `i`. */
    method TaskTurn(cpu: Cpu, main: Fiber, idle: Fiber, pool: Fiber?, ft: FiberAndThread, ghost a0: Sched, ghost i: nat)
      returns (left: Fiber?)
      requires LiveAt(a0, i) || HollowAt(Pooled(a0, PoolOf(pool)), i)
      requires i == First(a0.queue, cpu.id) && a == Taken(a0, i) && Drawn(ft, a0, i) && Quiet(a0)
      requires Looping(cpu, main, idle, pool)
      modifies `m_fibers, `handles, `next_task, `a, `host, `m_active_thread_count, `cb_allocated
      modifies cpu`t_fiber, cpu`executing, cpu`s_fiber_id, cpu`s_fiber_count, main`m_ctx
      modifies handles.Values, Just(pool)
      ensures Looping(cpu, main, idle, left) && (left != null && left != pool ==> fresh(left))
      ensures unchanged(idle)
      ensures End(Pooled(a, PoolOf(left)), idle.m_state == TERM, false)
           == PooledRound(Pooled(a0, old(PoolOf(pool))), cpu.id, idle.m_state == TERM)
      ensures Grew(old(handles), handles)
      ensures forall t :: t in handles && t !in old(handles) && handles[t] != pool ==> fresh(handles[t])
      ensures Booked(a0.firsts, pool, old(cb_allocated), a.firsts, left, cb_allocated)
      ensures cpu.s_fiber_id - old(cpu.s_fiber_id) == |a.named| - |a0.named| + Held(left) - Held(pool)
      ensures cpu.s_fiber_count - old(cpu.s_fiber_count) == cpu.s_fiber_id - old(cpu.s_fiber_id)
      ensures m_active_thread_count == old(m_active_thread_count)
    {
      hide Quiet, QueueLinked, NamesLinked, FibersMatch, EntryMatches, Slice, WF, NoStrays, HasSlot;
      if ft.fiber != null {
        ghost var job := if LiveAt(a0, i) then Tasking(a0.queue[i].task, Rest(StatusAt(a0, i))) else Hollow;
        if LiveAt(a0, i) { ServeFirsts(a0, i); }
        FiberTurn(cpu, main, ft.fiber, job);
        left := pool;
      } else {
        left := CallbackTurn(cpu, main, pool, ft.cb, a0, i);
      }
    }

    static lemma ServeFirsts(a0: Sched, i: nat)
      requires LiveAt(a0, i) && !StatusAt(a0, i).Pending?
      ensures Turn(a0, i) == Serve(Begin(a0, i), a0.queue[i].task, Rest(StatusAt(a0, i)), false)
      ensures Turn(a0, i).firsts == a0.firsts
    {
      SliceGrows(Begin(a0, i), a0.queue[i].task, Rest(StatusAt(a0, i)));
    }

    static ghost function StatusAt(a0: Sched, i: nat): Status
      requires LiveAt(a0, i)
    {
      a0.table[a0.queue[i].task].status
    }

    static lemma TurnFirsts(a0: Sched, i: nat)
      requires LiveAt(a0, i) && StatusAt(a0, i).Pending?
      ensures Turn(a0, i).firsts
           == a0.firsts + [Ends(Slice(Begin(a0, i), a0.queue[i].task, StatusAt(a0, i).prog).1)]
    {
      SliceGrows(Begin(a0, i), a0.queue[i].task, StatusAt(a0, i).prog);
    }

    /** The pool is full exactly if the last first slice ended its callback. */
    static predicate LastEnded(firsts: seq<bool>) {
      firsts != [] && firsts[|firsts| - 1]
    }

    /** One if a run that took the callbacks from `before` to `after` ends with a full pool. */
    static function PoolLeft(before: seq<bool>, after: seq<bool>): nat {
      if |before| <= |after| && LastEnded(after[|before|..]) then 1 else 0
    }

    /** Such a run made one callback fiber for every callback that outlived its first slice, and one
        more if the pool is full at the end. */
    static ghost predicate Audited(before: seq<bool>, after: seq<bool>, made: int) {
      |before| <= |after| && made == Escaped(after[|before|..]) + PoolLeft(before, after)
    }

    /** The books of a whole run, which began when `start` first slices had been entered. */
    static ghost predicate Balanced(firsts: seq<bool>, start: nat, pool: Fiber?, made: nat, madeAtStart: nat) {
      && start <= |firsts|
      && (pool != null <==> LastEnded(firsts[start..]))
      && made == madeAtStart + Escaped(firsts[start..]) + Held(pool)
    }

    static lemma BookRound(before: seq<bool>, start: nat, pool: Fiber?, made: nat, madeAtStart: nat,
                           after: seq<bool>, left: Fiber?, madeNow: nat)
      requires Balanced(before, start, pool, made, madeAtStart)
      requires Booked(before, pool, made, after, left, madeNow)
      ensures Balanced(after, start, left, madeNow, madeAtStart)
    {
      if after != before {
        var h := after[start..];
        assert h[..|h| - 1] == after[..|before|][start..] == before[start..];
      }
    }

    /** The thread may start a worker loop: its running fiber, if it has one, is the one on the CPU,
        and on the scheduler's own thread that is the root fiber. */
    ghost predicate RunReady(cpu: Cpu)
      reads this, cpu, cpu.t_fiber, handles.Values
    {
      && Linked() && WF(a) && Quiet(a) && NoStrays(a)
      && cpu.t_fiber == cpu.executing
      && (cpu.t_fiber != null ==> cpu.t_fiber.m_ctx == OnCpu && cpu.t_fiber !in handles.Values)
      && (cpu.id == m_root_thread ==> cpu.t_fiber != null && cpu.t_main == cpu.t_fiber)
    }

    /** The worker loop: it computes `RunPooled`, and gives the CPU back as it got it. */
    method Run(cpu: Cpu)
      requires RunReady(cpu)
      modifies this, cpu, handles.Values, Just(cpu.t_fiber)
      ensures Linked() && WF(a) && Quiet(a)
      ensures a == RunPooled(Pooled(old(a), NoPool), cpu.id, false).a
      ensures Config() == old(Config())
      ensures Grew(old(handles), handles) && (forall t :: t in handles && t !in old(handles) ==> fresh(handles[t]))
      ensures cpu.t_main != null && AtHome(cpu, cpu.t_main)
      ensures if old(cpu.t_fiber) == null then fresh(cpu.t_main)
              else cpu.t_main == old(cpu.t_fiber) && cpu.t_thread_fiber == old(cpu.t_thread_fiber)
                   && cpu.t_main.m_cb == old(cpu.t_fiber.m_cb) && cpu.t_main.m_state == old(cpu.t_fiber.m_state)
      ensures cpu.t_scheduler == this
      ensures Audited(old(a).firsts, a.firsts, cb_allocated - old(cb_allocated))
      ensures cpu.s_fiber_id - old(cpu.s_fiber_id)
           == 1 + |a.named| - |old(a.named)| + PoolLeft(old(a).firsts, a.firsts)
      ensures cpu.s_fiber_count - old(cpu.s_fiber_count)
           == |a.named| - |old(a.named)| + HostLeft(a) + if old(cpu.t_fiber) == null then 1 else 0
    {
      hide WF, Quiet, RunPooled, LinkedBut, Audited, PoolLeft, HostLeft;
      var main := Prepare(cpu);
      RunFrom(cpu, main);
    }

    /** The first lines of the worker loop: claim the thread, and fix the context to come back to. */
    method Prepare(cpu: Cpu) returns (main: Fiber)
      requires RunReady(cpu)
      modifies cpu
      ensures main == cpu.t_main && AtHome(cpu, main) && Linked() && cpu.t_scheduler == this
      ensures if old(cpu.t_fiber) == null then fresh(main)
              else main == old(cpu.t_fiber) && cpu.t_thread_fiber == old(cpu.t_thread_fiber)
      ensures cpu.s_fiber_id == old(cpu.s_fiber_id)
      ensures cpu.s_fiber_count == old(cpu.s_fiber_count) + if old(cpu.t_fiber) == null then 1 else 0
    {
      cpu.t_scheduler := this;
      if cpu.id != m_root_thread {
        cpu.t_main := cpu.GetThis();
      }
      main := cpu.t_main;
    }

    method RunFrom(cpu: Cpu, main: Fiber)
      requires Linked() && WF(a) && Quiet(a) && NoStrays(a) && AtHome(cpu, main)
      modifies `m_fibers, `handles, `next_task, `a, `host, `m_active_thread_count, `m_idle_thread_count, `cb_allocated
      modifies cpu`t_fiber, cpu`executing, cpu`s_fiber_id, cpu`s_fiber_count, main`m_ctx, handles.Values
      ensures Linked() && WF(a) && Quiet(a) && AtHome(cpu, main)
      ensures a == RunPooled(Pooled(old(a), NoPool), cpu.id, false).a
      ensures Grew(old(handles), handles) && (forall t :: t in handles && t !in old(handles) ==> fresh(handles[t]))
      ensures m_active_thread_count == old(m_active_thread_count) && m_idle_thread_count == old(m_idle_thread_count)
      ensures Audited(old(a).firsts, a.firsts, cb_allocated - old(cb_allocated))
      ensures cpu.s_fiber_id - old(cpu.s_fiber_id)
           == 1 + |a.named| - |old(a.named)| + PoolLeft(old(a).firsts, a.firsts)
      ensures cpu.s_fiber_count - old(cpu.s_fiber_count) == |a.named| - |old(a.named)| + HostLeft(a)
    {
      hide WF, Quiet, NoStrays, LinkedBut, Looping, PoolOk, Audited, HostLeft;
      var idle := MakeIdle(cpu, main);
      var pool := LoopHome(cpu, main, idle);
      DropLocals(cpu, idle, pool);
    }

    method MakeIdle(cpu: Cpu, main: Fiber) returns (idle: Fiber)
      requires Linked() && Quiet(a) && NoStrays(a) && AtHome(cpu, main)
      modifies `host, cpu`s_fiber_id, cpu`s_fiber_count
      ensures Looping(cpu, main, idle, null) && fresh(idle) && idle.m_stack && idle.m_state == INIT
      ensures cpu.s_fiber_id == old(cpu.s_fiber_id) + 1 && cpu.s_fiber_count == old(cpu.s_fiber_count) + 1
    {
      idle := new Fiber(cpu, IdleLoop, false);
      FreeHost();
    }

    /** The loop, with what it means for the caller that it has arrived. */
    method LoopHome(cpu: Cpu, main: Fiber, idle: Fiber) returns (pool: Fiber?)
      requires Looping(cpu, main, idle, null) && idle.m_state == INIT && WF(a) && Quiet(a) && NoStrays(a)
      modifies `m_fibers, `handles, `next_task, `a, `host, `m_active_thread_count, `m_idle_thread_count, `cb_allocated
      modifies cpu`t_fiber, cpu`executing, cpu`s_fiber_id, cpu`s_fiber_count, main`m_ctx
      modifies handles.Values, idle
      ensures Linked() && AtHome(cpu, main) && PoolOk(pool) && idle.m_state == TERM && host == pool
      ensures Ended(cpu, pool, old(Here(cpu)))
      ensures forall t :: t in handles && t !in old(handles) ==> fresh(handles[t])
    {
      hide WF, Quiet, NoStrays, LinkedBut, OnCourse, Looping, PoolOk, Ended;
      pool := Loop(cpu, main, idle);
      LoopingIs(cpu, main, idle, pool);
      Arrived(cpu, idle, pool, old(Here(cpu)));
    }

    /** One if an entry of the queue still leads to the callback fiber when a run has ended. */
    static ghost function HostLeft(a: Sched): nat {
      if NoStrays(a) then 0 else 1
    }

    /** What a run that began at `o` leaves. */
    ghost predicate Ended(cpu: Cpu, pool: Fiber?, o: Origin)
      reads this, cpu
    {
      && WF(a) && Quiet(a) && Ok(Pooled(o.a, NoPool)) && a == RunPooled(Pooled(o.a, NoPool), cpu.id, false).a
      && Grew(o.handles, handles) && Audited(o.a.firsts, a.firsts, cb_allocated - o.made)
      && cpu.s_fiber_id - o.ids == |a.named| - |o.a.named| + PoolLeft(o.a.firsts, a.firsts)
      && cpu.s_fiber_count - o.count == |a.named| - |o.a.named| + Held(pool) && (pool == null ==> NoStrays(a))
      && m_active_thread_count == o.active && m_idle_thread_count == o.idling
    }

    lemma LoopingIs(cpu: Cpu, main: Fiber, idle: Fiber, pool: Fiber?)
      requires Looping(cpu, main, idle, pool)
      ensures Linked() && AtHome(cpu, main) && PoolOk(pool) && host == pool
    {
    }

    lemma Arrived(cpu: Cpu, idle: Fiber, pool: Fiber?, o: Origin)
      requires OnCourse(cpu, idle, pool, true, o)
      ensures Ended(cpu, pool, o)
    {
    }

    ghost method FreeHost()
      requires Linked() && Quiet(a) && NoStrays(a)
      modifies `host
      ensures Linked() && host == null
    {
      HostFree(m_fibers, a, handles, host, null);
      host := null;
    }

    /** The queue holds a pointer to the callback fiber exactly if an entry leads there. */
    static lemma HostQueued(fs: seq<FiberAndThread>, a: Sched, handles: map<nat, Fiber>, f: Fiber)
      requires QueueLinked(fs, a.queue, a.table, handles, f) && handles.Keys == a.named
      requires f !in handles.Values && Quiet(a)
      ensures NoStrays(a) <==> forall e :: e in fs ==> e.fiber != f
    {
      forall i | 0 <= i < |fs| ensures fs[i].fiber == f <==> Stray(a, a.queue[i]) {
        assert EntryMatches(fs[i], a.queue[i], a.table, handles, f);
      }
      if !NoStrays(a) {
        var i :| 0 <= i < |a.queue| && Stray(a, a.queue[i]);
        assert fs[i] in fs;
      }
    }

    /** The loop's own pointers go, the last of each fiber unless the queue holds another. */
    method DropLocals(cpu: Cpu, idle: Fiber, pool: Fiber?)
      requires idle.m_stack && idle.m_state == TERM && PoolOk(pool) && host == pool
      requires Linked() && Quiet(a) && (pool == null ==> NoStrays(a))
      modifies cpu`t_fiber, cpu`s_fiber_count
      ensures cpu.t_fiber == old(cpu.t_fiber)
      ensures cpu.s_fiber_count == old(cpu.s_fiber_count) - 1 - Held(pool) + HostLeft(a)
    {
      if pool != null { HostQueued(m_fibers, a, handles, pool); }
      if pool != null && forall e :: e in m_fibers ==> e.fiber != pool {
        pool.Destroy(cpu);
      }
      idle.Destroy(cpu);
    }

    /** Where a run began. */
    ghost function Here(cpu: Cpu): Origin
      reads this, cpu
    {
      Origin(a, handles, cb_allocated, cpu.s_fiber_id, cpu.s_fiber_count, m_active_thread_count, m_idle_thread_count)
    }

    /** A run that began at `o` is as far as this: what is left of `RunPooled` leads to the same end, and
        the books are in order. */
    ghost predicate OnCourse(cpu: Cpu, idle: Fiber, pool: Fiber?, over: bool, o: Origin)
      reads this, cpu, idle, pool
    {
      && Ok(Pooled(o.a, NoPool)) && Ok(Pooled(a, PoolOf(pool))) && (over ==> idle.m_state == TERM)
      && (if over then a else RunPooled(Pooled(a, PoolOf(pool)), cpu.id, idle.m_state == TERM).a)
         == RunPooled(Pooled(o.a, NoPool), cpu.id, false).a
      && Grew(o.handles, handles)
      && Balanced(a.firsts, |o.a.firsts|, pool, cb_allocated, o.made)
      && cpu.s_fiber_id - o.ids == cpu.s_fiber_count - o.count == |a.named| - |o.a.named| + Held(pool)
      && m_active_thread_count == o.active && m_idle_thread_count == o.idling
    }

    lemma Starts(cpu: Cpu, idle: Fiber)
      requires WF(a) && Quiet(a) && NoStrays(a) && idle.m_state == INIT
      ensures OnCourse(cpu, idle, null, false, Here(cpu))
    {
    }

    method Loop(cpu: Cpu, main: Fiber, idle: Fiber) returns (pool: Fiber?)
      requires Looping(cpu, main, idle, null) && idle.m_state == INIT && WF(a) && Quiet(a) && NoStrays(a)
      modifies `m_fibers, `handles, `next_task, `a, `host, `m_active_thread_count, `m_idle_thread_count, `cb_allocated
      modifies cpu`t_fiber, cpu`executing, cpu`s_fiber_id, cpu`s_fiber_count, main`m_ctx
      modifies handles.Values, idle
      ensures Looping(cpu, main, idle, pool) && idle.m_state == TERM
      ensures OnCourse(cpu, idle, pool, true, old(Here(cpu)))
      ensures forall t :: t in handles && t !in old(handles) ==> fresh(handles[t])
    {
      hide OnCourse, Looping, WF, Quiet, NoStrays, Fuel;
      pool := null;
      var over := false;
      Starts(cpu, idle);
      while !over
        invariant Looping(cpu, main, idle, pool) && (over ==> idle.m_state == TERM)
        invariant OnCourse(cpu, idle, pool, over, old(Here(cpu))) && Grew(old(handles), handles)
        invariant forall t :: t in handles && t !in old(handles) ==> fresh(handles[t])
        invariant pool != null ==> fresh(pool)
        decreases if over then 0 else 1, Fuel(Pooled(a, PoolOf(pool)), idle.m_state == TERM)
      {
        pool, over := Advance(cpu, main, idle, pool, old(Here(cpu)));
      }
    }

    /** One round, seen from the whole run. */
    method Advance(cpu: Cpu, main: Fiber, idle: Fiber, pool: Fiber?, ghost o: Origin)
      returns (left: Fiber?, over: bool)
      requires Looping(cpu, main, idle, pool) && OnCourse(cpu, idle, pool, false, o)
      modifies `m_fibers, `handles, `next_task, `a, `host, `m_active_thread_count, `m_idle_thread_count, `cb_allocated
      modifies cpu`t_fiber, cpu`executing, cpu`s_fiber_id, cpu`s_fiber_count, main`m_ctx
      modifies handles.Values, idle, Just(pool)
      ensures Looping(cpu, main, idle, left) && OnCourse(cpu, idle, left, over, o) && (over ==> idle.m_state == TERM)
      ensures over || Fuel(Pooled(a, PoolOf(left)), idle.m_state == TERM)
                    < Fuel(Pooled(old(a), old(PoolOf(pool))), old(idle.m_state) == TERM)
      ensures Grew(old(handles), handles)
      ensures forall t :: t in handles && t !in old(handles) && handles[t] != pool ==> fresh(handles[t])
      ensures left != null && left != pool ==> fresh(left)
    {
      hide WF, Quiet, Ok, RunPooled, LinkedBut, Fuel, IdleOk, PooledRound;
      ghost var p, me, done := Pooled(a, PoolOf(pool)), cpu.id, idle.m_state == TERM;
      PooledRoundKeeps(p, me, done);
      RoundOver(p, me, done);
      RunIsRound(p, me, done);
      OkIs(p);
      left, over := Round(cpu, main, idle, pool);
      BookRound(old(a).firsts, |o.a.firsts|, pool, old(cb_allocated), o.made, a.firsts, left, cb_allocated);
    }

    static lemma OkIs(p: Pooled)
      requires Ok(p)
      ensures WF(p.a) && Quiet(p.a)
    {
    }

    static lemma RoundOver(p: Pooled, me: int, idleDone: bool)
      ensures PooledRound(p, me, idleDone).over ==> PooledRound(p, me, idleDone).idleDone
    {
    }

    // ----- construction, start and stop

    constructor (cpu: Cpu, threads: nat, useCaller: bool)
      requires threads > 0 && cpu.id != NONE
      requires useCaller ==> cpu.t_scheduler == null
      requires cpu.t_fiber == cpu.executing
      requires cpu.t_fiber != null ==> cpu.t_fiber == cpu.t_thread_fiber && cpu.t_fiber.m_ctx == OnCpu
      modifies cpu
      ensures a == EMPTY && handles == map[] && Linked() && WF(a) && Quiet(a) && NoStrays(a)
      ensures m_stoping && !m_auto_stop && m_active_thread_count == m_idle_thread_count == 0 && !Stopping()
      ensures useCaller ==>
        && RootReady(cpu) && fresh(m_root_fiber) && m_thread_count == threads - 1 && cpu.t_scheduler == this
        && m_root_fiber.m_stack
        && (if old(cpu.t_fiber) == null then fresh(cpu.t_thread_fiber) && cpu.t_thread_fiber.Bare()
            else cpu.t_thread_fiber == old(cpu.t_thread_fiber))
        && cpu.s_fiber_count == old(cpu.s_fiber_count) + 1 + if old(cpu.t_fiber) == null then 1 else 0
      ensures !useCaller ==> unchanged(cpu)
      ensures !useCaller ==> m_root_fiber == null && m_root_thread == NONE && m_thread_count == threads
    {
      m_fibers, handles, next_task, a, host, cb_allocated := [], map[], 0, EMPTY, null, 0;
      m_stoping, m_auto_stop, m_active_thread_count, m_idle_thread_count := true, false, 0, 0;
      m_thread_count, m_root_fiber, m_root_thread := threads, null, NONE;
      new;
      if useCaller {
        ClaimCaller(cpu);
      }
    }

    /** The calling thread becomes the root thread, with a root fiber that will run the worker loop. */
    method ClaimCaller(cpu: Cpu)
      requires m_thread_count > 0 && handles == map[] && cpu.t_scheduler == null
      requires cpu.t_fiber == cpu.executing
      requires cpu.t_fiber != null ==> cpu.t_fiber == cpu.t_thread_fiber && cpu.t_fiber.m_ctx == OnCpu
      modifies `m_thread_count, `m_root_fiber, `m_root_thread, cpu
      ensures RootReady(cpu) && fresh(m_root_fiber) && cpu.t_scheduler == this
      ensures m_thread_count == old(m_thread_count) - 1
      ensures m_root_fiber.m_stack
      ensures if old(cpu.t_fiber) == null then fresh(cpu.t_thread_fiber) && cpu.t_thread_fiber.Bare()
              else cpu.t_thread_fiber == old(cpu.t_thread_fiber)
      ensures cpu.s_fiber_count == old(cpu.s_fiber_count) + 1 + if old(cpu.t_fiber) == null then 1 else 0
    {
      var _ := cpu.GetThis();
      m_thread_count := m_thread_count - 1;
      cpu.t_scheduler := this;
      m_root_fiber := new Fiber(cpu, RunLoop, true);
      cpu.t_main := m_root_fiber;
      m_root_thread := cpu.id;
    }

    /** Start a scheduler that has no threads but the caller's.  The call returns when the root
        fiber, if there is one, has run the worker loop to its end. */
    method Start(cpu: Cpu)
      requires Linked() && WF(a) && Quiet(a) && NoStrays(a)
      requires m_stoping ==> m_thread_count == 0 && (m_root_fiber != null ==> RootReady(cpu))
      modifies this, cpu, handles.Values, Just(m_root_fiber), Just(cpu.t_thread_fiber)`m_ctx
      ensures !old(m_stoping) ==> unchanged(this) && unchanged(cpu)
      ensures !Stopping()
      ensures old(m_stoping) && old(m_root_fiber) == null ==>
        unchanged(cpu) && a == old(a) && handles == old(handles) && Config() == old(Config()).(stoping := false)
      ensures old(m_stoping) && old(m_root_fiber) != null ==>
        && Linked() && WF(a) && Quiet(a) && a == RunPooled(Pooled(old(a), NoPool), cpu.id, false).a
        && Config() == old(Config()).(stoping := false)
        && m_root_fiber != null && m_root_fiber.m_state == TERM && m_root_fiber.m_ctx == Saved(NeverReach)
        && cpu.executing == cpu.t_fiber == cpu.t_thread_fiber == old(cpu.t_thread_fiber)
        && cpu.t_scheduler == this
        && cpu.s_fiber_count - old(cpu.s_fiber_count) == |a.named| - |old(a.named)| + HostLeft(a)
    {
      if !m_stoping { return; }
      m_stoping := false;
      if m_root_fiber != null {
        m_root_fiber.Call(cpu, this);
      }
    }

    predicate Stopping()
      reads this
    {
      m_auto_stop && m_stoping && m_fibers == [] && m_active_thread_count == 0
    }

    /** Whether the root fiber is not in the middle of the worker loop, and there are no threads. */
    predicate RootIdle()
      reads this, m_root_fiber
    {
      m_root_fiber != null && m_thread_count == 0 && m_root_fiber.m_state in {TERM, INIT}
    }

    /** `early` tells whether the call took its early return, before the check of the calling thread. */
    method Stop(cpu: Cpu) returns (stopped: bool, early: bool)
      requires !(RootIdle() && m_fibers == [] && m_active_thread_count == 0) ==>
        (m_root_thread != NONE <==> cpu.t_scheduler == this)
      modifies `m_auto_stop, `m_stoping
      ensures m_auto_stop && m_stoping
      ensures stopped <==> m_fibers == [] && m_active_thread_count == 0
      ensures early <==> RootIdle() && stopped
      ensures stopped <==> Stopping()
    {
      m_auto_stop := true;
      if RootIdle() {
        m_stoping := true;
        if Stopping() { return true, true; }
      }
      assert if m_root_thread != NONE then cpu.t_scheduler == this else cpu.t_scheduler != this;
      m_stoping := true;
      stopped, early := Stopping(), false;
    }

    /** The destructor, and with it that of the root fiber. */
    method Destroy(cpu: Cpu)
      requires m_stoping && (m_root_fiber != null ==> m_root_fiber.m_stack && m_root_fiber.m_state in {TERM, EXCEPT, INIT})
      modifies `m_root_fiber, cpu`t_scheduler, cpu`t_fiber, cpu`s_fiber_count
      ensures cpu.t_scheduler == if old(cpu.t_scheduler) == this then null else old(cpu.t_scheduler)
      ensures m_root_fiber == null && cpu.t_fiber == old(cpu.t_fiber)
      ensures cpu.s_fiber_count == old(cpu.s_fiber_count) - if old(m_root_fiber) == null then 0 else 1
    {
      if cpu.t_scheduler == this { cpu.t_scheduler := null; }
      if m_root_fiber != null {
        m_root_fiber.Destroy(cpu);
        m_root_fiber := null;
      }
    }
  }
}
