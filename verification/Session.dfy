/** The life of a caller-only scheduler, from construction to stop.  Every task that was submitted before
    `Start` and may run on the caller's thread has begun when `Start` returns; all work has been served
    exactly as `Drain.DrainsExactly` says. */
module Session {
  import opened Programs
  import opened Reference
  import opened Recycling
  import opened RunLaws
  import opened Drain
  import opened Newcomers
  import opened Ledger
  import opened Runtime

  /** One enqueue call by the client: a program, as a callback or as a fiber, perhaps pinned. */
  datatype Request = Request(prog: Prog, asFiber: bool, thread: int)

  function SubmitAll(jobs: seq<Request>): Sched {
    if jobs == [] then EMPTY
    else
      var last := jobs[|jobs| - 1];
      Reference.Submit(SubmitAll(jobs[..|jobs| - 1]), last.prog, last.asFiber, last.thread)
  }

  /** Task `k` is the `k`-th request, and its entry is the `k`-th. */
  ghost predicate Queued(a: Sched, jobs: seq<Request>) {
    && |a.queue| == |a.table| == |jobs|
    && (forall k :: 0 <= k < |jobs| ==>
          && a.queue[k] == Slot(k, jobs[k].thread)
          && a.table[k].prog == jobs[k].prog
          && a.table[k].status == if jobs[k].asFiber then Fresh(jobs[k].prog) else Pending(jobs[k].prog))
    && a.trace == [] && a.dropped == 0 && a.rude == 0
    && (forall t :: t in a.named ==> t < |a.table|)
  }

  lemma {:induction false} SubmitAllOk(jobs: seq<Request>)
    ensures WF(SubmitAll(jobs)) && Quiet(SubmitAll(jobs)) && Meaning(SubmitAll(jobs)) && NoStrays(SubmitAll(jobs))
  {
    if jobs != [] {
      var n := |jobs| - 1;
      SubmitAllOk(jobs[..n]);
      SubmitStrays(SubmitAll(jobs[..n]), jobs[n].prog, jobs[n].asFiber, jobs[n].thread);
      SubmitKeeps(SubmitAll(jobs[..n]), jobs[n].prog, jobs[n].asFiber, jobs[n].thread);
      SubmitMeaning(SubmitAll(jobs[..n]), jobs[n].prog, jobs[n].asFiber, jobs[n].thread);
    }
  }

  lemma {:induction false} SubmitAllQueued(jobs: seq<Request>)
    ensures Queued(SubmitAll(jobs), jobs)
  {
    if jobs != [] {
      var n := |jobs| - 1;
      SubmitAllQueued(jobs[..n]);
      var a, b := SubmitAll(jobs[..n]), SubmitAll(jobs);
      forall k | 0 <= k < |jobs| ensures b.queue[k] == Slot(k, jobs[k].thread)
        && b.table[k].prog == jobs[k].prog
        && b.table[k].status == if jobs[k].asFiber then Fresh(jobs[k].prog) else Pending(jobs[k].prog)
      {
        if k < n { assert jobs[..n][k] == jobs[k]; }
      }
    }
  }

  /** Calls in all the jobs that enqueue a task which already exists. */
  function WakeCalls(jobs: seq<Request>): nat {
    if jobs == [] then 0 else WakeCalls(jobs[..|jobs| - 1]) + Wakes(jobs[|jobs| - 1].prog)
  }

  /** The state after `Start`. */
  function Outcome(jobs: seq<Request>, me: int): Sched {
    SubmitAllOk(jobs);
    RunPooled(Pooled(SubmitAll(jobs), NoPool), me, false).a
  }

  /** Ended fibers that the jobs would make the loop come across with something runnable left behind. */
  function Shortfall(jobs: seq<Request>, me: int): nat {
    SubmitAllOk(jobs);
    Behind(Pooled(SubmitAll(jobs), NoPool), me)
  }

  /** Each task has done a prefix of its own program, all of it exactly if it is over. */
  ghost predicate Faithful(r: Sched) {
    forall t :: 0 <= t < |r.table| ==>
      && Projection(r.trace, t) <= Behaviour(r.table[t].prog)
      && (Over(r.table[t].status) <==> Projection(r.trace, t) == Behaviour(r.table[t].prog))
  }

  ghost predicate KeepsPrograms(r: Sched, jobs: seq<Request>) {
    |jobs| <= |r.table| && forall k :: 0 <= k < |jobs| ==> r.table[k].prog == jobs[k].prog
  }

  predicate MayRun(job: Request, me: int) { job.thread == NONE || job.thread == me }

  predicate StaysHere(jobs: seq<Request>, me: int) {
    forall k :: 0 <= k < |jobs| ==> MayRun(jobs[k], me) && Local(jobs[k].prog, me)
  }

  /** Everything has been served; nothing at all is left if nothing was meant for other threads. */
  ghost predicate AllServed(jobs: seq<Request>, r: Sched, me: int) {
    Drained(r, me) && (StaysHere(jobs, me) ==> DrainedFully(r))
  }

  /** Every request that may run on this thread has had its turn. */
  ghost predicate AllBegun(r: Sched, jobs: seq<Request>, me: int) {
    |jobs| <= |r.table| && forall k :: 0 <= k < |jobs| && MayRun(jobs[k], me) ==> !Unbegun(r.table[k].status)
  }

  /** What the client finds after `Start`, whatever the jobs do.  At most one call that enqueues a task
      which already exists is one reason why everything has been served, among others. */
  ghost predicate Served(jobs: seq<Request>, r: Sched, me: int) {
    && KeepsPrograms(r, jobs)
    && AllBegun(r, jobs, me)
    && Faithful(r)
    && (AllServed(jobs, r, me) <==> Shortfall(jobs, me) <= 1)
    && (StaysHere(jobs, me) ==> (r.queue == [] <==> Shortfall(jobs, me) <= 1))
    && (WakeCalls(jobs) <= 1 ==> AllServed(jobs, r, me))
  }

  lemma {:induction false} SubmitAllCost(jobs: seq<Request>)
    ensures Cost(SubmitAll(jobs)) == WakeCalls(jobs)
  {
    if jobs == [] {
      assert QueuedLive(EMPTY.queue, EMPTY.table) == {};
    } else {
      var n := |jobs| - 1;
      SubmitAllOk(jobs[..n]);
      SubmitAllCost(jobs[..n]);
      SubmitCost(SubmitAll(jobs[..n]), jobs[n].prog, jobs[n].asFiber, jobs[n].thread);
    }
  }

  lemma {:induction false} NoneSpent(q: seq<Slot>, table: seq<Task>, me: int)
    requires forall k :: 0 <= k < |q| ==> q[k].task < |table| && Live(table[q[k].task].status)
    ensures SpentIn(q, table, me) == 0
    decreases |q|
  {
    if q != [] { NoneSpent(q[..|q| - 1], table, me); }
  }

  lemma RunFaithful(jobs: seq<Request>, me: int)
    ensures Faithful(Outcome(jobs, me))
  {
    var p := Pooled(SubmitAll(jobs), NoPool);
    SubmitAllOk(jobs);
    RunMeaning(p, me, false);
    PooledExtends(p, me, false);
    var r := Outcome(jobs, me);
    forall t | 0 <= t < |r.table|
      ensures Projection(r.trace, t) <= Behaviour(r.table[t].prog)
      ensures Over(r.table[t].status) <==> Projection(r.trace, t) == Behaviour(r.table[t].prog)
    {
      MeaningRead(r, t);
    }
  }

  /** With nothing runnable left, all is served. */
  lemma ServedIfDrained(jobs: seq<Request>, me: int)
    requires NoneRunnable(Outcome(jobs, me).queue, me)
    ensures AllServed(jobs, Outcome(jobs, me), me)
  {
    hide Drained, DrainedFully, RunPooled, Local;
    SubmitAllOk(jobs);
    SubmitAllQueued(jobs);
    if StaysHere(jobs, me) { assert AllLocal(SubmitAll(jobs), me); }
    DrainedTasks(Pooled(SubmitAll(jobs), NoPool), me);
  }

  /** At first every task is queued once and none is over, so no ended fiber stands before any of them. */
  lemma NoneAhead(a: Sched, jobs: seq<Request>, me: int, k: nat)
    requires Queued(a, jobs) && k < |jobs|
    ensures Waits(a, k, k) && TidyTo(a, k) && SpentIn(a.queue[..k], a.table, me) == 0
  {
    NoneSpent(a.queue[..k], a.table, me);
  }

  lemma RequestBegins(jobs: seq<Request>, me: int, k: nat)
    requires k < |jobs| && MayRun(jobs[k], me)
    ensures k < |Outcome(jobs, me).table| && !Unbegun(Outcome(jobs, me).table[k].status)
  {
    hide SubmitAll, Waits, TidyTo, SpentIn, Ahead, RunPooled, Unbegun, WF, Quiet;
    SubmitAllOk(jobs);
    SubmitAllQueued(jobs);
    var p := Pooled(SubmitAll(jobs), NoPool);
    NoneAhead(p.a, jobs, me, k);
    BeginsExactly(p, me, false, k, k);
    AheadIsSpent(p, me, k);
  }

  lemma RequestsBegin(jobs: seq<Request>, me: int)
    ensures AllBegun(Outcome(jobs, me), jobs, me)
  {
    hide RunPooled, Unbegun;
    SubmitAllOk(jobs);
    SubmitAllQueued(jobs);
    PooledExtends(Pooled(SubmitAll(jobs), NoPool), me, false);
    forall k | 0 <= k < |jobs| && MayRun(jobs[k], me) ensures !Unbegun(Outcome(jobs, me).table[k].status) {
      RequestBegins(jobs, me, k);
    }
  }

  /** Everything has been served if and only if the loop comes across at most one ended fiber with
      something left behind; and that is to say, with nothing meant for other threads, that the queue is
      empty. */
  lemma ServedExactly(jobs: seq<Request>, me: int)
    ensures AllServed(jobs, Outcome(jobs, me), me) <==> Shortfall(jobs, me) <= 1
    ensures StaysHere(jobs, me) ==> (Outcome(jobs, me).queue == [] <==> Shortfall(jobs, me) <= 1)
  {
    hide RunPooled, SubmitAll, Behind, Local, StaysHere;
    SubmitAllOk(jobs);
    DrainsExactly(Pooled(SubmitAll(jobs), NoPool), me, false);
    if NoneRunnable(Outcome(jobs, me).queue, me) { ServedIfDrained(jobs, me); }
  }

  /** The run of any submitted jobs serves the client as promised. */
  lemma DrainEndToEnd(jobs: seq<Request>, me: int)
    ensures Served(jobs, Outcome(jobs, me), me)
  {
    RunFaithful(jobs, me);
    RequestsBegin(jobs, me);
    ServedExactly(jobs, me);
    SubmitAllOk(jobs);
    SubmitAllQueued(jobs);
    PooledExtends(Pooled(SubmitAll(jobs), NoPool), me, false);
    if WakeCalls(jobs) <= 1 {
      SubmitAllCost(jobs);
      DrainsInBudget(Pooled(SubmitAll(jobs), NoPool), me);
    }
  }

  lemma StartsTidy(a: Sched, jobs: seq<Request>, me: int)
    requires Queued(a, jobs)
    ensures Tidy(a.queue, a.table) && SpentIn(a.queue, a.table, me) == 0 && a.rude == 0
  {
    NoneSpent(a.queue, a.table, me);
  }

  /** Another reason: every such call found its task parked. */
  lemma PoliteEndToEnd(jobs: seq<Request>, me: int)
    ensures Outcome(jobs, me).rude == 0 ==> Shortfall(jobs, me) <= 1 && AllServed(jobs, Outcome(jobs, me), me)
  {
    hide RunPooled, SubmitAll, WF, Quiet, NoStrays, Tidy, Queued, AllServed;
    SubmitAllOk(jobs);
    SubmitAllQueued(jobs);
    StartsTidy(SubmitAll(jobs), jobs, me);
    PoliteDrains(SubmitAll(jobs), me);
    ServedExactly(jobs, me);
  }

  /** Of the first `n` entries one is task `t`'s if it is among the first `n`. */
  lemma {:induction false} FirstEntries(q: seq<Slot>, n: nat, t: nat)
    requires n <= |q| && forall k :: 0 <= k < |q| ==> q[k].task == k
    ensures Count(q[..n], OfTask(t)) == if t < n then 1 else 0
  {
    if n > 0 {
      FirstEntries(q, n - 1, t);
      assert q[..n][..n - 1] == q[..n - 1];
    }
  }

  /** Every task that is not over has had a turn, or has an entry left, for its own request, for each call
      that enqueued it and each time it yielded READY; and once everything has been served, with nothing
      meant for other threads, it has had them all. */
  lemma CallsServed(jobs: seq<Request>, me: int, t: nat)
    requires t < |Outcome(jobs, me).table| && Live(Outcome(jobs, me).table[t].status)
    ensures Ok(Pooled(SubmitAll(jobs), NoPool))
    ensures var a, r, k := SubmitAll(jobs), Outcome(jobs, me), RunBooks(Pooled(SubmitAll(jobs), NoPool), me, false);
      && Turns(Projection(r.trace, t)) + Count(r.queue, OfTask(t))
      == (if t < |jobs| then 1 else 0) + Count(Due(r.trace, |jobs|, a.named), OfTask(t)) + Count(k.after, OfTask(t))
      && (StaysHere(jobs, me) && Shortfall(jobs, me) <= 1 ==> Count(r.queue, OfTask(t)) == 0)
  {
    hide RunPooled, SubmitAll, RunBooks, RunEvents, Due, Turns, Projection, Behind, StaysHere, Live, WF, Quiet;
    SubmitAllOk(jobs);
    SubmitAllQueued(jobs);
    var a := SubmitAll(jobs);
    assert a.queue[..|jobs|] == a.queue;
    FirstEntries(a.queue, |jobs|, t);
    EveryEntryCounts(Pooled(a, NoPool), me, false, t);
    assert a.trace + RunEvents(Pooled(a, NoPool), me, false) == RunEvents(Pooled(a, NoPool), me, false);
    ServedExactly(jobs, me);
  }

  method SubmitJobs(cpu: Cpu, sched: Scheduler, jobs: seq<Request>)
    requires sched.Linked() && sched.a == EMPTY && sched.handles == map[] && sched.RootReady(cpu)
    modifies sched`m_fibers, sched`handles, sched`next_task, sched`a, cpu`s_fiber_id, cpu`s_fiber_count
    ensures sched.Linked() && sched.a == SubmitAll(jobs) && sched.RootReady(cpu)
    ensures forall t :: t in sched.handles ==> fresh(sched.handles[t])
    ensures cpu.s_fiber_count == old(cpu.s_fiber_count) + |sched.a.named|
  {
    hide Scheduler.LinkedBut;
    for i := 0 to |jobs|
      invariant sched.Linked() && sched.a == SubmitAll(jobs[..i])
      invariant sched.RootReady(cpu)
      invariant forall t :: t in sched.handles ==> fresh(sched.handles[t])
      invariant cpu.s_fiber_count == old(cpu.s_fiber_count) + |sched.a.named|
    {
      assert jobs[..i + 1][..i] == jobs[..i];
      sched.Submit(cpu, null, jobs[i].prog, jobs[i].asFiber, jobs[i].thread);
    }
    assert jobs[..|jobs|] == jobs;
  }

  method Open(cpu: Cpu, jobs: seq<Request>) returns (sched: Scheduler)
    requires cpu.id != NONE && cpu.t_scheduler == null && cpu.t_fiber == null && cpu.executing == null
    modifies cpu
    ensures fresh(sched) && sched.Linked() && sched.a == SubmitAll(jobs)
    ensures sched.RootReady(cpu) && fresh(sched.m_root_fiber) && fresh(cpu.t_thread_fiber)
    ensures cpu.t_scheduler == sched && sched.m_root_fiber.m_stack && cpu.t_thread_fiber.Bare()
    ensures forall t :: t in sched.handles ==> fresh(sched.handles[t])
    ensures sched.m_stoping && sched.m_thread_count == 0 && sched.m_active_thread_count == 0
    ensures cpu.s_fiber_count == old(cpu.s_fiber_count) + 2 + |sched.a.named|
  {
    sched := new Scheduler(cpu, 1, true);
    SubmitJobs(cpu, sched, jobs);
  }

  lemma NothingQueued(sched: Scheduler, jobs: seq<Request>, me: int)
    requires sched.Linked() && Served(jobs, sched.a, me)
    ensures StaysHere(jobs, me) ==> (sched.m_fibers == [] <==> Shortfall(jobs, me) <= 1)
    ensures AllServed(jobs, sched.a, me) <==> Shortfall(jobs, me) <= 1
    ensures WakeCalls(jobs) <= 1 ==> Shortfall(jobs, me) <= 1
  {
  }

  /** A client's whole session: build, submit, start, stop.  With nothing meant for other threads `stop()`
      says that all is over, and takes its early return, if and only if everything was served. */
  method Serve(cpu: Cpu, jobs: seq<Request>) returns (sched: Scheduler, stopped: bool, early: bool)
    requires cpu.id != NONE && cpu.t_scheduler == null && cpu.t_fiber == null && cpu.executing == null
    modifies cpu
    ensures sched.a == Outcome(jobs, cpu.id) && Served(jobs, sched.a, cpu.id)
    ensures stopped <==> sched.m_fibers == []
    ensures StaysHere(jobs, cpu.id) ==> (stopped <==> Shortfall(jobs, cpu.id) <= 1)
    ensures WakeCalls(jobs) <= 1 || sched.a.rude == 0 ==> Shortfall(jobs, cpu.id) <= 1 && AllServed(jobs, sched.a, cpu.id)
    ensures early <==> stopped
    ensures fresh(sched) && sched.m_root_fiber != null && sched.m_root_fiber.m_stack
    ensures sched.m_root_fiber.m_state == TERM && sched.m_stoping
    ensures cpu.t_thread_fiber != null && cpu.executing == cpu.t_fiber == cpu.t_thread_fiber
    ensures cpu.t_scheduler == sched && cpu.t_fiber.Bare()
    ensures cpu.s_fiber_count == old(cpu.s_fiber_count) + 2 + |sched.a.named| + Scheduler.HostLeft(sched.a)
  {
    hide Scheduler.LinkedBut, WF, Quiet, NoStrays, Served, AllServed, RunPooled, SubmitAll, Behind, StaysHere;
    sched := Open(cpu, jobs);
    SubmitAllOk(jobs);
    DrainEndToEnd(jobs, cpu.id);
    sched.Start(cpu);
    PoliteEndToEnd(jobs, cpu.id);
    NothingQueued(sched, jobs, cpu.id);
    stopped, early := sched.Stop(cpu);
  }

  /** And its end: the scheduler, its root fiber and the thread's own fiber are destroyed, each as its
      destructor demands.  Of all the fibers that were made those are left that clients can name, and the
      callback fiber if an entry still leads there. */
  method Close(cpu: Cpu, jobs: seq<Request>)
    requires cpu.id != NONE && cpu.t_scheduler == null && cpu.t_fiber == null && cpu.executing == null
    modifies cpu
    ensures cpu.t_scheduler == null && cpu.t_fiber == null
    ensures var r := Outcome(jobs, cpu.id);
      cpu.s_fiber_count == old(cpu.s_fiber_count) + |r.named| + Scheduler.HostLeft(r)
  {
    var sched, _, _ := Serve(cpu, jobs);
    var main := cpu.t_fiber;
    sched.Destroy(cpu);
    main.Destroy(cpu);
  }
}
