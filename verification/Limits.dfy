/** Where the runtime does less than a client might expect: an input for each case, and beside it
    exactly when the expectation is met. */
module Limits {
  import opened Wrappers
  import opened Programs
  import Reference
  import Recycling
  import Drain
  import Session
  import Machine
  import WorkerLaws

  const NONE := Reference.NONE

  // ----- a run can end with work in the queue

  /** One callback that spawns a fiber, enqueues it twice more, and spawns a callback. */
  const BUSY := Then(Spawn(Return, true, NONE), Then(Wake(1, NONE), Then(Wake(1, NONE),
                Then(Spawn(Return, false, NONE), Return))))

  function Jobs(): seq<Session.Request> { [Session.Request(BUSY, false, NONE)] }

  /** The state with these entries; the first two tasks have these statuses, the last has not begun. */
  predicate Left(p: Recycling.Pooled, q: seq<nat>, s: Reference.Status) {
    && |p.a.queue| == |q| && (forall k :: 0 <= k < |q| ==> p.a.queue[k] == Reference.Slot(q[k], NONE))
    && |p.a.table| == 3 && p.a.table[0].status == Reference.Finished && p.a.table[1].status == s
    && p.a.table[2].status == Reference.Pending(Return) && p.a.named == {1}
  }

  lemma BusyTurn(p: Recycling.Pooled, me: int)
    requires p == Recycling.Pooled(Session.SubmitAll(Jobs()), Recycling.NoPool)
    ensures var r := Recycling.PooledRound(p, me, false);
      Left(r.p, [1, 1, 1, 2], Reference.Fresh(Return)) && !r.idleDone && !r.over
  {
    assert Jobs()[..0] == [];
    assert p.a == Reference.Submit(Reference.EMPTY, BUSY, false, NONE);
    assert Reference.Perform(Reference.EMPTY, 0, Work(0)) == Reference.Log(Reference.EMPTY, 0, Did(Work(0)));
    var a1 := Reference.Begin(p.a, 0);
    var a2 := Reference.Perform(a1, 0, Spawn(Return, true, NONE));
    var a3 := Reference.Perform(a2, 0, Wake(1, NONE));
    var a4 := Reference.Perform(a3, 0, Wake(1, NONE));
    var a5 := Reference.Perform(a4, 0, Spawn(Return, false, NONE));
    assert Reference.Slice(a4, 0, BUSY.rest.rest.rest) == (Reference.Log(a5, 0, Returned), Reference.Done);
    assert Reference.Slice(a2, 0, BUSY.rest) == (Reference.Log(a5, 0, Returned), Reference.Done);
    assert a5.queue == [Reference.Slot(1, NONE), Reference.Slot(1, NONE), Reference.Slot(1, NONE), Reference.Slot(2, NONE)];
  }

  lemma FiberTurn(p: Recycling.Pooled, me: int)
    requires Left(p, [1, 1, 1, 2], Reference.Fresh(Return))
    ensures var r := Recycling.PooledRound(p, me, false);
      Left(r.p, [1, 1, 2], Reference.Finished) && !r.idleDone && !r.over
  {
    var b := Reference.Begin(p.a, 0);
    assert Reference.Slice(b, 1, Return) == (Reference.Log(b, 1, Returned), Reference.Done);
  }

  lemma SpentRound(p: Recycling.Pooled, me: int, idleDone: bool, q: seq<nat>)
    requires |q| > 0 && q[0] == 1 && Left(p, q, Reference.Finished)
    ensures var r := Recycling.PooledRound(p, me, idleDone);
      Left(r.p, q[1..], Reference.Finished) && r.idleDone && r.over == idleDone
  {
    assert Reference.First(p.a.queue, me) == 0;
  }

  lemma BusyJobs(me: int)
    ensures Session.StaysHere(Jobs(), me) && Session.WakeCalls(Jobs()) == 2
  {
    assert Jobs()[..0] == [] && Jobs()[0].prog == BUSY;
    assert Session.WakeCalls(Jobs()[..0]) == 0;
    assert Drain.Wakes(BUSY.rest.rest) == 1;
    assert Drain.Local(BUSY.rest.rest, me);
  }

  /** The fiber runs once; the loop takes each of its two other entries for an idle turn and ends; the
      callback is never served.  Nothing was spent at the start, and all may run on this thread. */
  lemma EndsWithWorkQueued(me: int)
    ensures Session.StaysHere(Jobs(), me) && Session.WakeCalls(Jobs()) == 2
    ensures var r := Session.Outcome(Jobs(), me);
      && r.queue == [Reference.Slot(2, NONE)] && |r.table| == 3 && r.table[2].status == Reference.Pending(Return)
  {
    hide Recycling.PooledRound, Recycling.RunPooled, Reference.Submit;
    BusyJobs(me);
    Session.SubmitAllOk(Jobs());
    var p0 := Recycling.Pooled(Session.SubmitAll(Jobs()), Recycling.NoPool);
    var p1 := Recycling.PooledRound(p0, me, false).p;
    var p2 := Recycling.PooledRound(p1, me, false).p;
    var p3 := Recycling.PooledRound(p2, me, false).p;
    BusyTurn(p0, me);
    FiberTurn(p1, me);
    SpentRound(p2, me, false, [1, 1, 2]);
    SpentRound(p3, me, true, [1, 2]);
    Recycling.RunIsRound(p0, me, false);
    Recycling.RunIsRound(p1, me, false);
    Recycling.RunIsRound(p2, me, false);
    Recycling.RunIsRound(p3, me, true);
  }

  /** As `Drain.DrainsExactly` has it: two ended fibers are come across with something left behind. */
  lemma BusyFallsShort(me: int)
    ensures Session.Shortfall(Jobs(), me) > 1
  {
    hide Session.Shortfall, Session.Outcome;
    EndsWithWorkQueued(me);
    Session.ServedExactly(Jobs(), me);
    assert Reference.Runnable(Session.Outcome(Jobs(), me).queue[0], me);
  }

  /** The bound on such calls is sharp: up to `n` of them are safe for every client if and only if `n` is
      at most one. */
  lemma OneWakeCallIsSafe(me: int, n: nat)
    ensures (forall jobs :: Session.WakeCalls(jobs) <= n ==> Drain.NoneRunnable(Session.Outcome(jobs, me).queue, me))
       <==> n <= 1
  {
    EndsWithWorkQueued(me);
    if n > 1 { assert Reference.Runnable(Session.Outcome(Jobs(), me).queue[0], me); }
    forall jobs | n <= 1 && Session.WakeCalls(jobs) <= n
      ensures Drain.NoneRunnable(Session.Outcome(jobs, me).queue, me)
    {
      Session.DrainEndToEnd(jobs, me);
    }
  }

  // ----- recycling can be seen

  const SELF := Then(WakeSelf(NONE), Return)
  const REST := Then(Work(7), Return)

  /** A callback that enqueues the fiber it runs in, and one that waits to be woken. */
  function Pair(): seq<Session.Request> {
    [Session.Request(SELF, false, NONE), Session.Request(Then(YieldHold, REST), false, NONE)]
  }

  predicate Queue(a: Reference.Sched, q: seq<nat>, s: Reference.Status, t: Reference.Status) {
    && a.queue == seq(|q|, k requires 0 <= k < |q| => Reference.Slot(q[k], NONE))
    && |a.table| == 2 && a.table[0].status == s && a.table[1].status == t
  }

  lemma PairSubmitted()
    ensures var a := Session.SubmitAll(Pair());
      Queue(a, [0, 1], Reference.Pending(SELF), Reference.Pending(Then(YieldHold, REST))) && a.named == {}
  {
    var a1 := Reference.Submit(Reference.EMPTY, SELF, false, NONE);
    assert Pair()[..1][..0] == [] && Pair()[..1][0] == Pair()[0];
    assert Session.SubmitAll(Pair()[..1]) == a1;
    assert Session.SubmitAll(Pair()) == Reference.Submit(a1, Then(YieldHold, REST), false, NONE);
  }

  lemma SelfTurn(a: Reference.Sched, me: int)
    requires Queue(a, [0, 1], Reference.Pending(SELF), Reference.Pending(Then(YieldHold, REST))) && a.named == {}
    ensures Reference.First(a.queue, me) == 0 && Reference.LiveAt(a, 0)
    ensures Reference.Slice(Reference.Begin(a, 0), 0, SELF).1 == Reference.Done
    ensures var r := Reference.Turn(a, 0);
      Queue(r, [1, 0], Reference.Finished, Reference.Pending(Then(YieldHold, REST))) && r.named == {}
  {
    var b := Reference.Begin(a, 0);
    var c := Reference.Perform(b, 0, WakeSelf(NONE));
    assert Reference.Slice(b, 0, SELF) == (Reference.Log(c, 0, Returned), Reference.Done);
  }

  lemma HoldTurn(a: Reference.Sched, me: int)
    requires Queue(a, [1, 0], Reference.Finished, Reference.Pending(Then(YieldHold, REST))) && a.named == {}
    ensures Reference.First(a.queue, me) == 0 && Reference.LiveAt(a, 0)
    ensures Reference.Slice(Reference.Begin(a, 0), 1, Then(YieldHold, REST)).1 == Reference.ToHold(REST)
    ensures var r := Reference.Turn(a, 0); Queue(r, [0], Reference.Finished, Reference.Held(REST)) && r.named == {1}
  {
    var b := Reference.Begin(a, 0);
    var c := Reference.Perform(b, 1, YieldHold);
    assert Reference.Slice(b, 1, Then(YieldHold, REST)) == (c, Reference.ToHold(REST));
  }

  lemma RestTurn(a: Reference.Sched, me: int)
    requires Queue(a, [1], Reference.Finished, Reference.Held(REST)) && a.named == {1}
    ensures Reference.First(a.queue, me) == 0 && Reference.LiveAt(a, 0)
    ensures Queue(Reference.Turn(a, 0), [], Reference.Finished, Reference.Finished)
  {
    var b := Reference.Begin(a, 0);
    var c := Reference.Perform(b, 1, Work(7));
    assert Reference.Slice(b, 1, REST) == (Reference.Log(c, 1, Returned), Reference.Done);
  }

  /** The first callback is over when its entry is drawn, and the entry wakes the second one, which has
      got its fiber.  Were every callback given a fiber of its own, the second would stay parked.
      (`Recycling.InvisibleExactly` says when there is no difference.) */
  lemma StrayEntryWakes(me: int)
    ensures var a := Session.SubmitAll(Pair());
      && Reference.WF(a) && Reference.Quiet(a)
      && Queue(Session.Outcome(Pair(), me), [], Reference.Finished, Reference.Finished)
      && Queue(Reference.RunAll(a, me, false), [], Reference.Finished, Reference.Held(REST))
  {
    var a := Session.SubmitAll(Pair());
    Session.SubmitAllOk(Pair());
    PairSubmitted();
    SelfTurn(a, me);
    var b := Reference.Turn(a, 0);
    HoldTurn(b, me);
    var c := Reference.Turn(b, 0);
    StrayIdeal(a, me);
    var d := Recycling.Adopt(c, 1);
    assert Recycling.PooledTurn(Recycling.Pooled(a, Recycling.NoPool), 0) == Recycling.Pooled(b, Recycling.Blank);
    assert Recycling.PooledTurn(Recycling.Pooled(b, Recycling.Blank), 0) == Recycling.Pooled(d, Recycling.NoPool);
    assert Queue(d, [1], Reference.Finished, Reference.Held(REST));
    RestTurn(d, me);
    var e := Recycling.PooledTurn(Recycling.Pooled(d, Recycling.NoPool), 0);
    hide Reference.Turn, Recycling.PooledTurn, Recycling.RunPooled, Recycling.Adopt;
    Recycling.RunIsRound(Recycling.Pooled(a, Recycling.NoPool), me, false);
    Recycling.RunIsRound(Recycling.Pooled(b, Recycling.Blank), me, false);
    Recycling.RunIsRound(Recycling.Pooled(d, Recycling.NoPool), me, false);
    Recycling.RunIsRound(e, me, false);
    Recycling.RunIsRound(e, me, true);
  }

  lemma StrayIdeal(a: Reference.Sched, me: int)
    requires Queue(a, [0, 1], Reference.Pending(SELF), Reference.Pending(Then(YieldHold, REST))) && a.named == {}
    requires Reference.WF(a) && Reference.Quiet(a)
    ensures Queue(Reference.RunAll(a, me, false), [], Reference.Finished, Reference.Held(REST))
  {
    SelfTurn(a, me);
    var b := Reference.Turn(a, 0);
    HoldTurn(b, me);
    var c := Reference.Turn(b, 0);
    var d := Reference.Discard(c, 0);
    assert Reference.First(c.queue, me) == 0 && !Reference.LiveAt(c, 0);
    hide Reference.Turn, Reference.RunAll;
    Reference.RunIsRounds(a, me, false);
    Reference.RunIsRounds(b, me, false);
    Reference.RunIsRounds(c, me, false);
    Reference.RunIsRounds(d, me, true);
  }

  // ----- a pin does not outlive a yield

  /** A task pinned to thread `home` that yields once can be drawn by any other thread. */
  lemma PinIsLost(home: int, other: int)
    requires home != other && home != NONE
    ensures var a := Reference.Submit(Reference.EMPTY, Then(YieldReady, Return), true, home);
      && Reference.First(a.queue, other) == |a.queue|
      && Reference.First(a.queue, home) == 0 && Reference.LiveAt(a, 0)
      && Reference.First(Reference.Turn(a, 0).queue, other) == 0
      && Reference.LiveAt(Reference.Turn(a, 0), 0)
  {
    var a := Reference.Submit(Reference.EMPTY, Then(YieldReady, Return), true, home);
    Reference.SliceGrows(Reference.Begin(a, 0), 0, Then(YieldReady, Return));
    assert a.queue == [Reference.Slot(0, home)];
    assert Reference.Turn(a, 0).queue == [Reference.Slot(0, NONE)];
  }

  const YIELDER := Then(YieldReady, Return)

  /** Two workers, one task, which lives in fiber 0 and was submitted pinned to `home`. */
  function Two(home: int, other: int, fb: Machine.Fiber, q: seq<int>, pc0: Machine.Pc, pc1: Machine.Pc,
               todo: Option<Prog>, place: Machine.Place, active: int, trace: seq<Step>, tids: seq<int>): Machine.Global
  {
    Machine.Global([fb], seq(|q|, i requires 0 <= i < |q| => Machine.QueueEntry(Machine.OfFiber(0), q[i], 0)),
      [Machine.Worker(home, pc0, None, false, if place == Machine.With(0) then Some(0) else None, 0, 0, []),
       Machine.Worker(other, pc1, None, false, if place == Machine.With(1) then Some(0) else None, 0, 0, [])],
      active, 0, true, false,
      [Machine.Task(YIELDER, todo, place, Some(0), [home])],
      seq(|trace|, i requires 0 <= i < |trace| => Event(0, trace[i])), tids, {})
  }

  /** One more move at the end of a run. */
  lemma {:induction false} LeadsMore(s: Machine.Global, moves: seq<Machine.Move>, r: Machine.Global, m: Machine.Move)
    requires Machine.Leads(s, moves, r) && Machine.Enabled(r, m)
    ensures Machine.Leads(s, moves + [m], Machine.Next(r, m))
    decreases |moves|
  {
    if moves == [] {
      assert [m][1..] == [];
      assert Machine.Leads(Machine.Next(s, m), [m][1..], Machine.Next(r, m));
    } else {
      assert (moves + [m])[1..] == moves[1..] + [m];
      LeadsMore(Machine.Next(s, moves[0]), moves[1..], r, m);
    }
  }

  lemma StillReachable(r: Machine.Global, m: Machine.Move)
    requires Machine.Reachable(r) && Machine.Enabled(r, m)
    ensures Machine.Reachable(Machine.Next(r, m))
  {
    var s, moves :| Machine.Initial(s) && Machine.Leads(s, moves, r);
    LeadsMore(s, moves, r, m);
  }

  const DONE := [Did(YieldReady)]

  const CB := Machine.Callback(0, YIELDER)

  /** The task has been submitted, and its own worker runs it up to its yield. */
  lemma HomeSlice(home: int, other: int)
    requires home != other && home != NONE && other != NONE
    ensures Machine.Reachable(Two(home, other, Machine.Fiber(READY, CB, Machine.Suspended(0, Return)), [NONE],
      Machine.Scanning, Machine.Scanning, Some(Return), Machine.InQueue, 0, DONE, [home]))
  {
    var w, v := Machine.Worker(home, Machine.Scanning, None, false, None, 0, 0, []),
                Machine.Worker(other, Machine.Scanning, None, false, None, 0, 0, []);
    var s0 := Machine.Global([], [], [w, v], 0, 0, true, false, [], [], [], {});
    assert Machine.Leads(s0, [], s0);
    var m := Machine.StepOf(0);
    var entry := Machine.QueueEntry(Machine.OfFiber(0), home, 0);
    var idle := Machine.Scanning;
    var s1 := Two(home, other, Machine.Fiber(INIT, CB, Machine.Entry), [home], idle, idle, Some(YIELDER), Machine.InQueue, 0, [], []);
    StillReachable(s0, Machine.NewTask(YIELDER, true, home));
    assert s1 == Machine.Next(s0, Machine.NewTask(YIELDER, true, home));
    HomeEnters(home, other, s1);
    var on := Machine.Fiber(EXEC, CB, Machine.OnCpu);
    var s4 := Two(home, other, on, [], Machine.Executing(0, 0, YIELDER), idle, Some(YIELDER), Machine.With(0), 1, [], []);
    HomeLeaves(home, other, s4);
  }

  lemma HomeEnters(home: int, other: int, s1: Machine.Global)
    requires home != other && home != NONE && other != NONE && Machine.Reachable(s1)
    requires s1 == Two(home, other, Machine.Fiber(INIT, CB, Machine.Entry), [home], Machine.Scanning, Machine.Scanning,
                       Some(YIELDER), Machine.InQueue, 0, [], [])
    ensures Machine.Reachable(Two(home, other, Machine.Fiber(EXEC, CB, Machine.OnCpu), [], Machine.Executing(0, 0, YIELDER),
      Machine.Scanning, Some(YIELDER), Machine.With(0), 1, [], []))
  {
    var m, idle := Machine.StepOf(0), Machine.Scanning;
    var fresh_ := Machine.Fiber(INIT, CB, Machine.Entry);
    var entry := Machine.QueueEntry(Machine.OfFiber(0), home, 0);
    var s2 := Two(home, other, fresh_, [], Machine.Holding(Some(entry)), idle, Some(YIELDER), Machine.With(0), 0, [], []);
    var s3 := Two(home, other, fresh_, [], Machine.Counted(0), idle, Some(YIELDER), Machine.With(0), 1, [], []);
    var s4 := Two(home, other, Machine.Fiber(EXEC, CB, Machine.OnCpu), [], Machine.Executing(0, 0, YIELDER), idle,
                  Some(YIELDER), Machine.With(0), 1, [], []);
    StillReachable(s1, m);
    assert s2 == Machine.Next(s1, m);
    StillReachable(s2, m);
    assert s3 == Machine.Next(s2, m);
    StillReachable(s3, m);
    assert s4 == Machine.Next(s3, m);
  }

  lemma HomeLeaves(home: int, other: int, s4: Machine.Global)
    requires Machine.Reachable(s4)
    requires s4 == Two(home, other, Machine.Fiber(EXEC, CB, Machine.OnCpu), [], Machine.Executing(0, 0, YIELDER),
                       Machine.Scanning, Some(YIELDER), Machine.With(0), 1, [], [])
    ensures Machine.Reachable(Two(home, other, Machine.Fiber(READY, CB, Machine.Suspended(0, Return)), [NONE],
      Machine.Scanning, Machine.Scanning, Some(Return), Machine.InQueue, 0, DONE, [home]))
  {
    hide Machine.Reachable;
    var m, idle := Machine.StepOf(0), Machine.Scanning;
    var rest := Machine.Suspended(0, Return);
    var on, off := Machine.Fiber(READY, CB, Machine.OnCpu), Machine.Fiber(READY, CB, rest);
    var s5 := Two(home, other, on, [], Machine.Leaving(0, rest), idle, Some(Return), Machine.With(0), 1, DONE, [home]);
    var s6 := Two(home, other, off, [], Machine.Back(0), idle, Some(Return), Machine.With(0), 1, DONE, [home]);
    StillReachable(s4, m);
    assert s5 == Machine.Next(s4, m);
    StillReachable(s5, m);
    assert s6 == Machine.Next(s5, m);
    HomePutsAway(home, other, s6);
  }

  lemma HomePutsAway(home: int, other: int, s6: Machine.Global)
    requires Machine.Reachable(s6)
    requires s6 == Two(home, other, Machine.Fiber(READY, CB, Machine.Suspended(0, Return)), [], Machine.Back(0),
                       Machine.Scanning, Some(Return), Machine.With(0), 1, DONE, [home])
    ensures Machine.Reachable(Two(home, other, Machine.Fiber(READY, CB, Machine.Suspended(0, Return)), [NONE],
      Machine.Scanning, Machine.Scanning, Some(Return), Machine.InQueue, 0, DONE, [home]))
  {
    hide Machine.Reachable;
    var m, idle := Machine.StepOf(0), Machine.Scanning;
    var off := Machine.Fiber(READY, CB, Machine.Suspended(0, Return));
    var s7 := Two(home, other, off, [], Machine.Uncounted(0), idle, Some(Return), Machine.With(0), 0, DONE, [home]);
    var s8 := Two(home, other, off, [NONE], idle, idle, Some(Return), Machine.InQueue, 0, DONE, [home]);
    StillReachable(s6, m);
    assert s7 == Machine.Next(s6, m);
    StillReachable(s7, m);
    assert s8 == Machine.Next(s7, m);
  }

  /** The other worker draws the task and enters it. */
  lemma OtherEnters(home: int, other: int)
    requires home != other && home != NONE && other != NONE
    ensures Machine.Reachable(Two(home, other, Machine.Fiber(EXEC, CB, Machine.OnCpu), [], Machine.Scanning,
      Machine.Executing(0, 0, Return), Some(Return), Machine.With(1), 1, DONE, [home]))
  {
    HomeSlice(home, other);
    hide Machine.Reachable;
    var m, idle := Machine.StepOf(1), Machine.Scanning;
    var off := Machine.Fiber(READY, CB, Machine.Suspended(0, Return));
    var entry := Machine.QueueEntry(Machine.OfFiber(0), NONE, 0);
    var s1 := Two(home, other, off, [NONE], idle, idle, Some(Return), Machine.InQueue, 0, DONE, [home]);
    var s2 := Two(home, other, off, [], idle, Machine.Holding(Some(entry)), Some(Return), Machine.With(1), 0, DONE, [home]);
    var s3 := Two(home, other, off, [], idle, Machine.Counted(0), Some(Return), Machine.With(1), 1, DONE, [home]);
    OtherDraws(home, other, s1, s2);
    StillReachable(s1, m);
    StillReachable(s2, m);
    assert s3 == Machine.Next(s2, m);
    OtherLoads(home, other, s3);
    StillReachable(s3, m);
  }

  lemma OtherDraws(home: int, other: int, s1: Machine.Global, s2: Machine.Global)
    requires var off := Machine.Fiber(READY, CB, Machine.Suspended(0, Return));
      && s1 == Two(home, other, off, [NONE], Machine.Scanning, Machine.Scanning, Some(Return), Machine.InQueue, 0, DONE, [home])
      && s2 == Two(home, other, off, [], Machine.Scanning,
                   Machine.Holding(Some(Machine.QueueEntry(Machine.OfFiber(0), NONE, 0))), Some(Return),
                   Machine.With(1), 0, DONE, [home])
    ensures s2 == Machine.WorkerStep(s1, 1)
  {
    assert Machine.ScanFrom(s1.queue, s1.fibers, other, 0) == 0;
    assert s2 == Machine.Scan(s1, 1);
  }

  lemma OtherLoads(home: int, other: int, s3: Machine.Global)
    requires s3 == Two(home, other, Machine.Fiber(READY, CB, Machine.Suspended(0, Return)), [], Machine.Scanning,
                       Machine.Counted(0), Some(Return), Machine.With(1), 1, DONE, [home])
    ensures Machine.WorkerStep(s3, 1) == Two(home, other, Machine.Fiber(EXEC, CB, Machine.OnCpu), [], Machine.Scanning,
      Machine.Executing(0, 0, Return), Some(Return), Machine.With(1), 1, DONE, [home])
  {
    assert Machine.WorkerStep(s3, 1) == Machine.SwapIn(s3, 1, 0);
  }

  /** A task that every call pinned to `home` does its second step on another thread: one yield of READY is
      enough to lose a pin.  (`Pins.PinnedRunsAtHome` says that without one it is
      kept, `Handover.PinGivenUp` that any program will do.) */
  lemma PinLostOnYield(home: int, other: int)
    requires home != other && home != NONE && other != NONE
    ensures var s := Two(home, other, Machine.Fiber(TERM, Machine.Empty, Machine.OnCpu), [], Machine.Scanning,
                         Machine.Leaving(0, Machine.NeverReach), None, Machine.With(1), 1,
                         [Did(YieldReady), Returned], [home, other]);
      && Machine.Reachable(s) && s.tasks[0].asked == [home]
      && s.trace == [Event(0, Did(YieldReady)), Event(0, Returned)] && s.tids == [home, other]
  {
    OtherEnters(home, other);
    hide Machine.Reachable;
    var m := Machine.StepOf(1);
    var s4 := Two(home, other, Machine.Fiber(EXEC, CB, Machine.OnCpu), [], Machine.Scanning, Machine.Executing(0, 0, Return),
                  Some(Return), Machine.With(1), 1, DONE, [home]);
    var s5 := Two(home, other, Machine.Fiber(TERM, Machine.Empty, Machine.OnCpu), [], Machine.Scanning,
                  Machine.Leaving(0, Machine.NeverReach), None, Machine.With(1), 1, [Did(YieldReady), Returned], [home, other]);
    StillReachable(s4, m);
    assert s5.trace == s4.trace + [Event(0, Returned)];
    assert s5 == Machine.Perform(s4, 1, 0, 0, Return);
    assert s5 == Machine.Next(s4, m);
  }

  // ----- "stopping" can be said too early

  /** One worker, one task, and a stop request while the worker has just drawn the task. */
  function Before(): Machine.Global {
    Machine.Global([], [], [Machine.Worker(1, Machine.Scanning, None, false, None, 0, 0, [])],
                   0, 0, true, false, [], [], [], {})
  }

  function Moves(): seq<Machine.Move> {
    [Machine.NewTask(Return, false, NONE), Machine.SetStop(true, true), Machine.StepOf(0)]
  }

  function Early(): Machine.Global {
    var entry := Machine.QueueEntry(Machine.OfCallback(Return), NONE, 0);
    Machine.Global([], [],
                   [Machine.Worker(1, Machine.Holding(Some(entry)), None, false, Some(0), 0, 0, [])],
                   0, 0, true, true,
                   [Machine.Task(Return, Some(Return), Machine.With(0), None, [NONE])], [], [], {})
  }

  /** `stopping()` is true, and a task has not begun: it is in a worker's hands, not yet counted.
      (`WorkerLaws.StoppingExactly` says when the answer can be trusted.) */
  lemma StoppingTooEarly()
    ensures Machine.Reachable(Early()) && WorkerLaws.Stopping(Early())
    ensures WorkerLaws.Unfinished(Early().tasks[0]) && WorkerLaws.InWindow(Early(), Early().workers[0])
  {
    var m := Moves();
    var s1 := Machine.Next(Before(), m[0]);
    var s2 := Machine.Next(s1, m[1]);
    var s := Machine.Next(s2, m[2]);
    assert s == Early();
    assert Machine.Leads(s, m[3..], s);
    assert m[2..][1..] == m[3..] && Machine.Leads(s2, m[2..], s);
    assert m[1..][1..] == m[2..] && Machine.Leads(s1, m[1..], s);
    assert Machine.Initial(Before()) && Machine.Leads(Before(), m, s);
  }
}
