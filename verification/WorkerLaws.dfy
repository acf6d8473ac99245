/** The laws of the runtime under any number of workers and any interleaving of their steps. */
module WorkerLaws {
  import opened Wrappers
  import opened Programs
  import opened Machine
  import opened Ownership
  import opened Interleaving
  import Lifetime

  // ----- exclusive ownership

  /** No assertion of the source fails and no "never reach" line is passed. */
  ghost predicate NoFault(s: Global) {
    forall w :: 0 <= w < |s.workers| ==> !s.workers[w].pc.Faulted?
  }

  /** No fiber is queued twice, in two workers' hands, or queued and in hand. */
  ghost predicate OnePlaceEach(s: Global) {
    && (forall i, j :: 0 <= i < j < |s.queue| && s.queue[i].item.OfFiber? ==> s.queue[i].item != s.queue[j].item)
    && (forall v, w :: 0 <= v < |s.workers| && 0 <= w < |s.workers| && v != w && PcFiber(s.workers[v].pc).Some?
          ==> PcFiber(s.workers[v].pc) != PcFiber(s.workers[w].pc))
    && (forall i :: 0 <= i < |s.queue| && s.queue[i].item.OfFiber? ==> !Held(s.workers, s.queue[i].item.f))
  }

  ghost predicate SomePlace(s: Global, f: nat) {
    Queues(s.queue, f) || Held(s.workers, f) || MayWake(s, f)
  }

  /** A fiber in the middle of its callback, and every fiber of an unfinished task, also one that has not
      begun, is queued, in a worker's hands, or parked. */
  ghost predicate SomePlaceEach(s: Global) {
    && (forall f :: 0 <= f < |s.fibers| && MidProgram(s, f) ==> SomePlace(s, f))
    && (forall t :: 0 <= t < |s.tasks| && s.tasks[t].todo.Some? && s.tasks[t].home.Some? ==>
          s.tasks[t].home.value < |s.fibers| && SomePlace(s, s.tasks[t].home.value))
  }

  lemma ExclusiveOwnership(s: Global)
    requires Reachable(s)
    ensures NoFault(s) && OnePlaceEach(s) && SomePlaceEach(s)
  {
    ReachableGood(s);
    forall w | 0 <= w < |s.workers| ensures !s.workers[w].pc.Faulted? {
      assert WorkerOk(s.workers[w], s.tasks, s.fibers);
    }
    QueueApart(s);
    HandsApart(s);
    forall f | 0 <= f < |s.fibers| && MidProgram(s, f) ensures SomePlace(s, f) {
      MidProgramPlace(s, f);
    }
    forall t | 0 <= t < |s.tasks| && s.tasks[t].todo.Some? && s.tasks[t].home.Some?
      ensures s.tasks[t].home.value < |s.fibers| && SomePlace(s, s.tasks[t].home.value)
    {
      UnfinishedPlace(s, t);
    }
  }

  lemma UnfinishedPlace(s: Global, t: nat)
    requires Good(s) && t < |s.tasks| && s.tasks[t].todo.Some? && s.tasks[t].home.Some?
    ensures s.tasks[t].home.value < |s.fibers| && SomePlace(s, s.tasks[t].home.value)
  {
    var f := s.tasks[t].home.value;
    assert Settled(t, s.tasks[t], s.fibers);
    match s.tasks[t].place
    case InQueue =>
      var i :| 0 <= i < |s.queue| && s.queue[i].task == t;
      assert EntryOk(s.queue[i], s.tasks);
    case With(w) =>
      assert WorkerOk(s.workers[w], s.tasks, s.fibers);
      assert PcFiber(s.workers[w].pc) == Some(f);
    case Parked => MayWakeIsParked(s, t);
  }

  lemma QueueApart(s: Global)
    requires Inv(s)
    ensures forall i, j :: 0 <= i < j < |s.queue| && s.queue[i].item.OfFiber? ==> s.queue[i].item != s.queue[j].item
    ensures forall i :: 0 <= i < |s.queue| && s.queue[i].item.OfFiber? ==> !Held(s.workers, s.queue[i].item.f)
  {
    forall i, j | 0 <= i < j < |s.queue| && s.queue[i].item.OfFiber? ensures s.queue[i].item != s.queue[j].item {
      assert EntryOk(s.queue[i], s.tasks) && EntryOk(s.queue[j], s.tasks);
    }
    forall i | 0 <= i < |s.queue| && s.queue[i].item.OfFiber? ensures !Held(s.workers, s.queue[i].item.f) {
      assert EntryOk(s.queue[i], s.tasks);
      forall w | 0 <= w < |s.workers| ensures PcFiber(s.workers[w].pc) != Some(s.queue[i].item.f) {
        HandApart(s, w, s.queue[i].task);
      }
    }
  }

  /** A worker is not busy with the fiber of a task that it does not have. */
  lemma HandApart(s: Global, w: nat, t: nat)
    requires Inv(s) && w < |s.workers| && t < |s.tasks| && s.tasks[t].place != With(w)
    ensures s.tasks[t].home.Some? ==> PcFiber(s.workers[w].pc) != s.tasks[t].home
  {
    assert WorkerOk(s.workers[w], s.tasks, s.fibers);
    if PcFiber(s.workers[w].pc).Some? { PcFiberIsHome(s.workers[w], s.tasks, s.fibers); }
  }

  lemma HandsApart(s: Global)
    requires Inv(s)
    ensures forall v, w :: 0 <= v < |s.workers| && 0 <= w < |s.workers| && v != w && PcFiber(s.workers[v].pc).Some?
                           ==> PcFiber(s.workers[v].pc) != PcFiber(s.workers[w].pc)
  {
    forall v, w | 0 <= v < |s.workers| && 0 <= w < |s.workers| && v != w && PcFiber(s.workers[v].pc).Some?
      ensures PcFiber(s.workers[v].pc) != PcFiber(s.workers[w].pc)
    {
      assert WorkerOk(s.workers[v], s.tasks, s.fibers);
      PcFiberIsHome(s.workers[v], s.tasks, s.fibers);
      var t := s.workers[v].hand.value;
      assert s.tasks[t].place == With(v);
      HandApart(s, w, t);
    }
  }

  lemma MidProgramPlace(s: Global, f: nat)
    requires Good(s) && f < |s.fibers| && MidProgram(s, f)
    ensures SomePlace(s, f)
  {
    assert ShapeOk(s.fibers[f], Held(s.workers, f));
    if s.fibers[f].ctx.Suspended? {
      assert LivesIn(s, f);
      UnfinishedPlace(s, s.fibers[f].ctx.task);
    }
  }

  // ----- the meaning of a run

  /** Whatever the interleaving, what a task has done is a prefix of its program, nothing lost and
      nothing repeated; it is the whole program exactly if nothing is left, and, for a task that still
      has its fiber, exactly if the fiber is TERM or EXCEPT. */
  lemma WholeRun(s: Global, t: nat)
    requires Reachable(s) && t < |s.tasks|
    ensures Projection(s.trace, t) <= Behaviour(s.tasks[t].prog)
    ensures Projection(s.trace, t) == Behaviour(s.tasks[t].prog) <==> s.tasks[t].todo == None
    ensures s.tasks[t].home.Some? ==> s.tasks[t].home.value < |s.fibers|
    ensures s.tasks[t].home.Some? ==>
      (IsOver(s.fibers[s.tasks[t].home.value].state) <==> Projection(s.trace, t) == Behaviour(s.tasks[t].prog))
  {
    ReachableGood(s);
    var k := s.tasks[t];
    assert TaskMeans(s.trace, t, k);
    if k.todo.Some? { BehaviourEnds(k.todo.value); }
    OverIffDone(s, t);
  }

  lemma OverIffDone(s: Global, t: nat)
    requires Inv(s) && t < |s.tasks|
    ensures s.tasks[t].home.Some? ==> s.tasks[t].home.value < |s.fibers|
    ensures s.tasks[t].home.Some? ==> (IsOver(s.fibers[s.tasks[t].home.value].state) <==> s.tasks[t].todo == None)
  {
    assert Settled(t, s.tasks[t], s.fibers);
    if s.tasks[t].place.With? {
      assert WorkerOk(s.workers[s.tasks[t].place.w], s.tasks, s.fibers);
    }
  }

  // ----- stopping

  predicate Stopping(s: Global) {
    s.autoStop && s.stoping && s.queue == [] && s.active == 0
  }

  /** The worker holds a task outside the counted stretch: drawn but not counted, or no longer
      counted and not put away. */
  predicate InWindow(s: Global, x: Worker) {
    match x.pc
    case Holding(ft) => ft.Some?
    case Prepared(_) => true
    case Uncounted(f) => f < |s.fibers| && !IsOver(s.fibers[f].state)
    case _ => false
  }

  predicate Unfinished(k: Task) { k.todo.Some? }

  lemma {:induction false} ActiveZero(workers: seq<Worker>, w: nat)
    requires ActiveOf(workers) == 0 && w < |workers|
    ensures !CountedIn(workers[w].pc)
  {
    if w < |workers| - 1 { ActiveZero(workers[..|workers| - 1], w); }
  }

  lemma {:induction false} NoneActive(workers: seq<Worker>)
    requires forall w :: 0 <= w < |workers| ==> !CountedIn(workers[w].pc)
    ensures ActiveOf(workers) == 0
  {
    if workers != [] { NoneActive(workers[..|workers| - 1]); }
  }

  /** The stop flags as outside code has last set them, if not since `before`. */
  function FlagsSet(moves: seq<Move>, before: (bool, bool)): (bool, bool)
    decreases |moves|
  {
    if moves == [] then before
    else FlagsSet(moves[1..], if moves[0].SetStop? then (moves[0].autoStop, moves[0].stoping) else before)
  }

  lemma {:induction false} FlagsKept(s: Global, moves: seq<Move>, r: Global)
    requires Leads(s, moves, r)
    ensures (r.autoStop, r.stoping) == FlagsSet(moves, (s.autoStop, s.stoping))
    decreases |moves|
  {
    hide WorkerStep;
    if moves != [] {
      if moves[0].StepOf? { Lifetime.StepKept(s, moves[0].w); }
      FlagsKept(Next(s, moves[0]), moves[1..], r);
    }
  }

  /** What `stopping()` says: that outside code has last set both flags, nothing is queued, and no worker is
      between counting up and counting down. */
  lemma StoppingSays(s: Global, moves: seq<Move>, r: Global)
    requires Initial(s) && Leads(s, moves, r)
    ensures Stopping(r) <==>
      && FlagsSet(moves, (s.autoStop, s.stoping)) == (true, true) && r.queue == []
      && forall w :: 0 <= w < |r.workers| ==> !CountedIn(r.workers[w].pc)
  {
    FlagsKept(s, moves, r);
    InitialGood(s);
    LeadsGood(s, moves, r);
    if r.active == 0 {
      forall w | 0 <= w < |r.workers| ensures !CountedIn(r.workers[w].pc) { ActiveZero(r.workers, w); }
    } else if forall w :: 0 <= w < |r.workers| ==> !CountedIn(r.workers[w].pc) {
      NoneActive(r.workers);
    }
  }

  /** When `stopping()` says yes, an unfinished task is parked, or some worker has it in such a window. */
  lemma StoppingMeans(s: Global, t: nat)
    requires Reachable(s) && Stopping(s) && t < |s.tasks| && Unfinished(s.tasks[t])
    ensures s.tasks[t].place == Parked
      || (s.tasks[t].place.With? && s.tasks[t].place.w < |s.workers| && InWindow(s, s.workers[s.tasks[t].place.w]))
  {
    ReachableGood(s);
    assert Settled(t, s.tasks[t], s.fibers);
    if s.tasks[t].place.With? {
      var w := s.tasks[t].place.w;
      assert WorkerOk(s.workers[w], s.tasks, s.fibers);
      ActiveZero(s.workers, w);
    } else if s.tasks[t].place == InQueue {
      assert HasEntry(s.queue, t);
    }
  }

  /** So `stopping()` is the truth exactly when no worker is in a window. */
  lemma StoppingExactly(s: Global)
    requires Reachable(s) && Stopping(s)
    ensures (forall t :: 0 <= t < |s.tasks| && Unfinished(s.tasks[t]) ==> s.tasks[t].place == Parked)
       <==> (forall w :: 0 <= w < |s.workers| ==> !InWindow(s, s.workers[w]))
  {
    ReachableGood(s);
    if forall w :: 0 <= w < |s.workers| ==> !InWindow(s, s.workers[w]) {
      forall t | 0 <= t < |s.tasks| && Unfinished(s.tasks[t]) ensures s.tasks[t].place == Parked {
        StoppingMeans(s, t);
      }
    }
    forall w | 0 <= w < |s.workers| && InWindow(s, s.workers[w])
      ensures exists t :: 0 <= t < |s.tasks| && Unfinished(s.tasks[t]) && s.tasks[t].place != Parked
    {
      assert WorkerOk(s.workers[w], s.tasks, s.fibers);
      var t := s.workers[w].hand.value;
      assert s.tasks[t].place == With(w) && Unfinished(s.tasks[t]);
    }
  }

  // ----- pins

  /** An entry pinned to one thread leaves the queue only in the hands of that thread. */
  lemma PinnedEntryStays(s: Global, m: Move, e: QueueEntry)
    requires Reachable(s) && Enabled(s, m) && e in s.queue && e.thread != NONE
    requires m.StepOf? ==> s.workers[m.w].tid != e.thread
    ensures e in Next(s, m).queue
  {
    ReachableGood(s);
    var i :| 0 <= i < |s.queue| && s.queue[i] == e;
    if m.StepOf? {
      StepQueue(s, m.w, i);
    } else {
      assert Next(s, m).queue[i] == e;
    }
  }

  lemma StepQueue(s: Global, w: nat, i: nat)
    requires Inv(s) && w < |s.workers| && i < |s.queue| && !Mine(s.queue[i], s.workers[w].tid)
    ensures s.queue[i] in WorkerStep(s, w).queue
  {
    hide Inv, WorkerStep;
    if s.workers[w].pc == Scanning {
      StepScans(s, w);
      ScanKeepsEntry(s, w, i);
    } else {
      OtherQueue(s, w, i);
    }
  }

  lemma StepScans(s: Global, w: nat)
    requires w < |s.workers| && s.workers[w].pc == Scanning
    ensures WorkerStep(s, w) == Scan(s, w)
  {
    hide Scan;
  }

  /** Only a scan takes anything out of the queue. */
  lemma OtherQueue(s: Global, w: nat, i: nat)
    requires Inv(s) && w < |s.workers| && i < |s.queue| && s.workers[w].pc != Scanning
    ensures i < |WorkerStep(s, w).queue| && WorkerStep(s, w).queue[i] == s.queue[i]
  {
    hide Inv, Perform, Dispose, Choose, Scan, SwapIn;
    PcFibers(s, w);
    match s.workers[w].pc
    case Executing(f, t, p) => PerformQueue(s, w, f, t, p, i);
    case Counted(f) => SwapInQueue(s, w, f);
    case Holding(_) => ChooseQueue(s, w);
    case Uncounted(f) => DisposeQueue(s, w, f, i);
    case _ =>
  }

  lemma PcFibers(s: Global, w: nat)
    requires Inv(s) && w < |s.workers|
    ensures var pc := s.workers[w].pc;
      (pc.Executing? ==> pc.f < |s.fibers|) && (pc.Uncounted? ==> pc.f < |s.fibers|)
  {
    assert WorkerOk(s.workers[w], s.tasks, s.fibers);
  }

  lemma ScanKeepsEntry(s: Global, w: nat, i: nat)
    requires w < |s.workers| && i < |s.queue| && !Mine(s.queue[i], s.workers[w].tid)
    ensures s.queue[i] in Scan(s, w).queue
  {
    var k, r := ScanFrom(s.queue, s.fibers, s.workers[w].tid, 0), Scan(s, w);
    if k < |s.queue| { assert r.queue[if i < k then i else i - 1] == s.queue[i]; }
  }

  lemma SwapInQueue(s: Global, w: nat, f: nat)
    requires w < |s.workers|
    ensures SwapIn(s, w, f).queue == s.queue
  {
  }

  lemma ChooseQueue(s: Global, w: nat)
    requires w < |s.workers| && s.workers[w].pc.Holding?
    ensures Choose(s, w).queue == s.queue
  {
  }

  lemma DisposeQueue(s: Global, w: nat, f: nat, i: nat)
    requires w < |s.workers| && f < |s.fibers| && i < |s.queue|
    ensures i < |Dispose(s, w, f).queue| && Dispose(s, w, f).queue[i] == s.queue[i]
  {
  }

  lemma PerformQueue(s: Global, w: nat, f: nat, t: nat, p: Prog, i: nat)
    requires w < |s.workers| && f < |s.fibers| && i < |s.queue|
    ensures i < |Perform(s, w, f, t, p).queue| && Perform(s, w, f, t, p).queue[i] == s.queue[i]
  {
    if GoesOn(p) {
      var b := Continue(Log(s, w, t, Did(p.act)), w, f, t, p.rest);
      assert b.queue == s.queue;
      hide Continue;
    } else {
      LeaveRest(s, w, f, t, p);
      hide Leave;
    }
  }

  /** What a worker has drawn was unpinned or pinned to its own thread. */
  lemma DrawnIsMine(s: Global, w: nat)
    requires Reachable(s) && w < |s.workers| && s.workers[w].pc.Holding? && s.workers[w].pc.ft.Some?
    ensures Mine(s.workers[w].pc.ft.value, s.workers[w].tid)
  {
    ReachableGood(s);
    assert WorkerOk(s.workers[w], s.tasks, s.fibers);
  }

  /** First in, first out, as far as pins allow: a worker draws the first entry that is unpinned or its
      own, and the others keep their order. */
  lemma DrawsFirst(s: Global, w: nat, k: nat)
    requires Reachable(s) && w < |s.workers| && s.workers[w].pc == Scanning
    requires k < |s.queue| && Mine(s.queue[k], s.workers[w].tid)
    requires forall j :: 0 <= j < k ==> !Mine(s.queue[j], s.workers[w].tid)
    ensures var r := WorkerStep(s, w);
      && w < |r.workers| && r.workers[w].pc == Holding(Some(s.queue[k]))
      && r.queue == s.queue[..k] + s.queue[k + 1..]
  {
    ReachableGood(s);
    GoodDraws(s, w, k);
  }

  lemma GoodDraws(s: Global, w: nat, k: nat)
    requires Inv(s) && w < |s.workers| && s.workers[w].pc == Scanning
    requires k < |s.queue| && Mine(s.queue[k], s.workers[w].tid)
    requires forall j :: 0 <= j < k ==> !Mine(s.queue[j], s.workers[w].tid)
    ensures var r, e := Scan(s, w), s.queue[k];
      && WorkerStep(s, w) == r && w < |r.workers| && r.workers[w] == s.workers[w].(pc := Holding(Some(e)), hand := Some(e.task))
      && r.queue == s.queue[..k] + s.queue[k + 1..]
  {
    GoodEligible(s, w);
    var i := ScanFrom(s.queue, s.fibers, s.workers[w].tid, 0);
    assert Eligible(s.queue[k], s.fibers, s.workers[w].tid);
    assert i == k;
  }

  // ----- the end of a worker's loop

  /** No finished or executing fiber is ever queued, so a worker finds nothing to draw only if every
      entry is pinned to another thread. */
  lemma EmptyScan(s: Global, w: nat)
    requires Reachable(s) && w < |s.workers| && s.workers[w].pc == Scanning
    ensures forall i :: 0 <= i < |s.queue| && s.queue[i].item.OfFiber? ==>
      s.queue[i].item.f < |s.fibers| && s.fibers[s.queue[i].item.f].state in {INIT, READY, HOLD}
    ensures WorkerStep(s, w).workers[w].pc == Holding(None)
      <==> forall i :: 0 <= i < |s.queue| ==> !Mine(s.queue[i], s.workers[w].tid)
  {
    EligibleIsMine(s, w);
    ScanOutcome(s, w);
  }

  lemma EligibleIsMine(s: Global, w: nat)
    requires Reachable(s) && w < |s.workers|
    ensures forall i :: 0 <= i < |s.queue| ==>
      (Eligible(s.queue[i], s.fibers, s.workers[w].tid) <==> Mine(s.queue[i], s.workers[w].tid))
    ensures forall i :: 0 <= i < |s.queue| && s.queue[i].item.OfFiber? ==>
      s.queue[i].item.f < |s.fibers| && s.fibers[s.queue[i].item.f].state in {INIT, READY, HOLD}
  {
    ReachableGood(s);
    GoodEligible(s, w);
  }

  lemma GoodEligible(s: Global, w: nat)
    requires Inv(s) && w < |s.workers|
    ensures forall i :: 0 <= i < |s.queue| ==>
      (Eligible(s.queue[i], s.fibers, s.workers[w].tid) <==> Mine(s.queue[i], s.workers[w].tid))
    ensures forall i :: 0 <= i < |s.queue| && s.queue[i].item.OfFiber? ==>
      s.queue[i].item.f < |s.fibers| && s.fibers[s.queue[i].item.f].state in {INIT, READY, HOLD}
  {
    var x := s.workers[w];
    forall i | 0 <= i < |s.queue| ensures Eligible(s.queue[i], s.fibers, x.tid) <==> Mine(s.queue[i], x.tid)
      ensures s.queue[i].item.OfFiber? ==>
        s.queue[i].item.f < |s.fibers| && s.fibers[s.queue[i].item.f].state in {INIT, READY, HOLD}
    {
      assert EntryOk(s.queue[i], s.tasks);
      assert Settled(s.queue[i].task, s.tasks[s.queue[i].task], s.fibers);
    }
  }

  lemma ScanOutcome(s: Global, w: nat)
    requires w < |s.workers| && s.workers[w].pc == Scanning
    ensures w < |Scan(s, w).workers|
    ensures Scan(s, w).workers[w].pc == Holding(None)
      <==> forall i :: 0 <= i < |s.queue| ==> !Eligible(s.queue[i], s.fibers, s.workers[w].tid)
  {
    var k := ScanFrom(s.queue, s.fibers, s.workers[w].tid, 0);
  }

  lemma ChooseExits(s: Global, w: nat)
    requires Inv(s) && w < |s.workers| && s.workers[w].pc.Holding?
    ensures w < |Choose(s, w).workers|
    ensures Choose(s, w).workers[w].pc == Exited ==> s.workers[w].pc == Holding(None) && s.workers[w].idleUsed
  {
    assert WorkerOk(s.workers[w], s.tasks, s.fibers) && PoolUnused(s.workers[w], s.tasks, s.fibers);
  }

  lemma DisposeStays(s: Global, w: nat, f: nat)
    requires w < |s.workers| && f < |s.fibers|
    ensures w < |Dispose(s, w, f).workers| && Dispose(s, w, f).workers[w].pc == Scanning
  {
  }

  lemma PerformStays(s: Global, w: nat, f: nat, t: nat, p: Prog)
    requires w < |s.workers| && f < |s.fibers|
    ensures w < |Perform(s, w, f, t, p).workers| && Perform(s, w, f, t, p).workers[w].pc != Exited
  {
    hide Perform;
    PerformIs(s, w, f, t, p);
  }

  lemma SwapInStays(s: Global, w: nat, f: nat)
    requires w < |s.workers|
    ensures w < |SwapIn(s, w, f).workers| && SwapIn(s, w, f).workers[w].pc != Exited
  {
  }

  lemma PlainStays(s: Global, w: nat)
    requires w < |s.workers| && Plain(s.workers[w].pc) && s.workers[w].pc != Exited
    ensures w < |WorkerStep(s, w).workers| && WorkerStep(s, w).workers[w].pc != Exited
  {
    hide Perform, Dispose, SwapIn, Choose, Scan;
  }

  lemma ExitsFromHolding(s: Global, w: nat)
    requires Inv(s) && w < |s.workers| && Runs(s.workers[w])
    ensures w < |WorkerStep(s, w).workers|
    ensures WorkerStep(s, w).workers[w].pc == Exited ==> s.workers[w].pc == Holding(None) && s.workers[w].idleUsed
  {
    var x := s.workers[w];
    assert WorkerOk(x, s.tasks, s.fibers);
    hide Perform, Dispose, SwapIn, Choose, Scan, QueueOk, HandsOk, PcsOk, HomesOk, PoolsOk, ShapesOk;
    if Plain(x.pc) { PlainStays(s, w); }
    match x.pc
    case Scanning => ScanOutcome(s, w);
    case Holding(_) => ChooseExits(s, w);
    case Executing(f, t, p) => PerformStays(s, w, f, t, p);
    case Counted(f) => SwapInStays(s, w, f);
    case Uncounted(f) => DisposeStays(s, w, f);
    case _ =>
  }

  /** A worker leaves its loop exactly after an empty-handed scan that finds its idle fiber used, and
      it has then run that fiber exactly once. */
  lemma LeavesLoop(s: Global, w: nat)
    requires Reachable(s) && w < |s.workers| && Runs(s.workers[w])
    ensures w < |WorkerStep(s, w).workers|
    ensures WorkerStep(s, w).workers[w].pc == Exited
       <==> s.workers[w].pc == Holding(None) && s.workers[w].idleTurns == 1
  {
    ReachableGood(s);
    GoodLeaves(s, w);
  }

  lemma GoodLeaves(s: Global, w: nat)
    requires Good(s) && w < |s.workers| && Runs(s.workers[w])
    ensures w < |WorkerStep(s, w).workers|
    ensures WorkerStep(s, w).workers[w].pc == Exited
       <==> s.workers[w].pc == Holding(None) && s.workers[w].idleTurns == 1
  {
    assert BookOk(s.workers[w]);
    hide Perform, Dispose, SwapIn, Scan;
    ExitsFromHolding(s, w);
  }

  /** The books of any worker in any state; in particular one that has left its loop has run its
      idle fiber exactly once. */
  lemma WorkerBooks(s: Global, w: nat)
    requires Reachable(s) && w < |s.workers|
    ensures var x := s.workers[w];
      && x.made == Escaped(x.firsts) + (if x.pool.Some? then 1 else 0)
      && (x.pc == Exited ==> x.idleTurns == 1)
      && (x.pc == Scanning && x.pool.Some? ==> x.pool.value < |s.fibers| && s.fibers[x.pool.value] == UNUSED)
  {
    ReachableGood(s);
    assert BookOk(s.workers[w]) && PoolUnused(s.workers[w], s.tasks, s.fibers);
  }
}
