/** When a fiber can be destroyed: only once no shared pointer leads to it, and then its callback has
    never started or is over. */
module Lifetime {
  import opened Wrappers
  import opened Programs
  import opened Machine
  import opened Ownership
  import opened Interleaving

  /** The destructor's assertion holds for every fiber that no pointer leads to; nothing is left on
      its stack, and no CPU is in it. */
  lemma DestructorSafe(s: Global, f: nat)
    requires Reachable(s) && f < |s.fibers| && !Owned(s, f)
    ensures s.fibers[f].state in {TERM, EXCEPT, INIT} && s.fibers[f].ctx in {Entry, NeverReach}
  {
    ReachableGood(s);
    DeadShape(s, f);
  }

  lemma DeadShape(s: Global, f: nat)
    requires Good(s) && f < |s.fibers| && !Owned(s, f)
    ensures s.fibers[f].state in {TERM, EXCEPT, INIT} && s.fibers[f].ctx in {Entry, NeverReach}
  {
    assert ShapeOk(s.fibers[f], Held(s.workers, f));
    forall w | 0 <= w < |s.workers| ensures PcFiber(s.workers[w].pc) != Some(f) {
      if PcFiber(s.workers[w].pc).Some? { HeldIsOwned(s, w); }
    }
  }

  lemma HeldIsOwned(s: Global, w: nat)
    requires w < |s.workers| && PcFiber(s.workers[w].pc).Some?
    ensures Owned(s, PcFiber(s.workers[w].pc).value)
  {
    var f := PcFiber(s.workers[w].pc).value;
    if s.workers[w].pool != Some(f) { assert Draws(s.workers, f); } else { assert Pools(s.workers, f); }
  }

  lemma PoolIsOwned(s: Global, w: nat)
    requires w < |s.workers| && s.workers[w].pool.Some?
    ensures Owned(s, s.workers[w].pool.value)
  {
    assert Pools(s.workers, s.workers[w].pool.value);
  }

  lemma QueuedIsOwned(s: Global, i: nat)
    requires i < |s.queue| && s.queue[i].item.OfFiber?
    ensures Owned(s, s.queue[i].item.f)
  {
    assert Queues(s.queue, s.queue[i].item.f);
  }

  /** The last switch of a finished callback: `MainFunc` has dropped its own pointer, and still the
      worker's `ft` or `cb_fiber` leads to the fiber whose context is about to be saved. */
  lemma LastSwitchIsOwned(s: Global, w: nat, f: nat)
    requires Reachable(s) && w < |s.workers| && s.workers[w].pc == Leaving(f, NeverReach)
    ensures !MidProgram(s, f)
    ensures Draws(s.workers, f) || Pools(s.workers, f)
  {
    ReachableGood(s);
    assert WorkerOk(s.workers[w], s.tasks, s.fibers);
    if s.workers[w].pool != Some(f) { assert Draws(s.workers, f); }
  }

  // ----- dead fibers stay dead

  ghost predicate Known(s: Global, f: nat) { f >= |s.fibers| || Owned(s, f) }

  ghost predicate QueueKnown(s: Global, r: Global) {
    forall i :: 0 <= i < |r.queue| && r.queue[i].item.OfFiber? ==> Known(s, r.queue[i].item.f)
  }

  ghost predicate WorkerKnown(s: Global, x: Worker) {
    && (PcFiber(x.pc).Some? ==> Known(s, PcFiber(x.pc).value))
    && (x.pool.Some? ==> Known(s, x.pool.value))
  }

  ghost predicate DeadKept(s: Global, r: Global) {
    |s.fibers| <= |r.fibers| && forall g :: 0 <= g < |s.fibers| && !Owned(s, g) ==> r.fibers[g] == s.fibers[g]
  }

  /** All pointers after the step come from pointers before it, or lead to a new fiber; and only
      fibers that some pointer led to were changed. */
  ghost predicate NoNewPointers(s: Global, r: Global) {
    && QueueKnown(s, r) && DeadKept(s, r)
    && (forall w :: 0 <= w < |r.workers| ==> WorkerKnown(s, r.workers[w]))
    && (forall f :: f in r.kept ==> Known(s, f))
  }

  lemma AllKnown(s: Global)
    ensures NoNewPointers(s, s)
  {
    forall i | 0 <= i < |s.queue| && s.queue[i].item.OfFiber? ensures Known(s, s.queue[i].item.f) {
      QueuedIsOwned(s, i);
    }
    forall w | 0 <= w < |s.workers| ensures WorkerKnown(s, s.workers[w]) {
      if PcFiber(s.workers[w].pc).Some? { HeldIsOwned(s, w); }
      if s.workers[w].pool.Some? { PoolIsOwned(s, w); }
    }
  }

  /** Enough for a step of worker `w`. */
  lemma OneWorkerKnown(s: Global, r: Global, w: nat)
    requires w < |s.workers| == |r.workers| && r.workers == s.workers[w := r.workers[w]]
    requires QueueKnown(s, r) && DeadKept(s, r) && WorkerKnown(s, r.workers[w]) && r.kept == s.kept
    ensures NoNewPointers(s, r)
  {
    AllKnown(s);
  }

  lemma ScanKnown(s: Global, w: nat)
    requires w < |s.workers|
    ensures NoNewPointers(s, Scan(s, w))
  {
    AllKnown(s);
    QuietScan(s, w);
    assert WorkerKnown(s, s.workers[w]);
    var k := ScanFrom(s.queue, s.fibers, s.workers[w].tid, 0);
    var r := Scan(s, w);
    forall i | 0 <= i < |r.queue| && r.queue[i].item.OfFiber? ensures Known(s, r.queue[i].item.f) {
      if k < |s.queue| { assert r.queue[i] == s.queue[if i < k then i else i + 1]; }
    }
    OneWorkerKnown(s, r, w);
  }

  lemma PrepareKnown(s: Global, w: nat, t: nat, prog: Prog)
    requires w < |s.workers| && WorkerKnown(s, s.workers[w]) && QueueKnown(s, s)
    ensures NoNewPointers(s, Prepare(s, w, t, prog))
  {
    hide Owned, Prepare;
    PrepareChanges(s, w, t, prog);
    OneWorkerKnown(s, Prepare(s, w, t, prog), w);
  }

  /** Only the pooled fiber is written, or a new one made and pooled. */
  lemma PrepareChanges(s: Global, w: nat, t: nat, prog: Prog)
    requires w < |s.workers|
    ensures var r, x := Prepare(s, w, t, prog), s.workers[w];
      && w < |s.workers| == |r.workers| && r.workers == s.workers[w := r.workers[w]]
      && r.queue == s.queue && r.kept == s.kept && |s.fibers| <= |r.fibers|
      && (forall g :: 0 <= g < |s.fibers| && x.pool != Some(g) ==> r.fibers[g] == s.fibers[g])
      && (PcFiber(r.workers[w].pc) == None || PcFiber(r.workers[w].pc) == r.workers[w].pool)
      && (r.workers[w].pool == x.pool || r.workers[w].pool == Some(|s.fibers|))
  {
  }

  lemma IdleKnown(s: Global, w: nat)
    requires w < |s.workers|
    ensures var r := IdleBranch(s, w);
      && w < |s.workers| == |r.workers| && r.workers == s.workers[w := r.workers[w]]
      && r.queue == s.queue && r.kept == s.kept && r.fibers == s.fibers
      && PcFiber(r.workers[w].pc) == None && r.workers[w].pool == s.workers[w].pool
  {
  }

  lemma ChooseKnown(s: Global, w: nat)
    requires w < |s.workers| && s.workers[w].pc.Holding?
    ensures NoNewPointers(s, Choose(s, w))
  {
    hide Owned, Prepare, IdleBranch;
    AllKnown(s);
    var ft := s.workers[w].pc.ft;
    assert WorkerKnown(s, s.workers[w]);
    if ft.Some? && ft.value.item.OfCallback? {
      PrepareKnown(s, w, ft.value.task, ft.value.item.prog);
    } else {
      IdleKnown(s, w);
      OneWorkerKnown(s, Choose(s, w), w);
    }
  }

  lemma SwapInKnown(s: Global, w: nat, f: nat)
    requires w < |s.workers| && s.workers[w].pc == Counted(f)
    ensures NoNewPointers(s, SwapIn(s, w, f))
  {
    AllKnown(s);
    QuietSwapIn(s, w, f);
    HeldIsOwned(s, w);
    SwapInKeeps(s, w, f);
    hide Owned, SwapIn, DeadKept, QueueKnown;
    OneWorkerKnown(s, SwapIn(s, w, f), w);
  }

  lemma SwapInKeeps(s: Global, w: nat, f: nat)
    requires w < |s.workers| && Owned(s, f) && WorkerKnown(s, s.workers[w]) && QueueKnown(s, s)
    ensures var r := SwapIn(s, w, f);
      QueueKnown(s, r) && DeadKept(s, r) && w < |r.workers| && WorkerKnown(s, r.workers[w]) && r.kept == s.kept
  {
    hide Owned, DeadKept;
    SwapInFibers(s, w, f);
    assert SwapIn(s, w, f).queue == s.queue;
  }

  lemma SwapInFibers(s: Global, w: nat, f: nat)
    requires w < |s.workers| && Owned(s, f)
    ensures DeadKept(s, SwapIn(s, w, f))
  {
    hide Owned;
  }

  lemma DisposeKnown(s: Global, w: nat, f: nat)
    requires w < |s.workers| && s.workers[w].pc == Uncounted(f) && f < |s.fibers|
    ensures NoNewPointers(s, Dispose(s, w, f))
  {
    AllKnown(s);
    QuietDispose(s, w, f);
    HeldIsOwned(s, w);
    assert WorkerKnown(s, s.workers[w]);
    DisposeKeeps(s, w, f);
    hide Dispose;
    OneWorkerKnown(s, Dispose(s, w, f), w);
  }

  lemma DisposeKeeps(s: Global, w: nat, f: nat)
    requires w < |s.workers| && f < |s.fibers| && Owned(s, f) && WorkerKnown(s, s.workers[w]) && QueueKnown(s, s)
    ensures var r := Dispose(s, w, f);
      QueueKnown(s, r) && DeadKept(s, r) && w < |r.workers| && WorkerKnown(s, r.workers[w]) && r.kept == s.kept
  {
    hide Owned, DeadKept, QueueKnown;
    DisposeFibers(s, w, f);
    DisposeQueue(s, w, f);
  }

  lemma DisposeFibers(s: Global, w: nat, f: nat)
    requires w < |s.workers| && f < |s.fibers| && Owned(s, f)
    ensures DeadKept(s, Dispose(s, w, f))
  {
    hide Owned;
  }

  lemma DisposeQueue(s: Global, w: nat, f: nat)
    requires w < |s.workers| && f < |s.fibers| && Owned(s, f) && QueueKnown(s, s)
    ensures QueueKnown(s, Dispose(s, w, f))
  {
    hide Owned;
  }

  lemma SubmitKnown(s: Global, b: Global, prog: Prog, asFiber: bool, thread: int)
    requires NoNewPointers(s, b)
    ensures NoNewPointers(s, Submit(b, prog, asFiber, thread))
  {
    var r := Submit(b, prog, asFiber, thread);
    assert forall i :: 0 <= i < |b.queue| ==> r.queue[i] == b.queue[i];
  }

  lemma WakeKnown(s: Global, b: Global, t: nat, thread: int)
    requires Good(s) && NoNewPointers(s, b)
    ensures NoNewPointers(s, WakeUp(b, t, thread))
  {
    var r := WakeUp(b, t, thread);
    if r != b {
      var f := b.tasks[t].home.value;
      if f < |s.fibers| && !Owned(s, f) { DeadShape(s, f); }
      assert Known(s, f);
      assert forall i :: 0 <= i < |b.queue| ==> r.queue[i] == b.queue[i];
    }
  }

  lemma PerformKnown(s: Global, w: nat, f: nat, t: nat, p: Prog)
    requires Good(s) && w < |s.workers| && s.workers[w].pc == Executing(f, t, p) && f < |s.fibers|
    ensures NoNewPointers(s, Perform(s, w, f, t, p))
  {
    AllKnown(s);
    HeldIsOwned(s, w);
    assert WorkerKnown(s, s.workers[w]);
    hide Owned, Good, Submit, WakeUp;
    if GoesOn(p) {
      var b := Continue(Log(s, w, t, Did(p.act)), w, f, t, p.rest);
      OneWorkerKnown(s, b, w);
      if p.act.Spawn? { SubmitKnown(s, b, p.act.child, p.act.asFiber, p.act.thread); }
      if p.act.Wake? { WakeKnown(s, b, p.act.task, p.act.thread); }
    } else {
      LeaveKnown(s, w, f, t, p);
    }
  }

  lemma LeaveKnown(s: Global, w: nat, f: nat, t: nat, p: Prog)
    requires Good(s) && w < |s.workers| && s.workers[w].pc == Executing(f, t, p) && f < |s.fibers|
    requires !GoesOn(p)
    requires WorkerKnown(s, s.workers[w]) && Owned(s, f) && NoNewPointers(s, s)
    ensures NoNewPointers(s, Perform(s, w, f, t, p))
  {
    ExecutingFacts(s, w, f, t, p);
    LeaveIs(s, w, f, t, p);
    LeaveFibers(s, w, f, t, p);
    LeaveRest(s, w, f, t, p);
    OneWorkerKnown(s, Perform(s, w, f, t, p), w);
  }

  lemma PlainKnown(s: Global, w: nat)
    requires w < |s.workers|
    requires Plain(s.workers[w].pc)
    requires s.workers[w].pc.Leaving? ==> s.workers[w].pc.f < |s.fibers|
    ensures NoNewPointers(s, WorkerStep(s, w))
  {
    AllKnown(s);
    assert WorkerKnown(s, s.workers[w]);
    if PcFiber(s.workers[w].pc).Some? { HeldIsOwned(s, w); }
    OneWorkerKnown(s, WorkerStep(s, w), w);
  }

  lemma StepKnown(s: Global, w: nat)
    requires Good(s) && w < |s.workers|
    ensures NoNewPointers(s, WorkerStep(s, w))
  {
    assert WorkerOk(s.workers[w], s.tasks, s.fibers);
    match s.workers[w].pc
    case Scanning => ScanKnown(s, w);
    case Holding(_) => ChooseKnown(s, w);
    case Counted(f) => SwapInKnown(s, w, f);
    case Executing(f, t, p) => PerformKnown(s, w, f, t, p);
    case Uncounted(f) => DisposeKnown(s, w, f);
    case Prepared(_) => PlainKnown(s, w);
    case Leaving(_, _) => PlainKnown(s, w);
    case Back(_) => PlainKnown(s, w);
    case IdleCounted => PlainKnown(s, w);
    case IdleBack => PlainKnown(s, w);
    case Exited => PlainKnown(s, w);
  }

  lemma DeadStays(s: Global, r: Global, f: nat)
    requires NoNewPointers(s, r) && f < |s.fibers| && !Owned(s, f)
    ensures !Owned(r, f) && f < |r.fibers| && r.fibers[f] == s.fibers[f]
  {
    assert forall w :: 0 <= w < |r.workers| ==> WorkerKnown(s, r.workers[w]);
  }

  /** Once no pointer leads to a fiber none ever will again, and nobody writes to it: there is no use
      after destruction. */
  lemma NoUseAfterDestruction(s: Global, m: Move, f: nat)
    requires Reachable(s) && Enabled(s, m) && f < |s.fibers| && !Owned(s, f)
    ensures !Owned(Next(s, m), f) && f < |Next(s, m).fibers| && Next(s, m).fibers[f] == s.fibers[f]
  {
    ReachableGood(s);
    AllKnown(s);
    match m
    case StepOf(w) => StepKnown(s, w); DeadStays(s, Next(s, m), f);
    case NewTask(prog, asFiber, thread) => SubmitKnown(s, s, prog, asFiber, thread); DeadStays(s, Next(s, m), f);
    case WakeTask(t, thread) => WakeKnown(s, s, t, thread); DeadStays(s, Next(s, m), f);
    case _ =>
  }

  // ----- the pointers that outside code keeps

  /** Whether outside code has a pointer to the fiber after these moves. */
  function Keeps(moves: seq<Move>, f: nat, before: bool): bool
    decreases |moves|
  {
    if moves == [] then before
    else Keeps(moves[1..], f, if moves[0] == KeepPointer(f) then true else if moves[0] == DropPointer(f) then false else before)
  }

  /** What only outside code changes: its pointers, and the stop flags. */
  ghost predicate SameOutside(s: Global, r: Global) {
    r.kept == s.kept && r.stoping == s.stoping && r.autoStop == s.autoStop
  }

  lemma PerformKept(s: Global, w: nat, f: nat, t: nat, p: Prog)
    requires w < |s.workers| && f < |s.fibers|
    ensures SameOutside(s, Perform(s, w, f, t, p))
  {
    if GoesOn(p) {
      var b := Continue(Log(s, w, t, Did(p.act)), w, f, t, p.rest);
      assert SameOutside(s, b);
      hide Continue;
    } else {
      hide Leave;
      LeaveOutside(s, w, f, t, p);
    }
  }

  lemma LeaveOutside(s: Global, w: nat, f: nat, t: nat, p: Prog)
    requires w < |s.workers| && f < |s.fibers| && !GoesOn(p)
    ensures SameOutside(s, Perform(s, w, f, t, p))
  {
  }

  lemma PrepareKept(s: Global, w: nat, t: nat, prog: Prog)
    requires w < |s.workers|
    ensures SameOutside(s, Prepare(s, w, t, prog))
  {
  }

  lemma ChooseKept(s: Global, w: nat)
    requires w < |s.workers| && s.workers[w].pc.Holding?
    ensures SameOutside(s, Choose(s, w))
  {
    hide Prepare;
    var ft := s.workers[w].pc.ft;
    if ft.Some? && ft.value.item.OfCallback? { PrepareKept(s, w, ft.value.task, ft.value.item.prog); }
  }

  lemma DisposeKept(s: Global, w: nat, f: nat)
    requires w < |s.workers| && f < |s.fibers|
    ensures SameOutside(s, Dispose(s, w, f))
  {
  }

  lemma StepKept(s: Global, w: nat)
    requires w < |s.workers|
    ensures SameOutside(s, WorkerStep(s, w))
  {
    hide Perform, Dispose, Choose;
    match s.workers[w].pc
    case Executing(f, t, p) => if f < |s.fibers| { PerformKept(s, w, f, t, p); }
    case Holding(_) => ChooseKept(s, w);
    case Uncounted(f) => if f < |s.fibers| { DisposeKept(s, w, f); }
    case _ =>
  }

  lemma {:induction false} KeptAfter(s: Global, moves: seq<Move>, r: Global, f: nat)
    requires Leads(s, moves, r)
    ensures f in r.kept <==> Keeps(moves, f, f in s.kept)
    decreases |moves|
  {
    hide WorkerStep;
    if moves != [] {
      if moves[0].StepOf? { StepKept(s, moves[0].w); }
      KeptAfter(Next(s, moves[0]), moves[1..], r, f);
    }
  }

  /** A fiber that outside code has taken a pointer to is not destroyed until that pointer has been dropped,
      whatever the workers do; and no step of theirs gives or takes such a pointer. */
  lemma PointerKeepsAlive(s: Global, moves: seq<Move>, r: Global, f: nat)
    requires Initial(s) && Leads(s, moves, r)
    ensures f in r.kept <==> Keeps(moves, f, false)
    ensures Keeps(moves, f, false) ==> Owned(r, f)
  {
    KeptAfter(s, moves, r, f);
  }
}
