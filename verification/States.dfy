/** What a fiber's state tells: in every interleaving it says what the fiber's task did last. */
module States {
  import opened Wrappers
  import opened Programs
  import opened Machine
  import opened Ownership
  import opened Interleaving

  /** The last recorded step of a task, if it has done anything. */
  function Last(trace: seq<Event>, t: nat): Option<Step> {
    var p := Projection(trace, t);
    if p == [] then None else Some(p[|p| - 1])
  }

  lemma LastSnoc(trace: seq<Event>, e: Event, t: nat)
    ensures Last(trace + [e], t) == if e.task == t then Some(e.step) else Last(trace, t)
  {
    ProjectionSnoc(trace, e, t);
  }

  /** State and last step of a task that no worker has. */
  predicate Tells(state: State, last: Option<Step>) {
    match state
    case INIT => last == None
    case READY => last == Some(Did(YieldReady))
    case HOLD => last == Some(Did(YieldHold)) || last == Some(Did(SwapOut))
    case TERM => last == Some(Returned)
    case EXCEPT => last == Some(Threw)
    case EXEC => false
  }

  /** The same between the end of a slice and the disposal: a raw swap has left the state EXEC. */
  predicate TellsFresh(state: State, last: Option<Step>) {
    match state
    case INIT => false
    case HOLD => last == Some(Did(YieldHold))
    case EXEC => last == Some(Did(SwapOut))
    case _ => Tells(state, last)
  }

  ghost predicate TaskTells(s: Global, t: nat)
    requires t < |s.tasks|
  {
    s.tasks[t].home.Some? && !s.tasks[t].place.With? ==>
      && s.tasks[t].home.value < |s.fibers|
      && Tells(s.fibers[s.tasks[t].home.value].state, Last(s.trace, t))
  }

  ghost predicate WorkerTells(s: Global, x: Worker) {
    x.hand.Some? && (x.pc.Leaving? || x.pc.Back? || x.pc.Uncounted?) ==>
      x.pc.f < |s.fibers| && TellsFresh(s.fibers[x.pc.f].state, Last(s.trace, x.hand.value))
  }

  ghost predicate AllTell(s: Global) {
    && (forall t :: 0 <= t < |s.tasks| ==> TaskTells(s, t))
    && (forall w :: 0 <= w < |s.workers| ==> WorkerTells(s, s.workers[w]))
  }

  /** Only worker `w`, task `t` and fiber `f` change, and `f` is no other task's. */
  ghost predicate Only(s: Global, r: Global, w: nat, t: nat, f: nat) {
    && |s.workers| == |r.workers| && |s.tasks| == |r.tasks| && |s.fibers| <= |r.fibers|
    && (forall v :: 0 <= v < |s.workers| && v != w ==> r.workers[v] == s.workers[v])
    && (forall u :: 0 <= u < |s.tasks| && u != t ==> r.tasks[u] == s.tasks[u] && s.tasks[u].home != Some(f))
    && (forall g :: 0 <= g < |s.fibers| && g != f ==> r.fibers[g] == s.fibers[g])
    && (forall v :: 0 <= v < |s.workers| && v != w ==> s.workers[v].hand != Some(t))
  }

  lemma OnlyTells(s: Global, r: Global, w: nat, t: nat, f: nat)
    requires PcsOk(s.workers, s.tasks, s.fibers) && AllTell(s) && Only(s, r, w, t, f)
    requires forall u: nat :: u != t ==> Last(r.trace, u) == Last(s.trace, u)
    requires t < |r.tasks| ==> TaskTells(r, t)
    requires w < |r.workers| ==> WorkerTells(r, r.workers[w])
    ensures AllTell(r)
  {
    forall u | 0 <= u < |r.tasks| ensures TaskTells(r, u) {
      if u != t { assert TaskTells(s, u); }
    }
    forall v | 0 <= v < |r.workers| ensures WorkerTells(r, r.workers[v]) {
      if v != w { OtherTells(s, r, w, t, f, v); }
    }
  }

  lemma OtherTells(s: Global, r: Global, w: nat, t: nat, f: nat, v: nat)
    requires PcsOk(s.workers, s.tasks, s.fibers) && AllTell(s) && Only(s, r, w, t, f)
    requires forall u: nat :: u != t ==> Last(r.trace, u) == Last(s.trace, u)
    requires v < |r.workers| && v != w
    ensures WorkerTells(r, r.workers[v])
  {
    hide Last;
    assert WorkerOk(s.workers[v], s.tasks, s.fibers) && WorkerTells(s, s.workers[v]);
  }

  /** The task in a worker's hand is in no other hand, and its fiber no other task's. */
  lemma HandIsAlone(s: Global, w: nat, t: nat)
    requires Inv(s) && w < |s.workers| && s.workers[w].hand == Some(t)
    ensures t < |s.tasks| && s.tasks[t].place == With(w)
    ensures forall v :: 0 <= v < |s.workers| && v != w ==> s.workers[v].hand != Some(t)
    ensures forall u :: 0 <= u < |s.tasks| && u != t && s.tasks[t].home.Some? ==> s.tasks[u].home != s.tasks[t].home
  {
    assert forall v :: 0 <= v < |s.workers| && s.workers[v].hand.Some? ==>
      s.tasks[s.workers[v].hand.value].place == With(v);
  }

  lemma LastOthers(trace: seq<Event>, t: nat, step: Step)
    ensures forall u: nat :: u != t ==> Last(trace + [Event(t, step)], u) == Last(trace, u)
  {
    forall u: nat | u != t ensures Last(trace + [Event(t, step)], u) == Last(trace, u) {
      LastSnoc(trace, Event(t, step), u);
    }
  }

  // ----- outside code

  lemma SubmitTells(s: Global, prog: Prog, asFiber: bool, thread: int)
    requires AllTell(s) && Silent(s.trace, |s.tasks|)
    ensures AllTell(Submit(s, prog, asFiber, thread))
  {
    var r := Submit(s, prog, asFiber, thread);
    forall t | 0 <= t < |r.tasks| ensures TaskTells(r, t) {
      if t < |s.tasks| { assert TaskTells(s, t); }
    }
    forall w | 0 <= w < |r.workers| ensures WorkerTells(r, r.workers[w]) {
      assert WorkerTells(s, s.workers[w]);
    }
  }

  lemma WakeTells(s: Global, t: nat, thread: int)
    requires Inv(s) && AllTell(s)
    ensures AllTell(WakeUp(s, t, thread))
  {
    var r := WakeUp(s, t, thread);
    if r != s { MayWakeIsParked(s, t); }
    forall u | 0 <= u < |r.tasks| ensures TaskTells(r, u) { assert TaskTells(s, u); }
    forall w | 0 <= w < |r.workers| ensures WorkerTells(r, r.workers[w]) {
      assert WorkerTells(s, s.workers[w]);
    }
  }

  // ----- one worker

  lemma ScanTells(s: Global, w: nat)
    requires Inv(s) && AllTell(s) && w < |s.workers| && s.workers[w].pc == Scanning
    ensures AllTell(Scan(s, w))
  {
    var k := ScanFrom(s.queue, s.fibers, s.workers[w].tid, 0);
    if k == |s.queue| {
      QueuedIsAlone(s, |s.tasks|);
      OnlyTells(s, Scan(s, w), w, |s.tasks|, |s.fibers|);
    } else {
      assert EntryOk(s.queue[k], s.tasks);
      QueuedIsAlone(s, s.queue[k].task);
      OnlyTells(s, Scan(s, w), w, s.queue[k].task, |s.fibers|);
    }
  }

  /** Nobody has in hand what is queued, or no task at all; and nobody lives in a fiber that is not. */
  lemma QueuedIsAlone(s: Global, t: nat)
    requires Inv(s) && (t < |s.tasks| ==> !s.tasks[t].place.With?)
    ensures forall v :: 0 <= v < |s.workers| ==> s.workers[v].hand != Some(t)
    ensures forall u :: 0 <= u < |s.tasks| ==> s.tasks[u].home != Some(|s.fibers|)
  {
    forall u | 0 <= u < |s.tasks| ensures s.tasks[u].home != Some(|s.fibers|) {
      assert Settled(u, s.tasks[u], s.fibers);
    }
  }

  /** Steps of a worker with a task in hand that record nothing and leave it in hand. */
  lemma CarryTells(s: Global, r: Global, w: nat, t: nat, f: nat)
    requires Inv(s) && AllTell(s) && w < |s.workers| && s.workers[w].hand == Some(t)
    requires |s.workers| == |r.workers| && r.workers == s.workers[w := r.workers[w]]
    requires |s.tasks| == |r.tasks| && t < |s.tasks| && r.tasks == s.tasks[t := r.tasks[t]] && r.tasks[t].place == With(w)
    requires |s.fibers| <= |r.fibers| && (forall g :: 0 <= g < |s.fibers| && g != f ==> r.fibers[g] == s.fibers[g])
    requires forall u :: 0 <= u < |s.tasks| && u != t ==> s.tasks[u].home != Some(f)
    requires r.trace == s.trace && WorkerTells(r, r.workers[w])
    ensures AllTell(r)
  {
    HandIsAlone(s, w, t);
    OnlyTells(s, r, w, t, f);
  }

  lemma PrepareTells(s: Global, w: nat)
    requires Inv(s) && AllTell(s) && w < |s.workers|
    requires s.workers[w].pc.Holding? && s.workers[w].pc.ft.Some? && s.workers[w].pc.ft.value.item.OfCallback?
    ensures AllTell(Choose(s, w))
  {
    var x := s.workers[w];
    assert WorkerOk(x, s.tasks, s.fibers) && PoolUnused(x, s.tasks, s.fibers);
    var g := if x.pool.Some? then x.pool.value else |s.fibers|;
    HandIsAlone(s, w, x.hand.value);
    forall u | 0 <= u < |s.tasks| ensures s.tasks[u].home != Some(g) {
      assert Settled(u, s.tasks[u], s.fibers);
    }
    hide AllTell;
    CarryTells(s, Choose(s, w), w, x.hand.value, g);
  }

  lemma ChooseTells(s: Global, w: nat)
    requires Inv(s) && AllTell(s) && w < |s.workers| && s.workers[w].pc.Holding?
    ensures AllTell(Choose(s, w))
  {
    var x := s.workers[w];
    var ft := x.pc.ft;
    assert WorkerOk(x, s.tasks, s.fibers);
    hide AllTell;
    if ft.None? {
      IdleTells(s, w);
    } else if ft.value.item.OfCallback? {
      PrepareTells(s, w);
    } else {
      HandIsAlone(s, w, x.hand.value);
      CarryTells(s, Choose(s, w), w, x.hand.value, ft.value.item.f);
    }
  }

  /** A worker with nothing in hand changes no more than its own program point. */
  lemma EmptyTells(s: Global, r: Global, w: nat)
    requires Inv(s) && AllTell(s) && w < |s.workers| && s.workers[w].hand == None
    requires |s.workers| == |r.workers| && r.workers == s.workers[w := r.workers[w]] && r.workers[w].hand == None
    requires r.tasks == s.tasks && r.fibers == s.fibers && r.trace == s.trace
    ensures AllTell(r)
  {
    QueuedIsAlone(s, |s.tasks|);
    OnlyTells(s, r, w, |s.tasks|, |s.fibers|);
  }

  lemma IdleTells(s: Global, w: nat)
    requires Inv(s) && AllTell(s) && w < |s.workers| && s.workers[w].hand == None
    ensures AllTell(IdleBranch(s, w))
  {
    hide AllTell, Inv;
    EmptyTells(s, IdleBranch(s, w), w);
  }

  lemma SwapInTells(s: Global, w: nat, f: nat)
    requires Inv(s) && AllTell(s) && w < |s.workers| && s.workers[w].pc == Counted(f)
    ensures AllTell(WorkerStep(s, w))
  {
    var x := s.workers[w];
    assert WorkerOk(x, s.tasks, s.fibers);
    SwapInIs(s, w, f, x.hand.value);
    HandIsAlone(s, w, x.hand.value);
    hide AllTell, SwapIn;
    CarryTells(s, WorkerStep(s, w), w, x.hand.value, f);
  }

  /** Steps that move a worker on and change at most the context of its fiber. */
  lemma PlainTells(s: Global, w: nat)
    requires Inv(s) && AllTell(s) && w < |s.workers| && Plain(s.workers[w].pc)
    ensures AllTell(WorkerStep(s, w))
  {
    var x := s.workers[w];
    assert WorkerOk(x, s.tasks, s.fibers) && WorkerTells(s, x);
    PlainIs(s, w);
    hide AllTell, WorkerStep;
    if x.hand.Some? {
      HandIsAlone(s, w, x.hand.value);
      CarryTells(s, WorkerStep(s, w), w, x.hand.value, PcFiber(x.pc).value);
    } else {
      EmptyTells(s, WorkerStep(s, w), w);
    }
  }

  lemma PlainIs(s: Global, w: nat)
    requires w < |s.workers| && Plain(s.workers[w].pc) && WorkerOk(s.workers[w], s.tasks, s.fibers)
    ensures var x, r := s.workers[w], WorkerStep(s, w);
      && |r.workers| == |s.workers| && r.workers == s.workers[w := r.workers[w]] && r.workers[w].hand == x.hand
      && r.tasks == s.tasks && r.trace == s.trace && |r.fibers| == |s.fibers|
      && (x.hand == None ==> r.fibers == s.fibers)
      && (forall g :: 0 <= g < |s.fibers| && Some(g) != PcFiber(x.pc) ==> r.fibers[g] == s.fibers[g])
      && (WorkerTells(s, x) ==> WorkerTells(r, r.workers[w]))
  {
    hide Perform, Dispose, SwapIn, Choose, Scan, Last;
  }

  lemma LeaveTells(s: Global, w: nat, f: nat, t: nat, p: Prog, step: Step, fb: Fiber, todo: Option<Prog>)
    requires Inv(s) && AllTell(s) && w < |s.workers| && s.workers[w].pc == Executing(f, t, p)
    requires TellsFresh(fb.state, Some(step))
    ensures AllTell(Leave(Log(s, w, t, step), w, f, fb, t, todo))
  {
    ExecutingFacts(s, w, f, t, p);
    HandIsAlone(s, w, t);
    LastOthers(s.trace, t, step);
    LastSnoc(s.trace, Event(t, step), t);
    hide Last;
    OnlyTells(s, Leave(Log(s, w, t, step), w, f, fb, t, todo), w, t, f);
  }

  lemma ContinueTells(s: Global, w: nat, f: nat, t: nat, p: Prog, step: Step, rest: Prog)
    requires Inv(s) && AllTell(s) && w < |s.workers| && s.workers[w].pc == Executing(f, t, p)
    ensures AllTell(Continue(Log(s, w, t, step), w, f, t, rest))
  {
    ExecutingFacts(s, w, f, t, p);
    HandIsAlone(s, w, t);
    LastOthers(s.trace, t, step);
    hide Last;
    OnlyTells(s, Continue(Log(s, w, t, step), w, f, t, rest), w, t, f);
  }

  lemma PerformTells(s: Global, w: nat, f: nat, t: nat, p: Prog)
    requires Good(s) && AllTell(s) && w < |s.workers| && s.workers[w].pc == Executing(f, t, p) && f < |s.fibers|
    ensures AllTell(Perform(s, w, f, t, p))
  {
    hide Good, AllTell, Leave, Continue, Submit, WakeUp;
    var fb := s.fibers[f];
    GoodInv(s);
    ExecutingFacts(s, w, f, t, p);
    if p.Return? {
      LeaveTells(s, w, f, t, p, Returned, fb.(state := TERM, cb := Empty), None);
    } else if p.Throw? {
      LeaveTells(s, w, f, t, p, Threw, fb.(state := EXCEPT), None);
    } else if p.act.YieldReady? {
      LeaveTells(s, w, f, t, p, Did(p.act), fb.(state := READY), Some(p.rest));
    } else if p.act.YieldHold? {
      LeaveTells(s, w, f, t, p, Did(p.act), fb.(state := HOLD), Some(p.rest));
    } else if p.act.SwapOut? {
      LeaveTells(s, w, f, t, p, Did(p.act), fb, Some(p.rest));
    } else {
      GoOnTells(s, w, f, t, p);
    }
  }

  lemma GoOnTells(s: Global, w: nat, f: nat, t: nat, p: Prog)
    requires Good(s) && AllTell(s) && w < |s.workers| && s.workers[w].pc == Executing(f, t, p) && f < |s.fibers|
    requires GoesOn(p)
    ensures AllTell(Perform(s, w, f, t, p))
  {
    var b := Continue(Log(s, w, t, Did(p.act)), w, f, t, p.rest);
    ExecutingFacts(s, w, f, t, p);
    ContinueTells(s, w, f, t, p, Did(p.act), p.rest);
    ContinueStep(s, w, f, t, p, Did(p.act), p.rest);
    LogOther(s.trace, Event(t, Did(p.act)), |s.tasks|, s.tasks[t]);
    assert b.trace == s.trace + [Event(t, Did(p.act))] && |b.tasks| == |s.tasks|;
    assert Silent(b.trace, |b.tasks|);
    GoOnTellsMore(s, b, w, f, t, p);
  }

  lemma GoOnTellsMore(s: Global, b: Global, w: nat, f: nat, t: nat, p: Prog)
    requires w < |s.workers| && f < |s.fibers| && GoesOn(p)
    requires b == Continue(Log(s, w, t, Did(p.act)), w, f, t, p.rest)
    requires Inv(b) && AllTell(b) && Silent(b.trace, |b.tasks|)
    ensures AllTell(Perform(s, w, f, t, p))
  {
    hide AllTell, Continue, Silent, Inv, Submit, WakeUp;
    match p.act
    case Spawn(child, asFiber, thread) => SubmitTells(b, child, asFiber, thread);
    case Wake(u, thread) => WakeTells(b, u, thread);
    case _ =>
  }

  lemma DisposeTells(s: Global, w: nat, f: nat)
    requires Inv(s) && AllTell(s) && w < |s.workers| && s.workers[w].pc == Uncounted(f) && f < |s.fibers|
    ensures AllTell(Dispose(s, w, f))
  {
    hide Dispose, AllTell, Last, Only, TaskTells, WorkerTells, QueueOk, HandsOk, HomesOk, PoolsOk, ShapesOk;
    assert WorkerOk(s.workers[w], s.tasks, s.fibers);
    var t := s.workers[w].hand.value;
    HandIsAlone(s, w, t);
    DisposeOnly(s, w, f, t);
    DisposeOwn(s, w, f, t);
    OnlyTells(s, Dispose(s, w, f), w, t, f);
  }

  lemma DisposeOnly(s: Global, w: nat, f: nat, t: nat)
    requires w < |s.workers| && f < |s.fibers| && s.workers[w].hand == Some(t) && t < |s.tasks|
    requires forall v :: 0 <= v < |s.workers| && v != w ==> s.workers[v].hand != Some(t)
    requires forall u :: 0 <= u < |s.tasks| && u != t ==> s.tasks[u].home != Some(f)
    ensures Only(s, Dispose(s, w, f), w, t, f) && Dispose(s, w, f).trace == s.trace
  {
  }

  lemma DisposeOwn(s: Global, w: nat, f: nat, t: nat)
    requires AllTell(s) && w < |s.workers| && s.workers[w].pc == Uncounted(f) && f < |s.fibers|
    requires s.workers[w].hand == Some(t) && t < |s.tasks| && WorkerOk(s.workers[w], s.tasks, s.fibers)
    ensures TaskTells(Dispose(s, w, f), t)
    ensures w < |Dispose(s, w, f).workers| && WorkerTells(Dispose(s, w, f), Dispose(s, w, f).workers[w])
  {
    assert WorkerTells(s, s.workers[w]);
    hide AllTell, Last;
  }

  lemma StepTells(s: Global, w: nat)
    requires Good(s) && AllTell(s) && w < |s.workers| && Runs(s.workers[w])
    ensures AllTell(WorkerStep(s, w))
  {
    assert WorkerOk(s.workers[w], s.tasks, s.fibers);
    hide AllTell, Perform, Dispose, SwapIn, Choose, Scan;
    if Plain(s.workers[w].pc) { PlainTells(s, w); }
    match s.workers[w].pc
    case Scanning => ScanTells(s, w);
    case Holding(_) => ChooseTells(s, w);
    case Counted(f) => SwapInTells(s, w, f);
    case Executing(f, t, p) => ExecutingFacts(s, w, f, t, p); PerformTells(s, w, f, t, p);
    case Uncounted(f) => DisposeTells(s, w, f);
    case _ =>
  }

  lemma NextTells(s: Global, m: Move)
    requires Good(s) && AllTell(s) && Enabled(s, m)
    ensures AllTell(Next(s, m))
  {
    match m
    case StepOf(w) => StepTells(s, w);
    case NewTask(prog, asFiber, thread) => SubmitTells(s, prog, asFiber, thread);
    case WakeTask(t, thread) => WakeTells(s, t, thread);
    case _ => SameTells(s, Next(s, m));
  }

  lemma SameTells(s: Global, r: Global)
    requires AllTell(s) && r.tasks == s.tasks && r.fibers == s.fibers && r.workers == s.workers && r.trace == s.trace
    ensures AllTell(r)
  {
    forall t | 0 <= t < |r.tasks| ensures TaskTells(r, t) { assert TaskTells(s, t); }
    forall w | 0 <= w < |r.workers| ensures WorkerTells(r, r.workers[w]) { assert WorkerTells(s, s.workers[w]); }
  }

  lemma {:induction false} LeadsTells(s: Global, moves: seq<Move>, r: Global)
    requires Good(s) && AllTell(s) && Leads(s, moves, r)
    ensures AllTell(r)
    decreases |moves|
  {
    hide Good, AllTell, Next, Enabled;
    if moves != [] {
      NextGood(s, moves[0]);
      NextTells(s, moves[0]);
      LeadsTells(Next(s, moves[0]), moves[1..], r);
    }
  }

  /** A fiber that no worker has is INIT exactly if its task has done nothing, READY exactly if the task
      last yielded ready, HOLD exactly if it last yielded hold or swapped out, TERM exactly if its
      callback returned and EXCEPT exactly if it threw. */
  lemma StateTellsLast(s: Global, t: nat)
    requires Reachable(s) && t < |s.tasks| && s.tasks[t].home.Some? && !s.tasks[t].place.With?
    ensures s.tasks[t].home.value < |s.fibers|
    ensures forall state :: s.fibers[s.tasks[t].home.value].state == state <==> Tells(state, Last(s.trace, t))
  {
    AllTellReachable(s);
    assert TaskTells(s, t);
  }

  lemma AllTellReachable(s: Global)
    requires Reachable(s)
    ensures AllTell(s)
  {
    var s0, moves :| Initial(s0) && Leads(s0, moves, s);
    InitialGood(s0);
    LeadsTells(s0, moves, s);
  }

  /** So a task is parked only if it asked to be, by a hold or a raw swap, and nothing else since. */
  lemma ParkedAsked(s: Global, t: nat)
    requires Reachable(s) && t < |s.tasks| && s.tasks[t].place == Parked
    ensures Last(s.trace, t) in {Some(Did(YieldHold)), Some(Did(SwapOut))}
  {
    ReachableGood(s);
    assert Settled(t, s.tasks[t], s.fibers);
    StateTellsLast(s, t);
    assert Tells(HOLD, Last(s.trace, t));
  }
}
