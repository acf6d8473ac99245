/** Exclusive ownership in the step system: every task is in one place, every fiber has one task, and
    no assertion of the source fails.  The invariant is proved for every step. */
module Ownership {
  import opened Wrappers
  import opened Programs
  import opened Machine

  // ----- the invariant

  /** Ready to be switched into, and to go on with `p` of task `t`. */
  ghost predicate Resting(fb: Fiber, t: nat, p: Prog) {
    || (fb.state == INIT && fb.cb == Callback(t, p) && fb.ctx == Entry)
    || (fb.state in {READY, HOLD} && fb.ctx == Suspended(t, p))
  }

  /** A slice of `t` has ended in this state and left this context, with `todo` to do. */
  ghost predicate StoppedAs(state: State, c: Context, t: nat, todo: Option<Prog>) {
    match todo
    case Some(p) => c == Suspended(t, p) && state in {READY, HOLD, EXEC}
    case None => c == NeverReach && IsOver(state)
  }

  /** Worker `x` has task `t` in hand, and task and fiber are as its program point says. */
  ghost predicate Carries(x: Worker, t: nat, k: Task, fibers: seq<Fiber>) {
    match x.pc
    case Holding(Some(e)) =>
      && e.task == t && Mine(e, x.tid) && k.todo.Some?
      && (match e.item
          case OfFiber(f) => k.home == Some(f) && f < |fibers| && Resting(fibers[f], t, k.todo.value)
          case OfCallback(p) => k.home == None && k.todo == Some(p))
    case Prepared(f) => k.home == Some(f) && f < |fibers| && k.todo.Some? && Resting(fibers[f], t, k.todo.value)
    case Counted(f) => k.home == Some(f) && f < |fibers| && k.todo.Some? && Resting(fibers[f], t, k.todo.value)
    case Executing(f, u, rest) =>
      && u == t && k.home == Some(f) && f < |fibers| && k.todo == Some(rest)
      && fibers[f].state == EXEC && fibers[f].ctx == OnCpu
    case Leaving(f, save) =>
      k.home == Some(f) && f < |fibers| && fibers[f].ctx == OnCpu && StoppedAs(fibers[f].state, save, t, k.todo)
    case Back(f) => k.home == Some(f) && f < |fibers| && StoppedAs(fibers[f].state, fibers[f].ctx, t, k.todo)
    case Uncounted(f) => k.home == Some(f) && f < |fibers| && StoppedAs(fibers[f].state, fibers[f].ctx, t, k.todo)
    case _ => false
  }

  ghost predicate EntryOk(e: QueueEntry, tasks: seq<Task>) {
    && e.task < |tasks| && tasks[e.task].place == InQueue
    && match e.item
       case OfFiber(f) => tasks[e.task].home == Some(f)
       case OfCallback(p) => tasks[e.task].home == None && tasks[e.task].todo == Some(p)
  }

  predicate HasEntry(q: seq<QueueEntry>, t: nat) {
    exists i :: 0 <= i < |q| && q[i].task == t
  }

  /** The queue holds exactly the queued tasks, each once. */
  ghost predicate QueueOk(q: seq<QueueEntry>, tasks: seq<Task>) {
    && (forall i :: 0 <= i < |q| ==> EntryOk(q[i], tasks))
    && (forall i, j :: 0 <= i < j < |q| ==> q[i].task != q[j].task)
    && (forall t :: 0 <= t < |tasks| && tasks[t].place == InQueue ==> HasEntry(q, t))
  }

  /** What a worker has in hand is with it, and the other way round. */
  ghost predicate HandsOk(workers: seq<Worker>, tasks: seq<Task>) {
    && (forall w :: 0 <= w < |workers| && workers[w].hand.Some? ==>
          workers[w].hand.value < |tasks| && tasks[workers[w].hand.value].place == With(w))
    && (forall t :: 0 <= t < |tasks| && tasks[t].place.With? ==>
          tasks[t].place.w < |workers| && workers[tasks[t].place.w].hand == Some(t))
  }

  predicate EmptyHanded(pc: Pc) {
    pc.Scanning? || pc == Holding(None) || pc.IdleCounted? || pc.IdleBack? || pc.Exited?
  }

  ghost predicate WorkerOk(x: Worker, tasks: seq<Task>, fibers: seq<Fiber>) {
    match x.hand
    case None => EmptyHanded(x.pc)
    case Some(t) => t < |tasks| && Carries(x, t, tasks[t], fibers)
  }

  ghost predicate PcsOk(workers: seq<Worker>, tasks: seq<Task>, fibers: seq<Fiber>) {
    forall w :: 0 <= w < |workers| ==> WorkerOk(workers[w], tasks, fibers)
  }

  /** A task that no worker has is as its place says. */
  ghost predicate Settled(t: nat, k: Task, fibers: seq<Fiber>) {
    && (k.home.Some? ==> k.home.value < |fibers|)
    && match k.place
       case InQueue => k.todo.Some? && (k.home.Some? ==> Resting(fibers[k.home.value], t, k.todo.value))
       case With(_) => true
       case Parked =>
         && k.todo.Some? && k.home.Some?
         && fibers[k.home.value].state == HOLD && fibers[k.home.value].ctx == Suspended(t, k.todo.value)
       case Done =>
         && k.todo == None
         && (k.home.Some? ==> IsOver(fibers[k.home.value].state) && fibers[k.home.value].ctx == NeverReach)
  }

  ghost predicate HomesOk(tasks: seq<Task>, fibers: seq<Fiber>) {
    && (forall t :: 0 <= t < |tasks| ==> Settled(t, tasks[t], fibers))
    && (forall t, u :: 0 <= t < |tasks| && 0 <= u < |tasks| && t != u && tasks[t].home.Some?
          ==> tasks[t].home != tasks[u].home)
  }

  const UNUSED := Fiber(INIT, Empty, Entry)

  /** A pooled fiber is unused, or in use by its own worker for the callback in hand. */
  ghost predicate PoolUnused(x: Worker, tasks: seq<Task>, fibers: seq<Fiber>) {
    x.pool.Some? ==>
      && x.pool.value < |fibers|
      && (PcFiber(x.pc) != x.pool ==> fibers[x.pool.value] == UNUSED)
      && (forall t :: 0 <= t < |tasks| && tasks[t].home == x.pool ==> x.hand == Some(t) && PcFiber(x.pc) == x.pool)
  }

  ghost predicate PoolsOk(workers: seq<Worker>, tasks: seq<Task>, fibers: seq<Fiber>) {
    && (forall w :: 0 <= w < |workers| ==> PoolUnused(workers[w], tasks, fibers))
    && (forall v, w :: 0 <= v < |workers| && 0 <= w < |workers| && v != w && workers[v].pool.Some?
          ==> workers[v].pool != workers[w].pool)
  }

  /** State and context of a fiber fit together; a context is on a CPU only if a worker has it. */
  ghost predicate ShapeOk(fb: Fiber, held: bool) {
    match fb.ctx
    case Entry => fb.state == INIT
    case OnCpu => held
    case Suspended(_, _) => fb.state in {READY, HOLD, EXEC}
    case NeverReach => IsOver(fb.state)
  }

  ghost predicate ShapesOk(fibers: seq<Fiber>, workers: seq<Worker>) {
    forall f :: 0 <= f < |fibers| ==> ShapeOk(fibers[f], Held(workers, f))
  }

  ghost predicate Inv(s: Global) {
    && QueueOk(s.queue, s.tasks)
    && HandsOk(s.workers, s.tasks)
    && PcsOk(s.workers, s.tasks, s.fibers)
    && HomesOk(s.tasks, s.fibers)
    && PoolsOk(s.workers, s.tasks, s.fibers)
    && ShapesOk(s.fibers, s.workers)
  }

  // ----- steps that touch one worker, its task and that task's fiber

  /** `r` differs from `s` only in worker `w`, the task `t` it has in hand, and that task's fiber `f`. */
  ghost predicate Within(s: Global, r: Global, w: nat, t: nat, f: nat) {
    && w < |s.workers| == |r.workers| && t < |s.tasks| == |r.tasks| && f < |s.fibers| == |r.fibers|
    && r.queue == s.queue
    && (forall v :: 0 <= v < |s.workers| && v != w ==> r.workers[v] == s.workers[v])
    && (forall u :: 0 <= u < |s.tasks| && u != t ==> r.tasks[u] == s.tasks[u])
    && (forall g :: 0 <= g < |s.fibers| && g != f ==> r.fibers[g] == s.fibers[g])
    && s.workers[w].hand == r.workers[w].hand == Some(t)
    && s.workers[w].pool == r.workers[w].pool && s.workers[w].tid == r.workers[w].tid
    && PcFiber(s.workers[w].pc) == PcFiber(r.workers[w].pc) == Some(f)
    && s.tasks[t].place == r.tasks[t].place && s.tasks[t].home == r.tasks[t].home == Some(f)
  }

  lemma HeldSame(workers: seq<Worker>, later: seq<Worker>, w: nat)
    requires w < |workers| == |later|
    requires forall v :: 0 <= v < |workers| && v != w ==> later[v] == workers[v]
    ensures forall f: nat :: Some(f) != PcFiber(workers[w].pc) && Some(f) != PcFiber(later[w].pc) ==>
      (Held(workers, f) <==> Held(later, f))
  {
    forall f: nat | Some(f) != PcFiber(workers[w].pc) && Some(f) != PcFiber(later[w].pc)
      ensures Held(workers, f) <==> Held(later, f)
    {
      if Held(workers, f) {
        var v :| 0 <= v < |workers| && PcFiber(workers[v].pc) == Some(f);
        assert PcFiber(later[v].pc) == Some(f);
      }
      if Held(later, f) {
        var v :| 0 <= v < |later| && PcFiber(later[v].pc) == Some(f);
        assert PcFiber(workers[v].pc) == Some(f);
      }
    }
  }

  /** The fiber a worker is busy with is its task's. */
  lemma PcFiberIsHome(x: Worker, tasks: seq<Task>, fibers: seq<Fiber>)
    requires WorkerOk(x, tasks, fibers) && PcFiber(x.pc).Some?
    ensures x.hand.Some? && x.hand.value < |tasks| && tasks[x.hand.value].home == PcFiber(x.pc)
  {
  }

  lemma OthersKeep(s: Global, r: Global, w: nat, t: nat, f: nat)
    requires HandsOk(s.workers, s.tasks) && PcsOk(s.workers, s.tasks, s.fibers) && HomesOk(s.tasks, s.fibers)
    requires Within(s, r, w, t, f)
    ensures forall v :: 0 <= v < |s.workers| && v != w ==> WorkerOk(r.workers[v], r.tasks, r.fibers)
  {
    forall v | 0 <= v < |s.workers| && v != w ensures WorkerOk(r.workers[v], r.tasks, r.fibers) {
      assert WorkerOk(s.workers[v], s.tasks, s.fibers);
      var x := s.workers[v];
      if x.hand.Some? {
        assert s.tasks[x.hand.value].place == With(v) && s.tasks[t].place == With(w);
        assert s.tasks[x.hand.value].home != Some(f);
      }
    }
  }

  lemma LocalStep(s: Global, r: Global, w: nat, t: nat, f: nat)
    requires Inv(s) && Within(s, r, w, t, f)
    requires Carries(r.workers[w], t, r.tasks[t], r.fibers) && ShapeOk(r.fibers[f], true)
    ensures Inv(r)
  {
    OthersKeep(s, r, w, t, f);
    HeldSame(s.workers, r.workers, w);
    assert s.tasks[t].place == With(w);
    assert Held(r.workers, f);
    assert QueueOk(r.queue, r.tasks);
    assert HandsOk(r.workers, r.tasks);
    assert PcsOk(r.workers, r.tasks, r.fibers);
    LocalHomes(s, r, w, t, f);
    LocalPools(s, r, w, t, f);
  }

  lemma LocalHomes(s: Global, r: Global, w: nat, t: nat, f: nat)
    requires HomesOk(s.tasks, s.fibers) && Within(s, r, w, t, f) && s.tasks[t].place == With(w)
    ensures HomesOk(r.tasks, r.fibers)
  {
    forall u | 0 <= u < |r.tasks| ensures Settled(u, r.tasks[u], r.fibers) {
      assert Settled(u, s.tasks[u], s.fibers);
      if u != t { assert s.tasks[u].home != Some(f); }
    }
  }

  lemma LocalPools(s: Global, r: Global, w: nat, t: nat, f: nat)
    requires PoolsOk(s.workers, s.tasks, s.fibers) && Within(s, r, w, t, f)
    ensures PoolsOk(r.workers, r.tasks, r.fibers)
  {
    forall v | 0 <= v < |r.workers| ensures PoolUnused(r.workers[v], r.tasks, r.fibers) {
      assert PoolUnused(s.workers[v], s.tasks, s.fibers);
      assert forall u :: 0 <= u < |s.tasks| ==> s.tasks[u].home == r.tasks[u].home;
      if v != w && s.workers[v].pool == Some(f) { assert s.workers[v].hand == Some(t); }
    }
  }

  // ----- a worker with nothing in hand

  lemma EmptyStep(s: Global, r: Global, w: nat)
    requires Inv(s) && w < |s.workers| == |r.workers|
    requires r.queue == s.queue && r.tasks == s.tasks && r.fibers == s.fibers
    requires forall v :: 0 <= v < |s.workers| && v != w ==> r.workers[v] == s.workers[v]
    requires s.workers[w].hand == r.workers[w].hand == None
    requires s.workers[w].pool == r.workers[w].pool && EmptyHanded(r.workers[w].pc)
    ensures Inv(r)
  {
    assert WorkerOk(s.workers[w], s.tasks, s.fibers);
    HeldSame(s.workers, r.workers, w);
    forall v | 0 <= v < |r.workers| ensures WorkerOk(r.workers[v], r.tasks, r.fibers) {
      assert WorkerOk(s.workers[v], s.tasks, s.fibers);
    }
    forall v | 0 <= v < |r.workers| ensures PoolUnused(r.workers[v], r.tasks, r.fibers) {
      assert PoolUnused(s.workers[v], s.tasks, s.fibers);
    }
    forall f | 0 <= f < |r.fibers| ensures ShapeOk(r.fibers[f], Held(r.workers, f)) {
      assert ShapeOk(s.fibers[f], Held(s.workers, f));
    }
  }

  // ----- the scan

  lemma ScanQueue(q: seq<QueueEntry>, tasks: seq<Task>, k: nat, later: seq<Task>, w: nat)
    requires QueueOk(q, tasks) && k < |q| && q[k].task < |tasks|
    requires later == tasks[q[k].task := tasks[q[k].task].(place := With(w))]
    ensures QueueOk(q[..k] + q[k + 1..], later)
  {
    var r := q[..k] + q[k + 1..];
    forall i | 0 <= i < |r| ensures EntryOk(r[i], later) && r[i] == q[if i < k then i else i + 1] {
      assert EntryOk(q[if i < k then i else i + 1], tasks);
    }
    forall t | 0 <= t < |later| && later[t].place == InQueue ensures HasEntry(r, t) {
      var i :| 0 <= i < |q| && q[i].task == t;
      assert r[if i < k then i else i - 1] == q[i];
    }
  }

  lemma ScanStep(s: Global, w: nat)
    requires Inv(s) && w < |s.workers| && s.workers[w].pc == Scanning
    ensures Inv(Scan(s, w))
  {
    var x, r := s.workers[w], Scan(s, w);
    var k := ScanFrom(s.queue, s.fibers, x.tid, 0);
    assert WorkerOk(x, s.tasks, s.fibers);
    if k == |s.queue| {
      EmptyStep(s, r, w);
    } else {
      assert EntryOk(s.queue[k], s.tasks);
      ScanQueue(s.queue, s.tasks, k, r.tasks, w);
      TakeStep(s, r, w, s.queue[k].task, s.queue[k]);
    }
  }

  /** Worker `w` takes the queued task `t` in hand. */
  ghost predicate Takes(s: Global, r: Global, w: nat, t: nat, e: QueueEntry) {
    && w < |s.workers| && s.workers[w].hand == None && EmptyHanded(s.workers[w].pc)
    && EntryOk(e, s.tasks) && e.task == t && Mine(e, s.workers[w].tid)
    && r.workers == s.workers[w := s.workers[w].(pc := Holding(Some(e)), hand := Some(t))]
    && r.tasks == s.tasks[t := s.tasks[t].(place := With(w))] && r.fibers == s.fibers
  }

  lemma TakeStep(s: Global, r: Global, w: nat, t: nat, e: QueueEntry)
    requires Inv(s) && Takes(s, r, w, t, e) && QueueOk(r.queue, r.tasks)
    ensures Inv(r)
  {
    hide QueueOk, HandsOk, PcsOk, HomesOk, PoolsOk, ShapesOk, Takes;
    TakeHands(s, r, w, t, e);
    TakeWorkers(s, r, w, t, e);
    TakeHomes(s, r, w, t, e);
    TakePools(s, r, w, t, e);
    TakeShapes(s, r, w, t, e);
  }

  lemma TakeWorkers(s: Global, r: Global, w: nat, t: nat, e: QueueEntry)
    requires PcsOk(s.workers, s.tasks, s.fibers) && HomesOk(s.tasks, s.fibers) && HandsOk(s.workers, s.tasks)
    requires Takes(s, r, w, t, e)
    ensures PcsOk(r.workers, r.tasks, r.fibers)
  {
    assert Settled(t, s.tasks[t], s.fibers);
    forall v | 0 <= v < |r.workers| ensures WorkerOk(r.workers[v], r.tasks, r.fibers) {
      assert WorkerOk(s.workers[v], s.tasks, s.fibers);
    }
  }

  lemma TakeHomes(s: Global, r: Global, w: nat, t: nat, e: QueueEntry)
    requires HomesOk(s.tasks, s.fibers) && Takes(s, r, w, t, e)
    ensures HomesOk(r.tasks, r.fibers)
  {
    forall u | 0 <= u < |r.tasks| ensures Settled(u, r.tasks[u], r.fibers) {
      assert Settled(u, s.tasks[u], s.fibers);
    }
  }

  lemma TakeShapes(s: Global, r: Global, w: nat, t: nat, e: QueueEntry)
    requires ShapesOk(s.fibers, s.workers) && Takes(s, r, w, t, e)
    ensures ShapesOk(r.fibers, r.workers)
  {
    HeldSame(s.workers, r.workers, w);
    forall f | 0 <= f < |r.fibers| ensures ShapeOk(r.fibers[f], Held(r.workers, f)) {
      assert ShapeOk(s.fibers[f], Held(s.workers, f));
      if PcFiber(r.workers[w].pc) == Some(f) { assert Held(r.workers, f); }
    }
  }

  lemma TakeHands(s: Global, r: Global, w: nat, t: nat, e: QueueEntry)
    requires HandsOk(s.workers, s.tasks) && Takes(s, r, w, t, e)
    ensures HandsOk(r.workers, r.tasks)
  {
  }

  lemma TakePools(s: Global, r: Global, w: nat, t: nat, e: QueueEntry)
    requires PoolsOk(s.workers, s.tasks, s.fibers) && HandsOk(s.workers, s.tasks)
    requires Takes(s, r, w, t, e)
    ensures PoolsOk(r.workers, r.tasks, r.fibers)
  {
    forall v | 0 <= v < |r.workers| ensures PoolUnused(r.workers[v], r.tasks, r.fibers) {
      assert PoolUnused(s.workers[v], s.tasks, s.fibers);
      if s.workers[v].hand.Some? { assert s.tasks[s.workers[v].hand.value].place == With(v); }
      assert s.tasks[t].home != s.workers[w].pool || s.tasks[t].home == None;
    }
  }

  // ----- submitting and waking

  lemma SubmitStep(s: Global, prog: Prog, asFiber: bool, thread: int)
    requires Inv(s)
    ensures Inv(Submit(s, prog, asFiber, thread))
  {
    var r := Submit(s, prog, asFiber, thread);
    SubmitQueue(s, prog, asFiber, thread);
    forall v | 0 <= v < |r.workers| ensures WorkerOk(r.workers[v], r.tasks, r.fibers) {
      assert WorkerOk(s.workers[v], s.tasks, s.fibers);
    }
    SubmitHomes(s, prog, asFiber, thread);
    forall v | 0 <= v < |r.workers| ensures PoolUnused(r.workers[v], r.tasks, r.fibers) {
      assert PoolUnused(s.workers[v], s.tasks, s.fibers);
    }
    forall f | 0 <= f < |r.fibers| ensures ShapeOk(r.fibers[f], Held(r.workers, f)) {
      if f < |s.fibers| { assert ShapeOk(s.fibers[f], Held(s.workers, f)); }
    }
  }

  lemma QueuePush(q: seq<QueueEntry>, tasks: seq<Task>, e: QueueEntry, later: seq<Task>)
    requires QueueOk(q, tasks) && EntryOk(e, later) && |tasks| <= |later| <= |tasks| + 1
    requires e.task >= |tasks| || tasks[e.task].place != InQueue
    requires forall t :: 0 <= t < |tasks| && t != e.task ==> later[t] == tasks[t]
    requires |later| == |tasks| + 1 ==> e.task == |tasks|
    ensures QueueOk(q + [e], later)
  {
    var r := q + [e];
    forall i | 0 <= i < |q| ensures EntryOk(q[i], later) && q[i].task != e.task {
      assert EntryOk(q[i], tasks);
    }
    forall t | 0 <= t < |later| && later[t].place == InQueue ensures HasEntry(r, t) {
      if t == e.task {
        assert r[|q|].task == t;
      } else {
        var i :| 0 <= i < |q| && q[i].task == t;
        assert r[i].task == t;
      }
    }
  }

  lemma SubmitQueue(s: Global, prog: Prog, asFiber: bool, thread: int)
    requires QueueOk(s.queue, s.tasks) && HandsOk(s.workers, s.tasks)
    ensures var r := Submit(s, prog, asFiber, thread); QueueOk(r.queue, r.tasks) && HandsOk(r.workers, r.tasks)
  {
    var r := Submit(s, prog, asFiber, thread);
    QueuePush(s.queue, s.tasks, r.queue[|s.queue|], r.tasks);
  }

  lemma SubmitHomes(s: Global, prog: Prog, asFiber: bool, thread: int)
    requires HomesOk(s.tasks, s.fibers)
    ensures HomesOk(Submit(s, prog, asFiber, thread).tasks, Submit(s, prog, asFiber, thread).fibers)
  {
    var r := Submit(s, prog, asFiber, thread);
    forall u | 0 <= u < |r.tasks| ensures Settled(u, r.tasks[u], r.fibers) {
      if u < |s.tasks| { assert Settled(u, s.tasks[u], s.fibers); }
    }
  }

  /** The discipline's test is right: a task whose fiber it lets through is parked. */
  lemma MayWakeIsParked(s: Global, t: nat)
    requires Inv(s) && t < |s.tasks| && s.tasks[t].home.Some?
    ensures MayWake(s, s.tasks[t].home.value) <==> s.tasks[t].place == Parked
  {
    var k, f := s.tasks[t], s.tasks[t].home.value;
    assert Settled(t, k, s.fibers);
    match k.place
    case InQueue =>
      var i :| 0 <= i < |s.queue| && s.queue[i].task == t;
      assert EntryOk(s.queue[i], s.tasks);
      assert Queues(s.queue, f);
    case With(w) =>
      assert WorkerOk(s.workers[w], s.tasks, s.fibers);
      assert PcFiber(s.workers[w].pc) == Some(f);
      assert Held(s.workers, f);
    case Parked =>
      ParkedIsAlone(s, t);
    case Done =>
  }

  lemma ParkedIsAlone(s: Global, t: nat)
    requires Inv(s) && t < |s.tasks| && s.tasks[t].home.Some? && s.tasks[t].place == Parked
    ensures !Queues(s.queue, s.tasks[t].home.value) && !Held(s.workers, s.tasks[t].home.value)
  {
    var f := s.tasks[t].home.value;
    forall i | 0 <= i < |s.queue| ensures s.queue[i].item != OfFiber(f) {
      assert EntryOk(s.queue[i], s.tasks);
    }
    forall w | 0 <= w < |s.workers| ensures PcFiber(s.workers[w].pc) != Some(f) {
      assert WorkerOk(s.workers[w], s.tasks, s.fibers);
      if PcFiber(s.workers[w].pc).Some? { PcFiberIsHome(s.workers[w], s.tasks, s.fibers); }
      assert s.workers[w].hand != Some(t);
    }
  }

  lemma WakeStep(s: Global, t: nat, thread: int)
    requires Inv(s)
    ensures Inv(WakeUp(s, t, thread))
  {
    var r := WakeUp(s, t, thread);
    if t < |s.tasks| && s.tasks[t].home.Some? && MayWake(s, s.tasks[t].home.value) {
      MayWakeIsParked(s, t);
      assert Settled(t, s.tasks[t], s.fibers);
      QueuePush(s.queue, s.tasks, QueueEntry(OfFiber(s.tasks[t].home.value), thread, t), r.tasks);
      PlaceStep(s, r, t);
    }
  }

  /** A parked task becomes a queued one. */
  lemma PlaceStep(s: Global, r: Global, t: nat)
    requires Inv(s) && t < |s.tasks| && s.tasks[t].place == Parked
    requires r.workers == s.workers && r.fibers == s.fibers && QueueOk(r.queue, r.tasks)
    requires t < |r.tasks| && r.tasks == s.tasks[t := s.tasks[t].(place := InQueue, asked := r.tasks[t].asked)]
    ensures Inv(r)
  {
    assert Settled(t, s.tasks[t], s.fibers);
    forall v | 0 <= v < |r.workers| ensures WorkerOk(r.workers[v], r.tasks, r.fibers) {
      assert WorkerOk(s.workers[v], s.tasks, s.fibers);
      if s.workers[v].hand.Some? { assert s.tasks[s.workers[v].hand.value].place == With(v); }
    }
    forall u | 0 <= u < |r.tasks| ensures Settled(u, r.tasks[u], r.fibers) {
      assert Settled(u, s.tasks[u], s.fibers);
    }
    forall v | 0 <= v < |r.workers| ensures PoolUnused(r.workers[v], r.tasks, r.fibers) {
      assert PoolUnused(s.workers[v], s.tasks, s.fibers);
    }
  }

  // ----- a task in hand

  /** Only the program point moves on, perhaps with a counter. */
  lemma MovePc(s: Global, r: Global, w: nat, pc: Pc)
    requires Inv(s) && w < |s.workers| && s.workers[w].hand.Some? && PcFiber(s.workers[w].pc).Some?
    requires r.workers == s.workers[w := s.workers[w].(pc := pc)] && PcFiber(pc) == PcFiber(s.workers[w].pc)
    requires r.queue == s.queue && r.tasks == s.tasks && r.fibers == s.fibers
    requires s.workers[w].hand.value < |s.tasks|
      ==> Carries(s.workers[w].(pc := pc), s.workers[w].hand.value, s.tasks[s.workers[w].hand.value], s.fibers)
    ensures Inv(r)
  {
    assert WorkerOk(s.workers[w], s.tasks, s.fibers);
    var f := PcFiber(pc).value;
    PcFiberIsHome(s.workers[w], s.tasks, s.fibers);
    assert Held(s.workers, f);
    assert f < |s.fibers| && ShapeOk(s.fibers[f], Held(s.workers, f));
    LocalStep(s, r, w, s.workers[w].hand.value, f);
  }

  lemma ChooseStep(s: Global, w: nat)
    requires Inv(s) && w < |s.workers|
    requires s.workers[w].pc.Holding? && s.workers[w].pc.ft.Some? && s.workers[w].pc.ft.value.item.OfFiber?
    ensures Inv(WorkerStep(s, w))
  {
    assert WorkerOk(s.workers[w], s.tasks, s.fibers);
    MovePc(s, WorkerStep(s, w), w, Counted(s.workers[w].pc.ft.value.item.f));
  }

  lemma CountStep(s: Global, w: nat)
    requires Inv(s) && w < |s.workers| && (s.workers[w].pc.Prepared? || s.workers[w].pc.Back?)
    ensures Inv(WorkerStep(s, w))
  {
    var x := s.workers[w];
    assert WorkerOk(x, s.tasks, s.fibers);
    MovePc(s, WorkerStep(s, w), w, if x.pc.Prepared? then Counted(x.pc.f) else Uncounted(x.pc.f));
  }

  lemma SwapInIs(s: Global, w: nat, f: nat, t: nat)
    requires w < |s.workers| && s.workers[w].pc == Counted(f) && f < |s.fibers| && t < |s.tasks|
    requires s.tasks[t].todo.Some? && Resting(s.fibers[f], t, s.tasks[t].todo.value)
    ensures WorkerStep(s, w) == SetPc(SetFiber(s, f, s.fibers[f].(state := EXEC, ctx := OnCpu)), w,
                                      Executing(f, t, s.tasks[t].todo.value))
  {
  }

  lemma SwapInStep(s: Global, w: nat)
    requires Inv(s) && w < |s.workers| && s.workers[w].pc.Counted?
    ensures Inv(WorkerStep(s, w))
  {
    var x := s.workers[w];
    var t, f := x.hand.value, x.pc.f;
    assert WorkerOk(x, s.tasks, s.fibers);
    SwapInIs(s, w, f, t);
    var r := SetPc(SetFiber(s, f, s.fibers[f].(state := EXEC, ctx := OnCpu)), w, Executing(f, t, s.tasks[t].todo.value));
    LocalStep(s, r, w, t, f);
  }

  lemma SwitchStep(s: Global, w: nat)
    requires Inv(s) && w < |s.workers| && s.workers[w].pc.Leaving?
    ensures Inv(WorkerStep(s, w))
  {
    var x := s.workers[w];
    assert WorkerOk(x, s.tasks, s.fibers);
    assert s.tasks[x.hand.value].place == With(w);
    LocalStep(s, WorkerStep(s, w), w, x.hand.value, x.pc.f);
  }

  lemma ExecutingFacts(s: Global, w: nat, f: nat, t: nat, p: Prog)
    requires Inv(s) && w < |s.workers| && s.workers[w].pc == Executing(f, t, p)
    ensures s.workers[w].hand == Some(t) && t < |s.tasks| && s.tasks[t].home == Some(f) && f < |s.fibers|
    ensures s.tasks[t].todo == Some(p) && s.tasks[t].place == With(w)
    ensures s.fibers[f].state == EXEC && s.fibers[f].ctx == OnCpu
  {
    assert WorkerOk(s.workers[w], s.tasks, s.fibers);
  }

  lemma ContinueStep(s: Global, w: nat, f: nat, t: nat, p: Prog, step: Step, rest: Prog)
    requires Inv(s) && w < |s.workers| && s.workers[w].pc == Executing(f, t, p)
    ensures Inv(Continue(Log(s, w, t, step), w, f, t, rest))
  {
    ExecutingFacts(s, w, f, t, p);
    LocalStep(s, Continue(Log(s, w, t, step), w, f, t, rest), w, t, f);
  }

  lemma LeaveStep(s: Global, w: nat, f: nat, t: nat, p: Prog, step: Step, fb: Fiber, todo: Option<Prog>)
    requires Inv(s) && w < |s.workers| && s.workers[w].pc == Executing(f, t, p)
    requires fb.ctx == OnCpu
    requires if todo.Some? then fb.state in {READY, HOLD, EXEC} else IsOver(fb.state)
    ensures Inv(Leave(Log(s, w, t, step), w, f, fb, t, todo))
  {
    ExecutingFacts(s, w, f, t, p);
    LocalStep(s, Leave(Log(s, w, t, step), w, f, fb, t, todo), w, t, f);
  }

  lemma ActStep(s: Global, w: nat, f: nat, t: nat, p: Prog)
    requires Inv(s) && w < |s.workers| && s.workers[w].pc == Executing(f, t, p) && f < |s.fibers|
    ensures Inv(Perform(s, w, f, t, p))
  {
    hide Inv, Leave, Continue, Submit, WakeUp;
    var fb := s.fibers[f];
    ExecutingFacts(s, w, f, t, p);
    if p.Return? {
      LeaveStep(s, w, f, t, p, Returned, fb.(state := TERM, cb := Empty), None);
    } else if p.Throw? {
      LeaveStep(s, w, f, t, p, Threw, fb.(state := EXCEPT), None);
    } else if p.act.YieldReady? || p.act.YieldHold? || p.act.SwapOut? {
      var state := if p.act.YieldReady? then READY else if p.act.YieldHold? then HOLD else EXEC;
      LeaveStep(s, w, f, t, p, Did(p.act), fb.(state := state), Some(p.rest));
      assert p.act.SwapOut? ==> fb.(state := state) == fb;
    } else {
      ContinueActStep(s, w, f, t, p);
    }
  }

  lemma ContinueActStep(s: Global, w: nat, f: nat, t: nat, p: Prog)
    requires Inv(s) && w < |s.workers| && s.workers[w].pc == Executing(f, t, p) && f < |s.fibers|
    requires GoesOn(p)
    ensures Inv(Perform(s, w, f, t, p))
  {
    ContinueStep(s, w, f, t, p, Did(p.act), p.rest);
    var b := Continue(Log(s, w, t, Did(p.act)), w, f, t, p.rest);
    if p.act.Spawn? {
      SubmitStep(b, p.act.child, p.act.asFiber, p.act.thread);
    } else if p.act.Wake? {
      WakeStep(b, p.act.task, p.act.thread);
    }
  }

  // ----- a callback in hand

  /** Task `t` in the hand of `w` gets fiber `g` for its home, which was nobody's. */
  ghost predicate Housed(s: Global, r: Global, w: nat, t: nat, g: nat, p: Prog) {
    && w < |s.workers| == |r.workers| && t < |s.tasks| == |r.tasks|
    && |s.fibers| <= |r.fibers| <= |s.fibers| + 1 && g < |r.fibers|
    && (|r.fibers| == |s.fibers| + 1 ==> g == |s.fibers|)
    && r.queue == s.queue
    && (forall v :: 0 <= v < |s.workers| && v != w ==> r.workers[v] == s.workers[v])
    && (forall f :: 0 <= f < |s.fibers| && f != g ==> r.fibers[f] == s.fibers[f])
    && r.tasks == s.tasks[t := s.tasks[t].(home := Some(g))]
    && r.fibers[g] == Fiber(INIT, Callback(t, p), Entry)
    && s.workers[w].hand == r.workers[w].hand == Some(t)
    && r.workers[w].pool == Some(g) && r.workers[w].pc == Prepared(g) && r.workers[w].tid == s.workers[w].tid
    && s.tasks[t].home == None && s.tasks[t].todo == Some(p)
  }

  /** Nobody lives in fiber `g`, and no other worker has it in its pool. */
  ghost predicate Vacant(s: Global, w: nat, g: nat) {
    && (forall u :: 0 <= u < |s.tasks| ==> s.tasks[u].home != Some(g))
    && (forall v :: 0 <= v < |s.workers| && v != w ==> s.workers[v].pool != Some(g))
  }

  /** The fiber that a callback will get. */
  function Chosen(s: Global, x: Worker): nat {
    if x.pool.Some? then x.pool.value else |s.fibers|
  }

  lemma PrepareIs(s: Global, w: nat, e: QueueEntry)
    requires w < |s.workers| && s.workers[w].pc == Holding(Some(e)) && e.item.OfCallback?
    requires WorkerOk(s.workers[w], s.tasks, s.fibers) && PoolUnused(s.workers[w], s.tasks, s.fibers)
    ensures Housed(s, Prepare(s, w, e.task, e.item.prog), w, e.task, Chosen(s, s.workers[w]), e.item.prog)
  {
  }

  lemma PrepareStep(s: Global, w: nat)
    requires Inv(s) && w < |s.workers|
    requires s.workers[w].pc.Holding? && s.workers[w].pc.ft.Some? && s.workers[w].pc.ft.value.item.OfCallback?
    ensures Inv(WorkerStep(s, w))
  {
    hide Prepare, Housed;
    var x, e := s.workers[w], s.workers[w].pc.ft.value;
    assert WorkerOk(x, s.tasks, s.fibers) && PoolUnused(x, s.tasks, s.fibers);
    var g := Chosen(s, x);
    forall u | 0 <= u < |s.tasks| ensures s.tasks[u].home != Some(g) {
      assert Settled(u, s.tasks[u], s.fibers);
    }
    forall v | 0 <= v < |s.workers| && v != w ensures s.workers[v].pool != Some(g) {
      assert PoolUnused(s.workers[v], s.tasks, s.fibers);
    }
    PrepareIs(s, w, e);
    HouseStep(s, WorkerStep(s, w), w, e.task, g, e.item.prog);
  }

  lemma HouseStep(s: Global, r: Global, w: nat, t: nat, g: nat, p: Prog)
    requires Inv(s) && Housed(s, r, w, t, g, p) && Vacant(s, w, g) && PcFiber(s.workers[w].pc) == None
    ensures Inv(r)
  {
    hide QueueOk, HandsOk, PcsOk, HomesOk, PoolsOk, ShapesOk, Vacant;
    HouseWorkers(s, r, w, t, g, p);
    HouseHomes(s, r, w, t, g, p);
    HousePools(s, r, w, t, g, p);
    HouseShapes(s, r, w, t, g, p);
    HouseQueue(s, r, w, t, g, p);
  }

  lemma HouseWorkers(s: Global, r: Global, w: nat, t: nat, g: nat, p: Prog)
    requires HandsOk(s.workers, s.tasks) && PcsOk(s.workers, s.tasks, s.fibers)
    requires Housed(s, r, w, t, g, p) && Vacant(s, w, g)
    ensures PcsOk(r.workers, r.tasks, r.fibers)
  {
    assert s.tasks[t].place == With(w);
    forall v | 0 <= v < |r.workers| ensures WorkerOk(r.workers[v], r.tasks, r.fibers) {
      assert WorkerOk(s.workers[v], s.tasks, s.fibers);
      if v != w && s.workers[v].hand.Some? { assert s.tasks[s.workers[v].hand.value].place == With(v); }
    }
  }

  lemma HouseHomes(s: Global, r: Global, w: nat, t: nat, g: nat, p: Prog)
    requires HandsOk(s.workers, s.tasks) && HomesOk(s.tasks, s.fibers)
    requires Housed(s, r, w, t, g, p) && Vacant(s, w, g)
    ensures HomesOk(r.tasks, r.fibers)
  {
    assert s.tasks[t].place == With(w);
    forall u | 0 <= u < |r.tasks| ensures Settled(u, r.tasks[u], r.fibers) {
      assert Settled(u, s.tasks[u], s.fibers);
    }
  }

  lemma HousePools(s: Global, r: Global, w: nat, t: nat, g: nat, p: Prog)
    requires PoolsOk(s.workers, s.tasks, s.fibers) && Housed(s, r, w, t, g, p) && Vacant(s, w, g)
    ensures PoolsOk(r.workers, r.tasks, r.fibers)
  {
    forall v | 0 <= v < |r.workers| ensures PoolUnused(r.workers[v], r.tasks, r.fibers) {
      assert PoolUnused(s.workers[v], s.tasks, s.fibers);
    }
  }

  lemma HouseShapes(s: Global, r: Global, w: nat, t: nat, g: nat, p: Prog)
    requires ShapesOk(s.fibers, s.workers) && Housed(s, r, w, t, g, p) && PcFiber(s.workers[w].pc) == None
    ensures ShapesOk(r.fibers, r.workers)
  {
    HeldSame(s.workers, r.workers, w);
    forall f | 0 <= f < |r.fibers| ensures ShapeOk(r.fibers[f], Held(r.workers, f)) {
      if f != g { assert ShapeOk(s.fibers[f], Held(s.workers, f)); }
    }
  }

  lemma HouseQueue(s: Global, r: Global, w: nat, t: nat, g: nat, p: Prog)
    requires QueueOk(s.queue, s.tasks) && HandsOk(s.workers, s.tasks) && Housed(s, r, w, t, g, p)
    ensures QueueOk(r.queue, r.tasks) && HandsOk(r.workers, r.tasks)
  {
    forall i | 0 <= i < |r.queue| ensures EntryOk(r.queue[i], r.tasks) {
      assert EntryOk(s.queue[i], s.tasks);
    }
    assert s.tasks[t].place == With(w);
    forall u | 0 <= u < |r.tasks| && r.tasks[u].place == InQueue ensures HasEntry(r.queue, u) {
      assert s.tasks[u].place == InQueue;
    }
  }

  // ----- putting a task away

  /** Worker `w` lets go of task `t`, which lived in fiber `f`. */
  ghost predicate Released(s: Global, r: Global, w: nat, t: nat, f: nat) {
    && w < |s.workers| == |r.workers| && t < |s.tasks| == |r.tasks| && f < |s.fibers| == |r.fibers|
    && (forall v :: 0 <= v < |s.workers| && v != w ==> r.workers[v] == s.workers[v])
    && (forall u :: 0 <= u < |s.tasks| && u != t ==> r.tasks[u] == s.tasks[u])
    && (forall g :: 0 <= g < |s.fibers| && g != f ==> r.fibers[g] == s.fibers[g])
    && s.workers[w].pc == Uncounted(f) && r.workers[w].pc == Scanning
    && s.workers[w].hand == Some(t) && r.workers[w].hand == None && s.tasks[t].home == Some(f)
    && !r.tasks[t].place.With?
    && Settled(t, r.tasks[t], r.fibers) && ShapeOk(r.fibers[f], false)
    && (if r.tasks[t].home == Some(f)
        then r.workers[w].pool == if s.workers[w].pool == Some(f) then None else s.workers[w].pool
        else r.tasks[t].home == None && r.fibers[f] == UNUSED && s.workers[w].pool == r.workers[w].pool == Some(f))
  }

  lemma ReleaseStep(s: Global, r: Global, w: nat, t: nat, f: nat)
    requires Inv(s) && Released(s, r, w, t, f) && QueueOk(r.queue, r.tasks)
    ensures Inv(r)
  {
    HeldSame(s.workers, r.workers, w);
    assert s.tasks[t].place == With(w);
    ReleaseWorkers(s, r, w, t, f);
    forall u | 0 <= u < |r.tasks| ensures Settled(u, r.tasks[u], r.fibers) {
      assert Settled(u, s.tasks[u], s.fibers);
      if u != t { assert s.tasks[u].home != Some(f); }
    }
    ReleasePools(s, r, w, t, f);
    ReleaseShapes(s, r, w, t, f);
  }

  lemma ReleaseWorkers(s: Global, r: Global, w: nat, t: nat, f: nat)
    requires HandsOk(s.workers, s.tasks) && PcsOk(s.workers, s.tasks, s.fibers) && HomesOk(s.tasks, s.fibers)
    requires Released(s, r, w, t, f)
    ensures HandsOk(r.workers, r.tasks) && PcsOk(r.workers, r.tasks, r.fibers)
  {
    forall v | 0 <= v < |r.workers| ensures WorkerOk(r.workers[v], r.tasks, r.fibers) {
      assert WorkerOk(s.workers[v], s.tasks, s.fibers);
      if v != w && s.workers[v].hand.Some? {
        assert s.tasks[s.workers[v].hand.value].place == With(v);
        assert s.tasks[s.workers[v].hand.value].home != Some(f);
      }
    }
  }

  lemma ReleasePools(s: Global, r: Global, w: nat, t: nat, f: nat)
    requires PoolsOk(s.workers, s.tasks, s.fibers) && Released(s, r, w, t, f) && HandsOk(s.workers, s.tasks)
    ensures PoolsOk(r.workers, r.tasks, r.fibers)
  {
    forall v | 0 <= v < |r.workers| ensures PoolUnused(r.workers[v], r.tasks, r.fibers) {
      assert PoolUnused(s.workers[v], s.tasks, s.fibers);
      assert s.tasks[t].place == With(w) && (v != w ==> s.workers[v].hand != Some(t));
    }
  }

  lemma ReleaseShapes(s: Global, r: Global, w: nat, t: nat, f: nat)
    requires ShapesOk(s.fibers, s.workers) && Released(s, r, w, t, f)
    ensures ShapesOk(r.fibers, r.workers)
  {
    HeldSame(s.workers, r.workers, w);
    forall g | 0 <= g < |r.fibers| ensures ShapeOk(r.fibers[g], Held(r.workers, g)) {
      if g != f { assert ShapeOk(s.fibers[g], Held(s.workers, g)); }
    }
  }

  /** A task in hand is not queued, so taking it elsewhere leaves the queue in order. */
  lemma QueueSame(s: Global, t: nat, later: seq<Task>)
    requires QueueOk(s.queue, s.tasks) && t < |s.tasks| == |later| && s.tasks[t].place != InQueue
    requires forall u :: 0 <= u < |s.tasks| && u != t ==> later[u] == s.tasks[u]
    requires later[t].place != InQueue
    ensures QueueOk(s.queue, later)
  {
    forall i | 0 <= i < |s.queue| ensures EntryOk(s.queue[i], later) {
      assert EntryOk(s.queue[i], s.tasks);
    }
  }

  lemma DisposeReady(s: Global, w: nat, t: nat, f: nat)
    requires w < |s.workers| && s.workers[w].pc == Uncounted(f) && s.workers[w].hand == Some(t)
    requires WorkerOk(s.workers[w], s.tasks, s.fibers) && PoolUnused(s.workers[w], s.tasks, s.fibers)
    requires f < |s.fibers| && s.fibers[f].state == READY
    ensures Released(s, Dispose(s, w, f), w, t, f)
  {
  }

  lemma DisposeParks(s: Global, w: nat, t: nat, f: nat)
    requires w < |s.workers| && s.workers[w].pc == Uncounted(f) && s.workers[w].hand == Some(t)
    requires WorkerOk(s.workers[w], s.tasks, s.fibers) && PoolUnused(s.workers[w], s.tasks, s.fibers)
    requires f < |s.fibers| && s.fibers[f].state != READY && !IsOver(s.fibers[f].state)
    ensures Released(s, Dispose(s, w, f), w, t, f)
  {
  }

  lemma DisposeOver(s: Global, w: nat, t: nat, f: nat)
    requires w < |s.workers| && s.workers[w].pc == Uncounted(f) && s.workers[w].hand == Some(t)
    requires WorkerOk(s.workers[w], s.tasks, s.fibers) && PoolUnused(s.workers[w], s.tasks, s.fibers)
    requires f < |s.fibers| && IsOver(s.fibers[f].state)
    ensures Released(s, Dispose(s, w, f), w, t, f)
  {
  }

  lemma DisposeReleases(s: Global, w: nat, t: nat, f: nat)
    requires w < |s.workers| && s.workers[w].pc == Uncounted(f) && s.workers[w].hand == Some(t)
    requires WorkerOk(s.workers[w], s.tasks, s.fibers) && PoolUnused(s.workers[w], s.tasks, s.fibers)
    ensures f < |s.fibers| && Released(s, Dispose(s, w, f), w, t, f)
  {
    hide Dispose, Released;
    if s.fibers[f].state == READY { DisposeReady(s, w, t, f); }
    else if IsOver(s.fibers[f].state) { DisposeOver(s, w, t, f); }
    else { DisposeParks(s, w, t, f); }
  }

  lemma DisposeStep(s: Global, w: nat)
    requires Inv(s) && w < |s.workers| && s.workers[w].pc.Uncounted?
    ensures Inv(WorkerStep(s, w))
  {
    hide Released;
    var x, r := s.workers[w], WorkerStep(s, w);
    assert WorkerOk(x, s.tasks, s.fibers) && PoolUnused(x, s.tasks, s.fibers);
    var t, f := x.hand.value, x.pc.f;
    assert s.tasks[t].place == With(w) && f < |s.fibers|;
    if s.fibers[f].state == READY {
      QueuePush(s.queue, s.tasks, QueueEntry(OfFiber(f), NONE, t), r.tasks);
    } else {
      QueueSame(s, t, r.tasks);
    }
    DisposeReleases(s, w, t, f);
    ReleaseStep(s, r, w, t, f);
  }

  // ----- every step

  lemma StepKeepsInv(s: Global, w: nat)
    requires Inv(s) && w < |s.workers|
    ensures Inv(WorkerStep(s, w))
  {
    var x := s.workers[w];
    assert WorkerOk(x, s.tasks, s.fibers);
    hide Perform, Dispose, SwapIn, Scan, Prepare;
    match x.pc
    case Scanning => ScanStep(s, w);
    case Holding(ft) =>
      if ft.None? { EmptyStep(s, WorkerStep(s, w), w); }
      else if ft.value.item.OfFiber? { ChooseStep(s, w); }
      else { PrepareStep(s, w); }
    case Prepared(_) => CountStep(s, w);
    case Counted(_) => SwapInStep(s, w);
    case Executing(f, t, p) => ExecutingFacts(s, w, f, t, p); ActStep(s, w, f, t, p);
    case Leaving(_, _) => SwitchStep(s, w);
    case Back(_) => CountStep(s, w);
    case Uncounted(_) => DisposeStep(s, w);
    case IdleCounted => EmptyStep(s, WorkerStep(s, w), w);
    case IdleBack => EmptyStep(s, WorkerStep(s, w), w);
    case Exited =>
  }

  lemma NextKeepsInv(s: Global, m: Move)
    requires Inv(s) && Enabled(s, m)
    ensures Inv(Next(s, m))
  {
    match m
    case StepOf(w) => StepKeepsInv(s, w);
    case NewTask(prog, asFiber, thread) => SubmitStep(s, prog, asFiber, thread);
    case WakeTask(t, thread) => WakeStep(s, t, thread);
    case SetStop(_, _) =>
    case KeepPointer(_) =>
    case DropPointer(_) =>
  }
}
