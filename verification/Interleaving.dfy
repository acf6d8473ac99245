/** What holds in every run of the step system: whatever the number of workers and however their
    steps interleave. */
module Interleaving {
  import opened Wrappers
  import opened Programs
  import opened Machine
  import opened Ownership

  // ----- every task runs its own program, once and in order

  function Owed(todo: Option<Prog>): seq<Step> {
    if todo.Some? then Behaviour(todo.value) else []
  }

  ghost predicate TaskMeans(trace: seq<Event>, t: nat, k: Task) {
    Projection(trace, t) + Owed(k.todo) == Behaviour(k.prog)
  }

  /** What a task has done, followed by what it owes, is its program; nobody else has done anything. */
  ghost predicate Meaning(trace: seq<Event>, tasks: seq<Task>) {
    && (forall t :: 0 <= t < |tasks| ==> TaskMeans(trace, t, tasks[t]))
    && (forall t: nat :: t >= |tasks| ==> Silent(trace, t))
  }

  ghost predicate Silent(trace: seq<Event>, t: nat) { Projection(trace, t) == [] }

  lemma MeaningSame(trace: seq<Event>, tasks: seq<Task>, later: seq<Task>)
    requires Meaning(trace, tasks) && |later| == |tasks|
    requires forall t :: 0 <= t < |tasks| ==> later[t].prog == tasks[t].prog && later[t].todo == tasks[t].todo
    ensures Meaning(trace, later)
  {
    forall t | 0 <= t < |later| ensures TaskMeans(trace, t, later[t]) { assert TaskMeans(trace, t, tasks[t]); }
  }

  lemma MeaningAppend(trace: seq<Event>, tasks: seq<Task>, k: Task)
    requires Meaning(trace, tasks) && k.todo == Some(k.prog)
    ensures Meaning(trace, tasks + [k])
  {
    var later := tasks + [k];
    FreshMeans(trace, |tasks|, k);
    forall t | 0 <= t < |later| ensures TaskMeans(trace, t, later[t]) {
      if t < |tasks| { assert TaskMeans(trace, t, tasks[t]); }
    }
  }

  lemma FreshMeans(trace: seq<Event>, t: nat, k: Task)
    requires Silent(trace, t) && k.todo == Some(k.prog)
    ensures TaskMeans(trace, t, k)
  {
  }

  lemma LogOther(trace: seq<Event>, e: Event, u: nat, k: Task)
    requires u != e.task
    ensures Silent(trace, u) ==> Silent(trace + [e], u)
    ensures TaskMeans(trace, u, k) ==> TaskMeans(trace + [e], u, k)
  {
    ProjectionSnoc(trace, e, u);
  }

  lemma LogOwn(trace: seq<Event>, t: nat, step: Step, k: Task, later: Task)
    requires TaskMeans(trace, t, k) && later.prog == k.prog && Owed(k.todo) == [step] + Owed(later.todo)
    ensures TaskMeans(trace + [Event(t, step)], t, later)
  {
    ProjectionSnoc(trace, Event(t, step), t);
    var done, owed := Projection(trace, t), Owed(later.todo);
    assert done + ([step] + owed) == (done + [step]) + owed;
  }

  lemma MeaningLog(trace: seq<Event>, tasks: seq<Task>, t: nat, step: Step, later: seq<Task>)
    requires Meaning(trace, tasks) && t < |tasks|
    requires |later| == |tasks| && later == tasks[t := later[t]]
    requires later[t].prog == tasks[t].prog && Owed(tasks[t].todo) == [step] + Owed(later[t].todo)
    ensures Meaning(trace + [Event(t, step)], later)
  {
    var e := Event(t, step);
    forall u | 0 <= u < |later| ensures TaskMeans(trace + [e], u, later[u]) {
      assert TaskMeans(trace, u, tasks[u]);
      if u == t { LogOwn(trace, t, step, tasks[t], later[t]); } else { LogOther(trace, e, u, tasks[u]); }
    }
    forall u: nat | u >= |later| ensures Silent(trace + [e], u) {
      LogOther(trace, e, u, later[t]);
    }
  }

  lemma WakeMeaning(s: Global, t: nat, thread: int)
    requires Meaning(s.trace, s.tasks)
    ensures Meaning(WakeUp(s, t, thread).trace, WakeUp(s, t, thread).tasks)
  {
    MeaningSame(s.trace, s.tasks, WakeUp(s, t, thread).tasks);
  }

  lemma SubmitMeaning(s: Global, prog: Prog, asFiber: bool, thread: int)
    requires Meaning(s.trace, s.tasks)
    ensures var r := Submit(s, prog, asFiber, thread); Meaning(r.trace, r.tasks)
  {
    MeaningAppend(s.trace, s.tasks, Submit(s, prog, asFiber, thread).tasks[|s.tasks|]);
  }

  /** The step a program does first, and what it owes afterwards. */
  function FirstStep(p: Prog): Step {
    match p case Return => Returned case Throw => Threw case Then(act, _) => Did(act)
  }

  function AfterFirst(p: Prog): Option<Prog> {
    match p case Return => None case Throw => None case Then(_, rest) => Some(rest)
  }

  lemma OwedFirst(p: Prog)
    ensures Owed(Some(p)) == [FirstStep(p)] + Owed(AfterFirst(p))
  {
  }

  /** One action is one recorded step, by the task whose context is on the CPU. */
  ghost predicate OneStep(s: Global, r: Global, w: nat, e: Event)
    requires w < |s.workers|
  {
    && r.trace == s.trace + [e] && r.active == s.active && r.idle == s.idle
    && |r.workers| == |s.workers| && r.workers == s.workers[w := s.workers[w].(pc := r.workers[w].pc)]
    && (r.workers[w].pc.Executing? || r.workers[w].pc.Leaving?)
  }

  lemma LeaveIs(s: Global, w: nat, f: nat, t: nat, p: Prog)
    requires w < |s.workers| && f < |s.fibers| && !GoesOn(p)
    ensures OneStep(s, Perform(s, w, f, t, p), w, Event(t, FirstStep(p)))
  {
    var fb := s.fibers[f];
    if p.Return? {
      LeavingIs(s, w, f, t, Returned, fb.(state := TERM, cb := Empty), None);
    } else if p.Throw? {
      LeavingIs(s, w, f, t, Threw, fb.(state := EXCEPT), None);
    } else {
      LeavingIs(s, w, f, t, Did(p.act), fb.(state := READY), Some(p.rest));
      LeavingIs(s, w, f, t, Did(p.act), fb.(state := HOLD), Some(p.rest));
      LeavingIs(s, w, f, t, Did(p.act), fb, Some(p.rest));
    }
  }

  lemma LeavingIs(s: Global, w: nat, f: nat, t: nat, step: Step, fb: Fiber, todo: Option<Prog>)
    requires w < |s.workers|
    ensures OneStep(s, Leave(Log(s, w, t, step), w, f, fb, t, todo), w, Event(t, step))
  {
  }

  lemma ContinueIs(s: Global, w: nat, f: nat, t: nat, p: Prog)
    requires w < |s.workers| && f < |s.fibers| && GoesOn(p)
    ensures OneStep(s, Perform(s, w, f, t, p), w, Event(t, FirstStep(p)))
  {
    var b := Continue(Log(s, w, t, Did(p.act)), w, f, t, p.rest);
    assert OneStep(s, b, w, Event(t, FirstStep(p)));
  }

  lemma PerformIs(s: Global, w: nat, f: nat, t: nat, p: Prog)
    requires w < |s.workers| && f < |s.fibers|
    ensures OneStep(s, Perform(s, w, f, t, p), w, Event(t, FirstStep(p)))
  {
    if GoesOn(p) { ContinueIs(s, w, f, t, p); }
    else { LeaveIs(s, w, f, t, p); }
  }

  lemma PerformTodo(s: Global, w: nat, f: nat, t: nat, p: Prog)
    requires w < |s.workers| && f < |s.fibers| && t < |s.tasks|
    ensures var r, later := Perform(s, w, f, t, p), s.tasks[t := s.tasks[t].(todo := AfterFirst(p))];
      if p.Then? && p.act.Spawn? then
        r.tasks == Submit(s.(tasks := later), p.act.child, p.act.asFiber, p.act.thread).tasks
      else if p.Then? && p.act.Wake? then
        r.tasks == WakeUp(Continue(Log(s, w, t, Did(p.act)), w, f, t, p.rest), p.act.task, p.act.thread).tasks
        && Continue(Log(s, w, t, Did(p.act)), w, f, t, p.rest).tasks == later
      else r.tasks == later
  {
  }

  lemma PerformMeaning(s: Global, w: nat, f: nat, t: nat, p: Prog)
    requires Inv(s) && w < |s.workers| && s.workers[w].pc == Executing(f, t, p) && f < |s.fibers|
    requires Meaning(s.trace, s.tasks)
    ensures var r := Perform(s, w, f, t, p); Meaning(r.trace, r.tasks)
  {
    ExecutingFacts(s, w, f, t, p);
    PerformIs(s, w, f, t, p);
    PerformTodo(s, w, f, t, p);
    OwedFirst(p);
    var later := s.tasks[t := s.tasks[t].(todo := AfterFirst(p))];
    MeaningLog(s.trace, s.tasks, t, FirstStep(p), later);
    var more := s.trace + [Event(t, FirstStep(p))];
    if p.Then? && p.act.Spawn? {
      SubmitMeaning(s.(trace := more, tasks := later), p.act.child, p.act.asFiber, p.act.thread);
    } else if p.Then? && p.act.Wake? {
      MeaningSame(more, later, Perform(s, w, f, t, p).tasks);
    }
  }

  /** Nothing is recorded, every task's program and rest stay, and only worker `w` moves. */
  ghost predicate QuietFrame(s: Global, r: Global, w: nat) {
    && r.trace == s.trace && |r.tasks| == |s.tasks|
    && (forall t :: 0 <= t < |s.tasks| ==> r.tasks[t].prog == s.tasks[t].prog && r.tasks[t].todo == s.tasks[t].todo)
    && w < |r.workers| == |s.workers| && r.workers == s.workers[w := r.workers[w]]
  }

  lemma QuietScan(s: Global, w: nat)
    requires w < |s.workers|
    ensures QuietFrame(s, Scan(s, w), w)
  {
  }

  lemma QuietChoose(s: Global, w: nat)
    requires w < |s.workers| && s.workers[w].pc.Holding?
    ensures QuietFrame(s, Choose(s, w), w)
  {
    var ft := s.workers[w].pc.ft;
    hide Prepare, IdleBranch, QuietFrame;
    if ft.Some? && ft.value.item.OfCallback? {
      QuietPrepare(s, w, ft.value.task, ft.value.item.prog);
    } else {
      QuietIdle(s, w);
      QuietCount(s, w);
    }
  }

  lemma QuietPrepare(s: Global, w: nat, t: nat, prog: Prog)
    requires w < |s.workers|
    ensures QuietFrame(s, Prepare(s, w, t, prog), w)
  {
  }

  lemma QuietIdle(s: Global, w: nat)
    requires w < |s.workers|
    ensures QuietFrame(s, IdleBranch(s, w), w)
  {
  }

  lemma QuietCount(s: Global, w: nat)
    requires w < |s.workers|
    ensures forall pc :: QuietFrame(s, SetPc(s, w, pc).(active := s.active + 1), w)
  {
  }

  lemma QuietSwapIn(s: Global, w: nat, f: nat)
    requires w < |s.workers|
    ensures QuietFrame(s, SwapIn(s, w, f), w)
  {
  }

  lemma QuietDispose(s: Global, w: nat, f: nat)
    requires w < |s.workers| && f < |s.fibers|
    ensures QuietFrame(s, Dispose(s, w, f), w)
  {
    hide Dispose;
    DisposeTasks(s, w, f);
    DisposeWorkers(s, w, f);
  }

  lemma DisposeTasks(s: Global, w: nat, f: nat)
    requires w < |s.workers| && f < |s.fibers|
    ensures var r := Dispose(s, w, f);
      && r.trace == s.trace && |r.tasks| == |s.tasks|
      && (forall t :: 0 <= t < |s.tasks| ==> r.tasks[t].prog == s.tasks[t].prog && r.tasks[t].todo == s.tasks[t].todo)
  {
  }

  lemma DisposeWorkers(s: Global, w: nat, f: nat)
    requires w < |s.workers| && f < |s.fibers|
    ensures var r := Dispose(s, w, f); w < |r.workers| == |s.workers| && r.workers == s.workers[w := r.workers[w]]
  {
  }

  lemma QuietStep(s: Global, w: nat)
    requires w < |s.workers| && !s.workers[w].pc.Executing?
    ensures QuietFrame(s, WorkerStep(s, w), w)
  {
    match s.workers[w].pc
    case Scanning => QuietScan(s, w);
    case Holding(_) => QuietChoose(s, w);
    case Counted(f) => QuietSwapIn(s, w, f);
    case Uncounted(f) => if f < |s.fibers| { QuietDispose(s, w, f); }
    case _ =>
  }

  lemma StepMeaning(s: Global, w: nat)
    requires Inv(s) && w < |s.workers| && Meaning(s.trace, s.tasks)
    ensures var r := WorkerStep(s, w); Meaning(r.trace, r.tasks)
  {
    var pc := s.workers[w].pc;
    if pc.Executing? {
      ExecutingFacts(s, w, pc.f, pc.task, pc.rest);
      PerformMeaning(s, w, pc.f, pc.task, pc.rest);
    } else {
      QuietStep(s, w);
      MeaningSame(s.trace, s.tasks, WorkerStep(s, w).tasks);
    }
  }

  lemma NextMeaning(s: Global, m: Move)
    requires Inv(s) && Enabled(s, m) && Meaning(s.trace, s.tasks)
    ensures Meaning(Next(s, m).trace, Next(s, m).tasks)
  {
    match m
    case StepOf(w) => StepMeaning(s, w);
    case NewTask(prog, asFiber, thread) => SubmitMeaning(s, prog, asFiber, thread);
    case WakeTask(t, thread) => WakeMeaning(s, t, thread);
    case SetStop(_, _) =>
    case KeepPointer(_) =>
    case DropPointer(_) =>
  }

  // ----- the counters

  predicate CountedIn(pc: Pc) { pc.Counted? || pc.Executing? || pc.Leaving? || pc.Back? }

  function ActiveOf(workers: seq<Worker>): nat {
    if workers == [] then 0
    else ActiveOf(workers[..|workers| - 1]) + if CountedIn(workers[|workers| - 1].pc) then 1 else 0
  }

  predicate IdleIn(pc: Pc) { pc.IdleCounted? || pc.IdleBack? }

  function IdlersOf(workers: seq<Worker>): nat {
    if workers == [] then 0
    else IdlersOf(workers[..|workers| - 1]) + if IdleIn(workers[|workers| - 1].pc) then 1 else 0
  }

  ghost predicate CountersOk(s: Global) {
    s.active == ActiveOf(s.workers) && s.idle == IdlersOf(s.workers)
  }

  lemma {:induction false} CountsUpdate(workers: seq<Worker>, w: nat, x: Worker)
    requires w < |workers|
    ensures ActiveOf(workers[w := x])
         == ActiveOf(workers) - (if CountedIn(workers[w].pc) then 1 else 0) + (if CountedIn(x.pc) then 1 else 0)
    ensures IdlersOf(workers[w := x])
         == IdlersOf(workers) - (if IdleIn(workers[w].pc) then 1 else 0) + (if IdleIn(x.pc) then 1 else 0)
  {
    var n := |workers| - 1;
    if w == n {
      assert workers[w := x][..n] == workers[..n];
    } else {
      CountsUpdate(workers[..n], w, x);
      assert workers[w := x][..n] == workers[..n][w := x];
    }
  }

  /** The counter moves exactly when the worker enters or leaves the counted stretch. */
  ghost predicate Counts(s: Global, r: Global, before: Pc, after: Pc) {
    && r.active - s.active == (if CountedIn(after) then 1 else 0) - (if CountedIn(before) then 1 else 0)
    && r.idle - s.idle == (if IdleIn(after) then 1 else 0) - (if IdleIn(before) then 1 else 0)
  }

  lemma ChooseCounts(s: Global, w: nat)
    requires Inv(s) && w < |s.workers| && s.workers[w].pc.Holding?
    ensures |Choose(s, w).workers| == |s.workers|
    ensures Counts(s, Choose(s, w), s.workers[w].pc, Choose(s, w).workers[w].pc)
  {
    var ft := s.workers[w].pc.ft;
    assert WorkerOk(s.workers[w], s.tasks, s.fibers) && PoolUnused(s.workers[w], s.tasks, s.fibers);
    hide Prepare, IdleBranch, Inv, PoolUnused, WorkerOk;
    if ft.Some? && ft.value.item.OfCallback? {
      PrepareCounts(s, w, ft.value.task, ft.value.item.prog);
    } else {
      IdleCounts(s, w);
    }
  }

  lemma PrepareCounts(s: Global, w: nat, t: nat, prog: Prog)
    requires w < |s.workers| && s.workers[w].pc.Holding?
    ensures |Prepare(s, w, t, prog).workers| == |s.workers|
    ensures Counts(s, Prepare(s, w, t, prog), s.workers[w].pc, Prepare(s, w, t, prog).workers[w].pc)
  {
  }

  lemma IdleCounts(s: Global, w: nat)
    requires w < |s.workers| && s.workers[w].pc.Holding?
    ensures |IdleBranch(s, w).workers| == |s.workers|
    ensures Counts(s, IdleBranch(s, w), s.workers[w].pc, IdleBranch(s, w).workers[w].pc)
  {
  }

  lemma ScanCounts(s: Global, w: nat)
    requires w < |s.workers| && s.workers[w].pc == Scanning
    ensures |Scan(s, w).workers| == |s.workers|
    ensures Counts(s, Scan(s, w), Scanning, Scan(s, w).workers[w].pc)
  {
  }

  lemma SwapInCounts(s: Global, w: nat, f: nat)
    requires Inv(s) && w < |s.workers| && s.workers[w].pc == Counted(f)
    ensures |SwapIn(s, w, f).workers| == |s.workers|
    ensures Counts(s, SwapIn(s, w, f), Counted(f), SwapIn(s, w, f).workers[w].pc)
  {
    assert WorkerOk(s.workers[w], s.tasks, s.fibers);
    SwapInIs(s, w, f, s.workers[w].hand.value);
  }

  lemma DisposeCounts(s: Global, w: nat, f: nat)
    requires w < |s.workers| && f < |s.fibers|
    ensures |Dispose(s, w, f).workers| == |s.workers|
    ensures Counts(s, Dispose(s, w, f), Uncounted(f), Dispose(s, w, f).workers[w].pc)
  {
  }

  lemma StepCounts(s: Global, w: nat)
    requires Inv(s) && w < |s.workers| && !s.workers[w].pc.Executing?
    ensures |WorkerStep(s, w).workers| == |s.workers|
    ensures Counts(s, WorkerStep(s, w), s.workers[w].pc, WorkerStep(s, w).workers[w].pc)
  {
    hide Perform, Dispose, SwapIn, Choose, Scan;
    assert WorkerOk(s.workers[w], s.tasks, s.fibers);
    match s.workers[w].pc
    case Scanning => ScanCounts(s, w);
    case Counted(f) => SwapInCounts(s, w, f);
    case Holding(_) => ChooseCounts(s, w);
    case Uncounted(f) => DisposeCounts(s, w, f);
    case _ =>
  }

  lemma StepCounters(s: Global, w: nat)
    requires Inv(s) && w < |s.workers| && CountersOk(s)
    ensures CountersOk(WorkerStep(s, w))
  {
    var pc := s.workers[w].pc;
    if pc.Executing? {
      ExecutingFacts(s, w, pc.f, pc.task, pc.rest);
      PerformIs(s, w, pc.f, pc.task, pc.rest);
    } else {
      QuietStep(s, w);
      StepCounts(s, w);
    }
    CountsUpdate(s.workers, w, WorkerStep(s, w).workers[w]);
  }

  lemma NextCounters(s: Global, m: Move)
    requires Inv(s) && Enabled(s, m) && CountersOk(s)
    ensures CountersOk(Next(s, m))
  {
    if m.StepOf? { StepCounters(s, m.w); }
  }

  // ----- the books of each worker

  /** A worker has made one callback fiber for every callback that outlived its first slice, and one
      more while its pool is full; it has run its idle fiber once if that is used up. */
  ghost predicate BookOk(x: Worker) {
    && x.made == Escaped(x.firsts) + (if x.pool.Some? then 1 else 0)
    && x.idleTurns == (if x.idleUsed || x.pc.IdleCounted? then 1 else 0)
    && (x.pc.IdleCounted? ==> !x.idleUsed)
    && (x.pc.IdleBack? || x.pc.Exited? ==> x.idleUsed)
  }

  ghost predicate BooksOk(workers: seq<Worker>) {
    forall w :: 0 <= w < |workers| ==> BookOk(workers[w])
  }

  lemma DisposeBook(s: Global, w: nat, f: nat)
    requires w < |s.workers| && s.workers[w].pc == Uncounted(f) && f < |s.fibers| && BookOk(s.workers[w])
    ensures w < |Dispose(s, w, f).workers| && BookOk(Dispose(s, w, f).workers[w])
  {
    EscapedSnoc(s.workers[w].firsts, IsOver(s.fibers[f].state));
  }

  lemma SwapInBook(s: Global, w: nat, f: nat)
    requires Inv(s) && w < |s.workers| && s.workers[w].pc == Counted(f) && BookOk(s.workers[w])
    ensures w < |SwapIn(s, w, f).workers| && BookOk(SwapIn(s, w, f).workers[w])
  {
    assert WorkerOk(s.workers[w], s.tasks, s.fibers);
    SwapInIs(s, w, f, s.workers[w].hand.value);
  }

  lemma ScanBook(s: Global, w: nat)
    requires w < |s.workers| && BookOk(s.workers[w]) && s.workers[w].pc == Scanning
    ensures w < |Scan(s, w).workers| && BookOk(Scan(s, w).workers[w])
  {
  }

  lemma ChooseBook(s: Global, w: nat)
    requires Inv(s) && w < |s.workers| && BookOk(s.workers[w]) && s.workers[w].pc.Holding?
    ensures w < |Choose(s, w).workers| && BookOk(Choose(s, w).workers[w])
  {
    var x := s.workers[w];
    assert PoolUnused(x, s.tasks, s.fibers);
    if x.pc.ft.Some? && x.pc.ft.value.item.OfCallback? {
      PrepareBook(s, w, x.pc.ft.value.task, x.pc.ft.value.item.prog);
    } else {
      IdleBook(s, w);
    }
  }

  lemma PrepareBook(s: Global, w: nat, t: nat, prog: Prog)
    requires w < |s.workers| && BookOk(s.workers[w]) && s.workers[w].pc.Holding?
    requires s.workers[w].pool.Some? ==> s.workers[w].pool.value < |s.fibers| && s.fibers[s.workers[w].pool.value] == UNUSED
    ensures w < |Prepare(s, w, t, prog).workers| && BookOk(Prepare(s, w, t, prog).workers[w])
  {
  }

  lemma IdleBook(s: Global, w: nat)
    requires w < |s.workers| && BookOk(s.workers[w]) && s.workers[w].pc.Holding?
    ensures w < |IdleBranch(s, w).workers| && BookOk(IdleBranch(s, w).workers[w])
  {
  }

  lemma StepBooks(s: Global, w: nat)
    requires Inv(s) && w < |s.workers| && BooksOk(s.workers)
    ensures BooksOk(WorkerStep(s, w).workers)
  {
    var x := s.workers[w];
    assert WorkerOk(x, s.tasks, s.fibers) && PoolUnused(x, s.tasks, s.fibers) && BookOk(x);
    if x.pc.Executing? {
      ExecutingFacts(s, w, x.pc.f, x.pc.task, x.pc.rest);
      PerformIs(s, w, x.pc.f, x.pc.task, x.pc.rest);
    } else {
      QuietStep(s, w);
      OwnBook(s, w);
    }
  }

  lemma OwnBook(s: Global, w: nat)
    requires Inv(s) && w < |s.workers| && BookOk(s.workers[w]) && !s.workers[w].pc.Executing?
    ensures w < |WorkerStep(s, w).workers| && BookOk(WorkerStep(s, w).workers[w])
  {
    assert WorkerOk(s.workers[w], s.tasks, s.fibers);
    hide Inv, Perform, Dispose, SwapIn, Choose, Scan, BookOk;
    match s.workers[w].pc
    case Scanning => ScanBook(s, w);
    case Holding(_) => ChooseBook(s, w);
    case Counted(f) => SwapInBook(s, w, f);
    case Uncounted(f) => DisposeBook(s, w, f);
    case Prepared(_) => PlainBook(s, w);
    case Leaving(_, _) => PlainBook(s, w);
    case Back(_) => PlainBook(s, w);
    case IdleCounted => PlainBook(s, w);
    case IdleBack => PlainBook(s, w);
    case Exited => PlainBook(s, w);
  }

  predicate Plain(pc: Pc) {
    pc.Prepared? || pc.Leaving? || pc.Back? || pc.IdleCounted? || pc.IdleBack? || pc.Exited?
  }

  lemma PlainBook(s: Global, w: nat)
    requires w < |s.workers| && BookOk(s.workers[w]) && Plain(s.workers[w].pc)
    ensures w < |WorkerStep(s, w).workers| && BookOk(WorkerStep(s, w).workers[w])
  {
    hide Perform, Dispose, SwapIn, Choose, Scan, Escaped;
  }

  // ----- suspended contexts

  /** A suspended context belongs to the task that lives in the fiber, and is what that task owes. */
  ghost predicate SuspendedOk(s: Global) {
    forall f :: 0 <= f < |s.fibers| && s.fibers[f].ctx.Suspended? ==> LivesIn(s, f)
  }

  ghost predicate LivesIn(s: Global, f: nat)
    requires f < |s.fibers| && s.fibers[f].ctx.Suspended?
  {
    var c := s.fibers[f].ctx;
    c.task < |s.tasks| && s.tasks[c.task].home == Some(f) && s.tasks[c.task].todo == Some(c.rest)
  }

  /** Only task `t` and fiber `f` change, and if `t` had a home it was `f`. */
  lemma SuspendedFrame(s: Global, r: Global, t: nat, f: nat)
    requires SuspendedOk(s) && |s.tasks| <= |r.tasks| && |s.fibers| <= |r.fibers|
    requires t < |s.tasks| && (s.tasks[t].home == None || s.tasks[t].home == Some(f))
    requires forall u :: 0 <= u < |s.tasks| && u != t ==> r.tasks[u].home == s.tasks[u].home && r.tasks[u].todo == s.tasks[u].todo
    requires forall g :: 0 <= g < |s.fibers| && g != f ==> r.fibers[g] == s.fibers[g]
    requires forall g :: |s.fibers| <= g < |r.fibers| ==> r.fibers[g].ctx == Entry
    requires f < |r.fibers| && r.fibers[f].ctx.Suspended? ==> LivesIn(r, f)
    ensures SuspendedOk(r)
  {
    forall g | 0 <= g < |r.fibers| && r.fibers[g].ctx.Suspended? ensures LivesIn(r, g) {
      if g != f { assert LivesIn(s, g); }
    }
  }

  /** A step that neither user code nor a fiber's context takes part in. */
  lemma SuspendedSame(s: Global, r: Global)
    requires SuspendedOk(s) && |s.tasks| <= |r.tasks| && |s.fibers| <= |r.fibers|
    requires forall u :: 0 <= u < |s.tasks| ==> r.tasks[u].home == s.tasks[u].home && r.tasks[u].todo == s.tasks[u].todo
    requires forall g :: 0 <= g < |s.fibers| ==> r.fibers[g].ctx == s.fibers[g].ctx
    requires forall g :: |s.fibers| <= g < |r.fibers| ==> r.fibers[g].ctx == Entry
    ensures SuspendedOk(r)
  {
    forall g | 0 <= g < |r.fibers| && r.fibers[g].ctx.Suspended? ensures LivesIn(r, g) {
      assert LivesIn(s, g);
    }
  }

  lemma SuspendedSubmit(s: Global, prog: Prog, asFiber: bool, thread: int)
    requires SuspendedOk(s)
    ensures SuspendedOk(Submit(s, prog, asFiber, thread))
  {
    SuspendedSame(s, Submit(s, prog, asFiber, thread));
  }

  lemma SuspendedWake(s: Global, t: nat, thread: int)
    requires SuspendedOk(s)
    ensures SuspendedOk(WakeUp(s, t, thread))
  {
    SuspendedSame(s, WakeUp(s, t, thread));
  }

  lemma SuspendedPerform(s: Global, w: nat, f: nat, t: nat, p: Prog)
    requires Inv(s) && w < |s.workers| && s.workers[w].pc == Executing(f, t, p) && SuspendedOk(s)
    ensures f < |s.fibers| && SuspendedOk(Perform(s, w, f, t, p))
  {
    ExecutingFacts(s, w, f, t, p);
    if GoesOn(p) {
      var b := Continue(Log(s, w, t, Did(p.act)), w, f, t, p.rest);
      SuspendedFrame(s, b, t, f);
      if p.act.Spawn? { SuspendedSubmit(b, p.act.child, p.act.asFiber, p.act.thread); }
      if p.act.Wake? { SuspendedWake(b, p.act.task, p.act.thread); }
    } else {
      SuspendedLeave(s, w, f, t, p);
    }
  }

  lemma SuspendedLeave(s: Global, w: nat, f: nat, t: nat, p: Prog)
    requires Inv(s) && w < |s.workers| && s.workers[w].pc == Executing(f, t, p) && SuspendedOk(s) && f < |s.fibers|
    requires !GoesOn(p)
    ensures SuspendedOk(Perform(s, w, f, t, p))
  {
    ExecutingFacts(s, w, f, t, p);
    LeaveFibers(s, w, f, t, p);
    SuspendedFrame(s, Perform(s, w, f, t, p), t, f);
  }

  /** Nothing changes but task `t` and fiber `f`, whose context stays. */
  ghost predicate LeavesOthers(s: Global, r: Global, f: nat, t: nat) {
    && f < |s.fibers| == |r.fibers| && r.fibers[f].ctx == s.fibers[f].ctx
    && (forall g :: 0 <= g < |s.fibers| && g != f ==> r.fibers[g] == s.fibers[g])
    && |r.tasks| == |s.tasks|
    && (forall u :: 0 <= u < |s.tasks| && u != t ==> r.tasks[u] == s.tasks[u])
  }

  lemma LeaveFibers(s: Global, w: nat, f: nat, t: nat, p: Prog)
    requires w < |s.workers| && f < |s.fibers| && t < |s.tasks|
    requires !GoesOn(p)
    ensures LeavesOthers(s, Perform(s, w, f, t, p), f, t)
  {
    hide Leave, LeavesOthers;
    var fb := s.fibers[f];
    if p.Return? {
      LeavingOthers(s, w, f, t, Returned, fb.(state := TERM, cb := Empty), None);
    } else if p.Throw? {
      LeavingOthers(s, w, f, t, Threw, fb.(state := EXCEPT), None);
    } else {
      LeavingOthers(s, w, f, t, Did(p.act), fb.(state := READY), Some(p.rest));
      LeavingOthers(s, w, f, t, Did(p.act), fb.(state := HOLD), Some(p.rest));
      LeavingOthers(s, w, f, t, Did(p.act), fb, Some(p.rest));
    }
  }

  lemma LeavingOthers(s: Global, w: nat, f: nat, t: nat, step: Step, fb: Fiber, todo: Option<Prog>)
    requires w < |s.workers| && f < |s.fibers| && t < |s.tasks| && fb.ctx == s.fibers[f].ctx
    ensures LeavesOthers(s, Leave(Log(s, w, t, step), w, f, fb, t, todo), f, t)
  {
  }

  lemma LeaveRest(s: Global, w: nat, f: nat, t: nat, p: Prog)
    requires w < |s.workers| && f < |s.fibers| && !GoesOn(p)
    ensures var r := Perform(s, w, f, t, p);
      r.queue == s.queue && r.kept == s.kept && w < |r.workers| && PcFiber(r.workers[w].pc) == Some(f)
  {
    var fb := s.fibers[f];
    if p.Return? {
      LeaveKeeps(s, w, f, t, Returned, fb.(state := TERM, cb := Empty), None);
    } else if p.Throw? {
      LeaveKeeps(s, w, f, t, Threw, fb.(state := EXCEPT), None);
    } else {
      LeaveKeeps(s, w, f, t, Did(p.act), fb.(state := READY), Some(p.rest));
      LeaveKeeps(s, w, f, t, Did(p.act), fb.(state := HOLD), Some(p.rest));
      LeaveKeeps(s, w, f, t, Did(p.act), fb, Some(p.rest));
    }
    hide Leave;
  }

  lemma LeaveKeeps(s: Global, w: nat, f: nat, t: nat, step: Step, fb: Fiber, todo: Option<Prog>)
    requires w < |s.workers|
    ensures var r := Leave(Log(s, w, t, step), w, f, fb, t, todo);
      r.queue == s.queue && r.kept == s.kept && w < |r.workers| && PcFiber(r.workers[w].pc) == Some(f)
  {
  }

  lemma SuspendedDispose(s: Global, w: nat, f: nat)
    requires Inv(s) && w < |s.workers| && s.workers[w].pc == Uncounted(f) && SuspendedOk(s)
    ensures f < |s.fibers| && SuspendedOk(Dispose(s, w, f))
  {
    assert WorkerOk(s.workers[w], s.tasks, s.fibers);
    assert s.fibers[f].ctx.Suspended? ==> LivesIn(s, f);
    SuspendedFrame(s, Dispose(s, w, f), s.workers[w].hand.value, f);
  }

  lemma SuspendedPrepare(s: Global, w: nat)
    requires Inv(s) && w < |s.workers| && SuspendedOk(s)
    requires s.workers[w].pc.Holding? && s.workers[w].pc.ft.Some? && s.workers[w].pc.ft.value.item.OfCallback?
    ensures SuspendedOk(Choose(s, w))
  {
    var x := s.workers[w];
    assert WorkerOk(x, s.tasks, s.fibers) && PoolUnused(x, s.tasks, s.fibers);
    SuspendedFrame(s, Choose(s, w), x.hand.value, if x.pool.Some? then x.pool.value else |s.fibers|);
  }

  lemma SuspendedChoose(s: Global, w: nat)
    requires Inv(s) && w < |s.workers| && s.workers[w].pc.Holding? && SuspendedOk(s)
    ensures SuspendedOk(Choose(s, w))
  {
    var ft := s.workers[w].pc.ft;
    if ft.Some? && ft.value.item.OfCallback? { SuspendedPrepare(s, w); } else { SuspendedSame(s, Choose(s, w)); }
  }

  lemma SuspendedSwapIn(s: Global, w: nat, f: nat)
    requires Inv(s) && w < |s.workers| && s.workers[w].pc == Counted(f) && SuspendedOk(s)
    ensures SuspendedOk(SwapIn(s, w, f))
  {
    var x := s.workers[w];
    assert WorkerOk(x, s.tasks, s.fibers);
    SwapInIs(s, w, f, x.hand.value);
    SuspendedFrame(s, SwapIn(s, w, f), x.hand.value, f);
  }

  lemma SuspendedSwitch(s: Global, w: nat, f: nat, save: Context)
    requires Inv(s) && w < |s.workers| && s.workers[w].pc == Leaving(f, save) && SuspendedOk(s)
    ensures SuspendedOk(WorkerStep(s, w))
  {
    assert WorkerOk(s.workers[w], s.tasks, s.fibers);
    SuspendedFrame(s, WorkerStep(s, w), s.workers[w].hand.value, f);
  }

  lemma StepSuspended(s: Global, w: nat)
    requires Inv(s) && w < |s.workers| && SuspendedOk(s)
    ensures SuspendedOk(WorkerStep(s, w))
  {
    assert WorkerOk(s.workers[w], s.tasks, s.fibers);
    hide Inv, Perform, Dispose, SwapIn, Choose, Scan, SuspendedOk;
    match s.workers[w].pc
    case Scanning => SuspendedScan(s, w);
    case Holding(_) => SuspendedChoose(s, w);
    case Counted(f) => SuspendedSwapIn(s, w, f);
    case Executing(f, t, p) => SuspendedPerform(s, w, f, t, p);
    case Leaving(f, save) => SuspendedSwitch(s, w, f, save);
    case Uncounted(f) => SuspendedDispose(s, w, f);
    case Prepared(_) => SuspendedPlain(s, w);
    case Back(_) => SuspendedPlain(s, w);
    case IdleCounted => SuspendedPlain(s, w);
    case IdleBack => SuspendedPlain(s, w);
    case Exited => SuspendedPlain(s, w);
  }

  lemma SuspendedPlain(s: Global, w: nat)
    requires w < |s.workers| && SuspendedOk(s) && Plain(s.workers[w].pc) && !s.workers[w].pc.Leaving?
    ensures SuspendedOk(WorkerStep(s, w))
  {
    hide Perform, Dispose, SwapIn, Choose, Scan;
    SuspendedSame(s, WorkerStep(s, w));
  }

  lemma SuspendedScan(s: Global, w: nat)
    requires w < |s.workers| && SuspendedOk(s)
    ensures SuspendedOk(Scan(s, w))
  {
    SuspendedSame(s, Scan(s, w));
  }

  lemma NextSuspended(s: Global, m: Move)
    requires Inv(s) && Enabled(s, m) && SuspendedOk(s)
    ensures SuspendedOk(Next(s, m))
  {
    match m
    case StepOf(w) => StepSuspended(s, w);
    case NewTask(prog, asFiber, thread) => SuspendedSubmit(s, prog, asFiber, thread);
    case WakeTask(t, thread) => SuspendedWake(s, t, thread);
    case _ => SuspendedSame(s, Next(s, m));
  }

  // ----- reachable states

  ghost predicate Good(s: Global) {
    Inv(s) && Meaning(s.trace, s.tasks) && CountersOk(s) && BooksOk(s.workers) && SuspendedOk(s)
  }

  lemma GoodInv(s: Global)
    requires Good(s)
    ensures Inv(s)
  {
  }

  lemma {:induction false} NoneCounted(workers: seq<Worker>)
    requires forall w :: 0 <= w < |workers| ==> workers[w].pc == Scanning
    ensures ActiveOf(workers) == 0 && IdlersOf(workers) == 0
  {
    if workers != [] { NoneCounted(workers[..|workers| - 1]); }
  }

  lemma InitialGood(s: Global)
    requires Initial(s)
    ensures Good(s)
  {
    NoneCounted(s.workers);
    assert forall t: nat :: Silent(s.trace, t);
  }

  lemma NextGood(s: Global, m: Move)
    requires Good(s) && Enabled(s, m)
    ensures Good(Next(s, m))
  {
    NextKeepsInv(s, m);
    NextMeaning(s, m);
    NextCounters(s, m);
    NextSuspended(s, m);
    if m.StepOf? { StepBooks(s, m.w); }
  }

  lemma {:induction false} LeadsGood(s: Global, moves: seq<Move>, r: Global)
    requires Good(s) && Leads(s, moves, r)
    ensures Good(r)
    decreases |moves|
  {
    if moves != [] {
      NextGood(s, moves[0]);
      LeadsGood(Next(s, moves[0]), moves[1..], r);
    }
  }

  /** Every state that any interleaving of any number of workers can reach is good. */
  lemma ReachableGood(r: Global)
    requires Reachable(r)
    ensures Good(r)
  {
    var s, moves :| Initial(s) && Leads(s, moves, r);
    InitialGood(s);
    LeadsGood(s, moves, r);
  }
}
