/** Any number of worker threads inside `Scheduler::run`, as a step system.

    A step is one worker going on from one program point to the next, or outside code enqueueing
    something.  The points lie between all accesses to shared state: the scan under the lock, the
    count up, the switch into a fiber, every single action of the task, the write of the fiber's
    state before the switch back, the switch itself, the count down, and the disposal. */
module Machine {
  import opened Wrappers
  import opened Programs

  /** Where a fiber goes on: at its entry point, on some CPU, in the code of a task, or nowhere. */
  datatype Context = Entry | OnCpu | Suspended(task: nat, rest: Prog) | NeverReach

  datatype Callback = Empty | Callback(task: nat, prog: Prog)

  datatype Fiber = Fiber(state: State, cb: Callback, ctx: Context)

  datatype Item = OfFiber(f: nat) | OfCallback(prog: Prog)

  /** A queue element.  `task` is a note of whose entry it is; no step looks at it to decide. */
  datatype QueueEntry = QueueEntry(item: Item, thread: int, task: nat)

  /** Program points of `run`.  `Faulted` is a failed assertion, or a line that must not be reached. */
  datatype Pc =
    | Scanning
    | Holding(ft: Option<QueueEntry>)
    | Prepared(f: nat)
    | Counted(f: nat)
    | Executing(f: nat, task: nat, rest: Prog)
    | Leaving(f: nat, save: Context)
    | Back(f: nat)
    | Uncounted(f: nat)
    | IdleCounted
    | IdleBack
    | Exited
    | Faulted

  /** One worker.  `pool` is `cb_fiber`.  `hand` notes which task it has taken; `made` and `firsts`
      are its books: callback fibers made, and for each first slice whether it ended the callback. */
  datatype Worker = Worker(
    tid: int,
    pc: Pc,
    pool: Option<nat>,
    idleUsed: bool,
    hand: Option<nat>,
    idleTurns: nat,
    made: nat,
    firsts: seq<bool>)

  /** History: where a task is, as the steps have moved it. */
  datatype Place = InQueue | With(w: nat) | Parked | Done

  /** History of a task: its program, what is left of it, its place, the fiber it lives in, and the
      threads named by the calls that enqueued it. */
  datatype Task = Task(prog: Prog, todo: Option<Prog>, place: Place, home: Option<nat>, asked: seq<int>)

  /** `tids` tells for each event of the trace which thread it happened on; `kept` are the fibers some
      outside `Fiber::ptr` points to. */
  datatype Global = Global(
    fibers: seq<Fiber>,
    queue: seq<QueueEntry>,
    workers: seq<Worker>,
    active: int,
    idle: int,
    stoping: bool,
    autoStop: bool,
    tasks: seq<Task>,
    trace: seq<Event>,
    tids: seq<int>,
    kept: set<nat>)

  const NONE := -1

  // ----- small updates

  function SetWorker(s: Global, w: nat, x: Worker): Global
    requires w < |s.workers|
  {
    s.(workers := s.workers[w := x])
  }

  function SetPc(s: Global, w: nat, pc: Pc): Global
    requires w < |s.workers|
  {
    SetWorker(s, w, s.workers[w].(pc := pc))
  }

  function SetFiber(s: Global, f: nat, x: Fiber): Global {
    if f < |s.fibers| then s.(fibers := s.fibers[f := x]) else s
  }

  function SetTask(s: Global, t: nat, x: Task): Global {
    if t < |s.tasks| then s.(tasks := s.tasks[t := x]) else s
  }

  function Log(s: Global, w: nat, task: nat, step: Step): Global
    requires w < |s.workers|
  {
    s.(trace := s.trace + [Event(task, step)], tids := s.tids + [s.workers[w].tid])
  }

  function SetTodo(s: Global, t: nat, todo: Option<Prog>): Global {
    if t < |s.tasks| then SetTask(s, t, s.tasks[t].(todo := todo)) else s
  }

  function SetPlace(s: Global, t: nat, place: Place): Global {
    if t < |s.tasks| then SetTask(s, t, s.tasks[t].(place := place)) else s
  }

  // ----- enqueueing

  /** A new task, as a callback or as a fresh fiber. */
  function Submit(s: Global, prog: Prog, asFiber: bool, thread: int): Global {
    var t, f := |s.tasks|, |s.fibers|;
    if asFiber then
      s.(fibers := s.fibers + [Fiber(INIT, Callback(t, prog), Entry)],
         queue := s.queue + [QueueEntry(OfFiber(f), thread, t)],
         tasks := s.tasks + [Task(prog, Some(prog), InQueue, Some(f), [thread])])
    else
      s.(queue := s.queue + [QueueEntry(OfCallback(prog), thread, t)],
         tasks := s.tasks + [Task(prog, Some(prog), InQueue, None, [thread])])
  }

  predicate Queues(q: seq<QueueEntry>, f: nat) {
    exists i :: 0 <= i < |q| && q[i].item == OfFiber(f)
  }

  /** The fiber a worker has in `ft` or in use in `cb_fiber`. */
  function PcFiber(pc: Pc): Option<nat> {
    match pc
    case Prepared(f) => Some(f)
    case Counted(f) => Some(f)
    case Executing(f, _, _) => Some(f)
    case Leaving(f, _) => Some(f)
    case Back(f) => Some(f)
    case Uncounted(f) => Some(f)
    case Holding(Some(e)) => if e.item.OfFiber? then Some(e.item.f) else None
    case _ => None
  }

  predicate Held(workers: seq<Worker>, f: nat) {
    exists w :: 0 <= w < |workers| && PcFiber(workers[w].pc) == Some(f)
  }

  /** The discipline for enqueueing a fiber that has run: it is on hold, nobody has queued it and no
      worker has it. */
  predicate MayWake(s: Global, f: nat) {
    f < |s.fibers| && s.fibers[f].state == HOLD && !Queues(s.queue, f) && !Held(s.workers, f)
  }

  /** Enqueue the fiber of task `t`, if the discipline lets its owner do so now. */
  function WakeUp(s: Global, t: nat, thread: int): Global {
    if t < |s.tasks| && s.tasks[t].home.Some? && MayWake(s, s.tasks[t].home.value) then
      SetTask(s, t, s.tasks[t].(place := InQueue, asked := s.tasks[t].asked + [thread]))
        .(queue := s.queue + [QueueEntry(OfFiber(s.tasks[t].home.value), thread, t)])
    else s
  }

  // ----- the scan

  predicate Mine(e: QueueEntry, me: int) { e.thread == NONE || e.thread == me }

  predicate Eligible(e: QueueEntry, fibers: seq<Fiber>, me: int) {
    Mine(e, me) && !(e.item.OfFiber? && e.item.f < |fibers| && fibers[e.item.f].state == EXEC)
  }

  function ScanFrom(q: seq<QueueEntry>, fibers: seq<Fiber>, me: int, i: nat): (k: nat)
    requires i <= |q|
    ensures i <= k <= |q|
    ensures forall j :: i <= j < k ==> !Eligible(q[j], fibers, me)
    ensures k < |q| ==> Eligible(q[k], fibers, me)
    decreases |q| - i
  {
    if i == |q| || Eligible(q[i], fibers, me) then i else ScanFrom(q, fibers, me, i + 1)
  }

  /** Lines 109-131: reset `ft`, then take the first eligible entry out of the queue. */
  function Scan(s: Global, w: nat): Global
    requires w < |s.workers|
  {
    var x := s.workers[w];
    var k := ScanFrom(s.queue, s.fibers, x.tid, 0);
    if k == |s.queue| then SetPc(s, w, Holding(None))
    else
      var e := s.queue[k];
      SetPlace(SetWorker(s.(queue := s.queue[..k] + s.queue[k + 1..]), w,
                         x.(pc := Holding(Some(e)), hand := Some(e.task))),
               e.task, With(w))
  }

  predicate IsOver(state: State) { state == TERM || state == EXCEPT }

  /** Lines 135-138, 149-157, 171-181: choose the branch. */
  function Choose(s: Global, w: nat): Global
    requires w < |s.workers| && s.workers[w].pc.Holding?
  {
    match s.workers[w].pc.ft
    case Some(QueueEntry(OfFiber(f), _, _)) =>
      if f < |s.fibers| && !IsOver(s.fibers[f].state) then SetPc(s, w, Counted(f)).(active := s.active + 1)
      else IdleBranch(s, w)
    case Some(QueueEntry(OfCallback(prog), _, t)) => Prepare(s, w, t, prog)
    case None => IdleBranch(s, w)
  }

  /** Lines 150-156: the pooled fiber if there is one, else a new one. */
  function Prepare(s: Global, w: nat, t: nat, prog: Prog): Global
    requires w < |s.workers|
  {
    var x := s.workers[w];
    var ready := Fiber(INIT, Callback(t, prog), Entry);
    match x.pool
    case Some(g) =>
      if g < |s.fibers| && (IsOver(s.fibers[g].state) || s.fibers[g].state == INIT) then
        SetHome(SetFiber(SetPc(s, w, Prepared(g)), g, ready), t, Some(g))
      else SetPc(s, w, Faulted)
    case None =>
      var g := |s.fibers|;
      SetHome(SetWorker(s.(fibers := s.fibers + [ready]), w,
                        x.(pc := Prepared(g), pool := Some(g), made := x.made + 1)),
              t, Some(g))
  }

  function SetHome(s: Global, t: nat, home: Option<nat>): Global {
    if t < |s.tasks| then SetTask(s, t, s.tasks[t].(home := home)) else s
  }

  function IdleBranch(s: Global, w: nat): Global
    requires w < |s.workers|
  {
    var x := s.workers[w];
    if x.idleUsed then SetPc(s, w, Exited)
    else SetWorker(s, w, x.(pc := IdleCounted, idleTurns := x.idleTurns + 1)).(idle := s.idle + 1)
  }

  /** `swap_in`: the assertion, the state, and the loaded context. */
  function SwapIn(s: Global, w: nat, f: nat): Global
    requires w < |s.workers|
  {
    if f >= |s.fibers| || s.fibers[f].state == EXEC then SetPc(s, w, Faulted)
    else
      var fb := s.fibers[f];
      var b := SetFiber(s, f, fb.(state := EXEC, ctx := OnCpu));
      match fb.ctx
      case Entry => if fb.cb.Callback? then SetPc(b, w, Executing(f, fb.cb.task, fb.cb.prog)) else SetPc(s, w, Faulted)
      case Suspended(t, rest) => SetPc(b, w, Executing(f, t, rest))
      case OnCpu => SetPc(s, w, Faulted)
      case NeverReach => SetPc(s, w, Faulted)
  }

  /** The next action leaves the CPU with the task. */
  predicate GoesOn(p: Prog) {
    p.Then? && !p.act.YieldReady? && !p.act.YieldHold? && !p.act.SwapOut?
  }

  /** One action of the task on the CPU.  A yield or the end of the callback first writes the
      fiber's state; the switch is the next step. */
  function Perform(s: Global, w: nat, f: nat, t: nat, p: Prog): Global
    requires w < |s.workers| && f < |s.fibers|
  {
    var fb := s.fibers[f];
    match p
    case Return => Leave(Log(s, w, t, Returned), w, f, fb.(state := TERM, cb := Empty), t, None)
    case Throw => Leave(Log(s, w, t, Threw), w, f, fb.(state := EXCEPT), t, None)
    case Then(act, rest) =>
      var b := Log(s, w, t, Did(act));
      match act
      case Work(_) => Continue(b, w, f, t, rest)
      case Spawn(child, asFiber, thread) => Submit(Continue(b, w, f, t, rest), child, asFiber, thread)
      case Wake(u, thread) => WakeUp(Continue(b, w, f, t, rest), u, thread)
      // The discipline: a fiber that is running is not enqueued.
      case WakeSelf(_) => Continue(b, w, f, t, rest)
      case YieldReady => Leave(b, w, f, fb.(state := READY), t, Some(rest))
      case YieldHold => Leave(b, w, f, fb.(state := HOLD), t, Some(rest))
      case SwapOut => Leave(b, w, f, fb, t, Some(rest))
  }

  function Continue(s: Global, w: nat, f: nat, t: nat, rest: Prog): Global
    requires w < |s.workers|
  {
    SetTodo(SetPc(s, w, Executing(f, t, rest)), t, Some(rest))
  }

  function Leave(s: Global, w: nat, f: nat, fb: Fiber, t: nat, todo: Option<Prog>): Global
    requires w < |s.workers|
  {
    var save := match todo case Some(rest) => Suspended(t, rest) case None => NeverReach;
    SetTodo(SetPc(SetFiber(s, f, fb), w, Leaving(f, save)), t, todo)
  }

  /** Lines 142-148 and 161-170: requeue without a pin, park, drop, or take back into the pool. */
  function Dispose(s: Global, w: nat, f: nat): Global
    requires w < |s.workers| && f < |s.fibers|
  {
    var x, fb := s.workers[w], s.fibers[f];
    var t := if x.hand.Some? then x.hand.value else 0;
    var viaPool, over := x.pool == Some(f), IsOver(fb.state);
    var place := if fb.state == READY then InQueue else if over then Done else Parked;
    var rest := x.(pc := Scanning, hand := None,
                   pool := if viaPool && !over then None else x.pool,
                   firsts := if viaPool then x.firsts + [over] else x.firsts);
    var left := if over then (if viaPool then Fiber(INIT, Empty, Entry) else fb)
                else fb.(state := if fb.state == READY then READY else HOLD);
    var b := SetFiber(SetPlace(SetWorker(s, w, rest), t, place), f, left);
    if place == InQueue then b.(queue := s.queue + [QueueEntry(OfFiber(f), NONE, t)])
    else if over && viaPool then SetHome(b, t, None)
    else b
  }

  /** One step of worker `w`. */
  function WorkerStep(s: Global, w: nat): Global
    requires w < |s.workers|
  {
    var x := s.workers[w];
    match x.pc
    case Scanning => Scan(s, w)
    case Holding(_) => Choose(s, w)
    case Prepared(f) => SetPc(s, w, Counted(f)).(active := s.active + 1)
    case Counted(f) => SwapIn(s, w, f)
    case Executing(f, t, p) => if f < |s.fibers| then Perform(s, w, f, t, p) else SetPc(s, w, Faulted)
    case Leaving(f, save) =>
      if f < |s.fibers| then SetPc(SetFiber(s, f, s.fibers[f].(ctx := save)), w, Back(f)) else SetPc(s, w, Faulted)
    case Back(f) => SetPc(s, w, Uncounted(f)).(active := s.active - 1)
    case Uncounted(f) => if f < |s.fibers| then Dispose(s, w, f) else SetPc(s, w, Faulted)
    case IdleCounted => SetWorker(s, w, x.(pc := IdleBack, idleUsed := true))
    case IdleBack => SetPc(s, w, Scanning).(idle := s.idle - 1)
    case Exited => s
    case Faulted => s
  }

  /** What outside code may do: submit, wake under the discipline, set the stop flags, copy or drop
      a pointer to a fiber that some pointer still leads to. */
  datatype Move =
    | StepOf(w: nat)
    | NewTask(prog: Prog, asFiber: bool, thread: int)
    | WakeTask(task: nat, thread: int)
    | SetStop(autoStop: bool, stoping: bool)
    | KeepPointer(f: nat)
    | DropPointer(f: nat)

  predicate Runs(x: Worker) { !x.pc.Exited? && !x.pc.Faulted? }

  predicate Enabled(s: Global, m: Move) {
    match m
    case StepOf(w) => w < |s.workers| && Runs(s.workers[w])
    case KeepPointer(f) => Owned(s, f)
    case _ => true
  }

  function Next(s: Global, m: Move): Global
    requires Enabled(s, m)
  {
    match m
    case StepOf(w) => WorkerStep(s, w)
    case NewTask(prog, asFiber, thread) => Submit(s, prog, asFiber, thread)
    case WakeTask(t, thread) => WakeUp(s, t, thread)
    case SetStop(a, b) => s.(autoStop := a, stoping := b)
    case KeepPointer(f) => s.(kept := s.kept + {f})
    case DropPointer(f) => s.(kept := s.kept - {f})
  }

  // ----- who keeps a fiber alive

  /** Some shared pointer leads to the fiber: a queue entry, a worker's `ft` or `cb_fiber`, outside
      code, or the `cur` of `MainFunc` on the fiber's own stack while its callback is not over. */
  predicate Owned(s: Global, f: nat) {
    || Queues(s.queue, f)
    || Draws(s.workers, f)
    || Pools(s.workers, f)
    || f in s.kept
    || MidProgram(s, f)
  }

  /** Some worker's `ft` holds the fiber. */
  predicate Draws(workers: seq<Worker>, f: nat) {
    exists w :: 0 <= w < |workers| && PcFiber(workers[w].pc) == Some(f) && workers[w].pool != Some(f)
  }

  predicate Pools(workers: seq<Worker>, f: nat) {
    exists w :: 0 <= w < |workers| && workers[w].pool == Some(f)
  }

  /** The fiber's stack holds frames of an unfinished callback. */
  predicate MidProgram(s: Global, f: nat) {
    f < |s.fibers| &&
    (s.fibers[f].ctx.Suspended? || (s.fibers[f].ctx.OnCpu? && !IsOver(s.fibers[f].state)))
  }

  // ----- runs

  /** A start: workers at the top of the loop, nothing submitted yet. */
  predicate Initial(s: Global) {
    && s.fibers == [] && s.queue == [] && s.tasks == [] && s.trace == [] && s.tids == [] && s.kept == {}
    && s.active == 0 && s.idle == 0
    && (forall w :: 0 <= w < |s.workers| ==>
          s.workers[w] == Worker(s.workers[w].tid, Scanning, None, false, None, 0, 0, []))
    && (forall w :: 0 <= w < |s.workers| ==> s.workers[w].tid != NONE)
    && (forall v, w :: 0 <= v < w < |s.workers| ==> s.workers[v].tid != s.workers[w].tid)
  }

  /** The moves can be made one after the other from `s`, and lead to `r`. */
  ghost predicate Leads(s: Global, moves: seq<Move>, r: Global)
    decreases |moves|
  {
    if moves == [] then r == s
    else Enabled(s, moves[0]) && Leads(Next(s, moves[0]), moves[1..], r)
  }

  ghost predicate Reachable(r: Global) {
    exists s, moves :: Initial(s) && Leads(s, moves, r)
  }
}
