/** What comes of every call that asks for a task, over all interleavings: each is answered by an entry,
    and each entry by exactly one turn. */
module Calls {
  import opened Wrappers
  import opened Programs
  import opened Machine
  import opened Ownership
  import opened Interleaving
  import opened WorkerLaws
  import opened States
  import opened Pins
  import opened Progress
  import opened Handover

  /** What a move asks of the scheduler: a new task, a turn for one that exists, or nothing. */
  datatype Ask = New(prog: Prog, asFiber: bool, thread: int) | Again(task: nat, thread: int) | Nothing

  /** Outside code asks by calling, and a task by doing so in its next step. */
  function AskedBy(s: Global, m: Move): Ask {
    match m
    case NewTask(prog, asFiber, thread) => New(prog, asFiber, thread)
    case WakeTask(t, thread) => Again(t, thread)
    case StepOf(w) => if w < |s.workers| && s.workers[w].pc.Executing? then AskedNext(s.workers[w].pc.rest) else Nothing
    case SetStop(_, _) => Nothing
    case KeepPointer(_) => Nothing
    case DropPointer(_) => Nothing
  }

  function AskedNext(p: Prog): Ask {
    if p.Then? && p.act.Spawn? then New(p.act.child, p.act.asFiber, p.act.thread)
    else if p.Then? && p.act.Wake? then Again(p.act.task, p.act.thread)
    else Nothing
  }

  /** A call for an existing task has an effect if the task is parked. */
  predicate Counts(s: Global, ask: Ask) {
    ask.New? || (ask.Again? && ask.task < |s.tasks| && s.tasks[ask.task].place == Parked)
  }

  /** The task that is asked for. */
  function Subject(s: Global, ask: Ask): nat
    requires Counts(s, ask)
  {
    if ask.New? then |s.tasks| else ask.task
  }

  /** Every task keeps its program; the one that is asked for has one more call to its name. */
  ghost predicate TasksAnswer(s: Global, r: Global, ask: Ask) {
    && |r.tasks| == |s.tasks| + (if ask.New? then 1 else 0)
    && (forall u :: 0 <= u < |s.tasks| ==> r.tasks[u].prog == s.tasks[u].prog)
    && (forall u :: 0 <= u < |s.tasks| ==>
          r.tasks[u].asked == s.tasks[u].asked + (if ask.Again? && ask.task == u && Counts(s, ask) then [ask.thread] else []))
    && (ask.New? ==>
          var k := r.tasks[|s.tasks|];
          k.prog == ask.prog && k.todo == Some(ask.prog) && k.asked == [ask.thread] && k.place == InQueue
          && (k.home.Some? <==> ask.asFiber))
  }

  /** The queue has one more entry, at its end, for that task and with the pin of the call. */
  ghost predicate QueueAnswers(s: Global, r: Global, ask: Ask) {
    Counts(s, ask) ==>
      && |r.queue| == |s.queue| + 1 && r.queue[..|s.queue|] == s.queue
      && r.queue[|s.queue|].task == Subject(s, ask) && r.queue[|s.queue|].thread == ask.thread
  }

  ghost predicate Answers(s: Global, r: Global, ask: Ask) {
    TasksAnswer(s, r, ask) && QueueAnswers(s, r, ask)
  }

  lemma SubmitAnswers(s: Global, prog: Prog, asFiber: bool, thread: int)
    ensures Answers(s, Submit(s, prog, asFiber, thread), New(prog, asFiber, thread))
  {
  }

  lemma WakeAnswers(s: Global, t: nat, thread: int)
    requires Inv(s)
    ensures Answers(s, WakeUp(s, t, thread), Again(t, thread))
  {
    if t < |s.tasks| && s.tasks[t].place == Parked {
      assert Settled(t, s.tasks[t], s.fibers);
      MayWakeIsParked(s, t);
    } else if t < |s.tasks| {
      WakeNot(s, t, thread);
    }
  }

  /** Work between two states that changes no task's calls and not the queue. */
  ghost predicate Prepares(s: Global, b: Global) {
    && b.queue == s.queue && |b.tasks| == |s.tasks|
    && forall u :: 0 <= u < |s.tasks| ==>
         b.tasks[u].prog == s.tasks[u].prog && b.tasks[u].asked == s.tasks[u].asked && b.tasks[u].place == s.tasks[u].place
  }

  lemma AnswersAfter(s: Global, b: Global, r: Global, ask: Ask)
    requires Prepares(s, b) && Answers(b, r, ask)
    ensures Answers(s, r, ask)
  {
  }

  lemma ContinuePrepares(s: Global, w: nat, f: nat, t: nat, act: Act, rest: Prog)
    requires w < |s.workers|
    ensures Prepares(s, Continue(Log(s, w, t, Did(act)), w, f, t, rest))
  {
  }

  lemma NothingAnswers(s: Global, r: Global)
    requires |r.tasks| == |s.tasks|
    requires forall u :: 0 <= u < |s.tasks| ==> r.tasks[u].prog == s.tasks[u].prog && r.tasks[u].asked == s.tasks[u].asked
    ensures Answers(s, r, Nothing)
  {
  }

  lemma PerformAnswers(s: Global, w: nat, f: nat, t: nat, p: Prog)
    requires Inv(s) && w < |s.workers| && s.workers[w].pc == Executing(f, t, p) && f < |s.fibers|
    ensures Answers(s, Perform(s, w, f, t, p), AskedNext(p))
  {
    hide Answers, Continue, Submit, WakeUp, Prepares, Leave;
    ExecutingFacts(s, w, f, t, p);
    if GoesOn(p) {
      var b := Continue(Log(s, w, t, Did(p.act)), w, f, t, p.rest);
      ContinuePrepares(s, w, f, t, p.act, p.rest);
      ContinueStep(s, w, f, t, p, Did(p.act), p.rest);
      match p.act
      case Work(_) => NothingIs(s, b);
      case WakeSelf(_) => NothingIs(s, b);
      case Spawn(child, asFiber, thread) =>
        SubmitAnswers(b, child, asFiber, thread);
        AnswersAfter(s, b, Submit(b, child, asFiber, thread), AskedNext(p));
      case Wake(u, thread) =>
        WakeAnswers(b, u, thread);
        AnswersAfter(s, b, WakeUp(b, u, thread), AskedNext(p));
    } else {
      LeaveHistory(s, w, f, t, p);
      LeaveProgs(s, w, f, t, p);
      NothingAnswers(s, Perform(s, w, f, t, p));
    }
  }

  lemma NothingIs(s: Global, b: Global)
    requires Prepares(s, b)
    ensures Answers(s, b, Nothing)
  {
  }

  lemma LeaveProgs(s: Global, w: nat, f: nat, t: nat, p: Prog)
    requires w < |s.workers| && f < |s.fibers| && t < |s.tasks| && !GoesOn(p)
    ensures var r := Perform(s, w, f, t, p);
      |r.tasks| == |s.tasks| && forall u :: 0 <= u < |s.tasks| ==> r.tasks[u].prog == s.tasks[u].prog
  {
    hide Perform;
    PerformTodo(s, w, f, t, p);
  }

  lemma QuietAsked(s: Global, w: nat)
    requires Inv(s) && w < |s.workers| && Runs(s.workers[w]) && !s.workers[w].pc.Executing?
    ensures |WorkerStep(s, w).tasks| == |s.tasks|
    ensures forall u :: 0 <= u < |s.tasks| ==> WorkerStep(s, w).tasks[u].asked == s.tasks[u].asked
  {
    hide Inv, Perform, Dispose, Choose, Scan, SwapIn;
    PcFibers(s, w);
    QuietStep(s, w);
    if Plain(s.workers[w].pc) { PlainHistory(s, w); }
    match s.workers[w].pc
    case Scanning =>
      StepScans(s, w);
      ScanAsked(s, w);
      forall u | 0 <= u < |s.tasks| ensures WorkerStep(s, w).tasks[u].asked == s.tasks[u].asked {
        assert Same(s, Scan(s, w), u);
      }
    case Counted(f) => SwapInHistory(s, w, f);
    case Holding(_) => ChooseHistory(s, w);
    case Uncounted(f) =>
      forall u | 0 <= u < |s.tasks| ensures Dispose(s, w, f).tasks[u].asked == s.tasks[u].asked { DisposeAsked(s, w, f, u); }
    case _ =>
  }

  lemma StepAnswers(s: Global, w: nat)
    requires Inv(s) && w < |s.workers| && Runs(s.workers[w])
    ensures Answers(s, WorkerStep(s, w), AskedBy(s, StepOf(w)))
  {
    hide Inv, Answers, WorkerStep;
    var pc := s.workers[w].pc;
    if pc.Executing? {
      ExecutingFacts(s, w, pc.f, pc.task, pc.rest);
      StepPerforms(s, w, pc.f, pc.task, pc.rest);
      PerformAnswers(s, w, pc.f, pc.task, pc.rest);
    } else {
      QuietAsked(s, w);
      QuietStep(s, w);
      NothingAnswers(s, WorkerStep(s, w));
    }
  }

  /** Every call has its effect and nothing else has: a new task gets the program, the first entry and the
      pin that were asked for; a parked one an entry at the end of the queue with the pin of the call; and
      without a call no task comes to be and none is asked for. */
  lemma EveryCallIsAnswered(s: Global, m: Move)
    requires Reachable(s) && (m.StepOf? || m.KeepPointer? ==> Enabled(s, m))
    ensures Answers(s, Next(s, m), AskedBy(s, m))
  {
    ReachableGood(s);
    MoveAnswers(s, m);
  }

  lemma MoveAnswers(s: Global, m: Move)
    requires Inv(s) && Enabled(s, m)
    ensures Answers(s, Next(s, m), AskedBy(s, m))
  {
    hide Inv, Answers, WorkerStep, Submit, WakeUp;
    match m
    case StepOf(w) => StepAnswers(s, w);
    case NewTask(prog, asFiber, thread) => SubmitAnswers(s, prog, asFiber, thread);
    case WakeTask(t, thread) => WakeAnswers(s, t, thread);
    case SetStop(_, _) => NothingAnswers(s, Next(s, m));
    case KeepPointer(_) => NothingAnswers(s, Next(s, m));
    case DropPointer(_) => NothingAnswers(s, Next(s, m));
  }

  // ----- and the queue keeps its order

  /** The entries that a move adds, each a task and a pin: for the task that is asked for, or for the one in
      the worker's hand if the last it did was to yield READY. */
  function Added(s: Global, m: Move): seq<(nat, int)>
    requires Enabled(s, m)
  {
    if Counts(s, AskedBy(s, m)) then [(Subject(s, AskedBy(s, m)), AskedBy(s, m).thread)]
    else if m.StepOf? && s.workers[m.w].pc.Uncounted? && s.workers[m.w].hand.Some?
      && Last(s.trace, s.workers[m.w].hand.value) == Some(Did(YieldReady)) then [(s.workers[m.w].hand.value, NONE)]
    else []
  }

  /** Nothing in the queue has moved, and these entries have come behind it. */
  ghost predicate Lengthened(q: seq<QueueEntry>, r: seq<QueueEntry>, more: seq<(nat, int)>) {
    && |r| == |q| + |more| && r[..|q|] == q
    && forall i :: 0 <= i < |more| ==> (r[|q| + i].task, r[|q| + i].thread) == more[i]
  }

  lemma PerformIdles(s: Global, w: nat, f: nat, t: nat, p: Prog)
    requires Inv(s) && w < |s.workers| && s.workers[w].pc == Executing(f, t, p) && f < |s.fibers|
    requires !Counts(s, AskedNext(p))
    ensures Perform(s, w, f, t, p).queue == s.queue
  {
    hide Continue, Submit, WakeUp, Leave;
    ExecutingFacts(s, w, f, t, p);
    if GoesOn(p) {
      var b := Continue(Log(s, w, t, Did(p.act)), w, f, t, p.rest);
      ContinuePrepares(s, w, f, t, p.act, p.rest);
      ContinueStep(s, w, f, t, p, Did(p.act), p.rest);
      if p.act.Wake? { WakeIdles(b, p.act.task, p.act.thread); }
    } else {
      LeaveHistory(s, w, f, t, p);
    }
  }

  lemma WakeIdles(s: Global, t: nat, thread: int)
    requires Inv(s) && (t < |s.tasks| ==> s.tasks[t].place != Parked)
    ensures WakeUp(s, t, thread).queue == s.queue
  {
    if t < |s.tasks| { WakeNot(s, t, thread); }
  }

  lemma DisposeAdds(s: Global, w: nat, f: nat)
    requires Inv(s) && AllTell(s) && w < |s.workers| && s.workers[w].pc == Uncounted(f) && f < |s.fibers|
    ensures s.workers[w].hand.Some?
    ensures Lengthened(s.queue, Dispose(s, w, f).queue,
      if Last(s.trace, s.workers[w].hand.value) == Some(Did(YieldReady)) then [(s.workers[w].hand.value, NONE)] else [])
  {
    hide QueueOk, HandsOk, HomesOk, ShapesOk, PoolsOk, Dispose, Last;
    assert WorkerOk(s.workers[w], s.tasks, s.fibers) && WorkerTells(s, s.workers[w]);
    DisposeAppends(s, w, f);
  }

  lemma DisposeAppends(s: Global, w: nat, f: nat)
    requires w < |s.workers| && f < |s.fibers| && s.workers[w].hand.Some?
    ensures Lengthened(s.queue, Dispose(s, w, f).queue,
      if s.fibers[f].state == READY then [(s.workers[w].hand.value, NONE)] else [])
  {
  }

  lemma QuietAdds(s: Global, w: nat)
    requires Inv(s) && AllTell(s) && w < |s.workers| && Runs(s.workers[w])
    requires !s.workers[w].pc.Executing? && s.workers[w].pc != Scanning
    ensures Lengthened(s.queue, WorkerStep(s, w).queue, Added(s, StepOf(w)))
  {
    hide Inv, AllTell, Perform, Dispose, Choose, Scan, SwapIn, Last;
    PcFibers(s, w);
    match s.workers[w].pc
    case Counted(f) => SwapInHistory(s, w, f);
    case Holding(_) => ChooseHistory(s, w);
    case Uncounted(f) => DisposeAdds(s, w, f);
    case _ => PlainPcs(s, w); PlainHistory(s, w);
  }

  lemma AskAdds(s: Global, m: Move)
    requires Inv(s) && Enabled(s, m) && Counts(s, AskedBy(s, m))
    ensures Lengthened(s.queue, Next(s, m).queue, Added(s, m))
  {
    hide Inv, WorkerStep;
    MoveAnswers(s, m);
  }

  lemma StepAdds(s: Global, w: nat)
    requires Inv(s) && AllTell(s) && w < |s.workers| && Runs(s.workers[w]) && s.workers[w].pc != Scanning
    requires !Counts(s, AskedBy(s, StepOf(w)))
    ensures Lengthened(s.queue, WorkerStep(s, w).queue, Added(s, StepOf(w)))
  {
    hide Inv, AllTell, WorkerStep;
    var pc := s.workers[w].pc;
    if pc.Executing? {
      ExecutingFacts(s, w, pc.f, pc.task, pc.rest);
      StepPerforms(s, w, pc.f, pc.task, pc.rest);
      PerformIdles(s, w, pc.f, pc.task, pc.rest);
    } else {
      QuietAdds(s, w);
    }
  }

  /** Every move but a scan leaves the queue as it is and adds at its end: an entry for the task that is
      asked for, or for the one that is put back after a yield of READY, and else nothing.  (What a scan
      takes is `WorkerLaws.DrawsFirst`.) */
  lemma QueueKeepsOrder(s: Global, m: Move)
    requires Reachable(s) && Enabled(s, m) && (m.StepOf? ==> s.workers[m.w].pc != Scanning)
    ensures Lengthened(s.queue, Next(s, m).queue, Added(s, m))
  {
    hide Good, Inv, AllTell, Added, Lengthened, WorkerStep;
    ReachableTells(s);
    GoodInv(s);
    if Counts(s, AskedBy(s, m)) {
      AskAdds(s, m);
    } else if m.StepOf? {
      StepAdds(s, m.w);
    } else {
      OutsideAdds(s, m);
    }
  }

  lemma OutsideAdds(s: Global, m: Move)
    requires Inv(s) && Enabled(s, m) && !m.StepOf? && !Counts(s, AskedBy(s, m))
    ensures Lengthened(s.queue, Next(s, m).queue, Added(s, m))
  {
    hide Inv, WakeUp;
    if m.WakeTask? { WakeIdles(s, m.task, m.thread); }
  }

  lemma ReachableTells(s: Global)
    requires Reachable(s)
    ensures Good(s) && AllTell(s)
  {
    var s0, moves :| Initial(s0) && Leads(s0, moves, s);
    InitialGood(s0);
    LeadsGood(s0, moves, s);
    LeadsTells(s0, moves, s);
  }

  // ----- and the one who was asked for can go on

  /** What the task that is asked for will do first. */
  function FirstThing(s: Global, ask: Ask): Step
    requires Counts(s, ask)
  {
    if ask.New? then FirstStep(ask.prog) else NextStep(s, ask.task)
  }

  lemma AskedTodo(s: Global, m: Move)
    requires Inv(s) && Enabled(s, m) && Counts(s, AskedBy(s, m))
    ensures var r, ask := Next(s, m), AskedBy(s, m);
      Subject(s, ask) < |r.tasks| && NextStep(r, Subject(s, ask)) == FirstThing(s, ask)
  {
    hide Inv, WorkerStep;
    var ask := AskedBy(s, m);
    MoveAnswers(s, m);
    if ask.Again? {
      if m.StepOf? {
        ParkedNotHeld(s, m.w, ask.task);
        StepTodo(s, m.w, ask.task);
      } else {
        WakeTodo(s, ask.task, ask.thread, ask.task);
      }
    }
  }

  lemma ParkedNotHeld(s: Global, w: nat, t: nat)
    requires Inv(s) && w < |s.workers| && t < |s.tasks| && s.tasks[t].place == Parked
    ensures s.workers[w].hand != Some(t)
  {
  }

  lemma OthersStand(s: Global, m: Move, v: nat)
    requires Inv(s) && Enabled(s, m) && v < |s.workers| && m != StepOf(v)
    ensures v < |Next(s, m).workers| && Next(s, m).workers[v] == s.workers[v]
  {
    hide Inv, WorkerStep;
    match m
    case StepOf(w) => StepFrame(s, w);
    case NewTask(prog, asFiber, thread) => SubmitWorkers(s, prog, asFiber, thread);
    case WakeTask(t, thread) => WakeWorkers(s, t, thread);
    case _ =>
  }

  /** Whoever asks, outside code or a task, for a new task or for one that is parked: after the call any
      worker at the head of its loop that the pin allows can by its own steps alone come to do that task's
      next step, the first of its program if it is new. */
  lemma AskedRuns(s: Global, m: Move, v: nat)
    requires Reachable(s) && (m.StepOf? ==> Enabled(s, m)) && Counts(s, AskedBy(s, m))
    requires v < |s.workers| && s.workers[v].pc == Scanning
    requires AskedBy(s, m).thread == NONE || AskedBy(s, m).thread == s.workers[v].tid
    ensures var ask := AskedBy(s, m);
      exists r :: Alone(Next(s, m), v, r) && RanLast(r, Subject(s, ask), FirstThing(s, ask), s.workers[v].tid)
  {
    hide Good, Inv, Reachable, Alone, RanLast, Next, TasksAnswer;
    var q, ask := Next(s, m), AskedBy(s, m);
    ReachableGood(s);
    GoodInv(s);
    NextGood(s, m);
    MoveAnswers(s, m);
    AskedTodo(s, m);
    OthersStand(s, m, v);
    var a := DrawsEntry(q, v, |s.queue|);
    var r := ActsNext(a, v, Subject(s, ask));
    AloneTrans(q, v, a, r);
  }

  // ----- one turn for each call, and one more for each yield of READY

  /** Turns the task has coming: one if it is queued or about to run, and one if it has yielded READY and is
      on its way back into the queue. */
  function Coming(s: Global, t: nat): nat
    requires t < |s.tasks|
  {
    match s.tasks[t].place
    case InQueue => 1
    case Parked => 0
    case Done => 0
    case With(w) =>
      if w >= |s.workers| then 0
      else if Entering(s.workers[w].pc) || s.workers[w].pc.Executing? then 1
      else if Last(s.trace, t) == Some(Did(YieldReady)) then 1
      else 0
  }

  /** The turns a task has had and has coming are those it was asked to take and those it asked for. */
  ghost predicate Settles(s: Global, t: nat)
    requires t < |s.tasks|
  {
    Turns(Projection(s.trace, t)) + Coming(s, t) == |s.tasks[t].asked| + Readies(Projection(s.trace, t))
  }

  ghost predicate AllSettle(s: Global) {
    forall t :: 0 <= t < |s.tasks| ==> Settles(s, t)
  }

  /** Nothing that decides about the task has changed. */
  lemma SettlesSame(s: Global, r: Global, t: nat)
    requires t < |s.tasks| && t < |r.tasks| && Settles(s, t)
    requires Projection(r.trace, t) == Projection(s.trace, t)
    requires Coming(r, t) - |r.tasks[t].asked| == Coming(s, t) - |s.tasks[t].asked|
    ensures Settles(r, t)
  {
  }

  lemma SubmitSettles(s: Global, prog: Prog, asFiber: bool, thread: int)
    requires Inv(s) && AllSettle(s) && Silent(s.trace, |s.tasks|)
    ensures AllSettle(Submit(s, prog, asFiber, thread))
  {
    hide Turns, Readies, Projection;
    var r := Submit(s, prog, asFiber, thread);
    forall t | 0 <= t < |r.tasks| ensures Settles(r, t) {
      if t < |s.tasks| {
        SettlesSame(s, r, t);
      } else {
        SilentCounts(s.trace, t);
      }
    }
  }

  lemma SilentCounts(trace: seq<Event>, t: nat)
    requires Silent(trace, t)
    ensures Turns(Projection(trace, t)) == Readies(Projection(trace, t)) == 0
  {
  }

  lemma WakeSettles(s: Global, t: nat, thread: int)
    requires Inv(s) && AllSettle(s)
    ensures AllSettle(WakeUp(s, t, thread))
  {
    hide Turns, Readies, Projection;
    var r := WakeUp(s, t, thread);
    if t < |s.tasks| && s.tasks[t].place == Parked {
      assert Settled(t, s.tasks[t], s.fibers);
      MayWakeIsParked(s, t);
      forall u | 0 <= u < |r.tasks| ensures Settles(r, u) {
        SettlesSame(s, r, u);
      }
    } else if t < |s.tasks| {
      WakeNot(s, t, thread);
    }
  }

  /** A step of task `t`, which worker `w` has on its CPU before and has there or on its way back after. */
  lemma LogSettles(s: Global, r: Global, w: nat, t: nat, step: Step)
    requires AllSettle(s) && w < |s.workers| == |r.workers| && t < |s.tasks| == |r.tasks|
    requires s.tasks[t].place == With(w) && s.workers[w].pc.Executing?
    requires r.trace == s.trace + [Event(t, step)]
    requires forall u :: 0 <= u < |s.tasks| ==> r.tasks[u].asked == s.tasks[u].asked && r.tasks[u].place == s.tasks[u].place
    requires forall u :: 0 <= u < |s.tasks| && u != t ==> s.tasks[u].place != With(w)
    requires forall v :: 0 <= v < |s.workers| && v != w ==> r.workers[v] == s.workers[v]
    requires if EndsTurn(step) then r.workers[w].pc.Leaving? else r.workers[w].pc.Executing?
    ensures AllSettle(r)
  {
    forall u | 0 <= u < |r.tasks| ensures Settles(r, u) {
      ProjectionSnoc(s.trace, Event(t, step), u);
      LastSnoc(s.trace, Event(t, step), u);
      if u == t {
        TurnsSnoc(Projection(s.trace, t), step);
        assert Coming(s, t) == 1 && Settles(s, t);
        assert Coming(r, t) == if !EndsTurn(step) || step == Did(YieldReady) then 1 else 0;
      } else {
        SettlesSame(s, r, u);
      }
    }
  }

  /** The worker is on the same side of its task's slice. */
  predicate SameSide(pc: Pc, later: Pc) {
    (Entering(pc) || pc.Executing?) <==> (Entering(later) || later.Executing?)
  }

  /** A step that moves no task, and leaves the worker on the same side of its slice if it has one. */
  lemma MovesNobody(s: Global, r: Global, w: nat)
    requires w < |s.workers| == |r.workers| && |s.tasks| == |r.tasks| && r.trace == s.trace
    requires r.workers == s.workers[w := r.workers[w]]
    requires SameSide(s.workers[w].pc, r.workers[w].pc) || forall u :: 0 <= u < |s.tasks| ==> s.tasks[u].place != With(w)
    requires forall u :: 0 <= u < |s.tasks| ==> r.tasks[u].place == s.tasks[u].place
    ensures forall u :: 0 <= u < |s.tasks| ==> Coming(r, u) == Coming(s, u)
  {
  }

  /** A step that moves the task in the worker's hand, before or after. */
  lemma MovesOne(s: Global, r: Global, w: nat, t: nat)
    requires w < |s.workers| == |r.workers| && t < |s.tasks| == |r.tasks| && r.trace == s.trace
    requires r.workers == s.workers[w := r.workers[w]]
    requires forall u :: 0 <= u < |s.tasks| && u != t ==> r.tasks[u].place == s.tasks[u].place && s.tasks[u].place != With(w)
    requires Coming(r, t) == Coming(s, t)
    ensures forall u :: 0 <= u < |s.tasks| ==> Coming(r, u) == Coming(s, u)
  {
  }

  lemma ScanComing(s: Global, w: nat)
    requires Inv(s) && w < |s.workers| && s.workers[w].pc == Scanning
    ensures var r := Scan(s, w); |r.tasks| == |s.tasks| && forall u :: 0 <= u < |s.tasks| ==> Coming(r, u) == Coming(s, u)
  {
    QuietScan(s, w);
    ScanHistory(s, w);
    ScanningFree(s, w);
    hide Inv, Scan;
    var k := ScanFrom(s.queue, s.fibers, s.workers[w].tid, 0);
    if k < |s.queue| {
      QueuedNotHeld(s, w, k);
      GoodScan(s, w, k);
      MovesOne(s, Scan(s, w), w, s.queue[k].task);
    } else {
      GoodScan(s, w, k);
      MovesNobody(s, Scan(s, w), w);
    }
  }

  lemma GoodScan(s: Global, w: nat, k: nat)
    requires w < |s.workers| && s.workers[w].pc == Scanning && k == ScanFrom(s.queue, s.fibers, s.workers[w].tid, 0)
    ensures w < |Scan(s, w).workers| && Scan(s, w).workers[w].pc.Holding?
  {
  }

  lemma ScanningFree(s: Global, w: nat)
    requires Inv(s) && w < |s.workers| && s.workers[w].hand == None
    ensures forall u :: 0 <= u < |s.tasks| ==> s.tasks[u].place != With(w)
  {
  }

  lemma DisposeComing(s: Global, w: nat, f: nat)
    requires Inv(s) && AllTell(s) && w < |s.workers| && s.workers[w].pc == Uncounted(f) && f < |s.fibers|
    ensures var r := Dispose(s, w, f);
      |r.tasks| == |s.tasks| && forall u :: 0 <= u < |s.tasks| ==> Coming(r, u) == Coming(s, u)
  {
    hide QueueOk, HomesOk, ShapesOk, PoolsOk, Dispose, Last;
    assert WorkerOk(s.workers[w], s.tasks, s.fibers) && WorkerTells(s, s.workers[w]);
    var t := s.workers[w].hand.value;
    HandIsAlone(s, w, t);
    QuietDispose(s, w, f);
    DisposePlace(s, w, f, t);
    MovesOne(s, Dispose(s, w, f), w, t);
  }

  lemma DisposePlace(s: Global, w: nat, f: nat, t: nat)
    requires w < |s.workers| && f < |s.fibers| && s.workers[w].hand == Some(t) && t < |s.tasks|
    ensures var r, state := Dispose(s, w, f), s.fibers[f].state;
      && |r.tasks| == |s.tasks| && (forall u :: 0 <= u < |s.tasks| && u != t ==> r.tasks[u].place == s.tasks[u].place)
      && r.tasks[t].place == if state == READY then InQueue else if IsOver(state) then Done else Parked
  {
  }

  lemma QuietComing(s: Global, w: nat)
    requires Inv(s) && AllTell(s) && w < |s.workers| && Runs(s.workers[w]) && !s.workers[w].pc.Executing?
    ensures var r := WorkerStep(s, w);
      |r.tasks| == |s.tasks| && forall u :: 0 <= u < |s.tasks| ==> Coming(r, u) == Coming(s, u)
  {
    hide Perform, Dispose, Choose, Scan, SwapIn, Inv, AllTell, Coming, Plain;
    PcFibers(s, w);
    PlainPcs(s, w);
    match s.workers[w].pc
    case Scanning => ScanComing(s, w);
    case Holding(_) => HoldingComing(s, w);
    case Counted(f) => CountedComing(s, w, f);
    case Uncounted(f) => DisposeComing(s, w, f);
    case _ => PlainComing(s, w);
  }

  lemma PlainPcs(s: Global, w: nat)
    requires Inv(s) && w < |s.workers|
    ensures var pc := s.workers[w].pc;
      && HandsOk(s.workers, s.tasks)
      && (pc.IdleCounted? || pc.IdleBack? ==> s.workers[w].hand == None)
      && (Plain(pc) || pc.Scanning? || pc.Holding? || pc.Counted? || pc.Executing? || pc.Uncounted?)
  {
    assert WorkerOk(s.workers[w], s.tasks, s.fibers);
  }

  lemma PlainComing(s: Global, w: nat)
    requires HandsOk(s.workers, s.tasks) && w < |s.workers| && Plain(s.workers[w].pc) && Runs(s.workers[w])
    requires s.workers[w].pc.IdleCounted? || s.workers[w].pc.IdleBack? ==> s.workers[w].hand == None
    ensures var r := WorkerStep(s, w);
      |r.tasks| == |s.tasks| && forall u :: 0 <= u < |s.tasks| ==> Coming(r, u) == Coming(s, u)
  {
    hide Coming, Perform, Dispose, Choose, Scan, SwapIn;
    PlainHistory(s, w);
    QuietStep(s, w);
    if s.workers[w].hand == None { assert forall u :: 0 <= u < |s.tasks| ==> s.tasks[u].place != With(w); }
    MovesNobody(s, WorkerStep(s, w), w);
  }

  lemma HoldingComing(s: Global, w: nat)
    requires Inv(s) && w < |s.workers| && s.workers[w].pc.Holding?
    ensures var r := Choose(s, w);
      |r.tasks| == |s.tasks| && forall u :: 0 <= u < |s.tasks| ==> Coming(r, u) == Coming(s, u)
  {
    hide Coming, Choose;
    ChooseHistory(s, w);
    ChooseEnters(s, w);
    QuietChoose(s, w);
    if s.workers[w].hand == None {
      ScanningFree(s, w);
    } else {
      ChooseHand(s, w);
      HoldingStays(s, w);
    }
    MovesNobody(s, Choose(s, w), w);
  }

  lemma HoldingStays(s: Global, w: nat)
    requires Inv(s) && w < |s.workers| && s.workers[w].pc.Holding? && s.workers[w].hand.Some?
    ensures w < |Choose(s, w).workers| && Entering(Choose(s, w).workers[w].pc)
  {
    StepChooses(s, w);
    hide Choose, Inv, WorkerStep;
    StepKeepsInv(s, w);
    ChooseHand(s, w);
    ChooseEnters(s, w);
    InvInHand(Choose(s, w), w);
  }

  lemma StepChooses(s: Global, w: nat)
    requires w < |s.workers| && s.workers[w].pc.Holding?
    ensures WorkerStep(s, w) == Choose(s, w)
  {
    hide Choose;
  }

  lemma InvInHand(s: Global, w: nat)
    requires Inv(s) && w < |s.workers| && s.workers[w].hand.Some?
    ensures !EmptyHanded(s.workers[w].pc) && s.workers[w].pc != Faulted
  {
    assert WorkerOk(s.workers[w], s.tasks, s.fibers);
  }

  lemma CountedComing(s: Global, w: nat, f: nat)
    requires Inv(s) && w < |s.workers| && s.workers[w].pc == Counted(f)
    ensures var r := SwapIn(s, w, f);
      |r.tasks| == |s.tasks| && forall u :: 0 <= u < |s.tasks| ==> Coming(r, u) == Coming(s, u)
  {
    hide Coming, SwapIn;
    SwapInHistory(s, w, f);
    SwapInEnters(s, w, f);
    QuietSwapIn(s, w, f);
    CountedStays(s, w, f);
    MovesNobody(s, SwapIn(s, w, f), w);
  }

  lemma CountedStays(s: Global, w: nat, f: nat)
    requires Inv(s) && w < |s.workers| && s.workers[w].pc == Counted(f)
    ensures w < |SwapIn(s, w, f).workers| && SwapIn(s, w, f).workers[w].pc.Executing?
  {
    assert WorkerOk(s.workers[w], s.tasks, s.fibers);
    SwapInIs(s, w, f, s.workers[w].hand.value);
  }

  lemma QuietSettles(s: Global, w: nat)
    requires Inv(s) && AllTell(s) && AllSettle(s) && w < |s.workers| && Runs(s.workers[w]) && !s.workers[w].pc.Executing?
    ensures AllSettle(WorkerStep(s, w))
  {
    hide Inv, AllTell, WorkerStep, Turns, Readies, Projection, Coming;
    QuietComing(s, w);
    QuietAsked(s, w);
    QuietStep(s, w);
    forall u | 0 <= u < |s.tasks| ensures Settles(WorkerStep(s, w), u) { SettlesSame(s, WorkerStep(s, w), u); }
  }

  lemma LeaveSettles(s: Global, w: nat, f: nat, t: nat, p: Prog)
    requires Inv(s) && AllSettle(s) && w < |s.workers| && s.workers[w].pc == Executing(f, t, p) && f < |s.fibers|
    requires !GoesOn(p)
    ensures AllSettle(Perform(s, w, f, t, p))
  {
    hide Perform, AllSettle, PoolsOk, ShapesOk, HomesOk, QueueOk;
    ExecutingFacts(s, w, f, t, p);
    HandIsAlone(s, w, t);
    LeaveHistory(s, w, f, t, p);
    PerformIs(s, w, f, t, p);
    LeavesPc(s, w, f, t, p);
    LogSettles(s, Perform(s, w, f, t, p), w, t, FirstStep(p));
  }

  lemma LeavesPc(s: Global, w: nat, f: nat, t: nat, p: Prog)
    requires w < |s.workers| && f < |s.fibers| && !GoesOn(p)
    ensures EndsTurn(FirstStep(p)) && w < |Perform(s, w, f, t, p).workers| && Perform(s, w, f, t, p).workers[w].pc.Leaving?
  {
  }

  lemma GoOnSettles(s: Global, w: nat, f: nat, t: nat, p: Prog)
    requires Good(s) && AllSettle(s) && w < |s.workers| && s.workers[w].pc == Executing(f, t, p) && f < |s.fibers|
    requires GoesOn(p)
    ensures AllSettle(Perform(s, w, f, t, p))
  {
    hide AllSettle, PoolsOk, ShapesOk, HomesOk, QueueOk, Submit, WakeUp;
    var b := Continue(Log(s, w, t, Did(p.act)), w, f, t, p.rest);
    ExecutingFacts(s, w, f, t, p);
    HandIsAlone(s, w, t);
    ContinueIs(s, w, f, t, p);
    LogSettles(s, b, w, t, Did(p.act));
    ContinueStep(s, w, f, t, p, Did(p.act), p.rest);
    LogOther(s.trace, Event(t, Did(p.act)), |s.tasks|, s.tasks[t]);
    assert b.trace == s.trace + [Event(t, Did(p.act))] && |b.tasks| == |s.tasks|;
    hide Continue, Inv, Meaning;
    match p.act
    case Work(_) =>
    case WakeSelf(_) =>
    case Spawn(child, asFiber, thread) => SubmitSettles(b, child, asFiber, thread);
    case Wake(u, thread) => WakeSettles(b, u, thread);
  }

  lemma StepSettles(s: Global, w: nat)
    requires Good(s) && AllTell(s) && AllSettle(s) && w < |s.workers| && Runs(s.workers[w])
    ensures AllSettle(WorkerStep(s, w))
  {
    GoodInv(s);
    hide Good, Inv, AllTell, AllSettle, WorkerStep, Perform;
    var pc := s.workers[w].pc;
    if !pc.Executing? {
      QuietSettles(s, w);
    } else {
      ExecutingFacts(s, w, pc.f, pc.task, pc.rest);
      StepPerforms(s, w, pc.f, pc.task, pc.rest);
      if GoesOn(pc.rest) { GoOnSettles(s, w, pc.f, pc.task, pc.rest); }
      else { LeaveSettles(s, w, pc.f, pc.task, pc.rest); }
    }
  }

  lemma NextSettles(s: Global, m: Move)
    requires Good(s) && AllTell(s) && AllSettle(s) && Enabled(s, m)
    ensures AllSettle(Next(s, m))
  {
    GoodInv(s);
    match m
    case StepOf(w) => hide Good, Inv, AllTell, AllSettle, WorkerStep; StepSettles(s, w);
    case NewTask(prog, asFiber, thread) => SubmitSettles(s, prog, asFiber, thread);
    case WakeTask(t, thread) => WakeSettles(s, t, thread);
    case _ => SameSettles(s, Next(s, m));
  }

  lemma SameSettles(s: Global, r: Global)
    requires AllSettle(s) && r.tasks == s.tasks && r.workers == s.workers && r.trace == s.trace
    ensures AllSettle(r)
  {
    forall u | 0 <= u < |s.tasks| ensures Settles(r, u) { SettlesSame(s, r, u); }
  }

  lemma {:induction false} LeadsSettles(s: Global, moves: seq<Move>, r: Global)
    requires Good(s) && AllTell(s) && AllSettle(s) && Leads(s, moves, r)
    ensures AllSettle(r)
    decreases |moves|
  {
    hide Good, AllTell, AllSettle, Next, Enabled;
    if moves != [] {
      NextGood(s, moves[0]);
      NextTells(s, moves[0]);
      NextSettles(s, moves[0]);
      LeadsSettles(Next(s, moves[0]), moves[1..], r);
    }
  }

  /** In every reachable state, for every task: the turns it has had and has coming are one for each call
      that asked for it and one for each time it yielded READY.  No call is lost, none is answered twice,
      and nothing runs unasked. */
  lemma OneTurnPerCall(s: Global, t: nat)
    requires Reachable(s) && t < |s.tasks|
    ensures Turns(Projection(s.trace, t)) + Coming(s, t) == |s.tasks[t].asked| + Readies(Projection(s.trace, t))
  {
    var s0, moves :| Initial(s0) && Leads(s0, moves, s);
    InitialGood(s0);
    LeadsSettles(s0, moves, s);
    assert Settles(s, t);
  }
}
