/** What one worker can bring about by itself: whatever is queued and not pinned elsewhere, any worker at
    the head of its loop can come to run.  And so how a pin is lost. */
module Handover {
  import opened Wrappers
  import opened Programs
  import opened Machine
  import opened Ownership
  import opened Interleaving
  import opened WorkerLaws
  import opened Progress
  import opened Pins

  /** Steps of worker `w` alone lead from `s` to `r`. */
  ghost predicate Alone(s: Global, w: nat, r: Global) {
    exists moves :: Leads(s, moves, r) && forall i :: 0 <= i < |moves| ==> moves[i] == StepOf(w)
  }

  lemma {:induction false} LeadsOn(s: Global, moves: seq<Move>, r: Global, more: seq<Move>, q: Global)
    requires Leads(s, moves, r) && Leads(r, more, q)
    ensures Leads(s, moves + more, q)
    decreases |moves|
  {
    if moves == [] {
      assert moves + more == more;
    } else {
      assert (moves + more)[1..] == moves[1..] + more;
      LeadsOn(Next(s, moves[0]), moves[1..], r, more, q);
    }
  }

  lemma AloneSelf(s: Global, w: nat)
    ensures Alone(s, w, s)
  {
    assert Leads(s, [], s);
  }

  lemma AloneFirst(s: Global, w: nat, r: Global)
    requires w < |s.workers| && Runs(s.workers[w]) && Alone(WorkerStep(s, w), w, r)
    ensures Alone(s, w, r)
  {
    hide WorkerStep;
    var moves :| Leads(WorkerStep(s, w), moves, r) && forall i :: 0 <= i < |moves| ==> moves[i] == StepOf(w);
    assert ([StepOf(w)] + moves)[1..] == moves;
    assert Leads(s, [StepOf(w)] + moves, r);
  }

  lemma AloneTrans(s: Global, w: nat, r: Global, q: Global)
    requires Alone(s, w, r) && Alone(r, w, q)
    ensures Alone(s, w, q)
  {
    var moves :| Leads(s, moves, r) && forall i :: 0 <= i < |moves| ==> moves[i] == StepOf(w);
    var more :| Leads(r, more, q) && forall i :: 0 <= i < |more| ==> more[i] == StepOf(w);
    LeadsOn(s, moves, r, more, q);
  }

  // ----- what a worker leaves alone as long as it has a task in hand

  /** What is queued stays where it is, with the calls that enqueued it and what it has to do; the other
      workers stand still. */
  ghost predicate Kept(s: Global, r: Global, w: nat) {
    && |s.queue| <= |r.queue| && |s.tasks| <= |r.tasks|
    && (forall i :: 0 <= i < |s.queue| ==> r.queue[i] == s.queue[i])
    && (forall i :: 0 <= i < |s.queue| && s.queue[i].task < |s.tasks| ==> Same(s, r, s.queue[i].task))
    && w < |s.workers| == |r.workers| && r.workers[w].tid == s.workers[w].tid
    && (forall v :: 0 <= v < |s.workers| && v != w ==> r.workers[v] == s.workers[v])
  }

  /** The same calls have asked for the task, and it has the same to do. */
  ghost predicate Same(s: Global, r: Global, t: nat)
    requires t < |s.tasks| && t < |r.tasks|
  {
    r.tasks[t].asked == s.tasks[t].asked && r.tasks[t].todo == s.tasks[t].todo
  }

  lemma KeptTrans(s: Global, r: Global, q: Global, w: nat)
    requires Kept(s, r, w) && Kept(r, q, w)
    ensures Kept(s, q, w)
  {
    assert forall i :: 0 <= i < |s.queue| ==> r.queue[i] == s.queue[i] && q.queue[i] == r.queue[i];
  }

  /** Only a parked task can be enqueued again. */
  lemma PerformAsked(s: Global, w: nat, f: nat, t: nat, p: Prog, u: nat)
    requires Inv(s) && w < |s.workers| && s.workers[w].pc == Executing(f, t, p) && f < |s.fibers|
    requires u < |s.tasks| && s.tasks[u].place != Parked
    ensures u < |Perform(s, w, f, t, p).tasks| && Perform(s, w, f, t, p).tasks[u].asked == s.tasks[u].asked
  {
    ExecutingFacts(s, w, f, t, p);
    if GoesOn(p) {
      ContinueStep(s, w, f, t, p, Did(p.act), p.rest);
      hide Inv;
      GoOnAsked(s, w, f, t, p, u);
    } else {
      LeaveHistory(s, w, f, t, p);
    }
  }

  lemma GoOnAsked(s: Global, w: nat, f: nat, t: nat, p: Prog, u: nat)
    requires w < |s.workers| && f < |s.fibers| && GoesOn(p) && Inv(Continue(Log(s, w, t, Did(p.act)), w, f, t, p.rest))
    requires u < |s.tasks| && s.tasks[u].place != Parked
    ensures u < |Perform(s, w, f, t, p).tasks| && Perform(s, w, f, t, p).tasks[u].asked == s.tasks[u].asked
  {
    var b := Continue(Log(s, w, t, Did(p.act)), w, f, t, p.rest);
    assert u < |b.tasks| && b.tasks[u].place == s.tasks[u].place && b.tasks[u].asked == s.tasks[u].asked;
    hide Inv, Continue, WakeUp, Submit;
    match p.act
    case Work(_) =>
    case WakeSelf(_) =>
    case Spawn(child, asFiber, thread) => SubmitAsked(b, child, asFiber, thread, u);
    case Wake(k, thread) => if k == u { WakeNot(b, u, thread); } else { WakeAsked(b, k, thread, u); }
  }

  lemma SubmitAsked(s: Global, prog: Prog, asFiber: bool, thread: int, u: nat)
    requires u < |s.tasks|
    ensures u < |Submit(s, prog, asFiber, thread).tasks| && Submit(s, prog, asFiber, thread).tasks[u] == s.tasks[u]
  {
  }

  lemma WakeAsked(s: Global, t: nat, thread: int, u: nat)
    requires u < |s.tasks| && t != u
    ensures u < |WakeUp(s, t, thread).tasks| && WakeUp(s, t, thread).tasks[u] == s.tasks[u]
  {
  }

  lemma WakeNot(s: Global, u: nat, thread: int)
    requires Inv(s) && u < |s.tasks| && s.tasks[u].place != Parked
    ensures WakeUp(s, u, thread) == s
  {
    if s.tasks[u].home.Some? && MayWake(s, s.tasks[u].home.value) { MayWakeIsParked(s, u); }
  }

  lemma DisposeAsked(s: Global, w: nat, f: nat, u: nat)
    requires w < |s.workers| && f < |s.fibers| && u < |s.tasks|
    ensures u < |Dispose(s, w, f).tasks| && Dispose(s, w, f).tasks[u].asked == s.tasks[u].asked
  {
  }

  lemma StepAsked(s: Global, w: nat, u: nat)
    requires Inv(s) && w < |s.workers| && s.workers[w].hand.Some? && u < |s.tasks| && s.tasks[u].place != Parked
    ensures u < |WorkerStep(s, w).tasks| && WorkerStep(s, w).tasks[u].asked == s.tasks[u].asked
  {
    var x := s.workers[w];
    assert WorkerOk(x, s.tasks, s.fibers);
    hide Inv, Perform, Dispose, Choose, Scan, SwapIn;
    if Plain(x.pc) { PlainHistory(s, w); }
    match x.pc
    case Executing(f, t, p) => PerformAsked(s, w, f, t, p, u);
    case Counted(f) => SwapInHistory(s, w, f);
    case Holding(_) => ChooseHistory(s, w);
    case Uncounted(f) => DisposeAsked(s, w, f, u);
    case _ =>
  }

  lemma TasksStay(s: Global, w: nat)
    requires Inv(s) && w < |s.workers| && Runs(s.workers[w])
    ensures |s.tasks| <= |WorkerStep(s, w).tasks|
  {
    var pc := s.workers[w].pc;
    if pc.Executing? {
      ExecutingFacts(s, w, pc.f, pc.task, pc.rest);
      PerformTodo(s, w, pc.f, pc.task, pc.rest);
    } else {
      QuietStep(s, w);
    }
  }

  /** It keeps its task in hand until it has put it away and is back at the head of the loop. */
  lemma HandStays(s: Global, w: nat)
    requires Inv(s) && w < |s.workers| && s.workers[w].hand.Some?
    ensures Runs(s.workers[w])
    ensures var r := WorkerStep(s, w);
      && w < |r.workers| && r.workers[w].tid == s.workers[w].tid
      && (if s.workers[w].pc.Uncounted? then r.workers[w].pc == Scanning else r.workers[w].hand == s.workers[w].hand)
  {
    var x := s.workers[w];
    assert WorkerOk(x, s.tasks, s.fibers);
    hide Inv, Perform, Dispose, Choose, Scan, SwapIn;
    if Plain(x.pc) { PlainHand(s, w); }
    match x.pc
    case Executing(f, t, p) => PerformIs(s, w, f, t, p);
    case Counted(f) => SwapInHand(s, w, f);
    case Holding(_) => ChooseHand(s, w);
    case Uncounted(f) => DisposeHand(s, w, f);
    case _ =>
  }

  lemma PlainHand(s: Global, w: nat)
    requires w < |s.workers| && Plain(s.workers[w].pc)
    ensures var r := WorkerStep(s, w);
      w < |r.workers| && r.workers[w].hand == s.workers[w].hand && r.workers[w].tid == s.workers[w].tid
  {
    hide Perform, Dispose, SwapIn, Choose, Scan;
  }

  lemma SwapInHand(s: Global, w: nat, f: nat)
    requires w < |s.workers|
    ensures var r := SwapIn(s, w, f);
      w < |r.workers| && r.workers[w].hand == s.workers[w].hand && r.workers[w].tid == s.workers[w].tid
  {
  }

  lemma ChooseHand(s: Global, w: nat)
    requires w < |s.workers| && s.workers[w].pc.Holding?
    ensures var r := Choose(s, w);
      w < |r.workers| && r.workers[w].hand == s.workers[w].hand && r.workers[w].tid == s.workers[w].tid
  {
    hide Prepare;
    var ft := s.workers[w].pc.ft;
    if ft.Some? && ft.value.item.OfCallback? { PrepareHand(s, w, ft.value.task, ft.value.item.prog); }
  }

  lemma PrepareHand(s: Global, w: nat, t: nat, prog: Prog)
    requires w < |s.workers|
    ensures var r := Prepare(s, w, t, prog);
      w < |r.workers| && r.workers[w].hand == s.workers[w].hand && r.workers[w].tid == s.workers[w].tid
  {
  }

  lemma DisposeHand(s: Global, w: nat, f: nat)
    requires w < |s.workers| && f < |s.fibers|
    ensures var r := Dispose(s, w, f); w < |r.workers| && r.workers[w].pc == Scanning && r.workers[w].tid == s.workers[w].tid
  {
  }

  /** What a task has to do changes only in the hands of a worker. */
  lemma StepTodo(s: Global, w: nat, u: nat)
    requires Inv(s) && w < |s.workers| && Runs(s.workers[w]) && u < |s.tasks| && s.workers[w].hand != Some(u)
    ensures u < |WorkerStep(s, w).tasks| && WorkerStep(s, w).tasks[u].todo == s.tasks[u].todo
  {
    hide Inv, WorkerStep;
    if s.workers[w].pc.Executing? {
      var pc := s.workers[w].pc;
      ExecutingFacts(s, w, pc.f, pc.task, pc.rest);
      StepPerforms(s, w, pc.f, pc.task, pc.rest);
      PerformOthers(s, w, pc.f, pc.task, pc.rest, u);
    } else {
      QuietStep(s, w);
    }
  }

  lemma PerformOthers(s: Global, w: nat, f: nat, t: nat, p: Prog, u: nat)
    requires w < |s.workers| && f < |s.fibers| && t < |s.tasks| && u < |s.tasks| && u != t
    ensures u < |Perform(s, w, f, t, p).tasks| && Perform(s, w, f, t, p).tasks[u].todo == s.tasks[u].todo
  {
    hide Perform;
    PerformTodo(s, w, f, t, p);
    if p.Then? && p.act.Wake? {
      WakeTodo(Continue(Log(s, w, t, Did(p.act)), w, f, t, p.rest), p.act.task, p.act.thread, u);
    }
  }

  lemma WakeTodo(s: Global, t: nat, thread: int, u: nat)
    requires u < |s.tasks|
    ensures u < |WakeUp(s, t, thread).tasks| && WakeUp(s, t, thread).tasks[u].todo == s.tasks[u].todo
  {
  }

  lemma StepPerforms(s: Global, w: nat, f: nat, t: nat, p: Prog)
    requires w < |s.workers| && s.workers[w].pc == Executing(f, t, p) && f < |s.fibers|
    ensures WorkerStep(s, w) == Perform(s, w, f, t, p)
  {
    hide Perform;
  }

  lemma QueuedNotHeld(s: Global, w: nat, i: nat)
    requires Inv(s) && w < |s.workers| && i < |s.queue|
    ensures s.queue[i].task < |s.tasks| && s.tasks[s.queue[i].task].place == InQueue
    ensures s.workers[w].hand != Some(s.queue[i].task)
  {
    assert EntryOk(s.queue[i], s.tasks);
  }

  lemma NotScanning(s: Global, w: nat)
    requires Inv(s) && w < |s.workers| && s.workers[w].hand.Some?
    ensures s.workers[w].pc != Scanning
  {
    assert WorkerOk(s.workers[w], s.tasks, s.fibers);
  }

  lemma BusyStep(s: Global, w: nat)
    requires Good(s) && w < |s.workers| && s.workers[w].hand.Some?
    ensures Runs(s.workers[w]) && Kept(s, WorkerStep(s, w), w)
  {
    hide WorkerStep, Meaning, CountersOk, BooksOk, SuspendedOk, PcsOk, HandsOk, HomesOk, PoolsOk, ShapesOk;
    HandStays(s, w);
    NotScanning(s, w);
    StepFrame(s, w);
    TasksStay(s, w);
    forall i | 0 <= i < |s.queue|
      ensures i < |WorkerStep(s, w).queue| && WorkerStep(s, w).queue[i] == s.queue[i]
      ensures s.queue[i].task < |s.tasks| && s.queue[i].task < |WorkerStep(s, w).tasks|
      ensures Same(s, WorkerStep(s, w), s.queue[i].task)
    {
      QueuedNotHeld(s, w, i);
      OtherQueue(s, w, i);
      StepAsked(s, w, s.queue[i].task);
      StepTodo(s, w, s.queue[i].task);
    }
    if |s.queue| > 0 { OtherQueue(s, w, |s.queue| - 1); }
  }

  /** By itself a worker with a task in hand comes back to the head of its loop. */
  lemma {:induction false} GoesRound(s: Global, w: nat) returns (r: Global)
    requires Good(s) && w < |s.workers| && s.workers[w].hand.Some?
    ensures Alone(s, w, r) && Good(r) && Kept(s, r, w) && r.workers[w].pc == Scanning
    decreases Rank(s)
  {
    hide Good, Inv, WorkerStep, Kept, Alone, Rank;
    BusyStep(s, w);
    KeptWorkers(s, WorkerStep(s, w), w);
    HandStays(s, w) by { GoodInv(s); }
    NextGood(s, StepOf(w));
    StepDescends(s, w);
    var q := WorkerStep(s, w);
    if q.workers[w].pc == Scanning {
      r := q;
      AloneSelf(q, w);
    } else {
      r := GoesRound(q, w);
      KeptTrans(s, q, r, w);
    }
    AloneFirst(s, w, r);
  }

  lemma KeptWorkers(s: Global, r: Global, w: nat)
    requires Kept(s, r, w)
    ensures w < |s.workers| == |r.workers|
  {
  }

  // ----- whatever is queued can be run by any worker at the head of its loop, if its pin allows

  /** By itself the worker serves what is before the entry, and then draws it. */
  lemma {:induction false} DrawsEntry(s: Global, v: nat, j: nat) returns (r: Global)
    requires Good(s) && v < |s.workers| && s.workers[v].pc == Scanning
    requires j < |s.queue| && Mine(s.queue[j], s.workers[v].tid)
    ensures Alone(s, v, r) && Good(r) && v < |r.workers| && r.workers[v].tid == s.workers[v].tid
    ensures var e := s.queue[j];
      && r.workers[v].pc == Holding(Some(e)) && r.workers[v].hand == Some(e.task)
      && e.task < |s.tasks| && e.task < |r.tasks| && Same(s, r, e.task)
    decreases j
  {
    hide Good, Inv, WorkerStep, Scan, Kept, Alone;
    var k := 0;
    while !Mine(s.queue[k], s.workers[v].tid)
      invariant k <= j && forall i :: 0 <= i < k ==> !Mine(s.queue[i], s.workers[v].tid)
      decreases j - k
    {
      k := k + 1;
    }
    GoodInv(s);
    GoodDraws(s, v, k);
    NextGood(s, StepOf(v));
    EntryTask(s, k);
    EntryTask(s, j);
    ScanAsked(s, v);
    var q := Scan(s, v);
    if k == j {
      r := q;
      AloneSelf(q, v);
    } else {
      assert q.queue[j - 1] == s.queue[j];
      EntryTask(q, j - 1) by { GoodInv(q); }
      var a := GoesRound(q, v);
      KeptEntry(q, a, v, j - 1);
      r := DrawsEntry(a, v, j - 1);
      AloneTrans(q, v, a, r);
      assert Same(s, q, s.queue[j].task) && Same(q, a, s.queue[j].task) && Same(a, r, s.queue[j].task);
    }
    AloneFirst(s, v, r);
  }

  lemma KeptEntry(s: Global, r: Global, w: nat, i: nat)
    requires Kept(s, r, w) && i < |s.queue| && s.queue[i].task < |s.tasks|
    ensures w < |s.workers| == |r.workers| && r.workers[w].tid == s.workers[w].tid
    ensures i < |r.queue| && r.queue[i] == s.queue[i] && s.queue[i].task < |r.tasks|
    ensures Same(s, r, s.queue[i].task)
  {
  }

  lemma EntryTask(s: Global, i: nat)
    requires Inv(s) && i < |s.queue|
    ensures s.queue[i].task < |s.tasks|
  {
    assert EntryOk(s.queue[i], s.tasks);
  }

  lemma ScanAsked(s: Global, w: nat)
    requires w < |s.workers|
    ensures |Scan(s, w).tasks| == |s.tasks| && forall u :: 0 <= u < |s.tasks| ==> Same(s, Scan(s, w), u)
  {
  }

  /** Between drawing a task and its first action in this slice. */
  predicate Entering(pc: Pc) { pc.Holding? || pc.Prepared? || pc.Counted? }

  lemma ChooseEnters(s: Global, w: nat)
    requires w < |s.workers| && s.workers[w].pc.Holding?
    ensures var later := Choose(s, w).workers;
      w < |later| && (later[w].pc.Prepared? || later[w].pc.Counted? || later[w].pc in {IdleCounted, Exited, Faulted})
  {
    hide Prepare;
    var ft := s.workers[w].pc.ft;
    if ft.Some? && ft.value.item.OfCallback? { PrepareEnters(s, w, ft.value.task, ft.value.item.prog); }
  }

  lemma PrepareEnters(s: Global, w: nat, t: nat, prog: Prog)
    requires w < |s.workers|
    ensures var r := Prepare(s, w, t, prog);
      w < |r.workers| && (r.workers[w].pc.Prepared? || r.workers[w].pc == Faulted)
  {
  }

  lemma SwapInEnters(s: Global, w: nat, f: nat)
    requires w < |s.workers|
    ensures var r := SwapIn(s, w, f); w < |r.workers| && (r.workers[w].pc.Executing? || r.workers[w].pc == Faulted)
  {
  }

  lemma PreparedEnters(s: Global, w: nat)
    requires w < |s.workers| && s.workers[w].pc.Prepared?
    ensures var r := WorkerStep(s, w); w < |r.workers| && r.workers[w].pc.Counted?
  {
    hide Perform, Dispose, SwapIn, Choose, Scan;
  }

  lemma EnterPc(s: Global, w: nat)
    requires w < |s.workers| && Entering(s.workers[w].pc)
    ensures var r := WorkerStep(s, w);
      && SameHistory(s, r)
      && (Entering(r.workers[w].pc) || r.workers[w].pc.Executing? || r.workers[w].pc in {IdleCounted, Exited, Faulted})
  {
    hide Perform, Dispose, Choose, Scan, SwapIn;
    match s.workers[w].pc
    case Holding(_) => ChooseHistory(s, w); ChooseEnters(s, w);
    case Prepared(_) => PlainHistory(s, w); PreparedEnters(s, w);
    case Counted(f) => SwapInHistory(s, w, f); SwapInEnters(s, w, f);
  }

  lemma EnterStep(s: Global, w: nat)
    requires Good(s) && w < |s.workers| && s.workers[w].hand.Some? && Entering(s.workers[w].pc)
    ensures var r := WorkerStep(s, w);
      && Good(r) && SameHistory(s, r) && r.workers[w].hand == s.workers[w].hand
      && (forall u :: 0 <= u < |s.tasks| ==> r.tasks[u].todo == s.tasks[u].todo)
      && (Entering(r.workers[w].pc) || r.workers[w].pc.Executing?)
  {
    hide Good, Inv, WorkerStep;
    BusyStep(s, w);
    NextGood(s, StepOf(w));
    GoodInv(s);
    HandStays(s, w);
    EnterPc(s, w);
    QuietStep(s, w);
    InHand(WorkerStep(s, w), w);
  }

  lemma InHand(s: Global, w: nat)
    requires Good(s) && w < |s.workers| && s.workers[w].hand.Some?
    ensures !EmptyHanded(s.workers[w].pc) && s.workers[w].pc != Faulted
    ensures s.workers[w].pc.Executing? ==>
      && s.workers[w].pc.task == s.workers[w].hand.value < |s.tasks| && s.workers[w].pc.f < |s.fibers|
      && s.tasks[s.workers[w].pc.task].todo == Some(s.workers[w].pc.rest)
  {
    assert WorkerOk(s.workers[w], s.tasks, s.fibers);
  }

  /** What has just been done was this step, by this task, on this thread. */
  ghost predicate RanLast(r: Global, t: nat, step: Step, tid: int) {
    && |r.trace| > 0 && r.trace[|r.trace| - 1] == Event(t, step)
    && |r.tids| > 0 && r.tids[|r.tids| - 1] == tid
  }

  /** The next thing the task will do. */
  function NextStep(s: Global, t: nat): Step
    requires t < |s.tasks|
  {
    if s.tasks[t].todo.Some? then FirstStep(s.tasks[t].todo.value) else Returned
  }

  lemma {:induction false} ActsNext(s: Global, w: nat, t: nat) returns (r: Global)
    requires Good(s) && w < |s.workers| && s.workers[w].hand == Some(t) && t < |s.tasks|
    requires Entering(s.workers[w].pc) || s.workers[w].pc.Executing?
    ensures Alone(s, w, r) && RanLast(r, t, NextStep(s, t), s.workers[w].tid)
    ensures t < |r.tasks| && r.tasks[t].asked == s.tasks[t].asked
    decreases Rank(s)
  {
    hide Good, WorkerStep, Alone, Rank, RanLast;
    BusyStep(s, w);
    if Entering(s.workers[w].pc) {
      EnterStep(s, w);
      StepDescends(s, w);
      r := ActsNext(WorkerStep(s, w), w, t);
    } else {
      r := WorkerStep(s, w);
      Acts(s, w, t);
      AloneSelf(r, w);
    }
    AloneFirst(s, w, r);
  }

  lemma Acts(s: Global, w: nat, t: nat)
    requires Good(s) && w < |s.workers| && s.workers[w].hand == Some(t) && t < |s.tasks| && s.workers[w].pc.Executing?
    ensures var r := WorkerStep(s, w);
      RanLast(r, t, NextStep(s, t), s.workers[w].tid) && t < |r.tasks| && r.tasks[t].asked == s.tasks[t].asked
  {
    hide Perform;
    InHand(s, w);
    var pc := s.workers[w].pc;
    PerformTids(s, w, pc.f, t, pc.rest);
    PerformIs(s, w, pc.f, t, pc.rest);
    StepAsked(s, w, t);
  }

  lemma PerformTids(s: Global, w: nat, f: nat, t: nat, p: Prog)
    requires w < |s.workers| && f < |s.fibers|
    ensures Perform(s, w, f, t, p).tids == s.tids + [s.workers[w].tid]
  {
    if GoesOn(p) {
      var b := Continue(Log(s, w, t, Did(p.act)), w, f, t, p.rest);
      assert b.tids == s.tids + [s.workers[w].tid];
      hide Continue;
    } else {
      hide Log;
      LogTids(s, w, t, FirstStep(p));
    }
  }

  lemma LogTids(s: Global, w: nat, t: nat, step: Step)
    requires w < |s.workers|
    ensures Log(s, w, t, step).tids == s.tids + [s.workers[w].tid]
  {
  }

  /** Whatever waits in the queue and is not pinned elsewhere, a worker at the head of its loop can run by
      itself: it gets there, and the next thing done is the task's, on its thread. */
  lemma AnyoneRuns(s: Global, v: nat, j: nat)
    requires Reachable(s) && v < |s.workers| && s.workers[v].pc == Scanning
    requires j < |s.queue| && Mine(s.queue[j], s.workers[v].tid)
    ensures s.queue[j].task < |s.tasks|
    ensures exists r :: Alone(s, v, r) && RanLast(r, s.queue[j].task, NextStep(s, s.queue[j].task), s.workers[v].tid)
  {
    hide Good, Reachable, Alone, RanLast;
    ReachableGood(s);
    var a := DrawsEntry(s, v, j);
    var r := ActsNext(a, v, s.queue[j].task);
    AloneTrans(s, v, a, r);
  }

  // ----- how a pin is lost

  /** The next time the program gives up the CPU it yields READY. */
  predicate ReadyNext(p: Prog) {
    p.Then? && (p.act.YieldReady? || (GoesOn(p) && ReadyNext(p.rest)))
  }

  function AfterYield(p: Prog): Prog
    requires ReadyNext(p)
  {
    if p.act.YieldReady? then p.rest else AfterYield(p.rest)
  }

  /** The slice has ended with READY in the fiber's state. */
  ghost predicate Yielded(s: Global, w: nat, t: nat) {
    && w < |s.workers| && s.workers[w].hand == Some(t) && t < |s.tasks|
    && match s.workers[w].pc
       case Leaving(f, _) => f < |s.fibers| && s.fibers[f].state == READY
       case Back(f) => f < |s.fibers| && s.fibers[f].state == READY
       case Uncounted(f) => f < |s.fibers| && s.fibers[f].state == READY
       case _ => false
  }

  lemma YieldedStep(s: Global, w: nat, t: nat)
    requires Yielded(s, w, t) && !s.workers[w].pc.Uncounted?
    ensures Yielded(WorkerStep(s, w), w, t)
  {
    hide Perform, Dispose, Choose, Scan, SwapIn;
  }

  lemma YieldedBack(s: Global, w: nat, t: nat)
    requires Yielded(s, w, t) && s.workers[w].pc.Uncounted?
    ensures var q := WorkerStep(s, w).queue;
      |q| == |s.queue| + 1 && q[|s.queue|].task == t && q[|s.queue|].thread == NONE
  {
    hide Perform, Choose, Scan, SwapIn;
  }

  lemma {:induction false} PutsBack(s: Global, w: nat, t: nat) returns (r: Global, j: nat)
    requires Good(s) && Yielded(s, w, t)
    ensures Alone(s, w, r) && Good(r) && Kept(s, r, w)
    ensures j < |r.queue| && r.queue[j].task == t && r.queue[j].thread == NONE
    ensures t < |r.tasks| && Same(s, r, t)
    decreases Rank(s)
  {
    hide Good, Inv, WorkerStep, Kept, Alone, Rank;
    var q := WorkerStep(s, w);
    BusyStep(s, w);
    NextGood(s, StepOf(w));
    StepDescends(s, w);
    OwnAsked(s, w, t);
    QuietStep(s, w);
    if s.workers[w].pc.Uncounted? {
      YieldedBack(s, w, t);
      r, j := q, |s.queue|;
      AloneSelf(q, w);
    } else {
      YieldedStep(s, w, t);
      r, j := PutsBack(q, w, t);
      KeptTrans(s, q, r, w);
    }
    AloneFirst(s, w, r);
  }

  lemma OwnAsked(s: Global, w: nat, t: nat)
    requires Good(s) && w < |s.workers| && s.workers[w].hand == Some(t) && t < |s.tasks|
    ensures t < |WorkerStep(s, w).tasks| && WorkerStep(s, w).tasks[t].asked == s.tasks[t].asked
  {
    hide WorkerStep;
    StepAsked(s, w, t);
  }

  lemma YieldsReady(s: Global, w: nat, f: nat, t: nat, p: Prog)
    requires w < |s.workers| && s.workers[w].pc == Executing(f, t, p) && f < |s.fibers|
    requires s.workers[w].hand == Some(t) && t < |s.tasks| && p.Then? && p.act.YieldReady?
    ensures Yielded(WorkerStep(s, w), w, t)
  {
    hide Dispose, Choose, Scan, SwapIn;
  }

  lemma YieldTodo(s: Global, w: nat, f: nat, t: nat, p: Prog)
    requires w < |s.workers| && s.workers[w].pc == Executing(f, t, p) && f < |s.fibers|
    requires t < |s.tasks| && p.Then? && p.act.YieldReady?
    ensures t < |WorkerStep(s, w).tasks| && WorkerStep(s, w).tasks[t].todo == Some(p.rest)
  {
    hide Perform;
    PerformTodo(s, w, f, t, p);
  }

  lemma GoesOnNext(s: Global, w: nat, f: nat, t: nat, p: Prog)
    requires w < |s.workers| && f < |s.fibers| && GoesOn(p)
    ensures var r := Perform(s, w, f, t, p);
      w < |r.workers| && r.workers[w] == s.workers[w].(pc := Executing(f, t, p.rest))
  {
    hide Submit, WakeUp;
    ContinueIs(s, w, f, t, p);
    var b := Continue(Log(s, w, t, Did(p.act)), w, f, t, p.rest);
    match p.act
    case Work(_) =>
    case WakeSelf(_) =>
    case Spawn(child, asFiber, thread) => SubmitWorkers(b, child, asFiber, thread);
    case Wake(k, thread) => WakeWorkers(b, k, thread);
  }

  lemma SubmitWorkers(s: Global, prog: Prog, asFiber: bool, thread: int)
    ensures Submit(s, prog, asFiber, thread).workers == s.workers
  {
  }

  lemma WakeWorkers(s: Global, t: nat, thread: int)
    ensures WakeUp(s, t, thread).workers == s.workers
  {
  }

  /** By itself the worker runs the task up to its yield and puts it back into the queue, unpinned. */
  lemma {:induction false} RunsToYield(s: Global, w: nat, f: nat, t: nat, p: Prog) returns (r: Global, j: nat)
    requires Good(s) && w < |s.workers| && s.workers[w].pc == Executing(f, t, p) && ReadyNext(p)
    requires s.workers[w].hand == Some(t) && t < |s.tasks| && f < |s.fibers|
    ensures Alone(s, w, r) && Good(r) && Kept(s, r, w)
    ensures j < |r.queue| && r.queue[j].task == t && r.queue[j].thread == NONE
    ensures t < |r.tasks| && r.tasks[t].asked == s.tasks[t].asked && r.tasks[t].todo == Some(AfterYield(p))
    decreases p
  {
    hide Good, Inv, WorkerStep, Kept, Alone, Rank, Perform, Yielded;
    var q := WorkerStep(s, w);
    BusyStep(s, w);
    NextGood(s, StepOf(w));
    OwnAsked(s, w, t);
    if p.act.YieldReady? {
      YieldsReady(s, w, f, t, p);
      YieldTodo(s, w, f, t, p);
      r, j := PutsBack(q, w, t);
    } else {
      GoesOnNext(s, w, f, t, p);
      StepPerforms(s, w, f, t, p);
      InHand(q, w);
      r, j := RunsToYield(q, w, f, t, p.rest);
    }
    KeptTrans(s, q, r, w);
    AloneFirst(s, w, r);
  }

  lemma KeptOther(s: Global, r: Global, w: nat, v: nat)
    requires Kept(s, r, w) && v < |s.workers| && v != w
    ensures v < |r.workers| && r.workers[v] == s.workers[v]
  {
  }

  lemma AloneThen(s: Global, w: nat, r: Global, v: nat, q: Global)
    requires Alone(s, w, r) && Alone(r, v, q)
    ensures exists moves :: WorkersOnly(moves) && Leads(s, moves, q)
  {
    var moves :| Leads(s, moves, r) && forall i :: 0 <= i < |moves| ==> moves[i] == StepOf(w);
    var more :| Leads(r, more, q) && forall i :: 0 <= i < |more| ==> more[i] == StepOf(v);
    LeadsOn(s, moves, r, more, q);
    assert WorkersOnly(moves + more);
  }

  /** A task that is going to yield READY can be run by any other worker at the head of its loop after
      that, with not one call having asked for it: whatever its program, and whoever pinned it where. */
  lemma PinGivenUp(s: Global, w: nat, v: nat)
    requires Reachable(s) && w < |s.workers| && v < |s.workers| && v != w
    requires s.workers[w].pc.Executing? && ReadyNext(s.workers[w].pc.rest) && s.workers[v].pc == Scanning
    ensures var t, p := s.workers[w].pc.task, s.workers[w].pc.rest;
      exists moves, r :: WorkersOnly(moves) && Leads(s, moves, r)
        && t < |s.tasks| && t < |r.tasks| && r.tasks[t].asked == s.tasks[t].asked
        && RanLast(r, t, FirstStep(AfterYield(p)), s.workers[v].tid)
  {
    hide Good, Reachable, Alone, RanLast, Kept, Leads, WorkersOnly;
    ReachableGood(s);
    ExecutingHand(s, w);
    var pc := s.workers[w].pc;
    var a, j := RunsToYield(s, w, pc.f, pc.task, pc.rest);
    KeptOther(s, a, w, v);
    var b := DrawsEntry(a, v, j);
    var r := ActsNext(b, v, pc.task);
    AloneTrans(a, v, b, r);
    AloneThen(s, w, a, v, r);
  }

  lemma ExecutingHand(s: Global, w: nat)
    requires Good(s) && w < |s.workers| && s.workers[w].pc.Executing?
    ensures s.workers[w].hand == Some(s.workers[w].pc.task)
    ensures s.workers[w].pc.task < |s.tasks| && s.workers[w].pc.f < |s.fibers|
  {
    assert WorkerOk(s.workers[w], s.tasks, s.fibers);
  }
}
