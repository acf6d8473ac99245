/** Every run of the workers ends: a bound on the number of steps, and what stops them. */
module Progress {
  import opened Wrappers
  import opened Programs
  import opened Machine
  import opened Ownership
  import opened Interleaving
  import opened WorkerLaws

  // ----- what is left to do

  function TodoSize(todo: Option<Prog>): nat {
    if todo.Some? then Size(todo.value) else 0
  }

  function TodoLeft(tasks: seq<Task>): nat {
    if tasks == [] then 0 else TodoLeft(tasks[..|tasks| - 1]) + TodoSize(tasks[|tasks| - 1].todo)
  }

  /** How far a worker is from its next action or its exit; an unused idle fiber is worth a loop. */
  function PcRank(x: Worker): nat {
    (if x.idleUsed then 0 else 10) +
    match x.pc
    case Scanning => 7
    case Holding(_) => 6
    case Prepared(_) => 5
    case Counted(_) => 4
    case Executing(_, _, _) => 3
    case Leaving(_, _) => 12
    case Back(_) => 11
    case Uncounted(_) => 10
    case IdleCounted => 5
    case IdleBack => 8
    case Exited => 0
    case Faulted => 0
  }

  function Ranks(workers: seq<Worker>): nat {
    if workers == [] then 0 else Ranks(workers[..|workers| - 1]) + PcRank(workers[|workers| - 1])
  }

  function Rank(s: Global): nat { 10 * TodoLeft(s.tasks) + Ranks(s.workers) }

  lemma {:induction false} WorkerRanksUpdate(workers: seq<Worker>, w: nat, x: Worker)
    requires w < |workers|
    ensures Ranks(workers[w := x]) == Ranks(workers) - PcRank(workers[w]) + PcRank(x)
  {
    var n := |workers| - 1;
    if w == n {
      assert workers[w := x][..n] == workers[..n];
    } else {
      WorkerRanksUpdate(workers[..n], w, x);
      assert workers[w := x][..n] == workers[..n][w := x];
    }
  }

  lemma {:induction false} WorkSame(tasks: seq<Task>, later: seq<Task>)
    requires |tasks| == |later| && forall t :: 0 <= t < |tasks| ==> later[t].todo == tasks[t].todo
    ensures TodoLeft(later) == TodoLeft(tasks)
  {
    if tasks != [] { WorkSame(tasks[..|tasks| - 1], later[..|tasks| - 1]); }
  }

  lemma {:induction false} WorkUpdate(tasks: seq<Task>, t: nat, k: Task)
    requires t < |tasks|
    ensures TodoLeft(tasks[t := k]) == TodoLeft(tasks) - TodoSize(tasks[t].todo) + TodoSize(k.todo)
  {
    var n := |tasks| - 1;
    if t == n {
      assert tasks[t := k][..n] == tasks[..n];
    } else {
      WorkUpdate(tasks[..n], t, k);
      assert tasks[t := k][..n] == tasks[..n][t := k];
    }
  }

  lemma WorkAppend(tasks: seq<Task>, k: Task)
    ensures TodoLeft(tasks + [k]) == TodoLeft(tasks) + TodoSize(k.todo)
  {
    assert (tasks + [k])[..|tasks|] == tasks;
  }

  /** An action pays for everything it starts. */
  lemma PerformPays(s: Global, w: nat, f: nat, t: nat, p: Prog)
    requires Inv(s) && w < |s.workers| && s.workers[w].pc == Executing(f, t, p) && f < |s.fibers|
    ensures TodoLeft(Perform(s, w, f, t, p).tasks) + 2 == TodoLeft(s.tasks)
  {
    hide Inv, Perform, Submit, WakeUp, Continue;
    ExecutingFacts(s, w, f, t, p);
    PerformTodo(s, w, f, t, p);
    var later := s.tasks[t := s.tasks[t].(todo := AfterFirst(p))];
    WorkUpdate(s.tasks, t, s.tasks[t].(todo := AfterFirst(p)));
    if p.Then? && p.act.Spawn? {
      SubmitPays(s.(tasks := later), p.act.child, p.act.asFiber, p.act.thread);
    } else if p.Then? && p.act.Wake? {
      WakeKeepsWork(Continue(Log(s, w, t, Did(p.act)), w, f, t, p.rest), p.act.task, p.act.thread);
    }
  }

  lemma WakeKeepsWork(s: Global, t: nat, thread: int)
    ensures TodoLeft(WakeUp(s, t, thread).tasks) == TodoLeft(s.tasks)
  {
    WorkSame(s.tasks, WakeUp(s, t, thread).tasks);
  }

  lemma SubmitPays(s: Global, prog: Prog, asFiber: bool, thread: int)
    ensures TodoLeft(Submit(s, prog, asFiber, thread).tasks) == TodoLeft(s.tasks) + Size(prog)
  {
    WorkAppend(s.tasks, Submit(s, prog, asFiber, thread).tasks[|s.tasks|]);
  }

  // ----- the steps outside user code

  lemma ChooseRank(s: Global, w: nat)
    requires Inv(s) && w < |s.workers| && s.workers[w].pc.Holding?
    ensures w < |Choose(s, w).workers| && PcRank(Choose(s, w).workers[w]) < PcRank(s.workers[w])
  {
    hide Prepare, IdleBranch, PoolUnused, QueueOk, HomesOk, HandsOk, ShapesOk;
    var ft := s.workers[w].pc.ft;
    assert WorkerOk(s.workers[w], s.tasks, s.fibers) && PoolUnused(s.workers[w], s.tasks, s.fibers);
    if ft.Some? && ft.value.item.OfCallback? {
      PrepareRank(s, w, ft.value.task, ft.value.item.prog);
    } else {
      IdleRank(s, w);
    }
  }

  lemma PrepareRank(s: Global, w: nat, t: nat, prog: Prog)
    requires w < |s.workers| && s.workers[w].pc.Holding? && PoolUnused(s.workers[w], s.tasks, s.fibers)
    ensures w < |Prepare(s, w, t, prog).workers| && PcRank(Prepare(s, w, t, prog).workers[w]) < PcRank(s.workers[w])
  {
  }

  lemma IdleRank(s: Global, w: nat)
    requires w < |s.workers| && s.workers[w].pc.Holding?
    ensures w < |IdleBranch(s, w).workers| && PcRank(IdleBranch(s, w).workers[w]) < PcRank(s.workers[w])
  {
  }

  lemma ScanRank(s: Global, w: nat)
    requires w < |s.workers| && s.workers[w].pc == Scanning
    ensures w < |Scan(s, w).workers| && PcRank(Scan(s, w).workers[w]) < PcRank(s.workers[w])
  {
  }

  lemma SwapInRank(s: Global, w: nat, f: nat)
    requires Inv(s) && w < |s.workers| && s.workers[w].pc == Counted(f)
    ensures w < |SwapIn(s, w, f).workers| && PcRank(SwapIn(s, w, f).workers[w]) < PcRank(s.workers[w])
  {
    assert WorkerOk(s.workers[w], s.tasks, s.fibers);
    SwapInIs(s, w, f, s.workers[w].hand.value);
  }

  lemma DisposeRank(s: Global, w: nat, f: nat)
    requires w < |s.workers| && s.workers[w].pc == Uncounted(f) && f < |s.fibers|
    ensures w < |Dispose(s, w, f).workers| && PcRank(Dispose(s, w, f).workers[w]) < PcRank(s.workers[w])
  {
  }

  lemma PlainRank(s: Global, w: nat)
    requires w < |s.workers| && BookOk(s.workers[w])
    requires Plain(s.workers[w].pc) && !s.workers[w].pc.Exited?
    requires s.workers[w].pc.Leaving? ==> s.workers[w].pc.f < |s.fibers|
    ensures w < |WorkerStep(s, w).workers| && PcRank(WorkerStep(s, w).workers[w]) < PcRank(s.workers[w])
  {
  }

  lemma QuietRank(s: Global, w: nat)
    requires Good(s) && w < |s.workers| && Runs(s.workers[w]) && !s.workers[w].pc.Executing?
    ensures w < |WorkerStep(s, w).workers| && PcRank(WorkerStep(s, w).workers[w]) < PcRank(s.workers[w])
  {
    assert WorkerOk(s.workers[w], s.tasks, s.fibers);
    match s.workers[w].pc
    case Scanning => ScanRank(s, w);
    case Holding(_) => ChooseRank(s, w);
    case Counted(f) => SwapInRank(s, w, f);
    case Uncounted(f) => DisposeRank(s, w, f);
    case Prepared(_) => PlainRank(s, w);
    case Leaving(_, _) => PlainRank(s, w);
    case Back(_) => PlainRank(s, w);
    case IdleCounted => PlainRank(s, w);
    case IdleBack => PlainRank(s, w);
  }

  lemma ActDescends(s: Global, w: nat, f: nat, t: nat, p: Prog)
    requires Inv(s) && w < |s.workers| && s.workers[w].pc == Executing(f, t, p) && f < |s.fibers|
    ensures Rank(Perform(s, w, f, t, p)) < Rank(s)
  {
    hide Inv, Perform;
    var r := Perform(s, w, f, t, p);
    PerformIs(s, w, f, t, p);
    PerformPays(s, w, f, t, p);
    WorkerRanksUpdate(s.workers, w, r.workers[w]);
  }

  /** Every step of every worker brings the run nearer to its end. */
  lemma StepDescends(s: Global, w: nat)
    requires Good(s) && w < |s.workers| && Runs(s.workers[w])
    ensures Rank(WorkerStep(s, w)) < Rank(s)
  {
    var pc := s.workers[w].pc;
    if pc.Executing? {
      ExecutingFacts(s, w, pc.f, pc.task, pc.rest);
      ActDescends(s, w, pc.f, pc.task, pc.rest);
    } else {
      QuietStep(s, w);
      QuietRank(s, w);
      QuietDescends(s, WorkerStep(s, w), w);
    }
  }

  lemma QuietDescends(s: Global, r: Global, w: nat)
    requires w < |s.workers| && QuietFrame(s, r, w) && PcRank(r.workers[w]) < PcRank(s.workers[w])
    ensures Rank(r) < Rank(s)
  {
    WorkSame(s.tasks, r.tasks);
    WorkerRanksUpdate(s.workers, w, r.workers[w]);
  }

  ghost predicate WorkersOnly(moves: seq<Move>) {
    forall i :: 0 <= i < |moves| ==> moves[i].StepOf?
  }

  lemma {:induction false} RunsAreShort(s: Global, moves: seq<Move>, r: Global)
    requires Good(s) && Leads(s, moves, r) && WorkersOnly(moves)
    ensures |moves| + Rank(r) <= Rank(s)
    decreases |moves|
  {
    hide Good, Rank, WorkerStep;
    if moves != [] {
      StepDescends(s, moves[0].w);
      NextGood(s, moves[0]);
      RunsAreShort(Next(s, moves[0]), moves[1..], r);
    }
  }

  ghost predicate AllExited(s: Global) {
    forall w :: 0 <= w < |s.workers| ==> s.workers[w].pc == Exited
  }

  /** Termination: from any reachable state, left to themselves the workers make at most `Rank` more
      steps in any interleaving, and can make a step until all of them have left their loops. */
  lemma EveryRunEnds(s: Global, moves: seq<Move>, r: Global)
    requires Reachable(s) && Leads(s, moves, r) && WorkersOnly(moves)
    ensures |moves| <= Rank(s)
    ensures AllExited(r) <==> forall w: nat :: !Enabled(r, StepOf(w))
  {
    hide Reachable, Leads, Enabled, Rank, AllExited, WorkersOnly;
    ReachableGood(s);
    RunsAreShort(s, moves, r);
    LeadsGood(s, moves, r);
    NothingEnabled(r);
  }

  lemma NothingEnabled(s: Global)
    requires PcsOk(s.workers, s.tasks, s.fibers)
    ensures AllExited(s) <==> forall w: nat :: !Enabled(s, StepOf(w))
  {
    forall w | 0 <= w < |s.workers| ensures s.workers[w].pc == Exited <==> !Enabled(s, StepOf(w)) {
      assert WorkerOk(s.workers[w], s.tasks, s.fibers);
    }
  }

  // ----- what the workers leave behind

  /** The worker will look at the queue again, or has taken something from it. */
  predicate Alert(x: Worker) { Runs(x) && !(x.pc == Holding(None) && x.idleUsed) }

  ghost predicate AllPinned(q: seq<QueueEntry>) {
    forall i :: 0 <= i < |q| ==> q[i].thread != NONE
  }

  /** What any worker may take has a worker that will look. */
  ghost predicate Watched(s: Global) {
    AllPinned(s.queue) || exists w :: 0 <= w < |s.workers| && Alert(s.workers[w])
  }

  lemma ScanAlert(s: Global, w: nat)
    requires Inv(s) && w < |s.workers| && s.workers[w].pc == Scanning
    ensures var r := Scan(s, w);
      w < |r.workers| && (Alert(r.workers[w]) || (r.queue == s.queue && AllPinned(s.queue)))
  {
    GoodEligible(s, w);
    ScanOutcome(s, w);
  }

  lemma ChooseMoves(s: Global, w: nat)
    requires w < |s.workers| && s.workers[w].pc.Holding?
    ensures w < |Choose(s, w).workers| && !Choose(s, w).workers[w].pc.Holding? && Choose(s, w).queue == s.queue
    ensures !Alert(s.workers[w]) ==> Choose(s, w).workers[w].pc == Exited
  {
    hide Prepare;
    var ft := s.workers[w].pc.ft;
    if ft.Some? && ft.value.item.OfCallback? { PrepareMoves(s, w, ft.value.task, ft.value.item.prog); }
  }

  lemma PrepareMoves(s: Global, w: nat, t: nat, prog: Prog)
    requires w < |s.workers|
    ensures var r := Prepare(s, w, t, prog);
      w < |r.workers| && !r.workers[w].pc.Holding? && r.queue == s.queue
  {
  }

  lemma SwapInMoves(s: Global, w: nat, f: nat)
    requires w < |s.workers|
    ensures w < |SwapIn(s, w, f).workers| && !SwapIn(s, w, f).workers[w].pc.Holding?
  {
  }

  lemma PlainMoves(s: Global, w: nat)
    requires w < |s.workers| && Plain(s.workers[w].pc)
    ensures w < |WorkerStep(s, w).workers| && !WorkerStep(s, w).workers[w].pc.Holding?
  {
    hide Perform, Dispose, SwapIn, Choose, Scan;
  }

  lemma MovesOn(s: Global, w: nat)
    requires Inv(s) && w < |s.workers| && Runs(s.workers[w]) && s.workers[w].pc != Scanning
    ensures w < |WorkerStep(s, w).workers| && !WorkerStep(s, w).workers[w].pc.Holding?
  {
    hide Perform, Dispose, SwapIn, Choose, Scan, QueueOk, HandsOk, HomesOk, PoolsOk, ShapesOk;
    assert WorkerOk(s.workers[w], s.tasks, s.fibers);
    if Plain(s.workers[w].pc) { PlainMoves(s, w); }
    match s.workers[w].pc
    case Holding(_) => ChooseMoves(s, w);
    case Executing(f, t, p) => PerformIs(s, w, f, t, p);
    case Counted(f) => SwapInMoves(s, w, f);
    case Uncounted(f) => DisposeStays(s, w, f);
    case _ =>
  }

  /** A worker that is not alert can only leave; one that is stays so, or has found nothing unpinned. */
  lemma StepAlert(s: Global, w: nat)
    requires Good(s) && w < |s.workers| && Runs(s.workers[w])
    ensures var r := WorkerStep(s, w);
      && w < |r.workers| && (Alert(r.workers[w]) ==> Alert(s.workers[w]))
      && (!Alert(s.workers[w]) ==> r.queue == s.queue)
      && (Alert(s.workers[w]) && !Alert(r.workers[w]) ==> r.queue == s.queue && AllPinned(s.queue))
  {
    hide QueueOk, HandsOk, HomesOk, PoolsOk, ShapesOk, WorkerStep, AllPinned, BooksOk, CountersOk, SuspendedOk, Meaning;
    var x := s.workers[w];
    NextGood(s, StepOf(w));
    assert WorkerStep(s, w) == Next(s, StepOf(w));
    ExitsFromHolding(s, w);
    if x.pc == Scanning {
      StepScans(s, w);
      ScanAlert(s, w);
    } else {
      MovesOn(s, w);
      assert WorkerOk(WorkerStep(s, w).workers[w], WorkerStep(s, w).tasks, WorkerStep(s, w).fibers);
      if !Alert(x) { WorkerStepChooses(s, w); ChooseMoves(s, w); }
    }
  }

  lemma WorkerStepChooses(s: Global, w: nat)
    requires w < |s.workers| && s.workers[w].pc.Holding?
    ensures WorkerStep(s, w) == Choose(s, w)
  {
    hide Choose;
  }

  lemma StepFrame(s: Global, w: nat)
    requires Inv(s) && w < |s.workers| && Runs(s.workers[w])
    ensures var r := WorkerStep(s, w); w < |r.workers| && r.workers == s.workers[w := r.workers[w]]
  {
    var pc := s.workers[w].pc;
    if pc.Executing? {
      ExecutingFacts(s, w, pc.f, pc.task, pc.rest);
      PerformIs(s, w, pc.f, pc.task, pc.rest);
    } else {
      QuietStep(s, w);
    }
  }

  /** A step neither ends nor begins the watch. */
  lemma StepWatched(s: Global, w: nat)
    requires Good(s) && w < |s.workers| && Runs(s.workers[w])
    ensures Watched(WorkerStep(s, w)) <==> Watched(s)
  {
    hide WorkerStep, Alert, AllPinned;
    var r := WorkerStep(s, w);
    StepAlert(s, w);
    StepFrame(s, w);
    assert forall v :: 0 <= v < |s.workers| && v != w ==> r.workers[v] == s.workers[v];
    if v :| 0 <= v < |s.workers| && Alert(s.workers[v]) { assert v == w || Alert(r.workers[v]); }
    if v :| 0 <= v < |r.workers| && Alert(r.workers[v]) { assert v == w || Alert(s.workers[v]); }
  }

  lemma {:induction false} RunWatched(s: Global, moves: seq<Move>, r: Global)
    requires Good(s) && Leads(s, moves, r) && WorkersOnly(moves)
    ensures Watched(r) <==> Watched(s)
    decreases |moves|
  {
    hide Good, Watched, WorkerStep;
    if moves != [] {
      StepWatched(s, moves[0].w);
      NextGood(s, moves[0]);
      RunWatched(Next(s, moves[0]), moves[1..], r);
    }
  }

  /** When, left to themselves, all the workers have left their loops: every unfinished task is parked or
      queued, and nothing is queued that any of them could have taken if and only if, to begin with, what
      was unpinned was watched. */
  lemma WhatIsLeft(s: Global, moves: seq<Move>, r: Global)
    requires Reachable(s) && Leads(s, moves, r) && WorkersOnly(moves) && AllExited(r)
    ensures AllPinned(r.queue) <==> Watched(s)
    ensures forall t :: 0 <= t < |r.tasks| && Unfinished(r.tasks[t]) ==>
      r.tasks[t].place == Parked || HasEntry(r.queue, t)
  {
    hide Reachable, Leads, WorkersOnly, Good;
    ReachableGood(s);
    RunWatched(s, moves, r);
    LeadsGood(s, moves, r);
    forall t | 0 <= t < |r.tasks| && Unfinished(r.tasks[t]) ensures r.tasks[t].place == Parked || HasEntry(r.queue, t) {
      LeftWhere(r, t);
    }
  }

  lemma LeftWhere(s: Global, t: nat)
    requires Good(s) && AllExited(s) && t < |s.tasks| && Unfinished(s.tasks[t])
    ensures s.tasks[t].place == Parked || HasEntry(s.queue, t)
  {
    hide Meaning, CountersOk, BooksOk, SuspendedOk, PoolsOk, ShapesOk;
    assert Settled(t, s.tasks[t], s.fibers);
    if s.tasks[t].place.With? {
      HandsBusy(s, s.tasks[t].place.w);
    }
  }

  lemma HandsBusy(s: Global, w: nat)
    requires PcsOk(s.workers, s.tasks, s.fibers) && w < |s.workers| && s.workers[w].hand.Some?
    ensures s.workers[w].pc != Exited
  {
    assert WorkerOk(s.workers[w], s.tasks, s.fibers);
  }

  // ----- conservation

  function PlacedSet(tasks: seq<Task>, kind: int): set<nat> {
    set t: nat | t < |tasks| && Kind(tasks[t].place) == kind
  }

  function Kind(p: Place): int {
    match p case InQueue => 0 case With(_) => 1 case Parked => 2 case Done => 3
  }

  function BusyOf(workers: seq<Worker>): set<nat> {
    set w: nat | w < |workers| && workers[w].hand.Some?
  }

  lemma {:induction false} DistinctCount(q: seq<QueueEntry>, owners: set<nat>)
    requires forall i, j :: 0 <= i < j < |q| ==> q[i].task != q[j].task
    requires forall t :: t in owners <==> HasEntry(q, t)
    ensures |owners| == |q|
    decreases |q|
  {
    if q == [] {
      assert owners == {};
    } else {
      var n := |q| - 1;
      var fewer := owners - {q[n].task};
      forall t ensures t in fewer <==> HasEntry(q[..n], t) {
        if HasEntry(q[..n], t) {
          var i :| 0 <= i < n && q[..n][i].task == t;
          assert q[i].task == t && HasEntry(q, t);
        }
        if t in fewer {
          var i :| 0 <= i < |q| && q[i].task == t;
          assert q[..n][i].task == t;
        }
      }
      DistinctCount(q[..n], fewer);
      assert HasEntry(q, q[n].task);
    }
  }

  lemma {:induction false} HandCount(workers: seq<Worker>, busy: set<nat>, held: set<nat>)
    requires forall w :: w in busy ==> w < |workers| && workers[w].hand.Some? && workers[w].hand.value in held
    requires forall v, w :: v in busy && w in busy && v != w ==> workers[v].hand != workers[w].hand
    requires forall t :: t in held ==> exists w :: w in busy && workers[w].hand == Some(t)
    ensures |busy| == |held|
    decreases |busy|
  {
    if busy == {} {
      assert held == {};
    } else {
      var w :| w in busy;
      var t := workers[w].hand.value;
      forall u | u in held - {t} ensures exists v :: v in busy - {w} && workers[v].hand == Some(u) {
        var v :| v in busy && workers[v].hand == Some(u);
        assert v in busy - {w};
      }
      HandCount(workers, busy - {w}, held - {t});
    }
  }

  lemma {:induction false} PlacesCount(tasks: seq<Task>)
    ensures |tasks| == |PlacedSet(tasks, 0)| + |PlacedSet(tasks, 1)| + |PlacedSet(tasks, 2)| + |PlacedSet(tasks, 3)|
    decreases |tasks|
  {
    if tasks != [] {
      var n := |tasks| - 1;
      PlacesCount(tasks[..n]);
      PlacedSnoc(tasks, 0); PlacedSnoc(tasks, 1); PlacedSnoc(tasks, 2); PlacedSnoc(tasks, 3);
    }
  }

  lemma PlacedSnoc(tasks: seq<Task>, kind: int)
    requires tasks != []
    ensures var n := |tasks| - 1;
      |PlacedSet(tasks, kind)| == |PlacedSet(tasks[..n], kind)| + if Kind(tasks[n].place) == kind then 1 else 0
  {
    var n := |tasks| - 1;
    var before, after := PlacedSet(tasks[..n], kind), PlacedSet(tasks, kind);
    if Kind(tasks[n].place) == kind { assert after == before + {n}; } else { assert after == before; }
  }

  /** No task is lost or doubled: all that were ever submitted or spawned are queued, in hand, parked
      or over; the queue and the hands hold exactly so many; and the counters count the workers that
      stand between the matching increment and decrement. */
  lemma Conservation(s: Global)
    requires Reachable(s)
    ensures |s.tasks| == |s.queue| + |BusyOf(s.workers)| + |PlacedSet(s.tasks, 2)| + |PlacedSet(s.tasks, 3)|
    ensures s.active == ActiveOf(s.workers) >= 0 && s.idle == IdlersOf(s.workers) >= 0
  {
    ReachableGood(s);
    Conserved(s);
  }

  lemma Conserved(s: Global)
    requires QueueOk(s.queue, s.tasks) && HandsOk(s.workers, s.tasks)
    ensures |s.tasks| == |s.queue| + |BusyOf(s.workers)| + |PlacedSet(s.tasks, 2)| + |PlacedSet(s.tasks, 3)|
  {
    PlacesCount(s.tasks);
    var queued, held := PlacedSet(s.tasks, 0), PlacedSet(s.tasks, 1);
    forall t: nat ensures t in queued <==> HasEntry(s.queue, t) {
      if HasEntry(s.queue, t) {
        var i :| 0 <= i < |s.queue| && s.queue[i].task == t;
        assert EntryOk(s.queue[i], s.tasks);
      }
    }
    DistinctCount(s.queue, queued);
    forall t | t in held ensures exists w :: w in BusyOf(s.workers) && s.workers[w].hand == Some(t) {
      assert s.tasks[t].place.w in BusyOf(s.workers);
    }
    HandCount(s.workers, BusyOf(s.workers), held);
  }
}
