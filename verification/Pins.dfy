/** What a pin is worth over a whole run of any number of workers. */
module Pins {
  import opened Wrappers
  import opened Programs
  import opened Machine
  import opened Ownership
  import opened Interleaving
  import opened States

  /** The task has never yielded READY. */
  ghost predicate NeverReady(trace: seq<Event>, t: nat) {
    Did(YieldReady) !in Projection(trace, t)
  }

  /** Every call that enqueued the task named the same thread, and it has never yielded READY. */
  ghost predicate Pinned(s: Global, t: nat)
    requires t < |s.tasks|
  {
    var asked := s.tasks[t].asked;
    && |asked| > 0 && asked[0] != NONE && (forall i :: 0 <= i < |asked| ==> asked[i] == asked[0])
    && NeverReady(s.trace, t)
  }

  /** What the entry of a queued task is pinned to. */
  function Pin(s: Global, t: nat): int
    requires t < |s.tasks| && |s.tasks[t].asked| > 0
  {
    if Last(s.trace, t) == Some(Did(YieldReady)) then NONE else s.tasks[t].asked[|s.tasks[t].asked| - 1]
  }

  ghost predicate EntryPinned(s: Global, e: QueueEntry) {
    e.task < |s.tasks| && |s.tasks[e.task].asked| > 0 && e.thread == Pin(s, e.task)
  }

  /** All steps of the task so far, and the worker that has it, are of the thread it is pinned to. */
  ghost predicate RunsAtHome(s: Global, t: nat)
    requires t < |s.tasks| && |s.trace| == |s.tids| && Pinned(s, t)
  {
    && (forall i :: 0 <= i < |s.trace| && s.trace[i].task == t ==> s.tids[i] == s.tasks[t].asked[0])
    && (s.tasks[t].place.With? ==>
          s.tasks[t].place.w < |s.workers| && s.workers[s.tasks[t].place.w].tid == s.tasks[t].asked[0])
  }

  ghost predicate PinsOk(s: Global) {
    && |s.trace| == |s.tids|
    && (forall t :: 0 <= t < |s.tasks| ==> |s.tasks[t].asked| > 0)
    && (forall i :: 0 <= i < |s.queue| ==> EntryPinned(s, s.queue[i]))
    && (forall t :: 0 <= t < |s.tasks| && Pinned(s, t) ==> RunsAtHome(s, t))
  }

  lemma NeverReadyPrefix(trace: seq<Event>, e: Event, t: nat)
    requires NeverReady(trace + [e], t)
    ensures NeverReady(trace, t)
  {
    ProjectionSnoc(trace, e, t);
    var p := Projection(trace, t);
    assert forall x :: x in p ==> x in Projection(trace + [e], t);
  }

  lemma LastReady(trace: seq<Event>, t: nat)
    requires Last(trace, t) == Some(Did(YieldReady))
    ensures !NeverReady(trace, t)
  {
  }

  /** Threads, enqueue calls and history stay as they were. */
  ghost predicate SameHistory(s: Global, r: Global) {
    && r.trace == s.trace && r.tids == s.tids
    && |r.tasks| == |s.tasks| && (forall t :: 0 <= t < |s.tasks| ==> r.tasks[t].asked == s.tasks[t].asked)
    && |r.workers| == |s.workers| && (forall w :: 0 <= w < |s.workers| ==> r.workers[w].tid == s.workers[w].tid)
  }

  /** A step that moves at most one task, and that one into no worker's hands. */
  lemma QuietPins(s: Global, r: Global, t: nat)
    requires PinsOk(s) && SameHistory(s, r)
    requires forall u :: 0 <= u < |s.tasks| && u != t ==> r.tasks[u].place == s.tasks[u].place
    requires t < |s.tasks| ==> (r.tasks[t].place == s.tasks[t].place || !r.tasks[t].place.With?)
    requires forall i :: 0 <= i < |r.queue| ==> r.queue[i] in s.queue || EntryPinned(r, r.queue[i])
    ensures PinsOk(r)
  {
    forall i | 0 <= i < |r.queue| ensures EntryPinned(r, r.queue[i]) {
      if r.queue[i] in s.queue { assert EntryPinned(s, r.queue[i]); }
    }
    forall u | 0 <= u < |r.tasks| && Pinned(r, u) ensures RunsAtHome(r, u) {
      assert Pinned(s, u);
    }
  }

  lemma SubmitPins(s: Global, prog: Prog, asFiber: bool, thread: int)
    requires PinsOk(s) && Silent(s.trace, |s.tasks|)
    ensures PinsOk(Submit(s, prog, asFiber, thread))
  {
    var n, r := |s.tasks|, Submit(s, prog, asFiber, thread);
    forall i | 0 <= i < |r.queue| ensures EntryPinned(r, r.queue[i]) {
      if i < |s.queue| { assert EntryPinned(s, s.queue[i]); }
    }
    forall t | 0 <= t < |r.tasks| && Pinned(r, t) ensures RunsAtHome(r, t) {
      if t < n { assert Pinned(s, t); } else { NothingDone(s.trace, n); }
    }
  }

  lemma {:induction false} NothingDone(trace: seq<Event>, t: nat)
    requires Silent(trace, t)
    ensures forall i :: 0 <= i < |trace| ==> trace[i].task != t
    decreases |trace|
  {
    if trace != [] { NothingDone(trace[..|trace| - 1], t); }
  }

  lemma WakePins(s: Global, t: nat, thread: int)
    requires Inv(s) && AllTell(s) && PinsOk(s)
    ensures PinsOk(WakeUp(s, t, thread))
  {
    var r := WakeUp(s, t, thread);
    if t < |s.tasks| && s.tasks[t].home.Some? && MayWake(s, s.tasks[t].home.value) {
      MayWakeIsParked(s, t);
      assert Settled(t, s.tasks[t], s.fibers) && TaskTells(s, t);
      forall i | 0 <= i < |r.queue| ensures EntryPinned(r, r.queue[i]) {
        if i < |s.queue| { assert EntryPinned(s, s.queue[i]) && EntryOk(s.queue[i], s.tasks); }
      }
      forall u | 0 <= u < |r.tasks| && Pinned(r, u) ensures RunsAtHome(r, u) {
        if u == t { PinnedBefore(s, r, t, thread); }
        assert Pinned(s, u);
      }
    }
  }

  lemma PinnedBefore(s: Global, r: Global, t: nat, thread: int)
    requires t < |s.tasks| == |r.tasks| && r.tasks[t].asked == s.tasks[t].asked + [thread] && r.trace == s.trace
    requires |s.trace| == |s.tids| && r.tids == s.tids && Pinned(r, t) && |s.tasks[t].asked| > 0
    ensures Pinned(s, t) && r.tasks[t].asked[0] == s.tasks[t].asked[0]
  {
    var a, b := s.tasks[t].asked, r.tasks[t].asked;
    assert forall i :: 0 <= i < |a| ==> b[i] == a[i];
  }

  // ----- the steps of a worker

  lemma ScanPins(s: Global, w: nat)
    requires Inv(s) && PinsOk(s) && w < |s.workers| && s.workers[w].pc == Scanning
    ensures PinsOk(Scan(s, w))
  {
    hide PinsOk, Mine, EntryPinned;
    var k := ScanFrom(s.queue, s.fibers, s.workers[w].tid, 0);
    ScanHistory(s, w);
    if k == |s.queue| {
      OtherPins(s, Scan(s, w));
    } else {
      PinnedEntry(s, k);
      TakePins(s, Scan(s, w), w, s.queue[k]);
    }
  }

  lemma PinnedEntry(s: Global, k: nat)
    requires PinsOk(s) && k < |s.queue|
    ensures EntryPinned(s, s.queue[k])
  {
  }

  lemma ScanHistory(s: Global, w: nat)
    requires QueueOk(s.queue, s.tasks) && w < |s.workers| && s.workers[w].pc == Scanning
    ensures var k, r := ScanFrom(s.queue, s.fibers, s.workers[w].tid, 0), Scan(s, w);
      && SameHistory(s, r) && (k == |s.queue| ==> r.queue == s.queue && r.tasks == s.tasks)
      && (k < |s.queue| ==>
            var e := s.queue[k];
            && Mine(e, s.workers[w].tid) && e.task < |s.tasks|
            && r.tasks == s.tasks[e.task := s.tasks[e.task].(place := With(w))]
            && (forall i :: 0 <= i < |r.queue| ==> r.queue[i] in s.queue))
  {
    var k := ScanFrom(s.queue, s.fibers, s.workers[w].tid, 0);
    if k < |s.queue| { ScanTakes(s, w, k); }
  }

  lemma ScanTakes(s: Global, w: nat, k: nat)
    requires QueueOk(s.queue, s.tasks) && w < |s.workers|
    requires k == ScanFrom(s.queue, s.fibers, s.workers[w].tid, 0) < |s.queue|
    ensures var r, e := Scan(s, w), s.queue[k];
      && Mine(e, s.workers[w].tid) && e.task < |s.tasks|
      && r.tasks == s.tasks[e.task := s.tasks[e.task].(place := With(w))]
      && (forall i :: 0 <= i < |r.queue| ==> r.queue[i] in s.queue)
  {
    assert EntryOk(s.queue[k], s.tasks);
    hide EntryOk, QueueOk;
    var q := Scan(s, w).queue;
    assert forall i :: 0 <= i < |q| ==> q[i] == s.queue[if i < k then i else i + 1];
  }

  /** The worker that draws a pinned task's entry is of the thread it is pinned to. */
  lemma TakePins(s: Global, r: Global, w: nat, e: QueueEntry)
    requires PinsOk(s) && SameHistory(s, r) && w < |s.workers|
    requires EntryPinned(s, e) && Mine(e, s.workers[w].tid)
    requires r.tasks == s.tasks[e.task := s.tasks[e.task].(place := With(w))]
    requires forall i :: 0 <= i < |r.queue| ==> r.queue[i] in s.queue
    ensures PinsOk(r)
  {
    forall i | 0 <= i < |r.queue| ensures EntryPinned(r, r.queue[i]) {
      assert EntryPinned(s, r.queue[i]);
    }
    forall u | 0 <= u < |r.tasks| && Pinned(r, u) ensures RunsAtHome(r, u) {
      assert Pinned(s, u);
      if u == e.task && Pin(s, u) == NONE { LastReady(s.trace, u); }
    }
  }

  /** An action of task `t` on worker `w`. */
  lemma LogPins(s: Global, r: Global, w: nat, t: nat, step: Step)
    requires PinsOk(s) && w < |s.workers| && t < |s.tasks| && s.tasks[t].place == With(w) && QueueOk(s.queue, s.tasks)
    requires r.trace == s.trace + [Event(t, step)] && r.tids == s.tids + [s.workers[w].tid]
    requires r.queue == s.queue && |r.tasks| == |s.tasks|
    requires forall u :: 0 <= u < |s.tasks| ==> r.tasks[u].asked == s.tasks[u].asked && r.tasks[u].place == s.tasks[u].place
    requires |r.workers| == |s.workers| && forall v :: 0 <= v < |s.workers| ==> r.workers[v].tid == s.workers[v].tid
    ensures PinsOk(r)
  {
    forall i | 0 <= i < |r.queue| ensures EntryPinned(r, r.queue[i]) {
      assert EntryPinned(s, r.queue[i]) && EntryOk(r.queue[i], s.tasks);
      LastSnoc(s.trace, Event(t, step), r.queue[i].task);
    }
    forall u | 0 <= u < |r.tasks| && Pinned(r, u) ensures RunsAtHome(r, u) {
      NeverReadyPrefix(s.trace, Event(t, step), u);
      assert Pinned(s, u);
    }
  }

  lemma PerformPins(s: Global, w: nat, f: nat, t: nat, p: Prog)
    requires Good(s) && AllTell(s) && PinsOk(s) && w < |s.workers| && s.workers[w].pc == Executing(f, t, p) && f < |s.fibers|
    ensures PinsOk(Perform(s, w, f, t, p))
  {
    ExecutingFacts(s, w, f, t, p);
    if GoesOn(p) {
      GoOnPins(s, w, f, t, p);
    } else {
      LeavePins(s, w, f, t, p);
    }
  }

  lemma LeavePins(s: Global, w: nat, f: nat, t: nat, p: Prog)
    requires Inv(s) && PinsOk(s) && w < |s.workers| && s.workers[w].pc == Executing(f, t, p) && f < |s.fibers|
    requires !GoesOn(p)
    ensures PinsOk(Perform(s, w, f, t, p))
  {
    ExecutingFacts(s, w, f, t, p);
    LeaveHistory(s, w, f, t, p);
    hide Perform;
    LogPins(s, Perform(s, w, f, t, p), w, t, FirstStep(p));
  }

  lemma LeaveHistory(s: Global, w: nat, f: nat, t: nat, p: Prog)
    requires w < |s.workers| && f < |s.fibers| && t < |s.tasks| && !GoesOn(p)
    ensures var r := Perform(s, w, f, t, p);
      && r.trace == s.trace + [Event(t, FirstStep(p))] && r.tids == s.tids + [s.workers[w].tid]
      && r.queue == s.queue && |r.tasks| == |s.tasks|
      && (forall u :: 0 <= u < |s.tasks| ==> r.tasks[u].asked == s.tasks[u].asked && r.tasks[u].place == s.tasks[u].place)
      && |r.workers| == |s.workers| && (forall v :: 0 <= v < |s.workers| ==> r.workers[v].tid == s.workers[v].tid)
  {
    var fb := s.fibers[f];
    hide Leave;
    if p.Return? {
      LeavingHistory(s, w, f, t, Returned, fb.(state := TERM, cb := Empty), None);
    } else if p.Throw? {
      LeavingHistory(s, w, f, t, Threw, fb.(state := EXCEPT), None);
    } else if p.act.YieldReady? {
      LeavingHistory(s, w, f, t, Did(p.act), fb.(state := READY), Some(p.rest));
    } else if p.act.YieldHold? {
      LeavingHistory(s, w, f, t, Did(p.act), fb.(state := HOLD), Some(p.rest));
    } else {
      LeavingHistory(s, w, f, t, Did(p.act), fb, Some(p.rest));
    }
  }

  lemma LeavingHistory(s: Global, w: nat, f: nat, t: nat, step: Step, fb: Fiber, todo: Option<Prog>)
    requires w < |s.workers| && t < |s.tasks|
    ensures var r := Leave(Log(s, w, t, step), w, f, fb, t, todo);
      && r.trace == s.trace + [Event(t, step)] && r.tids == s.tids + [s.workers[w].tid]
      && r.queue == s.queue && |r.tasks| == |s.tasks|
      && (forall u :: 0 <= u < |s.tasks| ==> r.tasks[u].asked == s.tasks[u].asked && r.tasks[u].place == s.tasks[u].place)
      && |r.workers| == |s.workers| && (forall v :: 0 <= v < |s.workers| ==> r.workers[v].tid == s.workers[v].tid)
  {
  }

  lemma GoOnPins(s: Global, w: nat, f: nat, t: nat, p: Prog)
    requires Good(s) && AllTell(s) && PinsOk(s) && w < |s.workers| && s.workers[w].pc == Executing(f, t, p) && f < |s.fibers|
    requires GoesOn(p)
    ensures PinsOk(Perform(s, w, f, t, p))
  {
    var b := Continue(Log(s, w, t, Did(p.act)), w, f, t, p.rest);
    ExecutingFacts(s, w, f, t, p);
    LogPins(s, b, w, t, Did(p.act));
    ContinueTells(s, w, f, t, p, Did(p.act), p.rest);
    ContinueStep(s, w, f, t, p, Did(p.act), p.rest);
    LogOther(s.trace, Event(t, Did(p.act)), |s.tasks|, s.tasks[t]);
    assert b.trace == s.trace + [Event(t, Did(p.act))] && |b.tasks| == |s.tasks|;
    assert Silent(b.trace, |b.tasks|);
    GoOnMore(s, b, w, f, t, p);
  }

  lemma GoOnMore(s: Global, b: Global, w: nat, f: nat, t: nat, p: Prog)
    requires w < |s.workers| && f < |s.fibers| && GoesOn(p)
    requires b == Continue(Log(s, w, t, Did(p.act)), w, f, t, p.rest)
    requires Inv(b) && AllTell(b) && PinsOk(b) && Silent(b.trace, |b.tasks|)
    ensures PinsOk(Perform(s, w, f, t, p))
  {
    hide AllTell, Continue, Silent, Inv, PinsOk, Submit, WakeUp;
    match p.act
    case Spawn(child, asFiber, thread) => SubmitPins(b, child, asFiber, thread);
    case Wake(u, thread) => WakePins(b, u, thread);
    case _ =>
  }

  lemma DisposePins(s: Global, w: nat, f: nat)
    requires Inv(s) && AllTell(s) && PinsOk(s) && w < |s.workers| && s.workers[w].pc == Uncounted(f) && f < |s.fibers|
    ensures PinsOk(Dispose(s, w, f))
  {
    var x := s.workers[w];
    assert WorkerOk(x, s.tasks, s.fibers) && WorkerTells(s, x);
    var t := x.hand.value;
    DisposeHistory(s, w, f, t);
    hide Dispose, AllTell;
    QuietPins(s, Dispose(s, w, f), t);
  }

  lemma DisposeHistory(s: Global, w: nat, f: nat, t: nat)
    requires w < |s.workers| && f < |s.fibers| && s.workers[w].hand == Some(t) && t < |s.tasks| && |s.tasks[t].asked| > 0
    requires s.fibers[f].state == READY ==> Last(s.trace, t) == Some(Did(YieldReady))
    ensures var r := Dispose(s, w, f);
      && SameHistory(s, r) && !r.tasks[t].place.With?
      && (forall u :: 0 <= u < |s.tasks| && u != t ==> r.tasks[u].place == s.tasks[u].place)
      && (forall i :: 0 <= i < |r.queue| ==> r.queue[i] in s.queue || EntryPinned(r, r.queue[i]))
  {
    var r := Dispose(s, w, f);
    forall i | 0 <= i < |r.queue| ensures r.queue[i] in s.queue || EntryPinned(r, r.queue[i]) {
      if i < |s.queue| { assert r.queue[i] == s.queue[i]; }
    }
  }

  /** All other steps leave queue and places alone. */
  lemma OtherPins(s: Global, r: Global)
    requires PinsOk(s) && SameHistory(s, r) && r.queue == s.queue
    requires forall u :: 0 <= u < |s.tasks| ==> r.tasks[u].place == s.tasks[u].place
    ensures PinsOk(r)
  {
    QuietPins(s, r, |s.tasks|);
  }

  lemma ChooseHistory(s: Global, w: nat)
    requires w < |s.workers| && s.workers[w].pc.Holding?
    ensures SameHistory(s, Choose(s, w)) && Choose(s, w).queue == s.queue
    ensures forall u :: 0 <= u < |s.tasks| ==> Choose(s, w).tasks[u].place == s.tasks[u].place
  {
    hide Prepare, IdleBranch;
    var ft := s.workers[w].pc.ft;
    if ft.Some? && ft.value.item.OfCallback? {
      PrepareHistory(s, w, ft.value.task, ft.value.item.prog);
    } else {
      IdleHistory(s, w);
    }
  }

  lemma PrepareHistory(s: Global, w: nat, t: nat, prog: Prog)
    requires w < |s.workers|
    ensures var r := Prepare(s, w, t, prog);
      SameHistory(s, r) && r.queue == s.queue && forall u :: 0 <= u < |s.tasks| ==> r.tasks[u].place == s.tasks[u].place
  {
  }

  lemma IdleHistory(s: Global, w: nat)
    requires w < |s.workers|
    ensures var r := IdleBranch(s, w); SameHistory(s, r) && r.queue == s.queue && r.tasks == s.tasks
  {
  }

  lemma SwapInHistory(s: Global, w: nat, f: nat)
    requires w < |s.workers|
    ensures var r := SwapIn(s, w, f); SameHistory(s, r) && r.queue == s.queue && r.tasks == s.tasks
  {
  }

  lemma PlainHistory(s: Global, w: nat)
    requires w < |s.workers| && Plain(s.workers[w].pc)
    ensures var r := WorkerStep(s, w); SameHistory(s, r) && r.queue == s.queue && r.tasks == s.tasks
  {
    hide Perform, Dispose, SwapIn, Choose, Scan;
  }

  lemma StepPins(s: Global, w: nat)
    requires Good(s) && AllTell(s) && PinsOk(s) && w < |s.workers| && Runs(s.workers[w])
    ensures PinsOk(WorkerStep(s, w))
  {
    assert WorkerOk(s.workers[w], s.tasks, s.fibers);
    hide AllTell, PinsOk, SameHistory, Perform, Dispose, SwapIn, Choose, Scan;
    if Plain(s.workers[w].pc) {
      PlainHistory(s, w);
      OtherPins(s, WorkerStep(s, w));
    }
    match s.workers[w].pc
    case Scanning => ScanPins(s, w);
    case Holding(_) => ChooseHistory(s, w); OtherPins(s, Choose(s, w));
    case Counted(f) => SwapInHistory(s, w, f); OtherPins(s, SwapIn(s, w, f));
    case Executing(f, t, p) => ExecutingFacts(s, w, f, t, p); PerformPins(s, w, f, t, p);
    case Uncounted(f) => DisposePins(s, w, f);
    case _ =>
  }

  lemma NextPins(s: Global, m: Move)
    requires Good(s) && AllTell(s) && PinsOk(s) && Enabled(s, m)
    ensures PinsOk(Next(s, m))
  {
    match m
    case StepOf(w) => StepPins(s, w);
    case NewTask(prog, asFiber, thread) => SubmitPins(s, prog, asFiber, thread);
    case WakeTask(t, thread) => WakePins(s, t, thread);
    case _ => OtherPins(s, Next(s, m));
  }

  lemma {:induction false} LeadsPins(s: Global, moves: seq<Move>, r: Global)
    requires Good(s) && AllTell(s) && PinsOk(s) && Leads(s, moves, r)
    ensures PinsOk(r)
    decreases |moves|
  {
    hide Good, AllTell, PinsOk, Next, Enabled;
    if moves != [] {
      NextGood(s, moves[0]);
      NextTells(s, moves[0]);
      NextPins(s, moves[0]);
      LeadsPins(Next(s, moves[0]), moves[1..], r);
    }
  }

  lemma ReachablePins(s: Global)
    requires Reachable(s)
    ensures PinsOk(s)
  {
    var s0, moves :| Initial(s0) && Leads(s0, moves, s);
    InitialGood(s0);
    LeadsPins(s0, moves, s);
  }

  // ----- the laws

  /** A task that every enqueue call pins to thread `k`, and that never yields READY, runs on `k` and on no
      other thread, from its first step to its last. */
  lemma PinnedRunsAtHome(s: Global, t: nat, k: int)
    requires Reachable(s) && t < |s.tasks| && k != NONE
    requires forall x :: x in s.tasks[t].asked ==> x == k
    requires Did(YieldReady) !in Projection(s.trace, t)
    ensures |s.trace| == |s.tids|
    ensures forall i :: 0 <= i < |s.trace| && s.trace[i].task == t ==> s.tids[i] == k
  {
    ReachablePins(s);
    var asked := s.tasks[t].asked;
    assert forall i :: 0 <= i < |asked| ==> asked[i] in asked;
    assert Pinned(s, t);
  }

  /** What an entry is pinned to, in every reachable state: nothing if the task's last step was to yield
      READY, and otherwise the thread named by the last call that enqueued it. */
  lemma PinOfEntry(s: Global, i: nat)
    requires Reachable(s) && i < |s.queue|
    ensures s.queue[i].task < |s.tasks| && |s.tasks[s.queue[i].task].asked| > 0
    ensures var t, asked := s.queue[i].task, s.tasks[s.queue[i].task].asked;
      s.queue[i].thread == if Last(s.trace, t) == Some(Did(YieldReady)) then NONE else asked[|asked| - 1]
  {
    ReachablePins(s);
    assert EntryPinned(s, s.queue[i]);
  }
}
