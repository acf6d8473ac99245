/** When a run serves everything, and when it leaves work in the queue. */
module Drain {
  import opened Programs
  import opened Reference
  import opened Recycling
  import opened RunLaws

  // ----- spent entries

  predicate Spent(slot: Slot, table: seq<Task>, me: int) {
    Runnable(slot, me) && slot.task < |table| && !Live(table[slot.task].status)
  }

  /** Entries that thread `me` would draw and throw away because their task is over. */
  function SpentIn(q: seq<Slot>, table: seq<Task>, me: int): nat {
    if q == [] then 0
    else SpentIn(q[..|q| - 1], table, me) + if Spent(q[|q| - 1], table, me) then 1 else 0
  }

  predicate NoneRunnable(q: seq<Slot>, me: int) {
    forall i :: 0 <= i < |q| ==> !Runnable(q[i], me)
  }

  /** No live task is queued twice. */
  ghost predicate Tidy(q: seq<Slot>, table: seq<Task>) {
    forall i, j :: 0 <= i < j < |q| && q[i].task == q[j].task
      ==> q[i].task < |table| && !Live(table[q[i].task].status)
  }

  lemma {:induction false} SpentConcat(q: seq<Slot>, r: seq<Slot>, table: seq<Task>, me: int)
    ensures SpentIn(q + r, table, me) == SpentIn(q, table, me) + SpentIn(r, table, me)
    decreases |r|
  {
    if r == [] {
      assert q + r == q;
    } else {
      var n := |r| - 1;
      SpentConcat(q, r[..n], table, me);
      assert (q + r)[..|q + r| - 1] == q + r[..n];
    }
  }

  lemma SpentRemove(q: seq<Slot>, i: nat, table: seq<Task>, me: int)
    requires i < |q|
    ensures SpentIn(q, table, me)
         == SpentIn(q[..i] + q[i + 1..], table, me) + (if Spent(q[i], table, me) then 1 else 0)
  {
    SpentConcat(q[..i], q[i + 1..], table, me);
    SpentConcat(q[..i] + [q[i]], q[i + 1..], table, me);
    SpentConcat(q[..i], [q[i]], table, me);
    assert q == q[..i] + [q[i]] + q[i + 1..];
    assert [q[i]][..0] == [];
  }

  /** Counting depends only on which entries are spent; spent entries never revive. */
  lemma {:induction false} SpentMonotone(q: seq<Slot>, table: seq<Task>, later: seq<Task>, me: int)
    requires forall i :: 0 <= i < |q| && Spent(q[i], table, me) ==> Spent(q[i], later, me)
    ensures SpentIn(q, table, me) <= SpentIn(q, later, me)
    decreases |q|
  {
    if q != [] { SpentMonotone(q[..|q| - 1], table, later, me); }
  }

  lemma SpentSame(q: seq<Slot>, table: seq<Task>, later: seq<Task>, me: int)
    requires forall i :: 0 <= i < |q| ==> (Spent(q[i], table, me) <==> Spent(q[i], later, me))
    ensures SpentIn(q, table, me) == SpentIn(q, later, me)
  {
    SpentMonotone(q, table, later, me);
    SpentMonotone(q, later, table, me);
  }

  lemma {:induction false} SpentNone(q: seq<Slot>, table: seq<Task>, me: int)
    requires NoneRunnable(q, me)
    ensures SpentIn(q, table, me) == 0
    decreases |q|
  {
    if q != [] { SpentNone(q[..|q| - 1], table, me); }
  }

  /** Adding an entry of a task nobody else has queued keeps the queue tidy. */
  lemma TidyAdd(q: seq<Slot>, table: seq<Task>, later: seq<Task>, slot: Slot, me: int)
    requires Tidy(q, table) && !HasSlot(q, slot.task)
    requires forall i :: 0 <= i < |q| ==> q[i].task < |table| <= |later| && later[q[i].task] == table[q[i].task]
    requires slot.task < |later| && Live(later[slot.task].status)
    ensures Tidy(q + [slot], later)
    ensures SpentIn(q + [slot], later, me) == SpentIn(q, table, me)
  {
    SpentConcat(q, [slot], later, me);
    assert [slot][..0] == [];
    SpentSame(q, table, later, me);
  }

  /** Removing an entry keeps the queue tidy; if its task is live, no entry of it is left. */
  lemma TidyRemove(q: seq<Slot>, table: seq<Task>, i: nat)
    requires Tidy(q, table) && i < |q| && q[i].task < |table|
    ensures Tidy(q[..i] + q[i + 1..], table)
    ensures Live(table[q[i].task].status) ==> !HasSlot(q[..i] + q[i + 1..], q[i].task)
  {
    var r := q[..i] + q[i + 1..];
    assert forall k :: 0 <= k < |r| ==> r[k] == q[if k < i then k else k + 1];
  }

  /** What a polite slice of `u` keeps. */
  ghost predicate TidyRun(a: Sched, u: nat, me: int, spent: nat) {
    Tidy(a.queue, a.table) && !HasSlot(a.queue, u) && SpentIn(a.queue, a.table, me) == spent
  }

  lemma NotQueuedAfter(q: seq<Slot>, slot: Slot, u: nat)
    requires !HasSlot(q, u) && slot.task != u
    ensures !HasSlot(q + [slot], u)
  {
    forall k | 0 <= k <= |q| ensures (q + [slot])[k].task != u {
      if k < |q| { assert q[k].task != u; }
    }
  }

  lemma SubmitTidy(a: Sched, u: nat, prog: Prog, asFiber: bool, thread: int, me: int, spent: nat)
    requires EntriesOk(a.queue, a.table) && TidyRun(a, u, me, spent) && u < |a.table|
    ensures TidyRun(Submit(a, prog, asFiber, thread), u, me, spent)
  {
    hide SpentIn, Tidy;
    var slot := Slot(|a.table|, thread);
    NotQueuedAfter(a.queue, slot, u);
    TidyAdd(a.queue, a.table, Submit(a, prog, asFiber, thread).table, slot, me);
  }

  lemma WakeTidy(a: Sched, u: nat, t: nat, thread: int, me: int, spent: nat)
    requires EntriesOk(a.queue, a.table) && TidyRun(a, u, me, spent)
    requires u < |a.table| && a.table[u].status.Running? && WakeUp(a, t, thread).rude == a.rude
    ensures TidyRun(WakeUp(a, t, thread), u, me, spent)
  {
    hide SpentIn, Tidy;
    if t in a.named {
      NotQueuedAfter(a.queue, Slot(t, thread), u);
      TidyAdd(a.queue, a.table, a.table, Slot(t, thread), me);
    }
  }

  lemma PerformTidy(a: Sched, u: nat, act: Act, me: int, spent: nat)
    requires EntriesOk(a.queue, a.table) && TidyRun(a, u, me, spent)
    requires u < |a.table| && a.table[u].status.Running?
    requires Perform(a, u, act).rude == a.rude
    ensures TidyRun(Perform(a, u, act), u, me, spent)
  {
    hide SpentIn, Tidy, HasSlot, Submit, WakeUp;
    var b := Log(a, u, Did(act));
    match act
    case Spawn(child, asFiber, thread) => SubmitTidy(b, u, child, asFiber, thread, me, spent);
    case Wake(t, thread) => WakeTidy(b, u, t, thread, me, spent);
    case _ =>
  }

  lemma {:induction false} SliceTidy(a: Sched, u: nat, p: Prog, me: int, spent: nat)
    requires WF(a) && QuietBut(a.table, u) && TidyRun(a, u, me, spent)
    requires u < |a.table| && a.table[u].status.Running?
    requires Slice(a, u, p).0.rude == a.rude
    ensures TidyRun(Slice(a, u, p).0, u, me, spent)
    decreases p
  {
    if p.Then? {
      var b := Perform(a, u, p.act);
      PerformGrows(a, u, p.act); PerformKeeps(a, u, p.act);
      SliceGrows(b, u, p.rest);
      assert Slice(a, u, p).0 == if Yields(p.act) then b else Slice(b, u, p.rest).0;
      PerformTidy(a, u, p.act, me, spent);
      if !Yields(p.act) {
        assert b.table[u] == b.table[..|a.table|][u];
        SliceTidy(b, u, p.rest, me, spent);
      }
    }
  }

  lemma BeginTidy(a: Sched, i: nat, me: int)
    requires EntriesOk(a.queue, a.table) && Tidy(a.queue, a.table)
    requires i < |a.queue| && Live(a.table[a.queue[i].task].status)
    ensures TidyRun(Begin(a, i), a.queue[i].task, me, SpentIn(a.queue, a.table, me))
  {
    var b := Begin(a, i);
    TidyRemove(a.queue, a.table, i);
    SpentRemove(a.queue, i, a.table, me);
    assert b.queue == a.queue[..i] + a.queue[i + 1..];
    assert forall k :: 0 <= k < |b.queue| ==> b.queue[k].task != a.queue[i].task;
    SpentSame(b.queue, a.table, b.table, me);
  }

  lemma SettleTidy(a: Sched, u: nat, e: Ending, me: int, spent: nat)
    requires EntriesOk(a.queue, a.table) && TidyRun(a, u, me, spent) && u < |a.table|
    ensures var b := Settle(a, u, e); Tidy(b.queue, b.table) && SpentIn(b.queue, b.table, me) == spent
  {
    var b := Settle(a, u, e);
    assert forall k :: 0 <= k < |a.queue| ==> a.queue[k].task != u;
    if e.ToReady? {
      TidyAdd(a.queue, a.table, b.table, Slot(u, NONE), me);
    } else {
      SpentSame(a.queue, a.table, b.table, me);
    }
  }

  lemma TurnTidy(a: Sched, i: nat, me: int)
    requires WF(a) && Quiet(a) && Tidy(a.queue, a.table)
    requires i < |a.queue| && Live(a.table[a.queue[i].task].status)
    requires Turn(a, i).rude == a.rude
    ensures var b := Turn(a, i);
      Tidy(b.queue, b.table) && SpentIn(b.queue, b.table, me) == SpentIn(a.queue, a.table, me)
  {
    var u := a.queue[i].task;
    var p := Rest(a.table[u].status);
    var spent := SpentIn(a.queue, a.table, me);
    var b0 := Begin(a, i);
    BeginTidy(a, i, me); BeginKeeps(a, i);
    SliceGrows(b0, u, p); SliceKeeps(b0, u, p); SliceTidy(b0, u, p, me, spent);
    var (b, e) := Slice(b0, u, p);
    SettleTidy(b, u, e, me, spent);
  }

  lemma DiscardTidy(a: Sched, i: nat, me: int)
    requires EntriesOk(a.queue, a.table) && Tidy(a.queue, a.table) && i == First(a.queue, me)
    requires i < |a.queue| ==> !Live(a.table[a.queue[i].task].status)
    ensures var b := Discard(a, i);
      && Tidy(b.queue, b.table)
      && SpentIn(a.queue, a.table, me) == SpentIn(b.queue, b.table, me) + if i < |a.queue| then 1 else 0
  {
    if i < |a.queue| {
      SpentRemove(a.queue, i, a.table, me);
      TidyRemove(a.queue, a.table, i);
    }
  }

  /** With at most one spent entry to come across, the loop ends only when nothing is left that
      this thread may take. */
  lemma {:induction false} RunDrains(a: Sched, me: int, idleDone: bool)
    requires WF(a) && Quiet(a) && Tidy(a.queue, a.table)
    requires RunAll(a, me, idleDone).rude == a.rude
    requires SpentIn(a.queue, a.table, me) <= if idleDone then 0 else 1
    ensures NoneRunnable(RunAll(a, me, idleDone).queue, me)
    decreases Measure(a) + if idleDone then 0 else 1
  {
    var i := First(a.queue, me);
    if i < |a.queue| && Live(a.table[a.queue[i].task].status) {
      TurnPays(a, i); TurnKeeps(a, i); TurnExtends(a, i);
      RunExtends(Turn(a, i), me, idleDone);
      TurnTidy(a, i, me);
      RunDrains(Turn(a, i), me, idleDone);
    } else {
      DiscardKeeps(a, i); DiscardTidy(a, i, me);
      if !idleDone {
        if i == |a.queue| { SpentNone(a.queue, a.table, me); }
        RunDrains(Discard(a, i), me, true);
      }
    }
  }

  /** The entries before `j` after entry `i` of them was drawn and `b` followed. */
  lemma PrefixAfter(q: seq<Slot>, r: seq<Slot>, i: nat, j: nat)
    requires i < j < |q|
    requires var rest := q[..i] + q[i + 1..]; |rest| <= |r| && r[..|rest|] == rest
    ensures j - 1 < |r| && r[j - 1] == q[j] && r[..j - 1] == q[..j][..i] + q[..j][i + 1..]
  {
    var rest := q[..i] + q[i + 1..];
    assert r[j - 1] == r[..|rest|][j - 1];
    assert r[..j - 1] == r[..|rest|][..j - 1];
  }

  lemma StaySpent(a: Sched, b: Sched, q: seq<Slot>, me: int)
    requires Extends(a, b)
    ensures SpentIn(q, a.table, me) <= SpentIn(q, b.table, me)
  {
    SpentMonotone(q, a.table, b.table, me);
  }

  /** One round of the loop leaves entry `j` one place nearer, behind as many spent entries, less
      the one it drew. */
  lemma RoundBefore(a: Sched, me: int, j: nat)
    requires WF(a) && Quiet(a) && j < |a.queue| && SpentIn(a.queue[..j], a.table, me) > 0
    ensures var i := First(a.queue, me);
      && i < j
      && var live := Live(a.table[a.queue[i].task].status);
      && var b := if live then Turn(a, i) else Discard(a, i);
      && j - 1 < |b.queue| && b.queue[j - 1] == a.queue[j]
      && SpentIn(b.queue[..j - 1], b.table, me) >= SpentIn(a.queue[..j], a.table, me) - if live then 0 else 1
  {
    var i := First(a.queue, me);
    if i >= j { SpentNone(a.queue[..j], a.table, me); }
    SpentRemove(a.queue[..j], i, a.table, me);
    if Live(a.table[a.queue[i].task].status) {
      TurnExtends(a, i);
      PrefixAfter(a.queue, Turn(a, i).queue, i, j);
      StaySpent(a, Turn(a, i), Turn(a, i).queue[..j - 1], me);
    } else {
      PrefixAfter(a.queue, Discard(a, i).queue, i, j);
    }
  }

  /** Behind two spent entries the loop never gets: it takes each for an idle turn and ends. */
  lemma {:induction false} RunStopsShort(a: Sched, me: int, idleDone: bool, j: nat, slot: Slot)
    requires WF(a) && Quiet(a) && j < |a.queue| && a.queue[j] == slot
    requires SpentIn(a.queue[..j], a.table, me) >= if idleDone then 1 else 2
    ensures slot in RunAll(a, me, idleDone).queue
    decreases Measure(a) + if idleDone then 0 else 1
  {
    RoundBefore(a, me, j);
    var i := First(a.queue, me);
    if Live(a.table[a.queue[i].task].status) {
      TurnPays(a, i); TurnKeeps(a, i);
      RunStopsShort(Turn(a, i), me, idleDone, j - 1, slot);
    } else {
      DiscardKeeps(a, i);
      if !idleDone { RunStopsShort(Discard(a, i), me, true, j - 1, slot); }
    }
  }

  // ----- why a run ends

  /** Why the loop ends, whatever the tasks did: it has thrown away at most one entry for each idle
      turn, and if fewer than that, it ends on a scan that found nothing for this thread. */
  lemma {:induction false} RunEndsBecause(p: Pooled, me: int, idleDone: bool)
    requires Ok(p)
    ensures var r := RunPooled(p, me, idleDone).a;
      && p.a.dropped <= r.dropped <= p.a.dropped + (if idleDone then 1 else 2)
      && (r.dropped < p.a.dropped + (if idleDone then 1 else 2) ==> NoneRunnable(r.queue, me))
    decreases Fuel(p, idleDone)
  {
    var i, r := First(p.a.queue, me), PooledRound(p, me, idleDone);
    PooledRoundKeeps(p, me, idleDone);
    if LiveAt(p.a, i) { TurnDrops(p.a, i); }
    if !r.over { RunEndsBecause(r.p, me, r.idleDone); }
  }

  lemma TurnDrops(a: Sched, i: nat)
    requires LiveAt(a, i)
    ensures Turn(a, i).dropped == a.dropped
  {
    SliceGrows(Begin(a, i), a.queue[i].task, Rest(a.table[a.queue[i].task].status));
  }

  // ----- exactly when a run serves the queue to the end

  /** The entry at `i` is thrown away: its fiber has ended. */
  predicate Throws(p: Pooled, i: nat) {
    i < |p.a.queue| && !LiveAt(p.a, i) && !HollowAt(p, i)
  }

  lemma PatientKeeps(p: Pooled, me: int)
    requires Ok(p) && First(p.a.queue, me) < |p.a.queue|
    ensures var q := PooledRound(p, me, false).p; Ok(q) && Measure(q.a) < Measure(p.a)
  {
    var i := First(p.a.queue, me);
    PooledRoundKeeps(p, me, false);
    if LiveAt(p.a, i) { PooledTurnKeeps(p, i); } else { DiscardOk(p, i); }
  }

  /** Ended fibers that a loop which never gives up on them would come across with something runnable
      left behind. */
  function Behind(p: Pooled, me: int): nat
    requires Ok(p)
    decreases Measure(p.a)
  {
    var i, q := First(p.a.queue, me), PooledRound(p, me, false).p;
    if i == |p.a.queue| then 0
    else
      PatientKeeps(p, me);
      (if Throws(p, i) && !NoneRunnable(q.a.queue, me) then 1 else 0) + Behind(q, me)
  }

  lemma NoneBehind(p: Pooled, me: int)
    requires Ok(p) && NoneRunnable(p.a.queue, me)
    ensures Behind(p, me) == 0
  {
  }

  /** Whatever the tasks do and whatever the queue holds: nothing runnable is left if and only if the
      loop comes across no more ended fibers with something behind them than it has idle turns to spare. */
  lemma {:induction false} DrainsExactly(p: Pooled, me: int, idleDone: bool)
    requires Ok(p)
    ensures NoneRunnable(RunPooled(p, me, idleDone).a.queue, me) <==> Behind(p, me) <= if idleDone then 0 else 1
    decreases Fuel(p, idleDone)
  {
    var i, r := First(p.a.queue, me), PooledRound(p, me, idleDone);
    PooledRoundKeeps(p, me, idleDone);
    if NoneRunnable(r.p.a.queue, me) { NoneBehind(r.p, me); }
    if !r.over { DrainsExactly(r.p, me, r.idleDone); }
  }

  // ----- a budget: every wake call may cost one idle turn, and nothing else does

  /** Enqueue calls for tasks that already exist, in the program and in all it spawns. */
  function Wakes(p: Prog): nat {
    match p
    case Return => 0
    case Throw => 0
    case Then(act, rest) => WakesIn(act) + Wakes(rest)
  }

  function WakesIn(act: Act): nat {
    match act
    case Wake(_, _) => 1
    case WakeSelf(_) => 1
    case Spawn(child, _, _) => Wakes(child)
    case _ => 0
  }

  function WakesOf(s: Status): nat { if Live(s) then Wakes(Rest(s)) else 0 }

  function WakesLeft(table: seq<Task>): nat {
    if table == [] then 0 else WakesLeft(table[..|table| - 1]) + WakesOf(table[|table| - 1].status)
  }

  lemma {:induction false} WakesUpdate(table: seq<Task>, t: nat, x: Task)
    requires t < |table|
    ensures WakesLeft(table[t := x]) == WakesLeft(table) - WakesOf(table[t].status) + WakesOf(x.status)
  {
    var n := |table| - 1;
    if t == n {
      assert table[t := x][..n] == table[..n];
    } else {
      WakesUpdate(table[..n], t, x);
      assert table[t := x][..n] == table[..n][t := x];
    }
  }

  lemma WakesAppend(table: seq<Task>, x: Task)
    ensures WakesLeft(table + [x]) == WakesLeft(table) + WakesOf(x.status)
  {
    assert (table + [x])[..|table|] == table;
  }

  lemma {:induction false} WakesEach(table: seq<Task>, t: nat)
    requires t < |table|
    ensures WakesOf(table[t].status) <= WakesLeft(table)
  {
    if t < |table| - 1 { WakesEach(table[..|table| - 1], t); }
  }

  /** Live tasks that have an entry. */
  function QueuedLive(q: seq<Slot>, table: seq<Task>): set<nat> {
    set t: nat | t < |table| && Live(table[t].status) && HasSlot(q, t)
  }

  /** Entries beyond one for each live task: each may come to be thrown away. */
  function Surplus(a: Sched): int { |a.queue| - |QueuedLive(a.queue, a.table)| }

  /** What a run can have to throw away. */
  function Cost(a: Sched): int { Surplus(a) + WakesLeft(a.table) }

  lemma {:induction false} QueuedCount(q: seq<Slot>, s: set<nat>)
    requires forall t :: t in s ==> HasSlot(q, t)
    ensures |s| <= |q|
    decreases |q|
  {
    if q == [] {
      assert s == {};
    } else {
      var n := |q| - 1;
      var fewer := s - {q[n].task};
      forall t | t in fewer ensures HasSlot(q[..n], t) {
        var i :| 0 <= i < |q| && q[i].task == t;
        assert q[..n][i].task == t;
      }
      QueuedCount(q[..n], fewer);
    }
  }

  lemma SlotAddedOnly(q: seq<Slot>, slot: Slot)
    ensures forall t :: HasSlot(q + [slot], t) <==> HasSlot(q, t) || t == slot.task
  {
    SlotAdded(q, slot);
    forall t | HasSlot(q + [slot], t) && t != slot.task ensures HasSlot(q, t) {
      var i :| 0 <= i < |q| + 1 && (q + [slot])[i].task == t;
      assert q[i].task == t;
    }
  }

  lemma SlotRemovedOnly(q: seq<Slot>, i: nat)
    requires i < |q|
    ensures forall t :: t != q[i].task ==> (HasSlot(q[..i] + q[i + 1..], t) <==> HasSlot(q, t))
  {
    SlotRemoved(q, i);
    var r := q[..i] + q[i + 1..];
    forall t | HasSlot(r, t) ensures HasSlot(q, t) {
      var k :| 0 <= k < |r| && r[k].task == t;
      assert q[if k < i then k else k + 1] == r[k];
    }
  }

  lemma SurplusAdd(q: seq<Slot>, table: seq<Task>, slot: Slot)
    ensures |QueuedLive(q, table)| <= |QueuedLive(q + [slot], table)|
    ensures slot.task < |table| && Live(table[slot.task].status) && !HasSlot(q, slot.task) ==>
      |QueuedLive(q + [slot], table)| == |QueuedLive(q, table)| + 1
  {
    SlotAddedOnly(q, slot);
    var s, r := QueuedLive(q, table), QueuedLive(q + [slot], table);
    if slot.task < |table| && Live(table[slot.task].status) && !HasSlot(q, slot.task) {
      assert r == s + {slot.task};
    } else {
      assert r == s;
    }
  }

  lemma SubmitCost(a: Sched, prog: Prog, asFiber: bool, thread: int)
    requires EntriesOk(a.queue, a.table)
    ensures Cost(Submit(a, prog, asFiber, thread)) == Cost(a) + Wakes(prog)
    ensures WakesLeft(Submit(a, prog, asFiber, thread).table) == WakesLeft(a.table) + Wakes(prog)
  {
    var b, t := Submit(a, prog, asFiber, thread), |a.table|;
    WakesAppend(a.table, b.table[t]);
    SlotAddedOnly(a.queue, Slot(t, thread));
    assert !HasSlot(a.queue, t);
    assert QueuedLive(b.queue, b.table) == QueuedLive(a.queue, a.table) + {t};
  }

  lemma PerformCost(a: Sched, u: nat, act: Act)
    requires EntriesOk(a.queue, a.table)
    ensures Cost(Perform(a, u, act)) <= Cost(a) + WakesIn(act)
    ensures WakesLeft(Perform(a, u, act).table) + Perform(a, u, act).rude <= WakesLeft(a.table) + a.rude + WakesIn(act)
  {
    hide QueuedLive;
    var b := Log(a, u, Did(act));
    match act
    case Spawn(child, asFiber, thread) => SubmitCost(b, child, asFiber, thread);
    case Wake(t, thread) => SurplusAdd(a.queue, a.table, Slot(t, thread));
    case WakeSelf(thread) => SurplusAdd(a.queue, a.table, Slot(u, thread));
    case _ =>
  }

  lemma {:induction false} SliceCost(a: Sched, u: nat, p: Prog)
    requires WF(a) && QuietBut(a.table, u) && u < |a.table| && a.table[u].status.Running?
    ensures var (b, e) := Slice(a, u, p);
      && Cost(b) + WakesOf(After(e)) <= Cost(a) + Wakes(p)
      && WakesLeft(b.table) + WakesOf(After(e)) + b.rude <= WakesLeft(a.table) + Wakes(p) + a.rude
    decreases p
  {
    if p.Then? {
      var b := Perform(a, u, p.act);
      PerformCost(a, u, p.act);
      PerformKeeps(a, u, p.act);
      PerformGrows(a, u, p.act);
      assert b.table[u] == b.table[..|a.table|][u];
      if !Yields(p.act) { SliceCost(b, u, p.rest); }
    }
  }

  lemma BeginCost(a: Sched, i: nat)
    requires LiveAt(a, i)
    ensures var w := Wakes(Rest(a.table[a.queue[i].task].status));
      Cost(Begin(a, i)) == Cost(a) - w && WakesLeft(Begin(a, i).table) == WakesLeft(a.table) - w
  {
    var u, b := a.queue[i].task, Begin(a, i);
    WakesUpdate(a.table, u, b.table[u]);
    SlotRemovedOnly(a.queue, i);
    assert u in QueuedLive(a.queue, a.table);
    assert QueuedLive(b.queue, b.table) == QueuedLive(a.queue, a.table) - {u};
  }

  lemma RunningWakes(s: Status)
    requires s.Running?
    ensures WakesOf(s) == 0
  {
  }

  /** A task that was running and is given a status; its entries were nobody's. */
  lemma QueuedUpdate(q: seq<Slot>, table: seq<Task>, u: nat, x: Task)
    requires u < |table| && !Live(table[u].status)
    ensures |QueuedLive(q, table)| <= |QueuedLive(q, table[u := x])|
    ensures Live(x.status) && HasSlot(q, u) ==> |QueuedLive(q, table[u := x])| == |QueuedLive(q, table)| + 1
  {
    var s, r := QueuedLive(q, table), QueuedLive(q, table[u := x]);
    if Live(x.status) && HasSlot(q, u) { assert r == s + {u}; } else { assert r == s; }
  }

  lemma QueuedMore(q: seq<Slot>, table: seq<Task>, slot: Slot)
    requires slot.task < |table| ==> !Live(table[slot.task].status)
    ensures QueuedLive(q + [slot], table) == QueuedLive(q, table)
  {
    SlotAddedOnly(q, slot);
  }

  lemma SettleCost(a: Sched, u: nat, e: Ending)
    requires u < |a.table| && a.table[u].status.Running?
    ensures Cost(Settle(a, u, e)) <= Cost(a) + WakesOf(After(e))
    ensures WakesLeft(Settle(a, u, e).table) == WakesLeft(a.table) + WakesOf(After(e))
  {
    hide WakesLeft, WakesOf, QueuedLive, HasSlot;
    var b := Settle(a, u, e);
    WakesUpdate(a.table, u, b.table[u]);
    RunningWakes(a.table[u].status);
    assert b.table == a.table[u := b.table[u]];
    QueuedUpdate(b.queue, a.table, u, b.table[u]);
    if e.ToReady? {
      QueuedMore(a.queue, a.table, Slot(u, NONE));
      SlotAdded(a.queue, Slot(u, NONE));
    }
  }

  lemma TurnCost(a: Sched, i: nat)
    requires WF(a) && Quiet(a) && LiveAt(a, i)
    ensures Cost(Turn(a, i)) <= Cost(a)
    ensures WakesLeft(Turn(a, i).table) + Turn(a, i).rude <= WakesLeft(a.table) + a.rude
  {
    hide Cost, WF, Slice;
    var u := a.queue[i].task;
    var p := Rest(a.table[u].status);
    var b := Begin(a, i);
    BeginKeeps(a, i);
    BeginCost(a, i);
    SliceCost(b, u, p);
    SliceGrows(b, u, p);
    var (c, e) := Slice(b, u, p);
    assert c.table[u] == c.table[..|b.table|][u];
    SettleCost(c, u, e);
    NoteCost(Settle(c, u, e), a.table[u].status.Pending?, e);
  }

  lemma NoteCost(a: Sched, pending: bool, e: Ending)
    ensures Cost(NoteFirst(a, pending, e)) == Cost(a)
  {
  }

  lemma DropCost(a: Sched, i: nat)
    requires i < |a.queue| && a.queue[i].task < |a.table| && !Live(a.table[a.queue[i].task].status)
    ensures Cost(Drop(a, i)) == Cost(a) - 1
  {
    SlotRemovedOnly(a.queue, i);
    assert QueuedLive(Drop(a, i).queue, a.table) == QueuedLive(a.queue, a.table);
  }

  lemma AdoptCost(a: Sched, u: nat)
    ensures Cost(Adopt(a, u)) <= Cost(a)
  {
    var b := Adopt(a, u);
    var s, r := QueuedLive(a.queue, a.table), QueuedLive(b.queue, b.table);
    forall t | t in s ensures t in r {
      var i :| 0 <= i < |a.queue| && a.queue[i].task == t;
      assert b.queue[i].task == t;
    }
    Subset(s, r);
  }

  lemma Subset(s: set<nat>, r: set<nat>)
    requires s <= r
    ensures |s| <= |r|
  {
    assert r == s + (r - s);
  }

  lemma RoundCost(p: Pooled, me: int, idleDone: bool)
    requires Ok(p)
    ensures var r := PooledRound(p, me, idleDone).p.a;
      && Cost(r) + r.dropped <= Cost(p.a) + p.a.dropped
      && WakesLeft(r.table) + r.rude <= WakesLeft(p.a.table) + p.a.rude
  {
    var i := First(p.a.queue, me);
    hide Cost;
    if LiveAt(p.a, i) {
      TurnCost(p.a, i);
      TurnDrops(p.a, i);
      AdoptCost(Turn(p.a, i), p.a.queue[i].task);
    } else if i < |p.a.queue| {
      DropCost(p.a, i);
      DiscardCost(Drop(p.a, i));
    }
  }

  lemma DiscardCost(a: Sched)
    ensures Cost(a.(dropped := a.dropped + 1)) == Cost(a)
  {
  }

  lemma {:induction false} RunCost(p: Pooled, me: int, idleDone: bool)
    requires Ok(p)
    ensures var r := RunPooled(p, me, idleDone).a;
      && r.dropped <= p.a.dropped + Cost(p.a)
      && WakesLeft(r.table) + r.rude <= WakesLeft(p.a.table) + p.a.rude
    decreases Fuel(p, idleDone)
  {
    var r := PooledRound(p, me, idleDone);
    PooledRoundKeeps(p, me, idleDone);
    RoundCost(p, me, idleDone);
    if r.over {
      QueuedCount(r.p.a.queue, QueuedLive(r.p.a.queue, r.p.a.table));
    } else {
      RunCost(r.p, me, r.idleDone);
    }
  }

  /** Every ended fiber to come across is a surplus entry of the queue or costs a wake call. */
  lemma {:induction false} BehindCost(p: Pooled, me: int)
    requires Ok(p)
    ensures Behind(p, me) <= Cost(p.a)
    decreases Measure(p.a)
  {
    if First(p.a.queue, me) < |p.a.queue| {
      PatientKeeps(p, me);
      RoundCost(p, me, false);
      RoundDrops(p, me);
      BehindCost(PooledRound(p, me, false).p, me);
    } else {
      QueuedCount(p.a.queue, QueuedLive(p.a.queue, p.a.table));
    }
  }

  lemma RoundDrops(p: Pooled, me: int)
    ensures var i := First(p.a.queue, me);
      PooledRound(p, me, false).p.a.dropped == p.a.dropped + if Throws(p, i) then 1 else 0
  {
    var i := First(p.a.queue, me);
    if LiveAt(p.a, i) { TurnDrops(p.a, i); }
  }

  /** Whatever else the tasks do: with at most one surplus entry or wake call in all, nothing is left
      that this thread may run. */
  lemma DrainsInBudget(p: Pooled, me: int)
    requires Ok(p) && Cost(p.a) <= 1
    ensures Behind(p, me) <= 1 && NoneRunnable(RunPooled(p, me, false).a.queue, me)
  {
    BehindCost(p, me);
    DrainsExactly(p, me, false);
  }

  // ----- runs in which every wake call is for a parked task

  /** A call is counted as rude exactly if it finds its task, which can be named, not parked. */
  lemma RudeExactly(a: Sched, u: nat, act: Act)
    requires WF(a) && u < |a.table| && a.table[u].status.Running?
    ensures Perform(a, u, act).rude == a.rude + (
      if (act.Wake? && act.task in a.named && !Parked(a, act.task)) || (act.WakeSelf? && !Parked(a, u)) then 1 else 0)
  {
  }

  lemma {:induction false} PoliteSlice(a: Sched, u: nat, p: Prog)
    requires Slice(a, u, p).0.rude == a.rude
    ensures !Hands(p)
    decreases p
  {
    if p.Then? {
      var b := Perform(a, u, p.act);
      PerformGrows(a, u, p.act);
      if !Yields(p.act) {
        SliceGrows(b, u, p.rest);
        PoliteSlice(b, u, p.rest);
      }
    }
  }

  lemma PoliteTurn(a: Sched, i: nat)
    requires LiveAt(a, i) && Turn(a, i).rude == a.rude
    ensures !Hands(Rest(a.table[a.queue[i].task].status))
  {
    var u := a.queue[i].task;
    SliceGrows(Begin(a, i), u, Rest(a.table[u].status));
    PoliteSlice(Begin(a, i), u, Rest(a.table[u].status));
  }

  /** Then nothing tells the loop from one that gives every callback a fiber of its own. */
  lemma {:induction false} PoliteSame(p: Pooled, me: int, idleDone: bool)
    requires Ok(p) && NoStrays(p.a) && RunPooled(p, me, idleDone).a.rude == p.a.rude
    ensures RunPooled(p, me, idleDone).a == RunAll(p.a, me, idleDone)
    decreases Fuel(p, idleDone)
  {
    var i, r := First(p.a.queue, me), PooledRound(p, me, idleDone);
    PooledRoundKeeps(p, me, idleDone);
    RunIsRounds(p.a, me, idleDone);
    RoundAlike(p, me, idleDone);
    if !r.over {
      PooledExtends(r.p, me, r.idleDone);
      if LiveAt(p.a, i) { TurnExtends(p.a, i); PoliteTurn(p.a, i); }
      PoliteSame(r.p, me, r.idleDone);
    }
  }

  /** Polite runs of a tidy queue with at most one spent entry are served to the end. */
  lemma PoliteDrains(a: Sched, me: int)
    requires WF(a) && Quiet(a) && NoStrays(a) && Tidy(a.queue, a.table) && SpentIn(a.queue, a.table, me) <= 1
    ensures var p := Pooled(a, NoPool);
      RunPooled(p, me, false).a.rude == a.rude ==>
        Behind(p, me) <= 1 && NoneRunnable(RunPooled(p, me, false).a.queue, me)
  {
    hide RunPooled, RunAll, Behind, WF, Quiet, NoStrays, Tidy;
    if RunPooled(Pooled(a, NoPool), me, false).a.rude == a.rude {
      PoliteSame(Pooled(a, NoPool), me, false);
      RunDrains(a, me, false);
      DrainsExactly(Pooled(a, NoPool), me, false);
    }
  }

  // ----- tasks that wake nobody: what decides it can be read off the queue

  /** Nobody will call for a task that already exists. */
  predicate Wakeless(a: Sched) { WakesLeft(a.table) == 0 }

  lemma WakelessSame(a: Sched, me: int)
    requires WF(a) && Quiet(a) && NoStrays(a) && Wakeless(a)
    ensures RunPooled(Pooled(a, NoPool), me, false).a == RunAll(a, me, false)
    ensures RunAll(a, me, false).rude == a.rude
  {
    RunCost(Pooled(a, NoPool), me, false);
    PooledExtends(Pooled(a, NoPool), me, false);
    PoliteSame(Pooled(a, NoPool), me, false);
  }

  /** The program's next slice adds an entry that thread `me` may take. */
  predicate Appends(p: Prog, me: int) {
    match p
    case Return => false
    case Throw => false
    case Then(YieldReady, _) => true
    case Then(YieldHold, _) => false
    case Then(SwapOut, _) => false
    case Then(Spawn(_, _, thread), rest) => thread == NONE || thread == me || Appends(rest, me)
    case Then(_, rest) => Appends(rest, me)
  }

  predicate RunnableFrom(q: seq<Slot>, n: nat, me: int) {
    exists k :: n <= k < |q| && Runnable(q[k], me)
  }

  lemma FromConcat(q: seq<Slot>, r: seq<Slot>, n: nat, me: int)
    requires n <= |q| <= |r| && r[..|q|] == q
    ensures RunnableFrom(r, n, me) <==> RunnableFrom(q, n, me) || RunnableFrom(r, |q|, me)
  {
    assert forall k :: 0 <= k < |q| ==> r[k] == q[k];
  }

  lemma {:induction false} SliceAppends(a: Sched, u: nat, p: Prog, me: int)
    requires Wakes(p) == 0
    ensures var (b, e) := Slice(a, u, p);
      Appends(p, me) <==> RunnableFrom(b.queue, |a.queue|, me) || e.ToReady?
    decreases p
  {
    if p.Then? {
      var b := Perform(a, u, p.act);
      PerformGrows(a, u, p.act);
      if p.act.Spawn? { assert b.queue[|a.queue|] == Slot(|a.table|, p.act.thread); }
      if !Yields(p.act) {
        SliceAppends(b, u, p.rest, me);
        SliceGrows(b, u, p.rest);
        FromConcat(b.queue, Slice(b, u, p.rest).0.queue, |a.queue|, me);
      }
    }
  }

  lemma TurnAppends(a: Sched, i: nat, me: int)
    requires LiveAt(a, i) && Wakes(Rest(a.table[a.queue[i].task].status)) == 0
    ensures RunnableFrom(Turn(a, i).queue, |a.queue| - 1, me) <==> Appends(Rest(a.table[a.queue[i].task].status), me)
  {
    var u := a.queue[i].task;
    var p := Rest(a.table[u].status);
    var b := Begin(a, i);
    SliceAppends(b, u, p, me);
    SliceGrows(b, u, p);
    var (c, e) := Slice(b, u, p);
    var r := Turn(a, i).queue;
    assert |b.queue| == |a.queue| - 1;
    if e.ToReady? { assert r[|r| - 1] == Slot(u, NONE); }
    FromConcat(c.queue, r, |b.queue|, me);
  }

  /** With `n` idle turns to go, entry `k` keeps the queue from being served to the end: it stands behind
      `n` spent entries, or its turn comes before and adds one that does. */
  predicate Blocks(a: Sched, me: int, n: nat, k: nat)
    requires k < |a.queue|
  {
    Runnable(a.queue[k], me) &&
    (SpentIn(a.queue[..k], a.table, me) >= n || (LiveAt(a, k) && Appends(Rest(a.table[a.queue[k].task].status), me)))
  }

  ghost predicate Blocked(a: Sched, me: int, n: nat, from: nat, to: nat)
    requires to <= |a.queue|
  {
    exists k :: from <= k < to && Blocks(a, me, n, k)
  }

  ghost predicate Stranded(a: Sched, me: int, n: nat) {
    SpentIn(a.queue, a.table, me) >= n && Blocked(a, me, n, 0, |a.queue|)
  }

  lemma {:induction false} SpentPrefix(q: seq<Slot>, k: nat, table: seq<Task>, me: int)
    requires k <= |q|
    ensures SpentIn(q[..k], table, me) <= SpentIn(q, table, me)
  {
    SpentConcat(q[..k], q[k..], table, me);
    assert q[..k] + q[k..] == q;
  }

  /** After entry `i` was drawn, entry `k` stands one place nearer, behind `d` spent entries fewer. */
  ghost predicate Shifted(a: Sched, b: Sched, me: int, d: nat, k: nat)
    requires 0 < k < |a.queue|
  {
    && k <= |b.queue| && b.queue[k - 1] == a.queue[k]
    && SpentIn(a.queue[..k], a.table, me) == SpentIn(b.queue[..k - 1], b.table, me) + d
    && a.queue[k].task < |a.table| <= |b.table| && b.table[a.queue[k].task] == a.table[a.queue[k].task]
  }

  lemma ShiftedBlocks(a: Sched, b: Sched, me: int, d: nat, k: nat, n: nat)
    requires 0 < k < |a.queue| && Shifted(a, b, me, d, k) && d <= n
    ensures Blocks(a, me, n, k) <==> Blocks(b, me, n - d, k - 1)
  {
  }

  /** What a round does to the entries behind the one at `i`. */
  lemma BlockedBehind(a: Sched, b: Sched, me: int, d: nat, i: nat, n: nat, m: nat)
    requires i < |a.queue| <= |b.queue| + 1 && n == m + d && i == First(a.queue, me)
    requires forall k :: i < k < |a.queue| ==> Shifted(a, b, me, d, k)
    requires forall k :: 0 <= k < i ==> b.queue[k] == a.queue[k]
    ensures Blocked(a, me, n, i + 1, |a.queue|) <==> Blocked(b, me, m, 0, |a.queue| - 1)
  {
    if Blocked(a, me, n, i + 1, |a.queue|) {
      var k :| i < k < |a.queue| && Blocks(a, me, n, k);
      ShiftedBlocks(a, b, me, d, k, n);
    }
    if Blocked(b, me, m, 0, |a.queue| - 1) {
      var k :| 0 <= k < |a.queue| - 1 && Blocks(b, me, m, k);
      assert k >= i;
      ShiftedBlocks(a, b, me, d, k + 1, n);
    }
  }

  /** Before the first runnable entry nothing blocks. */
  lemma BlockedFirst(a: Sched, me: int, n: nat)
    requires First(a.queue, me) < |a.queue|
    ensures var i := First(a.queue, me);
      Blocked(a, me, n, 0, |a.queue|) <==> Blocks(a, me, n, i) || Blocked(a, me, n, i + 1, |a.queue|)
    ensures SpentIn(a.queue[..First(a.queue, me)], a.table, me) == 0
  {
    SpentNone(a.queue[..First(a.queue, me)], a.table, me);
  }

  lemma DiscardShifted(a: Sched, me: int, i: nat, k: nat)
    requires EntriesOk(a.queue, a.table) && i < k < |a.queue| && Spent(a.queue[i], a.table, me)
    ensures Shifted(a, Discard(a, i), me, 1, k)
  {
    var b := Discard(a, i);
    SpentRemove(a.queue[..k], i, a.table, me);
    PrefixAfter(a.queue, b.queue, i, k);
  }

  /** A round that discards a spent entry. */
  lemma DiscardStranded(a: Sched, me: int, n: nat)
    requires EntriesOk(a.queue, a.table) && n > 0
    requires var i := First(a.queue, me); i < |a.queue| && !Live(a.table[a.queue[i].task].status)
    ensures Stranded(a, me, n) <==> Stranded(Discard(a, First(a.queue, me)), me, n - 1)
  {
    hide Blocks, Shifted, Blocked, SpentIn, EntriesOk;
    var i := First(a.queue, me);
    var b := Discard(a, i);
    DiscardFirst(a, me, n);
    BlockedFirst(a, me, n);
    BlockedBehind(a, b, me, 1, i, n, n - 1);
  }

  lemma DiscardFirst(a: Sched, me: int, n: nat)
    requires EntriesOk(a.queue, a.table) && n > 0
    requires var i := First(a.queue, me); i < |a.queue| && !Live(a.table[a.queue[i].task].status)
    ensures var i, b := First(a.queue, me), Discard(a, First(a.queue, me));
      && !Blocks(a, me, n, i) && (forall k :: i < k < |a.queue| ==> Shifted(a, b, me, 1, k))
      && (forall k :: 0 <= k < i ==> b.queue[k] == a.queue[k]) && |b.queue| == |a.queue| - 1
      && SpentIn(a.queue, a.table, me) == SpentIn(b.queue, b.table, me) + 1
  {
    var i := First(a.queue, me);
    SpentRemove(a.queue, i, a.table, me);
    SpentNone(a.queue[..i], a.table, me);
    forall k | i < k < |a.queue| ensures Shifted(a, Discard(a, i), me, 1, k) { DiscardShifted(a, me, i, k); }
  }

  lemma NoneStranded(a: Sched, me: int)
    ensures Stranded(a, me, 0) <==> !NoneRunnable(a.queue, me)
  {
    if !NoneRunnable(a.queue, me) {
      var k :| 0 <= k < |a.queue| && Runnable(a.queue[k], me);
      assert Blocks(a, me, 0, k);
    }
  }

  lemma TurnShifted(a: Sched, me: int, i: nat, k: nat)
    requires WF(a) && Quiet(a) && Tidy(a.queue, a.table) && LiveAt(a, i) && i < k < |a.queue|
    ensures Shifted(a, Turn(a, i), me, 0, k)
  {
    hide Turn, SpentIn, EagerQueued, NamesOk, Quiet, Spent, Appends;
    TurnExtends(a, i);
    PrefixAfter(a.queue, Turn(a, i).queue, i, k);
    SpentRemove(a.queue[..k], i, a.table, me);
    TidyRemove(a.queue[..k], a.table, i);
    TurnSpares(a, i, a.queue[..k][..i] + a.queue[..k][i + 1..], me);
    assert !Spent(a.queue[i], a.table, me) by { LiveNotSpent(a, i, me); }
  }

  lemma LiveNotSpent(a: Sched, i: nat, me: int)
    requires LiveAt(a, i)
    ensures !Spent(a.queue[i], a.table, me)
  {
  }

  /** A turn ends nobody else. */
  lemma TurnSpares(a: Sched, i: nat, q: seq<Slot>, me: int)
    requires WF(a) && LiveAt(a, i) && !HasSlot(q, a.queue[i].task)
    requires forall k :: 0 <= k < |q| ==> q[k].task < |a.table|
    ensures SpentIn(q, Turn(a, i).table, me) == SpentIn(q, a.table, me)
  {
    hide Turn, SpentIn;
    var b := Turn(a, i);
    TurnExtends(a, i);
    hide WF;
    forall k | 0 <= k < |q| ensures Spent(q[k], a.table, me) <==> Spent(q[k], b.table, me) {
      assert q[k].task != a.queue[i].task;
      assert b.table[q[k].task] == a.table[q[k].task];
    }
    SpentSame(q, a.table, b.table, me);
  }

  /** What a turn leaves of the queue. */
  lemma TurnRest(a: Sched, me: int, i: nat)
    requires WF(a) && Quiet(a) && Tidy(a.queue, a.table) && LiveAt(a, i)
    ensures var b := Turn(a, i);
      && |a.queue| <= |b.queue| + 1
      && (forall k :: i < k < |a.queue| ==> Shifted(a, b, me, 0, k))
      && (forall k :: 0 <= k < i ==> b.queue[k] == a.queue[k])
  {
    hide Turn, WF, Quiet, Tidy, Shifted;
    TurnExtends(a, i);
    var b, rest := Turn(a, i), a.queue[..i] + a.queue[i + 1..];
    forall k | i < k < |a.queue| ensures Shifted(a, b, me, 0, k) { TurnShifted(a, me, i, k); }
    forall k | 0 <= k < i ensures b.queue[k] == a.queue[k] { assert b.queue[..|rest|][k] == rest[k]; }
  }

  lemma TurnWakeless(a: Sched, i: nat)
    requires WF(a) && Quiet(a) && LiveAt(a, i) && Wakeless(a)
    ensures Wakeless(Turn(a, i)) && Turn(a, i).rude == a.rude && Wakes(Rest(a.table[a.queue[i].task].status)) == 0
  {
    hide Turn, WF, Quiet;
    TurnExtends(a, i);
    TurnCost(a, i);
    WakesEach(a.table, a.queue[i].task);
  }

  /** The entry that has its turn blocks the queue exactly if it adds one that does. */
  lemma TurnBlocks(a: Sched, me: int, n: nat)
    requires WF(a) && Quiet(a) && Tidy(a.queue, a.table) && Wakeless(a) && 0 < n <= SpentIn(a.queue, a.table, me)
    requires LiveAt(a, First(a.queue, me))
    ensures var i, b := First(a.queue, me), Turn(a, First(a.queue, me));
      |a.queue| <= |b.queue| + 1 && (Blocks(a, me, n, i) <==> Blocked(b, me, n, |a.queue| - 1, |b.queue|))
  {
    hide Turn, WF, Quiet, Tidy, Blocked, Wakeless, Appends, RunnableFrom;
    var i := First(a.queue, me);
    TurnWakeless(a, i);
    BlockedFirst(a, me, n);
    TurnAppends(a, i, me);
    TurnBehind(a, me, n, i);
  }

  lemma BlockedSplit(b: Sched, me: int, n: nat, m: nat)
    requires m <= |b.queue|
    ensures Blocked(b, me, n, 0, |b.queue|) <==> Blocked(b, me, n, 0, m) || Blocked(b, me, n, m, |b.queue|)
  {
    hide Blocks;
    if k :| 0 <= k < |b.queue| && Blocks(b, me, n, k) {
      assert k < m ==> Blocked(b, me, n, 0, m);
      assert k >= m ==> Blocked(b, me, n, m, |b.queue|);
    }
  }

  /** A turn. */
  lemma TurnStranded(a: Sched, me: int, n: nat)
    requires WF(a) && Quiet(a) && Tidy(a.queue, a.table) && Wakeless(a) && n > 0
    requires LiveAt(a, First(a.queue, me))
    ensures var b := Turn(a, First(a.queue, me));
      Tidy(b.queue, b.table) && Wakeless(b) && (Stranded(a, me, n) <==> Stranded(b, me, n))
  {
    hide Turn, WF, Quiet, Tidy, Wakeless, Blocks, Shifted, Blocked, SpentIn;
    var i := First(a.queue, me);
    var b := Turn(a, i);
    TurnWakeless(a, i);
    TurnTidy(a, i, me);
    TurnRest(a, me, i);
    BlockedFirst(a, me, n);
    BlockedBehind(a, b, me, 0, i, n, n);
    BlockedSplit(b, me, n, |a.queue| - 1);
    if n <= SpentIn(a.queue, a.table, me) { TurnBlocks(a, me, n); }
  }

  /** What a turn adds stands behind all that was there before. */
  lemma TurnBehind(a: Sched, me: int, n: nat, i: nat)
    requires WF(a) && Quiet(a) && Tidy(a.queue, a.table) && LiveAt(a, i)
    ensures var b := Turn(a, i);
      |a.queue| - 1 <= |b.queue| && (SpentIn(a.queue, a.table, me) >= n ==>
        (Blocked(b, me, n, |a.queue| - 1, |b.queue|) <==> RunnableFrom(b.queue, |a.queue| - 1, me)))
  {
    var u, b := a.queue[i].task, Turn(a, i);
    TurnExtends(a, i);
    var rest := a.queue[..i] + a.queue[i + 1..];
    SpentRemove(a.queue, i, a.table, me);
    forall j | 0 <= j < |rest| ensures Spent(rest[j], a.table, me) <==> Spent(rest[j], b.table, me) {
      assert rest[j] == a.queue[if j < i then j else j + 1];
    }
    SpentSame(rest, a.table, b.table, me);
    forall k | |rest| <= k < |b.queue| && Runnable(b.queue[k], me)
      ensures SpentIn(a.queue, a.table, me) >= n ==> Blocks(b, me, n, k)
    {
      assert b.queue[..k][..|rest|] == b.queue[..|rest|] == rest;
      SpentPrefix(b.queue[..k], |rest|, b.table, me);
    }
  }

  lemma {:induction false} RunStranded(a: Sched, me: int, idleDone: bool)
    requires WF(a) && Quiet(a) && Tidy(a.queue, a.table) && Wakeless(a) && RunAll(a, me, idleDone).rude == a.rude
    ensures NoneRunnable(RunAll(a, me, idleDone).queue, me) <==> !Stranded(a, me, if idleDone then 1 else 2)
    decreases Measure(a) + if idleDone then 0 else 1
  {
    var i := First(a.queue, me);
    RunIsRounds(a, me, idleDone);
    if LiveAt(a, i) {
      TurnExtends(a, i);
      RunExtends(Turn(a, i), me, idleDone);
      TurnStranded(a, me, if idleDone then 1 else 2);
      RunStranded(Turn(a, i), me, idleDone);
    } else if i < |a.queue| {
      DiscardTidy(a, i, me);
      DiscardStranded(a, me, if idleDone then 1 else 2);
      NoneStranded(Discard(a, i), me);
      if !idleDone { RunStranded(Discard(a, i), me, true); }
    } else {
      SpentNone(a.queue, a.table, me);
      if !idleDone { RunStranded(a, me, true); }
    }
  }

  /** For tasks that wake nobody, queued once each, the condition can be read off the queue as it stands:
      the run falls short only if two entries are spent and some entry is behind both or adds one that
      will be. */
  lemma WakelessDrains(a: Sched, me: int)
    requires WF(a) && Quiet(a) && NoStrays(a) && Tidy(a.queue, a.table) && Wakeless(a)
    ensures Behind(Pooled(a, NoPool), me) <= 1 <==> !Stranded(a, me, 2)
    ensures NoneRunnable(RunPooled(Pooled(a, NoPool), me, false).a.queue, me) <==> !Stranded(a, me, 2)
  {
    WakelessSame(a, me);
    RunStranded(a, me, false);
    DrainsExactly(Pooled(a, NoPool), me, false);
  }

  /** And if one of them has just been submitted: everything is served if and only if at most one queued
      entry names a task that is over. */
  lemma NewcomerDrains(a: Sched, prog: Prog, asFiber: bool, thread: int, me: int)
    requires WF(a) && Quiet(a) && NoStrays(a) && Tidy(a.queue, a.table) && Wakeless(a)
    requires Wakes(prog) == 0 && (thread == NONE || thread == me)
    ensures var p := Pooled(Submit(a, prog, asFiber, thread), NoPool);
      Ok(p) && (NoneRunnable(RunPooled(p, me, false).a.queue, me) <==> SpentIn(a.queue, a.table, me) <= 1)
  {
    hide RunPooled, Behind, Quiet, EagerQueued, NamesOk, Cost;
    var b, n := Submit(a, prog, asFiber, thread), |a.queue|;
    SubmitKeeps(a, prog, asFiber, thread);
    SubmitCost(a, prog, asFiber, thread);
    TidyAdd(a.queue, a.table, b.table, b.queue[n], me);
    assert b.queue[..n] == a.queue && Runnable(b.queue[n], me);
    SpentSame(a.queue, a.table, b.table, me);
    SubmitStrays(a, prog, asFiber, thread);
    WakelessDrains(b, me);
    if SpentIn(a.queue, a.table, me) > 1 { assert Blocks(b, me, 2, n); }
  }

  lemma SubmitStrays(a: Sched, prog: Prog, asFiber: bool, thread: int)
    requires EntriesOk(a.queue, a.table) && NoStrays(a)
    ensures NoStrays(Submit(a, prog, asFiber, thread))
  {
    var b := Submit(a, prog, asFiber, thread);
    forall k | 0 <= k < |b.queue| ensures !Stray(b, b.queue[k]) {
      if k < |a.queue| { assert b.queue[k] == a.queue[k]; }
    }
  }

  // ----- what is left of the tasks

  /** Nothing the tasks enqueue is meant for another thread. */
  predicate Local(p: Prog, me: int) {
    match p
    case Return => true
    case Throw => true
    case Then(Spawn(child, _, thread), rest) =>
      (thread == NONE || thread == me) && Local(child, me) && Local(rest, me)
    case Then(Wake(_, thread), rest) => (thread == NONE || thread == me) && Local(rest, me)
    case Then(WakeSelf(thread), rest) => (thread == NONE || thread == me) && Local(rest, me)
    case Then(_, rest) => Local(rest, me)
  }

  ghost predicate AllLocal(a: Sched, me: int) {
    && (forall i :: 0 <= i < |a.queue| ==> Runnable(a.queue[i], me))
    && (forall t :: 0 <= t < |a.table| && Live(a.table[t].status) ==> Local(Rest(a.table[t].status), me))
  }

  lemma {:induction false} SliceLocal(a: Sched, u: nat, p: Prog, me: int)
    requires AllLocal(a, me) && Local(p, me)
    ensures var (b, e) := Slice(a, u, p); AllLocal(b, me) && (Live(After(e)) ==> Local(Rest(After(e)), me))
    decreases p
  {
    match p
    case Return =>
    case Throw =>
    case Then(act, rest) =>
      assert AllLocal(Perform(a, u, act), me);
      if !Yields(act) { SliceLocal(Perform(a, u, act), u, rest, me); }
  }

  lemma TurnLocal(a: Sched, i: nat, me: int)
    requires AllLocal(a, me) && LiveAt(a, i)
    ensures AllLocal(Turn(a, i), me)
  {
    var u := a.queue[i].task;
    hide Slice;
    SliceGrows(Begin(a, i), u, Rest(a.table[u].status));
    SliceLocal(Begin(a, i), u, Rest(a.table[u].status), me);
  }

  lemma TurnLocalPooled(p: Pooled, i: nat, me: int)
    requires AllLocal(p.a, me) && LiveAt(p.a, i)
    ensures AllLocal(PooledTurn(p, i).a, me)
  {
    TurnLocal(p.a, i, me);
  }

  lemma {:induction false} RunLocal(p: Pooled, me: int, idleDone: bool)
    requires Ok(p) && AllLocal(p.a, me)
    ensures AllLocal(RunPooled(p, me, idleDone).a, me)
    decreases Fuel(p, idleDone)
  {
    var i, r := First(p.a.queue, me), PooledRound(p, me, idleDone);
    PooledRoundKeeps(p, me, idleDone);
    if LiveAt(p.a, i) { TurnLocalPooled(p, i, me); }
    if !r.over { RunLocal(r.p, me, r.idleDone); }
  }

  predicate Over(s: Status) { s.Finished? || s.Failed? }

  ghost predicate WaitsElsewhere(r: Sched, t: nat, me: int) {
    exists k :: 0 <= k < |r.queue| && r.queue[k].task == t && r.queue[k].thread !in {NONE, me}
  }

  /** Nothing this thread may run is left; what is not over is parked or waits for another thread. */
  ghost predicate Drained(r: Sched, me: int) {
    && NoneRunnable(r.queue, me)
    && (forall t :: 0 <= t < |r.table| ==>
          Over(r.table[t].status) || r.table[t].status.Held? || WaitsElsewhere(r, t, me))
  }

  /** The queue is empty, and every task is over or parked. */
  ghost predicate DrainedFully(r: Sched) {
    r.queue == [] && forall t :: 0 <= t < |r.table| ==> Over(r.table[t].status) || r.table[t].status.Held?
  }

  /** A run that leaves nothing runnable has drained the scheduler: every task ever submitted or spawned
      is over, parked, or queued for another thread; with nothing meant for other threads the queue is
      empty. */
  lemma DrainedTasks(p: Pooled, me: int)
    requires Ok(p) && NoneRunnable(RunPooled(p, me, false).a.queue, me)
    ensures Drained(RunPooled(p, me, false).a, me)
    ensures AllLocal(p.a, me) ==> DrainedFully(RunPooled(p, me, false).a)
  {
    var r := RunPooled(p, me, false).a;
    PooledExtends(p, me, false);
    forall t | 0 <= t < |r.table| && Eager(r.table[t].status) ensures WaitsElsewhere(r, t, me) {
      var k :| 0 <= k < |r.queue| && r.queue[k].task == t;
      assert !Runnable(r.queue[k], me);
    }
    if AllLocal(p.a, me) { RunLocal(p, me, false); }
  }
}
