/** What the worker loop really does with the fibers of callbacks, still without fibers: one callback
    fiber is kept and used again, and an entry that a callback made for its own fiber may outlive it.

    `RunPooled` is what `Runtime.Scheduler.Run` is proved to compute, for every queue and all programs.
    `Reference.RunAll` gives every callback a fiber of its own.  The two are compared here: they cannot
    be told apart exactly as long as no callback ends in its first slice having enqueued itself. */
module Recycling {
  import opened Programs
  import opened Reference

  /** The loop's callback fiber: none, one that is ready for a callback, or one that was entered
      without a callback and so ended with an exception. */
  datatype Pool = NoPool | Blank | Broken

  datatype Pooled = Pooled(a: Sched, pool: Pool)

  /** The task ended in its first slice as a callback; its fiber was taken back. */
  predicate Recycled(a: Sched, t: nat) {
    t < |a.table| && t !in a.named && (a.table[t].status.Finished? || a.table[t].status.Failed?)
  }

  /** The entry leads to the loop's callback fiber, whatever that is used for. */
  predicate Stray(a: Sched, slot: Slot) { Recycled(a, slot.task) }

  predicate NoStrays(a: Sched) {
    forall i :: 0 <= i < |a.queue| ==> !Stray(a, a.queue[i])
  }

  /** The callback fiber becomes task `u`'s own, and with it every entry that leads there. */
  function Adopt(a: Sched, u: nat): (b: Sched)
    ensures |b.queue| == |a.queue|
    ensures forall i :: 0 <= i < |a.queue| ==>
      b.queue[i] == if Stray(a, a.queue[i]) then Slot(u, a.queue[i].thread) else a.queue[i]
  {
    a.(queue := seq(|a.queue|, i requires 0 <= i < |a.queue| =>
      if Stray(a, a.queue[i]) then Slot(u, a.queue[i].thread) else a.queue[i]))
  }

  /** What a callback's turn does to the callback fiber. */
  function PutAway(b: Sched, u: nat, ended: bool): Pooled {
    if ended then Pooled(b, Blank) else Pooled(Adopt(b, u), NoPool)
  }

  /** One turn of the worker loop on the live entry at index `i`. */
  function PooledTurn(p: Pooled, i: nat): Pooled
    requires LiveAt(p.a, i)
  {
    var u := p.a.queue[i].task;
    var s := p.a.table[u].status;
    if s.Pending? then PutAway(Turn(p.a, i), u, Ends(Slice(Begin(p.a, i), u, s.prog).1))
    else Pooled(Turn(p.a, i), p.pool)
  }

  /** An entry that leads to a callback fiber which is ready, but has no callback. */
  predicate HollowAt(p: Pooled, i: nat) {
    i < |p.a.queue| && Stray(p.a, p.a.queue[i]) && p.pool.Blank?
  }

  ghost predicate Ok(p: Pooled) {
    WF(p.a) && Quiet(p.a) && (p.pool.NoPool? ==> NoStrays(p.a))
  }

  // ----- what a turn keeps

  lemma AdoptKeeps(a: Sched, u: nat)
    requires WF(a) && Quiet(a) && u in a.named
    ensures WF(Adopt(a, u)) && Quiet(Adopt(a, u)) && NoStrays(Adopt(a, u))
  {
    var b := Adopt(a, u);
    forall t | 0 <= t < |b.table| && Eager(b.table[t].status) ensures HasSlot(b.queue, t) {
      var i :| 0 <= i < |a.queue| && a.queue[i].task == t;
      assert b.queue[i] == a.queue[i];
    }
  }

  lemma AdoptNothing(a: Sched, u: nat)
    requires NoStrays(a)
    ensures Adopt(a, u) == a
  {
    assert Adopt(a, u).queue == a.queue;
  }

  /** What the turn of a callback leaves of it: ended and nameless, or suspended and named. */
  lemma FirstTurn(a: Sched, i: nat)
    requires WF(a) && LiveAt(a, i) && a.table[a.queue[i].task].status.Pending?
    ensures var u, r := a.queue[i].task, Turn(a, i);
      var e := Slice(Begin(a, i), u, a.table[u].status.prog).1;
      u !in a.named && u < |r.table| && if Ends(e) then Recycled(r, u) else u in r.named
  {
    var u := a.queue[i].task;
    var b := Begin(a, i);
    var e := SliceOwn(b, u, a.table[u].status.prog, true);
    SliceGrows(b, u, a.table[u].status.prog);
  }

  /** Tasks that are recycled were so before, but for the one that had the turn. */
  lemma TurnRecycled(a: Sched, i: nat, t: nat)
    requires WF(a) && LiveAt(a, i) && t != a.queue[i].task
    ensures Recycled(Turn(a, i), t) <==> Recycled(a, t)
  {
    hide Slice, EntriesOk, EagerQueued;
    var u := a.queue[i].task;
    var b := Begin(a, i);
    var p := Rest(a.table[u].status);
    SliceFreshTasks(b, u, p);
    SliceGrows(b, u, p);
    var c := Slice(b, u, p).0;
    if t < |a.table| { assert c.table[t] == c.table[..|b.table|][t]; }
  }

  /** Tasks that a slice spawns have not begun. */
  lemma {:induction false} SliceFreshTasks(a: Sched, u: nat, p: Prog)
    ensures var b := Slice(a, u, p).0;
      forall t :: |a.table| <= t < |b.table| ==> b.table[t].status.Pending? || b.table[t].status.Fresh?
    decreases p
  {
    if p.Then? && !Yields(p.act) {
      var b := Perform(a, u, p.act);
      PerformGrows(a, u, p.act);
      SliceFreshTasks(b, u, p.rest);
      SliceGrows(b, u, p.rest);
      var c := Slice(b, u, p.rest).0;
      forall t | |a.table| <= t < |c.table| ensures c.table[t].status.Pending? || c.table[t].status.Fresh? {
        if t < |b.table| { assert c.table[t] == c.table[..|b.table|][t]; }
      }
    }
  }

  /** A slice enqueues its own task, new tasks, and tasks that can be named. */
  lemma {:induction false} SliceQueues(a: Sched, u: nat, p: Prog)
    ensures var b := Slice(a, u, p).0;
      |a.queue| <= |b.queue| && b.queue[..|a.queue|] == a.queue
      && forall i :: |a.queue| <= i < |b.queue| ==>
        b.queue[i].task == u || b.queue[i].task >= |a.table| || b.queue[i].task in a.named
    decreases p
  {
    SliceGrows(a, u, p);
    if p.Then? && !Yields(p.act) {
      var b := Perform(a, u, p.act);
      PerformGrows(a, u, p.act);
      SliceQueues(b, u, p.rest);
      var c := Slice(b, u, p.rest).0;
      forall i | |a.queue| <= i < |c.queue|
        ensures c.queue[i].task == u || c.queue[i].task >= |a.table| || c.queue[i].task in a.named
      {
        if i < |b.queue| { assert c.queue[i] == c.queue[..|b.queue|][i]; }
      }
    }
  }

  /** A turn makes stray entries of no task but its own. */
  lemma TurnStrays(a: Sched, i: nat)
    requires WF(a) && LiveAt(a, i)
    ensures var r := Turn(a, i);
      forall k :: 0 <= k < |r.queue| && Stray(r, r.queue[k]) && r.queue[k].task != a.queue[i].task ==>
        exists j :: 0 <= j < |a.queue| && a.queue[j] == r.queue[k] && Stray(a, a.queue[j])
  {
    hide Slice;
    var u, r := a.queue[i].task, Turn(a, i);
    var b := Begin(a, i);
    var p := Rest(a.table[u].status);
    SliceQueues(b, u, p);
    SliceGrows(b, u, p);
    var c := Slice(b, u, p).0;
    forall k | 0 <= k < |r.queue| && Stray(r, r.queue[k]) && r.queue[k].task != u
      ensures exists j :: 0 <= j < |a.queue| && a.queue[j] == r.queue[k] && Stray(a, a.queue[j])
    {
      TurnRecycled(a, i, r.queue[k].task);
      assert k < |c.queue| && r.queue[k] == c.queue[k];
      if k < |b.queue| {
        assert c.queue[..|b.queue|][k] == b.queue[k];
        var j := if k < i then k else k + 1;
        assert a.queue[j] == r.queue[k];
      }
    }
  }

  lemma PooledTurnKeeps(p: Pooled, i: nat)
    requires Ok(p) && LiveAt(p.a, i)
    ensures Ok(PooledTurn(p, i)) && Measure(PooledTurn(p, i).a) + 2 <= Measure(p.a)
  {
    TurnPays(p.a, i);
    TurnKeeps(p.a, i);
    var u, r := p.a.queue[i].task, Turn(p.a, i);
    if p.a.table[u].status.Pending? {
      FirstTurn(p.a, i);
      if u in r.named { AdoptKeeps(r, u); }
    } else {
      TurnStrays(p.a, i);
      assert u in p.a.named;
      NamedStays(p.a, i);
    }
  }

  lemma NamedStays(a: Sched, i: nat)
    requires WF(a) && LiveAt(a, i)
    ensures a.named <= Turn(a, i).named
  {
    var u := a.queue[i].task;
    SliceGrows(Begin(a, i), u, Rest(a.table[u].status));
  }

  lemma DiscardOk(p: Pooled, i: nat)
    requires Ok(p) && i <= |p.a.queue| && (i < |p.a.queue| ==> !Live(p.a.table[p.a.queue[i].task].status))
    ensures Ok(p.(a := Discard(p.a, i))) && Measure(Discard(p.a, i)) <= Measure(p.a)
    ensures i < |p.a.queue| ==> Measure(Discard(p.a, i)) < Measure(p.a)
  {
    DiscardKeeps(p.a, i);
    var r := Discard(p.a, i);
    forall k | 0 <= k < |r.queue| && Stray(r, r.queue[k]) ensures exists j :: 0 <= j < |p.a.queue| && Stray(p.a, p.a.queue[j]) {
      var j := if k < i then k else k + 1;
      assert Stray(p.a, p.a.queue[j]);
    }
  }

  // ----- the loop

  /** What one round of the loop leaves, and whether it was the last. */
  datatype End = End(p: Pooled, idleDone: bool, over: bool)

  function PooledRound(p: Pooled, me: int, idleDone: bool): End {
    var i := First(p.a.queue, me);
    if LiveAt(p.a, i) then End(PooledTurn(p, i), idleDone, false)
    else if HollowAt(p, i) then End(Pooled(Drop(p.a, i), Broken), idleDone, false)
    else End(p.(a := Discard(p.a, i)), true, idleDone)
  }

  function Fuel(p: Pooled, idleDone: bool): nat {
    Measure(p.a) + if idleDone then 0 else 1
  }

  lemma PooledRoundKeeps(p: Pooled, me: int, idleDone: bool)
    requires Ok(p)
    ensures var r := PooledRound(p, me, idleDone); Ok(r.p) && (!r.over ==> Fuel(r.p, r.idleDone) < Fuel(p, idleDone))
  {
    var i := First(p.a.queue, me);
    if LiveAt(p.a, i) {
      PooledTurnKeeps(p, i);
    } else {
      DiscardOk(p, i);
      if HollowAt(p, i) {
        assert Drop(p.a, i) == Discard(p.a, i).(dropped := p.a.dropped);
      }
    }
  }

  /** The worker loop. */
  function RunPooled(p: Pooled, me: int, idleDone: bool): Pooled
    requires Ok(p)
    decreases Fuel(p, idleDone)
  {
    PooledRoundKeeps(p, me, idleDone);
    var r := PooledRound(p, me, idleDone);
    if r.over then r.p else RunPooled(r.p, me, r.idleDone)
  }

  /** A run is one round, and then the run that is left. */
  lemma RunIsRound(p: Pooled, me: int, idleDone: bool)
    requires Ok(p)
    ensures var r := PooledRound(p, me, idleDone);
      Ok(r.p) && RunPooled(p, me, idleDone) == if r.over then r.p else RunPooled(r.p, me, r.idleDone)
  {
    PooledRoundKeeps(p, me, idleDone);
  }

  // ----- when it cannot be told from giving every callback a fiber of its own

  /** The first slice enqueues the fiber it runs in. */
  predicate Hands(p: Prog) {
    match p
    case Return => false
    case Throw => false
    case Then(act, rest) => act.WakeSelf? || (!Yields(act) && Hands(rest))
  }

  /** The first slice is the only one. */
  predicate EndsAtOnce(p: Prog) {
    match p
    case Return => true
    case Throw => true
    case Then(act, rest) => !Yields(act) && EndsAtOnce(rest)
  }

  /** As a callback, the program would end in its first slice and leave an entry for its fiber. */
  predicate Leaky(p: Prog) { Hands(p) && EndsAtOnce(p) }

  lemma {:induction false} SliceHands(a: Sched, u: nat, p: Prog)
    requires u !in a.named && u < |a.table|
    ensures HasSlot(Slice(a, u, p).0.queue, u) <==> HasSlot(a.queue, u) || Hands(p)
    ensures Ends(Slice(a, u, p).1) <==> EndsAtOnce(p)
    decreases p
  {
    if p.Then? {
      var b := Perform(a, u, p.act);
      PerformGrows(a, u, p.act);
      PerformHands(a, u, p.act);
      if !Yields(p.act) { SliceHands(b, u, p.rest); }
    }
  }

  lemma PerformHands(a: Sched, u: nat, act: Act)
    requires u !in a.named && u < |a.table|
    ensures HasSlot(Perform(a, u, act).queue, u) <==> HasSlot(a.queue, u) || act.WakeSelf?
  {
    var q, r := a.queue, Perform(a, u, act).queue;
    SlotsKept(q, r);
    if act.WakeSelf? { assert r[|q|].task == u; }
    if HasSlot(r, u) && !act.WakeSelf? {
      var i :| 0 <= i < |r| && r[i].task == u;
      assert i < |q| && q[i].task == u;
    }
  }

  lemma BeginAlone(a: Sched, i: nat)
    requires WF(a) && LiveAt(a, i) && a.table[a.queue[i].task].status.Pending?
    ensures !HasSlot(Begin(a, i).queue, a.queue[i].task)
  {
    var r := Begin(a, i).queue;
    forall k | 0 <= k < |r| ensures r[k].task != a.queue[i].task {
      assert r[k] == a.queue[if k < i then k else k + 1];
    }
  }

  /** A first slice leaves a stray entry exactly if the callback is leaky. */
  lemma LeakyTurn(a: Sched, i: nat)
    requires WF(a) && NoStrays(a) && LiveAt(a, i) && a.table[a.queue[i].task].status.Pending?
    ensures NoStrays(Turn(a, i)) <==> !Leaky(a.table[a.queue[i].task].status.prog)
  {
    var u, r := a.queue[i].task, Turn(a, i);
    var prog := a.table[u].status.prog;
    BeginAlone(a, i);
    SliceHands(Begin(a, i), u, prog);
    FirstTurn(a, i);
    TurnStrays(a, i);
    SliceGrows(Begin(a, i), u, prog);
    if Leaky(prog) {
      var k :| 0 <= k < |r.queue| && r.queue[k].task == u;
      assert Stray(r, r.queue[k]);
    } else if EndsAtOnce(prog) {
      assert forall k :: 0 <= k < |r.queue| ==> r.queue[k].task != u;
    }
  }

  lemma OtherTurn(a: Sched, i: nat)
    requires WF(a) && NoStrays(a) && LiveAt(a, i) && !a.table[a.queue[i].task].status.Pending?
    ensures NoStrays(Turn(a, i))
  {
    TurnStrays(a, i);
    NamedStays(a, i);
  }

  /** Callback `t`, next in line, is leaky. */
  predicate LeakyNext(a: Sched, me: int) {
    var i := First(a.queue, me);
    LiveAt(a, i) && var s := a.table[a.queue[i].task].status; s.Pending? && Leaky(s.prog)
  }

  /** A round leaves strays exactly if it served a leaky callback; and up to then both loops do the same. */
  lemma RoundAlike(p: Pooled, me: int, idleDone: bool)
    requires Ok(p) && NoStrays(p.a)
    ensures var r, e := OneRound(p.a, me, idleDone), PooledRound(p, me, idleDone);
      && e.p.a == r.a && e.idleDone == r.idleDone && e.over == r.over
      && (NoStrays(r.a) <==> !LeakyNext(p.a, me))
      && (LeakyNext(p.a, me) ==> e.p.pool == Blank)
  {
    var i := First(p.a.queue, me);
    if LiveAt(p.a, i) {
      var u := p.a.queue[i].task;
      if p.a.table[u].status.Pending? {
        LeakyTurn(p.a, i);
        BeginAlone(p.a, i);
        SliceHands(Begin(p.a, i), u, p.a.table[u].status.prog);
        if NoStrays(Turn(p.a, i)) { AdoptNothing(Turn(p.a, i), u); }
      } else {
        OtherTurn(p.a, i);
      }
    } else {
      DiscardOk(p.(pool := NoPool), i);
    }
  }

  function IdealRounds(a: Sched, me: int, n: nat): RoundEnd {
    if n == 0 then RoundEnd(a, false, false)
    else var r := IdealRounds(a, me, n - 1); if r.over then r else OneRound(r.a, me, r.idleDone)
  }

  function PooledRounds(p: Pooled, me: int, n: nat): End {
    if n == 0 then End(p, false, false)
    else var r := PooledRounds(p, me, n - 1); if r.over then r else PooledRound(r.p, me, r.idleDone)
  }

  /** The state of a fiber in which a task of this status lives. */
  function StateOf(s: Status): State {
    match s
    case Pending(_) => INIT
    case Fresh(_) => INIT
    case Running => EXEC
    case Ready(_) => READY
    case Held(_) => HOLD
    case Finished => TERM
    case Failed => EXCEPT
  }

  function IdealState(a: Sched, slot: Slot): State {
    if slot.task < |a.table| then StateOf(a.table[slot.task].status) else INIT
  }

  function PooledState(p: Pooled, slot: Slot): State {
    if Stray(p.a, slot) then (if p.pool.Broken? then EXCEPT else INIT) else IdealState(p.a, slot)
  }

  /** The same for every client, one that looks at the states of the fibers it enqueued included. */
  ghost predicate Alike(r: RoundEnd, e: End) {
    && e.p.a == r.a && e.idleDone == r.idleDone && e.over == r.over
    && forall i :: 0 <= i < |r.a.queue| ==> PooledState(e.p, r.a.queue[i]) == IdealState(r.a, r.a.queue[i])
  }

  /** Some round before the `n`-th serves a leaky callback. */
  ghost predicate ServesLeaky(a: Sched, me: int, n: nat) {
    exists m :: 0 <= m < n && LeakyIn(a, me, m)
  }

  predicate LeakyIn(a: Sched, me: int, m: nat) {
    var r := IdealRounds(a, me, m);
    !r.over && LeakyNext(r.a, me)
  }

  lemma AlikeIf(r: RoundEnd, e: End)
    ensures e.p.a == r.a && e.idleDone == r.idleDone && e.over == r.over && NoStrays(r.a) ==> Alike(r, e)
  {
  }

  lemma AlikeIs(r: RoundEnd, e: End)
    requires Alike(r, e)
    ensures e.p.a == r.a && e.idleDone == r.idleDone && e.over == r.over
  {
  }

  lemma OkAtStart(a: Sched)
    requires WF(a) && Quiet(a) && NoStrays(a)
    ensures Ok(Pooled(a, NoPool))
  {
  }

  /** Before the first leaky callback has been served, nothing tells the two loops apart. */
  lemma {:induction false} AlikeUntil(a: Sched, me: int, n: nat)
    requires WF(a) && Quiet(a) && NoStrays(a) && !ServesLeaky(a, me, n)
    ensures var r, e := IdealRounds(a, me, n), PooledRounds(Pooled(a, NoPool), me, n);
      Alike(r, e) && Ok(e.p) && NoStrays(r.a)
  {
    hide OneRound, PooledRound, LeakyNext, Ok, WF, Quiet, Alike, NoStrays;
    AlikeIf(IdealRounds(a, me, n), PooledRounds(Pooled(a, NoPool), me, n));
    if n == 0 {
      OkAtStart(a);
    } else {
      var r, e := IdealRounds(a, me, n - 1), PooledRounds(Pooled(a, NoPool), me, n - 1);
      AlikeUntil(a, me, n - 1);
      AlikeIs(r, e);
      if !r.over {
        assert !LeakyIn(a, me, n - 1);
        RoundAlike(e.p, me, r.idleDone);
        PooledRoundKeeps(e.p, me, r.idleDone);
      }
    }
  }

  /** The round that serves the first leaky callback can be told: it leaves an entry whose fiber is INIT
      again instead of ended. */
  lemma ToldApart(a: Sched, me: int, m: nat)
    requires WF(a) && Quiet(a) && NoStrays(a) && !ServesLeaky(a, me, m) && LeakyIn(a, me, m)
    ensures !Alike(IdealRounds(a, me, m + 1), PooledRounds(Pooled(a, NoPool), me, m + 1))
  {
    hide OneRound, PooledRound, LeakyNext, Ok, WF, Quiet;
    AlikeUntil(a, me, m);
    var r, e := IdealRounds(a, me, m), PooledRounds(Pooled(a, NoPool), me, m);
    RoundAlike(e.p, me, r.idleDone);
    var s := OneRound(r.a, me, r.idleDone);
    var i :| 0 <= i < |s.a.queue| && Stray(s.a, s.a.queue[i]);
    assert PooledState(PooledRound(e.p, me, r.idleDone).p, s.a.queue[i]) == INIT;
    assert IdealState(s.a, s.a.queue[i]) in {TERM, EXCEPT};
  }

  /** Recycling is invisible exactly as long as no callback that ends in its first slice has enqueued
      its own fiber. */
  lemma {:induction false} InvisibleExactly(a: Sched, me: int, n: nat)
    requires WF(a) && Quiet(a) && NoStrays(a)
    ensures (forall m :: 0 <= m <= n ==> Alike(IdealRounds(a, me, m), PooledRounds(Pooled(a, NoPool), me, m)))
       <==> !ServesLeaky(a, me, n)
  {
    if ServesLeaky(a, me, n) {
      var m := FirstLeak(a, me, n);
      ToldApart(a, me, m);
    } else {
      forall m | 0 <= m <= n ensures Alike(IdealRounds(a, me, m), PooledRounds(Pooled(a, NoPool), me, m)) {
        AlikeUntil(a, me, m);
      }
    }
  }

  lemma {:induction false} FirstLeak(a: Sched, me: int, n: nat) returns (m: nat)
    requires ServesLeaky(a, me, n)
    ensures m < n && LeakyIn(a, me, m) && !ServesLeaky(a, me, m)
  {
    m :| 0 <= m < n && LeakyIn(a, me, m);
    if ServesLeaky(a, me, m) { m := FirstLeak(a, me, m); }
  }

  // ----- programs that leave no such entry

  /** No callback that the program spawns, or that those spawn, is leaky. */
  predicate Discreet(p: Prog) {
    match p
    case Return => true
    case Throw => true
    case Then(Spawn(child, asFiber, _), rest) => (asFiber || !Leaky(child)) && Discreet(child) && Discreet(rest)
    case Then(_, rest) => Discreet(rest)
  }

  predicate DiscreetStatus(s: Status) {
    (Live(s) ==> Discreet(Rest(s))) && (s.Pending? ==> !Leaky(s.prog))
  }

  predicate AllDiscreet(table: seq<Task>) {
    forall t :: 0 <= t < |table| ==> DiscreetStatus(table[t].status)
  }

  lemma {:induction false} SliceDiscreet(a: Sched, u: nat, p: Prog)
    requires AllDiscreet(a.table) && Discreet(p)
    ensures var (b, e) := Slice(a, u, p);
      AllDiscreet(b.table) && match e
        case ToReady(rest) => Discreet(rest) case ToHold(rest) => Discreet(rest) case ToRaw(rest) => Discreet(rest)
        case Done => true case Thrown => true
    decreases p
  {
    if p.Then? && !Yields(p.act) {
      assert AllDiscreet(Perform(a, u, p.act).table);
      SliceDiscreet(Perform(a, u, p.act), u, p.rest);
    }
  }

  lemma TurnDiscreet(a: Sched, i: nat)
    requires AllDiscreet(a.table) && LiveAt(a, i)
    ensures AllDiscreet(Turn(a, i).table)
  {
    var u := a.queue[i].task;
    var p := Rest(a.table[u].status);
    assert DiscreetStatus(a.table[u].status);
    SliceDiscreet(Begin(a, i), u, p);
    SliceGrows(Begin(a, i), u, p);
  }

  /** A whole run of such tasks ends as if every callback had a fiber of its own. */
  lemma {:induction false} DiscreetRun(p: Pooled, me: int, idleDone: bool)
    requires Ok(p) && NoStrays(p.a) && AllDiscreet(p.a.table)
    ensures RunPooled(p, me, idleDone).a == RunAll(p.a, me, idleDone)
    decreases Fuel(p, idleDone)
  {
    var i, r := First(p.a.queue, me), PooledRound(p, me, idleDone);
    RunIsRound(p, me, idleDone);
    PooledRoundKeeps(p, me, idleDone);
    RunIsRounds(p.a, me, idleDone);
    RoundAlike(p, me, idleDone);
    if LiveAt(p.a, i) {
      TurnDiscreet(p.a, i);
      assert DiscreetStatus(p.a.table[p.a.queue[i].task].status);
    }
    if !r.over { DiscreetRun(r.p, me, r.idleDone); }
  }
}
