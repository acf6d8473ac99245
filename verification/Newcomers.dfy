/** When the entry at a given place in the queue gets its turn, and so when a task begins. */
module Newcomers {
  import opened Programs
  import opened Reference
  import opened Recycling
  import opened RunLaws
  import opened Drain

  predicate Unbegun(s: Status) { s.Pending? || s.Fresh? }

  /** Ended fibers that a loop which never gives up on them would come across before entry `j`. */
  function Ahead(p: Pooled, me: int, j: nat): nat
    requires Ok(p)
    decreases Measure(p.a)
  {
    var i := First(p.a.queue, me);
    if i >= j || i == |p.a.queue| then 0
    else
      PatientKeeps(p, me);
      (if Throws(p, i) then 1 else 0) + Ahead(PooledRound(p, me, false).p, me, j - 1)
  }

  /** Entry `j` is the first of task `t`, which has not begun. */
  ghost predicate Waits(a: Sched, t: nat, j: nat) {
    && j < |a.queue| && a.queue[j].task == t && t < |a.table| && Unbegun(a.table[t].status)
    && forall k :: 0 <= k < j ==> a.queue[k].task != t
  }

  lemma AdoptWaits(a: Sched, u: nat, t: nat, j: nat)
    requires Waits(a, t, j) && u != t
    ensures Waits(Adopt(a, u), t, j) && Adopt(a, u).queue[j] == a.queue[j]
  {
  }

  lemma TurnWaits(a: Sched, i: nat, t: nat, j: nat)
    requires WF(a) && LiveAt(a, i) && i < j && Waits(a, t, j)
    ensures Waits(Turn(a, i), t, j - 1) && Turn(a, i).queue[j - 1] == a.queue[j]
  {
    TurnExtends(a, i);
    PrefixAfter(a.queue, Turn(a, i).queue, i, j);
    forall k | 0 <= k < j - 1 ensures Turn(a, i).queue[k].task != t {
      assert Turn(a, i).queue[..j - 1][k] == a.queue[..j][if k < i then k else k + 1];
    }
  }

  lemma RoundWaits(p: Pooled, me: int, idleDone: bool, t: nat, j: nat)
    requires Ok(p) && Waits(p.a, t, j) && First(p.a.queue, me) < j
    ensures var q := PooledRound(p, me, idleDone).p; Waits(q.a, t, j - 1) && q.a.queue[j - 1] == p.a.queue[j]
  {
    hide Adopt;
    var i := First(p.a.queue, me);
    if LiveAt(p.a, i) {
      TurnWaits(p.a, i, t, j);
      AdoptWaits(Turn(p.a, i), p.a.queue[i].task, t, j - 1);
    }
  }

  /** A turn begins its own task, and no task is ever unbegun again. */
  lemma TurnBegins(a: Sched, i: nat, t: nat)
    requires WF(a) && LiveAt(a, i) && t < |a.table| && (t == a.queue[i].task || !Unbegun(a.table[t].status))
    ensures t < |Turn(a, i).table| && !Unbegun(Turn(a, i).table[t].status)
  {
    var u := a.queue[i].task;
    TurnExtends(a, i);
    SliceGrows(Begin(a, i), u, Rest(a.table[u].status));
  }

  lemma {:induction false} StaysBegun(p: Pooled, me: int, idleDone: bool, t: nat)
    requires Ok(p) && t < |p.a.table| && !Unbegun(p.a.table[t].status)
    ensures var r := RunPooled(p, me, idleDone).a; t < |r.table| && !Unbegun(r.table[t].status)
    decreases Fuel(p, idleDone)
  {
    var i, r := First(p.a.queue, me), PooledRound(p, me, idleDone);
    PooledRoundKeeps(p, me, idleDone);
    if LiveAt(p.a, i) { TurnBegins(p.a, i, t); }
    if !r.over { StaysBegun(r.p, me, r.idleDone, t); }
  }

  /** Whatever the tasks do: a queued task begins if and only if the loop comes across no more ended
      fibers before its entry than it has idle turns to spare. */
  lemma {:induction false} BeginsExactly(p: Pooled, me: int, idleDone: bool, t: nat, j: nat)
    requires Ok(p) && Waits(p.a, t, j) && Runnable(p.a.queue[j], me)
    ensures var r := RunPooled(p, me, idleDone).a;
      t < |r.table| && (!Unbegun(r.table[t].status) <==> Ahead(p, me, j) <= if idleDone then 0 else 1)
    decreases Fuel(p, idleDone)
  {
    hide RunPooled, Ahead, WF, Quiet, NoStrays, PooledTurn, Unbegun;
    var r := PooledRound(p, me, idleDone);
    RunIsRound(p, me, idleDone);
    PooledRoundKeeps(p, me, idleDone);
    AheadRound(p, me, idleDone, j);
    if First(p.a.queue, me) == j {
      RoundBegins(p, me, idleDone, t, j);
      StaysBegun(r.p, me, r.idleDone, t);
    } else {
      RoundWaits(p, me, idleDone, t, j);
      if r.over { StillWaits(r.p.a, t, j - 1); } else { BeginsExactly(r.p, me, r.idleDone, t, j - 1); }
    }
  }

  lemma StillWaits(a: Sched, t: nat, j: nat)
    requires Waits(a, t, j)
    ensures t < |a.table| && Unbegun(a.table[t].status)
  {
  }

  lemma AheadRound(p: Pooled, me: int, idleDone: bool, j: nat)
    requires Ok(p) && j < |p.a.queue|
    ensures var i, r := First(p.a.queue, me), PooledRound(p, me, idleDone);
      && Ok(r.p) && (i >= j ==> Ahead(p, me, j) == 0)
      && (i < j ==> Ahead(p, me, j) == Ahead(r.p, me, j - 1) + if Throws(p, i) then 1 else 0)
  {
    PooledRoundKeeps(p, me, idleDone);
    assert PooledRound(p, me, idleDone).p == PooledRound(p, me, false).p;
  }

  lemma RoundBegins(p: Pooled, me: int, idleDone: bool, t: nat, j: nat)
    requires Ok(p) && Waits(p.a, t, j) && First(p.a.queue, me) == j
    ensures var r := PooledRound(p, me, idleDone);
      !r.over && r.idleDone == idleDone && t < |r.p.a.table| && !Unbegun(r.p.a.table[t].status)
  {
    TurnBegins(p.a, j, t);
  }

  // ----- what decides it can be read off the queue

  /** Up to `j` no live task is queued twice, and no entry leads to the loop's callback fiber. */
  ghost predicate TidyTo(a: Sched, j: nat) {
    && j <= |a.queue| && Tidy(a.queue[..j], a.table)
    && forall k :: 0 <= k < j ==> !Stray(a, a.queue[k])
  }

  /** What is left of the first `j` entries when the one at `i` is gone, and more may have come. */
  function Without(q: seq<Slot>, i: nat, j: nat): seq<Slot>
    requires i < j <= |q|
  {
    q[..j][..i] + q[..j][i + 1..]
  }

  lemma WithoutPrefix(q: seq<Slot>, r: seq<Slot>, i: nat, j: nat)
    requires i < j <= |q|
    requires var rest := q[..i] + q[i + 1..]; |rest| <= |r| && r[..|rest|] == rest
    ensures j - 1 <= |r| && r[..j - 1] == Without(q, i, j)
  {
    var rest := q[..i] + q[i + 1..];
    assert r[..j - 1] == r[..|rest|][..j - 1] == rest[..j - 1];
  }

  lemma WithoutTidy(a: Sched, me: int, i: nat, j: nat)
    requires EntriesOk(a.queue, a.table) && i < j && TidyTo(a, j) && Runnable(a.queue[i], me)
    ensures var rest := Without(a.queue, i, j);
      && Tidy(rest, a.table) && (forall k :: 0 <= k < |rest| ==> !Stray(a, rest[k]))
      && SpentIn(a.queue[..j], a.table, me)
      == SpentIn(rest, a.table, me) + (if Live(a.table[a.queue[i].task].status) then 0 else 1)
      && (Live(a.table[a.queue[i].task].status) ==> !HasSlot(rest, a.queue[i].task))
  {
    TidyRemove(a.queue[..j], a.table, i);
    SpentRemove(a.queue[..j], i, a.table, me);
  }

  /** A turn changes nothing about the entries of other tasks. */
  lemma TurnAlike(a: Sched, me: int, i: nat, rest: seq<Slot>)
    requires WF(a) && LiveAt(a, i) && !HasSlot(rest, a.queue[i].task) && Tidy(rest, a.table)
    requires forall k :: 0 <= k < |rest| ==> rest[k].task < |a.table| && !Stray(a, rest[k])
    ensures var b := Turn(a, i);
      && Tidy(rest, b.table) && SpentIn(rest, b.table, me) == SpentIn(rest, a.table, me)
      && forall k :: 0 <= k < |rest| ==> !Stray(b, rest[k])
  {
    var b := Turn(a, i);
    TurnExtends(a, i);
    hide Turn, WF, SpentIn;
    forall k | 0 <= k < |rest| ensures !Stray(b, rest[k]) && b.table[rest[k].task] == a.table[rest[k].task] {
      assert rest[k].task != a.queue[i].task;
      TurnRecycled(a, i, rest[k].task);
    }
    TurnSpares(a, i, rest, me);
  }

  lemma TurnTidyTo(a: Sched, me: int, i: nat, j: nat)
    requires WF(a) && LiveAt(a, i) && i < j && TidyTo(a, j) && Runnable(a.queue[i], me)
    ensures var b := Turn(a, i);
      TidyTo(b, j - 1) && SpentIn(b.queue[..j - 1], b.table, me) == SpentIn(a.queue[..j], a.table, me)
  {
    hide Turn, SpentIn, Tidy, Stray, HasSlot;
    TurnExtends(a, i);
    WithoutPrefix(a.queue, Turn(a, i).queue, i, j);
    WithoutTidy(a, me, i, j);
    TurnAlike(a, me, i, Without(a.queue, i, j));
    TidyToPrefix(Turn(a, i), j - 1);
  }

  lemma TidyToPrefix(b: Sched, j: nat)
    requires j <= |b.queue| && Tidy(b.queue[..j], b.table)
    requires forall k :: 0 <= k < j ==> !Stray(b, b.queue[..j][k])
    ensures TidyTo(b, j)
  {
    assert forall k :: 0 <= k < j ==> b.queue[..j][k] == b.queue[k];
  }

  lemma AdoptTidyTo(a: Sched, u: nat, j: nat)
    requires TidyTo(a, j)
    ensures TidyTo(Adopt(a, u), j) && Adopt(a, u).queue[..j] == a.queue[..j] && Adopt(a, u).table == a.table
  {
    var b := Adopt(a, u);
    assert forall k :: 0 <= k < j ==> b.queue[k] == a.queue[k];
  }

  lemma DiscardTidyTo(a: Sched, me: int, i: nat, j: nat)
    requires WF(a) && i < j && TidyTo(a, j) && Spent(a.queue[i], a.table, me)
    ensures TidyTo(Discard(a, i), j - 1)
    ensures SpentIn(Discard(a, i).queue[..j - 1], a.table, me) + 1 == SpentIn(a.queue[..j], a.table, me)
  {
    hide SpentIn, Tidy, EagerQueued, NamesOk;
    WithoutPrefix(a.queue, Discard(a, i).queue, i, j);
    WithoutTidy(a, me, i, j);
    TidyToPrefix(Discard(a, i), j - 1);
  }

  /** Then the ended fibers ahead are the entries ahead whose task is over by now. */
  lemma {:induction false} AheadIsSpent(p: Pooled, me: int, j: nat)
    requires Ok(p) && j <= |p.a.queue| && TidyTo(p.a, j)
    ensures Ahead(p, me, j) == SpentIn(p.a.queue[..j], p.a.table, me)
    decreases Measure(p.a)
  {
    hide Adopt, TidyTo, SpentIn;
    var i := First(p.a.queue, me);
    if i >= j {
      SpentNone(p.a.queue[..j], p.a.table, me);
    } else {
      PatientKeeps(p, me);
      RoundTidyTo(p, me, j);
      AheadIsSpent(PooledRound(p, me, false).p, me, j - 1);
    }
  }

  lemma RoundTidyTo(p: Pooled, me: int, j: nat)
    requires Ok(p) && TidyTo(p.a, j) && First(p.a.queue, me) < j
    ensures var i, q := First(p.a.queue, me), PooledRound(p, me, false).p;
      && j - 1 <= |q.a.queue| && TidyTo(q.a, j - 1)
      && SpentIn(p.a.queue[..j], p.a.table, me)
      == SpentIn(q.a.queue[..j - 1], q.a.table, me) + if Throws(p, i) then 1 else 0
  {
    hide Adopt, SpentIn;
    var i := First(p.a.queue, me);
    if LiveAt(p.a, i) {
      TurnTidyTo(p.a, me, i, j);
      AdoptTidyTo(Turn(p.a, i), p.a.queue[i].task, j - 1);
    } else {
      DiscardTidyTo(p.a, me, i, j);
    }
  }

  lemma SubmitWaits(a: Sched, prog: Prog, asFiber: bool, thread: int, me: int)
    requires EntriesOk(a.queue, a.table)
    ensures var b, n := Submit(a, prog, asFiber, thread), |a.queue|;
      && Waits(b, |a.table|, n) && SpentIn(b.queue[..n], b.table, me) == SpentIn(a.queue, a.table, me)
      && (NoStrays(a) ==> NoStrays(b))
      && (NoStrays(a) && Tidy(a.queue, a.table) ==> TidyTo(b, n))
  {
    var b, n := Submit(a, prog, asFiber, thread), |a.queue|;
    if NoStrays(a) { SubmitStrays(a, prog, asFiber, thread); }
    assert b.queue[..n] == a.queue;
    SpentSame(a.queue, a.table, b.table, me);
  }

  /** Will a task submitted now be served?  Exactly if the loop comes across at most one ended fiber
      before it; that is to say, if no live task is queued twice, if at most one queued entry names a
      task that is over. */
  lemma ServesNewcomer(p: Pooled, prog: Prog, asFiber: bool, thread: int, me: int)
    requires Ok(p) && (thread == NONE || thread == me)
    ensures var b, t, j := p.(a := Submit(p.a, prog, asFiber, thread)), |p.a.table|, |p.a.queue|;
      && Ok(b)
      && t < |RunPooled(b, me, false).a.table|
      && (!Unbegun(RunPooled(b, me, false).a.table[t].status) <==> Ahead(b, me, j) <= 1)
      && (Tidy(p.a.queue, p.a.table) && NoStrays(p.a) ==> Ahead(b, me, j) == SpentIn(p.a.queue, p.a.table, me))
  {
    var b, t, j := p.(a := Submit(p.a, prog, asFiber, thread)), |p.a.table|, |p.a.queue|;
    hide RunPooled, Ahead, TidyTo, SpentIn, EagerQueued, NamesOk, Quiet;
    SubmitKeeps(p.a, prog, asFiber, thread);
    SubmitWaits(p.a, prog, asFiber, thread, me);
    BeginsExactly(b, me, false, t, j);
    if Tidy(p.a.queue, p.a.table) && NoStrays(p.a) { AheadIsSpent(b, me, j); }
  }
}
