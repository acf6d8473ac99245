/** The queue's books over a whole run: what the trace asks for, and what comes of every entry. */
module Ledger {
  import opened Programs
  import opened Reference
  import opened Recycling
  import opened RunLaws

  // ----- what a trace asks for, when it begins with `n` tasks of which `named` can be named

  function BornOf(step: Step): seq<Prog> {
    if step.Did? && step.act.Spawn? then [step.act.child] else []
  }

  /** The programs of the tasks that are created, in that order. */
  function Born(es: seq<Event>): seq<Prog> {
    if es == [] then [] else BornOf(es[0].step) + Born(es[1..])
  }

  /** A task can be named when it was made as a fiber, or has given up the CPU before its end. */
  function NamesOf(e: Event, n: nat): set<nat> {
    match e.step
    case Did(Spawn(_, asFiber, _)) => if asFiber then {n} else {}
    case Did(YieldReady) => {e.task}
    case Did(YieldHold) => {e.task}
    case Did(SwapOut) => {e.task}
    case _ => {}
  }

  function Named(es: seq<Event>, n: nat, named: set<nat>): set<nat> {
    if es == [] then named
    else Named(es[1..], n + |BornOf(es[0].step)|, named + NamesOf(es[0], n))
  }

  /** The entry that an event asks for: for the new task, for one that can be named, or for the task itself. */
  function DueOf(e: Event, n: nat, named: set<nat>): seq<Slot> {
    match e.step
    case Did(Spawn(_, _, thread)) => [Slot(n, thread)]
    case Did(Wake(t, thread)) => if t in named then [Slot(t, thread)] else []
    case Did(WakeSelf(thread)) => [Slot(e.task, thread)]
    case Did(YieldReady) => [Slot(e.task, NONE)]
    case _ => []
  }

  /** All of them, in order, each with its pin. */
  function Due(es: seq<Event>, n: nat, named: set<nat>): seq<Slot> {
    if es == [] then []
    else DueOf(es[0], n, named) + Due(es[1..], n + |BornOf(es[0].step)|, named + NamesOf(es[0], n))
  }

  lemma {:induction false} Joined(es: seq<Event>, fs: seq<Event>, n: nat, named: set<nat>)
    ensures Born(es + fs) == Born(es) + Born(fs)
    ensures Named(es + fs, n, named) == Named(fs, n + |Born(es)|, Named(es, n, named))
    ensures Due(es + fs, n, named) == Due(es, n, named) + Due(fs, n + |Born(es)|, Named(es, n, named))
    decreases |es|
  {
    hide BornOf, NamesOf, DueOf;
    if es == [] {
      assert es + fs == fs;
    } else {
      assert (es + fs)[1..] == es[1..] + fs;
      Joined(es[1..], fs, n + |BornOf(es[0].step)|, named + NamesOf(es[0], n));
      assert n + |BornOf(es[0].step)| + |Born(es[1..])| == n + |Born(es)|;
    }
  }

  function Progs(table: seq<Task>): seq<Prog> { seq(|table|, t requires 0 <= t < |table| => table[t].prog) }

  /** From `a` to `b` these events have happened, and what they ask for has been done. */
  ghost predicate Meets(a: Sched, b: Sched, es: seq<Event>) {
    && b.trace == a.trace + es
    && Progs(b.table) == Progs(a.table) + Born(es)
    && b.named == Named(es, |a.table|, a.named)
    && b.queue == a.queue + Due(es, |a.table|, a.named)
  }

  lemma MeetsTwice(a: Sched, b: Sched, c: Sched, es: seq<Event>, fs: seq<Event>)
    requires Meets(a, b, es) && Meets(b, c, fs)
    ensures Meets(a, c, es + fs)
  {
    hide Named, Due, Born;
    Joined(es, fs, |a.table|, a.named);
    assert |Progs(b.table)| == |Progs(a.table)| + |Born(es)|;
  }

  lemma PerformMeets(a: Sched, u: nat, act: Act)
    requires !Yields(act)
    ensures Meets(a, Perform(a, u, act), [Event(u, Did(act))])
  {
    var e := Event(u, Did(act));
    assert [e][1..] == [];
    assert Progs(Perform(a, u, act).table) == Progs(a.table) + BornOf(e.step);
  }

  /** The steps of one slice. */
  function SliceSteps(p: Prog): seq<Step> {
    match p
    case Return => [Returned]
    case Throw => [Threw]
    case Then(act, rest) => [Did(act)] + if Yields(act) then [] else SliceSteps(rest)
  }

  function By(u: nat, steps: seq<Step>): seq<Event> {
    seq(|steps|, i requires 0 <= i < |steps| => Event(u, steps[i]))
  }

  /** The slice, settled. */
  function Whole(a: Sched, u: nat, p: Prog): Sched
    requires u < |a.table|
  {
    SliceGrows(a, u, p);
    Settle(Slice(a, u, p).0, u, Slice(a, u, p).1)
  }

  lemma LastMeets(a: Sched, u: nat, p: Prog)
    requires u < |a.table| && (p.Then? ==> Yields(p.act))
    ensures Meets(a, Whole(a, u, p), By(u, SliceSteps(p)))
  {
    var b, e := Whole(a, u, p), Event(u, SliceSteps(p)[0]);
    assert By(u, SliceSteps(p)) == [e] && [e][1..] == [];
    assert Progs(b.table) == Progs(a.table);
  }

  lemma {:induction false} SliceMeets(a: Sched, u: nat, p: Prog)
    requires u < |a.table|
    ensures Meets(a, Whole(a, u, p), By(u, SliceSteps(p)))
    decreases p
  {
    hide Meets, Whole, By, SliceSteps, Perform;
    if p.Then? && !Yields(p.act) {
      var b := Perform(a, u, p.act);
      WholeNext(a, u, p);
      PerformMeets(a, u, p.act);
      SliceMeets(b, u, p.rest);
      MeetsTwice(a, b, Whole(b, u, p.rest), [Event(u, Did(p.act))], By(u, SliceSteps(p.rest)));
    } else {
      LastMeets(a, u, p);
    }
  }

  lemma WholeNext(a: Sched, u: nat, p: Prog)
    requires u < |a.table| && p.Then? && !Yields(p.act)
    ensures u < |Perform(a, u, p.act).table| && Whole(a, u, p) == Whole(Perform(a, u, p.act), u, p.rest)
    ensures By(u, SliceSteps(p)) == [Event(u, Did(p.act))] + By(u, SliceSteps(p.rest))
  {
    hide Perform, Settle, By;
    PerformGrows(a, u, p.act);
    ByNext(u, Did(p.act), SliceSteps(p.rest));
  }

  lemma ByNext(u: nat, step: Step, steps: seq<Step>)
    ensures By(u, [step] + steps) == [Event(u, step)] + By(u, steps)
  {
  }

  /** What a turn does, told from its events: the entry is gone, and all that they ask for has come. */
  lemma TurnMeets(a: Sched, i: nat)
    requires LiveAt(a, i)
    ensures Meets(Drop(a, i), Turn(a, i), By(a.queue[i].task, SliceSteps(Rest(a.table[a.queue[i].task].status))))
  {
    var u := a.queue[i].task;
    var p := Rest(a.table[u].status);
    SliceMeets(Begin(a, i), u, p);
    assert Progs(Begin(a, i).table) == Progs(a.table);
  }

  // ----- counting entries

  /** Which entries are counted: those of a task, or those of a task with a certain pin. */
  datatype Wanted = OfTask(task: nat) | Exactly(slot: Slot)

  predicate Fits(slot: Slot, w: Wanted) {
    match w
    case OfTask(t) => slot.task == t
    case Exactly(x) => slot == x
  }

  function Count(q: seq<Slot>, w: Wanted): nat {
    if q == [] then 0 else Count(q[..|q| - 1], w) + if Fits(q[|q| - 1], w) then 1 else 0
  }

  lemma {:induction false} CountConcat(q: seq<Slot>, r: seq<Slot>, w: Wanted)
    ensures Count(q + r, w) == Count(q, w) + Count(r, w)
    decreases |r|
  {
    if r == [] {
      assert q + r == q;
    } else {
      CountConcat(q, r[..|r| - 1], w);
      assert (q + r)[..|q + r| - 1] == q + r[..|r| - 1];
    }
  }

  lemma CountOne(slot: Slot, w: Wanted)
    ensures Count([slot], w) == if Fits(slot, w) then 1 else 0
  {
    assert [slot][..0] == [];
  }

  lemma CountRemoved(q: seq<Slot>, i: nat, w: Wanted)
    requires i < |q|
    ensures Count(q, w) == Count(q[..i] + q[i + 1..], w) + Count([q[i]], w)
  {
    assert q == q[..i] + [q[i]] + q[i + 1..];
    CountConcat(q[..i] + [q[i]], q[i + 1..], w);
    CountConcat(q[..i], [q[i]], w);
    CountConcat(q[..i], q[i + 1..], w);
  }

  // ----- what comes of the entries in a run

  /** Entries that were given a turn, those that were thrown away, and those that led to the callback fiber
      when a callback took it for its own, as they were before and after. */
  datatype Books = Books(served: seq<Slot>, thrown: seq<Slot>, before: seq<Slot>, after: seq<Slot>)

  function Both(b: Books, c: Books): Books {
    Books(b.served + c.served, b.thrown + c.thrown, b.before + c.before, b.after + c.after)
  }

  /** The entries in `q` that lead to the callback fiber. */
  function StraysIn(a: Sched, q: seq<Slot>): seq<Slot> {
    if q == [] then []
    else StraysIn(a, q[..|q| - 1]) + if Stray(a, q[|q| - 1]) then [q[|q| - 1]] else []
  }

  /** The same entries, of task `u` now. */
  function Renamed(q: seq<Slot>, u: nat): seq<Slot> {
    seq(|q|, i requires 0 <= i < |q| => Slot(u, q[i].thread))
  }

  function RoundBooks(p: Pooled, i: nat): Books {
    if LiveAt(p.a, i) then
      var u, slot := p.a.queue[i].task, p.a.queue[i];
      var strays := StraysIn(Turn(p.a, i), Turn(p.a, i).queue);
      if p.a.table[u].status.Pending? && !Ends(Slice(Begin(p.a, i), u, p.a.table[u].status.prog).1)
      then Books([slot], [], strays, Renamed(strays, u))
      else Books([slot], [], [], [])
    else if i < |p.a.queue| then Books([], [p.a.queue[i]], [], [])
    else Books([], [], [], [])
  }

  function RunBooks(p: Pooled, me: int, idleDone: bool): Books
    requires Ok(p)
    decreases Fuel(p, idleDone)
  {
    PooledRoundKeeps(p, me, idleDone);
    var r, b := PooledRound(p, me, idleDone), RoundBooks(p, First(p.a.queue, me));
    if r.over then b else Both(b, RunBooks(r.p, me, r.idleDone))
  }

  lemma {:induction false} AdoptCounts(a: Sched, u: nat, q: seq<Slot>, r: seq<Slot>, w: Wanted)
    requires |r| == |q| && forall k :: 0 <= k < |q| ==> r[k] == if Stray(a, q[k]) then Slot(u, q[k].thread) else q[k]
    ensures Count(r, w) + Count(StraysIn(a, q), w) == Count(q, w) + Count(Renamed(StraysIn(a, q), u), w)
  {
    hide Stray;
    if q != [] {
      var n := |q| - 1;
      AdoptCounts(a, u, q[..n], r[..n], w);
      assert r[n] == if Stray(a, q[n]) then Slot(u, q[n].thread) else q[n];
      if Stray(a, q[n]) {
        StrayCounts(StraysIn(a, q[..n]), q[n], u, w);
        assert StraysIn(a, q) == StraysIn(a, q[..n]) + [q[n]];
      } else {
        assert StraysIn(a, q) == StraysIn(a, q[..n]);
      }
    }
  }

  lemma StrayCounts(strays: seq<Slot>, slot: Slot, u: nat, w: Wanted)
    ensures Count(strays + [slot], w) == Count(strays, w) + if Fits(slot, w) then 1 else 0
    ensures Count(Renamed(strays + [slot], u), w)
         == Count(Renamed(strays, u), w) + if Fits(Slot(u, slot.thread), w) then 1 else 0
  {
    assert Renamed(strays + [slot], u) == Renamed(strays, u) + [Slot(u, slot.thread)];
    CountConcat(strays, [slot], w);
    CountConcat(Renamed(strays, u), [Slot(u, slot.thread)], w);
    CountOne(slot, w);
    CountOne(Slot(u, slot.thread), w);
  }

  /** What is entered in the books for a step from `a` to `b` accounts for all entries. */
  ghost predicate Balances(a: Sched, b: Sched, es: seq<Event>, k: Books) {
    && b.trace == a.trace + es
    && Progs(b.table) == Progs(a.table) + Born(es)
    && b.named == Named(es, |a.table|, a.named)
    && (forall w :: Count(a.queue, w) + Count(Due(es, |a.table|, a.named), w) + Count(k.after, w)
                 == Count(b.queue, w) + Count(k.served, w) + Count(k.thrown, w) + Count(k.before, w))
    && (forall t :: Count(k.served, OfTask(t)) == Turns(Projection(es, t)))
  }

  lemma {:induction false} SplitTrace(es: seq<Event>, fs: seq<Event>, t: nat)
    ensures Turns(Projection(es + fs, t)) == Turns(Projection(es, t)) + Turns(Projection(fs, t))
    decreases |fs|
  {
    if fs == [] {
      assert es + fs == es;
    } else {
      var n := |fs| - 1;
      SplitTrace(es, fs[..n], t);
      assert es + fs == (es + fs[..n]) + [fs[n]];
      assert fs == fs[..n] + [fs[n]];
      EventTurns(es + fs[..n], fs[n], t);
      EventTurns(fs[..n], fs[n], t);
    }
  }

  lemma EventTurns(es: seq<Event>, e: Event, t: nat)
    ensures Turns(Projection(es + [e], t)) == Turns(Projection(es, t)) + if e.task == t && EndsTurn(e.step) then 1 else 0
  {
    hide Projection;
    ProjectionSnoc(es, e, t);
    TurnsSnoc(Projection(es, t), e.step);
    assert Projection(es, t) + [] == Projection(es, t);
  }

  lemma BothCount(b: Books, c: Books, w: Wanted)
    ensures var k := Both(b, c);
      && Count(k.served, w) == Count(b.served, w) + Count(c.served, w)
      && Count(k.thrown, w) == Count(b.thrown, w) + Count(c.thrown, w)
      && Count(k.before, w) == Count(b.before, w) + Count(c.before, w)
      && Count(k.after, w) == Count(b.after, w) + Count(c.after, w)
  {
    CountConcat(b.served, c.served, w);
    CountConcat(b.thrown, c.thrown, w);
    CountConcat(b.before, c.before, w);
    CountConcat(b.after, c.after, w);
  }

  lemma BalancesTwice(a: Sched, b: Sched, c: Sched, es: seq<Event>, fs: seq<Event>, k: Books, l: Books)
    requires Balances(a, b, es, k) && Balances(b, c, fs, l)
    ensures Balances(a, c, es + fs, Both(k, l))
  {
    hide Count, Named, Due, Born, Turns, Projection, Both;
    Joined(es, fs, |a.table|, a.named);
    assert |Progs(b.table)| == |Progs(a.table)| + |Born(es)|;
    forall w ensures Count(a.queue, w) + Count(Due(es + fs, |a.table|, a.named), w) + Count(Both(k, l).after, w)
      == Count(c.queue, w) + Count(Both(k, l).served, w) + Count(Both(k, l).thrown, w) + Count(Both(k, l).before, w)
    {
      BothCount(k, l, w);
      CountConcat(Due(es, |a.table|, a.named), Due(fs, |b.table|, b.named), w);
    }
    forall t ensures Count(Both(k, l).served, OfTask(t)) == Turns(Projection(es + fs, t)) {
      BothCount(k, l, OfTask(t));
      SplitTrace(es, fs, t);
    }
  }

  /** A slice is one turn. */
  lemma {:induction false} SliceTurns(u: nat, p: Prog, t: nat)
    ensures Turns(Projection(By(u, SliceSteps(p)), t)) == if t == u then 1 else 0
    decreases p
  {
    if p.Then? && !Yields(p.act) {
      assert By(u, SliceSteps(p)) == [Event(u, Did(p.act))] + By(u, SliceSteps(p.rest));
      SplitTrace([Event(u, Did(p.act))], By(u, SliceSteps(p.rest)), t);
      OneStepTurns(u, Did(p.act), t);
      SliceTurns(u, p.rest, t);
    } else {
      var step := SliceSteps(p)[0];
      assert By(u, SliceSteps(p)) == [Event(u, step)];
      OneStepTurns(u, step, t);
    }
  }

  lemma OneStepTurns(u: nat, step: Step, t: nat)
    ensures Turns(Projection([Event(u, step)], t)) == if t == u && EndsTurn(step) then 1 else 0
  {
    ProjectionSnoc([], Event(u, step), t);
    assert [] + [Event(u, step)] == [Event(u, step)];
    TurnsSnoc([], step);
    assert [] + [step] == [step];
  }

  /** The events of one round. */
  function RoundEvents(p: Pooled, i: nat): seq<Event> {
    if LiveAt(p.a, i) then By(p.a.queue[i].task, SliceSteps(Rest(p.a.table[p.a.queue[i].task].status))) else []
  }

  lemma TurnBalances(p: Pooled, i: nat)
    requires LiveAt(p.a, i)
    ensures Balances(p.a, PooledTurn(p, i).a, RoundEvents(p, i), RoundBooks(p, i))
  {
    hide Turn, Slice, Count, Due, Named, Born, Turns, Projection, SliceSteps, StraysIn, Recycling.Adopt;
    var a, b, c, u := p.a, Turn(p.a, i), PooledTurn(p, i).a, p.a.queue[i].task;
    var es, k := RoundEvents(p, i), RoundBooks(p, i);
    TurnMeets(a, i);
    AdoptRest(b, u);
    forall w ensures Count(a.queue, w) + Count(Due(es, |a.table|, a.named), w) + Count(k.after, w)
      == Count(c.queue, w) + Count(k.served, w) + Count(k.thrown, w) + Count(k.before, w)
    {
      CountRemoved(a.queue, i, w);
      CountConcat(Drop(a, i).queue, Due(es, |a.table|, a.named), w);
      CountNone(w);
      AdoptCounts(b, u, b.queue, Recycling.Adopt(b, u).queue, w);
    }
    forall t ensures Count(k.served, OfTask(t)) == Turns(Projection(es, t)) {
      CountOne(a.queue[i], OfTask(t));
      SliceTurns(u, Rest(a.table[u].status), t);
    }
  }

  lemma AdoptRest(a: Sched, u: nat)
    ensures var b := Recycling.Adopt(a, u); b.trace == a.trace && b.table == a.table && b.named == a.named
  {
  }

  lemma CountNone(w: Wanted)
    ensures Count([], w) == 0
  {
  }

  lemma DropBalances(a: Sched, b: Sched, k: Books, i: nat)
    requires i <= |a.queue| && b.trace == a.trace && b.table == a.table && b.named == a.named
    requires if i < |a.queue| then b.queue == Drop(a, i).queue && k == Books([], [a.queue[i]], [], [])
             else b.queue == a.queue && k == Books([], [], [], [])
    ensures Balances(a, b, [], k)
  {
    forall w ensures Count(a.queue, w) + Count(Due([], |a.table|, a.named), w) + Count(k.after, w)
      == Count(b.queue, w) + Count(k.served, w) + Count(k.thrown, w) + Count(k.before, w)
    {
      if i < |a.queue| { CountRemoved(a.queue, i, w); }
    }
  }

  lemma RoundBalances(p: Pooled, me: int, idleDone: bool)
    requires Ok(p)
    ensures var i := First(p.a.queue, me);
      Balances(p.a, PooledRound(p, me, idleDone).p.a, RoundEvents(p, i), RoundBooks(p, i))
  {
    hide Balances, PooledTurn, Ok;
    var i := First(p.a.queue, me);
    if LiveAt(p.a, i) {
      TurnBalances(p, i);
    } else {
      DropBalances(p.a, PooledRound(p, me, idleDone).p.a, RoundBooks(p, i), i);
    }
  }

  /** The events of the rest of the run. */
  function RunEvents(p: Pooled, me: int, idleDone: bool): seq<Event>
    requires Ok(p)
    decreases Fuel(p, idleDone)
  {
    PooledRoundKeeps(p, me, idleDone);
    var r, es := PooledRound(p, me, idleDone), RoundEvents(p, First(p.a.queue, me));
    if r.over then es else es + RunEvents(r.p, me, r.idleDone)
  }

  lemma {:induction false} RunBalances(p: Pooled, me: int, idleDone: bool)
    requires Ok(p)
    ensures Balances(p.a, RunPooled(p, me, idleDone).a, RunEvents(p, me, idleDone), RunBooks(p, me, idleDone))
    decreases Fuel(p, idleDone)
  {
    hide Balances, Both, PooledRound, RoundEvents, RoundBooks, Ok;
    var i, r := First(p.a.queue, me), PooledRound(p, me, idleDone);
    PooledRoundKeeps(p, me, idleDone);
    RoundBalances(p, me, idleDone);
    if !r.over {
      RunBalances(r.p, me, r.idleDone);
      BalancesTwice(p.a, r.p.a, RunPooled(r.p, me, r.idleDone).a, RoundEvents(p, i), RunEvents(r.p, me, r.idleDone),
        RoundBooks(p, i), RunBooks(r.p, me, r.idleDone));
    }
  }

  // ----- the laws

  /** All these entries name tasks that are over. */
  ghost predicate NameOver(q: seq<Slot>, table: seq<Task>) {
    forall i :: 0 <= i < |q| ==> q[i].task < |table| && !Live(table[q[i].task].status)
  }

  lemma {:induction false} StraysOver(a: Sched, q: seq<Slot>)
    ensures NameOver(StraysIn(a, q), a.table)
    decreases |q|
  {
    if q != [] { StraysOver(a, q[..|q| - 1]); }
  }

  lemma RoundOver(p: Pooled, me: int, idleDone: bool)
    requires Ok(p)
    ensures var k, r := RoundBooks(p, First(p.a.queue, me)), PooledRound(p, me, idleDone).p.a;
      NameOver(k.thrown, r.table) && NameOver(k.before, r.table)
  {
    var i := First(p.a.queue, me);
    if LiveAt(p.a, i) { StraysOver(Turn(p.a, i), Turn(p.a, i).queue); }
  }

  lemma StaysOver(q: seq<Slot>, a: Sched, b: Sched)
    requires NameOver(q, a.table) && Extends(a, b)
    ensures NameOver(q, b.table)
  {
  }

  lemma BothOver(b: Books, c: Books, table: seq<Task>)
    requires NameOver(b.thrown, table) && NameOver(b.before, table) && NameOver(c.thrown, table) && NameOver(c.before, table)
    ensures NameOver(Both(b, c).thrown, table) && NameOver(Both(b, c).before, table)
  {
  }

  /** What is thrown away, or handed to another task with the callback fiber, was of a task that is over. */
  lemma {:induction false} OnlySpentIsLost(p: Pooled, me: int, idleDone: bool)
    requires Ok(p)
    ensures var k, r := RunBooks(p, me, idleDone), RunPooled(p, me, idleDone).a;
      NameOver(k.thrown, r.table) && NameOver(k.before, r.table)
    decreases Fuel(p, idleDone)
  {
    hide NameOver, Both, PooledRound, RoundBooks, Ok;
    var b, r := RoundBooks(p, First(p.a.queue, me)), PooledRound(p, me, idleDone);
    PooledRoundKeeps(p, me, idleDone);
    RoundOver(p, me, idleDone);
    if !r.over {
      var q := RunPooled(r.p, me, r.idleDone).a;
      PooledExtends(r.p, me, r.idleDone);
      OnlySpentIsLost(r.p, me, r.idleDone);
      StaysOver(b.thrown, r.p.a, q);
      StaysOver(b.before, r.p.a, q);
      BothOver(b, RunBooks(r.p, me, r.idleDone), q.table);
    }
  }

  lemma {:induction false} NotAmong(q: seq<Slot>, table: seq<Task>, t: nat)
    requires NameOver(q, table) && t < |table| && Live(table[t].status)
    ensures Count(q, OfTask(t)) == 0
    decreases |q|
  {
    if q != [] { NotAmong(q[..|q| - 1], table, t); }
  }

  /** Over any run, for every task: its turns, its entries that were thrown away, and those that are left or
      went to another task with the callback fiber are its entries at the start, those that the trace asks
      for, and those that came to it with its fiber.  Of a task that is not over nothing is lost: it has had
      a turn for each. */
  lemma EveryEntryCounts(p: Pooled, me: int, idleDone: bool, t: nat)
    requires Ok(p)
    ensures var r, es, k := RunPooled(p, me, idleDone).a, RunEvents(p, me, idleDone), RunBooks(p, me, idleDone);
      var asked := Count(p.a.queue, OfTask(t)) + Count(Due(es, |p.a.table|, p.a.named), OfTask(t)) + Count(k.after, OfTask(t));
      && r.trace == p.a.trace + es
      && Turns(Projection(es, t)) + Count(k.thrown, OfTask(t)) + Count(k.before, OfTask(t)) + Count(r.queue, OfTask(t)) == asked
      && (t < |r.table| && Live(r.table[t].status) ==> Turns(Projection(es, t)) + Count(r.queue, OfTask(t)) == asked)
  {
    hide Count, Due, NameOver, RunPooled, RunEvents, RunBooks;
    RunBalances(p, me, idleDone);
    OnlySpentIsLost(p, me, idleDone);
    var r, k := RunPooled(p, me, idleDone).a, RunBooks(p, me, idleDone);
    if t < |r.table| && Live(r.table[t].status) {
      NotAmong(k.thrown, r.table, t);
      NotAmong(k.before, r.table, t);
    }
  }

  /** The same for entries with their pins: none is left with a pin that nobody asked for. */
  lemma EveryPinCounts(p: Pooled, me: int, idleDone: bool, x: Slot)
    requires Ok(p)
    ensures var r, es, k := RunPooled(p, me, idleDone).a, RunEvents(p, me, idleDone), RunBooks(p, me, idleDone);
      Count(k.served, Exactly(x)) + Count(k.thrown, Exactly(x)) + Count(k.before, Exactly(x)) + Count(r.queue, Exactly(x))
      == Count(p.a.queue, Exactly(x)) + Count(Due(es, |p.a.table|, p.a.named), Exactly(x)) + Count(k.after, Exactly(x))
  {
    hide Count, Due, RunPooled, RunEvents, RunBooks;
    RunBalances(p, me, idleDone);
  }

  /** Every spawn makes one task, with the program that was asked for, and no other is made; a task can be
      named exactly if the trace says so. */
  lemma EverySpawnIsBorn(p: Pooled, me: int, idleDone: bool)
    requires Ok(p)
    ensures var r, es := RunPooled(p, me, idleDone).a, RunEvents(p, me, idleDone);
      Progs(r.table) == Progs(p.a.table) + Born(es) && r.named == Named(es, |p.a.table|, p.a.named)
  {
    hide Count, Due, Born, Named, RunPooled, RunEvents, RunBooks;
    RunBalances(p, me, idleDone);
  }

  lemma {:induction false} NoStraysIn(a: Sched, q: seq<Slot>)
    requires forall k :: 0 <= k < |q| ==> !Stray(a, q[k])
    ensures StraysIn(a, q) == []
    decreases |q|
  {
    if q != [] { NoStraysIn(a, q[..|q| - 1]); }
  }

  /** With no callback that ends in its first slice having enqueued itself, no entry changes its task. */
  lemma {:induction false} NothingHandedOver(p: Pooled, me: int, idleDone: bool)
    requires Ok(p) && NoStrays(p.a) && AllDiscreet(p.a.table)
    ensures RunBooks(p, me, idleDone).before == RunBooks(p, me, idleDone).after == []
    decreases Fuel(p, idleDone)
  {
    var i, r := First(p.a.queue, me), PooledRound(p, me, idleDone);
    PooledRoundKeeps(p, me, idleDone);
    RoundAlike(p, me, idleDone);
    if LiveAt(p.a, i) {
      TurnDiscreet(p.a, i);
      assert DiscreetStatus(p.a.table[p.a.queue[i].task].status);
      NoStraysIn(Turn(p.a, i), Turn(p.a, i).queue);
    }
    if !r.over { NothingHandedOver(r.p, me, r.idleDone); }
  }
}
